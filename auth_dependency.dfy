/**
 * `get_current_user` (app/dependencies/auth.py): the guard chain that turns a bearer
 * access token into the public view of the user it names, or one fixed 401 error.
 *
 * The file as written does not run: a comma is missing between `detail=` and
 * `headers=` (lines 26-27); the `jwt` it calls is `app.utils.jwt` (line 10), which has
 * no `decode`; and the `UserResponse` it builds (lines 48-53) omits `role`, which the
 * schema requires. This module models the evident intent: decoding with the JOSE
 * library, and a response that carries the stored role.
 */
module AuthDependency {
  import opened Wrappers
  import opened HttpErrors
  import opened UserModels
  import opened Jose
  import opened Jwt

  /** The public view of a user: everything but the password hash. */
  datatype UserResponse = UserResponse(id: int, email: string, role: string, firstName: string, lastName: string)

  /** The one error every rejection raises. */
  const CredentialsException: HttpError :=
    HttpError(401, "Could not validate credentials", map["WWW-Authenticate" := "Bearer"])

  /** The public projection of a stored user; the password hash plays no part in it. */
  function ToResponse(u: User): (r: UserResponse)
    ensures r.id == u.id && r.email == u.email && r.firstName == u.firstName && r.lastName == u.lastName
    ensures ParseRole(r.role) == Some(u.role)
  {
    RoleValueRoundTrip(u.role);
    UserResponse(u.id, u.email, u.role.Value(), u.firstName, u.lastName)
  }

  /** The public view is the same whatever the stored password hash is. */
  lemma ResponseIgnoresHash(u: User, h: string)
    ensures ToResponse(u) == ToResponse(u.(hashedPassword := h))
  {
  }

  /**
   * Python's `id == v` for an integer column value and a decoded claim: numbers
   * compare by value (`1 == 1.0`, `True == 1`); strings, `None`, lists and dicts
   * never equal an integer.
   */
  predicate IdEquals(id: int, v: ClaimValue) {
    match v
    case Int(i) => i == id
    case Float(num, den) => num == id * den
    case Bool(b) => id == (if b then 1 else 0)
    case _ => false
  }

  /**
   * `get_user_by_email(email)` for the claim taken from `sub`. Only a string can
   * equal a stored email, so any other claim finds nobody.
   */
  function LookupSubject(store: Store, sub: ClaimValue): (r: Option<User>)
    ensures r.Some? <==> sub.Str? && sub.s in store
    ensures r.Some? ==> r.value == store[sub.s]
  {
    match sub
    case Str(email) => FindByEmail(store, email)
    case _ => None
  }

  /**
   * `get_current_user`: decode under the access secret, require a truthy `sub` and
   * `user_id`, find the user by `sub`, require the stored id to equal `user_id`, and
   * return the public view. Every rejection is `CredentialsException`.
   */
  function GetCurrentUser(sg: Signer, cfg: Config, store: Store, token: string, now: int)
    : (r: Result<UserResponse, HttpError>)
    ensures r.Failure? ==> r.error == CredentialsException
    ensures ValidStore(store) && r.Success? ==> r.value.email in store && r.value == ToResponse(store[r.value.email])
  {
    match Decode(sg, token, cfg.accessSecret, [cfg.algorithm], now)
    case Failure(_) => Failure(CredentialsException)
    case Success(payload) =>
      var email := Get(payload, "sub");
      var userId := Get(payload, "user_id");
      if !Truthy(email) || !Truthy(userId) then Failure(CredentialsException)
      else
        match LookupSubject(store, email)
        case None => Failure(CredentialsException)
        case Some(user) =>
          if !IdEquals(user.id, userId) then Failure(CredentialsException)
          else Success(ToResponse(user))
  }

  /**
   * What an accepted token proves: it verifies under the access secret, is current,
   * names in `sub` the returned user's email and in `user_id` that user's stored id,
   * and the result is that user's public view.
   */
  lemma AcceptedTokenNamesTheUser(sg: Signer, cfg: Config, store: Store, token: string, now: int)
    requires ValidStore(store)
    requires GetCurrentUser(sg, cfg, store, token, now).Success?
    ensures var resp := GetCurrentUser(sg, cfg, store, token, now).value;
      && sg.verify(token, cfg.accessSecret, [cfg.algorithm]).Some?
      && var claims := sg.verify(token, cfg.accessSecret, [cfg.algorithm]).value;
      && ClaimsAccepted(claims, now)
      && Get(claims, "sub") == Str(resp.email) && resp.email != ""
      && resp.email in store && IdEquals(store[resp.email].id, Get(claims, "user_id"))
      && Truthy(Get(claims, "user_id"))
      && resp == ToResponse(store[resp.email])
  {
  }

  /**
   * Conversely, a token that verifies under the access secret, passes the decoder's
   * claim checks, has a truthy string `sub` naming a stored user and a truthy
   * `user_id` equal to that user's id (by Python's `==`, so `1.0` or `True` for id 1)
   * is accepted with that user's public view.
   */
  lemma PassingGuardsAccepted(sg: Signer, cfg: Config, store: Store, token: string, now: int)
    requires sg.verify(token, cfg.accessSecret, [cfg.algorithm]).Some?
    requires var claims := sg.verify(token, cfg.accessSecret, [cfg.algorithm]).value;
      var sub := Get(claims, "sub");
      var userId := Get(claims, "user_id");
      && ClaimsAccepted(claims, now)
      && Truthy(sub) && Truthy(userId)
      && sub.Str? && sub.s in store
      && IdEquals(store[sub.s].id, userId)
    ensures var sub := Get(sg.verify(token, cfg.accessSecret, [cfg.algorithm]).value, "sub");
      GetCurrentUser(sg, cfg, store, token, now) == Success(ToResponse(store[sub.s]))
  {
  }

  /**
   * A freshly issued access token for a stored user with a non-empty email and a
   * non-zero id authenticates that user until it expires, and not after. (A `jti`
   * in the data must be a string, or the decoder rejects every such token.)
   */
  lemma FreshAccessTokenAuthenticates(sg: Signer, cfg: Config, store: Store, u: User, data: Claims,
                                      expiresDelta: Option<int>, now: int, later: int)
    requires SignerCorrect(sg)
    requires ValidStore(store) && u.email in store && store[u.email] == u
    requires u.email != "" && u.id != 0
    requires "sub" in data && data["sub"] == Str(u.email)
    requires "user_id" in data && data["user_id"] == Int(u.id)
    requires "jti" in data ==> data["jti"].Str?
    ensures var t := CreateAccessToken(sg, cfg, data, expiresDelta, now);
      GetCurrentUser(sg, cfg, store, t.token, later)
        == if later <= t.expire then Success(ToResponse(u)) else Failure(CredentialsException)
  {
    var t := CreateAccessToken(sg, cfg, data, expiresDelta, now);
    IssuedTokenDecodes(sg, cfg.accessSecret, cfg.algorithm, data,
      Lifetime(expiresDelta, AccessDefaultLifetime(cfg)), now, cfg.accessSecret, later);
    var claims := WithTimes(data, t.iat, t.expire);
    assert Get(claims, "sub") == Str(u.email) && Get(claims, "user_id") == Int(u.id);
  }

  /** A token signed with any secret other than the access secret is rejected. */
  lemma ForeignSecretRejected(sg: Signer, cfg: Config, store: Store, claims: Claims, secret: string,
                              algorithm: string, now: int)
    requires SignerCorrect(sg)
    requires secret != cfg.accessSecret
    ensures GetCurrentUser(sg, cfg, store, sg.encode(claims, secret, algorithm), now) == Failure(CredentialsException)
  {
    assert sg.verify(sg.encode(claims, secret, algorithm), cfg.accessSecret, [cfg.algorithm]) == None;
  }

  /** With distinct secrets, a refresh token is never accepted as an access token. */
  lemma RefreshTokenRejected(sg: Signer, cfg: Config, store: Store, data: Claims,
                             expiresDelta: Option<int>, now: int, later: int)
    requires SignerCorrect(sg)
    requires cfg.accessSecret != cfg.refreshSecret
    ensures GetCurrentUser(sg, cfg, store, CreateRefreshToken(sg, cfg, data, expiresDelta, now).token, later)
      == Failure(CredentialsException)
  {
    var t := CreateRefreshToken(sg, cfg, data, expiresDelta, now);
    ForeignSecretRejected(sg, cfg, store, WithTimes(data, t.iat, t.expire), cfg.refreshSecret, cfg.algorithm, later);
  }

  /**
   * A verified, current claim set is still rejected when `sub` or `user_id` is
   * missing or falsy (an empty email, a zero id), when no user has that email, or
   * when the stored user's id differs from `user_id`.
   */
  lemma GuardFailuresRejected(sg: Signer, cfg: Config, store: Store, token: string, now: int)
    requires sg.verify(token, cfg.accessSecret, [cfg.algorithm]).Some?
    requires var claims := sg.verify(token, cfg.accessSecret, [cfg.algorithm]).value;
      var sub := Get(claims, "sub");
      var userId := Get(claims, "user_id");
      || !Truthy(sub) || !Truthy(userId)
      || !sub.Str? || sub.s !in store
      || !IdEquals(store[sub.s].id, userId)
    ensures GetCurrentUser(sg, cfg, store, token, now) == Failure(CredentialsException)
  {
  }

  /** A token that does not verify, or has expired, is rejected. */
  lemma DecodeFailuresRejected(sg: Signer, cfg: Config, store: Store, token: string, now: int)
    requires Decode(sg, token, cfg.accessSecret, [cfg.algorithm], now).Failure?
    ensures GetCurrentUser(sg, cfg, store, token, now) == Failure(CredentialsException)
  {
  }
}
