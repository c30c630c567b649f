/**
 * Token issuance (app/utils/jwt.py): access and refresh tokens whose claim set is
 * the caller's data with the issued-at (`iat`) and expiration (`exp`) claims of
 * sections 4.1.6 and 4.1.4 of RFC 7519 written in, signed with a secret chosen by
 * the kind of token; and the decoding of refresh tokens. Times are whole seconds
 * since the epoch; `now` is the clock reading of the call.
 */
module Jwt {
  import opened Wrappers
  import opened Jose

  /** The settings read from the environment, already parsed. */
  datatype Config = Config(
    accessSecret: string,
    refreshSecret: string,
    algorithm: string,
    accessExpireMinutes: int,
    refreshExpireDays: int)

  /** What both `create_*_token` functions return: the token, its `iat` and its `exp`. */
  datatype IssuedToken = IssuedToken(token: string, iat: int, expire: int)

  /** Seconds in a minute, the unit `timedelta(minutes=...)` is given in. */
  const SecondsPerMinute := 60

  /**
   * `expires_delta or default`: a custom delta (in seconds) is used only when it is
   * truthy, and a `timedelta` is falsy exactly when it is zero.
   */
  function Lifetime(expiresDelta: Option<int>, default: int): (ttl: int)
    ensures expiresDelta.Some? && expiresDelta.value != 0 ==> ttl == expiresDelta.value
    ensures expiresDelta == None || expiresDelta == Some(0) ==> ttl == default
  {
    match expiresDelta
    case Some(d) => if d != 0 then d else default
    case None => default
  }

  /** The access token's default lifetime: the configured number of minutes. */
  function AccessDefaultLifetime(cfg: Config): (ttl: int) {
    cfg.accessExpireMinutes * SecondsPerMinute
  }

  /**
   * The refresh token's default lifetime. The setting is named in days but is
   * passed as `minutes=`, so it is counted in minutes.
   */
  function RefreshDefaultLifetime(cfg: Config): (ttl: int) {
    cfg.refreshExpireDays * SecondsPerMinute
  }

  /**
   * The claim set to sign: a copy of `data` with `exp` and then `iat` written in.
   * Every other key of `data` keeps its value; `data` itself is a value and is
   * left as it was.
   */
  function WithTimes(data: Claims, iat: int, expire: int): (claims: Claims)
    ensures claims.Keys == data.Keys + {"exp", "iat"}
    ensures claims["exp"] == Int(expire) && claims["iat"] == Int(iat)
    ensures forall k :: k in data && k != "exp" && k != "iat" ==> claims[k] == data[k]
  {
    data["exp" := Int(expire)]["iat" := Int(iat)]
  }

  /**
   * The steps both `create_*_token` functions share, for a given secret and
   * lifetime: the token is issued at `now`, expires `lifetime` seconds later, and
   * with a correct signer verifies under `secret` to the data with those two times.
   */
  function Issue(sg: Signer, secret: string, algorithm: string, data: Claims, lifetime: int, now: int)
    : (t: IssuedToken)
    ensures t.iat == now && t.expire == now + lifetime
    ensures SignerCorrect(sg) ==> sg.verify(t.token, secret, [algorithm]) == Some(WithTimes(data, now, now + lifetime))
  {
    var iat := now;
    var expire := iat + lifetime;
    IssuedToken(sg.encode(WithTimes(data, iat, expire), secret, algorithm), iat, expire)
  }

  /** `create_access_token`, signed with the access secret. */
  function CreateAccessToken(sg: Signer, cfg: Config, data: Claims, expiresDelta: Option<int>, now: int)
    : (t: IssuedToken)
    ensures t.iat == now
    ensures t.expire - t.iat == Lifetime(expiresDelta, AccessDefaultLifetime(cfg))
  {
    Issue(sg, cfg.accessSecret, cfg.algorithm, data, Lifetime(expiresDelta, AccessDefaultLifetime(cfg)), now)
  }

  /** `create_refresh_token`, signed with the refresh secret. */
  function CreateRefreshToken(sg: Signer, cfg: Config, data: Claims, expiresDelta: Option<int>, now: int)
    : (t: IssuedToken)
    ensures t.iat == now
    ensures t.expire - t.iat == Lifetime(expiresDelta, RefreshDefaultLifetime(cfg))
  {
    Issue(sg, cfg.refreshSecret, cfg.algorithm, data, Lifetime(expiresDelta, RefreshDefaultLifetime(cfg)), now)
  }

  /** `decode_refresh_token`: decoding under the refresh secret and the configured algorithm only. */
  function DecodeRefreshToken(sg: Signer, cfg: Config, refreshToken: string, now: int)
    : (r: Result<Claims, DecodeError>)
    ensures r.Success? ==> sg.verify(refreshToken, cfg.refreshSecret, [cfg.algorithm]) == Some(r.value)
    ensures r.Success? ==> ClaimsAccepted(r.value, now)
    ensures sg.verify(refreshToken, cfg.refreshSecret, [cfg.algorithm]).Some?
            && ClaimsAccepted(sg.verify(refreshToken, cfg.refreshSecret, [cfg.algorithm]).value, now)
            ==> r == Success(sg.verify(refreshToken, cfg.refreshSecret, [cfg.algorithm]).value)
  {
    Decode(sg, refreshToken, cfg.refreshSecret, [cfg.algorithm], now)
  }

  /**
   * An issued token decodes, under the secret it was signed with, to the claim set
   * built from the data and the returned `iat` and `exp`, up to and including its
   * expiry second, unless the data's `sub` or `jti` is not a string; afterwards it
   * is reported expired; under any other secret it does not verify.
   */
  lemma IssuedTokenDecodes(sg: Signer, secret: string, algorithm: string, data: Claims,
                           lifetime: int, now: int, key: string, later: int)
    requires SignerCorrect(sg)
    ensures var t := Issue(sg, secret, algorithm, data, lifetime, now);
      Decode(sg, t.token, key, [algorithm], later)
        == if key != secret then Failure(JWTError)
           else if later > t.expire then Failure(ExpiredSignature)
           else if !IdentifiersTyped(data) then Failure(JWTClaimsError)
           else Success(WithTimes(data, t.iat, t.expire))
  {
    var t := Issue(sg, secret, algorithm, data, lifetime, now);
    var claims := WithTimes(data, t.iat, t.expire);
    assert sg.verify(sg.encode(claims, secret, algorithm), key, [algorithm])
      == if key == secret && algorithm in [algorithm] then Some(claims) else None;
  }

  /**
   * An access token verifies only under the access secret, and then carries the
   * caller's data with `iat` and `exp` equal to the returned timestamps.
   */
  lemma AccessTokenClaims(sg: Signer, cfg: Config, data: Claims, expiresDelta: Option<int>, now: int, key: string)
    requires SignerCorrect(sg)
    ensures var t := CreateAccessToken(sg, cfg, data, expiresDelta, now);
      && (sg.verify(t.token, key, [cfg.algorithm]).Some? <==> key == cfg.accessSecret)
      && (key == cfg.accessSecret ==> sg.verify(t.token, key, [cfg.algorithm]) == Some(WithTimes(data, t.iat, t.expire)))
  {
    var t := CreateAccessToken(sg, cfg, data, expiresDelta, now);
    var claims := WithTimes(data, t.iat, t.expire);
    assert t.token == sg.encode(claims, cfg.accessSecret, cfg.algorithm);
    assert sg.verify(sg.encode(claims, cfg.accessSecret, cfg.algorithm), key, [cfg.algorithm])
      == if key == cfg.accessSecret && cfg.algorithm in [cfg.algorithm] then Some(claims) else None;
  }

  /**
   * Round trip of a refresh token: decoding it at any time up to its expiry gives
   * back exactly the claims that were signed, whose `iat` and `exp` are the
   * returned ones (provided the data's `sub` and `jti`, if any, are strings, as
   * the decoder demands); after its expiry it is rejected as expired.
   */
  lemma RefreshTokenRoundTrip(sg: Signer, cfg: Config, data: Claims, expiresDelta: Option<int>, now: int, later: int)
    requires SignerCorrect(sg)
    ensures var t := CreateRefreshToken(sg, cfg, data, expiresDelta, now);
      DecodeRefreshToken(sg, cfg, t.token, later)
        == if later > t.expire then Failure(ExpiredSignature)
           else if !IdentifiersTyped(data) then Failure(JWTClaimsError)
           else Success(WithTimes(data, t.iat, t.expire))
  {
    IssuedTokenDecodes(sg, cfg.refreshSecret, cfg.algorithm, data,
      Lifetime(expiresDelta, RefreshDefaultLifetime(cfg)), now, cfg.refreshSecret, later);
  }

  /** `decode_refresh_token` accepts a signed token only if it was signed with the refresh secret. */
  lemma DecodeRefreshOnlyUnderRefreshSecret(sg: Signer, cfg: Config, claims: Claims, secret: string,
                                            algorithm: string, now: int)
    requires SignerCorrect(sg)
    requires DecodeRefreshToken(sg, cfg, sg.encode(claims, secret, algorithm), now).Success?
    ensures secret == cfg.refreshSecret && algorithm == cfg.algorithm
  {
    assert sg.verify(sg.encode(claims, secret, algorithm), cfg.refreshSecret, [cfg.algorithm])
      == if cfg.refreshSecret == secret && algorithm in [cfg.algorithm] then Some(claims) else None;
  }

  /** With distinct secrets, an access token is never accepted as a refresh token. */
  lemma AccessTokenIsNotARefreshToken(sg: Signer, cfg: Config, data: Claims, expiresDelta: Option<int>,
                                      now: int, later: int)
    requires SignerCorrect(sg)
    requires cfg.accessSecret != cfg.refreshSecret
    ensures DecodeRefreshToken(sg, cfg, CreateAccessToken(sg, cfg, data, expiresDelta, now).token, later).Failure?
  {
    IssuedTokenDecodes(sg, cfg.accessSecret, cfg.algorithm, data,
      Lifetime(expiresDelta, AccessDefaultLifetime(cfg)), now, cfg.refreshSecret, later);
  }

  /**
   * Without a truthy `expires_delta` a refresh token lives the configured number of
   * "days" counted as minutes, and a zero delta behaves like no delta at all.
   */
  lemma RefreshDefaultCountsDaysAsMinutes(sg: Signer, cfg: Config, data: Claims, now: int)
    ensures CreateRefreshToken(sg, cfg, data, None, now).expire == now + cfg.refreshExpireDays * 60
    ensures CreateRefreshToken(sg, cfg, data, Some(0), now) == CreateRefreshToken(sg, cfg, data, None, now)
  {
  }

  /** Without a truthy `expires_delta` an access token lives the configured number of minutes. */
  lemma AccessDefaultCountsMinutes(sg: Signer, cfg: Config, data: Claims, now: int)
    ensures CreateAccessToken(sg, cfg, data, None, now).expire == now + cfg.accessExpireMinutes * 60
    ensures CreateAccessToken(sg, cfg, data, Some(0), now) == CreateAccessToken(sg, cfg, data, None, now)
  {
  }
}
