/**
 * The part of the JOSE library the core relies on, as a collaborator. Signing is
 * abstract: a `Signer` turns a claim set into a token under a secret and an
 * algorithm, and checks a token's signature against a secret and a list of
 * accepted algorithms. `Decode` adds the registered-claim checks the core depends
 * on: the expiration time (section 4.1.4 of RFC 7519), read as `int(exp)`, and the
 * types of the subject (`sub`) and the token id (`jti`).
 */
module Jose {
  import opened Wrappers

  /** A positive integer, the denominator of a float. */
  type Positive = n: int | n > 0 witness 1

  /**
   * A JSON value of a claim set, as Python sees it after decoding: a string, an
   * integer, a float, a boolean, `None`, a list or a dict. A (finite) float is a
   * binary fraction, so it is held as the fraction `num / den`.
   */
  datatype ClaimValue =
    | Str(s: string)
    | Int(i: int)
    | Float(num: int, den: Positive)
    | Bool(b: bool)
    | Null
    | Array(items: seq<ClaimValue>)
    | Object(fields: map<string, ClaimValue>)

  /** A claim set: the token's JSON payload object. */
  type Claims = map<string, ClaimValue>

  /** Python truthiness of a claim value (`not v` is its negation). */
  predicate Truthy(v: ClaimValue) {
    match v
    case Str(s) => s != ""
    case Int(i) => i != 0
    case Float(num, _) => num != 0
    case Bool(b) => b
    case Null => false
    case Array(items) => items != []
    case Object(fields) => fields != map[]
  }

  /** `claims.get(key)`: the value under `key`, or `None` when there is none. */
  function Get(claims: Claims, key: string): (v: ClaimValue)
    ensures key !in claims ==> v == Null
    ensures key in claims ==> v == claims[key]
  {
    if key in claims then claims[key] else Null
  }

  /**
   * The signing primitives. `encode(claims, secret, algorithm)` produces a token;
   * `verify(token, secret, algorithms)` gives back the claims when the token parses,
   * its header names one of `algorithms` and its signature checks out under `secret`.
   */
  datatype Signer = Signer(
    encode: (Claims, string, string) -> string,
    verify: (string, string, seq<string>) -> Option<Claims>)

  /**
   * The signature axiom: a token verifies exactly under the secret it was signed
   * with, when its algorithm is accepted, and then yields the claims signed into it.
   */
  ghost predicate SignerCorrect(sg: Signer) {
    forall claims, secret, algorithm, key, algorithms ::
      sg.verify(sg.encode(claims, secret, algorithm), key, algorithms)
        == if key == secret && algorithm in algorithms then Some(claims) else None
  }

  /** The ways `jwt.decode` fails. */
  datatype DecodeError =
    | JWTError           // malformed token, bad signature or algorithm not accepted
    | ExpiredSignature   // `int(exp)` lies before `now`
    | JWTClaimsError     // `int(exp)` raises `ValueError`, or `sub` or `jti` is not a string
    | TypeError          // `int(exp)` raises `TypeError`, which the decoder does not catch

  /** Euclidean division of a natural number brackets it between consecutive multiples. */
  lemma DivBrackets(n: nat, den: Positive)
    ensures 0 <= (n / den) * den <= n < (n / den) * den + den
  {
    var q, m := n / den, n % den;
    assert n == q * den + m && 0 <= m < den;
    assert 0 <= q;
  }

  /** Python's `int(num / den)`: the quotient truncated toward zero. */
  function TruncDiv(num: int, den: Positive): (q: int)
    ensures num >= 0 ==> 0 <= q * den <= num < q * den + den
    ensures num < 0 ==> q * den - den < num <= q * den <= 0
  {
    if num >= 0 then
      DivBrackets(num, den);
      num / den
    else
      DivBrackets(-num, den);
      var p := (-num) / den;
      assert (-p) * den == -(p * den);
      -p
  }

  /** What `int(v)` gives for an `exp` claim. */
  datatype ExpReading = Seconds(t: int) | ValueError | TypeErrorRaised

  /**
   * `int(v)`: an integer is itself, a boolean is 0 or 1, a float is truncated
   * toward zero; a string raises `ValueError` (numeric strings are not modelled);
   * `None`, a list or a dict raises `TypeError`.
   */
  function ReadExp(v: ClaimValue): (e: ExpReading)
    ensures v.Int? ==> e == Seconds(v.i)
    ensures v.Bool? ==> e == Seconds(if v.b then 1 else 0)
    ensures v.Float? ==> e.Seconds? && (v.num >= 0 ==> 0 <= e.t * v.den <= v.num < e.t * v.den + v.den)
    ensures v.Float? ==> e.Seconds? && (v.num < 0 ==> e.t * v.den - v.den < v.num <= e.t * v.den <= 0)
    ensures (v.Null? || v.Array? || v.Object?) <==> e == TypeErrorRaised
    ensures v.Str? <==> e == ValueError
  {
    match v
    case Int(i) => Seconds(i)
    case Bool(b) => Seconds(if b then 1 else 0)
    case Float(num, den) => Seconds(TruncDiv(num, den))
    case Str(_) => ValueError
    case _ => TypeErrorRaised
  }

  /** A claim set is current at `now` when it has no `exp`, or `int(exp)` is a time not before `now`. */
  predicate Current(claims: Claims, now: int) {
    "exp" in claims ==> ReadExp(claims["exp"]).Seconds? && now <= ReadExp(claims["exp"]).t
  }

  /** The subject (`sub`) and the token id (`jti`), when present, are strings. */
  predicate IdentifiersTyped(claims: Claims) {
    && ("sub" in claims ==> claims["sub"].Str?)
    && ("jti" in claims ==> claims["jti"].Str?)
  }

  /** The registered-claim checks the decoder applies at `now`. */
  predicate ClaimsAccepted(claims: Claims, now: int) {
    Current(claims, now) && IdentifiersTyped(claims)
  }

  /**
   * `jwt.decode(token, key, algorithms=...)` at time `now`: the verified claims,
   * returned unmodified, when the signature checks out, the token has not expired
   * (it is still valid at the very second of its `exp`) and its `sub` and `jti`, if
   * any, are strings. The expiry is checked before the subject and the token id;
   * an `exp` that `int()` rejects with a `TypeError` escapes as that error.
   */
  function Decode(sg: Signer, token: string, key: string, algorithms: seq<string>, now: int)
    : (r: Result<Claims, DecodeError>)
    ensures r.Success? <==>
      sg.verify(token, key, algorithms).Some? && ClaimsAccepted(sg.verify(token, key, algorithms).value, now)
    ensures r.Success? ==> r.value == sg.verify(token, key, algorithms).value
    ensures sg.verify(token, key, algorithms).None? ==> r == Failure(JWTError)
    ensures r == Failure(ExpiredSignature) <==>
      && sg.verify(token, key, algorithms).Some?
      && var claims := sg.verify(token, key, algorithms).value;
      "exp" in claims && ReadExp(claims["exp"]).Seconds? && ReadExp(claims["exp"]).t < now
    ensures r == Failure(TypeError) <==>
      && sg.verify(token, key, algorithms).Some?
      && var claims := sg.verify(token, key, algorithms).value;
      "exp" in claims && ReadExp(claims["exp"]) == TypeErrorRaised
  {
    match sg.verify(token, key, algorithms)
    case None => Failure(JWTError)
    case Some(claims) =>
      var exp := if "exp" in claims then ReadExp(claims["exp"]) else Seconds(now);
      if exp == TypeErrorRaised then Failure(TypeError)
      else if exp == ValueError then Failure(JWTClaimsError)
      else if exp.t < now then Failure(ExpiredSignature)
      else if "sub" in claims && !claims["sub"].Str? then Failure(JWTClaimsError)
      else if "jti" in claims && !claims["jti"].Str? then Failure(JWTClaimsError)
      else Success(claims)
  }
}
