/**
 * `AuthController` (app/controllers/auth_controller.py): the module-level password
 * rule set and `signup_user`, which rejects a weak password with a fixed 400 error
 * and otherwise hashes the password and checks the hash against it.
 */
module AuthController {
  import opened Wrappers
  import opened HttpErrors
  import opened PasswordPolicy

  /** The configured rule set: length 8 to 100, an upper, a lower and a digit, no spaces. */
  const Schema: seq<Rule> := [
    Rule(Min(8), true),
    Rule(Max(100), true),
    Rule(Has(Uppercase), true),
    Rule(Has(Lowercase), true),
    Rule(Has(Digits), true),
    Rule(Has(Spaces), false)
  ]

  /** The password policy stated directly, as the rule set is meant to read. */
  predicate StrongPassword(p: string) {
    && 8 <= |p| <= 100
    && (exists i :: 0 <= i < |p| && 'A' <= p[i] <= 'Z')
    && (exists i :: 0 <= i < |p| && 'a' <= p[i] <= 'z')
    && (exists i :: 0 <= i < |p| && '0' <= p[i] <= '9')
    && (forall i :: 0 <= i < |p| ==> !InClass(p[i], Spaces))
  }

  /** The configured rule set accepts exactly the passwords the policy describes. */
  lemma SchemaMeansStrongPassword(p: string)
    ensures Validate(Schema, p) <==> StrongPassword(p)
  {
    ValidateAll(Schema, p);
    assert Validate(Schema, p) <==>
      && RuleMet(Schema[0], p) && RuleMet(Schema[1], p) && RuleMet(Schema[2], p)
      && RuleMet(Schema[3], p) && RuleMet(Schema[4], p) && RuleMet(Schema[5], p);
    ContainsIff(p, Uppercase);
    ContainsIff(p, Lowercase);
    ContainsIff(p, Digits);
    ContainsIff(p, Spaces);
  }

  /** No password containing a space passes the rule set. */
  lemma SpaceIsRejected(p: string, i: int)
    requires 0 <= i < |p| && p[i] == ' '
    ensures !Validate(Schema, p)
  {
    SchemaMeansStrongPassword(p);
    assert InClass(p[i], Spaces);
  }

  /** The example password of the request schema passes the rule set. */
  lemma ExamplePasswordAccepted()
    ensures Validate(Schema, "Password123")
  {
    var good := "Password123";
    SchemaMeansStrongPassword(good);
    assert 'A' <= good[0] <= 'Z' && 'a' <= good[1] <= 'z' && '0' <= good[8] <= '9';
    assert forall i :: 0 <= i < |good| ==> !InClass(good[i], Spaces);
  }

  /** A password of lowercase letters only is rejected. */
  lemma LowercaseOnlyRejected()
    ensures !Validate(Schema, "password")
  {
    var weak := "password";
    assert !Contains(weak, Uppercase);
    ValidateAll(Schema, weak);
    assert !RuleMet(Schema[2], weak);
  }

  /** The body of `SignupUserRequest`. */
  datatype SignupUserRequest = SignupUserRequest(
    firstName: string, lastName: string, email: string, password: string)

  /**
   * The bcrypt context as a collaborator: `hash` takes the random salt as an
   * explicit argument, `verify` checks a password against a digest.
   */
  datatype Hasher = Hasher(hash: (string, nat) -> string, verify: (string, string) -> bool)

  /** The one property of the hasher the model relies on: a password verifies against its own hash. */
  ghost predicate HasherCorrect(h: Hasher) {
    forall p, salt :: h.verify(p, h.hash(p, salt))
  }

  /** The 400 error raised for a password that fails the rule set, whichever rule failed. */
  const WeakPasswordError: HttpError := HttpError(400,
    "Password does not meet complexity requirements. "
    + "It must have at least 8 characters, include uppercase, lowercase, digits, "
    + "and must not contain spaces.",
    map[])

  /**
   * `signup_user`: a weak password is rejected with `WeakPasswordError`; otherwise the
   * result is whether the password verifies against its fresh hash, which is always
   * so for a correct hasher.
   */
  function SignupUser(h: Hasher, salt: nat, payload: SignupUserRequest): (r: Result<bool, HttpError>)
    ensures r.Failure? <==> !StrongPassword(payload.password)
    ensures r.Failure? ==> r.error == WeakPasswordError && r.error.status == 400
    ensures HasherCorrect(h) ==> (r == Success(true) <==> StrongPassword(payload.password))
  {
    SchemaMeansStrongPassword(payload.password);
    var plainTextPassword := payload.password;
    if !Validate(Schema, plainTextPassword) then
      Failure(WeakPasswordError)
    else
      var hashedPassword := h.hash(plainTextPassword, salt);
      Success(h.verify(plainTextPassword, hashedPassword))
  }

  /**
   * A weak password is rejected before the hasher is used: the outcome is the same
   * whatever hasher and salt are supplied.
   */
  lemma RejectionPrecedesHashing(h1: Hasher, salt1: nat, h2: Hasher, salt2: nat, payload: SignupUserRequest)
    requires !StrongPassword(payload.password)
    ensures SignupUser(h1, salt1, payload) == SignupUser(h2, salt2, payload) == Failure(WeakPasswordError)
  {
  }

  /** Only the password is consulted: the email and the names never change the outcome. */
  lemma OutcomeDependsOnlyOnPassword(h: Hasher, salt: nat, a: SignupUserRequest, b: SignupUserRequest)
    requires a.password == b.password
    ensures SignupUser(h, salt, a) == SignupUser(h, salt, b)
  {
  }
}
