# auth-service authentication core, modelled in Dafny

This project models the authentication core of the auth-service web application:

- **Password policy and signup** (`app/controllers/auth_controller.py`). The module-level
  `PasswordValidator` rule set is length 8 to 100, at least one uppercase letter, one
  lowercase letter and one digit, and no spaces. `AuthController.signup_user` rejects a
  password that breaks any rule with one fixed 400 error. Otherwise it hashes the password
  with bcrypt and returns whether the password verifies against that hash.
- **Token issuance** (`app/utils/jwt.py`). `create_access_token` and `create_refresh_token`
  copy the caller's claim map and write in `exp` and `iat`, the registered claims of
  sections 4.1.4 and 4.1.6 of RFC 7519. `exp` is `iat` plus the caller's `expires_delta`
  when that is truthy, and a configured default otherwise. Each kind of token is signed
  with its own secret. `decode_refresh_token` decodes under the refresh secret only.
- **Access-token authentication** (`app/dependencies/auth.py`, `get_current_user`). The token
  is decoded under the access secret. `sub` and `user_id` must be truthy. The user is looked
  up by email, and the stored id must equal `user_id`. The result is the user's public view.
  Every rejection is the same 401 "Could not validate credentials" error with
  `WWW-Authenticate: Bearer`.
- **The user record** (`app/db/models/user_models.py`): the two-valued `UserRole`, the `User`
  row with its default role `USER`, and the store keyed by the unique email.

Collaborators are parameters. bcrypt is a `Hasher` record of two functions, with the random
salt passed in. Its only assumed property is `HasherCorrect`: a password verifies against
its own hash. python-jose signing is a `Signer` record. Its assumed property is
`SignerCorrect`: a token verifies exactly under the secret it was signed with, when its
algorithm is accepted, and then yields the signed claims. `Jose.Decode` adds the library's
claim checks that matter here. `exp` is read as `int(exp)`, and a token is current while
`now` is not past it. `sub` and `jti`, when present, must be strings. Claim values are JSON
values as Python decodes them: strings, integers, floats, booleans, `None`, lists and dicts.
A float is held as an integer fraction, since every finite float is a binary fraction. This
keeps the claim sets countable, so a signer satisfying `SignerCorrect` can exist. The clock and the
environment settings are parameters too: `now` is an integer count of seconds, and
`Jwt.Config` holds the parsed settings. The lemmas that rely on a collaborator's property
take it as a `requires`.

Two behaviours of the code are reproduced as written:

- The refresh default lifetime reads `JWT_REFRESH_TOKEN_EXPIRE_DAYS` but passes it as
  `minutes=`, so the number is counted in minutes (`Jwt.RefreshDefaultLifetime`).
- A zero `expires_delta` falls back to the default, because `timedelta(0)` is falsy.

Where the code and its own comments or callers disagree, the model follows the code:

- The `signup_user` docstring (`app/controllers/auth_controller.py:22-27`) promises an email
  check and the creation of a user. The code does neither: the email check is only a comment
  (line 29), and it returns a boolean.
- The routes call `login_user` and `refresh_user` (`app/routes/auth_routes.py:45`, `:62`),
  but `AuthController` defines neither, so there is no login or refresh operation to model.
- The `decode_refresh_token` docstring (`app/utils/jwt.py:64-65`) promises an `HTTPException`
  for an invalid or expired token. The code raises none: `HTTPException` is imported (line 4)
  but never raised, so the library's own errors escape. `Jwt.DecodeRefreshToken` returns
  those errors (`JWTError`, `ExpiredSignature`, `JWTClaimsError`, and the `TypeError` that
  `int()` raises for a `None`, list or dict `exp`).

`app/dependencies/auth.py` cannot run as written:

- A comma is missing between `detail=` and `headers=` (lines 26-27).
- The `jwt` it calls is `app.utils.jwt` (line 10), which defines no `decode`.
- The `UserResponse` it builds (lines 48-53) omits `role`, which `app/schemas/user_schemas.py:7`
  requires.

The model follows the evident intent. It decodes with the JOSE library, and its
`UserResponse` carries the stored role's value.

Files: `wrappers.dfy` (Option, Result), `http_errors.dfy` (the `HTTPException` shape),
`user_models.dfy`, `password_policy.dfy` (the validator library's rule semantics),
`auth_controller.dfy`, `jose.dfy`, `jwt.dfy`, `auth_dependency.dfy`.

## Model

| member | source | states |
|---|---|---|
| `UserModels.ParseRole` | app/db/models/user_models.py:5-11 | a role value parses exactly when it is "ADMIN" or "USER", so there are exactly two roles, and it parses back to the role of that value |
| `UserModels.RoleValueRoundTrip` | app/db/models/user_models.py:10-11 | each role's stored value is its own name and parses back to that role |
| `UserModels.NewUser` | app/db/models/user_models.py:27-37 | a new row keeps every supplied column; a role that is not supplied defaults to USER |
| `UserModels.FindByEmail` | app/interfaces/user_interface.py:30-40 | the lookup finds a user exactly when the email is stored, and in a valid store the user found has that email |
| `UserModels.StoreKeysIdentify` | app/db/models/user_models.py:27-28 | in a valid store, two users with the same email or the same primary key are the same user |
| `PasswordPolicy.ContainsIff` | app/controllers/auth_controller.py:11-14 | the scan for a character class succeeds exactly when some character of the password is in that class |
| `PasswordPolicy.ValidateAll` | app/controllers/auth_controller.py:7-14 | a password passes a rule set exactly when every rule holds, where a `no()` rule holds when its property is absent |
| `AuthController.SchemaMeansStrongPassword` | app/controllers/auth_controller.py:7-14 | the rule set accepts a password exactly when its length is 8 to 100, it has an uppercase letter, a lowercase letter and a digit, and it has no whitespace |
| `AuthController.SpaceIsRejected` | app/controllers/auth_controller.py:14 | a password with a space anywhere in it is rejected |
| `AuthController.ExamplePasswordAccepted` | app/schemas/auth_schemas.py:15-17 | the request schema's example password "Password123" passes the rule set |
| `AuthController.LowercaseOnlyRejected` | app/controllers/auth_controller.py:11 | "password", with no uppercase letter, is rejected |
| `AuthController.SignupUser` | app/controllers/auth_controller.py:21-46 | signup fails exactly when the password breaks the policy, always with the same 400 error; with a correct hasher it returns true exactly when the password is strong |
| `AuthController.RejectionPrecedesHashing` | app/controllers/auth_controller.py:34-44 | a weak password gives the fixed 400 error whatever hasher and salt are supplied, so hashing plays no part in a rejection |
| `AuthController.OutcomeDependsOnlyOnPassword` | app/controllers/auth_controller.py:32-34 | two requests with the same password have the same outcome, whatever their email and names |
| `Jose.Decode` | app/utils/jwt.py:67 | decoding succeeds exactly when the signature checks out under the key, the claims are current at `now` and `sub`/`jti` are strings, and then it returns the verified claims unmodified; a bad signature gives `JWTError`; it fails as expired exactly when `int(exp)` lies before `now`, and with an uncaught `TypeError` exactly when `exp` is `None`, a list or a dict |
| `Jose.ReadExp` | app/utils/jwt.py:67 | `int(exp)` as the decoder applies it: an integer is itself, a boolean is 0 or 1, a float is truncated toward zero, a string raises `ValueError`, and `None`, a list or a dict raises `TypeError` |
| `Jwt.Lifetime` | app/utils/jwt.py:29 | a nonzero `expires_delta` is the lifetime; a missing or zero one falls back to the default |
| `Jwt.WithTimes` | app/utils/jwt.py:27-31 | the signed claims have the data's keys plus `exp` and `iat`, carry the given times under those two, and keep every other value of the data; the caller's map is a value and stays unchanged |
| `Jwt.Issue` | app/utils/jwt.py:27-33 | a token is issued at `now` and expires `lifetime` seconds later; with a correct signer it verifies under its secret to the data with exactly those two times (the same steps as lines 46-52) |
| `Jwt.CreateAccessToken` | app/utils/jwt.py:16-33 | the access token is issued at `now` and lives the custom delta or the configured minutes |
| `Jwt.CreateRefreshToken` | app/utils/jwt.py:35-52 | the refresh token is issued at `now` and lives the custom delta or the refresh default |
| `Jwt.DecodeRefreshToken` | app/utils/jwt.py:54-68 | decoding succeeds exactly when the token verifies under the refresh secret and the configured algorithm and its claims pass the decoder's checks, and then it returns the verified claims |
| `Jwt.IssuedTokenDecodes` | app/utils/jwt.py:27-33 | an issued token decodes under its own secret to the data plus the returned `iat` and `exp`, up to and including its expiry second, unless the data's `sub` or `jti` is not a string; after that it is expired; under any other secret it does not verify |
| `Jwt.AccessTokenClaims` | app/utils/jwt.py:28-33 | an access token verifies under the access secret and no other, and carries the data with `iat` and `exp` equal to the returned timestamps |
| `Jwt.RefreshTokenRoundTrip` | app/utils/jwt.py:46-67 | decoding a fresh refresh token up to its expiry returns exactly the encoded claims when their `sub` and `jti` are strings, and a claims error otherwise; later it fails as expired |
| `Jwt.DecodeRefreshOnlyUnderRefreshSecret` | app/utils/jwt.py:67 | `decode_refresh_token` accepts a token only if it was signed with the refresh secret and the configured algorithm |
| `Jwt.AccessTokenIsNotARefreshToken` | app/utils/jwt.py:32 | with distinct secrets, an access token is never accepted by `decode_refresh_token` |
| `Jwt.RefreshDefaultCountsDaysAsMinutes` | app/utils/jwt.py:48 | without a custom delta a refresh token expires `JWT_REFRESH_TOKEN_EXPIRE_DAYS` times 60 seconds after issue; a zero delta gives the same token |
| `Jwt.AccessDefaultCountsMinutes` | app/utils/jwt.py:29 | without a custom delta an access token expires `JWT_ACCESS_TOKEN_EXPIRE_MINUTES` times 60 seconds after issue; a zero delta gives the same token |
| `AuthDependency.ToResponse` | app/dependencies/auth.py:48-53 | the public view carries the stored id, email, first and last name, and the stored role's value |
| `AuthDependency.ResponseIgnoresHash` | app/dependencies/auth.py:48-53 | the public view does not depend on the password hash |
| `AuthDependency.LookupSubject` | app/dependencies/auth.py:42-43 | the user is found by the `sub` claim, and only a string `sub` that is a stored email finds one |
| `AuthDependency.GetCurrentUser` | app/dependencies/auth.py:19-53 | every rejection is the single 401 credentials error; in a valid store an accepted token returns the public view of the stored user with the returned email; `not` is Python truthiness (`Jose.Truthy`) and the id comparison is Python `==` (`AuthDependency.IdEquals`: `1 == 1.0 == True`) |
| `AuthDependency.AcceptedTokenNamesTheUser` | app/dependencies/auth.py:30-53 | an accepted token verified under the access secret and passes the decoder's claim checks; its truthy `sub` is the user's email and its truthy `user_id` equals the stored id |
| `AuthDependency.PassingGuardsAccepted` | app/dependencies/auth.py:30-53 | a token that verifies, passes the claim checks, has a truthy string `sub` naming a stored user and a truthy `user_id` equal to the stored id by Python `==` is accepted with that user's public view |
| `AuthDependency.FreshAccessTokenAuthenticates` | app/dependencies/auth.py:30-53 | an access token issued for a stored user with a non-empty email and a nonzero id (and a string `jti`, if any) authenticates that user up to its expiry, and gives the 401 after |
| `AuthDependency.ForeignSecretRejected` | app/dependencies/auth.py:31 | a token signed with any secret other than the access secret gets the 401 |
| `AuthDependency.RefreshTokenRejected` | app/dependencies/auth.py:14 | with distinct secrets, a refresh token gets the 401 |
| `AuthDependency.GuardFailuresRejected` | app/dependencies/auth.py:32-46 | a verified token is still rejected when `sub` or `user_id` is missing or falsy (empty email, id 0), when no user has that email, or when the stored id differs |
| `AuthDependency.DecodeFailuresRejected` | app/dependencies/auth.py:30-40 | any decoding failure (bad signature, malformed token, expiry, an `exp` that `int()` rejects with `ValueError` or `TypeError`, a non-string `sub` or `jti`) becomes the 401 |

## Left out

- bcrypt: salting, the cost factor and constant-time comparison belong to the passlib library. The model keeps only the property that a password verifies against its own hash (`HasherCorrect`).
- Signature cryptography of python-jose: it is abstract. The model assumes that a token verifies exactly under its signing secret and an accepted algorithm (`SignerCorrect`).
- Jose.Decode: checks the `exp` claim and the types of `sub` and `jti`. The library's other registered-claim checks (`nbf`, `aud`, `iss`, `at_hash`, the type of `iat`) are not modelled.
- Jose.ReadExp: a string `exp` always raises `ValueError` here. Python's `int()` would accept a numeric string such as `"1700000000"`; that parse is not modelled. Floats are exact fractions, so infinities and NaN are not represented.
- Times are whole seconds. `datetime` microseconds are dropped, as the library drops them when it signs. The returned `iat` and `exp` are the same integers as the signed ones.
- `datetime.now`, `os.getenv`, `load_dotenv` and the `int(...)` parsing of settings are not modelled. They become the `now` parameter and the `Jwt.Config` record. A missing or non-numeric setting, which would raise, is not modelled.
- AuthDependency.LookupSubject: a truthy `sub` that is not a string finds no user. The decoder already rejects such a `sub` before the lookup, so the lookup never sees one from `GetCurrentUser`; how the database would compare it with the text `email` column is not modelled.
- Failures of the database session (an unavailable store) are not modelled; the store is a map from email to user.
- HTTP routing and bootstrap (`app/routes/*`, `app/main.py`) only rethrow errors or wrap them as 500s, and are not part of this model. The `login_user` and `refresh_user` they call do not exist in the controller, so there is no login or refresh logic to model.
- `UserInterface.create_user`, `get_all_users` and the admin controller are thin store delegations and are not part of this model.
- Character classes are ASCII. Whitespace is space, tab, line feed, carriage return, vertical tab and form feed. The validator library's exact Unicode classes are not modelled.
