# Auth service core: refresh-token ledger, token issuance, role gate, registration

A Dafny model of the authentication core of the pizza-stack auth service. It covers:

- the **refresh-token ledger**, a table of refresh-token rows keyed by a generated id;
- the **token-issuance rules**: an RS256 access token signed with the configured private key, and an HS256 refresh token signed with the shared secret whose `jti` names its ledger row;
- the **role gate** `canAccess(roles)`;
- the **register workflow**, which ties the user store, the ledger, the cookies and the response together;
- the admin-side **user creation** and the app's **global error handler**.

Each source file is one module:

| module | file |
|---|---|
| `TokenService` | `token_service.dfy` |
| `Middlewares` | `can_access.dfy` |
| `AuthController` | `auth_controller.dfy` |
| `UserService` | `user_service.dfy` |
| `UserController` | `user_controller.dfy` |
| `App` | `app.dfy` |

Supporting modules model what the core calls into:

- `Entities`: the two TypeORM tables, each a class holding a map from generated id to row, plus the next value of the id sequence.
- `Express`: the response object and the `next` callback.
- `Logging`: the logger, as a sink that keeps its records.
- `HttpErrors`: the error values.
- `Jwt`: a token as its claims plus the key that signed it. The signature is not computed.
- `Decimal`: JavaScript's `String(n)` for the ids.

Inputs from the outside world are parameters:

- the clock reading `now`, in milliseconds;
- the contents of the private-key file, as an `Option` (None when it cannot be read);
- the configuration (`Config`);
- the validator's findings, carried in the request.

The user store does not return the record it saves (`UserService.create` returns nothing). Both controllers read `user.id` from that return value anyway. The model has the store both ways:

- `UserService.CreateAsWritten` and the controllers built on it (`RegisterAsWritten`, `UserController.CreateAsWritten`) return nothing.
- `UserService.Create` returns the saved record. `AuthController.Register` and `UserController.Create` use it. This corrected store is the one the rest of the model uses.

See "## Findings".

The model follows the code where it departs from the usual behaviour of such a service:

- A duplicate email is rejected only by the unique `email` column (src/entity/User.ts:22). The store's error carries no status, so the global handler answers 500, not 400.
- The password is stored verbatim. `UserService.create` does not hash it.
- The store writes no role. In the model a registered user therefore has none, neither does any token issued at registration, and the `/users` gate refuses such a token. The database schema's handling of a row without `role` is not modelled (see "## Left out").
- Registration reads the private key from a file. It does not use `generateAccessToken`. It checks only that the file can be read, not that the key is non-empty.

## Model

| member | source | states |
|---|---|---|
| `Decimal.NatToString` | src/services/TokenService.ts:37 | `String(id)` is a non-empty numeral of decimal digits with no leading zero; it is one character long exactly for ids below 10 |
| `Decimal.ValueOfNatToString` | src/services/TokenService.ts:37 | reading the numeral of an id back as a number gives the id |
| `Decimal.NatToStringInjective` | src/services/TokenService.ts:37 | two ids have the same numeral (hence the same `jti` or `sub`) if and only if they are equal |
| `HttpErrors.CreateHttpError` | src/middlewares/canAccess.ts:11 | an http error carries the given status and message, and the name http-errors gives that status (ForbiddenError, InternalServerError) |
| `Entities.UserRepository.Save` | src/entity/User.ts:11-26 | a save with a new email stores one row under the next generated id and returns it; a repeated email is rejected with the unique-constraint error and nothing changes; ids stay unique and emails stay distinct |
| `Entities.RefreshTokenRepository.Save` | src/entity/RefreshToken.ts:11-27 | a save stores one row, owned by the given user with the given expiry, under a fresh id and returns it; other rows are unchanged and the id sequence advances by one |
| `Entities.RefreshTokenRepository.Delete` | src/services/TokenService.ts:52-56 | a delete removes exactly the row with that id if present and reports one affected row, else reports none and changes nothing |
| `Express.Response.Status` | src/controllers/AuthController.ts:88 | `res.status(code)` sets the status and leaves the body and cookies alone |
| `Express.Response.Json` | src/controllers/AuthController.ts:88 | `res.json(body)` sets the body and leaves the status and cookies alone |
| `Express.Response.SetCookie` | src/controllers/AuthController.ts:74-86 | `res.cookie` appends one cookie with the given name, value and attributes |
| `Express.Next.Call` | src/controllers/AuthController.ts:89-92 | each call of `next` is recorded once, in order |
| `Logging.Logger.Log` | src/controllers/AuthController.ts:29-38 | each log call appends exactly its record |
| `TokenService.SignAccessToken` | src/services/TokenService.ts:23-27 | the access-token `sign` call, also made inline at src/controllers/AuthController.ts:54-58: the token has the given payload and key, RS256, lifetime "1h", issuer "auth-service" and no `jti` |
| `TokenService.GenerateAccessToken` | src/services/TokenService.ts:11-30 | fails with a 500 "Could not find private key in config" and no token exactly when the key is unset or empty; otherwise the token has the given payload, the configured key, RS256, lifetime "1h", issuer "auth-service" and no `jti` |
| `TokenService.GenerateRefreshToken` | src/services/TokenService.ts:32-41 | the token has the given payload, the shared secret, HS256, lifetime "1y", issuer "auth-service", and a `jti` that is exactly the decimal numeral of the ledger row's id, which reads back as that id |
| `TokenService.PersistRefreshToken` | src/services/TokenService.ts:43-50 | adds exactly one row under the sequence's next id, which no row holds, owned by the user and expiring at now + 31,536,000,000 ms, returns it, changes no other row and advances the sequence by one |
| `TokenService.DeleteRefreshToken` | src/services/TokenService.ts:52-56 | afterwards no row has that id, every other row is unchanged, an absent id is not an error, and the id sequence is left alone, so the deleted id is never handed out again |
| `TokenService.TokensShareIssuerAndPayload` | src/services/TokenService.ts:23-40 | the access and refresh tokens for one payload have the same issuer and payload, different algorithms, and only the refresh token has a `jti` |
| `TokenService.DeleteIsIdempotent` | src/services/TokenService.ts:52-56 | deleting twice is the same as deleting once; deleting an absent id leaves the ledger unchanged |
| `TokenService.DeleteKeepsOtherRows` | src/services/TokenService.ts:52-56 | a delete removes the named id and keeps every other row with its value, adding none |
| `TokenService.PersistedTokenIsBacked` | src/services/TokenService.ts:32-50 | a refresh token bound to a row just stored names a row of the ledger |
| `TokenService.AbsentRowIsNotBacked` | src/services/TokenService.ts:32-41 | a refresh token whose row id the ledger does not hold names no row of the ledger |
| `TokenService.DeletedTokenIsRevoked` | src/services/TokenService.ts:32-56 | after its row is deleted, a refresh token's `jti` names no row of the ledger |
| `TokenService.InsertsKeepIdAbsent` | src/entity/RefreshToken.ts:13-14 | inserting rows whose ids all differ from an absent id leaves that id absent |
| `TokenService.RevokedTokenStaysRevoked` | src/services/TokenService.ts:32-56 | revocation lasts: with the serial id column, later persists take ids at or above the sequence's next value, so after a row is deleted no later persists make its refresh token honoured again |
| `TokenService.DeleteSparesOtherTokens` | src/services/TokenService.ts:32-56 | deleting one row leaves a token bound to any other stored row honoured |
| `TokenService.RotationReplacesOldToken` | src/services/TokenService.ts:43-56 | persisting a new row and then deleting an older one keeps the new row, drops the old one, keeps the ledger's size, and leaves only the new refresh token honoured |
| `Middlewares.CanAccess` | src/middlewares/canAccess.ts:5-17 | exactly one `next` call: the request continues if and only if the token's role equals some allowed role; otherwise, and for a token with no role claim, a 403 "You Don't have enough permissions" is forwarded |
| `Middlewares.MissingRoleIsRefused` | src/middlewares/canAccess.ts:8-13 | a token without a role claim is refused with the 403 by every allow-list |
| `Middlewares.EmptyAllowListRejects` | src/middlewares/canAccess.ts:10-13 | an empty allow-list rejects every role with the 403 |
| `Middlewares.AllowListMonotone` | src/middlewares/canAccess.ts:10 | enlarging the allow-list never turns a passing request into a rejected one |
| `Middlewares.OnlyRoleIsRead` | src/middlewares/canAccess.ts:7-10 | the verdict depends on `req.auth.role` alone |
| `Middlewares.MatchingIsCaseSensitive` | src/middlewares/canAccess.ts:10 | "Admin" does not pass an allow-list holding "admin" |
| `Middlewares.UsersRoutesAreAdminOnly` | src/routes/user.ts:21-61 | the gate on every `/users` route passes exactly the admin role and refuses managers, customers and role-less tokens with the 403 |
| `UserService.StoredRecord` | src/services/UserService.ts:8-13 | the stored row has exactly the given first name, last name, email and unhashed password, and no role |
| `UserService.RoleIsNotPersisted` | src/services/UserService.ts:7-13 | arguments differing only in role store the same row |
| `UserService.CreateAsWritten` | src/services/UserService.ts:7-14 | as written: one insert of the stored row under a new id, leaving existing rows unchanged and returning nothing; a duplicate email rejects with the store's error |
| `UserService.Create` | src/services/UserService.ts:7-14 | corrected: the same insert, returning the saved row |
| `UserController.CreateArgs` | src/controllers/UserController.ts:9-17 | the store receives the body's four credential fields and role MANAGER, whatever the body says |
| `UserController.BodyRoleIsIgnored` | src/controllers/UserController.ts:9-17 | bodies differing only in role lead to the same store argument |
| `UserController.CreateAsWritten` | src/controllers/UserController.ts:8-23 | as written: after the insert the status is set to 201, reading `user.id` throws, the TypeError goes to `next`, and no body is sent |
| `UserController.Create` | src/controllers/UserController.ts:8-23 | corrected: exactly one insert, then 201 with `{id}` of the new row and no `next` call; a store error goes to `next`, with no 201 and no body |
| `AuthController.RegistrationLog` | src/controllers/AuthController.ts:29-34 | the debug record of a registration carries the names and email and the password as "*******", never the plaintext |
| `AuthController.CreatedLog` | src/controllers/AuthController.ts:36-38 | the info record written after the insert is at info level, says "User has been created" and carries the new user's id |
| `AuthController.RegisterArgs` | src/controllers/AuthController.ts:27-35 | the store receives the body's four credential fields and no role |
| `AuthController.RegistrationPayload` | src/controllers/AuthController.ts:49-52 | `sub` is exactly `String(user.id)`, a numeral that reads back as the user's id, and `role` is the user's role |
| `AuthController.RegisterAsWritten` | src/controllers/AuthController.ts:19-38 | as written: validation errors answer 400 and touch nothing; otherwise the user is stored, then reading `user.id` throws and the TypeError goes to `next`, with no cookie and no 201 |
| `AuthController.Register` | src/controllers/AuthController.ts:19-93 | corrected store. Validation errors: 400 and nothing else changes. Duplicate email: the store's error goes to `next`. Unreadable key: the user stays stored, a 500 "Error reading private key" goes to `next`, no ledger row, no cookie. Success: exactly one new ledger row for the user expiring at now + 1 year, access and refresh cookies holding tokens over the user's payload with the refresh `jti` naming that row, then 201 with the user's id. On every branch the users' and the ledger's id sequences advance by one per row stored and are otherwise left alone |
| `AuthController.CookieAttributes` | src/controllers/AuthController.ts:74-86 | the access cookie lives 3,600,000 ms and the refresh cookie 31,536,000,000 ms, the same as its ledger row; both are httpOnly, sameSite strict and for domain localhost |
| `AuthController.RegisterAccessTokenMatchesService` | src/controllers/AuthController.ts:40-58 | with a non-empty key, registration's access token is the one `generateAccessToken` makes with that key |
| `AuthController.RegisteredTokensAreBound` | src/controllers/AuthController.ts:49-72 | a registration's two tokens share payload and issuer and carry no role; the refresh `jti` is the new row's id, which the ledger then honours |
| `AuthController.RegisteredUserCannotReachUsersRoutes` | src/controllers/AuthController.ts:49-52 | a token from registration carries the stored user's role, which is none, so the `/users` gate refuses it |
| `App.Root` | src/app.ts:10-12 | `GET /` answers "Hello, Pizza Stack!" |
| `App.ErrorHandler` | src/app.ts:18-32 | logs the message at error level; status is `err.status` when set and non-zero, else 500; the envelope has exactly one entry, with the error's name and message and empty path and location |
| `App.ForwardedErrorStatuses` | src/app.ts:18-32 | a non-admin turned away by the `/users` gate ends as 403 with the ForbiddenError envelope, never 401; a duplicate email, a TypeError or a missing key ends as 500. src/app.ts mounts only `/auth`, so this combines the gate with the handler as if the `/users` router were mounted |

## Left out

- Cryptography: JWT signing and verification, and bcrypt in src/services/CredentialService.ts, are foreign code. A token is its claims plus its key. A signing failure, e.g. an empty key read at registration or an unset REFRESH_TOKEN_SECRET, is not modelled.
- Token lifetimes are kept as the `expiresIn` strings "1h" and "1y". Turning them into `exp` seconds is jsonwebtoken's work. `iat` is not modelled.
- `authenticate`, `validateRefreshToken`, `parseRefreshToken` and the `login`, `me`, `refresh` and `logout` handlers that src/routes/auth.ts names are not part of this model. Their bodies are not in the source. Rotation appears only as lemmas over the two ledger primitives.
- The four-argument `AuthController` constructor used in src/routes/auth.ts:24 does not match the two-argument one in the controller. The model passes every collaborator explicitly.
- The request validators (src/validators/*.ts) are library chains. Their findings are an input of `Register`.
- Tenant code, routing, server start-up, configuration loading, the logger's transports, migrations and tests are left out.
- src/constants is not part of this model. The role names "admin", "manager" and "customer" are assumed.
- Entities.UserRepository.Save: accepts a row without `role`. Under the entity's own schema (`role` is a required column with no default, src/entity/User.ts:28-29) every insert `UserService.create` makes would instead be refused with a not-null violation, which would reach `next` like the duplicate-email error. The model leaves the table's schema open so that the rest of each workflow can be stated.
- Other database behaviour beyond id generation and the unique email column is not modelled: id sequence values consumed by failed inserts, store failures other than a duplicate email, and the `createdAt`/`updatedAt` timestamps.
- Ids are unbounded naturals. The 32-bit serial column is not modelled.
- Concurrency: the model is sequential. Interleaved refreshes are not modelled.
- TokenService.GenerateAccessToken: the source's second guard, a try around copying the key into a local (src/services/TokenService.ts:17-22), cannot fail and has no branch in the model.

## Findings

| source | as written | input that shows it | evidently intended | confidence | as-written member | corrected member |
|---|---|---|---|---|---|---|
| src/controllers/AuthController.ts:35-38 | `UserService.create` returns nothing (src/services/UserService.ts:7-14), so `user.id` at line 37 reads a property of `undefined` | assuming the users table accepts a row without `role` and the code is built without type checking: any valid registration with a new email stores the user, then a TypeError goes to `next` (500 from the global handler), with no token, no ledger row, no cookies and no 201. Under the entity's own schema (`role` is a required column with no default, src/entity/User.ts:28-29) the insert itself fails first and nothing is stored; a type-checked build rejects reading `id` of a `void` result | `create` returns the saved user, so registration issues the tokens and answers 201 with the new id | not executed | `AuthController.RegisterAsWritten` | `AuthController.Register` |
| src/controllers/UserController.ts:11-18 | the same `undefined` return value is read for `{ id: user.id }` after `res.status(201)` | under the same two assumptions: any create request with a new email stores the user, status is set to 201, then a TypeError goes to `next` and no body is sent; under the entity's schema the insert fails first, before the status is set | `create` returns the saved user, so the handler answers 201 with `{id}` | not executed | `UserController.CreateAsWritten` | `UserController.Create` |
