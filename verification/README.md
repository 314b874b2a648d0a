# Authentication controller: a Dafny model

This project models the authentication core of a small Express backend: the
four handlers of `UserController` (`login`, `register`, `googleLogin`,
`whoami`) and the zod schemas that validate login and register bodies.

The handlers are pure transitions. Each takes a user store and a request body
and gives back an `Outcome`. An outcome holds three things:

- the first reply sent, which is the one the client sees;
- the store afterwards;
- whether an exception escaped the handler.

Collaborators that cannot be seen are parameters or abstractions:

- bcrypt's `hash` and `compare` are the `Crypto` oracle.
- `jwt.verify` is a `Verifier` oracle. It returns `Valid(claims)`, `Expired`
  (a `TokenExpiredError`) or `Invalid` (any other error).
- `generateTokens` is replaced by a token pair the caller supplies.
- The database is a map from id to record (`UserStore`). Email uniqueness is
  an explicit assumption: `Create` fails on a taken email. An update of a
  missing id fails too.

`whoami` is the session state machine. It checks the access token first. Only
when that token has expired does it check the refresh token. Renewal then
requires that the decoded user holds exactly that refresh token. If so, the
stored token is rotated to the new one.

Several error branches send a reply without returning. The model follows the
code: execution carries on after such a reply. The next statement that
uses the reply or the missing record throws: a second send on the response,
or a property read on a null user (`user.password` at
src/auth/auth.collection.ts:23, `user.id` at :198). The catch block's
attempt to send 500 then throws too. So the client sees the first reply, any
store writes made in between are real, and the exception leaves the handler
(`escaped`). What happens to the rejected promise is up to the web
framework: Express 4 ignores the promise a handler returns, so it becomes an
unhandled rejection; Express 5 passes it to its error handler. The Express
version is not part of this model. `AuthCorrected` holds the same
handlers with the evident early returns, and the two versions are compared.

Modules, one per concern:

- `Wrappers`: `Option`.
- `UserStore`: records, the store, the unique-email invariant (`ValidStore`), lookups and writes.
- `Tokens`: token pair, claims, verdicts, secrets.
- `Responses`: statuses, reply bodies, the send-once response and exception flow.
- `AuthDto`: `loginSchema` and `registerSchema`.
- `AuthCollection`: the handlers as written.
- `AuthCorrected`: login, register and whoami with early returns.
- `AuthProperties`: properties that span several requests.

Points of the code worth knowing:

- A wrong password still replaces the stored refresh token, because no
  `return` follows the 400 reply (src/auth/auth.collection.ts:24-34). The
  refresh-token branches of whoami do return (:175, :180). See Findings.
- The login schema has no upper bound on the password
  (src/auth/auth.dto.ts:9); the register schema caps it at 20 (:28).
- Roles are plain strings. The register schema allows `Customer`/`Seller`,
  the role enumeration declares `Super`/`Admin`/`User`, and Google login
  defaults to `"User"`. No check ties these together.

## Model

| member | source | states |
|---|---|---|
| `UserStore.FindByEmail` | src/auth/auth.collection.ts:13-17 | the lookup by email finds a record exactly when one has that email, and then it is that record, as email is unique |
| `UserStore.Create` | src/auth/auth.collection.ts:73-82 | a create fails exactly when the email is taken; otherwise it adds one record under an unused id and leaves all others unchanged |
| `UserStore.SetRefreshToken` | src/auth/auth.collection.ts:31-34 | an update fails exactly when the id is missing; otherwise it changes only that record's refresh token, which then holds the session |
| `Responses.Catch` | src/auth/auth.collection.ts:51-56 | the outer catch turns an exception into a 500 reply only when nothing was sent; otherwise the first reply stands and the exception escapes; the store is never touched |
| `AuthCollection.Login` | src/auth/auth.collection.ts:10-57 | unknown email: 404, store unchanged. Wrong password: 400, yet that user's refresh token is replaced. Right password: 200 with the record and the pair, whose refresh token is the one now stored on that user only |
| `AuthCollection.Register` | src/auth/auth.collection.ts:59-90 | taken email: 409 and no record added; new email: 200, exactly one record added, holding the hashed password and no refresh token, and no tokens returned |
| `AuthCollection.GoogleLogin` | src/auth/auth.collection.ts:92-140 | always 200; an existing record is reused and only its refresh token changes; an unseen email adds exactly one record with empty password and defaulted role, holding the issued refresh token |
| `AuthCollection.Whoami` | src/auth/auth.collection.ts:142-221 | missing token: 401, store unchanged; valid access: 200 with its claims, store unchanged; non-expiry access failure: 401; expired access with expired or invalid refresh: 401 and return; valid refresh: 404 unless the decoded user holds that exact token, else the new pair is stored on that user and returned |
| `AuthCorrected.Login` | src/auth/auth.collection.ts:18-28 | with early returns nothing escapes; an unknown email or a wrong password leaves the store as it was; a right password behaves exactly as the code as written |
| `AuthCorrected.Register` | src/auth/auth.collection.ts:67-71 | with an early return nothing escapes, and the reply and store equal those of the code as written |
| `AuthCorrected.Whoami` | src/auth/auth.collection.ts:146-198 | with early returns nothing escapes, and the reply and store equal those of the code as written in every case |
| `AuthDto.LoginIssues` | src/auth/auth.dto.ts:4-10 | the email is clean iff it matches the email pattern and has at least 5 characters; the password is clean iff it has at least 8, with no upper bound; the body is accepted iff both hold |
| `AuthDto.RegisterIssues` | src/auth/auth.dto.ts:12-32 | field by field, iff: username and fullname at least 2 characters, email as for login, phone present with at least 10, password 8 to 20, role exactly "Customer" or "Seller"; the body is accepted iff all hold |
| `AuthDto.RoleIssues` | src/auth/auth.dto.ts:29-31 | the role check reports only role issues and passes exactly "Customer" and "Seller" |
| `AuthDto.RegisterPasswordIssues` | src/auth/auth.dto.ts:25-28 | the register password check passes exactly the passwords of 8 to 20 characters |
| `AuthDto.RegisterCredentialsPassLogin` | src/auth/auth.dto.ts:19-28 | any email and password accepted by the register schema are accepted by the login schema |
| `AuthDto.LongPasswordOnlyPassesLogin` | src/auth/auth.dto.ts:9 | a password over 20 characters passes login validation but register reports it too long |
| `AuthProperties.ValidAccessIgnoresStore` | src/auth/auth.collection.ts:154-161 | a valid access token is answered the same whatever the store holds, and the store is not changed |
| `AuthProperties.RenewalRevokesOldRefreshToken` | src/auth/auth.collection.ts:184-208 | after a renewal with a new refresh token, the old one, though it still verifies, is answered 404 |
| `AuthProperties.LoginThenRenew` | src/auth/auth.collection.ts:29-208 | the refresh token issued by a successful login is the one whoami renews once the access token expires |
| `AuthProperties.GoogleLoginIdempotent` | src/auth/auth.collection.ts:95-118 | a second Google login with the same body answers with the same user id and adds no record |
| `AuthProperties.RegisterTwice` | src/auth/auth.collection.ts:62-82 | a second register with the same email gets 409, leaves the store as the first left it, and at most one record holds the email |
| `AuthProperties.RegisterLoginScenario` | src/auth/auth.collection.ts:59-83 | register gives 200, registering again 409, login with the right password 200 and with a wrong one 400 |
| `AuthProperties.FailedLoginEndsSession` | src/auth/auth.collection.ts:23-34 | a wrong-password login by anyone who knows the email replaces the stored refresh token, after which the holder's own refresh token gets 404 |
| `AuthProperties.CorrectedFailedLoginKeepsSession` | src/auth/auth.collection.ts:24-28 | with the early return, a wrong-password login leaves the store as it was and the holder can still renew |
| `AuthProperties.FallThroughEscapes` | src/auth/auth.collection.ts:18-198 | each error branch without a return (unknown email, wrong password, taken email, missing tokens, no matching session) ends with an exception escaping the handler |

## Left out

- src/main.ts: CORS, compression, logging, the rate limiter and `listen`. These are I/O plumbing.
- src/auth/auth.router.ts: the routing table. Only `/login` and `/register` pass through `validate`. The `validate` middleware is not part of this model, so the handlers take bodies that are already well-typed.
- bcrypt, `jwt.verify` with its secrets, and `generateTokens`. They are oracles and parameters. Signing, and the round trip between signing and verifying, are not modelled.
- Prisma and its schema. The store is a map with a counter for fresh ids. Email uniqueness and "an update of a missing id fails" are assumptions about the database.
- The ordering of async steps and concurrent requests. Two renewals racing on one user are not modelled; the last write wins.
- Exact JSON bodies and profile projections. `Profile` carries the record as read and the pair. This leaves out the `avatar` versus `avatarUrl` mismatch: the Google-created record stores the photo URL as `avatarUrl`.
- User fields the core never writes: `location`, `phoneVerified`, `twoFaEnabled`, `expoPushToken`, `privateProfile`.
- zod's email regex is the abstract `isEmail`. Lengths count characters, not UTF-16 code units. Unknown keys and non-string values are folded into "missing". Issue messages are not modelled.
- `AuthCollection.GoogleLogin`: `email`, `displayName`, `photoURL` and `role` are strings and `emailVerified` is a boolean. An undefined field is not modelled.
- `AuthCollection.GoogleLogin`: "always 200" assumes the user table has the `avatar` column that the create at src/auth/auth.collection.ts:100-110 writes (:105). The other code reads `avatarUrl` (:42, :125); if the table has no `avatar` column, that create fails for every new Google email and the reply is 500.
- `AuthCollection.Whoami`: a token that is absent, null or empty is modelled as "". Claims whose `id` is missing are not modelled.
- 500 replies caused by store or library exceptions appear only as the abstract `StoreError` raised by a failed create or update.

## Findings

| source | as written | input that shows it | evidently intended | confidence | as-written member | corrected member |
|---|---|---|---|---|---|---|
| src/auth/auth.collection.ts:24-34 | after sending 400 for a wrong password, login carries on, issues a pair and overwrites the stored refresh token | any existing email with a wrong password; the holder's refresh token then gets 404 from whoami | return after the 400 reply, leaving the store unchanged | high; not executed | `AuthProperties.FailedLoginEndsSession` | `AuthCorrected.Login` |
| src/auth/auth.collection.ts:18-23 | after sending 404 for an unknown email, login reads `user.password` on null; the catch block's 500 reply throws because a reply was sent, so the exception leaves the handler | login with an email no record has | return after the 404 reply | medium; not executed | `AuthProperties.FallThroughEscapes` | `AuthCorrected.Login` |
| src/auth/auth.collection.ts:67-73 | after sending 409, register still attempts the create; the unique constraint rejects it and the catch block's reply throws | register with an email already stored | return after the 409 reply | medium; not executed | `AuthProperties.FallThroughEscapes` | `AuthCorrected.Register` |
| src/auth/auth.collection.ts:146-155 | after sending 401 for missing tokens, whoami still verifies the access token; the next send throws and the exception leaves the handler | whoami with an empty refresh token | return after the 401 reply | medium; not executed | `AuthProperties.FallThroughEscapes` | `AuthCorrected.Whoami` |
| src/auth/auth.collection.ts:191-198 | after sending 404 for no matching session, whoami reads `user.id` on null and the exception leaves the handler | whoami with an expired access token and a valid refresh token that is not the one stored | return after the 404 reply | medium; not executed | `AuthProperties.FallThroughEscapes` | `AuthCorrected.Whoami` |
