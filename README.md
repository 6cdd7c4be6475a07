# Account lifecycle of the users service

A Dafny model of the account-lifecycle core of the users service of a food-delivery
backend (NestJS, GraphQL, Prisma):

- **Two-phase registration** (`UsersService.register` / `activation`). `register`
  checks that the email is free, hashes the password with bcrypt, signs an activation
  ticket that carries the candidate user and an activation code, and mails the code.
  `activation` verifies the ticket, compares the code, checks the email again, and only
  then creates the user row.
- **Login and the request fields** (`login`, `getLoggedIn`, `logout`, `getUsers`).
- **The session guard** (`AuthGuard.canActivate` / `updateAccessToken`). It requires
  both token headers and a valid access token. It then re-mints the access/refresh pair
  from the refresh token and writes the pair and the user onto the request. Every
  failure during that rotation is swallowed.
- **The resolver layer** (`UsersResolver`). It adds a required-fields check before
  `register` and puts the guard in front of `getLoggedInUser` and `LogoutUser`.

Layout, one module per component:

| file | module | models |
|---|---|---|
| `wrappers.dfy` | `Wrappers` | `Option`, `Result` |
| `jwt.dfy` | `Jwt` | `jwtService.sign` / `verify`: a token records its secret, payload and `exp` |
| `bcrypt.dfy` | `Bcrypt` | `bcrypt.hash` / `compare`, idealised as collision-free |
| `decimal.dfy` | `Decimal` | `Number.prototype.toString()` on naturals, and its inverse |
| `entities.dfy` | `Entities` | `User` (entities/user.entity.ts), the ticket's `UserData`, token claims, configuration, exceptions |
| `prisma.dfy` | `Prisma` | the user table: a `Store` object holding `map<email, User>`, with `findUnique`, `create`, `findMany` |
| `http.dfy` | `Http` | the request object: its two headers and its three assignable fields |
| `service.dfy` | `Service` | `UsersService`: specification functions plus the class whose methods are proved equal to them |
| `guard.dfy` | `Guard` | `AuthGuard`: the admission decision and rotation as functions, the class proved against them |
| `resolver.dfy` | `Resolver` | `UsersResolver`: the required-fields check, forwarding, and guard composition |
| `scenario.dfy` | `Scenario` | one concrete register → activate → login run |

The stateful parts are classes. `Prisma.Store` has a `users` map that `create` updates.
`Http.Request` has three fields, which the guard and `logout` assign. `UsersService` has a
ghost `outbox` of the mails it sent. Each method is tied to a pure function of the old
state and its inputs (`RegisterOutcome`, `ActivationOutcome`, `LoginOutcome`, `Admission`,
`Rotation`, `GuardedSession`), and the lemmas about the account lifecycle are proved over
those functions.

There is no real clock, randomness, hashing salt or database in the model; each is a
parameter:
- `now` is the clock, in whole seconds, as in the `iat`/`exp` claims.
- `random` is the `Math.random()` draw, a real in [0, 1).
- `salt` is bcrypt's random salt.
- `StoreFill` holds the columns the database fills in itself (`id`, `address`, `role`).

Tokens are `Jwt.Token<Claims>`: either `Signed(secret, payload, exp)`, which is what
`sign` produced, or `Garbled(text)`, any other string. The empty header value is
`Garbled("")`, which JavaScript treats as falsy.

Behaviour worth knowing:

- **Activation code.** The code is `Math.floor(1000 * Math.random() * 9000).toString()`:
  the decimal string of an integer in [0, 9 000 000). It has one to seven digits, so it is
  not always four. `ActivationCodeNotFourDigits` exhibits "0" and "4500000".
- **Rotation failures.** `updateAccessToken` catches every error, so a failed rotation
  still admits the request; the request fields then keep their earlier values.
- **Token lifetimes.** Both rotated tokens live one minute (`expiresIn: '1m'` for each).
- **Access-token errors.** A bad access token surfaces the JWT library's own error
  (`TokenInvalid` here) rather than an `UnauthorizedException`. The "Invalid access token"
  throw can never happen: a verified payload is an object, and objects are always truthy.
- **The code travels in the ticket.** The ticket `register` returns carries the activation code
  in its payload, and a signed JWT is readable without the secret, so the code does not travel
  only by mail. `RegisterTicketContents` shows the payload's `activationCode` is the mailed code.
- **Rotation is not always a change.** Signing is deterministic and `iat`/`exp` are whole
  seconds, so rotating again within the same second gives an identical pair
  (`RotationSameSecond`).

## Model

| member | source | states |
|---|---|---|
| `Jwt.Sign` | servers/apps/users/src/users.service.ts:57-66 | the token verifies to the payload under its secret until `now + ttl`, is `Expired` from then on, and is `InvalidSignature` under every other secret |
| `Jwt.Verify` | servers/apps/users/src/users.service.ts:76-78 | succeeds exactly when the token was signed with the given secret and `now < exp`, and then returns its payload; any string that is not a signed token is `Malformed`, the wrong secret is `InvalidSignature`, and a signed token checked at or after its `exp` is `Expired` |
| `Jwt.SignThenVerify` | servers/apps/users/src/users.service.ts:57-66 | a signed payload verifies back to itself under the same secret throughout its lifetime |
| `Jwt.SignedTokenExpires` | servers/apps/users/src/users.service.ts:64 | once `ttl` seconds have passed, verification fails with `Expired` |
| `Jwt.OtherSecretRejects` | servers/apps/users/src/guards/auth.guard.ts:33-35 | a token never verifies under a secret other than the one that signed it |
| `Bcrypt.HashPassword` | servers/apps/users/src/users.service.ts:33 | the hash keeps the cost and salt it was made with, and accepts the hashed password and no other |
| `Bcrypt.Compare` | servers/apps/users/src/users.service.ts:124 | definition, no contract of its own; its meaning is given by `HashPassword`'s contract, `CompareHashed` and `CompareRehashes` |
| `Bcrypt.CompareRehashes` | servers/apps/users/src/users.service.ts:124 | a password is accepted exactly when re-hashing it under the hash's own cost and salt reproduces the hash |
| `Bcrypt.CompareHashed` | servers/apps/users/src/users.service.ts:120-125 | a hash accepts the password it was made from and no other, whatever the salt |
| `Decimal.DecimalString` | servers/apps/users/src/users.service.ts:56 | `toString` of a natural: at least one character, all digits, no leading zero |
| `Decimal.ParseDecimalString` | servers/apps/users/src/users.service.ts:56 | parsing the decimal string of `n` gives `n` back |
| `Decimal.DecimalStringInjective` | servers/apps/users/src/users.service.ts:56 | `toString` of naturals is injective: two naturals have equal decimal strings exactly when they are equal |
| `Decimal.DecimalStringLength` | servers/apps/users/src/users.service.ts:56 | the decimal string of `n` has at most `k` digits exactly when `n < 10^k` |
| `Prisma.FindByEmail` | servers/apps/users/src/users.service.ts:26-28 | finds a row exactly when some row has that email, and the row found has it |
| `Prisma.FindById` | servers/apps/users/src/guards/auth.guard.ts:54-56 | finds a row exactly when some row has that id; the row found has the id and is the row stored under its email |
| `Prisma.Created` | servers/apps/users/src/users.service.ts:89-96 | refuses with a unique-constraint error exactly when the email or the generated id is taken; otherwise the new row copies name, email, phone number and hash, with both timestamps `now` |
| `Prisma.CreatedKeepsWellFormed` | servers/apps/users/src/users.service.ts:89-96 | inserting an accepted row keeps emails as keys and ids unique |
| `Prisma.ValuesMatchRows` | servers/apps/users/src/users.service.ts:143-145 | with unique ids, the set of users is as large as the table |
| `Prisma.Store.FindUniqueByEmail` | servers/apps/users/src/users.service.ts:26-28 | returns the email lookup on the current table |
| `Prisma.Store.FindUniqueById` | servers/apps/users/src/guards/auth.guard.ts:54-56 | returns the id lookup on the current table |
| `Prisma.Store.Create` | servers/apps/users/src/users.service.ts:89-96 | the table gains exactly the created row under its email, or is unchanged on refusal; the constraints are kept |
| `Prisma.Store.FindMany` | servers/apps/users/src/users.service.ts:143-145 | returns exactly the users in the table, as many as there are rows |
| `Service.ActivationNumber` | servers/apps/users/src/users.service.ts:56 | `floor(1000·r·9000)` lies in [0, 9 000 000) for every draw in [0, 1) |
| `Service.ActivationCode` | servers/apps/users/src/users.service.ts:56 | the code is one to seven digits and reads back as the drawn number |
| `Service.ActivationCodeLength` | servers/apps/users/src/users.service.ts:56 | the code has four digits exactly when the number lies in [1000, 10000) |
| `Service.ActivationCodeDistinct` | servers/apps/users/src/users.service.ts:56 | two draws give the same code string exactly when they give the same number |
| `Service.ActivationCodeNotFourDigits` | servers/apps/users/src/users.service.ts:56 | the draws 0 and 0.5 give the codes "0" and "4500000" |
| `Service.CandidateUser` | servers/apps/users/src/users.service.ts:33-40 | the candidate has the dto's name, email and phone number and a cost-10 hash that accepts exactly the dto's password |
| `Service.ActivationMail` | servers/apps/users/src/users.service.ts:44-50 | the mail goes to the dto's email and name with the activation subject and template; its code is all digits, reads back as the drawn number, and is the code the ticket of the same draw carries |
| `Service.CreateActivationToken` | servers/apps/users/src/users.service.ts:55-71 | the ticket verifies under the activation secret to `{user, code}` for ten minutes and is expired after; the returned code is the drawn one |
| `Service.RegisterOutcome` | servers/apps/users/src/users.service.ts:24-53 | throws 'Email already exists' exactly when the email is taken; otherwise the returned ticket holds the hashed candidate and the mailed code, and expires in ten minutes |
| `Service.RegisterTicketContents` | servers/apps/users/src/users.service.ts:33-52 | the ticket holds the dto's name, email and phone, a cost-10 hash that accepts exactly the dto's password, and the code that was mailed |
| `Service.CodeAccepted` | servers/apps/users/src/users.service.ts:76-79 | holds exactly when the ticket was signed with the activation secret, has not expired, and its claims carry the submitted code |
| `Service.ActivationOutcome` | servers/apps/users/src/users.service.ts:73-98 | a ticket that fails to verify gives that error; a verified ticket with the wrong code gives 'Invalid activation code'; success happens exactly when the code matches and the email and the id are free, and the new user is the ticket's candidate |
| `Service.ActivationChecksTicketFirst` | servers/apps/users/src/users.service.ts:76-81 | when the ticket or the code is wrong, the outcome is an error that does not depend on the store |
| `Service.ActivationRechecksEmail` | servers/apps/users/src/users.service.ts:82-88 | a matching code with an email taken since registration gives 'User already exist with this email' |
| `Service.ActivationSingleUse` | servers/apps/users/src/users.service.ts:82-97 | after a successful activation, the same ticket fails at any later time, with the duplicate error while it still verifies |
| `Service.RegisterThenActivate` | servers/apps/users/src/users.service.ts:24-97 | within ten minutes, the ticket and the mailed code create a user with the registered name, email and phone, whose hash accepts the registered password |
| `Service.RegisterThenWrongCodeOrLate` | servers/apps/users/src/users.service.ts:57-81 | any other code is refused while the ticket lives; after ten minutes the ticket is `Expired` |
| `Service.SendToken` | servers/apps/users/src/users.service.ts:106-107 | returns the user and no error; the access and refresh tokens each verify to the user's id under their own secret for their configured lifetime and are expired after it |
| `Service.LoginOutcome` | servers/apps/users/src/users.service.ts:100-118 | succeeds exactly when the email is known and the password matches its hash, returning that user and tokens whose subject is the user id; otherwise returns the fixed failure |
| `Service.LoginFailuresIdentical` | servers/apps/users/src/users.service.ts:105-117 | an unknown email and a wrong password give the same response |
| `Service.UsersService.Register` | servers/apps/users/src/users.service.ts:24-53 | returns `RegisterOutcome` on the current table, leaves the table unchanged, and appends the activation mail to the outbox only on success |
| `Service.UsersService.Activation` | servers/apps/users/src/users.service.ts:73-98 | returns `ActivationOutcome` on the old table; the table gains exactly the new user on success and is unchanged otherwise |
| `Service.UsersService.ComparedPassword` | servers/apps/users/src/users.service.ts:120-125 | returns bcrypt's verdict on the password and the hash |
| `Service.UsersService.Login` | servers/apps/users/src/users.service.ts:100-118 | returns `LoginOutcome` on the current table, changing nothing |
| `Service.UsersService.GetLoggedIn` | servers/apps/users/src/users.service.ts:128-134 | returns the request's user and two tokens, unchanged |
| `Service.UsersService.Logout` | servers/apps/users/src/users.service.ts:137-142 | sets the three request fields to null and returns 'Logged out successfully' |
| `Service.UsersService.GetUsers` | servers/apps/users/src/users.service.ts:143-145 | returns every user in the table, as many as there are rows |
| `Http.Truthy` | servers/apps/users/src/guards/auth.guard.ts:27 | a header counts as given exactly when it is present and is a signed token or non-empty text |
| `Guard.Admission` | servers/apps/users/src/guards/auth.guard.ts:20-42 | missing or empty headers give 'Please login to access this content'; otherwise the request is admitted exactly when the access token verifies under the access secret, and a failure is the verifier's error |
| `Guard.RefreshSubject` | servers/apps/users/src/guards/auth.guard.ts:46-56 | yields a user exactly when the refresh token verifies under the refresh secret, carries an id, and a row has that id |
| `Guard.Rotation` | servers/apps/users/src/guards/auth.guard.ts:44-81 | rotates exactly when the refresh subject is found; the new fields are that user and a new token pair |
| `Guard.RotatedTokensLifetime` | servers/apps/users/src/guards/auth.guard.ts:57-74 | both rotated tokens carry the user's id, verify under their own secret for exactly one minute, and, with distinct secrets, never under the other one |
| `Guard.AdmissionIgnoresRefreshValidity` | servers/apps/users/src/guards/auth.guard.ts:27-39 | once both headers are present, the refresh token's validity does not affect admission |
| `Guard.RotationChains` | servers/apps/users/src/guards/auth.guard.ts:44-77 | a rotated pair sent back within its minute is admitted and rotates again to the same user |
| `Guard.RotationSameSecond` | servers/apps/users/src/guards/auth.guard.ts:57-74 | rotating a rotated pair again within the same second gives back exactly that pair |
| `Guard.LoginSessionAdmitted` | servers/apps/users/src/guards/auth.guard.ts:32-38 | the pair `login` returns is admitted while its access token lives |
| `Guard.AuthGuard.CanActivate` | servers/apps/users/src/guards/auth.guard.ts:20-42 | returns `Admission`; on rejection the request is untouched; on admission its fields are the rotated ones, or, when rotation fails, the old ones |
| `Guard.AuthGuard.UpdateAccessToken` | servers/apps/users/src/guards/auth.guard.ts:44-81 | all three fields take the rotated values, or none changes |
| `Resolver.RequiredFieldsPresent` | servers/apps/users/src/user.resolver.ts:24 | holds exactly when name, email and password are all non-empty; the phone number is not checked |
| `Resolver.ResolveRegister` | servers/apps/users/src/user.resolver.ts:20-30 | an empty name, email or password throws 'Please fill all the required fields' without the service; otherwise returns the service's ticket as `activation_token`, or its error |
| `Resolver.ResolveRegisterRejectsDuplicate` | servers/apps/users/src/user.resolver.ts:24-29 | a complete registration is refused exactly when the email is taken, with 'Email already exists' |
| `Resolver.GuardedSession` | servers/apps/users/src/user.resolver.ts:45-49 | a guard rejection is the query's error; once admitted, the query returns the rotated fields or, if rotation failed, the earlier ones |
| `Resolver.GuardedSessionRotates` | servers/apps/users/src/user.resolver.ts:45-49 | with a valid pair whose user exists, the query returns that user and the new one-minute pair |
| `Resolver.GuardedSessionSwallowsRotationFailure` | servers/apps/users/src/guards/auth.guard.ts:78-80 | a valid access token with an invalid refresh token, or one naming no user, still passes and returns the earlier fields |
| `Resolver.UsersResolver.Register` | servers/apps/users/src/user.resolver.ts:19-30 | returns `ResolveRegister`; the outbox grows by the activation mail only on success; the table is unchanged |
| `Resolver.UsersResolver.Activation` | servers/apps/users/src/user.resolver.ts:31-37 | returns the service's activation outcome and makes its change to the table |
| `Resolver.UsersResolver.Login` | servers/apps/users/src/user.resolver.ts:38-44 | returns the service's login outcome |
| `Resolver.UsersResolver.GetLoggedInUser` | servers/apps/users/src/user.resolver.ts:45-49 | returns `GuardedSession` on the old request fields and leaves the request with the fields it returns |
| `Resolver.UsersResolver.LogoutUser` | servers/apps/users/src/user.resolver.ts:51-55 | rejected by the guard: the guard's error and the request untouched; admitted: the logout message and three null fields |
| `Resolver.UsersResolver.GetUsers` | servers/apps/users/src/user.resolver.ts:57-60 | unguarded; returns every user in the table |
| `Scenario.DrawGivesCode` | servers/apps/users/src/users.service.ts:56 | the draw 4821/9 000 000 yields the code "4821" |
| `Scenario.AnaLifecycle` | servers/apps/users/src/users.service.ts:24-118 | register, wrong code refused, right code creates the account, login succeeds with the right password and gives the fixed failure with a wrong one |

## Left out

- I/O and framework wiring: `console.log`, the Express `response` object that `register` and `activation` pass through unchanged, `GqlExecutionContext`, the Nest bootstrap (main.ts) and the mailer configuration (email/email.module.ts).
- The email service (email/email.service.ts) is modelled only as appending `(email, subject, template, name, code)` to a ghost outbox. A delivery failure, which would make `register` throw after the ticket is signed, is not modelled.
- The DTO validators (dto/user.dto.ts): they belong to a validation library, and main.ts installs no `ValidationPipe`, so nothing in the modelled code enforces them.
- `TokenSender.sendToken` (utils/sendToken) is not part of this model. It is taken to sign `{id: user.id}` under the access and refresh secrets, because the guard reads `decoded.id` from the refresh token. Its two lifetimes are configuration values.
- JWT internals: the `iat` claim, algorithms and headers, JSON serialisation, and the library's other errors, such as a secret missing from the configuration.
- bcrypt internals: the digest is idealised as collision-free; the salt is a parameter; constant-time comparison is not modelled.
- `Bcrypt.CompareHashed`: real bcrypt reads only the first 72 bytes of a password, so any two passwords that agree on those bytes match the same hash; the model compares whole passwords, and `Service.LoginOutcome`'s "password matches" is stated for that idealised comparison.
- Floating point: `Math.random()` and the products are taken as exact reals. With IEEE doubles the result still stays below 9 000 000.
- Concurrency: two activations racing on one email are not modelled; each call runs alone against the table.
- Columns the database generates (`id`, `address`, `role`) are a parameter, because their defaults live in the Prisma schema, which is outside this model.
- `Prisma.Created`: `createdAt` and `updatedAt` are taken to be `now`; the schema's `@default(now())` / `@updatedAt` behaviour is assumed, not modelled.
- Nullness: `None` stands for both `null` and `undefined` in the request fields and headers.
- `Service.UsersService.GetUsers`: returns a set, so the row order of `findMany` is not modelled.
- `Prisma.Store.FindMany`: returns a set, so the row order is not modelled.
- `Resolver.UsersResolver.GetUsers`: returns a set, so the row order is not modelled.
