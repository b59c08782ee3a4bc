# LMS server core in Dafny

A model of the authentication and user-management core of the LMS server
(Express, Mongoose, Redis, JSON Web Tokens), together with the course schema.

- **User schema** (`UserModel`): the e-mail pattern, the required,
  minimum-length and `trim` rules, the defaults of a new user, the pre-save
  hook that hashes a modified password, and the two session tokens.
- **Authentication gate** (`Auth`): `isAuthenticated` reads the
  `access_token` cookie, verifies it and looks the decoded id up in the
  session cache. `authrizeRoles` checks the role against an allow-list.
- **Profile lookup** (`UserService.GetUserById`): reads one cache entry.
- **Error middleware** (`ErrorMiddleware`): the default status and message,
  then the CastError, duplicate-key and JWT rules.
- **User controller** (`UserController.UserStore`): registration, with a
  four-digit activation code signed into a five-minute token; activation,
  which creates the user; login, which returns an access token.
- **Course schema** (`CourseModel`): the six required paths, the defaults
  and the nested sub-documents.

External services are parameters. The JWT signer and verifier, bcrypt's
hash and compare, `JSON.parse` of a cached session and the outcome of
sending the activation mail are all passed in. What the proofs assume
about them is stated as hypotheses: `Tokens.JwtLaws` for JWT, and
`compare(p, hash(p))` for bcrypt. The Redis cache is a class
(`Sessions.SessionCache`) with a record of the keys read. The user
collection is a class (`UserController.UserStore`) keyed by e-mail.
`Math.random()` is the parameter `draw`. The `_id` the driver assigns is
the parameter `newId`.

The error middleware replaces `err` by a fresh `ErrorHandler` after every
rule that matches. That object has neither the name nor the code that a
later rule tests for. So the FIRST matching rule decides the reply. A
later rule does not override an earlier one. The model follows the code
(`ErrorMiddleware.Classify`, `ErrorMiddleware.EarlierRuleWins`).

As `server/app.ts` wires things, a catch-all handler is registered before
`errorMiddleware`, and that catch-all replies without calling `next`.
Every error therefore gets the catch-all's reply. `errorMiddleware` is
modelled as written, and `ErrorMiddleware.CatchAllComparedWithNormalize`
shows where the two handlers differ.

## Model

| member | source | states |
|---|---|---|
| JsText.Trim | server/models/user.model.ts:32 | the `trim` setter: the result is the input with leading and trailing JS white space removed; it neither starts nor ends with white space, and it is empty exactly when the input is all white space |
| JsText.TrimIdempotent | server/models/user.model.ts:32 | trimming an already trimmed name changes nothing |
| JsText.DecimalRoundTrip | server/controllers/user.controller.ts:83 | `toString()` of a natural number gives digits whose decimal value is that number |
| JsText.DecimalLength | server/controllers/user.controller.ts:83 | a number in [10^(k-1), 10^k) prints as exactly k digits, so the activation code has four |
| UserModel.EmailPatternCharacterized | server/models/user.model.ts:6 | `/^[^\s@]+@[^\s@]+\.[^\s@]+$/` accepts exactly the strings with one `@`, no white space, and a dot in the domain with at least one character on each side |
| UserModel.MatchIsWellFormed | server/models/user.model.ts:6 | any split of a string that matches the pattern shows the string is well formed |
| UserModel.WellFormedMatches | server/models/user.model.ts:6 | every well-formed address has a split that matches the pattern |
| UserModel.NewUser | server/models/user.model.ts:27-72 | a user is created exactly when the trimmed name is non-empty, the e-mail matches the pattern and the password has at least 6 characters; the stored name is trimmed; role defaults to "user", isVerified to false and the course list to empty; a missing or empty field (a name of white space only included) gets the schema's required message, and a too short password or malformed address its own message |
| UserModel.UserDocument.PreSave | server/models/user.model.ts:74-80 | the password is replaced by its hash exactly when the password path is modified; otherwise the document is unchanged |
| UserModel.SessionTokensDifferOnlyInSecret | server/models/user.model.ts:82-91 | both tokens sign only `{ id }` with no expiry; the refresh token is the access token signed with REFRESH_TOKEN in place of ACCESS_TOKEN (an unset secret is "") |
| UserModel.SessionTokensVerify | server/models/user.model.ts:82-91 | each session token verifies to `{ id }` under its own secret; with distinct secrets neither verifies under the other's |
| Sessions.SessionCache.Get | server/middleware/auth.ts:30 | `redis.get` returns the stored text exactly for a stored key, leaves the store unchanged and records the key read |
| Auth.Authenticate | server/middleware/auth.ts:12-38 | no or empty cookie gives 401 "Please login…"; the request proceeds exactly when the token verifies to an id with a live session, and then carries that session's snapshot; the verifier's own error is passed on unchanged; a falsy decode gives 401 "Invalid access token"; any other verified payload either proceeds or gets 404 "User not found" |
| Auth.IsAuthenticated | server/middleware/auth.ts:12-38 | the outcome is `Authenticate`'s; the cache is only read, at the decoded id and nowhere else (nowhere when the request is refused with 401); `req.user` is set exactly when the request proceeds |
| Auth.GateReadsOnlyDecodedId | server/middleware/auth.ts:30-35 | two caches that agree on the decoded id's entry give the same outcome |
| Auth.IssuedAccessTokenPasses | server/middleware/auth.ts:14-36 | with ACCESS_TOKEN set, the access token a user signs passes the gate whenever that user's session is cached |
| Auth.MissingSessionIsNotFound | server/middleware/auth.ts:30-34 | a valid access token without a cached session is refused with 404, not 401 |
| Auth.RefreshTokenIsNotAccessToken | server/middleware/auth.ts:21-24 | with distinct secrets, a refresh token sent as the access cookie never proceeds |
| Auth.AuthorizeRoles | server/middleware/auth.ts:45-55 | `next()` exactly when `req.user?.role \|\| ""` is in the allow-list; otherwise 403 with "Role: <role> is not allowed to access this resource" |
| Auth.EmptyAllowListRefusesAll | server/middleware/auth.ts:48 | an empty allow-list refuses every request |
| Auth.AllowListMonotone | server/middleware/auth.ts:48 | adding roles to the allow-list never refuses a request it allowed |
| Auth.MissingRoleIsEmptyRole | server/middleware/auth.ts:48-50 | no user, no role and the role "" are judged alike, as the role "" |
| Auth.DefaultRoleRefusedByAdminRoutes | server/routes/course.route.ts:7-8 | a user with the default role would get 403 "Role: user is not allowed to access this resource" from the admin course routes (the course router is not mounted) |
| UserService.GetUserById | server/services/user.service.ts:6-22 | 200 with the parsed user exactly when a live session exists for the id; otherwise 404 "User not found" |
| UserService.LookupKeyedById | server/services/user.service.ts:7 | the reply depends on the cache only through the entry for the id |
| UserService.GateAgreesWithLookup | server/services/user.service.ts:7-19 | for a token that verifies to an id, the gate proceeds exactly when the lookup returns 200, with the same user, and the gate gives 404 exactly when the lookup does |
| ErrorMiddleware.Normalize | server/middleware/error.ts:4-40 | the step-by-step handler gives the first-match classification; the reply is never a success and its status is 400 or the error's own status (default 500) |
| ErrorMiddleware.ClassifyStatus | server/middleware/error.ts:6-39 | the status sent is 400, 500 or the error's own status, with `success: false` |
| ErrorMiddleware.ThrowsOnlyOnBareDuplicate | server/middleware/error.ts:17-18 | the middleware itself throws exactly on a duplicate-key error without `keyValue` (and no CastError name) |
| ErrorMiddleware.AppErrorsPassThrough | server/middleware/error.ts:6-7 | an `ErrorHandler` keeps its own status and message; 0 becomes 500 and "" becomes "Internal Server Error" |
| ErrorMiddleware.JwtErrorsBecomeBadRequest | server/middleware/error.ts:23-34 | an invalid token becomes 400 "Json Web Token is invalid, try again"; an expired one becomes 400 "Json Web Token is expired, try again" |
| ErrorMiddleware.EarlierRuleWins | server/middleware/error.ts:9-21 | a CastError that also carries code 11000 is reported as a CastError |
| ErrorMiddleware.CatchAllComparedWithNormalize | server/app.ts:44-50 | when no rule matches, the catch-all and the middleware reply the same; a JWT error gets 500 with the library's message from the catch-all, but 400 from the middleware |
| UserController.CreateActivationToken | server/controllers/user.controller.ts:82-90 | the code is `1000 + draw` in decimal: four digits, no leading zero, between 1000 and 9999; the token signs `{ user, activationCode }` under the activation secret, expiring in 5m |
| UserController.NoticeAsWrittenIgnoresAddress | server/controllers/user.controller.ts:57 | as written, the notice is the same for every address, present or not |
| UserController.ActivationNoticeNamesAddress | server/controllers/user.controller.ts:57 | the corrected notice names the address: different addresses give different notices |
| UserController.UserStore.RegisterUser | server/controllers/user.controller.ts:23-62 | a known address gets 400 "Email already exists"; otherwise 201 with the notice as written, the signed token and a four-digit code exactly when the mail goes out, and 500 "Error sending activation email" when it does not; the store is not changed |
| UserController.RegisterRepliesIgnoreAddress | server/controllers/user.controller.ts:55-59 | as written, any two registrations whose mail went out get the identical 201 reply, whatever their addresses |
| UserController.UserStore.ActivateUser | server/controllers/user.controller.ts:99-138 | missing input, a bad token, a wrong code and a known address each get their 400; a null or undefined decode, or a failed validation, gives 500; only a 201 changes the store, by exactly one new user under a new address, with its password hashed |
| UserController.FalsyDecodeOutcomes | server/controllers/user.controller.ts:107-117 | a null or undefined decode result gives 500 "Error activating user"; any other falsy decode gives 400 "Invalid activation code" |
| UserController.UserStore.LoginUser | server/controllers/user.controller.ts:147-172 | missing input gives 400; an unknown address or a wrong password gives 401 "Invalid email or password"; success exactly when the stored hash accepts the password, with that user and an access token for them; the store is only read |
| UserController.ActivationRoundTrip | server/controllers/user.controller.ts:39-133 | registering a new, valid user and then activating with the issued token and the mailed code creates exactly that user: trimmed name, hashed password, defaults |
| UserController.ActivateVerifiedRegistration | server/controllers/user.controller.ts:107-133 | a token that verifies to a registration, sent with the code it carries, creates that user when the address is new and the registration passes the schema |
| UserController.WrongCodeCreatesNothing | server/controllers/user.controller.ts:115-117 | a valid token with any other code is refused with "Invalid activation code" and creates nothing |
| UserController.ForeignTokenRefusedFirst | server/controllers/user.controller.ts:107-114 | a token signed under another secret is refused as invalid or expired, whatever code comes with it |
| UserController.ActivatedUserCanLogIn | server/controllers/user.controller.ts:154-170 | after activation, logging in with the registered address and password succeeds and returns the new user's access token |
| UserController.ReRegistrationRefused | server/controllers/user.controller.ts:27-30 | once an address is stored, registering it again gets 400 "Email already exists" |
| UserController.LoginFailuresIndistinguishable | server/controllers/user.controller.ts:155-162 | an unknown address and a wrong password get the identical refusal |
| CourseModel.RequiredErrors | server/models/course.model.ts:82-118 | for a list of distinct paths, one error per missing path, each with the message "Path `<p>` is required.", no path twice, and no other errors |
| CourseModel.ValidateCourse | server/models/course.model.ts:82-131 | a course is accepted exactly when no required path is missing; a rejection names exactly the missing paths, each once and with its required message |
| CourseModel.RequiredPathsDecide | server/models/course.model.ts:83-118 | acceptance holds exactly when name, description, tags, level and demoUrl are non-empty strings and price is given |
| CourseModel.CourseDefaults | server/models/course.model.ts:95-130 | the six required values, the thumbnail and given benefits and prerequisites are kept; given reviews and course data are kept entry by entry, with their own defaults; estimatedPrice, ratings and purchased default to 0; absent arrays become empty |
| CourseModel.ReviewRatingDefault | server/models/course.model.ts:53-56 | every review keeps its rating, or gets 0 |
| CourseModel.OptionalPathsNeverRefuse | server/models/course.model.ts:99-122 | thumbnail, benefits, prerequisites, reviews and course data never decide acceptance |
| CourseModel.CourseDataRoundTrip | server/models/course.model.ts:70-80 | a stored course-data entry given back as input normalises to itself |
| CourseModel.CourseRoundTrip | server/models/course.model.ts:82-131 | a stored course given back as input validates to itself, so normalising twice changes nothing |

## Left out

- JWT signing and verification, bcrypt hashing and comparison are oracles. Token expiry is not modelled in time: an expired token is one the verifier refuses with `TokenExpiredError`.
- `jsonwebtoken` refuses an empty or missing secret: `sign` and `verify` then throw. The model does not capture this refusal. The session tokens are signed with `process.env.X || ""`, and the model signs them under "" when the variable is unset. `ACTIVATION_SECRET` is read the same way, though the source passes `undefined`.
- Auth.IssuedAccessTokenPasses, Auth.MissingSessionIsNotFound and Auth.RefreshTokenIsNotAccessToken take ACCESS_TOKEN set, because the gate passes `process.env.ACCESS_TOKEN as string` to `jwt.verify` and an unset variable is `undefined` there, which the model's string secret cannot represent.
- `Math.random()` is the parameter `draw`, standing for `Math.floor(Math.random() * 9000)`. The uniform distribution is not modelled.
- The course router is not mounted in `server/app.ts`; only the user router is. The role-gate lemmas about the admin course routes describe the routes as declared.
- Mongoose, the MongoDB driver, ioredis and Cloudinary are not modelled beyond the calls the core makes. Other schema options are not modelled either: `unique` indexes, `select: false` and timestamps.
- Sending the activation mail is the boolean `mailSent`. A failure to render the EJS template is not modelled: the outer catch would turn it into 500 "Error registering user".
- After the 201 reply, `registerUser` writes a second response (lines 65-69). That write and the error it raises after the reply has gone out are not modelled.
- `activation_code` is modelled as a string. A numeric code in the request body never equals the string in the token, so it is refused as "Invalid activation code"; the model does not represent numbers in that field.
- Auth.Authenticate: a verified, truthy payload without an `id` is answered with 404 "User not found" without reading the cache; the source still performs a read at that point, and what the client turns the missing id into is not modelled.
- The handlers not shown are not part of this model: logout, refresh, social auth, getUserInfo, and the course controller's upload, edit and cache-aside reads. Session-cache writes, which happen only in those handlers, are not modelled either.
- Concurrency is not modelled. Two activations of the same address can race between `findOne` and `create`; the model runs each handler atomically.
- `ErrorHandler` is not part of this model. It is taken to be an `Error` subclass with name "Error", no `code` and the given status and message.
- JavaScript strings are UTF-16; the model's `string` is a sequence of characters. The password's length is counted in characters, not in UTF-16 code units.
- Numbers in the course schema (price, ratings, lengths) are `real`s, not floating-point values.
- The `Express` wiring (routes, cookie parsing, the `catchAsyncErrors` wrapper) is modelled only through the outcomes the handlers pass on.
- UserModel.NewUser: reports at most one error per path in schema order, and does not model Mongoose's error object beyond path and message.

## Findings

| source | as written | input that shows it | evidently intended | confidence | as-written member | corrected member |
|---|---|---|---|---|---|---|
| server/controllers/user.controller.ts:57 | the template literal writes `$(user.email)`, which is plain text, so the notice never contains the address; the handler model sends this message as written | any two registrations, e.g. "a@b.com" and "c@d.org", get the identical notice "Please check your email : $(user.email) for activation link" | `${user.email}`, naming the registrant's address | high, not executed | UserController.NoticeAsWrittenIgnoresAddress | UserController.ActivationNoticeNamesAddress |
