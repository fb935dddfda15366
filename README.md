# Auth and user management of a React + Express template, in Dafny

This project models the authentication and user-management core of a
React/Vite single-page application and its mock Express backend, and proves
properties of that model.

- **Mock backend.** The `/api/auth` routes (login, register, logout,
  refresh, current user, and the forgot-password → verify-otp →
  reset-password flow) and the admin `/api/users` routes (list, get,
  create, update, delete) are methods over a `Db` object holding the users
  table and the OTPs table. The `authenticate` and `optionalAuth`
  middlewares are methods over an `Exchange`: the request, plus the
  responses sent and the `next()` calls made.
- **Frontend.**
  - The role/menu table is a pure lookup.
  - The axios response interceptor (silent refresh and one replay) is a
    `Client` class whose `Send` and `OnError` call each other.
  - The Slot component's `mergeProps` is a loop over the child's props.
  - The Zod form schemas are pure functions from form fields to parsed
    data or a list of issues.
  - The `AuthProvider` session context is an `AuthState` class.

What the code gets from outside is passed in as a parameter:
- the clock (`now`, milliseconds), and the new user `id`, which both
  handlers render from the clock as `Date.now().toString()`; the model takes
  it as a free string;
- bcrypt (`hashed`, the hash produced for the submitted password, and
  `compare`);
- JWT verification (`decoded`, the user id the verifier yields, or None);
- the random draws (the OTP `draw`, the `resetToken`);
- the network (`answer`, what the n-th call on the wire gets back);
- Zod's email check (`isEmail`);
- the outcome of each frontend service call.

A request-body field is `Option<string>`. JavaScript truthiness (`!email`)
is `Truthy`: present and non-empty.

Modules and files:
- `wrappers.dfy`: `Option`.
- `js_arrays.dfy`: `find`/`findIndex`, `filter` and `map` as functions, with
  lemmas about filtering.
- `js_strings.dfy`: `startsWith`, `includes`, decimal rendering.
- `store.dfy`: records, replies, tokens, table invariants, the `Db` class.
- `auth_routes.dfy`, `users_routes.dfy`: the handlers and the lemmas about
  the tables.
- `auth_middleware.dfy`: the two middlewares.
- `roles.dfy`: the role constants.
- `api_client.dfy`: the response interceptor.
- `slot.dfy`: `mergeProps`.
- `validation.dfy`: shared bounds, messages and patterns.
- `auth_schema.dfy`, `user_schema.dfy`: the Zod schemas.
- `auth_provider.dfy`: the session context.
- `scenarios.dfy`: request sequences over one `Db`.

## Model

| member | source | states |
|---|---|---|
| JsArrays.FindIndex | mock-backend/routes/users.routes.js:128 | `findIndex`/`find`: the FIRST element satisfying the callback, none exactly when no element does |
| JsArrays.Filter | mock-backend/routes/auth.routes.js:212 | `filter`: every element kept satisfies the callback and comes from the input, every input element satisfying it is kept, and the result is no longer than the input (multiplicities are stated by FilterCounts, order by FilterAppend) |
| JsArrays.FilterCounts | mock-backend/routes/auth.routes.js:212 | `filter` keeps each element satisfying the callback exactly as many times as it occurs in the input, and no occurrence of any other element |
| JsArrays.Map | mock-backend/routes/auth.routes.js:261-263 | `map`: same length, element i is the callback applied to element i |
| JsArrays.FilterKeepsDistinct | mock-backend/routes/auth.routes.js:212 | filtering a sequence whose keys are pairwise distinct keeps them pairwise distinct |
| JsArrays.FilterAppend | mock-backend/routes/auth.routes.js:212-215 | filtering distributes over appending |
| JsArrays.FilterFilter | mock-backend/routes/auth.routes.js:212 | filtering by a stronger condition after a weaker one is filtering by the stronger one |
| JsArrays.FilterNone | mock-backend/routes/auth.routes.js:212 | filtering by a condition no element satisfies gives the empty sequence |
| JsStrings.DecimalStringLength | mock-backend/routes/auth.routes.js:38 | a number in [10^k, 10^(k+1)) renders as k+1 decimal digits |
| Store.IssueTokens | mock-backend/routes/auth.routes.js:65-68 | both cookies are set, an access token and a refresh token, each for the given user id |
| AuthRoutes.GenerateOtp | mock-backend/routes/auth.routes.js:37-39 | the code is 6 decimal digits with no leading zero, i.e. in 100000..999999 |
| AuthRoutes.LeadingDigitNonZero | mock-backend/routes/auth.routes.js:38 | a positive number's decimal rendering does not start with '0' |
| AuthRoutes.Login | mock-backend/routes/auth.routes.js:42-80 | 400 exactly when email or password is falsy; an unknown email and a wrong password both give the same 401 "Invalid credentials" with no cookie; 200 exactly when the first user with that email (the one `find` returns) passes `compare`, and then the reply carries that first user without password and both tokens for its id |
| AuthRoutes.Register | mock-backend/routes/auth.routes.js:83-127 | 400 exactly when a field is falsy; 409 exactly when the email is taken, table unchanged; otherwise one record (no role, hashed password) appended, 201 with the stripped user and both tokens; email uniqueness preserved; OTPs untouched |
| AuthRoutes.Logout | mock-backend/routes/auth.routes.js:130-134 | always 200, both cookies cleared |
| AuthRoutes.Refresh | mock-backend/routes/auth.routes.js:137-168 | 401 "Refresh token required" / "Invalid refresh token" / "User not found" for a missing cookie, a failed verification, an unknown user; 200 exactly when the decoded id is a stored user, with a new token pair for that id |
| AuthRoutes.Me | mock-backend/routes/auth.routes.js:171-187 | 404 exactly when no user has the authenticated id; otherwise the first user with that id (the one `find` returns) without password |
| AuthRoutes.NewOtpRecord | mock-backend/routes/auth.routes.js:215-220 | the new record expires ten minutes (600000 ms) after it was created |
| AuthRoutes.ForgotPassword | mock-backend/routes/auth.routes.js:190-232 | a truthy email always gets the same 200 message, known or not; an unknown email leaves the OTPs table unchanged; a known one replaces that email's records by one fresh record; users untouched; at most one OTP record per email is preserved |
| AuthRoutes.VerifyOtp | mock-backend/routes/auth.routes.js:235-274 | 400 with no change on a missing field, no record matching email and code, or `expiresAt < now` (so accepted at exactly `expiresAt`); on 200 every record of the email is marked verified with the returned reset token; one record per email preserved |
| AuthRoutes.ResetPassword | mock-backend/routes/auth.routes.js:277-321 | 400 with no change unless a verified record matches email and token and has not expired; on 200 every user with the email gets the new hash and every OTP record of the email is removed; at most one OTP record per email and email uniqueness are preserved |
| AuthRoutes.ReissueLeavesOneRecord | mock-backend/routes/auth.routes.js:211-220 | after forgot-password the email has exactly one OTP record, the new one |
| AuthRoutes.ReissueKeepsOthers | mock-backend/routes/auth.routes.js:212 | forgot-password leaves every other email's records exactly as they were |
| AuthRoutes.ReissueKeepsOnePerEmail | mock-backend/routes/auth.routes.js:211-215 | forgot-password preserves "at most one OTP record per email" |
| AuthRoutes.MarkVerifiedKeepsEmails | mock-backend/routes/auth.routes.js:261-263 | verify-otp rewrites records in place: same length, same email at each position, one-per-email preserved |
| AuthRoutes.VerifiedTokenOpensReset | mock-backend/routes/auth.routes.js:246-292 | the record reset-password finds with the token verify-otp issued is the very record whose code was checked, with the same expiry |
| AuthRoutes.ResetTokenSingleUse | mock-backend/routes/auth.routes.js:312-313 | after a successful reset no record accepts any reset token for that email |
| AuthRoutes.SetPasswordTouchesOnlyEmail | mock-backend/routes/auth.routes.js:307-309 | only users with the email change, and only their password |
| UsersRoutes.ListUsers | mock-backend/routes/users.routes.js:35-50 | one entry per stored user, in stored order, each without its password |
| UsersRoutes.GetUser | mock-backend/routes/users.routes.js:53-73 | 404 exactly when no record has the id; otherwise the first record with that id (the one `find` returns) without password |
| UsersRoutes.CreatedUser | mock-backend/routes/users.routes.js:79-102 | the appended record always has a role, 'user' when none was sent |
| UsersRoutes.CreateUser | mock-backend/routes/users.routes.js:76-117 | 400 exactly when a field is falsy; 409 exactly when the email is taken; both leave the table unchanged; otherwise one record appended at the end, 201; email uniqueness preserved, id uniqueness preserved for an unused id |
| UsersRoutes.UpdateUser | mock-backend/routes/users.routes.js:120-162 | 404 exactly when the id is unknown; 409 exactly when a truthy email is held by a record with another id; both leave the table unchanged; on 200 only the found record changes, each supplied truthy field is written (password re-hashed), id and createdAt are kept, length unchanged; email and id uniqueness preserved |
| UsersRoutes.RemoveAt | mock-backend/routes/users.routes.js:183 | `splice(k, 1)`: one shorter, records before k kept, records after k shifted down, order kept |
| UsersRoutes.DeleteUser | mock-backend/routes/users.routes.js:165-191 | 400 exactly when the id is the caller's own, before any lookup; 404 exactly when the id is not the caller's and no record has it; otherwise exactly the found record is removed; with unique ids the id is then absent; uniqueness preserved |
| UsersRoutes.UpdateKeepsUnique | mock-backend/routes/users.routes.js:135-149 | writing a record back at its index keeps emails and ids unique when its id is kept and its email is free |
| UsersRoutes.RemoveAtKeepsUnique | mock-backend/routes/users.routes.js:183 | removing a record keeps emails and ids unique and leaves its id unused |
| AuthMiddleware.Authenticate | mock-backend/middleware/auth.middleware.js:3-18 | no token: 401 "Authentication required"; failed verification: 401 "Invalid or expired token"; neither calls next; otherwise userId is the decoded id and next is called once with no response; next is called exactly when nothing was sent |
| AuthMiddleware.OptionalAuth | mock-backend/middleware/auth.middleware.js:21-32 | never responds, calls next exactly once, sets userId only from a present token that verifies |
| Roles.CanAccessMenu | src/shared/constants/roles.constants.js:28-37 | true exactly for 'dashboard' with 'admin' or 'user' and for 'users' with 'admin'; any other menu key is hidden from everyone |
| Roles.GetRoleDisplayName | src/shared/constants/roles.constants.js:40-42 | 'admin' → 'Administrator', 'user' → 'User', any other role unchanged |
| Roles.AdminSeesUserMenus | src/shared/constants/roles.constants.js:28-31 | every menu a 'user' sees, an 'admin' sees |
| Roles.UnknownRoleSeesNothing | src/shared/constants/roles.constants.js:34-37 | a role other than 'admin'/'user' sees no menu |
| ApiClient.RefreshIsAuthEndpoint | src/shared/services/api.js:33-41 | the refresh URL contains '/auth/', so a failure of the refresh call never triggers another refresh |
| ApiClient.Client.Send | src/shared/services/api.js:25-53 | a success, or any error that is not a fresh 401 from a non-auth endpoint, settles with that call's own result, with one call on the wire and no redirect; otherwise the wire sees the call, `POST /auth/refresh`, then (refresh succeeded) one replay whose result is returned, or (refresh failed) no replay, location '/login' and the refresh error; `_retry` is set on the retry path |
| ApiClient.Client.OnError | src/shared/services/api.js:29-53 | the interceptor's error handler: the same three outcomes, with `_retry` set before the refresh call |
| Slot.MergeProps | src/shared/components/ui/slot.jsx:28-59 | the keys are the union of both sides; a key only the slot has keeps the slot's value; a key the child has gets `MergeProp` |
| Slot.HandlersCompose | src/shared/components/ui/slot.jsx:38-42 | two truthy handlers compose into one that runs the child's, then the slot's |
| Slot.HandlerFallback | src/shared/components/ui/slot.jsx:36-45 | a handler key keeps the child's value when the slot's is falsy, takes the slot's when only that is truthy |
| Slot.StyleMerge | src/shared/components/ui/slot.jsx:46-48 | `style` is a shallow merge in which the child's entries win |
| Slot.ClassNameJoin | src/shared/components/ui/slot.jsx:49-53 | `className` is the slot's class then the child's, one space apart, falsy parts dropped |
| Slot.ChildWins | src/shared/components/ui/slot.jsx:29-58 | any other key the child has keeps the child's value |
| Validation.ToLower | src/shared/schemas/user.schema.js:15 | same length, each character lowercased |
| Validation.ToLowerIdempotent | src/features/auth/schemas/auth.schema.js:10 | lowercasing twice is lowercasing once |
| AuthSchema.EmailIssues | src/features/auth/schemas/auth.schema.js:6-10 | "Email is required" exactly for the empty email, "Please enter a valid email address" exactly when the email check fails; no issue exactly when both pass |
| AuthSchema.NameIssues | src/features/auth/schemas/auth.schema.js:19-24 | each of the four name messages is reported exactly when its rule fails; no issue exactly for 2..100 characters of letters, whitespace, hyphens, apostrophes |
| AuthSchema.NewPasswordIssues | src/features/auth/schemas/auth.schema.js:32-36 | each of the three password messages exactly when its rule fails; no issue exactly for 6..128 characters |
| AuthSchema.Confirmed | src/features/auth/schemas/auth.schema.js:41-44 | accepted exactly when no field issue and the passwords agree; a mismatch is appended after the field issues on `confirmPassword` |
| AuthSchema.LoginSchema | src/features/auth/schemas/auth.schema.js:5-15 | accepted exactly for a non-empty valid email and a non-empty password; the email is lowercased |
| AuthSchema.RegisterSchema | src/features/auth/schemas/auth.schema.js:18-44 | accepted exactly when name, email and password rules hold and the passwords agree; "Passwords do not match" is among the issues exactly when they differ, and is the only issue exactly when every field rule holds |
| AuthSchema.ForgotPasswordSchema | src/features/auth/schemas/auth.schema.js:47-53 | accepted exactly for a non-empty valid email, lowercased |
| AuthSchema.OtpSchema | src/features/auth/schemas/auth.schema.js:56-61 | accepted exactly for 6-character strings of decimal digits; every issue is "OTP must be 6 digits" |
| AuthSchema.ResetPasswordSchema | src/features/auth/schemas/auth.schema.js:64-77 | accepted exactly for a 6..128-character password equal to its confirmation; mismatch reported on `confirmPassword` |
| AuthSchema.AcceptedEmailIsLowercase | src/features/auth/schemas/auth.schema.js:5-53 | an accepted email has no upper-case ASCII letter and is the same in the login and forgot-password forms |
| AuthSchema.NoComplexityRule | src/shared/constants/validation.constants.js:6 | the complexity pattern is applied by no schema: "abcdef" is accepted by the register and reset forms |
| AuthSchema.GeneratedOtpPassesOtpForm | src/features/auth/schemas/auth.schema.js:56-61 | every code the backend generates is accepted by the OTP form |
| UserSchema.RoleIssues | src/shared/schemas/user.schema.js:17 | no issue exactly for a missing role, 'admin' or 'user'; otherwise one enum issue on `role` |
| UserSchema.BaseNameIssues | src/shared/schemas/user.schema.js:6-10 | no issue exactly for 2..100 characters matching the name pattern |
| UserSchema.BaseIssues | src/shared/schemas/user.schema.js:5-18 | no issue exactly when name, email and role rules hold |
| UserSchema.CreateUserSchema | src/shared/schemas/user.schema.js:21-26 | accepted exactly when the base rules hold and the password has 6..128 characters; role defaults to 'user', which can see the dashboard |
| UserSchema.UpdatePasswordIssues | src/shared/schemas/user.schema.js:30-35 | no issue exactly for an absent password, '' or 6..128 characters |
| UserSchema.UpdateUserSchema | src/shared/schemas/user.schema.js:29-38 | accepted exactly when the base rules hold and the password is absent, '' or 6..128 characters; `changePassword` passes through |
| UserSchema.DropEmptyPassword | src/shared/schemas/user.schema.js:41-47 | the password is removed exactly when it is '', every other field unchanged |
| UserSchema.UpdateUserSchemaWithTransform | src/shared/schemas/user.schema.js:41-47 | accepts what `updateUserSchema` accepts; afterwards the password is absent exactly when it was absent or '', and otherwise is the submitted 6..128-character one |
| AuthProvider.ErrorText | src/shared/contexts/AuthProvider.jsx:35 | the server's message when present and non-empty, the fallback otherwise; never empty with a non-empty fallback |
| AuthProvider.ActionOutcome | src/shared/contexts/AuthProvider.jsx:27-51 | success exactly when the request resolved, then no error; on failure the server message or the fallback |
| AuthProvider.AuthState.constructor | src/shared/contexts/AuthProvider.jsx:6-7 | no user, loading (here and below: the same lines of src/features/auth/contexts/AuthProvider.jsx behave identically) |
| AuthProvider.AuthState.CheckAuth | src/shared/contexts/AuthProvider.jsx:14-25 | loading ends; the user is the fetched one, or none after a failure |
| AuthProvider.AuthState.Login | src/shared/contexts/AuthProvider.jsx:27-38 | success: the response's user is stored; failure: user unchanged, error is the server message or 'Login failed' |
| AuthProvider.AuthState.Register | src/shared/contexts/AuthProvider.jsx:40-51 | as login, with 'Registration failed' |
| AuthProvider.AuthState.Logout | src/shared/contexts/AuthProvider.jsx:53-62 | the user is cleared and not authenticated, whether or not the server call succeeded |
| Scenarios.RegisterThenLogin | mock-backend/routes/auth.routes.js:42-127 | a fresh registration followed by a login with the same password succeeds for the new id, when `compare` accepts the password against its hash |
| Scenarios.PasswordReset | mock-backend/routes/auth.routes.js:190-321 | forgot-password, verify-otp with the generated code within ten minutes, and reset-password with the returned token all succeed; the same token is then refused; only that email's password changes and none of its OTP records remain |
| Scenarios.ResetThenReuse | mock-backend/routes/auth.routes.js:277-321 | a token that opens an unexpired verified record sets the new hash for that email and removes its OTP records; the same token presented again gets 400 "Invalid reset token" |

## Left out

- The JSON files behind the tables. Reading, writing and parsing them (`readDB` returning `[]` on any error, `writeDB`) is not modelled: the tables are in-memory sequences on `Db`. The mock delays, console logging and the 500 replies of the `catch` blocks, which only I/O failures reach, are left out too.
- Concurrency: requests are modelled one at a time; races between concurrent read-modify-write handlers are not.
- bcrypt, JWT signing and verification, `Math.random` and `Date.now` are parameters. `compare(p, hash(p))` is a precondition of `Scenarios.RegisterThenLogin`, not an axiom. The cookie lifetimes and options of the JWT service are not part of this model.
- `adminOnly`, which `users.routes.js` imports from the middleware file, is not defined in the middleware file shown. The users routes assume the caller is an authenticated admin, and `DeleteUser` takes the caller's id as `callerId`.
- The new user `id` is not tied to `now`. In the source it is `Date.now().toString()` (mock-backend/routes/auth.routes.js:102, mock-backend/routes/users.routes.js:96), and neither handler checks it against the stored ids, so two records created in the same millisecond share an id. This is why `UsersRoutes.CreateUser` keeps ids unique only for an id no stored record has.
- Dates are integers of milliseconds. The ISO-8601 strings the backend stores are not modelled; they compare the same way.
- Request-body values that are not strings (numbers, booleans, objects) are not modelled; a body field is an optional string.
- AuthRoutes.GenerateOtp: the floating-point `Math.random() * 900000` is reduced to its integer part, `draw`, in 0..899999.
- Validation.ToLower: lowercases ASCII letters only, whereas `toLowerCase` also lowercases non-ASCII letters.
- Lengths in the schemas count characters (Unicode scalar values), whereas JavaScript counts UTF-16 code units; they differ only above U+FFFF.
- Zod's `.email()` check is the parameter `isEmail`. Issue messages, paths and order follow Zod 3, whose object refinement runs after string checks that failed; the installed Zod version is not part of this model.
- UserSchema.RoleIssues: the enum message is Zod 3's default wording.
- The role lookups treat the tables as plain maps: JavaScript property names inherited from `Object.prototype` (such as `constructor`) are not modelled.
- Slot values are strings, booleans, plain objects of string entries and functions. Some cases are not modelled: spreading a string `style` into characters, a function's source text in `className`, and the key order of the merged object. The Slot component itself (`cloneElement`, `composeRefs`, the forwarded ref) is left out.
- ApiClient: the request interceptor only returns its input, so it is not modelled. A rejection carries the call and its status, not the full axios error object. The replay is returned without `await` inside `try`, so a failed replay is rejected without a redirect, as `Client.Send` states.
- AuthProvider: React's batching and rendering, `useEffect` and console output are left out. The response's `user` field is an optional user.
- The pages, layouts, forms, service wrappers and constants files other than the role and validation constants are outside this model.
