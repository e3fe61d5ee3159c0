# AI-Storyteller: accounts, quota and request counting

This project models the server side of AI-Storyteller in Dafny. That is
the Express app that registers and signs in users, issues JWT session
cookies, guards routes with `authenticate`, `checkAdmin` and
`incrementRequestCount`, charges one API call per successful text
generation, and counts requests per (endpoint, method). A request is
counted once it passes the route's checks; requests rejected by
`authenticate` or `checkAdmin`, or whose counter update fails, are not. The model also
covers the string logic of the story page script: the character-name filter,
the "API calls left" text update, the quota warning and the story prompt.

Layout:

- `wrappers.dfy`: `Option`.
- `helpers.dfy`:
  - `Passwords` is the bcrypt oracle behind `hashPassword` and `verifyPassword`.
  - `Tokens` is the JWT oracle behind `generateToken` and `jwt.verify`.
- `queries.dfy`: `Queries`. The `users` and `resource` tables are the
  fields of a `Database` class. Each query in `server/db/queries.js` is a
  method of it. The writing queries update the tables in place; the reading
  queries leave them unchanged. Each writing query is specified by a
  pure function on the table (`Decremented`, `Renamed`, `Removed`,
  `Counted`), and the properties are proved as lemmas about those functions.
- `middleware.dfy`: `Middleware`. This holds the three middlewares, the two
  chains the routes use, and requests, responses and cookies.
- `ai_routes.dfy`: `AiRoutes`. POST `/generate`, `/generate-haiku` and
  `/generate-joke`, plus `generateAiText`.
- `auth_routes.dfy`: `AuthRoutes`. Register, login, update, checkUser,
  getApiCalls and the three admin routes.
- `client_user.dfy`: `ClientUser`. The pure string functions of
  `client/js/user.js`.

Inputs from outside the program are parameters:

- Whether each database round trip succeeds is the `Io` record of booleans.
  The request counter has two round trips; a handler has its query and a
  follow-up query.
- The bcrypt salt is `salt`.
- The JWT secret is `secret`.
- The clock is `now`, in seconds.
- The text generator's answer is `upstream`, which is `None` when the call
  fails.

A route's result is:

- a `Response` (status, JSON body, optional cookie); or
- `Outcome.Escaped`, where a promise rejects inside an `async` handler or
  callback and the handler sends nothing. The model stops there. The
  application does not fix its Express major version, and the two differ:
  - Express 5 answers a rejected route handler with its default 500 page.
  - Under Express 4 the rejection is unhandled, and Node 15 or later then
    ends the process.
  - The rejection in login comes from a database callback that Express never
    sees. It is unhandled under either version.

Several behaviours of the code differ from what a conventional design
would do. The model follows the code:

- Login answers 400 for an unknown email and 403 for a wrong password.
- Register answers 500, not a conflict status, for a duplicate email.
- The request counter reads and then writes in two separate round trips.
  It is not an atomic upsert.
- The quota is a column of the user row. It is not a separate lazily created
  record, and a missing row is never recreated: charging an id without a row
  changes nothing.
- `/admin/data` returns whole rows, password hashes included.
- Update renames the row that the URL names and reissues the session cookie
  for that row. It never compares that id with the caller's. Any signed-in
  user can therefore rename any account and receive that account's session,
  admin rights included (`AuthRoutes.UpdateHandsOutAdminSession`).

## Model

| member | source | states |
|---|---|---|
| Passwords.Covered | server/utils/helpers.js:8 | bcrypt reads exactly the first 72 characters of a longer password, and all of a password of at most 72 characters |
| Passwords.HashPassword | server/utils/helpers.js:6 | a hash records cost factor 10 and the salt drawn for it |
| Passwords.VerifyPassword | server/utils/helpers.js:8 | `compare` accepts iff the attempt's first 72 characters equal what the hash covers |
| Passwords.HashThenVerify | server/utils/helpers.js:6-8 | a password verifies against any hash of itself |
| Passwords.VerifyAcceptsExactly | server/utils/helpers.js:8 | `compare` accepts exactly the attempts that agree with the hashed password on the first 72 characters; below that length, only the password itself |
| Tokens.ClaimsOf | server/utils/helpers.js:11 | the claims are the row's id, username, `is_admin` (as `isAdmin`) and quota |
| Tokens.GenerateToken | server/utils/helpers.js:10-13 | the token is signed with the secret, carries id, username, admin flag and quota of the row, and expires one hour after issue |
| Tokens.VerifyToken | server/middleware/auth.js:18 | verification succeeds iff the token was signed with this secret and its `exp` has not been reached, and then yields the signed payload |
| Tokens.GenerateThenVerify | server/utils/helpers.js:10-13 | a generated token verifies to the row's four claims for exactly one hour, and is rejected from then on |
| Tokens.ForeignSignatureRejected | server/middleware/auth.js:17-23 | a token not signed with the secret never verifies |
| Tokens.ClaimsOmitCredentials | server/utils/helpers.js:11 | the claims do not depend on the email or the password hash |
| Tokens.SnapshotGoesStale | server/utils/helpers.js:10-13 | from a positive quota, after one charge a still-valid token reports one more call than the live row |
| Queries.Greatest0 | server/db/queries.js:57 | `GREATEST(0, x)` is non-negative, at least x, and is x or 0 |
| Queries.Decremented | server/db/queries.js:55-62 | the charged row's quota goes down by one, or to 0 when it was not positive; no other row or column changes |
| Queries.Renamed | server/db/queries.js:47-53 | only the username of the named row changes |
| Queries.Removed | server/db/queries.js:39-45 | exactly the named id disappears; other rows are untouched |
| Queries.Counted | server/db/queries.js:64-90 | the key's count goes up by one, or the key appears with count 1; no other key changes |
| Queries.RepeatedRequests | server/db/queries.js:64-90 | n requests to one (endpoint, method) add exactly n to its count (starting from 0 without a row) and leave other keys alone |
| Queries.RepeatedCharges | server/db/queries.js:55-62 | from quota N, M > 0 charges leave max(0, N - M); other rows and columns are unchanged |
| Queries.WritesKeepInvariants | server/db/queries.js:39-62 | delete, rename and charge keep ids, unique emails and non-negative quotas |
| Queries.Database.constructor | server/db/connection.js:34-41 | an empty store satisfies the table invariants |
| Queries.Database.RegisterUser | server/db/queries.js:5-11 | the insert succeeds iff the store answers, username and email are present and the email is new; the new row has a fresh id, is not an admin and has the default quota; on failure nothing changes |
| Queries.Database.FindUserByEmail | server/db/queries.js:14-20 | the result is the one row with that email, or no row when none has it |
| Queries.Database.FindUserById | server/db/queries.js:22-28 | the result is the row with that id, or no row |
| Queries.Database.FetchAllUsers | server/db/queries.js:31-37 | the result is exactly the set of rows |
| Queries.Database.DeleteUser | server/db/queries.js:39-45 | on success the table becomes `Removed`, and the reply counts the rows removed |
| Queries.Database.UpdateUser | server/db/queries.js:47-53 | the update succeeds iff the store answers and either a username is given or no row has the id (a NULL written to no row breaks no NOT NULL); with a username the table becomes `Renamed`, otherwise it is unchanged |
| Queries.Database.DecrementApiCalls | server/db/queries.js:55-62 | on success the table becomes `Decremented`; otherwise it is unchanged |
| Queries.Database.AddNewResource | server/db/queries.js:84-90 | the insert succeeds iff the store answers and the key is new; the key is then counted 1 |
| Queries.Database.IncrementCountInDB | server/db/queries.js:64-82 | succeeds iff both round trips succeed, and then the counter becomes `Counted`; otherwise it is unchanged |
| Queries.Database.GetAllResources | server/db/queries.js:92-98 | the result is exactly the counter rows |
| Middleware.Authenticate | server/middleware/auth.js:10-24 | 401 without a token, 403 for a token that does not verify; otherwise the request goes on with `req.user` set to the verified payload |
| Middleware.CheckAdmin | server/middleware/auth.js:26-32 | the request goes on, unchanged, iff `req.user` claims admin; otherwise 403 |
| Middleware.IncrementRequestCount | server/middleware/auth.js:34-45 | the request goes on iff the counter update succeeds, counted under (originalUrl, method); otherwise 500 and nothing is counted |
| Middleware.SignedInChain | server/routes/ai.js:10-14 | a request that fails authentication is answered by `authenticate` and not counted; an authenticated one is counted and reaches the handler with its payload |
| Middleware.AdminChain | server/routes/auth.js:151-156 | a request reaches the handler iff its token verifies, claims admin and the counter succeeds; rejected requests are never counted |
| Middleware.AdminGateStatuses | server/middleware/auth.js:10-32 | admin routes answer 401 without a session and 403 for a valid non-admin session |
| Middleware.CookieOutlivesToken | server/routes/auth.js:94-102 | the cookie lives 23 hours longer than its token; in that window `authenticate` answers 403 |
| AiRoutes.GenerateAiText | server/utils/ai.js:14-34 | an empty prompt is rejected with "Prompt is required."; otherwise the result is the generator's text, or "Error generating text." when the call fails |
| AiRoutes.JokePrompt | server/routes/ai.js:67-71 | a missing body field throws; the prompt is personal iff the destructured `username` is a non-empty string |
| AiRoutes.GenerateThenCharge | server/routes/ai.js:21-33 | the caller is charged once only after a successful generation; a failed generation or a failed charge gives a 500 |
| AiRoutes.Generate | server/routes/ai.js:10-35 | a missing or empty prompt gives 400 after counting, with no generation and no charge; a counted non-empty prompt is the one sent to the generator; a success gives 200 with the text and charges the caller once; the quota is no gate |
| AiRoutes.GenerateHaiku | server/routes/ai.js:38-59 | the fixed haiku prompt is sent; 200 with one charge on success; 500 with no charge when generation or the charge fails |
| AiRoutes.GenerateJoke | server/routes/ai.js:62-87 | the prompt follows `JokePrompt`; a missing field makes the counted request escape the handler with no charge; otherwise 200 with one charge, or 500 with no charge when generation or the charge fails |
| AuthRoutes.SessionCookie | server/routes/auth.js:94-102 | the `authToken` cookie lasts 24 hours and holds a token that verifies to the row's claims |
| AuthRoutes.Register | server/routes/auth.js:63-74 | 201 iff the insert succeeds, adding exactly one non-admin row with the hashed password; any insert error, a duplicate included, gives 500; a missing password makes the handler throw without sending a response (`Escaped`) |
| AuthRoutes.Login | server/routes/auth.js:77-110 | 400 without a matching row, 403 for a wrong password; otherwise 200 with the row's quota, admin flag and username, and a session cookie for that row; no user row changes |
| AuthRoutes.RegisterThenLogin | server/routes/auth.js:63-110 | registering a new email and then logging in with the same password gives 201, then 200 with the new row's username, no admin flag and the starting quota, and a cookie whose token carries the same claims |
| AuthRoutes.Update | server/routes/auth.js:113-147 | renames the row the URL names, whoever is signed in; 500 when the update fails, a missing username on an existing row included; 400 when the row is then not found, a missing username on an absent id included; otherwise 200 with a cookie for the renamed row |
| AuthRoutes.UpdateHandsOutAdminSession | server/routes/auth.js:113-147 | a signed-in non-admin who names an admin's id gets 200 and a cookie whose token verifies to that admin's id, the admin flag and the new name |
| AuthRoutes.AdminData | server/routes/auth.js:151-169 | 401 without a session, 403 for a non-admin; an admin gets every row and their own admin flag, or 500 |
| AuthRoutes.AdminDelete | server/routes/auth.js:172-187 | 401 without a session, 403 for a non-admin; only an admin can remove a row, any row, by id; 500 on failure |
| AuthRoutes.CheckUser | server/routes/auth.js:190-206 | a rejected request is not counted; an authenticated caller is counted and gets the claims as issued, not the live row |
| AuthRoutes.GetApiCalls | server/routes/auth.js:209-226 | a rejected request is not counted; an authenticated caller is counted and gets the live quota of the token's id, or 400 when the lookup fails or the row is gone |
| AuthRoutes.AdminResource | server/routes/auth.js:228-241 | 401 without a session, 403 for a non-admin; an admin gets exactly the counter rows, this request's count included |
| ClientUser.ValidateCharacterName | client/js/user.js:138-141 | the filtered name holds only letters and white space and is no longer than the input |
| ClientUser.FilterCounts | client/js/user.js:140 | every letter or space occurs as often as in the input; nothing else remains |
| ClientUser.FilterDistributes | client/js/user.js:140 | the filter works character by character, in order |
| ClientUser.FilterKeepsNames | client/js/user.js:140 | a name of letters and spaces passes unchanged |
| ClientUser.FilterIdempotent | client/js/user.js:140 | filtering twice is filtering once |
| ClientUser.ValidatedNameHasNoStop | client/js/user.js:140 | a filtered name holds no full stop |
| ClientUser.MatchDigits | client/js/user.js:124 | `match(/\d+/)` finds nothing iff there is no digit; otherwise it finds the leftmost maximal run of digits |
| ClientUser.ParseShow | client/js/user.js:124-125 | `parseInt` reads back the decimal text of a number |
| ClientUser.UpdatedApiText | client/js/user.js:121-126 | the update throws iff the text holds no digit; otherwise the new text starts with "API calls left: " |
| ClientUser.ApiTextCountsDown | client/js/user.js:121-126 | "API calls left: n" becomes "API calls left: n-1", with no floor: from 0 it shows -1 |
| ClientUser.NegativeCountClimbsBack | client/js/user.js:121-126 | the minus sign is not matched, so from -n the text goes to n-1 |
| ClientUser.UnknownCountThrows | client/js/user.js:121-126 | on "API calls left: undefined" the match fails and the update throws |
| ClientUser.ShowsApiWarning | client/js/user.js:128-136 | the warning shows iff the count is undefined or negative, not when it is null |
| ClientUser.LowerChar | client/js/user.js:57 | lowercasing leaves no capital letter and changes only capitals |
| ClientUser.LowerIdempotent | client/js/user.js:57 | lowercasing twice is lowercasing once |
| ClientUser.StoryPrompt | client/js/user.js:56-59 | the prompt opens with the template's first line, and the character name sits verbatim between the lowercased head and the tail |
| ClientUser.PlotTwistIffChecked | client/js/user.js:56-59 | for a name with no full stop, the prompt contains the plot-twist sentence iff the box is checked |
| ClientUser.NameVerbatim | client/js/user.js:56-59 | the character name is inserted as typed: different names give different prompts |
| ClientUser.FieldsCaseInsensitive | client/js/user.js:56-59 | tone, genre, setting and role matter only up to letter case |

## Left out

- Concurrency: each request runs to completion before the next starts. In the program, two concurrent first requests to a new (endpoint, method) can both read no row; the second INSERT then breaks UNIQUE (method, endpoint), so that request gets 500 "Error tracking request count." and is not counted. Increments of an existing row are single UPDATE statements and lose no counts. The model does not show that interleaving.
- The database driver: `connection.js` exports a Postgres pool, while the queries destructure `db` and use `?` placeholders. The model assumes the queries reach a store that behaves like the tables described. A failing round trip is an input flag, not a cause.
- `server/db/connection.js` is not part of this model beyond the columns and constraints of `users` and `resource`. The `users` table there has no `api_calls` column, while the queries and tokens read one. The model puts the quota on the user row and takes its initial value as `Database.defaultApiCalls`.
- `users.id` is a SERIAL. In the model a failed insert does not consume a sequence value.
- Queries.Database.RegisterUser: the only constraint errors modelled are NOT NULL on username and email and UNIQUE on email. Column length limits (VARCHAR(255)) are not modelled.
- Queries.Database.UpdateUser: the VARCHAR(255) limit on `username` is not modelled. In the program a longer username makes the UPDATE fail and `/update/:id` answer 500; the model renames the row and answers 200.
- Column widths: `users.id` (SERIAL) and `resource.requests` (INT) are 32-bit in the store, while the model's ids and counts are unbounded integers. Overflow of either is not modelled.
- bcrypt and JWT are idealised oracles. Hashing cost, salt generation, base64url encoding and signature algorithms are not modelled.
- Passwords.Covered: bcrypt's 72-byte limit is modelled as 72 characters, without UTF-8 encoding.
- The OpenAI request inside `generateAiText` is an oracle (`upstream`). The model, timeouts and response shape are not modelled.
- URL ids are integers. Non-numeric `:id` values, which the store would reject, are not modelled.
- Responses carry status, JSON body and cookie only. The `error: err.message` field of the 500 from `/admin/data`, the cookie flags (`httpOnly`, `secure`, `sameSite`, `path`) and server-side logging are not modelled.
- AuthRoutes.CheckUser: the handler's 401 branch is not modelled, because `authenticate` always sets `req.user` before the handler runs.
- AuthRoutes.GetApiCalls: the handler's 401 branch (server/routes/auth.js:222-224) is not modelled, for the same reason.
- ClientUser.LowerChar: `toLowerCase` is modelled on ASCII letters only. Other Unicode case mappings are not modelled.
- ClientUser.ParseShow: JavaScript numbers are unbounded integers here. `parseInt` precision loss above 2^53 is not modelled.
- ClientUser.ShowsApiWarning: the count is `undefined`, `null` or an integer. Other JavaScript values (strings, NaN from other sources) are not modelled.
- Request bodies: each field is a string or absent, except `username` on `/generate-joke`, which may also be an object with a string `username` (`JokeField.Nested`). Other JSON values (a number or object as `prompt`, for instance) are not modelled.
- Outcome.Escaped: what happens after a handler throws is not modelled. That is a 500 from Express 5's default error handler, or the end of the process under Express 4 on Node 15 or later.
- The DOM, `fetch`, navigation, the loading overlay and `displayGeneratedStory` in `client/js/user.js` are not modelled. Neither is parsing the generated story as JSON.
