# Skill-swap backend: a Dafny model

This project models the stateful core of the skill-swap marketplace backend
(`Skill-Swap-Backend`): the swap-request lifecycle (a request is created `pending`
and answered once, by its recipient, as `accepted` or `declined`), the
one-profile-per-user rule and the report input check; the WebSocket registry
that maps a user id string to that user's latest socket and pushes notifications
to it on a best-effort basis; the shaping of notification payloads; the bearer
header guards; and signup and login over the user table shared by users and
admins.

Modules, one per source file or component:

- `Wrappers`: `Option`, and `Field` (a JSON body field that is absent, of the expected type, or of another type).
- `Decimal`: how JavaScript renders an integral number as a string (`toString`, template literals), with a parser for it.
- `Notification` (`src/ws/notification.ts`): the five notification tags, the payload and its registry key.
- `Connections` (`src/ws/index.ts`): `Socket`, and the `Registry` class holding the `clients` map and a log of every message written to a socket.
- `Auth` (`src/middleware/auth.ts`): the header split and the `verifyUser` / `verifyAdmin` outcomes.
- `Store`: the ORM tables held in memory. This is the `Database` class with its invariant `Valid()`, and the `Evolves` relation that every handler keeps on the request table.
- `Accounts` (`src/routes/user.ts`, `src/routes/admin.ts`): signup and login. The flag `asAdmin` says which router handles the call: false for the user router, true for the admin router.
- `Listing` (`GET /requests/sent`, `GET /requests/received`): filtering by one party, then ordering newest first.
- `SwapRoutes` (`dist/routes/user.js`): profile, request, answer and report handlers. Each is a method that changes the `Database` (and the `Registry` where it notifies), specified by a pure outcome function.
- `Scenario`: the request lifecycle run end to end.

Collaborators the model does not implement are parameters:

- `isEmail`: the schema's e-mail format check.
- `matches(password, hash)`: the password-hash comparison.
- `hashed`: the hash the signup route stores.
- `verify`: token verification. It gives the decoded claims, or None where the library throws.
- `createdAt` and `timestamp`: clock readings.
- The `userId` query parameter: an input of the connection event.

Three points of the code's behaviour that a reader might expect otherwise:

- Answering a request that is no longer pending gives 400, the same code as a validation failure, not a separate conflict code.
- The answer's status value is validated before the request is looked up.
- The notification texts are the code's: "You have a new swap request from <id>" and "Your swap request has been <status> by user <id>".

## Model

| member | source | states |
|---|---|---|
| `Decimal.Show` | Skill-Swap-Backend/src/ws/notification.ts:17 | the registry key of a numeric user id is a non-empty string |
| `Decimal.DigitsRoundTrip` | Skill-Swap-Backend/src/ws/notification.ts:17 | the digits of a natural number read back as that number |
| `Decimal.ShowRoundTrip` | Skill-Swap-Backend/src/ws/notification.ts:17 | parsing the rendering of any integer gives the integer back |
| `Decimal.ShowInjective` | Skill-Swap-Backend/src/ws/notification.ts:17 | distinct user ids never share a registry key |
| `Decimal.ShowIsCanonical` | Skill-Swap-Backend/src/ws/notification.ts:17 | a key has no plus sign and no leading zero, for negative ids after the minus sign too, so a client registered as "07" or "-07" is never reached as user 7 or -7 |
| `Notification.TagRoundTrip` | Skill-Swap-Backend/src/ws/notification.ts:4-8 | the five tags have distinct wire spellings, and only those spellings read back as tags |
| `Notification.NotifyUser` | Skill-Swap-Backend/src/ws/notification.ts:10-18 | the payload carries the message and tag as given plus the clock reading; the key is the decimal rendering of the user id and parses back to that id; nothing about delivery is returned |
| `Notification.PayloadOmitsTarget` | Skill-Swap-Backend/src/ws/notification.ts:11-15 | the payload does not depend on the target user, which only selects the key, and distinct targets get distinct keys |
| `Connections.Registry.constructor` | Skill-Swap-Backend/src/ws/index.ts:7 | the registry starts with no entries and nothing sent |
| `Connections.Registry.OnConnection` | Skill-Swap-Backend/src/ws/index.ts:13-19 | a connection with a non-empty id stores its socket under that id, replacing any earlier one, and leaves other ids alone; without an id nothing changes |
| `Connections.Registry.OnClose` | Skill-Swap-Backend/src/ws/index.ts:21-23 | closing deletes the entry for the connection's id whichever socket it now holds; a connection without an id changes nothing |
| `Connections.Registry.Deliveries` | Skill-Swap-Backend/src/ws/index.ts:28-31 | at most one message, sent exactly when the id is registered and its socket is open, to that socket, as a `notification` frame around the payload; nothing is sent to the empty id, which the registry never holds |
| `Connections.Registry.SendNotification` | Skill-Swap-Backend/src/ws/index.ts:27-32 | sending appends exactly those messages to what was written and never changes the map |
| `Connections.SupersededCloseScenario` | Skill-Swap-Backend/src/ws/index.ts:13-23 | after a reconnect, the old socket's close evicts the live new socket, and a notification for that user is dropped |
| `Auth.Split` | Skill-Swap-Backend/src/middleware/auth.ts:17 | splitting on single spaces gives at least one field and no field contains a space |
| `Auth.SplitJoin` | Skill-Swap-Backend/src/middleware/auth.ts:17 | joining the fields with single spaces restores the header |
| `Auth.SplitAfterWord` | Skill-Swap-Backend/src/middleware/auth.ts:17 | a space-free word and a space split off as the first field |
| `Auth.SplitHead` | Skill-Swap-Backend/src/middleware/auth.ts:17 | the first field is the text before the first space |
| `Auth.Token` | Skill-Swap-Backend/src/middleware/auth.ts:17 | the token is the text after "Bearer " up to the next space, possibly empty |
| `Auth.TokenExamples` | Skill-Swap-Backend/src/middleware/auth.ts:17 | "Bearer a b" gives "a", "Bearer  x" and "Bearer " give "" |
| `Auth.VerifyUser` | Skill-Swap-Backend/src/middleware/auth.ts:10-32 | a missing or non-Bearer header gives 401; the guard passes exactly when the token verifies, with `req.user` the decoded id and admin flag; it never answers 403 |
| `Auth.VerifyAdmin` | Skill-Swap-Backend/src/middleware/auth.ts:35-61 | 401 as above; 403 exactly for a verified non-admin token; whenever it passes, the attached user is an admin |
| `Auth.AdminGuardRefinesUserGuard` | Skill-Swap-Backend/src/middleware/auth.ts:45-56 | the admin guard equals the user guard with non-admin passes turned into 403 |
| `Store.FindByEmail` | Skill-Swap-Backend/src/routes/user.ts:83 | the account found has the e-mail asked for, and none is found only when no account has it |
| `Store.FindRequest` | Skill-Swap-Backend/dist/routes/user.js:252 | the row found has the id asked for, and none is found only when no row has it |
| `Store.EvolvesTransitive` | Skill-Swap-Backend/dist/routes/user.js:259-265 | the request-table evolution (append only, only status changes, an answered status never changes) composes over handler calls |
| `Accounts.SignupOutcome` | Skill-Swap-Backend/src/routes/user.ts:23-51 | an invalid body gives 400, with name and password lengths counted in UTF-16 code units as the schema counts them; a known e-mail (user or admin) gives 400; otherwise one account with a fresh e-mail, the next id, the given hash and the router's role, whatever the body's `isAdmin` says |
| `Accounts.Signup` | Skill-Swap-Backend/src/routes/admin.ts:24-52 | the table gains exactly that account on success and is unchanged otherwise; no other table changes |
| `Accounts.Utf16Length` | Skill-Swap-Backend/src/routes/user.ts:12-19 | the schema's string length counts UTF-16 code units: at least one and at most two per character |
| `Accounts.AstralPasswordAccepted` | Skill-Swap-Backend/src/routes/user.ts:14-19 | a password of three emoji has length 6 to the schema and passes both the signup and the login check |
| `Accounts.SignupKeepsEmailsUnique` | Skill-Swap-Backend/src/routes/user.ts:37-40 | signup never lets two accounts share an e-mail |
| `Accounts.LoginOutcome` | Skill-Swap-Backend/src/routes/user.ts:71-103 | an invalid body gives 400, and a valid one never does; an unknown e-mail or an account of the other role gives 404; for the account of the router's role found by the e-mail, a matching hash gives a token with claims of its id and that role and a mismatch gives 401; a token is given in no other case |
| `Accounts.LoginRoutesDisjoint` | Skill-Swap-Backend/src/routes/admin.ts:84-88 | no login body gets a token from both routers |
| `Accounts.FindAppended` | Skill-Swap-Backend/src/routes/admin.ts:38-52 | an account inserted with a fresh e-mail is the one found by that e-mail |
| `Accounts.SignedUpCanLogIn` | Skill-Swap-Backend/src/routes/admin.ts:45-93 | after signup, the router of the account's role logs it in exactly when the password matches its hash, and the other router answers 404 |
| `SwapRoutes.ProfileOutcome` | Skill-Swap-Backend/dist/routes/user.js:102-120 | an invalid body (no skill) gives 400, an existing profile 409; otherwise a profile for the caller whose skills are exactly the given names |
| `SwapRoutes.CreateProfile` | Skill-Swap-Backend/dist/routes/user.js:107-143 | on success only the caller's profile is added and its skill names join the skill table; otherwise nothing changes |
| `SwapRoutes.MyProfile` | Skill-Swap-Backend/dist/routes/user.js:144-150 | the caller's stored profile exactly when one exists (it belongs to the caller and lists at least one skill), else the 404 answer |
| `SwapRoutes.OneProfilePerUser` | Skill-Swap-Backend/dist/routes/user.js:117-120 | a created profile is what `GET /profile/me` returns, and no later call creates a second one |
| `SwapRoutes.CreateOutcome` | Skill-Swap-Backend/dist/routes/user.js:158-180 | invalid body 400, self-request 400 before the target lookup, unknown target 404; otherwise a pending request from the caller with the body's fields |
| `SwapRoutes.CreateRequest` | Skill-Swap-Backend/dist/routes/user.js:164-201 | on success exactly that request is appended and the target is notified with a `swap-request` notice; on failure nothing changes and nothing is sent; the answer does not depend on delivery |
| `SwapRoutes.ParseDecision` | Skill-Swap-Backend/dist/routes/user.js:240-249 | only "accepted" and "declined" are accepted, never "pending" |
| `SwapRoutes.RespondOutcome` | Skill-Swap-Backend/dist/routes/user.js:252-261 | guards in order: bad status 400, missing request 404, caller not the recipient 403, not pending 400; when all four guards pass the answer succeeds, and a success is the recipient answering a pending request, with only its status set to the decision |
| `SwapRoutes.Respond` | Skill-Swap-Backend/dist/routes/user.js:243-277 | on success only that request's status changes and its sender gets a `swap-response` notice; on failure nothing changes and nothing is sent |
| `SwapRoutes.AnsweredAtMostOnce` | Skill-Swap-Backend/dist/routes/user.js:259-265 | after a successful answer, every further answer to that request is refused |
| `SwapRoutes.ReportOutcome` | Skill-Swap-Backend/dist/routes/user.js:278-283 | a report is accepted exactly when the reported id and the reason are present and truthy, and is stored from the caller with those values |
| `SwapRoutes.SubmitReport` | Skill-Swap-Backend/dist/routes/user.js:284-292 | the report table gains exactly that report on success; nothing else changes |
| `Listing.Involving` | Skill-Swap-Backend/dist/routes/user.js:205-206 | every row with the given party, as often as it is stored, and no other row |
| `Listing.InsertByAge` | Skill-Swap-Backend/dist/routes/user.js:212 | inserting into a newest-first list keeps it newest first and adds exactly one row |
| `Listing.ByAge` | Skill-Swap-Backend/dist/routes/user.js:231 | the rows reordered newest first, none lost or added |
| `Listing.Sent` | Skill-Swap-Backend/dist/routes/user.js:202-220 | exactly the requests the caller sent, newest first |
| `Listing.Received` | Skill-Swap-Backend/dist/routes/user.js:221-239 | exactly the requests addressed to the caller, newest first |
| `Listing.NewRequestListed` | Skill-Swap-Backend/dist/routes/user.js:181-189 | a newly stored request is listed as sent for its sender and as received for its target |
| `Scenario.GuitarForSpanish` | Skill-Swap-Backend/dist/routes/user.js:164-277 | user 1 asks user 2; user 3's answer is refused with 403; user 2's acceptance succeeds; user 2's later decline is refused; exactly two notices are pushed, a `swap-request` to user 2's socket then a `swap-response` to user 1's socket |

## Left out

- Storage failures: every `catch` branch that answers 500, and the `console.error` logging.
- Foreign keys: a profile, request or report whose caller has no user row would fail in the database (500); the model stores it.
- Token issuance: the model issues the claims `{userId, isAdmin}` only. Signing, the secret and the 7-day expiry are left out.
- Token checking: `verify` is an oracle. A decoded token that lacks `userId` or `isAdmin` is not modelled.
- Password hashing: the hash comparison and the e-mail format check are oracles.
- Schema stripping: unknown keys are dropped by the schema. The model has no body fields other than the ones listed.
- `Accounts.Signup`: a request with no JSON body, where setting `req.body.isAdmin` throws, is not modelled.
- Schema number check: it accepts fractional numbers. The model's `toUserId` is an integer, so a fractional target (which names no user) cannot be expressed.
- `SwapRoutes.ReportOutcome`: a reported id or reason of another JSON type (truthy, then rejected by the database) is not modelled.
- Non-numeric ids: `Number(req.params.id)` can be `NaN`. It is modelled as an integer id that names no row.
- Wire text: the JSON text of frames and the ISO-8601 format of timestamps are not modelled. The frame and the timestamp are values.
- URL parsing: the query string is not parsed. The `userId` parameter is an input.
- Socket state: the socket's ready state is a boolean. The transport sets it; the model never closes a socket on its own.
- `Decimal.Show`: it renders every integer in plain digits. JavaScript switches to exponent notation from 1e21 on, which user ids never reach.
- `Listing.Sent`: rows with equal `createdAt` come out in an order the database does not fix. The contract states only the order by `createdAt` and the contents.
- `Listing.Received`: the same as `Listing.Sent` for equal `createdAt` values.
- Response joins: the user fields that the list routes include in their answers are left out.
- Concurrency: the handlers are asynchronous, and the answer route reads the status and then writes it without a check-and-set. The model runs each handler alone and claims nothing about concurrent answers.
- Write-then-notify order: the handler methods write the store and then notify, but no contract states that order. Only a store failure, which is left out, could make it visible.
- The compiled copies under `dist/` of the WebSocket module, the middleware and the admin router, and the signup and login routes at the top of `dist/routes/user.js`: the model follows the TypeScript sources of those.
- The server bootstrap and the type-only declaration file.
- The frontend: it runs on mock data and does not call these routes.
