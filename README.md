# Expense tracker: session flow and tables

This project models the core of a small personal-finance web application in
Dafny, and proves properties of the model. The application has two halves. A
React client stores a bearer token in `localStorage`, attaches it to every
request, and reacts to the server's answers. A Flask backend keeps a `users`
table and a `transactions` table.

**Client.**
- The token store and the router's current path are the two fields of a
  `Browser` object (`Api.Browser`).
- The network is a parameter. Each await receives an `Outcome`: a resolved
  response with an optional body, or a rejection with an optional response
  (status and body).
- Each handler returns the `Request` it issues: verb, path, headers, body.
  That is how "no request is sent" and "the header carries the token" are
  stated.
- The request interceptor (`Api.Intercept`) changes, in place, the headers
  of the config object it is given.
- The two async handlers `handleLogin` and `fetchTransactions` are each split
  at their await into `Begin…` and `Finish…`. A third method runs both
  halves. The split lets the model describe the state while the request is in
  flight, for example that the login button is disabled then.

**Backend.**
- The tables are `seq` fields of a `Database` class (`Resources.Database`).
- Request bodies are JSON objects with text values (`Common.Json`).
- Password hashing, password checking and token issuing are function values
  held in a `Crypto` record. A `Sound` predicate states the one fact relied
  on: a password checks against its own hash, and issued tokens are never
  empty.
- New ids follow SQLite's rowid rule: one more than the largest id in the
  table.
- The protected resources take the caller's identity as a parameter.

**Files.** One module per core file, plus one shared module and one
end-to-end module:
- `common.dfy`: wire values.
- `api.dfy`: `frontend/src/services/api.js`.
- `login.dfy`: `frontend/src/pages/Login.jsx`.
- `dashboard.dfy`: `frontend/src/pages/Dashboard.jsx`.
- `models.dfy`: `backend/models.py`, with the row-id and filter rules.
- `resources.dfy`: `backend/resources.py`.
- `endtoend.dfy`: both halves together.

**Invariants kept.**
- The non-null columns (username, email, password, amount, date, type,
  owner) are plain fields of the row datatypes. Only `description` is
  optional. An insert that would leave a non-null column missing (SQL NULL)
  is a 500 with the table unchanged; an empty string is accepted and stored.
- The client never writes a falsy token (`Api.Browser.NoFalsyToken`). Every
  client handler preserves this.
- `Database.Valid`: user ids, usernames and emails are unique, and
  transaction ids are unique.
- `Models.OwnersExist`: every transaction's owner is a stored user.
  Registration preserves it. POST preserves it when the caller is a stored
  user.
- `Models.AllExpenses`: every transaction has type `expense`. POST
  preserves it.

**Behaviour the code does not have, though its UI or field names might
suggest it.**
- The `transaction_type` column is commented as "income or expense", but
  the dashboard never posts one, so every transaction takes the column
  default `expense`.
- The dashboard keeps a single running total, not separate income, expense
  and net sums.
- The register view posts `{username, email, password}` to `/register`,
  then only logs and alerts. It does not navigate.
- The sign-in form asks for an email address and posts `email` and
  `password`. The login resource reads only `username` (see Findings).

## Model

| member | source | states |
|---|---|---|
| `Common.Field` | backend/resources.py:11-13 | `data.get(key)` is present exactly when the body has the key, and then equals that field |
| `Common.AccessTokenOf` | frontend/src/pages/Login.jsx:24 | definition: `response?.data?.access_token`, absent when the body or the field is absent |
| `Common.MessageOf` | frontend/src/pages/Login.jsx:32 | definition: `error.response?.data?.message`, absent when the response, its body or the field is absent |
| `Common.StatusOf` | frontend/src/pages/Dashboard.jsx:22 | definition: `err?.response?.status`, absent when the rejection has no response; `handleAdd` reads it the same way at Dashboard.jsx:62 |
| `Common.Truthy` | frontend/src/services/api.js:13 | definition: JavaScript truthiness of a string-or-absent value, present and not empty; the same test is applied at Login.jsx:24 and Login.jsx:32 |
| `Api.Browser.constructor` | frontend/src/pages/Login.jsx:24-26 | definition: the browser state the views write, the `token` entry of localStorage (`None` when absent) and the router's current path, starting from the given values |
| `Api.Browser.NoFalsyToken` | frontend/src/pages/Login.jsx:24-25 | definition: the store holds no token, or a non-empty one; the sign-in handler writes only a truthy token |
| `Api.Attachable` | frontend/src/services/api.js:13 | definition: the interceptor's guard, a truthy token that is neither "undefined" nor "null" |
| `Api.Bearer` | frontend/src/services/api.js:14 | the header value is exactly the prefix `Bearer ` followed by the token |
| `Api.OutgoingHeaders` | frontend/src/services/api.js:13-14 | a request gets an Authorization header if and only if the stored token is truthy and is neither "undefined" nor "null"; its value is then `Bearer <token>`, and no other header is added |
| `Api.RequestConfig.constructor` | frontend/src/services/api.js:5-8 | definition: axios's mutable request config, which the interceptor receives and returns, starts with the given verb, path and body and no headers |
| `Api.RequestConfig.Snapshot` | frontend/src/services/api.js:10-17 | definition: the request as it leaves, with the config's verb, path, headers and body |
| `Api.Intercept` | frontend/src/services/api.js:10-17 | returns the very config it received; sets Authorization to `Bearer <token>` when the guard holds and leaves the headers untouched otherwise; changes no other field of the config and does not change the token store |
| `Api.Send` | frontend/src/services/api.js:5-17 | a request leaves with the given verb, path and body and with exactly the headers the interceptor's guard gives the stored token |
| `Api.StoredTokenAttachable` | frontend/src/services/api.js:13-14 | once the store holds no falsy value, a request carries the bearer header exactly when a token is stored and it is neither sentinel string, and the header is then `Bearer <token>` |
| `LoginView.LoginBody` | frontend/src/pages/Login.jsx:19-22 | the sign-in body has exactly the keys `email` and `password`, holding the form's values |
| `LoginView.FailureText` | frontend/src/pages/Login.jsx:30-32 | the error shown for a rejected sign-in is the server's message when truthy, otherwise the fixed fallback text; it is never empty |
| `LoginView.LoginPage.constructor` | frontend/src/pages/Login.jsx:7-10 | the form starts empty, not loading, with no error |
| `LoginView.LoginPage.SubmitDisabled` | frontend/src/pages/Login.jsx:99 | definition: the submit button is disabled exactly while loading |
| `LoginView.LoginPage.BeginLogin` | frontend/src/pages/Login.jsx:13-22 | at the start of a submission loading is on (so the submit button is disabled) and the error is cleared, and the credentials are posted to `/login` with the interceptor's headers |
| `LoginView.LoginPage.FinishLogin` | frontend/src/pages/Login.jsx:23-35 | loading is off on every path; a truthy `access_token` is stored as is and the view goes to `/dashboard`; a success without it shows "Invalid response from server" and leaves store and location alone; a rejection shows the server's message or the fallback and leaves store and location alone; the token store changes only to a truthy value |
| `LoginView.LoginPage.HandleLogin` | frontend/src/pages/Login.jsx:13-36 | the whole handler: the same outcomes as above, with the error left empty on a stored token, the button enabled again at the end, and the falsy-token invariant kept |
| `DashboardView.ForcesLogout` | frontend/src/pages/Dashboard.jsx:22-23 | definition: a rejection whose response status is 401 or 422 |
| `DashboardView.Loaded` | frontend/src/pages/Dashboard.jsx:18-19 | definition: the request resolved with a body that is not null, so reading `transactions` off it succeeds |
| `DashboardView.LogsOut` | frontend/src/pages/Dashboard.jsx:20-27 | definition: the request was rejected and the rejection forces the logout |
| `DashboardView.ListAfterFetch` | frontend/src/pages/Dashboard.jsx:19 | after a fetch whose body could be read, the list is the body's `transactions`, or empty without them; after any failure, it is the previous list |
| `DashboardView.ErrorAfterFetch` | frontend/src/pages/Dashboard.jsx:16-29 | a fetch leaves no error exactly when it loaded or forced a logout, and otherwise the fixed "Failed to load transactions" text |
| `DashboardView.AddBody` | frontend/src/pages/Dashboard.jsx:48-52 | the add body has exactly the keys amount, description and date, and no transaction type |
| `DashboardView.Dashboard.constructor` | frontend/src/pages/Dashboard.jsx:6-11 | the view starts with an empty list, loading on, no error and an empty form |
| `DashboardView.Dashboard.BeginFetch` | frontend/src/pages/Dashboard.jsx:14-18 | a fetch starts with loading on and the error cleared, and sends `GET /transactions` with the interceptor's headers |
| `DashboardView.Dashboard.FinishFetch` | frontend/src/pages/Dashboard.jsx:18-32 | loading is off afterwards on every path, the forced-logout return included; a readable body replaces the list; status 401 or 422 removes the token, moves to `/login`, and leaves error and list alone; any other failure, a null body included, sets the fixed error and keeps the list |
| `DashboardView.Dashboard.FetchTransactions` | frontend/src/pages/Dashboard.jsx:14-33 | the whole fetch: the list, error, token and location afterwards as given by the outcome, loading off |
| `DashboardView.Dashboard.HandleAdd` | frontend/src/pages/Dashboard.jsx:40-70 | an empty amount or date sets "Please provide amount and date.", sends nothing and leaves the form, list and store unchanged (description is not required); otherwise the form is posted with the current token; on success the three fields are cleared and exactly one refetch follows; on 401 or 422 the token is removed, the location is `/login` and the error stays cleared; on any other failure the error is "Failed to add transaction." and the form is kept |
| `DashboardView.Dashboard.HandleLogout` | frontend/src/pages/Dashboard.jsx:72-75 | the token store is empty and the location is `/login`, whatever the state before |
| `Models.MaxId` | backend/models.py:19 | bounds every id of a column, and is one of them unless the column is empty |
| `Models.UsersValid` | backend/models.py:6-8 | definition: user ids, usernames and emails are each unique across the `users` table |
| `Models.TransactionIdsUnique` | backend/models.py:19 | definition: transaction ids are unique across the `transactions` table |
| `Models.IsUser` | backend/models.py:24 | definition: some stored user has this id, the target of the `user_id` foreign key |
| `Models.OwnersExist` | backend/models.py:24 | definition: every transaction's `user_id` is the id of a stored user |
| `Models.AllExpenses` | backend/models.py:23 | definition: every transaction has the type `expense` |
| `Models.NextId` | backend/models.py:6 | a new row's id is positive and larger than the primary key of every stored row |
| `Models.NextUserId` | backend/models.py:6 | the id given to a new user is positive and larger than every stored user id |
| `Models.NextTransactionId` | backend/models.py:19 | the id given to a new transaction is positive and larger than every stored transaction id |
| `Models.OwnedBy` | backend/resources.py:54 | the caller's query holds exactly the stored rows whose `user_id` is the caller |
| `Models.View` | backend/resources.py:57-62 | a listed row carries the stored id, amount, description and date |
| `Models.Views` | backend/resources.py:55-62 | the listing has one entry per row, in the same order |
| `Models.OwnedByConcat` | backend/resources.py:54 | filtering keeps stored order: the rows of two concatenated tables owned by a user are those of the first, then those of the second |
| `Models.OwnedByAppend` | backend/resources.py:46-54 | a row appended for its owner goes at the end of that owner's listing; every other user's listing is unchanged |
| `Models.AddUserKeepsValid` | backend/models.py:6-8 | adding a user with a new username, a new email and the next id keeps ids, usernames and emails unique |
| `Models.AddTransactionKeepsIdsUnique` | backend/models.py:19 | adding a transaction under the next id keeps transaction ids unique |
| `Resources.Reply.Status` | backend/resources.py:15-63 | definition: the HTTP status of each reply (400 and 201 from registration, 200 and 401 from login, 201 from POST and 200 from GET), with 500 for an exception escaping a handler |
| `Resources.Sound` | backend/resources.py:18-33 | definition: a password checks against its own hash, and an issued token is never empty; the two facts about the library calls the model relies on |
| `Resources.Clashes` | backend/resources.py:15 | definition: some stored user has the given username or the given email; a missing field matches nobody |
| `Resources.FirstBy` | backend/resources.py:31 | the lookup finds a user exactly when a stored user has that column value, and that user is stored and matches; a missing value finds nobody |
| `Resources.FirstByIsOnly` | backend/models.py:7-8 | on a unique column, the lookup returns the one user with that value |
| `Resources.Database.Valid` | backend/models.py:6-19 | definition: the uniqueness constraints of both tables hold |
| `Resources.Database.constructor` | backend/models.py:3-24 | empty tables meet every uniqueness constraint |
| `Resources.Database.Register` | backend/resources.py:9-22 | if any stored user has the same username or the same email, the reply is 400 "User with that username or email already exists" and the table is unchanged; otherwise a missing password, username or email gives a 500 with the table unchanged; otherwise exactly one user is appended, with the next id, the given username and email and the hash of the password, and the reply is 201; uniqueness and the foreign key are kept |
| `Resources.Database.Login` | backend/resources.py:26-35 | a token is issued if and only if a stored user has the given username and the password checks against their hash, and it is the token for that user's id; a stored name with no password gives 500; every other case is 401 "Invalid credentials"; no table changes |
| `Resources.Database.PostTransaction` | backend/resources.py:40-49 | with amount and date present, exactly one row is appended with the next id, the given fields, type `expense` and the caller as owner, and the reply is 201; without them the reply is 500 and nothing changes; every other user's rows are unchanged; ids stay unique, all rows stay expenses, and owners stay stored users when the caller is one |
| `Resources.Database.GetTransactions` | backend/resources.py:52-63 | the reply lists exactly the caller's rows, in stored order, each as id, amount, description and date; no table changes |
| `EndToEnd.Deliver` | frontend/src/services/api.js:5-7 | a 2xx reply resolves with its body and any other rejects with its status; the message, token or list of the reply is what the view reads |
| `EndToEnd.SignInAsWritten` | backend/resources.py:28-35 | whatever the tables hold, a sign-in from the view gets 401 "Invalid credentials", shows that text, and leaves the token store and location unchanged |
| `EndToEnd.LoginByEmail` | backend/resources.py:26-35 | the login resource with its lookup on the `email` the form sends: a token for a stored user whose email matches and whose password checks, 500 with no password, otherwise 401 |
| `EndToEnd.SignInByEmail` | frontend/src/pages/Login.jsx:13-36 | against the email lookup, a stored user whose email and password the form holds gets that user's token stored and lands on `/dashboard` |
| `EndToEnd.RegisteredUserSignInAsWritten` | backend/resources.py:9-35 | a user who registers and then signs in through the view with the same email and password is refused with "Invalid credentials"; a 201 appends exactly the new user and a 400 leaves the table alone; the constraints still hold, loading is off and the token store is untouched |
| `EndToEnd.RegisteredUserSignIn` | backend/resources.py:9-35 | with the email lookup, the same journey succeeds: 201 and exactly the new user appended, then the token issued for the new user's id is stored, the view is on `/dashboard` with loading off, and the next request carries that token as its bearer header; the constraints still hold |
| `EndToEnd.RegisterThenLogin` | backend/resources.py:9-35 | called with a username, the backend appends exactly the new user and then issues that user's token; the constraints still hold |
| `EndToEnd.PostThenList` | backend/resources.py:40-63 | after a successful POST exactly the new row is appended, the caller's listing is their earlier listing followed by the new row, and another user's listing is what it was before; the constraints still hold |

## Findings

| source | as written | input that shows it | evidently intended | confidence | as-written member | corrected member |
|---|---|---|---|---|---|---|
| backend/resources.py:28-31 | the login resource looks the user up only by `username`, but the sign-in view (frontend/src/pages/Login.jsx:19-22) posts `email` and `password` | register `{username: "a", email: "a@x", password: "p"}`, then sign in through the view with `a@x` / `p`: the reply is 401 "Invalid credentials" | a registered user can sign in with the email and password the form asks for | not executed | `EndToEnd.RegisteredUserSignInAsWritten` | `EndToEnd.RegisteredUserSignIn` |

`EndToEnd.SignInAsWritten` proves the general form of the first half: for any
tables, a sign-in sent from the view is refused. The corrected half uses
`EndToEnd.LoginByEmail`, which looks the user up by email. `Resources.Database.Login`
itself stays as written.

## Left out

- Rendering: JSX, layout and styling in all views. React hooks, the mount-time `useEffect` fetch, React Router and axios internals are not modelled either. Setters are field assignments and `navigate` writes the location.
- frontend/src/App.jsx: route wiring only. The `ProtectedRoute` guard it imports is not part of this model, because its source is not among the files modelled.
- frontend/src/pages/Register.jsx: the view posts `{username, email, password}` to `/register` (the body the end-to-end journeys send), then only logs and alerts; its form state and the alert are not modelled.
- frontend/src/components/Navbar.jsx: a logout that duplicates `handleLogout`.
- backend/app.py: Flask, JWT and CORS configuration.
- Floating point: the running `total` of the dashboard, `Number(...)`, `toFixed`, `parseFloat`, and the Float `amount` column. Amounts are opaque text.
- Dates: `toLocaleString`, `isoformat`, and turning the posted string into a DateTime. Dates are opaque text, and a listed date is the stored one.
- Password hashing and JWT creation are function values of a `Crypto` record, so in the model they are deterministic. Werkzeug salts each hash, and a JWT carries its issue time and a random `jti`, so `hash(p)` stands for "a hash of p" and `issue(id)` for "a token for id". Beyond that, the model assumes only that a password checks against its own hash and that tokens are not empty.
- JWT verification in `@jwt_required()` and `get_jwt_identity()`: the 401 and 422 replies it produces for a missing or bad token are not modelled. The caller's identity is a parameter.
- SQLAlchemy session and commit mechanics, and persistence.
- Column length limits (`String(80)` and the others): SQLite does not enforce them.
- Non-JSON request bodies (`get_json()` returning `None`) and JSON values that are not strings.
- Console logging.
- Overlapping requests, and state updates after a view unmounts: these come from event-loop concurrency.
- Resources.Database.PostTransaction: any amount and date text is stored and answered with 201. Converting the date to a DateTime and the amount to Float is library behaviour and is not modelled. By SQLAlchemy's documentation, its SQLite `DateTime` type (the database of backend/app.py:15) accepts only Python `datetime` and `date` objects, and JSON yields a string. If so, every POST carrying the dashboard's date text fails at flush with a 500 as the source is written. This claim was not executed, and the model describes the evidently intended behaviour.
- 500 replies (`ServerError`): the reply carries no JSON fields. That holds for `app.run(debug=True)` (backend/app.py:31-32), where the exception reaches the debugger's HTML page. Without debug, Flask-RESTful answers with a JSON `message`, and the sign-in view would show that text instead of its fallback. With debug on, the exception also skips the hooks that run after a request, so Flask-CORS adds no headers to that page. A browser on another origin would then plausibly reject with no `error.response` at all rather than with status 500 (not executed). Both views act the same either way: the fallback text, and no forced logout.
- Resources.Database.GetTransactions: "stored order" assumes that SQLite returns the filtered rows in rowid order, since the query has no ORDER BY.
- DashboardView.AddBody: the amount is sent as the form's text, not as the number `parseFloat` makes of it.
