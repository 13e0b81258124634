# Premium Gallery: session handling and the users service

This project models the login and session flow of the Premium Gallery web
application, and the FastAPI users service behind it.

**The browser side.** The login page's `handleLogin` and the register page's
`handleRegister` validate the form, call the API, store the credential under
the localStorage keys `token` and `token_type`, send a best-effort
`PUT /users/me` through `updateUser`, and navigate to `/`. The navigation
bar's `handleLogout` removes both keys and navigates to `/login`. The
application root (`App`) reads `token` once when it mounts and then renders
the routes `/login`, `/register` and `/`. The home page has its own guard,
which runs when it mounts. It also has a "fetch" of the random image, which
only sets a fixed URL, and a render that branches on loading.

Each handler is a method (on a page class for the login and register pages,
a module-level method taking the tab for `handleLogout` and `updateUser`).
It performs, one after another, the effects the source performs on a
`Browser.Tab`: loading-flag changes,
sent requests, storage writes and removals, navigations and alerts. Its
postcondition ties the tab's new effect log and its new storage and route
to a pure function of the inputs and of the replies the awaited calls
produced (`LoginRun`, `RegisterRun`, `LogoutRun`). The lemmas state what the
source promises about those runs:
- which keys end up in storage, and with which values;
- which requests are made;
- that storage is unchanged on every failure path;
- that the loading flag brackets the work;
- that storage writes come only after the awaited calls;
- that the two credential keys stay paired.

Network replies are parameters of type `Reply<T>`. A reply is one of:
- `Ok(data)`;
- `HttpError(status, body)`, where the body may be missing;
- `NoResponse`.

JavaScript semantics are kept where they matter:
- a missing field written with `setItem` is stored as the text `"undefined"`;
- `!token` holds for a missing key and for an empty string.

**The service side.** `Users.UserTable` holds the `users` table as a map
from the unique `username` column to the row's `id`, password hash and
`visits`, together with the next AUTO_INCREMENT id. It has one method for
each of these:
- `increment_visit_count`;
- the `get_current_user` dependency;
- the register, read, update and delete endpoints.

Each method is proved against a pure function of the old table. bcrypt,
JWT encoding and the clock are outside the model:
- a password hash is a parameter, and verification is a function parameter;
- a presented token arrives already decoded, as `None` when decoding raised;
- the current time is a parameter `now`, in minutes.

## Model

| member | source | states |
|---|---|---|
| Browser.Tab.Perform | frontend/src/pages/Login.tsx:32-33 | performing an effect appends it to the log and changes storage and route exactly as the effect says, so the tab always equals the replay of its log |
| Session.StoreThenGoHome | frontend/src/pages/Login.tsx:31-38 | writing token then token_type, sending the update and navigating home overwrites exactly those two keys, leaves the route at "/", and sends only the update |
| Session.UpdateUser | frontend/src/pages/Login.tsx:47-61 | `updateUser` sends one PUT /users/me with body {visits: 1} and header "Bearer " + token; whatever the reply, storage and route are unchanged |
| Login.LoginPage.constructor | frontend/src/pages/Login.tsx:7-9 | the form starts with empty username and password and loading off |
| Login.LoginPage.HandleLogin | frontend/src/pages/Login.tsx:12-45 | the effects performed are exactly `LoginRun` for the form and the /token outcome; loading is off afterwards whenever validation passed |
| Login.LoginPage.TryLogin | frontend/src/pages/Login.tsx:19-41 | the try block sends POST /token; on a reply it stores access_token and token_type, calls `updateUser` and navigates to "/"; on any failure it shows the generic alert |
| Login.MissingFieldsStopEarly | frontend/src/pages/Login.tsx:13-16 | with an empty username or password the only effect is the alert "Please enter both username and password": no request, no loading flag, no change |
| Login.FailedLoginKeepsState | frontend/src/pages/Login.tsx:39-41 | when POST /token fails (error status or no response), storage and route are unchanged, /token is the only request, and "Login failed. Please check your credentials." is shown |
| Login.SuccessfulLoginStoresCredential | frontend/src/pages/Login.tsx:21-38 | on a /token reply, storage becomes the old storage with token := access_token and token_type := token_type; the route is "/"; the requests are /token and then the update, whose Authorization is "Bearer " + the stored token |
| Login.LoginLoadingBrackets | frontend/src/pages/Login.tsx:18-44 | past validation, loading goes on first, off last, and does not change in between |
| Login.LoginWritesFollowTokenCall | frontend/src/pages/Login.tsx:21-33 | every storage write comes after the POST /token is sent |
| Login.LoginKeepsPairing | frontend/src/pages/Login.tsx:32-33 | if token and token_type were both present or both absent before a login, the same holds afterwards |
| Login.MalformedReplyIsStored | frontend/src/pages/Login.tsx:31-32 | a 2xx /token reply without access_token, whatever its token_type, stores the text "undefined", which passes the session guards' test |
| Login.AliceLogsIn | frontend/src/pages/Login.tsx:21-33 | alice / s3cret answered with abc123 / bearer leaves token = abc123 and token_type = bearer |
| Register.RegisterPage.constructor | frontend/src/pages/Register.tsx:7-9 | the form starts with empty username and password and loading off |
| Register.RegisterPage.HandleRegister | frontend/src/pages/Register.tsx:12-57 | the effects performed are exactly `RegisterRun` for the form and the three POST outcomes; loading is off afterwards whenever validation passed |
| Register.RegisterPage.TryRegister | frontend/src/pages/Register.tsx:19-53 | POST /register, POST /token and POST /token again, each awaited; the first failure ends in its alert; on success it stores the second reply's access_token with the first reply's token_type, calls `updateUser` and navigates to "/" |
| Register.RegisterPage.TryTokens | frontend/src/pages/Register.tsx:32-53 | once /register has succeeded and the first /token was sent: a failed first /token ends in its alert; otherwise the second /token is sent, and its failure ends in its alert; on success it stores the second access_token with the first token_type, calls `updateUser` and navigates to "/" |
| Register.MissingFieldsStopEarly | frontend/src/pages/Register.tsx:13-16 | with an empty field the only effect is the alert "Please fill in all fields.": no request, no loading flag, no change |
| Register.FailureMessage | frontend/src/pages/Register.tsx:49-53 | no reply at all, or an error reply without a body, gives the bare "Registration failed"; an error reply with a body gives "Registration failed: " + its detail, or "Registration failed: undefined" when the body has no detail |
| Register.RejectedRegistrationStops | frontend/src/pages/Register.tsx:20-53 | a failed POST /register is the only request; neither /token call is made; storage and route are unchanged; the alert is derived from that failure |
| Register.FirstTokenFailureStops | frontend/src/pages/Register.tsx:20-53 | /register succeeds and the first /token fails: the requests are exactly /register and /token, the alert is derived from that failure, and storage and route are unchanged |
| Register.SecondTokenFailureStops | frontend/src/pages/Register.tsx:20-53 | /register and the first /token succeed and the second /token fails: the requests are exactly /register, /token, /token, the alert is derived from the second failure, and storage and route are unchanged |
| Register.AnyFailureKeepsState | frontend/src/pages/Register.tsx:48-53 | if any of the three POSTs fails, storage and route are unchanged |
| Register.SuccessfulRegistrationMixesReplies | frontend/src/pages/Register.tsx:20-47 | when all three succeed, token := the second reply's access_token and token_type := the first reply's token_type, the route is "/", and the requests are /register, /token, /token and the update carrying the stored token |
| Register.RegisterWritesFollowCalls | frontend/src/pages/Register.tsx:20-44 | every storage write comes after the POST /register and after both POST /token calls |
| Register.RegisterLoadingBrackets | frontend/src/pages/Register.tsx:18-56 | past validation, loading goes on first, off last, and does not change in between |
| Register.RegisterKeepsPairing | frontend/src/pages/Register.tsx:43-44 | if token and token_type were both present or both absent before a registration, the same holds afterwards |
| Register.TakenUsernameScenario | frontend/src/pages/Register.tsx:49-50 | a 400 with detail "Username already registered" shows "Registration failed: Username already registered", requests no token and stores nothing |
| Navbar.HandleLogout | frontend/src/components/Navbar.tsx:8-13 | the effects performed are exactly the two removals and the navigation to "/login" |
| Navbar.LogoutClearsCredential | frontend/src/components/Navbar.tsx:8-13 | from any state, logout removes token and token_type, keeps every other key, sets the route to "/login", and leaves no session |
| Navbar.LogoutIdempotent | frontend/src/components/Navbar.tsx:8-13 | logging out twice leaves the same state as logging out once |
| Navbar.LogoutIsLocal | frontend/src/components/Navbar.tsx:8-13 | logout sends no request, shows no alert and does not touch a loading flag |
| Routes.Render | frontend/src/App.tsx:16-29 | nothing is rendered exactly while the check is pending; "/" shows Home exactly when authenticated and redirects to "/login" exactly when not; "/login" and "/register" show their pages either way |
| Routes.App.constructor | frontend/src/App.tsx:9 | the authentication cell starts unknown |
| Routes.App.CheckSession | frontend/src/App.tsx:11-14 | after the mount effect the cell holds whether "token" is present and non-empty, and "/" shows Home exactly then |
| Routes.GuardIgnoresTokenType | frontend/src/App.tsx:12-13 | writing or removing token_type never changes whether a session is seen |
| Routes.StaleGuardAfterLogin | frontend/src/App.tsx:11-27 | from a logged-out start, a successful login stores a token and navigates to "/", yet the root's cell, read at mount, still redirects to "/login" |
| Routes.FreshGuardFollowsSession | frontend/src/App.tsx:25-28 | with "token" read at each render, a successful login with a non-empty access_token shows Home, and after a logout "/" redirects to "/login" |
| Home.Render | frontend/src/pages/Home.tsx:37-55 | nothing is rendered exactly when not authenticated; otherwise the loader is shown exactly while loading, and the image with the stored URL after that |
| Home.HomePage.constructor | frontend/src/pages/Home.tsx:7-9 | the page starts with an empty URL, loading on and not authenticated |
| Home.HomePage.FetchRandomImage | frontend/src/pages/Home.tsx:11-22 | the URL becomes the fixed image endpoint and loading is off; authentication is untouched |
| Home.HomePage.Mount | frontend/src/pages/Home.tsx:24-35 | without a non-empty "token", the page navigates to "/login" and renders nothing; with one, it stays, authenticates and shows the image; storage is never changed |
| Users.GetUser | backend/main.py:109-126 | a user is found exactly when a row is stored under the name, and it carries that row's id, hash and visit count under that name |
| Users.Authenticate | backend/main.py:128-134 | a user is returned exactly when the name exists and the password verifies against its hash, and it is that name's row |
| Users.ExpiryMinutes | backend/main.py:138-141 | the lifetime is the given delta unless it is absent or zero, in which case it is 15 minutes |
| Users.CreateAccessToken | backend/main.py:136-144 | the claims are a copy of the data plus "exp"; "exp" is now + delta, or now + 15 minutes when no delta or a zero delta is given (a zero timedelta is falsy) |
| Users.LoginForAccessToken | backend/main.py:178-192 | bad credentials fail exactly with 401 "Incorrect username or password" and the Bearer challenge; otherwise the reply is a "bearer" token whose claims are exactly "sub" = username and "exp" = now + the configured lifetime, which is 15 minutes when ACCESS_TOKEN_EXPIRE_MINUTES is 0 |
| Users.CurrentUser | backend/main.py:156-175 | the dependency succeeds exactly when the payload decodes and names an existing user, and returns that user's row; otherwise 401 "Could not validate credentials" |
| Users.SetColumns | backend/main.py:243-273 | applying the SET list never changes the row's id or visit count |
| Users.UserTable.constructor | backend/main.py:88-95 | the table starts empty, with the first id to hand out being 1 |
| Users.UserTable.IncrementVisitCount | backend/main.py:146-154 | the table becomes `Visited(old, id)`, keeping unique ids |
| Users.UserTable.GetCurrentUser | backend/main.py:156-175 | the result is `CurrentUser` of the old table; the visit is counted only on success |
| Users.UserTable.RegisterUser | backend/main.py:194-225 | a taken name gives 400 "Username already registered" and no change; otherwise exactly one row is added with the next id, the hash and 0 visits |
| Users.UserTable.ReadUsersMe | backend/main.py:227-233 | the current user as read before the visit was counted, with the visit counted; 401 and no change otherwise |
| Users.UserTable.UpdateUser | backend/main.py:235-292 | the reply and the new table are exactly `UpdateUserSpec` of the old table, and the id invariants are kept |
| Users.UserTable.DeleteUser | backend/main.py:294-312 | on success, exactly the current user's row is removed; 401 and no change otherwise |
| Users.VisitCountsOwnerOnly | backend/main.py:146-154 | counting a visit by id increments exactly one row, the owner's, and keeps the id invariants |
| Users.MoveRowKeepsKeys | backend/main.py:272-273 | the UPDATE keeps the primary-key and unique-name columns (backend/main.py:90-91) consistent: moving one row to its own name or a free name, keeping its id, keeps ids unique and below the next id |
| Users.DeleteRemovesOwnRow | backend/main.py:294-300 | deleting by id after the visit was counted removes exactly the owner's row |
| Users.AssignmentsSetColumns | backend/main.py:246-273 | the SET list built from the body renames the row to the supplied name (if any) and stores the new hash only if a password was supplied |
| Users.IssuedTokenIdentifiesUser | backend/main.py:178-192 | a token issued by /token is accepted by `get_current_user` and names the user who logged in |
| Users.RegisteredUserCanLogIn | backend/main.py:194-225 | after registration, the password whose hash was stored logs in, and the user is seen with 0 visits |
| Users.DeletedUserIsLockedOut | backend/main.py:294-312 | after deletion, the same token gets 401 and the name authenticates with no password |
| Users.RenameToTakenNameRefused | backend/main.py:246-254 | renaming to another user's name gives 400 "Username already taken", and only the counted visit remains |
| Users.EmptyUpdateOnlyCountsVisit | backend/main.py:262-267 | a body with no field supplied, such as the client's {visits: 1}, changes only the visit count and returns the count read before that visit |
| Users.UpdateRewritesOwnRowOnly | backend/main.py:243-292 | an update whose new name is free or the user's own, or that supplies only a password, is accepted and rewrites only the current user's row, under the new or old name, with the same id, one more visit, and the new hash only if a password was supplied; the id invariants still hold |

## Left out

- The API client, the `../services/api` module: any base URL or default headers it adds. That module is not part of this model. A request carries only what its caller passes.
- Form encoding with `qs` and axios's JSON handling: the body is modelled as its fields and its encoding, not as bytes.
- Console output (`console.log`, `console.error`, the backend's `print`): it is not observable state.
- JSX layout, CSS classes and the `onChange` handlers of the inputs. The form fields are plain fields of each page class.
- The home page's "Generate New Image" button. It calls `window.location.reload()`, a full page reload that the model does not describe.
- Concurrency between handlers, and React's batching of state updates: each handler runs to completion in one step.
- The replies of awaited calls are parameters. A 2xx reply whose `data` is itself null or not an object is not modelled; a reply that lacks a field is.
- The catch block of `fetchRandomImage` is unreachable, because nothing in its try block can throw, so it is left out.
- SQL as text, connections, commits and rollbacks, and the 500 errors on database failure. Each statement is modelled by its effect on the table.
- A request without a Bearer Authorization header is refused by the OAuth2 scheme with 401 "Not authenticated" before `get_current_user` runs. The model starts from a presented token, so `None` stands only for a token whose decoding raised.
- bcrypt, JWT signing and decoding, and the clock. `get_current_user` receives the decoded claims, or `None` when decoding fails, including on expiry.
- `Users.LoginForAccessToken`: an empty username or password form field is refused by FastAPI's form parsing with 422 before the endpoint runs; the model (and `Users.RegisteredUserCanLogIn`) start from non-empty fields, while `/register` accepts empty strings in its JSON body.
- `Users.CurrentUser`: a "sub" claim that is present but not a string is treated like a missing one.
- MySQL's default case-insensitive collation for `username`: names compare exactly here.
- `ACCESS_TOKEN_EXPIRE_MINUTES` is read from the environment: it is the parameter `expireMinutes`.
- CORS settings, `init_db`, the startup hook and `uvicorn.run`.
- The external random-image service is never called by the source; only its URL is stored.
- Behaviours of the code a reader might not expect, which the model keeps:
  - A /token reply without `access_token` is stored as "undefined" and is not treated as a failure (`Login.MalformedReplyIsStored`).
  - Registration calls /token twice and mixes the two replies (`Register.SuccessfulRegistrationMixesReplies`).
  - The session guards test only `token`, not both keys (`Routes.GuardIgnoresTokenType`).
  - The root reads storage only at mount (see Findings).

## Findings

| source | as written | input that shows it | evidently intended | confidence | as-written member | corrected member |
|---|---|---|---|---|---|---|
| frontend/src/App.tsx:11-14 | `isAuthenticated` is computed once, in a mount-only effect, and the route "/" is guarded by that cached value | open the application logged out (empty storage, path "/login"), then log in as alice / s3cret, which stores a token and navigates to "/" | "/" shows Home whenever storage holds a token, i.e. the guard reads the token at each render | medium, not executed | Routes.StaleGuardAfterLogin | Routes.FreshGuardFollowsSession |
