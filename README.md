# SparkRunner user portal — a Dafny model of its session and account logic

This project models the core of the SparkRunner user portal. The portal is a React front end through which a scooter-rental customer does three things:

- registers and logs in against the auth service;
- is kept logged in by a bearer token held in `localStorage`;
- sees their balance, tops it up and lists their trips through the scooter service.

The model covers these parts:

- **HTTP client** (`http_client.dfy`): the token store, the request interceptor that adds `Authorization: Bearer <token>`, the single unauthorized-handler slot, and the response interceptor that runs that handler on a 401 and re-rejects the same error.
  - Backend replies are inputs to the model: a 2xx response, or the error axios rejects with.
  - The handler closure is represented by a value. Each send reports which handler, if any, the interceptor invoked, and the caller runs it.
- **Auth adapter** (`auth_api.dfy`): `login` stores a truthy token and resolves with the body. `register` adds the default role `['user']`. `logout`, `isAuthenticated` and `getToken` work over the store.
- **Profile adapter** (`profile_api.dfy`): it builds the `/users/{id}/…` paths and the `/rent/history?` query. Two partners check them:
  - a server-side parser of the query, with a round-trip lemma;
  - a `/`-splitter that recovers the user id from the path.
- **AuthContext** (`auth_context.dfy`): a class holding the four state cells `user`, `token`, `isReady` and `isLoading`.
  - Its methods are the startup restore (`checkAuth` plus the handler registration), `handleLogin` and `handleLogout`.
  - `decodeToken` is a pure function over an opaque `jwtDecode`.
  - Every transition keeps the invariant that `user` and `token` are set or cleared together.
- **Routing** (`app.dfy`): the route table and the three-way `ProtectedRoute` gate.
- **Pages** (`login_page.dfy`, `register_page.dfy`, `account_page.dfy`):
  - the submit handlers, with their validation chains, call sequencing and message fallbacks;
  - the balance tab's response-shape tolerance, fillup guard and reload;
  - the trips tab's default;
  - the first-run-of-digits reading of a trip's duration.

Supporting modules:

- `js_value.dfy` models JavaScript values: truthiness, nullishness, optional property access and `String(v)`.
- `strings.dfy` holds the decimal printing and parsing, and the splitting, the models need.

## Model

| member | source | states |
|---|---|---|
| HttpClient.TokenStorage.Get | src/api/httpClient.js:12-14 | reads the single `spark_auth_token` slot verbatim, absent when the key is missing |
| HttpClient.TokenStorage.Set | src/api/httpClient.js:15-17 | afterwards the slot holds exactly the token, and every other key is as before |
| HttpClient.TokenStorage.Remove | src/api/httpClient.js:18-20 | afterwards the slot is absent, and every other key is as before |
| HttpClient.TokenSlotRoundTrip | src/api/httpClient.js:9-20 | running `set(t)` then `get()` reads back exactly `t`, `remove()` then `get()` reads absent, and every other key of the store ends as it began |
| HttpClient.WithBearer | src/api/httpClient.js:44-46 | adds `Authorization: Bearer <token>` exactly when the stored token is non-empty; otherwise the headers are identical; no other header changes |
| HttpClient.BearerCredentialOfWithBearer | src/api/httpClient.js:42-48 | a server reading the bearer credential (section 2.1 of RFC 6750) recovers exactly the stored token; with no token it sees only what the caller set |
| HttpClient.RequestConfig.constructor | src/api/httpClient.js:24-39 | a fresh request config carries the call's verb, url and body and exactly the clients' default `Content-Type: application/json` header |
| HttpClient.Interceptors.constructor | src/api/httpClient.js:54 | the handler slot starts empty |
| HttpClient.Interceptors.RegisterUnauthorizedHandler | src/api/httpClient.js:56-58 | the slot holds exactly the new handler (last writer wins) |
| HttpClient.Interceptors.AuthInterceptor | src/api/httpClient.js:42-48 | returns the same config, its headers being the old ones with the bearer header added per the store, and changes nothing else |
| HttpClient.Interceptors.ResponseInterceptor | src/api/httpClient.js:60-65 | invokes the handler (at most once) iff the status is 401 and a handler is registered, and always rejects with the error it received |
| HttpClient.Interceptors.Send | src/api/httpClient.js:42-68 | the request carries the headers as the request interceptor leaves them (the default headers plus the bearer header); a success passes through unchanged; a failure is the same error, and fires the handler iff it is a 401 and a handler is registered |
| HttpClient.Interceptors.SendForData | src/api/httpClient.js:67-68 | resolves with the response body unchanged or rejects with the error unchanged, with the same request and handler behaviour as `Send` |
| HttpClient.MessageOr | src/pages/LoginPage.jsx:31 | the displayed error is the server's `message` when it is truthy, else the fallback; it is never empty |
| AuthApi.RegisterBody | src/api/authApi.js:30-33 | the body is the caller's fields plus `role: ['user']`, which overrides any caller-supplied role |
| AuthApi.LoginResult | src/api/authApi.js:13-21 | a failing request rejects with its own error; a null body rejects with a TypeError; otherwise it resolves with the body unchanged |
| AuthApi.StoreAfterLogin | src/api/authApi.js:14-19 | the store is written with the token iff the login succeeded and the body's `token` is truthy; otherwise it is left untouched |
| AuthApi.Login | src/api/authApi.js:12-22 | posts the credentials unchanged to `/login`, resolves or rejects as `LoginResult`, and leaves the store as `StoreAfterLogin` |
| AuthApi.Register | src/api/authApi.js:29-35 | posts `RegisterBody` to `/register`, resolves with the body unchanged, and does not touch the token store |
| AuthApi.Logout | src/api/authApi.js:40-42 | removes only the token slot |
| AuthApi.IsAuthenticated | src/api/authApi.js:47-49 | true iff a non-empty token is stored |
| AuthApi.GetToken | src/api/authApi.js:54-56 | returns the stored value verbatim, or absent |
| ProfileApi.PathSegments | src/api/profileApi.js:12-51 | splitting the balance, fillup and profile paths on `/` gives `users`, then the user id, then `balance` or `fillup` (nothing for the profile) |
| ProfileApi.Params | src/api/profileApi.js:35-37 | one pair per truthy option: `limit` first, `offset` last, zeros and absent options omitted |
| ProfileApi.ParseSerialize | src/api/profileApi.js:39 | parsing the serialized `URLSearchParams` gives back exactly the appended pairs, in order |
| ProfileApi.RidesQueryRoundTrip | src/api/profileApi.js:34-39 | a server reading the query recovers each option that is present and non-zero, and nothing for the others |
| ProfileApi.RidesQueryShapes | src/api/profileApi.js:34-39 | no options gives `/rent/history?`; one option gives a single pair with no `&`; both give `limit=<l>&offset=<o>` |
| ProfileApi.RidesPathExamples | src/api/profileApi.js:34-39 | the four documented shapes, including `limit=20` and zeros omitted |
| Strings.ParseIntOfIntToString | src/api/profileApi.js:36-37 | the decimal form of an option value reads back as the same integer |
| ProfileApi.GetUserBalance | src/api/profileApi.js:12-15 | GET `/users/{id}/balance`, resolving with the body unchanged |
| ProfileApi.FillupBalance | src/api/profileApi.js:23-26 | POST of the data unchanged to `/users/{id}/fillup`, resolving with the body unchanged |
| ProfileApi.GetUserRides | src/api/profileApi.js:34-41 | GET of `RidesPath(options)`, resolving with the body unchanged |
| ProfileApi.GetUserProfile | src/api/profileApi.js:48-51 | GET `/users/{id}`, resolving with the body unchanged |
| AuthContext.DecodeToken | src/auth/AuthContext.jsx:19-32 | a user with the claims' `id`, `email` and `role` and `authenticated: true` iff decoding succeeds; otherwise `null` |
| AuthContext.UseAuth | src/auth/AuthContext.jsx:91-97 | throws iff there is no provider; otherwise returns the provider's value |
| AuthContext.AuthProvider.constructor | src/auth/AuthContext.jsx:13-16 | starts with `user` and `token` null and `isReady` and `isLoading` false, which satisfies the session invariant `Valid` (user and token set together, the user being what the token decodes to) |
| AuthContext.AuthProvider.Value | src/auth/AuthContext.jsx:77-85 | `isAuthenticated` is the truthiness of `token`; the other cells are exposed as they are |
| AuthContext.AuthProvider.CheckAuth | src/auth/AuthContext.jsx:36-46 | restores `token` and the decoded `user` from a stored, non-empty, decodable token; otherwise leaves both as they were; sets `isReady` in every case; keeps `Valid` |
| AuthContext.AuthProvider.Mount | src/auth/AuthContext.jsx:34-54 | runs `checkAuth`, then leaves the logout handler registered |
| AuthContext.AuthProvider.HandleLogout | src/auth/AuthContext.jsx:71-75 | clears the stored token and both cells, leaving everything else as it was; keeps `Valid` |
| AuthContext.AuthProvider.Run | src/auth/AuthContext.jsx:51-53 | the registered 401 handler performs exactly `handleLogout`; with no handler fired nothing changes; keeps `Valid` |
| AuthContext.AuthProvider.HandleLogin | src/auth/AuthContext.jsx:56-69 | `isLoading` ends false; resolves or rejects as `login`; a decodable token sets `user` and `token` together; a rejection leaves them as they were unless it was a 401 that fired the logout handler; keeps `Valid` |
| AuthContext.LogoutIdempotent | src/auth/AuthContext.jsx:71-75 | two `handleLogout` calls leave the store, both cells and both flags exactly as one call does |
| App.RouteTable | src/App.jsx:16-26 | matching case-insensitively with trailing `/` optional, as the router does by default: `/account` is the only gated route and gates the account page, and a location renders something iff it matches one of the four routes |
| App.TrailingSlashIgnored | src/App.jsx:16-26 | adding a trailing `/` to a location never changes what it renders |
| App.RouteExamples | src/App.jsx:16-26 | `/` redirects to `/login`; `/account` and `/Account/` both render the gated account page; `/accounts` renders nothing |
| App.GateFor | src/App.jsx:37-45 | loading iff not ready; redirect to `/login` iff ready and unauthenticated; children iff ready and authenticated |
| App.ProtectedRoute | src/App.jsx:34-46 | throws outside the provider; otherwise it is the gate decision over `isReady` and `isAuthenticated` |
| App.GateOpensOnlyForSession | src/App.jsx:34-46 | the account page renders iff the session is ready and holds a non-empty token |
| LoginPage.LoginPage.constructor | src/pages/LoginPage.jsx:10-12 | the email, password and error fields start empty |
| LoginPage.Validate | src/pages/LoginPage.jsx:22-25 | rejects iff the email or password is empty, with the fixed message |
| LoginPage.LoginPage.HandleSubmit | src/pages/LoginPage.jsx:18-33 | clears the error; invalid input sets the message with no request; otherwise one login request with the credentials, then navigation to `/account` on success, or the server message or fallback with no navigation on failure; the session and store end as the context's `login` leaves them (token stored and user decoded, or a 401 logout, or untouched), and `isReady` is kept |
| RegisterPage.RegisterPage.constructor | src/pages/RegisterPage.jsx:11-16 | the four input fields and the error start empty and `isLoading` false |
| RegisterPage.Validate | src/pages/RegisterPage.jsx:25-38 | the three checks in order (an empty field, then a mismatch, then fewer than 6 UTF-16 units), each as an iff over the inputs, and acceptance exactly when none applies |
| RegisterPage.RegisterPage.HandleSubmit | src/pages/RegisterPage.jsx:20-53 | clears the error; invalid input sets the message with no request; otherwise `register`, then `login` with the same email and password, then `/account`; the first failure shows the server message or `Registrering misslyckades` and stops; `isLoading` is false afterwards; a 401 on `/register` logs out, otherwise the session and store end as the context's `login` leaves them, and `isReady` is kept |
| AccountPage.BalanceTab.constructor | src/pages/AccountPage.jsx:78-82 | the balance starts `null`, `loading` true, the input and error empty, `fillupLoading` false |
| AccountPage.BalanceField | src/pages/AccountPage.jsx:134-137 | the body's `balance` if defined, else its `amount` if defined, else nothing |
| AccountPage.ExtractBalance | src/pages/AccountPage.jsx:93-102 | `balance`, else `amount`, else the body itself when it is a number, else 0, stated per shape of the body |
| AccountPage.LoadedBalance | src/pages/AccountPage.jsx:91-110 | a success shows the extracted balance; a 404 shows 0; any other failure keeps the previous balance |
| AccountPage.LoadError | src/pages/AccountPage.jsx:90-110 | `Kunde inte ladda saldo` iff the load failed with a status other than 404; otherwise empty |
| AccountPage.BalanceTab.LoadBalance | src/pages/AccountPage.jsx:85-114 | with no user id, no request and no change; otherwise one GET of the user's balance, the balance and error as `LoadedBalance`/`LoadError`, and `loading` false |
| AccountPage.FillupRejected | src/pages/AccountPage.jsx:122-124 | rejects iff the parsed amount is missing (NaN), zero or negative |
| AccountPage.BalanceTab.HandleFillup | src/pages/AccountPage.jsx:120-149 | a rejected amount gives the message with no request and no other change; otherwise a POST of `{ amount }`, then a balance from the reply's `balance`/`amount` or else a reload, the input cleared, the server message or `Påfyllning misslyckades` on failure, and `fillupLoading` false; `loading` changes only through the reload; a 401 on either request logs out, otherwise the session and store are untouched |
| AccountPage.TripsTab.constructor | src/pages/AccountPage.jsx:195-197 | the list starts empty, `loading` true and the error empty |
| AccountPage.TripsOrEmpty | src/pages/AccountPage.jsx:209 | the body's `trips` when it is truthy, else the empty list |
| AccountPage.TripsTab.LoadTrips | src/pages/AccountPage.jsx:203-216 | one GET of `/rent/history?limit=20`; the list from `TripsOrEmpty`, or the old list with `Kunde inte ladda resehistorik` on any failure or null body; `loading` false; a 401 logs out, otherwise the session and store are untouched |
| AccountPage.DurationMinutes | src/pages/AccountPage.jsx:243-244 | no minutes iff there is no duration or it holds no digit |
| AccountPage.DurationOfDigits | src/pages/AccountPage.jsx:243-244 | for any duration made of digit-free text, a run of digits, then text not starting with a digit, the minutes are the run's decimal value, leading zeros included |
| AccountPage.DurationOfFormatted | src/pages/AccountPage.jsx:243-262 | a duration printed as digit-free text, the number, then text not starting with a digit reads back as exactly that number |
| AccountPage.LeadingZeroDuration | src/pages/AccountPage.jsx:243-244 | `"05 min"` reads as 5 minutes |
| AccountPage.DurationExamples | src/pages/AccountPage.jsx:243-244 | `"1 minutes"` reads as 1, `"about 12 min"` as 12, and text without digits or a missing duration as nothing |
| AccountPage.HandleLogout | src/pages/AccountPage.jsx:16-19 | logs out (the stored token and both session cells are cleared, the flags kept), then navigates to `/login` |

Three behaviours follow the code rather than a looser reading of it:

- **A 401 on login or register clears the session.** Both requests go through the auth client's response interceptor. So once the provider has registered its handler, a 401 from `/login` or `/register` runs `handleLogout` before the error reaches the page. `HandleLogin`'s contract states this case separately from other rejections.
- **An undecodable token stays in storage.** `checkAuth` leaves such a token in `localStorage`; only the in-memory cells stay unset.
- **`loadBalance` can leave `loading` at its initial `true`.** It returns before its `try` when the user has no id, so `loading` keeps its initial `true` and the tab keeps showing its loading placeholder. `LoadBalance` models this as written.

## Left out

- Floating point:
  - Numbers are integers.
  - `parseFloat` of the fillup input is a parameter returning an optional integer; NaN is `None`, and fractional amounts and `Infinity` are not represented.
  - `toFixed` formatting and the trip cost regex with its `parseFloat` are not modelled.
- Presentation: the JSX markup, the `styles` objects, the theme tokens, the tab switching and the success message shown on the login page are not modelled.
- Header handling inside axios: the headers a request records are those after the request interceptor. axios's own default headers, such as `Accept`, are not modelled. Nor is its rewriting during sending, such as dropping `Content-Type` from a GET without a body.
- Route matching: `App.RouteElement` matches the router's default way, case-insensitively for ASCII letters with trailing `/`s optional. Percent-decoding of the location, `basename` and the router's other matching options are not modelled.
- Configuration: environment reading, the dev-server proxy, the clients' `baseURL` and the 10-second timeout are not modelled. A request records only its client, verb, path, headers and body.
- `localStorage` is an always-available map; its quota and security failures are not modelled.
- `jwtDecode` is an uninterpreted partial function from a token to its claims; signature and claim parsing are not modelled.
- Concurrency: async interleaving and out-of-order completion are not modelled. Each handler is one sequential step whose backend replies are given up front, and React's batching of state updates is not modelled.
- `Date` formatting of trip start times, `console.error` logging, and `navigate` beyond recording the target path are not modelled.
- Properties of built-in objects: `Prop` reads only own data properties of plain objects. Built-ins such as a string's `length` read as `undefined`.
- Percent-encoding: `ProfileApi.Serialize` does not percent-encode. Every key and value the adapter appends is letters, digits or `-`, which `URLSearchParams` leaves as they are.
- Path interpolation: `ProfileApi.PathSegments` requires the printed user id to contain no `/`. An id with a `/` yields extra segments, and that case is not characterised.
- `AccountPage.DurationMinutes`: it takes the duration as an optional string. A non-string duration, on which `.match` throws in the source, is not modelled, and neither is `parseInt` losing precision on very long digit runs.
- `JsValue.ToJsString`: numbers print as decimal integers only, and objects print as `[object Object]`.
