# Session logic of the Polytech AI-agent web front-end

This project models, in Dafny, the client-side session logic of a small
Next.js front-end. The front-end has login, registration and a chat landing
page, and sits in front of a REST authentication API. The model covers:

- the edge **route guard** (`middleware`): a pure decision from the request path
  and the `accessToken` cookie to "continue" or "redirect to `/` or `/login`";
- the **auth client** (`authService`): how a failed `login`, `register` or
  `createChat` reply becomes an error message, and the bearer `Authorization`
  header of `createChat`;
- the **auth context provider** (`Providers`): its initial state, the mount
  effect that restores a session from `localStorage`, and its `login` and
  `logout` callbacks;
- the **chat page's logout** (`handleLogout`), which clears storage and the
  cookie and navigates to `/login`;
- the **landing page** (`Home`), which sends the visitor to `/chat` or `/login`
  from the stored access token.

All of it is stated over an immutable `World`: a storage map, the cookie
value, the context state and the current route. `Session` strings the steps
together into arbitrary event sequences. It proves that the context invariant
(`isAuthenticated` exactly when both tokens are held) holds along every run of
the modelled events. It also proves that the guard passes the current route at
every point of such a run. That second fact rests on the modelled events never
setting the cookie: the only cookie write among them is the chat page's
deletion, which ends on `/login`.

JavaScript truthiness is explicit (`Js.Truthy`): a string-or-nullish value is
truthy exactly when it is a non-empty string. `a || b || ... || "fallback"` is
`Js.FirstTruthy`. `xs && xs[0]` is `Js.Head`: an empty array gives `undefined`.

The model also exposes a disagreement between the guard and the landing page.
The guard reads only the cookie; the landing page reads only storage. With a
cookie but no stored access token, the landing page picks `/login` and the guard
sends that request back to `/` (`Session.HomeBounce`). Whether the landing
page's effect then runs again is up to the framework; if it does, it makes the
same choice. The context's own `logout` clears storage but not the
cookie, so it leads into exactly that state (`Session.ContextLogoutKeepsCookie`).
The chat page's logout clears both, but leaves the in-memory context as it was
(`Session.ChatLogoutKeepsContext`).

Modules: `Wrappers` (Option/Result), `Js`, `Middleware`, `AuthService`,
`Storage` (localStorage and the token keys), `Browser` (world and context
state), `Providers`, `ChatPage`, `HomePage`, `Session`.

## Model

| member | source | states |
|---|---|---|
| Js.FirstTruthy | frontend/src/lib/api/services/authService.ts:31-35 | an `\|\|` chain yields the first truthy operand when every earlier one is falsy; it yields the last operand when all are falsy; it is never empty when the last operand is non-empty |
| Js.Head | frontend/src/lib/api/services/authService.ts:33 | `xs && xs[0]` is truthy exactly when the array is present and non-empty and its first element is non-empty; then it is that element |
| Middleware.Guard | frontend/src/middleware.ts:3-18 | redirect to `/` exactly for a truthy cookie on `/login` or `/register`; redirect to `/login` exactly for a falsy cookie on a path other than `/`, `/login`, `/register`; so the two redirects exclude each other, and every redirect goes to one of those two targets |
| Middleware.RootAlwaysPasses | frontend/src/middleware.ts:8-17 | `/` passes whatever the cookie holds |
| Middleware.TokenPassesOutsideAuthPages | frontend/src/middleware.ts:8-17 | with a truthy cookie a path passes if and only if it is not `/login` or `/register` |
| Middleware.AnonymousPassesOnlyPublic | frontend/src/middleware.ts:13-17 | with a missing or empty cookie a path passes if and only if it is `/`, `/login` or `/register` |
| Middleware.EmptyCookieIsAbsent | frontend/src/middleware.ts:5-13 | an empty cookie value gives the same decision as no cookie on every path |
| Middleware.GuardDependsOnTruthiness | frontend/src/middleware.ts:5-13 | two cookies of equal truthiness give the same decision on every path |
| Middleware.NoRedirectLoop | frontend/src/middleware.ts:8-15 | the target of any redirect passes the guard with the same cookie |
| Middleware.Arrive | frontend/src/middleware.ts:8-17 | following the guard from a requested path ends on a path the guard passes; that is the requested path if it passed, else `/` for a truthy cookie or `/login` for a falsy one |
| AuthService.LoginErrorMessage | frontend/src/lib/api/services/authService.ts:29-35 | a failed login reports a truthy `detail`; failing that, a truthy first element of `non_field_errors`; failing that, `Ошибка входа`; the message is never empty |
| AuthService.EmptyNonFieldErrorsFallsBack | frontend/src/lib/api/services/authService.ts:32-34 | with a falsy `detail`, an empty `non_field_errors` list falls back to `Ошибка входа`, the same as a missing list |
| AuthService.RegisterErrorMessage | frontend/src/lib/api/services/authService.ts:48-55 | a failed registration reports the first truthy of `username[0]`, `email[0]`, `password[0]`; a later field counts only when every earlier one is falsy; if none is truthy it reports `Ошибка регистрации`; the message is never empty |
| AuthService.Login | frontend/src/lib/api/services/authService.ts:22-39 | login succeeds exactly on an ok reply and hands the tokens through; a failure rejects with the selected, non-empty message |
| AuthService.Register | frontend/src/lib/api/services/authService.ts:41-57 | registration succeeds exactly on an ok reply; a failure rejects with the selected, non-empty message |
| AuthService.CreateChat | frontend/src/lib/api/services/authService.ts:59-74 | chat creation succeeds exactly on an ok reply and hands the chat through; every failure rejects with `Ошибка создания чата` |
| AuthService.CreateChatIgnoresErrorBody | frontend/src/lib/api/services/authService.ts:69-71 | two failed chat creations report the same error whatever their bodies |
| AuthService.CreateChatRequest | frontend/src/lib/api/services/authService.ts:59-67 | the request goes to the chats endpoint with the title as its body; it has exactly an `Authorization` and a JSON `Content-Type` header, and the `Authorization` header parses back to the access token |
| AuthService.BearerHeader | frontend/src/lib/api/services/authService.ts:63 | the `Authorization` value is the `Bearer ` scheme prefix followed by the access token verbatim |
| AuthService.BearerToken | frontend/src/lib/api/services/authService.ts:63 | a header that parses as a bearer credential is `Bearer ` followed by the parsed token |
| AuthService.BearerRoundTrip | frontend/src/lib/api/services/authService.ts:63 | parsing `Bearer ` + token gives back the token |
| AuthService.BearerHeaderInjective | frontend/src/lib/api/services/authService.ts:63 | distinct access tokens give distinct `Authorization` headers |
| Storage.GetItem | frontend/src/app/providers.tsx:23-24 | a read gives a value exactly for a stored key, and then the stored value |
| Storage.SetItem | frontend/src/app/providers.tsx:34-35 | after a write the key reads as the written value and every other key reads as before |
| Storage.RemoveItem | frontend/src/app/providers.tsx:42-43 | after a removal the key reads as missing and every other key reads as before |
| Storage.StoreTokens | frontend/src/app/providers.tsx:34-35 | both token keys read as the written tokens and every other key reads as before |
| Storage.ClearTokens | frontend/src/app/chat/page.tsx:11-12 | both token keys read as missing, every other key reads as before, and the key set loses exactly the two token keys |
| Storage.ClearAfterStore | frontend/src/app/providers.tsx:33-47 | clearing the tokens after writing them gives the store with the two token keys removed, the same as clearing without the write |
| Providers.SignedOutIsConsistent | frontend/src/app/providers.tsx:17-19 | the initial state (false, null, null) satisfies the context invariant and claims no session |
| Providers.Bootstrap | frontend/src/app/providers.tsx:22-31 | the mount effect sets (true, stored access, stored refresh) when both stored tokens are truthy, and otherwise leaves the state as it found it; it preserves the context invariant |
| Providers.Mount | frontend/src/app/providers.tsx:16-31 | after a page load the context is signed in if and only if both stored tokens are truthy; then it holds exactly those tokens, otherwise it is (false, null, null); storage, cookie and route are unchanged |
| Providers.Login | frontend/src/app/providers.tsx:33-39 | `login(a, r)` stores `accessToken = a` and `refreshToken = r`, leaves every other key unchanged, and sets the state to (true, a, r); it leaves cookie and route alone |
| Providers.Logout | frontend/src/app/providers.tsx:41-47 | `logout` removes exactly the two token keys and resets the state to (false, null, null); it leaves cookie and route alone |
| Providers.LoginThenLogout | frontend/src/app/providers.tsx:33-47 | `login` then `logout` leaves storage equal to the original minus the two token keys; the resulting world equals that of `logout` alone |
| Providers.MountRestoresStoredSession | frontend/src/app/providers.tsx:22-47 | a page load after `login` with non-empty tokens restores exactly that session; a page load after `logout` is signed out |
| ChatPage.HandleLogout | frontend/src/app/chat/page.tsx:9-18 | the chat logout removes exactly the two token keys and leaves other keys unchanged; it deletes the cookie and ends on `/login`; the context state is untouched |
| HomePage.Destination | frontend/src/app/page.tsx:9-19 | the landing page goes to `/chat` if and only if the stored access token is truthy, to `/login` otherwise, and never stays on `/` |
| HomePage.DestinationReadsOnlyAccessToken | frontend/src/app/page.tsx:10-12 | stores that agree on the `accessToken` entry lead to the same destination, whatever the refresh token or other entries |
| Session.Start | frontend/src/app/providers.tsx:17-19 | a fresh tab on `/` with a signed-out provider satisfies the session invariant, whatever storage and cookie hold |
| Session.Run | frontend/src/app/chat/page.tsx:13-14 | along any run of the modelled events the cookie either stays as it was or is gone, and storage entries other than the two token keys never change |
| Session.StepKeepsInvariant | frontend/src/app/providers.tsx:17-47 | every modelled event keeps the context invariant and keeps the current route passable by the guard |
| Session.RunKeepsInvariant | frontend/src/app/providers.tsx:17-47 | every sequence of modelled events keeps the context invariant and keeps the current route passable by the guard |
| Session.ChatLogoutSignsOut | frontend/src/app/chat/page.tsx:11-17 | after the chat logout `/login` passes, every protected path such as `/chat` redirects to `/login`, the landing page picks `/login`, and a page load is signed out |
| Session.ChatLogoutKeepsContext | frontend/src/app/chat/page.tsx:9-18 | the chat logout does not change the in-memory context |
| Session.ContextLogoutKeepsCookie | frontend/src/app/providers.tsx:41-47 | the context's `logout` keeps the cookie, so with a truthy cookie the guard still redirects `/login` to `/` |
| Session.SignedInReachesChat | frontend/src/app/page.tsx:12-14 | on `/` with a stored access token and a cookie the landing page ends on `/chat` |
| Session.StaleStorageEndsAtLogin | frontend/src/app/page.tsx:12-14 | on `/` with a stored access token but no cookie the landing page's `/chat` is turned back to `/login` |
| Session.HomeBounce | frontend/src/app/page.tsx:15-18 | on `/` with a cookie but no stored access token the landing page picks `/login` and the guard sends it back to `/`; if the landing page's effect runs again, it makes the same choice |

## Left out

- Transport: `fetch`, the API origin `http://127.0.0.1:8000`, `JSON.stringify` and `response.json()`. A reply is either a success payload or a parsed error body. Only the chat-creation request is modelled, as an endpoint, a header map and a payload; the login and registration requests carry no header that depends on the session.
- AuthService.LoginErrorMessage: the error body's fields are typed (`detail` a string, the others arrays of strings). A non-string JSON value in one of them would be turned into a string by `new Error`, and that is not modelled.
- AuthService.RegisterErrorMessage: the same typing limit as for the login message.
- A JSON `null` error body (`error.detail` would throw a `TypeError`) and a reply body that is not JSON (`response.json()` rejects). Both are outside the typed error body.
- The success payloads of `login` and `createChat`. They are returned unchecked, so the model passes them through.
- React scheduling, context plumbing and rendering. Effects are explicit steps, and `router.replace` sets the route.
- The middleware's `matcher` pattern and the construction of `NextResponse` and `URL`. Requests to `/api`, static assets and the favicon are not distinguished from pages.
- Cookie attributes and expiry timing. Writing an already-expired cookie is modelled as deleting it, and the 7-day lifetime is not modelled.
- The login and registration pages: their form validation, their writes of tokens and of the cookie, and their `err.message || ...` fallbacks. The guard takes the cookie as given, and no event of the model sets it.
- Session.RunKeepsInvariant: the route half of the invariant is proved only for the modelled events. Three things can put the visitor on a route the guard would now turn away: the login and registration pages writing a truthy cookie while on `/login` or `/register`, the cookie expiring after 7 days, and another tab sharing storage and the cookie. None of the three is modelled.
- Session.StepKeepsInvariant: the same limit as for `Session.RunKeepsInvariant`, for a single event.
- Session.Run: "the cookie stays or is gone" holds because no modelled event sets the cookie. It says nothing about the login and registration pages' cookie writes, expiry, or other tabs.
- Session: `ChatLogout` and `OpenHome` may fire on any route, although the program offers them only on `/chat` and `/` respectively. This over-approximates the reachable runs, so the invariants still hold for the real ones. The lemmas about the landing page's outcome require the route to be `/`.
