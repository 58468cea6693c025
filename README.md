# Authentication session of simple-nextjs-auth, modelled in Dafny

The project models the client-side session manager in `contexts/AuthContext.tsx`.
It has three operations:

- **restore**: the provider's mount effect. It reads `auth.token` from the cookies. If the token is truthy, it calls `GET /me` and stores the returned identity, or signs out when the call fails.
- **signIn**: exchanges the credentials at `POST sessions`. On success it writes two cookies, `auth.token` and `auth.refreshToken`. Each is written with a thirty-day `maxAge` and path `/`. It then sets `user` from the typed email and the returned permissions and roles, and pushes `/dashboard`. A failure is only logged.
- **signOut**: destroys both cookies and pushes `/`.

`isAuthenticated` is `!!user`.

Layout:

- `outcomes.dfy`: module `Outcomes`, with `Option` (the source's `undefined`) and `Result` (the outcome of an HTTP call).
- `session.dfy`: module `Session`. It holds the entities as values (`User`, `Credentials`, `Cookie`, the two response bodies) and `State`, which is the cookie map, the optional user and the log of pushed routes. Its functions `SignedOut`, `Restored` and `SignedIn` give the state each operation leaves behind. The lemmas relate the operations to one another.
- `traces.dfy`: module `SessionTraces`. It runs any sequence of operations one after another and proves what holds after every such sequence.
- `auth_context.dfy`: module `AuthContext`. This is the imperative model:
  - a `CookieJar` class and a `Router` class;
  - the standalone `SignOut(jar, router)`, which by its frame cannot reach a provider's `user`;
  - the `AuthProvider` class, with a `user` field and the methods `Restore` and `SignIn`.

  `Restore`, `SignIn` and `SignOut` are each proved to leave exactly the state that the matching `Session` function describes; for `SignOut`, that holds whatever user the provider holds.

Network calls are not made. Their outcomes are parameters: `fetch` for `GET /me` and `exchange` for `POST sessions`. `Restore` also returns whether it would have made the call.

Details of the code that the model keeps as written:

- `signOut` never calls `setUser`. After a sign-out, `user` and `isAuthenticated` keep their values. `SessionTraces.UserNeverCleared` states the consequence: once a user is set, no sequence of operations removes it.
- The restore guard looks only at `auth.token`. A missing refresh token does not prevent a restore.
- The guard is JavaScript truthiness, so an empty-string token counts as no token.
- `permissions` and `roles` are arrays in the code, and the model keeps them as sequences, in order and with repeats. They are not sets.

## Model

| member | source | states |
|---|---|---|
| `Session.SignedOut` | contexts/AuthContext.tsx:29-34 | both token cookies are gone; every other cookie is kept as it was; `user` is unchanged; exactly "/" is appended to the redirects |
| `Session.Restored` | contexts/AuthContext.tsx:40-54 | with no token or an empty token, nothing changes, whatever the fetch outcome; with a token and a good answer, `user` becomes exactly `{email, permissions, roles}` of the answer and cookies and redirects are kept; with a token and a failed call, the state is the one `SignedOut` gives |
| `Session.SignedIn` | contexts/AuthContext.tsx:56-84 | a failed exchange changes nothing; a good one stores both tokens with maxAge 2592000 and path "/", keeps every other cookie, sets `user` to the typed email with the returned permissions and roles, and appends "/dashboard" |
| `Session.SignOutIdempotent` | contexts/AuthContext.tsx:29-34 | signing out twice leaves the same cookies and user as signing out once; the second call only appends another "/" |
| `Session.RestoreAfterSignOutIsInert` | contexts/AuthContext.tsx:41-43 | after a sign-out the restore guard fails, and a restore changes nothing |
| `Session.SignInThenRestore` | contexts/AuthContext.tsx:43-78 | a page reload after a sign-in (same cookies, no user) restores the identity sign-in set, provided `/me` returns the same email, permissions and roles; when the server issued an empty token, the reload stays without a user |
| `SessionTraces.StepUser` | contexts/AuthContext.tsx:46-78 | an operation sets `user` to what it passes to `setUser` when it calls it, and otherwise leaves it alone |
| `SessionTraces.UserNeverCleared` | contexts/AuthContext.tsx:29-34 | once `user` is set, it is still set after any sequence of operations |
| `SessionTraces.AuthenticatedIffUserSet` | contexts/AuthContext.tsx:37-38 | from a provider with no user, `isAuthenticated` holds after a sequence exactly when some operation in it actually called `setUser` |
| `SessionTraces.UserIsLastSet` | contexts/AuthContext.tsx:40-84 | the user after a sequence is the identity passed by the last operation that called `setUser` |
| `SessionTraces.TokenPairStaysWritten` | contexts/AuthContext.tsx:29-72 | if both token cookies are present or both absent, and each present one has maxAge 2592000 and path "/", this still holds after any sequence of operations |
| `SessionTraces.OtherCookiesUntouched` | contexts/AuthContext.tsx:29-72 | no sequence of operations writes or destroys a cookie under any key other than the two token keys |
| `SessionTraces.RedirectsOnlyToKnownRoutes` | contexts/AuthContext.tsx:29-84 | the redirect log only grows, by at most one route per operation, and every pushed route is "/" or "/dashboard" |
| `Session.CookieValue` | contexts/AuthContext.tsx:41 | the value `parseCookies()` reports under a key is present exactly when the key is stored, and is then the stored value |
| `Session.Truthy` | contexts/AuthContext.tsx:43 | a string-or-undefined value is truthy exactly when it is neither `undefined` nor the empty string |
| `Session.HasToken` | contexts/AuthContext.tsx:41-43 | the restore guard holds exactly when `auth.token` is stored with a non-empty value |
| `Session.IsAuthenticated` | contexts/AuthContext.tsx:38 | `!!user` holds exactly when `user` is present |
| `Session.UserFromMe` | contexts/AuthContext.tsx:47-48 | the identity built from `GET /me` carries exactly the email, permissions and roles of the answer |
| `AuthContext.CookieJar.Get` | contexts/AuthContext.tsx:41 | `parseCookies` gives the stored value of the key when the key is present, and nothing otherwise |
| `AuthContext.CookieJar.Set` | contexts/AuthContext.tsx:65-72 | `setCookie` writes or overwrites one key with its value, maxAge and path |
| `AuthContext.CookieJar.Destroy` | contexts/AuthContext.tsx:30-31 | `destroyCookie` removes one key; removing an absent key is a no-op |
| `AuthContext.Router.Push` | contexts/AuthContext.tsx:33 | `Router.push` appends the route to the log |
| `AuthContext.SignOut` | contexts/AuthContext.tsx:29-34 | removes exactly the two token cookies and appends "/"; for any user a provider holds, the resulting state is the one `Session.SignedOut` gives; its frame excludes every provider's `user` |
| `AuthContext.AuthProvider.constructor` | contexts/AuthContext.tsx:37 | a new provider has no user |
| `AuthContext.AuthProvider.IsAuthenticated` | contexts/AuthContext.tsx:38 | true exactly when `user` is present |
| `AuthContext.AuthProvider.Restore` | contexts/AuthContext.tsx:40-54 | makes the `/me` call exactly when `auth.token` is a non-empty string; leaves cookies, user and router exactly as `Session.Restored` says; on failure it calls `SignOut` itself |
| `AuthContext.AuthProvider.SignIn` | contexts/AuthContext.tsx:56-84 | leaves cookies, user and router exactly as `Session.SignedIn` says |

## Left out

- The HTTP client `api` is not modelled. How requests are built, and how the access token is attached to them, are not part of this model. Each call's outcome is a parameter.
- The network failure reason is not modelled. `Result.Err` carries nothing, because the code never inspects the error.
- The `console.log` of a failed sign-in is not modelled. It has no effect on the state.
- Only the route string of `Router.push` is recorded. The navigation itself is a side effect.
- Cookies follow nookies only as a map from key to value, maxAge and path. Expiry over wall-clock time, path-scoped lookup and storage failures are not modelled. `destroyCookie` is passed no path, and the model still lets it remove the cookie written with path `/`.
- The React machinery is not modelled: `createContext`, the context value, the JSX provider (lines 86-90), re-renders, and the run-once scheduling of the effect. `Restore` is a method a caller may invoke at any time.
- The model treats each operation as atomic. So it leaves out a restore that interleaves with a user's sign-in or sign-out (the last write wins). It also leaves out an exception thrown between the two `setCookie` calls, which could leave half a token pair.
- The page `pages/dashboard.tsx` is not part of this model. It only renders and logs its own `/me` call.
- The refresh token is only stored. It is not used for anything else.
