# Dashboard access and navigation logic, modelled in Dafny

The dashboard is a Next.js admin application over a remote REST backend.
Almost all of it is presentation; this project models the three pieces of
decision logic it owns:

- **The route gate** (`src/middleware.ts`). Every request that the matcher
  pattern selects is let through when it carries a non-empty
  `next-auth.session-token-dashboard` cookie or when its path starts with
  `/login` or `/api/auth`; otherwise it is redirected to `/login`.
  `Middleware.Gate` is the decision, `Middleware.InMatcher` the matcher
  `/((?!_next/static|_next/image|favicon.ico).*)` read as an anchored
  JavaScript regular expression, and `Middleware.Route` the two together.
- **Active navigation** (`src/components/Sidebar/Sidebar.tsx`). The
  navigation table is a constant sequence of `(name, href)` entries. An
  entry is highlighted when the path name equals its `href` or, for entries
  other than the root `/`, starts with it. For this table at most one entry
  is ever highlighted.
- **Credential sign-in** (`src/lib/auth.ts`). `Auth.Authorize` runs the
  ordered checks of `authorize`: credentials present, then a successful
  backend reply, then the `ADMIN` role. Each check has its own error message.
  The backend call is a function parameter `backend(email, password)` that
  returns the reply or the thrown value. The `jwt` and `session` callbacks
  mutate objects in place, so they are methods of the classes `Auth.Token`
  and `Auth.Session`. `Auth.SignIn` composes `authorize`, `jwt` and `session`
  and returns `session.user`.

Two consequences of the code as written are stated as lemmas. Prefix matching
is by raw characters, not by path segment: `/loginx` is public and
`/category-extra` highlights the `/category` entry. The `.` in `favicon.ico`
is a regular-expression wildcard, so `/favicon-ico` is outside the matcher as
well.

## Model

| member | source | states |
|---|---|---|
| `Middleware.SomePrefix` | src/middleware.ts:7-10 | `publicPaths.some(p => path.startsWith(p))` is true exactly when some listed prefix is a raw prefix of the path |
| `Middleware.Gate` | src/middleware.ts:10-14 | the only redirect target the gate ever produces is `/login` |
| `Middleware.Route` | src/middleware.ts:4-19 | a request passes exactly when its path is outside the matcher, it carries a non-empty session token, or its path starts with `/login` or `/api/auth`; every other request is redirected to `/login` |
| `Middleware.TokenAlwaysPasses` | src/middleware.ts:5-14 | a non-empty session cookie lets every request through, whatever the path |
| `Middleware.PublicPrefixPasses` | src/middleware.ts:7-10 | without a token, a path starting with `/login` or `/api/auth` passes |
| `Middleware.PrivatePathRedirects` | src/middleware.ts:10-11 | without a token, a path starting with neither public prefix is redirected to `/login` |
| `Middleware.RedirectTargetPasses` | src/middleware.ts:7-11 | no redirect loop: following any redirect of the gate, with the same cookies, passes the gate |
| `Middleware.RawPrefixNotSegment` | src/middleware.ts:10 | `/loginx` and `/api/authz` pass without a cookie, since matching is by raw prefix |
| `Middleware.EmptyCookieIsNoToken` | src/middleware.ts:5-10 | an empty cookie value gives the same decision as no cookie at all |
| `Middleware.AssetsBypassGate` | src/middleware.ts:18 | paths `/_next/static…`, `/_next/image…` and `/favicon.ico…` are outside the matcher and pass |
| `Middleware.FaviconDotIsWildcard` | src/middleware.ts:18 | `/favicon-ico` and every continuation of it are also outside the matcher |
| `Middleware.PagesAreGated` | src/middleware.ts:10-18 | `/` and `/category` are inside the matcher and are redirected without a session |
| `Middleware.CookieNameMatchesAuth` | src/middleware.ts:5 | the cookie the gate reads is the session cookie configured in src/lib/auth.ts line 16 |
| `Sidebar.Highlights` | src/components/Sidebar/Sidebar.tsx:53-56 | over the table's entries in order, the root flag is set exactly on `/`, and no two flags are ever set together |
| `Sidebar.RootActiveIff` | src/components/Sidebar/Sidebar.tsx:54-56 | the root entry is active exactly when the path name is `/` |
| `Sidebar.NonRootActiveIff` | src/components/Sidebar/Sidebar.tsx:54-56 | a non-root entry is active on its own `href`, and active exactly when the path name starts with its `href` |
| `Sidebar.CategoryMatchesByRawPrefix` | src/components/Sidebar/Sidebar.tsx:56 | both `/category/new` and `/category-extra` activate the `/category` entry |
| `Sidebar.HrefsPrefixFree` | src/components/Sidebar/Sidebar.tsx:10-30 | no non-root `href` of the table is a prefix of another entry's `href` |
| `Sidebar.NamesDistinct` | src/components/Sidebar/Sidebar.tsx:10-30 | entry names, used as the render key, are pairwise distinct |
| `Sidebar.AtMostOneActive` | src/components/Sidebar/Sidebar.tsx:10-56 | two entries active for the same path name are the same entry |
| `Sidebar.NoTwoActive` | src/components/Sidebar/Sidebar.tsx:10-56 | for every path name, no two distinct entries of the table are active together |
| `Auth.RejectionMessage` | src/lib/auth.ts:55 | the message for a failed reply is never empty: the backend's own message or "Invalid email or password" |
| `Auth.Attempt` | src/lib/auth.ts:39-75 | the request block succeeds only for a user whose role is `ADMIN` |
| `Auth.Authorize` | src/lib/auth.ts:34-83 | missing credentials fail with the prompt message; a success has the admin role and comes from an ok, successful reply to a request made with the submitted email and password |
| `Auth.Token.Jwt` | src/lib/auth.ts:88-100 | with a user, the eight user claims become that user's fields; without one the token is unchanged; library-managed claims never change |
| `Auth.Session.FromToken` | src/lib/auth.ts:102-114 | `session.user` becomes exactly the token's eight user claims; the session's expiry is unchanged |
| `Auth.SignIn` | src/lib/auth.ts:34-114 | sign-in succeeds exactly when `authorize` does; `session.user` then reads back as the authorized user; otherwise the error is `authorize`'s |
| `Auth.SessionMaxAgeIsSevenDays` | src/lib/auth.ts:11 | the session lifetime is 604800 seconds |
| `Auth.MissingCredentialsSkipBackend` | src/lib/auth.ts:35-37 | missing or empty email or password fails with "Please enter your email and password", whatever the backend would answer |
| `Auth.BackendRejection` | src/lib/auth.ts:54-56 | a reply that is not ok, null or unsuccessful fails with the backend's non-empty message, else "Invalid email or password" |
| `Auth.NonAdminDenied` | src/lib/auth.ts:60-62 | a successful reply for a non-admin fails with "Access denied! Only admin can login." |
| `Auth.AdminSignInMapping` | src/lib/auth.ts:66-75 | an admin's successful reply maps `_id` to `id` and `fullName` to `name`, copies email, role, image and verified flag, and takes both tokens from `data` |
| `Auth.ThrownValuesRethrown` | src/lib/auth.ts:76-82 | an `Error` thrown in the request block is re-thrown with its message; any other thrown value becomes "Authentication failed. Please try again." |
| `Auth.MissingReplyFieldFails` | src/lib/auth.ts:58-60 | a successful reply without `data` or without `data.user` fails with the runtime's read-of-undefined message |
| `Auth.ProfileRoundTrip` | src/lib/auth.ts:88-114 | the claims written for a user read back as the same user |
| `Auth.AccessTokenReachesSession` | src/lib/auth.ts:66-114 | for an admin's successful reply, the access and refresh tokens on `session.user` are the reply's `data` tokens |

## Left out

- The network call to `/auth/login` and JSON parsing are not modelled. The reply, or the value the call or the parse threw, is the result of the `backend` parameter.
- `console.log` of the access token is not modelled; it is output only.
- The text of a runtime `TypeError` is engine-defined. The model uses V8's "Cannot read properties of undefined (reading '…')". A JSON `null` in `data` is modelled like a missing `data`, although V8 would then say `null`.
- Reply fields are typed. `success` is a boolean, the user's text fields are strings, and `verified` is a boolean. Values of other JSON types, and their truthiness, are not modelled.
- Missing reply fields are not modelled. The code still signs in when `_id`, `fullName`, `profileImage`, `verified`, `data.accessToken` or `data.refreshToken` is absent, and passes `undefined` on through the token and `session.user`. `BackendUser` and `LoginData` make every one of those fields required.
- A `null` `data.user` is modelled like a missing one. It then gets the message for reading from `undefined`, although V8 would name `null`.
- NextAuth's JWT signing, cookie writing and session expiry handling are not modelled. Neither is the default `session.user` it builds before the `session` callback runs, which is `None` in `Auth.Session`.
- `NextResponse.redirect`/`NextResponse.next` and URL construction are not modelled; the gate's answer is the two-valued `Middleware.Response`.
- Next.js compiles the matcher with path-to-regexp. Its case handling, optional trailing slash, base path and locale prefixes are not modelled. The pattern is read as an anchored JavaScript regular expression.
- Sidebar rendering, icons, `Link` and `usePathname` are not modelled. The table is modelled without its icons.
- The presentational dialogs, the image-host list in `next.config.mjs`, and the query caching, debouncing and invalidation of the screens are not modelled. None of them holds decision logic of this repository.
