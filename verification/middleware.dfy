/** The route gate that runs in front of every application page: requests
    without a session cookie are sent to the login page unless their path
    is public, and a matcher pattern decides which paths the gate runs on. */
module Middleware {
  import opened Wrappers
  import opened Text
  import Auth

  /** Name of the cookie that carries the session. */
  const SessionCookieName: string := "next-auth.session-token-dashboard"

  /** Where an unauthenticated request is sent. */
  const LoginPath: string := "/login"

  /** Path prefixes reachable without a session. */
  const PublicPaths: seq<string> := ["/login", "/api/auth"]

  /** What the gate sees of a request: its cookies and its path name. */
  datatype Request = Request(cookies: map<string, string>, pathname: string)

  /** What the gate answers: let the request through, or redirect it. */
  datatype Response = Next | Redirect(location: string)

  /** The session cookie's value, absent when the request carries none. */
  function SessionToken(req: Request): Option<string>
  {
    if SessionCookieName in req.cookies then Some(req.cookies[SessionCookieName]) else None
  }

  /** JavaScript truthiness of the token: absent and empty both count as
      no token. */
  predicate HasToken(token: Option<string>)
  {
    token.Some? && token.value != ""
  }

  /** `prefixes.some((p) => path.startsWith(p))`, scanning left to right. */
  function SomePrefix(prefixes: seq<string>, path: string): (r: bool)
    ensures r <==> exists i :: 0 <= i < |prefixes| && StartsWith(path, prefixes[i])
  {
    if prefixes == [] then false
    else if StartsWith(path, prefixes[0]) then true
    else
      var rest := SomePrefix(prefixes[1..], path);
      assert forall i :: 1 <= i < |prefixes| ==> prefixes[i] == prefixes[1..][i - 1];
      rest
  }

  /** The path is public: it starts with one of the public prefixes. */
  predicate IsPublic(path: string)
  {
    SomePrefix(PublicPaths, path)
  }

  /** The gate's decision: redirect to the login page when there is no
      token and the path is not public, otherwise let the request through. */
  function Gate(req: Request): (r: Response)
    ensures r.Redirect? ==> r.location == LoginPath
  {
    if !HasToken(SessionToken(req)) && !IsPublic(req.pathname) then
      Redirect(LoginPath)
    else
      Next
  }

  /** A character JavaScript's `.` matches: anything but a line terminator. */
  predicate RegexDot(c: char)
  {
    c != '\n' && c != '\r' && c != '\U{2028}' && c != '\U{2029}'
  }

  /** The negative lookahead `(?!_next/static|_next/image|favicon.ico)` fails
      at the start of `rest`. The `.` of `favicon.ico` is a regular
      expression wildcard, not a literal dot. */
  predicate ExcludedAsset(rest: string)
  {
    StartsWith(rest, "_next/static")
    || StartsWith(rest, "_next/image")
    || (|rest| >= 11 && rest[..7] == "favicon" && RegexDot(rest[7]) && rest[8..11] == "ico")
  }

  /** The anchored matcher `/((?!_next/static|_next/image|favicon.ico).*)`:
      a leading slash, then a remainder that is not an excluded asset and
      contains no line terminator. */
  predicate InMatcher(path: string)
  {
    |path| >= 1 && path[0] == '/'
    && !ExcludedAsset(path[1..])
    && forall k :: 1 <= k < |path| ==> RegexDot(path[k])
  }

  /** The outcome for a request: paths outside the matcher never reach the
      gate and go through unchanged; all others are decided by the gate.
      A request passes exactly when it is outside the matcher, carries a
      non-empty session token, or has a public prefix; every other request
      is sent to the login page. */
  function Route(req: Request): (r: Response)
    ensures r.Redirect? ==> r == Redirect(LoginPath)
    ensures r == Next <==>
      (!InMatcher(req.pathname) || HasToken(SessionToken(req))
       || StartsWith(req.pathname, "/login") || StartsWith(req.pathname, "/api/auth"))
  {
    if InMatcher(req.pathname) then
      if StartsWith(req.pathname, "/login") || StartsWith(req.pathname, "/api/auth") then
        PublicPrefixPasses(req);
        Gate(req)
      else if !HasToken(SessionToken(req)) then
        PrivatePathRedirects(req);
        Gate(req)
      else
        Gate(req)
    else
      Next
  }

  /** With a non-empty session cookie, every request passes, whatever the path. */
  lemma TokenAlwaysPasses(req: Request)
    requires SessionCookieName in req.cookies && req.cookies[SessionCookieName] != ""
    ensures Gate(req) == Next && Route(req) == Next
  {
  }

  /** Without a token, a path starting with `/login` or `/api/auth` passes. */
  lemma PublicPrefixPasses(req: Request)
    requires StartsWith(req.pathname, "/login") || StartsWith(req.pathname, "/api/auth")
    ensures Gate(req) == Next
  {
    if StartsWith(req.pathname, "/login") {
      assert StartsWith(req.pathname, PublicPaths[0]);
    } else {
      assert StartsWith(req.pathname, PublicPaths[1]);
    }
  }

  /** Without a token, a path that starts with neither public prefix is
      redirected, and always to `/login`. */
  lemma PrivatePathRedirects(req: Request)
    requires !HasToken(SessionToken(req))
    requires !StartsWith(req.pathname, "/login") && !StartsWith(req.pathname, "/api/auth")
    ensures Gate(req) == Redirect("/login")
  {
    assert !IsPublic(req.pathname) by {
      forall i | 0 <= i < |PublicPaths| ensures !StartsWith(req.pathname, PublicPaths[i]) {
      }
    }
  }

  /** No redirect loop: the redirect target is public, so following any
      redirect of the gate, with the same cookies, passes the gate. */
  lemma {:induction false} RedirectTargetPasses(req: Request)
    requires Gate(req).Redirect?
    ensures Gate(Request(req.cookies, Gate(req).location)) == Next
  {
    StartsWithSelf(LoginPath);
    PublicPrefixPasses(Request(req.cookies, LoginPath));
  }

  /** Public prefixes are compared as raw strings, not path segments:
      `/loginx` and `/api/authz` pass without any cookie. */
  lemma RawPrefixNotSegment()
    ensures Gate(Request(map[], "/loginx")) == Next
    ensures Gate(Request(map[], "/api/authz")) == Next
  {
    PublicPrefixPasses(Request(map[], "/loginx"));
    PublicPrefixPasses(Request(map[], "/api/authz"));
  }

  /** An empty session cookie is treated exactly like a missing one. */
  lemma EmptyCookieIsNoToken(req: Request)
    requires SessionCookieName in req.cookies && req.cookies[SessionCookieName] == ""
    ensures Gate(req) == Gate(Request(req.cookies - {SessionCookieName}, req.pathname))
  {
  }

  /** Static build output, optimised images and the favicon are outside the
      matcher, so the gate never runs on them and they pass without a session. */
  lemma AssetsBypassGate(req: Request, rest: string)
    requires req.pathname == "/" + rest
    requires StartsWith(rest, "_next/static") || StartsWith(rest, "_next/image") || StartsWith(rest, "favicon.ico")
    ensures !InMatcher(req.pathname) && Route(req) == Next
  {
    assert req.pathname[1..] == rest;
  }

  /** Because the `.` in `favicon.ico` is a wildcard, `/favicon-ico` and any
      path continuing it are outside the matcher as well. */
  lemma FaviconDotIsWildcard(suffix: string)
    ensures !InMatcher("/favicon-ico" + suffix)
  {
    var path := "/favicon-ico" + suffix;
    assert path[1..] == "favicon-ico" + suffix;
    assert path[1..][..7] == "favicon";
    assert path[1..][8..11] == "ico";
  }

  /** Application pages are inside the matcher: without a session the gate
      redirects `/` and `/category` to the login page. */
  lemma PagesAreGated()
    ensures Route(Request(map[], "/")) == Redirect(LoginPath)
    ensures Route(Request(map[], "/category")) == Redirect(LoginPath)
  {
    PrivatePathRedirects(Request(map[], "/"));
    assert "/category"[..6] != "/login" && "/category"[..9] != "/api/auth" by {
      assert "/category"[1] == 'c';
    }
    PrivatePathRedirects(Request(map[], "/category"));
    assert !ExcludedAsset("/category"[1..]);
  }

  /** The cookie the gate reads is the session cookie the authentication
      options configure. */
  lemma CookieNameMatchesAuth()
    ensures SessionCookieName == Auth.SessionCookieName
  {
  }
}
