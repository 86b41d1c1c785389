/** The client's Next.js `middleware`: a redirect decision taken on whether the
    `token` cookie is set and on the requested pathname, applied only to the
    paths of `config.matcher`. */
module RouteGuard {
  import opened JsValues
  import Text

  datatype Decision = Redirect(to: string) | PassThrough

  /** `request.cookies.get('token')?.value` is truthy. */
  predicate HasToken(cookie: Option<string>)
  {
    cookie.Some? && cookie.value != ""
  }

  predicate IsAuthPage(path: string)
  {
    path == "/login" || path == "/register"
  }

  /** `middleware(request)`: a signed-out visitor of a `/dashboard...` path goes to
      `/login`; a signed-in visitor of `/login` or `/register` goes to `/dashboard`;
      everything else passes. `startsWith` also catches `/dashboard-old`. */
  function Middleware(cookie: Option<string>, path: string): (d: Decision)
    ensures d == Redirect("/login") <==> !HasToken(cookie) && Text.StartsWith(path, "/dashboard")
    ensures d == Redirect("/dashboard") <==> HasToken(cookie) && IsAuthPage(path)
    ensures d == PassThrough <==>
      !(!HasToken(cookie) && Text.StartsWith(path, "/dashboard")) && !(HasToken(cookie) && IsAuthPage(path))
  {
    if !HasToken(cookie) && Text.StartsWith(path, "/dashboard") then Redirect("/login")
    else if HasToken(cookie) && IsAuthPage(path) then Redirect("/dashboard")
    else PassThrough
  }

  /** `config.matcher: ['/dashboard/:path*', '/login', '/register']`: `/dashboard`
      itself, anything below it, and the two auth pages. */
  predicate Matches(path: string)
  {
    path == "/dashboard" || Text.StartsWith(path, "/dashboard/") || IsAuthPage(path)
  }

  /** What a request meets: the middleware on matched paths, nothing elsewhere. */
  function Route(cookie: Option<string>, path: string): (d: Decision)
    ensures !Matches(path) ==> d == PassThrough
    ensures Matches(path) ==> d == Middleware(cookie, path)
  {
    if Matches(path) then Middleware(cookie, path) else PassThrough
  }

  /** The two redirect rules need opposite cookie states, so at most one applies. */
  lemma RulesExclusive(cookie: Option<string>, path: string)
    ensures !(!HasToken(cookie) && Text.StartsWith(path, "/dashboard") && HasToken(cookie) && IsAuthPage(path))
  {
  }

  /** A redirect target is itself matched and passes under the same cookie, so no
      request is redirected twice. */
  lemma RedirectStable(cookie: Option<string>, path: string)
    requires Route(cookie, path).Redirect?
    ensures Matches(Route(cookie, path).to)
    ensures Route(cookie, Route(cookie, path).to) == PassThrough
  {
    assert !Text.StartsWith("/login", "/dashboard");
    assert Text.StartsWith("/dashboard", "/dashboard");
  }

  /** Every matched path ends, after at most one redirect, at a page the cookie
      state allows: the dashboard only with a token, the auth pages only without. */
  lemma RouteSettles(cookie: Option<string>, path: string)
    requires Matches(path)
    ensures var end := if Route(cookie, path).Redirect? then Route(cookie, path).to else path;
      (Text.StartsWith(end, "/dashboard") ==> HasToken(cookie)) && (IsAuthPage(end) ==> !HasToken(cookie))
  {
    if Route(cookie, path).Redirect? {
      RedirectStable(cookie, path);
    }
    assert !Text.StartsWith("/login", "/dashboard");
  }

  /** The matcher is narrower than the `startsWith` test: `/dashboard-old` would be
      redirected by the middleware, but the middleware never runs on it. */
  lemma UnmatchedDashboardPrefix()
    ensures Middleware(None, "/dashboard-old") == Redirect("/login")
    ensures Route(None, "/dashboard-old") == PassThrough
  {
    assert Text.StartsWith("/dashboard-old", "/dashboard");
    assert "/dashboard-old"[..11][10] == '-';
  }
}
