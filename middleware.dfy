/** middleware.ts: the page guard. The `/api/auth/me` request it makes for admin pages
    is received as its outcome. */
module Middleware {
  import opened Wrappers
  import opened Strings

  /** The outcome of the identity request: an OK response carrying the user's role, a
      non-OK response, or a failure (the request threw, or the body had no user). */
  datatype MeOutcome = MeOk(role: string) | MeNotOk | MeFailed

  /** Redirect to /login (with `redirect=<pathname>` for a missing token), redirect to
      /dashboard, or let the request through. */
  datatype Decision = ToLogin(redirect: Option<string>) | ToDashboard | Next

  const ProtectedRoutes: seq<string> := ["/dashboard", "/admin"]
  const AdminRoutes: seq<string> := ["/admin"]
  const PublicRoutes: seq<string> := ["/login", "/"]

  /** Some route in the list is a prefix of the path. */
  function SomePrefix(routes: seq<string>, pathname: string): (b: bool)
    ensures b <==> exists i :: 0 <= i < |routes| && StartsWith(pathname, routes[i])
  {
    if routes == [] then false
    else StartsWith(pathname, routes[0]) || SomePrefix(routes[1..], pathname)
  }

  /** The path is one of the routes in the list. */
  function SomeEqual(routes: seq<string>, pathname: string): (b: bool)
    ensures b <==> pathname in routes
  {
    if routes == [] then false
    else pathname == routes[0] || SomeEqual(routes[1..], pathname)
  }

  /** `middleware`: the decision for a page request. */
  function Guard(pathname: string, token: Option<string>, me: MeOutcome): (d: Decision)
    ensures d.ToLogin? && d.redirect.Some? <==>
      (StartsWith(pathname, "/dashboard") || StartsWith(pathname, "/admin")) && !Truthy(token)
    ensures d.ToLogin? && d.redirect.Some? ==> d.redirect.value == pathname
    ensures d == ToLogin(None) <==>
      StartsWith(pathname, "/admin") && Truthy(token) && !me.MeOk?
    ensures d == ToDashboard <==>
      Truthy(token) &&
      ((StartsWith(pathname, "/admin") && me.MeOk? && me.role != "ADMIN") || pathname == "/login")
    ensures d == Next <==>
      ((!StartsWith(pathname, "/dashboard") && !StartsWith(pathname, "/admin")) || Truthy(token)) &&
      !(StartsWith(pathname, "/admin") && Truthy(token) && !(me.MeOk? && me.role == "ADMIN")) &&
      !(pathname == "/login" && Truthy(token))
  {
    var isProtectedRoute := SomePrefix(ProtectedRoutes, pathname);
    var isAdminRoute := SomePrefix(AdminRoutes, pathname);
    // computed as in the source; no branch reads it
    var isPublicRoute := SomeEqual(PublicRoutes, pathname);
    LoginIsNotGuarded();
    if isProtectedRoute && !Truthy(token) then ToLogin(Some(pathname))
    else if isAdminRoute && Truthy(token) && !(me.MeOk? && me.role == "ADMIN") then
      (if me.MeOk? then ToDashboard else ToLogin(None))
    else if pathname == "/login" && Truthy(token) then ToDashboard
    else Next
  }

  lemma LoginIsNotGuarded()
    ensures !StartsWith("/login", "/admin") && !StartsWith("/login", "/dashboard")
  {
    assert "/login"[..6][1] != "/admin"[1];
  }

  /** Every admin page is protected, so the admin branch is only reached with a token. */
  lemma AdminRoutesAreProtected(pathname: string)
    ensures SomePrefix(AdminRoutes, pathname) ==> SomePrefix(ProtectedRoutes, pathname)
  {
  }

  /** The tests are prefix tests: `/adminx` is guarded like `/admin`. */
  lemma PrefixNotSegment(me: MeOutcome)
    ensures Guard("/adminx", None, me) == ToLogin(Some("/adminx"))
    ensures Guard("/adminx", Some("t"), MeOk("USER")) == ToDashboard
  {
    assert StartsWith("/adminx", "/admin");
  }

  /** The public pages: both pass without a token, and "/login" with a token goes to the
      dashboard by its own equality test, not by the public-route list, which no
      decision reads. */
  lemma PublicRoutesPassWithoutToken(me: MeOutcome)
    ensures Guard("/", None, me) == Next
    ensures Guard("/login", None, me) == Next
    ensures Guard("/login", Some("t"), me) == ToDashboard
  {
    LoginIsNotGuarded();
  }
}
