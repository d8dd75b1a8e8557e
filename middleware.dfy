/** The route guard of middleware.ts: from the requested path and the session it decides
    whether the request goes through or is redirected. */
module Middleware {
  import opened Model
  import opened AuthUtils

  datatype Decision = Next | Redirect(location: string)

  const PublicRoutes: seq<string> := ["/login"]
  const AdminRoutes: seq<string> := ["/admin"]
  const AuthApiPrefix := "/api/auth"
  const LoginPage := "/login"
  const DashboardPage := "/dashboard"

  /** `s.startsWith(prefix)`. */
  predicate StartsWith(s: string, prefix: string)
  {
    |prefix| <= |s| && s[..|prefix|] == prefix
  }

  /** A string that starts with `prefix` agrees with it at every position of the prefix. */
  lemma PrefixAt(s: string, prefix: string, k: nat)
    requires StartsWith(s, prefix) && k < |prefix|
    ensures s[k] == prefix[k]
  {
    assert s[..|prefix|][k] == s[k];
  }

  /** `adminRoutes.some((route) => pathname.startsWith(route))`. */
  predicate IsAdminRoute(pathname: string)
  {
    exists i :: 0 <= i < |AdminRoutes| && StartsWith(pathname, AdminRoutes[i])
  }

  /** `req.auth?.user?.role`, when there is one. */
  function RoleOf(auth: Option<Session>): Option<string>
  {
    var u := CurrentUser(auth);
    if u.Some? then Some(u.value.role) else None
  }

  /** Neither redirect target is an authentication endpoint or an /admin page, and the login
      page is not an /admin page. */
  lemma TargetsAreOrdinary()
    ensures !StartsWith(LoginPage, AuthApiPrefix) && !IsAdminRoute(LoginPage)
    ensures !StartsWith(DashboardPage, AuthApiPrefix) && !IsAdminRoute(DashboardPage)
  {
    if IsAdminRoute(LoginPage) {
      PrefixAt(LoginPage, AdminRoutes[0], 1);
    }
    if StartsWith(DashboardPage, AuthApiPrefix) {
      PrefixAt(DashboardPage, AuthApiPrefix, 1);
    }
    if IsAdminRoute(DashboardPage) {
      PrefixAt(DashboardPage, AdminRoutes[0], 1);
    }
  }

  /** The guard. Authentication endpoints always pass; the login page sends a signed-in user
      to the dashboard; every other page needs a session; pages under /admin need the ADMIN
      role, and anyone else is sent to the dashboard. */
  function Route(pathname: string, auth: Option<Session>): (d: Decision)
    ensures d.Redirect? ==> d.location in {LoginPage, DashboardPage}
    ensures d == Next && auth.None? ==> StartsWith(pathname, AuthApiPrefix) || pathname == LoginPage
    ensures d == Next && IsAdminRoute(pathname) && !StartsWith(pathname, AuthApiPrefix) ==> RoleOf(auth) == Some(AdminRole)
    ensures d == Redirect(LoginPage) <==> auth.None? && !StartsWith(pathname, AuthApiPrefix) && pathname !in PublicRoutes
  {
    TargetsAreOrdinary();
    var isLoggedIn := auth.Some?;
    var isPublicRoute := pathname in PublicRoutes;
    var isAuthRoute := StartsWith(pathname, AuthApiPrefix);
    if isAuthRoute then Next
    else if isPublicRoute then
      (if isLoggedIn then Redirect(DashboardPage) else Next)
    else if !isLoggedIn then Redirect(LoginPage)
    else if IsAdminRoute(pathname) && RoleOf(auth) != Some(AdminRole) then Redirect(DashboardPage)
    else Next
  }

  /** Any path under /api/auth passes, signed in or not. */
  lemma AuthApiPasses(pathname: string, auth: Option<Session>)
    requires StartsWith(pathname, AuthApiPrefix)
    ensures Route(pathname, auth) == Next
  {
  }

  /** The login page sends a signed-in user to the dashboard and lets anyone else through. */
  lemma LoginPageRule(auth: Option<Session>)
    ensures Route(LoginPage, auth) == if auth.Some? then Redirect(DashboardPage) else Next
  {
    TargetsAreOrdinary();
  }

  /** A signed-in user who is not an administrator is turned away from /admin pages. */
  lemma AdminPagesNeedAdmin(pathname: string, auth: Option<Session>)
    requires auth.Some? && IsAdminRoute(pathname) && RoleOf(auth) != Some(AdminRole)
    ensures Route(pathname, auth) == Redirect(DashboardPage)
  {
    PrefixAt(pathname, AdminRoutes[0], 2);
    if StartsWith(pathname, AuthApiPrefix) {
      PrefixAt(pathname, AuthApiPrefix, 2);
    }
    TargetsAreOrdinary();
  }

  /** A signed-in user goes through on every page that is neither the login page nor,
      without the ADMIN role, an /admin page. */
  lemma SignedInPasses(pathname: string, auth: Option<Session>)
    requires auth.Some? && pathname != LoginPage
    requires !IsAdminRoute(pathname) || RoleOf(auth) == Some(AdminRole)
    ensures Route(pathname, auth) == Next
  {
  }

  /** Following a redirect, with the same session, never redirects again. */
  lemma NoRedirectLoop(pathname: string, auth: Option<Session>)
    requires Route(pathname, auth).Redirect?
    ensures Route(Route(pathname, auth).location, auth) == Next
  {
    TargetsAreOrdinary();
  }
}
