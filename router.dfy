/**
 * The route table and the global navigation guard: every navigation sets
 * the page title, then is let through, sent elsewhere, or (for a logged-in
 * user without a role on the login page) ends the session.
 */
module Router {
  import opened Js
  import opened Browser
  import Roles
  import ListOps
  import UserService
  import Auth

  /** The access rules and title a route declares; absent keys are false
      or None. */
  datatype Meta = Meta(
    requiresAuth: bool,
    requiresGuest: bool,
    allowedRoles: Option<seq<string>>,
    title: Option<string>)

  datatype Route = Route(name: string, path: string, meta: Meta)

  const LoginRoute: Route := Route("Login", "/login", Meta(false, true, None, Some("Logga in")))
  const StatusRoute: Route := Route("Status", "/status", Meta(true, false, None, Some("Status")))
  const UnauthorizedRoute: Route := Route("Unauthorized", "/unauthorized", Meta(false, false, None, Some("Åtkomst nekad")))
  const AdminDashboard: Route :=
    Route("AdminDashboard", "/dashboard/admin", Meta(true, false, Some(["admin"]), Some("Admin Dashboard")))
  const DesignerDashboard: Route :=
    Route("DesignerDashboard", "/dashboard/designer", Meta(true, false, Some(["designer", "admin"]), Some("Designer Dashboard")))
  const DeveloperDashboard: Route :=
    Route("DeveloperDashboard", "/dashboard/developer", Meta(true, false, Some(["developer", "admin"]), Some("Utvecklare Dashboard")))
  const TesterDashboard: Route :=
    Route("TesterDashboard", "/dashboard/tester", Meta(true, false, Some(["tester", "admin"]), Some("Testare Dashboard")))
  /** The catch-all route, matched by every path the table does not name. */
  const NotFound: Route := Route("NotFound", "/:pathMatch(.*)*", Meta(false, false, None, Some("Sidan hittades inte")))

  /** The routes matched by exact path, in table order. */
  const Routes: seq<Route> :=
    [LoginRoute, StatusRoute, UnauthorizedRoute, AdminDashboard, DesignerDashboard, DeveloperDashboard, TesterDashboard]

  /** The route a path resolves to and the path the guard sees: `/`
      redirects to `/login` before the guard runs. */
  function Resolve(path: string): (r: (Route, string))
    ensures path == "/" ==> r == (LoginRoute, "/login")
    ensures path != "/" ==> r.1 == path
    ensures path != "/" && r.0 != NotFound ==> r.0 in Routes && r.0.path == path
    ensures path != "/" && (forall k | 0 <= k < |Routes| :: Routes[k].path != path) ==> r.0 == NotFound
    ensures path != "/" ==> forall k | 0 <= k < |Routes| && Routes[k].path == path :: r.0 == Routes[k]
  {
    RoutePathsDistinct();
    if path == "/" then (LoginRoute, "/login")
    else
      var i := ListOps.FindIndex(Routes, (q: Route) => q.path == path);
      if i < 0 then (NotFound, path) else (Routes[i], path)
  }

  /** No two routes of the table share a path. */
  lemma RoutePathsDistinct()
    ensures forall i, j | 0 <= i < j < |Routes| :: Routes[i].path != Routes[j].path
  {
  }

  /** The dashboard of a role, by its path. */
  lemma ResolveDashboard(role: string)
    ensures role == "admin" ==> Resolve("/dashboard/" + role).0 == AdminDashboard
    ensures role == "designer" ==> Resolve("/dashboard/" + role).0 == DesignerDashboard
    ensures role == "developer" ==> Resolve("/dashboard/" + role).0 == DeveloperDashboard
    ensures role == "tester" ==> Resolve("/dashboard/" + role).0 == TesterDashboard
    ensures role !in Roles.All ==> Resolve("/dashboard/" + role).0 == NotFound
  {
    var p := "/dashboard/" + role;
    assert p[..11] == "/dashboard/";
    assert p != "/" && p != LoginRoute.path && p != StatusRoute.path && p != UnauthorizedRoute.path by {
      assert p[1] == 'd';
    }
    if role !in Roles.All {
      assert p != AdminDashboard.path && p != DesignerDashboard.path by {
        assert AdminDashboard.path == "/dashboard/" + "admin";
        assert DesignerDashboard.path == "/dashboard/" + "designer";
      }
      assert p != DeveloperDashboard.path && p != TesterDashboard.path by {
        assert DeveloperDashboard.path == "/dashboard/" + "developer";
        assert TesterDashboard.path == "/dashboard/" + "tester";
      }
      assert forall k | 0 <= k < |Routes| :: Routes[k].path != p;
    } else if role == "admin" {
      assert Routes[3].path == p;
    } else if role == "designer" {
      assert Routes[4].path == p;
    } else if role == "developer" {
      assert Routes[5].path == p;
    } else {
      assert Routes[6].path == p;
    }
  }

  // ---------------------------------------------------------------------
  // The page title

  const SiteName: string := "Guide för webbtillgänglighet"

  /**
   * `document.title`: the route's title and the site name, except that on
   * any path containing `dashboard` an authenticated user sees their own
   * role's name in place of the route's title.
   */
  function PageTitle(meta: Meta, path: string, isAuthenticated: bool, role: Option<string>): (t: string)
    ensures !Truthy(meta.title) ==> t == SiteName
    ensures Truthy(meta.title) && !(isAuthenticated && Contains(path, "dashboard")) ==>
      t == meta.title.value + " - " + SiteName
    ensures Truthy(meta.title) && isAuthenticated && Contains(path, "dashboard") ==>
      var display := Auth.RoleDisplayName(role);
      (Truthy(display) ==> t == display.value + " Dashboard - " + SiteName) &&
      (!Truthy(display) ==> t == meta.title.value + " - " + SiteName)
  {
    if Truthy(meta.title) then
      var display := Auth.RoleDisplayName(role);
      var head :=
        if isAuthenticated && Contains(path, "dashboard") && Truthy(display) then display.value + " Dashboard"
        else meta.title.value;
      head + " - " + SiteName
    else SiteName
  }

  /** An authenticated tester who mistypes a dashboard address sees a
      dashboard title on the not-found page. */
  lemma NotFoundDashboardTitle()
    ensures var r := Resolve("/dashboard/nope");
      r.0 == NotFound &&
      PageTitle(r.0.meta, r.1, true, Some("tester")) == "Testare Dashboard - " + SiteName
  {
    ResolveDashboard("nope");
    assert "/dashboard/nope" == "/dashboard/" + "nope";
    var p := "/dashboard/nope";
    assert p[1..10] == "dashboard" by {
      assert forall k | 0 <= k < 9 :: p[1..10][k] == "dashboard"[k];
    }
    assert OccursAt(p, "dashboard", 1);
  }

  // ---------------------------------------------------------------------
  // The access decision

  /** What the guard does: `next()` (no redirect) or `next(path)`, and
      whether it first logged the session out. */
  datatype Decision = Decision(redirect: Option<string>, logout: bool)

  /** `user?.role` */
  function RoleOf(user: Option<UserService.SessionUser>): Option<string> {
    if user.Some? then user.value.role else None
  }

  /** The rules of a route that a session meets: signed in where the route
      needs it, signed out where it needs a guest, and, when a user is
      loaded, holding one of the allowed roles. */
  predicate MayEnter(meta: Meta, isAuthenticated: bool, user: Option<UserService.SessionUser>) {
    (meta.requiresAuth ==> isAuthenticated) &&
    (meta.requiresGuest ==> !isAuthenticated) &&
    (meta.allowedRoles.Some? && user.Some? ==>
       user.value.role.Some? && user.value.role.value in meta.allowedRoles.value)
  }

  /** The guard's checks, in the order they are made. */
  function Guard(meta: Meta, isAuthenticated: bool, user: Option<UserService.SessionUser>): (d: Decision)
    ensures d.redirect.None? <==> MayEnter(meta, isAuthenticated, user)
    ensures d.logout ==> d.redirect == Some("/login")
    ensures meta.requiresAuth && !isAuthenticated ==> d == Decision(Some("/login"), false)
    ensures d.redirect.Some? && d.redirect.value != "/login" && d.redirect.value != "/unauthorized" ==>
      meta.requiresGuest && isAuthenticated && Truthy(RoleOf(user)) &&
      d.redirect.value == "/dashboard/" + RoleOf(user).value && !d.logout
    ensures d.logout <==>
      !(meta.requiresAuth && !isAuthenticated) && meta.requiresGuest && isAuthenticated && !Truthy(RoleOf(user))
  {
    if meta.requiresAuth && !isAuthenticated then Decision(Some("/login"), false)
    else if meta.requiresGuest && isAuthenticated then
      if Truthy(RoleOf(user)) then Decision(Some("/dashboard/" + RoleOf(user).value), false)
      else Decision(Some("/login"), true)
    else if meta.allowedRoles.Some? && user.Some? &&
            !(user.value.role.Some? && user.value.role.value in meta.allowedRoles.value) then
      Decision(Some("/unauthorized"), false)
    else Decision(None, false)
  }

  /** A role's own dashboard is open to that role and to the
      administrator, and to no one else. */
  lemma DashboardAccess(role: string, u: UserService.SessionUser)
    requires role in Roles.NonAdmin
    ensures Guard(Resolve("/dashboard/" + role).0.meta, true, Some(u)).redirect.None? <==>
            u.role == Some(role) || u.role == Some("admin")
  {
    ResolveDashboard(role);
  }

  /** The administrator's dashboard is open to the administrator only. */
  lemma AdminDashboardAccess(u: UserService.SessionUser)
    ensures Guard(Resolve("/dashboard/admin").0.meta, true, Some(u)).redirect.None? <==> u.role == Some("admin")
  {
    ResolveDashboard("admin");
  }

  /** A visitor who is not signed in is sent to the login page from every
      page that requires it, and let through everywhere else. */
  lemma AnonymousVisitor(path: string)
    ensures var r := Resolve(path);
      Guard(r.0.meta, false, None) ==
        if r.0.meta.requiresAuth then Decision(Some("/login"), false) else Decision(None, false)
  {
  }

  /** While the store holds a token but no user (before the stored user is
      read), the role check is skipped: every dashboard is let through. */
  lemma UserlessSessionSkipsRoleCheck(role: string)
    requires role in Roles.All
    ensures Guard(Resolve("/dashboard/" + role).0.meta, true, None) == Decision(None, false)
  {
    ResolveDashboard(role);
  }

  /** The session the next navigation sees after a decision. */
  function After(d: Decision, isAuthenticated: bool, user: Option<UserService.SessionUser>): (bool, Option<UserService.SessionUser>) {
    if d.logout then (false, None) else (isAuthenticated, user)
  }

  /** A redirect never leads to another: the page it names lets the same
      session through. */
  lemma {:induction false} RedirectsSettle(meta: Meta, isAuthenticated: bool, user: Option<UserService.SessionUser>)
    requires user.Some? ==> isAuthenticated
    ensures var d := Guard(meta, isAuthenticated, user);
      var s := After(d, isAuthenticated, user);
      d.redirect.Some? ==> Guard(Resolve(d.redirect.value).0.meta, s.0, s.1).redirect.None?
  {
    var d := Guard(meta, isAuthenticated, user);
    var s := After(d, isAuthenticated, user);
    if d.redirect == Some("/login") {
      assert Resolve("/login").0 == LoginRoute by {
        assert Routes[0].path == "/login";
      }
      assert !s.0;
    } else if d.redirect == Some("/unauthorized") {
      assert Resolve("/unauthorized").0 == UnauthorizedRoute by {
        assert Routes[2].path == "/unauthorized";
        assert Routes[0].path != "/unauthorized" && Routes[1].path != "/unauthorized";
      }
    } else if d.redirect.Some? {
      var role := RoleOf(user).value;
      ResolveDashboard(role);
      assert user.Some? && user.value.role == Some(role);
    }
  }

  // ---------------------------------------------------------------------
  // The guard

  /**
   * router.beforeEach for a navigation to `path`: sets the title, logs out
   * when the guard says so, and returns the redirect (None for `next()`).
   */
  method BeforeEach(path: string, auth: Auth.AuthStore) returns (redirect: Option<string>)
    requires auth.Valid()
    modifies auth, auth.window
    ensures var r := Resolve(path);
      var d := Guard(r.0.meta, old(auth.isAuthenticated), old(auth.user));
      redirect == d.redirect &&
      auth.window.title == PageTitle(r.0.meta, r.1, old(auth.isAuthenticated), old(auth.UserRole())) &&
      (d.logout ==>
         auth.user.None? && auth.token.None? && !auth.isAuthenticated &&
         auth.window.localStorage == old(auth.window.localStorage) - {TokenKey, UserKey} &&
         auth.window.href == "/login") &&
      (!d.logout ==>
         auth.user == old(auth.user) && auth.token == old(auth.token) &&
         auth.isAuthenticated == old(auth.isAuthenticated) &&
         auth.window.localStorage == old(auth.window.localStorage) &&
         auth.window.href == old(auth.window.href))
    ensures auth.Valid()
  {
    var r := Resolve(path);
    auth.window.title := PageTitle(r.0.meta, r.1, auth.isAuthenticated, auth.UserRole());
    var d := Guard(r.0.meta, auth.isAuthenticated, auth.user);
    if d.logout {
      auth.Logout();
    }
    redirect := d.redirect;
  }
}
