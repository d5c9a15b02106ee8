/**
 * The client's route table and its gates: `ProtectedRoute` (wait for the session, then require a
 * user), `RoleRoute` (require a role, compared case-insensitively) and `DashboardRouter` (send each
 * role to its own dashboard).
 */
module Routing {
  import opened Wrappers
  import opened Text
  import opened Session

  /** The screens the router can show. */
  datatype Page =
    | LoginPage | AdminDashboard | PatrolDashboard | DeskDashboard | FieldDashboard
    | InvestigatingDashboard | AddUserForm | NotFoundPage

  /** What one route renders: the loading spinner, a page, or a `<Navigate replace>` to another path. */
  datatype View = Spinner | Show(page: Page) | Redirect(to: string)

  /** `ProtectedRoute`: a spinner while the session is loading, the login page without a user. */
  function ProtectedRoute(user: Option<User>, isLoading: bool, child: View): View {
    if isLoading then Spinner
    else if user.None? then Redirect("/login")
    else child
  }

  /** `RoleRoute`: the page only for a user whose lower-cased role is the lower-cased allowed role. */
  function RoleRoute(user: Option<User>, allowedRole: string, child: Page): View {
    if user.None? then Redirect("/login")
    else if ToLower(user.value.role) != ToLower(allowedRole) then Redirect("/dashboard")
    else Show(child)
  }

  /** The dashboard of each known role, by its lower-cased name. */
  function DashboardOf(lowerRole: string): Option<Page> {
    if lowerRole == "admin" then Some(AdminDashboard)
    else if lowerRole == "patrol" then Some(PatrolDashboard)
    else if lowerRole == "desk" then Some(DeskDashboard)
    else if lowerRole == "field" then Some(FieldDashboard)
    else if lowerRole == "investigating" then Some(InvestigatingDashboard)
    else None
  }

  /** `DashboardRouter`: the signed-in user's own dashboard; an unknown role goes back to login. */
  function DashboardRouter(user: Option<User>): View {
    if user.None? then Redirect("/login")
    else match DashboardOf(ToLower(user.value.role))
      case Some(p) => Show(p)
      case None => Redirect("/login")
  }

  /** The paths wrapped in `ProtectedRoute`. */
  predicate IsProtectedPath(path: string) {
    path in ["/dashboard", "/admin", "/patrol", "/desk", "/field", "/investigating", "/add-user"]
  }

  /** The route table: what the router renders at `path` for the current session state. */
  function Route(path: string, user: Option<User>, isLoading: bool): View {
    if path == "/login" then Show(LoginPage)
    else if path == "/dashboard" then ProtectedRoute(user, isLoading, DashboardRouter(user))
    else if path == "/admin" then ProtectedRoute(user, isLoading, RoleRoute(user, "admin", AdminDashboard))
    else if path == "/patrol" then ProtectedRoute(user, isLoading, RoleRoute(user, "patrol", PatrolDashboard))
    else if path == "/desk" then ProtectedRoute(user, isLoading, RoleRoute(user, "desk", DeskDashboard))
    else if path == "/field" then ProtectedRoute(user, isLoading, RoleRoute(user, "field", FieldDashboard))
    else if path == "/investigating" then
      ProtectedRoute(user, isLoading, RoleRoute(user, "investigating", InvestigatingDashboard))
    else if path == "/add-user" then ProtectedRoute(user, isLoading, RoleRoute(user, "admin", AddUserForm))
    else if path == "/" then Redirect("/dashboard")
    else Show(NotFoundPage)
  }

  /** Following the router's redirects, at most `hops` of them. */
  function Navigate(path: string, user: Option<User>, isLoading: bool, hops: nat): View
    decreases hops
  {
    match Route(path, user, isLoading)
    case Redirect(to) => if hops == 0 then Redirect(to) else Navigate(to, user, isLoading, hops - 1)
    case v => v
  }

  /** While the session is loading every protected path shows the spinner: no page and no redirect. */
  lemma LoadingShowsSpinner(path: string, user: Option<User>)
    requires IsProtectedPath(path)
    ensures Route(path, user, true) == Spinner
  {
  }

  /** Without a user each of the three gates, and so every protected path, sends to the login page. */
  lemma NoUserGoesToLogin(path: string, allowedRole: string, child: Page)
    requires IsProtectedPath(path)
    ensures Route(path, None, false) == Redirect("/login")
    ensures RoleRoute(None, allowedRole, child) == Redirect("/login")
    ensures DashboardRouter(None) == Redirect("/login")
  {
  }

  /** `RoleRoute` lets a user through exactly when the roles agree up to case, and otherwise sends them to
      `/dashboard`, never to `/login`. */
  lemma RoleRouteAllowsIff(u: User, allowedRole: string, child: Page)
    ensures RoleRoute(Some(u), allowedRole, child) == Show(child) <==> ToLower(u.role) == ToLower(allowedRole)
    ensures ToLower(u.role) != ToLower(allowedRole) ==> RoleRoute(Some(u), allowedRole, child) == Redirect("/dashboard")
  {
  }

  /** An upper-case stored role such as "ADMIN" passes the admin gate. */
  lemma UpperCaseRolePasses(name: string)
    ensures Route("/admin", Some(User(name, "ADMIN")), false) == Show(AdminDashboard)
  {
    assert ToLower("ADMIN") == "admin";
    assert ToLower("admin") == "admin";
  }

  /** The dashboard router shows a dashboard exactly for the five known roles, in any letter case, and
      two users see the same dashboard only when their roles agree up to case; any other role goes to login. */
  lemma DashboardRouterRoles(u: User, v: User)
    ensures DashboardRouter(Some(u)).Show? <==>
              ToLower(u.role) in ["admin", "patrol", "desk", "field", "investigating"]
    ensures !DashboardRouter(Some(u)).Show? ==> DashboardRouter(Some(u)) == Redirect("/login")
    ensures DashboardRouter(Some(u)).Show? && DashboardRouter(Some(u)) == DashboardRouter(Some(v)) ==>
              ToLower(u.role) == ToLower(v.role)
  {
  }

  /** A role stored verbatim as the add-user form offers it, "Patrol Officer", has no dashboard. */
  lemma OfficerTitleHasNoDashboard(name: string)
    ensures Route("/dashboard", Some(User(name, "Patrol Officer")), false) == Redirect("/login")
  {
    var l := ToLower("Patrol Officer");
    assert l[0] == 'p' && l[6] == ' ';
  }

  /** Only an admin reaches the add-user form; every other signed-in user is sent to `/dashboard`. */
  lemma AddUserAdminOnly(u: User)
    ensures Route("/add-user", Some(u), false) == Show(AddUserForm) <==> ToLower(u.role) == "admin"
    ensures ToLower(u.role) != "admin" ==> Route("/add-user", Some(u), false) == Redirect("/dashboard")
  {
    assert ToLower("admin") == "admin";
  }

  /** The root path always redirects to the dashboard router. */
  lemma RootRedirectsToDashboard(user: Option<User>, isLoading: bool)
    ensures Route("/", user, isLoading) == Redirect("/dashboard")
  {
  }

  /** The redirects never cycle: from every path, whatever the session, three hops reach a spinner or a page. */
  lemma RedirectsEnd(path: string, user: Option<User>, isLoading: bool)
    ensures !Navigate(path, user, isLoading, 3).Redirect?
  {
    var v := Route(path, user, isLoading);
    if v.Redirect? {
      assert v.to == "/login" || v.to == "/dashboard";
      var v1 := Route(v.to, user, isLoading);
      if v1.Redirect? {
        assert v1.to == "/login";
      }
    }
  }

  /** A signed-in user with a known role whom a role gate turns away lands on their own dashboard after
      that one redirect. */
  lemma MismatchEndsOnOwnDashboard(path: string, u: User)
    requires Route(path, Some(u), false) == Redirect("/dashboard")
    requires DashboardOf(ToLower(u.role)).Some?
    ensures Navigate(path, Some(u), false, 1) == Show(DashboardOf(ToLower(u.role)).value)
  {
  }
}
