/** The application shell (App.tsx): the simulated login and logout, the
    view router, and the role the menu is built for. */
module App {
  import opened Optional
  import opened Types
  import Sidebar

  /** What the main area shows. */
  datatype Screen =
    | LoginScreen
    | DashboardScreen
    | RoomSchedulerScreen
    | PatientAgendaScreen
    | ProfessionalManagerScreen
    | PatientsPlaceholder
    | SettingsScreen

  /** The shell state: signed in or not, the chosen role, the current view. */
  datatype AppState = AppState(authenticated: bool, role: Option<UserRole>, view: string)

  const Initial: AppState := AppState(false, None, "dashboard")

  /** The views the router names; anything else shows the dashboard. */
  const KnownViews: set<string> := {"dashboard", "rooms", "schedule", "professionals", "patients", "settings"}

  /** `handleLogin`: the role is recorded and the shell is unlocked; the view
      is left as it was. */
  function Login(s: AppState, role: UserRole): (r: AppState)
    ensures r.authenticated && r.role == Some(role) && r.view == s.view
  {
    s.(authenticated := true, role := Some(role))
  }

  /** `handleLogout`: locked, no role, back to the dashboard view. */
  function Logout(s: AppState): (r: AppState)
    ensures !r.authenticated && r.role.None? && r.view == "dashboard"
  {
    Initial
  }

  /** The menu's `onChangeView`. */
  function ChangeView(s: AppState, view: string): (r: AppState)
    ensures r.view == view && r.authenticated == s.authenticated && r.role == s.role
  {
    s.(view := view)
  }

  /** `renderContent`: the screen of a view, the dashboard for any view it
      does not name. */
  function Route(view: string): (r: Screen)
    ensures r != LoginScreen
    ensures view == "dashboard" ==> r == DashboardScreen
    ensures view == "rooms" ==> r == RoomSchedulerScreen
    ensures view == "schedule" ==> r == PatientAgendaScreen
    ensures view == "professionals" ==> r == ProfessionalManagerScreen
    ensures view == "patients" ==> r == PatientsPlaceholder
    ensures view == "settings" ==> r == SettingsScreen
    ensures view !in KnownViews ==> r == DashboardScreen
  {
    if view == "dashboard" then DashboardScreen
    else if view == "rooms" then RoomSchedulerScreen
    else if view == "schedule" then PatientAgendaScreen
    else if view == "professionals" then ProfessionalManagerScreen
    else if view == "patients" then PatientsPlaceholder
    else if view == "settings" then SettingsScreen
    else DashboardScreen
  }

  /** No two named views share a screen, and only the dashboard view and
      unnamed views show the dashboard. */
  lemma RouteDistinguishesViews(v: string, w: string)
    requires v in KnownViews && w in KnownViews && v != w
    ensures Route(v) != Route(w)
    ensures Route(v) == DashboardScreen <==> v == "dashboard"
  {
  }

  /** What the shell shows: the login screen while locked, whatever the
      view; otherwise the routed screen. */
  function Render(s: AppState): (r: Screen)
    ensures !s.authenticated <==> r == LoginScreen
    ensures s.authenticated ==> r == Route(s.view)
  {
    if !s.authenticated then LoginScreen else Route(s.view)
  }

  /** The role the menu is built for: a missing role counts as ADMIN. */
  function SidebarRole(s: AppState): (r: UserRole)
    ensures s.role.Some? ==> r == s.role.value
    ensures s.role.None? ==> r == Admin
  {
    s.role.GetOr(Admin)
  }

  /** The subtitle under the fixed name in the top bar. */
  function RoleTitle(role: Option<UserRole>): (r: string)
    ensures r == "Administradora" <==> role == Some(Admin)
  {
    if role == Some(Admin) then "Administradora" else "Psicóloga"
  }

  /** The router checks no role: two states that differ only in the role
      show the same screen. */
  lemma RenderIgnoresRole(s: AppState, role: Option<UserRole>)
    ensures Render(s.(role := role)) == Render(s)
  {
  }

  /** Every view a menu offers is one the router names, so no menu entry
      falls through to the default. */
  lemma MenuViewsAreRouted(role: UserRole)
    ensures var items := Sidebar.MenuItems(role);
      forall i :: 0 <= i < |items| ==> items[i].id in KnownViews
  {
  }

  /** Logging out and back in with any role shows the dashboard. */
  lemma LogoutThenLoginShowsDashboard(s: AppState, role: UserRole)
    ensures Render(Login(Logout(s), role)) == DashboardScreen
  {
  }

  /** The router itself checks no role: a patient's state whose view is
      "settings" renders the settings screen, although the patient menu does
      not offer that view. Only the menu limits which views a role can
      select; `ShellKeepsViewOnMenu` shows that it does. */
  lemma RouterChecksNoRole(s: AppState)
    requires s.authenticated && s.role == Some(UserRole.Patient)
    ensures Render(ChangeView(s, "settings")) == SettingsScreen
    ensures forall i :: 0 <= i < |Sidebar.MenuItems(SidebarRole(s))| ==> Sidebar.MenuItems(SidebarRole(s))[i].id != "settings"
  {
  }

  // ---------------------------------------------------------------------
  // The shell as a state machine
  // ---------------------------------------------------------------------

  /** What a user can do to the shell: log in with a role on the login
      screen, log out from the menu, or click a menu entry. */
  datatype ShellEvent =
    | LoginAs(role: UserRole)
    | LogoutClick
    | MenuClick(index: nat)

  /** One shell event. The login screen is shown only while locked and the
      menu (with its logout button) only while unlocked, so an event on the
      screen that is not shown does nothing. */
  function Handle(s: AppState, e: ShellEvent): (r: AppState)
    ensures e.LoginAs? && !s.authenticated ==> r == Login(s, e.role)
    ensures e.LogoutClick? && s.authenticated ==> r == Logout(s)
    ensures e.MenuClick? && s.authenticated && e.index < |Sidebar.MenuItems(SidebarRole(s))| ==>
      r == ChangeView(s, Sidebar.MenuItems(SidebarRole(s))[e.index].id)
    ensures r.authenticated == s.authenticated ==> r.role == s.role
  {
    match e
    case LoginAs(role) => if !s.authenticated then Login(s, role) else s
    case LogoutClick => if s.authenticated then Logout(s) else s
    case MenuClick(k) =>
      var items := Sidebar.MenuItems(SidebarRole(s));
      if s.authenticated && k < |items| then ChangeView(s, Sidebar.ClickTarget(items, k)) else s
  }

  /** A sequence of shell events. */
  function RunShell(s: AppState, events: seq<ShellEvent>): AppState
    decreases |events|
  {
    if |events| == 0 then s else RunShell(Handle(s, events[0]), events[1..])
  }

  /** The view is the id of an entry of the menu built for the state's role. */
  predicate OnMenu(s: AppState) {
    exists i :: 0 <= i < |Sidebar.MenuItems(SidebarRole(s))| && Sidebar.MenuItems(SidebarRole(s))[i].id == s.view
  }

  /** What every reachable state satisfies: locked on the dashboard view,
      or unlocked on a view the role's menu offers. */
  predicate ShellInvariant(s: AppState) {
    && (!s.authenticated ==> s.view == "dashboard")
    && (s.authenticated ==> OnMenu(s))
  }

  /** Each shell event keeps the invariant. */
  lemma HandleKeepsInvariant(s: AppState, e: ShellEvent)
    requires ShellInvariant(s)
    ensures ShellInvariant(Handle(s, e))
  {
    var r := Handle(s, e);
    if r.authenticated {
      var items := Sidebar.MenuItems(SidebarRole(r));
      match e
      case LoginAs(role) =>
        if !s.authenticated {
          assert items[0].id == r.view;
        }
      case LogoutClick =>
      case MenuClick(k) =>
        if k < |Sidebar.MenuItems(SidebarRole(s))| {
          assert items[k].id == r.view;
        }
    }
  }

  /** From the opening state, whatever the user does, the view is always
      one the current role's menu offers once signed in. */
  lemma {:induction false} ShellKeepsViewOnMenu(s: AppState, events: seq<ShellEvent>)
    requires ShellInvariant(s)
    ensures ShellInvariant(RunShell(s, events))
    decreases |events|
  {
    if |events| > 0 {
      HandleKeepsInvariant(s, events[0]);
      ShellKeepsViewOnMenu(Handle(s, events[0]), events[1..]);
    }
  }

  /** So a signed-in patient never sees the settings screen, whatever the
      sequence of logins, logouts and menu clicks from the opening state. */
  lemma PatientNeverReachesSettings(events: seq<ShellEvent>)
    requires RunShell(Initial, events).authenticated
    requires RunShell(Initial, events).role == Some(UserRole.Patient)
    ensures Render(RunShell(Initial, events)) != SettingsScreen
  {
    var s := RunShell(Initial, events);
    ShellKeepsViewOnMenu(Initial, events);
    var items := Sidebar.MenuItems(SidebarRole(s));
    var i :| 0 <= i < |items| && items[i].id == s.view;
    assert s.view != "settings";
  }
}
