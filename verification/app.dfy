/** The application shell: the session state machine (signed out or signed
    in with a user and a current page), the role flags that decide which
    sidebar entries appear, the page dispatch, the language toggle, and the
    user actions that drive them. */
module App {
  import opened Wrappers
  import opened Types
  import opened Localization
  import opened Labels
  import Login

  /** `AppContent`'s session state, together with the language the
      surrounding language provider holds. */
  datatype AppState = AppState(
    isAuthenticated: bool,
    currentUser: Option<Login.User>,
    currentPage: Page,
    language: Language)

  /** Signed out, no user, on the Dashboard page, in the default language. */
  const Initial: AppState := AppState(false, None, Dashboard, DefaultLanguage)

  /** The flag and the user are set and cleared together. */
  predicate Consistent(s: AppState)
  {
    s.isAuthenticated <==> s.currentUser.Some?
  }

  lemma InitialIsSignedOut()
    ensures Consistent(Initial)
    ensures !Initial.isAuthenticated && Initial.currentPage == Dashboard
    ensures Dir(Initial.language) == Rtl
  {
  }

  /** `handleLogin`: store the user, set the flag, and move to Reports
      only for a Data Analyst. */
  function HandleLogin(s: AppState, user: Login.User): (t: AppState)
    ensures t.isAuthenticated && t.currentUser == Some(user)
    ensures user.role == DataAnalyst ==> t.currentPage == Reports
    ensures user.role != DataAnalyst ==> t.currentPage == s.currentPage
    ensures t.language == s.language
  {
    var t := s.(currentUser := Some(user), isAuthenticated := true);
    if RoleValue(user.role) == "Data Analyst" then t.(currentPage := Reports) else t
  }

  /** `handleLogout`: clear the flag and the user; the page is kept. */
  function HandleLogout(s: AppState): (t: AppState)
    ensures !t.isAuthenticated && t.currentUser == None
    ensures t.currentPage == s.currentPage && t.language == s.language
  {
    s.(isAuthenticated := false, currentUser := None)
  }

  /** Logging out twice is logging out once. */
  lemma LogoutIdempotent(s: AppState)
    ensures HandleLogout(HandleLogout(s)) == HandleLogout(s)
  {
  }

  /** Both transitions keep the flag and the user in step. */
  lemma TransitionsKeepConsistent(s: AppState, user: Login.User)
    ensures Consistent(HandleLogin(s, user))
    ensures Consistent(HandleLogout(s))
  {
  }

  /** `currentUser?.role`. */
  function CurrentRole(s: AppState): Option<Role>
  {
    if s.currentUser.Some? then Some(s.currentUser.value.role) else None
  }

  /** `isAdmin`: the role string is 'Admin'. */
  predicate IsAdmin(role: Option<Role>): (b: bool)
    ensures b <==> role == Some(Admin)
  {
    role.Some? && RoleValue(role.value) == "Admin"
  }

  /** `isSafetyEngineer`: a Safety Engineer or an administrator. */
  predicate IsSafetyEngineer(role: Option<Role>): (b: bool)
    ensures b <==> role == Some(SafetyEngineer) || role == Some(Admin)
  {
    (role.Some? && RoleValue(role.value) == "Safety Engineer") || IsAdmin(role)
  }

  /** `isAnalyst`: a Data Analyst or an administrator. */
  predicate IsAnalyst(role: Option<Role>): (b: bool)
    ensures b <==> role == Some(DataAnalyst) || role == Some(Admin)
  {
    (role.Some? && RoleValue(role.value) == "Data Analyst") || IsAdmin(role)
  }

  /** The sidebar entries in the order they are drawn: the monitoring
      group, the analytics group, and the administration group. */
  function Sidebar(role: Option<Role>): (items: seq<Page>)
    ensures forall i, j :: 0 <= i < j < |items| ==> items[i] != items[j]
    ensures Incidents in items && Ergonomics in items
  {
    (if IsSafetyEngineer(role) then [Dashboard, LiveMonitoring, Alerts] else [])
    + [Incidents, Ergonomics]
    + (if IsAnalyst(role) then [Reports] else [])
    + (if IsAdmin(role) then [Cameras, Health, Users] else [])
  }

  /** The pages a signed-in role can reach from the sidebar. */
  function VisiblePages(r: Role): (v: set<Page>)
    ensures Incidents in v && Ergonomics in v
    ensures Users in v <==> r == Admin
    ensures Reports in v <==> r != SafetyEngineer
    ensures Dashboard in v <==> r != DataAnalyst
  {
    set p | p in Sidebar(Some(r))
  }

  /** The sidebar of each role, as a set. */
  lemma VisiblePagesByRole()
    ensures VisiblePages(Admin) == set p | p in AllPages
    ensures VisiblePages(SafetyEngineer) == {Dashboard, LiveMonitoring, Alerts, Incidents, Ergonomics}
    ensures VisiblePages(DataAnalyst) == {Incidents, Ergonomics, Reports}
  {
    AdminPages();
    SafetyEngineerPages();
    DataAnalystPages();
  }

  lemma AdminPages()
    ensures VisiblePages(Admin) == set p | p in AllPages
  {
    assert Sidebar(Some(Admin)) == AllPages;
  }

  lemma SafetyEngineerPages()
    ensures VisiblePages(SafetyEngineer) == {Dashboard, LiveMonitoring, Alerts, Incidents, Ergonomics}
  {
    assert Sidebar(Some(SafetyEngineer)) == [Dashboard, LiveMonitoring, Alerts, Incidents, Ergonomics];
  }

  lemma DataAnalystPages()
    ensures VisiblePages(DataAnalyst) == {Incidents, Ergonomics, Reports}
  {
    assert Sidebar(Some(DataAnalyst)) == [Incidents, Ergonomics, Reports];
  }

  /** The administrator's sidebar lists every page, in declaration order. */
  lemma AdminSidebarIsAllPages(p: Page)
    ensures Sidebar(Some(Admin)) == AllPages
    ensures p in VisiblePages(Admin)
  {
    AllPagesEnumerates(p);
  }

  /** Incidents and Ergonomics are visible to every role, and the
      administrator sees strictly more than each other role. */
  lemma AdminSeesMost(r: Role)
    ensures Incidents in VisiblePages(r) && Ergonomics in VisiblePages(r)
    ensures VisiblePages(r) <= VisiblePages(Admin)
    ensures r != Admin ==> VisiblePages(r) < VisiblePages(Admin)
  {
    VisiblePagesByRole();
    assert Users in VisiblePages(Admin) && Users !in VisiblePages(SafetyEngineer);
    assert Users !in VisiblePages(DataAnalyst);
  }

  /** The screen each page mounts. */
  datatype Screen =
    | DashboardScreen | LiveMonitoringScreen | AlertsScreen | IncidentsScreen
    | ErgonomicsScreen | ReportsScreen | CameraManagementScreen
    | SystemHealthScreen | UserManagementScreen

  /** `renderPage`: a dispatch on the page alone; the role is never
      consulted. The `default` arm is unreachable for the closed `Page`. */
  function RenderPage(p: Page): (screen: Screen)
    ensures screen == DashboardScreen <==> p == Dashboard
    ensures screen == UserManagementScreen <==> p == Users
  {
    match p
    case Dashboard => DashboardScreen
    case LiveMonitoring => LiveMonitoringScreen
    case Alerts => AlertsScreen
    case Incidents => IncidentsScreen
    case Ergonomics => ErgonomicsScreen
    case Reports => ReportsScreen
    case Cameras => CameraManagementScreen
    case Health => SystemHealthScreen
    case Users => UserManagementScreen
  }

  /** Each page mounts its own screen. */
  lemma RenderPageInjective(p: Page, q: Page)
    ensures RenderPage(p) == RenderPage(q) <==> p == q
  {
  }

  /** What the application shows. */
  datatype View =
    | LoginView
    | ShellView(
        sidebar: seq<Page>,
        active: Page,
        title: string,
        caption: Option<string>,
        dir: Direction,
        content: Screen)

  /** `AppContent`'s render: the login screen while signed out, otherwise
      the shell with its sidebar, header title, role caption and page. */
  function Render(s: AppState): (v: View)
    ensures v.LoginView? <==> !s.isAuthenticated
    ensures s.isAuthenticated ==> v.content == RenderPage(s.currentPage) && v.active == s.currentPage
  {
    if !s.isAuthenticated then LoginView
    else
      var role := CurrentRole(s);
      ShellView(
        Sidebar(role),
        s.currentPage,
        PageTitle(s.language, s.currentPage),
        if role.Some? then Some(RoleCaption(s.language, role.value)) else None,
        Dir(s.language),
        RenderPage(s.currentPage))
  }

  /** Two signed-in states on the same page in the same language show the
      same screen and title whoever is signed in. */
  lemma ContentIgnoresRole(s: AppState, t: AppState)
    requires s.isAuthenticated && t.isAuthenticated
    requires s.currentPage == t.currentPage && s.language == t.language
    ensures Render(s).content == Render(t).content
    ensures Render(s).title == Render(t).title
  {
  }

  /** The header button: 'en' becomes 'ar' and anything else becomes 'en'. */
  function Toggle(l: Language): (m: Language)
    ensures m != l
  {
    if LanguageCode(l) == "en" then Ar else En
  }

  /** Toggling twice restores the language, and each toggle mirrors the layout. */
  lemma ToggleInvolutive(l: Language)
    ensures Toggle(Toggle(l)) == l
    ensures Dir(Toggle(l)) != Dir(l)
  {
  }

  /** The user actions the screens offer. */
  datatype Event =
    | SubmitCredentials(username: string, password: string)
    | SelectPage(page: Page)
    | ViewAlerts
    | ToggleLanguage
    | LogOut

  /** The state after an action, or None when the current view does not
      offer the control: the login form only while signed out; sidebar
      entries, the language button and the log-out button only while
      signed in; "view alerts" only on the Dashboard screen. */
  function Step(s: AppState, e: Event): (r: Option<AppState>)
    ensures r.Some? && e.SubmitCredentials? ==> !s.isAuthenticated
    ensures r.Some? && !e.SubmitCredentials? ==> s.isAuthenticated
    // signed out, a submission is always handled: it signs in the user the
    // credentials resolve to, or leaves the session as it was
    ensures e.SubmitCredentials? && !s.isAuthenticated ==>
      r == Some(
        if e.username != "" && e.password != "" && Login.Authenticate(e.username, e.password).Success?
        then HandleLogin(s, Login.Authenticate(e.username, e.password).value)
        else s)
    // signed in, logging out, toggling and every sidebar entry are offered
    ensures s.isAuthenticated && e.LogOut? ==> r == Some(HandleLogout(s))
    ensures s.isAuthenticated && e.ToggleLanguage? ==>
      r.Some? && r.value == s.(language := r.value.language) && r.value.language != s.language
    ensures s.isAuthenticated && e.SelectPage? ==> (r.Some? <==> e.page in Sidebar(CurrentRole(s)))
    ensures r.Some? && e.SelectPage? ==> r.value == s.(currentPage := e.page)
    // "view alerts" is offered on the Dashboard only, and moves to Alerts
    ensures e.ViewAlerts? ==> (r.Some? <==> s.isAuthenticated && s.currentPage == Dashboard)
    ensures r.Some? && e.ViewAlerts? ==> r.value == s.(currentPage := Alerts)
  {
    match e
    case SubmitCredentials(username, password) =>
      if s.isAuthenticated then None
      else (
        match Login.Submit(Login.FreshForm, username, password).signedIn
        case Some(user) => Some(HandleLogin(s, user))
        case None => Some(s))
    case SelectPage(p) =>
      if s.isAuthenticated && p in Sidebar(CurrentRole(s)) then Some(s.(currentPage := p)) else None
    case ViewAlerts =>
      if s.isAuthenticated && RenderPage(s.currentPage) == DashboardScreen
      then Some(s.(currentPage := Alerts)) else None
    case ToggleLanguage =>
      if s.isAuthenticated then Some(s.(language := Toggle(s.language))) else None
    case LogOut =>
      if s.isAuthenticated then Some(HandleLogout(s)) else None
  }

  /** A sequence of actions, or None as soon as one is not offered. */
  function Run(s: AppState, es: seq<Event>): (r: Option<AppState>)
    ensures es == [] ==> r == Some(s)
    // a signed-in user stays signed in, as the same user, until a log-out
    ensures r.Some? && s.isAuthenticated && (forall i :: 0 <= i < |es| ==> !es[i].LogOut?) ==>
      r.value.isAuthenticated && r.value.currentUser == s.currentUser
    decreases |es|
  {
    if es == [] then Some(s)
    else
      match Step(s, es[0])
      case Some(t) => Run(t, es[1..])
      case None => None
  }

  lemma StepKeepsConsistent(s: AppState, e: Event)
    requires Consistent(s)
    ensures Step(s, e).Some? ==> Consistent(Step(s, e).value)
  {
    if e.SubmitCredentials? && !s.isAuthenticated {
      var signedIn := Login.Submit(Login.FreshForm, e.username, e.password).signedIn;
      if signedIn.Some? {
        TransitionsKeepConsistent(s, signedIn.value);
      }
    }
  }

  /** Every state reached from a consistent one is consistent. */
  lemma {:induction false} RunKeepsConsistent(s: AppState, es: seq<Event>)
    requires Consistent(s)
    ensures Run(s, es).Some? ==> Consistent(Run(s, es).value)
    decreases |es|
  {
    if es != [] {
      StepKeepsConsistent(s, es[0]);
      if Step(s, es[0]).Some? {
        RunKeepsConsistent(Step(s, es[0]).value, es[1..]);
      }
    }
  }

  /** The page shown is one the signed-in role may select. */
  predicate PageVisible(s: AppState)
  {
    s.currentUser.Some? ==> s.currentPage in VisiblePages(s.currentUser.value.role)
  }

  /** The first sign-in lands on a visible page: Reports for a Data
      Analyst, the Dashboard otherwise. */
  lemma FirstLoginLandsOnVisiblePage(user: Login.User)
    ensures PageVisible(HandleLogin(Initial, user))
    ensures HandleLogin(Initial, user).currentPage == if user.role == DataAnalyst then Reports else Dashboard
  {
    VisiblePagesByRole();
  }

  /** Within a session, every action other than signing in keeps the page
      visible. */
  lemma NavigationKeepsPageVisible(s: AppState, e: Event)
    requires Consistent(s) && PageVisible(s)
    requires !e.SubmitCredentials?
    ensures Step(s, e).Some? ==> PageVisible(Step(s, e).value)
  {
    if e.ViewAlerts? && Step(s, e).Some? {
      DashboardRolesSeeAlerts(s.currentUser.value.role);
    }
  }

  /** Every role whose sidebar offers the Dashboard also offers Alerts. */
  lemma DashboardRolesSeeAlerts(r: Role)
    ensures Dashboard in VisiblePages(r) ==> Alerts in VisiblePages(r)
  {
    if r == DataAnalyst {
      DataAnalystPages();
    } else if r == SafetyEngineer {
      SafetyEngineerPages();
    } else {
      AdminPages();
    }
  }

  /** Signing in does not reset the page: whoever signed out last, a
      non-analyst lands on the page they left, visible to them or not. */
  lemma LoginKeepsStalePage(s: AppState, user: Login.User)
    requires user.role != DataAnalyst
    ensures HandleLogin(HandleLogout(s), user).currentPage == s.currentPage
    ensures s.currentPage !in VisiblePages(user.role) ==> !PageVisible(HandleLogin(HandleLogout(s), user))
  {
  }

  /** A reachable instance: after an administrator on User Management signs
      out and a Safety Engineer signs in, User Management is still mounted
      although that role's sidebar does not offer it. */
  lemma StalePageAfterRelogin()
    ensures Run(Initial, [SubmitCredentials("admin", "admin"), SelectPage(Users), LogOut,
                          SubmitCredentials("safety", "safety")])
         == Some(AppState(true, Some(Login.User("Alex Morgan", SafetyEngineer)), Users, DefaultLanguage))
  {
    var s1 := HandleLogin(Initial, Login.User("System Admin", Admin));
    var s2 := s1.(currentPage := Users);
    var s3 := HandleLogout(s2);
    var s4 := HandleLogin(s3, Login.User("Alex Morgan", SafetyEngineer));
    AdminSignsIn();
    SafetyEngineerSignsIn(s3);
    AdminSelectsUsers(s1);
    RunFour(Initial, SubmitCredentials("admin", "admin"), s1, SelectPage(Users), s2, LogOut, s3,
            SubmitCredentials("safety", "safety"), s4);
  }

  /** The state that run ends in shows a page its role cannot select. */
  lemma StaleStateShowsHiddenPage()
    ensures !PageVisible(AppState(true, Some(Login.User("Alex Morgan", SafetyEngineer)), Users, DefaultLanguage))
  {
    SafetyEngineerPages();
  }

  lemma AdminSignsIn()
    ensures Step(Initial, SubmitCredentials("admin", "admin"))
         == Some(HandleLogin(Initial, Login.User("System Admin", Admin)))
  {
    Login.KnownAccounts();
  }

  lemma SafetyEngineerSignsIn(s: AppState)
    requires !s.isAuthenticated
    ensures Step(s, SubmitCredentials("safety", "safety"))
         == Some(HandleLogin(s, Login.User("Alex Morgan", SafetyEngineer)))
  {
    Login.KnownAccounts();
  }

  lemma AdminSelectsUsers(s: AppState)
    requires CurrentRole(s) == Some(Admin) && s.isAuthenticated
    ensures Step(s, SelectPage(Users)) == Some(s.(currentPage := Users))
  {
    AdminPages();
  }

  /** Four offered actions in a row run to the state the last one reaches. */
  lemma RunFour(s0: AppState, e1: Event, s1: AppState, e2: Event, s2: AppState,
                e3: Event, s3: AppState, e4: Event, s4: AppState)
    requires Step(s0, e1) == Some(s1) && Step(s1, e2) == Some(s2)
    requires Step(s2, e3) == Some(s3) && Step(s3, e4) == Some(s4)
    ensures Run(s0, [e1, e2, e3, e4]) == Some(s4)
  {
    assert [e1, e2, e3, e4][1..] == [e2, e3, e4];
    assert [e2, e3, e4][1..] == [e3, e4];
    assert [e3, e4][1..] == [e4];
    assert [e4][1..] == [];
    assert Run(s3, [e4]) == Run(s4, []);
    assert Run(s2, [e3, e4]) == Run(s3, [e4]);
    assert Run(s1, [e2, e3, e4]) == Run(s2, [e3, e4]);
  }
}
