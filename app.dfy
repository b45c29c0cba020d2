/**
 * The application shell: the two guards in front of the pages (a loading
 * screen, then a login screen when no user is signed in), the role router
 * `RenderPage`, and the `currentPage` cell that navigation replaces.
 */
module App {
  import opened Wrappers
  import opened Types
  import Auth

  /** What the shell renders. The last three of each role's pages are placeholder panels. */
  datatype View =
    | LoadingScreen | LoginScreen
    | StudentDashboard | ChallengesPage | QuizzesPage | ProfilePage
    | SchoolDashboard | ManageActivitiesPage | ReportsPanel
    | NGODashboard | CampaignsPanel | ResourcesPanel

  /** The role whose page set a view belongs to; the two guard views belong to none. */
  function ViewRole(v: View): Option<Role> {
    match v
    case LoadingScreen => None
    case LoginScreen => None
    case StudentDashboard => Some(Student)
    case ChallengesPage => Some(Student)
    case QuizzesPage => Some(Student)
    case ProfilePage => Some(Student)
    case SchoolDashboard => Some(School)
    case ManageActivitiesPage => Some(School)
    case ReportsPanel => Some(School)
    case NGODashboard => Some(Ngo)
    case CampaignsPanel => Some(Ngo)
    case ResourcesPanel => Some(Ngo)
  }

  /** The role whose pages a role text reaches: an unrecognised role is served as a student. */
  function ServedRole(role: string): Role {
    RoleOf(role).GetOr(Student)
  }

  /** The dashboard, which is also what every unknown page falls back to. */
  function DashboardFor(role: string): (v: View)
    ensures ViewRole(v) == Some(ServedRole(role))
    ensures v == RenderPage(role, "dashboard")
  {
    match ServedRole(role)
    case Student => StudentDashboard
    case School => SchoolDashboard
    case Ngo => NGODashboard
  }

  /** The page keys that have a case of their own under each role, in the order of the cases. */
  function RoutedPages(role: string): seq<string> {
    if role == "student" then ["dashboard", "challenges", "quizzes", "profile"]
    else if role == "school" then ["dashboard", "activities", "reports"]
    else if role == "ngo" then ["dashboard", "campaigns", "resources"]
    else []
  }

  /**
   * `renderPage`: the nested switch on the role text and the page key. The
   * view is always one of the served role's pages, never a guard view.
   */
  function RenderPage(role: string, page: string): (v: View)
    ensures ViewRole(v) == Some(ServedRole(role))
  {
    if role == "student" then
      if page == "dashboard" then StudentDashboard
      else if page == "challenges" then ChallengesPage
      else if page == "quizzes" then QuizzesPage
      else if page == "profile" then ProfilePage
      else StudentDashboard
    else if role == "school" then
      if page == "dashboard" then SchoolDashboard
      else if page == "activities" then ManageActivitiesPage
      else if page == "reports" then ReportsPanel
      else SchoolDashboard
    else if role == "ngo" then
      if page == "dashboard" then NGODashboard
      else if page == "campaigns" then CampaignsPanel
      else if page == "resources" then ResourcesPanel
      else NGODashboard
    else StudentDashboard
  }

  /** `AppContent`: the loading guard, then the missing-user guard, then the router. */
  function AppView(loading: bool, user: Option<User>, currentPage: string): (v: View)
    ensures loading ==> v == LoadingScreen
    ensures !loading && user.None? ==> v == LoginScreen
    ensures !loading && user.Some? ==> ViewRole(v) == Some(ServedRole(user.value.role))
  {
    if loading then LoadingScreen
    else if user.None? then LoginScreen
    else RenderPage(user.value.role, currentPage)
  }

  /** While loading, the loading view is shown whatever the user and page are. */
  lemma LoadingGuard(user: Option<User>, page: string)
    ensures AppView(true, user, page) == LoadingScreen
  {
  }

  /** Not loading and no user: the login form. With a user, the routed page, never a guard view. */
  lemma UserGuard(user: Option<User>, page: string)
    ensures user.None? ==> AppView(false, user, page) == LoginScreen
    ensures user.Some? ==>
              && AppView(false, user, page) == RenderPage(user.value.role, page)
              && AppView(false, user, page) != LoadingScreen
              && AppView(false, user, page) != LoginScreen
  {
  }

  /** The student's four pages, and the dashboard for every other key. */
  lemma StudentRoutes(page: string)
    ensures RenderPage("student", "dashboard") == StudentDashboard
    ensures RenderPage("student", "challenges") == ChallengesPage
    ensures RenderPage("student", "quizzes") == QuizzesPage
    ensures RenderPage("student", "profile") == ProfilePage
    ensures page !in {"dashboard", "challenges", "quizzes", "profile"} ==>
      RenderPage("student", page) == StudentDashboard
  {
  }

  /** The school's three pages, and the dashboard for every other key. */
  lemma SchoolRoutes(page: string)
    ensures RenderPage("school", "dashboard") == SchoolDashboard
    ensures RenderPage("school", "activities") == ManageActivitiesPage
    ensures RenderPage("school", "reports") == ReportsPanel
    ensures page !in {"dashboard", "activities", "reports"} ==>
      RenderPage("school", page) == SchoolDashboard
  {
  }

  /** The NGO's three pages, and the dashboard for every other key. */
  lemma NgoRoutes(page: string)
    ensures RenderPage("ngo", "dashboard") == NGODashboard
    ensures RenderPage("ngo", "campaigns") == CampaignsPanel
    ensures RenderPage("ngo", "resources") == ResourcesPanel
    ensures page !in {"dashboard", "campaigns", "resources"} ==>
      RenderPage("ngo", page) == NGODashboard
  {
  }

  /** An unrecognised role text gets the student dashboard for every page: the router is total. */
  lemma UnknownRoleRoutes(role: string, page: string)
    requires RoleOf(role).None?
    ensures RenderPage(role, page) == StudentDashboard
  {
  }

  /** Every key without a case of its own falls back to the role's dashboard. */
  lemma RouterFallback(role: string, page: string)
    requires page !in RoutedPages(role)
    ensures RenderPage(role, page) == DashboardFor(role)
  {
  }

  /** The routed keys of a role reach pairwise different views, the first being the dashboard. */
  lemma RoutedPagesDistinctViews(role: string, i: nat, j: nat)
    requires i < j < |RoutedPages(role)|
    ensures RenderPage(role, RoutedPages(role)[i]) != RenderPage(role, RoutedPages(role)[j])
    ensures RenderPage(role, RoutedPages(role)[0]) == DashboardFor(role)
  {
  }

  /** A failed login leaves `loading` set, so the shell stays on the loading view. */
  lemma FailedLoginKeepsLoadingView(s: Auth.AuthState, email: string, password: string, role: string, page: string)
    requires Auth.LoginStep(s, email, password, role).error.Some?
    ensures var t := Auth.LoginStep(s, email, password, role).state;
      AppView(t.loading, t.user, page) == LoadingScreen
  {
  }

  /** After a successful login the page shown is the router's choice for the found user's role and the kept page key. */
  lemma LoginRoutesByRole(s: Auth.AuthState, email: string, password: string, role: string, page: string)
    requires Auth.LoginStep(s, email, password, role).error.None?
    ensures var t := Auth.LoginStep(s, email, password, role).state;
      t.user.Some? && t.user.value.role == role && AppView(t.loading, t.user, page) == RenderPage(role, page)
  {
  }

  /** The student account, signed in on the dashboard key, lands on the student dashboard. */
  lemma StudentLoginScenario(s: Auth.AuthState, password: string)
    ensures var r := Auth.LoginStep(s, "rahul@student.edu", password, "student");
      r.error.None? && r.state.user.Some? && r.state.user.value.role == "student"
      && AppView(r.state.loading, r.state.user, "dashboard") == StudentDashboard
  {
  }

  /** The `currentPage` cell of `AppContent`. */
  class Shell {
    var currentPage: string

    constructor ()
      ensures currentPage == "dashboard"
    {
      currentPage := "dashboard";
    }

    /** `onNavigate`: the page key is replaced wholesale. */
    method Navigate(page: string)
      modifies this
      ensures currentPage == page
    {
      currentPage := page;
    }
  }
}
