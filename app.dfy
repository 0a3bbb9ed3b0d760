/** The application shell: which page is shown, who is signed in, the
    default administrator account and the session kept in browser storage. */
module AppShell {
  import opened Common
  import opened Records
  import opened Browser

  const AdminId := "121212"

  /** The account the shell adds when no user has the administrator id. */
  const DefaultAdmin := User(AdminId, "Admin", "Administrator", "Admin", Some("admin@123"),
                             Num(12.0), Num(0.0), Some("What is your mother's maiden name?"), Some("Smith"),
                             None, None, None)

  /** The mount effect's seeding. */
  function SeedAdmin(users: seq<User>): (r: seq<User>)
    ensures Registered(users, AdminId) ==> r == users
    ensures !Registered(users, AdminId) ==> r == users + [DefaultAdmin]
  {
    if exists i :: 0 <= i < |users| && users[i].empId == AdminId then users else users + [DefaultAdmin]
  }

  /** Seeding registers the administrator, adds at most that one account,
      keeps ids unique and is idempotent. */
  lemma SeedAdminIdempotent(users: seq<User>)
    ensures Registered(SeedAdmin(users), AdminId)
    ensures SeedAdmin(users)[..|users|] == users && |SeedAdmin(users)| <= |users| + 1
    ensures SeedAdmin(SeedAdmin(users)) == SeedAdmin(users)
    ensures UniqueIds(users) ==> UniqueIds(SeedAdmin(users))
  {
    if !Registered(users, AdminId) {
      assert SeedAdmin(users)[|users|] == DefaultAdmin;
      if UniqueIds(users) {
        AppendKeepsUniqueIds(users, DefaultAdmin);
      }
    }
  }

  /** The views that show a dashboard. */
  const DashboardViews := ["employee", "siteincharge", "hr", "sbuhead", "admin"]

  /** `roleMap[user.role] || 'employee'` */
  function RoleView(role: string): (view: string)
    ensures view in DashboardViews
    ensures role !in ["Site Incharge", "HR", "SBU Head", "Admin"] ==> view == "employee"
  {
    match role
    case "Employee" => "employee"
    case "Site Incharge" => "siteincharge"
    case "HR" => "hr"
    case "SBU Head" => "sbuhead"
    case "Admin" => "admin"
    case _ => "employee"
  }

  /** Each of the five roles the login page offers gets its own dashboard. */
  lemma RoleViewsDistinct(a: string, b: string)
    requires a in ["Employee", "Site Incharge", "HR", "SBU Head", "Admin"]
    requires b in ["Employee", "Site Incharge", "HR", "SBU Head", "Admin"]
    ensures RoleView(a) == RoleView(b) <==> a == b
  {
  }

  /** The route guard effect: a dashboard view without a user becomes the
      login view. */
  function Guard(view: string, user: Option<User>): (r: string)
    ensures r in DashboardViews ==> user.Some?
    ensures view in DashboardViews && user.None? ==> r == "login"
    ensures !(view in DashboardViews && user.None?) ==> r == view
  {
    if view in DashboardViews && user.None? then "login" else view
  }

  /** After the guard has run, a dashboard is rendered exactly when the view
      asked for one and a user is signed in; asking for a dashboard without
      a user shows the login page; guarding again changes nothing. */
  lemma GuardedRender(view: string, user: Option<User>)
    ensures RenderView(Guard(view, user), user).Dashboard? <==> view in DashboardViews && user.Some?
    ensures view in DashboardViews && user.None? ==> RenderView(Guard(view, user), user) == LoginPage
    ensures Guard(Guard(view, user), user) == Guard(view, user)
  {
    assert "login" !in DashboardViews;
  }

  /** What `renderView` shows. */
  datatype Screen = Dashboard(view: string, user: User) | LandingPage | LoginPage | ForgotPasswordPage

  function RenderView(view: string, user: Option<User>): (s: Screen)
    ensures s.Dashboard? <==> view in DashboardViews && user.Some?
    ensures s.Dashboard? ==> s.view == view && s.user == user.value
    ensures s == LoginPage <==> view == "login"
    ensures s == ForgotPasswordPage <==> view == "forgot"
  {
    if view in DashboardViews && user.Some? then Dashboard(view, user.value)
    else match view
      case "login" => LoginPage
      case "forgot" => ForgotPasswordPage
      case _ => LandingPage
  }

  /** No view name reaches the sign-up page: `signup` falls through to the
      landing page. */
  lemma SignupIsNotRendered(user: Option<User>)
    ensures RenderView("signup", user) == LandingPage
  {
    assert "signup" !in DashboardViews;
  }

  class App {
    const store: Storage
    var currentView: string
    var currentUser: Option<User>
    var activeSection: string

    constructor (store: Storage)
      ensures this.store == store && currentView == "login" && currentUser == None
      ensures activeSection == "dashboard"
    {
      this.store := store;
      currentView := "login";
      currentUser := None;
      activeSection := "dashboard";
    }

    /** The mount effect: seed the administrator, and take a stored session's
        user without leaving the login view. */
    method OnMount()
      modifies this, store
      ensures store.users == SeedAdmin(old(store.users))
      ensures store.leaveRequests == old(store.leaveRequests) && store.currentUser == old(store.currentUser)
      ensures currentUser == if store.currentUser.Some? then store.currentUser else old(currentUser)
      ensures currentView == old(currentView) && activeSection == old(activeSection)
    {
      var users := store.users;
      var admin := FindIndex(users, EmpIdIs(AdminId));
      if admin == -1 {
        users := users + [DefaultAdmin];
        store.users := users;
      }
      if store.currentUser.Some? {
        currentUser := store.currentUser;
      }
    }

    /** The route guard effect, run whenever the view or the user changes. */
    method RouteGuard()
      modifies this
      ensures currentView == Guard(old(currentView), currentUser)
      ensures currentUser == old(currentUser) && activeSection == old(activeSection)
    {
      if currentView in DashboardViews && currentUser.None? {
        currentView := "login";
      }
    }

    /** `onNavigate` of the login and password pages. */
    method Navigate(view: string)
      modifies this
      ensures currentView == view && currentUser == old(currentUser) && activeSection == old(activeSection)
    {
      currentView := view;
    }

    /** The sidebar's `onSectionChange`. */
    method ChangeSection(section: string)
      modifies this
      ensures activeSection == section && currentView == old(currentView) && currentUser == old(currentUser)
    {
      activeSection := section;
    }

    /** `handleLogin` */
    method HandleLogin(user: User)
      modifies this, store
      ensures currentUser == Some(user) && store.currentUser == Some(user)
      ensures currentView == RoleView(user.role) && activeSection == "dashboard"
      ensures store.users == old(store.users) && store.leaveRequests == old(store.leaveRequests)
    {
      currentUser := Some(user);
      store.currentUser := Some(user);
      currentView := RoleView(user.role);
      activeSection := "dashboard";
    }

    /** `handleLogout`: the session and the cached requests are dropped. */
    method HandleLogout()
      modifies this, store
      ensures currentUser == None && currentView == "login" && activeSection == old(activeSection)
      ensures store.currentUser == None && store.leaveRequests == None && store.users == old(store.users)
    {
      currentUser := None;
      store.currentUser := None;
      store.leaveRequests := None;
      currentView := "login";
    }

    method Render() returns (screen: Screen)
      ensures screen == RenderView(currentView, currentUser)
    {
      if currentView in DashboardViews && currentUser.Some? {
        return Dashboard(currentView, currentUser.value);
      }
      if currentView == "login" {
        screen := LoginPage;
      } else if currentView == "forgot" {
        screen := ForgotPasswordPage;
      } else {
        screen := LandingPage;
      }
    }
  }

  /** Signing in shows the user's dashboard, and signing out shows the login
      page, whatever view the guard then sees. */
  lemma SignInAndOutScreens(user: User)
    ensures RenderView(Guard(RoleView(user.role), Some(user)), Some(user)) == Dashboard(RoleView(user.role), user)
    ensures RenderView(Guard("login", None), None) == LoginPage
  {
  }
}
