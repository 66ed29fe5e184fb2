/** The route table of src/App.jsx as a pure function of the session's
    `loading` flag, its user (and that user's role) and the requested
    path. */
module AppRoutes {
  import opened Common

  /** The page components the table can render. `TaskEditor(id)` is the
      add/edit task page with its `id` route parameter. */
  datatype Page = HomePage | LoginPage | RegisterPage | DashboardPage | EmployeesPage
                | TasksPage | TaskEditor(id: Option<string>)

  /** What the application shows for a path. */
  datatype View = LoadingScreen | Render(page: Page) | Redirect(to: string)

  /** The route patterns a path can match; `Unmatched` falls to `*`. */
  datatype Location =
    | Root | About | LoginPath | RegisterPath | DashboardPath | EmployeesPath
    | TasksPath | AddTaskPath | EditTaskPath(id: string) | Unmatched(path: string)

  const EditPrefix: string := "/edit-task/"

  /** The path a location stands for. */
  function PathOf(l: Location): string {
    match l
    case Root => "/"
    case About => "/about"
    case LoginPath => "/login"
    case RegisterPath => "/register"
    case DashboardPath => "/dashboard"
    case EmployeesPath => "/employees"
    case TasksPath => "/tasks"
    case AddTaskPath => "/add-task"
    case EditTaskPath(id) => EditPrefix + id
    case Unmatched(p) => p
  }

  /** A route parameter: one non-empty path segment. */
  predicate IsSegment(s: string) {
    s != [] && '/' !in s
  }

  /** Which pattern of the table a path matches. */
  function Classify(path: string): (l: Location)
    ensures PathOf(l) == path
    ensures l.EditTaskPath? ==> IsSegment(l.id)
  {
    if path == "/" then Root
    else if path == "/about" then About
    else if path == "/login" then LoginPath
    else if path == "/register" then RegisterPath
    else if path == "/dashboard" then DashboardPath
    else if path == "/employees" then EmployeesPath
    else if path == "/tasks" then TasksPath
    else if path == "/add-task" then AddTaskPath
    else if |path| > |EditPrefix| && path[..|EditPrefix|] == EditPrefix && IsSegment(path[|EditPrefix|..])
    then
      assert path == EditPrefix + path[|EditPrefix|..];
      EditTaskPath(path[|EditPrefix|..])
    else Unmatched(path)
  }

  /** Classifying the path of a pattern gives that pattern back. */
  lemma ClassifyPathOf(l: Location)
    requires !l.Unmatched?
    requires l.EditTaskPath? ==> IsSegment(l.id)
    ensures Classify(PathOf(l)) == l
  {
    if l.EditTaskPath? {
      var p := PathOf(l);
      assert p[..|EditPrefix|] == EditPrefix && p[|EditPrefix|..] == l.id;
      assert p[1] == 'e';
    }
  }

  /** The landing page for the session: the dashboard when logged in,
      the home page otherwise (`<Navigate to={user ? "/dashboard" : "/"} />`). */
  function Landing(user: Option<User>): (r: string)
    ensures Classify(r) == if user.Some? then DashboardPath else Root
    ensures MayView(user, if user.Some? then DashboardPage else HomePage)
  {
    if user.Some? then "/dashboard" else "/"
  }

  /** The access policy the table implements: which pages a session may
      see. A visitor sees the home, login and registration pages; a user
      who is not an admin sees the home page, the dashboard and the
      employees page; an admin sees every page but the login page. */
  function MayView(user: Option<User>, page: Page): (b: bool)
    ensures user.None? ==> (b <==> page == HomePage || page == LoginPage || page == RegisterPage)
    ensures user.Some? && !IsAdmin(user) ==>
              (b <==> page == HomePage || page == DashboardPage || page == EmployeesPage)
    ensures IsAdmin(user) ==> (b <==> page != LoginPage)
  {
    match page
    case HomePage => true
    case LoginPage => user.None?
    case RegisterPage => user.None? || IsAdmin(user)
    case DashboardPage => user.Some?
    case EmployeesPage => user.Some?
    case TasksPage => IsAdmin(user)
    case TaskEditor(_) => IsAdmin(user)
  }

  /** `App`: the loading screen while the session is loading; otherwise
      the element of the route the path matches. */
  function Route(loading: bool, user: Option<User>, path: string): (v: View)
    ensures loading <==> v == LoadingScreen
    ensures v.Render? ==> MayView(user, v.page)
    ensures v.Redirect? ==> v.to == Landing(user)
  {
    if loading then LoadingScreen
    else
      match Classify(path)
      case Root => Render(HomePage)
      case About => Render(HomePage)
      case LoginPath => if user.Some? then Redirect("/dashboard") else Render(LoginPage)
      case RegisterPath =>
        if user.Some? && user.value.role != "admin" then Redirect("/dashboard") else Render(RegisterPage)
      case DashboardPath => if user.Some? then Render(DashboardPage) else Redirect(Landing(user))
      case EmployeesPath => if user.Some? then Render(EmployeesPage) else Redirect(Landing(user))
      case TasksPath => if IsAdmin(user) then Render(TasksPage) else Redirect(Landing(user))
      case AddTaskPath => if IsAdmin(user) then Render(TaskEditor(None)) else Redirect(Landing(user))
      case EditTaskPath(id) => if IsAdmin(user) then Render(TaskEditor(Some(id))) else Redirect(Landing(user))
      case Unmatched(_) => Redirect(Landing(user))
  }

  /** `/` and `/about` show the home page in every settled session. */
  lemma HomeAlwaysRenders(user: Option<User>)
    ensures Route(false, user, "/") == Render(HomePage)
    ensures Route(false, user, "/about") == Render(HomePage)
  {
  }

  /** `/login` shows the login page when logged out and sends a logged-in
      user to the dashboard. */
  lemma LoginRoute(user: Option<User>)
    ensures Route(false, user, "/login") == if user.Some? then Redirect("/dashboard") else Render(LoginPage)
  {
  }

  /** `/register` sends a logged-in non-admin to the dashboard and shows
      the registration page to visitors and to admins. */
  lemma RegisterRoute(user: Option<User>)
    ensures Route(false, user, "/register") ==
              if user.Some? && !IsAdmin(user) then Redirect("/dashboard") else Render(RegisterPage)
  {
  }

  /** `/dashboard` and `/employees` render exactly when a user is logged
      in; otherwise they fall to the home page. */
  lemma MemberRoutes(user: Option<User>)
    ensures Route(false, user, "/dashboard").Render? <==> user.Some?
    ensures Route(false, user, "/employees").Render? <==> user.Some?
    ensures Route(false, user, "/dashboard") == if user.Some? then Render(DashboardPage) else Redirect("/")
    ensures Route(false, user, "/employees") == if user.Some? then Render(EmployeesPage) else Redirect("/")
  {
  }

  /** The task pages render exactly for admins; a `user`-role session
      falls through to the catch-all and lands on the dashboard. */
  lemma AdminRoutes(user: Option<User>, id: string)
    requires IsSegment(id)
    ensures Route(false, user, "/tasks").Render? <==> IsAdmin(user)
    ensures Route(false, user, "/tasks") == if IsAdmin(user) then Render(TasksPage) else Redirect(Landing(user))
    ensures Route(false, user, "/add-task") == if IsAdmin(user) then Render(TaskEditor(None)) else Redirect(Landing(user))
    ensures Route(false, user, EditPrefix + id) ==
              if IsAdmin(user) then Render(TaskEditor(Some(id))) else Redirect(Landing(user))
    ensures IsUserRole(user) ==> Route(false, user, "/tasks") == Redirect("/dashboard")
  {
    ClassifyPathOf(EditTaskPath(id));
  }

  /** A path outside the table lands on the session's landing page. */
  lemma UnmatchedRoute(user: Option<User>, path: string)
    requires Classify(path).Unmatched?
    ensures Route(false, user, path) == Redirect(Landing(user))
  {
  }

  /** Every redirect lands on a page that renders: there are no redirect
      chains and no loops. */
  lemma NoRedirectChains(user: Option<User>, path: string)
    requires Route(false, user, path).Redirect?
    ensures Route(false, user, Route(false, user, path).to).Render?
  {
  }

  /** Every page the policy allows has a path that renders it. */
  lemma PolicyIsReachable(user: Option<User>, page: Page)
    requires MayView(user, page)
    requires page.TaskEditor? && page.id.Some? ==> IsSegment(page.id.value)
    ensures exists path :: Route(false, user, path) == Render(page)
  {
    match page
    case HomePage => assert Route(false, user, "/") == Render(page);
    case LoginPage => assert Route(false, user, "/login") == Render(page);
    case RegisterPage => assert Route(false, user, "/register") == Render(page);
    case DashboardPage => assert Route(false, user, "/dashboard") == Render(page);
    case EmployeesPage => assert Route(false, user, "/employees") == Render(page);
    case TasksPage => assert Route(false, user, "/tasks") == Render(page);
    case TaskEditor(id) =>
      if id.Some? {
        ClassifyPathOf(EditTaskPath(id.value));
        assert Route(false, user, EditPrefix + id.value) == Render(page);
      } else {
        assert Route(false, user, "/add-task") == Render(page);
      }
  }
}
