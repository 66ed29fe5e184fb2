/** The navigation bar of src/components/common/Navbar.jsx: which links
    a session sees, the collapsible menu's `open` flag and the logout
    handler. */
module NavbarView {
  import opened Common
  import opened AuthContext
  import opened AppRoutes

  /** One entry of the bar: a link, the `username (role)` badge, or the
      logout button. */
  datatype NavItem = NavLink(to: string, caption: string) | UserBadge(text: string) | LogoutButton

  /** The entries shown for a session, left side then right side. Every
      link leads to a page the route table renders for that same session,
      never to a redirect. */
  function Items(user: Option<User>): (items: seq<NavItem>)
    ensures forall i :: 0 <= i < |items| && items[i].NavLink? ==> Route(false, user, items[i].to).Render?
    ensures NavLink("/about", "About") in items
    ensures NavLink("/", "Employee Tracker") in items
  {
    [NavLink("/", "Employee Tracker")]
    + (if user.Some? then [NavLink("/dashboard", "Dashboard"), NavLink("/employees", if user.value.role == "admin" then "Add Employees" else "Employees")] else [])
    + (if IsAdmin(user) then [NavLink("/tasks", "Edit Tasks")] else [])
    + [NavLink("/about", "About")]
    + (match user
       case Some(u) => [UserBadge(u.username + " (" + u.role + ")"), LogoutButton]
       case None => [NavLink("/login", "Login"), NavLink("/register", "Register")])
  }

  /** The paths the bar links to. */
  function Targets(items: seq<NavItem>): set<string> {
    set i | 0 <= i < |items| && items[i].NavLink? :: items[i].to
  }

  /** The Dashboard and Employees links are shown exactly when a user is
      logged in; the Employees link reads "Add Employees" for admins and
      "Employees" for everyone else. */
  lemma MemberLinks(user: Option<User>)
    ensures "/dashboard" in Targets(Items(user)) <==> user.Some?
    ensures "/employees" in Targets(Items(user)) <==> user.Some?
    ensures user.Some? ==>
              NavLink("/employees", if IsAdmin(user) then "Add Employees" else "Employees") in Items(user)
  {
    var items := Items(user);
    if user.Some? {
      assert items[1] == NavLink("/dashboard", "Dashboard");
      assert items[2].to == "/employees";
    }
  }

  /** The "Edit Tasks" link is shown exactly to admins. */
  lemma EditTasksLink(user: Option<User>)
    ensures "/tasks" in Targets(Items(user)) <==> IsAdmin(user)
    ensures IsAdmin(user) ==> NavLink("/tasks", "Edit Tasks") in Items(user)
  {
    var items := Items(user);
    if IsAdmin(user) {
      assert items[3] == NavLink("/tasks", "Edit Tasks");
    }
  }

  /** Login and Register are shown exactly when nobody is logged in; the
      badge and the logout button exactly when somebody is. */
  lemma AccountEntries(user: Option<User>)
    ensures "/login" in Targets(Items(user)) <==> user.None?
    ensures "/register" in Targets(Items(user)) <==> user.None?
    ensures LogoutButton in Items(user) <==> user.Some?
    ensures user.Some? ==> UserBadge(user.value.username + " (" + user.value.role + ")") in Items(user)
    ensures user.None? ==> forall i :: 0 <= i < |Items(user)| ==> !Items(user)[i].UserBadge?
  {
    var items := Items(user);
    if user.None? {
      assert items[2] == NavLink("/login", "Login");
      assert items[3] == NavLink("/register", "Register");
    }
  }

  /** The bar's own state: whether the collapsed menu is open, and where
      it has navigated. */
  class Navbar {
    var open: bool
    var navigations: seq<string>

    constructor ()
      ensures !open && navigations == []
    {
      open := false;
      navigations := [];
    }

    /** The hamburger button flips `open`. */
    method Toggle()
      modifies this
      ensures open == !old(open) && navigations == old(navigations)
    {
      open := !open;
    }

    /** Clicking a link closes the menu and navigates to its target. */
    method FollowLink(item: NavItem)
      requires item.NavLink?
      modifies this
      ensures !open && navigations == old(navigations) + [item.to]
    {
      open := false;
      navigations := navigations + [item.to];
    }

    /** `handleLogout`: close the menu, dispatch LOGOUT, then go to the
        login page, which the logged-out session renders. */
    method LogoutClicked(store: AuthStore)
      modifies this, store
      ensures !open && navigations == old(navigations) + ["/login"]
      ensures store.Snapshot() == Step(old(store.Snapshot()), Logout)
      ensures Route(store.state.loading, store.state.user, "/login") == Render(LoginPage)
    {
      open := false;
      store.Dispatch(Logout);
      navigations := navigations + ["/login"];
    }
  }
}
