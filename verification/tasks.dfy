/** The task list of src/pages/Tasks.jsx: the `URLSearchParams` it builds
    for `/tasks`, the fetch guarded by the effect's `mounted` flag, and
    the confirmed delete with its update event. */
module TasksPage {
  import opened Common
  import DashboardPage
  import AppRoutes

  /** The extra `assignedTo` a `user`-role session adds: its own id. */
  function RoleParams(user: Option<User>): (ps: seq<Param>)
    ensures |ps| <= 1
    ensures ps != [] <==> IsUserRole(user)
    ensures ps != [] ==> ps[0] == Param("assignedTo", user.value.id)
  {
    if IsUserRole(user) then [Param("assignedTo", user.value.id)] else []
  }

  /** `url += '?' + params` only when `params.toString()` is not empty. */
  function TasksUrl(params: seq<Param>): (url: string)
    ensures params == [] <==> url == "/tasks"
    ensures params != [] ==> url == "/tasks?" + QueryString(params)
  {
    if QueryString(params) != "" then "/tasks?" + QueryString(params) else "/tasks"
  }

  /** The rules both URL builders of the page follow: `status` when a
      status filter is set, `assignedTo` when an employee filter is set,
      and for a `user`-role session one more `assignedTo` with the user's
      own id after any filter value. */
  method BuildParams(filterStatus: string, filterEmployee: string, user: Option<User>)
    returns (params: seq<Param>, url: string)
    ensures params == FilterParams(filterStatus, filterEmployee) + RoleParams(user)
    ensures url == TasksUrl(params)
    ensures url == "/tasks" <==> filterStatus == "" && filterEmployee == "" && !IsUserRole(user)
  {
    params := [];
    if filterStatus != "" {
      params := params + [Param("status", filterStatus)];
    }
    if filterEmployee != "" {
      params := params + [Param("assignedTo", filterEmployee)];
    }
    if user.Some? && user.value.role == "user" {
      params := params + [Param("assignedTo", user.value.id)];
    }
    assert params == FilterParams(filterStatus, filterEmployee) + RoleParams(user);
    url := if QueryString(params) != "" then "/tasks?" + QueryString(params) else "/tasks";
  }

  /** What the server reads from the task list's parameters: the status
      filter's value under `status`; under `assignedTo` the employee
      filter's value, then the user's own id for role `user`. */
  lemma ParamsValues(filterStatus: string, filterEmployee: string, user: Option<User>)
    ensures ValuesOf(FilterParams(filterStatus, filterEmployee) + RoleParams(user), "assignedTo") ==
              (if filterEmployee != "" then [filterEmployee] else [])
              + (if IsUserRole(user) then [user.value.id] else [])
    ensures ValuesOf(FilterParams(filterStatus, filterEmployee) + RoleParams(user), "status") ==
              (if filterStatus != "" then [filterStatus] else [])
  {
    var fp, rp := FilterParams(filterStatus, filterEmployee), RoleParams(user);
    FilterParamsSpec(filterStatus, filterEmployee);
    ValuesOfAppend(fp, rp, "assignedTo");
    ValuesOfAppend(fp, rp, "status");
    if IsUserRole(user) {
      assert rp == [Param("assignedTo", user.value.id)];
      assert "assignedTo"[0] != "status"[0];
      assert rp[1..] == [];
    }
  }



  /** For any session that is not of role `user`, the task list asks for
      the same parameters, in the same order and under the same empty-query
      rule, as the dashboard under the same filters, even though one tests
      `params.toString()` and the other `query.length`. The two escape
      values differently (`URLSearchParams` writes a space as `+` and also
      escapes `! ' ( ) ~`, `encodeURIComponent` writes `%20`); values are
      compared here before escaping. */
  lemma SameUrlAsDashboard(filterStatus: string, filterEmployee: string, user: Option<User>)
    requires !IsUserRole(user)
    ensures TasksUrl(FilterParams(filterStatus, filterEmployee) + RoleParams(user))
            == DashboardPage.DashboardTasksUrl(FilterParams(filterStatus, filterEmployee))
  {
    assert FilterParams(filterStatus, filterEmployee) + RoleParams(user) == FilterParams(filterStatus, filterEmployee);
  }

  /** The URL builder, given a `user`-role session and an employee
      filter, would send two `assignedTo` values: the filter's, then its
      own id. The page never builds that URL: the route table renders it
      only to admins (`RenderedOnlyForAdmins`), and no handler of the page
      sets the employee filter, which stays empty. */
  lemma DuplicateAssignedTo(filterEmployee: string, user: Option<User>)
    requires filterEmployee != "" && IsUserRole(user)
    ensures ValuesOf(FilterParams("", filterEmployee) + RoleParams(user), "assignedTo")
            == [filterEmployee, user.value.id]
  {
    FilterParamsSpec("", filterEmployee);
    ValuesOfAppend(FilterParams("", filterEmployee), RoleParams(user), "assignedTo");
  }

  /** Wherever the route table renders the task list, the session is an
      admin's, so the role parameter is never added and the page asks for
      the same parameters as the dashboard. */
  lemma RenderedOnlyForAdmins(user: Option<User>, path: string, filterStatus: string, filterEmployee: string)
    requires AppRoutes.Route(false, user, path) == AppRoutes.Render(AppRoutes.TasksPage)
    ensures IsAdmin(user) && RoleParams(user) == []
    ensures TasksUrl(FilterParams(filterStatus, filterEmployee) + RoleParams(user))
            == DashboardPage.DashboardTasksUrl(FilterParams(filterStatus, filterEmployee))
  {
    SameUrlAsDashboard(filterStatus, filterEmployee, user);
  }

  /** The page's state, the requests it has issued and the events it has
      emitted. */
  class TasksView {
    var tasks: Option<seq<Task>>
    var filterStatus: string
    var filterEmployee: string
    var user: Option<User>
    var mounted: bool
    var requests: seq<Request>
    var events: seq<UpdateEvent>

    constructor (user: Option<User>)
      ensures tasks == Some([]) && filterStatus == "" && filterEmployee == ""
      ensures this.user == user && mounted && requests == [] && events == []
    {
      tasks := Some([]);
      filterStatus := "";
      filterEmployee := "";
      this.user := user;
      mounted := true;
      requests := [];
      events := [];
    }

    /** `fetchTasks`: request the list; its answer (even `null`) replaces
        the tasks only while the effect is still mounted; a failure is
        ignored. */
    method FetchTasks(outcome: Response<seq<Task>>)
      modifies this
      ensures requests == old(requests) + [Request(Get, TasksUrl(FilterParams(filterStatus, filterEmployee) + RoleParams(user)), NoBody)]
      ensures tasks == (if mounted && outcome.Ok? then outcome.data else old(tasks))
      ensures events == old(events) && mounted == old(mounted) && user == old(user)
      ensures filterStatus == old(filterStatus) && filterEmployee == old(filterEmployee)
    {
      var _, url := BuildParams(filterStatus, filterEmployee, user);
      requests := requests + [Request(Get, url, NoBody)];
      if mounted && outcome.Ok? {
        tasks := outcome.data;
      }
    }

    /** The effect's cleanup: later answers are dropped. */
    method Unmount()
      modifies this
      ensures !mounted && tasks == old(tasks) && requests == old(requests) && events == old(events)
      ensures filterStatus == old(filterStatus) && filterEmployee == old(filterEmployee) && user == old(user)
    {
      mounted := false;
    }

    /** Choosing a status in the filter select. */
    method SetFilterStatus(status: string)
      modifies this
      ensures filterStatus == status && filterEmployee == old(filterEmployee) && user == old(user)
      ensures tasks == old(tasks) && requests == old(requests) && events == old(events) && mounted == old(mounted)
    {
      filterStatus := status;
    }

    /** `handleDelete(taskId)`: nothing unless confirmed; then DELETE. On
        success, reload with the page's URL rules and emit the `deleted`
        event. Reading `user.role` with no user throws after the DELETE,
        so then neither the reload nor the event happens. The reload's
        answer is applied without the `mounted` check. */
    method DeleteTask(taskId: string, confirmed: bool, deleted: bool, reload: Response<seq<Task>>)
      modifies this
      ensures !confirmed ==> requests == old(requests) && events == old(events) && tasks == old(tasks)
      ensures confirmed ==> |requests| >= |old(requests)| + 1
                            && requests[..|old(requests)| + 1] == old(requests) + [Request(Delete, "/tasks/" + taskId, NoBody)]
      ensures confirmed && deleted && user.Some? ==>
                requests == old(requests) + [Request(Delete, "/tasks/" + taskId, NoBody),
                                             Request(Get, TasksUrl(FilterParams(filterStatus, filterEmployee) + RoleParams(user)), NoBody)]
                && events == old(events) + [UpdateEvent(TasksScope, Deleted, Some(taskId))]
                && tasks == (if reload.Ok? then reload.data else old(tasks))
      ensures !(confirmed && deleted && user.Some?) ==> events == old(events) && tasks == old(tasks)
      ensures confirmed && !(deleted && user.Some?) ==> requests == old(requests) + [Request(Delete, "/tasks/" + taskId, NoBody)]
      ensures mounted == old(mounted) && user == old(user)
      ensures filterStatus == old(filterStatus) && filterEmployee == old(filterEmployee)
    {
      if !confirmed {
        return;
      }
      requests := requests + [Request(Delete, "/tasks/" + taskId, NoBody)];
      if !deleted || user.None? {
        return;
      }
      var _, url := BuildParams(filterStatus, filterEmployee, user);
      requests := requests + [Request(Get, url, NoBody)];
      if reload.Ok? {
        tasks := reload.data;
      }
      events := events + [UpdateEvent(TasksScope, Deleted, Some(taskId))];
    }
  }
}
