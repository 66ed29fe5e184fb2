/** The dashboard of src/pages/Dashboard.jsx: the `/tasks` query it
    builds from its two filters, the three loads that fill its state, and
    the stat cards and per-employee cards it derives from that state. */
module DashboardPage {
  import opened Common
  import opened TaskStats

  /** The URL `loadTasks` requests: `/tasks`, followed by `?` and the
      parameters only when there is at least one. */
  function DashboardTasksUrl(query: seq<Param>): (url: string)
    ensures query == [] <==> url == "/tasks"
    ensures query != [] ==> url == "/tasks?" + QueryString(query)
  {
    if |query| > 0 then "/tasks?" + QueryString(query) else "/tasks"
  }

  /** `loadTasks`'s query building: push `status=` when a status filter is
      set, then `assignedTo=` when an employee filter is set, and join
      them behind `?`. */
  method BuildTasksQuery(filterStatus: string, filterEmployee: string) returns (query: seq<Param>, url: string)
    ensures query == FilterParams(filterStatus, filterEmployee)
    ensures url == DashboardTasksUrl(query)
    ensures url == "/tasks" <==> filterStatus == "" && filterEmployee == ""
  {
    query := [];
    if filterStatus != "" {
      query := query + [Param("status", filterStatus)];
    }
    if filterEmployee != "" {
      query := query + [Param("assignedTo", filterEmployee)];
    }
    url := if |query| > 0 then "/tasks?" + QueryString(query) else "/tasks";
  }

  /** With both filters set the URL is `/tasks?status=S&assignedTo=E`. */
  lemma DashboardUrlBoth(s: string, e: string)
    requires s != "" && e != ""
    ensures DashboardTasksUrl(FilterParams(s, e)) == "/tasks?status=" + s + "&assignedTo=" + e
  {
    var st, at := Param("status", s), Param("assignedTo", e);
    assert FilterParams(s, e) == [st, at];
    QueryStringTwo(st, at);
    assert "/tasks?" + "status" + "=" == "/tasks?status=";
    assert "&" + "assignedTo" + "=" == "&assignedTo=";
    Regroup("/tasks?", "status", "=", s, "&", "assignedTo", e);
  }

  /** Regrouping a concatenation of seven strings. */
  lemma Regroup(a: string, b: string, c: string, d: string, f: string, g: string, h: string)
    ensures a + ((b + c + d) + f + (g + c + h)) == (a + b + c) + d + (f + g + c) + h
  {
  }

  /** With only a status filter the URL carries just `status=S`. */
  lemma DashboardUrlStatusOnly(s: string)
    requires s != ""
    ensures DashboardTasksUrl(FilterParams(s, "")) == "/tasks?status=" + s
  {
    var st := Param("status", s);
    assert FilterParams(s, "") == [st];
    assert ParamText(st) == "status=" + s;
  }

  /** With only an employee filter the URL carries just `assignedTo=E`. */
  lemma DashboardUrlEmployeeOnly(e: string)
    requires e != ""
    ensures DashboardTasksUrl(FilterParams("", e)) == "/tasks?assignedTo=" + e
  {
    var at := Param("assignedTo", e);
    assert FilterParams("", e) == [at];
    assert ParamText(at) == "assignedTo=" + e;
  }

  /** The five stat cards. */
  datatype Cards = Cards(total: nat, completed: nat, inProgress: nat, pending: nat, rate: nat)

  /** Total, the three per-status counts and the completion rate of the
      loaded (possibly filtered) task list. */
  function StatCards(tasks: seq<Task>): (c: Cards)
    ensures c.total == |tasks|
    ensures c.completed == CountStatus(tasks, StatusCompleted)
    ensures c.inProgress == CountStatus(tasks, StatusInProgress)
    ensures c.pending == CountStatus(tasks, StatusPending)
    ensures c.rate == CompletionRate(tasks)
    ensures c.completed + c.inProgress + c.pending <= c.total
    ensures c.rate <= 100
    ensures c.total == 0 ==> c.rate == 0
  {
    StatusCountsPartition(tasks);
    Cards(|tasks|, CountStatus(tasks, StatusCompleted), CountStatus(tasks, StatusInProgress),
          CountStatus(tasks, StatusPending), CompletionRate(tasks))
  }

  /** The aggregate `/dashboard` summary; its fields are the server's. */
  datatype Summary = Summary(fields: seq<(string, string)>)

  /** The dashboard's state and the requests it has issued. */
  class DashboardView {
    var data: Summary
    var tasks: seq<Task>
    var employees: seq<Employee>
    var filterStatus: string
    var filterEmployee: string
    var mounted: bool
    var requests: seq<Request>

    constructor ()
      ensures data == Summary([]) && tasks == [] && employees == []
      ensures filterStatus == "" && filterEmployee == "" && mounted && requests == []
    {
      data := Summary([]);
      tasks := [];
      employees := [];
      filterStatus := "";
      filterEmployee := "";
      mounted := true;
      requests := [];
    }

    /** `loadSummary`: a failed call is swallowed and an empty answer is
        ignored; the previous summary then stays. */
    method LoadSummary(outcome: Response<Summary>)
      modifies this
      ensures requests == old(requests) + [Request(Get, "/dashboard", NoBody)]
      ensures data == (if outcome.Ok? && outcome.data.Some? then outcome.data.value else old(data))
      ensures tasks == old(tasks) && employees == old(employees)
      ensures filterStatus == old(filterStatus) && filterEmployee == old(filterEmployee) && mounted == old(mounted)
    {
      requests := requests + [Request(Get, "/dashboard", NoBody)];
      if outcome.Ok? && outcome.data.Some? {
        data := outcome.data.value;
      }
    }

    /** `loadEmployees`: `res || []` on success; unchanged on failure. */
    method LoadEmployees(outcome: Response<seq<Employee>>)
      modifies this
      ensures requests == old(requests) + [Request(Get, "/employees", NoBody)]
      ensures employees == (match outcome case Ok(d) => (if d.Some? then d.value else []) case Failed => old(employees))
      ensures tasks == old(tasks) && data == old(data)
      ensures filterStatus == old(filterStatus) && filterEmployee == old(filterEmployee) && mounted == old(mounted)
    {
      requests := requests + [Request(Get, "/employees", NoBody)];
      match outcome {
        case Ok(d) => employees := if d.Some? then d.value else [];
        case Failed =>
      }
    }

    /** `loadTasks`: request the filtered task list; `res || []` on
        success, unchanged on failure. */
    method LoadTasks(outcome: Response<seq<Task>>)
      modifies this
      ensures requests == old(requests) + [Request(Get, DashboardTasksUrl(FilterParams(filterStatus, filterEmployee)), NoBody)]
      ensures tasks == (match outcome case Ok(d) => (if d.Some? then d.value else []) case Failed => old(tasks))
      ensures employees == old(employees) && data == old(data)
      ensures filterStatus == old(filterStatus) && filterEmployee == old(filterEmployee) && mounted == old(mounted)
    {
      var _, url := BuildTasksQuery(filterStatus, filterEmployee);
      requests := requests + [Request(Get, url, NoBody)];
      match outcome {
        case Ok(d) => tasks := if d.Some? then d.value else [];
        case Failed =>
      }
    }

    /** The effect's `run`: nothing after unmount; otherwise summary,
        employees and tasks, in that order. */
    method Run(summary: Response<Summary>, emps: Response<seq<Employee>>, tks: Response<seq<Task>>)
      modifies this
      ensures !old(mounted) ==> requests == old(requests) && tasks == old(tasks)
                                && employees == old(employees) && data == old(data)
      ensures old(mounted) ==> requests == old(requests) + [
                Request(Get, "/dashboard", NoBody),
                Request(Get, "/employees", NoBody),
                Request(Get, DashboardTasksUrl(FilterParams(filterStatus, filterEmployee)), NoBody)]
      ensures old(mounted) ==>
                data == (if summary.Ok? && summary.data.Some? then summary.data.value else old(data))
                && employees == (match emps case Ok(d) => (if d.Some? then d.value else []) case Failed => old(employees))
                && tasks == (match tks case Ok(d) => (if d.Some? then d.value else []) case Failed => old(tasks))
      ensures filterStatus == old(filterStatus) && filterEmployee == old(filterEmployee) && mounted == old(mounted)
    {
      if !mounted {
        return;
      }
      LoadSummary(summary);
      LoadEmployees(emps);
      LoadTasks(tks);
    }

    /** The update listener: reload only the tasks, and only while
        mounted. */
    method OnDataUpdated(tks: Response<seq<Task>>)
      modifies this
      ensures !old(mounted) ==> requests == old(requests) && tasks == old(tasks)
      ensures old(mounted) ==> tasks == (match tks case Ok(d) => (if d.Some? then d.value else []) case Failed => old(tasks))
      ensures old(mounted) ==> requests == old(requests) + [
                Request(Get, DashboardTasksUrl(FilterParams(filterStatus, filterEmployee)), NoBody)]
      ensures employees == old(employees) && data == old(data)
      ensures filterStatus == old(filterStatus) && filterEmployee == old(filterEmployee) && mounted == old(mounted)
    {
      if mounted {
        LoadTasks(tks);
      }
    }

    /** Picking a status pill; the effect then re-runs with it. */
    method SetStatusFilter(status: string)
      modifies this
      ensures filterStatus == status && filterEmployee == old(filterEmployee)
      ensures tasks == old(tasks) && employees == old(employees) && requests == old(requests)
      ensures data == old(data) && mounted == old(mounted)
    {
      filterStatus := status;
    }

    /** Picking an employee in the select; the effect then re-runs. */
    method SetEmployeeFilter(empId: string)
      modifies this
      ensures filterEmployee == empId && filterStatus == old(filterStatus)
      ensures tasks == old(tasks) && employees == old(employees) && requests == old(requests)
      ensures data == old(data) && mounted == old(mounted)
    {
      filterEmployee := empId;
    }

    /** The effect's cleanup. */
    method Unmount()
      modifies this
      ensures !mounted && requests == old(requests) && tasks == old(tasks)
      ensures employees == old(employees) && data == old(data)
      ensures filterStatus == old(filterStatus) && filterEmployee == old(filterEmployee)
    {
      mounted := false;
    }
  }
}
