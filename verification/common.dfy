/** Entities shared by the session store, the router and the pages:
    users, employees, tasks, update events, HTTP requests and query
    parameters. Strings are `seq<char>`; a JavaScript value that may be
    `null` or `undefined` is an `Option`. */
module Common {

  datatype Option<+T> = None | Some(value: T)

  /** JavaScript truthiness of a possibly missing string: `null`,
      `undefined` and `""` are falsy, every other string is truthy. */
  predicate Truthy(s: Option<string>) {
    s.Some? && s.value != ""
  }

  /** `s || fallback` for a possibly missing string. */
  function OrElse(s: Option<string>, fallback: string): (r: string)
    ensures Truthy(s) ==> r == s.value
    ensures !Truthy(s) ==> r == fallback
  {
    if Truthy(s) then s.value else fallback
  }

  /** The profile `{ id, username, role }` returned by the identity and
      login endpoints. The role is kept as the server's string: the
      client only ever compares it with "admin" and "user". */
  datatype User = User(id: string, username: string, role: string)

  /** `user && user.role === 'admin'` */
  predicate IsAdmin(user: Option<User>) {
    user.Some? && user.value.role == "admin"
  }

  /** `user && user.role === 'user'` */
  predicate IsUserRole(user: Option<User>) {
    user.Some? && user.value.role == "user"
  }

  /** An employee record as the `/employees` endpoint returns it. */
  datatype Employee = Employee(id: string, name: string, email: string, department: string, status: string)

  /** The employee form `{ name, email, department, status }`. */
  datatype EmployeeForm = EmployeeForm(name: string, email: string, department: string, status: string)

  /** The value of a task's `assignedTo`: missing (`null`/`undefined`),
      a raw employee id, or a populated employee object whose `_id` may
      itself be missing. */
  datatype Assignee = Unassigned | ById(id: string) | Populated(objectId: Option<string>)

  /** Truthiness of an `assignedTo` value: an object is always truthy. */
  predicate AssigneeTruthy(a: Assignee) {
    match a
    case Unassigned => false
    case ById(s) => s != ""
    case Populated(_) => true
  }

  /** `assignedTo?._id === empId || assignedTo === empId`, for an
      employee id `empId` (always a string): either the populated
      object's `_id` or the raw id must be that string. A missing
      assignee belongs to nobody, and an assignee a real (non-empty) id
      owns is truthy. */
  function Owns(a: Assignee, empId: string): (b: bool)
    ensures b <==> (a.Populated? && a.objectId == Some(empId)) || (a.ById? && a.id == empId)
    ensures b ==> !a.Unassigned?
    ensures b && empId != "" ==> AssigneeTruthy(a)
  {
    match a
    case Unassigned => false
    case ById(s) => s == empId
    case Populated(o) => o == Some(empId)
  }

  /** A task as the `/tasks` endpoints return it; the optional fields may
      be missing. */
  datatype Task = Task(id: string, title: Option<string>, description: Option<string>,
                       status: Option<string>, assignedTo: Assignee)

  /** The task fields edited inline on the employees page. */
  datatype TaskDraft = TaskDraft(title: string, description: string, status: string)

  /** The full task form `{ title, description, status, assignedTo }`. */
  datatype TaskForm = TaskForm(title: string, description: string, status: string, assignedTo: Assignee)

  const StatusPending := "pending"
  const StatusInProgress := "in-progress"
  const StatusCompleted := "completed"

  /** The defaults both task editors apply: a missing or empty title or description
      becomes `''`, a missing or empty status becomes `'pending'`. */
  function DraftOf(task: Task): (d: TaskDraft)
    ensures Truthy(task.title) ==> d.title == task.title.value
    ensures !Truthy(task.title) ==> d.title == ""
    ensures Truthy(task.description) ==> d.description == task.description.value
    ensures !Truthy(task.description) ==> d.description == ""
    ensures d.status != ""
    ensures Truthy(task.status) ==> d.status == task.status.value
    ensures !Truthy(task.status) ==> d.status == StatusPending
  {
    TaskDraft(OrElse(task.title, ""), OrElse(task.description, ""), OrElse(task.status, StatusPending))
  }

  /** The change notification `{ scope, action, id? }`. */
  datatype Scope = EmployeesScope | TasksScope
  datatype Change = Created | Updated | Deleted
  datatype UpdateEvent = UpdateEvent(scope: Scope, action: Change, id: Option<string>)

  /** An HTTP call issued through the API client, with its body. */
  datatype Verb = Get | Post | Put | Delete
  datatype Body =
    | NoBody
    | EmployeeBody(employee: EmployeeForm)
    | TaskBody(task: TaskForm)
    | DraftBody(draft: TaskDraft)
    | StatusBody(status: string)
  datatype Request = Request(verb: Verb, url: string, body: Body)

  /** The outcome of a request: the response's `data` (possibly `null`)
      or a thrown error. */
  datatype Response<+T> = Ok(data: Option<T>) | Failed

  /** One `key=value` query parameter, before percent-encoding. */
  datatype Param = Param(key: string, value: string)

  /** `key=value`: the key, one `=` right after it, then the value. */
  function ParamText(p: Param): (s: string)
    ensures |s| == |p.key| + 1 + |p.value|
  {
    p.key + "=" + p.value
  }

  /** The text of a parameter is its key, one `=`, then its value; when
      the key holds no `=`, the first `=` of the text ends the key. */
  lemma ParamTextLayout(p: Param)
    ensures var s := ParamText(p);
      && s[..|p.key|] == p.key && s[|p.key|] == '=' && s[|p.key| + 1..] == p.value
      && ('=' !in p.key ==> forall i :: 0 <= i < |p.key| ==> s[i] != '=')
  {
  }

  /** The parameters joined by `&`, as `query.join('&')` and
      `URLSearchParams.toString()` write them. */
  function QueryString(ps: seq<Param>): (q: string)
    ensures q == "" <==> ps == []
    ensures |ps| == 1 ==> q == ParamText(ps[0])
    decreases |ps|
  {
    if ps == [] then ""
    else if |ps| == 1 then ParamText(ps[0])
    else ParamText(ps[0]) + "&" + QueryString(ps[1..])
  }

  /** Two parameters are joined by a single `&`. */
  lemma QueryStringTwo(a: Param, b: Param)
    ensures QueryString([a, b]) == ParamText(a) + "&" + ParamText(b)
  {
    assert [a, b][1..] == [b];
  }

  /** The values of the parameters named `key`, in order. */
  function ValuesOf(ps: seq<Param>, key: string): (vs: seq<string>)
    ensures |vs| <= |ps|
  {
    if ps == [] then []
    else (if ps[0].key == key then [ps[0].value] else []) + ValuesOf(ps[1..], key)
  }

  /** The filter parameters shared by the dashboard and the task list:
      `status` when a status filter is set, then `assignedTo` when an
      employee filter is set. */
  function FilterParams(filterStatus: string, filterEmployee: string): (ps: seq<Param>)
    ensures |ps| <= 2
    ensures ps == [] <==> filterStatus == "" && filterEmployee == ""
  {
    (if filterStatus != "" then [Param("status", filterStatus)] else [])
      + (if filterEmployee != "" then [Param("assignedTo", filterEmployee)] else [])
  }

  /** What the filter parameters carry: `status` exactly when the status
      filter is set and `assignedTo` exactly when the employee filter is,
      each with its filter's value, `status` first, and no other key. */
  lemma FilterParamsSpec(filterStatus: string, filterEmployee: string)
    ensures var ps := FilterParams(filterStatus, filterEmployee);
            && (Param("status", filterStatus) in ps <==> filterStatus != "")
            && (Param("assignedTo", filterEmployee) in ps <==> filterEmployee != "")
            && ValuesOf(ps, "status") == (if filterStatus != "" then [filterStatus] else [])
            && ValuesOf(ps, "assignedTo") == (if filterEmployee != "" then [filterEmployee] else [])
            && (|ps| == 2 ==> ps[0].key == "status" && ps[1].key == "assignedTo")
            && (forall p :: p in ps ==> p.key == "status" || p.key == "assignedTo")
  {
  }

  /** The values under a key distribute over appended parameter lists. */
  lemma {:induction false} ValuesOfAppend(a: seq<Param>, b: seq<Param>, key: string)
    ensures ValuesOf(a + b, key) == ValuesOf(a, key) + ValuesOf(b, key)
    decreases |a|
  {
    if a == [] {
      assert a + b == b;
    } else {
      var ab := a + b;
      assert ab[0] == a[0] && ab[1..] == a[1..] + b;
      ValuesOfAppend(a[1..], b, key);
      var h := if a[0].key == key then [a[0].value] else [];
      assert ValuesOf(ab, key) == h + ValuesOf(a[1..] + b, key);
      assert ValuesOf(a, key) == h + ValuesOf(a[1..], key);
      assert h + (ValuesOf(a[1..], key) + ValuesOf(b, key)) == (h + ValuesOf(a[1..], key)) + ValuesOf(b, key);
    }
  }
}
