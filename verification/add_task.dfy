/** The task editor of src/pages/AddTask.jsx, mounted at `/add-task`
    (no id) and at `/edit-task/:id`: its "Assigned To" options, the
    default assignee, how a loaded task's `assignedTo` is reduced to an
    id, and the submit and delete handlers with their events. */
module AddTaskPage {
  import opened Common
  import AppRoutes

  /** One entry `{ value, label }` of the "Assigned To" select. */
  datatype SelectOption = SelectOption(value: string, text: string)

  const Placeholder := SelectOption("", "Select employee")
  const NoEmployees := SelectOption("", "No employees")

  /** `emps.map(emp => ({ value: emp._id, label: emp.name }))`. */
  function EmployeeOptions(emps: seq<Employee>): (opts: seq<SelectOption>)
    ensures |opts| == |emps|
    ensures forall i :: 0 <= i < |emps| ==> opts[i] == SelectOption(emps[i].id, emps[i].name)
  {
    if emps == [] then [] else [SelectOption(emps[0].id, emps[0].name)] + EmployeeOptions(emps[1..])
  }

  /** The select's options once the employee list has answered: the
      placeholder, then one option per employee in the server's order
      (`res || []`); a failed call leaves only "No employees". */
  function OptionsFor(outcome: Response<seq<Employee>>): (opts: seq<SelectOption>)
    ensures |opts| >= 1 && opts[0].value == ""
    ensures outcome.Failed? ==> opts == [NoEmployees]
    ensures outcome.Ok? ==> opts[0] == Placeholder
    ensures outcome.Ok? && outcome.data.Some? ==>
              |opts| == 1 + |outcome.data.value|
              && forall i :: 0 <= i < |outcome.data.value| ==>
                   opts[i + 1] == SelectOption(outcome.data.value[i].id, outcome.data.value[i].name)
    ensures outcome.Ok? && outcome.data.None? ==> opts == [Placeholder]
  {
    match outcome
    case Ok(d) => [Placeholder] + EmployeeOptions(if d.Some? then d.value else [])
    case Failed => [NoEmployees]
  }

  /** `task.assignedTo && task.assignedTo._id ? task.assignedTo._id :
      task.assignedTo || ''`: a populated employee with a non-empty id
      becomes that id, a missing value becomes `''`, and anything else
      (a raw id, or an object whose id is missing or empty) is kept. */
  function NormaliseAssignee(a: Assignee): (r: Assignee)
    ensures a.Populated? && Truthy(a.objectId) ==> r == ById(a.objectId.value)
    ensures a.Unassigned? ==> r == ById("")
    ensures a.ById? ==> r == a
    ensures a.Populated? && !Truthy(a.objectId) ==> r == a
  {
    match a
    case Populated(o) => if Truthy(o) then ById(o.value) else a
    case Unassigned => ById("")
    case ById(_) => a
  }

  /** Normalising never changes which employee a task belongs to, nor
      whether the form counts as assigned (the Save button's test), and
      normalising twice is normalising once. */
  lemma NormaliseAssigneeKeepsOwner(a: Assignee)
    ensures forall empId :: empId != "" ==> (Owns(NormaliseAssignee(a), empId) <==> Owns(a, empId))
    ensures AssigneeTruthy(NormaliseAssignee(a)) <==> AssigneeTruthy(a)
    ensures NormaliseAssignee(NormaliseAssignee(a)) == NormaliseAssignee(a)
  {
    match a
    case Populated(o) =>
    case Unassigned =>
    case ById(_) =>
  }

  /** A task employee `empId` owns normalises to the plain id `empId`. */
  lemma NormaliseToOwner(a: Assignee, empId: string)
    requires empId != "" && Owns(a, empId)
    ensures NormaliseAssignee(a) == ById(empId)
  {
    match a
    case Populated(o) =>
    case ById(_) =>
  }

  /** The form a fetched task fills in: the editors' shared defaults and
      the normalised assignee. */
  function FormOfTask(task: Task): (f: TaskForm)
    ensures TaskDraft(f.title, f.description, f.status) == DraftOf(task)
    ensures f.assignedTo == NormaliseAssignee(task.assignedTo)
  {
    var d := DraftOf(task);
    TaskForm(d.title, d.description, d.status, NormaliseAssignee(task.assignedTo))
  }

  /** The default-assignee update run when the employee list arrives:
      only if the form was unassigned when the effect started (`captured`)
      and there is at least one employee; even then a value chosen in the
      meantime (`current`) wins over the first employee. */
  function DefaultAssignee(captured: Assignee, current: Assignee, emps: seq<Employee>): (r: Assignee)
    ensures AssigneeTruthy(captured) || emps == [] ==> r == current
    ensures AssigneeTruthy(current) ==> r == current
    ensures !AssigneeTruthy(captured) && emps != [] && !AssigneeTruthy(current) ==> r == ById(emps[0].id)
  {
    if !AssigneeTruthy(captured) && |emps| > 0 then
      (if AssigneeTruthy(current) then current else ById(emps[0].id))
    else current
  }

  /** In the edit view the task's answer replaces the whole form, so if
      it comes last the form is the task's. If it comes first and names an
      assignee, the employee list's default does not override it: the
      form is the task's in both orders. */
  lemma EditLoadOrderIrrelevant(captured: Assignee, task: Task, emps: seq<Employee>)
    requires AssigneeTruthy(task.assignedTo)
    ensures var loaded := FormOfTask(task);
            loaded.(assignedTo := DefaultAssignee(captured, loaded.assignedTo, emps)) == loaded
  {
    NormaliseAssigneeKeepsOwner(task.assignedTo);
  }

  /** A task with no assignee, answering before the employee list, is
      given the first employee; answering after it, it keeps no
      assignee. */
  lemma EditLoadOrderMatters(task: Task, emps: seq<Employee>)
    requires !AssigneeTruthy(task.assignedTo) && emps != []
    ensures DefaultAssignee(ById(""), FormOfTask(task).assignedTo, emps) == ById(emps[0].id)
    ensures !AssigneeTruthy(FormOfTask(task).assignedTo)
  {
    NormaliseAssigneeKeepsOwner(task.assignedTo);
  }

  /** Delete is offered only when editing an existing task, to an
      admin: never on the add form, never to a visitor, and only to a
      session that may view both the editor and the task list it returns
      to. */
  function DeleteShown(id: Option<string>, user: Option<User>): (b: bool)
    ensures b ==> Truthy(id) && AppRoutes.MayView(user, AppRoutes.TaskEditor(id))
                  && AppRoutes.MayView(user, AppRoutes.TasksPage)
    ensures id.None? || user.None? ==> !b
    ensures IsAdmin(user) ==> (b <==> Truthy(id))
  {
    Truthy(id) && IsAdmin(user)
  }

  /** Since the route table renders the editor only for admins, and an
      `/edit-task/:id` path always carries a non-empty id, the Delete
      button appears exactly on the edit form and never on the add
      form. */
  lemma DeleteShownExactlyWhenEditing(user: Option<User>, path: string, id: Option<string>)
    requires AppRoutes.Route(false, user, path) == AppRoutes.Render(AppRoutes.TaskEditor(id))
    ensures DeleteShown(id, user) <==> id.Some?
    ensures id.Some? ==> path == AppRoutes.EditPrefix + id.value
    ensures id.None? ==> path == "/add-task"
  {
    var l := AppRoutes.Classify(path);
    assert AppRoutes.PathOf(l) == path;
  }

  /** One text field of the form. */
  datatype FormField = TitleField | DescriptionField | StatusField

  /** The page's form, its options, and the requests, events and
      navigations it has produced. `id` is the route's `:id`, missing on
      `/add-task`. */
  class TaskEditorView {
    const id: Option<string>
    var formData: TaskForm
    var options: seq<SelectOption>
    var requests: seq<Request>
    var events: seq<UpdateEvent>
    var navigations: seq<string>

    constructor (id: Option<string>)
      ensures this.id == id && formData == TaskForm("", "", StatusPending, ById(""))
      ensures options == [] && requests == [] && events == [] && navigations == []
    {
      this.id := id;
      formData := TaskForm("", "", StatusPending, ById(""));
      options := [];
      requests := [];
      events := [];
      navigations := [];
    }

    /** Save is disabled while a request is in flight and while no
        employee is chosen: with a plain id it is enabled exactly when
        the id is non-empty, and a populated assignee object enables it
        even when its `_id` is missing. */
    function SaveEnabled(loading: bool): (b: bool)
      reads this
      ensures b ==> !loading && !formData.assignedTo.Unassigned? && formData.assignedTo != ById("")
      ensures !loading && formData.assignedTo.ById? ==> (b <==> formData.assignedTo.id != "")
      ensures !loading && formData.assignedTo.Populated? ==> b
    {
      !loading && AssigneeTruthy(formData.assignedTo)
    }

    /** The effect's requests: the employee list, and the task itself
        when there is an id. */
    method Mount()
      modifies this
      ensures requests == old(requests) + [Request(Get, "/employees", NoBody)]
                          + (if Truthy(id) then [Request(Get, "/tasks/" + id.value, NoBody)] else [])
      ensures formData == old(formData) && options == old(options)
      ensures events == old(events) && navigations == old(navigations)
    {
      requests := requests + [Request(Get, "/employees", NoBody)];
      if Truthy(id) {
        requests := requests + [Request(Get, "/tasks/" + id.value, NoBody)];
      }
    }

    /** The employee list answering: the options are replaced, and on
        success the default assignee is applied against the form value the
        effect captured. */
    method EmployeesLoaded(captured: Assignee, outcome: Response<seq<Employee>>)
      modifies this
      ensures options == OptionsFor(outcome)
      ensures outcome.Ok? ==>
                formData == old(formData).(assignedTo := DefaultAssignee(captured, old(formData).assignedTo,
                                                                         if outcome.data.Some? then outcome.data.value else []))
      ensures outcome.Failed? ==> formData == old(formData)
      ensures requests == old(requests) && events == old(events) && navigations == old(navigations)
    {
      options := OptionsFor(outcome);
      if outcome.Ok? {
        var emps := if outcome.data.Some? then outcome.data.value else [];
        formData := formData.(assignedTo := DefaultAssignee(captured, formData.assignedTo, emps));
      }
    }

    /** The task answering: a task replaces the whole form; a missing task
        or a failure changes nothing. */
    method TaskLoaded(outcome: Response<Task>)
      modifies this
      ensures outcome.Ok? && outcome.data.Some? ==> formData == FormOfTask(outcome.data.value)
      ensures !(outcome.Ok? && outcome.data.Some?) ==> formData == old(formData)
      ensures options == old(options) && requests == old(requests)
      ensures events == old(events) && navigations == old(navigations)
    {
      if outcome.Ok? && outcome.data.Some? {
        formData := FormOfTask(outcome.data.value);
      }
    }

    /** Typing in the title or description, or choosing a status. */
    method EditField(field: FormField, value: string)
      modifies this
      ensures field == TitleField ==> formData == old(formData).(title := value)
      ensures field == DescriptionField ==> formData == old(formData).(description := value)
      ensures field == StatusField ==> formData == old(formData).(status := value)
      ensures options == old(options) && requests == old(requests)
      ensures events == old(events) && navigations == old(navigations)
    {
      match field {
        case TitleField => formData := formData.(title := value);
        case DescriptionField => formData := formData.(description := value);
        case StatusField => formData := formData.(status := value);
      }
    }

    /** Choosing an option of the "Assigned To" select; Save is then
        enabled exactly when a real employee was chosen. */
    method ChooseAssignee(value: string)
      modifies this
      ensures formData == old(formData).(assignedTo := ById(value))
      ensures SaveEnabled(false) <==> value != ""
      ensures options == old(options) && requests == old(requests)
      ensures events == old(events) && navigations == old(navigations)
    {
      formData := formData.(assignedTo := ById(value));
    }

    /** `handleSubmit`: PUT to the task when there is an id, POST a new one
        otherwise; on success emit the matching event and go to `/tasks`;
        on failure only the request happened. */
    method Submit(ok: bool)
      modifies this
      ensures Truthy(id) ==> requests == old(requests) + [Request(Put, "/tasks/" + id.value, TaskBody(formData))]
      ensures !Truthy(id) ==> requests == old(requests) + [Request(Post, "/tasks", TaskBody(formData))]
      ensures events == old(events) + (if !ok then []
                                       else if Truthy(id) then [UpdateEvent(TasksScope, Updated, id)]
                                       else [UpdateEvent(TasksScope, Created, None)])
      ensures navigations == old(navigations) + (if ok then ["/tasks"] else [])
      ensures formData == old(formData) && options == old(options)
    {
      if Truthy(id) {
        requests := requests + [Request(Put, "/tasks/" + id.value, TaskBody(formData))];
        if ok {
          events := events + [UpdateEvent(TasksScope, Updated, id)];
        }
      } else {
        requests := requests + [Request(Post, "/tasks", TaskBody(formData))];
        if ok {
          events := events + [UpdateEvent(TasksScope, Created, None)];
        }
      }
      if ok {
        navigations := navigations + ["/tasks"];
      }
    }

    /** `handleDelete`: nothing without an id or without confirmation;
        then DELETE, and on success emit `{tasks, deleted, id}` and go to
        `/tasks`. */
    method DeleteCurrent(confirmed: bool, ok: bool)
      modifies this
      ensures !(Truthy(id) && confirmed) ==> requests == old(requests)
      ensures Truthy(id) && confirmed ==> requests == old(requests) + [Request(Delete, "/tasks/" + id.value, NoBody)]
      ensures events == old(events) + (if Truthy(id) && confirmed && ok then [UpdateEvent(TasksScope, Deleted, id)] else [])
      ensures navigations == old(navigations) + (if Truthy(id) && confirmed && ok then ["/tasks"] else [])
      ensures formData == old(formData) && options == old(options)
    {
      if !Truthy(id) {
        return;
      }
      if !confirmed {
        return;
      }
      requests := requests + [Request(Delete, "/tasks/" + id.value, NoBody)];
      if ok {
        events := events + [UpdateEvent(TasksScope, Deleted, id)];
        navigations := navigations + ["/tasks"];
      }
    }
  }
}
