/** The employees page of src/pages/Employees.jsx: its mutation handlers
    (each issues one request and, only on success, resets its form,
    reloads and emits one update event), the inline editors, and the
    per-employee task counts. */
module EmployeesPage {
  import opened Common
  import opened TaskStats

  const EmptyEmployee := EmployeeForm("", "", "", "active")
  const EmptyDraft := TaskDraft("", "", StatusPending)

  /** The two requests `load()` issues together. */
  const LoadRequests := [Request(Get, "/employees", NoBody), Request(Get, "/tasks", NoBody)]

  /** `{ ...newTask, assignedTo: empId }`: the draft, assigned to the
      employee whose card the form sits on. */
  function TaskFor(draft: TaskDraft, empId: string): (t: TaskForm)
    ensures t.assignedTo == ById(empId) && AssigneeTruthy(t.assignedTo) == (empId != "")
    ensures t.title == draft.title && t.description == draft.description && t.status == draft.status
  {
    TaskForm(draft.title, draft.description, draft.status, ById(empId))
  }

  /** One field of an employee, as the inline editor changes it. */
  datatype EmployeeField = NameField | EmailField | DepartmentField | StatusField

  function FieldOf(e: Employee, field: EmployeeField): string {
    match field
    case NameField => e.name
    case EmailField => e.email
    case DepartmentField => e.department
    case StatusField => e.status
  }

  /** `emp[field] = value`: the edited field reads back the new value,
      and the id and every other field are kept. */
  function WithField(e: Employee, field: EmployeeField, value: string): (r: Employee)
    ensures r.id == e.id
    ensures FieldOf(r, field) == value
    ensures forall f :: f != field ==> FieldOf(r, f) == FieldOf(e, f)
  {
    match field
    case NameField => e.(name := value)
    case EmailField => e.(email := value)
    case DepartmentField => e.(department := value)
    case StatusField => e.(status := value)
  }

  /** The body the inline editor sends: the card's four current fields,
      without the id. */
  function FormOf(e: Employee): (f: EmployeeForm)
    ensures f.name == FieldOf(e, NameField) && f.email == FieldOf(e, EmailField)
    ensures f.department == FieldOf(e, DepartmentField) && f.status == FieldOf(e, StatusField)
  {
    EmployeeForm(e.name, e.email, e.department, e.status)
  }

  /** The page's form and visibility state: the creation form and
      whether it is shown, the employee being edited inline, the card
      whose task form is open and that form's draft, and the task being
      edited inline with its draft. */
  datatype FormState = FormState(showAddEmployee: bool, newEmployee: EmployeeForm, editing: Option<string>,
                                 showAddTaskFor: Option<string>, newTask: TaskDraft,
                                 editingTaskId: Option<string>, editingTaskData: TaskDraft)

  /** The page's state, the requests it has issued and the events it has
      emitted. */
  class EmployeesView {
    var employees: seq<Employee>
    var tasks: seq<Task>
    var showAddEmployee: bool
    var newEmployee: EmployeeForm
    var editing: Option<string>
    var showAddTaskFor: Option<string>
    var newTask: TaskDraft
    var editingTaskId: Option<string>
    var editingTaskData: TaskDraft
    var requests: seq<Request>
    var events: seq<UpdateEvent>

    /** The form and visibility state, which a failed request leaves
        alone. */
    function Forms(): FormState
      reads this
    {
      FormState(showAddEmployee, newEmployee, editing, showAddTaskFor, newTask, editingTaskId, editingTaskData)
    }

    constructor ()
      ensures employees == [] && tasks == [] && requests == [] && events == []
      ensures Forms() == FormState(false, EmptyEmployee, None, None, EmptyDraft, None, EmptyDraft)
    {
      employees := [];
      tasks := [];
      showAddEmployee := false;
      newEmployee := EmptyEmployee;
      editing := None;
      showAddTaskFor := None;
      newTask := EmptyDraft;
      editingTaskId := None;
      editingTaskData := EmptyDraft;
      requests := [];
      events := [];
    }

    /** `load()` resolving: both lists replace the old ones (`|| []`) when
        both calls succeed; if either fails, neither does. */
    method LoadResolved(emps: Response<seq<Employee>>, tks: Response<seq<Task>>)
      modifies this
      ensures emps.Ok? && tks.Ok? ==>
                employees == (if emps.data.Some? then emps.data.value else [])
                && tasks == (if tks.data.Some? then tks.data.value else [])
      ensures !(emps.Ok? && tks.Ok?) ==> employees == old(employees) && tasks == old(tasks)
      ensures Forms() == old(Forms()) && requests == old(requests) && events == old(events)
    {
      if emps.Ok? && tks.Ok? {
        employees := if emps.data.Some? then emps.data.value else [];
        tasks := if tks.data.Some? then tks.data.value else [];
      }
    }

    /** The "+ Add Employee" button shows or hides the creation form. */
    method ToggleAddEmployee()
      modifies this
      ensures Forms() == old(Forms()).(showAddEmployee := !old(showAddEmployee))
      ensures employees == old(employees) && tasks == old(tasks) && requests == old(requests) && events == old(events)
    {
      showAddEmployee := !showAddEmployee;
    }

    /** The "Edit" button on an employee card opens its inline editor. */
    method StartEditing(id: string)
      modifies this
      ensures Forms() == old(Forms()).(editing := Some(id))
      ensures employees == old(employees) && tasks == old(tasks) && requests == old(requests) && events == old(events)
    {
      editing := Some(id);
    }

    /** The "+ Add Task" button on an employee card opens that card's task
        form (at most one card's form is open at a time). */
    method OpenAddTaskFor(empId: string)
      modifies this
      ensures Forms() == old(Forms()).(showAddTaskFor := Some(empId))
      ensures employees == old(employees) && tasks == old(tasks) && requests == old(requests) && events == old(events)
    {
      showAddTaskFor := Some(empId);
    }

    /** `handleCreateEmployee`: POST the form; on success reset and hide
        it, reload, and emit `{employees, created}`. */
    method CreateEmployee(ok: bool)
      modifies this
      ensures ok ==> requests == old(requests) + [Request(Post, "/employees", EmployeeBody(old(newEmployee)))] + LoadRequests
                     && events == old(events) + [UpdateEvent(EmployeesScope, Created, None)]
                     && Forms() == old(Forms()).(showAddEmployee := false, newEmployee := EmptyEmployee)
      ensures !ok ==> requests == old(requests) + [Request(Post, "/employees", EmployeeBody(old(newEmployee)))]
                      && events == old(events) && Forms() == old(Forms())
      ensures employees == old(employees) && tasks == old(tasks)
    {
      requests := requests + [Request(Post, "/employees", EmployeeBody(newEmployee))];
      if ok {
        newEmployee := EmptyEmployee;
        showAddEmployee := false;
        requests := requests + LoadRequests;
        events := events + [UpdateEvent(EmployeesScope, Created, None)];
      }
    }

    /** `handleUpdateEmployee(id, data)`: PUT; on success close the editor,
        reload and emit `{employees, updated, id}`. */
    method UpdateEmployee(id: string, data: EmployeeForm, ok: bool)
      modifies this
      ensures ok ==> requests == old(requests) + [Request(Put, "/employees/" + id, EmployeeBody(data))] + LoadRequests
                     && events == old(events) + [UpdateEvent(EmployeesScope, Updated, Some(id))]
                     && Forms() == old(Forms()).(editing := None)
      ensures !ok ==> requests == old(requests) + [Request(Put, "/employees/" + id, EmployeeBody(data))]
                      && events == old(events) && Forms() == old(Forms())
      ensures employees == old(employees) && tasks == old(tasks)
    {
      requests := requests + [Request(Put, "/employees/" + id, EmployeeBody(data))];
      if ok {
        editing := None;
        requests := requests + LoadRequests;
        events := events + [UpdateEvent(EmployeesScope, Updated, Some(id))];
      }
    }

    /** The inline editor's submit: start the update with the card's
        current fields, then close the editor at once, whether or not
        the update will succeed. */
    method SubmitEmployeeEdit(index: nat, ok: bool)
      requires index < |employees|
      modifies this
      ensures Forms() == old(Forms()).(editing := None)
      ensures events == old(events) + (if ok then [UpdateEvent(EmployeesScope, Updated, Some(old(employees)[index].id))] else [])
      ensures requests == old(requests) + [Request(Put, "/employees/" + old(employees)[index].id, EmployeeBody(FormOf(old(employees)[index])))]
                          + (if ok then LoadRequests else [])
      ensures employees == old(employees) && tasks == old(tasks)
    {
      var emp := employees[index];
      UpdateEmployee(emp.id, FormOf(emp), ok);
      editing := None;
    }

    /** Typing in the inline editor changes the employee in the list in
        place and re-renders with a copy of the list. */
    method EditEmployeeField(index: nat, field: EmployeeField, value: string)
      requires index < |employees|
      modifies this
      ensures employees == old(employees)[index := WithField(old(employees)[index], field, value)]
      ensures tasks == old(tasks) && Forms() == old(Forms()) && requests == old(requests) && events == old(events)
    {
      employees := employees[index := WithField(employees[index], field, value)];
    }

    /** `handleDeleteEmployee(id)`: nothing unless confirmed; then DELETE,
        and on success reload and emit `{employees, deleted, id}`. */
    method DeleteEmployee(id: string, confirmed: bool, ok: bool)
      modifies this
      ensures !confirmed ==> requests == old(requests)
      ensures confirmed && ok ==> requests == old(requests) + [Request(Delete, "/employees/" + id, NoBody)] + LoadRequests
      ensures confirmed && !ok ==> requests == old(requests) + [Request(Delete, "/employees/" + id, NoBody)]
      ensures events == old(events) + (if confirmed && ok then [UpdateEvent(EmployeesScope, Deleted, Some(id))] else [])
      ensures Forms() == old(Forms()) && employees == old(employees) && tasks == old(tasks)
    {
      if !confirmed {
        return;
      }
      requests := requests + [Request(Delete, "/employees/" + id, NoBody)];
      if ok {
        requests := requests + LoadRequests;
        events := events + [UpdateEvent(EmployeesScope, Deleted, Some(id))];
      }
    }

    /** `handleCreateTaskFor(empId)`: POST the draft assigned to `empId`;
        on success reset and hide the form, reload and emit
        `{tasks, created}`. */
    method CreateTaskFor(empId: string, ok: bool)
      modifies this
      ensures ok ==> requests == old(requests) + [Request(Post, "/tasks", TaskBody(TaskFor(old(newTask), empId)))] + LoadRequests
                     && events == old(events) + [UpdateEvent(TasksScope, Created, None)]
                     && Forms() == old(Forms()).(showAddTaskFor := None, newTask := EmptyDraft)
      ensures !ok ==> requests == old(requests) + [Request(Post, "/tasks", TaskBody(TaskFor(old(newTask), empId)))]
                      && events == old(events) && Forms() == old(Forms())
      ensures employees == old(employees) && tasks == old(tasks)
    {
      var payload := TaskFor(newTask, empId);
      requests := requests + [Request(Post, "/tasks", TaskBody(payload))];
      if ok {
        newTask := EmptyDraft;
        showAddTaskFor := None;
        requests := requests + LoadRequests;
        events := events + [UpdateEvent(TasksScope, Created, None)];
      }
    }

    /** `handleUpdateTask(taskId, { status })`, from a card's status
        select: PUT; on success reload and emit `{tasks, updated, id}`. */
    method UpdateTaskStatus(taskId: string, status: string, ok: bool)
      modifies this
      ensures requests == old(requests) + [Request(Put, "/tasks/" + taskId, StatusBody(status))] + (if ok then LoadRequests else [])
      ensures events == old(events) + (if ok then [UpdateEvent(TasksScope, Updated, Some(taskId))] else [])
      ensures Forms() == old(Forms()) && employees == old(employees) && tasks == old(tasks)
    {
      requests := requests + [Request(Put, "/tasks/" + taskId, StatusBody(status))];
      if ok {
        requests := requests + LoadRequests;
        events := events + [UpdateEvent(TasksScope, Updated, Some(taskId))];
      }
    }

    /** `handleDeleteTask(taskId)`: nothing unless confirmed; then DELETE,
        and on success reload and emit `{tasks, deleted, id}`. */
    method DeleteTask(taskId: string, confirmed: bool, ok: bool)
      modifies this
      ensures !confirmed ==> requests == old(requests)
      ensures confirmed ==> requests == old(requests) + [Request(Delete, "/tasks/" + taskId, NoBody)] + (if ok then LoadRequests else [])
      ensures events == old(events) + (if confirmed && ok then [UpdateEvent(TasksScope, Deleted, Some(taskId))] else [])
      ensures Forms() == old(Forms()) && employees == old(employees) && tasks == old(tasks)
    {
      if !confirmed {
        return;
      }
      requests := requests + [Request(Delete, "/tasks/" + taskId, NoBody)];
      if ok {
        requests := requests + LoadRequests;
        events := events + [UpdateEvent(TasksScope, Deleted, Some(taskId))];
      }
    }

    /** `openEditTask(task)`: edit that task, starting from its fields with
        the defaults filled in. */
    method OpenEditTask(task: Task)
      modifies this
      ensures Forms() == old(Forms()).(editingTaskId := Some(task.id), editingTaskData := DraftOf(task))
      ensures requests == old(requests) && events == old(events)
      ensures employees == old(employees) && tasks == old(tasks)
    {
      editingTaskId := Some(task.id);
      editingTaskData := DraftOf(task);
    }

    /** `handleSaveEditTask`: PUT the edited fields to the task being
        edited; on success stop editing, reset the draft, reload and emit
        `{tasks, updated, id}` with that task's id. */
    method SaveEditTask(ok: bool)
      modifies this
      ensures ok ==> requests == old(requests) + [Request(Put, "/tasks/" + IdText(old(editingTaskId)), DraftBody(old(editingTaskData)))] + LoadRequests
                     && events == old(events) + [UpdateEvent(TasksScope, Updated, old(editingTaskId))]
                     && Forms() == old(Forms()).(editingTaskId := None, editingTaskData := EmptyDraft)
      ensures !ok ==> requests == old(requests) + [Request(Put, "/tasks/" + IdText(old(editingTaskId)), DraftBody(old(editingTaskData)))]
                      && events == old(events) && Forms() == old(Forms())
      ensures employees == old(employees) && tasks == old(tasks)
    {
      var id := editingTaskId;
      requests := requests + [Request(Put, "/tasks/" + IdText(id), DraftBody(editingTaskData))];
      if ok {
        editingTaskId := None;
        editingTaskData := EmptyDraft;
        requests := requests + LoadRequests;
        events := events + [UpdateEvent(TasksScope, Updated, id)];
      }
    }
  }

  /** How an id reads inside a URL template: a present id as it is, a
      `null` one as the text "null". */
  function IdText(id: Option<string>): (r: string)
    ensures id.Some? ==> r == id.value
    ensures id.None? ==> r == "null"
  {
    match id
    case Some(v) => v
    case None => "null"
  }
}
