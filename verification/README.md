# Employee Tracker client: session, routing and page logic in Dafny

This project models the logic under the views of a small React client. The client tracks employees and the tasks assigned to them. The model covers:

- **Session store** (`auth.dfy`, module `AuthContext`). It models the `authReducer` of `src/contexts/AuthContext.jsx`, with its actions LOGIN, LOGOUT, SET_LOADING and unknown. It also models the two process-wide values the reducer writes: the persisted token and the default `Authorization` header. The class `AuthStore` holds `state`, `storedToken` and `authHeader`. Its `ValidateSession` method is the startup effect that checks a persisted token against `GET /auth/me`.
- **Route table** (`routes.dfy`, module `AppRoutes`). It is a pure function of `loading`, the user (and their role) and the path. It yields a loading screen, a rendered page or a redirect.
- **Navigation bar** (`navbar.dfy`, module `NavbarView`). It covers the entries shown per session, the `open` flag of the collapsible menu, and `handleLogout`.
- **Task statistics** (`stats.dfy`, module `TaskStats`). It is shared by the dashboard and the employees page and covers:
  - the rule for when a task belongs to an employee;
  - per-status counts;
  - the completion rate;
  - the stable sort by task count;
  - the employee filter;
  - per-employee cards.
- **Pages.** Each is a class whose methods change its state and append to logs of the requests it issues, the `dataUpdated` events it emits and the paths it navigates to:
  - Dashboard (`dashboard.dfy`);
  - Tasks (`tasks.dfy`);
  - Employees (`employees.dfy`);
  - Add/Edit Task (`add_task.dfy`).
- **Shared entities** (`common.dfy`). These are users, employees, tasks, update events, requests and query parameters.

Request outcomes, `confirm()` answers and the identity call's answer are parameters of the methods. Query parameters are ordered key/value lists. JavaScript truthiness is spelled out: `null`, `undefined` and `""` are falsy, and an object is truthy.

Where the code and its written description differ, the model follows the code:

- The startup validation runs again whenever the state's token changes, not only once at start-up. `ValidateSession` can be called in any state.
- LOGIN with a missing token writes the text "undefined" into storage and the header "Bearer undefined" (`LoginWithoutToken`). A missing token is `None`, which stands for both `undefined` and `null`; the model writes it as "undefined", the value a payload without a `token` field gives. A `null` token would be written as "null" and sent as "Bearer null".
- The task list would send two `assignedTo` values for a `user`-role session with an employee filter (`DuplicateAssignedTo`). The running application never does: the route table renders the list only to admins (`RenderedOnlyForAdmins`), and the page has no control that sets its employee filter (`src/pages/Tasks.jsx:76`).
- The employees page's listener reloads on every `dataUpdated` event, its own included (`src/pages/Employees.jsx:113`). Each successful mutation on that page therefore loads the lists twice: once from the handler (the `LoadRequests` its methods record) and once from the listener.
- The dashboard's `if (!mounted) return` (`src/pages/Dashboard.jsx:58`) can never fire, because `run()` is called right after `mounted` is set. `DashboardView.Run`'s unmounted branch is reachable only by calling `Unmount` first.
- On the task list, a `null` answer to the list request replaces the list with `null` (`tasks` is an `Option`). The dashboard and the employees page use `res || []` instead.
- In the editor, a task with no assignee gets the first employee only if its answer arrives before the employee list's (`EditLoadOrderMatters`).

## Model

Five predicates are the model's vocabulary. They carry no contract of their own; the contracts below are stated with them:

- `Common.Truthy`: JavaScript truthiness of a possibly missing string (`src/pages/Employees.jsx:94`).
- `Common.AssigneeTruthy`: the same for an `assignedTo` value (`src/pages/AddTask.jsx:94`).
- `Common.IsAdmin`: `user && user.role === 'admin'` (`src/App.jsx:31`).
- `Common.IsUserRole`: `user && user.role === 'user'` (`src/pages/Tasks.jsx:44`).
- `EmployeesPage.FieldOf`: one of the four fields the inline editor changes (`src/pages/Employees.jsx:192-195`).

| member | source | states |
|---|---|---|
| Common.OrElse | src/pages/Employees.jsx:94 | `s or fallback`: the string when it is truthy, the fallback otherwise |
| Common.DraftOf | src/pages/Employees.jsx:92-95 | a missing or empty title or description becomes `''`; a missing or empty status becomes `pending`; truthy fields are kept |
| Common.ParamText | src/pages/Dashboard.jsx:41-43 | a parameter's text is as long as its key, one `=` and its value together |
| Common.ParamTextLayout | src/pages/Dashboard.jsx:41-43 | the text is the key, then `=`, then the value; when the key holds no `=`, the first `=` of the text ends the key |
| Common.QueryString | src/pages/Dashboard.jsx:45 | the joined query is empty exactly when there are no parameters; one parameter renders as itself |
| Common.FilterParams | src/pages/Dashboard.jsx:41-43 | at most two parameters, and none exactly when both filters are empty |
| Common.FilterParamsSpec | src/pages/Dashboard.jsx:41-43 | `status` is present iff the status filter is non-empty and `assignedTo` iff the employee filter is; each carries its filter's value; status comes first; no other key |
| AuthContext.TokenText | src/contexts/AuthContext.jsx:14-15 | a present token is written unchanged; a missing one as "undefined", itself a truthy token when read back |
| AuthContext.Bearer | src/contexts/AuthContext.jsx:15 | the header is exactly `Bearer `, then the token unchanged |
| AuthContext.Reduce | src/contexts/AuthContext.jsx:11-26 | LOGIN takes user and token from the payload and LOGOUT clears both, each ending loading; SET_LOADING changes `loading` alone; any other action returns the state unchanged |
| AuthContext.Step | src/contexts/AuthContext.jsx:11-26 | the state is the reducer's; LOGIN persists its token as text and sets the header to carry it; LOGOUT removes both; other actions write neither; a well-formed dispatch keeps storage and header in sync with the state |
| AuthContext.LoginAgrees | src/contexts/AuthContext.jsx:13-16 | LOGIN sets user and token from the payload and clears loading; it stores that token and sets the header to `Bearer` + token, so state, storage and header agree |
| AuthContext.LoginWithoutToken | src/contexts/AuthContext.jsx:14-16 | LOGIN without a token stores "undefined" while the state's token is missing, so storage and state disagree |
| AuthContext.LogoutClears | src/contexts/AuthContext.jsx:17-20 | LOGOUT yields no user, no token, not loading, no stored token and no header |
| AuthContext.SetLoadingOnlyLoading | src/contexts/AuthContext.jsx:21-22 | SET_LOADING changes only `loading`; storage and header are untouched |
| AuthContext.UnknownIsNoOp | src/contexts/AuthContext.jsx:23-24 | an unknown action changes neither state nor storage nor header |
| AuthContext.LoginLogoutIdempotent | src/contexts/AuthContext.jsx:13-20 | the result of LOGIN (same payload) or LOGOUT does not depend on the prior session, so applying it twice equals applying it once |
| AuthContext.CoherentAfterLoginLogout | src/contexts/AuthContext.jsx:16-20 | after LOGOUT, or LOGIN with both user and token, a user is present iff a token is |
| AuthContext.InSyncPreserved | src/contexts/AuthContext.jsx:11-26 | over any run of dispatches whose LOGINs carry tokens, storage and header keep agreeing with the state's token |
| AuthContext.LastLoginOrLogoutWins | src/contexts/AuthContext.jsx:13-20 | a run ending in LOGIN or LOGOUT ends in the session that action alone produces |
| AuthContext.StartupAction | src/contexts/AuthContext.jsx:32-42 | with a truthy token: LOGIN with that same token and the profile on success, LOGOUT on failure; with none: SET_LOADING false; in every branch the reducer leaves `loading` false |
| AuthContext.StartupSettles | src/contexts/AuthContext.jsx:31-43 | validating a persisted token leaves the session in sync and not loading; a rejection removes the stored token |
| AuthContext.AuthStore.constructor | src/contexts/AuthContext.jsx:5-9 | initial state: no user, the persisted token, loading |
| AuthContext.AuthStore.Dispatch | src/contexts/AuthContext.jsx:11-26 | the store's state, storage and header become exactly the reducer step of the old ones; agreement is preserved |
| AuthContext.AuthStore.ValidateSession | src/contexts/AuthContext.jsx:31-43 | the header is set to the token before the identity call; login with the same token on success, logout on failure, SET_LOADING false without a token; loading ends false in every branch |
| AppRoutes.Classify | src/App.jsx:22-41 | the matched pattern stands for exactly the requested path; an edit id is one non-empty segment |
| AppRoutes.ClassifyPathOf | src/App.jsx:22-41 | each pattern's own path matches that pattern |
| AppRoutes.Landing | src/App.jsx:41 | the fallback target is the dashboard pattern when logged in and the root pattern otherwise, and its page is one the session may see |
| AppRoutes.MayView | src/App.jsx:22-41 | a visitor may see Home, Login and Register; a logged-in non-admin Home, Dashboard and Employees; an admin every page but Login |
| AppRoutes.Route | src/App.jsx:16-41 | loading shows only the loading screen, whatever the path; a rendered page is one the session may see; every redirect goes to `/dashboard` when logged in and `/` otherwise |
| AppRoutes.HomeAlwaysRenders | src/App.jsx:22-23 | `/` and `/about` render Home in every settled session |
| AppRoutes.LoginRoute | src/App.jsx:24 | `/login` renders Login when logged out and redirects to `/dashboard` when logged in |
| AppRoutes.RegisterRoute | src/App.jsx:25 | `/register` redirects a logged-in non-admin to `/dashboard` and renders Register for visitors and admins |
| AppRoutes.MemberRoutes | src/App.jsx:27-30 | with a user, `/dashboard` renders the dashboard and `/employees` the employees page; without one, both redirect to `/` |
| AppRoutes.AdminRoutes | src/App.jsx:31-41 | for an admin, `/tasks` renders the task list, `/add-task` an empty editor and `/edit-task/:id` the editor for that id; any other session is redirected to its landing path, which is `/dashboard` for a `user`-role session |
| AppRoutes.UnmatchedRoute | src/App.jsx:41 | an unmatched path redirects to `/dashboard` when logged in, else to `/` |
| AppRoutes.NoRedirectChains | src/App.jsx:24-41 | every redirect target renders a page directly: no chains, no loops |
| AppRoutes.PolicyIsReachable | src/App.jsx:22-41 | every page the access policy allows is rendered by some path |
| NavbarView.Items | src/components/common/Navbar.jsx:19-53 | every link shown for a session renders a page in the route table for that session; About and the brand link are always shown |
| NavbarView.MemberLinks | src/components/common/Navbar.jsx:33-34 | Dashboard and Employees links iff a user is logged in; the label is "Add Employees" for admins, "Employees" otherwise |
| NavbarView.EditTasksLink | src/components/common/Navbar.jsx:35-37 | the "Edit Tasks" link to `/tasks` iff the role is admin |
| NavbarView.AccountEntries | src/components/common/Navbar.jsx:43-53 | Login and Register iff no user; the `username (role)` badge and the Logout button iff a user |
| NavbarView.Navbar.constructor | src/components/common/Navbar.jsx:8 | the menu starts closed |
| NavbarView.Navbar.Toggle | src/components/common/Navbar.jsx:25 | the hamburger flips `open` |
| NavbarView.Navbar.FollowLink | src/components/common/Navbar.jsx:19-51 | a link click closes the menu and navigates to its target |
| NavbarView.Navbar.LogoutClicked | src/components/common/Navbar.jsx:10-14 | logout closes the menu, steps the store by LOGOUT, then navigates to `/login`, which the logged-out session renders |
| Common.Owns | src/pages/Dashboard.jsx:155 | the populated object's `_id` or the raw id equals the employee id; a missing assignee belongs to nobody; an assignee owned by a non-empty id is truthy |
| TaskStats.Belongs | src/pages/Employees.jsx:153 | a task belongs to at most one employee id, and an unassigned task to none |
| TaskStats.TasksOf | src/pages/Dashboard.jsx:155 | the tasks that belong to the employee (by raw id or populated object id), each as often as in the input; no other task |
| TaskStats.CountStatus | src/pages/Dashboard.jsx:100-114 | a status count is at most the number of tasks |
| TaskStats.CountStatusAppend | src/pages/Dashboard.jsx:100-114 | counts add up over concatenation |
| TaskStats.StatusCountsPartition | src/pages/Dashboard.jsx:93-114 | completed + in-progress + pending (+ others) equals the total, so the three never exceed it |
| TaskStats.CompletionRate | src/pages/Dashboard.jsx:121 | 0 with no tasks; otherwise 100·completed/total rounded half up; always in 0..100 |
| TaskStats.RoundedPercent | src/pages/Dashboard.jsx:121 | the integer nearest to 100c/n with halves rounded up, within 0..100 |
| TaskStats.RoundedPercentBounds | src/pages/Dashboard.jsx:121 | the rounding bracket and the 0 and 100 end points of `(200c+n)/(2n)` |
| TaskStats.MatchCount | src/pages/Dashboard.jsx:148-149 | the sort key counts at most the employee's tasks, and all of them when the status filter is empty |
| TaskStats.Insert | src/pages/Dashboard.jsx:147-152 | inserting into a list ordered by key keeps it ordered and adds exactly that element |
| TaskStats.SortBy | src/pages/Dashboard.jsx:152 | the sorted copy is a permutation ordered by non-increasing key |
| TaskStats.WithKeyInsert | src/pages/Dashboard.jsx:152 | insertion keeps the relative order of equal-key elements |
| TaskStats.SortByStable | src/pages/Dashboard.jsx:152 | the sort is stable: employees with equal counts keep their original order |
| TaskStats.SortByCount | src/pages/Dashboard.jsx:147-152 | the per-employee list is a permutation of the employees, ordered by non-increasing count of matching tasks |
| TaskStats.SortByCountStable | src/pages/Dashboard.jsx:147-152 | employees with equal counts keep the order of the employee list |
| TaskStats.FilterEmployee | src/pages/Dashboard.jsx:153 | with a filter, the employees with that id, each as often as listed, and no other; with none, the list is unchanged |
| TaskStats.ShownEmployees | src/pages/Dashboard.jsx:147-153 | the shown cards are the employees passing the employee filter, each as often as listed; with no filter they are ordered by non-increasing task count; with one, only that id appears |
| TaskStats.EmployeeCard | src/pages/Dashboard.jsx:155-177 | Total counts the employee's tasks; Completed, In Progress and Pending count those of them with each status; the three sum to at most Total (the employees page, `src/pages/Employees.jsx:152-185`, shows the same four counts by the same rule) |
| TaskStats.KeyVersusTotal | src/pages/Dashboard.jsx:148-165 | the sort key never exceeds the card's Total, and equals it when the status filter is empty |
| TaskStats.KeyIsStatusCount | src/pages/Dashboard.jsx:148-177 | with a status filter the sort key is the card's count for that status |
| DashboardPage.DashboardTasksUrl | src/pages/Dashboard.jsx:45-46 | `/tasks` with no `?` exactly when there are no parameters |
| DashboardPage.BuildTasksQuery | src/pages/Dashboard.jsx:39-46 | the pushed query equals the filter parameter list; the URL is exactly `/tasks` iff both filters are empty |
| DashboardPage.DashboardUrlBoth | src/pages/Dashboard.jsx:41-46 | both filters give `/tasks?status=S&assignedTo=E` |
| DashboardPage.DashboardUrlStatusOnly | src/pages/Dashboard.jsx:42-46 | only a status filter gives `/tasks?status=S` |
| DashboardPage.DashboardUrlEmployeeOnly | src/pages/Dashboard.jsx:43-46 | only an employee filter gives `/tasks?assignedTo=E` |
| DashboardPage.StatCards | src/pages/Dashboard.jsx:93-121 | Total is the task count; Completed, In Progress and Pending are the per-status counts and sum to at most Total; the rate is the completion rate, in 0..100 and 0 with no tasks |
| DashboardPage.DashboardView.constructor | src/pages/Dashboard.jsx:10-14 | empty summary, lists and filters |
| DashboardPage.DashboardView.LoadSummary | src/pages/Dashboard.jsx:20-28 | a failed or empty summary call is swallowed and the previous summary kept |
| DashboardPage.DashboardView.LoadEmployees | src/pages/Dashboard.jsx:30-37 | the answer (`null` as `[]`) on success; unchanged on failure |
| DashboardPage.DashboardView.LoadTasks | src/pages/Dashboard.jsx:39-51 | requests the filtered URL; the answer (`null` as `[]`) on success; unchanged on failure |
| DashboardPage.DashboardView.Run | src/pages/Dashboard.jsx:53-66 | after unmount nothing is requested; otherwise summary, employees and tasks are requested in that order and applied |
| DashboardPage.DashboardView.OnDataUpdated | src/pages/Dashboard.jsx:69 | an update reloads only the tasks, and only while mounted |
| DashboardPage.DashboardView.SetStatusFilter | src/pages/Dashboard.jsx:76-78 | sets the status filter only |
| DashboardPage.DashboardView.SetEmployeeFilter | src/pages/Dashboard.jsx:135 | sets the employee filter only |
| DashboardPage.DashboardView.Unmount | src/pages/Dashboard.jsx:72 | clears the mounted flag only |
| TasksPage.RoleParams | src/pages/Tasks.jsx:44 | a `user`-role session adds exactly one `assignedTo` with its own id; other sessions add nothing |
| TasksPage.TasksUrl | src/pages/Tasks.jsx:40-45 | `?` and the parameters are added only when at least one exists; otherwise the URL is `/tasks` |
| TasksPage.BuildParams | src/pages/Tasks.jsx:39-45 | the parameters are the filter parameters followed by the role parameter; `/tasks` exactly when no parameter applies |
| TasksPage.ParamsValues | src/pages/Tasks.jsx:41-44 | under `status` the server reads the status filter iff set; under `assignedTo` the employee filter iff set, then the user's own id for role `user` |
| Common.ValuesOfAppend | src/pages/Tasks.jsx:41-44 | the values of a key distribute over appended parameters |
| TasksPage.SameUrlAsDashboard | src/pages/Tasks.jsx:39-45 | for sessions not of role `user` the task list asks for the same parameters, in the same order, as the dashboard under the same filters (compared before escaping) |
| TasksPage.DuplicateAssignedTo | src/pages/Tasks.jsx:43-44 | the builder, given a `user`-role session and an employee filter, would send two `assignedTo` values: the filter's, then its own id |
| TasksPage.RenderedOnlyForAdmins | src/App.jsx:31-35 | wherever the route table renders the task list the session is an admin's, so no role parameter is added and the URL matches the dashboard's |
| TasksPage.TasksView.constructor | src/pages/Tasks.jsx:12-15 | empty list and filters; mounted |
| TasksPage.TasksView.FetchTasks | src/pages/Tasks.jsx:39-47 | requests the URL built by the rules; the answer is applied only while mounted; a failure is ignored |
| TasksPage.TasksView.Unmount | src/pages/Tasks.jsx:56 | answers after unmount are no longer applied |
| TasksPage.TasksView.SetFilterStatus | src/pages/Tasks.jsx:74 | sets the status filter only |
| TasksPage.TasksView.DeleteTask | src/pages/Tasks.jsx:19-35 | declining issues nothing and emits nothing; after a successful DELETE it reloads with the same URL rules and emits `{tasks, deleted, taskId}`; after a failure only the DELETE happened |
| EmployeesPage.TaskFor | src/pages/Employees.jsx:65 | the payload is the draft with `assignedTo` set to the employee's id |
| EmployeesPage.FormOf | src/pages/Employees.jsx:191 | the update body carries the card's current name, email, department and status, and no id |
| EmployeesPage.WithField | src/pages/Employees.jsx:192-195 | the edited field reads back the new value; id and other fields are kept |
| EmployeesPage.EmployeesView.constructor | src/pages/Employees.jsx:10-31 | empty lists, forms at their defaults (status `active`, `pending`), nothing open |
| EmployeesPage.EmployeesView.LoadResolved | src/pages/Employees.jsx:15-23 | both lists are replaced (a `null` answer as `[]`) when both calls succeed; otherwise neither |
| EmployeesPage.EmployeesView.ToggleAddEmployee | src/pages/Employees.jsx:129 | flips only the creation form's visibility |
| EmployeesPage.EmployeesView.StartEditing | src/pages/Employees.jsx:164 | opens the inline editor of that employee only |
| EmployeesPage.EmployeesView.OpenAddTaskFor | src/pages/Employees.jsx:251 | opens the task form of that employee only |
| EmployeesPage.EmployeesView.CreateEmployee | src/pages/Employees.jsx:33-42 | POST the form; on success reset it to its defaults, hide it, reload and emit one `{employees, created}` with no id; on failure only the request |
| EmployeesPage.EmployeesView.UpdateEmployee | src/pages/Employees.jsx:44-51 | PUT; on success close the editor, reload and emit one `{employees, updated, id}`; on failure only the request |
| EmployeesPage.EmployeesView.SubmitEmployeeEdit | src/pages/Employees.jsx:191 | updates with the card's current fields and closes the editor whether or not the update succeeds; no other form state changes |
| EmployeesPage.EmployeesView.EditEmployeeField | src/pages/Employees.jsx:192-195 | the employee in the list is changed in that one field |
| EmployeesPage.EmployeesView.DeleteEmployee | src/pages/Employees.jsx:53-60 | declining issues nothing; on success reload and emit one `{employees, deleted, id}` |
| EmployeesPage.EmployeesView.CreateTaskFor | src/pages/Employees.jsx:62-72 | POST the draft assigned to the employee; on success reset the draft (`pending`), hide the form, reload and emit one `{tasks, created}` |
| EmployeesPage.EmployeesView.UpdateTaskStatus | src/pages/Employees.jsx:74-81 | PUT the status; on success reload and emit one `{tasks, updated, taskId}` |
| EmployeesPage.EmployeesView.DeleteTask | src/pages/Employees.jsx:83-90 | declining issues nothing; on success reload and emit one `{tasks, deleted, taskId}` |
| EmployeesPage.EmployeesView.OpenEditTask | src/pages/Employees.jsx:92-95 | edits that task, starting from its fields with the defaults |
| EmployeesPage.IdText | src/pages/Employees.jsx:100 | a present id is written unchanged into the URL; a `null` one as "null" |
| EmployeesPage.EmployeesView.SaveEditTask | src/pages/Employees.jsx:97-106 | PUT the edited fields; on success stop editing, reset the draft, reload and emit one `{tasks, updated, id}` with the edited task's id |
| AddTaskPage.EmployeeOptions | src/pages/AddTask.jsx:21 | one `{_id, name}` option per employee, in order |
| AddTaskPage.OptionsFor | src/pages/AddTask.jsx:20-25 | the placeholder `('', 'Select employee')`, then one option per employee; on failure only `('', 'No employees')` |
| AddTaskPage.NormaliseAssignee | src/pages/AddTask.jsx:30 | an object with a truthy `_id` gives that id; a missing value gives `''`; anything else is kept |
| AddTaskPage.NormaliseAssigneeKeepsOwner | src/pages/AddTask.jsx:30 | normalising keeps which employee owns the task and whether Save counts it as assigned; it is idempotent |
| AddTaskPage.NormaliseToOwner | src/pages/AddTask.jsx:30 | a task owned by a (non-empty) employee id normalises to that plain id |
| AddTaskPage.FormOfTask | src/pages/AddTask.jsx:28-31 | a loaded task fills the form with the shared defaults and the normalised assignee |
| AddTaskPage.DefaultAssignee | src/pages/AddTask.jsx:24 | an empty assignee becomes the first employee's id when there is one; a non-empty value is kept |
| AddTaskPage.EditLoadOrderIrrelevant | src/pages/AddTask.jsx:18-34 | a loaded task that names an assignee keeps it whichever request answers first |
| AddTaskPage.EditLoadOrderMatters | src/pages/AddTask.jsx:18-34 | a loaded task with no assignee gets the first employee only when its answer comes first |
| AddTaskPage.DeleteShown | src/pages/AddTask.jsx:95-97 | Delete is offered only with an id and only to a session that may view the editor and the task list; to an admin exactly when there is an id |
| AddTaskPage.DeleteShownExactlyWhenEditing | src/pages/AddTask.jsx:95 | wherever the route table renders the editor, Delete is shown exactly in edit mode |
| AddTaskPage.TaskEditorView.constructor | src/pages/AddTask.jsx:11-16 | the form starts empty with status `pending` and no assignee |
| AddTaskPage.TaskEditorView.SaveEnabled | src/pages/AddTask.jsx:94 | Save is disabled while loading and with no assignee; with a plain id it is enabled iff the id is non-empty; a populated assignee object enables it even without an `_id` |
| AddTaskPage.TaskEditorView.Mount | src/pages/AddTask.jsx:18-34 | requests the employee list, and the task when there is an id |
| AddTaskPage.TaskEditorView.EmployeesLoaded | src/pages/AddTask.jsx:20-25 | the options become the list's options; on success the default assignee is applied |
| AddTaskPage.TaskEditorView.TaskLoaded | src/pages/AddTask.jsx:27-32 | a loaded task replaces the form; a missing task or a failure changes nothing |
| AddTaskPage.TaskEditorView.EditField | src/pages/AddTask.jsx:71-86 | a title, description or status edit changes that field only |
| AddTaskPage.TaskEditorView.ChooseAssignee | src/pages/AddTask.jsx:87-94 | choosing an option sets the assignee; Save (when idle) is enabled iff a non-empty id was chosen |
| AddTaskPage.TaskEditorView.Submit | src/pages/AddTask.jsx:36-51 | with an id, PUT and `{tasks, updated, id}`; without one, POST and `{tasks, created}`; navigation to `/tasks` only after success |
| AddTaskPage.TaskEditorView.DeleteCurrent | src/pages/AddTask.jsx:53-64 | nothing without an id or confirmation; on success DELETE, `{tasks, deleted, id}`, then navigation to `/tasks` |

## Left out

- The server-sent-events subscription in `src/contexts/AuthContext.jsx` (lines 46-63). It is network I/O plus a JSON parser.
- The browser `dataUpdated` event bus itself. Emitted events are recorded in each view's `events` log. The listeners' re-fetches are the `OnDataUpdated` and `FetchTasks` methods, called explicitly.
- `src/hooks/useApi.js` and `services/api.js`. These cover the `loading`/`error` flags, the error messages, and the header value the API client starts with, which is a constructor parameter of `AuthStore`. `services/api.js` is not part of this model.
- The Login, Register and Home pages, and the presentational components (Button, Input, Select, Card, LoadingSpinner). Layout, CSS class strings and `alert()` are left out too.
- Percent-encoding by `encodeURIComponent` and `URLSearchParams`. Parameters are ordered key/value pairs rendered as `key=value` joined by `&`. The two encoders differ (`URLSearchParams` writes a space as `+` and also escapes `! ' ( ) ~`; `encodeURIComponent` writes `%20`), so the dashboard and the task list can send different bytes for the same parameters.
- `Math.round` on floating point at `src/pages/Dashboard.jsx:121`. It is modelled as integer rounding half up, `(200c + n) / (2n)`; floating-point rounding error near a half is not modelled.
- Interleaving of overlapping requests, including `Promise.all` in `src/pages/Employees.jsx:17`. Each request outcome is a parameter, and responses apply in the order the methods are called. The employees page's unused `mounted` flag and its listener are left out; the listener's second reload is described above.
- The Tasks page's per-effect `mounted` flag (`src/pages/Tasks.jsx:38,56`). Each run of the effect has its own flag, so a late answer for a filter that has since changed is dropped. `TasksView` has a single `mounted` flag, cleared only by `Unmount`; a late answer for an old filter is not modelled.
- Dashboard's unused `handleAddTask`. The Tasks page's "Add Task" and "Edit" navigation buttons are left out too, since the editor routes are covered by `AppRoutes.AdminRoutes`.
- The contents of `utils/constants.js` (`STATUS_OPTIONS`) and `authContextInstance.js`. `utils/constants.js` is not part of this model.
- Route matching is exact. React Router's tolerance of a trailing slash and of letter case is not modelled.

