/** The task statistics computed in memory by src/pages/Dashboard.jsx and
    src/pages/Employees.jsx: which tasks belong to an employee, the
    per-status counts, the completion rate, the employee list ordered by
    task count and the employee filter. */
module TaskStats {
  import opened Common

  /** A task belongs to an employee when its `assignedTo` is that
      employee's id, or an object whose `_id` is that id; it then belongs
      to no other employee id, and an unassigned task belongs to no one. */
  function Belongs(t: Task, empId: string): (b: bool)
    ensures b ==> forall other :: Owns(t.assignedTo, other) ==> other == empId
    ensures t.assignedTo.Unassigned? ==> !b
  {
    Owns(t.assignedTo, empId)
  }

  /** `tasks.filter(t => t.assignedTo?._id === emp._id || t.assignedTo === emp._id)` */
  function TasksOf(tasks: seq<Task>, empId: string): (r: seq<Task>)
    ensures |r| <= |tasks|
    ensures forall t :: multiset(r)[t] == if Belongs(t, empId) then multiset(tasks)[t] else 0
    ensures forall t :: t in r <==> t in tasks && Belongs(t, empId)
    ensures forall i :: 0 <= i < |r| ==> Belongs(r[i], empId)
  {
    if tasks == [] then []
    else
      assert tasks == [tasks[0]] + tasks[1..];
      (if Belongs(tasks[0], empId) then [tasks[0]] else []) + TasksOf(tasks[1..], empId)
  }

  /** `tasks.filter(t => t.status === status).length` */
  function CountStatus(tasks: seq<Task>, status: string): (n: nat)
    ensures n <= |tasks|
  {
    if tasks == [] then 0
    else (if tasks[0].status == Some(status) then 1 else 0) + CountStatus(tasks[1..], status)
  }

  /** Counting over a concatenation adds up. */
  lemma {:induction false} CountStatusAppend(a: seq<Task>, b: seq<Task>, status: string)
    ensures CountStatus(a + b, status) == CountStatus(a, status) + CountStatus(b, status)
    decreases |a|
  {
    if a != [] {
      assert (a + b)[0] == a[0] && (a + b)[1..] == a[1..] + b;
      CountStatusAppend(a[1..], b, status);
    } else {
      assert a + b == b;
    }
  }

  /** Tasks whose status is none of the three known ones. */
  function CountOther(tasks: seq<Task>): nat {
    if tasks == [] then 0
    else (if tasks[0].status in {Some(StatusCompleted), Some(StatusInProgress), Some(StatusPending)} then 0 else 1)
         + CountOther(tasks[1..])
  }

  /** The three status cards and the tasks with any other (or no) status
      partition the list; so the three cards never add up to more than
      the total. */
  lemma {:induction false} StatusCountsPartition(tasks: seq<Task>)
    ensures CountStatus(tasks, StatusCompleted) + CountStatus(tasks, StatusInProgress)
            + CountStatus(tasks, StatusPending) + CountOther(tasks) == |tasks|
    ensures CountStatus(tasks, StatusCompleted) + CountStatus(tasks, StatusInProgress)
            + CountStatus(tasks, StatusPending) <= |tasks|
  {
    if tasks != [] {
      StatusCountsPartition(tasks[1..]);
    }
  }

  /** The completion-rate card: 0 without tasks, otherwise the percentage
      of completed tasks rounded half up, `Math.round(100 * c / n)`
      computed exactly as `(200 * c + n) / (2 * n)`. */
  function CompletionRate(tasks: seq<Task>): (r: nat)
    ensures r <= 100
    ensures |tasks| == 0 ==> r == 0
    ensures |tasks| > 0 ==>
              2 * |tasks| * r <= 200 * CountStatus(tasks, StatusCompleted) + |tasks|
              < 2 * |tasks| * (r + 1)
    ensures CountStatus(tasks, StatusCompleted) == |tasks| > 0 ==> r == 100
    ensures CountStatus(tasks, StatusCompleted) == 0 ==> r == 0
  {
    if |tasks| > 0 then RoundedPercent(CountStatus(tasks, StatusCompleted), |tasks|) else 0
  }

  /** `round(100 * c / n)`, rounding halves up, for `c` of `n`. */
  function RoundedPercent(c: nat, n: nat): (r: nat)
    requires 0 < n && c <= n
    ensures r <= 100
    ensures 2 * n * r <= 200 * c + n < 2 * n * (r + 1)
    ensures c == n ==> r == 100
    ensures c == 0 ==> r == 0
  {
    RoundedPercentBounds(c, n);
    (200 * c + n) / (2 * n)
  }

  lemma RoundedPercentBounds(c: nat, n: nat)
    requires 0 < n && c <= n
    ensures (200 * c + n) / (2 * n) <= 100
    ensures c == n ==> (200 * c + n) / (2 * n) == 100
    ensures c == 0 ==> (200 * c + n) / (2 * n) == 0
    ensures 2 * n * ((200 * c + n) / (2 * n)) <= 200 * c + n < 2 * n * ((200 * c + n) / (2 * n) + 1)
  {
    var r := (200 * c + n) / (2 * n);
    DivBounds(200 * c + n, 2 * n);
    assert 200 * c + n < 2 * n * 101 by {
      assert 200 * c <= 200 * n;
    }
    if r > 100 {
      MulMonotone(2 * n, 101, r);
      assert false;
    }
    if c == n && r < 100 {
      MulMonotone(2 * n, r + 1, 100);
      assert false;
    }
    if c == 0 && r > 0 {
      MulMonotone(2 * n, 1, r);
      assert false;
    }
  }

  lemma DivBounds(x: nat, d: nat)
    requires d > 0
    ensures d * (x / d) <= x < d * (x / d + 1)
  {
  }

  lemma MulMonotone(k: nat, a: nat, b: nat)
    requires a <= b
    ensures k * a <= k * b
  {
  }

  /** The sort key of `byCount`: the employee's tasks that match the
      status filter (all of them when the filter is empty). */
  function MatchCount(tasks: seq<Task>, empId: string, filterStatus: string): (n: nat)
    ensures n <= |TasksOf(tasks, empId)|
    ensures filterStatus == "" ==> n == |TasksOf(tasks, empId)|
  {
    if tasks == [] then 0
    else
      (if Belongs(tasks[0], empId) && (filterStatus == "" || tasks[0].status == Some(filterStatus)) then 1 else 0)
      + MatchCount(tasks[1..], empId, filterStatus)
  }

  /** The key of an employee under the dashboard's current tasks and
      status filter. */
  function Key(e: Employee, tasks: seq<Task>, filterStatus: string): nat {
    MatchCount(tasks, e.id, filterStatus)
  }

  /** Ordered by non-increasing key. */
  predicate SortedByKey(es: seq<Employee>, key: Employee -> nat) {
    forall i, j :: 0 <= i < j < |es| ==> key(es[i]) >= key(es[j])
  }

  /** The employees whose key is `k`, in their order. */
  function WithKey(es: seq<Employee>, k: nat, key: Employee -> nat): seq<Employee> {
    if es == [] then []
    else (if key(es[0]) == k then [es[0]] else []) + WithKey(es[1..], k, key)
  }

  /** Prepending an employee whose key is at least the head's keeps the
      order. */
  lemma SortedCons(x: Employee, s: seq<Employee>, key: Employee -> nat)
    requires SortedByKey(s, key)
    requires s != [] ==> key(x) >= key(s[0])
    ensures SortedByKey([x] + s, key)
  {
    var r := [x] + s;
    forall i, j | 0 <= i < j < |r|
      ensures key(r[i]) >= key(r[j])
    {
      if i == 0 && j > 1 {
        assert r[j] == s[j - 1];
        assert key(s[0]) >= key(s[j - 1]);
      }
    }
  }

  /** Inserts `e` before the first employee whose key is not larger, so
      that `e` stays ahead of the equal keys that followed it. */
  function Insert(e: Employee, s: seq<Employee>, key: Employee -> nat): (r: seq<Employee>)
    requires SortedByKey(s, key)
    ensures multiset(r) == multiset(s) + multiset{e}
    ensures |r| == |s| + 1
    ensures SortedByKey(r, key)
    ensures r[0] == e || (s != [] && r[0] == s[0])
    decreases |s|
  {
    if s == [] || key(e) >= key(s[0]) then
      SortedCons(e, s, key);
      [e] + s
    else
      SortedTail(s, key);
      var rest := Insert(e, s[1..], key);
      assert key(s[0]) >= key(rest[0]) by {
        if rest[0] != e {
          assert rest[0] == s[1..][0] == s[1];
        }
      }
      SortedCons(s[0], rest, key);
      ConsMultiset(s[0], rest, s[1..], e);
      assert [s[0]] + s[1..] == s;
      [s[0]] + rest
  }

  /** Putting the same employee in front of two lists keeps the
      difference of their multisets. */
  lemma ConsMultiset(x: Employee, r: seq<Employee>, s: seq<Employee>, e: Employee)
    requires multiset(r) == multiset(s) + multiset{e}
    ensures multiset([x] + r) == multiset([x] + s) + multiset{e}
  {
  }

  /** The tail of a list ordered by key is ordered by key. */
  lemma SortedTail(s: seq<Employee>, key: Employee -> nat)
    requires s != [] && SortedByKey(s, key)
    ensures SortedByKey(s[1..], key)
  {
    forall i, j | 0 <= i < j < |s| - 1 ensures key(s[1..][i]) >= key(s[1..][j]) {
      assert s[1..][i] == s[i + 1] && s[1..][j] == s[j + 1];
    }
  }

  /** A stable sort by non-increasing key. */
  function SortBy(es: seq<Employee>, key: Employee -> nat): (r: seq<Employee>)
    ensures multiset(r) == multiset(es)
    ensures |r| == |es|
    ensures SortedByKey(r, key)
  {
    if es == [] then []
    else
      assert es == [es[0]] + es[1..];
      Insert(es[0], SortBy(es[1..], key), key)
  }

  lemma {:induction false} WithKeyInsert(e: Employee, s: seq<Employee>, k: nat, key: Employee -> nat)
    requires SortedByKey(s, key)
    ensures WithKey(Insert(e, s, key), k, key) == (if key(e) == k then [e] else []) + WithKey(s, k, key)
    decreases |s|
  {
    if s == [] || key(e) >= key(s[0]) {
      WithKeyCons(e, s, k, key);
    } else {
      SortedTail(s, key);
      var rest := Insert(e, s[1..], key);
      assert Insert(e, s, key) == [s[0]] + rest;
      WithKeyInsert(e, s[1..], k, key);
      WithKeyCons(s[0], rest, k, key);
      var head := if key(s[0]) == k then [s[0]] else [];
      var mid := if key(e) == k then [e] else [];
      assert WithKey(s, k, key) == head + WithKey(s[1..], k, key);
      var tail := WithKey(s[1..], k, key);
      if key(e) == k {
        assert head == [] && [] + tail == tail;
      } else {
        assert mid == [] && [] + tail == tail && [] + (head + tail) == head + tail;
      }
    }
  }

  /** The employees with key `k` of a list with one more employee in
      front. */
  lemma WithKeyCons(x: Employee, s: seq<Employee>, k: nat, key: Employee -> nat)
    ensures WithKey([x] + s, k, key) == (if key(x) == k then [x] else []) + WithKey(s, k, key)
  {
    var r := [x] + s;
    assert r[0] == x && r[1..] == s;
  }

  /** The sort is stable: among employees with equal keys the original
      order is kept. */
  lemma {:induction false} SortByStable(es: seq<Employee>, k: nat, key: Employee -> nat)
    ensures WithKey(SortBy(es, key), k, key) == WithKey(es, k, key)
    decreases |es|
  {
    if es != [] {
      SortByStable(es[1..], k, key);
      WithKeyInsert(es[0], SortBy(es[1..], key), k, key);
    }
  }

  /** `[...employees].sort(byCount)`: the employees stably sorted by
      non-increasing key, on a copy (the employees' own order is a value
      and is left as it was). */
  function SortByCount(es: seq<Employee>, tasks: seq<Task>, filterStatus: string): (r: seq<Employee>)
    ensures multiset(r) == multiset(es)
    ensures forall i, j :: 0 <= i < j < |r| ==> Key(r[i], tasks, filterStatus) >= Key(r[j], tasks, filterStatus)
  {
    SortBy(es, e => Key(e, tasks, filterStatus))
  }

  /** Employees with the same count keep their order. */
  lemma SortByCountStable(es: seq<Employee>, k: nat, tasks: seq<Task>, filterStatus: string)
    ensures WithKey(SortByCount(es, tasks, filterStatus), k, e => Key(e, tasks, filterStatus))
            == WithKey(es, k, e => Key(e, tasks, filterStatus))
  {
    SortByStable(es, k, e => Key(e, tasks, filterStatus));
  }

  /** `shown.filter(emp => emp._id === filterEmployee)` when an employee
      filter is set; the list unchanged when it is empty. */
  function FilterEmployee(es: seq<Employee>, filterEmployee: string): (r: seq<Employee>)
    ensures filterEmployee == "" ==> r == es
    ensures filterEmployee != "" ==> forall i :: 0 <= i < |r| ==> r[i].id == filterEmployee
    ensures forall e :: multiset(r)[e] == if filterEmployee == "" || e.id == filterEmployee then multiset(es)[e] else 0
    ensures forall e :: e in r <==> e in es && (filterEmployee == "" || e.id == filterEmployee)
    ensures |r| <= |es|
  {
    if filterEmployee == "" || es == [] then es
    else
      assert es == [es[0]] + es[1..];
      (if es[0].id == filterEmployee then [es[0]] else []) + FilterEmployee(es[1..], filterEmployee)
  }

  /** The per-employee cards of the dashboard, in order: exactly the
      employees that pass the employee filter. With no employee filter
      every employee is shown, each as often as in the list, ordered by
      non-increasing key; with one, every card shown has that id. */
  function ShownEmployees(es: seq<Employee>, tasks: seq<Task>, filterStatus: string, filterEmployee: string)
    : (r: seq<Employee>)
    ensures forall e :: multiset(r)[e] == if filterEmployee == "" || e.id == filterEmployee then multiset(es)[e] else 0
    ensures forall e :: e in r <==> e in es && (filterEmployee == "" || e.id == filterEmployee)
    ensures filterEmployee == "" ==>
              multiset(r) == multiset(es)
              && forall i, j :: 0 <= i < j < |r| ==> Key(r[i], tasks, filterStatus) >= Key(r[j], tasks, filterStatus)
    ensures filterEmployee != "" ==> forall i :: 0 <= i < |r| ==> r[i].id == filterEmployee
  {
    var sorted := SortByCount(es, tasks, filterStatus);
    SameElements(sorted, es);
    FilterEmployee(sorted, filterEmployee)
  }

  /** Two lists with the same multiset hold the same elements. */
  lemma SameElements(a: seq<Employee>, b: seq<Employee>)
    requires multiset(a) == multiset(b)
    ensures forall e :: e in a <==> e in b
  {
    forall e ensures e in a <==> e in b {
      assert e in a <==> e in multiset(a);
      assert e in b <==> e in multiset(b);
    }
  }

  /** The counts on one employee card. */
  datatype CardStats = CardStats(total: nat, completed: nat, inProgress: nat, pending: nat)

  /** Total counts every task of the employee, whatever the status
      filter; the other three count that employee's tasks per status. */
  function EmployeeCard(tasks: seq<Task>, empId: string): (c: CardStats)
    ensures c.total == |TasksOf(tasks, empId)|
    ensures c.completed == CountStatus(TasksOf(tasks, empId), StatusCompleted)
    ensures c.inProgress == CountStatus(TasksOf(tasks, empId), StatusInProgress)
    ensures c.pending == CountStatus(TasksOf(tasks, empId), StatusPending)
    ensures c.completed + c.inProgress + c.pending <= c.total
  {
    var mine := TasksOf(tasks, empId);
    StatusCountsPartition(mine);
    CardStats(|mine|, CountStatus(mine, StatusCompleted), CountStatus(mine, StatusInProgress),
              CountStatus(mine, StatusPending))
  }

  /** The card's Total ignores the status filter while the sort key obeys
      it: the key never exceeds the Total and equals it when no status
      filter is set. */
  lemma KeyVersusTotal(e: Employee, tasks: seq<Task>, filterStatus: string)
    ensures Key(e, tasks, filterStatus) <= EmployeeCard(tasks, e.id).total
    ensures filterStatus == "" ==> Key(e, tasks, filterStatus) == EmployeeCard(tasks, e.id).total
  {
  }

  /** The key of an employee, under a status filter, counts their tasks
      with that status. */
  lemma {:induction false} KeyIsStatusCount(tasks: seq<Task>, empId: string, status: string)
    requires status != ""
    ensures MatchCount(tasks, empId, status) == CountStatus(TasksOf(tasks, empId), status)
    decreases |tasks|
  {
    if tasks != [] {
      KeyIsStatusCount(tasks[1..], empId, status);
      var head := if Belongs(tasks[0], empId) then [tasks[0]] else [];
      CountStatusAppend(head, TasksOf(tasks[1..], empId), status);
    }
  }
}
