/**
 * The task store (MyApp/ViewModels/TaskViewModel.swift): an ordered list of tasks,
 * the current filter selection, and the persistence slot the list is written to.
 * The list operations the store performs are specified first as functions on
 * sequences; the class at the end applies them to its fields.
 */
module ViewModels {
  import opened Wrappers
  import opened Models

  /** Which tasks the filtered view shows. */
  datatype FilterOption = All | Active | Completed

  /** The string raw value of a filter option, used as its label. */
  function FilterRawValue(f: FilterOption): (r: string)
    ensures r == "All" <==> f == All
    ensures r == "Active" <==> f == Active
    ensures r == "Completed" <==> f == Completed
  {
    match f
    case All => "All"
    case Active => "Active"
    case Completed => "Completed"
  }

  /** Distinct filter options have distinct raw values. */
  lemma FilterRawValueInjective(f: FilterOption, g: FilterOption)
    requires FilterRawValue(f) == FilterRawValue(g)
    ensures f == g
  {
  }

  // ---------------------------------------------------------------------------
  // Selecting tasks (Swift's `filter` and `removeAll(where:)`)
  // ---------------------------------------------------------------------------

  predicate IsOpen(t: Task) { !t.isCompleted }

  predicate IsDone(t: Task) { t.isCompleted }

  /** The tasks of `s` that satisfy `p`, in their order in `s`. */
  function Filter(s: seq<Task>, p: Task -> bool): (r: seq<Task>)
    ensures |r| <= |s|
    ensures forall t :: multiset(r)[t] == if p(t) then multiset(s)[t] else 0
    ensures forall t :: t in r <==> t in s && p(t)
  {
    if s == [] then []
    else
      assert s == [s[0]] + s[1..];
      (if p(s[0]) then [s[0]] else []) + Filter(s[1..], p)
  }

  /** Selection distributes over concatenation, so it keeps the relative order of what it keeps. */
  lemma {:induction false} FilterAppend(s1: seq<Task>, s2: seq<Task>, p: Task -> bool)
    ensures Filter(s1 + s2, p) == Filter(s1, p) + Filter(s2, p)
  {
    if s1 == [] {
      assert s1 + s2 == s2;
    } else {
      assert (s1 + s2)[1..] == s1[1..] + s2;
      FilterAppend(s1[1..], s2, p);
    }
  }

  /** Selecting with a predicate every task satisfies changes nothing. */
  lemma {:induction false} FilterAll(s: seq<Task>, p: Task -> bool)
    requires forall i :: 0 <= i < |s| ==> p(s[i])
    ensures Filter(s, p) == s
  {
    if s != [] {
      FilterAll(s[1..], p);
    }
  }

  /** Every task is either completed or open, so the two selections together have the length of the list. */
  lemma {:induction false} CountsPartition(s: seq<Task>)
    ensures |Filter(s, IsDone)| + |Filter(s, IsOpen)| == |s|
  {
    if s != [] {
      CountsPartition(s[1..]);
    }
  }

  /** The positions of `s` whose task satisfies `p`. */
  function Positions(s: seq<Task>, p: Task -> bool): set<nat>
  {
    set i: nat | i < |s| && p(s[i])
  }

  /** Appending a task adds its position exactly when it satisfies the predicate. */
  lemma PositionsSnoc(s: seq<Task>, x: Task, p: Task -> bool)
    ensures |Positions(s + [x], p)| == |Positions(s, p)| + (if p(x) then 1 else 0)
  {
    var before, after := Positions(s, p), Positions(s + [x], p);
    var m := |s|;
    assert m !in before;
    assert after == before + (if p(x) then {m} else {}) by {
      forall i: nat ensures i in after <==> i in before || (p(x) && i == m) {
        if i < m {
          assert (s + [x])[i] == s[i];
        }
      }
    }
  }

  /** Appending a task grows the selection by one exactly when the task satisfies the predicate. */
  lemma FilterSnoc(s: seq<Task>, x: Task, p: Task -> bool)
    ensures |Filter(s + [x], p)| == |Filter(s, p)| + (if p(x) then 1 else 0)
  {
    FilterAppend(s, [x], p);
    assert [x][1..] == [];
  }

  /** The selection has one task for each position of the list whose task satisfies the predicate. */
  lemma {:induction false} FilterCountsPositions(s: seq<Task>, p: Task -> bool)
    ensures |Filter(s, p)| == |Positions(s, p)|
  {
    if s != [] {
      var m := |s| - 1;
      assert s[..m] + [s[m]] == s;
      FilterCountsPositions(s[..m], p);
      FilterSnoc(s[..m], s[m], p);
      PositionsSnoc(s[..m], s[m], p);
    }
  }

  // ---------------------------------------------------------------------------
  // Looking a task up by id (Swift's `firstIndex(where: { $0.id == id })`)
  // ---------------------------------------------------------------------------

  /** The identifiers of `s`, position by position. */
  function Ids(s: seq<Task>): (r: seq<TaskId>)
    ensures |r| == |s| && forall i :: 0 <= i < |s| ==> r[i] == s[i].id
  {
    seq(|s|, i requires 0 <= i < |s| => s[i].id)
  }

  /** No two tasks of `s` share an identifier. */
  predicate UniqueIds(s: seq<Task>)
  {
    forall i, j :: 0 <= i < j < |s| ==> s[i].id != s[j].id
  }

  /** The first index of `s` holding a task with identifier `id`, if there is one. */
  function FirstIndex(s: seq<Task>, id: TaskId): (r: Option<nat>)
    ensures r.Some? ==> r.value < |s| && s[r.value].id == id
    ensures r.Some? ==> forall j :: 0 <= j < r.value ==> s[j].id != id
    ensures r.None? <==> forall j :: 0 <= j < |s| ==> s[j].id != id
  {
    if s == [] then None
    else if s[0].id == id then Some(0)
    else match FirstIndex(s[1..], id)
      case None => None
      case Some(k) => Some(k + 1)
  }

  /** The lookup depends on the identifiers alone. */
  lemma FirstIndexByIds(s: seq<Task>, u: seq<Task>, id: TaskId)
    requires Ids(s) == Ids(u)
    ensures FirstIndex(s, id) == FirstIndex(u, id)
  {
  }

  // ---------------------------------------------------------------------------
  // The list operations of the store
  // ---------------------------------------------------------------------------

  /**
   * `toggleTaskCompletion`: flip `isCompleted` of the first task with identifier `id`, and
   * change nothing else: not the length, the order, the identifiers, nor any other field or task.
   */
  function ToggleById(s: seq<Task>, id: TaskId): (r: seq<Task>)
    ensures |r| == |s| && Ids(r) == Ids(s)
    ensures FirstIndex(s, id).None? ==> r == s
    ensures forall k :: 0 <= k < |s| ==>
      if FirstIndex(s, id) == Some(k)
      then r[k].isCompleted == !s[k].isCompleted && r[k] == s[k].(isCompleted := r[k].isCompleted)
      else r[k] == s[k]
  {
    match FirstIndex(s, id)
    case None => s
    case Some(i) => s[i := s[i].(isCompleted := !s[i].isCompleted)]
  }

  /** Toggling the same task twice restores the list. */
  lemma ToggleTwice(s: seq<Task>, id: TaskId)
    ensures ToggleById(ToggleById(s, id), id) == s
  {
  }

  /**
   * `updateTask`: put `task` in place of the first task with the same identifier and touch no
   * other index; the identifiers, and so the position of every task, stay the same.
   */
  function ReplaceById(s: seq<Task>, task: Task): (r: seq<Task>)
    ensures |r| == |s| && Ids(r) == Ids(s)
    ensures FirstIndex(s, task.id).None? ==> r == s
    ensures forall k :: 0 <= k < |s| ==>
      r[k] == if FirstIndex(s, task.id) == Some(k) then task else s[k]
  {
    match FirstIndex(s, task.id)
    case None => s
    case Some(i) => s[i := task]
  }

  /** Updating with the same record twice is the same as updating once. */
  lemma ReplaceTwice(s: seq<Task>, task: Task)
    ensures ReplaceById(ReplaceById(s, task), task) == ReplaceById(s, task)
  {
  }

  /** `deleteTask`: remove every task with identifier `id`. */
  function RemoveById(s: seq<Task>, id: TaskId): (r: seq<Task>)
    ensures forall t :: t in r <==> t in s && t.id != id
  {
    Filter(s, (t: Task) => t.id != id)
  }

  /** When identifiers are unique, deleting a present task shortens the list by exactly one. */
  lemma {:induction false} RemoveByIdRemovesOne(s: seq<Task>, id: TaskId)
    requires UniqueIds(s)
    requires exists i :: 0 <= i < |s| && s[i].id == id
    ensures |RemoveById(s, id)| == |s| - 1
  {
    assert s == [s[0]] + s[1..];
    if s[0].id == id {
      FilterAll(s[1..], (t: Task) => t.id != id);
    } else {
      var i :| 0 <= i < |s| && s[i].id == id;
      assert s[1..][i - 1].id == id;
      RemoveByIdRemovesOne(s[1..], id);
    }
  }

  /** Deleting distributes over concatenation, so the other tasks keep their relative order. */
  lemma RemoveByIdKeepsOrder(s1: seq<Task>, s2: seq<Task>, id: TaskId)
    ensures RemoveById(s1 + s2, id) == RemoveById(s1, id) + RemoveById(s2, id)
  {
    FilterAppend(s1, s2, (t: Task) => t.id != id);
  }

  /** Deleting from a one-task list removes the task exactly when it has the identifier. */
  lemma RemoveByIdSingleton(t: Task, id: TaskId)
    ensures RemoveById([t], id) == if t.id == id then [] else [t]
  {
    assert [t][1..] == [];
  }

  /** In a list with unique identifiers, no later task shares the head's identifier. */
  lemma HeadIdNotInTail(s: seq<Task>)
    requires UniqueIds(s) && s != []
    ensures forall t :: t in s[1..] ==> t.id != s[0].id
  {
  }

  /** A task whose identifier no task of a list with unique identifiers has can head it. */
  lemma ConsUniqueIds(x: Task, s: seq<Task>)
    requires UniqueIds(s)
    requires forall t :: t in s ==> t.id != x.id
    ensures UniqueIds([x] + s)
  {
  }

  /** Selecting from a list with unique identifiers gives a list with unique identifiers. */
  lemma {:induction false} FilterKeepsUniqueIds(s: seq<Task>, p: Task -> bool)
    requires UniqueIds(s)
    ensures UniqueIds(Filter(s, p))
  {
    if s != [] {
      assert UniqueIds(s[1..]);
      FilterKeepsUniqueIds(s[1..], p);
      HeadIdNotInTail(s);
      if p(s[0]) {
        ConsUniqueIds(s[0], Filter(s[1..], p));
      }
    }
  }

  /** Deleting a task that is not in the list changes nothing. */
  lemma RemoveByIdAbsent(s: seq<Task>, id: TaskId)
    requires forall i :: 0 <= i < |s| ==> s[i].id != id
    ensures RemoveById(s, id) == s
  {
    FilterAll(s, (t: Task) => t.id != id);
  }

  /** `deleteCompletedTasks`: keep the open tasks, in their order. */
  function RemoveCompleted(s: seq<Task>): (r: seq<Task>)
    ensures forall t :: t in r ==> !t.isCompleted
    ensures forall t :: multiset(r)[t] == if t.isCompleted then 0 else multiset(s)[t]
  {
    Filter(s, IsOpen)
  }

  /** Deleting completed tasks distributes over concatenation, so open tasks keep their relative order. */
  lemma RemoveCompletedKeepsOrder(s1: seq<Task>, s2: seq<Task>)
    ensures RemoveCompleted(s1 + s2) == RemoveCompleted(s1) + RemoveCompleted(s2)
  {
    FilterAppend(s1, s2, IsOpen);
  }

  /** Deleting completed tasks from a one-task list removes the task exactly when it is completed. */
  lemma RemoveCompletedSingleton(t: Task)
    ensures RemoveCompleted([t]) == if t.isCompleted then [] else [t]
  {
    assert [t][1..] == [];
  }

  // ---------------------------------------------------------------------------
  // Ordering of the filtered view
  // ---------------------------------------------------------------------------

  /** The reference ordering of priorities: high above medium above low. */
  function Rank(p: Priority): nat
  {
    match p
    case Low => 0
    case Medium => 1
    case High => 2
  }

  /** The closure passed to `sorted(by:)`: whether `t1` must be placed before `t2`. */
  predicate AreInIncreasingOrder(t1: Task, t2: Task): (before: bool)
    ensures before <==>
      Rank(t1.priority) > Rank(t2.priority) ||
      (t1.priority == t2.priority && t1.createdAt > t2.createdAt)
  {
    if t1.priority != t2.priority then
      t1.priority == High || (t1.priority == Medium && t2.priority == Low)
    else
      t1.createdAt > t2.createdAt
  }

  /** The comparator is a strict weak ordering, as `sorted(by:)` demands of it. */
  lemma ComparatorIsStrictWeakOrder(a: Task, b: Task, c: Task)
    ensures !AreInIncreasingOrder(a, a)
    ensures AreInIncreasingOrder(a, b) && AreInIncreasingOrder(b, c) ==> AreInIncreasingOrder(a, c)
    ensures !AreInIncreasingOrder(a, b) && !AreInIncreasingOrder(b, c) ==> !AreInIncreasingOrder(a, c)
  {
  }

  /** No task is placed after one it must precede. */
  predicate Sorted(s: seq<Task>)
  {
    forall i, j :: 0 <= i < j < |s| ==> !AreInIncreasingOrder(s[j], s[i])
  }

  /** The intended order of the view: priority non-increasing, and newest first within a priority. */
  predicate ByPriorityThenNewest(s: seq<Task>)
  {
    forall i, j :: 0 <= i < j < |s| ==>
      Rank(s[i].priority) > Rank(s[j].priority) ||
      (s[i].priority == s[j].priority && s[i].createdAt >= s[j].createdAt)
  }

  /** Sorted by the comparator means ordered by priority, then newest first. */
  lemma {:induction false} SortedIffByPriorityThenNewest(s: seq<Task>)
    ensures Sorted(s) <==> ByPriorityThenNewest(s)
  {
  }

  /** A task that need not follow any task of a sorted list can head it. */
  lemma ConsSorted(y: Task, s: seq<Task>)
    requires Sorted(s)
    requires forall i :: 0 <= i < |s| ==> !AreInIncreasingOrder(s[i], y)
    ensures Sorted([y] + s)
  {
  }

  /** A task that need not follow the head of a sorted list need not follow any of it. */
  lemma NotAfterHead(x: Task, s: seq<Task>)
    requires Sorted(s) && s != [] && !AreInIncreasingOrder(s[0], x)
    ensures forall i :: 0 <= i < |s| ==> !AreInIncreasingOrder(s[i], x)
  {
  }

  /** Insert `x` into a sorted list before the first task that need not precede it. */
  function Insert(x: Task, s: seq<Task>): (r: seq<Task>)
    requires Sorted(s)
    ensures multiset(r) == multiset(s) + multiset{x}
    ensures Sorted(r)
  {
    if s == [] then [x]
    else if !AreInIncreasingOrder(s[0], x) then
      NotAfterHead(x, s);
      ConsSorted(x, s);
      [x] + s
    else
      assert s == [s[0]] + s[1..];
      var rest := Insert(x, s[1..]);
      InsertedFollowHead(x, s, rest);
      ConsSorted(s[0], rest);
      [s[0]] + rest
  }

  /** What is left after the head of a sorted list, with a task that must follow the head added, still follows the head. */
  lemma InsertedFollowHead(x: Task, s: seq<Task>, rest: seq<Task>)
    requires Sorted(s) && s != [] && AreInIncreasingOrder(s[0], x)
    requires multiset(rest) == multiset(s[1..]) + multiset{x}
    ensures forall i :: 0 <= i < |rest| ==> !AreInIncreasingOrder(rest[i], s[0])
  {
    forall i | 0 <= i < |rest| ensures !AreInIncreasingOrder(rest[i], s[0]) {
      var t := rest[i];
      assert t in multiset(rest);
      if t != x {
        assert t in multiset(s[1..]);
        var k :| 1 <= k < |s| && s[k] == t by {
          assert t in s[1..];
          var m :| 0 <= m < |s[1..]| && s[1..][m] == t;
          assert s[m + 1] == t;
        }
      } else {
        ComparatorIsStrictWeakOrder(s[0], x, s[0]);
      }
    }
  }

  /** The model of `sorted(by:)`: an insertion sort under the comparator. */
  function SortTasks(s: seq<Task>): (r: seq<Task>)
    ensures multiset(r) == multiset(s)
    ensures Sorted(r)
  {
    if s == [] then []
    else
      assert s == [s[0]] + s[1..];
      Insert(s[0], SortTasks(s[1..]))
  }

  /** Whether a task has priority `p` and creation time `c`: tasks the comparator cannot order among themselves. */
  function TiesWith(p: Priority, c: Timestamp): Task -> bool
  {
    (t: Task) => t.priority == p && t.createdAt == c
  }

  /** The tasks of `s` with priority `p` and creation time `c`, in their order in `s`. */
  function Ties(s: seq<Task>, p: Priority, c: Timestamp): seq<Task>
  {
    Filter(s, TiesWith(p, c))
  }

  /** Selecting from a one-task list keeps the task exactly when it satisfies the predicate. */
  lemma FilterSingleton(x: Task, q: Task -> bool)
    ensures Filter([x], q) == if q(x) then [x] else []
  {
    assert [x][1..] == [];
  }

  /** Of two sequences at least one of which is empty, either may come first. */
  lemma SwapEmpty(a: seq<Task>, b: seq<Task>, rest: seq<Task>)
    requires a == [] || b == []
    ensures a + (b + rest) == b + (a + rest)
  {
    if a == [] {
      assert a + (b + rest) == b + rest == b + (a + rest);
    } else {
      assert b + (a + rest) == a + rest == a + (b + rest);
    }
  }

  /**
   * Moving `x` behind `h` does not change a selection that cannot keep both: the step by which
   * insertion passes a task that must precede the inserted one.
   */
  lemma FilterPassesHead(h: Task, x: Task, t: seq<Task>, rest: seq<Task>, q: Task -> bool)
    requires !(q(h) && q(x))
    requires Filter(rest, q) == Filter([x] + t, q)
    ensures Filter([h] + rest, q) == Filter([x] + ([h] + t), q)
  {
    var fh, fx := Filter([h], q), Filter([x], q);
    FilterSingleton(x, q);
    FilterSingleton(h, q);
    FilterAppend([h], rest, q);
    FilterAppend([x], t, q);
    FilterAppend([x], [h] + t, q);
    FilterAppend([h], t, q);
    calc {
      Filter([h] + rest, q);
      fh + (fx + Filter(t, q));
      { SwapEmpty(fh, fx, Filter(t, q)); }
      fx + (fh + Filter(t, q));
      Filter([x] + ([h] + t), q);
    }
  }

  /** Inserting a task places it ahead of every task it ties with, so among ties it keeps its place as head. */
  lemma {:induction false} InsertKeepsTies(x: Task, s: seq<Task>, p: Priority, c: Timestamp)
    requires Sorted(s)
    ensures Ties(Insert(x, s), p, c) == Ties([x] + s, p, c)
  {
    if s != [] && AreInIncreasingOrder(s[0], x) {
      var h, t, q := s[0], s[1..], TiesWith(p, c);
      assert s == [h] + t;
      assert Sorted(t);
      var rest := Insert(x, t);
      assert Insert(x, s) == [h] + rest;
      InsertKeepsTies(x, t, p, c);
      assert !(q(h) && q(x)) by {
        assert h.createdAt > x.createdAt || h.priority != x.priority;
      }
      FilterPassesHead(h, x, t, rest, q);
    }
  }

  /**
   * The sort is stable: the tasks with any one priority and creation time, which the comparator
   * leaves unordered among themselves, come out in the order they went in.
   */
  lemma {:induction false} SortTasksIsStable(s: seq<Task>, p: Priority, c: Timestamp)
    ensures Ties(SortTasks(s), p, c) == Ties(s, p, c)
  {
    if s != [] {
      var q, h, t := TiesWith(p, c), s[0], s[1..];
      assert s == [h] + t;
      var sorted := SortTasks(t);
      assert SortTasks(s) == Insert(h, sorted);
      SortTasksIsStable(t, p, c);
      InsertKeepsTies(h, sorted, p, c);
      FilterAppend([h], sorted, q);
      FilterAppend([h], t, q);
    }
  }

  /** Two tasks come out in comparator order whatever order they came in. */
  lemma TwoTasksInComparatorOrder(first: Task, second: Task)
    requires AreInIncreasingOrder(first, second)
    ensures SortTasks([first, second]) == [first, second]
    ensures SortTasks([second, first]) == [first, second]
  {
  }

  // ---------------------------------------------------------------------------
  // The derived views
  // ---------------------------------------------------------------------------

  /** Whether the filter shows `t`. */
  predicate Shows(option: FilterOption, t: Task)
  {
    match option
    case All => true
    case Active => !t.isCompleted
    case Completed => t.isCompleted
  }

  /** The selection step of `filteredTasks`, before sorting. */
  function FilterTasks(s: seq<Task>, option: FilterOption): (r: seq<Task>)
    ensures forall t :: multiset(r)[t] == if Shows(option, t) then multiset(s)[t] else 0
  {
    match option
    case All => s
    case Active => Filter(s, IsOpen)
    case Completed => Filter(s, IsDone)
  }

  // ---------------------------------------------------------------------------
  // The store
  // ---------------------------------------------------------------------------

  class TaskViewModel {
    /** The tasks, in insertion order. */
    var tasks: seq<Task>
    /** The current filter selection. */
    var filterOption: FilterOption
    /** The "savedTasks" slot of the user defaults; `None` when absent or undecodable. */
    var saved: Option<seq<Task>>

    /** `init()`: start empty with every task shown, then load whatever the slot holds. */
    constructor (slot: Option<seq<Task>>)
      ensures filterOption == All && saved == slot
      ensures tasks == if slot.Some? then slot.value else []
    {
      tasks := [];
      filterOption := All;
      saved := slot;
      new;
      LoadTasks();
    }

    /**
     * `filteredTasks`: the tasks the filter shows, each as often as it occurs in the list,
     * ordered by priority and then newest first.
     */
    function FilteredTasks(): (r: seq<Task>)
      reads this
      ensures forall t :: multiset(r)[t] == if Shows(filterOption, t) then multiset(tasks)[t] else 0
      ensures forall t :: t in r <==> t in tasks && Shows(filterOption, t)
      ensures |r| <= |tasks| && (filterOption == All ==> |r| == |tasks|)
      ensures ByPriorityThenNewest(r)
      ensures forall p, c :: Ties(r, p, c) == Ties(FilterTasks(tasks, filterOption), p, c)
    {
      var r := SortTasks(FilterTasks(tasks, filterOption));
      assert forall p, c :: Ties(r, p, c) == Ties(FilterTasks(tasks, filterOption), p, c) by {
        forall p, c ensures Ties(r, p, c) == Ties(FilterTasks(tasks, filterOption), p, c) {
          SortTasksIsStable(FilterTasks(tasks, filterOption), p, c);
        }
      }
      assert forall t :: t in r <==> t in multiset(r);
      SortedIffByPriorityThenNewest(r);
      assert |r| == |multiset(r)|;
      assert multiset(r) <= multiset(tasks);
      r
    }

    /** `completedTasksCount`: the number of positions holding a completed task. */
    function CompletedTasksCount(): (n: nat)
      reads this
      ensures n == |set i: nat | i < |tasks| && tasks[i].isCompleted|
      ensures n + ActiveTasksCount() == |tasks|
    {
      FilterCountsPositions(tasks, IsDone);
      assert Positions(tasks, IsDone) == set i: nat | i < |tasks| && tasks[i].isCompleted;
      CountsPartition(tasks);
      |Filter(tasks, IsDone)|
    }

    /** `activeTasksCount`: the number of positions holding an open task. */
    function ActiveTasksCount(): (n: nat)
      reads this
      ensures n == |set i: nat | i < |tasks| && !tasks[i].isCompleted|
    {
      FilterCountsPositions(tasks, IsOpen);
      assert Positions(tasks, IsOpen) == set i: nat | i < |tasks| && !tasks[i].isCompleted;
      |Filter(tasks, IsOpen)|
    }

    /** Setting `filterOption` changes nothing else and is not persisted. */
    method SetFilterOption(option: FilterOption)
      modifies this`filterOption
      ensures filterOption == option
    {
      filterOption := option;
    }

    /** `saveTasks`: overwrite the slot with the whole list. */
    method SaveTasks()
      modifies this`saved
      ensures saved == Some(tasks)
    {
      saved := Some(tasks);
    }

    /** `loadTasks`: replace the list by the slot's contents when there are any. */
    method LoadTasks()
      modifies this`tasks
      ensures tasks == if saved.Some? then saved.value else old(tasks)
    {
      if saved.Some? {
        tasks := saved.value;
      }
    }

    /**
     * `addTask`: append an open task with the given fields and save. `id` and `createdAt`
     * stand for the fresh `UUID()` and the current `Date()` of the source.
     */
    method AddTask(id: TaskId, createdAt: Timestamp, title: string, description: string,
                   priority: Priority, dueDate: Option<Timestamp>)
      requires forall t :: t in tasks ==> t.id != id
      modifies this`tasks, this`saved
      ensures |tasks| == |old(tasks)| + 1 && tasks[..|old(tasks)|] == old(tasks)
      ensures tasks[|tasks| - 1] ==
        NewTask(id, title, description, priority := priority, dueDate := dueDate, createdAt := createdAt)
      ensures !tasks[|tasks| - 1].isCompleted
      ensures saved == Some(tasks)
      ensures UniqueIds(old(tasks)) ==> UniqueIds(tasks)
    {
      var newTask := NewTask(id, title, description, priority := priority, dueDate := dueDate,
                             createdAt := createdAt);
      tasks := tasks + [newTask];
      assert tasks[..|old(tasks)|] == old(tasks);
      SaveTasks();
    }

    /** `toggleTaskCompletion`: flip the first task with `task`'s identifier and save; nothing if there is none. */
    method ToggleTaskCompletion(task: Task)
      modifies this`tasks, this`saved
      ensures tasks == ToggleById(old(tasks), task.id)
      ensures saved == if FirstIndex(old(tasks), task.id).Some? then Some(tasks) else old(saved)
      ensures UniqueIds(old(tasks)) ==> UniqueIds(tasks)
    {
      match FirstIndex(tasks, task.id)
      case None =>
      case Some(index) =>
        tasks := tasks[index := tasks[index].(isCompleted := !tasks[index].isCompleted)];
        SaveTasks();
    }

    /** `deleteTask`: remove every task with `task`'s identifier and save. */
    method DeleteTask(task: Task)
      modifies this`tasks, this`saved
      ensures tasks == RemoveById(old(tasks), task.id)
      ensures saved == Some(tasks)
      ensures UniqueIds(old(tasks)) ==> UniqueIds(tasks)
    {
      if UniqueIds(tasks) {
        FilterKeepsUniqueIds(tasks, (t: Task) => t.id != task.id);
      }
      tasks := RemoveById(tasks, task.id);
      SaveTasks();
    }

    /** `updateTask`: put `task` in place of the first task with its identifier and save; nothing if there is none. */
    method UpdateTask(task: Task)
      modifies this`tasks, this`saved
      ensures tasks == ReplaceById(old(tasks), task)
      ensures saved == if FirstIndex(old(tasks), task.id).Some? then Some(tasks) else old(saved)
      ensures UniqueIds(old(tasks)) ==> UniqueIds(tasks)
    {
      match FirstIndex(tasks, task.id)
      case None =>
      case Some(index) =>
        tasks := tasks[index := task];
        SaveTasks();
    }

    /** `deleteCompletedTasks`: keep only the open tasks and save. */
    method DeleteCompletedTasks()
      modifies this`tasks, this`saved
      ensures tasks == RemoveCompleted(old(tasks))
      ensures saved == Some(tasks)
      ensures UniqueIds(old(tasks)) ==> UniqueIds(tasks)
    {
      if UniqueIds(tasks) {
        FilterKeepsUniqueIds(tasks, IsOpen);
      }
      tasks := RemoveCompleted(tasks);
      SaveTasks();
    }
  }
}
