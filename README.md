# TaskManager core in Dafny

A model of the logical core of the TaskManager iOS app: the `Task` record with its
`Priority` enumeration (`MyApp/Models/Task.swift`), and the `TaskViewModel` store
(`MyApp/ViewModels/TaskViewModel.swift`). The store owns the ordered list of tasks and
the current filter selection. It adds, toggles, updates and deletes tasks, and after
each change it writes the whole list to one persistence slot. It also derives the
filtered and sorted view and the two counts.

Layout:

- `wrappers.dfy`, module `Wrappers`: `Option`, which stands for Swift's `T?`.
- `task.dfy`, module `Models`:
  - `Priority` with its raw values and colour tags;
  - `Task` as a datatype;
  - `NewTask`, the initializer with its default arguments (Dafny default parameters).
- `task_view_model.dfy`, module `ViewModels`:
  - the list operations of the store as functions on `seq<Task>`, with lemmas;
    these are selection (`filter`/`removeAll`), lookup by id (`firstIndex`), toggle,
    replace and delete;
  - the sort comparator, modelled literally, and the sort;
  - the class `TaskViewModel`. Its fields are `tasks`, `filterOption` and `saved`. The
    abstract field `saved` stands for the `"savedTasks"` user-defaults slot. Its methods
    update the fields in place and state the new state in terms of the list functions.
    Each store has its own `saved` field, whereas `UserDefaults.standard` is one slot
    shared by every instance. The app creates a single store (`TaskListView.swift:11`).
    Only stores alive at the same time, as in the SwiftUI previews, would see the
    difference; stores built one after another, as in the unit tests, are covered by
    passing the slot to the constructor.
- `scenarios.dfy`, module `ViewModelScenarios`: client methods that replay the set-ups
  of every test in `MyAppTests/TaskViewModelTests.swift`: add, toggle, delete, the three
  filters, delete-completed, the counts and update. Each one proves, from the store's
  contracts alone, the outcome the test asserts.

Modelling choices:

- `UUID()` and `Date()` are parameters. `AddTask` takes the new id, and requires that it
  differs from every id in the list, as a fresh UUID does. It also takes the creation time.
- Times are integers (`Timestamp`) counted in one fixed unit; nothing in the model depends on
  which. `dueDate` is an `Option<Timestamp>`.
- The persistence slot holds `Option<seq<Task>>`. `None` means the key is absent or its
  data does not decode; `loadTasks` treats both the same way.
- Swift's `sorted(by:)` is stable: elements the comparator leaves unordered keep their input
  order. The model uses an insertion sort under the source's comparator that places each
  task ahead of the tasks it ties with, and proves that it is sorted, that it is a
  permutation, and that it is stable (`SortTasksIsStable`): the tasks with one priority
  and one creation time come out in the order they went in.
- The comparator at `TaskViewModel.swift:39-45` puts `task1` first when its priority ranks
  higher, and otherwise, for equal priorities, when it was created later. It is modelled
  literally (`AreInIncreasingOrder`) and proved to agree with the rank order
  high > medium > low, then newest first. `sorted(by:)` is called with it.

## Model

| member | source | states |
|---|---|---|
| `Models.RawValue` | MyApp/Models/Task.swift:38-41 | the raw value is "Low" exactly for low, "Medium" exactly for medium and "High" exactly for high |
| `Models.PriorityFromRawValue` | MyApp/Models/Task.swift:38-41 | a priority parsed from a string has that string as its raw value |
| `Models.RawValueRoundTrip` | MyApp/Models/Task.swift:38-41 | parsing a priority's raw value ("Low", "Medium", "High") gives back that priority |
| `Models.RawValueInjective` | MyApp/Models/Task.swift:38-41 | distinct priorities have distinct raw values |
| `Models.Color` | MyApp/Models/Task.swift:43-49 | the colour is "green" exactly for low, "orange" exactly for medium and "red" exactly for high |
| `Models.NewTask` | MyApp/Models/Task.swift:19-35 | the initializer stores every supplied argument unchanged in the matching field |
| `Models.DefaultValues` | MyApp/Models/Task.swift:19-27 | a task built from a title alone has description "", is not completed, has medium priority and no due date |
| `Models.Equality` | MyApp/Models/Task.swift:10 | two tasks are equal exactly when all seven fields agree, the id included |
| `Models.CopyKeepsId` | MyApp/Models/Task.swift:11-17 | a copy with any of the other fields changed keeps the id |
| `ViewModels.FilterRawValue` | MyApp/ViewModels/TaskViewModel.swift:16-20 | the raw value is "All", "Active" or "Completed" exactly for the matching option |
| `ViewModels.FilterRawValueInjective` | MyApp/ViewModels/TaskViewModel.swift:16-20 | distinct filter options have distinct raw values |
| `ViewModels.Filter` | MyApp/ViewModels/TaskViewModel.swift:34-36 | the selection holds each task satisfying the predicate exactly as often as the list does, and no other task |
| `ViewModels.FilterAppend` | MyApp/ViewModels/TaskViewModel.swift:34-36 | selection distributes over concatenation, so kept tasks stay in their relative order |
| `ViewModels.FilterAll` | MyApp/ViewModels/TaskViewModel.swift:75 | selecting with a predicate all tasks satisfy returns the list unchanged |
| `ViewModels.FilterKeepsUniqueIds` | MyApp/ViewModels/TaskViewModel.swift:75 | removing tasks from a list with unique ids leaves a list with unique ids |
| `ViewModels.CountsPartition` | MyApp/ViewModels/TaskViewModel.swift:48-54 | the completed selection and the open selection together have the length of the list |
| `ViewModels.FilterCountsPositions` | MyApp/ViewModels/TaskViewModel.swift:49 | the selection has exactly as many tasks as the list has positions whose task satisfies the predicate |
| `ViewModels.FirstIndex` | MyApp/ViewModels/TaskViewModel.swift:68 | the result is the smallest index holding the id, and it is absent exactly when no task has the id |
| `ViewModels.FirstIndexByIds` | MyApp/ViewModels/TaskViewModel.swift:68 | two lists with the same ids, position by position, give the same lookup result |
| `ViewModels.ToggleById` | MyApp/ViewModels/TaskViewModel.swift:67-72 | toggling flips `isCompleted` of the first task with the id and changes no other field or index, the length, the order or the ids; with no match it is a no-op |
| `ViewModels.ToggleTwice` | MyApp/ViewModels/TaskViewModel.swift:67-72 | toggling the same id twice restores the list |
| `ViewModels.ReplaceById` | MyApp/ViewModels/TaskViewModel.swift:79-84 | updating puts the supplied record at the first index with its id and touches no other index; the ids are unchanged; with no match it is a no-op |
| `ViewModels.ReplaceTwice` | MyApp/ViewModels/TaskViewModel.swift:79-84 | updating twice with the same record equals updating once |
| `ViewModels.RemoveById` | MyApp/ViewModels/TaskViewModel.swift:74-77 | after deleting, a task is in the list exactly when it was before and has a different id |
| `ViewModels.RemoveByIdRemovesOne` | MyApp/ViewModels/TaskViewModel.swift:74-77 | with unique ids, deleting a present id shortens the list by exactly one |
| `ViewModels.RemoveByIdKeepsOrder` | MyApp/ViewModels/TaskViewModel.swift:75 | deleting distributes over concatenation, so the other tasks keep their relative order |
| `ViewModels.RemoveByIdSingleton` | MyApp/ViewModels/TaskViewModel.swift:75 | from a one-task list, deleting removes the task exactly when it has the id |
| `ViewModels.RemoveByIdAbsent` | MyApp/ViewModels/TaskViewModel.swift:75 | deleting an id that no task has leaves the list unchanged |
| `ViewModels.RemoveCompleted` | MyApp/ViewModels/TaskViewModel.swift:86-89 | after deleting completed tasks, no remaining task is completed, and every open task keeps its multiplicity |
| `ViewModels.RemoveCompletedKeepsOrder` | MyApp/ViewModels/TaskViewModel.swift:87 | deleting completed tasks distributes over concatenation, so open tasks keep their relative order |
| `ViewModels.RemoveCompletedSingleton` | MyApp/ViewModels/TaskViewModel.swift:87 | from a one-task list, deleting completed tasks removes the task exactly when it is completed |
| `ViewModels.AreInIncreasingOrder` | MyApp/ViewModels/TaskViewModel.swift:39-45 | the closure puts t1 first exactly when its priority ranks higher, or the priorities are equal and t1 is newer |
| `ViewModels.ComparatorIsStrictWeakOrder` | MyApp/ViewModels/TaskViewModel.swift:39-45 | the comparator is irreflexive, transitive and negatively transitive |
| `ViewModels.SortedIffByPriorityThenNewest` | MyApp/ViewModels/TaskViewModel.swift:38-45 | a list is sorted under the comparator exactly when priority never increases and, within a priority, creation time never increases |
| `ViewModels.Insert` | MyApp/ViewModels/TaskViewModel.swift:39 | inserting into a sorted list gives a sorted list with the inserted task added |
| `ViewModels.SortTasks` | MyApp/ViewModels/TaskViewModel.swift:39-45 | the sort returns a permutation of its input that is sorted under the comparator |
| `ViewModels.InsertKeepsTies` | MyApp/ViewModels/TaskViewModel.swift:39 | insertion puts the new task ahead of every task it ties with, so the tasks of any one priority and creation time appear as they would with the new task at the head |
| `ViewModels.SortTasksIsStable` | MyApp/ViewModels/TaskViewModel.swift:39-45 | the sort is stable: for every priority and creation time, the tasks having both come out in the order they went in |
| `ViewModels.TwoTasksInComparatorOrder` | MyApp/ViewModels/TaskViewModel.swift:39-45 | when one task must precede another, sorting the pair in either input order puts that task first |
| `ViewModels.FilterTasks` | MyApp/ViewModels/TaskViewModel.swift:29-37 | the selection holds each task the filter shows (all, open only, completed only) as often as the list does, and no other task |
| `ViewModels.TaskViewModel.constructor` | MyApp/ViewModels/TaskViewModel.swift:13-26 | a new store shows all tasks; its list is the slot's contents when the slot holds a list, and empty otherwise |
| `ViewModels.TaskViewModel.FilteredTasks` | MyApp/ViewModels/TaskViewModel.swift:28-46 | the view is a permutation of the tasks the filter shows, ordered by priority and then newest first; tasks with equal priority and creation time keep their list order |
| `ViewModels.TaskViewModel.CompletedTasksCount` | MyApp/ViewModels/TaskViewModel.swift:48-50 | the count is the number of positions holding a completed task, and it plus the active count is the number of tasks |
| `ViewModels.TaskViewModel.ActiveTasksCount` | MyApp/ViewModels/TaskViewModel.swift:52-54 | the count is the number of positions holding an open task |
| `ViewModels.TaskViewModel.SetFilterOption` | MyApp/ViewModels/TaskViewModel.swift:14 | setting the filter changes only the filter and does not touch the slot |
| `ViewModels.TaskViewModel.SaveTasks` | MyApp/ViewModels/TaskViewModel.swift:91-95 | the slot now holds the current list |
| `ViewModels.TaskViewModel.LoadTasks` | MyApp/ViewModels/TaskViewModel.swift:97-102 | the list is replaced by the slot's contents when the slot holds a list, and unchanged otherwise |
| `ViewModels.TaskViewModel.AddTask` | MyApp/ViewModels/TaskViewModel.swift:56-65 | the list grows by one; earlier tasks are unchanged; the new last task is open and carries the given fields; the slot holds the list; ids stay unique |
| `ViewModels.TaskViewModel.ToggleTaskCompletion` | MyApp/ViewModels/TaskViewModel.swift:67-72 | the list becomes the toggled list; the slot is written only when the id was found; ids stay unique |
| `ViewModels.TaskViewModel.DeleteTask` | MyApp/ViewModels/TaskViewModel.swift:74-77 | the list loses every task with the id; the slot holds the list; ids stay unique |
| `ViewModels.TaskViewModel.UpdateTask` | MyApp/ViewModels/TaskViewModel.swift:79-84 | the record at the first index with the id is replaced; the slot is written only when the id was found; ids stay unique |
| `ViewModels.TaskViewModel.DeleteCompletedTasks` | MyApp/ViewModels/TaskViewModel.swift:86-89 | only the open tasks remain, in order; the slot holds the list; ids stay unique |

## Left out

- The SwiftUI views (`MyApp/Views/*.swift`) are not part of this model. They are layout,
  bindings and navigation. The same holds for the rules that live only there: Add/Save
  is disabled for an empty title, the due date is dropped when its toggle is off, and an
  overdue task is coloured by the wall clock.
- The UI automation tests (`MyAppUITests/TaskListViewUITests.swift`) are not part of this model.
- JSON encoding and decoding and `UserDefaults` are foreign library calls. Their byte
  format is not modelled, and neither is the JSON round-trip test. The slot is abstract
  and holds the list itself.
- ViewModels.TaskViewModel.SaveTasks: always writes the slot. The source skips the write
  when `JSONEncoder` throws. Encoding an array of these records does not fail in practice,
  and the failure lies inside the foreign encoder.
- `UUID()` and `Date()` are nondeterministic. They are replaced by parameters, and
  `Date`'s floating-point value becomes an integer in a fixed unit.
- `@MainActor`, `@Published` and `ObservableObject` are left out. They have no logical
  content for a single-threaded store.
- Strings are sequences of code points. Swift compares `String` values by Unicode
  canonical equivalence, so the synthesized `Task` equality treats a title in composed
  form and the same title in decomposed form as equal; `Models.Equality` does not. This
  affects only whole-task equality: the store matches tasks by id.
