/**
 * Client code that drives the store the way MyAppTests/TaskViewModelTests.swift does,
 * and shows that the store's contracts alone determine the outcomes those tests expect.
 */
module ViewModelScenarios {
  import opened Wrappers
  import opened Models
  import opened ViewModels

  /** Add, toggle twice: the task is open again, and the slot holds the list. */
  method ToggleTwiceScenario(id: TaskId, now: Timestamp)
  {
    var store := new TaskViewModel(None);
    store.AddTask(id, now, "Test Task", "", Medium, None);
    assert !store.tasks[0].isCompleted;
    store.ToggleTaskCompletion(store.tasks[0]);
    assert store.tasks[0].isCompleted;
    store.ToggleTaskCompletion(store.tasks[0]);
    assert !store.tasks[0].isCompleted && |store.tasks| == 1;
    assert store.saved == Some(store.tasks);
  }

  /** When a filter shows one task of a pair and hides the other, a view selected by it is that one task. */
  lemma OnlyOneShown(view: seq<Task>, tasks: seq<Task>, option: FilterOption, keep: Task, drop: Task)
    requires tasks == [drop, keep] || tasks == [keep, drop]
    requires Shows(option, keep) && !Shows(option, drop)
    requires forall t :: multiset(view)[t] == if Shows(option, t) then multiset(tasks)[t] else 0
    ensures view == [keep]
  {
    assert multiset(tasks) == multiset{keep} + multiset{drop};
    assert multiset(view) == multiset{keep} by {
      forall t ensures multiset(view)[t] == multiset{keep}[t] {
        if t != keep && t != drop {
          assert multiset(tasks)[t] == 0;
        }
      }
    }
    assert |view| == 1 && view[0] in multiset(view);
  }

  /** The set-up of the filter tests: two tasks, the first one completed. */
  method TwoTasksFirstCompleted(id1: TaskId, id2: TaskId, now1: Timestamp, now2: Timestamp)
    returns (store: TaskViewModel)
    requires id1 != id2
    ensures fresh(store) && |store.tasks| == 2
    ensures store.tasks[0].isCompleted && !store.tasks[1].isCompleted
  {
    store := new TaskViewModel(None);
    store.AddTask(id1, now1, "Task 1", "", Low, None);
    store.AddTask(id2, now2, "Task 2", "", Medium, None);
    store.ToggleTaskCompletion(store.tasks[0]);
  }

  /** Filter `all` shows both tasks. */
  method FilterAllScenario(id1: TaskId, id2: TaskId, now1: Timestamp, now2: Timestamp)
    requires id1 != id2
  {
    var store := TwoTasksFirstCompleted(id1, id2, now1, now2);
    store.SetFilterOption(All);
    var view := store.FilteredTasks();
    assert |view| == 2;
  }

  /** Filter `active` shows exactly the open task. */
  method FilterActiveScenario(id1: TaskId, id2: TaskId, now1: Timestamp, now2: Timestamp)
    requires id1 != id2
  {
    var store := TwoTasksFirstCompleted(id1, id2, now1, now2);
    var done, open := store.tasks[0], store.tasks[1];
    store.SetFilterOption(Active);
    var view := store.FilteredTasks();
    OnlyOneShown(view, store.tasks, Active, open, done);
    assert view == [open];
  }

  /** Filter `completed` shows exactly the completed task. */
  method FilterCompletedScenario(id1: TaskId, id2: TaskId, now1: Timestamp, now2: Timestamp)
    requires id1 != id2
  {
    var store := TwoTasksFirstCompleted(id1, id2, now1, now2);
    var done, open := store.tasks[0], store.tasks[1];
    store.SetFilterOption(Completed);
    var view := store.FilteredTasks();
    OnlyOneShown(view, store.tasks, Completed, done, open);
    assert view == [done];
  }

  /** Two tasks, the first deleted: one remains and none has the deleted identifier. */
  method DeleteScenario(id1: TaskId, id2: TaskId, now1: Timestamp, now2: Timestamp)
    requires id1 != id2
  {
    var store := new TaskViewModel(None);
    store.AddTask(id1, now1, "Task 1", "", Low, None);
    store.AddTask(id2, now2, "Task 2", "", Medium, None);
    var victim := store.tasks[0];
    assert UniqueIds(store.tasks);
    RemoveByIdRemovesOne(store.tasks, victim.id);
    store.DeleteTask(victim);
    assert |store.tasks| == 1;
    assert forall t :: t in store.tasks ==> t.id != victim.id;
  }

  /** Editing title, description and priority through `updateTask` keeps identifier and creation time. */
  method UpdateScenario(id: TaskId, now: Timestamp)
  {
    var store := new TaskViewModel(None);
    store.AddTask(id, now, "Original Title", "Original", Low, None);
    var edited := store.tasks[0].(title := "Updated Title", description := "Updated", priority := High);
    store.UpdateTask(edited);
    assert store.tasks[0].title == "Updated Title" && store.tasks[0].description == "Updated";
    assert store.tasks[0].priority == High;
    assert store.tasks[0].id == id && store.tasks[0].createdAt == now;
  }

  /** Three tasks, two completed: deleting completed tasks leaves the one open task. */
  method DeleteCompletedScenario(id1: TaskId, id2: TaskId, id3: TaskId, now: Timestamp)
    requires id1 != id2 && id2 != id3 && id1 != id3
  {
    var store := new TaskViewModel(None);
    store.AddTask(id1, now, "Task 1", "", Low, None);
    store.AddTask(id2, now, "Task 2", "", Medium, None);
    store.AddTask(id3, now, "Task 3", "", High, None);
    store.ToggleTaskCompletion(store.tasks[0]);
    assert store.tasks[0].isCompleted && !store.tasks[1].isCompleted && !store.tasks[2].isCompleted;
    store.ToggleTaskCompletion(store.tasks[1]);
    var first, second, open := store.tasks[0], store.tasks[1], store.tasks[2];
    assert first.isCompleted && second.isCompleted && !open.isCompleted;
    assert store.tasks == [first, second] + [open];
    store.DeleteCompletedTasks();
    RemoveCompletedKeepsOrder([first, second], [open]);
    RemoveCompletedKeepsOrder([first], [second]);
    RemoveCompletedSingleton(first);
    RemoveCompletedSingleton(second);
    RemoveCompletedSingleton(open);
    assert store.tasks == [open];
  }

  /** Adding to an empty store gives one open task with the given fields. */
  method AddScenario(id: TaskId, now: Timestamp)
  {
    var store := new TaskViewModel(None);
    var initialCount := |store.tasks|;
    store.AddTask(id, now, "Test Task", "Test Description", High, None);
    assert |store.tasks| == initialCount + 1;
    var first := store.tasks[0];
    assert first.title == "Test Task" && first.description == "Test Description";
    assert first.priority == High && !first.isCompleted;
  }

  /** In a three-task list whose first task alone is completed, one position is completed and two are open. */
  lemma OneOfThreeCompleted(tasks: seq<Task>)
    requires |tasks| == 3
    requires tasks[0].isCompleted && !tasks[1].isCompleted && !tasks[2].isCompleted
    ensures |set i: nat | i < |tasks| && tasks[i].isCompleted| == 1
    ensures |set i: nat | i < |tasks| && !tasks[i].isCompleted| == 2
  {
    assert (set i: nat | i < |tasks| && tasks[i].isCompleted) == {0};
    assert (set i: nat | i < |tasks| && !tasks[i].isCompleted) == {1, 2};
  }

  /** Three tasks, the first completed: one completed, two active. */
  method CountsScenario(id1: TaskId, id2: TaskId, id3: TaskId, now: Timestamp)
    requires id1 != id2 && id2 != id3 && id1 != id3
  {
    var store := new TaskViewModel(None);
    store.AddTask(id1, now, "Task 1", "", Low, None);
    store.AddTask(id2, now, "Task 2", "", Medium, None);
    store.AddTask(id3, now, "Task 3", "", High, None);
    store.ToggleTaskCompletion(store.tasks[0]);
    assert |store.tasks| == 3;
    OneOfThreeCompleted(store.tasks);
    assert store.CompletedTasksCount() == 1;
    assert store.ActiveTasksCount() == 2;
  }
}
