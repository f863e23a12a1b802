/** The task record and its priority enumeration (MyApp/Models/Task.swift). */
module Models {
  import opened Wrappers

  /** A task identifier. The source uses a UUID; only equality matters here. */
  type TaskId = nat

  /** A point in time, as an integer count of some fixed unit. The source uses a `Date`. */
  type Timestamp = int

  /** The three priority levels. */
  datatype Priority = Low | Medium | High

  /** The string raw value of a priority, as stored when a task is encoded. */
  function RawValue(p: Priority): (r: string)
    ensures r == "Low" <==> p == Low
    ensures r == "Medium" <==> p == Medium
    ensures r == "High" <==> p == High
  {
    match p
    case Low => "Low"
    case Medium => "Medium"
    case High => "High"
  }

  /** The failable `Priority(rawValue:)` initializer: the priority whose raw value is `s`, if any. */
  function PriorityFromRawValue(s: string): (r: Option<Priority>)
    ensures r.Some? ==> RawValue(r.value) == s
  {
    if s == "Low" then Some(Low)
    else if s == "Medium" then Some(Medium)
    else if s == "High" then Some(High)
    else None
  }

  /** Parsing a priority's raw value gives that priority back. */
  lemma RawValueRoundTrip(p: Priority)
    ensures PriorityFromRawValue(RawValue(p)) == Some(p)
  {
  }

  /** Distinct priorities have distinct raw values. */
  lemma RawValueInjective(p: Priority, q: Priority)
    requires RawValue(p) == RawValue(q)
    ensures p == q
  {
    RawValueRoundTrip(p);
    RawValueRoundTrip(q);
  }

  /** The display colour tag of a priority. */
  function Color(p: Priority): (r: string)
    ensures r == "green" <==> p == Low
    ensures r == "orange" <==> p == Medium
    ensures r == "red" <==> p == High
  {
    match p
    case Low => "green"
    case Medium => "orange"
    case High => "red"
  }

  /** One task. `id` is a `let` in the source: no operation of the model changes it in place. */
  datatype Task = Task(
    id: TaskId,
    title: string,
    description: string,
    isCompleted: bool,
    priority: Priority,
    dueDate: Option<Timestamp>,
    createdAt: Timestamp)

  /**
   * The memberwise initializer with its defaults. The source's defaults for `id` and
   * `createdAt` are a fresh `UUID()` and the current `Date()`; here the caller supplies both.
   */
  function NewTask(
    id: TaskId,
    title: string,
    description: string := "",
    isCompleted: bool := false,
    priority: Priority := Medium,
    dueDate: Option<Timestamp> := None,
    createdAt: Timestamp): (t: Task)
    ensures t.id == id && t.title == title && t.description == description
    ensures t.isCompleted == isCompleted && t.priority == priority
    ensures t.dueDate == dueDate && t.createdAt == createdAt
  {
    Task(id, title, description, isCompleted, priority, dueDate, createdAt)
  }

  /** A task built from a title alone is an open, medium-priority task with no description or due date. */
  lemma DefaultValues(id: TaskId, title: string, createdAt: Timestamp)
    ensures var t := NewTask(id, title, createdAt := createdAt);
      t.title == title && t.description == "" && !t.isCompleted &&
      t.priority == Medium && t.dueDate == None
  {
  }

  /** Equality of tasks is field-wise, the identifier included. */
  lemma Equality(t1: Task, t2: Task)
    ensures t1 == t2 <==>
      t1.id == t2.id && t1.title == t2.title && t1.description == t2.description &&
      t1.isCompleted == t2.isCompleted && t1.priority == t2.priority &&
      t1.dueDate == t2.dueDate && t1.createdAt == t2.createdAt
  {
  }

  /** A copy of a task with any of its mutable fields changed keeps the task's identifier. */
  lemma CopyKeepsId(t: Task, title: string, description: string, isCompleted: bool,
                    priority: Priority, dueDate: Option<Timestamp>, createdAt: Timestamp)
    ensures t.(title := title, description := description, isCompleted := isCompleted,
               priority := priority, dueDate := dueDate, createdAt := createdAt).id == t.id
  {
  }
}
