/** The stored todo (`models/Todo.js`): its fields, which of them are
    required, the allowed priorities and the defaults a new document gets. */
module TodoSchema {
  import opened Base

  /** A todo document. `task` and `dueDate` are absent when not given;
      every other field has a default. */
  datatype TodoDoc = TodoDoc(task: Option<string>, completed: bool, dueDate: Option<Time>,
                             priority: string, memo: string, tags: seq<string>,
                             workTime: int, breakTime: int, currentTime: int, isBreak: bool,
                             pomodorosCompleted: int)

  const Priorities := ["low", "medium", "high"]
  const DefaultPriority := "medium"
  /** 25 minutes of work and 5 minutes of break, in seconds. */
  const DefaultWorkTime := 25 * 60
  const DefaultBreakTime := 5 * 60

  /** The fields a document is created with, each absent (`undefined`) when not given. */
  datatype Fields = Fields(task: Option<string>, completed: Option<bool>, dueDate: Option<Time>,
                           priority: Option<string>, memo: Option<string>, tags: Option<seq<string>>,
                           workTime: Option<int>, breakTime: Option<int>, currentTime: Option<int>,
                           isBreak: Option<bool>, pomodorosCompleted: Option<int>)

  const NoFields := Fields(None, None, None, None, None, None, None, None, None, None, None)

  /** `new Todo(fields)`: the given fields, and the schema's default for each
      other field that has one. */
  function NewTodo(f: Fields): (d: TodoDoc)
    ensures d.task == f.task && d.dueDate == f.dueDate
    ensures f.completed.Some? ==> d.completed == f.completed.value
    ensures f.priority.Some? ==> d.priority == f.priority.value
    ensures f.memo.Some? ==> d.memo == f.memo.value
    ensures f.tags.Some? ==> d.tags == f.tags.value
    ensures f.workTime.Some? ==> d.workTime == f.workTime.value
    ensures f.breakTime.Some? ==> d.breakTime == f.breakTime.value
    ensures f.currentTime.Some? ==> d.currentTime == f.currentTime.value
    ensures f.isBreak.Some? ==> d.isBreak == f.isBreak.value
    ensures f.pomodorosCompleted.Some? ==> d.pomodorosCompleted == f.pomodorosCompleted.value
    ensures f.completed.None? ==> !d.completed
    ensures f.priority.None? ==> d.priority == DefaultPriority
    ensures f.memo.None? ==> d.memo == ""
    ensures f.tags.None? ==> d.tags == []
    ensures f.workTime.None? ==> d.workTime == DefaultWorkTime
    ensures f.breakTime.None? ==> d.breakTime == DefaultBreakTime
    ensures f.currentTime.None? ==> d.currentTime == DefaultWorkTime
    ensures f.isBreak.None? ==> !d.isBreak
    ensures f.pomodorosCompleted.None? ==> d.pomodorosCompleted == 0
  {
    TodoDoc(f.task, f.completed.GetOr(false), f.dueDate, f.priority.GetOr(DefaultPriority),
            f.memo.GetOr(""), f.tags.GetOr([]), f.workTime.GetOr(DefaultWorkTime),
            f.breakTime.GetOr(DefaultBreakTime), f.currentTime.GetOr(DefaultWorkTime),
            f.isBreak.GetOr(false), f.pomodorosCompleted.GetOr(0))
  }

  /** What `save` checks: a non-empty task (a required string may not be
      empty), a due date, and one of the three priorities. */
  predicate IsValid(d: TodoDoc) {
    d.task.Some? && d.task.value != "" && d.dueDate.Some? && d.priority in Priorities
  }

  /** Without a task, or without a due date, a document is refused; a priority
      outside low/medium/high is refused. */
  lemma RequiredFields(d: TodoDoc)
    ensures d.task.None? ==> !IsValid(d)
    ensures d.dueDate.None? ==> !IsValid(d)
    ensures d.priority !in {"low", "medium", "high"} ==> !IsValid(d)
    ensures IsValid(d) <==> d.task.Some? && d.task.value != "" && d.dueDate.Some?
                            && (d.priority == "low" || d.priority == "medium" || d.priority == "high")
  {
  }

  /** A new todo given only its task and due date is valid exactly when the
      task is not empty, and starts incomplete, with an empty memo, no tags,
      medium priority and a fresh 25/5 minute timer in the work phase. */
  lemma FreshTodo(task: string, dueDate: Time)
    ensures var d := NewTodo(NoFields.(task := Some(task), dueDate := Some(dueDate)));
            && (IsValid(d) <==> task != "")
            && !d.completed && d.memo == "" && d.tags == [] && d.priority == "medium"
            && d.workTime == 1500 && d.breakTime == 300 && d.currentTime == 1500
            && !d.isBreak && d.pomodorosCompleted == 0
            && d.currentTime == d.workTime
  {
  }
}
