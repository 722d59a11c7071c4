/** The pomodoro usage report (`PomodoroReport`): one bar-chart row per todo
    with its completed pomodoros and the work time they add up to, in minutes. */
module PomodoroReport {
  import opened Base

  /** A todo as the report reads it; `workTime` is in seconds. */
  datatype ReportTodo = ReportTodo(id: Id, task: string, pomodorosCompleted: Option<int>, workTime: int)

  datatype Row = Row(name: string, pomodoros: int, totalWorkTime: real)

  /** `todo.pomodorosCompleted || 0`. */
  function Pomodoros(t: ReportTodo): (n: int)
    ensures t.pomodorosCompleted.Some? ==> n == t.pomodorosCompleted.value
    ensures t.pomodorosCompleted.None? ==> n == 0
  {
    if t.pomodorosCompleted.Some? && t.pomodorosCompleted.value != 0 then t.pomodorosCompleted.value else 0
  }

  /** One row: the task's name, its pomodoros, and pomodoros times the work
      time in minutes. */
  function RowOf(t: ReportTodo): (row: Row)
    ensures row.name == t.task && row.pomodoros == Pomodoros(t)
    ensures row.totalWorkTime * 60.0 == (row.pomodoros * t.workTime) as real
    ensures row.pomodoros == 0 ==> row.totalWorkTime == 0.0
  {
    var p := Pomodoros(t);
    var minutes := t.workTime as real / 60.0;
    assert (p as real * minutes) * 60.0 == p as real * (minutes * 60.0);
    Row(t.task, p, p as real * minutes)
  }

  /** `reportData`: one row per todo, in the same order. */
  function ReportData(todos: seq<ReportTodo>): (rows: seq<Row>)
    ensures |rows| == |todos|
    ensures forall i :: 0 <= i < |todos| ==> rows[i] == RowOf(todos[i])
  {
    seq(|todos|, i requires 0 <= i < |todos| => RowOf(todos[i]))
  }

  /** Whole minutes: a work time that is a multiple of 60 seconds gives
      whole minutes per pomodoro. */
  lemma WholeMinutes(t: ReportTodo, m: int)
    requires t.workTime == 60 * m
    ensures RowOf(t).totalWorkTime == (Pomodoros(t) * m) as real
  {
    var row := RowOf(t);
    assert row.totalWorkTime * 60.0 == (Pomodoros(t) * m) as real * 60.0;
  }
}
