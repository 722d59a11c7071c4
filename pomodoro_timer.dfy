/** The countdown of `TodoPomodoroTimer`: a work phase and a break phase,
    a one-second tick while running, a transition when the time left reaches
    zero, start/pause, reset and edits of the two durations. Every change
    the component reports through `onTimerUpdate` is recorded as a
    `Snapshot`.

    The pure step functions below are the specification; the class `Timer`
    holds the component's five state variables and performs the same steps
    in place. */
module PomodoroTimer {
  import opened Base
  import opened Text

  /** The arguments of one `onTimerUpdate` call after the todo id. */
  datatype Snapshot = Snapshot(workTime: int, breakTime: int, currentTime: int, isBreak: bool)

  /** The component's state variables, durations in seconds. */
  datatype TimerState = TimerState(workTime: int, breakTime: int, timeLeft: int, isActive: bool, isBreak: bool)

  /** The state after a step and the callbacks the step made, in order. */
  datatype Step = Step(next: TimerState, emitted: seq<Snapshot>)

  /** The duration of the phase the timer is in. */
  function PhaseLength(s: TimerState): int {
    if s.isBreak then s.breakTime else s.workTime
  }

  /** Durations are positive and the time left lies within the current phase. */
  predicate Inv(s: TimerState) {
    s.workTime > 0 && s.breakTime > 0 && 0 <= s.timeLeft <= PhaseLength(s)
  }

  /** The snapshot the component reports of state `s`. */
  function Report(s: TimerState): Snapshot {
    Snapshot(s.workTime, s.breakTime, s.timeLeft, s.isBreak)
  }

  /** The state after mounting: stopped, at the start of the initial phase. */
  function Initial(workTime: int, breakTime: int, isBreak: bool): (s: TimerState)
    requires workTime > 0 && breakTime > 0
    ensures Inv(s) && !s.isActive && s.timeLeft == PhaseLength(s)
    ensures s.workTime == workTime && s.breakTime == breakTime && s.isBreak == isBreak
  {
    TimerState(workTime, breakTime, if isBreak then breakTime else workTime, false, isBreak)
  }

  /** One firing of the one-second interval, which exists only while the
      timer is active with time left. */
  function TickStep(s: TimerState): (r: Step)
    ensures Inv(s) ==> Inv(r.next)
  {
    if s.isActive && s.timeLeft > 0 then
      var n := s.(timeLeft := s.timeLeft - 1);
      Step(n, [Report(n)])
    else Step(s, [])
  }

  /** The effect's branch for a time left of zero: switch phase, load the
      new phase's duration and stop. */
  function TransitionStep(s: TimerState): (r: Step)
    ensures Inv(s) ==> Inv(r.next)
  {
    if s.timeLeft == 0 then
      var n := TimerState(s.workTime, s.breakTime, if s.isBreak then s.workTime else s.breakTime, false, !s.isBreak);
      Step(n, [Report(n)])
    else Step(s, [])
  }

  /** `toggleTimer`: start or pause, without a callback. */
  function ToggleStep(s: TimerState): (r: TimerState)
    ensures Inv(s) ==> Inv(r)
  {
    s.(isActive := !s.isActive)
  }

  /** `resetTimer`: stop and return to the start of a work phase. */
  function ResetStep(s: TimerState): (r: Step)
    ensures Inv(s) ==> Inv(r.next)
  {
    var n := s.(isActive := false, timeLeft := s.workTime, isBreak := false);
    Step(n, [Report(n)])
  }

  /** `handleWorkTimeChange` with the input's value in minutes. */
  function EditWorkStep(s: TimerState, minutes: int): (r: Step)
    ensures Inv(s) && minutes >= 1 ==> Inv(r.next)
  {
    var newWorkTime := minutes * 60;
    if !s.isBreak then
      var n := s.(workTime := newWorkTime, timeLeft := newWorkTime);
      Step(n, [Report(n)])
    else Step(s.(workTime := newWorkTime), [])
  }

  /** `handleBreakTimeChange` with the input's value in minutes. */
  function EditBreakStep(s: TimerState, minutes: int): (r: Step)
    ensures Inv(s) && minutes >= 1 ==> Inv(r.next)
  {
    var newBreakTime := minutes * 60;
    if s.isBreak then
      var n := s.(breakTime := newBreakTime, timeLeft := newBreakTime);
      Step(n, [Report(n)])
    else Step(s.(breakTime := newBreakTime), [])
  }

  /** An edit to 0 minutes in the current phase leaves no time at all: the
      invariant is lost and the zero transition is due at once. */
  lemma ZeroMinuteEdit(s: TimerState)
    ensures !s.isBreak ==> EditWorkStep(s, 0).next.timeLeft == 0 && !Inv(EditWorkStep(s, 0).next)
    ensures s.isBreak ==> EditBreakStep(s, 0).next.timeLeft == 0 && !Inv(EditBreakStep(s, 0).next)
  {
  }

  // ---------------------------------------------------------------------------
  // Properties of single steps

  /** A tick happens exactly while active with time left; it lowers the time
      left by one, reports the new time and changes nothing else. */
  lemma TickSpec(s: TimerState)
    ensures TickStep(s).emitted != [] <==> s.isActive && s.timeLeft > 0
    ensures TickStep(s).emitted == [] ==> TickStep(s).next == s
    ensures TickStep(s).emitted != [] ==>
              && TickStep(s).next.timeLeft == s.timeLeft - 1
              && TickStep(s).next.(timeLeft := s.timeLeft) == s
              && TickStep(s).emitted == [Snapshot(s.workTime, s.breakTime, s.timeLeft - 1, s.isBreak)]
  {
  }

  /** At zero the phase flips, the time left becomes the new phase's
      duration, the timer stops, and the callback reports the new phase. */
  lemma TransitionSpec(s: TimerState)
    requires s.timeLeft == 0
    ensures var n := TransitionStep(s).next;
            && n.isBreak == !s.isBreak
            && n.timeLeft == (if s.isBreak then s.workTime else s.breakTime)
            && n.timeLeft == PhaseLength(n)
            && !n.isActive
            && n.workTime == s.workTime && n.breakTime == s.breakTime
            && TransitionStep(s).emitted == [Snapshot(s.workTime, s.breakTime, n.timeLeft, !s.isBreak)]
  {
  }

  /** The transition branch does nothing while time is left. */
  lemma TransitionOnlyAtZero(s: TimerState)
    requires s.timeLeft != 0
    ensures TransitionStep(s) == Step(s, [])
  {
  }

  /** After a transition the timer is stopped, so no tick follows until it
      is started again: the timer never continues into the next phase by itself. */
  lemma NoAutoContinue(s: TimerState)
    requires s.timeLeft == 0
    ensures TickStep(TransitionStep(s).next) == Step(TransitionStep(s).next, [])
  {
  }

  /** Reset gives a stopped work phase with the full work time, reports
      exactly that, and keeps the durations. */
  lemma ResetSpec(s: TimerState)
    ensures var r := ResetStep(s);
            && r.next == TimerState(s.workTime, s.breakTime, s.workTime, false, false)
            && r.emitted == [Snapshot(s.workTime, s.breakTime, s.workTime, false)]
  {
  }

  /** Start/pause changes only whether the timer runs; two of them change nothing. */
  lemma ToggleSpec(s: TimerState)
    ensures ToggleStep(s).isActive == !s.isActive
    ensures ToggleStep(s).(isActive := s.isActive) == s
    ensures ToggleStep(ToggleStep(s)) == s
  {
  }

  /** Editing the work time always stores `minutes * 60`; it resets the time
      left and reports only in the work phase, and in a break it reports
      nothing and leaves the time left alone. */
  lemma EditWorkSpec(s: TimerState, minutes: int)
    ensures var r := EditWorkStep(s, minutes);
            && r.next.workTime == minutes * 60
            && r.next.breakTime == s.breakTime && r.next.isBreak == s.isBreak && r.next.isActive == s.isActive
            && (!s.isBreak ==> r.next.timeLeft == minutes * 60
                               && r.emitted == [Snapshot(minutes * 60, s.breakTime, minutes * 60, false)])
            && (s.isBreak ==> r.next.timeLeft == s.timeLeft && r.emitted == [])
  {
  }

  /** The mirror image of `EditWorkSpec` for the break time. */
  lemma EditBreakSpec(s: TimerState, minutes: int)
    ensures var r := EditBreakStep(s, minutes);
            && r.next.breakTime == minutes * 60
            && r.next.workTime == s.workTime && r.next.isBreak == s.isBreak && r.next.isActive == s.isActive
            && (s.isBreak ==> r.next.timeLeft == minutes * 60
                              && r.emitted == [Snapshot(s.workTime, minutes * 60, minutes * 60, true)])
            && (!s.isBreak ==> r.next.timeLeft == s.timeLeft && r.emitted == [])
  {
  }

  // ---------------------------------------------------------------------------
  // Runs of ticks

  /** `n` consecutive firings of the interval. */
  function RunTicks(s: TimerState, n: nat): (r: Step)
    ensures Inv(s) ==> Inv(r.next)
    decreases n
  {
    if n == 0 then Step(s, [])
    else
      var a := TickStep(s);
      var b := RunTicks(a.next, n - 1);
      Step(b.next, a.emitted + b.emitted)
  }

  /** The snapshots of a countdown of `n` seconds from state `s`. */
  function Countdown(s: TimerState, n: nat): seq<Snapshot> {
    seq(n, i => Snapshot(s.workTime, s.breakTime, s.timeLeft - 1 - i, s.isBreak))
  }

  /** While running, `n` ticks (no more than the time left) lower the time
      left by `n` and report each intermediate value once, in order. */
  lemma {:induction false} CountdownSpec(s: TimerState, n: nat)
    requires s.isActive && n <= s.timeLeft
    ensures RunTicks(s, n).next == s.(timeLeft := s.timeLeft - n)
    ensures RunTicks(s, n).emitted == Countdown(s, n)
    decreases n
  {
    if n > 0 {
      var a := TickStep(s);
      CountdownSpec(a.next, n - 1);
      var tail := Countdown(a.next, n - 1);
      assert Countdown(s, n) == a.emitted + tail by {
        forall i | 0 <= i < n ensures Countdown(s, n)[i] == (a.emitted + tail)[i] {
          if i > 0 { assert tail[i - 1] == Countdown(s, n)[i]; }
        }
      }
    }
  }

  /** A whole phase: started with `t` seconds left, the timer ticks `t`
      times down to zero, further ticks do nothing, and the transition then
      leaves it stopped at the start of the other phase; `t + 1` callbacks are made. */
  lemma {:induction false} PhaseRunsOut(s: TimerState, extra: nat)
    requires Inv(s) && s.isActive
    ensures var down := RunTicks(s, s.timeLeft);
            var idle := RunTicks(down.next, extra);
            var t := TransitionStep(idle.next);
            && down.next.timeLeft == 0
            && idle == Step(down.next, [])
            && t.next == TimerState(s.workTime, s.breakTime, PhaseLength(t.next), false, !s.isBreak)
            && |down.emitted + t.emitted| == s.timeLeft + 1
  {
    var down := RunTicks(s, s.timeLeft);
    CountdownSpec(s, s.timeLeft);
    IdleTicks(down.next, extra);
  }

  /** Ticks at zero time left do nothing. */
  lemma {:induction false} IdleTicks(s: TimerState, n: nat)
    requires s.timeLeft == 0
    ensures RunTicks(s, n) == Step(s, [])
  {
    if n > 0 {
      IdleTicks(s, n - 1);
    }
  }

  // ---------------------------------------------------------------------------
  // formatTime

  /** The quotient of a division that rounds toward zero. */
  function TruncatedQuotient(a: int, b: int): int
    requires b > 0
  {
    if a >= 0 then a / b else -((-a) / b)
  }

  /** JavaScript's `%`: what is left after the quotient rounded toward zero,
      smaller than the divisor and zero or of the dividend's sign. */
  function JsRemainder(a: int, b: int): (r: int)
    requires b > 0
    ensures a == b * TruncatedQuotient(a, b) + r
    ensures -b < r < b
    ensures r == 0 || (r > 0 <==> a > 0)
  {
    var r := if a >= 0 then a % b else -((-a) % b);
    TruncatedDivision(a, b, r);
    r
  }

  /** Division rounding toward zero, and what it leaves. */
  lemma TruncatedDivision(a: int, b: int, r: int)
    requires b > 0 && r == if a >= 0 then a % b else -((-a) % b)
    ensures a == b * TruncatedQuotient(a, b) + r
  {
    if a < 0 {
      var q, m := (-a) / b, (-a) % b;
      assert -a == b * q + m;
      assert TruncatedQuotient(a, b) == -q;
      assert b * -q == -(b * q);
    }
  }

  /** `formatTime`: `Math.floor(s / 60)` and `s % 60`, each padded to two digits, joined by a colon. */
  function FormatTime(seconds: int): string {
    var minutes := seconds / 60;  // Dafny's division by a positive number rounds down, as Math.floor does
    var remainingSeconds := JsRemainder(seconds, 60);
    PadStart(IntToString(minutes), 2, '0') + ":" + PadStart(IntToString(remainingSeconds), 2, '0')
  }

  /** For a non-negative time, `formatTime` gives `MM:SS`: digits, a colon,
      two digits of seconds below 60, with minutes * 60 + seconds the
      input; below 100 minutes the text is five characters long. */
  lemma FormatTimeSpec(seconds: int)
    requires seconds >= 0
    ensures var r := FormatTime(seconds);
            && |r| >= 5 && r[|r| - 3] == ':'
            && AllDigits(r[..|r| - 3]) && AllDigits(r[|r| - 2..])
            && DigitsValue(r[|r| - 2..]) < 60
            && DigitsValue(r[..|r| - 3]) * 60 + DigitsValue(r[|r| - 2..]) == seconds
            && (seconds < 6000 ==> |r| == 5)
  {
    var m, sec := seconds / 60, seconds % 60;
    var mp, sp := PadStart(NatToString(m), 2, '0'), PadStart(NatToString(sec), 2, '0');
    assert FormatTime(seconds) == mp + ":" + sp;
    PaddedNumber(m);
    PaddedNumber(sec);
    Fields(mp, sp);
  }

  /** The pieces of `mp + ":" + sp` at the positions counted from the end. */
  lemma Fields(mp: string, sp: string)
    requires |mp| >= 2 && |sp| == 2
    ensures var r := mp + ":" + sp;
            |r| >= 5 && r[|r| - 3] == ':' && r[|r| - 2..] == sp && r[..|r| - 3] == mp
  {
  }

  /** `String(n).padStart(2, '0')` is a digit string worth `n`, of exactly
      two characters when `n < 100`. */
  lemma PaddedNumber(n: nat)
    ensures var p := PadStart(NatToString(n), 2, '0');
            && |p| >= 2
            && AllDigits(p)
            && DigitsValue(p) == n
            && (n < 100 ==> |p| == 2)
  {
    NatToStringValue(n);
    PadValue(NatToString(n));
    if 10 <= n < 100 { NatToStringTwoDigits(n); }
  }

  /** Padding a digit string with zeros keeps it a digit string of the same value. */
  lemma PadValue(s: string)
    requires AllDigits(s)
    ensures var p := PadStart(s, 2, '0');
            && AllDigits(p)
            && DigitsValue(p) == DigitsValue(s)
  {
    if |s| < 2 {
      LeadingZeros(2 - |s|, s);
    }
  }

  // ---------------------------------------------------------------------------
  // The component

  /** One mounted `TodoPomodoroTimer`: its five state variables and the
      `onTimerUpdate` calls it has made so far. */
  class Timer {
    const todoId: Id
    var workTime: int
    var breakTime: int
    var timeLeft: int
    var isActive: bool
    var isBreak: bool
    /** Every `onTimerUpdate(todoId, ...)` call, oldest first. */
    var log: seq<Snapshot>

    ghost function State(): TimerState
      reads this
    {
      TimerState(workTime, breakTime, timeLeft, isActive, isBreak)
    }

    ghost predicate Valid()
      reads this
    {
      Inv(State())
    }

    /** Mount with the todo's stored durations and phase. */
    constructor (todoId: Id, initialWorkTime: int, initialBreakTime: int, initialIsBreak: bool)
      requires initialWorkTime > 0 && initialBreakTime > 0
      ensures Valid()
      ensures this.todoId == todoId
      ensures State() == Initial(initialWorkTime, initialBreakTime, initialIsBreak)
      ensures log == []
    {
      this.todoId := todoId;
      workTime := initialWorkTime;
      breakTime := initialBreakTime;
      timeLeft := if initialIsBreak then initialBreakTime else initialWorkTime;
      isActive := false;
      isBreak := initialIsBreak;
      log := [];
    }

    /** One firing of the interval; `fired` says whether an interval was running. */
    method Tick() returns (fired: bool)
      requires Valid()
      modifies this
      ensures Valid()
      ensures State() == TickStep(old(State())).next
      ensures log == old(log) + TickStep(old(State())).emitted
      ensures fired == old(isActive && timeLeft > 0)
    {
      fired := isActive && timeLeft > 0;
      if fired {
        var newTime := timeLeft - 1;
        log := log + [Snapshot(workTime, breakTime, newTime, isBreak)];
        timeLeft := newTime;
      }
    }

    /** The effect's zero branch; `fired` says whether the time left was zero. */
    method Transition() returns (fired: bool)
      requires Valid()
      modifies this
      ensures Valid()
      ensures State() == TransitionStep(old(State())).next
      ensures log == old(log) + TransitionStep(old(State())).emitted
      ensures fired == (old(timeLeft) == 0)
    {
      fired := timeLeft == 0;
      if fired {
        var newTime := if isBreak then workTime else breakTime;
        isActive := false;
        isBreak := !isBreak;
        timeLeft := newTime;
        log := log + [Snapshot(workTime, breakTime, newTime, isBreak)];
      }
    }

    method ToggleTimer()
      requires Valid()
      modifies this
      ensures Valid()
      ensures State() == ToggleStep(old(State()))
      ensures log == old(log)
    {
      isActive := !isActive;
    }

    method ResetTimer()
      requires Valid()
      modifies this
      ensures Valid()
      ensures State() == ResetStep(old(State())).next
      ensures log == old(log) + ResetStep(old(State())).emitted
    {
      isActive := false;
      timeLeft := workTime;
      isBreak := false;
      log := log + [Snapshot(workTime, breakTime, workTime, false)];
    }

    method HandleWorkTimeChange(minutes: int)
      requires Valid() && minutes >= 1
      modifies this
      ensures Valid()
      ensures State() == EditWorkStep(old(State()), minutes).next
      ensures log == old(log) + EditWorkStep(old(State()), minutes).emitted
    {
      var newWorkTime := minutes * 60;
      workTime := newWorkTime;
      if !isBreak {
        timeLeft := newWorkTime;
        log := log + [Snapshot(newWorkTime, breakTime, newWorkTime, isBreak)];
      }
    }

    method HandleBreakTimeChange(minutes: int)
      requires Valid() && minutes >= 1
      modifies this
      ensures Valid()
      ensures State() == EditBreakStep(old(State()), minutes).next
      ensures log == old(log) + EditBreakStep(old(State()), minutes).emitted
    {
      var newBreakTime := minutes * 60;
      breakTime := newBreakTime;
      if isBreak {
        timeLeft := newBreakTime;
        log := log + [Snapshot(workTime, newBreakTime, newBreakTime, isBreak)];
      }
    }
  }
}
