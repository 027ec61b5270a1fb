/** The Pomodoro timer of the dashboard page (app/frontend/pages/dashboard/index.tsx).
    Its state is three React state variables: the session length in minutes
    (`pomodoroTime`), whether it is counting down (`isTimerRunning`) and the seconds
    left (`currentTime`). The effect at lines 112-123 is modelled as `EffectStep`,
    one run of the effect body together with the one-second tick it schedules. */
module Pomodoro {

  datatype TimerState = TimerState(pomodoroTime: int, isTimerRunning: bool, currentTime: int)

  /** `useState(25)`, `useState(false)`, `useState(pomodoroTime * 60)`. */
  const Initial: TimerState := TimerState(25, false, 25 * 60)

  /** The values the session-length slider produces: 5 to 60 in steps of 5. */
  predicate SliderValue(v: int) {
    5 <= v <= 60 && v % 5 == 0
  }

  /** What the handlers and the tick keep true: a slider-valued session length and
      a count of seconds between zero and the full session. */
  predicate Valid(s: TimerState) {
    SliderValue(s.pomodoroTime) && 0 <= s.currentTime <= s.pomodoroTime * 60
  }

  /** The Start/Pause button: flips the running flag, whatever the seconds left. */
  function ToggleRunning(s: TimerState): TimerState {
    s.(isTimerRunning := !s.isTimerRunning)
  }

  /** The Reset button: a full session's seconds, stopped. */
  function ResetTimer(s: TimerState): TimerState {
    s.(currentTime := s.pomodoroTime * 60, isTimerRunning := false)
  }

  /** The slider's `onValueChange`: new length and a full session's seconds, with
      no check of the running flag. */
  function SetSessionLength(s: TimerState, v: int): TimerState {
    s.(pomodoroTime := v, currentTime := v * 60)
  }

  /** The new state and whether the completion toast is shown. */
  datatype StepResult = StepResult(state: TimerState, completed: bool)

  /** One run of the timer effect: while running with seconds left, the interval
      takes one second off; at zero seconds it stops the timer and shows the
      completion toast; otherwise nothing happens. */
  function EffectStep(s: TimerState): StepResult {
    if s.isTimerRunning && s.currentTime > 0 then
      StepResult(s.(currentTime := s.currentTime - 1), false)
    else if s.currentTime == 0 then
      StepResult(s.(isTimerRunning := false), true)
    else
      StepResult(s, false)
  }

  /** `n` effect steps in a row: the final state and how many completion toasts were shown. */
  function Run(s: TimerState, n: nat): (TimerState, nat)
    decreases n
  {
    if n == 0 then (s, 0)
    else
      var r := EffectStep(s);
      var rest := Run(r.state, n - 1);
      (rest.0, rest.1 + if r.completed then 1 else 0)
  }

  /** Every event keeps the timer state valid; the slider only gives slider values. */
  lemma EventsPreserveValid(s: TimerState, v: int)
    requires Valid(s)
    ensures Valid(ToggleRunning(s)) && Valid(ResetTimer(s)) && Valid(EffectStep(s).state)
    ensures SliderValue(v) ==> Valid(SetSessionLength(s, v))
  {
  }

  /** The seconds change only when the timer runs with seconds left, and then by
      exactly one, so they never go below zero. */
  lemma TickTakesOneSecond(s: TimerState)
    requires s.currentTime >= 0
    ensures EffectStep(s).state.currentTime != s.currentTime <==> s.isTimerRunning && s.currentTime > 0
    ensures s.isTimerRunning && s.currentTime > 0 ==> EffectStep(s).state.currentTime == s.currentTime - 1
    ensures EffectStep(s).state.currentTime >= 0
    ensures EffectStep(s).state.pomodoroTime == s.pomodoroTime
  {
  }

  /** At zero seconds the effect stops the timer and signals completion without
      taking a second off; it signals completion at no other time. */
  lemma CompletionAtZero(s: TimerState)
    ensures EffectStep(s).completed <==> s.currentTime == 0
    ensures s.currentTime == 0 ==>
      !EffectStep(s).state.isTimerRunning && EffectStep(s).state.currentTime == 0
  {
  }

  /** Nothing guards the completion branch: every further step at zero signals
      completion again, and pressing Start at zero runs it once more. */
  lemma CompletionRepeats(s: TimerState)
    requires s.currentTime == 0
    ensures Run(s, 2).1 == 2
    ensures ToggleRunning(EffectStep(s).state).isTimerRunning
    ensures EffectStep(ToggleRunning(EffectStep(s).state)).completed
  {
  }

  /** While seconds are left, `n` steps of a running timer take off exactly `n`
      seconds and signal no completion. */
  lemma {:induction false} RunWhileRunning(s: TimerState, n: nat)
    requires s.isTimerRunning && n <= s.currentTime
    ensures Run(s, n) == (s.(currentTime := s.currentTime - n), 0)
    decreases n
  {
    if n > 0 {
      var next := s.(currentTime := s.currentTime - 1);
      assert EffectStep(s) == StepResult(next, false);
      RunWhileRunning(next, n - 1);
    }
  }

  /** A running timer with `c` seconds left reaches zero after `c` steps and stops,
      with one completion signal, on the step after. */
  lemma RunToCompletion(s: TimerState)
    requires s.isTimerRunning && s.currentTime >= 0
    ensures Run(s, s.currentTime + 1) == (s.(currentTime := 0, isTimerRunning := false), 1)
  {
    RunWhileRunning(s, s.currentTime);
    RunSplit(s, s.currentTime, 1);
  }

  /** Running `m + n` steps is running `m` steps and then `n` more. */
  lemma {:induction false} RunSplit(s: TimerState, m: nat, n: nat)
    ensures Run(s, m + n) == (Run(Run(s, m).0, n).0, Run(s, m).1 + Run(Run(s, m).0, n).1)
    decreases m
  {
    if m > 0 {
      RunSplit(EffectStep(s).state, m - 1, n);
    }
  }

  /** Start/Pause changes nothing but the running flag, so pausing and resuming
      loses no seconds, and two presses restore the state. */
  lemma PauseResumeKeepsSeconds(s: TimerState)
    ensures ToggleRunning(s).currentTime == s.currentTime
    ensures ToggleRunning(s).pomodoroTime == s.pomodoroTime
    ensures ToggleRunning(ToggleRunning(s)) == s
  {
  }

  /** A running timer with `c` seconds left shows the completion toast twice: once
      on step `c + 1`, which stops it at zero, and again on the step after, because
      turning the running flag off runs the effect once more while the seconds are
      still zero. That second run changes nothing else. */
  lemma SessionEndsWithTwoCompletions(s: TimerState)
    requires s.isTimerRunning && s.currentTime >= 0
    ensures Run(s, s.currentTime + 2) == (s.(currentTime := 0, isTimerRunning := false), 2)
  {
    RunToCompletion(s);
    RunSplit(s, s.currentTime + 1, 1);
  }

  /** After Reset and Start, a whole session of `pomodoroTime * 60` seconds runs
      down to zero and stops after `pomodoroTime * 60 + 1` effect runs, having shown
      the completion toast once; the run forced by the flag flip shows it a second time. */
  lemma ResetGivesFullSession(s: TimerState)
    requires Valid(s)
    ensures var started := ToggleRunning(ResetTimer(s));
      && Run(started, s.pomodoroTime * 60 + 1) == (TimerState(s.pomodoroTime, false, 0), 1)
      && Run(started, s.pomodoroTime * 60 + 2) == (TimerState(s.pomodoroTime, false, 0), 2)
  {
    RunToCompletion(ToggleRunning(ResetTimer(s)));
    SessionEndsWithTwoCompletions(ToggleRunning(ResetTimer(s)));
  }

  /** Moving the slider while the timer runs restarts the count from the new
      length and leaves it running. */
  lemma SliderWhileRunning(s: TimerState, v: int)
    requires s.isTimerRunning && SliderValue(v)
    ensures SetSessionLength(s, v).isTimerRunning
    ensures SetSessionLength(s, v).currentTime == v * 60 >= 300
  {
  }

  /** Five-minute session, Start, 10 seconds, Pause, Start, 5 seconds: 285 seconds left. */
  lemma PauseResumeScenario()
    ensures var s1 := ToggleRunning(SetSessionLength(Initial, 5));
      var s2 := ToggleRunning(ToggleRunning(Run(s1, 10).0));
      Run(s1, 10).0.currentTime == 290 && Run(s2, 5) == (s2.(currentTime := 285), 0)
  {
    var s1 := ToggleRunning(SetSessionLength(Initial, 5));
    RunWhileRunning(s1, 10);
    var s2 := ToggleRunning(ToggleRunning(Run(s1, 10).0));
    RunWhileRunning(s2, 5);
  }

  /** The default 25-minute session, once started, is stopped at zero after 1501
      effect runs with one completion toast, and the run forced by the flag flip
      brings it to two. */
  lemma DefaultSessionScenario()
    ensures Run(ToggleRunning(Initial), 1501) == (TimerState(25, false, 0), 1)
    ensures Run(ToggleRunning(Initial), 1502) == (TimerState(25, false, 0), 2)
  {
    SessionEndsWithTwoCompletions(ToggleRunning(Initial));
    RunToCompletion(ToggleRunning(Initial));
  }

  /** The timer's state as fields that the handlers update in place. */
  class PomodoroTimer {
    var pomodoroTime: int
    var isTimerRunning: bool
    var currentTime: int

    function State(): TimerState
      reads this
    {
      TimerState(pomodoroTime, isTimerRunning, currentTime)
    }

    constructor ()
      ensures State() == Initial && Valid(State())
    {
      pomodoroTime := 25;
      isTimerRunning := false;
      currentTime := 25 * 60;
    }

    /** The Start/Pause button; `startedToast` tells whether "Timer started" is shown. */
    method StartPause() returns (startedToast: bool)
      modifies this
      ensures State() == ToggleRunning(old(State()))
      ensures startedToast == !old(isTimerRunning)
      ensures Valid(old(State())) ==> Valid(State())
    {
      startedToast := !isTimerRunning;
      isTimerRunning := !isTimerRunning;
    }

    /** The Reset button. */
    method Reset()
      modifies this
      ensures State() == ResetTimer(old(State()))
      ensures Valid(old(State())) ==> Valid(State())
    {
      currentTime := pomodoroTime * 60;
      isTimerRunning := false;
    }

    /** The session-length slider. */
    method SetLength(v: int)
      requires SliderValue(v)
      modifies this
      ensures State() == SetSessionLength(old(State()), v)
      ensures Valid(old(State())) ==> Valid(State())
    {
      pomodoroTime := v;
      currentTime := v * 60;
    }

    /** One run of the timer effect; `completed` tells whether the completion toast is shown. */
    method Step() returns (completed: bool)
      modifies this
      ensures StepResult(State(), completed) == EffectStep(old(State()))
      ensures Valid(old(State())) ==> Valid(State())
    {
      completed := false;
      if isTimerRunning && currentTime > 0 {
        currentTime := currentTime - 1;
      } else if currentTime == 0 {
        isTimerRunning := false;
        completed := true;
      }
    }
  }
}
