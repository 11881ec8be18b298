/**
 * The step player of the AR troubleshooting view: the four pieces of React state
 * (`currentStep`, `isPlaying`, `isCompleted`, `stepProgress`), the 50 ms interval that
 * drives a step forward, the control handlers, and the two title classifiers that
 * choose the phone screen and the highlight target.
 *
 * React state updates are taken as synchronous assignments. The effect that owns the
 * interval depends on `[currentStep, isPlaying, isCompleted]`: it is torn down and set
 * up again (with `elapsed` back at 0) exactly when one of those three changed, which
 * `Resync` states. `setInterval` becomes an explicit `Tick`.
 */
module ArCanvas {
  import opened JsText

  /** A step as the player reads it; `duration == 0` stands for every falsy value. */
  datatype Step = Step(title: string, duration: int)

  /** The interval period, in milliseconds. */
  const Interval: int := 50
  /** The duration used when a step has none. */
  const FallbackDuration: int := 5000

  /** `step.duration || 5000` */
  function Duration(s: Step): int
  {
    if s.duration == 0 then FallbackDuration else s.duration
  }

  lemma DurationNonZero(s: Step)
    ensures Duration(s) != 0
    ensures s.duration >= 0 ==> Duration(s) > 0
  {
  }

  /** The callbacks the player fires: `onStepComplete(index)` and `onInstructionComplete()`. */
  datatype Event = StepCompleted(index: int) | InstructionCompleted

  /** The whole observable state of the player. */
  datatype PlayerState = PlayerState(
    steps: seq<Step>,
    currentStep: int,
    isPlaying: bool,
    isCompleted: bool,
    stepProgress: real,
    // the interval's own counter, and whether an interval is installed
    elapsed: int,
    timerRunning: bool,
    // every callback fired so far, oldest first
    events: seq<Event>)

  /** The values the timer effect depends on. */
  datatype Deps = Deps(currentStep: int, isPlaying: bool, isCompleted: bool)

  function DepsOf(p: PlayerState): Deps
  {
    Deps(p.currentStep, p.isPlaying, p.isCompleted)
  }

  /** `currentStepData` is not null. */
  predicate HasStep(p: PlayerState)
  {
    0 <= p.currentStep < |p.steps|
  }

  predicate PositiveDurations(steps: seq<Step>)
  {
    forall i :: 0 <= i < |steps| ==> Duration(steps[i]) > 0
  }

  /** What every handler maintains. */
  predicate Valid(p: PlayerState)
  {
    && 0 <= p.currentStep
    && (p.currentStep < |p.steps| || (|p.steps| == 0 && p.currentStep == 0))
    && p.elapsed >= 0
    && (p.timerRunning ==> p.isPlaying && !p.isCompleted && HasStep(p))
    && (PositiveDurations(p.steps) ==> 0.0 <= p.stepProgress <= 100.0)
  }

  /** `Math.min((elapsed / duration) * 100, 100)`, in exact arithmetic. */
  function Progress(elapsed: int, duration: int): real
    requires duration != 0
  {
    var pct := (elapsed as real / duration as real) * 100.0;
    if pct < 100.0 then pct else 100.0
  }

  lemma ProgressBounds(elapsed: int, duration: int)
    requires elapsed >= 0 && duration > 0
    ensures 0.0 <= Progress(elapsed, duration) <= 100.0
    ensures Progress(elapsed, duration) == 100.0 <==> elapsed >= duration
  {
    var q := elapsed as real / duration as real;
    assert q >= 0.0;
    assert q * duration as real == elapsed as real;
    if elapsed >= duration {
      assert q >= 1.0;
    } else {
      assert q < 1.0;
    }
  }

  /**
   * A negative stored duration is truthy and survives `|| 5000`, so the progress bound
   * needs positive durations: on a single step of -100 ms the first firing completes the
   * run with the progress at -50.
   */
  lemma NegativeDurationProgress()
    ensures var p := PlayerState([Step("x", -100)], 0, true, false, 0.0, 0, true, []);
      && Valid(p) && Valid(OnTick(p))
      && OnTick(p).stepProgress == -50.0 && OnTick(p).isCompleted
  {
    var p := PlayerState([Step("x", -100)], 0, true, false, 0.0, 0, true, []);
    assert !PositiveDurations(p.steps);
  }

  function Initial(steps: seq<Step>): PlayerState
  {
    PlayerState(steps, 0, false, false, 0.0, 0, false, [])
  }

  /**
   * The timer effect, run after a handler: when one of its dependencies changed, the
   * old interval is cleared and a new one with `elapsed = 0` is installed if the player
   * is playing, has a step, and is not completed. Otherwise nothing is re-run.
   */
  function Resync(before: Deps, p: PlayerState): PlayerState
  {
    if DepsOf(p) == before then p
    else p.(elapsed := 0, timerRunning := p.isPlaying && HasStep(p) && !p.isCompleted)
  }

  /** `handleStepCompletion`, before the effect re-runs. */
  function StepCompletion(p: PlayerState): PlayerState
  {
    if p.currentStep < |p.steps| - 1 then
      p.(currentStep := p.currentStep + 1, stepProgress := 0.0,
         events := p.events + [StepCompleted(p.currentStep + 1)])
    else
      p.(isCompleted := true, isPlaying := false, events := p.events + [InstructionCompleted])
  }

  /** One firing of the 50 ms interval. */
  function OnTick(p: PlayerState): PlayerState
  {
    if !p.timerRunning || !HasStep(p) then p
    else
      var d := Duration(p.steps[p.currentStep]);
      var e := p.elapsed + Interval;
      var q := p.(elapsed := e, stepProgress := Progress(e, d));
      if e >= d then Resync(DepsOf(p), StepCompletion(q.(timerRunning := false))) else q
  }

  /** `handleNextStep`: clear the interval, then complete the step. */
  function OnNext(p: PlayerState): PlayerState
  {
    Resync(DepsOf(p), StepCompletion(p.(timerRunning := false)))
  }

  /** `handlePrevStep` */
  function OnPrev(p: PlayerState): PlayerState
  {
    if p.currentStep > 0 && !p.isCompleted then
      Resync(DepsOf(p), p.(timerRunning := false, currentStep := p.currentStep - 1, stepProgress := 0.0))
    else p
  }

  /** `handleRestart`: `isPlaying` is left as it is. */
  function OnRestart(p: PlayerState): PlayerState
  {
    Resync(DepsOf(p), p.(timerRunning := false, currentStep := 0, isCompleted := false, stepProgress := 0.0))
  }

  /** `handlePlayPause` */
  function OnPlayPause(p: PlayerState): PlayerState
  {
    Resync(DepsOf(p), p.(isPlaying := !p.isPlaying))
  }

  /** The sidebar entry `index` was clicked. */
  function OnSelect(p: PlayerState, index: int): PlayerState
  {
    if !p.isCompleted && index != p.currentStep then
      Resync(DepsOf(p), p.(timerRunning := false, currentStep := index, stepProgress := 0.0))
    else p
  }

  /** The "Review Steps" button of the completion overlay. */
  function OnReview(p: PlayerState): PlayerState
  {
    Resync(DepsOf(p), p.(isCompleted := false))
  }

  // ---------------------------------------------------------------------------
  // Properties of the handlers

  lemma ResyncKeepsValid(before: Deps, p: PlayerState)
    requires Valid(p.(timerRunning := false))
    requires p.timerRunning ==> p.isPlaying && !p.isCompleted && HasStep(p)
    ensures Valid(Resync(before, p))
  {
  }

  lemma TickKeepsValid(p: PlayerState)
    requires Valid(p)
    ensures Valid(OnTick(p))
  {
    if p.timerRunning && HasStep(p) {
      var d := Duration(p.steps[p.currentStep]);
      var e := p.elapsed + Interval;
      if PositiveDurations(p.steps) {
        ProgressBounds(e, d);
      }
      var q := p.(elapsed := e, stepProgress := Progress(e, d));
      assert Valid(q);
      if e >= d {
        var r := StepCompletion(q.(timerRunning := false));
        assert Valid(r);
        ResyncKeepsValid(DepsOf(p), r);
      }
    }
  }

  lemma ControlsKeepValid(p: PlayerState, index: int)
    requires Valid(p)
    requires 0 <= index < |p.steps|
    ensures Valid(OnNext(p)) && Valid(OnPrev(p)) && Valid(OnRestart(p))
    ensures Valid(OnPlayPause(p)) && Valid(OnSelect(p, index)) && Valid(OnReview(p))
  {
  }

  /**
   * Every handler keeps `currentStep` in range and, when every step's duration is
   * positive, the progress within [0, 100].
   */
  lemma HandlersKeepValid(p: PlayerState, index: int)
    requires Valid(p)
    requires 0 <= index < |p.steps|
    ensures Valid(OnTick(p)) && Valid(OnNext(p)) && Valid(OnPrev(p)) && Valid(OnRestart(p))
    ensures Valid(OnPlayPause(p)) && Valid(OnSelect(p, index)) && Valid(OnReview(p))
  {
    TickKeepsValid(p);
    ControlsKeepValid(p, index);
  }

  /** Advancing before the last step moves on by one and reports the new index. */
  lemma AdvanceBeforeLast(p: PlayerState)
    requires Valid(p) && p.currentStep < |p.steps| - 1
    ensures OnNext(p).currentStep == p.currentStep + 1
    ensures OnNext(p).stepProgress == 0.0
    ensures OnNext(p).isCompleted == p.isCompleted && OnNext(p).isPlaying == p.isPlaying
    ensures OnNext(p).events == p.events + [StepCompleted(p.currentStep + 1)]
    ensures OnNext(p).elapsed == 0
    ensures OnNext(p).timerRunning <==> p.isPlaying && !p.isCompleted
  {
  }

  /**
   * Advancing at the last step completes the sequence and stops playback; the index
   * stays. There is no guard against a player that is already completed.
   */
  lemma AdvanceAtLast(p: PlayerState)
    requires Valid(p) && p.currentStep >= |p.steps| - 1
    ensures OnNext(p).isCompleted && !OnNext(p).isPlaying && !OnNext(p).timerRunning
    ensures OnNext(p).currentStep == p.currentStep
    ensures OnNext(p).stepProgress == p.stepProgress
    ensures OnNext(p).events == p.events + [InstructionCompleted]
  {
  }

  /** Previous moves back and clears the progress exactly when it is allowed to. */
  lemma PrevStepBehaviour(p: PlayerState)
    requires Valid(p)
    ensures p.currentStep > 0 && !p.isCompleted ==>
      OnPrev(p).currentStep == p.currentStep - 1 && OnPrev(p).stepProgress == 0.0
      && OnPrev(p).events == p.events && OnPrev(p).isPlaying == p.isPlaying
      && OnPrev(p).elapsed == 0
    ensures !(p.currentStep > 0 && !p.isCompleted) ==> OnPrev(p) == p
  {
  }

  lemma RestartBehaviour(p: PlayerState)
    requires Valid(p)
    ensures OnRestart(p).currentStep == 0 && !OnRestart(p).isCompleted && OnRestart(p).stepProgress == 0.0
    ensures OnRestart(p).isPlaying == p.isPlaying && OnRestart(p).events == p.events
  {
  }

  /**
   * A restart while the first step is playing changes none of the effect's
   * dependencies, so the interval it cleared is never installed again: the player
   * still says it is playing, yet no tick has any effect until play/pause is pressed.
   */
  lemma {:induction false} RestartOnFirstStepStopsTimer(p: PlayerState, n: nat)
    requires Valid(p) && p.currentStep == 0 && p.isPlaying && !p.isCompleted
    ensures OnRestart(p).isPlaying && !OnRestart(p).timerRunning
    ensures Ticks(OnRestart(p), n) == OnRestart(p)
  {
    if n > 0 {
      RestartOnFirstStepStopsTimer(p, n - 1);
    }
  }

  /** A sidebar click changes the state exactly when it is allowed to. */
  lemma SelectStepBehaviour(p: PlayerState, index: int)
    requires Valid(p) && 0 <= index < |p.steps|
    ensures !p.isCompleted && index != p.currentStep ==>
      OnSelect(p, index).currentStep == index && OnSelect(p, index).stepProgress == 0.0
      && OnSelect(p, index).elapsed == 0 && OnSelect(p, index).events == p.events
    ensures p.isCompleted || index == p.currentStep ==> OnSelect(p, index) == p
  {
  }

  /** Play/pause flips `isPlaying` and always starts `elapsed` again from 0. */
  lemma PlayPauseBehaviour(p: PlayerState)
    requires Valid(p)
    ensures OnPlayPause(p).isPlaying == !p.isPlaying
    ensures OnPlayPause(p).elapsed == 0 && OnPlayPause(p).stepProgress == p.stepProgress
    ensures OnPlayPause(p).timerRunning <==> !p.isPlaying && !p.isCompleted && HasStep(p)
    ensures OnPlayPause(OnPlayPause(p)).isPlaying == p.isPlaying
  {
  }

  /** The interval only has an effect while playing and not completed. */
  lemma TickOnlyWhilePlaying(p: PlayerState)
    requires Valid(p)
    requires !p.isPlaying || p.isCompleted
    ensures OnTick(p) == p
  {
  }

  /** Each tick adds 50 ms; below the duration it only updates the progress. */
  lemma TickBeforeDuration(p: PlayerState)
    requires Valid(p) && p.timerRunning
    requires p.elapsed + Interval < Duration(p.steps[p.currentStep])
    ensures OnTick(p) == p.(elapsed := p.elapsed + Interval,
                          stepProgress := Progress(p.elapsed + Interval, Duration(p.steps[p.currentStep])))
  {
  }

  /** Reaching the duration advances, exactly as the Next button does. */
  lemma TickAtDuration(p: PlayerState)
    requires Valid(p) && p.timerRunning
    requires p.elapsed + Interval >= Duration(p.steps[p.currentStep])
    ensures OnTick(p).currentStep == OnNext(p).currentStep
    ensures OnTick(p).isCompleted == OnNext(p).isCompleted
    ensures OnTick(p).events == OnNext(p).events
    ensures PositiveDurations(p.steps) && p.currentStep == |p.steps| - 1 ==> OnTick(p).stepProgress == 100.0
  {
    if PositiveDurations(p.steps) {
      ProgressBounds(p.elapsed + Interval, Duration(p.steps[p.currentStep]));
    }
  }

  // ---------------------------------------------------------------------------
  // Runs of ticks

  /** `n` applications of `f`, starting from `p`. */
  function Iterate(f: PlayerState -> PlayerState, p: PlayerState, n: nat): PlayerState
  {
    if n == 0 then p else f(Iterate(f, p, n - 1))
  }

  lemma {:induction false} IterateAdd(f: PlayerState -> PlayerState, p: PlayerState, a: nat, b: nat)
    ensures Iterate(f, p, a + b) == Iterate(f, Iterate(f, p, a), b)
  {
    if b > 0 {
      IterateAdd(f, p, a, b - 1);
    }
  }

  lemma {:induction false} IterateFixed(f: PlayerState -> PlayerState, p: PlayerState, n: nat)
    requires f(p) == p
    ensures Iterate(f, p, n) == p
  {
    if n > 0 {
      IterateFixed(f, p, n - 1);
    }
  }

  /** `n` firings of the interval. */
  function Ticks(p: PlayerState, n: nat): PlayerState
  {
    Iterate(OnTick, p, n)
  }

  lemma TicksAdd(p: PlayerState, a: nat, b: nat)
    ensures Ticks(p, a + b) == Ticks(Ticks(p, a), b)
  {
    IterateAdd(OnTick, p, a, b);
  }

  lemma TickOnce(p: PlayerState, n: nat)
    requires n > 0
    ensures Ticks(p, n) == OnTick(Ticks(p, n - 1))
  {
  }

  /** The number of ticks a step of duration `d > 0` lasts: the least `k` with `50 k >= d`. */
  function TicksFor(d: int): (k: nat)
    requires d > 0
    ensures 50 * k >= d && 50 * (k - 1) < d
  {
    (d + 49) / 50
  }

  /** An interval that was just installed, over steps whose durations are all positive. */
  predicate FreshTimer(p: PlayerState)
  {
    Valid(p) && p.timerRunning && p.elapsed == 0 && PositiveDurations(p.steps)
  }

  lemma {:induction false} TicksWithinStep(p: PlayerState, j: nat)
    requires FreshTimer(p)
    requires 0 < j < TicksFor(Duration(p.steps[p.currentStep]))
    ensures Ticks(p, j) == p.(elapsed := Interval * j,
                              stepProgress := Progress(Interval * j, Duration(p.steps[p.currentStep])))
  {
    TickOnce(p, j);
    if j > 1 {
      TicksWithinStep(p, j - 1);
    }
  }

  /** A fresh interval runs its step to the end and then advances once. */
  lemma {:induction false} TicksThroughStep(p: PlayerState)
    requires FreshTimer(p)
    ensures StepDone(p, Ticks(p, TicksFor(Duration(p.steps[p.currentStep]))))
  {
    var d := Duration(p.steps[p.currentStep]);
    var k := TicksFor(d);
    var before := if k == 1 then p else Ticks(p, k - 1);
    if k > 1 {
      TicksWithinStep(p, k - 1);
    }
    assert before.timerRunning && before.elapsed == Interval * (k - 1) && DepsOf(before) == DepsOf(p);
    assert before.steps == p.steps && before.events == p.events && Valid(before);
    TickOnce(p, k);
    TickFinishesStep(before);
  }

  /** `q` is the state after the step of `p` ran out: the next step is fresh, or the run is complete. */
  predicate StepDone(p: PlayerState, q: PlayerState)
    requires 0 <= p.currentStep < |p.steps|
  {
    && q.steps == p.steps
    && (p.currentStep < |p.steps| - 1 ==>
          FreshTimer(q) && q.currentStep == p.currentStep + 1 && q.isPlaying
          && q.events == p.events + [StepCompleted(p.currentStep + 1)])
    && (p.currentStep == |p.steps| - 1 ==>
          Valid(q) && q.isCompleted && !q.isPlaying && !q.timerRunning && q.currentStep == p.currentStep
          && q.events == p.events + [InstructionCompleted])
  }

  /** The tick that reaches the duration: the whole state after it. */
  lemma TickFinishesStep(p: PlayerState)
    requires Valid(p) && p.timerRunning && PositiveDurations(p.steps)
    requires p.elapsed + Interval >= Duration(p.steps[p.currentStep])
    ensures p.currentStep < |p.steps| - 1 ==>
      OnTick(p) == p.(currentStep := p.currentStep + 1, stepProgress := 0.0, elapsed := 0,
                      events := p.events + [StepCompleted(p.currentStep + 1)])
    ensures p.currentStep == |p.steps| - 1 ==>
      OnTick(p) == p.(elapsed := 0, stepProgress := 100.0, timerRunning := false,
                      isCompleted := true, isPlaying := false, events := p.events + [InstructionCompleted])
  {
    ProgressBounds(p.elapsed + Interval, Duration(p.steps[p.currentStep]));
  }

  /** The callbacks of a run from step `i` to the end: each later index once, then completion. */
  function CompletionEvents(i: int, n: int): (es: seq<Event>)
    requires 0 <= i < n
    ensures |es| == n - i
    ensures forall j :: 0 <= j < n - 1 - i ==> es[j] == StepCompleted(i + 1 + j)
    ensures es[n - 1 - i] == InstructionCompleted
    decreases n - i
  {
    if i == n - 1 then [InstructionCompleted] else [StepCompleted(i + 1)] + CompletionEvents(i + 1, n)
  }

  /** How many ticks it takes to play the steps from `i` to the end. */
  function RunLength(steps: seq<Step>, i: int): nat
    requires 0 <= i <= |steps| && PositiveDurations(steps)
    decreases |steps| - i
  {
    if i == |steps| then 0 else TicksFor(Duration(steps[i])) + RunLength(steps, i + 1)
  }

  /** The end state of a run that started on a fresh interval in state `p`. */
  predicate RanToEnd(p: PlayerState, q: PlayerState)
    requires 0 <= p.currentStep < |p.steps|
  {
    && Valid(q) && q.isCompleted && !q.isPlaying && !q.timerRunning
    && q.currentStep == |p.steps| - 1
    && q.events == p.events + CompletionEvents(p.currentStep, |p.steps|)
  }

  /** A step that ran out, followed by a run of the rest, is a run from the step. */
  lemma CombineRun(p: PlayerState, mid: PlayerState, q: PlayerState)
    requires FreshTimer(p) && p.currentStep < |p.steps| - 1
    requires StepDone(p, mid) && RanToEnd(mid, q)
    ensures RanToEnd(p, q)
  {
    var i := p.currentStep;
    var es := CompletionEvents(i + 1, |p.steps|);
    assert CompletionEvents(i, |p.steps|) == [StepCompleted(i + 1)] + es;
    assert q.events == p.events + [StepCompleted(i + 1)] + es;
  }

  /** A fresh interval on step `i` plays every remaining step and completes exactly once. */
  lemma {:induction false} RunToCompletion(p: PlayerState)
    requires FreshTimer(p)
    ensures RanToEnd(p, Ticks(p, RunLength(p.steps, p.currentStep)))
    decreases |p.steps| - p.currentStep, 1
  {
    if p.currentStep < |p.steps| - 1 {
      RunFromEarlierStep(p);
    } else {
      RunFromLastStep(p);
    }
  }

  lemma RunFromLastStep(p: PlayerState)
    requires FreshTimer(p) && p.currentStep == |p.steps| - 1
    ensures RanToEnd(p, Ticks(p, RunLength(p.steps, p.currentStep)))
  {
    var i := p.currentStep;
    var k := TicksFor(Duration(p.steps[i]));
    TicksThroughStep(p);
    assert RunLength(p.steps, i) == k;
    assert CompletionEvents(i, |p.steps|) == [InstructionCompleted];
  }

  lemma {:induction false} RunFromEarlierStep(p: PlayerState)
    requires FreshTimer(p) && p.currentStep < |p.steps| - 1
    ensures RanToEnd(p, Ticks(p, RunLength(p.steps, p.currentStep)))
    decreases |p.steps| - p.currentStep, 0
  {
    var i := p.currentStep;
    var k := TicksFor(Duration(p.steps[i]));
    TicksThroughStep(p);
    var mid := Ticks(p, k);
    var rest := RunLength(p.steps, i + 1);
    assert RunLength(p.steps, i) == k + rest;
    RunToCompletion(mid);
    var q := Ticks(mid, rest);
    TicksAdd(p, k, rest);
    CombineRun(p, mid, q);
  }

  /** Once the interval is gone, further ticks change nothing. */
  lemma TicksWithoutTimer(p: PlayerState, n: nat)
    requires !p.timerRunning
    ensures Ticks(p, n) == p
  {
    IterateFixed(OnTick, p, n);
  }

  /**
   * Pressing play on a fresh player whose step durations are all positive and letting
   * the interval run: the step callbacks
   * fire for 1, 2, ..., N-1 in that order, then completion fires once, and nothing
   * fires afterwards however long the interval keeps being asked.
   */
  lemma {:induction false} PlayThrough(steps: seq<Step>, extra: nat)
    requires |steps| > 0 && PositiveDurations(steps)
    ensures var q := Ticks(OnPlayPause(Initial(steps)), RunLength(steps, 0) + extra);
      && q.isCompleted && !q.isPlaying && q.currentStep == |steps| - 1
      && q.events == CompletionEvents(0, |steps|)
  {
    var p := OnPlayPause(Initial(steps));
    assert FreshTimer(p);
    RunToCompletion(p);
    var q := Ticks(p, RunLength(steps, 0));
    TicksAdd(p, RunLength(steps, 0), extra);
    TicksWithoutTimer(q, extra);
  }

  // ---------------------------------------------------------------------------
  // The title classifiers

  /** The screen drawn on the phone model. */
  datatype ScreenType = HomeScreen | SettingsScreen | BatteryScreen | RestartScreen

  /** `screenType` in `updatePhoneScreen`. */
  function ScreenTypeOf(title: string): (t: ScreenType)
  {
    var lower := ToLower(title);
    if Contains(lower, "settings") then SettingsScreen
    else if Contains(lower, "battery") then BatteryScreen
    else if Contains(lower, "restart") || Contains(lower, "power") then RestartScreen
    else HomeScreen
  }

  lemma ScreenTypePriority(title: string)
    ensures var lower := ToLower(title);
      && (ScreenTypeOf(title) == SettingsScreen <==> Contains(lower, "settings"))
      && (ScreenTypeOf(title) == BatteryScreen <==> !Contains(lower, "settings") && Contains(lower, "battery"))
      && (ScreenTypeOf(title) == RestartScreen <==>
            !Contains(lower, "settings") && !Contains(lower, "battery")
            && (Contains(lower, "restart") || Contains(lower, "power")))
      && (ScreenTypeOf(title) == HomeScreen <==>
            !Contains(lower, "settings") && !Contains(lower, "battery")
            && !Contains(lower, "restart") && !Contains(lower, "power"))
  {
  }

  /** Where the highlight ring is placed; each stands for one fixed position. */
  datatype Target = BatteryArea | SettingsIcon | PowerButton | AppArea | Center

  /** `getStepTargetPosition`; no current step places the ring at the centre. */
  function TargetOf(step: Option<Step>): (t: Target)
  {
    if step.None? then Center
    else
      var lower := ToLower(step.value.title);
      if Contains(lower, "battery") || Contains(lower, "usage") then BatteryArea
      else if Contains(lower, "settings") then SettingsIcon
      else if Contains(lower, "restart") || Contains(lower, "power") then PowerButton
      else if Contains(lower, "app") || Contains(lower, "close") then AppArea
      else Center
  }

  lemma TargetPriority(s: Step)
    ensures var lower := ToLower(s.title);
      && (TargetOf(Some(s)) == BatteryArea <==> Contains(lower, "battery") || Contains(lower, "usage"))
      && (TargetOf(Some(s)) == SettingsIcon <==>
            !(Contains(lower, "battery") || Contains(lower, "usage")) && Contains(lower, "settings"))
      && (TargetOf(Some(s)) == PowerButton <==>
            !(Contains(lower, "battery") || Contains(lower, "usage")) && !Contains(lower, "settings")
            && (Contains(lower, "restart") || Contains(lower, "power")))
      && (TargetOf(Some(s)) == AppArea <==>
            !(Contains(lower, "battery") || Contains(lower, "usage")) && !Contains(lower, "settings")
            && !(Contains(lower, "restart") || Contains(lower, "power"))
            && (Contains(lower, "app") || Contains(lower, "close")))
  {
  }

  /**
   * The two classifiers rank 'settings' and 'battery' the other way round: a title
   * that names both gets the settings screen but the battery target.
   */
  lemma ClassifiersDisagree(s: Step)
    requires Contains(ToLower(s.title), "battery") && Contains(ToLower(s.title), "settings")
    ensures ScreenTypeOf(s.title) == SettingsScreen && TargetOf(Some(s)) == BatteryArea
  {
  }

  /** Both classifiers see only the lower-cased title. */
  lemma ClassifiersIgnoreCase(a: Step, b: Step)
    requires ToLower(a.title) == ToLower(b.title)
    ensures ScreenTypeOf(a.title) == ScreenTypeOf(b.title) && TargetOf(Some(a)) == TargetOf(Some(b))
  {
  }

  // ---------------------------------------------------------------------------
  // The stateful component

  /** The phone model's screen mesh: the texture is rebuilt only when the type changes. */
  class PhoneScreen {
    /** `screen.userData.currentScreenType`; None before the first update. */
    var currentScreenType: Option<ScreenType>
    /** How many textures have been built. */
    var rebuilds: nat

    constructor ()
      ensures currentScreenType == None && rebuilds == 0
    {
      currentScreenType := None;
      rebuilds := 0;
    }

    /** `updatePhoneScreen` for the current step (None when there is none). */
    method Update(step: Option<Step>) returns (rebuilt: bool)
      modifies this
      ensures step.None? ==> !rebuilt && currentScreenType == old(currentScreenType)
      ensures step.Some? ==> currentScreenType == Some(ScreenTypeOf(step.value.title))
      ensures rebuilt <==> step.Some? && old(currentScreenType) != Some(ScreenTypeOf(step.value.title))
      ensures rebuilds == old(rebuilds) + (if rebuilt then 1 else 0)
    {
      rebuilt := false;
      if step.Some? {
        var screenType := ScreenTypeOf(step.value.title);
        if currentScreenType != Some(screenType) {
          rebuilds := rebuilds + 1;
          currentScreenType := Some(screenType);
          rebuilt := true;
        }
      }
    }
  }

  /** The component's step-playback state, updated in place by its handlers. */
  class StepPlayer {
    const steps: seq<Step>
    var currentStep: int
    var isPlaying: bool
    var isCompleted: bool
    var stepProgress: real
    var elapsed: int
    var timerRunning: bool
    var events: seq<Event>

    ghost function State(): PlayerState
      reads this
    {
      PlayerState(steps, currentStep, isPlaying, isCompleted, stepProgress, elapsed, timerRunning, events)
    }

    constructor (instructions: seq<Step>)
      ensures State() == Initial(instructions) && Valid(State())
    {
      steps := instructions;
      currentStep := 0;
      isPlaying := false;
      isCompleted := false;
      stepProgress := 0.0;
      elapsed := 0;
      timerRunning := false;
      events := [];
    }

    /** The timer effect, given the dependencies as they were before the handler ran. */
    method RunEffect(before: Deps)
      modifies this
      ensures State() == Resync(before, old(State()))
    {
      if Deps(currentStep, isPlaying, isCompleted) != before {
        elapsed := 0;
        timerRunning := isPlaying && 0 <= currentStep < |steps| && !isCompleted;
      }
    }

    /** `handleStepCompletion` */
    method CompleteStep()
      modifies this
      ensures State() == StepCompletion(old(State()))
    {
      if currentStep < |steps| - 1 {
        var nextStep := currentStep + 1;
        currentStep := nextStep;
        stepProgress := 0.0;
        events := events + [StepCompleted(nextStep)];
      } else {
        isCompleted := true;
        isPlaying := false;
        events := events + [InstructionCompleted];
      }
    }

    method Tick()
      modifies this
      ensures State() == OnTick(old(State()))
    {
      var before := Deps(currentStep, isPlaying, isCompleted);
      if timerRunning && 0 <= currentStep < |steps| {
        var duration := Duration(steps[currentStep]);
        elapsed := elapsed + Interval;
        stepProgress := Progress(elapsed, duration);
        if elapsed >= duration {
          timerRunning := false;
          CompleteStep();
          RunEffect(before);
        }
      }
    }

    method HandleNextStep()
      modifies this
      ensures State() == OnNext(old(State()))
    {
      var before := Deps(currentStep, isPlaying, isCompleted);
      timerRunning := false;
      CompleteStep();
      RunEffect(before);
    }

    method HandlePrevStep()
      modifies this
      ensures State() == OnPrev(old(State()))
    {
      if currentStep > 0 && !isCompleted {
        var before := Deps(currentStep, isPlaying, isCompleted);
        timerRunning := false;
        currentStep := currentStep - 1;
        stepProgress := 0.0;
        RunEffect(before);
      }
    }

    method HandleRestart()
      modifies this
      ensures State() == OnRestart(old(State()))
    {
      var before := Deps(currentStep, isPlaying, isCompleted);
      timerRunning := false;
      currentStep := 0;
      isCompleted := false;
      stepProgress := 0.0;
      RunEffect(before);
    }

    method HandlePlayPause()
      modifies this
      ensures State() == OnPlayPause(old(State()))
    {
      var before := Deps(currentStep, isPlaying, isCompleted);
      isPlaying := !isPlaying;
      RunEffect(before);
    }

    /** The sidebar's `onClick` for entry `index` of the step list. */
    method HandleSelectStep(index: int)
      requires 0 <= index < |steps|
      modifies this
      ensures State() == OnSelect(old(State()), index)
    {
      if !isCompleted && index != currentStep {
        var before := Deps(currentStep, isPlaying, isCompleted);
        timerRunning := false;
        currentStep := index;
        stepProgress := 0.0;
        RunEffect(before);
      }
    }

    method HandleReviewSteps()
      modifies this
      ensures State() == OnReview(old(State()))
    {
      var before := Deps(currentStep, isPlaying, isCompleted);
      isCompleted := false;
      RunEffect(before);
    }
  }
}
