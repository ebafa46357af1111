/**
 * The progress subsystem of progressComponent.tsx: the context lookup, the
 * (unused) stepped increment helpers, the shared progress state with its
 * supervising effect, the `useInterval` hook, the progress-bar render guard
 * and the `useProgress` trigger.
 *
 * React's scheduling is made explicit: `Commit` is the point where the
 * supervising effect re-runs if `loading` changed since its last run, and
 * `TransitionSettled` is the revert of the optimistic flag.
 */
module Progress {
  import opened Wrappers

  // ---------------------------------------------------------------------------
  // Context lookup

  const MissingProviderMessage: string :=
    "Make sure to use `ProgressBarProvider` before using the progress bar."

  /** The error `useProgressBarContext` throws. */
  datatype ContextError = ContextError(message: string)

  /** `useProgressBarContext`: the nearest provider's state, or a hard error
      when there is none. */
  function UseProgressBarContext(ctx: Option<ProgressState>): (r: Result<ProgressState, ContextError>)
    ensures r.Failure? <==> ctx.None?
    ensures r.Success? ==> ctx == Some(r.value)
    ensures r.Failure? ==> r.error.message == MissingProviderMessage
  {
    match ctx
    case None => Failure(ContextError(MissingProviderMessage))
    case Some(p) => Success(p)
  }

  /** The function `useProgress` returns: it closes over the context's state. */
  datatype StartProgress = StartProgress(progress: ProgressState)

  /** `useProgress`: look the context up, then return the trigger. */
  function UseProgress(ctx: Option<ProgressState>): (r: Result<StartProgress, ContextError>)
    ensures r.Failure? <==> ctx.None?
    ensures r.Success? ==> ctx == Some(r.value.progress)
    ensures r.Failure? ==> r.error.message == MissingProviderMessage
  {
    match UseProgressBarContext(ctx)
    case Failure(e) => Failure(e)
    case Success(p) => Success(StartProgress(p))
  }

  /** Calling the trigger: it calls `start()` and does nothing else. */
  method CallStartProgress(f: StartProgress)
    modifies f.progress
    ensures f.progress.Snapshot() == Step(old(f.progress.Snapshot()), StartCalled)
  {
    f.progress.Start();
  }

  // ---------------------------------------------------------------------------
  // Stepped increment (defined in the source, called nowhere)

  lemma ProductNonNegative(a: real, b: real)
    requires 0.0 <= a && 0.0 <= b
    ensures 0.0 <= a * b
  {
  }

  lemma ProductPositive(a: real, b: real)
    requires 0.0 < a && 0.0 < b
    ensures 0.0 < a * b
  {
  }

  /** A draw scaled to `n` values falls on one of them. */
  lemma FloorBounds(u: real, n: int)
    requires 0.0 <= u < 1.0 && n >= 1
    ensures 0 <= (u * n as real).Floor < n
  {
    var m := n as real;
    ProductNonNegative(u, m);
    ProductPositive(1.0 - u, m);
    assert (1.0 - u) * m == m - u * m;
  }

  /** `random(min, max)`; `u` is the value `Math.random()` returned, in [0, 1). */
  function Random(min: int, max: int, u: real): (r: int)
    requires 0.0 <= u < 1.0
    ensures min <= max ==> min <= r <= max
  {
    if min <= max then FloorBounds(u, max - min + 1); (u * (max - min + 1) as real).Floor + min
    else (u * (max - min + 1) as real).Floor + min
  }

  /** Every value of the range is drawn for some `Math.random()` result. */
  lemma RandomCoversRange(min: int, max: int, v: int)
    requires min <= v <= max
    ensures exists u :: 0.0 <= u < 1.0 && Random(min, max, u) == v
  {
    var n := (max - min + 1) as real;
    var u := (v - min) as real / n;
    assert u * n == (v - min) as real;
    assert 0.0 <= u < 1.0;
    assert Random(min, max, u) == v;
  }

  /** `getDiff(current)`: 15 at 0, a draw in [1, 10] below 50, in [1, 5] from 50. */
  function GetDiff(current: real, u: real): (diff: int)
    requires 0.0 <= u < 1.0
    ensures current == 0.0 ==> diff == 15
    ensures current != 0.0 && current < 50.0 ==> 1 <= diff <= 10
    ensures current >= 50.0 ==> 1 <= diff <= 5
    ensures diff > 0
  {
    if current == 0.0 then 15
    else if current < 50.0 then Random(1, 10, u)
    else Random(1, 5, u)
  }

  // ---------------------------------------------------------------------------
  // Progress state (`useProgressInternal`)

  /** The animation every run of the supervising effect launches. */
  const TargetPercent: int := 100
  const DurationSeconds: int := 2

  /** The controls `animate` returns, with the target and duration it was given. */
  datatype Animation = Animation(id: nat, target: int, durationSeconds: int)

  datatype ProgressSnapshot = ProgressSnapshot(
    loading: bool,              // the optimistic flag, as rendered
    effectLoading: bool,        // `loading` as the last run of the supervising effect saw it
    count: int,                 // the motion value `count`
    controls: Option<Animation>,// the handle of the last run of the effect
    running: set<nat>,          // animations launched and not stopped
    nextHandle: nat,
    mounted: bool)

  datatype ProgressInput =
    | StartCalled               // `start()`
    | TransitionSettled         // the enclosing transition ends: `loading` reverts to false
    | Commit                    // a render commits: the effect re-runs if `loading` changed
    | AnimationFrame(value: int)// the running animation writes `count`
    | ProviderUnmount

  /** The ids of the animations in `c`. */
  function HandleIds(c: Option<Animation>): set<nat> {
    set a <- Members(c) :: a.id
  }

  /** Exactly one animation runs while mounted, none afterwards; every animation
      targets 100 over 2 seconds; the counter stays within [0, 100]. */
  ghost predicate Valid(s: ProgressSnapshot) {
    && (s.mounted ==> s.controls.Some? && s.running == {s.controls.value.id})
    && (!s.mounted ==> s.running == {})
    && (s.controls.Some? ==>
          && s.controls.value.target == TargetPercent
          && s.controls.value.durationSeconds == DurationSeconds
          && s.controls.value.id < s.nextHandle)
    && 0 <= s.count <= TargetPercent
  }

  /** One run of the supervising effect: the previous run's cleanup stops its
      animation, a new one is launched, and the counter is reset when not loading. */
  function RunEffect(s: ProgressSnapshot): ProgressSnapshot {
    var a := Animation(s.nextHandle, TargetPercent, DurationSeconds);
    s.(running := s.running - HandleIds(s.controls) + {a.id},
       controls := Some(a),
       nextHandle := s.nextHandle + 1,
       effectLoading := s.loading,
       count := if s.loading then s.count else 0)
  }

  /** Mounting the provider: `useOptimistic(false)`, `useMotionValue(0)`, then
      the first run of the effect. */
  function Mount(): (s: ProgressSnapshot)
    ensures Valid(s) && s.mounted
    ensures !s.loading && s.count == 0 && |s.running| == 1
  {
    RunEffect(ProgressSnapshot(false, false, 0, None, {}, 0, true))
  }

  function Step(s: ProgressSnapshot, i: ProgressInput): ProgressSnapshot {
    match i
    case StartCalled => s.(loading := true)
    case TransitionSettled => s.(loading := false)
    case Commit => if s.mounted && s.loading != s.effectLoading then RunEffect(s) else s
    case AnimationFrame(v) =>
      if s.controls.Some? && s.controls.value.id in s.running && 0 <= v <= s.controls.value.target
      then s.(count := v) else s
    case ProviderUnmount =>
      if s.mounted then s.(running := s.running - HandleIds(s.controls), mounted := false) else s
  }

  function Run(s: ProgressSnapshot, inputs: seq<ProgressInput>): ProgressSnapshot
    decreases |inputs|
  {
    if inputs == [] then s else Run(Step(s, inputs[0]), inputs[1..])
  }

  lemma StepPreservesValid(s: ProgressSnapshot, i: ProgressInput)
    requires Valid(s)
    ensures Valid(Step(s, i))
  {
  }

  lemma {:induction false} RunPreservesValid(s: ProgressSnapshot, inputs: seq<ProgressInput>)
    requires Valid(s)
    ensures Valid(Run(s, inputs))
    decreases |inputs|
  {
    if inputs != [] {
      StepPreservesValid(s, inputs[0]);
      RunPreservesValid(Step(s, inputs[0]), inputs[1..]);
    }
  }

  /** `start()` sets `loading` and changes nothing else. */
  lemma StartOnlySetsLoading(s: ProgressSnapshot)
    ensures var r := Step(s, StartCalled);
      && r.loading
      && r.count == s.count && r.controls == s.controls && r.running == s.running
      && r.effectLoading == s.effectLoading && r.mounted == s.mounted
  {
  }

  /** A re-run of the effect stops the previous animation before the new one
      exists, so exactly one runs; it targets 100 over 2 seconds, and the
      counter is 0 whenever `loading` is false after the run. */
  lemma EffectRunReplacesAnimation(s: ProgressSnapshot)
    requires Valid(s) && s.mounted && s.loading != s.effectLoading
    ensures var r := Step(s, Commit);
      && Valid(r)
      && r.running == {r.controls.value.id}
      && s.controls.value.id !in r.running
      && r.controls.value.target == TargetPercent
      && r.controls.value.durationSeconds == DurationSeconds
      && r.effectLoading == r.loading
      && (!r.loading ==> r.count == 0)
  {
  }

  /** Triggering while already loading leaves exactly one animation running. */
  lemma RetriggerKeepsOneAnimation(s: ProgressSnapshot)
    requires Valid(s) && s.mounted && s.loading
    ensures var r := Run(s, [StartCalled, Commit]);
      && r.loading && |r.running| == 1
      && (s.effectLoading ==> r.controls == s.controls && r.count == s.count)
  {
  }

  /** The optimistic round trip: start, let the effect run, settle, let it run
      again; `loading` is false and the counter is 0 without any stop call. */
  lemma OptimisticRoundTrip(s: ProgressSnapshot)
    requires Valid(s) && s.mounted
    ensures var r := Run(s, [StartCalled, Commit, TransitionSettled, Commit]);
      && Valid(r) && !r.loading && r.count == 0 && |r.running| == 1
      && ProgressBarView(r) == Hidden
  {
  }

  /** The animation launched by every run keeps driving the counter even when
      `loading` is false: the reset holds only right after the effect runs. */
  lemma CounterMovesWhileNotLoading(s: ProgressSnapshot)
    requires Valid(s) && s.mounted && !s.loading
    ensures var r := Step(s, AnimationFrame(TargetPercent));
      && !r.loading && r.count == TargetPercent
  {
  }

  /** After the provider unmounts no animation runs and the counter never moves. */
  lemma {:induction false} UnmountedCounterIsFrozen(s: ProgressSnapshot, inputs: seq<ProgressInput>)
    requires Valid(s) && !s.mounted
    ensures var r := Run(s, inputs);
      && r.running == {} && r.count == s.count && r.controls == s.controls
    decreases |inputs|
  {
    if inputs != [] {
      StepPreservesValid(s, inputs[0]);
      UnmountedCounterIsFrozen(Step(s, inputs[0]), inputs[1..]);
    }
  }

  // ---------------------------------------------------------------------------
  // ProgressBar (render guard)

  datatype BarView = Hidden | Overlay(percent: int)

  /** `ProgressBar`: the overlay with the rounded counter exactly while loading. */
  function ProgressBarView(s: ProgressSnapshot): (v: BarView)
    ensures v.Overlay? <==> s.loading
    ensures v.Overlay? ==> v.percent == s.count
    ensures Valid(s) && v.Overlay? ==> 0 <= v.percent <= 100
  {
    if s.loading then Overlay(s.count) else Hidden
  }

  /**
   * The provider's state object: one per `ProgressBarProvider` mount, reached
   * by every consumer through the context.
   */
  class ProgressState {
    var loading: bool
    var effectLoading: bool
    var count: int
    var controls: Option<Animation>
    var running: set<nat>
    var nextHandle: nat
    var mounted: bool

    function Snapshot(): ProgressSnapshot
      reads this
    {
      ProgressSnapshot(loading, effectLoading, count, controls, running, nextHandle, mounted)
    }

    /** `ProgressBarProvider` mounts. */
    constructor ()
      ensures Snapshot() == Mount()
    {
      loading := false;
      count := 0;
      controls := None;
      running := {};
      nextHandle := 0;
      mounted := true;
      new;
      RunSupervisingEffect();
    }

    method RunSupervisingEffect()
      modifies this
      ensures Snapshot() == RunEffect(old(Snapshot()))
    {
      // cleanup of the previous run: `controls.stop()`
      running := running - HandleIds(controls);
      // `animate(count, 100, { duration: 2 })`
      var a := Animation(nextHandle, TargetPercent, DurationSeconds);
      nextHandle := nextHandle + 1;
      running := running + {a.id};
      controls := Some(a);
      effectLoading := loading;
      if !loading {
        count := 0;
      }
    }

    /** `start()`. */
    method Start()
      modifies this
      ensures Snapshot() == Step(old(Snapshot()), StartCalled)
    {
      loading := true;
    }

    /** The transition that set the optimistic flag settles. */
    method Settle()
      modifies this
      ensures Snapshot() == Step(old(Snapshot()), TransitionSettled)
    {
      loading := false;
    }

    /** A render commits; the effect's dependency is `loading`. */
    method Commit()
      modifies this
      ensures Snapshot() == Step(old(Snapshot()), ProgressInput.Commit)
    {
      if mounted && loading != effectLoading {
        RunSupervisingEffect();
      }
    }

    /** The running animation writes a value between 0 and its target. */
    method OnAnimationFrame(v: int)
      modifies this
      ensures Snapshot() == Step(old(Snapshot()), AnimationFrame(v))
    {
      if controls.Some? && controls.value.id in running && 0 <= v <= controls.value.target {
        count := v;
      }
    }

    /** The provider unmounts: the last cleanup stops the animation. */
    method Unmount()
      modifies this
      ensures Snapshot() == Step(old(Snapshot()), ProviderUnmount)
    {
      if mounted {
        running := running - HandleIds(controls);
        mounted := false;
      }
    }
  }

  // ---------------------------------------------------------------------------
  // useInterval (defined in the source, called nowhere)

  /** The identity of a callback closure passed to the hook. */
  type Callback = nat

  datatype IntervalSnapshot = IntervalSnapshot(
    saved: Callback,            // `savedCallback.current`
    delay: Option<nat>,         // the `delay` the second effect last ran with (None for null)
    interval: Option<nat>,      // the id that effect's cleanup clears
    live: map<nat, nat>,        // intervals set and not cleared, with their period
    nextId: nat,                // the id the next `setInterval` returns
    calls: seq<Callback>,       // the callbacks invoked so far, in order
    mounted: bool)

  datatype IntervalInput =
    | CallbackChanged(cb: Callback)  // the first effect re-runs with a new callback
    | DelayChanged(d: Option<nat>)   // a render with a different `delay`
    | IntervalElapsed(id: nat)
    | IntervalUnmount

  /** At most one interval is set, exactly the one the cleanup clears, with the
      current delay as its period; a null delay has none. */
  ghost predicate IntervalValid(s: IntervalSnapshot) {
    && s.live.Keys == Members(s.interval)
    && (s.interval.Some? ==>
          && s.delay.Some?
          && s.live[s.interval.value] == s.delay.value
          && s.interval.value < s.nextId)
    && (!s.mounted ==> s.interval.None?)
  }

  /** `tick()`: call the latest saved callback. */
  function Tick(s: IntervalSnapshot): IntervalSnapshot {
    s.(calls := s.calls + [s.saved])
  }

  /** The second effect's cleanup, `clearInterval(id)`. */
  function ClearInterval(s: IntervalSnapshot): IntervalSnapshot {
    s.(live := s.live - Members(s.interval), interval := None)
  }

  /** The second effect's body: with a delay, tick once and set the interval. */
  function DelayEffect(s: IntervalSnapshot, d: Option<nat>): IntervalSnapshot {
    if d.Some? then
      var t := Tick(s);
      t.(delay := d, interval := Some(t.nextId), live := t.live[t.nextId := d.value], nextId := t.nextId + 1)
    else s.(delay := None)
  }

  /** The first render's effects: save the callback, then the delay effect. */
  function MountInterval(cb: Callback, d: Option<nat>, firstId: nat): (s: IntervalSnapshot)
    ensures IntervalValid(s) && s.mounted && s.saved == cb
    ensures s.calls == (if d.Some? then [cb] else [])
  {
    DelayEffect(IntervalSnapshot(cb, None, None, map[], firstId, [], true), d)
  }

  function IntervalStep(s: IntervalSnapshot, i: IntervalInput): IntervalSnapshot {
    match i
    case CallbackChanged(cb) => if s.mounted then s.(saved := cb) else s
    case DelayChanged(d) => if s.mounted && d != s.delay then DelayEffect(ClearInterval(s), d) else s
    case IntervalElapsed(id) => if id in s.live then Tick(s) else s
    case IntervalUnmount => if s.mounted then ClearInterval(s).(mounted := false) else s
  }

  function IntervalRun(s: IntervalSnapshot, inputs: seq<IntervalInput>): IntervalSnapshot
    decreases |inputs|
  {
    if inputs == [] then s else IntervalRun(IntervalStep(s, inputs[0]), inputs[1..])
  }

  lemma IntervalStepPreservesValid(s: IntervalSnapshot, i: IntervalInput)
    requires IntervalValid(s)
    ensures IntervalValid(IntervalStep(s, i))
  {
  }

  /** A non-null delay: the callback runs once at once, the previous interval is
      cleared and a single new one is set with that period. */
  lemma DelayTicksOnceThenSchedules(s: IntervalSnapshot, d: nat)
    requires IntervalValid(s) && s.mounted && s.delay != Some(d)
    ensures var r := IntervalStep(s, DelayChanged(Some(d)));
      && r.calls == s.calls + [s.saved]
      && r.live == map[s.nextId := d]
      && s.live.Keys !! r.live.Keys
  {
  }

  /** A null delay schedules nothing: no interval is left and no call is made. */
  lemma NullDelaySchedulesNothing(s: IntervalSnapshot)
    requires IntervalValid(s) && s.mounted
    ensures var r := IntervalStep(s, DelayChanged(None));
      && r.live == map[] && r.calls == s.calls
      && forall id :: IntervalStep(r, IntervalElapsed(id)) == r
  {
  }

  /** Each interval tick calls the latest saved callback. */
  lemma ElapsedUsesLatestCallback(s: IntervalSnapshot, cb: Callback, id: nat)
    requires IntervalValid(s) && s.mounted && id in s.live
    ensures IntervalStep(IntervalStep(s, CallbackChanged(cb)), IntervalElapsed(id)).calls == s.calls + [cb]
  {
  }

  /** Calls are only ever appended, never undone or reordered. */
  lemma {:induction false} CallsOnlyGrow(s: IntervalSnapshot, inputs: seq<IntervalInput>)
    ensures s.calls <= IntervalRun(s, inputs).calls
    decreases |inputs|
  {
    if inputs != [] {
      var t := IntervalStep(s, inputs[0]);
      assert s.calls <= t.calls;
      CallsOnlyGrow(t, inputs[1..]);
    }
  }

  /** The cleanup at unmount clears the interval; no call happens afterwards. */
  lemma {:induction false} UnmountedIntervalIsSilent(s: IntervalSnapshot, inputs: seq<IntervalInput>)
    requires IntervalValid(s) && !s.mounted
    ensures IntervalRun(s, inputs) == s
    decreases |inputs|
  {
    if inputs != [] {
      assert IntervalStep(s, inputs[0]) == s;
      UnmountedIntervalIsSilent(s, inputs[1..]);
    }
  }

  /** The hook's state as an object: `savedCallback` and the interval timer. */
  class Interval {
    var saved: Callback
    var delay: Option<nat>
    var interval: Option<nat>
    var live: map<nat, nat>
    var nextId: nat
    var calls: seq<Callback>
    var mounted: bool

    function Snapshot(): IntervalSnapshot
      reads this
    {
      IntervalSnapshot(saved, delay, interval, live, nextId, calls, mounted)
    }

    /** First render: `useRef(callback)` and both effects. */
    constructor (cb: Callback, d: Option<nat>, firstId: nat)
      ensures Snapshot() == MountInterval(cb, d, firstId)
    {
      saved := cb;
      delay := None;
      interval := None;
      live := map[];
      nextId := firstId;
      calls := [];
      mounted := true;
      new;
      RunDelayEffect(d);
    }

    method TickOnce()
      modifies this
      ensures Snapshot() == Tick(old(Snapshot()))
    {
      calls := calls + [saved];
    }

    method RunDelayEffect(d: Option<nat>)
      modifies this
      ensures Snapshot() == DelayEffect(old(Snapshot()), d)
    {
      delay := d;
      if d.Some? {
        TickOnce();
        var id := nextId;
        nextId := nextId + 1;
        live := live[id := d.value];
        interval := Some(id);
      }
    }

    method RunCleanup()
      modifies this
      ensures Snapshot() == ClearInterval(old(Snapshot()))
    {
      live := live - Members(interval);
      interval := None;
    }

    /** The first effect: `savedCallback.current = callback`. */
    method UpdateCallback(cb: Callback)
      modifies this
      ensures Snapshot() == IntervalStep(old(Snapshot()), CallbackChanged(cb))
    {
      if mounted {
        saved := cb;
      }
    }

    /** The second effect re-runs when `delay` changes. */
    method UpdateDelay(d: Option<nat>)
      modifies this
      ensures Snapshot() == IntervalStep(old(Snapshot()), DelayChanged(d))
    {
      if mounted && d != delay {
        RunCleanup();
        RunDelayEffect(d);
      }
    }

    method OnElapsed(id: nat)
      modifies this
      ensures Snapshot() == IntervalStep(old(Snapshot()), IntervalElapsed(id))
    {
      if id in live {
        TickOnce();
      }
    }

    method Unmount()
      modifies this
      ensures Snapshot() == IntervalStep(old(Snapshot()), IntervalUnmount)
    {
      if mounted {
        RunCleanup();
        mounted := false;
      }
    }
  }
}
