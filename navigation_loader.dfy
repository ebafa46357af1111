/**
 * The NavigationLoader component: a full-screen spinner driven by four raw
 * browser events. The React effect, its closure and its cleanup are made
 * explicit: `pending` is the `loadingTimeout` state, `captured` is the value
 * of `loadingTimeout` that the currently subscribed effect closed over (the
 * one its `beforeunload` handler and its cleanup clear).
 */
module NavigationLoader {
  import opened Wrappers

  /** A browser timer id, as returned by `setTimeout`. */
  type TimerId = nat

  /** Grace period, in milliseconds, between a "complete" signal and hiding the spinner. */
  const GraceMs: nat := 2000

  datatype BrowserEvent = VisibilityChange | HashChange | PopState | BeforeUnload

  /** The events the effect subscribes to. */
  const AllEvents: set<BrowserEvent> := {VisibilityChange, HashChange, PopState, BeforeUnload}

  /** What the heuristic takes each event to mean. */
  datatype Signal = RouteStart | RouteComplete | RouteError

  function SignalOf(e: BrowserEvent): Signal {
    match e
    case VisibilityChange => RouteStart
    case HashChange => RouteStart
    case PopState => RouteComplete
    case BeforeUnload => RouteError
  }

  /** The component's state together with the part of the browser it touches. */
  datatype LoaderState = LoaderState(
    isLoading: bool,
    pending: Option<TimerId>,        // the `loadingTimeout` state
    captured: Option<TimerId>,       // `loadingTimeout` as seen by the subscribed effect
    listeners: set<BrowserEvent>,    // window listeners currently registered by this component
    live: map<TimerId, nat>,         // timers scheduled and neither fired nor cleared, with their delay
    nextId: TimerId,                 // the id the next `setTimeout` returns
    mounted: bool)

  /** The discrete inputs: a browser event, a timer firing, an effect re-run, unmount. */
  datatype Input = Dispatch(e: BrowserEvent) | TimerFired(id: TimerId) | EffectReRun | Unmount

  datatype View = Spinner | Nothing

  /** Well-formed states: listeners are attached exactly while mounted, every
      timer runs for the grace period and every id the component knows was issued. */
  ghost predicate Valid(s: LoaderState) {
    && s.listeners == (if s.mounted then AllEvents else {})
    && (forall t :: t in s.live ==> t < s.nextId && s.live[t] == GraceMs)
    && (s.pending.Some? ==> s.pending.value < s.nextId)
    && (s.captured.Some? ==> s.captured.value < s.nextId)
  }

  /** The state after the first render and the first run of the effect. */
  function Init(firstId: TimerId): (s: LoaderState)
    ensures Valid(s) && s.mounted
    ensures Render(s) == Nothing && s.pending == None && s.live == map[]
  {
    LoaderState(false, None, None, AllEvents, map[], firstId, true)
  }

  /** The effect's cleanup: remove the four listeners, clear the captured timeout. */
  function Cleanup(s: LoaderState): LoaderState {
    s.(listeners := {}, live := s.live - Members(s.captured))
  }

  /** The effect body: add the four listeners, closing over the current `loadingTimeout`. */
  function Subscribe(s: LoaderState): LoaderState {
    s.(listeners := AllEvents, captured := s.pending)
  }

  /** The three handlers. */
  function Handle(s: LoaderState, sig: Signal): LoaderState {
    match sig
    case RouteStart => s.(isLoading := true)
    case RouteComplete =>
      s.(pending := Some(s.nextId), live := s.live[s.nextId := GraceMs], nextId := s.nextId + 1)
    case RouteError => s.(isLoading := false, live := s.live - Members(s.captured))
  }

  function Step(s: LoaderState, i: Input): LoaderState {
    match i
    case Dispatch(e) => if e in s.listeners then Handle(s, SignalOf(e)) else s
    case TimerFired(t) =>
      if t in s.live then
        // setIsLoading on an unmounted component changes nothing
        s.(live := s.live - {t}, isLoading := if s.mounted then false else s.isLoading)
      else s
    case EffectReRun => if s.mounted then Subscribe(Cleanup(s)) else s
    case Unmount => if s.mounted then Cleanup(s).(mounted := false) else s
  }

  function Run(s: LoaderState, inputs: seq<Input>): LoaderState
    decreases |inputs|
  {
    if inputs == [] then s else Run(Step(s, inputs[0]), inputs[1..])
  }

  /** The render condition: the spinner exactly while `isLoading`. */
  function Render(s: LoaderState): (v: View)
    ensures v == Spinner <==> s.isLoading
  {
    if s.isLoading then Spinner else Nothing
  }

  /** The effect has re-run since the last `popstate`: its closure sees the
      stored timeout and no other timer of this component is live. */
  ghost predicate Synced(s: LoaderState) {
    && s.live.Keys <= Members(s.pending)
    && (s.mounted ==> s.captured == s.pending)
  }

  /** At most one `popstate` since the effect last ran: the live timers are
      the stored one and the one the effect's closure still sees. */
  ghost predicate Behind(s: LoaderState) {
    s.live.Keys <= Members(s.pending) + Members(s.captured)
  }

  lemma StepPreservesValid(s: LoaderState, i: Input)
    requires Valid(s)
    ensures Valid(Step(s, i))
  {
  }

  lemma {:induction false} RunPreservesValid(s: LoaderState, inputs: seq<Input>)
    requires Valid(s)
    ensures Valid(Run(s, inputs))
    decreases |inputs|
  {
    if inputs != [] {
      StepPreservesValid(s, inputs[0]);
      RunPreservesValid(Step(s, inputs[0]), inputs[1..]);
    }
  }

  /** `visibilitychange` and `hashchange` show the spinner and touch no timer. */
  lemma StartShowsSpinner(s: LoaderState, e: BrowserEvent)
    requires Valid(s) && s.mounted
    requires e == VisibilityChange || e == HashChange
    ensures var r := Step(s, Dispatch(e));
      && r.isLoading && Render(r) == Spinner
      && r.pending == s.pending && r.captured == s.captured && r.live == s.live
  {
  }

  /** `popstate` leaves `isLoading` alone and stores a fresh timer that runs for
      the grace period and whose firing hides the spinner. */
  lemma CompleteSchedulesGrace(s: LoaderState)
    requires Valid(s) && s.mounted
    ensures var r := Step(s, Dispatch(PopState));
      && s.nextId !in s.live
      && r.isLoading == s.isLoading
      && r.pending == Some(s.nextId)
      && r.live == s.live[s.nextId := GraceMs]
      && !Step(r, TimerFired(s.nextId)).isLoading
  {
  }

  /** `beforeunload` after the effect caught up hides the spinner at once and
      cancels the stored timer, so no timer of this component fires afterwards. */
  lemma ErrorCancelsGrace(s: LoaderState)
    requires Valid(s) && s.mounted && Synced(s)
    ensures var r := Step(s, Dispatch(BeforeUnload));
      && !r.isLoading
      && r.live == map[]
      && forall t :: Step(r, TimerFired(t)) == r
  {
  }

  /** The effect re-run clears the timeout its previous closure saw, so after it
      at most one timer of this component is live. */
  lemma ReRunLeavesOneTimer(s: LoaderState)
    requires Valid(s) && s.mounted && Behind(s)
    ensures var r := Step(s, EffectReRun);
      && Synced(r) && |r.live| <= 1
      && r.captured == r.pending && r.listeners == AllEvents
  {
    var r := Step(s, EffectReRun);
    assert r.live.Keys <= Members(s.pending);
    SubsetOfOptionSize(r.live.Keys, s.pending);
  }

  lemma SubsetOfOptionSize(k: set<TimerId>, o: Option<TimerId>)
    requires k <= Members(o)
    ensures |k| <= 1
  {
    if o.Some? {
      assert k <= {o.value};
      if k != {} {
        assert k == {o.value};
      }
    } else {
      assert k == {};
    }
  }

  /** Unmounting after the effect caught up removes every listener and leaves
      no live timer; afterwards no input changes anything. */
  lemma {:induction false} TeardownIsFinal(s: LoaderState, inputs: seq<Input>)
    requires Valid(s) && s.mounted && Synced(s)
    ensures var u := Step(s, Unmount);
      && u.listeners == {} && u.live == map[] && !u.mounted
      && Run(u, inputs) == u
  {
    var u := Step(s, Unmount);
    assert u.live.Keys <= s.live.Keys - Members(s.captured);
    UnmountedIsInert(u, inputs);
  }

  lemma {:induction false} UnmountedIsInert(u: LoaderState, inputs: seq<Input>)
    requires !u.mounted && u.listeners == {} && u.live == map[]
    ensures Run(u, inputs) == u
    decreases |inputs|
  {
    if inputs != [] {
      assert Step(u, inputs[0]) == u;
      UnmountedIsInert(u, inputs[1..]);
    }
  }

  /** Whether a `popstate` awaits its effect re-run after input `i`, given
      whether one did before. The cleanup at unmount also settles it. */
  function OwedNext(i: Input, owed: bool): bool {
    match i
    case Dispatch(PopState) => true
    case EffectReRun => false
    case Unmount => false
    case _ => owed
  }

  /** Event orders in which the effect re-runs between any two `popstate`
      events; `owed` says a `popstate` has happened since the last re-run. */
  ghost predicate ReRunsBetweenPops(inputs: seq<Input>, owed: bool)
    decreases |inputs|
  {
    if inputs == [] then true
    else
      && (inputs[0] == Dispatch(PopState) ==> !owed)
      && ReRunsBetweenPops(inputs[1..], OwedNext(inputs[0], owed))
  }

  /** Whether a `popstate` is still waiting for its re-run after `inputs`. */
  ghost function OwedAfter(inputs: seq<Input>, owed: bool): bool
    decreases |inputs|
  {
    if inputs == [] then owed else OwedAfter(inputs[1..], OwedNext(inputs[0], owed))
  }

  /** `Synced` once the effect caught up, `Behind` while a `popstate` awaits
      its re-run (and `Synced` anyway once unmounted). */
  ghost predicate Phase(s: LoaderState, owed: bool) {
    if owed then Behind(s) && (!s.mounted ==> Synced(s)) else Synced(s)
  }

  lemma StepKeepsPhase(s: LoaderState, i: Input, owed: bool)
    requires Valid(s) && Phase(s, owed)
    requires i == Dispatch(PopState) ==> !owed
    ensures Phase(Step(s, i), OwedNext(i, owed))
  {
  }

  /** If the effect re-runs between any two `popstate` events, at most one
      timer of this component is ever forgotten by the effect, and after each
      re-run at most one timer is live. */
  lemma {:induction false} DisciplinedRunKeepsOneTimer(s: LoaderState, inputs: seq<Input>, owed: bool)
    requires Valid(s) && Phase(s, owed)
    requires ReRunsBetweenPops(inputs, owed)
    ensures var r := Run(s, inputs);
      && Valid(r) && Behind(r)
      && (!OwedAfter(inputs, owed) ==> Synced(r) && |r.live| <= 1)
    decreases |inputs|
  {
    if inputs == [] {
      if !owed {
        SubsetOfOptionSize(s.live.Keys, s.pending);
      }
    } else {
      var i := inputs[0];
      StepKeepsPhase(s, i, owed);
      StepPreservesValid(s, i);
      DisciplinedRunKeepsOneTimer(Step(s, i), inputs[1..], OwedNext(i, owed));
    }
  }

  /** A `hashchange` followed by a `popstate` and the re-run it causes: the
      spinner stays up, only the new grace timer is live, no other timer
      changes anything, and its firing hides the spinner. */
  lemma HashThenPopHidesAfterGrace(s: LoaderState)
    requires Valid(s) && s.mounted && Synced(s)
    ensures var r := Run(s, [Dispatch(HashChange), Dispatch(PopState), EffectReRun]);
      var t := s.nextId;
      && r.isLoading
      && r.live == map[t := GraceMs]
      && (forall x :: x != t ==> Step(r, TimerFired(x)) == r)
      && !Step(r, TimerFired(t)).isLoading
  {
  }

  /** A further re-run (for instance a path change) before the grace timer
      fires clears it: the spinner then stays up until the next event. */
  lemma SecondReRunCancelsGrace(s: LoaderState)
    requires Valid(s) && s.mounted && Synced(s) && s.isLoading && s.pending.Some?
    ensures var r := Step(s, EffectReRun);
      && r.isLoading && r.live == map[]
      && forall t :: Step(r, TimerFired(t)) == r
  {
  }

  /**
   * The component as an object. Each method is one discrete input; the pure
   * `Step` above is its specification.
   */
  class Loader {
    var isLoading: bool
    var pending: Option<TimerId>
    var captured: Option<TimerId>
    var listeners: set<BrowserEvent>
    var live: map<TimerId, nat>
    var nextId: TimerId
    var mounted: bool

    function State(): LoaderState
      reads this
    {
      LoaderState(isLoading, pending, captured, listeners, live, nextId, mounted)
    }

    /** Mount: initial `useState`s, then the first run of the effect. */
    constructor (firstId: TimerId)
      ensures State() == Init(firstId)
    {
      isLoading := false;
      pending := None;
      captured := None;
      live := map[];
      nextId := firstId;
      mounted := true;
      listeners := AllEvents;
    }

    /** `handleRouteChangeStart`. */
    method OnStart()
      modifies this
      ensures State() == Handle(old(State()), RouteStart)
    {
      isLoading := true;
    }

    /** `handleRouteChangeComplete`: schedule the grace timer and store its id. */
    method OnComplete()
      modifies this
      ensures State() == Handle(old(State()), RouteComplete)
    {
      var id := nextId;
      nextId := nextId + 1;
      live := live[id := GraceMs];
      pending := Some(id);
    }

    /** `handleRouteChangeError`: hide, and clear the timeout the closure saw. */
    method OnError()
      modifies this
      ensures State() == Handle(old(State()), RouteError)
    {
      isLoading := false;
      ClearTimeout(captured);
    }

    /** `clearTimeout`: idempotent, and a no-op on `undefined`. */
    method ClearTimeout(t: Option<TimerId>)
      modifies this
      ensures State() == old(State()).(live := old(live) - Members(t))
    {
      live := live - Members(t);
    }

    /** The window delivers an event to the listener registered for it, if any. */
    method Dispatch(e: BrowserEvent)
      modifies this
      ensures State() == Step(old(State()), Input.Dispatch(e))
    {
      if e in listeners {
        match SignalOf(e)
        case RouteStart => OnStart();
        case RouteComplete => OnComplete();
        case RouteError => OnError();
      }
    }

    /** A scheduled timer fires; a cleared one never does. */
    method OnTimerFire(id: TimerId)
      modifies this
      ensures State() == Step(old(State()), TimerFired(id))
    {
      if id in live {
        live := live - {id};
        if mounted {
          isLoading := false;
        }
      }
    }

    /** The effect's cleanup closure. */
    method RunCleanup()
      modifies this
      ensures State() == Cleanup(old(State()))
    {
      listeners := {};
      ClearTimeout(captured);
    }

    /** A dependency of the effect changed: cleanup, then subscribe again. */
    method ReRunEffect()
      modifies this
      ensures State() == Step(old(State()), EffectReRun)
    {
      if mounted {
        RunCleanup();
        listeners := AllEvents;
        captured := pending;
      }
    }

    /** Unmount: the last cleanup. */
    method Teardown()
      modifies this
      ensures State() == Step(old(State()), Unmount)
    {
      if mounted {
        RunCleanup();
        mounted := false;
      }
    }

    function Rendered(): (v: View)
      reads this
      ensures v == Render(State())
    {
      if isLoading then Spinner else Nothing
    }
  }
}
