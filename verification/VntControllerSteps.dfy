/**
 * Concurrent `start` and `stop` calls on the controller, one lock step at a time.
 * Each call takes the operation lock first; the network and the phase are behind
 * locks of their own, so a reader can look between any two steps. A caller may be
 * cancelled between steps, which releases the operation lock.
 */
module VntControllerSteps {
  import opened Wrappers
  import opened RuntimePhase

  type Config = string

  datatype Pc =
    | StartWaiting(config: Config)
    | StartChecking(config: Config)
    | StartMarking(config: Config)
    | StartConnecting(config: Config)
    | StartStoring(config: Config)
    | StartConfirming(config: Config)
    | StartFailing
    | StopWaiting
    | StopTaking
    | StopMarking

  /**
   * `broken` is history: a call was cancelled between two writes that belong
   * together, and no call has completed its writes since.
   */
  datatype State = State(holder: Option<nat>, running: Option<Config>, phase: Phase, calls: map<nat, Pc>, broken: bool)

  datatype Event = Calls(id: nat, pc: Pc) | Steps(id: nat, ok: bool) | Cancels(id: nat)

  const INITIAL := State(None, None, Stopped, map[], false)

  predicate Enabled(s: State, e: Event) {
    match e
    case Calls(id, pc) => id !in s.calls && (pc.StartWaiting? || pc.StopWaiting?)
    case Steps(id, _) => id in s.calls && (s.calls[id].StartWaiting? || s.calls[id].StopWaiting? ==> s.holder.None?)
    case Cancels(id) => id in s.calls
  }

  function Finish(s: State, id: nat): State {
    s.(calls := s.calls - {id}, holder := None)
  }

  function MoveTo(s: State, id: nat, pc: Pc): State {
    s.(calls := s.calls[id := pc])
  }

  /** Cancelling here leaves phase and network telling different stories. */
  predicate Breaks(s: State, pc: Pc) {
    || pc.StartConnecting? || pc.StartStoring? || pc.StartConfirming? || pc.StartFailing?
    || (pc.StopMarking? && IsActive(s.phase))
  }

  function Apply(s: State, e: Event): State
    requires Enabled(s, e)
  {
    match e
    case Calls(id, pc) => MoveTo(s, id, pc)
    case Cancels(id) =>
      var s' := s.(calls := s.calls - {id}, broken := s.broken || Breaks(s, s.calls[id]));
      if s.holder == Some(id) then s'.(holder := None) else s'
    case Steps(id, ok) =>
      match s.calls[id]
      case StartWaiting(config) => MoveTo(s.(holder := Some(id)), id, StartChecking(config))
      case StartChecking(config) => if s.running.Some? then Finish(s, id) else MoveTo(s, id, StartMarking(config))
      case StartMarking(config) => MoveTo(s.(phase := Starting), id, StartConnecting(config))
      case StartConnecting(config) => MoveTo(s, id, if ok then StartStoring(config) else StartFailing)
      case StartStoring(config) => MoveTo(s.(running := Some(config)), id, StartConfirming(config))
      case StartConfirming(_) => Finish(s.(phase := Running, broken := false), id)
      case StartFailing => Finish(s.(phase := Error, broken := false), id)
      case StopWaiting => MoveTo(s.(holder := Some(id)), id, StopTaking)
      case StopTaking => MoveTo(s.(running := None), id, StopMarking)
      case StopMarking => Finish(s.(phase := Stopped, broken := false), id)
  }

  predicate Runs(s: State, es: seq<Event>, s': State)
    decreases |es|
  {
    if es == [] then s' == s else Enabled(s, es[0]) && Runs(Apply(s, es[0]), es[1..], s')
  }

  predicate Waiting(pc: Pc) {
    pc.StartWaiting? || pc.StopWaiting?
  }

  /** The phase and the network tell the same story. */
  predicate Consistent(s: State) {
    (s.phase == Running <==> s.running.Some?) && s.phase != Starting
  }

  /** What the holder of the operation lock knows at each of its steps. */
  predicate HolderAt(s: State, pc: Pc) {
    match pc
    case StartWaiting(_) | StopWaiting => false
    case StartChecking(_) | StopTaking => s.broken <==> !Consistent(s)
    case StartMarking(_) => s.running.None? && (s.broken <==> !Consistent(s))
    case StartConnecting(_) | StartStoring(_) | StartFailing => s.running.None? && s.phase == Starting
    case StartConfirming(config) => s.running == Some(config) && s.phase == Starting
    case StopMarking => s.running.None? && (s.broken ==> IsActive(s.phase)) && (s.phase == Starting ==> s.broken)
  }

  ghost predicate Inv(s: State) {
    && (s.running.Some? ==> IsActive(s.phase))
    && (forall id :: id in s.calls ==> (!Waiting(s.calls[id]) <==> s.holder == Some(id)))
    && (s.holder.Some? ==> s.holder.value in s.calls && HolderAt(s, s.calls[s.holder.value]))
    && (s.holder.None? ==> (s.broken <==> !Consistent(s)))
  }

  lemma CancelKeepsInv(s: State, id: nat)
    requires Inv(s) && id in s.calls
    ensures Inv(Apply(s, Cancels(id)))
  {
  }

  predicate Stops(pc: Pc) {
    pc.StopWaiting? || pc.StopTaking? || pc.StopMarking?
  }

  lemma StopStepKeepsInv(s: State, id: nat, ok: bool)
    requires Inv(s) && Enabled(s, Steps(id, ok)) && Stops(s.calls[id])
    ensures Inv(Apply(s, Steps(id, ok)))
  {
  }

  lemma StartStepKeepsInv(s: State, id: nat, ok: bool)
    requires Inv(s) && Enabled(s, Steps(id, ok)) && !Stops(s.calls[id])
    ensures Inv(Apply(s, Steps(id, ok)))
  {
  }

  lemma EventKeepsInv(s: State, e: Event)
    requires Inv(s) && Enabled(s, e)
    ensures Inv(Apply(s, e))
  {
    match e
    case Calls(_, _) =>
    case Cancels(id) => CancelKeepsInv(s, id);
    case Steps(id, ok) =>
      if Stops(s.calls[id]) {
        StopStepKeepsInv(s, id, ok);
      } else {
        StartStepKeepsInv(s, id, ok);
      }
  }

  lemma {:induction false} RunKeepsInv(s: State, es: seq<Event>, s': State)
    requires Inv(s) && Runs(s, es, s')
    ensures Inv(s')
    decreases |es|
  {
    if es != [] {
      EventKeepsInv(s, es[0]);
      RunKeepsInv(Apply(s, es[0]), es[1..], s');
    }
  }

  /**
   * Between any two lock steps of any calls, cancelled or not, a running network
   * means an active phase; and whenever the operation lock is free the phase is
   * Running exactly when a network exists, unless a cancellation broke a pair of
   * writes that no completed call has mended since.
   */
  lemma PhaseIsSound(es: seq<Event>, s: State)
    requires Runs(INITIAL, es, s)
    ensures s.running.Some? ==> IsActive(s.phase)
    ensures s.holder.None? ==> (Consistent(s) <==> !s.broken)
  {
    RunKeepsInv(INITIAL, es, s);
  }

  // Which network runs

  /** The configuration a call was made with; a stop has none. */
  function Asked(pc: Pc): Option<Config> {
    if Stops(pc) || pc.StartFailing? then None else Some(pc.config)
  }

  /** A call keeps its configuration from step to step. */
  lemma CallKeepsItsConfig(s: State, e: Event, id: nat)
    requires Enabled(s, e) && id in s.calls && id in Apply(s, e).calls && !Apply(s, e).calls[id].StartFailing?
    ensures Asked(Apply(s, e).calls[id]) == Asked(s.calls[id])
  {
  }

  /** The connection of a start with this configuration comes up. */
  predicate Connects(s: State, e: Event, config: Config) {
    e.Steps? && e.ok && e.id in s.calls && s.calls[e.id] == StartConnecting(config)
  }

  predicate Connected(s: State, es: seq<Event>, config: Config)
    decreases |es|
  {
    es != [] && Enabled(s, es[0]) && (Connects(s, es[0], config) || Connected(Apply(s, es[0]), es[1..], config))
  }

  /** This network runs, or a connected start is about to store it. */
  ghost predicate Up(s: State, config: Config) {
    s.running == Some(config) || exists id :: id in s.calls && s.calls[id] == StartStoring(config)
  }

  lemma UpByConnecting(s: State, e: Event, config: Config)
    requires Enabled(s, e) && Up(Apply(s, e), config)
    ensures Up(s, config) || Connects(s, e, config)
  {
  }

  lemma {:induction false} UpWasConnected(s: State, es: seq<Event>, s': State, config: Config)
    requires Runs(s, es, s') && Up(s', config)
    ensures Up(s, config) || Connected(s, es, config)
    decreases |es|
  {
    if es != [] {
      UpWasConnected(Apply(s, es[0]), es[1..], s', config);
      if Up(Apply(s, es[0]), config) {
        UpByConnecting(s, es[0], config);
      }
    }
  }

  /** Whatever runs, in any state of any run, is the configuration of a start whose connection came up. */
  lemma RunningWasConnected(es: seq<Event>, s: State)
    requires Runs(INITIAL, es, s) && s.running.Some?
    ensures Connected(INITIAL, es, s.running.value)
  {
    UpWasConnected(INITIAL, es, s, s.running.value);
  }

  /** A start that completes leaves its own configuration running; one that fails leaves nothing running. */
  lemma CompletedStartRuns(es: seq<Event>, s: State, id: nat, ok: bool)
    requires Runs(INITIAL, es, s) && id in s.calls && (s.calls[id].StartConfirming? || s.calls[id].StartFailing?)
    ensures var s' := Apply(s, Steps(id, ok));
      && id !in s'.calls && s'.holder.None?
      && s'.running == Asked(s.calls[id])
      && s'.phase == (if s.calls[id].StartFailing? then Error else Running)
  {
    RunKeepsInv(INITIAL, es, s);
  }

  // Cancelled callers

  lemma {:induction false} UncancelledNeverBreaks(s: State, es: seq<Event>, s': State)
    requires !s.broken && Runs(s, es, s') && forall i :: 0 <= i < |es| ==> !es[i].Cancels?
    ensures !s'.broken
    decreases |es|
  {
    if es != [] {
      UncancelledNeverBreaks(Apply(s, es[0]), es[1..], s');
    }
  }

  /** Without cancelled callers the phase is exact whenever the operation lock is free. */
  lemma PhaseIsExact(es: seq<Event>, s: State)
    requires Runs(INITIAL, es, s) && s.holder.None? && forall i :: 0 <= i < |es| ==> !es[i].Cancels?
    ensures s.phase == Running <==> s.running.Some?
    ensures s.phase != Starting
  {
    UncancelledNeverBreaks(INITIAL, es, s);
    PhaseIsSound(es, s);
  }

  /** A start cancelled while it connects leaves the controller active with nothing running. */
  lemma CancelledStartLooksActive(config: Config)
    ensures exists es, s :: Runs(INITIAL, es, s) && s.holder.None? && s.calls == map[] && s.running.None? && IsActive(s.phase)
  {
    var s1 := State(None, None, Stopped, map[0 := StartWaiting(config)], false);
    var s2 := State(Some(0), None, Stopped, map[0 := StartChecking(config)], false);
    var s3 := State(Some(0), None, Stopped, map[0 := StartMarking(config)], false);
    var s4 := State(Some(0), None, Starting, map[0 := StartConnecting(config)], false);
    var s5 := State(None, None, Starting, map[], true);
    var e1, e2, e3 := Calls(0, StartWaiting(config)), Steps(0, true), Cancels(0);
    assert Apply(INITIAL, e1) == s1 && Apply(s1, e2) == s2 && Apply(s2, e2) == s3 && Apply(s3, e2) == s4;
    assert Apply(s4, e3) == s5;
    assert Runs(s5, [], s5);
    assert Runs(s4, [e3], s5);
    assert [e2, e3][1..] == [e3];
    assert Runs(s3, [e2, e3], s5);
    assert [e2, e2, e3][1..] == [e2, e3];
    assert Runs(s2, [e2, e2, e3], s5);
    assert [e2, e2, e2, e3][1..] == [e2, e2, e3];
    assert Runs(s1, [e2, e2, e2, e3], s5);
    assert [e1, e2, e2, e2, e3][1..] == [e2, e2, e2, e3];
    assert Runs(INITIAL, [e1, e2, e2, e2, e3], s5);
  }
}
