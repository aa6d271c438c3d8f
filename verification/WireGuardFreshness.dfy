/** What the handshake check guarantees: when a route is installed, and while it stays. */
module WireGuardFreshness {
  import opened Wrappers
  import opened CryptokeyRouting
  import opened WireGuardAgent
  import opened WireGuardSafety
  import opened WireGuardTiming

  /**
   * The check behind an activation: the peer's latest handshake is no more than a
   * second (plus the rounding to seconds) older than the lease, or the peer was
   * already recorded when the lease was accepted and its handshake is at most
   * `MAX_HANDSHAKE_AGE` older.
   */
  predicate Passes(lease: Accepted, k: Key, latest: nat) {
    && latest > 0
    && (|| lease.at <= (latest + 1) * 1000 + 999
        || (lease.recorded == Some(k) && lease.at <= (latest + MAX_HANDSHAKE_AGE) * 1000 + 999))
  }

  /** What a task knows of the check at each program point. */
  predicate CheckedAt(table: Table, recorded: Option<Key>, pc: Pc, lease: Accepted) {
    match pc
    case ReadingPrevious(_) => lease.recorded == recorded
    case Probing(key, same) => same ==> lease.recorded == Some(key)
    case Recording(key, same) => same ==> lease.recorded == Some(key)
    case QueryingFreshness(key, same, seconds) =>
      (same ==> lease.recorded == Some(key)) && lease.at <= seconds * 1000 + 999 && seconds >= 2
    case Polling(_, started, _) => lease.at <= (started + 1) * 1000 + 999 && started >= 1
    case PollSleeping(_, started, _) => lease.at <= (started + 1) * 1000 + 999 && started >= 1
    case Activating(key) => Passes(lease, key, LatestHandshake(table, key))
    case _ => true
  }

  ghost predicate Checked(s: State) {
    forall t :: t in s.tasks && s.tasks[t].lease.Some? ==>
                  CheckedAt(s.table, Get(s.managed, t), s.tasks[t].pc, s.tasks[t].lease.value)
  }

  lemma EarlyStepIsChecked(w: World, s: State, e: Event)
    requires Inv(w, s) && Checked(s) && e.Step? && Enabled(w, s, e) && BeforeRecording(s.tasks[e.t].pc)
    requires LeaseAfter(s, e).Some?
    ensures var s' := TaskStep(s, e);
            CheckedAt(s'.table, Get(s'.managed, e.t), Next(s, e).pc, LeaseAfter(s, e).value)
  {
  }

  /** The two tests of the handshake check lead to activation; nothing else does. */
  lemma LateMoveIsChecked(s: State, e: Event, lease: Accepted)
    requires e.Step? && e.t in s.tasks && !BeforeRecording(s.tasks[e.t].pc)
    requires CheckedAt(s.table, Get(s.managed, e.t), s.tasks[e.t].pc, lease) && lease.at <= s.now && s.now >= 2_000
    ensures CheckedAt(TaskStep(s, e).table, Get(TaskStep(s, e).managed, e.t), Next(s, e).pc, lease)
  {
  }

  lemma LateStepIsChecked(w: World, s: State, e: Event)
    requires Inv(w, s) && InTime(w, s) && Checked(s) && e.Step? && Enabled(w, s, e) && !BeforeRecording(s.tasks[e.t].pc)
    requires s.tasks[e.t].lease.Some?
    ensures CheckedAt(TaskStep(s, e).table, Get(TaskStep(s, e).managed, e.t), Next(s, e).pc, s.tasks[e.t].lease.value)
  {
    assert TaskInTime(w, s.now, e.t in s.managed, s.tasks[e.t]);
    LateMoveIsChecked(s, e, s.tasks[e.t].lease.value);
  }

  lemma StepIsChecked(w: World, s: State, e: Event)
    requires Inv(w, s) && InTime(w, s) && Checked(s) && e.Step? && Enabled(w, s, e)
    requires LeaseAfter(s, e).Some?
    ensures var s' := TaskStep(s, e);
            CheckedAt(s'.table, Get(s'.managed, e.t), Next(s, e).pc, LeaseAfter(s, e).value)
  {
    if BeforeRecording(s.tasks[e.t].pc) {
      EarlyStepIsChecked(w, s, e);
    } else {
      LateStepIsChecked(w, s, e);
    }
  }

  lemma OthersStayChecked(w: World, s: State, s': State, t: Ip)
    requires Inv(w, s) && Checked(s) && OthersKept(w, s, s', t)
    ensures forall u :: u in s'.tasks && u != t && s'.tasks[u].lease.Some? ==>
                          CheckedAt(s'.table, Get(s'.managed, u), s'.tasks[u].pc, s'.tasks[u].lease.value)
  {
    forall u | u in s'.tasks && u != t && s'.tasks[u].lease.Some?
      ensures CheckedAt(s'.table, Get(s'.managed, u), s'.tasks[u].pc, s'.tasks[u].lease.value)
    {
      assert Get(s'.managed, u) == Get(s.managed, u);
      assert AtPoint(w, s, u, s.tasks[u].pc);
      if s.tasks[u].pc.Activating? {
        var k := s.tasks[u].pc.key;
        assert Owns(w, u, s.managed[u]);
        assert Get(s'.table, k) == Get(s.table, k);
      }
    }
  }

  lemma HandshakeKeepsChecked(w: World, s: State, key: Key)
    requires Inv(w, s) && InTime(w, s) && Checked(s) && key in s.table
    ensures Checked(Apply(s, Handshake(key)))
  {
    var s' := Apply(s, Handshake(key));
    forall t | t in s'.tasks && s'.tasks[t].lease.Some?
      ensures CheckedAt(s'.table, Get(s'.managed, t), s'.tasks[t].pc, s'.tasks[t].lease.value)
    {
      assert TaskInTime(w, s.now, t in s.managed, s.tasks[t]);
      assert CheckedAt(s.table, Get(s.managed, t), s.tasks[t].pc, s.tasks[t].lease.value);
    }
  }

  lemma EventKeepsChecked(w: World, s: State, e: Event)
    requires Inv(w, s) && InTime(w, s) && Checked(s) && Enabled(w, s, e)
    ensures Checked(Apply(s, e))
  {
    match e
    case Tick(_) =>
    case Handshake(key) => HandshakeKeepsChecked(w, s, key);
    case Step(_, _, _, _) =>
      StepKeepsOthers(w, s, e);
      OthersStayChecked(w, s, TaskStep(s, e), e.t);
      if LeaseAfter(s, e).Some? {
        StepIsChecked(w, s, e);
      }
  }

  lemma {:induction false} RunKeepsChecked(w: World, s: State, es: seq<Event>, s': State)
    requires Inv(w, s) && InTime(w, s) && Checked(s) && Runs(w, s, es, s')
    ensures Checked(s')
    decreases |es|
  {
    if es != [] {
      EventKeepsInv(w, s, es[0]);
      EventKeepsInTime(w, s, es[0]);
      EventKeepsChecked(w, s, es[0]);
      RunKeepsChecked(w, Apply(s, es[0]), es[1..], s');
    }
  }

  lemma ReachableChecked(w: World, s: State)
    requires Reachable(w, s)
    ensures Checked(s)
  {
    var s0, es :| Init(w, s0) && Runs(w, s0, es, s);
    InitInv(w, s0);
    RunKeepsChecked(w, s0, es, s);
  }

  lemma OnlyActivatingActivates(s: State, e: Event)
    requires e.Step? && e.t in s.tasks && Next(s, e).command.ActivateCommand?
    ensures s.tasks[e.t].pc == Activating(Next(s, e).command.key) && Next(s, e).pc == Refreshing
  {
  }

  lemma ActivatingPasses(w: World, s: State, t: Ip)
    requires InTime(w, s) && Checked(s) && t in s.tasks && s.tasks[t].pc.Activating?
    ensures s.tasks[t].lease.Some?
    ensures Passes(s.tasks[t].lease.value, s.tasks[t].pc.key, LatestHandshake(s.table, s.tasks[t].pc.key))
  {
    assert TaskInTime(w, s.now, t in s.managed, s.tasks[t]);
  }

  /** In every reachable state a step that installs a route has passed the handshake check. */
  lemma ActivationPasses(w: World, s: State, e: Event)
    requires Reachable(w, s) && e.Step? && Enabled(w, s, e) && Next(s, e).command.ActivateCommand?
    ensures s.tasks[e.t].lease.Some?
    ensures var k := Next(s, e).command.key; Passes(s.tasks[e.t].lease.value, k, LatestHandshake(s.table, k))
  {
    ReachableChecked(w, s);
    ReachableInTime(w, s);
    OnlyActivatingActivates(s, e);
    ActivatingPasses(w, s, e.t);
  }

  // While a route stays

  /** The longest from the acceptance of the lease behind a route to that of the next one. */
  function Cycle(w: World): nat {
    2 * w.lockWait + 5 * w.command + HANDSHAKE_TIMEOUT + HANDSHAKE_POLL_INTERVAL + REFRESH_INTERVAL + DISCOVERY_TIMEOUT
  }

  /** The age in milliseconds that the check allows, with the rounding to seconds. */
  const CHECKED_AGE := MAX_HANDSHAKE_AGE * 1000 + 999

  /** How old the handshake of a peer with an installed route can get. */
  function HandshakeBound(w: World): nat {
    CHECKED_AGE + RouteBound(w) + HANDSHAKE_TIMEOUT + HANDSHAKE_POLL_INTERVAL + 5 * w.command + 2 * w.lockWait
  }

  /** How far a route's peer can be from its last check at each program point. */
  predicate FreshAt(w: World, task: Task, handshake: nat) {
    && task.lease.Some?
    && match task.pc
       case Refreshing | Discovering => task.lease.value.at <= handshake * 1000 + CHECKED_AGE
       case CleaningUp => task.since <= handshake * 1000 + CHECKED_AGE + Cycle(w) + 2 * w.lockWait + 5 * w.command + 8_500
       case _ => task.lease.value.at <= handshake * 1000 + CHECKED_AGE + Cycle(w)
  }

  /** A recorded peer that holds its target's /32. */
  predicate Routed(s: State, t: Ip, k: Key) {
    Recorded(s, t, k) && Holds(s.table, k, Slash32(t))
  }

  ghost predicate RoutesFresh(w: World, s: State) {
    forall t, k :: t in s.tasks && Routed(s, t, k) ==> FreshAt(w, s.tasks[t], s.table[k].handshake)
  }

  lemma MoveStaysFresh(w: World, now: nat, task: Task, handshake: nat, pc: Pc, lease: Option<Accepted>)
    requires TaskInTime(w, now, true, task) && FreshAt(w, task, handshake)
    requires Follows(now, task.pc, pc) && !task.pc.Activating? && !task.pc.Forgetting? && !task.pc.CleaningUp?
    requires if pc.ReadingPrevious? then lease.Some? && lease.value.at == now else lease == task.lease
    ensures FreshAt(w, Task(pc, now, lease), handshake)
  {
  }

  lemma ActivatingStaysFresh(w: World, now: nat, task: Task, handshake: nat, pc: Pc)
    requires TaskInTime(w, now, true, task) && task.pc.Activating?
    requires if pc.Refreshing? then Passes(task.lease.value, task.pc.key, handshake) else FreshAt(w, task, handshake)
    requires Follows(now, task.pc, pc)
    ensures FreshAt(w, Task(pc, now, task.lease), handshake)
  {
  }

  lemma NoRouteOnNewPeer(w: World, s: State, t: Ip, k: Key)
    requires Inv(w, s) && s.leaked == {} && t in w.targets && Holds(s.table, k, Slash32(t))
    ensures Recorded(s, t, k)
  {
    assert k !in w.foreign;
  }

  /** A route after a step was there before, or the step installed it. */
  lemma RoutedBefore(w: World, s: State, e: Event, k: Key)
    requires Inv(w, s) && s.leaked == {} && e.Step? && Enabled(w, s, e) && Routed(TaskStep(s, e), e.t, k)
    ensures k in s.table && TaskStep(s, e).table[k].handshake == s.table[k].handshake && Recorded(s, e.t, k)
    ensures Routed(s, e.t, k) || Next(s, e).command == ActivateCommand(k)
    ensures !s.tasks[e.t].pc.Forgetting? && !s.tasks[e.t].pc.CleaningUp?
  {
    assert AtPoint(w, s, e.t, s.tasks[e.t].pc);
    OnlyActivationAddsRoutes(s.table, e.t, Next(s, e).command, k, Slash32(e.t));
    if Holds(s.table, k, Slash32(e.t)) {
      NoRouteOnNewPeer(w, s, e.t, k);
    }
  }

  lemma OwnRouteStaysFresh(w: World, s: State, e: Event, k: Key)
    requires Inv(w, s) && s.leaked == {} && InTime(w, s) && Checked(s) && RoutesFresh(w, s)
    requires e.Step? && Enabled(w, s, e) && Routed(TaskStep(s, e), e.t, k)
    ensures FreshAt(w, TaskStep(s, e).tasks[e.t], TaskStep(s, e).table[k].handshake)
  {
    var task, eff := s.tasks[e.t], Next(s, e);
    RoutedBefore(w, s, e, k);
    NextFollows(s, e);
    assert TaskInTime(w, s.now, e.t in s.managed, task);
    if eff.command.ActivateCommand? {
      OnlyActivatingActivates(s, e);
      ActivatingPasses(w, s, e.t);
      ActivatingStaysFresh(w, s.now, task, s.table[k].handshake, eff.pc);
    } else {
      assert FreshAt(w, task, s.table[k].handshake);
      OthersMoveFresh(w, s, e, s.table[k].handshake);
    }
  }

  lemma OthersMoveFresh(w: World, s: State, e: Event, handshake: nat)
    requires e.Step? && e.t in s.tasks && !Next(s, e).command.ActivateCommand?
    requires TaskInTime(w, s.now, true, s.tasks[e.t]) && FreshAt(w, s.tasks[e.t], handshake)
    requires !s.tasks[e.t].pc.Forgetting? && !s.tasks[e.t].pc.CleaningUp?
    ensures FreshAt(w, Task(Next(s, e).pc, s.now, LeaseAfter(s, e)), handshake)
  {
    NextFollows(s, e);
    if s.tasks[e.t].pc.Activating? {
      assert Next(s, e).pc == CleaningUp;
      ActivatingStaysFresh(w, s.now, s.tasks[e.t], handshake, CleaningUp);
    } else {
      MoveStaysFresh(w, s.now, s.tasks[e.t], handshake, Next(s, e).pc, LeaseAfter(s, e));
    }
  }

  lemma OtherRouteStaysFresh(w: World, s: State, s': State, t: Ip, u: Ip, k: Key)
    requires Inv(w, s) && RoutesFresh(w, s) && OthersKept(w, s, s', t) && u != t && u in s'.tasks && Routed(s', u, k)
    ensures FreshAt(w, s'.tasks[u], s'.table[k].handshake)
  {
    assert Get(s'.managed, u) == Get(s.managed, u);
    assert Owns(w, u, s.managed[u]);
    assert Get(s'.table, k) == Get(s.table, k);
    assert Routed(s, u, k);
  }

  lemma HandshakeKeepsFresh(w: World, s: State, key: Key)
    requires Inv(w, s) && InTime(w, s) && RoutesFresh(w, s) && key in s.table
    ensures RoutesFresh(w, Apply(s, Handshake(key)))
  {
    var s' := Apply(s, Handshake(key));
    forall t, k | t in s'.tasks && Routed(s', t, k)
      ensures FreshAt(w, s'.tasks[t], s'.table[k].handshake)
    {
      assert Routed(s, t, k);
      assert TaskInTime(w, s.now, t in s.managed, s.tasks[t]);
    }
  }

  lemma EventKeepsFresh(w: World, s: State, e: Event)
    requires Inv(w, s) && s.leaked == {} && InTime(w, s) && Checked(s) && RoutesFresh(w, s) && Enabled(w, s, e)
    ensures RoutesFresh(w, Apply(s, e))
  {
    match e
    case Tick(_) =>
      assert forall t, k :: Routed(Apply(s, e), t, k) <==> Routed(s, t, k);
    case Handshake(key) => HandshakeKeepsFresh(w, s, key);
    case Step(_, _, _, _) =>
      var s' := TaskStep(s, e);
      StepKeepsOthers(w, s, e);
      forall t, k | t in s'.tasks && Routed(s', t, k)
        ensures FreshAt(w, s'.tasks[t], s'.table[k].handshake)
      {
        if t == e.t {
          OwnRouteStaysFresh(w, s, e, k);
        } else {
          OtherRouteStaysFresh(w, s, s', e.t, t, k);
        }
      }
  }

  lemma {:induction false} RunKeepsFresh(w: World, s: State, es: seq<Event>, s': State)
    requires Inv(w, s) && s.leaked == {} && InTime(w, s) && Checked(s) && RoutesFresh(w, s)
    requires Runs(w, s, es, s') && RemovesSucceed(s, es)
    ensures RoutesFresh(w, s')
    decreases |es|
  {
    if es != [] {
      EventKeepsInv(w, s, es[0]);
      EventKeepsInTime(w, s, es[0]);
      EventKeepsChecked(w, s, es[0]);
      EventKeepsFresh(w, s, es[0]);
      RunKeepsFresh(w, Apply(s, es[0]), es[1..], s');
    }
  }

  lemma FreshInTime(w: World, now: nat, task: Task, handshake: nat)
    requires TaskInTime(w, now, true, task) && FreshAt(w, task, handshake)
    ensures now <= handshake * 1000 + HandshakeBound(w)
  {
  }

  /** While a target's /32 is installed, its peer's last handshake is at most `HandshakeBound` old. */
  lemma InstalledRouteIsFresh(w: World, s0: State, es: seq<Event>, s: State, t: Ip, k: Key)
    requires Init(w, s0) && Runs(w, s0, es, s) && RemovesSucceed(s0, es)
    requires t in w.targets && Holds(s.table, k, Slash32(t))
    ensures Recorded(s, t, k) && s.now <= s.table[k].handshake * 1000 + HandshakeBound(w)
  {
    InitInv(w, s0);
    ReachableInv(w, s);
    ReachableInTime(w, s);
    NothingLeaks(w, s0, es, s);
    NoRouteOnNewPeer(w, s, t, k);
    RunKeepsFresh(w, s0, es, s);
    assert Routed(s, t, k);
    FreshInTime(w, s.now, s.tasks[t], s.table[k].handshake);
  }
}
