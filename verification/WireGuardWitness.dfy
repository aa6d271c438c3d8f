/**
 * Two runs that show why the fallback and the route-lifetime theorems carry their
 * conditions: an ignored `wg remove` that fails, and a lease shorter than the bound.
 */
module WireGuardWitness {
  import opened Wrappers
  import opened CryptokeyRouting
  import opened WireGuardAgent
  import opened WireGuardSafety
  import opened WireGuardTiming
  import opened WireGuardTheorems

  /** One target that may be offered two keys, and no unmanaged peer. */
  datatype Setting = Setting(t: Ip, first: Key, second: Key, command: nat, lockWait: nat, expires: nat)

  predicate Fits(x: Setting) {
    |x.first| == |x.second| == 32 && x.first != x.second && START < x.expires <= START + MAX_LEASE_AHEAD_MS
  }

  const START := 2_000

  function WorldOf(x: Setting): World {
    World({x.t}, map[x.first := x.t, x.second := x.t], map[], x.command, x.lockWait)
  }

  /** A state of the only task. */
  datatype Spot = Spot(now: nat, table: Table, managed: map<Ip, Key>, task: Task, leaked: set<Key>)

  function At(x: Setting, p: Spot): State {
    State(p.now, p.table, p.managed, map[x.t := p.task], p.leaked)
  }

  ghost predicate Reached(x: Setting, p: Spot) {
    Reachable(WorldOf(x), At(x, p))
  }

  function Offer(t: Ip, key: Key, expires: nat): Event {
    Step(t, true, Some(Response(7, 0, t, key, Some(V4(9, 51820)), 9, expires)), 7)
  }

  function Done(t: Ip, ok: bool): Event {
    Step(t, ok, None, 0)
  }

  lemma {:induction false} RunsSnoc(w: World, s0: State, es: seq<Event>, s: State, e: Event)
    requires Runs(w, s0, es, s) && Enabled(w, s, e)
    ensures Runs(w, s0, es + [e], Apply(s, e))
    decreases |es|
  {
    if es == [] {
      assert ([e])[1..] == [];
    } else {
      RunsSnoc(w, Apply(s0, es[0]), es[1..], s, e);
      assert (es + [e])[0] == es[0] && (es + [e])[1..] == es[1..] + [e];
    }
  }

  lemma Advance(w: World, s: State, e: Event)
    requires Reachable(w, s) && Enabled(w, s, e)
    ensures Reachable(w, Apply(s, e))
  {
    var s0, es :| Init(w, s0) && Runs(w, s0, es, s);
    RunsSnoc(w, s0, es, s, e);
  }

  // The events of the runs

  lemma Wait(x: Setting, p: Spot, ms: nat)
    requires Reached(x, p) && p.now + ms <= p.task.since + Residence(WorldOf(x), p.task.pc)
    ensures Reached(x, p.(now := p.now + ms))
  {
    Advance(WorldOf(x), At(x, p), Tick(ms));
    assert Apply(At(x, p), Tick(ms)) == At(x, p.(now := p.now + ms));
  }

  function Moved(x: Setting, p: Spot, eff: Effect): Spot {
    Spot(p.now, TableAfter(p.table, x.t, eff.command), ManagedAfter(p.managed, x.t, eff.entry),
         Task(eff.pc, p.now, p.task.lease), LeakedAfter(At(x, p), eff))
  }

  lemma Go(x: Setting, p: Spot, ok: bool, eff: Effect)
    requires Reached(x, p)
    requires Sleeping(p.task.pc) ==> p.now >= p.task.since + Residence(WorldOf(x), p.task.pc)
    requires Next(At(x, p), Done(x.t, ok)) == eff
    ensures Reached(x, Moved(x, p, eff))
  {
    var e := Done(x.t, ok);
    assert Discovered(e, p.now).None?;
    Advance(WorldOf(x), At(x, p), e);
    assert map[x.t := p.task][x.t := Task(eff.pc, p.now, p.task.lease)] == map[x.t := Task(eff.pc, p.now, p.task.lease)];
    assert Apply(At(x, p), e) == At(x, Moved(x, p, eff));
  }

  /** A discovery that is answered with `key`. */
  lemma GoDiscover(x: Setting, p: Spot, key: Key, expires: nat)
    requires Reached(x, p) && p.task.pc.Discovering? && (key == x.first || key == x.second) && |key| == 32
    requires p.now < expires <= p.now + MAX_LEASE_AHEAD_MS
    ensures Reached(x, p.(task := Task(ReadingPrevious(key), p.now, Some(Accepted(p.now, expires, Get(p.managed, x.t))))))
  {
    var e := Offer(x.t, key, expires);
    assert Discovered(e, p.now).Some?;
    Advance(WorldOf(x), At(x, p), e);
    var task := Task(ReadingPrevious(key), p.now, Some(Accepted(p.now, expires, Get(p.managed, x.t))));
    assert map[x.t := p.task][x.t := task] == map[x.t := task];
    assert Apply(At(x, p), e) == At(x, p.(task := task));
  }

  lemma Answers(x: Setting, p: Spot, key: Key)
    requires Reached(x, p) && key in p.table
    ensures Reached(x, p.(table := p.table[key := p.table[key].(handshake := p.now / 1000)]))
  {
    Advance(WorldOf(x), At(x, p), Handshake(key));
    assert Apply(At(x, p), Handshake(key)) == At(x, p.(table := p.table[key := p.table[key].(handshake := p.now / 1000)]));
  }

  // The first iteration, with every wait as long as it can be

  function FirstLease(x: Setting): Option<Accepted> {
    Some(Accepted(START, x.expires, None))
  }

  /** When the first peer is recorded, and when its polling begins. */
  function RecordedAt(x: Setting): nat {
    START + 2 * x.lockWait + x.command
  }

  function PollingAt(x: Setting): nat {
    RecordedAt(x) + x.command
  }

  /** When its route is installed. */
  function InstalledAt(x: Setting): nat {
    PollingAt(x) + HANDSHAKE_TIMEOUT + 2 * x.command
  }

  function Probed(x: Setting): Spot {
    Spot(START + x.lockWait + x.command, map[x.first := Peer({}, 0)], map[],
         Task(Recording(x.first, false), START + x.lockWait + x.command, FirstLease(x)), {})
  }

  lemma FirstPeerProbed(x: Setting)
    requires Fits(x)
    ensures Reached(x, Probed(x))
  {
    var p := Spot(START, map[], map[], Task(Discovering, START, None), {});
    assert Init(WorldOf(x), At(x, p)) && Runs(WorldOf(x), At(x, p), [], At(x, p));
    GoDiscover(x, p, x.first, x.expires);
    p := p.(task := Task(ReadingPrevious(x.first), START, FirstLease(x)));
    Wait(x, p, x.lockWait);
    p := p.(now := START + x.lockWait);
    Go(x, p, true, JustMove(Probing(x.first, false)));
    p := p.(task := Task(Probing(x.first, false), p.now, FirstLease(x)));
    Wait(x, p, x.command);
    p := p.(now := START + x.lockWait + x.command);
    Go(x, p, true, Effect(Recording(x.first, false), ProbeCommand(x.first), KeepEntry));
    assert SetEndpoint(map[], x.first) == map[x.first := Peer({}, 0)];
  }

  function Poll(x: Setting, n: nat): Spot {
    Spot(PollingAt(x) + 500 * n, map[x.first := Peer({}, 0)], map[x.t := x.first],
         Task(Polling(x.first, RecordedAt(x) / 1000 - 1, PollingAt(x) + HANDSHAKE_TIMEOUT), PollingAt(x) + 500 * n, FirstLease(x)), {})
  }

  function Queried(x: Setting): Spot {
    Spot(RecordedAt(x), map[x.first := Peer({}, 0)], map[x.t := x.first],
         Task(QueryingFreshness(x.first, false, RecordedAt(x) / 1000), RecordedAt(x), FirstLease(x)), {})
  }

  lemma FirstPeerQueried(x: Setting)
    requires Fits(x)
    ensures Reached(x, Queried(x))
  {
    FirstPeerProbed(x);
    Wait(x, Probed(x), x.lockWait);
    var p := Probed(x).(now := RecordedAt(x));
    Go(x, p, true, Effect(Queried(x).task.pc, NoCommand, InsertEntry(x.first)));
    assert p.managed[x.t := x.first] == map[x.t := x.first] && p.leaked - {x.first} == {};
  }

  lemma FirstPeerRecorded(x: Setting)
    requires Fits(x)
    ensures Reached(x, Poll(x, 0))
  {
    FirstPeerQueried(x);
    Wait(x, Queried(x), x.command);
    Go(x, Queried(x).(now := PollingAt(x)), true, JustMove(Poll(x, 0).task.pc));
  }

  function Asleep(x: Setting, n: nat): Spot {
    var p := Poll(x, n);
    p.(task := p.task.(pc := PollSleeping(p.task.pc.key, p.task.pc.started, p.task.pc.deadline)))
  }

  lemma FallsAsleep(x: Setting, n: nat)
    requires Fits(x) && n < 16 && Reached(x, Poll(x, n))
    ensures Reached(x, Asleep(x, n))
  {
    Go(x, Poll(x, n), true, JustMove(Asleep(x, n).task.pc));
  }

  lemma WakesUp(x: Setting, n: nat)
    requires Fits(x) && Reached(x, Asleep(x, n))
    ensures Reached(x, Poll(x, n + 1))
  {
    Wait(x, Asleep(x, n), 500);
    Go(x, Asleep(x, n).(now := Poll(x, n + 1).now), true, JustMove(Poll(x, n + 1).task.pc));
  }

  /** The peer does not answer for `n` polls. */
  lemma {:induction false} Polls(x: Setting, n: nat)
    requires Fits(x) && n <= 16
    ensures Reached(x, Poll(x, n))
  {
    if n == 0 {
      FirstPeerRecorded(x);
    } else {
      Polls(x, n - 1);
      FallsAsleep(x, n - 1);
      WakesUp(x, n - 1);
    }
  }

  /** Its last handshake: it answers just before the deadline's poll is over. */
  function AnsweredAt(x: Setting): nat {
    (PollingAt(x) + HANDSHAKE_TIMEOUT + x.command) / 1000
  }

  function Answered(x: Setting): Spot {
    var now := PollingAt(x) + HANDSHAKE_TIMEOUT + x.command;
    Spot(now, map[x.first := Peer({}, AnsweredAt(x))], map[x.t := x.first],
         Task(Activating(x.first), now, FirstLease(x)), {})
  }

  lemma FirstPeerAnswers(x: Setting)
    requires Fits(x)
    ensures Reached(x, Answered(x))
  {
    Polls(x, 16);
    Wait(x, Poll(x, 16), x.command);
    var p := Poll(x, 16).(now := Answered(x).now);
    Answers(x, p, x.first);
    assert p.table[x.first := p.table[x.first].(handshake := p.now / 1000)] == Answered(x).table;
    Go(x, p.(table := Answered(x).table), true, JustMove(Activating(x.first)));
  }

  function RouteOnly(x: Setting): Table {
    map[x.first := Peer({Slash32(x.t)}, AnsweredAt(x))]
  }

  /** Refreshed, and discovering again. */
  function Rediscovering(x: Setting): Spot {
    var now := InstalledAt(x) + REFRESH_INTERVAL;
    Spot(now, RouteOnly(x), map[x.t := x.first], Task(Discovering, now, FirstLease(x)), {})
  }

  lemma FirstRouteInstalled(x: Setting)
    requires Fits(x)
    ensures Reached(x, Rediscovering(x))
  {
    FirstPeerAnswers(x);
    var p := Answered(x);
    Wait(x, p, x.command);
    p := p.(now := InstalledAt(x));
    Go(x, p, true, Effect(Refreshing, ActivateCommand(x.first), KeepEntry));
    assert SetAllowed(p.table, x.first, x.t) == RouteOnly(x);
    p := Spot(InstalledAt(x), RouteOnly(x), map[x.t := x.first], Task(Refreshing, InstalledAt(x), FirstLease(x)), {});
    Wait(x, p, REFRESH_INTERVAL);
    p := p.(now := p.now + REFRESH_INTERVAL);
    Go(x, p, true, JustMove(Discovering));
  }

  // A short lease

  /** How long after its lease was accepted the first route can still be installed. */
  function Lifetime(x: Setting): nat {
    HANDSHAKE_TIMEOUT + REFRESH_INTERVAL + DISCOVERY_TIMEOUT + 5 * x.command + 3 * x.lockWait
  }

  /** The next discovery times out and the clean-up is about to run. */
  function AboutToClean(x: Setting): Spot {
    var entered := InstalledAt(x) + REFRESH_INTERVAL + DISCOVERY_TIMEOUT;
    Spot(START + Lifetime(x), RouteOnly(x), map[x.t := x.first], Task(CleaningUp, entered, FirstLease(x)), {})
  }

  lemma RouteLasts(x: Setting)
    requires Fits(x)
    ensures Reached(x, AboutToClean(x))
  {
    FirstRouteInstalled(x);
    var p := Rediscovering(x);
    Wait(x, p, DISCOVERY_TIMEOUT);
    p := p.(now := p.now + DISCOVERY_TIMEOUT);
    Go(x, p, true, JustMove(CleaningUp));
    p := p.(task := Task(CleaningUp, p.now, FirstLease(x)));
    Wait(x, p, x.lockWait + x.command);
  }

  /**
   * Whatever the commands and locks take, a lease that ends before
   * `Lifetime` is outlived by its route. That is one poll interval and one command
   * short of `RouteBound`, from which on no lease is.
   */
  lemma ShortLeaseIsOutlived(x: Setting) returns (s: State)
    requires Fits(x) && x.expires < START + Lifetime(x)
    ensures Reachable(WorldOf(x), s) && s.leaked == {}
    ensures Holds(s.table, x.first, Slash32(x.t)) && Recorded(s, x.t, x.first)
    ensures x.t in s.tasks && s.tasks[x.t].lease == FirstLease(x) && s.now > x.expires
    ensures Lifetime(x) + HANDSHAKE_POLL_INTERVAL + x.command == RouteBound(WorldOf(x))
  {
    RouteLasts(x);
    s := At(x, AboutToClean(x));
  }

  // An ignored removal that fails

  /** The peer offered second takes the place of the first, whose removal fails. */
  function Replaced(x: Setting): Spot {
    var now := InstalledAt(x) + REFRESH_INTERVAL;
    Spot(now, RouteOnly(x), map[x.t := x.first],
         Task(Probing(x.second, false), now, Some(Accepted(now, now + 60_000, Some(x.first)))), {x.first})
  }

  lemma SecondPeerOffered(x: Setting)
    requires Fits(x)
    ensures Reached(x, Rediscovering(x).(task := Replaced(x).task.(pc := ReadingPrevious(x.second))))
  {
    FirstRouteInstalled(x);
    GoDiscover(x, Rediscovering(x), x.second, Rediscovering(x).now + 60_000);
  }

  lemma FirstRemovalFails(x: Setting)
    requires Fits(x)
    ensures Reached(x, Replaced(x))
  {
    SecondPeerOffered(x);
    var p := Rediscovering(x).(task := Replaced(x).task.(pc := ReadingPrevious(x.second)));
    Go(x, p, true, JustMove(RemovingPrevious(x.second, x.first)));
    p := p.(task := p.task.(pc := RemovingPrevious(x.second, x.first)));
    Go(x, p, false, Effect(Probing(x.second, false), FailedRemove(x.first), KeepEntry));
    assert p.leaked + {x.first} == {x.first};
  }

  function BothPeers(x: Setting): Table {
    map[x.first := Peer({Slash32(x.t)}, AnsweredAt(x)), x.second := Peer({}, 0)]
  }

  /** The second peer is recorded, a later command fails, and the clean-up is next. */
  function SecondFails(x: Setting): Spot {
    Spot(Replaced(x).now, BothPeers(x), map[x.t := x.second],
         Task(CleaningUp, Replaced(x).now, Replaced(x).task.lease), {x.first})
  }

  lemma SecondPeerProbed(x: Setting)
    requires Fits(x)
    ensures Reached(x, Replaced(x).(table := BothPeers(x), task := Replaced(x).task.(pc := Recording(x.second, false))))
  {
    FirstRemovalFails(x);
    Go(x, Replaced(x), true, Effect(Recording(x.second, false), ProbeCommand(x.second), KeepEntry));
    assert SetEndpoint(RouteOnly(x), x.second) == BothPeers(x);
  }

  lemma SecondIterationFails(x: Setting)
    requires Fits(x)
    ensures Reached(x, SecondFails(x))
  {
    SecondPeerProbed(x);
    var p := Replaced(x).(table := BothPeers(x), task := Replaced(x).task.(pc := Recording(x.second, false)));
    var query := QueryingFreshness(x.second, false, p.now / 1000);
    Go(x, p, true, Effect(query, NoCommand, InsertEntry(x.second)));
    assert p.managed[x.t := x.second] == map[x.t := x.second] && p.leaked - {x.second} == {x.first};
    Go(x, p.(managed := map[x.t := x.second], task := Task(query, p.now, p.task.lease)), false, JustMove(CleaningUp));
  }

  /**
   * The final `wg remove` succeeds, yet the target keeps its direct route: the
   * removal of the previous peer had failed, the failure was ignored, and that
   * peer is no longer recorded anywhere.
   */
  lemma FallbackNeedsEarlierRemoval(x: Setting) returns (s: State, e: Event)
    requires Fits(x)
    ensures Reachable(WorldOf(x), s) && e.Step? && Enabled(WorldOf(x), s, e)
    ensures s.tasks[e.t].pc.CleaningUp? && e.ok && !NoLeakedRoute(s, e.t)
    ensures !FallsBack(WorldOf(x), TaskStep(s, e).table, e.t)
  {
    SecondIterationFails(x);
    s, e := At(x, SecondFails(x)), Done(x.t, true);
    assert Holds(s.table, x.first, Slash32(x.t));
    Fallback(WorldOf(x), s, e);
  }
}
