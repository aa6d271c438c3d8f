/** The agent's promises, for every reachable state: ownership, fallback, shutdown. */
module WireGuardTheorems {
  import opened Wrappers
  import opened CryptokeyRouting
  import opened WireGuardAgent
  import opened WireGuardSafety
  import opened WireGuardTiming
  import opened WireGuardFreshness

  /** A peer the agent put on the interface. */
  predicate AgentPeer(w: World, table: Table, k: Key) {
    k in table && k !in w.foreign
  }

  /** No agent peer holds the target's /32. */
  ghost predicate NoDirectRoute(w: World, table: Table, t: Ip) {
    forall k :: AgentPeer(w, table, k) ==> Slash32(t) !in table[k].allowed
  }

  /** Packets for the target go where they went before the agent started. */
  ghost predicate FallsBack(w: World, table: Table, t: Ip) {
    forall k :: RoutesTo(table, t, k) <==> RoutesTo(w.foreign, t, k)
  }

  /**
   * The peer is recorded for the target, its latest handshake is recent, and it
   * alone receives the target's packets.
   */
  ghost predicate Direct(w: World, s: State, t: Ip, k: Key) {
    && Recorded(s, t, k) && k in s.table
    && s.table[k].handshake > 0 && s.now <= s.table[k].handshake * 1000 + HandshakeBound(w)
    && forall k' :: RoutesTo(s.table, t, k') <==> k' == k
  }

  /** Every activation the state allows has passed the handshake check. */
  ghost predicate ActivationsPass(w: World, s: State) {
    forall e: Event :: e.Step? && Enabled(w, s, e) && Next(s, e).command.ActivateCommand? ==>
      var k := Next(s, e).command.key;
      s.tasks[e.t].lease.Some? && Passes(s.tasks[e.t].lease.value, k, LatestHandshake(s.table, k))
  }

  /**
   * In every interleaving, when no removal has failed: a peer the agent added is
   * recorded under its target, or has just been probed and holds no prefix; a
   * target's /32 sits only on its recorded peer, is put there only after a passing
   * handshake check, stays only while the handshake is recent, and then packets
   * for the target go to that peer and nowhere else.
   */
  lemma PeerOwnership(w: World, s0: State, es: seq<Event>, s: State)
    requires Init(w, s0) && Runs(w, s0, es, s) && RemovesSucceed(s0, es)
    ensures forall k :: AgentPeer(w, s.table, k) ==>
                          && k in w.owner
                          && (Recorded(s, w.owner[k], k)
                              || (Pending(s, w.owner[k], k) && s.table[k].allowed == {}))
    ensures forall t, k :: t in w.targets && Holds(s.table, k, Slash32(t)) ==> Direct(w, s, t, k)
    ensures ActivationsPass(w, s)
    ensures forall k :: k in w.foreign ==> k in s.table && s.table[k].allowed == w.foreign[k].allowed
  {
    NothingLeaks(w, s0, es, s);
    ReachableInv(w, s);
    forall k | AgentPeer(w, s.table, k)
      ensures k in w.owner && (Recorded(s, w.owner[k], k) || (Pending(s, w.owner[k], k) && s.table[k].allowed == {}))
    {
      if s.table[k].allowed != {} {
        var p :| p in s.table[k].allowed;
        assert Holds(s.table, k, p);
      }
    }
    forall t, k | t in w.targets && Holds(s.table, k, Slash32(t))
      ensures Direct(w, s, t, k)
    {
      assert k !in w.foreign;
      HostRouteWins(s.table, t, k);
      InstalledRouteIsFresh(w, s0, es, s, t, k);
    }
    ReachableActivationsPass(w, s);
  }

  lemma ReachableActivationsPass(w: World, s: State)
    requires Reachable(w, s)
    ensures ActivationsPass(w, s)
  {
    forall e: Event | e.Step? && Enabled(w, s, e) && Next(s, e).command.ActivateCommand?
      ensures var k := Next(s, e).command.key;
              s.tasks[e.t].lease.Some? && Passes(s.tasks[e.t].lease.value, k, LatestHandshake(s.table, k))
    {
      ActivationPasses(w, s, e);
    }
  }

  /** Without a direct route, the subnet routes of the unmanaged peers decide. */
  lemma NoDirectRouteFallsBack(w: World, s: State, table: Table, t: Ip)
    requires Inv(w, s) && t in w.targets
    requires forall k :: k in table ==> k in s.table && table[k] == s.table[k]
    requires forall k :: k in w.foreign ==> k in table
    requires NoDirectRoute(w, table, t)
    ensures FallsBack(w, table, t)
  {
    forall k, p | Holds(table, k, p) ensures Holds(w.foreign, k, p) || (p.len == 32 && p.net != t) {
      assert Holds(s.table, k, p);
    }
    RoutingIgnoresOtherHosts(table, w.foreign, t);
  }

  /** With a direct route the target is not back on the unmanaged peers' routes. */
  lemma FallsBackMeansNoDirectRoute(w: World, table: Table, t: Ip)
    requires OneHolder(table) && FallsBack(w, table, t)
    ensures NoDirectRoute(w, table, t)
  {
    forall k | AgentPeer(w, table, k) ensures Slash32(t) !in table[k].allowed {
      assert !RoutesTo(w.foreign, t, k);
      if Slash32(t) in table[k].allowed {
        HostRouteWins(table, t, k);
      }
    }
  }

  /** No peer left behind by a failed removal still holds the /32, unless it is the recorded one. */
  ghost predicate NoLeakedRoute(s: State, t: Ip) {
    forall k :: k in s.leaked && Holds(s.table, k, Slash32(t)) ==> Recorded(s, t, k)
  }

  /** Removing the recorded peer clears the direct route exactly when no earlier failed removal left one. */
  lemma RemovingRecordedPeer(w: World, s: State, t: Ip, table: Table)
    requires Inv(w, s) && t in w.targets
    requires table == if t in s.managed then RemovePeer(s.table, s.managed[t]) else s.table
    ensures NoDirectRoute(w, table, t) <==> NoLeakedRoute(s, t)
  {
    if NoLeakedRoute(s, t) {
      forall k | AgentPeer(w, table, k) ensures Slash32(t) !in table[k].allowed {
        assert k in s.table && table[k] == s.table[k];
        assert Holds(s.table, k, Slash32(t)) ==> Recorded(s, t, k);
      }
    }
    if NoDirectRoute(w, table, t) {
      forall k | k in s.leaked && Holds(s.table, k, Slash32(t)) ensures Recorded(s, t, k) {
        assert k !in w.foreign;
        assert AgentPeer(w, table, k) || Recorded(s, t, k);
      }
    }
  }

  lemma CleanUpStep(s: State, e: Event)
    requires e.Step? && e.t in s.tasks && s.tasks[e.t].pc.CleaningUp? && e.ok
    ensures TaskStep(s, e).table == if e.t in s.managed then RemovePeer(s.table, s.managed[e.t]) else s.table
    ensures e.t !in TaskStep(s, e).managed
  {
  }

  /**
   * The clean-up that ends a failed iteration, when its `wg remove` succeeds:
   * the target is unrecorded, nothing of another target changes, and the target
   * is back on the route it had before the agent started exactly when no earlier,
   * ignored removal of a peer with its /32 had failed.
   */
  lemma Fallback(w: World, s: State, e: Event)
    requires Reachable(w, s) && e.Step? && Enabled(w, s, e)
    requires s.tasks[e.t].pc.CleaningUp? && e.ok
    ensures var s' := TaskStep(s, e);
            && e.t !in s'.managed
            && OthersKept(w, s, s', e.t)
            && (NoDirectRoute(w, s'.table, e.t) <==> NoLeakedRoute(s, e.t))
            && (FallsBack(w, s'.table, e.t) <==> NoLeakedRoute(s, e.t))
  {
    ReachableInv(w, s);
    StepKeepsOthers(w, s, e);
    StepKeepsTable(w, s, e);
    CleanUpStep(s, e);
    var table := TaskStep(s, e).table;
    RemovingRecordedPeer(w, s, e.t, table);
    if NoDirectRoute(w, table, e.t) {
      forall k | k in w.foreign ensures k in table {
        assert e.t in s.managed ==> Owns(w, e.t, s.managed[e.t]);
      }
      NoDirectRouteFallsBack(w, s, table, e.t);
    }
    if FallsBack(w, table, e.t) {
      FallsBackMeansNoDirectRoute(w, table, e.t);
    }
  }

  /** Every failing step of an iteration leads to the clean-up, and only the clean-up ends a failed iteration. */
  lemma FailureLeadsToCleanUp(s: State, e: Event)
    requires e.Step? && e.t in s.tasks
    ensures var pc, eff := s.tasks[e.t].pc, Next(s, e);
            && (eff.pc.CleaningUp? <==>
                || (pc.Discovering? && Discovered(e, s.now).None?)
                || (!e.ok && (pc.Probing? || pc.QueryingFreshness? || pc.Polling? || pc.RemovingTimedOut? || pc.Activating?))
                || pc.Forgetting?)
            && (eff.pc.CleaningUp? ==> TaskStep(s, e).table == s.table)
            && (eff.pc.Retrying? <==> pc.CleaningUp?)
  {
  }

  /** The interface after `main` has drained `managed`; the removal of a key in `failing` fails. */
  ghost predicate Drained(managed: map<Ip, Key>, table: Table, failing: set<Key>, after: Table) {
    && (forall k :: k in after <==> k in table && (k in managed.Values ==> k in failing))
    && (forall k :: k in after ==> after[k] == table[k])
  }

  /** The loop of `main` after Ctrl+C; the map is drained in an arbitrary order. */
  method Shutdown(managed: map<Ip, Key>, table: Table, failing: set<Key>) returns (after: Table)
    ensures Drained(managed, table, failing, after)
  {
    after := table;
    var peers := managed.Values;
    while peers != {}
      invariant peers <= managed.Values
      invariant forall k :: k in after <==> k in table && (k in managed.Values - peers ==> k in failing)
      invariant forall k :: k in after ==> after[k] == table[k]
      decreases |peers|
    {
      var peer :| peer in peers;
      if peer !in failing {
        after := RemovePeer(after, peer);
      }
      peers := peers - {peer};
    }
  }

  /**
   * Shutting down from any reachable state: a remaining agent peer was probed and
   * not yet recorded and holds nothing, unless one of its removals failed. With no
   * failed removal every target is back on the route it had before.
   */
  lemma CleanShutdown(w: World, s: State, failing: set<Key>, after: Table)
    requires Reachable(w, s) && Drained(s.managed, s.table, failing, after)
    ensures forall k :: AgentPeer(w, after, k) && k !in failing && k !in s.leaked ==>
                          k in w.owner && Pending(s, w.owner[k], k) && after[k].allowed == {}
    ensures s.leaked == {} && failing == {} ==>
              forall t :: t in w.targets ==> NoDirectRoute(w, after, t) && FallsBack(w, after, t)
  {
    ReachableInv(w, s);
    forall k | AgentPeer(w, after, k) && k !in failing && k !in s.leaked
      ensures k in w.owner && Pending(s, w.owner[k], k) && after[k].allowed == {}
    {
      assert k !in s.managed.Values;
      if s.table[k].allowed != {} {
        var p :| p in s.table[k].allowed;
        assert Holds(s.table, k, p);
      }
    }
    if s.leaked == {} && failing == {} {
      forall t | t in w.targets ensures NoDirectRoute(w, after, t) && FallsBack(w, after, t) {
        forall k | k in w.foreign ensures k in after {
          forall u | u in s.managed ensures s.managed[u] != k {
            assert Owns(w, u, s.managed[u]);
          }
        }
        NoDirectRouteFallsBack(w, s, after, t);
      }
    }
  }
}
