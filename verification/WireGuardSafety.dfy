/** What every interleaving of the agent's tasks keeps: who owns which peer and which route. */
module WireGuardSafety {
  import opened Wrappers
  import opened CryptokeyRouting
  import opened WireGuardAgent

  predicate Recorded(s: State, t: Ip, k: Key) {
    t in s.managed && s.managed[t] == k
  }

  /** Probed, and about to be entered into `managed`. */
  predicate Pending(s: State, t: Ip, k: Key) {
    t in s.tasks && s.tasks[t].pc.Recording? && s.tasks[t].pc.key == k
  }

  /** Unmanaged peers hold exactly what they held before the agent started. */
  ghost predicate ForeignUntouched(w: World, s: State) {
    forall k :: k in w.foreign ==> k in s.table && s.table[k].allowed == w.foreign[k].allowed
  }

  /** A peer the agent added is recorded, or just probed, or its removal failed. */
  ghost predicate PeersAccounted(w: World, s: State) {
    forall k :: k in s.table && k !in w.foreign ==>
                  && k in w.owner && w.owner[k] in w.targets
                  && (Recorded(s, w.owner[k], k) || Pending(s, w.owner[k], k) || k in s.leaked)
  }

  predicate RouteAccounted(w: World, s: State, k: Key, p: Prefix)
    requires Holds(s.table, k, p)
  {
    && k in w.owner && p == Slash32(w.owner[k])
    && s.table[k].handshake > 0
    && (Recorded(s, w.owner[k], k) || k in s.leaked)
  }

  /**
   * A peer the agent added holds at most its target's /32. If it holds it, the
   * peer has completed a handshake, and it is recorded or its removal failed.
   */
  ghost predicate RoutesAccounted(w: World, s: State) {
    forall k, p :: Holds(s.table, k, p) && k !in w.foreign ==> RouteAccounted(w, s, k, p)
  }

  ghost predicate ManagedOwned(w: World, s: State) {
    forall t :: t in s.managed ==> t in w.targets && Owns(w, t, s.managed[t])
  }

  /** What is true of the shared state at each program point of a task. */
  ghost predicate AtPoint(w: World, s: State, t: Ip, pc: Pc) {
    match pc
    case ReadingPrevious(key) => Owns(w, t, key)
    case RemovingPrevious(key, previous) => Owns(w, t, key) && Recorded(s, t, previous) && previous != key
    case Probing(key, same) =>
      && Owns(w, t, key) && (same <==> Recorded(s, t, key))
      && (!same && t in s.managed ==> s.managed[t] !in s.table || s.managed[t] in s.leaked)
    case Recording(key, same) =>
      && Owns(w, t, key) && key in s.table && (same <==> Recorded(s, t, key))
      && (!same && t in s.managed ==> s.managed[t] !in s.table || s.managed[t] in s.leaked)
    case QueryingFreshness(key, _, seconds) => Recorded(s, t, key) && key in s.table && seconds >= 2
    case Polling(key, started, _) => Recorded(s, t, key) && key in s.table && started >= 1
    case PollSleeping(key, started, _) => Recorded(s, t, key) && key in s.table && started >= 1
    case RemovingTimedOut(key) => Recorded(s, t, key) && key in s.table
    case Forgetting(key) => Recorded(s, t, key) && key !in s.table
    case Activating(key) => Recorded(s, t, key) && key in s.table && s.table[key].handshake > 0
    case Retrying => t !in s.managed
    case Discovering | Refreshing | CleaningUp => true
  }

  ghost predicate TasksAtPoint(w: World, s: State) {
    forall t :: t in s.tasks ==> AtPoint(w, s, t, s.tasks[t].pc)
  }

  ghost predicate Inv(w: World, s: State) {
    && WellFormed(w)
    && s.now >= 2_000
    && s.tasks.Keys == w.targets
    && OneHolder(s.table)
    && ForeignUntouched(w, s)
    && PeersAccounted(w, s)
    && RoutesAccounted(w, s)
    && ManagedOwned(w, s)
    && TasksAtPoint(w, s)
  }

  /** Two states agree on everything that belongs to targets other than `t`. */
  ghost predicate OthersKept(w: World, s: State, s': State, t: Ip) {
    && s'.tasks.Keys == s.tasks.Keys
    && (forall u :: u != t && u in s.tasks ==> s'.tasks[u] == s.tasks[u])
    && (forall u :: u != t ==> Get(s'.managed, u) == Get(s.managed, u))
    && (forall k :: !Owns(w, t, k) ==> Get(s'.table, k) == Get(s.table, k))
    && (forall k :: !Owns(w, t, k) ==> (k in s'.leaked <==> k in s.leaked))
  }

  /** A step commands and records only keys of its own target. */
  ghost predicate OwnEffect(w: World, s: State, t: Ip, eff: Effect) {
    && (!eff.command.NoCommand? ==> Owns(w, t, eff.command.key))
    && (eff.entry.InsertEntry? ==> Owns(w, t, eff.entry.key))
  }

  lemma NextIsOwn(w: World, s: State, e: Event)
    requires Inv(w, s) && e.Step? && Enabled(w, s, e)
    ensures OwnEffect(w, s, e.t, Next(s, e))
  {
    assert AtPoint(w, s, e.t, s.tasks[e.t].pc);
    if e.t in s.managed {
      assert Owns(w, e.t, s.managed[e.t]);
    }
  }

  lemma CommandKeepsOthers(w: World, s: State, t: Ip, c: Command)
    requires Inv(w, s) && t in w.targets && (!c.NoCommand? ==> Owns(w, t, c.key))
    ensures forall k :: !Owns(w, t, k) ==> Get(TableAfter(s.table, t, c), k) == Get(s.table, k)
  {
    if c.ActivateCommand? {
      forall k | !Owns(w, t, k) ensures Get(SetAllowed(s.table, c.key, t), k) == Get(s.table, k) {
        if k in s.table {
          assert !Holds(s.table, k, Slash32(t)) by {
            if k in w.foreign { assert Slash32(t) !in w.foreign[k].allowed; }
          }
          assert s.table[k].allowed - {Slash32(t)} == s.table[k].allowed;
        }
      }
    }
  }

  /** A step of a task touches only its own target's entry, peers and program point. */
  lemma StepKeepsOthers(w: World, s: State, e: Event)
    requires Inv(w, s) && e.Step? && Enabled(w, s, e)
    ensures OthersKept(w, s, TaskStep(s, e), e.t)
  {
    NextIsOwn(w, s, e);
    CommandKeepsOthers(w, s, e.t, Next(s, e).command);
  }

  /** The program points of the other tasks still fit, because their part of the state is kept. */
  lemma OthersStayAtPoint(w: World, s: State, s': State, t: Ip)
    requires Inv(w, s) && OthersKept(w, s, s', t)
    ensures forall u :: u in s.tasks && u != t ==> AtPoint(w, s', u, s'.tasks[u].pc)
  {
    forall u | u in s.tasks && u != t ensures AtPoint(w, s', u, s'.tasks[u].pc) {
      assert Get(s'.managed, u) == Get(s.managed, u);
      assert forall k :: Owns(w, u, k) ==> Get(s'.table, k) == Get(s.table, k) && (k in s'.leaked <==> k in s.leaked);
      assert AtPoint(w, s, u, s.tasks[u].pc);
      if u in s.managed {
        assert Owns(w, u, s.managed[u]);
      }
    }
  }

  lemma StepKeepsTable(w: World, s: State, e: Event)
    requires Inv(w, s) && e.Step? && Enabled(w, s, e)
    ensures OneHolder(TaskStep(s, e).table) && ForeignUntouched(w, TaskStep(s, e))
  {
    var c := Next(s, e).command;
    StepKeepsOthers(w, s, e);
    CommandsKeepOneHolder(s.table, if c.NoCommand? then [] else c.key, e.t);
    forall k | k in w.foreign
      ensures k in TaskStep(s, e).table && TaskStep(s, e).table[k].allowed == w.foreign[k].allowed
    {
      assert !Owns(w, e.t, k);
      assert Get(TaskStep(s, e).table, k) == Get(s.table, k);
    }
  }

  lemma StepKeepsManaged(w: World, s: State, e: Event)
    requires Inv(w, s) && e.Step? && Enabled(w, s, e)
    ensures ManagedOwned(w, TaskStep(s, e))
  {
    NextIsOwn(w, s, e);
  }

  predicate BeforeRecording(pc: Pc) {
    pc.Discovering? || pc.ReadingPrevious? || pc.RemovingPrevious? || pc.Probing?
  }

  /** After its step a task is at a program point whose facts hold. */
  lemma EarlyStepMovesToPoint(w: World, s: State, e: Event)
    requires Inv(w, s) && e.Step? && Enabled(w, s, e) && BeforeRecording(s.tasks[e.t].pc)
    ensures AtPoint(w, TaskStep(s, e), e.t, Next(s, e).pc)
  {
    assert AtPoint(w, s, e.t, s.tasks[e.t].pc);
  }

  lemma LateStepMovesToPoint(w: World, s: State, e: Event)
    requires Inv(w, s) && e.Step? && Enabled(w, s, e) && !BeforeRecording(s.tasks[e.t].pc)
    ensures AtPoint(w, TaskStep(s, e), e.t, Next(s, e).pc)
  {
    assert AtPoint(w, s, e.t, s.tasks[e.t].pc);
  }

  lemma StepKeepsPeers(w: World, s: State, e: Event)
    requires Inv(w, s) && e.Step? && Enabled(w, s, e)
    ensures PeersAccounted(w, TaskStep(s, e))
  {
    var s' := TaskStep(s, e);
    assert AtPoint(w, s, e.t, s.tasks[e.t].pc);
    StepKeepsOthers(w, s, e);
    forall k | k in s'.table && k !in w.foreign
      ensures k in w.owner && w.owner[k] in w.targets
      ensures Recorded(s', w.owner[k], k) || Pending(s', w.owner[k], k) || k in s'.leaked
    {
      if !Owns(w, e.t, k) {
        assert Get(s'.table, k) == Get(s.table, k);
        assert Get(s'.managed, w.owner[k]) == Get(s.managed, w.owner[k]);
      }
    }
  }

  /** Only activation gives a peer a prefix, and no command resets a handshake of a peer that stays. */
  lemma OnlyActivationAddsRoutes(table: Table, t: Ip, c: Command, k: Key, p: Prefix)
    requires Holds(TableAfter(table, t, c), k, p)
    ensures Holds(table, k, p) || (c == ActivateCommand(k) && p == Slash32(t))
    ensures k in table ==> TableAfter(table, t, c)[k].handshake == table[k].handshake
  {
  }

  lemma StepKeepsOwnRoute(w: World, s: State, e: Event, k: Key, p: Prefix)
    requires Inv(w, s) && e.Step? && Enabled(w, s, e)
    requires Owns(w, e.t, k) && Holds(TaskStep(s, e).table, k, p)
    ensures RouteAccounted(w, TaskStep(s, e), k, p)
  {
    assert AtPoint(w, s, e.t, s.tasks[e.t].pc);
    OnlyActivationAddsRoutes(s.table, e.t, Next(s, e).command, k, p);
  }

  lemma StepKeepsRoutes(w: World, s: State, e: Event)
    requires Inv(w, s) && e.Step? && Enabled(w, s, e)
    ensures RoutesAccounted(w, TaskStep(s, e))
  {
    StepKeepsOthers(w, s, e);
    var s' := TaskStep(s, e);
    forall k, p | Holds(s'.table, k, p) && k !in w.foreign ensures RouteAccounted(w, s', k, p) {
      if Owns(w, e.t, k) {
        StepKeepsOwnRoute(w, s, e, k, p);
      } else {
        assert Get(s'.table, k) == Get(s.table, k);
        assert Holds(s.table, k, p);
        assert Get(s'.managed, w.owner[k]) == Get(s.managed, w.owner[k]);
      }
    }
  }

  lemma TickKeepsInv(w: World, s: State, ms: nat)
    requires Inv(w, s)
    ensures Inv(w, Apply(s, Tick(ms)))
  {
    forall t | t in s.tasks ensures AtPoint(w, Apply(s, Tick(ms)), t, s.tasks[t].pc) {
      assert AtPoint(w, s, t, s.tasks[t].pc);
    }
  }

  lemma HandshakeKeepsRoutes(w: World, s: State, key: Key)
    requires Inv(w, s) && key in s.table
    ensures var s' := Apply(s, Handshake(key));
            OneHolder(s'.table) && ForeignUntouched(w, s') && PeersAccounted(w, s') && RoutesAccounted(w, s')
  {
    var s' := Apply(s, Handshake(key));
    assert forall k :: k in s'.table <==> k in s.table;
    assert forall k :: k in s.table ==> s'.table[k].allowed == s.table[k].allowed;
    forall k, p | Holds(s'.table, k, p) && k !in w.foreign ensures RouteAccounted(w, s', k, p) {
      assert Holds(s.table, k, p);
    }
  }

  lemma HandshakeKeepsInv(w: World, s: State, key: Key)
    requires Inv(w, s) && key in s.table
    ensures Inv(w, Apply(s, Handshake(key)))
  {
    HandshakeKeepsRoutes(w, s, key);
    forall t | t in s.tasks ensures AtPoint(w, Apply(s, Handshake(key)), t, s.tasks[t].pc) {
      assert AtPoint(w, s, t, s.tasks[t].pc);
    }
  }

  lemma EventKeepsInv(w: World, s: State, e: Event)
    requires Inv(w, s) && Enabled(w, s, e)
    ensures Inv(w, Apply(s, e))
  {
    match e
    case Tick(ms) => TickKeepsInv(w, s, ms);
    case Handshake(key) => HandshakeKeepsInv(w, s, key);
    case Step(_, _, _, _) =>
      StepKeepsOthers(w, s, e);
      OthersStayAtPoint(w, s, TaskStep(s, e), e.t);
      StepKeepsTable(w, s, e);
      StepKeepsManaged(w, s, e);
      if BeforeRecording(s.tasks[e.t].pc) { EarlyStepMovesToPoint(w, s, e); } else { LateStepMovesToPoint(w, s, e); }
      StepKeepsPeers(w, s, e);
      StepKeepsRoutes(w, s, e);
  }

  lemma {:induction false} RunKeepsInv(w: World, s: State, es: seq<Event>, s': State)
    requires Inv(w, s) && Runs(w, s, es, s')
    ensures Inv(w, s')
    decreases |es|
  {
    if es != [] {
      EventKeepsInv(w, s, es[0]);
      RunKeepsInv(w, Apply(s, es[0]), es[1..], s');
    }
  }

  lemma InitInv(w: World, s: State)
    requires Init(w, s)
    ensures Inv(w, s)
  {
    assert forall k, p :: Holds(s.table, k, p) ==> k in w.foreign;
  }

  lemma ReachableInv(w: World, s: State)
    requires Reachable(w, s)
    ensures Inv(w, s)
  {
    var s0, es :| Init(w, s0) && Runs(w, s0, es, s);
    InitInv(w, s0);
    RunKeepsInv(w, s0, es, s);
  }

  /** Along the run every removal whose outcome the agent ignores succeeds. */
  ghost predicate RemovesSucceed(s: State, es: seq<Event>)
    decreases |es|
  {
    es == [] ||
    (&& (es[0].Handshake? ==> es[0].key in s.table)
     && (es[0].Step? ==> es[0].t in s.tasks && !Next(s, es[0]).command.FailedRemove?)
     && RemovesSucceed(Apply(s, es[0]), es[1..]))
  }

  lemma {:induction false} NothingLeaks(w: World, s: State, es: seq<Event>, s': State)
    requires s.leaked == {} && Runs(w, s, es, s') && RemovesSucceed(s, es)
    ensures s'.leaked == {}
    decreases |es|
  {
    if es != [] {
      NothingLeaks(w, Apply(s, es[0]), es[1..], s');
    }
  }
}
