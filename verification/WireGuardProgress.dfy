/** What an iteration that meets no failure achieves, in any interleaving with the other tasks. */
module WireGuardProgress {
  import opened Wrappers
  import opened CryptokeyRouting
  import opened WireGuardAgent
  import opened WireGuardSafety

  /** How often the target's task steps in a run. */
  function StepsOf(t: Ip, es: seq<Event>): nat {
    if es == [] then 0 else (if Own(t, es[0]) then 1 else 0) + StepsOf(t, es[1..])
  }

  predicate Own(t: Ip, e: Event) {
    e.Step? && e.t == t
  }

  // What events of others leave alone

  /** The part of the state that belongs to a target. */
  ghost predicate SameFor(w: World, t: Ip, s: State, s': State) {
    && t in s.tasks && t in s'.tasks && s'.tasks[t] == s.tasks[t]
    && Get(s'.managed, t) == Get(s.managed, t)
    && forall k :: Owns(w, t, k) ==> (k in s'.table <==> k in s.table)
                                     && (k in s.table ==> s'.table[k].allowed == s.table[k].allowed)
  }

  lemma OtherEventsKeep(w: World, t: Ip, s: State, e: Event)
    requires Inv(w, s) && Enabled(w, s, e) && t in w.targets && !Own(t, e)
    ensures SameFor(w, t, s, Apply(s, e))
  {
    if e.Step? {
      StepKeepsOthers(w, s, e);
      var s' := TaskStep(s, e);
      forall k | Owns(w, t, k)
        ensures (k in s'.table <==> k in s.table) && (k in s.table ==> s'.table[k].allowed == s.table[k].allowed)
      {
        assert Get(s'.table, k) == Get(s.table, k);
      }
    }
  }

  // A refresh of a working peer

  /** The offer is for `k`, every command succeeds, and the query finds a handshake at most 180 s old. */
  predicate GoodRefresh(k: Key, s: State, e: Event)
    requires e.Step? && e.t in s.tasks
  {
    var pc := s.tasks[e.t].pc;
    && e.ok
    && (pc.Discovering? ==> Discovered(e, s.now).Some? && Discovered(e, s.now).value.key == k)
    && (pc.QueryingFreshness? ==>
          LatestHandshake(s.table, k) > 0 && pc.seconds <= LatestHandshake(s.table, k) + MAX_HANDSHAKE_AGE)
  }

  /** The seven program points of such an iteration, in order. */
  predicate AtStage(k: Key, stage: nat, pc: Pc) {
    match stage
    case 0 => pc == Discovering
    case 1 => pc == ReadingPrevious(k)
    case 2 => pc == Probing(k, true)
    case 3 => pc == Recording(k, true)
    case 4 => pc.QueryingFreshness? && pc.key == k && pc.same
    case 5 => pc == Activating(k)
    case 6 => pc == Refreshing
    case _ => false
  }

  /** The peer is recorded and holds the target's /32, and the task is at the stage. */
  predicate Installed(t: Ip, k: Key, stage: nat, s: State) {
    t in s.tasks && AtStage(k, stage, s.tasks[t].pc) && Recorded(s, t, k) && Holds(s.table, k, Slash32(t))
  }

  ghost predicate GoodRefreshes(t: Ip, k: Key, s: State, es: seq<Event>)
    decreases |es|
  {
    es != [] ==>
      && (es[0].Handshake? ==> es[0].key in s.table) && (es[0].Step? ==> es[0].t in s.tasks)
      && (Own(t, es[0]) ==> GoodRefresh(k, s, es[0]))
      && GoodRefreshes(t, k, Apply(s, es[0]), es[1..])
  }

  /** The stage `n` steps on; an iteration has seven. */
  function Later(stage: nat, n: nat): nat
    decreases n
  {
    if n == 0 then stage else Later(if stage == 6 then 0 else stage + 1, n - 1)
  }

  lemma RefreshStep(t: Ip, k: Key, stage: nat, s: State, e: Event)
    requires Installed(t, k, stage, s) && Own(t, e) && GoodRefresh(k, s, e)
    ensures Installed(t, k, if stage == 6 then 0 else stage + 1, TaskStep(s, e))
  {
  }

  lemma OthersKeepInstalled(w: World, t: Ip, k: Key, stage: nat, s: State, e: Event)
    requires Inv(w, s) && Enabled(w, s, e) && !Own(t, e) && t in w.targets && Installed(t, k, stage, s)
    ensures Installed(t, k, stage, Apply(s, e))
  {
    OtherEventsKeep(w, t, s, e);
    assert Owns(w, t, s.managed[t]);
  }

  lemma RefreshEvent(w: World, t: Ip, k: Key, stage: nat, s: State, e: Event)
    requires Inv(w, s) && Enabled(w, s, e) && t in w.targets && Installed(t, k, stage, s)
    requires Own(t, e) ==> GoodRefresh(k, s, e)
    ensures Installed(t, k, Later(stage, if Own(t, e) then 1 else 0), Apply(s, e))
  {
    if Own(t, e) {
      RefreshStep(t, k, stage, s, e);
    } else {
      OthersKeepInstalled(w, t, k, stage, s, e);
    }
  }

  lemma {:induction false} LaterSum(stage: nat, m: nat, n: nat)
    ensures Later(Later(stage, m), n) == Later(stage, m + n)
    decreases m
  {
    if m > 0 {
      LaterSum(if stage == 6 then 0 else stage + 1, m - 1, n);
    }
  }

  /**
   * As long as the offers are for the recorded peer, commands succeed and each query
   * finds a handshake at most 180 s old, the target's /32 stays on the recorded peer
   * in every state, and every seven steps of its task complete an iteration.
   */
  lemma {:induction false} RefreshKeepsRoute(w: World, t: Ip, k: Key, stage: nat, s: State, es: seq<Event>, s': State)
    requires Inv(w, s) && t in w.targets && Runs(w, s, es, s')
    requires Installed(t, k, stage, s) && GoodRefreshes(t, k, s, es)
    ensures Installed(t, k, Later(stage, StepsOf(t, es)), s')
    decreases |es|
  {
    if es != [] {
      var n := if Own(t, es[0]) then 1 else 0;
      EventKeepsInv(w, s, es[0]);
      RefreshEvent(w, t, k, stage, s, es[0]);
      RefreshKeepsRoute(w, t, k, Later(stage, n), Apply(s, es[0]), es[1..], s');
      LaterSum(stage, n, StepsOf(t, es[1..]));
    }
  }

  /** A whole iteration from one refresh to the next, in any reachable state. */
  lemma RefreshCompletes(w: World, t: Ip, k: Key, s: State, es: seq<Event>, s': State)
    requires Reachable(w, s) && t in w.targets && Runs(w, s, es, s')
    requires Recorded(s, t, k) && Holds(s.table, k, Slash32(t)) && t in s.tasks && s.tasks[t].pc == Refreshing
    requires GoodRefreshes(t, k, s, es)
    ensures Recorded(s', t, k) && Holds(s'.table, k, Slash32(t))
    ensures StepsOf(t, es) == 7 ==> t in s'.tasks && s'.tasks[t].pc == Refreshing
  {
    ReachableInv(w, s);
    RefreshKeepsRoute(w, t, k, 6, s, es, s');
    assert Later(6, 7) == Later(0, 6) == Later(1, 5) == Later(2, 4) == Later(3, 3) == Later(4, 2) == Later(5, 1) == 6;
  }

  // A peer that is given time

  /** The offer is for `k`, every command succeeds, and no poll finds the deadline past and no handshake. */
  predicate Patient(k: Key, s: State, e: Event)
    requires e.Step? && e.t in s.tasks
  {
    var pc := s.tasks[e.t].pc;
    && e.ok
    && (pc.Discovering? ==> Discovered(e, s.now).Some? && Discovered(e, s.now).value.key == k)
    && (pc.Polling? ==> LatestHandshake(s.table, k) >= pc.started || s.now < pc.deadline)
  }

  ghost predicate PatientRun(t: Ip, k: Key, s: State, es: seq<Event>)
    decreases |es|
  {
    es != [] ==>
      && (es[0].Handshake? ==> es[0].key in s.table) && (es[0].Step? ==> es[0].t in s.tasks)
      && (Own(t, es[0]) ==> Patient(k, s, es[0]))
      && PatientRun(t, k, Apply(s, es[0]), es[1..])
  }

  /** The task works on the recorded peer `k`, which is on the interface. */
  predicate WorksOn(t: Ip, k: Key, s: State) {
    && Recorded(s, t, k) && k in s.table && t in s.tasks
    && match s.tasks[t].pc
       case Discovering | Refreshing => true
       case Probing(key, same) => key == k && same
       case Recording(key, same) => key == k && same
       case ReadingPrevious(key) => key == k
       case QueryingFreshness(key, _, _) => key == k
       case Polling(key, _, _) => key == k
       case PollSleeping(key, _, _) => key == k
       case Activating(key) => key == k
       case _ => false
  }

  lemma PatientStep(t: Ip, k: Key, s: State, e: Event)
    requires WorksOn(t, k, s) && Own(t, e) && Patient(k, s, e)
    ensures WorksOn(t, k, TaskStep(s, e))
    ensures Holds(s.table, k, Slash32(t)) ==> Holds(TaskStep(s, e).table, k, Slash32(t))
  {
  }

  lemma OthersLeaveWork(w: World, t: Ip, k: Key, s: State, e: Event)
    requires Inv(w, s) && Enabled(w, s, e) && !Own(t, e) && t in w.targets && WorksOn(t, k, s)
    ensures WorksOn(t, k, Apply(s, e))
    ensures Holds(s.table, k, Slash32(t)) ==> Holds(Apply(s, e).table, k, Slash32(t))
  {
    OtherEventsKeep(w, t, s, e);
    assert Owns(w, t, s.managed[t]);
  }

  /**
   * A recorded peer, and its route if it has one, is given up only for a failing
   * command, for an offer of another peer, or at a poll that finds its deadline past
   * and no handshake since the wait began.
   */
  lemma {:induction false} RemovedOnlyAfterDeadline(w: World, t: Ip, k: Key, s: State, es: seq<Event>, s': State)
    requires Inv(w, s) && t in w.targets && Runs(w, s, es, s') && WorksOn(t, k, s) && PatientRun(t, k, s, es)
    ensures WorksOn(t, k, s')
    ensures Holds(s.table, k, Slash32(t)) ==> Holds(s'.table, k, Slash32(t))
    decreases |es|
  {
    if es != [] {
      EventKeepsInv(w, s, es[0]);
      if Own(t, es[0]) {
        PatientStep(t, k, s, es[0]);
      } else {
        OthersLeaveWork(w, t, k, s, es[0]);
      }
      RemovedOnlyAfterDeadline(w, t, k, Apply(s, es[0]), es[1..], s');
    }
  }

  // A new peer

  /** The offer is for `k`, every command succeeds, and a poll finds a handshake since the wait began. */
  predicate GoodStart(k: Key, s: State, e: Event)
    requires e.Step? && e.t in s.tasks
  {
    var pc := s.tasks[e.t].pc;
    && e.ok
    && (pc.Discovering? ==> Discovered(e, s.now).Some? && Discovered(e, s.now).value.key == k)
    && (pc.Polling? ==> LatestHandshake(s.table, k) >= pc.started)
  }

  ghost predicate GoodStarts(t: Ip, k: Key, s: State, es: seq<Event>)
    decreases |es|
  {
    es != [] ==>
      && (es[0].Handshake? ==> es[0].key in s.table) && (es[0].Step? ==> es[0].t in s.tasks)
      && (Own(t, es[0]) ==> GoodStart(k, s, es[0]))
      && GoodStarts(t, k, Apply(s, es[0]), es[1..])
  }

  predicate Gone(previous: Option<Key>, s: State) {
    previous.Some? ==> previous.value !in s.table
  }

  /** How far the new peer has come, and that the previous one is gone from stage 3 on. */
  predicate ComesIn(w: World, t: Ip, k: Key, previous: Option<Key>, stage: nat, s: State) {
    && Owns(w, t, k) && previous != Some(k) && (previous.Some? ==> Owns(w, t, previous.value)) && t in s.tasks
    && var pc := s.tasks[t].pc;
       match stage
       case 0 => pc == Discovering && Get(s.managed, t) == previous
       case 1 => pc == ReadingPrevious(k) && Get(s.managed, t) == previous
       case 2 => previous.Some? && pc == RemovingPrevious(k, previous.value) && Get(s.managed, t) == previous
       case 3 => pc == Probing(k, false) && Gone(previous, s)
       case 4 => pc == Recording(k, false) && k in s.table && Gone(previous, s)
       case 5 => pc.QueryingFreshness? && pc.key == k && !pc.same && Recorded(s, t, k) && k in s.table && Gone(previous, s)
       case 6 => pc.Polling? && pc.key == k && Recorded(s, t, k) && k in s.table && Gone(previous, s)
       case 7 => pc == Activating(k) && Recorded(s, t, k) && k in s.table && Gone(previous, s)
       case 8 => pc == Refreshing && Recorded(s, t, k) && Holds(s.table, k, Slash32(t)) && Gone(previous, s)
       case _ => false
  }

  /** Without a previous peer there is nothing to remove. */
  function NextStage(previous: Option<Key>, stage: nat): nat {
    if stage == 1 && previous.None? then 3 else stage + 1
  }

  function StageAfter(previous: Option<Key>, stage: nat, n: nat): nat
    decreases n
  {
    if n == 0 then stage else StageAfter(previous, NextStage(previous, stage), n - 1)
  }

  lemma {:induction false} StagesGrow(previous: Option<Key>, stage: nat, n: nat)
    ensures StageAfter(previous, stage, n) >= stage + n
    decreases n
  {
    if n > 0 {
      StagesGrow(previous, NextStage(previous, stage), n - 1);
    }
  }

  lemma StartStep(w: World, t: Ip, k: Key, previous: Option<Key>, stage: nat, s: State, e: Event)
    requires ComesIn(w, t, k, previous, stage, s) && stage < 8 && Own(t, e) && GoodStart(k, s, e)
    ensures ComesIn(w, t, k, previous, NextStage(previous, stage), TaskStep(s, e))
  {
  }

  lemma OthersLetIn(w: World, t: Ip, k: Key, previous: Option<Key>, stage: nat, s: State, e: Event)
    requires Inv(w, s) && Enabled(w, s, e) && !Own(t, e) && t in w.targets
    requires ComesIn(w, t, k, previous, stage, s)
    ensures ComesIn(w, t, k, previous, stage, Apply(s, e))
  {
    OtherEventsKeep(w, t, s, e);
  }

  lemma StartEvent(w: World, t: Ip, k: Key, previous: Option<Key>, stage: nat, s: State, e: Event)
    requires Inv(w, s) && Enabled(w, s, e) && t in w.targets && ComesIn(w, t, k, previous, stage, s)
    requires Own(t, e) ==> stage < 8 && GoodStart(k, s, e)
    ensures ComesIn(w, t, k, previous, StageAfter(previous, stage, if Own(t, e) then 1 else 0), Apply(s, e))
  {
    if Own(t, e) {
      StartStep(w, t, k, previous, stage, s, e);
    } else {
      OthersLetIn(w, t, k, previous, stage, s, e);
    }
  }

  lemma {:induction false} StagesAdd(previous: Option<Key>, stage: nat, m: nat, n: nat)
    ensures StageAfter(previous, StageAfter(previous, stage, m), n) == StageAfter(previous, stage, m + n)
    decreases m
  {
    if m > 0 {
      StagesAdd(previous, NextStage(previous, stage), m - 1, n);
    }
  }

  lemma StageFits(t: Ip, previous: Option<Key>, stage: nat, es: seq<Event>)
    requires es != [] && StageAfter(previous, stage, StepsOf(t, es)) <= 8
    ensures Own(t, es[0]) ==> stage < 8
    ensures StageAfter(previous, StageAfter(previous, stage, if Own(t, es[0]) then 1 else 0), StepsOf(t, es[1..]))
         == StageAfter(previous, stage, StepsOf(t, es))
  {
    StagesGrow(previous, stage, StepsOf(t, es));
    StagesAdd(previous, stage, if Own(t, es[0]) then 1 else 0, StepsOf(t, es[1..]));
  }

  /**
   * From any of its stages on, a peer other than the recorded one comes in step by
   * step when commands succeed and its first poll finds a handshake since the wait
   * began: the previous peer is removed, the new one recorded, and at the last stage
   * it holds the target's /32.
   */
  lemma {:induction false} NewPeerComesIn(
    w: World, t: Ip, k: Key, previous: Option<Key>, stage: nat, s: State, es: seq<Event>, s': State)
    requires Inv(w, s) && t in w.targets && Runs(w, s, es, s')
    requires ComesIn(w, t, k, previous, stage, s) && GoodStarts(t, k, s, es)
    requires StageAfter(previous, stage, StepsOf(t, es)) <= 8
    ensures ComesIn(w, t, k, previous, StageAfter(previous, stage, StepsOf(t, es)), s')
    decreases |es|
  {
    if es != [] {
      StageFits(t, previous, stage, es);
      EventKeepsInv(w, s, es[0]);
      StartEvent(w, t, k, previous, stage, s, es[0]);
      var stage' := StageAfter(previous, stage, if Own(t, es[0]) then 1 else 0);
      NewPeerComesIn(w, t, k, previous, stage', Apply(s, es[0]), es[1..], s');
    }
  }

  /** A poll that finds a handshake since the wait began leads to an installed route in two steps of the task. */
  lemma AnsweredPollInstalls(w: World, t: Ip, k: Key, s: State, es: seq<Event>, s': State)
    requires Reachable(w, s) && t in w.targets && Runs(w, s, es, s') && GoodStarts(t, k, s, es) && StepsOf(t, es) == 2
    requires t in s.tasks && s.tasks[t].pc.Polling? && s.tasks[t].pc.key == k
    ensures t in s'.tasks && s'.tasks[t].pc == Refreshing && Recorded(s', t, k) && Holds(s'.table, k, Slash32(t))
  {
    ReachableInv(w, s);
    assert AtPoint(w, s, t, s.tasks[t].pc);
    assert Owns(w, t, s.managed[t]);
    assert StageAfter(None, 6, 2) == StageAfter(None, 7, 1) == 8;
    NewPeerComesIn(w, t, k, None, 6, s, es, s');
  }
}
