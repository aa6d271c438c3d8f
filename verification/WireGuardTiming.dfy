/** How long a direct route can outlast the acceptance of the lease it rests on. */
module WireGuardTiming {
  import opened Wrappers
  import opened CryptokeyRouting
  import opened WireGuardAgent
  import opened WireGuardSafety

  /** 8 s of waiting, one poll interval, one refresh, one discovery, six commands, three lock waits. */
  function RouteBound(w: World): nat {
    HANDSHAKE_TIMEOUT + HANDSHAKE_POLL_INTERVAL + REFRESH_INTERVAL + DISCOVERY_TIMEOUT
    + 6 * w.command + 3 * w.lockWait
  }

  /** How old the accepted lease can be when the task enters a program point. */
  function EntryAge(w: World, pc: Pc): nat {
    var c, l := w.command, w.lockWait;
    match pc
    case ReadingPrevious(_) => 0
    case RemovingPrevious(_, _) => l
    case Probing(_, _) => l + c
    case Recording(_, _) => l + 2 * c
    case QueryingFreshness(_, _, _) => 2 * l + 2 * c
    case Polling(_, _, _) => 2 * l + 3 * c + 8_500
    case PollSleeping(_, _, _) => 2 * l + 3 * c + 8_000
    case RemovingTimedOut(_) => 2 * l + 4 * c + 8_500
    case Activating(_) => 2 * l + 4 * c + 8_500
    case Forgetting(_) => 2 * l + 5 * c + 8_500
    case Refreshing => 2 * l + 5 * c + 8_500
    case Discovering => 2 * l + 5 * c + 28_500
    case CleaningUp => 2 * l + 5 * c + 31_500
    case Retrying => 0
  }

  /**
   * While the target is recorded or an iteration is under way, the lease is no
   * older than its program point allows; a poll also knows its deadline.
   */
  predicate TaskInTime(w: World, now: nat, recorded: bool, task: Task) {
    && task.since <= now <= task.since + Residence(w, task.pc)
    && (task.lease.Some? ==> task.lease.value.at <= task.since)
    && (recorded || !(task.pc.Discovering? || task.pc.CleaningUp? || task.pc.Retrying?) ==>
          && task.lease.Some?
          && task.since <= task.lease.value.at + EntryAge(w, task.pc))
    && (task.pc.Polling? || task.pc.PollSleeping? ==>
          && task.lease.Some?
          && task.pc.deadline <= task.lease.value.at + 2 * w.lockWait + 3 * w.command + HANDSHAKE_TIMEOUT
          && task.since <= task.pc.deadline + (if task.pc.Polling? then HANDSHAKE_POLL_INTERVAL else 0))
    && (task.pc.Retrying? ==> !recorded)
  }

  ghost predicate InTime(w: World, s: State) {
    forall t :: t in s.tasks ==> TaskInTime(w, s.now, t in s.managed, s.tasks[t])
  }

  /** The program points a step can lead to, and what it knows of the deadline. */
  predicate Follows(now: nat, pc: Pc, pc': Pc) {
    match pc
    case Discovering => pc'.ReadingPrevious? || pc'.CleaningUp?
    case ReadingPrevious(_) => pc'.RemovingPrevious? || pc'.Probing?
    case RemovingPrevious(_, _) => pc'.Probing?
    case Probing(_, _) => pc'.Recording? || pc'.CleaningUp?
    case Recording(_, _) => pc'.QueryingFreshness?
    case QueryingFreshness(_, _, _) =>
      pc'.CleaningUp? || pc'.Activating? || (pc'.Polling? && pc'.deadline == now + HANDSHAKE_TIMEOUT)
    case Polling(_, _, deadline) =>
      || pc'.CleaningUp? || pc'.Activating? || pc'.RemovingTimedOut?
      || (pc'.PollSleeping? && pc'.deadline == deadline && now < deadline)
    case PollSleeping(_, _, deadline) => pc'.Polling? && pc'.deadline == deadline
    case RemovingTimedOut(_) => pc'.Forgetting? || pc'.CleaningUp?
    case Forgetting(_) => pc'.CleaningUp?
    case Activating(_) => pc'.Refreshing? || pc'.CleaningUp?
    case Refreshing => pc'.Discovering?
    case CleaningUp => pc'.Retrying?
    case Retrying => pc'.Discovering?
  }

  /** Forgetting and cleaning up leave the target unrecorded; otherwise only recording adds it. */
  predicate RecordingFollows(pc: Pc, recorded: bool, recorded': bool) {
    if pc.Forgetting? || pc.CleaningUp? then !recorded'
    else if pc.Recording? then recorded'
    else recorded' == recorded
  }

  lemma NextFollows(s: State, e: Event)
    requires e.Step? && e.t in s.tasks
    ensures Follows(s.now, s.tasks[e.t].pc, Next(s, e).pc)
    ensures RecordingFollows(s.tasks[e.t].pc, e.t in s.managed, e.t in ManagedAfter(s.managed, e.t, Next(s, e).entry))
    ensures LeaseAfter(s, e) == s.tasks[e.t].lease
            || (Next(s, e).pc.ReadingPrevious? && LeaseAfter(s, e).Some? && LeaseAfter(s, e).value.at == s.now)
  {
  }

  lemma MoveInTime(w: World, now: nat, recorded: bool, task: Task, recorded': bool, pc: Pc, lease: Option<Accepted>)
    requires TaskInTime(w, now, recorded, task)
    requires Follows(now, task.pc, pc) && RecordingFollows(task.pc, recorded, recorded')
    requires if pc.ReadingPrevious? then lease.Some? && lease.value.at == now else lease == task.lease
    ensures TaskInTime(w, now, recorded', Task(pc, now, lease))
  {
  }

  lemma EventKeepsInTime(w: World, s: State, e: Event)
    requires Inv(w, s) && InTime(w, s) && Enabled(w, s, e)
    ensures InTime(w, Apply(s, e))
  {
    var s' := Apply(s, e);
    match e
    case Tick(_) =>
      forall t | t in s'.tasks ensures TaskInTime(w, s'.now, t in s'.managed, s'.tasks[t]) {
        assert TaskInTime(w, s.now, t in s.managed, s.tasks[t]);
      }
    case Handshake(_) =>
      forall t | t in s'.tasks ensures TaskInTime(w, s'.now, t in s'.managed, s'.tasks[t]) {
        assert TaskInTime(w, s.now, t in s.managed, s.tasks[t]);
      }
    case Step(_, _, _, _) =>
      NextFollows(s, e);
      MoveInTime(w, s.now, e.t in s.managed, s.tasks[e.t], e.t in s'.managed, Next(s, e).pc, LeaseAfter(s, e));
      StepKeepsOthers(w, s, e);
      forall t | t in s'.tasks && t != e.t ensures TaskInTime(w, s'.now, t in s'.managed, s'.tasks[t]) {
        assert TaskInTime(w, s.now, t in s.managed, s.tasks[t]);
        assert Get(s'.managed, t) == Get(s.managed, t);
      }
  }

  lemma {:induction false} RunKeepsInTime(w: World, s: State, es: seq<Event>, s': State)
    requires Inv(w, s) && InTime(w, s) && Runs(w, s, es, s')
    ensures InTime(w, s')
    decreases |es|
  {
    if es != [] {
      EventKeepsInv(w, s, es[0]);
      EventKeepsInTime(w, s, es[0]);
      RunKeepsInTime(w, Apply(s, es[0]), es[1..], s');
    }
  }

  lemma ReachableInTime(w: World, s: State)
    requires Reachable(w, s)
    ensures InTime(w, s)
  {
    var s0, es :| Init(w, s0) && Runs(w, s0, es, s);
    InitInv(w, s0);
    RunKeepsInTime(w, s0, es, s);
  }

  /**
   * At any moment of any run, a recorded peer holding a target's /32 rests on a
   * lease its task accepted at most `RouteBound` ago; so a route never outlives a
   * lease that was good for at least that long.
   */
  lemma BoundedRouteLifetime(w: World, s: State, t: Ip, k: Key)
    requires Reachable(w, s) && t in w.targets
    requires Holds(s.table, k, Slash32(t)) && Recorded(s, t, k)
    ensures t in s.tasks && s.tasks[t].lease.Some?
    ensures var lease := s.tasks[t].lease.value;
            && lease.at <= s.now <= lease.at + RouteBound(w)
            && (lease.expires >= lease.at + RouteBound(w) ==> s.now <= lease.expires)
  {
    ReachableInv(w, s);
    ReachableInTime(w, s);
    assert TaskInTime(w, s.now, t in s.managed, s.tasks[t]);
  }
}
