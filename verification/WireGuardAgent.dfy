/**
 * The direct-peer agent: one task per target runs discover, probe, wait for a
 * handshake, activate, refresh or tear down. The tasks share the `managed` map
 * and the interface's peer table, so the agent is a state machine whose steps
 * are the pieces of `run_target` between two await points, in any interleaving.
 *
 * A step is the work done when the awaited thing completes: the clock may pass
 * while a task sits at a program point, and the step itself takes no time.
 * A failing `wg` command leaves the table as it was. Removing an entry from
 * `managed` and issuing the clean-up `wg remove` is one step, because the lock
 * is held across both.
 */
module WireGuardAgent {
  import opened Wrappers
  import opened CryptokeyRouting

  const DISCOVERY_TIMEOUT := 3_000
  const HANDSHAKE_TIMEOUT := 8_000
  const HANDSHAKE_POLL_INTERVAL := 500
  const MAX_HANDSHAKE_AGE := 180
  const REFRESH_INTERVAL := 20_000
  const RETRY_INTERVAL := 5_000
  const MAX_LEASE_AHEAD_MS := 120_000

  datatype Endpoint = V4(addr: Ip, port: nat) | V6(text: string)

  /** A decoded discovery reply; `endpoint` is None when the text does not parse. */
  datatype Response = Response(
    requestId: nat, status: int, targetIp: Ip, publicKey: seq<bv8>,
    endpoint: Option<Endpoint>, leaseId: nat, expiresAt: nat)

  datatype Lease = Lease(key: Key, endpoint: Endpoint, leaseId: nat, expiresAt: nat)

  datatype LeaseError = Mismatched | Unavailable | InvalidKey | InvalidEndpoint | NotIpv4 | InvalidLifetime

  function SaturatingSub(a: nat, b: nat): nat {
    if a >= b then a - b else 0
  }

  function ValidateResponse(r: Response, requestId: nat, target: Ip, now: nat): (result: Result<Lease, LeaseError>)
    ensures result.Ok? <==>
              && r.requestId == requestId && r.targetIp == target && r.status == 0
              && |r.publicKey| == 32 && r.endpoint.Some? && r.endpoint.value.V4?
              && r.leaseId != 0 && now < r.expiresAt <= now + MAX_LEASE_AHEAD_MS
    ensures result.Ok? ==> result.value == Lease(r.publicKey, r.endpoint.value, r.leaseId, r.expiresAt)
  {
    if r.requestId != requestId || r.targetIp != target then Err(Mismatched)
    else if r.status != 0 then Err(Unavailable)
    else if |r.publicKey| != 32 then Err(InvalidKey)
    else if r.endpoint.None? then Err(InvalidEndpoint)
    else if r.endpoint.value.V6? then Err(NotIpv4)
    else if r.leaseId == 0 || r.expiresAt <= now || SaturatingSub(r.expiresAt, now) > MAX_LEASE_AHEAD_MS
    then Err(InvalidLifetime)
    else Ok(Lease(r.publicKey, r.endpoint.value, r.leaseId, r.expiresAt))
  }

  /** Where a task is: the program points of `run_target`, with the locals alive there. */
  datatype Pc =
    | Discovering
    | ReadingPrevious(key: Key)
    | RemovingPrevious(key: Key, previous: Key)
    | Probing(key: Key, same: bool)
    | Recording(key: Key, same: bool)
    | QueryingFreshness(key: Key, same: bool, seconds: nat)
    | Polling(key: Key, started: nat, deadline: nat)
    | PollSleeping(key: Key, started: nat, deadline: nat)
    | RemovingTimedOut(key: Key)
    | Forgetting(key: Key)
    | Activating(key: Key)
    | Refreshing
    | CleaningUp
    | Retrying

  /**
   * When the task's latest lease was accepted and when it expires, in milliseconds;
   * and, as history, the peer recorded for the target at that moment.
   */
  datatype Accepted = Accepted(at: nat, expires: nat, recorded: Option<Key>)

  datatype Task = Task(pc: Pc, since: nat, lease: Option<Accepted>)

  /**
   * The interface, the shared map, the tasks and the clock. `leaked` is history:
   * the peers whose latest ignored `wg remove` failed.
   */
  datatype State = State(now: nat, table: Table, managed: map<Ip, Key>, tasks: map<Ip, Task>, leaked: set<Key>)

  /**
   * What a run cannot change: the targets, which target a key may be offered
   * for, the peers the agent does not manage, and the longest time a `wg`
   * command and a wait for the `managed` lock take.
   */
  datatype World = World(targets: set<Ip>, owner: map<Key, Ip>, foreign: Table, command: nat, lockWait: nat)

  /**
   * Different targets are given different keys (`owner` is a function), no
   * target is given the key of an unmanaged peer, and an unmanaged peer such as
   * the server holds subnets, never a target's own /32.
   */
  ghost predicate WellFormed(w: World) {
    && w.owner.Keys !! w.foreign.Keys
    && OneHolder(w.foreign)
    && forall k, t :: k in w.foreign && t in w.targets ==> Slash32(t) !in w.foreign[k].allowed
  }

  predicate Owns(w: World, t: Ip, k: Key) {
    k in w.owner && w.owner[k] == t
  }

  /** `tokio::spawn` of one task per target on an interface the agent has not touched. */
  ghost predicate Init(w: World, s: State) {
    && WellFormed(w)
    && s.now >= 2_000
    && s.table == w.foreign
    && s.managed == map[]
    && s.tasks.Keys == w.targets
    && (forall t :: t in s.tasks ==> s.tasks[t] == Task(Discovering, s.now, None))
    && s.leaked == {}
  }

  /** Time passes; a peer completes a handshake; or a task does its next step. */
  datatype Event =
    | Tick(ms: nat)
    | Handshake(key: Key)
    | Step(t: Ip, ok: bool, reply: Option<Response>, requestId: nat)

  /** The longest a task stays at a program point. */
  function Residence(w: World, pc: Pc): nat {
    match pc
    case Discovering => DISCOVERY_TIMEOUT
    case ReadingPrevious(_) | Recording(_, _) | Forgetting(_) => w.lockWait
    case RemovingPrevious(_, _) | Probing(_, _) | QueryingFreshness(_, _, _) | Polling(_, _, _)
       | RemovingTimedOut(_) | Activating(_) => w.command
    case PollSleeping(_, _, _) => HANDSHAKE_POLL_INTERVAL
    case Refreshing => REFRESH_INTERVAL
    case CleaningUp => w.lockWait + w.command
    case Retrying => RETRY_INTERVAL
  }

  predicate Sleeping(pc: Pc) {
    pc.PollSleeping? || pc.Refreshing? || pc.Retrying?
  }

  function Discovered(e: Event, now: nat): Option<Lease>
    requires e.Step?
  {
    if e.reply.None? then None
    else match ValidateResponse(e.reply.value, e.requestId, e.t, now)
      case Ok(lease) => Some(lease)
      case Err(_) => None
  }

  ghost predicate Enabled(w: World, s: State, e: Event) {
    match e
    case Tick(ms) => forall t :: t in s.tasks ==> s.now + ms <= s.tasks[t].since + Residence(w, s.tasks[t].pc)
    case Handshake(key) => key in s.table
    case Step(t, _, _, _) =>
      && t in s.tasks
      && (Sleeping(s.tasks[t].pc) ==> s.now >= s.tasks[t].since + Residence(w, s.tasks[t].pc))
      && (s.tasks[t].pc.Discovering? && Discovered(e, s.now).Some? ==> Owns(w, t, Discovered(e, s.now).value.key))
  }

  /** What a step does to the interface; a failed command that is not ignored does nothing. */
  datatype Command =
    | NoCommand
    | ProbeCommand(key: Key)
    | ActivateCommand(key: Key)
    | RemoveCommand(key: Key)
    | FailedRemove(key: Key)

  /** What a step does to the target's entry in `managed`. */
  datatype Entry = KeepEntry | InsertEntry(key: Key) | DeleteEntry

  datatype Effect = Effect(pc: Pc, command: Command, entry: Entry)

  /** `let _ = wg.remove(key)`: the outcome is ignored, so a failure leaves the peer behind. */
  function IgnoringRemove(key: Key, ok: bool): Command {
    if ok then RemoveCommand(key) else FailedRemove(key)
  }

  function JustMove(pc: Pc): Effect {
    Effect(pc, NoCommand, KeepEntry)
  }

  /** What a task does next is fixed by its program point and the outcome of what it awaited. */
  function Next(s: State, e: Event): Effect
    requires e.Step? && e.t in s.tasks
  {
    var t, ok := e.t, e.ok;
    match s.tasks[t].pc
    case Discovering =>
      (match Discovered(e, s.now)
       case Some(lease) => JustMove(ReadingPrevious(lease.key))
       case None => JustMove(CleaningUp))
    case ReadingPrevious(key) =>
      (match Get(s.managed, t)
       case Some(previous) => JustMove(if previous == key then Probing(key, true) else RemovingPrevious(key, previous))
       case None => JustMove(Probing(key, false)))
    case RemovingPrevious(key, previous) => Effect(Probing(key, false), IgnoringRemove(previous, ok), KeepEntry)
    case Probing(key, same) =>
      if ok then Effect(Recording(key, same), ProbeCommand(key), KeepEntry) else JustMove(CleaningUp)
    case Recording(key, same) => Effect(QueryingFreshness(key, same, s.now / 1000), NoCommand, InsertEntry(key))
    case QueryingFreshness(key, same, seconds) =>
      var latest := LatestHandshake(s.table, key);
      if !ok then JustMove(CleaningUp)
      else if same && latest > 0 && SaturatingSub(seconds, latest) <= MAX_HANDSHAKE_AGE then JustMove(Activating(key))
      else JustMove(Polling(key, SaturatingSub(seconds, 1), s.now + HANDSHAKE_TIMEOUT))
    case Polling(key, started, deadline) =>
      if !ok then JustMove(CleaningUp)
      else if LatestHandshake(s.table, key) >= started then JustMove(Activating(key))
      else if s.now >= deadline then JustMove(RemovingTimedOut(key))
      else JustMove(PollSleeping(key, started, deadline))
    case PollSleeping(key, started, deadline) => JustMove(Polling(key, started, deadline))
    case RemovingTimedOut(key) =>
      if ok then Effect(Forgetting(key), RemoveCommand(key), KeepEntry) else JustMove(CleaningUp)
    case Forgetting(_) => Effect(CleaningUp, NoCommand, DeleteEntry)
    case Activating(key) =>
      if ok then Effect(Refreshing, ActivateCommand(key), KeepEntry) else JustMove(CleaningUp)
    case Refreshing => JustMove(Discovering)
    case CleaningUp =>
      (match Get(s.managed, t)
       case Some(key) => Effect(Retrying, IgnoringRemove(key, ok), DeleteEntry)
       case None => JustMove(Retrying))
    case Retrying => JustMove(Discovering)
  }

  function TableAfter(table: Table, t: Ip, c: Command): Table {
    match c
    case ProbeCommand(key) => SetEndpoint(table, key)
    case ActivateCommand(key) => SetAllowed(table, key, t)
    case RemoveCommand(key) => RemovePeer(table, key)
    case NoCommand | FailedRemove(_) => table
  }

  function ManagedAfter(managed: map<Ip, Key>, t: Ip, entry: Entry): map<Ip, Key> {
    match entry
    case KeepEntry => managed
    case InsertEntry(key) => managed[t := key]
    case DeleteEntry => managed - {t}
  }

  /** A peer is no longer leaked once it is gone from the interface or recorded again. */
  function LeakedAfter(s: State, eff: Effect): set<Key> {
    match eff.command
    case FailedRemove(key) => if key in s.table then s.leaked + {key} else s.leaked
    case RemoveCommand(key) => s.leaked - {key}
    case _ => if eff.entry.InsertEntry? then s.leaked - {eff.entry.key} else s.leaked
  }

  function LeaseAfter(s: State, e: Event): Option<Accepted>
    requires e.Step? && e.t in s.tasks
  {
    if s.tasks[e.t].pc.Discovering? && Discovered(e, s.now).Some?
    then Some(Accepted(s.now, Discovered(e, s.now).value.expiresAt, Get(s.managed, e.t)))
    else s.tasks[e.t].lease
  }

  function TaskStep(s: State, e: Event): State
    requires e.Step? && e.t in s.tasks
  {
    var eff := Next(s, e);
    State(s.now,
          TableAfter(s.table, e.t, eff.command),
          ManagedAfter(s.managed, e.t, eff.entry),
          s.tasks[e.t := Task(eff.pc, s.now, LeaseAfter(s, e))],
          LeakedAfter(s, eff))
  }

  function Apply(s: State, e: Event): State
    requires e.Handshake? ==> e.key in s.table
    requires e.Step? ==> e.t in s.tasks
  {
    match e
    case Tick(ms) => s.(now := s.now + ms)
    case Handshake(key) => s.(table := s.table[key := s.table[key].(handshake := s.now / 1000)])
    case Step(_, _, _, _) => TaskStep(s, e)
  }

  /** `s'` is reached from `s` by the events `es`, each enabled when it happens. */
  ghost predicate Runs(w: World, s: State, es: seq<Event>, s': State)
    decreases |es|
  {
    if es == [] then s' == s
    else Enabled(w, s, es[0]) && Runs(w, Apply(s, es[0]), es[1..], s')
  }

  ghost predicate Reachable(w: World, s: State) {
    exists s0, es :: Init(w, s0) && Runs(w, s0, es, s)
  }
}
