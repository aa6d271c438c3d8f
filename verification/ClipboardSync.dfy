/**
 * Clipboard synchronisation between any number of linked desktops. What a machine
 * receives it marks with an owner entry; a marked clipboard is not read back, so
 * nothing that arrived is sent on, unless a new session forces the read.
 */
module ClipboardSync {
  import opened Wrappers

  const OWNER_FORMAT := "dyn.com.rustdesk.owner"

  datatype Data =
    | Text(text: string)
    | Rtf(text: string)
    | Html(text: string)
    | Image(bytes: seq<bv8>)
    | FileUrl(urls: seq<string>)
    | Special(name: string, bytes: seq<bv8>)

  datatype Side = Host | Client

  function OwnerData(side: Side): seq<bv8> {
    match side
    case Host => [1]
    case Client => [2]
  }

  /** Any owner bit counts, whichever side asks. */
  predicate IsOwner(d: seq<bv8>) {
    |d| > 0 && d[0] & 3 != 0
  }

  predicate IsMark(c: Data) {
    c.Special? && c.name == OWNER_FORMAT && IsOwner(c.bytes)
  }

  predicate Marked(board: seq<Data>) {
    exists i :: 0 <= i < |board| && IsMark(board[i])
  }

  predicate Sendable(c: Data) {
    match c
    case Special(name, _) => name != OWNER_FORMAT
    case Text(text) => text != ""
    case _ => true
  }

  function Keep(board: seq<Data>): seq<Data> {
    if board == [] then [] else (if Sendable(board[0]) then [board[0]] else []) + Keep(board[1..])
  }

  predicate HasFiles(board: seq<Data>) {
    exists c :: c in board && c.FileUrl?
  }

  /** `get_formats_filter` and `get`; `files` is the file copy-paste feature. */
  function Read(board: seq<Data>, force: bool, files: bool): seq<Data> {
    var data := if !force && Marked(board) then [] else Keep(board);
    if files && HasFiles(data) then [] else data
  }

  /** `create_multi_clipboards`: file urls have no wire form. */
  function ToWire(data: seq<Data>): seq<Data> {
    if data == [] then [] else (if data[0].FileUrl? then [] else [data[0]]) + ToWire(data[1..])
  }

  /** `check_clipboard`: what is sent, if anything. */
  function Check(board: seq<Data>, force: bool, files: bool): Option<seq<Data>> {
    var content := Read(board, force, files);
    if content == [] then None else Some(ToWire(content))
  }

  // What is sent, without the filters

  /** Everything is worth sending but an empty text and an owner entry. */
  predicate Worth(c: Data) {
    c != Text("") && !(c.Special? && c.name == OWNER_FORMAT)
  }

  predicate Wanted(c: Data) {
    Worth(c) && !c.FileUrl?
  }

  predicate Increasing(at: seq<nat>) {
    forall i, j :: 0 <= i < j < |at| ==> at[i] < at[j]
  }

  /** The items at these places, which are all the places of wanted items, in order. */
  ghost predicate PicksAt(board: seq<Data>, content: seq<Data>, at: seq<nat>) {
    && Increasing(at) && |at| == |content|
    && (forall i :: 0 <= i < |at| ==> at[i] < |board| && Wanted(board[at[i]]) && content[i] == board[at[i]])
    && (forall k :: 0 <= k < |board| && Wanted(board[k]) ==> k in at)
  }

  ghost predicate Picks(board: seq<Data>, content: seq<Data>) {
    exists at :: PicksAt(board, content, at)
  }

  lemma {:induction false} KeepConcat(a: seq<Data>, b: seq<Data>)
    ensures Keep(a + b) == Keep(a) + Keep(b)
  {
    if a == [] {
      assert a + b == b;
    } else {
      assert (a + b)[1..] == a[1..] + b;
      KeepConcat(a[1..], b);
      var head := if Sendable(a[0]) then [a[0]] else [];
      assert head + (Keep(a[1..]) + Keep(b)) == (head + Keep(a[1..])) + Keep(b);
    }
  }

  lemma {:induction false} ToWireConcat(a: seq<Data>, b: seq<Data>)
    ensures ToWire(a + b) == ToWire(a) + ToWire(b)
  {
    if a == [] {
      assert a + b == b;
    } else {
      assert (a + b)[1..] == a[1..] + b;
      ToWireConcat(a[1..], b);
      var head := if a[0].FileUrl? then [] else [a[0]];
      assert head + (ToWire(a[1..]) + ToWire(b)) == (head + ToWire(a[1..])) + ToWire(b);
    }
  }

  lemma WireSnoc(front: seq<Data>, c: Data)
    ensures ToWire(Keep(front + [c])) == ToWire(Keep(front)) + if Wanted(c) then [c] else []
  {
    KeepConcat(front, [c]);
    ToWireConcat(Keep(front), Keep([c]));
    assert Keep([c]) == if Sendable(c) then [c] else [];
    assert ToWire([c]) == if c.FileUrl? then [] else [c];
  }

  lemma PicksSnoc(front: seq<Data>, content: seq<Data>, at: seq<nat>, c: Data)
    requires PicksAt(front, content, at)
    ensures Picks(front + [c], if Wanted(c) then content + [c] else content)
  {
    var board := front + [c];
    if Wanted(c) {
      var at' := at + [|front|];
      forall k | 0 <= k < |board| && Wanted(board[k])
        ensures k in at'
      {
        assert k < |front| ==> board[k] == front[k];
        assert at'[|at|] == |front|;
      }
      assert PicksAt(board, content + [c], at');
    } else {
      assert PicksAt(board, content, at);
    }
  }

  lemma OneMoreIsPicked(front: seq<Data>, c: Data)
    requires Picks(front, ToWire(Keep(front)))
    ensures Picks(front + [c], ToWire(Keep(front + [c])))
  {
    WireSnoc(front, c);
    var content := ToWire(Keep(front));
    var at :| PicksAt(front, content, at);
    PicksSnoc(front, content, at, c);
    assert content + [] == content;
  }

  lemma NothingIsPicked()
    ensures Picks([], ToWire(Keep([])))
  {
    assert PicksAt([], [], []);
  }

  lemma {:induction false} WireIsPicked(board: seq<Data>)
    ensures Picks(board, ToWire(Keep(board)))
  {
    if board == [] {
      NothingIsPicked();
    } else {
      WireIsPicked(board[..|board| - 1]);
      OneMoreIsPicked(board[..|board| - 1], board[|board| - 1]);
      assert board[..|board| - 1] + [board[|board| - 1]] == board;
    }
  }

  lemma {:induction false} KeepMembers(board: seq<Data>, c: Data)
    ensures c in Keep(board) <==> c in board && Worth(c)
  {
    if board != [] {
      KeepMembers(board[1..], c);
    }
  }

  predicate HasContent(board: seq<Data>) {
    exists c :: c in board && Worth(c)
  }

  lemma KeepFacts(board: seq<Data>)
    ensures Keep(board) != [] <==> HasContent(board)
    ensures HasFiles(Keep(board)) <==> HasFiles(board)
  {
    var data := Keep(board);
    if data != [] {
      KeepMembers(board, data[0]);
    }
    forall c | c in board
      ensures Worth(c) ==> c in data
    {
      KeepMembers(board, c);
    }
    forall c | c in data
      ensures c in board
    {
      KeepMembers(board, c);
    }
  }

  lemma UnmarkedRead(board: seq<Data>, files: bool)
    requires !Marked(board)
    ensures Read(board, false, files) == if files && HasFiles(board) then [] else Keep(board)
  {
    KeepFacts(board);
  }

  /**
   * A clipboard is sent exactly if it is not marked, has something to send and no
   * file urls that file copy-paste takes over; then exactly its wanted items are
   * sent, in order.
   */
  lemma CheckExactly(board: seq<Data>, files: bool)
    ensures Check(board, false, files).Some? <==> !Marked(board) && HasContent(board) && !(files && HasFiles(board))
    ensures Check(board, false, files).Some? ==> Picks(board, Check(board, false, files).value)
  {
    if !Marked(board) {
      UnmarkedRead(board, files);
      KeepFacts(board);
      WireIsPicked(board);
    }
  }

  /** `do_update_clipboard_`: what arrived, with the receiving side's mark. */
  function Updated(incoming: seq<Data>, side: Side): seq<Data> {
    incoming + [Special(OWNER_FORMAT, OwnerData(side))]
  }

  /**
   * The OS clipboard, the cache of the last message, and, as history, every
   * content a local user has put on this machine's clipboard.
   */
  datatype Machine = Machine(board: seq<Data>, cache: seq<Data>, users: set<seq<Data>>)

  /** A message that left a machine, with what a user had copied there. */
  datatype Sent = Sent(sender: nat, content: seq<Data>)

  datatype Network = Network(machines: map<nat, Machine>, sent: seq<Sent>)

  datatype Event =
    | UserCopies(m: nat, content: seq<Data>)
    | Poll(m: nat)
    | Receives(m: nat, side: Side, incoming: seq<Data>, ok: bool)
    | EmptiesFiles(m: nat, side: Side, holder: string)
    | SendsCurrent(m: nat, multi: bool)

  predicate Enabled(n: Network, e: Event) {
    e.m in n.machines
  }

  function FirstText(data: seq<Data>): Option<Data> {
    if data == [] then None else if data[0].Text? then Some(data[0]) else FirstText(data[1..])
  }

  /** What a new session finds: the last message, or else the clipboard, read by force. */
  function Current(machine: Machine, files: bool): seq<Data> {
    if machine.cache == [] then ToWire(Read(machine.board, true, files)) else machine.cache
  }

  function Apply(n: Network, e: Event, files: bool): Network
    requires Enabled(n, e)
  {
    var machine := n.machines[e.m];
    match e
    case UserCopies(m, content) =>
      n.(machines := n.machines[m := machine.(board := content, users := machine.users + {content})])
    case Poll(m) =>
      (match Check(machine.board, false, files)
       case None => n
       case Some(content) => Network(n.machines[m := machine.(cache := content)], n.sent + [Sent(m, content)]))
    case Receives(m, side, incoming, ok) =>
      if ok && incoming != [] then n.(machines := n.machines[m := machine.(board := Updated(incoming, side))]) else n
    case EmptiesFiles(m, side, holder) =>
      n.(machines := n.machines[m := machine.(board := Updated([Text(holder)], side))])
    case SendsCurrent(m, multi) =>
      var current := Current(machine, files);
      var n' := n.(machines := n.machines[m := machine.(cache := current)]);
      if current == [] then n'
      else if multi then n'.(sent := n.sent + [Sent(m, current)])
      else match FirstText(current)
        case None => n'
        case Some(text) => n'.(sent := n.sent + [Sent(m, [text])])
  }

  ghost predicate Runs(n: Network, es: seq<Event>, files: bool, n': Network)
    decreases |es|
  {
    if es == [] then n' == n else Enabled(n, es[0]) && Runs(Apply(n, es[0], files), es[1..], files, n')
  }

  /** Every clipboard is what a local user left there, and nothing has been sent. */
  ghost predicate Init(n: Network) {
    n.sent == [] && forall m :: m in n.machines ==> n.machines[m].cache == [] && n.machines[m].board in n.machines[m].users
  }

  /** The content is what a user copied, filtered, or the first text of it. */
  ghost predicate FromUser(users: set<seq<Data>>, content: seq<Data>, files: bool) {
    exists copied :: copied in users && !Marked(copied) && Derived(copied, content, files)
  }

  predicate Derived(copied: seq<Data>, content: seq<Data>, files: bool) {
    var wire := ToWire(Read(copied, false, files));
    content == wire || (FirstText(wire).Some? && content == [FirstText(wire).value])
  }

  ghost predicate MachineOk(machine: Machine, files: bool) {
    && (!Marked(machine.board) ==> machine.board in machine.users)
    && (machine.cache != [] ==>
          exists copied :: copied in machine.users && !Marked(copied) && machine.cache == ToWire(Read(copied, false, files)))
  }

  ghost predicate Inv(n: Network, files: bool) {
    && (forall m :: m in n.machines ==> MachineOk(n.machines[m], files))
    && (forall i :: 0 <= i < |n.sent| ==>
          n.sent[i].sender in n.machines && FromUser(n.machines[n.sent[i].sender].users, n.sent[i].content, files))
  }

  lemma MarkIsMark(incoming: seq<Data>, side: Side)
    ensures Marked(Updated(incoming, side))
  {
    var board := Updated(incoming, side);
    assert IsMark(board[|incoming|]);
  }

  /** What arrived is silent for every later reader, on either side, unless the read is forced. */
  lemma ReceivedIsSilentExactly(incoming: seq<Data>, side: Side, force: bool, files: bool)
    ensures Check(Updated(incoming, side), force, files).Some? <==> force && Read(Updated(incoming, side), true, files) != []
  {
    MarkIsMark(incoming, side);
  }

  /** A new session finds something on a marked clipboard, because nothing was sent from this machine before. */
  predicate Forces(n: Network, e: Event, files: bool) {
    && e.SendsCurrent? && e.m in n.machines
    && var machine := n.machines[e.m];
       machine.cache == [] && Marked(machine.board) && Current(machine, files) != []
  }

  ghost predicate NeverForces(n: Network, es: seq<Event>, files: bool)
    decreases |es|
  {
    es != [] ==> Enabled(n, es[0]) && !Forces(n, es[0], files) && NeverForces(Apply(n, es[0], files), es[1..], files)
  }

  /** Without force, or without a mark, the current content comes from a user. */
  lemma CurrentIsCopied(machine: Machine, files: bool)
    requires MachineOk(machine, files) && (machine.cache != [] || !Marked(machine.board))
    ensures exists copied :: copied in machine.users && !Marked(copied) && Current(machine, files) == ToWire(Read(copied, false, files))
  {
    if machine.cache == [] {
      assert Read(machine.board, true, files) == Read(machine.board, false, files);
      assert machine.board in machine.users;
    }
  }

  lemma SendIsFromUser(machine: Machine, files: bool)
    requires MachineOk(machine, files) && (machine.cache != [] || !Marked(machine.board))
    ensures var current := Current(machine, files);
      && MachineOk(machine.(cache := current), files)
      && FromUser(machine.users, current, files)
      && (FirstText(current).Some? ==> FromUser(machine.users, [FirstText(current).value], files))
  {
    var current := Current(machine, files);
    CurrentIsCopied(machine, files);
    var copied :| copied in machine.users && !Marked(copied) && current == ToWire(Read(copied, false, files));
    assert Derived(copied, current, files);
    assert FirstText(current).Some? ==> Derived(copied, [FirstText(current).value], files);
  }

  lemma RememberKeepsInv(n: Network, m: nat, content: seq<Data>, files: bool)
    requires Inv(n, files) && m in n.machines && MachineOk(n.machines[m].(cache := content), files)
    ensures Inv(n.(machines := n.machines[m := n.machines[m].(cache := content)]), files)
  {
  }

  lemma MessageKeepsInv(n: Network, m: nat, content: seq<Data>, files: bool)
    requires Inv(n, files) && m in n.machines
    ensures FromUser(n.machines[m].users, content, files) ==> Inv(n.(sent := n.sent + [Sent(m, content)]), files)
  {
  }

  lemma SendKeepsInv(n: Network, m: nat, multi: bool, files: bool)
    requires Inv(n, files) && m in n.machines && !Forces(n, SendsCurrent(m, multi), files)
    ensures Inv(Apply(n, SendsCurrent(m, multi), files), files)
  {
    var machine := n.machines[m];
    var current := Current(machine, files);
    assert MachineOk(machine, files);
    if machine.cache != [] || !Marked(machine.board) {
      SendIsFromUser(machine, files);
      RememberKeepsInv(n, m, current, files);
      var n' := n.(machines := n.machines[m := machine.(cache := current)]);
      MessageKeepsInv(n', m, current, files);
      if FirstText(current).Some? {
        MessageKeepsInv(n', m, [FirstText(current).value], files);
      }
    } else {
      assert Apply(n, SendsCurrent(m, multi), files) == n;
    }
  }

  lemma EventKeepsInv(n: Network, e: Event, files: bool)
    requires Inv(n, files) && Enabled(n, e) && !Forces(n, e, files)
    ensures Inv(Apply(n, e, files), files)
  {
    var n', machine := Apply(n, e, files), n.machines[e.m];
    assert MachineOk(machine, files);
    assert machine.users <= n'.machines[e.m].users;
    match e
    case UserCopies(m, content) =>
      assert MachineOk(n'.machines[m], files);
    case Receives(m, side, incoming, ok) =>
      MarkIsMark(incoming, side);
    case EmptiesFiles(m, side, holder) =>
      MarkIsMark([Text(holder)], side);
    case Poll(m) =>
      if Check(machine.board, false, files).Some? {
        assert !Marked(machine.board);
        assert Derived(machine.board, n'.machines[m].cache, files);
      }
    case SendsCurrent(m, multi) => SendKeepsInv(n, m, multi, files);
  }

  lemma {:induction false} RunKeepsInv(n: Network, es: seq<Event>, files: bool, n': Network)
    requires Inv(n, files) && Runs(n, es, files, n') && NeverForces(n, es, files)
    ensures Inv(n', files)
    decreases |es|
  {
    if es != [] {
      EventKeepsInv(n, es[0], files);
      RunKeepsInv(Apply(n, es[0], files), es[1..], files, n');
    }
  }

  /** What arrived stays on the clipboard as it is, in front of the mark; a forced read finds exactly that. */
  lemma ReceivedIsKept(incoming: seq<Data>, side: Side)
    ensures Updated(incoming, side)[..|incoming|] == incoming && |Updated(incoming, side)| == |incoming| + 1
    ensures IsMark(Updated(incoming, side)[|incoming|])
    ensures Read(Updated(incoming, side), true, false) == Keep(incoming)
  {
    var mark := Special(OWNER_FORMAT, OwnerData(side));
    KeepConcat(incoming, [mark]);
    assert Keep([mark]) == [];
  }

  predicate FirstTextAt(data: seq<Data>, k: int) {
    0 <= k < |data| && data[k].Text? && forall i :: 0 <= i < k ==> !data[i].Text?
  }

  /** The first text is the text before which there is none. */
  lemma {:induction false} FirstTextExactly(data: seq<Data>, k: int)
    requires FirstTextAt(data, k)
    ensures FirstText(data) == Some(data[k])
  {
    if k > 0 {
      assert forall i :: 0 <= i < k - 1 ==> data[1..][i] == data[i + 1];
      FirstTextExactly(data[1..], k - 1);
    }
  }

  lemma {:induction false} NoFirstText(data: seq<Data>)
    requires forall i :: 0 <= i < |data| ==> !data[i].Text?
    ensures FirstText(data) == None
  {
    if data != [] {
      NoFirstText(data[1..]);
    }
  }

  /** A new session finds the last message, or, if there is none, the wanted items of the clipboard, marked or not. */
  lemma CurrentExactly(machine: Machine, files: bool)
    ensures machine.cache != [] ==> Current(machine, files) == machine.cache
    ensures machine.cache == [] ==>
              if files && HasFiles(machine.board) then Current(machine, files) == [] else Picks(machine.board, Current(machine, files))
  {
    ForcedRead(machine.board, files);
    WireIsPicked(machine.board);
  }

  /** It sends that, or only its first text to an old peer, and remembers it. */
  lemma SendsCurrentExactly(n: Network, m: nat, multi: bool, files: bool)
    requires Enabled(n, SendsCurrent(m, multi))
    ensures var n', current := Apply(n, SendsCurrent(m, multi), files), Current(n.machines[m], files);
      && n'.machines == n.machines[m := n.machines[m].(cache := current)]
      && n'.sent == n.sent +
           if multi then (if current == [] then [] else [Sent(m, current)])
           else if FirstText(current).None? then [] else [Sent(m, [FirstText(current).value])]
  {
  }

  lemma ForcedRead(board: seq<Data>, files: bool)
    ensures Read(board, true, files) == if files && HasFiles(board) then [] else Keep(board)
  {
    KeepFacts(board);
  }

  /**
   * The condition is needed: a machine that has sent nothing and received a text sends
   * it on when a session starts, though none of its users ever copied anything.
   */
  lemma ForcedReadEchoes(text: string, side: Side, files: bool)
    requires text != ""
    ensures exists n0, es, n ::
              && Init(n0) && Runs(n0, es, files, n) && |n.sent| == 1 && n.sent[0].content == [Text(text)]
              && n.sent[0].sender in n.machines && n.machines[n.sent[0].sender].users == {[]}
              && !FromUser({[]}, n.sent[0].content, files)
  {
    var board := Updated([Text(text)], side);
    var n0 := Network(map[0 := Machine([], [], {[]})], []);
    var n1 := Network(map[0 := Machine(board, [], {[]})], []);
    var n2 := Network(map[0 := Machine(board, [Text(text)], {[]})], [Sent(0, [Text(text)])]);
    var receive, send := Receives(0, side, [Text(text)], true), SendsCurrent(0, true);
    assert Apply(n0, receive, files) == n1;
    TextArrives(text, side, files);
    assert Apply(n1, send, files) == n2;
    assert Runs(n2, [], files, n2);
    assert Runs(n1, [send], files, n2);
    assert [receive, send][1..] == [send];
    assert Runs(n0, [receive, send], files, n2);
    NothingToDerive(files, [Text(text)]);
  }

  lemma TextArrives(text: string, side: Side, files: bool)
    requires text != ""
    ensures ToWire(Read(Updated([Text(text)], side), true, files)) == [Text(text)]
  {
    ReceivedIsKept([Text(text)], side);
    ForcedRead(Updated([Text(text)], side), files);
    assert Keep([Text(text)]) == [Text(text)];
    assert ToWire([Text(text)]) == [Text(text)];
  }

  lemma NothingToDerive(files: bool, content: seq<Data>)
    requires content != []
    ensures !FromUser({[]}, content, files)
  {
    assert Read([], false, files) == [] && ToWire([]) == [];
  }

  /** A poll sends and remembers the clipboard's wanted items if there is something to send, and else does nothing. */
  lemma PollSendsExactly(n: Network, m: nat, files: bool)
    requires Enabled(n, Poll(m))
    ensures var board, n' := n.machines[m].board, Apply(n, Poll(m), files);
      if !Marked(board) && HasContent(board) && !(files && HasFiles(board)) then
        && n'.machines == n.machines[m := n.machines[m].(cache := n'.machines[m].cache)]
        && n'.sent == n.sent + [Sent(m, n'.machines[m].cache)]
        && Picks(board, n'.machines[m].cache)
      else n' == n
  {
    var board := n.machines[m].board;
    CheckExactly(board, files);
    if Check(board, false, files).Some? {
      assert Apply(n, Poll(m), files).machines[m].cache == Check(board, false, files).value;
    }
  }

  /**
   * In every run of any number of machines, with anything arriving at any time and no
   * marked clipboard read by force, every message carries what a local user of its
   * sender had copied there.
   */
  lemma NoEcho(n0: Network, es: seq<Event>, files: bool, n: Network, i: nat)
    requires Init(n0) && Runs(n0, es, files, n) && NeverForces(n0, es, files) && i < |n.sent|
    ensures n.sent[i].sender in n.machines
    ensures FromUser(n.machines[n.sent[i].sender].users, n.sent[i].content, files)
  {
    RunKeepsInv(n0, es, files, n);
  }
}
