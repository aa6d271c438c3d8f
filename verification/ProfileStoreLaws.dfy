/** What every run of store operations keeps, and the laws of importing. */
module ProfileStoreLaws {
  import opened Wrappers
  import opened ProfileIds
  import opened ProfileStore

  // Ids below the counter

  /** Every id of the form "profile-n" has n below `bound`. */
  ghost predicate NumbersBelow(ps: seq<NetworkProfile>, bound: nat) {
    forall i :: 0 <= i < |ps| && IdNumber(ps[i].id).Some? ==> IdNumber(ps[i].id).value < bound
  }

  ghost predicate Fresh(s: Store) {
    NumbersBelow(s.profiles, s.nextId)
  }

  lemma HasMeans(ps: seq<NetworkProfile>, id: string)
    ensures Has(ps, id) <==> exists i :: 0 <= i < |ps| && ps[i].id == id
  {
  }

  lemma FreshIdIsNew(ps: seq<NetworkProfile>, n: U64)
    requires NumbersBelow(ps, n)
    ensures !Has(ps, IdFor(n))
  {
    IdRoundTrip(n);
  }

  lemma NewProfileOk(rules: Rules, n: U64, input: ProfileInput)
    requires InputOk(rules, input)
    ensures ProfileOk(rules, NewProfile(n, input))
  {
    TrimIdempotent(input.name);
    GeneratedIdIsNotBlank(n);
  }

  lemma DistinctSnoc(ps: seq<NetworkProfile>, p: NetworkProfile)
    requires Distinct(ps)
    ensures Distinct(ps + [p]) <==> !Has(ps, p.id)
  {
    HasMeans(ps, p.id);
    if Has(ps, p.id) {
      var i := Position(ps, p.id);
      assert (ps + [p])[i].id == (ps + [p])[|ps|].id;
    }
  }

  lemma AllOkSnoc(rules: Rules, ps: seq<NetworkProfile>, p: NetworkProfile)
    requires AllOk(rules, ps) && ProfileOk(rules, p)
    ensures AllOk(rules, ps + [p])
  {
    forall i | 0 <= i < |ps + [p]|
      ensures ProfileOk(rules, (ps + [p])[i])
    {
      if i < |ps| {
        assert (ps + [p])[i] == ps[i];
      }
    }
  }

  /** Adding to a valid store leaves it valid exactly when the generated id is not taken. */
  lemma AddedIsValidExactly(rules: Rules, s: Store, input: ProfileInput)
    requires Valid(rules, s) && InputOk(rules, input)
    ensures Valid(rules, Added(s, input)) <==> !Has(s.profiles, IdFor(s.nextId))
  {
    var p := NewProfile(s.nextId, input);
    NewProfileOk(rules, s.nextId, input);
    AllOkSnoc(rules, s.profiles, p);
    DistinctSnoc(s.profiles, p);
    HasPrefix(s.profiles, [p], s.defaultId);
  }

  lemma HasPrefix(ps: seq<NetworkProfile>, qs: seq<NetworkProfile>, id: string)
    requires Has(ps, id)
    ensures Has(ps + qs, id) && Position(ps + qs, id) == Position(ps, id)
  {
    var k := Position(ps, id);
    assert forall i :: 0 <= i < |ps| ==> (ps + qs)[i] == ps[i];
    HasMeans(ps + qs, id);
    assert (ps + qs)[k].id == id;
  }

  lemma NumbersBelowSnoc(ps: seq<NetworkProfile>, p: NetworkProfile, bound: nat)
    ensures NumbersBelow(ps + [p], bound) <==>
      NumbersBelow(ps, bound) && (IdNumber(p.id).Some? ==> IdNumber(p.id).value < bound)
  {
    assert (ps + [p])[|ps|] == p;
    assert forall i :: 0 <= i < |ps| ==> (ps + [p])[i] == ps[i];
  }

  /** The counter stays above every number exactly when it did not wrap. */
  lemma AddedIsFreshExactly(s: Store, input: ProfileInput)
    requires Fresh(s)
    ensures Fresh(Added(s, input)) <==> s.nextId < U64_MAX
  {
    IdRoundTrip(s.nextId);
    WrappingAddInRange(s.nextId, 1);
    NumbersBelowSnoc(s.profiles, NewProfile(s.nextId, input), WrappingAdd(s.nextId, 1));
  }

  /**
   * A copy goes to the end of the list and has its source's network and name, marked
   * as a copy; nothing else changes. The mark takes three characters, so a profile
   * can be copied exactly when its name leaves room for them.
   */
  lemma CopyFacts(rules: Rules, s: Store, id: string)
    requires Valid(rules, s) && Has(s.profiles, id)
    ensures var source, n := Find(s.profiles, id).value, |s.profiles|;
      var s' := Added(s, CopyOf(source));
      && s'.profiles[..n] == s.profiles && |s'.profiles| == n + 1 && s'.defaultId == s.defaultId
      && s'.profiles[n] == NetworkProfile(IdFor(s.nextId), TrimStart(source.name) + " \U{526F}\U{672C}", source.vnt)
      && (InputOk(rules, CopyOf(source)) <==> |TrimStart(source.name)| + 3 <= NAME_LIMIT)
  {
    var source := Find(s.profiles, id).value;
    assert ProfileOk(rules, s.profiles[Position(s.profiles, id)]);
    TrimOfFront(source.name, " \U{526F}\U{672C}");
  }

  // Editing, removing, changing the default

  lemma EditedFacts(rules: Rules, s: Store, id: string, input: ProfileInput)
    requires Valid(rules, s) && InputOk(rules, input) && Has(s.profiles, id)
    ensures Valid(rules, Edited(s, id, input))
    ensures Fresh(s) ==> Fresh(Edited(s, id, input))
  {
    var k := Position(s.profiles, id);
    var p := NetworkProfile(id, Trim(input.name), input.vnt);
    var ps := Edited(s, id, input).profiles;
    TrimIdempotent(input.name);
    assert ProfileOk(rules, s.profiles[k]);
    SameIds(s.profiles, ps, s.defaultId);
    forall i | 0 <= i < |ps|
      ensures ProfileOk(rules, ps[i])
    {
      assert i != k ==> ps[i] == s.profiles[i];
    }
  }

  lemma SameIds(ps: seq<NetworkProfile>, qs: seq<NetworkProfile>, id: string)
    requires |ps| == |qs| && forall i :: 0 <= i < |ps| ==> qs[i].id == ps[i].id
    ensures Has(ps, id) <==> Has(qs, id)
    ensures Distinct(ps) ==> Distinct(qs)
    ensures forall n :: NumbersBelow(ps, n) ==> NumbersBelow(qs, n)
  {
    HasMeans(ps, id);
    HasMeans(qs, id);
  }

  lemma DistinctTail(ps: seq<NetworkProfile>)
    requires ps != [] && Distinct(ps)
    ensures Distinct(ps[1..]) && forall q :: q in ps[1..] ==> q.id != ps[0].id
  {
    var rest := ps[1..];
    forall i, j | 0 <= i < j < |rest|
      ensures rest[i].id != rest[j].id
    {
      assert rest[i] == ps[i + 1] && rest[j] == ps[j + 1];
    }
  }

  lemma DistinctCons(p: NetworkProfile, ps: seq<NetworkProfile>)
    requires Distinct(ps) && forall q :: q in ps ==> q.id != p.id
    ensures Distinct([p] + ps)
  {
    var all := [p] + ps;
    forall i, j | 0 <= i < j < |all|
      ensures all[i].id != all[j].id
    {
      assert all[j] == ps[j - 1];
      assert i > 0 ==> all[i] == ps[i - 1];
    }
  }

  lemma {:induction false} WithoutDistinct(ps: seq<NetworkProfile>, id: string)
    requires Distinct(ps)
    ensures Distinct(Without(ps, id))
  {
    if ps != [] {
      DistinctTail(ps);
      WithoutDistinct(ps[1..], id);
      WithoutFacts(ps[1..], id);
      DistinctCons(ps[0], Without(ps[1..], id));
    }
  }

  lemma WithoutFresh(ps: seq<NetworkProfile>, id: string, bound: nat)
    requires NumbersBelow(ps, bound)
    ensures NumbersBelow(Without(ps, id), bound)
  {
    WithoutFacts(ps, id);
    var kept := Without(ps, id);
    forall i | 0 <= i < |kept| && IdNumber(kept[i].id).Some?
      ensures IdNumber(kept[i].id).value < bound
    {
      assert kept[i] in ps;
    }
  }

  lemma WithoutValid(rules: Rules, s: Store, id: string)
    requires Valid(rules, s) && Removable(s, id)
    ensures Valid(rules, s.(profiles := Without(s.profiles, id)))
  {
    var kept := Without(s.profiles, id);
    WithoutFacts(s.profiles, id);
    WithoutDistinct(s.profiles, id);
    forall i | 0 <= i < |kept|
      ensures ProfileOk(rules, kept[i])
    {
      assert kept[i] in s.profiles;
    }
    assert DefaultProfile(s) in kept;
    HasMeans(kept, s.defaultId);
  }

  // Looking up a profile that an operation did not touch

  lemma EditedFind(s: Store, id: string, input: ProfileInput, other: string)
    requires Has(s.profiles, id)
    ensures Has(Edited(s, id, input).profiles, other) <==> Has(s.profiles, other)
    ensures other != id ==> Find(Edited(s, id, input).profiles, other) == Find(s.profiles, other)
    ensures Find(Edited(s, id, input).profiles, id) == Some(NetworkProfile(id, Trim(input.name), input.vnt))
  {
    var ps, qs := s.profiles, Edited(s, id, input).profiles;
    assert forall i :: 0 <= i < |ps| ==> qs[i].id == ps[i].id;
    SamePosition(ps, qs, other);
    SamePosition(ps, qs, id);
  }

  lemma SamePosition(ps: seq<NetworkProfile>, qs: seq<NetworkProfile>, id: string)
    requires |ps| == |qs| && forall i :: 0 <= i < |ps| ==> qs[i].id == ps[i].id
    ensures Position(ps, id) == Position(qs, id)
  {
  }

  lemma FindCons(p: NetworkProfile, ps: seq<NetworkProfile>, id: string)
    ensures Find([p] + ps, id) == if p.id == id then Some(p) else Find(ps, id)
  {
    assert ([p] + ps)[1..] == ps;
  }

  lemma {:induction false} WithoutFind(ps: seq<NetworkProfile>, id: string, other: string)
    requires other != id
    ensures Find(Without(ps, id), other) == Find(ps, other)
  {
    if ps != [] {
      WithoutFind(ps[1..], id, other);
      FindCons(ps[0], ps[1..], other);
      assert ps == [ps[0]] + ps[1..];
      if ps[0].id != id {
        FindCons(ps[0], Without(ps[1..], id), other);
      }
    }
  }

  // The counter after an import

  lemma {:induction false} MaxNumberIsLeastBound(ps: seq<NetworkProfile>)
    ensures NumbersBelow(ps, MaxNumber(ps) + 1)
    ensures MaxNumber(ps) > 0 ==> exists i :: 0 <= i < |ps| && IdNumber(ps[i].id) == Some(MaxNumber(ps))
  {
    if ps != [] {
      var rest := ps[1..];
      assert forall i :: 0 <= i < |rest| ==> rest[i] == ps[i + 1];
      assert forall i :: 0 < i < |ps| ==> ps[i] == rest[i - 1];
      MaxNumberIsLeastBound(rest);
      if MaxNumber(rest) > 0 {
        var i :| 0 <= i < |rest| && IdNumber(rest[i].id) == Some(MaxNumber(rest));
        assert IdNumber(ps[i + 1].id) == Some(MaxNumber(rest));
      }
    }
  }

  /** Recalculating puts the counter above every number exactly when no number is the largest u64. */
  lemma RecalculatedIsFreshExactly(ps: seq<NetworkProfile>)
    ensures NumbersBelow(ps, WrappingAdd(MaxNumber(ps), 1)) <==> MaxNumber(ps) < U64_MAX
  {
    MaxNumberIsLeastBound(ps);
    WrappingAddInRange(MaxNumber(ps), 1);
    if MaxNumber(ps) == U64_MAX {
      var i :| 0 <= i < |ps| && IdNumber(ps[i].id) == Some(MaxNumber(ps));
    }
  }

  // Laws of importing

  /** `q` is the imported profile `p` under a new id, its name trimmed. */
  predicate Imported(p: NetworkProfile, q: NetworkProfile) {
    q.name == Trim(p.name) && q.vnt == p.vnt
  }

  lemma AppendedIsImported(n: U64, ps: seq<NetworkProfile>, i: nat)
    requires i < |ps|
    ensures Imported(ps[i], Appended(n, ps)[i])
  {
  }

  /**
   * A successful merge keeps the old profiles as a prefix and the default, and
   * appends the imported ones in order, with trimmed names and ids that no other
   * profile has.
   */
  lemma MergeKeepsAndAppends(rules: Rules, s: Store, backup: Backup)
    requires ImportOk(rules, s, Import(Merge, backup))
    ensures var after := ImportCandidate(s, Import(Merge, backup));
      && s.profiles <= after.profiles && after.defaultId == s.defaultId
      && |after.profiles| == |s.profiles| + |backup.profiles|
      && Distinct(after.profiles)
      && forall i :: 0 <= i < |backup.profiles| ==> Imported(backup.profiles[i], after.profiles[|s.profiles| + i])
  {
    var after := ImportCandidate(s, Import(Merge, backup));
    var added := Appended(s.nextId, backup.profiles);
    forall i | 0 <= i < |backup.profiles|
      ensures Imported(backup.profiles[i], after.profiles[|s.profiles| + i])
    {
      AppendedIsImported(s.nextId, backup.profiles, i);
      assert (s.profiles + added)[|s.profiles| + i] == added[i];
    }
  }

  lemma AppendedDistinct(n: U64, ps: seq<NetworkProfile>)
    requires n + |ps| <= U64_MAX + 1
    ensures Distinct(Appended(n, ps))
    ensures forall i :: 0 <= i < |ps| ==> IdNumber(Appended(n, ps)[i].id) == Some(n + i)
  {
    forall i | 0 <= i < |ps|
      ensures IdNumber(Appended(n, ps)[i].id) == Some(n + i)
    {
      WrappingAddInRange(n, i);
      IdRoundTrip(n + i);
    }
  }

  lemma AppendedOk(rules: Rules, n: U64, ps: seq<NetworkProfile>)
    requires InputsOk(rules, ps)
    ensures AllOk(rules, Appended(n, ps))
  {
    forall i | 0 <= i < |ps|
      ensures ProfileOk(rules, Appended(n, ps)[i])
    {
      NewProfileOk(rules, WrappingAdd(n, i), InputOf(ps[i]));
    }
  }

  lemma AllOkConcat(rules: Rules, ps: seq<NetworkProfile>, qs: seq<NetworkProfile>)
    requires AllOk(rules, ps) && AllOk(rules, qs)
    ensures AllOk(rules, ps + qs)
  {
    forall i | 0 <= i < |ps + qs|
      ensures ProfileOk(rules, (ps + qs)[i])
    {
      assert (ps + qs)[i] == if i < |ps| then ps[i] else qs[i - |ps|];
    }
  }

  lemma DistinctConcat(ps: seq<NetworkProfile>, qs: seq<NetworkProfile>)
    requires Distinct(ps) && Distinct(qs)
    requires forall i, j :: 0 <= i < |ps| && 0 <= j < |qs| ==> ps[i].id != qs[j].id
    ensures Distinct(ps + qs)
  {
    var all := ps + qs;
    forall i, j | 0 <= i < j < |all|
      ensures all[i].id != all[j].id
    {
      assert all[i] == if i < |ps| then ps[i] else qs[i - |ps|];
      assert all[j] == if j < |ps| then ps[j] else qs[j - |ps|];
    }
  }

  lemma DistinctMerge(s: Store, ps: seq<NetworkProfile>)
    requires Distinct(s.profiles) && Fresh(s) && s.nextId + |ps| <= U64_MAX + 1
    ensures Distinct(s.profiles + Appended(s.nextId, ps))
  {
    var added := Appended(s.nextId, ps);
    AppendedDistinct(s.nextId, ps);
    forall i, j | 0 <= i < |s.profiles| && 0 <= j < |added|
      ensures s.profiles[i].id != added[j].id
    {
      assert IdNumber(added[j].id) == Some(s.nextId + j);
    }
    DistinctConcat(s.profiles, added);
  }

  /** On a fresh store a merge fails only for a bad version or a bad input: it never collides. */
  lemma MergeNeverCollides(rules: Rules, s: Store, backup: Backup)
    requires Valid(rules, s) && Fresh(s) && s.nextId + |backup.profiles| <= U64_MAX + 1
    ensures ImportOk(rules, s, Import(Merge, backup)) <==>
      backup.schemaVersion == SCHEMA_VERSION && InputsOk(rules, backup.profiles)
  {
    if InputsOk(rules, backup.profiles) {
      var added := Appended(s.nextId, backup.profiles);
      DistinctMerge(s, backup.profiles);
      AppendedOk(rules, s.nextId, backup.profiles);
      AllOkConcat(rules, s.profiles, added);
      HasPrefix(s.profiles, added, s.defaultId);
    }
  }

  /**
   * Replacing any store by the backup of a valid one succeeds and restores its
   * profiles and default; the counter ends up fresh exactly when no id carries the
   * largest u64.
   */
  lemma OwnBackupRestores(rules: Rules, s: Store, other: Store)
    requires Valid(rules, s)
    ensures var request := Import(Replace, BackupOf(s));
      && ImportOk(rules, other, request)
      && ImportCandidate(other, request).profiles == s.profiles
      && ImportCandidate(other, request).defaultId == s.defaultId
      && (Fresh(ImportCandidate(other, request)) <==> MaxNumber(s.profiles) < U64_MAX)
  {
    RecalculatedIsFreshExactly(s.profiles);
  }

  lemma FirstId()
    ensures IdFor(1) == "profile-1"
  {
    assert ToDecimal(1) == "1";
  }

  lemma LegacyIsFresh(vnt: VntConfig)
    ensures Fresh(FromLegacy(vnt)) && FromLegacy(vnt).nextId == MaxNumber(FromLegacy(vnt).profiles) + 1
  {
    FirstId();
    IdRoundTrip(1);
  }

  lemma LegacyIdOk()
    ensures Trim("profile-1") != []
  {
    FirstId();
    GeneratedIdIsNotBlank(1);
  }

  lemma LegacyNameOk()
    ensures Trim(LEGACY_NAME) == LEGACY_NAME && 1 <= |LEGACY_NAME| <= NAME_LIMIT
  {
    assert TrimStart(LEGACY_NAME) == LEGACY_NAME;
  }

  lemma LegacyProfileOk(rules: Rules, vnt: VntConfig)
    ensures ProfileOk(rules, FromLegacy(vnt).profiles[0]) <==> rules.vntOk(vnt) && rules.coreOk(vnt)
  {
    LegacyIdOk();
    LegacyNameOk();
  }

  lemma LegacyIsValidExactly(rules: Rules, vnt: VntConfig)
    ensures Valid(rules, FromLegacy(vnt)) <==> rules.vntOk(vnt) && rules.coreOk(vnt)
  {
    LegacyProfileOk(rules, vnt);
  }

  // Runs

  datatype Op =
    | Create(input: ProfileInput)
    | Update(id: string, input: ProfileInput)
    | Copy(id: string)
    | Remove(id: string)
    | SetDefault(id: string)
    | ImportAll(request: Import)

  /** The store after one operation; a failed operation leaves it as it was. */
  ghost function After(rules: Rules, s: Store, op: Op): Store {
    match op
    case Create(input) => if InputOk(rules, input) then Added(s, input) else s
    case Update(id, input) => if InputOk(rules, input) && Has(s.profiles, id) then Edited(s, id, input) else s
    case Copy(id) =>
      if Has(s.profiles, id) && InputOk(rules, CopyOf(Find(s.profiles, id).value))
      then Added(s, CopyOf(Find(s.profiles, id).value)) else s
    case Remove(id) => if Removable(s, id) then s.(profiles := Without(s.profiles, id)) else s
    case SetDefault(id) => if Has(s.profiles, id) then s.(defaultId := id) else s
    case ImportAll(request) => if ImportOk(rules, s, request) then ImportCandidate(s, request) else s
  }

  /** The counter has room: no number reaches the largest u64. */
  ghost predicate Room(s: Store, op: Op) {
    match op
    case Create(_) | Copy(_) => s.nextId < U64_MAX
    case ImportAll(request) => MaxNumber(ImportCandidate(s, request).profiles) < U64_MAX
    case _ => true
  }

  ghost predicate RoomThroughout(rules: Rules, s: Store, ops: seq<Op>)
    decreases |ops|
  {
    ops != [] ==> Room(s, ops[0]) && RoomThroughout(rules, After(rules, s, ops[0]), ops[1..])
  }

  ghost function Final(rules: Rules, s: Store, ops: seq<Op>): Store
    decreases |ops|
  {
    if ops == [] then s else Final(rules, After(rules, s, ops[0]), ops[1..])
  }

  lemma AddedKeeps(rules: Rules, s: Store, input: ProfileInput)
    requires Valid(rules, s) && Fresh(s) && s.nextId < U64_MAX && InputOk(rules, input)
    ensures Valid(rules, Added(s, input)) && Fresh(Added(s, input))
  {
    FreshIdIsNew(s.profiles, s.nextId);
    AddedIsValidExactly(rules, s, input);
    AddedIsFreshExactly(s, input);
  }

  lemma StepKeepsFresh(rules: Rules, s: Store, op: Op)
    requires Valid(rules, s) && Fresh(s) && Room(s, op)
    ensures Valid(rules, After(rules, s, op)) && Fresh(After(rules, s, op))
  {
    if After(rules, s, op) != s {
      match op
      case Create(input) => AddedKeeps(rules, s, input);
      case Update(id, input) => EditedFacts(rules, s, id, input);
      case Copy(id) => AddedKeeps(rules, s, CopyOf(Find(s.profiles, id).value));
      case Remove(id) =>
        WithoutValid(rules, s, id);
        WithoutFresh(s.profiles, id, s.nextId);
      case SetDefault(_) =>
      case ImportAll(request) => RecalculatedIsFreshExactly(ImportCandidate(s, request).profiles);
    }
  }

  /** Validity and freshness survive every run of operations in which the counter has room. */
  lemma {:induction false} RunKeepsFresh(rules: Rules, s: Store, ops: seq<Op>)
    requires Valid(rules, s) && Fresh(s) && RoomThroughout(rules, s, ops)
    ensures Valid(rules, Final(rules, s, ops)) && Fresh(Final(rules, s, ops))
    decreases |ops|
  {
    if ops != [] {
      StepKeepsFresh(rules, s, ops[0]);
      RunKeepsFresh(rules, After(rules, s, ops[0]), ops[1..]);
    }
  }

  /** So a create after any such run gets an id that no profile has, and the store stays valid. */
  lemma CreateNeverCollides(rules: Rules, vnt: VntConfig, ops: seq<Op>, input: ProfileInput)
    requires rules.vntOk(vnt) && rules.coreOk(vnt) && InputOk(rules, input)
    requires RoomThroughout(rules, FromLegacy(vnt), ops)
    ensures var s := Final(rules, FromLegacy(vnt), ops);
      !Has(s.profiles, IdFor(s.nextId)) && Valid(rules, Added(s, input))
  {
    LegacyIsFresh(vnt);
    LegacyIsValidExactly(rules, vnt);
    RunKeepsFresh(rules, FromLegacy(vnt), ops);
    var s := Final(rules, FromLegacy(vnt), ops);
    FreshIdIsNew(s.profiles, s.nextId);
    AddedIsValidExactly(rules, s, input);
  }

  method Perform(store: ProfileStore, op: Op)
    modifies store
    ensures store.Value() == After(store.rules, old(store.Value()), op)
  {
    match op
    case Create(input) => var _ := store.Create(input);
    case Update(id, input) => var _ := store.Update(id, input);
    case Copy(id) => var _ := store.Copy(id);
    case Remove(id) => var _ := store.Remove(id);
    case SetDefault(id) => var _ := store.SetDefault(id);
    case ImportAll(request) => var _ := store.ImportProfiles(request);
  }

  /** A store object driven through any run stays valid and fresh while the counter has room. */
  method PerformAll(store: ProfileStore, ops: seq<Op>)
    modifies store
    ensures store.Value() == Final(store.rules, old(store.Value()), ops)
    ensures Valid(store.rules, old(store.Value())) && Fresh(old(store.Value()))
      && RoomThroughout(store.rules, old(store.Value()), ops)
      ==> Valid(store.rules, store.Value()) && Fresh(store.Value())
  {
    ghost var before := store.Value();
    for k := 0 to |ops|
      invariant Final(store.rules, before, ops) == Final(store.rules, store.Value(), ops[k..])
    {
      assert ops[k..][0] == ops[k] && ops[k..][1..] == ops[k + 1..];
      Perform(store, ops[k]);
    }
    if Valid(store.rules, before) && Fresh(before) && RoomThroughout(store.rules, before, ops) {
      RunKeepsFresh(store.rules, before, ops);
    }
  }
}
