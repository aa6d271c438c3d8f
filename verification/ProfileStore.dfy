/**
 * The profile store of the Linux WebUI: what it holds, what makes it valid, and
 * what each operation makes of it.
 */
module ProfileStore {
  import opened Wrappers
  import opened ProfileIds

  const SCHEMA_VERSION := 1
  const NAME_LIMIT := 64

  /** A network configuration, as its serialised text. */
  datatype VntConfig = VntConfig(text: string)

  /** The two checks a configuration must pass: `VntConfig::validate` and `to_core_config`. */
  datatype Rules = Rules(vntOk: VntConfig -> bool, coreOk: VntConfig -> bool)

  datatype NetworkProfile = NetworkProfile(id: string, name: string, vnt: VntConfig)

  datatype ProfileInput = ProfileInput(name: string, vnt: VntConfig)

  datatype Store = Store(schemaVersion: nat, defaultId: string, nextId: U64, profiles: seq<NetworkProfile>)

  datatype Backup = Backup(schemaVersion: nat, defaultId: string, profiles: seq<NetworkProfile>)

  datatype ImportMode = Merge | Replace

  datatype Import = Import(mode: ImportMode, backup: Backup)

  // Validity

  predicate InputOk(rules: Rules, input: ProfileInput) {
    1 <= |Trim(input.name)| <= NAME_LIMIT && rules.vntOk(input.vnt) && rules.coreOk(input.vnt)
  }

  function InputOf(p: NetworkProfile): ProfileInput {
    ProfileInput(p.name, p.vnt)
  }

  /** The first profile with this id, or the length when there is none. */
  function Position(ps: seq<NetworkProfile>, id: string): (k: nat)
    ensures k <= |ps| && (k < |ps| ==> ps[k].id == id)
    ensures forall i :: 0 <= i < k ==> ps[i].id != id
  {
    if ps == [] || ps[0].id == id then 0 else 1 + Position(ps[1..], id)
  }

  predicate Has(ps: seq<NetworkProfile>, id: string) {
    Position(ps, id) < |ps|
  }

  function Find(ps: seq<NetworkProfile>, id: string): Option<NetworkProfile> {
    if Has(ps, id) then Some(ps[Position(ps, id)]) else None
  }

  predicate ProfileOk(rules: Rules, p: NetworkProfile) {
    InputOk(rules, InputOf(p)) && Trim(p.id) != []
  }

  ghost predicate AllOk(rules: Rules, ps: seq<NetworkProfile>) {
    forall i {:trigger ProfileOk(rules, ps[i])} :: 0 <= i < |ps| ==> ProfileOk(rules, ps[i])
  }

  ghost predicate Distinct(ps: seq<NetworkProfile>) {
    forall i, j :: 0 <= i < j < |ps| ==> ps[i].id != ps[j].id
  }

  ghost predicate Valid(rules: Rules, s: Store) {
    && s.schemaVersion == SCHEMA_VERSION
    && Has(s.profiles, s.defaultId)
    && AllOk(rules, s.profiles)
    && Distinct(s.profiles)
  }

  function DefaultProfile(s: Store): (p: NetworkProfile)
    requires Has(s.profiles, s.defaultId)
  {
    s.profiles[Position(s.profiles, s.defaultId)]
  }

  function IdsOf(ps: seq<NetworkProfile>, k: nat): set<string>
    requires k <= |ps|
  {
    if k == 0 then {} else IdsOf(ps, k - 1) + {ps[k - 1].id}
  }

  /** What the pass has established after `k` profiles. */
  predicate Passed(check: NetworkProfile -> bool, ps: seq<NetworkProfile>, k: nat)
    requires k <= |ps|
  {
    k == 0 || (Passed(check, ps, k - 1) && check(ps[k - 1]) && ps[k - 1].id !in IdsOf(ps, k - 1))
  }

  lemma {:induction false} IdsOfMeans(ps: seq<NetworkProfile>, k: nat, id: string)
    requires k <= |ps|
    ensures id in IdsOf(ps, k) <==> exists i :: 0 <= i < k && ps[i].id == id
  {
    if k > 0 {
      IdsOfMeans(ps, k - 1, id);
    }
  }

  lemma {:induction false} PassedMeans(check: NetworkProfile -> bool, ps: seq<NetworkProfile>, k: nat)
    requires k <= |ps|
    ensures Passed(check, ps, k) <==>
      (forall i :: 0 <= i < k ==> check(ps[i])) && (forall i, j :: 0 <= i < j < k ==> ps[i].id != ps[j].id)
  {
    if k > 0 {
      PassedMeans(check, ps, k - 1);
      IdsOfMeans(ps, k - 1, ps[k - 1].id);
    }
  }

  lemma {:induction false} PassedEarlier(check: NetworkProfile -> bool, ps: seq<NetworkProfile>, j: nat, k: nat)
    requires j <= k <= |ps| && Passed(check, ps, k)
    ensures Passed(check, ps, j)
    decreases k - j
  {
    if j < k {
      PassedEarlier(check, ps, j, k - 1);
    }
  }

  /** One pass with a growing set of ids. */
  method ValidateProfiles(check: NetworkProfile -> bool, ps: seq<NetworkProfile>) returns (ok: bool)
    ensures ok <==> (forall i :: 0 <= i < |ps| ==> check(ps[i])) && Distinct(ps)
  {
    PassedMeans(check, ps, |ps|);
    var ids: set<string> := {};
    for k := 0 to |ps|
      invariant Passed(check, ps, k) && ids == IdsOf(ps, k)
    {
      if !check(ps[k]) || ps[k].id in ids {
        if Passed(check, ps, |ps|) {
          PassedEarlier(check, ps, k + 1, |ps|);
        }
        return false;
      }
      ids := ids + {ps[k].id};
    }
    ok := true;
  }

  method Validate(rules: Rules, s: Store) returns (ok: bool)
    ensures ok <==> Valid(rules, s)
  {
    if s.schemaVersion != SCHEMA_VERSION || s.profiles == [] || !Has(s.profiles, s.defaultId) {
      return false;
    }
    ok := ValidateProfiles(p => ProfileOk(rules, p), s.profiles);
  }

  // Single operations

  function NewProfile(n: U64, input: ProfileInput): NetworkProfile {
    NetworkProfile(IdFor(n), Trim(input.name), input.vnt)
  }

  function Added(s: Store, input: ProfileInput): Store {
    s.(profiles := s.profiles + [NewProfile(s.nextId, input)], nextId := WrappingAdd(s.nextId, 1))
  }

  function Edited(s: Store, id: string, input: ProfileInput): Store
    requires Has(s.profiles, id)
  {
    s.(profiles := s.profiles[Position(s.profiles, id) := NetworkProfile(id, Trim(input.name), input.vnt)])
  }

  function CopyOf(p: NetworkProfile): ProfileInput {
    ProfileInput(p.name + " \U{526F}\U{672C}", p.vnt)
  }

  function Without(ps: seq<NetworkProfile>, id: string): seq<NetworkProfile> {
    if ps == [] then []
    else if ps[0].id == id then Without(ps[1..], id)
    else [ps[0]] + Without(ps[1..], id)
  }

  predicate Removable(s: Store, id: string) {
    |s.profiles| != 1 && id != s.defaultId && Has(s.profiles, id)
  }

  const LEGACY_NAME := "\U{9ED8}\U{8BA4}\U{914D}\U{7F6E}"

  function FromLegacy(vnt: VntConfig): Store {
    Store(SCHEMA_VERSION, "profile-1", 2, [NetworkProfile("profile-1", LEGACY_NAME, vnt)])
  }

  function BackupOf(s: Store): Backup {
    Backup(s.schemaVersion, s.defaultId, s.profiles)
  }

  /** The largest number among ids of the form "profile-n", 0 when there is none. */
  function MaxNumber(ps: seq<NetworkProfile>): U64 {
    if ps == [] then 0
    else
      var n, m := IdNumber(ps[0].id), MaxNumber(ps[1..]);
      if n.Some? && n.value > m then n.value else m
  }

  // Import

  /** What merging adds, in closed form. */
  function Appended(n: U64, ps: seq<NetworkProfile>): seq<NetworkProfile> {
    seq(|ps|, i requires 0 <= i < |ps| => NewProfile(WrappingAdd(n, i), InputOf(ps[i])))
  }

  function ImportCandidate(s: Store, request: Import): Store {
    var ps := request.backup.profiles;
    match request.mode
    case Replace => Store(SCHEMA_VERSION, request.backup.defaultId, WrappingAdd(MaxNumber(ps), 1), ps)
    case Merge =>
      var all := s.profiles + Appended(s.nextId, ps);
      s.(profiles := all, nextId := WrappingAdd(MaxNumber(all), 1))
  }

  ghost predicate InputsOk(rules: Rules, ps: seq<NetworkProfile>) {
    forall i :: 0 <= i < |ps| ==> InputOk(rules, InputOf(ps[i]))
  }

  ghost predicate ImportOk(rules: Rules, s: Store, request: Import) {
    && request.backup.schemaVersion == SCHEMA_VERSION
    && (request.mode.Merge? ==> InputsOk(rules, request.backup.profiles))
    && Valid(rules, ImportCandidate(s, request))
  }

  // The store object

  datatype StoreError = BadInput | NotFound | LastProfile | IsDefault | BadVersion | Invalid

  class ProfileStore {
    const rules: Rules
    var schemaVersion: nat
    var defaultId: string
    var nextId: U64
    var profiles: seq<NetworkProfile>

    constructor (rules: Rules, s: Store)
      ensures this.rules == rules && Value() == s
    {
      this.rules := rules;
      schemaVersion, defaultId, nextId, profiles := s.schemaVersion, s.defaultId, s.nextId, s.profiles;
    }

    function Value(): Store
      reads this
    {
      Store(schemaVersion, defaultId, nextId, profiles)
    }

    method Create(input: ProfileInput) returns (r: Result<NetworkProfile, StoreError>)
      modifies this
      ensures r.Ok? <==> InputOk(rules, input)
      ensures r.Ok? ==> r.value == NewProfile(old(nextId), input) && Value() == Added(old(Value()), input)
      ensures r.Err? ==> r.error == BadInput && Value() == old(Value())
    {
      if !InputOk(rules, input) {
        return Err(BadInput);
      }
      var profile := NewProfile(nextId, input);
      nextId := WrappingAdd(nextId, 1);
      profiles := profiles + [profile];
      return Ok(profile);
    }

    method Update(id: string, input: ProfileInput) returns (r: Result<NetworkProfile, StoreError>)
      modifies this
      ensures r.Ok? <==> InputOk(rules, input) && Has(old(profiles), id)
      ensures r.Ok? ==> r.value == NetworkProfile(id, Trim(input.name), input.vnt)
      ensures r.Ok? ==> Value() == Edited(old(Value()), id, input)
      ensures r.Err? ==> Value() == old(Value()) && r.error == if InputOk(rules, input) then NotFound else BadInput
    {
      if !InputOk(rules, input) {
        return Err(BadInput);
      }
      var k := Position(profiles, id);
      if k == |profiles| {
        return Err(NotFound);
      }
      var profile := profiles[k].(name := Trim(input.name), vnt := input.vnt);
      profiles := profiles[k := profile];
      return Ok(profile);
    }

    method Copy(id: string) returns (r: Result<NetworkProfile, StoreError>)
      modifies this
      ensures r.Ok? <==> Has(old(profiles), id) && InputOk(rules, CopyOf(Find(old(profiles), id).value))
      ensures r.Ok? ==> r.value == NewProfile(old(nextId), CopyOf(Find(old(profiles), id).value))
      ensures r.Ok? ==> Value() == Added(old(Value()), CopyOf(Find(old(profiles), id).value))
      ensures r.Err? ==> Value() == old(Value())
    {
      var source := Find(profiles, id);
      if source.None? {
        return Err(NotFound);
      }
      r := Create(CopyOf(source.value));
    }

    method Remove(id: string) returns (r: Result<(), StoreError>)
      modifies this
      ensures r.Ok? <==> old(Removable(Value(), id))
      ensures r.Ok? ==> Value() == old(Value()).(profiles := Without(old(profiles), id))
      ensures r.Err? ==> Value() == old(Value())
      ensures r.Err? ==> (r.error == LastProfile <==> |profiles| == 1) && (r.error == NotFound ==> !Has(profiles, id))
    {
      if |profiles| == 1 {
        return Err(LastProfile);
      }
      if id == defaultId {
        return Err(IsDefault);
      }
      WithoutFacts(profiles, id);
      var before := |profiles|;
      profiles := Without(profiles, id);
      if before == |profiles| {
        return Err(NotFound);
      }
      return Ok(());
    }

    method SetDefault(id: string) returns (r: Result<(), StoreError>)
      modifies this
      ensures r.Ok? <==> Has(profiles, id)
      ensures Value() == if r.Ok? then old(Value()).(defaultId := id) else old(Value())
    {
      if !Has(profiles, id) {
        return Err(NotFound);
      }
      defaultId := id;
      return Ok(());
    }

    method RecalculateNextId()
      modifies this
      ensures Value() == old(Value()).(nextId := WrappingAdd(MaxNumber(old(profiles)), 1))
    {
      nextId := WrappingAdd(MaxNumber(profiles), 1);
    }

    /** Works on a candidate and takes it over only once it validates. */
    method ImportProfiles(request: Import) returns (r: Result<(), StoreError>)
      modifies this
      ensures r.Ok? <==> ImportOk(rules, old(Value()), request)
      ensures Value() == if r.Ok? then ImportCandidate(old(Value()), request) else old(Value())
    {
      if request.backup.schemaVersion != SCHEMA_VERSION {
        return Err(BadVersion);
      }
      var candidate: ProfileStore;
      if request.mode == Replace {
        candidate := new ProfileStore(rules,
          Store(SCHEMA_VERSION, request.backup.defaultId, 1, request.backup.profiles));
      } else {
        candidate := new ProfileStore(rules, Value());
        var ok := candidate.CreateAll(request.backup.profiles);
        if !ok {
          return Err(BadInput);
        }
      }
      candidate.RecalculateNextId();
      var valid := Validate(rules, candidate.Value());
      if !valid {
        return Err(Invalid);
      }
      schemaVersion, defaultId := candidate.schemaVersion, candidate.defaultId;
      nextId, profiles := candidate.nextId, candidate.profiles;
      return Ok(());
    }

    method CreateAll(ps: seq<NetworkProfile>) returns (ok: bool)
      modifies this
      ensures ok <==> InputsOk(rules, ps)
      ensures ok ==> profiles == old(profiles) + Appended(old(nextId), ps)
      ensures schemaVersion == old(schemaVersion) && defaultId == old(defaultId)
    {
      for k := 0 to |ps|
        invariant InputsOk(rules, ps[..k])
        invariant profiles == old(profiles) + Appended(old(nextId), ps[..k])
        invariant nextId == WrappingAdd(old(nextId), k)
        invariant schemaVersion == old(schemaVersion) && defaultId == old(defaultId)
      {
        AppendedSnoc(old(nextId), ps, k);
        WrappingAddStep(old(nextId), k);
        var r := Create(InputOf(ps[k]));
        if r.Err? {
          return false;
        }
        assert profiles == old(profiles) + Appended(old(nextId), ps[..k + 1]);
      }
      assert ps[..|ps|] == ps;
      ok := true;
    }
  }

  lemma AppendedSnoc(n: U64, ps: seq<NetworkProfile>, k: nat)
    requires k < |ps|
    ensures Appended(n, ps[..k + 1]) == Appended(n, ps[..k]) + [NewProfile(WrappingAdd(n, k), InputOf(ps[k]))]
  {
    var front, all := ps[..k], ps[..k + 1];
    assert all == front + [ps[k]];
    assert forall i :: 0 <= i < k ==> Appended(n, all)[i] == Appended(n, front)[i];
  }

  /** Removing keeps exactly the profiles with other ids; it is shorter just when the id was there. */
  lemma {:induction false} WithoutFacts(ps: seq<NetworkProfile>, id: string)
    ensures |Without(ps, id)| <= |ps|
    ensures |Without(ps, id)| < |ps| <==> Has(ps, id)
    ensures !Has(ps, id) ==> Without(ps, id) == ps
    ensures forall p :: p in Without(ps, id) <==> p in ps && p.id != id
  {
    if ps != [] {
      WithoutFacts(ps[1..], id);
      assert forall p :: p in ps <==> p == ps[0] || p in ps[1..];
    }
  }
}
