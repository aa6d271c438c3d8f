/** When the store on disk is the store in memory, and which requests part the two. */
module WebUiSync {
  import opened Wrappers
  import opened ProfileIds
  import opened ProfileStore
  import opened ProfileStoreLaws
  import opened WebUiFiles
  import opened WebUiHandlers
  import opened RuntimePhase
  import opened WebUiInvariants

  /** The store file after one save. */
  function StoreWritten(f: File<Store>, w: Write): File<Store> {
    if w.WriteProfiles? && Goes(w.fault) then Holds(w.profiles) else f
  }

  /** The store file after some saves. */
  function StoreAfter(f: File<Store>, ws: seq<Write>): File<Store> {
    if ws == [] then f else StoreWritten(StoreAfter(f, ws[..|ws| - 1]), ws[|ws| - 1])
  }

  lemma {:induction false} StoreAfterIsOnDisk(d: Disk, ws: seq<Write>)
    ensures Last(Points(d, ws)).profiles == StoreAfter(d.profiles, ws)
  {
    if ws != [] {
      StoreAfterIsOnDisk(d, ws[..|ws| - 1]);
    }
  }

  lemma StoreAfterOne(f: File<Store>, w: Write)
    ensures StoreAfter(f, [w]) == StoreWritten(f, w)
  {
    assert [w][..0] == [];
  }

  lemma StoreAfterTwo(f: File<Store>, a: Write, b: Write)
    ensures StoreAfter(f, [a, b]) == StoreWritten(StoreWritten(f, a), b)
  {
    assert [a, b][..1] == [a];
    StoreAfterOne(f, a);
  }

  lemma StoreAfterThree(f: File<Store>, a: Write, b: Write, c: Write)
    ensures StoreAfter(f, [a, b, c]) == StoreWritten(StoreWritten(StoreWritten(f, a), b), c)
  {
    assert [a, b, c][..2] == [a, b];
    StoreAfterTwo(f, a, b);
  }

  // The shared steps

  /** `save_profiles`, and a configuration save after it, leave disk and memory alike. */
  lemma SaveStoreSyncs(checks: Checks, m: Memory, s: Store, fault: Fault)
    ensures var o := SaveStore(checks, m, s, fault);
      StoreAfter(Holds(m.profiles), o.writes) == Holds(o.memory.profiles)
  {
    StoreAfterOne(Holds(m.profiles), WriteProfiles(s, fault));
  }

  lemma ActivateSyncs(checks: Checks, f: File<Store>, m: Memory, vnt: VntConfig, fault: Fault, w: Write)
    ensures var o := Activate(checks, m, vnt, fault);
      StoreAfter(f, o.writes) == f && StoreAfter(f, [w] + o.writes) == StoreAfter(f, [w])
  {
    var c := WriteConfig(m.config.(vnt := vnt), fault);
    StoreAfterOne(f, c);
    StoreAfterOne(f, w);
    StoreAfterTwo(f, w, c);
    assert [w] + [c] == [w, c] && [w] + [] == [w];
  }

  lemma SaveThenActivateSyncs(checks: Checks, m: Memory, s: Store, vnt: VntConfig, f: Faults)
    requires Valid(checks.rules, s) && Goes(f.profiles)
    ensures var saved := SaveStore(checks, m, s, f.profiles);
      var a := Activate(checks, saved.memory, vnt, f.config);
      StoreAfter(Holds(m.profiles), saved.writes + a.writes) == Holds(s) && a.memory.profiles == s
  {
    var w := WriteProfiles(s, f.profiles);
    StoreAfterOne(Holds(m.profiles), w);
    ActivateSyncs(checks, Holds(m.profiles), m.(profiles := s), vnt, f.config, w);
  }

  /** A request leaves the store on disk and in memory the same, if they were the same. */
  ghost predicate Syncs(m: Memory, o: Outcome<()>) {
    StoreAfter(Holds(m.profiles), o.writes) == Holds(o.memory.profiles)
  }

  // The requests

  lemma ConnectedSyncs(checks: Checks, m: Memory, p: NetworkProfile, f: Faults)
    ensures Syncs(m, Connected(checks, m, p, f))
  {
    ActivateSyncs(checks, Holds(m.profiles), m, p.vnt, f.config, WriteConfig(m.config, f.config));
  }

  lemma PutConfigSyncs(checks: Checks, m: Memory, vnt: VntConfig, f: Faults)
    ensures Syncs(m, PutConfig(checks, m, vnt, f))
  {
    var file, c := Holds(m.profiles), m.config.(vnt := vnt);
    var first := WriteConfig(c, f.config);
    var edit := EditSelected(checks, m.profiles, SelectedId(m), vnt, f.profiles);
    StoreAfterOne(file, first);
    assert [first] + [] == [first];
    if |edit.writes| == 1 {
      StoreAfterTwo(file, first, edit.writes[0]);
      assert [first] + edit.writes == [first, edit.writes[0]];
    }
  }

  lemma UpdateSyncs(checks: Checks, m: Memory, id: string, input: ProfileInput, f: Faults)
    ensures Syncs(m, UpdateProfile(checks, m, id, input, f))
  {
    if Has(m.profiles.profiles, id) {
      var s := Edited(m.profiles, id, input);
      SaveStoreSyncs(checks, m, s, f.profiles);
      if Valid(checks.rules, s) && Goes(f.profiles) {
        SaveThenActivateSyncs(checks, m, s, input.vnt, f);
      }
    }
  }

  lemma MakeDefaultSyncs(checks: Checks, m: Memory, id: string, f: Faults)
    ensures Syncs(m, MakeDefault(checks, m, id, f))
  {
    if Has(m.profiles.profiles, id) {
      var s := m.profiles.(defaultId := id);
      SaveStoreSyncs(checks, m, s, f.profiles);
      if Valid(checks.rules, s) && Goes(f.profiles) {
        SaveThenActivateSyncs(checks, m, s, DefaultProfile(s).vnt, f);
      }
    }
  }

  lemma ImportSyncs(checks: Checks, m: Memory, request: Import, f: Faults)
    ensures Syncs(m, ImportInto(checks, m, request, f))
  {
    if ImportOk(checks.rules, m.profiles, request) {
      var s := ImportCandidate(m.profiles, request);
      SaveStoreSyncs(checks, m, s, f.profiles);
      if Goes(f.profiles) {
        SaveThenActivateSyncs(checks, m, s, DefaultProfile(s).vnt, f);
      }
    }
  }

  lemma OtherSavesSync(checks: Checks, f: File<Store>, c: AppConfig, s: AppSettings, faults: Faults)
    ensures StoreAfter(f, ConfigWrites(checks, c, faults.config)) == f
    ensures StoreAfter(f, ConfigWrites(checks, c, faults.config) + SettingsWrites(checks, s, faults.settings)) == f
  {
    var a, b := WriteConfig(c, faults.config), WriteSettings(s, faults.settings);
    StoreAfterOne(f, a);
    StoreAfterOne(f, b);
    StoreAfterTwo(f, a, b);
    assert [a] + [b] == [a, b] && [a] + [] == [a] && [] + [b] == [b];
  }

  /** Three saves in a row: the store is written first, and taken over last. */
  predicate PartsStores(m: Memory, s: Store, f: Faults) {
    Goes(f.profiles) && !(Goes(f.settings) && f.config.NoFault?) && s != m.profiles
  }

  lemma ReplaceAllSyncsExactly(
    checks: Checks, m: Memory, s: Store, settings: AppSettings, c: AppConfig, f: Faults)
    requires Valid(checks.rules, s) && checks.settingsOk(settings) && ConfigOk(checks, c)
    ensures Syncs(m, ReplaceAll(checks, m, s, settings, c, f)) <==> !PartsStores(m, s, f)
  {
    var file := Holds(m.profiles);
    var one, two, three := WriteProfiles(s, f.profiles), WriteSettings(settings, f.settings), WriteConfig(c, f.config);
    StoreAfterOne(file, one);
    StoreAfterTwo(file, one, two);
    StoreAfterThree(file, one, two, three);
    assert [one] + [two] == [one, two] && [one, two] + [three] == [one, two, three];
  }

  /**
   * The requests that part disk from memory: a restore or clear whose store is
   * saved and differs, and one of whose later saves fails.
   */
  ghost predicate Splits(checks: Checks, m: Memory, request: Request, f: Faults) {
    match request
    case PostRestore(backup) =>
      && !IsActive(m.phase) && backup.schemaVersion == 1 && checks.settingsOk(backup.settings)
      && ImportOk(checks.rules, m.profiles, Import(Replace, backup.profiles))
      && PartsStores(m, ImportCandidate(m.profiles, Import(Replace, backup.profiles)), f)
    case PostClear => !IsActive(m.phase) && PartsStores(m, FromLegacy(m.config.vnt), f)
    case _ => false
  }

  lemma RestoreSyncsExactly(checks: Checks, m: Memory, backup: FullBackup, f: Faults)
    requires MemoryOk(checks, m)
    ensures Syncs(m, Restore(checks, m, backup, f)) <==> !Splits(checks, m, PostRestore(backup), f)
  {
    var request := Import(Replace, backup.profiles);
    if ImportOk(checks.rules, m.profiles, request) && checks.settingsOk(backup.settings) {
      var s := ImportCandidate(m.profiles, request);
      FoundIsOk(checks.rules, s, s.defaultId);
      var c := m.config.(autoStart := backup.autoConnect, vnt := DefaultProfile(s).vnt);
      ReplaceAllSyncsExactly(checks, m, s, backup.settings, c, f);
    }
  }

  lemma ClearSyncsExactly(checks: Checks, m: Memory, f: Faults)
    requires MemoryOk(checks, m) && checks.settingsOk(DEFAULT_SETTINGS)
    ensures Syncs(m, Clear(checks, m, f)) <==> !Splits(checks, m, PostClear, f)
  {
    LegacyIsValidExactly(checks.rules, m.config.vnt);
    ReplaceAllSyncsExactly(checks, m, FromLegacy(m.config.vnt), DEFAULT_SETTINGS, m.config.(autoStart := false), f);
  }

  lemma StoreRequestSyncs(checks: Checks, m: Memory, request: Request, f: Faults)
    requires request.PostProfile? || request.PutProfile? || request.DropProfile? || request.PostCopy?
             || request.PostDefault? || request.PostImport?
    ensures Syncs(m, Respond(checks, m, request, f))
  {
    match request
    case PostProfile(input) => SaveStoreSyncs(checks, m, Added(m.profiles, input), f.profiles);
    case PutProfile(id, input) => UpdateSyncs(checks, m, id, input, f);
    case DropProfile(id) => SaveStoreSyncs(checks, m, Removed(m.profiles, id), f.profiles);
    case PostCopy(id) =>
      if Has(m.profiles.profiles, id) {
        SaveStoreSyncs(checks, m, Added(m.profiles, CopyOf(Find(m.profiles.profiles, id).value)), f.profiles);
      }
    case PostDefault(id) => MakeDefaultSyncs(checks, m, id, f);
    case PostImport(import') => ImportSyncs(checks, m, import', f);
  }

  /** Every other request keeps the store on disk and in memory the same. */
  lemma RespondSyncsExactly(checks: Checks, m: Memory, request: Request, f: Faults)
    requires MemoryOk(checks, m) && checks.settingsOk(DEFAULT_SETTINGS)
    ensures Syncs(m, Respond(checks, m, request, f)) <==> !Splits(checks, m, request, f)
  {
    match request
    case PostStart => ConnectedSyncs(checks, m, DefaultProfile(m.profiles), f);
    case PostStop =>
    case PostConnect(id) =>
      if Has(m.profiles.profiles, id) {
        ConnectedSyncs(checks, Halted(m), Find(m.profiles.profiles, id).value, f);
      }
    case PutNetwork(vnt) => PutConfigSyncs(checks, m, vnt, f);
    case PutAppSettings(s, auto) =>
      OtherSavesSync(checks, Holds(m.profiles), m.config.(autoStart := auto), s, f);
    case PutAccessToken(token) =>
      var c := m.config.(web := m.config.web.(token := Some(Trim(token))));
      OtherSavesSync(checks, Holds(m.profiles), c, m.settings, f);
    case PostRestore(backup) => RestoreSyncsExactly(checks, m, backup, f);
    case PostClear => ClearSyncsExactly(checks, m, f);
    case _ => StoreRequestSyncs(checks, m, request, f);
  }
}
