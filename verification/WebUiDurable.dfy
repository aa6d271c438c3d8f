/** What an answered request has left in the three files. */
module WebUiDurable {
  import opened Wrappers
  import opened ProfileStore
  import opened WebUiFiles
  import opened WebUiHandlers
  import opened WebUiInvariants
  import opened WebUiRuns

  predicate GoesThrough(w: Write) {
    if w.WriteConfig? then w.fault.NoFault? else Goes(w.fault)
  }

  /** What a save puts into its file. */
  function Saved(w: Write): Content {
    match w
    case WriteConfig(c, _) => TheConfig(Holds(c))
    case WriteProfiles(s, _) => TheStore(Holds(s))
    case WriteSettings(s, _) => TheSettings(Holds(s))
  }

  /** The part of memory that belongs into a file. */
  function Part(kind: Kind, m: Memory): Content {
    match kind
    case ConfigKind => TheConfig(Holds(m.config))
    case StoreKind => TheStore(Holds(m.profiles))
    case SettingsKind => TheSettings(Holds(m.settings))
  }

  lemma OpsLand(d: Disk, w: Write)
    ensures ContentOf(KindOf(w), Last(Ops(d, w))) == if GoesThrough(w) then Saved(w) else ContentOf(KindOf(w), d)
  {
  }

  /** A save that went through is what its file holds in the end. */
  lemma {:induction false} WritesLand(d: Disk, ws: seq<Write>, w: Write)
    requires OneOfEach(ws) && w in ws && GoesThrough(w)
    ensures ContentOf(KindOf(w), Last(Points(d, ws))) == Saved(w)
  {
    var front, last := ws[..|ws| - 1], ws[|ws| - 1];
    var before := Last(Points(d, front));
    if w == last {
      OpsLand(before, last);
    } else {
      assert w in front;
      WritesLand(d, front, w);
      OpsKeepOtherFiles(KindOf(w), before, last);
    }
  }

  // What the requests write

  /** Memory is never ahead of the files: what is new in it was saved first. */
  predicate SavedFirst(m: Memory, f: Faults, o: Outcome<()>) {
    && (o.memory.profiles == m.profiles || (Goes(f.profiles) && WriteProfiles(o.memory.profiles, f.profiles) in o.writes))
    && (o.memory.config == m.config || (f.config.NoFault? && WriteConfig(o.memory.config, f.config) in o.writes))
    && (o.memory.settings == m.settings || (Goes(f.settings) && WriteSettings(o.memory.settings, f.settings) in o.writes))
  }

  /** And a request that succeeds saves nothing but what it then has in memory. */
  ghost predicate SavesMemory(o: Outcome<()>) {
    o.result.Ok? ==> forall w :: w in o.writes ==> GoesThrough(w) && Saved(w) == Part(KindOf(w), o.memory)
  }

  ghost predicate Saves(m: Memory, f: Faults, o: Outcome<()>) {
    SavedFirst(m, f, o) && SavesMemory(o)
  }

  lemma CreateSaves(checks: Checks, m: Memory, input: ProfileInput, f: Faults)
    ensures Saves(m, f, CreateProfile(checks, m, input, f))
  {
  }

  lemma DeleteSaves(checks: Checks, m: Memory, id: string, f: Faults)
    ensures Saves(m, f, DeleteProfile(checks, m, id, f))
  {
  }

  lemma SaveThenActivateSaves(checks: Checks, m: Memory, s: Store, vnt: VntConfig, f: Faults)
    requires Valid(checks.rules, s) && Goes(f.profiles)
    ensures var saved := SaveStore(checks, m, s, f.profiles);
      var a := Activate(checks, saved.memory, vnt, f.config);
      Saves(m, f, Outcome(a.result, a.memory, saved.writes + a.writes))
  {
  }

  lemma UpdateSaves(checks: Checks, m: Memory, id: string, input: ProfileInput, f: Faults)
    ensures Saves(m, f, UpdateProfile(checks, m, id, input, f))
  {
    if Has(m.profiles.profiles, id) {
      var s := Edited(m.profiles, id, input);
      if Valid(checks.rules, s) && Goes(f.profiles) {
        SaveThenActivateSaves(checks, m, s, input.vnt, f);
      }
    }
  }

  lemma MakeDefaultSaves(checks: Checks, m: Memory, id: string, f: Faults)
    ensures Saves(m, f, MakeDefault(checks, m, id, f))
  {
    if Has(m.profiles.profiles, id) {
      var s := m.profiles.(defaultId := id);
      if Valid(checks.rules, s) && Goes(f.profiles) {
        SaveThenActivateSaves(checks, m, s, DefaultProfile(s).vnt, f);
      }
    }
  }

  lemma ImportSaves(checks: Checks, m: Memory, request: Import, f: Faults)
    ensures Saves(m, f, ImportInto(checks, m, request, f))
  {
    if ImportOk(checks.rules, m.profiles, request) {
      var s := ImportCandidate(m.profiles, request);
      if Valid(checks.rules, s) && Goes(f.profiles) {
        SaveThenActivateSaves(checks, m, s, DefaultProfile(s).vnt, f);
      }
    }
  }

  lemma ConnectedSaves(checks: Checks, m: Memory, p: NetworkProfile, f: Faults)
    ensures Saves(m, f, Connected(checks, m, p, f))
  {
  }

  lemma EditSaves(checks: Checks, s: Store, id: string, vnt: VntConfig, fault: Fault)
    ensures var edit := EditSelected(checks, s, id, vnt, fault);
      edit.result.Ok? ==> Goes(fault) && edit.writes == [WriteProfiles(edit.result.value, fault)]
  {
  }

  lemma PutConfigSaves(checks: Checks, m: Memory, vnt: VntConfig, f: Faults)
    ensures Saves(m, f, PutConfig(checks, m, vnt, f))
  {
    EditSaves(checks, m.profiles, SelectedId(m), vnt, f.profiles);
    var o := PutConfig(checks, m, vnt, f);
    if o.result.Ok? {
      assert o.writes == [WriteConfig(o.memory.config, f.config), WriteProfiles(o.memory.profiles, f.profiles)];
    }
  }

  lemma PutSettingsSaves(checks: Checks, m: Memory, settings: AppSettings, auto: bool, f: Faults)
    ensures Saves(m, f, PutSettings(checks, m, settings, auto, f))
  {
  }

  lemma ReplaceAllSaves(checks: Checks, m: Memory, s: Store, settings: AppSettings, c: AppConfig, f: Faults)
    ensures Saves(m, f, ReplaceAll(checks, m, s, settings, c, f))
  {
  }

  lemma RespondSaves(checks: Checks, m: Memory, request: Request, f: Faults)
    ensures Saves(m, f, Respond(checks, m, request, f))
  {
    match request
    case PostStart =>
      if Has(m.profiles.profiles, m.profiles.defaultId) {
        ConnectedSaves(checks, m, DefaultProfile(m.profiles), f);
      }
    case PostStop =>
    case PostConnect(id) =>
      if Has(m.profiles.profiles, id) {
        ConnectedSaves(checks, Halted(m), Find(m.profiles.profiles, id).value, f);
      }
    case PutNetwork(vnt) => PutConfigSaves(checks, m, vnt, f);
    case PostProfile(input) => CreateSaves(checks, m, input, f);
    case PutProfile(id, input) => UpdateSaves(checks, m, id, input, f);
    case DropProfile(id) => DeleteSaves(checks, m, id, f);
    case PostCopy(id) =>
      if Has(m.profiles.profiles, id) {
        CreateSaves(checks, m, CopyOf(Find(m.profiles.profiles, id).value), f);
      }
    case PostDefault(id) => MakeDefaultSaves(checks, m, id, f);
    case PostImport(import') => ImportSaves(checks, m, import', f);
    case PutAppSettings(settings, auto) => PutSettingsSaves(checks, m, settings, auto, f);
    case PutAccessToken(_) =>
    case PostRestore(backup) =>
      if ImportOk(checks.rules, m.profiles, Import(Replace, backup.profiles)) {
        var s := ImportCandidate(m.profiles, Import(Replace, backup.profiles));
        var c := m.config.(autoStart := backup.autoConnect, vnt := DefaultProfile(s).vnt);
        ReplaceAllSaves(checks, m, s, backup.settings, c, f);
      }
    case PostClear =>
      ReplaceAllSaves(checks, m, FromLegacy(m.config.vnt), DEFAULT_SETTINGS, m.config.(autoStart := false), f);
  }

  // What a crash after the answer finds

  lemma NewIsOnDisk(d: Disk, m: Memory, f: Faults, o: Outcome<()>, kind: Kind)
    requires OneOfEach(o.writes) && SavedFirst(m, f, o)
    ensures Part(kind, o.memory) == Part(kind, m) || ContentOf(kind, Last(Points(d, o.writes))) == Part(kind, o.memory)
  {
    match kind
    case ConfigKind => if o.memory.config != m.config { WritesLand(d, o.writes, WriteConfig(o.memory.config, f.config)); }
    case StoreKind => if o.memory.profiles != m.profiles { WritesLand(d, o.writes, WriteProfiles(o.memory.profiles, f.profiles)); }
    case SettingsKind => if o.memory.settings != m.settings { WritesLand(d, o.writes, WriteSettings(o.memory.settings, f.settings)); }
  }

  lemma OnlyMemoryIsOnDisk(d: Disk, o: Outcome<()>, kind: Kind)
    requires OneOfEach(o.writes) && o.result.Ok? && SavesMemory(o)
    ensures var left := ContentOf(kind, Last(Points(d, o.writes))); left == ContentOf(kind, d) || left == Part(kind, o.memory)
  {
    if NoneOf(kind, o.writes) {
      PointsWithout(kind, d, o.writes);
      assert Last(Points(d, o.writes)) in Points(d, o.writes);
    } else {
      var w :| w in o.writes && KindOf(w) == kind;
      WritesLand(d, o.writes, w);
    }
  }

  /**
   * Whatever a request changed in memory is in its file when the answer goes out,
   * whether it succeeded or not; and a request that succeeded has changed no file
   * but to what is in memory.
   */
  lemma AnsweredIsOnDisk(checks: Checks, s: Server, call: Call, kind: Kind)
    requires ServerOk(checks, s) && checks.settingsOk(DEFAULT_SETTINGS)
    ensures var s' := After(checks, s, call);
      && (Part(kind, s'.memory) == Part(kind, s.memory) || ContentOf(kind, s'.disk) == Part(kind, s'.memory))
      && (Respond(checks, s.memory, call.request, call.faults).result.Ok? ==>
            ContentOf(kind, s'.disk) == ContentOf(kind, s.disk) || ContentOf(kind, s'.disk) == Part(kind, s'.memory))
  {
    var o := Respond(checks, s.memory, call.request, call.faults);
    RespondSound(checks, s.memory, call.request, call.faults);
    RespondSaves(checks, s.memory, call.request, call.faults);
    NewIsOnDisk(s.disk, s.memory, call.faults, o, kind);
    if o.result.Ok? {
      OnlyMemoryIsOnDisk(s.disk, o, kind);
    }
  }

  /** A start would find the store, settings, web configuration and auto-start that are in memory. */
  predicate InStep(s: Server) {
    var b := Booted(s.memory.config, s.memory.profiles, s.memory.settings);
    StoreFrom(s.disk, b) && WebFrom(s.disk, b) && SettingsFrom(s.disk, b)
  }

  lemma SuccessKeepsInStep(checks: Checks, s: Server, call: Call)
    requires ServerOk(checks, s) && checks.settingsOk(DEFAULT_SETTINGS) && InStep(s)
    requires Respond(checks, s.memory, call.request, call.faults).result.Ok?
    ensures InStep(After(checks, s, call))
  {
    AnsweredIsOnDisk(checks, s, call, ConfigKind);
    AnsweredIsOnDisk(checks, s, call, StoreKind);
    AnsweredIsOnDisk(checks, s, call, SettingsKind);
  }

  ghost predicate AllSucceed(checks: Checks, s: Server, calls: seq<Call>)
    decreases |calls|
  {
    calls != [] ==>
      && Respond(checks, s.memory, calls[0].request, calls[0].faults).result.Ok?
      && AllSucceed(checks, After(checks, s, calls[0]), calls[1..])
  }

  lemma {:induction false} SuccessfulRunInStep(checks: Checks, s: Server, calls: seq<Call>)
    requires ServerOk(checks, s) && checks.settingsOk(DEFAULT_SETTINGS) && InStep(s) && AllSucceed(checks, s, calls)
    ensures ServerOk(checks, Final(checks, s, calls)) && InStep(Final(checks, s, calls))
    decreases |calls|
  {
    if calls != [] {
      CallIsSafe(checks, s, calls[0]);
      SuccessKeepsInStep(checks, s, calls[0]);
      SuccessfulRunInStep(checks, After(checks, s, calls[0]), calls[1..]);
    }
  }

  /**
   * Start from valid files and answer any requests successfully: a start from the
   * files then left brings back the store, the settings, the web configuration and
   * auto-start.
   */
  lemma SuccessSurvives(checks: Checks, d: Disk, calls: seq<Call>)
    requires DiskOk(checks, d) && checks.settingsOk(DEFAULT_SETTINGS) && Boot(checks, d).Some?
    requires AllSucceed(checks, Launched(Boot(checks, d).value, d), calls)
    ensures var s := Final(checks, Launched(Boot(checks, d).value, d), calls);
      && Restarts(checks, s.disk)
      && var b := Boot(checks, s.disk).value;
         && b.profiles == s.memory.profiles && b.settings == s.memory.settings
         && b.config.web == s.memory.config.web && b.config.autoStart == s.memory.config.autoStart
  {
    var first := Launched(Boot(checks, d).value, d);
    LaunchIsOk(checks, d);
    BootsExactly(checks, d);
    SuccessfulRunInStep(checks, first, calls);
    ValidDiskRestarts(checks, Final(checks, first, calls).disk);
  }
}
