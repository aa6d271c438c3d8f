/**
 * The WebUI server as the program runs it: values swapped in memory and files
 * written one operation at a time. A handler holds the mutation lock throughout,
 * so a request is one method; each is proved to do what its function in
 * `WebUiHandlers` says, result, memory and saves.
 */
module WebUiApi {
  import opened Wrappers
  import opened ProfileIds
  import opened ProfileStore
  import opened WebUiFiles
  import opened WebUiHandlers
  import opened RuntimePhase
  import opened WebUiRuns

  /** A result without the profile that a successful handler sends back. */
  function Plain<T>(r: Result<T, ApiError>): Result<(), ApiError> {
    match r
    case Ok(_) => Ok(())
    case Err(e) => Err(e)
  }

  class ApiState {
    const checks: Checks
    var config: AppConfig
    var profiles: Store
    var settings: AppSettings
    var active: Option<string>
    var running: Option<VntConfig>
    var phase: Phase
    var disk: Disk

    /** The saves since the last request began, and the disks they went through. */
    ghost var writes: seq<Write>
    ghost var points: seq<Disk>

    constructor (checks: Checks, booted: Booted, disk: Disk)
      ensures this.checks == checks && Server(Value(), this.disk) == Launched(booted, disk)
      ensures writes == [] && points == [disk]
    {
      this.checks := checks;
      config, profiles, settings := booted.config, booted.profiles, booted.settings;
      active, running, phase := None, None, Stopped;
      this.disk, writes, points := disk, [], [disk];
    }

    function Value(): Memory
      reads this
    {
      Memory(config, profiles, settings, active, running, phase)
    }

    /** The recorded disks are those of the recorded saves. */
    ghost predicate Recorded()
      reads this
    {
      points != [] && points == Points(points[0], writes) && Last(points) == disk
    }

    // Files

    /** One file operation. */
    method Operate(d: Disk)
      modifies `disk, `points
      ensures disk == d && points == old(points) + [d]
    {
      disk := d;
      points := points + [d];
    }

    /** A save is over: its disks are those that `Ops` lists. */
    ghost method Note(w: Write, before: seq<Disk>)
      requires before != [] && before == Points(before[0], writes)
      requires points == before + Ops(Last(before), w) && Last(points) == disk
      modifies `writes
      ensures Recorded() && points[0] == before[0] && writes == old(writes) + [w]
    {
      PointsSnoc(before[0], writes, w);
      writes := writes + [w];
    }

    /** `AppConfig::save`: validate, write the temporary file, set its mode, rename. */
    method SaveConfig(c: AppConfig, fault: Fault) returns (ok: bool)
      requires Recorded()
      modifies `disk, `points, `writes
      ensures Recorded() && points[0] == old(points[0])
      ensures ok <==> ConfigOk(checks, c) && fault.NoFault?
      ensures writes == old(writes) + ConfigWrites(checks, c, fault)
    {
      if !ConfigOk(checks, c) {
        return false;
      }
      ghost var before, start := points, disk;
      Operate(disk.(configTemp := Garbled));
      if !fault.WriteFails? {
        Operate(disk.(configTemp := Holds(c)));
        if fault.NoFault? {
          Operate(disk.(config := disk.configTemp, configTemp := Missing));
        }
      }
      assert points == before + Ops(start, WriteConfig(c, fault));
      Note(WriteConfig(c, fault), before);
      ok := fault.NoFault?;
    }

    /** `ProfileStore::save` */
    method SaveStoreFile(s: Store, fault: Fault) returns (ok: bool)
      requires Recorded()
      modifies `disk, `points, `writes
      ensures Recorded() && points[0] == old(points[0])
      ensures ok <==> Valid(checks.rules, s) && Goes(fault)
      ensures writes == old(writes) + StoreWrites(checks, s, fault)
    {
      var valid := Validate(checks.rules, s);
      if !valid {
        return false;
      }
      ghost var before, start := points, disk;
      Operate(disk.(profilesTemp := Garbled));
      if !fault.WriteFails? {
        Operate(disk.(profilesTemp := Holds(s)));
        if Goes(fault) {
          Operate(disk.(profiles := disk.profilesTemp, profilesTemp := Missing));
        }
      }
      assert points == before + Ops(start, WriteProfiles(s, fault));
      Note(WriteProfiles(s, fault), before);
      ok := Goes(fault);
    }

    /** `AppSettings::save` */
    method SaveSettings(s: AppSettings, fault: Fault) returns (ok: bool)
      requires Recorded()
      modifies `disk, `points, `writes
      ensures Recorded() && points[0] == old(points[0])
      ensures ok <==> checks.settingsOk(s) && Goes(fault)
      ensures writes == old(writes) + SettingsWrites(checks, s, fault)
    {
      if !checks.settingsOk(s) {
        return false;
      }
      ghost var before, start := points, disk;
      Operate(disk.(settingsTemp := Garbled));
      if !fault.WriteFails? {
        Operate(disk.(settingsTemp := Holds(s)));
        if Goes(fault) {
          Operate(disk.(settings := disk.settingsTemp, settingsTemp := Missing));
        }
      }
      assert points == before + Ops(start, WriteSettings(s, fault));
      Note(WriteSettings(s, fault), before);
      ok := Goes(fault);
    }

    /** A request begins. */
    ghost method Begin()
      modifies `points, `writes
      ensures Recorded() && points == [disk] && writes == []
    {
      points, writes := [disk], [];
    }

    /** `save_profiles` */
    method SaveProfiles(s: Store, fault: Fault) returns (r: Result<(), ApiError>)
      requires Recorded()
      modifies `profiles, `disk, `points, `writes
      ensures Recorded() && points[0] == old(points[0])
      ensures var o := SaveStore(checks, old(Value()), s, fault);
        r == o.result && Value() == o.memory && writes == old(writes) + o.writes
    {
      var ok := SaveStoreFile(s, fault);
      if !ok {
        return Err(Internal);
      }
      profiles := s;
      return Ok(());
    }

    /** `activate_profile_config` */
    method ActivateConfig(vnt: VntConfig, fault: Fault) returns (r: Result<(), ApiError>)
      requires Recorded()
      modifies `config, `disk, `points, `writes
      ensures Recorded() && points[0] == old(points[0])
      ensures var o := Activate(checks, old(Value()), vnt, fault);
        r == o.result && Value() == o.memory && writes == old(writes) + o.writes
    {
      var c := config.(vnt := vnt);
      var ok := SaveConfig(c, fault);
      if !ok {
        return Err(Internal);
      }
      config := c;
      return Ok(());
    }

    // The controller

    /** A start on a running network succeeds and changes nothing. */
    method StartNetwork(vnt: VntConfig, connects: bool) returns (ok: bool)
      modifies `running, `phase
      ensures Value() == Started(old(Value()), vnt, connects) && (ok <==> running.Some?)
    {
      if running.Some? {
        return true;
      }
      phase := Starting;
      if connects {
        running := Some(vnt);
        phase := Running;
      } else {
        phase := Error;
      }
      ok := connects;
    }

    method StopNetwork()
      modifies `running, `phase
      ensures Value() == Halted(old(Value()))
    {
      running, phase := None, Stopped;
    }

    // Networks

    /** The network and the label, once the configuration is saved. */
    method StartAs(p: NetworkProfile, connects: bool) returns (r: Result<(), ApiError>)
      requires Recorded()
      modifies `running, `phase, `active
      ensures Recorded()
      ensures var m := Started(old(Value()), p.vnt, connects);
        if m.running.None? then r == Err(Internal) && Value() == m else r == Ok(()) && Value() == m.(active := Some(p.id))
    {
      var ok := StartNetwork(p.vnt, connects);
      if !ok {
        return Err(Internal);
      }
      active := Some(p.id);
      return Ok(());
    }

    /** The part that `start` and `connect_profile` share. */
    method ConnectTo(p: NetworkProfile, f: Faults) returns (r: Result<(), ApiError>)
      requires Recorded() && writes == []
      modifies this
      ensures Recorded() && points[0] == old(points[0])
      ensures Outcome(r, Value(), writes) == Connected(checks, old(Value()), p, f)
    {
      r := ActivateConfig(p.vnt, f.config);
      if r.Ok? {
        r := StartAs(p, f.connects);
      }
    }

    method HandleStart(f: Faults) returns (r: Result<(), ApiError>)
      requires Has(profiles.profiles, profiles.defaultId)
      modifies this
      ensures Recorded() && points[0] == old(disk)
      ensures Outcome(r, Value(), writes) == Start(checks, old(Value()), f)
    {
      Begin();
      r := ConnectTo(DefaultProfile(profiles), f);
    }

    method HandleConnect(id: string, f: Faults) returns (r: Result<(), ApiError>)
      modifies this
      ensures Recorded() && points[0] == old(disk)
      ensures Outcome(r, Value(), writes) == Connect(checks, old(Value()), id, f)
    {
      Begin();
      var found := Find(profiles.profiles, id);
      if found.None? {
        return Err(Absent);
      }
      StopNetwork();
      r := ConnectTo(found.value, f);
    }

    method HandleStop()
      modifies this
      ensures Recorded() && points[0] == old(disk)
      ensures Value() == Halted(old(Value())) && writes == []
    {
      Begin();
      StopNetwork();
    }

    /** The second half of `update_config`, up to the save of the store. */
    method SaveSelected(id: string, vnt: VntConfig, fault: Fault) returns (r: Result<Store, ApiError>)
      requires Recorded()
      modifies `disk, `points, `writes
      ensures Recorded() && points[0] == old(points[0])
      ensures var edit := EditSelected(checks, profiles, id, vnt, fault);
        r == edit.result && writes == old(writes) + edit.writes
    {
      var store := new ProfileStore(checks.rules, profiles);
      var selected := Find(store.profiles, id);
      if selected.None? {
        return Err(Internal);
      }
      var updated := store.Update(id, ProfileInput(selected.value.name, vnt));
      if updated.Err? {
        return Err(BadRequest);
      }
      var saved := SaveStoreFile(store.Value(), fault);
      return if saved then Ok(store.Value()) else Err(Internal);
    }

    method HandlePutConfig(vnt: VntConfig, f: Faults) returns (r: Result<(), ApiError>)
      modifies this
      ensures Recorded() && points[0] == old(disk)
      ensures Outcome(r, Value(), writes) == PutConfig(checks, old(Value()), vnt, f)
    {
      Begin();
      if IsActive(phase) {
        return Err(Conflict);
      }
      var candidate := config.(vnt := vnt);
      if !ConfigOk(checks, candidate) || !checks.rules.coreOk(vnt) {
        return Err(BadRequest);
      }
      var saved := SaveConfig(candidate, f.config);
      if !saved {
        return Err(Internal);
      }
      var edited := SaveSelected(SelectedId(Value()), vnt, f.profiles);
      if edited.Err? {
        return Err(edited.error);
      }
      profiles := edited.value;
      config := candidate;
      return Ok(());
    }

    // Profiles

    method HandleCreate(input: ProfileInput, f: Faults) returns (r: Result<NetworkProfile, ApiError>)
      modifies this
      ensures Recorded() && points[0] == old(disk)
      ensures Outcome(Plain(r), Value(), writes) == CreateProfile(checks, old(Value()), input, f)
      ensures r.Ok? ==> r.value == NewProfile(old(profiles).nextId, input)
    {
      Begin();
      var candidate := new ProfileStore(checks.rules, profiles);
      var created := candidate.Create(input);
      if created.Err? {
        return Err(BadRequest);
      }
      var saved := SaveProfiles(candidate.Value(), f.profiles);
      if saved.Err? {
        return Err(saved.error);
      }
      return Ok(created.value);
    }

    method HandleCopy(id: string, f: Faults) returns (r: Result<NetworkProfile, ApiError>)
      modifies this
      ensures Recorded() && points[0] == old(disk)
      ensures Outcome(Plain(r), Value(), writes) == CopyProfile(checks, old(Value()), id, f)
      ensures r.Ok? ==> Has(old(profiles).profiles, id)
      ensures r.Ok? ==> r.value == NewProfile(old(profiles).nextId, CopyOf(Find(old(profiles).profiles, id).value))
    {
      Begin();
      var candidate := new ProfileStore(checks.rules, profiles);
      var copied := candidate.Copy(id);
      if copied.Err? {
        return Err(BadRequest);
      }
      var saved := SaveProfiles(candidate.Value(), f.profiles);
      if saved.Err? {
        return Err(saved.error);
      }
      return Ok(copied.value);
    }

    method HandleUpdate(id: string, input: ProfileInput, f: Faults) returns (r: Result<NetworkProfile, ApiError>)
      modifies this
      ensures Recorded() && points[0] == old(disk)
      ensures Outcome(Plain(r), Value(), writes) == UpdateProfile(checks, old(Value()), id, input, f)
      ensures r.Ok? ==> r.value == NetworkProfile(id, Trim(input.name), input.vnt)
    {
      Begin();
      if IsActive(phase) && active == Some(id) {
        return Err(Conflict);
      }
      var candidate := new ProfileStore(checks.rules, profiles);
      var updated := candidate.Update(id, input);
      if updated.Err? {
        return Err(BadRequest);
      }
      var saved := SaveProfiles(candidate.Value(), f.profiles);
      if saved.Err? {
        return Err(saved.error);
      }
      if active == Some(id) {
        var activated := ActivateConfig(updated.value.vnt, f.config);
        if activated.Err? {
          return Err(activated.error);
        }
      }
      return Ok(updated.value);
    }

    method HandleDelete(id: string, f: Faults) returns (r: Result<(), ApiError>)
      modifies this
      ensures Recorded() && points[0] == old(disk)
      ensures Outcome(r, Value(), writes) == DeleteProfile(checks, old(Value()), id, f)
    {
      Begin();
      if IsActive(phase) && active == Some(id) {
        return Err(Conflict);
      }
      var candidate := new ProfileStore(checks.rules, profiles);
      var removed := candidate.Remove(id);
      if removed.Err? {
        return Err(BadRequest);
      }
      r := SaveProfiles(candidate.Value(), f.profiles);
      assert writes == SaveStore(checks, old(Value()), Removed(old(profiles), id), f.profiles).writes;
      if r.Ok? && active == Some(id) {
        active := None;
      }
    }

    method HandleSetDefault(id: string, f: Faults) returns (r: Result<(), ApiError>)
      modifies this
      ensures Recorded() && points[0] == old(disk)
      ensures Outcome(r, Value(), writes) == MakeDefault(checks, old(Value()), id, f)
    {
      Begin();
      var candidate := new ProfileStore(checks.rules, profiles);
      var chosen := candidate.SetDefault(id);
      if chosen.Err? {
        return Err(BadRequest);
      }
      var p := DefaultProfile(candidate.Value());
      r := SaveProfiles(candidate.Value(), f.profiles);
      if r.Ok? && !IsActive(phase) {
        r := ActivateConfig(p.vnt, f.config);
      }
    }

    method HandleImport(request: Import, f: Faults) returns (r: Result<(), ApiError>)
      modifies this
      ensures Recorded() && points[0] == old(disk)
      ensures Outcome(r, Value(), writes) == ImportInto(checks, old(Value()), request, f)
    {
      Begin();
      if IsActive(phase) {
        return Err(Conflict);
      }
      var candidate := new ProfileStore(checks.rules, profiles);
      var imported := candidate.ImportProfiles(request);
      if imported.Err? {
        return Err(BadRequest);
      }
      var p := DefaultProfile(candidate.Value());
      r := SaveProfiles(candidate.Value(), f.profiles);
      if r.Ok? {
        r := ActivateConfig(p.vnt, f.config);
        if r.Ok? {
          active := None;
        }
      }
    }

    // Settings, token, backups

    method HandlePutSettings(s: AppSettings, auto: bool, f: Faults) returns (r: Result<(), ApiError>)
      modifies this
      ensures Recorded() && points[0] == old(disk)
      ensures Outcome(r, Value(), writes) == PutSettings(checks, old(Value()), s, auto, f)
    {
      Begin();
      if !checks.settingsOk(s) {
        return Err(BadRequest);
      }
      var c := config.(autoStart := auto);
      var saved := SaveConfig(c, f.config);
      if !saved {
        return Err(Internal);
      }
      saved := SaveSettings(s, f.settings);
      if !saved {
        return Err(Internal);
      }
      config, settings := c, s;
      return Ok(());
    }

    method HandlePutToken(token: string, f: Faults) returns (r: Result<(), ApiError>)
      modifies this
      ensures Recorded() && points[0] == old(disk)
      ensures Outcome(r, Value(), writes) == PutToken(checks, old(Value()), token, f)
    {
      Begin();
      var c := config.(web := config.web.(token := Some(Trim(token))));
      if !ConfigOk(checks, c) {
        return Err(BadRequest);
      }
      var saved := SaveConfig(c, f.config);
      if !saved {
        return Err(Internal);
      }
      config := c;
      return Ok(());
    }

    /** The part that `restore_backup` and `clear_data` share: three saves, then all of memory. */
    method ReplaceEverything(s: Store, newSettings: AppSettings, c: AppConfig, f: Faults)
      returns (r: Result<(), ApiError>)
      requires Recorded() && writes == []
      modifies this
      ensures Recorded() && points[0] == old(points[0])
      ensures Outcome(r, Value(), writes) == ReplaceAll(checks, old(Value()), s, newSettings, c, f)
    {
      var saved := SaveStoreFile(s, f.profiles);
      if !saved {
        return Err(Internal);
      }
      saved := SaveSettings(newSettings, f.settings);
      if !saved {
        return Err(Internal);
      }
      saved := SaveConfig(c, f.config);
      if !saved {
        return Err(Internal);
      }
      profiles, settings, config, active := s, newSettings, c, None;
      return Ok(());
    }

    method HandleRestore(backup: FullBackup, f: Faults) returns (r: Result<(), ApiError>)
      modifies this
      ensures Recorded() && points[0] == old(disk)
      ensures Outcome(r, Value(), writes) == Restore(checks, old(Value()), backup, f)
    {
      Begin();
      if IsActive(phase) {
        return Err(Conflict);
      }
      if backup.schemaVersion != 1 || !checks.settingsOk(backup.settings) {
        return Err(BadRequest);
      }
      var candidate := new ProfileStore(checks.rules, profiles);
      var imported := candidate.ImportProfiles(Import(Replace, backup.profiles));
      if imported.Err? {
        return Err(BadRequest);
      }
      var p := DefaultProfile(candidate.Value());
      var c := config.(autoStart := backup.autoConnect, vnt := p.vnt);
      r := ReplaceEverything(candidate.Value(), backup.settings, c, f);
    }

    method HandleClear(f: Faults) returns (r: Result<(), ApiError>)
      modifies this
      ensures Recorded() && points[0] == old(disk)
      ensures Outcome(r, Value(), writes) == Clear(checks, old(Value()), f)
    {
      Begin();
      if IsActive(phase) {
        return Err(Conflict);
      }
      r := ReplaceEverything(FromLegacy(config.vnt), DEFAULT_SETTINGS, config.(autoStart := false), f);
    }

    // Any request, any run

    method Dispatch(request: Request, f: Faults) returns (r: Result<(), ApiError>)
      requires Has(profiles.profiles, profiles.defaultId)
      modifies this
      ensures Recorded() && points[0] == old(disk)
      ensures Outcome(r, Value(), writes) == Respond(checks, old(Value()), request, f)
    {
      match request
      case PostStart => r := HandleStart(f);
      case PostStop => HandleStop(); r := Ok(());
      case PostConnect(id) => r := HandleConnect(id, f);
      case PutNetwork(vnt) => r := HandlePutConfig(vnt, f);
      case PostProfile(input) => var created := HandleCreate(input, f); r := Plain(created);
      case PutProfile(id, input) => var updated := HandleUpdate(id, input, f); r := Plain(updated);
      case DropProfile(id) => r := HandleDelete(id, f);
      case PostCopy(id) => var copied := HandleCopy(id, f); r := Plain(copied);
      case PostDefault(id) => r := HandleSetDefault(id, f);
      case PostImport(import') => r := HandleImport(import', f);
      case PutAppSettings(newSettings, auto) => r := HandlePutSettings(newSettings, auto, f);
      case PutAccessToken(token) => r := HandlePutToken(token, f);
      case PostRestore(backup) => r := HandleRestore(backup, f);
      case PostClear => r := HandleClear(f);
    }

    /** Memory and disk hold valid values. */
    ghost predicate Live()
      reads this
    {
      ServerOk(checks, Server(Value(), disk)) && checks.settingsOk(DEFAULT_SETTINGS)
    }

    /**
     * One request under the mutation lock. The disks recorded on the way are one
     * file operation apart and valid, each with the store from before or after.
     */
    method Handle(request: Request, f: Faults) returns (r: Result<(), ApiError>)
      requires Live()
      modifies this
      ensures Live() && SafePoints(checks, points) && points[0] == old(disk) && Last(points) == disk
      ensures r == Respond(checks, old(Value()), request, f).result
      ensures Server(Value(), disk) == After(checks, old(Server(Value(), disk)), Call(request, f))
      ensures points == CrashPoints(checks, old(Server(Value(), disk)), Call(request, f))
    {
      CallIsSafe(checks, Server(Value(), disk), Call(request, f));
      r := Dispatch(request, f);
    }

    /**
     * Answers any requests, whatever their writes do. The server stays sound, and
     * from every disk it passes through it would start again, sound.
     */
    method Serve(calls: seq<Call>) returns (ghost passed: seq<Disk>)
      requires Live()
      modifies this
      ensures Live() && Server(Value(), disk) == Final(checks, old(Server(Value(), disk)), calls)
      ensures passed == DisksPassed(checks, old(Server(Value(), disk)), calls)
      ensures forall d :: d in passed ==> Restarts(checks, d)
    {
      ghost var first := Server(Value(), disk);
      EveryPassedDiskRestarts(checks, first, calls);
      passed := [];
      for k := 0 to |calls|
        invariant Live()
        invariant Final(checks, first, calls) == Final(checks, Server(Value(), disk), calls[k..])
        invariant DisksPassed(checks, first, calls) == passed + DisksPassed(checks, Server(Value(), disk), calls[k..])
      {
        ghost var before, done := Server(Value(), disk), passed;
        var _ := Handle(calls[k].request, calls[k].faults);
        passed := passed + points;
        assert calls[k..][0] == calls[k] && calls[k..][1..] == calls[k + 1..];
        Regroup(done, points, DisksPassed(checks, Server(Value(), disk), calls[k + 1..]));
      }
      passed := passed + [disk];
    }
  }

  lemma Regroup(a: seq<Disk>, b: seq<Disk>, c: seq<Disk>)
    ensures a + (b + c) == (a + b) + c
  {
  }

  /** `load_or_migrate`: the store on disk if it validates, or a new one around the old configuration. */
  method LoadOrMigrate(rules: Rules, f: File<Store>, legacy: VntConfig) returns (r: Option<Store>)
    ensures r == LoadProfiles(rules, f, legacy)
  {
    if f.Missing? {
      return Some(FromLegacy(legacy));
    }
    if f.Garbled? {
      return None;
    }
    var valid := Validate(rules, f.value);
    return if valid then Some(f.value) else None;
  }

  /**
   * Starts a server, writing the migrated store in place if there was none; `writes`
   * says whether that works, and `left` is the disk also when the start then fails.
   */
  method Launch(checks: Checks, d: Disk, writes: bool) returns (r: Option<ApiState>, left: Disk)
    ensures r.Some? <==> Boot(checks, d).Some? && (d.profiles.Missing? ==> writes)
    ensures r.Some? ==> fresh(r.value) && r.value.checks == checks
    ensures r.Some? ==> Server(r.value.Value(), r.value.disk) == Launched(Boot(checks, d).value, left)
    ensures left == if d.profiles.Missing? && writes && ConfigFileOk(checks, d.config) then Migrated(d) else d
  {
    left := d;
    if !d.config.Holds? || !ConfigOk(checks, d.config.value) {
      return None, left;
    }
    var loaded := LoadOrMigrate(checks.rules, d.profiles, d.config.value.vnt);
    if loaded.None? || (d.profiles.Missing? && !writes) {
      return None, left;
    }
    var s := loaded.value;
    if d.profiles.Missing? {
      left := d.(profiles := Holds(s));
    }
    if d.settings.Garbled? || (d.settings.Holds? && !checks.settingsOk(d.settings.value)) {
      return None, left;
    }
    var config := d.config.value.(vnt := DefaultProfile(s).vnt);
    var settings := if d.settings.Holds? then d.settings.value else DEFAULT_SETTINGS;
    var api := new ApiState(checks, Booted(config, s, settings), left);
    return Some(api), left;
  }
}
