/** Whole runs of the WebUI server: any requests, any failing writes, a crash anywhere. */
module WebUiRuns {
  import opened Wrappers
  import opened ProfileStore
  import opened ProfileStoreLaws
  import opened WebUiFiles
  import opened WebUiHandlers
  import opened RuntimePhase
  import opened WebUiInvariants
  import opened WebUiSync

  /** A start that renames a running network: its save succeeds and the default profile is another network. */
  ghost predicate Relabels(m: Memory, request: Request, f: Faults) {
    && request.PostStart? && m.running.Some? && f.config.NoFault?
    && Has(m.profiles.profiles, m.profiles.defaultId) && DefaultProfile(m.profiles).vnt != m.running.value
  }

  /** An import whose store is saved and lacks the active profile, and whose configuration is not saved. */
  ghost predicate Dangles(checks: Checks, m: Memory, request: Request, f: Faults) {
    && request.PostImport? && !IsActive(m.phase) && ImportOk(checks.rules, m.profiles, request.request)
    && Goes(f.profiles) && !f.config.NoFault?
    && m.active.Some? && !Has(ImportCandidate(m.profiles, request.request).profiles, m.active.value)
  }

  /** What `RespondSound` says of one request. */
  ghost predicate Answers(checks: Checks, m: Memory, request: Request, f: Faults) {
    var o := Respond(checks, m, request, f);
    && Sound(checks, o.memory, o.writes)
    && (Agreement(m) ==> (Agreement(o.memory) <==> !Relabels(m, request, f)))
    && (ActiveExists(m) ==> (ActiveExists(o.memory) <==> !Dangles(checks, m, request, f)))
  }

  lemma StoreRequestSound(checks: Checks, m: Memory, request: Request, f: Faults)
    requires MemoryOk(checks, m)
    requires request.PostProfile? || request.PutProfile? || request.DropProfile? || request.PostCopy?
             || request.PostDefault? || request.PostImport?
    ensures Answers(checks, m, request, f)
  {
    match request
    case PostProfile(input) => CreateSound(checks, m, input, f);
    case PutProfile(id, input) => UpdateSound(checks, m, id, input, f);
    case DropProfile(id) => DeleteSound(checks, m, id, f);
    case PostCopy(id) => CopySound(checks, m, id, f);
    case PostDefault(id) => MakeDefaultSound(checks, m, id, f);
    case PostImport(import') => ImportSound(checks, m, import', f);
  }

  /**
   * Every request keeps memory and saves sound; agreement is lost exactly by a
   * start that relabels, and the active profile exactly by an import that dangles.
   */
  lemma RespondSound(checks: Checks, m: Memory, request: Request, f: Faults)
    requires MemoryOk(checks, m) && checks.settingsOk(DEFAULT_SETTINGS)
    ensures Answers(checks, m, request, f)
  {
    match request
    case PostStart => StartSound(checks, m, f);
    case PostStop =>
    case PostConnect(id) => ConnectSound(checks, m, id, f);
    case PutNetwork(vnt) => PutConfigSound(checks, m, vnt, f);
    case PutAppSettings(settings, auto) => PutSettingsSound(checks, m, settings, auto, f);
    case PutAccessToken(token) => PutTokenSound(checks, m, token, f);
    case PostRestore(backup) => RestoreSound(checks, m, backup, f);
    case PostClear => ClearSound(checks, m, f);
    case _ => StoreRequestSound(checks, m, request, f);
  }

  // Servers and runs

  datatype Server = Server(memory: Memory, disk: Disk)

  datatype Call = Call(request: Request, faults: Faults)

  ghost predicate ServerOk(checks: Checks, s: Server) {
    MemoryOk(checks, s.memory) && DiskOk(checks, s.disk)
  }

  /** The disks the server passes through while it answers. */
  ghost function CrashPoints(checks: Checks, s: Server, call: Call): seq<Disk> {
    Points(s.disk, Respond(checks, s.memory, call.request, call.faults).writes)
  }

  ghost function After(checks: Checks, s: Server, call: Call): Server {
    Server(Respond(checks, s.memory, call.request, call.faults).memory, Last(CrashPoints(checks, s, call)))
  }

  ghost function Final(checks: Checks, s: Server, calls: seq<Call>): Server
    decreases |calls|
  {
    if calls == [] then s else Final(checks, After(checks, s, calls[0]), calls[1..])
  }

  function Launched(b: Booted, d: Disk): Server {
    Server(Memory(b.config, b.profiles, b.settings, None, None, Stopped), d)
  }

  /** A server that starts from existing files starts sound and agreeing. */
  lemma LaunchIsOk(checks: Checks, d: Disk)
    requires DiskOk(checks, d) && checks.settingsOk(DEFAULT_SETTINGS)
    ensures Boot(checks, d).Some? && ServerOk(checks, Launched(Boot(checks, d).value, d))
    ensures Agreement(Launched(Boot(checks, d).value, d).memory)
  {
    BootsExactly(checks, d);
    FoundIsOk(checks.rules, d.profiles.value, d.profiles.value.defaultId);
  }

  lemma CallIsSafe(checks: Checks, s: Server, call: Call)
    requires ServerOk(checks, s) && checks.settingsOk(DEFAULT_SETTINGS)
    ensures SafePoints(checks, CrashPoints(checks, s, call)) && CrashPoints(checks, s, call)[0] == s.disk
    ensures ServerOk(checks, After(checks, s, call))
  {
    RespondSound(checks, s.memory, call.request, call.faults);
    PointsAreSafe(checks, s.disk, Respond(checks, s.memory, call.request, call.faults).writes);
    assert Last(CrashPoints(checks, s, call)) in CrashPoints(checks, s, call);
  }

  /** The store, configuration and settings, in memory and on disk, pass validation after every run. */
  lemma {:induction false} RunKeeps(checks: Checks, s: Server, calls: seq<Call>)
    requires ServerOk(checks, s) && checks.settingsOk(DEFAULT_SETTINGS)
    ensures ServerOk(checks, Final(checks, s, calls))
    decreases |calls|
  {
    if calls != [] {
      CallIsSafe(checks, s, calls[0]);
      RunKeeps(checks, After(checks, s, calls[0]), calls[1..]);
    }
  }

  // The store in memory and on disk

  predicate Synced(s: Server) {
    s.disk.profiles == Holds(s.memory.profiles)
  }

  /** A request keeps the two stores the same exactly when it is not a restore or clear cut short. */
  lemma CallSyncsExactly(checks: Checks, s: Server, call: Call)
    requires ServerOk(checks, s) && checks.settingsOk(DEFAULT_SETTINGS) && Synced(s)
    ensures Synced(After(checks, s, call)) <==> !Splits(checks, s.memory, call.request, call.faults)
  {
    RespondSyncsExactly(checks, s.memory, call.request, call.faults);
    StoreAfterIsOnDisk(s.disk, Respond(checks, s.memory, call.request, call.faults).writes);
  }

  ghost predicate NeverSplits(checks: Checks, s: Server, calls: seq<Call>)
    decreases |calls|
  {
    calls != [] ==>
      && !Splits(checks, s.memory, calls[0].request, calls[0].faults)
      && NeverSplits(checks, After(checks, s, calls[0]), calls[1..])
  }

  lemma {:induction false} RunSyncs(checks: Checks, s: Server, calls: seq<Call>)
    requires ServerOk(checks, s) && checks.settingsOk(DEFAULT_SETTINGS) && Synced(s) && NeverSplits(checks, s, calls)
    ensures Synced(Final(checks, s, calls))
    decreases |calls|
  {
    if calls != [] {
      CallIsSafe(checks, s, calls[0]);
      CallSyncsExactly(checks, s, calls[0]);
      RunSyncs(checks, After(checks, s, calls[0]), calls[1..]);
    }
  }

  // Crashes

  /**
   * What a crash of a sound server leaves: it starts again, sound, with the default
   * profile's configuration and all else as the three files hold it.
   */
  ghost predicate Restarts(checks: Checks, d: Disk) {
    && Boot(checks, d).Some?
    && ServerOk(checks, Launched(Boot(checks, d).value, d))
    && var b := Boot(checks, d).value;
       && b.config.vnt == DefaultProfile(b.profiles).vnt
       && StoreFrom(d, b) && WebFrom(d, b) && SettingsFrom(d, b)
  }

  lemma ValidDiskRestarts(checks: Checks, d: Disk)
    requires DiskOk(checks, d) && checks.settingsOk(DEFAULT_SETTINGS)
    ensures Restarts(checks, d)
  {
    LaunchIsOk(checks, d);
    BootsExactly(checks, d);
  }

  /**
   * In any sound state, what a crash leaves starts with each of store, settings, and
   * web configuration and auto-start as on disk before or after the request.
   */
  lemma CrashInCall(checks: Checks, s: Server, call: Call, k: nat)
    requires ServerOk(checks, s) && checks.settingsOk(DEFAULT_SETTINGS) && k < |CrashPoints(checks, s, call)|
    ensures var left := CrashPoints(checks, s, call)[k];
      && Restarts(checks, left)
      && (left.profiles == s.disk.profiles || left.profiles == After(checks, s, call).disk.profiles)
      && FromEither(s.disk, After(checks, s, call).disk, Boot(checks, left).value)
  {
    CallIsSafe(checks, s, call);
    var points := CrashPoints(checks, s, call);
    assert points[k] in points;
    ValidDiskRestarts(checks, points[k]);
    CrashRecovery(checks, points, k);
    assert BeforeOrAfter(StoreKind, points);
  }

  /**
   * Start from valid files, answer any requests with any failing writes, and die
   * between any two file operations of the next one: the server starts again and
   * is sound, with the content of each file from before or after that request. If no
   * restore or clear was cut short before, the store it starts with is the one the
   * handler found in memory, or the one it wrote; and that is the one it left in
   * memory, unless it is itself cut short.
   */
  lemma CrashAnywhere(checks: Checks, d: Disk, calls: seq<Call>, last: Call, k: nat)
    requires DiskOk(checks, d) && checks.settingsOk(DEFAULT_SETTINGS) && Boot(checks, d).Some?
    requires k < |CrashPoints(checks, Final(checks, Launched(Boot(checks, d).value, d), calls), last)|
    ensures var s := Final(checks, Launched(Boot(checks, d).value, d), calls);
      var left := CrashPoints(checks, s, last)[k];
      Restarts(checks, left) && FromEither(s.disk, After(checks, s, last).disk, Boot(checks, left).value)
    ensures var first := Launched(Boot(checks, d).value, d);
      var s := Final(checks, first, calls);
      var left := CrashPoints(checks, s, last)[k];
      NeverSplits(checks, first, calls) ==>
        && (left.profiles == Holds(s.memory.profiles) || left.profiles == After(checks, s, last).disk.profiles)
        && (!Splits(checks, s.memory, last.request, last.faults) ==>
              left.profiles == Holds(s.memory.profiles) || left.profiles == Holds(After(checks, s, last).memory.profiles))
  {
    var first := Launched(Boot(checks, d).value, d);
    var s := Final(checks, first, calls);
    LaunchIsOk(checks, d);
    BootsExactly(checks, d);
    RunKeeps(checks, first, calls);
    CrashInCall(checks, s, last, k);
    if NeverSplits(checks, first, calls) {
      RunSyncs(checks, first, calls);
      CallSyncsExactly(checks, s, last);
    }
  }

  /** All disks a server passes through while it answers some calls, with the one it ends on. */
  ghost function DisksPassed(checks: Checks, s: Server, calls: seq<Call>): seq<Disk>
    decreases |calls|
  {
    if calls == [] then [s.disk] else CrashPoints(checks, s, calls[0]) + DisksPassed(checks, After(checks, s, calls[0]), calls[1..])
  }

  lemma {:induction false} EveryPassedDiskRestarts(checks: Checks, s: Server, calls: seq<Call>)
    requires ServerOk(checks, s) && checks.settingsOk(DEFAULT_SETTINGS)
    ensures forall d :: d in DisksPassed(checks, s, calls) ==> Restarts(checks, d)
    decreases |calls|
  {
    if calls == [] {
      ValidDiskRestarts(checks, s.disk);
    } else {
      CallIsSafe(checks, s, calls[0]);
      forall k | 0 <= k < |CrashPoints(checks, s, calls[0])| ensures Restarts(checks, CrashPoints(checks, s, calls[0])[k]) {
        CrashInCall(checks, s, calls[0], k);
      }
      EveryPassedDiskRestarts(checks, After(checks, s, calls[0]), calls[1..]);
    }
  }

  const SETTINGS_FAIL := Faults(NoFault, NoFault, WriteFails, true)

  /**
   * The condition is needed: a clear whose settings save fails leaves the new store
   * on disk and the old one in memory. Whatever comes next, a crash before its
   * first file operation restarts with the cleared store, which the handler of a
   * stop, say, neither finds nor leaves in memory.
   */
  lemma FailedClearSplits(checks: Checks, s: Server)
    requires ServerOk(checks, s) && checks.settingsOk(DEFAULT_SETTINGS) && !IsActive(s.memory.phase)
    requires s.memory.profiles != FromLegacy(s.memory.config.vnt)
    ensures var s' := After(checks, s, Call(PostClear, SETTINGS_FAIL));
      var stop := Call(PostStop, NO_FAULTS);
      var left := CrashPoints(checks, s', stop)[0];
      && Restarts(checks, left)
      && left.profiles == Holds(FromLegacy(s.memory.config.vnt))
      && s'.memory.profiles == s.memory.profiles == After(checks, s', stop).memory.profiles
  {
    var clear, stop := Call(PostClear, SETTINGS_FAIL), Call(PostStop, NO_FAULTS);
    var store := FromLegacy(s.memory.config.vnt);
    CallIsSafe(checks, s, clear);
    ClearSound(checks, s.memory, SETTINGS_FAIL);
    LegacyIsValidExactly(checks.rules, s.memory.config.vnt);
    var one, two := WriteProfiles(store, NoFault), WriteSettings(DEFAULT_SETTINGS, WriteFails);
    assert [one] + [two] == [one, two];
    StoreAfterTwo(s.disk.profiles, one, two);
    StoreAfterIsOnDisk(s.disk, [one, two]);
    var s' := After(checks, s, clear);
    assert CrashPoints(checks, s', stop) == [s'.disk];
    CrashInCall(checks, s', stop, 0);
  }

  // Agreement

  ghost predicate NeverRelabels(checks: Checks, s: Server, calls: seq<Call>)
    decreases |calls|
  {
    calls != [] ==>
      && !Relabels(s.memory, calls[0].request, calls[0].faults)
      && NeverRelabels(checks, After(checks, s, calls[0]), calls[1..])
  }

  /** A running network agrees with the active profile and the configuration after every run without relabelling. */
  lemma {:induction false} RunAgrees(checks: Checks, s: Server, calls: seq<Call>)
    requires ServerOk(checks, s) && checks.settingsOk(DEFAULT_SETTINGS)
    requires Agreement(s.memory) && NeverRelabels(checks, s, calls)
    ensures Agreement(Final(checks, s, calls).memory)
    decreases |calls|
  {
    if calls != [] {
      CallIsSafe(checks, s, calls[0]);
      RespondSound(checks, s.memory, calls[0].request, calls[0].faults);
      RunAgrees(checks, After(checks, s, calls[0]), calls[1..]);
    }
  }

  /** Starts only while nothing runs never relabel. */
  ghost predicate StartsOnlyWhenStopped(checks: Checks, s: Server, calls: seq<Call>)
    decreases |calls|
  {
    calls != [] ==>
      && (calls[0].request.PostStart? ==> s.memory.running.None?)
      && StartsOnlyWhenStopped(checks, After(checks, s, calls[0]), calls[1..])
  }

  lemma {:induction false} StoppedStartsNeverRelabel(checks: Checks, s: Server, calls: seq<Call>)
    requires StartsOnlyWhenStopped(checks, s, calls)
    ensures NeverRelabels(checks, s, calls)
    decreases |calls|
  {
    if calls != [] {
      StoppedStartsNeverRelabel(checks, After(checks, s, calls[0]), calls[1..]);
    }
  }

  lemma RunningNetworkAgrees(checks: Checks, d: Disk, calls: seq<Call>)
    requires DiskOk(checks, d) && checks.settingsOk(DEFAULT_SETTINGS) && Boot(checks, d).Some?
    requires StartsOnlyWhenStopped(checks, Launched(Boot(checks, d).value, d), calls)
    ensures Agreement(Final(checks, Launched(Boot(checks, d).value, d), calls).memory)
  {
    LaunchIsOk(checks, d);
    StoppedStartsNeverRelabel(checks, Launched(Boot(checks, d).value, d), calls);
    RunAgrees(checks, Launched(Boot(checks, d).value, d), calls);
  }

  const NO_FAULTS := Faults(NoFault, NoFault, NoFault, true)

  lemma ConnectConnects(checks: Checks, m: Memory, id: string)
    requires MemoryOk(checks, m) && Has(m.profiles.profiles, id)
    ensures var m' := Respond(checks, m, PostConnect(id), NO_FAULTS).memory;
      && MemoryOk(checks, m') && Agreement(m') && m'.profiles == m.profiles
      && m'.running == Some(Find(m.profiles.profiles, id).value.vnt)
  {
    ConnectSound(checks, m, id, NO_FAULTS);
  }

  /**
   * The proviso is needed: connect a profile that is not the default and has
   * another configuration, then start. The old network still runs, under the name
   * and with the configuration of the default profile.
   */
  lemma StartOnRunningRelabels(checks: Checks, s: Server, id: string)
    requires ServerOk(checks, s) && checks.settingsOk(DEFAULT_SETTINGS) && Has(s.memory.profiles.profiles, id)
    requires Find(s.memory.profiles.profiles, id).value.vnt != DefaultProfile(s.memory.profiles).vnt
    ensures var s' := Final(checks, s, [Call(PostConnect(id), NO_FAULTS), Call(PostStart, NO_FAULTS)]);
      && !Agreement(s'.memory) && s'.memory.active == Some(DefaultProfile(s.memory.profiles).id)
      && s'.memory.running == Some(Find(s.memory.profiles.profiles, id).value.vnt)
  {
    var first, second := Call(PostConnect(id), NO_FAULTS), Call(PostStart, NO_FAULTS);
    ConnectConnects(checks, s.memory, id);
    var s1 := After(checks, s, first);
    ConnectedSound(checks, s1.memory, s1.memory.profiles.defaultId, NO_FAULTS);
    assert [first, second][1..] == [second] && [second][1..] == [];
    assert Final(checks, s1, [second]) == After(checks, s1, second);
  }

  // The active profile

  ghost predicate NeverDangles(checks: Checks, s: Server, calls: seq<Call>)
    decreases |calls|
  {
    calls != [] ==>
      && !Dangles(checks, s.memory, calls[0].request, calls[0].faults)
      && NeverDangles(checks, After(checks, s, calls[0]), calls[1..])
  }

  /** The active id names a profile after every run without such an import. */
  lemma {:induction false} RunKeepsActive(checks: Checks, s: Server, calls: seq<Call>)
    requires ServerOk(checks, s) && checks.settingsOk(DEFAULT_SETTINGS)
    requires ActiveExists(s.memory) && NeverDangles(checks, s, calls)
    ensures ActiveExists(Final(checks, s, calls).memory)
    decreases |calls|
  {
    if calls != [] {
      CallIsSafe(checks, s, calls[0]);
      RespondSound(checks, s.memory, calls[0].request, calls[0].faults);
      RunKeepsActive(checks, After(checks, s, calls[0]), calls[1..]);
    }
  }

  /** While the active id names no profile, every configuration update fails. */
  lemma DanglingActiveBlocksConfig(checks: Checks, m: Memory, vnt: VntConfig, f: Faults)
    requires MemoryOk(checks, m) && !ActiveExists(m)
    ensures PutConfig(checks, m, vnt, f).result.Err? && PutConfig(checks, m, vnt, f).memory == m
  {
    PutConfigSound(checks, m, vnt, f);
  }

  lemma FinalOfThree(checks: Checks, s: Server, a: Call, b: Call, c: Call)
    ensures Final(checks, s, [a, b, c]) == After(checks, After(checks, After(checks, s, a), b), c)
  {
    assert [a, b, c][1..] == [b, c] && [b, c][1..] == [c] && [c][1..] == [];
    assert Final(checks, After(checks, After(checks, s, a), b), [c])
        == After(checks, After(checks, After(checks, s, a), b), c);
    assert Final(checks, After(checks, s, a), [b, c]) == Final(checks, After(checks, After(checks, s, a), b), [c]);
  }

  const CONFIG_FAILS := Faults(WriteFails, NoFault, NoFault, true)

  /** A backup of one profile, called "profile-1", with the configuration the server has. */
  function SmallBackup(s: Server): Import {
    Import(Replace, BackupOf(FromLegacy(s.memory.config.vnt)))
  }

  lemma ImportDangles(checks: Checks, m: Memory, vnt: VntConfig)
    requires MemoryOk(checks, m) && !IsActive(m.phase) && m.active.Some? && m.active.value != "profile-1"
    requires checks.rules.vntOk(vnt) && checks.rules.coreOk(vnt) && checks.settingsOk(DEFAULT_SETTINGS)
    ensures var request := PostImport(Import(Replace, BackupOf(FromLegacy(vnt))));
      Dangles(checks, m, request, CONFIG_FAILS)
      && (ActiveExists(m) ==> !ActiveExists(Respond(checks, m, request, CONFIG_FAILS).memory))
  {
    LegacyIsValidExactly(checks.rules, vnt);
    OwnBackupRestores(checks.rules, FromLegacy(vnt), m.profiles);
    RespondSound(checks, m, PostImport(Import(Replace, BackupOf(FromLegacy(vnt)))), CONFIG_FAILS);
  }

  /**
   * Such a state is reached by connecting a profile other than "profile-1", stopping,
   * and replacing all profiles by a backup without it while the configuration cannot
   * be written.
   */
  lemma ImportLeavesDanglingActive(checks: Checks, s: Server, id: string)
    requires ServerOk(checks, s) && checks.settingsOk(DEFAULT_SETTINGS)
    requires Has(s.memory.profiles.profiles, id) && id != "profile-1"
    ensures var calls := [Call(PostConnect(id), NO_FAULTS), Call(PostStop, NO_FAULTS),
                          Call(PostImport(SmallBackup(s)), CONFIG_FAILS)];
      !ActiveExists(Final(checks, s, calls).memory)
  {
    var connect, stop := Call(PostConnect(id), NO_FAULTS), Call(PostStop, NO_FAULTS);
    var replace := Call(PostImport(SmallBackup(s)), CONFIG_FAILS);
    ConnectConnects(checks, s.memory, id);
    ConnectSound(checks, s.memory, id, NO_FAULTS);
    var s2 := After(checks, After(checks, s, connect), stop);
    assert MemoryOk(checks, s2.memory) && ActiveExists(s2.memory);
    ImportDangles(checks, s2.memory, s.memory.config.vnt);
    FinalOfThree(checks, s, connect, stop, replace);
  }

  // Full restores

  /** A full backup restored on another, stopped server brings over profiles, default, settings and auto-connect. */
  lemma BackupMoves(checks: Checks, from: Memory, to: Memory)
    requires MemoryOk(checks, from) && MemoryOk(checks, to) && !IsActive(to.phase)
    ensures var o := Restore(checks, to, Export(from), NO_FAULTS);
      && o.result.Ok? && o.memory.profiles.profiles == from.profiles.profiles
      && o.memory.profiles.defaultId == from.profiles.defaultId && o.memory.settings == from.settings
      && o.memory.config.autoStart == from.config.autoStart && o.memory.config.web == to.config.web
      && o.memory.config.vnt == DefaultProfile(from.profiles).vnt
  {
    OwnBackupRestores(checks.rules, from.profiles, to.profiles);
    RestoreSound(checks, to, Export(from), NO_FAULTS);
  }
}
