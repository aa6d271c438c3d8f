/**
 * What each request of the WebUI makes of the server's memory and which saves it
 * makes, as functions of the memory and of what goes wrong; and what they keep.
 */
module WebUiHandlers {
  import opened Wrappers
  import opened ProfileIds
  import opened ProfileStore
  import opened ProfileStoreLaws
  import opened WebUiFiles
  import opened RuntimePhase

  datatype ApiError = BadRequest | Absent | Conflict | Internal

  /** Which save fails and how, and whether the network would connect. */
  datatype Faults = Faults(config: Fault, profiles: Fault, settings: Fault, connects: bool)

  datatype FullBackup = FullBackup(schemaVersion: nat, autoConnect: bool, settings: AppSettings, profiles: Backup)

  datatype Memory = Memory(
    config: AppConfig,
    profiles: Store,
    settings: AppSettings,
    active: Option<string>,
    running: Option<VntConfig>,
    phase: Phase)

  datatype Outcome<R> = Outcome(result: Result<R, ApiError>, memory: Memory, writes: seq<Write>)

  // Invariants

  predicate PhaseOk(m: Memory) {
    (m.phase == Running <==> m.running.Some?) && m.phase != Starting
  }

  predicate ActiveExists(m: Memory) {
    m.active.Some? ==> Has(m.profiles.profiles, m.active.value)
  }

  ghost predicate ConfigGood(checks: Checks, c: AppConfig) {
    ConfigOk(checks, c) && checks.rules.coreOk(c.vnt)
  }

  ghost predicate MemoryOk(checks: Checks, m: Memory) {
    && Valid(checks.rules, m.profiles) && ConfigGood(checks, m.config) && checks.settingsOk(m.settings)
    && PhaseOk(m)
  }

  /** A running network is the one of the active profile and of the configuration. */
  predicate Agreement(m: Memory) {
    m.running.Some? ==>
      && m.active.Some? && Has(m.profiles.profiles, m.active.value)
      && Find(m.profiles.profiles, m.active.value).value.vnt == m.running.value
      && m.config.vnt == m.running.value
  }

  /** What a request keeps when it touches neither a running network nor the active profile. */
  predicate Kept(m: Memory, m': Memory) {
    (Agreement(m) ==> Agreement(m')) && (ActiveExists(m) ==> ActiveExists(m'))
  }

  /** What every request guarantees of the values in memory and of its saves. */
  ghost predicate Sound(checks: Checks, m: Memory, ws: seq<Write>) {
    MemoryOk(checks, m) && WritesOk(checks, ws)
  }

  // Steps shared by the handlers

  /** Saving validates first, and touches no file when that fails. */
  ghost function StoreWrites(checks: Checks, s: Store, fault: Fault): seq<Write> {
    if Valid(checks.rules, s) then [WriteProfiles(s, fault)] else []
  }

  function ConfigWrites(checks: Checks, c: AppConfig, fault: Fault): seq<Write> {
    if ConfigOk(checks, c) then [WriteConfig(c, fault)] else []
  }

  function SettingsWrites(checks: Checks, s: AppSettings, fault: Fault): seq<Write> {
    if checks.settingsOk(s) then [WriteSettings(s, fault)] else []
  }

  /** `save_profiles` */
  ghost function SaveStore(checks: Checks, m: Memory, s: Store, fault: Fault): Outcome<()> {
    var ws := StoreWrites(checks, s, fault);
    if Valid(checks.rules, s) && Goes(fault) then Outcome(Ok(()), m.(profiles := s), ws)
    else Outcome(Err(Internal), m, ws)
  }

  /** `activate_profile_config` */
  function Activate(checks: Checks, m: Memory, vnt: VntConfig, fault: Fault): Outcome<()> {
    var c := m.config.(vnt := vnt);
    var ws := ConfigWrites(checks, c, fault);
    if ConfigOk(checks, c) && fault.NoFault? then Outcome(Ok(()), m.(config := c), ws)
    else Outcome(Err(Internal), m, ws)
  }

  /** `VntController::start`: a running network is left alone. */
  function Started(m: Memory, vnt: VntConfig, connects: bool): Memory {
    if m.running.Some? then m
    else if connects then m.(running := Some(vnt), phase := Running)
    else m.(phase := Error)
  }

  // Handlers

  function SelectedId(m: Memory): string {
    if m.active.Some? then m.active.value else m.profiles.defaultId
  }

  datatype Edit = Edit(result: Result<Store, ApiError>, writes: seq<Write>)

  /** The selected profile gets the new configuration, in a store that is saved but not yet taken over. */
  ghost function EditSelected(checks: Checks, s: Store, id: string, vnt: VntConfig, fault: Fault): Edit {
    if !Has(s.profiles, id) then Edit(Err(Internal), [])
    else
      var input := ProfileInput(Find(s.profiles, id).value.name, vnt);
      if !InputOk(checks.rules, input) then Edit(Err(BadRequest), [])
      else
        var s' := Edited(s, id, input);
        var saved := Valid(checks.rules, s') && Goes(fault);
        Edit(if saved then Ok(s') else Err(Internal), StoreWrites(checks, s', fault))
  }

  ghost function PutConfig(checks: Checks, m: Memory, vnt: VntConfig, f: Faults): Outcome<()> {
    var c := m.config.(vnt := vnt);
    var ws := ConfigWrites(checks, c, f.config);
    if IsActive(m.phase) then Outcome(Err(Conflict), m, [])
    else if !ConfigOk(checks, c) || !checks.rules.coreOk(vnt) then Outcome(Err(BadRequest), m, [])
    else if !f.config.NoFault? then Outcome(Err(Internal), m, ws)
    else
      var edit := EditSelected(checks, m.profiles, SelectedId(m), vnt, f.profiles);
      match edit.result
      case Err(e) => Outcome(Err(e), m, ws + edit.writes)
      case Ok(s) => Outcome(Ok(()), m.(profiles := s, config := c), ws + edit.writes)
  }

  function Connected(checks: Checks, m: Memory, p: NetworkProfile, f: Faults): Outcome<()> {
    var a := Activate(checks, m, p.vnt, f.config);
    if a.result.Err? then a
    else
      var m' := Started(a.memory, p.vnt, f.connects);
      if m'.running.None? then Outcome(Err(Internal), m', a.writes)
      else Outcome(Ok(()), m'.(active := Some(p.id)), a.writes)
  }

  /** Without a default the program would panic; `RunKeeps` shows there always is one. */
  function Start(checks: Checks, m: Memory, f: Faults): Outcome<()> {
    if !Has(m.profiles.profiles, m.profiles.defaultId) then Outcome(Err(Internal), m, [])
    else Connected(checks, m, DefaultProfile(m.profiles), f)
  }

  function Halted(m: Memory): Memory {
    m.(running := None, phase := Stopped)
  }

  function Connect(checks: Checks, m: Memory, id: string, f: Faults): Outcome<()> {
    if !Has(m.profiles.profiles, id) then Outcome(Err(Absent), m, [])
    else Connected(checks, Halted(m), Find(m.profiles.profiles, id).value, f)
  }

  ghost function CreateProfile(checks: Checks, m: Memory, input: ProfileInput, f: Faults): Outcome<()> {
    if !InputOk(checks.rules, input) then Outcome(Err(BadRequest), m, [])
    else SaveStore(checks, m, Added(m.profiles, input), f.profiles)
  }

  ghost function CopyProfile(checks: Checks, m: Memory, id: string, f: Faults): Outcome<()> {
    if !Has(m.profiles.profiles, id) then Outcome(Err(BadRequest), m, [])
    else CreateProfile(checks, m, CopyOf(Find(m.profiles.profiles, id).value), f)
  }

  ghost function UpdateProfile(checks: Checks, m: Memory, id: string, input: ProfileInput, f: Faults): Outcome<()> {
    if IsActive(m.phase) && m.active == Some(id) then Outcome(Err(Conflict), m, [])
    else if !InputOk(checks.rules, input) || !Has(m.profiles.profiles, id) then Outcome(Err(BadRequest), m, [])
    else
      var saved := SaveStore(checks, m, Edited(m.profiles, id, input), f.profiles);
      if saved.result.Err? || m.active != Some(id) then saved
      else
        var a := Activate(checks, saved.memory, input.vnt, f.config);
        a.(writes := saved.writes + a.writes)
  }

  ghost function DeleteProfile(checks: Checks, m: Memory, id: string, f: Faults): Outcome<()> {
    if IsActive(m.phase) && m.active == Some(id) then Outcome(Err(Conflict), m, [])
    else if !Removable(m.profiles, id) then Outcome(Err(BadRequest), m, [])
    else
      var saved := SaveStore(checks, m, Removed(m.profiles, id), f.profiles);
      if saved.result.Ok? && m.active == Some(id) then saved.(memory := saved.memory.(active := None)) else saved
  }

  function Removed(s: Store, id: string): Store {
    s.(profiles := Without(s.profiles, id))
  }

  ghost function MakeDefault(checks: Checks, m: Memory, id: string, f: Faults): Outcome<()> {
    if !Has(m.profiles.profiles, id) then Outcome(Err(BadRequest), m, [])
    else
      var s := m.profiles.(defaultId := id);
      var saved := SaveStore(checks, m, s, f.profiles);
      if saved.result.Err? || IsActive(m.phase) then saved
      else
        var a := Activate(checks, saved.memory, DefaultProfile(s).vnt, f.config);
        a.(writes := saved.writes + a.writes)
  }

  ghost function ImportInto(checks: Checks, m: Memory, request: Import, f: Faults): Outcome<()> {
    if IsActive(m.phase) then Outcome(Err(Conflict), m, [])
    else if !ImportOk(checks.rules, m.profiles, request) then Outcome(Err(BadRequest), m, [])
    else
      var s := ImportCandidate(m.profiles, request);
      var saved := SaveStore(checks, m, s, f.profiles);
      if saved.result.Err? then saved
      else
        var a := Activate(checks, saved.memory, DefaultProfile(s).vnt, f.config);
        Outcome(a.result, if a.result.Ok? then a.memory.(active := None) else a.memory, saved.writes + a.writes)
  }

  ghost function PutSettings(checks: Checks, m: Memory, s: AppSettings, auto: bool, f: Faults): Outcome<()> {
    var c := m.config.(autoStart := auto);
    var ws := ConfigWrites(checks, c, f.config);
    if !checks.settingsOk(s) then Outcome(Err(BadRequest), m, [])
    else if !ConfigOk(checks, c) || !f.config.NoFault? then Outcome(Err(Internal), m, ws)
    else if !Goes(f.settings) then Outcome(Err(Internal), m, ws + SettingsWrites(checks, s, f.settings))
    else Outcome(Ok(()), m.(config := c, settings := s), ws + SettingsWrites(checks, s, f.settings))
  }

  ghost function PutToken(checks: Checks, m: Memory, token: string, f: Faults): Outcome<()> {
    var c := m.config.(web := m.config.web.(token := Some(Trim(token))));
    if !ConfigOk(checks, c) then Outcome(Err(BadRequest), m, [])
    else if !f.config.NoFault? then Outcome(Err(Internal), m, ConfigWrites(checks, c, f.config))
    else Outcome(Ok(()), m.(config := c), ConfigWrites(checks, c, f.config))
  }

  /** Three saves in a row, and all of memory taken over only after the last. */
  ghost function ReplaceAll(
    checks: Checks, m: Memory, s: Store, settings: AppSettings, c: AppConfig, f: Faults): Outcome<()>
  {
    var one := StoreWrites(checks, s, f.profiles);
    var two := one + SettingsWrites(checks, settings, f.settings);
    var all := two + ConfigWrites(checks, c, f.config);
    if !Valid(checks.rules, s) || !Goes(f.profiles) then Outcome(Err(Internal), m, one)
    else if !checks.settingsOk(settings) || !Goes(f.settings) then Outcome(Err(Internal), m, two)
    else if !ConfigOk(checks, c) || !f.config.NoFault? then Outcome(Err(Internal), m, all)
    else Outcome(Ok(()), m.(profiles := s, settings := settings, config := c, active := None), all)
  }

  ghost function Restore(checks: Checks, m: Memory, backup: FullBackup, f: Faults): Outcome<()> {
    var request := Import(Replace, backup.profiles);
    if IsActive(m.phase) then Outcome(Err(Conflict), m, [])
    else if backup.schemaVersion != 1 || !checks.settingsOk(backup.settings) then Outcome(Err(BadRequest), m, [])
    else if !ImportOk(checks.rules, m.profiles, request) then Outcome(Err(BadRequest), m, [])
    else
      var s := ImportCandidate(m.profiles, request);
      var c := m.config.(autoStart := backup.autoConnect, vnt := DefaultProfile(s).vnt);
      ReplaceAll(checks, m, s, backup.settings, c, f)
  }

  ghost function Clear(checks: Checks, m: Memory, f: Faults): Outcome<()> {
    if IsActive(m.phase) then Outcome(Err(Conflict), m, [])
    else ReplaceAll(checks, m, FromLegacy(m.config.vnt), DEFAULT_SETTINGS, m.config.(autoStart := false), f)
  }

  /** `export_backup`, without its time stamp. */
  function Export(m: Memory): FullBackup {
    FullBackup(1, m.config.autoStart, m.settings, BackupOf(m.profiles))
  }

  // Any request

  datatype Request =
    | PostStart
    | PostStop
    | PostConnect(id: string)
    | PutNetwork(vnt: VntConfig)
    | PostProfile(input: ProfileInput)
    | PutProfile(id: string, input: ProfileInput)
    | DropProfile(id: string)
    | PostCopy(id: string)
    | PostDefault(id: string)
    | PostImport(request: Import)
    | PutAppSettings(settings: AppSettings, auto: bool)
    | PutAccessToken(token: string)
    | PostRestore(backup: FullBackup)
    | PostClear

  ghost function Respond(checks: Checks, m: Memory, request: Request, f: Faults): Outcome<()> {
    match request
    case PostStart => Start(checks, m, f)
    case PostStop => Outcome(Ok(()), Halted(m), [])
    case PostConnect(id) => Connect(checks, m, id, f)
    case PutNetwork(vnt) => PutConfig(checks, m, vnt, f)
    case PostProfile(input) => CreateProfile(checks, m, input, f)
    case PutProfile(id, input) => UpdateProfile(checks, m, id, input, f)
    case DropProfile(id) => DeleteProfile(checks, m, id, f)
    case PostCopy(id) => CopyProfile(checks, m, id, f)
    case PostDefault(id) => MakeDefault(checks, m, id, f)
    case PostImport(import') => ImportInto(checks, m, import', f)
    case PutAppSettings(settings, auto) => PutSettings(checks, m, settings, auto, f)
    case PutAccessToken(token) => PutToken(checks, m, token, f)
    case PostRestore(backup) => Restore(checks, m, backup, f)
    case PostClear => Clear(checks, m, f)
  }
}
