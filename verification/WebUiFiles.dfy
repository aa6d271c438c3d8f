/**
 * The three files of the Linux WebUI, what starting from them gives, and what a
 * crash between two file operations can leave behind.
 */
module WebUiFiles {
  import opened Wrappers
  import opened ProfileIds
  import opened ProfileStore
  import opened ProfileStoreLaws

  datatype WebConfig = WebConfig(loopback: bool, port: nat, token: Option<string>)

  datatype AppConfig = AppConfig(autoStart: bool, web: WebConfig, vnt: VntConfig)

  datatype AppSettings = AppSettings(experienceMode: string, themeMode: string, themeAccent: string, refresh: nat)

  const DEFAULT_SETTINGS := AppSettings("minimal", "system", "blue", 5)

  predicate WebOk(web: WebConfig) {
    web.port != 0 && (web.loopback || (web.token.Some? && Trim(web.token.value) != []))
  }

  predicate SettingsOk(s: AppSettings) {
    && s.experienceMode in ["minimal", "professional"]
    && s.themeMode in ["light", "dark", "system"]
    && s.themeAccent in ["blue", "green", "purple", "orange"]
    && s.refresh in [2, 5, 10, 30, 60]
  }

  /**
   * The checks a server applies. What follows holds for every choice of them that
   * accepts the default settings; `ServerChecks` is the program's own.
   */
  datatype Checks = Checks(rules: Rules, webOk: WebConfig -> bool, settingsOk: AppSettings -> bool)

  function ServerChecks(rules: Rules): (checks: Checks)
    ensures checks.settingsOk(DEFAULT_SETTINGS)
  {
    Checks(rules, WebOk, SettingsOk)
  }

  predicate ConfigOk(checks: Checks, c: AppConfig) {
    checks.webOk(c.web) && checks.rules.vntOk(c.vnt)
  }

  /** A file is absent, cut short by a write that did not finish, or holds a whole value. */
  datatype File<T> = Missing | Garbled | Holds(value: T)

  datatype Disk = Disk(
    config: File<AppConfig>,
    profiles: File<Store>,
    settings: File<AppSettings>,
    configTemp: File<AppConfig>,
    profilesTemp: File<Store>,
    settingsTemp: File<AppSettings>)

  // Starting

  datatype Booted = Booted(config: AppConfig, profiles: Store, settings: AppSettings)

  ghost predicate SettingsReadable(checks: Checks, f: File<AppSettings>) {
    f.Missing? || (f.Holds? && checks.settingsOk(f.value))
  }

  ghost function LoadProfiles(rules: Rules, f: File<Store>, legacy: VntConfig): Option<Store> {
    match f
    case Holds(s) => if Valid(rules, s) then Some(s) else None
    case Missing => Some(FromLegacy(legacy))
    case Garbled => None
  }

  /** `AppConfig::load` and then `ApiState::new`; None is a server that refuses to start. */
  ghost function Boot(checks: Checks, d: Disk): Option<Booted> {
    if !d.config.Holds? || !ConfigOk(checks, d.config.value) || !SettingsReadable(checks, d.settings) then None
    else match LoadProfiles(checks.rules, d.profiles, d.config.value.vnt)
      case None => None
      case Some(s) =>
        if !Has(s.profiles, s.defaultId) then None
        else
          var config := d.config.value.(vnt := DefaultProfile(s).vnt);
          Some(Booted(config, s, if d.settings.Holds? then d.settings.value else DEFAULT_SETTINGS))
  }

  predicate ConfigFileOk(checks: Checks, f: File<AppConfig>) {
    f.Holds? && ConfigOk(checks, f.value)
  }

  ghost predicate StoreFileOk(checks: Checks, f: File<Store>) {
    f.Holds? && Valid(checks.rules, f.value)
  }

  ghost predicate DiskOk(checks: Checks, d: Disk) {
    ConfigFileOk(checks, d.config) && StoreFileOk(checks, d.profiles) && SettingsReadable(checks, d.settings)
  }

  lemma FoundIsOk(rules: Rules, s: Store, id: string)
    requires Valid(rules, s) && Has(s.profiles, id)
    ensures rules.vntOk(Find(s.profiles, id).value.vnt) && rules.coreOk(Find(s.profiles, id).value.vnt)
  {
    assert ProfileOk(rules, s.profiles[Position(s.profiles, id)]);
  }

  // What a start takes from each file

  predicate StoreFrom(d: Disk, b: Booted) {
    d.profiles == Holds(b.profiles)
  }

  predicate WebFrom(d: Disk, b: Booted) {
    d.config.Holds? && b.config.web == d.config.value.web && b.config.autoStart == d.config.value.autoStart
  }

  /** Without a settings file the defaults apply. */
  predicate SettingsFrom(d: Disk, b: Booted) {
    if d.settings.Missing? then b.settings == DEFAULT_SETTINGS else d.settings == Holds(b.settings)
  }

  /** Once the profile file exists, starting succeeds exactly when the three files are valid. */
  lemma BootsExactly(checks: Checks, d: Disk)
    requires !d.profiles.Missing? && checks.settingsOk(DEFAULT_SETTINGS)
    ensures Boot(checks, d).Some? <==> DiskOk(checks, d)
    ensures Boot(checks, d).Some? ==>
      var b := Boot(checks, d).value;
      && ConfigOk(checks, b.config) && Valid(checks.rules, b.profiles) && checks.settingsOk(b.settings)
      && b.config.vnt == DefaultProfile(b.profiles).vnt
      && StoreFrom(d, b) && WebFrom(d, b) && SettingsFrom(d, b)
  {
    if DiskOk(checks, d) {
      FoundIsOk(checks.rules, d.profiles.value, d.profiles.value.defaultId);
    }
  }

  ghost function Migrated(d: Disk): Disk
    requires d.config.Holds?
  {
    d.(profiles := Holds(FromLegacy(d.config.value.vnt)))
  }

  /**
   * The first start writes the migrated store in place and without validating it.
   * It always starts; the next start succeeds exactly when the configuration also
   * converts to a core configuration, and never when the write was cut short.
   */
  lemma MigrationRestartsExactly(checks: Checks, d: Disk)
    requires d.config.Holds? && ConfigOk(checks, d.config.value) && d.profiles.Missing?
    requires SettingsReadable(checks, d.settings) && checks.settingsOk(DEFAULT_SETTINGS)
    ensures Boot(checks, d).Some? && WebFrom(d, Boot(checks, d).value) && SettingsFrom(d, Boot(checks, d).value)
    ensures Boot(checks, d).value.profiles == FromLegacy(d.config.value.vnt)
    ensures Boot(checks, d).value.config == d.config.value
    ensures Boot(checks, Migrated(d)).Some? <==> checks.rules.coreOk(d.config.value.vnt)
    ensures Boot(checks, d.(profiles := Garbled)).None?
  {
    BootsExactly(checks, Migrated(d));
    LegacyIsValidExactly(checks.rules, d.config.value.vnt);
  }

  // File operations

  datatype Fault = NoFault | WriteFails | ModeFails | RenameFails

  /** The profile and settings files have no mode step. */
  predicate Goes(fault: Fault) {
    fault.NoFault? || fault.ModeFails?
  }

  /** A save that passed validation, with what goes wrong in it. */
  datatype Write =
    | WriteConfig(config: AppConfig, fault: Fault)
    | WriteProfiles(profiles: Store, fault: Fault)
    | WriteSettings(settings: AppSettings, fault: Fault)

  /** The disks a save passes through: temporary file begun, temporary file whole, renamed. */
  function Ops(d: Disk, w: Write): (ds: seq<Disk>)
    ensures ds != []
  {
    match w
    case WriteConfig(c, fault) =>
      var begun, whole := d.(configTemp := Garbled), d.(configTemp := Holds(c));
      if fault.WriteFails? then [begun]
      else if !fault.NoFault? then [begun, whole]
      else [begun, whole, d.(config := Holds(c), configTemp := Missing)]
    case WriteProfiles(s, fault) =>
      var begun, whole := d.(profilesTemp := Garbled), d.(profilesTemp := Holds(s));
      if fault.WriteFails? then [begun]
      else if !Goes(fault) then [begun, whole]
      else [begun, whole, d.(profiles := Holds(s), profilesTemp := Missing)]
    case WriteSettings(s, fault) =>
      var begun, whole := d.(settingsTemp := Garbled), d.(settingsTemp := Holds(s));
      if fault.WriteFails? then [begun]
      else if !Goes(fault) then [begun, whole]
      else [begun, whole, d.(settings := Holds(s), settingsTemp := Missing)]
  }

  function Last(ds: seq<Disk>): Disk
    requires ds != []
  {
    ds[|ds| - 1]
  }

  /** All disks from the start of a request on, with the saves it makes. */
  function Points(d: Disk, ws: seq<Write>): (ds: seq<Disk>)
    ensures ds != []
  {
    if ws == [] then [d]
    else
      var front := Points(d, ws[..|ws| - 1]);
      front + Ops(Last(front), ws[|ws| - 1])
  }

  lemma PointsSnoc(d: Disk, ws: seq<Write>, w: Write)
    ensures Points(d, ws + [w]) == Points(d, ws) + Ops(Last(Points(d, ws)), w)
  {
    assert (ws + [w])[..|ws|] == ws;
  }

  /** One write to a temporary file, or one rename of a whole temporary file over its target. */
  predicate OneFileOp(a: Disk, b: Disk) {
    || b == a.(configTemp := b.configTemp)
    || b == a.(profilesTemp := b.profilesTemp)
    || b == a.(settingsTemp := b.settingsTemp)
    || (a.configTemp.Holds? && b == a.(config := a.configTemp, configTemp := Missing))
    || (a.profilesTemp.Holds? && b == a.(profiles := a.profilesTemp, profilesTemp := Missing))
    || (a.settingsTemp.Holds? && b == a.(settings := a.settingsTemp, settingsTemp := Missing))
  }

  predicate Trail(points: seq<Disk>) {
    forall i :: 0 < i < |points| ==> OneFileOp(points[i - 1], points[i])
  }

  datatype Kind = ConfigKind | StoreKind | SettingsKind

  function KindOf(w: Write): Kind {
    match w
    case WriteConfig(_, _) => ConfigKind
    case WriteProfiles(_, _) => StoreKind
    case WriteSettings(_, _) => SettingsKind
  }

  datatype Content = TheConfig(File<AppConfig>) | TheStore(File<Store>) | TheSettings(File<AppSettings>)

  /** What one of the three files holds. */
  function ContentOf(kind: Kind, d: Disk): Content {
    match kind
    case ConfigKind => TheConfig(d.config)
    case StoreKind => TheStore(d.profiles)
    case SettingsKind => TheSettings(d.settings)
  }

  predicate BeforeOrAfter(kind: Kind, points: seq<Disk>) {
    forall i :: 0 <= i < |points| ==>
      || ContentOf(kind, points[i]) == ContentOf(kind, points[0])
      || ContentOf(kind, points[i]) == ContentOf(kind, Last(points))
  }

  ghost predicate AllDisksOk(checks: Checks, points: seq<Disk>) {
    forall d :: d in points ==> DiskOk(checks, d)
  }

  /**
   * The disks one request passes through, one file operation apart: each is valid,
   * and each of its files is as on the first or as on the last disk.
   */
  ghost predicate SafePoints(checks: Checks, points: seq<Disk>) {
    points != [] && Trail(points) && AllDisksOk(checks, points) && forall kind :: BeforeOrAfter(kind, points)
  }

  ghost predicate WriteOk(checks: Checks, w: Write) {
    match w
    case WriteConfig(c, _) => ConfigOk(checks, c)
    case WriteProfiles(s, _) => Valid(checks.rules, s)
    case WriteSettings(s, _) => checks.settingsOk(s)
  }

  /** No file is saved twice. */
  predicate OneOfEach(ws: seq<Write>) {
    forall i, j :: 0 <= i < j < |ws| ==> KindOf(ws[i]) != KindOf(ws[j])
  }

  predicate NoneOf(kind: Kind, ws: seq<Write>) {
    forall w :: w in ws ==> KindOf(w) != kind
  }

  ghost predicate WritesOk(checks: Checks, ws: seq<Write>) {
    OneOfEach(ws) && forall w :: w in ws ==> WriteOk(checks, w)
  }

  // Each step is one file operation

  lemma OpsTrail(d: Disk, w: Write)
    ensures Trail([d] + Ops(d, w))
  {
  }

  lemma TrailAppend(points: seq<Disk>, ds: seq<Disk>)
    requires points != [] && Trail(points) && Trail([Last(points)] + ds)
    ensures Trail(points + ds)
  {
    var all, tail := points + ds, [Last(points)] + ds;
    forall i | 0 < i < |all|
      ensures OneFileOp(all[i - 1], all[i])
    {
      if i < |points| {
        assert all[i - 1] == points[i - 1] && all[i] == points[i];
      } else {
        assert all[i - 1] == tail[i - |points|] && all[i] == tail[i - |points| + 1];
      }
    }
  }

  lemma {:induction false} PointsTrail(d: Disk, ws: seq<Write>)
    ensures Trail(Points(d, ws))
  {
    if ws != [] {
      var front := Points(d, ws[..|ws| - 1]);
      PointsTrail(d, ws[..|ws| - 1]);
      OpsTrail(Last(front), ws[|ws| - 1]);
      TrailAppend(front, Ops(Last(front), ws[|ws| - 1]));
    }
  }

  // Every disk is valid

  /** What a save writes meets a test that its target has to meet. */
  predicate Meets(
    w: Write, config: File<AppConfig> -> bool, store: File<Store> -> bool, settings: File<AppSettings> -> bool)
  {
    match w
    case WriteConfig(c, _) => config(Holds(c))
    case WriteProfiles(s, _) => store(Holds(s))
    case WriteSettings(s, _) => settings(Holds(s))
  }

  lemma OpsKeep(
    d: Disk, w: Write, config: File<AppConfig> -> bool, store: File<Store> -> bool, settings: File<AppSettings> -> bool)
    requires config(d.config) && store(d.profiles) && settings(d.settings) && Meets(w, config, store, settings)
    ensures forall p :: p in Ops(d, w) ==> config(p.config) && store(p.profiles) && settings(p.settings)
  {
  }

  lemma OpsAreOk(checks: Checks, d: Disk, w: Write)
    requires DiskOk(checks, d) && WriteOk(checks, w)
    ensures AllDisksOk(checks, Ops(d, w))
  {
    OpsKeep(d, w, f => ConfigFileOk(checks, f), f => StoreFileOk(checks, f), f => SettingsReadable(checks, f));
  }

  lemma {:induction false} PointsAreOk(checks: Checks, d: Disk, ws: seq<Write>)
    requires DiskOk(checks, d) && forall w :: w in ws ==> WriteOk(checks, w)
    ensures AllDisksOk(checks, Points(d, ws))
  {
    if ws != [] {
      var front := Points(d, ws[..|ws| - 1]);
      PointsAreOk(checks, d, ws[..|ws| - 1]);
      assert Last(front) in front;
      OpsAreOk(checks, Last(front), ws[|ws| - 1]);
    }
  }

  // Each file changes at most once

  lemma OpsKeepOtherFiles(kind: Kind, d: Disk, w: Write)
    ensures forall i :: 0 <= i < |Ops(d, w)| - 1 ==> ContentOf(kind, Ops(d, w)[i]) == ContentOf(kind, d)
    ensures KindOf(w) != kind ==> ContentOf(kind, Last(Ops(d, w))) == ContentOf(kind, d)
  {
  }

  lemma {:induction false} PointsWithout(kind: Kind, d: Disk, ws: seq<Write>)
    requires NoneOf(kind, ws)
    ensures forall p :: p in Points(d, ws) ==> ContentOf(kind, p) == ContentOf(kind, d)
  {
    if ws != [] {
      var front := Points(d, ws[..|ws| - 1]);
      PointsWithout(kind, d, ws[..|ws| - 1]);
      assert Last(front) in front;
      OpsKeepOtherFiles(kind, Last(front), ws[|ws| - 1]);
    }
  }

  lemma BeforeOrAfterAppend(kind: Kind, points: seq<Disk>, ds: seq<Disk>)
    requires points != [] && ds != [] && BeforeOrAfter(kind, points)
    requires forall i :: 0 <= i < |ds| - 1 ==> ContentOf(kind, ds[i]) == ContentOf(kind, Last(points))
    requires || ContentOf(kind, Last(points)) == ContentOf(kind, points[0])
             || ContentOf(kind, Last(ds)) == ContentOf(kind, Last(points))
    ensures BeforeOrAfter(kind, points + ds)
  {
    var all := points + ds;
    assert Last(all) == Last(ds) && all[0] == points[0];
    forall i | 0 <= i < |all|
      ensures ContentOf(kind, all[i]) == ContentOf(kind, all[0]) || ContentOf(kind, all[i]) == ContentOf(kind, Last(all))
    {
      assert all[i] == if i < |points| then points[i] else ds[i - |points|];
    }
  }

  lemma {:induction false} PointsBeforeOrAfter(kind: Kind, d: Disk, ws: seq<Write>)
    requires OneOfEach(ws)
    ensures BeforeOrAfter(kind, Points(d, ws)) && Points(d, ws)[0] == d
  {
    if ws != [] {
      var front, w := ws[..|ws| - 1], ws[|ws| - 1];
      var points := Points(d, front);
      PointsBeforeOrAfter(kind, d, front);
      OpsKeepOtherFiles(kind, Last(points), w);
      if KindOf(w) == kind {
        assert forall i :: 0 <= i < |front| ==> front[i] == ws[i];
        PointsWithout(kind, d, front);
        assert Last(points) in points;
      }
      BeforeOrAfterAppend(kind, points, Ops(Last(points), w));
    }
  }

  /** Saves of valid values, at most one of each file, never leave the server unable to start. */
  lemma PointsAreSafe(checks: Checks, d: Disk, ws: seq<Write>)
    requires DiskOk(checks, d) && WritesOk(checks, ws)
    ensures SafePoints(checks, Points(d, ws)) && Points(d, ws)[0] == d
  {
    PointsTrail(d, ws);
    PointsAreOk(checks, d, ws);
    PointsBeforeOrAfter(StoreKind, d, ws);
    forall kind ensures BeforeOrAfter(kind, Points(d, ws)) {
      PointsBeforeOrAfter(kind, d, ws);
    }
  }

  /** A start takes each file as it is on one of the two disks. */
  predicate FromEither(first: Disk, last: Disk, b: Booted) {
    && (StoreFrom(first, b) || StoreFrom(last, b))
    && (WebFrom(first, b) || WebFrom(last, b))
    && (SettingsFrom(first, b) || SettingsFrom(last, b))
  }

  /**
   * A process that dies between any two file operations of a request starts again
   * with valid values: the store, the settings, and the web configuration and
   * auto-start, each from before or after the request, and the configuration of
   * that store's default profile.
   */
  lemma CrashRecovery(checks: Checks, points: seq<Disk>, k: nat)
    requires SafePoints(checks, points) && k < |points| && checks.settingsOk(DEFAULT_SETTINGS)
    ensures Boot(checks, points[k]).Some?
    ensures var b := Boot(checks, points[k]).value;
      && FromEither(points[0], Last(points), b)
      && ConfigOk(checks, b.config) && Valid(checks.rules, b.profiles) && checks.settingsOk(b.settings)
      && b.config.vnt == DefaultProfile(b.profiles).vnt
  {
    assert points[k] in points;
    BootsExactly(checks, points[k]);
    assert BeforeOrAfter(ConfigKind, points) && BeforeOrAfter(StoreKind, points) && BeforeOrAfter(SettingsKind, points);
  }
}
