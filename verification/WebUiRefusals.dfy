/** Why a request is refused, and that a refused request leaves no trace. */
module WebUiRefusals {
  import opened Wrappers
  import opened ProfileIds
  import opened ProfileStore
  import opened WebUiFiles
  import opened WebUiHandlers
  import opened WebUiInvariants
  import opened RuntimePhase

  /** Requests that need the network stopped, or the profile not in use. */
  predicate Busy(m: Memory, request: Request) {
    IsActive(m.phase) &&
    match request
    case PutNetwork(_) | PostImport(_) | PostRestore(_) | PostClear => true
    case PutProfile(id, _) => m.active == Some(id)
    case DropProfile(id) => m.active == Some(id)
    case _ => false
  }

  /** Requests whose content the server does not take. */
  ghost predicate Malformed(checks: Checks, m: Memory, request: Request) {
    match request
    case PutNetwork(vnt) => !checks.rules.vntOk(vnt) || !checks.rules.coreOk(vnt)
    case PostProfile(input) => !InputOk(checks.rules, input)
    case PutProfile(id, input) => !InputOk(checks.rules, input) || !Has(m.profiles.profiles, id)
    case DropProfile(id) => !Removable(m.profiles, id)
    case PostCopy(id) =>
      !Has(m.profiles.profiles, id) || !InputOk(checks.rules, CopyOf(Find(m.profiles.profiles, id).value))
    case PostDefault(id) => !Has(m.profiles.profiles, id)
    case PostImport(import') => !ImportOk(checks.rules, m.profiles, import')
    case PutAppSettings(settings, _) => !checks.settingsOk(settings)
    case PutAccessToken(token) => !checks.webOk(m.config.web.(token := Some(Trim(token))))
    case PostRestore(backup) =>
      || backup.schemaVersion != 1 || !checks.settingsOk(backup.settings)
      || !ImportOk(checks.rules, m.profiles, Import(Replace, backup.profiles))
    case PostStart | PostStop | PostConnect(_) | PostClear => false
  }

  predicate Nowhere(m: Memory, request: Request) {
    request.PostConnect? && !Has(m.profiles.profiles, request.id)
  }

  /** The answer to a request by the reason it is refused for, whatever would go wrong with the files. */
  ghost predicate RefusedRightly(checks: Checks, m: Memory, request: Request, o: Outcome<()>) {
    && (o.result == Err(Conflict) <==> Busy(m, request))
    && (o.result == Err(Absent) <==> Nowhere(m, request))
    && (o.result == Err(BadRequest) <==> !Busy(m, request) && Malformed(checks, m, request))
    && (o.result.Err? && o.result.error != Internal ==> o.memory == m && o.writes == [])
  }

  lemma StoreRefusals(checks: Checks, m: Memory, request: Request, f: Faults)
    requires MemoryOk(checks, m)
    requires request.PostProfile? || request.PutProfile? || request.DropProfile? || request.PostCopy?
             || request.PostDefault? || request.PostImport?
    ensures RefusedRightly(checks, m, request, Respond(checks, m, request, f))
  {
  }

  lemma PutConfigRefusals(checks: Checks, m: Memory, vnt: VntConfig, f: Faults)
    requires MemoryOk(checks, m)
    ensures RefusedRightly(checks, m, PutNetwork(vnt), PutConfig(checks, m, vnt, f))
  {
    if Has(m.profiles.profiles, SelectedId(m)) {
      FoundIsOk(checks.rules, m.profiles, SelectedId(m));
      assert ProfileOk(checks.rules, m.profiles.profiles[Position(m.profiles.profiles, SelectedId(m))]);
    }
  }

  /**
   * A request is refused as a conflict, as unknown or as malformed exactly for these
   * reasons, and then neither memory nor any file is touched. Any other failure is an
   * internal one.
   */
  lemma RefusesExactly(checks: Checks, m: Memory, request: Request, f: Faults)
    requires MemoryOk(checks, m)
    ensures RefusedRightly(checks, m, request, Respond(checks, m, request, f))
  {
    match request
    case PutNetwork(vnt) => PutConfigRefusals(checks, m, vnt, f);
    case PostProfile(_) | PutProfile(_, _) | DropProfile(_) | PostCopy(_) | PostDefault(_) | PostImport(_) =>
      StoreRefusals(checks, m, request, f);
    case _ =>
  }
}
