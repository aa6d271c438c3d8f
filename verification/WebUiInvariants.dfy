/** What the requests of the WebUI keep, when they succeed, and what a failure leaves behind. */
module WebUiInvariants {
  import opened Wrappers
  import opened ProfileIds
  import opened ProfileStore
  import opened ProfileStoreLaws
  import opened WebUiFiles
  import opened WebUiHandlers
  import opened RuntimePhase

  // Shared steps

  lemma StoredIsGood(checks: Checks, m: Memory, id: string)
    requires MemoryOk(checks, m) && Has(m.profiles.profiles, id)
    ensures ConfigGood(checks, m.config.(vnt := Find(m.profiles.profiles, id).value.vnt))
  {
    FoundIsOk(checks.rules, m.profiles, id);
  }

  lemma SaveStoreSound(checks: Checks, m: Memory, s: Store, fault: Fault)
    requires MemoryOk(checks, m)
    ensures var o := SaveStore(checks, m, s, fault);
      && Sound(checks, o.memory, o.writes) && NoneOf(ConfigKind, o.writes)
      && (o.result.Ok? <==> Valid(checks.rules, s) && Goes(fault))
      && o.memory == (if o.result.Ok? then m.(profiles := s) else m)
  {
  }

  /** A second save, of a configuration, after the one of a store. */
  lemma ActivateSound(checks: Checks, m: Memory, vnt: VntConfig, fault: Fault, ws: seq<Write>)
    requires Sound(checks, m, ws) && ConfigGood(checks, m.config.(vnt := vnt)) && |ws| <= 1 && NoneOf(ConfigKind, ws)
    ensures var o := Activate(checks, m, vnt, fault);
      && Sound(checks, o.memory, ws + o.writes)
      && (o.result.Ok? <==> fault.NoFault?)
      && o.memory == (if o.result.Ok? then m.(config := m.config.(vnt := vnt)) else m)
  {
    var o := Activate(checks, m, vnt, fault);
    assert o.writes == [WriteConfig(m.config.(vnt := vnt), fault)];
  }

  // Profiles

  /** The id the next profile would get is not taken. */
  predicate IdIsFree(s: Store) {
    !Has(s.profiles, IdFor(s.nextId))
  }

  lemma CreateSound(checks: Checks, m: Memory, input: ProfileInput, f: Faults)
    requires MemoryOk(checks, m)
    ensures var o := CreateProfile(checks, m, input, f);
      && Sound(checks, o.memory, o.writes) && Kept(m, o.memory)
      && (o.result.Ok? <==> InputOk(checks.rules, input) && IdIsFree(m.profiles) && Goes(f.profiles))
      && o.memory == (if o.result.Ok? then m.(profiles := Added(m.profiles, input)) else m)
  {
    if InputOk(checks.rules, input) {
      var s := Added(m.profiles, input);
      AddedIsValidExactly(checks.rules, m.profiles, input);
      if m.active.Some? && ActiveExists(m) {
        HasPrefix(m.profiles.profiles, [NewProfile(m.profiles.nextId, input)], m.active.value);
      }
      SaveStoreSound(checks, m, s, f.profiles);
    }
  }

  lemma CopySound(checks: Checks, m: Memory, id: string, f: Faults)
    requires MemoryOk(checks, m)
    ensures var o := CopyProfile(checks, m, id, f);
      && Sound(checks, o.memory, o.writes) && Kept(m, o.memory)
      && (o.result.Ok? <==>
            && Has(m.profiles.profiles, id) && InputOk(checks.rules, CopyOf(Find(m.profiles.profiles, id).value))
            && IdIsFree(m.profiles) && Goes(f.profiles))
      && o.memory == (if o.result.Ok? then m.(profiles := Added(m.profiles, CopyOf(Find(m.profiles.profiles, id).value))) else m)
  {
    if Has(m.profiles.profiles, id) {
      CreateSound(checks, m, CopyOf(Find(m.profiles.profiles, id).value), f);
    }
  }

  lemma EditedSound(checks: Checks, m: Memory, id: string, input: ProfileInput, fault: Fault)
    requires MemoryOk(checks, m) && InputOk(checks.rules, input) && Has(m.profiles.profiles, id)
    requires m.running.Some? ==> m.active != Some(id)
    ensures var o := SaveStore(checks, m, Edited(m.profiles, id, input), fault);
      && Sound(checks, o.memory, o.writes) && Kept(m, o.memory) && NoneOf(ConfigKind, o.writes)
      && (o.result.Ok? <==> Goes(fault))
      && o.memory == (if Goes(fault) then m.(profiles := Edited(m.profiles, id, input)) else m)
  {
    EditedFacts(checks.rules, m.profiles, id, input);
    if m.active.Some? {
      EditedFind(m.profiles, id, input, m.active.value);
    }
    SaveStoreSound(checks, m, Edited(m.profiles, id, input), fault);
  }

  /** The profile gets saved: it is not connected, exists, and the input and the write are fine. */
  predicate Editable(checks: Checks, m: Memory, id: string, input: ProfileInput, f: Faults) {
    && !(IsActive(m.phase) && m.active == Some(id))
    && InputOk(checks.rules, input) && Has(m.profiles.profiles, id) && Goes(f.profiles)
  }

  lemma UpdateSound(checks: Checks, m: Memory, id: string, input: ProfileInput, f: Faults)
    requires MemoryOk(checks, m)
    ensures var o := UpdateProfile(checks, m, id, input, f);
      && Sound(checks, o.memory, o.writes) && Kept(m, o.memory)
      && (o.result.Ok? <==> Editable(checks, m, id, input, f) && (m.active == Some(id) ==> f.config.NoFault?))
      && (!Editable(checks, m, id, input, f) ==> o.memory == m)
      && (Editable(checks, m, id, input, f) ==>
            o.memory == m.(
              profiles := Edited(m.profiles, id, input),
              config := if m.active == Some(id) && f.config.NoFault? then m.config.(vnt := input.vnt) else m.config))
  {
    if Has(m.profiles.profiles, id) && InputOk(checks.rules, input) && !(IsActive(m.phase) && m.active == Some(id)) {
      EditedSound(checks, m, id, input, f.profiles);
      var saved := SaveStore(checks, m, Edited(m.profiles, id, input), f.profiles);
      if saved.result.Ok? && m.active == Some(id) {
        ActivateSound(checks, saved.memory, input.vnt, f.config, saved.writes);
      }
    }
  }

  lemma RemovedHasOthers(s: Store, id: string, other: string)
    requires other != id
    ensures Has(Removed(s, id).profiles, other) <==> Has(s.profiles, other)
    ensures Find(Removed(s, id).profiles, other) == Find(s.profiles, other)
  {
    WithoutFind(s.profiles, id, other);
  }

  lemma DeleteSound(checks: Checks, m: Memory, id: string, f: Faults)
    requires MemoryOk(checks, m)
    ensures var o := DeleteProfile(checks, m, id, f);
      && Sound(checks, o.memory, o.writes) && Kept(m, o.memory)
      && (o.result.Ok? <==>
            !(IsActive(m.phase) && m.active == Some(id)) && Removable(m.profiles, id) && Goes(f.profiles))
      && o.memory == (if o.result.Ok?
                      then m.(profiles := Removed(m.profiles, id), active := if m.active == Some(id) then None else m.active)
                      else m)
      && (o.result.Ok? ==> !Has(o.memory.profiles.profiles, id))
  {
    if Removable(m.profiles, id) && !(IsActive(m.phase) && m.active == Some(id)) {
      var rest := m.(active := if m.active == Some(id) then None else m.active);
      WithoutValid(checks.rules, m.profiles, id);
      WithoutFacts(m.profiles.profiles, id);
      if rest.active.Some? {
        RemovedHasOthers(m.profiles, id, rest.active.value);
      }
      SaveStoreSound(checks, rest, Removed(m.profiles, id), f.profiles);
    }
  }

  /**
   * Once the store is saved the profile asked for is the default, and nothing else of
   * the store changes; a stopped server also takes over its configuration, if that
   * can be saved.
   */
  lemma MakeDefaultSound(checks: Checks, m: Memory, id: string, f: Faults)
    requires MemoryOk(checks, m)
    ensures var o := MakeDefault(checks, m, id, f);
      && Sound(checks, o.memory, o.writes) && Kept(m, o.memory)
      && (o.result.Ok? <==>
            Has(m.profiles.profiles, id) && Goes(f.profiles) && (IsActive(m.phase) || f.config.NoFault?))
      && (!(Has(m.profiles.profiles, id) && Goes(f.profiles)) ==> o.memory == m)
      && (Has(m.profiles.profiles, id) && Goes(f.profiles) ==>
            && o.memory.profiles.defaultId == id
            && o.memory.profiles.profiles == m.profiles.profiles && o.memory.profiles.nextId == m.profiles.nextId
            && o.memory.active == m.active && o.memory.running == m.running && o.memory.phase == m.phase
            && o.memory.settings == m.settings
            && o.memory.config == (if !IsActive(m.phase) && f.config.NoFault?
                                   then m.config.(vnt := Find(m.profiles.profiles, id).value.vnt) else m.config))
  {
    if Has(m.profiles.profiles, id) {
      var s := m.profiles.(defaultId := id);
      SaveStoreSound(checks, m, s, f.profiles);
      var saved := SaveStore(checks, m, s, f.profiles);
      if saved.result.Ok? {
        StoredIsGood(checks, saved.memory, id);
        ActivateSound(checks, saved.memory, DefaultProfile(s).vnt, f.config, saved.writes);
      }
    }
  }

  // The whole configuration

  /** One profile with another configuration. */
  function Reconfigured(s: Store, id: string, vnt: VntConfig): Store
    requires Has(s.profiles, id)
  {
    Edited(s, id, ProfileInput(Find(s.profiles, id).value.name, vnt))
  }

  lemma PutConfigSound(checks: Checks, m: Memory, vnt: VntConfig, f: Faults)
    requires MemoryOk(checks, m)
    ensures var o := PutConfig(checks, m, vnt, f);
      && Sound(checks, o.memory, o.writes) && Kept(m, o.memory)
      && (o.result.Ok? <==>
            && !IsActive(m.phase) && checks.rules.vntOk(vnt) && checks.rules.coreOk(vnt)
            && Has(m.profiles.profiles, SelectedId(m)) && f.config.NoFault? && Goes(f.profiles))
      && (o.result.Ok? ==>
            && o.memory.config.vnt == vnt && Has(o.memory.profiles.profiles, SelectedId(m))
            && Find(o.memory.profiles.profiles, SelectedId(m)).value.vnt == vnt
            && o.memory == m.(config := m.config.(vnt := vnt), profiles := Reconfigured(m.profiles, SelectedId(m), vnt)))
      && (o.result.Err? ==> o.memory == m)
  {
    if checks.rules.vntOk(vnt) && checks.rules.coreOk(vnt) {
      EditSelectedSound(checks, m, SelectedId(m), vnt, f.profiles);
      var c := m.config.(vnt := vnt);
      var edit := EditSelected(checks, m.profiles, SelectedId(m), vnt, f.profiles);
      ConfigThenOne(checks, c, f.config, edit.writes);
    }
  }

  lemma ConfigThenOne(checks: Checks, c: AppConfig, fault: Fault, ws: seq<Write>)
    requires ConfigOk(checks, c) && WritesOk(checks, ws) && |ws| <= 1 && NoneOf(ConfigKind, ws)
    ensures WritesOk(checks, ConfigWrites(checks, c, fault)) && WritesOk(checks, ConfigWrites(checks, c, fault) + ws)
  {
  }

  lemma EditSelectedSound(checks: Checks, m: Memory, id: string, vnt: VntConfig, fault: Fault)
    requires Valid(checks.rules, m.profiles) && checks.rules.vntOk(vnt) && checks.rules.coreOk(vnt)
    ensures var edit := EditSelected(checks, m.profiles, id, vnt, fault);
      && WritesOk(checks, edit.writes) && |edit.writes| <= 1 && NoneOf(ConfigKind, edit.writes)
      && (edit.result.Ok? <==> Has(m.profiles.profiles, id) && Goes(fault))
      && (edit.result.Ok? ==>
            && Valid(checks.rules, edit.result.value) && edit.result.value == Reconfigured(m.profiles, id, vnt)
            && Has(edit.result.value.profiles, id) && Find(edit.result.value.profiles, id).value.vnt == vnt
            && (ActiveExists(m) ==> ActiveExists(m.(profiles := edit.result.value))))
  {
    if Has(m.profiles.profiles, id) {
      SelectedEdited(checks, m, id, vnt);
    }
  }

  lemma SelectedEdited(checks: Checks, m: Memory, id: string, vnt: VntConfig)
    requires Valid(checks.rules, m.profiles) && Has(m.profiles.profiles, id)
    requires checks.rules.vntOk(vnt) && checks.rules.coreOk(vnt)
    ensures var input := ProfileInput(Find(m.profiles.profiles, id).value.name, vnt);
      var s := Edited(m.profiles, id, input);
      && InputOk(checks.rules, input) && Valid(checks.rules, s)
      && Has(s.profiles, id) && Find(s.profiles, id).value.vnt == vnt
      && (ActiveExists(m) ==> ActiveExists(m.(profiles := s)))
  {
    var input := ProfileInput(Find(m.profiles.profiles, id).value.name, vnt);
    StoredNameIsOk(checks, m.profiles, id, vnt);
    EditedFacts(checks.rules, m.profiles, id, input);
    EditedFind(m.profiles, id, input, id);
    if m.active.Some? {
      EditedFind(m.profiles, id, input, m.active.value);
    }
  }

  lemma StoredNameIsOk(checks: Checks, s: Store, id: string, vnt: VntConfig)
    requires Valid(checks.rules, s) && Has(s.profiles, id) && checks.rules.vntOk(vnt) && checks.rules.coreOk(vnt)
    ensures InputOk(checks.rules, ProfileInput(Find(s.profiles, id).value.name, vnt))
  {
    assert ProfileOk(checks.rules, s.profiles[Position(s.profiles, id)]);
  }

  lemma ConnectedSound(checks: Checks, m: Memory, id: string, f: Faults)
    requires MemoryOk(checks, m) && Has(m.profiles.profiles, id)
    ensures var p := Find(m.profiles.profiles, id).value; var o := Connected(checks, m, p, f);
      && Sound(checks, o.memory, o.writes) && (ActiveExists(m) ==> ActiveExists(o.memory))
      && (m.running.None? ==> Agreement(o.memory))
      && (m.running.Some? && Agreement(m) ==>
            (Agreement(o.memory) <==> !f.config.NoFault? || p.vnt == m.running.value))
      && (o.result.Ok? <==> f.config.NoFault? && (m.running.Some? || f.connects))
      && (!f.config.NoFault? ==> o.memory == m)
      && (f.config.NoFault? ==>
            && o.memory.config == m.config.(vnt := p.vnt)
            && o.memory.profiles == m.profiles && o.memory.settings == m.settings
            && o.memory.active == (if o.result.Ok? then Some(id) else m.active)
            && (m.running.Some? ==> o.memory.running == m.running && o.memory.phase == m.phase)
            && (m.running.None? ==>
                  && o.memory.running == (if f.connects then Some(p.vnt) else None)
                  && o.memory.phase == (if f.connects then Running else Error)))
  {
    StoredIsGood(checks, m, id);
    ActivateSound(checks, m, Find(m.profiles.profiles, id).value.vnt, f.config, []);
    assert [] + Activate(checks, m, Find(m.profiles.profiles, id).value.vnt, f.config).writes
      == Activate(checks, m, Find(m.profiles.profiles, id).value.vnt, f.config).writes;
  }

  /**
   * A start while nothing runs leaves an agreeing network or none. On a running
   * network it leaves agreement exactly when its save fails or the default
   * profile's configuration is the one already running.
   */
  lemma StartSound(checks: Checks, m: Memory, f: Faults)
    requires MemoryOk(checks, m)
    ensures var o := Start(checks, m, f); var p := DefaultProfile(m.profiles);
      && Sound(checks, o.memory, o.writes) && (ActiveExists(m) ==> ActiveExists(o.memory))
      && (m.running.None? ==> Agreement(o.memory))
      && (m.running.Some? && Agreement(m) ==>
            (Agreement(o.memory) <==> !f.config.NoFault? || p.vnt == m.running.value))
      && (o.result.Ok? <==> f.config.NoFault? && (m.running.Some? || f.connects))
      && o.memory.active == (if o.result.Ok? then Some(m.profiles.defaultId) else m.active)
      && o.memory.config == (if f.config.NoFault? then m.config.(vnt := p.vnt) else m.config)
      && (m.running.Some? ==> o.memory.running == m.running && o.memory.phase == m.phase)
      && (m.running.None? ==> o.memory.running == if o.result.Ok? then Some(p.vnt) else None)
      && o.memory.profiles == m.profiles && o.memory.settings == m.settings
  {
    ConnectedSound(checks, m, m.profiles.defaultId, f);
  }

  /** Connecting stops first, so it always ends in agreement. */
  lemma ConnectSound(checks: Checks, m: Memory, id: string, f: Faults)
    requires MemoryOk(checks, m)
    ensures var o := Connect(checks, m, id, f);
      && Sound(checks, o.memory, o.writes) && (ActiveExists(m) ==> ActiveExists(o.memory))
      && (Agreement(m) || Has(m.profiles.profiles, id) ==> Agreement(o.memory))
      && (o.result.Ok? <==> Has(m.profiles.profiles, id) && f.config.NoFault? && f.connects)
      && (o.result.Ok? ==> o.memory.running == Some(Find(m.profiles.profiles, id).value.vnt) && o.memory.active == Some(id))
      && (o.result.Err? && Has(m.profiles.profiles, id) ==> o.memory.running == None && o.memory.active == m.active)
      && (Has(m.profiles.profiles, id) ==>
            o.memory.config == if f.config.NoFault? then m.config.(vnt := Find(m.profiles.profiles, id).value.vnt) else m.config)
      && (!Has(m.profiles.profiles, id) ==> o.memory == m)
      && o.memory.profiles == m.profiles && o.memory.settings == m.settings
  {
    if Has(m.profiles.profiles, id) {
      ConnectedSound(checks, Halted(m), id, f);
    }
  }

  /**
   * An import whose store is saved but whose configuration is not keeps the new
   * store and the old active id: the id survives exactly when the new store has it.
   */
  lemma ImportSound(checks: Checks, m: Memory, request: Import, f: Faults)
    requires MemoryOk(checks, m)
    ensures var o := ImportInto(checks, m, request, f); var s := ImportCandidate(m.profiles, request);
      && Sound(checks, o.memory, o.writes) && (Agreement(m) ==> Agreement(o.memory))
      && (o.result.Ok? <==>
            && !IsActive(m.phase) && ImportOk(checks.rules, m.profiles, request)
            && Goes(f.profiles) && f.config.NoFault?)
      && (o.result.Ok? ==>
            o.memory == m.(profiles := s, active := None, config := m.config.(vnt := DefaultProfile(s).vnt)))
      && (o.result.Err? ==>
            o.memory == (if !IsActive(m.phase) && ImportOk(checks.rules, m.profiles, request) && Goes(f.profiles)
                         then m.(profiles := s) else m))
      && (ActiveExists(m) ==>
            (ActiveExists(o.memory) <==>
               || IsActive(m.phase) || !ImportOk(checks.rules, m.profiles, request) || !Goes(f.profiles)
               || f.config.NoFault? || m.active.None? || Has(s.profiles, m.active.value)))
  {
    if !IsActive(m.phase) && ImportOk(checks.rules, m.profiles, request) {
      var s := ImportCandidate(m.profiles, request);
      SaveStoreSound(checks, m, s, f.profiles);
      var saved := SaveStore(checks, m, s, f.profiles);
      if saved.result.Ok? {
        StoredIsGood(checks, saved.memory, s.defaultId);
        ActivateSound(checks, saved.memory, DefaultProfile(s).vnt, f.config, saved.writes);
      }
    }
  }

  lemma PutSettingsSound(checks: Checks, m: Memory, s: AppSettings, auto: bool, f: Faults)
    requires MemoryOk(checks, m)
    ensures var o := PutSettings(checks, m, s, auto, f);
      && Sound(checks, o.memory, o.writes) && Kept(m, o.memory)
      && (o.result.Ok? <==> checks.settingsOk(s) && f.config.NoFault? && Goes(f.settings))
      && o.memory == (if o.result.Ok? then m.(settings := s, config := m.config.(autoStart := auto)) else m)
  {
  }

  lemma PutTokenSound(checks: Checks, m: Memory, token: string, f: Faults)
    requires MemoryOk(checks, m)
    ensures var o := PutToken(checks, m, token, f);
      && Sound(checks, o.memory, o.writes) && Kept(m, o.memory)
      && (o.result.Ok? <==> checks.webOk(m.config.web.(token := Some(Trim(token)))) && f.config.NoFault?)
      && o.memory == (if o.result.Ok?
                      then m.(config := m.config.(web := m.config.web.(token := Some(Trim(token))))) else m)
  {
  }

  lemma ReplaceAllSound(checks: Checks, m: Memory, s: Store, settings: AppSettings, c: AppConfig, f: Faults)
    requires MemoryOk(checks, m) && m.running.None?
    requires Valid(checks.rules, s) && checks.settingsOk(settings) && ConfigGood(checks, c)
    ensures var o := ReplaceAll(checks, m, s, settings, c, f);
      && Sound(checks, o.memory, o.writes) && Kept(m, o.memory)
      && (o.result.Ok? <==> Goes(f.profiles) && Goes(f.settings) && f.config.NoFault?)
      && o.memory == (if o.result.Ok? then m.(profiles := s, settings := settings, config := c, active := None) else m)
  {
  }

  lemma RestoreSound(checks: Checks, m: Memory, backup: FullBackup, f: Faults)
    requires MemoryOk(checks, m)
    ensures var o := Restore(checks, m, backup, f); var request := Import(Replace, backup.profiles);
      && Sound(checks, o.memory, o.writes) && Kept(m, o.memory)
      && (o.result.Ok? <==>
            && !IsActive(m.phase) && backup.schemaVersion == 1 && checks.settingsOk(backup.settings)
            && ImportOk(checks.rules, m.profiles, request)
            && Goes(f.profiles) && Goes(f.settings) && f.config.NoFault?)
      && (o.result.Ok? ==>
            var s := ImportCandidate(m.profiles, request);
            o.memory == m.(
              profiles := s, settings := backup.settings, active := None,
              config := m.config.(autoStart := backup.autoConnect, vnt := DefaultProfile(s).vnt)))
      && (o.result.Err? ==> o.memory == m)
  {
    var request := Import(Replace, backup.profiles);
    if !IsActive(m.phase) && checks.settingsOk(backup.settings) && ImportOk(checks.rules, m.profiles, request) {
      var s := ImportCandidate(m.profiles, request);
      var c := m.config.(autoStart := backup.autoConnect, vnt := DefaultProfile(s).vnt);
      FoundIsOk(checks.rules, s, s.defaultId);
      ReplaceAllSound(checks, m, s, backup.settings, c, f);
    }
  }

  lemma ClearSound(checks: Checks, m: Memory, f: Faults)
    requires MemoryOk(checks, m) && checks.settingsOk(DEFAULT_SETTINGS)
    ensures var o := Clear(checks, m, f);
      && Sound(checks, o.memory, o.writes) && Kept(m, o.memory)
      && (o.result.Ok? <==> !IsActive(m.phase) && Goes(f.profiles) && Goes(f.settings) && f.config.NoFault?)
      && (o.result.Ok? ==>
            && o.memory.config == m.config.(autoStart := false) && o.memory.settings == DEFAULT_SETTINGS
            && o.memory.active == None && o.memory.running == m.running && o.memory.phase == m.phase
            && Fresh(o.memory.profiles) && |o.memory.profiles.profiles| == 1
            && DefaultProfile(o.memory.profiles) == NetworkProfile("profile-1", LEGACY_NAME, m.config.vnt))
      && (o.result.Err? ==> o.memory == m)
  {
    if !IsActive(m.phase) {
      LegacyIsValidExactly(checks.rules, m.config.vnt);
      LegacyIsFresh(m.config.vnt);
      ReplaceAllSound(checks, m, FromLegacy(m.config.vnt), DEFAULT_SETTINGS, m.config.(autoStart := false), f);
    }
  }
}
