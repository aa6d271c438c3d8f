/**
 * The session options of a remote-desktop client. The peer learns them once from
 * the snapshot in the login message and afterwards from one message per toggle;
 * the question is when the two ways of telling it agree.
 */
module SessionOptions {
  import opened Wrappers

  datatype BoolOption = NotSet | Yes | No

  datatype ConnType = DefaultConn | FileTransfer | PortForward | Rdp | ViewCamera | Terminal

  /** The boolean part of the saved configuration of a peer, and its free-form options. */
  datatype PeerConfig = PeerConfig(
    showRemoteCursor: bool, followRemoteCursor: bool, followRemoteWindow: bool, disableAudio: bool,
    disableClipboard: bool, lockAfterSessionEnd: bool, terminalPersistent: bool, privacyMode: bool,
    enableFileCopyPaste: bool, showQualityMonitor: bool, allowSwapKey: bool, viewOnly: bool, showMyCursor: bool,
    options: map<string, string>)

  datatype OptionMessage = OptionMessage(
    showRemoteCursor: BoolOption, followRemoteCursor: BoolOption, followRemoteWindow: BoolOption,
    disableAudio: BoolOption, disableClipboard: BoolOption, lockAfterSessionEnd: BoolOption,
    terminalPersistent: BoolOption, privacyMode: BoolOption, enableFileTransfer: BoolOption,
    blockInput: BoolOption, disableKeyboard: BoolOption, showMyCursor: BoolOption)

  const NOTHING := OptionMessage(NotSet, NotSet, NotSet, NotSet, NotSet, NotSet, NotSet, NotSet, NotSet, NotSet, NotSet, NotSet)

  /** The names `toggle_option` knows; any other name is a free-form option. */
  datatype Toggle =
    | ShowRemoteCursor | FollowRemoteCursor | FollowRemoteWindow | DisableAudio | DisableClipboard
    | LockAfterSessionEnd | TerminalPersistent | PrivacyMode | EnableFileCopyPaste | BlockInput | UnblockInput
    | ShowQualityMonitor | AllowSwapKey | ViewOnly | ShowMyCursor | Other(name: string)

  function Flag(b: bool): BoolOption {
    if b then Yes else No
  }

  function YesIf(b: bool): BoolOption {
    if b then Yes else NotSet
  }

  /** `get_option_message`, without image quality and codecs. */
  function Snapshot(conn: ConnType, c: PeerConfig): Option<OptionMessage> {
    match conn
    case PortForward | Rdp | FileTransfer => None
    case Terminal => if c.terminalPersistent then Some(NOTHING.(terminalPersistent := Yes)) else None
    case DefaultConn | ViewCamera =>
      Some(NOTHING.(
           disableKeyboard := YesIf(c.viewOnly),
           showRemoteCursor := YesIf(c.viewOnly || c.showRemoteCursor),
           showMyCursor := YesIf(c.viewOnly && c.showMyCursor),
           followRemoteCursor := YesIf(c.followRemoteCursor),
           followRemoteWindow := YesIf(c.followRemoteWindow),
           lockAfterSessionEnd := YesIf(!c.viewOnly && c.lockAfterSessionEnd),
           disableAudio := YesIf(c.disableAudio),
           enableFileTransfer := YesIf(!c.viewOnly && c.enableFileCopyPaste),
           disableClipboard := YesIf(c.viewOnly || c.disableClipboard)))
  }

  /** A free-form option is removed when it is set to something and set to "Y" otherwise. */
  function FreeForm(options: map<string, string>, key: string): map<string, string> {
    if key in options && options[key] != "" then options - {key} else options[key := "Y"]
  }

  /** What a toggle makes of the configuration it loaded. */
  function Toggled(c: PeerConfig, name: Toggle): (r: PeerConfig)
    ensures r.viewOnly == if name.ViewOnly? then !c.viewOnly else c.viewOnly
    ensures r.showMyCursor == if name.ShowMyCursor? then !c.showMyCursor else c.showMyCursor && !(name.ViewOnly? && c.viewOnly)
  {
    match name
    case ShowRemoteCursor => c.(showRemoteCursor := !c.showRemoteCursor)
    case FollowRemoteCursor => c.(followRemoteCursor := !c.followRemoteCursor)
    case FollowRemoteWindow => c.(followRemoteWindow := !c.followRemoteWindow)
    case DisableAudio => c.(disableAudio := !c.disableAudio)
    case DisableClipboard => c.(disableClipboard := !c.disableClipboard)
    case LockAfterSessionEnd => c.(lockAfterSessionEnd := !c.lockAfterSessionEnd)
    case TerminalPersistent => c.(terminalPersistent := !c.terminalPersistent)
    case EnableFileCopyPaste => c.(enableFileCopyPaste := !c.enableFileCopyPaste)
    case ShowQualityMonitor => c.(showQualityMonitor := !c.showQualityMonitor)
    case AllowSwapKey => c.(allowSwapKey := !c.allowSwapKey)
    case ViewOnly => if c.viewOnly then c.(viewOnly := false, showMyCursor := false) else c.(viewOnly := true)
    case ShowMyCursor => c.(showMyCursor := !c.showMyCursor)
    case PrivacyMode | BlockInput | UnblockInput => c
    case Other(key) => c.(options := FreeForm(c.options, key))
  }

  /** The message a toggle sends: `c` is the loaded configuration, `m` the one in memory. */
  function ToggleMessage(c: PeerConfig, m: PeerConfig, name: Toggle): Option<OptionMessage> {
    match name
    case ShowRemoteCursor => Some(NOTHING.(showRemoteCursor := Flag(!c.showRemoteCursor)))
    case FollowRemoteCursor => Some(NOTHING.(followRemoteCursor := Flag(!c.followRemoteCursor)))
    case FollowRemoteWindow => Some(NOTHING.(followRemoteWindow := Flag(!c.followRemoteWindow)))
    case DisableAudio => Some(NOTHING.(disableAudio := Flag(!c.disableAudio)))
    case DisableClipboard => Some(NOTHING.(disableClipboard := Flag(!c.disableClipboard)))
    case LockAfterSessionEnd => Some(NOTHING.(lockAfterSessionEnd := Flag(!c.lockAfterSessionEnd)))
    case TerminalPersistent => Some(NOTHING.(terminalPersistent := Flag(!c.terminalPersistent)))
    case PrivacyMode => Some(NOTHING.(privacyMode := Flag(!c.privacyMode)))
    case EnableFileCopyPaste => Some(NOTHING.(enableFileTransfer := Flag(!c.enableFileCopyPaste)))
    case BlockInput => Some(NOTHING.(blockInput := Yes))
    case UnblockInput => Some(NOTHING.(blockInput := No))
    case ShowQualityMonitor | AllowSwapKey => Some(NOTHING)
    case ViewOnly =>
      if !c.viewOnly then
        Some(NOTHING.(disableKeyboard := Yes, disableClipboard := Yes, showRemoteCursor := Yes,
                      enableFileTransfer := No, lockAfterSessionEnd := No))
      else
        Some(NOTHING.(disableKeyboard := No, disableClipboard := Flag(m.disableClipboard),
                      showRemoteCursor := Flag(m.showRemoteCursor), enableFileTransfer := Flag(m.enableFileCopyPaste),
                      lockAfterSessionEnd := Flag(m.lockAfterSessionEnd),
                      showMyCursor := if c.showMyCursor then No else NotSet))
    case ShowMyCursor => Some(NOTHING.(showMyCursor := Flag(!c.showMyCursor)))
    case Other(_) => None
  }

  /** The controlled side's connection state. */
  datatype PeerState = PeerState(
    lockAfterSessionEnd: bool, showRemoteCursor: bool, followRemoteCursor: bool, followRemoteWindow: bool,
    disableAudio: bool, enableFileTransfer: bool, disableClipboard: bool, disableKeyboard: bool, showMyCursor: bool)

  const FRESH := PeerState(false, false, false, false, false, false, false, false, false)

  function Set(current: bool, o: BoolOption): bool {
    if o == NotSet then current else o == Yes
  }

  /** How the controlled side applies an option message. */
  function Receive(p: PeerState, msg: Option<OptionMessage>): PeerState {
    match msg
    case None => p
    case Some(o) => PeerState(
      Set(p.lockAfterSessionEnd, o.lockAfterSessionEnd), Set(p.showRemoteCursor, o.showRemoteCursor),
      Set(p.followRemoteCursor, o.followRemoteCursor), Set(p.followRemoteWindow, o.followRemoteWindow),
      Set(p.disableAudio, o.disableAudio), Set(p.enableFileTransfer, o.enableFileTransfer),
      Set(p.disableClipboard, o.disableClipboard), Set(p.disableKeyboard, o.disableKeyboard),
      Set(p.showMyCursor, o.showMyCursor))
  }

  /** The peer is as a fresh login with this configuration would make it. */
  predicate Agrees(c: PeerConfig, p: PeerState) {
    p == Receive(FRESH, Snapshot(DefaultConn, c))
  }

  /**
   * When a single toggle leaves the peer in agreement: in view-only mode the four
   * forced options must end on their forced value, and the user's own cursor must
   * not be on outside view-only mode.
   */
  predicate Harmless(c: PeerConfig, name: Toggle) {
    match name
    case DisableClipboard => c.viewOnly ==> !c.disableClipboard
    case ShowRemoteCursor => c.viewOnly ==> !c.showRemoteCursor
    case EnableFileCopyPaste => c.viewOnly ==> c.enableFileCopyPaste
    case LockAfterSessionEnd => c.viewOnly ==> c.lockAfterSessionEnd
    case ShowMyCursor => c.viewOnly || c.showMyCursor
    case ViewOnly => c.viewOnly || !c.showMyCursor
    case _ => true
  }

  /** What a fresh login makes of the peer, field by field. */
  function Login(c: PeerConfig): PeerState {
    PeerState(!c.viewOnly && c.lockAfterSessionEnd, c.viewOnly || c.showRemoteCursor,
              c.followRemoteCursor, c.followRemoteWindow, c.disableAudio,
              !c.viewOnly && c.enableFileCopyPaste, c.viewOnly || c.disableClipboard,
              c.viewOnly, c.viewOnly && c.showMyCursor)
  }

  lemma AgreesMeans(c: PeerConfig, p: PeerState)
    ensures Agrees(c, p) <==> p == Login(c)
  {
  }

  /** The toggle's message takes a peer from the old login state to the new one. */
  predicate Follows(c: PeerConfig, name: Toggle) {
    Receive(Login(c), ToggleMessage(c, c, name)) == Login(Toggled(c, name))
  }

  lemma ViewOnlyFollowsExactly(c: PeerConfig)
    ensures Follows(c, ViewOnly) <==> Harmless(c, ViewOnly)
  {
  }

  lemma ClipboardFollowsExactly(c: PeerConfig)
    ensures Follows(c, DisableClipboard) <==> Harmless(c, DisableClipboard)
  {
  }

  lemma RemoteCursorFollowsExactly(c: PeerConfig)
    ensures Follows(c, ShowRemoteCursor) <==> Harmless(c, ShowRemoteCursor)
  {
  }

  lemma FilesFollowExactly(c: PeerConfig)
    ensures Follows(c, EnableFileCopyPaste) <==> Harmless(c, EnableFileCopyPaste)
  {
  }

  lemma LockFollowsExactly(c: PeerConfig)
    ensures Follows(c, LockAfterSessionEnd) <==> Harmless(c, LockAfterSessionEnd)
  {
  }

  lemma OwnCursorFollowsExactly(c: PeerConfig)
    ensures Follows(c, ShowMyCursor) <==> Harmless(c, ShowMyCursor)
  {
  }

  // Options that view-only does not override, or that the peer does not keep

  lemma FollowRemoteCursorFollows(c: PeerConfig)
    ensures Follows(c, FollowRemoteCursor)
  {
  }

  lemma FollowRemoteWindowFollows(c: PeerConfig)
    ensures Follows(c, FollowRemoteWindow)
  {
  }

  lemma DisableAudioFollows(c: PeerConfig)
    ensures Follows(c, DisableAudio)
  {
  }

  lemma ShowQualityMonitorFollows(c: PeerConfig)
    ensures Follows(c, ShowQualityMonitor)
  {
    assert Receive(Login(c), ToggleMessage(c, c, ShowQualityMonitor)) == Login(c);
    assert Login(Toggled(c, ShowQualityMonitor)) == Login(c);
  }

  lemma AllowSwapKeyFollows(c: PeerConfig)
    ensures Follows(c, AllowSwapKey)
  {
    assert Receive(Login(c), ToggleMessage(c, c, AllowSwapKey)) == Login(c);
    assert Login(Toggled(c, AllowSwapKey)) == Login(c);
  }

  lemma TerminalPersistentFollows(c: PeerConfig)
    ensures Follows(c, TerminalPersistent)
  {
    assert Receive(Login(c), ToggleMessage(c, c, TerminalPersistent)) == Login(c);
    assert Login(Toggled(c, TerminalPersistent)) == Login(c);
  }

  lemma PrivacyModeFollows(c: PeerConfig)
    ensures Follows(c, PrivacyMode)
  {
  }

  lemma BlockInputFollows(c: PeerConfig)
    ensures Follows(c, BlockInput)
  {
  }

  lemma UnblockInputFollows(c: PeerConfig)
    ensures Follows(c, UnblockInput)
  {
  }

  lemma OtherFollows(c: PeerConfig, key: string)
    ensures Follows(c, Other(key))
  {
    assert ToggleMessage(c, c, Other(key)) == None;
  }

  lemma FollowsExactly(c: PeerConfig, name: Toggle)
    ensures Follows(c, name) <==> Harmless(c, name)
  {
    match name
    case ViewOnly => ViewOnlyFollowsExactly(c);
    case DisableClipboard => ClipboardFollowsExactly(c);
    case ShowRemoteCursor => RemoteCursorFollowsExactly(c);
    case EnableFileCopyPaste => FilesFollowExactly(c);
    case LockAfterSessionEnd => LockFollowsExactly(c);
    case ShowMyCursor => OwnCursorFollowsExactly(c);
    case FollowRemoteCursor => FollowRemoteCursorFollows(c);
    case FollowRemoteWindow => FollowRemoteWindowFollows(c);
    case DisableAudio => DisableAudioFollows(c);
    case ShowQualityMonitor => ShowQualityMonitorFollows(c);
    case AllowSwapKey => AllowSwapKeyFollows(c);
    case TerminalPersistent => TerminalPersistentFollows(c);
    case PrivacyMode => PrivacyModeFollows(c);
    case BlockInput => BlockInputFollows(c);
    case UnblockInput => UnblockInputFollows(c);
    case Other(key) => OtherFollows(c, key);
  }

  /** From agreement, the toggle's message keeps agreement exactly when the toggle is harmless. */
  lemma ToggleAgreesExactly(c: PeerConfig, p: PeerState, name: Toggle)
    requires Agrees(c, p)
    ensures Agrees(Toggled(c, name), Receive(p, ToggleMessage(c, c, name))) <==> Harmless(c, name)
  {
    AgreesMeans(c, p);
    AgreesMeans(Toggled(c, name), Receive(p, ToggleMessage(c, c, name)));
    FollowsExactly(c, name);
  }

  class LoginConfigHandler {
    const connType: ConnType
    var config: PeerConfig
    /** What `PeerConfig::store` wrote last and `PeerConfig::load` reads. */
    var stored: PeerConfig

    constructor (connType: ConnType, saved: PeerConfig)
      ensures this.connType == connType && config == saved && stored == saved
    {
      this.connType := connType;
      config, stored := saved, saved;
    }

    method SaveConfig(c: PeerConfig)
      modifies this
      ensures config == c && stored == c
    {
      stored := c;
      config := c;
    }

    /** The branch for view-only: what it forces, or what the options in memory say. */
    method ToggleViewOnly(loaded: PeerConfig) returns (c: PeerConfig, option: OptionMessage)
      ensures c == Toggled(loaded, ViewOnly) && Some(option) == ToggleMessage(loaded, config, ViewOnly)
    {
      c := loaded.(viewOnly := !loaded.viewOnly);
      option := NOTHING;
      if c.viewOnly {
        option := option.(disableKeyboard := Yes, disableClipboard := Yes, showRemoteCursor := Yes);
        option := option.(enableFileTransfer := No, lockAfterSessionEnd := No);
      } else {
        option := option.(disableKeyboard := No, disableClipboard := Flag(config.disableClipboard));
        option := option.(showRemoteCursor := Flag(config.showRemoteCursor));
        option := option.(enableFileTransfer := Flag(config.enableFileCopyPaste));
        option := option.(lockAfterSessionEnd := Flag(config.lockAfterSessionEnd));
        if c.showMyCursor {
          c := c.(showMyCursor := false);
          option := option.(showMyCursor := No);
        }
      }
    }

    /** The branches that flip an option and report its new value. */
    method ToggleReported(loaded: PeerConfig, name: Toggle) returns (c: PeerConfig, option: OptionMessage)
      requires name in {ShowRemoteCursor, FollowRemoteCursor, FollowRemoteWindow, DisableAudio, DisableClipboard}
      ensures c == Toggled(loaded, name) && Some(option) == ToggleMessage(loaded, config, name)
    {
      c, option := loaded, NOTHING;
      if name == ShowRemoteCursor {
        c := c.(showRemoteCursor := !c.showRemoteCursor);
        option := option.(showRemoteCursor := Flag(c.showRemoteCursor));
      } else if name == FollowRemoteCursor {
        c := c.(followRemoteCursor := !c.followRemoteCursor);
        option := option.(followRemoteCursor := Flag(c.followRemoteCursor));
      } else if name == FollowRemoteWindow {
        c := c.(followRemoteWindow := !c.followRemoteWindow);
        option := option.(followRemoteWindow := Flag(c.followRemoteWindow));
      } else if name == DisableAudio {
        c := c.(disableAudio := !c.disableAudio);
        option := option.(disableAudio := Flag(c.disableAudio));
      } else {
        c := c.(disableClipboard := !c.disableClipboard);
        option := option.(disableClipboard := Flag(c.disableClipboard));
      }
    }

    /** The branches whose option the peer's picture of the session does not show. */
    method ToggleQuiet(loaded: PeerConfig, name: Toggle) returns (c: PeerConfig, option: OptionMessage)
      requires name in {PrivacyMode, BlockInput, UnblockInput, ShowQualityMonitor, AllowSwapKey}
      ensures c == Toggled(loaded, name) && Some(option) == ToggleMessage(loaded, config, name)
    {
      c, option := loaded, NOTHING;
      if name == PrivacyMode {
        option := option.(privacyMode := if c.privacyMode then No else Yes);
      } else if name == BlockInput {
        option := option.(blockInput := Yes);
      } else if name == UnblockInput {
        option := option.(blockInput := No);
      } else if name == ShowQualityMonitor {
        c := c.(showQualityMonitor := !c.showQualityMonitor);
      } else {
        c := c.(allowSwapKey := !c.allowSwapKey);
      }
    }

    /** The other branches that flip an option and report its new value. */
    method ToggleLoaded(loaded: PeerConfig, name: Toggle) returns (c: PeerConfig, option: OptionMessage)
      requires name in {LockAfterSessionEnd, TerminalPersistent, EnableFileCopyPaste, ShowMyCursor}
      ensures c == Toggled(loaded, name) && Some(option) == ToggleMessage(loaded, config, name)
    {
      c, option := loaded, NOTHING;
      if name == LockAfterSessionEnd {
        c := c.(lockAfterSessionEnd := !c.lockAfterSessionEnd);
        option := option.(lockAfterSessionEnd := Flag(c.lockAfterSessionEnd));
      } else if name == TerminalPersistent {
        c := c.(terminalPersistent := !c.terminalPersistent);
        option := option.(terminalPersistent := Flag(c.terminalPersistent));
      } else if name == EnableFileCopyPaste {
        c := c.(enableFileCopyPaste := !c.enableFileCopyPaste);
        option := option.(enableFileTransfer := Flag(c.enableFileCopyPaste));
      } else {
        c := c.(showMyCursor := !c.showMyCursor);
        option := option.(showMyCursor := Flag(c.showMyCursor));
      }
    }

    /** A free-form option is flipped in memory, which is then stored. */
    method ToggleFreeForm(key: string)
      modifies this
      ensures config == Toggled(old(config), Other(key)) && stored == config
    {
      if key in config.options && config.options[key] != "" {
        config := config.(options := config.options - {key});
      } else {
        config := config.(options := config.options[key := "Y"]);
      }
      stored := config;
    }

    /** `toggle_option`: everything but a free-form option works on the loaded configuration. */
    method ToggleOption(name: Toggle) returns (msg: Option<OptionMessage>)
      modifies this
      ensures msg == ToggleMessage(old(stored), old(config), name)
      ensures name.Other? ==> config == Toggled(old(config), name) && stored == config
      ensures name.BlockInput? || name.UnblockInput? ==> config == old(config) && stored == old(stored)
      ensures !name.Other? && !name.BlockInput? && !name.UnblockInput? ==>
                config == Toggled(old(stored), name) && stored == config
    {
      var c, option;
      match name {
        case Other(key) =>
          ToggleFreeForm(key);
          return None;
        case ViewOnly => c, option := ToggleViewOnly(stored);
        case ShowRemoteCursor | FollowRemoteCursor | FollowRemoteWindow | DisableAudio | DisableClipboard =>
          c, option := ToggleReported(stored, name);
        case PrivacyMode | BlockInput | UnblockInput | ShowQualityMonitor | AllowSwapKey =>
          c, option := ToggleQuiet(stored, name);
        case LockAfterSessionEnd | TerminalPersistent | EnableFileCopyPaste | ShowMyCursor =>
          c, option := ToggleLoaded(stored, name);
      }
      if !name.BlockInput? && !name.UnblockInput? {
        SaveConfig(c);
      }
      return Some(option);
    }

    /**
     * A toggle whose message reaches the peer: memory and store stay the same, and
     * a peer that agreed with them agrees again exactly when the toggle is harmless.
     */
    method Tell(name: Toggle, peer: PeerState) returns (after: PeerState)
      requires config == stored
      modifies this
      ensures config == stored == Toggled(old(config), name)
      ensures after == Receive(peer, ToggleMessage(old(config), old(config), name))
      ensures Agrees(old(config), peer) ==> (Agrees(config, after) <==> Harmless(old(config), name))
    {
      if Agrees(config, peer) {
        ToggleAgreesExactly(config, peer, name);
      }
      var msg := ToggleOption(name);
      after := Receive(peer, msg);
    }
  }

  /** The configuration and the peer after a run of toggles. */
  function RunConfig(c: PeerConfig, names: seq<Toggle>): PeerConfig
    decreases |names|
  {
    if names == [] then c else RunConfig(Toggled(c, names[0]), names[1..])
  }

  function RunPeer(c: PeerConfig, p: PeerState, names: seq<Toggle>): PeerState
    decreases |names|
  {
    if names == [] then p
    else RunPeer(Toggled(c, names[0]), Receive(p, ToggleMessage(c, c, names[0])), names[1..])
  }

  predicate Permitted(c: PeerConfig, name: Toggle) {
    match name
    case DisableClipboard | ShowRemoteCursor | EnableFileCopyPaste | LockAfterSessionEnd => !c.viewOnly
    case ShowMyCursor => c.viewOnly
    case _ => true
  }

  /** Forced options toggled only outside view-only mode, the own cursor only inside it. */
  predicate Disciplined(c: PeerConfig, names: seq<Toggle>)
    decreases |names|
  {
    names == [] || (Permitted(c, names[0]) && Disciplined(Toggled(c, names[0]), names[1..]))
  }

  lemma PermittedIsHarmless(c: PeerConfig, name: Toggle)
    requires (c.showMyCursor ==> c.viewOnly) && Permitted(c, name)
    ensures Harmless(c, name) && (Toggled(c, name).showMyCursor ==> Toggled(c, name).viewOnly)
  {
  }

  lemma {:induction false} DisciplinedRunAgrees(c: PeerConfig, p: PeerState, names: seq<Toggle>)
    requires Agrees(c, p) && (c.showMyCursor ==> c.viewOnly) && Disciplined(c, names)
    ensures Agrees(RunConfig(c, names), RunPeer(c, p, names))
    decreases |names|
  {
    if names != [] {
      ToggleAgreesExactly(c, p, names[0]);
      PermittedIsHarmless(c, names[0]);
      DisciplinedRunAgrees(Toggled(c, names[0]), Receive(p, ToggleMessage(c, c, names[0])), names[1..]);
    }
  }

  /**
   * A whole session on a default connection: login with the snapshot, then any
   * disciplined run of toggles. The peer ends as a fresh login would make it, and
   * the configuration in memory is the stored one throughout.
   */
  method Session(saved: PeerConfig, names: seq<Toggle>)
    returns (peer: PeerState, final: PeerConfig, stored: PeerConfig)
    requires (saved.showMyCursor ==> saved.viewOnly) && Disciplined(saved, names)
    ensures final == stored == RunConfig(saved, names)
    ensures Agrees(final, peer)
  {
    var handler := new LoginConfigHandler(DefaultConn, saved);
    peer := Receive(FRESH, Snapshot(DefaultConn, saved));
    DisciplinedRunAgrees(saved, peer, names);
    ghost var start := peer;
    for i := 0 to |names|
      invariant handler.config == handler.stored
      invariant RunConfig(saved, names) == RunConfig(handler.config, names[i..])
      invariant RunPeer(saved, start, names) == RunPeer(handler.config, peer, names[i..])
    {
      assert names[i..][0] == names[i] && names[i..][1..] == names[i + 1..];
      peer := handler.Tell(names[i], peer);
    }
    final, stored := handler.config, handler.stored;
  }
}
