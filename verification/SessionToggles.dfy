/** What each toggle stores and sends, option by option, and when toggling twice undoes itself. */
module SessionToggles {
  import opened Wrappers
  import opened SessionOptions

  /** The stored boolean options. */
  datatype Setting =
    | RemoteCursor | FollowCursor | FollowWindow | NoAudio | NoClipboard | LockAtEnd | KeepTerminal | Privacy
    | CopyPaste | QualityMonitor | SwapKey | View | MyCursor

  function Stored(c: PeerConfig, s: Setting): bool {
    match s
    case RemoteCursor => c.showRemoteCursor
    case FollowCursor => c.followRemoteCursor
    case FollowWindow => c.followRemoteWindow
    case NoAudio => c.disableAudio
    case NoClipboard => c.disableClipboard
    case LockAtEnd => c.lockAfterSessionEnd
    case KeepTerminal => c.terminalPersistent
    case Privacy => c.privacyMode
    case CopyPaste => c.enableFileCopyPaste
    case QualityMonitor => c.showQualityMonitor
    case SwapKey => c.allowSwapKey
    case View => c.viewOnly
    case MyCursor => c.showMyCursor
  }

  /** The stored option a toggle is named after. */
  function SettingOf(name: Toggle): Option<Setting> {
    match name
    case ShowRemoteCursor => Some(RemoteCursor)
    case FollowRemoteCursor => Some(FollowCursor)
    case FollowRemoteWindow => Some(FollowWindow)
    case DisableAudio => Some(NoAudio)
    case DisableClipboard => Some(NoClipboard)
    case LockAfterSessionEnd => Some(LockAtEnd)
    case TerminalPersistent => Some(KeepTerminal)
    case PrivacyMode => Some(Privacy)
    case EnableFileCopyPaste => Some(CopyPaste)
    case ShowQualityMonitor => Some(QualityMonitor)
    case AllowSwapKey => Some(SwapKey)
    case ViewOnly => Some(View)
    case ShowMyCursor => Some(MyCursor)
    case BlockInput | UnblockInput | Other(_) => None
  }

  /** The new value of a stored option after a toggle. */
  predicate NewValue(c: PeerConfig, name: Toggle, s: Setting) {
    if name == ViewOnly && c.viewOnly && s == MyCursor then false
    else if SettingOf(name) == Some(s) && s != Privacy then !Stored(c, s)
    else Stored(c, s)
  }

  lemma ReportedSetting(c: PeerConfig, name: Toggle, s: Setting)
    requires name in {ShowRemoteCursor, FollowRemoteCursor, FollowRemoteWindow, DisableAudio, DisableClipboard}
    ensures Stored(Toggled(c, name), s) == NewValue(c, name, s)
  {
  }

  lemma LoadedSetting(c: PeerConfig, name: Toggle, s: Setting)
    requires name in {LockAfterSessionEnd, TerminalPersistent, EnableFileCopyPaste, ShowMyCursor}
    ensures Stored(Toggled(c, name), s) == NewValue(c, name, s)
  {
  }

  lemma QuietSetting(c: PeerConfig, name: Toggle, s: Setting)
    requires name in {PrivacyMode, BlockInput, UnblockInput, ShowQualityMonitor, AllowSwapKey}
    ensures Stored(Toggled(c, name), s) == NewValue(c, name, s)
  {
  }

  lemma ViewOnlySetting(c: PeerConfig, s: Setting)
    ensures Stored(Toggled(c, ViewOnly), s) == NewValue(c, ViewOnly, s)
  {
  }

  /**
   * A toggle flips the stored option it is named after and no other, except that
   * privacy mode is only asked for and that leaving view-only mode also switches the
   * own cursor off.
   */
  lemma TogglesItsOwnSetting(c: PeerConfig, name: Toggle, s: Setting)
    ensures Stored(Toggled(c, name), s) == NewValue(c, name, s)
  {
    match name
    case ShowRemoteCursor | FollowRemoteCursor | FollowRemoteWindow | DisableAudio | DisableClipboard =>
      ReportedSetting(c, name, s);
    case LockAfterSessionEnd | TerminalPersistent | EnableFileCopyPaste | ShowMyCursor => LoadedSetting(c, name, s);
    case PrivacyMode | BlockInput | UnblockInput | ShowQualityMonitor | AllowSwapKey => QuietSetting(c, name, s);
    case ViewOnly => ViewOnlySetting(c, s);
    case Other(_) =>
  }

  lemma OptionsStay(c: PeerConfig, name: Toggle)
    ensures Toggled(c, name).options == if name.Other? then FreeForm(c.options, name.name) else c.options
  {
  }

  /** A free-form option ends up set to "Y" if it was unset or empty, and unset otherwise; no other one changes. */
  lemma TogglesItsOwnKey(c: PeerConfig, key: string, other: string)
    ensures var after := Toggled(c, Other(key)).options;
      && (key in after <==> key !in c.options || c.options[key] == "")
      && (key in after ==> after[key] == "Y")
      && (other != key ==> (other in after <==> other in c.options) && (other in after ==> after[other] == c.options[other]))
  {
  }

  /** What a configuration must be like for the toggle to undo itself. */
  predicate Undoes(c: PeerConfig, name: Toggle) {
    match name
    case ViewOnly => !c.showMyCursor
    case Other(key) => key !in c.options || c.options[key] == "Y"
    case _ => true
  }

  lemma FreeFormTwice(options: map<string, string>, key: string)
    ensures FreeForm(FreeForm(options, key), key) == options <==> key !in options || options[key] == "Y"
  {
    var twice := FreeForm(FreeForm(options, key), key);
    if key !in options || options[key] == "Y" {
      assert twice == options;
    } else {
      assert key !in twice || twice[key] == "Y";
    }
  }

  lemma ReportedTwice(c: PeerConfig, name: Toggle)
    requires name in {ShowRemoteCursor, FollowRemoteCursor, FollowRemoteWindow, DisableAudio, DisableClipboard}
    ensures Toggled(Toggled(c, name), name) == c
  {
  }

  lemma LoadedTwice(c: PeerConfig, name: Toggle)
    requires name in {LockAfterSessionEnd, TerminalPersistent, EnableFileCopyPaste, ShowMyCursor}
    ensures Toggled(Toggled(c, name), name) == c
  {
  }

  lemma QuietTwice(c: PeerConfig, name: Toggle)
    requires name in {PrivacyMode, BlockInput, UnblockInput, ShowQualityMonitor, AllowSwapKey}
    ensures Toggled(Toggled(c, name), name) == c
  {
  }

  lemma ViewOnlyTwice(c: PeerConfig)
    ensures Toggled(Toggled(c, ViewOnly), ViewOnly) == c <==> !c.showMyCursor
  {
  }

  lemma KeyTwice(c: PeerConfig, key: string)
    ensures Toggled(Toggled(c, Other(key)), Other(key)) == c <==> key !in c.options || c.options[key] == "Y"
  {
    FreeFormTwice(c.options, key);
  }

  /**
   * Toggling twice restores the stored configuration, exactly if the own cursor is
   * off when it is view-only mode that is toggled, and if a free-form option was
   * unset or "Y".
   */
  lemma TogglingTwiceExactly(c: PeerConfig, name: Toggle)
    ensures Toggled(Toggled(c, name), name) == c <==> Undoes(c, name)
  {
    match name
    case ShowRemoteCursor | FollowRemoteCursor | FollowRemoteWindow | DisableAudio | DisableClipboard => ReportedTwice(c, name);
    case LockAfterSessionEnd | TerminalPersistent | EnableFileCopyPaste | ShowMyCursor => LoadedTwice(c, name);
    case PrivacyMode | BlockInput | UnblockInput | ShowQualityMonitor | AllowSwapKey => QuietTwice(c, name);
    case ViewOnly => ViewOnlyTwice(c);
    case Other(key) => KeyTwice(c, key);
  }

  // What is sent

  /** The option of the message that a setting is reported in. */
  function Sent(o: OptionMessage, s: Setting): BoolOption {
    match s
    case RemoteCursor => o.showRemoteCursor
    case FollowCursor => o.followRemoteCursor
    case FollowWindow => o.followRemoteWindow
    case NoAudio => o.disableAudio
    case NoClipboard => o.disableClipboard
    case LockAtEnd => o.lockAfterSessionEnd
    case KeepTerminal => o.terminalPersistent
    case Privacy => o.privacyMode
    case CopyPaste => o.enableFileTransfer
    case View => o.disableKeyboard
    case MyCursor => o.showMyCursor
    case QualityMonitor | SwapKey => NotSet
  }

  /** What a login tells the peer about an option, beyond what view-only mode forces. */
  predicate Told(c: PeerConfig, s: Setting) {
    match s
    case RemoteCursor | NoClipboard => c.viewOnly || Stored(c, s)
    case LockAtEnd | CopyPaste => !c.viewOnly && Stored(c, s)
    case MyCursor => c.viewOnly && Stored(c, s)
    case KeepTerminal | Privacy | QualityMonitor | SwapKey => false
    case _ => Stored(c, s)
  }

  /**
   * A login sends Yes for the options that are on and leaves the others out. A
   * terminal session is told of a persistent terminal only, a camera session the same
   * as a desktop session, and file transfer, port forwarding and RDP nothing.
   */
  lemma LoginTells(conn: ConnType, c: PeerConfig, s: Setting)
    ensures var msg := Snapshot(conn, c);
      && (conn in {FileTransfer, PortForward, Rdp} ==> msg.None?)
      && (conn == Terminal ==>
            && (msg.Some? <==> c.terminalPersistent)
            && (msg.Some? ==> Sent(msg.value, s) == YesIf(s == KeepTerminal)))
      && (conn in {DefaultConn, ViewCamera} ==> msg.Some? && Sent(msg.value, s) == YesIf(Told(c, s)))
      && (msg.Some? ==> msg.value.blockInput == NotSet)
  {
  }

  /**
   * Outside view-only, a toggle sends the new value of its own option and nothing
   * else: for privacy mode the value asked for, for options of this side an empty
   * message, and a free-form option sends no message.
   */
  lemma TellsItsOwnSetting(c: PeerConfig, m: PeerConfig, name: Toggle, s: Setting)
    requires !name.ViewOnly?
    ensures var msg := ToggleMessage(c, m, name);
      && (msg.None? <==> name.Other?)
      && (msg.Some? ==>
            Sent(msg.value, s) == (if SettingOf(name) == Some(s) && s != QualityMonitor && s != SwapKey
                                   then Flag(!Stored(c, s)) else NotSet))
  {
  }

  /** The order to block the peer's input or to unblock it. */
  function Order(name: Toggle): BoolOption {
    match name
    case BlockInput => Yes
    case UnblockInput => No
    case _ => NotSet
  }

  lemma TellsTheOrder(c: PeerConfig, m: PeerConfig, name: Toggle)
    ensures var msg := ToggleMessage(c, m, name); (if msg.Some? then msg.value.blockInput else NotSet) == Order(name)
  {
  }

  /** Whether the peer's input is blocked after some toggles. */
  predicate InputBlocked(blocked: bool, names: seq<Toggle>) {
    if names == [] then blocked
    else Set(InputBlocked(blocked, names[..|names| - 1]), Order(names[|names| - 1]))
  }

  /** The last order counts, whatever else was toggled since: unblocking gives the input back. */
  lemma {:induction false} LastOrderCounts(blocked: bool, names: seq<Toggle>, k: nat)
    requires k < |names| && Order(names[k]) != NotSet && forall i :: k < i < |names| ==> Order(names[i]) == NotSet
    ensures InputBlocked(blocked, names) <==> names[k] == BlockInput
  {
    if k < |names| - 1 {
      LastOrderCounts(blocked, names[..|names| - 1], k);
    }
  }
}
