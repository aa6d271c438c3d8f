# Verified models of VNTC

A Dafny 4.11 model of the parts of VNTC that keep state over time or promise an
exact inverse, with proofs about every run, every input or every reachable state.
`dafny verify dfyconfig.toml` checks the project.

| part | modules | main results |
|---|---|---|
| WireGuard agent | `CryptokeyRouting`, `WireGuardAgent`, `WireGuardSafety`, `WireGuardTiming`, `WireGuardFreshness`, `WireGuardTheorems`, `WireGuardProgress`, `WireGuardWitness` | peer ownership, the handshake check, progress of refreshes and new peers, fallback to the relay, bounded route lifetime, clean shutdown |
| Linux WebUI | `ProfileIds`, `ProfileStore`, `ProfileStoreLaws`, `WebUiFiles`, `WebUiHandlers`, `WebUiInvariants`, `WebUiSync`, `WebUiRuns`, `WebUiDurable`, `WebUiRefusals`, `WebUiApi`, `RuntimePhase`, `VntControllerSteps` | id freshness, import laws, store validity, crash recovery, durability, exact refusals, running-network agreement, controller phases |
| Bridge codec | `Bytes`, `SseCodec`, `SseCursor`, `SseMessages`, `SseWire`, `SseText`, `SseLayout`, `SseExchange` | the bytes of every value, both ways; round trip exactly for readable lengths, prefix-freeness |
| Remote desktop client | `AudioBuffer`, `SessionOptions`, `SessionToggles`, `ClipboardSync` | jitter buffer refinement, exact drops and alignment, incremental options against the snapshot, exact clipboard sending and no echo |
| Alignment script | `ElfAlignment` | the reader inverts the ELF layout |

## What became a parameter

- The WireGuard agent: which step runs next, whether a `wg` command succeeds, what a
  discovery reply says, when a handshake happens and how time passes are events of the
  state machine. One clock serves wall and monotonic time and starts at least two
  seconds after the epoch. A failing `wg` command has no effect. Different targets are
  offered different keys, and unmanaged peers hold subnets, not a target's own /32.
- The WebUI: which save fails and at which step, and whether the network connects, are
  given by `Faults`. `VntConfig::validate`, `to_core_config`, and the web and settings
  checks are function parameters, so the results hold for every choice; `ServerChecks`
  is the program's own web and settings checks. A file is missing, cut short or whole;
  renames are atomic; the three temporary names are distinct.
- The codec: native byte order. A panic of the generated code is `None`.
- The audio buffer: the time in milliseconds, and the sample type.
- The clipboard: what users copy, what arrives and when a machine looks.

## Where the code differs from what one would expect

- The agent ignores a failing `wg remove` of the previous peer. The relay route then
  need not come back, although the README of the agent says it does.
  `WireGuardTheorems.Fallback` gives the exact condition and
  `WireGuardWitness.FallbackNeedsEarlierRemoval` a run.
- A lease shorter than an iteration, a refresh and a discovery together is accepted and
  can be outlived by its route. `WireGuardWitness.ShortLeaseIsOutlived` covers every
  length up to one poll interval and one command short of the bound from which
  `WireGuardTiming.BoundedRouteLifetime` rules it out.
- `/start` on a running network answers Ok and relabels it. `WebUiInvariants.StartSound`
  gives the exact condition, `WebUiRuns.StartOnRunningRelabels` the run.
- An import whose store is saved but whose configuration is not leaves an active id that
  may name no profile; configuration updates then fail. `WebUiRuns.RespondSound` gives
  the exact condition, `WebUiRuns.ImportLeavesDanglingActive` the run.
- A restore or clear writes the store first and takes it over last. When a later save
  fails, disk and memory hold different stores, and a restart after a later crash brings
  back one that the handlers no longer had. `WebUiSync.RespondSyncsExactly` gives the
  exact condition, `WebUiRuns.FailedClearSplits` the run.
- Migration writes a store that it does not validate and not through a temporary file.
  `WebUiFiles.MigrationRestartsExactly` says when the next start works.
- The id counter wraps at the largest u64 in a release build, which is what is modelled.
- Lengths of 2^31 and more are written truncated and read as empty or short.
- A profile whose name is within three characters of the limit cannot be copied;
  `ProfileStoreLaws.CopyFacts` gives the exact condition.
- Toggling view-only twice forgets the own cursor, and toggling a free-form option twice
  replaces its value by "Y"; `SessionToggles.TogglingTwiceExactly` says when.
- A new session reads the clipboard even if it is marked when nothing was sent before, so
  content that was received can then be sent on. `ClipboardSync.NoEcho` holds without
  such a read, `ClipboardSync.ForcedReadEchoes` is a run with one.
- Some toggles are not mirrored to the peer the way a fresh snapshot would be;
  `SessionOptions.ToggleAgreesExactly` says which.

## Model

| member | source | states |
|---|---|---|
| CryptokeyRouting.CommandsKeepOneHolder | wireguard-agent/src/main.rs:186-218 | the three `wg set` commands keep every prefix on at most one peer |
| CryptokeyRouting.HostRouteWins | wireguard-agent/src/main.rs:199-208 | a peer holding a target's /32 receives the target's packets, and no other peer does |
| CryptokeyRouting.RoutingIgnoresOtherHosts | wireguard-agent/README.md:41 | /32 routes of other hosts do not change where an address is routed |
| WireGuardAgent.ValidateResponse | wireguard-agent/src/main.rs:237-269 | a reply is accepted if and only if it echoes the request and target, has status Ok, a 32-byte key, an IPv4 endpoint and a lease id, and expires within (now, now + 120 s]; the lease is then the reply's |
| WireGuardSafety.StepKeepsOthers | wireguard-agent/src/main.rs:306-354 | a step of one target's task leaves every other target's peers, record and task as they were |
| WireGuardSafety.EventKeepsInv | wireguard-agent/src/main.rs:306-354 | every step, clock tick and handshake keeps: one holder per prefix, unmanaged peers untouched, every agent peer recorded, pending or leaked, every agent route on a recorded or leaked peer that has completed a handshake, each task consistent with its program point |
| WireGuardSafety.ReachableInv | wireguard-agent/src/main.rs:306-354 | that invariant in every reachable state of any number of interleaved tasks |
| WireGuardSafety.NothingLeaks | wireguard-agent/src/main.rs:318-348 | a run whose ignored removals all succeed leaves no peer unaccounted for |
| WireGuardFreshness.EventKeepsChecked | wireguard-agent/src/main.rs:316-337 | every event keeps what a task knows of the handshake check at its program point |
| WireGuardFreshness.ActivationPasses | wireguard-agent/src/main.rs:325-337 | in every reachable state a step that installs a route has passed the check: the latest handshake is at most a second (and the rounding to seconds) older than the lease, or at most 180 s older for a peer already recorded when the lease was accepted; the converse is `WireGuardProgress` |
| WireGuardFreshness.EventKeepsFresh | wireguard-agent/src/main.rs:306-350 | every event keeps the bound on how far the peer of an installed route is from its last check |
| WireGuardFreshness.InstalledRouteIsFresh | wireguard-agent/src/main.rs:306-350 | while a target's /32 is installed, its peer is recorded and its latest handshake is at most 180.999 s plus 40 s, eleven commands and five lock waits old |
| WireGuardTheorems.PeerOwnership | wireguard-agent/src/main.rs:312-352 | in every interleaving with successful removals each agent peer is recorded under its target, or just probed and without AllowedIPs; a target's /32 is only on the recorded peer, is put there only after a passing handshake check, stays only while the handshake is recent, and routes the target to that peer alone; unmanaged peers keep their AllowedIPs |
| WireGuardTheorems.NoDirectRouteFallsBack | wireguard-agent/README.md:41 | without an agent peer on its /32 a target is routed exactly as by the unmanaged peers alone |
| WireGuardTheorems.FallsBackMeansNoDirectRoute | wireguard-agent/README.md:41 | a target routed as before the agent started has no direct route |
| WireGuardTheorems.RemovingRecordedPeer | wireguard-agent/src/main.rs:343-350 | removing the recorded peer clears the direct route if and only if no peer whose earlier removal failed still holds the /32 |
| WireGuardTheorems.Fallback | wireguard-agent/src/main.rs:313-351 | a failed iteration whose last removal succeeds unrecords the target and touches no other target; no direct route remains, and the target is routed as before the agent started, if and only if no peer whose earlier, ignored removal failed still holds its /32 |
| WireGuardTheorems.FailureLeadsToCleanUp | wireguard-agent/src/main.rs:313-351 | an iteration reaches its clean-up exactly when discovery, a command or the handshake wait fails, without touching the interface on the way |
| WireGuardTheorems.Shutdown | wireguard-agent/src/main.rs:373-380 | the drain loop removes exactly the recorded peers whose removal does not fail |
| WireGuardTheorems.CleanShutdown | wireguard-agent/src/main.rs:373-380 | from every reachable state, shutting down with successful removals leaves no agent /32; only a probed peer without routes can remain |
| WireGuardTiming.EventKeepsInTime | wireguard-agent/src/main.rs:287-350 | every event keeps the bound on the age of each task's accepted lease at its program point |
| WireGuardTiming.BoundedRouteLifetime | wireguard-agent/src/main.rs:287-350 | while a recorded peer holds a target's /32 its task accepted a lease at most 31.5 s plus six commands and three lock waits ago, so a lease at least that long is never outlived |
| WireGuardWitness.ShortLeaseIsOutlived | wireguard-agent/src/main.rs:256-262 | whatever commands and locks take, every lease shorter than 31 s plus five commands and three lock waits can be outlived by its route; that is one poll interval and one command short of the bound |
| WireGuardWitness.FallbackNeedsEarlierRemoval | wireguard-agent/src/main.rs:319-322 | a reachable state in which the last removal succeeds and the target is not routed as before, because an earlier ignored removal failed |
| WireGuardProgress.RefreshKeepsRoute | wireguard-agent/src/main.rs:306-352 | in any interleaving, as long as a target is offered its recorded peer, its commands succeed and each query finds a handshake at most 180 s old, its /32 stays on that peer in every state, and its task goes through the stages of an iteration in order |
| WireGuardProgress.RefreshCompletes | wireguard-agent/src/main.rs:330-352 | from a reachable refresh point, seven such steps of the task end at the next refresh point with peer recorded and route installed |
| WireGuardProgress.RemovedOnlyAfterDeadline | wireguard-agent/src/main.rs:293-304 | in any interleaving a recorded peer and its route are given up only for a failing command, an offer of another peer, or a poll that finds the deadline past and no handshake since the wait began |
| WireGuardProgress.NewPeerComesIn | wireguard-agent/src/main.rs:312-352 | a newly offered peer whose commands succeed and whose poll finds a handshake since the wait began replaces the previous one and ends holding the target's /32 |
| WireGuardProgress.AnsweredPollInstalls | wireguard-agent/src/main.rs:339-352 | from any reachable poll that finds such a handshake, the route is installed and the peer recorded two steps of the task later |
| ProfileIds.IdRoundTrip | VntcApp1.0/linux_webui/src/profile_store.rs:262-271 | the number printed into a generated id is the number parsed out of it |
| ProfileIds.TrimIdempotent | VntcApp1.0/linux_webui/src/profile_store.rs:128-155 | a stored, trimmed name passes the check it passed when it was entered |
| ProfileStore.ValidateProfiles | VntcApp1.0/linux_webui/src/profile_store.rs:113-124 | the pass with a growing id set accepts exactly lists whose profiles are all fine and whose ids are pairwise distinct |
| ProfileStore.Validate | VntcApp1.0/linux_webui/src/profile_store.rs:98-126 | accepts exactly the valid stores: version, existing default, fine profiles, distinct ids |
| ProfileStore.ProfileStore.Create | VntcApp1.0/linux_webui/src/profile_store.rs:149-159 | succeeds exactly on good input; appends the trimmed profile under the counter's id and moves the counter; changes nothing on error |
| ProfileStore.ProfileStore.Update | VntcApp1.0/linux_webui/src/profile_store.rs:161-171 | succeeds exactly on good input for an existing id; replaces that profile only; changes nothing on error |
| ProfileStore.ProfileStore.Copy | VntcApp1.0/linux_webui/src/profile_store.rs:173-182 | creates a profile from an existing one, or changes nothing |
| ProfileStore.ProfileStore.Remove | VntcApp1.0/linux_webui/src/profile_store.rs:184-197 | succeeds exactly for an existing id that is neither the default nor the only one; changes nothing on error |
| ProfileStore.ProfileStore.SetDefault | VntcApp1.0/linux_webui/src/profile_store.rs:199-205 | succeeds exactly for an existing id and changes only the default |
| ProfileStore.ProfileStore.ImportProfiles | VntcApp1.0/linux_webui/src/profile_store.rs:215-241 | takes the candidate over exactly when it validates; a failed import leaves the store unchanged |
| ProfileStore.ProfileStore.CreateAll | VntcApp1.0/linux_webui/src/profile_store.rs:227-235 | the merge loop succeeds exactly when all inputs are good, and appends them in order |
| ProfileStore.WithoutFacts | VntcApp1.0/linux_webui/src/profile_store.rs:191-195 | removal keeps exactly the profiles with other ids, and is shorter exactly when the id was there |
| ProfileStoreLaws.AddedIsValidExactly | VntcApp1.0/linux_webui/src/profile_store.rs:149-159 | adding to a valid store leaves it valid if and only if the generated id is free |
| ProfileStoreLaws.AddedIsFreshExactly | VntcApp1.0/linux_webui/src/profile_store.rs:149-159 | adding keeps the counter above every id number if and only if the counter does not wrap |
| ProfileStoreLaws.CopyFacts | VntcApp1.0/linux_webui/src/profile_store.rs:173-182 | a copy is appended under a new id with its source's network and its name plus the mark, nothing else changes; it is accepted if and only if the name leaves room for the mark |
| ProfileStoreLaws.EditedFacts | VntcApp1.0/linux_webui/src/profile_store.rs:161-171 | an update keeps validity and freshness |
| ProfileStoreLaws.WithoutValid | VntcApp1.0/linux_webui/src/profile_store.rs:184-197 | an allowed removal keeps the store valid |
| ProfileStoreLaws.MaxNumberIsLeastBound | VntcApp1.0/linux_webui/src/profile_store.rs:262-271 | the recalculated maximum bounds every id number and is attained |
| ProfileStoreLaws.RecalculatedIsFreshExactly | VntcApp1.0/linux_webui/src/profile_store.rs:262-271 | recalculating makes the counter fresh if and only if no id carries the largest u64 |
| ProfileStoreLaws.MergeKeepsAndAppends | VntcApp1.0/linux_webui/src/profile_store.rs:215-241 | a merge keeps the old profiles as a prefix and the default, and appends the imported ones in order, trimmed, with ids no other profile has |
| ProfileStoreLaws.MergeNeverCollides | VntcApp1.0/linux_webui/src/profile_store.rs:215-241 | on a fresh store with room in the counter a merge succeeds if and only if version and inputs are good |
| ProfileStoreLaws.OwnBackupRestores | VntcApp1.0/linux_webui/src/profile_store.rs:207-241 | replacing any store by the backup of a valid one succeeds and restores profiles and default; the counter is fresh if and only if no id carries the largest u64 |
| ProfileStoreLaws.LegacyIsFresh | VntcApp1.0/linux_webui/src/profile_store.rs:85-96 | a migrated store has a fresh counter, one above its only id |
| ProfileStoreLaws.LegacyIsValidExactly | VntcApp1.0/linux_webui/src/profile_store.rs:85-96 | a migrated store is valid if and only if its configuration passes both checks |
| ProfileStoreLaws.StepKeepsFresh | VntcApp1.0/linux_webui/src/profile_store.rs:149-241 | each operation keeps validity and freshness while the counter has room |
| ProfileStoreLaws.RunKeepsFresh | VntcApp1.0/linux_webui/src/profile_store.rs:149-241 | so does every run of operations |
| ProfileStoreLaws.CreateNeverCollides | VntcApp1.0/linux_webui/src/profile_store.rs:85-159 | after every such run from a migrated store, create gets an id no profile has |
| ProfileStoreLaws.PerformAll | VntcApp1.0/linux_webui/src/profile_store.rs:149-241 | the store object, driven through any run, holds what the specification says |
| WebUiFiles.BootsExactly | VntcApp1.0/linux_webui/src/api.rs:37-54 | with a profile file present the server starts if and only if the three files are valid; it starts with the store, the settings (the defaults if there is no file), the web configuration and auto-start of the files, and with the default profile's network |
| WebUiFiles.MigrationRestartsExactly | VntcApp1.0/linux_webui/src/profile_store.rs:67-96 | the first start after migration succeeds with the files' configuration and settings and one migrated profile; the next does if and only if the configuration converts to a core configuration, and not after a cut-off write |
| WebUiFiles.PointsTrail | VntcApp1.0/linux_webui/src/config.rs:41-59 | consecutive disks of a request differ by one file operation |
| WebUiFiles.PointsAreOk | VntcApp1.0/linux_webui/src/config.rs:41-59 | every disk during saves of valid values has three valid files |
| WebUiFiles.PointsBeforeOrAfter | VntcApp1.0/linux_webui/src/profile_store.rs:243-254 | with no file saved twice, every disk holds each of the three files as before or as after |
| WebUiFiles.CrashRecovery | VntcApp1.0/linux_webui/src/api.rs:389-410 | from every disk of a request the server starts; its store, its settings, and its web configuration with auto-start are each those of the request's first or of its last disk |
| WebUiInvariants.CreateSound | VntcApp1.0/linux_webui/src/api.rs:248-261 | create keeps memory valid and agreement; succeeds if and only if input, id and write are fine; otherwise memory is unchanged |
| WebUiInvariants.CopySound | VntcApp1.0/linux_webui/src/api.rs:309-322 | the same for copy; on success the store has the copy added and nothing else changed |
| WebUiInvariants.UpdateSound | VntcApp1.0/linux_webui/src/api.rs:263-287 | update keeps both; the profile is saved exactly when it is not connected, exists and the input and write are fine, even if the configuration save then fails; the whole memory after it |
| WebUiInvariants.DeleteSound | VntcApp1.0/linux_webui/src/api.rs:289-307 | delete keeps both; succeeds exactly for a removable profile that is not connected, which is then gone, from the store and as the active one; nothing else changes |
| WebUiInvariants.MakeDefaultSound | VntcApp1.0/linux_webui/src/api.rs:324-341 | set default keeps both; once the store is saved the default is the profile asked for and list, counter, active profile and network are unchanged; a stopped server also takes over that profile's network if it can save it; if the store is not saved memory is unchanged |
| WebUiInvariants.PutConfigSound | VntcApp1.0/linux_webui/src/api.rs:158-200 | update config keeps both; succeeds if and only if stopped, both checks pass, the selected profile exists and both writes work; then that profile and the configuration have the new network and nothing else changed; otherwise memory is unchanged |
| WebUiInvariants.ConnectedSound | VntcApp1.0/linux_webui/src/api.rs:204-211 | activating and starting a profile: exact result and the whole memory after it, and when agreement survives |
| WebUiInvariants.StartSound | VntcApp1.0/linux_webui/src/api.rs:202-214 | a start while stopped ends in agreement; on a running network it keeps agreement if and only if its save fails or the default profile is the running network; label, network, configuration after it |
| WebUiInvariants.ConnectSound | VntcApp1.0/linux_webui/src/api.rs:343-365 | connect ends in agreement; succeeds if and only if the profile exists, the save works and the network connects; otherwise an existing profile's connect leaves nothing running |
| WebUiInvariants.ImportSound | VntcApp1.0/linux_webui/src/api.rs:371-387 | import keeps memory valid and agreement; exact result and memory after it; and exactly when the active id is left naming no profile |
| WebUiInvariants.PutSettingsSound | VntcApp1.0/linux_webui/src/api.rs:445-471 | settings update: exact result; then memory has the new settings and auto-start and nothing else changed, otherwise it is unchanged |
| WebUiInvariants.PutTokenSound | VntcApp1.0/linux_webui/src/api.rs:479-494 | token update: exact result; then memory has the trimmed token and nothing else changed, otherwise it is unchanged |
| WebUiInvariants.RestoreSound | VntcApp1.0/linux_webui/src/api.rs:519-561 | restore: exact result; then store, settings, auto-start and network are the backup's and no profile is active; memory unchanged on failure even when files were already written |
| WebUiInvariants.ClearSound | VntcApp1.0/linux_webui/src/api.rs:563-593 | clear: exact result; then one profile with the current network, default settings, no auto-start, no active profile, fresh counter; memory unchanged on failure |
| WebUiRuns.RespondSound | VntcApp1.0/linux_webui/src/api.rs:158-593 | every request keeps memory valid and saves only valid values, no file twice; agreement is lost if and only if a start relabels a running network, and the active profile if and only if an import saves a store without it and then fails to save the configuration |
| WebUiRuns.LaunchIsOk | VntcApp1.0/linux_webui/src/api.rs:37-54 | a server started from valid files is valid and agreeing |
| WebUiRuns.RunKeeps | VntcApp1.0/linux_webui/src/api.rs:158-593 | memory and disk stay valid through every run of requests with any failing writes, whatever counter the file held, so there always is a default profile |
| WebUiRuns.CrashAnywhere | VntcApp1.0/linux_webui/src/api.rs:158-593 | valid files, any run, a crash between any two file operations of the next request: the server starts again, valid, with the default profile's configuration and with store, settings, web configuration and auto-start each as on disk before or after that request; if no restore or clear was cut short before, its store is the one that request's handler found in memory or the one it wrote |
| WebUiRuns.CrashInCall | VntcApp1.0/linux_webui/src/api.rs:158-593 | in any valid state a crash leaves store, settings, web configuration and auto-start each as on disk before or after the request |
| WebUiRuns.EveryPassedDiskRestarts | VntcApp1.0/linux_webui/src/api.rs:158-593 | every disk passed through in any run starts a valid server with what its files hold |
| WebUiSync.RespondSyncsExactly | VntcApp1.0/linux_webui/src/api.rs:158-593 | a request keeps the store on disk equal to the one in memory if and only if it is not a restore or clear whose differing store is saved and one of whose later saves fails |
| WebUiRuns.CallSyncsExactly | VntcApp1.0/linux_webui/src/api.rs:519-593 | the same for the server and its disk |
| WebUiRuns.RunSyncs | VntcApp1.0/linux_webui/src/api.rs:158-593 | disk and memory hold the same store after every run without such a restore or clear |
| WebUiRuns.FailedClearSplits | VntcApp1.0/linux_webui/src/api.rs:563-593 | after a clear whose settings save fails, a crash in the next request restarts with a store that its handler neither found nor left in memory |
| WebUiRuns.RunAgrees | VntcApp1.0/linux_webui/src/api.rs:158-593 | agreement holds after every run in which no start relabels |
| WebUiRuns.RunningNetworkAgrees | VntcApp1.0/linux_webui/src/api.rs:202-365 | a running network is the active profile's and the configuration's after every run from valid files that starts only while stopped |
| WebUiRuns.StartOnRunningRelabels | VntcApp1.0/linux_webui/src/api.rs:202-214 | connect a non-default profile with another configuration, then start: the old network runs under the default profile's name |
| WebUiRuns.RunKeepsActive | VntcApp1.0/linux_webui/src/api.rs:371-387 | the active id names a profile after every run without an import that loses it |
| WebUiRuns.ImportLeavesDanglingActive | VntcApp1.0/linux_webui/src/api.rs:371-387 | connect a profile, stop, and replace all profiles while the configuration cannot be written: the active id names no profile |
| WebUiRuns.DanglingActiveBlocksConfig | VntcApp1.0/linux_webui/src/api.rs:174-183 | while the active id names no profile every configuration update fails |
| WebUiRuns.BackupMoves | VntcApp1.0/linux_webui/src/api.rs:506-561 | a full backup restored on another stopped server brings over profiles, default, settings and auto-connect |
| WebUiDurable.WritesLand | VntcApp1.0/linux_webui/src/config.rs:41-59 | a save that goes through is what its file holds after the request |
| WebUiDurable.AnsweredIsOnDisk | VntcApp1.0/linux_webui/src/api.rs:158-593 | whatever a request changed in memory is in its file when the answer goes out, whether it succeeded or not; one that succeeded changed no file but to what is in memory |
| WebUiDurable.SuccessSurvives | VntcApp1.0/linux_webui/src/api.rs:158-593 | after any run of successful requests from valid files, a start from the files left brings back store, settings, web configuration and auto-start as they were in memory |
| WebUiRefusals.RefusesExactly | VntcApp1.0/linux_webui/src/api.rs:158-593 | a request is refused as a conflict, as unknown or as malformed if and only if the network or profile is in use, the profile to connect does not exist, or its content fails a check; a refused request changes neither memory nor any file |
| WebUiApi.ApiState.constructor | VntcApp1.0/linux_webui/src/api.rs:42-53 | a launched server holds what was loaded, with no active profile and no network |
| WebUiApi.ApiState.SaveConfig | VntcApp1.0/linux_webui/src/config.rs:41-59 | validates, then goes through exactly the disks of a save; succeeds exactly when valid and no step fails |
| WebUiApi.ApiState.SaveStoreFile | VntcApp1.0/linux_webui/src/profile_store.rs:243-254 | the same for the store, without a mode step |
| WebUiApi.ApiState.SaveSettings | VntcApp1.0/linux_webui/src/app_settings.rs:64-75 | the same for the settings |
| WebUiApi.ApiState.SaveProfiles | VntcApp1.0/linux_webui/src/api.rs:389-396 | saves, then swaps the store in memory only on success |
| WebUiApi.ApiState.ActivateConfig | VntcApp1.0/linux_webui/src/api.rs:398-410 | saves the configuration with a new network, then swaps it in memory only on success |
| WebUiApi.ApiState.Handle | VntcApp1.0/linux_webui/src/api.rs:158-593 | one request: its result and the server after it as specified, every disk recorded on the way valid, one file operation apart and with each file as before or after |
| WebUiApi.ApiState.Serve | VntcApp1.0/linux_webui/src/api.rs:158-593 | the running server, given any requests and failures, ends where the specification says, valid in memory and on disk, and every disk it passed through starts a valid server |
| WebUiApi.LoadOrMigrate | VntcApp1.0/linux_webui/src/profile_store.rs:67-83 | the stored profiles if they validate, a migrated store if there are none, else failure |
| WebUiApi.Launch | VntcApp1.0/linux_webui/src/api.rs:37-54 | starts exactly when the files can be loaded and a needed migration can be written, with what they hold, settings included; and the disk it leaves, also when the settings then fail to load |
| VntControllerSteps.EventKeepsInv | VntcApp1.0/linux_webui/src/vnt_service.rs:115-147 | every lock step and every cancellation keeps what the holder of the operation lock knows at its step |
| VntControllerSteps.PhaseIsSound | VntcApp1.0/linux_webui/src/vnt_service.rs:115-147 | at every lock step of concurrent calls, cancelled or not, a running network implies an active phase; with the lock free, phase and network agree if and only if no cancelled pair of writes is outstanding |
| VntControllerSteps.PhaseIsExact | VntcApp1.0/linux_webui/src/vnt_service.rs:115-147 | without cancellation and with the lock free, the phase is Running exactly when a network exists |
| VntControllerSteps.RunningWasConnected | VntcApp1.0/linux_webui/src/vnt_service.rs:115-134 | in every state of every run, what runs is the configuration of a start call whose connection came up |
| VntControllerSteps.CompletedStartRuns | VntcApp1.0/linux_webui/src/vnt_service.rs:121-134 | a start that completes leaves its own configuration running, one that fails leaves nothing running |
| VntControllerSteps.CallKeepsItsConfig | VntcApp1.0/linux_webui/src/vnt_service.rs:115-134 | a call keeps its configuration from step to step |
| VntControllerSteps.CancelledStartLooksActive | VntcApp1.0/linux_webui/src/vnt_service.rs:121-125 | a run in which a cancelled start leaves the controller active with nothing running |
| Bytes.BytesRoundTrip | VntcApp1.0/rust/src/frb_generated.rs:1956-1982 | fixed-width integers come back in either byte order |
| SseCodec.RoundTrip | VntcApp1.0/rust/src/frb_generated.rs:1474-2058 | every value whose lengths are below 2^31, with enum cases as their numbers, is read back from its encoding followed by any bytes, and those bytes are left |
| SseCodec.ItemsRoundTrip | VntcApp1.0/rust/src/frb_generated.rs:1510-1644 | so is every list body |
| SseCodec.FieldsRoundTrip | VntcApp1.0/rust/src/frb_generated.rs:1712-1954 | so is every tuple and record |
| SseCodec.TooLongIsLost | VntcApp1.0/rust/src/frb_generated.rs:2568-2676 | a value holding a string or list of 2^31 or more never comes back |
| SseCodec.RoundTripExactly | VntcApp1.0/rust/src/frb_generated.rs:1474-2989 | a value comes back if and only if all its lengths are below 2^31 |
| SseCodec.PrefixFree | VntcApp1.0/rust/src/frb_generated.rs:2533-2989 | no encoding is a prefix of another value's encoding, so encodings are injective |
| SseCodec.DecodeIsTyped | VntcApp1.0/rust/src/frb_generated.rs:1474-2058 | whatever bytes are decoded, the result is a value of the type asked for |
| SseCursor.SseSerializer.Write | VntcApp1.0/rust/src/frb_generated.rs:2533-2989 | the serializer appends exactly the encoding, whose bytes `SseWire.EncodesExactly` fixes, lists and records element by element |
| SseCursor.SseDeserializer.Read | VntcApp1.0/rust/src/frb_generated.rs:1474-2058 | the deserializer reads what decoding the remaining bytes gives, which `SseWire.DecodesExactly` fixes, and stops behind it, or fails where decoding fails |
| SseWire.SpellsExactly | VntcApp1.0/rust/src/frb_generated.rs:1956-1982 | the encoder's bytes are the only ones whose positional value in base 256, in the byte order, is the number |
| SseWire.EncodesExactly | VntcApp1.0/rust/src/frb_generated.rs:2533-2989 | the bytes of a value are its one strict form: 1 or 0 for a flag, digits in base 256, two's complement, a four-byte length before strings and lists, records as their fields in order |
| SseWire.DecodesExactly | VntcApp1.0/rust/src/frb_generated.rs:1474-2058 | a prefix of any bytes is a form of a value, any nonzero byte counting as true and a negative length as empty, if and only if decoding returns that value and leaves the bytes behind the prefix |
| SseWire.ReadableExactly | VntcApp1.0/rust/src/frb_generated.rs:1474-2058 | decoding fails if and only if the bytes start with no form of any value of the type |
| SseText.TextExactly | VntcApp1.0/rust/src/frb_generated.rs:1474-1480 | a byte string is accepted as text if and only if it is the UTF-8 encoding of Unicode scalar values, without overlong forms or surrogates |
| SseLayout.ConfigLayout | VntcApp1.0/rust/src/frb_generated.rs:2957-2989 | the bytes of a `VntConfig` are the strict forms of its 28 fields in the given order, with the given types |
| SseLayout.ErrorNumbers | VntcApp1.0/rust/src/frb_generated.rs:1835-1852 | the nine error cases have the numbers 0 to 8 in the given order, both ways, and no other number is a case |
| SseLayout.ErrorLayout | VntcApp1.0/rust/src/frb_generated.rs:2820-2849 | an error report is its case's number in four bytes, then the message |
| SseExchange.Send | VntcApp1.0/rust/src/frb_generated.rs:2533-2989 | a message with readable lengths is written in its strict form |
| SseExchange.Receive | VntcApp1.0/rust/src/frb_generated.rs:1474-2058 | any bytes are read as the value whose form they start with, and fail if there is none |
| SseExchange.Transfer | VntcApp1.0/rust/src/frb_generated.rs:1474-2989 | a value sent through both cursors arrives if and only if its lengths are below 2^31 |
| SseMessages.ConfigComesBack | VntcApp1.0/rust/src/frb_generated.rs:1996-2058 | each of the 28 configuration fields is read into the place it was written from |
| SseMessages.ConfigRoundTrip | VntcApp1.0/rust/src/frb_generated.rs:2957-2989 | a `VntConfig` with readable lengths comes back unchanged and leaves the bytes behind it |
| SseMessages.TagsAreInverse | VntcApp1.0/rust/src/frb_generated.rs:1835-1852 | the two match tables of the error type are inverse and cover exactly the nine numbers |
| SseMessages.ErrorRoundTrip | VntcApp1.0/rust/src/frb_generated.rs:2820-2849 | an error report comes back, its case through both tables, and leaves the bytes behind it |
| SseMessages.TableRoundTrip | VntcApp1.0/rust/src/frb_generated.rs:1558-1570 | so does a route table, records in lists in pairs in a list |
| AudioBuffer.PeakIsLeastLargest | VntcApp1.0/vntcrustdesk-src/src/client.rs:1261-1283 | the peak is the least index of a largest positive count among buckets 1 to 29, or 0 |
| AudioBuffer.LeadingZerosIsRun | VntcApp1.0/vntcrustdesk-src/src/client.rs:1261-1283 | the zero count is the length of the leading run of empty buckets |
| AudioBuffer.HistogramPass | VntcApp1.0/vntcrustdesk-src/src/client.rs:1261-1283 | the in-place loop returns both for the original counts and leaves every bucket zero |
| AudioBuffer.BucketIsTenths | VntcApp1.0/vntcrustdesk-src/src/client.rs:1238-1246 | the bucket index is the occupancy in tenths of a second, capped at the last bucket |
| AudioBuffer.DropAmount | VntcApp1.0/vntcrustdesk-src/src/client.rs:1277-1297 | any drop is even, below a third of what is held, and needs a peak of bucket 6 or above |
| AudioBuffer.DropIsRight | VntcApp1.0/vntcrustdesk-src/src/client.rs:1277-1297 | the drop is, from the counts alone, the even number nearest to a quarter of the smaller of the peak level and four times two thirds of the empty levels below the lowest one met, if the peak is bucket 6 or above and the drop is below a third of what is held, and else nothing |
| AudioBuffer.OneRightDrop | VntcApp1.0/vntcrustdesk-src/src/client.rs:1277-1297 | the counts allow one such number only |
| AudioBuffer.DropIsModest | VntcApp1.0/vntcrustdesk-src/src/client.rs:1277-1297 | a drop is at most a quarter of the most frequent level plus one sample, and none happens when a level under 200 ms was seen |
| AudioBuffer.AppendKeepsTail | VntcApp1.0/vntcrustdesk-src/src/client.rs:1303-1317 | appending keeps the newest contiguous run of the stream |
| AudioBuffer.Push | VntcApp1.0/vntcrustdesk-src/src/client.rs:1303-1317 | making room and pushing keeps exactly the newest samples and returns the true occupancy |
| AudioBuffer.AudioBuffer.constructor | VntcApp1.0/vntcrustdesk-src/src/client.rs:1214-1224 | an empty buffer of three seconds of 48 kHz stereo |
| AudioBuffer.AudioBuffer.Resize | VntcApp1.0/vntcrustdesk-src/src/client.rs:1228-1236 | capacity is three times the samples per second; a changed rate empties the buffer |
| AudioBuffer.AudioBuffer.AppendPcm2 | VntcApp1.0/vntcrustdesk-src/src/client.rs:1303-1317 | holds the newest samples up to capacity, returns the occupancy, keeps stereo alignment |
| AudioBuffer.AudioBuffer.TryShrink | VntcApp1.0/vntcrustdesk-src/src/client.rs:1238-1298 | new counts, the clock shared by all buffers, and, when due, that exactly the oldest samples go, as many as the counts let go by `RightDrop`; otherwise nothing goes |
| AudioBuffer.AudioBuffer.AppendPcm | VntcApp1.0/vntcrustdesk-src/src/client.rs:1322-1325 | both together when nothing plays in between |
| AudioBuffer.AudioBuffer.Fill | VntcApp1.0/vntcrustdesk-src/src/client.rs:1498-1540 | hands out the oldest samples in order and pads with silence |
| AudioBuffer.AudioBuffer.Drive | VntcApp1.0/vntcrustdesk-src/src/client.rs:1207-1326 | over any order of appends, shrinks, reads and clock resets by other buffers, also with reads between an append and its shrink, the buffer is the newest contiguous run of the appended stream, within capacity; whole stereo frames in and out keep its first sample a left one |
| SessionOptions.LoginConfigHandler.ToggleOption | VntcApp1.0/vntcrustdesk-src/src/client.rs:2056-2201 | the branches on the loaded configuration send the specified message and leave the specified configurations |
| SessionOptions.LoginConfigHandler.Tell | VntcApp1.0/vntcrustdesk-src/src/client.rs:2056-2201 | a toggle keeps memory and store equal, and a peer that agreed agrees again after the message if and only if the toggle is harmless |
| SessionOptions.AgreesMeans | VntcApp1.0/vntcrustdesk-src/src/client.rs:2216-2288 | which peer state a fresh option message stands for, field by field |
| SessionOptions.FollowsExactly | VntcApp1.0/vntcrustdesk-src/src/client.rs:2056-2201 | a toggle's message takes a peer from the login state of the old configuration to that of the new one if and only if it is harmless |
| SessionOptions.ToggleAgreesExactly | VntcApp1.0/vntcrustdesk-src/src/client.rs:2056-2201 | for every toggle, the peer built from messages equals the one a fresh snapshot gives if and only if the toggle is harmless |
| SessionOptions.DisciplinedRunAgrees | VntcApp1.0/vntcrustdesk-src/src/client.rs:2056-2288 | over every run that toggles overridden options only with view-only off, and the own cursor only with it on, peer and snapshot agree |
| SessionOptions.Session | VntcApp1.0/vntcrustdesk-src/src/client.rs:2056-2288 | a session from login through any such run ends with peer, memory and store in agreement |
| SessionToggles.TogglesItsOwnSetting | VntcApp1.0/vntcrustdesk-src/src/client.rs:2056-2201 | a toggle flips the stored option it is named after and no other, except that privacy mode is only asked for and that leaving view-only switches the own cursor off |
| SessionToggles.TogglesItsOwnKey | VntcApp1.0/vntcrustdesk-src/src/client.rs:2173-2186 | a free-form option becomes "Y" if it was unset or empty and is removed otherwise; no other one changes |
| SessionToggles.TogglingTwiceExactly | VntcApp1.0/vntcrustdesk-src/src/client.rs:2056-2201 | toggling twice restores the stored configuration if and only if, for view-only, the own cursor is off, and for a free-form option, it was unset or "Y" |
| SessionToggles.TellsItsOwnSetting | VntcApp1.0/vntcrustdesk-src/src/client.rs:2056-2201 | outside view-only the message carries the new value of the toggle's own option and nothing else; a free-form option sends none |
| SessionToggles.TellsTheOrder | VntcApp1.0/vntcrustdesk-src/src/client.rs:2131-2134 | blocking sends the order to block, unblocking the order to unblock, and no other toggle sends either |
| SessionToggles.LastOrderCounts | VntcApp1.0/vntcrustdesk-src/src/client.rs:2131-2134 | after any run of toggles the peer's input is blocked if and only if the last order was to block |
| SessionToggles.LoginTells | VntcApp1.0/vntcrustdesk-src/src/client.rs:2216-2288 | what a login sends about each option, by kind of connection |
| ClipboardSync.MarkIsMark | VntcApp1.0/vntcrustdesk-src/src/clipboard.rs:508-524 | content placed by an update carries a mark that reading recognises |
| ClipboardSync.ReceivedIsSilentExactly | VntcApp1.0/vntcrustdesk-src/src/clipboard.rs:52-76 | received content is sent on if and only if the read is forced and there is something to read |
| ClipboardSync.CheckExactly | VntcApp1.0/vntcrustdesk-src/src/clipboard.rs:52-76 | a clipboard is sent if and only if it is unmarked, has something worth sending and no file urls that file copy-paste takes over; then exactly its items other than empty texts, owner entries and file urls, in order |
| ClipboardSync.PollSendsExactly | VntcApp1.0/vntcrustdesk-src/src/clipboard.rs:52-76 | a check sends and remembers exactly that, or does nothing |
| ClipboardSync.CurrentExactly | VntcApp1.0/vntcrustdesk-src/src/clipboard.rs:470-482 | a new session finds the last message, or, if there is none, the wanted items of the clipboard, marked or not |
| ClipboardSync.FirstTextExactly | VntcApp1.0/vntcrustdesk-src/src/clipboard.rs:489-498 | the first text is the one before which there is none |
| ClipboardSync.ForcedReadEchoes | VntcApp1.0/vntcrustdesk-src/src/clipboard.rs:475-482 | a run in which a machine whose users copied nothing sends on a text it received |
| ClipboardSync.SendsCurrentExactly | VntcApp1.0/vntcrustdesk-src/src/clipboard.rs:470-503 | a new session sends and remembers that, or only its first text to a peer without multi-format support |
| ClipboardSync.ReceivedIsKept | VntcApp1.0/vntcrustdesk-src/src/clipboard.rs:208-232 | what arrived is put on the clipboard as it is, followed by the mark |
| ClipboardSync.EventKeepsInv | VntcApp1.0/vntcrustdesk-src/src/clipboard.rs:52-503 | every copy, check, delivery, emptying and session start, except one that reads a marked clipboard by force, keeps: unmarked boards, remembered messages and all messages come from a local user |
| ClipboardSync.NoEcho | VntcApp1.0/vntcrustdesk-src/src/clipboard.rs:52-503 | over any run of any number of linked machines in which no new session reads a marked clipboard by force, every message carries content a local user of the sender set |
| ElfAlignment.LoadSegmentAlignments | VntcApp1.0/scripts/verify_android_16kb_alignment.py:29-77 | the reader computes the specified result or error on any bytes |
| ElfAlignment.CollectAlignments | VntcApp1.0/scripts/verify_android_16kb_alignment.py:60-73 | the loop over program headers computes the alignments of the load segments in order, or the first read error |
| ElfAlignment.CollectTable | VntcApp1.0/scripts/verify_android_16kb_alignment.py:60-73 | the loop inverts the program header table of the System V gABI |
| ElfAlignment.ReadsEveryFile | VntcApp1.0/scripts/verify_android_16kb_alignment.py:29-77 | for both classes and byte orders, a file laid out field by field by the System V gABI yields exactly its LOAD alignments in order, or the no-segment error |

## Left out

- Auto-start of the WebUI (a task outside the mutation lock) and requests dropped in the middle of a handler by a client that disconnects.
- Two starts of the WebUI at once, and other programs writing its files.
- JSON syntax of the three files: a file holds a value or does not parse.
- The log, the HTTP layer, authentication and the read-only handlers of the WebUI.
- Rendezvous, relay, STUN and hole punching, TUN devices and the VNT core library.
- Encoding and decoding of the WireGuard discovery packets and the agent's own configuration file, which only add easy members.
- Opaque handles of the bridge codec, which are foreign pointers.
- Record layouts of the bridge other than `VntConfig`, the error type and the records `SseMessages` lists: the codec results hold for every record type, so more layouts only add descriptors.
- Compression of clipboard content and its special formats: the model sends content as it is.
- Resampling and the audio device: only the buffer between them is modelled.
- Session options outside the toggles and the option message, such as image quality and codecs.
- Android packaging around the alignment reader.
- WireGuardTiming.BoundedRouteLifetime: speaks of recorded peers; a peer left behind by a failed, ignored removal keeps its route, as `WireGuardWitness.FallbackNeedsEarlierRemoval` shows.
- WireGuardFreshness.InstalledRouteIsFresh: speaks of runs without failed, ignored removals, because a peer left behind is no longer checked.
- AudioBuffer.AudioBuffer.TryShrink: requires a rate above zero, by which the program divides; what creating a ring of capacity zero does is up to the ring library.
