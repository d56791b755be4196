# A verified model of agent-remote-cli

The client keeps durable promises across crashes, lost replies and competing processes: a Device identity is never purged
before the server has revoked it, a request with a caller key is posted once, a manifest is accepted only if it is the one
that was sent, files survive a migration that fails half way. This project models the code behind those promises and
proves them for all inputs, all runs and all reachable states. To verify everything:

    dafny verify dfyconfig.toml

## How it is organised

* **Ego-browser lifecycle** (`EgoState`, `EgoSwitch`, `EgoSafety`, `EgoRecovery`, `EgoCommands`, `EgoAdmission`,
  `EgoOutcomes`, `EgoHistory`, `EgoProgress`, `EgoMachine`). The durable state is one value; every interaction with the
  disk, the Device Client or a server consumes one reply of a script. A script that ends is a process killed there; a
  failed reply may still have had its effect.
  `EgoMachine.Machine` is `switch_server` as it runs, loop included; its methods equal the functions that the theorems
  are about. The theorems cover one run, reruns, and whole histories of all commands.
* **Caller-key journal** (`Journal`). One caller key, any number of processes, a lossy network, crashes anywhere.
* **Account import** (`ImportPaths`, `SourceCapture`, `CaptureProperties`, `CaptureSelection`, `ImportReceipt`).
  `Walker` is the recursive capture over an arbitrary directory graph; `Survey` says independently what it should find.
* **Moves with rollback** (`StoreMigration`, `DeviceInstall`, `DeviceArchive`).
* **Smaller state machines** (`SyncReceipt`, `TunnelSupervisor`, `TunnelStream`, `AccountDefaults`).
* **Pure pieces** (`CanonicalJson`, `FrozenSelection`, `ShellQuote`, `Identifiers`), over `Ordering` and `Prelude`.

## Where a promise does not hold as it is stated

Each of these has a run or an input that shows it, and the exact condition under which the code does keep the promise.

* A rerun of `switch_server` finishes exactly when the Device store is readable (`EgoRecovery.RerunFinishesIff`). A purge
  that fails and leaves damaged artifacts blocks every rerun, from every enrolled Mac
  (`EgoHistory.StoreMayBecomeUnreadable`).
* A pending record can meet a ready admission, but only a finished switch-server one (`EgoAdmission.PendingMeansClosed`);
  every enrolled Mac can reach that (`EgoHistory.FinishedRecordMayBeReady`).
* `forget_this_mac` takes over a switch-server record and purges unconditionally. It is safe under all replies exactly when
  another server is configured or the store still holds the recorded Device (`EgoHistory.ForgetPurgesSafelyIff`), and can
  destroy another identity exactly when the store holds one and the recorded server is configured
  (`EgoHistory.ForgetDestroysIff`). A switch killed late, a login back at the old server and a forget lose the new identity
  (`EgoHistory.ForgetLosesNewIdentity`).
* A `forget_this_mac` of its own goes on with the Device selected from the server listing when the discovery of the local
  identity fails. It destroys no other identity if the discovery succeeds (`EgoHistory.OwnForgetDestroysNoOther`); some
  replies make it do so exactly when the store holds an identity other than the selected Device and that Device's server
  is configured (`EgoHistory.OwnForgetDestroysIff`, by the run of `EgoHistory.UndiscoveredCarriedOut`).
* The last installed app survives every faulty history of installs exactly when their process identifiers are distinct
  (`DeviceInstall.AlwaysKeptIff`, witness `DeviceInstall.ReusedPidLosesApp`). The version in place never decreases over a
  history exactly when it has at most one install (`DeviceInstall.VersionNeverDecreasesIff`, witness
  `DeviceInstall.OlderAfterFailedRollback`), because the downgrade check does not look at backups; step by step, exactly
  while every install finds an app in place (`DeviceInstall.VersionFloorIff`).
* Shell quoting is undone by the shell exactly for lists without empty paths and without paths that are left unquoted
  although they contain a backslash (`ShellQuote.JoinSplitsIff`, witness `ShellQuote.BackslashLost`).

## Model

| member | source | states |
|---|---|---|
| `EgoSafety.AttemptJustifies` | src/ego_browser.rs:1619-1812 | what a stage of the switch does before marking progress keeps the record true of store and server, and on success proves the flag it is about to set |
| `EgoSafety.StageContinues` | src/ego_browser.rs:1612-1820 | one loop turn leaves the same operation extended, or the finished switch; a running turn leaves exactly the advanced record on disk |
| `EgoSafety.LoopContinues` | src/ego_browser.rs:1612-1820 | the whole loop does, wherever it fails or is killed |
| `EgoSafety.CrashInferenceSound` | src/ego_browser.rs:1419-1477 | progress inferred from local evidence is fact: the old Device is revoked, the store really is purged, the configuration really points at the target; no flag is lost |
| `EgoSafety.InferenceResumes` | src/ego_browser.rs:1419-1477 | where a rerun takes up the work: behind everything that the target identity in the store proves, behind the configuration if no identity is left and it names the target, otherwise where the record says |
| `EgoSafety.FlagsAreAPrefix` | src/ego_browser.rs:1316-1328 | the flags of a valid record are a prefix of the four stages, and the next stage is that of the first flag missing |
| `EgoSafety.ReconcileJustifies` | src/ego_browser.rs:1419-1477 | reconciliation with failing reads and writes leaves on disk the old record or the sound inferred one |
| `EgoSafety.PersistKeeps` | src/ego_browser.rs:2592-2627 | persisting the operation leaves the previous record or exactly the new one |
| `EgoSafety.ResumeContinues` | src/ego_browser.rs:1612-1820 | starting or resuming a switch, killed anywhere, ends with the operation extended or finished, or never recorded |
| `EgoSafety.SwitchKeeps` | src/ego_browser.rs:1480-1820 | every run keeps every purge to the exact recorded and already revoked Device, every ensure away from the retired identity, and the record true |
| `EgoRecovery.LoopFinishes` | src/ego_browser.rs:1612-1820 | without faults the loop reaches the one final state from every true record |
| `EgoRecovery.ResumeFinishes` | src/ego_browser.rs:1612-1820 | so does resuming, crash inference included |
| `EgoRecovery.RerunFinishes` | src/ego_browser.rs:1480-1820 | from every crash state, one faultless rerun with the same target ends with the old Device revoked, the target identity ensured and configured, admission ready and no record |
| `EgoRecovery.FirstRunFinishes` | src/ego_browser.rs:1480-1820 | a faultless first run from any identity of another origin ends in the same state |
| `EgoRecovery.UnreadableStoreBlocks` | src/ego_browser.rs:1377-1392 | with unreadable identity artifacts every rerun stops and keeps the record, whatever the replies |
| `EgoRecovery.RerunFinishesIff` | src/ego_browser.rs:1377-1820 | a faultless rerun succeeds if and only if the store is readable |
| `EgoRecovery.LoopTurns` | src/ego_browser.rs:1316-1328 | the loop takes at most one turn more than there are unset flags |
| `EgoRecovery.FiveTurns` | src/ego_browser.rs:1612-1820 | no run takes more than five loop turns, whatever the replies |
| `EgoAdmission.MaintainKeepsAdmission` | src/ego_browser.rs:261-332 | setup, and repair, upgrade, re-enroll and rotation which share its shape, keep the gate: a pending revocation means closed admission |
| `EgoAdmission.ClaimKeepsAdmission` | src/ego_browser.rs:4794-4897 | so do claim and resume, although they open admission |
| `EgoAdmission.DesktopClaimKeepsAdmission` | src/desktop_control/ego_browser_claim.rs:113-140 | the desktop claim, which never looks at the pending record, changes nothing at all while an unfinished record exists |
| `EgoAdmission.LifecycleKeepsAdmission` | src/ego_browser.rs:4898-4949 | pause, stop and revoke keep the gate |
| `EgoAdmission.RegisterKeepsAdmission` | src/ego_browser.rs:4101-4131 | register keeps the gate |
| `EgoAdmission.RemoveKeepsAdmission` | src/ego_browser.rs:650-921 | removing any list of bindings keeps the gate between any two writes, on the path without a user token too |
| `EgoAdmission.ForgetKeepsAdmission` | src/ego_browser.rs:945-1137 | forget-this-mac keeps the gate |
| `EgoAdmission.SwitchKeepsAdmission` | src/ego_browser.rs:1480-1820 | switch-server keeps the gate |
| `EgoAdmission.PendingMeansClosed` | src/ego_browser.rs:3468-3475 | after any history of commands cut short anywhere, a pending revocation means closed admission, unless it is a switch-server record with all four flags |
| `EgoOutcomes.PendingBlocks` | src/ego_browser.rs:3468-3475 | beside a pending revocation, setup, repair, upgrade, re-enroll, rotation, register, claim, resume and the lifecycle commands never succeed and touch nothing but admission, which they close |
| `EgoOutcomes.OtherTargetStops` | src/ego_browser.rs:1500-1520 | beside a record of another operation, or of a switch to another server, switch-server stops and only closes admission |
| `EgoOutcomes.SwitchLeaves` | src/ego_browser.rs:1480-1820 | a switch that reports success has switched to the server it was asked for: configured, its credentialed identity in the store, admission ready, no record |
| `EgoOutcomes.NothingToSwitch` | src/ego_browser.rs:1521-1560 | without an identity of another server a switch never succeeds; the same server changes nothing, a missing identity only closes admission |
| `EgoOutcomes.FailureCounted` | src/ego_browser.rs:3122-3133 | a recorded failure leaves the same operation with one more retry, up to 10,000 |
| `EgoOutcomes.RemoveLeaves` | src/ego_browser.rs:650-921 | a successful remove leaves no record and admission shut, and has revoked the binding of the record it found and, unless the Mac held nothing, every live binding |
| `EgoOutcomes.SuccessCanBeBelieved` | src/ego_browser.rs:261-1820 | after any history, what a command that reports success has left, for every command: no record, admission as the command promises, after a switch the identity of its target, after a remove the bindings revoked, after a forget its Device revoked and no identity |
| `EgoHistory.CommandKeeps` | src/ego_browser.rs:261-921 | every command but forget keeps purges safe and a switch-server record true |
| `EgoHistory.SwitchHistorySafe` | src/ego_browser.rs:1480-1820 | purge safety and truth of the record over every history of all commands but forget, with crashes, reruns and configuration changes |
| `EgoHistory.SwitchSuccess` | src/ego_browser.rs:1480-1820 | after every such history a switch that reports success is in the final state of its own operation: the old Device is revoked too |
| `EgoHistory.EveryCrashRecovers` | src/ego_browser.rs:1480-1820 | after every such history one faultless rerun of the pending switch reaches the final state in at most five turns, if and only if the store is readable |
| `EgoHistory.FinishedRecordMayBeReady` | src/ego_browser.rs:1811-1812 | from every enrolled Mac a switch killed between opening admission and dropping its finished record reaches the exception to the gate |
| `EgoHistory.StoreMayBecomeUnreadable` | src/ego_browser.rs:1657-1690 | from every enrolled Mac a failing purge can leave a store that blocks all reruns |
| `EgoHistory.ForgetPurgesOnce` | src/ego_browser.rs:945-1137 | for all replies, configurations and selections, forget purges nothing, or once: the store it found, for the Device of its record, already revoked |
| `EgoHistory.ForgetPurgesSafelyIff` | src/ego_browser.rs:1060-1134 | taking over a device record, forget purges safely under all replies if and only if another server is configured or the store still holds the recorded Device |
| `EgoHistory.ForgetDestroysIff` | src/ego_browser.rs:1060-1134 | some replies make it destroy another identity if and only if the store holds one and the recorded server is configured |
| `EgoHistory.OwnForgetDestroysNoOther` | src/ego_browser.rs:960-964 | without a record to take over, a forget that discovers the identity destroys no other |
| `EgoHistory.UndiscoveredCarriedOut` | src/ego_browser.rs:1069-1134 | a run in which the discovery fails and the identity is purged for the selected Device |
| `EgoHistory.OwnForgetDestroysIff` | src/ego_browser.rs:960-1134 | some replies make a forget without a record destroy another identity if and only if the store holds one other than the selected Device and that Device's server is configured |
| `EgoHistory.ForgetLosesNewIdentity` | src/ego_browser.rs:1090-1134 | from every enrolled Mac: a switch killed after enrolling at the target, a configuration back at the old server, and a forget that purges the new identity |
| `EgoProgress.RefusalCloses` | src/ego_browser.rs:3468-3475 | every command that refuses to run beside a record closes admission on both levels and changes nothing else |
| `EgoProgress.UnidentifiedSwitchCloses` | src/ego_browser.rs:1521-1545 | so does a switch that finds no identity |
| `EgoProgress.UnidentifiedMaintenance` | src/ego_browser.rs:1139-1315 | so do re-enroll and rotation when the identity cannot be read; the other maintenance commands leave admission alone |
| `EgoProgress.InvalidRecords` | src/ego_browser.rs:1976-2066 | the records that validation refuses, case by case |
| `EgoProgress.NewRecordsValid` | src/ego_browser.rs:1976-2066 | the records that the commands begin with pass it |
| `EgoProgress.InvalidNotWritten` | src/ego_browser.rs:2592-2627 | a record that does not pass is not written and ends the command |
| `EgoProgress.EffectiveLevel` | src/ego_browser.rs:2413-2434 | the older admission level counts exactly while the shared file is missing |
| `EgoProgress.IdentitiesMean` | src/ego_browser.rs:1339-1375 | which identity is the old one, which the target's with and without a credential |
| `EgoProgress.ForeignIdentityStops` | src/ego_browser.rs:1657-1812 | a switch that meets any other identity stops and touches nothing |
| `EgoProgress.ListingMayFail` | src/ego_browser.rs:1619-1656 | the old Device is revoked although the listing fails, and is not revoked again when the listing shows it revoked |
| `EgoProgress.FailuresAreCounted` | src/ego_browser.rs:3156-3203 | a revocation or purge that fails leaves its record with one more retry |
| `EgoProgress.SwitchFailuresAreCounted` | src/ego_browser.rs:1394-1404 | so does every failing stage of a switch, and the reading of the local evidence |
| `EgoProgress.OutagesAreCounted` | src/ego_browser.rs:650-1137 | so does a remove or forget taken up again that cannot reach the server |
| `EgoProgress.ForgetOutageRecorded` | src/ego_browser.rs:945-1137 | a new forget that cannot reach the server records the identity it knows, with one retry, and closes admission; one that knows none only closes admission |
| `EgoProgress.RemoveNeedsItsServer` | src/ego_browser.rs:650-921 | a remove taken up again under another server than its record's revokes nothing and stops |
| `EgoProgress.MaintainSucceeds` | src/ego_browser.rs:261-332 | maintenance without faults leaves the store of the Device Client and admission ready on both levels |
| `EgoProgress.ClaimSucceeds` | src/ego_browser.rs:4794-4897 | claim and resume without faults leave the admission that the Device Client publishes |
| `EgoProgress.DesktopClaimSucceedsIff` | src/desktop_control/ego_browser_claim.rs:113-140 | without faults the desktop claim succeeds exactly from a ready admission file |
| `EgoProgress.LifecycleSucceeds` | src/ego_browser.rs:4898-4949 | register, pause, stop and revoke without faults succeed with the store of the Device Client |
| `EgoProgress.BindingSucceeds` | src/ego_browser.rs:3156-3181 | one binding is revoked between the writing and the dropping of its record |
| `EgoProgress.RemoveSucceeds` | src/ego_browser.rs:650-921 | a remove without faults revokes all live bindings, however many, and succeeds |
| `EgoProgress.EmptyMacRetires` | src/ego_browser.rs:650-921 | a Mac with neither record nor identity nor handoff is retired without a user token |
| `EgoProgress.ForgetSucceeds` | src/ego_browser.rs:945-1137 | a forget without faults revokes the discovered identity, purges exactly it, and succeeds |
| `EgoMachine.Machine.ReconcileProgress` | src/ego_browser.rs:1419-1477 | the flag-by-flag update equals the specified inference |
| `EgoMachine.Machine.Recover` | src/ego_browser.rs:1612-1820 | the imperative loop equals the specified recovery, and terminates by the count of unset flags |
| `EgoMachine.Machine.SwitchServer` | src/ego_browser.rs:1480-1820 | the command as it runs equals the specified run, so that every theorem above is about it |
| `Journal.RunKeepsShape` | src/account_import.rs:269-349 | in every run each reservation posts at most once and has at most one owner |
| `Journal.StepKeeps` | src/runtime_recovery.rs:102-251 | each protocol step, against any server, keeps journal, processes and server consistent, content by content |
| `Journal.CallerKeySafe` | src/account_import.rs:269-507 | against any server and over every interleaving of losses, crashes and repeated submits: one POST per reservation, no content accepted without an earlier record of it, a journal that says accepted only of an accepted content and rejected only of a reservation refused itself, and no record dropped without the refusal of its own reservation or a terminal observation of its content |
| `Journal.VerdictLands` | src/account_import.rs:317-346 | an outcome is written only onto the record of its own reservation: the locks of apply exclude any other |
| `Journal.FirstAcceptanceHasRecord` | src/runtime_recovery.rs:121-188 | while a POST can still be the first to have its content accepted, the record of its reservation is on disk |
| `Journal.OneActsAtATime` | src/account_import.rs:289-346 | between a reservation and the writing of its outcome no other process acts for the key |
| `Journal.PermanentKeyPostedOnce` | src/session_delete.rs:155-277 | a stop or delete key is posted at most once, ever, against any server |
| `Journal.SendFindsRecord` | src/session_stop.rs:60-209 | a process about to post finds its reservation on disk, unless the server has accepted the key for its content |
| `Journal.ReserveTakes` | src/account_import.rs:269-316 | a key without a record is reserved by the step, under the locks if it can be forgotten; a key with one is not |
| `Journal.SendPosts` | src/account_import.rs:317-333 | a reserved request is posted by the step, once, and its process waits for that POST |
| `Journal.DecisionIsTold` | src/runtime_recovery.rs:150-188 | a grant and a refusal of a POST each reach the process that waits for it |
| `Journal.OutcomeIsWritten` | src/account_import.rs:317-349 | the outcome reaches the waiting record: accepted, rejected, or for an unknown one what the protocol says; the process is done |
| `Journal.ObservationIsWritten` | src/session_delete.rs:224-277 | an accepted content is seen under its record, and a stop or delete writes that down |
| `Journal.ForgetTakesEffect` | src/account_import.rs:455-507 | a forgettable record can go exactly when it is rejected or its content finished; it then goes, and the key can be reserved anew |
| `Journal.StaleForgetDoesNothing` | src/runtime_recovery.rs:219-251 | a record that changed since it was looked at is not forgotten |
| `Journal.NoAnswer` | src/session_delete.rs:155-223 | a lost answer, a death and a refusal before sending leave the record as it is |
| `ImportPaths.RenderComponents` | src/account_import/source.rs:52-60 | splitting a built path gives back its names: valid names contain no slash |
| `ImportPaths.RenderInjective` | src/account_import/source.rs:52-60 | different trails of valid names have different paths |
| `ImportPaths.RenderValid` | src/account_import/receipt.rs:66-84 | every path built from valid names passes the receipt's path check, its length apart |
| `SourceCapture.Names` | src/account_import/source.rs:179-197 | succeeds exactly when all names are valid and within the remaining budget, and then lists them in order |
| `SourceCapture.Walker.Entry` | src/account_import/source.rs:265-346 | succeeds exactly when the independent survey does and all budgets hold at the end, visits exactly the surveyed items, never underflows a budget, and terminates on any graph |
| `SourceCapture.Walker.Children` | src/account_import/source.rs:265-346 | the same for a list of children |
| `SourceCapture.Selected` | src/account_import/source.rs:198-237 | the selected roots are exactly the specified ones, and it fails exactly when they are unacceptable or more than 64 |
| `SourceCapture.Walk` | src/account_import/source.rs:348-389 | a whole walk succeeds exactly when survey and budgets allow, with exactly those counters and records |
| `SourceCapture.Capture` | src/account_import/source.rs:390-411 | a capture succeeds exactly when reading walk and re-walk both do and agree on the names of the roots and on the records; its manifest is the sorted survey and its total the captured bytes |
| `CaptureSelection.ChosenIff` | src/account_import/source.rs:198-237 | with the names written out: the chosen entries are exactly the listed ones that were asked for |
| `CaptureSelection.ChosenRespectsSelection` | src/account_import/source.rs:198-237 | none of the seven history names unless included, no skills if excluded, and anything beyond the fourteen names only as a Markdown file |
| `CaptureSelection.SelectionFailsIff` | src/account_import/source.rs:179-237 | the selection fails exactly on an invalid name, more than 2048 entries, an unsafe entry that is asked for or more than 64 chosen ones |
| `CaptureSelection.SurveyComplete` | src/account_import/source.rs:265-346 | a successful survey lists everything that can be reached along names |
| `CaptureSelection.SurveySound` | src/account_import/source.rs:265-346 | and nothing else |
| `CaptureSelection.CapturedWasAsked` | src/account_import/source.rs:198-389 | every captured item lies below an entry that was asked for |
| `CaptureSelection.AskedIsCaptured` | src/account_import/source.rs:198-389 | everything below an entry that was asked for is captured |
| `CaptureSelection.AgreementMeansUnchanged` | src/account_import/source.rs:390-411 | when the two walks agree, both saw the same paths with the same stamps, and the same home |
| `CaptureSelection.CapturedWithinLimits` | src/account_import/source.rs:265-411 | what every captured manifest stays within, in numbers |
| `CaptureSelection.LimitsMean` | src/account_import/source.rs:265-346 | and no budget or file within these numbers is refused |
| `CaptureSelection.UnsafeNamesRefused` | src/account_import/source.rs:52-60 | names that are never captured, and two that are |
| `CaptureProperties.SurveyFinds` | src/account_import/source.rs:265-346 | every item found has the path of its own trail of valid names |
| `CaptureProperties.SurveyDistinct` | src/account_import/source.rs:265-346 | no two items of a walk share a trail |
| `CaptureProperties.ManifestLines` | src/account_import/source.rs:265-346 | every manifest line is acceptable and comes from a visited item |
| `CaptureProperties.ManifestTells` | src/account_import/source.rs:310-346 | the manifest tells size, digest and mode of every visited file, and of nothing else |
| `CaptureProperties.ManifestSizes` | src/account_import/source.rs:265-346 | the sizes in the manifest add up to the bytes counted |
| `CaptureProperties.ManifestDistinct` | src/account_import/source.rs:265-346 | manifest paths are pairwise distinct |
| `CaptureProperties.CapturedManifestGood` | src/account_import/source.rs:390-411 | every captured manifest is strictly sorted, acceptable line by line, within all budgets, and accounts for every byte |
| `ImportReceipt.CheckLines` | src/account_import/receipt.rs:66-99 | the loop accepts exactly strictly sorted good lines and returns their byte sum, within 64 bits |
| `ImportReceipt.Validate` | src/account_import/receipt.rs:40-99 | accepts exactly the acceptable receipts |
| `ImportReceipt.AcceptsExactlyTheEcho` | src/account_import/receipt.rs:6-99 | a receipt is accepted if and only if it carries the plan's account, tool, roots, exclusions, history flag and manifest, and valid free parts |
| `ImportReceipt.AcceptedReceiptShows` | src/account_import/receipt.rs:40-99 | what every accepted receipt shows, with the limits in numbers |
| `ImportReceipt.CapturedEchoPasses` | src/account_import/receipt.rs:40-99 | the honest echo of every non-empty capture is accepted |
| `StoreMigration.MovedExactly` | src/ego_browser.rs:2275-2310 | after all moves each listed file is under its new name only, with its content, and nothing else changed |
| `StoreMigration.CoveringPreserves` | src/ego_browser.rs:2275-2310 | a state that contains an intermediate layout has lost nothing |
| `StoreMigration.UndoBeside` | src/ego_browser.rs:2290-2310 | undoing one move gives the layout before it, beside a leftover link of a later file |
| `StoreMigration.Migration.Transfer` | src/ego_browser.rs:2275-2310 | link, unlink and removal of the link: succeeds exactly when neither of the first two fails, and leaves an extra link only after two failures in a row |
| `StoreMigration.Migration.MoveOne` | src/ego_browser.rs:2275-2310 | one move succeeds exactly into the next layout, or fails leaving at most one extra link |
| `StoreMigration.Migration.Rollback` | src/ego_browser.rs:2290-2310 | a completed rollback restores the start beside that link; an incomplete one has lost nothing |
| `StoreMigration.Migration.Migrate` | src/ego_browser.rs:2275-2310 | at every intermediate step every file keeps its content and nothing is overwritten; success moves exactly the listed files; a completed rollback equals the start but for at most one extra link of the failing file; without failing operations it moves everything exactly when no destination is taken, and two failures in a row come before any leftover |
| `DeviceInstall.ActivateRetains` | src/device.rs:143-166 | activation, failing at any rename, leaves the old app in place or in its backup, or the staged one in place |
| `DeviceInstall.InstallEffect` | src/device.rs:84-166 | everything an install can do to destination, backups and staging, whatever fails |
| `DeviceInstall.InstallRetains` | src/device.rs:84-166 | the installed app stays reachable unless superseded by the verified source, which is not older |
| `DeviceInstall.InstallFollows` | src/device.rs:108-166 | an install keeps the last app in place or moved aside, or supersedes it by its verified source, which is not older than an app in place |
| `DeviceInstall.KeepsAppIff` | src/device.rs:108-166 | an install keeps the last app under all faults if and only if that app is not aside in the backup of its own process identifier |
| `DeviceInstall.FloorKeptIff` | src/device.rs:100-106 | a version floor holds after all faulty installs if and only if the app in place meets it |
| `DeviceInstall.InstallsOldest` | src/device.rs:100-106 | over an empty destination the oldest version can be installed |
| `DeviceInstall.UpgradeInstalls` | src/device.rs:84-166 | with good replies a verified source of version v replaces an installed version u <= v, reports so and leaves no bundle of the process behind |
| `DeviceInstall.DowngradeRefused` | src/device.rs:981-990 | for v < u, or a version unknown, nothing changes, whatever the replies |
| `DeviceInstall.UnverifiedRefused` | src/device.rs:84-142 | a source that does not verify changes nothing, and a copy that does not is never activated |
| `DeviceInstall.InstalledMeans` | src/device.rs:143-166 | an install reports success only with the verified source in place and its bundles gone |
| `DeviceInstall.FailedActivationRollsBack` | src/device.rs:143-166 | when only the activation fails, the old app is back in place with no backup left |
| `DeviceInstall.BadCopyRemoved` | src/device.rs:108-142 | a copy that fails or does not verify is removed |
| `DeviceInstall.HistoryKeepsApp` | src/device.rs:84-166 | over every history without such reuse the last app in place is at the destination or in the backup of the process that moved it, and is the first one or the verified source of an install |
| `DeviceInstall.AlwaysKeptIff` | src/device.rs:84-166 | for every list of process identifiers: all faulty histories with them keep the last app if and only if they are distinct, or the app has no version and is never replaced |
| `DeviceInstall.ReusedPidLosesApp` | src/device.rs:108-166 | from any installed app: activation and rollback fail, the process identifier comes round again, and the app is gone |
| `DeviceInstall.VersionFloorIff` | src/device.rs:981-990 | while every install finds an app in place no version goes below the first; the next install can if and only if it finds none |
| `DeviceInstall.VersionNeverDecreasesIff` | src/device.rs:100-106 | for every list of process identifiers: no faulty history ends below the first version if and only if it has at most one install |
| `DeviceInstall.OlderAfterFailedRollback` | src/device.rs:100-166 | from any installed app: activation and rollback fail and the next install brings an older version |
| `DeviceInstall.Installer.ActivateStaged` | src/device.rs:143-166 | the renames as they run equal the specified activation |
| `DeviceInstall.Installer.InstallApp` | src/device.rs:84-166 | the installation as it runs equals the specified one |
| `DeviceArchive.Validate` | src/device.rs:240-305 | the budget loop accepts exactly the archives of at most 512 MiB with 1 to 50,000 distinct acceptable entries whose declared sizes are true and add up to at most 1 GiB, says exactly when size or count is to blame, and never expands more than one byte beyond the budget |
| `DeviceArchive.NextAdmissible` | src/device.rs:283-302 | exactly what one more entry must satisfy |
| `SyncReceipt.Receipt.Record` | src/sync_operations.rs:111-131 | adds one stage and, on failure, makes it the receipt's outcome and error |
| `SyncReceipt.Receipt.Local` | src/sync_operations.rs:217-260 | the local step's result is the first bad one of its answers; its stage is skipped exactly in dry runs, and uncertain exactly when Mutagen may have changed something or cannot say |
| `SyncReceipt.Receipt.Act` | src/sync_operations.rs:261-316 | the result is the first bad answer in the method's order; stages follow that order, name every change issued, and are all there and fine exactly on success |
| `SyncReceipt.Receipt.Create` | src/sync_operations.rs:317-433 | the same for ensure's first four stages: workspace, persist, server, persist |
| `SyncReceipt.Receipt.Await` | src/sync_operations.rs:434-452 | the result is that of the wait; waiting adds nothing, or one failed server stage that is then last |
| `SyncReceipt.Receipt.EnsureSync` | src/sync_operations.rs:317-473 | the same as for the other methods, with its two ways of ending |
| `SyncReceipt.Mutate` | src/sync_operations.rs:145-216 | a receipt is whole exactly when no answer it asked for was bad, and otherwise carries the code of the first bad one; every stage of the order was then reached and went well, and only the last stage can have failed or be unknown; without a receipt the refusal is that of the checks or of the missing session |
| `SyncReceipt.FirstBadIff` | src/sync_operations.rs:197-216 | the reported answer is good exactly when all were, and otherwise is bad with only good ones before it |
| `SyncReceipt.WaitIff` | src/sync_operations.rs:434-452 | the wait succeeds exactly when the session gets ready before it goes away, a look fails or the deadline passes |
| `SyncReceipt.ReadReceipt` | src/sync_operations.rs:197-316 | Mutagen precedes the server for pause and resolve and follows it for resume and reset; blame lies only with the last stage |
| `TunnelSupervisor.Supervise` | src/port_forward.rs:550-662 | every run leaves a lawful log, withdraws the shared sender, keeps the delay at its backoff value, takes turns up to the first deciding one and ends as that one says, attempts a connection in every turn with a token, and announces the result of the first probe that finishes |
| `TunnelSupervisor.TakeTurn` | src/port_forward.rs:564-662 | one turn ends as its answers decide, with at most one attempt, and announces a probe only while one is owed |
| `TunnelSupervisor.Acquire` | src/port_forward.rs:568-592 | a request for a token is granted, or ends the turn as the refusal decides |
| `TunnelSupervisor.ShutdownHeard` | src/port_forward.rs:564-662 | a shutdown is heard wherever the turn listens and a turn stops for nothing else; it gives up exactly on a lasting refusal or failure |
| `TunnelSupervisor.LastingFailures` | src/port_forward.rs:814-836 | the eleven lasting refusal codes, a missing code, a mismatch and a failed job are lasting; a broken connection is not |
| `TunnelSupervisor.Attempt` | src/port_forward.rs:592-655 | one attempt uses its token once and either asks for a retry or ends the supervisor |
| `TunnelSupervisor.UseConnection` | src/port_forward.rs:599-650 | a connection is shared only after its probe, resets the delay exactly then, and stops the supervisor exactly on a shutdown |
| `TunnelSupervisor.KeepShared` | src/port_forward.rs:628-650 | a probed connection publishes its sender, reports the first probe if still owed, and withdraws the sender at its end |
| `TunnelSupervisor.BackoffLaw` | src/port_forward.rs:563-592 | the delay is 250 ms doubled per wait, capped at 10 s |
| `TunnelSupervisor.WaitsBounded` | src/port_forward.rs:550-662 | every wait lasts between 250 ms and 10 s |
| `TunnelSupervisor.TokenUsedOnce` | src/port_forward.rs:568-600 | no connection token serves two SSH attempts |
| `TunnelSupervisor.InitialProbeOnce` | src/port_forward.rs:628-631 | the initial probe result is sent at most once |
| `TunnelSupervisor.SharedOnlyWhileConnected` | src/port_forward.rs:628-645 | the sender is shared only between a finished probe and the end of that connection |
| `TunnelSupervisor.NothingAfterReport` | src/port_forward.rs:577-585 | a terminal error is reported and nothing happens after it |
| `TunnelStream.HandshakeRoundTrip` | src/port_forward.rs:965-997 | every payload of 1 to 8192 bytes is sent, read back, and the following bytes are left; an empty one, which no serialized handshake is, would be refused |
| `TunnelStream.OnTheWire` | src/port_forward.rs:965-978 | the bytes on the wire: magic, big-endian length, payload; more than 8192 bytes are not sent |
| `TunnelStream.DecodeOnlyEncoded` | src/port_forward.rs:980-997 | whatever is read was the encoding of its payload |
| `TunnelStream.CutShort` | src/port_forward.rs:980-997 | no proper prefix of a handshake is taken for one |
| `TunnelStream.Drain` | src/port_forward.rs:919-931 | one buffer is sent in order in pieces that use up the granted capacity (section 6.9 of RFC 7540), or what is left is exactly the unsent rest, after a refusal or for want of an answer |
| `TunnelStream.Upload` | src/port_forward.rs:907-933 | the bytes sent and the unsent rest are exactly the bytes read, in order; each piece has a grant of its own; the end of stream is sent once, last, and exactly on completion |
| `AccountDefaults.StepKeeps` | src/account_defaults.rs:91-220 | every step of any call keeps the chain of changes |
| `AccountDefaults.NoLostUpdate` | src/account_defaults.rs:91-220 | in every run the changes of a default form one chain to its present value, each replacing the value its caller reviewed under the configuration it was reviewed under; every changing outcome is such a change, and no call changes twice |
| `AccountDefaults.OneAtATime` | src/account_defaults.rs:110-181 | two calls never hold a snapshot to publish from at the same time |
| `AccountDefaults.ClearPublishes` | src/account_defaults.rs:160-220 | a clear that nothing disturbs removes the default and reports what it was |
| `AccountDefaults.SetPublishes` | src/account_defaults.rs:110-158 | a set that nothing disturbs stores the resolved account and reports the previous one, under a registered login only |
| `AccountDefaults.Published` | src/account_defaults.rs:183-220 | publishing stores the value, leaves other tools alone, releases both locks and records a change exactly if there is one |
| `AccountDefaults.StaleReviewRefused` | src/account_defaults.rs:171-182 | a caller whose confirmed snapshot is out of date is refused with the reason |
| `AccountDefaults.TornSnapshotRefused` | src/account_defaults.rs:91-109 | a configuration that changes during a snapshot is noticed, and nothing is written |
| `AccountDefaults.LostSwapUnknown` | src/account_defaults.rs:183-220 | a swap whose success is not learnt is made and reported as unknown |
| `AccountDefaults.DeathReleases` | src/account_defaults.rs:110-220 | a process that dies releases its own locks and changes nothing else |
| `CanonicalJson.CanonicalEqualIff` | src/session_creation.rs:88-102 | two values canonicalise equally if and only if they differ only in the order of object members, at any depth |
| `CanonicalJson.NormalFormIff` | src/session_creation.rs:88-102 | a value is its own canonical form if and only if all its keys are sorted; canonicalising is idempotent |
| `CanonicalJson.CanonicalSame` | src/session_delete.rs:482-495 | the canonical form says what the value says |
| `Ordering.BeforeMeans` | src/session_delete.rs:482-495 | the order in which keys are sorted, on characters |
| `FrozenSelection.FreezeIgnoresOrder` | src/session_delete.rs:73-104 | every order of the listing freezes the same ids or is refused alike |
| `FrozenSelection.FreezeAllIff` | src/session_delete.rs:73-104 | without a reference: accepted exactly when non-empty, all deletable and at most 256 ids; every listed id is frozen once, in order |
| `FrozenSelection.FreezeOne` | src/session_delete.rs:78-104 | with a reference: exactly the session it resolves to |
| `FrozenSelection.DeletableIff` | src/session_delete.rs:26-32 | the three statuses that allow deletion |
| `FrozenSelection.FrozenAreDeletable` | src/session_delete.rs:73-104 | whatever is frozen is a session of the tool with such a status |
| `FrozenSelection.FreezeRefusals` | src/session_delete.rs:73-104 | why freezing is refused, in the order of the checks |
| `FrozenSelection.SubmitIff` | src/session_delete.rs:107-129 | submission accepts exactly distinct, deletable, non-empty collections of at most 256 and requests a sorted permutation of them |
| `FrozenSelection.FrozenIsAccepted` | src/session_delete.rs:73-129 | what was frozen is always accepted, under the same ids, all of them listed |
| `FrozenSelection.DigestsIgnoreOrder` | src/session_delete.rs:430-480 | both digest inputs are the same for every order of the listing |
| `FrozenSelection.SelectionInputBinds` | src/session_delete.rs:430-441 | equal digest inputs mean the same tool and ids |
| `FrozenSelection.IntentInputBinds` | src/session_delete.rs:452-474 | so do equal intent inputs, and none is ever a selection input |
| `FrozenSelection.TerminalIff` | src/session_delete.rs:326-334 | for a bound receipt the list test holds if and only if the deleted ids are a permutation of the frozen ones, and the receipt is terminal exactly then or by the server's flag or phase |
| `FrozenSelection.ContextsIff` | src/session_delete.rs:391-417 | the context check accepts exactly well-formed contexts in bijection with the frozen ids |
| `FrozenSelection.BindingIff` | src/session_delete.rs:364-390 | the binding check accepts exactly receipts with the recorded fields, deleted ids and statuses only of frozen ids, and one well-formed context per frozen id |
| `FrozenSelection.FieldsMean` | src/session_delete.rs:391-410 | what a well-formed context holds, in numbers |
| `FrozenSelection.FrozenReceipt` | src/session_delete.rs:73-417 | both together, from the listing to the receipt |
| `ShellQuote.JoinSplits` | src/ssh.rs:286-306 | splitting the joined text by the POSIX rules gives back every list of faithful paths |
| `ShellQuote.JoinSplitsIff` | src/ssh.rs:286-306 | and no other list |
| `ShellQuote.BackslashLost` | src/ssh.rs:298-306 | an unquoted backslash is eaten |
| `ShellQuote.BracketedText` | src/ssh.rs:286-297 | the text between the paste markers splits into the paths exactly when all are faithful |
| `ShellQuote.QuotedOnlyIfNeeded` | src/ssh.rs:298-306 | letters, digits and six marks are left as they are, anything else is quoted |
| `Identifiers.AddingNeverRedirects` | src/identifiers.rs:31-51 | more identifiers turn a unique match only into an ambiguous one |
| `Identifiers.MatchIff` | src/identifiers.rs:31-51 | a reference of at least four digits resolves exactly to the only listed identifier that starts with them |
| `Identifiers.NormalizeMeans` | src/identifiers.rs:53-64 | dashes do not matter, and only 1 to 32 hexadecimal digits pass |
| `Identifiers.DigitsNormalize` | src/identifiers.rs:53-64 | every such text passes, in lower case |
| `Identifiers.LengtheningKeeps` | src/identifiers.rs:31-51 | lengthening a reference within its identifier keeps its resolution |
| `Identifiers.ShortDigits` | src/identifiers.rs:3-9 | a short form is a prefix of the identifier's digits |
| `Identifiers.ShortResolvesIff` | src/identifiers.rs:3-64 | a short form of at least four digits resolves back exactly when no other listed identifier shares it |
| `Identifiers.MatchIgnoresOrder` | src/identifiers.rs:31-51 | the order of the listing does not matter |

## Left out

- The ego-browser commands other than `switch_server` are modelled on values, reduced to their effects on record, store, configuration and admission; commands run one after another, not concurrently.
- Device Client calls follow the stated contract: a purge leaves the identity, nothing or damage; an ensure leaves the store alone, damaged, or with an identity of the target under a new identifier; only claim and resume can open admission.
- Status, listing, request cancellation and server-side deletion of Devices and bindings: they write neither record nor admission nor identity.
- EgoSafety.ReconcileJustifies: a failing read of the identity gives no class here; in the source it counts as an absent identity when looking for each of the five artifacts fails as well, so the model takes a store with artifacts to show at least one of them (src/ego_browser.rs:1383, 1924-1935).
- The desktop claim is taken to use the same store directory as the commands.
- The journal is modelled for one caller key on values, because its processes interleave; rows, their limit and the SQL of `local_state` are insert-if-absent and compare-and-swap, a GET answers with a content the server has accepted the key for, and the login and configuration locks of an import or recovery are one, held from the reservation until the outcome is written or the process dies.
- Each walk of a capture sees a fixed graph; the two walks of one capture may see different ones. Directories list no name twice.
- Hashing is taken to be injective: a digest or fingerprint stands for what it was computed over, and serialization of canonical values to bytes is not modelled.
- StoreMigration.Migration.Migrate: its preconditions (distinct names, disjoint directories, existing sources) are what the caller's directory scan and preflight establish; file metadata checks before the move are not modelled.
- DeviceInstall.InstallRetains: semantic versions are numbers; signature, Gatekeeper and bundle checks are one flag.
- DeviceArchive.Validate: header agreement, encryption, file type and containment of an entry are one flag.
- SyncReceipt.Mutate: the observation fields of a receipt and the contents of snapshots are not modelled; a recheck is an answer that may be bad at any point.
- TunnelSupervisor.Supervise: time is only the length of each wait; answers are given turn by turn, so a run is looked at for any finite number of turns.
- TunnelStream.Upload: the download half of a stream and HTTP/2 itself are not modelled.
- AccountDefaults.NoLostUpdate: every writer of the configuration is taken to hold the configuration lock, and defaults to be written by `set` and `clear` alone, as in the source.
- FrozenSelection.TerminalIff: the server's own deleted flag and phase are believed as they are.
- Stop receipts (`stop_terminal`, `stop_failed`) and the polling loops around observation: each is settled by reading one branch.
- HTTP, TLS, JSON decoding, timeouts, signals, SSH, Mutagen, installers, credential stores, terminal output, argument parsing, the WireGuard renderer and file permission checks.
