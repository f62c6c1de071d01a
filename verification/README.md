# A verified model of bmux's deployment, rendering and checking scripts

The scripts under `scripts/` deploy a live service, draw its audience view and check the tree. This project
models their hard parts in Dafny and proves what they promise:

- **The shared state bucket** (`bucket.dfy`, `protocol*.dfy`, `store*.dfy`, `program_views.dfy`,
  `marker_state.dfy`, `first_plan.dfy`). Any number of admissions, checks, archives, restores, release checks,
  first applies and OpenTofu runs work on one R2 bucket, interleaved request by request, and any of them can
  stop for good at any point. `Store` is the script's class: methods that send requests to a bucket which others
  change in between. `Protocol` is the system of all programs.
- **The installer ledger** (`installer*.dfy`) and **bucket provisioning and recovery** (`provisioning*.dfy`).
  Commands of one state directory, interrupted after any durable write. The classes carry the code; the
  theorems are about every sequence of what these methods can leave behind.
- **The audience renderer** (`presenter*.dfy`). Preparations race through awaits and a raster queue; every
  stretch between two awaits is one event. `Adapter` is the mutable adapter, equal to those events.
  `raster.dfy` is its bisection.
- **The masking lexer** (`masking*.dfy`), **the WebSocket client** (`websocket*.dfy`, `wire_bits.dfy`, RFC 6455),
  **pagination** (`pagination.dfy`), **the plan policy** (`plan_policy*.dfy`) and **stream matching**
  (`stream_match.dfy`, `attach_driver.dfy`). `common.dfy` holds what they share.

`dafny verify dfyconfig.toml` checks the whole project.

## What the proofs found

- `reset()` after `free()` calls the freed layout engine; no other call to it comes after `free()`
  (`PresenterTheorems.EngineMisusedIff`).
- A failed commit leaves everything as it was, except that a rollback whose own redraw fails leaves a blank
  canvas under a record that says otherwise (`PresenterTheorems.FailedCommitChangesNothing` states exactly
  when, `PresenterAlone.LostRedraw` is a run).
- An `abandon` interrupted between its two writes leaves an `abandoned-` record of an operation that the next
  `apply` still applies (`InstallerTheorems.AbandonedRecordIsNoFence`); what can still be applied is exactly
  what `InstallerTheorems.ApplicableIff` says.
- A plan that carries a receipt can never complete. `plan` runs `archive` twice (`live-install.py:505-506`): the
  first call needs state in the bucket, the second, with the admission file, needs its absence, and state never
  goes away (`FirstPlan.ReceiptPlanNeverArchives`, over all runs; `FirstPlan.FirstDeploymentStops` at the empty
  bucket). So no receipt-bearing operation is ever applied (`InstallerTheorems.ReceiptIsNeverApplied`), while
  plans without a receipt do complete (`FirstPlan.PlainPlanArchives`).
- A first apply can be fenced although there is already a state: `begin` lists the bucket and then replaces the
  marker on condition of the marker alone, so a state that an OpenTofu run writes in between is not noticed
  (`MarkerAndState.FenceMeetsStateIff` states exactly when, `MarkerAndState.FenceBesideState` is a run).
- `begin` keeps the marker's old ETag in the acknowledgement it rewrites; its phase alone makes it unusable.

## How the systems are modelled

- An ETag and a SHA-256 digest are injective functions of a body. A failed request ends its script, so a
  refusal and a lost reply both leave a program that takes no further step, the second after its effect.
- Writers outside the scripts touch neither the state, its lock, its history nor the admission marker;
  OpenTofu cooperates with the lock. Checks of the bucket's generation at the provider can only refuse, which
  a stop at that point covers.
- `save` is an atomic durable replace, the directory lock is mutual exclusion, and a random identifier is one
  that was not used before. Between two commands anybody may replace the plan file.
- A bucket generation is seen only through its creation date; other parties may delete the name and create it
  again, also with an equal date. The provider refuses to create a name in use.
- The canvas, the layout engine and the font loader are operations that succeed or throw. A layout with an
  invisible backing size counts as a throw. A scroll is a preparation and a commit. The release of the staging
  canvas runs between raster jobs, because it is chained to the same promise queue.
- `rasterMetrics` is over the reals. The matches of the test-gate regular expression are a parameter of
  `WithoutTests`, and white space is blank, tab, newline and carriage return.
- A JSON number is a real; Python's `True == 1` is modelled (`PlanPolicy.Plain`).
- Where the documentation of the scripts and their code differ, the model follows the code.

## Model

| member | source | states |
|---|---|---|
| `Store.Store.Admit` | scripts/archive-live-state.py:350-392 | `admit` makes, at each request, the step of the admission program, whatever the bucket has become since; it succeeds only where that program finishes, and fails only where the program stops or a reply was lost |
| `Store.Store.ResumeAdmission` | scripts/archive-live-state.py:358-371 | the resume branch follows its program and ends in `initial_check` of the file it wrote |
| `Store.Store.TakeAdmission` | scripts/archive-live-state.py:374-387 | the first-admission branch follows its program through lock, relisting and marker |
| `Store.Store.SaveAdmission` | scripts/archive-live-state.py:388-392 | acknowledgement before unlock, and only the own lock is removed |
| `Store.Store.InitialCheck` | scripts/archive-live-state.py:394-427 | `validate_admission` and `initial_check` follow the check program for every goal, the installer's first apply included |
| `Store.Store.CheckEmpty` | scripts/archive-live-state.py:415-421 | the lock and inventory checks follow the program |
| `Store.Store.BeginApply` | scripts/archive-live-state.py:421-427 | the remote fence precedes the local one, for a begin and for a first apply |
| `Store.Store.SpawnFirst` | scripts/live-install.py:547-550 | after `begin` the installer's ledger says applying before the apply is spawned |
| `Store.Store.Archive` | scripts/archive-live-state.py:472-476 | `archive` follows its program up to the copy |
| `Store.Store.ConfirmArchive` | scripts/archive-live-state.py:477-479 | the lock and the ETag are checked again before success |
| `Store.Store.Restore` | scripts/archive-live-state.py:481-493 | `restore` follows its program up to the lock |
| `Store.Store.RestoreLocked` | scripts/archive-live-state.py:496-499 | checks, backup and every failure keep the lock |
| `Store.Store.RestoreBackedUp` | scripts/archive-live-state.py:500-500 | the overwrite follows the program |
| `Store.Store.RestoreDone` | scripts/archive-live-state.py:501-505 | the reread and the unlock follow the program; only the own lock is removed |
| `Store.Store.ReleaseCheck` | scripts/archive-live-state.py:460-466 | `release_check` follows its program up to the listing of the cutover marker |
| `Store.Store.ReadFence` | scripts/archive-live-state.py:441-465 | a listed cutover marker must still be there, valid and completed |
| `Store.Store.Recheck` | scripts/archive-live-state.py:466-468 | success only if lock and state were found unchanged |
| `Store.Store.RereadFence` | scripts/archive-live-state.py:468-470 | and the cutover marker, listed and read again, is the one seen before |
| `StoreRefinement.RunIsDriven` | scripts/archive-live-state.py:350-505 | in every run of the whole system a program that is not stopped from outside is exactly where the views of its own steps drive it, and has done exactly the effects of those steps, which is what each of these methods does |
| `StoreRefinement.StoppedStays` | scripts/archive-live-state.py:350-505 | and one that is stopped, from outside or by a refusal, has no further effect |
| `ProgramViews.CourseOf` | scripts/archive-live-state.py:350-505 | whatever follows a program, as these methods do and every program of a run does, is a course of it, so what follows is about both |
| `ProgramViews.AdmitIff` | scripts/archive-live-state.py:350-392 | whatever others do between its requests, `admit` succeeds if and only if it finds the bucket empty, also under its own lock, or finds just this receipt's unused marker and passes its check; its exact effects in order in each case |
| `ProgramViews.CheckIff` | scripts/archive-live-state.py:394-421 | `initial_check` succeeds if and only if it finds an unused acknowledgement, its marker, no lock and nothing but the marker, and changes nothing |
| `ProgramViews.BeginIff` | scripts/archive-live-state.py:394-427 | `begin` succeeds if and only if it finds that and then the marker unchanged; the remote fence first, then the acknowledgement that says applying |
| `ProgramViews.FirstApplyIff` | scripts/live-install.py:544-550 | the first apply is spawned if and only if a begin succeeds, after both fences and the ledger |
| `ProgramViews.ArchiveIff` | scripts/archive-live-state.py:472-479 | `archive` succeeds if and only if it finds no lock, a state, a free key for its copy, and then no lock and the same state again; its one effect is that copy |
| `ProgramViews.RestoreIff` | scripts/archive-live-state.py:481-505 | `restore` succeeds if and only if it finds the archive its key names, no lock twice, the named state at each of three looks, a free backup key, the restored body and its own lock; lock, backup, overwrite and unlock in that order |
| `ProgramViews.FailureKeepsLock` | scripts/archive-live-state.py:496-505 | a lock is given back only by the step that succeeds |
| `ProgramViews.StateCheckIff` | scripts/archive-live-state.py:460-466 | a plain `check` succeeds if and only if it finds no lock and then an encrypted state, whose ETag it gives |
| `ProgramViews.ReleaseCheckIff` | scripts/archive-live-state.py:460-470 | a release check succeeds, with this ETag and digest, if and only if it finds no lock, the encrypted state they belong to and no cutover marker or a completed one, and then all of it again |
| `Protocol.RunKeepsInv` | scripts/archive-live-state.py:318-505 | over every interleaving: one lock holder, every program's copies and locks are what it believes, one effective begin, one apply, nothing lost |
| `Protocol.StepIsLegal` | scripts/archive-live-state.py:318-505 | a step changes the bucket only by a new history key, an absent lock or marker, the holder's overwrite of an archived state, the holder's unlock, or the fence on an admitted marker |
| `Protocol.LockTakenWhenFree` | scripts/archive-live-state.py:373-391 | the lock is taken only while absent and removed, and the state overwritten, only by a holder |
| `ProtocolTheorems.MarkerOnlyAdvances` | scripts/archive-live-state.py:350-427 | the marker only moves absent, admitted, applying, keeps its receipt, at most one `begin` takes effect, and history objects never change or vanish |
| `ProtocolTheorems.ApplyingFencesLaterPrograms` | scripts/archive-live-state.py:350-427 | once it is applying, no admission, check or begin started later succeeds and no begin under way takes effect |
| `ProtocolTheorems.AtMostOneFirstApply` | scripts/live-install.py:539-550 | across all machines at most one receipt-bearing apply is spawned; it belongs to the one effective begin and its machine's ledger is fenced |
| `ProtocolTheorems.SpawnIsFenced` | scripts/live-install.py:544-549 | at the moment of the spawn the remote marker and the ledger already say applying and no apply came before |
| `MarkerAndState.MarkerMeetsNoState` | scripts/archive-live-state.py:373-387 | in every run an admission marker is created only while there is no state in the bucket |
| `MarkerAndState.FenceMeetsStateIff` | scripts/archive-live-state.py:415-427 | a begin whose inventory passed finds a state at its fence if and only if an OpenTofu run wrote one in between |
| `MarkerAndState.FenceIgnoresState` | scripts/archive-live-state.py:421-427 | the fence takes effect if and only if the marker is still the admitted one, state or no state |
| `MarkerAndState.FenceBesideState` | scripts/archive-live-state.py:415-427 | from every initial system whose check passes, a run in which a begin takes effect beside a state |
| `ProtocolTheorems.LockHasOneOwner` | scripts/archive-live-state.py:318-323 | at most one holder, the lock object is the one it wrote, and only its own step changes it |
| `ProtocolTheorems.StoppedHolderBarsEveryone` | scripts/archive-live-state.py:318-505 | a holder that stops, or is refused at a step of its own, leaves lock and state as they are for ever, and nothing started later passes its first lock check or succeeds |
| `ProtocolTheorems.RestoreNeverLosesState` | scripts/archive-live-state.py:481-505 | every body a restore overwrote was archived just before and stays in history under its digest |
| `ProtocolTheorems.RestoreReturnsTheArchive` | scripts/archive-live-state.py:500-505 | a restore past its overwrite leaves exactly the archived body, whose digest is in its key, and cannot fail except by stopping |
| `ProtocolAlone.FirstApplyAlone` | scripts/archive-live-state.py:394-427 | undisturbed, begin and apply happen if and only if the acknowledgement is unused and its marker is the only object; otherwise nothing changes |
| `ProtocolAlone.BeginAlone` | scripts/archive-live-state.py:394-427 | the same of `begin`: exactly then it succeeds, and the marker and the acknowledgement both say applying |
| `ProtocolAlone.CheckAlone` | scripts/archive-live-state.py:394-421 | `initial_check` passes if and only if that condition holds, and changes nothing |
| `ProtocolAlone.AdmitAlone` | scripts/archive-live-state.py:350-392 | undisturbed, `admit` succeeds if and only if the output is new and the bucket is empty or holds just this receipt's unused marker; the exact bucket and file afterwards |
| `ProtocolAlone.ArchiveAlone` | scripts/archive-live-state.py:472-479 | undisturbed, `archive` succeeds if and only if there is no lock and there is encrypted state, and adds one exact copy |
| `ProtocolAlone.RestoreAlone` | scripts/archive-live-state.py:481-505 | undisturbed, exactly when `restore` completes, the exact bucket then, and the lock it leaves when it fails later |
| `FirstPlan.StateEndsFirstDeployment` | scripts/archive-live-state.py:350-427 | once there is state in the bucket there always is, and no admission, check, begin or first apply started later succeeds |
| `FirstPlan.ReceiptPlanNeverArchives` | scripts/live-install.py:505-506 | in every run, the two archive calls of a plan that carries a receipt never both succeed in order |
| `FirstPlan.FirstDeploymentStops` | scripts/live-install.py:477-505 | the failing input: on an empty bucket the admission succeeds and the very next archive stops |
| `FirstPlan.PlainPlanArchives` | scripts/live-install.py:505-506 | without a receipt both calls succeed whenever there is encrypted state, no lock and two unused keys |
| `Installer.StateDirectory.constructor` | scripts/live-install.py:381-394 | an empty state directory |
| `Installer.StateDirectory.Plan` | scripts/live-install.py:462-513 | what `plan` can leave, stopped anywhere, and exactly what it leaves when done; with nothing to stop it, it is done if and only if both archive calls succeeded, so never with a receipt |
| `Installer.StateDirectory.StartPlan` | scripts/live-install.py:462-472 | a planning ledger with a new operation is saved if and only if nothing is under way, and a completed one is filed first |
| `Installer.StateDirectory.Admit` | scripts/live-install.py:473-503 | the receipt is on record before it is admitted, and the account after both |
| `Installer.StateDirectory.SavePlan` | scripts/live-install.py:504-513 | archives, plan file and planned ledger in that order |
| `Installer.StateDirectory.Review` | scripts/live-install.py:515-526 | a review saves only a plan whose file has the recorded digest, and does so unless something stops it |
| `Installer.StateDirectory.Apply` | scripts/live-install.py:528-559 | the ledger says applying before the spawn; every place it can stop; what each phase leads to; it is done from each applicable phase unless something stops it |
| `Installer.StateDirectory.Reconcile` | scripts/live-install.py:561-574 | only an ambiguous apply becomes applied, with no spawn; done whenever the operation is exact and applying and nothing stops it |
| `Installer.StateDirectory.Abandon` | scripts/live-install.py:576-582 | the record, then the ledger |
| `Installer.StateDirectory.AckPages` | scripts/live-install.py:584-593 | only a Pages upload is acknowledged |
| `InstallerTheorems.StepKeeps` | scripts/live-install.py:420-593 | every command, however interrupted, keeps the ledger invariant and undoes nothing |
| `InstallerTheorems.RunIsValid` | scripts/live-install.py:392-593 | the invariant holds after every sequence of commands |
| `InstallerTheorems.AppliedAtMostOnce` | scripts/live-install.py:420-593 | each operation's apply is spawned at most once, by an invocation whose binding and plan file are those of the invocations that planned and reviewed it |
| `InstallerTheorems.PhaseNeverReturns` | scripts/live-install.py:420-593 | an operation's phase never goes back, so never from applying to reviewed, and a replaced operation never becomes current again |
| `InstallerTheorems.SpawnStaysOnRecord` | scripts/live-install.py:467-472 | every spawned operation stays recorded for ever with the plan and the binding it was applied with |
| `InstallerTheorems.ApplicableIff` | scripts/live-install.py:528-582 | some sequence of commands, with the plan file put back if it was replaced, applies an operation if and only if it is current and planned or reviewed |
| `InstallerTheorems.ReadyIff` | scripts/live-install.py:515-582 | the commands alone apply it if and only if, besides, the plan file is the planned one |
| `InstallerTheorems.ReceiptIsNeverApplied` | scripts/live-install.py:462-559 | in every run an operation that carries a receipt stays in planning until it is abandoned, and none is ever applied |
| `InstallerTheorems.AbandonedRecordIsNoFence` | scripts/live-install.py:576-582 | a run in which an operation with an `abandoned-` record is applied |
| `InstallerPhases.CommandsAccept` | scripts/live-install.py:392-593 | in every reachable directory, exactly which phases and bindings `plan`, `review` and `apply` accept; so a planned or reviewed operation is never replaced |
| `InstallerPhases.OthersAreRefused` | scripts/live-install.py:400-433 | until an operation is complete no command under another binding changes anything, and none that names another operation ever does |
| `InstallerPhases.LedgerGraph` | scripts/live-install.py:420-593 | the whole phase graph over every run: each step leaves ledger and applies alone, or replaces an operation in planning or complete, reviews, applies, goes on or abandons, each from its own phases with its own effects |
| `InstallerPhases.PlannedStaysCurrent` | scripts/live-install.py:462-472 | an operation that was planned stays the current one until it is complete |
| `InstallerPhases.AppliedWasFenced` | scripts/live-install.py:539-574 | what is recorded as applied was spawned, or was at its fence and reconciled |
| `Provisioning.Evidence` | scripts/live-state-recovery.py:65-97 | there is evidence if and only if the record is that of a successful creation, through the API, of this bucket in this account, at the given time and in both time windows; it is the live bucket's identity |
| `Provisioning.Provisioner.Plan` | scripts/provision-live-state.py:142-151 | done if and only if there is no operation and an existing bucket is approved |
| `Provisioning.Provisioner.Post` | scripts/provision-live-state.py:160-162 | one creation request, which creates a new generation if and only if the name is free |
| `Provisioning.Provisioner.CreateBucket` | scripts/provision-live-state.py:160-168 | one request, whose outcome counts only if the bucket then seen has the identity it created |
| `Provisioning.Provisioner.Apply` | scripts/provision-live-state.py:153-174 | the fence precedes the only request; a completed creation has recorded the identity its own request created; it changes nothing unless the planned identity is there; left alone, it is done if and only if it is |
| `Provisioning.Provisioner.AfterFence` | scripts/provision-live-state.py:160-174 | behind the fence an adoption completes and a creation makes one request |
| `Provisioning.Provisioner.Reconcile` | scripts/provision-live-state.py:207-215 | done if and only if an adoption was interrupted and the planned identity is there |
| `Provisioning.Provisioner.Completion` | scripts/provision-live-state.py:176-205 | done if and only if a creation is complete and no other receipt is in the way; a receipt is never overwritten |
| `Provisioning.Provisioner.Recover` | scripts/live-state-recovery.py:100-152 | confirmed and not stopped, done if and only if two such records prove one identity that fits ledger, journal and checkpoint; it changes nothing without both; once there is a journal, any other audit identity is refused and changes nothing; a completed rerun changes nothing |
| `Provisioning.Provisioner.Examine` | scripts/live-state-recovery.py:113-134 | the first look accepts exactly the ledger, evidence and journal that fit together |
| `Provisioning.Provisioner.Reconciled` | scripts/live-state-recovery.py:142-151 | journal, checkpoint and ledger in that order, each write skipped if it was made before |
| `Provisioning.Provisioner.StopAndRerun` | scripts/live-state-recovery.py:100-152 | stopped anywhere and rerun with the same evidence, recovery completes and leaves exactly what an unstopped one leaves |
| `ProvisioningTheorems.StepKeeps` | scripts/provision-live-state.py:142-215 | every command and every change by others keeps the invariant and undoes nothing |
| `ProvisioningTheorems.OneCreationRequest` | scripts/provision-live-state.py:153-174 | at most one creation request over all runs, and a creation completed without recovery is on record with the identity that request created |
| `ProvisioningTheorems.ReceiptsAgree` | scripts/provision-live-state.py:176-205 | any two receipts, at any two moments and paths, are equal |
| `ProvisioningTheorems.ReceiptIdentity` | scripts/provision-live-state.py:176-205 | a receipt names the generation created by the directory's one request, or after a recovery the identity in the journal |
| `ProvisioningTheorems.OthersAreRefused` | scripts/provision-live-state.py:142-215 | a command under another binding or for another operation changes nothing, and neither does a second plan |
| `ProvisioningTheorems.RecoveryNeedsBoth` | scripts/live-state-recovery.py:131-140 | a recovery that can complete an operation has the evidence twice, for one identity |
| `ProvisioningTheorems.RecoveryStep` | scripts/live-state-recovery.py:100-152 | a rerun moves along the four stages of one journal, and past the last nothing changes |
| `ProvisioningTheorems.RerunCompletes` | scripts/live-state-recovery.py:100-152 | at every stage a rerun that sees the journal's evidence can complete, and leaves the same directory |
| `ProvisioningTheorems.ReachedCanRecover` | scripts/live-state-recovery.py:100-152 | the same of every directory any run reaches with a journal on disk |
| `ProvisioningTheorems.JournalIsKept` | scripts/live-state-recovery.py:133-143 | the first journal is the only one |
| `ProvisioningTheorems.RecoveryIsIdempotent` | scripts/live-state-recovery.py:100-152 | however often it is stopped and rerun, the directory is at one of four stages of the first journal, and past the last nothing changes |
| `PresenterAdapter.Adapter.Prepare` | scripts/presenter-adapter.js:75-93 | `prepare` up to its first await is the event; a preparation that throws at once keeps its slot |
| `PresenterAdapter.Adapter.Finally` | scripts/presenter-adapter.js:84-85 | the `finally` gives one slot back |
| `PresenterAdapter.Adapter.Discard` | scripts/presenter-adapter.js:285-291 | `discard` is the event |
| `PresenterAdapter.Adapter.Commit` | scripts/presenter-adapter.js:240-284 | the try, catch and rollback of `commit` amount to the event: all or nothing |
| `PresenterAdapter.Adapter.Install` | scripts/presenter-adapter.js:246-265 | drawing, engine commit and record, stopped by whichever throws |
| `PresenterAdapter.Adapter.Rollback` | scripts/presenter-adapter.js:266-277 | geometry and picture come back unless the redraw fails |
| `PresenterAdapter.Adapter.Reset` | scripts/presenter-adapter.js:334-338 | `reset` is the event |
| `PresenterAdapter.Adapter.Free` | scripts/presenter-adapter.js:339-346 | `free` is the event, once; the canvas keeps its CSS size |
| `PresenterTheorems.RunKeeps` | scripts/presenter-adapter.js:67-346 | the invariant over every interleaving of preparations, jobs, aborts, commits, discards, resets and frees |
| `PresenterHistory.CommittedPartsAgree` | scripts/presenter-adapter.js:240-284 | whenever there is a record, canvas size and engine scene are its own, and the canvas shows its frame if and only if no commit since the last success failed after clearing the canvas and could not redraw it |
| `PresenterHistory.OneOpenTransaction` | scripts/presenter-adapter.js:88-292 | in every run at most one transaction is open, and it is the pending one, of the newest preparation |
| `PresenterStale.PrepareIff` | scripts/presenter-adapter.js:75-92 | a preparation starts, with the next token, if and only if fewer than two are under way, the renderer is not freed and the envelope is valid |
| `PresenterStale.ResourceIff` | scripts/presenter-adapter.js:118-135 | a loaded resource goes to the engine if and only if the preparation is the newest, not aborted and not freed |
| `PresenterStale.LayoutIff` | scripts/presenter-adapter.js:137-154 | the same of its layout, which must be visible |
| `PresenterStale.JobStartIff` | scripts/presenter-adapter.js:154-167 | the same of the start of its raster job, in the order of the queue |
| `PresenterStale.SnapshotIff` | scripts/presenter-adapter.js:171-184 | the same of the copy of its picture off the staging canvas |
| `PresenterStale.SurfaceIff` | scripts/presenter-adapter.js:187-217 | the same of each embedded surface |
| `PresenterStale.OpensIff` | scripts/presenter-adapter.js:233-294 | a transaction opens if and only if its own preparation resumes after its job resolved and is the newest, not aborted and not freed |
| `PresenterStale.CommitIff` | scripts/presenter-adapter.js:240-284 | a commit changes the record if and only if its transaction is open, its preparation is the newest, not aborted and not freed, and nothing fails; then canvas, scene and record are all its own |
| `PresenterStale.StaleForEver` | scripts/presenter-adapter.js:67-69 | once a preparation was aborted, or superseded by another, a reset or `free`, no later event opens its transaction or puts it on record |
| `PresenterStale.SettledForEver` | scripts/presenter-adapter.js:241-291 | once committed, with whatever outcome, or discarded, a transaction is never open again |
| `PresenterStale.ResetClears` | scripts/presenter-adapter.js:334-338 | after a reset there is no record, no scene and no open transaction, and the canvas is as it was |
| `PresenterStale.FreedIsBare` | scripts/presenter-adapter.js:339-346 | once freed the canvas is blank with no backing size and there is no record, for ever |
| `PresenterTheorems.OnlyTheNewestCommits` | scripts/presenter-adapter.js:67-69 | only the newest preparation commits, and a commit that meets no fault installs its own canvas, scene and record |
| `PresenterTheorems.FailedCommitChangesNothing` | scripts/presenter-adapter.js:240-284 | any other commit leaves record, scene and geometry, and the picture exactly unless a rollback's redraw fails |
| `PresenterTheorems.EngineMisusedIff` | scripts/presenter-adapter.js:88-346 | counting every call to the layout engine, it is called after it was freed if and only if the host resets after freeing |
| `PresenterTheorems.AtMostTwoInFlight` | scripts/presenter-adapter.js:75-86 | in every run `inFlight` is the number of preparations under way and of those whose `finally` is still to run, and never exceeds two |
| `PresenterAlone.PreparationOpens` | scripts/presenter-adapter.js:88-239 | from rest, an undisturbed preparation reaches an open transaction |
| `PresenterAlone.InitiallyIdle` | scripts/presenter-adapter.js:34-69 | a new renderer is at rest |
| `PresenterAlone.CommitShows` | scripts/presenter-adapter.js:240-284 | and its commit shows it |
| `PresenterAlone.LostRedraw` | scripts/presenter-adapter.js:266-277 | a run that ends with a record over a blank canvas |
| `Raster.FitsIsAntitone` | scripts/presenter-adapter.js:13-18 | a denser raster never fits where a sparser one does not |
| `Raster.Bisect` | scripts/presenter-adapter.js:24-28 | forty-eight halvings keep a fitting and a non-fitting end |
| `Raster.Densest` | scripts/presenter-adapter.js:20-28 | the clamped request if it fits, else a fitting ratio within the precision of one that does not; refusal if and only if the least does not fit |
| `Raster.RasterMetrics` | scripts/presenter-adapter.js:12-30 | the same for the returned cell metrics |
| `Raster.BackingStoreFits` | scripts/presenter-adapter.js:12-30 | the rounded-up backing size is within both caps and the metrics are in range |
| `Raster.FitsFunctionIsAntitone` | scripts/presenter-adapter.js:13-18 | the same of `fits` as a function, which the bisection is given |
| `Raster.NearlyTheDensest` | scripts/presenter-adapter.js:20-28 | no admissible ratio that fits is larger by more than the precision |
| `Raster.RefusedIff` | scripts/presenter-adapter.js:13-21 | a grid is refused if and only if it is more than 16384 columns, 8192 rows or 8388608 cells |
| `Masking.CodeOnly` | scripts/check-platform-boundaries.py:27-68 | the scanner computes the recursive token specification `Mask`; every character outside the tokens stays and every one inside, but for newlines, is blanked |
| `Masking.ScanToken` | scripts/check-platform-boundaries.py:33-63 | one comment or literal is scanned to the end the specification gives it |
| `Masking.ScanComment` | scripts/check-platform-boundaries.py:36-47 | nested comments end at the matching close or at the end of input |
| `MaskingTokens.CommentEndMeans` | scripts/check-platform-boundaries.py:36-47 | a block comment ends where closings first outnumber the openings inside it, read from the left, or with the text |
| `MaskingTokens.LineEndMeans` | scripts/check-platform-boundaries.py:33-35 | a line comment ends at the first newline |
| `MaskingTokens.StringEndMeans` | scripts/check-platform-boundaries.py:52-61 | a string ends after its first quote with an even run of backslashes before it |
| `MaskingTokens.RawEndMeans` | scripts/check-platform-boundaries.py:48-51 | a raw string ends after the first quote with its number of hashes |
| `MaskingTokens.RawIsLiteral` | scripts/check-platform-boundaries.py:48-48 | where one opens there are `r`, `br` or `cr`, hashes and a quote |
| `MaskingTokens.RawIsFound` | scripts/check-platform-boundaries.py:48-48 | and where there are, one opens with as many hashes |
| `MaskingTokens.CharLengthIsLiteral` | scripts/check-platform-boundaries.py:62-63 | a character literal is two quotes around a plain, escaped, `x` or `u` body |
| `MaskingTokens.LiteralIsFound` | scripts/check-platform-boundaries.py:62-63 | and wherever there is one, one is found |
| `Masking.MaskPreserves` | scripts/check-platform-boundaries.py:23-68 | masking keeps length and newlines and otherwise only blanks |
| `Masking.NothingOpens` | scripts/check-platform-boundaries.py:27-68 | no token opens anywhere in masked text |
| `Masking.MaskIsIdempotent` | scripts/check-platform-boundaries.py:27-68 | masking twice is masking once, for every text |
| `Masking.Closing` | scripts/check-platform-boundaries.py:71-80 | the first bracket that balances, or an error if and only if there is none |
| `Masking.ItemEnd` | scripts/check-platform-boundaries.py:91-106 | computes the item's end: past white space and attributes, its first stop, and the brace that closes it; fails if and only if a bracket never closes |
| `Masking.ItemEndMeans` | scripts/check-platform-boundaries.py:91-106 | that end is the first `;` or `,` before any brace, the brace that first balances, or the end of the text |
| `Masking.WithoutTests` | scripts/check-platform-boundaries.py:83-108 | fails if and only if a bracket of a visible gate's item never closes; otherwise blank exactly on the spans from each gate still visible to its item's end, newlines kept, and unchanged everywhere else |
| `Masking.GatesAreHidden` | scripts/check-platform-boundaries.py:88-107 | no gate is visible afterwards |
| `Masking.SameLine` | scripts/check-platform-boundaries.py:124-129 | position-preserving texts number their lines alike |
| `Masking.ReportedLine` | scripts/check-platform-boundaries.py:124-129 | a line is reported unless blanking fails, and it is the line of the original source |
| `WebSocketFrames.BigEndianDigits` | scripts/smoke-live-local.py:95-105 | each byte of a packed length is the digit of its place, most significant first |
| `WebSocketFrames.NumberOfBigEndian` | scripts/smoke-live-local.py:95-105 | packed lengths unpack to themselves |
| `WebSocketFrames.BigEndianOfNumber` | scripts/smoke-live-local.py:95-105 | and unpacked lengths pack to the bytes they came from |
| `WebSocketFrames.MaskedBits` | scripts/smoke-live-local.py:96-96 | a bit of the payload is inverted if and only if the mask byte of its place, modulo four, has that bit |
| `WebSocketFrames.MaskTwice` | scripts/smoke-live-local.py:96-96 | masking is its own inverse |
| `WebSocketFrames.LengthRoundTrip` | scripts/smoke-live-local.py:103-105 | each of the three length forms reads back |
| `WebSocketFrames.LengthIsEncoded` | scripts/smoke-live-local.py:103-105 | whatever reads as a length is one of the three forms of it |
| `WebSocketFrames.ChosenFormIsShortest` | scripts/smoke-live-local.py:95-95 | the client writes the shortest legal length form |
| `WebSocketFrames.EncodeHeader` | scripts/smoke-live-local.py:91-96 | every byte of a sent frame before its payload: final bit and opcode, mask bit and size, the size's digits, the mask |
| `WebSocketFrames.EncodePayload` | scripts/smoke-live-local.py:96-96 | and every bit of its payload against the mask |
| `WebSocketFrames.UnmaskMasked` | scripts/smoke-live-local.py:96-96 | unmasking bit by bit gives the payload back |
| `WebSocketFrames.EncodeRoundTrip` | scripts/smoke-live-local.py:91-96 | a decoder that unmasks bit by bit recovers opcode, payload and remainder of every frame sent |
| `WebSocketClient.ReadFrame` | scripts/smoke-live-local.py:101-107 | a frame that is accepted was all there and within the byte bound |
| `WebSocketClient.FrameRoundTrip` | scripts/smoke-live-local.py:101-107 | every server frame in any length form is read back exactly |
| `WebSocketClient.FrameLayout` | scripts/smoke-live-local.py:101-107 | every byte of a server frame: final bit and opcode, unmasked size in each of its forms, payload |
| `WebSocketClient.ReceiveReassembles` | scripts/smoke-live-local.py:98-115 | a fragmented message with pings and pongs between its fragments yields its concatenated payload, its pings in order and exactly the remainder |
| `WebSocketClient.OnlyMessagesAreReceived` | scripts/smoke-live-local.py:98-115 | whatever is returned as a message was the encoding of well-formed fragments within the bound; nothing else is accepted |
| `WebSocketClient.MessageIff` | scripts/smoke-live-local.py:98-115 | a stream yields a message if and only if it starts with the encoding of one, and then exactly that one |
| `WebSocketClient.ReceiveIsBounded` | scripts/smoke-live-local.py:98-115 | whatever the server sends, message and pings stay within the byte bound |
| `WebSocketClient.WebSocket.Read` | scripts/smoke-live-local.py:77-84 | the first bytes of the stream however it is split, the exact remainder, and an end of file if and only if it is too short |
| `WebSocketClient.WebSocket.SendRaw` | scripts/smoke-live-local.py:91-96 | what is written is the encoding of the frames sent, for any mask |
| `WebSocketClient.WebSocket.NextFrame` | scripts/smoke-live-local.py:101-107 | reads one frame off the socket exactly as off the whole stream |
| `WebSocketClient.WebSocket.ReceiveMessage` | scripts/smoke-live-local.py:98-115 | outcome, pongs sent, their order and the unread bytes do not depend on how the socket splits the stream |
| `Pagination.NumberedPage` | scripts/configure-live-imports.py:126-170 | an accepted page announces between one and twenty pages |
| `Pagination.OtherPageIsRefused` | scripts/configure-live-imports.py:152-170 | a reply that names another page than the one asked for, or is long and has no metadata, is refused |
| `Pagination.MixedPagesAreRefused` | scripts/configure-live-imports.py:187-192 | so no listing succeeds in which any reply is about another page |
| `Pagination.ListNumbered` | scripts/configure-live-imports.py:172-192 | succeeds if and only if one total is announced by each of its pages, returns them in order, in at most twenty requests |
| `Pagination.NeverTruncated` | scripts/configure-live-imports.py:128-192 | from a truthful server a listing that succeeds is the whole inventory, whatever its metadata omits |
| `Pagination.CompleteUpToTheBound` | scripts/configure-live-imports.py:152-192 | inventories of up to 200 items are listed whole under every accepted form of metadata, mixed or not |
| `Pagination.CursorPage` | scripts/configure-live-imports.py:133-151 | a page without a cursor is accepted only when it is short |
| `Pagination.ListByCursor` | scripts/configure-live-imports.py:172-186 | the loop follows cursors as specified, in at most twenty requests |
| `Pagination.CursorListingIff` | scripts/configure-live-imports.py:172-186 | succeeds if and only if a chain of distinct cursors leads to a short page without one, and returns that chain's pages |
| `PlanPolicy.HasUnknownIff` | scripts/live-plan-policy.py:26-36 | unknown if and only if some leaf is anything but `false` |
| `PlanPolicy.Validate` | scripts/live-plan-policy.py:39-100 | the loop accepts exactly the plans of the policy, in each mode |
| `PlanPolicy.ModesNest` | scripts/live-plan-policy.py:39-100 | release acceptance implies infrastructure acceptance implies configure acceptance |
| `PlanPolicy.AcceptedPlanKeeps` | scripts/live-plan-policy.py:59-82 | however far the apply of an accepted plan gets, no resource is removed, none outside the reviewed set changes, and an existing machine keeps its mounts |
| `PlanPolicy.ReleaseChangesOnlyTheImage` | scripts/live-plan-policy.py:85-99 | however far the apply of a release plan gets, only the machine's image and computed fields change |
| `PlanPolicyCases.UnfinishedIsRejected` | scripts/live-plan-policy.py:40-43 | an errored, incomplete, deferred or misshapen plan is rejected in every mode |
| `PlanPolicyCases.UnreviewedIsRejected` | scripts/live-plan-policy.py:44-86 | so is one that lists a deposed or legacy resource, destroys anything or changes one outside the reviewed set; an import unless configuring; in a release anything but an update of the machine |
| `PlanPolicyCases.ImageReleaseIsAccepted` | scripts/live-plan-policy.py:84-100 | and the plan that only changes the image is accepted, whatever the machine and the image |
| `PlanPolicyCases.ReleaseKeepsField` | scripts/live-plan-policy.py:84-99 | however far the apply of a release gets, every field of the machine stays but its image and the four computed ones |
| `PlanPolicyCases.MountsStay` | scripts/live-plan-policy.py:59-82 | in every mode an existing machine keeps as many mounts, each with its path and volume |
| `StreamMatch.CountIsCardinality` | scripts/smoke-terminal-bench.py:86-93 | counting at the ends of occurrences counts the places |
| `StreamMatch.Drain` | scripts/smoke-terminal-bench.py:89-92 | the inner loop computes what is left and the replies of `Drained` |
| `StreamMatch.DrainedCounts` | scripts/smoke-terminal-bench.py:89-92 | for every pattern without a border, each of those replies counts one occurrence of the whole stream and loses none |
| `StreamMatch.DrainedHasNone` | scripts/smoke-terminal-bench.py:89-92 | and no occurrence is left |
| `StreamMatch.KeptCounts` | scripts/smoke-terminal-bench.py:93-93 | dropping all but the last bytes loses no occurrence that can still complete |
| `StreamMatch.CountReplies` | scripts/smoke-terminal-bench.py:86-93 | for every pattern without a border, replies equal the occurrences in the whole stream, whatever its blocks |
| `StreamMatch.QueryIsBorderFree` | scripts/smoke-terminal-bench.py:89-93 | the terminal query is such a pattern and three bytes are kept |
| `StreamMatch.ContainsIsChunkFree` | scripts/compat-pty.py:93-94 | a long enough tail and the new data find exactly what the whole transcript holds |
| `AttachDriver.Driver.Accept` | scripts/compat-pty.py:87-94 | output is accepted if and only if it stays within the limit, and only the tail and the new data are searched |
| `AttachDriver.TookReads` | scripts/compat-pty.py:92-94 | which finds the readiness sequence exactly when it is complete in the whole transcript |
| `AttachDriver.Driver.Detach` | scripts/compat-pty.py:95-101 | the chord is written if and only if the driver is ready, the marker is there and a detach is due |
| `AttachDriver.Driver.Handle` | scripts/compat-pty.py:79-101 | one turn is its output and then its detach, or nothing past the limit |
| `AttachDriver.Driver.Follow` | scripts/compat-pty.py:73-101 | the loop is the fold of its turns, and why it stops |
| `AttachDriver.AfterReads` | scripts/compat-pty.py:73-101 | that fold has the whole output as its transcript and exactly the detaches due once the readiness sequence is complete, however the output is split |
| `AttachDriver.Driver.Drive` | scripts/compat-pty.py:66-113 | the transcript is the output of the turns handled and why it stops there; the detaches and the exit code as functions of those turns |
| `AttachDriver.DetachesAreReady` | scripts/compat-pty.py:93-101 | each detach belongs to a turn with the marker there and the complete readiness sequence in all the output up to it |

## Left out

- HTTPS, request signing, XML and JSON parsing, response-size loops and deadlines: transport, whose failures are refusals here.
- Subprocess, selector, PTY and process-group handling: operating-system behaviour.
- File permissions, symbolic links and ownership: `save` is atomic and the directory lock exclusive by assumption.
- Regular-expression validation of identifiers, hostnames and profiles: single-branch facts.
- `scripts/smoke-pty.py`: it keeps as many tail bytes as its pattern has, so a paint can be counted again; no count is claimed for it.
- `snapshot` in `scripts/provision-live-state.py`: its inventory loop repeats the cursor listing with weaker checks.
- `public_change_summary` and `plan_receipt` in `scripts/live-plan-policy.py`: a label set and a keyed digest.
- Unpaged collections in `scripts/configure-live-imports.py`: any pagination metadata refuses them.
- JSON decoding of text messages and the HTTP upgrade of the WebSocket client.
- The remaining scripts, the Rust packages, fonts, packaging and the browser harnesses: drivers and thin wrappers.
- Store.Store.Admit: the generation check at the provider is not a separate step, because it can only refuse.
- Installer.StateDirectory.Plan: import identities, cost acceptance and the plan summary are not in the ledger, because no later command branches on them.
- Provisioning.Evidence: the storage class of the live bucket is not modelled, because another class only adds a refusal.
- Provisioning.Provisioner.Recover: times are exact reals, so the text form of a timestamp is not compared.
- PlanPolicy.Validate: NaN is not a JSON number here, so Python's unequal NaN values do not arise.
- Raster.RasterMetrics: real arithmetic, so the rounding of floating point is not modelled.
- Masking.WithoutTests: the gate regular expression is a parameter, because its matching is that of the `re` module.
- WebSocketClient.WebSocket.ReceiveMessage: after a rejected frame or a closed stream the unread bytes are not stated, because the script drops the connection.
