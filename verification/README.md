# Verified model of nanobot's self-update and related cores

nanobot updates itself while its gateways are running. Several processes (a requester, a supervisor, a
detached worker, an installer child, a shutdown coordinator, a restart coordinator and the gateways)
coordinate only through operating-system file leases and small records that are replaced atomically,
and any of them may die between two writes. This project models those protocols as state machines whose
steps are single record reads, record writes and lease operations, with process loss possible at every
step, and proves what holds over every run. Beside them it models seven sequential cores of the same
repository, in their own imperative or functional form.

Assumed throughout: a record write is atomic and durable, a lease dies with its process, identifiers
from `uuid4` are fresh, digests are injective. A wall-clock deadline is a choice that may go either way.

| file | what it models |
|---|---|
| `RuntimeAdmission.dfy` | the admission gate of one runtime |
| `UpdateStop.dfy` | the two-phase cooperative shutdown of reviewed gateways |
| `DataAccess.dfy` | data leases, the maintenance reservation and startup grants |
| `UpdateWorker.dfy` | the 19-phase job journal with its owners, any number of orphaned children, and supervise's note |
| `UpdateWorkerTimely.dfy`, `UpdateWorkerRecords.dfy` | its invariants: while no note was saved late, and in every run |
| `UpdateWorkerLaws.dfy`, `UpdateWorkerQuiet.dfy` | which steps break the journal's laws, in every run and where no orphan works beside an owner |
| `UpdateWorkerRuns.dfy`, `UpdateWorkerOrphans.dfy`, `UpdateWorkerNotes.dfy` | concrete runs to breaking steps |
| `UpdateJobs.dfy` | generations of execution confirmations |
| `UpdateRestart.dfy`, `UpdateResume.dfy` | the activation barrier after an installation or an unmodified restoration, and when an interrupted one can be finished |
| `UpdateFallback.dfy` | the crash-safe return of the original program |
| `AccessBackfill.dfy` | apply and revert of the session access backfill |
| `OptionalFeatures.dfy` | the search for an optional feature's installed requirements |
| `Toml.dfy`, `McpInterop.dfy` | the Codex MCP exporter against the importer |
| `UpdateBackup.dfy`, `Ordering.dfy` | the backup inventory and the sorted source list |
| `Releases.dfy`, `ReleaseFeed.dfy` | release versions, catalogue succession, the shared catalogue cache |
| `RuntimeContext.dfy` | appending, detaching and reattaching prompt context |

A state machine module has the same shape everywhere: `State`, `Action`, a total `Step` (an action that
is not enabled changes nothing), `Run` over a sequence of actions, an invariant, one preservation lemma
per kind of step, and the results over whole runs. A `History` component records what happened; no
process reads it.

## What turned out false

Each of these is a lemma with a concrete run or input, beside the condition under which the property
holds.

- A run that was found ready can reopen intake although its attempt is committed, when its own wait is
  cancelled or faults (`UpdateStop.OwnFaultCanReopenACommittedAttempt`). A step takes a run off its
  committed way out exactly when it is that run's exit, or its own fault or shutdown before it stopped
  (`UpdateStop.WayOutIsLeftExactly`).
- The job's journal: `mutation_started` can return to false, SUCCEEDED, RESTORED, CANCELLED and
  FINALIZING can be left, and a mutated installation can lose its fences.
  `UpdateWorkerLaws.HistoryBreaksExactly` and `UpdateWorkerLaws.FencesFallExactly` name the guards of the
  steps that do it, after any run. Each has two lists: the steps that can break a law at any time, and
  those that can only after supervise saved its note over a status it had not read.
  - At the end of a failed recovery `supervise` reads the status and saves it again without worker.lock.
    A note that comes late takes a cancellation back (`UpdateWorkerNotes.NoteCanUndoCancellation`), erases
    a mutation, after which the job can be cancelled as unmodified (`NoteCanEraseMutation`,
    `ErasedMutationCanBeCancelled`), or sets a success back to a handoff without fences
    (`NoteCanReopenSuccess`). No orphan is needed.
    Afterwards a save or a cancellation already under way can break a law that it otherwise keeps
    (`CoordinatorCanBeOutdone`, `CancellationCanUnfence`).
  - `run_job`'s failure handler reads and saves the status without leases. Beside an orphaned installer
    it saves that nothing was mutated (`UpdateWorkerRuns.OrphanedInstallerCanBeForgotten`); if the orphan
    publishes between that save and the leases, the handler removes both fences of a mutating job
    (`HandlerCanUnfenceAnOrphan`); beside an orphaned restart coordinator it saves RESTART_FAILED over
    SUCCEEDED (`SuccessCanBeOverwritten`), or over FINALIZING, and the coordinator then releases the
    reservation under it (`CoordinatorCanUnfence`).
  - Every other save from a copy can forget an orphan's mutation in the same way: the backup step, the
    return of the original program, a refused recovery, a new handoff, a withdrawn one and the handler
    for busy leases (`UpdateWorkerOrphans`). A second restart coordinator can start over a finalizing one
    or release its fence under a failure (`SecondCoordinatorCanRestart`, `EntrantCanUnfence`).
  - The handler spares FINALIZING and SUCCEEDED but not RESTORED, so a restored service can be recorded
    FAILED with its fences gone (`RestoredCanBecomeFailed`); no orphan is needed.
  - A restored service whose packages never changed is recorded as mutated while its gateways return
    and as unmutated once they did, because the last save repeats the flag read first
    (`RestorationForgetsMutation`); `cancel_job`, which looks at that flag alone, can then cancel it
    (`RestoredCanBeCancelled`). No orphan is needed.
  - A finalizing job whose processes died can be finished if and only if no return of the original
    program stopped half way (`UpdateWorkerLaws.FinalizingFinishesIffNotReturning`); beside an orphan it
    can be stranded there for good (`FinalizingCanBeStranded`).
- While a service whose packages never changed is being restored, `cancel_job` and the failure handler's
  cleanup take both fences away with no gateway confirmed, and after the cleanup nothing can finish the
  restoration (`UpdateResume.CancellationCanLiftFences`, `UpdateResume.HandlerCanStrandRestored`). These
  are the only steps that lift a fence unconfirmed (`UpdateRestart.FencesFallUnconfirmedExactly`).
- `restore_service` looks for an activation before it takes its exclusive leases. An orphaned restart
  coordinator can publish one in between, and a program whose gateways were already authorized is then
  replaced (`UpdateResume.LateRestorationIsReachable`, `UpdateRestart.OnlyLateRestorationDowngrades`).
- After `restore_program`, a crash before the installation marker is rewritten, or a restored gateway
  that stops after recording its receipt, leaves a service that no later recovery can bring to RESTORED
  (`UpdateResume.RestoredServiceFinishesIffResumable`, `UpdateResume.CrashBeforeTheMarkerStrands`).
- `restore_program` run from an absent environment with nothing set aside finishes in one go but not
  across a crash (`UpdateFallback.ConvergesExactlyWhenRecoverable`).
- The backfill rewrites its report in place when it is done. A death inside that second write leaves
  every change applied and no report that leads back (`AccessBackfill.TornReportLosesTheWayBack`).
- The backup's walk counts an entry again for every store that names it, so "too many entries" can be
  raised about stores that fit (`UpdateBackup.OverlappingStoresOverrun`); the moment at which the walk
  stops then counts some path twice (`UpdateBackup.TooManyCountsRepeats`).
- A second apply of the backfill overwrites the report that led back to the original store
  (`AccessBackfill.SecondReportLeadsBackToTheInterruption`); a session is revertible only when its
  metadata line is canonical (`AccessBackfill.ReproducibleIffCanonical`).
- A second requirement with an already seen key escapes its own specifier
  (`OptionalFeatures.SecondSpecifierIsSkipped`), and True is wrong in no other way
  (`OptionalFeatures.TrueIsWrongOnlyByEscape`).
- Text consisting of an empty line before its context suffix does not survive detach and reattach
  (`RuntimeContext.ReattachAfterDetach`).

Where the code and its own documentation disagree the model follows the code. The backfill's
documentation promises that an interrupted run always leaves a store that `--revert` can restore
exactly; the comments of `restore_service` promise that recovery after a crash resumes the runtime
handoff. The items above say for which states the code keeps these promises.

## Model

| member | source | states |
|---|---|---|
| RuntimeAdmission.ClosedMeansIdle | nanobot/runtime_admission.py:72-115 | in every reachable gate, paused implies no active work, and the active count is what entered minus what left |
| RuntimeAdmission.NothingEntersUntilResumed | nanobot/runtime_admission.py:39-51 | after a pause no activity is admitted by any sequence of events without a resume |
| RuntimeAdmission.RuntimeAdmission.PauseIfIdle | nanobot/runtime_admission.py:82-96 | pauses exactly when nothing is active or pending, refuses otherwise, and keeps the registered checks |
| RuntimeAdmission.RuntimeAdmission.RegisterPendingWork | nanobot/runtime_admission.py:53-70 | a check is registered only while the gate is open, together with the handle that removes it once |
| RuntimeAdmission.RemoveFirstDropsOne | nanobot/runtime_admission.py:62-70 | removing a registered check drops exactly one occurrence and keeps the rest in order |
| UpdateStop.ReopenedAttemptsNeverCommit | nanobot/update_stop.py:135-175 | a run that reopened intake for a protocol reason belongs to an attempt that is never committed in any continuation |
| UpdateStop.LeavingTheWait | nanobot/update_stop.py:141-175 | a ready run leaves its wait only by stopping, by reopening, or by its own shutdown, fault or exit |
| UpdateStop.OnceCommittedOnlyStops | nanobot/update_stop.py:144-168 | once an attempt is committed, a waiting run stays idle and can only go on to stop, whatever the coordinator does |
| UpdateStop.ThreeOwnStepsStop | nanobot/update_stop.py:143-164 | such a run stops after three steps of its own even if every other process is dead |
| UpdateStop.CommitNeedsEveryReply | nanobot/update_stop.py:218-243 | commit is recorded only after every selected run wrote ready with this attempt and its reviewed run identity |
| UpdateStop.PhasesOnlyMoveForward | nanobot/update_stop.py:201-250 | per attempt the request record moves only prepare to abort, or prepare to commit to stopped |
| UpdateStop.OnlyReviewedRunsStop | nanobot/update_stop.py:119-135 | a run that stops was selected by the plan, answered ready for this attempt, and the attempt was committed |
| UpdateStop.RestartedRunsIgnoreOldAttempts | nanobot/update_stop.py:103-118 | a run started after an attempt was opened never stops on it |
| UpdateStop.PreparedRunsAreIdle | nanobot/update_stop.py:133-160 | from its ready reply through shutdown a waiting or stopped run has no active work and admits none |
| UpdateStop.CancelledPlansNeverCommit | nanobot/update_stop.py:276-301 | after settlement no attempt of the cancelled plan is committed |
| UpdateStop.WayOutIsLeftExactly | nanobot/update_stop.py:141-175 | after any run, a step takes a run off its committed way out if and only if it is that run's exit, or its own fault or shutdown before it stopped |
| UpdateStop.OwnFaultCanReopenACommittedAttempt | nanobot/update_stop.py:166-175 | a concrete run in which a cancelled wait reopens intake and its attempt is committed afterwards |
| DataAccess.LocksMeetExactlyWhenRootsOverlap | nanobot/data_access.py:321-332 | a writer's and a maintainer's lock sets meet if and only if a root of one equals or contains a root of the other |
| DataAccess.CollectStoreLocks | nanobot/data_access.py:318-332 | the nested loops build exactly the two-namespace lock set |
| DataAccess.ReservedDataHasOnlyEntitledHolders | nanobot/data_access.py:350-368 | while data is reserved, every live lease overlapping it belongs to the owning job with those roots or to a recorded participant |
| DataAccess.MaintenanceExcludesOverlap | nanobot/data_access.py:334-349 | no live maintenance lease coexists with an overlapping live lease, in any interleaving of acquisitions |
| DataAccess.ReserveRevokesNobody | nanobot/data_access.py:156-161 | a new reservation drops all grants, yet no live participant had one or shares its data |
| DataAccess.WriterRefusedExactlyByHeldLocks | nanobot/data_access.py:334-349 | after any run, acquisitions under way included, a writer is refused if and only if a maintainer holds a lock on one of its roots as an ancestor of its own, or on a root of its own at or above the writer's; writers never block each other |
| DataAccess.OnlyTheOwnerMovesTheFence | nanobot/data_access.py:163-200 | a pending reservation changes only under the live lease of its own job and exact scope |
| DataAccess.ReservedForMeansOverlap | nanobot/data_access.py:361-367 | the ancestor test that refuses an ordinary writer is the overlap of its roots with the reserved ones |
| DataAccess.DataDirectory.DataAccess | nanobot/data_access.py:297-368 | takes all leases or none, and succeeds exactly when nothing is in the way and the reservation admits the caller |
| DataAccess.DataDirectory.GrantStartup | nanobot/data_access.py:163-187 | records digest and scope for a participant that is not running, or changes nothing |
| UpdateWorkerLaws.HistoryBreaksExactly | nanobot/update_worker.py:713-902 | after any run, with any number of orphans and notes: a step forgets mutation or leaves SUCCEEDED, RESTORED, CANCELLED or FINALIZING for another phase if and only if it is one of the listed saves made from an older record, the cancellation of a restored job, a coordinator's start or end over a newer one, or a late note; or, once a note was late, one of the further listed saves over a record that says more |
| UpdateWorkerLaws.HistoryIsLawful | nanobot/update_worker.py:713-902 | between any two points of a run without such a step mutation is never forgotten, finished jobs stay finished and FINALIZING leads only to SUCCEEDED or RESTORED |
| UpdateWorkerLaws.OvertakenCopiesAreStale | nanobot/update_worker.py:818-840 | in every run, an owner that breaks the history works from a copy the status on disk has left behind, or found the job restored |
| UpdateWorkerLaws.FencesFallExactly | nanobot/update_worker.py:841-846 | after any run in which a mutated, unsettled installation has its marker, reservation and backup, a step takes one away if and only if it is the handler's cleanup after an installer published, the handler, the backup step or a note saving a mutated record after the fences fell, or a coordinator's release after FINALIZING was left; or, once a note was late, a cancellation or a save of run_job without its fences |
| UpdateWorkerLaws.MutationStaysFenced | nanobot/update_worker.py:545-570 | wherever owners and children die: while packages may be changed and nothing is settled, marker and reservation name this job and its backup is committed or the original's return has begun, in every run without one of those steps |
| UpdateWorkerLaws.FinalizingResumes | nanobot/update_restart.py:176-184 | after any run, a crash between the cleanup writes is finished by the next run without restarting anything, unless a return of the original program stopped half way |
| UpdateWorkerLaws.FinalizingFinishesIffNotReturning | nanobot/update_fallback.py:229-257 | after any run, a finalizing job whose processes died can still reach a final phase if and only if no return of the original program stopped half way |
| UpdateWorkerTimely.PunctualRunsKeep | nanobot/update_worker.py:713-902 | until a note is late, what each owner has read and each child has been admitted on stays consistent with the records, and leases keep them apart |
| UpdateWorkerRecords.RunsKeep | nanobot/update_fallback.py:354-359 | in every run, however late a note: saved and copied statuses fit the other records, and records change only under leases that nobody else holds |
| UpdateWorkerQuiet.QuietHistoryBreaksExactly | nanobot/update_worker.py:820-840 | with no orphan beside an owner the history is broken if and only if the handler saves over RESTORED, a restored job is cancelled, a coordinator's last save repeats an unmutated record, or a note is saved after the job went on; once a note was late, exactly by the general lists |
| UpdateWorkerQuiet.QuietFencesFallExactly | nanobot/update_worker.py:820-846 | with no orphan beside an owner the fences fall if and only if the handler, or a note, saves a mutated record whose fences are already gone; once a note was late, exactly by the general lists |
| UpdateWorkerRuns.OrphanedInstallerCanBeForgotten | nanobot/update_worker.py:818-840 | a concrete run in which mutation_started is recorded true and then false |
| UpdateWorkerRuns.HandlerCanUnfenceAnOrphan | nanobot/update_worker.py:840-846 | a concrete run in which the handler removes the marker of an installation an orphan began to change |
| UpdateWorkerRuns.RestorationForgetsMutation | nanobot/update_restart.py:162-234 | a concrete recovery without orphans whose last save turns the recorded mutation off |
| UpdateWorkerRuns.RestoredCanBeCancelled | nanobot/update_worker.py:889-902 | the same job is cancelled after its original service was restored |
| UpdateWorkerRuns.RestoredCanBecomeFailed | nanobot/update_worker.py:820-840 | a concrete run without orphans to RESTORED after which the handler records FAILED and both fences are gone |
| UpdateWorkerRuns.SuccessCanBeOverwritten | nanobot/update_worker.py:820-840 | a concrete run in which RESTART_FAILED is saved over SUCCEEDED |
| UpdateWorkerRuns.CoordinatorCanUnfence | nanobot/update_restart.py:228-233 | a concrete run in which an orphan releases the reservation under RESTART_FAILED |
| UpdateWorkerRuns.FinalizingCanBeStranded | nanobot/update_fallback.py:254-281 | a concrete run after which a finalizing job can never reach a final phase |
| UpdateWorkerNotes.NoteCanUndoCancellation | nanobot/update_fallback.py:354-359 | a concrete run without orphans in which a late note replaces CANCELLED |
| UpdateWorkerNotes.NoteCanEraseMutation | nanobot/update_fallback.py:354-359 | a concrete run without orphans in which a late note erases the mutation an installer published |
| UpdateWorkerNotes.ErasedMutationCanBeCancelled | nanobot/update_worker.py:889-902 | that job is then cancelled as unmodified and loses both fences |
| UpdateWorkerNotes.NoteCanReopenSuccess | nanobot/update_fallback.py:354-359 | a concrete run without orphans in which a late note replaces SUCCEEDED by a handoff without fences |
| UpdateWorkerNotes.CoordinatorCanBeOutdone | nanobot/update_restart.py:219-229 | after a late note set FINALIZING under a coordinator that started over, its next save leaves that phase |
| UpdateWorkerNotes.CancellationCanUnfence | nanobot/update_worker.py:889-902 | after a late note brought a forgotten mutation back, a cancellation under way lifts the fences of a mutating job |
| UpdateWorkerOrphans.BackupCanForgetAnOrphan | nanobot/update_worker.py:774-786 | a concrete run in which a second run_job saves BACKING_UP, unmutated, over an orphan's INSTALLING |
| UpdateWorkerOrphans.BackupCanUnfence | nanobot/update_worker.py:774-786 | a concrete run in which the backup step saves a mutated record after the fences were released |
| UpdateWorkerOrphans.ReturnCanForgetAnOrphan | nanobot/update_fallback.py:257-281 | a concrete run in which restore_service takes packages an orphan changed for unmodified |
| UpdateWorkerOrphans.RefusalCanForgetAnOrphan | nanobot/update_fallback.py:259-262 | a concrete run in which a refused recovery saves HANDOFF_FAILED over an orphan's INSTALLING |
| UpdateWorkerOrphans.HandoffCanForgetAnOrphan | nanobot/update_worker.py:465-468 | a concrete run in which a new handoff saves CHECKING over an orphan's INSTALLING |
| UpdateWorkerOrphans.WithdrawalCanForgetAnOrphan | nanobot/update_jobs.py:569-582 | a concrete run in which a failed launch saves HANDOFF_FAILED over an orphan's INSTALLING |
| UpdateWorkerOrphans.BusyHandlerCanForgetAnOrphan | nanobot/update_worker.py:813-820 | a concrete run in which the handler for busy leases saves HANDOFF_FAILED over an orphan's INSTALLING |
| UpdateWorkerOrphans.EntrantCanUnfence | nanobot/update_restart.py:176-184 | a concrete run in which a second coordinator releases the reservation under RESTART_FAILED |
| UpdateWorkerOrphans.SecondCoordinatorCanRestart | nanobot/update_restart.py:188-211 | a concrete run in which a second coordinator saves RESTARTING over FINALIZING |
| UpdateJobs.ConfirmationsAreUsedAtMostOnce | nanobot/update_worker.py:718-735 | no confirmation passes the claim twice, backs two supervisors or is consumed by two retries, under any crashes and delayed launchers |
| UpdateJobs.SupersededIsInert | nanobot/update_jobs.py:514-569 | once a newer confirmation is saved, the older one is never claimed, supervised or retried again |
| UpdateJobs.InterruptedRequestsAreNeverClaimed | nanobot/update_jobs.py:556-566 | a requester that dies after saving a confirmation and before approving it leaves one nobody can ever use |
| UpdateJobs.FinishedRequestIsClaimedOnce | nanobot/update_worker.py:718-735 | a finished request is claimed by the first launcher whose checks pass and by no second one |
| UpdateRestart.IntakeOpensUnderItsRecord | nanobot/update_restart.py:76-92 | intake opens only under a record naming the exact profile, run and version, which covers every selected gateway by verified identities |
| UpdateRestart.OpenGatewaysWereAdmitted | nanobot/update_restart.py:84-91 | every gateway with open intake is among those |
| UpdateRestart.FencesFallUnconfirmedExactly | nanobot/update_fallback.py:273-281 | after any run from an installed candidate or an unmodified restoration, a step lifts a fence or records a final phase before every selected gateway was confirmed at one version if and only if it is cancel_job or the failure handler's cleanup at a standing fence |
| UpdateRestart.FenceFallsAfterEveryoneIsActive | nanobot/update_restart.py:219-234 | in every run over an installed candidate, reservation, marker and final phase change only after every selected gateway was confirmed with open intake, all at one version |
| UpdateRestart.RestoredFenceFallsUnlessWithdrawn | nanobot/update_restart.py:219-234 | the same from either beginning, until such a step has lifted a fence |
| UpdateRestart.TimelyFencesFallAtTheVersionOnDisk | nanobot/update_restart.py:219-234 | that version is the one then on disk, unless a restoration came late |
| UpdateRestart.NoDowngradeAfterIntake | nanobot/update_fallback.py:254-257 | a restored installation never had a candidate gateway with open intake, unless a restoration came late |
| UpdateRestart.OnlyLateRestorationDowngrades | nanobot/update_fallback.py:254-281 | an unrestored handoff's step breaks the rule against downgrades if and only if it restores over an activation that appeared after the check |
| UpdateResume.LateRestorationIsReachable | nanobot/update_fallback.py:254-266 | a concrete run to such a restoration |
| UpdateResume.ResumableHandoffsFinish | nanobot/update_restart.py:188-234 | from any idle resumable handoff, for any set of gateways, a run reaches the final phase |
| UpdateResume.RestoredServiceFinishesIffResumable | nanobot/update_fallback.py:229-249 | an idle restored service can reach RESTORED if and only if marker, reservation and left-behind receipts allow it |
| UpdateResume.CancellationCanLiftFences | nanobot/update_worker.py:889-902 | a concrete run in which cancel_job lifts both fences of an unmodified restoration with no gateway confirmed |
| UpdateResume.HandlerCanStrandRestored | nanobot/update_worker.py:840-846 | a concrete run in which the failure handler does, after which no continuation reaches a final phase |
| UpdateResume.CrashBeforeTheMarkerStrands | nanobot/update_fallback.py:274-281 | after a crash between the program's journal and the marker no continuation reaches a final phase |
| UpdateFallback.Program.Restore | nanobot/update_fallback.py:181-208 | for any number of durable steps the process may take, the disk and outcome are those of the specification |
| UpdateFallback.CandidateIsAlwaysReplaced | nanobot/update_fallback.py:181-208 | after any interrupted attempts one more attempt ends with the snapshot in place, the candidate set aside and the journal at restarting |
| UpdateFallback.BothGenerationsSurvive | nanobot/update_fallback.py:198-207 | both program generations exist at exactly one path each whenever the process may die |
| UpdateFallback.ConvergesExactlyWhenRecoverable | nanobot/update_fallback.py:188-207 | restoration survives every pattern of crashes if and only if the disk is in one of three listed states |
| AccessBackfill.RevertIsExactOrRefuses | scripts/backfill_session_access_scope.py:374-413 | after any part of an apply and any interrupted reverts, revert refuses before its first write or restores every byte, and which of the two was fixed by the original store |
| AccessBackfill.ReproducibleIffCanonical | scripts/backfill_session_access_scope.py:241-257 | a line is reproduced byte for byte if and only if it is canonical JSON with its access keys last and in order |
| AccessBackfill.Rewrites | scripts/backfill_session_access_scope.py:250-257 | a rewritten line is one line, holds exactly the given record and forgets no other field |
| AccessBackfill.ResolvesAlike | scripts/backfill_session_access_scope.py:150-238 | resolution never reads an access record |
| AccessBackfill.SecondApplyPlansTheRest | scripts/backfill_session_access_scope.py:296-370 | applying again plans exactly the changes that did not land, and none after a complete apply |
| AccessBackfill.SecondReportLeadsBackToTheInterruption | scripts/backfill_session_access_scope.py:353-366 | the report of a second apply reverts to the interrupted store |
| AccessBackfill.TornReportLosesTheWayBack | scripts/backfill_session_access_scope.py:353-366 | wherever an apply over reproducible sessions dies, its report leads back to the original store, except exactly inside the second writing of the report |
| AccessBackfill.SessionStore.Apply | scripts/backfill_session_access_scope.py:296-366 | nothing is written unless the whole scan succeeds and no planned session moved since; then report, planned files in order and report again, each report first truncated, for any number of surviving steps |
| AccessBackfill.SessionStore.Revert | scripts/backfill_session_access_scope.py:374-413 | only a whole report is acted on; every entry is checked before the first file is replaced, and any number of replacements may happen |
| OptionalFeatures.Resolver.RequirementInstalled | nanobot/optional_features.py:124-144 | the search with its shared set terminates on every dependency graph and computes the specification |
| OptionalFeatures.Resolver.ExtraDependenciesInstalled | nanobot/optional_features.py:147-168 | likewise for one extra of one distribution |
| OptionalFeatures.TrueLeavesSeenClosed | nanobot/optional_features.py:124-172 | True leaves every seen key with an installed distribution and every active requirement of its extras seen |
| OptionalFeatures.FalseNamesAGap | nanobot/optional_features.py:124-168 | False means that an unmet requirement is reachable from the root |
| OptionalFeatures.InstalledIffNothingIsUnmet | nanobot/optional_features.py:171-172 | when requirements that share a key share their verdict, the answer is True if and only if nothing reachable is unmet |
| OptionalFeatures.TrueIsWrongOnlyByEscape | nanobot/optional_features.py:128-141 | an answer of True misses an unmet requirement if and only if a reachable specifier that rejects the installed version went unchecked behind a key already seen |
| OptionalFeatures.SecondSpecifierIsSkipped | nanobot/optional_features.py:127-134 | a concrete environment where True is answered although a reachable requirement is unmet |
| UpdateBackup.Inventory | nanobot/update_backup.py:77-96 | terminates; returns exactly the reachable entries, each once, in order and within limits, or a justified error; on separate stores succeeds exactly when everything is readable and fits; "too many" exactly at an overrun |
| UpdateBackup.TooManyCountsRepeats | nanobot/update_backup.py:89-95 | the walk says "too many" if and only if it comes to a moment at which recorded and waiting paths together have just passed the limit; there are that many different ones if and only if none is counted twice by then, and about stores that fit one always is |
| UpdateBackup.Walk | nanobot/update_backup.py:77-95 | the loop ends with the specified entries or error, and stops with "too many" at exactly that moment |
| UpdateBackup.OverlappingStoresOverrun | nanobot/update_backup.py:81-95 | two nested stores of two entries in all are refused at a limit of two |
| UpdateBackup.Expand | nanobot/update_backup.py:89-95 | every child of a directory is pushed once, up to the child at which the counters run over; on separate stores an overrun is a real one |
| UpdateBackup.ClosedHoldsChains | nanobot/update_backup.py:77-96 | a set with the sources and all children of its directories holds every reachable path |
| UpdateBackup.UniqueSources | nanobot/update_backup.py:45-46 | the result is in order and depends only on which paths were given |
| Ordering.SortedIsUnique | nanobot/update_backup.py:96 | a set of texts has only one sorted list |
| Releases.ReleaseVersionIsExact | nanobot/releases.py:35-41 | a text is accepted as a version if and only if it is that version's canonical text |
| Releases.CanonicalIsInjective | nanobot/releases.py:35-41 | equal canonical texts are equal versions, so versions may be compared as texts |
| ReleaseFeed.CacheNeverRegresses | nanobot/release_feed.py:191-209 | over any interleaving of clients with stale reads and delayed responses the cache only moves to successors |
| ReleaseFeed.WithdrawnStaysWithdrawn | nanobot/release_feed.py:191-209 | once any client accepted a withdrawal, no later accepted catalogue offers that version |
| ReleaseFeed.LaterOffersAreNotOlder | nanobot/releases.py:148-169 | over any interleaving of clients, while a channel's candidates stay eligible, later offers are there and never older |
| ReleaseFeed.GenerationsIdentifyCatalogues | nanobot/release_feed.py:198-209 | accepted catalogues have equal generations if and only if they are equal |
| RuntimeContext.DetachAfterAppend | nanobot/runtime_context.py:120-181 | detaching what was appended gives back the visible content, the sources and the appended text |
| RuntimeContext.PublicShowsTheOriginal | nanobot/runtime_context.py:215-240 | users see exactly the content the context was appended to, every other field unchanged |
| RuntimeContext.ReattachRebuildsAppend | nanobot/runtime_context.py:184-212 | reattaching what was detached rebuilds the appended content and its marker |
| RuntimeContext.ReattachAfterDetach | nanobot/runtime_context.py:148-212 | for any stored marker the round trip restores the content, except exactly when the visible part was only the separator |
| RuntimeContext.Normalize | nanobot/runtime_context.py:78-96 | the loop computes the specification, errors included |
| RuntimeContext.NormalBlocksStay | nanobot/runtime_context.py:78-96 | normalisation leaves a list alone if and only if it is normal |
| Toml.UnescapeReads | nanobot/mcp_interop.py:386-387 | a quoted safe text is read back exactly, with whatever follows it |
| Toml.ValueReads | nanobot/mcp_interop.py:386-395 | strings, integers, booleans, arrays and inline tables are read back as written |
| Toml.DumpLoads | nanobot/mcp_interop.py:42-69 | a whole exported document is read back as written |
| McpInterop.ExportedServersComeBack | nanobot/mcp_interop.py:42-115 | importing an export gives exactly the servers that could be rendered, each with what survives of it |
| McpInterop.UnchangedIffPortable | nanobot/mcp_interop.py:127-304 | the round trip is the identity on a server if and only if it is portable |
| McpInterop.HeadersSurvive | nanobot/mcp_interop.py:203-232 | literal and referring headers come back except those that look like credentials on either side |
| McpInterop.EnvSurvives | nanobot/mcp_interop.py:178-200 | inherited variables come back as references to themselves |
| McpInterop.SecretsStayOut | nanobot/mcp_interop.py:178-232 | the export of a server is the export of its redaction: no inline environment value or credential-like header reaches the text |
| McpInterop.RenderEnvironment | nanobot/mcp_interop.py:178-200 | the loop collects the inherited names in order |
| McpInterop.ImportEnvironment | nanobot/mcp_interop.py:276-290 | the two loops compute the imported environment |

## Left out

- HTTP, redirects, release discovery, Sigstore and wheel inspection: library behaviour and I/O; a release is eligible or not.
- pip and uv subprocesses, site initialisation, exec inheritance, Windows locks and process probing: steps that may succeed, fail or be killed.
- Record field bounds, path formatting, message texts, recovery commands and warnings of the exporter.
- Failed or torn disk writes and directory synchronisation: a write happens entirely or not at all, except that of the backfill's report.
- Case folding and alias resolution of paths, and the split of the delivery store between old and new updaters (`profile_data_access`): paths in the lease model are already canonical.
- Approval contents beyond identities (`check_approval`'s digests and lifetimes).
- Several jobs on one installation: they exist in the lease and reservation model only.
- UpdateWorkerLaws.MutationStaysFenced: false of some runs, as shown above; it is stated for the runs without a step that UpdateWorkerLaws.FencesFallExactly singles out.
- UpdateWorkerLaws.HistoryIsLawful: false of some runs likewise; it is stated for the runs without a step that UpdateWorkerLaws.HistoryBreaksExactly singles out.
- UpdateWorkerLaws.HistoryBreaksExactly: one job; the attempt counter, the verification child's own leases, the gateways' shared installation leases and the markers of other jobs are not recorded, and checks of files, wheels and environments may pass or throw at will. An entrypoint, a withdrawn launch or supervise's note may begin whenever its locks are free.
- UpdateStop.LeavingTheWait: exempts the run's own shutdown, fault and exit, as the code does.
- UpdateRestart.FenceFallsAfterEveryoneIsActive: gateways started by hand are refused by the fence and are not part of the machine; a FAILED that the failure handler saves over RESTORED ends these runs, and copies of the status read before the handoff began, by an owner or by supervise, are not saved into it: both are in UpdateWorkerLaws.
- UpdateRestart.TimelyFencesFallAtTheVersionOnDisk: for runs without a late restoration, see UpdateResume.LateRestorationIsReachable, and before a withdrawal.
- UpdateRestart.NoDowngradeAfterIntake: for runs without a late restoration, see UpdateResume.LateRestorationIsReachable.
- UpdateJobs.ConfirmationsAreUsedAtMostOnce: the launch failure path of `_start_handoff` writes only a status; it is the entrypoint WithdrawHandoff of UpdateWorker.
- AccessBackfill.RevertIsExactOrRefuses: assumes that JSON reads back what it prints on one line.
- AccessBackfill.SessionStore.Apply: other processes rewrite sessions only between the scan and the check; the same comparison before each single write then always succeeds, and a session moved later, which it refuses, is not modelled.
- AccessBackfill.ResolvesAlike: the classification of a session key and the collaboration store's own decisions are inputs.
- OptionalFeatures.InstalledIffNothingIsUnmet: marker and specifier evaluation are inputs, names are already canonical.
- UpdateBackup.Inventory: modes, times, device and inode numbers are one opaque stamp; the tree does not change during the walk.
- UpdateBackup.Expand: works on the list of children scandir returned, not on an open directory handle.
- ReleaseFeed.LaterOffersAreNotOlder: commits and digests are opaque texts, and the bounds on withdrawal reasons are not repeated; that succession is a partial order, and what it means for two offers, are helpers in Releases.
- Toml.DumpLoads: only the constructs the exporter writes; other escapes, comments, nested tables and multi-line values are outside the parser.
- McpInterop.ExportedServersComeBack: the credential pattern and the space class are inputs; the Agent Plugin servers merged in before an export are not part of this model.
- `ensure_backup`, archive verification and the snapshot copy of the program: file copying whose crash states add no protocol.
- The user interface, the agent loop, session manager, cron and gateway internals, build and release tooling.
