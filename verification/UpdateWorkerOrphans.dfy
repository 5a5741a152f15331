/**
 Concrete runs in which an owner works beside an orphan, to the remaining kinds of breaking steps.
 */
module UpdateWorkerOrphans {
  import opened Wrappers
  import opened UpdateWorker
  import opened UpdateWorkerTimely
  import opened UpdateWorkerRecords
  import opened UpdateWorkerLaws
  import opened UpdateWorkerQuiet
  import opened UpdateWorkerRuns

  // ---- beside an orphaned installer ----

  lemma SecondRunSeeks() returns (actions: seq<Action>)
    ensures Run(false, actions)
            == State(Job(Status(BackingUp, false), true, true),
                     Some(Owner(RunPlain, Preserving(SeekBackup(Status(BackingUp, false))), 0)), [Installer(InstallerNew)])
  {
    actions := SecondRunStarts();
    actions := OwnerGoes(false, actions, 1);
  }

  lemma SecondRunIsOvertaken() returns (actions: seq<Action>)
    ensures Run(false, actions)
            == State(Job(Status(Installing, true), true, true),
                     Some(Owner(RunPlain, Preserving(SeekBackup(Status(BackingUp, false))), 0)), [Gone(true)])
  {
    actions := SecondRunSeeks();
    actions := ChildRuns(false, actions, 0, 6);
  }

  lemma SecondRunBacksUp() returns (actions: seq<Action>)
    ensures Run(false, actions)
            == State(Job(Status(Installing, true), true, true),
                     Some(Owner(RunPlain, Preserving(ToBackUp(Status(BackingUp, false))), 0)), [Gone(true)])
  {
    actions := SecondRunIsOvertaken();
    actions := OwnerGoes(false, actions, 1);
  }

  /** A second run_job read the status before the orphan changed packages. */
  lemma BackupCanForgetAnOrphan() returns (actions: seq<Action>)
    ensures var s := Run(false, actions);
            && s.files.status == Status(Installing, true) && Overtakes(s, Advance)
            && Step(s, Advance).files.status == Status(BackingUp, false)
  {
    actions := SecondRunBacksUp();
  }

  lemma ReturnLooksGoes()
    ensures Goes(Handed(Status(BackingUp, false), true, true, true),
                 View(RestoreService, ALL_FREE, Some(true)), Deciding, 3)
            == Go(Handed(Status(BackingUp, false), true, true, true), Examining(CheckShutdown(Status(BackingUp, false))))
  {
  }

  lemma ReturnLooks() returns (actions: seq<Action>)
    ensures Run(true, actions)
            == State(Handed(Status(BackingUp, false), true, true, true),
                     Some(Owner(RestoreService, Examining(CheckShutdown(Status(BackingUp, false))), 0)),
                     [Gone(true), Installer(InstallerNew)])
  {
    actions := UpdateLaunched();
    actions := Act(true, actions, OwnerDies);
    actions := Act(true, actions, Start(RestoreService));
    ReturnLooksGoes();
    actions := OwnerGoes(true, actions, 3);
  }

  lemma ReturnFindsInstalled() returns (actions: seq<Action>)
    ensures Run(true, actions)
            == State(Handed(Status(Installing, true), true, true, true),
                     Some(Owner(RestoreService, Examining(CheckShutdown(Status(BackingUp, false))), 0)),
                     [Gone(true), Gone(true)])
  {
    actions := ReturnLooks();
    actions := ChildRuns(true, actions, 1, 6);
  }

  lemma ReturnForgetsGoes()
    ensures Goes(Handed(Status(Installing, true), true, true, true), View(RestoreService, ALL_FREE, Some(true)),
                 Examining(CheckShutdown(Status(BackingUp, false))), 4)
            == Go(Handed(Status(Installing, true), true, true, true).(restoration := Returned),
                  Returning(ToRestart(Status(BackingUp, false))))
  {
  }

  lemma ReturnForgets() returns (actions: seq<Action>)
    ensures Run(true, actions)
            == State(Handed(Status(Installing, true), true, true, true).(restoration := Returned),
                     Some(Owner(RestoreService, Returning(ToRestart(Status(BackingUp, false))), 0)),
                     [Gone(true), Gone(true)])
  {
    actions := ReturnFindsInstalled();
    ReturnForgetsGoes();
    actions := OwnerGoes(true, actions, 4);
  }

  /** restore_service takes packages that the orphan changed for unmodified, and keeps the new ones. */
  lemma ReturnCanForgetAnOrphan() returns (actions: seq<Action>)
    ensures var s := Run(true, actions);
            && s.files.status == Status(Installing, true) && Overtakes(s, Advance)
            && Step(s, Advance).files.status == Status(Restarting, false)
  {
    actions := ReturnForgets();
  }

  // ---- the same, before any shutdown was reviewed ----

  /** An admitted job with restarts whose shutdown nobody committed. */
  function Granted(status: Status, fenced: bool, backup: bool): Files {
    Files(true, status, fenced, fenced, backup, true, Absent, false, false)
  }

  lemma RestartsAdmissionGoes()
    ensures Goes(Initial(true).files, View(StartJob, ALL_FREE, None), Deciding, 3)
            == Leave(Granted(Status(Ready, false), false, false))
  {
  }

  lemma RestartsAdmitted() returns (actions: seq<Action>)
    ensures Run(true, actions) == State(Granted(Status(Ready, false), false, false), None, [])
  {
    actions := [];
    actions := Act(true, actions, Start(StartJob));
    RestartsAdmissionGoes();
    actions := OwnerGoes(true, actions, 3);
  }

  lemma RestartsBackUp() returns (actions: seq<Action>)
    ensures Run(true, actions)
            == State(Granted(Status(BackingUp, false), false, false),
                     Some(Owner(RunPlain, Preserving(ToCommitBackup(Status(Ready, false))), 0)), [])
  {
    actions := RestartsAdmitted();
    actions := Act(true, actions, Start(RunPlain));
    actions := OwnerGoes(true, actions, 5);
  }

  lemma RestartsLaunch() returns (actions: seq<Action>)
    ensures Run(true, actions)
            == State(Granted(Status(BackingUp, false), true, true),
                     Some(Owner(RunPlain, Replacing(AwaitInstaller), 0)), [Installer(InstallerNew)])
  {
    actions := RestartsBackUp();
    actions := OwnerGoes(true, actions, 4);
  }

  lemma RefusalGoes()
    ensures Goes(Granted(Status(BackingUp, false), true, true), View(RestoreService, ALL_FREE, None), Deciding, 4)
            == Go(Granted(Status(BackingUp, false), true, true), Examining(ToRefuse(Status(BackingUp, false))))
  {
  }

  lemma RecoveryRefuses() returns (actions: seq<Action>)
    ensures Run(true, actions)
            == State(Granted(Status(BackingUp, false), true, true),
                     Some(Owner(RestoreService, Examining(ToRefuse(Status(BackingUp, false))), 0)), [Installer(InstallerNew)])
  {
    actions := RestartsLaunch();
    actions := Act(true, actions, OwnerDies);
    actions := Act(true, actions, Start(RestoreService));
    RefusalGoes();
    actions := OwnerGoes(true, actions, 4);
  }

  lemma OrphanPublishes(status: Status)
    requires !Finished(status.phase)
    ensures Runs(Granted(status, true, true), Installer(InstallerNew), 5)
            == Turn(Granted(Status(Installing, true), true, true), Installer(InstallerWorking))
  {
  }

  /** restore_service refuses an uncommitted shutdown, over the orphan's record. */
  lemma RefusalCanForgetAnOrphan() returns (actions: seq<Action>)
    ensures var s := Run(true, actions);
            && s.files.status == Status(Installing, true) && Overtakes(s, Advance)
            && Step(s, Advance).files.status == Status(HandoffFailed, false)
  {
    actions := RecoveryRefuses();
    OrphanPublishes(Status(BackingUp, false));
    actions := ChildRuns(true, actions, 0, 5);
  }

  lemma RefusalSaves(s: State, o: Owner, copy: Status)
    requires s.owner == Some(o) && o.stage == Examining(ToRefuse(copy))
    ensures Step(s, Advance) == s.(files := s.files.(status := Status(HandoffFailed, false)), owner := None)
  {
  }

  lemma RecoveryRefused() returns (actions: seq<Action>)
    ensures Run(true, actions) == State(Granted(Status(HandoffFailed, false), true, true), None, [Installer(InstallerNew)])
  {
    actions := RecoveryRefuses();
    RefusalSaves(Run(true, actions), Owner(RestoreService, Examining(ToRefuse(Status(BackingUp, false))), 0),
                 Status(BackingUp, false));
    actions := Act(true, actions, Advance);
  }

  lemma HandoffReopens()
    ensures Goes(Granted(Status(HandoffFailed, false), true, true), View(RunHandoff, ALL_FREE, None), Deciding, 2)
            == Go(Granted(Status(HandoffFailed, false), true, true), Handing(ToCheck(Status(HandoffFailed, false))))
  {
  }

  lemma HandoffReopened() returns (actions: seq<Action>)
    ensures Run(true, actions)
            == State(Granted(Status(HandoffFailed, false), true, true),
                     Some(Owner(RunHandoff, Handing(ToCheck(Status(HandoffFailed, false))), 0)), [Installer(InstallerNew)])
  {
    actions := RecoveryRefused();
    actions := Act(true, actions, Start(RunHandoff));
    HandoffReopens();
    actions := OwnerGoes(true, actions, 2);
  }

  /** Once the refusal is recorded a new handoff may begin while the orphan still waits for its leases. */
  lemma HandoffCanForgetAnOrphan() returns (actions: seq<Action>)
    ensures var s := Run(true, actions);
            && s.files.status == Status(Installing, true) && Overtakes(s, Advance)
            && Step(s, Advance).files.status == Status(Checking, false)
  {
    actions := HandoffReopened();
    OrphanPublishes(Status(HandoffFailed, false));
    actions := ChildRuns(true, actions, 0, 5);
  }

  lemma HandoffChecks() returns (actions: seq<Action>)
    ensures Run(true, actions)
            == State(Granted(Status(Checking, false), true, true), None, [Installer(InstallerNew), Preflight(PreflightNew)])
  {
    actions := HandoffReopened();
    actions := OwnerGoes(true, actions, 1);
    actions := Act(true, actions, OwnerDies);
  }

  lemma RequesterWithdraws() returns (actions: seq<Action>)
    ensures Run(true, actions)
            == State(Granted(Status(Checking, false), true, true),
                     Some(Owner(WithdrawHandoff, ToWithdraw(Status(Checking, false)), 0)),
                     [Installer(InstallerNew), Preflight(PreflightNew)])
  {
    actions := HandoffChecks();
    actions := Act(true, actions, Start(WithdrawHandoff));
    actions := OwnerGoes(true, actions, 2);
  }

  /** start_handoff could not launch its worker, and records that over the orphan's mutation. */
  lemma WithdrawalCanForgetAnOrphan() returns (actions: seq<Action>)
    ensures var s := Run(true, actions);
            && s.files.status == Status(Installing, true) && Overtakes(s, Advance)
            && Step(s, Advance).files.status == Status(HandoffFailed, false)
  {
    actions := RequesterWithdraws();
    OrphanPublishes(Status(Checking, false));
    actions := ChildRuns(true, actions, 0, 5);
  }

  lemma HandoffIsBusy() returns (actions: seq<Action>)
    ensures Run(true, actions)
            == State(Granted(Status(Checking, false), true, true), Some(Owner(RunHandoff, Failing(CaughtBusy), 0)),
                     [Installer(InstallerNew), Preflight(PreflightNew)])
  {
    actions := HandoffChecks();
    actions := Act(true, actions, Start(RunHandoff));
    actions := OwnerGoes(true, actions, 2);
    actions := Act(true, actions, Throw(true));
  }

  lemma BusyHandlerReads() returns (actions: seq<Action>)
    ensures Run(true, actions)
            == State(Granted(Status(Checking, false), true, true),
                     Some(Owner(RunHandoff, Failing(ToBusyFail(Status(Checking, false))), 0)),
                     [Installer(InstallerNew), Preflight(PreflightNew)])
  {
    actions := HandoffIsBusy();
    actions := OwnerGoes(true, actions, 1);
  }

  /** The handler for busy leases, which spares an orphan's journal only as far as it has read it. */
  lemma BusyHandlerCanForgetAnOrphan() returns (actions: seq<Action>)
    ensures var s := Run(true, actions);
            && s.files.status == Status(Installing, true) && Overtakes(s, Advance)
            && Step(s, Advance).files.status == Status(HandoffFailed, false)
  {
    actions := BusyHandlerReads();
    OrphanPublishes(Status(Checking, false));
    actions := ChildRuns(true, actions, 0, 5);
  }

  // ---- two restart coordinators ----

  lemma CoordinatorRelaunched() returns (actions: seq<Action>)
    ensures Run(true, actions)
            == State(Handed(Status(Restarting, true), true, true, true), Some(Owner(RunPlain, Relaunching(AwaitRuntime), 3)),
                     [Gone(true), Gone(true), Runtime(RuntimeNew), Runtime(RuntimeNew)])
  {
    actions := SecondRunDispatches();
    actions := OwnerGoes(true, actions, 2);
  }

  lemma ThirdRunDispatches() returns (actions: seq<Action>)
    ensures Run(true, actions)
            == State(Handed(Status(Restarting, true), true, true, true),
                     Some(Owner(RunPlain, Admitting(Dispatching(Status(Restarting, true))), 0)),
                     [Gone(true), Gone(true), Runtime(RuntimeNew), Runtime(RuntimeNew)])
  {
    actions := CoordinatorRelaunched();
    actions := Act(true, actions, OwnerDies);
    actions := Act(true, actions, Start(RunPlain));
    actions := OwnerGoes(true, actions, 2);
  }

  lemma ThirdRunFails() returns (actions: seq<Action>)
    ensures Run(true, actions)
            == State(Handed(Status(Restarting, true), true, true, true),
                     Some(Owner(RunPlain, Failing(ToFail(Status(Restarting, true))), 0)),
                     [Gone(true), Gone(true), Runtime(RuntimeNew), Runtime(RuntimeNew)])
  {
    actions := ThirdRunDispatches();
    actions := CheckFails(true, actions, Owner(RunPlain, Admitting(Dispatching(Status(Restarting, true))), 0));
  }

  lemma FirstUnreserves() returns (actions: seq<Action>)
    ensures Run(true, actions)
            == State(Activated(Status(Finalizing, true), true, Absent),
                     Some(Owner(RunPlain, Failing(ToFail(Status(Restarting, true))), 0)),
                     [Gone(true), Gone(true), Runtime(RuntimeUnreserve(true)), Runtime(RuntimeNew)])
  {
    actions := ThirdRunFails();
    CoordinatorFinalizes();
    actions := ChildRuns(true, actions, 2, 7);
  }

  lemma FirstFinalizes() returns (actions: seq<Action>)
    ensures Run(true, actions)
            == State(Activated(Status(Finalizing, true), true, Absent),
                     Some(Owner(RunPlain, Failing(ToFail(Status(Restarting, true))), 0)),
                     [Gone(true), Gone(true), Gone(false), Runtime(RuntimeNew)])
  {
    actions := FirstUnreserves();
    actions := Act(true, actions, ChildDies(2));
  }

  lemma SecondReadsFinalizing() returns (actions: seq<Action>)
    ensures Run(true, actions)
            == State(Activated(Status(Finalizing, true), true, Absent),
                     Some(Owner(RunPlain, Failing(ToFail(Status(Restarting, true))), 0)),
                     [Gone(true), Gone(true), Gone(false), Runtime(RuntimeEntering(Status(Finalizing, true)))])
  {
    actions := FirstFinalizes();
    actions := ChildRuns(true, actions, 3, 2);
  }

  lemma HandlerSavesUnderIt() returns (actions: seq<Action>)
    ensures Run(true, actions)
            == State(Activated(Status(RestartFailed, true), true, Absent), None,
                     [Gone(true), Gone(true), Gone(false), Runtime(RuntimeEntering(Status(Finalizing, true)))])
  {
    actions := SecondReadsFinalizing();
    HandlerEnds(Run(true, actions), Owner(RunPlain, Failing(ToFail(Status(Restarting, true))), 0), Status(Restarting, true));
    actions := Act(true, actions, Advance);
  }

  /** A second coordinator releases the reservation for a finalization it has read, under RESTART_FAILED. */
  lemma EntrantCanUnfence() returns (actions: seq<Action>)
    ensures var s := Run(true, actions);
            && s.files.status == Status(RestartFailed, true) && Fenced(s.files) && Unfences(s, ChildStep(3, false))
            && !Fenced(Step(s, ChildStep(3, false)).files)
  {
    actions := HandlerSavesUnderIt();
    FoundFree(Run(true, actions), 3);
  }

  lemma FirstActivates() returns (actions: seq<Action>)
    ensures Run(true, actions)
            == State(Activated(Status(Activating, true), true, Absent), Some(Owner(RunPlain, Relaunching(AwaitRuntime), 3)),
                     [Gone(true), Gone(true), Runtime(RuntimeFinalize(true)), Runtime(RuntimeNew)])
  {
    actions := CoordinatorRelaunched();
    actions := ChildRuns(true, actions, 2, 6);
  }

  lemma SecondFinds(children: seq<Child>)
    requires children == [Gone(true), Gone(true), Runtime(RuntimeFinalize(true)), Runtime(RuntimeNew)]
          || children == [Gone(true), Gone(true), Runtime(RuntimeFinalize(true)), Runtime(RuntimeAdmitted)]
    ensures ChildFinds(Some(Owner(RunPlain, Relaunching(AwaitRuntime), 3)), children).shared
  {
  }

  lemma SecondReadsActivating() returns (actions: seq<Action>)
    ensures Run(true, actions)
            == State(Activated(Status(Activating, true), true, Absent), Some(Owner(RunPlain, Relaunching(AwaitRuntime), 3)),
                     [Gone(true), Gone(true), Runtime(RuntimeFinalize(true)), Runtime(RuntimeEntering(Status(Activating, true)))])
  {
    actions := FirstActivates();
    SecondFinds(Run(true, actions).children);
    actions := Act(true, actions, ChildStep(3, false));
    actions := Act(true, actions, ChildStep(3, false));
  }

  lemma FirstFinalizesBeside() returns (actions: seq<Action>)
    ensures Run(true, actions)
            == State(Activated(Status(Finalizing, true), true, Absent), Some(Owner(RunPlain, Relaunching(AwaitRuntime), 3)),
                     [Gone(true), Gone(true), Runtime(RuntimeUnreserve(true)), Runtime(RuntimeEntering(Status(Activating, true)))])
  {
    actions := SecondReadsActivating();
    actions := Act(true, actions, ChildStep(2, false));
  }

  lemma FirstDiesFinalizing() returns (actions: seq<Action>)
    ensures Run(true, actions)
            == State(Activated(Status(Finalizing, true), true, Absent), Some(Owner(RunPlain, Relaunching(AwaitRuntime), 3)),
                     [Gone(true), Gone(true), Gone(false), Runtime(RuntimeEntering(Status(Activating, true)))])
  {
    actions := FirstFinalizesBeside();
    actions := Act(true, actions, ChildDies(2));
  }

  /** A second coordinator starts all over although the first one had verified every gateway. */
  lemma SecondCoordinatorCanRestart() returns (actions: seq<Action>)
    ensures var s := Run(true, actions);
            && s.files.status == Status(Finalizing, true) && Overtakes(s, ChildStep(3, false))
            && Step(s, ChildStep(3, false)).files.status == Status(Restarting, true)
  {
    actions := FirstDiesFinalizing();
    actions := ChildRuns(true, actions, 3, 1);
  }

  // ---- a recovery resumed by two coordinators ----

  /** An admitted update, recovered before any package changed. */
  function Recovered(status: Status, fenced: bool, activation: bool): Files {
    Files(true, status, fenced, fenced, false, true, Returned, activation, true)
  }

  lemma AdmittedAfterShutdown() returns (actions: seq<Action>)
    ensures Run(true, actions)
            == State(Handed(Status(Stopping, false), false, false, true), Some(Owner(RestoreService, Deciding, 0)), [Gone(true)])
  {
    actions := ShutdownCommitted();
    actions := OwnerGoes(true, actions, 3);
    actions := Act(true, actions, OwnerDies);
    actions := Act(true, actions, Start(RestoreService));
  }

  lemma AdmittedReturnGoes()
    ensures Goes(Handed(Status(Stopping, false), false, false, true),
                 View(RestoreService, ALL_FREE, Some(true)), Deciding, 5)
            == Go(Recovered(Status(Stopping, false), false, false), Returning(ToReserveAgain(Status(Stopping, false))))
  {
  }

  lemma AdmittedReturned() returns (actions: seq<Action>)
    ensures Run(true, actions)
            == State(Recovered(Status(Stopping, false), false, false),
                     Some(Owner(RestoreService, Returning(ToReserveAgain(Status(Stopping, false))), 0)), [Gone(true)])
  {
    actions := AdmittedAfterShutdown();
    AdmittedReturnGoes();
    actions := OwnerGoes(true, actions, 5);
  }

  lemma AdmittedServiceGoes()
    ensures Goes(Recovered(Status(Stopping, false), false, false),
                 View(RestoreService, ALL_FREE, Some(true)), Returning(ToReserveAgain(Status(Stopping, false))), 4)
            == Launch(Recovered(Status(Restarting, false), true, false), Relaunching(AwaitRuntime), Runtime(RuntimeNew))
  {
  }

  lemma AdmittedRelaunched() returns (actions: seq<Action>)
    ensures Run(true, actions)
            == State(Recovered(Status(Restarting, false), true, false), Some(Owner(RestoreService, Deciding, 0)),
                     [Gone(true), Runtime(RuntimeNew)])
  {
    actions := AdmittedReturned();
    AdmittedServiceGoes();
    actions := OwnerGoes(true, actions, 4);
    actions := Act(true, actions, OwnerDies);
    actions := Act(true, actions, Start(RestoreService));
  }

  lemma ResumeGoes()
    ensures Goes(Recovered(Status(Restarting, false), true, false), View(RestoreService, ALL_FREE, Some(true)), Deciding, 4)
            == Launch(Recovered(Status(Restarting, false), true, false), Relaunching(AwaitRuntime), Runtime(RuntimeNew))
  {
  }

  lemma RecoveryResumed() returns (actions: seq<Action>)
    ensures Run(true, actions)
            == State(Recovered(Status(Restarting, false), true, false), Some(Owner(RestoreService, Relaunching(AwaitRuntime), 2)),
                     [Gone(true), Runtime(RuntimeNew), Runtime(RuntimeNew)])
  {
    actions := AdmittedRelaunched();
    ResumeGoes();
    actions := OwnerGoes(true, actions, 4);
  }

  lemma ResumedFinalizes()
    ensures Runs(Recovered(Status(Restarting, false), true, false), Runtime(RuntimeNew), 7)
            == Turn(Recovered(Status(Finalizing, true), true, true), Runtime(RuntimeUnreserve(false)))
  {
  }

  lemma ResumedUnreserves() returns (actions: seq<Action>)
    ensures Run(true, actions)
            == State(Recovered(Status(Finalizing, true), true, true), Some(Owner(RestoreService, Relaunching(AwaitRuntime), 2)),
                     [Gone(true), Runtime(RuntimeNew), Runtime(RuntimeUnreserve(false))])
  {
    actions := RecoveryResumed();
    ResumedFinalizes();
    actions := ChildRuns(true, actions, 2, 7);
  }

  lemma ResumedTimesOut() returns (actions: seq<Action>)
    ensures Run(true, actions)
            == State(Recovered(Status(Finalizing, true), true, true), Some(Owner(RunPlain, Deciding, 0)),
                     [Gone(true), Runtime(RuntimeNew), Gone(false)])
  {
    actions := ResumedUnreserves();
    actions := Act(true, actions, TimeOut);
    actions := Act(true, actions, Start(RunPlain));
  }

  lemma CleanupGoes()
    ensures Goes(Recovered(Status(Finalizing, true), true, true), View(RunPlain, ALL_FREE, Some(true)), Deciding, 4)
            == Launch(Recovered(Status(Finalizing, true), true, true), Relaunching(AwaitRuntime), Runtime(RuntimeNew))
  {
  }

  lemma CleanupLaunched() returns (actions: seq<Action>)
    ensures Run(true, actions)
            == State(Recovered(Status(Finalizing, true), true, true), Some(Owner(RunPlain, Relaunching(AwaitRuntime), 3)),
                     [Gone(true), Runtime(RuntimeNew), Gone(false), Runtime(RuntimeNew)])
  {
    actions := ResumedTimesOut();
    CleanupGoes();
    actions := OwnerGoes(true, actions, 4);
  }

  lemma CleanupReleasesBoth()
    ensures Runs(Recovered(Status(Finalizing, true), true, true), Runtime(RuntimeNew), 4)
            == Turn(Recovered(Status(Finalizing, true), false, true), Runtime(RuntimeCleanFinish))
  {
  }

  lemma CleanupUnfences() returns (actions: seq<Action>)
    ensures Run(true, actions)
            == State(Recovered(Status(Finalizing, true), false, true), Some(Owner(RunPlain, Relaunching(AwaitRuntime), 3)),
                     [Gone(true), Runtime(RuntimeNew), Gone(false), Runtime(RuntimeCleanFinish)])
  {
    actions := CleanupLaunched();
    CleanupReleasesBoth();
    actions := ChildRuns(true, actions, 3, 4);
  }

  lemma OrphanFinds(children: seq<Child>)
    requires children == [Gone(true), Runtime(RuntimeNew), Gone(false), Runtime(RuntimeCleanFinish)]
          || children == [Gone(true), Runtime(RuntimeAdmitted), Gone(false), Runtime(RuntimeCleanFinish)]
    ensures ChildFinds(Some(Owner(RunPlain, Relaunching(AwaitRuntime), 3)), children).shared
  {
  }

  lemma OrphanReadsFinalizing() returns (actions: seq<Action>)
    ensures Run(true, actions)
            == State(Recovered(Status(Finalizing, true), false, true), Some(Owner(RunPlain, Relaunching(AwaitRuntime), 3)),
                     [Gone(true), Runtime(RuntimeEntering(Status(Finalizing, true))), Gone(false), Runtime(RuntimeCleanFinish)])
  {
    actions := CleanupUnfences();
    OrphanFinds(Run(true, actions).children);
    actions := Act(true, actions, ChildStep(1, false));
    actions := Act(true, actions, ChildStep(1, false));
  }

  lemma CleanupRestores() returns (actions: seq<Action>)
    ensures Run(true, actions)
            == State(Recovered(Status(Restored, true), false, true), Some(Owner(RunPlain, Relaunching(AwaitRuntime), 3)),
                     [Gone(true), Runtime(RuntimeEntering(Status(Finalizing, true))), Gone(false), Runtime(RuntimeDone)])
  {
    actions := OrphanReadsFinalizing();
    actions := Act(true, actions, ChildStep(3, false));
  }

  lemma CleanupTimesOut() returns (actions: seq<Action>)
    ensures Run(true, actions)
            == State(Recovered(Status(Restored, true), false, true), Some(Owner(RunPlain, Failing(Caught), 3)),
                     [Gone(true), Runtime(RuntimeEntering(Status(Finalizing, true))), Gone(false), Gone(false)])
  {
    actions := CleanupRestores();
    actions := Act(true, actions, TimeOut);
  }

  lemma RestoredCaught() returns (actions: seq<Action>)
    ensures Run(true, actions)
            == State(Recovered(Status(Restored, true), false, true), Some(Owner(RunPlain, Failing(ToFail(Status(Restored, true))), 3)),
                     [Gone(true), Runtime(RuntimeEntering(Status(Finalizing, true))), Gone(false), Gone(false)])
  {
    actions := CleanupTimesOut();
    actions := Act(true, actions, Advance);
  }

  lemma RestoredFails() returns (actions: seq<Action>)
    ensures Run(true, actions)
            == State(Recovered(Status(Failed, true), false, true), None,
                     [Gone(true), Runtime(RuntimeEntering(Status(Finalizing, true))), Gone(false), Gone(false)])
  {
    actions := RestoredCaught();
    HandlerEnds(Run(true, actions), Owner(RunPlain, Failing(ToFail(Status(Restored, true))), 3), Status(Restored, true));
    actions := Act(true, actions, Advance);
  }

  lemma RepairDispatches(s: State)
    requires s.owner.None? && s.note.None? && s.files == Recovered(Status(Failed, true), false, true)
    ensures Step(Step(Step(Step(s, Start(RunPlain)), Advance), Advance), Advance)
            == s.(owner := Some(Owner(RunPlain, Preserving(SeekBackup(Status(Failed, true))), 0)))
  {
  }

  lemma RepairSeeks() returns (actions: seq<Action>)
    ensures Run(true, actions)
            == State(Recovered(Status(Failed, true), false, true),
                     Some(Owner(RunPlain, Preserving(SeekBackup(Status(Failed, true))), 0)),
                     [Gone(true), Runtime(RuntimeEntering(Status(Finalizing, true))), Gone(false), Gone(false)])
  {
    actions := RestoredFails();
    RepairDispatches(Run(true, actions));
    actions := Act(true, actions, Start(RunPlain));
    actions := Act(true, actions, Advance);
    actions := Act(true, actions, Advance);
    actions := Act(true, actions, Advance);
  }

  lemma OrphanRestores()
    ensures Runs(Recovered(Status(Failed, true), false, true), Runtime(RuntimeEntering(Status(Finalizing, true))), 4)
            == Turn(Recovered(Status(Restored, true), false, true), Gone(true))
  {
  }

  lemma RepairBacksUp() returns (actions: seq<Action>)
    ensures Run(true, actions)
            == State(Recovered(Status(Restored, true), false, true),
                     Some(Owner(RunPlain, Preserving(ToBackUp(Status(Failed, true))), 0)),
                     [Gone(true), Gone(true), Gone(false), Gone(false)])
  {
    actions := RepairSeeks();
    OrphanRestores();
    actions := ChildRuns(true, actions, 1, 4);
    actions := OwnerGoes(true, actions, 1);
  }

  /**
   A repair begun from a restored job's false failure saves a mutated record that has no fences left.
   The gateways, whose shared installation leases are not recorded here, had stopped by then.
   */
  lemma BackupCanUnfence() returns (actions: seq<Action>)
    ensures var s := Run(true, actions);
            && s.files.status == Status(Restored, true) && Fenced(s.files) && Overtakes(s, Advance) && Unfences(s, Advance)
            && Step(s, Advance).files.status == Status(BackingUp, true) && !Fenced(Step(s, Advance).files)
  {
    actions := RepairBacksUp();
  }
}
