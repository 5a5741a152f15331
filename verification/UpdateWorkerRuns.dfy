/**
 Concrete runs of the job's journal to steps that break one of its laws, with and without orphans.
 */
module UpdateWorkerRuns {
  import opened Wrappers
  import opened UpdateWorker
  import opened UpdateWorkerTimely
  import opened UpdateWorkerRecords
  import opened UpdateWorkerLaws
  import opened UpdateWorkerQuiet

  // ---- stretches of a run in which one process works alone ----

  const ALL_FREE := Leases(true, true, true, true)

  /** Up to `n` steps of an owner, ending where it leaves or launches a child. */
  function Goes(f: Files, v: View, stage: Stage, n: nat): Move
    requires n > 0
    decreases n
  {
    var move := OwnerMove(f, v, stage);
    if n == 1 || move.stage.None? || move.launched.Some? then move else Goes(move.files, v, move.stage.value, n - 1)
  }

  /** `n` steps of a child. */
  function Runs(f: Files, c: Child, n: nat): Turn
    decreases n
  {
    if n == 0 then Turn(f, c)
    else var turn := ChildTurn(f, ALL_FREE, c, false); Runs(turn.files, turn.child, n - 1)
  }

  predicate AllIdle(children: seq<Child>) {
    forall i :: 0 <= i < |children| ==> IsIdle(children[i])
  }

  function OwnerView(s: State, o: Owner): View {
    View(o.entry, ALL_FREE,
         if o.awaited < |s.children| && s.children[o.awaited].Gone? then Some(s.children[o.awaited].ok) else None)
  }

  /** One more action of a run. */
  lemma Act(restarts: bool, before: seq<Action>, a: Action) returns (after: seq<Action>)
    ensures Run(restarts, after) == Step(Run(restarts, before), a)
    ensures before <= after && (QuietRun(restarts, before) && Quiet(Run(restarts, before), a) ==> QuietRun(restarts, after))
  {
    RunSplits(restarts, before, a);
    after := before + [a];
    assert after[..|before|] == before;
  }

  lemma OwnerStepsFreely(s: State, o: Owner)
    requires s.owner == Some(o) && AllIdle(s.children)
    ensures Step(s, Advance) == Moved(s, o, OwnerMove(s.files, OwnerView(s, o), o.stage))
  {
    assert Sees(s, o) == OwnerView(s, o);
  }

  lemma GoesOn(s: State, o: Owner, n: nat)
    requires n > 1 && s.owner == Some(o) && AllIdle(s.children)
    requires var move := OwnerMove(s.files, OwnerView(s, o), o.stage); move.stage.Some? && move.launched.None?
    ensures var move := OwnerMove(s.files, OwnerView(s, o), o.stage);
            var s', o' := Moved(s, o, move), o.(stage := move.stage.value);
            && s'.owner == Some(o') && s'.children == s.children
            && Moved(s', o', Goes(s'.files, OwnerView(s', o'), o'.stage, n - 1))
            == Moved(s, o, Goes(s.files, OwnerView(s, o), o.stage, n))
  {
  }

  lemma {:induction false} OwnerGoes(restarts: bool, before: seq<Action>, n: nat) returns (after: seq<Action>)
    requires n > 0 && Run(restarts, before).owner.Some? && AllIdle(Run(restarts, before).children)
    ensures var s, o := Run(restarts, before), Run(restarts, before).owner.value;
            Run(restarts, after) == Moved(s, o, Goes(s.files, OwnerView(s, o), o.stage, n))
    ensures before <= after && (QuietRun(restarts, before) ==> QuietRun(restarts, after))
    decreases n
  {
    var s, o := Run(restarts, before), Run(restarts, before).owner.value;
    var move := OwnerMove(s.files, OwnerView(s, o), o.stage);
    OwnerStepsFreely(s, o);
    after := Act(restarts, before, Advance);
    if n > 1 && move.stage.Some? && move.launched.None? {
      GoesOn(s, o, n);
      after := OwnerGoes(restarts, after, n - 1);
    }
  }

  predicate OnlyActive(s: State, i: nat) {
    && i < |s.children|
    && (forall j :: 0 <= j < |s.children| && j != i ==> IsIdle(s.children[j]))
    && (s.owner.Some? ==> !OwnerExclusive(s.owner.value.stage) && !OwnerHoldsHandoff(s.owner.value.stage))
  }

  lemma FoundFree(s: State, i: nat)
    requires OnlyActive(s, i)
    ensures var c, free := s.children[i], ChildFinds(s.owner, s.children);
            && free.shared == !IsExclusive(c) && free.exclusive == IsIdle(c) && free.handoff == !HoldsHandoff(c)
            && free.maintenance == (!IsExclusive(c) && !Maintains(c))
  {
    var cs := s.children;
    assert SharedFree(cs) == !IsExclusive(cs[i]);
    assert ExclusiveFree(cs) == IsIdle(cs[i]);
    assert HandoffFree(cs) == !HoldsHandoff(cs[i]);
    assert MaintenanceFree(cs) == (!IsExclusive(cs[i]) && !Maintains(cs[i]));
  }

  lemma TurnsFreely(f: Files, free: Leases, c: Child)
    requires free.shared == !IsExclusive(c) && free.exclusive == IsIdle(c) && free.handoff == !HoldsHandoff(c)
    requires free.maintenance == (!IsExclusive(c) && !Maintains(c))
    ensures ChildTurn(f, free, c, false) == ChildTurn(f, ALL_FREE, c, false)
  {
  }

  lemma {:induction false} ChildRuns(restarts: bool, before: seq<Action>, i: nat, n: nat) returns (after: seq<Action>)
    requires OnlyActive(Run(restarts, before), i)
    ensures var s := Run(restarts, before); var turn := Runs(s.files, s.children[i], n);
            Run(restarts, after) == s.(files := turn.files, children := s.children[i := turn.child])
    ensures before <= after && (QuietRun(restarts, before) ==> QuietRun(restarts, after))
    decreases n
  {
    var s := Run(restarts, before);
    if n == 0 {
      after := before;
      assert s.children[i := s.children[i]] == s.children;
    } else {
      FoundFree(s, i);
      TurnsFreely(s.files, ChildFinds(s.owner, s.children), s.children[i]);
      after := Act(restarts, before, ChildStep(i, false));
      var s' := Run(restarts, after);
      after := ChildRuns(restarts, after, i, n - 1);
      assert s'.children[i := Run(restarts, after).children[i]] == s.children[i := Run(restarts, after).children[i]];
    }
  }

  lemma HandlerSavesItsCopy(s: State, o: Owner, copy: Status)
    requires s.owner == Some(o) && o.stage == Failing(ToFail(copy))
    ensures Step(s, Advance).files == s.files.(status := Status(FailurePhase(copy.phase), copy.mutated))
  {
  }

  lemma HandlerEnds(s: State, o: Owner, copy: Status)
    requires s.owner == Some(o) && o.stage == Failing(ToFail(copy)) && copy.mutated
    ensures Step(s, Advance) == s.(files := s.files.(status := Status(FailurePhase(copy.phase), copy.mutated)), owner := None)
  {
  }

  /** A check fails inside run_job's try block, and the handler reads the status. */
  lemma CheckFails(restarts: bool, before: seq<Action>, o: Owner) returns (after: seq<Action>)
    requires Run(restarts, before).owner == Some(o) && InTry(o.stage) && !o.entry.RestoreService?
    requires !Final(Run(restarts, before).files.status.phase) && Run(restarts, before).files.status.phase != Finalizing
    ensures var s := Run(restarts, before);
            Run(restarts, after) == s.(owner := Some(o.(stage := Failing(ToFail(s.files.status)))))
  {
    after := Act(restarts, before, Throw(false));
    after := Act(restarts, after, Advance);
  }

  lemma CancellationSaves(s: State, o: Owner)
    requires s.owner == Some(o) && o.stage == Cancelling(CancelPublish)
    ensures Step(s, Advance).files.status == Status(Cancelled, false)
  {
  }

  // ---- an installer orphaned before it took its leases, and a second run ----

  function Job(status: Status, fenced: bool, backup: bool): Files {
    Files(false, status, fenced, fenced, backup, true, Absent, false, false)
  }

  lemma AdmissionGoes()
    ensures Goes(Initial(false).files, View(StartJob, ALL_FREE, None), Deciding, 3)
            == Leave(Job(Status(Ready, false), false, false))
  {
  }

  lemma JobAdmitted() returns (actions: seq<Action>)
    ensures Run(false, actions)
            == State(Job(Status(Ready, false), false, false), None, [])
  {
    actions := [];
    actions := Act(false, actions, Start(StartJob));
    AdmissionGoes();
    actions := OwnerGoes(false, actions, 3);
  }

  lemma BackupGoes()
    ensures Goes(Job(Status(Ready, false), false, false), View(RunPlain, ALL_FREE, None), Deciding, 5)
            == Go(Job(Status(BackingUp, false), false, false), Preserving(ToCommitBackup(Status(Ready, false))))
  {
  }

  lemma BackupStarted() returns (actions: seq<Action>)
    ensures Run(false, actions)
            == State(Job(Status(BackingUp, false), false, false),
                     Some(Owner(RunPlain, Preserving(ToCommitBackup(Status(Ready, false))), 0)), [])
  {
    actions := JobAdmitted();
    actions := Act(false, actions, Start(RunPlain));
    BackupGoes();
    actions := OwnerGoes(false, actions, 5);
  }

  lemma InstallerLaunched() returns (actions: seq<Action>)
    ensures Run(false, actions)
            == State(Job(Status(BackingUp, false), true, true),
                     Some(Owner(RunPlain, Replacing(AwaitInstaller), 0)), [Installer(InstallerNew)])
  {
    actions := BackupStarted();
    actions := OwnerGoes(false, actions, 4);
  }

  lemma SecondRunStarts() returns (actions: seq<Action>)
    ensures Run(false, actions)
            == State(Job(Status(BackingUp, false), true, true),
                     Some(Owner(RunPlain, Admitting(Dispatching(Status(BackingUp, false))), 0)),
                     [Installer(InstallerNew)])
  {
    actions := InstallerLaunched();
    actions := Act(false, actions, OwnerDies);
    actions := Act(false, actions, Start(RunPlain));
    actions := OwnerGoes(false, actions, 2);
  }

  /** The owner has died; a second run fails its checks and has read the status its handler will save. */
  lemma SecondRunFails() returns (actions: seq<Action>)
    ensures Run(false, actions)
            == State(Job(Status(BackingUp, false), true, true),
                     Some(Owner(RunPlain, Failing(ToFail(Status(BackingUp, false))), 0)), [Installer(InstallerNew)])
  {
    actions := SecondRunStarts();
    actions := CheckFails(false, actions, Owner(RunPlain, Admitting(Dispatching(Status(BackingUp, false))), 0));
  }

  lemma OrphanInstalls() returns (actions: seq<Action>)
    ensures Run(false, actions)
            == State(Job(Status(Installing, true), true, true),
                     Some(Owner(RunPlain, Failing(ToFail(Status(BackingUp, false))), 0)), [Installer(InstallerWorking)])
  {
    actions := SecondRunFails();
    actions := ChildRuns(false, actions, 0, 5);
  }

  /** The orphan has recorded that packages change, and the handler saves that they do not. */
  lemma OrphanedInstallerCanBeForgotten() returns (actions: seq<Action>)
    ensures var s := Run(false, actions);
            && s.files.status == Status(Installing, true) && Overtakes(s, Advance)
            && Step(s, Advance).files.status == Status(Failed, false)
  {
    actions := OrphanInstalls();
  }

  lemma HandlerSaves() returns (actions: seq<Action>)
    ensures Run(false, actions)
            == State(Job(Status(Failed, false), true, true),
                     Some(Owner(RunPlain, Clearing(SeekClear), 0)), [Installer(InstallerNew)])
  {
    actions := SecondRunFails();
    actions := OwnerGoes(false, actions, 1);
  }

  lemma OrphanInstallsLate() returns (actions: seq<Action>)
    ensures Run(false, actions)
            == State(Job(Status(Installing, true), true, true),
                     Some(Owner(RunPlain, Clearing(SeekClear), 0)), [Installer(InstallerWorking)])
  {
    actions := HandlerSaves();
    actions := ChildRuns(false, actions, 0, 5);
  }

  lemma HandlerTakesLeases() returns (actions: seq<Action>)
    ensures Run(false, actions)
            == State(Job(Status(Installing, true), true, true),
                     Some(Owner(RunPlain, Clearing(ClearUnmark), 0)), [Gone(false)])
  {
    actions := OrphanInstallsLate();
    actions := Act(false, actions, ChildDies(0));
    actions := OwnerGoes(false, actions, 1);
  }

  /** The orphan published after the handler saved FAILED and before it took its leases: the fences go. */
  lemma HandlerCanUnfenceAnOrphan() returns (actions: seq<Action>)
    ensures var s := Run(false, actions);
            && s.files.status == Status(Installing, true) && Fenced(s.files) && Unfences(s, Advance)
            && !Fenced(Step(s, Advance).files)
  {
    actions := HandlerTakesLeases();
  }

  // ---- a reviewed shutdown, recovered before any package changed ----

  /** A job with restarts whose shutdown is committed. */
  function Handed(status: Status, fenced: bool, backup: bool, approval: bool): Files {
    Files(true, status, fenced, fenced, backup, approval, Absent, false, true)
  }

  /** The same job once its original program is back. */
  function Rebuilt(status: Status, fenced: bool, activation: bool): Files {
    Files(true, status, fenced, fenced, false, false, Returned, activation, true)
  }

  lemma ShutdownRequested() returns (actions: seq<Action>)
    ensures Run(true, actions)
            == State(Initial(true).files.(status := Status(Checking, false)),
                     Some(Owner(RunHandoff, Handing(AwaitPreflight(Status(Ready, false))), 0)),
                     [Preflight(PreflightNew)])
    ensures QuietRun(true, actions)
  {
    actions := [];
    actions := Act(true, actions, Start(RunHandoff));
    actions := OwnerGoes(true, actions, 3);
  }

  lemma ShutdownCommitted() returns (actions: seq<Action>)
    ensures Run(true, actions)
            == State(Handed(Status(Stopping, false), false, false, false),
                     Some(Owner(RunHandoff, Handing(AwaitPreflight(Status(Ready, false))), 0)), [Gone(true)])
    ensures QuietRun(true, actions)
  {
    actions := ShutdownRequested();
    actions := ChildRuns(true, actions, 0, 5);
  }

  lemma RecoveryGoes()
    ensures Goes(Handed(Status(Stopping, false), false, false, false),
                 View(RestoreService, ALL_FREE, Some(true)), Deciding, 5)
            == Go(Rebuilt(Status(Stopping, false), false, false), Returning(ToReserveAgain(Status(Stopping, false))))
  {
  }

  lemma ProgramReturned() returns (actions: seq<Action>)
    ensures Run(true, actions)
            == State(Rebuilt(Status(Stopping, false), false, false),
                     Some(Owner(RestoreService, Returning(ToReserveAgain(Status(Stopping, false))), 0)), [Gone(true)])
    ensures QuietRun(true, actions)
  {
    actions := ShutdownCommitted();
    actions := Act(true, actions, OwnerDies);
    actions := Act(true, actions, Start(RestoreService));
    RecoveryGoes();
    actions := OwnerGoes(true, actions, 5);
  }

  lemma ServiceGoes()
    ensures Goes(Rebuilt(Status(Stopping, false), false, false),
                 View(RestoreService, ALL_FREE, Some(true)), Returning(ToReserveAgain(Status(Stopping, false))), 4)
            == Launch(Rebuilt(Status(Restarting, false), true, false), Relaunching(AwaitRuntime), Runtime(RuntimeNew))
  {
  }

  lemma ServiceRelaunched() returns (actions: seq<Action>)
    ensures Run(true, actions)
            == State(Rebuilt(Status(Restarting, false), true, false),
                     Some(Owner(RestoreService, Relaunching(AwaitRuntime), 1)), [Gone(true), Runtime(RuntimeNew)])
    ensures QuietRun(true, actions)
  {
    actions := ProgramReturned();
    ServiceGoes();
    actions := OwnerGoes(true, actions, 4);
  }

  lemma CoordinatorVerifies()
    ensures Runs(Rebuilt(Status(Restarting, false), true, false), Runtime(RuntimeNew), 9)
            == Turn(Rebuilt(Status(Finalizing, true), false, true), Runtime(RuntimeFinish(false)))
  {
  }

  lemma ServiceVerified() returns (actions: seq<Action>)
    ensures Run(true, actions)
            == State(Rebuilt(Status(Finalizing, true), false, true),
                     Some(Owner(RestoreService, Relaunching(AwaitRuntime), 1)),
                     [Gone(true), Runtime(RuntimeFinish(false))])
    ensures QuietRun(true, actions)
  {
    actions := ServiceRelaunched();
    CoordinatorVerifies();
    actions := ChildRuns(true, actions, 1, 9);
  }

  /** An ordinary recovery: its last save repeats the unmutated record it began with. */
  lemma RestorationForgetsMutation() returns (actions: seq<Action>)
    ensures QuietRun(true, actions)
    ensures CoordinatorForgets(Run(true, actions), ChildStep(1, false))
    ensures Step(Run(true, actions), ChildStep(1, false)).files.status == Status(Restored, false)
  {
    actions := ServiceVerified();
  }

  lemma CoordinatorForgetting()
    ensures Runs(Rebuilt(Status(Finalizing, true), false, true), Runtime(RuntimeFinish(false)), 2)
            == Turn(Rebuilt(Status(Restored, false), false, true), Gone(true))
  {
  }

  lemma ServiceRestored() returns (actions: seq<Action>)
    ensures Run(true, actions)
            == State(Rebuilt(Status(Restored, false), false, true),
                     Some(Owner(RestoreService, Relaunching(AwaitRuntime), 1)), [Gone(true), Gone(true)])
    ensures QuietRun(true, actions)
  {
    actions := ServiceVerified();
    CoordinatorForgetting();
    actions := ChildRuns(true, actions, 1, 2);
  }

  lemma RecoveryLeaves() returns (actions: seq<Action>)
    ensures Run(true, actions)
            == State(Rebuilt(Status(Restored, false), false, true), None, [Gone(true), Gone(true)])
    ensures QuietRun(true, actions)
  {
    actions := ServiceRestored();
    actions := OwnerGoes(true, actions, 1);
  }

  lemma CancellationGoes()
    ensures Goes(Rebuilt(Status(Restored, false), false, true), View(CancelJob, ALL_FREE, Some(true)), Deciding, 4)
            == Go(Rebuilt(Status(Restored, false), false, true), Cancelling(CancelPublish))
  {
  }

  lemma CancellationDecided() returns (actions: seq<Action>)
    ensures Run(true, actions)
            == State(Rebuilt(Status(Restored, false), false, true),
                     Some(Owner(CancelJob, Cancelling(CancelPublish), 0)), [Gone(true), Gone(true)])
    ensures QuietRun(true, actions)
  {
    actions := RecoveryLeaves();
    actions := Act(true, actions, Start(CancelJob));
    CancellationGoes();
    actions := OwnerGoes(true, actions, 4);
  }

  /**
   That restored service can then be cancelled, once its gateways have stopped again: they hold shared
   installation leases, which this machine does not record.
   */
  lemma RestoredCanBeCancelled() returns (actions: seq<Action>)
    ensures QuietRun(true, actions)
    ensures CancelsRestored(Run(true, actions), Advance)
    ensures Step(Run(true, actions), Advance).files.status == Status(Cancelled, false)
  {
    actions := CancellationDecided();
    CancellationSaves(Run(true, actions), Owner(CancelJob, Cancelling(CancelPublish), 0));
  }

  lemma RestartRecorded() returns (actions: seq<Action>)
    ensures Run(true, actions)
            == State(Rebuilt(Status(Restarting, true), true, false),
                     Some(Owner(RestoreService, Relaunching(AwaitRuntime), 1)),
                     [Gone(true), Runtime(RuntimeActivate(false))])
    ensures QuietRun(true, actions)
  {
    actions := ServiceRelaunched();
    actions := ChildRuns(true, actions, 1, 4);
  }

  lemma RecoveryDies() returns (actions: seq<Action>)
    ensures Run(true, actions)
            == State(Rebuilt(Status(Restarting, true), true, false), None, [Gone(true), Gone(false)])
    ensures QuietRun(true, actions)
  {
    actions := RestartRecorded();
    actions := Act(true, actions, OwnerDies);
    actions := Act(true, actions, ChildDies(1));
  }

  lemma RestartGoes()
    ensures Goes(Rebuilt(Status(Restarting, true), true, false), View(RunPlain, ALL_FREE, Some(true)), Deciding, 4)
            == Launch(Rebuilt(Status(Restarting, true), true, false), Relaunching(AwaitRuntime), Runtime(RuntimeNew))
  {
  }

  lemma RestartResumed() returns (actions: seq<Action>)
    ensures Run(true, actions)
            == State(Rebuilt(Status(Restarting, true), true, false),
                     Some(Owner(RunPlain, Relaunching(AwaitRuntime), 2)), [Gone(true), Gone(false), Runtime(RuntimeNew)])
    ensures QuietRun(true, actions)
  {
    actions := RecoveryDies();
    actions := Act(true, actions, Start(RunPlain));
    RestartGoes();
    actions := OwnerGoes(true, actions, 4);
  }

  lemma RestorationFinalizes()
    ensures Runs(Rebuilt(Status(Restarting, true), true, false), Runtime(RuntimeNew), 7)
            == Turn(Rebuilt(Status(Finalizing, true), true, true), Runtime(RuntimeUnreserve(true)))
  {
  }

  lemma RestorationVerified() returns (actions: seq<Action>)
    ensures Run(true, actions)
            == State(Rebuilt(Status(Finalizing, true), true, true), Some(Owner(RunPlain, Relaunching(AwaitRuntime), 2)),
                     [Gone(true), Gone(false), Runtime(RuntimeUnreserve(true))])
    ensures QuietRun(true, actions)
  {
    actions := RestartResumed();
    RestorationFinalizes();
    actions := ChildRuns(true, actions, 2, 7);
  }

  lemma RestorationReleases()
    ensures Runs(Rebuilt(Status(Finalizing, true), true, true), Runtime(RuntimeUnreserve(true)), 3)
            == Turn(Rebuilt(Status(Restored, true), false, true), Runtime(RuntimeDone))
  {
  }

  lemma RestorationRecorded() returns (actions: seq<Action>)
    ensures Run(true, actions)
            == State(Rebuilt(Status(Restored, true), false, true), Some(Owner(RunPlain, Relaunching(AwaitRuntime), 2)),
                     [Gone(true), Gone(false), Runtime(RuntimeDone)])
    ensures QuietRun(true, actions)
  {
    actions := RestorationVerified();
    RestorationReleases();
    actions := ChildRuns(true, actions, 2, 3);
  }

  lemma FailureGoes()
    ensures Goes(Rebuilt(Status(Restored, true), false, true),
                 View(RunPlain, ALL_FREE, Some(false)), Relaunching(AwaitRuntime), 2)
            == Go(Rebuilt(Status(Restored, true), false, true), Failing(ToFail(Status(Restored, true))))
  {
  }

  lemma CoordinatorLost() returns (actions: seq<Action>)
    ensures Run(true, actions)
            == State(Rebuilt(Status(Restored, true), false, true),
                     Some(Owner(RunPlain, Failing(ToFail(Status(Restored, true))), 2)),
                     [Gone(true), Gone(false), Gone(false)])
    ensures QuietRun(true, actions)
  {
    actions := RestorationRecorded();
    actions := Act(true, actions, ChildDies(2));
    FailureGoes();
    actions := OwnerGoes(true, actions, 2);
  }

  /**
   A restored service can be recorded as failed: the coordinator is killed after saving RESTORED, and
   the waiting run_job, whose handler spares only FINALIZING and SUCCEEDED, saves FAILED over it.
   */
  lemma RestoredCanBecomeFailed() returns (actions: seq<Action>)
    ensures QuietRun(true, actions)
    ensures var s := Run(true, actions);
            && HandlerForgetsRestored(s, Advance) && HandlerFailsSettled(s, Advance)
            && s.files.status == Status(Restored, true) && Step(s, Advance).files == s.files.(status := Status(Failed, true))
            && !s.files.pending && !s.files.reserved
  {
    actions := CoordinatorLost();
    HandlerSavesItsCopy(Run(true, actions), Owner(RunPlain, Failing(ToFail(Status(Restored, true))), 2), Status(Restored, true));
  }

  // ---- an update delivered to its restart coordinator, and a second owner ----

  /** The delivered update once its gateways may be authorized. */
  function Activated(status: Status, fenced: bool, journal: Journal): Files {
    Files(true, status, fenced, fenced, true, true, journal, true, true)
  }

  lemma UpdateBackedUp() returns (actions: seq<Action>)
    ensures Run(true, actions)
            == State(Handed(Status(BackingUp, false), false, true, true),
                     Some(Owner(RunHandoff, Preserving(ToReserve), 0)), [Gone(true)])
    ensures QuietRun(true, actions)
  {
    actions := ShutdownCommitted();
    actions := OwnerGoes(true, actions, 6);
  }

  lemma UpdateLaunched() returns (actions: seq<Action>)
    ensures Run(true, actions)
            == State(Handed(Status(BackingUp, false), true, true, true),
                     Some(Owner(RunHandoff, Replacing(AwaitInstaller), 1)), [Gone(true), Installer(InstallerNew)])
    ensures QuietRun(true, actions)
  {
    actions := UpdateBackedUp();
    actions := OwnerGoes(true, actions, 3);
  }

  lemma UpdateInstalled() returns (actions: seq<Action>)
    ensures Run(true, actions)
            == State(Handed(Status(Installing, true), true, true, true),
                     Some(Owner(RunHandoff, Replacing(AwaitInstaller), 1)), [Gone(true), Gone(true)])
    ensures QuietRun(true, actions)
  {
    actions := UpdateLaunched();
    actions := ChildRuns(true, actions, 1, 6);
  }

  lemma DeliveryGoes()
    ensures Goes(Handed(Status(Installing, true), true, true, true),
                 View(RunHandoff, ALL_FREE, Some(true)), Replacing(AwaitInstaller), 7)
            == Launch(Handed(Status(Restarting, true), true, true, true), Relaunching(AwaitRuntime), Runtime(RuntimeNew))
  {
  }

  lemma UpdateDelivered() returns (actions: seq<Action>)
    ensures Run(true, actions)
            == State(Handed(Status(Restarting, true), true, true, true),
                     Some(Owner(RunHandoff, Relaunching(AwaitRuntime), 2)),
                     [Gone(true), Gone(true), Runtime(RuntimeNew)])
    ensures QuietRun(true, actions)
  {
    actions := UpdateInstalled();
    DeliveryGoes();
    actions := OwnerGoes(true, actions, 7);
  }

  lemma SecondRunDispatches() returns (actions: seq<Action>)
    ensures Run(true, actions)
            == State(Handed(Status(Restarting, true), true, true, true),
                     Some(Owner(RunPlain, Admitting(Dispatching(Status(Restarting, true))), 0)),
                     [Gone(true), Gone(true), Runtime(RuntimeNew)])
  {
    actions := UpdateDelivered();
    actions := Act(true, actions, OwnerDies);
    actions := Act(true, actions, Start(RunPlain));
    actions := OwnerGoes(true, actions, 2);
  }

  /** The waiting owner has died; a second run fails and has read RESTARTING. */
  lemma HandlerReadRestarting() returns (actions: seq<Action>)
    ensures Run(true, actions)
            == State(Handed(Status(Restarting, true), true, true, true),
                     Some(Owner(RunPlain, Failing(ToFail(Status(Restarting, true))), 0)),
                     [Gone(true), Gone(true), Runtime(RuntimeNew)])
  {
    actions := SecondRunDispatches();
    actions := CheckFails(true, actions, Owner(RunPlain, Admitting(Dispatching(Status(Restarting, true))), 0));
  }

  lemma CoordinatorFinalizes()
    ensures Runs(Handed(Status(Restarting, true), true, true, true), Runtime(RuntimeNew), 7)
            == Turn(Activated(Status(Finalizing, true), true, Absent), Runtime(RuntimeUnreserve(true)))
  {
  }

  lemma OrphanFinalizes() returns (actions: seq<Action>)
    ensures Run(true, actions)
            == State(Activated(Status(Finalizing, true), true, Absent),
                     Some(Owner(RunPlain, Failing(ToFail(Status(Restarting, true))), 0)),
                     [Gone(true), Gone(true), Runtime(RuntimeUnreserve(true))])
  {
    actions := HandlerReadRestarting();
    CoordinatorFinalizes();
    actions := ChildRuns(true, actions, 2, 7);
  }

  lemma CoordinatorSucceeds()
    ensures Runs(Activated(Status(Finalizing, true), true, Absent), Runtime(RuntimeUnreserve(true)), 3)
            == Turn(Activated(Status(Succeeded, true), false, Absent), Runtime(RuntimeDone))
  {
  }

  lemma OrphanSucceeds() returns (actions: seq<Action>)
    ensures Run(true, actions)
            == State(Activated(Status(Succeeded, true), false, Absent),
                     Some(Owner(RunPlain, Failing(ToFail(Status(Restarting, true))), 0)),
                     [Gone(true), Gone(true), Runtime(RuntimeDone)])
  {
    actions := OrphanFinalizes();
    CoordinatorSucceeds();
    actions := ChildRuns(true, actions, 2, 3);
  }

  /** The orphaned coordinator has succeeded, and the handler saves RESTART_FAILED over it. */
  lemma SuccessCanBeOverwritten() returns (actions: seq<Action>)
    ensures var s := Run(true, actions);
            && s.files.status == Status(Succeeded, true) && Overtakes(s, Advance) && Unfences(s, Advance)
            && Step(s, Advance).files.status == Status(RestartFailed, true)
  {
    actions := OrphanSucceeds();
  }

  lemma HandlerSavesOver() returns (actions: seq<Action>)
    ensures Run(true, actions)
            == State(Activated(Status(RestartFailed, true), true, Absent),
                     None, [Gone(true), Gone(true), Runtime(RuntimeUnreserve(true))])
  {
    actions := OrphanFinalizes();
    HandlerEnds(Run(true, actions), Owner(RunPlain, Failing(ToFail(Status(Restarting, true))), 0), Status(Restarting, true));
    actions := Act(true, actions, Advance);
  }

  /** The handler has saved RESTART_FAILED over FINALIZING, and the orphan releases the reservation under it. */
  lemma CoordinatorCanUnfence() returns (actions: seq<Action>)
    ensures var s := Run(true, actions);
            && s.files.status == Status(RestartFailed, true) && Fenced(s.files) && Unfences(s, ChildStep(2, false))
            && !Fenced(Step(s, ChildStep(2, false)).files)
  {
    actions := HandlerSavesOver();
  }

  lemma LookGoes()
    ensures Goes(Handed(Status(Restarting, true), true, true, true),
                 View(RestoreService, ALL_FREE, Some(true)), Deciding, 3)
            == Go(Handed(Status(Restarting, true), true, true, true), Examining(CheckShutdown(Status(Restarting, true))))
  {
  }

  /** Service recovery found no activation and has not yet taken its leases. */
  lemma RecoveryLooks() returns (actions: seq<Action>)
    ensures Run(true, actions)
            == State(Handed(Status(Restarting, true), true, true, true),
                     Some(Owner(RestoreService, Examining(CheckShutdown(Status(Restarting, true))), 0)),
                     [Gone(true), Gone(true), Runtime(RuntimeNew)])
  {
    actions := UpdateDelivered();
    actions := Act(true, actions, OwnerDies);
    actions := Act(true, actions, Start(RestoreService));
    LookGoes();
    actions := OwnerGoes(true, actions, 3);
  }

  lemma ActivationComesLate() returns (actions: seq<Action>)
    ensures Run(true, actions)
            == State(Activated(Status(Finalizing, true), true, Absent),
                     Some(Owner(RestoreService, Examining(CheckShutdown(Status(Restarting, true))), 0)),
                     [Gone(true), Gone(true), Runtime(RuntimeUnreserve(true))])
  {
    actions := RecoveryLooks();
    CoordinatorFinalizes();
    actions := ChildRuns(true, actions, 2, 7);
  }

  lemma ReturnGoes()
    ensures Goes(Activated(Status(Finalizing, true), true, Absent),
                 View(RestoreService, ALL_FREE, Some(true)), Examining(CheckShutdown(Status(Restarting, true))), 2)
            == Go(Activated(Status(Finalizing, true), true, Restoring), Returning(ToReturn(Status(Restarting, true))))
  {
  }

  lemma ReturnStopsHalfWay() returns (actions: seq<Action>)
    ensures Run(true, actions)
            == State(Activated(Status(Finalizing, true), true, Restoring),
                     Some(Owner(RestoreService, Returning(ToReturn(Status(Restarting, true))), 0)),
                     [Gone(true), Gone(true), Gone(false)])
  {
    actions := ActivationComesLate();
    actions := Act(true, actions, ChildDies(2));
    ReturnGoes();
    actions := OwnerGoes(true, actions, 2);
  }

  /**
   The coordinator died finalizing, and the recovery after writing that the return began: the job never
   finishes. Its gateways, whose shared installation leases are not recorded here, had stopped by then.
   */
  lemma FinalizingCanBeStranded() returns (actions: seq<Action>)
    ensures var s := Run(true, actions); Interrupted(s) && s.files.restoration == Restoring
    ensures !exists more :: Final(Run(true, actions + more).files.status.phase)
  {
    actions := ReturnStopsHalfWay();
    actions := Act(true, actions, OwnerDies);
    FinalizingFinishesIffNotReturning(true, actions);
  }
}
