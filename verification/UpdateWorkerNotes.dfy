/**
 Concrete runs in which supervise saves its note late, and the steps the job's records then allow.
 */
module UpdateWorkerNotes {
  import opened Wrappers
  import opened UpdateWorker
  import opened UpdateWorkerTimely
  import opened UpdateWorkerRecords
  import opened UpdateWorkerLaws
  import opened UpdateWorkerQuiet
  import opened UpdateWorkerRuns
  import opened UpdateWorkerOrphans

  // ---- over a cancellation ----

  /** The recovery of a committed shutdown could not get its leases, and supervise has read the status. */
  lemma RecoveryNoted() returns (actions: seq<Action>)
    ensures Run(true, actions)
            == State(Handed(Status(Stopping, false), false, false, false), None, [Gone(true)], Some(Status(Stopping, false)))
    ensures QuietRun(true, actions)
  {
    actions := ShutdownCommitted();
    actions := Act(true, actions, OwnerDies);
    actions := Act(true, actions, NoteRead);
  }

  lemma CancellationRuns()
    ensures Goes(Handed(Status(Stopping, false), false, false, false), View(CancelJob, ALL_FREE, Some(true)), Deciding, 6)
            == Leave(Handed(Status(Cancelled, false), false, false, false))
  {
  }

  lemma CancelledUnderNote() returns (actions: seq<Action>)
    ensures Run(true, actions)
            == State(Handed(Status(Cancelled, false), false, false, false), None, [Gone(true)], Some(Status(Stopping, false)))
    ensures QuietRun(true, actions)
  {
    actions := RecoveryNoted();
    actions := Act(true, actions, Start(CancelJob));
    CancellationRuns();
    actions := OwnerGoes(true, actions, 6);
  }

  /** The job was cancelled in between, and the note takes the cancellation back. */
  lemma NoteCanUndoCancellation() returns (actions: seq<Action>)
    ensures QuietRun(true, actions)
    ensures var s := Run(true, actions);
            && s.files.status == Status(Cancelled, false) && NoteForgets(s, NoteSave)
            && Step(s, NoteSave).files.status == Status(Stopping, false)
  {
    actions := CancelledUnderNote();
  }

  // ---- over an installation ----

  lemma InstallationNoted() returns (actions: seq<Action>)
    ensures Run(true, actions)
            == State(Handed(Status(BackingUp, false), true, true, true),
                     Some(Owner(RunHandoff, Replacing(AwaitInstaller), 1)), [Gone(true), Installer(InstallerNew)],
                     Some(Status(BackingUp, false)))
    ensures QuietRun(true, actions)
  {
    actions := UpdateLaunched();
    actions := Act(true, actions, NoteRead);
  }

  lemma InstalledUnderNote() returns (actions: seq<Action>)
    ensures Run(true, actions)
            == State(Handed(Status(Installing, true), true, true, true),
                     Some(Owner(RunHandoff, Replacing(AwaitInstaller), 1)), [Gone(true), Gone(true)],
                     Some(Status(BackingUp, false)))
    ensures QuietRun(true, actions)
  {
    actions := InstallationNoted();
    actions := ChildRuns(true, actions, 1, 6);
  }

  /** The installer published its mutation in between, and the note erases it. */
  lemma NoteCanEraseMutation() returns (actions: seq<Action>)
    ensures QuietRun(true, actions)
    ensures var s := Run(true, actions);
            && s.files.status == Status(Installing, true) && NoteForgets(s, NoteSave)
            && Step(s, NoteSave).files.status == Status(BackingUp, false)
  {
    actions := InstalledUnderNote();
  }

  lemma NoteErases() returns (before: seq<Action>, actions: seq<Action>)
    ensures before <= actions && Run(true, before).files.status == Status(Installing, true)
    ensures Run(true, actions)
            == State(Handed(Status(BackingUp, false), true, true, true),
                     Some(Owner(RunHandoff, Replacing(AwaitInstaller), 1)), [Gone(true), Gone(true)])
    ensures QuietRun(true, actions)
  {
    before := InstalledUnderNote();
    actions := Act(true, before, NoteSave);
  }

  lemma MutationErased() returns (before: seq<Action>, actions: seq<Action>)
    ensures before <= actions && Run(true, before).files.status == Status(Installing, true)
    ensures Run(true, actions) == State(Handed(Status(BackingUp, false), true, true, true), None, [Gone(true), Gone(true)])
    ensures QuietRun(true, actions)
  {
    before, actions := NoteErases();
    actions := Act(true, actions, OwnerDies);
  }

  lemma ErasedCancels() returns (before: seq<Action>, actions: seq<Action>)
    ensures before <= actions && Run(true, before).files.status == Status(Installing, true)
    ensures Run(true, actions)
            == State(Handed(Status(BackingUp, false), true, true, true), Some(Owner(CancelJob, Deciding, 0)),
                     [Gone(true), Gone(true)])
    ensures QuietRun(true, actions)
  {
    before, actions := MutationErased();
    actions := Act(true, actions, Start(CancelJob));
  }

  lemma ErasedGoes()
    ensures Goes(Handed(Status(BackingUp, false), true, true, true), View(CancelJob, ALL_FREE, Some(true)), Deciding, 6)
            == Leave(Handed(Status(Cancelled, false), false, true, false))
  {
  }

  /** A job whose packages were changed is then cancelled as unmodified, and both fences are gone. */
  lemma ErasedMutationCanBeCancelled() returns (before: seq<Action>, actions: seq<Action>)
    ensures before <= actions && QuietRun(true, actions)
    ensures Run(true, before).files.status == Status(Installing, true)
    ensures var f := Run(true, actions).files; f.status == Status(Cancelled, false) && !f.pending && !f.reserved
  {
    before, actions := ErasedCancels();
    ErasedGoes();
    actions := OwnerGoes(true, actions, 6);
  }

  // ---- over a success ----

  lemma DeliveryNoted() returns (actions: seq<Action>)
    ensures Run(true, actions)
            == State(Handed(Status(Restarting, true), true, true, true), Some(Owner(RunHandoff, Relaunching(AwaitRuntime), 2)),
                     [Gone(true), Gone(true), Runtime(RuntimeNew)], Some(Status(Restarting, true)))
    ensures QuietRun(true, actions)
  {
    actions := UpdateDelivered();
    actions := Act(true, actions, NoteRead);
  }

  lemma FinalizedUnderNote() returns (actions: seq<Action>)
    ensures Run(true, actions)
            == State(Activated(Status(Finalizing, true), true, Absent), Some(Owner(RunHandoff, Relaunching(AwaitRuntime), 2)),
                     [Gone(true), Gone(true), Runtime(RuntimeUnreserve(true))], Some(Status(Restarting, true)))
    ensures QuietRun(true, actions)
  {
    actions := DeliveryNoted();
    CoordinatorFinalizes();
    actions := ChildRuns(true, actions, 2, 7);
  }

  lemma SucceededUnderNote() returns (actions: seq<Action>)
    ensures Run(true, actions)
            == State(Activated(Status(Succeeded, true), false, Absent), Some(Owner(RunHandoff, Relaunching(AwaitRuntime), 2)),
                     [Gone(true), Gone(true), Runtime(RuntimeDone)], Some(Status(Restarting, true)))
    ensures QuietRun(true, actions)
  {
    actions := FinalizedUnderNote();
    CoordinatorSucceeds();
    actions := ChildRuns(true, actions, 2, 3);
  }

  /** The update succeeded in between; the note sets it back to a handoff that has lost its fences. */
  lemma NoteCanReopenSuccess() returns (actions: seq<Action>)
    ensures QuietRun(true, actions)
    ensures var s := Run(true, actions);
            && s.files.status == Status(Succeeded, true) && NoteForgets(s, NoteSave) && NoteBares(s, NoteSave)
            && Step(s, NoteSave).files.status == Status(Restarting, true) && !Fenced(Step(s, NoteSave).files)
  {
    actions := SucceededUnderNote();
  }

  // ---- what a late note makes of the steps after it ----

  lemma FinalizingNoted() returns (actions: seq<Action>)
    ensures Run(true, actions)
            == State(Activated(Status(Finalizing, true), true, Absent), Some(Owner(RunPlain, Relaunching(AwaitRuntime), 3)),
                     [Gone(true), Gone(true), Gone(false), Runtime(RuntimeEntering(Status(Activating, true)))],
                     Some(Status(Finalizing, true)))
  {
    actions := FirstDiesFinalizing();
    actions := Act(true, actions, NoteRead);
  }

  lemma RestartedUnderNote() returns (actions: seq<Action>)
    ensures Run(true, actions)
            == State(Activated(Status(Restarting, true), true, Absent), Some(Owner(RunPlain, Relaunching(AwaitRuntime), 3)),
                     [Gone(true), Gone(true), Gone(false), Runtime(RuntimeActivate(true))], Some(Status(Finalizing, true)))
  {
    actions := FinalizingNoted();
    actions := ChildRuns(true, actions, 3, 2);
  }

  /** A note sets the file to FINALIZING under a coordinator that has started over; its next save leaves that again. */
  lemma CoordinatorCanBeOutdone() returns (actions: seq<Action>)
    ensures var s := Run(true, actions);
            && s.files.status == Status(Finalizing, true) && Outdates(s, ChildStep(3, false)) && !Overtakes(s, ChildStep(3, false))
            && Breaks(true, actions, ChildStep(3, false))
            && Step(s, ChildStep(3, false)).files.status == Status(Activating, true)
  {
    actions := RestartedUnderNote();
    actions := Act(true, actions, NoteSave);
    HistoryBreaksExactly(true, actions, ChildStep(3, false));
  }

  lemma SecondRunDispatched() returns (actions: seq<Action>)
    ensures Run(true, actions)
            == State(Granted(Status(BackingUp, false), true, true),
                     Some(Owner(RunPlain, Admitting(Dispatching(Status(BackingUp, false))), 0)), [Installer(InstallerNew)])
  {
    actions := RestartsLaunch();
    actions := Act(true, actions, OwnerDies);
    actions := Act(true, actions, Start(RunPlain));
    actions := OwnerGoes(true, actions, 2);
  }

  lemma HandlerReadBackup() returns (actions: seq<Action>)
    ensures Run(true, actions)
            == State(Granted(Status(BackingUp, false), true, true),
                     Some(Owner(RunPlain, Failing(ToFail(Status(BackingUp, false))), 0)), [Installer(InstallerNew)])
  {
    actions := SecondRunDispatched();
    actions := CheckFails(true, actions, Owner(RunPlain, Admitting(Dispatching(Status(BackingUp, false))), 0));
  }

  lemma OrphanNoted() returns (actions: seq<Action>)
    ensures Run(true, actions)
            == State(Granted(Status(Installing, true), true, true),
                     Some(Owner(RunPlain, Failing(ToFail(Status(BackingUp, false))), 0)), [Installer(InstallerWorking)],
                     Some(Status(Installing, true)))
  {
    actions := HandlerReadBackup();
    OrphanPublishes(Status(BackingUp, false));
    actions := ChildRuns(true, actions, 0, 5);
    actions := Act(true, actions, NoteRead);
  }

  lemma HandlerForgets(s: State, o: Owner, copy: Status)
    requires s.owner == Some(o) && o.stage == Failing(ToFail(copy)) && copy == Status(BackingUp, false)
    ensures Step(s, Advance)
            == s.(files := s.files.(status := Status(Failed, false)), owner := Some(o.(stage := Clearing(SeekClear))))
  {
  }

  lemma OrphanForgotten() returns (actions: seq<Action>)
    ensures Run(true, actions)
            == State(Granted(Status(Failed, false), true, true), None, [Gone(false)], Some(Status(Installing, true)))
  {
    actions := OrphanNoted();
    HandlerForgets(Run(true, actions), Owner(RunPlain, Failing(ToFail(Status(BackingUp, false))), 0), Status(BackingUp, false));
    actions := Act(true, actions, Advance);
    actions := Act(true, actions, OwnerDies);
    actions := Act(true, actions, ChildDies(0));
  }

  lemma ForgottenCancels()
    ensures Goes(Granted(Status(Failed, false), true, true), View(CancelJob, ALL_FREE, Some(false)), Deciding, 2)
            == Go(Granted(Status(Failed, false), true, true), Cancelling(CancelUnmark))
  {
  }

  lemma CancellationAdmitted() returns (actions: seq<Action>)
    ensures Run(true, actions)
            == State(Granted(Status(Failed, false), true, true), Some(Owner(CancelJob, Cancelling(CancelUnmark), 0)),
                     [Gone(false)], Some(Status(Installing, true)))
  {
    actions := OrphanForgotten();
    actions := Act(true, actions, Start(CancelJob));
    ForgottenCancels();
    actions := OwnerGoes(true, actions, 2);
  }

  lemma MutationNotedAgain() returns (actions: seq<Action>)
    ensures Run(true, actions)
            == State(Granted(Status(Installing, true), true, true), Some(Owner(CancelJob, Cancelling(CancelUnmark), 0)), [Gone(false)])
  {
    actions := CancellationAdmitted();
    actions := Act(true, actions, NoteSave);
  }

  /** A note brings a forgotten mutation back while cancel_job, which saw none, is about to lift the fences. */
  lemma CancellationCanUnfence() returns (actions: seq<Action>)
    ensures var s := Run(true, actions);
            && s.files.status == Status(Installing, true) && Fenced(s.files) && Bares(s, Advance) && !Unfences(s, Advance)
            && Exposes(true, actions, Advance) && !Fenced(Step(s, Advance).files)
  {
    actions := MutationNotedAgain();
    FencesFallExactly(true, actions, Advance);
  }
}
