/**
 The laws of a job's journal, the fences around a mutated installation and the order of its history,
 with the exact steps that break each in every run: however many owners and orphans work on the job
 at once, and however late supervise saves its note.
 */
module UpdateWorkerLaws {
  import opened Wrappers
  import opened UpdateWorker
  import opened UpdateWorkerTimely
  import opened UpdateWorkerRecords

  // ---- the laws ----

  /** While packages may be changed and nothing is settled, both fences and the original backup are there. */
  predicate Fenced(f: Files) {
    f.status.mutated && !Unfenced(f.status.phase) ==> f.pending && f.reserved && (f.backup || f.restoration != Absent)
  }

  /** Mutation is never forgotten, finished jobs stay finished, and finalizing only finishes. */
  predicate Lawful(before: Status, after: Status) {
    && (before.mutated ==> after.mutated)
    && (before.phase == Succeeded || before.phase == Cancelled || before.phase == Restored ==> after.phase == before.phase)
    && (before.phase == Finalizing ==> after.phase == Finalizing || after.phase == Succeeded || after.phase == Restored)
  }

  // ---- the steps that break them ----

  /** A save with this mutation flag would forget what the status on disk records. */
  predicate Forgets(file: Status, mutated: bool) {
    (file.mutated && !mutated) || file.phase == Finalizing || file.phase == Succeeded || file.phase == Restored
  }

  predicate OwnerOvertakes(f: Files, stage: Stage) {
    match stage
    case Handing(at) => at.ToCheck? && Forgets(f.status, false)
    case Preserving(at) => at.ToBackUp? && f.approval && Forgets(f.status, at.copy.mutated)
    case Failing(at) => (at.ToFail? && Forgets(f.status, at.copy.mutated)) || (at.ToBusyFail? && Forgets(f.status, false))
    case Examining(at) => at.ToRefuse? && Forgets(f.status, false)
    case Returning(at) => at.ToRestart? && Forgets(f.status, at.copy.mutated)
    case Cancelling(at) => at.CancelPublish? && f.status.phase == Restored
    case ToWithdraw(_) => Forgets(f.status, false)
    case _ => false
  }

  predicate ChildOvertakes(f: Files, c: Child) {
    c.Runtime? && ((c.runtime.RuntimeRestart? && f.status.phase == Finalizing)
                   || (c.runtime.RuntimeFinish? && f.status.mutated && !c.runtime.mutated))
  }

  /** The note says less than the file does by now. */
  predicate NoteOvertakes(file: Status, note: Status) {
    || (file.mutated && !note.mutated)
    || ((Final(file.phase) || file.phase == Cancelled) && note.phase != file.phase)
    || (file.phase == Finalizing && note.phase != Finalizing && !Final(note.phase))
  }

  /**
   The steps that break the history: an owner's save, from the record it read, over one that says
   more; a cancellation of a restored job that forgot its mutation; a second restart coordinator
   starting over a finalizing one; a coordinator's last save from a record read before mutation; and
   a note of supervise saved after the job went on.
   */
  predicate Overtakes(s: State, a: Action) {
    match a
    case Advance => s.owner.Some? && OwnerOvertakes(s.files, s.owner.value.stage)
    case ChildStep(i, _) => i < |s.children| && ChildOvertakes(s.files, s.children[i])
    case NoteSave => s.note.Some? && NoteOvertakes(s.files.status, s.note.value)
    case _ => false
  }

  predicate Closed(p: Phase) {
    p == Finalizing || p == Succeeded || p == Restored || p == Cancelled
  }

  /** The record on disk is closed, or knows of a mutation that a save with this flag does not. */
  predicate Outdone(file: Status, mutated: bool) {
    (file.mutated && !mutated) || Closed(file.phase)
  }

  predicate OwnerOutdone(f: Files, stage: Stage) {
    match stage
    case Handing(at) => at.ToCheck? && Outdone(f.status, false)
    case Preserving(at) => at.ToBackUp? && f.approval && Outdone(f.status, at.copy.mutated)
    case Replacing(at) => (at.ToVerify? || at.ToHandOver?) && Closed(f.status.phase)
    case Failing(at) => (at.ToFail? && Outdone(f.status, at.copy.mutated)) || (at.ToBusyFail? && Outdone(f.status, false))
    case Examining(at) => at.ToRefuse? && Outdone(f.status, false)
    case Returning(at) => at.ToRestart? && Outdone(f.status, at.copy.mutated)
    case Cancelling(at) => at.CancelPublish? && Outdone(f.status, false) && f.status.phase != Cancelled
    case Reviewing(at) =>
      (at.HandoffPublish? && Outdone(f.status, false))
      || (at.ToSettle? && Outdone(f.status, false) && f.status.phase != Cancelled)
    case ToWithdraw(_) => Outdone(f.status, false)
    case _ => false
  }

  predicate RuntimeOutdone(f: Files, at: RuntimeStage) {
    match at
    case RuntimeRestart(_) => Closed(f.status.phase)
    case RuntimeActivate(_) => Closed(f.status.phase)
    case RuntimeFinalize(_) => Closed(f.status.phase) && f.status.phase != Finalizing
    case RuntimeFinish(m) =>
      (f.status.mutated && !m)
      || (Closed(f.status.phase) && f.status.phase != Finalizing && f.status.phase != FinalPhase(f.restoration))
    case RuntimeCleanFinish =>
      Closed(f.status.phase) && f.status.phase != Finalizing && f.status.phase != FinalPhase(f.restoration)
    case _ => false
  }

  predicate ChildOutdone(f: Files, c: Child, fails: bool) {
    match c
    case Preflight(at) =>
      (at.PreflightChecked? || (fails && (at.PreflightStopping? || at.PreflightCommitted?))) && Outdone(f.status, false)
    case Installer(at) => at.InstallerPublish? && Closed(f.status.phase)
    case Runtime(at) => RuntimeOutdone(f, at)
    case Gone(_) => false
  }

  /** The saves that a late note can turn against the history: the file has been set back under them. */
  predicate Outdates(s: State, a: Action) {
    match a
    case Advance => s.owner.Some? && OwnerOutdone(s.files, s.owner.value.stage)
    case ChildStep(i, fails) => i < |s.children| && ChildOutdone(s.files, s.children[i], fails)
    case _ => false
  }

  /** Whether this step breaks the history of this run: most saves can only once a note was late. */
  predicate Breaks(restarts: bool, actions: seq<Action>, a: Action) {
    var s := Run(restarts, actions);
    Overtakes(s, a) || (!Punctual(restarts, actions) && Outdates(s, a))
  }

  predicate OwnerUnfences(f: Files, stage: Stage) {
    match stage
    case Clearing(at) => at.ClearUnmark? && f.status.mutated && !Unfenced(f.status.phase)
    case Failing(at) => at.ToFail? && at.copy.mutated && !(f.pending && f.reserved)
    case Preserving(at) => at.ToBackUp? && f.approval && at.copy.mutated && !(f.pending && f.reserved)
    case _ => false
  }

  predicate ChildUnfences(f: Files, maintenance: bool, c: Child) {
    && c.Runtime? && f.status.mutated && !Unfenced(f.status.phase)
    && (c.runtime.RuntimeUnreserve?
        || (c.runtime.RuntimeEntering? && c.runtime.copy.phase == Finalizing && maintenance))
  }

  /** A note that says packages may be changed, although the fences are gone. */
  predicate NoteUnfences(f: Files, note: Status) {
    note.mutated && !Unfenced(note.phase) && !(f.pending && f.reserved)
  }

  /**
   The steps that drop a fence: the failure handler's cleanup after an installer published, a save of
   a mutated record after the fences fell, by an owner or supervise, and a coordinator's release after
   someone left finalizing.
   */
  predicate Unfences(s: State, a: Action) {
    match a
    case Advance => s.owner.Some? && OwnerUnfences(s.files, s.owner.value.stage)
    case ChildStep(i, _) =>
      i < |s.children| && ChildUnfences(s.files, ChildFinds(s.owner, s.children).maintenance, s.children[i])
    case NoteSave => s.note.Some? && NoteUnfences(s.files, s.note.value)
    case _ => false
  }

  predicate OwnerBares(f: Files, stage: Stage) {
    match stage
    case Replacing(at) => (at.ToVerify? || at.ToHandOver?) && !(f.pending && f.reserved)
    case Cancelling(at) => at.CancelUnmark? && f.status.mutated && !Unfenced(f.status.phase)
    case _ => false
  }

  /** Once a note was late, also a cancellation, or a run_job that lost its fences to a coordinator. */
  predicate Bares(s: State, a: Action) {
    a.Advance? && s.owner.Some? && OwnerBares(s.files, s.owner.value.stage)
  }

  /** Whether this step drops a fence of this run. */
  predicate Exposes(restarts: bool, actions: seq<Action>, a: Action) {
    var s := Run(restarts, actions);
    Unfences(s, a) || (!Punctual(restarts, actions) && Bares(s, a))
  }

  // ---- the history, step by step ----

  lemma OwnerHistory(f: Files, v: View, stage: Stage)
    requires OwnerOk(f, stage) && Plausible(f, f.status)
    ensures Lawful(f.status, OwnerMove(f, v, stage).files.status) <==> !OwnerOvertakes(f, stage)
  {
    OwnerIsRegular(f, v, stage);
  }

  lemma ChildHistory(f: Files, free: Leases, c: Child, fails: bool)
    requires ChildOk(f, c) && Plausible(f, f.status)
    ensures Lawful(f.status, ChildTurn(f, free, c, fails).files.status) <==> !ChildOvertakes(f, c)
  {
    ChildTurns(f, free, c, fails);
  }

  lemma NoteHistory(s: State, a: Action)
    ensures Lawful(s.files.status, NoteStep(s, a).files.status)
            <==> !(a.NoteSave? && s.note.Some? && NoteOvertakes(s.files.status, s.note.value))
  {
  }

  lemma OthersKeepHistory(s: State, a: Action)
    requires !a.Advance? && !a.ChildStep? && !a.NoteSave?
    ensures Step(s, a).files.status == s.files.status
  {
  }

  /** Before any note was late. */
  lemma PunctualHistory(s: State, a: Action)
    requires Inv(s)
    ensures Lawful(s.files.status, Step(s, a).files.status) <==> !Overtakes(s, a)
  {
    match a
    case Advance => if s.owner.Some? { OwnerHistory(s.files, Sees(s, s.owner.value), s.owner.value.stage); }
    case ChildStep(i, fails) =>
      if i < |s.children| { ChildHistory(s.files, ChildFinds(s.owner, s.children), s.children[i], fails); }
    case NoteSave => NoteHistory(s, a);
    case _ => OthersKeepHistory(s, a);
  }

  lemma OwnerHistoryAfterwards(f: Files, v: View, stage: Stage)
    requires Plausible(f, f.status)
    ensures Lawful(f.status, OwnerMove(f, v, stage).files.status) <==> !OwnerOutdone(f, stage)
    ensures OwnerOvertakes(f, stage) ==> OwnerOutdone(f, stage)
  {
    OwnerIsRegular(f, v, stage);
  }

  lemma PreflightSaves(f: Files, free: Leases, at: PreflightStage, fails: bool)
    ensures var saved := PreflightStep(f, free, at, fails).files.status;
            if at.PreflightChecked? || (fails && (at.PreflightStopping? || at.PreflightCommitted?))
            then HandoffLost(saved.phase) && !saved.mutated else saved == f.status
  {
  }

  lemma LostSaves(file: Status, saved: Status)
    requires HandoffLost(saved.phase) && !saved.mutated
    ensures Lawful(file, saved) <==> !Outdone(file, false)
  {
  }

  lemma PreflightHistoryAfterwards(f: Files, free: Leases, at: PreflightStage, fails: bool)
    ensures Lawful(f.status, PreflightStep(f, free, at, fails).files.status) <==> !ChildOutdone(f, Preflight(at), fails)
  {
    PreflightSaves(f, free, at, fails);
    if at.PreflightChecked? || (fails && (at.PreflightStopping? || at.PreflightCommitted?)) {
      LostSaves(f.status, PreflightStep(f, free, at, fails).files.status);
    }
  }

  lemma RuntimeHistoryAfterwards(f: Files, free: Leases, at: RuntimeStage)
    ensures Lawful(f.status, RuntimeStep(f, free, at).files.status) <==> !RuntimeOutdone(f, at)
  {
    RuntimeTurns(f, free, at);
  }

  lemma ChildHistoryAfterwards(f: Files, free: Leases, c: Child, fails: bool)
    ensures Lawful(f.status, ChildTurn(f, free, c, fails).files.status) <==> !ChildOutdone(f, c, fails)
  {
    match c
    case Preflight(at) => PreflightHistoryAfterwards(f, free, at, fails);
    case Installer(at) => InstallerTurns(f, free, at);
    case Runtime(at) => RuntimeHistoryAfterwards(f, free, at);
    case Gone(_) =>
  }

  /** Afterwards. */
  lemma LateHistory(s: State, a: Action)
    requires Plausible(s.files, s.files.status)
    ensures Lawful(s.files.status, Step(s, a).files.status) <==> !Overtakes(s, a) && !Outdates(s, a)
  {
    match a
    case Advance => if s.owner.Some? { OwnerHistoryAfterwards(s.files, Sees(s, s.owner.value), s.owner.value.stage); }
    case ChildStep(i, fails) =>
      if i < |s.children| {
        ChildHistoryAfterwards(s.files, ChildFinds(s.owner, s.children), s.children[i], fails);
        assert ChildOvertakes(s.files, s.children[i]) ==> ChildOutdone(s.files, s.children[i], fails);
      }
    case NoteSave => NoteHistory(s, a);
    case _ => OthersKeepHistory(s, a);
  }

  /**
   After any run, with any number of orphans beside the owner: a step forgets a recorded mutation or
   leaves a finished phase exactly when it overtakes, or is outdone and some note was late before it.
   */
  lemma HistoryBreaksExactly(restarts: bool, actions: seq<Action>, a: Action)
    ensures var s := Run(restarts, actions);
            Lawful(s.files.status, Step(s, a).files.status) <==> !Breaks(restarts, actions, a)
  {
    if Punctual(restarts, actions) {
      PunctualRunsKeep(restarts, actions);
      PunctualHistory(Run(restarts, actions), a);
    } else {
      RunsKeep(restarts, actions);
      LateHistory(Run(restarts, actions), a);
    }
  }

  /** No step of the run breaks the history. */
  predicate Orderly(restarts: bool, actions: seq<Action>) {
    actions == [] ||
    var before, a := actions[..|actions| - 1], actions[|actions| - 1];
    Orderly(restarts, before) && !Breaks(restarts, before, a)
  }

  lemma {:induction false} HistoryIsLawful(restarts: bool, before: seq<Action>, after: seq<Action>)
    requires Orderly(restarts, before + after)
    ensures Orderly(restarts, before)
    ensures Lawful(Run(restarts, before).files.status, Run(restarts, before + after).files.status)
  {
    if after == [] {
      assert before + after == before;
    } else {
      var init, last := after[..|after| - 1], after[|after| - 1];
      assert before + after == (before + init) + [last];
      assert (before + after)[..|before + after| - 1] == before + init;
      HistoryIsLawful(restarts, before, init);
      RunSplits(restarts, before + init, last);
      HistoryBreaksExactly(restarts, before + init, last);
    }
  }

  lemma OvertakenStale(f: Files, stage: Stage)
    requires StageBound(f, stage) && Plausible(f, f.status) && Follows(stage) && OwnerOvertakes(f, stage)
    ensures CopyOf(stage) != f.status || f.status.phase == Restored
  {
  }

  /** An owner that overtakes works from a copy the file has left behind, or read the job as restored. */
  lemma OvertakenCopiesAreStale(restarts: bool, actions: seq<Action>)
    requires var s := Run(restarts, actions); s.owner.Some? && Follows(s.owner.value.stage) && Overtakes(s, Advance)
    ensures var s := Run(restarts, actions);
            CopyOf(s.owner.value.stage) != s.files.status || s.files.status.phase == Restored
  {
    RunsKeep(restarts, actions);
    OvertakenStale(Run(restarts, actions).files, Run(restarts, actions).owner.value.stage);
  }

  // ---- the fences, step by step ----

  lemma PreservingFences(f: Files, v: View, at: PreserveStage)
    requires PreserveOk(f, at) && Fenced(f)
    ensures Fenced(PreserveStep(f, v, at).files) <==> !OwnerUnfences(f, Preserving(at))
  {
  }

  lemma FencingFences(f: Files, v: View, stage: Stage)
    requires OwnerOk(f, stage) && Fenced(f) && (stage.Replacing? || stage.Returning?)
    ensures Fenced(OwnerMove(f, v, stage).files)
  {
  }

  lemma ReleasingFences(f: Files, v: View, stage: Stage)
    requires OwnerOk(f, stage) && Fenced(f) && (stage.Completing? || stage.Clearing? || stage.Cancelling?)
    ensures Fenced(OwnerMove(f, v, stage).files) <==> !OwnerUnfences(f, stage)
  {
  }

  lemma OwnerFences(f: Files, v: View, stage: Stage)
    requires OwnerOk(f, stage) && Plausible(f, f.status) && Fenced(f)
    ensures Fenced(OwnerMove(f, v, stage).files) <==> !OwnerUnfences(f, stage)
  {
    if stage.Preserving? { PreservingFences(f, v, stage.preserve); }
    else if stage.Replacing? || stage.Returning? { FencingFences(f, v, stage); }
    else if stage.Completing? || stage.Clearing? || stage.Cancelling? { ReleasingFences(f, v, stage); }
    else { OwnerIsRegular(f, v, stage); }
  }

  lemma ChildFences(f: Files, free: Leases, c: Child, fails: bool)
    requires ChildBound(f, c) && Plausible(f, f.status) && Fenced(f)
    ensures Fenced(ChildTurn(f, free, c, fails).files) <==> !ChildUnfences(f, free.maintenance, c)
  {
    ChildTurns(f, free, c, fails);
  }

  lemma NoteFences(s: State, a: Action)
    requires Bound(s) && Fenced(s.files)
    ensures Fenced(NoteStep(s, a).files) <==> !(a.NoteSave? && s.note.Some? && NoteUnfences(s.files, s.note.value))
  {
  }

  lemma PunctualFences(s: State, a: Action)
    requires Inv(s) && Bound(s) && Fenced(s.files)
    ensures Fenced(Step(s, a).files) <==> !Unfences(s, a)
  {
    match a
    case Advance => if s.owner.Some? { OwnerFences(s.files, Sees(s, s.owner.value), s.owner.value.stage); }
    case ChildStep(i, fails) =>
      if i < |s.children| { ChildFences(s.files, ChildFinds(s.owner, s.children), s.children[i], fails); }
    case _ => NoteFences(s, a);
  }

  lemma PreservingFencesAfterwards(f: Files, v: View, at: PreserveStage)
    requires PreserveBound(f, at) && Fenced(f)
    ensures Fenced(PreserveStep(f, v, at).files) <==> !OwnerUnfences(f, Preserving(at))
  {
  }

  lemma ReplacingFencesAfterwards(f: Files, v: View, at: ReplaceStage)
    requires f.backup && Fenced(f) && f.restarts
    ensures Fenced(ReplaceStep(f, v, at).files) <==> !OwnerBares(f, Replacing(at))
  {
  }

  lemma ReturningFencesAfterwards(f: Files, v: View, at: ReturnStage)
    requires ReturnBound(f, at) && Fenced(f)
    ensures Fenced(ReturnStep(f, v, at).files)
  {
  }

  lemma DroppingFences(f: Files, v: View, stage: Stage)
    requires StageBound(f, stage) && Fenced(f) && (stage.Clearing? || stage.Cancelling?)
    ensures Fenced(OwnerMove(f, v, stage).files) <==> !OwnerUnfences(f, stage) && !OwnerBares(f, stage)
  {
  }

  lemma OwnerFencesAfterwards(f: Files, v: View, stage: Stage)
    requires StageBound(f, stage) && Plausible(f, f.status) && Fenced(f) && f.restarts
    ensures Fenced(OwnerMove(f, v, stage).files) <==> !OwnerUnfences(f, stage) && !OwnerBares(f, stage)
  {
    if stage.Preserving? { PreservingFencesAfterwards(f, v, stage.preserve); }
    else if stage.Replacing? { ReplacingFencesAfterwards(f, v, stage.replace); }
    else if stage.Returning? { ReturningFencesAfterwards(f, v, stage.restore); }
    else if stage.Clearing? || stage.Cancelling? { DroppingFences(f, v, stage); }
    else { OwnerIsRegular(f, v, stage); }
  }

  lemma LateFences(s: State, a: Action)
    requires Bound(s) && Fenced(s.files) && s.files.restarts
    ensures Fenced(Step(s, a).files) <==> !Unfences(s, a) && !Bares(s, a)
  {
    match a
    case Advance => if s.owner.Some? { OwnerFencesAfterwards(s.files, Sees(s, s.owner.value), s.owner.value.stage); }
    case ChildStep(i, fails) =>
      if i < |s.children| { ChildFences(s.files, ChildFinds(s.owner, s.children), s.children[i], fails); }
    case _ => NoteFences(s, a);
  }

  lemma KindIsKept(s: State, a: Action)
    ensures Step(s, a).files.restarts == s.files.restarts
  {
    match a
    case Advance => if s.owner.Some? { OwnerIsRegular(s.files, Sees(s, s.owner.value), s.owner.value.stage); }
    case ChildStep(i, fails) => if i < |s.children| { ChildTurns(s.files, ChildFinds(s.owner, s.children), s.children[i], fails); }
    case _ =>
  }

  /** Only jobs that restart gateways are supervised. */
  lemma {:induction false} NotesNeedRestarts(restarts: bool, actions: seq<Action>)
    ensures Run(restarts, actions).files.restarts == restarts
    ensures Punctual(restarts, actions) || restarts
  {
    if actions != [] {
      var before, a := actions[..|actions| - 1], actions[|actions| - 1];
      NotesNeedRestarts(restarts, before);
      RunsKeep(restarts, before);
      KindIsKept(Run(restarts, before), a);
    }
  }

  /**
   After any run in which the fences stand, a step drops them exactly when it is one of the listed
   kinds, or bares the job and some note was late before it.
   */
  lemma FencesFallExactly(restarts: bool, actions: seq<Action>, a: Action)
    requires Fenced(Run(restarts, actions).files)
    ensures Fenced(Step(Run(restarts, actions), a).files) <==> !Exposes(restarts, actions, a)
  {
    RunsKeep(restarts, actions);
    if Punctual(restarts, actions) {
      PunctualRunsKeep(restarts, actions);
      PunctualFences(Run(restarts, actions), a);
    } else {
      NotesNeedRestarts(restarts, actions);
      LateFences(Run(restarts, actions), a);
    }
  }

  /** No step of the run drops a fence. */
  predicate Guarded(restarts: bool, actions: seq<Action>) {
    actions == [] ||
    var before, a := actions[..|actions| - 1], actions[|actions| - 1];
    Guarded(restarts, before) && !Exposes(restarts, before, a)
  }

  /**
   Wherever owners and children died: while packages may be changed and nothing is settled, the
   pending marker and data reservation name this job, and its original backup is committed unless the
   original program's return has begun, in every run without a step that drops a fence.
   */
  lemma {:induction false} MutationStaysFenced(restarts: bool, actions: seq<Action>)
    requires Guarded(restarts, actions)
    ensures Fenced(Run(restarts, actions).files)
  {
    if actions != [] {
      var before, a := actions[..|actions| - 1], actions[|actions| - 1];
      MutationStaysFenced(restarts, before);
      FencesFallExactly(restarts, before, a);
    }
  }

  // ---- an interrupted finalization ----

  predicate AllGone(children: seq<Child>) {
    forall i :: 0 <= i < |children| ==> children[i].Gone?
  }

  /** Every process has died while the job was finalizing. */
  predicate Interrupted(s: State) {
    s.owner.None? && s.note.None? && AllGone(s.children) && s.files.status.phase == Finalizing
  }

  lemma RunDispatches(s: State)
    requires Interrupted(s)
    ensures Step(Step(Step(s, Start(RunPlain)), Advance), Advance)
            == s.(owner := Some(Owner(RunPlain, Admitting(Dispatching(s.files.status)), 0)))
  {
  }

  lemma RuntimeRelaunched(s: State)
    requires Interrupted(s)
    ensures var s1 := Step(Step(s, Start(RunPlain)), Advance);
            Step(Step(Step(s1, Advance), Advance), Advance)
            == State(s.files, Some(Owner(RunPlain, Relaunching(AwaitRuntime), |s.children|)), s.children + [Runtime(RuntimeNew)])
  {
    RunDispatches(s);
  }

  lemma CleanupAdmitted(s: State, i: nat)
    requires |s.children| == i + 1 && s.children[i] == Runtime(RuntimeNew) && AllGone(s.children[..i])
    requires s.owner.Some? && s.owner.value.stage == Relaunching(AwaitRuntime) && s.files.restarts
    requires s.files.status.phase == Finalizing && s.files.restoration != Restoring
    ensures Step(Step(s, ChildStep(i, false)), ChildStep(i, false))
            == s.(children := s.children[i := Runtime(RuntimeEntering(s.files.status))])
  {
  }

  lemma CleanupReleases(s: State, i: nat)
    requires |s.children| == i + 1 && s.children[i] == Runtime(RuntimeEntering(s.files.status)) && AllGone(s.children[..i])
    requires s.owner.Some? && s.owner.value.stage == Relaunching(AwaitRuntime) && s.files.status.phase == Finalizing
    ensures Step(s, ChildStep(i, false))
            == s.(files := s.files.(reserved := false), children := s.children[i := Runtime(RuntimeCleanUnmark)])
  {
  }

  lemma CleanupEnds(s: State, i: nat)
    requires i < |s.children| && s.children[i] == Runtime(RuntimeCleanUnmark)
    ensures Step(Step(s, ChildStep(i, false)), ChildStep(i, false)).files
            == s.files.(pending := false, status := Status(FinalPhase(s.files.restoration), true))
  {
  }

  lemma RunsTwo(restarts: bool, before: seq<Action>, a: Action, b: Action)
    ensures Run(restarts, before + [a, b]) == Step(Step(Run(restarts, before), a), b)
  {
    RunSplits(restarts, before, a);
    RunSplits(restarts, before + [a], b);
    assert before + [a, b] == before + [a] + [b];
  }

  lemma RunsThree(restarts: bool, before: seq<Action>, a: Action, b: Action, c: Action)
    ensures Run(restarts, before + [a, b, c]) == Step(Step(Step(Run(restarts, before), a), b), c)
  {
    RunsTwo(restarts, before, a, b);
    RunSplits(restarts, before + [a, b], c);
    assert before + [a, b, c] == before + [a, b] + [c];
  }

  /** A fresh run relaunches the coordinator, and it is admitted for the cleanup alone. */
  lemma CleanupStarts(restarts: bool, actions: seq<Action>) returns (more: seq<Action>)
    requires Interrupted(Run(restarts, actions)) && Run(restarts, actions).files.restoration != Restoring
    ensures actions <= more
    ensures var s, i := Run(restarts, actions), |Run(restarts, actions).children|;
            Run(restarts, more) == State(s.files, Some(Owner(RunPlain, Relaunching(AwaitRuntime), i)),
                                         s.children + [Runtime(RuntimeEntering(s.files.status))])
  {
    RunsKeep(restarts, actions);
    var s, i := Run(restarts, actions), |Run(restarts, actions).children|;
    RuntimeRelaunched(s);
    RunsTwo(restarts, actions, Start(RunPlain), Advance);
    more := actions + [Start(RunPlain), Advance];
    RunsThree(restarts, more, Advance, Advance, Advance);
    more := more + [Advance, Advance, Advance];
    CleanupAdmitted(Run(restarts, more), i);
    RunsTwo(restarts, more, ChildStep(i, false), ChildStep(i, false));
    more := more + [ChildStep(i, false), ChildStep(i, false)];
  }

  /** A crash between the two cleanup writes of finalizing is finished by the next run, which restarts nothing. */
  lemma FinalizingResumes(restarts: bool, actions: seq<Action>) returns (after: seq<Action>)
    requires Interrupted(Run(restarts, actions)) && Run(restarts, actions).files.restoration != Restoring
    ensures actions <= after
    ensures var f := Run(restarts, actions).files;
            Run(restarts, after).files
            == f.(reserved := false, pending := false, status := Status(FinalPhase(f.restoration), true))
  {
    var i := |Run(restarts, actions).children|;
    after := CleanupStarts(restarts, actions);
    CleanupReleases(Run(restarts, after), i);
    CleanupEnds(Step(Run(restarts, after), ChildStep(i, false)), i);
    RunsThree(restarts, after, ChildStep(i, false), ChildStep(i, false), ChildStep(i, false));
    after := after + [ChildStep(i, false), ChildStep(i, false), ChildStep(i, false)];
  }

  /** Nobody past its entry checks, while the original program's return stopped half way over a finalizing job. */
  predicate Stranded(s: State) {
    && s.files.status.phase == Finalizing && s.files.restoration == Restoring
    && (s.owner.Some? ==> Harmless(s.owner.value.stage))
    && (s.note.Some? ==> s.note.value.phase == Finalizing)
    && (forall i :: 0 <= i < |s.children| ==>
          s.children[i].Gone? || s.children[i] == Runtime(RuntimeNew) || s.children[i] == Runtime(RuntimeAdmitted))
  }

  predicate Harmless(stage: Stage) {
    match stage
    case Deciding => true
    case Reading => true
    case Admitting(at) => at.copy.phase == Finalizing
    case Relaunching(_) => true
    case Failing(at) => at.Caught? || at.CaughtBusy?
    case Examining(at) => at.CheckActivation?
    case Cancelling(at) => at.CancelRead?
    case SeekAdmission(_) => true
    case Reviewing(at) => at.HandoffRead? || at.SettleRead?
    case _ => false
  }

  lemma StageStaysHarmless(f: Files, v: View, stage: Stage)
    requires Plausible(f, f.status) && f.status.phase == Finalizing && f.restoration == Restoring && Harmless(stage)
    ensures var move := OwnerMove(f, v, stage);
            && move.files.status == f.status && move.files.restoration == f.restoration
            && (move.stage.Some? ==> Harmless(move.stage.value))
            && (move.launched.Some? ==> move.launched.value == Runtime(RuntimeNew))
  {
  }

  lemma ChildStaysStranded(s: State, i: nat, fails: bool)
    requires Stranded(s) && i < |s.children|
    ensures Stranded(ChildStepped(s, i, fails))
  {
  }

  lemma StaysStranded(s: State, a: Action)
    requires Bound(s) && Stranded(s)
    ensures Stranded(Step(s, a))
  {
    match a
    case Advance => if s.owner.Some? { StageStaysHarmless(s.files, Sees(s, s.owner.value), s.owner.value.stage); }
    case ChildStep(i, fails) => if i < |s.children| { ChildStaysStranded(s, i, fails); }
    case _ =>
  }

  lemma OneStepStranded(restarts: bool, before: seq<Action>, a: Action)
    requires Stranded(Run(restarts, before))
    ensures Stranded(Run(restarts, before + [a]))
  {
    RunsKeep(restarts, before);
    StaysStranded(Run(restarts, before), a);
    RunSplits(restarts, before, a);
  }

  lemma {:induction false} StrandedForever(restarts: bool, actions: seq<Action>, more: seq<Action>)
    requires Stranded(Run(restarts, actions))
    ensures Stranded(Run(restarts, actions + more))
  {
    if more == [] {
      assert actions + more == actions;
    } else {
      var init, a := more[..|more| - 1], more[|more| - 1];
      StrandedForever(restarts, actions, init);
      OneStepStranded(restarts, actions + init, a);
      assert actions + more == actions + init + [a];
    }
  }

  /**
   A job whose processes all died while it was finalizing can still be finished exactly when no
   return of the original program stopped half way.
   */
  lemma FinalizingFinishesIffNotReturning(restarts: bool, actions: seq<Action>)
    requires Interrupted(Run(restarts, actions))
    ensures (exists more :: Final(Run(restarts, actions + more).files.status.phase))
            <==> Run(restarts, actions).files.restoration != Restoring
  {
    if Run(restarts, actions).files.restoration != Restoring {
      var after := FinalizingResumes(restarts, actions);
      assert actions + after[|actions|..] == after;
      assert Final(Run(restarts, actions + after[|actions|..]).files.status.phase);
    } else {
      forall more ensures !Final(Run(restarts, actions + more).files.status.phase) {
        StrandedForever(restarts, actions, more);
      }
    }
  }
}
