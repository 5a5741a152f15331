/**
 What the records beside the status keep in every run, however late a note of supervise is saved: no
 assumption is made about the phase on disk but that it is plausible.
 */
module UpdateWorkerRecords {
  import opened Wrappers
  import opened UpdateWorker
  import opened UpdateWorkerTimely

  // ---- the invariant ----

  predicate Final(p: Phase) {
    p == Succeeded || p == Restored
  }

  /** restore_service holds supervisor.lock, so only children change the status it has read. */
  predicate ReturnBound(f: Files, at: ReturnStage) {
    && Plausible(f, at.copy) && f.restarts && !Final(at.copy.phase) && at.copy.phase != Finalizing
    && (at.copy.mutated && RuntimePhase(f.status.phase) ==> f.status.mutated)
    && (at.ToRestore? ==> at.copy.mutated)
    && (at.ToReserveAgain? || at.ToMarkAgain? || at.ToRestart? ==> f.restoration == Returned)
    && (at.ToMarkAgain? || at.ToRestart? ==> f.reserved)
    && (at.ToRestart? ==> f.pending)
  }

  predicate ExamineBound(f: Files, at: ExamineStage) {
    && Plausible(f, at.copy) && f.restarts && !Final(at.copy.phase)
    && (at.copy.mutated && RuntimePhase(f.status.phase) ==> f.status.mutated)
    && (at.CheckShutdown? || at.ToRefuse? ==> at.copy.phase != Finalizing)
    && (at.ToRefuse? ==> !at.copy.mutated)
  }

  predicate FailBound(f: Files, at: FailStage) {
    && (at.ToFail? ==> Plausible(f, at.copy) && at.copy.phase != Finalizing && at.copy.phase != Succeeded)
    && (at.ToBusyFail? ==> HandoffLost(at.copy.phase) && !at.copy.mutated)
  }

  predicate PreserveBound(f: Files, at: PreserveStage) {
    match at
    case SeekBackup(copy) => Plausible(f, copy)
    case ToBackUp(copy) => Plausible(f, copy)
    case ToCommitBackup(_) => true
    case ToReserve => f.backup
    case ToMark => f.backup && f.reserved
  }

  predicate StageBound(f: Files, stage: Stage) {
    match stage
    case Admitting(at) => Plausible(f, at.copy)
    case Handing(at) => HandoffPhase(at.copy.phase) && !at.copy.mutated
    case Preserving(at) => PreserveBound(f, at)
    case Replacing(_) => f.backup
    case Completing(_) => !f.restarts
    case Failing(at) => FailBound(f, at)
    case Clearing(at) => at.ClearUnreserve? ==> !f.pending
    case Examining(at) => ExamineBound(f, at)
    case Returning(at) => ReturnBound(f, at)
    case Cancelling(at) => at.CancelUnreserve? || at.CancelPublish? ==> !f.pending
    case ToWithdraw(copy) => copy.phase == Checking && !copy.mutated
    case _ => true
  }

  predicate InstallerBound(f: Files, at: InstallerStage) {
    && (at.InstallerReserve? || at.InstallerMark? || at.InstallerPublish? ==> f.backup)
    && (at.InstallerMark? || at.InstallerPublish? ==> f.reserved)
    && (at.InstallerPublish? ==> f.pending)
  }

  predicate RuntimeBound(f: Files, at: RuntimeStage) {
    match at
    case RuntimeNew => true
    case RuntimeAdmitted => f.restarts
    case RuntimeEntering(copy) => Sound(f, copy.mutated) && RuntimePhase(copy.phase) && Plausible(f, copy)
    case RuntimeRestart(m) => Sound(f, m) && f.pending && f.reserved
    case RuntimeActivate(m) => Sound(f, m) && f.pending && f.reserved
    case RuntimeAuthorize(m) => Sound(f, m) && f.pending && f.reserved
    case RuntimeFinalize(m) => Sound(f, m) && f.pending && f.reserved && f.activation
    case RuntimeUnreserve(m) => Sound(f, m) && f.activation
    case RuntimeUnmark(m) => Sound(f, m) && f.activation && !f.reserved
    case RuntimeFinish(m) => Sound(f, m) && f.activation && !f.reserved
    case RuntimeCleanUnmark => Sound(f, true) && f.activation && !f.reserved
    case RuntimeCleanFinish => Sound(f, true) && f.activation && !f.reserved
    case RuntimeDone => true
  }

  predicate ChildBound(f: Files, c: Child) {
    match c
    case Installer(at) => InstallerBound(f, at)
    case Runtime(at) => RuntimeBound(f, at)
    case _ => true
  }

  predicate ChildrenBound(f: Files, children: seq<Child>) {
    forall i :: 0 <= i < |children| ==> ChildBound(f, children[i])
  }

  predicate OwnerBound(f: Files, o: Owner) {
    StageBound(f, o.stage) && (o.stage.Examining? || o.stage.Returning? ==> o.entry.RestoreService?)
  }

  predicate NoteBound(s: State) {
    s.note.Some? ==>
      Plausible(s.files, s.note.value) && s.files.restarts && (s.owner.Some? ==> !HoldsSupervisor(s.owner.value.entry))
  }

  predicate Bound(s: State) {
    && Plausible(s.files, s.files.status)
    && NoteBound(s)
    && (s.owner.Some? ==> OwnerBound(s.files, s.owner.value))
    && ChildrenBound(s.files, s.children)
    && LeasesOk(s)
  }

  // ---- an owner's step ----

  lemma SavedBound(f: Files, stage: Stage)
    requires StageBound(f, stage) && Plausible(f, f.status)
    ensures Plausible(f, Saved(f, stage))
  {
  }

  lemma RestoringBound(f: Files, v: View, at: ReturnStage)
    requires ReturnBound(f, at) && Plausible(f, f.status)
    ensures var f' := ReturnStep(f, v, at).files; Plausible(f', f'.status)
  {
    if !at.ToRestore? {
      OwnerIsRegular(f, v, Returning(at));
      SavedBound(f, Returning(at));
      var f' := ReturnStep(f, v, at).files;
      if !at.ToRestart? { PlausibleGrows(f, f', f'.status); }
    }
  }

  lemma OwnerKeepsPlausible(f: Files, v: View, stage: Stage)
    requires StageBound(f, stage) && Plausible(f, f.status)
    ensures var f' := OwnerMove(f, v, stage).files; Plausible(f', f'.status)
  {
    var f' := OwnerMove(f, v, stage).files;
    if stage.Returning? {
      RestoringBound(f, v, stage.restore);
    } else {
      OwnerIsRegular(f, v, stage);
      SavedBound(f, stage);
      PlausibleGrows(f, f', f'.status);
    }
  }

  predicate NextBound(v: View, move: Move) {
    move.stage.Some? ==>
      && StageBound(move.files, move.stage.value)
      && (move.stage.value.Examining? || move.stage.value.Returning? ==> v.entry.RestoreService?)
  }

  lemma ReadNextBound(f: Files, v: View)
    requires Plausible(f, f.status)
    ensures NextBound(v, Read(f, v))
  {
  }

  lemma AdmitNextBound(f: Files, v: View, at: AdmitStage)
    requires Plausible(f, at.copy)
    ensures NextBound(v, AdmitStep(f, v, at))
  {
  }

  lemma HandNextBound(f: Files, v: View, at: HandStage)
    requires StageBound(f, Handing(at))
    ensures NextBound(v, HandStep(f, v, at))
  {
  }

  lemma PreserveNextBound(f: Files, v: View, at: PreserveStage)
    requires PreserveBound(f, at)
    ensures NextBound(v, PreserveStep(f, v, at))
  {
  }

  lemma ReplaceNextBound(f: Files, v: View, at: ReplaceStage)
    requires f.backup
    ensures NextBound(v, ReplaceStep(f, v, at))
  {
  }

  lemma ReturnNextBound(f: Files, v: View, at: ReturnStage)
    requires ReturnBound(f, at) && v.entry.RestoreService?
    ensures NextBound(v, ReturnStep(f, v, at))
  {
  }

  lemma ExamineNextBound(f: Files, v: View, at: ExamineStage)
    requires ExamineBound(f, at) && v.entry.RestoreService?
    ensures NextBound(v, ExamineStep(f, v, at))
  {
  }

  lemma CompleteNextBound(f: Files, v: View, at: CompleteStage)
    requires !f.restarts
    ensures NextBound(v, CompleteStep(f, v, at))
  {
  }

  lemma FailNextBound(f: Files, v: View, at: FailStage)
    requires Plausible(f, f.status)
    ensures NextBound(v, FailStep(f, v, at))
  {
  }

  lemma ReviewNextBound(f: Files, v: View, at: ReviewStage)
    ensures NextBound(v, ReviewStep(f, v, at))
  {
  }

  lemma CancelNextBound(f: Files, v: View, at: CancelStage)
    requires StageBound(f, Cancelling(at))
    ensures NextBound(v, CancelStep(f, v, at))
  {
  }

  lemma OtherNextBound(f: Files, v: View, stage: Stage)
    requires StageBound(f, stage)
    requires stage.Deciding? || stage.Relaunching? || stage.Clearing? || stage.SeekAdmission? || stage.ToWithdraw?
    ensures NextBound(v, OwnerMove(f, v, stage))
  {
  }

  lemma OwnerNextBound(f: Files, v: View, stage: Stage)
    requires StageBound(f, stage) && Plausible(f, f.status)
    requires stage.Examining? || stage.Returning? ==> v.entry.RestoreService?
    ensures NextBound(v, OwnerMove(f, v, stage))
  {
    match stage
    case Reading => ReadNextBound(f, v);
    case Admitting(at) => AdmitNextBound(f, v, at);
    case Handing(at) => HandNextBound(f, v, at);
    case Preserving(at) => PreserveNextBound(f, v, at);
    case Replacing(at) => ReplaceNextBound(f, v, at);
    case Completing(at) => CompleteNextBound(f, v, at);
    case Failing(at) => FailNextBound(f, v, at);
    case Cancelling(at) => CancelNextBound(f, v, at);
    case Reviewing(at) => ReviewNextBound(f, v, at);
    case Examining(at) => ExamineNextBound(f, v, at);
    case Returning(at) => ReturnNextBound(f, v, at);
    case _ => OtherNextBound(f, v, stage);
  }

  /** Without the exclusive leases an owner changes at most the status; with them no child is at work. */
  lemma OwnerSparesBound(f: Files, v: View, stage: Stage, c: Child)
    requires ChildBound(f, c) && StageFits(stage, c)
    ensures ChildBound(OwnerMove(f, v, stage).files, c)
  {
    OwnerIsRegular(f, v, stage);
  }

  lemma OwnerKeepsOld(s: State, o: Owner)
    requires Bound(s) && s.owner == Some(o)
    ensures ChildrenBound(OwnerStep(s, o).files, s.children)
    ensures forall i :: 0 <= i < |s.children| ==> Fits(OwnerStep(s, o).owner, s.children[i])
  {
    forall i | 0 <= i < |s.children|
      ensures ChildBound(OwnerStep(s, o).files, s.children[i]) && Fits(OwnerStep(s, o).owner, s.children[i])
    {
      OwnerSparesBound(s.files, Sees(s, o), o.stage, s.children[i]);
      OwnerFits(s, o, s.children[i]);
    }
  }

  lemma LaunchedBound(s: State, child: Child)
    requires ChildrenBound(s.files, s.children) && LeasesOk(s) && IsIdle(child) && ChildBound(s.files, child)
    ensures ChildrenBound(s.files, s.children + [child]) && LeasesOk(s.(children := s.children + [child]))
  {
  }

  lemma OwnerKeepsLeases(s: State, o: Owner)
    requires Bound(s) && s.owner == Some(o)
    ensures LeasesOk(OwnerStep(s, o)) && ChildrenBound(OwnerStep(s, o).files, OwnerStep(s, o).children)
  {
    var move, s' := OwnerMove(s.files, Sees(s, o), o.stage), OwnerStep(s, o);
    OwnerKeepsOld(s, o);
    if move.stage.Some? && move.launched.Some? {
      OwnerIsRegular(s.files, Sees(s, o), o.stage);
      LaunchedBound(s'.(children := s.children), move.launched.value);
    }
  }

  lemma OwnerKeepsNote(s: State, o: Owner)
    requires Bound(s) && s.owner == Some(o)
    ensures NoteBound(OwnerStep(s, o))
  {
    if s.note.Some? {
      OwnerIsRegular(s.files, Sees(s, o), o.stage);
      PlausibleGrows(s.files, OwnerStep(s, o).files, s.note.value);
    }
  }

  lemma OwnerKeepsBound(s: State, o: Owner)
    requires Bound(s) && s.owner == Some(o)
    ensures Bound(OwnerStep(s, o))
  {
    OwnerKeepsPlausible(s.files, Sees(s, o), o.stage);
    OwnerNextBound(s.files, Sees(s, o), o.stage);
    OwnerKeepsLeases(s, o);
    OwnerKeepsNote(s, o);
  }

  // ---- a child's step ----

  lemma RuntimeNextBound(f: Files, free: Leases, at: RuntimeStage)
    requires RuntimeBound(f, at) && Plausible(f, f.status)
    ensures var turn := RuntimeStep(f, free, at); ChildBound(turn.files, turn.child)
  {
  }

  lemma ChildNextBound(f: Files, free: Leases, c: Child, fails: bool)
    requires ChildBound(f, c) && Plausible(f, f.status)
    ensures var turn := ChildTurn(f, free, c, fails); ChildBound(turn.files, turn.child)
  {
    if c.Runtime? { RuntimeNextBound(f, free, c.runtime); }
  }

  lemma TurnKeepsPlausible(f: Files, c: Child, f': Files)
    requires Plausible(f, f.status) && ChildBound(f, c) && Turns(f, c, f')
    ensures Plausible(f', f'.status)
  {
  }

  lemma TurnSparesStage(f: Files, c: Child, f': Files, stage: Stage)
    requires StageBound(f, stage) && StageFits(stage, c) && Turns(f, c, f')
    ensures StageBound(f', stage)
  {
  }

  lemma TurnSparesChild(f: Files, c: Child, f': Files, d: Child)
    requires ChildBound(f, d) && Compatible(c, d) && Turns(f, c, f')
    requires Coordinates(c) && !Maintains(c) && Maintains(d) ==> f'.reserved == f.reserved
    ensures ChildBound(f', d)
  {
  }

  lemma ChildKeepsOthers(s: State, i: nat, fails: bool)
    requires Bound(s) && i < |s.children|
    ensures var s' := ChildStepped(s, i, fails); ChildrenBound(s'.files, s'.children) && LeasesOk(s')
  {
    var free := ChildFinds(s.owner, s.children);
    var turn := ChildTurn(s.files, free, s.children[i], fails);
    ChildTurns(s.files, free, s.children[i], fails);
    ChildNextBound(s.files, free, s.children[i], fails);
    TurnFits(s, i, turn);
    forall j | 0 <= j < |s.children| && j != i
      ensures ChildBound(turn.files, s.children[j])
      ensures Compatible(turn.child, s.children[j]) && Compatible(s.children[j], turn.child)
    {
      assert Compatible(s.children[i], s.children[j]);
      TurnSparesChild(s.files, s.children[i], turn.files, s.children[j]);
      TurnCompatible(s, i, turn, j);
    }
  }

  lemma ChildKeepsBound(s: State, i: nat, fails: bool)
    requires Bound(s) && i < |s.children|
    ensures Bound(ChildStepped(s, i, fails))
  {
    var c, f' := s.children[i], ChildStepped(s, i, fails).files;
    ChildTurns(s.files, ChildFinds(s.owner, s.children), c, fails);
    TurnKeepsPlausible(s.files, c, f');
    if s.owner.Some? { TurnSparesStage(s.files, c, f', s.owner.value.stage); }
    if s.note.Some? { PlausibleGrows(s.files, f', s.note.value); }
    ChildKeepsOthers(s, i, fails);
  }

  // ---- whole runs ----

  lemma EndKeepsBound(s: State, i: nat)
    requires Bound(s) && i < |s.children|
    ensures Bound(Ended(s, i))
  {
  }

  lemma ThrowKeepsBound(s: State, o: Owner, handler: FailStage)
    requires Bound(s) && s.owner == Some(o) && (handler.Caught? || handler.CaughtBusy?)
    ensures Bound(Thrown(s, o, handler))
  {
  }

  lemma NoteKeepsBound(s: State, a: Action)
    requires Bound(s)
    ensures Bound(NoteStep(s, a))
  {
  }

  lemma StepKeepsBound(s: State, a: Action)
    requires Bound(s)
    ensures Bound(Step(s, a))
  {
    match a
    case Start(_) =>
    case Advance => if s.owner.Some? { OwnerKeepsBound(s, s.owner.value); }
    case Throw(busy) =>
      if s.owner.Some? && InTry(s.owner.value.stage) {
        ThrowKeepsBound(s, s.owner.value, if busy then CaughtBusy else Caught);
      }
    case TimeOut =>
      if s.owner.Some? && s.owner.value.awaited < |s.children| {
        EndKeepsBound(s, s.owner.value.awaited);
        ThrowKeepsBound(Ended(s, s.owner.value.awaited), s.owner.value, Caught);
      }
    case OwnerDies =>
    case ChildStep(i, fails) => if i < |s.children| { ChildKeepsBound(s, i, fails); }
    case ChildDies(i) => if i < |s.children| { EndKeepsBound(s, i); }
    case _ => NoteKeepsBound(s, a);
  }

  lemma {:induction false} RunsKeep(restarts: bool, actions: seq<Action>)
    ensures Bound(Run(restarts, actions))
  {
    if actions != [] {
      RunsKeep(restarts, actions[..|actions| - 1]);
      StepKeepsBound(Run(restarts, actions[..|actions| - 1]), actions[|actions| - 1]);
    }
  }
}
