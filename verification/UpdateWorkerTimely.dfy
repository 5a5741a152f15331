/**
 What the records, owners and children of a job keep among themselves as long as every note of
 supervise is saved over the status it had read, however many orphans work beside an owner.
 */
module UpdateWorkerTimely {
  import opened Wrappers
  import opened UpdateWorker

  /** supervise saves a status that somebody has replaced since it was read. */
  predicate Late(s: State, a: Action) {
    a.NoteSave? && s.note.Some? && s.note.value != s.files.status
  }

  predicate Punctual(restarts: bool, actions: seq<Action>) {
    actions == [] ||
    var before, a := actions[..|actions| - 1], actions[|actions| - 1];
    Punctual(restarts, before) && !Late(Run(restarts, before), a)
  }

  // ---- the invariant ----

  /** What any saved or copied status record says about the records beside it. */
  predicate Plausible(f: Files, st: Status) {
    && (HandoffPhase(st.phase) || st.phase == Cancelled ==> !st.mutated)
    && (st.phase == Finalizing || st.phase == Succeeded ==> st.mutated)
    && (st.phase == Finalizing || st.phase == Succeeded || st.phase == Restored ==> f.activation)
    && (RuntimePhase(st.phase) || st.phase == Succeeded || st.phase == Restored ==> f.restarts)
    && (st.mutated || RuntimePhase(st.phase) ==> f.backup || f.restoration != Absent)
    && (RuntimePhase(st.phase) && !st.mutated ==> f.restoration == Returned)
    && (st.phase == Installed ==> !f.restarts)
  }

  /** How far children may have moved the phase since an owner read it. */
  predicate Reaches(from: Phase, to: Phase) {
    || to == from
    || (HandoffLost(from) && HandoffLost(to))
    || (!Finished(from) && to == Installing)
    || (RuntimePhase(from) && RuntimePhase(to))
    || ((RuntimePhase(from) || from == Failed || from == Succeeded || from == Restored) && (to == Succeeded || to == Restored))
  }

  predicate Copied(f: Files, copy: Status) {
    && Plausible(f, copy)
    && f.status.phase != Cancelled
    && Reaches(copy.phase, f.status.phase)
    && (RuntimePhase(f.status.phase) && copy.mutated ==> f.status.mutated)
  }

  predicate AdmitOk(f: Files, at: AdmitStage) {
    Copied(f, at.copy) && at.copy.phase != Cancelled && at.copy.phase != Restored
  }

  predicate HandOk(f: Files, at: HandStage) {
    f.status.phase != Cancelled && HandoffPhase(at.copy.phase) && !at.copy.mutated && (at.ToCheck? ==> Copied(f, at.copy))
  }

  predicate PreserveOk(f: Files, at: PreserveStage) {
    match at
    case SeekBackup(copy) => f.status.phase != Cancelled && Plausible(f, copy) && !Finished(copy.phase)
    case ToBackUp(copy) => f.status.phase != Cancelled && Plausible(f, copy) && !Finished(copy.phase)
    case ToCommitBackup(_) => f.status.phase == BackingUp
    case ToReserve => f.status.phase == BackingUp && f.backup
    case ToMark => f.status.phase == BackingUp && f.backup && f.reserved
  }

  predicate ReplaceOk(f: Files) {
    && (f.status.phase == BackingUp || f.status.phase == Installing || f.status.phase == Verifying)
    && f.pending && f.reserved && f.backup
  }

  predicate FailOk(f: Files, at: FailStage) {
    && f.status.phase != Cancelled
    && (at.ToFail? ==> Copied(f, at.copy) && at.copy.phase != Finalizing && at.copy.phase != Succeeded)
    && (at.ToBusyFail? ==> Copied(f, at.copy) && HandoffLost(at.copy.phase))
  }

  /** restore_service: past its check for an activation, a copy of another phase saw none. */
  predicate Restorable(f: Files, copy: Status) {
    && Copied(f, copy) && f.restarts
    && copy.phase != Succeeded && copy.phase != Restored && copy.phase != Finalizing
    && (RuntimePhase(copy.phase) ==> copy.mutated)
    && (!RuntimePhase(copy.phase) ==> !f.activation)
  }

  predicate ExamineOk(f: Files, at: ExamineStage) {
    match at
    case CheckActivation(copy) => Copied(f, copy) && f.restarts && copy.phase != Succeeded && copy.phase != Restored
    case CheckShutdown(copy) => Restorable(f, copy)
    case ToRefuse(copy) => Restorable(f, copy) && !copy.mutated
  }

  predicate ReturnOk(f: Files, at: ReturnStage) {
    && Restorable(f, at.copy)
    && (at.ToRestore? ==> at.copy.mutated)
    && (at.ToReserveAgain? || at.ToMarkAgain? || at.ToRestart? ==> f.restoration == Returned)
    && (at.ToMarkAgain? || at.ToRestart? ==> f.reserved)
    && (at.ToRestart? ==> f.pending)
  }

  predicate ReviewOk(f: Files, at: ReviewStage) {
    && (at.HandoffRevoke? || at.HandoffPublish? ==> HandoffPhase(f.status.phase))
    && (at.ToSettle? ==> f.status.phase == Ready || f.status.phase == HandoffFailed)
  }

  predicate OwnerOk(f: Files, stage: Stage) {
    match stage
    case Admitting(at) => AdmitOk(f, at)
    case Handing(at) => HandOk(f, at)
    case Preserving(at) => PreserveOk(f, at)
    case Replacing(_) => ReplaceOk(f)
    case Completing(_) => f.status.phase == Installed
    case Relaunching(_) => f.status.phase != Cancelled
    case Failing(at) => FailOk(f, at)
    case Clearing(at) => at.ClearUnreserve? ==> !f.pending
    case Examining(at) => ExamineOk(f, at)
    case Returning(at) => ReturnOk(f, at)
    case Cancelling(at) => at.CancelUnmark? || at.CancelUnreserve? || at.CancelPublish? ==> !f.status.mutated
    case Reviewing(at) => ReviewOk(f, at)
    case ToWithdraw(copy) => Copied(f, copy) && copy.phase == Checking
    case _ => true
  }

  /** The job a restart coordinator finds while it holds its shared lease. */
  predicate Underway(f: Files) {
    var p := f.status.phase;
    && f.restarts
    && (RuntimePhase(p) || ((p == Succeeded || p == Restored || p == Failed) && !f.reserved && f.activation))
    && (p == Succeeded ==> f.restoration == Absent)
    && (p == Restored ==> f.restoration != Absent)
  }

  predicate Sound(f: Files, mutated: bool) {
    && f.restarts
    && (mutated ==> f.backup || f.restoration != Absent)
    && (!mutated ==> f.restoration != Absent)
  }

  predicate PreflightOk(f: Files, at: PreflightStage) {
    at.PreflightNew? || at.PreflightLocked? || HandoffLost(f.status.phase)
  }

  predicate InstallerOk(f: Files, at: InstallerStage) {
    && (at.InstallerReserve? || at.InstallerMark? || at.InstallerPublish? ==> !Finished(f.status.phase) && f.backup)
    && (at.InstallerMark? || at.InstallerPublish? ==> f.reserved)
    && (at.InstallerPublish? ==> f.pending)
  }

  predicate RuntimeOk(f: Files, at: RuntimeStage) {
    match at
    case RuntimeNew => true
    case RuntimeAdmitted => f.restarts
    case RuntimeEntering(copy) => Underway(f) && Sound(f, copy.mutated) && RuntimePhase(copy.phase) && Plausible(f, copy)
    case RuntimeRestart(m) => RuntimePhase(f.status.phase) && Sound(f, m) && f.pending && f.reserved
    case RuntimeActivate(m) =>
      (f.status.phase == Restarting || f.status.phase == RestartFailed) && Sound(f, m) && f.pending && f.reserved
    case RuntimeAuthorize(m) => RuntimePhase(f.status.phase) && Sound(f, m) && f.pending && f.reserved
    case RuntimeFinalize(m) => RuntimePhase(f.status.phase) && Sound(f, m) && f.pending && f.reserved && f.activation
    case RuntimeUnreserve(m) => RuntimePhase(f.status.phase) && Sound(f, m) && f.activation
    case RuntimeUnmark(m) => RuntimePhase(f.status.phase) && Sound(f, m) && !f.reserved && f.activation
    case RuntimeFinish(m) => RuntimePhase(f.status.phase) && Sound(f, m) && !f.reserved && f.activation
    case RuntimeCleanUnmark => Underway(f) && Sound(f, true) && !f.reserved && f.activation
    case RuntimeCleanFinish => Underway(f) && Sound(f, true) && !f.reserved && f.activation
    case RuntimeDone => true
  }

  predicate ChildOk(f: Files, c: Child) {
    match c
    case Preflight(at) => PreflightOk(f, at)
    case Installer(at) => InstallerOk(f, at)
    case Runtime(at) => RuntimeOk(f, at)
    case Gone(_) => true
  }

  /** What the leases keep apart. */
  predicate StageFits(stage: Stage, c: Child) {
    && (OwnerExclusive(stage) ==> IsIdle(c))
    && (stage.Reviewing? ==> !IsExclusive(c))
    && (OwnerHoldsHandoff(stage) ==> !HoldsHandoff(c))
  }

  predicate Fits(owner: Option<Owner>, c: Child) {
    owner.Some? ==> StageFits(owner.value.stage, c)
  }

  predicate Compatible(c: Child, d: Child) {
    && (IsExclusive(c) ==> IsIdle(d)) && (IsExclusive(d) ==> IsIdle(c))
    && !(HoldsHandoff(c) && HoldsHandoff(d))
    && !(Maintains(c) && (Maintains(d) || Cleans(d))) && !(Maintains(d) && Cleans(c))
  }

  predicate SoundChildren(s: State) {
    forall i :: 0 <= i < |s.children| ==> ChildOk(s.files, s.children[i]) && Fits(s.owner, s.children[i])
  }

  predicate Apart(children: seq<Child>) {
    forall i, j :: 0 <= i < |children| && 0 <= j < |children| && i != j ==> Compatible(children[i], children[j])
  }

  predicate Inv(s: State) {
    && Plausible(s.files, s.files.status)
    && (s.owner.Some? ==> OwnerOk(s.files, s.owner.value.stage))
    && SoundChildren(s)
    && Apart(s.children)
  }

  // ---- an owner's step ----

  /** The status on disk after a stage's step. */
  function Saved(f: Files, stage: Stage): Status {
    match stage
    case Handing(at) => if at.ToCheck? then Status(Checking, false) else f.status
    case Preserving(at) => if at.ToBackUp? && f.approval then Status(BackingUp, at.copy.mutated) else f.status
    case Replacing(at) =>
      if at.ToVerify? then Status(Verifying, true)
      else if at.ToHandOver? then Status(if f.restarts then Restarting else Installed, true)
      else f.status
    case Failing(at) =>
      if at.ToFail? then Status(FailurePhase(at.copy.phase), at.copy.mutated)
      else if at.ToBusyFail? then Status(HandoffFailed, false)
      else f.status
    case Examining(at) => if at.ToRefuse? then Status(HandoffFailed, false) else f.status
    case Returning(at) => if at.ToRestart? then Status(Restarting, at.copy.mutated) else f.status
    case Cancelling(at) => if at.CancelPublish? then Status(Cancelled, false) else f.status
    case Reviewing(at) =>
      if at.HandoffPublish? then Status(Checking, false) else if at.ToSettle? then Status(Cancelled, false) else f.status
    case ToWithdraw(_) => Status(HandoffFailed, false)
    case _ => f.status
  }

  lemma SavedPlausible(f: Files, stage: Stage)
    requires OwnerOk(f, stage) && Plausible(f, f.status)
    ensures Plausible(f, Saved(f, stage))
  {
  }

  predicate Untouched(f: Files, f': Files) {
    && f'.pending == f.pending && f'.reserved == f.reserved && f'.backup == f.backup
    && f'.restoration == f.restoration && f'.activation == f.activation
  }

  predicate Grown(f: Files, f': Files) {
    && f'.restarts == f.restarts
    && (f.activation ==> f'.activation)
    && (f.backup ==> f'.backup)
    && (f.restoration != Absent ==> f'.restoration != Absent)
    && (f.restoration == Returned ==> f'.restoration == Returned)
  }

  lemma PlausibleGrows(f: Files, f': Files, st: Status)
    requires Plausible(f, st) && Grown(f, f')
    ensures Plausible(f', st)
  {
  }

  predicate Leased(v: View, stage: Stage, next: Stage) {
    && (OwnerExclusive(next) ==> OwnerExclusive(stage) || v.free.exclusive)
    && (next.Reviewing? ==> stage.Reviewing? || (v.free.shared && v.free.handoff))
    && (OwnerHoldsHandoff(next) ==> stage.Reviewing? || v.free.handoff)
  }

  /**
   What an owner's step may do: save its stage's status and grow the other records, but touch none of
   them without the exclusive leases; enter a stage with more leases only where they were found free;
   and launch a child that holds none yet.
   */
  predicate Regular(f: Files, v: View, stage: Stage, move: Move) {
    && move.files.status == Saved(f, stage)
    && ((stage.Returning? && stage.restore.ToRestore?) || Grown(f, move.files))
    && (OwnerExclusive(stage) || Untouched(f, move.files))
    && (move.stage.Some? ==> Leased(v, stage, move.stage.value))
    && (move.launched.Some? ==> IsIdle(move.launched.value) && ChildOk(move.files, move.launched.value))
  }

  predicate Arrives(move: Move) {
    move.stage.Some? ==> OwnerOk(move.files, move.stage.value)
  }

  lemma DecideIsRegular(f: Files, v: View)
    ensures Regular(f, v, Deciding, Decide(f, v))
  {
  }

  lemma ReadIsRegular(f: Files, v: View)
    ensures Regular(f, v, Reading, Read(f, v))
  {
  }

  lemma AdmitIsRegular(f: Files, v: View, at: AdmitStage)
    ensures Regular(f, v, Admitting(at), AdmitStep(f, v, at))
  {
  }

  lemma HandIsRegular(f: Files, v: View, at: HandStage)
    ensures Regular(f, v, Handing(at), HandStep(f, v, at))
  {
  }

  lemma PreserveIsRegular(f: Files, v: View, at: PreserveStage)
    ensures Regular(f, v, Preserving(at), PreserveStep(f, v, at))
  {
  }

  lemma ReplaceIsRegular(f: Files, v: View, at: ReplaceStage)
    ensures Regular(f, v, Replacing(at), ReplaceStep(f, v, at))
  {
  }

  lemma CompleteIsRegular(f: Files, v: View, at: CompleteStage)
    ensures Regular(f, v, Completing(at), CompleteStep(f, v, at))
  {
  }

  lemma RelaunchIsRegular(f: Files, v: View, at: RelaunchStage)
    ensures Regular(f, v, Relaunching(at), RelaunchStep(f, v, at))
  {
  }

  lemma FailureIsRegular(f: Files, v: View, copy: Status)
    ensures Regular(f, v, Failing(ToFail(copy)), FailStep(f, v, ToFail(copy)))
  {
  }

  lemma FailIsRegular(f: Files, v: View, at: FailStage)
    ensures Regular(f, v, Failing(at), FailStep(f, v, at))
  {
    if at.ToFail? { FailureIsRegular(f, v, at.copy); }
  }

  lemma ClearIsRegular(f: Files, v: View, at: ClearStage)
    ensures Regular(f, v, Clearing(at), ClearStep(f, v, at))
  {
  }

  lemma ExamineIsRegular(f: Files, v: View, at: ExamineStage)
    ensures Regular(f, v, Examining(at), ExamineStep(f, v, at))
  {
  }

  lemma ReturnIsRegular(f: Files, v: View, at: ReturnStage)
    ensures Regular(f, v, Returning(at), ReturnStep(f, v, at))
  {
  }

  lemma CancelIsRegular(f: Files, v: View, at: CancelStage)
    ensures Regular(f, v, Cancelling(at), CancelStep(f, v, at))
  {
  }

  lemma ReviewIsRegular(f: Files, v: View, at: ReviewStage)
    ensures Regular(f, v, Reviewing(at), ReviewStep(f, v, at))
  {
  }

  lemma DecideArrives(f: Files, v: View)
    ensures Arrives(Decide(f, v))
  {
  }

  lemma RunReadArrives(f: Files, v: View)
    requires Plausible(f, f.status) && !v.entry.RestoreService? && !v.entry.StartJob? && !v.entry.WithdrawHandoff?
    ensures Arrives(Read(f, v))
  {
  }

  lemma RestoreReadArrives(f: Files, v: View)
    requires Plausible(f, f.status) && v.entry.RestoreService?
    ensures Arrives(Read(f, v))
  {
  }

  lemma ReadArrives(f: Files, v: View)
    requires Plausible(f, f.status)
    ensures Arrives(Read(f, v))
  {
    match v.entry
    case RestoreService => RestoreReadArrives(f, v);
    case StartJob =>
    case WithdrawHandoff =>
    case _ => RunReadArrives(f, v);
  }

  lemma AdmitArrives(f: Files, v: View, at: AdmitStage)
    requires OwnerOk(f, Admitting(at)) && Plausible(f, f.status)
    ensures Arrives(AdmitStep(f, v, at))
  {
  }

  lemma HandArrives(f: Files, v: View, at: HandStage)
    requires OwnerOk(f, Handing(at))
    ensures Arrives(HandStep(f, v, at))
  {
  }

  lemma PreserveArrives(f: Files, v: View, at: PreserveStage)
    requires OwnerOk(f, Preserving(at))
    ensures Arrives(PreserveStep(f, v, at))
  {
  }

  lemma ReplaceArrives(f: Files, v: View, at: ReplaceStage)
    requires OwnerOk(f, Replacing(at))
    ensures Arrives(ReplaceStep(f, v, at))
  {
  }

  lemma CompleteArrives(f: Files, v: View, at: CompleteStage)
    requires OwnerOk(f, Completing(at))
    ensures Arrives(CompleteStep(f, v, at))
  {
  }

  lemma RelaunchArrives(f: Files, v: View, at: RelaunchStage)
    requires OwnerOk(f, Relaunching(at))
    ensures Arrives(RelaunchStep(f, v, at))
  {
  }

  lemma FailArrives(f: Files, v: View, at: FailStage)
    requires OwnerOk(f, Failing(at)) && Plausible(f, f.status)
    ensures Arrives(FailStep(f, v, at))
  {
  }

  lemma ClearArrives(f: Files, v: View, at: ClearStage)
    requires OwnerOk(f, Clearing(at))
    ensures Arrives(ClearStep(f, v, at))
  {
  }

  lemma ExamineArrives(f: Files, v: View, at: ExamineStage)
    requires OwnerOk(f, Examining(at)) && Plausible(f, f.status)
    ensures Arrives(ExamineStep(f, v, at))
  {
  }

  lemma ReturnArrives(f: Files, v: View, at: ReturnStage)
    requires OwnerOk(f, Returning(at)) && Plausible(f, f.status)
    ensures Arrives(ReturnStep(f, v, at))
  {
  }

  lemma CancelArrives(f: Files, v: View, at: CancelStage)
    requires OwnerOk(f, Cancelling(at))
    ensures Arrives(CancelStep(f, v, at))
  {
  }

  lemma ReviewArrives(f: Files, v: View, at: ReviewStage)
    requires OwnerOk(f, Reviewing(at))
    ensures Arrives(ReviewStep(f, v, at))
  {
  }

  lemma OwnerIsRegular(f: Files, v: View, stage: Stage)
    ensures Regular(f, v, stage, OwnerMove(f, v, stage))
  {
    match stage
    case Deciding => DecideIsRegular(f, v);
    case Reading => ReadIsRegular(f, v);
    case Admitting(at) => AdmitIsRegular(f, v, at);
    case Handing(at) => HandIsRegular(f, v, at);
    case Preserving(at) => PreserveIsRegular(f, v, at);
    case Replacing(at) => ReplaceIsRegular(f, v, at);
    case Completing(at) => CompleteIsRegular(f, v, at);
    case Relaunching(at) => RelaunchIsRegular(f, v, at);
    case Failing(at) => FailIsRegular(f, v, at);
    case Clearing(at) => ClearIsRegular(f, v, at);
    case Examining(at) => ExamineIsRegular(f, v, at);
    case Returning(at) => ReturnIsRegular(f, v, at);
    case Cancelling(at) => CancelIsRegular(f, v, at);
    case SeekAdmission(_) =>
    case Reviewing(at) => ReviewIsRegular(f, v, at);
    case ToWithdraw(_) =>
  }

  lemma OwnerArrives(f: Files, v: View, stage: Stage)
    requires OwnerOk(f, stage) && Plausible(f, f.status)
    ensures Arrives(OwnerMove(f, v, stage))
  {
    match stage
    case Deciding => DecideArrives(f, v);
    case Reading => ReadArrives(f, v);
    case Admitting(at) => AdmitArrives(f, v, at);
    case Handing(at) => HandArrives(f, v, at);
    case Preserving(at) => PreserveArrives(f, v, at);
    case Replacing(at) => ReplaceArrives(f, v, at);
    case Completing(at) => CompleteArrives(f, v, at);
    case Relaunching(at) => RelaunchArrives(f, v, at);
    case Failing(at) => FailArrives(f, v, at);
    case Clearing(at) => ClearArrives(f, v, at);
    case Examining(at) => ExamineArrives(f, v, at);
    case Returning(at) => ReturnArrives(f, v, at);
    case Cancelling(at) => CancelArrives(f, v, at);
    case SeekAdmission(_) =>
    case Reviewing(at) => ReviewArrives(f, v, at);
    case ToWithdraw(_) =>
  }

  lemma OwnerKeepsRecords(f: Files, v: View, stage: Stage)
    requires OwnerOk(f, stage) && Plausible(f, f.status)
    ensures var f' := OwnerMove(f, v, stage).files; Plausible(f', f'.status)
  {
    var f' := OwnerMove(f, v, stage).files;
    OwnerIsRegular(f, v, stage);
    SavedPlausible(f, stage);
    if !stage.Returning? || !stage.restore.ToRestore? { PlausibleGrows(f, f', f'.status); }
  }

  // Without the exclusive leases an owner changes at most the status, and no child minds.

  lemma SparesPreflight(f: Files, stage: Stage, f': Files, c: Child)
    requires OwnerOk(f, stage) && f'.status == Saved(f, stage)
    requires HoldsHandoff(c) && ChildOk(f, c) && StageFits(stage, c)
    ensures ChildOk(f', c)
  {
  }

  lemma SparesInstaller(f: Files, stage: Stage, f': Files, c: Child)
    requires OwnerOk(f, stage) && f'.status == Saved(f, stage) && Untouched(f, f')
    requires IsExclusive(c) && ChildOk(f, c) && StageFits(stage, c)
    ensures ChildOk(f', c)
  {
  }

  lemma SparesMaintainer(f: Files, stage: Stage, f': Files, c: Child)
    requires OwnerOk(f, stage) && f'.status == Saved(f, stage) && Untouched(f, f') && f'.restarts == f.restarts
    requires Maintains(c) && ChildOk(f, c) && StageFits(stage, c)
    ensures ChildOk(f', c)
  {
  }

  lemma SparesUnderway(f: Files, stage: Stage, f': Files)
    requires OwnerOk(f, stage) && f'.status == Saved(f, stage) && Untouched(f, f') && f'.restarts == f.restarts
    requires Underway(f) && !OwnerExclusive(stage) && Plausible(f, f.status)
    ensures Underway(f')
  {
  }

  lemma SparesEntering(f: Files, f': Files, copy: Status)
    requires RuntimeOk(f, RuntimeEntering(copy)) && Underway(f') && Untouched(f, f')
    ensures RuntimeOk(f', RuntimeEntering(copy))
  {
  }

  lemma SparesCoordinator(f: Files, stage: Stage, f': Files, at: RuntimeStage)
    requires OwnerOk(f, stage) && f'.status == Saved(f, stage) && Untouched(f, f') && f'.restarts == f.restarts
    requires RuntimeOk(f, at) && !Maintains(Runtime(at)) && !OwnerExclusive(stage) && Plausible(f, f.status)
    ensures RuntimeOk(f', at)
  {
    if at.RuntimeEntering? || Cleans(Runtime(at)) { SparesUnderway(f, stage, f'); }
    if at.RuntimeEntering? { SparesEntering(f, f', at.copy); }
  }

  lemma OwnerSpares(f: Files, v: View, stage: Stage, c: Child)
    requires OwnerOk(f, stage) && ChildOk(f, c) && StageFits(stage, c) && Plausible(f, f.status)
    ensures ChildOk(OwnerMove(f, v, stage).files, c)
  {
    var f' := OwnerMove(f, v, stage).files;
    OwnerIsRegular(f, v, stage);
    if HoldsHandoff(c) { SparesPreflight(f, stage, f', c); }
    else if IsExclusive(c) { SparesInstaller(f, stage, f', c); }
    else if Maintains(c) { SparesMaintainer(f, stage, f', c); }
    else if Coordinates(c) { SparesCoordinator(f, stage, f', c.runtime); }
  }

  lemma OwnerFits(s: State, o: Owner, c: Child)
    requires s.owner == Some(o) && c in s.children && StageFits(o.stage, c)
    ensures Fits(OwnerStep(s, o).owner, c)
  {
    OwnerIsRegular(s.files, Sees(s, o), o.stage);
  }

  lemma OwnerKeepsChildren(s: State, o: Owner)
    requires Inv(s) && s.owner == Some(o)
    ensures var s' := OwnerStep(s, o); SoundChildren(s'.(children := s.children))
  {
    forall i | 0 <= i < |s.children|
      ensures var s' := OwnerStep(s, o); ChildOk(s'.files, s.children[i]) && Fits(s'.owner, s.children[i])
    {
      OwnerSpares(s.files, Sees(s, o), o.stage, s.children[i]);
      OwnerFits(s, o, s.children[i]);
    }
  }

  lemma Launched(s: State, child: Child)
    requires SoundChildren(s) && Apart(s.children) && IsIdle(child) && ChildOk(s.files, child)
    ensures SoundChildren(s.(children := s.children + [child])) && Apart(s.children + [child])
  {
  }

  lemma OwnerKeeps(s: State, o: Owner)
    requires Inv(s) && s.owner == Some(o)
    ensures Inv(OwnerStep(s, o))
  {
    var v, s' := Sees(s, o), OwnerStep(s, o);
    var move := OwnerMove(s.files, v, o.stage);
    OwnerKeepsRecords(s.files, v, o.stage);
    OwnerArrives(s.files, v, o.stage);
    OwnerKeepsChildren(s, o);
    if move.stage.Some? && move.launched.Some? {
      OwnerIsRegular(s.files, v, o.stage);
      Launched(s'.(children := s.children), move.launched.value);
    }
  }

  // ---- losses ----

  lemma ThrowKeeps(s: State, o: Owner, handler: FailStage)
    requires Inv(s) && s.owner == Some(o) && (InTry(o.stage) || Awaits(o.stage))
    requires handler.Caught? || handler.CaughtBusy?
    ensures Inv(Thrown(s, o, handler))
  {
  }

  lemma EndKeeps(s: State, i: nat)
    requires Inv(s) && i < |s.children|
    ensures Inv(Ended(s, i))
  {
  }

  // ---- a child's step ----

  /** What a child's step may do to the records. */
  predicate Turns(f: Files, c: Child, f': Files) {
    match c
    case Preflight(at) =>
      && Untouched(f, f') && f'.restarts == f.restarts
      && (f'.status == f.status
          || (HoldsHandoff(c) && !at.PreflightLocked? && HandoffLost(f'.status.phase) && !f'.status.mutated))
    case Installer(at) =>
      && f'.restarts == f.restarts && f'.backup == f.backup && f'.restoration == f.restoration && f'.activation == f.activation
      && f'.status == (if at.InstallerPublish? then Status(Installing, true) else f.status)
      && f'.reserved == (f.reserved || at.InstallerReserve?) && f'.pending == (f.pending || at.InstallerMark?)
    case Runtime(at) =>
      && f'.restarts == f.restarts && f'.backup == f.backup && f'.restoration == f.restoration
      && f'.activation == (f.activation || at.RuntimeAuthorize?)
      && f'.status == Coordinated(f, at)
      && (f'.reserved == f.reserved
          || ((at.RuntimeUnreserve? || (at.RuntimeEntering? && at.copy.phase == Finalizing)) && !f'.reserved))
      && (f'.pending == f.pending || ((at.RuntimeUnmark? || at.RuntimeCleanUnmark?) && !f'.pending))
    case Gone(_) => f' == f
  }

  function Coordinated(f: Files, at: RuntimeStage): Status {
    match at
    case RuntimeRestart(_) => Status(Restarting, true)
    case RuntimeActivate(_) => Status(Activating, true)
    case RuntimeFinalize(_) => Status(Finalizing, true)
    case RuntimeFinish(m) => Status(FinalPhase(f.restoration), m)
    case RuntimeCleanFinish => Status(FinalPhase(f.restoration), true)
    case _ => f.status
  }

  /** The leases a child found free for its next stage. */
  predicate Grants(f: Files, free: Leases, c: Child, turn: Turn) {
    && (IsExclusive(turn.child) ==> IsExclusive(c) || free.exclusive)
    && (HoldsHandoff(turn.child) ==> HoldsHandoff(c) || (free.handoff && free.shared))
    && (Coordinates(turn.child) ==> Coordinates(c) || free.shared)
    && (Maintains(turn.child) ==> Maintains(c) || (free.maintenance && Coordinates(c) && !Cleans(c) && turn.files.reserved))
    && (Cleans(turn.child) ==> Cleans(c) || (free.maintenance && Coordinates(c)))
    && (Coordinates(c) && !Maintains(c) && turn.files.reserved != f.reserved ==> free.maintenance)
  }

  lemma RuntimeTurns(f: Files, free: Leases, at: RuntimeStage)
    ensures Turns(f, Runtime(at), RuntimeStep(f, free, at).files)
  {
  }

  lemma RuntimeGrants(f: Files, free: Leases, at: RuntimeStage)
    ensures Grants(f, free, Runtime(at), RuntimeStep(f, free, at))
  {
  }

  lemma PreflightTurns(f: Files, free: Leases, at: PreflightStage, fails: bool)
    ensures var turn := PreflightStep(f, free, at, fails);
            Turns(f, Preflight(at), turn.files) && Grants(f, free, Preflight(at), turn)
  {
  }

  lemma InstallerTurns(f: Files, free: Leases, at: InstallerStage)
    ensures var turn := InstallerStep(f, free, at);
            Turns(f, Installer(at), turn.files) && Grants(f, free, Installer(at), turn)
  {
  }

  lemma ChildTurns(f: Files, free: Leases, c: Child, fails: bool)
    ensures var turn := ChildTurn(f, free, c, fails); Turns(f, c, turn.files) && Grants(f, free, c, turn)
  {
    match c
    case Preflight(at) => PreflightTurns(f, free, at, fails);
    case Installer(at) => InstallerTurns(f, free, at);
    case Runtime(at) => RuntimeTurns(f, free, at); RuntimeGrants(f, free, at);
    case Gone(_) =>
  }

  lemma MaintainerProceeds(f: Files, free: Leases, at: RuntimeStage)
    requires RuntimeOk(f, at) && Plausible(f, f.status) && Maintains(Runtime(at))
    ensures var turn := RuntimeStep(f, free, at); ChildOk(turn.files, turn.child)
  {
  }

  lemma EntrantProceeds(f: Files, free: Leases, copy: Status)
    requires RuntimeOk(f, RuntimeEntering(copy))
    ensures var turn := RuntimeEnter(f, free, copy); ChildOk(turn.files, turn.child)
  {
  }

  lemma AdmittedProceeds(f: Files, free: Leases)
    requires f.restarts && Plausible(f, f.status)
    ensures var turn := RuntimeRead(f); ChildOk(turn.files, turn.child)
  {
  }

  lemma OtherProceeds(f: Files, free: Leases, at: RuntimeStage)
    requires RuntimeOk(f, at) && Plausible(f, f.status)
    requires !Maintains(Runtime(at)) && !at.RuntimeEntering? && !at.RuntimeAdmitted?
    ensures var turn := RuntimeStep(f, free, at); ChildOk(turn.files, turn.child)
  {
  }

  lemma PreflightProceeds(f: Files, free: Leases, at: PreflightStage, fails: bool)
    requires PreflightOk(f, at)
    ensures var turn := PreflightStep(f, free, at, fails); ChildOk(turn.files, turn.child)
  {
  }

  lemma InstallerProceeds(f: Files, free: Leases, at: InstallerStage)
    requires InstallerOk(f, at)
    ensures var turn := InstallerStep(f, free, at); ChildOk(turn.files, turn.child)
  {
  }

  lemma ChildProceeds(f: Files, free: Leases, c: Child, fails: bool)
    requires ChildOk(f, c) && Plausible(f, f.status)
    ensures var turn := ChildTurn(f, free, c, fails); ChildOk(turn.files, turn.child)
  {
    match c
    case Preflight(at) => PreflightProceeds(f, free, at, fails);
    case Installer(at) => InstallerProceeds(f, free, at);
    case Runtime(at) =>
      if Maintains(c) { MaintainerProceeds(f, free, at); }
      else if at.RuntimeEntering? { EntrantProceeds(f, free, at.copy); }
      else if at.RuntimeAdmitted? { AdmittedProceeds(f, free); }
      else { OtherProceeds(f, free, at); }
    case Gone(_) =>
  }

  lemma TurnPlausible(f: Files, c: Child, f': Files)
    requires Plausible(f, f.status) && ChildOk(f, c) && Turns(f, c, f')
    ensures Plausible(f', f'.status)
  {
  }

  lemma CopyOutrun(f: Files, c: Child, f': Files, copy: Status)
    requires ChildOk(f, c) && Turns(f, c, f') && Copied(f, copy)
    ensures Copied(f', copy)
  {
  }

  /** The stages whose copy has to keep up with the file. */
  predicate Follows(stage: Stage) {
    match stage
    case Admitting(_) => true
    case Handing(at) => at.ToCheck?
    case Failing(at) => at.ToFail? || at.ToBusyFail?
    case Examining(_) => true
    case Returning(_) => true
    case ToWithdraw(_) => true
    case _ => false
  }

  function CopyOf(stage: Stage): Status
    requires Follows(stage)
  {
    match stage
    case Admitting(at) => at.copy
    case Handing(at) => at.copy
    case Failing(at) => at.copy
    case Examining(at) => at.copy
    case Returning(at) => at.copy
    case ToWithdraw(copy) => copy
  }

  lemma FollowerSpared(f: Files, c: Child, f': Files, stage: Stage)
    requires OwnerOk(f, stage) && ChildOk(f, c) && StageFits(stage, c) && Turns(f, c, f')
    requires Follows(stage) && Copied(f', CopyOf(stage))
    ensures OwnerOk(f', stage)
  {
  }

  lemma StageSparedByCoordinator(f: Files, at: RuntimeStage, f': Files, stage: Stage)
    requires OwnerOk(f, stage) && RuntimeOk(f, at) && StageFits(stage, Runtime(at)) && Turns(f, Runtime(at), f')
    requires !Follows(stage)
    ensures OwnerOk(f', stage)
  {
  }

  lemma StageSpared(f: Files, c: Child, f': Files, stage: Stage)
    requires OwnerOk(f, stage) && ChildOk(f, c) && StageFits(stage, c) && Turns(f, c, f')
    requires !Follows(stage)
    ensures OwnerOk(f', stage)
  {
    if c.Runtime? { StageSparedByCoordinator(f, c.runtime, f', stage); }
  }

  lemma ChildSparesOwner(f: Files, c: Child, f': Files, stage: Stage)
    requires OwnerOk(f, stage) && ChildOk(f, c) && StageFits(stage, c) && Turns(f, c, f')
    ensures OwnerOk(f', stage)
  {
    if Follows(stage) {
      CopyOutrun(f, c, f', CopyOf(stage));
      FollowerSpared(f, c, f', stage);
    } else {
      StageSpared(f, c, f', stage);
    }
  }

  lemma PreflightSparesCoordinator(f: Files, at: PreflightStage, f': Files, d: RuntimeStage)
    requires PreflightOk(f, at) && RuntimeOk(f, d) && Turns(f, Preflight(at), f')
    ensures RuntimeOk(f', d)
  {
  }

  lemma PreflightSparesChild(f: Files, at: PreflightStage, f': Files, d: Child)
    requires PreflightOk(f, at) && ChildOk(f, d) && Compatible(Preflight(at), d) && Turns(f, Preflight(at), f')
    ensures ChildOk(f', d)
  {
    if d.Runtime? { PreflightSparesCoordinator(f, at, f', d.runtime); }
  }

  lemma InstallerSparesChild(f: Files, at: InstallerStage, f': Files, d: Child)
    requires InstallerOk(f, at) && ChildOk(f, d) && Compatible(Installer(at), d) && Turns(f, Installer(at), f')
    ensures ChildOk(f', d)
  {
  }

  lemma RuntimeSparesChild(f: Files, at: RuntimeStage, f': Files, d: Child)
    requires RuntimeOk(f, at) && ChildOk(f, d) && Compatible(Runtime(at), d) && Turns(f, Runtime(at), f')
    requires at.RuntimeEntering? && Maintains(d) ==> f'.reserved == f.reserved
    ensures ChildOk(f', d)
  {
  }

  lemma ChildSparesChild(f: Files, c: Child, f': Files, d: Child)
    requires ChildOk(f, c) && ChildOk(f, d) && Compatible(c, d) && Turns(f, c, f')
    requires Coordinates(c) && !Maintains(c) && Maintains(d) ==> f'.reserved == f.reserved
    ensures ChildOk(f', d)
  {
    match c
    case Preflight(at) => PreflightSparesChild(f, at, f', d);
    case Installer(at) => InstallerSparesChild(f, at, f', d);
    case Runtime(at) => RuntimeSparesChild(f, at, f', d);
    case Gone(_) =>
  }

  /** What the leases keep apart in a whole state. */
  predicate LeasesOk(s: State) {
    (forall i :: 0 <= i < |s.children| ==> Fits(s.owner, s.children[i])) && Apart(s.children)
  }

  lemma TurnFits(s: State, i: nat, turn: Turn)
    requires LeasesOk(s) && i < |s.children| && Grants(s.files, ChildFinds(s.owner, s.children), s.children[i], turn)
    ensures Fits(s.owner, turn.child)
  {
  }

  lemma TurnCompatible(s: State, i: nat, turn: Turn, j: nat)
    requires LeasesOk(s) && i < |s.children| && j < |s.children| && i != j
    requires Grants(s.files, ChildFinds(s.owner, s.children), s.children[i], turn)
    requires Cleans(s.children[j]) ==> !turn.files.reserved
    ensures Compatible(turn.child, s.children[j]) && Compatible(s.children[j], turn.child)
  {
    assert Compatible(s.children[i], s.children[j]);
  }

  lemma ChildKeepsChildren(s: State, i: nat, fails: bool)
    requires Inv(s) && i < |s.children|
    ensures SoundChildren(ChildStepped(s, i, fails)) && Apart(ChildStepped(s, i, fails).children)
  {
    var free := ChildFinds(s.owner, s.children);
    var turn := ChildTurn(s.files, free, s.children[i], fails);
    var s' := ChildStepped(s, i, fails);
    ChildTurns(s.files, free, s.children[i], fails);
    ChildProceeds(s.files, free, s.children[i], fails);
    TurnFits(s, i, turn);
    forall j | 0 <= j < |s.children| && j != i
      ensures ChildOk(turn.files, s.children[j])
      ensures Compatible(turn.child, s.children[j]) && Compatible(s.children[j], turn.child)
    {
      assert Compatible(s.children[i], s.children[j]);
      ChildSparesChild(s.files, s.children[i], turn.files, s.children[j]);
      TurnCompatible(s, i, turn, j);
    }
  }

  lemma ChildKeeps(s: State, i: nat, fails: bool)
    requires Inv(s) && i < |s.children|
    ensures Inv(ChildStepped(s, i, fails))
  {
    var c, f' := s.children[i], ChildStepped(s, i, fails).files;
    ChildTurns(s.files, ChildFinds(s.owner, s.children), c, fails);
    TurnPlausible(s.files, c, f');
    if s.owner.Some? { ChildSparesOwner(s.files, c, f', s.owner.value.stage); }
    ChildKeepsChildren(s, i, fails);
  }

  lemma StepKeeps(s: State, a: Action)
    requires Inv(s) && !Late(s, a)
    ensures Inv(Step(s, a))
  {
    match a
    case Start(_) =>
    case Advance => if s.owner.Some? { OwnerKeeps(s, s.owner.value); }
    case Throw(busy) =>
      if s.owner.Some? && InTry(s.owner.value.stage) { ThrowKeeps(s, s.owner.value, if busy then CaughtBusy else Caught); }
    case TimeOut =>
      if s.owner.Some? && Awaits(s.owner.value.stage) && s.owner.value.awaited < |s.children| {
        EndKeeps(s, s.owner.value.awaited);
        ThrowKeeps(Ended(s, s.owner.value.awaited), s.owner.value, Caught);
      }
    case OwnerDies =>
    case ChildStep(i, fails) => if i < |s.children| { ChildKeeps(s, i, fails); }
    case ChildDies(i) => if i < |s.children| { EndKeeps(s, i); }
    case _ =>
  }

  lemma {:induction false} PunctualRunsKeep(restarts: bool, actions: seq<Action>)
    requires Punctual(restarts, actions)
    ensures Inv(Run(restarts, actions))
  {
    if actions != [] {
      PunctualRunsKeep(restarts, actions[..|actions| - 1]);
      StepKeeps(Run(restarts, actions[..|actions| - 1]), actions[|actions| - 1]);
    }
  }
}
