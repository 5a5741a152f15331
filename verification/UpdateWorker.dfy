/**
 One update job as a crash-recoverable journal. Every action is one durable record write, one
 decision on records just read, one attempt at a lease, the launch or end of a child process, or a
 process death.

 At most one process owns worker.lock; it runs one of the entrypoints below. Children outlive their
 owner, so a new owner may work beside any number of orphans of earlier ones. Record writes succeed;
 checks of files, wheels and environments either pass or throw.
 */
module UpdateWorker {
  import opened Wrappers

  datatype Phase =
    | PreparationRequested | Preparing | PreparationFailed | Ready | Checking | Stopping | HandoffFailed
    | BackingUp | Installing | Verifying | Installed | Restarting | Activating | Finalizing | RestartFailed
    | Succeeded | Failed | Cancelled | Restored

  datatype Status = Status(phase: Phase, mutated: bool)

  /** restoration.json: absent, or how far the original program's return has got. */
  datatype Journal = Absent | Restoring | Returned

  /**
   The job's durable records: whether its request names gateways to restart, its status, the pending
   marker and data reservation naming it, backup, approval, restoration, activation, shutdown record.
   */
  datatype Files = Files(
    restarts: bool, status: Status, pending: bool, reserved: bool, backup: bool, approval: bool,
    restoration: Journal, activation: bool, shutdownCommitted: bool)

  datatype Entry = RunPlain | RunRecover | RunHandoff | RestoreService | CancelJob | StartJob | StartHandoff | SettleHandoff
                 | WithdrawHandoff

  // Where the worker.lock owner stands, one datatype per stretch of code. `copy` is the status record
  // it read and still works from. A `Seek` stage is about to try for the exclusive leases.

  datatype AdmitStage = Approving(copy: Status) | Dispatching(copy: Status)

  datatype HandStage =
    ToCheck(copy: Status) | AwaitPreflight(copy: Status) | SeekApproval(copy: Status) | ToApprove(copy: Status)

  datatype PreserveStage =
    SeekBackup(copy: Status) | ToBackUp(copy: Status) | ToCommitBackup(copy: Status) | ToReserve | ToMark

  datatype ReplaceStage = ToInstall | AwaitInstaller | SeekVerify | ToVerify | AwaitVerification | SeekHandOver | ToHandOver

  datatype CompleteStage =
    SeekInstalled | ReadMarker | AwaitInstalledCheck | SeekUnmark | ToUnmark(strict: bool) | ToUnreserve

  datatype RelaunchStage = ToRelaunch | AwaitRuntime

  datatype FailStage = Caught | ToFail(copy: Status) | CaughtBusy | ToBusyFail(copy: Status)

  datatype ClearStage = SeekClear | ClearUnmark | ClearUnreserve

  datatype ExamineStage = CheckActivation(copy: Status) | CheckShutdown(copy: Status) | ToRefuse(copy: Status)

  datatype ReturnStage =
    | ToRestore(copy: Status)
    | ToReturn(copy: Status)
    | ToReserveAgain(copy: Status)
    | ToMarkAgain(copy: Status)
    | ToRestart(copy: Status)

  datatype CancelStage = CancelRead | CancelUnmark | CancelUnreserve | CancelPublish | CancelRevoke

  datatype ReviewStage = HandoffRead | HandoffRevoke | HandoffPublish | SettleRead | ToSettle

  datatype Stage =
    | Deciding
    | Reading
    // run_job
    | Admitting(admit: AdmitStage)
    | Handing(hand: HandStage)
    | Preserving(preserve: PreserveStage)
    | Replacing(replace: ReplaceStage)
    | Completing(complete: CompleteStage)
    | Relaunching(relaunch: RelaunchStage)
    // its two exception handlers
    | Failing(fail: FailStage)
    | Clearing(clear: ClearStage)
    // restore_service
    | Examining(examine: ExamineStage)
    | Returning(restore: ReturnStage)
    // cancel_job, start_job, start_handoff and settle_uncommitted_handoff
    | Cancelling(cancel: CancelStage)
    | SeekAdmission(copy: Status)
    | Reviewing(review: ReviewStage)
    // start_handoff once its worker could not be started
    | ToWithdraw(copy: Status)

  /** `awaited` names the child it launched last. */
  datatype Owner = Owner(entry: Entry, stage: Stage, awaited: nat)

  datatype PreflightStage = PreflightNew | PreflightLocked | PreflightChecked | PreflightStopping | PreflightCommitted

  datatype InstallerStage =
    InstallerNew | InstallerHolding | InstallerReserve | InstallerMark | InstallerPublish | InstallerWorking

  /** The coordinator keeps the status it read; after its first save only the mutation flag of it matters. */
  datatype RuntimeStage =
    | RuntimeNew
    | RuntimeAdmitted
    | RuntimeEntering(copy: Status)
    | RuntimeRestart(mutated: bool)
    | RuntimeActivate(mutated: bool)
    | RuntimeAuthorize(mutated: bool)
    | RuntimeFinalize(mutated: bool)
    | RuntimeUnreserve(mutated: bool)
    | RuntimeUnmark(mutated: bool)
    | RuntimeFinish(mutated: bool)
    | RuntimeCleanUnmark
    | RuntimeCleanFinish
    | RuntimeDone

  /** A shutdown preflight, an installer or a restart coordinator, or what is left of one. */
  datatype Child =
    | Preflight(preflight: PreflightStage)
    | Installer(installer: InstallerStage)
    | Runtime(runtime: RuntimeStage)
    | Gone(ok: bool)

  /**
   Children are never removed, so an index names one process for good. `note` is the status that
   supervise, which holds supervisor.lock alone, has read after a failed recovery and will save again.
   */
  datatype State = State(files: Files, owner: Option<Owner>, children: seq<Child>, note: Option<Status> := None)

  datatype Action =
    | Start(entry: Entry)
    | Advance
    | Throw(busy: bool)
    | TimeOut
    | OwnerDies
    | ChildStep(child: nat, fails: bool)
    | ChildDies(child: nat)
    | NoteRead
    | NoteSave
    | SupervisorDies

  function Initial(restarts: bool): State {
    State(Files(restarts, Status(Ready, false), false, false, false, false, Absent, false, false), None, [])
  }

  // ---- phases ----

  predicate RuntimePhase(p: Phase) {
    p == Restarting || p == Activating || p == Finalizing || p == RestartFailed
  }

  /** The phases a reviewed shutdown may start or restart from. */
  predicate HandoffPhase(p: Phase) {
    p == Ready || HandoffLost(p)
  }

  predicate HandoffLost(p: Phase) {
    p == Checking || p == Stopping || p == HandoffFailed
  }

  predicate Finished(p: Phase) {
    p == Installed || p == Cancelled || RuntimePhase(p) || p == Succeeded || p == Restored
  }

  predicate Preparation(p: Phase) {
    p == PreparationRequested || p == Preparing || p == PreparationFailed
  }

  /** The phases with no fence left to hold, and those whose fences are being released. */
  predicate Unfenced(p: Phase) {
    p == Installed || p == Finalizing || p == Succeeded || p == Restored
  }

  /** The phase the failure handler records for the phase it read. */
  function FailurePhase(p: Phase): Phase {
    if HandoffLost(p) then HandoffFailed
    else if p == Restarting || p == Activating || p == RestartFailed then RestartFailed
    else Failed
  }

  function FinalPhase(journal: Journal): Phase {
    if journal != Absent then Restored else Succeeded
  }

  // ---- leases ----

  /** The stages inside mutation_access: exclusive installation and data leases. */
  predicate OwnerExclusive(stage: Stage) {
    match stage
    case Handing(at) => at.ToApprove?
    case Preserving(at) => !at.SeekBackup?
    case Replacing(at) => at.ToVerify? || at.ToHandOver?
    case Completing(at) => at.ReadMarker? || at.ToUnmark? || at.ToUnreserve?
    case Clearing(at) => !at.SeekClear?
    case Returning(_) => true
    case Cancelling(_) => true
    case _ => false
  }

  predicate OwnerHoldsHandoff(stage: Stage) {
    stage.Reviewing? || (stage.Admitting? && stage.admit.Approving?)
  }

  predicate IsExclusive(c: Child) {
    c.Installer? && !c.installer.InstallerNew?
  }

  /** The reviewed shutdown past its admission: it holds handoff-child.lock and a shared lease. */
  predicate HoldsHandoff(c: Child) {
    c.Preflight? && !c.preflight.PreflightNew?
  }

  /** The restart coordinator past its admission: it holds a shared lease. */
  predicate Coordinates(c: Child) {
    c.Runtime? && !c.runtime.RuntimeNew?
  }

  /** The restart coordinator completing only the cleanup of a finalizing job. */
  predicate Cleans(c: Child) {
    c.Runtime? && (c.runtime.RuntimeCleanUnmark? || c.runtime.RuntimeCleanFinish?)
  }

  /** The restart coordinator inside data_access for this job: nobody else maintains the data. */
  predicate Maintains(c: Child) {
    Coordinates(c) && !Cleans(c) && !c.runtime.RuntimeAdmitted? && !c.runtime.RuntimeEntering? && !c.runtime.RuntimeDone?
  }

  predicate IsIdle(c: Child) {
    !IsExclusive(c) && !HoldsHandoff(c) && !Coordinates(c)
  }

  // ---- what a process sees and does ----

  /** Which leases the acting process would find free. */
  datatype Leases = Leases(exclusive: bool, shared: bool, handoff: bool, maintenance: bool)

  /** What an owner's step depends on beside the records: how the child it waits for ended, if it has. */
  datatype View = View(entry: Entry, free: Leases, ended: Option<bool>)

  /** An owner's step: the records it leaves, its next stage unless it ends, the child it launched. */
  datatype Move = Move(files: Files, stage: Option<Stage>, launched: Option<Child>)

  /** A child's step. */
  datatype Turn = Turn(files: Files, child: Child)

  function Publish(f: Files, phase: Phase, mutated: bool): Files {
    f.(status := Status(phase, mutated))
  }

  function Go(f: Files, stage: Stage): Move {
    Move(f, Some(stage), None)
  }

  function Leave(f: Files): Move {
    Move(f, None, None)
  }

  function Launch(f: Files, stage: Stage, child: Child): Move {
    Move(f, Some(stage), Some(child))
  }

  /** mutation_access inside run_job's try block: a busy lease goes to the busy handler. */
  function Seek(f: Files, v: View, stage: Stage): Move {
    Go(f, if v.free.exclusive then stage else Failing(CaughtBusy))
  }

  // ---- entering an entrypoint ----

  /** The locks taken before the status is read. */
  function Decide(f: Files, v: View): Move {
    match v.entry
    case RunHandoff => if v.free.handoff then Go(f, Reading) else Leave(f)
    case CancelJob => if v.free.exclusive then Go(f, Cancelling(CancelRead)) else Leave(f)
    case StartHandoff =>
      if v.free.handoff && v.free.shared && !f.pending then Go(f, Reviewing(HandoffRead)) else Leave(f)
    case SettleHandoff =>
      if v.free.handoff && v.free.shared && !f.pending then Go(f, Reviewing(SettleRead)) else Leave(f)
    case _ => Go(f, Reading)
  }

  function Read(f: Files, v: View): Move {
    var copy := f.status;
    match v.entry
    case RestoreService =>
      if !f.restarts || copy.phase == Succeeded || copy.phase == Restored || copy.phase == Cancelled then Leave(f)
      else Go(f, Examining(CheckActivation(copy)))
    case StartJob =>
      if copy.phase == Installed || copy.phase == Cancelled || copy.phase == Succeeded || copy.phase == Restored
      then Leave(f) else Go(f, SeekAdmission(copy))
    case WithdrawHandoff => if copy.phase == Checking then Go(f, ToWithdraw(copy)) else Leave(f)
    case _ =>
      if copy.phase == Restored || copy.phase == Cancelled then Leave(f)
      else if v.entry.RunRecover? then
        if v.free.handoff then Go(f, Admitting(Approving(copy))) else Leave(f)
      else if v.entry.RunHandoff? then
        if copy.mutated || !HandoffPhase(copy.phase) then Leave(f) else Go(f, Handing(ToCheck(copy)))
      else Go(f, Admitting(Dispatching(copy)))
  }

  // ---- run_job ----

  /** The branch on the phase inside run_job's try block. */
  function Dispatch(f: Files, copy: Status): Move {
    if RuntimePhase(copy.phase) || copy.phase == Succeeded then Go(f, Relaunching(ToRelaunch))
    else if copy.phase == Installed then Go(f, Completing(SeekInstalled))
    else if !f.approval then Go(f, Failing(Caught))
    else Go(f, Preserving(SeekBackup(copy)))
  }

  /** Recovery consent under handoff-child.lock, and the branch on the phase. */
  function AdmitStep(f: Files, v: View, at: AdmitStage): Move {
    match at
    case Approving(copy) =>
      if copy.phase == Succeeded || Preparation(copy.phase) || !f.approval || (copy.mutated && !f.backup)
      then Leave(f) else Go(f, Admitting(Dispatching(copy)))
    case Dispatching(copy) => Dispatch(f, copy)
  }

  /** _handoff: the reviewed shutdown. */
  function HandStep(f: Files, v: View, at: HandStage): Move {
    match at
    case ToCheck(copy) => Launch(Publish(f, Checking, false), Handing(AwaitPreflight(copy)), Preflight(PreflightNew))
    case AwaitPreflight(copy) =>
      if v.ended.None? then Go(f, Handing(at)) else Go(f, if v.ended.value then Handing(SeekApproval(copy)) else Failing(Caught))
    case SeekApproval(copy) => Seek(f, v, Handing(ToApprove(copy)))
    case ToApprove(copy) => Go(f.(approval := true), Preserving(SeekBackup(copy)))
  }

  /** The backup and both fences. */
  function PreserveStep(f: Files, v: View, at: PreserveStage): Move {
    match at
    case SeekBackup(copy) => Seek(f, v, Preserving(ToBackUp(copy)))
    case ToBackUp(copy) =>
      if !f.approval then Go(f, Failing(Caught)) else Go(Publish(f, BackingUp, copy.mutated), Preserving(ToCommitBackup(copy)))
    case ToCommitBackup(copy) =>
      if copy.mutated && !f.backup then Go(f, Failing(Caught)) else Go(f.(backup := true), Preserving(ToReserve))
    case ToReserve => Go(f.(reserved := true), Preserving(ToMark))
    case ToMark => Go(f.(pending := true), Replacing(ToInstall))
  }

  function ReplaceStep(f: Files, v: View, at: ReplaceStage): Move {
    match at
    case ToInstall => Launch(f, Replacing(AwaitInstaller), Installer(InstallerNew))
    case AwaitInstaller =>
      if v.ended.None? then Go(f, Replacing(at)) else Go(f, if v.ended.value then Replacing(SeekVerify) else Failing(Caught))
    case SeekVerify => Seek(f, v, Replacing(ToVerify))
    case ToVerify => Go(Publish(f, Verifying, true), Replacing(AwaitVerification))
    case AwaitVerification => Go(f, Replacing(SeekHandOver))
    case SeekHandOver => Seek(f, v, Replacing(ToHandOver))
    case ToHandOver =>
      if f.restarts then Go(Publish(f, Restarting, true), Relaunching(ToRelaunch))
      else Go(Publish(f, Installed, true), Completing(ToUnmark(true)))
  }

  /** Removing the fences of an installed job; after a crash it is verified again while the marker is there. */
  function CompleteStep(f: Files, v: View, at: CompleteStage): Move {
    match at
    case SeekInstalled => Seek(f, v, Completing(ReadMarker))
    case ReadMarker => Go(f, if f.pending then Completing(AwaitInstalledCheck) else Completing(SeekUnmark))
    case AwaitInstalledCheck => Go(f, Completing(SeekUnmark))
    case SeekUnmark => Seek(f, v, Completing(ToUnmark(false)))
    case ToUnmark(strict) =>
      if strict && !f.pending then Go(f, Failing(Caught)) else Go(f.(pending := false), Completing(ToUnreserve))
    case ToUnreserve => Leave(f.(reserved := false))
  }

  function RelaunchStep(f: Files, v: View, at: RelaunchStage): Move {
    match at
    case ToRelaunch => Launch(f, Relaunching(AwaitRuntime), Runtime(RuntimeNew))
    case AwaitRuntime =>
      if v.ended.None? then Go(f, Relaunching(at))
      else if v.entry.RestoreService? || (v.ended.value && (f.status.phase == Succeeded || f.status.phase == Restored))
      then Leave(f)
      else Go(f, Failing(Caught))
  }

  /** The two handlers read, decide and save without a lease. */
  function FailStep(f: Files, v: View, at: FailStage): Move {
    match at
    case Caught =>
      if f.status.phase == Finalizing || f.status.phase == Succeeded then Leave(f) else Go(f, Failing(ToFail(f.status)))
    case ToFail(copy) =>
      var f' := Publish(f, FailurePhase(copy.phase), copy.mutated);
      if !copy.mutated && !HandoffLost(copy.phase) then Go(f', Clearing(SeekClear)) else Leave(f')
    case CaughtBusy =>
      if v.entry.RunHandoff? && (f.status.phase == Checking || f.status.phase == Stopping) && !f.status.mutated
      then Go(f, Failing(ToBusyFail(f.status)))
      else Leave(f)
    case ToBusyFail(_) => Leave(Publish(f, HandoffFailed, false))
  }

  /** The general handler's cleanup after a failure it read as unmutated. */
  function ClearStep(f: Files, v: View, at: ClearStage): Move {
    match at
    case SeekClear => if v.free.exclusive then Go(f, Clearing(ClearUnmark)) else Leave(f)
    case ClearUnmark => Go(f.(pending := false), Clearing(ClearUnreserve))
    case ClearUnreserve => Leave(f.(reserved := false))
  }

  // ---- restore_service ----

  /** The checks made before the exclusive leases are taken. */
  function ExamineStep(f: Files, v: View, at: ExamineStage): Move {
    match at
    case CheckActivation(copy) =>
      if f.restoration == Returned && RuntimePhase(copy.phase) then Go(f, Relaunching(ToRelaunch))
      else if f.activation then Leave(f)
      else Go(f, Examining(CheckShutdown(copy)))
    case CheckShutdown(copy) =>
      if !f.shutdownCommitted then
        if copy.mutated then Leave(f) else Go(f, Examining(ToRefuse(copy)))
      else if !v.free.exclusive then Leave(f)
      else Go(f, if copy.mutated then Returning(ToRestore(copy)) else Returning(ToReturn(copy)))
    case ToRefuse(_) => Leave(Publish(f, HandoffFailed, false))
  }

  function ReturnStep(f: Files, v: View, at: ReturnStage): Move {
    match at
    case ToRestore(copy) => if !f.backup then Leave(f) else Go(f.(restoration := Restoring), Returning(ToReturn(copy)))
    case ToReturn(copy) => Go(f.(restoration := Returned), Returning(ToReserveAgain(copy)))
    case ToReserveAgain(copy) => Go(f.(reserved := true), Returning(ToMarkAgain(copy)))
    case ToMarkAgain(copy) => Go(f.(pending := true), Returning(ToRestart(copy)))
    case ToRestart(copy) => Go(Publish(f, Restarting, copy.mutated), Relaunching(ToRelaunch))
  }

  // ---- cancel_job ----

  function CancelStep(f: Files, v: View, at: CancelStage): Move {
    match at
    case CancelRead => if f.status.mutated then Leave(f) else Go(f, Cancelling(CancelUnmark))
    case CancelUnmark => Go(f.(pending := false), Cancelling(CancelUnreserve))
    case CancelUnreserve => Go(f.(reserved := false), Cancelling(CancelPublish))
    case CancelPublish => Go(Publish(f, Cancelled, false), Cancelling(CancelRevoke))
    case CancelRevoke => Leave(f.(approval := false))
  }

  // ---- start_job, start_handoff, settle_uncommitted_handoff ----

  function AdmissionStep(f: Files, v: View, copy: Status): Move {
    var free := if RuntimePhase(copy.phase) then v.free.shared else v.free.exclusive;
    Leave(if free then f.(approval := true) else f)
  }

  function ReviewStep(f: Files, v: View, at: ReviewStage): Move {
    match at
    case HandoffRead => if f.status.mutated || !HandoffPhase(f.status.phase) then Leave(f) else Go(f, Reviewing(HandoffRevoke))
    case HandoffRevoke => Go(f.(approval := false), Reviewing(HandoffPublish))
    case HandoffPublish => Leave(Publish(f, Checking, false))
    case SettleRead =>
      var p := f.status.phase;
      if f.status.mutated || (p != Ready && p != HandoffFailed) || f.shutdownCommitted || f.approval
      then Leave(f) else Go(f, Reviewing(ToSettle))
    case ToSettle => Leave(Publish(f, Cancelled, false))
  }

  function OwnerMove(f: Files, v: View, stage: Stage): Move {
    match stage
    case Deciding => Decide(f, v)
    case Reading => Read(f, v)
    case Admitting(at) => AdmitStep(f, v, at)
    case Handing(at) => HandStep(f, v, at)
    case Preserving(at) => PreserveStep(f, v, at)
    case Replacing(at) => ReplaceStep(f, v, at)
    case Completing(at) => CompleteStep(f, v, at)
    case Relaunching(at) => RelaunchStep(f, v, at)
    case Failing(at) => FailStep(f, v, at)
    case Clearing(at) => ClearStep(f, v, at)
    case Examining(at) => ExamineStep(f, v, at)
    case Returning(at) => ReturnStep(f, v, at)
    case Cancelling(at) => CancelStep(f, v, at)
    case SeekAdmission(copy) => AdmissionStep(f, v, copy)
    case Reviewing(at) => ReviewStep(f, v, at)
    case ToWithdraw(_) => Leave(Publish(f, HandoffFailed, false))
  }

  // ---- children ----

  /** _prepare: publish Stopping, run the shutdown protocol, or record that the handoff failed. */
  function PreflightStep(f: Files, free: Leases, at: PreflightStage, fails: bool): Turn {
    match at
    case PreflightNew =>
      if free.handoff && free.shared && !f.pending then Turn(f, Preflight(PreflightLocked)) else Turn(f, Gone(false))
    case PreflightLocked =>
      if f.status == Status(Checking, false) then Turn(f, Preflight(PreflightChecked)) else Turn(f, Gone(false))
    case PreflightChecked =>
      if fails then Turn(Publish(f, HandoffFailed, false), Gone(false))
      else Turn(Publish(f, Stopping, false), Preflight(PreflightStopping))
    case PreflightStopping =>
      if fails then Turn(Publish(f, HandoffFailed, false), Gone(false))
      else Turn(f.(shutdownCommitted := true), Preflight(PreflightCommitted))
    case PreflightCommitted =>
      if fails then Turn(Publish(f, HandoffFailed, false), Gone(false)) else Turn(f, Gone(true))
  }

  function InstallerStep(f: Files, free: Leases, at: InstallerStage): Turn {
    match at
    case InstallerNew =>
      if free.exclusive then Turn(f, Installer(InstallerHolding)) else Turn(f, Gone(false))
    case InstallerHolding =>
      if Finished(f.status.phase) || !f.approval || !f.backup then Turn(f, Gone(false))
      else Turn(f, Installer(InstallerReserve))
    case InstallerReserve => Turn(f.(reserved := true), Installer(InstallerMark))
    case InstallerMark => Turn(f.(pending := true), Installer(InstallerPublish))
    case InstallerPublish => Turn(Publish(f, Installing, true), Installer(InstallerWorking))
    case InstallerWorking => Turn(f, Gone(true))
  }

  /** run_restarts reads the status once; a final phase is history, a finalizing job needs only its cleanup. */
  function RuntimeRead(f: Files): Turn {
    var copy := f.status;
    if f.restoration == Restoring then Turn(f, Gone(false))
    else if copy.phase == Succeeded || copy.phase == Restored then Turn(f, Gone(true))
    else if !RuntimePhase(copy.phase) then Turn(f, Gone(false))
    else Turn(f, Runtime(RuntimeEntering(copy)))
  }

  function RuntimeEnter(f: Files, free: Leases, copy: Status): Turn {
    if !free.maintenance then Turn(f, Gone(false))
    else if copy.phase == Finalizing then Turn(f.(reserved := false), Runtime(RuntimeCleanUnmark))
    else if !f.pending || !f.reserved then Turn(f, Gone(false))
    else Turn(f, Runtime(RuntimeRestart(copy.mutated)))
  }

  /** The last save reuses the record read at the start, so it repeats that record's mutation flag. */
  function RuntimeStep(f: Files, free: Leases, at: RuntimeStage): Turn {
    match at
    case RuntimeNew =>
      if free.shared && f.restarts then Turn(f, Runtime(RuntimeAdmitted))
      else Turn(f, Gone(false))
    case RuntimeAdmitted => RuntimeRead(f)
    case RuntimeEntering(copy) => RuntimeEnter(f, free, copy)
    case RuntimeRestart(m) => Turn(Publish(f, Restarting, true), Runtime(RuntimeActivate(m)))
    case RuntimeActivate(m) => Turn(Publish(f, Activating, true), Runtime(RuntimeAuthorize(m)))
    case RuntimeAuthorize(m) => Turn(f.(activation := true), Runtime(RuntimeFinalize(m)))
    case RuntimeFinalize(m) => Turn(Publish(f, Finalizing, true), Runtime(RuntimeUnreserve(m)))
    case RuntimeUnreserve(m) => Turn(f.(reserved := false), Runtime(RuntimeUnmark(m)))
    case RuntimeUnmark(m) =>
      if f.pending then Turn(f.(pending := false), Runtime(RuntimeFinish(m))) else Turn(f, Gone(false))
    case RuntimeFinish(m) => Turn(Publish(f, FinalPhase(f.restoration), m), Runtime(RuntimeDone))
    case RuntimeCleanUnmark => Turn(f.(pending := false), Runtime(RuntimeCleanFinish))
    case RuntimeCleanFinish => Turn(Publish(f, FinalPhase(f.restoration), true), Runtime(RuntimeDone))
    case RuntimeDone => Turn(f, Gone(true))
  }

  function ChildTurn(f: Files, free: Leases, c: Child, fails: bool): Turn {
    match c
    case Preflight(at) => PreflightStep(f, free, at, fails)
    case Installer(at) => InstallerStep(f, free, at)
    case Runtime(at) => RuntimeStep(f, free, at)
    case Gone(_) => Turn(f, c)
  }

  // ---- the machine ----

  predicate ExclusiveFree(children: seq<Child>) {
    forall i :: 0 <= i < |children| ==> IsIdle(children[i])
  }

  predicate SharedFree(children: seq<Child>) {
    forall i :: 0 <= i < |children| ==> !IsExclusive(children[i])
  }

  predicate HandoffFree(children: seq<Child>) {
    forall i :: 0 <= i < |children| ==> !HoldsHandoff(children[i])
  }

  predicate MaintenanceFree(children: seq<Child>) {
    forall i :: 0 <= i < |children| ==> !IsExclusive(children[i]) && !Maintains(children[i])
  }

  predicate OwnerLeaves(owner: Option<Owner>, exclusive: bool) {
    owner.None? || (!OwnerExclusive(owner.value.stage) && (exclusive ==> !owner.value.stage.Reviewing?))
  }

  /** Leases of others as an owner finds them, and as a child does beside the owner. */
  function OwnerFinds(children: seq<Child>): Leases {
    Leases(ExclusiveFree(children), SharedFree(children), HandoffFree(children), MaintenanceFree(children))
  }

  function ChildFinds(owner: Option<Owner>, children: seq<Child>): Leases {
    Leases(ExclusiveFree(children) && OwnerLeaves(owner, true), SharedFree(children) && OwnerLeaves(owner, false),
           HandoffFree(children) && !(owner.Some? && OwnerHoldsHandoff(owner.value.stage)),
           MaintenanceFree(children) && OwnerLeaves(owner, false))
  }

  function Sees(s: State, o: Owner): View {
    View(o.entry, OwnerFinds(s.children),
         if o.awaited < |s.children| && s.children[o.awaited].Gone? then Some(s.children[o.awaited].ok) else None)
  }

  function Moved(s: State, o: Owner, move: Move): State {
    if move.stage.None? then s.(files := move.files, owner := None)
    else if move.launched.None? then s.(files := move.files, owner := Some(o.(stage := move.stage.value)))
    else s.(files := move.files, owner := Some(Owner(o.entry, move.stage.value, |s.children|)),
            children := s.children + [move.launched.value])
  }

  function OwnerStep(s: State, o: Owner): State {
    Moved(s, o, OwnerMove(s.files, Sees(s, o), o.stage))
  }

  function ChildStepped(s: State, i: nat, fails: bool): State
    requires i < |s.children|
  {
    var turn := ChildTurn(s.files, ChildFinds(s.owner, s.children), s.children[i], fails);
    s.(files := turn.files, children := s.children[i := turn.child])
  }

  predicate Awaits(stage: Stage) {
    match stage
    case Handing(at) => at.AwaitPreflight?
    case Replacing(at) => at.AwaitInstaller?
    case Relaunching(at) => at.AwaitRuntime?
    case _ => false
  }

  /** The stages inside run_job's try block where a check, a lease or a launch may throw. */
  predicate InTry(stage: Stage) {
    match stage
    case Admitting(at) => at.Dispatching?
    case Handing(at) => !at.AwaitPreflight?
    case Preserving(_) => true
    case Replacing(at) => !at.AwaitInstaller?
    case Completing(at) => !at.ToUnreserve?
    case Relaunching(at) => at.ToRelaunch?
    case _ => false
  }

  /** Where an exception takes an owner: restore_service has no handler. */
  function Thrown(s: State, o: Owner, handler: FailStage): State {
    s.(owner := if o.entry.RestoreService? then None else Some(o.(stage := Failing(handler))))
  }

  function Ended(s: State, i: nat): State
    requires i < |s.children|
  {
    s.(children := s.children[i := Gone(false)])
  }

  /** supervise runs restore_service itself, and start_handoff waits for it to end. */
  predicate HoldsSupervisor(entry: Entry) {
    entry.RestoreService? || entry.StartHandoff?
  }

  /** The note at the end of a failed recovery: the status is read and saved again without worker.lock. */
  function NoteStep(s: State, a: Action): State {
    match a
    case NoteRead =>
      if !s.files.restarts || s.note.Some? || (s.owner.Some? && HoldsSupervisor(s.owner.value.entry)) then s
      else s.(note := Some(s.files.status))
    case NoteSave => if s.note.None? then s else s.(files := s.files.(status := s.note.value), note := None)
    case _ => s.(note := None)
  }

  function Step(s: State, a: Action): State {
    match a
    case Start(entry) =>
      if s.owner.Some? || (s.note.Some? && HoldsSupervisor(entry)) then s else s.(owner := Some(Owner(entry, Deciding, 0)))
    case Advance => if s.owner.None? then s else OwnerStep(s, s.owner.value)
    case Throw(busy) =>
      if s.owner.None? || !InTry(s.owner.value.stage) then s
      else Thrown(s, s.owner.value, if busy then CaughtBusy else Caught)
    case TimeOut =>
      // A timeout kills the child it was waiting for.
      if s.owner.None? || !Awaits(s.owner.value.stage) || s.owner.value.awaited >= |s.children|
         || s.children[s.owner.value.awaited].Gone? then s
      else Thrown(Ended(s, s.owner.value.awaited), s.owner.value, Caught)
    case OwnerDies => s.(owner := None)
    case ChildStep(i, fails) => if i >= |s.children| then s else ChildStepped(s, i, fails)
    case ChildDies(i) => if i >= |s.children| || s.children[i].Gone? then s else Ended(s, i)
    case _ => NoteStep(s, a)
  }

  function Run(restarts: bool, actions: seq<Action>): State {
    if actions == [] then Initial(restarts)
    else Step(Run(restarts, actions[..|actions| - 1]), actions[|actions| - 1])
  }

  lemma RunSplits(restarts: bool, before: seq<Action>, a: Action)
    ensures Run(restarts, before + [a]) == Step(Run(restarts, before), a)
  {
    assert (before + [a])[..|before|] == before;
  }
}
