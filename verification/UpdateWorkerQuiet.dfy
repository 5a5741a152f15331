/**
 Runs in which a new owner begins only once every child of an earlier one has ended: which steps can
 still break the laws when nobody works beside the owner but the child it waits for.
 */
module UpdateWorkerQuiet {
  import opened Wrappers
  import opened UpdateWorker
  import opened UpdateWorkerTimely
  import opened UpdateWorkerRecords
  import opened UpdateWorkerLaws

  predicate Quiet(s: State, a: Action) {
    a.Start? ==> AllGone(s.children)
  }

  predicate QuietRun(restarts: bool, actions: seq<Action>) {
    actions == [] ||
    var before, a := actions[..|actions| - 1], actions[|actions| - 1];
    QuietRun(restarts, before) && Quiet(Run(restarts, before), a)
  }

  /** The owner's copy is still what the file says. */
  predicate Current(f: Files, stage: Stage) {
    match stage
    case Admitting(at) => at.copy == f.status
    case Handing(at) => if at.ToCheck? then at.copy == f.status else HandoffLost(f.status.phase)
    case Preserving(at) =>
      at.SeekBackup? || at.ToBackUp? ==> at.copy == f.status || (HandoffLost(f.status.phase) && !at.copy.mutated)
    case Failing(at) => at.ToFail? || at.ToBusyFail? ==> at.copy == f.status
    case Clearing(_) => !f.status.mutated
    case Examining(at) => at.copy == f.status
    case Returning(at) => at.copy == f.status
    case ToWithdraw(copy) => copy == f.status
    case _ => true
  }

  predicate CurrentChild(f: Files, c: Child) {
    c.Runtime? ==>
      && (c.runtime.RuntimeEntering? ==> c.runtime.copy == f.status)
      && (c.runtime.RuntimeRestart? ==> f.status.phase != Finalizing)
      && (c.runtime.RuntimeUnreserve? ==> f.status.phase == Finalizing)
  }

  /** Only the awaited child may be alive beside an owner, and the shutdown waits for a preflight. */
  predicate Alone(o: Owner, children: seq<Child>) {
    && (forall i :: 0 <= i < |children| ==> children[i].Gone? || (Awaits(o.stage) && i == o.awaited))
    && (o.stage.Handing? && o.awaited < |children| ==> children[o.awaited].Gone? || children[o.awaited].Preflight?)
  }

  predicate Solitary(s: State) {
    && (s.owner.Some? ==> Alone(s.owner.value, s.children) && Current(s.files, s.owner.value.stage))
    && (forall i :: 0 <= i < |s.children| ==> CurrentChild(s.files, s.children[i]))
    && (forall i, j :: 0 <= i < |s.children| && 0 <= j < |s.children| && i != j ==> s.children[i].Gone? || s.children[j].Gone?)
  }

  lemma HandoffStaysCurrent(f: Files, v: View, at: HandStage)
    requires HandOk(f, at) && Plausible(f, f.status) && Current(f, Handing(at))
    ensures var move := HandStep(f, v, at); move.stage.Some? ==> Current(move.files, move.stage.value)
  {
  }

  lemma FailureStaysCurrent(f: Files, v: View, stage: Stage)
    requires Current(f, stage) && (stage.Failing? || stage.Clearing?)
    ensures var move := OwnerMove(f, v, stage); move.stage.Some? ==> Current(move.files, move.stage.value)
  {
  }

  lemma ReadsStayCurrent(f: Files, v: View, stage: Stage)
    requires OwnerOk(f, stage) && Plausible(f, f.status) && Current(f, stage)
    requires stage.Reading? || stage.Admitting? || stage.Preserving?
    ensures var move := OwnerMove(f, v, stage); move.stage.Some? ==> Current(move.files, move.stage.value)
  {
  }

  lemma RestorationStaysCurrent(f: Files, v: View, stage: Stage)
    requires Current(f, stage) && (stage.Examining? || stage.Returning?)
    ensures var move := OwnerMove(f, v, stage); move.stage.Some? ==> Current(move.files, move.stage.value)
  {
  }

  lemma InstallationStaysCurrent(f: Files, v: View, stage: Stage)
    requires stage.Replacing? || stage.Completing? || stage.Relaunching?
    ensures var move := OwnerMove(f, v, stage); move.stage.Some? ==> Current(move.files, move.stage.value)
  {
  }

  lemma ReviewsStayCurrent(f: Files, v: View, at: ReviewStage)
    ensures var move := ReviewStep(f, v, at); move.stage.Some? ==> Current(move.files, move.stage.value)
  {
  }

  lemma OthersStayCurrent(f: Files, v: View, stage: Stage)
    requires stage.Deciding? || stage.Cancelling? || stage.SeekAdmission? || stage.ToWithdraw?
    ensures var move := OwnerMove(f, v, stage); move.stage.Some? ==> Current(move.files, move.stage.value)
  {
  }

  lemma OwnerStaysCurrent(f: Files, v: View, stage: Stage)
    requires OwnerOk(f, stage) && Plausible(f, f.status) && Current(f, stage)
    ensures var move := OwnerMove(f, v, stage); move.stage.Some? ==> Current(move.files, move.stage.value)
  {
    match stage
    case Reading => ReadsStayCurrent(f, v, stage);
    case Admitting(_) => ReadsStayCurrent(f, v, stage);
    case Preserving(_) => ReadsStayCurrent(f, v, stage);
    case Handing(at) => HandoffStaysCurrent(f, v, at);
    case Failing(_) => FailureStaysCurrent(f, v, stage);
    case Clearing(_) => FailureStaysCurrent(f, v, stage);
    case Replacing(_) => InstallationStaysCurrent(f, v, stage);
    case Completing(_) => InstallationStaysCurrent(f, v, stage);
    case Relaunching(_) => InstallationStaysCurrent(f, v, stage);
    case Examining(_) => RestorationStaysCurrent(f, v, stage);
    case Returning(_) => RestorationStaysCurrent(f, v, stage);
    case Reviewing(at) => ReviewsStayCurrent(f, v, at);
    case _ => OthersStayCurrent(f, v, stage);
  }

  /** An owner launches a child and waits for it at once, and leaves a wait only when the child has ended. */
  lemma Waits(f: Files, v: View, stage: Stage)
    requires stage.Handing? || stage.Replacing? || stage.Relaunching?
    ensures var move := OwnerMove(f, v, stage);
            && (move.launched.Some? ==> move.stage.Some? && Awaits(move.stage.value))
            && (move.launched.None? && move.stage.Some? ==>
                  && (Awaits(move.stage.value) ==> move.stage.value == stage)
                  && (Awaits(stage) && move.stage.value != stage ==> v.ended.Some?))
  {
  }

  lemma NeverWaits(f: Files, v: View, stage: Stage)
    requires !stage.Handing? && !stage.Replacing? && !stage.Relaunching?
    ensures var move := OwnerMove(f, v, stage); move.launched.None? && (move.stage.Some? ==> !Awaits(move.stage.value))
  {
  }

  predicate LaunchFits(stage: Stage, move: Move) {
    && (move.launched.Some? && move.stage.Some? && move.stage.value.Handing? ==> move.launched.value.Preflight?)
    && (move.launched.Some? && move.launched.value.Runtime? ==> move.launched.value.runtime.RuntimeNew?)
    && (move.launched.None? && move.stage.Some? && move.stage.value.Handing? ==> stage.Handing? || stage.Reading?)
  }

  lemma LaunchersFit(f: Files, v: View, stage: Stage)
    requires stage.Handing? || stage.Replacing? || stage.Relaunching?
    ensures LaunchFits(stage, OwnerMove(f, v, stage))
  {
  }

  lemma RunStagesFit(f: Files, v: View, stage: Stage)
    requires stage.Admitting? || stage.Preserving? || stage.Completing? || stage.Failing? || stage.Clearing?
    ensures LaunchFits(stage, OwnerMove(f, v, stage))
  {
  }

  lemma LaunchesForItsStage(f: Files, v: View, stage: Stage)
    ensures LaunchFits(stage, OwnerMove(f, v, stage))
  {
    if stage.Handing? || stage.Replacing? || stage.Relaunching? { LaunchersFit(f, v, stage); }
    else if stage.Admitting? || stage.Preserving? || stage.Completing? || stage.Failing? || stage.Clearing? {
      RunStagesFit(f, v, stage);
    }
  }

  lemma OwnerStaysSolitary(s: State, o: Owner)
    requires Inv(s) && Solitary(s) && s.owner == Some(o)
    ensures Solitary(OwnerStep(s, o))
  {
    var v, f := Sees(s, o), s.files;
    if o.stage.Handing? || o.stage.Replacing? || o.stage.Relaunching? { Waits(f, v, o.stage); }
    else { NeverWaits(f, v, o.stage); }
    LaunchesForItsStage(f, v, o.stage);
    OwnerStaysCurrent(f, v, o.stage);
    if Awaits(o.stage) { AwaitingLeavesRecords(f, v, o.stage); }
  }

  lemma AwaitingLeavesRecords(f: Files, v: View, stage: Stage)
    requires Awaits(stage)
    ensures OwnerMove(f, v, stage).files == f && OwnerMove(f, v, stage).launched.None?
  {
  }

  predicate TurnsAlone(f: Files, c: Child, turn: Turn) {
    && CurrentChild(turn.files, turn.child)
    && (turn.child.Gone? || (turn.child.Preflight? <==> c.Preflight?))
    && (c.Preflight? && HandoffLost(f.status.phase) ==> HandoffLost(turn.files.status.phase))
  }

  lemma CoordinatorStaysCurrent(f: Files, free: Leases, at: RuntimeStage)
    requires RuntimeOk(f, at) && CurrentChild(f, Runtime(at))
    ensures TurnsAlone(f, Runtime(at), RuntimeStep(f, free, at))
  {
  }

  lemma PreflightStaysCurrent(f: Files, free: Leases, at: PreflightStage, fails: bool)
    ensures TurnsAlone(f, Preflight(at), PreflightStep(f, free, at, fails))
  {
  }

  lemma TurnStaysCurrent(f: Files, free: Leases, c: Child, fails: bool)
    requires ChildOk(f, c) && CurrentChild(f, c) && !c.Gone?
    ensures TurnsAlone(f, c, ChildTurn(f, free, c, fails))
  {
    match c
    case Preflight(at) => PreflightStaysCurrent(f, free, at, fails);
    case Installer(_) =>
    case Runtime(at) => CoordinatorStaysCurrent(f, free, at);
  }

  lemma ChildStaysSolitary(s: State, i: nat, fails: bool)
    requires Inv(s) && Solitary(s) && i < |s.children|
    ensures Solitary(ChildStepped(s, i, fails))
  {
    if !s.children[i].Gone? { TurnStaysCurrent(s.files, ChildFinds(s.owner, s.children), s.children[i], fails); }
  }

  lemma StaysSolitary(s: State, a: Action)
    requires Inv(s) && Solitary(s) && Quiet(s, a) && !Late(s, a)
    ensures Solitary(Step(s, a))
  {
    match a
    case Advance => if s.owner.Some? { OwnerStaysSolitary(s, s.owner.value); }
    case ChildStep(i, fails) => if i < |s.children| { ChildStaysSolitary(s, i, fails); }
    case _ =>
  }

  lemma {:induction false} QuietRunsAreSolitary(restarts: bool, actions: seq<Action>)
    requires QuietRun(restarts, actions) && Punctual(restarts, actions)
    ensures Solitary(Run(restarts, actions))
  {
    if actions != [] {
      var before, a := actions[..|actions| - 1], actions[|actions| - 1];
      QuietRunsAreSolitary(restarts, before);
      PunctualRunsKeep(restarts, before);
      StaysSolitary(Run(restarts, before), a);
    }
  }

  // ---- what can still go wrong ----

  /** The failure handler saving over a status it read as restored. */
  predicate HandlerForgetsRestored(s: State, a: Action) {
    && a.Advance? && s.owner.Some? && s.owner.value.stage.Failing?
    && s.owner.value.stage.fail.ToFail? && s.owner.value.stage.fail.copy.phase == Restored
  }

  /** cancel_job, which looks at the mutation flag alone, over a restored job that lost it. */
  predicate CancelsRestored(s: State, a: Action) {
    a.Advance? && s.owner.Some? && s.owner.value.stage == Cancelling(CancelPublish) && s.files.status.phase == Restored
  }

  /** A coordinator's last save from the unmutated record it began with. */
  predicate CoordinatorForgets(s: State, a: Action) {
    && a.ChildStep? && a.child < |s.children| && s.children[a.child] == Runtime(RuntimeFinish(false))
    && s.files.status.mutated
  }

  /** supervise's note, saved after the job went on. */
  predicate NoteForgets(s: State, a: Action) {
    a.NoteSave? && s.note.Some? && NoteOvertakes(s.files.status, s.note.value)
  }

  lemma CurrentOwnerOvertakes(f: Files, stage: Stage)
    requires OwnerOk(f, stage) && Plausible(f, f.status) && Current(f, stage) && OwnerOvertakes(f, stage)
    ensures (stage.Failing? && stage.fail.ToFail? && stage.fail.copy.phase == Restored)
         || (stage == Cancelling(CancelPublish) && f.status.phase == Restored)
  {
  }

  /** The guards left when nobody works beside an owner. */
  predicate QuietlyBreaks(s: State, a: Action) {
    HandlerForgetsRestored(s, a) || CancelsRestored(s, a) || CoordinatorForgets(s, a) || NoteForgets(s, a)
  }

  lemma SolitaryOvertakes(s: State, a: Action)
    requires Inv(s) && Solitary(s)
    ensures Overtakes(s, a) <==> QuietlyBreaks(s, a)
  {
    if a.Advance? && s.owner.Some? && OwnerOvertakes(s.files, s.owner.value.stage) {
      CurrentOwnerOvertakes(s.files, s.owner.value.stage);
    }
  }

  /** In quiet runs exactly these four steps break the history, as long as no note was late before. */
  lemma QuietHistoryBreaksExactly(restarts: bool, actions: seq<Action>, a: Action)
    requires QuietRun(restarts, actions) && Quiet(Run(restarts, actions), a)
    ensures var s := Run(restarts, actions);
            Lawful(s.files.status, Step(s, a).files.status)
            <==> if Punctual(restarts, actions) then !QuietlyBreaks(s, a) else !Overtakes(s, a) && !Outdates(s, a)
  {
    HistoryBreaksExactly(restarts, actions, a);
    if Punctual(restarts, actions) {
      PunctualRunsKeep(restarts, actions);
      QuietRunsAreSolitary(restarts, actions);
      SolitaryOvertakes(Run(restarts, actions), a);
    }
  }

  /** The failure handler saving FAILED over a mutated status that had no fences left to hold. */
  predicate HandlerFailsSettled(s: State, a: Action) {
    && a.Advance? && s.owner.Some? && s.owner.value.stage.Failing? && s.owner.value.stage.fail.ToFail?
    && s.files.status.mutated && (s.files.status.phase == Installed || s.files.status.phase == Restored)
    && !(s.files.pending && s.files.reserved)
  }

  lemma CurrentOwnerUnfences(f: Files, stage: Stage)
    requires OwnerOk(f, stage) && Plausible(f, f.status) && Current(f, stage) && Fenced(f)
    ensures OwnerUnfences(f, stage)
            <==> stage.Failing? && stage.fail.ToFail? && f.status.mutated
                 && (f.status.phase == Installed || f.status.phase == Restored) && !(f.pending && f.reserved)
  {
  }

  lemma CurrentChildKeepsFences(f: Files, maintenance: bool, c: Child)
    requires CurrentChild(f, c)
    ensures !ChildUnfences(f, maintenance, c)
  {
  }

  /** supervise's note that packages may be changed, saved after the fences fell. */
  predicate NoteBares(s: State, a: Action) {
    a.NoteSave? && s.note.Some? && NoteUnfences(s.files, s.note.value)
  }

  lemma SolitaryUnfences(s: State, a: Action)
    requires Inv(s) && Solitary(s) && Fenced(s.files)
    ensures Unfences(s, a) <==> HandlerFailsSettled(s, a) || NoteBares(s, a)
  {
    if a.Advance? && s.owner.Some? { CurrentOwnerUnfences(s.files, s.owner.value.stage); }
    if a.ChildStep? && a.child < |s.children| {
      CurrentChildKeepsFences(s.files, ChildFinds(s.owner, s.children).maintenance, s.children[a.child]);
    }
  }

  /** In quiet runs exactly two steps drop the fences, as long as no note was late before. */
  lemma QuietFencesFallExactly(restarts: bool, actions: seq<Action>, a: Action)
    requires QuietRun(restarts, actions) && Quiet(Run(restarts, actions), a) && Fenced(Run(restarts, actions).files)
    ensures var s := Run(restarts, actions);
            Fenced(Step(s, a).files)
            <==> if Punctual(restarts, actions) then !HandlerFailsSettled(s, a) && !NoteBares(s, a)
                 else !Unfences(s, a) && !Bares(s, a)
  {
    FencesFallExactly(restarts, actions, a);
    if Punctual(restarts, actions) {
      PunctualRunsKeep(restarts, actions);
      QuietRunsAreSolitary(restarts, actions);
      SolitaryUnfences(Run(restarts, actions), a);
    }
  }
}
