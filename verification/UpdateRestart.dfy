/**
 The activation barrier after an installation or a restoration: gateways start with task intake
 closed, and open it only once a durable record names their exact profile, run and version.

 Any number of coordinators (run_restarts) and started gateways, one holder of worker.lock
 (restore_service, run_job's failure handler or cancel_job) and supervise's note take interleaved
 steps; each step is one record read or write, and every process may die between steps.
 */
module UpdateRestart {
  import opened Wrappers

  type Profile = nat
  type RunId = nat
  type ProcessId = nat

  datatype Version = Target | Original

  datatype Phase = Restarting | Activating | Finalizing | Succeeded | Restored | RestartFailed | Cancelled
  {
    predicate Past() {
      Finalizing? || Succeeded? || Restored?
    }

    predicate LetsGatewaysOpen() {
      Activating? || Past()
    }
  }

  /** What a gateway's health endpoint and receipt identify: instance, run and version. */
  datatype Identity = Identity(profile: Profile, run: RunId, version: Version)

  type Record = map<Profile, Identity>

  /** SawPhase: the activation loop has read a permitting phase and reads the record next. */
  datatype RunStage = Spawned | Validated | Parked | SawPhase | Open | Gone

  datatype Gateway = Gateway(profile: Profile, version: Version, stage: RunStage) {
    /** Holds the shared installation lease. */
    predicate Leasing() {
      !stage.Spawned? && !stage.Gone?
    }

    /** Also holds its participant and data leases, and has recorded its receipt. */
    predicate Live() {
      Leasing() && !stage.Validated?
    }
  }

  /** Where one run_restarts process is; it holds the shared installation lease throughout. */
  datatype Coordinator =
    | Reading
    | Entering(copy: Phase)
    | Inspecting
    | Advancing(stopped: set<Profile>)
    | Granting(todo: set<Profile>)
    | Parking(resuming: bool, todo: set<Profile>, parked: Record)
    | Announcing(parked: Record)
    | Authorizing(parked: Record)
    | Confirming(todo: set<Profile>)
    | Finishing
    | Releasing(owner: bool)
    | Unmarking(owner: bool)
    | Ending
  {
    /** Everyone was verified active before this process, or before the status it read. */
    predicate Committed() {
      Finishing? || Releasing? || Unmarking? || Ending? || (Entering? && copy.Past())
    }
  }

  /** restore_service: from Reserving on it holds the installation exclusively. */
  datatype Restorer = Checked | Reserving | Marking | Rewinding

  /** run_job's failure handler and its cleanup, and cancel_job; these hold worker.lock. */
  datatype Holder =
    | FailSaving(mutated: bool)
    | ClearSeeking
    | ClearUnmarking
    | ClearUnreserving
    | CancelUnmarking
    | CancelUnreserving
    | CancelPublishing
  {
    /** Inside mutation_access: exclusive installation and data leases. */
    predicate Leased() {
      !FailSaving? && !ClearSeeking?
    }
  }

  /** The status that supervise has read and will save again. */
  datatype Note = Note(phase: Phase, mutated: bool)

  /**
   What matters beside the handoff itself: the status's mutation flag, the coordinators whose own copy
   of it is unset, the holder, the note, and whether a cleanup or cancellation ever lifted a fence
   (which no process reads).
   */
  datatype Desk = Desk(mutated: bool, unmutated: set<ProcessId>, holder: Option<Holder>, note: Option<Note>, withdrawn: bool)

  /** What has happened so far; read by no process. */
  datatype History = History(records: seq<Record>, verified: set<Identity>, confirmed: set<Identity>, admitted: set<Identity>)


  datatype State = State(
    phase: Phase, restored: bool, pending: Option<Version>, reserved: bool, grants: map<Profile, RunId>,
    activation: Option<Record>,
    runs: map<RunId, Gateway>, receipts: map<Profile, RunId>,
    coordinators: map<ProcessId, Coordinator>, maintenance: Option<ProcessId>, restorer: Option<Restorer>,
    desk: Desk, past: History)
  {
    /** The version on disk, which both version checks of _read_plan and of a started gateway demand. */
    function Current(): Version {
      if restored then Original else Target
    }

    predicate Exclusive() {
      (restorer.Some? && restorer.value != Checked) || (desk.holder.Some? && desk.holder.value.Leased())
    }

    /** No shared installation lease is held. */
    predicate Unleased() {
      coordinators == map[] && forall r :: r in runs ==> !runs[r].Leasing()
    }

    predicate LiveRun(p: Profile) {
      p in receipts && receipts[p] in runs && runs[receipts[p]].Live()
    }
  }

  /**
   The candidate is installed; or restore_service has fenced a service whose packages never changed.
   Either way the installation is fenced and nothing runs.
   */
  datatype Beginning = Installed | Unmodified

  function Initial(begin: Beginning): State {
    State(Restarting, begin.Unmodified?, Some(if begin.Installed? then Target else Original), true,
          map[], None, map[], map[], map[], None, None, Desk(begin.Installed?, {}, None, None, false), History([], {}, {}, {}))
  }

  datatype Action =
    | Start(i: ProcessId)
    | Coordinate(i: ProcessId, p: Profile, r: RunId, passes: bool)
    | CoordinatorDies(i: ProcessId)
    | Validate(r: RunId)
    | Claim(r: RunId)
    | PollPhase(r: RunId)
    | PollRecord(r: RunId)
    | Exit(r: RunId)
    | FailRead
    | CancelStart
    | HolderStep
    | HolderDies
    | NoteRead
    | NoteSave
    | SupervisorDies
    | RestoreCheck
    | RestoreStep
    | RestorerDies

  // ---- coordinator steps: update_restart.run_restarts ----

  function Left(s: State, i: ProcessId): State {
    s.(coordinators := map j | j in s.coordinators && j != i :: s.coordinators[j],
       maintenance := if s.maintenance == Some(i) then None else s.maintenance)
  }

  /** Its copy of the status is what its last save repeats. */
  function Reads(desk: Desk, i: ProcessId): Desk {
    desk.(unmutated := if desk.mutated then desk.unmutated - {i} else desk.unmutated + {i})
  }

  function At(s: State, i: ProcessId, c: Coordinator): State {
    s.(coordinators := s.coordinators[i := c])
  }

  /** After reading the status: finished, cleanup only, or the whole handoff under maintenance.lock. */
  function Enter(s: State, i: ProcessId, copy: Phase): State {
    if copy.Succeeded? || copy.Restored? || copy.Cancelled? || s.maintenance.Some? || (!copy.Finalizing? && (s.pending.None? || !s.reserved))
    then Left(s, i)
    else At(s, i, if copy.Finalizing? then Releasing(false) else Inspecting).(maintenance := Some(i))
  }

  /** A live gateway must be the current version; a receipt left by a stopped one, the target. */
  predicate InspectionPasses(s: State, selected: set<Profile>) {
    forall p :: p in selected && p in s.receipts && s.receipts[p] in s.runs ==>
      s.runs[s.receipts[p]].version == if s.LiveRun(p) then s.Current() else Target
  }

  /** verify_restarted_profile; `open` as in its maintenance flag, None for either. */
  predicate Verifies(s: State, p: Profile, open: Option<bool>) {
    && s.LiveRun(p)
    && s.runs[s.receipts[p]].version == s.Current()
    && (open.Some? ==> open.value == s.runs[s.receipts[p]].stage.Open?)
  }

  function Observed(s: State, p: Profile): Identity
    requires s.LiveRun(p)
  {
    Identity(p, s.receipts[p], s.runs[s.receipts[p]].version)
  }

  function GrantStep(s: State, i: ProcessId, todo: set<Profile>, selected: set<Profile>, p: Profile, r: RunId): State {
    if todo == {} then At(s, i, Parking(s.activation.Some?, selected, map[]))
    else if p !in todo || r in s.runs then s
    else if s.LiveRun(p) || !s.reserved then Left(s, i)
    else At(s, i, Granting(todo - {p}))
         .(grants := s.grants[p := r], runs := s.runs[r := Gateway(p, s.Current(), Spawned)])
  }

  function ParkStep(s: State, i: ProcessId, c: Coordinator, selected: set<Profile>, p: Profile, passes: bool): State
    requires c.Parking?
  {
    if c.todo == {} then At(s, i, Announcing(c.parked))
    else if p !in c.todo then s
    else if !passes || !Verifies(s, p, if c.resuming then None else Some(false)) then
      At(s, i, Parking(c.resuming, selected, map[]))
    else
      At(s, i, Parking(c.resuming, c.todo - {p}, c.parked[p := Observed(s, p)]))
      .(past := s.past.(verified := s.past.verified + {Observed(s, p)}))
  }

  function ConfirmStep(s: State, i: ProcessId, c: Coordinator, selected: set<Profile>, p: Profile, passes: bool): State
    requires c.Confirming?
  {
    if c.todo == {} then At(s, i, Finishing)
    else if p !in c.todo then s
    else if !passes || !Verifies(s, p, Some(true)) then At(s, i, Confirming(selected))
    else
      At(s, i, Confirming(c.todo - {p})).(past := s.past.(confirmed := s.past.confirmed + {Observed(s, p)}))
  }

  function CoordinatorStep(s: State, i: ProcessId, selected: set<Profile>, p: Profile, r: RunId, passes: bool): State
    requires i in s.coordinators
  {
    var c := s.coordinators[i];
    match c
    case Reading =>
      At(s, i, Entering(s.phase)).(desk := Reads(s.desk, i))
    case Entering(copy) => Enter(s, i, copy)
    case Inspecting =>
      if !InspectionPasses(s, selected) then Left(s, i)
      else At(s, i, Advancing(set q | q in selected && !s.LiveRun(q)))
    case Advancing(stopped) => At(s, i, Granting(stopped)).(phase := Restarting, desk := s.desk.(mutated := true))
    case Granting(todo) => GrantStep(s, i, todo, selected, p, r)
    case Parking(_, _, _) => ParkStep(s, i, c, selected, p, passes)
    case Announcing(parked) => At(s, i, Authorizing(parked)).(phase := Activating, desk := s.desk.(mutated := true))
    case Authorizing(parked) =>
      At(s, i, Confirming(selected))
      .(activation := Some(parked), past := s.past.(records := s.past.records + [parked]))
    case Confirming(_) => ConfirmStep(s, i, c, selected, p, passes)
    case Finishing => At(s, i, Releasing(true)).(phase := Finalizing, desk := s.desk.(mutated := true))
    case Releasing(owner) =>
      At(s, i, Unmarking(owner))
      .(reserved := false, grants := map[],
        maintenance := if owner then s.maintenance else if s.maintenance == Some(i) then None else s.maintenance)
    case Unmarking(owner) => if owner && s.pending.None? then Left(s, i) else At(s, i, Ending).(pending := None)
    case Ending => Left(s, i).(phase := if s.restored then Restored else Succeeded, desk := s.desk.(mutated := i !in s.desk.unmutated))
  }

  // ---- gateway steps: run_gateway, the profile claim, and wait_for_activation ----

  function Staged(s: State, r: RunId, g: Gateway, stage: RunStage): State {
    s.(runs := s.runs[r := g.(stage := stage)])
  }

  function GatewayStep(s: State, a: Action, r: RunId): State
    requires r in s.runs
  {
    var g := s.runs[r];
    match a
    case Validate(_) =>
      if !g.stage.Spawned? then s
      else if s.Exclusive() || s.pending != Some(s.Current()) || !(s.phase.Restarting? || s.phase.Activating?) then
        Staged(s, r, g, Gone)
      else Staged(s, r, g.(version := s.Current()), Validated)
    case Claim(_) =>
      if !g.stage.Validated? then s
      else if !s.reserved || g.profile !in s.grants || s.grants[g.profile] != r || s.LiveRun(g.profile) then
        Staged(s, r, g, Gone)
      else Staged(s, r, g, Parked).(receipts := s.receipts[g.profile := r])
    case PollPhase(_) =>
      if !g.stage.Parked? then s
      else if s.phase.RestartFailed? || s.phase.Cancelled? then Staged(s, r, g, Gone)
      else if s.phase.LetsGatewaysOpen() then Staged(s, r, g, SawPhase)
      else s
    case PollRecord(_) =>
      if !g.stage.SawPhase? then s
      else
        var own := Identity(g.profile, r, g.version);
        if s.activation.Some? && g.profile in s.activation.value && s.activation.value[g.profile] == own then
          Staged(s, r, g, Open).(past := s.past.(admitted := s.past.admitted + {own}))
        else Staged(s, r, g, Parked)
    case Exit(_) => Staged(s, r, g, Gone)
    case _ => s
  }

  // ---- restorer steps: update_fallback.restore_service ----

  /** mutation_access with the activation check already behind it. */
  predicate Restoring(s: State, a: Action) {
    a.RestoreStep? && s.restorer == Some(Checked) && s.Unleased()
  }

  function RestorerStep(s: State): State
    requires s.restorer.Some?
  {
    match s.restorer.value
    case Checked => if s.Unleased() then s.(restored := true, restorer := Some(Reserving)) else s.(restorer := None)
    case Reserving => s.(reserved := true, grants := map[], restorer := Some(Marking))
    case Marking => s.(pending := Some(Original), restorer := Some(Rewinding))
    case Rewinding => s.(phase := Restarting, desk := s.desk.(mutated := true), restorer := None)
  }

  // ---- the other holders of worker.lock ----

  function TakeMarker(s: State, next: Holder): State {
    s.(pending := None, desk := s.desk.(holder := Some(next), withdrawn := s.desk.withdrawn || s.pending.Some?))
  }

  function TakeReservation(s: State, next: Option<Holder>): State {
    s.(reserved := false, grants := map[], desk := s.desk.(holder := next, withdrawn := s.desk.withdrawn || s.reserved))
  }

  /** The handler reads and saves without a lease, and cleans up after a status it read as unmutated. */
  function HolderMoves(s: State): State
    requires s.desk.holder.Some?
  {
    match s.desk.holder.value
    case FailSaving(m) =>
      s.(phase := RestartFailed, desk := s.desk.(mutated := m, holder := if m then None else Some(ClearSeeking)))
    case ClearSeeking => s.(desk := s.desk.(holder := if s.Unleased() then Some(ClearUnmarking) else None))
    case ClearUnmarking => TakeMarker(s, ClearUnreserving)
    case ClearUnreserving => TakeReservation(s, None)
    case CancelUnmarking => TakeMarker(s, CancelUnreserving)
    case CancelUnreserving => TakeReservation(s, Some(CancelPublishing))
    case CancelPublishing => s.(phase := Cancelled, desk := s.desk.(mutated := false, holder := None))
  }

  /**
   The handler leaves every other status alone or, after Restored, ends the handoff altogether.
   cancel_job reads the mutation flag under its leases, and nothing else.
   */
  function HolderStarts(s: State, a: Action): State {
    if s.restorer.Some? || s.desk.holder.Some? then s
    else if a.FailRead? then
      if s.phase.Restarting? || s.phase.Activating? || s.phase.RestartFailed?
      then s.(desk := s.desk.(holder := Some(FailSaving(s.desk.mutated)))) else s
    else if s.desk.mutated || !s.Unleased() then s
    else s.(desk := s.desk.(holder := Some(CancelUnmarking)))
  }

  /** supervise's note: supervisor.lock, which restore_service runs under too, and no other lease. */
  function NoteStep(s: State, a: Action): State {
    match a
    case NoteRead =>
      if s.desk.note.Some? || s.restorer.Some? then s else s.(desk := s.desk.(note := Some(Note(s.phase, s.desk.mutated))))
    case NoteSave =>
      if s.desk.note.None? then s
      else s.(phase := s.desk.note.value.phase, desk := s.desk.(mutated := s.desk.note.value.mutated, note := None))
    case _ => s.(desk := s.desk.(note := None))
  }

  /** A coordinator is only started under worker.lock. */
  function Step(s: State, a: Action, selected: set<Profile>): State {
    match a
    case Start(i) => if i in s.coordinators || s.restorer.Some? || s.desk.holder.Some? then s else At(s, i, Reading)
    case Coordinate(i, p, r, passes) => if i in s.coordinators then CoordinatorStep(s, i, selected, p, r, passes) else s
    case CoordinatorDies(i) => Left(s, i)
    case RestoreCheck =>
      if s.restorer.Some? || s.desk.holder.Some? || s.desk.note.Some? || s.phase.Succeeded? || s.phase.Restored?
         || s.phase.Cancelled? || s.restored || s.activation.Some? then s
      else s.(restorer := Some(Checked))
    case RestoreStep => if s.restorer.Some? then RestorerStep(s) else s
    case RestorerDies => s.(restorer := None)
    case FailRead => HolderStarts(s, a)
    case CancelStart => HolderStarts(s, a)
    case HolderStep => if s.desk.holder.Some? then HolderMoves(s) else s
    case HolderDies => s.(desk := s.desk.(holder := None))
    case NoteRead => NoteStep(s, a)
    case NoteSave => NoteStep(s, a)
    case SupervisorDies => NoteStep(s, a)
    case _ => if a.r in s.runs then GatewayStep(s, a, a.r) else s
  }

  function Run(begin: Beginning, selected: set<Profile>, actions: seq<Action>): State {
    if actions == [] then Initial(begin)
    else Step(Run(begin, selected, actions[..|actions| - 1]), actions[|actions| - 1], selected)
  }

  // ---- the barrier: what holds in every run ----

  ghost predicate Authorized(past: History, id: Identity) {
    exists k :: 0 <= k < |past.records| && id.profile in past.records[k] && past.records[k][id.profile] == id
  }

  /** A record covers exactly the selected gateways, each by an identity that was verified. */
  predicate Covers(m: Record, verified: set<Identity>, selected: set<Profile>) {
    m.Keys == selected && forall p :: p in m ==> m[p].profile == p && m[p] in verified
  }

  ghost predicate RecordsOk(past: History, activation: Option<Record>, selected: set<Profile>) {
    && (activation == if past.records == [] then None else Some(past.records[|past.records| - 1]))
    && (forall k :: 0 <= k < |past.records| ==> Covers(past.records[k], past.verified, selected))
    && (forall id :: id in past.admitted ==> Authorized(past, id))
  }

  predicate IsCurrent(m: Record, v: Version) {
    forall p :: p in m ==> m[p].version == v
  }

  predicate Collecting(c: Coordinator, verified: set<Identity>, current: Version, selected: set<Profile>) {
    match c
    case Parking(_, todo, parked) =>
      todo <= selected && Covers(parked, verified, selected - todo) && IsCurrent(parked, current)
    case Announcing(parked) => Covers(parked, verified, selected) && IsCurrent(parked, current)
    case Authorizing(parked) => Covers(parked, verified, selected) && IsCurrent(parked, current)
    case _ => true
  }

  predicate RunOk(r: RunId, g: Gateway, current: Version, admitted: set<Identity>) {
    && (g.Leasing() ==> g.version == current)
    && (g.stage.Open? ==> Identity(g.profile, r, g.version) in admitted)
  }

  predicate RunsOk(runs: map<RunId, Gateway>, current: Version, admitted: set<Identity>) {
    forall r :: r in runs ==> RunOk(r, runs[r], current, admitted)
  }

  predicate CoordinatorsOk(coordinators: map<ProcessId, Coordinator>, verified: set<Identity>, current: Version,
                           selected: set<Profile>) {
    forall i :: i in coordinators ==> Collecting(coordinators[i], verified, current, selected)
  }

  ghost predicate Barrier(s: State, selected: set<Profile>) {
    && (s.Exclusive() ==> s.Unleased())
    && RunsOk(s.runs, s.Current(), s.past.admitted)
    && RecordsOk(s.past, s.activation, selected)
    && CoordinatorsOk(s.coordinators, s.past.verified, s.Current(), selected)
  }

  lemma RecordAdded(s: State, m: Record, selected: set<Profile>)
    requires RecordsOk(s.past, s.activation, selected) && Covers(m, s.past.verified, selected)
    ensures RecordsOk(s.past.(records := s.past.records + [m]), Some(m), selected)
  {
    var past := s.past.(records := s.past.records + [m]);
    forall id | id in past.admitted ensures Authorized(past, id) {
      var k :| 0 <= k < |s.past.records| && id.profile in s.past.records[k] && s.past.records[k][id.profile] == id;
      assert past.records[k] == s.past.records[k];
    }
  }

  /** Nothing the barrier speaks of differs. */
  predicate SameBarrier(s: State, t: State) {
    && s.runs == t.runs && s.restored == t.restored && (t.Exclusive() ==> s.Exclusive())
    && s.past == t.past && s.activation == t.activation && s.coordinators == t.coordinators
  }

  lemma SameKeepsBarrier(s: State, t: State, selected: set<Profile>)
    requires Barrier(s, selected) && SameBarrier(s, t)
    ensures Barrier(t, selected)
  {
  }

  lemma LeftKeepsBarrier(s: State, i: ProcessId, selected: set<Profile>)
    requires Barrier(s, selected)
    ensures Barrier(Left(s, i), selected)
  {
  }

  lemma AtKeepsBarrier(s: State, i: ProcessId, c: Coordinator, selected: set<Profile>)
    requires Barrier(s, selected) && !s.Exclusive() && Collecting(c, s.past.verified, s.Current(), selected)
    ensures Barrier(At(s, i, c), selected)
  {
  }

  lemma VerifiedKeepsBarrier(s: State, verified: set<Identity>, confirmed: set<Identity>, selected: set<Profile>)
    requires Barrier(s, selected) && s.past.verified <= verified
    ensures Barrier(s.(past := s.past.(verified := verified, confirmed := confirmed)), selected)
  {
    var past := s.past.(verified := verified, confirmed := confirmed);
    forall id | id in past.admitted ensures Authorized(past, id) {
      assert Authorized(s.past, id);
    }
    forall i | i in s.coordinators ensures Collecting(s.coordinators[i], verified, s.Current(), selected) {
      assert Collecting(s.coordinators[i], s.past.verified, s.Current(), selected);
    }
  }

  lemma AuthorizingKeepsBarrier(s: State, i: ProcessId, m: Record, selected: set<Profile>)
    requires Barrier(s, selected) && !s.Exclusive() && Covers(m, s.past.verified, selected)
    ensures Barrier(At(s, i, Confirming(selected)).(activation := Some(m), past := s.past.(records := s.past.records + [m])), selected)
  {
    RecordAdded(s, m, selected);
    AtKeepsBarrier(s, i, Confirming(selected), selected);
  }

  lemma ParkingKeepsBarrier(s: State, i: ProcessId, selected: set<Profile>, p: Profile, passes: bool)
    requires Barrier(s, selected) && i in s.coordinators && s.coordinators[i].Parking?
    ensures Barrier(ParkStep(s, i, s.coordinators[i], selected, p, passes), selected)
  {
    var c := s.coordinators[i];
    assert Collecting(c, s.past.verified, s.Current(), selected);
    if c.todo == {} {
      assert selected - {} == selected;
      AtKeepsBarrier(s, i, Announcing(c.parked), selected);
    } else if p in c.todo {
      if !passes || !Verifies(s, p, if c.resuming then None else Some(false)) {
        assert selected - selected == {};
        AtKeepsBarrier(s, i, Parking(c.resuming, selected, map[]), selected);
      } else {
        var verified := s.past.verified + {Observed(s, p)};
        VerifiedKeepsBarrier(s, verified, s.past.confirmed, selected);
        var t := s.(past := s.past.(verified := verified));
        assert (selected - c.todo) + {p} == selected - (c.todo - {p});
        AtKeepsBarrier(t, i, Parking(c.resuming, c.todo - {p}, c.parked[p := Observed(s, p)]), selected);
      }
    }
  }

  lemma ConfirmingKeepsBarrier(s: State, i: ProcessId, selected: set<Profile>, p: Profile, passes: bool)
    requires Barrier(s, selected) && i in s.coordinators && s.coordinators[i].Confirming?
    ensures Barrier(ConfirmStep(s, i, s.coordinators[i], selected, p, passes), selected)
  {
    var c := s.coordinators[i];
    AtKeepsBarrier(s, i, Finishing, selected);
    AtKeepsBarrier(s, i, Confirming(selected), selected);
    if Verifies(s, p, Some(true)) {
      AtKeepsBarrier(s, i, Confirming(c.todo - {p}), selected);
      VerifiedKeepsBarrier(At(s, i, Confirming(c.todo - {p})), s.past.verified, s.past.confirmed + {Observed(s, p)}, selected);
    }
  }

  /** One gateway's stage or version changes. */
  lemma StagingKeepsBarrier(s: State, r: RunId, g: Gateway, selected: set<Profile>)
    requires Barrier(s, selected) && (g.Leasing() ==> !s.Exclusive()) && RunOk(r, g, s.Current(), s.past.admitted)
    ensures Barrier(s.(runs := s.runs[r := g]), selected)
  {
  }

  lemma GrantingKeepsBarrier(s: State, i: ProcessId, todo: set<Profile>, selected: set<Profile>, p: Profile, r: RunId)
    requires Barrier(s, selected) && !s.Exclusive()
    ensures Barrier(GrantStep(s, i, todo, selected, p, r), selected)
  {
    assert selected - selected == {};
    AtKeepsBarrier(s, i, Parking(s.activation.Some?, selected, map[]), selected);
    LeftKeepsBarrier(s, i, selected);
    AtKeepsBarrier(s, i, Granting(todo - {p}), selected);
    StagingKeepsBarrier(At(s, i, Granting(todo - {p})), r, Gateway(p, s.Current(), Spawned), selected);
  }

  /** A step that only moves or removes its own process and touches fields outside the barrier. */
  lemma MovingKeepsBarrier(s: State, t: State, i: ProcessId, c: Coordinator, selected: set<Profile>)
    requires Barrier(s, selected) && !s.Exclusive() && Collecting(c, s.past.verified, s.Current(), selected)
    requires SameBarrier(At(s, i, c), t) || SameBarrier(Left(s, i), t)
    ensures Barrier(t, selected)
  {
    AtKeepsBarrier(s, i, c, selected);
    LeftKeepsBarrier(s, i, selected);
    if SameBarrier(At(s, i, c), t) { SameKeepsBarrier(At(s, i, c), t, selected); }
    else { SameKeepsBarrier(Left(s, i), t, selected); }
  }

  lemma EnteringKeepsBarrier(s: State, i: ProcessId, copy: Phase, selected: set<Profile>)
    requires Barrier(s, selected) && !s.Exclusive()
    ensures Barrier(Enter(s, i, copy), selected)
  {
    MovingKeepsBarrier(s, Enter(s, i, copy), i, if copy.Finalizing? then Releasing(false) else Inspecting, selected);
  }

  lemma OpeningKeepsBarrier(s: State, i: ProcessId, selected: set<Profile>, p: Profile, r: RunId, passes: bool)
    requires Barrier(s, selected) && !s.Exclusive() && i in s.coordinators
    requires s.coordinators[i].Reading? || s.coordinators[i].Inspecting? || s.coordinators[i].Advancing?
             || s.coordinators[i].Announcing?
    ensures Barrier(CoordinatorStep(s, i, selected, p, r, passes), selected)
  {
    var c := s.coordinators[i];
    var t := CoordinatorStep(s, i, selected, p, r, passes);
    assert Collecting(c, s.past.verified, s.Current(), selected);
    match c
    case Reading => MovingKeepsBarrier(s, t, i, Entering(s.phase), selected);
    case Inspecting => MovingKeepsBarrier(s, t, i, Advancing(set q | q in selected && !s.LiveRun(q)), selected);
    case Advancing(stopped) => MovingKeepsBarrier(s, t, i, Granting(stopped), selected);
    case Announcing(parked) => MovingKeepsBarrier(s, t, i, Authorizing(parked), selected);
  }

  lemma ClosingKeepsBarrier(s: State, i: ProcessId, selected: set<Profile>, p: Profile, r: RunId, passes: bool)
    requires Barrier(s, selected) && !s.Exclusive() && i in s.coordinators
    requires s.coordinators[i].Finishing? || s.coordinators[i].Releasing? || s.coordinators[i].Unmarking?
             || s.coordinators[i].Ending?
    ensures Barrier(CoordinatorStep(s, i, selected, p, r, passes), selected)
  {
    var t := CoordinatorStep(s, i, selected, p, r, passes);
    match s.coordinators[i]
    case Finishing => MovingKeepsBarrier(s, t, i, Releasing(true), selected);
    case Releasing(owner) => MovingKeepsBarrier(s, t, i, Unmarking(owner), selected);
    case Unmarking(_) => MovingKeepsBarrier(s, t, i, Ending, selected);
    case Ending => MovingKeepsBarrier(s, t, i, Ending, selected);
  }

  lemma CoordinatorKeepsBarrier(s: State, i: ProcessId, selected: set<Profile>, p: Profile, r: RunId, passes: bool)
    requires Barrier(s, selected) && i in s.coordinators
    ensures Barrier(CoordinatorStep(s, i, selected, p, r, passes), selected)
  {
    var c := s.coordinators[i];
    assert Collecting(c, s.past.verified, s.Current(), selected) && !s.Exclusive();
    match c
    case Entering(copy) => EnteringKeepsBarrier(s, i, copy, selected);
    case Granting(todo) => GrantingKeepsBarrier(s, i, todo, selected, p, r);
    case Parking(_, _, _) => ParkingKeepsBarrier(s, i, selected, p, passes);
    case Confirming(_) => ConfirmingKeepsBarrier(s, i, selected, p, passes);
    case Authorizing(parked) => AuthorizingKeepsBarrier(s, i, parked, selected);
    case Finishing => ClosingKeepsBarrier(s, i, selected, p, r, passes);
    case Releasing(_) => ClosingKeepsBarrier(s, i, selected, p, r, passes);
    case Unmarking(_) => ClosingKeepsBarrier(s, i, selected, p, r, passes);
    case Ending => ClosingKeepsBarrier(s, i, selected, p, r, passes);
    case _ => OpeningKeepsBarrier(s, i, selected, p, r, passes);
  }

  lemma AdmissionKeepsBarrier(s: State, id: Identity, selected: set<Profile>)
    requires Barrier(s, selected) && s.activation.Some?
    requires id.profile in s.activation.value && s.activation.value[id.profile] == id
    ensures Barrier(s.(past := s.past.(admitted := s.past.admitted + {id})), selected)
  {
    var past := s.past.(admitted := s.past.admitted + {id});
    assert s.past.records[|s.past.records| - 1] == s.activation.value;
    forall other | other in past.admitted ensures Authorized(past, other) {
      assert other != id ==> Authorized(s.past, other);
    }
    forall r | r in s.runs ensures RunOk(r, s.runs[r], s.Current(), past.admitted) {
      assert RunOk(r, s.runs[r], s.Current(), s.past.admitted);
    }
  }

  lemma GatewayKeepsBarrier(s: State, a: Action, r: RunId, selected: set<Profile>)
    requires Barrier(s, selected) && r in s.runs
    ensures Barrier(GatewayStep(s, a, r), selected)
  {
    var g := s.runs[r];
    assert g.Leasing() ==> !s.Exclusive();
    assert RunOk(r, g, s.Current(), s.past.admitted);
    StagingKeepsBarrier(s, r, g.(stage := Gone), selected);
    match a
    case Validate(_) =>
      if !s.Exclusive() { StagingKeepsBarrier(s, r, g.(version := s.Current(), stage := Validated), selected); }
    case Claim(_) =>
      if g.stage.Validated? {
        StagingKeepsBarrier(s, r, g.(stage := Parked), selected);
        SameKeepsBarrier(Staged(s, r, g, Parked), Staged(s, r, g, Parked).(receipts := s.receipts[g.profile := r]), selected);
      }
    case PollPhase(_) =>
      if g.stage.Parked? { StagingKeepsBarrier(s, r, g.(stage := SawPhase), selected); }
    case PollRecord(_) =>
      if g.stage.SawPhase? {
        StagingKeepsBarrier(s, r, g.(stage := Parked), selected);
        var own := Identity(g.profile, r, g.version);
        if s.activation.Some? && g.profile in s.activation.value && s.activation.value[g.profile] == own {
          AdmissionKeepsBarrier(s, own, selected);
          StagingKeepsBarrier(s.(past := s.past.(admitted := s.past.admitted + {own})), r, g.(stage := Open), selected);
        }
      }
    case _ =>
  }

  predicate OfGateway(a: Action) {
    a.Validate? || a.Claim? || a.PollPhase? || a.PollRecord? || a.Exit?
  }

  /** The handoff is recorded as over, or part of its fence is gone. */
  predicate Unfenced(s: State) {
    s.phase.Past() || !s.reserved || s.pending.None?
  }

  /** By a coordinator, and not by a cleanup or cancellation; or supervise has read that it is over. */
  predicate Lifted(s: State) {
    || s.phase.Past() || (s.desk.note.Some? && s.desk.note.value.phase.Past())
    || (!s.desk.withdrawn && (!s.reserved || s.pending.None?))
  }

  /** What a restorer's step may change: the program on disk only while nothing that depends on it runs. */
  predicate Rewound(s: State, t: State) {
    && t.runs == s.runs && t.coordinators == s.coordinators && t.past == s.past && t.activation == s.activation
    && (t.restored != s.restored ==> s.restorer == Some(Checked) && s.Unleased())
    && (t.Exclusive() ==> s.Exclusive() || s.Unleased())
    && (Lifted(t) ==> Lifted(s))
  }

  lemma RestorerRewinds(s: State)
    requires s.restorer.Some?
    ensures Rewound(s, RestorerStep(s))
  {
    match s.restorer.value
    case Checked =>
    case Reserving =>
    case Marking =>
    case Rewinding =>
  }

  lemma RewindingKeepsBarrier(s: State, t: State, selected: set<Profile>)
    requires Barrier(s, selected) && Rewound(s, t)
    ensures Barrier(t, selected)
  {
    forall r | r in s.runs ensures RunOk(r, s.runs[r], t.Current(), s.past.admitted) {
      assert RunOk(r, s.runs[r], s.Current(), s.past.admitted);
    }
    if t.restored != s.restored { assert s.coordinators == map[]; }
  }

  predicate OfHolder(a: Action) {
    a.FailRead? || a.CancelStart? || a.HolderStep? || a.HolderDies?
  }

  /** Only the phase, the fences and the leases differ, and the fence falls only after confirmation. */
  predicate Eased(s: State, t: State) {
    && s.restored == t.restored && s.past.records == t.past.records && s.past.confirmed == t.past.confirmed
    && s.activation == t.activation && s.coordinators == t.coordinators
  }

  /** One of the fences is taken away, or a final phase recorded. */
  predicate Lifts(s: State, t: State) {
    (s.reserved && !t.reserved) || (s.pending.Some? && t.pending.None?) || (t.phase.Past() && !s.phase.Past())
  }

  /** The failure handler's cleanup, or cancel_job, at a fence that still stands. */
  predicate Withdraws(s: State, a: Action) {
    && a.HolderStep? && s.desk.holder.Some?
    && (((s.desk.holder.value.ClearUnmarking? || s.desk.holder.value.CancelUnmarking?) && s.pending.Some?)
        || ((s.desk.holder.value.ClearUnreserving? || s.desk.holder.value.CancelUnreserving?) && s.reserved))
  }

  /** What a holder of worker.lock does to the rest. */
  predicate HolderChanges(s: State, t: State, withdraws: bool) {
    && t.runs == s.runs && t.receipts == s.receipts && t.past == s.past && t.restorer == s.restorer && Eased(s, t)
    && t.desk.note == s.desk.note && (t.pending == s.pending || t.pending.None?) && (t.reserved ==> s.reserved)
    && (t.phase.Past() ==> s.phase.Past())
    && (Lifted(t) ==> Lifted(s)) && (Lifts(s, t) <==> withdraws) && t.desk.withdrawn == (s.desk.withdrawn || withdraws)
  }

  lemma MarkerChanges(s: State, next: Holder)
    ensures HolderChanges(s, TakeMarker(s, next), s.pending.Some?)
  {
  }

  lemma ReservationChanges(s: State, next: Option<Holder>)
    ensures HolderChanges(s, TakeReservation(s, next), s.reserved)
  {
  }

  lemma SavingChanges(s: State)
    requires s.desk.holder.Some?
    requires var h := s.desk.holder.value; h.FailSaving? || h.ClearSeeking? || h.CancelPublishing?
    ensures HolderChanges(s, HolderMoves(s), false)
  {
  }

  lemma HolderMovesChange(s: State)
    requires s.desk.holder.Some?
    ensures HolderChanges(s, HolderMoves(s), Withdraws(s, HolderStep))
  {
    match s.desk.holder.value
    case FailSaving(_) => SavingChanges(s);
    case ClearSeeking => SavingChanges(s);
    case ClearUnmarking => MarkerChanges(s, ClearUnreserving);
    case ClearUnreserving => ReservationChanges(s, None);
    case CancelUnmarking => MarkerChanges(s, CancelUnreserving);
    case CancelUnreserving => ReservationChanges(s, Some(CancelPublishing));
    case CancelPublishing => SavingChanges(s);
  }

  /** Only a holder that has found no lease held enters its own. */
  lemma HolderLeases(s: State)
    requires s.desk.holder.Some?
    ensures HolderMoves(s).Exclusive() ==> s.Exclusive() || s.Unleased()
    ensures var h := HolderMoves(s).desk.holder; h.Some? && h.value.Leased() ==> s.desk.holder.value.Leased() || s.Unleased()
    ensures HolderMoves(s).reserved != s.reserved ==> s.desk.holder.value.Leased()
  {
    match s.desk.holder.value
    case FailSaving(_) =>
    case ClearSeeking =>
    case ClearUnmarking =>
    case ClearUnreserving =>
    case CancelUnmarking =>
    case CancelUnreserving =>
    case CancelPublishing =>
  }

  /** A holder takes its leases only where none is held, and touches nothing the barrier speaks of. */
  predicate Aside(s: State, t: State) {
    && t.runs == s.runs && t.coordinators == s.coordinators && t.activation == s.activation && t.restored == s.restored
    && t.past == s.past
    && (t.Exclusive() ==> s.Exclusive() || s.Unleased())
  }

  lemma AsideKeepsBarrier(s: State, t: State, selected: set<Profile>)
    requires Barrier(s, selected) && Aside(s, t)
    ensures Barrier(t, selected)
  {
  }

  predicate OfNote(a: Action) {
    a.NoteRead? || a.NoteSave? || a.SupervisorDies?
  }

  /** Everything but the gateways', the coordinators' and the restorer's own steps. */
  predicate Besides(a: Action) {
    OfHolder(a) || OfNote(a) || a.RestoreCheck? || a.RestorerDies?
  }

  lemma HolderStaysAside(s: State, a: Action)
    requires OfHolder(a) && !a.HolderStep?
    ensures Aside(s, Step(s, a, {}))
  {
  }

  lemma NoteSavingStaysAside(s: State)
    requires s.desk.note.Some?
    ensures Aside(s, NoteStep(s, NoteSave))
  {
  }

  lemma CheckStaysAside(s: State)
    ensures Aside(s, Step(s, RestoreCheck, {}))
  {
  }

  lemma NoteStaysAside(s: State, a: Action)
    requires OfNote(a) || a.RestoreCheck? || a.RestorerDies?
    ensures Aside(s, Step(s, a, {}))
  {
    match a
    case RestoreCheck => CheckStaysAside(s);
    case NoteRead =>
    case NoteSave => if s.desk.note.Some? { NoteSavingStaysAside(s); }
    case SupervisorDies =>
    case RestorerDies =>
  }

  lemma BesidesKeepBarrier(s: State, a: Action, selected: set<Profile>)
    requires Barrier(s, selected) && Besides(a)
    ensures Barrier(Step(s, a, selected), selected)
  {
    if a.HolderStep? {
      if s.desk.holder.Some? {
        HolderMovesChange(s);
        HolderLeases(s);
      }
    } else if OfHolder(a) {
      HolderStaysAside(s, a);
    } else {
      NoteStaysAside(s, a);
    }
    AsideKeepsBarrier(s, Step(s, a, selected), selected);
  }

  lemma StepKeepsBarrier(s: State, a: Action, selected: set<Profile>)
    requires Barrier(s, selected)
    ensures Barrier(Step(s, a, selected), selected)
  {
    if OfGateway(a) {
      if a.r in s.runs { GatewayKeepsBarrier(s, a, a.r, selected); }
    } else if a.Coordinate? {
      if a.i in s.coordinators { CoordinatorKeepsBarrier(s, a.i, selected, a.p, a.r, a.passes); }
    } else if a.RestoreStep? {
      if s.restorer.Some? {
        RestorerRewinds(s);
        RewindingKeepsBarrier(s, RestorerStep(s), selected);
      }
    } else if a.Start? {
      if s.restorer.None? && s.desk.holder.None? { AtKeepsBarrier(s, a.i, Reading, selected); }
    } else if a.CoordinatorDies? {
      LeftKeepsBarrier(s, a.i, selected);
    } else {
      BesidesKeepBarrier(s, a, selected);
    }
  }

  lemma {:induction false} EveryRunKeepsBarrier(begin: Beginning, selected: set<Profile>, actions: seq<Action>)
    ensures Barrier(Run(begin, selected, actions), selected)
  {
    if actions != [] {
      EveryRunKeepsBarrier(begin, selected, actions[..|actions| - 1]);
      StepKeepsBarrier(Run(begin, selected, actions[..|actions| - 1]), actions[|actions| - 1], selected);
    }
  }

  /**
   In every run: a gateway only ever opened intake under a record naming its exact profile, run and
   version, and that record named every selected gateway by an identity verified under this job.
   */
  lemma IntakeOpensUnderItsRecord(begin: Beginning, selected: set<Profile>, actions: seq<Action>, id: Identity) returns (k: nat)
    requires id in Run(begin, selected, actions).past.admitted
    ensures var past := Run(begin, selected, actions).past;
            && k < |past.records| && id.profile in past.records[k] && past.records[k][id.profile] == id
            && Covers(past.records[k], past.verified, selected)
  {
    EveryRunKeepsBarrier(begin, selected, actions);
    var past := Run(begin, selected, actions).past;
    assert Authorized(past, id);
    k :| 0 <= k < |past.records| && id.profile in past.records[k] && past.records[k][id.profile] == id;
  }

  /** Every gateway with open intake is among those. */
  lemma OpenGatewaysWereAdmitted(begin: Beginning, selected: set<Profile>, actions: seq<Action>, r: RunId)
    requires var s := Run(begin, selected, actions); r in s.runs && s.runs[r].stage.Open?
    ensures var s := Run(begin, selected, actions); Identity(s.runs[r].profile, r, s.runs[r].version) in s.past.admitted
  {
    EveryRunKeepsBarrier(begin, selected, actions);
    var s := Run(begin, selected, actions);
    assert RunOk(r, s.runs[r], s.Current(), s.past.admitted);
  }

  // ---- what also holds while no restoration finds an activation under its leases ----

  /** The window between restore_service's activation check and its exclusive leases. */
  predicate Late(s: State, a: Action) {
    Restoring(s, a) && s.activation.Some?
  }

  ghost predicate Confirmed(confirmed: set<Identity>, version: Version, profiles: set<Profile>) {
    forall p :: p in profiles ==> exists id :: id in confirmed && id.profile == p && id.version == version
  }

  ghost predicate Closing(c: Coordinator, confirmed: set<Identity>, version: Version, activated: bool, selected: set<Profile>) {
    && (c.Confirming? ==> activated && Confirmed(confirmed, version, selected - c.todo))
    && (c.Committed() ==> activated && Confirmed(confirmed, version, selected))
  }

  ghost predicate ClosingsOk(coordinators: map<ProcessId, Coordinator>, confirmed: set<Identity>, version: Version,
                             activated: bool, selected: set<Profile>) {
    forall i :: i in coordinators ==> Closing(coordinators[i], confirmed, version, activated, selected)
  }

  predicate RecordsCurrent(past: History, v: Version) {
    forall k :: 0 <= k < |past.records| ==> IsCurrent(past.records[k], v)
  }

  ghost predicate Settled(s: State, selected: set<Profile>) {
    && RecordsCurrent(s.past, s.Current())
    && ClosingsOk(s.coordinators, s.past.confirmed, s.Current(), s.activation.Some?, selected)
    && (Lifted(s) ==> s.activation.Some? && Confirmed(s.past.confirmed, s.Current(), selected))
  }

  lemma LeftKeepsSettled(s: State, i: ProcessId, selected: set<Profile>)
    requires Settled(s, selected)
    ensures Settled(Left(s, i), selected)
  {
  }

  lemma AtKeepsSettled(s: State, i: ProcessId, c: Coordinator, selected: set<Profile>)
    requires Settled(s, selected) && Closing(c, s.past.confirmed, s.Current(), s.activation.Some?, selected)
    ensures Settled(At(s, i, c), selected)
  {
  }

  lemma EasingKeepsSettled(s: State, t: State, selected: set<Profile>)
    requires Settled(s, selected) && Eased(s, t)
    requires Lifted(t) && !Lifted(s) ==> s.activation.Some? && Confirmed(s.past.confirmed, s.Current(), selected)
    ensures Settled(t, selected)
  {
  }

  lemma ConfirmedGrows(confirmed: set<Identity>, version: Version, selected: set<Profile>, todo: set<Profile>, id: Identity)
    requires Confirmed(confirmed, version, selected - todo) && id.version == version
    ensures Confirmed(confirmed + {id}, version, selected - (todo - {id.profile}))
  {
    forall p | p in selected - (todo - {id.profile})
      ensures exists other :: other in confirmed + {id} && other.profile == p && other.version == version
    {
      if p == id.profile {
        assert id in confirmed + {id};
      } else {
        assert p in selected - todo;
        var other :| other in confirmed && other.profile == p && other.version == version;
        assert other in confirmed + {id};
      }
    }
  }

  lemma ClosingGrows(c: Coordinator, confirmed: set<Identity>, version: Version, activated: bool, selected: set<Profile>, id: Identity)
    requires Closing(c, confirmed, version, activated, selected) && id.version == version
    ensures Closing(c, confirmed + {id}, version, activated, selected)
  {
    if c.Confirming? {
      ConfirmedGrows(confirmed, version, selected, c.todo, id);
      forall p | p in selected - c.todo
        ensures exists other :: other in confirmed + {id} && other.profile == p && other.version == version
      {
        assert p in selected - (c.todo - {id.profile});
      }
    }
    if c.Committed() {
      ConfirmedGrows(confirmed, version, selected, {}, id);
      assert selected - {} == selected && selected - ({} - {id.profile}) == selected;
    }
  }

  lemma ConfirmationKeepsSettled(s: State, id: Identity, selected: set<Profile>)
    requires Settled(s, selected) && id.version == s.Current()
    ensures Settled(s.(past := s.past.(confirmed := s.past.confirmed + {id})), selected)
  {
    forall i | i in s.coordinators
      ensures Closing(s.coordinators[i], s.past.confirmed + {id}, s.Current(), s.activation.Some?, selected)
    {
      ClosingGrows(s.coordinators[i], s.past.confirmed, s.Current(), s.activation.Some?, selected, id);
    }
    if Lifted(s) {
      ConfirmedGrows(s.past.confirmed, s.Current(), selected, {}, id);
      assert selected - {} == selected && selected - ({} - {id.profile}) == selected;
    }
  }

  lemma ConfirmingKeepsSettled(s: State, i: ProcessId, selected: set<Profile>, p: Profile, passes: bool)
    requires Settled(s, selected) && i in s.coordinators && s.coordinators[i].Confirming?
    ensures Settled(ConfirmStep(s, i, s.coordinators[i], selected, p, passes), selected)
  {
    var c := s.coordinators[i];
    assert Closing(c, s.past.confirmed, s.Current(), s.activation.Some?, selected);
    if c.todo == {} {
      assert selected - {} == selected;
      AtKeepsSettled(s, i, Finishing, selected);
    } else if p in c.todo {
      if !passes || !Verifies(s, p, Some(true)) {
        assert selected - selected == {};
        AtKeepsSettled(s, i, Confirming(selected), selected);
      } else {
        var id := Observed(s, p);
        ConfirmationKeepsSettled(s, id, selected);
        ConfirmedGrows(s.past.confirmed, s.Current(), selected, c.todo, id);
        AtKeepsSettled(s.(past := s.past.(confirmed := s.past.confirmed + {id})), i, Confirming(c.todo - {p}), selected);
      }
    }
  }

  lemma AuthorizingKeepsSettled(s: State, i: ProcessId, m: Record, selected: set<Profile>)
    requires Settled(s, selected) && IsCurrent(m, s.Current())
    ensures Settled(At(s, i, Confirming(selected)).(activation := Some(m), past := s.past.(records := s.past.records + [m])), selected)
  {
    assert selected - selected == {};
    forall j | j in s.coordinators
      ensures Closing(s.coordinators[j], s.past.confirmed, s.Current(), true, selected)
    {
      assert Closing(s.coordinators[j], s.past.confirmed, s.Current(), s.activation.Some?, selected);
    }
  }

  /** The stages that neither confirm nor authorize. */
  lemma MovingKeepsSettled(s: State, i: ProcessId, c: Coordinator, t: State, selected: set<Profile>)
    requires Settled(s, selected) && Closing(c, s.past.confirmed, s.Current(), s.activation.Some?, selected)
    requires Eased(At(s, i, c), t) || Eased(Left(s, i), t)
    requires Lifted(t) && !Lifted(s) ==> s.activation.Some? && Confirmed(s.past.confirmed, s.Current(), selected)
    ensures Settled(t, selected)
  {
    if Eased(At(s, i, c), t) {
      AtKeepsSettled(s, i, c, selected);
      EasingKeepsSettled(At(s, i, c), t, selected);
    } else {
      LeftKeepsSettled(s, i, selected);
      EasingKeepsSettled(Left(s, i), t, selected);
    }
  }

  lemma OpeningKeepsSettled(s: State, i: ProcessId, selected: set<Profile>, p: Profile, r: RunId, passes: bool)
    requires Settled(s, selected) && i in s.coordinators
    requires var c := s.coordinators[i]; c.Reading? || c.Inspecting? || c.Advancing? || c.Announcing?
    ensures Settled(CoordinatorStep(s, i, selected, p, r, passes), selected)
  {
    var c := s.coordinators[i];
    var t := CoordinatorStep(s, i, selected, p, r, passes);
    match c
    case Reading => MovingKeepsSettled(s, i, Entering(s.phase), t, selected);
    case Inspecting => MovingKeepsSettled(s, i, Advancing(set q | q in selected && !s.LiveRun(q)), t, selected);
    case Advancing(stopped) => MovingKeepsSettled(s, i, Granting(stopped), t, selected);
    case Announcing(parked) => MovingKeepsSettled(s, i, Authorizing(parked), t, selected);
  }

  lemma ParkingMoves(s: State, i: ProcessId, c: Coordinator, selected: set<Profile>, p: Profile, passes: bool)
    requires c.Parking? && p in c.todo && c.todo != {}
    ensures var t := ParkStep(s, i, c, selected, p, passes);
            && i in t.coordinators && t.coordinators[i].Parking? && Eased(At(s, i, t.coordinators[i]), t)
            && (Lifted(t) ==> Lifted(s))
  {
  }

  lemma ParkingKeepsSettled(s: State, i: ProcessId, selected: set<Profile>, p: Profile, passes: bool)
    requires Settled(s, selected) && i in s.coordinators && s.coordinators[i].Parking?
    ensures Settled(ParkStep(s, i, s.coordinators[i], selected, p, passes), selected)
  {
    var c := s.coordinators[i];
    var t := ParkStep(s, i, c, selected, p, passes);
    if c.todo == {} {
      AtKeepsSettled(s, i, Announcing(c.parked), selected);
    } else if p in c.todo {
      ParkingMoves(s, i, c, selected, p, passes);
      MovingKeepsSettled(s, i, t.coordinators[i], t, selected);
    }
  }

  lemma GrantingKeepsSettled(s: State, i: ProcessId, todo: set<Profile>, selected: set<Profile>, p: Profile, r: RunId)
    requires Settled(s, selected)
    ensures Settled(GrantStep(s, i, todo, selected, p, r), selected)
  {
    var t := GrantStep(s, i, todo, selected, p, r);
    if todo == {} { MovingKeepsSettled(s, i, Parking(s.activation.Some?, selected, map[]), t, selected); }
    else if p in todo && r !in s.runs { MovingKeepsSettled(s, i, Granting(todo - {p}), t, selected); }
  }

  lemma EnteringKeepsSettled(s: State, i: ProcessId, copy: Phase, selected: set<Profile>)
    requires Settled(s, selected) && Closing(Entering(copy), s.past.confirmed, s.Current(), s.activation.Some?, selected)
    ensures Settled(Enter(s, i, copy), selected)
  {
    var c := if copy.Finalizing? then Releasing(false) else Inspecting;
    assert Closing(c, s.past.confirmed, s.Current(), s.activation.Some?, selected);
    MovingKeepsSettled(s, i, c, Enter(s, i, copy), selected);
  }

  lemma ClosingKeepsSettled(s: State, i: ProcessId, selected: set<Profile>, p: Profile, r: RunId, passes: bool)
    requires Settled(s, selected) && i in s.coordinators
    requires var c := s.coordinators[i]; c.Finishing? || c.Releasing? || c.Unmarking? || c.Ending?
    ensures Settled(CoordinatorStep(s, i, selected, p, r, passes), selected)
  {
    var t := CoordinatorStep(s, i, selected, p, r, passes);
    var c := s.coordinators[i];
    assert Closing(c, s.past.confirmed, s.Current(), s.activation.Some?, selected);
    match c
    case Finishing => MovingKeepsSettled(s, i, Releasing(true), t, selected);
    case Releasing(owner) => MovingKeepsSettled(s, i, Unmarking(owner), t, selected);
    case Unmarking(_) => MovingKeepsSettled(s, i, Ending, t, selected);
    case Ending => MovingKeepsSettled(s, i, Ending, t, selected);
  }

  lemma CoordinatorKeepsSettled(s: State, i: ProcessId, selected: set<Profile>, p: Profile, r: RunId, passes: bool)
    requires Barrier(s, selected) && Settled(s, selected) && i in s.coordinators
    ensures Settled(CoordinatorStep(s, i, selected, p, r, passes), selected)
  {
    var c := s.coordinators[i];
    assert Collecting(c, s.past.verified, s.Current(), selected);
    assert Closing(c, s.past.confirmed, s.Current(), s.activation.Some?, selected);
    match c
    case Entering(copy) => EnteringKeepsSettled(s, i, copy, selected);
    case Granting(todo) => GrantingKeepsSettled(s, i, todo, selected, p, r);
    case Parking(_, _, _) => ParkingKeepsSettled(s, i, selected, p, passes);
    case Confirming(_) => ConfirmingKeepsSettled(s, i, selected, p, passes);
    case Authorizing(parked) => AuthorizingKeepsSettled(s, i, parked, selected);
    case Finishing => ClosingKeepsSettled(s, i, selected, p, r, passes);
    case Releasing(_) => ClosingKeepsSettled(s, i, selected, p, r, passes);
    case Unmarking(_) => ClosingKeepsSettled(s, i, selected, p, r, passes);
    case Ending => ClosingKeepsSettled(s, i, selected, p, r, passes);
    case _ => OpeningKeepsSettled(s, i, selected, p, r, passes);
  }

  /** With no activation there is nothing committed to undo. */
  lemma RewindingKeepsSettled(s: State, t: State, selected: set<Profile>)
    requires Barrier(s, selected) && Settled(s, selected) && Rewound(s, t)
    requires t.restored != s.restored ==> s.activation.None?
    ensures Settled(t, selected)
  {
    if t.restored == s.restored {
      EasingKeepsSettled(s, t, selected);
    } else {
      assert s.past.records == [] && s.coordinators == map[];
    }
  }

  predicate SameFences(s: State, t: State) {
    s.phase == t.phase && s.reserved == t.reserved && s.pending == t.pending && s.desk == t.desk
  }

  lemma AdmissionEases(s: State, a: Action, r: RunId)
    requires r in s.runs && a.PollRecord?
    ensures Eased(s, GatewayStep(s, a, r)) && SameFences(s, GatewayStep(s, a, r))
  {
  }

  lemma ValidationEases(s: State, a: Action, r: RunId)
    requires r in s.runs && a.Validate?
    ensures Eased(s, GatewayStep(s, a, r)) && SameFences(s, GatewayStep(s, a, r))
  {
  }

  lemma ClaimEases(s: State, a: Action, r: RunId)
    requires r in s.runs && a.Claim?
    ensures Eased(s, GatewayStep(s, a, r)) && SameFences(s, GatewayStep(s, a, r))
  {
  }

  lemma GatewayEases(s: State, a: Action, r: RunId)
    requires r in s.runs
    ensures Eased(s, GatewayStep(s, a, r)) && SameFences(s, GatewayStep(s, a, r))
  {
    if a.PollRecord? { AdmissionEases(s, a, r); }
    else if a.Validate? { ValidationEases(s, a, r); }
    else if a.Claim? { ClaimEases(s, a, r); }
  }

  lemma GatewayKeepsSettled(s: State, a: Action, r: RunId, selected: set<Profile>)
    requires Settled(s, selected) && r in s.runs
    ensures Settled(GatewayStep(s, a, r), selected)
  {
    GatewayEases(s, a, r);
    EasingKeepsSettled(s, GatewayStep(s, a, r), selected);
  }

  lemma NoteSavingLiftsNothing(s: State)
    requires s.desk.note.Some?
    ensures Eased(s, NoteStep(s, NoteSave)) && (Lifted(NoteStep(s, NoteSave)) ==> Lifted(s))
  {
  }

  lemma NoteLiftsNothing(s: State, a: Action)
    requires OfNote(a) || a.RestoreCheck? || a.RestorerDies?
    ensures Eased(s, Step(s, a, {})) && (Lifted(Step(s, a, {})) ==> Lifted(s))
  {
    match a
    case RestoreCheck => CheckLiftsNothing(s);
    case NoteRead =>
    case NoteSave => if s.desk.note.Some? { NoteSavingLiftsNothing(s); }
    case SupervisorDies =>
    case RestorerDies =>
  }

  lemma CheckLiftsNothing(s: State)
    ensures var t := Step(s, RestoreCheck, {}); Eased(s, t) && (Lifted(t) ==> Lifted(s))
  {
  }

  lemma HolderStartLiftsNothing(s: State, a: Action)
    requires OfHolder(a) && !a.HolderStep?
    ensures Eased(s, Step(s, a, {})) && (Lifted(Step(s, a, {})) ==> Lifted(s))
  {
  }

  /** What a cleanup or cancellation takes away is no longer counted, and a note repeats what was recorded. */
  lemma BesidesLiftNothing(s: State, a: Action, selected: set<Profile>)
    requires Besides(a)
    ensures Eased(s, Step(s, a, selected)) && (Lifted(Step(s, a, selected)) ==> Lifted(s))
  {
    if a.HolderStep? { if s.desk.holder.Some? { HolderMovesChange(s); } }
    else if OfHolder(a) { HolderStartLiftsNothing(s, a); }
    else { NoteLiftsNothing(s, a); }
  }

  lemma StepKeepsSettled(s: State, a: Action, selected: set<Profile>)
    requires Barrier(s, selected) && Settled(s, selected) && !Late(s, a)
    ensures Settled(Step(s, a, selected), selected)
  {
    if OfGateway(a) {
      if a.r in s.runs { GatewayKeepsSettled(s, a, a.r, selected); }
    } else if a.Coordinate? {
      if a.i in s.coordinators { CoordinatorKeepsSettled(s, a.i, selected, a.p, a.r, a.passes); }
    } else if a.RestoreStep? {
      if s.restorer.Some? {
        RestorerRewinds(s);
        RewindingKeepsSettled(s, RestorerStep(s), selected);
      }
    } else if a.Start? {
      AtKeepsSettled(s, a.i, Reading, selected);
    } else if a.CoordinatorDies? {
      LeftKeepsSettled(s, a.i, selected);
    } else {
      BesidesLiftNothing(s, a, selected);
      EasingKeepsSettled(s, Step(s, a, selected), selected);
    }
  }

  // ---- what holds however late a restoration comes ----

  ghost predicate Everyone(confirmed: set<Identity>, selected: set<Profile>) {
    exists v :: Confirmed(confirmed, v, selected)
  }

  /** A confirming process counts at the version on disk; a committed one has counted everyone at one version. */
  ghost predicate Backed(c: Coordinator, confirmed: set<Identity>, current: Version, selected: set<Profile>) {
    && (c.Confirming? ==> Confirmed(confirmed, current, selected - c.todo))
    && (c.Committed() ==> Everyone(confirmed, selected))
  }

  ghost predicate Anchored(s: State, selected: set<Profile>) {
    && (forall i :: i in s.coordinators ==> Backed(s.coordinators[i], s.past.confirmed, s.Current(), selected))
    && (Lifted(s) ==> Everyone(s.past.confirmed, selected))
  }

  /** Any step that moves or removes one process and confirms nothing. */
  lemma MovingKeepsAnchored(s: State, i: ProcessId, c: Coordinator, t: State, selected: set<Profile>)
    requires Anchored(s, selected) && Backed(c, s.past.confirmed, s.Current(), selected)
    requires t.coordinators == At(s, i, c).coordinators || t.coordinators == Left(s, i).coordinators
    requires t.restored == s.restored && t.past.confirmed == s.past.confirmed
    requires Lifted(t) && !Lifted(s) ==> Everyone(s.past.confirmed, selected)
    ensures Anchored(t, selected)
  {
  }

  lemma EveryoneGrows(confirmed: set<Identity>, id: Identity, selected: set<Profile>)
    requires Everyone(confirmed, selected)
    ensures Everyone(confirmed + {id}, selected)
  {
    var v :| Confirmed(confirmed, v, selected);
    forall p | p in selected ensures exists other :: other in confirmed + {id} && other.profile == p && other.version == v {
      var other :| other in confirmed && other.profile == p && other.version == v;
      assert other in confirmed + {id};
    }
    assert Confirmed(confirmed + {id}, v, selected);
  }

  lemma BackedGrows(c: Coordinator, confirmed: set<Identity>, current: Version, id: Identity, selected: set<Profile>)
    requires Backed(c, confirmed, current, selected) && id.version == current
    ensures Backed(c, confirmed + {id}, current, selected)
  {
    if c.Committed() { EveryoneGrows(confirmed, id, selected); }
    if c.Confirming? {
      forall p | p in selected - c.todo
        ensures exists other :: other in confirmed + {id} && other.profile == p && other.version == current
      {
        var other :| other in confirmed && other.profile == p && other.version == current;
        assert other in confirmed + {id};
      }
    }
  }

  lemma ConfirmationKeepsAnchored(s: State, id: Identity, selected: set<Profile>)
    requires Anchored(s, selected) && id.version == s.Current()
    ensures Anchored(s.(past := s.past.(confirmed := s.past.confirmed + {id})), selected)
  {
    forall i | i in s.coordinators ensures Backed(s.coordinators[i], s.past.confirmed + {id}, s.Current(), selected) {
      BackedGrows(s.coordinators[i], s.past.confirmed, s.Current(), id, selected);
    }
    if Lifted(s) { EveryoneGrows(s.past.confirmed, id, selected); }
  }

  lemma ConfirmingKeepsAnchored(s: State, i: ProcessId, selected: set<Profile>, p: Profile, passes: bool)
    requires Anchored(s, selected) && i in s.coordinators && s.coordinators[i].Confirming?
    ensures Anchored(ConfirmStep(s, i, s.coordinators[i], selected, p, passes), selected)
  {
    var c := s.coordinators[i];
    var t := ConfirmStep(s, i, c, selected, p, passes);
    assert Backed(c, s.past.confirmed, s.Current(), selected);
    if c.todo == {} {
      assert selected - {} == selected;
      MovingKeepsAnchored(s, i, Finishing, t, selected);
    } else if p in c.todo {
      if !passes || !Verifies(s, p, Some(true)) {
        assert selected - selected == {};
        MovingKeepsAnchored(s, i, Confirming(selected), t, selected);
      } else {
        var id := Observed(s, p);
        ConfirmationKeepsAnchored(s, id, selected);
        ConfirmedGrows(s.past.confirmed, s.Current(), selected, c.todo, id);
        MovingKeepsAnchored(s.(past := t.past), i, Confirming(c.todo - {p}), t, selected);
      }
    }
  }

  lemma ParkingKeepsAnchored(s: State, i: ProcessId, selected: set<Profile>, p: Profile, passes: bool)
    requires Anchored(s, selected) && i in s.coordinators && s.coordinators[i].Parking?
    ensures Anchored(ParkStep(s, i, s.coordinators[i], selected, p, passes), selected)
  {
    var c := s.coordinators[i];
    var t := ParkStep(s, i, c, selected, p, passes);
    if c.todo == {} || p in c.todo { MovingKeepsAnchored(s, i, t.coordinators[i], t, selected); }
  }

  lemma GrantingKeepsAnchored(s: State, i: ProcessId, todo: set<Profile>, selected: set<Profile>, p: Profile, r: RunId)
    requires Anchored(s, selected)
    ensures Anchored(GrantStep(s, i, todo, selected, p, r), selected)
  {
    var t := GrantStep(s, i, todo, selected, p, r);
    if todo == {} { MovingKeepsAnchored(s, i, Parking(s.activation.Some?, selected, map[]), t, selected); }
    else if p in todo && r !in s.runs { MovingKeepsAnchored(s, i, Granting(todo - {p}), t, selected); }
  }

  lemma OpeningKeepsAnchored(s: State, i: ProcessId, selected: set<Profile>, p: Profile, r: RunId, passes: bool)
    requires Anchored(s, selected) && i in s.coordinators
    requires var c := s.coordinators[i];
             c.Reading? || c.Inspecting? || c.Advancing? || c.Announcing? || c.Authorizing?
    ensures Anchored(CoordinatorStep(s, i, selected, p, r, passes), selected)
  {
    var c := s.coordinators[i];
    var t := CoordinatorStep(s, i, selected, p, r, passes);
    assert Backed(c, s.past.confirmed, s.Current(), selected);
    assert selected - selected == {};
    match c
    case Reading => MovingKeepsAnchored(s, i, Entering(s.phase), t, selected);
    case Inspecting => MovingKeepsAnchored(s, i, Advancing(set q | q in selected && !s.LiveRun(q)), t, selected);
    case Advancing(stopped) => MovingKeepsAnchored(s, i, Granting(stopped), t, selected);
    case Announcing(parked) => MovingKeepsAnchored(s, i, Authorizing(parked), t, selected);
    case Authorizing(_) => MovingKeepsAnchored(s, i, Confirming(selected), t, selected);
  }

  lemma EnteringMoves(s: State, i: ProcessId, copy: Phase)
    ensures Enter(s, i, copy) == Left(s, i)
         || Enter(s, i, copy) == At(s, i, if copy.Finalizing? then Releasing(false) else Inspecting).(maintenance := Some(i))
  {
  }

  lemma EnteringKeepsAnchored(s: State, i: ProcessId, copy: Phase, selected: set<Profile>)
    requires Anchored(s, selected) && Backed(Entering(copy), s.past.confirmed, s.Current(), selected)
    ensures Anchored(Enter(s, i, copy), selected)
  {
    var c, t := if copy.Finalizing? then Releasing(false) else Inspecting, Enter(s, i, copy);
    EnteringMoves(s, i, copy);
    if t == Left(s, i) { MovingKeepsAnchored(s, i, c, Left(s, i), selected); }
    else { MovingKeepsAnchored(s, i, c, At(s, i, c).(maintenance := Some(i)), selected); }
  }

  lemma ClosingKeepsAnchored(s: State, i: ProcessId, selected: set<Profile>, p: Profile, r: RunId, passes: bool)
    requires Anchored(s, selected) && i in s.coordinators
    requires var c := s.coordinators[i]; c.Finishing? || c.Releasing? || c.Unmarking? || c.Ending?
    ensures Anchored(CoordinatorStep(s, i, selected, p, r, passes), selected)
  {
    var t := CoordinatorStep(s, i, selected, p, r, passes);
    assert Backed(s.coordinators[i], s.past.confirmed, s.Current(), selected);
    match s.coordinators[i]
    case Finishing => MovingKeepsAnchored(s, i, Releasing(true), t, selected);
    case Releasing(owner) => MovingKeepsAnchored(s, i, Unmarking(owner), t, selected);
    case Unmarking(_) => MovingKeepsAnchored(s, i, Ending, t, selected);
    case Ending => MovingKeepsAnchored(s, i, Ending, t, selected);
  }

  lemma CoordinatorKeepsAnchored(s: State, i: ProcessId, selected: set<Profile>, p: Profile, r: RunId, passes: bool)
    requires Anchored(s, selected) && i in s.coordinators
    ensures Anchored(CoordinatorStep(s, i, selected, p, r, passes), selected)
  {
    assert Backed(s.coordinators[i], s.past.confirmed, s.Current(), selected);
    match s.coordinators[i]
    case Entering(copy) => EnteringKeepsAnchored(s, i, copy, selected);
    case Granting(todo) => GrantingKeepsAnchored(s, i, todo, selected, p, r);
    case Parking(_, _, _) => ParkingKeepsAnchored(s, i, selected, p, passes);
    case Confirming(_) => ConfirmingKeepsAnchored(s, i, selected, p, passes);
    case Finishing => ClosingKeepsAnchored(s, i, selected, p, r, passes);
    case Releasing(_) => ClosingKeepsAnchored(s, i, selected, p, r, passes);
    case Unmarking(_) => ClosingKeepsAnchored(s, i, selected, p, r, passes);
    case Ending => ClosingKeepsAnchored(s, i, selected, p, r, passes);
    case _ => OpeningKeepsAnchored(s, i, selected, p, r, passes);
  }

  /** A restoration finds no coordinator alive, so changing the version on disk unsettles no count. */
  lemma RewindingKeepsAnchored(s: State, t: State, selected: set<Profile>)
    requires Anchored(s, selected) && Rewound(s, t)
    ensures Anchored(t, selected)
  {
    if t.restored != s.restored { assert s.coordinators == map[]; }
  }

  lemma EasingKeepsAnchored(s: State, t: State, selected: set<Profile>)
    requires Anchored(s, selected) && Eased(s, t) && (Lifted(t) ==> Lifted(s))
    ensures Anchored(t, selected)
  {
  }

  lemma StepKeepsAnchored(s: State, a: Action, selected: set<Profile>)
    requires Anchored(s, selected)
    ensures Anchored(Step(s, a, selected), selected)
  {
    if OfGateway(a) {
      if a.r in s.runs {
        GatewayEases(s, a, a.r);
        EasingKeepsAnchored(s, GatewayStep(s, a, a.r), selected);
      }
    } else if a.Coordinate? {
      if a.i in s.coordinators { CoordinatorKeepsAnchored(s, a.i, selected, a.p, a.r, a.passes); }
    } else if a.RestoreStep? {
      if s.restorer.Some? {
        RestorerRewinds(s);
        RewindingKeepsAnchored(s, RestorerStep(s), selected);
      }
    } else if a.Start? || a.CoordinatorDies? {
      MovingKeepsAnchored(s, a.i, Reading, At(s, a.i, Reading), selected);
      MovingKeepsAnchored(s, a.i, Reading, Left(s, a.i), selected);
    } else {
      BesidesLiftNothing(s, a, selected);
      EasingKeepsAnchored(s, Step(s, a, selected), selected);
    }
  }

  lemma {:induction false} EveryRunIsAnchored(begin: Beginning, selected: set<Profile>, actions: seq<Action>)
    ensures Anchored(Run(begin, selected, actions), selected)
  {
    if actions != [] {
      var before, a := actions[..|actions| - 1], actions[|actions| - 1];
      EveryRunIsAnchored(begin, selected, before);
      StepKeepsAnchored(Run(begin, selected, before), a, selected);
    }
  }

  // ---- whole runs ----

  /** No step of the run restores over an activation published after the check. */
  predicate Timely(begin: Beginning, selected: set<Profile>, actions: seq<Action>) {
    forall n :: 0 <= n < |actions| ==> !Late(Run(begin, selected, actions[..n]), actions[n])
  }

  lemma {:induction false} TimelyRunsSettle(begin: Beginning, selected: set<Profile>, actions: seq<Action>)
    requires Timely(begin, selected, actions)
    ensures Settled(Run(begin, selected, actions), selected)
  {
    if actions != [] {
      var most := actions[..|actions| - 1];
      forall n | 0 <= n < |most| ensures !Late(Run(begin, selected, most[..n]), most[n]) {
        assert actions[..n] == most[..n] && !Late(Run(begin, selected, actions[..n]), actions[n]);
      }
      TimelyRunsSettle(begin, selected, most);
      EveryRunKeepsBarrier(begin, selected, most);
      assert !Late(Run(begin, selected, actions[..|actions| - 1]), actions[|actions| - 1]);
      StepKeepsSettled(Run(begin, selected, most), actions[|actions| - 1], selected);
    }
  }

  lemma CountingLiftsNothing(s: State, i: ProcessId, selected: set<Profile>, p: Profile, r: RunId, passes: bool)
    requires i in s.coordinators
    requires var c := s.coordinators[i]; c.Granting? || c.Parking? || c.Confirming?
    ensures !Lifts(s, CoordinatorStep(s, i, selected, p, r, passes))
  {
    match s.coordinators[i]
    case Granting(_) =>
    case Parking(_, _, _) =>
    case Confirming(_) =>
  }

  lemma CommittedAreBacked(s: State, i: ProcessId, selected: set<Profile>, p: Profile, r: RunId, passes: bool)
    requires i in s.coordinators && Lifts(s, CoordinatorStep(s, i, selected, p, r, passes))
    ensures s.coordinators[i].Committed()
  {
    match s.coordinators[i]
    case Entering(copy) => EnteringMoves(s, i, copy);
    case Granting(_) => CountingLiftsNothing(s, i, selected, p, r, passes);
    case Parking(_, _, _) => CountingLiftsNothing(s, i, selected, p, r, passes);
    case Confirming(_) => CountingLiftsNothing(s, i, selected, p, r, passes);
    case _ =>
  }

  lemma NoteSavingLifts(s: State)
    requires s.desk.note.Some? && Lifts(s, NoteStep(s, NoteSave))
    ensures Lifted(s)
  {
  }

  lemma OthersLiftNothing(s: State, a: Action, selected: set<Profile>)
    requires Besides(a) && !a.HolderStep? && !a.NoteSave?
    ensures !Lifts(s, Step(s, a, selected))
  {
  }

  lemma BesidesLift(s: State, a: Action, selected: set<Profile>)
    requires Besides(a) && Lifts(s, Step(s, a, selected))
    ensures Withdraws(s, a) || Lifted(s)
  {
    if a.HolderStep? {
      if s.desk.holder.Some? { HolderMovesChange(s); }
    } else if a.NoteSave? {
      if s.desk.note.Some? { NoteSavingLifts(s); }
    } else {
      OthersLiftNothing(s, a, selected);
    }
  }

  lemma RestorerLiftsNothing(s: State)
    requires s.restorer.Some?
    ensures !Lifts(s, RestorerStep(s))
  {
  }

  lemma LiftsAreAnchored(s: State, a: Action, selected: set<Profile>)
    requires Anchored(s, selected) && !Withdraws(s, a) && Lifts(s, Step(s, a, selected))
    ensures Everyone(s.past.confirmed, selected)
  {
    if OfGateway(a) {
      if a.r in s.runs { GatewayEases(s, a, a.r); }
    } else if a.Coordinate? {
      CommittedAreBacked(s, a.i, selected, a.p, a.r, a.passes);
      assert Backed(s.coordinators[a.i], s.past.confirmed, s.Current(), selected);
    } else if a.RestoreStep? {
      RestorerLiftsNothing(s);
    } else if !a.Start? && !a.CoordinatorDies? {
      BesidesLift(s, a, selected);
    }
  }

  /**
   After any run from either beginning, a step takes a fence away or records a final phase before every
   selected gateway was confirmed with open intake, all at one version, exactly when it is a cleanup or
   a cancellation then.
   */
  lemma FencesFallUnconfirmedExactly(begin: Beginning, selected: set<Profile>, actions: seq<Action>, a: Action)
    ensures var s := Run(begin, selected, actions);
            Lifts(s, Step(s, a, selected)) && !Everyone(s.past.confirmed, selected)
            <==> Withdraws(s, a) && !Everyone(s.past.confirmed, selected)
  {
    EveryRunIsAnchored(begin, selected, actions);
    var s := Run(begin, selected, actions);
    if Withdraws(s, a) { HolderMovesChange(s); }
    else if Lifts(s, Step(s, a, selected)) { LiftsAreAnchored(s, a, selected); }
  }

  /** Once packages were changed, nobody reads the status of this handoff as unmutated. */
  predicate KeptMutated(s: State) {
    && s.desk.mutated && s.desk.unmutated == {} && (s.desk.note.Some? ==> s.desk.note.value.mutated) && !s.desk.withdrawn
    && (s.desk.holder.Some? ==> s.desk.holder.value == FailSaving(true))
  }

  lemma CountingKeepsMutated(s: State, i: ProcessId, selected: set<Profile>, p: Profile, r: RunId, passes: bool)
    requires i in s.coordinators
    requires var c := s.coordinators[i]; c.Granting? || c.Parking? || c.Confirming?
    ensures CoordinatorStep(s, i, selected, p, r, passes).desk == s.desk
  {
    match s.coordinators[i]
    case Granting(_) =>
    case Parking(_, _, _) =>
    case Confirming(_) =>
  }

  lemma EnteringKeepsMutated(s: State, i: ProcessId, copy: Phase)
    ensures Enter(s, i, copy).desk == s.desk
  {
  }

  lemma CoordinatorKeepsMutated(s: State, i: ProcessId, selected: set<Profile>, p: Profile, r: RunId, passes: bool)
    requires KeptMutated(s) && i in s.coordinators
    ensures KeptMutated(CoordinatorStep(s, i, selected, p, r, passes))
  {
    match s.coordinators[i]
    case Reading => assert s.desk.unmutated - {i} == {};
    case Entering(copy) => EnteringKeepsMutated(s, i, copy);
    case Granting(_) => CountingKeepsMutated(s, i, selected, p, r, passes);
    case Parking(_, _, _) => CountingKeepsMutated(s, i, selected, p, r, passes);
    case Confirming(_) => CountingKeepsMutated(s, i, selected, p, r, passes);
    case _ =>
  }

  lemma HolderKeepsMutated(s: State, a: Action, selected: set<Profile>)
    requires KeptMutated(s) && (OfHolder(a) || OfNote(a))
    ensures KeptMutated(Step(s, a, selected))
  {
  }

  lemma RestorerKeepsMutated(s: State)
    requires KeptMutated(s) && s.restorer.Some?
    ensures KeptMutated(RestorerStep(s))
  {
    match s.restorer.value
    case Checked =>
    case Reserving =>
    case Marking =>
    case Rewinding =>
  }

  lemma StepKeepsMutated(s: State, a: Action, selected: set<Profile>)
    requires KeptMutated(s)
    ensures KeptMutated(Step(s, a, selected))
  {
    if OfGateway(a) {
      if a.r in s.runs { GatewayEases(s, a, a.r); }
    } else if a.Coordinate? {
      if a.i in s.coordinators { CoordinatorKeepsMutated(s, a.i, selected, a.p, a.r, a.passes); }
    } else if OfHolder(a) || OfNote(a) {
      HolderKeepsMutated(s, a, selected);
    } else if a.RestoreStep? {
      if s.restorer.Some? { RestorerKeepsMutated(s); }
    }
  }

  lemma {:induction false} InstalledStaysMutated(selected: set<Profile>, actions: seq<Action>)
    ensures KeptMutated(Run(Installed, selected, actions))
  {
    if actions != [] {
      var before, a := actions[..|actions| - 1], actions[|actions| - 1];
      InstalledStaysMutated(selected, before);
      StepKeepsMutated(Run(Installed, selected, before), a, selected);
    }
  }

  /**
   In every run over an installed candidate: neither the reservation nor the installation fence is
   lifted, and no final phase recorded, before every selected gateway was confirmed with open intake,
   all at one version.
   */
  lemma FenceFallsAfterEveryoneIsActive(selected: set<Profile>, actions: seq<Action>) returns (v: Version)
    requires Unfenced(Run(Installed, selected, actions))
    ensures Confirmed(Run(Installed, selected, actions).past.confirmed, v, selected)
  {
    EveryRunIsAnchored(Installed, selected, actions);
    InstalledStaysMutated(selected, actions);
    v :| Confirmed(Run(Installed, selected, actions).past.confirmed, v, selected);
  }

  /** The same for a service restored unmodified, unless a cleanup or cancellation has lifted a fence. */
  lemma RestoredFenceFallsUnlessWithdrawn(begin: Beginning, selected: set<Profile>, actions: seq<Action>) returns (v: Version)
    requires var s := Run(begin, selected, actions); Unfenced(s) && !s.desk.withdrawn
    ensures Confirmed(Run(begin, selected, actions).past.confirmed, v, selected)
  {
    EveryRunIsAnchored(begin, selected, actions);
    v :| Confirmed(Run(begin, selected, actions).past.confirmed, v, selected);
  }

  /** That version is the one then on disk, unless a restoration came late. */
  lemma TimelyFencesFallAtTheVersionOnDisk(begin: Beginning, selected: set<Profile>, actions: seq<Action>, p: Profile)
    returns (id: Identity)
    requires Timely(begin, selected, actions) && p in selected
    requires var s := Run(begin, selected, actions); Unfenced(s) && !s.desk.withdrawn
    ensures var s := Run(begin, selected, actions); id in s.past.confirmed && id.profile == p && id.version == s.Current()
  {
    TimelyRunsSettle(begin, selected, actions);
    var s := Run(begin, selected, actions);
    assert Confirmed(s.past.confirmed, s.Current(), selected);
    id :| id in s.past.confirmed && id.profile == p && id.version == s.Current();
  }

  /** A restored installation never had a candidate gateway with open intake. */
  lemma NoDowngradeAfterIntake(begin: Beginning, selected: set<Profile>, actions: seq<Action>)
    requires Timely(begin, selected, actions)
    ensures var s := Run(begin, selected, actions);
            s.restored ==> forall id :: id in s.past.admitted ==> id.version == Original
  {
    TimelyRunsSettle(begin, selected, actions);
    EveryRunKeepsBarrier(begin, selected, actions);
    var s := Run(begin, selected, actions);
    if s.restored {
      forall id | id in s.past.admitted ensures id.version == Original {
        assert Authorized(s.past, id);
        var k :| 0 <= k < |s.past.records| && id.profile in s.past.records[k] && s.past.records[k][id.profile] == id;
        assert IsCurrent(s.past.records[k], Original);
      }
    }
  }

  /**
   The law that a durable activation forbids a downgrade is broken by exactly the steps that restore
   although an activation appeared after restore_service looked for one.
   */
  lemma OnlyLateRestorationDowngrades(begin: Beginning, selected: set<Profile>, actions: seq<Action>, a: Action)
    requires selected != {} && RecordsCurrent(Run(begin, selected, actions).past, Run(begin, selected, actions).Current())
    requires !Run(begin, selected, actions).restored
    ensures var s := Run(begin, selected, actions); var t := Step(s, a, selected);
            RecordsCurrent(t.past, t.Current()) <==> !Late(s, a)
  {
    EveryRunKeepsBarrier(begin, selected, actions);
    var s := Run(begin, selected, actions);
    if Late(s, a) {
      var last := s.past.records[|s.past.records| - 1];
      var p :| p in selected;
      assert Covers(last, s.past.verified, selected) && IsCurrent(last, Target);
      assert last[p].version == Target;
    } else {
      RecordsStayCurrent(s, a, selected);
    }
  }

  predicate SameRecords(s: State, t: State) {
    s.restored == t.restored && s.past.records == t.past.records
  }

  lemma CountingPublishesNothing(s: State, i: ProcessId, selected: set<Profile>, p: Profile, r: RunId, passes: bool)
    requires i in s.coordinators
    requires var c := s.coordinators[i]; c.Granting? || c.Parking? || c.Confirming?
    ensures SameRecords(s, CoordinatorStep(s, i, selected, p, r, passes))
  {
    match s.coordinators[i]
    case Granting(_) =>
    case Parking(_, _, _) =>
    case Confirming(_) =>
  }

  lemma EnteringPublishesNothing(s: State, i: ProcessId, copy: Phase)
    ensures SameRecords(s, Enter(s, i, copy))
  {
  }

  /** Only an authorizing coordinator publishes a record. */
  lemma OthersPublishNothing(s: State, i: ProcessId, selected: set<Profile>, p: Profile, r: RunId, passes: bool)
    requires i in s.coordinators && !s.coordinators[i].Authorizing?
    ensures SameRecords(s, CoordinatorStep(s, i, selected, p, r, passes))
  {
    var c := s.coordinators[i];
    match c
    case Entering(copy) => EnteringPublishesNothing(s, i, copy);
    case Granting(_) => CountingPublishesNothing(s, i, selected, p, r, passes);
    case Parking(_, _, _) => CountingPublishesNothing(s, i, selected, p, r, passes);
    case Confirming(_) => CountingPublishesNothing(s, i, selected, p, r, passes);
    case Inspecting =>
    case _ =>
  }

  lemma RewindingKeepsRecords(s: State, t: State, selected: set<Profile>)
    requires RecordsOk(s.past, s.activation, selected) && RecordsCurrent(s.past, s.Current()) && Rewound(s, t)
    requires t.restored != s.restored ==> s.activation.None?
    ensures RecordsCurrent(t.past, t.Current())
  {
  }

  lemma RecordsStayCurrent(s: State, a: Action, selected: set<Profile>)
    requires Barrier(s, selected) && RecordsCurrent(s.past, s.Current()) && !Late(s, a)
    ensures var t := Step(s, a, selected); RecordsCurrent(t.past, t.Current())
  {
    if a.Coordinate? {
      if a.i in s.coordinators {
        assert Collecting(s.coordinators[a.i], s.past.verified, s.Current(), selected);
        if !s.coordinators[a.i].Authorizing? { OthersPublishNothing(s, a.i, selected, a.p, a.r, a.passes); }
      }
    } else if OfGateway(a) {
      if a.r in s.runs { GatewayEases(s, a, a.r); }
    } else if a.RestoreStep? {
      if s.restorer.Some? {
        RestorerRewinds(s);
        RewindingKeepsRecords(s, RestorerStep(s), selected);
      }
    } else if !a.Start? && !a.CoordinatorDies? {
      BesidesLiftNothing(s, a, selected);
    }
  }
}
