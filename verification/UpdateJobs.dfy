/**
 Confirmation generations of one handoff: who may start the reviewed shutdown, and how often.

 Requesters and launchers share worker.lock, so at most one of them is inside its critical section;
 each action there is one record write or one decision, and the process may die after any of them.
 Launchers may be delayed or duplicated without bound and carry any identity that was ever issued.
 */
module UpdateJobs {
  import opened Wrappers

  type Id = nat

  /** The process in its critical section under worker.lock. */
  datatype Holder =
    // _start_handoff: `newId` is the confirmation being saved; a plain handoff approves none
    | Requesting(previous: Option<Id>)
    | Saving(newId: Id, previous: Option<Id>)
    | Unclaiming(newId: Id)
    | Approving(approved: Option<Id>)
    | Revoking(approved: Option<Id>)
    // run_job with a confirmation identity
    | Claiming(id: Id)
    | Checking(id: Id)
    | Publishing(id: Id)
    | Claimed(id: Id)

  /** supervise, under supervisor.lock, for one confirmation or for a plain launch. */
  datatype Supervisor = Deciding(confirmed: Option<Id>) | Journaling(confirmed: Option<Id>) | Supervising(confirmed: Option<Id>)

  /** What has happened so far; read by no process. */
  datatype History = History(saved: seq<Id>, claims: seq<Id>, retried: seq<Id>, supervised: seq<Id>)

  /**
   confirmation.json, confirmation-claimed.json, and the identities in handoff-approval.json and
   supervision.json (outer None: no file, inner None: no confirmation). `automatic` jobs make every
   requester hold supervisor.lock as well.
   */
  datatype State = State(
    automatic: bool,
    confirmation: Option<Id>, claimed: Option<Id>, approval: Option<Option<Id>>, journal: Option<Option<Id>>,
    holder: Option<Holder>, supervisor: Option<Supervisor>, past: History)

  function Initial(automatic: bool): State {
    State(automatic, None, None, None, None, None, None, History([], [], [], []))
  }

  datatype Action =
    | Confirm
    | Retry(previous: Id)
    | PlainHandoff
    | Launch(id: Id)
    | Supervise(launched: Option<Id>)
    | HolderStep(newId: Id, passes: bool)
    | HolderDies
    | SupervisorStep(passes: bool)
    | SupervisorDies

  /** already_confirmed, and the retry's demand that some confirmation exists. */
  predicate MayRequest(s: State, previous: Option<Id>) {
    match previous
    case None => s.confirmation.None?
    case Some(p) => s.confirmation == Some(p)
  }

  /** Every check that depends on the clock, the phase or the inputs is `passes`. */
  function HolderStepped(s: State, h: Holder, newId: Id, passes: bool): State {
    var gone := s.(holder := None);
    match h
    case Requesting(previous) =>
      if !passes || !MayRequest(s, previous) then gone
      else if newId in s.past.saved then s
      else s.(holder := Some(Saving(newId, previous)))
    case Saving(id, previous) =>
      var retried := if previous.Some? then s.past.retried + [previous.value] else s.past.retried;
      s.(confirmation := Some(id), holder := Some(Unclaiming(id)),
         past := s.past.(saved := s.past.saved + [id], retried := retried))
    case Unclaiming(id) => s.(claimed := None, holder := Some(Approving(Some(id))))
    case Approving(approved) => s.(approval := Some(approved), holder := Some(Revoking(approved)))
    case Revoking(_) => gone
    case Claiming(id) =>
      if s.confirmation != Some(id) || s.claimed.Some? then gone else s.(holder := Some(Checking(id)))
    case Checking(id) =>
      if !passes || s.approval != Some(Some(id)) || s.confirmation != Some(id) then gone
      else s.(holder := Some(Publishing(id)))
    case Publishing(id) =>
      s.(claimed := Some(id), holder := Some(Claimed(id)), past := s.past.(claims := s.past.claims + [id]))
    case Claimed(_) => gone
  }

  function SupervisorStepped(s: State, v: Supervisor, passes: bool): State {
    var gone := s.(supervisor := None);
    match v
    case Deciding(id) =>
      if s.journal.Some? && (id.None? || s.journal.value == id) then gone
      else if id.Some? && (!passes || s.approval != Some(id) || s.confirmation != id) then gone
      else s.(supervisor := Some(Journaling(id)))
    case Journaling(id) =>
      var supervised := if id.Some? then s.past.supervised + [id.value] else s.past.supervised;
      s.(journal := Some(id), supervisor := Some(Supervising(id)), past := s.past.(supervised := supervised))
    case Supervising(_) => gone
  }

  predicate Requester(h: Holder) {
    h.Requesting? || h.Saving? || h.Unclaiming? || h.Approving? || h.Revoking?
  }

  /** A requester needs worker.lock and, for automatic jobs, supervisor.lock; a supervisor needs the latter. */
  function Step(s: State, a: Action): State {
    var free := s.holder.None? && (s.automatic ==> s.supervisor.None?);
    match a
    case Confirm => if free && MayRequest(s, None) then s.(holder := Some(Requesting(None))) else s
    case Retry(previous) => if free && MayRequest(s, Some(previous)) then s.(holder := Some(Requesting(Some(previous)))) else s
    case PlainHandoff => if free then s.(holder := Some(Approving(None))) else s
    case Launch(id) => if s.holder.None? && id in s.past.saved then s.(holder := Some(Claiming(id))) else s
    case Supervise(id) =>
      if !s.automatic || s.supervisor.Some? || (s.holder.Some? && Requester(s.holder.value)) then s
      else if id.Some? && id.value !in s.past.saved then s
      else s.(supervisor := Some(Deciding(id)))
    case HolderStep(newId, passes) => if s.holder.None? then s else HolderStepped(s, s.holder.value, newId, passes)
    case HolderDies => s.(holder := None)
    case SupervisorStep(passes) => if s.supervisor.None? then s else SupervisorStepped(s, s.supervisor.value, passes)
    case SupervisorDies => s.(supervisor := None)
  }

  function Run(automatic: bool, actions: seq<Action>): State {
    if actions == [] then Initial(automatic)
    else Step(Run(automatic, actions[..|actions| - 1]), actions[|actions| - 1])
  }

  // ---- the invariant ----

  predicate Distinct(s: seq<Id>) {
    forall i, j :: 0 <= i < j < |s| ==> s[i] != s[j]
  }

  /** Saved, but replaced by a later confirmation. */
  predicate Superseded(s: State, id: Id) {
    id in s.past.saved && s.confirmation != Some(id)
  }

  ghost predicate LogsOk(h: History, confirmation: Option<Id>) {
    && Distinct(h.saved) && Distinct(h.claims) && Distinct(h.retried) && Distinct(h.supervised)
    && confirmation == (if h.saved == [] then None else Some(h.saved[|h.saved| - 1]))
  }

  ghost predicate RecordsOk(s: State) {
    var h := s.past;
    && (forall id :: id in h.claims ==> s.claimed == Some(id) || Superseded(s, id))
    && (forall id :: id in h.supervised ==> id in h.saved && (s.journal == Some(Some(id)) || Superseded(s, id)))
    && (forall id :: id in h.retried ==> Superseded(s, id))
    && (s.claimed.Some? ==> s.claimed.value in h.claims && s.claimed.value in h.saved)
    && (s.approval.Some? && s.approval.value.Some? ==> s.approval.value.value in h.saved)
  }

  predicate Unused(s: State, id: Id) {
    id !in s.past.claims && id !in s.past.supervised && s.approval != Some(Some(id))
  }

  ghost predicate HolderOk(s: State, h: Holder) {
    match h
    case Saving(id, previous) => id !in s.past.saved && MayRequest(s, previous)
    case Unclaiming(id) => s.confirmation == Some(id) && Unused(s, id)
    case Approving(approved) => approved.Some? ==> approved == s.confirmation && s.claimed.None? && Unused(s, approved.value)
    case Checking(id) => s.claimed.None? && s.confirmation == Some(id)
    case Publishing(id) => s.claimed.None? && s.confirmation == Some(id)
    case _ => true
  }

  ghost predicate SupervisorOk(s: State, v: Supervisor) {
    && s.automatic
    && (s.holder.Some? ==> !Requester(s.holder.value))
    && (v.Journaling? && v.confirmed.Some? ==> s.confirmation == v.confirmed && s.journal != Some(v.confirmed))
    && (v.Journaling? && v.confirmed.None? ==> s.journal.None?)
  }

  ghost predicate Inv(s: State) {
    && LogsOk(s.past, s.confirmation) && RecordsOk(s)
    && (s.holder.Some? ==> HolderOk(s, s.holder.value))
    && (s.supervisor.Some? ==> SupervisorOk(s, s.supervisor.value))
  }

  lemma DistinctGrows(s: seq<Id>, id: Id)
    requires Distinct(s) && id !in s
    ensures Distinct(s + [id])
  {
  }

  lemma SavingKeeps(s: State, h: Holder)
    requires Inv(s) && s.holder == Some(h) && h.Saving?
    ensures Inv(HolderStepped(s, h, h.newId, true))
  {
    var after := HolderStepped(s, h, h.newId, true);
    DistinctGrows(s.past.saved, h.newId);
    if h.previous.Some? { DistinctGrows(s.past.retried, h.previous.value); }
    assert LogsOk(after.past, after.confirmation);
    assert after.supervisor.None?;
    forall id: Id | Superseded(s, id) || s.confirmation == Some(id) ensures Superseded(after, id) {}
    assert RecordsOk(after);
  }

  lemma PublishingKeeps(s: State, h: Holder)
    requires Inv(s) && s.holder == Some(h) && h.Publishing?
    ensures Inv(HolderStepped(s, h, h.id, true))
  {
    DistinctGrows(s.past.claims, h.id);
  }

  lemma HolderStepKeeps(s: State, newId: Id, passes: bool)
    requires Inv(s) && s.holder.Some?
    ensures Inv(HolderStepped(s, s.holder.value, newId, passes))
  {
    var h := s.holder.value;
    match h
    case Saving(_, _) => SavingKeeps(s, h);
    case Publishing(_) => PublishingKeeps(s, h);
    case Unclaiming(_) =>
    case Approving(_) =>
    case _ =>
  }

  lemma SupervisorStepKeeps(s: State, passes: bool)
    requires Inv(s) && s.supervisor.Some?
    ensures Inv(SupervisorStepped(s, s.supervisor.value, passes))
  {
  }

  lemma StepKeeps(s: State, a: Action)
    requires Inv(s)
    ensures Inv(Step(s, a))
  {
    match a
    case HolderStep(newId, passes) => if s.holder.Some? { HolderStepKeeps(s, newId, passes); }
    case SupervisorStep(passes) => if s.supervisor.Some? { SupervisorStepKeeps(s, passes); }
    case _ =>
  }

  lemma {:induction false} EveryRunKeeps(automatic: bool, actions: seq<Action>)
    ensures Inv(Run(automatic, actions))
  {
    if actions != [] {
      EveryRunKeeps(automatic, actions[..|actions| - 1]);
      StepKeeps(Run(automatic, actions[..|actions| - 1]), actions[|actions| - 1]);
    }
  }

  // ---- at most once ----

  /** No confirmation passes the claim twice, backs two supervisors, or is consumed by two retries. */
  lemma ConfirmationsAreUsedAtMostOnce(automatic: bool, actions: seq<Action>)
    ensures var h := Run(automatic, actions).past;
            && Distinct(h.claims) && Distinct(h.supervised) && Distinct(h.retried)
            && (forall id :: id in h.claims || id in h.supervised || id in h.retried ==> id in h.saved)
  {
    EveryRunKeeps(automatic, actions);
  }

  predicate SameUses(before: History, after: History, id: Id) {
    && (id in before.claims <==> id in after.claims)
    && (id in before.supervised <==> id in after.supervised)
    && (id in before.retried <==> id in after.retried)
  }

  lemma SupersededStepIsInert(s: State, a: Action, id: Id)
    requires Inv(s) && Superseded(s, id)
    ensures Superseded(Step(s, a), id) && SameUses(s.past, Step(s, a).past, id)
  {
  }

  /** A delayed launcher or supervisor of a replaced confirmation can no longer do anything with it. */
  lemma {:induction false} SupersededIsInert(automatic: bool, before: seq<Action>, after: seq<Action>, id: Id)
    requires Superseded(Run(automatic, before), id)
    ensures Superseded(Run(automatic, before + after), id)
    ensures SameUses(Run(automatic, before).past, Run(automatic, before + after).past, id)
  {
    if after == [] {
      assert before + after == before;
    } else {
      var most := after[..|after| - 1];
      assert (before + after)[..|before + after| - 1] == before + most;
      SupersededIsInert(automatic, before, most, id);
      EveryRunKeeps(automatic, before + most);
      SupersededStepIsInert(Run(automatic, before + most), after[|after| - 1], id);
    }
  }

  // ---- a requester that dies between its writes ----

  /** Saved without an approval, and nobody is about to approve, claim or supervise it. */
  ghost predicate Unapproved(s: State, id: Id) {
    && id in s.past.saved && Unused(s, id)
    && s.holder != Some(Unclaiming(id)) && s.holder != Some(Approving(Some(id))) && s.holder != Some(Publishing(id))
    && s.supervisor != Some(Journaling(Some(id)))
  }

  lemma UnapprovedStays(s: State, a: Action, id: Id)
    requires Inv(s) && Unapproved(s, id)
    ensures Unapproved(Step(s, a), id)
  {
  }

  lemma {:induction false} UnapprovedIsNeverUsed(automatic: bool, before: seq<Action>, after: seq<Action>, id: Id)
    requires Unapproved(Run(automatic, before), id)
    ensures Unapproved(Run(automatic, before + after), id)
  {
    if after == [] {
      assert before + after == before;
    } else {
      var most := after[..|after| - 1];
      assert (before + after)[..|before + after| - 1] == before + most;
      UnapprovedIsNeverUsed(automatic, before, most, id);
      EveryRunKeeps(automatic, before + most);
      UnapprovedStays(Run(automatic, before + most), after[|after| - 1], id);
    }
  }

  /**
   A requester that dies after saving a confirmation and before approving it leaves a confirmation
   that no launcher can ever claim and no supervisor can ever run: only new consent goes on.
   */
  lemma InterruptedRequestsAreNeverClaimed(automatic: bool, before: seq<Action>, after: seq<Action>, id: Id)
    requires Run(automatic, before).holder in {Some(Unclaiming(id)), Some(Approving(Some(id)))}
    ensures var h := Run(automatic, before + [HolderDies] + after).past; id !in h.claims && id !in h.supervised
  {
    EveryRunKeeps(automatic, before);
    assert (before + [HolderDies])[..|before|] == before;
    UnapprovedIsNeverUsed(automatic, before + [HolderDies], after, id);
  }

  // ---- a requester that finishes ----

  /**
   A finished request is claimed by the first launcher whose checks pass, and by no second one. The
   three writes after confirmation.json and the four decisions of a launcher are exactly these steps.
   */
  lemma FinishedRequestIsClaimedOnce(s: State, id: Id)
    requires Inv(s) && s.holder == Some(Unclaiming(id))
    ensures var write := HolderStep(0, true);
            var approved := Step(Step(Step(s, write), write), write);
            var claimed := Step(Step(Step(Step(approved, Launch(id)), write), write), write);
            var again := Step(Step(Step(claimed, HolderDies), Launch(id)), write);
            && claimed.past.claims == s.past.claims + [id]
            && claimed.claimed == Some(id)
            && again == claimed.(holder := None)
  {
  }
}
