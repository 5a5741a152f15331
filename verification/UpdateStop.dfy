/**
 Cooperative shutdown: a two-phase commit over one request record and one reply record
 per participant. Every action below is one read or one write of a shared record, one
 probe of the coordinator's lease, or one process event; any process may die between two.

 The coordinator's lease is exclusive, so the process holding it is one optional value
 and its death and the end of its lease are the same action.
 */
module UpdateStop {
  import opened Wrappers
  import A = RuntimeAdmission

  type PlanId = nat
  type Attempt = nat
  type Profile = nat
  type RunId = nat

  datatype Phase = Prepare | Commit | Abort | Stopped

  datatype Request = Request(plan: PlanId, attempt: Attempt, phase: Phase)

  datatype Answer = Ready | Busy | Released | Stopping | Refused

  datatype Reply = Reply(attempt: Attempt, run: RunId, answer: Answer)

  /** An immutable reviewed plan: the run recorded for each profile, which of them ran, and which to stop. */
  datatype Plan = Plan(reviewed: map<Profile, RunId>, running: set<Profile>, stop: set<Profile>) {
    function Participants(): set<Profile> {
      set p | p in reviewed && p in stop
    }
  }

  /** Where a gateway run's watcher is. From Holding on, its admission gate is entered. */
  datatype Stage =
    | Watching
    | Saw(request: Request)
    | Checking(request: Request)
    | Holding(request: Request)
    | Prepared(request: Request)
    | Probing(request: Request)
    | Rereading(request: Request)
    | Releasing(request: Request)
    | Acknowledging(request: Request)
    | Committing(request: Request)
    | Leaving
    | Exited
  {
    /** Between the ready reply and the end of the wait. */
    predicate Waiting() {
      Prepared? || Probing? || Rereading?
    }

    predicate Engaged() {
      Holding? || Waiting() || Releasing? || Committing?
    }

    predicate Named() {
      !Watching? && !Leaving? && !Exited?
    }
  }

  datatype Gateway = Gateway(profile: Profile, stage: Stage, seen: Option<Attempt>, gate: A.Gate, shutdown: bool)

  /** The process that holds the coordinator's lease. */
  datatype Coordinator =
    | Opening(plan: PlanId)
    | Scanning(plan: PlanId, attempt: Attempt, todo: set<Profile>, ready: set<Profile>)
    | Aborting(plan: PlanId, attempt: Attempt)
    | Draining(plan: PlanId)

  /** What has happened so far; read by no process. */
  datatype History = History(
    planOf: map<Attempt, PlanId>,
    committed: set<Attempt>,
    readied: set<(RunId, Attempt)>,
    reopened: set<(RunId, Attempt)>,
    stopped: set<(RunId, Attempt)>,
    writes: seq<Request>)

  datatype State = State(
    plans: map<PlanId, Plan>,
    cancelled: set<PlanId>,
    request: Option<Request>,
    replies: map<(PlanId, Profile), Reply>,
    coordinator: Option<Coordinator>,
    runs: map<RunId, Gateway>,
    past: History)

  const START := State(map[], {}, None, map[], None, map[], History(map[], {}, {}, {}, {}, []))

  datatype GatewayAction =
    | Work(event: A.Event)
    | OwnShutdown
    | Exit
    | Poll
    | ProbeNew(expired: bool, spurious: bool)
    | Decide(jobValid: bool, ownerPending: bool, reporting: set<A.Check>)
    | ReplyReady
    | ReadCurrent
    | Probe(spurious: bool)
    | ReadLatest
    | Fault
    | Reopen
    | ReplyReleased
    | ReplyStopping

  datatype Action =
    | Review(id: PlanId, reviewed: Plan)
    | Spawn(run: RunId, profile: Profile)
    | Act(run: RunId, step: GatewayAction)
    | Acquire(id: PlanId)
    | Open(attempt: Attempt)
    | Scan(profile: Profile)
    | ScanAgain
    | Reject
    | WriteCommit
    | WriteAbort
    | WriteStopped
    | Vanish
    | Settle(id: PlanId)

  // ---- gateway steps: update_stop.watch_gateway_stop and _prepare_gateway_stop ----

  function WithRun(s: State, r: RunId, g: Gateway): State {
    s.(runs := s.runs[r := g])
  }

  function WithReply(s: State, r: RunId, g: Gateway, request: Request, answer: Answer): State {
    s.(runs := s.runs[r := g],
       replies := s.replies[(request.plan, g.profile) := Reply(request.attempt, r, answer)])
  }

  /** A probe reports the lease held when the coordinator, or briefly another prober, holds it. */
  predicate Present(s: State, spurious: bool) {
    spurious || s.coordinator.Some?
  }

  predicate Selected(s: State, id: PlanId, profile: Profile, r: RunId) {
    && id in s.plans
    && profile in s.plans[id].Participants()
    && profile in s.plans[id].running
    && s.plans[id].reviewed[profile] == r
  }

  function DecideStep(s: State, r: RunId, g: Gateway, jobValid: bool, ownerPending: bool,
                      reporting: set<A.Check>): State
    requires g.stage.Checking?
  {
    var request := g.stage.request;
    if !jobValid || request.plan !in s.plans || g.profile !in s.plans[request.plan].stop then
      WithRun(s, r, g.(stage := Watching))
    else if !Selected(s, request.plan, g.profile, r) then
      WithReply(s, r, g.(stage := Watching), request, Refused)
    else
      match A.AfterPauseIfIdle(g.gate, ownerPending, reporting)
      case Err(_) => WithReply(s, r, g.(stage := Watching), request, Busy)
      case Ok(gate) => WithRun(s, r, g.(stage := Holding(request), gate := gate))
  }

  /** Leaving the wait because of what the protocol shows, not because of this process. */
  function GiveUp(s: State, r: RunId, g: Gateway): State
    requires g.stage.Named()
  {
    WithRun(s, r, g.(stage := Releasing(g.stage.request)))
    .(past := s.past.(reopened := s.past.reopened + {(r, g.stage.request.attempt)}))
  }

  function ReadCurrentStep(s: State, r: RunId, g: Gateway): State
    requires g.stage.Prepared?
  {
    var mine := g.stage.request;
    if g.shutdown then WithRun(s, r, g.(stage := Releasing(mine)))
    else if s.request.None? || s.request.value.plan != mine.plan || s.request.value.attempt != mine.attempt
            || (s.request.value.phase != Prepare && s.request.value.phase != Commit) then GiveUp(s, r, g)
    else if s.request.value.phase == Commit then
      WithRun(s, r, g.(stage := Committing(mine), shutdown := true))
      .(past := s.past.(stopped := s.past.stopped + {(r, mine.attempt)}))
    else WithRun(s, r, g.(stage := Probing(mine)))
  }

  function ReadLatestStep(s: State, r: RunId, g: Gateway): State
    requires g.stage.Rereading?
  {
    var mine := g.stage.request;
    if s.request == Some(Request(mine.plan, mine.attempt, Commit)) then WithRun(s, r, g.(stage := Prepared(mine)))
    else GiveUp(s, r, g)
  }

  predicate IsTaskEvent(e: A.Event) {
    e.Enter? || e.Leave? || e.Register? || e.Unregister?
  }

  function GatewayStep(s: State, r: RunId, a: GatewayAction): State
    requires r in s.runs && !s.runs[r].stage.Exited?
  {
    var g := s.runs[r];
    match a
    case Work(e) => if IsTaskEvent(e) then WithRun(s, r, g.(gate := A.Apply(g.gate, e))) else s
    case OwnShutdown => WithRun(s, r, g.(shutdown := true))
    case Exit => WithRun(s, r, g.(stage := Exited))
    case Poll =>
      if !g.stage.Watching? then s
      else if g.shutdown then WithRun(s, r, g.(stage := Leaving))
      else if s.request.None? || g.seen == Some(s.request.value.attempt) then s
      else WithRun(s, r, g.(stage := Saw(s.request.value), seen := Some(s.request.value.attempt)))
    case ProbeNew(expired, spurious) =>
      if !g.stage.Saw? then s
      else if g.stage.request.phase == Prepare && !expired && Present(s, spurious) then
        WithRun(s, r, g.(stage := Checking(g.stage.request)))
      else WithRun(s, r, g.(stage := Watching))
    case Decide(jobValid, ownerPending, reporting) =>
      if g.stage.Checking? then DecideStep(s, r, g, jobValid, ownerPending, reporting) else s
    case ReplyReady =>
      if !g.stage.Holding? then s
      else WithReply(s, r, g.(stage := Prepared(g.stage.request)), g.stage.request, Ready)
           .(past := s.past.(readied := s.past.readied + {(r, g.stage.request.attempt)}))
    case ReadCurrent => if g.stage.Prepared? then ReadCurrentStep(s, r, g) else s
    case Probe(spurious) =>
      if !g.stage.Probing? then s
      else if Present(s, spurious) then WithRun(s, r, g.(stage := Prepared(g.stage.request)))
      else WithRun(s, r, g.(stage := Rereading(g.stage.request)))
    case ReadLatest => if g.stage.Rereading? then ReadLatestStep(s, r, g) else s
    case Fault =>
      if g.stage.Holding? || g.stage.Waiting() then WithRun(s, r, g.(stage := Releasing(g.stage.request))) else s
    case Reopen =>
      if !g.stage.Releasing? then s
      else WithRun(s, r, g.(stage := Acknowledging(g.stage.request), gate := A.Apply(g.gate, A.Resume)))
    case ReplyReleased =>
      if !g.stage.Acknowledging? then s
      else WithReply(s, r, g.(stage := Watching), g.stage.request, Released)
    case ReplyStopping =>
      if !g.stage.Committing? then s
      else WithReply(s, r, g.(stage := Leaving), g.stage.request, Stopping)
  }

  // ---- coordinator steps: update_stop.stop_reviewed_gateways and settle_uncommitted_handoff ----

  function Publish(s: State, request: Request): State {
    s.(request := Some(request), past := s.past.(writes := s.past.writes + [request]))
  }

  predicate Resuming(s: State, id: PlanId) {
    s.request.Some? && s.request.value.plan == id && (s.request.value.phase == Commit || s.request.value.phase == Stopped)
  }

  /** The first record decision under the lease: resume, refuse, or publish a fresh attempt. */
  function OpenStep(s: State, attempt: Attempt): State
    requires s.coordinator.Some? && s.coordinator.value.Opening?
  {
    var id := s.coordinator.value.plan;
    if id !in s.plans || id in s.cancelled then s.(coordinator := None)
    else if Resuming(s, id) then s.(coordinator := Some(Draining(id)))
    else if s.request.Some? && s.request.value.phase == Commit then s.(coordinator := None)
    else if !(s.plans[id].running <= s.plans[id].stop) then s.(coordinator := None)
    else if attempt in s.past.planOf then s
    else
      var next := Publish(s, Request(id, attempt, Prepare));
      next.(coordinator := Some(Scanning(id, attempt, s.plans[id].Participants(), {})),
            past := next.past.(planOf := s.past.planOf[attempt := id]))
  }

  function ScanStep(s: State, p: Profile): State
    requires s.coordinator.Some? && s.coordinator.value.Scanning?
  {
    var c := s.coordinator.value;
    if p !in c.todo || c.plan !in s.plans || p !in s.plans[c.plan].reviewed then s
    else if (c.plan, p) !in s.replies || s.replies[(c.plan, p)].attempt != c.attempt then
      s.(coordinator := Some(c.(todo := c.todo - {p})))
    else if s.replies[(c.plan, p)].run != s.plans[c.plan].reviewed[p] || s.replies[(c.plan, p)].answer != Ready then
      s.(coordinator := Some(Aborting(c.plan, c.attempt)))
    else s.(coordinator := Some(c.(todo := c.todo - {p}, ready := c.ready + {p})))
  }

  predicate AllExited(s: State, id: PlanId) {
    id in s.plans && forall p :: p in s.plans[id].reviewed ==>
      s.plans[id].reviewed[p] in s.runs && s.runs[s.plans[id].reviewed[p]].stage.Exited?
  }

  function CommitStep(s: State): State
    requires s.coordinator.Some? && s.coordinator.value.Scanning?
  {
    var c := s.coordinator.value;
    if c.plan !in s.plans || c.todo != {} || c.ready != s.plans[c.plan].Participants() then s
    else
      var next := Publish(s, Request(c.plan, c.attempt, Commit));
      next.(coordinator := Some(Draining(c.plan)),
            past := next.past.(committed := s.past.committed + {c.attempt}))
  }

  /** The finally block: abort unless something other than this attempt's preparation is recorded. */
  function AbortStep(s: State): State
    requires s.coordinator.Some? && s.coordinator.value.Aborting?
  {
    var c := s.coordinator.value;
    var left := s.(coordinator := None);
    if s.request.Some? && s.request.value.attempt == c.attempt && s.request.value.phase == Prepare then
      Publish(left, Request(c.plan, c.attempt, Abort))
    else left
  }

  function StoppedStep(s: State): State
    requires s.coordinator.Some? && s.coordinator.value.Draining?
  {
    var c := s.coordinator.value;
    if !AllExited(s, c.plan) then s
    else
      var left := s.(coordinator := None);
      if s.request.Some? && s.request.value.plan == c.plan then Publish(left, s.request.value.(phase := Stopped)) else left
  }

  function CoordinatorStep(s: State, a: Action): State {
    match (a, s.coordinator)
    case (Acquire(id), None) => s.(coordinator := Some(Opening(id)))
    case (Open(attempt), Some(Opening(_))) => OpenStep(s, attempt)
    case (Scan(p), Some(Scanning(_, _, _, _))) => ScanStep(s, p)
    case (ScanAgain, Some(Scanning(id, attempt, todo, _))) =>
      if todo == {} && id in s.plans then s.(coordinator := Some(Scanning(id, attempt, s.plans[id].Participants(), {}))) else s
    case (Reject, Some(Scanning(id, attempt, _, _))) => s.(coordinator := Some(Aborting(id, attempt)))
    case (WriteCommit, Some(Scanning(_, _, _, _))) => CommitStep(s)
    case (WriteAbort, Some(Aborting(_, _))) => AbortStep(s)
    case (WriteStopped, Some(Draining(_))) => StoppedStep(s)
    case (Vanish, Some(_)) => s.(coordinator := None)
    case (Settle(id), None) => if Resuming(s, id) then s else s.(cancelled := s.cancelled + {id})
    case _ => s
  }

  /** Plans are immutable and name only runs that already exist; run identities are fresh. */
  function Step(s: State, a: Action): State {
    match a
    case Review(id, plan) =>
      if id in s.plans || !(plan.reviewed.Values <= s.runs.Keys)
         || exists p :: p in plan.reviewed && s.runs[plan.reviewed[p]].profile != p then s
      else s.(plans := s.plans[id := plan])
    case Spawn(r, p) =>
      if r in s.runs then s else s.(runs := s.runs[r := Gateway(p, Watching, None, A.OPEN_GATE, false)])
    case Act(r, step) => if r in s.runs && !s.runs[r].stage.Exited? then GatewayStep(s, r, step) else s
    case _ => CoordinatorStep(s, a)
  }

  function Run(actions: seq<Action>): State {
    if actions == [] then START else Step(Run(actions[..|actions| - 1]), actions[|actions| - 1])
  }

  // ---- the invariant ----

  /** The live coordinator can still decide this attempt. */
  predicate Undecided(s: State, attempt: Attempt) {
    s.coordinator.Some? && s.coordinator.value.Scanning? && s.coordinator.value.attempt == attempt
  }

  predicate Known(s: State, request: Request) {
    request.attempt in s.past.planOf && s.past.planOf[request.attempt] == request.plan && request.plan in s.plans
  }

  predicate RunOk(s: State, r: RunId)
    requires r in s.runs
  {
    var g := s.runs[r];
    && A.Sound(g.gate)
    && (g.stage.Named() ==> Known(s, g.stage.request))
    && (g.stage.Engaged() ==> g.gate.paused && Selected(s, g.stage.request.plan, g.profile, r))
    && (g.stage.Waiting() || g.stage.Committing? ==> (r, g.stage.request.attempt) in s.past.readied)
    && (g.stage.Rereading? ==> !Undecided(s, g.stage.request.attempt))
    && (g.stage.Committing? ==> (r, g.stage.request.attempt) in s.past.stopped)
  }

  predicate RunsOk(s: State) {
    forall r :: r in s.runs ==> RunOk(s, r)
  }

  predicate PlansOk(s: State) {
    && (forall a :: a in s.past.planOf ==> s.past.planOf[a] in s.plans)
    && forall id :: id in s.plans ==> forall p :: p in s.plans[id].reviewed ==>
      s.plans[id].reviewed[p] in s.runs && s.runs[s.plans[id].reviewed[p]].profile == p
  }

  predicate RequestOk(s: State) {
    s.request.Some? ==>
      && Known(s, s.request.value)
      && (s.request.value.attempt in s.past.committed
          <==> s.request.value.phase == Commit || s.request.value.phase == Stopped)
  }

  predicate AnsweredBy(s: State, id: PlanId, attempt: Attempt, p: Profile) {
    id in s.plans && p in s.plans[id].reviewed && (s.plans[id].reviewed[p], attempt) in s.past.readied
  }

  predicate CoordinatorOk(s: State) {
    s.coordinator.Some? ==>
      match s.coordinator.value
      case Opening(_) => true
      case Scanning(id, attempt, todo, ready) =>
        && id in s.plans && id !in s.cancelled
        && s.request == Some(Request(id, attempt, Prepare))
        && (forall p :: p in ready ==> AnsweredBy(s, id, attempt, p))
      case Aborting(id, attempt) => id in s.plans && s.request == Some(Request(id, attempt, Prepare))
      case Draining(id) => s.request.Some? && s.request.value.plan == id && s.request.value.attempt in s.past.committed
  }

  predicate EveryoneAnswered(s: State, attempt: Attempt)
    requires attempt in s.past.planOf
  {
    var id := s.past.planOf[attempt];
    id in s.plans && forall p :: p in s.plans[id].Participants() ==> AnsweredBy(s, id, attempt, p)
  }

  predicate CommittedOk(s: State) {
    forall a :: a in s.past.committed ==>
      && a in s.past.planOf
      && EveryoneAnswered(s, a)
      && (s.request == Some(Request(s.past.planOf[a], a, Commit)) || AllExited(s, s.past.planOf[a]))
  }

  predicate ReadiedOk(s: State) {
    && (forall e :: e in s.past.readied ==>
          e.1 in s.past.planOf && e.0 in s.runs && Selected(s, s.past.planOf[e.1], s.runs[e.0].profile, e.0))
    && (forall k :: k in s.replies && s.replies[k].answer == Ready ==>
          (s.replies[k].run, s.replies[k].attempt) in s.past.readied)
  }

  /** What the abandoned attempts can never become again. */
  predicate Dead(s: State, attempt: Attempt) {
    attempt in s.past.planOf && attempt !in s.past.committed && !Undecided(s, attempt)
  }

  predicate ReopenedOk(s: State) {
    forall e :: e in s.past.reopened ==> Dead(s, e.1)
  }

  predicate StoppedRun(s: State, e: (RunId, Attempt)) {
    && e.1 in s.past.committed
    && e in s.past.readied
    && e.0 in s.runs
    && var stage := s.runs[e.0].stage;
       && ((stage.Committing? && stage.request.attempt == e.1) || stage.Leaving? || stage.Exited?)
       && s.runs[e.0].gate.paused
  }

  predicate StoppedOk(s: State) {
    forall e :: e in s.past.stopped ==> StoppedRun(s, e)
  }

  function PhasesOf(writes: seq<Request>, attempt: Attempt): seq<Phase> {
    if writes == [] then []
    else
      var last := writes[|writes| - 1];
      PhasesOf(writes[..|writes| - 1], attempt) + if last.attempt == attempt then [last.phase] else []
  }

  /** Prepare, then one decision; only a commit is ever followed, and only by stopped. */
  predicate Lawful(phases: seq<Phase>) {
    phases == [] || phases == [Prepare] || phases == [Prepare, Abort]
    || (|phases| >= 2 && phases[0] == Prepare && phases[1] == Commit && forall i :: 2 <= i < |phases| ==> phases[i] == Stopped)
  }

  ghost predicate WritesOk(s: State) {
    && (forall a :: Lawful(PhasesOf(s.past.writes, a)))
    && (forall a :: a !in s.past.planOf ==> PhasesOf(s.past.writes, a) == [])
    && (s.request.Some? ==>
          var phases := PhasesOf(s.past.writes, s.request.value.attempt);
          phases != [] && phases[|phases| - 1] == s.request.value.phase)
  }

  ghost predicate Inv(s: State) {
    && RunsOk(s) && PlansOk(s) && RequestOk(s) && CoordinatorOk(s) && CommittedOk(s)
    && ReadiedOk(s) && ReopenedOk(s) && StoppedOk(s) && WritesOk(s)
  }

  // ---- every action keeps the invariant ----

  /** The only ways one run's action can change the shared state. */
  ghost predicate GatewayMove(s: State, s': State, r: RunId) {
    && r in s.runs && !s.runs[r].stage.Exited? && r in s'.runs
    && s'.runs == s.runs[r := s'.runs[r]] && s'.runs[r].profile == s.runs[r].profile
    && s'.plans == s.plans && s'.cancelled == s.cancelled && s'.request == s.request && s'.coordinator == s.coordinator
    && s'.past.planOf == s.past.planOf && s'.past.committed == s.past.committed && s'.past.writes == s.past.writes
    && s.past.readied <= s'.past.readied
    && (forall e :: e in s'.past.readied && e !in s.past.readied ==>
          e.0 == r && e.1 in s.past.planOf && Selected(s, s.past.planOf[e.1], s.runs[r].profile, r))
    && (forall k :: k in s'.replies && s'.replies[k].answer == Ready ==>
          (s'.replies[k].run, s'.replies[k].attempt) in s'.past.readied)
    && (forall e :: e in s'.past.reopened && e !in s.past.reopened ==> Dead(s, e.1))
    && s.past.stopped <= s'.past.stopped
    && (forall e :: e in s'.past.stopped && (e.0 == r || e !in s.past.stopped) ==> StoppedRun(s', e))
    && RunOk(s', r)
  }

  lemma GatewayMoveKeeps(s: State, s': State, r: RunId)
    requires Inv(s) && GatewayMove(s, s', r)
    ensures Inv(s')
  {
    assert PlansOk(s');
    forall a | a in s'.past.committed
      ensures a in s'.past.planOf && EveryoneAnswered(s', a)
      ensures s'.request == Some(Request(s'.past.planOf[a], a, Commit)) || AllExited(s', s'.past.planOf[a])
    {
      assert EveryoneAnswered(s, a);
    }
  }

  lemma TaskEventsKeepTheGate(g: A.Gate, e: A.Event)
    requires A.Sound(g) && IsTaskEvent(e)
    ensures A.Sound(A.Apply(g, e)) && A.Apply(g, e).paused == g.paused
  {
  }

  /** A live reviewed run still finds its commit record: nothing may replace it before that run exits. */
  lemma CommitStaysReadable(s: State, r: RunId, attempt: Attempt)
    requires Inv(s) && r in s.runs && !s.runs[r].stage.Exited?
    requires attempt in s.past.committed && Selected(s, s.past.planOf[attempt], s.runs[r].profile, r)
    ensures s.request == Some(Request(s.past.planOf[attempt], attempt, Commit))
  {
  }

  /** A step that rewrites only the run's own fields. */
  lemma LocalMove(s: State, r: RunId, g: Gateway)
    requires Inv(s) && r in s.runs && !s.runs[r].stage.Exited? && g.profile == s.runs[r].profile
    requires RunOk(WithRun(s, r, g), r)
    requires forall e :: e in s.past.stopped && e.0 == r ==> StoppedRun(WithRun(s, r, g), e)
    ensures GatewayMove(s, WithRun(s, r, g), r)
  {
  }

  /** Giving up is safe only once the attempt can no longer be committed. */
  lemma GiveUpMoves(s: State, r: RunId)
    requires Inv(s) && r in s.runs && s.runs[r].stage.Waiting()
    requires !Undecided(s, s.runs[r].stage.request.attempt) && s.runs[r].stage.request.attempt !in s.past.committed
    ensures GatewayMove(s, GiveUp(s, r, s.runs[r]), r)
  {
    assert RunOk(s, r);
  }

  lemma CommitMoves(s: State, r: RunId)
    requires Inv(s) && r in s.runs && s.runs[r].stage.Prepared? && !s.runs[r].shutdown
    requires s.request == Some(s.runs[r].stage.request.(phase := Commit))
    ensures GatewayMove(s, ReadCurrentStep(s, r, s.runs[r]), r)
  {
    assert RunOk(s, r);
  }

  lemma ReadCurrentMoves(s: State, r: RunId)
    requires Inv(s) && r in s.runs && s.runs[r].stage.Prepared?
    ensures GatewayMove(s, ReadCurrentStep(s, r, s.runs[r]), r)
  {
    var g := s.runs[r];
    var mine := g.stage.request;
    assert RunOk(s, r);
    if mine.attempt in s.past.committed {
      CommitStaysReadable(s, r, mine.attempt);
    }
    if g.shutdown {
      LocalMove(s, r, g.(stage := Releasing(mine)));
    } else if s.request == Some(mine.(phase := Commit)) {
      CommitMoves(s, r);
    } else if s.request == Some(mine.(phase := Prepare)) {
      LocalMove(s, r, g.(stage := Probing(mine)));
    } else {
      GiveUpMoves(s, r);
    }
  }

  lemma ReadLatestMoves(s: State, r: RunId)
    requires Inv(s) && r in s.runs && s.runs[r].stage.Rereading?
    ensures GatewayMove(s, ReadLatestStep(s, r, s.runs[r]), r)
  {
    var g := s.runs[r];
    assert RunOk(s, r);
    if g.stage.request.attempt in s.past.committed {
      CommitStaysReadable(s, r, g.stage.request.attempt);
    }
    if s.request == Some(g.stage.request.(phase := Commit)) {
      LocalMove(s, r, g.(stage := Prepared(g.stage.request)));
    } else {
      GiveUpMoves(s, r);
    }
  }

  /** A step that also publishes a reply; only a selected run may say ready. */
  lemma ReplyMove(s: State, r: RunId, g: Gateway, request: Request, answer: Answer)
    requires Inv(s) && r in s.runs && !s.runs[r].stage.Exited? && g.profile == s.runs[r].profile
    requires answer != Ready && RunOk(WithRun(s, r, g), r)
    requires forall e :: e in s.past.stopped && e.0 == r ==> StoppedRun(WithRun(s, r, g), e)
    ensures GatewayMove(s, WithReply(s, r, g, request, answer), r)
  {
    LocalMove(s, r, g);
    var s' := WithReply(s, r, g, request, answer);
    assert RunOk(s', r);
    forall e | e in s'.past.stopped && e.0 == r ensures StoppedRun(s', e) {
      assert StoppedRun(WithRun(s, r, g), e);
    }
  }

  lemma DecideMoves(s: State, r: RunId, jobValid: bool, ownerPending: bool, reporting: set<A.Check>)
    requires Inv(s) && r in s.runs && s.runs[r].stage.Checking?
    ensures GatewayMove(s, DecideStep(s, r, s.runs[r], jobValid, ownerPending, reporting), r)
  {
    var g := s.runs[r];
    var request := g.stage.request;
    assert RunOk(s, r);
    if !jobValid || request.plan !in s.plans || g.profile !in s.plans[request.plan].stop {
      LocalMove(s, r, g.(stage := Watching));
    } else if !Selected(s, request.plan, g.profile, r) {
      ReplyMove(s, r, g.(stage := Watching), request, Refused);
    } else if A.AfterPauseIfIdle(g.gate, ownerPending, reporting).Err? {
      ReplyMove(s, r, g.(stage := Watching), request, Busy);
    } else {
      LocalMove(s, r, g.(stage := Holding(request), gate := A.AfterPauseIfIdle(g.gate, ownerPending, reporting).value));
    }
  }

  lemma ReadyMoves(s: State, r: RunId)
    requires Inv(s) && r in s.runs && s.runs[r].stage.Holding?
    ensures GatewayMove(s, GatewayStep(s, r, ReplyReady), r)
  {
    assert RunOk(s, r);
  }

  lemma StillMove(s: State, r: RunId)
    requires Inv(s) && r in s.runs && !s.runs[r].stage.Exited?
    ensures GatewayMove(s, s, r)
  {
    assert RunOk(s, r);
    LocalMove(s, r, s.runs[r]);
    assert s.runs[r := s.runs[r]] == s.runs;
    assert WithRun(s, r, s.runs[r]) == s;
  }

  /** Task work and the process's own end. */
  lemma LifecycleMoves(s: State, r: RunId, a: GatewayAction)
    requires Inv(s) && r in s.runs && !s.runs[r].stage.Exited?
    requires a.Work? || a.OwnShutdown? || a.Exit?
    ensures GatewayMove(s, GatewayStep(s, r, a), r)
  {
    var g := s.runs[r];
    assert RunOk(s, r);
    if a.Work? {
      if IsTaskEvent(a.event) {
        TaskEventsKeepTheGate(g.gate, a.event);
        LocalMove(s, r, g.(gate := A.Apply(g.gate, a.event)));
      } else {
        StillMove(s, r);
      }
    } else {
      LocalMove(s, r, if a.Exit? then g.(stage := Exited) else g.(shutdown := true));
    }
  }

  /** The polling half of the watcher. */
  lemma PollMoves(s: State, r: RunId, a: GatewayAction)
    requires Inv(s) && r in s.runs && !s.runs[r].stage.Exited?
    requires a.Poll? || a.ProbeNew?
    ensures GatewayMove(s, GatewayStep(s, r, a), r)
  {
    assert RunOk(s, r);
    if GatewayStep(s, r, a) == s {
      StillMove(s, r);
    } else {
      LocalMove(s, r, GatewayStep(s, r, a).runs[r]);
    }
  }

  /** The prepared half of the watcher, except the two record reads. */
  lemma WaitMoves(s: State, r: RunId, a: GatewayAction)
    requires Inv(s) && r in s.runs && !s.runs[r].stage.Exited?
    requires a.Fault? || a.Reopen?
    ensures GatewayMove(s, GatewayStep(s, r, a), r)
  {
    assert RunOk(s, r);
    if GatewayStep(s, r, a) == s {
      StillMove(s, r);
    } else {
      LocalMove(s, r, GatewayStep(s, r, a).runs[r]);
    }
  }

  lemma ProbeMoves(s: State, r: RunId, spurious: bool)
    requires Inv(s) && r in s.runs && !s.runs[r].stage.Exited?
    ensures GatewayMove(s, GatewayStep(s, r, Probe(spurious)), r)
  {
    assert RunOk(s, r);
    if s.runs[r].stage.Probing? {
      LocalMove(s, r, GatewayStep(s, r, Probe(spurious)).runs[r]);
    } else {
      StillMove(s, r);
    }
  }

  lemma AnswerMoves(s: State, r: RunId, a: GatewayAction)
    requires Inv(s) && r in s.runs && !s.runs[r].stage.Exited?
    requires a.ReplyReleased? || a.ReplyStopping?
    ensures GatewayMove(s, GatewayStep(s, r, a), r)
  {
    var g := s.runs[r];
    assert RunOk(s, r);
    if a.ReplyReleased? && g.stage.Acknowledging? {
      ReplyMove(s, r, g.(stage := Watching), g.stage.request, Released);
    } else if a.ReplyStopping? && g.stage.Committing? {
      ReplyMove(s, r, g.(stage := Leaving), g.stage.request, Stopping);
    } else {
      StillMove(s, r);
    }
  }

  lemma GatewayMoves(s: State, r: RunId, a: GatewayAction)
    requires Inv(s) && r in s.runs && !s.runs[r].stage.Exited?
    ensures GatewayMove(s, GatewayStep(s, r, a), r)
  {
    if a.Decide? && s.runs[r].stage.Checking? {
      DecideMoves(s, r, a.jobValid, a.ownerPending, a.reporting);
    } else if a.ReplyReady? && s.runs[r].stage.Holding? {
      ReadyMoves(s, r);
    } else if a.ReadCurrent? && s.runs[r].stage.Prepared? {
      ReadCurrentMoves(s, r);
    } else if a.ReadLatest? && s.runs[r].stage.Rereading? {
      ReadLatestMoves(s, r);
    } else if a.Work? || a.OwnShutdown? || a.Exit? {
      LifecycleMoves(s, r, a);
    } else if a.Poll? || a.ProbeNew? {
      PollMoves(s, r, a);
    } else if a.Probe? {
      ProbeMoves(s, r, a.spurious);
    } else if a.Fault? || a.Reopen? {
      WaitMoves(s, r, a);
    } else if a.ReplyReleased? || a.ReplyStopping? {
      AnswerMoves(s, r, a);
    } else {
      StillMove(s, r);
    }
  }

  lemma GatewayKeeps(s: State, r: RunId, a: GatewayAction)
    requires Inv(s) && r in s.runs && !s.runs[r].stage.Exited?
    ensures Inv(GatewayStep(s, r, a))
  {
    GatewayMoves(s, r, a);
    GatewayMoveKeeps(s, GatewayStep(s, r, a), r);
  }

  lemma OneMoreWrite(writes: seq<Request>, request: Request, attempt: Attempt)
    ensures PhasesOf(writes + [request], attempt)
            == PhasesOf(writes, attempt) + if request.attempt == attempt then [request.phase] else []
  {
    assert (writes + [request])[..|writes|] == writes;
  }

  /** Publishing a lawful next phase keeps every attempt's record lawful. */
  lemma PublishKeepsWrites(s: State, request: Request, s': State)
    requires WritesOk(s)
    requires s'.request == Some(request) && s'.past.writes == s.past.writes + [request]
    requires s.past.planOf.Keys <= s'.past.planOf.Keys && request.attempt in s'.past.planOf
    requires Lawful(PhasesOf(s.past.writes, request.attempt) + [request.phase])
    ensures WritesOk(s')
  {
    forall a
      ensures Lawful(PhasesOf(s'.past.writes, a)) && (a !in s'.past.planOf ==> PhasesOf(s'.past.writes, a) == [])
    {
      OneMoreWrite(s.past.writes, request, a);
      assert Lawful(PhasesOf(s.past.writes, a));
    }
    OneMoreWrite(s.past.writes, request, request.attempt);
  }

  lemma RunsStayOk(s: State, s': State)
    requires RunsOk(s) && s'.runs == s.runs
    requires forall id :: id in s.plans ==> id in s'.plans && s'.plans[id] == s.plans[id]
    requires forall a :: a in s.past.planOf ==> a in s'.past.planOf && s'.past.planOf[a] == s.past.planOf[a]
    requires s'.past.readied == s.past.readied && s'.past.stopped == s.past.stopped
    requires forall r :: r in s.runs && s.runs[r].stage.Rereading? ==> !Undecided(s', s.runs[r].stage.request.attempt)
    ensures RunsOk(s')
  {
    forall r | r in s'.runs ensures RunOk(s', r) {
      assert RunOk(s, r);
    }
  }

  /** A step that changes only who holds the lease and what that process remembers. */
  lemma LeaseMoveKeeps(s: State, s': State)
    requires Inv(s) && s' == s.(coordinator := s'.coordinator, cancelled := s'.cancelled)
    requires CoordinatorOk(s')
    requires forall a :: Undecided(s', a) ==> Undecided(s, a)
    ensures Inv(s')
  {
    forall r | r in s.runs ensures RunOk(s, r) {}
    RunsStayOk(s, s');
    forall a | a in s.past.committed ensures EveryoneAnswered(s, a) && EveryoneAnswered(s', a) {}
    forall e | e in s.past.reopened ensures Dead(s', e.1) { assert Dead(s, e.1); }
    forall e | e in s.past.stopped ensures StoppedRun(s', e) { assert StoppedRun(s, e); }
  }

  /** Publishing a fresh preparation over a record that is no commit. */
  lemma PrepareKeeps(s: State, attempt: Attempt)
    requires Inv(s) && s.coordinator.Some? && s.coordinator.value.Opening?
    requires OpenStep(s, attempt).request != s.request
    ensures Inv(OpenStep(s, attempt))
  {
    var s' := OpenStep(s, attempt);
    forall r | r in s.runs ensures RunOk(s, r) {}
    RunsStayOk(s, s');
    assert PhasesOf(s.past.writes, attempt) == [];
    PublishKeepsWrites(s, s'.request.value, s');
    forall a | a in s.past.committed
      ensures a in s'.past.planOf && EveryoneAnswered(s', a) && AllExited(s', s'.past.planOf[a])
    {
      assert EveryoneAnswered(s, a);
    }
    forall e | e in s.past.reopened ensures Dead(s', e.1) { assert Dead(s, e.1); }
    forall e | e in s.past.stopped ensures StoppedRun(s', e) { assert StoppedRun(s, e); }
  }

  lemma OpenKeeps(s: State, attempt: Attempt)
    requires Inv(s) && s.coordinator.Some? && s.coordinator.value.Opening?
    ensures Inv(OpenStep(s, attempt))
  {
    if OpenStep(s, attempt).request != s.request {
      PrepareKeeps(s, attempt);
    } else {
      LeaseMoveKeeps(s, OpenStep(s, attempt));
    }
  }

  lemma ScanKeeps(s: State, p: Profile)
    requires Inv(s) && s.coordinator.Some? && s.coordinator.value.Scanning?
    ensures Inv(ScanStep(s, p))
  {
    LeaseMoveKeeps(s, ScanStep(s, p));
  }

  lemma CommitKeeps(s: State)
    requires Inv(s) && s.coordinator.Some? && s.coordinator.value.Scanning?
    ensures Inv(CommitStep(s))
  {
    var s' := CommitStep(s);
    if s' != s {
      var c := s.coordinator.value;
      forall r | r in s.runs ensures RunOk(s, r) {}
      RunsStayOk(s, s');
      assert Lawful(PhasesOf(s.past.writes, c.attempt));
      PublishKeepsWrites(s, s'.request.value, s');
      forall a | a in s'.past.committed ensures a in s'.past.planOf && EveryoneAnswered(s', a) {
        if a != c.attempt { assert EveryoneAnswered(s, a); }
      }
      forall e | e in s.past.reopened ensures Dead(s', e.1) {
        assert Dead(s, e.1);
      }
    }
  }

  lemma AbortKeeps(s: State)
    requires Inv(s) && s.coordinator.Some? && s.coordinator.value.Aborting?
    ensures Inv(AbortStep(s))
  {
    var s' := AbortStep(s);
    forall r | r in s.runs ensures RunOk(s, r) {}
    RunsStayOk(s, s');
    assert Lawful(PhasesOf(s.past.writes, s.coordinator.value.attempt));
    PublishKeepsWrites(s, s'.request.value, s');
    forall a | a in s.past.committed ensures EveryoneAnswered(s, a) && EveryoneAnswered(s', a) {}
  }

  lemma StoppedKeeps(s: State)
    requires Inv(s) && s.coordinator.Some? && s.coordinator.value.Draining?
    ensures Inv(StoppedStep(s))
  {
    var s' := StoppedStep(s);
    if s' != s {
      forall r | r in s.runs ensures RunOk(s, r) {}
      RunsStayOk(s, s');
      var phases := PhasesOf(s.past.writes, s.request.value.attempt);
      assert Lawful(phases);
      PublishKeepsWrites(s, s'.request.value, s');
      forall a | a in s.past.committed ensures EveryoneAnswered(s, a) && EveryoneAnswered(s', a) {}
    }
  }

  /** Taking or losing the lease, rescanning, rejecting and settling publish nothing. */
  lemma QuietKeeps(s: State, a: Action)
    requires Inv(s) && (a.Acquire? || a.ScanAgain? || a.Reject? || a.Vanish? || a.Settle?)
    ensures Inv(CoordinatorStep(s, a))
  {
    LeaseMoveKeeps(s, CoordinatorStep(s, a));
  }

  lemma CoordinatorKeeps(s: State, a: Action)
    requires Inv(s) && !a.Review? && !a.Spawn? && !a.Act?
    ensures Inv(CoordinatorStep(s, a))
  {
    if a.Acquire? || a.ScanAgain? || a.Reject? || a.Vanish? || a.Settle? {
      QuietKeeps(s, a);
    } else if s.coordinator.Some? {
      var c := s.coordinator.value;
      if a.Open? && c.Opening? { OpenKeeps(s, a.attempt); }
      if a.Scan? && c.Scanning? { ScanKeeps(s, a.profile); }
      if a.WriteCommit? && c.Scanning? { CommitKeeps(s); }
      if a.WriteAbort? && c.Aborting? { AbortKeeps(s); }
      if a.WriteStopped? && c.Draining? { StoppedKeeps(s); }
    }
  }

  lemma ReviewKeeps(s: State, id: PlanId, plan: Plan)
    requires Inv(s)
    ensures Inv(Step(s, Review(id, plan)))
  {
    var s' := Step(s, Review(id, plan));
    forall r | r in s.runs ensures RunOk(s, r) {}
    RunsStayOk(s, s');
    forall a | a in s.past.committed ensures EveryoneAnswered(s, a) && EveryoneAnswered(s', a) {}
  }

  lemma SpawnKeeps(s: State, r: RunId, p: Profile)
    requires Inv(s)
    ensures Inv(Step(s, Spawn(r, p)))
  {
    var s' := Step(s, Spawn(r, p));
    forall x | x in s'.runs ensures RunOk(s', x) {
      if x in s.runs { assert RunOk(s, x); }
    }
    forall a | a in s.past.committed ensures EveryoneAnswered(s, a) && EveryoneAnswered(s', a) {}
    forall e | e in s.past.stopped ensures StoppedRun(s', e) { assert StoppedRun(s, e); }
  }

  lemma StepKeeps(s: State, a: Action)
    requires Inv(s)
    ensures Inv(Step(s, a))
  {
    match a
    case Review(id, plan) => ReviewKeeps(s, id, plan);
    case Spawn(r, p) => SpawnKeeps(s, r, p);
    case Act(r, step) => if r in s.runs && !s.runs[r].stage.Exited? { GatewayKeeps(s, r, step); }
    case _ => CoordinatorKeeps(s, a);
  }

  lemma {:induction false} EveryRunKeeps(actions: seq<Action>)
    ensures Inv(Run(actions))
  {
    if actions != [] {
      EveryRunKeeps(actions[..|actions| - 1]);
      StepKeeps(Run(actions[..|actions| - 1]), actions[|actions| - 1]);
    }
  }

  // ---- what the protocol guarantees over whole runs ----

  predicate Remembers(s: State, s': State) {
    && s.past.committed <= s'.past.committed && s.past.reopened <= s'.past.reopened
    && s.past.readied <= s'.past.readied && s.past.stopped <= s'.past.stopped
    && s.cancelled <= s'.cancelled && s.runs.Keys <= s'.runs.Keys
    && (forall a :: a in s.past.planOf ==> a in s'.past.planOf && s'.past.planOf[a] == s.past.planOf[a])
    && (forall id :: id in s.plans ==> id in s'.plans && s'.plans[id] == s.plans[id])
  }

  lemma GatewayRemembers(s: State, r: RunId, a: GatewayAction)
    requires r in s.runs && !s.runs[r].stage.Exited?
    ensures Remembers(s, GatewayStep(s, r, a))
  {
  }

  lemma CoordinatorRemembers(s: State, a: Action)
    ensures Remembers(s, CoordinatorStep(s, a))
  {
  }

  lemma StepRemembers(s: State, a: Action)
    ensures Remembers(s, Step(s, a))
  {
    if a.Act? {
      if a.run in s.runs && !s.runs[a.run].stage.Exited? { GatewayRemembers(s, a.run, a.step); }
    } else if !a.Review? && !a.Spawn? {
      CoordinatorRemembers(s, a);
    }
  }

  lemma RunSplits(before: seq<Action>, a: Action)
    ensures Run(before + [a]) == Step(Run(before), a)
  {
    assert (before + [a])[..|before|] == before;
  }

  lemma {:induction false} RunRemembers(before: seq<Action>, after: seq<Action>)
    ensures Remembers(Run(before), Run(before + after))
  {
    if after == [] {
      assert before + after == before;
    } else {
      var init := after[..|after| - 1];
      RunRemembers(before, init);
      assert before + after == (before + init) + [after[|after| - 1]];
      RunSplits(before + init, after[|after| - 1]);
      StepRemembers(Run(before + init), after[|after| - 1]);
    }
  }

  /** A run that gave up on what the protocol showed belongs to an attempt that no run ever commits. */
  lemma ReopenedAttemptsNeverCommit(before: seq<Action>, after: seq<Action>, r: RunId, attempt: Attempt)
    requires (r, attempt) in Run(before).past.reopened
    ensures attempt !in Run(before + after).past.committed
  {
    RunRemembers(before, after);
    EveryRunKeeps(before + after);
    assert Dead(Run(before + after), (r, attempt).1);
  }

  /** Leaving the wait is either committing, or giving up, or the run's own shutdown or fault. */
  lemma {:induction false} LeavingTheWait(actions: seq<Action>, r: RunId, step: GatewayAction)
    requires r in Run(actions).runs && Run(actions).runs[r].stage.Waiting()
    requires !Run(actions + [Act(r, step)]).runs[r].stage.Waiting()
    ensures var s := Run(actions); var s' := Run(actions + [Act(r, step)]);
            var e := (r, s.runs[r].stage.request.attempt);
            || e in s'.past.stopped || e in s'.past.reopened
            || step.Fault? || step.Exit? || (step.ReadCurrent? && s.runs[r].shutdown)
  {
    RunSplits(actions, Act(r, step));
  }

  predicate OwnEnd(a: Action, r: RunId) {
    a.Act? && a.run == r && (a.step.Fault? || a.step.OwnShutdown? || a.step.Exit?)
  }

  /** The run is still waiting for this attempt or is stopping on it, with intake closed and empty. */
  predicate OnItsWayOut(s: State, r: RunId, attempt: Attempt) {
    && attempt in s.past.committed && r in s.runs && !s.runs[r].stage.Exited?
    && s.runs[r].gate.paused && s.runs[r].gate.active == 0
    && ((s.runs[r].stage.Waiting() && s.runs[r].stage.request.attempt == attempt && !s.runs[r].shutdown)
        || (r, attempt) in s.past.stopped)
  }

  lemma OwnStepOut(s: State, step: GatewayAction, r: RunId, attempt: Attempt)
    requires Inv(s) && OnItsWayOut(s, r, attempt) && (r, attempt) !in s.past.stopped
    requires !step.Fault? && !step.OwnShutdown? && !step.Exit?
    ensures var s' := GatewayStep(s, r, step);
            && s'.runs[r].gate.paused && !s'.runs[r].stage.Exited?
            && ((s'.runs[r].stage.Waiting() && s'.runs[r].stage.request.attempt == attempt && !s'.runs[r].shutdown)
                || (r, attempt) in s'.past.stopped)
  {
    assert RunOk(s, r);
    CommitStaysReadable(s, r, attempt);
    if step.Work? && IsTaskEvent(step.event) { TaskEventsKeepTheGate(s.runs[r].gate, step.event); }
  }

  lemma OthersLeaveTheRun(s: State, a: Action, r: RunId)
    requires r in s.runs && !(a.Act? && a.run == r)
    ensures r in Step(s, a).runs && Step(s, a).runs[r] == s.runs[r]
  {
  }

  lemma OneStepOut(s: State, a: Action, r: RunId, attempt: Attempt)
    requires Inv(s) && OnItsWayOut(s, r, attempt) && !OwnEnd(a, r)
    ensures OnItsWayOut(Step(s, a), r, attempt)
  {
    StepKeeps(s, a);
    StepRemembers(s, a);
    if a.Act? && a.run == r {
      if (r, attempt) in s.past.stopped {
        StoppedRunsStay(s, a.step, r, attempt);
      } else {
        OwnStepOut(s, a.step, r, attempt);
      }
      assert RunOk(Step(s, a), r);
    } else {
      OthersLeaveTheRun(s, a, r);
    }
  }

  lemma StoppedRunsStay(s: State, step: GatewayAction, r: RunId, attempt: Attempt)
    requires Inv(s) && (r, attempt) in s.past.stopped && r in s.runs && !s.runs[r].stage.Exited?
    requires !step.Exit?
    ensures var s' := GatewayStep(s, r, step);
            s'.runs[r].gate.paused && !s'.runs[r].stage.Exited? && (r, attempt) in s'.past.stopped
  {
    assert StoppedRun(s, (r, attempt));
    if step.Work? && IsTaskEvent(step.event) {
      assert RunOk(s, r);
      TaskEventsKeepTheGate(s.runs[r].gate, step.event);
    }
  }

  /**
   Once an attempt is committed, a run still waiting for it can only go on to stop, whatever
   any other process does: the coordinator may die right after its commit write.
   */
  lemma {:induction false} OnceCommittedOnlyStops(before: seq<Action>, after: seq<Action>, r: RunId, attempt: Attempt)
    requires OnItsWayOut(Run(before), r, attempt)
    requires forall i :: 0 <= i < |after| ==> !OwnEnd(after[i], r)
    ensures OnItsWayOut(Run(before + after), r, attempt)
  {
    if after == [] {
      assert before + after == before;
    } else {
      var init := after[..|after| - 1];
      OnceCommittedOnlyStops(before, init, r, attempt);
      assert before + after == (before + init) + [after[|after| - 1]];
      RunSplits(before + init, after[|after| - 1]);
      EveryRunKeeps(before + init);
      OneStepOut(Run(before + init), after[|after| - 1], r, attempt);
    }
  }

  /** The run's own end: its exit, or its fault or shutdown before it stopped for this attempt. */
  predicate LeavesEarly(s: State, a: Action, r: RunId, attempt: Attempt) {
    && a.Act? && a.run == r
    && (a.step.Exit? || ((a.step.Fault? || a.step.OwnShutdown?) && (r, attempt) !in s.past.stopped))
  }

  lemma LeavingEarlyLeaves(s: State, a: Action, r: RunId, attempt: Attempt)
    requires OnItsWayOut(s, r, attempt) && LeavesEarly(s, a, r, attempt)
    ensures !OnItsWayOut(Step(s, a), r, attempt)
  {
  }

  lemma StoppedRunsIgnoreTheirEnd(s: State, a: Action, r: RunId, attempt: Attempt)
    requires Inv(s) && OnItsWayOut(s, r, attempt) && (r, attempt) in s.past.stopped && OwnEnd(a, r) && !a.step.Exit?
    ensures OnItsWayOut(Step(s, a), r, attempt)
  {
    StepKeeps(s, a);
    StepRemembers(s, a);
    StoppedRunsStay(s, a.step, r, attempt);
    assert RunOk(Step(s, a), r);
  }

  /** After any run, a step takes a run off its committed way out exactly when it is that run's own end. */
  lemma WayOutIsLeftExactly(actions: seq<Action>, a: Action, r: RunId, attempt: Attempt)
    requires OnItsWayOut(Run(actions), r, attempt)
    ensures OnItsWayOut(Step(Run(actions), a), r, attempt) <==> !LeavesEarly(Run(actions), a, r, attempt)
  {
    EveryRunKeeps(actions);
    var s := Run(actions);
    if LeavesEarly(s, a, r, attempt) {
      LeavingEarlyLeaves(s, a, r, attempt);
    } else if OwnEnd(a, r) {
      StoppedRunsIgnoreTheirEnd(s, a, r, attempt);
    } else {
      OneStepOut(s, a, r, attempt);
    }
  }

  lemma ProbeSettles(s: State, r: RunId, attempt: Attempt, spurious: bool)
    requires Inv(s) && OnItsWayOut(s, r, attempt) && (r, attempt) !in s.past.stopped
    ensures var stage := Step(s, Act(r, Probe(spurious))).runs[r].stage;
            stage.Prepared? || stage.Rereading?
  {
  }

  lemma RereadSettles(s: State, r: RunId, attempt: Attempt)
    requires Inv(s) && OnItsWayOut(s, r, attempt) && (r, attempt) !in s.past.stopped
    requires s.runs[r].stage.Prepared? || s.runs[r].stage.Rereading?
    ensures Step(s, Act(r, ReadLatest)).runs[r].stage.Prepared?
  {
    assert RunOk(s, r);
    CommitStaysReadable(s, r, attempt);
  }

  lemma ReadStops(s: State, r: RunId, attempt: Attempt)
    requires Inv(s) && OnItsWayOut(s, r, attempt) && (s.runs[r].stage.Prepared? || (r, attempt) in s.past.stopped)
    ensures (r, attempt) in Step(s, Act(r, ReadCurrent)).past.stopped
  {
    if (r, attempt) in s.past.stopped {
      StepRemembers(s, Act(r, ReadCurrent));
    } else {
      assert RunOk(s, r);
      CommitStaysReadable(s, r, attempt);
    }
  }

  /** A committed run needs only three of its own steps to stop: nothing else has to happen. */
  lemma ThreeOwnStepsStop(actions: seq<Action>, r: RunId, attempt: Attempt, spurious: bool)
    requires OnItsWayOut(Run(actions), r, attempt)
    ensures (r, attempt) in Run(actions + [Act(r, Probe(spurious))] + [Act(r, ReadLatest)] + [Act(r, ReadCurrent)]).past.stopped
  {
    var s := Run(actions);
    EveryRunKeeps(actions);
    RunSplits(actions, Act(r, Probe(spurious)));
    RunSplits(actions + [Act(r, Probe(spurious))], Act(r, ReadLatest));
    RunSplits(actions + [Act(r, Probe(spurious))] + [Act(r, ReadLatest)], Act(r, ReadCurrent));
    if (r, attempt) in s.past.stopped {
      StepRemembers(s, Act(r, Probe(spurious)));
      StepRemembers(Step(s, Act(r, Probe(spurious))), Act(r, ReadLatest));
      StepRemembers(Step(Step(s, Act(r, Probe(spurious))), Act(r, ReadLatest)), Act(r, ReadCurrent));
    } else {
      var one := Step(s, Act(r, Probe(spurious)));
      OneStepOut(s, Act(r, Probe(spurious)), r, attempt);
      StepKeeps(s, Act(r, Probe(spurious)));
      ProbeSettles(s, r, attempt, spurious);
      if (r, attempt) !in one.past.stopped { RereadSettles(one, r, attempt); }
      OneStepOut(one, Act(r, ReadLatest), r, attempt);
      StepKeeps(one, Act(r, ReadLatest));
      StepRemembers(one, Act(r, ReadLatest));
      ReadStops(Step(one, Act(r, ReadLatest)), r, attempt);
    }
  }

  /** Commit is recorded only after every selected run wrote ready with this attempt and its reviewed identity. */
  lemma CommitNeedsEveryReply(actions: seq<Action>, attempt: Attempt, p: Profile)
    requires attempt in Run(actions).past.committed
    ensures var s := Run(actions);
            attempt in s.past.planOf && s.past.planOf[attempt] in s.plans
    ensures var s := Run(actions); var plan := s.plans[s.past.planOf[attempt]];
            p in plan.Participants() ==> (plan.reviewed[p], attempt) in s.past.readied
  {
    EveryRunKeeps(actions);
    var s := Run(actions);
    assert EveryoneAnswered(s, attempt);
    if p in s.plans[s.past.planOf[attempt]].Participants() {
      assert AnsweredBy(s, s.past.planOf[attempt], attempt, p);
    }
  }

  /** Per attempt the record only ever moves prepare to abort, or prepare to commit to stopped. */
  lemma PhasesOnlyMoveForward(actions: seq<Action>, attempt: Attempt)
    ensures Lawful(PhasesOf(Run(actions).past.writes, attempt))
  {
    EveryRunKeeps(actions);
  }

  /** Whoever stops was reviewed, answered ready for this very attempt, and the attempt was committed. */
  lemma OnlyReviewedRunsStop(actions: seq<Action>, r: RunId, attempt: Attempt)
    requires (r, attempt) in Run(actions).past.stopped
    ensures var s := Run(actions);
            && attempt in s.past.committed && (r, attempt) in s.past.readied && r in s.runs
            && attempt in s.past.planOf && Selected(s, s.past.planOf[attempt], s.runs[r].profile, r)
  {
    EveryRunKeeps(actions);
    assert StoppedRun(Run(actions), (r, attempt));
  }

  /** A run that started after the attempt was opened never stops on it. */
  lemma RestartedRunsIgnoreOldAttempts(before: seq<Action>, after: seq<Action>, r: RunId, attempt: Attempt)
    requires attempt in Run(before).past.planOf && r !in Run(before).runs
    ensures (r, attempt) !in Run(before + after).past.stopped
  {
    EveryRunKeeps(before);
    EveryRunKeeps(before + after);
    RunRemembers(before, after);
    if (r, attempt) in Run(before + after).past.stopped {
      OnlyReviewedRunsStop(before + after, r, attempt);
    }
  }

  /** From its ready reply through the end of the process, a stopped or waiting run is empty and admits nothing. */
  lemma PreparedRunsAreIdle(actions: seq<Action>, r: RunId, attempt: Attempt)
    requires r in Run(actions).runs
    requires Run(actions).runs[r].stage.Waiting() || (r, attempt) in Run(actions).past.stopped
    ensures var gate := Run(actions).runs[r].gate;
            gate.paused && gate.active == 0 && A.AfterEnter(gate).Err?
  {
    EveryRunKeeps(actions);
    assert RunOk(Run(actions), r);
    if (r, attempt) in Run(actions).past.stopped {
      assert StoppedRun(Run(actions), (r, attempt));
    }
  }

  lemma OnlyLivePlansCommit(s: State, a: Action, attempt: Attempt)
    requires Inv(s) && attempt in Step(s, a).past.committed && attempt !in s.past.committed
    ensures attempt in s.past.planOf && s.past.planOf[attempt] !in s.cancelled
  {
    if a.Act? {
      if a.run in s.runs && !s.runs[a.run].stage.Exited? { GatewayMoves(s, a.run, a.step); }
    }
  }

  /** Settlement is final: no attempt of a cancelled plan is committed after it. */
  lemma {:induction false} CancelledPlansNeverCommit(before: seq<Action>, after: seq<Action>, id: PlanId, attempt: Attempt)
    requires id in Run(before).cancelled
    requires attempt in Run(before + after).past.committed && attempt !in Run(before).past.committed
    ensures attempt in Run(before + after).past.planOf && Run(before + after).past.planOf[attempt] != id
  {
    assert before + [] == before;
    if after != [] {
      var init, last := after[..|after| - 1], after[|after| - 1];
      var s := Run(before + init);
      assert before + after == (before + init) + [last];
      RunSplits(before + init, last);
      RunRemembers(before, init);
      StepRemembers(s, last);
      if attempt in s.past.committed {
        CancelledPlansNeverCommit(before, init, id, attempt);
      } else {
        EveryRunKeeps(before + init);
        OnlyLivePlansCommit(s, last, attempt);
      }
    }
  }

  /**
   The exemption in LeavingTheWait is real. A run whose own wait is cancelled after its
   ready reply was collected reopens intake, and the coordinator still commits.
   */
  lemma OwnFaultCanReopenACommittedAttempt() returns (actions: seq<Action>, r: RunId, attempt: Attempt)
    ensures var s := Run(actions);
            && attempt in s.past.committed && (r, attempt) in s.past.readied && (r, attempt) !in s.past.stopped
            && r in s.runs && !s.runs[r].gate.paused
  {
    r, attempt := 0, 0;
    var plan := Plan(map[0 := 0], {0}, {0});
    assert plan.Participants() == {0};
    var prefix := [Spawn(0, 0)] + [Review(0, plan)] + [Acquire(0)] + [Open(0)];
    OpenedState(plan, prefix);
    ReadyState(plan, prefix);
    var ready := prefix + [Act(0, Poll)] + [Act(0, ProbeNew(false, false))] + [Act(0, Decide(true, false, {}))] + [Act(0, ReplyReady)];
    CommittedState(plan, ready);
    actions := ready + [Scan(0)] + [Act(0, Fault)] + [Act(0, Reopen)] + [WriteCommit];
  }

  lemma OpenedState(plan: Plan, actions: seq<Action>)
    requires plan == Plan(map[0 := 0], {0}, {0}) && plan.Participants() == {0}
    requires actions == [Spawn(0, 0)] + [Review(0, plan)] + [Acquire(0)] + [Open(0)]
    ensures var s := Run(actions);
            && s.plans == map[0 := plan] && s.request == Some(Request(0, 0, Prepare)) && s.replies == map[]
            && s.coordinator == Some(Scanning(0, 0, {0}, {}))
            && s.runs == map[0 := Gateway(0, Watching, None, A.OPEN_GATE, false)]
            && s.past.committed == {} && s.past.stopped == {}
  {
    assert plan.reviewed.Values == {0};
    assert [Spawn(0, 0)] == [] + [Spawn(0, 0)];
    RunSplits([], Spawn(0, 0));
    RunSplits([Spawn(0, 0)], Review(0, plan));
    RunSplits([Spawn(0, 0)] + [Review(0, plan)], Acquire(0));
    RunSplits([Spawn(0, 0)] + [Review(0, plan)] + [Acquire(0)], Open(0));
  }

  /** From an idle watcher to the reply, on the states themselves. */
  lemma Replies(plan: Plan, s: State)
    requires plan == Plan(map[0 := 0], {0}, {0}) && s.plans == map[0 := plan]
    requires s.runs == map[0 := Gateway(0, Checking(Request(0, 0, Prepare)), Some(0), A.OPEN_GATE, false)]
    requires s.request == Some(Request(0, 0, Prepare)) && s.replies == map[]
    ensures var held := Step(s, Act(0, Decide(true, false, {})));
            var t := Step(held, Act(0, ReplyReady));
            && t.plans == s.plans && t.request == s.request && t.coordinator == s.coordinator
            && t.replies == map[(0, 0) := Reply(0, 0, Ready)] && (0, 0) in t.past.readied
            && t.runs == map[0 := Gateway(0, Prepared(Request(0, 0, Prepare)), Some(0), A.Gate(true, 0, []), false)]
            && t.past.committed == s.past.committed && t.past.stopped == s.past.stopped
  {
    var held := Step(s, Act(0, Decide(true, false, {})));
    assert held == s.(runs := map[0 := Gateway(0, Holding(Request(0, 0, Prepare)), Some(0), A.Gate(true, 0, []), false)]);
  }

  lemma ReadyState(plan: Plan, before: seq<Action>)
    requires plan == Plan(map[0 := 0], {0}, {0}) && plan.Participants() == {0}
    requires Run(before).plans == map[0 := plan] && Run(before).request == Some(Request(0, 0, Prepare))
    requires Run(before).coordinator == Some(Scanning(0, 0, {0}, {})) && Run(before).replies == map[]
    requires Run(before).runs == map[0 := Gateway(0, Watching, None, A.OPEN_GATE, false)]
    requires Run(before).past.committed == {} && Run(before).past.stopped == {}
    ensures var s := Run(before + [Act(0, Poll)] + [Act(0, ProbeNew(false, false))] + [Act(0, Decide(true, false, {}))]
                         + [Act(0, ReplyReady)]);
            && s.plans == map[0 := plan] && s.request == Some(Request(0, 0, Prepare))
            && s.replies == map[(0, 0) := Reply(0, 0, Ready)] && (0, 0) in s.past.readied
            && s.coordinator == Some(Scanning(0, 0, {0}, {}))
            && s.runs == map[0 := Gateway(0, Prepared(Request(0, 0, Prepare)), Some(0), A.Gate(true, 0, []), false)]
            && s.past.committed == {} && s.past.stopped == {}
  {
    var one := before + [Act(0, Poll)];
    var two := one + [Act(0, ProbeNew(false, false))];
    RunSplits(before, Act(0, Poll));
    RunSplits(one, Act(0, ProbeNew(false, false)));
    Sees(Run(before));
    RunSplits(two, Act(0, Decide(true, false, {})));
    RunSplits(two + [Act(0, Decide(true, false, {}))], Act(0, ReplyReady));
    Replies(plan, Run(two));
  }

  lemma Sees(s: State)
    requires s.runs == map[0 := Gateway(0, Watching, None, A.OPEN_GATE, false)]
    requires s.request == Some(Request(0, 0, Prepare)) && s.coordinator.Some?
    ensures Step(Step(s, Act(0, Poll)), Act(0, ProbeNew(false, false)))
         == s.(runs := map[0 := Gateway(0, Checking(Request(0, 0, Prepare)), Some(0), A.OPEN_GATE, false)])
  {
    var saw := Step(s, Act(0, Poll));
    assert saw == s.(runs := map[0 := Gateway(0, Saw(Request(0, 0, Prepare)), Some(0), A.OPEN_GATE, false)]);
  }

  lemma FaultedState(plan: Plan, before: seq<Action>)
    requires plan == Plan(map[0 := 0], {0}, {0}) && plan.Participants() == {0}
    requires Run(before).plans == map[0 := plan] && Run(before).request == Some(Request(0, 0, Prepare))
    requires Run(before).replies == map[(0, 0) := Reply(0, 0, Ready)] && (0, 0) in Run(before).past.readied
    requires Run(before).coordinator == Some(Scanning(0, 0, {0}, {}))
    requires Run(before).runs == map[0 := Gateway(0, Prepared(Request(0, 0, Prepare)), Some(0), A.Gate(true, 0, []), false)]
    ensures var s := Run(before + [Scan(0)] + [Act(0, Fault)]);
            && s.plans == map[0 := plan] && s.coordinator == Some(Scanning(0, 0, {}, {0}))
            && s.past == Run(before).past && 0 in s.runs && s.runs[0].stage.Releasing?
  {
    assert {0} - {0} == {} && {} + {0} == {0};
    var one := before + [Scan(0)];
    RunSplits(before, Scan(0));
    assert Run(one) == ScanStep(Run(before), 0);
    RunSplits(one, Act(0, Fault));
  }

  lemma ReopensThenCommits(plan: Plan, s: State)
    requires plan == Plan(map[0 := 0], {0}, {0}) && plan.Participants() == {0}
    requires s.plans == map[0 := plan] && s.coordinator == Some(Scanning(0, 0, {}, {0}))
    requires 0 in s.runs && s.runs[0].stage.Releasing? && !A.Apply(s.runs[0].gate, A.Resume).paused
    ensures var reopened := Step(s, Act(0, Reopen));
            var end := Step(reopened, WriteCommit);
            && 0 in end.past.committed && end.past.readied == s.past.readied && end.past.stopped == s.past.stopped
            && 0 in end.runs && !end.runs[0].gate.paused
  {
    var reopened := Step(s, Act(0, Reopen));
    assert reopened.plans == s.plans && reopened.coordinator == s.coordinator && reopened.past == s.past;
    assert Step(reopened, WriteCommit) == CommitStep(reopened);
  }

  lemma CommittedState(plan: Plan, before: seq<Action>)
    requires plan == Plan(map[0 := 0], {0}, {0}) && plan.Participants() == {0}
    requires Run(before).plans == map[0 := plan] && Run(before).request == Some(Request(0, 0, Prepare))
    requires Run(before).replies == map[(0, 0) := Reply(0, 0, Ready)] && (0, 0) in Run(before).past.readied
    requires Run(before).coordinator == Some(Scanning(0, 0, {0}, {}))
    requires Run(before).runs == map[0 := Gateway(0, Prepared(Request(0, 0, Prepare)), Some(0), A.Gate(true, 0, []), false)]
    requires Run(before).past.stopped == {}
    ensures var s := Run(before + [Scan(0)] + [Act(0, Fault)] + [Act(0, Reopen)] + [WriteCommit]);
            && 0 in s.past.committed && (0, 0) in s.past.readied && (0, 0) !in s.past.stopped
            && 0 in s.runs && !s.runs[0].gate.paused
  {
    FaultedState(plan, before);
    var two := before + [Scan(0)] + [Act(0, Fault)];
    RunSplits(two, Act(0, Reopen));
    RunSplits(two + [Act(0, Reopen)], WriteCommit);
    ReopensThenCommits(plan, Run(two));
  }
}
