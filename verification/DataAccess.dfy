/**
 Leases on named data stores and the durable reservation that fences them across a handoff.

 A path is the sequence of its resolved, case-folded components, so `root <= path` says the
 root is the path or one of its ancestors. Lease files are named by an injective digest of
 namespace and path, so a lock is that pair itself.
 */
module DataAccess {
  import opened Wrappers

  type Path = seq<string>
  type Job = nat
  type Participant = nat
  type Digest = nat
  type Holder = nat

  // ---- paths ----

  function Ancestors(path: Path): set<Path> {
    set i | 0 <= i <= |path| :: path[..i]
  }

  lemma AncestorsArePrefixes(path: Path, root: Path)
    ensures root in Ancestors(path) <==> root <= path
  {
    if root <= path { assert path[..|root|] == root; }
  }

  predicate Related(a: Path, b: Path) {
    a <= b || b <= a
  }

  ghost predicate Overlap(a: set<Path>, b: set<Path>) {
    exists x, y :: x in a && y in b && Related(x, y)
  }

  /** _covered: every requested store lies at or under a reserved root. */
  predicate Covered(requested: set<Path>, reserved: set<Path>) {
    forall path :: path in requested ==> exists root :: root in Ancestors(path) && root in reserved
  }

  lemma CoveredOverlaps(requested: set<Path>, reserved: set<Path>)
    requires requested != {} && Covered(requested, reserved)
    ensures Overlap(requested, reserved)
  {
    var path :| path in requested;
    var root :| root in Ancestors(path) && root in reserved;
    AncestorsArePrefixes(path, root);
    assert Related(path, root);
  }

  // ---- lock sets ----

  datatype Namespace = Writers | Maintenance

  datatype Lock = AccountOwner | Startup(participant: Participant) | Store(namespace: Namespace, path: Path)

  /** Writers claim their roots in one namespace and all ancestors in the other; maintenance does the reverse. */
  function StoreLocks(roots: set<Path>, updating: bool): set<Lock> {
    (set p, a | p in roots && a in Ancestors(p) :: Store(if updating then Maintenance else Writers, a))
    + (set p | p in roots :: Store(if updating then Writers else Maintenance, p))
  }

  /** The two lock sets meet exactly when some root of one is, contains or lies under a root of the other. */
  lemma LocksMeetExactlyWhenRootsOverlap(writer: set<Path>, maintainer: set<Path>)
    ensures StoreLocks(writer, false) * StoreLocks(maintainer, true) != {} <==> Overlap(writer, maintainer)
  {
    if Overlap(writer, maintainer) {
      var w, m :| w in writer && m in maintainer && Related(w, m);
      AncestorsArePrefixes(w, m);
      AncestorsArePrefixes(m, w);
      if m <= w {
        assert Store(Writers, m) in StoreLocks(writer, false) * StoreLocks(maintainer, true);
      } else {
        assert Store(Maintenance, w) in StoreLocks(writer, false) * StoreLocks(maintainer, true);
      }
    }
    if StoreLocks(writer, false) * StoreLocks(maintainer, true) != {} {
      var lock :| lock in StoreLocks(writer, false) * StoreLocks(maintainer, true);
      if lock.namespace == Writers {
        var w :| w in writer && lock.path in Ancestors(w);
        AncestorsArePrefixes(w, lock.path);
        assert Related(w, lock.path);
      } else {
        var m :| m in maintainer && lock.path in Ancestors(m);
        AncestorsArePrefixes(m, lock.path);
        assert Related(lock.path, m);
      }
    }
  }

  lemma StoreLocksSplit(roots: set<Path>, path: Path, updating: bool)
    ensures StoreLocks(roots + {path}, updating) == StoreLocks(roots, updating) + StoreLocks({path}, updating)
  {
  }

  lemma UpwardLocks(path: Path, updating: bool)
    ensures var upward, own := if updating then Maintenance else Writers, if updating then Writers else Maintenance;
            StoreLocks({path}, updating) == {Store(own, path)} + set j | 0 <= j < |path| + 1 :: Store(upward, path[..j])
  {
    var upward := if updating then Maintenance else Writers;
    forall j | 0 <= j < |path| + 1 ensures Store(upward, path[..j]) in StoreLocks({path}, updating) {
      assert path[..j] in Ancestors(path);
    }
  }

  /** One root's leases: itself in one namespace, itself and every ancestor in the other. */
  method CollectLocksOf(path: Path, updating: bool) returns (leases: set<Lock>)
    ensures leases == StoreLocks({path}, updating)
  {
    var upward, own := if updating then Maintenance else Writers, if updating then Writers else Maintenance;
    leases := {Store(own, path)};
    for i := 0 to |path| + 1
      invariant leases == {Store(own, path)} + set j | 0 <= j < i :: Store(upward, path[..j])
    {
      leases := leases + {Store(upward, path[..i])};
    }
    UpwardLocks(path, updating);
  }

  method CollectStoreLocks(roots: set<Path>, updating: bool) returns (leases: set<Lock>)
    ensures leases == StoreLocks(roots, updating)
  {
    leases := {};
    var todo := roots;
    while todo != {}
      invariant todo <= roots
      invariant leases == StoreLocks(roots - todo, updating)
    {
      var path :| path in todo;
      var more := CollectLocksOf(path, updating);
      StoreLocksSplit(roots - todo, path, updating);
      assert roots - (todo - {path}) == (roots - todo) + {path};
      leases, todo := leases + more, todo - {path};
    }
    assert roots - todo == roots;
  }

  // ---- who asks, and with which locks ----

  /**
   Maintenance without a job may hold leases but never a reservation. A closer is
   finish_data_handoff: it takes only the account-wide owner lock.
   */
  datatype Access =
    | Writer
    | Granted(job: Job, participant: Participant, digest: Digest)
    | Maintainer(maintenanceJob: Option<Job>)
    | Handoff(handoffJob: Job)
    | Closer(closingJob: Job)
  {
    predicate Updating() {
      Maintainer?
    }

    predicate Owner() {
      Maintainer? || Handoff? || Closer?
    }

    function OwnerJob(): Option<Job>
      requires Owner()
    {
      match this
      case Maintainer(job) => job
      case Handoff(job) => Some(job)
      case Closer(job) => Some(job)
    }
  }

  function Locks(access: Access, roots: set<Path>): set<Lock> {
    (if access.Owner() then {AccountOwner} else {})
    + (if access.Granted? then {Startup(access.participant)} else {})
    + (if access.Closer? then {} else StoreLocks(roots, access.Updating()))
  }

  predicate Exclusive(access: Access, lock: Lock) {
    !lock.Store? || access.Updating()
  }

  // ---- the reservation ----

  datatype Reservation = Reservation(job: Job, roots: set<Path>, grants: map<Participant, (Digest, set<Path>)>)

  /** The overlap test as the code writes it: a reserved root above, or below, some requested store. */
  predicate ReservedFor(reserved: set<Path>, requested: set<Path>) {
    exists root :: root in reserved &&
      ((exists path :: path in requested && root in Ancestors(path))
       || (exists above :: above in Ancestors(root) && above != root && above in requested))
  }

  lemma ReservedForMeansOverlap(reserved: set<Path>, requested: set<Path>)
    ensures ReservedFor(reserved, requested) <==> Overlap(requested, reserved)
  {
    if ReservedFor(reserved, requested) {
      var root :| root in reserved &&
        ((exists path :: path in requested && root in Ancestors(path))
         || (exists above :: above in Ancestors(root) && above != root && above in requested));
      if path :| path in requested && root in Ancestors(path) {
        AncestorsArePrefixes(path, root);
        assert Related(path, root);
      } else {
        var above :| above in Ancestors(root) && above != root && above in requested;
        AncestorsArePrefixes(root, above);
        assert Related(above, root);
      }
    }
    if Overlap(requested, reserved) {
      var path, root :| path in requested && root in reserved && Related(path, root);
      AncestorsArePrefixes(path, root);
      AncestorsArePrefixes(root, path);
    }
  }

  /** data_access after its locks are held: may this caller proceed under the saved reservation? */
  predicate Admits(pending: Option<Reservation>, access: Access, roots: set<Path>) {
    match pending
    case None => !access.Granted? && !access.Handoff?
    case Some(r) =>
      match access
      case Writer => !ReservedFor(r.roots, roots)
      case Granted(job, p, digest) => job == r.job && p in r.grants && r.grants[p] == (digest, roots)
      case Maintainer(job) => job == Some(r.job) && roots == r.roots
      case Handoff(job) => job == r.job && roots == r.roots
      case Closer(_) => true
  }

  datatype Refusal = InvalidRequest | InUse | ReservedElsewhere | ParticipantRunning | TooMany

  const MAX_GRANTS := 1024

  /** DataLease.reserve: a fresh reservation has no grants. */
  function Reserve(access: Access, roots: set<Path>): Result<Reservation, Refusal> {
    if !access.Maintainer? || access.maintenanceJob.None? then Err(InvalidRequest)
    else Ok(Reservation(access.maintenanceJob.value, roots, map[]))
  }

  /** DataLease.grant_startup; `running` says the participant's own lease is held. */
  function Grant(pending: Option<Reservation>, access: Access, roots: set<Path>, p: Participant, digest: Digest,
                 scope: set<Path>, running: bool): Result<Reservation, Refusal> {
    if !access.Handoff? || scope == {} || !Covered(scope, roots) then Err(InvalidRequest)
    else if pending.None? || pending.value.job != access.handoffJob || pending.value.roots != roots then Err(ReservedElsewhere)
    else if p !in pending.value.grants && |pending.value.grants| >= MAX_GRANTS then Err(TooMany)
    else if running then Err(ParticipantRunning)
    else Ok(pending.value.(grants := pending.value.grants[p := (digest, scope)]))
  }

  /** DataLease.release_reservation, also through finish_data_handoff. */
  function Release(pending: Option<Reservation>, access: Access, roots: set<Path>): Result<Option<Reservation>, Refusal> {
    if !access.Owner() || access.OwnerJob().None? then Err(InvalidRequest)
    else if pending.None? then Ok(None)
    else if pending.value.job != access.OwnerJob().value || pending.value.roots != roots then Err(ReservedElsewhere)
    else Ok(None)
  }

  // ---- interleavings of all participants ----

  /** One data_access context: it acquires lock by lock, then checks the reservation, then is live. */
  datatype Context = Context(access: Access, roots: set<Path>, held: set<Lock>, live: bool)

  datatype State = State(contexts: map<Holder, Context>, pending: Option<Reservation>)

  const START := State(map[], None)

  datatype Action =
    | Begin(id: Holder, access: Access, roots: set<Path>)
    | Take(id: Holder, lock: Lock)
    | Check(id: Holder)
    | End(id: Holder)
    | SaveReservation(id: Holder)
    | SaveGrant(id: Holder, participant: Participant, digest: Digest, scope: set<Path>)
    | ClearReservation(id: Holder)

  /** A nonblocking lease attempt fails exactly when an incompatible lease is held. */
  predicate Blocked(contexts: map<Holder, Context>, id: Holder, access: Access, lock: Lock) {
    exists other :: other in contexts && other != id && lock in contexts[other].held
      && (Exclusive(access, lock) || Exclusive(contexts[other].access, lock))
  }

  predicate Requestable(access: Access, roots: set<Path>) {
    (access.Granted? || access.Handoff? || access.Closer? || (access.Maintainer? && access.maintenanceJob.Some?)) ==> roots != {}
  }

  function Without(s: State, id: Holder): State {
    s.(contexts := s.contexts - {id})
  }

  /** Process death and normal exit are the same: End drops every lease, never the reservation. */
  function Step(s: State, a: Action): State {
    if a.Begin? then
      if a.id in s.contexts || !Requestable(a.access, a.roots) then s
      else s.(contexts := s.contexts[a.id := Context(a.access, a.roots, {}, false)])
    else if a.id !in s.contexts then s
    else
      var c := s.contexts[a.id];
      match a
      case Take(id, lock) =>
        if c.live || lock !in Locks(c.access, c.roots) then s
        else if Blocked(s.contexts, id, c.access, lock) then Without(s, id)
        else s.(contexts := s.contexts[id := c.(held := c.held + {lock})])
      case Check(id) =>
        if c.live || c.held != Locks(c.access, c.roots) then s
        else if Admits(s.pending, c.access, c.roots) then s.(contexts := s.contexts[id := c.(live := true)])
        else Without(s, id)
      case End(id) => Without(s, id)
      case SaveReservation(id) =>
        if !c.live || Reserve(c.access, c.roots).Err? then s
        else s.(pending := Some(Reserve(c.access, c.roots).value))
      case SaveGrant(id, p, digest, scope) =>
        var running := exists other :: other in s.contexts && Startup(p) in s.contexts[other].held;
        var r := Grant(s.pending, c.access, c.roots, p, digest, scope, running);
        if !c.live || r.Err? then s else s.(pending := Some(r.value))
      case ClearReservation(id) =>
        if !c.live || Release(s.pending, c.access, c.roots).Err? then s
        else s.(pending := Release(s.pending, c.access, c.roots).value)
      case _ => s
  }

  function Run(actions: seq<Action>): State {
    if actions == [] then START else Step(Run(actions[..|actions| - 1]), actions[|actions| - 1])
  }

  // ---- the invariant ----

  ghost predicate Compatible(s: State) {
    forall x, y, lock :: x in s.contexts && y in s.contexts && x != y
      && lock in s.contexts[x].held && lock in s.contexts[y].held
      ==> !Exclusive(s.contexts[x].access, lock) && !Exclusive(s.contexts[y].access, lock)
  }

  ghost predicate ContextsOk(s: State) {
    forall id :: id in s.contexts ==>
      var c := s.contexts[id];
      c.held <= Locks(c.access, c.roots) && (c.live ==> c.held == Locks(c.access, c.roots)) && Requestable(c.access, c.roots)
  }

  predicate HoldsData(access: Access) {
    !access.Closer?
  }

  /** Who may hold leases over reserved data: the owning job on exactly its scope, or a recorded, covered participant. */
  predicate Entitled(c: Context, r: Reservation) {
    match c.access
    case Granted(job, p, digest) =>
      job == r.job && p in r.grants && r.grants[p] == (digest, c.roots) && Covered(c.roots, r.roots)
    case Maintainer(job) => job == Some(r.job) && c.roots == r.roots
    case Handoff(job) => job == r.job && c.roots == r.roots
    case _ => false
  }

  ghost predicate Fenced(s: State) {
    s.pending.Some? ==>
      && (forall id :: (id in s.contexts && s.contexts[id].live && HoldsData(s.contexts[id].access)
            && Overlap(s.contexts[id].roots, s.pending.value.roots)) ==> Entitled(s.contexts[id], s.pending.value))
      && (forall id :: (id in s.contexts && s.contexts[id].live && HoldsData(s.contexts[id].access)
            && s.contexts[id].access.Owner()) ==> Entitled(s.contexts[id], s.pending.value))
      && (forall p :: p in s.pending.value.grants ==>
            s.pending.value.grants[p].1 != {} && Covered(s.pending.value.grants[p].1, s.pending.value.roots))
  }

  ghost predicate Inv(s: State) {
    Compatible(s) && ContextsOk(s) && Fenced(s)
  }

  /** Only one owner is ever live: they all take the account-wide lock exclusively. */
  lemma OneOwner(s: State, x: Holder, y: Holder)
    requires Inv(s) && x in s.contexts && y in s.contexts && s.contexts[x].live && s.contexts[y].live
    requires s.contexts[x].access.Owner() && s.contexts[y].access.Owner()
    ensures x == y
  {
    assert AccountOwner in s.contexts[x].held && AccountOwner in s.contexts[y].held;
  }

  /** No exclusive data lease coexists with an overlapping one. */
  lemma MaintenanceIsAlone(s: State, m: Holder, other: Holder)
    requires Inv(s) && m in s.contexts && other in s.contexts && m != other
    requires s.contexts[m].live && s.contexts[other].live && s.contexts[m].access.Maintainer?
    ensures !s.contexts[other].access.Owner()
    ensures !Overlap(s.contexts[other].roots, s.contexts[m].roots)
  {
    var c, o := s.contexts[m], s.contexts[other];
    if o.access.Owner() { OneOwner(s, m, other); }
    LocksMeetExactlyWhenRootsOverlap(o.roots, c.roots);
    if HoldsData(o.access) && !o.access.Owner() {
      assert StoreLocks(o.roots, false) <= o.held && StoreLocks(c.roots, true) <= c.held;
    }
  }

  lemma SaveReservationKeeps(s: State, id: Holder)
    requires Inv(s)
    ensures Inv(Step(s, SaveReservation(id)))
  {
    var s' := Step(s, SaveReservation(id));
    if s' != s {
      forall other | other in s.contexts && s.contexts[other].live && other != id
        ensures !s.contexts[other].access.Owner() && !Overlap(s.contexts[other].roots, s.contexts[id].roots)
      {
        MaintenanceIsAlone(s, id, other);
      }
    }
  }

  lemma SaveGrantKeeps(s: State, id: Holder, p: Participant, digest: Digest, scope: set<Path>)
    requires Inv(s)
    ensures Inv(Step(s, SaveGrant(id, p, digest, scope)))
  {
    var s' := Step(s, SaveGrant(id, p, digest, scope));
    if s' != s {
      forall other | other in s.contexts && s.contexts[other].live && Entitled(s.contexts[other], s.pending.value)
        ensures Entitled(s'.contexts[other], s'.pending.value)
      {
        var c := s.contexts[other];
        assert c.access.Granted? ==> Startup(c.access.participant) in c.held;
      }
    }
  }

  lemma TakeStaysCompatible(s: State, id: Holder, lock: Lock)
    requires Inv(s)
    ensures Compatible(Step(s, Take(id, lock)))
  {
  }

  lemma TakeKeeps(s: State, id: Holder, lock: Lock)
    requires Inv(s)
    ensures Inv(Step(s, Take(id, lock)))
  {
    TakeStaysCompatible(s, id, lock);
  }

  lemma CheckKeeps(s: State, id: Holder)
    requires Inv(s)
    ensures Inv(Step(s, Check(id)))
  {
    var s' := Step(s, Check(id));
    if s.pending.Some? && id in s.contexts {
      var c := s.contexts[id];
      ReservedForMeansOverlap(s.pending.value.roots, c.roots);
    }
  }

  lemma StepKeeps(s: State, a: Action)
    requires Inv(s)
    ensures Inv(Step(s, a))
  {
    match a
    case Take(id, lock) => TakeKeeps(s, id, lock);
    case Check(id) => CheckKeeps(s, id);
    case SaveReservation(id) => SaveReservationKeeps(s, id);
    case SaveGrant(id, p, digest, scope) => SaveGrantKeeps(s, id, p, digest, scope);
    case _ =>
  }

  lemma {:induction false} EveryRunKeeps(actions: seq<Action>)
    ensures Inv(Run(actions))
  {
    if actions != [] {
      EveryRunKeeps(actions[..|actions| - 1]);
      StepKeeps(Run(actions[..|actions| - 1]), actions[|actions| - 1]);
    }
  }

  // ---- what the leases and the fence guarantee over whole runs ----

  /** While a reservation is pending, every live lease overlapping it belongs to its job or a recorded participant. */
  lemma ReservedDataHasOnlyEntitledHolders(actions: seq<Action>, id: Holder)
    requires Run(actions).pending.Some? && id in Run(actions).contexts
    requires var c := Run(actions).contexts[id]; c.live && HoldsData(c.access) && Overlap(c.roots, Run(actions).pending.value.roots)
    ensures Entitled(Run(actions).contexts[id], Run(actions).pending.value)
  {
    EveryRunKeeps(actions);
  }

  /** In every run a live maintenance context shares data with no other live context. */
  lemma MaintenanceExcludesOverlap(actions: seq<Action>, m: Holder, other: Holder)
    requires var s := Run(actions); m in s.contexts && other in s.contexts && m != other
    requires var s := Run(actions); s.contexts[m].live && s.contexts[other].live && s.contexts[m].access.Maintainer?
    ensures !Overlap(Run(actions).contexts[other].roots, Run(actions).contexts[m].roots)
  {
    EveryRunKeeps(actions);
    MaintenanceIsAlone(Run(actions), m, other);
  }

  /** A fresh reservation drops every grant, yet no live participant held one. */
  lemma ReserveRevokesNobody(actions: seq<Action>, id: Holder, participant: Holder)
    requires var s := Run(actions); Step(s, SaveReservation(id)) != s
    requires var s := Run(actions);
             participant in s.contexts && s.contexts[participant].live && s.contexts[participant].access.Granted?
    ensures var s := Run(actions); s.pending.Some? ==> !Entitled(s.contexts[participant], s.pending.value)
    ensures var s := Run(actions); !Overlap(s.contexts[participant].roots, s.contexts[id].roots)
  {
    var s := Run(actions);
    EveryRunKeeps(actions);
    MaintenanceIsAlone(s, id, participant);
    assert s.pending.Some? ==> Entitled(s.contexts[id], s.pending.value);
    if s.pending.Some? && Covered(s.contexts[participant].roots, s.pending.value.roots) {
      CoveredOverlaps(s.contexts[participant].roots, s.pending.value.roots);
    }
  }

  /**
   A lock a maintainer already holds refuses a writer of these roots: the one on its own root stands
   against every store at or below it, the one on an ancestor against a store that is that ancestor.
   */
  predicate Bars(lock: Lock, roots: set<Path>) {
    lock.Store? && if lock.namespace == Writers then exists w :: w in roots && lock.path <= w else lock.path in roots
  }

  lemma BarsMeansWanted(lock: Lock, roots: set<Path>)
    ensures Bars(lock, roots) <==> lock in Locks(Writer, roots)
  {
    if Bars(lock, roots) && lock.namespace == Writers {
      var w :| w in roots && lock.path <= w;
      AncestorsArePrefixes(w, lock.path);
    }
    if lock in Locks(Writer, roots) && lock.namespace == Writers {
      var w :| w in roots && lock.path in Ancestors(w);
      AncestorsArePrefixes(w, lock.path);
    }
  }

  /** After any run a writer's acquisition is refused exactly by the locks maintainers hold at that moment. */
  lemma WriterRefusedExactlyByHeldLocks(actions: seq<Action>, id: Holder, roots: set<Path>)
    requires id !in Run(actions).contexts
    ensures var contexts := Run(actions).contexts;
            (exists lock :: lock in Locks(Writer, roots) && Blocked(contexts, id, Writer, lock))
            <==> (exists m, lock :: m in contexts && contexts[m].access.Maintainer? && lock in contexts[m].held && Bars(lock, roots))
  {
    var s := Run(actions);
    EveryRunKeeps(actions);
    if lock :| lock in Locks(Writer, roots) && Blocked(s.contexts, id, Writer, lock) {
      var m :| m in s.contexts && m != id && lock in s.contexts[m].held && Exclusive(s.contexts[m].access, lock);
      BarsMeansWanted(lock, roots);
    }
    if m, lock :| m in s.contexts && s.contexts[m].access.Maintainer? && lock in s.contexts[m].held && Bars(lock, roots) {
      BarsMeansWanted(lock, roots);
      assert Blocked(s.contexts, id, Writer, lock);
    }
  }

  lemma RefusalMeansOverlap(s: State, id: Holder, roots: set<Path>, lock: Lock)
    requires Inv(s) && lock in Locks(Writer, roots) && Blocked(s.contexts, id, Writer, lock)
    ensures exists m :: m in s.contexts && s.contexts[m].access.Maintainer? && Overlap(roots, s.contexts[m].roots)
  {
    var m :| m in s.contexts && m != id && lock in s.contexts[m].held && Exclusive(s.contexts[m].access, lock);
    assert lock in StoreLocks(roots, false) * StoreLocks(s.contexts[m].roots, true);
    LocksMeetExactlyWhenRootsOverlap(roots, s.contexts[m].roots);
  }

  lemma OverlapMeansRefusal(s: State, id: Holder, roots: set<Path>, m: Holder)
    requires Inv(s) && id !in s.contexts && m in s.contexts && s.contexts[m].live && s.contexts[m].access.Maintainer?
    requires Overlap(roots, s.contexts[m].roots)
    ensures exists lock :: lock in Locks(Writer, roots) && Blocked(s.contexts, id, Writer, lock)
  {
    LocksMeetExactlyWhenRootsOverlap(roots, s.contexts[m].roots);
    var lock :| lock in StoreLocks(roots, false) * StoreLocks(s.contexts[m].roots, true);
    assert lock in s.contexts[m].held && lock in Locks(Writer, roots);
    assert Exclusive(s.contexts[m].access, lock);
    assert Blocked(s.contexts, id, Writer, lock);
  }

  /** Once every maintainer has finished acquiring, that is exactly when one of them overlaps the writer's roots. */
  lemma WriterRefusedExactlyByOverlappingMaintenance(actions: seq<Action>, id: Holder, roots: set<Path>)
    requires id !in Run(actions).contexts
    requires var contexts := Run(actions).contexts;
             forall m :: m in contexts && contexts[m].access.Maintainer? ==> contexts[m].live
    ensures (exists lock :: lock in Locks(Writer, roots) && Blocked(Run(actions).contexts, id, Writer, lock))
            <==> (exists m :: m in Run(actions).contexts && Run(actions).contexts[m].access.Maintainer?
                              && Overlap(roots, Run(actions).contexts[m].roots))
  {
    var s := Run(actions);
    EveryRunKeeps(actions);
    if lock :| lock in Locks(Writer, roots) && Blocked(s.contexts, id, Writer, lock) {
      RefusalMeansOverlap(s, id, roots, lock);
    }
    if m :| m in s.contexts && s.contexts[m].access.Maintainer? && Overlap(roots, s.contexts[m].roots) {
      OverlapMeansRefusal(s, id, roots, m);
    }
  }

  /** Only a live owner of the same job and exact scope can change or clear a pending reservation; a crash cannot. */
  lemma OnlyTheOwnerMovesTheFence(actions: seq<Action>, a: Action)
    requires var s := Run(actions); s.pending.Some? && Step(s, a).pending != s.pending
    ensures var s := Run(actions);
            && a.id in s.contexts && s.contexts[a.id].live && s.contexts[a.id].access.Owner()
            && s.contexts[a.id].access.OwnerJob() == Some(s.pending.value.job)
            && s.contexts[a.id].roots == s.pending.value.roots
  {
    EveryRunKeeps(actions);
    var s := Run(actions);
    if a.SaveReservation? {
      assert Entitled(s.contexts[a.id], s.pending.value);
    }
  }

  // ---- the calls themselves ----

  /** The lease directory and maintenance.json of one account. */
  class DataDirectory {
    var contexts: map<Holder, Context>
    var pending: Option<Reservation>

    function Contents(): State
      reads this
    {
      State(contexts, pending)
    }

    constructor ()
      ensures Contents() == START
    {
      contexts, pending := map[], None;
    }

    /** Some wanted lease is held incompatibly by someone else. */
    predicate InTheWay(id: Holder, access: Access, wanted: set<Lock>)
      reads this
    {
      exists lock :: lock in wanted && Blocked(contexts, id, access, lock)
    }

    /**
     data_access: all leases or none. Granted exactly when nothing is in the way and the
     reservation admits the caller; on any refusal every lease taken so far is released.
     */
    method DataAccess(id: Holder, access: Access, roots: set<Path>) returns (r: Result<(), Refusal>)
      requires id !in contexts
      modifies this`contexts
      ensures r.Ok? <==> Requestable(access, roots) && !old(InTheWay(id, access, Locks(access, roots)))
                         && Admits(pending, access, roots)
      ensures r.Ok? ==> contexts == old(contexts)[id := Context(access, roots, Locks(access, roots), true)]
      ensures r.Err? ==> contexts == old(contexts)
      ensures r == Err(InUse) ==> old(InTheWay(id, access, Locks(access, roots)))
    {
      if !Requestable(access, roots) {
        return Err(InvalidRequest);
      }
      var before := contexts;
      var leases := {};
      if !access.Closer? {
        leases := CollectStoreLocks(roots, access.Updating());
      }
      if access.Owner() {
        leases := leases + {AccountOwner};
      }
      if access.Granted? {
        leases := leases + {Startup(access.participant)};
      }
      assert leases == Locks(access, roots);
      contexts := contexts[id := Context(access, roots, {}, false)];
      var todo := leases;
      while todo != {}
        invariant todo <= leases && id in contexts && contexts - {id} == before
        invariant contexts[id] == Context(access, roots, leases - todo, false)
        invariant forall lock :: lock in leases - todo ==> !Blocked(before, id, access, lock)
      {
        var lock :| lock in todo;
        OthersDecide(contexts, before, id, access, lock);
        if Blocked(contexts, id, access, lock) {
          contexts := contexts - {id};
          return Err(InUse);
        }
        todo := todo - {lock};
        contexts := contexts[id := Context(access, roots, leases - todo, false)];
      }
      if !Admits(pending, access, roots) {
        contexts := contexts - {id};
        return Err(ReservedElsewhere);
      }
      contexts := contexts[id := Context(access, roots, leases, true)];
      r := Ok(());
    }

    static lemma OthersDecide(now: map<Holder, Context>, before: map<Holder, Context>, id: Holder, access: Access, lock: Lock)
      requires id !in before && now - {id} == before
      ensures Blocked(now, id, access, lock) <==> Blocked(before, id, access, lock)
    {
      forall other | other in now && other != id ensures other in before && before[other] == now[other] {
        assert other in now - {id};
      }
      forall other | other in before ensures other in now && other != id && before[other] == now[other] {
        assert other in now - {id};
      }
    }

    method ReserveData(id: Holder) returns (r: Result<(), Refusal>)
      requires id in contexts && contexts[id].live
      modifies this`pending
      ensures Contents() == Step(old(Contents()), SaveReservation(id))
      ensures r.Ok? <==> Reserve(contexts[id].access, contexts[id].roots).Ok?
    {
      var c := contexts[id];
      if !c.access.Maintainer? || c.access.maintenanceJob.None? {
        return Err(InvalidRequest);
      }
      pending := Some(Reservation(c.access.maintenanceJob.value, c.roots, map[]));
      r := Ok(());
    }

    method GrantStartup(id: Holder, p: Participant, digest: Digest, scope: set<Path>) returns (r: Result<(), Refusal>)
      requires id in contexts && contexts[id].live
      modifies this`pending
      ensures Contents() == Step(old(Contents()), SaveGrant(id, p, digest, scope))
      ensures r.Err? ==> pending == old(pending)
      ensures r.Ok? ==> pending.Some? && p in pending.value.grants && pending.value.grants[p] == (digest, scope)
                        && forall other :: other in contexts ==> Startup(p) !in contexts[other].held
    {
      var c := contexts[id];
      if !c.access.Handoff? || scope == {} || !Covered(scope, c.roots) {
        return Err(InvalidRequest);
      }
      if pending.None? || pending.value.job != c.access.handoffJob || pending.value.roots != c.roots {
        return Err(ReservedElsewhere);
      }
      var current := pending.value;
      if p !in current.grants && |current.grants| >= MAX_GRANTS {
        return Err(TooMany);
      }
      if exists other :: other in contexts && Startup(p) in contexts[other].held {
        return Err(ParticipantRunning);
      }
      pending := Some(current.(grants := current.grants[p := (digest, scope)]));
      r := Ok(());
    }

    method ReleaseReservation(id: Holder) returns (r: Result<(), Refusal>)
      requires id in contexts && contexts[id].live
      modifies this`pending
      ensures Contents() == Step(old(Contents()), ClearReservation(id))
      ensures r.Ok? ==> pending == None
      ensures r.Err? ==> pending == old(pending)
    {
      var c := contexts[id];
      if !c.access.Owner() || c.access.OwnerJob().None? {
        return Err(InvalidRequest);
      }
      if pending.None? {
        return Ok(());
      }
      if pending.value.job != c.access.OwnerJob().value || pending.value.roots != c.roots {
        return Err(ReservedElsewhere);
      }
      pending := None;
      r := Ok(());
    }
  }
}
