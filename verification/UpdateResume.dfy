/**
 When an interrupted activation handoff can still be finished: exactly when its marker carries the
 version on disk, its data is still reserved, and the receipts left behind pass inspection.
 */
module UpdateResume {
  import opened Wrappers
  import opened UpdateRestart

  function Continue(s: State, actions: seq<Action>, selected: set<Profile>): State
    decreases |actions|
  {
    if actions == [] then s else Continue(Step(s, actions[0], selected), actions[1..], selected)
  }

  lemma {:induction false} ContinueJoins(s: State, a: seq<Action>, b: seq<Action>, selected: set<Profile>)
    ensures Continue(s, a + b, selected) == Continue(Continue(s, a, selected), b, selected)
    decreases |a|
  {
    if a == [] {
      assert a + b == b;
    } else {
      assert (a + b)[0] == a[0] && (a + b)[1..] == a[1..] + b;
      ContinueJoins(Step(s, a[0], selected), a[1..], b, selected);
    }
  }

  /** Every process of the handoff is gone and no final phase is recorded. */
  predicate Idle(s: State) {
    && s.coordinators == map[] && s.maintenance.None? && s.restorer.None? && s.desk.holder.None? && s.desk.note.None?
    && !s.phase.Past() && !s.phase.Cancelled?
    && forall r :: r in s.runs ==> s.runs[r].stage.Gone?
  }

  predicate Resumable(s: State, selected: set<Profile>) {
    s.pending == Some(s.Current()) && s.reserved && InspectionPasses(s, selected)
  }

  // ---- what stays stuck ----

  /** supervise has not read that the handoff is over. */
  predicate Unseen(desk: Desk) {
    desk.note.Some? ==> !desk.note.value.phase.Past()
  }

  predicate Early(c: Coordinator) {
    c.Reading? || (c.Entering? && !c.copy.Past()) || c.Inspecting?
  }

  predicate Waiting(c: Coordinator, selected: set<Profile>) {
    Early(c) || c.Advancing? || c.Granting? || (c.Parking? && c.todo == selected)
  }

  /** The marker names another version: started gateways refuse it and nothing ever verifies. */
  predicate Unmarked(s: State, selected: set<Profile>) {
    && s.restored && s.restorer.None? && !s.phase.Past() && Unseen(s.desk) && s.pending != Some(Original)
    && (forall r :: r in s.runs ==> !s.runs[r].Leasing())
    && (forall i :: i in s.coordinators ==> Waiting(s.coordinators[i], selected))
  }

  lemma UnmarkedMoves(s: State, t: State, i: ProcessId, c: Coordinator, selected: set<Profile>)
    requires Unmarked(s, selected) && Waiting(c, selected)
    requires t.coordinators == At(s, i, c).coordinators || t.coordinators == Left(s, i).coordinators
    requires t.restored && t.restorer.None? && !t.phase.Past() && Unseen(t.desk) && t.pending == s.pending && t.runs == s.runs
    ensures Unmarked(t, selected)
  {
  }

  lemma UnmarkedGranting(s: State, i: ProcessId, todo: set<Profile>, p: Profile, r: RunId, selected: set<Profile>)
    requires Unmarked(s, selected)
    ensures Unmarked(GrantStep(s, i, todo, selected, p, r), selected)
  {
    var t := GrantStep(s, i, todo, selected, p, r);
    if todo == {} {
      UnmarkedMoves(s, t, i, Parking(s.activation.Some?, selected, map[]), selected);
    } else if p in todo && r !in s.runs {
      UnmarkedMoves(s, t.(runs := s.runs), i, Granting(todo - {p}), selected);
    }
  }

  lemma UnmarkedParking(s: State, i: ProcessId, p: Profile, passes: bool, selected: set<Profile>)
    requires Unmarked(s, selected) && selected != {} && i in s.coordinators && s.coordinators[i].Parking?
    ensures Unmarked(ParkStep(s, i, s.coordinators[i], selected, p, passes), selected)
  {
    var c := s.coordinators[i];
    assert Waiting(c, selected) && !s.LiveRun(p);
    UnmarkedMoves(s, At(s, i, Parking(c.resuming, selected, map[])), i, Parking(c.resuming, selected, map[]), selected);
  }

  lemma UnmarkedEarly(s: State, i: ProcessId, p: Profile, r: RunId, passes: bool, selected: set<Profile>)
    requires Unmarked(s, selected) && i in s.coordinators && Early(s.coordinators[i])
    ensures Unmarked(CoordinatorStep(s, i, selected, p, r, passes), selected)
  {
    var t := CoordinatorStep(s, i, selected, p, r, passes);
    match s.coordinators[i]
    case Reading => UnmarkedMoves(s, t, i, Entering(s.phase), selected);
    case Entering(_) => UnmarkedMoves(s, t, i, Inspecting, selected);
    case Inspecting => UnmarkedMoves(s, t, i, Advancing(set q | q in selected && !s.LiveRun(q)), selected);
  }

  lemma UnmarkedCoordinator(s: State, i: ProcessId, p: Profile, r: RunId, passes: bool, selected: set<Profile>)
    requires Unmarked(s, selected) && selected != {} && i in s.coordinators
    ensures Unmarked(CoordinatorStep(s, i, selected, p, r, passes), selected)
  {
    var c := s.coordinators[i];
    var t := CoordinatorStep(s, i, selected, p, r, passes);
    assert Waiting(c, selected);
    match c
    case Reading => UnmarkedEarly(s, i, p, r, passes, selected);
    case Entering(_) => UnmarkedEarly(s, i, p, r, passes, selected);
    case Inspecting => UnmarkedEarly(s, i, p, r, passes, selected);
    case Advancing(stopped) => UnmarkedMoves(s, t, i, Granting(stopped), selected);
    case Granting(todo) => UnmarkedGranting(s, i, todo, p, r, selected);
    case Parking(_, _, _) => UnmarkedParking(s, i, p, passes, selected);
  }

  lemma HolderStaysUnmarked(s: State, selected: set<Profile>)
    requires Unmarked(s, selected) && s.desk.holder.Some?
    ensures Unmarked(HolderMoves(s), selected)
  {
    HolderMovesChange(s);
    HolderLeases(s);
  }

  lemma UnmarkedStays(s: State, a: Action, selected: set<Profile>)
    requires Unmarked(s, selected) && selected != {}
    ensures Unmarked(Step(s, a, selected), selected)
  {
    if OfGateway(a) {
      assert a.r in s.runs ==> !s.runs[a.r].Leasing();
    } else if a.Coordinate? {
      if a.i in s.coordinators { UnmarkedCoordinator(s, a.i, a.p, a.r, a.passes, selected); }
    } else if a.HolderStep? {
      if s.desk.holder.Some? { HolderStaysUnmarked(s, selected); }
    }
  }

  /** No coordinator gets past its inspection, so nothing is started that could change a receipt. */
  predicate Uninspectable(s: State, selected: set<Profile>) {
    && s.restored && s.restorer.None? && !s.phase.Past() && Unseen(s.desk) && !(s.reserved && InspectionPasses(s, selected))
    && (forall r :: r in s.runs ==> s.runs[r].stage.Gone?)
    && (forall i :: i in s.coordinators ==> Early(s.coordinators[i]) && (s.coordinators[i].Inspecting? ==> s.reserved))
    && (s.desk.holder.Some? && s.desk.holder.value.Leased() ==> s.coordinators == map[])
  }

  lemma UninspectableCoordinator(s: State, i: ProcessId, p: Profile, r: RunId, passes: bool, selected: set<Profile>)
    requires Uninspectable(s, selected) && i in s.coordinators
    ensures Uninspectable(CoordinatorStep(s, i, selected, p, r, passes), selected)
  {
    assert Early(s.coordinators[i]);
    match s.coordinators[i]
    case Reading =>
    case Entering(copy) => assert copy.Past() == false;
    case Inspecting => assert s.reserved && !InspectionPasses(s, selected);
  }

  lemma HolderStaysUninspectable(s: State, selected: set<Profile>)
    requires Uninspectable(s, selected) && s.desk.holder.Some?
    ensures Uninspectable(HolderMoves(s), selected)
  {
    HolderMovesChange(s);
    HolderLeases(s);
  }

  lemma UninspectableStays(s: State, a: Action, selected: set<Profile>)
    requires Uninspectable(s, selected)
    ensures Uninspectable(Step(s, a, selected), selected)
  {
    if OfGateway(a) {
      assert a.r in s.runs ==> s.runs[a.r].stage.Gone?;
      assert a.r in s.runs ==> s.runs[a.r := s.runs[a.r].(stage := Gone)] == s.runs;
    } else if a.Coordinate? {
      if a.i in s.coordinators { UninspectableCoordinator(s, a.i, a.p, a.r, a.passes, selected); }
    } else if a.HolderStep? {
      if s.desk.holder.Some? { HolderStaysUninspectable(s, selected); }
    }
  }

  lemma CountingAdmitsNobody(s: State, i: ProcessId, p: Profile, r: RunId, passes: bool, selected: set<Profile>)
    requires i in s.coordinators && (s.coordinators[i].Granting? || s.coordinators[i].Parking?)
    ensures CoordinatorStep(s, i, selected, p, r, passes).past.admitted == s.past.admitted
  {
    match s.coordinators[i]
    case Granting(_) =>
    case Parking(_, _, _) =>
  }

  lemma WaitingAdmitsNobody(s: State, i: ProcessId, p: Profile, r: RunId, passes: bool, selected: set<Profile>)
    requires i in s.coordinators && Waiting(s.coordinators[i], selected)
    ensures CoordinatorStep(s, i, selected, p, r, passes).past.admitted == s.past.admitted
  {
    if s.coordinators[i].Granting? || s.coordinators[i].Parking? { CountingAdmitsNobody(s, i, p, r, passes, selected); }
  }

  lemma StuckAdmitsNobody(s: State, a: Action, selected: set<Profile>)
    requires Unmarked(s, selected) || Uninspectable(s, selected)
    ensures Step(s, a, selected).past.admitted == s.past.admitted
  {
    if a.Coordinate? {
      if a.i in s.coordinators { WaitingAdmitsNobody(s, a.i, a.p, a.r, a.passes, selected); }
    } else if a.PollRecord? {
      assert a.r in s.runs ==> !s.runs[a.r].Leasing();
    }
  }

  lemma StuckStep(s: State, a: Action, selected: set<Profile>)
    requires selected != {} && (Unmarked(s, selected) || Uninspectable(s, selected))
    ensures var t := Step(s, a, selected);
            (Unmarked(t, selected) || Uninspectable(t, selected)) && t.past.admitted == s.past.admitted
  {
    if Unmarked(s, selected) { UnmarkedStays(s, a, selected); } else { UninspectableStays(s, a, selected); }
    StuckAdmitsNobody(s, a, selected);
  }

  lemma {:induction false} StuckStays(s: State, actions: seq<Action>, selected: set<Profile>)
    requires selected != {} && (Unmarked(s, selected) || Uninspectable(s, selected))
    ensures !Continue(s, actions, selected).phase.Past()
    ensures Continue(s, actions, selected).past.admitted == s.past.admitted
    decreases |actions|
  {
    if actions != [] {
      StuckStep(s, actions[0], selected);
      StuckStays(Step(s, actions[0], selected), actions[1..], selected);
    }
  }

  // ---- what can still finish: one coordinator, process 0, runs to the end ----

  predicate Live(s: State, p: Profile, stage: RunStage) {
    p in s.receipts && s.receipts[p] in s.runs && s.runs[s.receipts[p]] == Gateway(p, s.Current(), stage)
  }

  /** Process 0 is alone at stage c, in a fenced handoff. */
  predicate Alone(s: State, c: Coordinator, phase: Phase) {
    && s.coordinators == map[0 := c] && s.maintenance == Some(0) && s.restorer.None? && s.desk.holder.None? && s.desk.note.None?
    && s.pending == Some(s.Current()) && s.reserved && s.phase == phase
  }

  function Turn(p: Profile, r: RunId): Action {
    Coordinate(0, p, r, true)
  }

  lemma {:induction false} Above(ids: set<nat>) returns (r: nat)
    ensures forall id :: id in ids ==> id < r
  {
    if ids == {} {
      r := 0;
    } else {
      var id :| id in ids;
      var rest := Above(ids - {id});
      r := if rest > id then rest else id + 1;
      forall other | other in ids ensures other < r { assert other != id ==> other in ids - {id}; }
    }
  }

  lemma SpawnsOne(s: State, todo: set<Profile>, p: Profile, r: RunId, selected: set<Profile>)
    requires Alone(s, Granting(todo), Restarting) && p in todo && !s.LiveRun(p) && r !in s.runs
    ensures Step(s, Turn(p, r), selected)
         == s.(coordinators := map[0 := Granting(todo - {p})], grants := s.grants[p := r],
               runs := s.runs[r := Gateway(p, s.Current(), Spawned)])
  {
    Moves(s, Granting(todo), Granting(todo - {p}));
  }

  lemma ValidatesOne(s: State, p: Profile, r: RunId, selected: set<Profile>)
    requires r in s.runs && s.runs[r] == Gateway(p, s.Current(), Spawned) && s.pending == Some(s.Current())
    requires s.phase.Restarting? && !s.Exclusive()
    ensures Step(s, Validate(r), selected) == s.(runs := s.runs[r := Gateway(p, s.Current(), Validated)])
  {
  }

  lemma ClaimsOne(s: State, p: Profile, r: RunId, selected: set<Profile>)
    requires r in s.runs && s.runs[r] == Gateway(p, s.Current(), Validated) && s.reserved && !s.LiveRun(p)
    requires p in s.grants && s.grants[p] == r
    ensures Step(s, Claim(r), selected)
         == s.(runs := s.runs[r := Gateway(p, s.Current(), Parked)], receipts := s.receipts[p := r])
  {
  }

  lemma StartOne(s: State, todo: set<Profile>, p: Profile, r: RunId, selected: set<Profile>)
    requires Alone(s, Granting(todo), Restarting) && p in todo && !s.LiveRun(p)
    requires r !in s.runs && r !in s.receipts.Values
    ensures Continue(s, [Turn(p, r), Validate(r), Claim(r)], selected)
         == s.(coordinators := map[0 := Granting(todo - {p})], grants := s.grants[p := r],
               runs := s.runs[r := Gateway(p, s.Current(), Parked)], receipts := s.receipts[p := r])
  {
    SpawnsOne(s, todo, p, r, selected);
    var one := Step(s, Turn(p, r), selected);
    ValidatesOne(one, p, r, selected);
    var two := Step(one, Validate(r), selected);
    assert !two.LiveRun(p);
    ClaimsOne(two, p, r, selected);
    assert [Turn(p, r), Validate(r), Claim(r)][1..] == [Validate(r), Claim(r)];
    assert [Validate(r), Claim(r)][1..] == [Claim(r)];
    assert Continue(two, [Claim(r)], selected) == Step(two, Claim(r), selected);
  }

  lemma {:induction false} StartAll(s: State, todo: set<Profile>, selected: set<Profile>) returns (actions: seq<Action>)
    requires Alone(s, Granting(todo), Restarting) && todo <= selected
    requires forall p :: p in selected ==> if p in todo then !s.LiveRun(p) else Live(s, p, Parked)
    ensures var t := Continue(s, actions, selected);
            && Alone(t, Granting({}), Restarting) && t.restored == s.restored
            && (forall p :: p in selected ==> Live(t, p, Parked))
    decreases |todo|
  {
    if todo == {} {
      actions := [];
    } else {
      var p :| p in todo;
      var r := Above(s.runs.Keys + s.receipts.Values);
      assert r !in s.runs && r !in s.receipts.Values;
      var first := [Turn(p, r), Validate(r), Claim(r)];
      StartOne(s, todo, p, r, selected);
      var t := Continue(s, first, selected);
      forall q | q in selected ensures if q in todo - {p} then !t.LiveRun(q) else Live(t, q, Parked) {
        if q in s.receipts { assert s.receipts[q] in s.receipts.Values; }
      }
      var rest := StartAll(t, todo - {p}, selected);
      ContinueJoins(s, first, rest, selected);
      actions := first + rest;
    }
  }

  /** Everything that the coordinator's own bookkeeping leaves alone. */
  predicate Undisturbed(s: State, t: State) {
    && t.runs == s.runs && t.receipts == s.receipts && t.restored == s.restored && t.activation == s.activation
  }

  predicate Lists(m: Record, s: State, profiles: set<Profile>) {
    m.Keys == profiles && forall p :: p in m ==> p in s.receipts && m[p] == Identity(p, s.receipts[p], s.Current())
  }

  lemma ParkOne(s: State, resuming: bool, todo: set<Profile>, parked: Record, p: Profile, selected: set<Profile>)
    requires Alone(s, Parking(resuming, todo, parked), Restarting) && p in todo && Live(s, p, Parked)
    ensures var t := Step(s, Turn(p, 0), selected);
            && Alone(t, Parking(resuming, todo - {p}, parked[p := Identity(p, s.receipts[p], s.Current())]), Restarting)
            && Undisturbed(s, t)
  {
    assert Verifies(s, p, if resuming then None else Some(false));
    assert Step(s, Turn(p, 0), selected) == ParkStep(s, 0, s.coordinators[0], selected, p, true);
  }

  lemma {:induction false} ParkAll(s: State, resuming: bool, todo: set<Profile>, parked: Record, selected: set<Profile>)
    returns (actions: seq<Action>, all: Record)
    requires Alone(s, Parking(resuming, todo, parked), Restarting) && todo <= selected
    requires forall p :: p in selected ==> Live(s, p, Parked)
    requires Lists(parked, s, selected - todo)
    ensures var t := Continue(s, actions, selected);
            Alone(t, Parking(resuming, {}, all), Restarting) && Undisturbed(s, t) && Lists(all, s, selected)
    decreases |todo|
  {
    if todo == {} {
      assert selected - {} == selected;
      actions, all := [], parked;
    } else {
      var p :| p in todo;
      var t := Step(s, Turn(p, 0), selected);
      ParkOne(s, resuming, todo, parked, p, selected);
      var more := parked[p := Identity(p, s.receipts[p], s.Current())];
      ListsMore(s, t, parked, p, selected - todo);
      assert (selected - todo) + {p} == selected - (todo - {p});
      var rest;
      rest, all := ParkAll(t, resuming, todo - {p}, more, selected);
      ListsSame(t, s, all, selected);
      actions := [Turn(p, 0)] + rest;
    }
  }

  lemma ListsMore(s: State, t: State, m: Record, p: Profile, profiles: set<Profile>)
    requires Lists(m, s, profiles) && p in s.receipts && t.receipts == s.receipts && t.Current() == s.Current()
    ensures Lists(m[p := Identity(p, s.receipts[p], s.Current())], t, profiles + {p})
  {
  }

  lemma ListsSame(s: State, t: State, m: Record, profiles: set<Profile>)
    requires Lists(m, s, profiles) && t.receipts == s.receipts && t.Current() == s.Current()
    ensures Lists(m, t, profiles)
  {
  }

  lemma OpenOne(s: State, p: Profile, r: RunId, m: Record, selected: set<Profile>)
    requires s.phase.Activating? && s.activation == Some(m) && r in s.runs
    requires s.runs[r] == Gateway(p, s.Current(), Parked) && p in m && m[p] == Identity(p, r, s.Current())
    ensures var t := Continue(s, [PollPhase(r), PollRecord(r)], selected);
            t == s.(runs := s.runs[r := Gateway(p, s.Current(), Open)], past := t.past)
  {
    var one := Step(s, PollPhase(r), selected);
    assert one == s.(runs := s.runs[r := Gateway(p, s.Current(), SawPhase)]);
    var two := Step(one, PollRecord(r), selected);
    assert [PollPhase(r), PollRecord(r)][1..] == [PollRecord(r)];
    assert Continue(one, [PollRecord(r)], selected) == two;
  }

  lemma {:induction false} OpenAll(s: State, todo: set<Profile>, m: Record, selected: set<Profile>) returns (actions: seq<Action>)
    requires Alone(s, Confirming(selected), Activating) && todo <= selected
    requires s.activation == Some(m) && Lists(m, s, selected)
    requires forall p :: p in selected ==> Live(s, p, if p in todo then Parked else Open)
    ensures var t := Continue(s, actions, selected);
            && Alone(t, Confirming(selected), Activating) && t.restored == s.restored
            && (forall p :: p in selected ==> Live(t, p, Open))
    decreases |todo|
  {
    if todo == {} {
      actions := [];
    } else {
      var p :| p in todo;
      var r := s.receipts[p];
      var first := [PollPhase(r), PollRecord(r)];
      OpenOne(s, p, r, m, selected);
      var t := Continue(s, first, selected);
      var rest := OpenAll(t, todo - {p}, m, selected);
      ContinueJoins(s, first, rest, selected);
      actions := first + rest;
    }
  }

  lemma {:induction false} ConfirmAll(s: State, todo: set<Profile>, selected: set<Profile>) returns (actions: seq<Action>)
    requires Alone(s, Confirming(todo), Activating) && todo <= selected
    requires forall p :: p in selected ==> Live(s, p, Open)
    ensures var t := Continue(s, actions, selected); Alone(t, Confirming({}), Activating) && t.restored == s.restored
    decreases |todo|
  {
    if todo == {} {
      actions := [];
    } else {
      var p :| p in todo;
      var rest := ConfirmAll(Step(s, Turn(p, 0), selected), todo - {p}, selected);
      actions := [Turn(p, 0)] + rest;
    }
  }

  /** The coordinator's next n steps. */
  function Turns(s: State, n: nat, selected: set<Profile>): State {
    if n == 0 then s else Step(Turns(s, n - 1, selected), Turn(0, 0), selected)
  }

  function TurnActions(n: nat): seq<Action> {
    seq(n, _ => Turn(0, 0))
  }

  lemma {:induction false} TurnsContinue(s: State, n: nat, selected: set<Profile>)
    ensures Continue(s, TurnActions(n), selected) == Turns(s, n, selected)
  {
    if n > 0 {
      TurnsContinue(s, n - 1, selected);
      assert TurnActions(n) == TurnActions(n - 1) + [Turn(0, 0)];
      ContinueJoins(s, TurnActions(n - 1), [Turn(0, 0)], selected);
      Unrolls(Turns(s, n - 1, selected), [Turn(0, 0)], selected);
    }
  }

  lemma Unrolls(s: State, actions: seq<Action>, selected: set<Profile>)
    requires actions != []
    ensures Continue(s, actions, selected) == Continue(Step(s, actions[0], selected), actions[1..], selected)
  {
  }

  /** Process 0 is the only coordinator, so moving it is all that happens to the map. */
  lemma Moves(s: State, from: Coordinator, c: Coordinator)
    requires s.coordinators == map[0 := from]
    ensures At(s, 0, c) == s.(coordinators := map[0 := c])
  {
    assert map[0 := from][0 := c] == map[0 := c];
  }

  lemma Inspects(s: State, selected: set<Profile>)
    requires s.coordinators == map[0 := Inspecting] && InspectionPasses(s, selected)
    requires forall p :: p in selected ==> !s.LiveRun(p)
    ensures Step(s, Turn(0, 0), selected) == s.(coordinators := map[0 := Advancing(selected)])
  {
    assert (set q | q in selected && !s.LiveRun(q)) == selected;
    Moves(s, Inspecting, Advancing(selected));
  }

  lemma Enters(s: State, selected: set<Profile>)
    requires Idle(s) && Resumable(s, selected)
    ensures var t := Turns(Step(s, Start(0), selected), 4, selected);
            Alone(t, Granting(selected), Restarting) && Undisturbed(s, t)
  {
    var one := Step(s, Start(0), selected);
    assert one == s.(coordinators := map[0 := Reading]);
    var two := s.(coordinators := map[0 := Entering(s.phase)], desk := Reads(s.desk, 0));
    Moves(one, Reading, Entering(s.phase));
    assert Turns(one, 1, selected) == two;
    var three := two.(coordinators := map[0 := Inspecting], maintenance := Some(0));
    Moves(two, Entering(s.phase), Inspecting);
    assert Turns(one, 2, selected) == three;
    Inspects(three, selected);
    var four := three.(coordinators := map[0 := Advancing(selected)]);
    assert Turns(one, 3, selected) == four;
    Moves(four, Advancing(selected), Granting(selected));
  }

  lemma Authorizes(s: State, resuming: bool, all: Record, selected: set<Profile>)
    requires Alone(s, Parking(resuming, {}, all), Restarting)
    ensures var t := Turns(s, 3, selected);
            && Alone(t, Confirming(selected), Activating) && t.activation == Some(all)
            && t.runs == s.runs && t.receipts == s.receipts && t.restored == s.restored
  {
    var one := s.(coordinators := map[0 := Announcing(all)]);
    Moves(s, Parking(resuming, {}, all), Announcing(all));
    assert Turns(s, 1, selected) == one;
    var two := one.(coordinators := map[0 := Authorizing(all)], phase := Activating, desk := s.desk.(mutated := true));
    Moves(one, Announcing(all), Authorizing(all));
    assert Turns(s, 2, selected) == two;
    Moves(two, Authorizing(all), Confirming(selected));
  }

  lemma Finishes(s: State, selected: set<Profile>)
    requires Alone(s, Confirming({}), Activating)
    ensures Turns(s, 5, selected).phase == if s.restored then Restored else Succeeded
  {
    Moves(s, Confirming({}), Finishing);
    var one := s.(coordinators := map[0 := Finishing]);
    assert Turns(s, 1, selected) == one;
    Moves(one, Finishing, Releasing(true));
    var two := one.(coordinators := map[0 := Releasing(true)], phase := Finalizing, desk := s.desk.(mutated := true));
    assert Turns(s, 2, selected) == two;
    Lifts(two, selected);
    assert Turns(s, 3, selected) == Step(two, Turn(0, 0), selected);
    assert Turns(s, 4, selected) == Step(Step(two, Turn(0, 0), selected), Turn(0, 0), selected);
  }

  lemma Lifts(s: State, selected: set<Profile>)
    requires s.coordinators == map[0 := Releasing(true)] && s.pending.Some?
    ensures var t := Step(Step(s, Turn(0, 0), selected), Turn(0, 0), selected);
            Step(t, Turn(0, 0), selected).phase == if s.restored then Restored else Succeeded
  {
    var one := Step(s, Turn(0, 0), selected);
    assert one.coordinators == map[0 := Unmarking(true)] && one.pending == s.pending && one.restored == s.restored;
    var two := Step(one, Turn(0, 0), selected);
    assert two.coordinators == map[0 := Ending] && two.restored == s.restored;
  }

  /** From a resumable idle handoff one coordinator and one gateway for each profile reach the final phase. */
  lemma ResumableHandoffsFinish(s: State, selected: set<Profile>) returns (actions: seq<Action>)
    requires Idle(s) && Resumable(s, selected)
    ensures Continue(s, actions, selected).phase == if s.restored then Restored else Succeeded
  {
    var enter := [Start(0)] + TurnActions(4);
    Enters(s, selected);
    Unrolls(s, enter, selected);
    assert enter[1..] == TurnActions(4);
    TurnsContinue(Step(s, Start(0), selected), 4, selected);
    var entered := Continue(s, enter, selected);
    var start := StartAll(entered, selected, selected);
    var started := Continue(entered, start, selected);
    var verified, park, all := Parks(started, selected);
    Authorizes(verified, started.activation.Some?, all, selected);
    var three := TurnActions(3);
    TurnsContinue(verified, 3, selected);
    var authorized := Continue(verified, three, selected);
    var finish := Opens(authorized, all, selected);
    ContinueJoins(s, enter, start, selected);
    ContinueJoins(s, enter + start, park, selected);
    ContinueJoins(s, enter + start + park, three, selected);
    ContinueJoins(s, enter + start + park + three, finish, selected);
    actions := enter + start + park + three + finish;
  }

  lemma Parks(s: State, selected: set<Profile>) returns (t: State, actions: seq<Action>, all: Record)
    requires Alone(s, Granting({}), Restarting) && forall p :: p in selected ==> Live(s, p, Parked)
    ensures t == Continue(s, actions, selected)
    ensures Alone(t, Parking(s.activation.Some?, {}, all), Restarting) && Lists(all, t, selected)
    ensures t.restored == s.restored && forall p :: p in selected ==> Live(t, p, Parked)
  {
    var one := Step(s, Turn(0, 0), selected);
    assert one == s.(coordinators := map[0 := Parking(s.activation.Some?, selected, map[])]);
    assert selected - selected == {};
    var rest;
    rest, all := ParkAll(one, s.activation.Some?, selected, map[], selected);
    actions := [Turn(0, 0)] + rest;
    t := Continue(s, actions, selected);
    Unrolls(s, actions, selected);
    assert actions[1..] == rest;
    ListsSame(one, t, all, selected);
  }

  lemma Opens(s: State, all: Record, selected: set<Profile>) returns (actions: seq<Action>)
    requires Alone(s, Confirming(selected), Activating) && s.activation == Some(all) && Lists(all, s, selected)
    requires forall p :: p in selected ==> Live(s, p, Parked)
    ensures Continue(s, actions, selected).phase == if s.restored then Restored else Succeeded
  {
    var open := OpenAll(s, selected, all, selected);
    var opening := Continue(s, open, selected);
    var confirm := ConfirmAll(opening, selected, selected);
    var confirmed := Continue(opening, confirm, selected);
    var five := TurnActions(5);
    TurnsContinue(confirmed, 5, selected);
    Finishes(confirmed, selected);
    ContinueJoins(s, open, confirm, selected);
    ContinueJoins(s, open + confirm, five, selected);
    actions := open + confirm + five;
  }

  /**
   A restored service can be brought to RESTORED from an idle, unfinished state if and only if the
   marker already carries the restored version, the data is reserved, and no original-version gateway
   left a receipt when it stopped. A crash of restore_service between the program's journal and the
   marker, or of a restored gateway after its claim, therefore strands the service.
   */
  lemma RestoredServiceFinishesIffResumable(s: State, selected: set<Profile>)
    requires Idle(s) && s.restored && selected != {}
    ensures (exists actions :: Continue(s, actions, selected).phase.Restored?) <==> Resumable(s, selected)
  {
    if Resumable(s, selected) {
      var actions := ResumableHandoffsFinish(s, selected);
      assert Continue(s, actions, selected).phase.Restored?;
    } else {
      assert Unmarked(s, selected) || Uninspectable(s, selected);
      forall actions ensures !Continue(s, actions, selected).phase.Restored? {
        StuckStays(s, actions, selected);
      }
    }
  }

  // ---- both gaps are reachable ----

  lemma {:induction false} RunsContinue(begin: Beginning, selected: set<Profile>, actions: seq<Action>)
    ensures Run(begin, selected, actions) == Continue(Initial(begin), actions, selected)
  {
    if actions != [] {
      var most := actions[..|actions| - 1];
      var last := actions[|actions| - 1];
      RunsContinue(begin, selected, most);
      assert actions == most + [last];
      ContinueJoins(Initial(begin), most, [last], selected);
      Unrolls(Continue(Initial(begin), most, selected), [last], selected);
    }
  }

  /** restore_service dying between restore_program and the new marker strands the service for good. */
  lemma CrashBeforeTheMarkerStrands(selected: set<Profile>, after: seq<Action>)
    requires selected != {}
    ensures !Run(Installed, selected, [RestoreCheck, RestoreStep, RestorerDies] + after).phase.Past()
  {
    var first := [RestoreCheck, RestoreStep, RestorerDies];
    var one := Step(Initial(Installed), RestoreCheck, selected);
    var two := Step(one, RestoreStep, selected);
    var three := Step(two, RestorerDies, selected);
    assert one.restorer == Some(Checked) && one.Unleased();
    assert three.restored && three.pending == Some(Target);
    Unrolls(Initial(Installed), first, selected);
    Unrolls(one, first[1..], selected);
    Unrolls(two, first[2..], selected);
    assert first[1..][1..] == first[2..] && first[2..][1..] == [] && first[1..][0] == RestoreStep;
    assert Continue(Initial(Installed), first, selected) == three;
    RunsContinue(Installed, selected, first + after);
    ContinueJoins(Initial(Installed), first, after, selected);
    StuckStays(three, after, selected);
  }

  lemma StartedCandidate() returns (actions: seq<Action>)
    ensures var s := Continue(Initial(Installed), actions, {0});
            && Alone(s, Granting({}), Restarting) && !s.restored && s.activation.None?
            && s.runs.Keys == {0} && Live(s, 0, Parked) && s.receipts == map[0 := 0]
  {
    var enter := [Start(0)] + TurnActions(4);
    Enters(Initial(Installed), {0});
    Unrolls(Initial(Installed), enter, {0});
    assert enter[1..] == TurnActions(4);
    TurnsContinue(Step(Initial(Installed), Start(0), {0}), 4, {0});
    var entered := Continue(Initial(Installed), enter, {0});
    StartOne(entered, {0}, 0, 0, {0});
    assert {0} - {0} == {};
    ContinueJoins(Initial(Installed), enter, [Turn(0, 0), Validate(0), Claim(0)], {0});
    actions := enter + [Turn(0, 0), Validate(0), Claim(0)];
  }

  lemma CandidateVerifies(s: State, m: Record)
    requires Alone(s, Granting({}), Restarting) && !s.restored && s.activation.None? && Live(s, 0, Parked)
    requires s.receipts == map[0 := 0] && m == map[0 := Identity(0, 0, Target)]
    ensures var t := Turns(s, 4, {0});
            && Alone(t, Authorizing(m), Activating) && !t.restored && t.activation.None? && t.runs == s.runs
  {
    Moves(s, Granting({}), Parking(false, {0}, map[]));
    var one := s.(coordinators := map[0 := Parking(false, {0}, map[])]);
    assert Turns(s, 1, {0}) == one;
    ParkOne(one, false, {0}, map[], 0, {0});
    var two := Turns(s, 2, {0});
    assert two == Step(one, Turn(0, 0), {0});
    assert {0} - {0} == {} && map[][0 := Identity(0, 0, Target)] == m;
    Moves(two, Parking(false, {}, m), Announcing(m));
    var three := two.(coordinators := map[0 := Announcing(m)]);
    assert Turns(s, 3, {0}) == three;
    Moves(three, Announcing(m), Authorizing(m));
  }

  /** The state in which a candidate gateway is verified but not yet authorized. */
  lemma VerifiedCandidate() returns (actions: seq<Action>, m: Record)
    ensures var s := Continue(Initial(Installed), actions, {0});
            && Alone(s, Authorizing(m), Activating) && !s.restored && s.activation.None?
            && s.runs.Keys == {0}
  {
    var start := StartedCandidate();
    var started := Continue(Initial(Installed), start, {0});
    m := map[0 := Identity(0, 0, Target)];
    CandidateVerifies(started, m);
    TurnsContinue(started, 4, {0});
    ContinueJoins(Initial(Installed), start, TurnActions(4), {0});
    actions := start + TurnActions(4);
  }

  /** The check for an activation, the activation, and the end of everyone holding a lease. */
  lemma ActivatesAfterTheCheck(s: State, m: Record)
    requires Alone(s, Authorizing(m), Activating) && !s.restored && s.activation.None? && s.runs.Keys == {0}
    ensures Late(Continue(s, [RestoreCheck, Turn(0, 0), CoordinatorDies(0), Exit(0)], {0}), RestoreStep)
  {
    var last := [RestoreCheck, Turn(0, 0), CoordinatorDies(0), Exit(0)];
    var one := s.(restorer := Some(Checked));
    assert Step(s, RestoreCheck, {0}) == one;
    Moves(one, Authorizing(m), Confirming({0}));
    var two := Step(one, Turn(0, 0), {0});
    assert two.activation == Some(m) && two.restorer == Some(Checked) && two.runs == s.runs;
    assert two.coordinators == map[0 := Confirming({0})];
    LeavesAlone(two, m);
    Unrolls(s, last, {0});
    assert last[1..] == [Turn(0, 0), CoordinatorDies(0), Exit(0)];
    Unrolls(one, last[1..], {0});
    assert last[1..][1..] == [CoordinatorDies(0), Exit(0)];
  }

  lemma LeavesAlone(s: State, m: Record)
    requires s.coordinators == map[0 := Confirming({0})] && s.restorer == Some(Checked) && s.activation == Some(m)
    requires s.runs.Keys == {0}
    ensures Late(Continue(s, [CoordinatorDies(0), Exit(0)], {0}), RestoreStep)
  {
    var one := Step(s, CoordinatorDies(0), {0});
    assert one.coordinators == map[];
    var two := Step(one, Exit(0), {0});
    Unrolls(s, [CoordinatorDies(0), Exit(0)], {0});
    assert [CoordinatorDies(0), Exit(0)][1..] == [Exit(0)];
    Unrolls(one, [Exit(0)], {0});
    assert two.Unleased();
  }

  /** A run whose restoration undoes a program that an activation record already let accept work. */
  lemma LateRestorationIsReachable() returns (actions: seq<Action>)
    ensures Late(Run(Installed, {0}, actions), RestoreStep)
  {
    var before, m := VerifiedCandidate();
    var last := [RestoreCheck, Turn(0, 0), CoordinatorDies(0), Exit(0)];
    ActivatesAfterTheCheck(Continue(Initial(Installed), before, {0}), m);
    actions := before + last;
    ContinueJoins(Initial(Installed), before, last, {0});
    RunsContinue(Installed, {0}, actions);
  }

  // ---- a service restored unmodified, and its fences ----

  function Unopened(holder: Option<Holder>): State {
    Initial(Unmodified).(desk := Initial(Unmodified).desk.(holder := holder))
  }

  lemma RunsOn(begin: Beginning, selected: set<Profile>, before: seq<Action>, a: Action)
    ensures Run(begin, selected, before + [a]) == Step(Run(begin, selected, before), a, selected)
  {
    assert (before + [a])[..|before|] == before;
  }

  lemma CancellationBegins(selected: set<Profile>)
    ensures Run(Unmodified, selected, [CancelStart]) == Unopened(Some(CancelUnmarking))
  {
    RunsOn(Unmodified, selected, [], CancelStart);
    assert [] + [CancelStart] == [CancelStart] && Run(Unmodified, selected, []) == Initial(Unmodified);
  }

  /** cancel_job, which looks at the mutation flag alone, lifts both fences with no gateway confirmed. */
  lemma CancellationCanLiftFences(selected: set<Profile>)
    requires selected != {}
    ensures var s := Run(Unmodified, selected, [CancelStart]);
            Withdraws(s, HolderStep) && !Everyone(s.past.confirmed, selected)
    ensures var t := Run(Unmodified, selected, [CancelStart, HolderStep, HolderStep, HolderStep]);
            t.phase.Cancelled? && t.restored && t.pending.None? && !t.reserved && t.past.confirmed == {}
  {
    CancellationBegins(selected);
    NobodyIsNotEveryone(selected);
    RunsOn(Unmodified, selected, [CancelStart], HolderStep);
    RunsOn(Unmodified, selected, [CancelStart, HolderStep], HolderStep);
    RunsOn(Unmodified, selected, [CancelStart, HolderStep, HolderStep], HolderStep);
    assert [CancelStart] + [HolderStep] == [CancelStart, HolderStep];
    assert [CancelStart, HolderStep] + [HolderStep] == [CancelStart, HolderStep, HolderStep];
    assert [CancelStart, HolderStep, HolderStep] + [HolderStep] == [CancelStart, HolderStep, HolderStep, HolderStep];
  }

  lemma NobodyIsNotEveryone(selected: set<Profile>)
    requires selected != {}
    ensures !Everyone({}, selected)
  {
    var p :| p in selected;
    forall v ensures !Confirmed({}, v, selected) { assert p in selected; }
  }

  lemma HandlerReads(selected: set<Profile>)
    ensures Run(Unmodified, selected, [FailRead]) == Unopened(Some(FailSaving(false)))
  {
    RunsOn(Unmodified, selected, [], FailRead);
    assert [] + [FailRead] == [FailRead] && Run(Unmodified, selected, []) == Initial(Unmodified);
  }

  lemma HandlerSaves(selected: set<Profile>)
    ensures Run(Unmodified, selected, [FailRead, HolderStep]) == Unopened(Some(ClearSeeking)).(phase := RestartFailed)
  {
    HandlerReads(selected);
    RunsOn(Unmodified, selected, [FailRead], HolderStep);
    assert [FailRead] + [HolderStep] == [FailRead, HolderStep];
  }

  lemma HandlerClears(selected: set<Profile>)
    ensures Run(Unmodified, selected, [FailRead, HolderStep, HolderStep])
            == Unopened(Some(ClearUnmarking)).(phase := RestartFailed)
  {
    HandlerSaves(selected);
    RunsOn(Unmodified, selected, [FailRead, HolderStep], HolderStep);
    assert [FailRead, HolderStep] + [HolderStep] == [FailRead, HolderStep, HolderStep];
  }

  const HANDLER := [FailRead, HolderStep, HolderStep, HolderStep, HolderStep]

  lemma HandlerLifts(selected: set<Profile>)
    ensures var t := Run(Unmodified, selected, HANDLER);
            && t.phase.RestartFailed? && t.restored && t.pending.None? && !t.reserved && t.past.confirmed == {}
            && t.restorer.None? && t.desk.note.None? && t.desk.holder.None? && t.runs == map[] && t.coordinators == map[]
  {
    HandlerClears(selected);
    RunsOn(Unmodified, selected, [FailRead, HolderStep, HolderStep], HolderStep);
    RunsOn(Unmodified, selected, [FailRead, HolderStep, HolderStep, HolderStep], HolderStep);
    assert [FailRead, HolderStep, HolderStep] + [HolderStep] == [FailRead, HolderStep, HolderStep, HolderStep];
    assert [FailRead, HolderStep, HolderStep, HolderStep] + [HolderStep] == HANDLER;
  }

  /** run_job's failure handler lifts both fences of an unmodified restoration; nothing finishes it any more. */
  lemma HandlerCanStrandRestored(selected: set<Profile>, more: seq<Action>)
    requires selected != {}
    ensures var s := Run(Unmodified, selected, [FailRead, HolderStep, HolderStep]);
            Withdraws(s, HolderStep) && !Everyone(s.past.confirmed, selected)
    ensures var t := Run(Unmodified, selected, HANDLER); t.pending.None? && !t.reserved && t.past.confirmed == {}
    ensures !Run(Unmodified, selected, HANDLER + more).phase.Past()
  {
    HandlerClears(selected);
    NobodyIsNotEveryone(selected);
    HandlerLifts(selected);
    RunsContinue(Unmodified, selected, HANDLER);
    RunsContinue(Unmodified, selected, HANDLER + more);
    ContinueJoins(Initial(Unmodified), HANDLER, more, selected);
    StuckStays(Run(Unmodified, selected, HANDLER), more, selected);
  }
}
