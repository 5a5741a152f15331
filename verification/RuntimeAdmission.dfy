/** Task admission of one runtime: the gate that maintenance closes and accepted work counts in. */
module RuntimeAdmission {
  import opened Wrappers

  /** A pending-work callback, named by identity; what it reports is supplied when it is asked. */
  type Check = nat

  datatype Refusal = UnderMaintenance | Busy

  datatype Gate = Gate(paused: bool, active: nat, checks: seq<Check>)

  const OPEN_GATE := Gate(false, 0, [])

  /** The property the whole shutdown protocol rests on. */
  predicate Sound(g: Gate) {
    g.paused ==> g.active == 0
  }

  // ---- specification of each operation ----

  function AfterRegister(g: Gate, check: Check): Result<Gate, Refusal> {
    if g.paused then Err(UnderMaintenance) else Ok(g.(checks := g.checks + [check]))
  }

  function AfterEnter(g: Gate): Result<Gate, Refusal> {
    if g.paused then Err(UnderMaintenance) else Ok(g.(active := g.active + 1))
  }

  function AfterPauseBeforeStart(g: Gate): Result<Gate, Refusal> {
    if g.paused then Err(UnderMaintenance)
    else if g.active > 0 then Err(Busy)
    else Ok(g.(paused := true))
  }

  predicate SomePending(g: Gate, ownerPending: bool, reporting: set<Check>) {
    ownerPending || exists i :: 0 <= i < |g.checks| && g.checks[i] in reporting
  }

  function AfterPauseIfIdle(g: Gate, ownerPending: bool, reporting: set<Check>): Result<Gate, Refusal> {
    if g.paused then Err(UnderMaintenance)
    else if g.active > 0 || SomePending(g, ownerPending, reporting) then Err(Busy)
    else AfterPauseBeforeStart(g)
  }

  function RemoveFirst(checks: seq<Check>, check: Check): seq<Check> {
    if checks == [] then []
    else if checks[0] == check then checks[1..]
    else [checks[0]] + RemoveFirst(checks[1..], check)
  }

  lemma {:induction false} RemoveFirstDropsOne(checks: seq<Check>, check: Check)
    ensures multiset(RemoveFirst(checks, check)) == multiset(checks) - multiset{check}
  {
    if checks != [] {
      assert checks == [checks[0]] + checks[1..];
      if checks[0] != check {
        RemoveFirstDropsOne(checks[1..], check);
      }
    }
  }

  // ---- runs of one gate ----

  /** Leave and Resume are the exits of contexts that were entered. */
  datatype Event =
    | Enter
    | Leave
    | Register(check: Check)
    | Unregister(check: Check)
    | PauseIfIdle(ownerPending: bool, reporting: set<Check>)
    | PauseBeforeStart
    | Resume

  function OrSame(r: Result<Gate, Refusal>, g: Gate): Gate {
    if r.Ok? then r.value else g
  }

  function Apply(g: Gate, e: Event): Gate {
    match e
    case Enter => OrSame(AfterEnter(g), g)
    case Leave => if g.active > 0 then g.(active := g.active - 1) else g
    case Register(check) => OrSame(AfterRegister(g, check), g)
    case Unregister(check) => g.(checks := RemoveFirst(g.checks, check))
    case PauseIfIdle(own, reporting) => OrSame(AfterPauseIfIdle(g, own, reporting), g)
    case PauseBeforeStart => OrSame(AfterPauseBeforeStart(g), g)
    case Resume => g.(paused := false)
  }

  function Run(g: Gate, events: seq<Event>): Gate {
    if events == [] then g else Apply(Run(g, events[..|events| - 1]), events[|events| - 1])
  }

  /** Activities admitted and finished along a run. */
  function Admitted(g: Gate, events: seq<Event>): nat {
    if events == [] then 0
    else
      var before := events[..|events| - 1];
      Admitted(g, before) + if events[|events| - 1].Enter? && !Run(g, before).paused then 1 else 0
  }

  function Finished(g: Gate, events: seq<Event>): nat {
    if events == [] then 0
    else
      var before := events[..|events| - 1];
      Finished(g, before) + if events[|events| - 1].Leave? && Run(g, before).active > 0 then 1 else 0
  }

  /** In every reachable state a closed gate has no running activity, and none is ever lost or invented. */
  lemma {:induction false} ClosedMeansIdle(events: seq<Event>)
    ensures var g := Run(OPEN_GATE, events);
            Sound(g) && g.active == Admitted(OPEN_GATE, events) - Finished(OPEN_GATE, events)
  {
    if events != [] {
      ClosedMeansIdle(events[..|events| - 1]);
    }
  }

  /** From the moment it closes until it is resumed, a gate stays closed and admits nothing. */
  lemma {:induction false} NothingEntersUntilResumed(g: Gate, events: seq<Event>)
    requires g.paused && Sound(g)
    requires Resume !in events
    ensures Run(g, events).paused && Run(g, events).active == 0 && Admitted(g, events) == 0
  {
    if events != [] {
      var before := events[..|events| - 1];
      assert events == before + [events[|events| - 1]];
      NothingEntersUntilResumed(g, before);
    }
  }

  /** What register_pending_work hands back to the owner; `registered` is the closure's flag. */
  class Registration {
    const check: Check
    var registered: bool

    constructor (check: Check)
      ensures this.check == check && registered
    {
      this.check := check;
      registered := true;
    }
  }

  class RuntimeAdmission {
    var paused: bool
    var active: nat
    var checks: seq<Check>
    var open: bool

    /** The open event mirrors the flag, and a closed gate is idle. */
    ghost predicate Valid()
      reads this
    {
      open == !paused && Sound(Contents())
    }

    function Contents(): (g: Gate)
      reads this
    {
      Gate(paused, active, checks)
    }

    constructor ()
      ensures Valid() && Contents() == OPEN_GATE
    {
      paused, active, checks, open := false, 0, [], true;
    }

    method RegisterPendingWork(check: Check) returns (r: Result<Registration, Refusal>)
      requires Valid()
      modifies this
      ensures Valid()
      ensures match AfterRegister(old(Contents()), check)
              case Ok(g) => r.Ok? && fresh(r.value) && r.value.check == check && r.value.registered && Contents() == g
              case Err(e) => r == Err(e) && Contents() == old(Contents())
    {
      if paused {
        return Err(UnderMaintenance);
      }
      checks := checks + [check];
      var registration := new Registration(check);
      r := Ok(registration);
    }

    /** The returned remover: the first call drops one occurrence, later calls do nothing. */
    method Remove(registration: Registration)
      requires Valid()
      modifies this`checks, registration
      ensures Valid() && !registration.registered
      ensures multiset(checks) == if old(registration.registered) then old(multiset(checks)) - multiset{registration.check}
                                  else old(multiset(checks))
    {
      if registration.registered {
        RemoveFirstDropsOne(checks, registration.check);
        checks := RemoveFirst(checks, registration.check);
        registration.registered := false;
      }
    }

    method EnterActivity() returns (r: Result<(), Refusal>)
      requires Valid()
      modifies this`active
      ensures Valid()
      ensures match AfterEnter(old(Contents()))
              case Ok(g) => r.Ok? && Contents() == g
              case Err(e) => r == Err(e) && Contents() == old(Contents())
    {
      if paused {
        return Err(UnderMaintenance);
      }
      active := active + 1;
      r := Ok(());
    }

    /** The exit of an entered activity. */
    method LeaveActivity()
      requires Valid() && active > 0
      modifies this`active
      ensures Valid() && Contents() == Apply(old(Contents()), Leave)
    {
      active := active - 1;
    }

    method PauseIfIdle(ownerPending: bool, reporting: set<Check>) returns (r: Result<(), Refusal>)
      requires Valid()
      modifies this`paused, this`open
      ensures Valid()
      ensures match AfterPauseIfIdle(old(Contents()), ownerPending, reporting)
              case Ok(g) => r.Ok? && Contents() == g
              case Err(e) => r == Err(e) && Contents() == old(Contents())
    {
      if paused {
        return Err(UnderMaintenance);
      }
      var pending := ownerPending;
      var i := 0;
      while i < |checks| && !pending
        invariant 0 <= i <= |checks|
        invariant pending == (ownerPending || exists j :: 0 <= j < i && checks[j] in reporting)
      {
        pending := checks[i] in reporting;
        i := i + 1;
      }
      if active > 0 || pending {
        return Err(Busy);
      }
      r := PauseBeforeStart();
    }

    method PauseBeforeStart() returns (r: Result<(), Refusal>)
      requires Valid()
      modifies this`paused, this`open
      ensures Valid()
      ensures match AfterPauseBeforeStart(old(Contents()))
              case Ok(g) => r.Ok? && Contents() == g
              case Err(e) => r == Err(e) && Contents() == old(Contents())
    {
      if paused {
        return Err(UnderMaintenance);
      }
      if active > 0 {
        return Err(Busy);
      }
      paused, open := true, false;
      r := Ok(());
    }

    /** Leaving either pause context. */
    method Resume()
      requires Valid()
      modifies this`paused, this`open
      ensures Valid() && Contents() == Apply(old(Contents()), Event.Resume)
    {
      paused, open := false, true;
    }
  }
}
