/**
 The crash-safe swap of the original program back into place: two renames and three journal writes,
 of which any may be the last before the process dies.
 */
module UpdateFallback {
  import opened Wrappers

  /** A program generation, as its tree digest identifies it. */
  type Tree = nat

  /** What a path holds; a symbolic link may lead to a tree or nowhere. */
  datatype Node = Absent | Directory(tree: Tree) | Link(target: Option<Tree>) {
    predicate Exists() {
      Directory? || (Link? && target.Some?)
    }
  }

  datatype Journal = Restoring | Restarting

  datatype Disk = Disk(environment: Node, original: Node, failed: Node, journal: Option<Journal>)

  datatype Outcome = Done | Refused | Died

  // ---- restore_program on the disk it leaves behind ----

  /** The durable steps in order; a process that may take `budget` of them dies before the next one. */
  function Journaled(d: Disk, j: Journal, budget: nat): (Disk, Outcome) {
    if budget == 0 then (d, Died) else (d.(journal := Some(j)), Done)
  }

  function PutBack(d: Disk, budget: nat): (Disk, Outcome) {
    if budget == 0 then (d, Died)
    else Journaled(d.(environment := d.original, original := Absent), Restarting, budget - 1)
  }

  function SetAside(d: Disk, budget: nat): (Disk, Outcome) {
    if d.environment == Absent then PutBack(d, budget)
    else if d.failed != Absent then (d, Refused)
    else if budget == 0 then (d, Died)
    else PutBack(d.(failed := d.environment, environment := Absent), budget - 1)
  }

  /** An environment path that is a symbolic link is refused outright. */
  function Restored(d: Disk, snapshot: Tree, budget: nat): (Disk, Outcome) {
    if d.environment.Link? then (d, Refused)
    else if !d.original.Exists() then
      if d.failed.Exists() && d.environment == Directory(snapshot) then Journaled(d, Restarting, budget) else (d, Refused)
    else if d.original != Directory(snapshot) then (d, Refused)
    else if budget == 0 then (d, Died)
    else SetAside(d.(journal := Some(Restoring)), budget - 1)
  }

  /** The program directories and the restoration journal of one installation. */
  class Program {
    const snapshot: Tree
    var environment: Node
    var original: Node
    var failed: Node
    var journal: Option<Journal>

    constructor (candidate: Tree, snapshot: Tree)
      ensures Contents() == Disk(Directory(candidate), Directory(snapshot), Absent, None) && this.snapshot == snapshot
    {
      this.snapshot := snapshot;
      environment, original, failed, journal := Directory(candidate), Directory(snapshot), Absent, None;
    }

    function Contents(): Disk
      reads this
    {
      Disk(environment, original, failed, journal)
    }

    method Restore(budget: nat) returns (outcome: Outcome)
      modifies this
      ensures (Contents(), outcome) == Restored(old(Contents()), snapshot, budget)
    {
      var left := budget;
      if environment.Link? { return Refused; }
      if !original.Exists() {
        // Both renames happened: only the journal is missing.
        if !failed.Exists() || environment != Directory(snapshot) { return Refused; }
        if left == 0 { return Died; }
        journal := Some(Restarting);
        return Done;
      }
      if original != Directory(snapshot) { return Refused; }
      if left == 0 { return Died; }
      journal, left := Some(Restoring), left - 1;
      if environment.Exists() {
        if failed != Absent { return Refused; }
        if left == 0 { return Died; }
        failed, environment, left := environment, Absent, left - 1;
      }
      if left == 0 { return Died; }
      environment, original, left := original, Absent, left - 1;
      if left == 0 { return Died; }
      journal := Some(Restarting);
      return Done;
    }
  }

  // ---- any number of interrupted attempts ----

  /** The disk after attempts that could take the given numbers of durable steps. */
  function Attempts(d: Disk, snapshot: Tree, budgets: seq<nat>): Disk {
    if budgets == [] then d
    else Restored(Attempts(d, snapshot, budgets[..|budgets| - 1]), snapshot, budgets[|budgets| - 1]).0
  }

  const ALL_STEPS := 4

  /** The possible states on the way from a candidate in place to the restored program. */
  predicate OnTheWay(d: Disk, candidate: Tree, snapshot: Tree) {
    || (d.environment == Directory(candidate) && d.original == Directory(snapshot) && d.failed == Absent && d.journal != Some(Restarting))
    || (d.environment == Absent && d.original == Directory(snapshot) && d.failed == Directory(candidate) && d.journal == Some(Restoring))
    || (d.environment == Directory(snapshot) && d.original == Absent && d.failed == Directory(candidate) && d.journal.Some?)
  }

  lemma {:induction false} AttemptsStayOnTheWay(d: Disk, candidate: Tree, snapshot: Tree, budgets: seq<nat>)
    requires OnTheWay(d, candidate, snapshot)
    ensures OnTheWay(Attempts(d, snapshot, budgets), candidate, snapshot)
  {
    if budgets != [] {
      AttemptsStayOnTheWay(d, candidate, snapshot, budgets[..|budgets| - 1]);
    }
  }

  /** Both generations are on disk whenever the process may die, each at exactly one path. */
  lemma {:induction false} BothGenerationsSurvive(candidate: Tree, snapshot: Tree, budgets: seq<nat>)
    ensures var d := Attempts(Disk(Directory(candidate), Directory(snapshot), Absent, None), snapshot, budgets);
            multiset{d.environment, d.original, d.failed} == multiset{Directory(candidate), Directory(snapshot), Absent}
  {
    AttemptsStayOnTheWay(Disk(Directory(candidate), Directory(snapshot), Absent, None), candidate, snapshot, budgets);
  }

  /** After any interrupted attempts one undisturbed attempt finishes the swap. */
  lemma {:induction false} CandidateIsAlwaysReplaced(candidate: Tree, snapshot: Tree, budgets: seq<nat>, budget: nat)
    requires budget >= ALL_STEPS
    ensures var d := Attempts(Disk(Directory(candidate), Directory(snapshot), Absent, None), snapshot, budgets);
            Restored(d, snapshot, budget) ==
            (Disk(Directory(snapshot), Absent, Directory(candidate), Some(Restarting)), Done)
  {
    AttemptsStayOnTheWay(Disk(Directory(candidate), Directory(snapshot), Absent, None), candidate, snapshot, budgets);
  }

  // ---- exactly which disks converge ----

  ghost predicate Converges(d: Disk, snapshot: Tree) {
    forall budgets: seq<nat> :: Restored(Attempts(d, snapshot, budgets), snapshot, ALL_STEPS).1 == Done
  }

  /** A place for the replaced program, or one already set aside. */
  predicate Recoverable(d: Disk, snapshot: Tree) {
    || (d.original == Directory(snapshot) && d.environment.Directory? && d.failed == Absent)
    || (d.original == Directory(snapshot) && d.environment == Absent && d.failed.Exists())
    || (!d.original.Exists() && d.environment == Directory(snapshot) && d.failed.Exists())
  }

  lemma {:induction false} AttemptsStayRecoverable(d: Disk, snapshot: Tree, budgets: seq<nat>)
    requires Recoverable(d, snapshot)
    ensures Recoverable(Attempts(d, snapshot, budgets), snapshot)
  {
    if budgets != [] {
      AttemptsStayRecoverable(d, snapshot, budgets[..|budgets| - 1]);
    }
  }

  /**
   Restoration survives every pattern of crashes exactly from the recoverable disks. In particular an
   absent environment with nothing set aside restores in one go, but not across a crash between the
   rename and the last journal write.
   */
  lemma ConvergesExactlyWhenRecoverable(d: Disk, snapshot: Tree)
    ensures Converges(d, snapshot) <==> Recoverable(d, snapshot)
  {
    if Recoverable(d, snapshot) {
      forall budgets: seq<nat> ensures Restored(Attempts(d, snapshot, budgets), snapshot, ALL_STEPS).1 == Done {
        AttemptsStayRecoverable(d, snapshot, budgets);
      }
    } else if Restored(d, snapshot, ALL_STEPS).1 != Done {
      assert Attempts(d, snapshot, []) == d;
    } else {
      assert d.original == Directory(snapshot) && d.environment == Absent && !d.failed.Exists();
      assert Attempts(d, snapshot, []) == d;
      assert [2][..0] == [];
      assert Attempts(d, snapshot, [2]) == Restored(d, snapshot, 2).0;
      assert Restored(Attempts(d, snapshot, [2]), snapshot, ALL_STEPS).1 == Refused;
    }
  }
}
