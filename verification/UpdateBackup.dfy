/**
 The inventory a backup is made from: everything below the named stores, found with a work list that
 is cut off by an entry limit and a size limit.
 */
module UpdateBackup {
  import opened Ordering
  import opened Wrappers

  type Path = string

  /** What lstat and scandir report; Broken for links, special files and redirected parents. */
  datatype Node = Broken | Missing | File(size: nat, stamp: nat) | Directory(children: seq<Path>, stamp: nat)

  /** A file tree that does not change during the walk. */
  type Tree = Path -> Node

  datatype Entry = Entry(path: Path, node: Node) {
    function Size(): nat {
      if node.File? then node.size else 0
    }
  }

  datatype Limits = Limits(entries: nat, bytes: nat)

  const LIMITS := Limits(100_000, 10 * 1024 * 1024 * 1024)

  datatype Error = Unreadable(path: Path) | TooLarge | TooMany

  // ---- what lies below the sources ----

  /** A chain of directory entries from a source. */
  predicate Chain(tree: Tree, sources: seq<Path>, chain: seq<Path>) {
    && chain != [] && chain[0] in sources
    && forall i :: 0 <= i < |chain| - 1 ==> tree(chain[i]).Directory? && chain[i + 1] in tree(chain[i]).children
  }

  ghost predicate Reachable(tree: Tree, sources: seq<Path>, p: Path) {
    exists chain :: Chain(tree, sources, chain) && chain[|chain| - 1] == p
  }

  lemma SourcesAreReachable(tree: Tree, sources: seq<Path>, p: Path)
    requires p in sources
    ensures Reachable(tree, sources, p)
  {
    assert Chain(tree, sources, [p]) && [p][|[p]| - 1] == p;
  }

  lemma ChildrenAreReachable(tree: Tree, sources: seq<Path>, p: Path, child: Path)
    requires Reachable(tree, sources, p) && tree(p).Directory? && child in tree(p).children
    ensures Reachable(tree, sources, child)
  {
    var chain :| Chain(tree, sources, chain) && chain[|chain| - 1] == p;
    var longer := chain + [child];
    assert longer[|longer| - 2] == p;
    assert Chain(tree, sources, longer) && longer[|longer| - 1] == child;
  }

  /** A set that holds the sources and the children of its directories holds everything reachable. */
  lemma {:induction false} ClosedHoldsChains(tree: Tree, sources: seq<Path>, closed: set<Path>, chain: seq<Path>)
    requires forall p :: p in sources ==> p in closed
    requires forall p, child :: p in closed && tree(p).Directory? && child in tree(p).children ==> child in closed
    requires Chain(tree, sources, chain)
    ensures chain[|chain| - 1] in closed
  {
    if |chain| > 1 {
      ClosedHoldsChains(tree, sources, closed, chain[..|chain| - 1]);
    }
  }

  // ---- sizes of sets of paths ----

  ghost function Total(tree: Tree, paths: set<Path>): nat {
    if paths == {} then 0
    else
      var p :| p in paths;
      Entry(p, tree(p)).Size() + Total(tree, paths - {p})
  }

  lemma {:induction false} TotalAdds(tree: Tree, paths: set<Path>, p: Path)
    requires p !in paths
    ensures Total(tree, paths + {p}) == Total(tree, paths) + Entry(p, tree(p)).Size()
  {
    var all := paths + {p};
    var q :| q in all && Total(tree, all) == Entry(q, tree(q)).Size() + Total(tree, all - {q});
    if q == p {
      assert all - {q} == paths;
    } else {
      TotalAdds(tree, paths - {q}, p);
      assert all - {q} == (paths - {q}) + {p};
      TotalAdds(tree, paths - {q}, q);
      assert (paths - {q}) + {q} == paths;
    }
  }

  lemma {:induction false} TotalGrows(tree: Tree, some: set<Path>, all: set<Path>)
    requires some <= all
    ensures Total(tree, some) <= Total(tree, all) && |some| <= |all|
  {
    if all - some == {} {
      assert some == all;
    } else {
      var p :| p in all - some;
      TotalGrows(tree, some, all - {p});
      TotalAdds(tree, all - {p}, p);
      assert all - {p} + {p} == all;
    }
  }

  /** No set of reachable paths is over either limit. */
  ghost predicate Fits(tree: Tree, sources: seq<Path>, limits: Limits) {
    forall paths: set<Path> :: (forall p :: p in paths ==> Reachable(tree, sources, p)) ==>
      |paths| <= limits.entries && Total(tree, paths) <= limits.bytes
  }

  ghost predicate AllReadable(tree: Tree, sources: seq<Path>) {
    forall p :: Reachable(tree, sources, p) ==> !tree(p).Broken?
  }

  // ---- stores that do not overlap ----

  /** As in a directory tree: a path is listed once, by one directory, and no source lies below another. */
  ghost predicate Separate(tree: Tree, sources: seq<Path>) {
    && Distinct(sources)
    && (forall p :: tree(p).Directory? ==> Distinct(tree(p).children))
    && (forall p, q, c :: tree(p).Directory? && tree(q).Directory? && c in tree(p).children && c in tree(q).children ==> p == q)
    && (forall p, c :: Reachable(tree, sources, p) && tree(p).Directory? && c in tree(p).children ==> c !in sources)
  }

  // ---- what the walk computes ----

  /** The counters of the scandir loop run over: every child so far and every waiting path counts once more. */
  predicate RunsOver(limits: Limits, recorded: nat, waiting: nat, children: nat) {
    children > 0 && waiting + children + recorded > limits.entries
  }

  function Walked(tree: Tree, limits: Limits, entries: map<Path, Entry>, total: nat, pending: seq<Path>): Result<map<Path, Entry>, Error>
    requires |entries| <= limits.entries
    decreases limits.entries - |entries|, |pending|
  {
    if pending == [] then Ok(entries)
    else
      var path, rest := pending[|pending| - 1], pending[..|pending| - 1];
      if path in entries then Walked(tree, limits, entries, total, rest)
      else if tree(path).Broken? then Err(Unreadable(path))
      else
        var more, sum := entries[path := Entry(path, tree(path))], total + Entry(path, tree(path)).Size();
        if |more| > limits.entries || sum > limits.bytes then Err(TooLarge)
        else if !tree(path).Directory? then Walked(tree, limits, more, sum, rest)
        else if RunsOver(limits, |more|, |rest|, |tree(path).children|) then Err(TooMany)
        else Walked(tree, limits, more, sum, rest + tree(path).children)
  }

  /** How many of the children are pushed when the counters run over. */
  function Pushed(limits: Limits, recorded: nat, waiting: nat, children: nat): (k: nat)
    requires RunsOver(limits, recorded, waiting, children)
    ensures 0 < k <= children && RunsOver(limits, recorded, waiting, k) && !RunsOver(limits, recorded, waiting, k - 1)
  {
    if waiting + recorded >= limits.entries then 1 else limits.entries + 1 - waiting - recorded
  }

  /** What the walk has recorded and still has waiting. */
  datatype Moment = Moment(entries: map<Path, Entry>, pending: seq<Path>)

  /** The moment at which the walk finds too many entries, if it ever does. */
  function Overrun(tree: Tree, limits: Limits, entries: map<Path, Entry>, total: nat, pending: seq<Path>): Option<Moment>
    requires |entries| <= limits.entries
    decreases limits.entries - |entries|, |pending|
  {
    if pending == [] then None
    else
      var path, rest := pending[|pending| - 1], pending[..|pending| - 1];
      if path in entries then Overrun(tree, limits, entries, total, rest)
      else if tree(path).Broken? then None
      else
        var more, sum := entries[path := Entry(path, tree(path))], total + Entry(path, tree(path)).Size();
        if |more| > limits.entries || sum > limits.bytes then None
        else if !tree(path).Directory? then Overrun(tree, limits, more, sum, rest)
        else
          var children := tree(path).children;
          if RunsOver(limits, |more|, |rest|, |children|)
          then Some(Moment(more, rest + children[..Pushed(limits, |more|, |rest|, |children|)]))
          else Overrun(tree, limits, more, sum, rest + children)
  }

  /** One pass of the loop for a path that was not recorded before. */
  predicate OnePass(tree: Tree, limits: Limits, entries: map<Path, Entry>, total: nat, pending: seq<Path>,
                    more: map<Path, Entry>, sum: nat, next: seq<Path>, error: Option<Error>)
    requires pending != []
  {
    var path, rest := pending[|pending| - 1], pending[..|pending| - 1];
    if tree(path).Broken? then error == Some(Unreadable(path))
    else
      && more == entries[path := Entry(path, tree(path))] && sum == total + Entry(path, tree(path)).Size()
      && if |more| > limits.entries || sum > limits.bytes then error == Some(TooLarge)
         else if tree(path).Directory? && RunsOver(limits, |more|, |rest|, |tree(path).children|) then
           && error == Some(TooMany)
           && next == rest + tree(path).children[..Pushed(limits, |more|, |rest|, |tree(path).children|)]
         else error == None && next == if tree(path).Directory? then rest + tree(path).children else rest
  }

  lemma OnePassWalks(tree: Tree, limits: Limits, entries: map<Path, Entry>, total: nat, pending: seq<Path>,
                     more: map<Path, Entry>, sum: nat, next: seq<Path>, error: Option<Error>)
    requires |entries| <= limits.entries && pending != [] && pending[|pending| - 1] !in entries
    requires OnePass(tree, limits, entries, total, pending, more, sum, next, error)
    requires error.None? ==> |more| <= limits.entries
    ensures Walked(tree, limits, entries, total, pending)
            == if error.Some? then Err(error.value) else Walked(tree, limits, more, sum, next)
    ensures Overrun(tree, limits, entries, total, pending)
            == if error == Some(TooMany) then Some(Moment(more, next))
               else if error.Some? then None else Overrun(tree, limits, more, sum, next)
  {
  }

  // ---- the walk ----

  /** Entries are true and reachable, and the counters are right and within limits. */
  ghost predicate Sound(tree: Tree, sources: seq<Path>, limits: Limits, entries: map<Path, Entry>, total: nat) {
    && (forall p :: p in entries ==> entries[p] == Entry(p, tree(p)) && !tree(p).Broken? && Reachable(tree, sources, p))
    && total == Total(tree, entries.Keys) && |entries| <= limits.entries && total <= limits.bytes
  }

  /** The sources and the children of the recorded directories are recorded or waiting. */
  ghost predicate Covering(tree: Tree, sources: seq<Path>, recorded: set<Path>, pending: seq<Path>) {
    && (forall p :: p in sources ==> p in recorded || p in pending)
    && (forall p, c :: p in recorded && tree(p).Directory? && c in tree(p).children ==> c in recorded || c in pending)
  }

  /** Where a known path came from. */
  predicate FromExpanded(tree: Tree, sources: seq<Path>, p: Path, expanded: set<Path>) {
    p in sources || exists q :: q in expanded && tree(q).Directory? && p in tree(q).children
  }

  ghost predicate AllReachable(tree: Tree, sources: seq<Path>, paths: set<Path>) {
    forall p :: p in paths ==> Reachable(tree, sources, p)
  }

  /** Nothing waits twice or is already recorded; `pushed` are the first children of one more directory. */
  ghost predicate Unshared(tree: Tree, sources: seq<Path>, recorded: set<Path>, pending: seq<Path>, expanded: set<Path>,
                           pushed: seq<Path>) {
    && Distinct(pending) && (forall p :: p in pending ==> p !in recorded)
    && (forall p :: p in recorded || p in pending ==> FromExpanded(tree, sources, p, expanded) || p in pushed)
  }

  /** On separate stores an overrun of the combined counters is an overrun of what is reachable. */
  lemma OverrunIsReal(tree: Tree, sources: seq<Path>, limits: Limits, recorded: set<Path>, pending: seq<Path>)
    requires AllReachable(tree, sources, recorded) && AllReachable(tree, sources, Items(pending))
    requires Distinct(pending) && (forall p :: p in pending ==> p !in recorded)
    requires |pending| + |recorded| > limits.entries
    ensures !Fits(tree, sources, limits)
  {
    DistinctCounts(pending);
    assert recorded * Items(pending) == {};
    assert |recorded + Items(pending)| == |recorded| + |Items(pending)|;
  }

  /** A child of a directory that is only now expanded was not known before. */
  lemma ChildIsNew(tree: Tree, sources: seq<Path>, recorded: set<Path>, pending: seq<Path>, expanded: set<Path>, d: Path, j: nat)
    requires Separate(tree, sources) && Reachable(tree, sources, d) && tree(d).Directory? && d !in expanded
    requires j < |tree(d).children|
    requires Unshared(tree, sources, recorded, pending, expanded, tree(d).children[..j])
    ensures tree(d).children[j] !in recorded && tree(d).children[j] !in pending
  {
    var c := tree(d).children[j];
    assert c in tree(d).children && Distinct(tree(d).children);
    assert c !in tree(d).children[..j];
    assert !FromExpanded(tree, sources, c, expanded);
  }

  lemma PushKeepsUnshared(tree: Tree, sources: seq<Path>, recorded: set<Path>, pending: seq<Path>, expanded: set<Path>,
                          children: seq<Path>, j: nat)
    requires j < |children| && children[j] !in recorded && children[j] !in pending
    requires Unshared(tree, sources, recorded, pending, expanded, children[..j])
    ensures Unshared(tree, sources, recorded, pending + [children[j]], expanded, children[..j + 1])
  {
    assert children[..j + 1] == children[..j] + [children[j]];
  }

  lemma ExpansionKeepsUnshared(tree: Tree, sources: seq<Path>, recorded: set<Path>, pending: seq<Path>, expanded: set<Path>, d: Path)
    requires tree(d).Directory?
    requires Unshared(tree, sources, recorded, pending, expanded, tree(d).children)
    ensures Unshared(tree, sources, recorded, pending, expanded + {d}, [])
  {
    forall p | p in recorded || p in pending ensures FromExpanded(tree, sources, p, expanded + {d}) {
      if p in tree(d).children { assert d in expanded + {d}; }
    }
  }

  /** The scandir loop: every child is pushed, unless the counters run over. */
  method Expand(tree: Tree, ghost sources: seq<Path>, limits: Limits, recorded: set<Path>, waiting: seq<Path>, d: Path)
    returns (pending: seq<Path>, ok: bool)
    requires d in recorded && tree(d).Directory?
    requires AllReachable(tree, sources, recorded) && AllReachable(tree, sources, Items(waiting))
    requires Separate(tree, sources) ==> Unshared(tree, sources, recorded, waiting, recorded - {d}, [])
    ensures AllReachable(tree, sources, Items(pending))
    ensures ok <==> !RunsOver(limits, |recorded|, |waiting|, |tree(d).children|)
    ensures pending == waiting + if ok then tree(d).children
                                 else tree(d).children[..Pushed(limits, |recorded|, |waiting|, |tree(d).children|)]
    ensures ok && Separate(tree, sources) ==> Unshared(tree, sources, recorded, pending, recorded, [])
    ensures !ok && Separate(tree, sources) ==> !Fits(tree, sources, limits)
  {
    pending := waiting;
    var children := tree(d).children;
    ghost var expanded := recorded - {d};
    var j := 0;
    while j < |children|
      invariant 0 <= j <= |children|
      invariant pending == waiting + children[..j] && !RunsOver(limits, |recorded|, |waiting|, j)
      invariant AllReachable(tree, sources, Items(pending))
      invariant Separate(tree, sources) ==> Unshared(tree, sources, recorded, pending, expanded, children[..j])
    {
      ChildrenAreReachable(tree, sources, d, children[j]);
      if Separate(tree, sources) {
        ChildIsNew(tree, sources, recorded, pending, expanded, d, j);
        PushKeepsUnshared(tree, sources, recorded, pending, expanded, children, j);
      }
      pending := pending + [children[j]];
      if |pending| + |recorded| > limits.entries {
        assert pending == waiting + children[..j + 1] && Pushed(limits, |recorded|, |waiting|, |children|) == j + 1;
        if Separate(tree, sources) { OverrunIsReal(tree, sources, limits, recorded, pending); }
        return pending, false;
      }
      j := j + 1;
    }
    assert children[..j] == children;
    if Separate(tree, sources) {
      ExpansionKeepsUnshared(tree, sources, recorded, pending, expanded, d);
      assert expanded + {d} == recorded;
    }
    return pending, true;
  }

  /** unique_sources: what comes out depends only on which paths go in, and is in order. */
  method UniqueSources(sources: seq<Path>) returns (r: seq<Path>)
    ensures Items(r) == Items(sources) && Sorted(r)
    ensures Sorted(sources) ==> r == sources
  {
    r := SortTexts(set p | p in sources);
    if Sorted(sources) { SortedIsUnique(r, sources); }
  }

  // ---- the inventory ----

  /** Exactly what is reachable, as it is, each path once and in order. */
  ghost predicate IsInventory(tree: Tree, sources: seq<Path>, inventory: seq<Entry>) {
    && Sorted(seq(|inventory|, i requires 0 <= i < |inventory| => inventory[i].path))
    && (forall e :: e in inventory ==> e.node == tree(e.path) && Reachable(tree, sources, e.path))
    && (forall p :: Reachable(tree, sources, p) ==> Entry(p, tree(p)) in inventory)
  }

  lemma PopKeepsUnshared(tree: Tree, sources: seq<Path>, recorded: set<Path>, pending: seq<Path>)
    requires pending != [] && Unshared(tree, sources, recorded, pending, recorded, [])
    ensures var p := pending[|pending| - 1];
            var rest := pending[..|pending| - 1];
            && Unshared(tree, sources, recorded, rest, recorded, [])
            && Unshared(tree, sources, recorded + {p}, rest, recorded, [])
            && Unshared(tree, sources, recorded + {p}, rest, recorded + {p}, [])
  {
    var p := pending[|pending| - 1];
    var rest := pending[..|pending| - 1];
    forall q | q in recorded + {p} || q in rest
      ensures FromExpanded(tree, sources, q, recorded) && FromExpanded(tree, sources, q, recorded + {p})
    {
      assert q in recorded || q in pending;
    }
  }

  lemma CoveredIsEverything(tree: Tree, sources: seq<Path>, recorded: set<Path>)
    requires forall p :: p in sources ==> p in recorded
    requires forall p, c :: p in recorded && tree(p).Directory? && c in tree(p).children ==> c in recorded
    ensures forall p :: Reachable(tree, sources, p) ==> p in recorded
  {
    forall p | Reachable(tree, sources, p) ensures p in recorded {
      var chain :| Chain(tree, sources, chain) && chain[|chain| - 1] == p;
      ClosedHoldsChains(tree, sources, recorded, chain);
    }
  }

  lemma EverythingFits(tree: Tree, sources: seq<Path>, limits: Limits, recorded: set<Path>)
    requires forall p :: Reachable(tree, sources, p) ==> p in recorded
    requires |recorded| <= limits.entries && Total(tree, recorded) <= limits.bytes
    ensures Fits(tree, sources, limits)
  {
    forall paths: set<Path> | forall p :: p in paths ==> Reachable(tree, sources, p)
      ensures |paths| <= limits.entries && Total(tree, paths) <= limits.bytes
    {
      TotalGrows(tree, paths, recorded);
    }
  }

  /** Known paths stay known when the last waiting one is recorded and its children are pushed. */
  lemma RecordKeepsCovering(tree: Tree, sources: seq<Path>, recorded: set<Path>, pending: seq<Path>, next: seq<Path>)
    requires pending != [] && Covering(tree, sources, recorded, pending)
    requires var p := pending[|pending| - 1];
             next == pending[..|pending| - 1] + if tree(p).Directory? then tree(p).children else []
    ensures Covering(tree, sources, recorded + {pending[|pending| - 1]}, next)
  {
    var p := pending[|pending| - 1];
    forall q | q in recorded || q in pending ensures q in recorded + {p} || q in next {
      if q in pending && q != p { assert q in pending[..|pending| - 1]; }
    }
  }

  lemma PopKeepsCovering(tree: Tree, sources: seq<Path>, recorded: set<Path>, pending: seq<Path>)
    requires pending != [] && Covering(tree, sources, recorded, pending) && pending[|pending| - 1] in recorded
    ensures Covering(tree, sources, recorded, pending[..|pending| - 1])
  {
    var rest := pending[..|pending| - 1];
    forall q | q in recorded || q in pending ensures q in recorded || q in rest {
      if q in pending && q != pending[|pending| - 1] { assert q in rest; }
    }
  }

  ghost predicate Walking(tree: Tree, sources: seq<Path>, limits: Limits, entries: map<Path, Entry>, total: nat, pending: seq<Path>) {
    && Sound(tree, sources, limits, entries, total)
    && AllReachable(tree, sources, Items(pending))
    && Covering(tree, sources, entries.Keys, pending)
    && (Separate(tree, sources) ==> Unshared(tree, sources, entries.Keys, pending, entries.Keys, []))
  }

  lemma StartsWalking(tree: Tree, sources: seq<Path>, limits: Limits)
    ensures Walking(tree, sources, limits, map[], 0, sources)
  {
    forall p | p in sources ensures Reachable(tree, sources, p) { SourcesAreReachable(tree, sources, p); }
  }

  lemma SkipKeepsWalking(tree: Tree, sources: seq<Path>, limits: Limits, entries: map<Path, Entry>, total: nat, pending: seq<Path>)
    requires Walking(tree, sources, limits, entries, total, pending) && pending != [] && pending[|pending| - 1] in entries
    ensures Walking(tree, sources, limits, entries, total, pending[..|pending| - 1])
  {
    PopKeepsCovering(tree, sources, entries.Keys, pending);
    if Separate(tree, sources) { PopKeepsUnshared(tree, sources, entries.Keys, pending); }
  }

  /** Running over a limit with one more reachable path is an overrun of what is reachable. */
  lemma OverLimitIsReal(tree: Tree, sources: seq<Path>, limits: Limits, recorded: set<Path>)
    requires AllReachable(tree, sources, recorded) && (|recorded| > limits.entries || Total(tree, recorded) > limits.bytes)
    ensures !Fits(tree, sources, limits)
  {
  }

  /** The counters after one more entry, and what it means for them to run over. */
  lemma RecordKeepsSound(tree: Tree, sources: seq<Path>, limits: Limits, entries: map<Path, Entry>, total: nat, path: Path)
    requires Sound(tree, sources, limits, entries, total) && path !in entries
    requires Reachable(tree, sources, path) && !tree(path).Broken?
    ensures var more := entries[path := Entry(path, tree(path))];
            var sum := total + Entry(path, tree(path)).Size();
            && more.Keys == entries.Keys + {path} && AllReachable(tree, sources, more.Keys) && sum == Total(tree, more.Keys)
            && (|more| <= limits.entries && sum <= limits.bytes ==> Sound(tree, sources, limits, more, sum))
  {
    var more := entries[path := Entry(path, tree(path))];
    TotalAdds(tree, entries.Keys, path);
    assert more.Keys == entries.Keys + {path};
  }

  /** What an error of the walk says. */
  ghost predicate Explained(tree: Tree, sources: seq<Path>, limits: Limits, error: Error) {
    match error
    case Unreadable(path) => Reachable(tree, sources, path) && tree(path).Broken?
    case TooLarge => !Fits(tree, sources, limits)
    case TooMany => Separate(tree, sources) ==> !Fits(tree, sources, limits)
  }

  /** One pass of the loop for a path that was not recorded before. */
  method Record(tree: Tree, ghost sources: seq<Path>, limits: Limits, entries: map<Path, Entry>, total: nat, pending: seq<Path>)
    returns (more: map<Path, Entry>, sum: nat, next: seq<Path>, error: Option<Error>)
    requires Walking(tree, sources, limits, entries, total, pending) && pending != [] && pending[|pending| - 1] !in entries
    ensures error.None? ==> Walking(tree, sources, limits, more, sum, next) && |more| == |entries| + 1
    ensures error.Some? ==> Explained(tree, sources, limits, error.value)
    ensures OnePass(tree, limits, entries, total, pending, more, sum, next, error)
  {
    more, sum, next := entries, total, pending[..|pending| - 1];
    var path := pending[|pending| - 1];
    assert path in Items(pending) && Items(next) <= Items(pending);
    if tree(path).Broken? { error := Some(Unreadable(path)); return; }
    RecordKeepsSound(tree, sources, limits, entries, total, path);
    more := entries[path := Entry(path, tree(path))];
    sum := total + Entry(path, tree(path)).Size();
    assert |more.Keys| == |more|;
    if |more| > limits.entries || sum > limits.bytes {
      OverLimitIsReal(tree, sources, limits, more.Keys);
      error := Some(TooLarge);
      return;
    }
    if Separate(tree, sources) { PopKeepsUnshared(tree, sources, entries.Keys, pending); }
    assert more.Keys - {path} == entries.Keys;
    error := None;
    if tree(path).Directory? {
      var ok;
      next, ok := Expand(tree, sources, limits, more.Keys, next, path);
      if !ok { error := Some(TooMany); return; }
    }
    RecordKeepsCovering(tree, sources, entries.Keys, pending, next);
  }

  method Walk(tree: Tree, ghost sources: seq<Path>, limits: Limits, start: seq<Path>)
    returns (entries: map<Path, Entry>, pending: seq<Path>, error: Option<Error>)
    requires start == sources
    ensures error.None? ==> exists total: nat :: Walking(tree, sources, limits, entries, total, [])
    ensures error.Some? ==> Explained(tree, sources, limits, error.value)
    ensures Walked(tree, limits, map[], 0, start) == if error.Some? then Err(error.value) else Ok(entries)
    ensures Overrun(tree, limits, map[], 0, start) == if error == Some(TooMany) then Some(Moment(entries, pending)) else None
  {
    entries, pending, error := map[], start, None;
    var total: nat := 0;
    StartsWalking(tree, sources, limits);
    while pending != []
      invariant Walking(tree, sources, limits, entries, total, pending)
      invariant Walked(tree, limits, map[], 0, start) == Walked(tree, limits, entries, total, pending)
      invariant Overrun(tree, limits, map[], 0, start) == Overrun(tree, limits, entries, total, pending)
      decreases limits.entries - |entries|, |pending|
    {
      if pending[|pending| - 1] in entries {
        SkipKeepsWalking(tree, sources, limits, entries, total, pending);
        pending := pending[..|pending| - 1];
      } else {
        var more, sum, next;
        more, sum, next, error := Record(tree, sources, limits, entries, total, pending);
        OnePassWalks(tree, limits, entries, total, pending, more, sum, next, error);
        entries, total, pending := more, sum, next;
        if error.Some? { return; }
      }
    }
    error := None;
  }

  lemma WalkedReaches(tree: Tree, sources: seq<Path>, recorded: set<Path>)
    requires Covering(tree, sources, recorded, [])
    ensures forall p :: Reachable(tree, sources, p) ==> p in recorded
  {
    CoveredIsEverything(tree, sources, recorded);
  }

  lemma WalkedEverything(tree: Tree, sources: seq<Path>, limits: Limits, entries: map<Path, Entry>, total: nat)
    requires Walking(tree, sources, limits, entries, total, [])
    ensures forall p :: Reachable(tree, sources, p) ==> p in entries.Keys
    ensures AllReachable(tree, sources, entries.Keys) && AllReadable(tree, sources)
    ensures |entries| <= limits.entries && Total(tree, entries.Keys) <= limits.bytes
  {
    WalkedReaches(tree, sources, entries.Keys);
  }

  lemma WalkedFits(tree: Tree, sources: seq<Path>, limits: Limits, entries: map<Path, Entry>, total: nat)
    requires Walking(tree, sources, limits, entries, total, [])
    ensures Holds(tree, sources, entries.Keys)
    ensures AllReadable(tree, sources) && Fits(tree, sources, limits) && |entries.Keys| <= limits.entries
  {
    WalkedEverything(tree, sources, limits, entries, total);
    assert |entries.Keys| == |entries|;
    EverythingFits(tree, sources, limits, entries.Keys);
  }

  /** Exactly the reachable paths. */
  ghost predicate Holds(tree: Tree, sources: seq<Path>, recorded: set<Path>) {
    AllReachable(tree, sources, recorded) && forall p :: Reachable(tree, sources, p) ==> p in recorded
  }

  method List(tree: Tree, ghost sources: seq<Path>, recorded: set<Path>) returns (inventory: seq<Entry>)
    requires Holds(tree, sources, recorded)
    ensures IsInventory(tree, sources, inventory) && |inventory| == |recorded|
  {
    var paths := SortTexts(recorded);
    SortedCounts(paths);
    inventory := seq(|paths|, i requires 0 <= i < |paths| => Entry(paths[i], tree(paths[i])));
    ListsInventory(tree, sources, recorded, paths, inventory);
  }

  /**
   Terminates on every tree, finite or not; returns exactly the reachable entries or an error with a
   reason. On separate stores it succeeds exactly when everything reachable is readable and fits.
   */
  method Inventory(tree: Tree, sources: seq<Path>, limits: Limits) returns (r: Result<seq<Entry>, Error>)
    ensures r.Ok? ==> IsInventory(tree, sources, r.value) && |r.value| <= limits.entries
    ensures r.Ok? ==> AllReadable(tree, sources) && Fits(tree, sources, limits)
    ensures r.Err? ==> Explained(tree, sources, limits, r.error) && Walked(tree, limits, map[], 0, sources) == Err(r.error)
    ensures r.Ok? <==> Walked(tree, limits, map[], 0, sources).Ok?
    ensures Separate(tree, sources) ==> (r.Ok? <==> AllReadable(tree, sources) && Fits(tree, sources, limits))
    ensures r == Err(TooMany) <==> Overrun(tree, limits, map[], 0, sources).Some?
  {
    var entries, pending, error := Walk(tree, sources, limits, sources);
    if error.Some? { return Err(error.value); }
    ghost var total: nat :| Walking(tree, sources, limits, entries, total, []);
    WalkedFits(tree, sources, limits, entries, total);
    var inventory := List(tree, sources, entries.Keys);
    return Ok(inventory);
  }

  lemma ListsInventory(tree: Tree, sources: seq<Path>, recorded: set<Path>, paths: seq<Path>, inventory: seq<Entry>)
    requires Sorted(paths) && Items(paths) == recorded && AllReachable(tree, sources, recorded)
    requires forall p :: Reachable(tree, sources, p) ==> p in recorded
    requires |inventory| == |paths| && forall i :: 0 <= i < |paths| ==> inventory[i] == Entry(paths[i], tree(paths[i]))
    ensures IsInventory(tree, sources, inventory)
  {
    assert seq(|inventory|, i requires 0 <= i < |inventory| => inventory[i].path) == paths;
    forall e | e in inventory ensures e.node == tree(e.path) && Reachable(tree, sources, e.path) {
      var i :| 0 <= i < |inventory| && inventory[i] == e;
      assert paths[i] in Items(paths);
    }
    forall p | Reachable(tree, sources, p) ensures Entry(p, tree(p)) in inventory {
      assert p in paths;
      var i :| 0 <= i < |paths| && paths[i] == p;
      assert inventory[i] == Entry(p, tree(p));
    }
  }

  // ---- one path counted twice ----

  function Below(tree: Tree, path: Path): seq<Path> {
    if tree(path).Directory? then tree(path).children else []
  }

  ghost predicate Alike(tree: Tree, limits: Limits, entries: map<Path, Entry>, total: nat, pending: seq<Path>)
    requires |entries| <= limits.entries
  {
    Walked(tree, limits, entries, total, pending) == Err(TooMany) <==> Overrun(tree, limits, entries, total, pending).Some?
  }

  lemma AlikeAtNewPath(tree: Tree, limits: Limits, entries: map<Path, Entry>, total: nat, rest: seq<Path>, path: Path)
    requires |entries| <= limits.entries && path !in entries
    requires var more, sum := entries[path := Entry(path, tree(path))], total + Entry(path, tree(path)).Size();
             |more| <= limits.entries ==> Alike(tree, limits, more, sum, rest + Below(tree, path))
    ensures Alike(tree, limits, entries, total, rest + [path])
  {
    var pending := rest + [path];
    assert pending[|pending| - 1] == path && pending[..|pending| - 1] == rest && rest + [] == rest;
  }

  lemma {:induction false} TooManyIsAnOverrun(tree: Tree, limits: Limits, entries: map<Path, Entry>, total: nat, pending: seq<Path>)
    requires |entries| <= limits.entries
    ensures Alike(tree, limits, entries, total, pending)
    decreases limits.entries - |entries|, |pending|
  {
    if pending != [] {
      var path, rest := pending[|pending| - 1], pending[..|pending| - 1];
      assert pending == rest + [path];
      if path in entries {
        TooManyIsAnOverrun(tree, limits, entries, total, rest);
      } else {
        var more, sum := entries[path := Entry(path, tree(path))], total + Entry(path, tree(path)).Size();
        if |more| <= limits.entries { TooManyIsAnOverrun(tree, limits, more, sum, rest + Below(tree, path)); }
        AlikeAtNewPath(tree, limits, entries, total, rest, path);
      }
    }
  }

  /** How the walk goes on at a path that was not recorded before. */
  lemma OverrunNowOrLater(tree: Tree, limits: Limits, entries: map<Path, Entry>, total: nat, rest: seq<Path>, path: Path)
    requires |entries| <= limits.entries && path !in entries
    requires Overrun(tree, limits, entries, total, rest + [path]).Some?
    ensures var more, sum := entries[path := Entry(path, tree(path))], total + Entry(path, tree(path)).Size();
            var below := Below(tree, path);
            && |more| == |entries| + 1 <= limits.entries
            && Overrun(tree, limits, entries, total, rest + [path])
               == if RunsOver(limits, |more|, |rest|, |below|)
                  then Some(Moment(more, rest + below[..Pushed(limits, |more|, |rest|, |below|)]))
                  else Overrun(tree, limits, more, sum, rest + below)
  {
    var pending := rest + [path];
    assert pending[|pending| - 1] == path && pending[..|pending| - 1] == rest && rest + [] == rest;
  }

  lemma NextAreReachable(tree: Tree, sources: seq<Path>, recorded: set<Path>, rest: seq<Path>, path: Path)
    requires AllReachable(tree, sources, recorded) && AllReachable(tree, sources, Items(rest)) && Reachable(tree, sources, path)
    ensures AllReachable(tree, sources, recorded + {path}) && AllReachable(tree, sources, Items(rest + Below(tree, path)))
  {
    forall p | p in Items(rest + Below(tree, path)) ensures Reachable(tree, sources, p) {
      if p in Below(tree, path) { ChildrenAreReachable(tree, sources, path, p); } else { assert p in Items(rest); }
    }
  }

  /** All that the moment counts is reachable, and the counters have just passed the limit. */
  ghost predicate JustOver(tree: Tree, sources: seq<Path>, limits: Limits, start: nat, m: Moment) {
    && AllReachable(tree, sources, m.entries.Keys) && AllReachable(tree, sources, Items(m.pending))
    && |m.entries| + |m.pending| > limits.entries
    && (start <= limits.entries ==> |m.entries| + |m.pending| == limits.entries + 1)
  }

  lemma StopsJustOver(tree: Tree, sources: seq<Path>, limits: Limits, more: map<Path, Entry>, rest: seq<Path>, below: seq<Path>)
    requires AllReachable(tree, sources, more.Keys) && AllReachable(tree, sources, Items(rest + below))
    requires RunsOver(limits, |more|, |rest|, |below|)
    ensures var m := Moment(more, rest + below[..Pushed(limits, |more|, |rest|, |below|)]);
            JustOver(tree, sources, limits, |more| + |rest|, m)
  {
    var k := Pushed(limits, |more|, |rest|, |below|);
    assert Items(rest + below[..k]) <= Items(rest + below);
  }

  /** One pass at a new path, or the moment it stops at. */
  lemma PassIsJustOver(tree: Tree, sources: seq<Path>, limits: Limits, entries: map<Path, Entry>, total: nat, rest: seq<Path>,
                       path: Path)
    returns (more: map<Path, Entry>, sum: nat, next: seq<Path>)
    requires |entries| <= limits.entries && path !in entries && Overrun(tree, limits, entries, total, rest + [path]).Some?
    requires AllReachable(tree, sources, entries.Keys) && AllReachable(tree, sources, Items(rest))
    requires Reachable(tree, sources, path)
    ensures |more| == |entries| + 1 <= limits.entries
    ensures AllReachable(tree, sources, more.Keys) && AllReachable(tree, sources, Items(next))
    ensures next == rest + Below(tree, path)
    ensures if RunsOver(limits, |more|, |rest|, |Below(tree, path)|)
            then JustOver(tree, sources, limits, |more| + |rest|, Overrun(tree, limits, entries, total, rest + [path]).value)
            else Overrun(tree, limits, entries, total, rest + [path]) == Overrun(tree, limits, more, sum, next)
  {
    var below := Below(tree, path);
    more, sum, next := entries[path := Entry(path, tree(path))], total + Entry(path, tree(path)).Size(), rest + below;
    assert more.Keys == entries.Keys + {path};
    NextAreReachable(tree, sources, entries.Keys, rest, path);
    OverrunNowOrLater(tree, limits, entries, total, rest, path);
    if RunsOver(limits, |more|, |rest|, |below|) { StopsJustOver(tree, sources, limits, more, rest, below); }
  }

  lemma {:induction false} OverrunIsJustOver(tree: Tree, sources: seq<Path>, limits: Limits, entries: map<Path, Entry>, total: nat,
                                             pending: seq<Path>)
    requires |entries| <= limits.entries && AllReachable(tree, sources, entries.Keys) && AllReachable(tree, sources, Items(pending))
    requires Overrun(tree, limits, entries, total, pending).Some?
    ensures JustOver(tree, sources, limits, |entries| + |pending|, Overrun(tree, limits, entries, total, pending).value)
    decreases limits.entries - |entries|, |pending|
  {
    var path, rest := pending[|pending| - 1], pending[..|pending| - 1];
    assert pending == rest + [path] && Items(rest) <= Items(pending) && path in Items(pending);
    if path in entries {
      OverrunIsJustOver(tree, sources, limits, entries, total, rest);
    } else {
      var more, sum, next := PassIsJustOver(tree, sources, limits, entries, total, rest, path);
      if !RunsOver(limits, |more|, |rest|, |Below(tree, path)|) {
        OverrunIsJustOver(tree, sources, limits, more, sum, next);
      }
    }
  }

  /** Some path waits twice, or waits although it is recorded. */
  predicate CountsTwice(m: Moment) {
    !Distinct(m.pending) || exists p :: p in m.pending && p in m.entries
  }

  lemma {:induction false} RepeatsCountLess(paths: seq<Path>)
    ensures |Items(paths)| <= |paths| && (|Items(paths)| == |paths| <==> Distinct(paths))
  {
    if paths != [] {
      var most, last := paths[..|paths| - 1], paths[|paths| - 1];
      RepeatsCountLess(most);
      assert paths == most + [last];
      assert Items(paths) == Items(most) + {last};
      if last in most {
        assert Items(paths) == Items(most);
        var i :| 0 <= i < |most| && most[i] == last;
        assert paths[i] == paths[|most|];
      } else if Distinct(most) {
        assert Distinct(paths);
      }
    }
  }

  /** Each path counted once would make as many paths as were counted, exactly when none counts twice. */
  lemma CountingTwice(m: Moment)
    ensures |m.entries.Keys + Items(m.pending)| <= |m.entries| + |m.pending|
    ensures |m.entries.Keys + Items(m.pending)| < |m.entries| + |m.pending| <==> CountsTwice(m)
  {
    var recorded, waiting := m.entries.Keys, Items(m.pending);
    RepeatsCountLess(m.pending);
    assert |recorded| == |m.entries|;
    assert |recorded + waiting| == |recorded| + |waiting| - |recorded * waiting|;
    if p :| p in m.pending && p in m.entries { assert p in recorded * waiting; }
    else { assert recorded * waiting == {}; }
  }

  /** That many different entries there are, unless the moment counts some path twice. */
  ghost predicate OnlyRepeats(tree: Tree, sources: seq<Path>, limits: Limits, m: Moment) {
    var counted := |m.entries.Keys + Items(m.pending)|;
    && (!CountsTwice(m) ==> counted > limits.entries)
    && (|sources| <= limits.entries && CountsTwice(m) ==> counted <= limits.entries)
    && (Fits(tree, sources, limits) ==> CountsTwice(m))
  }

  lemma FittingCounts(tree: Tree, sources: seq<Path>, limits: Limits, some: set<Path>, others: set<Path>)
    requires Fits(tree, sources, limits) && AllReachable(tree, sources, some) && AllReachable(tree, sources, others)
    ensures |some + others| <= limits.entries
  {
    assert AllReachable(tree, sources, some + others);
  }

  lemma JustOverOnlyRepeats(tree: Tree, sources: seq<Path>, limits: Limits, m: Moment)
    requires JustOver(tree, sources, limits, |sources|, m)
    ensures OnlyRepeats(tree, sources, limits, m)
  {
    CountingTwice(m);
    if Fits(tree, sources, limits) { FittingCounts(tree, sources, limits, m.entries.Keys, Items(m.pending)); }
  }

  /**
   The walk says "too many" exactly when it comes to a moment at which what it has recorded and what
   waits have together just passed the limit. That many different entries there are exactly when no
   path was counted twice by then; about stores that fit, one always was.
   */
  lemma TooManyCountsRepeats(tree: Tree, sources: seq<Path>, limits: Limits)
    ensures Walked(tree, limits, map[], 0, sources) == Err(TooMany) <==> Overrun(tree, limits, map[], 0, sources).Some?
    ensures Overrun(tree, limits, map[], 0, sources).Some? ==>
              var m := Overrun(tree, limits, map[], 0, sources).value;
              JustOver(tree, sources, limits, |sources|, m) && OnlyRepeats(tree, sources, limits, m)
  {
    TooManyIsAnOverrun(tree, limits, map[], 0, sources);
    if Overrun(tree, limits, map[], 0, sources).Some? {
      forall p | p in sources ensures Reachable(tree, sources, p) { SourcesAreReachable(tree, sources, p); }
      OverrunIsJustOver(tree, sources, limits, map[], 0, sources);
      JustOverOnlyRepeats(tree, sources, limits, Overrun(tree, limits, map[], 0, sources).value);
    }
  }

  /** A store "d" holding the one file "f" that is also named as a store of its own. */
  function TwiceNamed(): Tree {
    p => if p == "d" then Directory(["f"], 0) else if p == "f" then File(0, 0) else Missing
  }

  lemma TwiceNamedRunsOver()
    ensures Walked(TwiceNamed(), Limits(2, 0), map[], 0, ["d", "f"]) == Err(TooMany)
  {
    var one := map["f" := Entry("f", File(0, 0))];
    var two := one["d" := Entry("d", Directory(["f"], 0))];
    assert ["d", "f"][..1] == ["d"] && ["d"][..0] == [];
    OnePassWalks(TwiceNamed(), Limits(2, 0), map[], 0, ["d", "f"], one, 0, ["d"], None);
    OnePassWalks(TwiceNamed(), Limits(2, 0), one, 0, ["d"], two, 0, ["f"], Some(TooMany));
  }

  lemma TwiceNamedFits()
    ensures Fits(TwiceNamed(), ["d", "f"], Limits(2, 0))
  {
    var tree, sources := TwiceNamed(), ["d", "f"];
    CoveredIsEverything(tree, sources, {"d", "f"});
    TotalAdds(tree, {}, "d");
    TotalAdds(tree, {"d"}, "f");
    assert {} + {"d"} == {"d"} && {"d"} + {"f"} == {"d", "f"};
    EverythingFits(tree, sources, Limits(2, 0), {"d", "f"});
  }

  lemma TwiceNamedIsReadable()
    ensures AllReadable(TwiceNamed(), ["d", "f"])
  {
  }

  /** Two entries do not pass a limit of two: the walk has recorded both when "f" is pushed once more. */
  lemma OverlappingStoresOverrun()
    ensures var tree, limits, sources := TwiceNamed(), Limits(2, 0), ["d", "f"];
            && Walked(tree, limits, map[], 0, sources) == Err(TooMany)
            && AllReadable(tree, sources) && Fits(tree, sources, limits)
  {
    TwiceNamedRunsOver();
    TwiceNamedIsReadable();
    TwiceNamedFits();
  }
}
