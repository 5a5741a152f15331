/**
 Whether an optional feature's requirement is installed: a depth-first search over the installed
 distributions' requirements, cut short by a set of keys it shares across the whole search.
 */
module OptionalFeatures {
  import opened Wrappers

  /** Canonical distribution and extra names. */
  type Name = string
  type Marker = nat
  type Specifier = nat
  type Version = nat

  datatype Requirement = Requirement(name: Name, extras: seq<Name>, specifier: Option<Specifier>, marker: Option<Marker>)

  datatype Distribution = Distribution(version: Version, provided: set<Name>, dependencies: seq<Requirement>)

  /** What the search remembers of a requirement; its specifier and marker are not part of it. */
  datatype Key = Key(name: Name, extras: set<Name>)

  /** The installed distributions, and how markers and specifiers evaluate. */
  datatype Environment = Environment(
    installed: map<Name, Distribution>, holds: (Marker, Name) -> bool, admits: (Specifier, Version) -> bool)
  {
    predicate Active(r: Requirement, extra: Name) {
      r.marker.Some? ==> holds(r.marker.value, extra)
    }

    predicate Passes(r: Requirement) {
      r.name in installed && (r.specifier.Some? ==> admits(r.specifier.value, installed[r.name].version))
    }

    function Requirements(): set<Requirement> {
      set n, r | n in installed && r in installed[n].dependencies :: r
    }

    function Keys(): set<Key> {
      set n, r | n in installed && r in installed[n].dependencies :: KeyOf(r)
    }
  }

  function KeyOf(r: Requirement): Key {
    Key(r.name, set x | x in r.extras)
  }

  // ---- the search; each part returns its verdict and the keys seen by then ----

  predicate Within(env: Environment, keys: set<Key>) {
    forall n, r :: n in env.installed && r in env.installed[n].dependencies ==> KeyOf(r) in keys
  }

  function Search(env: Environment, keys: set<Key>, r: Requirement, extra: Name, seen: set<Key>): (result: (bool, set<Key>))
    requires Within(env, keys) && KeyOf(r) in keys
    ensures seen <= result.1
    decreases keys - seen, 0, 0
  {
    if !env.Active(r, extra) || KeyOf(r) in seen then (true, seen)
    else
      var more := seen + {KeyOf(r)};
      if !env.Passes(r) then (false, more)
      else SearchExtras(env, keys, r.name, r.extras, more)
  }

  function SearchExtras(env: Environment, keys: set<Key>, name: Name, extras: seq<Name>, seen: set<Key>)
    : (result: (bool, set<Key>))
    requires Within(env, keys) && name in env.installed
    ensures seen <= result.1
    decreases keys - seen, 3, |extras|
  {
    if extras == [] then (true, seen)
    else
      var first := SearchExtra(env, keys, name, extras[0], seen);
      if !first.0 then first else SearchExtras(env, keys, name, extras[1..], first.1)
  }

  function SearchExtra(env: Environment, keys: set<Key>, name: Name, extra: Name, seen: set<Key>): (result: (bool, set<Key>))
    requires Within(env, keys) && name in env.installed
    ensures seen <= result.1
    decreases keys - seen, 2, 0
  {
    var d := env.installed[name];
    if d.provided != {} && extra !in d.provided then (false, seen)
    else
      var all := SearchEach(env, keys, d.dependencies, extra, seen);
      (all.0 && (all.2 || d.provided != {}), all.1)
  }

  /** Also tells whether any requirement was active for the extra. */
  function SearchEach(env: Environment, keys: set<Key>, rs: seq<Requirement>, extra: Name, seen: set<Key>)
    : (result: (bool, set<Key>, bool))
    requires Within(env, keys) && forall r :: r in rs ==> KeyOf(r) in keys
    ensures seen <= result.1
    decreases keys - seen, 1, |rs|
  {
    if rs == [] then (true, seen, false)
    else if !env.Active(rs[0], extra) then SearchEach(env, keys, rs[1..], extra, seen)
    else
      var first := Search(env, keys, rs[0], extra, seen);
      if !first.0 then (false, first.1, true)
      else
        var rest := SearchEach(env, keys, rs[1..], extra, first.1);
        (rest.0, rest.1, true)
  }

  /** requirement_installed: a fresh set of seen keys for each call. */
  predicate Installed(env: Environment, r: Requirement, extra: Name) {
    Search(env, env.Keys() + {KeyOf(r)}, r, extra, {}).0
  }

  // ---- the same search, with the shared set updated in place ----

  class Resolver {
    const env: Environment
    ghost const keys: set<Key>
    var seen: set<Key>

    constructor (env: Environment, root: Requirement)
      ensures this.env == env && keys == env.Keys() + {KeyOf(root)} && seen == {}
    {
      this.env, keys, seen := env, env.Keys() + {KeyOf(root)}, {};
    }

    method RequirementInstalled(r: Requirement, extra: Name) returns (ok: bool)
      requires Within(env, keys) && KeyOf(r) in keys
      modifies this
      ensures (ok, seen) == Search(env, keys, r, extra, old(seen))
      decreases keys - seen, 0
    {
      if !env.Active(r, extra) || KeyOf(r) in seen { return true; }
      seen := seen + {KeyOf(r)};
      if !env.Passes(r) { return false; }
      var i := 0;
      while i < |r.extras|
        invariant 0 <= i <= |r.extras|
        invariant old(seen) + {KeyOf(r)} <= seen
        invariant SearchExtras(env, keys, r.name, r.extras[i..], seen)
               == SearchExtras(env, keys, r.name, r.extras, old(seen) + {KeyOf(r)})
      {
        assert r.extras[i..][0] == r.extras[i] && r.extras[i..][1..] == r.extras[i + 1..];
        var installed := ExtraDependenciesInstalled(r.name, r.extras[i]);
        if !installed { return false; }
        i := i + 1;
      }
      return true;
    }

    method ExtraDependenciesInstalled(name: Name, extra: Name) returns (ok: bool)
      requires Within(env, keys) && name in env.installed
      modifies this
      ensures (ok, seen) == SearchExtra(env, keys, name, extra, old(seen))
      decreases keys - seen, 1
    {
      var d := env.installed[name];
      if d.provided != {} && extra !in d.provided { return false; }
      var matched := false;
      var i := 0;
      while i < |d.dependencies|
        invariant 0 <= i <= |d.dependencies|
        invariant old(seen) <= seen
        invariant var all := SearchEach(env, keys, d.dependencies, extra, old(seen));
                  var rest := SearchEach(env, keys, d.dependencies[i..], extra, seen);
                  all == (rest.0, rest.1, matched || rest.2)
      {
        var rs := d.dependencies[i..];
        assert rs[0] == d.dependencies[i] && rs[1..] == d.dependencies[i + 1..];
        if env.Active(d.dependencies[i], extra) {
          matched := true;
          var installed := RequirementInstalled(d.dependencies[i], extra);
          if !installed { return false; }
        }
        i := i + 1;
      }
      return matched || d.provided != {};
    }
  }

  // ---- what True leaves behind ----

  predicate Refuses(env: Environment, name: Name, extra: Name)
    requires name in env.installed
  {
    var d := env.installed[name];
    extra !in d.provided && (d.provided != {} || forall r :: r in d.dependencies ==> !env.Active(r, extra))
  }

  /** An installed distribution offers the extra, and everything active for it has been seen. */
  predicate Covered(env: Environment, name: Name, extra: Name, seen: set<Key>) {
    && name in env.installed && !Refuses(env, name, extra)
    && forall r :: r in env.installed[name].dependencies && env.Active(r, extra) ==> KeyOf(r) in seen
  }

  predicate Settled(env: Environment, k: Key, seen: set<Key>) {
    && k.name in env.installed
    && forall x :: x in k.extras ==> Covered(env, k.name, x, seen)
  }

  predicate Knows(env: Environment, known: set<Requirement>) {
    env.Requirements() <= known
  }

  predicate Passed(env: Environment, known: set<Requirement>, k: Key) {
    exists r :: r in known && KeyOf(r) == k && env.Passes(r)
  }

  /** Every key added since `before` is settled and had one passing requirement. */
  ghost predicate Closed(env: Environment, known: set<Requirement>, before: set<Key>, seen: set<Key>) {
    forall k :: k in seen && k !in before ==> Settled(env, k, seen) && Passed(env, known, k)
  }

  lemma ClosedJoins(env: Environment, known: set<Requirement>, a: set<Key>, b: set<Key>, c: set<Key>)
    requires a <= b <= c && Closed(env, known, a, b) && Closed(env, known, b, c)
    ensures Closed(env, known, a, c)
  {
    forall k | k in c && k !in a ensures Settled(env, k, c) && Passed(env, known, k) {
      if k in b { assert Settled(env, k, b); }
    }
  }

  lemma {:induction false} TrueCloses(env: Environment, known: set<Requirement>, keys: set<Key>, r: Requirement, extra: Name, seen: set<Key>)
    requires Knows(env, known) && Within(env, keys) && r in known && KeyOf(r) in keys && Search(env, keys, r, extra, seen).0
    ensures Closed(env, known, seen, Search(env, keys, r, extra, seen).1)
    ensures env.Active(r, extra) ==> KeyOf(r) in Search(env, keys, r, extra, seen).1
    decreases keys - seen, 0, 0
  {
    if env.Active(r, extra) && KeyOf(r) !in seen {
      var more := seen + {KeyOf(r)};
      var after := Search(env, keys, r, extra, seen).1;
      ExtrasClose(env, known, keys, r.name, r.extras, more);
      assert Settled(env, KeyOf(r), after);
      assert Passed(env, known, KeyOf(r));
      forall k | k in after && k !in seen ensures Settled(env, k, after) && Passed(env, known, k) {
        assert k !in more ==> Settled(env, k, after) && Passed(env, known, k);
      }
    }
  }

  lemma {:induction false} ExtrasClose(env: Environment, known: set<Requirement>, keys: set<Key>, name: Name, extras: seq<Name>, seen: set<Key>)
    requires Knows(env, known) && Within(env, keys) && name in env.installed && SearchExtras(env, keys, name, extras, seen).0
    ensures var after := SearchExtras(env, keys, name, extras, seen).1;
            Closed(env, known, seen, after) && forall x :: x in extras ==> Covered(env, name, x, after)
    decreases keys - seen, 3, |extras|
  {
    if extras != [] {
      var first := SearchExtra(env, keys, name, extras[0], seen).1;
      ExtraCloses(env, known, keys, name, extras[0], seen);
      ExtrasClose(env, known, keys, name, extras[1..], first);
      ClosedJoins(env, known, seen, first, SearchExtras(env, keys, name, extras, seen).1);
    }
  }

  lemma {:induction false} ExtraCloses(env: Environment, known: set<Requirement>, keys: set<Key>, name: Name, extra: Name, seen: set<Key>)
    requires Knows(env, known) && Within(env, keys) && name in env.installed && SearchExtra(env, keys, name, extra, seen).0
    ensures var after := SearchExtra(env, keys, name, extra, seen).1;
            Closed(env, known, seen, after) && Covered(env, name, extra, after)
    decreases keys - seen, 2, 0
  {
    EachCloses(env, known, keys, env.installed[name].dependencies, extra, seen);
  }

  lemma {:induction false} EachCloses(env: Environment, known: set<Requirement>, keys: set<Key>, rs: seq<Requirement>, extra: Name, seen: set<Key>)
    requires Knows(env, known) && Within(env, keys) && (forall r :: r in rs ==> r in known && KeyOf(r) in keys) && SearchEach(env, keys, rs, extra, seen).0
    ensures var all := SearchEach(env, keys, rs, extra, seen);
            && Closed(env, known, seen, all.1)
            && (all.2 <==> exists r :: r in rs && env.Active(r, extra))
            && forall r :: r in rs && env.Active(r, extra) ==> KeyOf(r) in all.1
    decreases keys - seen, 1, |rs|
  {
    if rs != [] {
      if !env.Active(rs[0], extra) {
        EachCloses(env, known, keys, rs[1..], extra, seen);
      } else {
        var first := Search(env, keys, rs[0], extra, seen).1;
        TrueCloses(env, known, keys, rs[0], extra, seen);
        EachCloses(env, known, keys, rs[1..], extra, first);
        ClosedJoins(env, known, seen, first, SearchEach(env, keys, rs, extra, seen).1);
        assert rs[0] in rs;
      }
    }
  }

  // ---- the requirement graph, without any search ----

  /** A requirement as some extra asks for it. */
  datatype Need = Need(requirement: Requirement, extra: Name)

  /** An installed, passing requirement asks for another through one of its extras. */
  predicate AsksFor(env: Environment, n: Need, m: Need) {
    && env.Active(n.requirement, n.extra) && env.Passes(n.requirement)
    && m.extra in n.requirement.extras
    && m.requirement in env.installed[n.requirement.name].dependencies
  }

  predicate Unmet(env: Environment, n: Need) {
    && env.Active(n.requirement, n.extra)
    && (env.Passes(n.requirement) ==> exists x :: x in n.requirement.extras && Refuses(env, n.requirement.name, x))
  }

  predicate Path(env: Environment, root: Need, path: seq<Need>) {
    && path != [] && path[0] == root
    && forall i :: 0 <= i < |path| - 1 ==> AsksFor(env, path[i], path[i + 1])
  }

  ghost predicate UnmetReachable(env: Environment, root: Need) {
    exists path :: Path(env, root, path) && Unmet(env, path[|path| - 1])
  }

  lemma UnmetThrough(env: Environment, n: Need, m: Need)
    requires AsksFor(env, n, m) && UnmetReachable(env, m)
    ensures UnmetReachable(env, n)
  {
    var path :| Path(env, m, path) && Unmet(env, path[|path| - 1]);
    var longer := [n] + path;
    assert longer[|longer| - 1] == path[|path| - 1];
    assert Path(env, n, longer);
  }

  // ---- what False means ----

  lemma {:induction false} FalseReachesUnmet(env: Environment, keys: set<Key>, r: Requirement, extra: Name, seen: set<Key>)
    requires Within(env, keys) && KeyOf(r) in keys && !Search(env, keys, r, extra, seen).0
    ensures UnmetReachable(env, Need(r, extra))
    decreases keys - seen, 0, 0
  {
    var n := Need(r, extra);
    if !env.Passes(r) {
      assert Path(env, n, [n]) && Unmet(env, [n][|[n]| - 1]);
    } else {
      ExtrasReachUnmet(env, keys, n, r.extras, seen + {KeyOf(r)});
    }
  }

  lemma {:induction false} ExtrasReachUnmet(env: Environment, keys: set<Key>, n: Need, extras: seq<Name>, seen: set<Key>)
    requires Within(env, keys) && env.Active(n.requirement, n.extra) && env.Passes(n.requirement)
    requires (forall x :: x in extras ==> x in n.requirement.extras)
    requires !SearchExtras(env, keys, n.requirement.name, extras, seen).0
    ensures UnmetReachable(env, n)
    decreases keys - seen, 3, |extras|
  {
    var first := SearchExtra(env, keys, n.requirement.name, extras[0], seen);
    if !first.0 {
      ExtraReachesUnmet(env, keys, n, extras[0], seen);
    } else {
      ExtrasReachUnmet(env, keys, n, extras[1..], first.1);
    }
  }

  lemma {:induction false} ExtraReachesUnmet(env: Environment, keys: set<Key>, n: Need, extra: Name, seen: set<Key>)
    requires Within(env, keys) && env.Active(n.requirement, n.extra) && env.Passes(n.requirement)
    requires extra in n.requirement.extras && !SearchExtra(env, keys, n.requirement.name, extra, seen).0
    ensures UnmetReachable(env, n)
    decreases keys - seen, 2, 0
  {
    var d := env.installed[n.requirement.name];
    var all := SearchEach(env, keys, d.dependencies, extra, seen);
    if (d.provided != {} && extra !in d.provided) || all.0 {
      if d.provided == {} { EachCloses(env, env.Requirements(), keys, d.dependencies, extra, seen); }
      assert Refuses(env, n.requirement.name, extra);
      assert Path(env, n, [n]) && Unmet(env, [n][|[n]| - 1]);
    } else {
      EachReachesUnmet(env, keys, n, d.dependencies, extra, seen);
    }
  }

  lemma {:induction false} EachReachesUnmet(env: Environment, keys: set<Key>, n: Need, rs: seq<Requirement>, extra: Name,
                                            seen: set<Key>)
    requires Within(env, keys) && (forall r :: r in rs ==> KeyOf(r) in keys)
    requires forall r :: r in rs ==> AsksFor(env, n, Need(r, extra))
    requires !SearchEach(env, keys, rs, extra, seen).0
    ensures UnmetReachable(env, n)
    decreases keys - seen, 1, |rs|
  {
    if !env.Active(rs[0], extra) {
      EachReachesUnmet(env, keys, n, rs[1..], extra, seen);
    } else {
      var first := Search(env, keys, rs[0], extra, seen);
      assert rs[0] in rs;
      if !first.0 {
        FalseReachesUnmet(env, keys, rs[0], extra, seen);
        UnmetThrough(env, n, Need(rs[0], extra));
      } else {
        EachReachesUnmet(env, keys, n, rs[1..], extra, first.1);
      }
    }
  }

  // ---- exactly what the verdict means ----

  /** Among known requirements, those that share a key share their verdict, whichever the search meets first. */
  predicate KeysDecide(env: Environment, known: set<Requirement>) {
    forall a, b :: a in known && b in known && KeyOf(a) == KeyOf(b) ==> (env.Passes(a) <==> env.Passes(b))
  }

  /** What the search may meet. */
  function KnownFrom(env: Environment, root: Requirement): set<Requirement> {
    env.Requirements() + {root}
  }

  lemma {:induction false} ClosedReaches(env: Environment, root: Need, path: seq<Need>, seen: set<Key>)
    requires Closed(env, KnownFrom(env, root.requirement), {}, seen) && Path(env, root, path)
    requires env.Active(root.requirement, root.extra) ==> KeyOf(root.requirement) in seen
    ensures var last := path[|path| - 1];
            && last.requirement in KnownFrom(env, root.requirement)
            && (env.Active(last.requirement, last.extra) ==> KeyOf(last.requirement) in seen)
  {
    if |path| > 1 {
      ClosedReaches(env, root, path[..|path| - 1], seen);
      var n := path[|path| - 2];
      assert AsksFor(env, n, path[|path| - 1]);
      var k := KeyOf(n.requirement);
      assert Settled(env, k, seen);
      assert path[|path| - 1].extra in k.extras;
    }
  }

  /** True leaves a closed set of keys that holds the root. */
  lemma TrueLeavesSeenClosed(env: Environment, r: Requirement, extra: Name)
    requires Installed(env, r, extra)
    ensures var seen := Search(env, env.Keys() + {KeyOf(r)}, r, extra, {}).1;
            Closed(env, KnownFrom(env, r), {}, seen) && (env.Active(r, extra) ==> KeyOf(r) in seen)
  {
    TrueCloses(env, KnownFrom(env, r), env.Keys() + {KeyOf(r)}, r, extra, {});
  }

  /** False always names a real gap. */
  lemma FalseNamesAGap(env: Environment, r: Requirement, extra: Name)
    requires !Installed(env, r, extra)
    ensures UnmetReachable(env, Need(r, extra))
  {
    FalseReachesUnmet(env, env.Keys() + {KeyOf(r)}, r, extra, {});
  }

  lemma ClosedMeets(env: Environment, known: set<Requirement>, n: Need, seen: set<Key>)
    requires KeysDecide(env, known) && Closed(env, known, {}, seen) && n.requirement in known
    requires env.Active(n.requirement, n.extra) ==> KeyOf(n.requirement) in seen
    ensures !Unmet(env, n)
  {
    var k := KeyOf(n.requirement);
    if env.Active(n.requirement, n.extra) {
      assert Settled(env, k, seen) && Passed(env, known, k);
      forall x | x in n.requirement.extras ensures !Refuses(env, n.requirement.name, x) {
        assert x in k.extras;
      }
    }
  }

  /** When keys decide verdicts, True means that no reachable requirement is unmet. */
  lemma InstalledIffNothingIsUnmet(env: Environment, r: Requirement, extra: Name)
    requires KeysDecide(env, KnownFrom(env, r))
    ensures Installed(env, r, extra) <==> !UnmetReachable(env, Need(r, extra))
  {
    if Installed(env, r, extra) {
      TrueLeavesSeenClosed(env, r, extra);
      var seen := Search(env, env.Keys() + {KeyOf(r)}, r, extra, {}).1;
      forall path: seq<Need> | Path(env, Need(r, extra), path) ensures !Unmet(env, path[|path| - 1]) {
        ClosedReaches(env, Need(r, extra), path, seen);
        ClosedMeets(env, KnownFrom(env, r), path[|path| - 1], seen);
      }
    } else {
      FalseNamesAGap(env, r, extra);
    }
  }

  /** An installed version that the requirement's own specifier rejects, though another one with its key passes. */
  predicate Escapes(env: Environment, known: set<Requirement>, n: Need) {
    && env.Active(n.requirement, n.extra) && n.requirement.name in env.installed
    && !env.Passes(n.requirement) && Passed(env, known, KeyOf(n.requirement))
  }

  ghost predicate EscapeReachable(env: Environment, root: Need) {
    exists path :: Path(env, root, path) && Escapes(env, KnownFrom(env, root.requirement), path[|path| - 1])
  }

  lemma ClosedLeavesEscapes(env: Environment, known: set<Requirement>, n: Need, seen: set<Key>)
    requires Closed(env, known, {}, seen)
    requires env.Active(n.requirement, n.extra) ==> KeyOf(n.requirement) in seen
    ensures Unmet(env, n) <==> Escapes(env, known, n)
  {
    var k := KeyOf(n.requirement);
    if env.Active(n.requirement, n.extra) {
      assert Settled(env, k, seen) && Passed(env, known, k);
      forall x | x in n.requirement.extras ensures !Refuses(env, n.requirement.name, x) {
        assert x in k.extras;
      }
    }
  }

  /** True is wrong in exactly one way: a reachable requirement's specifier went unchecked behind a seen key. */
  lemma TrueIsWrongOnlyByEscape(env: Environment, r: Requirement, extra: Name)
    requires Installed(env, r, extra)
    ensures UnmetReachable(env, Need(r, extra)) <==> EscapeReachable(env, Need(r, extra))
  {
    var root := Need(r, extra);
    TrueLeavesSeenClosed(env, r, extra);
    var seen := Search(env, env.Keys() + {KeyOf(r)}, r, extra, {}).1;
    forall path: seq<Need> | Path(env, root, path)
      ensures Unmet(env, path[|path| - 1]) <==> Escapes(env, KnownFrom(env, r), path[|path| - 1])
    {
      ClosedReaches(env, root, path, seen);
      ClosedLeavesEscapes(env, KnownFrom(env, r), path[|path| - 1], seen);
    }
  }

  /** Without that, a second requirement of a seen key escapes its own specifier. */
  lemma SecondSpecifierIsSkipped() returns (env: Environment, r: Requirement)
    ensures Installed(env, r, "") && UnmetReachable(env, Need(r, ""))
  {
    var old_ := Requirement("b", [], Some(1), None);
    var newer := Requirement("b", [], Some(2), None);
    r := Requirement("a", ["x"], None, None);
    env := Environment(map["a" := Distribution(1, {"x"}, [old_, newer]), "b" := Distribution(1, {}, [])],
                       (m, x) => true, (s: Specifier, v: Version) => s <= v);
    var keys := env.Keys() + {KeyOf(r)};
    var a, b := KeyOf(r), KeyOf(old_);
    assert a.name != b.name && KeyOf(newer) == b && env.Passes(r) && env.Passes(old_) && !env.Passes(newer);
    assert old_ in env.installed["a"].dependencies && newer in env.installed["a"].dependencies;
    assert Search(env, keys, old_, "x", {a}) == (true, {a} + {b});
    assert SearchEach(env, keys, [newer], "x", {a} + {b}) == (true, {a} + {b}, true);
    assert [old_, newer][1..] == [newer];
    assert SearchEach(env, keys, [old_, newer], "x", {a}) == (true, {a} + {b}, true);
    assert SearchExtra(env, keys, "a", "x", {a}).0;
    assert ["x"][1..] == [] && ["x"][0] == "x";
    assert SearchExtras(env, keys, "a", [], SearchExtra(env, keys, "a", "x", {a}).1).0;
    assert SearchExtras(env, keys, "a", ["x"], {a}).0;
    var none: set<Key> := {};
    assert none + {a} == {a} && a !in none && r.extras == ["x"];
    assert Search(env, keys, r, "", none) == SearchExtras(env, keys, "a", ["x"], {a});
    var path := [Need(r, ""), Need(newer, "x")];
    assert AsksFor(env, path[0], path[1]);
    assert Path(env, Need(r, ""), path) && Unmet(env, path[|path| - 1]);
  }
}
