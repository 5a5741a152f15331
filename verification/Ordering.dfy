/**
 Texts in code point order, as sorted() puts them: sorting a set of texts, and why the result is the only one.
 */
module Ordering {
  predicate Distinct(texts: seq<string>) {
    forall i, j :: 0 <= i < j < |texts| ==> texts[i] != texts[j]
  }

  function Items(texts: seq<string>): set<string> {
    set p | p in texts
  }

  lemma {:induction false} DistinctCounts(texts: seq<string>)
    requires Distinct(texts)
    ensures |Items(texts)| == |texts|
  {
    if texts != [] {
      DistinctCounts(texts[1..]);
      assert texts[0] !in texts[1..];
      assert Items(texts) == Items(texts[1..]) + {texts[0]};
    }
  }

  predicate Before(a: string, b: string) {
    if b == [] then false
    else if a == [] then true
    else if a[0] == b[0] then Before(a[1..], b[1..])
    else a[0] < b[0]
  }

  lemma {:induction false} OneIsBefore(a: string, b: string)
    ensures a == b <==> !Before(a, b) && !Before(b, a)
    ensures !(Before(a, b) && Before(b, a))
  {
    if a != [] && b != [] && a[0] == b[0] {
      OneIsBefore(a[1..], b[1..]);
      assert a == [a[0]] + a[1..] && b == [b[0]] + b[1..];
    }
  }

  lemma {:induction false} BeforeChains(a: string, b: string, c: string)
    requires Before(a, b) && Before(b, c)
    ensures Before(a, c)
  {
    if a != [] && a[0] == b[0] == c[0] {
      BeforeChains(a[1..], b[1..], c[1..]);
    }
  }

  predicate Sorted(texts: seq<string>) {
    forall i, j :: 0 <= i < j < |texts| ==> Before(texts[i], texts[j])
  }

  lemma {:induction false} SortedIsUnique(a: seq<string>, b: seq<string>)
    requires Sorted(a) && Sorted(b) && Items(a) == Items(b)
    ensures a == b
  {
    assert b != [] ==> b[0] in Items(b);
    if a != [] {
      assert a[0] in Items(b);
      assert b != [] && b[0] in Items(a);
      FirstIsLeast(a, b[0]);
      FirstIsLeast(b, a[0]);
      OneIsBefore(a[0], b[0]);
      RestOfSorted(a);
      RestOfSorted(b);
      SortedIsUnique(a[1..], b[1..]);
      assert a == [a[0]] + a[1..] && b == [b[0]] + b[1..];
    }
  }

  lemma FirstIsLeast(texts: seq<string>, p: string)
    requires Sorted(texts) && p in texts
    ensures p == texts[0] || Before(texts[0], p)
  {
  }

  lemma RestOfSorted(texts: seq<string>)
    requires Sorted(texts) && texts != []
    ensures Sorted(texts[1..]) && Items(texts[1..]) == Items(texts) - {texts[0]}
  {
    forall p | p in texts[1..] ensures p != texts[0] {
      OneIsBefore(p, p);
    }
  }

  lemma ItemsJoin(a: seq<string>, b: seq<string>)
    ensures Items(a + b) == Items(a) + Items(b)
  {
  }

  function Insert(texts: seq<string>, p: string): (r: seq<string>)
    ensures Items(r) == Items(texts) + {p}
  {
    if texts == [] then [p]
    else if Before(p, texts[0]) then [p] + texts
    else
      ItemsJoin([texts[0]], texts[1..]);
      ItemsJoin([texts[0]], Insert(texts[1..], p));
      assert texts == [texts[0]] + texts[1..];
      [texts[0]] + Insert(texts[1..], p)
  }

  lemma {:induction false} InsertSorts(texts: seq<string>, p: string)
    requires Sorted(texts) && p !in texts
    ensures Sorted(Insert(texts, p))
  {
    if texts != [] {
      if Before(p, texts[0]) {
        forall j | 0 <= j < |texts| ensures Before(p, texts[j]) {
          if j > 0 { BeforeChains(p, texts[0], texts[j]); }
        }
      } else {
        RestOfSorted(texts);
        InsertSorts(texts[1..], p);
        OneIsBefore(p, texts[0]);
        var rest := Insert(texts[1..], p);
        forall j | 0 <= j < |rest| ensures Before(texts[0], rest[j]) {
          assert rest[j] in Items(rest);
        }
      }
    }
  }

  method SortTexts(texts: set<string>) returns (r: seq<string>)
    ensures Sorted(r) && Items(r) == texts
  {
    r := [];
    var left := texts;
    while left != {}
      invariant left <= texts && Sorted(r) && Items(r) == texts - left
      decreases left
    {
      var p :| p in left;
      assert p !in Items(r);
      InsertSorts(r, p);
      r := Insert(r, p);
      left := left - {p};
    }
  }

  lemma SortedCounts(texts: seq<string>)
    requires Sorted(texts)
    ensures |texts| == |Items(texts)|
  {
    SortedIsDistinct(texts);
    DistinctCounts(texts);
  }

  lemma {:induction false} SortedExists(texts: set<string>) returns (r: seq<string>)
    ensures Sorted(r) && Items(r) == texts
  {
    if texts == {} {
      r := [];
    } else {
      var p :| p in texts;
      var rest := SortedExists(texts - {p});
      assert p !in Items(rest);
      InsertSorts(rest, p);
      r := Insert(rest, p);
    }
  }

  /** The set in order. */
  ghost function SortedOf(texts: set<string>): (r: seq<string>)
    ensures Sorted(r) && Items(r) == texts && Distinct(r)
  {
    var witnessed := SomeSorted(texts);
    SortedIsDistinct(witnessed);
    witnessed
  }

  ghost function SomeSorted(texts: set<string>): (r: seq<string>)
    ensures Sorted(r) && Items(r) == texts
  {
    assert exists r :: Sorted(r) && Items(r) == texts by {
      var r := SortedExists(texts);
    }
    var r :| Sorted(r) && Items(r) == texts;
    r
  }

  lemma SortedIsDistinct(texts: seq<string>)
    requires Sorted(texts)
    ensures Distinct(texts)
  {
    forall i, j | 0 <= i < j < |texts| ensures texts[i] != texts[j] { OneIsBefore(texts[i], texts[j]); }
  }
}
