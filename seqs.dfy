/** Sequence helpers shared by the model: first-occurrence deduplication, filtering, filter-mapping and flattening. */
module Seqs {
  import opened Wrappers

  /** No element occurs twice. */
  ghost predicate Distinct<T>(s: seq<T>) {
    forall i, j :: 0 <= i < j < |s| ==> s[i] != s[j]
  }

  /** `a` is `b` with some elements left out, the rest kept in order. */
  ghost predicate IsSubsequence<T>(a: seq<T>, b: seq<T>)
    decreases |b|
  {
    if a == [] then true
    else if b == [] then false
    else if a[0] == b[0] then IsSubsequence(a[1..], b[1..])
    else IsSubsequence(a, b[1..])
  }

  /**
   * The elements of `s` in the order of their first occurrence, each once: what a loop
   * keeping a `seen` set and appending unseen items produces.
   */
  function Dedup<T(==)>(s: seq<T>): (r: seq<T>)
    ensures forall i :: 0 <= i < |r| ==> r[i] in s
    ensures forall i :: 0 <= i < |s| ==> s[i] in r
    ensures Distinct(r)
    ensures |r| <= |s|
    decreases |s|
  {
    if s == [] then []
    else
      var d := Dedup(s[..|s| - 1]);
      if s[|s| - 1] in d then d else d + [s[|s| - 1]]
  }

  /** Deduplicating more input only ever extends the output. */
  lemma {:induction false} DedupExtends<T>(a: seq<T>, b: seq<T>)
    ensures Dedup(a) <= Dedup(a + b)
    decreases |b|
  {
    if b == [] {
      assert a + b == a;
    } else {
      var c := a + b[..|b| - 1];
      DedupExtends(a, b[..|b| - 1]);
      assert (a + b)[..|a + b| - 1] == c;
    }
  }

  /** A sequence without repetitions is its own deduplication. */
  lemma {:induction false} DedupDistinct<T>(s: seq<T>)
    requires Distinct(s)
    ensures Dedup(s) == s
    decreases |s|
  {
    if s != [] {
      var p := s[..|s| - 1];
      assert Distinct(p);
      DedupDistinct(p);
      assert s[|s| - 1] !in p;
      assert p + [s[|s| - 1]] == s;
    }
  }

  /** The subsequence of `s` whose elements satisfy `p`. */
  function Filter<T>(s: seq<T>, p: T -> bool): (r: seq<T>)
    ensures forall i :: 0 <= i < |r| ==> r[i] in s && p(r[i])
    ensures forall i :: 0 <= i < |s| && p(s[i]) ==> s[i] in r
    ensures |r| <= |s|
    decreases |s|
  {
    if s == [] then []
    else if p(s[0]) then [s[0]] + Filter(s[1..], p)
    else Filter(s[1..], p)
  }

  /** Filtering keeps the survivors in their original order. */
  lemma {:induction false} FilterIsSubsequence<T>(s: seq<T>, p: T -> bool)
    ensures IsSubsequence(Filter(s, p), s)
    decreases |s|
  {
    if s != [] {
      FilterIsSubsequence(s[1..], p);
      var f := Filter(s[1..], p);
      if !p(s[0]) && f != [] {
        assert p(f[0]);
        assert f[0] != s[0];
      }
    }
  }

  /** Two filters that agree on every element of `s` select the same subsequence. */
  lemma {:induction false} FilterAgree<T>(s: seq<T>, p: T -> bool, q: T -> bool)
    requires forall x :: x in s ==> p(x) == q(x)
    ensures Filter(s, p) == Filter(s, q)
    decreases |s|
  {
    if s != [] {
      assert forall x :: x in s[1..] ==> x in s;
      FilterAgree(s[1..], p, q);
    }
  }

  /** A filter that accepts every element of `s` keeps `s` whole. */
  lemma {:induction false} FilterAll<T>(s: seq<T>, p: T -> bool)
    requires forall x :: x in s ==> p(x)
    ensures Filter(s, p) == s
    decreases |s|
  {
    if s != [] {
      assert forall x :: x in s[1..] ==> x in s;
      FilterAll(s[1..], p);
      assert s == [s[0]] + s[1..];
    }
  }

  /** Filtering by `p` and then by `q` is filtering once by their conjunction `r`. */
  lemma {:induction false} FilterFilter<T>(s: seq<T>, p: T -> bool, q: T -> bool, r: T -> bool)
    requires forall x :: x in s ==> r(x) == (p(x) && q(x))
    ensures Filter(Filter(s, p), q) == Filter(s, r)
    decreases |s|
  {
    if s != [] {
      assert forall x :: x in s[1..] ==> x in s;
      FilterFilter(s[1..], p, q, r);
      if p(s[0]) {
        var t := Filter(s[1..], p);
        assert ([s[0]] + t)[1..] == t;
      }
    }
  }

  /** Filtering keeps every copy of an element that passes and drops every copy of one that fails. */
  lemma {:induction false} FilterCount<T>(s: seq<T>, p: T -> bool, x: T)
    ensures multiset(Filter(s, p))[x] == if p(x) then multiset(s)[x] else 0
    decreases |s|
  {
    if s != [] {
      FilterCount(s[1..], p, x);
      assert s == [s[0]] + s[1..];
    }
  }

  /** The concatenation of a sequence of sequences. */
  function Flatten<T>(ss: seq<seq<T>>): (r: seq<T>)
    ensures |r| == SumLengths(ss)
    decreases |ss|
  {
    if ss == [] then [] else ss[0] + Flatten(ss[1..])
  }

  /** The total length of a sequence of sequences. */
  function SumLengths<T>(ss: seq<seq<T>>): nat
    decreases |ss|
  {
    if ss == [] then 0 else |ss[0]| + SumLengths(ss[1..])
  }

  /** Flattening distributes over concatenation. */
  lemma {:induction false} FlattenAppend<T>(a: seq<seq<T>>, b: seq<seq<T>>)
    ensures Flatten(a + b) == Flatten(a) + Flatten(b)
    decreases |a|
  {
    if a == [] {
      assert a + b == b;
    } else {
      FlattenAppend(a[1..], b);
      assert (a + b)[1..] == a[1..] + b;
    }
  }

  /** The results of the items that yield one, in item order (a loop that `continue`s past the others). */
  function Harvest<T, U>(items: seq<T>, f: T -> Option<U>): seq<U>
    decreases |items|
  {
    if items == [] then []
    else
      var last := f(items[|items| - 1]);
      Harvest(items[..|items| - 1], f) + (if last.Some? then [last.value] else [])
  }

  /** The item `i` yields `x`. */
  ghost predicate YieldsAt<T, U>(items: seq<T>, f: T -> Option<U>, i: int, x: U) {
    0 <= i < |items| && f(items[i]) == Some(x)
  }

  /** The item a harvested result comes from. */
  lemma {:induction false} HarvestSource<T, U>(items: seq<T>, f: T -> Option<U>, x: U) returns (i: nat)
    requires x in Harvest(items, f)
    ensures YieldsAt(items, f, i, x)
    decreases |items|
  {
    var init := items[..|items| - 1];
    if x in Harvest(init, f) {
      i := HarvestSource(init, f, x);
      assert init[i] == items[i];
    } else {
      i := |items| - 1;
    }
  }

  /**
   * Harvesting never yields more results than items, yields every result from some item, and
   * yields none exactly when no item yields one.
   */
  lemma {:induction false} HarvestMembers<T, U>(items: seq<T>, f: T -> Option<U>)
    ensures |Harvest(items, f)| <= |items|
    ensures forall x :: x in Harvest(items, f) ==> exists i :: YieldsAt(items, f, i, x)
    ensures Harvest(items, f) == [] <==> forall i :: 0 <= i < |items| ==> f(items[i]).None?
    decreases |items|
  {
    forall x | x in Harvest(items, f) ensures exists i :: YieldsAt(items, f, i, x) {
      var k := HarvestSource(items, f, x);
    }
    if items != [] {
      var init := items[..|items| - 1];
      HarvestMembers(init, f);
      assert forall i :: 0 <= i < |init| ==> init[i] == items[i];
    }
  }

  /** Harvesting one item more appends that item's result, if it yields one. */
  lemma HarvestAppend<T, U>(items: seq<T>, x: T, f: T -> Option<U>)
    ensures Harvest(items + [x], f) == Harvest(items, f) + (if f(x).Some? then [f(x).value] else [])
  {
    assert (items + [x])[..|items|] == items;
  }

  /** Harvesting two items. */
  lemma HarvestPair<T, U>(a: T, b: T, f: T -> Option<U>)
    ensures Harvest([a, b], f) == (if f(a).Some? then [f(a).value] else []) + (if f(b).Some? then [f(b).value] else [])
  {
    HarvestAppend([], a, f);
    HarvestAppend([a], b, f);
    assert [] + [a] == [a];
    assert [a] + [b] == [a, b];
  }
}
