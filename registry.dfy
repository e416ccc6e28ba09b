/** The configured set of sources: selection by input kind, enable/disable filtering, listing and lookup. */
module Registry {
  import opened Wrappers
  import opened Seqs
  import opened SourceBase

  /** Lexicographic order on strings, as Python compares `str` values. */
  predicate LexLeq(a: string, b: string)
    decreases |a|
  {
    a == [] || (b != [] && (a[0] < b[0] || (a[0] == b[0] && LexLeq(a[1..], b[1..]))))
  }

  lemma {:induction false} LexTotal(a: string, b: string)
    ensures LexLeq(a, b) || LexLeq(b, a)
    decreases |a|
  {
    if a != [] && b != [] && a[0] == b[0] {
      LexTotal(a[1..], b[1..]);
    }
  }

  lemma {:induction false} LexTransitive(a: string, b: string, c: string)
    requires LexLeq(a, b) && LexLeq(b, c)
    ensures LexLeq(a, c)
    decreases |a|
  {
    if a != [] && b != [] && c != [] && a[0] == b[0] && b[0] == c[0] {
      LexTransitive(a[1..], b[1..], c[1..]);
    }
  }

  /** Sorted by source id. */
  ghost predicate SortedById(ss: seq<Source>) {
    forall i, j :: 0 <= i < j < |ss| ==> LexLeq(ss[i].sourceId, ss[j].sourceId)
  }

  /** Inserts `x` before the first element with a larger id. */
  function InsertById(x: Source, ss: seq<Source>): (r: seq<Source>)
    requires SortedById(ss)
    ensures SortedById(r)
    ensures multiset(r) == multiset(ss) + multiset{x}
    decreases |ss|
  {
    if ss == [] then [x]
    else if LexLeq(x.sourceId, ss[0].sourceId) then
      HeadBelowAll(x, ss);
      ConsSorted(x, ss);
      [x] + ss
    else
      var rest := InsertById(x, ss[1..]);
      assert ss == [ss[0]] + ss[1..];
      LexTotal(x.sourceId, ss[0].sourceId);
      HeadBelowInserted(ss, x, rest);
      ConsSorted(ss[0], rest);
      [ss[0]] + rest
  }

  /** A source no larger than the head of a sorted list is no larger than any of its elements. */
  lemma HeadBelowAll(x: Source, ss: seq<Source>)
    requires SortedById(ss) && ss != [] && LexLeq(x.sourceId, ss[0].sourceId)
    ensures forall j :: 0 <= j < |ss| ==> LexLeq(x.sourceId, ss[j].sourceId)
  {
    forall j | 0 <= j < |ss| ensures LexLeq(x.sourceId, ss[j].sourceId) {
      if j > 0 { LexTransitive(x.sourceId, ss[0].sourceId, ss[j].sourceId); }
    }
  }

  /** The head of a sorted list is no larger than anything in its tail with a larger source inserted. */
  lemma HeadBelowInserted(ss: seq<Source>, x: Source, rest: seq<Source>)
    requires SortedById(ss) && ss != [] && LexLeq(ss[0].sourceId, x.sourceId)
    requires multiset(rest) == multiset(ss[1..]) + multiset{x}
    ensures forall j :: 0 <= j < |rest| ==> LexLeq(ss[0].sourceId, rest[j].sourceId)
  {
    forall j | 0 <= j < |rest| ensures LexLeq(ss[0].sourceId, rest[j].sourceId) {
      var y := rest[j];
      assert y in multiset(rest);
      if y != x {
        assert y in multiset(ss[1..]);
        var k :| 0 <= k < |ss[1..]| && ss[1..][k] == y;
        assert ss[k + 1] == y;
      }
    }
  }

  /** A sorted list with a head no larger than all of it is sorted. */
  lemma ConsSorted(h: Source, ss: seq<Source>)
    requires SortedById(ss)
    requires forall j :: 0 <= j < |ss| ==> LexLeq(h.sourceId, ss[j].sourceId)
    ensures SortedById([h] + ss)
  {
    var r := [h] + ss;
    forall i, j | 0 <= i < j < |r| ensures LexLeq(r[i].sourceId, r[j].sourceId) {
      if i > 0 {
        assert r[i] == ss[i - 1] && r[j] == ss[j - 1];
      } else {
        assert r[j] == ss[j - 1];
      }
    }
  }

  /** Python's `sorted(sources, key=source_id)`: an insertion sort by id. */
  function SortById(ss: seq<Source>): (r: seq<Source>)
    ensures SortedById(r)
    ensures multiset(r) == multiset(ss)
    decreases |ss|
  {
    if ss == [] then []
    else
      assert ss == [ss[0]] + ss[1..];
      InsertById(ss[0], SortById(ss[1..]))
  }

  /** The sources of `ss` with id `id`, in their order in `ss`. */
  function WithId(ss: seq<Source>, id: string): (r: seq<Source>)
    ensures forall s :: s in r <==> s in ss && s.sourceId == id
    decreases |ss|
  {
    if ss == [] then [] else (if ss[0].sourceId == id then [ss[0]] else []) + WithId(ss[1..], id)
  }

  lemma {:induction false} LexReflexive(a: string)
    ensures LexLeq(a, a)
    decreases |a|
  {
    if a != [] {
      LexReflexive(a[1..]);
    }
  }

  /** Inserting `x` puts it before every source with its id and leaves other ids' order alone. */
  lemma {:induction false} InsertByIdStable(x: Source, ss: seq<Source>, id: string)
    requires SortedById(ss)
    ensures WithId(InsertById(x, ss), id) == WithId([x] + ss, id)
    decreases |ss|
  {
    if ss != [] && !LexLeq(x.sourceId, ss[0].sourceId) {
      var h, t := ss[0], ss[1..];
      var rest := InsertById(x, t);
      assert InsertById(x, ss) == [h] + rest;
      InsertByIdStable(x, t, id);
      LexReflexive(x.sourceId);
      assert h.sourceId != x.sourceId;
      SwapPast(x, h, t, rest, id);
    }
  }

  /** Two sources with different ids can be swapped without changing the sources of one id. */
  lemma SwapPast(x: Source, h: Source, t: seq<Source>, rest: seq<Source>, id: string)
    requires h.sourceId != x.sourceId
    requires WithId(rest, id) == WithId([x] + t, id)
    ensures WithId([h] + rest, id) == WithId([x] + ([h] + t), id)
  {
    WithIdCons(h, rest, id);
    WithIdCons(x, t, id);
    WithIdCons(x, [h] + t, id);
    WithIdCons(h, t, id);
  }

  /** Filtering a list with a head: the head if it has the id, then the filtered tail. */
  lemma WithIdCons(h: Source, t: seq<Source>, id: string)
    ensures WithId([h] + t, id) == (if h.sourceId == id then [h] else []) + WithId(t, id)
  {
    assert ([h] + t)[1..] == t;
  }

  /**
   * The insertion sort is stable: for every id, the sources with that id keep their input order,
   * as Python's `sorted` promises.
   */
  lemma {:induction false} SortByIdStable(ss: seq<Source>, id: string)
    ensures WithId(SortById(ss), id) == WithId(ss, id)
    decreases |ss|
  {
    if ss != [] {
      SortByIdStable(ss[1..], id);
      InsertByIdStable(ss[0], SortById(ss[1..]), id);
      WithIdCons(ss[0], SortById(ss[1..]), id);
      WithIdCons(ss[0], ss[1..], id);
      assert ss == [ss[0]] + ss[1..];
    }
  }

  /** `v` sits at index `i` of `ss`, has id `id`, and no earlier source has that id. */
  ghost predicate FirstMatchAt(ss: seq<Source>, id: string, i: int, v: Source) {
    0 <= i < |ss| && ss[i] == v && v.sourceId == id && forall j :: 0 <= j < i ==> ss[j].sourceId != id
  }

  /** The first source in `ss` with id `id`. */
  function FirstWithId(ss: seq<Source>, id: string): (r: Option<Source>)
    ensures r.None? <==> forall i :: 0 <= i < |ss| ==> ss[i].sourceId != id
    ensures r.Some? ==> exists i :: FirstMatchAt(ss, id, i, r.value)
    decreases |ss|
  {
    if ss == [] then None
    else if ss[0].sourceId == id then assert FirstMatchAt(ss, id, 0, ss[0]); Some(ss[0])
    else
      var r := FirstWithId(ss[1..], id);
      if r.Some? then FirstInTail(ss, id, r.value); r else r
  }

  /** A first match in the tail of `ss` whose head does not match is a first match in `ss`. */
  lemma FirstInTail(ss: seq<Source>, id: string, v: Source)
    requires ss != [] && ss[0].sourceId != id
    requires exists i :: FirstMatchAt(ss[1..], id, i, v)
    ensures exists i :: FirstMatchAt(ss, id, i, v)
  {
    var i :| FirstMatchAt(ss[1..], id, i, v);
    assert ss[i + 1] == v;
    forall j | 0 <= j < i + 1 ensures ss[j].sourceId != id {
      if j > 0 { assert ss[j] == ss[1..][j - 1]; }
    }
    assert FirstMatchAt(ss, id, i + 1, v);
  }

  /** The configured sources, in configuration order. */
  datatype SourceRegistry = SourceRegistry(sources: seq<Source>)
  {
    /** `for_inputs`: the sources accepting at least one of `inputs`, in registry order. */
    function ForInputs(inputs: set<string>): (r: seq<Source>)
      ensures forall s :: s in r <==> s in sources && s.supportedInputs * inputs != {}
      ensures IsSubsequence(r, sources)
      ensures forall s :: multiset(r)[s] == (if s.supportedInputs * inputs != {} then multiset(sources)[s] else 0)
    {
      var accepts := (s: Source) => s.supportedInputs * inputs != {};
      FilterIsSubsequence(sources, accepts);
      assert forall s :: multiset(Filter(sources, accepts))[s] == (if accepts(s) then multiset(sources)[s] else 0) by {
        forall s ensures multiset(Filter(sources, accepts))[s] ==
          if accepts(s) then multiset(sources)[s] else 0 {
          FilterCount(sources, accepts, s);
        }
      }
      Filter(sources, accepts)
    }

    /**
     * `filtered`: with a non-empty `enabled`, only the sources it names; then never one that
     * `disabled` names. Order is kept and the registry itself is a value, so it is unchanged.
     */
    function Filtered(enabled: seq<string>, disabled: seq<string>): (r: SourceRegistry)
      ensures forall s :: s in r.sources <==> s in sources && Kept(s, enabled, disabled)
      ensures IsSubsequence(r.sources, sources)
      ensures forall s :: multiset(r.sources)[s] == (if Kept(s, enabled, disabled) then multiset(sources)[s] else 0)
    {
      SelectedFacts(sources, enabled, disabled);
      SourceRegistry(Selected(sources, enabled, disabled))
    }

    /** `list_sources`: every source, ordered by id; sources sharing an id stay in registry order. */
    function ListSources(): (r: seq<Source>)
      ensures SortedById(r)
      ensures multiset(r) == multiset(sources)
      ensures forall id :: WithId(r, id) == WithId(sources, id)
    {
      assert forall id :: WithId(SortById(sources), id) == WithId(sources, id) by {
        forall id ensures WithId(SortById(sources), id) == WithId(sources, id) {
          SortByIdStable(sources, id);
        }
      }
      SortById(sources)
    }

    /** `get`: the first source with the id, or `None`. */
    function Get(id: string): (r: Option<Source>)
      ensures r.None? <==> forall i :: 0 <= i < |sources| ==> sources[i].sourceId != id
      ensures r.Some? ==> exists i :: FirstMatchAt(sources, id, i, r.value)
    {
      FirstWithId(sources, id)
    }
  }

  /** A source survives `filtered` iff `enabled` is empty or names it, and `disabled` does not name it. */
  predicate Kept(s: Source, enabled: seq<string>, disabled: seq<string>) {
    (enabled == [] || s.sourceId in enabled) && s.sourceId !in disabled
  }

  /** The two comprehensions of `filtered`, the second applied to the result of the first. */
  function Selected(ss: seq<Source>, enabled: seq<string>, disabled: seq<string>): seq<Source> {
    var step1 := if enabled != [] then Filter(ss, (s: Source) => s.sourceId in enabled) else ss;
    if disabled != [] then Filter(step1, (s: Source) => s.sourceId !in disabled) else step1
  }

  /** The two comprehensions of `filtered` select the same sources, in the same order, as one filter. */
  lemma FilterTwice(ss: seq<Source>, enabled: seq<string>, disabled: seq<string>)
    ensures Selected(ss, enabled, disabled) == Filter(ss, (s: Source) => Kept(s, enabled, disabled))
  {
    var en := (s: Source) => s.sourceId in enabled;
    var dis := (s: Source) => s.sourceId !in disabled;
    var keep := (s: Source) => Kept(s, enabled, disabled);
    if enabled != [] && disabled != [] {
      FilterFilter(ss, en, dis, keep);
    } else if enabled != [] {
      FilterAgree(ss, en, keep);
    } else if disabled != [] {
      FilterAgree(ss, dis, keep);
    } else {
      FilterAll(ss, keep);
    }
  }

  /** What `filtered` keeps: the sources it accepts, in order, each as often as it occurs. */
  lemma SelectedFacts(ss: seq<Source>, enabled: seq<string>, disabled: seq<string>)
    ensures forall s :: s in Selected(ss, enabled, disabled) <==> s in ss && Kept(s, enabled, disabled)
    ensures IsSubsequence(Selected(ss, enabled, disabled), ss)
    ensures forall s :: multiset(Selected(ss, enabled, disabled))[s] == (if Kept(s, enabled, disabled) then multiset(ss)[s] else 0)
  {
    var keep := (s: Source) => Kept(s, enabled, disabled);
    FilterTwice(ss, enabled, disabled);
    FilterIsSubsequence(ss, keep);
    forall s ensures multiset(Filter(ss, keep))[s] == (if keep(s) then multiset(ss)[s] else 0) {
      FilterCount(ss, keep, s);
    }
  }
}
