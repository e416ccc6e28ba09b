/**
 * Username candidates from a first and last name: the name tokens normalised to lower-case ASCII
 * letters and digits, 28 base forms, each followed by its birth-year variants, deduplicated in
 * first-occurrence order and cut off at a limit.
 */
module Permutations {
  import opened Wrappers
  import opened Seqs
  import opened Text

  /** The characters a normalised token keeps. */
  predicate IsTokenChar(c: char) {
    'a' <= c <= 'z' || '0' <= c <= '9'
  }

  /** Every character of `s` is kept by normalisation. */
  predicate IsToken(s: string) {
    forall i :: 0 <= i < |s| ==> IsTokenChar(s[i])
  }

  /** `re.sub(r"[^a-z0-9]+", "", s)`: the lower-case letters and digits of `s`, in order. */
  function KeepTokenChars(s: string): (r: string)
    ensures IsToken(r) && |r| <= |s|
    decreases |s|
  {
    if s == [] then []
    else if IsTokenChar(s[0]) then [s[0]] + KeepTokenChars(s[1..])
    else KeepTokenChars(s[1..])
  }

  /** Removing the non-token characters of a token removes nothing. */
  lemma {:induction false} KeepTokenCharsOfToken(s: string)
    requires IsToken(s)
    ensures KeepTokenChars(s) == s
    decreases |s|
  {
    if s != [] {
      KeepTokenCharsOfToken(s[1..]);
      assert [s[0]] + s[1..] == s;
    }
  }

  /**
   * `_normalize_token` on ASCII text: lower-case, strip, then drop everything but `a`-`z` and
   * `0`-`9`. The result is a token, and normalising a token changes nothing.
   */
  function NormalizeToken(value: string): (r: string)
    ensures IsToken(r)
  {
    KeepTokenChars(Strip(Lower(value)))
  }

  /** Normalisation is idempotent. */
  lemma NormalizeTokenIdempotent(value: string)
    ensures NormalizeToken(NormalizeToken(value)) == NormalizeToken(value)
  {
    var t := NormalizeToken(value);
    assert Lower(t) == t;
    assert t == [] || (!IsSpace(t[0]) && !IsSpace(t[|t| - 1]));
    StripTrimmed(t);
    KeepTokenCharsOfToken(t);
  }

  /** The separators placed between the two name parts. */
  const Seps := ["", ".", "_", "-"]

  /** `first_n[:2]`. */
  function FirstTwo(s: string): (r: string)
    ensures r <= s && |r| == if |s| >= 2 then 2 else |s|
  {
    if |s| >= 2 then s[..2] else s
  }

  /** The six forms of one separator: full names both ways, an initial with a full name, the two-letter starts. */
  function SepForms(f: string, l: string, sep: string): seq<string>
    requires f != [] && l != []
  {
    [f + sep + l, l + sep + f, [f[0]] + sep + l, f + sep + [l[0]], FirstTwo(f) + sep + l, f + sep + FirstTwo(l)]
  }

  /** The forms of each separator in `seps`, separator by separator. */
  function SepBlock(f: string, l: string, seps: seq<string>): seq<string>
    requires f != [] && l != []
    decreases |seps|
  {
    if seps == [] then [] else SepBlock(f, l, seps[..|seps| - 1]) + SepForms(f, l, seps[|seps| - 1])
  }

  /** The base candidates: six forms for each of the four separators, then first, last, and the two concatenations. */
  function Base(f: string, l: string): (r: seq<string>)
    requires f != [] && l != []
    ensures |r| == 28 && r[0] == f + l && r[24..] == [f, l, f + l, l + f]
  {
    SepForms(f, l, "") + SepForms(f, l, ".") + SepForms(f, l, "_") + SepForms(f, l, "-") + [f, l, f + l, l + f]
  }

  /** The loop over the separators builds the base forms in separator order. */
  lemma SepBlockOfSeps(f: string, l: string)
    requires f != [] && l != []
    ensures SepBlock(f, l, Seps) + [f, l, f + l, l + f] == Base(f, l)
  {
    assert Seps[..3] == ["", ".", "_"] && Seps[..2] == ["", "."] && Seps[..1] == [""];
    assert Seps[..1][..0] == [];
    assert SepBlock(f, l, Seps[..1]) == SepForms(f, l, "");
    assert Seps[..2][..1] == Seps[..1];
    assert SepBlock(f, l, Seps[..2]) == SepForms(f, l, "") + SepForms(f, l, ".");
    assert Seps[..3][..2] == Seps[..2];
    assert SepBlock(f, l, Seps[..3]) == SepForms(f, l, "") + SepForms(f, l, ".") + SepForms(f, l, "_");
    assert Seps[..3] == Seps[..|Seps| - 1];
  }

  /** The suffixes of a birth year `y`: `str(y)` and the two-digit `y % 100` (Python's floor modulo). */
  function Years(birthYear: Option<int>): (r: seq<string>)
    ensures birthYear.None? <==> r == []
    ensures birthYear.Some? ==> |r| == 2
  {
    match birthYear
    case None => []
    case Some(y) => [IntToDecimal(y), TwoDigits(y % 100)]
  }

  /** `_with_year`: a candidate, then (with a year and at least 4 characters) the candidate with each year suffix. */
  function WithYear(s: string, years: seq<string>): (r: seq<string>)
    ensures |r| >= 1 && r[0] == s && |r| <= 1 + |years|
  {
    if years == [] || |s| < 4 then [s] else [s] + seq(|years|, k requires 0 <= k < |years| => s + years[k])
  }

  /** A candidate's variants are the candidate itself, or (with at least 4 characters) it followed by a year suffix. */
  lemma WithYearMembers(s: string, years: seq<string>, x: string)
    ensures x in WithYear(s, years) <==> x == s || (|s| >= 4 && exists k :: 0 <= k < |years| && x == s + years[k])
  {
    if x in WithYear(s, years) && x != s {
      var i :| 0 <= i < |WithYear(s, years)| && WithYear(s, years)[i] == x;
      assert x == s + years[i - 1];
    }
    if |s| >= 4 && x != s && exists k :: 0 <= k < |years| && x == s + years[k] {
      var k :| 0 <= k < |years| && x == s + years[k];
      assert WithYear(s, years)[k + 1] == x;
    }
  }

  /** A candidate of at least four characters is offered with each year suffix. */
  lemma YearVariant(s: string, years: seq<string>, k: nat)
    requires |s| >= 4 && k < |years|
    ensures s + years[k] in WithYear(s, years)
  {
    assert WithYear(s, years)[k + 1] == s + years[k];
  }

  /** Every candidate followed by its year variants, in candidate order. */
  function Expand(cands: seq<string>, years: seq<string>): (r: seq<string>)
    ensures |r| >= |cands|
    decreases |cands|
  {
    if cands == [] then [] else Expand(cands[..|cands| - 1], years) + WithYear(cands[|cands| - 1], years)
  }

  /** The number of candidates the loop keeps before returning: `limit`, but at least one, since the test follows the append. */
  function Cap(limit: int): nat {
    if limit < 1 then 1 else limit
  }

  /** The first-occurrence deduplication of `s`, cut at `Cap(limit)` items. */
  function Limited(s: seq<string>, limit: int): seq<string> {
    var d := Dedup(s);
    if |d| <= Cap(limit) then d else d[..Cap(limit)]
  }

  /** `generate_permutations`, as a specification. */
  function Permutations(first: string, last: string, birthYear: Option<int>, limit: int): seq<string> {
    var f := NormalizeToken(first);
    var l := NormalizeToken(last);
    if f == [] || l == [] then [] else Limited(Expand(Base(f, l), Years(birthYear)), limit)
  }

  /** Deduplicating one item more: the item is appended exactly when it is new. */
  lemma DedupSnoc(s: seq<string>, x: string)
    ensures Dedup(s + [x]) == if x in Dedup(s) then Dedup(s) else Dedup(s) + [x]
  {
    assert (s + [x])[..|s|] == s;
  }

  /** Deduplicating a prefix gives a prefix of the deduplication. */
  lemma DedupPrefix(p: seq<string>, s: seq<string>)
    requires p <= s
    ensures Dedup(p) <= Dedup(s)
  {
    DedupExtends(p, s[|p|..]);
    assert p + s[|p|..] == s;
  }

  /** Expanding a prefix of the candidates gives a prefix of the expansion. */
  lemma {:induction false} ExpandPrefix(cands: seq<string>, years: seq<string>, i: nat)
    requires i <= |cands|
    ensures Expand(cands[..i], years) <= Expand(cands, years)
    decreases |cands| - i
  {
    if i < |cands| {
      ExpandPrefix(cands, years, i + 1);
      var next := cands[..i + 1];
      assert next[..|next| - 1] == cands[..i] && next[|next| - 1] == cands[i];
      var a := Expand(cands[..i], years);
      assert Expand(next, years) == a + WithYear(cands[i], years);
      assert a <= Expand(next, years);
      PrefixTrans(a, Expand(next, years), Expand(cands, years));
    } else {
      assert cands[..i] == cands;
    }
  }

  /** The cut deduplication: distinct, at most `Cap(limit)` items, a prefix of the full deduplication, all of it when short enough. */
  lemma LimitedFacts(s: seq<string>, limit: int)
    ensures Distinct(Limited(s, limit)) && |Limited(s, limit)| <= Cap(limit)
    ensures Limited(s, limit) <= Dedup(s)
    ensures Limited(s, limit) == [] <==> s == []
    ensures |s| <= Cap(limit) ==> Limited(s, limit) == Dedup(s)
  {
    var d := Dedup(s);
    if s != [] {
      assert s[0] in d;
    }
  }

  /** The base list, separator by separator: the first loop of `generate_permutations`. */
  method BuildBase(f: string, l: string) returns (base: seq<string>)
    requires f != [] && l != []
    ensures base == Base(f, l)
  {
    base := [];
    for i := 0 to |Seps|
      invariant base == SepBlock(f, l, Seps[..i])
    {
      assert Seps[..i + 1][..i] == Seps[..i];
      base := base + SepForms(f, l, Seps[i]);
    }
    assert Seps[..|Seps|] == Seps;
    base := base + [f, l, f + l, l + f];
    SepBlockOfSeps(f, l);
  }

  /** The early return: once `limit` items are out, they are the cut deduplication of the whole expansion. */
  lemma EarlyReturn(done: seq<string>, all: seq<string>, limit: int)
    requires done <= all && |Dedup(done)| == Cap(limit)
    ensures Dedup(done) == Limited(all, limit)
  {
    DedupPrefix(done, all);
  }

  /** A prefix of a prefix. */
  lemma PrefixStep(a: seq<string>, b: seq<string>, k: nat, c: seq<string>)
    requires k <= |b| && a + b <= c
    ensures a + b[..k] <= c
  {
    assert (a + b)[..|a| + k] == a + b[..k];
  }

  /** One candidate further: its variants extend the expansion, which stays a prefix of the whole. */
  lemma NextExpansion(base: seq<string>, years: seq<string>, i: nat) returns (next: seq<string>)
    requires i < |base|
    ensures next == Expand(base[..i + 1], years) == Expand(base[..i], years) + WithYear(base[i], years)
    ensures next <= Expand(base, years)
  {
    ExpandPrefix(base, years, i + 1);
    assert base[..i + 1][..i] == base[..i];
    next := Expand(base[..i + 1], years);
  }

  /** Prefixes of prefixes. */
  lemma PrefixTrans(a: seq<string>, b: seq<string>, c: seq<string>)
    requires a <= b && b <= c
    ensures a <= c
  {
    assert c[..|a|] == c[..|b|][..|a|];
  }

  /** Offering one item: a seen item changes nothing, a new one is appended and remembered. */
  lemma OfferStep(done: seq<string>, item: string, seen: set<string>, out: seq<string>)
    requires out == Dedup(done) && forall x :: x in seen <==> x in out
    ensures item in seen ==> Dedup(done + [item]) == out
    ensures item !in seen ==> Dedup(done + [item]) == out + [item]
    ensures forall x :: x in seen + {item} <==> x in out + [item]
  {
    DedupSnoc(done, item);
  }

  /** One step of the inner loop: the item joins what was offered, and joins the output iff it is unseen. */
  lemma OfferAdvance(done0: seq<string>, items: seq<string>, j: nat, done: seq<string>, seen: set<string>, out: seq<string>)
    requires j < |items| && done == done0 + items[..j]
    requires out == Dedup(done) && forall x :: x in seen <==> x in out
    ensures done + [items[j]] == done0 + items[..j + 1] && done + [items[j]] <= done0 + items
    ensures items[j] in seen ==> Dedup(done + [items[j]]) == out
    ensures items[j] !in seen ==> Dedup(done + [items[j]]) == out + [items[j]]
    ensures forall x :: x in seen + {items[j]} <==> x in out + [items[j]]
  {
    OfferStep(done, items[j], seen, out);
    SnocPrefix(done0, items, j);
    PrefixStep(done0, items, j + 1, done0 + items);
  }

  /** Taking one item more of `b`. */
  lemma SnocPrefix(a: seq<string>, b: seq<string>, j: nat)
    requires j < |b|
    ensures a + b[..j] + [b[j]] == a + b[..j + 1]
  {
    assert b[..j + 1] == b[..j] + [b[j]];
  }

  /**
   * The inner loop of `generate_permutations`, over the variants of one candidate: each new item
   * goes into `seen` and the output; `stop` reports that the output reached the limit.
   */
  method OfferVariants(items: seq<string>, limit: int, seen0: set<string>, out0: seq<string>, ghost done0: seq<string>)
    returns (seen: set<string>, out: seq<string>, stop: bool, ghost done: seq<string>)
    requires out0 == Dedup(done0) && |out0| < Cap(limit)
    requires forall x :: x in seen0 <==> x in out0
    ensures out == Dedup(done) && done <= done0 + items
    ensures stop ==> |out| == Cap(limit)
    ensures !stop ==> done == done0 + items && |out| < Cap(limit) && forall x :: x in seen <==> x in out
  {
    seen, out, stop, done := seen0, out0, false, done0;
    for j := 0 to |items|
      invariant done == done0 + items[..j]
      invariant out == Dedup(done)
      invariant forall x :: x in seen <==> x in out
      invariant |out| < Cap(limit)
    {
      var item := items[j];
      OfferAdvance(done0, items, j, done, seen, out);
      done := done + [item];
      if item in seen {
        continue;
      }
      seen := seen + {item};
      out := out + [item];
      if |out| >= limit {
        return seen, out, true, done;
      }
    }
    assert items[..|items|] == items;
  }

  /**
   * The outer loop of `generate_permutations`: walks the base list with a `seen` set, offering each
   * candidate with its year variants and returning as soon as the output holds `limit` items.
   */
  method TakeCandidates(base: seq<string>, years: seq<string>, limit: int) returns (out: seq<string>)
    ensures out == Limited(Expand(base, years), limit)
  {
    ghost var all := Expand(base, years);
    var seen: set<string> := {};
    out := [];
    ghost var done: seq<string> := [];
    for i := 0 to |base|
      invariant done == Expand(base[..i], years)
      invariant out == Dedup(done)
      invariant forall x :: x in seen <==> x in out
      invariant |out| < Cap(limit)
    {
      ghost var next := NextExpansion(base, years, i);
      var stop;
      seen, out, stop, done := OfferVariants(WithYear(base[i], years), limit, seen, out, done);
      if stop {
        PrefixTrans(done, next, all);
        EarlyReturn(done, all, limit);
        return;
      }
    }
    assert base[..|base|] == base;
    LimitedFacts(all, limit);
  }

  /** `generate_permutations`: nothing when a name normalises to nothing, else the base list walked up to the limit. */
  method GeneratePermutations(first: string, last: string, birthYear: Option<int>, limit: int)
    returns (out: seq<string>)
    ensures out == Permutations(first, last, birthYear, limit)
  {
    var f := NormalizeToken(first);
    var l := NormalizeToken(last);
    if f == [] || l == [] {
      return [];
    }
    var base := BuildBase(f, l);
    out := TakeCandidates(base, Years(birthYear), limit);
  }

  /** No candidate repeats, and the output never exceeds the limit (one item when the limit is below one). */
  lemma PermutationsBounded(first: string, last: string, birthYear: Option<int>, limit: int)
    ensures Distinct(Permutations(first, last, birthYear, limit))
    ensures |Permutations(first, last, birthYear, limit)| <= Cap(limit)
    ensures limit >= 1 ==> |Permutations(first, last, birthYear, limit)| <= limit
  {
    var f := NormalizeToken(first);
    var l := NormalizeToken(last);
    if f != [] && l != [] {
      LimitedFacts(Expand(Base(f, l), Years(birthYear)), limit);
    }
  }

  /** The expansion starts with the first candidate. */
  lemma {:induction false} ExpandHead(cands: seq<string>, years: seq<string>)
    requires cands != []
    ensures Expand(cands, years)[0] == cands[0]
    decreases |cands|
  {
    if |cands| > 1 {
      var init := cands[..|cands| - 1];
      ExpandHead(init, years);
    } else {
      assert cands[..0] == [];
    }
  }

  /** The cut deduplication of a non-empty sequence starts with its first item. */
  lemma LimitedHead(s: seq<string>, limit: int)
    requires s != []
    ensures Limited(s, limit) != [] && Limited(s, limit)[0] == s[0]
  {
    DedupPrefix([s[0]], s);
    assert Dedup([s[0]]) == [s[0]];
    LimitedFacts(s, limit);
  }

  /** The output is empty exactly when a name normalises to nothing; otherwise it starts with the two names joined. */
  lemma PermutationsEmpty(first: string, last: string, birthYear: Option<int>, limit: int)
    ensures Permutations(first, last, birthYear, limit) == [] <==> NormalizeToken(first) == [] || NormalizeToken(last) == []
    ensures Permutations(first, last, birthYear, limit) != [] ==>
      Permutations(first, last, birthYear, limit)[0] == NormalizeToken(first) + NormalizeToken(last)
  {
    var f := NormalizeToken(first);
    var l := NormalizeToken(last);
    if f != [] && l != [] {
      ExpandHead(Base(f, l), Years(birthYear));
      LimitedHead(Expand(Base(f, l), Years(birthYear)), limit);
    }
  }

  /** A base form, or one of its year variants, lies in the expansion. */
  lemma {:induction false} ExpandHas(cands: seq<string>, years: seq<string>, k: nat, x: string)
    requires k < |cands| && x in WithYear(cands[k], years)
    ensures x in Expand(cands, years)
    decreases |cands|
  {
    if k < |cands| - 1 {
      ExpandHas(cands[..|cands| - 1], years, k, x);
    }
  }

  /** Every expanded item is a base form or one of its year variants. */
  lemma {:induction false} ExpandFrom(cands: seq<string>, years: seq<string>, x: string) returns (k: nat)
    requires x in Expand(cands, years)
    ensures k < |cands| && x in WithYear(cands[k], years)
    decreases |cands|
  {
    var init := cands[..|cands| - 1];
    if x in Expand(init, years) {
      k := ExpandFrom(init, years, x);
      assert init[k] == cands[k];
    } else {
      k := |cands| - 1;
    }
  }

  /** Each candidate gives at most three items. */
  lemma {:induction false} ExpandLength(cands: seq<string>, years: seq<string>)
    requires |years| <= 2
    ensures |Expand(cands, years)| <= 3 * |cands|
    decreases |cands|
  {
    if cands != [] {
      ExpandLength(cands[..|cands| - 1], years);
    }
  }

  /**
   * Every output is one of the 28 base forms of the normalised names or one of its year variants;
   * without a birth year, every output is a base form.
   */
  lemma PermutationsFromBase(first: string, last: string, birthYear: Option<int>, limit: int, x: string)
    requires x in Permutations(first, last, birthYear, limit)
    ensures NormalizeToken(first) != [] && NormalizeToken(last) != []
    ensures exists k :: 0 <= k < 28 && x in WithYear(Base(NormalizeToken(first), NormalizeToken(last))[k], Years(birthYear))
    ensures birthYear.None? ==> x in Base(NormalizeToken(first), NormalizeToken(last))
  {
    var f := NormalizeToken(first);
    var l := NormalizeToken(last);
    var e := Expand(Base(f, l), Years(birthYear));
    LimitedFacts(e, limit);
    assert x in Dedup(e);
    var k := ExpandFrom(Base(f, l), Years(birthYear), x);
    WithYearMembers(Base(f, l)[k], Years(birthYear), x);
  }

  /** With a limit of at least 84 nothing is cut: every base form and year variant is in the output. */
  lemma PermutationsComplete(first: string, last: string, birthYear: Option<int>, limit: int, k: nat, x: string)
    requires NormalizeToken(first) != [] && NormalizeToken(last) != [] && limit >= 84 && k < 28
    requires x in WithYear(Base(NormalizeToken(first), NormalizeToken(last))[k], Years(birthYear))
    ensures x in Permutations(first, last, birthYear, limit)
  {
    var f := NormalizeToken(first);
    var l := NormalizeToken(last);
    var e := Expand(Base(f, l), Years(birthYear));
    ExpandLength(Base(f, l), Years(birthYear));
    ExpandHas(Base(f, l), Years(birthYear), k, x);
    LimitedFacts(e, limit);
  }

  /** `PermutationsComplete` with the normalised names and year suffixes given. */
  lemma CompleteFor(first: string, last: string, f: string, l: string, birthYear: Option<int>, years: seq<string>,
                    k: nat, c: string, x: string)
    requires NormalizeToken(first) == f && NormalizeToken(last) == l && f != [] && l != [] && Years(birthYear) == years
    requires k < 28 && Base(f, l)[k] == c && x in WithYear(c, years)
    ensures x in Permutations(first, last, birthYear, 200)
  {
    PermutationsComplete(first, last, birthYear, 200, k, x);
  }

  /** A value whose lower-case form is a token normalises to that token. */
  lemma NormalizeToToken(value: string, t: string)
    requires Lower(value) == t && IsToken(t)
    ensures NormalizeToken(value) == t
  {
    assert t == [] || (!IsSpace(t[0]) && !IsSpace(t[|t| - 1]));
    StripTrimmed(t);
    KeepTokenCharsOfToken(t);
  }

  /** The normalised example names. */
  lemma JohnDoeTokens()
    ensures NormalizeToken("John") == "john" && NormalizeToken("Doe") == "doe"
  {
    var john := Lower("John");
    assert LowerChar('J') == 'j';
    assert john[0] == 'j' && john[1] == 'o' && john[2] == 'h' && john[3] == 'n';
    assert john == "john";
    NormalizeToToken("John", "john");
    var doe := Lower("Doe");
    assert LowerChar('D') == 'd';
    assert doe[0] == 'd' && doe[1] == 'o' && doe[2] == 'e';
    assert doe == "doe";
    NormalizeToToken("Doe", "doe");
  }

  /** The year suffixes of 1990. */
  lemma Years1990()
    ensures Years(Some(1990)) == ["1990", "90"]
  {
    assert DigitChar(0) == '0' && DigitChar(1) == '1' && DigitChar(9) == '9';
    assert NatToDecimal(1) == "1";
    assert NatToDecimal(19) == NatToDecimal(1) + ['9'] == "19";
    assert NatToDecimal(199) == NatToDecimal(19) + ['9'] == "199";
    assert NatToDecimal(1990) == NatToDecimal(199) + ['0'] == "1990";
    assert NatToDecimal(9) == "9";
    assert NatToDecimal(90) == NatToDecimal(9) + ['0'] == "90";
    assert 1990 % 100 == 90;
  }

  /** Three of the base forms of John Doe. */
  lemma JohnDoeBase()
    ensures Base("john", "doe")[8] == "j.doe"
    ensures Base("john", "doe")[27] == "doejohn"
    ensures Base("john", "doe")[0] == "johndoe"
  {
  }

  /** John Doe born 1990, limit 200: the initial form "j.doe" is a candidate. */
  lemma JohnDoeInitial()
    ensures "j.doe" in Permutations("John", "Doe", Some(1990), 200)
  {
    JohnDoeTokens();
    JohnDoeBase();
    Years1990();
    CompleteFor("John", "Doe", "john", "doe", Some(1990), ["1990", "90"], 8, "j.doe", "j.doe");
  }

  /** John Doe born 1990, limit 200: the reversed form with the full year, "doejohn1990", is a candidate. */
  lemma JohnDoeFullYear()
    ensures "doejohn1990" in Permutations("John", "Doe", Some(1990), 200)
  {
    JohnDoeTokens();
    Years1990();
    JoinedWithYear("John", "Doe", Some(1990), 27, 0);
    DoeJohn1990();
  }

  /** John Doe born 1990, limit 200: the joined form with the two-digit year, "johndoe90", is a candidate. */
  lemma JohnDoeShortYear()
    ensures "johndoe90" in Permutations("John", "Doe", Some(1990), 200)
  {
    JohnDoeTokens();
    Years1990();
    JoinedWithYear("John", "Doe", Some(1990), 0, 1);
    JohnDoe90();
  }

  /** The spelling of the reversed form with the full year. */
  lemma DoeJohn1990()
    ensures "doe" + "john" + "1990" == "doejohn1990"
  {
  }

  /** The spelling of the joined form with the two-digit year. */
  lemma JohnDoe90()
    ensures "john" + "doe" + "90" == "johndoe90"
  {
  }

  /**
   * With a birth year and limit 200, the joined forms first+last (k = 0) and last+first (k = 27)
   * are offered with each year suffix.
   */
  lemma JoinedWithYear(first: string, last: string, birthYear: Option<int>, k: nat, y: nat)
    requires NormalizeToken(first) != [] && NormalizeToken(last) != []
    requires |NormalizeToken(first)| + |NormalizeToken(last)| >= 4
    requires birthYear.Some? && (k == 0 || k == 27) && y < 2
    ensures var f, l := NormalizeToken(first), NormalizeToken(last);
      (if k == 0 then f + l else l + f) + Years(birthYear)[y] in Permutations(first, last, birthYear, 200)
  {
    var f, l := NormalizeToken(first), NormalizeToken(last);
    var c := if k == 0 then f + l else l + f;
    var years := Years(birthYear);
    assert Base(f, l)[k] == c by {
      assert Base(f, l)[24..][3] == l + f;
    }
    YearVariant(c, years, y);
    PermutationsComplete(first, last, birthYear, 200, k, c + years[y]);
  }
}
