/**
 * The parts of Python's `str` that the model relies on: whitespace as `str.isspace` sees it,
 * `strip`, ASCII `lower`, `in` on strings, `replace`, `join`, `split(sep)`, `split()` and `str(int)`.
 */
module Text {

  /** The characters for which Python's `str.isspace()` is true. */
  predicate IsSpace(c: char) {
    c == ' ' || ('\t' <= c <= '\r') || ('\U{1c}' <= c <= '\U{1f}') || c == '\U{85}' || c == '\U{a0}'
    || c == '\U{1680}' || ('\U{2000}' <= c <= '\U{200a}') || c == '\U{2028}' || c == '\U{2029}'
    || c == '\U{202f}' || c == '\U{205f}' || c == '\U{3000}'
  }

  /** No character of `s` is whitespace. */
  predicate NoSpace(s: string) {
    forall i :: 0 <= i < |s| ==> !IsSpace(s[i])
  }

  /** The number of whitespace characters `s` starts with. */
  function LeadingSpaces(s: string): (n: nat)
    ensures n <= |s|
    ensures forall i :: 0 <= i < n ==> IsSpace(s[i])
    ensures n == |s| || !IsSpace(s[n])
    decreases |s|
  {
    if s == [] || !IsSpace(s[0]) then 0 else 1 + LeadingSpaces(s[1..])
  }

  /** The number of whitespace characters `s` ends with. */
  function TrailingSpaces(s: string): (n: nat)
    ensures n <= |s|
    ensures forall i :: |s| - n <= i < |s| ==> IsSpace(s[i])
    ensures n == |s| || !IsSpace(s[|s| - 1 - n])
    decreases |s|
  {
    if s == [] || !IsSpace(s[|s| - 1]) then 0 else 1 + TrailingSpaces(s[..|s| - 1])
  }

  /** Python's `s.strip()`: `s` without its leading and trailing whitespace. */
  function Strip(s: string): (r: string)
    ensures exists i, j :: (0 <= i <= j <= |s| && r == s[i..j]
      && (forall k :: 0 <= k < i ==> IsSpace(s[k])) && (forall k :: j <= k < |s| ==> IsSpace(s[k])))
    ensures r == [] || (!IsSpace(r[0]) && !IsSpace(r[|r| - 1]))
    ensures r == [] <==> forall k :: 0 <= k < |s| ==> IsSpace(s[k])
  {
    var a := LeadingSpaces(s);
    var rest := s[a..];
    var b := TrailingSpaces(rest);
    assert rest[..|rest| - b] == s[a..|s| - b];
    s[a..|s| - b]
  }

  /** A non-empty string without surrounding whitespace: what `strip` leaves of a non-blank one. */
  predicate Trimmed(s: string) {
    s != [] && !IsSpace(s[0]) && !IsSpace(s[|s| - 1])
  }

  /** A string that starts and ends with non-whitespace is its own strip. */
  lemma StripTrimmed(s: string)
    requires s == [] || (!IsSpace(s[0]) && !IsSpace(s[|s| - 1]))
    ensures Strip(s) == s
  {
    if s != [] {
      assert LeadingSpaces(s) == 0;
      assert TrailingSpaces(s) == 0;
    }
  }

  /** Python's `str.lower()` on one character, for the ASCII letters. */
  function LowerChar(c: char): char {
    if 'A' <= c <= 'Z' then (c as int + 32) as char else c
  }

  /** Python's `s.lower()`, restricted to ASCII letters. */
  function Lower(s: string): (r: string)
    ensures |r| == |s|
    ensures forall i :: 0 <= i < |s| ==> r[i] == LowerChar(s[i])
  {
    seq(|s|, i requires 0 <= i < |s| => LowerChar(s[i]))
  }

  /** `s` holds no ASCII upper-case letter. */
  predicate IsLower(s: string) {
    forall i :: 0 <= i < |s| ==> !('A' <= s[i] <= 'Z')
  }

  /** Python's `sub in s`. */
  predicate Contains(s: string, sub: string)
    decreases |s|
  {
    sub <= s || (s != [] && Contains(s[1..], sub))
  }

  /** Python's `s.replace(pat, rep)` for a non-empty `pat`: every occurrence, left to right, without overlap. */
  function ReplaceAll(s: string, pat: string, rep: string): (r: string)
    requires pat != []
    decreases |s|
  {
    if |s| < |pat| then s
    else if s[..|pat|] == pat then rep + ReplaceAll(s[|pat|..], pat, rep)
    else [s[0]] + ReplaceAll(s[1..], pat, rep)
  }

  /** Python's `sep.join(parts)`. */
  function Join(parts: seq<string>, sep: string): string
    decreases |parts|
  {
    if parts == [] then ""
    else if |parts| == 1 then parts[0]
    else parts[0] + sep + Join(parts[1..], sep)
  }

  /** Python's `s.split(c)` for a one-character separator: always at least one piece. */
  function SplitOn(s: string, c: char): (r: seq<string>)
    ensures |r| >= 1
    decreases |s|
  {
    if s == [] then [""]
    else
      var rest := SplitOn(s[1..], c);
      if s[0] == c then [""] + rest else [[s[0]] + rest[0]] + rest[1..]
  }

  /** The number of non-whitespace characters `s` starts with. */
  function WordLength(s: string): (n: nat)
    ensures n <= |s|
    ensures forall i :: 0 <= i < n ==> !IsSpace(s[i])
    ensures n == |s| || IsSpace(s[n])
    decreases |s|
  {
    if s == [] || IsSpace(s[0]) then 0 else 1 + WordLength(s[1..])
  }

  /** Python's `s.split()`: the maximal runs of non-whitespace characters, in order. */
  function Words(s: string): (r: seq<string>)
    ensures forall i :: 0 <= i < |r| ==> r[i] != [] && NoSpace(r[i])
    decreases |s|
  {
    if s == [] then []
    else if IsSpace(s[0]) then Words(s[1..])
    else
      var n := WordLength(s);
      [s[..n]] + Words(s[n..])
  }

  /** The decimal digit `d`. */
  function DigitChar(d: nat): char
    requires d < 10
  {
    "0123456789"[d]
  }

  /** Python's `str(n)` for a natural number. */
  function NatToDecimal(n: nat): (r: string)
    ensures |r| >= 1
    ensures forall i :: 0 <= i < |r| ==> '0' <= r[i] <= '9'
    decreases n
  {
    if n < 10 then [DigitChar(n)] else NatToDecimal(n / 10) + [DigitChar(n % 10)]
  }

  /** The number a string of decimal digits denotes (Python's `int(s)` on such a string). */
  function DecimalValue(s: string): (v: nat)
    requires forall i :: 0 <= i < |s| ==> '0' <= s[i] <= '9'
    ensures s == [] ==> v == 0
    decreases |s|
  {
    if s == [] then 0
    else 10 * DecimalValue(s[..|s| - 1]) + (s[|s| - 1] as int - '0' as int)
  }

  /** A digit character reads back as its digit. */
  lemma DigitCharValue(d: nat)
    requires d < 10
    ensures DigitChar(d) as int - '0' as int == d
  {
    assert "0123456789"[d] as int == '0' as int + d by {
      if d == 0 {} else if d == 1 {} else if d == 2 {} else if d == 3 {} else if d == 4 {}
      else if d == 5 {} else if d == 6 {} else if d == 7 {} else if d == 8 {} else {}
    }
  }

  /**
   * `str(n)` is canonical: its digits read back as `n`, and it has no leading zero unless `n` is
   * zero itself.
   */
  lemma {:induction false} NatToDecimalValue(n: nat)
    ensures DecimalValue(NatToDecimal(n)) == n
    ensures n > 0 ==> NatToDecimal(n)[0] != '0'
    decreases n
  {
    var r := NatToDecimal(n);
    if n < 10 {
      DigitCharValue(n);
      assert r[..0] == [];
    } else {
      NatToDecimalValue(n / 10);
      DigitCharValue(n % 10);
      assert r[..|r| - 1] == NatToDecimal(n / 10);
      assert r[0] == NatToDecimal(n / 10)[0];
    }
  }

  /** Distinct naturals print differently. */
  lemma NatToDecimalInjective(a: nat, b: nat)
    requires NatToDecimal(a) == NatToDecimal(b)
    ensures a == b
  {
    NatToDecimalValue(a);
    NatToDecimalValue(b);
  }

  /** Python's `str(n)` for any integer. */
  function IntToDecimal(n: int): string {
    if n < 0 then "-" + NatToDecimal(-n) else NatToDecimal(n)
  }

  /** Python's `f"{n:02d}"` for `0 <= n < 100`. */
  function TwoDigits(n: nat): (r: string)
    requires n < 100
  {
    if n < 10 then ['0', DigitChar(n)] else NatToDecimal(n)
  }

  /** Lower-casing twice is lower-casing once, and lower-casing keeps whitespace where it was. */
  lemma LowerFacts(s: string)
    ensures Lower(Lower(s)) == Lower(s)
    ensures IsLower(Lower(s))
    ensures forall i :: 0 <= i < |s| ==> (IsSpace(Lower(s)[i]) <==> IsSpace(s[i]))
  {
  }

  /** Lower-casing a string without upper-case letters changes nothing. */
  lemma LowerOfLower(s: string)
    requires IsLower(s)
    ensures Lower(s) == s
  {
    assert forall i :: 0 <= i < |s| ==> Lower(s)[i] == s[i];
  }

  /** A piece without the separator splits into itself. */
  lemma {:induction false} SplitOnNoSeparator(p: string, c: char)
    requires c !in p
    ensures SplitOn(p, c) == [p]
    decreases |p|
  {
    if p != [] {
      SplitOnNoSeparator(p[1..], c);
      assert [p[0]] + p[1..] == p;
    }
  }

  /** Splitting stops at the first separator. */
  lemma {:induction false} SplitOnFirst(p: string, c: char, rest: string)
    requires c !in p
    ensures SplitOn(p + [c] + rest, c) == [p] + SplitOn(rest, c)
    decreases |p|
  {
    var s := p + [c] + rest;
    if p == [] {
      assert s == [c] + rest;
      assert s[1..] == rest;
    } else {
      assert s[1..] == p[1..] + [c] + rest;
      SplitOnFirst(p[1..], c, rest);
      assert [p[0]] + p[1..] == p;
    }
  }

  /** Splitting at `c` undoes joining with `c` when no piece holds `c`. */
  lemma {:induction false} SplitOnJoin(parts: seq<string>, c: char)
    requires parts != []
    requires forall i :: 0 <= i < |parts| ==> c !in parts[i]
    ensures SplitOn(Join(parts, [c]), c) == parts
    decreases |parts|
  {
    if |parts| == 1 {
      SplitOnNoSeparator(parts[0], c);
    } else {
      SplitOnJoin(parts[1..], c);
      SplitOnFirst(parts[0], c, Join(parts[1..], [c]));
      assert [parts[0]] + parts[1..] == parts;
    }
  }

  /** A word followed by whitespace is read up to the whitespace. */
  lemma {:induction false} WordLengthOfWord(w: string, rest: string)
    requires NoSpace(w)
    requires rest == [] || IsSpace(rest[0])
    ensures WordLength(w + rest) == |w|
    decreases |w|
  {
    if w != [] {
      assert (w + rest)[1..] == w[1..] + rest;
      WordLengthOfWord(w[1..], rest);
    } else {
      assert w + rest == rest;
    }
  }

  /** Splitting on whitespace undoes joining with one space. */
  lemma {:induction false} WordsJoin(ws: seq<string>)
    requires forall i :: 0 <= i < |ws| ==> ws[i] != [] && NoSpace(ws[i])
    ensures Words(Join(ws, " ")) == ws
    decreases |ws|
  {
    if |ws| == 1 {
      WordLengthOfWord(ws[0], []);
      assert ws[0] + [] == ws[0];
      assert ws[0][|ws[0]|..] == [];
    } else if |ws| > 1 {
      var tail := Join(ws[1..], " ");
      var s := ws[0] + " " + tail;
      assert s == ws[0] + (" " + tail);
      WordLengthOfWord(ws[0], " " + tail);
      assert s[..|ws[0]|] == ws[0];
      assert s[|ws[0]|..] == " " + tail;
      assert (" " + tail)[1..] == tail;
      WordsJoin(ws[1..]);
      assert [ws[0]] + ws[1..] == ws;
    }
  }

  /** Joining non-empty words with one space neither starts nor ends with whitespace. */
  lemma {:induction false} JoinWordsTrimmed(ws: seq<string>)
    requires forall i :: 0 <= i < |ws| ==> ws[i] != [] && NoSpace(ws[i])
    ensures var j := Join(ws, " "); j == [] <==> ws == []
    ensures var j := Join(ws, " "); j == [] || (!IsSpace(j[0]) && !IsSpace(j[|j| - 1]))
    decreases |ws|
  {
    if |ws| > 1 {
      JoinWordsTrimmed(ws[1..]);
      var j := Join(ws, " ");
      assert j == ws[0] + " " + Join(ws[1..], " ");
      assert j[0] == ws[0][0];
    }
  }

  /** Leading whitespace does not change the words. */
  lemma {:induction false} WordsDropLeading(s: string, k: nat)
    requires k <= |s|
    requires forall i :: 0 <= i < k ==> IsSpace(s[i])
    ensures Words(s[k..]) == Words(s)
    decreases k
  {
    if k > 0 {
      WordsDropLeading(s[1..], k - 1);
      assert s[1..][k - 1..] == s[k..];
    }
  }

  /** Trailing whitespace does not change the words. */
  lemma {:induction false} WordsDropTrailing(s: string, k: nat)
    requires k <= |s|
    requires forall i :: |s| - k <= i < |s| ==> IsSpace(s[i])
    ensures Words(s[..|s| - k]) == Words(s)
    decreases |s|
  {
    var t := s[..|s| - k];
    if t == [] {
      assert forall i :: 0 <= i < |s| ==> IsSpace(s[i]);
      WordsDropLeading(s, |s|);
      assert s[|s|..] == [];
    } else if IsSpace(s[0]) {
      assert t[1..] == s[1..][..|s[1..]| - k];
      WordsDropTrailing(s[1..], k);
    } else {
      var n := WordLength(s);
      if k > 0 {
        assert IsSpace(s[|t|]);
      }
      assert n <= |t|;
      WordsDropTrailing(s[n..], k);
      WordsDropTrailingWord(s, k);
    }
  }

  /** The step of `WordsDropTrailing` past a first word that ends before the trailing whitespace. */
  lemma WordsDropTrailingWord(s: string, k: nat)
    requires k <= |s| && s != [] && !IsSpace(s[0])
    requires WordLength(s) <= |s| - k
    requires var r := s[WordLength(s)..]; Words(r[..|r| - k]) == Words(r)
    ensures Words(s[..|s| - k]) == Words(s)
  {
    var t := s[..|s| - k];
    var n := WordLength(s);
    var r := s[n..];
    WordLengthCut(s, k);
    assert t != [] && t[0] == s[0];
    assert Words(s) == [s[..n]] + Words(r);
    assert Words(t) == [t[..n]] + Words(t[n..]);
    assert t[..n] == s[..n];
    assert t[n..] == r[..|r| - k];
    var rest := Words(t[n..]);
    assert rest == Words(r);
    assert Words(t) == [s[..n]] + rest;
  }

  /** Dropping a tail that starts after the first word keeps the first word's length. */
  lemma WordLengthCut(s: string, k: nat)
    requires k <= |s| && WordLength(s) <= |s| - k
    ensures WordLength(s[..|s| - k]) == WordLength(s)
  {
    WordLengthPrefix(s, |s| - k);
  }

  /** Cutting a string short keeps its first word if the cut is not inside it. */
  lemma {:induction false} WordLengthPrefix(s: string, j: nat)
    requires j <= |s|
    requires WordLength(s) <= j
    ensures WordLength(s[..j]) == WordLength(s)
    decreases |s|
  {
    if s != [] && !IsSpace(s[0]) {
      assert j >= 1;
      assert s[..j][1..] == s[1..][..j - 1];
      WordLengthPrefix(s[1..], j - 1);
    }
  }

  /** Stripping before splitting on whitespace changes nothing. */
  lemma WordsStrip(s: string)
    ensures Words(Strip(s)) == Words(s)
  {
    var a := LeadingSpaces(s);
    var rest := s[a..];
    var b := TrailingSpaces(rest);
    assert Strip(s) == rest[..|rest| - b];
    WordsDropLeading(s, a);
    WordsDropTrailing(rest, b);
  }

  /** A character in no piece and not in the separator is not in the joined text. */
  lemma {:induction false} JoinAvoids(parts: seq<string>, sep: string, c: char)
    requires c !in sep && forall i :: 0 <= i < |parts| ==> c !in parts[i]
    ensures c !in Join(parts, sep)
    decreases |parts|
  {
    if |parts| > 1 {
      JoinAvoids(parts[1..], sep, c);
    }
  }

  /** Joining with a final empty piece ends the text with the separator. */
  lemma {:induction false} JoinEmptyLast(parts: seq<string>, sep: string)
    requires parts != []
    ensures Join(parts + [""], sep) == Join(parts, sep) + sep
    decreases |parts|
  {
    if |parts| == 1 {
      assert (parts + [""])[1..] == [""];
    } else {
      JoinEmptyLast(parts[1..], sep);
      assert (parts + [""])[1..] == parts[1..] + [""];
    }
  }

  /** Text in `s` is still there after something is put in front. */
  lemma {:induction false} ContainsAfter(x: string, s: string, sub: string)
    requires Contains(s, sub)
    ensures Contains(x + s, sub)
    decreases |x|
  {
    if x == [] {
      assert x + s == s;
    } else {
      ContainsAfter(x[1..], s, sub);
      assert (x + s)[1..] == x[1..] + s;
    }
  }

  /** Text in `s` is still there after something is put behind. */
  lemma {:induction false} ContainsBefore(s: string, y: string, sub: string)
    requires Contains(s, sub)
    ensures Contains(s + y, sub)
    decreases |s|
  {
    if sub <= s {
      assert (s + y)[..|sub|] == s[..|sub|];
    } else {
      ContainsBefore(s[1..], y, sub);
      assert (s + y)[1..] == s[1..] + y;
    }
  }

  /** Every piece occurs in the joined text. */
  lemma {:induction false} JoinContainsPart(parts: seq<string>, sep: string, i: nat)
    requires i < |parts|
    ensures Contains(Join(parts, sep), parts[i])
    decreases |parts|
  {
    if i == 0 {
      assert parts[0] <= Join(parts, sep);
    } else {
      JoinContainsPart(parts[1..], sep, i - 1);
      ContainsAfter(parts[0] + sep, Join(parts[1..], sep), parts[i]);
    }
  }
}
