/** The dataset-ID field of RangeInputForm: `clean_raw_number_list` scans the
    text with `re.findall(r'(\d+-\d+|\d+)', data)`, expands every `a-b` token
    to the integers a..b, adds every plain number, and returns the set sorted. */
module Forms {
  import opened Decimal

  // ---------------------------------------------------------------------------
  // The regular expression (\d+-\d+|\d+), anchored at the start of a string
  // ---------------------------------------------------------------------------

  /** Length of the longest prefix of digits (greedy `\d+`, 0 when s does not start with a digit). */
  function DigitRun(s: string): (n: nat)
    ensures n <= |s|
    ensures n < |s| ==> !IsDigit(s[n])
  {
    if s == [] || !IsDigit(s[0]) then 0 else 1 + DigitRun(s[1..])
  }

  /** The leading run consists of digits only. */
  lemma {:induction false} DigitRunDigits(s: string)
    ensures Digits(s[..DigitRun(s)])
  {
    if s != [] && IsDigit(s[0]) {
      DigitRunDigits(s[1..]);
      assert s[..DigitRun(s)] == [s[0]] + s[1..][..DigitRun(s[1..])];
    }
  }

  /** Length of the match of (\d+-\d+|\d+) at the start of s, or 0 when there is none.
      The range alternative is tried first; since `\d+` is greedy and a digit is
      never '-', it can only succeed with the whole leading digit run. */
  function MatchLength(s: string): (n: nat)
    ensures n <= |s|
  {
    var a := DigitRun(s);
    if a == 0 then 0
    else if a + 1 < |s| && s[a] == '-' && IsDigit(s[a + 1]) then a + 1 + DigitRun(s[a + 1..])
    else a
  }

  /** Index of the first '-' in m, or |m| when m has none. */
  function DashIndex(m: string): (d: nat)
    ensures d <= |m|
    ensures forall i :: 0 <= i < d ==> m[i] != '-'
    ensures d < |m| ==> m[d] == '-'
  {
    if m == [] || m[0] == '-' then 0 else 1 + DashIndex(m[1..])
  }

  /** The shapes a match can have: `\d+` or `\d+-\d+`. */
  predicate IsToken(m: string) {
    var d := DashIndex(m);
    AllDigits(m[..d]) && (d == |m| || AllDigits(m[d + 1..]))
  }

  lemma {:induction false} MatchIsToken(s: string)
    requires MatchLength(s) > 0
    ensures IsToken(s[..MatchLength(s)])
  {
    var a, n := DigitRun(s), MatchLength(s);
    var m := s[..n];
    DigitRunDigits(s);
    assert m[..a] == s[..a];
    if n > a {
      DigitRunDigits(s[a + 1..]);
      assert m[a] == '-';
      assert DashIndex(m) == a;
      assert m[a + 1..] == s[a + 1..][..DigitRun(s[a + 1..])];
    } else {
      assert DashIndex(m) == a;
    }
  }

  // ---------------------------------------------------------------------------
  // re.findall: leftmost, non-overlapping matches, scanned left to right
  // ---------------------------------------------------------------------------

  /** re.findall(r'(\d+-\d+|\d+)', s): the matched substrings in order. */
  function FindAll(s: string): seq<string>
    decreases |s|
  {
    if s == [] then []
    else
      var n := MatchLength(s);
      if n == 0 then FindAll(s[1..])
      else [s[..n]] + FindAll(s[n..])
  }

  /** Every match has the shape `\d+` or `\d+-\d+`. */
  lemma {:induction false} FindAllTokens(s: string)
    ensures forall i :: 0 <= i < |FindAll(s)| ==> IsToken(FindAll(s)[i])
    decreases |s|
  {
    if s != [] {
      var n := MatchLength(s);
      if n == 0 {
        FindAllTokens(s[1..]);
      } else {
        MatchIsToken(s);
        FindAllTokens(s[n..]);
        assert FindAll(s) == [s[..n]] + FindAll(s[n..]);
      }
    }
  }

  /** The same scan, reporting where each match lies: [start, end) in s. */
  function Spans(s: string): seq<(nat, nat)>
    decreases |s|
  {
    if s == [] then []
    else
      var n := MatchLength(s);
      if n == 0 then Shift(Spans(s[1..]), 1)
      else [(0, n)] + Shift(Spans(s[n..]), n)
  }

  function Shift(sp: seq<(nat, nat)>, d: nat): (r: seq<(nat, nat)>)
    ensures |r| == |sp|
    ensures forall k :: 0 <= k < |sp| ==> r[k] == (sp[k].0 + d, sp[k].1 + d)
  {
    seq(|sp|, k requires 0 <= k < |sp| => (sp[k].0 + d, sp[k].1 + d))
  }

  // The scan properties below are stated for any anchored matcher `ml`
  // (length of the match at the start of a string, 0 for none); the form uses
  // ml == MatchLength. Keeping the matcher abstract keeps these proofs small.

  /** No match starts at any position in [i, j). */
  ghost predicate NoMatchIn(ml: string -> nat, s: string, i: nat, j: nat)
    requires j <= |s|
  {
    forall p :: i <= p < j ==> ml(s[p..]) == 0
  }

  /** End of the span before span k; `base` before the first one. */
  function PrevEnd(sp: seq<(nat, nat)>, k: nat, base: nat): nat
    requires k <= |sp|
  {
    if k == 0 then base else sp[k - 1].1
  }

  /** Span k starts after the previous one ends, is the match found at its
      start, and no match starts in the gap before it. */
  ghost predicate SpanOk(ml: string -> nat, s: string, sp: seq<(nat, nat)>, base: nat, k: nat)
    requires k < |sp|
  {
    && PrevEnd(sp, k, base) <= sp[k].0 < sp[k].1 <= |s|
    && ml(s[sp[k].0..]) == sp[k].1 - sp[k].0
    && NoMatchIn(ml, s, PrevEnd(sp, k, base), sp[k].0)
  }

  /** sp is the left-to-right scan of s from position `base`: the spans are in
      order and disjoint, each one is the match found at its start, and no match
      starts in a gap between them nor after the last one. */
  ghost predicate IsScanFrom(ml: string -> nat, s: string, sp: seq<(nat, nat)>, base: nat) {
    && (forall k :: 0 <= k < |sp| ==> SpanOk(ml, s, sp, base, k))
    && PrevEnd(sp, |sp|, base) <= |s|
    && NoMatchIn(ml, s, PrevEnd(sp, |sp|, base), |s|)
  }

  lemma {:induction false} NoMatchShift(ml: string -> nat, s: string, d: nat, i: nat, j: nat)
    requires d <= |s| && j <= |s| - d
    requires NoMatchIn(ml, s[d..], i, j)
    ensures NoMatchIn(ml, s, i + d, j + d)
  {
    forall p | i + d <= p < j + d
      ensures ml(s[p..]) == 0
    {
      assert s[d..][p - d..] == s[p..];
    }
  }

  /** A scan of a suffix, moved to the suffix's position, is a scan of the whole from there. */
  lemma {:induction false} ShiftScan(ml: string -> nat, s: string, d: nat, inner: seq<(nat, nat)>, base: nat)
    requires d <= |s| && IsScanFrom(ml, s[d..], inner, base)
    ensures IsScanFrom(ml, s, Shift(inner, d), base + d)
  {
    var t, sh, b := s[d..], Shift(inner, d), base + d;
    forall k | 0 <= k < |sh|
      ensures SpanOk(ml, s, sh, b, k)
    {
      assert SpanOk(ml, t, inner, base, k);
      assert PrevEnd(sh, k, b) == PrevEnd(inner, k, base) + d;
      assert t[inner[k].0..] == s[sh[k].0..];
      NoMatchShift(ml, s, d, PrevEnd(inner, k, base), inner[k].0);
    }
    assert PrevEnd(sh, |sh|, b) == PrevEnd(inner, |inner|, base) + d;
    NoMatchShift(ml, s, d, PrevEnd(inner, |inner|, base), |t|);
  }

  /** Position 0 has no match: a scan from 1 is a scan from 0. */
  lemma {:induction false} ScanSkip(ml: string -> nat, s: string, sp: seq<(nat, nat)>)
    requires |s| > 0 && ml(s) == 0 && IsScanFrom(ml, s, sp, 1)
    ensures IsScanFrom(ml, s, sp, 0)
  {
    assert s[0..] == s;
    if |sp| > 0 {
      assert SpanOk(ml, s, sp, 1, 0);
      assert NoMatchIn(ml, s, 0, sp[0].0);
      forall k | 0 <= k < |sp|
        ensures SpanOk(ml, s, sp, 0, k)
      {
        assert SpanOk(ml, s, sp, 1, k);
      }
    } else {
      assert NoMatchIn(ml, s, 0, |s|);
    }
  }

  /** The match at position 0, followed by a scan from its end, is a scan from 0. */
  lemma {:induction false} ScanCons(ml: string -> nat, s: string, n: nat, sp: seq<(nat, nat)>)
    requires 0 < n <= |s| && ml(s) == n && IsScanFrom(ml, s, sp, n)
    ensures IsScanFrom(ml, s, [(0, n)] + sp, 0)
  {
    var all := [(0, n)] + sp;
    assert s[0..] == s;
    assert SpanOk(ml, s, all, 0, 0);
    forall k | 1 <= k < |all|
      ensures SpanOk(ml, s, all, 0, k)
    {
      assert SpanOk(ml, s, sp, n, k - 1);
      assert PrevEnd(all, k, 0) == PrevEnd(sp, k - 1, n) && all[k] == sp[k - 1];
    }
    assert PrevEnd(all, |all|, 0) == PrevEnd(sp, |sp|, n);
  }

  /** The scan is leftmost and non-overlapping. */
  lemma {:induction false} SpansAreScan(s: string)
    ensures IsScanFrom(MatchLength, s, Spans(s), 0)
    decreases |s|
  {
    if s != [] {
      SpansAreScan(s[Advance(s)..]);
      if MatchLength(s) == 0 {
        SkipIsScan(s);
      } else {
        MatchIsScan(s);
      }
    }
  }

  /** Spans when no match starts at position 0. */
  lemma {:induction false} SpansSkip(s: string)
    requires s != [] && MatchLength(s) == 0
    ensures Spans(s) == Shift(Spans(s[1..]), 1)
  {
  }

  /** The scan step when no match starts at position 0. */
  lemma {:induction false} SkipIsScan(s: string)
    requires s != [] && MatchLength(s) == 0
    requires IsScanFrom(MatchLength, s[1..], Spans(s[1..]), 0)
    ensures IsScanFrom(MatchLength, s, Spans(s), 0)
  {
    var inner := Spans(s[1..]);
    ShiftScan(MatchLength, s, 1, inner, 0);
    ScanSkip(MatchLength, s, Shift(inner, 1));
    SpansSkip(s);
  }

  /** The scan step when a match of length n starts at position 0. */
  lemma {:induction false} MatchIsScan(s: string)
    requires s != [] && MatchLength(s) > 0
    requires IsScanFrom(MatchLength, s[MatchLength(s)..], Spans(s[MatchLength(s)..]), 0)
    ensures IsScanFrom(MatchLength, s, Spans(s), 0)
  {
    var n := MatchLength(s);
    var inner := Spans(s[n..]);
    ShiftScan(MatchLength, s, n, inner, 0);
    assert Spans(s) == [(0, n)] + Shift(inner, n);
    ScanCons(MatchLength, s, n, Shift(inner, n));
  }

  /** The spans cut out exactly the substrings re.findall returns. */
  predicate SpansHold(s: string) {
    && |Spans(s)| == |FindAll(s)|
    && forall k :: 0 <= k < |Spans(s)| ==>
         Spans(s)[k].0 <= Spans(s)[k].1 <= |s| && s[Spans(s)[k].0..Spans(s)[k].1] == FindAll(s)[k]
  }

  /** The spans hold exactly the substrings re.findall returns. */
  lemma {:induction false} SpansHoldMatches(s: string)
    ensures SpansHold(s)
    decreases |s|
  {
    if s != [] {
      var d := Advance(s);
      SpansHoldMatches(s[d..]);
      ShiftedSpansHold(s, d);
      HoldStep(s);
    }
  }

  /** One scan step of SpansHoldMatches. */
  lemma {:induction false} HoldStep(s: string)
    requires s != []
    requires SpansHold(s[Advance(s)..])
    requires var d := Advance(s); forall k :: 0 <= k < |Spans(s[d..])| ==>
              var sh := Shift(Spans(s[d..]), d);
              sh[k].0 <= sh[k].1 <= |s| && s[sh[k].0..sh[k].1] == FindAll(s[d..])[k]
    ensures SpansHold(s)
  {
    var d, h := Advance(s), |Head(s)|;
    var sh, ms := Shift(Spans(s[d..]), d), FindAll(s[d..]);
    FindAllStep(s);
    SpansStep(s);
    forall k | 0 <= k < |Spans(s)|
      ensures Spans(s)[k].0 <= Spans(s)[k].1 <= |s| && s[Spans(s)[k].0..Spans(s)[k].1] == FindAll(s)[k]
    {
      if k < h {
        assert Spans(s)[k] == (0, d) && FindAll(s)[k] == s[..d];
      } else {
        assert Spans(s)[k] == sh[k - h] && FindAll(s)[k] == ms[k - h];
      }
    }
  }

  /** The span of the match at the start of a non-empty text, if there is one. */
  function HeadSpan(s: string): (h: seq<(nat, nat)>)
    requires s != []
    ensures |h| == |Head(s)|
  {
    if MatchLength(s) == 0 then [] else [(0, MatchLength(s))]
  }

  /** One step of the span scan. */
  lemma SpansStep(s: string)
    requires s != []
    ensures Spans(s) == HeadSpan(s) + Shift(Spans(s[Advance(s)..]), Advance(s))
  {
    if MatchLength(s) == 0 {
      assert HeadSpan(s) + Shift(Spans(s[1..]), 1) == Shift(Spans(s[1..]), 1);
    }
  }

  lemma {:induction false} SliceOfSuffix(s: string, d: nat, i: nat, j: nat)
    requires d <= |s| && i <= j <= |s| - d
    ensures s[d..][i..j] == s[i + d..j + d]
  {
  }

  /** The spans of a suffix, moved to its position, cut the same substrings out of the whole. */
  lemma {:induction false} ShiftedSpansHold(s: string, d: nat)
    requires d <= |s|
    requires SpansHold(s[d..])
    ensures forall k :: 0 <= k < |Spans(s[d..])| ==>
              var sh := Shift(Spans(s[d..]), d);
              sh[k].0 <= sh[k].1 <= |s| && s[sh[k].0..sh[k].1] == FindAll(s[d..])[k]
  {
    var t := s[d..];
    var inner := Spans(t);
    var sh := Shift(inner, d);
    forall k | 0 <= k < |inner|
      ensures sh[k].0 <= sh[k].1 <= |s| && s[sh[k].0..sh[k].1] == FindAll(t)[k]
    {
      var i, j := inner[k].0, inner[k].1;
      assert i <= j <= |t| && t[i..j] == FindAll(t)[k];
      assert sh[k] == (i + d, j + d);
      SliceOfSuffix(s, d, i, j);
    }
  }

  // ---------------------------------------------------------------------------
  // What the scan finds in particular shapes of text
  // ---------------------------------------------------------------------------

  lemma {:induction false} DigitRunOf(p: string, rest: string)
    requires Digits(p)
    requires rest == [] || !IsDigit(rest[0])
    ensures DigitRun(p + rest) == |p|
    decreases |p|
  {
    if p != [] {
      assert (p + rest)[1..] == p[1..] + rest;
      DigitRunOf(p[1..], rest);
    } else {
      assert p + rest == rest;
    }
  }

  /** A character that is not a digit never starts a match and is skipped. */
  lemma {:induction false} SkipNonDigit(c: char, rest: string)
    requires !IsDigit(c)
    ensures FindAll([c] + rest) == FindAll(rest)
  {
    assert ([c] + rest)[1..] == rest;
  }

  /** `p-q` followed by a non-digit is one range token: the range form wins over `p` alone. */
  lemma {:induction false} RangeTokenFirst(p: string, q: string, rest: string)
    requires AllDigits(p) && AllDigits(q)
    requires rest == [] || !IsDigit(rest[0])
    ensures FindAll(p + "-" + q + rest) == [p + "-" + q] + FindAll(rest)
  {
    var s := p + "-" + q + rest;
    assert s == p + ("-" + q + rest);
    DigitRunOf(p, "-" + q + rest);
    assert s[|p|] == '-' && s[|p| + 1] == q[0];
    assert s[|p| + 1..] == q + rest;
    DigitRunOf(q, rest);
    assert MatchLength(s) == |p| + 1 + |q|;
    assert s[..|p| + 1 + |q|] == p + "-" + q;
    assert s[|p| + 1 + |q|..] == rest;
  }

  /** A digit run that is not followed by `-digit` is one number token. */
  lemma {:induction false} NumberToken(p: string, rest: string)
    requires AllDigits(p)
    requires rest == [] || (!IsDigit(rest[0]) && !(rest[0] == '-' && |rest| > 1 && IsDigit(rest[1])))
    ensures FindAll(p + rest) == [p] + FindAll(rest)
  {
    var s := p + rest;
    DigitRunOf(p, rest);
    if rest != [] {
      assert s[|p|] == rest[0];
      if |rest| > 1 {
        assert s[|p| + 1] == rest[1];
      }
    }
    assert MatchLength(s) == |p|;
    assert s[..|p|] == p && s[|p|..] == rest;
  }

  /** A separator (neither a digit nor '-') splits the text: the tokens of the
      whole are the tokens on its left followed by the tokens on its right. */
  lemma {:induction false} SeparatorSplits(a: string, c: char, b: string)
    requires !IsDigit(c) && c != '-'
    ensures FindAll(a + [c] + b) == FindAll(a) + FindAll(b)
    decreases |a|
  {
    if a == [] {
      assert a + [c] + b == [c] + b;
      SkipNonDigit(c, b);
    } else {
      SeparatorSplits(a[Advance(a)..], c, b);
      SeparatorStep(a, c, b);
    }
  }

  /** Where the scan resumes after looking at the start of a non-empty text. */
  function Advance(a: string): (d: nat)
    requires a != []
    ensures 1 <= d <= |a|
  {
    if MatchLength(a) == 0 then 1 else MatchLength(a)
  }

  /** One scan step of SeparatorSplits: the first match of the text lies before the separator. */
  lemma {:induction false} SeparatorStep(a: string, c: char, b: string)
    requires !IsDigit(c) && c != '-' && a != []
    requires FindAll(a[Advance(a)..] + [c] + b) == FindAll(a[Advance(a)..]) + FindAll(b)
    ensures FindAll(a + [c] + b) == FindAll(a) + FindAll(b)
  {
    var d := Advance(a);
    HeadBeforeSeparator(a, c, b);
    FindAllStep(a + [c] + b);
    FindAllStep(a);
    Regroup(Head(a), FindAll(a[d..]), FindAll(b));
  }

  lemma Regroup(h: seq<string>, x: seq<string>, y: seq<string>)
    ensures h + (x + y) == (h + x) + y
  {
  }

  /** Appending a separator and more text changes neither the first match nor where the scan resumes. */
  lemma HeadBeforeSeparator(a: string, c: char, b: string)
    requires !IsDigit(c) && c != '-' && a != []
    ensures Head(a + [c] + b) == Head(a)
    ensures (a + [c] + b)[Advance(a + [c] + b)..] == a[Advance(a)..] + [c] + b
  {
    var s, n := a + [c] + b, MatchLength(a);
    MatchBeforeSeparator(a, c, b);
    if n != 0 {
      assert s[..n] == a[..n];
    }
  }

  /** The match at the start of a non-empty text, if there is one. */
  function Head(s: string): (h: seq<string>)
    requires s != []
    ensures |h| <= 1
  {
    if MatchLength(s) == 0 then [] else [s[..MatchLength(s)]]
  }

  /** One step of the scan: the match at the start, then the scan of the rest. */
  lemma FindAllStep(s: string)
    requires s != []
    ensures FindAll(s) == Head(s) + FindAll(s[Advance(s)..])
  {
    if MatchLength(s) == 0 {
      assert Head(s) + FindAll(s[1..]) == FindAll(s[1..]);
    }
  }

  /** The match at the start of a text does not reach past a separator. */
  lemma {:induction false} MatchBeforeSeparator(a: string, c: char, b: string)
    requires !IsDigit(c) && c != '-' && a != []
    ensures MatchLength(a + [c] + b) == MatchLength(a)
  {
    var s := a + [c] + b;
    var ra := DigitRun(a);
    DigitRunPrefix(a, c, b);
    if ra > 0 && ra + 1 < |s| && s[ra] == '-' && IsDigit(s[ra + 1]) {
      assert ra + 1 < |a|;
      assert s[ra + 1..] == a[ra + 1..] + [c] + b;
      DigitRunPrefix(a[ra + 1..], c, b);
    }
  }

  lemma {:induction false} DigitRunPrefix(a: string, c: char, b: string)
    requires !IsDigit(c)
    ensures DigitRun(a + [c] + b) == DigitRun(a)
    decreases |a|
  {
    if a == [] {
      assert a + [c] + b == [c] + b;
    } else {
      assert (a + [c] + b)[1..] == a[1..] + [c] + b;
      DigitRunPrefix(a[1..], c, b);
    }
  }

  // ---------------------------------------------------------------------------
  // The numbers a token contributes, and the result
  // ---------------------------------------------------------------------------

  /** range(start, end + 1) as a set: empty when start > end. */
  function RangeSet(start: nat, end: nat): (r: set<nat>)
    ensures forall x: nat :: x in r <==> start <= x <= end
    ensures start > end ==> r == {}
    decreases end
  {
    if start > end then {} else if end == 0 then {0} else RangeSet(start, end - 1) + {end}
  }

  /** What one match adds to `numbers` (forms.py:24-28). */
  function Contribution(m: string): set<nat>
    requires IsToken(m)
  {
    var d := DashIndex(m);
    if d < |m| then RangeSet(ParseNat(m[..d]), ParseNat(m[d + 1..])) else {ParseNat(m)}
  }

  /** The set accumulated from a sequence of matches. */
  function NumbersOf(ms: seq<string>): set<nat>
    requires forall i :: 0 <= i < |ms| ==> IsToken(ms[i])
  {
    if ms == [] then {} else NumbersOf(ms[..|ms| - 1]) + Contribution(ms[|ms| - 1])
  }

  /** The set of numbers the form denotes for a given text. */
  function Numbers(data: string): set<nat> {
    FindAllTokens(data);
    NumbersOf(FindAll(data))
  }

  /** Accumulating one more match adds its contribution. */
  lemma NumbersOfPrefix(ms: seq<string>, i: nat)
    requires forall k :: 0 <= k < |ms| ==> IsToken(ms[k])
    requires i < |ms|
    ensures NumbersOf(ms[..i + 1]) == NumbersOf(ms[..i]) + Contribution(ms[i])
  {
    assert ms[..i + 1][..i] == ms[..i];
  }

  /** A number is in the result exactly when some match contributes it. */
  lemma {:induction false} NumbersOfMembers(ms: seq<string>, x: nat)
    requires forall i :: 0 <= i < |ms| ==> IsToken(ms[i])
    ensures x in NumbersOf(ms) <==> exists i :: 0 <= i < |ms| && x in Contribution(ms[i])
  {
    if x in NumbersOf(ms) {
      var i := NumbersOfSource(ms, x);
    }
    if exists i :: 0 <= i < |ms| && x in Contribution(ms[i]) {
      var i :| 0 <= i < |ms| && x in Contribution(ms[i]);
      NumbersOfHas(ms, i, x);
    }
  }

  /** Every number of the result comes from some match. */
  lemma {:induction false} NumbersOfSource(ms: seq<string>, x: nat) returns (i: nat)
    requires forall k :: 0 <= k < |ms| ==> IsToken(ms[k])
    requires x in NumbersOf(ms)
    ensures i < |ms| && x in Contribution(ms[i])
  {
    var init := ms[..|ms| - 1];
    if x in NumbersOf(init) {
      i := NumbersOfSource(init, x);
      assert ms[i] == init[i];
    } else {
      i := |ms| - 1;
    }
  }

  /** Every number a match contributes is in the result. */
  lemma {:induction false} NumbersOfHas(ms: seq<string>, i: nat, x: nat)
    requires forall k :: 0 <= k < |ms| ==> IsToken(ms[k])
    requires i < |ms| && x in Contribution(ms[i])
    ensures x in NumbersOf(ms)
  {
    var init := ms[..|ms| - 1];
    if i < |ms| - 1 {
      assert init[i] == ms[i];
      NumbersOfHas(init, i, x);
    }
  }

  /** `a-b` contributes a..b inclusive (nothing when a > b). */
  lemma {:induction false} TokenContribution(p: string, q: string)
    requires AllDigits(p) && AllDigits(q)
    ensures IsToken(p + "-" + q)
    ensures Contribution(p + "-" + q) == RangeSet(ParseNat(p), ParseNat(q))
  {
    var m := p + "-" + q;
    assert m[|p|] == '-';
    assert DashIndex(m) == |p|;
    assert m[..|p|] == p && m[|p| + 1..] == q;
  }

  /** A plain number contributes itself. */
  lemma {:induction false} NumberContribution(p: string)
    requires AllDigits(p)
    ensures IsToken(p) && Contribution(p) == {ParseNat(p)}
  {
    assert DashIndex(p) == |p|;
    assert p[..|p|] == p;
  }

  // ---------------------------------------------------------------------------
  // sorted() of a set of numbers
  // ---------------------------------------------------------------------------

  predicate StrictlyIncreasing(r: seq<nat>) {
    forall i, j :: 0 <= i < j < |r| ==> r[i] < r[j]
  }

  /** Insert x at its place in a strictly increasing sequence that lacks it. */
  function Insert(r: seq<nat>, x: nat): (r': seq<nat>)
    requires StrictlyIncreasing(r) && x !in r
    ensures StrictlyIncreasing(r')
    ensures forall y :: y in r' <==> y in r || y == x
    ensures |r'| == |r| + 1
  {
    if r == [] || x < r[0] then [x] + r
    else
      var t := Insert(r[1..], x);
      assert r[0] in r;
      forall j | 0 <= j < |t|
        ensures r[0] < t[j]
      {
        if t[j] != x {
          assert t[j] in t;
          var i :| 0 <= i < |r[1..]| && r[1..][i] == t[j];
          assert r[i + 1] == t[j];
        }
      }
      [r[0]] + t
  }

  /** A strictly increasing sequence is determined by its elements: sorted(s) has one possible value. */
  lemma {:induction false} SortedUnique(a: seq<nat>, b: seq<nat>)
    requires StrictlyIncreasing(a) && StrictlyIncreasing(b)
    requires forall x :: x in a <==> x in b
    ensures a == b
    decreases |a|
  {
    assert a != [] ==> a[0] in b;
    assert b != [] ==> b[0] in a;
    if a != [] && b != [] {
      assert a[0] == b[0];
      forall x
        ensures x in a[1..] <==> x in b[1..]
      {
        if x in a[1..] {
          assert x in b && x != b[0];
        }
        if x in b[1..] {
          assert x in a && x != a[0];
        }
      }
      SortedUnique(a[1..], b[1..]);
    }
  }

  /** sorted(numbers): the elements of the set in increasing order. */
  method Sorted(numbers: set<nat>) returns (r: seq<nat>)
    ensures StrictlyIncreasing(r)
    ensures forall x :: x in r <==> x in numbers
  {
    r := [];
    var rest := numbers;
    while rest != {}
      invariant rest <= numbers
      invariant StrictlyIncreasing(r)
      invariant forall x :: x in r <==> x in numbers && x !in rest
      decreases rest
    {
      var x :| x in rest;
      r := Insert(r, x);
      rest := rest - {x};
    }
  }

  /** RangeInputForm.clean_raw_number_list: the numbers the text denotes, sorted and without duplicates. */
  method CleanRawNumberList(data: string) returns (r: seq<nat>)
    ensures StrictlyIncreasing(r)
    ensures forall x :: x in r <==> x in Numbers(data)
  {
    var matches := FindAll(data);
    FindAllTokens(data);
    var numbers: set<nat> := {};
    for i := 0 to |matches|
      invariant numbers == NumbersOf(matches[..i])
    {
      var m := matches[i];
      NumbersOfPrefix(matches, i);
      var d := DashIndex(m);
      if d < |m| {
        var start, end := ParseNat(m[..d]), ParseNat(m[d + 1..]);
        numbers := numbers + RangeSet(start, end);
      } else {
        numbers := numbers + {ParseNat(m)};
      }
    }
    assert matches[..|matches|] == matches;
    r := Sorted(numbers);
  }

  // ---------------------------------------------------------------------------
  // Worked inputs
  // ---------------------------------------------------------------------------

  /** "1-2-3": the range form wins at "1", then "-" is skipped and "3" stands alone. */
  lemma {:induction false} RangeWinsExample(s: string)
    requires s == "1-2-3"
    ensures FindAll(s) == ["1-2", "3"]
  {
    assert AllDigits("1") && AllDigits("2");
    assert s == "1" + "-" + "2" + "-3";
    RangeTokenFirst("1", "2", "-3");
    assert "1" + "-" + "2" == "1-2";
    TokensOfDash3();
  }

  /** "-3": the dash is skipped. */
  lemma {:induction false} TokensOfDash3()
    ensures FindAll("-3") == ["3"]
  {
    assert "-3" == ['-'] + "3";
    SkipNonDigit('-', "3");
    TokensOf3();
  }

  lemma {:induction false} TokensOf3()
    ensures FindAll("3") == ["3"]
  {
    assert AllDigits("3");
    assert "3" + "" == "3";
    NumberToken("3", "");
    assert FindAll("") == [];
  }

  /** A lone range token. */
  lemma {:induction false} RangeTokenAlone(p: string, q: string)
    requires AllDigits(p) && AllDigits(q)
    ensures FindAll(p + "-" + q) == [p + "-" + q]
  {
    RangeTokenFirst(p, q, "");
    assert p + "-" + q + "" == p + "-" + q;
    assert FindAll("") == [];
  }

  /** A number followed by a separator. */
  lemma {:induction false} NumberThenSeparator(p: string, c: char, rest: string)
    requires AllDigits(p) && !IsDigit(c) && c != '-'
    ensures FindAll(p + [c] + rest) == [p] + FindAll(rest)
  {
    assert p + [c] + rest == p + ([c] + rest);
    NumberToken(p, [c] + rest);
    SkipNonDigit(c, rest);
  }

  lemma {:induction false} ParseOneDigit(c: char)
    requires IsDigit(c)
    ensures Digits([c]) && ParseNat([c]) == DigitValue(c)
  {
    assert [c][..0] == [];
  }

  lemma {:induction false} TokensOf13()
    ensures FindAll("1-3") == ["1-3"]
  {
    assert AllDigits("1") && AllDigits("3");
    RangeTokenAlone("1", "3");
    assert "1" + "-" + "3" == "1-3";
  }

  lemma {:induction false} TokensOf58()
    ensures FindAll("5-8") == ["5-8"]
    ensures FindAll(" 5-8") == ["5-8"]
  {
    assert AllDigits("5") && AllDigits("8");
    RangeTokenAlone("5", "8");
    assert "5" + "-" + "8" == "5-8";
    assert " 5-8" == [' '] + "5-8";
    SkipNonDigit(' ', "5-8");
  }

  /** The form's help text "1-3, 5-8" is scanned as two range tokens. */
  lemma {:induction false} HelpTextTokens()
    ensures FindAll("1-3, 5-8") == ["1-3", "5-8"]
  {
    assert "1-3, 5-8" == "1-3" + [','] + " 5-8";
    SeparatorSplits("1-3", ',', " 5-8");
    TokensOf13();
    TokensOf58();
  }

  lemma {:induction false} ContributionOf13()
    ensures IsToken("1-3") && Contribution("1-3") == RangeSet(1, 3)
  {
    assert AllDigits("1") && AllDigits("3");
    TokenContribution("1", "3");
    assert "1" + "-" + "3" == "1-3";
    ParseOneDigit('1');
    ParseOneDigit('3');
  }

  lemma {:induction false} ContributionOf58()
    ensures IsToken("5-8") && Contribution("5-8") == RangeSet(5, 8)
  {
    assert AllDigits("5") && AllDigits("8");
    TokenContribution("5", "8");
    assert "5" + "-" + "8" == "5-8";
    ParseOneDigit('5');
    ParseOneDigit('8');
  }

  /** "1-3, 5-8" denotes 1..3 and 5..8. */
  lemma {:induction false} HelpTextNumbers()
    ensures Numbers("1-3, 5-8") == RangeSet(1, 3) + RangeSet(5, 8)
  {
    HelpTextTokens();
    ContributionOf13();
    ContributionOf58();
    NumbersOfPair("1-3", "5-8");
  }

  /** Two matches contribute the union of their numbers. */
  lemma {:induction false} NumbersOfPair(a: string, b: string)
    requires IsToken(a) && IsToken(b)
    ensures NumbersOf([a, b]) == Contribution(a) + Contribution(b)
  {
    var ms := [a, b];
    NumbersOfPrefix(ms, 0);
    NumbersOfPrefix(ms, 1);
    assert ms[..0] == [] && ms[..1] == [a] && ms[..2] == ms;
  }

  lemma {:induction false} SortedOfHelpTextRanges(r: seq<nat>)
    requires StrictlyIncreasing(r)
    requires forall x :: x in r <==> x in RangeSet(1, 3) + RangeSet(5, 8)
    ensures r == [1, 2, 3, 5, 6, 7, 8]
  {
    var expected: seq<nat> := [1, 2, 3, 5, 6, 7, 8];
    assert forall x: nat :: x in expected <==> (1 <= x <= 3 || 5 <= x <= 8);
    SortedUnique(r, expected);
  }

  /** The form's help text "1-3, 5-8" yields [1, 2, 3, 5, 6, 7, 8]: the only
      strictly increasing list holding its numbers, as CleanRawNumberList returns. */
  lemma {:induction false} HelpTextExample(r: seq<nat>)
    requires StrictlyIncreasing(r)
    requires forall x :: x in r <==> x in Numbers("1-3, 5-8")
    ensures r == [1, 2, 3, 5, 6, 7, 8]
  {
    HelpTextNumbers();
    SortedOfHelpTextRanges(r);
  }

  lemma {:induction false} TokensOfX3()
    ensures FindAll(" x3") == ["3"]
  {
    assert AllDigits("3");
    assert " x3" == [' '] + "x3";
    SkipNonDigit(' ', "x3");
    assert "x3" == ['x'] + "3";
    SkipNonDigit('x', "3");
    TokensOf3();
  }

  lemma {:induction false} TokensOf2X3()
    ensures FindAll(" 2; x3") == ["2", "3"]
  {
    assert AllDigits("2");
    assert " 2; x3" == [' '] + "2; x3";
    SkipNonDigit(' ', "2; x3");
    assert "2; x3" == "2" + [';'] + " x3";
    NumberThenSeparator("2", ';', " x3");
    TokensOfX3();
  }

  /** "1, 2; x3": the characters around the numbers are ignored. */
  lemma {:induction false} SeparatorsExample()
    ensures FindAll("1, 2; x3") == ["1", "2", "3"]
  {
    assert AllDigits("1");
    assert "1, 2; x3" == "1" + [','] + " 2; x3";
    NumberThenSeparator("1", ',', " 2; x3");
    TokensOf2X3();
  }

  /** "007" is one token. */
  lemma {:induction false} TokensOf007()
    ensures FindAll("007") == ["007"]
  {
    assert AllDigits("007");
    NumberToken("007", "");
    assert "007" + "" == "007";
    assert FindAll("") == [];
  }

  /** Leading zeros are ignored: the token "007" stands for 7. */
  lemma {:induction false} LeadingZerosExample()
    ensures IsToken("007") && Contribution("007") == {7}
  {
    assert AllDigits("007");
    ParseNatLeadingZero("7");
    ParseNatLeadingZero("07");
    assert "0" + "07" == "007" && "0" + "7" == "07";
    ParseOneDigit('7');
    NumberContribution("007");
  }
}
