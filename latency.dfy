/**
 * `parse_dnsperf_output`: the average latency, in milliseconds, read from dnsperf's report.
 * Two report formats are recognised: dnsperf 2.14's `Average Latency (s):  0.00818` (seconds,
 * matched case-sensitively) and the older `Average latency:  8.18 ms` (milliseconds, matched
 * ignoring case).
 */
module Latency {
  import opened Wrappers
  import opened Text

  /** A character of the capture class `[\d\.]`. */
  predicate IsNumberChar(c: char) { IsDigit(c) || c == '.' }

  predicate AllNumberChars(s: string) { forall k :: 0 <= k < |s| ==> IsNumberChar(s[k]) }

  /** Where the longest run of whitespace starting at `i` ends (`\s*` is greedy); see `SkipSpacesFacts`. */
  function SkipSpaces(s: string, i: nat): (j: nat)
    requires i <= |s|
    ensures i <= j <= |s|
    decreases |s| - i
  {
    if i < |s| && IsSpace(s[i]) then SkipSpaces(s, i + 1) else i
  }

  /** Where the longest run of `[\d\.]` starting at `i` ends; see `NumberRunFacts`. */
  function NumberRun(s: string, i: nat): (j: nat)
    requires i <= |s|
    ensures i <= j <= |s|
    decreases |s| - i
  {
    if i < |s| && IsNumberChar(s[i]) then NumberRun(s, i + 1) else i
  }

  /** The skipped run is all whitespace and stops at the end or at a character that is not. */
  lemma {:induction false} SkipSpacesFacts(s: string, i: nat)
    requires i <= |s|
    ensures var j := SkipSpaces(s, i);
      (j == |s| || !IsSpace(s[j])) && forall k :: i <= k < j ==> IsSpace(s[k])
    decreases |s| - i
  {
    if i < |s| && IsSpace(s[i]) {
      SkipSpacesFacts(s, i + 1);
    }
  }

  /** The number run is all `[\d\.]` and stops at the end or at a character that is not. */
  lemma {:induction false} NumberRunFacts(s: string, i: nat)
    requires i <= |s|
    ensures var j := NumberRun(s, i);
      (j == |s| || !IsNumberChar(s[j])) && forall k :: i <= k < j ==> IsNumberChar(s[k])
    decreases |s| - i
  {
    if i < |s| && IsNumberChar(s[i]) {
      NumberRunFacts(s, i + 1);
    }
  }

  /** A run that ends at `j` is the longest run of spaces from `i`, whatever computes it. */
  lemma {:induction false} SkipSpacesAt(s: string, i: nat, j: nat)
    requires i <= j <= |s|
    requires forall k :: i <= k < j ==> IsSpace(s[k])
    requires j == |s| || !IsSpace(s[j])
    ensures SkipSpaces(s, i) == j
    decreases j - i
  {
    if i < j {
      SkipSpacesAt(s, i + 1, j);
    }
  }

  lemma {:induction false} NumberRunAt(s: string, i: nat, j: nat)
    requires i <= j <= |s|
    requires forall k :: i <= k < j ==> IsNumberChar(s[k])
    requires j == |s| || !IsNumberChar(s[j])
    ensures NumberRun(s, i) == j
    decreases j - i
  {
    if i < j {
      NumberRunAt(s, i + 1, j);
    }
  }

  const SECONDS_LABEL: string := "Average Latency"
  const SECONDS_UNIT: string := "(s):"
  const MS_LABEL: string := "average latency:"
  const MS_UNIT: string := "ms"

  /**
   * `re.IGNORECASE` on a pattern character that is lower-case ASCII or punctuation: the
   * character itself, its upper-case form, and for `s` also U+017F LATIN SMALL LETTER LONG S.
   */
  predicate FoldMatch(c: char, p: char) {
    c == p || ('a' <= p <= 'z' && c as int == p as int - 32) || (p == 's' && c == '\U{17F}')
  }

  predicate FoldEq(t: string, pattern: string) {
    |t| == |pattern| && forall k :: 0 <= k < |t| ==> FoldMatch(t[k], pattern[k])
  }

  /** The literal `lit` stands in `s` at `i`. */
  predicate LiteralAt(s: string, i: nat, lit: string) {
    i + |lit| <= |s| && s[i..i + |lit|] == lit
  }

  /** The literal `lit` stands in `s` at `i`, ignoring case. */
  predicate FoldedAt(s: string, i: nat, lit: string) {
    i + |lit| <= |s| && FoldEq(s[i..i + |lit|], lit)
  }

  /** The two regular expressions of the parser. */
  datatype Pattern =
    | SecondsPattern  // Average Latency\s*\(s\):\s+([\d\.]+)
    | MsPattern       // Average latency:\s+([\d\.]+)\s*ms, ignoring case

  /** The capture group of `p` matched at `i` (each quantifier takes the longest run it can). */
  function MatchAt(p: Pattern, s: string, i: nat): (g: Option<string>)
    requires i <= |s|
    ensures g.Some? ==> g.value != [] && AllNumberChars(g.value)
  {
    match p
    case SecondsPattern => SecondsMatchAt(s, i)
    case MsPattern => MsMatchAt(s, i)
  }

  function SecondsMatchAt(s: string, i: nat): (g: Option<string>)
    requires i <= |s|
    ensures g.Some? ==> g.value != [] && AllNumberChars(g.value)
  {
    if !LiteralAt(s, i, SECONDS_LABEL) then None
    else
      var j := SkipSpaces(s, i + |SECONDS_LABEL|);
      if !LiteralAt(s, j, SECONDS_UNIT) then None
      else
        var k := SkipSpaces(s, j + |SECONDS_UNIT|);
        var e := NumberRun(s, k);
        if k == j + |SECONDS_UNIT| || e == k then None
        else
          NumberRunFacts(s, k);
          Some(s[k..e])
  }

  function MsMatchAt(s: string, i: nat): (g: Option<string>)
    requires i <= |s|
    ensures g.Some? ==> g.value != [] && AllNumberChars(g.value)
  {
    if !FoldedAt(s, i, MS_LABEL) then None
    else
      var j := SkipSpaces(s, i + |MS_LABEL|);
      var e := NumberRun(s, j);
      var k := SkipSpaces(s, e);
      if j == i + |MS_LABEL| || e == j then None
      else if FoldedAt(s, k, MS_UNIT) then
        NumberRunFacts(s, j);
        Some(s[j..e])
      else None
  }

  /**
   * The seconds line read off positions: the label at `i`, spaces up to `j`, `(s):`, at least
   * one space up to `k`, and the number `s[k..e]`, which no further `[\d\.]` extends.
   */
  predicate SecondsShape(s: string, i: nat, j: nat, k: nat, e: nat) {
    && i + |SECONDS_LABEL| <= j && j + |SECONDS_UNIT| < k < e <= |s|
    && s[i..i + |SECONDS_LABEL|] == SECONDS_LABEL
    && (forall m :: i + |SECONDS_LABEL| <= m < j ==> IsSpace(s[m]))
    && s[j..j + |SECONDS_UNIT|] == SECONDS_UNIT
    && (forall m :: j + |SECONDS_UNIT| <= m < k ==> IsSpace(s[m]))
    && (forall m :: k <= m < e ==> IsNumberChar(s[m]))
    && (e == |s| || !IsNumberChar(s[e]))
  }

  /**
   * The milliseconds line read off positions: the label in any case at `i`, at least one
   * space up to `j`, the number `s[j..e]`, spaces up to `k`, then `ms` in any case.
   */
  predicate MsShape(s: string, i: nat, j: nat, e: nat, k: nat) {
    && i + |MS_LABEL| < j < e <= k && k + |MS_UNIT| <= |s|
    && FoldEq(s[i..i + |MS_LABEL|], MS_LABEL)
    && (forall m :: i + |MS_LABEL| <= m < j ==> IsSpace(s[m]))
    && (forall m :: j <= m < e ==> IsNumberChar(s[m]))
    && (forall m :: e <= m < k ==> IsSpace(s[m]))
    && FoldEq(s[k..k + |MS_UNIT|], MS_UNIT)
  }

  /** The seconds pattern read off the quantities `MatchAt` computes. */
  lemma SecondsMatchOf(s: string, i: nat, j: nat, k: nat, e: nat)
    requires LiteralAt(s, i, SECONDS_LABEL) && j == SkipSpaces(s, i + |SECONDS_LABEL|)
    requires LiteralAt(s, j, SECONDS_UNIT) && k == SkipSpaces(s, j + |SECONDS_UNIT|)
    requires e == NumberRun(s, k) && k != j + |SECONDS_UNIT| && e != k
    ensures MatchAt(SecondsPattern, s, i) == Some(s[k..e])
  {
  }

  /** The milliseconds pattern read off the quantities `MatchAt` computes. */
  lemma MsMatchOf(s: string, i: nat, j: nat, e: nat, k: nat)
    requires FoldedAt(s, i, MS_LABEL) && j == SkipSpaces(s, i + |MS_LABEL|)
    requires e == NumberRun(s, j) && k == SkipSpaces(s, e)
    requires j != i + |MS_LABEL| && e != j && FoldedAt(s, k, MS_UNIT)
    ensures MatchAt(MsPattern, s, i) == Some(s[j..e])
  {
  }

  lemma SecondsShapeMatches(s: string, i: nat, j: nat, k: nat, e: nat)
    requires SecondsShape(s, i, j, k, e)
    ensures MatchAt(SecondsPattern, s, i) == Some(s[k..e])
  {
    assert s[j] == SECONDS_UNIT[0];
    SkipSpacesAt(s, i + |SECONDS_LABEL|, j);
    assert IsNumberChar(s[k]);
    SkipSpacesAt(s, j + |SECONDS_UNIT|, k);
    NumberRunAt(s, k, e);
    SecondsMatchOf(s, i, j, k, e);
  }

  /** The positions `MatchAt` computes for a seconds match have the seconds shape. */
  lemma SecondsShapeOf(s: string, i: nat, j: nat, k: nat, e: nat)
    requires LiteralAt(s, i, SECONDS_LABEL) && j == SkipSpaces(s, i + |SECONDS_LABEL|)
    requires LiteralAt(s, j, SECONDS_UNIT) && k == SkipSpaces(s, j + |SECONDS_UNIT|)
    requires e == NumberRun(s, k) && k != j + |SECONDS_UNIT| && e != k
    ensures SecondsShape(s, i, j, k, e)
  {
    SkipSpacesFacts(s, i + |SECONDS_LABEL|);
    SkipSpacesFacts(s, j + |SECONDS_UNIT|);
    NumberRunFacts(s, k);
    assert i + |SECONDS_LABEL| <= j && j + |SECONDS_UNIT| < k < e <= |s|;
    assert s[i..i + |SECONDS_LABEL|] == SECONDS_LABEL && s[j..j + |SECONDS_UNIT|] == SECONDS_UNIT;
  }

  lemma SecondsMatchHasShape(s: string, i: nat)
    requires i <= |s| && MatchAt(SecondsPattern, s, i).Some?
    ensures exists j: nat, k: nat, e: nat :: SecondsShape(s, i, j, k, e)
  {
    var j := SkipSpaces(s, i + |SECONDS_LABEL|);
    var k := SkipSpaces(s, j + |SECONDS_UNIT|);
    SecondsShapeOf(s, i, j, k, NumberRun(s, k));
  }

  /** The seconds pattern matches at `i` exactly when the text there has the seconds shape. */
  lemma SecondsMatchIsShape(s: string, i: nat)
    requires i <= |s|
    ensures MatchAt(SecondsPattern, s, i).Some? <==> exists j: nat, k: nat, e: nat :: SecondsShape(s, i, j, k, e)
    ensures forall j: nat, k: nat, e: nat :: SecondsShape(s, i, j, k, e) ==> MatchAt(SecondsPattern, s, i) == Some(s[k..e])
  {
    forall j: nat, k: nat, e: nat | SecondsShape(s, i, j, k, e) ensures MatchAt(SecondsPattern, s, i) == Some(s[k..e]) {
      SecondsShapeMatches(s, i, j, k, e);
    }
    if MatchAt(SecondsPattern, s, i).Some? {
      SecondsMatchHasShape(s, i);
    }
  }

  lemma MsShapeMatches(s: string, i: nat, j: nat, e: nat, k: nat)
    requires MsShape(s, i, j, e, k)
    ensures MatchAt(MsPattern, s, i) == Some(s[j..e])
  {
    assert IsNumberChar(s[j]);
    SkipSpacesAt(s, i + |MS_LABEL|, j);
    assert FoldMatch(s[k], 'm');
    assert e == k || IsSpace(s[e]);
    NumberRunAt(s, j, e);
    SkipSpacesAt(s, e, k);
    MsMatchOf(s, i, j, e, k);
  }

  /** The positions `MatchAt` computes for a milliseconds match have the ms shape. */
  lemma MsShapeOf(s: string, i: nat, j: nat, e: nat, k: nat)
    requires FoldedAt(s, i, MS_LABEL) && j == SkipSpaces(s, i + |MS_LABEL|)
    requires e == NumberRun(s, j) && k == SkipSpaces(s, e)
    requires j != i + |MS_LABEL| && e != j && FoldedAt(s, k, MS_UNIT)
    ensures MsShape(s, i, j, e, k)
  {
    SkipSpacesFacts(s, i + |MS_LABEL|);
    NumberRunFacts(s, j);
    SkipSpacesFacts(s, e);
    assert i + |MS_LABEL| < j < e <= k && k + |MS_UNIT| <= |s|;
    assert FoldEq(s[i..i + |MS_LABEL|], MS_LABEL) && FoldEq(s[k..k + |MS_UNIT|], MS_UNIT);
  }

  lemma MsMatchHasShape(s: string, i: nat)
    requires i <= |s| && MatchAt(MsPattern, s, i).Some?
    ensures exists j: nat, e: nat, k: nat :: MsShape(s, i, j, e, k)
  {
    var j := SkipSpaces(s, i + |MS_LABEL|);
    var e := NumberRun(s, j);
    MsShapeOf(s, i, j, e, SkipSpaces(s, e));
  }

  /** The milliseconds pattern matches at `i` exactly when the text there has the ms shape. */
  lemma MsMatchIsShape(s: string, i: nat)
    requires i <= |s|
    ensures MatchAt(MsPattern, s, i).Some? <==> exists j: nat, e: nat, k: nat :: MsShape(s, i, j, e, k)
    ensures forall j: nat, e: nat, k: nat :: MsShape(s, i, j, e, k) ==> MatchAt(MsPattern, s, i) == Some(s[j..e])
  {
    forall j: nat, e: nat, k: nat | MsShape(s, i, j, e, k) ensures MatchAt(MsPattern, s, i) == Some(s[j..e]) {
      MsShapeMatches(s, i, j, e, k);
    }
    if MatchAt(MsPattern, s, i).Some? {
      MsMatchHasShape(s, i);
    }
  }

  /** `re.search`'s scan: the least position in `from..n` where `hit` holds. */
  function FirstHit(hit: nat -> bool, n: nat, from: nat): (r: Option<nat>)
    requires from <= n
    ensures r.Some? ==> from <= r.value <= n && hit(r.value)
    ensures r.Some? ==> forall m :: from <= m < r.value ==> !hit(m)
    ensures r.None? ==> forall m :: from <= m <= n ==> !hit(m)
    decreases n - from
  {
    if hit(from) then Some(from)
    else if from == n then None
    else FirstHit(hit, n, from + 1)
  }

  /** The scan stops at the first position that hits. */
  lemma FirstHitIs(hit: nat -> bool, n: nat, from: nat, i: nat)
    requires from <= i <= n && hit(i)
    requires forall m :: from <= m < i ==> !hit(m)
    ensures FirstHit(hit, n, from) == Some(i)
  {
  }

  /** The positions of `s` where `p` matches. */
  function Hits(p: Pattern, s: string): nat -> bool {
    (m: nat) => m <= |s| && MatchAt(p, s, m).Some?
  }

  /** `re.search(p, s)`: the capture of the leftmost match of `p` in `s`, if any. */
  function Search(p: Pattern, s: string): (g: Option<string>)
    ensures g.Some? ==> g.value != [] && AllNumberChars(g.value)
  {
    match FirstHit(Hits(p, s), |s|, 0)
    case Some(i) => MatchAt(p, s, i)
    case None => None
  }

  /** If `p` first matches at `i`, the search returns that match's capture. */
  lemma SearchFindsFirst(p: Pattern, s: string, i: nat)
    requires i <= |s| && MatchAt(p, s, i).Some?
    requires forall m :: 0 <= m < i ==> MatchAt(p, s, m).None?
    ensures Search(p, s) == MatchAt(p, s, i)
  {
    var hit := Hits(p, s);
    assert hit(i);
    assert forall m :: 0 <= m < i ==> !hit(m);
    FirstHitIs(hit, |s|, 0, i);
  }

  /** The search finds nothing exactly when `p` matches nowhere. */
  lemma SearchFailsOnlyWithoutMatch(p: Pattern, s: string)
    ensures Search(p, s).None? <==> forall m :: 0 <= m <= |s| ==> MatchAt(p, s, m).None?
  {
    var hit := Hits(p, s);
    assert forall m :: 0 <= m <= |s| ==> (hit(m) <==> MatchAt(p, s, m).Some?);
  }

  function Pow10(n: nat): (p: nat)
    ensures p >= 1
  {
    if n == 0 then 1 else 10 * Pow10(n - 1)
  }

  /**
   * Python's `float()` on a capture of `[\d\.]+`: digits with at most one dot and at least one
   * digit; `None` where `float()` raises `ValueError` (`"."`, `"1.2.3"`).
   */
  function ParseDecimal(c: string): (v: Option<real>)
    requires AllNumberChars(c)
  {
    if '.' !in c then
      if c == [] then None else Some(NatValue(c) as real)
    else
      var d := IndexOf(c, '.');
      var whole, frac := c[..d], c[d + 1..];
      if '.' in frac || (whole == [] && frac == []) then None
      else Some(NatValue(whole) as real + NatValue(frac) as real / Pow10(|frac|) as real)
  }

  lemma {:induction false} NatValueZero(s: string)
    requires AllDigits(s)
    ensures NatValue(s) == 0 <==> forall k :: 0 <= k < |s| ==> s[k] == '0'
  {
    if s != [] {
      var init := s[..|s| - 1];
      NatValueZero(init);
      assert forall k :: 0 <= k < |init| ==> init[k] == s[k];
    }
  }

  predicate HasDigit(c: string) { exists k :: 0 <= k < |c| && IsDigit(c[k]) }

  predicate AtMostOneDot(c: string) { forall a, b :: 0 <= a < b < |c| && c[a] == '.' ==> c[b] != '.' }

  predicate AllZeroDigits(c: string) { forall k :: 0 <= k < |c| && IsDigit(c[k]) ==> c[k] == '0' }

  /** The parts around the first dot of a capture that has one. */
  lemma DotParts(c: string)
    requires AllNumberChars(c) && '.' in c
    ensures var d := IndexOf(c, '.');
      AllDigits(c[..d])
      && (forall k :: 0 <= k < d ==> c[k] == c[..d][k])
      && (forall k :: d < k < |c| ==> c[k] == c[d + 1..][k - d - 1])
      && ('.' !in c[d + 1..] ==> AllDigits(c[d + 1..]))
  {
    var d := IndexOf(c, '.');
    var whole, frac := c[..d], c[d + 1..];
    forall k | 0 <= k < |whole| ensures IsDigit(whole[k]) { assert whole[k] == c[k] && c[k] != '.'; }
    if '.' !in frac {
      forall k | 0 <= k < |frac| ensures IsDigit(frac[k]) { assert frac[k] == c[d + 1 + k] && frac[k] in frac; }
    }
  }

  /** `float()` accepts the capture exactly when it has at most one dot and some digit. */
  lemma ParseDecimalAccepts(c: string)
    requires AllNumberChars(c)
    ensures ParseDecimal(c).Some? <==> AtMostOneDot(c) && HasDigit(c)
  {
    if '.' !in c {
      assert AtMostOneDot(c);
      if c != [] { assert IsDigit(c[0]); }
    } else {
      DotParts(c);
      var d := IndexOf(c, '.');
      var whole, frac := c[..d], c[d + 1..];
      if '.' in frac {
        var b := d + 1 + IndexOf(frac, '.');
        assert c[d] == '.' && c[b] == '.';
      } else {
        assert AtMostOneDot(c) by {
          forall a, b | 0 <= a < b < |c| && c[a] == '.' ensures c[b] != '.' {
            assert c[b] == frac[b - d - 1];
          }
        }
        if whole == [] && frac == [] {
          assert |c| == 1;
        } else if whole != [] {
          assert IsDigit(c[0]);
        } else {
          assert IsDigit(c[d + 1]);
        }
      }
    }
  }

  lemma ZeroDigitsAroundDot(c: string, d: nat)
    requires d < |c| && c[d] == '.'
    ensures AllZeroDigits(c) <==> AllZeroDigits(c[..d]) && AllZeroDigits(c[d + 1..])
  {
    var whole, frac := c[..d], c[d + 1..];
    if AllZeroDigits(whole) && AllZeroDigits(frac) {
      forall k | 0 <= k < |c| && IsDigit(c[k]) ensures c[k] == '0' {
        if k < d { assert c[k] == whole[k]; } else { assert c[k] == frac[k - d - 1]; }
      }
    }
    if AllZeroDigits(c) {
      forall k | 0 <= k < |whole| && IsDigit(whole[k]) ensures whole[k] == '0' { assert whole[k] == c[k]; }
      forall k | 0 <= k < |frac| && IsDigit(frac[k]) ensures frac[k] == '0' { assert frac[k] == c[d + 1 + k]; }
    }
  }

  /** An accepted capture's value is never negative, and zero exactly when every digit is `0`. */
  lemma ParseDecimalZero(c: string)
    requires AllNumberChars(c) && ParseDecimal(c).Some?
    ensures ParseDecimal(c).value >= 0.0
    ensures ParseDecimal(c).value == 0.0 <==> AllZeroDigits(c)
  {
    if '.' !in c {
      assert AllDigits(c);
      NatValueZero(c);
    } else {
      DotParts(c);
      var d := IndexOf(c, '.');
      var whole, frac := c[..d], c[d + 1..];
      NatValueZero(whole);
      NatValueZero(frac);
      ZeroDigitsAroundDot(c, d);
    }
  }

  /** The value a capture gives in milliseconds, after the unit scaling; zero counts as a failure. */
  function Reading(g: string, scale: real): Option<real>
    requires AllNumberChars(g)
  {
    match ParseDecimal(g)
    case None => None
    case Some(v) => if v * scale == 0.0 then None else Some(v * scale)
  }

  /**
   * `parse_dnsperf_output` (dns_speed_test.py:163-192): no output gives no latency; a seconds line, when there is one, decides the
   * result alone (times 1000); otherwise a milliseconds line does; a zero reading is no latency.
   */
  function ExtractLatency(output: Option<string>): (ms: Option<real>)
  {
    if output.None? || output.value == [] then None
    else
      match Search(SecondsPattern, output.value)
      case Some(g) => Reading(g, 1000.0)
      case None =>
        match Search(MsPattern, output.value)
        case Some(g) => Reading(g, 1.0)
        case None => None
  }

  /** Every latency read is positive. */
  lemma LatencyPositive(output: Option<string>)
    ensures ExtractLatency(output).Some? ==> ExtractLatency(output).value > 0.0
  {
    if output.Some? && output.value != [] {
      var s := output.value;
      match Search(SecondsPattern, s)
      case Some(g) => if ParseDecimal(g).Some? { ParseDecimalZero(g); }
      case None =>
        match Search(MsPattern, s)
        case Some(g) => if ParseDecimal(g).Some? { ParseDecimalZero(g); }
        case None =>
    }
  }

  /** No position before the first `A` can start the seconds label. */
  lemma NoSecondsMatchBefore(s: string, n: nat)
    requires n <= |s| && forall m :: 0 <= m < n ==> s[m] != 'A'
    ensures forall m :: 0 <= m < n ==> MatchAt(SecondsPattern, s, m).None?
  {
    forall m | 0 <= m < n ensures MatchAt(SecondsPattern, s, m).None? {
      assert SECONDS_LABEL[0] == 'A';
    }
  }

  /** No position before the first `a` or `A` can start the milliseconds label. */
  lemma NoMsMatchBefore(s: string, n: nat)
    requires n <= |s| && forall m :: 0 <= m < n ==> s[m] != 'a' && s[m] != 'A'
    ensures forall m :: 0 <= m < n ==> MatchAt(MsPattern, s, m).None?
  {
    forall m | 0 <= m < n ensures MatchAt(MsPattern, s, m).None? {
      assert MS_LABEL[0] == 'a';
    }
  }

  /** A seconds match at `m` has a `(` after it. */
  lemma SecondsMatchHasParen(s: string, m: nat)
    requires m <= |s| && MatchAt(SecondsPattern, s, m).Some?
    ensures '(' in s
  {
    var j := SkipSpaces(s, m + |SECONDS_LABEL|);
    assert SECONDS_UNIT[0] == '(';
  }

  /** Without a `(` the seconds pattern matches nowhere. */
  lemma NoSecondsMatchWithoutParen(s: string)
    requires '(' !in s
    ensures Search(SecondsPattern, s).None?
  {
    forall m | 0 <= m <= |s| ensures MatchAt(SecondsPattern, s, m).None? {
      if MatchAt(SecondsPattern, s, m).Some? {
        SecondsMatchHasParen(s, m);
      }
    }
  }

  lemma NoParenInFolded(t: string, pattern: string)
    requires FoldEq(t, pattern) && '(' !in pattern
    ensures '(' !in t
  {
    forall k | 0 <= k < |t| ensures t[k] != '(' { assert FoldMatch(t[k], pattern[k]) && pattern[k] in pattern; }
  }

  lemma NoParenInSpaces(w: string)
    requires AllSpace(w)
    ensures '(' !in w
  {
    forall k | 0 <= k < |w| ensures w[k] != '(' { assert IsSpace(w[k]); }
  }

  lemma NoParenInNumber(g: string)
    requires AllNumberChars(g)
    ensures '(' !in g
  {
    forall k | 0 <= k < |g| ensures g[k] != '(' { assert IsNumberChar(g[k]); }
  }

  /** A seconds line at `i` with no `A` before it is what the search finds. */
  lemma SecondsFound(s: string, i: nat, j: nat, k: nat, e: nat)
    requires SecondsShape(s, i, j, k, e) && forall m :: 0 <= m < i ==> s[m] != 'A'
    ensures Search(SecondsPattern, s) == Some(s[k..e])
  {
    SecondsShapeMatches(s, i, j, k, e);
    NoSecondsMatchBefore(s, i);
    SearchFindsFirst(SecondsPattern, s, i);
  }

  /** A milliseconds line at `i` with no `a` or `A` before it is what the search finds. */
  lemma MsFound(s: string, i: nat, j: nat, e: nat, k: nat)
    requires MsShape(s, i, j, e, k) && forall m :: 0 <= m < i ==> s[m] != 'a' && s[m] != 'A'
    ensures Search(MsPattern, s) == Some(s[j..e])
  {
    MsShapeMatches(s, i, j, e, k);
    NoMsMatchBefore(s, i);
    SearchFindsFirst(MsPattern, s, i);
  }

  /**
   * A report whose first `A` begins a seconds line `Average Latency (s):  g` reads as `g`
   * seconds in milliseconds, whatever follows (a milliseconds line included).
   */
  lemma SecondsLineRead(pre: string, w1: string, w2: string, g: string, post: string)
    requires 'A' !in pre
    requires AllSpace(w1) && AllSpace(w2) && |w2| >= 1
    requires g != [] && AllNumberChars(g) && (post == [] || !IsNumberChar(post[0]))
    ensures ExtractLatency(Some(pre + SECONDS_LABEL + w1 + SECONDS_UNIT + w2 + g + post)) == Reading(g, 1000.0)
  {
    var s := pre + SECONDS_LABEL + w1 + SECONDS_UNIT + w2 + g + post;
    var j := |pre| + |SECONDS_LABEL| + |w1|;
    var k := j + |SECONDS_UNIT| + |w2|;
    SecondsLineShape(s, pre, w1, w2, g, post);
    assert forall m :: 0 <= m < |pre| ==> s[m] != 'A' by {
      assert forall m :: 0 <= m < |pre| ==> s[m] == pre[m];
    }
    SecondsFound(s, |pre|, j, k, k + |g|);
  }

  lemma SecondsLineShape(s: string, pre: string, w1: string, w2: string, g: string, post: string)
    requires s == pre + SECONDS_LABEL + w1 + SECONDS_UNIT + w2 + g + post
    requires AllSpace(w1) && AllSpace(w2) && |w2| >= 1
    requires g != [] && AllNumberChars(g) && (post == [] || !IsNumberChar(post[0]))
    ensures var j := |pre| + |SECONDS_LABEL| + |w1|;
      var k := j + |SECONDS_UNIT| + |w2|;
      SecondsShape(s, |pre|, j, k, k + |g|) && s[k..k + |g|] == g
  {
    var i := |pre|;
    var j := i + |SECONDS_LABEL| + |w1|;
    var k := j + |SECONDS_UNIT| + |w2|;
    var e := k + |g|;
    assert s[i..i + |SECONDS_LABEL|] == SECONDS_LABEL;
    assert forall m :: i + |SECONDS_LABEL| <= m < j ==> s[m] == w1[m - i - |SECONDS_LABEL|];
    assert s[j..j + |SECONDS_UNIT|] == SECONDS_UNIT;
    assert forall m :: j + |SECONDS_UNIT| <= m < k ==> s[m] == w2[m - j - |SECONDS_UNIT|];
    assert forall m :: k <= m < e ==> s[m] == g[m - k];
    assert s[k..e] == g;
    assert e < |s| ==> s[e] == post[0];
  }

  /**
   * A report with no `(` whose first `a` or `A` begins a milliseconds line (any case) reads
   * as that many milliseconds.
   */
  lemma MsLineRead(pre: string, head: string, w1: string, g: string, w2: string, tail: string, post: string)
    requires '(' !in pre && '(' !in post && 'a' !in pre && 'A' !in pre
    requires FoldEq(head, MS_LABEL) && FoldEq(tail, MS_UNIT)
    requires AllSpace(w1) && |w1| >= 1 && AllSpace(w2)
    requires g != [] && AllNumberChars(g)
    ensures ExtractLatency(Some(pre + head + w1 + g + w2 + tail + post)) == Reading(g, 1.0)
  {
    var s := pre + head + w1 + g + w2 + tail + post;
    var i := |pre|;
    var j := i + |MS_LABEL| + |w1|;
    var e := j + |g|;
    MsLineShape(s, pre, head, w1, g, w2, tail, post);
    assert forall m :: 0 <= m < i ==> s[m] != 'a' && s[m] != 'A' by {
      assert forall m :: 0 <= m < i ==> s[m] == pre[m];
    }
    MsLineParens(s, pre, head, w1, g, w2, tail, post);
    MsReportRead(s, i, j, e, e + |w2|, g);
  }

  /** A report with no `(` and a milliseconds line first reads as that line's number. */
  lemma MsReportRead(s: string, i: nat, j: nat, e: nat, k: nat, g: string)
    requires MsShape(s, i, j, e, k) && forall m :: 0 <= m < i ==> s[m] != 'a' && s[m] != 'A'
    requires '(' !in s && s[j..e] == g && AllNumberChars(g)
    ensures ExtractLatency(Some(s)) == Reading(g, 1.0)
  {
    MsFound(s, i, j, e, k);
    NoSecondsMatchWithoutParen(s);
  }

  lemma MsLineParens(s: string, pre: string, head: string, w1: string, g: string, w2: string, tail: string, post: string)
    requires s == pre + head + w1 + g + w2 + tail + post
    requires '(' !in pre && '(' !in post
    requires FoldEq(head, MS_LABEL) && FoldEq(tail, MS_UNIT)
    requires AllSpace(w1) && AllSpace(w2) && AllNumberChars(g)
    ensures '(' !in s
  {
    NoParenInFolded(head, MS_LABEL);
    NoParenInFolded(tail, MS_UNIT);
    NoParenInSpaces(w1);
    NoParenInSpaces(w2);
    NoParenInNumber(g);
  }

  lemma MsLineShape(s: string, pre: string, head: string, w1: string, g: string, w2: string, tail: string, post: string)
    requires s == pre + head + w1 + g + w2 + tail + post
    requires FoldEq(head, MS_LABEL) && FoldEq(tail, MS_UNIT)
    requires AllSpace(w1) && |w1| >= 1 && AllSpace(w2)
    requires g != [] && AllNumberChars(g)
    ensures var j := |pre| + |MS_LABEL| + |w1|;
      var e := j + |g|;
      MsShape(s, |pre|, j, e, e + |w2|) && s[j..e] == g
  {
    var i := |pre|;
    var j := i + |MS_LABEL| + |w1|;
    var e := j + |g|;
    var k := e + |w2|;
    assert s[i..i + |MS_LABEL|] == head;
    assert forall m :: i + |MS_LABEL| <= m < j ==> s[m] == w1[m - i - |MS_LABEL|];
    assert forall m :: j <= m < e ==> s[m] == g[m - j];
    assert forall m :: e <= m < k ==> s[m] == w2[m - e];
    assert s[k..k + |MS_UNIT|] == tail;
    assert s[j..e] == g;
  }

  lemma DecimalSeconds()
    ensures ParseDecimal("0.00818") == Some(818.0 / 100000.0)
  {
    var c := "0.00818";
    assert AllNumberChars(c);
    assert IndexOf(c, '.') == 1;
    assert c[..1] == "0" && c[2..] == "00818";
    assert '.' !in "00818";
    assert Pow10(5) == 100000;
    assert NatValue("0") == 0;
    assert NatValue("00818") == 818 by {
      assert "00818"[..4] == "0081" && "0081"[..3] == "008" && "008"[..2] == "00" && "00"[..1] == "0";
    }
  }

  lemma DecimalMs()
    ensures ParseDecimal("8.18") == Some(818.0 / 100.0)
  {
    var c := "8.18";
    assert AllNumberChars(c);
    assert IndexOf(c, '.') == 1;
    assert c[..1] == "8" && c[2..] == "18";
    assert '.' !in "18";
    assert Pow10(2) == 100;
    assert NatValue("8") == 8;
    assert NatValue("18") == 18 by { assert "18"[..1] == "1"; }
  }

  lemma DecimalZero()
    ensures ParseDecimal("0.00000") == Some(0.0)
  {
    var c := "0.00000";
    assert AllNumberChars(c);
    assert IndexOf(c, '.') == 1;
    assert c[..1] == "0" && c[2..] == "00000";
    assert '.' !in "00000";
    assert NatValue("0") == 0;
    NatValueZero("00000");
  }

  /** `float()` refuses a capture with two dots or without digits. */
  lemma DecimalRefused()
    ensures ParseDecimal("1.2.3") == None && ParseDecimal(".") == None
  {
    assert AllNumberChars("1.2.3") && AllNumberChars(".");
    assert IndexOf("1.2.3", '.') == 1 && "1.2.3"[2..] == "2.3" && '.' in "2.3";
    assert IndexOf(".", '.') == 0 && "."[..0] == [] && "."[1..] == [];
  }

  /** dnsperf 2.14's `  Average Latency (s):  0.00818` reads as 8.18 ms. */
  lemma SecondsReportExample()
    ensures ExtractLatency(Some("  " + SECONDS_LABEL + " " + SECONDS_UNIT + "  " + "0.00818" + "\n")) == Some(8.18)
  {
    DecimalSeconds();
    assert AllNumberChars("0.00818") && AllSpace("  ") && AllSpace(" ");
    SecondsLineRead("  ", " ", "  ", "0.00818", "\n");
  }

  /** A report of `0.00000` seconds gives no latency. */
  lemma ZeroReportExample()
    ensures ExtractLatency(Some("  " + SECONDS_LABEL + " " + SECONDS_UNIT + "  " + "0.00000" + "\n")) == None
  {
    DecimalZero();
    assert AllNumberChars("0.00000") && AllSpace("  ") && AllSpace(" ");
    SecondsLineRead("  ", " ", "  ", "0.00000", "\n");
  }

  /** The older `  Average latency:  8.18 ms` reads as 8.18 ms. */
  lemma MsReportExample()
    ensures ExtractLatency(Some("  " + "Average latency:" + "  " + "8.18" + " " + "ms" + "\n")) == Some(8.18)
  {
    DecimalMs();
    assert AllNumberChars("8.18") && AllSpace("  ") && AllSpace(" ");
    assert FoldEq("Average latency:", MS_LABEL);
    assert FoldEq("ms", MS_UNIT);
    MsLineRead("  ", "Average latency:", "  ", "8.18", " ", "ms", "\n");
  }
}
