/**
 * The two regular expressions of the what-if parser, written as scanners over
 * the text, each with the regular expression's meaning as its contract:
 *
 *   /(\d+(?:\.\d+)?)\s*%/   the percent token of "save 5% more"
 *   /\$(\d+(?:\.\d+)?)/     the dollar amount of "cut food by $50"
 *
 * JavaScript's `match` returns the leftmost match; at a given start the greedy
 * quantifiers take the longest numeral, which for these patterns is the
 * only numeral that can succeed.
 */
module Patterns {
  import opened Wrappers
  import opened Text

  predicate IsDigit(c: char) { '0' <= c <= '9' }

  ghost predicate AllDigits(s: string) {
    forall i :: 0 <= i < |s| ==> IsDigit(s[i])
  }

  /** `t` is a whole match of `\d+(?:\.\d+)?`: digits, or digits, a point and digits. */
  ghost predicate IsNumeral(t: string) {
    (|t| > 0 && AllDigits(t)) ||
    exists k :: 0 < k < |t| - 1 && t[k] == '.' && AllDigits(t[..k]) && AllDigits(t[k + 1..])
  }

  /** End of the run of digits that starts at `i`. */
  function DigitsEnd(s: string, i: nat): (j: nat)
    requires i <= |s|
    ensures i <= j <= |s|
    ensures AllDigits(s[i..j])
    ensures j < |s| ==> !IsDigit(s[j])
    decreases |s| - i
  {
    if i < |s| && IsDigit(s[i]) then
      var j := DigitsEnd(s, i + 1);
      assert s[i..j] == [s[i]] + s[i + 1..j];
      j
    else i
  }

  /** A run of digits from `i` to `j` ends no later than `DigitsEnd(s, i)`. */
  lemma DigitsEndAtLeast(s: string, i: nat, j: nat)
    requires i <= j <= |s| && AllDigits(s[i..j])
    ensures j <= DigitsEnd(s, i)
  {
    assert forall m :: i <= m < j ==> s[m] == s[i..j][m - i];
  }

  /** End of the greedy match of `\d+(?:\.\d+)?` at `i`. */
  function NumeralEnd(s: string, i: nat): (j: nat)
    requires i < |s| && IsDigit(s[i])
    ensures i < j <= |s|
    ensures IsNumeral(s[i..j])
  {
    var d := DigitsEnd(s, i);
    if d + 1 < |s| && s[d] == '.' && IsDigit(s[d + 1]) then
      var e := DigitsEnd(s, d + 1);
      var t := s[i..e];
      assert t[..d - i] == s[i..d];
      assert t[d - i + 1..] == s[d + 1..e];
      assert t[d - i] == '.';
      e
    else
      d
  }

  /** No numeral starting at `i` is longer than the greedy one. */
  lemma NumeralEndLongest(s: string, i: nat, j: nat)
    requires i < j <= |s| && IsNumeral(s[i..j])
    ensures IsDigit(s[i])
    ensures j <= NumeralEnd(s, i)
  {
    var t := s[i..j];
    assert t[0] == s[i];
    if AllDigits(t) {
      DigitsEndAtLeast(s, i, j);
    } else {
      var k :| 0 < k < |t| - 1 && t[k] == '.' && AllDigits(t[..k]) && AllDigits(t[k + 1..]);
      assert t[..k] == s[i..i + k] && t[k + 1..] == s[i + k + 1..j];
      FractionLongest(s, i, j, k);
    }
  }

  lemma FractionLongest(s: string, i: nat, j: nat, k: nat)
    requires i < j <= |s|
    requires 0 < k < j - i - 1 && s[i + k] == '.'
    requires AllDigits(s[i..i + k]) && AllDigits(s[i + k + 1..j])
    ensures IsDigit(s[i])
    ensures j <= NumeralEnd(s, i)
  {
    assert s[i] == s[i..i + k][0];
    DigitsEndAtLeast(s, i, i + k);
    var d := DigitsEnd(s, i);
    assert d == i + k;
    assert s[d + 1] == s[d + 1..j][0];
    DigitsEndAtLeast(s, d + 1, j);
  }

  /** Every character inside the greedy numeral is a digit or the point. */
  lemma NumeralEndChars(s: string, i: nat, j: nat)
    requires i < |s| && IsDigit(s[i])
    ensures i <= j < NumeralEnd(s, i) ==> IsDigit(s[j]) || s[j] == '.'
  {
    var d := DigitsEnd(s, i);
    assert forall q :: i <= q < d ==> s[q] == s[i..d][q - i];
    if d + 1 < |s| && s[d] == '.' && IsDigit(s[d + 1]) {
      var e := DigitsEnd(s, d + 1);
      assert forall q :: d + 1 <= q < e ==> s[q] == s[d + 1..e][q - d - 1];
    }
  }

  // ---- /(\d+(?:\.\d+)?)\s*%/ ----

  /** `\s*%` matches at `j`. */
  ghost predicate SpacesThenPercent(s: string, j: int) {
    exists k :: 0 <= j <= k < |s| && s[k] == '%' && SpacesBetween(s, j, k)
  }

  /** The percent pattern matches at `i`, its group capturing `s[i..j]`. */
  ghost predicate PercentMatch(s: string, i: int, j: int) {
    0 <= i < j <= |s| && IsNumeral(s[i..j]) && SpacesThenPercent(s, j)
  }

  /** The percent pattern tried at `i` alone: the end of its group, if it matches. */
  function PercentAt(s: string, i: nat): (r: Option<nat>)
    requires i <= |s|
    ensures r.Some? ==> PercentMatch(s, i, r.value)
    ensures r.None? ==> forall j :: !PercentMatch(s, i, j)
  {
    if i < |s| && IsDigit(s[i]) then
      var j := NumeralEnd(s, i);
      var k := SkipSpaces(s, j);
      if k < |s| && s[k] == '%' then
        Some(j)
      else
        assert forall j' :: !PercentMatch(s, i, j') by {
          forall j' | PercentMatch(s, i, j') ensures false {
            PercentAtOnly(s, i, j');
          }
        }
        None
    else
      assert forall j :: !PercentMatch(s, i, j) by {
        forall j | PercentMatch(s, i, j) ensures false {
          NumeralEndLongest(s, i, j);
        }
      }
      None
  }

  /** A percent match at `i` ends its group at the greedy numeral's end, followed by spaces and `%`. */
  lemma PercentAtOnly(s: string, i: nat, j: nat)
    requires PercentMatch(s, i, j)
    ensures IsDigit(s[i]) && j == NumeralEnd(s, i)
    ensures var k := SkipSpaces(s, j); k < |s| && s[k] == '%'
  {
    NumeralEndLongest(s, i, j);
    var k :| 0 <= j <= k < |s| && s[k] == '%' && SpacesBetween(s, j, k);
    NumeralEndChars(s, i, j);
    SpacesThenPercentAt(s, j, k);
  }

  /** The `%` after a run of spaces sits right where the run ends. */
  lemma SpacesThenPercentAt(s: string, j: nat, k: nat)
    requires j <= k < |s| && s[k] == '%' && SpacesBetween(s, j, k)
    ensures k == SkipSpaces(s, j)
  {
  }

  /** The percent pattern has at most one match at each start. */
  lemma PercentMatchUnique(s: string, i: nat, j1: nat, j2: nat)
    requires PercentMatch(s, i, j1) && PercentMatch(s, i, j2)
    ensures j1 == j2
  {
    PercentAtOnly(s, i, j1);
    PercentAtOnly(s, i, j2);
  }

  /** Leftmost percent match at or after `i`, as (start, end of group). */
  function FindPercentFrom(s: string, i: nat): (r: Option<(nat, nat)>)
    requires i <= |s|
    ensures r.Some? ==> i <= r.value.0 && PercentMatch(s, r.value.0, r.value.1)
    ensures r.Some? ==> forall k, j :: i <= k < r.value.0 ==> !PercentMatch(s, k, j)
    ensures r.None? ==> forall k, j :: i <= k ==> !PercentMatch(s, k, j)
    decreases |s| - i
  {
    if i == |s| then None
    else
      match PercentAt(s, i)
      case Some(j) => Some((i, j))
      case None => FindPercentFrom(s, i + 1)
  }

  /** `match[1]` of the percent pattern on `s`, or `None` when `match` returns `null`. */
  function PercentToken(s: string): (r: Option<string>)
    ensures r.None? <==> forall k, j :: !PercentMatch(s, k, j)
    ensures r.Some? ==> IsNumeral(r.value)
  {
    match FindPercentFrom(s, 0)
    case Some((k, j)) => Some(s[k..j])
    case None => None
  }

  // ---- /\$(\d+(?:\.\d+)?)/ ----

  /** `s[a..b]` is a numeral. */
  ghost predicate NumeralSpan(s: string, a: int, b: int) {
    0 <= a <= b <= |s| && IsNumeral(s[a..b])
  }

  /** `s[a..j]` is the longest numeral that starts at `a`. */
  ghost predicate LongestNumeral(s: string, a: int, j: int) {
    NumeralSpan(s, a, j) && forall j' :: j < j' <= |s| ==> !NumeralSpan(s, a, j')
  }

  /** The dollar pattern matches at `i` (the `$`), its greedy group capturing `s[i + 1..j]`. */
  ghost predicate DollarMatch(s: string, i: int, j: int) {
    0 <= i && i + 1 < j <= |s| && s[i] == '$' && LongestNumeral(s, i + 1, j)
  }

  function DollarAt(s: string, i: nat): (r: Option<nat>)
    requires i <= |s|
    ensures r.Some? ==> DollarMatch(s, i, r.value)
    ensures r.None? ==> forall j :: !DollarMatch(s, i, j)
  {
    if i + 1 < |s| && s[i] == '$' && IsDigit(s[i + 1]) then
      var a, e := i + 1, NumeralEnd(s, i + 1);
      assert forall j' :: e < j' <= |s| ==> !NumeralSpan(s, a, j') by {
        forall j' | e < j' <= |s| && NumeralSpan(s, a, j') ensures false {
          NumeralEndLongest(s, a, j');
        }
      }
      Some(e)
    else
      assert forall j :: !DollarMatch(s, i, j) by {
        forall j | DollarMatch(s, i, j) ensures false {
          NumeralEndLongest(s, i + 1, j);
        }
      }
      None
  }

  /** Leftmost dollar match at or after `i`, as (position of `$`, end of group). */
  function FindDollarFrom(s: string, i: nat): (r: Option<(nat, nat)>)
    requires i <= |s|
    ensures r.Some? ==> i <= r.value.0 && DollarMatch(s, r.value.0, r.value.1)
    ensures r.Some? ==> forall k, j :: i <= k < r.value.0 ==> !DollarMatch(s, k, j)
    ensures r.None? ==> forall k, j :: i <= k ==> !DollarMatch(s, k, j)
    decreases |s| - i
  {
    if i == |s| then None
    else
      match DollarAt(s, i)
      case Some(j) => Some((i, j))
      case None => FindDollarFrom(s, i + 1)
  }

  /** `match[1]` of the dollar pattern on `s`: the digits after the first `$` that has any. */
  function DollarToken(s: string): (r: Option<string>)
    ensures r.None? <==> forall k, j :: !DollarMatch(s, k, j)
    ensures r.Some? ==> IsNumeral(r.value)
  {
    match FindDollarFrom(s, 0)
    case Some((k, j)) => Some(s[k + 1..j])
    case None => None
  }

  // ---- parseFloat of a numeral ----

  function DigitValue(c: char): nat {
    if IsDigit(c) then c as int - '0' as int else 0
  }

  /** The natural number a run of decimal digits denotes. */
  function DigitsValue(d: string): nat {
    if |d| == 0 then 0 else 10 * DigitsValue(d[..|d| - 1]) + DigitValue(d[|d| - 1])
  }

  function Pow10(n: nat): (p: nat)
    ensures p >= 1
  {
    if n == 0 then 1 else 10 * Pow10(n - 1)
  }

  /** `parseFloat` of a numeral, exactly: the whole part plus the fraction digits over 10^(their count). */
  function NumeralValue(t: string): (v: real)
    ensures v >= 0.0
  {
    var k := IndexOf(t, '.');
    var whole := DigitsValue(t[..k]) as real;
    if k < |t| then whole + DigitsValue(t[k + 1..]) as real / Pow10(|t| - k - 1) as real
    else whole
  }
}
