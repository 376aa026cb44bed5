/** The regular expressions the agents use to find amounts in a statement, written out as
    scanners over the text.

    `\$([0-9,]+(?:\.[0-9]+)?)` (with or without the fraction part) and
    `(\d+(?:,\d+)*(?:\.\d+)?)\s*(?:dollars?|usd|points?)` are searched for with `re.search`,
    which reports the match starting leftmost. In both patterns every quantifier is greedy and
    every character a shorter repetition would leave next cannot continue the match (a digit,
    a comma or a point where whitespace or a keyword letter is needed), so at a given start
    the match, if any, is the greedy one computed below. Digits, whitespace and case folding
    are those of the ASCII range. */
module Patterns {
  import opened Wrappers
  import opened Text

  predicate DigitOrComma(c: char) { IsDigit(c) || c == ',' }

  /** Every character is a digit, a comma or a point: what either group can hold. */
  predicate NumeralChars(s: string) {
    forall k :: 0 <= k < |s| ==> DigitOrComma(s[k]) || s[k] == '.'
  }

  /** The end of the run of digits starting at `i`. */
  function DigitRun(s: string, i: nat): (e: nat)
    requires i <= |s|
    ensures i <= e <= |s| && (e < |s| ==> !IsDigit(s[e]))
    ensures forall k :: i <= k < e ==> IsDigit(s[k])
    decreases |s| - i
  {
    if i < |s| && IsDigit(s[i]) then DigitRun(s, i + 1) else i
  }

  /** The end of the run of digits and commas starting at `i`. */
  function DigitCommaRun(s: string, i: nat): (e: nat)
    requires i <= |s|
    ensures i <= e <= |s| && (e < |s| ==> !DigitOrComma(s[e]))
    ensures forall k :: i <= k < e ==> DigitOrComma(s[k])
    decreases |s| - i
  {
    if i < |s| && DigitOrComma(s[i]) then DigitCommaRun(s, i + 1) else i
  }

  /** `(?:\.[0-9]+)?` at `e`: the end after an optional fraction. */
  function FractionEnd(s: string, e: nat): (f: nat)
    requires e <= |s|
    ensures e <= f <= |s|
    ensures f > e ==> f > e + 1 && s[e] == '.' && forall k :: e < k < f ==> IsDigit(s[k])
  {
    if e + 1 < |s| && s[e] == '.' && IsDigit(s[e + 1]) then DigitRun(s, e + 1) else e
  }

  // ---- `\$([0-9,]+ ...)` ----

  /** A dollar pattern can start at `i`: a `$` followed by a digit or a comma. */
  predicate DollarAt(s: string, i: int) {
    0 <= i && i + 1 < |s| && s[i] == '$' && DigitOrComma(s[i + 1])
  }

  /** The leftmost position at or after `from` where a dollar pattern starts. */
  function FindDollar(s: string, from: nat): (r: Option<nat>)
    requires from <= |s|
    ensures r.Some? ==> from <= r.value && DollarAt(s, r.value)
    ensures r.Some? ==> forall j :: from <= j < r.value ==> !DollarAt(s, j)
    ensures r.None? ==> forall j :: from <= j < |s| ==> !DollarAt(s, j)
    decreases |s| - from
  {
    if from == |s| then None
    else if DollarAt(s, from) then Some(from)
    else FindDollar(s, from + 1)
  }

  /** Group 1 of the leftmost dollar match: the digit-and-comma run after the `$`, followed,
      when `fraction` is set, by a point and digits if they are there. */
  function DollarGroup(s: string, fraction: bool): (r: Option<string>)
    ensures r.Some? ==> |r.value| > 0 && DigitOrComma(r.value[0]) && NumeralChars(r.value)
    ensures r.None? <==> forall j :: 0 <= j < |s| ==> !DollarAt(s, j)
  {
    match FindDollar(s, 0)
    case None => None
    case Some(i) =>
      var e := DigitCommaRun(s, i + 1);
      var f := if fraction then FractionEnd(s, e) else e;
      Some(s[i + 1..f])
  }

  // ---- `(\d+(?:,\d+)*(?:\.\d+)?)\s*(?:dollars?|usd|points?)` ----

  /** `(?:,\d+)*` from `e`: repeated comma-and-digits groups. */
  function CommaGroupsEnd(s: string, e: nat): (f: nat)
    requires e <= |s|
    ensures e <= f <= |s|
    ensures forall k :: e <= k < f ==> DigitOrComma(s[k])
    decreases |s| - e
  {
    if e + 1 < |s| && s[e] == ',' && IsDigit(s[e + 1]) then CommaGroupsEnd(s, DigitRun(s, e + 1)) else e
  }

  /** The end of the number group starting at `i` (which must start with a digit). */
  function NumberEnd(s: string, i: nat): (e: nat)
    requires i < |s| && IsDigit(s[i])
    ensures i < e <= |s|
  {
    FractionEnd(s, CommaGroupsEnd(s, DigitRun(s, i)))
  }

  /** `w` (lower case) occurs at `k` in `s`, ignoring case. */
  predicate LowerAt(s: string, k: nat, w: string)
    decreases |w|
  {
    |w| == 0 || (k < |s| && LowerChar(s[k]) == w[0] && LowerAt(s, k + 1, w[1..]))
  }

  /** The keyword alternatives, matched ignoring case after optional whitespace at `e`. */
  predicate KeywordAt(s: string, e: nat)
    requires e <= |s|
  {
    var k := SkipSpace(s, e);
    LowerAt(s, k, "dollar") || LowerAt(s, k, "usd") || LowerAt(s, k, "point")
  }

  /** A number followed by a keyword starts at `i`. */
  predicate NumberKeywordAt(s: string, i: int) {
    0 <= i < |s| && IsDigit(s[i]) && KeywordAt(s, NumberEnd(s, i))
  }

  /** The leftmost position in `from..to` where `p` holds. */
  function FindFirst(p: nat -> bool, from: nat, to: nat): (r: Option<nat>)
    requires from <= to
    ensures r.Some? ==> from <= r.value < to && p(r.value)
    ensures r.Some? ==> forall j :: from <= j < r.value ==> !p(j)
    ensures r.None? ==> (forall j :: from <= j < to ==> !p(j))
    decreases (to as int) - from
  {
    if from == to then None
    else if p(from) then Some(from)
    else FindFirst(p, from + 1, to)
  }

  /** The leftmost position at or after `from` where a number-with-keyword match starts. */
  function FindNumberKeyword(s: string, from: nat): (r: Option<nat>)
    requires from <= |s|
    ensures r.Some? ==> from <= r.value && NumberKeywordAt(s, r.value)
    ensures r.Some? ==> forall j :: from <= j < r.value ==> !NumberKeywordAt(s, j)
    ensures r.None? ==> forall j :: from <= j < |s| ==> !NumberKeywordAt(s, j)
  {
    var p := (j: nat) => NumberKeywordAt(s, j);
    assert forall j: nat :: p(j) == NumberKeywordAt(s, j);
    FindFirst(p, from, |s|)
  }

  /** Group 1 of the leftmost number-with-keyword match. */
  function NumberGroup(s: string): (r: Option<string>)
    ensures r.Some? ==> |r.value| > 0 && IsDigit(r.value[0]) && NumeralChars(r.value)
    ensures r.None? <==> forall j :: 0 <= j < |s| ==> !NumberKeywordAt(s, j)
  {
    match FindNumberKeyword(s, 0)
    case None => None
    case Some(i) => Some(s[i..NumberEnd(s, i)])
  }

  /** Neither group holds a sign, so `float()` of either, commas removed, is never negative. */
  lemma UnsignedGroup(g: string)
    requires NumeralChars(g)
    ensures ParseFloat(RemoveChar(g, ',')).Some? ==> ParseFloat(RemoveChar(g, ',')).value >= 0.0
  {
    assert '-' !in g by {
      forall k | 0 <= k < |g| ensures g[k] != '-' { assert DigitOrComma(g[k]) || g[k] == '.'; }
    }
    assert multiset(RemoveChar(g, ','))['-'] == multiset(g)['-'] == 0;
  }

  /** A run of digits and commas from `i` that stops at `e` is the one the scanner finds. */
  lemma {:induction false} DigitCommaRunUpTo(s: string, i: nat, e: nat)
    requires i <= e <= |s| && (e < |s| ==> !DigitOrComma(s[e]))
    requires forall k :: i <= k < e ==> DigitOrComma(s[k])
    ensures DigitCommaRun(s, i) == e
    decreases e - i
  {
    if i < e { DigitCommaRunUpTo(s, i + 1, e); }
  }

  /** A run of digits from `i` that stops at `e` is the one the scanner finds. */
  lemma {:induction false} DigitRunUpTo(s: string, i: nat, e: nat)
    requires i <= e <= |s| && (e < |s| ==> !IsDigit(s[e]))
    requires forall k :: i <= k < e ==> IsDigit(s[k])
    ensures DigitRun(s, i) == e
    decreases e - i
  {
    if i < e { DigitRunUpTo(s, i + 1, e); }
  }
}
