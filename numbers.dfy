/** Decimal and reference-range parsing (core/normalize/numbers.py).

    The two regular expressions are written as scanners:
      _NUMBER_RE = -?\d+(?:[\.,]\d+)?
      _RANGE_RE  = (NUMBER)\s*[-–]\s*(NUMBER)
    `NumberAt` and `RangeAt` try a pattern at one position and `SearchNumber` and
    `SearchRange` try every position from the left, as `re.search` does. Backtracking never
    changes the outcome of these two patterns: giving back a digit, a fraction or a blank
    leaves a digit, a decimal mark or a blank in front of something that cannot match it, so
    the greedy choice is the only one that can succeed. `RangeAtComplete` proves the part
    of this that matters: whenever the text at a position matches the range pattern in any
    way, the scanner finds a match there. Digits are ASCII only. */
module Numbers {
  import opened Wrappers
  import opened Text

  predicate IsDecimalMark(c: char) { c == '.' || c == ',' }

  /** `[-–]`: a hyphen or an en-dash. */
  predicate IsDash(c: char) { c == '-' || c == '\U{2013}' }

  predicate AllDigitsIn(s: string, a: nat, b: nat)
    requires a <= b <= |s|
  {
    forall k :: a <= k < b ==> IsDigit(s[k])
  }

  predicate AllSpaceIn(s: string, a: nat, b: nat)
    requires a <= b <= |s|
  {
    forall k :: a <= k < b ==> IsSpace(s[k])
  }

  /** `s[i..e]` is matched by `-?\d+(?:[\.,]\d+)?`: an optional minus, digits, and an
      optional decimal mark followed by digits. */
  predicate NumeralAt(s: string, i: nat, e: nat)
    requires i <= e <= |s|
  {
    var j := if i < e && s[i] == '-' then i + 1 else i;
    j < e && (AllDigitsIn(s, j, e) || MarkSplit(s, j, e))
  }

  predicate MarkSplit(s: string, j: nat, e: nat)
    requires j <= e <= |s|
  {
    exists p :: j < p < e - 1 && IsDecimalMark(s[p]) && AllDigitsIn(s, j, p) && AllDigitsIn(s, p + 1, e)
  }

  /** Length of the run of digits that starts at `i`. */
  function DigitRun(s: string, i: nat): (n: nat)
    requires i <= |s|
    ensures i + n <= |s|
    decreases |s| - i
  {
    if i < |s| && IsDigit(s[i]) then 1 + DigitRun(s, i + 1) else 0
  }

  /** Every character of the run is a digit, and the run stops at a non-digit or at the
      end of `s`. */
  lemma {:induction false} DigitRunDigits(s: string, i: nat)
    requires i <= |s|
    ensures AllDigitsIn(s, i, i + DigitRun(s, i))
    ensures i + DigitRun(s, i) < |s| ==> !IsDigit(s[i + DigitRun(s, i)])
    decreases |s| - i
  {
    if i < |s| && IsDigit(s[i]) {
      DigitRunDigits(s, i + 1);
    }
  }

  function Pow10(n: nat): (p: nat)
    ensures p >= 1
  {
    if n == 0 then 1 else 10 * Pow10(n - 1)
  }

  /** `float(text.replace(",", "."))` for a matched numeral, computed exactly. */
  function DecimalValue(negative: bool, whole: string, fraction: string): real {
    var magnitude := DigitsValue(whole) as real + DigitsValue(fraction) as real / Pow10(|fraction|) as real;
    if negative then -magnitude else magnitude
  }

  /** A `_NUMBER_RE` match: where it ends, whether it starts with a minus, and its whole
      and fraction digits (no fraction digits when there is no decimal mark). */
  datatype NumberMatch = NumberMatch(end: nat, negative: bool, whole: string, fraction: string) {
    /** `float(match.group(0).replace(",", "."))`, computed exactly. */
    function Value(): real {
      DecimalValue(negative, whole, fraction)
    }
  }

  /** Where the digits of a numeral at `i` begin: after the optional minus. */
  function WholeStart(s: string, i: nat): (j: nat)
    requires i <= |s|
    ensures i <= j <= |s|
  {
    if i < |s| && s[i] == '-' then i + 1 else i
  }

  /** The end of the greedy `_NUMBER_RE` match at `i`, if there is one. */
  function NumberEnd(s: string, i: nat): (e: Option<nat>)
    requires i <= |s|
    ensures e.Some? ==> i < e.value <= |s|
  {
    var j := WholeStart(s, i);
    var d := DigitRun(s, j);
    if d == 0 then None
    else
      var k := j + d;
      if k < |s| && IsDecimalMark(s[k]) && DigitRun(s, k + 1) > 0 then Some(k + 1 + DigitRun(s, k + 1))
      else Some(k)
  }

  /** What the scanner takes is a numeral. */
  lemma NumberEndSound(s: string, i: nat)
    requires i <= |s| && NumberEnd(s, i).Some?
    ensures NumeralAt(s, i, NumberEnd(s, i).value)
  {
    var j := WholeStart(s, i);
    var k := j + DigitRun(s, j);
    var e := NumberEnd(s, i).value;
    DigitRunDigits(s, j);
    if k < e {
      DigitRunDigits(s, k + 1);
      assert j < k < e - 1 && IsDecimalMark(s[k]) && AllDigitsIn(s, j, k) && AllDigitsIn(s, k + 1, e);
    }
  }

  /** `_NUMBER_RE` tried at position `i`: the greedy (and only possible) match, split into
      its sign, whole digits and fraction digits. */
  function NumberAt(s: string, i: nat): (m: Option<NumberMatch>)
    requires i <= |s|
    ensures m.Some? <==> NumberEnd(s, i).Some?
    ensures m.Some? ==> m.value.end == NumberEnd(s, i).value
  {
    match NumberEnd(s, i)
    case None => None
    case Some(e) =>
      var j := WholeStart(s, i);
      var k := j + DigitRun(s, j);
      var negative := j == i + 1;
      if k < e then Some(NumberMatch(e, negative, s[j..k], s[k + 1..e]))
      else Some(NumberMatch(e, negative, s[j..k], ""))
  }

  /** Any numeral at `i` means the scanner matches at `i`. */
  lemma NumberAtComplete(s: string, i: nat, e: nat)
    requires i <= e <= |s| && NumeralAt(s, i, e)
    ensures NumberEnd(s, i).Some?
  {
    var j := if i < e && s[i] == '-' then i + 1 else i;
    assert IsDigit(s[j]) by {
      if !AllDigitsIn(s, j, e) {
        var p :| j < p < e - 1 && IsDecimalMark(s[p]) && AllDigitsIn(s, j, p) && AllDigitsIn(s, p + 1, e);
      }
    }
  }

  /** A numeral at `i` that is not followed by a digit or a decimal mark is exactly what
      the greedy scanner takes. */
  lemma NumberAtMaximal(s: string, i: nat, e: nat)
    requires i <= e <= |s| && NumeralAt(s, i, e)
    requires e < |s| ==> !IsDigit(s[e]) && !IsDecimalMark(s[e])
    ensures NumberEnd(s, i) == Some(e)
  {
    var j := WholeStart(s, i);
    if AllDigitsIn(s, j, e) {
      WholeEnd(s, i, j, e);
    } else {
      var p :| j < p < e - 1 && IsDecimalMark(s[p]) && AllDigitsIn(s, j, p) && AllDigitsIn(s, p + 1, e);
      FractionEnd(s, i, j, p, e);
    }
  }

  lemma WholeEnd(s: string, i: nat, j: nat, e: nat)
    requires i <= |s| && j == WholeStart(s, i) && j < e <= |s| && AllDigitsIn(s, j, e)
    requires e < |s| ==> !IsDigit(s[e]) && !IsDecimalMark(s[e])
    ensures NumberEnd(s, i) == Some(e)
  {
    DigitRunExact(s, j, e);
  }

  lemma FractionEnd(s: string, i: nat, j: nat, p: nat, e: nat)
    requires i <= |s| && j == WholeStart(s, i) && j < p < e - 1 && e <= |s|
    requires IsDecimalMark(s[p]) && AllDigitsIn(s, j, p) && AllDigitsIn(s, p + 1, e)
    requires e < |s| ==> !IsDigit(s[e])
    ensures NumberEnd(s, i) == Some(e)
  {
    DigitRunExact(s, j, p);
    DigitRunExact(s, p + 1, e);
  }

  /** A digit run from `a` to `b` that stops at a non-digit is the whole run. */
  lemma {:induction false} DigitRunExact(s: string, a: nat, b: nat)
    requires a <= b <= |s| && AllDigitsIn(s, a, b)
    requires b < |s| ==> !IsDigit(s[b])
    ensures DigitRun(s, a) == b - a
    decreases b - a
  {
    if a < b {
      DigitRunExact(s, a + 1, b);
    }
  }

  /** The end of the run of whitespace that starts at `i` (`\s*`). */
  function SkipSpace(s: string, i: nat): (j: nat)
    requires i <= |s|
    ensures i <= j <= |s|
    decreases |s| - i
  {
    if i < |s| && IsSpace(s[i]) then SkipSpace(s, i + 1) else i
  }

  /** Every character `SkipSpace` skips is whitespace, and it stops at a non-blank or at
      the end of `s`. */
  lemma {:induction false} SkipSpaceBlanks(s: string, i: nat)
    requires i <= |s|
    ensures AllSpaceIn(s, i, SkipSpace(s, i))
    ensures SkipSpace(s, i) < |s| ==> !IsSpace(s[SkipSpace(s, i)])
    decreases |s| - i
  {
    if i < |s| && IsSpace(s[i]) {
      SkipSpaceBlanks(s, i + 1);
    }
  }

  lemma {:induction false} SkipSpaceExact(s: string, a: nat, b: nat)
    requires a <= b <= |s| && AllSpaceIn(s, a, b)
    requires b < |s| ==> !IsSpace(s[b])
    ensures SkipSpace(s, a) == b
    decreases b - a
  {
    if a < b {
      SkipSpaceExact(s, a + 1, b);
    }
  }

  /** A `_RANGE_RE` match, as positions: where it starts, where its first numeral ends,
      where its dash is, and where its second numeral starts and ends. */
  datatype RangeMatch = RangeMatch(start: nat, lowEnd: nat, dash: nat, second: nat, highEnd: nat)

  /** `s` from `i` on reads numeral `s[i..e1]`, blanks, the dash `s[a]`, blanks and numeral
      `s[b..e2]`: the language of `_RANGE_RE`. */
  predicate RangeShape(s: string, i: nat, e1: nat, a: nat, b: nat, e2: nat) {
    && i <= e1 <= a < b <= e2 <= |s|
    && NumeralAt(s, i, e1) && AllSpaceIn(s, e1, a) && IsDash(s[a])
    && AllSpaceIn(s, a + 1, b) && NumeralAt(s, b, e2)
  }

  /** `_RANGE_RE` tried at position `i`: the low bound is the numeral at `i`, the dash
      follows it after blanks, and the high bound is the numeral after the dash and more
      blanks. `RangeAtSound` and `RangeAtComplete` relate it to the pattern's language. */
  function RangeAt(s: string, i: nat): (m: Option<RangeMatch>)
    requires i <= |s|
    ensures m.Some? ==>
      && m.value.start == i && NumberEnd(s, i) == Some(m.value.lowEnd)
      && m.value.dash == SkipSpace(s, m.value.lowEnd) && m.value.dash < |s| && IsDash(s[m.value.dash])
      && m.value.second == SkipSpace(s, m.value.dash + 1) && NumberEnd(s, m.value.second) == Some(m.value.highEnd)
  {
    match NumberEnd(s, i)
    case None => None
    case Some(e1) => RangeAfter(s, i, e1)
  }

  /** The rest of `_RANGE_RE` once its first numeral has matched from `i` to `e1`. */
  function RangeAfter(s: string, i: nat, e1: nat): Option<RangeMatch>
    requires e1 <= |s|
  {
    var a := SkipSpace(s, e1);
    if a < |s| && IsDash(s[a]) then
      var b := SkipSpace(s, a + 1);
      match NumberEnd(s, b)
      case None => None
      case Some(e2) => Some(RangeMatch(i, e1, a, b, e2))
    else None
  }

  /** The values of the two numerals of a range found in `s`, low bound first. */
  function RangeValues(s: string, m: RangeMatch): (real, real)
    requires m.start <= |s| && RangeAt(s, m.start) == Some(m)
  {
    (NumberAt(s, m.start).value.Value(), NumberAt(s, m.second).value.Value())
  }

  /** What the scanner matches at `i` reads the range shape: its low numeral, the blanks,
      its dash, the blanks and its high numeral, each where the match says. */
  lemma RangeAtSound(s: string, i: nat)
    requires i <= |s| && RangeAt(s, i).Some?
    ensures var m := RangeAt(s, i).value;
      RangeShape(s, i, m.lowEnd, m.dash, m.second, m.highEnd)
  {
    var m := RangeAt(s, i).value;
    NumberEndSound(s, i);
    SkipSpaceBlanks(s, m.lowEnd);
    SkipSpaceBlanks(s, m.dash + 1);
    NumberEndSound(s, m.second);
  }

  /** Whenever `s` from `i` on reads numeral, blanks, dash, blanks, numeral (the language
      of `_RANGE_RE`), the scanner matches at `i`, with that low numeral, that dash and the
      high numeral starting where that one does: no backtracking alternative is missed. */
  lemma RangeAtComplete(s: string, i: nat, e1: nat, a: nat, b: nat, e2: nat)
    requires RangeShape(s, i, e1, a, b, e2)
    ensures RangeAt(s, i).Some?
    ensures var m := RangeAt(s, i).value; m.lowEnd == e1 && m.dash == a && m.second == b
  {
    RangeShapeScanned(s, i, e1, a, b, e2);
    RangeAtOfScan(s, i, e1, a, b);
  }

  /** What the scanners find on a range shape. */
  lemma RangeShapeScanned(s: string, i: nat, e1: nat, a: nat, b: nat, e2: nat)
    requires RangeShape(s, i, e1, a, b, e2)
    ensures NumberEnd(s, i) == Some(e1) && SkipSpace(s, e1) == a && a < |s| && IsDash(s[a])
    ensures a + 1 <= |s| && SkipSpace(s, a + 1) == b && NumberEnd(s, b).Some?
  {
    NumberAtMaximal(s, i, e1);
    SkipSpaceExact(s, e1, a);
    NumeralStartsSolid(s, b, e2);
    SkipSpaceExact(s, a + 1, b);
    NumberAtComplete(s, b, e2);
  }

  lemma RangeAtOfScan(s: string, i: nat, e1: nat, a: nat, b: nat)
    requires i <= |s| && NumberEnd(s, i) == Some(e1) && SkipSpace(s, e1) == a
    requires a < |s| && IsDash(s[a]) && SkipSpace(s, a + 1) == b && NumberEnd(s, b).Some?
    ensures RangeAt(s, i) == Some(RangeMatch(i, e1, a, b, NumberEnd(s, b).value))
  {
    RangeAfterOfScan(s, i, e1, a, b, NumberEnd(s, b).value);
  }

  lemma RangeAfterOfScan(s: string, i: nat, e1: nat, a: nat, b: nat, e2: nat)
    requires e1 <= |s| && SkipSpace(s, e1) == a
    requires a < |s| && IsDash(s[a]) && SkipSpace(s, a + 1) == b && NumberEnd(s, b) == Some(e2)
    ensures RangeAfter(s, i, e1) == Some(RangeMatch(i, e1, a, b, e2))
  {}

  /** A numeral starts with a minus or a digit, never with a blank. */
  lemma NumeralStartsSolid(s: string, b: nat, e: nat)
    requires b <= e <= |s| && NumeralAt(s, b, e)
    ensures b < |s| && !IsSpace(s[b])
  {
    var j := if b < e && s[b] == '-' then b + 1 else b;
    if !AllDigitsIn(s, j, e) {
      var p :| j < p < e - 1 && IsDecimalMark(s[p]) && AllDigitsIn(s, j, p) && AllDigitsIn(s, p + 1, e);
    }
  }

  /** `re.search` with `_RANGE_RE` from position `i`: the leftmost match. */
  function SearchRangeFrom(s: string, i: nat): (m: Option<RangeMatch>)
    requires i <= |s|
    ensures m.Some? ==> i <= m.value.start <= |s| && RangeAt(s, m.value.start) == m
    decreases |s| - i
  {
    if RangeAt(s, i).Some? then RangeAt(s, i)
    else if i == |s| then None
    else SearchRangeFrom(s, i + 1)
  }

  /** No range pattern matches before the position `SearchRangeFrom` reports, nor anywhere
      when it reports none. */
  lemma {:induction false} SearchRangeLeftmost(s: string, i: nat, k: nat)
    requires i <= k <= |s|
    requires SearchRangeFrom(s, i).None? || k < SearchRangeFrom(s, i).value.start
    ensures RangeAt(s, k).None?
    decreases k - i
  {
    SearchRangeNotAt(s, i);
    if i < k {
      SearchRangeLeftmost(s, i + 1, k);
    }
  }

  /** A search from `i` that reports no match, or one starting later, found none at `i`
      and went on from `i + 1`. */
  lemma SearchRangeNotAt(s: string, i: nat)
    requires i <= |s|
    requires SearchRangeFrom(s, i).None? || i < SearchRangeFrom(s, i).value.start
    ensures RangeAt(s, i).None?
    ensures i < |s| ==> SearchRangeFrom(s, i) == SearchRangeFrom(s, i + 1)
  {
    SearchRangeHere(s, i);
  }

  /** `SearchRangeFrom` reports the match at `i` when there is one, and otherwise searches on. */
  lemma SearchRangeHere(s: string, i: nat)
    requires i <= |s|
    ensures RangeAt(s, i).Some? ==> SearchRangeFrom(s, i) == RangeAt(s, i)
    ensures RangeAt(s, i).None? && i < |s| ==> SearchRangeFrom(s, i) == SearchRangeFrom(s, i + 1)
  {}

  function SearchRange(s: string): Option<RangeMatch> {
    SearchRangeFrom(s, 0)
  }

  datatype NumberFound = NumberFound(start: nat, number: NumberMatch)

  /** `re.search` with `_NUMBER_RE` from position `i`: the leftmost match. */
  function SearchNumberFrom(s: string, i: nat): (m: Option<NumberFound>)
    requires i <= |s|
    ensures m.Some? ==> i <= m.value.start <= |s| && NumberAt(s, m.value.start) == Some(m.value.number)
    ensures forall k :: i <= k <= |s| && (m.None? || k < m.value.start) ==> NumberAt(s, k).None?
    decreases |s| - i
  {
    match NumberAt(s, i)
    case Some(n) => Some(NumberFound(i, n))
    case None => if i == |s| then None else SearchNumberFrom(s, i + 1)
  }

  function SearchNumber(s: string): Option<NumberFound> {
    SearchNumberFrom(s, 0)
  }

  /** `parse_float`: nothing for blank text or text holding a range anywhere; otherwise the
      leftmost decimal numeral, with `,` read as `.`; nothing if there is none. */
  function ParseFloat(valueRaw: string): (r: Option<real>)
    ensures AllSpace(valueRaw) ==> r.None?
    ensures SearchRange(Strip(valueRaw)).Some? ==> r.None?
  {
    StripEmptyIffAllSpace(valueRaw);
    var value := Strip(valueRaw);
    if value == [] || SearchRange(value).Some? then None
    else
      match SearchNumber(value)
      case None => None
      case Some(n) => Some(n.number.Value())
  }

  /** `parse_float` reads a value exactly when the stripped text holds no range and
      `re.search` finds a numeral in it, and the value is that numeral's. */
  lemma ParseFloatReads(valueRaw: string)
    ensures var v := Strip(valueRaw);
      && (ParseFloat(valueRaw).Some? <==> SearchRange(v).None? && SearchNumber(v).Some?)
      && (ParseFloat(valueRaw).Some? ==> ParseFloat(valueRaw).value == SearchNumber(v).value.number.Value())
  {
    var v := Strip(valueRaw);
    if v == [] {
      assert SearchNumber(v) == SearchNumberFrom(v, 0);
    }
  }

  /** A value `parse_float` reads is that of a numeral in the stripped text, and no numeral
      starts before it. */
  lemma ParseFloatLeftmost(valueRaw: string)
    requires ParseFloat(valueRaw).Some?
    ensures var v := Strip(valueRaw);
      exists p :: 0 <= p <= |v| && NumberAt(v, p).Some? && NumberAt(v, p).value.Value() == ParseFloat(valueRaw).value
                  && forall k :: 0 <= k < p ==> NumberAt(v, k).None?
  {
    var v := Strip(valueRaw);
    var p := SearchNumber(v).value.start;
    assert NumberAt(v, p).Some? && forall k :: 0 <= k < p ==> NumberAt(v, k).None?;
  }

  /** `parse_range`: both bounds of the leftmost range in the stripped text, in the order
      written, or neither. */
  function ParseRange(refRaw: string): (r: (Option<real>, Option<real>))
    ensures r.0.Some? <==> r.1.Some?
    ensures AllSpace(refRaw) ==> r.0.None?
    ensures r.0.Some? <==> SearchRange(Strip(refRaw)).Some?
  {
    StripEmptyIffAllSpace(refRaw);
    var ref := Strip(refRaw);
    if ref == [] then (None, None)
    else
      match SearchRange(ref)
      case None => (None, None)
      case Some(m) =>
        var (low, high) := RangeValues(ref, m);
        (Some(low), Some(high))
  }

  /** The bounds `parse_range` reads are the values of the first and the second numeral of
      the leftmost range, in the order written. */
  lemma ParseRangeReads(refRaw: string)
    requires ParseRange(refRaw).0.Some?
    ensures var m := SearchRange(Strip(refRaw)).value;
      (ParseRange(refRaw).0.value, ParseRange(refRaw).1.value) == RangeValues(Strip(refRaw), m)
  {}

  /** A string with a range anywhere in it (in the sense of the regular language) is never
      read as a single number. */
  lemma RangeIsNotAValue(valueRaw: string, i: nat, e1: nat, a: nat, b: nat, e2: nat)
    requires RangeShape(Strip(valueRaw), i, e1, a, b, e2)
    ensures ParseFloat(valueRaw).None?
  {
    RangeIsFound(Strip(valueRaw), i, e1, a, b, e2);
  }

  /** A string with a range anywhere in it always gives `parse_range` both bounds. */
  lemma RangeIsRead(refRaw: string, i: nat, e1: nat, a: nat, b: nat, e2: nat)
    requires RangeShape(Strip(refRaw), i, e1, a, b, e2)
    ensures ParseRange(refRaw).0.Some? && ParseRange(refRaw).1.Some?
  {
    RangeIsFound(Strip(refRaw), i, e1, a, b, e2);
  }

  lemma RangeIsFound(v: string, i: nat, e1: nat, a: nat, b: nat, e2: nat)
    requires RangeShape(v, i, e1, a, b, e2)
    ensures SearchRange(v).Some?
  {
    RangeAtComplete(v, i, e1, a, b, e2);
    if SearchRange(v).None? {
      SearchRangeLeftmost(v, 0, i);
    }
  }

  /** A string that holds a numeral somewhere and no range is always read as a number, and
      its value is that of the leftmost numeral. */
  lemma NumeralIsRead(valueRaw: string, p: nat, e: nat)
    requires var v := Strip(valueRaw); p <= e <= |v| && NumeralAt(v, p, e) && SearchRange(v).None?
    ensures var v := Strip(valueRaw);
      && SearchNumber(v).Some? && SearchNumber(v).value.start <= p
      && ParseFloat(valueRaw) == Some(SearchNumber(v).value.number.Value())
  {
    var v := Strip(valueRaw);
    NumberAtComplete(v, p, e);
    assert NumberAt(v, p).Some?;
    assert SearchNumberFrom(v, 0).Some?;
  }

  /** Whenever `parse_range` finds bounds, `parse_float` of the same text is None. */
  lemma RangeExcludesValue(s: string)
    requires ParseRange(s).0.Some?
    ensures ParseFloat(s).None?
  {}

  /** Text with no digit holds no number. */
  lemma NoDigitNoValue(valueRaw: string)
    requires forall k :: 0 <= k < |valueRaw| ==> !IsDigit(valueRaw[k])
    ensures ParseFloat(valueRaw).None?
  {
    var v := Strip(valueRaw);
    var lo := StripIsInfix(valueRaw);
    forall k | 0 <= k < |v|
      ensures !IsDigit(v[k])
    {
      assert v[k] == valueRaw[lo + k];
    }
    NoDigitNoNumber(v, 0);
  }

  lemma {:induction false} NoDigitNoNumber(s: string, i: nat)
    requires i <= |s|
    requires forall k :: 0 <= k < |s| ==> !IsDigit(s[k])
    ensures SearchNumberFrom(s, i).None?
    decreases |s| - i
  {
    if i < |s| {
      NoDigitNoNumber(s, i + 1);
    }
  }

  /** "5,4" reads as 5.4: a comma is a decimal mark. */
  lemma CommaDecimal()
    ensures ParseFloat("5,4") == Some(5.4)
  {
    StripNoop("5,4");
    CommaDecimalScan();
    CommaDecimalNoRange();
    CommaDecimalValue();
  }

  lemma CommaDecimalScan()
    ensures NumberEnd("5,4", 0) == Some(3) && NumberEnd("5,4", 1).None?
    ensures NumberEnd("5,4", 2) == Some(3) && NumberEnd("5,4", 3).None?
  {
    var s := "5,4";
    assert s[0] == '5' && s[1] == ',' && s[2] == '4';
    assert DigitRun(s, 3) == 0 && DigitRun(s, 2) == 1 && DigitRun(s, 1) == 0 && DigitRun(s, 0) == 1;
  }

  lemma CommaDecimalNoRange()
    requires NumberEnd("5,4", 0) == Some(3) && NumberEnd("5,4", 1).None?
    requires NumberEnd("5,4", 2) == Some(3) && NumberEnd("5,4", 3).None?
    ensures SearchRange("5,4").None?
  {
    var s := "5,4";
    assert SkipSpace(s, 3) == 3;
    assert RangeAt(s, 0).None? && RangeAt(s, 1).None? && RangeAt(s, 2).None? && RangeAt(s, 3).None?;
    assert SearchRangeFrom(s, 3).None? && SearchRangeFrom(s, 2).None?;
    assert SearchRangeFrom(s, 1).None?;
  }

  lemma CommaDecimalValue()
    requires NumberEnd("5,4", 0) == Some(3)
    ensures NumberAt("5,4", 0) == Some(NumberMatch(3, false, "5", "4"))
    ensures NumberMatch(3, false, "5", "4").Value() == 5.4
  {
    var s := "5,4";
    assert DigitRun(s, 0) == 1 by {
      assert s[0] == '5' && s[1] == ',';
    }
    assert s[0..1] == "5" && s[2..3] == "4";
    assert DigitsValue("5") == 5 && DigitsValue("4") == 4 && Pow10(1) == 10;
  }

  /** "4,0-10,0" reads as the bounds 4.0 and 10.0. */
  lemma DashRange()
    ensures ParseRange("4,0-10,0") == (Some(4.0), Some(10.0))
  {
    var s := "4,0-10,0";
    StripNoop(s);
    DashRangeMatch();
    SearchRangeHere(s, 0);
    DashRangeLow();
    DashRangeHigh();
  }

  lemma DashRangeMatch()
    ensures RangeAt("4,0-10,0", 0) == Some(RangeMatch(0, 3, 3, 4, 8))
  {
    DashRangeLow();
    DashRangeHigh();
    DashRangeDash();
    RangeAtOfScan("4,0-10,0", 0, 3, 3, 4);
  }

  lemma DashRangeDash()
    ensures "4,0-10,0"[3] == '-' && SkipSpace("4,0-10,0", 3) == 3 && SkipSpace("4,0-10,0", 4) == 4
  {
    var s := "4,0-10,0";
    assert s[3] == '-' && s[4] == '1';
  }

  lemma DashRangeLow()
    ensures NumberAt("4,0-10,0", 0) == Some(NumberMatch(3, false, "4", "0"))
    ensures NumberMatch(3, false, "4", "0").Value() == 4.0
  {
    DashRangeLowEnd();
    DashRangeLowDigits();
  }

  lemma DashRangeLowDigits()
    ensures "4,0-10,0"[0..1] == "4" && "4,0-10,0"[2..3] == "0"
    ensures DecimalValue(false, "4", "0") == 4.0
  {
    assert DigitsValue("4") == 4 && DigitsValue("0") == 0;
  }

  lemma DashRangeLowEnd()
    ensures DigitRun("4,0-10,0", 0) == 1 && NumberEnd("4,0-10,0", 0) == Some(3)
  {
    var s := "4,0-10,0";
    assert s[0] == '4' && s[1] == ',' && s[2] == '0' && s[3] == '-';
    assert DigitRun(s, 1) == 0 && DigitRun(s, 0) == 1;
    assert DigitRun(s, 3) == 0 && DigitRun(s, 2) == 1;
  }

  lemma DashRangeHigh()
    ensures NumberAt("4,0-10,0", 4) == Some(NumberMatch(8, false, "10", "0"))
    ensures NumberMatch(8, false, "10", "0").Value() == 10.0
  {
    var s := "4,0-10,0";
    assert s[4] == '1' && s[5] == '0' && s[6] == ',' && s[7] == '0';
    assert DigitRun(s, 6) == 0 && DigitRun(s, 5) == 1 && DigitRun(s, 4) == 2;
    assert DigitRun(s, 8) == 0 && DigitRun(s, 7) == 1;
    assert NumberEnd(s, 4) == Some(8);
    assert s[4..6] == "10" && s[7..8] == "0";
    assert DigitsValue("1") == 1 && DigitsValue("10") == 10 && DigitsValue("0") == 0;
  }

  /** A one-sided bound such as "> 3.9" is not a range. */
  lemma OneSidedIsNotRange()
    ensures ParseRange("> 3.9") == (None, None)
  {
    StripNoop("> 3.9");
    OneSidedNoRange();
  }

  lemma OneSidedNoRange()
    ensures SearchRange("> 3.9").None?
  {
    OneSidedScan();
    OneSidedNoRangeAt();
    OneSidedNoSearch();
  }

  lemma OneSidedNoRangeAt()
    requires NumberEnd("> 3.9", 0).None? && NumberEnd("> 3.9", 1).None? && NumberEnd("> 3.9", 3).None?
    requires NumberEnd("> 3.9", 2) == Some(5) && NumberEnd("> 3.9", 4) == Some(5) && NumberEnd("> 3.9", 5).None?
    ensures forall k :: 0 <= k <= 5 ==> RangeAt("> 3.9", k).None?
  {
    var s := "> 3.9";
    assert SkipSpace(s, 5) == 5;
  }

  lemma OneSidedNoSearch()
    requires forall k :: 0 <= k <= 5 ==> RangeAt("> 3.9", k).None?
    ensures SearchRange("> 3.9").None?
  {
    var s := "> 3.9";
    assert SearchRangeFrom(s, 5).None? && SearchRangeFrom(s, 4).None? && SearchRangeFrom(s, 3).None?;
    assert SearchRangeFrom(s, 2).None? && SearchRangeFrom(s, 1).None?;
  }

  lemma OneSidedScan()
    ensures NumberEnd("> 3.9", 0).None? && NumberEnd("> 3.9", 1).None? && NumberEnd("> 3.9", 3).None?
    ensures NumberEnd("> 3.9", 2) == Some(5) && NumberEnd("> 3.9", 4) == Some(5) && NumberEnd("> 3.9", 5).None?
  {
    OneSidedDigits();
  }

  lemma OneSidedDigits()
    ensures DigitRun("> 3.9", 5) == 0 && DigitRun("> 3.9", 4) == 1 && DigitRun("> 3.9", 3) == 0
    ensures DigitRun("> 3.9", 2) == 1 && DigitRun("> 3.9", 1) == 0 && DigitRun("> 3.9", 0) == 0
    ensures "> 3.9"[0] == '>' && "> 3.9"[1] == ' ' && "> 3.9"[3] == '.'
  {
    var s := "> 3.9";
    assert s[0] == '>' && s[1] == ' ' && s[2] == '3' && s[3] == '.' && s[4] == '9';
  }
}
