/** The Python string built-ins the modelled code relies on: `str.isspace`, `strip`,
    `lower`, `upper`, `title`, `replace` of one character, `join`, and the decimal
    rendering of an integer. Case mapping covers ASCII letters only. */
module Text {

  /** Python's `str.isspace()` for one character; it is also the set that `strip()`
      removes and that the regular-expression class `\s` matches. */
  predicate IsSpace(c: char) {
    c == ' ' || ('\t' <= c <= '\r') || ('\U{1c}' <= c <= '\U{1f}')
    || c == '\U{85}' || c == '\U{a0}' || c == '\U{1680}'
    || ('\U{2000}' <= c <= '\U{200a}') || c == '\U{2028}' || c == '\U{2029}'
    || c == '\U{202f}' || c == '\U{205f}' || c == '\U{3000}'
  }

  predicate IsUpper(c: char) { 'A' <= c <= 'Z' }
  predicate IsLower(c: char) { 'a' <= c <= 'z' }
  predicate IsLetter(c: char) { IsUpper(c) || IsLower(c) }
  predicate IsDigit(c: char) { '0' <= c <= '9' }

  predicate AllSpace(s: string) {
    forall i :: 0 <= i < |s| ==> IsSpace(s[i])
  }

  /** No whitespace at either end: what `strip()` leaves behind. */
  predicate Trimmed(s: string) {
    s == [] || (!IsSpace(s[0]) && !IsSpace(s[|s| - 1]))
  }

  function LStrip(s: string): (r: string)
    ensures |r| <= |s| && r == s[|s| - |r|..]
    ensures AllSpace(s[..|s| - |r|])
    ensures r == [] || !IsSpace(r[0])
  {
    if |s| > 0 && IsSpace(s[0]) then
      var r := LStrip(s[1..]);
      assert s[..|s| - |r|] == [s[0]] + s[1..][..|s[1..]| - |r|];
      r
    else s
  }

  function RStrip(s: string): (r: string)
    ensures |r| <= |s| && r == s[..|r|]
    ensures AllSpace(s[|r|..])
    ensures r == [] || !IsSpace(r[|r| - 1])
  {
    if |s| > 0 && IsSpace(s[|s| - 1]) then
      var r := RStrip(s[..|s| - 1]);
      assert s[|r|..] == s[..|s| - 1][|r|..] + [s[|s| - 1]];
      r
    else s
  }

  /** `s.strip()`: whitespace cut from both ends. */
  function Strip(s: string): (r: string)
    ensures Trimmed(r) && |r| <= |s|
  {
    var l := LStrip(s);
    var r := RStrip(l);
    assert r == [] || !IsSpace(r[0]) by {
      if r != [] { assert r[0] == l[0]; }
    }
    r
  }

  /** What `strip()` removes is whitespace only: the result is an infix of the input with
      nothing but whitespace on either side. */
  lemma StripIsInfix(s: string) returns (lo: nat)
    ensures lo + |Strip(s)| <= |s|
    ensures forall k :: 0 <= k < |Strip(s)| ==> Strip(s)[k] == s[lo + k]
    ensures forall k :: 0 <= k < lo ==> IsSpace(s[k])
    ensures forall k :: lo + |Strip(s)| <= k < |s| ==> IsSpace(s[k])
  {
    var l := LStrip(s);
    lo := LStripMargin(s);
    RStripMargin(l);
  }

  /** `lstrip()` drops a whitespace prefix and keeps the rest in place. */
  lemma LStripMargin(s: string) returns (lo: nat)
    ensures lo + |LStrip(s)| == |s|
    ensures forall k :: 0 <= k < |LStrip(s)| ==> LStrip(s)[k] == s[lo + k]
    ensures forall k :: 0 <= k < lo ==> IsSpace(s[k])
  {
    var l := LStrip(s);
    lo := |s| - |l|;
    forall k | 0 <= k < lo ensures IsSpace(s[k]) {
      assert s[..lo][k] == s[k];
    }
  }

  /** `rstrip()` drops a whitespace suffix and keeps the rest in place. */
  lemma RStripMargin(s: string)
    ensures forall k :: 0 <= k < |RStrip(s)| ==> RStrip(s)[k] == s[k]
    ensures forall k :: |RStrip(s)| <= k < |s| ==> IsSpace(s[k])
  {
    var r := RStrip(s);
    forall k | |r| <= k < |s| ensures IsSpace(s[k]) {
      assert s[|r|..][k - |r|] == s[k];
    }
  }

  lemma LStripNoop(s: string)
    requires s == [] || !IsSpace(s[0])
    ensures LStrip(s) == s
  {}

  lemma RStripNoop(s: string)
    requires s == [] || !IsSpace(s[|s| - 1])
    ensures RStrip(s) == s
  {}

  /** Stripping a string that has no whitespace at its ends changes nothing. */
  lemma StripNoop(s: string)
    requires Trimmed(s)
    ensures Strip(s) == s
  {
    LStripNoop(s);
    RStripNoop(s);
  }
  /** A string without whitespace at its ends, lower-casing letter by letter to `k`:
      stripping keeps it and lower-casing gives `k`. */
  lemma PreferredSpelling(v: string, k: string)
    requires |v| == |k| > 0 && !IsSpace(v[0]) && !IsSpace(v[|v| - 1])
    requires forall i :: 0 <= i < |v| ==> LowerChar(v[i]) == k[i]
    ensures Trimmed(v) && Lower(v) == k && Strip(v) == v
  {
    StripNoop(v);
  }


  lemma StripIdempotent(s: string)
    ensures Strip(Strip(s)) == Strip(s)
  {
    StripNoop(Strip(s));
  }

  /** A string strips to "" exactly when it is whitespace only. */
  lemma {:induction false} StripEmptyIffAllSpace(s: string)
    ensures Strip(s) == [] <==> AllSpace(s)
  {
    var r := Strip(s);
    var lo := StripIsInfix(s);
    if r == [] {
      assert forall i :: 0 <= i < |s| ==> IsSpace(s[i]);
    } else {
      assert s[lo] == r[0];
    }
  }

  function LowerChar(c: char): (d: char)
    ensures IsUpper(c) ==> IsLower(d)
    ensures !IsUpper(c) ==> d == c
  {
    if IsUpper(c) then (c as int + 32) as char else c
  }

  function UpperChar(c: char): (d: char)
    ensures IsLower(c) ==> IsUpper(d)
    ensures !IsLower(c) ==> d == c
  {
    if IsLower(c) then (c as int - 32) as char else c
  }

  /** `s.lower()`, for ASCII letters. */
  function Lower(s: string): (r: string)
    ensures |r| == |s|
    ensures forall i :: 0 <= i < |s| ==> r[i] == LowerChar(s[i])
  {
    seq(|s|, i requires 0 <= i < |s| => LowerChar(s[i]))
  }

  /** `s.upper()`, for ASCII letters. */
  function Upper(s: string): (r: string)
    ensures |r| == |s|
    ensures forall i :: 0 <= i < |s| ==> r[i] == UpperChar(s[i])
  {
    seq(|s|, i requires 0 <= i < |s| => UpperChar(s[i]))
  }

  predicate NoUpper(s: string) {
    forall i :: 0 <= i < |s| ==> !IsUpper(s[i])
  }

  lemma LowerHasNoUpper(s: string)
    ensures NoUpper(Lower(s))
  {}

  lemma LowerNoop(s: string)
    requires NoUpper(s)
    ensures Lower(s) == s
  {}

  /** Lower-casing keeps every whitespace character in place, so it commutes with
      stripping. */
  lemma LowerKeepsTrimmed(s: string)
    requires Trimmed(s)
    ensures Trimmed(Lower(s))
  {}

  predicate NoLower(s: string) {
    forall i :: 0 <= i < |s| ==> !IsLower(s[i])
  }

  lemma UpperHasNoLower(s: string)
    ensures NoLower(Upper(s))
  {}

  lemma UpperNoop(s: string)
    requires NoLower(s)
    ensures Upper(s) == s
  {}

  /** Upper-casing keeps every whitespace character in place. */
  lemma UpperKeepsTrimmed(s: string)
    requires Trimmed(s)
    ensures Trimmed(Upper(s))
  {}

  /** `s.replace(a, b)` for one-character `a` and `b`. */
  function ReplaceChar(s: string, a: char, b: char): (r: string)
    ensures |r| == |s|
    ensures forall i :: 0 <= i < |s| ==> r[i] == if s[i] == a then b else s[i]
  {
    seq(|s|, i requires 0 <= i < |s| => if s[i] == a then b else s[i])
  }

  /** `s.title()`, for ASCII letters: a letter is upper-cased when the character before it
      is not a letter and lower-cased otherwise; every other character is kept. */
  function Title(s: string): (r: string)
    ensures |r| == |s|
  {
    TitleFrom(s, false)
  }

  function TitleFrom(s: string, previousIsCased: bool): (r: string)
    ensures |r| == |s|
    ensures forall i :: 0 <= i < |s| && !IsLetter(s[i]) ==> r[i] == s[i]
    ensures |s| > 0 && IsLetter(s[0]) ==> r[0] == if previousIsCased then LowerChar(s[0]) else UpperChar(s[0])
    ensures forall i :: 0 < i < |s| && IsLetter(s[i]) ==>
      r[i] == if IsLetter(s[i - 1]) then LowerChar(s[i]) else UpperChar(s[i])
  {
    if s == [] then []
    else
      var c := s[0];
      var d := if !IsLetter(c) then c else if previousIsCased then LowerChar(c) else UpperChar(c);
      var rest := TitleFrom(s[1..], IsLetter(c));
      [d] + rest
  }

  /** `sep.join(parts)`. */
  function Join(sep: string, parts: seq<string>): string {
    if parts == [] then ""
    else if |parts| == 1 then parts[0]
    else parts[0] + sep + Join(sep, parts[1..])
  }

  function DigitChar(d: nat): (c: char)
    requires d < 10
    ensures IsDigit(c) && DigitValue(c) == d
  {
    ('0' as int + d) as char
  }

  function DigitValue(c: char): nat {
    if IsDigit(c) then c as int - '0' as int else 0
  }

  /** The number a string of decimal digits denotes. */
  function DigitsValue(t: string): nat {
    if t == [] then 0 else DigitsValue(t[..|t| - 1]) * 10 + DigitValue(t[|t| - 1])
  }

  /** Decimal rendering of a natural number, as `str(n)` and `f"{n}"` print it: digits that
      denote `n`, with no leading zero except in "0" itself. */
  function NatToString(n: nat): (r: string)
    ensures |r| > 0
    ensures forall i :: 0 <= i < |r| ==> IsDigit(r[i])
    ensures DigitsValue(r) == n
    ensures r[0] == '0' ==> n == 0 && |r| == 1
  {
    if n < 10 then [DigitChar(n)]
    else
      var front := NatToString(n / 10);
      var r := front + [DigitChar(n % 10)];
      assert r[..|r| - 1] == front;
      r
  }

  /** `str(i)` for any Python int: the digits of its magnitude, after a minus when it is
      negative. */
  function IntToString(i: int): (r: string)
    ensures i >= 0 ==> DigitsValue(r) == i && forall k :: 0 <= k < |r| ==> IsDigit(r[k])
    ensures i < 0 ==> |r| > 1 && r[0] == '-' && DigitsValue(r[1..]) == -i
  {
    if i < 0 then
      var r := "-" + NatToString(-i);
      assert r[1..] == NatToString(-i);
      r
    else NatToString(i)
  }

  /** `f"{n:03d}"`: the decimal digits of `n`, zero-padded on the left to three digits. */
  function NatToString3(n: nat): (r: string)
    ensures |r| == if |NatToString(n)| >= 3 then |NatToString(n)| else 3
    ensures r[|r| - |NatToString(n)|..] == NatToString(n)
    ensures forall i :: 0 <= i < |r| - |NatToString(n)| ==> r[i] == '0'
  {
    var d := NatToString(n);
    if |d| >= 3 then d else seq(3 - |d|, _ => '0') + d
  }

  /** The zero padding leaves the number denoted unchanged. */
  lemma NatToString3Value(n: nat)
    ensures DigitsValue(NatToString3(n)) == n
  {
    var r := NatToString3(n);
    var d := NatToString(n);
    var zeros := r[..|r| - |d|];
    assert r == zeros + d;
    LeadingZerosValue(zeros, d);
  }

  /** Zeros in front of a string of digits do not change the number it denotes. */
  lemma {:induction false} LeadingZerosValue(zeros: string, d: string)
    requires forall i :: 0 <= i < |zeros| ==> zeros[i] == '0'
    ensures DigitsValue(zeros + d) == DigitsValue(d)
    decreases |d|
  {
    if d == [] {
      assert zeros + d == zeros;
      ZerosValue(zeros);
    } else {
      var front := d[..|d| - 1];
      assert (zeros + d)[..|zeros + d| - 1] == zeros + front;
      LeadingZerosValue(zeros, front);
    }
  }

  lemma {:induction false} ZerosValue(zeros: string)
    requires forall i :: 0 <= i < |zeros| ==> zeros[i] == '0'
    ensures DigitsValue(zeros) == 0
    decreases |zeros|
  {
    if zeros != [] {
      ZerosValue(zeros[..|zeros| - 1]);
    }
  }

  /** Python slicing `s[:n]`, which never fails: the first `n` characters, or all of `s`
      when it is shorter. */
  function Prefix(s: string, n: nat): (r: string)
    ensures |r| == if n < |s| then n else |s|
    ensures r <= s
  {
    if n <= |s| then s[..n] else s
  }
}
