/** The line-by-line regular-expression extractor (core/extract/regex.py).

    `_LINE_RE` is
      ^\s*(?P<name>[A-Za-z][A-Za-z0-9_\-/ ]{1,60})[:\s]+
      (?P<value>-?[0-9]+(?:[\.,][0-9]+)?|[A-Za-z]+)
      (?:\s+(?P<unit>[%A-Za-z0-9\*\^/]+))?
      (?:\s*\((?P<ref>[^)]{1,40})\))?\s*$
    `LineShape` says when a decomposition of a line into these parts matches it. Python's
    backtracking matcher tries the longest name first and shortens it one character at a
    time; every other part admits at most one choice that can still reach the end of the
    line (giving back a character of a run leaves, right after it, a character that the
    next part cannot start with). So `MatchLine` scans the parts greedily and searches
    only over the end of the name, longest first. `TailComplete` proves that a matching
    tail is always the scanned one, and `MatchLineSound`/`MatchLineLongest` that the
    match found is the matching decomposition with the longest name, and that there is
    one whenever any decomposition matches. */
module RegexExtract {
  import opened Wrappers
  import opened Text
  import opened JsonValues
  import opened Models
  import opened Numbers

  // ---- str.splitlines ----

  /** The line boundaries of `str.splitlines`. */
  predicate IsLineBreak(c: char) {
    c == '\n' || c == '\r' || c == '\U{b}' || c == '\U{c}' || c == '\U{1c}' || c == '\U{1d}'
    || c == '\U{1e}' || c == '\U{85}' || c == '\U{2028}' || c == '\U{2029}'
  }

  predicate NoLineBreak(s: string) {
    forall k :: 0 <= k < |s| ==> !IsLineBreak(s[k])
  }

  /** The index of the first line boundary of `s`, or `|s|`. */
  function FirstBreak(s: string): (j: nat)
    ensures j <= |s| && NoLineBreak(s[..j])
    ensures j < |s| ==> IsLineBreak(s[j])
  {
    if s == [] then 0
    else if IsLineBreak(s[0]) then 0
    else
      var j := 1 + FirstBreak(s[1..]);
      assert forall k :: 1 <= k < j ==> s[..j][k] == s[1..][..j - 1][k - 1];
      j
  }

  /** `s.splitlines()`: the lines without their boundaries, "\r\n" counting as one
      boundary, and no empty line after a final boundary. */
  function SplitLines(s: string): (lines: seq<string>)
    ensures forall i :: 0 <= i < |lines| ==> NoLineBreak(lines[i])
    decreases |s|
  {
    if s == [] then []
    else
      var j := FirstBreak(s);
      var next := if j < |s| && s[j] == '\r' && j + 1 < |s| && s[j + 1] == '\n' then j + 2
                  else if j < |s| then j + 1 else j;
      [s[..j]] + SplitLines(s[next..])
  }

  /** Lines without boundaries, joined by "\n", split back into the same lines, as long
      as the last one is not empty. */
  lemma {:induction false} SplitJoinedLines(lines: seq<string>)
    requires forall i :: 0 <= i < |lines| ==> NoLineBreak(lines[i])
    requires lines == [] || lines[|lines| - 1] != []
    ensures SplitLines(Join("\n", lines)) == lines
  {
    if |lines| == 1 {
      var s := Join("\n", lines);
      assert s == lines[0];
      FirstBreakOfLine(s, s);
      assert s[..|s|] == s;
    } else if |lines| > 1 {
      var rest := Join("\n", lines[1..]);
      var s := Join("\n", lines);
      assert s == lines[0] + "\n" + rest;
      FirstBreakOfLine(s, lines[0]);
      assert s[..|lines[0]|] == lines[0];
      assert s[|lines[0]| + 1..] == rest;
      SplitJoinedLines(lines[1..]);
    }
  }

  /** A string that starts with a line without boundaries, followed by a boundary or
      nothing, has its first boundary right after that line. */
  lemma FirstBreakOfLine(s: string, line: string)
    requires line <= s && NoLineBreak(line)
    requires |line| < |s| ==> IsLineBreak(s[|line|])
    ensures FirstBreak(s) == |line|
  {
  }

  // ---- character classes and runs ----

  /** `[A-Za-z0-9_\-/ ]`, the characters after the first one of a name. */
  predicate NameChar(c: char) {
    IsLetter(c) || IsDigit(c) || c == '_' || c == '-' || c == '/' || c == ' '
  }

  /** `[:\s]`, the separator between name and value. */
  predicate SepChar(c: char) {
    c == ':' || IsSpace(c)
  }

  /** `[%A-Za-z0-9\*\^/]`, the characters of a unit. */
  predicate UnitChar(c: char) {
    c == '%' || IsLetter(c) || IsDigit(c) || c == '*' || c == '^' || c == '/'
  }

  /** `[^)]`, the characters of a reference range. */
  predicate NotCloseParen(c: char) {
    c != ')'
  }

  predicate AllIn(s: string, a: nat, b: nat, p: char -> bool)
    requires a <= b <= |s|
  {
    forall k :: a <= k < b ==> p(s[k])
  }

  /** The end of the longest run of `p` characters that starts at `i`. */
  function RunEnd(s: string, i: nat, p: char -> bool): (j: nat)
    requires i <= |s|
    ensures i <= j <= |s| && AllIn(s, i, j, p)
    ensures j < |s| ==> !p(s[j])
    decreases |s| - i
  {
    if i < |s| && p(s[i]) then RunEnd(s, i + 1, p) else i
  }

  lemma {:induction false} RunEndExact(s: string, a: nat, b: nat, p: char -> bool)
    requires a <= b <= |s| && AllIn(s, a, b, p)
    requires b < |s| ==> !p(s[b])
    ensures RunEnd(s, a, p) == b
    decreases b - a
  {
    if a < b {
      RunEndExact(s, a + 1, b, p);
    }
  }

  lemma {:induction false} RunEndCovers(s: string, a: nat, b: nat, p: char -> bool)
    requires a <= b <= |s| && AllIn(s, a, b, p)
    ensures RunEnd(s, a, p) >= b
    decreases b - a
  {
    if a < b {
      RunEndCovers(s, a + 1, b, p);
    }
  }

  // ---- the parts after the name ----

  /** Character positions `start` to `end` of a line. */
  datatype Span = Span(start: nat, end: nat)

  /** Where the parts after the name end: the separator, the value, and the unit and the
      reference range when present. */
  datatype Tail = Tail(sepEnd: nat, valueEnd: nat, unit: Option<Span>, ref: Option<Span>)

  /** The end of the value group at `i`: the numeral alternative first, then letters. */
  function ValueEnd(s: string, i: nat): (e: Option<nat>)
    requires i <= |s|
    ensures e.Some? ==> i < e.value <= |s|
  {
    match NumberEnd(s, i)
    case Some(e) => Some(e)
    case None => if i < |s| && IsLetter(s[i]) then Some(RunEnd(s, i, IsLetter)) else None
  }

  /** `(?:\s+(?P<unit>...))?` tried at `v`: present when blanks are followed by a unit
      character. */
  function UnitAt(s: string, v: nat): (u: Option<Span>)
    requires v <= |s|
    ensures u.Some? ==> v < u.value.start < u.value.end <= |s|
  {
    var w := SkipSpace(s, v);
    if v < w && w < |s| && UnitChar(s[w]) then Some(Span(w, RunEnd(s, w, UnitChar))) else None
  }

  /** Where the unit part ends, or the value when there is no unit. */
  function UnitEnd(v: nat, unit: Option<Span>): nat {
    if unit.Some? then unit.value.end else v
  }

  /** `(?:\s*\((?P<ref>[^)]{1,40})\))?\s*$` tried at `c`: `None` when it fails, otherwise
      the reference range if there is one. */
  function RefAt(s: string, c: nat): Option<Option<Span>>
    requires c <= |s|
  {
    var w := SkipSpace(s, c);
    if w < |s| && s[w] == '(' then
      var e := RunEnd(s, w + 1, NotCloseParen);
      if 1 <= e - (w + 1) <= 40 && e < |s| && SkipSpace(s, e + 1) == |s| then Some(Some(Span(w + 1, e)))
      else None
    else if w == |s| then Some(None)
    else None
  }

  /** The rest of the pattern tried at `p`, the end of a candidate name. */
  function TailAt(s: string, p: nat): Option<Tail>
    requires p <= |s|
  {
    var sepEnd := RunEnd(s, p, SepChar);
    if sepEnd == p then None
    else
      match ValueEnd(s, sepEnd)
      case None => None
      case Some(v) =>
        var unit := UnitAt(s, v);
        match RefAt(s, UnitEnd(v, unit))
        case None => None
        case Some(ref) => Some(Tail(sepEnd, v, unit, ref))
  }

  /** `s[a..b]` is matched by the value group. */
  predicate ValueShape(s: string, a: nat, b: nat)
    requires a <= b <= |s|
  {
    a < b && (NumeralAt(s, a, b) || AllIn(s, a, b, IsLetter))
  }

  /** The unit part after a value ending at `v`: blanks, then unit characters. */
  predicate UnitShape(s: string, v: nat, unit: Option<Span>) {
    unit.Some? ==>
      && v < unit.value.start < unit.value.end <= |s|
      && AllSpaceIn(s, v, unit.value.start)
      && AllIn(s, unit.value.start, unit.value.end, UnitChar)
  }

  /** The end of the line from `c`: blanks, "(", 1 to 40 characters other than ")", ")"
      and blanks, or only blanks. */
  predicate RefShape(s: string, c: nat, ref: Option<Span>)
    requires c <= |s|
  {
    match ref
    case None => AllSpaceIn(s, c, |s|)
    case Some(r) =>
      && c < r.start && r.start + 1 <= r.end <= r.start + 40 && r.end < |s|
      && AllSpaceIn(s, c, r.start - 1) && s[r.start - 1] == '('
      && AllIn(s, r.start, r.end, NotCloseParen) && s[r.end] == ')'
      && AllSpaceIn(s, r.end + 1, |s|)
  }

  /** The text from `p` to the end of the line is matched by the rest of the pattern,
      with its parts ending where `t` says. */
  predicate TailShape(s: string, p: nat, t: Tail) {
    && p < t.sepEnd < t.valueEnd <= |s|
    && AllIn(s, p, t.sepEnd, SepChar)
    && ValueShape(s, t.sepEnd, t.valueEnd)
    && UnitShape(s, t.valueEnd, t.unit)
    && UnitEnd(t.valueEnd, t.unit) <= |s|
    && RefShape(s, UnitEnd(t.valueEnd, t.unit), t.ref)
  }

  lemma ValueSound(s: string, a: nat)
    requires a <= |s| && ValueEnd(s, a).Some?
    ensures ValueShape(s, a, ValueEnd(s, a).value)
  {
    if NumberEnd(s, a).Some? {
      NumberEndSound(s, a);
    }
  }

  /** A value followed by a blank, "(" or the end is exactly what the scanner takes. */
  lemma ValueComplete(s: string, a: nat, b: nat)
    requires a <= b <= |s| && ValueShape(s, a, b)
    requires b < |s| ==> IsSpace(s[b]) || s[b] == '('
    ensures ValueEnd(s, a) == Some(b)
  {
    if NumeralAt(s, a, b) {
      NumberAtMaximal(s, a, b);
    } else {
      assert IsLetter(s[a]);
      assert DigitRun(s, a) == 0;
      RunEndExact(s, a, b, IsLetter);
    }
  }

  /** The first character of a value is not a separator character. */
  lemma ValueStartsClean(s: string, a: nat, b: nat)
    requires a <= b <= |s| && ValueShape(s, a, b)
    ensures a < |s| && !SepChar(s[a]) && !IsSpace(s[a])
  {
    if NumeralAt(s, a, b) {
      var j := if a < b && s[a] == '-' then a + 1 else a;
      if !AllDigitsIn(s, j, b) {
        var q :| j < q < b - 1 && IsDecimalMark(s[q]) && AllDigitsIn(s, j, q) && AllDigitsIn(s, q + 1, b);
        assert IsDigit(s[j]);
      }
    }
  }

  /** The last character of a value is a digit or a letter. */
  lemma ValueEndsClean(s: string, a: nat, b: nat)
    requires a <= b <= |s| && ValueShape(s, a, b)
    ensures !IsSpace(s[b - 1])
  {
    if NumeralAt(s, a, b) {
      var j := if a < b && s[a] == '-' then a + 1 else a;
      if !AllDigitsIn(s, j, b) {
        var q :| j < q < b - 1 && IsDecimalMark(s[q]) && AllDigitsIn(s, j, q) && AllDigitsIn(s, q + 1, b);
      }
      assert IsDigit(s[b - 1]);
    }
  }

  /** The end of a line from `c` starts with a blank, "(" or nothing. */
  lemma RefStart(s: string, c: nat, ref: Option<Span>)
    requires c <= |s| && RefShape(s, c, ref)
    ensures c < |s| ==> IsSpace(s[c]) || s[c] == '('
  {
    if c < |s| {
      if ref.None? {
        assert IsSpace(s[c]);
      } else if c < ref.value.start - 1 {
        assert IsSpace(s[c]);
      }
    }
  }

  lemma RefSound(s: string, c: nat)
    requires c <= |s| && RefAt(s, c).Some?
    ensures RefShape(s, c, RefAt(s, c).value)
  {
    var w := SkipSpace(s, c);
    SkipSpaceBlanks(s, c);
    if w < |s| && s[w] == '(' {
      var e := RunEnd(s, w + 1, NotCloseParen);
      if e < |s| {
        SkipSpaceBlanks(s, e + 1);
      }
    }
  }

  /** The end of a line that matches is exactly what the scanner takes. */
  lemma RefComplete(s: string, c: nat, ref: Option<Span>)
    requires c <= |s| && RefShape(s, c, ref)
    ensures RefAt(s, c) == Some(ref)
  {
    match ref
    case Some(r) =>
      SkipSpaceExact(s, c, r.start - 1);
      RunEndExact(s, r.start, r.end, NotCloseParen);
      SkipSpaceExact(s, r.end + 1, |s|);
    case None =>
      SkipSpaceExact(s, c, |s|);
  }

  /** A unit part followed by a matching end of line is exactly what the scanner takes,
      and so is its absence. */
  lemma UnitComplete(s: string, v: nat, unit: Option<Span>, ref: Option<Span>)
    requires v <= |s| && UnitShape(s, v, unit) && UnitEnd(v, unit) <= |s| && RefShape(s, UnitEnd(v, unit), ref)
    ensures UnitAt(s, v) == unit
  {
    match unit
    case Some(u) =>
      SkipSpaceExact(s, v, u.start);
      RefStart(s, u.end, ref);
      RunEndExact(s, u.start, u.end, UnitChar);
    case None =>
      match ref
      case Some(r) => SkipSpaceExact(s, v, r.start - 1);
      case None => SkipSpaceExact(s, v, |s|);
  }

  /** What the scanner finds matches the pattern. */
  lemma TailSound(s: string, p: nat)
    requires p <= |s| && TailAt(s, p).Some?
    ensures TailShape(s, p, TailAt(s, p).value)
  {
    var sepEnd := RunEnd(s, p, SepChar);
    var v := ValueEnd(s, sepEnd).value;
    ValueSound(s, sepEnd);
    SkipSpaceBlanks(s, v);
    RefSound(s, UnitEnd(v, UnitAt(s, v)));
  }

  /** Any matching tail is the one the scanner finds: after a given name end there is at
      most one way to match the rest of the pattern, and `TailAt` finds it. */
  lemma TailComplete(s: string, p: nat, t: Tail)
    requires p <= |s| && TailShape(s, p, t)
    ensures TailAt(s, p) == Some(t)
  {
    ValueStartsClean(s, t.sepEnd, t.valueEnd);
    RunEndExact(s, p, t.sepEnd, SepChar);
    if t.unit.Some? {
      assert IsSpace(s[t.valueEnd]);
    } else {
      RefStart(s, t.valueEnd, t.ref);
    }
    ValueComplete(s, t.sepEnd, t.valueEnd);
    UnitComplete(s, t.valueEnd, t.unit, t.ref);
    RefComplete(s, UnitEnd(t.valueEnd, t.unit), t.ref);
  }

  // ---- the whole line ----

  /** A match: where the name starts and ends, and the tail after it. */
  datatype LineMatch = LineMatch(lead: nat, nameEnd: nat, tail: Tail)

  /** `m` decomposes the line as the pattern requires: leading blanks, a name of 2 to 61
      characters starting with a letter, and a matching tail. */
  predicate LineShape(s: string, m: LineMatch) {
    && m.lead < |s| && AllSpaceIn(s, 0, m.lead) && IsLetter(s[m.lead])
    && m.lead + 2 <= m.nameEnd <= m.lead + 61 && m.nameEnd <= |s|
    && AllIn(s, m.lead + 1, m.nameEnd, NameChar)
    && TailShape(s, m.nameEnd, m.tail)
  }

  /** Backtracking over the name: try the name ending at `e`, then one shorter, down to
      two characters. */
  function NameSearch(s: string, lead: nat, e: nat): (m: Option<LineMatch>)
    requires e <= |s|
    ensures m.Some? ==> m.value.lead == lead && lead + 2 <= m.value.nameEnd <= e
                        && TailAt(s, m.value.nameEnd) == Some(m.value.tail)
    decreases e
  {
    if e < lead + 2 then None
    else
      match TailAt(s, e)
      case Some(t) => Some(LineMatch(lead, e, t))
      case None => NameSearch(s, lead, e - 1)
  }

  /** The search finds a name at least as long as any name with a matching tail. */
  lemma {:induction false} NameSearchLongest(s: string, lead: nat, e: nat, e': nat)
    requires e <= |s| && lead + 2 <= e' <= e && TailAt(s, e').Some?
    ensures NameSearch(s, lead, e).Some? && NameSearch(s, lead, e).value.nameEnd >= e'
    decreases e
  {
    if e != e' && TailAt(s, e).None? {
      NameSearchLongest(s, lead, e - 1, e');
    }
  }

  /** `_LINE_RE.match(line)`. */
  function MatchLine(s: string): Option<LineMatch> {
    var lead := SkipSpace(s, 0);
    if lead < |s| && IsLetter(s[lead]) then
      var run := RunEnd(s, lead + 1, NameChar);
      NameSearch(s, lead, if run < lead + 61 then run else lead + 61)
    else None
  }

  /** A match decomposes the line as the pattern requires. */
  lemma MatchLineSound(s: string)
    requires MatchLine(s).Some?
    ensures LineShape(s, MatchLine(s).value)
  {
    var m := MatchLine(s).value;
    SkipSpaceBlanks(s, 0);
    TailSound(s, m.nameEnd);
  }

  /** Whenever the line can be decomposed as the pattern requires, it matches, with a
      name at least as long. */
  lemma MatchLineLongest(s: string, m: LineMatch)
    requires LineShape(s, m)
    ensures MatchLine(s).Some?
    ensures MatchLine(s).value.lead == m.lead && MatchLine(s).value.nameEnd >= m.nameEnd
  {
    SkipSpaceExact(s, 0, m.lead);
    RunEndCovers(s, m.lead + 1, m.nameEnd, NameChar);
    TailComplete(s, m.nameEnd, m.tail);
    var run := RunEnd(s, m.lead + 1, NameChar);
    var bound := if run < m.lead + 61 then run else m.lead + 61;
    MatchLineSearches(s, m.lead, bound);
    NameSearchLongest(s, m.lead, bound, m.nameEnd);
  }

  /** After the leading blanks and a letter, the match is the name search up to the end
      of the name characters, or 61 characters on. */
  lemma MatchLineSearches(s: string, lead: nat, bound: nat)
    requires lead == SkipSpace(s, 0) && lead < |s| && IsLetter(s[lead])
    requires var run := RunEnd(s, lead + 1, NameChar); bound == if run < lead + 61 then run else lead + 61
    ensures bound <= |s| && MatchLine(s) == NameSearch(s, lead, bound)
  {}

  /** A line matches exactly when some decomposition fits the pattern. */
  lemma MatchIff(s: string)
    ensures MatchLine(s).Some? <==> exists m :: LineShape(s, m)
  {
    if MatchLine(s).Some? {
      MatchLineSound(s);
    }
    if m :| LineShape(s, m) {
      MatchLineLongest(s, m);
    }
  }

  // ---- fields ----

  const Confidence := 0.3
  const NoFieldsWarning := "Regex extractor could not parse any fields"

  function Slice(s: string, span: Span): string
    requires span.start <= span.end <= |s|
  {
    s[span.start..span.end]
  }

  /** The field built from a match: every group stripped, an absent group as "". */
  function FieldOfMatch(line: string, m: LineMatch): ExtractedField
    requires LineShape(line, m)
  {
    var t := m.tail;
    ExtractedField(
      nameRaw := Strip(line[m.lead..m.nameEnd]),
      valueRaw := Strip(line[t.sepEnd..t.valueEnd]),
      unitRaw := if t.unit.Some? then Strip(Slice(line, t.unit.value)) else "",
      refRaw := if t.ref.Some? then Strip(Slice(line, t.ref.value)) else "",
      flagsRaw := "",
      evidence := map["raw_text" := Str(Strip(line))],
      confidence := Confidence)
  }

  /** The field a line gives, if it matches. */
  function FieldOfLine(line: string): Option<ExtractedField> {
    match MatchLine(line)
    case None => None
    case Some(m) =>
      MatchLineSound(line);
      Some(FieldOfMatch(line, m))
  }

  /** Stripping a string that starts with a non-blank leaves a non-empty prefix of it. */
  lemma StripKeepsStart(s: string)
    requires s != [] && !IsSpace(s[0])
    ensures Strip(s) != [] && Strip(s) <= s && Strip(s)[0] == s[0]
  {
    var lo := StripIsInfix(s);
    StripEmptyIffAllSpace(s);
    assert lo == 0;
    assert Strip(s) == s[..|Strip(s)|];
  }

  /** A name group, stripped, still starts with its letter and keeps to the name class. */
  lemma StrippedName(name: string)
    requires name != [] && IsLetter(name[0]) && |name| <= 61
    requires forall k :: 1 <= k < |name| ==> NameChar(name[k])
    ensures var n := Strip(name);
      && n != [] && IsLetter(n[0]) && |n| <= 61 && Trimmed(n)
      && forall k :: 0 <= k < |n| ==> NameChar(n[k])
  {
    StripKeepsStart(name);
    var n := Strip(name);
    assert forall k :: 0 <= k < |n| ==> n[k] == name[k];
  }

  /** A value group has no blank at either end, so stripping keeps it whole. */
  lemma StrippedValue(line: string, a: nat, b: nat)
    requires a <= b <= |line| && ValueShape(line, a, b)
    ensures Strip(line[a..b]) == line[a..b] != []
  {
    ValueStartsClean(line, a, b);
    ValueEndsClean(line, a, b);
    StripNoop(line[a..b]);
  }

  /** A unit group is made of unit characters only, none of them blank. */
  lemma StrippedUnit(unit: string)
    requires unit != [] && forall k :: 0 <= k < |unit| ==> UnitChar(unit[k])
    ensures Strip(unit) == unit
  {
    assert !IsSpace(unit[0]) && !IsSpace(unit[|unit| - 1]);
    StripNoop(unit);
  }

  /** A range group, stripped, stays within 40 characters and has no ")". */
  lemma StrippedRef(ref: string)
    requires |ref| <= 40 && forall k :: 0 <= k < |ref| ==> ref[k] != ')'
    ensures |Strip(ref)| <= 40 && forall k :: 0 <= k < |Strip(ref)| ==> Strip(ref)[k] != ')'
  {
    var lo := StripIsInfix(ref);
    assert forall k :: 0 <= k < |Strip(ref)| ==> Strip(ref)[k] == ref[lo + k];
  }

  /** The name of the field of a match starts with a letter, has at most 61 characters,
      all from the name class, and no blank at either end. */
  lemma MatchName(line: string, m: LineMatch)
    requires LineShape(line, m)
    ensures var n := FieldOfMatch(line, m).nameRaw;
      && n != [] && IsLetter(n[0]) && |n| <= 61 && Trimmed(n)
      && forall k :: 0 <= k < |n| ==> NameChar(n[k])
  {
    var name := line[m.lead..m.nameEnd];
    assert forall k :: 1 <= k < |name| ==> name[k] == line[m.lead + k];
    StrippedName(name);
  }

  /** The value of the field of a match is the value group as it is: a numeral or a run of
      letters. */
  lemma MatchValue(line: string, m: LineMatch)
    requires LineShape(line, m)
    ensures FieldOfMatch(line, m).valueRaw == line[m.tail.sepEnd..m.tail.valueEnd] != []
    ensures ValueShape(line, m.tail.sepEnd, m.tail.valueEnd)
  {
    StrippedValue(line, m.tail.sepEnd, m.tail.valueEnd);
  }

  /** The unit of the field of a match is made of unit characters. */
  lemma MatchUnit(line: string, m: LineMatch)
    requires LineShape(line, m)
    ensures var u := FieldOfMatch(line, m).unitRaw;
      forall k :: 0 <= k < |u| ==> UnitChar(u[k])
  {
    var t := m.tail;
    if t.unit.Some? {
      var unit := Slice(line, t.unit.value);
      assert forall k :: 0 <= k < |unit| ==> unit[k] == line[t.unit.value.start + k];
      StrippedUnit(unit);
    }
  }

  /** The range of the field of a match has at most 40 characters and no ")". */
  lemma MatchRef(line: string, m: LineMatch)
    requires LineShape(line, m)
    ensures var r := FieldOfMatch(line, m).refRaw;
      |r| <= 40 && forall k :: 0 <= k < |r| ==> r[k] != ')'
  {
    var t := m.tail;
    if t.ref.Some? {
      RefSpanText(line, UnitEnd(t.valueEnd, t.unit), t.ref.value);
      StrippedRef(Slice(line, t.ref.value));
    }
  }

  /** The text of a range group has at most 40 characters and no ")". */
  lemma RefSpanText(s: string, c: nat, r: Span)
    requires c <= |s| && RefShape(s, c, Some(r))
    ensures r.start <= r.end <= |s|
    ensures var ref := Slice(s, r); |ref| <= 40 && forall k :: 0 <= k < |ref| ==> ref[k] != ')'
  {
    var ref := Slice(s, r);
    assert forall k :: 0 <= k < |ref| ==> ref[k] == s[r.start + k];
  }

  // ---- the extractor ----

  /** The per-line outcomes. */
  function LineOutcomes(lines: seq<string>): (r: seq<Option<ExtractedField>>)
    ensures |r| == |lines|
    ensures forall i :: 0 <= i < |lines| ==> r[i] == FieldOfLine(lines[i])
  {
    seq(|lines|, i requires 0 <= i < |lines| => FieldOfLine(lines[i]))
  }

  /** The fields of the lines: the matching lines' fields, in line order. */
  function FieldsOfLines(lines: seq<string>): (fields: seq<ExtractedField>)
    ensures |fields| <= |lines|
  {
    Present(LineOutcomes(lines))
  }

  /** The field of a matching line carries confidence 0.3, no flags and the line,
      stripped, as its evidence, and has a non-empty name and value. */
  lemma FieldOfLineContents(line: string)
    requires FieldOfLine(line).Some?
    ensures MatchLine(line).Some?
    ensures var f := FieldOfLine(line).value;
      && f.confidence == 0.3 && f.flagsRaw == "" && f.nameRaw != [] && f.valueRaw != []
      && f.evidence == map["raw_text" := Str(Strip(line))]
  {
    MatchLineSound(line);
    MatchName(line, MatchLine(line).value);
    MatchValue(line, MatchLine(line).value);
  }

  /** Every field comes from a line that matches. */
  lemma FieldsComeFromLines(lines: seq<string>, f: ExtractedField) returns (i: nat)
    requires f in FieldsOfLines(lines)
    ensures i < |lines| && FieldOfLine(lines[i]) == Some(f)
  {
    i := PresentMember(LineOutcomes(lines), f);
  }

  /** `RegexExtractor.extract` as a value. */
  function ReportOf(document: RawDocument): ExtractedReport {
    var fields := FieldsOfLines(SplitLines(document.text));
    ExtractedReport(document, fields, if fields == [] then [NoFieldsWarning] else [], map[])
  }

  /** `RegexExtractor.extract`: the lines in order, one field per matching line, and the
      warning exactly when no line matched. */
  method Extract(document: RawDocument) returns (r: ExtractedReport)
    ensures r == ReportOf(document)
    ensures r.warnings == [NoFieldsWarning] <==> r.fields == []
    ensures r.warnings == [] <==> r.fields != []
  {
    var lines := SplitLines(document.text);
    ghost var outcomes := LineOutcomes(lines);
    var fields: seq<ExtractedField> := [];
    var index := 0;
    while index < |lines|
      invariant 0 <= index <= |lines|
      invariant fields == Present(outcomes[..index])
    {
      PresentStep(outcomes, index);
      var found := MatchLine(lines[index]);
      if found.Some? {
        MatchLineSound(lines[index]);
        fields := fields + [FieldOfMatch(lines[index], found.value)];
      }
      index := index + 1;
    }
    assert outcomes[..index] == outcomes;

    var warnings: seq<string> := [];
    if fields == [] {
      warnings := warnings + [NoFieldsWarning];
    }
    r := ExtractedReport(document, fields, warnings, map[]);
  }
}
