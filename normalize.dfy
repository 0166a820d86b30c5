/** Normalisation of an extracted report (core/normalize/pipeline.py): one observation per
    field with a usable name, carrying the canonical code, the parsed value, the normalised
    unit and the parsed reference range. */
module Normalize {
  import opened Wrappers
  import opened Text
  import opened JsonValues
  import opened Models
  import opened Names
  import opened Numbers
  import opened Units

  function EmptyNameWarning(index: nat): string {
    "Field " + NatToString(index) + " has empty name"
  }

  function UnparsedRangeWarning(nameRaw: string): string {
    "Field '" + nameRaw + "' has unparsed reference range"
  }

  /** The value kept for a field: the parsed number, or else the stripped text. */
  function NormalizedValue(valueRaw: string): (v: Value)
    ensures v.VNum? || v.VStr?
    ensures v.VNum? <==> ParseFloat(valueRaw).Some?
    ensures v.VNum? ==> v.x == ParseFloat(valueRaw).value
    ensures v.VStr? ==> v.s == Strip(valueRaw) && Trimmed(v.s)
  {
    match ParseFloat(valueRaw)
    case Some(x) => VNum(x)
    case None => VStr(Strip(valueRaw))
  }

  /** The observation a field yields, or none when its name is blank. */
  function ObservationFor(f: ExtractedField): (o: Option<NormalizedObservation>)
    ensures o.None? <==> AllSpace(f.nameRaw)
  {
    if AllSpace(f.nameRaw) then None
    else
      var range := ParseRange(f.refRaw);
      Some(NormalizedObservation(
        code := CanonicalizeName(f.nameRaw),
        value := NormalizedValue(f.valueRaw),
        unit := NormalizeUnit(f.unitRaw),
        refLow := range.0,
        refHigh := range.1,
        sourceName := f.nameRaw,
        confidence := f.confidence,
        evidence := f.evidence,
        flagsRaw := f.flagsRaw))
  }

  /** What the observation of a named field holds: a non-empty canonical code, the field's
      own name, confidence, evidence and flags, a trimmed normalised unit, a value that is
      the parsed number or the trimmed text, and both reference bounds or neither. */
  lemma ObservationContents(f: ExtractedField)
    requires !AllSpace(f.nameRaw)
    ensures var o := ObservationFor(f).value;
      && o.code == CanonicalizeName(f.nameRaw) && o.code != [] && NoUpper(o.code)
      && o.sourceName == f.nameRaw && o.confidence == f.confidence
      && o.evidence == f.evidence && o.flagsRaw == f.flagsRaw
      && o.unit == NormalizeUnit(f.unitRaw) && Trimmed(o.unit)
      && (o.value.VNum? <==> ParseFloat(f.valueRaw).Some?)
      && (o.value.VStr? ==> o.value.s == Strip(f.valueRaw))
      && (o.refLow.Some? <==> o.refHigh.Some?)
      && (o.refLow.Some? <==> ParseRange(f.refRaw).0.Some?)
  {}

  /** The warnings the field at position `index` adds: at most one, naming either the
      blank name or a reference range that is present but unreadable. */
  function FieldWarnings(index: nat, f: ExtractedField): (w: seq<string>)
    ensures AllSpace(f.nameRaw) ==> w == [EmptyNameWarning(index)]
    ensures !AllSpace(f.nameRaw) ==>
              (w != [] <==> !AllSpace(f.refRaw) && ParseRange(f.refRaw).0.None?)
              && (w == [] || w == [UnparsedRangeWarning(f.nameRaw)])
  {
    StripEmptyIffAllSpace(f.refRaw);
    if AllSpace(f.nameRaw) then [EmptyNameWarning(index)]
    else
      var range := ParseRange(f.refRaw);
      if Strip(f.refRaw) != [] && range.0.None? && range.1.None? then [UnparsedRangeWarning(f.nameRaw)]
      else []
  }

  /** The observations of `fields`, in field order. */
  function ObservationsOf(fields: seq<ExtractedField>): (obs: seq<NormalizedObservation>)
    ensures |obs| <= |fields|
  {
    if fields == [] then []
    else
      var n := |fields| - 1;
      match ObservationFor(fields[n])
      case None => ObservationsOf(fields[..n])
      case Some(o) => ObservationsOf(fields[..n]) + [o]
  }

  /** Every observation comes from some field. */
  lemma {:induction false} ObservationsComeFromFields(fields: seq<ExtractedField>, o: NormalizedObservation)
    requires o in ObservationsOf(fields)
    ensures exists i :: 0 <= i < |fields| && ObservationFor(fields[i]) == Some(o)
  {
    var n := |fields| - 1;
    if ObservationFor(fields[n]) != Some(o) {
      ObservationsComeFromFields(fields[..n], o);
      var i :| 0 <= i < n && ObservationFor(fields[..n][i]) == Some(o);
      assert fields[..n][i] == fields[i];
    }
  }

  /** The observations of a list are those of all but its last field, followed by the
      last field's, if any. */
  lemma ObservationsExtend(fields: seq<ExtractedField>)
    requires fields != []
    ensures ObservationsOf(fields[..|fields| - 1]) <= ObservationsOf(fields)
  {}

  /** Every field with a usable name is observed. */
  lemma {:induction false} NamedFieldsAreObserved(fields: seq<ExtractedField>, i: nat)
    requires i < |fields| && !AllSpace(fields[i].nameRaw)
    ensures ObservationFor(fields[i]).value in ObservationsOf(fields)
  {
    var n := |fields| - 1;
    if i < n {
      assert fields[..n][i] == fields[i];
      NamedFieldsAreObserved(fields[..n], i);
      ObservationsExtend(fields);
    } else {
      assert ObservationsOf(fields) == ObservationsOf(fields[..n]) + [ObservationFor(fields[n]).value];
    }
  }

  /** The warnings `fields` add, in field order, each field numbered by its position. */
  function WarningsOfFields(fields: seq<ExtractedField>): seq<string> {
    if fields == [] then []
    else
      var n := |fields| - 1;
      WarningsOfFields(fields[..n]) + FieldWarnings(n, fields[n])
  }

  /** `normalize`: the report's warnings followed by the fields' warnings, the fields'
      observations, and the document and metadata carried over. */
  method Normalize(report: ExtractedReport) returns (r: NormalizedReport)
    ensures r.document == report.document && r.meta == report.meta
    ensures r.observations == ObservationsOf(report.fields)
    ensures r.warnings == report.warnings + WarningsOfFields(report.fields)
  {
    var observations, warnings := NormalizeFields(report.fields, report.warnings);
    r := NormalizedReport(report.document, observations, warnings, report.meta);
  }

  /** The loop of `normalize`: every field in turn adds its observation, if any, and its
      warnings after those already gathered. */
  method NormalizeFields(fields: seq<ExtractedField>, reportWarnings: seq<string>)
    returns (observations: seq<NormalizedObservation>, warnings: seq<string>)
    ensures observations == ObservationsOf(fields)
    ensures warnings == reportWarnings + WarningsOfFields(fields)
  {
    warnings := reportWarnings;
    observations := [];
    var index := 0;
    while index < |fields|
      invariant 0 <= index <= |fields|
      invariant observations == ObservationsOf(fields[..index])
      invariant warnings == reportWarnings + WarningsOfFields(fields[..index])
    {
      observations, warnings := NormalizeStep(fields, index, reportWarnings, observations, warnings);
      index := index + 1;
    }
    assert fields[..index] == fields;
  }

  /** One pass of the loop of `normalize`: the field at `index` adds its observation, if
      any, and its warnings. */
  method NormalizeStep(fields: seq<ExtractedField>, index: nat, reportWarnings: seq<string>,
                       observations: seq<NormalizedObservation>, warnings: seq<string>)
    returns (observations': seq<NormalizedObservation>, warnings': seq<string>)
    requires index < |fields|
    requires observations == ObservationsOf(fields[..index])
    requires warnings == reportWarnings + WarningsOfFields(fields[..index])
    ensures observations' == ObservationsOf(fields[..index + 1])
    ensures warnings' == reportWarnings + WarningsOfFields(fields[..index + 1])
  {
    var observation, fieldWarnings := NormalizeField(index, fields[index]);
    PrefixStep(fields, index, observation, fieldWarnings);
    warnings' := warnings + fieldWarnings;
    observations' := observations;
    if observation.Some? {
      observations' := observations + [observation.value];
    }
    Shares(reportWarnings, WarningsOfFields(fields[..index]), fieldWarnings);
  }

  lemma Shares(a: seq<string>, b: seq<string>, c: seq<string>)
    ensures (a + b) + c == a + (b + c)
  {}

  /** The field at position `index`: its observation, or none when its name is blank, and
      the warnings it adds. */
  method NormalizeField(index: nat, field: ExtractedField) returns (observation: Option<NormalizedObservation>, warnings: seq<string>)
    ensures observation == ObservationFor(field)
    ensures warnings == FieldWarnings(index, field)
  {
    var code := CanonicalizeName(field.nameRaw);
    if code == [] {
      return None, [EmptyNameWarning(index)];
    }
    warnings := [];
    var numericValue := ParseFloat(field.valueRaw);
    var normalizedValue := if numericValue.Some? then VNum(numericValue.value) else VStr(Strip(field.valueRaw));
    var range := ParseRange(field.refRaw);
    if Strip(field.refRaw) != [] && range.0.None? && range.1.None? {
      warnings := [UnparsedRangeWarning(field.nameRaw)];
    }
    observation := Some(NormalizedObservation(
      code := code,
      value := normalizedValue,
      unit := NormalizeUnit(field.unitRaw),
      refLow := range.0,
      refHigh := range.1,
      sourceName := field.nameRaw,
      confidence := field.confidence,
      evidence := field.evidence,
      flagsRaw := field.flagsRaw));
  }

  /** One more field extends the observations and the warnings by that field's share. */
  lemma PrefixStep(fields: seq<ExtractedField>, index: nat, observation: Option<NormalizedObservation>, warnings: seq<string>)
    requires index < |fields|
    requires observation == ObservationFor(fields[index]) && warnings == FieldWarnings(index, fields[index])
    ensures observation.Some? ==> ObservationsOf(fields[..index + 1]) == ObservationsOf(fields[..index]) + [observation.value]
    ensures observation.None? ==> ObservationsOf(fields[..index + 1]) == ObservationsOf(fields[..index])
    ensures WarningsOfFields(fields[..index + 1]) == WarningsOfFields(fields[..index]) + warnings
  {
    var p := fields[..index + 1];
    assert p[..index] == fields[..index] && p[index] == fields[index];
    LastField(p);
  }

  /** The last field of a non-empty list adds its observation, if any, and its warnings
      after those of the fields before it. */
  lemma LastField(p: seq<ExtractedField>)
    requires p != []
    ensures var n := |p| - 1; var o := ObservationFor(p[n]);
      && (o.Some? ==> ObservationsOf(p) == ObservationsOf(p[..n]) + [o.value])
      && (o.None? ==> ObservationsOf(p) == ObservationsOf(p[..n]))
      && WarningsOfFields(p) == WarningsOfFields(p[..n]) + FieldWarnings(n, p[n])
  {}

  /** The per-field outcomes of `fields`. */
  function FieldOutcomes(fields: seq<ExtractedField>): (r: seq<Option<NormalizedObservation>>)
    ensures |r| == |fields|
    ensures forall i :: 0 <= i < |fields| ==> r[i] == ObservationFor(fields[i])
  {
    seq(|fields|, i requires 0 <= i < |fields| => ObservationFor(fields[i]))
  }

  /** The observations are the outcomes that are present. */
  lemma {:induction false} ObservationsArePresentOutcomes(fields: seq<ExtractedField>)
    ensures ObservationsOf(fields) == Present(FieldOutcomes(fields))
  {
    if fields != [] {
      var n := |fields| - 1;
      ObservationsArePresentOutcomes(fields[..n]);
      assert FieldOutcomes(fields)[..n] == FieldOutcomes(fields[..n]);
    }
  }

  /** When every field has a name, each field yields exactly one observation, in the same
      position. */
  lemma NamedFieldsKeepPositions(fields: seq<ExtractedField>)
    requires forall i :: 0 <= i < |fields| ==> !AllSpace(fields[i].nameRaw)
    ensures |ObservationsOf(fields)| == |fields|
    ensures forall i :: 0 <= i < |fields| ==> ObservationsOf(fields)[i] == ObservationFor(fields[i]).value
  {
    ObservationsArePresentOutcomes(fields);
    PresentAllSome(FieldOutcomes(fields));
  }

  /** Fields whose names are usable and whose reference ranges are blank or readable add
      no warning. */
  lemma {:induction false} CleanFieldsAddNoWarnings(fields: seq<ExtractedField>)
    requires forall i :: 0 <= i < |fields| ==> !AllSpace(fields[i].nameRaw)
    requires forall i :: 0 <= i < |fields| ==> AllSpace(fields[i].refRaw) || ParseRange(fields[i].refRaw).0.Some?
    ensures WarningsOfFields(fields) == []
  {
    if fields != [] {
      var n := |fields| - 1;
      assert forall i :: 0 <= i < n ==> fields[..n][i] == fields[i];
      CleanFieldsAddNoWarnings(fields[..n]);
    }
  }

  /** The field of the comma test: "WBC", "5,4", "x10^9/L", "4,0-10,0" becomes the
      observation wbc = 5.4 x10^9/L with range 4.0 to 10.0, and no warning. */
  lemma WbcField(f: ExtractedField)
    requires f.nameRaw == "WBC" && f.valueRaw == "5,4" && f.unitRaw == "x10^9/L" && f.refRaw == "4,0-10,0"
    ensures ObservationFor(f).Some?
    ensures var o := ObservationFor(f).value;
      o.code == "wbc" && o.value == VNum(5.4) && o.unit == "x10^9/L"
      && o.refLow == Some(4.0) && o.refHigh == Some(10.0)
  {
    assert !AllSpace(f.nameRaw) by { assert !IsSpace(f.nameRaw[0]); }
    ObservationContents(f);
    var o := ObservationFor(f).value;
    assert o.code == "wbc" by { UpperWbc(); }
    assert o.value == VNum(5.4) by { CommaDecimal(); }
    assert o.unit == "x10^9/L" by { WbcUnitKept(f.unitRaw); }
    assert ParseRange(f.refRaw) == (Some(4.0), Some(10.0)) by { DashRange(); }
    assert o.refLow == Some(4.0) && o.refHigh == Some(10.0);
  }

  lemma WbcUnitKept(unitRaw: string)
    requires unitRaw == "x10^9/L"
    ensures NormalizeUnit(unitRaw) == unitRaw
  {
    assert Trimmed(unitRaw) by { assert !IsSpace(unitRaw[0]) && !IsSpace(unitRaw[6]); }
    StripNoop(unitRaw);
    Units.LongUnitKept(unitRaw);
  }

  lemma WbcFieldHasNoWarning(f: ExtractedField)
    requires f.nameRaw == "WBC" && f.refRaw == "4,0-10,0"
    ensures FieldWarnings(0, f) == []
  {
    assert !AllSpace(f.nameRaw) by { assert !IsSpace(f.nameRaw[0]); }
    assert ParseRange(f.refRaw).0.Some? by { DashRange(); }
  }

  /** A one-sided reference such as "> 3.9" is kept as no range and warned about. */
  lemma OneSidedReferenceWarns(index: nat, f: ExtractedField)
    requires !AllSpace(f.nameRaw) && f.refRaw == "> 3.9"
    ensures FieldWarnings(index, f) == [UnparsedRangeWarning(f.nameRaw)]
    ensures ObservationFor(f).value.refLow.None? && ObservationFor(f).value.refHigh.None?
  {
    OneSidedIsNotRange();
    assert !AllSpace(f.refRaw) by { assert !IsSpace(f.refRaw[0]); }
  }
}
