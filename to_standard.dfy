/** Mapping a normalised report to the MedLabs standard panel payload
    (core/map/to_standard.py). Payloads are JSON objects (`map<string, Json>`); the order
    of dictionary keys is not modelled. */
module ToStandard {
  import opened Wrappers
  import opened Text
  import opened JsonValues
  import opened Models

  /** What the mapping takes from outside: the hexadecimal digits of the k-th `uuid4()`
      drawn during one call (counting from 0), today's date in ISO form, the
      `unit_display` function (imported by the mapping but defined nowhere in the
      repository), and how `str()` renders floats and containers. */
  datatype MapEnv = MapEnv(uuidHex: nat -> string, today: string, unitDisplay: string -> string, show: Show)

  /** `_PANEL_DEFINITIONS`: panel code to display name. */
  const PanelDisplays: map<string, string> := map[
    "CBC" := "Complete Blood Count",
    "BIOCHEM" := "Biochemistry Panel",
    "URINALYSIS" := "Urinalysis Panel"
  ]

  /** The `alias_map` of `_normalize_panel_code`: display name, upper-cased, to code. */
  const PanelAliases: map<string, string> := map[
    "COMPLETE BLOOD COUNT" := "CBC",
    "BIOCHEMISTRY PANEL" := "BIOCHEM",
    "URINALYSIS PANEL" := "URINALYSIS"
  ]

  datatype Coding = Coding(system: string, code: string, display: string)

  /** `_OBSERVATION_CODE_MAP`: canonical observation code to its coding. */
  const ObservationCodes: map<string, Coding> := map[
    "wbc" := Coding("LOINC", "6690-2", "Leukocytes [#/volume] in Blood"),
    "rbc" := Coding("LOINC", "789-8", "Erythrocytes [#/volume] in Blood"),
    "hemoglobin" := Coding("LOINC", "718-7", "Hemoglobin [Mass/volume] in Blood"),
    "hematocrit" := Coding("LOINC", "4544-3", "Hematocrit [Volume Fraction] of Blood"),
    "platelets" := Coding("LOINC", "777-3", "Platelets [#/volume] in Blood"),
    "glucose" := Coding("LOINC", "2345-7", "Glucose [Moles/volume] in Blood"),
    "creatinine" := Coding("LOINC", "2160-0", "Creatinine [Moles/volume] in Serum or Plasma"),
    "urea" := Coding("LOINC", "3094-0", "Urea nitrogen [Moles/volume] in Serum or Plasma"),
    "alt" := Coding("LOINC", "1742-6", "Alanine aminotransferase [Enzymatic activity/volume] in Serum or Plasma"),
    "ast" := Coding("LOINC", "1920-8", "Aspartate aminotransferase [Enzymatic activity/volume] in Serum or Plasma"),
    "color" := Coding("LOCAL", "COLOR", "Color"),
    "appearance" := Coding("LOCAL", "APPEARANCE", "Appearance"),
    "specific_gravity" := Coding("LOCAL", "SPEC_GRAV", "Specific gravity"),
    "ph" := Coding("LOCAL", "PH", "pH"),
    "protein" := Coding("LOCAL", "PROTEIN", "Protein"),
    "ketones" := Coding("LOCAL", "KETONES", "Ketones"),
    "nitrite" := Coding("LOCAL", "NITRITE", "Nitrite"),
    "leukocyte_esterase" := Coding("LOCAL", "LEUK_ESTERASE", "Leukocyte esterase")
  ]

  function CodingJson(c: Coding): map<string, Json> {
    map["system" := Str(c.system), "code" := Str(c.code), "display" := Str(c.display)]
  }

  /** `_normalize_panel_code`: the panel trimmed and upper-cased; a known code or a known
      display name resolves to the code, anything else stays as it is. */
  function NormalizePanelCode(panel: string): (code: string)
    ensures var n := Upper(Strip(panel));
      && (code in PanelDisplays <==> n in PanelDisplays || n in PanelAliases)
      && (code !in PanelDisplays ==> code == n)
      && (n in PanelDisplays ==> code == n)
    ensures NoLower(code) && Trimmed(code)
  {
    var normalized := Upper(Strip(panel));
    UpperHasNoLower(Strip(panel));
    UpperKeepsTrimmed(Strip(panel));
    AliasTargetsAreCodes();
    if normalized in PanelDisplays then normalized
    else if normalized in PanelAliases then PanelAliases[normalized]
    else normalized
  }

  /** Every display name resolves to a known code, written in capitals without padding. */
  lemma AliasTargetsAreCodes()
    ensures forall k :: k in PanelAliases ==>
      var c := PanelAliases[k]; c in PanelDisplays && NoLower(c) && Trimmed(c)
  {
    KnownCode("CBC");
    KnownCode("BIOCHEM");
    KnownCode("URINALYSIS");
  }

  lemma KnownCode(c: string)
    requires c in PanelDisplays && |c| > 0
    requires forall i :: 0 <= i < |c| ==> 'A' <= c[i] <= 'Z'
    ensures NoLower(c) && Trimmed(c)
  {}

  /** Resolving a resolved panel code changes nothing. */
  lemma PanelCodeIdempotent(panel: string)
    ensures NormalizePanelCode(NormalizePanelCode(panel)) == NormalizePanelCode(panel)
  {
    var code := NormalizePanelCode(panel);
    StripNoop(code);
    UpperNoop(code);
  }

  /** A lower-case code resolves to itself in capitals. */
  lemma LowerCaseCode()
    ensures NormalizePanelCode("cbc") == "CBC"
  {
    var s := "cbc";
    assert Upper(Strip(s)) == "CBC" by {
      assert Strip(s) == s by { StripNoop(s); }
      assert Upper(s) == "CBC";
    }
    KnownCodeResolves(s);
  }

  lemma KnownCodeResolves(panel: string)
    requires Upper(Strip(panel)) in PanelDisplays
    ensures NormalizePanelCode(panel) == Upper(Strip(panel))
  {}

  /** A display name, in any case and with any padding, resolves to its code. */
  lemma AliasResolves(panel: string)
    requires Upper(Strip(panel)) in PanelAliases
    ensures NormalizePanelCode(panel) == PanelAliases[Upper(Strip(panel))]
  {}

  /** "Urinalysis Panel", in any case and with any padding, resolves to "URINALYSIS". */
  lemma DisplayNameResolves(panel: string)
    requires Upper(Strip(panel)) == "URINALYSIS PANEL"
    ensures NormalizePanelCode(panel) == "URINALYSIS"
  {
    AliasResolves(panel);
  }

  /** The display name of a panel code: the table's, or the code title-cased. */
  function PanelDisplay(code: string): (display: string)
    ensures code in PanelDisplays ==> display == PanelDisplays[code]
    ensures code !in PanelDisplays ==> display == Title(code)
  {
    if code in PanelDisplays then PanelDisplays[code] else Title(code)
  }

  /** `_report_date`: the metadata's `report_date` when it is a 10-character string,
      otherwise today. */
  function ReportDate(meta: map<string, Json>, today: string): (date: string)
    ensures Get(meta, "report_date").Str? && |Get(meta, "report_date").s| == 10 ==> date == Get(meta, "report_date").s
    ensures !(Get(meta, "report_date").Str? && |Get(meta, "report_date").s| == 10) ==> date == today
    ensures |today| == 10 ==> |date| == 10
  {
    var reportDate := Get(meta, "report_date");
    if reportDate.Str? && |reportDate.s| == 10 then reportDate.s else today
  }

  /** `isinstance(x, int) and x > 0`; `True` is an `int` in Python and passes. */
  predicate IsPositiveInt(j: Json) {
    (j.Int? && j.i > 0) || j == Bool(true)
  }

  /** The unit code a quantity carries: the unit, or "1" when it is empty. */
  function UnitCode(unit: string): (code: string)
    ensures code != []
    ensures unit != [] ==> code == unit
    ensures unit == [] ==> code == "1"
  {
    if unit == [] then "1" else unit
  }

  /** `_quantity`: the value with its unit code, the system "UCUM" and the unit's display. */
  function Quantity(value: real, unit: string, unitDisplay: string -> string): (q: map<string, Json>)
    ensures q.Keys == {"value", "unit_code", "unit_system", "unit_display"}
    ensures q["value"] == Num(value) && q["unit_system"] == Str("UCUM")
    ensures q["unit_code"] == Str(UnitCode(unit)) && Truthy(q["unit_code"])
  {
    var unitCode := UnitCode(unit);
    map["value" := Num(value), "unit_code" := Str(unitCode), "unit_system" := Str("UCUM"),
        "unit_display" := Str(unitDisplay(unitCode))]
  }

  /** `_interpretation`: "low" below a present lower bound (checked first), "high" above a
      present upper bound, "normal" when a bound exists and neither holds, and "unknown"
      for a value that is not a number or has no bound. */
  function Interpretation(o: NormalizedObservation): (s: string)
    ensures s == "low" <==> o.value.VNum? && o.refLow.Some? && o.value.x < o.refLow.value
    ensures s == "high" <==> o.value.VNum? && !(o.refLow.Some? && o.value.x < o.refLow.value)
                             && o.refHigh.Some? && o.value.x > o.refHigh.value
    ensures s == "normal" <==> o.value.VNum? && (o.refLow.Some? || o.refHigh.Some?)
                               && (o.refLow.Some? ==> o.value.x >= o.refLow.value)
                               && (o.refHigh.Some? ==> o.value.x <= o.refHigh.value)
    ensures s == "unknown" <==> !o.value.VNum? || (o.refLow.None? && o.refHigh.None?)
  {
    match o.value
    case VNum(x) =>
      if o.refLow.Some? && x < o.refLow.value then "low"
      else if o.refHigh.Some? && x > o.refHigh.value then "high"
      else if o.refLow.Some? || o.refHigh.Some? then "normal"
      else "unknown"
    case _ => "unknown"
  }

  /** A value inside an ordered range with both bounds is "normal". */
  lemma WithinRangeIsNormal(o: NormalizedObservation)
    requires o.value.VNum? && o.refLow.Some? && o.refHigh.Some?
    requires o.refLow.value <= o.value.x <= o.refHigh.value
    ensures Interpretation(o) == "normal"
  {}

  /** `_observation_code`: the table's coding for a known code; otherwise a LOCAL coding
      with the code upper-cased, displayed as the source name or, when that is empty, as
      the code with `_` read as a space and title-cased. */
  function ObservationCode(o: NormalizedObservation): (c: map<string, Json>)
    ensures c.Keys == {"system", "code", "display"}
    ensures o.code in ObservationCodes ==> c == CodingJson(ObservationCodes[o.code])
    ensures o.code !in ObservationCodes ==>
      && c["system"] == Str("LOCAL") && c["code"] == Str(Upper(o.code))
      && c["display"] == Str(if o.sourceName != [] then o.sourceName else Title(ReplaceChar(o.code, '_', ' ')))
  {
    if o.code in ObservationCodes then CodingJson(ObservationCodes[o.code])
    else
      var display := if o.sourceName != [] then o.sourceName else Title(ReplaceChar(o.code, '_', ' '));
      map["system" := Str("LOCAL"), "code" := Str(Upper(o.code)), "display" := Str(display)]
  }

  /** `_observation_value`: a number becomes a quantity in the observation's unit; `bool`
      and `None` pass through; a string stays a string. */
  function ObservationValue(o: NormalizedObservation, unitDisplay: string -> string): (v: Json)
    ensures o.value.VNum? ==> v == Obj(Quantity(o.value.x, o.unit, unitDisplay))
    ensures o.value.VBool? ==> v == Bool(o.value.b)
    ensures o.value.VNone? ==> v == Null
    ensures o.value.VStr? ==> v == Str(o.value.s)
  {
    match o.value
    case VNum(x) => Obj(Quantity(x, o.unit, unitDisplay))
    case VBool(b) => Bool(b)
    case VNone => Null
    case VStr(s) => Str(s)
  }

  /** The provenance block `_source_trace` builds: the document's id and lab rendered with
      `str()`, the report date and the fallback raw text; a non-empty evidence bag then adds
      a positive `page` and `line` and replaces the raw text by its own, stripped, when that
      is not blank (`raw_text.strip()` is truthy exactly when the text is not all
      whitespace). A panel has no evidence, which is the empty bag. */
  function TraceOf(meta: map<string, Json>, evidence: Evidence, fallback: Json, today: string, show: Show): map<string, Json> {
    var trace := BaseTrace(meta, fallback, today, show);
    if evidence == map[] then trace else WithEvidence(trace, evidence)
  }

  /** The entries every trace starts with. */
  function BaseTrace(meta: map<string, Json>, fallback: Json, today: string, show: Show): map<string, Json> {
    map[
      "document_id" := Str(PyStr(GetOr(meta, "document_id", Str("unknown-document")), show)),
      "lab_name" := Str(PyStr(GetOr(meta, "lab_name", Str("Unknown Lab")), show)),
      "report_date" := Str(ReportDate(meta, today)),
      "raw_text" := fallback]
  }

  /** What a non-empty evidence bag adds to a trace. */
  function WithEvidence(trace: map<string, Json>, evidence: Evidence): map<string, Json> {
    var page, line := Get(evidence, "page"), Get(evidence, "line");
    var withPage := SetWhen(trace, "page", page, IsPositiveInt(page));
    var withLine := SetWhen(withPage, "line", line, IsPositiveInt(line));
    WithRawText(withLine, Get(evidence, "raw_text"))
  }

  /** `m` with `key` set to `v` when `c` holds: `if c: m[key] = v`. */
  function SetWhen(m: map<string, Json>, key: string, v: Json, c: bool): map<string, Json> {
    if c then m[key := v] else m
  }

  /** The trace with `raw_text` replaced by the text of `raw`, stripped, when it is a string
      that is not blank. */
  function WithRawText(trace: map<string, Json>, raw: Json): map<string, Json> {
    if raw.Str? && Strip(raw.s) != [] then trace["raw_text" := Str(Strip(raw.s))] else trace
  }

  /** A conditional entry adds at most its key. */
  lemma SetWhenKeys(m: map<string, Json>, key: string, v: Json, c: bool)
    ensures SetWhen(m, key, v, c).Keys == m.Keys + (if c then {key} else {})
  {}

  /** A conditional entry leaves the other entries alone. */
  lemma SetWhenKeeps(m: map<string, Json>, key: string, v: Json, c: bool)
    ensures forall k :: k in m && k != key ==> SetWhen(m, key, v, c)[k] == m[k]
  {}

  /** A key absent before is present after exactly when the condition holds, and then
      holds the value. */
  lemma SetWhenSets(m: map<string, Json>, key: string, v: Json, c: bool)
    requires key !in m
    ensures key in SetWhen(m, key, v, c) <==> c
    ensures key in SetWhen(m, key, v, c) ==> SetWhen(m, key, v, c)[key] == v
  {}

  /** Replacing the raw text keeps the keys of a trace that has one. */
  lemma WithRawTextKeys(trace: map<string, Json>, raw: Json)
    requires "raw_text" in trace
    ensures WithRawText(trace, raw).Keys == trace.Keys
  {}

  /** Replacing the raw text leaves the other entries alone. */
  lemma WithRawTextKeeps(trace: map<string, Json>, raw: Json)
    ensures forall k :: k in trace && k != "raw_text" ==> WithRawText(trace, raw)[k] == trace[k]
  {}

  /** The raw text is the stripped text of `raw` when that is not blank, and unchanged
      otherwise. */
  lemma WithRawTextSets(trace: map<string, Json>, raw: Json)
    requires "raw_text" in trace
    ensures var t := WithRawText(trace, raw);
      && "raw_text" in t
      && t["raw_text"] == (if raw.Str? && Strip(raw.s) != [] then Str(Strip(raw.s)) else trace["raw_text"])
  {}

  /** Evidence adds at most `page`, `line` and `raw_text`, and leaves every other entry of a
      trace that has a raw text as it was. */
  lemma WithEvidenceKeeps(trace: map<string, Json>, evidence: Evidence)
    requires "raw_text" in trace
    ensures var t := WithEvidence(trace, evidence);
      && trace.Keys <= t.Keys <= trace.Keys + {"page", "line"}
      && (forall k :: k in trace && k != "page" && k != "line" && k != "raw_text" ==> t[k] == trace[k])
  {
    var page, line := Get(evidence, "page"), Get(evidence, "line");
    var withPage := SetWhen(trace, "page", page, IsPositiveInt(page));
    var withLine := SetWhen(withPage, "line", line, IsPositiveInt(line));
    SetWhenKeys(trace, "page", page, IsPositiveInt(page));
    SetWhenKeeps(trace, "page", page, IsPositiveInt(page));
    SetWhenKeys(withPage, "line", line, IsPositiveInt(line));
    SetWhenKeeps(withPage, "line", line, IsPositiveInt(line));
    WithRawTextKeys(withLine, Get(evidence, "raw_text"));
    WithRawTextKeeps(withLine, Get(evidence, "raw_text"));
  }

  /** Evidence sets `page` and `line` exactly when it holds positive ones. */
  lemma WithEvidencePageLine(trace: map<string, Json>, evidence: Evidence)
    requires "page" !in trace && "line" !in trace && "raw_text" in trace
    ensures var t := WithEvidence(trace, evidence);
      && ("page" in t <==> IsPositiveInt(Get(evidence, "page")))
      && ("page" in t ==> t["page"] == Get(evidence, "page"))
      && ("line" in t <==> IsPositiveInt(Get(evidence, "line")))
      && ("line" in t ==> t["line"] == Get(evidence, "line"))
  {
    TraceKeysDistinct();
    var page, line := Get(evidence, "page"), Get(evidence, "line");
    var withPage := SetWhen(trace, "page", page, IsPositiveInt(page));
    var withLine := SetWhen(withPage, "line", line, IsPositiveInt(line));
    SetWhenSets(trace, "page", page, IsPositiveInt(page));
    SetWhenKeys(trace, "page", page, IsPositiveInt(page));
    assert "line" !in withPage.Keys;
    SetWhenKeys(withPage, "line", line, IsPositiveInt(line));
    SetWhenKeeps(withPage, "line", line, IsPositiveInt(line));
    SetWhenSets(withPage, "line", line, IsPositiveInt(line));
    assert "raw_text" in withLine.Keys;
    WithRawTextKeys(withLine, Get(evidence, "raw_text"));
    WithRawTextKeeps(withLine, Get(evidence, "raw_text"));
  }

  /** Evidence replaces `raw_text` by its own text, stripped, when that is not blank. */
  lemma WithEvidenceRawText(trace: map<string, Json>, evidence: Evidence)
    requires "raw_text" in trace
    ensures var t := WithEvidence(trace, evidence); var raw := Get(evidence, "raw_text");
      && "raw_text" in t
      && t["raw_text"] == (if raw.Str? && Strip(raw.s) != [] then Str(Strip(raw.s)) else trace["raw_text"])
  {
    TraceKeysDistinct();
    var page, line := Get(evidence, "page"), Get(evidence, "line");
    var withPage := SetWhen(trace, "page", page, IsPositiveInt(page));
    var withLine := SetWhen(withPage, "line", line, IsPositiveInt(line));
    SetWhenKeeps(trace, "page", page, IsPositiveInt(page));
    SetWhenKeeps(withPage, "line", line, IsPositiveInt(line));
    WithRawTextSets(withLine, Get(evidence, "raw_text"));
  }

  /** The keys of a source trace are pairwise distinct. */
  lemma TraceKeysDistinct()
    ensures "document_id" != "lab_name" && "document_id" != "report_date" && "document_id" != "raw_text" && "document_id" != "page"
    ensures "document_id" != "line" && "lab_name" != "report_date" && "lab_name" != "raw_text" && "lab_name" != "page"
    ensures "lab_name" != "line" && "report_date" != "raw_text" && "report_date" != "page" && "report_date" != "line"
    ensures "raw_text" != "page" && "raw_text" != "line" && "page" != "line"
  {}

  /** The entries every trace starts with: the document id and lab name rendered with
      `str()`, the report date and the fallback raw text. */
  lemma BaseTraceEntries(meta: map<string, Json>, fallback: Json, today: string, show: Show)
    ensures var b := BaseTrace(meta, fallback, today, show);
      && b.Keys == {"document_id", "lab_name", "report_date", "raw_text"}
      && b["document_id"] == Str(PyStr(GetOr(meta, "document_id", Str("unknown-document")), show))
      && b["lab_name"] == Str(PyStr(GetOr(meta, "lab_name", Str("Unknown Lab")), show))
      && b["report_date"] == Str(ReportDate(meta, today))
      && b["raw_text"] == fallback
  {
    TraceKeysDistinct();
  }

  /** The four base entries of a trace are always there, and only `page` and `line` can
      join them. */
  lemma TraceKeys(meta: map<string, Json>, evidence: Evidence, fallback: Json, today: string, show: Show)
    ensures var t := TraceOf(meta, evidence, fallback, today, show);
      && {"document_id", "lab_name", "report_date", "raw_text"} <= t.Keys
      && t.Keys <= {"document_id", "lab_name", "report_date", "raw_text", "page", "line"}
  {
    BaseTraceEntries(meta, fallback, today, show);
    if evidence != map[] {
      WithEvidenceKeeps(BaseTrace(meta, fallback, today, show), evidence);
    }
  }

  /** Evidence never changes the document id, lab name or report date of a trace. */
  lemma TraceIdentifies(meta: map<string, Json>, evidence: Evidence, fallback: Json, today: string, show: Show)
    ensures var t := TraceOf(meta, evidence, fallback, today, show);
      && "document_id" in t && t["document_id"] == Str(PyStr(GetOr(meta, "document_id", Str("unknown-document")), show))
      && "lab_name" in t && t["lab_name"] == Str(PyStr(GetOr(meta, "lab_name", Str("Unknown Lab")), show))
      && "report_date" in t && t["report_date"] == Str(ReportDate(meta, today))
  {
    BaseTraceEntries(meta, fallback, today, show);
    if evidence != map[] {
      TraceKeysDistinct();
      WithEvidenceKeeps(BaseTrace(meta, fallback, today, show), evidence);
    }
  }

  /** A trace carries a `page` (a `line`) exactly when the evidence holds a positive one. */
  lemma TraceEvidence(meta: map<string, Json>, evidence: Evidence, fallback: Json, today: string, show: Show)
    ensures var t := TraceOf(meta, evidence, fallback, today, show);
      && ("page" in t <==> IsPositiveInt(Get(evidence, "page")))
      && ("page" in t ==> t["page"] == Get(evidence, "page"))
      && ("line" in t <==> IsPositiveInt(Get(evidence, "line")))
      && ("line" in t ==> t["line"] == Get(evidence, "line"))
  {
    BaseTraceEntries(meta, fallback, today, show);
    TraceKeysDistinct();
    if evidence != map[] {
      WithEvidencePageLine(BaseTrace(meta, fallback, today, show), evidence);
    }
  }

  /** A trace carries the evidence's raw text, stripped, whenever it is not blank, and the
      fallback otherwise. */
  lemma TraceRawText(meta: map<string, Json>, evidence: Evidence, fallback: Json, today: string, show: Show)
    ensures var t := TraceOf(meta, evidence, fallback, today, show);
      var raw := Get(evidence, "raw_text");
      && "raw_text" in t
      && t["raw_text"] == (if raw.Str? && !AllSpace(raw.s) then Str(Strip(raw.s)) else fallback)
      && (raw.Str? && !AllSpace(raw.s) ==> t["raw_text"].Str? && t["raw_text"].s != [])
  {
    var raw := Get(evidence, "raw_text");
    if raw.Str? {
      StripEmptyIffAllSpace(raw.s);
    }
    BaseTraceEntries(meta, fallback, today, show);
    if evidence != map[] {
      WithEvidenceRawText(BaseTrace(meta, fallback, today, show), evidence);
    }
  }

  /** `_reference_range`: nothing when both bounds are absent, otherwise a quantity per
      present bound, in the observation's unit. */
  function ReferenceRangeOf(o: NormalizedObservation, unitDisplay: string -> string): (r: Option<map<string, Json>>)
    ensures r.None? <==> o.refLow.None? && o.refHigh.None?
    ensures r.Some? ==> r.value != map[]
    ensures r.Some? ==> ("low" in r.value <==> o.refLow.Some?) && ("high" in r.value <==> o.refHigh.Some?)
    ensures r.Some? ==> r.value.Keys <= {"low", "high"}
    ensures r.Some? && o.refLow.Some? ==> r.value["low"] == Obj(Quantity(o.refLow.value, UnitCode(o.unit), unitDisplay))
    ensures r.Some? && o.refHigh.Some? ==> r.value["high"] == Obj(Quantity(o.refHigh.value, UnitCode(o.unit), unitDisplay))
  {
    if o.refLow.None? && o.refHigh.None? then None
    else
      var unitCode := UnitCode(o.unit);
      var withLow := if o.refLow.Some? then map["low" := Obj(Quantity(o.refLow.value, unitCode, unitDisplay))] else map[];
      var result := if o.refHigh.Some? then withLow["high" := Obj(Quantity(o.refHigh.value, unitCode, unitDisplay))] else withLow;
      assert o.refLow.Some? ==> "low" in result;
      assert o.refHigh.Some? ==> "high" in result;
      Some(result)
  }

  /** `f"obs-{panel_code.lower()}-{index:03d}-{hex[:6]}"`. */
  function ObservationId(panelCode: string, index: nat, hex: string): string {
    "obs-" + Lower(panelCode) + "-" + NatToString3(index) + "-" + Prefix(hex, 6)
  }

  /** The effective time `_observation_payload` copies: `effective_time`, or when that is
      falsy `collected_at`, kept only when it is a non-empty string. */
  function EffectiveTime(meta: map<string, Json>): (t: Option<string>)
    ensures t.Some? ==> t.value != []
    ensures Truthy(Get(meta, "effective_time")) ==>
      (t.Some? <==> Get(meta, "effective_time").Str?) && (t.Some? ==> t.value == Get(meta, "effective_time").s)
    ensures !Truthy(Get(meta, "effective_time")) ==>
      (t.Some? <==> Get(meta, "collected_at").Str? && Get(meta, "collected_at").s != [])
      && (t.Some? ==> t.value == Get(meta, "collected_at").s)
  {
    var effectiveTime := Or(Get(meta, "effective_time"), Get(meta, "collected_at"));
    if effectiveTime.Str? && effectiveTime.s != [] then Some(effectiveTime.s) else None
  }

  /** The entries of an observation payload, given its parts. */
  function ObservationEntries(id: string, code: Json, value: Json, interpretation: string, source: Json,
                              referenceRange: Option<map<string, Json>>, effectiveTime: Option<string>): map<string, Json>
  {
    var payload := ObservationBase(id, code, value, interpretation, source);
    var withRange := SetWhen(payload, "reference_range", Obj(referenceRange.GetOr(map[])),
      referenceRange.Some? && referenceRange.value != map[]);
    SetWhen(withRange, "effective_time", Str(effectiveTime.GetOr("")), effectiveTime.Some?)
  }

  /** The entries every observation payload has. */
  function ObservationBase(id: string, code: Json, value: Json, interpretation: string, source: Json): map<string, Json> {
    map[
      "id" := Str(id),
      "resource_type" := Str("observation"),
      "code" := code,
      "value" := value,
      "interpretation" := Str(interpretation),
      "status" := Str("final"),
      "source" := source]
  }

  /** An observation payload is identified by `id`, is of type "observation" and is final. */
  lemma ObservationHeaderEntries(id: string, code: Json, value: Json, interpretation: string, source: Json,
      referenceRange: Option<map<string, Json>>, effectiveTime: Option<string>)
    ensures var p := ObservationEntries(id, code, value, interpretation, source, referenceRange, effectiveTime);
      && "id" in p && p["id"] == Str(id)
      && "resource_type" in p && p["resource_type"] == Str("observation")
      && "status" in p && p["status"] == Str("final")
  {
    ObservationKeysDistinct();
    var base := ObservationBase(id, code, value, interpretation, source);
    var ranged := referenceRange.Some? && referenceRange.value != map[];
    var rangeJson := Obj(referenceRange.GetOr(map[]));
    var withRange := SetWhen(base, "reference_range", rangeJson, ranged);
    SetWhenKeys(base, "reference_range", rangeJson, ranged);
    SetWhenKeeps(base, "reference_range", rangeJson, ranged);
    SetWhenKeys(withRange, "effective_time", Str(effectiveTime.GetOr("")), effectiveTime.Some?);
    SetWhenKeeps(withRange, "effective_time", Str(effectiveTime.GetOr("")), effectiveTime.Some?);
  }

  /** An observation payload holds the coding, value, interpretation and source it is
      built from. */
  lemma ObservationContentEntries(id: string, code: Json, value: Json, interpretation: string, source: Json,
      referenceRange: Option<map<string, Json>>, effectiveTime: Option<string>)
    ensures var p := ObservationEntries(id, code, value, interpretation, source, referenceRange, effectiveTime);
      && "code" in p && p["code"] == code && "value" in p && p["value"] == value
      && "interpretation" in p && p["interpretation"] == Str(interpretation)
      && "source" in p && p["source"] == source
  {
    ObservationKeysDistinct();
    var base := ObservationBase(id, code, value, interpretation, source);
    var ranged := referenceRange.Some? && referenceRange.value != map[];
    var rangeJson := Obj(referenceRange.GetOr(map[]));
    var withRange := SetWhen(base, "reference_range", rangeJson, ranged);
    SetWhenKeys(base, "reference_range", rangeJson, ranged);
    SetWhenKeeps(base, "reference_range", rangeJson, ranged);
    SetWhenKeys(withRange, "effective_time", Str(effectiveTime.GetOr("")), effectiveTime.Some?);
    SetWhenKeeps(withRange, "effective_time", Str(effectiveTime.GetOr("")), effectiveTime.Some?);
  }

  /** An observation payload has a reference range exactly when a non-empty one is given,
      and an effective time exactly when one is given. */
  lemma ObservationOptionalEntries(id: string, code: Json, value: Json, interpretation: string, source: Json,
      referenceRange: Option<map<string, Json>>, effectiveTime: Option<string>)
    ensures var p := ObservationEntries(id, code, value, interpretation, source, referenceRange, effectiveTime);
      && ("reference_range" in p <==> referenceRange.Some? && referenceRange.value != map[])
      && ("reference_range" in p ==> p["reference_range"] == Obj(referenceRange.value))
      && ("effective_time" in p <==> effectiveTime.Some?)
      && ("effective_time" in p ==> p["effective_time"] == Str(effectiveTime.value))
  {
    ObservationKeysDistinct();
    var base := ObservationBase(id, code, value, interpretation, source);
    var ranged := referenceRange.Some? && referenceRange.value != map[];
    var rangeJson := Obj(referenceRange.GetOr(map[]));
    var withRange := SetWhen(base, "reference_range", rangeJson, ranged);
    SetWhenSets(base, "reference_range", rangeJson, ranged);
    SetWhenKeys(base, "reference_range", rangeJson, ranged);
    assert "effective_time" !in withRange.Keys;
    SetWhenSets(withRange, "effective_time", Str(effectiveTime.GetOr("")), effectiveTime.Some?);
    SetWhenKeeps(withRange, "effective_time", Str(effectiveTime.GetOr("")), effectiveTime.Some?);
  }

  /** The keys of an observation payload are pairwise distinct. */
  lemma ObservationKeysDistinct()
    ensures "id" != "resource_type" && "id" != "code" && "id" != "value" && "id" != "interpretation"
    ensures "id" != "status" && "id" != "source" && "id" != "reference_range" && "id" != "effective_time"
    ensures "resource_type" != "code" && "resource_type" != "value" && "resource_type" != "interpretation" && "resource_type" != "status"
    ensures "resource_type" != "source" && "resource_type" != "reference_range" && "resource_type" != "effective_time" && "code" != "value"
    ensures "code" != "interpretation" && "code" != "status" && "code" != "source" && "code" != "reference_range"
    ensures "code" != "effective_time" && "value" != "interpretation" && "value" != "status" && "value" != "source"
    ensures "value" != "reference_range" && "value" != "effective_time" && "interpretation" != "status" && "interpretation" != "source"
    ensures "interpretation" != "reference_range" && "interpretation" != "effective_time" && "status" != "source" && "status" != "reference_range"
    ensures "status" != "effective_time" && "source" != "reference_range" && "source" != "effective_time" && "reference_range" != "effective_time"
  {}

  /** The observation payload `_observation_payload` builds; `hex` is the `uuid4().hex` it
      draws. */
  function PayloadOf(o: NormalizedObservation, panelCode: string, index: nat, meta: map<string, Json>, hex: string, env: MapEnv)
    : map<string, Json>
  {
    ObservationEntries(ObservationId(panelCode, index, hex), Obj(ObservationCode(o)), ObservationValue(o, env.unitDisplay),
      Interpretation(o), Obj(TraceOf(meta, o.evidence, Str(o.sourceName), env.today, env.show)),
      ReferenceRangeOf(o, env.unitDisplay), EffectiveTime(meta))
  }

  /** An observation payload carries its id, built from the panel code, its number and
      the uuid it draws, and is a final observation. */
  lemma PayloadContents(o: NormalizedObservation, panelCode: string, index: nat, meta: map<string, Json>, hex: string, env: MapEnv)
    ensures var p := PayloadOf(o, panelCode, index, meta, hex, env);
      && "id" in p && p["id"] == Str(ObservationId(panelCode, index, hex))
      && "resource_type" in p && p["resource_type"] == Str("observation")
      && "status" in p && p["status"] == Str("final")
  {
    ObservationHeaderEntries(ObservationId(panelCode, index, hex), Obj(ObservationCode(o)), ObservationValue(o, env.unitDisplay),
      Interpretation(o), Obj(TraceOf(meta, o.evidence, Str(o.sourceName), env.today, env.show)),
      ReferenceRangeOf(o, env.unitDisplay), EffectiveTime(meta));
  }

  /** What an observation payload says about the observation: its coding, its value, how
      it compares with its range, and where it came from. */
  lemma PayloadDescribesObservation(o: NormalizedObservation, panelCode: string, index: nat, meta: map<string, Json>, hex: string, env: MapEnv)
    ensures var p := PayloadOf(o, panelCode, index, meta, hex, env);
      && "code" in p && p["code"] == Obj(ObservationCode(o))
      && "value" in p && p["value"] == ObservationValue(o, env.unitDisplay)
      && "interpretation" in p && p["interpretation"] == Str(Interpretation(o))
      && "source" in p && p["source"] == Obj(TraceOf(meta, o.evidence, Str(o.sourceName), env.today, env.show))
  {
    ObservationContentEntries(ObservationId(panelCode, index, hex), Obj(ObservationCode(o)), ObservationValue(o, env.unitDisplay),
      Interpretation(o), Obj(TraceOf(meta, o.evidence, Str(o.sourceName), env.today, env.show)),
      ReferenceRangeOf(o, env.unitDisplay), EffectiveTime(meta));
  }

  /** A payload carries a reference range exactly when the observation has a bound, and an
      effective time exactly when the metadata supplies one. */
  lemma PayloadOptionalEntries(o: NormalizedObservation, panelCode: string, index: nat, meta: map<string, Json>, hex: string, env: MapEnv)
    ensures var p := PayloadOf(o, panelCode, index, meta, hex, env);
      && ("reference_range" in p <==> o.refLow.Some? || o.refHigh.Some?)
      && ("reference_range" in p ==> p["reference_range"] == Obj(ReferenceRangeOf(o, env.unitDisplay).value))
      && ("effective_time" in p <==> EffectiveTime(meta).Some?)
      && ("effective_time" in p ==> p["effective_time"] == Str(EffectiveTime(meta).value))
  {
    ObservationOptionalEntries(ObservationId(panelCode, index, hex), Obj(ObservationCode(o)), ObservationValue(o, env.unitDisplay),
      Interpretation(o), Obj(TraceOf(meta, o.evidence, Str(o.sourceName), env.today, env.show)),
      ReferenceRangeOf(o, env.unitDisplay), EffectiveTime(meta));
  }

  /** `f` applied to every element of `xs` together with its position. */
  function Numbered<T, U>(xs: seq<T>, f: (T, nat) -> U): (ys: seq<U>)
    ensures |ys| == |xs|
    ensures forall k :: 0 <= k < |xs| ==> ys[k] == f(xs[k], k)
  {
    seq(|xs|, k requires 0 <= k < |xs| => f(xs[k], k))
  }

  /** Numbering one more element appends its image. */
  lemma NumberedSnoc<T, U>(xs: seq<T>, i: nat, f: (T, nat) -> U)
    requires i < |xs|
    ensures Numbered(xs[..i + 1], f) == Numbered(xs[..i], f) + [f(xs[i], i)]
  {
    var left, right := Numbered(xs[..i + 1], f), Numbered(xs[..i], f) + [f(xs[i], i)];
    assert forall k :: 0 <= k < |left| ==> left[k] == right[k];
  }

  /** The payload of the observation at position `k` (counting from 0). */
  function PayloadAt(panelCode: string, meta: map<string, Json>, env: MapEnv): (NormalizedObservation, nat) -> Json {
    (o: NormalizedObservation, k: nat) => Obj(PayloadOf(o, panelCode, k + 1, meta, env.uuidHex(k), env))
  }

  /** The observation payloads of `observations`, numbered from 1; the k-th draws the k-th
      uuid. */
  function PayloadsOf(observations: seq<NormalizedObservation>, panelCode: string, meta: map<string, Json>, env: MapEnv)
    : (ps: seq<Json>)
    ensures |ps| == |observations|
    ensures forall k :: 0 <= k < |observations| ==>
      ps[k] == Obj(PayloadOf(observations[k], panelCode, k + 1, meta, env.uuidHex(k), env))
  {
    Numbered(observations, PayloadAt(panelCode, meta, env))
  }

  function UnknownPanelWarning(panel: string): string {
    "Unknown panel '" + panel + "', using LOCAL metadata"
  }

  /** The warnings of the panel: the report's, then one for an unknown panel. */
  function PanelWarnings(report: NormalizedReport, panel: string): (w: seq<string>)
    ensures NormalizePanelCode(panel) in PanelDisplays ==> w == report.warnings
    ensures NormalizePanelCode(panel) !in PanelDisplays ==> w == report.warnings + [UnknownPanelWarning(panel)]
  {
    if NormalizePanelCode(panel) in PanelDisplays then report.warnings
    else report.warnings + [UnknownPanelWarning(panel)]
  }

  /** `f"panel-{panel_code.lower()}-{hex[:8]}"`. */
  function PanelId(panelCode: string, hex: string): string {
    "panel-" + Lower(panelCode) + "-" + Prefix(hex, 8)
  }

  /** The entries of a panel payload, given its parts. */
  function PanelEntries(id: string, standardVersion: string, code: string, display: string,
                        observations: seq<Json>, source: Json, collectedAt: Json, reportedAt: Json): map<string, Json>
  {
    var payload := PanelBase(id, standardVersion, code, display, observations, source);
    var withCollected := SetWhen(payload, "collected_at", collectedAt, collectedAt.Str? && collectedAt.s != []);
    SetWhen(withCollected, "reported_at", reportedAt, reportedAt.Str? && reportedAt.s != [])
  }

  /** The entries every panel payload has. */
  function PanelBase(id: string, standardVersion: string, code: string, display: string,
                     observations: seq<Json>, source: Json): map<string, Json>
  {
    map[
      "id" := Str(id),
      "resource_type" := Str("panel"),
      "standard_version" := Str(standardVersion),
      "panel_code" := Obj(map["system" := Str("MEDLABS-PANEL"), "code" := Str(code), "display" := Str(display)]),
      "panel_name" := Str(display),
      "status" := Str("final"),
      "observations" := Arr(observations),
      "source" := source]
  }

  /** A panel payload is identified by `id`, is of type "panel", is final and names its
      standard version. */
  lemma PanelHeaderEntries(id: string, standardVersion: string, code: string, display: string,
      observations: seq<Json>, source: Json, collectedAt: Json, reportedAt: Json)
    ensures var p := PanelEntries(id, standardVersion, code, display, observations, source, collectedAt, reportedAt);
      && "id" in p && p["id"] == Str(id)
      && "resource_type" in p && p["resource_type"] == Str("panel")
      && "status" in p && p["status"] == Str("final")
      && "standard_version" in p && p["standard_version"] == Str(standardVersion)
  {
    PanelKeysDistinct();
    var base := PanelBase(id, standardVersion, code, display, observations, source);
    var collected := collectedAt.Str? && collectedAt.s != [];
    var withCollected := SetWhen(base, "collected_at", collectedAt, collected);
    SetWhenKeys(base, "collected_at", collectedAt, collected);
    SetWhenKeeps(base, "collected_at", collectedAt, collected);
    SetWhenKeys(withCollected, "reported_at", reportedAt, reportedAt.Str? && reportedAt.s != []);
    SetWhenKeeps(withCollected, "reported_at", reportedAt, reportedAt.Str? && reportedAt.s != []);
  }

  /** A panel payload holds its coding, its name, its observations and its source. */
  lemma PanelContentEntries(id: string, standardVersion: string, code: string, display: string,
      observations: seq<Json>, source: Json, collectedAt: Json, reportedAt: Json)
    ensures var p := PanelEntries(id, standardVersion, code, display, observations, source, collectedAt, reportedAt);
      && "panel_code" in p
      && p["panel_code"] == Obj(map["system" := Str("MEDLABS-PANEL"), "code" := Str(code), "display" := Str(display)])
      && "panel_name" in p && p["panel_name"] == Str(display)
      && "observations" in p && p["observations"] == Arr(observations)
      && "source" in p && p["source"] == source
  {
    PanelKeysDistinct();
    var base := PanelBase(id, standardVersion, code, display, observations, source);
    var collected := collectedAt.Str? && collectedAt.s != [];
    var withCollected := SetWhen(base, "collected_at", collectedAt, collected);
    SetWhenKeys(base, "collected_at", collectedAt, collected);
    SetWhenKeeps(base, "collected_at", collectedAt, collected);
    SetWhenKeys(withCollected, "reported_at", reportedAt, reportedAt.Str? && reportedAt.s != []);
    SetWhenKeeps(withCollected, "reported_at", reportedAt, reportedAt.Str? && reportedAt.s != []);
  }

  /** A panel payload has a collection (report) date exactly when a non-empty string is
      given for it. */
  lemma PanelOptionalEntries(id: string, standardVersion: string, code: string, display: string,
      observations: seq<Json>, source: Json, collectedAt: Json, reportedAt: Json)
    ensures var p := PanelEntries(id, standardVersion, code, display, observations, source, collectedAt, reportedAt);
      && ("collected_at" in p <==> collectedAt.Str? && collectedAt.s != [])
      && ("collected_at" in p ==> p["collected_at"] == collectedAt)
      && ("reported_at" in p <==> reportedAt.Str? && reportedAt.s != [])
      && ("reported_at" in p ==> p["reported_at"] == reportedAt)
  {
    PanelKeysDistinct();
    var base := PanelBase(id, standardVersion, code, display, observations, source);
    var collected := collectedAt.Str? && collectedAt.s != [];
    var withCollected := SetWhen(base, "collected_at", collectedAt, collected);
    SetWhenSets(base, "collected_at", collectedAt, collected);
    SetWhenKeys(base, "collected_at", collectedAt, collected);
    assert "reported_at" !in withCollected.Keys;
    SetWhenSets(withCollected, "reported_at", reportedAt, reportedAt.Str? && reportedAt.s != []);
    SetWhenKeeps(withCollected, "reported_at", reportedAt, reportedAt.Str? && reportedAt.s != []);
  }

  /** The keys of a panel payload are pairwise distinct. */
  lemma PanelKeysDistinct()
    ensures "id" != "resource_type" && "id" != "standard_version" && "id" != "panel_code" && "id" != "panel_name"
    ensures "id" != "status" && "id" != "observations" && "id" != "source" && "id" != "collected_at"
    ensures "id" != "reported_at" && "resource_type" != "standard_version" && "resource_type" != "panel_code" && "resource_type" != "panel_name"
    ensures "resource_type" != "status" && "resource_type" != "observations" && "resource_type" != "source" && "resource_type" != "collected_at"
    ensures "resource_type" != "reported_at" && "standard_version" != "panel_code" && "standard_version" != "panel_name" && "standard_version" != "status"
    ensures "standard_version" != "observations" && "standard_version" != "source" && "standard_version" != "collected_at" && "standard_version" != "reported_at"
    ensures "panel_code" != "panel_name" && "panel_code" != "status" && "panel_code" != "observations" && "panel_code" != "source"
    ensures "panel_code" != "collected_at" && "panel_code" != "reported_at" && "panel_name" != "status" && "panel_name" != "observations"
    ensures "panel_name" != "source" && "panel_name" != "collected_at" && "panel_name" != "reported_at" && "status" != "observations"
    ensures "status" != "source" && "status" != "collected_at" && "status" != "reported_at" && "observations" != "source"
    ensures "observations" != "collected_at" && "observations" != "reported_at" && "source" != "collected_at" && "source" != "reported_at"
    ensures "collected_at" != "reported_at"
  {}

  /** The panel payload `to_standard_panel` builds; the panel id draws the uuid after those
      of the observations. */
  function PanelDataOf(report: NormalizedReport, panel: string, standardVersion: string, env: MapEnv): map<string, Json> {
    var code := NormalizePanelCode(panel);
    var display := PanelDisplay(code);
    var meta := report.document.meta;
    PanelEntries(PanelId(code, env.uuidHex(|report.observations|)), standardVersion, code, display,
      PayloadsOf(report.observations, code, meta, env),
      Obj(TraceOf(meta, map[], GetOr(meta, "panel_raw_text", Str(display)), env.today, env.show)),
      Get(meta, "collected_at"), Get(meta, "reported_at"))
  }

  /** The panel `to_standard_panel` returns: the payload and its warnings. */
  function StandardPanelOf(report: NormalizedReport, panel: string, standardVersion: string, env: MapEnv): StandardPanel {
    StandardPanel(PanelDataOf(report, panel, standardVersion, env), PanelWarnings(report, panel))
  }

  /** A panel payload lists one observation payload per normalised observation, in order,
      under the resolved panel code, and names the panel by code and display name. */
  lemma PanelContents(report: NormalizedReport, panel: string, standardVersion: string, env: MapEnv)
    ensures var data := PanelDataOf(report, panel, standardVersion, env);
      var code := NormalizePanelCode(panel);
      && "observations" in data && data["observations"] == Arr(PayloadsOf(report.observations, code, report.document.meta, env))
      && "panel_code" in data
      && data["panel_code"] == Obj(map["system" := Str("MEDLABS-PANEL"), "code" := Str(code), "display" := Str(PanelDisplay(code))])
      && "panel_name" in data && data["panel_name"] == Str(PanelDisplay(code))
  {
    var code := NormalizePanelCode(panel);
    var display := PanelDisplay(code);
    var meta := report.document.meta;
    PanelContentEntries(PanelId(code, env.uuidHex(|report.observations|)), standardVersion, code, display,
      PayloadsOf(report.observations, code, meta, env),
      Obj(TraceOf(meta, map[], GetOr(meta, "panel_raw_text", Str(display)), env.today, env.show)),
      Get(meta, "collected_at"), Get(meta, "reported_at"));
  }

  /** A panel payload is identified by the resolved panel code and the uuid drawn after
      those of its observations, and names its standard version. */
  lemma PanelIdentity(report: NormalizedReport, panel: string, standardVersion: string, env: MapEnv)
    ensures var data := PanelDataOf(report, panel, standardVersion, env);
      var code := NormalizePanelCode(panel);
      && "id" in data && data["id"] == Str(PanelId(code, env.uuidHex(|report.observations|)))
      && "resource_type" in data && data["resource_type"] == Str("panel")
      && "status" in data && data["status"] == Str("final")
      && "standard_version" in data && data["standard_version"] == Str(standardVersion)
  {
    var code := NormalizePanelCode(panel);
    var display := PanelDisplay(code);
    var meta := report.document.meta;
    PanelHeaderEntries(PanelId(code, env.uuidHex(|report.observations|)), standardVersion, code, display,
      PayloadsOf(report.observations, code, meta, env),
      Obj(TraceOf(meta, map[], GetOr(meta, "panel_raw_text", Str(display)), env.today, env.show)),
      Get(meta, "collected_at"), Get(meta, "reported_at"));
  }

  /** `_source_trace`, filling the block entry by entry. */
  method SourceTrace(meta: map<string, Json>, evidence: Evidence, fallback: Json, today: string, show: Show)
    returns (trace: map<string, Json>)
    ensures trace == TraceOf(meta, evidence, fallback, today, show)
  {
    trace := map[
      "document_id" := Str(PyStr(GetOr(meta, "document_id", Str("unknown-document")), show)),
      "lab_name" := Str(PyStr(GetOr(meta, "lab_name", Str("Unknown Lab")), show)),
      "report_date" := Str(ReportDate(meta, today)),
      "raw_text" := fallback];
    if evidence != map[] {
      trace := AddEvidence(trace, evidence);
    }
  }

  /** The `if evidence:` block of `_source_trace`. */
  method AddEvidence(base: map<string, Json>, evidence: Evidence) returns (trace: map<string, Json>)
    ensures trace == WithEvidence(base, evidence)
  {
    trace := base;
    var page := Get(evidence, "page");
    var line := Get(evidence, "line");
    var rawText := Get(evidence, "raw_text");
    if IsPositiveInt(page) {
      trace := trace["page" := page];
    }
    assert trace == SetWhen(base, "page", page, IsPositiveInt(page));
    if IsPositiveInt(line) {
      trace := trace["line" := line];
    }
    assert trace == SetWhen(SetWhen(base, "page", page, IsPositiveInt(page)), "line", line, IsPositiveInt(line));
    trace := ReplaceRawText(trace, rawText);
  }

  /** The `raw_text` step of `_source_trace`: a string that is not blank once stripped
      replaces the fallback. */
  method ReplaceRawText(trace: map<string, Json>, rawText: Json) returns (t: map<string, Json>)
    ensures t == WithRawText(trace, rawText)
  {
    t := trace;
    if rawText.Str? {
      var stripped := Strip(rawText.s);
      if stripped != [] {
        t := t["raw_text" := Str(stripped)];
      }
    }
  }

  /** `_reference_range`, adding the bounds one at a time. */
  method ReferenceRange(o: NormalizedObservation, unitDisplay: string -> string) returns (r: Option<map<string, Json>>)
    ensures r == ReferenceRangeOf(o, unitDisplay)
  {
    if o.refLow.None? && o.refHigh.None? {
      return None;
    }
    var unitCode := UnitCode(o.unit);
    var result: map<string, Json> := map[];
    if o.refLow.Some? {
      result := result["low" := Obj(Quantity(o.refLow.value, unitCode, unitDisplay))];
    }
    if o.refHigh.Some? {
      result := result["high" := Obj(Quantity(o.refHigh.value, unitCode, unitDisplay))];
    }
    r := Some(result);
  }

  /** `_observation_payload`, adding the optional entries after the fixed ones. */
  method ObservationPayload(o: NormalizedObservation, panelCode: string, index: nat, meta: map<string, Json>, hex: string, env: MapEnv)
    returns (payload: map<string, Json>)
    ensures payload == PayloadOf(o, panelCode, index, meta, hex, env)
  {
    var source := SourceTrace(meta, o.evidence, Str(o.sourceName), env.today, env.show);
    var referenceRange := ReferenceRange(o, env.unitDisplay);
    payload := AssembleObservation(ObservationId(panelCode, index, hex), Obj(ObservationCode(o)),
      ObservationValue(o, env.unitDisplay), Interpretation(o), Obj(source), referenceRange,
      Or(Get(meta, "effective_time"), Get(meta, "collected_at")));
  }

  /** The dictionary `_observation_payload` returns once its parts are computed:
      `reference_range` added when there is a non-empty one, `effective_time` when it
      is a non-empty string. */
  method AssembleObservation(id: string, code: Json, value: Json, interpretation: string, source: Json,
                             referenceRange: Option<map<string, Json>>, effectiveTime: Json)
    returns (payload: map<string, Json>)
    ensures payload == ObservationEntries(id, code, value, interpretation, source, referenceRange,
      if effectiveTime.Str? && effectiveTime.s != [] then Some(effectiveTime.s) else None)
  {
    payload := map[
      "id" := Str(id),
      "resource_type" := Str("observation"),
      "code" := code,
      "value" := value,
      "interpretation" := Str(interpretation),
      "status" := Str("final"),
      "source" := source];
    if referenceRange.Some? && referenceRange.value != map[] {
      payload := payload["reference_range" := Obj(referenceRange.value)];
    }
    assert payload == SetWhen(ObservationBase(id, code, value, interpretation, source),
      "reference_range", Obj(referenceRange.GetOr(map[])), referenceRange.Some? && referenceRange.value != map[]);
    if effectiveTime.Str? && effectiveTime.s != [] {
      payload := payload["effective_time" := effectiveTime];
    }
  }

    /** The observation payloads of a panel, built one observation at a time. */
  method ObservationPayloads(observations: seq<NormalizedObservation>, panelCode: string, meta: map<string, Json>, env: MapEnv)
    returns (payloads: seq<Json>)
    ensures payloads == PayloadsOf(observations, panelCode, meta, env)
  {
    payloads := [];
    var index := 0;
    while index < |observations|
      invariant 0 <= index <= |observations|
      invariant payloads == Numbered(observations[..index], PayloadAt(panelCode, meta, env))
    {
      var payload := ObservationPayload(observations[index], panelCode, index + 1, meta, env.uuidHex(index), env);
      NumberedSnoc(observations, index, PayloadAt(panelCode, meta, env));
      payloads := payloads + [Obj(payload)];
      index := index + 1;
    }
    assert observations[..index] == observations;
  }

  /** The panel dictionary, with `collected_at` and `reported_at` added only when non-empty. */
  method PanelPayload(id: string, standardVersion: string, code: string, display: string,
                      observations: seq<Json>, source: Json, collectedAt: Json, reportedAt: Json)
    returns (payload: map<string, Json>)
    ensures payload == PanelEntries(id, standardVersion, code, display, observations, source, collectedAt, reportedAt)
  {
    payload := map[
      "id" := Str(id),
      "resource_type" := Str("panel"),
      "standard_version" := Str(standardVersion),
      "panel_code" := Obj(map["system" := Str("MEDLABS-PANEL"), "code" := Str(code), "display" := Str(display)]),
      "panel_name" := Str(display),
      "status" := Str("final"),
      "observations" := Arr(observations),
      "source" := source];
    if collectedAt.Str? && collectedAt.s != [] {
      payload := payload["collected_at" := collectedAt];
    }
    assert payload == SetWhen(PanelBase(id, standardVersion, code, display, observations, source),
      "collected_at", collectedAt, collectedAt.Str? && collectedAt.s != []);
    if reportedAt.Str? && reportedAt.s != [] {
      payload := payload["reported_at" := reportedAt];
    }
  }

/** `to_standard_panel`: the warnings, the observation payloads in order (the k-th
      drawing the k-th uuid), then the panel payload with its optional dates. */
  method ToStandardPanel(report: NormalizedReport, panel: string, standardVersion: string, env: MapEnv)
    returns (result: StandardPanel)
    ensures result == StandardPanelOf(report, panel, standardVersion, env)
  {
    var panelCode := NormalizePanelCode(panel);
    var display := PanelDisplay(panelCode);

    var warnings := report.warnings;
    if panelCode !in PanelDisplays {
      warnings := warnings + [UnknownPanelWarning(panel)];
    }

    var meta := report.document.meta;
    var observations := ObservationPayloads(report.observations, panelCode, meta, env);
    var source := SourceTrace(meta, map[], GetOr(meta, "panel_raw_text", Str(display)), env.today, env.show);
    var payload := PanelPayload(PanelId(panelCode, env.uuidHex(|report.observations|)), standardVersion,
      panelCode, display, observations, Obj(source), Get(meta, "collected_at"), Get(meta, "reported_at"));
    result := StandardPanel(payload, warnings);
  }
}
