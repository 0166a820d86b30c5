/** The LLM-backed extractor (core/extract/ai.py): it asks the client for a structured
    payload and sanitises its untrusted `fields` list into extracted fields, turning every
    item it cannot use into a warning. */
module AiExtract {
  import opened Wrappers
  import opened Text
  import opened JsonValues
  import opened Models
  import opened Contracts

  /** `EXTRACTION_OUTPUT_SCHEMA`, the JSON Schema sent with every request. */
  const ExtractionOutputSchema: map<string, Json> := map[
    "type" := Str("object"),
    "required" := Arr([Str("fields")]),
    "properties" := Obj(map[
      "fields" := Obj(map[
        "type" := Str("array"),
        "items" := Obj(map[
          "type" := Str("object"),
          "required" := Arr([Str("name_raw"), Str("value_raw")]),
          "properties" := Obj(map[
            "name_raw" := Obj(map["type" := Str("string")]),
            "value_raw" := Obj(map["type" := Str("string")]),
            "unit_raw" := Obj(map["type" := Str("string")]),
            "ref_raw" := Obj(map["type" := Str("string")]),
            "flags_raw" := Obj(map["type" := Str("string")]),
            "confidence" := Obj(map["type" := Str("number"), "minimum" := Num(0.0), "maximum" := Num(1.0)]),
            "evidence" := Obj(map["type" := Str("object")])]),
          "additionalProperties" := Bool(true)])])]),
    "additionalProperties" := Bool(true)]

  const InvalidFieldsFormat := "Extractor output has invalid fields format"

  function NotAnObject(index: nat): string {
    "fields[" + NatToString(index) + "] is not an object"
  }

  function MissingNameOrValue(index: nat): string {
    "fields[" + NatToString(index) + "] is missing name_raw or value_raw"
  }

  /** What `float(s)` makes of a string: a number, or nothing when it raises `ValueError`.
      Python's float syntax (exponents, `inf`, underscores, ...) is left to the caller. */
  type FloatText = string -> Option<real>

  /** The two Python conversions the sanitiser applies to untrusted values: `str(x)` and
      `float(s)`. */
  datatype Conversions = Conversions(show: Show, floatText: FloatText)

  /** `_string`: "" for `None`, otherwise the value's `str()`, stripped. */
  function StringOf(value: Json, show: Show): (r: string)
    ensures Trimmed(r)
    ensures value.Null? ==> r == ""
    ensures value.Str? ==> r == Strip(value.s)
  {
    if value.Null? then "" else Strip(PyStr(value, show))
  }

  /** `float(value)`: booleans and numbers convert, strings as `floatText` says, and
      `None`, lists and dicts raise `TypeError`. */
  function FloatOf(value: Json, floatText: FloatText): Option<real> {
    match value
    case Bool(b) => Some(if b then 1.0 else 0.0)
    case Int(i) => Some(i as real)
    case Num(r) => Some(r)
    case Str(s) => floatText(s)
    case _ => None
  }

  /** `_float_0_1`: the number clamped into [0, 1], or 0.0 when it does not convert. */
  function ConfidenceOf(value: Json, floatText: FloatText): (r: real)
    ensures 0.0 <= r <= 1.0
    ensures FloatOf(value, floatText).None? ==> r == 0.0
    ensures FloatOf(value, floatText).Some? ==>
              var x := FloatOf(value, floatText).value;
              r == if x < 0.0 then 0.0 else if x > 1.0 then 1.0 else x
  {
    match FloatOf(value, floatText)
    case None => 0.0
    case Some(number) =>
      var upper := if number < 1.0 then number else 1.0;
      if 0.0 < upper then upper else 0.0
  }

  /** The evidence of an item: its `evidence` entry when that is a dict, else `{}`. */
  function EvidenceOf(item: map<string, Json>): (e: Evidence)
    ensures "evidence" in item && item["evidence"].Obj? ==> e == item["evidence"].fields
    ensures !("evidence" in item && item["evidence"].Obj?) ==> e == map[]
  {
    var evidence := GetOr(item, "evidence", Obj(map[]));
    if evidence.Obj? then evidence.fields else map[]
  }

  /** What one item of `fields` becomes: a field or a warning, never both. */
  datatype ItemOutcome = Accepted(field: ExtractedField) | Rejected(warning: string)

  /** The field built from an item, whether or not its name and value are usable. */
  function FieldOf(item: map<string, Json>, conv: Conversions): ExtractedField {
    ExtractedField(
      nameRaw := StringOf(Get(item, "name_raw"), conv.show),
      valueRaw := StringOf(Get(item, "value_raw"), conv.show),
      unitRaw := StringOf(Get(item, "unit_raw"), conv.show),
      refRaw := StringOf(Get(item, "ref_raw"), conv.show),
      flagsRaw := StringOf(Get(item, "flags_raw"), conv.show),
      evidence := EvidenceOf(item),
      confidence := ConfidenceOf(Get(item, "confidence"), conv.floatText))
  }

  /** The item at position `index` of the `fields` list. */
  function ItemOutcomeOf(index: nat, item: Json, conv: Conversions): ItemOutcome {
    if !item.Obj? then Rejected(NotAnObject(index))
    else
      var field := FieldOf(item.fields, conv);
      if field.nameRaw == [] || field.valueRaw == [] then Rejected(MissingNameOrValue(index))
      else Accepted(field)
  }

  /** A field the sanitiser lets through: non-empty name and value, every string trimmed,
      and a confidence in [0, 1]. */
  predicate CleanField(f: ExtractedField) {
    && f.nameRaw != [] && f.valueRaw != []
    && Trimmed(f.nameRaw) && Trimmed(f.valueRaw)
    && Trimmed(f.unitRaw) && Trimmed(f.refRaw) && Trimmed(f.flagsRaw)
    && 0.0 <= f.confidence <= 1.0
  }

  /** An item is rejected exactly when it is not a dict or its name or value is blank;
      an accepted one gives a clean field carrying the item's own strings, evidence and
      confidence. */
  lemma ItemOutcomeIff(index: nat, item: Json, conv: Conversions)
    ensures var o := ItemOutcomeOf(index, item, conv);
      && (!item.Obj? ==> o == Rejected(NotAnObject(index)))
      && (item.Obj? ==>
            (o.Rejected? <==> StringOf(Get(item.fields, "name_raw"), conv.show) == []
                              || StringOf(Get(item.fields, "value_raw"), conv.show) == []))
      && (o.Rejected? && item.Obj? ==> o.warning == MissingNameOrValue(index))
      && (o.Accepted? ==>
            && CleanField(o.field)
            && o.field.nameRaw == StringOf(Get(item.fields, "name_raw"), conv.show)
            && o.field.valueRaw == StringOf(Get(item.fields, "value_raw"), conv.show)
            && o.field.evidence == EvidenceOf(item.fields)
            && o.field.confidence == ConfidenceOf(Get(item.fields, "confidence"), conv.floatText))
  {}

  /** The fields the items give, in item order. */
  function FieldsOf(items: seq<Json>, conv: Conversions): seq<ExtractedField> {
    if items == [] then []
    else
      var n := |items| - 1;
      match ItemOutcomeOf(n, items[n], conv)
      case Accepted(f) => FieldsOf(items[..n], conv) + [f]
      case Rejected(_) => FieldsOf(items[..n], conv)
  }

  /** The warnings the items give, in item order. */
  function ItemWarnings(items: seq<Json>, conv: Conversions): seq<string> {
    if items == [] then []
    else
      var n := |items| - 1;
      match ItemOutcomeOf(n, items[n], conv)
      case Accepted(_) => ItemWarnings(items[..n], conv)
      case Rejected(w) => ItemWarnings(items[..n], conv) + [w]
  }

  /** Every item yields exactly one field or one warning. */
  lemma {:induction false} OneOutcomePerItem(items: seq<Json>, conv: Conversions)
    ensures |FieldsOf(items, conv)| + |ItemWarnings(items, conv)| == |items|
  {
    if items != [] {
      OneOutcomePerItem(items[..|items| - 1], conv);
    }
  }

  /** Every field that comes out is clean. */
  lemma {:induction false} FieldsAreClean(items: seq<Json>, conv: Conversions)
    ensures forall f :: f in FieldsOf(items, conv) ==> CleanField(f)
  {
    if items != [] {
      var n := |items| - 1;
      FieldsAreClean(items[..n], conv);
      ItemOutcomeIff(n, items[n], conv);
    }
  }

  /** The per-item outcomes as options of fields. */
  function AcceptedFields(items: seq<Json>, conv: Conversions): (r: seq<Option<ExtractedField>>)
    ensures |r| == |items|
    ensures forall i :: 0 <= i < |items| ==>
      r[i] == if ItemOutcomeOf(i, items[i], conv).Accepted? then Some(ItemOutcomeOf(i, items[i], conv).field) else None
  {
    seq(|items|, i requires 0 <= i < |items| =>
      if ItemOutcomeOf(i, items[i], conv).Accepted? then Some(ItemOutcomeOf(i, items[i], conv).field) else None)
  }

  /** The fields are the accepted items' fields, in item order. */
  lemma {:induction false} FieldsKeepItemOrder(items: seq<Json>, conv: Conversions)
    ensures FieldsOf(items, conv) == Present(AcceptedFields(items, conv))
  {
    if items != [] {
      var n := |items| - 1;
      FieldsKeepItemOrder(items[..n], conv);
      assert AcceptedFields(items, conv)[..n] == AcceptedFields(items[..n], conv);
    }
  }

  /** When every item is usable, the k-th field is the k-th item's. */
  lemma AllAcceptedKeepPositions(items: seq<Json>, conv: Conversions)
    requires forall i :: 0 <= i < |items| ==> ItemOutcomeOf(i, items[i], conv).Accepted?
    ensures |FieldsOf(items, conv)| == |items|
    ensures forall i :: 0 <= i < |items| ==> FieldsOf(items, conv)[i] == ItemOutcomeOf(i, items[i], conv).field
  {
    FieldsKeepItemOrder(items, conv);
    PresentAllSome(AcceptedFields(items, conv));
  }

  /** `payload.get("fields", [])`, or `[]` when that is not a list. */
  function RawItems(payload: map<string, Json>): seq<Json> {
    var rawFields := GetOr(payload, "fields", Arr([]));
    if rawFields.Arr? then rawFields.items else []
  }

  /** The warning for a `fields` entry that is present but not a list. */
  function FormatWarnings(payload: map<string, Json>): seq<string> {
    if GetOr(payload, "fields", Arr([])).Arr? then [] else [InvalidFieldsFormat]
  }

  /** `AIExtractor`: its configuration is set at construction and never changes. */
  datatype AiExtractor = AiExtractor(promptName: string, promptVersion: string, temperature: real) {

    /** The request `extract` sends for a document. */
    function RequestFor(document: RawDocument): (r: StructuredRequest)
      ensures r.inputText == document.text && r.outputSchema == ExtractionOutputSchema
      ensures r.promptName == promptName && r.promptVersion == promptVersion && r.temperature == temperature
    {
      StructuredRequest(promptName, promptVersion, document.text, ExtractionOutputSchema, temperature)
    }

    /** The report `extract` builds from the client's payload. */
    function ReportOf(document: RawDocument, payload: map<string, Json>, conv: Conversions): ExtractedReport {
      var items := RawItems(payload);
      ExtractedReport(
        document,
        FieldsOf(items, conv),
        FormatWarnings(payload) + ItemWarnings(items, conv),
        map["prompt_name" := Str(promptName), "prompt_version" := Str(promptVersion)])
    }

    /** `extract`: one client call, then the sanitising loop over the payload's items. A
        client that raises makes `extract` raise the same exception. */
    method Extract(client: LlmClient, document: RawDocument, conv: Conversions)
      returns (r: Result<ExtractedReport, Exception>)
      ensures client(RequestFor(document)).Err? ==> r == Err(client(RequestFor(document)).error)
      ensures client(RequestFor(document)).Ok? ==> r == Ok(ReportOf(document, client(RequestFor(document)).value, conv))
    {
      var response := client(RequestFor(document));
      if response.Err? {
        return Err(response.error);
      }
      var payload := response.value;

      var warnings: seq<string> := [];
      var rawFields := GetOr(payload, "fields", Arr([]));
      var items: seq<Json> := [];
      if !rawFields.Arr? {
        warnings := warnings + [InvalidFieldsFormat];
      } else {
        items := rawFields.items;
      }
      assert items == RawItems(payload);
      assert warnings == FormatWarnings(payload);
      ghost var formatWarnings := warnings;

      var fields: seq<ExtractedField> := [];
      var index := 0;
      while index < |items|
        invariant 0 <= index <= |items|
        invariant fields == FieldsOf(items[..index], conv)
        invariant warnings == formatWarnings + ItemWarnings(items[..index], conv)
      {
        ItemsStep(items, index, conv);
        var outcome := SanitiseItem(index, items[index], conv);
        if outcome.Accepted? {
          fields := fields + [outcome.field];
        } else {
          warnings := warnings + [outcome.warning];
        }
        index := index + 1;
      }
      assert items[..index] == items;
      r := Ok(ExtractedReport(document, fields, warnings,
        map["prompt_name" := Str(promptName), "prompt_version" := Str(promptVersion)]));
    }
  }

  /** One more item extends the fields or the warnings by that item's outcome. */
  lemma ItemsStep(items: seq<Json>, index: nat, conv: Conversions)
    requires index < |items|
    ensures var o := ItemOutcomeOf(index, items[index], conv);
      && FieldsOf(items[..index + 1], conv) == FieldsOf(items[..index], conv) + (if o.Accepted? then [o.field] else [])
      && ItemWarnings(items[..index + 1], conv) == ItemWarnings(items[..index], conv) + (if o.Rejected? then [o.warning] else [])
  {
    assert items[..index + 1][..index] == items[..index];
  }

  /** The body of the sanitising loop for the item at position `index`. */
  method SanitiseItem(index: nat, item: Json, conv: Conversions) returns (outcome: ItemOutcome)
    ensures outcome == ItemOutcomeOf(index, item, conv)
  {
    if !item.Obj? {
      return Rejected(NotAnObject(index));
    }
    var nameRaw := StringOf(Get(item.fields, "name_raw"), conv.show);
    var valueRaw := StringOf(Get(item.fields, "value_raw"), conv.show);
    if nameRaw == [] || valueRaw == [] {
      return Rejected(MissingNameOrValue(index));
    }
    var evidence := GetOr(item.fields, "evidence", Obj(map[]));
    if !evidence.Obj? {
      evidence := Obj(map[]);
    }
    outcome := Accepted(ExtractedField(
      nameRaw := nameRaw,
      valueRaw := valueRaw,
      unitRaw := StringOf(Get(item.fields, "unit_raw"), conv.show),
      refRaw := StringOf(Get(item.fields, "ref_raw"), conv.show),
      flagsRaw := StringOf(Get(item.fields, "flags_raw"), conv.show),
      evidence := evidence.fields,
      confidence := ConfidenceOf(Get(item.fields, "confidence"), conv.floatText)));
  }

  /** A payload whose `fields` is present but not a list gives one warning and no field. */
  lemma InvalidFormatGivesOneWarning(extractor: AiExtractor, document: RawDocument, payload: map<string, Json>, conv: Conversions)
    requires "fields" in payload && !payload["fields"].Arr?
    ensures extractor.ReportOf(document, payload, conv).fields == []
    ensures extractor.ReportOf(document, payload, conv).warnings == [InvalidFieldsFormat]
  {}

  /** For any payload: each item gives one field or one warning (plus at most the format
      warning), every field is clean, and the metadata names only the prompt. */
  lemma ReportShape(extractor: AiExtractor, document: RawDocument, payload: map<string, Json>, conv: Conversions)
    ensures var report := extractor.ReportOf(document, payload, conv);
      && |report.fields| + |report.warnings| == |RawItems(payload)| + |FormatWarnings(payload)|
      && (forall f :: f in report.fields ==> CleanField(f))
      && report.meta.Keys == {"prompt_name", "prompt_version"}
      && report.document == document
  {
    OneOutcomePerItem(RawItems(payload), conv);
    FieldsAreClean(RawItems(payload), conv);
  }
}
