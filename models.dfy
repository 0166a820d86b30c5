/** The records that flow through the pipeline (core/models.py). */
module Models {
  import opened Wrappers
  import opened JsonValues

  /** Opaque provenance bag of an extracted field (page, line, raw text, ...). */
  type Evidence = map<string, Json>

  /** `Value = float | str | bool | None`. */
  datatype Value = VNum(x: real) | VStr(s: string) | VBool(b: bool) | VNone

  /** `Severity = Literal["error", "warning"]`. */
  datatype Severity = Error | Warning

  datatype RawDocument = RawDocument(
    text: string,
    pages: seq<string>,
    source: string,
    meta: map<string, Json>,
    artifacts: map<string, Json>)

  datatype ExtractedField = ExtractedField(
    nameRaw: string,
    valueRaw: string,
    unitRaw: string,
    refRaw: string,
    flagsRaw: string,
    evidence: Evidence,
    confidence: real)

  datatype ExtractedReport = ExtractedReport(
    document: RawDocument,
    fields: seq<ExtractedField>,
    warnings: seq<string>,
    meta: map<string, Json>)

  datatype NormalizedObservation = NormalizedObservation(
    code: string,
    value: Value,
    unit: string,
    refLow: Option<real>,
    refHigh: Option<real>,
    sourceName: string,
    confidence: real,
    evidence: Evidence,
    flagsRaw: string)

  datatype NormalizedReport = NormalizedReport(
    document: RawDocument,
    observations: seq<NormalizedObservation>,
    warnings: seq<string>,
    meta: map<string, Json>)

  datatype StandardPanel = StandardPanel(data: map<string, Json>, warnings: seq<string>) {
    /** `to_dict`: a shallow copy of `data`; in a value model the copy is `data` itself. */
    function ToDict(): (r: map<string, Json>)
      ensures r.Keys == data.Keys
      ensures forall k :: k in r ==> r[k] == data[k]
    {
      data
    }
  }

  datatype ValidationIssue = ValidationIssue(path: string, description: string, severity: Severity)

  /** `is_valid` is a stored field, not derived from `issues`: see `Consistent`. */
  datatype ValidationResult = ValidationResult(isValid: bool, issues: seq<ValidationIssue>) {
    /** The `errors` property. */
    function Errors(): seq<ValidationIssue> { ErrorsOf(issues) }
    /** The `warnings` property. */
    function Warnings(): seq<ValidationIssue> { WarningsOf(issues) }
  }

  datatype PipelineResult = PipelineResult(
    document: RawDocument,
    extracted: ExtractedReport,
    normalized: NormalizedReport,
    mapped: StandardPanel,
    validation: ValidationResult)

  /** The issues of severity "error", in their original order. */
  function ErrorsOf(issues: seq<ValidationIssue>): (r: seq<ValidationIssue>)
    ensures |r| <= |issues|
    ensures forall x :: x in r ==> x in issues && x.severity == Error
    ensures forall x :: x in issues && x.severity == Error ==> x in r
  {
    if issues == [] then []
    else if issues[0].severity == Error then [issues[0]] + ErrorsOf(issues[1..])
    else ErrorsOf(issues[1..])
  }

  /** The issues of severity "warning", in their original order. */
  function WarningsOf(issues: seq<ValidationIssue>): (r: seq<ValidationIssue>)
    ensures |r| <= |issues|
    ensures forall x :: x in r ==> x in issues && x.severity == Warning
    ensures forall x :: x in issues && x.severity == Warning ==> x in r
  {
    if issues == [] then []
    else if issues[0].severity == Warning then [issues[0]] + WarningsOf(issues[1..])
    else WarningsOf(issues[1..])
  }

  predicate HasError(issues: seq<ValidationIssue>) {
    exists i :: 0 <= i < |issues| && issues[i].severity == Error
  }

  /** What every construction site of a `ValidationResult` must establish. */
  predicate Consistent(r: ValidationResult) {
    r.isValid <==> r.Errors() == []
  }

  /** Since a severity is "error" or "warning", errors and warnings split the issues. */
  lemma {:induction false} ErrorsAndWarningsPartition(issues: seq<ValidationIssue>)
    ensures |ErrorsOf(issues)| + |WarningsOf(issues)| == |issues|
    ensures multiset(ErrorsOf(issues)) + multiset(WarningsOf(issues)) == multiset(issues)
  {
    if issues != [] {
      ErrorsAndWarningsPartition(issues[1..]);
      assert issues == [issues[0]] + issues[1..];
    }
  }

  /** The error list is empty exactly when no issue is an error. */
  lemma NoErrorsIff(issues: seq<ValidationIssue>)
    ensures ErrorsOf(issues) == [] <==> !HasError(issues)
  {
    if HasError(issues) {
      var i :| 0 <= i < |issues| && issues[i].severity == Error;
      assert issues[i] in ErrorsOf(issues);
    }
  }

  /** Filtering distributes over concatenation, so the errors of merged issue lists are
      the errors of the first list followed by those of the second. */
  lemma {:induction false} ErrorsOfAppend(a: seq<ValidationIssue>, b: seq<ValidationIssue>)
    ensures ErrorsOf(a + b) == ErrorsOf(a) + ErrorsOf(b)
  {
    if a != [] {
      var ab := a + b;
      assert ab[0] == a[0] && ab[1..] == a[1..] + b;
      ErrorsOfAppend(a[1..], b);
    } else {
      assert a + b == b;
    }
  }

  lemma {:induction false} WarningsOfAppend(a: seq<ValidationIssue>, b: seq<ValidationIssue>)
    ensures WarningsOf(a + b) == WarningsOf(a) + WarningsOf(b)
  {
    if a != [] {
      var ab := a + b;
      assert ab[0] == a[0] && ab[1..] == a[1..] + b;
      WarningsOfAppend(a[1..], b);
    } else {
      assert a + b == b;
    }
  }
}
