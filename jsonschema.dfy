/** JSON-Schema validation of a panel payload, merged with the semantic rules
    (core/validate/jsonschema.py). Reading schema files and running a Draft 2020-12
    validator are outside the model: both come in as a `SchemaEngine`, which reports either
    a failure (any exception, as its message) or the violations it found. */
module SchemaValidation {
  import opened Wrappers
  import opened Text
  import opened JsonValues
  import opened Models
  import opened Rules

  /** `_SCHEMA_BY_PANEL`: panel code to the schema file that describes it. */
  const SchemaByPanel: map<string, string> := map[
    "CBC" := "cbc.json",
    "BIOCHEM" := "biochem.json",
    "URINALYSIS" := "urinalysis.json"
  ]

  /** Where a schema is read from: a path the caller gave, or a file of the schema
      directory (`None` standing for the repository's default directory). */
  datatype SchemaFile = GivenPath(path: string) | Bundled(dir: Option<string>, name: string)

  /** One part of a location in the payload: a dictionary key or a list index. */
  datatype PathPart = Key(k: string) | Index(i: nat)

  /** One schema violation: where it is (`absolute_path`) and what it says. */
  datatype SchemaError = SchemaError(location: seq<PathPart>, message: string)

  /** The validator, reading the schema and checking the payload against it. */
  type SchemaEngine = (SchemaFile, map<string, Json>) -> Result<seq<SchemaError>, string>

  /** `_schema_path_for_panel`: the panel code, trimmed and upper-cased, picks a schema
      file; any other code is refused. */
  function SchemaPathForPanel(panelCode: string, schemaDir: Option<string>): (r: Result<SchemaFile, string>)
    ensures r.Ok? <==> Upper(Strip(panelCode)) in SchemaByPanel
    ensures r.Ok? ==> r.value == Bundled(schemaDir, SchemaByPanel[Upper(Strip(panelCode))])
    ensures r.Err? ==> r.error == "Unsupported panel code: " + panelCode
  {
    var normalized := Upper(Strip(panelCode));
    if normalized in SchemaByPanel then Ok(Bundled(schemaDir, SchemaByPanel[normalized]))
    else Err("Unsupported panel code: " + panelCode)
  }

  /** Panel codes that differ only in case and surrounding whitespace pick the same schema. */
  lemma SchemaPathIgnoresCaseAndPadding(a: string, b: string, schemaDir: Option<string>)
    requires Upper(Strip(a)) == Upper(Strip(b))
    ensures SchemaPathForPanel(a, schemaDir).Ok? == SchemaPathForPanel(b, schemaDir).Ok?
    ensures SchemaPathForPanel(a, schemaDir).Ok? ==> SchemaPathForPanel(a, schemaDir) == SchemaPathForPanel(b, schemaDir)
  {}

  /** Python's `<` on two `str`: code point by code point, a proper prefix first. */
  predicate StrLess(a: string, b: string) {
    if a == [] then b != []
    else b != [] && (a[0] < b[0] || (a[0] == b[0] && StrLess(a[1..], b[1..])))
  }

  /** `<` on two location parts: indices by value, keys as strings, and an index before a
      key (see the README: Python would raise here, which cannot happen within one payload). */
  predicate PartLess(p: PathPart, q: PathPart) {
    match (p, q)
    case (Index(i), Index(j)) => i < j
    case (Key(k), Key(l)) => StrLess(k, l)
    case (Index(_), Key(_)) => true
    case (Key(_), Index(_)) => false
  }

  /** Python's `<` on two lists of location parts: lexicographic, a proper prefix first. */
  predicate LocationLess(x: seq<PathPart>, y: seq<PathPart>) {
    if x == [] then y != []
    else y != [] && (PartLess(x[0], y[0]) || (x[0] == y[0] && LocationLess(x[1..], y[1..])))
  }

  lemma {:induction false} StrLessIrreflexive(a: string)
    ensures !StrLess(a, a)
  {
    if a != [] { StrLessIrreflexive(a[1..]); }
  }

  lemma {:induction false} StrLessTransitive(a: string, b: string, c: string)
    requires StrLess(a, b) && StrLess(b, c)
    ensures StrLess(a, c)
  {
    if a != [] && a[0] == b[0] && b[0] == c[0] {
      StrLessTransitive(a[1..], b[1..], c[1..]);
    }
  }

  lemma {:induction false} StrLessTotal(a: string, b: string)
    ensures a == b || StrLess(a, b) || StrLess(b, a)
  {
    if a != [] && b != [] && a[0] == b[0] {
      StrLessTotal(a[1..], b[1..]);
      if a[1..] == b[1..] {
        assert a == [a[0]] + a[1..] && b == [b[0]] + b[1..];
      }
    }
  }

  lemma PartLessIrreflexive(p: PathPart)
    ensures !PartLess(p, p)
  {
    if p.Key? { StrLessIrreflexive(p.k); }
  }

  lemma PartLessTransitive(p: PathPart, q: PathPart, r: PathPart)
    requires PartLess(p, q) && PartLess(q, r)
    ensures PartLess(p, r)
  {
    if p.Key? && q.Key? && r.Key? { StrLessTransitive(p.k, q.k, r.k); }
  }

  lemma PartLessTotal(p: PathPart, q: PathPart)
    ensures p == q || PartLess(p, q) || PartLess(q, p)
  {
    if p.Key? && q.Key? { StrLessTotal(p.k, q.k); }
  }

  /** No location sorts before itself. */
  lemma {:induction false} LocationLessIrreflexive(x: seq<PathPart>)
    ensures !LocationLess(x, x)
  {
    if x != [] {
      PartLessIrreflexive(x[0]);
      LocationLessIrreflexive(x[1..]);
    }
  }

  /** The location order is transitive. */
  lemma {:induction false} LocationLessTransitive(x: seq<PathPart>, y: seq<PathPart>, z: seq<PathPart>)
    requires LocationLess(x, y) && LocationLess(y, z)
    ensures LocationLess(x, z)
  {
    if x != [] {
      if PartLess(x[0], y[0]) && PartLess(y[0], z[0]) {
        PartLessTransitive(x[0], y[0], z[0]);
      } else if x[0] == y[0] && y[0] == z[0] {
        LocationLessTransitive(x[1..], y[1..], z[1..]);
      }
    }
  }

  /** Any two locations are equal or ordered one way. */
  lemma {:induction false} LocationLessTotal(x: seq<PathPart>, y: seq<PathPart>)
    ensures x == y || LocationLess(x, y) || LocationLess(y, x)
  {
    if x != [] && y != [] {
      PartLessTotal(x[0], y[0]);
      if x[0] == y[0] {
        LocationLessTotal(x[1..], y[1..]);
        if x[1..] == y[1..] {
          assert x == [x[0]] + x[1..] && y == [y[0]] + y[1..];
        }
      }
    }
  }

  /** No two locations are each before the other. */
  lemma LocationLessAsymmetric(x: seq<PathPart>, y: seq<PathPart>)
    requires LocationLess(x, y)
    ensures !LocationLess(y, x)
  {
    if LocationLess(y, x) {
      LocationLessTransitive(x, y, x);
      LocationLessIrreflexive(x);
    }
  }

  /** Inserting `e` before the first error whose location is not smaller: an element
      inserted this way precedes the ones with the same location. */
  function Insert(e: SchemaError, sorted: seq<SchemaError>): seq<SchemaError> {
    if sorted == [] || !LocationLess(sorted[0].location, e.location) then [e] + sorted
    else [sorted[0]] + Insert(e, sorted[1..])
  }

  /** `sorted(errors, key=lambda item: list(item.absolute_path))`. */
  function SortByLocation(errors: seq<SchemaError>): seq<SchemaError> {
    if errors == [] then [] else Insert(errors[0], SortByLocation(errors[1..]))
  }

  predicate SortedByLocation(s: seq<SchemaError>) {
    forall i, j :: 0 <= i < j < |s| ==> !LocationLess(s[j].location, s[i].location)
  }

  /** The errors at one location, in order. */
  function At(s: seq<SchemaError>, location: seq<PathPart>): seq<SchemaError> {
    if s == [] then []
    else (if s[0].location == location then [s[0]] else []) + At(s[1..], location)
  }

  lemma {:induction false} InsertElements(e: SchemaError, sorted: seq<SchemaError>)
    ensures multiset(Insert(e, sorted)) == multiset([e] + sorted)
    ensures |Insert(e, sorted)| == |sorted| + 1
  {
    if !(sorted == [] || !LocationLess(sorted[0].location, e.location)) {
      InsertElements(e, sorted[1..]);
      assert [e] + sorted == [e] + [sorted[0]] + sorted[1..];
      assert sorted == [sorted[0]] + sorted[1..];
    }
  }

  /** An error no location of `s` sorts before may go in front of `s`. */
  lemma Cons(e: SchemaError, s: seq<SchemaError>)
    requires SortedByLocation(s)
    requires forall j :: 0 <= j < |s| ==> !LocationLess(s[j].location, e.location)
    ensures SortedByLocation([e] + s)
  {
    var r := [e] + s;
    forall i, j | 0 <= i < j < |r|
      ensures !LocationLess(r[j].location, r[i].location)
    {
      if i > 0 {
        assert r[i] == s[i - 1] && r[j] == s[j - 1];
      } else {
        assert r[j] == s[j - 1];
      }
    }
  }

  lemma {:induction false} InsertSorted(e: SchemaError, sorted: seq<SchemaError>)
    requires SortedByLocation(sorted)
    ensures SortedByLocation(Insert(e, sorted))
  {
    if sorted == [] || !LocationLess(sorted[0].location, e.location) {
      forall j | 0 <= j < |sorted|
        ensures !LocationLess(sorted[j].location, e.location)
      {
        if j > 0 && LocationLess(sorted[j].location, e.location) {
          LocationLessTotal(sorted[0].location, sorted[j].location);
          if sorted[0].location != sorted[j].location {
            LocationLessTransitive(sorted[0].location, sorted[j].location, e.location);
          }
        }
      }
      Cons(e, sorted);
    } else {
      var rest := sorted[1..];
      InsertSorted(e, rest);
      InsertElements(e, rest);
      var tail := Insert(e, rest);
      forall j | 0 <= j < |tail|
        ensures !LocationLess(tail[j].location, sorted[0].location)
      {
        assert tail[j] in multiset([e] + rest);
        if tail[j] == e {
          LocationLessAsymmetric(sorted[0].location, e.location);
        } else {
          assert tail[j] in rest;
          var k :| 0 <= k < |rest| && rest[k] == tail[j];
          assert sorted[k + 1] == tail[j];
        }
      }
      Cons(sorted[0], tail);
    }
  }

  lemma {:induction false} InsertAt(e: SchemaError, sorted: seq<SchemaError>, location: seq<PathPart>)
    ensures At(Insert(e, sorted), location) == At([e] + sorted, location)
  {
    if sorted == [] || !LocationLess(sorted[0].location, e.location) {
    } else {
      InsertAt(e, sorted[1..], location);
      LocationLessIrreflexive(e.location);
      var r := Insert(e, sorted);
      assert r[0] == sorted[0] && r[1..] == Insert(e, sorted[1..]);
      var es := [e] + sorted[1..];
      assert es[0] == e && es[1..] == sorted[1..];
      var full := [e] + sorted;
      assert full[0] == e && full[1..] == sorted;
      assert sorted[0].location != e.location;
    }
  }

  /** `sorted` orders the errors by location, keeps every error, and keeps the errors at
      any one location in their original order (Python's sort is stable). */
  lemma {:induction false} SortByLocationCorrect(errors: seq<SchemaError>)
    ensures SortedByLocation(SortByLocation(errors))
    ensures multiset(SortByLocation(errors)) == multiset(errors)
    ensures forall location :: At(SortByLocation(errors), location) == At(errors, location)
  {
    if errors != [] {
      SortByLocationCorrect(errors[1..]);
      InsertSorted(errors[0], SortByLocation(errors[1..]));
      InsertElements(errors[0], SortByLocation(errors[1..]));
      assert [errors[0]] + errors[1..] == errors;
      forall location
        ensures At(SortByLocation(errors), location) == At(errors, location)
      {
        InsertAt(errors[0], SortByLocation(errors[1..]), location);
        var a := [errors[0]] + SortByLocation(errors[1..]);
        assert a[0] == errors[0] && a[1..] == SortByLocation(errors[1..]);
      }
    }
  }

  /** `str(part)`. */
  function PartString(p: PathPart): string {
    match p
    case Key(k) => k
    case Index(i) => NatToString(i)
  }

  /** The issue path of a location: "/" and the parts joined by "/", or "/" alone for the
      payload itself. */
  function PathOf(location: seq<PathPart>): (path: string)
    ensures |path| >= 1 && path[0] == '/'
    ensures location == [] ==> path == "/"
    ensures location != [] ==> path == Slashed(PartStrings(location))
  {
    if location == [] then "/"
    else
      JoinSlashed(PartStrings(location));
      "/" + Join("/", PartStrings(location))
  }

  /** Every part preceded by a "/": "/a/b/c" for the parts "a", "b" and "c". */
  function Slashed(parts: seq<string>): string {
    if parts == [] then "" else "/" + parts[0] + Slashed(parts[1..])
  }

  /** A "/" in front of the parts joined by "/" puts a "/" in front of every part. */
  lemma {:induction false} JoinSlashed(parts: seq<string>)
    requires parts != []
    ensures "/" + Join("/", parts) == Slashed(parts)
    decreases |parts|
  {
    if |parts| == 1 {
      assert parts[1..] == [];
    } else {
      JoinSlashed(parts[1..]);
      assert "/" + Join("/", parts) == "/" + parts[0] + ("/" + Join("/", parts[1..]));
    }
  }

  function PartStrings(location: seq<PathPart>): (parts: seq<string>)
    ensures |parts| == |location|
    ensures forall i :: 0 <= i < |location| ==> parts[i] == PartString(location[i])
  {
    seq(|location|, i requires 0 <= i < |location| => PartString(location[i]))
  }

  /** A violation at a key, an index and a key, such as `observations[0].value`, is
      reported at the three parts joined by "/" after a leading "/", such as
      "/observations/0/value". */
  lemma PathOfThree(first: string, index: nat, last: string)
    ensures PathOf([Key(first), Index(index), Key(last)]) == "/" + first + "/" + NatToString(index) + "/" + last
  {
    var location := [Key(first), Index(index), Key(last)];
    var digits := NatToString(index);
    ThreeParts(first, index, last);
    JoinThree("/", first, digits, last);
    assert PathOf(location) == "/" + Join("/", [first, digits, last]);
  }

  lemma ThreeParts(first: string, index: nat, last: string)
    ensures PartStrings([Key(first), Index(index), Key(last)]) == [first, NatToString(index), last]
  {}

  lemma JoinThree(sep: string, a: string, b: string, c: string)
    ensures Join(sep, [a, b, c]) == a + sep + b + sep + c
  {
    assert [a, b, c][1..] == [b, c];
    assert [b, c][1..] == [c];
    assert Join(sep, [b, c]) == b + sep + c;
    assert Join(sep, [a, b, c]) == a + sep + (b + sep + c);
  }

  /** The issue a violation becomes. */
  function IssueOf(e: SchemaError): ValidationIssue {
    ValidationIssue(PathOf(e.location), e.message, Error)
  }

  /** The issues of the violations, in the order given. */
  function IssuesOf(errors: seq<SchemaError>): (issues: seq<ValidationIssue>)
    ensures |issues| == |errors|
    ensures forall i :: 0 <= i < |errors| ==> issues[i] == IssueOf(errors[i])
  {
    seq(|errors|, i requires 0 <= i < |errors| => IssueOf(errors[i]))
  }

  /** What `_jsonschema_issues` returns: the violations, sorted by location, as errors; or
      the engine's failure. */
  function SchemaIssuesOf(payload: map<string, Json>, file: SchemaFile, engine: SchemaEngine): Result<seq<ValidationIssue>, string> {
    var outcome := engine(file, payload);
    if outcome.Err? then Err(outcome.error) else Ok(IssuesOf(SortByLocation(outcome.value)))
  }

  /** `_jsonschema_issues`, turning the sorted violations into issues one by one. */
  method SchemaIssues(payload: map<string, Json>, file: SchemaFile, engine: SchemaEngine)
    returns (r: Result<seq<ValidationIssue>, string>)
    ensures r == SchemaIssuesOf(payload, file, engine)
  {
    var outcome := engine(file, payload);
    if outcome.Err? {
      return Err(outcome.error);
    }
    var errors := SortByLocation(outcome.value);
    var issues: seq<ValidationIssue> := [];
    var k := 0;
    while k < |errors|
      invariant 0 <= k <= |errors|
      invariant |issues| == k
      invariant forall i :: 0 <= i < k ==> issues[i] == IssueOf(errors[i])
    {
      issues := issues + [IssueOf(errors[k])];
      k := k + 1;
    }
    assert issues == IssuesOf(errors);
    r := Ok(issues);
  }

  /** The error that stands for a schema step that could not run. */
  function FailedToRun(message: string): ValidationIssue {
    ValidationIssue("/", "Schema validation failed to run: " + message, Error)
  }

  const NoSchema := "Either schema_path or panel_code must be provided"

  /** The schema file `validate_jsonschema` picks: the explicit path when there is one, else
      the panel's schema; `schema_dir` counts only when it is a non-empty string. */
  function ResolveSchema(schemaPath: Option<string>, panelCode: Option<string>, schemaDir: Option<string>): Result<SchemaFile, string> {
    if schemaPath.Some? then Ok(GivenPath(schemaPath.value))
    else if panelCode.Some? then
      SchemaPathForPanel(panelCode.value, if schemaDir.Some? && schemaDir.value != [] then schemaDir else None)
    else Err(NoSchema)
  }

  /** The issues of the schema step: the violations, or one "/" error when it failed. */
  function SchemaStepIssues(payload: map<string, Json>, schemaPath: Option<string>, panelCode: Option<string>,
                            schemaDir: Option<string>, engine: SchemaEngine): seq<ValidationIssue>
  {
    var file := ResolveSchema(schemaPath, panelCode, schemaDir);
    if file.Err? then [FailedToRun(file.error)]
    else
      var found := SchemaIssuesOf(payload, file.value, engine);
      if found.Err? then [FailedToRun(found.error)] else found.value
  }

  /** The result `validate_jsonschema` returns: the schema step's issues, then the rules'
      issues, valid when none is an error. */
  function JsonschemaResult(payload: map<string, Json>, schemaPath: Option<string>, panelCode: Option<string>,
                            schemaDir: Option<string>, engine: SchemaEngine): ValidationResult
  {
    var issues := SchemaStepIssues(payload, schemaPath, panelCode, schemaDir, engine) + RulesResult(payload).issues;
    ValidationResult(ErrorsOf(issues) == [], issues)
  }

  /** `validate_jsonschema`: any failure of the schema step becomes one issue, and the rules
      run in every case. */
  method ValidateJsonschema(payload: map<string, Json>, schemaPath: Option<string>, panelCode: Option<string>,
                            schemaDir: Option<string>, engine: SchemaEngine)
    returns (result: ValidationResult)
    ensures result == JsonschemaResult(payload, schemaPath, panelCode, schemaDir, engine)
    ensures Consistent(result)
  {
    var issues := SchemaStep(payload, schemaPath, panelCode, schemaDir, engine);
    var ruleResult := ValidateRules(payload);
    issues := issues + ruleResult.issues;
    result := ValidationResult(ErrorsOf(issues) == [], issues);
  }

  /** The `try` block of `validate_jsonschema` and its `except` clause. */
  method SchemaStep(payload: map<string, Json>, schemaPath: Option<string>, panelCode: Option<string>,
                    schemaDir: Option<string>, engine: SchemaEngine)
    returns (issues: seq<ValidationIssue>)
    ensures issues == SchemaStepIssues(payload, schemaPath, panelCode, schemaDir, engine)
  {
    var resolved: Result<SchemaFile, string>;
    if schemaPath.Some? {
      resolved := Ok(GivenPath(schemaPath.value));
    } else if panelCode.Some? {
      resolved := SchemaPathForPanel(panelCode.value, if schemaDir.Some? && schemaDir.value != [] then schemaDir else None);
    } else {
      resolved := Err(NoSchema);
    }
    if resolved.Err? {
      return [FailedToRun(resolved.error)];
    }
    var found := SchemaIssues(payload, resolved.value, engine);
    if found.Err? {
      return [FailedToRun(found.error)];
    }
    issues := found.value;
  }

  /** An explicit schema path wins: the panel code and the schema directory are then
      ignored. */
  lemma ExplicitPathWins(payload: map<string, Json>, path: string, panelCode: Option<string>, schemaDir: Option<string>,
                         otherCode: Option<string>, otherDir: Option<string>, engine: SchemaEngine)
    ensures JsonschemaResult(payload, Some(path), panelCode, schemaDir, engine)
         == JsonschemaResult(payload, Some(path), otherCode, otherDir, engine)
  {}

  /** Without a schema path or a panel code, and with an unknown panel code, the schema
      step is one "/" error saying why; the rules' issues follow. */
  lemma UnresolvableSchemaIsOneError(payload: map<string, Json>, panelCode: Option<string>, schemaDir: Option<string>, engine: SchemaEngine)
    requires panelCode.Some? ==> Upper(Strip(panelCode.value)) !in SchemaByPanel
    ensures var r := JsonschemaResult(payload, None, panelCode, schemaDir, engine);
      && r.issues[0] == FailedToRun(if panelCode.None? then NoSchema else "Unsupported panel code: " + panelCode.value)
      && r.issues[1..] == RulesResult(payload).issues
      && !r.isValid
  {
    var r := JsonschemaResult(payload, None, panelCode, schemaDir, engine);
    assert r.issues[0] in r.issues;
  }

  /** A failing engine leaves exactly one schema issue, an error at "/". */
  lemma EngineFailureIsOneError(payload: map<string, Json>, schemaPath: Option<string>, panelCode: Option<string>,
                                schemaDir: Option<string>, engine: SchemaEngine)
    requires ResolveSchema(schemaPath, panelCode, schemaDir).Ok?
    requires engine(ResolveSchema(schemaPath, panelCode, schemaDir).value, payload).Err?
    ensures SchemaStepIssues(payload, schemaPath, panelCode, schemaDir, engine)
      == [FailedToRun(engine(ResolveSchema(schemaPath, panelCode, schemaDir).value, payload).error)]
  {}

  /** Every issue of the schema step is an error. */
  lemma SchemaStepIssuesAreErrors(payload: map<string, Json>, schemaPath: Option<string>, panelCode: Option<string>,
                                  schemaDir: Option<string>, engine: SchemaEngine)
    ensures forall x :: x in SchemaStepIssues(payload, schemaPath, panelCode, schemaDir, engine) ==> x.severity == Error
  {
    var file := ResolveSchema(schemaPath, panelCode, schemaDir);
    if file.Ok? {
      ViolationsAreErrors(payload, file.value, engine);
    }
  }

  /** Every violation the engine reports becomes an error. */
  lemma ViolationsAreErrors(payload: map<string, Json>, file: SchemaFile, engine: SchemaEngine)
    ensures var found := SchemaIssuesOf(payload, file, engine);
      found.Ok? ==> forall x :: x in found.value ==> x.severity == Error
  {}

  /** The merged result is valid exactly when the schema step found nothing and the rules
      accept the payload. */
  lemma ValidIffSchemaAndRules(payload: map<string, Json>, schemaPath: Option<string>, panelCode: Option<string>,
                               schemaDir: Option<string>, engine: SchemaEngine)
    ensures JsonschemaResult(payload, schemaPath, panelCode, schemaDir, engine).isValid
      <==> SchemaStepIssues(payload, schemaPath, panelCode, schemaDir, engine) == [] && PayloadAcceptable(payload)
  {
    var schema := SchemaStepIssues(payload, schemaPath, panelCode, schemaDir, engine);
    var rules := RulesResult(payload);
    ErrorsOfAppend(schema, rules.issues);
    SchemaStepIssuesAreErrors(payload, schemaPath, panelCode, schemaDir, engine);
    AllErrors(schema);
    RulesResultConsistent(payload);
    ValidIff(payload);
  }

  /** The schema issues come sorted by the locations of the violations they report, and
      are exactly those violations: the same errors, each location's in engine order. */
  lemma SchemaIssuesReportSortedViolations(payload: map<string, Json>, file: SchemaFile, engine: SchemaEngine)
    requires engine(file, payload).Ok?
    ensures var sorted := SortByLocation(engine(file, payload).value);
      && SchemaIssuesOf(payload, file, engine) == Ok(IssuesOf(sorted))
      && SortedByLocation(sorted)
      && multiset(sorted) == multiset(engine(file, payload).value)
      && forall location :: At(sorted, location) == At(engine(file, payload).value, location)
  {
    SortByLocationCorrect(engine(file, payload).value);
  }
}
