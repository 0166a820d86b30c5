/** The semantic checks every panel payload goes through (core/validate/rules.py). The
    payload is any JSON object, not only one the mapping produced. */
module Rules {
  import opened Text
  import opened JsonValues
  import opened Models

  /** `_is_error`. */
  predicate IsError(issue: ValidationIssue) {
    issue.severity == Error
  }

  const BoundKeys: seq<string> := ["low", "high"]

  function ObservationPath(index: nat): string {
    "/observations/" + NatToString(index)
  }

  /** The error for a bound whose unit code differs from the value's. */
  function UnitCodeMismatch(prefix: string, key: string): ValidationIssue {
    ValidationIssue(prefix + "/reference_range/" + key + "/unit_code", "must match value.unit_code", Error)
  }

  /** The error for a bound whose unit system differs from the value's. */
  function UnitSystemMismatch(prefix: string, key: string): ValidationIssue {
    ValidationIssue(prefix + "/reference_range/" + key + "/unit_system", "must match value.unit_system", Error)
  }

  /** Both sides are truthy and Python's `!=` holds between them. */
  predicate Differ(valueSide: Json, boundSide: Json) {
    Truthy(valueSide) && Truthy(boundSide) && !PyEq(valueSide, boundSide)
  }

  /** The checks of one bound of a quantity's reference range: its unit code, and then its
      unit system, must equal the value's whenever both sides are truthy. A bound that is
      not an object is skipped. */
  function BoundIssues(prefix: string, key: string, valueUnitCode: Json, valueUnitSystem: Json, bound: Json): (issues: seq<ValidationIssue>)
    ensures forall x :: x in issues ==> IsError(x)
    ensures !bound.Obj? ==> issues == []
    ensures forall x :: x in issues ==> x == UnitCodeMismatch(prefix, key) || x == UnitSystemMismatch(prefix, key)
    ensures UnitCodeMismatch(prefix, key) in issues
      <==> bound.Obj? && Differ(valueUnitCode, Get(bound.fields, "unit_code"))
    ensures UnitSystemMismatch(prefix, key) in issues
      <==> bound.Obj? && Differ(valueUnitSystem, Get(bound.fields, "unit_system"))
    ensures |issues| == 2 ==> issues == [UnitCodeMismatch(prefix, key), UnitSystemMismatch(prefix, key)]
  {
    if !bound.Obj? then []
    else
      var boundUnitCode := Get(bound.fields, "unit_code");
      var boundUnitSystem := Get(bound.fields, "unit_system");
      (if Differ(valueUnitCode, boundUnitCode) then [UnitCodeMismatch(prefix, key)] else [])
      + (if Differ(valueUnitSystem, boundUnitSystem) then [UnitSystemMismatch(prefix, key)] else [])
  }

  /** The bound checks for `keys`, in order. */
  function BoundsIssues(prefix: string, keys: seq<string>, valueUnitCode: Json, valueUnitSystem: Json, range: map<string, Json>)
    : (issues: seq<ValidationIssue>)
    ensures forall x :: x in issues ==> IsError(x)
  {
    if keys == [] then []
    else
      BoundsIssues(prefix, keys[..|keys| - 1], valueUnitCode, valueUnitSystem, range)
      + BoundIssues(prefix, keys[|keys| - 1], valueUnitCode, valueUnitSystem, Get(range, keys[|keys| - 1]))
  }

  /** The issues of a quantity value (an object): a falsy `unit_code` is an error, a
      truthy `unit_system` other than "UCUM" a warning, and an object `reference_range` has
      its bounds checked. */
  function QuantityIssues(prefix: string, value: map<string, Json>, range: Json): seq<ValidationIssue> {
    var unitCode := Get(value, "unit_code");
    var unitSystem := Get(value, "unit_system");
    (if !Truthy(unitCode)
     then [ValidationIssue(prefix + "/value/unit_code", "unit_code is required for quantity values", Error)]
     else [])
    + (if Truthy(unitSystem) && !PyEq(unitSystem, Str("UCUM"))
       then [ValidationIssue(prefix + "/value/unit_system", "unit_system should be UCUM", Warning)]
       else [])
    + (if range.Obj? then BoundsIssues(prefix, BoundKeys, unitCode, unitSystem, range.fields) else [])
  }

  /** The warning for a reference range on a value that is not a quantity. */
  function IgnoredRange(prefix: string): ValidationIssue {
    ValidationIssue(prefix + "/reference_range", "reference_range with numeric bounds is ignored for non-quantity values", Warning)
  }

  /** The issues of one observation. A non-object is an error; a quantity is checked as
      above; for any other value, a reference range with an object bound draws a warning
      that it is ignored. */
  function ObservationIssues(index: nat, observation: Json): seq<ValidationIssue> {
    var prefix := ObservationPath(index);
    if !observation.Obj? then [ValidationIssue(prefix, "observation must be an object", Error)]
    else
      var value := Get(observation.fields, "value");
      var range := Get(observation.fields, "reference_range");
      if value.Obj? then QuantityIssues(prefix, value.fields, range)
      else if range.Obj? && (Get(range.fields, "low").Obj? || Get(range.fields, "high").Obj?) then
        [IgnoredRange(prefix)]
      else []
  }

  /** The issues of a list of observations, in order. */
  function ObservationsIssues(observations: seq<Json>): seq<ValidationIssue> {
    if observations == [] then []
    else
      var last := |observations| - 1;
      ObservationsIssues(observations[..last]) + ObservationIssues(last, observations[last])
  }

  const MissingObservations := ValidationIssue("/observations", "observations must be an array", Error)

  /** The result `validate_rules` returns: a lone error when `observations` is not a list;
      otherwise the issues of its items, valid when none is an error. */
  function RulesResult(payload: map<string, Json>): ValidationResult {
    var observations := Get(payload, "observations");
    if !observations.Arr? then ValidationResult(false, [MissingObservations])
    else
      var issues := ObservationsIssues(observations.items);
      ValidationResult(ErrorsOf(issues) == [], issues)
  }

  /** `validate_rules`, checking the observations one by one. */
  method ValidateRules(payload: map<string, Json>) returns (result: ValidationResult)
    ensures result == RulesResult(payload)
    ensures Consistent(result)
  {
    var observations := Get(payload, "observations");
    if !observations.Arr? {
      result := ValidationResult(false, [MissingObservations]);
      return;
    }
    var issues: seq<ValidationIssue> := [];
    var index := 0;
    while index < |observations.items|
      invariant 0 <= index <= |observations.items|
      invariant issues == ObservationsIssues(observations.items[..index])
    {
      var found := CheckObservation(index, observations.items[index]);
      assert observations.items[..index + 1][..index] == observations.items[..index];
      issues := issues + found;
      index := index + 1;
    }
    assert observations.items[..index] == observations.items;
    result := ValidationResult(ErrorsOf(issues) == [], issues);
  }

  /** The body of the loop of `validate_rules` for one observation. */
  method CheckObservation(index: nat, observation: Json) returns (issues: seq<ValidationIssue>)
    ensures issues == ObservationIssues(index, observation)
  {
    var prefix := ObservationPath(index);
    if !observation.Obj? {
      return [ValidationIssue(prefix, "observation must be an object", Error)];
    }
    issues := [];
    var value := Get(observation.fields, "value");
    var range := Get(observation.fields, "reference_range");
    if value.Obj? {
      issues := CheckQuantity(prefix, value.fields, range);
    } else if range.Obj? && (Get(range.fields, "low").Obj? || Get(range.fields, "high").Obj?) {
      issues := issues + [IgnoredRange(prefix)];
    }
  }

  /** The checks of a quantity value and of its reference range. */
  method CheckQuantity(prefix: string, value: map<string, Json>, range: Json) returns (issues: seq<ValidationIssue>)
    ensures issues == QuantityIssues(prefix, value, range)
  {
    issues := [];
    var unitCode := Get(value, "unit_code");
    var unitSystem := Get(value, "unit_system");
    if !Truthy(unitCode) {
      issues := issues + [ValidationIssue(prefix + "/value/unit_code", "unit_code is required for quantity values", Error)];
    }
    if Truthy(unitSystem) && !PyEq(unitSystem, Str("UCUM")) {
      issues := issues + [ValidationIssue(prefix + "/value/unit_system", "unit_system should be UCUM", Warning)];
    }
    if range.Obj? {
      var boundIssues := CheckBounds(prefix, unitCode, unitSystem, range.fields);
      issues := issues + boundIssues;
    }
  }

  /** The inner loop over the bound keys "low" and "high". */
  method CheckBounds(prefix: string, valueUnitCode: Json, valueUnitSystem: Json, range: map<string, Json>)
    returns (issues: seq<ValidationIssue>)
    ensures issues == BoundsIssues(prefix, BoundKeys, valueUnitCode, valueUnitSystem, range)
  {
    issues := [];
    var j := 0;
    while j < |BoundKeys|
      invariant 0 <= j <= |BoundKeys|
      invariant issues == BoundsIssues(prefix, BoundKeys[..j], valueUnitCode, valueUnitSystem, range)
    {
      var boundKey := BoundKeys[j];
      BoundsStep(prefix, BoundKeys, j, valueUnitCode, valueUnitSystem, range);
      var found := CheckBound(prefix, boundKey, valueUnitCode, valueUnitSystem, Get(range, boundKey));
      issues := issues + found;
      j := j + 1;
    }
    assert BoundKeys[..j] == BoundKeys;
  }

  /** The body of the inner loop, for one bound key. */
  method CheckBound(prefix: string, boundKey: string, valueUnitCode: Json, valueUnitSystem: Json, bound: Json)
    returns (issues: seq<ValidationIssue>)
    ensures issues == BoundIssues(prefix, boundKey, valueUnitCode, valueUnitSystem, bound)
  {
    issues := [];
    if bound.Obj? {
      var boundUnitCode := Get(bound.fields, "unit_code");
      var boundUnitSystem := Get(bound.fields, "unit_system");
      if Truthy(valueUnitCode) && Truthy(boundUnitCode) && !PyEq(valueUnitCode, boundUnitCode) {
        issues := issues + [UnitCodeMismatch(prefix, boundKey)];
      }
      if Truthy(valueUnitSystem) && Truthy(boundUnitSystem) && !PyEq(valueUnitSystem, boundUnitSystem) {
        issues := issues + [UnitSystemMismatch(prefix, boundKey)];
      }
    }
  }

  /** One more key extends the bound checks by that key's own. */
  lemma BoundsStep(prefix: string, keys: seq<string>, j: nat, valueUnitCode: Json, valueUnitSystem: Json,
                   range: map<string, Json>)
    requires j < |keys|
    ensures BoundsIssues(prefix, keys[..j + 1], valueUnitCode, valueUnitSystem, range)
      == BoundsIssues(prefix, keys[..j], valueUnitCode, valueUnitSystem, range)
         + BoundIssues(prefix, keys[j], valueUnitCode, valueUnitSystem, Get(range, keys[j]))
  {
    assert keys[..j + 1][..j] == keys[..j];
  }

  /** A bound agrees with the value it qualifies: equal unit codes and equal unit systems,
      each compared only when both sides are truthy. */
  predicate BoundAgrees(valueUnitCode: Json, valueUnitSystem: Json, bound: Json) {
    bound.Obj? ==>
      && (Truthy(valueUnitCode) && Truthy(Get(bound.fields, "unit_code")) ==> PyEq(valueUnitCode, Get(bound.fields, "unit_code")))
      && (Truthy(valueUnitSystem) && Truthy(Get(bound.fields, "unit_system")) ==> PyEq(valueUnitSystem, Get(bound.fields, "unit_system")))
  }

  /** What the rules demand of one observation: it is an object, and when its value is a
      quantity that quantity has a unit code and every bound of its range agrees with it. */
  predicate ObservationAcceptable(observation: Json) {
    && observation.Obj?
    && var value := Get(observation.fields, "value");
       var range := Get(observation.fields, "reference_range");
       value.Obj? ==>
         && Truthy(Get(value.fields, "unit_code"))
         && (range.Obj? ==>
              && BoundAgrees(Get(value.fields, "unit_code"), Get(value.fields, "unit_system"), Get(range.fields, "low"))
              && BoundAgrees(Get(value.fields, "unit_code"), Get(value.fields, "unit_system"), Get(range.fields, "high")))
  }

  /** What the rules demand of a payload: `observations` is a list of acceptable
      observations. */
  predicate PayloadAcceptable(payload: map<string, Json>) {
    var observations := Get(payload, "observations");
    observations.Arr? && forall k :: 0 <= k < |observations.items| ==> ObservationAcceptable(observations.items[k])
  }

  /** The reported validity always agrees with the issues: valid exactly when no issue is
      an error. */
  lemma RulesResultConsistent(payload: map<string, Json>)
    ensures Consistent(RulesResult(payload))
  {
    var observations := Get(payload, "observations");
    if !observations.Arr? {
      assert ErrorsOf([MissingObservations]) != [] by {
        assert MissingObservations in [MissingObservations];
      }
    }
  }

  lemma BoundErrorsIff(prefix: string, key: string, valueUnitCode: Json, valueUnitSystem: Json, bound: Json)
    ensures BoundIssues(prefix, key, valueUnitCode, valueUnitSystem, bound) == [] <==> BoundAgrees(valueUnitCode, valueUnitSystem, bound)
  {}

  lemma BoundsErrorsIff(prefix: string, valueUnitCode: Json, valueUnitSystem: Json, range: map<string, Json>)
    ensures ErrorsOf(BoundsIssues(prefix, BoundKeys, valueUnitCode, valueUnitSystem, range)) == []
      <==> BoundAgrees(valueUnitCode, valueUnitSystem, Get(range, "low")) && BoundAgrees(valueUnitCode, valueUnitSystem, Get(range, "high"))
  {
    var low := BoundIssues(prefix, "low", valueUnitCode, valueUnitSystem, Get(range, "low"));
    var high := BoundIssues(prefix, "high", valueUnitCode, valueUnitSystem, Get(range, "high"));
    LowBeforeHigh(prefix, valueUnitCode, valueUnitSystem, range);
    BoundErrorsIff(prefix, "low", valueUnitCode, valueUnitSystem, Get(range, "low"));
    BoundErrorsIff(prefix, "high", valueUnitCode, valueUnitSystem, Get(range, "high"));
    AllErrors(low + high);
    assert |low + high| == |low| + |high|;
  }

  /** The bounds are checked in the order "low", then "high". */
  lemma LowBeforeHigh(prefix: string, valueUnitCode: Json, valueUnitSystem: Json, range: map<string, Json>)
    ensures BoundsIssues(prefix, BoundKeys, valueUnitCode, valueUnitSystem, range)
      == BoundIssues(prefix, "low", valueUnitCode, valueUnitSystem, Get(range, "low"))
         + BoundIssues(prefix, "high", valueUnitCode, valueUnitSystem, Get(range, "high"))
  {
    BoundsOfTwo(prefix, BoundKeys, valueUnitCode, valueUnitSystem, range);
  }

  /** The checks of two bound keys: the first key's, then the second's. */
  lemma BoundsOfTwo(prefix: string, keys: seq<string>, valueUnitCode: Json, valueUnitSystem: Json, range: map<string, Json>)
    requires |keys| == 2
    ensures BoundsIssues(prefix, keys, valueUnitCode, valueUnitSystem, range)
      == BoundIssues(prefix, keys[0], valueUnitCode, valueUnitSystem, Get(range, keys[0]))
         + BoundIssues(prefix, keys[1], valueUnitCode, valueUnitSystem, Get(range, keys[1]))
  {
    var first := BoundIssues(prefix, keys[0], valueUnitCode, valueUnitSystem, Get(range, keys[0]));
    var head := keys[..1];
    assert head[..0] == [] && head[0] == keys[0];
    assert BoundsIssues(prefix, head, valueUnitCode, valueUnitSystem, range) == [] + first;
    assert [] + first == first;
  }

  /** A payload whose `observations` is not a list is rejected with one error at
      "/observations" and nothing else. */
  lemma NotAListRejected(payload: map<string, Json>)
    requires !Get(payload, "observations").Arr?
    ensures !RulesResult(payload).isValid
    ensures RulesResult(payload).issues == [MissingObservations]
    ensures ErrorsOf(RulesResult(payload).issues) == [MissingObservations]
  {
    AllErrors([MissingObservations]);
  }

  /** The unit-system warning of a quantity: present exactly when its truthy unit system is
      not "UCUM", and a warning, never an error. */
  lemma UnitSystemOnlyWarns(prefix: string, value: map<string, Json>, range: Json)
    ensures var w := ValidationIssue(prefix + "/value/unit_system", "unit_system should be UCUM", Warning);
      && !IsError(w)
      && (w in QuantityIssues(prefix, value, range)
          <==> Truthy(Get(value, "unit_system")) && !PyEq(Get(value, "unit_system"), Str("UCUM")))
  {
    var w := ValidationIssue(prefix + "/value/unit_system", "unit_system should be UCUM", Warning);
    var unitCode := Get(value, "unit_code");
    var unitSystem := Get(value, "unit_system");
    var codeIssues := if !Truthy(unitCode)
      then [ValidationIssue(prefix + "/value/unit_code", "unit_code is required for quantity values", Error)] else [];
    var systemIssues := if Truthy(unitSystem) && !PyEq(unitSystem, Str("UCUM")) then [w] else [];
    var boundIssues := if range.Obj? then BoundsIssues(prefix, BoundKeys, unitCode, unitSystem, range.fields) else [];
    assert QuantityIssues(prefix, value, range) == codeIssues + systemIssues + boundIssues;
    assert w !in codeIssues && w !in boundIssues;
  }

  /** Every issue of an observation is located inside it: its path starts with
      "/observations/{index}". */
  lemma IssuesLocated(index: nat, observation: Json)
    ensures forall x :: x in ObservationIssues(index, observation) ==> ObservationPath(index) <= x.path
  {
    var prefix := ObservationPath(index);
    Extends(prefix, "");
    if observation.Obj? {
      var value := Get(observation.fields, "value");
      var range := Get(observation.fields, "reference_range");
      Extends(prefix, "/value/unit_code");
      Extends(prefix, "/value/unit_system");
      Extends(prefix, "/reference_range");
      if value.Obj? && range.Obj? {
        var unitCode := Get(value.fields, "unit_code");
        var unitSystem := Get(value.fields, "unit_system");
        LowBeforeHigh(prefix, unitCode, unitSystem, range.fields);
        BoundLocated(prefix, "low", unitCode, unitSystem, Get(range.fields, "low"));
        BoundLocated(prefix, "high", unitCode, unitSystem, Get(range.fields, "high"));
      }
    }
  }

  /** The checks of one bound report paths inside the observation. */
  lemma BoundLocated(prefix: string, key: string, valueUnitCode: Json, valueUnitSystem: Json, bound: Json)
    ensures forall x :: x in BoundIssues(prefix, key, valueUnitCode, valueUnitSystem, bound) ==> prefix <= x.path
  {
    Extends(prefix, "/reference_range/" + key + "/unit_code");
    Extends(prefix, "/reference_range/" + key + "/unit_system");
  }

  lemma Extends(prefix: string, rest: string)
    ensures prefix <= prefix + rest
  {
    assert (prefix + rest)[..|prefix|] == prefix;
  }

  /** A list of errors only is its own error list. */
  lemma AllErrors(issues: seq<ValidationIssue>)
    requires forall x :: x in issues ==> IsError(x)
    ensures ErrorsOf(issues) == issues
  {
    if issues != [] {
      assert issues[0] in issues;
      AllErrors(issues[1..]);
    }
  }

  /** A list without errors has an empty error list. */
  lemma NoErrors(issues: seq<ValidationIssue>)
    requires forall x :: x in issues ==> !IsError(x)
    ensures ErrorsOf(issues) == []
  {
    if issues != [] {
      assert issues[0] in issues;
      NoErrors(issues[1..]);
    }
  }

  /** A quantity raises no error exactly when it has a unit code and its bounds agree with
      it; its unit system alone never makes it an error. */
  lemma QuantityErrorsIff(prefix: string, value: map<string, Json>, range: Json)
    ensures ErrorsOf(QuantityIssues(prefix, value, range)) == [] <==>
      && Truthy(Get(value, "unit_code"))
      && (range.Obj? ==>
           && BoundAgrees(Get(value, "unit_code"), Get(value, "unit_system"), Get(range.fields, "low"))
           && BoundAgrees(Get(value, "unit_code"), Get(value, "unit_system"), Get(range.fields, "high")))
  {
    var unitCode := Get(value, "unit_code");
    var unitSystem := Get(value, "unit_system");
    var codeIssues := if !Truthy(unitCode)
      then [ValidationIssue(prefix + "/value/unit_code", "unit_code is required for quantity values", Error)] else [];
    var systemIssues := if Truthy(unitSystem) && !PyEq(unitSystem, Str("UCUM"))
      then [ValidationIssue(prefix + "/value/unit_system", "unit_system should be UCUM", Warning)] else [];
    var boundIssues := if range.Obj? then BoundsIssues(prefix, BoundKeys, unitCode, unitSystem, range.fields) else [];
    assert QuantityIssues(prefix, value, range) == codeIssues + systemIssues + boundIssues;
    ErrorsOfAppend(codeIssues + systemIssues, boundIssues);
    ErrorsOfAppend(codeIssues, systemIssues);
    NoErrors(systemIssues);
    AllErrors(codeIssues);
    if range.Obj? {
      BoundsErrorsIff(prefix, unitCode, unitSystem, range.fields);
    }
  }

  /** One observation raises no error exactly when it is acceptable. */
  lemma ObservationErrorsIff(index: nat, observation: Json)
    ensures ErrorsOf(ObservationIssues(index, observation)) == [] <==> ObservationAcceptable(observation)
  {
    var prefix := ObservationPath(index);
    if observation.Obj? {
      var value := Get(observation.fields, "value");
      var range := Get(observation.fields, "reference_range");
      if value.Obj? {
        QuantityErrorsIff(prefix, value.fields, range);
      } else {
        NoErrors(ObservationIssues(index, observation));
      }
    } else {
      AllErrors([ValidationIssue(prefix, "observation must be an object", Error)]);
    }
  }

  /** The issues of a list of observations hold no error exactly when every observation is
      acceptable. */
  lemma {:induction false} ObservationsErrorsIff(observations: seq<Json>)
    ensures ErrorsOf(ObservationsIssues(observations)) == []
      <==> forall k :: 0 <= k < |observations| ==> ObservationAcceptable(observations[k])
  {
    if observations != [] {
      var last := |observations| - 1;
      var init := observations[..last];
      ObservationsErrorsIff(init);
      ObservationErrorsIff(last, observations[last]);
      ErrorsOfAppend(ObservationsIssues(init), ObservationIssues(last, observations[last]));
      assert forall k :: 0 <= k < last ==> init[k] == observations[k];
    }
  }

  /** `validate_rules` accepts a payload exactly when the payload is acceptable. */
  lemma ValidIff(payload: map<string, Json>)
    ensures RulesResult(payload).isValid <==> PayloadAcceptable(payload)
  {
    var observations := Get(payload, "observations");
    if observations.Arr? {
      ObservationsErrorsIff(observations.items);
    }
  }
}
