/** How the mapping and the semantic rules fit together (core/map/to_standard.py against
    core/validate/rules.py): a panel built by the mapping never fails the rules, and the
    only thing the rules say about it is that ranges on non-numeric values are ignored. */
module MappingRules {
  import opened Wrappers
  import opened JsonValues
  import opened Models
  import opened ToStandard
  import opened Rules

  /** The quantity the mapping builds for a number satisfies every quantity check. */
  lemma QuantityIsClean(prefix: string, o: NormalizedObservation, env: MapEnv, range: Json)
    requires o.value.VNum?
    requires range.Obj? ==> ReferenceRangeOf(o, env.unitDisplay).Some? && range == Obj(ReferenceRangeOf(o, env.unitDisplay).value)
    ensures QuantityIssues(prefix, Quantity(o.value.x, o.unit, env.unitDisplay), range) == []
  {
    var q := Quantity(o.value.x, o.unit, env.unitDisplay);
    var unitCode := Get(q, "unit_code");
    var unitSystem := Get(q, "unit_system");
    assert Truthy(unitCode) && unitSystem == Str("UCUM");
    if range.Obj? {
      var r := ReferenceRangeOf(o, env.unitDisplay).value;
      assert UnitCode(UnitCode(o.unit)) == UnitCode(o.unit);
      BoundIsClean(prefix, "low", unitCode, unitSystem, Get(r, "low"));
      BoundIsClean(prefix, "high", unitCode, unitSystem, Get(r, "high"));
      assert BoundKeys[..1] == ["low"] && ["low"][..0] == [];
      assert BoundsIssues(prefix, ["low"], unitCode, unitSystem, r) == [];
      assert BoundsIssues(prefix, BoundKeys, unitCode, unitSystem, r)
        == BoundsIssues(prefix, ["low"], unitCode, unitSystem, r) + BoundIssues(prefix, "high", unitCode, unitSystem, Get(r, "high"));
    }
  }

  lemma BoundIsClean(prefix: string, key: string, valueUnitCode: Json, valueUnitSystem: Json, bound: Json)
    requires bound.Obj? ==> Get(bound.fields, "unit_code") == valueUnitCode && Get(bound.fields, "unit_system") == valueUnitSystem
    ensures BoundIssues(prefix, key, valueUnitCode, valueUnitSystem, bound) == []
  {
    PyEqReflexive(valueUnitCode);
    PyEqReflexive(valueUnitSystem);
  }

  /** The facts about a payload `p` that the rules look at: its `value` is the mapped value
      of `o`, and it has a `reference_range`, the mapped one, exactly when `o` has a bound. */
  predicate DescribesValue(p: map<string, Json>, o: NormalizedObservation, env: MapEnv) {
    && "value" in p && p["value"] == ObservationValue(o, env.unitDisplay)
    && ("reference_range" in p <==> o.refLow.Some? || o.refHigh.Some?)
    && ("reference_range" in p ==> p["reference_range"] == Obj(ReferenceRangeOf(o, env.unitDisplay).value))
  }

  /** The rules' verdict on any payload that carries the mapped value and range of `o`. */
  lemma DescribedObservationIssues(index: nat, p: map<string, Json>, o: NormalizedObservation, env: MapEnv)
    requires DescribesValue(p, o, env)
    ensures ObservationIssues(index, Obj(p))
      == if !o.value.VNum? && (o.refLow.Some? || o.refHigh.Some?) then [IgnoredRange(ObservationPath(index))] else []
  {
    var value := Get(p, "value");
    var range := Get(p, "reference_range");
    assert value == ObservationValue(o, env.unitDisplay);
    assert range.Obj? <==> o.refLow.Some? || o.refHigh.Some?;
    if o.value.VNum? {
      QuantityIsClean(ObservationPath(index), o, env, range);
    } else if range.Obj? {
      var r := ReferenceRangeOf(o, env.unitDisplay).value;
      assert Get(r, "low").Obj? || Get(r, "high").Obj?;
    }
  }

  /** A payload carrying the mapped value and range of `o` raises no error. */
  lemma DescribedObservationAcceptable(p: map<string, Json>, o: NormalizedObservation, env: MapEnv)
    requires DescribesValue(p, o, env)
    ensures ObservationAcceptable(Obj(p))
  {
    DescribedObservationIssues(0, p, o, env);
    NoErrors(ObservationIssues(0, Obj(p)));
    ObservationErrorsIff(0, Obj(p));
  }

  /** The rules' verdict on one mapped observation: nothing, except the warning that a
      range is ignored when the value is not a number but a bound exists. */
  lemma MappedObservationIssues(index: nat, o: NormalizedObservation, panelCode: string, n: nat, meta: map<string, Json>, hex: string, env: MapEnv)
    ensures ObservationIssues(index, Obj(PayloadOf(o, panelCode, n, meta, hex, env)))
      == if !o.value.VNum? && (o.refLow.Some? || o.refHigh.Some?) then [IgnoredRange(ObservationPath(index))] else []
  {
    MappedDescribesValue(o, panelCode, n, meta, hex, env);
    DescribedObservationIssues(index, PayloadOf(o, panelCode, n, meta, hex, env), o, env);
  }

  lemma MappedDescribesValue(o: NormalizedObservation, panelCode: string, n: nat, meta: map<string, Json>, hex: string, env: MapEnv)
    ensures DescribesValue(PayloadOf(o, panelCode, n, meta, hex, env), o, env)
  {
    PayloadDescribesObservation(o, panelCode, n, meta, hex, env);
    PayloadOptionalEntries(o, panelCode, n, meta, hex, env);
  }

  /** A mapped observation is acceptable to the rules. */
  lemma MappedObservationAcceptable(o: NormalizedObservation, panelCode: string, n: nat, meta: map<string, Json>, hex: string, env: MapEnv)
    ensures ObservationAcceptable(Obj(PayloadOf(o, panelCode, n, meta, hex, env)))
  {
    MappedDescribesValue(o, panelCode, n, meta, hex, env);
    DescribedObservationAcceptable(PayloadOf(o, panelCode, n, meta, hex, env), o, env);
  }

  /** The mapped observations raise no error. */
  lemma MappedObservationsAcceptable(observations: seq<NormalizedObservation>, panelCode: string, meta: map<string, Json>, env: MapEnv)
    ensures var items := PayloadsOf(observations, panelCode, meta, env);
      forall k :: 0 <= k < |items| ==> ObservationAcceptable(items[k])
  {
    forall k | 0 <= k < |observations|
      ensures ObservationAcceptable(Obj(PayloadOf(observations[k], panelCode, k + 1, meta, env.uuidHex(k), env)))
    {
      MappedObservationAcceptable(observations[k], panelCode, k + 1, meta, env.uuidHex(k), env);
    }
  }

  /** Every panel the mapping builds passes the semantic rules. */
  lemma MappedPanelIsValid(report: NormalizedReport, panel: string, standardVersion: string, env: MapEnv)
    ensures RulesResult(PanelDataOf(report, panel, standardVersion, env)).isValid
  {
    var data := PanelDataOf(report, panel, standardVersion, env);
    PanelContents(report, panel, standardVersion, env);
    MappedObservationsAcceptable(report.observations, NormalizePanelCode(panel), report.document.meta, env);
    ValidIff(data);
  }
}
