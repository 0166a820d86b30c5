/** Unit spelling normalisation (core/normalize/units.py). */
module Units {
  import opened Text

  /** `UNIT_ALIASES`: lower-cased spelling to the preferred one. */
  const UnitAliases: map<string, string> := map[
    "g/l" := "g/L",
    "mg/dl" := "mg/dL",
    "mmol/l" := "mmol/L",
    "umol/l" := "umol/L",
    "u/l" := "U/L"
  ]

  /** Every preferred spelling is trimmed and is its own alias target, so it stays put. */
  lemma AliasTargetsAreFixed()
    ensures forall k :: k in UnitAliases ==>
      var v := UnitAliases[k]; Trimmed(v) && v != [] && Lower(v) == k && Strip(v) == v
  {
    PreferredSpelling("g/L", "g/l");
    PreferredSpelling("mg/dL", "mg/dl");
    PreferredSpelling("mmol/L", "mmol/l");
    PreferredSpelling("umol/L", "umol/l");
    PreferredSpelling("U/L", "u/l");
  }

  /** `normalize_unit`: "" for "", the preferred spelling of a known unit whatever its case
      and surrounding whitespace, and otherwise the unit as written, stripped. */
  function NormalizeUnit(unitRaw: string): (u: string)
    ensures Trimmed(u)
    ensures u == [] <==> AllSpace(unitRaw)
    ensures Lower(Strip(unitRaw)) in UnitAliases ==> u == UnitAliases[Lower(Strip(unitRaw))]
    ensures Lower(Strip(unitRaw)) !in UnitAliases ==> u == Strip(unitRaw)
  {
    StripEmptyIffAllSpace(unitRaw);
    AliasTargetsAreFixed();
    if unitRaw == [] then ""
    else
      var key := Lower(Strip(unitRaw));
      if key in UnitAliases then UnitAliases[key] else Strip(unitRaw)
  }

  /** Normalising a normalised unit changes nothing. */
  lemma Idempotent(unitRaw: string)
    ensures NormalizeUnit(NormalizeUnit(unitRaw)) == NormalizeUnit(unitRaw)
  {
    var u := NormalizeUnit(unitRaw);
    StripNoop(u);
    AliasTargetsAreFixed();
  }

  /** Units agree after normalisation whenever they agree once stripped and lower-cased
      and that key is a known unit. */
  lemma KnownUnitsIgnoreCase(a: string, b: string)
    requires Lower(Strip(a)) == Lower(Strip(b)) && Lower(Strip(a)) in UnitAliases
    ensures NormalizeUnit(a) == NormalizeUnit(b)
  {}

  /** " MG/DL " becomes "mg/dL". */
  lemma PaddedMgDlExample()
    ensures NormalizeUnit(" MG/DL ") == "mg/dL"
  {
    PaddedMgDl();
  }

  /** A unit longer than every known spelling once stripped, such as "x10^9/L", is
      kept as written, stripped. */
  lemma LongUnitKept(unitRaw: string)
    requires |Strip(unitRaw)| > 6
    ensures NormalizeUnit(unitRaw) == Strip(unitRaw)
  {
    KnownUnitsAreShort();
    assert |Lower(Strip(unitRaw))| > 6;
    UnknownUnitStripped(unitRaw);
  }

  lemma UnknownUnitStripped(unitRaw: string)
    requires Lower(Strip(unitRaw)) !in UnitAliases
    ensures NormalizeUnit(unitRaw) == Strip(unitRaw)
  {}

  lemma KnownUnitsAreShort()
    ensures forall k :: k in UnitAliases ==> |k| <= 6
  {}

  lemma PaddedMgDl()
    ensures Lower(Strip(" MG/DL ")) == "mg/dl"
  {
    var s := " MG/DL ";
    assert s[1..] == "MG/DL ";
    LStripNoop("MG/DL ");
    assert LStrip(s) == "MG/DL ";
    assert "MG/DL "[..5] == "MG/DL";
    RStripNoop("MG/DL");
    assert RStrip("MG/DL ") == "MG/DL";
    PreferredSpelling("MG/DL", "mg/dl");
  }
}
