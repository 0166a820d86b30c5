# medlabs-standard, modelled in Dafny

This project models the deterministic core of the medlabs-standard Python SDK. The core
turns lab-report fields into a validated panel payload:

- **Extraction post-processing.** An untrusted list of field guesses from the language
  model is cleaned, or the report lines are matched one per field by the line regular
  expression.
- **Normalisation.** Each field's name is canonicalised, its value and reference range are
  parsed as decimals, and its unit is normalised.
- **Mapping.** The normalised report becomes the canonical panel payload: panel code,
  coding table, interpretation, quantities, reference ranges and provenance.
- **Validation.** The payload is checked against a JSON schema and against the cross-field
  unit rules, and the two issue lists are merged into one verdict.
- **Orchestration.** The pipeline's workflow graph is built, checked and run node by node
  over a mutable pipeline state. The prompt-fallback policy of the prompted model client is
  modelled too.

Each core source file has its own module:

| module | file | form |
|---|---|---|
| `Models` | `models.dfy` | records, `errors`/`warnings` filters, `to_dict` |
| `Names`, `Units`, `Numbers` | `names.dfy`, `units.dfy`, `numbers.dfy` | pure functions; the regular expressions are hand-written scanners with leftmost-match search |
| `Normalize` | `normalize.dfy` | the field loop is a method, proved against the functions `ObservationsOf` and `WarningsOfFields` |
| `ToStandard` | `to_standard.dfy` | pure helpers as functions; the dictionary-filling helpers and `to_standard_panel` are methods, each proved equal to a payload function |
| `Rules` | `rules.dfy` | the observation loop is a method, proved against `RulesResult` |
| `SchemaValidation` | `jsonschema.dfy` | the schema engine is a parameter; the issue loop and the merge are methods |
| `AiExtract`, `RegexExtract` | `ai_extract.dfy`, `regex_extract.dfy` | the item loop and the line loop are methods, each with a specification function |
| `PromptedClient` | `prompted_client.dfy` | `_resolve_prompt` as a function returning a `Result` |
| `Pipeline` | `pipeline.dfy` | the classes `PipelineState` and `MedLabsPipeline`; the run loop is a method proved against the recursive function `RunFrom` |
| `MappingRules` | `consistency.dfy` | cross-file properties: a mapped payload never draws an error-severity rule issue |
| `Wrappers`, `Text`, `JsonValues`, `Contracts` | `wrappers.dfy`, `text.dfy`, `json.dfy`, `contracts.dfy` | `Option`/`Result`, Python's string built-ins, JSON values, the shared interfaces |

Numbers are exact `real`s and JSON values are a datatype
`Null | Bool | Int | Num | Str | Arr | Obj`. Five things come from outside the modelled
code and are taken as parameters:

- the random hex suffixes of ids;
- today's date;
- `unit_display`;
- Python's `str()` of non-string values;
- the JSON-schema engine.

## Model

| member | source | states |
|---|---|---|
| Models.StandardPanel.ToDict | sdk/python/medlabs_sdk/core/models.py:65-66 | `to_dict` returns a dictionary with exactly the keys of `data`, each mapped to the same value |
| Models.ErrorsOf | sdk/python/medlabs_sdk/core/models.py:81-83 | `errors` holds exactly the issues of severity "error", and no more than there are issues |
| Models.WarningsOf | sdk/python/medlabs_sdk/core/models.py:85-87 | `warnings` holds exactly the issues of severity "warning", and no more than there are issues |
| Models.ErrorsAndWarningsPartition | sdk/python/medlabs_sdk/core/models.py:81-87 | severity is only "error" or "warning", so the errors and the warnings together are a permutation of the issues and their lengths add up |
| Models.NoErrorsIff | sdk/python/medlabs_sdk/core/models.py:76-83 | `errors` is empty exactly when no issue has severity "error" |
| Models.ErrorsOfAppend | sdk/python/medlabs_sdk/core/models.py:81-83 | the errors of two lists joined are the errors of the first followed by those of the second, so `errors` keeps the original order |
| Models.WarningsOfAppend | sdk/python/medlabs_sdk/core/models.py:85-87 | the same for `warnings` |
| Names.CanonicalizeName | sdk/python/medlabs_sdk/core/normalize/names.py:8-12 | the code is "" exactly when the label is blank; it has no upper-case letter, no space and no whitespace at its ends |
| Names.AliasTargetsAreCodes | sdk/python/medlabs_sdk/core/normalize/names.py:1-5 | every `ALIAS_MAP` value is a non-empty, lower-case, space-free, trimmed code that is its own alias |
| Names.RewrittenKeyIsCode | sdk/python/medlabs_sdk/core/normalize/names.py:12 | replacing spaces by `_` in a non-empty lower-case trimmed key gives a non-empty lower-case, space-free, trimmed code |
| Names.CodeOfKey | sdk/python/medlabs_sdk/core/normalize/names.py:10-12 | the code of a lower-case trimmed key is "" only for the empty key and is lower-case, space-free and trimmed |
| Names.CaseAndWhitespaceInsensitive | sdk/python/medlabs_sdk/core/normalize/names.py:9-12 | two labels equal after `strip().lower()` get the same code |
| Names.PlainLabel | sdk/python/medlabs_sdk/core/normalize/names.py:9-12 | a trimmed label whose lower-cased form has no space and is no alias becomes that lower-cased form |
| Names.UpperWbc | tests/test_normalize.py:10-23 | "WBC" becomes "wbc" |
| Names.LowerWbc | sdk/python/medlabs_sdk/core/normalize/names.py:9-12 | "wbc" stays "wbc" |
| Names.PaddedKey | sdk/python/medlabs_sdk/core/normalize/names.py:9 | a label padded by a space on each side has the key of the label itself |
| Names.PaddingIgnored | sdk/python/medlabs_sdk/core/normalize/names.py:9-12 | padding a label by a space on each side does not change its code, so " Wbc " gives "wbc" |
| Names.HgbAlias | sdk/python/medlabs_sdk/core/normalize/names.py:3-12 | "hgb" becomes the alias target "hemoglobin" |
| Names.UpperHgbAlias | sdk/python/medlabs_sdk/core/normalize/names.py:3-12 | "HGB" becomes "hemoglobin" too |
| Names.BlankLabel | sdk/python/medlabs_sdk/core/normalize/names.py:9-11 | a whitespace-only label has the code "" |
| Names.CodeIsItsOwnKey | sdk/python/medlabs_sdk/core/normalize/names.py:9 | a lower-case trimmed code is its own lookup key |
| Names.Idempotent | sdk/python/medlabs_sdk/core/normalize/names.py:8-12 | `canonicalize_name` applied to its own output changes nothing |
| Names.RewrittenKeyIsCanonical | sdk/python/medlabs_sdk/core/normalize/names.py:1-12 | a non-alias key with `_` for spaces is no alias key either and has no space left to rewrite |
| Units.AliasTargetsAreFixed | sdk/python/medlabs_sdk/core/normalize/units.py:1-7 | every preferred spelling is non-empty and trimmed, lower-cases to its own key, and is unchanged by `strip()` |
| Units.NormalizeUnit | sdk/python/medlabs_sdk/core/normalize/units.py:10-14 | the result has no whitespace at its ends; it is "" exactly for blank input; a known unit in any case and padding gives its preferred spelling; anything else comes back stripped with its case kept |
| Units.Idempotent | sdk/python/medlabs_sdk/core/normalize/units.py:10-14 | `normalize_unit` applied to its own output changes nothing |
| Units.KnownUnitsIgnoreCase | sdk/python/medlabs_sdk/core/normalize/units.py:13-14 | two units with the same known key after `strip().lower()` normalise alike |
| Units.PaddedMgDlExample | sdk/python/medlabs_sdk/core/normalize/units.py:3-14 | " MG/DL " becomes "mg/dL" |
| Units.LongUnitKept | sdk/python/medlabs_sdk/core/normalize/units.py:1-14 | a unit longer than every known spelling once stripped, such as "x10^9/L", comes back stripped and otherwise as written |
| Units.UnknownUnitStripped | sdk/python/medlabs_sdk/core/normalize/units.py:14 | a unit whose key is not in `UNIT_ALIASES` comes back stripped |
| Numbers.DigitRunDigits | sdk/python/medlabs_sdk/core/normalize/numbers.py:5-6 | `\d+` taken greedily: the run is all digits and is followed by a non-digit or the end |
| Numbers.DigitRunExact | sdk/python/medlabs_sdk/core/normalize/numbers.py:5-6 | any maximal run of digits is the run the scanner takes |
| Numbers.SkipSpaceBlanks | sdk/python/medlabs_sdk/core/normalize/numbers.py:5 | `\s*` taken greedily: only whitespace is skipped, up to a non-blank or the end |
| Numbers.SkipSpaceExact | sdk/python/medlabs_sdk/core/normalize/numbers.py:5 | any maximal run of whitespace is the one skipped |
| Numbers.NumberEndSound | sdk/python/medlabs_sdk/core/normalize/numbers.py:6 | where the scanner of `_NUMBER_RE` ends a match, the matched text is an optional minus, digits and an optional mark with digits |
| Numbers.NumberAtComplete | sdk/python/medlabs_sdk/core/normalize/numbers.py:6 | wherever the text matches `_NUMBER_RE` in any way, the scanner finds a match |
| Numbers.NumberAtMaximal | sdk/python/medlabs_sdk/core/normalize/numbers.py:6 | a match that cannot be extended is the one the greedy scanner takes |
| Numbers.WholeEnd | sdk/python/medlabs_sdk/core/normalize/numbers.py:6 | a numeral without a decimal mark ends after its last digit |
| Numbers.FractionEnd | sdk/python/medlabs_sdk/core/normalize/numbers.py:6 | a numeral with a decimal mark ends after the last digit of its fraction |
| Numbers.NumberAt | sdk/python/medlabs_sdk/core/normalize/numbers.py:6-18 | `_NUMBER_RE` tried at one position matches exactly when the scanner finds an end, and that end is the match's end |
| Numbers.RangeAt | sdk/python/medlabs_sdk/core/normalize/numbers.py:5 | a range match at a position starts there; its first numeral is the one read there, its dash is the first non-blank after it, and its second numeral is the one read at the first non-blank after the dash |
| Numbers.RangeAtSound | sdk/python/medlabs_sdk/core/normalize/numbers.py:5 | what the range scanner matches is numeral, blanks, hyphen or en-dash, blanks, numeral, at the positions the match records |
| Numbers.RangeAtComplete | sdk/python/medlabs_sdk/core/normalize/numbers.py:5 | whenever the text reads numeral, blanks, hyphen or en-dash, blanks, numeral, the scanner matches there with that first numeral, that dash and the second numeral starting where that one does: no backtracking alternative is missed |
| Numbers.RangeShapeScanned | sdk/python/medlabs_sdk/core/normalize/numbers.py:5 | on text of the range's shape, the number scanner ends the first numeral where the shape does, the blanks end at the dash and the second numeral is found after the next blanks |
| Numbers.SearchRangeFrom | sdk/python/medlabs_sdk/core/normalize/numbers.py:11-26 | a range found by the search is the match at the position it reports |
| Numbers.SearchRangeLeftmost | sdk/python/medlabs_sdk/core/normalize/numbers.py:11-26 | no range matches before the one `re.search` reports, nor anywhere when it reports none |
| Numbers.SearchRangeNotAt | sdk/python/medlabs_sdk/core/normalize/numbers.py:11-26 | before the position the search reports, no range matches and the search moves on unchanged |
| Numbers.SearchRangeHere | sdk/python/medlabs_sdk/core/normalize/numbers.py:11-26 | the search stops at the first position that matches and otherwise moves one position on |
| Numbers.SearchNumberFrom | sdk/python/medlabs_sdk/core/normalize/numbers.py:14 | `re.search` with `_NUMBER_RE`: the match found is a numeral at its start, and no numeral starts before it |
| Numbers.ParseFloat | sdk/python/medlabs_sdk/core/normalize/numbers.py:9-12 | None for blank text and for text holding a range anywhere |
| Numbers.ParseFloatReads | sdk/python/medlabs_sdk/core/normalize/numbers.py:9-18 | a value exactly when the stripped text holds no range and `re.search` finds a numeral in it, and then the value of that numeral with `,` read as `.` |
| Numbers.ParseFloatLeftmost | sdk/python/medlabs_sdk/core/normalize/numbers.py:14-18 | a value read is that of a numeral in the stripped text before which no numeral starts |
| Numbers.NumeralIsRead | sdk/python/medlabs_sdk/core/normalize/numbers.py:9-18 | text that holds a numeral and no range is always read as a number, that of a numeral starting no later |
| Numbers.ParseRange | sdk/python/medlabs_sdk/core/normalize/numbers.py:21-32 | both bounds or neither; neither for blank text; bounds exactly when `re.search` finds a range in the stripped text |
| Numbers.ParseRangeReads | sdk/python/medlabs_sdk/core/normalize/numbers.py:21-32 | the bounds are the values of the found range's first and second numerals, in the order written |
| Numbers.RangeIsRead | sdk/python/medlabs_sdk/core/normalize/numbers.py:21-32 | text holding the range shape anywhere always gives both bounds |
| Numbers.RangeIsFound | sdk/python/medlabs_sdk/core/normalize/numbers.py:11 | `re.search` with `_RANGE_RE` finds a match in any text that holds the range shape |
| Numbers.RangeIsNotAValue | sdk/python/medlabs_sdk/core/normalize/numbers.py:5-12 | text holding a range shape anywhere, such as "4-10" or "4,0 – 10,0", is not read as a number |
| Numbers.RangeExcludesValue | sdk/python/medlabs_sdk/core/normalize/numbers.py:11-26 | whenever `parse_range` finds bounds, `parse_float` of the same text is None |
| Numbers.NoDigitNoValue | sdk/python/medlabs_sdk/core/normalize/numbers.py:14-16 | text with no digit gives None |
| Numbers.NoDigitNoNumber | sdk/python/medlabs_sdk/core/normalize/numbers.py:14-16 | `_NUMBER_RE` finds nothing in text with no digit |
| Numbers.CommaDecimal | tests/test_normalize.py:11-24 | "5,4" is read as 5.4 |
| Numbers.DashRange | tests/test_normalize.py:13-27 | "4,0-10,0" gives the bounds 4.0 and 10.0 |
| Numbers.OneSidedIsNotRange | tests/test_normalize.py:38 | "> 3.9" gives neither bound |
| Normalize.NormalizedValue | sdk/python/medlabs_sdk/core/normalize/pipeline.py:19-20 | the value is the parsed number when `parse_float` succeeds, and otherwise the stripped text, never dropped |
| Normalize.ObservationFor | sdk/python/medlabs_sdk/core/normalize/pipeline.py:13-38 | a field is skipped exactly when its name is blank |
| Normalize.ObservationContents | sdk/python/medlabs_sdk/core/normalize/pipeline.py:14-37 | the observation has the non-empty canonical code, the parsed number or the stripped text, both bounds or neither, the normalised unit, and the field's name, confidence, evidence and flags unchanged |
| Normalize.FieldWarnings | sdk/python/medlabs_sdk/core/normalize/pipeline.py:15-24 | a blank name gives "Field {i} has empty name"; otherwise there is one "unparsed reference range" warning exactly when the range text is non-blank and no bound was parsed |
| Normalize.ObservationsOf | sdk/python/medlabs_sdk/core/normalize/pipeline.py:13-38 | there are at most as many observations as fields |
| Normalize.ObservationsComeFromFields | sdk/python/medlabs_sdk/core/normalize/pipeline.py:13-38 | every observation is that of some field |
| Normalize.ObservationsExtend | sdk/python/medlabs_sdk/core/normalize/pipeline.py:13-26 | the observations of a prefix of the fields are a prefix of the observations, so source order is kept |
| Normalize.NamedFieldsAreObserved | sdk/python/medlabs_sdk/core/normalize/pipeline.py:13-26 | every field with a non-blank name is observed |
| Normalize.FieldOutcomes | sdk/python/medlabs_sdk/core/normalize/pipeline.py:13-38 | one outcome per field, in order |
| Normalize.ObservationsArePresentOutcomes | sdk/python/medlabs_sdk/core/normalize/pipeline.py:13-38 | the observations are exactly the present outcomes, in field order |
| Normalize.NamedFieldsKeepPositions | sdk/python/medlabs_sdk/core/normalize/pipeline.py:13-38 | when no name is blank, observation i is the observation of field i |
| Normalize.CleanFieldsAddNoWarnings | sdk/python/medlabs_sdk/core/normalize/pipeline.py:15-24 | named fields whose ranges are blank or parse add no warning |
| Normalize.Normalize | sdk/python/medlabs_sdk/core/normalize/pipeline.py:9-45 | the loop's result: the document and metadata carried over, the observations of the fields, and the report's warnings followed by the fields' warnings |
| Normalize.NormalizeField | sdk/python/medlabs_sdk/core/normalize/pipeline.py:14-38 | one pass of the loop body gives the field's observation and warnings |
| Normalize.NormalizeFields | sdk/python/medlabs_sdk/core/normalize/pipeline.py:13-38 | after the loop the observations are those of all the fields and the warnings are the report's followed by the fields' |
| Normalize.NormalizeStep | sdk/python/medlabs_sdk/core/normalize/pipeline.py:13-38 | one pass keeps the loop invariant: what was gathered for the first `index` fields becomes that of the first `index + 1` |
| Normalize.PrefixStep | sdk/python/medlabs_sdk/core/normalize/pipeline.py:13-38 | one more field extends the observations by its observation, if any, and the warnings by its warnings |
| Normalize.WbcField | tests/test_normalize.py:5-28 | WBC, "5,4", "x10^9/L", "4,0-10,0" gives code "wbc", value 5.4, bounds 4.0 and 10.0, and the unit "x10^9/L" as written (see Left out) |
| Normalize.WbcUnitKept | sdk/python/medlabs_sdk/core/normalize/units.py:14 | "x10^9/L" is kept as written |
| Normalize.WbcFieldHasNoWarning | tests/test_normalize.py:5-28 | that field adds no warning |
| Normalize.OneSidedReferenceWarns | tests/test_normalize.py:30-47 | a named field with range "> 3.9" draws the "unparsed reference range" warning and has no bounds, but it is still observed |
| ToStandard.NormalizePanelCode | sdk/python/medlabs_sdk/core/map/to_standard.py:86-96 | the input is stripped and upper-cased; a known code is kept, one of the three display names resolves to its code, anything else stays upper-cased; the result has no lower-case letter and no whitespace at its ends |
| ToStandard.AliasTargetsAreCodes | sdk/python/medlabs_sdk/core/map/to_standard.py:91-95 | every display-name alias resolves to a known panel code |
| ToStandard.PanelCodeIdempotent | sdk/python/medlabs_sdk/core/map/to_standard.py:86-96 | resolving a resolved panel code changes nothing |
| ToStandard.LowerCaseCode | sdk/python/medlabs_sdk/core/map/to_standard.py:86-89 | "cbc" resolves to "CBC" |
| ToStandard.KnownCodeResolves | sdk/python/medlabs_sdk/core/map/to_standard.py:87-89 | a known code, in any case and padding, resolves to itself upper-cased |
| ToStandard.AliasResolves | sdk/python/medlabs_sdk/core/map/to_standard.py:91-96 | a display name, in any case and padding, resolves to its code |
| ToStandard.DisplayNameResolves | sdk/python/medlabs_sdk/core/map/to_standard.py:94 | "Urinalysis Panel", in any case and padding, resolves to "URINALYSIS" |
| ToStandard.PanelDisplay | sdk/python/medlabs_sdk/core/map/to_standard.py:231 | a known code has its table display, any other code its title-cased form |
| ToStandard.ReportDate | sdk/python/medlabs_sdk/core/map/to_standard.py:99-103 | a 10-character string `report_date` is kept, anything else gives today's date |
| ToStandard.UnitCode | sdk/python/medlabs_sdk/core/map/to_standard.py:134-147 | `unit or "1"`: the unit itself when it is not empty, and "1" when it is |
| ToStandard.Quantity | sdk/python/medlabs_sdk/core/map/to_standard.py:133-140 | exactly the keys value, unit_code, unit_system and unit_display, with unit system "UCUM" and a truthy unit code |
| ToStandard.Interpretation | sdk/python/medlabs_sdk/core/map/to_standard.py:156-166 | "low" exactly when a number is below the low bound; "high" exactly when it is not below low and above high; "normal" exactly when it is a number within every present bound and some bound exists; "unknown" for a non-number or no bound |
| ToStandard.WithinRangeIsNormal | sdk/python/medlabs_sdk/core/map/to_standard.py:160-165 | a number between both bounds is "normal" |
| ToStandard.ObservationCode | sdk/python/medlabs_sdk/core/map/to_standard.py:169-179 | a code in the table gets its fixed coding; any other gets a LOCAL coding with the code upper-cased, displayed as the source name, or when that is empty as the code with `_` read as a space and title-cased |
| ToStandard.ObservationValue | sdk/python/medlabs_sdk/core/map/to_standard.py:182-190 | a number becomes its quantity; bool and None pass through; a string stays a string |
| ToStandard.SetWhenKeys | sdk/python/medlabs_sdk/core/map/to_standard.py:215-271 | a conditional insert adds its key exactly when the condition holds |
| ToStandard.SetWhenKeeps | sdk/python/medlabs_sdk/core/map/to_standard.py:215-271 | a conditional insert leaves the other entries alone |
| ToStandard.SetWhenSets | sdk/python/medlabs_sdk/core/map/to_standard.py:215-271 | a key absent before is present after exactly when the condition holds, and then holds the value |
| ToStandard.WithRawTextKeys | sdk/python/medlabs_sdk/core/map/to_standard.py:127-128 | replacing the raw text keeps the keys of a trace |
| ToStandard.WithRawTextKeeps | sdk/python/medlabs_sdk/core/map/to_standard.py:127-128 | replacing the raw text leaves the other entries alone |
| ToStandard.WithRawTextSets | sdk/python/medlabs_sdk/core/map/to_standard.py:127-128 | the raw text becomes the stripped evidence text when that is a non-blank string, and is unchanged otherwise |
| ToStandard.WithEvidenceKeeps | sdk/python/medlabs_sdk/core/map/to_standard.py:119-128 | evidence adds at most `page` and `line` and leaves the trace's other entries, apart from the raw text, as they were |
| ToStandard.WithEvidencePageLine | sdk/python/medlabs_sdk/core/map/to_standard.py:120-126 | `page` and `line` are added exactly when the evidence has them as positive ints, with those values |
| ToStandard.WithEvidenceRawText | sdk/python/medlabs_sdk/core/map/to_standard.py:122-128 | the evidence's non-blank raw text, stripped, replaces the fallback |
| ToStandard.BaseTraceEntries | sdk/python/medlabs_sdk/core/map/to_standard.py:112-117 | a trace starts with the document id and lab name (or their defaults) rendered by `str()`, the report date and the fallback raw text |
| ToStandard.TraceKeys | sdk/python/medlabs_sdk/core/map/to_standard.py:106-130 | a trace has the four base keys and at most `page` and `line` besides |
| ToStandard.TraceIdentifies | sdk/python/medlabs_sdk/core/map/to_standard.py:112-115 | a trace names the document, the lab and the report date |
| ToStandard.TraceEvidence | sdk/python/medlabs_sdk/core/map/to_standard.py:119-126 | a trace has `page`/`line` exactly when the evidence gives them as positive ints |
| ToStandard.TraceRawText | sdk/python/medlabs_sdk/core/map/to_standard.py:116-128 | a trace's raw text is the evidence's stripped non-blank raw text, or else the fallback |
| ToStandard.ReferenceRangeOf | sdk/python/medlabs_sdk/core/map/to_standard.py:143-153 | no range exactly when both bounds are absent; otherwise a non-empty range with `low`/`high` exactly for the present bounds, each a quantity in the observation's unit code |
| ToStandard.EffectiveTime | sdk/python/medlabs_sdk/core/map/to_standard.py:218-220 | `effective_time or collected_at`, kept only when it is a non-empty string |
| ToStandard.ObservationHeaderEntries | sdk/python/medlabs_sdk/core/map/to_standard.py:200-206 | an observation payload has its id, resource type "observation" and status "final" |
| ToStandard.ObservationContentEntries | sdk/python/medlabs_sdk/core/map/to_standard.py:203-211 | an observation payload holds the code, value, interpretation and source it was built from |
| ToStandard.ObservationOptionalEntries | sdk/python/medlabs_sdk/core/map/to_standard.py:214-220 | `reference_range` is present exactly for a non-empty range, `effective_time` exactly when one is given |
| ToStandard.PayloadContents | sdk/python/medlabs_sdk/core/map/to_standard.py:200-206 | the payload of an observation is identified by the panel code, its index and a uuid, and is a final observation |
| ToStandard.PayloadDescribesObservation | sdk/python/medlabs_sdk/core/map/to_standard.py:203-211 | the payload holds the observation's coding, value, interpretation and source trace |
| ToStandard.PayloadOptionalEntries | sdk/python/medlabs_sdk/core/map/to_standard.py:214-220 | `reference_range` is omitted exactly when both bounds are absent; `effective_time` is present exactly when the metadata supplies one |
| ToStandard.Numbered | sdk/python/medlabs_sdk/core/map/to_standard.py:237-245 | `enumerate`: one result per element, in order, each given its position |
| ToStandard.NumberedSnoc | sdk/python/medlabs_sdk/core/map/to_standard.py:237-245 | numbering one more element appends its result |
| ToStandard.PayloadsOf | sdk/python/medlabs_sdk/core/map/to_standard.py:237-245 | one payload per observation, in order, each with its 1-based index and its own uuid |
| ToStandard.PanelWarnings | sdk/python/medlabs_sdk/core/map/to_standard.py:233-235 | a known panel keeps the report's warnings; an unknown panel appends exactly one "Unknown panel" warning after them |
| ToStandard.PanelHeaderEntries | sdk/python/medlabs_sdk/core/map/to_standard.py:247-257 | a panel payload has its id, resource type "panel", status "final" and the standard version |
| ToStandard.PanelContentEntries | sdk/python/medlabs_sdk/core/map/to_standard.py:251-262 | a panel payload holds the panel coding, the panel name, the observations and the source it was built from |
| ToStandard.PanelOptionalEntries | sdk/python/medlabs_sdk/core/map/to_standard.py:265-271 | `collected_at` and `reported_at` are present exactly when given as non-empty strings |
| ToStandard.PanelContents | sdk/python/medlabs_sdk/core/map/to_standard.py:230-262 | the panel payload lists the payloads of the report's observations under the resolved code and names the panel by code and display |
| ToStandard.PanelIdentity | sdk/python/medlabs_sdk/core/map/to_standard.py:247-250 | the panel id draws the uuid after those of the observations; the payload is a final panel of the given standard version |
| ToStandard.SourceTrace | sdk/python/medlabs_sdk/core/map/to_standard.py:106-130 | the trace `_source_trace` fills in, entry by entry |
| ToStandard.AddEvidence | sdk/python/medlabs_sdk/core/map/to_standard.py:119-126 | the evidence step adds `page`, `line` and raw text as `WithEvidence` says |
| ToStandard.ReplaceRawText | sdk/python/medlabs_sdk/core/map/to_standard.py:127-128 | the raw-text step as `WithRawText` says |
| ToStandard.ReferenceRange | sdk/python/medlabs_sdk/core/map/to_standard.py:143-153 | the dictionary `_reference_range` fills in is `ReferenceRangeOf` |
| ToStandard.ObservationPayload | sdk/python/medlabs_sdk/core/map/to_standard.py:193-222 | the dictionary `_observation_payload` fills in is `PayloadOf` |
| ToStandard.AssembleObservation | sdk/python/medlabs_sdk/core/map/to_standard.py:200-220 | the seven entries, then the range when there is one, then the effective time when it is a non-empty string |
| ToStandard.ObservationPayloads | sdk/python/medlabs_sdk/core/map/to_standard.py:237-245 | the list comprehension's payloads, uuid by uuid |
| ToStandard.PanelPayload | sdk/python/medlabs_sdk/core/map/to_standard.py:247-271 | the panel dictionary with its optional dates |
| ToStandard.ToStandardPanel | sdk/python/medlabs_sdk/core/map/to_standard.py:225-273 | `to_standard_panel` returns `StandardPanelOf`: the payload above and the panel warnings |
| Rules.BoundIssues | sdk/python/medlabs_sdk/core/validate/rules.py:62-90 | one bound: nothing when it is not an object; otherwise the "must match value.unit_code" error exactly when both unit codes are truthy and differ under Python `!=` (numbers by value, lists and dicts item by item), the "must match value.unit_system" error exactly when the unit systems do, code before system, and nothing else |
| Rules.BoundsIssues | sdk/python/medlabs_sdk/core/validate/rules.py:62-90 | the bound checks raise only errors |
| Rules.ValidateRules | sdk/python/medlabs_sdk/core/validate/rules.py:12-107 | `validate_rules` returns `RulesResult`, and its `is_valid` agrees with its issues |
| Rules.CheckObservation | sdk/python/medlabs_sdk/core/validate/rules.py:26-105 | the loop body for one observation gives that observation's issues |
| Rules.CheckQuantity | sdk/python/medlabs_sdk/core/validate/rules.py:41-90 | the checks of a quantity value and its range |
| Rules.CheckBounds | sdk/python/medlabs_sdk/core/validate/rules.py:62-90 | the loop over "low" and "high" gives the bound issues in that order |
| Rules.CheckBound | sdk/python/medlabs_sdk/core/validate/rules.py:64-90 | the loop body for one bound computes exactly the issues `Rules.BoundIssues` describes |
| Rules.BoundsStep | sdk/python/medlabs_sdk/core/validate/rules.py:63 | one more bound key appends that key's issues |
| Rules.LowBeforeHigh | sdk/python/medlabs_sdk/core/validate/rules.py:63 | the low bound's issues come before the high bound's |
| Rules.BoundsOfTwo | sdk/python/medlabs_sdk/core/validate/rules.py:63 | checking two bound keys gives the first key's issues followed by the second key's |
| Rules.NotAListRejected | sdk/python/medlabs_sdk/core/validate/rules.py:15-24 | a missing or non-list `observations` gives exactly one error at "/observations", `is_valid` false, and nothing else |
| Rules.UnitSystemOnlyWarns | sdk/python/medlabs_sdk/core/validate/rules.py:53-60 | the unit-system issue appears exactly when a truthy unit system is not "UCUM", and it is a warning, never an error |
| Rules.IssuesLocated | sdk/python/medlabs_sdk/core/validate/rules.py:27-105 | every issue of observation i has a path starting with "/observations/i" |
| Rules.RulesResultConsistent | sdk/python/medlabs_sdk/core/validate/rules.py:107 | `is_valid` holds exactly when no issue is an error |
| Rules.BoundErrorsIff | sdk/python/medlabs_sdk/core/validate/rules.py:62-90 | a bound raises nothing exactly when it agrees with the value's unit code and system wherever both sides are truthy |
| Rules.BoundsErrorsIff | sdk/python/medlabs_sdk/core/validate/rules.py:62-90 | the bound checks raise no error exactly when both bounds agree |
| Rules.AllErrors | sdk/python/medlabs_sdk/core/validate/rules.py:8-9 | a list of errors only is its own error list |
| Rules.NoErrors | sdk/python/medlabs_sdk/core/validate/rules.py:8-9 | a list without errors has an empty error list |
| Rules.QuantityErrorsIff | sdk/python/medlabs_sdk/core/validate/rules.py:41-90 | a quantity raises no error exactly when its unit code is truthy and both bounds agree; the unit system alone never raises an error |
| Rules.ObservationErrorsIff | sdk/python/medlabs_sdk/core/validate/rules.py:26-105 | one observation raises no error exactly when it is an object whose quantity value, if any, has a unit code and agreeing bounds; a non-quantity value with a range only warns |
| Rules.ObservationsErrorsIff | sdk/python/medlabs_sdk/core/validate/rules.py:26-105 | the observations raise no error exactly when each of them is acceptable |
| Rules.ValidIff | sdk/python/medlabs_sdk/core/validate/rules.py:12-107 | `validate_rules` accepts a payload exactly when `observations` is a list of acceptable observations |
| MappingRules.QuantityIsClean | sdk/python/medlabs_sdk/core/map/to_standard.py:133-153 | the quantity the mapping builds for a number, with the range it builds, raises no issue at all under sdk/python/medlabs_sdk/core/validate/rules.py:41-90 |
| MappingRules.BoundIsClean | sdk/python/medlabs_sdk/core/validate/rules.py:62-90 | a bound with the value's own unit code and system raises nothing |
| MappingRules.DescribedObservationIssues | sdk/python/medlabs_sdk/core/validate/rules.py:26-105 | a payload carrying the mapped value and range of an observation raises nothing, except the "ignored" warning for a non-number with a bound |
| MappingRules.DescribedObservationAcceptable | sdk/python/medlabs_sdk/core/validate/rules.py:26-105 | such a payload raises no error |
| MappingRules.MappedObservationIssues | sdk/python/medlabs_sdk/core/map/to_standard.py:193-222 | the rules' verdict on one mapped observation: nothing, or that one warning |
| MappingRules.MappedDescribesValue | sdk/python/medlabs_sdk/core/map/to_standard.py:203-216 | a mapped observation carries the mapped value, and a range exactly when the observation has a bound |
| MappingRules.MappedObservationAcceptable | sdk/python/medlabs_sdk/core/map/to_standard.py:193-222 | a mapped observation is acceptable to the rules |
| MappingRules.MappedObservationsAcceptable | sdk/python/medlabs_sdk/core/map/to_standard.py:237-245 | all mapped observations are acceptable |
| MappingRules.MappedPanelIsValid | sdk/python/medlabs_sdk/core/map/to_standard.py:225-273 | every panel payload `to_standard_panel` builds passes `validate_rules` with no error |
| SchemaValidation.SchemaPathForPanel | sdk/python/medlabs_sdk/core/validate/jsonschema.py:10-27 | a schema file exactly when the trimmed, upper-cased code is CBC, BIOCHEM or URINALYSIS, and then that panel's file in the given or default directory; otherwise the error "Unsupported panel code: …" naming the code as given |
| SchemaValidation.SchemaPathIgnoresCaseAndPadding | sdk/python/medlabs_sdk/core/validate/jsonschema.py:22 | codes equal after `strip().upper()` pick the same schema |
| SchemaValidation.StrLessIrreflexive | sdk/python/medlabs_sdk/core/validate/jsonschema.py:51 | Python's `<` on strings is irreflexive |
| SchemaValidation.StrLessTransitive | sdk/python/medlabs_sdk/core/validate/jsonschema.py:51 | … transitive |
| SchemaValidation.StrLessTotal | sdk/python/medlabs_sdk/core/validate/jsonschema.py:51 | … and total |
| SchemaValidation.PartLessIrreflexive | sdk/python/medlabs_sdk/core/validate/jsonschema.py:51 | the order on location parts is irreflexive |
| SchemaValidation.PartLessTransitive | sdk/python/medlabs_sdk/core/validate/jsonschema.py:51 | … transitive |
| SchemaValidation.PartLessTotal | sdk/python/medlabs_sdk/core/validate/jsonschema.py:51 | … and total |
| SchemaValidation.LocationLessIrreflexive | sdk/python/medlabs_sdk/core/validate/jsonschema.py:51 | no location sorts before itself |
| SchemaValidation.LocationLessTransitive | sdk/python/medlabs_sdk/core/validate/jsonschema.py:51 | the order on locations (Python's list `<`) is transitive |
| SchemaValidation.LocationLessTotal | sdk/python/medlabs_sdk/core/validate/jsonschema.py:51 | any two locations are equal or ordered one way |
| SchemaValidation.LocationLessAsymmetric | sdk/python/medlabs_sdk/core/validate/jsonschema.py:51 | no two locations are each before the other |
| SchemaValidation.InsertElements | sdk/python/medlabs_sdk/core/validate/jsonschema.py:51 | inserting an error into a list adds exactly that error |
| SchemaValidation.Cons | sdk/python/medlabs_sdk/core/validate/jsonschema.py:51 | an error no location sorts before may go in front of a sorted list |
| SchemaValidation.InsertSorted | sdk/python/medlabs_sdk/core/validate/jsonschema.py:51 | inserting into a sorted list keeps it sorted |
| SchemaValidation.InsertAt | sdk/python/medlabs_sdk/core/validate/jsonschema.py:51 | inserting keeps the order of the errors at each location |
| SchemaValidation.SortByLocationCorrect | sdk/python/medlabs_sdk/core/validate/jsonschema.py:51 | `sorted(…, key=absolute_path)` orders the errors by location, is a permutation of them, and is stable: the errors at any one location stay in engine order |
| SchemaValidation.PathOf | sdk/python/medlabs_sdk/core/validate/jsonschema.py:52-53 | a path always starts with "/", is "/" alone for the root, and otherwise is "/" before each part's `str()` |
| SchemaValidation.JoinSlashed | sdk/python/medlabs_sdk/core/validate/jsonschema.py:53 | `"/" + "/".join(parts)` puts one "/" before every part |
| SchemaValidation.PartStrings | sdk/python/medlabs_sdk/core/validate/jsonschema.py:52 | `str()` of every part, in order |
| SchemaValidation.PathOfThree | sdk/python/medlabs_sdk/core/validate/jsonschema.py:52-53 | a location key, index, key is reported as "/key/index/key" |
| SchemaValidation.ThreeParts | sdk/python/medlabs_sdk/core/validate/jsonschema.py:52 | the parts of such a location, as strings |
| SchemaValidation.JoinThree | sdk/python/medlabs_sdk/core/validate/jsonschema.py:53 | `"/".join` of three parts |
| SchemaValidation.IssuesOf | sdk/python/medlabs_sdk/core/validate/jsonschema.py:54-60 | one error per violation, in the order given, at the violation's path with its message |
| SchemaValidation.SchemaIssues | sdk/python/medlabs_sdk/core/validate/jsonschema.py:30-61 | `_jsonschema_issues` returns the violations sorted by location as errors, or the engine's failure |
| SchemaValidation.ValidateJsonschema | sdk/python/medlabs_sdk/core/validate/jsonschema.py:64-98 | `validate_jsonschema` returns the schema step's issues followed by the rules' issues, valid exactly when none is an error |
| SchemaValidation.SchemaStep | sdk/python/medlabs_sdk/core/validate/jsonschema.py:71-92 | the `try`/`except` block: the violations, or one error when any part of the step failed |
| SchemaValidation.ExplicitPathWins | sdk/python/medlabs_sdk/core/validate/jsonschema.py:74-76 | an explicit schema path takes precedence: the panel code and schema directory are then ignored |
| SchemaValidation.UnresolvableSchemaIsOneError | sdk/python/medlabs_sdk/core/validate/jsonschema.py:76-98 | with neither argument, or an unsupported panel code, the schema step is one "/" error "Schema validation failed to run: …" saying why, the rules' issues follow, and the result is invalid |
| SchemaValidation.EngineFailureIsOneError | sdk/python/medlabs_sdk/core/validate/jsonschema.py:84-92 | a failing engine leaves exactly one "/" error carrying its message, and nothing raises |
| SchemaValidation.SchemaStepIssuesAreErrors | sdk/python/medlabs_sdk/core/validate/jsonschema.py:58-90 | every issue of the schema step is an error |
| SchemaValidation.ViolationsAreErrors | sdk/python/medlabs_sdk/core/validate/jsonschema.py:54-59 | every violation becomes an error |
| SchemaValidation.ValidIffSchemaAndRules | sdk/python/medlabs_sdk/core/validate/jsonschema.py:94-98 | the merged result is valid exactly when the schema step found nothing and `validate_rules` accepts the payload |
| SchemaValidation.SchemaIssuesReportSortedViolations | sdk/python/medlabs_sdk/core/validate/jsonschema.py:51-61 | the schema issues are exactly the engine's violations, sorted by location, stable within a location |
| AiExtract.StringOf | sdk/python/medlabs_sdk/core/extract/ai.py:35-38 | `_string`: "" for None, the stripped text for a string, and always trimmed |
| AiExtract.ConfidenceOf | sdk/python/medlabs_sdk/core/extract/ai.py:41-46 | `_float_0_1`: always within [0, 1]; 0.0 when `float()` fails; otherwise the number clamped to [0, 1] |
| AiExtract.EvidenceOf | sdk/python/medlabs_sdk/core/extract/ai.py:90-92 | the item's `evidence` when it is a dict, otherwise `{}` |
| AiExtract.ItemOutcomeIff | sdk/python/medlabs_sdk/core/extract/ai.py:79-104 | a non-dict item gives "fields[i] is not an object"; a dict item is rejected with "fields[i] is missing name_raw or value_raw" exactly when its stripped name or value is empty; an accepted item gives a clean field with the item's own strings, evidence and clamped confidence |
| AiExtract.OneOutcomePerItem | sdk/python/medlabs_sdk/core/extract/ai.py:78-104 | each item gives exactly one field or one warning |
| AiExtract.FieldsAreClean | sdk/python/medlabs_sdk/core/extract/ai.py:84-103 | every field has a non-empty trimmed name and value, trimmed optional strings, and a confidence in [0, 1] |
| AiExtract.AcceptedFields | sdk/python/medlabs_sdk/core/extract/ai.py:79-104 | one outcome per item, in order: the item's field when accepted, nothing otherwise |
| AiExtract.FieldsKeepItemOrder | sdk/python/medlabs_sdk/core/extract/ai.py:78-104 | the fields are the accepted items' fields, in item order |
| AiExtract.AllAcceptedKeepPositions | sdk/python/medlabs_sdk/core/extract/ai.py:78-104 | when every item is usable, field i is item i's |
| AiExtract.AiExtractor.RequestFor | sdk/python/medlabs_sdk/core/extract/ai.py:64-70 | the request forwards the document text, the output schema, the prompt name and version and the temperature |
| AiExtract.AiExtractor.Extract | sdk/python/medlabs_sdk/core/extract/ai.py:63-114 | `extract`: a raising client makes it raise the same error; otherwise it returns the report of the sanitising loop |
| AiExtract.ItemsStep | sdk/python/medlabs_sdk/core/extract/ai.py:79-104 | one more item extends the fields or the warnings by that item's outcome |
| AiExtract.SanitiseItem | sdk/python/medlabs_sdk/core/extract/ai.py:80-104 | the loop body for one item gives that item's outcome |
| AiExtract.InvalidFormatGivesOneWarning | sdk/python/medlabs_sdk/core/extract/ai.py:73-76 | a `fields` entry that is not a list gives the one warning "Extractor output has invalid fields format" and no field |
| AiExtract.ReportShape | sdk/python/medlabs_sdk/core/extract/ai.py:72-114 | for any payload, fields plus warnings number the items plus the format warning; every field is clean; `meta` has exactly the keys prompt_name and prompt_version; the document is passed through |
| RegexExtract.FirstBreak | sdk/python/medlabs_sdk/core/extract/regex.py:19 | the first line boundary: everything before it is free of boundaries |
| RegexExtract.SplitLines | sdk/python/medlabs_sdk/core/extract/regex.py:19 | `str.splitlines()`: no line holds a boundary |
| RegexExtract.SplitJoinedLines | sdk/python/medlabs_sdk/core/extract/regex.py:19 | boundary-free lines joined by "\n" split back into the same lines when the last is not empty |
| RegexExtract.FirstBreakOfLine | sdk/python/medlabs_sdk/core/extract/regex.py:19 | a string starting with a boundary-free line and then a boundary has its first boundary right after that line |
| RegexExtract.RunEnd | sdk/python/medlabs_sdk/core/extract/regex.py:9-12 | a greedy character-class run: all of its characters are in the class and the next one is not |
| RegexExtract.RunEndExact | sdk/python/medlabs_sdk/core/extract/regex.py:9-12 | any maximal run is the one the scanner takes |
| RegexExtract.RunEndCovers | sdk/python/medlabs_sdk/core/extract/regex.py:9-12 | the greedy run covers any run of the class |
| RegexExtract.ValueEnd | sdk/python/medlabs_sdk/core/extract/regex.py:10 | the value group, the numeral alternative first: a non-empty span |
| RegexExtract.UnitAt | sdk/python/medlabs_sdk/core/extract/regex.py:11 | the optional unit group: when present, a non-empty span after at least one blank |
| RegexExtract.ValueSound | sdk/python/medlabs_sdk/core/extract/regex.py:10 | what the scanner takes as the value is an optionally negative numeral with an optional `.` or `,` fraction, or else a run of letters |
| RegexExtract.ValueComplete | sdk/python/medlabs_sdk/core/extract/regex.py:10-12 | a value followed by a blank, "(" or the end is exactly the one the scanner takes |
| RegexExtract.ValueStartsClean | sdk/python/medlabs_sdk/core/extract/regex.py:9-10 | a value starts with neither a separator nor a blank |
| RegexExtract.ValueEndsClean | sdk/python/medlabs_sdk/core/extract/regex.py:10 | a value ends with a digit or a letter |
| RegexExtract.RefStart | sdk/python/medlabs_sdk/core/extract/regex.py:12 | what follows the unit starts with a blank, "(" or the end |
| RegexExtract.RefSound | sdk/python/medlabs_sdk/core/extract/regex.py:12 | what the scanner takes as the line's end matches `(?:\s*\(([^)]{1,40})\))?\s*$` |
| RegexExtract.RefComplete | sdk/python/medlabs_sdk/core/extract/regex.py:12 | any matching end of line is the one the scanner takes |
| RegexExtract.UnitComplete | sdk/python/medlabs_sdk/core/extract/regex.py:11-12 | a unit part followed by a matching end of line, or its absence, is what the scanner takes |
| RegexExtract.TailSound | sdk/python/medlabs_sdk/core/extract/regex.py:9-12 | what the scanner finds after the name matches the rest of the pattern |
| RegexExtract.TailComplete | sdk/python/medlabs_sdk/core/extract/regex.py:9-12 | after a given name end there is at most one way to match the rest, and the scanner finds it |
| RegexExtract.NameSearch | sdk/python/medlabs_sdk/core/extract/regex.py:9 | backtracking over the name from the longest candidate down to two characters: a found name has 2 characters or more and a matching tail |
| RegexExtract.NameSearchLongest | sdk/python/medlabs_sdk/core/extract/regex.py:9 | the search finds a name at least as long as any with a matching tail, as the greedy `{1,60}` does |
| RegexExtract.MatchLineSound | sdk/python/medlabs_sdk/core/extract/regex.py:8-13 | a match decomposes the line as `_LINE_RE` requires |
| RegexExtract.MatchLineLongest | sdk/python/medlabs_sdk/core/extract/regex.py:8-13 | whenever the line fits the pattern, it matches, with the same leading blanks and a name at least as long |
| RegexExtract.MatchLineSearches | sdk/python/medlabs_sdk/core/extract/regex.py:9 | after the leading blanks and a letter, the match is the name search up to 61 characters on |
| RegexExtract.MatchIff | sdk/python/medlabs_sdk/core/extract/regex.py:20 | `_LINE_RE.match` succeeds exactly when some decomposition fits the pattern |
| RegexExtract.StripKeepsStart | sdk/python/medlabs_sdk/core/extract/regex.py:26 | stripping a string that starts with a non-blank keeps its first character |
| RegexExtract.StrippedName | sdk/python/medlabs_sdk/core/extract/regex.py:9-26 | a stripped name group still starts with its letter, has at most 61 characters, all from the name class |
| RegexExtract.StrippedValue | sdk/python/medlabs_sdk/core/extract/regex.py:10-27 | a value group has no blank at either end, so stripping keeps it |
| RegexExtract.StrippedUnit | sdk/python/medlabs_sdk/core/extract/regex.py:11-28 | a unit group has no blank, so stripping keeps it |
| RegexExtract.StrippedRef | sdk/python/medlabs_sdk/core/extract/regex.py:12-29 | a stripped range group still has at most 40 characters and no ")" |
| RegexExtract.MatchName | sdk/python/medlabs_sdk/core/extract/regex.py:9-26 | `name_raw` starts with an ASCII letter, has at most 61 characters from letters, digits, `_`, `-`, `/` and space, and is trimmed |
| RegexExtract.MatchValue | sdk/python/medlabs_sdk/core/extract/regex.py:10-27 | `value_raw` is the value group itself: an optionally negative decimal with `.` or `,`, or a run of letters |
| RegexExtract.MatchUnit | sdk/python/medlabs_sdk/core/extract/regex.py:11-28 | `unit_raw` is made of unit characters |
| RegexExtract.MatchRef | sdk/python/medlabs_sdk/core/extract/regex.py:12-29 | `ref_raw` has at most 40 characters and no ")" |
| RegexExtract.RefSpanText | sdk/python/medlabs_sdk/core/extract/regex.py:12 | the range group's text has at most 40 characters and no ")" |
| RegexExtract.LineOutcomes | sdk/python/medlabs_sdk/core/extract/regex.py:19-33 | one outcome per line, in order |
| RegexExtract.FieldsOfLines | sdk/python/medlabs_sdk/core/extract/regex.py:18-33 | at most one field per line |
| RegexExtract.FieldOfLineContents | sdk/python/medlabs_sdk/core/extract/regex.py:24-32 | a matching line's field has confidence 0.3, flags "", evidence `{"raw_text": line.strip()}`, and a non-empty name and value |
| RegexExtract.FieldsComeFromLines | sdk/python/medlabs_sdk/core/extract/regex.py:19-33 | every field comes from a matching line |
| RegexExtract.Extract | sdk/python/medlabs_sdk/core/extract/regex.py:17-39 | `extract`: the lines in order, one field per matching line; the warning "Regex extractor could not parse any fields" exactly when no field matched, and no warning otherwise |
| PromptedClient.PromptedLlmClient.ResolvePrompt | sdk/python/medlabs_sdk/providers/prompted_llm_client.py:52-87 | `_resolve_prompt` raises only in strict mode; without a provider it raises "Prompt provider is required but not configured" when strict and returns the fallback otherwise; a raising provider's error is re-raised when strict and replaced by the fallback otherwise; any other prompt is the provider's non-blank answer, verbatim |
| PromptedClient.PromptedLlmClient.ExtractStructured | sdk/python/medlabs_sdk/providers/prompted_llm_client.py:32-50 | a prompt failure is raised before the generator runs; otherwise the generator gets the resolved prompt and the text, schema and temperature unchanged, and its result is returned unchanged |
| PromptedClient.ProviderPromptIsUsed | sdk/python/medlabs_sdk/providers/prompted_llm_client.py:75-87 | a non-blank string from the provider is returned verbatim |
| PromptedClient.BlankPromptFallsBack | sdk/python/medlabs_sdk/providers/prompted_llm_client.py:75-85 | a blank or non-string prompt raises "Prompt provider returned empty prompt" in strict mode and gives the fallback otherwise |
| PromptedClient.LenientNeverRaises | sdk/python/medlabs_sdk/providers/prompted_llm_client.py:52-87 | a non-strict client always obtains a prompt, so its generator is always called |
| PromptedClient.StubProviderPrompt | tests/test_prompted_llm_client.py:7-50 | with a provider answering "prompt:{name}:{version}", "medlabs.extract" "v1" resolves to "prompt:medlabs.extract:v1" in either mode |
| PromptedClient.AsLlmClient | sdk/python/medlabs_sdk/providers/prompted_llm_client.py:32-50 | the client seen as an `LLMClient` answers every request with `extract_structured` of its fields |
| Pipeline.PipelineState.constructor | sdk/python/medlabs_sdk/pipeline.py:44-52 | a fresh state has no stage result and an empty step log |
| Pipeline.BuiltWorkflow | sdk/python/medlabs_sdk/pipeline.py:250-268 | the built graph is a dictionary of four nodes |
| Pipeline.EdgesProblem | sdk/python/medlabs_sdk/pipeline.py:280-284 | no problem exactly when every edge leads to a node; otherwise the message names the target of the first edge that does not |
| Pipeline.NodesProblem | sdk/python/medlabs_sdk/pipeline.py:274-284 | no problem exactly when every listed node is stored under its own name and its edges lead to nodes; otherwise it is the problem of the first listed node that is not sound |
| Pipeline.NodeProblem | sdk/python/medlabs_sdk/pipeline.py:274-284 | one node: a key mismatch when it is stored under another name, else its first dangling edge; none exactly when the node is sound |
| Pipeline.WorkflowProblem | sdk/python/medlabs_sdk/pipeline.py:270-284 | `_assert_workflow_is_valid` raises nothing exactly when the entry exists and every node is sound; a missing entry is reported first |
| Pipeline.EdgesOfMembers | sdk/python/medlabs_sdk/pipeline.py:243-248 | a triple is listed exactly when it describes an edge of a listed node |
| Pipeline.MatchingEdgesExact | sdk/python/medlabs_sdk/pipeline.py:304-308 | the matching edges are exactly the node's edges whose condition holds |
| Pipeline.MatchingEdgesAppend | sdk/python/medlabs_sdk/pipeline.py:304-308 | filtering keeps edge order: the matches of two edge lists in turn are the matches of each, in turn |
| Pipeline.MatchingEdgesCount | sdk/python/medlabs_sdk/pipeline.py:304-317 | no edge matches exactly when none is taken; two or more exactly when two edges are taken; a single match names the one taken edge |
| Pipeline.NoMatchingEdges | sdk/python/medlabs_sdk/pipeline.py:304-310 | no match exactly when no edge is taken |
| Pipeline.TwoMatchingEdges | sdk/python/medlabs_sdk/pipeline.py:304-316 | two or more matches exactly when two edges are taken |
| Pipeline.OneMatchingEdge | sdk/python/medlabs_sdk/pipeline.py:304-317 | one match is the only taken edge |
| Pipeline.ResolveNext | sdk/python/medlabs_sdk/pipeline.py:300-317 | `_resolve_next_node`: no edges, or no taken edge, stops the run; two taken edges raise "matched multiple outgoing edges" with their labels; a single taken edge names its target; an edge without predicate is always taken |
| Pipeline.SingleEdgeIsFollowed | sdk/python/medlabs_sdk/pipeline.py:300-317 | a node whose only edge is unconditional moves on to its target |
| Pipeline.StagesNeedPredecessors | sdk/python/medlabs_sdk/pipeline.py:336-368 | normalize, map and validate raise the source's messages, changing nothing, exactly when their predecessor's result is missing |
| Pipeline.StageLogsOneRecord | sdk/python/medlabs_sdk/pipeline.py:319-383 | a stage that succeeds appends one record under its own name, keeps the log before it, and changes no other stage's result |
| Pipeline.StageSetsItsResult | sdk/python/medlabs_sdk/pipeline.py:326-375 | a stage that succeeds stores what its function computed from its predecessor's result |
| Pipeline.ValidateRecordReflectsResult | sdk/python/medlabs_sdk/pipeline.py:376-383 | the validate record's status is "ok" exactly when `is_valid`, and it counts the errors and the warnings |
| Pipeline.MappedPanelValidates | sdk/python/medlabs_sdk/pipeline.py:371-375 | a mapped payload carries its panel code as a string, so validation never raises and uses that code's schema |
| Pipeline.CodedPanelValidates | sdk/python/medlabs_sdk/pipeline.py:373 | a payload whose `panel_code` object carries a string code is validated under that code |
| Pipeline.PipelineValidatesMapped | sdk/python/medlabs_sdk/pipeline.py:356-375 | in a pipeline, a panel mapped under `panel` is validated under its resolved code and validation never raises on it |
| Pipeline.BuiltWorkflowHandlers | sdk/python/medlabs_sdk/pipeline.py:250-267 | in the built graph, node "extract" runs `_node_extract`, "normalize" runs `_node_normalize`, "map" runs `_node_map` and "validate" runs `_node_validate` |
| Pipeline.NextIsNode | sdk/python/medlabs_sdk/pipeline.py:296-298 | the next node picked in a checked graph is a node of that graph |
| Pipeline.RunFollowsEdges | sdk/python/medlabs_sdk/pipeline.py:286-298 | every run of a checked graph runs at most four handlers per node, starts at the entry, moves only along edges, and ends without error only where no edge is taken |
| Pipeline.RunFromMoves | sdk/python/medlabs_sdk/pipeline.py:291-298 | one step that moves on runs the node and continues from the target of an edge |
| Pipeline.WalkExtends | sdk/python/medlabs_sdk/pipeline.py:291-298 | walking one edge and then on extends a walk by one node |
| Pipeline.ValidateLoop | sdk/python/medlabs_sdk/pipeline.py:270-284 | a one-node graph looping on validate passes the check and allows four handlers |
| Pipeline.LoopHitsStepLimit | sdk/python/medlabs_sdk/pipeline.py:288-294 | on a looping graph the step limit stops the run: the node runs until four handlers have run, and the fifth raises "Workflow execution exceeded safe step limit" |
| Pipeline.BuiltStages | sdk/python/medlabs_sdk/pipeline.py:319-383 | the four states a successful run of the built graph passes through |
| Pipeline.BuiltRunWith | sdk/python/medlabs_sdk/pipeline.py:250-317 | any handlers that succeed in turn run the built graph extract, normalize, map, validate, and stop |
| Pipeline.BuiltNodes | sdk/python/medlabs_sdk/pipeline.py:250-288 | the built nodes one by one, and the step limit 16 |
| Pipeline.ChainRun | sdk/python/medlabs_sdk/pipeline.py:286-317 | a chain of four nodes with one unconditional edge each, but the last, runs to the end when its handlers succeed |
| Pipeline.BuiltRunCompletes | sdk/python/medlabs_sdk/pipeline.py:286-317 | on the built graph, succeeding stages run in order and the run ends without an exception |
| Pipeline.StagesCompute | sdk/python/medlabs_sdk/pipeline.py:319-383 | the four stages store the extraction, its normalisation, the panel mapped from it and that panel's validation, and log in stage order |
| Pipeline.BuiltRunStopsOnExtractionError | sdk/python/medlabs_sdk/pipeline.py:297-326 | an extractor that raises ends the run at the first node with the state unchanged |
| Pipeline.BuiltWorkflowPassesCheck | sdk/python/medlabs_sdk/pipeline.py:250-284 | the built graph passes `_assert_workflow_is_valid` |
| Pipeline.ListedNodesSound | sdk/python/medlabs_sdk/pipeline.py:270-284 | a dictionary holding the entry whose listed nodes are sound is well formed |
| Pipeline.BuiltWorkflowListing | sdk/python/medlabs_sdk/pipeline.py:239-268 | the built graph lists its nodes in stage order and its three "always" edges in that order |
| Pipeline.EdgesOfFour | sdk/python/medlabs_sdk/pipeline.py:245-247 | the edges of a four-node listing, node by node |
| Pipeline.EdgesOfSnoc | sdk/python/medlabs_sdk/pipeline.py:245-247 | one more node appends that node's edges |
| Pipeline.ResultFromState | sdk/python/medlabs_sdk/pipeline.py:385-400 | `_result_from_state` succeeds exactly when all four stage results are set, and then returns them with the document; otherwise it raises "Pipeline did not finish all steps" |
| Pipeline.IngestedRunSucceeds | sdk/python/medlabs_sdk/pipeline.py:178-192 | a readable document whose mapped panel validates finishes with its extraction, normalisation, panel and validation, logged after the ingest record |
| Pipeline.BuiltRunFinishes | sdk/python/medlabs_sdk/pipeline.py:286-400 | a run of the built graph whose stages succeed finishes with what they produced, logged in order |
| Pipeline.IngestedStepNames | sdk/python/medlabs_sdk/pipeline.py:178-190 | the ingest record comes before the four stage records |
| Pipeline.StagesFinish | sdk/python/medlabs_sdk/pipeline.py:385-400 | a run that ends after the four stages succeeded yields their results |
| Pipeline.TextRunLogsEveryStep | sdk/python/medlabs_sdk/pipeline.py:178-192 | a readable text is logged as ingest, extract, normalize, map and validate, in that order |
| Pipeline.PipelineParsesText | sdk/python/medlabs_sdk/pipeline.py:167-192 | `parse_text` of a text the extractor reads returns the extraction, its normalisation, the panel mapped under the panel name and its validation under the panel's own code |
| Pipeline.AssertWorkflowIsValid | sdk/python/medlabs_sdk/pipeline.py:270-284 | raises nothing exactly when the graph is well formed, and otherwise the first problem met |
| Pipeline.CheckedWorkflow | sdk/python/medlabs_sdk/pipeline.py:94-95 | the graph `__init__` builds passes its check |
| Pipeline.MedLabsPipeline.constructor | sdk/python/medlabs_sdk/pipeline.py:70-95 | an extractor at temperature 0, a blank schema directory taken as none, the entry "extract", the built graph, no last state, and a graph that passes the check |
| Pipeline.MedLabsPipeline.WorkflowNodeNames | sdk/python/medlabs_sdk/pipeline.py:238-240 | `list(self._workflow_nodes.keys())`: the dictionary's keys in insertion order, each once, and exactly the nodes |
| Pipeline.MedLabsPipeline.WorkflowEdges | sdk/python/medlabs_sdk/pipeline.py:242-248 | every edge as (source, target, label), node by node; a triple is listed exactly when it describes an edge |
| Pipeline.MedLabsPipeline.RecordStep | sdk/python/medlabs_sdk/pipeline.py:406-426 | `_record_step` appends one record at the end of the log |
| Pipeline.MedLabsPipeline.NodeExtract | sdk/python/medlabs_sdk/pipeline.py:319-334 | `_node_extract` does what the extract step says, and changes nothing when it raises |
| Pipeline.MedLabsPipeline.NodeNormalize | sdk/python/medlabs_sdk/pipeline.py:336-349 | `_node_normalize`, likewise |
| Pipeline.MedLabsPipeline.NodeMap | sdk/python/medlabs_sdk/pipeline.py:351-364 | `_node_map`, likewise |
| Pipeline.MedLabsPipeline.NodeValidate | sdk/python/medlabs_sdk/pipeline.py:366-383 | `_node_validate`, likewise |
| Pipeline.MedLabsPipeline.RunNode | sdk/python/medlabs_sdk/pipeline.py:297 | `node.handler(state)` runs that node's stage |
| Pipeline.MedLabsPipeline.RunProcessingWorkflow | sdk/python/medlabs_sdk/pipeline.py:286-298 | the loop leaves the state `RunFrom` describes and raises exactly its error |
| Pipeline.MedLabsPipeline.Process | sdk/python/medlabs_sdk/pipeline.py:178-192 | after ingest: the workflow's result, with `last_state` set only when the workflow did not raise |
| Pipeline.MedLabsPipeline.ParseText | sdk/python/medlabs_sdk/pipeline.py:167-192 | `parse_text`: the ingest record, then the run, then the result |
| Pipeline.MedLabsPipeline.ParsePdf | sdk/python/medlabs_sdk/pipeline.py:194-236 | `parse_pdf`: an ingest failure is raised again and nothing runs; otherwise as `parse_text` with the PDF's ingest record |
| Pipeline.DistinctCard | sdk/python/medlabs_sdk/pipeline.py:239-240 | a repeat-free listing of a dictionary's keys has one element per key |
| Text.Strip | sdk/python/medlabs_sdk/core/normalize/names.py:9 | `str.strip()`: the result has no whitespace at its ends and is no longer than the text |
| Text.StripIsInfix | sdk/python/medlabs_sdk/core/normalize/names.py:9 | `strip()` removes only whitespace, and only at the two ends: the result is the text's middle, unchanged |
| Text.StripIdempotent | sdk/python/medlabs_sdk/core/normalize/names.py:9 | stripping twice is stripping once |
| Text.StripEmptyIffAllSpace | sdk/python/medlabs_sdk/core/normalize/names.py:9-11 | the stripped text is empty exactly when the text is all whitespace |
| Text.Lower | sdk/python/medlabs_sdk/core/normalize/names.py:9 | `str.lower()` on ASCII: character by character |
| Text.Upper | sdk/python/medlabs_sdk/core/map/to_standard.py:87 | `str.upper()` on ASCII: character by character |
| Text.ReplaceChar | sdk/python/medlabs_sdk/core/normalize/names.py:12 | `str.replace` of one character by another: every occurrence, nothing else |
| Text.TitleFrom | sdk/python/medlabs_sdk/core/map/to_standard.py:174-231 | `str.title()`: as long as the text; every non-letter is kept; a letter is upper-cased when it starts the text or follows a non-letter, and lower-cased when it follows a letter |
| Text.NatToString | sdk/python/medlabs_sdk/core/map/to_standard.py:201 | `str(n)`: decimal digits whose value is n, with no leading zero unless n is 0 |
| Text.NatToString3 | sdk/python/medlabs_sdk/core/map/to_standard.py:201 | `{index:03d}`: `str(index)` padded on the left with zeros to three characters, never cut |
| Text.NatToString3Value | sdk/python/medlabs_sdk/core/map/to_standard.py:201 | the padded digits still read as the index |
| Text.LeadingZerosValue | sdk/python/medlabs_sdk/core/map/to_standard.py:201 | leading zeros do not change a digit string's value |
| Text.IntToString | sdk/python/medlabs_sdk/core/map/to_standard.py:113-114 | `str(i)` of an int: its decimal digits, after a "-" when negative |
| Text.Prefix | sdk/python/medlabs_sdk/core/map/to_standard.py:201-248 | `hex[:n]`: the first n characters, or the whole text when it is shorter |
| JsonValues.PyStr | sdk/python/medlabs_sdk/core/map/to_standard.py:113-114 | `str(x)`: a string unchanged, "None", "True"/"False", the decimal digits of an int; floats and containers as the `show` parameter renders them |
| JsonValues.PyEq | sdk/python/medlabs_sdk/core/validate/rules.py:70-82 | Python `==` on JSON values: numbers and booleans by value, lists item by item, dicts key by key, anything else structurally |
| JsonValues.PyEqReflexive | sdk/python/medlabs_sdk/core/validate/rules.py:70-82 | every value equals itself |
| JsonValues.PyEqSymmetric | sdk/python/medlabs_sdk/core/validate/rules.py:70-82 | `==` is symmetric |
| JsonValues.ContainersCompareNumbersByValue | sdk/python/medlabs_sdk/core/validate/rules.py:70-82 | `[1] == [1.0]` and `{"u": True} == {"u": 1}`, but lists of different lengths differ |

## Where the code and its tests or description disagree

The model follows the code in each case:

- `to_standard.py` imports `unit_display` from `core/normalize/units.py`, which does not define it. The model takes `unit_display` as a parameter (`MapEnv.unitDisplay`) and states nothing about its result.
- `tests/test_normalize.py:25` expects the unit "x10^9/L" to come out as "10*9/L". `normalize_unit` has no such alias and returns "x10^9/L" unchanged, which is what `Normalize.WbcField` and `Units.LongUnitKept` state.
- The code has no panel filtering and no unit-based leukocyte/erythrocyte disambiguation: `to_standard_panel` maps every observation (`ToStandard.PayloadsOf`). The model has none either.

## Left out

- Document ingestion (`core/ingest/*`): reading PDFs and files. `parse_pdf` takes what the PDF ingestor returned or raised as a parameter. The text ingestor's document (the text, source "inline-text", no pages) is written out as `Pipeline.TextDocument`.
- Network and telemetry providers, `config.py`, the `from_env`/`from_settings` factories, the pydantic models and the CLI scripts are not part of this model: they are transport, configuration and wiring.
- Logging, tracer spans and `perf_counter` in `pipeline.py` and the logged warnings of `_resolve_prompt` are not modelled. Step durations come from a parameter (`Context.elapsed`).
- The JSON-Schema engine and the reading of schema files (`jsonschema.py:30-48`) are a parameter, `SchemaValidation.SchemaEngine`. It returns the violations or a failure message. The default schema directory is represented as `None`, not as a filesystem path.
- `uuid4().hex` suffixes, today's date, `unit_display`, `float()` of a string and `str()` of floats and containers are parameters.
- AiExtract.ConfidenceOf: `float()` of an int of 2**1024 or more raises `OverflowError`, which `_float_0_1` (`core/extract/ai.py:41-46`) does not catch, so `extract` raises; the model clamps such a number to 1.0 instead.
- Numbers are exact reals, so float rounding, NaN and infinities are not modelled. `AiExtract.ConfidenceOf`'s clamp is exact. Python's float syntax for `float(s)` is left to the `FloatText` parameter.
- Strings are sequences of characters. Whitespace for `\s` and `strip()` is Python's full Unicode whitespace set (`Text.IsSpace`). Case mapping for `lower()`, `upper()` and `title()` and the digits of `\d` are ASCII only: Unicode case rules and non-ASCII digits are not modelled.
- Dictionary insertion order is not modelled for payload dictionaries (`map`). It is modelled for the workflow graph, whose node names and edges are reported in order (`Pipeline.Workflow.keys`).
- SchemaValidation.PartLess: when two violation locations first differ where one has a list index and the other a dictionary key, Python's sort would raise `TypeError`. The model orders the index first. Within one payload the parts at the same depth after an equal prefix are both indices or both keys, so this order is never used on real engine output.
- RegexExtract: the name group's backtracking is modelled exactly (longest name first). The other groups are scanned greedily, which the lemmas prove loses no match.
- Pipeline: the stage methods call the extractor, `normalize`, `to_standard_panel` and `validate_jsonschema` through a record of functions (`Pipeline.Context`). `Pipeline.StagesFor` wires them to the modelled functions, and the constructor stores exactly that record. Node handlers are the four stages, not arbitrary callables; edge predicates are arbitrary functions of the state.
- `PipelineStepState.attrs` of the stage records is empty, as in the source. The ingest record's attributes are modelled; the logger's copy of each record is not.
- `Pipeline.ParsePdf` does not model the error log line written before an ingest failure is raised again.
