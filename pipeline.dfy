/** The processing pipeline (pipeline.py): a small workflow graph whose nodes run the
    extract, normalize, map and validate stages on a mutable `PipelineState`, a check of
    the graph made once at construction, and a run loop bounded by four steps per node.
    Timing, logging and tracer spans are not modelled; the duration of each step comes in
    with the other collaborators. */
module Pipeline {
  import opened Wrappers
  import opened Text
  import opened JsonValues
  import opened Models
  import opened Contracts
  import AiExtract
  import Normalize
  import ToStandard
  import Rules
  import SchemaValidation

  // ------------------------------------------------------------------ state

  /** `PipelineStepState`: one entry of the step log. */
  datatype StepRecord = StepRecord(
    pipelineStep: string,
    durationMs: nat,
    status: string,
    warningCount: nat,
    errorCount: nat,
    attrs: map<string, Json>)

  /** The fields of a `PipelineState` at one moment. Edge predicates look at this. */
  datatype StateView = StateView(
    panel: string,
    document: RawDocument,
    extracted: Option<ExtractedReport>,
    normalized: Option<NormalizedReport>,
    mapped: Option<StandardPanel>,
    validation: Option<ValidationResult>,
    steps: seq<StepRecord>)

  /** `PipelineState`: the stage handlers fill its fields and append to its log. */
  class PipelineState {
    var panel: string
    var document: RawDocument
    var extracted: Option<ExtractedReport>
    var normalized: Option<NormalizedReport>
    var mapped: Option<StandardPanel>
    var validation: Option<ValidationResult>
    var steps: seq<StepRecord>

    function View(): StateView
      reads this
    {
      StateView(panel, document, extracted, normalized, mapped, validation, steps)
    }

    /** A fresh state: no stage has produced anything and the log is empty. */
    constructor(panel: string, document: RawDocument)
      ensures View() == StateView(panel, document, None, None, None, None, [])
    {
      this.panel := panel;
      this.document := document;
      extracted := None;
      normalized := None;
      mapped := None;
      validation := None;
      steps := [];
    }
  }

  /** The names of the logged steps, in order. */
  function StepNames(steps: seq<StepRecord>): seq<string> {
    seq(|steps|, i requires 0 <= i < |steps| => steps[i].pipelineStep)
  }

  /** The state with one more record at the end of its log. */
  function Logged(s: StateView, record: StepRecord): StateView {
    s.(steps := s.steps + [record])
  }

  // ------------------------------------------------------------------ graph

  /** `PipelineEdgePredicate`. */
  type EdgePredicate = StateView -> bool

  /** `PipelineEdge`; an edge without a predicate is always taken. */
  datatype Edge = Edge(target: string, edgeLabel: string, condition: Option<EdgePredicate>)

  /** An edge with the default label "always" and no predicate. */
  function Always(target: string): Edge {
    Edge(target, "always", None)
  }

  /** The handlers a node can run: the pipeline's four stage methods. */
  datatype Stage = ExtractStage | NormalizeStage | MapStage | ValidateStage

  /** `PipelineNode`. */
  datatype Node = Node(name: string, handler: Stage, edges: seq<Edge>)

  /** The `_workflow_nodes` dictionary: its keys in insertion order, and its entries. */
  datatype Workflow = Workflow(keys: seq<string>, nodes: map<string, Node>)

  /** What every Python dictionary is: each key once, and exactly the keys of the entries. */
  predicate IsDict(w: Workflow) {
    && (forall i, j :: 0 <= i < j < |w.keys| ==> w.keys[i] != w.keys[j])
    && (forall k :: k in w.nodes ==> k in w.keys)
    && (forall k :: k in w.keys ==> k in w.nodes)
  }

  /** `_build_workflow_nodes`: extract, normalize, map, validate, in a line. */
  function BuiltWorkflow(): (w: Workflow)
    ensures IsDict(w) && |w.nodes| == 4
  {
    var w := Workflow(["extract", "normalize", "map", "validate"], map[
      "extract" := Node("extract", ExtractStage, [Always("normalize")]),
      "normalize" := Node("normalize", NormalizeStage, [Always("map")]),
      "map" := Node("map", MapStage, [Always("validate")]),
      "validate" := Node("validate", ValidateStage, [])]);
    assert w.nodes.Keys == {"extract", "normalize", "map", "validate"};
    w
  }

  function UnknownEntry(entry: string): string {
    "Unknown workflow entry node: " + entry
  }

  function KeyMismatch(key: string, name: string): string {
    "Workflow node key mismatch: key='" + key + "', node.name='" + name + "'"
  }

  function DanglingEdge(target: string): string {
    "Workflow edge target '" + target + "' does not exist"
  }

  /** A node stored under its own name whose edges all lead to nodes of the graph. */
  predicate NodeSound(w: Workflow, key: string)
    requires key in w.nodes
  {
    && w.nodes[key].name == key
    && forall i :: 0 <= i < |w.nodes[key].edges| ==> w.nodes[key].edges[i].target in w.nodes
  }

  /** A graph the run loop can follow: the entry exists, and every node is sound. */
  predicate WellFormed(entry: string, w: Workflow) {
    && entry in w.nodes
    && forall k :: k in w.nodes ==> NodeSound(w, k)
  }

  /** A dictionary that passes `_assert_workflow_is_valid` from `entry`, and whose edges
      therefore stay inside it. */
  predicate CheckedGraph(entry: string, w: Workflow) {
    IsDict(w) && WellFormed(entry, w) && EdgesClosed(w)
  }

  /** Every edge of the graph leads to a node of the graph. */
  predicate EdgesClosed(w: Workflow) {
    forall k, i :: k in w.nodes && 0 <= i < |w.nodes[k].edges| ==> w.nodes[k].edges[i].target in w.nodes
  }

  /** The first edge, in order, whose target is not a node. */
  function EdgesProblem(w: Workflow, edges: seq<Edge>): (r: Option<string>)
    ensures r.None? <==> forall i :: 0 <= i < |edges| ==> edges[i].target in w.nodes
    ensures r.Some? ==> exists i :: FirstDangling(w, edges, i) && r.value == DanglingEdge(edges[i].target)
  {
    if edges == [] then None
    else if edges[0].target !in w.nodes then
      assert FirstDangling(w, edges, 0);
      Some(DanglingEdge(edges[0].target))
    else
      var rest := EdgesProblem(w, edges[1..]);
      assert forall i :: 1 <= i < |edges| ==> edges[i] == edges[1..][i - 1];
      if rest.Some? then
        var i :| FirstDangling(w, edges[1..], i) && rest.value == DanglingEdge(edges[1..][i].target);
        assert FirstDangling(w, edges, i + 1);
        rest
      else rest
  }

  /** The edge at `i` leads nowhere, and every edge before it leads to a node. */
  predicate FirstDangling(w: Workflow, edges: seq<Edge>, i: int) {
    && 0 <= i < |edges| && edges[i].target !in w.nodes
    && forall j :: 0 <= j < i ==> edges[j].target in w.nodes
  }

  /** The first problem met walking the nodes under `keys` in order: a node stored under
      another name, or else the first of its edges leading nowhere. */
  function NodesProblem(w: Workflow, keys: seq<string>): (r: Option<string>)
    requires forall k :: k in keys ==> k in w.nodes
    ensures r.None? <==> forall k :: k in keys ==> NodeSound(w, k)
    ensures r.Some? ==> exists n :: FirstUnsound(w, keys, n) && r == NodeProblem(w, keys[n])
  {
    if keys == [] then None
    else
      var node := w.nodes[keys[0]];
      if keys[0] != node.name then
        assert FirstUnsound(w, keys, 0);
        Some(KeyMismatch(keys[0], node.name))
      else
        var edges := EdgesProblem(w, node.edges);
        if edges.Some? then
          assert FirstUnsound(w, keys, 0);
          edges
        else
          var rest := NodesProblem(w, keys[1..]);
          assert forall k :: k in keys ==> k == keys[0] || k in keys[1..];
          if rest.Some? then
            var n :| FirstUnsound(w, keys[1..], n) && rest == NodeProblem(w, keys[1..][n]);
            assert FirstUnsound(w, keys, n + 1);
            rest
          else rest
  }

  /** The node under `keys[n]` is not sound, and every node listed before it is. */
  predicate FirstUnsound(w: Workflow, keys: seq<string>, n: int)
    requires forall k :: k in keys ==> k in w.nodes
  {
    && 0 <= n < |keys| && !NodeSound(w, keys[n])
    && forall m :: 0 <= m < n ==> NodeSound(w, keys[m])
  }

  /** What is wrong with one node: its key and name differ, or else an edge leads nowhere. */
  function NodeProblem(w: Workflow, key: string): (r: Option<string>)
    requires key in w.nodes
    ensures r.None? <==> NodeSound(w, key)
  {
    if key != w.nodes[key].name then Some(KeyMismatch(key, w.nodes[key].name))
    else EdgesProblem(w, w.nodes[key].edges)
  }

  /** The message of the `RuntimeError` that `_assert_workflow_is_valid` raises, if any.
      A missing entry node is reported first. */
  function WorkflowProblem(entry: string, w: Workflow): (r: Option<string>)
    requires IsDict(w)
    ensures r.None? <==> WellFormed(entry, w)
    ensures entry !in w.nodes ==> r == Some(UnknownEntry(entry))
  {
    if entry !in w.nodes then Some(UnknownEntry(entry)) else NodesProblem(w, w.keys)
  }

  /** The `(source, target, label)` triples of one node's edges. */
  function EdgeTriples(source: string, edges: seq<Edge>): seq<(string, string, string)> {
    seq(|edges|, k requires 0 <= k < |edges| => (source, edges[k].target, edges[k].edgeLabel))
  }

  /** The triples of the nodes under `keys`, node by node and edge by edge. */
  function EdgesOf(w: Workflow, keys: seq<string>): seq<(string, string, string)>
    requires forall k :: k in keys ==> k in w.nodes
  {
    if keys == [] then []
    else EdgesOf(w, keys[..|keys| - 1]) + EdgeTriples(keys[|keys| - 1], w.nodes[keys[|keys| - 1]].edges)
  }

  /** The triple describes an edge of the node stored under its source. */
  predicate DescribesEdge(w: Workflow, t: (string, string, string)) {
    t.0 in w.nodes && exists i :: 0 <= i < |w.nodes[t.0].edges| && EdgeTriples(t.0, w.nodes[t.0].edges)[i] == t
  }

  /** A triple is listed exactly when it describes an edge of a listed node. */
  lemma {:induction false} EdgesOfMembers(w: Workflow, keys: seq<string>, t: (string, string, string))
    requires forall k :: k in keys ==> k in w.nodes
    ensures t in EdgesOf(w, keys) <==> t.0 in keys && DescribesEdge(w, t)
  {
    if keys != [] {
      var init := keys[..|keys| - 1];
      var last := keys[|keys| - 1];
      EdgesOfMembers(w, init, t);
      assert forall k :: k in keys <==> k in init || k == last;
      var triples := EdgeTriples(last, w.nodes[last].edges);
      if t in triples {
        var i :| 0 <= i < |triples| && triples[i] == t;
        assert DescribesEdge(w, t);
      }
    }
  }

  // ------------------------------------------------------------------ next node

  /** An edge is taken when it has no predicate or its predicate holds. */
  predicate Matches(e: Edge, s: StateView) {
    e.condition.None? || e.condition.value(s)
  }

  /** The edge at `i` is taken and no other is. */
  predicate OnlyMatch(edges: seq<Edge>, s: StateView, i: int) {
    && 0 <= i < |edges|
    && Matches(edges[i], s)
    && forall j :: 0 <= j < |edges| && j != i ==> !Matches(edges[j], s)
  }

  /** The `matching_edges` list of `_resolve_next_node`. */
  function MatchingEdges(edges: seq<Edge>, s: StateView): (r: seq<Edge>)
    ensures |r| <= |edges|
  {
    if edges == [] then []
    else (if Matches(edges[0], s) then [edges[0]] else []) + MatchingEdges(edges[1..], s)
  }

  /** The matching edges are edges of the node that are taken, and every taken edge is
      among them. */
  lemma {:induction false} MatchingEdgesExact(edges: seq<Edge>, s: StateView)
    ensures var r := MatchingEdges(edges, s);
      && (forall k :: 0 <= k < |r| ==> r[k] in edges && Matches(r[k], s))
      && (forall i :: 0 <= i < |edges| && Matches(edges[i], s) ==> edges[i] in r)
  {
    if edges != [] {
      var head := if Matches(edges[0], s) then [edges[0]] else [];
      var rest := MatchingEdges(edges[1..], s);
      MatchingEdgesExact(edges[1..], s);
      assert MatchingEdges(edges, s) == head + rest;
      assert forall e :: e in edges[1..] ==> e in edges;
      assert forall i :: 1 <= i < |edges| ==> edges[i] == edges[1..][i - 1];
      forall k | 0 <= k < |head + rest|
        ensures (head + rest)[k] in edges && Matches((head + rest)[k], s)
      {
        if k >= |head| {
          assert (head + rest)[k] == rest[k - |head|];
        }
      }
    }
  }

  /** The filter keeps the order of the edges: the matches of two edge lists, one after the
      other, are the matches of the first followed by those of the second. */
  lemma {:induction false} MatchingEdgesAppend(a: seq<Edge>, b: seq<Edge>, s: StateView)
    ensures MatchingEdges(a + b, s) == MatchingEdges(a, s) + MatchingEdges(b, s)
    decreases |a|
  {
    if a == [] {
      assert a + b == b;
    } else {
      assert (a + b)[0] == a[0] && (a + b)[1..] == a[1..] + b;
      MatchingEdgesAppend(a[1..], b, s);
    }
  }

  /** How many edges match: none exactly when no edge is taken, two or more exactly when
      two edges are, and one when a single edge is taken alone. */
  lemma MatchingEdgesCount(edges: seq<Edge>, s: StateView)
    ensures MatchingEdges(edges, s) == [] <==> forall i :: 0 <= i < |edges| ==> !Matches(edges[i], s)
    ensures |MatchingEdges(edges, s)| >= 2 <==>
      exists i, j :: 0 <= i < j < |edges| && Matches(edges[i], s) && Matches(edges[j], s)
    ensures |MatchingEdges(edges, s)| == 1 ==>
      exists i :: OnlyMatch(edges, s, i) && MatchingEdges(edges, s)[0].target == edges[i].target
  {
    NoMatchingEdges(edges, s);
    TwoMatchingEdges(edges, s);
    OneMatchingEdge(edges, s);
  }

  lemma {:induction false} NoMatchingEdges(edges: seq<Edge>, s: StateView)
    ensures MatchingEdges(edges, s) == [] <==> forall i :: 0 <= i < |edges| ==> !Matches(edges[i], s)
  {
    if edges != [] {
      var tail := edges[1..];
      NoMatchingEdges(tail, s);
      assert forall i :: 1 <= i < |edges| ==> edges[i] == tail[i - 1];
      if MatchingEdges(tail, s) != [] {
        var k :| 0 <= k < |tail| && Matches(tail[k], s);
        assert Matches(edges[k + 1], s);
      }
    }
  }

  lemma {:induction false} TwoMatchingEdges(edges: seq<Edge>, s: StateView)
    ensures |MatchingEdges(edges, s)| >= 2 <==>
      exists i, j :: 0 <= i < j < |edges| && Matches(edges[i], s) && Matches(edges[j], s)
  {
    if edges != [] {
      var tail := edges[1..];
      NoMatchingEdges(tail, s);
      TwoMatchingEdges(tail, s);
      var m := MatchingEdges(tail, s);
      assert forall i :: 1 <= i < |edges| ==> edges[i] == tail[i - 1];
      if m != [] {
        var k :| 0 <= k < |tail| && Matches(tail[k], s);
        assert Matches(edges[k + 1], s);
      }
      if exists i, j :: 0 <= i < j < |edges| && Matches(edges[i], s) && Matches(edges[j], s) {
        var i, j :| 0 <= i < j < |edges| && Matches(edges[i], s) && Matches(edges[j], s);
        assert Matches(tail[j - 1], s);
        if i > 0 {
          assert Matches(tail[i - 1], s);
        }
      }
      if |m| >= 2 {
        var i, j :| 0 <= i < j < |tail| && Matches(tail[i], s) && Matches(tail[j], s);
        assert Matches(edges[i + 1], s) && Matches(edges[j + 1], s);
      }
    }
  }

  lemma {:induction false} OneMatchingEdge(edges: seq<Edge>, s: StateView)
    ensures |MatchingEdges(edges, s)| == 1 ==>
      exists i :: OnlyMatch(edges, s, i) && MatchingEdges(edges, s)[0].target == edges[i].target
  {
    if edges != [] {
      var tail := edges[1..];
      NoMatchingEdges(tail, s);
      OneMatchingEdge(tail, s);
      var m := MatchingEdges(tail, s);
      assert forall i :: 1 <= i < |edges| ==> edges[i] == tail[i - 1];
      if Matches(edges[0], s) && m == [] {
        assert OnlyMatch(edges, s, 0);
      }
      if !Matches(edges[0], s) && |m| == 1 {
        var i :| OnlyMatch(tail, s, i) && m[0].target == tail[i].target;
        assert OnlyMatch(edges, s, i + 1);
      }
    }
  }

  /** The labels of some edges, in order. */
  function Labels(edges: seq<Edge>): seq<string> {
    seq(|edges|, k requires 0 <= k < |edges| => edges[k].edgeLabel)
  }

  function MultipleEdges(name: string, labels: seq<string>): string {
    "Workflow node '" + name + "' matched multiple outgoing edges: " + Join(", ", labels)
  }

  /** `_resolve_next_node`: no edge taken stops the run, two taken edges raise, and a single
      taken edge names the next node. */
  function ResolveNext(node: Node, s: StateView): (r: Result<Option<string>, Exception>)
    ensures r == Ok(None) <==> forall i :: 0 <= i < |node.edges| ==> !Matches(node.edges[i], s)
    ensures r.Err? <==> exists i, j :: 0 <= i < j < |node.edges| && Matches(node.edges[i], s) && Matches(node.edges[j], s)
    ensures r.Err? ==> r.error == RuntimeError(MultipleEdges(node.name, Labels(MatchingEdges(node.edges, s))))
    ensures r.Ok? && r.value.Some? ==>
      exists i :: OnlyMatch(node.edges, s, i) && node.edges[i].target == r.value.value
  {
    MatchingEdgesCount(node.edges, s);
    if node.edges == [] then Ok(None)
    else
      var matching := MatchingEdges(node.edges, s);
      if matching == [] then Ok(None)
      else if |matching| > 1 then Err(RuntimeError(MultipleEdges(node.name, Labels(matching))))
      else Ok(Some(matching[0].target))
  }

  /** A node whose only edge is unconditional always moves on to that edge's target. */
  lemma SingleEdgeIsFollowed(node: Node, s: StateView)
    requires |node.edges| == 1 && node.edges[0].condition.None?
    ensures ResolveNext(node, s) == Ok(Some(node.edges[0].target))
  {
    var r := ResolveNext(node, s);
    assert Matches(node.edges[0], s);
    if r.Ok? && r.value.Some? {
      var i :| OnlyMatch(node.edges, s, i) && node.edges[i].target == r.value.value;
    }
  }

  // ------------------------------------------------------------------ stages

  /** What the stage handlers call besides the state: the extractor's `extract`,
      `normalize`, `to_standard_panel` and the payload validation, and the measured duration
      of each step in milliseconds. `StagesFor` gives the ones a `MedLabsPipeline` calls. */
  datatype Context = Context(
    extract: RawDocument -> Result<ExtractedReport, Exception>,
    normalize: ExtractedReport -> NormalizedReport,
    mapPanel: (NormalizedReport, string) -> StandardPanel,
    validate: map<string, Json> -> Result<ValidationResult, Exception>,
    elapsed: string -> nat)

  const MissingExtracted := "Pipeline state is missing extracted report"
  const MissingNormalized := "Pipeline state is missing normalized report"
  const MissingMapped := "Pipeline state is missing mapped panel"
  const Unfinished := "Pipeline did not finish all steps"
  const StepLimitExceeded := "Workflow execution exceeded safe step limit"

  /** The default `standard_version` of `to_standard_panel`. */
  const DefaultStandardVersion := "0.1"

  /** A record of a stage that produced something, timed by `elapsed`. */
  function StageRecord(ctx: Context, step: string, status: string, warnings: nat, errors: nat): StepRecord {
    StepRecord(step, ctx.elapsed(step), status, warnings, errors, map[])
  }

  /** What `AIExtractor.extract` returns for a document, or raises. */
  function ExtractionOf(client: LlmClient, extractor: AiExtract.AiExtractor, conv: AiExtract.Conversions,
                        document: RawDocument): Result<ExtractedReport, Exception> {
    var response := client(extractor.RequestFor(document));
    if response.Err? then Err(response.error) else Ok(extractor.ReportOf(document, response.value, conv))
  }

  /** What `normalize` returns for a report. */
  function NormalizationOf(report: ExtractedReport): NormalizedReport {
    NormalizedReport(report.document, Normalize.ObservationsOf(report.fields),
      report.warnings + Normalize.WarningsOfFields(report.fields), report.meta)
  }

  /** The name of a value's Python type, as attribute errors print it. */
  function TypeName(j: Json): string {
    match j
    case Null => "NoneType"
    case Bool(_) => "bool"
    case Int(_) => "int"
    case Num(_) => "float"
    case Str(_) => "str"
    case Arr(_) => "list"
    case Obj(_) => "dict"
  }

  /** The validation of a mapped panel's payload under the code found at
      `data["panel_code"]["code"]`. A `panel_code` entry that is not a dictionary makes
      `.get` raise; a code that is neither a string nor `None` makes the schema lookup
      fail inside the validator, which reports it as a schema issue. */
  function ValidationOf(data: map<string, Json>, schemaDir: Option<string>, engine: SchemaValidation.SchemaEngine)
    : Result<ValidationResult, Exception>
  {
    var panelCode := GetOr(data, "panel_code", Obj(map[]));
    if !panelCode.Obj? then Err(Exception("AttributeError", "'" + TypeName(panelCode) + "' object has no attribute 'get'"))
    else
      var code := Get(panelCode.fields, "code");
      if code.Null? then Ok(SchemaValidation.JsonschemaResult(data, None, None, schemaDir, engine))
      else if code.Str? then Ok(SchemaValidation.JsonschemaResult(data, None, Some(code.s), schemaDir, engine))
      else
        var issues := [SchemaValidation.FailedToRun("'" + TypeName(code) + "' object has no attribute 'strip'")]
                      + Rules.RulesResult(data).issues;
        Ok(ValidationResult(ErrorsOf(issues) == [], issues))
  }

  /** The collaborators other than `PipelineState` a `MedLabsPipeline` works with. */
  datatype Environment = Environment(
    conv: AiExtract.Conversions,
    mapEnv: ToStandard.MapEnv,
    engine: SchemaValidation.SchemaEngine,
    elapsed: string -> nat)

  /** The calls the stage methods of a `MedLabsPipeline` make. */
  function StagesFor(client: LlmClient, extractor: AiExtract.AiExtractor, schemaDir: Option<string>,
                     env: Environment): Context
  {
    Context(
      document => ExtractionOf(client, extractor, env.conv, document),
      NormalizationOf,
      (report, panel) => ToStandard.StandardPanelOf(report, panel, DefaultStandardVersion, env.mapEnv),
      data => ValidationOf(data, schemaDir, env.engine),
      env.elapsed)
  }

  /** `_node_extract`. */
  function ExtractStep(ctx: Context, s: StateView): Result<StateView, Exception> {
    var extracted := ctx.extract(s.document);
    if extracted.Err? then Err(extracted.error)
    else Ok(Logged(s.(extracted := Some(extracted.value)),
                   StageRecord(ctx, "extract", "ok", |extracted.value.warnings|, 0)))
  }

  /** `_node_normalize`. */
  function NormalizeStep(ctx: Context, s: StateView): Result<StateView, Exception> {
    if s.extracted.None? then Err(RuntimeError(MissingExtracted))
    else
      var normalized := ctx.normalize(s.extracted.value);
      Ok(Logged(s.(normalized := Some(normalized)), StageRecord(ctx, "normalize", "ok", |normalized.warnings|, 0)))
  }

  /** `_node_map`. */
  function MapStep(ctx: Context, s: StateView): Result<StateView, Exception> {
    if s.normalized.None? then Err(RuntimeError(MissingNormalized))
    else
      var mapped := ctx.mapPanel(s.normalized.value, s.panel);
      Ok(Logged(s.(mapped := Some(mapped)), StageRecord(ctx, "map", "ok", |mapped.warnings|, 0)))
  }

  /** `_node_validate`. */
  function ValidateStep(ctx: Context, s: StateView): Result<StateView, Exception> {
    if s.mapped.None? then Err(RuntimeError(MissingMapped))
    else
      var validation := ctx.validate(s.mapped.value.data);
      if validation.Err? then Err(validation.error)
      else
        var v := validation.value;
        Ok(Logged(s.(validation := Some(v)),
                  StageRecord(ctx, "validate", if v.isValid then "ok" else "error", |v.Warnings()|, |v.Errors()|)))
  }

  /** The handler a node runs. A handler that raises has changed nothing. */
  function StageStep(stage: Stage, ctx: Context, s: StateView): Result<StateView, Exception> {
    match stage
    case ExtractStage => ExtractStep(ctx, s)
    case NormalizeStage => NormalizeStep(ctx, s)
    case MapStage => MapStep(ctx, s)
    case ValidateStage => ValidateStep(ctx, s)
  }

  /** A handler's outcome as the model's methods report it. */
  function AsStep(raised: Option<Exception>, s: StateView): Result<StateView, Exception> {
    if raised.Some? then Err(raised.value) else Ok(s)
  }

  /** A stage whose predecessor has not produced its result raises and changes nothing;
      one whose predecessor has produced it never raises on that account. */
  lemma StagesNeedPredecessors(ctx: Context, s: StateView)
    ensures NormalizeStep(ctx, s).Err? <==> s.extracted.None?
    ensures s.extracted.None? ==> NormalizeStep(ctx, s) == Err(RuntimeError(MissingExtracted))
    ensures MapStep(ctx, s).Err? <==> s.normalized.None?
    ensures s.normalized.None? ==> MapStep(ctx, s) == Err(RuntimeError(MissingNormalized))
    ensures s.mapped.None? ==> ValidateStep(ctx, s) == Err(RuntimeError(MissingMapped))
  {}

  /** Each stage that succeeds sets its own result, keeps the others, and logs one record
      under its own name. */
  lemma StageLogsOneRecord(stage: Stage, ctx: Context, s: StateView)
    requires StageStep(stage, ctx, s).Ok?
    ensures var t := StageStep(stage, ctx, s).value;
      && t.panel == s.panel && t.document == s.document
      && |t.steps| == |s.steps| + 1 && t.steps[..|s.steps|] == s.steps
      && StepNames(t.steps) == StepNames(s.steps) + [StageName(stage)]
      && (stage != ExtractStage ==> t.extracted == s.extracted)
      && (stage != NormalizeStage ==> t.normalized == s.normalized)
      && (stage != MapStage ==> t.mapped == s.mapped)
      && (stage != ValidateStage ==> t.validation == s.validation)
  {
    var t := StageStep(stage, ctx, s).value;
    assert t.steps[..|s.steps|] == s.steps;
    assert StepNames(t.steps) == StepNames(s.steps) + [StageName(stage)];
  }

  /** What each stage that succeeds stores: the extracted report, its normalisation, the
      panel mapped from it under the state's panel, and the validation of that panel's
      payload. */
  lemma StageSetsItsResult(stage: Stage, ctx: Context, s: StateView)
    requires StageStep(stage, ctx, s).Ok?
    ensures var t := StageStep(stage, ctx, s).value;
      && (stage == ExtractStage ==>
            ctx.extract(s.document).Ok? && t.extracted == Some(ctx.extract(s.document).value))
      && (stage == NormalizeStage ==>
            s.extracted.Some? && t.normalized == Some(ctx.normalize(s.extracted.value)))
      && (stage == MapStage ==>
            s.normalized.Some? && t.mapped == Some(ctx.mapPanel(s.normalized.value, s.panel)))
      && (stage == ValidateStage ==>
            s.mapped.Some? && ctx.validate(s.mapped.value.data).Ok? &&
            t.validation == Some(ctx.validate(s.mapped.value.data).value))
  {}

  /** The name a stage logs under. */
  function StageName(stage: Stage): string {
    match stage
    case ExtractStage => "extract"
    case NormalizeStage => "normalize"
    case MapStage => "map"
    case ValidateStage => "validate"
  }

  /** The validate step is logged "ok" exactly when the payload is valid, and counts the
      validation's errors and warnings. */
  lemma ValidateRecordReflectsResult(ctx: Context, s: StateView)
    requires ValidateStep(ctx, s).Ok?
    ensures var t := ValidateStep(ctx, s).value;
      var record := t.steps[|t.steps| - 1];
      && t.validation.Some?
      && (record.status == "ok" <==> t.validation.value.isValid)
      && record.errorCount == |t.validation.value.Errors()|
      && record.warningCount == |t.validation.value.Warnings()|
  {}

  /** A payload built by `to_standard_panel` always carries its panel code as a string, so
      validating it never raises and looks up the schema of that code. */
  lemma MappedPanelValidates(report: NormalizedReport, panel: string, env: ToStandard.MapEnv,
                             schemaDir: Option<string>, engine: SchemaValidation.SchemaEngine)
    ensures var data := ToStandard.StandardPanelOf(report, panel, DefaultStandardVersion, env).data;
      ValidationOf(data, schemaDir, engine) == Ok(SchemaValidation.JsonschemaResult(data, None,
        Some(ToStandard.NormalizePanelCode(panel)), schemaDir, engine))
  {
    var data := ToStandard.StandardPanelOf(report, panel, DefaultStandardVersion, env).data;
    var code := ToStandard.NormalizePanelCode(panel);
    ToStandard.PanelContents(report, panel, DefaultStandardVersion, env);
    CodedPanelValidates(data, code, ToStandard.PanelDisplay(code), schemaDir, engine);
  }

  /** A payload whose `panel_code` object carries a string code is validated under that code. */
  lemma CodedPanelValidates(data: map<string, Json>, code: string, display: string,
                            schemaDir: Option<string>, engine: SchemaValidation.SchemaEngine)
    requires "panel_code" in data
    requires data["panel_code"] == Obj(map["system" := Str("MEDLABS-PANEL"), "code" := Str(code), "display" := Str(display)])
    ensures ValidationOf(data, schemaDir, engine) == Ok(SchemaValidation.JsonschemaResult(data, None, Some(code), schemaDir, engine))
  {}

  /** Validation never raises on a panel mapped under `panel`. */
  ghost predicate ValidatesMapped(ctx: Context, panel: string) {
    forall report :: ctx.validate(ctx.mapPanel(report, panel).data).Ok?
  }

  /** In a `MedLabsPipeline`, a mapped panel is validated under its own panel code, and so
      validation never raises on it. */
  lemma PipelineValidatesMapped(client: LlmClient, extractor: AiExtract.AiExtractor, schemaDir: Option<string>,
                                env: Environment, panel: string)
    ensures var ctx := StagesFor(client, extractor, schemaDir, env);
      && ValidatesMapped(ctx, panel)
      && forall report :: ctx.validate(ctx.mapPanel(report, panel).data)
           == Ok(SchemaValidation.JsonschemaResult(ctx.mapPanel(report, panel).data, None,
                   Some(ToStandard.NormalizePanelCode(panel)), schemaDir, env.engine))
  {
    forall report: NormalizedReport {
      MappedPanelValidates(report, panel, env.mapEnv, schemaDir, env.engine);
    }
  }

  // ------------------------------------------------------------------ run

  /** `len(self._workflow_nodes) * 4`. */
  function MaxSteps(w: Workflow): nat {
    |w.nodes| * 4
  }

  /** What a run leaves behind: the final state, the nodes whose handlers were started, and
      the exception that ended it, if any. */
  datatype RunOutcome = RunOutcome(state: StateView, trace: seq<string>, error: Option<Exception>)

  function Prefixed(trace: seq<string>, run: RunOutcome): RunOutcome {
    RunOutcome(run.state, trace + run.trace, run.error)
  }

  /** What running a node's handler does to the state: a new state, or an exception. */
  type Handlers = (Stage, StateView) -> Result<StateView, Exception>

  /** The pipeline's own handlers. */
  function StageHandlers(ctx: Context): (h: Handlers)
    ensures forall stage, s :: h(stage, s) == StageStep(stage, ctx, s)
  {
    (stage: Stage, s: StateView) => StageStep(stage, ctx, s)
  }

  /** In the built graph, each node runs the pipeline's stage method of the same name. */
  lemma BuiltWorkflowHandlers(ctx: Context, s: StateView)
    ensures var w := BuiltWorkflow(); var h := StageHandlers(ctx);
      && h(w.nodes["extract"].handler, s) == ExtractStep(ctx, s)
      && h(w.nodes["normalize"].handler, s) == NormalizeStep(ctx, s)
      && h(w.nodes["map"].handler, s) == MapStep(ctx, s)
      && h(w.nodes["validate"].handler, s) == ValidateStep(ctx, s)
  {}

  /** The node `_resolve_next_node` picks is a node of a graph whose edges stay inside it. */
  lemma NextIsNode(w: Workflow, name: string, s: StateView)
    requires name in w.nodes && EdgesClosed(w)
    ensures var next := ResolveNext(w.nodes[name], s);
      next.Ok? && next.value.Some? ==> next.value.value in w.nodes
  {
    var next := ResolveNext(w.nodes[name], s);
    if next.Ok? && next.value.Some? {
      var i :| OnlyMatch(w.nodes[name].edges, s, i) && w.nodes[name].edges[i].target == next.value.value;
    }
  }

  /** The `KeyError` a dictionary lookup of a missing key raises. */
  function KeyError(key: string): Exception {
    Exception("KeyError", "'" + key + "'")
  }

  /** `_run_processing_workflow` from node `name` after `executed` handlers have run. A node
      name missing from the graph makes the lookup raise. */
  function RunFrom(w: Workflow, name: string, executed: nat, s: StateView, handlers: Handlers): (r: RunOutcome)
    requires executed <= MaxSteps(w)
    decreases MaxSteps(w) - executed
  {
    if executed + 1 > MaxSteps(w) then RunOutcome(s, [], Some(RuntimeError(StepLimitExceeded)))
    else if name !in w.nodes then RunOutcome(s, [], Some(KeyError(name)))
    else
      var node := w.nodes[name];
      var step := handlers(node.handler, s);
      if step.Err? then RunOutcome(s, [name], Some(step.error))
      else
        var next := ResolveNext(node, step.value);
        if next.Err? then RunOutcome(step.value, [name], Some(next.error))
        else if next.value.None? then RunOutcome(step.value, [name], None)
        else
          Prefixed([name], RunFrom(w, next.value.value, executed + 1, step.value, handlers))
  }

  /** Some edge leads from `a` to `b`. */
  predicate IsEdge(w: Workflow, a: string, b: string) {
    a in w.nodes && exists i :: 0 <= i < |w.nodes[a].edges| && w.nodes[a].edges[i].target == b
  }

  /** A run started at `name` after `executed` handlers: it runs at most `4 × |nodes|`
      handlers in all, starts at `name` when the limit leaves room, visits only nodes,
      moves only along edges, and ends without an exception only at a node that has no
      edge to take. */
  predicate WalksEdges(w: Workflow, name: string, executed: nat, run: RunOutcome)
    requires name in w.nodes
  {
    && executed + |run.trace| <= MaxSteps(w)
    && (executed < MaxSteps(w) ==> |run.trace| > 0 && run.trace[0] == name)
    && (forall i :: 0 <= i < |run.trace| ==> run.trace[i] in w.nodes)
    && (forall i :: 0 <= i < |run.trace| - 1 ==> IsEdge(w, run.trace[i], run.trace[i + 1]))
    && (run.error.None? ==>
          (|run.trace| > 0 && ResolveNext(w.nodes[run.trace[|run.trace| - 1]], run.state) == Ok(None)))
  }

  /** Every run of a graph whose edges stay inside it walks its edges. */
  lemma {:induction false} RunFollowsEdges(w: Workflow, name: string, executed: nat, s: StateView, handlers: Handlers)
    requires name in w.nodes && EdgesClosed(w) && executed <= MaxSteps(w)
    decreases MaxSteps(w) - executed
    ensures WalksEdges(w, name, executed, RunFrom(w, name, executed, s, handlers))
  {
    if executed + 1 <= MaxSteps(w) {
      var node := w.nodes[name];
      var step := handlers(node.handler, s);
      if step.Ok? {
        var next := ResolveNext(node, step.value);
        if next.Ok? && next.value.Some? {
          var target := next.value.value;
          NextIsNode(w, name, step.value);
          RunFollowsEdges(w, target, executed + 1, step.value, handlers);
          RunFromMoves(w, name, executed, s, handlers);
          WalkExtends(w, name, target, executed, RunFrom(w, target, executed + 1, step.value, handlers));
        }
      }
    }
  }

  /** One step of `RunFrom` that moves on: the run is the node followed by the rest. */
  lemma RunFromMoves(w: Workflow, name: string, executed: nat, s: StateView, handlers: Handlers)
    requires name in w.nodes && executed + 1 <= MaxSteps(w)
    requires var step := handlers(w.nodes[name].handler, s);
      step.Ok? && ResolveNext(w.nodes[name], step.value).Ok? && ResolveNext(w.nodes[name], step.value).value.Some?
    ensures var step := handlers(w.nodes[name].handler, s);
      var target := ResolveNext(w.nodes[name], step.value).value.value;
      && IsEdge(w, name, target)
      && RunFrom(w, name, executed, s, handlers) == Prefixed([name], RunFrom(w, target, executed + 1, step.value, handlers))
  {
    var node := w.nodes[name];
    var step := handlers(node.handler, s);
    var target := ResolveNext(node, step.value).value.value;
    var i :| OnlyMatch(node.edges, step.value, i) && node.edges[i].target == target;
  }

  /** Walking an edge from `name` to `target` and then on extends a walk by one node. */
  lemma WalkExtends(w: Workflow, name: string, target: string, executed: nat, rest: RunOutcome)
    requires name in w.nodes && target in w.nodes && IsEdge(w, name, target)
    requires executed + 1 <= MaxSteps(w) && WalksEdges(w, target, executed + 1, rest)
    ensures WalksEdges(w, name, executed, Prefixed([name], rest))
  {
    var run := Prefixed([name], rest);
    assert forall i :: 1 <= i < |run.trace| ==> run.trace[i] == rest.trace[i - 1];
  }

  /** The one-node graph whose node validates and loops back to itself. */
  function ValidateLoop(): (w: Workflow)
    ensures IsDict(w) && WellFormed("validate", w) && EdgesClosed(w) && MaxSteps(w) == 4
  {
    Workflow(["validate"], map["validate" := Node("validate", ValidateStage, [Always("validate")])])
  }

  /** On a graph that loops, the step limit is what stops the run: once validation can
      run, the looping node runs until four handlers have run, and the fifth raises. */
  lemma {:induction false} LoopHitsStepLimit(executed: nat, s: StateView, ctx: Context)
    requires executed <= 4
    requires s.mapped.Some? && ctx.validate(s.mapped.value.data).Ok?
    decreases 4 - executed
    ensures var run := RunFrom(ValidateLoop(), "validate", executed, s, StageHandlers(ctx));
      && run.error == Some(RuntimeError(StepLimitExceeded))
      && run.trace == seq(4 - executed, _ => "validate")
  {
    var w := ValidateLoop();
    if executed < 4 {
      var node := w.nodes["validate"];
      var t := ValidateStep(ctx, s).value;
      assert StageHandlers(ctx)(node.handler, s) == Ok(t);
      SingleEdgeIsFollowed(node, t);
      LoopHitsStepLimit(executed + 1, t, ctx);
      assert RunFrom(w, "validate", executed, s, StageHandlers(ctx))
          == Prefixed(["validate"], RunFrom(w, "validate", executed + 1, t, StageHandlers(ctx)));
      assert seq(4 - executed, _ => "validate") == ["validate"] + seq(4 - (executed + 1), _ => "validate");
    }
  }

  /** The four stages succeed one after the other from `s`: the extractor returns a
      report, and validation does not raise on what the mapping makes of it. */
  predicate StagesSucceed(ctx: Context, s: StateView) {
    && ctx.extract(s.document).Ok?
    && ctx.validate(ctx.mapPanel(ctx.normalize(ctx.extract(s.document).value), s.panel).data).Ok?
  }

  /** The four states a successful run of the built graph passes through. */
  lemma BuiltStages(s: StateView, ctx: Context)
    requires StagesSucceed(ctx, s)
    ensures ExtractStep(ctx, s).Ok?
    ensures NormalizeStep(ctx, ExtractStep(ctx, s).value).Ok?
    ensures MapStep(ctx, NormalizeStep(ctx, ExtractStep(ctx, s).value).value).Ok?
    ensures ValidateStep(ctx, MapStep(ctx, NormalizeStep(ctx, ExtractStep(ctx, s).value).value).value).Ok?
  {}

  /** Any handlers that succeed in turn on the four nodes of the built graph run it to the
      end, in stage order. */
  lemma BuiltRunWith(h: Handlers, s: StateView, s1: StateView, s2: StateView, s3: StateView, s4: StateView)
    requires h(ExtractStage, s) == Ok(s1) && h(NormalizeStage, s1) == Ok(s2)
    requires h(MapStage, s2) == Ok(s3) && h(ValidateStage, s3) == Ok(s4)
    ensures RunFrom(BuiltWorkflow(), "extract", 0, s, h) == RunOutcome(s4, ["extract", "normalize", "map", "validate"], None)
  {
    BuiltNodes();
    ChainRun(BuiltWorkflow(), h, s, s1, s2, s3, s4);
  }

  /** The nodes of the built graph, one by one. */
  lemma BuiltNodes()
    ensures var w := BuiltWorkflow();
      && MaxSteps(w) == 16
      && w.nodes["extract"] == Node("extract", ExtractStage, [Always("normalize")])
      && w.nodes["normalize"] == Node("normalize", NormalizeStage, [Always("map")])
      && w.nodes["map"] == Node("map", MapStage, [Always("validate")])
      && w.nodes["validate"] == Node("validate", ValidateStage, [])
  {}

  /** A chain of four nodes, each with one unconditional edge to the next but the last,
      runs to the end when its handlers succeed in turn. */
  lemma ChainRun(w: Workflow, h: Handlers, s: StateView, s1: StateView, s2: StateView, s3: StateView, s4: StateView)
    requires MaxSteps(w) >= 4
    requires "extract" in w.nodes && w.nodes["extract"] == Node("extract", ExtractStage, [Always("normalize")])
    requires "normalize" in w.nodes && w.nodes["normalize"] == Node("normalize", NormalizeStage, [Always("map")])
    requires "map" in w.nodes && w.nodes["map"] == Node("map", MapStage, [Always("validate")])
    requires "validate" in w.nodes && w.nodes["validate"] == Node("validate", ValidateStage, [])
    requires h(ExtractStage, s) == Ok(s1) && h(NormalizeStage, s1) == Ok(s2)
    requires h(MapStage, s2) == Ok(s3) && h(ValidateStage, s3) == Ok(s4)
    ensures RunFrom(w, "extract", 0, s, h) == RunOutcome(s4, ["extract", "normalize", "map", "validate"], None)
  {
    SingleEdgeIsFollowed(w.nodes["extract"], s1);
    SingleEdgeIsFollowed(w.nodes["normalize"], s2);
    SingleEdgeIsFollowed(w.nodes["map"], s3);
    RunFromMoves(w, "extract", 0, s, h);
    RunFromMoves(w, "normalize", 1, s1, h);
    RunFromMoves(w, "map", 2, s2, h);
    assert ResolveNext(w.nodes["validate"], s4) == Ok(None);
    assert RunFrom(w, "validate", 3, s3, h) == RunOutcome(s4, ["validate"], None);
    PrefixFour("extract", "normalize", "map", "validate");
  }

  lemma PrefixFour<T>(a: T, b: T, c: T, d: T)
    ensures [a] + ([b] + ([c] + [d])) == [a, b, c, d]
  {}

  lemma AppendFour<T>(xs: seq<T>, a: T, b: T, c: T, d: T)
    ensures xs + [a] + [b] + [c] + [d] == xs + [a, b, c, d]
  {
    assert [a] + [b] + [c] + [d] == [a, b, c, d];
  }

  /** The state the four stages of the built graph leave, one after the other. */
  function StagesOf(ctx: Context, s: StateView): StateView
    requires StagesSucceed(ctx, s)
  {
    BuiltStages(s, ctx);
    var s1 := ExtractStep(ctx, s).value;
    var s2 := NormalizeStep(ctx, s1).value;
    var s3 := MapStep(ctx, s2).value;
    ValidateStep(ctx, s3).value
  }

  /** On the built graph, stages that succeed run in order, and the run ends without an
      exception. */
  lemma BuiltRunCompletes(s: StateView, ctx: Context)
    requires StagesSucceed(ctx, s)
    ensures RunFrom(BuiltWorkflow(), "extract", 0, s, StageHandlers(ctx))
         == RunOutcome(StagesOf(ctx, s), ["extract", "normalize", "map", "validate"], None)
  {
    BuiltStages(s, ctx);
    var h := StageHandlers(ctx);
    var s1 := ExtractStep(ctx, s).value;
    var s2 := NormalizeStep(ctx, s1).value;
    var s3 := MapStep(ctx, s2).value;
    var s4 := ValidateStep(ctx, s3).value;
    assert h(ExtractStage, s) == Ok(s1);
    assert h(NormalizeStage, s1) == Ok(s2);
    assert h(MapStage, s2) == Ok(s3);
    assert h(ValidateStage, s3) == Ok(s4);
    BuiltRunWith(h, s, s1, s2, s3, s4);
  }

  /** The four stages keep the panel and the document, log one step each, in order, and
      store the extracted report, its normalisation, the panel mapped from that, and the
      validation of the panel's payload. */
  lemma StagesCompute(s: StateView, ctx: Context)
    requires StagesSucceed(ctx, s)
    ensures var t := StagesOf(ctx, s);
      var extracted := ctx.extract(s.document).value;
      var normalized := ctx.normalize(extracted);
      var mapped := ctx.mapPanel(normalized, s.panel);
      && t.panel == s.panel && t.document == s.document
      && StepNames(t.steps) == StepNames(s.steps) + ["extract", "normalize", "map", "validate"]
      && t.extracted == Some(extracted)
      && t.normalized == Some(normalized)
      && t.mapped == Some(mapped)
      && t.validation == Some(ctx.validate(mapped.data).value)
  {
    BuiltStages(s, ctx);
    var s1 := ExtractStep(ctx, s).value;
    var s2 := NormalizeStep(ctx, s1).value;
    var s3 := MapStep(ctx, s2).value;
    var s4 := ValidateStep(ctx, s3).value;
    StageLogsOneRecord(ExtractStage, ctx, s);
    StageLogsOneRecord(NormalizeStage, ctx, s1);
    StageLogsOneRecord(MapStage, ctx, s2);
    StageLogsOneRecord(ValidateStage, ctx, s3);
    var names := StepNames(s.steps);
    assert StepNames(s4.steps) == names + ["extract"] + ["normalize"] + ["map"] + ["validate"];
    AppendFour(names, "extract", "normalize", "map", "validate");
  }

  /** On the built graph, an extractor that raises ends the run at once, with nothing
      changed. */
  lemma BuiltRunStopsOnExtractionError(s: StateView, ctx: Context)
    requires ctx.extract(s.document).Err?
    ensures RunFrom(BuiltWorkflow(), "extract", 0, s, StageHandlers(ctx))
         == RunOutcome(s, ["extract"], Some(ctx.extract(s.document).error))
  {
    assert StageHandlers(ctx)(ExtractStage, s) == Err(ctx.extract(s.document).error);
  }

  /** The built graph passes `_assert_workflow_is_valid`, and its edges stay inside it. */
  lemma BuiltWorkflowPassesCheck()
    ensures WellFormed("extract", BuiltWorkflow()) && EdgesClosed(BuiltWorkflow())
    ensures WorkflowProblem("extract", BuiltWorkflow()) == None
  {
    var w := BuiltWorkflow();
    assert NodeSound(w, "extract") && NodeSound(w, "normalize");
    assert NodeSound(w, "map") && NodeSound(w, "validate");
    assert forall k :: k in w.keys ==> NodeSound(w, k);
    ListedNodesSound("extract", w);
  }

  /** A dictionary whose listed nodes are all sound, and which holds the entry, is
      well formed, and its edges stay inside it. */
  lemma ListedNodesSound(entry: string, w: Workflow)
    requires IsDict(w) && entry in w.nodes
    requires forall k :: k in w.keys ==> NodeSound(w, k)
    ensures WellFormed(entry, w) && EdgesClosed(w)
  {
    assert forall k :: k in w.nodes ==> NodeSound(w, k);
  }

  /** The built graph lists its nodes in stage order and reports its three "always" edges
      in that order. */
  lemma BuiltWorkflowListing()
    ensures BuiltWorkflow().keys == ["extract", "normalize", "map", "validate"]
    ensures EdgesOf(BuiltWorkflow(), BuiltWorkflow().keys) ==
      [("extract", "normalize", "always"), ("normalize", "map", "always"), ("map", "validate", "always")]
  {
    var w := BuiltWorkflow();
    var keys := w.keys;
    var e := ("extract", "normalize", "always");
    var n := ("normalize", "map", "always");
    var m := ("map", "validate", "always");
    assert EdgeTriples("extract", w.nodes["extract"].edges) == [e];
    assert EdgeTriples("normalize", w.nodes["normalize"].edges) == [n];
    assert EdgeTriples("map", w.nodes["map"].edges) == [m];
    assert EdgeTriples("validate", w.nodes["validate"].edges) == [];
    EdgesOfFour(w, keys);
    assert [e] + [n] + [m] + [] == [e, n, m];
  }

  /** The edges of a four-node listing, node by node. */
  lemma EdgesOfFour(w: Workflow, keys: seq<string>)
    requires |keys| == 4 && forall k :: k in keys ==> k in w.nodes
    ensures EdgesOf(w, keys) == EdgeTriples(keys[0], w.nodes[keys[0]].edges) + EdgeTriples(keys[1], w.nodes[keys[1]].edges)
                               + EdgeTriples(keys[2], w.nodes[keys[2]].edges) + EdgeTriples(keys[3], w.nodes[keys[3]].edges)
  {
    var t0 := EdgeTriples(keys[0], w.nodes[keys[0]].edges);
    var t1 := EdgeTriples(keys[1], w.nodes[keys[1]].edges);
    var t2 := EdgeTriples(keys[2], w.nodes[keys[2]].edges);
    var t3 := EdgeTriples(keys[3], w.nodes[keys[3]].edges);
    assert keys[..0] == [];
    EdgesOfSnoc(w, keys, 0);
    assert EdgesOf(w, keys[..1]) == t0;
    EdgesOfSnoc(w, keys, 1);
    assert EdgesOf(w, keys[..2]) == t0 + t1;
    EdgesOfSnoc(w, keys, 2);
    assert EdgesOf(w, keys[..3]) == t0 + t1 + t2;
    EdgesOfSnoc(w, keys, 3);
    assert keys[..4] == keys;
  }

  /** Listing one more node appends that node's edges. */
  lemma EdgesOfSnoc(w: Workflow, keys: seq<string>, j: nat)
    requires j < |keys| && forall k :: k in keys ==> k in w.nodes
    ensures EdgesOf(w, keys[..j + 1]) == EdgesOf(w, keys[..j]) + EdgeTriples(keys[j], w.nodes[keys[j]].edges)
  {
    assert keys[..j + 1][..j] == keys[..j];
  }

  // ------------------------------------------------------------------ results

  /** `_result_from_state`: the five parts of a finished run, or an error when a stage
      has not produced its result. */
  function ResultFromState(s: StateView): (r: Result<PipelineResult, Exception>)
    ensures r.Ok? <==> s.extracted.Some? && s.normalized.Some? && s.mapped.Some? && s.validation.Some?
    ensures r.Err? ==> r.error == RuntimeError(Unfinished)
    ensures r.Ok? ==>
      (&& r.value.document == s.document && Some(r.value.extracted) == s.extracted
       && Some(r.value.normalized) == s.normalized && Some(r.value.mapped) == s.mapped
       && Some(r.value.validation) == s.validation)
  {
    if s.extracted.None? || s.normalized.None? || s.mapped.None? || s.validation.None? then
      Err(RuntimeError(Unfinished))
    else
      Ok(PipelineResult(s.document, s.extracted.value, s.normalized.value, s.mapped.value, s.validation.value))
  }

  /** What `parse_text` and `parse_pdf` return after their run. */
  function Finish(run: RunOutcome): Result<PipelineResult, Exception> {
    if run.error.Some? then Err(run.error.value) else ResultFromState(run.state)
  }

  /** `TextIngestor.ingest` followed by the `document_meta` update. */
  function TextDocument(text: string, documentMeta: map<string, Json>): RawDocument {
    RawDocument(text, [], "inline-text", map[] + documentMeta, map[])
  }

  /** The ingest record of `parse_text`: a text has at least one page. */
  function TextIngestRecord(ctx: Context, document: RawDocument): StepRecord {
    StepRecord("ingest", ctx.elapsed("ingest"), "ok", 0, 0, map[
      "source" := Str(document.source),
      "pages" := Int(if |document.pages| > 1 then |document.pages| else 1),
      "text_size" := Int(|document.text|)])
  }

  /** The ingest record of `parse_pdf`. */
  function PdfIngestRecord(ctx: Context, source: string, document: RawDocument): StepRecord {
    StepRecord("ingest", ctx.elapsed("ingest"), "ok", 0, 0, map[
      "source" := Str(source),
      "pages" := Int(|document.pages|),
      "text_size" := Int(|document.text|)])
  }

  /** The state a run starts from: the document and its ingest record. */
  function Ingested(panel: string, document: RawDocument, record: StepRecord): StateView {
    StateView(panel, document, None, None, None, None, [record])
  }

  /** From an ingested document the extractor can read, and whose mapped panel validation
      accepts, the built graph yields the extracted report, its normalisation, the mapped
      panel and its validation, and logs the four stages after the ingest record. */
  lemma IngestedRunSucceeds(panel: string, document: RawDocument, record: StepRecord, ctx: Context)
    requires ctx.extract(document).Ok? && ValidatesMapped(ctx, panel)
    ensures var run := RunFrom(BuiltWorkflow(), "extract", 0, Ingested(panel, document, record), StageHandlers(ctx));
      var extracted := ctx.extract(document).value;
      var normalized := ctx.normalize(extracted);
      var mapped := ctx.mapPanel(normalized, panel);
      && Finish(run) == Ok(PipelineResult(document, extracted, normalized, mapped, ctx.validate(mapped.data).value))
      && StepNames(run.state.steps) == [record.pipelineStep, "extract", "normalize", "map", "validate"]
  {
    var s := Ingested(panel, document, record);
    assert StagesSucceed(ctx, s);
    BuiltRunFinishes(s, ctx);
    IngestedStepNames(panel, document, record);
  }

  /** A run of the built graph whose four stages succeed finishes with what they
      produced, and logs them in order. */
  lemma BuiltRunFinishes(s: StateView, ctx: Context)
    requires StagesSucceed(ctx, s)
    ensures var run := RunFrom(BuiltWorkflow(), "extract", 0, s, StageHandlers(ctx));
      var extracted := ctx.extract(s.document).value;
      var normalized := ctx.normalize(extracted);
      var mapped := ctx.mapPanel(normalized, s.panel);
      && Finish(run) == Ok(PipelineResult(s.document, extracted, normalized, mapped, ctx.validate(mapped.data).value))
      && StepNames(run.state.steps) == StepNames(s.steps) + ["extract", "normalize", "map", "validate"]
  {
    BuiltRunCompletes(s, ctx);
    StagesFinish(s, ctx, ["extract", "normalize", "map", "validate"]);
  }

  lemma IngestedStepNames(panel: string, document: RawDocument, record: StepRecord)
    ensures StepNames(Ingested(panel, document, record).steps) + ["extract", "normalize", "map", "validate"]
         == [record.pipelineStep, "extract", "normalize", "map", "validate"]
  {
    assert StepNames(Ingested(panel, document, record).steps) == [record.pipelineStep];
  }

  /** A run that ends without an exception after the four stages succeeded finishes with
      what they produced, and has logged them in order. */
  lemma StagesFinish(s: StateView, ctx: Context, trace: seq<string>)
    requires StagesSucceed(ctx, s)
    ensures var extracted := ctx.extract(s.document).value;
      var normalized := ctx.normalize(extracted);
      var mapped := ctx.mapPanel(normalized, s.panel);
      && Finish(RunOutcome(StagesOf(ctx, s), trace, None))
           == Ok(PipelineResult(s.document, extracted, normalized, mapped, ctx.validate(mapped.data).value))
      && StepNames(StagesOf(ctx, s).steps) == StepNames(s.steps) + ["extract", "normalize", "map", "validate"]
  {
    StagesCompute(s, ctx);
  }

  /** A text the extractor can read, whose mapped panel validation accepts, is logged as
      ingest, extract, normalize, map and validate, in that order. */
  lemma TextRunLogsEveryStep(text: string, panel: string, documentMeta: map<string, Json>, ctx: Context)
    requires ctx.extract(TextDocument(text, documentMeta)).Ok? && ValidatesMapped(ctx, panel)
    ensures var document := TextDocument(text, documentMeta);
      var run := RunFrom(BuiltWorkflow(), "extract", 0, Ingested(panel, document, TextIngestRecord(ctx, document)),
                         StageHandlers(ctx));
      && Finish(run).Ok?
      && StepNames(run.state.steps) == ["ingest", "extract", "normalize", "map", "validate"]
  {
    var document := TextDocument(text, documentMeta);
    IngestedRunSucceeds(panel, document, TextIngestRecord(ctx, document), ctx);
  }

  /** What `parse_text` of a `MedLabsPipeline` returns for a text its extractor can read:
      the report, `normalize` of it, `to_standard_panel` of that under the requested panel,
      and the validation of the panel's payload under the panel's own code. */
  lemma PipelineParsesText(client: LlmClient, extractor: AiExtract.AiExtractor, schemaDir: Option<string>,
                           env: Environment, text: string, panel: string, documentMeta: map<string, Json>)
    requires ExtractionOf(client, extractor, env.conv, TextDocument(text, documentMeta)).Ok?
    ensures var ctx := StagesFor(client, extractor, schemaDir, env);
      var document := TextDocument(text, documentMeta);
      var run := RunFrom(BuiltWorkflow(), "extract", 0, Ingested(panel, document, TextIngestRecord(ctx, document)),
                         StageHandlers(ctx));
      var extracted := ExtractionOf(client, extractor, env.conv, document).value;
      var normalized := NormalizationOf(extracted);
      var mapped := ToStandard.StandardPanelOf(normalized, panel, DefaultStandardVersion, env.mapEnv);
      Finish(run) == Ok(PipelineResult(document, extracted, normalized, mapped,
        SchemaValidation.JsonschemaResult(mapped.data, None, Some(ToStandard.NormalizePanelCode(panel)),
                                          schemaDir, env.engine)))
  {
    var ctx := StagesFor(client, extractor, schemaDir, env);
    var document := TextDocument(text, documentMeta);
    PipelineValidatesMapped(client, extractor, schemaDir, env, panel);
    IngestedRunSucceeds(panel, document, TextIngestRecord(ctx, document), ctx);
  }

  // ------------------------------------------------------------------ pipeline

  /** `_assert_workflow_is_valid`, walking the nodes and their edges in order. */
  method AssertWorkflowIsValid(entry: string, w: Workflow) returns (raised: Option<Exception>)
    requires IsDict(w)
    ensures raised.None? <==> WellFormed(entry, w)
    ensures raised.Some? ==> raised.value == RuntimeError(WorkflowProblem(entry, w).value)
  {
    if entry !in w.nodes {
      return Some(RuntimeError(UnknownEntry(entry)));
    }
    var i := 0;
    while i < |w.keys|
      invariant 0 <= i <= |w.keys|
      invariant NodesProblem(w, w.keys) == NodesProblem(w, w.keys[i..])
    {
      var source := w.keys[i];
      var node := w.nodes[source];
      if source != node.name {
        return Some(RuntimeError(KeyMismatch(source, node.name)));
      }
      var j := 0;
      while j < |node.edges|
        invariant 0 <= j <= |node.edges|
        invariant EdgesProblem(w, node.edges) == EdgesProblem(w, node.edges[j..])
      {
        if node.edges[j].target !in w.nodes {
          return Some(RuntimeError(DanglingEdge(node.edges[j].target)));
        }
        assert node.edges[j..][1..] == node.edges[j + 1..];
        j := j + 1;
      }
      assert w.keys[i..][1..] == w.keys[i + 1..];
      i := i + 1;
    }
    return None;
  }

  /** The graph `__init__` builds and then checks: the check raises nothing. */
  method CheckedWorkflow() returns (w: Workflow)
    ensures w == BuiltWorkflow()
    ensures CheckedGraph("extract", w)
  {
    w := BuiltWorkflow();
    var raised := AssertWorkflowIsValid("extract", w);
    BuiltWorkflowPassesCheck();
    if raised.Some? {
      assert false;
    }
  }

  /** `MedLabsPipeline`. Everything but `last_state` is set once, at construction. */
  class MedLabsPipeline {
    const llmClient: LlmClient
    const extractor: AiExtract.AiExtractor
    const schemaDir: Option<string>
    const env: Environment
    /** What the stage methods call: `StagesFor` of the fields above. */
    const stages: Context
    const workflowEntryNode: string
    const workflowNodes: Workflow
    var lastState: PipelineState?

    /** The graph passed `_assert_workflow_is_valid`. */
    predicate Valid() {
      CheckedGraph(workflowEntryNode, workflowNodes)
    }

    /** `__init__`: an extractor at temperature 0, a blank schema directory taken as none,
        and the built graph, which passes the check. */
    constructor(llmClient: LlmClient, promptName: string, promptVersion: string,
                schemaDir: Option<string>, env: Environment)
      ensures this.llmClient == llmClient && this.env == env
      ensures extractor == AiExtract.AiExtractor(promptName, promptVersion, 0.0)
      ensures this.schemaDir == if schemaDir.Some? && schemaDir.value != "" then schemaDir else None
      ensures stages == StagesFor(llmClient, extractor, this.schemaDir, env)
      ensures workflowEntryNode == "extract" && workflowNodes == BuiltWorkflow()
      ensures lastState == null
      ensures Valid()
    {
      var built := CheckedWorkflow();
      var temperatureZero := AiExtract.AiExtractor(promptName, promptVersion, 0.0);
      var directory := if schemaDir.Some? && schemaDir.value != "" then schemaDir else None;
      var wired := StagesFor(llmClient, temperatureZero, directory, env);
      this.llmClient := llmClient;
      extractor := temperatureZero;
      this.schemaDir := directory;
      this.env := env;
      stages := wired;
      workflowEntryNode := "extract";
      workflowNodes := built;
      lastState := null;
    }

    /** `workflow_node_names`. */
    function WorkflowNodeNames(): (names: seq<string>)
      requires Valid()
      ensures names == workflowNodes.keys
      ensures |names| == |workflowNodes.nodes|
      ensures forall k :: k in names <==> k in workflowNodes.nodes
    {
      DistinctCard(workflowNodes.keys, workflowNodes.nodes);
      workflowNodes.keys
    }

    /** `workflow_edges`: every edge as `(source, target, label)`, node by node. */
    method WorkflowEdges() returns (result: seq<(string, string, string)>)
      requires Valid()
      ensures result == EdgesOf(workflowNodes, workflowNodes.keys)
      ensures forall t :: t in result <==>
        DescribesEdge(workflowNodes, t)
    {
      var w := workflowNodes;
      result := [];
      var i := 0;
      while i < |w.keys|
        invariant 0 <= i <= |w.keys|
        invariant result == EdgesOf(w, w.keys[..i])
      {
        var source := w.keys[i];
        var node := w.nodes[source];
        ghost var before := result;
        var j := 0;
        while j < |node.edges|
          invariant 0 <= j <= |node.edges|
          invariant result == before + EdgeTriples(source, node.edges[..j])
        {
          result := result + [(source, node.edges[j].target, node.edges[j].edgeLabel)];
          assert EdgeTriples(source, node.edges[..j + 1])
              == EdgeTriples(source, node.edges[..j]) + [(source, node.edges[j].target, node.edges[j].edgeLabel)];
          j := j + 1;
        }
        assert node.edges[..j] == node.edges;
        assert w.keys[..i + 1][..i] == w.keys[..i];
        i := i + 1;
      }
      assert w.keys[..i] == w.keys;
      forall t
        ensures t in result <==> DescribesEdge(w, t)
      {
        EdgesOfMembers(w, w.keys, t);
      }
    }

    /** `_record_step`: one more record at the end of the log. */
    method RecordStep(state: PipelineState, record: StepRecord)
      modifies state
      ensures state.View() == Logged(old(state.View()), record)
    {
      state.steps := state.steps + [record];
    }

    /** `_node_extract`. */
    method NodeExtract(state: PipelineState) returns (raised: Option<Exception>)
      modifies state
      ensures AsStep(raised, state.View()) == ExtractStep(stages, old(state.View()))
      ensures raised.Some? ==> state.View() == old(state.View())
    {
      var extracted := stages.extract(state.document);
      if extracted.Err? {
        return Some(extracted.error);
      }
      state.extracted := Some(extracted.value);
      RecordStep(state, StepRecord("extract", stages.elapsed("extract"), "ok", |extracted.value.warnings|, 0, map[]));
      return None;
    }

    /** `_node_normalize`. */
    method NodeNormalize(state: PipelineState) returns (raised: Option<Exception>)
      modifies state
      ensures AsStep(raised, state.View()) == NormalizeStep(stages, old(state.View()))
      ensures raised.Some? ==> state.View() == old(state.View())
    {
      if state.extracted.None? {
        return Some(RuntimeError(MissingExtracted));
      }
      var normalized := stages.normalize(state.extracted.value);
      state.normalized := Some(normalized);
      RecordStep(state, StepRecord("normalize", stages.elapsed("normalize"), "ok", |normalized.warnings|, 0, map[]));
      return None;
    }

    /** `_node_map`. */
    method NodeMap(state: PipelineState) returns (raised: Option<Exception>)
      modifies state
      ensures AsStep(raised, state.View()) == MapStep(stages, old(state.View()))
      ensures raised.Some? ==> state.View() == old(state.View())
    {
      if state.normalized.None? {
        return Some(RuntimeError(MissingNormalized));
      }
      var mapped := stages.mapPanel(state.normalized.value, state.panel);
      state.mapped := Some(mapped);
      RecordStep(state, StepRecord("map", stages.elapsed("map"), "ok", |mapped.warnings|, 0, map[]));
      return None;
    }

    /** `_node_validate`. */
    method NodeValidate(state: PipelineState) returns (raised: Option<Exception>)
      modifies state
      ensures AsStep(raised, state.View()) == ValidateStep(stages, old(state.View()))
      ensures raised.Some? ==> state.View() == old(state.View())
    {
      if state.mapped.None? {
        return Some(RuntimeError(MissingMapped));
      }
      var validation := stages.validate(state.mapped.value.data);
      if validation.Err? {
        return Some(validation.error);
      }
      var v := validation.value;
      state.validation := Some(v);
      RecordStep(state, StepRecord("validate", stages.elapsed("validate"), if v.isValid then "ok" else "error",
                                   |v.Warnings()|, |v.Errors()|, map[]));
      return None;
    }

    /** `node.handler(state)`. */
    method RunNode(node: Node, state: PipelineState) returns (raised: Option<Exception>)
      modifies state
      ensures AsStep(raised, state.View()) == StageStep(node.handler, stages, old(state.View()))
      ensures raised.Some? ==> state.View() == old(state.View())
    {
      match node.handler
      case ExtractStage => raised := NodeExtract(state);
      case NormalizeStage => raised := NodeNormalize(state);
      case MapStage => raised := NodeMap(state);
      case ValidateStage => raised := NodeValidate(state);
    }

    /** `_run_processing_workflow`: handlers run from the entry node along the single taken
        edge of each node, until no edge is taken, a handler or the edge choice raises, or
        the step limit is passed. */
    method RunProcessingWorkflow(state: PipelineState) returns (raised: Option<Exception>)
      requires Valid()
      modifies state
      ensures var run := RunFrom(workflowNodes, workflowEntryNode, 0, old(state.View()), StageHandlers(stages));
        state.View() == run.state && raised == run.error
    {
      var w := workflowNodes;
      assert EdgesClosed(w);
      var ctx := stages;
      var nodeName: Option<string> := Some(workflowEntryNode);
      var maxSteps := |w.nodes| * 4;
      var executedSteps := 0;
      ghost var trace: seq<string> := [];
      ghost var h := StageHandlers(ctx);
      ghost var run := RunFrom(w, workflowEntryNode, 0, state.View(), h);
      while nodeName.Some?
        invariant executedSteps <= maxSteps
        invariant nodeName.Some? ==> nodeName.value in w.nodes
        invariant nodeName.Some? ==> run == Prefixed(trace, RunFrom(w, nodeName.value, executedSteps, state.View(), h))
        invariant nodeName.None? ==> run == RunOutcome(state.View(), trace, None)
        decreases maxSteps - executedSteps
      {
        executedSteps := executedSteps + 1;
        if executedSteps > maxSteps {
          return Some(RuntimeError(StepLimitExceeded));
        }
        var node := w.nodes[nodeName.value];
        ghost var before := state.View();
        raised := RunNode(node, state);
        if raised.Some? {
          return;
        }
        var next := ResolveNext(node, state.View());
        if next.Err? {
          return Some(next.error);
        }
        NextIsNode(w, nodeName.value, state.View());
        trace := trace + [nodeName.value];
        nodeName := next.value;
      }
      raised := None;
    }

    /** The part `parse_text` and `parse_pdf` share once the document is ingested: log the
        ingest step, run the graph, keep the state on success, and collect the result. */
    method Process(panel: string, document: RawDocument, ingest: StepRecord)
      returns (r: Result<PipelineResult, Exception>)
      requires Valid()
      modifies this
      ensures var run := RunFrom(workflowNodes, workflowEntryNode, 0, Ingested(panel, document, ingest), StageHandlers(stages));
        && r == Finish(run)
        && (run.error.Some? ==> lastState == old(lastState))
        && (run.error.None? ==> lastState != null && fresh(lastState) && lastState.View() == run.state)
    {
      var state := new PipelineState(panel, document);
      RecordStep(state, ingest);
      assert state.View() == Ingested(panel, document, ingest);
      var raised := RunProcessingWorkflow(state);
      if raised.Some? {
        return Err(raised.value);
      }
      lastState := state;
      r := ResultFromState(state.View());
    }

    /** `parse_text`. */
    method ParseText(text: string, panel: string, documentMeta: map<string, Json>)
      returns (r: Result<PipelineResult, Exception>)
      requires Valid()
      modifies this
      ensures var document := TextDocument(text, documentMeta);
        var run := RunFrom(workflowNodes, workflowEntryNode, 0,
                           Ingested(panel, document, TextIngestRecord(stages, document)), StageHandlers(stages));
        && r == Finish(run)
        && (run.error.Some? ==> lastState == old(lastState))
        && (run.error.None? ==> lastState != null && fresh(lastState) && lastState.View() == run.state)
    {
      var document := TextDocument(text, documentMeta);
      r := Process(panel, document, StepRecord("ingest", stages.elapsed("ingest"), "ok", 0, 0, map[
        "source" := Str(document.source),
        "pages" := Int(if |document.pages| > 1 then |document.pages| else 1),
        "text_size" := Int(|document.text|)]));
    }

    /** `parse_pdf`, given what the PDF ingestor returned or raised: an ingest failure is
        raised again and nothing runs. */
    method ParsePdf(source: string, ingested: Result<RawDocument, Exception>, panel: string,
                    documentMeta: map<string, Json>)
      returns (r: Result<PipelineResult, Exception>)
      requires Valid()
      modifies this
      ensures ingested.Err? ==> r == Err(ingested.error) && lastState == old(lastState)
      ensures ingested.Ok? ==>
        var document := ingested.value.(meta := ingested.value.meta + documentMeta);
        var run := RunFrom(workflowNodes, workflowEntryNode, 0,
                           Ingested(panel, document, PdfIngestRecord(stages, source, document)), StageHandlers(stages));
        && r == Finish(run)
        && (run.error.Some? ==> lastState == old(lastState))
        && (run.error.None? ==> lastState != null && fresh(lastState) && lastState.View() == run.state)
    {
      if ingested.Err? {
        return Err(ingested.error);
      }
      var document := ingested.value.(meta := ingested.value.meta + documentMeta);
      r := Process(panel, document, StepRecord("ingest", stages.elapsed("ingest"), "ok", 0, 0, map[
        "source" := Str(source),
        "pages" := Int(|document.pages|),
        "text_size" := Int(|document.text|)]));
    }
  }

  /** A sequence without repeats listing exactly the keys of a map has one element per key. */
  lemma {:induction false} DistinctCard<V>(keys: seq<string>, m: map<string, V>)
    requires forall i, j :: 0 <= i < j < |keys| ==> keys[i] != keys[j]
    requires forall k :: k in m <==> k in keys
    ensures |keys| == |m|
  {
    if keys == [] {
      assert m.Keys == {};
    } else {
      var last := keys[|keys| - 1];
      var rest := m - {last};
      assert forall k :: k in rest <==> k in keys[..|keys| - 1];
      DistinctCard(keys[..|keys| - 1], rest);
    }
  }
}
