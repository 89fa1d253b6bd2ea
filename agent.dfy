/**
 * The agent: its seven nodes, the eight edges wiring them, the entry and terminal nodes,
 * the structural check that every reference names a node, and the summary `info` reports.
 */
module Agent {
  import opened Wrappers
  import opened Graph
  import opened Nodes
  import opened Config

  /**
   * A named way into the graph and the node it starts at. The agent keeps its entry points
   * in a dict keyed by name, so the names in `entryPoints` are pairwise distinct; nothing
   * proved here depends on that.
   */
  datatype EntryPoint = EntryPoint(name: string, nodeId: string)

  datatype MeetingNotesAgent = MeetingNotesAgent(
    nodes: seq<NodeSpec>,
    edges: seq<EdgeSpec>,
    entryNode: string,
    entryPoints: seq<EntryPoint>,
    pauseNodes: seq<string>,
    terminalNodes: seq<string>)

  // ---------------------------------------------------------------------------
  // The shipped graph
  // ---------------------------------------------------------------------------

  const ValidateId: string := "validate-input"
  const ExtractId: string := "extract-meeting-data"
  const ParseId: string := "parse-and-validate"
  const FormatId: string := "format-slack-message"
  const PostId: string := "post-to-slack"
  const CompileId: string := "compile-final-output"
  const HandleErrorId: string := "handle-error"

  const DefaultNodes: seq<NodeSpec> := [
    ValidateInputNode,
    ExtractMeetingDataNode,
    ParseAndValidateNode,
    FormatSlackNode,
    PostToSlackNode,
    CompileOutputNode,
    HandleErrorNode
  ]

  const DefaultEdges: seq<EdgeSpec> := [
    EdgeSpec("validate-to-extract", ValidateId, Some(ExtractId), OnSuccess, 1),
    EdgeSpec("validate-to-error", ValidateId, Some(HandleErrorId), OnFailure, 1),
    EdgeSpec("extract-to-parse", ExtractId, Some(ParseId), OnSuccess, 1),
    EdgeSpec("extract-to-error", ExtractId, Some(HandleErrorId), OnFailure, 1),
    EdgeSpec("parse-to-slack-format", ParseId, Some(FormatId), OnSuccess, 1),
    EdgeSpec("parse-to-error", ParseId, Some(HandleErrorId), OnFailure, 1),
    EdgeSpec("slack-format-to-post", FormatId, Some(PostId), OnSuccess, 1),
    EdgeSpec("post-slack-to-compile", PostId, Some(CompileId), Always, 1)
  ]

  const EntryNode: string := ValidateId
  const EntryPoints: seq<EntryPoint> := [EntryPoint("start", ValidateId)]
  const PauseNodes: seq<string> := []
  const TerminalNodes: seq<string> := [CompileId, HandleErrorId]

  const DefaultAgent: MeetingNotesAgent :=
    MeetingNotesAgent(DefaultNodes, DefaultEdges, EntryNode, EntryPoints, PauseNodes, TerminalNodes)

  // ---------------------------------------------------------------------------
  // validate
  // ---------------------------------------------------------------------------

  /** The set of node ids. */
  function IdSet(nodes: seq<NodeSpec>): (r: set<string>)
    ensures forall i :: 0 <= i < |nodes| ==> nodes[i].id in r
    ensures forall x :: x in r ==> exists i :: 0 <= i < |nodes| && nodes[i].id == x
  {
    set i | 0 <= i < |nodes| :: nodes[i].id
  }

  function SourceError(edge: EdgeSpec): string {
    "Edge " + edge.id + ": source '" + edge.source + "' not found"
  }

  function TargetError(edge: EdgeSpec, target: string): string {
    "Edge " + edge.id + ": target '" + target + "' not found"
  }

  function EntryNodeError(entryNode: string): string {
    "Entry node '" + entryNode + "' not found"
  }

  function TerminalError(terminal: string): string {
    "Terminal node '" + terminal + "' not found"
  }

  function EntryPointError(entryPoint: EntryPoint): string {
    "Entry point '" + entryPoint.name + "' references unknown node '" + entryPoint.nodeId + "'"
  }

  predicate BadSource(edge: EdgeSpec, ids: set<string>) {
    edge.source !in ids
  }

  /** An absent target is not a dangling reference. */
  predicate BadTarget(edge: EdgeSpec, ids: set<string>) {
    edge.target.Some? && edge.target.value !in ids
  }

  /** The errors one edge contributes: its source first, then its target. */
  function EdgeErrors(edge: EdgeSpec, ids: set<string>): seq<string> {
    (if BadSource(edge, ids) then [SourceError(edge)] else [])
    + (if BadTarget(edge, ids) then [TargetError(edge, edge.target.value)] else [])
  }

  function EdgeListErrors(edges: seq<EdgeSpec>, ids: set<string>): seq<string> {
    if edges == [] then []
    else EdgeListErrors(edges[..|edges| - 1], ids) + EdgeErrors(edges[|edges| - 1], ids)
  }

  function TerminalErrors(terminals: seq<string>, ids: set<string>): seq<string> {
    if terminals == [] then []
    else
      var last := terminals[|terminals| - 1];
      TerminalErrors(terminals[..|terminals| - 1], ids) + (if last !in ids then [TerminalError(last)] else [])
  }

  function EntryPointErrors(entryPoints: seq<EntryPoint>, ids: set<string>): seq<string> {
    if entryPoints == [] then []
    else
      var last := entryPoints[|entryPoints| - 1];
      EntryPointErrors(entryPoints[..|entryPoints| - 1], ids)
      + (if last.nodeId !in ids then [EntryPointError(last)] else [])
  }

  /** Every error the check reports, in the order it reports them. */
  function GraphErrors(agent: MeetingNotesAgent): seq<string> {
    var ids := IdSet(agent.nodes);
    EdgeListErrors(agent.edges, ids)
    + (if agent.entryNode !in ids then [EntryNodeError(agent.entryNode)] else [])
    + TerminalErrors(agent.terminalNodes, ids)
    + EntryPointErrors(agent.entryPoints, ids)
  }

  datatype Validation = Validation(valid: bool, errors: seq<string>, warnings: seq<string>)

  /** The pass over the edges: each dangling source, then each dangling target, edge by edge. */
  method CheckEdges(edges: seq<EdgeSpec>, nodeIds: set<string>) returns (errors: seq<string>)
    ensures errors == EdgeListErrors(edges, nodeIds)
  {
    errors := [];
    for i := 0 to |edges|
      invariant errors == EdgeListErrors(edges[..i], nodeIds)
    {
      var edge := edges[i];
      if edge.source !in nodeIds {
        errors := errors + [SourceError(edge)];
      }
      if edge.target.Some? && edge.target.value !in nodeIds {
        errors := errors + [TargetError(edge, edge.target.value)];
      }
      assert edges[..i + 1][..i] == edges[..i];
    }
    assert edges[..|edges|] == edges;
  }

  /** The pass over the terminal nodes. */
  method CheckTerminals(terminals: seq<string>, nodeIds: set<string>) returns (errors: seq<string>)
    ensures errors == TerminalErrors(terminals, nodeIds)
  {
    errors := [];
    for i := 0 to |terminals|
      invariant errors == TerminalErrors(terminals[..i], nodeIds)
    {
      var terminal := terminals[i];
      if terminal !in nodeIds {
        errors := errors + [TerminalError(terminal)];
      }
      assert terminals[..i + 1][..i] == terminals[..i];
    }
    assert terminals[..|terminals|] == terminals;
  }

  /** The pass over the entry points. */
  method CheckEntryPoints(entryPoints: seq<EntryPoint>, nodeIds: set<string>) returns (errors: seq<string>)
    ensures errors == EntryPointErrors(entryPoints, nodeIds)
  {
    errors := [];
    for i := 0 to |entryPoints|
      invariant errors == EntryPointErrors(entryPoints[..i], nodeIds)
    {
      var entryPoint := entryPoints[i];
      if entryPoint.nodeId !in nodeIds {
        errors := errors + [EntryPointError(entryPoint)];
      }
      assert entryPoints[..i + 1][..i] == entryPoints[..i];
    }
    assert entryPoints[..|entryPoints|] == entryPoints;
  }

  /** `validate`: the referential-integrity check, one pass over each list. */
  method Validate(agent: MeetingNotesAgent) returns (result: Validation)
    ensures result.errors == GraphErrors(agent)
    ensures result.valid <==> result.errors == []
    ensures result.warnings == []
  {
    var warnings: seq<string> := [];
    var nodeIds := set i | 0 <= i < |agent.nodes| :: agent.nodes[i].id;
    var errors := CheckEdges(agent.edges, nodeIds);
    if agent.entryNode !in nodeIds {
      errors := errors + [EntryNodeError(agent.entryNode)];
    }
    var terminalErrors := CheckTerminals(agent.terminalNodes, nodeIds);
    errors := errors + terminalErrors;
    var entryPointErrors := CheckEntryPoints(agent.entryPoints, nodeIds);
    errors := errors + entryPointErrors;
    result := Validation(|errors| == 0, errors, warnings);
  }

  // ---------------------------------------------------------------------------
  // What the check means
  // ---------------------------------------------------------------------------

  /** Every reference in the agent names one of its nodes. */
  predicate WellReferenced(agent: MeetingNotesAgent) {
    var ids := IdSet(agent.nodes);
    && (forall i :: 0 <= i < |agent.edges| ==> !BadSource(agent.edges[i], ids) && !BadTarget(agent.edges[i], ids))
    && agent.entryNode in ids
    && (forall i :: 0 <= i < |agent.terminalNodes| ==> agent.terminalNodes[i] in ids)
    && (forall i :: 0 <= i < |agent.entryPoints| ==> agent.entryPoints[i].nodeId in ids)
  }

  /** The indices of the edges with a dangling source, and with a dangling target. */
  function BadSources(edges: seq<EdgeSpec>, ids: set<string>): set<nat> {
    set i: nat | i < |edges| && BadSource(edges[i], ids)
  }

  function BadTargets(edges: seq<EdgeSpec>, ids: set<string>): set<nat> {
    set i: nat | i < |edges| && BadTarget(edges[i], ids)
  }

  lemma BadSourcesSnoc(edges: seq<EdgeSpec>, ids: set<string>)
    requires edges != []
    ensures var n := |edges| - 1;
      BadSources(edges, ids) == BadSources(edges[..n], ids) + (if BadSource(edges[n], ids) then {n} else {})
  {
    var n := |edges| - 1;
    forall i: nat | i < n
      ensures edges[..n][i] == edges[i]
    {
    }
  }

  lemma BadTargetsSnoc(edges: seq<EdgeSpec>, ids: set<string>)
    requires edges != []
    ensures var n := |edges| - 1;
      BadTargets(edges, ids) == BadTargets(edges[..n], ids) + (if BadTarget(edges[n], ids) then {n} else {})
  {
    var n := |edges| - 1;
    forall i: nat | i < n
      ensures edges[..n][i] == edges[i]
    {
    }
  }

  /** The edge errors number one per dangling source plus one per dangling target. */
  lemma {:induction false} EdgeErrorCount(edges: seq<EdgeSpec>, ids: set<string>)
    ensures |EdgeListErrors(edges, ids)| == |BadSources(edges, ids)| + |BadTargets(edges, ids)|
  {
    if edges != [] {
      var n := |edges| - 1;
      EdgeErrorCount(edges[..n], ids);
      BadSourcesSnoc(edges, ids);
      BadTargetsSnoc(edges, ids);
      assert n !in BadSources(edges[..n], ids);
      assert n !in BadTargets(edges[..n], ids);
    }
  }

  /** No edge errors exactly when every edge's endpoints are node ids. */
  lemma EdgeErrorsEmpty(edges: seq<EdgeSpec>, ids: set<string>)
    ensures EdgeListErrors(edges, ids) == [] <==>
      forall i :: 0 <= i < |edges| ==> !BadSource(edges[i], ids) && !BadTarget(edges[i], ids)
  {
    EdgeErrorCount(edges, ids);
    if EdgeListErrors(edges, ids) == [] {
      assert BadSources(edges, ids) == {};
      assert BadTargets(edges, ids) == {};
      forall i | 0 <= i < |edges|
        ensures !BadSource(edges[i], ids) && !BadTarget(edges[i], ids)
      {
        assert i !in BadSources(edges, ids);
        assert i !in BadTargets(edges, ids);
      }
    } else if BadSources(edges, ids) != {} {
      var i :| i in BadSources(edges, ids);
    } else {
      var i :| i in BadTargets(edges, ids);
    }
  }

  lemma {:induction false} TerminalErrorsEmpty(terminals: seq<string>, ids: set<string>)
    ensures TerminalErrors(terminals, ids) == [] <==> forall i :: 0 <= i < |terminals| ==> terminals[i] in ids
  {
    if terminals != [] {
      var n := |terminals| - 1;
      TerminalErrorsEmpty(terminals[..n], ids);
      assert forall i :: 0 <= i < n ==> terminals[..n][i] == terminals[i];
    }
  }

  lemma {:induction false} EntryPointErrorsEmpty(entryPoints: seq<EntryPoint>, ids: set<string>)
    ensures EntryPointErrors(entryPoints, ids) == [] <==>
      forall i :: 0 <= i < |entryPoints| ==> entryPoints[i].nodeId in ids
  {
    if entryPoints != [] {
      var n := |entryPoints| - 1;
      EntryPointErrorsEmpty(entryPoints[..n], ids);
      assert forall i :: 0 <= i < n ==> entryPoints[..n][i] == entryPoints[i];
    }
  }

  /** The check passes exactly when every reference names a node. */
  lemma ValidIffWellReferenced(agent: MeetingNotesAgent)
    ensures GraphErrors(agent) == [] <==> WellReferenced(agent)
  {
    var ids := IdSet(agent.nodes);
    EdgeErrorsEmpty(agent.edges, ids);
    TerminalErrorsEmpty(agent.terminalNodes, ids);
    EntryPointErrorsEmpty(agent.entryPoints, ids);
  }

  /** Every id of the shipped graph belongs to one of its nodes. */
  lemma NodeIdsPresent()
    ensures var ids := IdSet(DefaultNodes);
      && ValidateId in ids && ExtractId in ids && ParseId in ids && FormatId in ids
      && PostId in ids && CompileId in ids && HandleErrorId in ids
  {
    assert DefaultNodes[0].id == ValidateId;
    assert DefaultNodes[1].id == ExtractId;
    assert DefaultNodes[2].id == ParseId;
    assert DefaultNodes[3].id == FormatId;
    assert DefaultNodes[4].id == PostId;
    assert DefaultNodes[5].id == CompileId;
    assert DefaultNodes[6].id == HandleErrorId;
  }

  /** Every edge of the shipped graph starts at and leads to one of its nodes. */
  lemma EdgesWithinNodes()
    ensures forall i :: 0 <= i < |DefaultEdges| ==>
      !BadSource(DefaultEdges[i], IdSet(DefaultNodes)) && !BadTarget(DefaultEdges[i], IdSet(DefaultNodes))
  {
    NodeIdsPresent();
    EdgeSources();
    EdgeTargets();
    var names := {ValidateId, ExtractId, ParseId, FormatId, PostId, CompileId, HandleErrorId};
    assert names <= IdSet(DefaultNodes);
    forall i | 0 <= i < |DefaultEdges|
      ensures DefaultEdges[i].source in names && DefaultEdges[i].target.Some? && DefaultEdges[i].target.value in names
    {
      if i == 0 {} else if i == 1 {} else if i == 2 {} else if i == 3 {}
      else if i == 4 {} else if i == 5 {} else if i == 6 {} else {}
    }
  }

  /** The shipped agent passes the check. */
  lemma DefaultAgentValid()
    ensures WellReferenced(DefaultAgent)
    ensures GraphErrors(DefaultAgent) == []
  {
    EdgesWithinNodes();
    NodeIdsPresent();
    ValidIffWellReferenced(DefaultAgent);
  }

  // ---------------------------------------------------------------------------
  // The shape of the shipped graph
  // ---------------------------------------------------------------------------

  /** The seven node ids are pairwise different. */
  lemma IdsDistinct()
    ensures ValidateId != ExtractId && ValidateId != ParseId && ValidateId != FormatId
    ensures ValidateId != PostId && ValidateId != CompileId && ValidateId != HandleErrorId
    ensures ExtractId != ParseId && ExtractId != FormatId && ExtractId != PostId
    ensures ExtractId != CompileId && ExtractId != HandleErrorId
    ensures ParseId != FormatId && ParseId != PostId && ParseId != CompileId && ParseId != HandleErrorId
    ensures FormatId != PostId && FormatId != CompileId && FormatId != HandleErrorId
    ensures PostId != CompileId && PostId != HandleErrorId
    ensures CompileId != HandleErrorId
  {
    assert ExtractId[0] != FormatId[0] && ExtractId[0] != CompileId[0] && FormatId[0] != CompileId[0];
  }

  /** Where each of the eight edges starts. */
  lemma EdgeSources()
    ensures |DefaultEdges| == 8
    ensures DefaultEdges[0].source == ValidateId && DefaultEdges[1].source == ValidateId
    ensures DefaultEdges[2].source == ExtractId && DefaultEdges[3].source == ExtractId
    ensures DefaultEdges[4].source == ParseId && DefaultEdges[5].source == ParseId
    ensures DefaultEdges[6].source == FormatId && DefaultEdges[7].source == PostId
  {
  }

  /** Where each of the eight edges leads, and when it is taken. */
  lemma EdgeTargets()
    ensures DefaultEdges[0].target == Some(ExtractId) && DefaultEdges[0].condition == OnSuccess
    ensures DefaultEdges[1].target == Some(HandleErrorId) && DefaultEdges[1].condition == OnFailure
    ensures DefaultEdges[2].target == Some(ParseId) && DefaultEdges[2].condition == OnSuccess
    ensures DefaultEdges[3].target == Some(HandleErrorId) && DefaultEdges[3].condition == OnFailure
    ensures DefaultEdges[4].target == Some(FormatId) && DefaultEdges[4].condition == OnSuccess
    ensures DefaultEdges[5].target == Some(HandleErrorId) && DefaultEdges[5].condition == OnFailure
    ensures DefaultEdges[6].target == Some(PostId) && DefaultEdges[6].condition == OnSuccess
    ensures DefaultEdges[7].target == Some(CompileId) && DefaultEdges[7].condition == Always
  {
  }

  /** The edges leaving `source` under `condition`. */
  function Outgoing(edges: seq<EdgeSpec>, source: string, condition: EdgeCondition): set<EdgeSpec> {
    set e | e in edges && e.source == source && e.condition == condition
  }

  /** A stage with a success edge at `k`, a failure edge at `k + 1` and no other edge. */
  predicate FallibleStage(edges: seq<EdgeSpec>, source: string, k: nat, next: string)
    requires k + 1 < |edges|
  {
    && Outgoing(edges, source, OnSuccess) == {edges[k]}
    && Outgoing(edges, source, OnFailure) == {edges[k + 1]}
    && Outgoing(edges, source, Always) == {}
    && edges[k].target == Some(next)
    && edges[k + 1].target == Some(HandleErrorId)
  }

  /** The edges leaving a node are the ones at the indices that start there. */
  lemma OnlyEdgesAt(edges: seq<EdgeSpec>, source: string, indices: set<nat>)
    requires forall j :: 0 <= j < |edges| && j !in indices ==> edges[j].source != source
    ensures forall c, e :: e in Outgoing(edges, source, c) ==> exists j :: j in indices && j < |edges| && edges[j] == e
  {
    forall c, e | e in Outgoing(edges, source, c)
      ensures exists j :: j in indices && j < |edges| && edges[j] == e
    {
      var j :| 0 <= j < |edges| && edges[j] == e;
    }
  }

  lemma FallibleStageAt(edges: seq<EdgeSpec>, source: string, k: nat, next: string)
    requires k + 1 < |edges|
    requires edges[k].source == source && edges[k].condition == OnSuccess && edges[k].target == Some(next)
    requires edges[k + 1].source == source && edges[k + 1].condition == OnFailure
    requires edges[k + 1].target == Some(HandleErrorId)
    requires forall j :: 0 <= j < |edges| && j != k && j != k + 1 ==> edges[j].source != source
    ensures FallibleStage(edges, source, k, next)
  {
    OnlyEdgesAt(edges, source, {k, k + 1});
  }

  /** Validation, extraction and parsing each have exactly one success edge, to the next stage, and one failure edge, to `handle-error`. */
  lemma FallibleStagesRouteFailures()
    ensures FallibleStage(DefaultEdges, ValidateId, 0, ExtractId)
    ensures FallibleStage(DefaultEdges, ExtractId, 2, ParseId)
    ensures FallibleStage(DefaultEdges, ParseId, 4, FormatId)
  {
    EdgeSources();
    EdgeTargets();
    IdsDistinct();
    FallibleStageAt(DefaultEdges, ValidateId, 0, ExtractId);
    FallibleStageAt(DefaultEdges, ExtractId, 2, ParseId);
    FallibleStageAt(DefaultEdges, ParseId, 4, FormatId);
  }

  /** A node left by exactly one edge, at index `k`. */
  lemma SingleEdgeAt(edges: seq<EdgeSpec>, source: string, k: nat)
    requires k < |edges| && edges[k].source == source
    requires forall j :: 0 <= j < |edges| && j != k ==> edges[j].source != source
    ensures Outgoing(edges, source, edges[k].condition) == {edges[k]}
    ensures forall c :: c != edges[k].condition ==> Outgoing(edges, source, c) == {}
  {
    OnlyEdgesAt(edges, source, {k});
  }

  /** A node no edge leaves. */
  lemma NoEdgeAt(edges: seq<EdgeSpec>, source: string)
    requires forall j :: 0 <= j < |edges| ==> edges[j].source != source
    ensures forall c :: Outgoing(edges, source, c) == {}
  {
    OnlyEdgesAt(edges, source, {});
  }

  /**
   * Formatting has only a success edge, to delivery; delivery has only an always edge, to
   * compilation; the two terminal nodes have no outgoing edge at all.
   */
  lemma DeliveryAndTerminals()
    ensures Outgoing(DefaultEdges, FormatId, OnSuccess) == {DefaultEdges[6]}
    ensures DefaultEdges[6].target == Some(PostId)
    ensures Outgoing(DefaultEdges, FormatId, OnFailure) == {} && Outgoing(DefaultEdges, FormatId, Always) == {}
    ensures Outgoing(DefaultEdges, PostId, Always) == {DefaultEdges[7]}
    ensures DefaultEdges[7].target == Some(CompileId)
    ensures Outgoing(DefaultEdges, PostId, OnSuccess) == {} && Outgoing(DefaultEdges, PostId, OnFailure) == {}
    ensures forall c :: Outgoing(DefaultEdges, CompileId, c) == {} && Outgoing(DefaultEdges, HandleErrorId, c) == {}
  {
    EdgeSources();
    EdgeTargets();
    IdsDistinct();
    SingleEdgeAt(DefaultEdges, FormatId, 6);
    SingleEdgeAt(DefaultEdges, PostId, 7);
    NoEdgeAt(DefaultEdges, CompileId);
    NoEdgeAt(DefaultEdges, HandleErrorId);
  }

  /** The nodes a success of `node` leads to: the targets of its success and always edges. */
  function SuccessTargets(edges: seq<EdgeSpec>, node: string): set<string> {
    set e | e in edges && e.source == node && e.condition != OnFailure && e.target.Some? :: e.target.value
  }

  /** A success of a node whose success and always edges are exactly `edge` leads to that edge's target only. */
  lemma SuccessTargetOf(edges: seq<EdgeSpec>, node: string, edge: EdgeSpec)
    requires edge in edges && edge.target.Some?
    requires Outgoing(edges, node, OnSuccess) + Outgoing(edges, node, Always) == {edge}
    ensures SuccessTargets(edges, node) == {edge.target.value}
  {
    forall x | x in SuccessTargets(edges, node)
      ensures x == edge.target.value
    {
      var e :| e in edges && e.source == node && e.condition != OnFailure && e.target.Some? && e.target.value == x;
      assert e in Outgoing(edges, node, e.condition);
    }
    assert edge in Outgoing(edges, node, OnSuccess) + Outgoing(edges, node, Always);
  }

  /** A node without outgoing edges leads nowhere. */
  lemma NoSuccessTargets(edges: seq<EdgeSpec>, node: string)
    requires forall c :: Outgoing(edges, node, c) == {}
    ensures SuccessTargets(edges, node) == {}
  {
    assert forall e :: e in edges && e.source == node ==> e in Outgoing(edges, node, e.condition);
  }

  /**
   * When every stage succeeds the run is determined: from the entry node it visits
   * validation, extraction, parsing, formatting, delivery and compilation, and stops there.
   */
  lemma SuccessPath()
    ensures EntryNode == ValidateId
    ensures SuccessTargets(DefaultEdges, ValidateId) == {ExtractId}
    ensures SuccessTargets(DefaultEdges, ExtractId) == {ParseId}
    ensures SuccessTargets(DefaultEdges, ParseId) == {FormatId}
    ensures SuccessTargets(DefaultEdges, FormatId) == {PostId}
    ensures SuccessTargets(DefaultEdges, PostId) == {CompileId}
    ensures SuccessTargets(DefaultEdges, CompileId) == {}
  {
    FallibleStagesRouteFailures();
    DeliveryAndTerminals();
    SuccessTargetOf(DefaultEdges, ValidateId, DefaultEdges[0]);
    SuccessTargetOf(DefaultEdges, ExtractId, DefaultEdges[2]);
    SuccessTargetOf(DefaultEdges, ParseId, DefaultEdges[4]);
    SuccessTargetOf(DefaultEdges, FormatId, DefaultEdges[6]);
    SuccessTargetOf(DefaultEdges, PostId, DefaultEdges[7]);
    NoSuccessTargets(DefaultEdges, CompileId);
  }

  /** Some edge leads from `a` to `b`. */
  predicate Linked(edges: seq<EdgeSpec>, a: string, b: string) {
    exists e :: e in edges && e.source == a && e.target == Some(b)
  }

  /** A path of nodes each joined to the next by an edge. */
  predicate IsPath(edges: seq<EdgeSpec>, path: seq<string>) {
    forall i :: 0 <= i < |path| - 1 ==> Linked(edges, path[i], path[i + 1])
  }

  /** The delivery part of the graph. */
  const DeliveryNodes: set<string> := {FormatId, PostId, CompileId}

  /** No edge leaves the node set `inside`. */
  predicate ClosedIn(edges: seq<EdgeSpec>, inside: set<string>) {
    forall e :: e in edges && e.source in inside ==> e.target.Some? && e.target.value in inside
  }

  /** Every edge leaving the delivery part stays in it. */
  lemma DeliveryClosed()
    ensures ClosedIn(DefaultEdges, DeliveryNodes)
  {
    EdgeSources();
    EdgeTargets();
    IdsDistinct();
    forall j | 0 <= j < |DefaultEdges| && DefaultEdges[j].source in DeliveryNodes
      ensures DefaultEdges[j].target.Some? && DefaultEdges[j].target.value in DeliveryNodes
    {
    }
  }

  /** One step along a path that starts inside a closed node set stays inside it. */
  lemma StepInside(edges: seq<EdgeSpec>, inside: set<string>, path: seq<string>, k: nat)
    requires ClosedIn(edges, inside) && IsPath(edges, path)
    requires k + 1 < |path| && path[k] in inside
    ensures path[k + 1] in inside
  {
    assert Linked(edges, path[k], path[k + 1]);
    var e :| e in edges && e.source == path[k] && e.target == Some(path[k + 1]);
  }

  /** A path that starts inside a node set with no way out stays inside it. */
  lemma PathStaysInside(edges: seq<EdgeSpec>, inside: set<string>, path: seq<string>)
    requires ClosedIn(edges, inside) && IsPath(edges, path)
    requires |path| > 0 && path[0] in inside
    ensures forall i :: 0 <= i < |path| ==> path[i] in inside
  {
    var k := 0;
    while k < |path| - 1
      invariant 0 <= k <= |path| - 1
      invariant forall i :: 0 <= i <= k ==> path[i] in inside
    {
      StepInside(edges, inside, path, k);
      k := k + 1;
    }
  }

  /** Once formatting has started, no path leads to `handle-error`: delivery failures are absorbed. */
  lemma DeliveryCannotFail(path: seq<string>)
    requires IsPath(DefaultEdges, path)
    requires |path| > 0 && path[0] in DeliveryNodes
    ensures forall i :: 0 <= i < |path| ==> path[i] in DeliveryNodes
    ensures HandleErrorId !in path
  {
    DeliveryClosed();
    PathStaysInside(DefaultEdges, DeliveryNodes, path);
    IdsDistinct();
  }

  // ---------------------------------------------------------------------------
  // info
  // ---------------------------------------------------------------------------

  const GoalName: string := "Meeting Notes & Action Item Agent"
  const GoalDescription: string :=
    "Given a meeting transcript, produce a fully structured report containing: "
    + "an executive summary, list of key decisions, action items with assigned owners "
    + "and due dates, blockers flagged during the meeting, and follow-up items. "
    + "Optionally deliver the report to a Slack channel."

  datatype AgentInfo = AgentInfo(
    name: string,
    version: string,
    description: string,
    goalName: string,
    goalDescription: string,
    nodes: seq<string>,
    edges: seq<string>,
    entryNode: string,
    entryPoints: seq<EntryPoint>,
    pauseNodes: seq<string>,
    terminalNodes: seq<string>,
    clientFacingNodes: seq<string>)

  /** The ids of the client-facing nodes, in node order. */
  function ClientFacing(nodes: seq<NodeSpec>): (r: seq<string>)
    ensures |r| <= |nodes|
  {
    if nodes == [] then []
    else
      var last := nodes[|nodes| - 1];
      ClientFacing(nodes[..|nodes| - 1]) + (if last.clientFacing then [last.id] else [])
  }

  /** An id is listed as client-facing exactly when some client-facing node has it. */
  lemma {:induction false} ClientFacingMembers(nodes: seq<NodeSpec>, x: string)
    ensures x in ClientFacing(nodes) <==> exists i :: 0 <= i < |nodes| && nodes[i].clientFacing && nodes[i].id == x
  {
    if nodes != [] {
      var n := |nodes| - 1;
      ClientFacingMembers(nodes[..n], x);
      if x in ClientFacing(nodes[..n]) {
        var i :| 0 <= i < n && nodes[..n][i].clientFacing && nodes[..n][i].id == x;
        assert nodes[i] == nodes[..n][i];
      }
      if exists i :: 0 <= i < |nodes| && nodes[i].clientFacing && nodes[i].id == x {
        var i :| 0 <= i < |nodes| && nodes[i].clientFacing && nodes[i].id == x;
        if i < n {
          assert nodes[..n][i] == nodes[i];
        }
      }
    }
  }

  /** `info`. */
  function Info(agent: MeetingNotesAgent): (r: AgentInfo)
    ensures r.nodes == NodeIds(agent.nodes) && r.edges == EdgeIds(agent.edges)
    ensures forall x :: x in r.clientFacingNodes <==>
      exists i :: 0 <= i < |agent.nodes| && agent.nodes[i].clientFacing && agent.nodes[i].id == x
  {
    forall x ensures x in ClientFacing(agent.nodes) <==>
      exists i :: 0 <= i < |agent.nodes| && agent.nodes[i].clientFacing && agent.nodes[i].id == x
    {
      ClientFacingMembers(agent.nodes, x);
    }
    AgentInfo(AgentName, AgentVersion, AgentDescription, GoalName, GoalDescription,
              NodeIds(agent.nodes), EdgeIds(agent.edges), agent.entryNode, agent.entryPoints,
              agent.pauseNodes, agent.terminalNodes, ClientFacing(agent.nodes))
  }

  /** The shipped agent reports its seven nodes and eight edges, and exactly the two terminal nodes as client-facing. */
  lemma DefaultInfo()
    ensures var info := Info(DefaultAgent);
      && info.nodes == [ValidateId, ExtractId, ParseId, FormatId, PostId, CompileId, HandleErrorId]
      && |info.edges| == 8
      && info.clientFacingNodes == [CompileId, HandleErrorId]
      && info.clientFacingNodes == TerminalNodes
  {
    var ns := DefaultNodes;
    assert ns[..7] == ns;
    assert ClientFacing(ns[..1]) == [] by { assert ns[..1][..0] == []; }
    assert ClientFacing(ns[..2]) == [] by { assert ns[..2][..1] == ns[..1]; }
    assert ClientFacing(ns[..3]) == [] by { assert ns[..3][..2] == ns[..2]; }
    assert ClientFacing(ns[..4]) == [] by { assert ns[..4][..3] == ns[..3]; }
    assert ClientFacing(ns[..5]) == [] by { assert ns[..5][..4] == ns[..4]; }
    assert ClientFacing(ns[..6]) == [CompileId] by { assert ns[..6][..5] == ns[..5]; }
    assert ClientFacing(ns[..7]) == [CompileId, HandleErrorId] by { assert ns[..7][..6] == ns[..6]; }
  }
}
