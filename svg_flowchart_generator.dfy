/** The graph the static flowchart renderer builds before drawing
    (client/src/components/SvgFlowchartGenerator.jsx:16-70): one graph node per flowchart
    node, styled by its type, and one graph edge per (source, target) pair. The graph object
    is a class whose two maps its `SetNode` and `SetEdge` update as the graph library does:
    a later value for the same key replaces the earlier one, and an edge whose endpoint is
    not yet a node adds that endpoint as a node without a value. */
module SvgFlowchartGenerator {
  import opened Optional
  import opened FlowGraph

  // ---------------------------------------------------------------------------
  // The type switch (client/src/components/SvgFlowchartGenerator.jsx:29-50)
  // ---------------------------------------------------------------------------

  const StartEndStyle: string := "fill: #263C59; stroke: #58A6FF; rx: 20px; ry: 20px;"
  const DecisionStyle: string := "fill: #2D333B; stroke: #FFCA28;"
  const IoStyle: string := "fill: #2D333B; stroke: #7CE38B;"
  const DefaultStyle: string := "fill: #2D333B; stroke: #A371F7;"

  predicate IsTerminal(nodeType: string) {
    nodeType == "start" || nodeType == "end"
  }

  datatype Appearance = Appearance(shape: string, style: string)

  /** The shape and style chosen by the node type: a diamond only for a decision, a
      rectangle otherwise, and one of four styles. */
  function AppearanceOf(nodeType: string): (a: Appearance)
    ensures a.shape == "diamond" <==> nodeType == "decision"
    ensures a.shape == "rect" <==> nodeType != "decision"
    ensures a.style == StartEndStyle <==> IsTerminal(nodeType)
    ensures a.style == DecisionStyle <==> nodeType == "decision"
    ensures a.style == IoStyle <==> nodeType == "io"
    ensures a.style == DefaultStyle <==> !IsTerminal(nodeType) && nodeType != "decision" && nodeType != "io"
  {
    if IsTerminal(nodeType) then Appearance("rect", StartEndStyle)
    else if nodeType == "decision" then Appearance("diamond", DecisionStyle)
    else if nodeType == "io" then Appearance("rect", IoStyle)
    else Appearance("rect", DefaultStyle)
  }

  /** The value a flowchart node is given in the graph. */
  datatype GraphNode = GraphNode(labelText: string, shape: string, style: string, rx: int, ry: int, className: string)

  /** client/src/components/SvgFlowchartGenerator.jsx:52-59: the node's label, its
      appearance, corner radii of 15 for a terminal and 5 otherwise, and the class
      `node-<type>`. */
  function NodeValue(n: Node): (v: GraphNode)
    ensures v.labelText == n.labelText
    ensures Appearance(v.shape, v.style) == AppearanceOf(n.nodeType)
    ensures v.rx == v.ry
    ensures v.rx == 15 <==> IsTerminal(n.nodeType)
    ensures v.rx == 5 <==> !IsTerminal(n.nodeType)
    ensures |v.className| == 5 + |n.nodeType| && v.className[..5] == "node-" && v.className[5..] == n.nodeType
  {
    var a := AppearanceOf(n.nodeType);
    var radius := if IsTerminal(n.nodeType) then 15 else 5;
    GraphNode(n.labelText, a.shape, a.style, radius, radius, "node-" + n.nodeType)
  }

  const EdgeStyle: string := "stroke: #8b949e; stroke-width: 1.5px;"
  const ArrowheadStyle: string := "fill: #8b949e;"

  /** The value a flowchart edge is given in the graph (its curve is left out). */
  datatype GraphEdge = GraphEdge(labelText: string, style: string, arrowheadStyle: string)

  /** `edge.label || ''`: the edge's label, or the empty label when it has none. */
  function EdgeValue(e: Edge): (v: GraphEdge)
    ensures e.labelText.Some? ==> v.labelText == e.labelText.value
    ensures e.labelText.None? ==> v.labelText == ""
    ensures v.style == EdgeStyle && v.arrowheadStyle == ArrowheadStyle
  {
    GraphEdge(if e.labelText.Some? then e.labelText.value else "", EdgeStyle, ArrowheadStyle)
  }

  // ---------------------------------------------------------------------------
  // The graph object
  // ---------------------------------------------------------------------------

  /** The node map after an edge touches `id`: unchanged when `id` is a node, otherwise
      `id` added without a value. */
  function WithEndpoint(nodes: map<string, Option<GraphNode>>, id: string): (r: map<string, Option<GraphNode>>)
    ensures r.Keys == nodes.Keys + {id}
    ensures forall k | k in nodes :: r[k] == nodes[k]
    ensures id !in nodes ==> r[id] == None
  {
    if id in nodes then nodes else nodes[id := None]
  }

  class RenderGraph {
    var nodes: map<string, Option<GraphNode>>
    var edges: map<(string, string), GraphEdge>

    constructor ()
      ensures nodes == map[] && edges == map[]
    {
      nodes := map[];
      edges := map[];
    }

    method SetNode(id: string, value: GraphNode)
      modifies this
      ensures nodes == old(nodes)[id := Some(value)]
      ensures edges == old(edges)
    {
      nodes := nodes[id := Some(value)];
    }

    method SetEdge(source: string, target: string, value: GraphEdge)
      modifies this
      ensures edges == old(edges)[(source, target) := value]
      ensures nodes == WithEndpoint(WithEndpoint(old(nodes), source), target)
    {
      nodes := WithEndpoint(WithEndpoint(nodes, source), target);
      edges := edges[(source, target) := value];
    }
  }

  // ---------------------------------------------------------------------------
  // What the two loops build
  // ---------------------------------------------------------------------------

  function NodeEntry(n: Node): Option<GraphNode> {
    Some(NodeValue(n))
  }

  /** The node map after the edge loop: every endpoint not yet a node is added without a
      value, and every node already there keeps its value. */
  function EdgeEndpoints(nodes: map<string, Option<GraphNode>>, edges: seq<Edge>): (r: map<string, Option<GraphNode>>)
    ensures forall k | k in nodes :: k in r && r[k] == nodes[k]
    ensures forall e | e in edges :: e.source in r && e.target in r
    ensures forall k | k in r && k !in nodes :: r[k] == None && exists e | e in edges :: k == e.source || k == e.target
  {
    if edges == [] then nodes
    else
      var front := edges[..|edges| - 1];
      var last := edges[|edges| - 1];
      EdgesSplit(edges);
      WithEndpoint(WithEndpoint(EdgeEndpoints(nodes, front), last.source), last.target)
  }

  /** The edge map after the edge loop: one entry per (source, target) pair, the last edge
      of a pair giving its value. */
  function GraphEdges(edges: seq<Edge>): (m: map<(string, string), GraphEdge>)
    ensures m.Keys == EdgePairs(edges)
  {
    if edges == [] then map[]
    else
      var last := edges[|edges| - 1];
      GraphEdges(edges[..|edges| - 1])[(last.source, last.target) := EdgeValue(last)]
  }

  /** An edge no later edge shares its endpoints with is kept with its own value. */
  lemma {:induction false} GraphEdgesOf(edges: seq<Edge>, i: nat)
    requires i < |edges|
    requires forall j | i < j < |edges| :: (edges[j].source, edges[j].target) != (edges[i].source, edges[i].target)
    ensures GraphEdges(edges)[(edges[i].source, edges[i].target)] == EdgeValue(edges[i])
  {
    var front := edges[..|edges| - 1];
    if i < |edges| - 1 {
      assert front[i] == edges[i];
      forall j | i < j < |front| ensures (front[j].source, front[j].target) != (front[i].source, front[i].target) {
        assert front[j] == edges[j];
      }
      GraphEdgesOf(front, i);
    }
  }

  /** Edges whose endpoints are all nodes already add no node. */
  lemma {:induction false} EndpointsPresent(nodes: map<string, Option<GraphNode>>, edges: seq<Edge>)
    requires forall e | e in edges :: e.source in nodes && e.target in nodes
    ensures EdgeEndpoints(nodes, edges) == nodes
  {
    if edges != [] {
      EdgesSplit(edges);
      EndpointsPresent(nodes, edges[..|edges| - 1]);
    }
  }

  /** In a flowchart whose edges join its own nodes, the edge loop adds no node. */
  lemma ClosedAddsNoNode(g: Flowchart)
    requires EdgesClosed(g)
    ensures EdgeEndpoints(ById(g.nodes, NodeEntry), g.edges) == ById(g.nodes, NodeEntry)
  {
    EndpointsPresent(ById(g.nodes, NodeEntry), g.edges);
  }

  /** A well-formed flowchart gives exactly one graph node per node, keyed by its id and
      holding its label and style, and no other node. */
  lemma WellFormedGraphNodes(g: Flowchart, i: nat)
    requires WellFormed(g) && i < |g.nodes|
    ensures EdgeEndpoints(ById(g.nodes, NodeEntry), g.edges).Keys == NodeIds(g.nodes)
    ensures EdgeEndpoints(ById(g.nodes, NodeEntry), g.edges)[g.nodes[i].id] == Some(NodeValue(g.nodes[i]))
  {
    ClosedAddsNoNode(g);
    ByIdOf(g.nodes, NodeEntry, i);
  }

  // ---------------------------------------------------------------------------
  // The two loops
  // ---------------------------------------------------------------------------

  /** client/src/components/SvgFlowchartGenerator.jsx:16-70: a new graph, `setNode` for
      every node, then `setEdge` for every edge. */
  method BuildGraph(flow: Flowchart) returns (g: RenderGraph)
    ensures fresh(g)
    ensures g.nodes == EdgeEndpoints(ById(flow.nodes, NodeEntry), flow.edges)
    ensures g.edges == GraphEdges(flow.edges)
  {
    g := new RenderGraph();
    AddNodes(g, flow.nodes);
    AddEdges(g, flow.edges);
  }

  /** The node loop (client/src/components/SvgFlowchartGenerator.jsx:27-60), on a new graph. */
  method AddNodes(g: RenderGraph, nodes: seq<Node>)
    requires g.nodes == map[]
    modifies g
    ensures g.nodes == ById(nodes, NodeEntry)
    ensures g.edges == old(g.edges)
  {
    for i := 0 to |nodes|
      invariant g.nodes == ById(nodes[..i], NodeEntry)
      invariant g.edges == old(g.edges)
    {
      assert nodes[..i + 1][..i] == nodes[..i];
      g.SetNode(nodes[i].id, NodeValue(nodes[i]));
    }
    assert nodes[..|nodes|] == nodes;
  }

  /** The edge loop (client/src/components/SvgFlowchartGenerator.jsx:63-70), on a graph
      without edges. */
  method AddEdges(g: RenderGraph, edges: seq<Edge>)
    requires g.edges == map[]
    modifies g
    ensures g.nodes == EdgeEndpoints(old(g.nodes), edges)
    ensures g.edges == GraphEdges(edges)
  {
    for j := 0 to |edges|
      invariant g.nodes == EdgeEndpoints(old(g.nodes), edges[..j])
      invariant g.edges == GraphEdges(edges[..j])
    {
      assert edges[..j + 1][..j] == edges[..j];
      g.SetEdge(edges[j].source, edges[j].target, EdgeValue(edges[j]));
    }
    assert edges[..|edges|] == edges;
  }
}
