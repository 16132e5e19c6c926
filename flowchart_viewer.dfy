/** The interactive flowchart view (client/src/components/FlowchartViewer.jsx): nodes
    without a position are laid on a three-column grid, and the auto-layout hands the graph
    to the layout engine and turns the centres it returns into top-left positions. The
    layout engine itself is a parameter: a function from the graph handed to it to the
    centre of every node it placed. */
module FlowchartViewer {
  import opened Optional
  import opened FlowGraph

  // ---------------------------------------------------------------------------
  // Default positions (getInitializedNodes)
  // ---------------------------------------------------------------------------

  /** The position given to the node at `index` when it has none: three columns 200 apart
      from x = 100, rows 100 apart from y = 100. */
  function DefaultPosition(index: nat): (p: Point)
    ensures p.x == 100 || p.x == 300 || p.x == 500
    ensures p.y >= 100 && (p.y - 100) % 100 == 0
  {
    Point(100 + (index % 3) * 200, 100 + (index / 3) * 100)
  }

  /** No two indices share a grid cell. */
  lemma DefaultPositionsDistinct(i: nat, j: nat)
    requires i != j
    ensures DefaultPosition(i) != DefaultPosition(j)
  {
    if i % 3 == j % 3 {
      assert i / 3 != j / 3;
    }
  }

  /** Three indices on, the same column one row down. */
  lemma DefaultPositionNextRow(i: nat)
    ensures DefaultPosition(i + 3) == Point(DefaultPosition(i).x, DefaultPosition(i).y + 100)
  {
    assert (i + 3) % 3 == i % 3;
    assert (i + 3) / 3 == i / 3 + 1;
  }

  /** One node of `getInitializedNodes`: its own position if it has one, else the grid cell
      of its index; nothing else changes. */
  function Initialized(n: Node, index: nat): (r: Node)
    ensures r.position.Some?
    ensures n.position.Some? ==> r == n
    ensures n.position.None? ==> r == n.(position := Some(DefaultPosition(index)))
  {
    n.(position := if n.position.Some? then n.position else Some(DefaultPosition(index)))
  }

  function InitializedNodes(nodes: seq<Node>): (r: seq<Node>)
    ensures |r| == |nodes|
    ensures forall i | 0 <= i < |nodes| ::
      r[i].id == nodes[i].id && r[i].nodeType == nodes[i].nodeType && r[i].labelText == nodes[i].labelText
      && r[i].position.Some?
  {
    seq(|nodes|, i requires 0 <= i < |nodes| => Initialized(nodes[i], i))
  }

  /** A node that has a position keeps it; one without gets the grid cell of its index. */
  lemma InitializedPositions(nodes: seq<Node>, i: nat)
    requires i < |nodes|
    ensures nodes[i].position.Some? ==> InitializedNodes(nodes)[i] == nodes[i]
    ensures nodes[i].position.None? ==> InitializedNodes(nodes)[i].position == Some(DefaultPosition(i))
  {
  }

  /** Initializing twice is initializing once. */
  lemma InitializedIdempotent(nodes: seq<Node>)
    ensures InitializedNodes(InitializedNodes(nodes)) == InitializedNodes(nodes)
  {
    var once := InitializedNodes(nodes);
    forall i | 0 <= i < |nodes| ensures InitializedNodes(once)[i] == once[i] {
      assert once[i].position.Some?;
    }
  }

  /** When no node arrives with a position, no two nodes start on the same spot. */
  lemma InitializedApart(nodes: seq<Node>, i: nat, j: nat)
    requires i < j < |nodes|
    requires nodes[i].position.None? && nodes[j].position.None?
    ensures InitializedNodes(nodes)[i].position != InitializedNodes(nodes)[j].position
  {
    DefaultPositionsDistinct(i, j);
  }

  // ---------------------------------------------------------------------------
  // Auto-layout (onLayout)
  // ---------------------------------------------------------------------------

  datatype Size = Size(width: int, height: int)

  /** The box handed to the layout engine: 120 by 120 for a decision, 180 by 60 otherwise. */
  function LayoutSize(nodeType: string): (s: Size)
    ensures s.width > 0 && s.height > 0
    ensures nodeType == "decision" <==> s == Size(120, 120)
    ensures nodeType != "decision" <==> s == Size(180, 60)
  {
    if nodeType == "decision" then Size(120, 120) else Size(180, 60)
  }

  /** The top-left corner of a box of the node's layout size centred on `centre`. */
  function TopLeft(centre: Point, nodeType: string): (p: Point)
    ensures p.x + LayoutSize(nodeType).width / 2 == centre.x
    ensures p.y + LayoutSize(nodeType).height / 2 == centre.y
  {
    Point(centre.x - (if nodeType == "decision" then 60 else 90),
          centre.y - (if nodeType == "decision" then 60 else 30))
  }

  /** What the layout engine is given: the size of every node by id, and the links. */
  datatype LayoutGraph = LayoutGraph(sizes: map<string, Size>, links: set<(string, string)>)

  function SizeOf(n: Node): Size {
    LayoutSize(n.nodeType)
  }

  /** A node after layout: with a centre from the engine, the top-left of its box centred
      there; without one, unchanged. */
  function Placed(n: Node, centres: map<string, Point>): (r: Node)
    ensures r.id == n.id && r.nodeType == n.nodeType && r.labelText == n.labelText
    ensures n.id !in centres ==> r == n
    ensures n.id in centres ==> r.position == Some(TopLeft(centres[n.id], n.nodeType))
  {
    if n.id in centres then n.(position := Some(TopLeft(centres[n.id], n.nodeType))) else n
  }

  function LayoutNodes(nodes: seq<Node>, centres: map<string, Point>): (r: seq<Node>)
    ensures |r| == |nodes|
    ensures forall i | 0 <= i < |nodes| ::
      r[i].id == nodes[i].id && r[i].nodeType == nodes[i].nodeType && r[i].labelText == nodes[i].labelText
  {
    seq(|nodes|, i requires 0 <= i < |nodes| => Placed(nodes[i], centres))
  }

  /** Every node the engine placed is centred on its centre; the others keep their place. */
  lemma LayoutCentres(nodes: seq<Node>, centres: map<string, Point>, i: nat)
    requires i < |nodes|
    ensures var n, r := nodes[i], LayoutNodes(nodes, centres)[i];
      (n.id in centres ==>
         (r.position.Some?
          && r.position.value.x + LayoutSize(n.nodeType).width / 2 == centres[n.id].x
          && r.position.value.y + LayoutSize(n.nodeType).height / 2 == centres[n.id].y))
      && (n.id !in centres ==> r == n)
  {
  }

  /** Applying the same layout result twice places every node where once does. */
  lemma LayoutIdempotent(nodes: seq<Node>, centres: map<string, Point>)
    ensures LayoutNodes(LayoutNodes(nodes, centres), centres) == LayoutNodes(nodes, centres)
  {
  }

  /** The view's state: the node list (with positions) and the edge list. */
  class Viewer {
    var nodes: seq<Node>
    var edges: seq<Edge>

    /** The initial state: the flowchart's nodes given positions, or nothing without one. */
    constructor (flowData: Option<Flowchart>)
      ensures flowData.None? ==> nodes == [] && edges == []
      ensures flowData.Some? ==> nodes == InitializedNodes(flowData.value.nodes) && edges == flowData.value.edges
    {
      if flowData.Some? {
        nodes := InitializedNodes(flowData.value.nodes);
        edges := flowData.value.edges;
      } else {
        nodes := [];
        edges := [];
      }
    }

    /** `onLayout` (client/src/components/FlowchartViewer.jsx:131-173): nothing to do without
        nodes; otherwise hand every node's size and every link to the engine and place each
        node by the centre it returns. The edge list is untouched. */
    method OnLayout(layout: LayoutGraph -> map<string, Point>)
      modifies this
      ensures edges == old(edges)
      ensures old(nodes) == [] ==> nodes == []
      ensures old(nodes) != [] ==>
        nodes == LayoutNodes(old(nodes), layout(LayoutGraph(ById(old(nodes), SizeOf), EdgePairs(old(edges)))))
    {
      if |nodes| == 0 {
        return;
      }
      var sizes := BuildSizes(nodes);
      var links := BuildLinks(edges);
      var centres := layout(LayoutGraph(sizes, links));
      nodes := PlaceNodes(nodes, centres);
    }
  }

  /** The `setNode` loop (client/src/components/FlowchartViewer.jsx:139-144). */
  method BuildSizes(nodes: seq<Node>) returns (sizes: map<string, Size>)
    ensures sizes == ById(nodes, SizeOf)
  {
    sizes := map[];
    for i := 0 to |nodes|
      invariant sizes == ById(nodes[..i], SizeOf)
    {
      assert nodes[..i + 1][..i] == nodes[..i];
      sizes := sizes[nodes[i].id := SizeOf(nodes[i])];
    }
    assert nodes[..|nodes|] == nodes;
  }

  /** The `setEdge` loop (client/src/components/FlowchartViewer.jsx:146-148). */
  method BuildLinks(edges: seq<Edge>) returns (links: set<(string, string)>)
    ensures links == EdgePairs(edges)
  {
    links := {};
    for j := 0 to |edges|
      invariant links == EdgePairs(edges[..j])
    {
      assert edges[..j + 1][..j] == edges[..j];
      links := links + {(edges[j].source, edges[j].target)};
    }
    assert edges[..|edges|] == edges;
  }

  /** The map over the nodes (client/src/components/FlowchartViewer.jsx:154-170). */
  method PlaceNodes(nodes: seq<Node>, centres: map<string, Point>) returns (layouted: seq<Node>)
    ensures layouted == LayoutNodes(nodes, centres)
  {
    layouted := [];
    for i := 0 to |nodes|
      invariant |layouted| == i
      invariant forall k | 0 <= k < i :: layouted[k] == Placed(nodes[k], centres)
    {
      layouted := layouted + [Placed(nodes[i], centres)];
    }
  }
}
