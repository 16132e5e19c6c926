/** The node/edge flowchart description shared by the JSON endpoint and the two client
    renderers: a node has an id, a type `nodeType` (start, process, decision, io or end, though any
    string may arrive), a label `labelText` and, on the client, an optional position. */
module FlowGraph {
  import opened Optional

  datatype Point = Point(x: int, y: int)

  datatype Node = Node(id: string, nodeType: string, labelText: string, position: Option<Point>)

  datatype Edge = Edge(id: string, source: string, target: string, labelText: Option<string>)

  datatype Flowchart = Flowchart(nodes: seq<Node>, edges: seq<Edge>)

  function NodeIds(nodes: seq<Node>): (ids: set<string>)
    ensures forall i | 0 <= i < |nodes| :: nodes[i].id in ids
    ensures forall id | id in ids :: exists i | 0 <= i < |nodes| :: nodes[i].id == id
  {
    set i | 0 <= i < |nodes| :: nodes[i].id
  }

  predicate DistinctNodeIds(nodes: seq<Node>) {
    forall i, j | 0 <= i < j < |nodes| :: nodes[i].id != nodes[j].id
  }

  predicate DistinctEdgeIds(edges: seq<Edge>) {
    forall i, j | 0 <= i < j < |edges| :: edges[i].id != edges[j].id
  }

  /** Every edge starts and ends at a node of the graph. */
  predicate EdgesClosed(g: Flowchart) {
    forall e | e in g.edges :: e.source in NodeIds(g.nodes) && e.target in NodeIds(g.nodes)
  }

  predicate WellFormed(g: Flowchart) {
    DistinctNodeIds(g.nodes) && DistinctEdgeIds(g.edges) && EdgesClosed(g)
  }

  /** The edges leaving node `id`, in order. */
  function OutEdges(edges: seq<Edge>, id: string): (r: seq<Edge>)
    ensures |r| <= |edges|
  {
    if edges == [] then []
    else if edges[0].source == id then [edges[0]] + OutEdges(edges[1..], id)
    else OutEdges(edges[1..], id)
  }

  /** `OutEdges` keeps exactly the edges whose source is `id`. */
  lemma {:induction false} OutEdgesMembers(edges: seq<Edge>, id: string)
    ensures forall e | e in OutEdges(edges, id) :: e in edges && e.source == id
    ensures forall e | e in edges && e.source == id :: e in OutEdges(edges, id)
  {
    if edges != [] {
      OutEdgesMembers(edges[1..], id);
      assert edges == [edges[0]] + edges[1..];
    }
  }

  /** A value for every node keyed by its id, the nodes taken in order: a later node with
      the same id replaces an earlier one, as repeated `setNode` calls on a graph do. */
  function ById<V>(nodes: seq<Node>, f: Node -> V): (m: map<string, V>)
    ensures m.Keys == NodeIds(nodes)
  {
    if nodes == [] then map[]
    else
      var last := nodes[|nodes| - 1];
      assert NodeIds(nodes) == NodeIds(nodes[..|nodes| - 1]) + {last.id} by {
        assert forall k | 0 <= k < |nodes| - 1 :: nodes[..|nodes| - 1][k] == nodes[k];
      }
      ById(nodes[..|nodes| - 1], f)[last.id := f(last)]
  }

  /** With distinct ids, every node is keyed to its own value. */
  lemma {:induction false} ByIdOf<V>(nodes: seq<Node>, f: Node -> V, i: nat)
    requires DistinctNodeIds(nodes) && i < |nodes|
    ensures ById(nodes, f)[nodes[i].id] == f(nodes[i])
  {
    var front := nodes[..|nodes| - 1];
    if i < |nodes| - 1 {
      assert front[i] == nodes[i];
      assert DistinctNodeIds(front) by {
        forall a, b | 0 <= a < b < |front| ensures front[a].id != front[b].id {
          assert front[a] == nodes[a] && front[b] == nodes[b];
        }
      }
      ByIdOf(front, f, i);
    }
  }

  /** The (source, target) pairs of the edges: a graph that is not a multigraph keeps one
      edge per pair. */
  function EdgePairs(edges: seq<Edge>): (s: set<(string, string)>)
    ensures forall e | e in edges :: (e.source, e.target) in s
    ensures forall l | l in s :: exists e | e in edges :: (e.source, e.target) == l
  {
    if edges == [] then {}
    else
      var front := edges[..|edges| - 1];
      var last := edges[|edges| - 1];
      EdgesSplit(edges);
      EdgePairs(front) + {(last.source, last.target)}
  }

  /** Every edge of a non-empty list is among the ones before the last, or is the last. */
  lemma EdgesSplit(edges: seq<Edge>)
    requires edges != []
    ensures forall e | e in edges :: e in edges[..|edges| - 1] || e == edges[|edges| - 1]
    ensures forall e | e in edges[..|edges| - 1] :: e in edges
  {
    forall e | e in edges ensures e in edges[..|edges| - 1] || e == edges[|edges| - 1] {
      var k :| 0 <= k < |edges| && edges[k] == e;
      if k < |edges| - 1 {
        assert edges[..|edges| - 1][k] == e;
      }
    }
  }
}
