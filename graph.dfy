/**
  The diagram being built: a set of node captions and the sequence of directed
  edges in creation order. Nodes are identified by caption, so creating a node
  whose caption already exists hands back the existing node.
 */
module Graph {

  /** A directed edge from a child node to its owner's node. */
  datatype Edge = Edge(from: string, to: string)

  /** The graph's contents as a value. */
  datatype GraphValue = GraphValue(nodes: set<string>, edges: seq<Edge>) {

    /** Every edge joins two nodes of the graph. */
    ghost predicate WellFormed() {
      forall i :: 0 <= i < |edges| ==> edges[i].from in nodes && edges[i].to in nodes
    }

    function AddNode(caption: string): (g: GraphValue)
      ensures g.nodes == nodes + {caption} && g.edges == edges
      ensures caption in nodes ==> g == this
    {
      GraphValue(nodes + {caption}, edges)
    }

    function AddEdge(from: string, to: string): (g: GraphValue)
      ensures g.nodes == nodes
      ensures |g.edges| == |edges| + 1 && g.edges[..|edges|] == edges
      ensures g.edges[|edges|] == Edge(from, to)
    {
      GraphValue(nodes, edges + [Edge(from, to)])
    }
  }

  const Empty := GraphValue({}, [])

  /** The owners' captions an edge sequence points to. */
  function Targets(edges: seq<Edge>): set<string> {
    set i | 0 <= i < |edges| :: edges[i].to
  }

  lemma TargetsAppend(a: seq<Edge>, b: seq<Edge>)
    ensures Targets(a + b) == Targets(a) + Targets(b)
  {
    forall t | t in Targets(a + b) ensures t in Targets(a) + Targets(b) {
      var i :| 0 <= i < |a + b| && (a + b)[i].to == t;
      if i >= |a| { assert b[i - |a|].to == t; }
    }
    forall t | t in Targets(a) ensures t in Targets(a + b) {
      var i :| 0 <= i < |a| && a[i].to == t;
      assert (a + b)[i] == a[i];
    }
    forall t | t in Targets(b) ensures t in Targets(a + b) {
      var i :| 0 <= i < |b| && b[i].to == t;
      assert (a + b)[|a| + i] == b[i];
    }
  }

  /** The mutable graph the walker draws into. */
  class Graph {
    var nodes: set<string>
    var edges: seq<Edge>

    function Value(): GraphValue
      reads this
    {
      GraphValue(nodes, edges)
    }

    ghost predicate Valid()
      reads this
    {
      Value().WellFormed()
    }

    constructor ()
      ensures Value() == Empty && Valid()
    {
      nodes, edges := {}, [];
    }

    /** Creates the node captioned `caption`, or finds it if it exists. */
    method CreateNode(caption: string) returns (node: string)
      requires Valid()
      modifies this
      ensures Valid()
      ensures node == caption && node in nodes
      ensures Value() == old(Value()).AddNode(caption)
    {
      nodes := nodes + {caption};
      node := caption;
    }

    /** Appends an edge between two existing nodes. */
    method CreateEdge(from: string, to: string)
      requires Valid() && from in nodes && to in nodes
      modifies this
      ensures Valid()
      ensures Value() == old(Value()).AddEdge(from, to)
    {
      edges := edges + [Edge(from, to)];
    }
  }
}
