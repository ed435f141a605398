/**
  The ownership-lineage walker. For each owner reference of an object, in list
  order, it creates (or finds) the owner's node, adds an edge from the child to
  it, resolves the owner's type, fetches the owner's own owner references in the
  run's namespace, and descends into them when there is a list. The descent
  finishes one owner's whole ancestry before the next sibling: it is depth-first.

  Ownership data may be cyclic, on which the unbounded walk never returns. Here
  the depth of descent is bounded by `fuel`, and running out of it is the
  outcome OutOfFuel.
 */
module Walker {
  import opened Outcomes
  import opened Cluster
  import opened Labels
  import opened Graph

  /** A walk's final graph and the error that stopped it, if any. */
  datatype Outcome = Outcome(graph: GraphValue, err: Option<Error>)

  /**
    The graph after walking `owners` below the node `child`, starting from
    graph `g`; on an error the graph is as it was when the error struck.
   */
  function Walk(c: Cluster, ns: string, owners: seq<OwnerRef>, child: string, g: GraphValue, fuel: nat)
    : (out: Outcome)
    decreases fuel, |owners|
  {
    if owners == [] then Outcome(g, None)
    else if fuel == 0 then Outcome(g, Some(OutOfFuel))
    else
      var o := owners[0];
      var ownerNode := OwnerLabel(o);
      var g1 := g.AddNode(ownerNode).AddEdge(child, ownerNode);
      var lookup := OwnerLookup(c, ns, o);
      if lookup.Failure? then Outcome(g1, Some(lookup.error))
      else
        var sub := if lookup.value.Some? then Walk(c, ns, lookup.value.value, ownerNode, g1, fuel - 1) else Outcome(g1, None);
        if sub.err.Some? then sub else Walk(c, ns, owners[1..], child, sub.graph, fuel)
  }

  /** The edges a walk emits, in order, and the error that stopped it, if any. */
  datatype Trace = Trace(edges: seq<Edge>, err: Option<Error>)

  /**
    The same walk with the graph left out: the graph never steers the walk, so
    the edge sequence alone determines what is drawn.
   */
  function Lineage(c: Cluster, ns: string, owners: seq<OwnerRef>, child: string, fuel: nat): (t: Trace)
    ensures owners == [] ==> t == Trace([], None)
    ensures owners != [] && fuel > 0 ==> |t.edges| >= 1 && t.edges[0] == Edge(child, OwnerLabel(owners[0]))
    decreases fuel, |owners|
  {
    if owners == [] then Trace([], None)
    else if fuel == 0 then Trace([], Some(OutOfFuel))
    else
      var o := owners[0];
      var here := [Edge(child, OwnerLabel(o))];
      var lookup := OwnerLookup(c, ns, o);
      if lookup.Failure? then Trace(here, Some(lookup.error))
      else
        var sub := if lookup.value.Some? then Lineage(c, ns, lookup.value.value, OwnerLabel(o), fuel - 1) else Trace([], None);
        if sub.err.Some? then Trace(here + sub.edges, sub.err)
        else
          var rest := Lineage(c, ns, owners[1..], child, fuel);
          Trace(here + sub.edges + rest.edges, rest.err)
  }

  /** `g` with the edges of a trace appended and their owners' nodes added. */
  function Extend(g: GraphValue, edges: seq<Edge>): GraphValue {
    GraphValue(g.nodes + Targets(edges), g.edges + edges)
  }

  /** Extending in two steps is extending by the concatenation. */
  lemma ExtendTwice(g: GraphValue, a: seq<Edge>, b: seq<Edge>)
    ensures Extend(Extend(g, a), b) == Extend(g, a + b)
  {
    TargetsAppend(a, b);
    assert g.edges + a + b == g.edges + (a + b);
  }

  /**
    Walking draws exactly the lineage's edges after the existing ones and adds
    exactly their owners' nodes, whatever graph the walk starts from.
   */
  lemma {:induction false} WalkFollowsLineage(c: Cluster, ns: string, owners: seq<OwnerRef>, child: string, g: GraphValue, fuel: nat)
    ensures var t := Lineage(c, ns, owners, child, fuel);
      Walk(c, ns, owners, child, g, fuel) == Outcome(Extend(g, t.edges), t.err)
    decreases fuel, |owners|
  {
    if owners != [] && fuel > 0 {
      var o := owners[0];
      var ownerNode := OwnerLabel(o);
      var here := [Edge(child, ownerNode)];
      var g1 := g.AddNode(ownerNode).AddEdge(child, ownerNode);
      assert Targets(here) == {ownerNode};
      assert g1 == Extend(g, here);
      var f := OwnerLookup(c, ns, o);
      if f.Failure? {
        assert Walk(c, ns, owners, child, g, fuel) == Outcome(g1, Some(f.error));
        assert Lineage(c, ns, owners, child, fuel) == Trace(here, Some(f.error));
      } else {
        var sub := if f.value.Some? then Lineage(c, ns, f.value.value, ownerNode, fuel - 1) else Trace([], None);
        var subWalk := if f.value.Some? then Walk(c, ns, f.value.value, ownerNode, g1, fuel - 1) else Outcome(g1, None);
        if f.value.Some? {
          WalkFollowsLineage(c, ns, f.value.value, ownerNode, g1, fuel - 1);
        }
        var g2 := Extend(g1, sub.edges);
        assert subWalk == Outcome(g2, sub.err);
        ExtendTwice(g, here, sub.edges);
        if sub.err.Some? {
          assert Walk(c, ns, owners, child, g, fuel) == subWalk;
          assert Lineage(c, ns, owners, child, fuel) == Trace(here + sub.edges, sub.err);
        } else {
          var rest := Lineage(c, ns, owners[1..], child, fuel);
          assert Walk(c, ns, owners, child, g, fuel) == Walk(c, ns, owners[1..], child, g2, fuel);
          assert Lineage(c, ns, owners, child, fuel) == Trace(here + sub.edges + rest.edges, rest.err);
          WalkFollowsLineage(c, ns, owners[1..], child, g2, fuel);
          ExtendTwice(g, here + sub.edges, rest.edges);
        }
      }
    }
  }

  /** A walk only adds: nodes and earlier edges are kept. */
  lemma WalkGrows(c: Cluster, ns: string, owners: seq<OwnerRef>, child: string, g: GraphValue, fuel: nat)
    ensures var out := Walk(c, ns, owners, child, g, fuel);
      g.nodes <= out.graph.nodes && g.edges <= out.graph.edges
  {
    WalkFollowsLineage(c, ns, owners, child, g, fuel);
  }

  /** The walker's handles: the cluster it reads, the run's namespace, the graph it draws into. */
  class Graphz {
    const cluster: Cluster
    const namespace: string
    const graph: Graph

    constructor (cluster: Cluster, namespace: string, graph: Graph)
      ensures this.cluster == cluster && this.namespace == namespace && this.graph == graph
    {
      this.cluster := cluster;
      this.namespace := namespace;
      this.graph := graph;
    }

    /**
      Walks `owners` below the existing node `node`, drawing into the graph;
      returns the error that aborted the walk, if any.
     */
    method FetchRecursiveOwners(owners: seq<OwnerRef>, node: string, fuel: nat) returns (err: Option<Error>)
      requires graph.Valid() && node in graph.nodes
      modifies graph
      ensures graph.Valid()
      ensures var out := Walk(cluster, namespace, owners, node, old(graph.Value()), fuel);
        graph.Value() == out.graph && err == out.err
      decreases fuel
    {
      if |owners| > 0 && fuel == 0 {
        return Some(OutOfFuel);
      }
      ghost var g0 := graph.Value();
      var i := 0;
      while i < |owners|
        invariant 0 <= i <= |owners|
        invariant graph.Valid() && node in graph.nodes
        invariant Walk(cluster, namespace, owners, node, g0, fuel)
               == Walk(cluster, namespace, owners[i..], node, graph.Value(), fuel)
      {
        var o := owners[i];
        assert owners[i..][0] == o && owners[i..][1..] == owners[i + 1..];
        ghost var before := graph.Value();
        var ownerNode := graph.CreateNode(OwnerLabel(o));
        graph.CreateEdge(node, ownerNode);
        ghost var g1 := graph.Value();
        assert g1 == before.AddNode(ownerNode).AddEdge(node, ownerNode);
        var mapping := Resolve(cluster.types, o);
        if mapping.Failure? {
          return Some(mapping.error);
        }
        var fetched := FetchOwners(cluster.store, mapping.value, namespace, o.name);
        if fetched.Failure? {
          return Some(fetched.error);
        }
        if fetched.value.Some? {
          WalkGrows(cluster, namespace, fetched.value.value, ownerNode, g1, fuel - 1);
          var sub := FetchRecursiveOwners(fetched.value.value, ownerNode, fuel - 1);
          if sub.Some? {
            return sub;
          }
        }
        i := i + 1;
      }
      return None;
    }
  }

  /**
    What one run produces: the graph handed to the renderer, or the error that
    aborts the run before anything is rendered. The start node is captioned
    resource / group / name; the start object is fetched by the target's own
    group, version, resource, namespace and name.
   */
  function Diagram(c: Cluster, target: Gvr, namespace: string, name: string, fuel: nat)
    : (r: Result<GraphValue, Error>)
  {
    var start := StartLabel(target, name);
    var fetched := FetchOwners(c.store, target, namespace, name);
    if fetched.Failure? then Failure(fetched.error)
    else
      var out := Walk(c, namespace, OwnersOf(fetched.value), start, Empty.AddNode(start), fuel);
      if out.err.None? then Success(out.graph) else Failure(out.err.value)
  }

  /**
    One run: create the start node, fetch the start object's owners, walk
    them, and return the finished graph or the error that aborted the run.
   */
  method Run(c: Cluster, target: Gvr, namespace: string, name: string, fuel: nat)
    returns (r: Result<GraphValue, Error>)
    ensures r == Diagram(c, target, namespace, name, fuel)
  {
    var graph := new Graph();
    var gz := new Graphz(c, namespace, graph);
    var node := graph.CreateNode(StartLabel(target, name));
    var owners := FetchOwners(c.store, target, namespace, name);
    if owners.Failure? {
      return Failure(owners.error);
    }
    var err := gz.FetchRecursiveOwners(OwnersOf(owners.value), node, fuel);
    if err.Some? {
      return Failure(err.value);
    }
    return Success(graph.Value());
  }
}
