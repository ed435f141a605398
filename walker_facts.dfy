/** Properties of the lineage walk and of one run's diagram. */
module WalkerFacts {
  import opened Outcomes
  import opened Cluster
  import opened Labels
  import opened Graph
  import opened Walker

  // ---------------------------------------------------------------------------
  // Order: owners are walked in list order, each one's ancestry before the next.

  /** `t1`, then, unless it stopped with an error, `t2`. */
  function Then(t1: Trace, t2: Trace): Trace {
    if t1.err.Some? then t1 else Trace(t1.edges + t2.edges, t2.err)
  }

  /** Sequencing traces is associative. */
  lemma ThenAssociative(x: Trace, y: Trace, z: Trace)
    ensures Then(Then(x, y), z) == Then(x, Then(y, z))
  {
    if x.err.None? && y.err.None? {
      assert x.edges + y.edges + z.edges == x.edges + (y.edges + z.edges);
    }
  }

  /**
    Walking a concatenated owner list walks the first part, then, unless that
    failed, the second part below the same child.
   */
  lemma {:induction false} LineageAppend(c: Cluster, ns: string, a: seq<OwnerRef>, b: seq<OwnerRef>, child: string, fuel: nat)
    ensures Lineage(c, ns, a + b, child, fuel) == Then(Lineage(c, ns, a, child, fuel), Lineage(c, ns, b, child, fuel))
    decreases |a|
  {
    if a == [] {
      assert a + b == b;
    } else if fuel == 0 {
      assert (a + b)[0] == a[0];
    } else {
      var ab := a + b;
      assert ab[0] == a[0] && ab[1..] == a[1..] + b;
      var head := Lineage(c, ns, [a[0]], child, fuel);
      LineageFirst(c, ns, a, child, fuel);
      LineageFirst(c, ns, ab, child, fuel);
      LineageAppend(c, ns, a[1..], b, child, fuel);
      ThenAssociative(head, Lineage(c, ns, a[1..], child, fuel), Lineage(c, ns, b, child, fuel));
    }
  }

  /** A walk of a nonempty list with fuel: the first owner alone, then, unless that failed, the rest. */
  lemma LineageFirst(c: Cluster, ns: string, owners: seq<OwnerRef>, child: string, fuel: nat)
    requires owners != [] && fuel > 0
    ensures Lineage(c, ns, owners, child, fuel)
         == Then(Lineage(c, ns, [owners[0]], child, fuel), Lineage(c, ns, owners[1..], child, fuel))
  {
    var o := owners[0];
    var here := [Edge(child, OwnerLabel(o))];
    LineageOfOne(c, ns, o, child, fuel);
    var f := OwnerLookup(c, ns, o);
    if f.Success? && f.value.None? {
      assert here + [] == here;
    }
  }

  /**
    One owner's contribution: the edge child -> owner, then, when the owner's
    own list was fetched, that list's whole lineage below the owner's node.
    A failed lookup leaves just the one edge.
   */
  lemma LineageOfOne(c: Cluster, ns: string, o: OwnerRef, child: string, fuel: nat)
    requires fuel > 0
    ensures var t := Lineage(c, ns, [o], child, fuel);
      var here := [Edge(child, OwnerLabel(o))];
      match OwnerLookup(c, ns, o)
      case Failure(e) => t == Trace(here, Some(e))
      case Success(None) => t == Trace(here, None)
      case Success(Some(refs)) =>
        var sub := Lineage(c, ns, refs, OwnerLabel(o), fuel - 1);
        t == Trace(here + sub.edges, sub.err)
  {
    var t := Lineage(c, ns, [o], child, fuel);
    assert [o][1..] == [];
    var f := OwnerLookup(c, ns, o);
    if f.Success? && f.value.Some? {
      var sub := Lineage(c, ns, f.value.value, OwnerLabel(o), fuel - 1);
      if sub.err.None? {
        assert t.edges == [Edge(child, OwnerLabel(o))] + sub.edges + [];
      }
    }
  }

  // ---------------------------------------------------------------------------
  // Shape: every edge hangs below the start or below an owner already drawn.

  /** Each edge leaves the root or the owner end of an earlier edge. */
  ghost predicate Rooted(edges: seq<Edge>, root: string) {
    forall i :: 0 <= i < |edges| ==>
      edges[i].from == root || exists j :: 0 <= j < i && edges[j].to == edges[i].from
  }

  lemma RootedGlue(root: string, owner: string, sub: seq<Edge>, rest: seq<Edge>)
    requires Rooted(sub, owner) && Rooted(rest, root)
    ensures Rooted([Edge(root, owner)] + sub + rest, root)
  {
    var es := [Edge(root, owner)] + sub + rest;
    forall i | 0 <= i < |es|
      ensures es[i].from == root || exists j :: 0 <= j < i && es[j].to == es[i].from
    {
      if 1 <= i < 1 + |sub| {
        var k := i - 1;
        assert es[i] == sub[k];
        if sub[k].from == owner {
          assert es[0].to == es[i].from;
        } else {
          var j :| 0 <= j < k && sub[j].to == sub[k].from;
          assert es[j + 1] == sub[j];
        }
      } else if 1 + |sub| <= i {
        var k := i - 1 - |sub|;
        assert es[i] == rest[k];
        if rest[k].from != root {
          var j :| 0 <= j < k && rest[j].to == rest[k].from;
          assert es[j + 1 + |sub|] == rest[j];
        }
      }
    }
  }

  /** The lineage is a tree drawn top-down from `child`: no edge dangles. */
  lemma {:induction false} LineageRooted(c: Cluster, ns: string, owners: seq<OwnerRef>, child: string, fuel: nat)
    ensures Rooted(Lineage(c, ns, owners, child, fuel).edges, child)
    decreases fuel, |owners|
  {
    if owners != [] && fuel > 0 {
      var o := owners[0];
      var f := OwnerLookup(c, ns, o);
      if f.Success? {
        var sub := if f.value.Some? then Lineage(c, ns, f.value.value, OwnerLabel(o), fuel - 1) else Trace([], None);
        if f.value.Some? {
          LineageRooted(c, ns, f.value.value, OwnerLabel(o), fuel - 1);
        }
        if sub.err.None? {
          LineageRooted(c, ns, owners[1..], child, fuel);
          RootedGlue(child, OwnerLabel(o), sub.edges, Lineage(c, ns, owners[1..], child, fuel).edges);
        } else {
          RootedGlue(child, OwnerLabel(o), sub.edges, []);
          assert [Edge(child, OwnerLabel(o))] + sub.edges + [] == [Edge(child, OwnerLabel(o))] + sub.edges;
        }
      }
    }
  }

  /** `o` is among `owners` or is declared as an owner by some object of the store. */
  ghost predicate Declared(c: Cluster, owners: seq<OwnerRef>, o: OwnerRef) {
    o in owners || exists k :: k in c.store && c.store[k].Present? && o in c.store[k].refs
  }

  /** `caption` is the node of an owner reference declared for this walk. */
  ghost predicate DeclaredNode(c: Cluster, owners: seq<OwnerRef>, caption: string) {
    exists o :: caption == OwnerLabel(o) && Declared(c, owners, o)
  }

  /** Every edge of the lineage points to the node of a declared owner reference. */
  lemma {:induction false} LineageEdgesDeclared(c: Cluster, ns: string, owners: seq<OwnerRef>, child: string, fuel: nat)
    ensures forall e :: e in Lineage(c, ns, owners, child, fuel).edges ==> DeclaredNode(c, owners, e.to)
    decreases fuel, |owners|
  {
    if owners != [] && fuel > 0 {
      var o := owners[0];
      var head := Lineage(c, ns, [o], child, fuel);
      var rest := Lineage(c, ns, owners[1..], child, fuel);
      LineageFirst(c, ns, owners, child, fuel);
      var f := OwnerLookup(c, ns, o);
      if f.Success? && f.value.Some? {
        LineageEdgesDeclared(c, ns, f.value.value, OwnerLabel(o), fuel - 1);
      }
      FirstOwnerDeclared(c, ns, owners, child, fuel);
      if head.err.None? {
        LineageEdgesDeclared(c, ns, owners[1..], child, fuel);
        forall e | e in rest.edges ensures DeclaredNode(c, owners, e.to) {
          DeclaredWiden(c, owners[1..], owners, e.to);
        }
      }
    }
  }

  /** The first owner's part only reaches the first owner and owners the store declares. */
  lemma FirstOwnerDeclared(c: Cluster, ns: string, owners: seq<OwnerRef>, child: string, fuel: nat)
    requires owners != [] && fuel > 0
    requires var f := OwnerLookup(c, ns, owners[0]);
      f.Success? && f.value.Some? ==>
        forall e :: e in Lineage(c, ns, f.value.value, OwnerLabel(owners[0]), fuel - 1).edges ==> DeclaredNode(c, f.value.value, e.to)
    ensures forall e :: e in Lineage(c, ns, [owners[0]], child, fuel).edges ==> DeclaredNode(c, owners, e.to)
  {
    var o := owners[0];
    LineageOfOne(c, ns, o, child, fuel);
    var here := [Edge(child, OwnerLabel(o))];
    assert Declared(c, owners, o);
    var f := OwnerLookup(c, ns, o);
    if f.Success? && f.value.Some? {
      var refs := f.value.value;
      var sub := Lineage(c, ns, refs, OwnerLabel(o), fuel - 1);
      var key := ObjectKey(c.types[OwnerType(o)], ns, o.name);
      assert key in c.store && c.store[key] == Present(refs);
      forall e | e in sub.edges ensures DeclaredNode(c, owners, e.to) {
        var o' :| e.to == OwnerLabel(o') && Declared(c, refs, o');
        if o' in refs {
          assert o' in c.store[key].refs;
        }
      }
    }
  }

  /** Declaring more owners keeps a node declared. */
  lemma DeclaredWiden(c: Cluster, small: seq<OwnerRef>, big: seq<OwnerRef>, caption: string)
    requires forall o :: o in small ==> o in big
    requires DeclaredNode(c, small, caption)
    ensures DeclaredNode(c, big, caption)
  {
    var o :| caption == OwnerLabel(o) && Declared(c, small, o);
    assert Declared(c, big, o);
  }

  // ---------------------------------------------------------------------------
  // Fuel only truncates, and cyclic ownership exhausts any amount of it.

  /** A walk that did not run out of fuel gives the same trace with more fuel. */
  lemma {:induction false} LineageFuelMonotone(c: Cluster, ns: string, owners: seq<OwnerRef>, child: string, fuel: nat, more: nat)
    requires fuel <= more
    requires Lineage(c, ns, owners, child, fuel).err != Some(OutOfFuel)
    ensures Lineage(c, ns, owners, child, more) == Lineage(c, ns, owners, child, fuel)
    decreases fuel, |owners|
  {
    if owners != [] {
      var o := owners[0];
      var f := OwnerLookup(c, ns, o);
      if f.Success? {
        if f.value.Some? {
          LineageFuelMonotone(c, ns, f.value.value, OwnerLabel(o), fuel - 1, more - 1);
        }
        var sub := if f.value.Some? then Lineage(c, ns, f.value.value, OwnerLabel(o), fuel - 1) else Trace([], None);
        if sub.err.None? {
          LineageFuelMonotone(c, ns, owners[1..], child, fuel, more);
        }
      }
    }
  }

  /** An object that lists itself as its owner is never finished, whatever the fuel. */
  lemma {:induction false} SelfOwnerExhaustsFuel(c: Cluster, ns: string, o: OwnerRef, child: string, fuel: nat)
    requires OwnerLookup(c, ns, o) == Success(Some([o]))
    ensures Lineage(c, ns, [o], child, fuel).err == Some(OutOfFuel)
    decreases fuel
  {
    if fuel > 0 {
      SelfOwnerExhaustsFuel(c, ns, o, OwnerLabel(o), fuel - 1);
    }
  }

  // ---------------------------------------------------------------------------
  // Every owner is fetched in the run's namespace.

  /** Two stores that answer every fetch in namespace `ns` alike. */
  ghost predicate SameInNamespace(s1: map<ObjectKey, OwnerField>, s2: map<ObjectKey, OwnerField>, ns: string) {
    forall gvr, name :: FetchOwners(s1, gvr, ns, name) == FetchOwners(s2, gvr, ns, name)
  }

  /** Objects outside the run's namespace never affect the walk. */
  lemma {:induction false} LineageReadsOnlyNamespace(c1: Cluster, c2: Cluster, ns: string, owners: seq<OwnerRef>, child: string, fuel: nat)
    requires c1.types == c2.types
    requires SameInNamespace(c1.store, c2.store, ns)
    ensures Lineage(c1, ns, owners, child, fuel) == Lineage(c2, ns, owners, child, fuel)
    decreases fuel, |owners|
  {
    if owners != [] && fuel > 0 {
      var o := owners[0];
      if OwnerType(o) in c1.types {
        assert OwnerLookup(c1, ns, o) == OwnerLookup(c2, ns, o) by {
          assert FetchOwners(c1.store, c1.types[OwnerType(o)], ns, o.name)
              == FetchOwners(c2.store, c1.types[OwnerType(o)], ns, o.name);
        }
      }
      var f := OwnerLookup(c1, ns, o);
      if f.Success? {
        if f.value.Some? {
          LineageReadsOnlyNamespace(c1, c2, ns, f.value.value, OwnerLabel(o), fuel - 1);
        }
        LineageReadsOnlyNamespace(c1, c2, ns, owners[1..], child, fuel);
      }
    }
  }

  // ---------------------------------------------------------------------------
  // Linear chains.

  /**
    `refs` is a chain of owners in namespace `ns`: each resolves and is fetched
    successfully, each is the only owner of the one before, and the last has
    no owners.
   */
  ghost predicate OwnerChain(c: Cluster, ns: string, refs: seq<OwnerRef>)
    decreases |refs|
  {
    && |refs| > 0
    && OwnerLookup(c, ns, refs[0]).Success?
    && OwnersOf(OwnerLookup(c, ns, refs[0]).value) == (if |refs| == 1 then [] else [refs[1]])
    && (|refs| > 1 ==> OwnerChain(c, ns, refs[1..]))
  }

  /** The edges of a chain: child to first owner, each owner to the next. */
  function ChainEdges(child: string, refs: seq<OwnerRef>): (edges: seq<Edge>)
    ensures |edges| == |refs|
    ensures refs != [] ==> edges[0] == Edge(child, OwnerLabel(refs[0]))
    decreases |refs|
  {
    if refs == [] then []
    else [Edge(child, OwnerLabel(refs[0]))] + ChainEdges(OwnerLabel(refs[0]), refs[1..])
  }

  /** The captions along a chain, the child's first. */
  function ChainCaptions(child: string, refs: seq<OwnerRef>): seq<string> {
    [child] + seq(|refs|, i requires 0 <= i < |refs| => OwnerLabel(refs[i]))
  }

  /** Chain edge i joins caption i to caption i + 1: the edges form one path. */
  lemma {:induction false} ChainEdgesPath(child: string, refs: seq<OwnerRef>)
    ensures var captions := ChainCaptions(child, refs);
      forall i :: 0 <= i < |refs| ==> ChainEdges(child, refs)[i] == Edge(captions[i], captions[i + 1])
    decreases |refs|
  {
    if refs != [] {
      ChainEdgesPath(OwnerLabel(refs[0]), refs[1..]);
      var captions := ChainCaptions(child, refs);
      var tail := ChainCaptions(OwnerLabel(refs[0]), refs[1..]);
      forall i | 1 <= i < |refs| ensures ChainEdges(child, refs)[i] == Edge(captions[i], captions[i + 1]) {
        assert ChainEdges(child, refs)[i] == ChainEdges(OwnerLabel(refs[0]), refs[1..])[i - 1];
        assert tail[i - 1] == captions[i] && tail[i] == captions[i + 1];
      }
    }
  }

  /** With fuel for its length, a chain is walked to its end, one edge per link. */
  lemma {:induction false} LineageOfChain(c: Cluster, ns: string, refs: seq<OwnerRef>, child: string, fuel: nat)
    requires OwnerChain(c, ns, refs)
    requires fuel >= |refs|
    ensures Lineage(c, ns, [refs[0]], child, fuel) == Trace(ChainEdges(child, refs), None)
    decreases |refs|
  {
    LineageOfOne(c, ns, refs[0], child, fuel);
    var f := OwnerLookup(c, ns, refs[0]);
    if |refs| > 1 {
      LineageOfChain(c, ns, refs[1..], OwnerLabel(refs[0]), fuel - 1);
      assert refs[1..][0] == refs[1];
    } else if f.value.Some? {
      assert f.value.value == [];
    }
  }

  /** Captions appearing in a sequence, as a set. */
  lemma DistinctCount(captions: seq<string>)
    requires forall i, j :: 0 <= i < j < |captions| ==> captions[i] != captions[j]
    ensures |set i | 0 <= i < |captions| :: captions[i]| == |captions|
    decreases |captions|
  {
    if captions != [] {
      var tail := captions[1..];
      DistinctCount(tail);
      var s := set i | 0 <= i < |captions| :: captions[i];
      var t := set i | 0 <= i < |tail| :: tail[i];
      assert s == {captions[0]} + t by {
        forall x | x in s ensures x in {captions[0]} + t {
          var i :| 0 <= i < |captions| && captions[i] == x;
          if i > 0 { assert tail[i - 1] == x; }
        }
        forall x | x in t ensures x in s {
          var i :| 0 <= i < |tail| && tail[i] == x;
          assert captions[i + 1] == x;
        }
      }
      assert captions[0] !in t by {
        forall i | 0 <= i < |tail| ensures tail[i] != captions[0] {
          assert tail[i] == captions[i + 1];
        }
      }
    }
  }

  // ---------------------------------------------------------------------------
  // One run.

  /**
    A run renders exactly the start node, the nodes its lineage's edges point
    to, and those edges in walk order; it aborts exactly when fetching the start
    object or the lineage fails, with that error.
   */
  lemma DiagramFollowsLineage(c: Cluster, target: Gvr, namespace: string, name: string, fuel: nat)
    ensures var start := StartLabel(target, name);
      Diagram(c, target, namespace, name, fuel) ==
        var fetched := FetchOwners(c.store, target, namespace, name);
        if fetched.Failure? then Failure(fetched.error)
        else
          var t := Lineage(c, namespace, OwnersOf(fetched.value), start, fuel);
          if t.err.None? then Success(GraphValue({start} + Targets(t.edges), t.edges))
          else Failure(t.err.value)
  {
    var start := StartLabel(target, name);
    var f := FetchOwners(c.store, target, namespace, name);
    if f.Success? {
      var t := Lineage(c, namespace, OwnersOf(f.value), start, fuel);
      WalkFollowsLineage(c, namespace, OwnersOf(f.value), start, Empty.AddNode(start), fuel);
      assert Extend(Empty.AddNode(start), t.edges) == GraphValue({start} + Targets(t.edges), t.edges);
    }
  }

  /**
    A rendered diagram holds the start node, has exactly the start node and the
    owner ends of its edges as nodes, every edge joins two of its nodes, and
    every edge leaves the start or an owner drawn earlier.
   */
  lemma DiagramShape(c: Cluster, target: Gvr, namespace: string, name: string, fuel: nat)
    requires Diagram(c, target, namespace, name, fuel).Success?
    ensures var g := Diagram(c, target, namespace, name, fuel).value;
      var start := StartLabel(target, name);
      && g.nodes == {start} + Targets(g.edges)
      && g.WellFormed()
      && Rooted(g.edges, start)
  {
    DiagramFollowsLineage(c, target, namespace, name, fuel);
    var start := StartLabel(target, name);
    var f := FetchOwners(c.store, target, namespace, name);
    var t := Lineage(c, namespace, OwnersOf(f.value), start, fuel);
    LineageRooted(c, namespace, OwnersOf(f.value), start, fuel);
    var g := Diagram(c, target, namespace, name, fuel).value;
    forall i | 0 <= i < |g.edges| ensures g.edges[i].from in g.nodes && g.edges[i].to in g.nodes {
      if g.edges[i].from != start {
        var j :| 0 <= j < i && g.edges[j].to == g.edges[i].from;
      }
    }
  }

  /** A start object that is not in the store aborts the run. */
  lemma DiagramMissingStart(c: Cluster, target: Gvr, namespace: string, name: string, fuel: nat)
    requires ObjectKey(target, namespace, name) !in c.store
    ensures Diagram(c, target, namespace, name, fuel) == Failure(ObjectNotFound(ObjectKey(target, namespace, name)))
  {
  }

  /**
    A start object without owners, whether the list is absent or an empty
    list, gives the start node alone and no edges.
   */
  lemma DiagramNoOwners(c: Cluster, target: Gvr, namespace: string, name: string, fuel: nat)
    requires var key := ObjectKey(target, namespace, name);
      key in c.store && (c.store[key] == Absent || c.store[key] == Present([]))
    ensures Diagram(c, target, namespace, name, fuel) == Success(GraphValue({StartLabel(target, name)}, []))
  {
    DiagramFollowsLineage(c, target, namespace, name, fuel);
    var f := FetchOwners(c.store, target, namespace, name);
    assert f.Success? && OwnersOf(f.value) == [];
    var t := Lineage(c, namespace, OwnersOf(f.value), StartLabel(target, name), fuel);
    assert t == Trace([], None);
    assert Targets(t.edges) == {};
    assert Diagram(c, target, namespace, name, fuel) == Success(GraphValue({StartLabel(target, name)} + Targets(t.edges), t.edges));
    assert {StartLabel(target, name)} + Targets(t.edges) == {StartLabel(target, name)};
    assert t.edges == [];
  }

  /**
    A first owner whose (group, kind) the type mapping lacks aborts the run with
    TypeNotFound for exactly that pair, whatever follows it.
   */
  lemma DiagramUnknownOwnerType(c: Cluster, target: Gvr, namespace: string, name: string, fuel: nat, o: OwnerRef, rest: seq<OwnerRef>)
    requires fuel > 0
    requires FetchOwners(c.store, target, namespace, name) == Success(Some([o] + rest))
    requires OwnerType(o) !in c.types
    ensures Diagram(c, target, namespace, name, fuel) == Failure(TypeNotFound(GroupKind(ApiGroup(o.apiVersion), o.kind)))
  {
    DiagramFollowsLineage(c, target, namespace, name, fuel);
    assert ([o] + rest)[0] == o;
  }

  /**
    A first owner that resolves but whose object is missing from the run's
    namespace aborts the run with ObjectNotFound for the resolved key.
   */
  lemma DiagramMissingOwner(c: Cluster, target: Gvr, namespace: string, name: string, fuel: nat, o: OwnerRef, rest: seq<OwnerRef>)
    requires fuel > 0
    requires FetchOwners(c.store, target, namespace, name) == Success(Some([o] + rest))
    requires OwnerType(o) in c.types
    requires ObjectKey(c.types[OwnerType(o)], namespace, o.name) !in c.store
    ensures Diagram(c, target, namespace, name, fuel) == Failure(ObjectNotFound(ObjectKey(c.types[OwnerType(o)], namespace, o.name)))
  {
    DiagramFollowsLineage(c, target, namespace, name, fuel);
    assert ([o] + rest)[0] == o;
  }

  /**
    A linear chain: the start object owned by refs[0], owned by refs[1], ...,
    the last without owners. The run renders the chain's captions as nodes and
    one edge per link, edge i running from caption i to caption i + 1; with
    pairwise distinct captions that is |refs| + 1 nodes and |refs| edges.
   */
  lemma DiagramOfChain(c: Cluster, target: Gvr, namespace: string, name: string, refs: seq<OwnerRef>, fuel: nat)
    requires FetchOwners(c.store, target, namespace, name).Success?
    requires OwnersOf(FetchOwners(c.store, target, namespace, name).value) == (if refs == [] then [] else [refs[0]])
    requires refs != [] ==> OwnerChain(c, namespace, refs)
    requires fuel >= |refs|
    ensures var captions := ChainCaptions(StartLabel(target, name), refs);
      && Diagram(c, target, namespace, name, fuel).Success?
      && var g := Diagram(c, target, namespace, name, fuel).value;
      && g.nodes == (set i | 0 <= i < |captions| :: captions[i])
      && |g.edges| == |refs|
      && (forall i :: 0 <= i < |refs| ==> g.edges[i] == Edge(captions[i], captions[i + 1]))
      && ((forall i, j :: 0 <= i < j < |captions| ==> captions[i] != captions[j]) ==> |g.nodes| == |refs| + 1)
  {
    var start := StartLabel(target, name);
    var captions := ChainCaptions(start, refs);
    var edges := ChainEdges(start, refs);
    DiagramFollowsLineage(c, target, namespace, name, fuel);
    if refs != [] {
      LineageOfChain(c, namespace, refs, start, fuel);
    }
    ChainEdgesPath(start, refs);
    ChainNodes(start, refs);
    if forall i, j :: 0 <= i < j < |captions| ==> captions[i] != captions[j] {
      DistinctCount(captions);
    }
  }

  /** The nodes a chain's edges reach, with the child's, are the chain's captions. */
  lemma ChainNodes(child: string, refs: seq<OwnerRef>)
    ensures var captions := ChainCaptions(child, refs);
      {child} + Targets(ChainEdges(child, refs)) == set i | 0 <= i < |captions| :: captions[i]
  {
    var captions := ChainCaptions(child, refs);
    var edges := ChainEdges(child, refs);
    ChainEdgesPath(child, refs);
    var nodes := {child} + Targets(edges);
    forall x | x in nodes ensures x in (set i | 0 <= i < |captions| :: captions[i]) {
      if x != child {
        var i :| 0 <= i < |edges| && edges[i].to == x;
        assert captions[i + 1] == x;
      } else {
        assert captions[0] == x;
      }
    }
    forall i | 0 <= i < |captions| ensures captions[i] in nodes {
      if i > 0 {
        assert edges[i - 1] == Edge(captions[i - 1], captions[i]);
        assert edges[i - 1].to in Targets(edges);
      }
    }
  }
}
