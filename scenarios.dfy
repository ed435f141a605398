/** Worked runs over small clusters. */
module Scenarios {
  import opened Outcomes
  import opened Cluster
  import opened Labels
  import opened Graph
  import opened Walker
  import opened WalkerFacts

  const Pods := Gvr("", "v1", "pods")
  const ReplicaSets := Gvr("apps", "v1", "replicasets")
  const Deployments := Gvr("apps", "v1", "deployments")

  const CorednsReplicaSet := OwnerRef("apps/v1", "ReplicaSet", "coredns-abc")
  const CorednsDeployment := OwnerRef("apps/v1", "Deployment", "coredns")

  const Types := map[
    GroupKind("apps", "ReplicaSet") := ReplicaSets,
    GroupKind("apps", "Deployment") := Deployments
  ]

  /** Pod coredns, owned by ReplicaSet coredns-abc, owned by Deployment coredns. */
  const Coredns := Cluster(
    map[
      ObjectKey(Pods, "default", "coredns") := Present([CorednsReplicaSet]),
      ObjectKey(ReplicaSets, "default", "coredns-abc") := Present([CorednsDeployment]),
      ObjectKey(Deployments, "default", "coredns") := Absent
    ],
    Types)

  lemma CorednsCaptions()
    ensures StartLabel(Pods, "coredns") == "pods\n\ncoredns"
    ensures OwnerLabel(CorednsReplicaSet) == "ReplicaSet\napps/v1\ncoredns-abc"
    ensures OwnerLabel(CorednsDeployment) == "Deployment\napps/v1\ncoredns"
  {
  }

  /**
    The pod's run draws three nodes and two edges, pod -> replica set ->
    deployment, and the deployment has no edge of its own.
   */
  lemma CorednsLineage(fuel: nat)
    requires fuel >= 2
    ensures var r := Diagram(Coredns, Pods, "default", "coredns", fuel);
      && r.Success?
      && |r.value.nodes| == 3
      && r.value.edges == [
           Edge("pods\n\ncoredns", "ReplicaSet\napps/v1\ncoredns-abc"),
           Edge("ReplicaSet\napps/v1\ncoredns-abc", "Deployment\napps/v1\ncoredns")]
      && forall e :: e in r.value.edges ==> e.from != "Deployment\napps/v1\ncoredns"
  {
    var start := StartLabel(Pods, "coredns");
    var edges := CorednsEdges();
    CorednsTrace(fuel);
    CorednsChain();
    DiagramFollowsLineage(Coredns, Pods, "default", "coredns", fuel);
    CorednsCaptions();
    CorednsTargets(edges);
    assert Diagram(Coredns, Pods, "default", "coredns", fuel) == Success(GraphValue({start} + Targets(edges), edges));
    CorednsNodeCount();
  }

  lemma CorednsTargets(edges: seq<Edge>)
    requires edges == CorednsEdges()
    ensures Targets(edges) == {"ReplicaSet\napps/v1\ncoredns-abc", "Deployment\napps/v1\ncoredns"}
  {
    assert edges[0].to == "ReplicaSet\napps/v1\ncoredns-abc";
    assert edges[1].to == "Deployment\napps/v1\ncoredns";
  }

  lemma CorednsNodeCount()
    ensures |{"pods\n\ncoredns"} + {"ReplicaSet\napps/v1\ncoredns-abc", "Deployment\napps/v1\ncoredns"}| == 3
  {
    assert "pods\n\ncoredns"[0] != "ReplicaSet\napps/v1\ncoredns-abc"[0];
    assert "pods\n\ncoredns"[0] != "Deployment\napps/v1\ncoredns"[0];
    assert "ReplicaSet\napps/v1\ncoredns-abc"[0] != "Deployment\napps/v1\ncoredns"[0];
  }

  function CorednsEdges(): seq<Edge> {
    [ Edge("pods\n\ncoredns", "ReplicaSet\napps/v1\ncoredns-abc"),
      Edge("ReplicaSet\napps/v1\ncoredns-abc", "Deployment\napps/v1\ncoredns") ]
  }

  /** The pod's owners are walked to the end of the chain, one edge per link. */
  lemma CorednsTrace(fuel: nat)
    requires fuel >= 2
    ensures Lineage(Coredns, "default", [CorednsReplicaSet], StartLabel(Pods, "coredns"), fuel) == Trace(CorednsEdges(), None)
  {
    var refs := [CorednsReplicaSet, CorednsDeployment];
    CorednsChain();
    LineageOfChain(Coredns, "default", refs, StartLabel(Pods, "coredns"), fuel);
    CorednsCaptions();
    assert refs[1..] == [CorednsDeployment];
  }

  lemma CorednsChain()
    ensures FetchOwners(Coredns.store, Pods, "default", "coredns") == Success(Some([CorednsReplicaSet]))
    ensures OwnerChain(Coredns, "default", [CorednsReplicaSet, CorednsDeployment])
  {
    CorednsStart();
    CorednsLookups();
    assert [CorednsReplicaSet, CorednsDeployment][1..] == [CorednsDeployment];
    assert OwnerChain(Coredns, "default", [CorednsDeployment]);
  }

  lemma CorednsStart()
    ensures FetchOwners(Coredns.store, Pods, "default", "coredns") == Success(Some([CorednsReplicaSet]))
  {
  }

  /** Both owners resolve in group "apps"; the replica set lists the deployment, which lists no one. */
  lemma CorednsLookups()
    ensures OwnerLookup(Coredns, "default", CorednsReplicaSet) == Success(Some([CorednsDeployment]))
    ensures OwnerLookup(Coredns, "default", CorednsDeployment) == Success(None)
  {
    ReplicaSetType(CorednsReplicaSet);
    DeploymentType(CorednsDeployment);
  }

  const Web := OwnerRef("apps/v1", "ReplicaSet", "web")
  const Api := OwnerRef("apps/v1", "ReplicaSet", "api")
  const Shared := OwnerRef("apps/v1", "Deployment", "shared")

  /** A pod owned by two replica sets that are both owned by one deployment. */
  const Diamond := Cluster(
    map[
      ObjectKey(Pods, "default", "p") := Present([Web, Api]),
      ObjectKey(ReplicaSets, "default", "web") := Present([Shared]),
      ObjectKey(ReplicaSets, "default", "api") := Present([Shared]),
      ObjectKey(Deployments, "default", "shared") := Absent
    ],
    Types)

  lemma DiamondCaptions()
    ensures StartLabel(Pods, "p") == "pods\n\np"
    ensures OwnerLabel(Web) == "ReplicaSet\napps/v1\nweb"
    ensures OwnerLabel(Api) == "ReplicaSet\napps/v1\napi"
    ensures OwnerLabel(Shared) == "Deployment\napps/v1\nshared"
  {
  }

  /**
    The deployment reached along both paths is one node with two incoming
    edges: four nodes, four edges, walked depth-first.
   */
  lemma DiamondSharesOwnerNode(fuel: nat)
    requires fuel >= 2
    ensures var r := Diagram(Diamond, Pods, "default", "p", fuel);
      && r.Success?
      && r.value.nodes == {"pods\n\np", "ReplicaSet\napps/v1\nweb", "ReplicaSet\napps/v1\napi", "Deployment\napps/v1\nshared"}
      && r.value.edges == [
           Edge("pods\n\np", "ReplicaSet\napps/v1\nweb"),
           Edge("ReplicaSet\napps/v1\nweb", "Deployment\napps/v1\nshared"),
           Edge("pods\n\np", "ReplicaSet\napps/v1\napi"),
           Edge("ReplicaSet\napps/v1\napi", "Deployment\napps/v1\nshared")]
  {
    DiamondDiagram(fuel);
    DiamondTargets(DiamondEdges());
    DiamondCaptions();
  }

  /** The diamond's run renders the start node, the lineage's targets and its edges. */
  lemma DiamondDiagram(fuel: nat)
    requires fuel >= 2
    ensures Diagram(Diamond, Pods, "default", "p", fuel)
         == Success(GraphValue({StartLabel(Pods, "p")} + Targets(DiamondEdges()), DiamondEdges()))
  {
    DiamondLineage(fuel);
    DiamondStart();
    DiagramFollowsLineage(Diamond, Pods, "default", "p", fuel);
  }

  lemma DiamondStart()
    ensures FetchOwners(Diamond.store, Pods, "default", "p") == Success(Some([Web, Api]))
  {
  }

  function DiamondEdges(): seq<Edge> {
    [ Edge("pods\n\np", "ReplicaSet\napps/v1\nweb"),
      Edge("ReplicaSet\napps/v1\nweb", "Deployment\napps/v1\nshared"),
      Edge("pods\n\np", "ReplicaSet\napps/v1\napi"),
      Edge("ReplicaSet\napps/v1\napi", "Deployment\napps/v1\nshared") ]
  }

  /** Each replica set's chain, one after the other. */
  lemma DiamondLineage(fuel: nat)
    requires fuel >= 2
    ensures Lineage(Diamond, "default", [Web, Api], StartLabel(Pods, "p"), fuel) == Trace(DiamondEdges(), None)
  {
    var start := StartLabel(Pods, "p");
    DiamondChains();
    LineageOfChain(Diamond, "default", [Web, Shared], start, fuel);
    LineageOfChain(Diamond, "default", [Api, Shared], start, fuel);
    LineageAppend(Diamond, "default", [Web], [Api], start, fuel);
    assert [Web] + [Api] == [Web, Api];
    DiamondChainEdges();
  }

  lemma DiamondChains()
    ensures OwnerChain(Diamond, "default", [Web, Shared])
    ensures OwnerChain(Diamond, "default", [Api, Shared])
  {
    SharedChain();
    WebChain();
    ApiChain();
  }

  lemma SharedChain()
    ensures OwnerChain(Diamond, "default", [Shared])
  {
    DiamondLookups();
  }

  lemma WebChain()
    requires OwnerChain(Diamond, "default", [Shared])
    ensures OwnerChain(Diamond, "default", [Web, Shared])
  {
    DiamondLookups();
    assert [Web, Shared][1..] == [Shared];
  }

  lemma ApiChain()
    requires OwnerChain(Diamond, "default", [Shared])
    ensures OwnerChain(Diamond, "default", [Api, Shared])
  {
    DiamondLookups();
    assert [Api, Shared][1..] == [Shared];
  }

  /** Each replica set lists the deployment, which lists no one. */
  lemma DiamondLookups()
    ensures OwnerLookup(Diamond, "default", Web) == Success(Some([Shared]))
    ensures OwnerLookup(Diamond, "default", Api) == Success(Some([Shared]))
    ensures OwnerLookup(Diamond, "default", Shared) == Success(None)
  {
    ReplicaSetType(Web);
    ReplicaSetType(Api);
    DeploymentType(Shared);
  }

  lemma ReplicaSetType(o: OwnerRef)
    requires o.apiVersion == "apps/v1" && o.kind == "ReplicaSet"
    ensures OwnerType(o) == GroupKind("apps", "ReplicaSet")
  {
    ApiGroupExamples();
  }

  lemma DeploymentType(o: OwnerRef)
    requires o.apiVersion == "apps/v1" && o.kind == "Deployment"
    ensures OwnerType(o) == GroupKind("apps", "Deployment")
  {
    ApiGroupExamples();
  }

  lemma DiamondChainEdges()
    ensures ChainEdges(StartLabel(Pods, "p"), [Web, Shared]) + ChainEdges(StartLabel(Pods, "p"), [Api, Shared]) == DiamondEdges()
  {
    DiamondCaptions();
    assert [Web, Shared][1..] == [Shared];
    assert [Api, Shared][1..] == [Shared];
  }

  lemma DiamondTargets(edges: seq<Edge>)
    requires edges == DiamondEdges()
    ensures Targets(edges) == {"ReplicaSet\napps/v1\nweb", "ReplicaSet\napps/v1\napi", "Deployment\napps/v1\nshared"}
  {
    assert edges[0].to == "ReplicaSet\napps/v1\nweb";
    assert edges[1].to == "Deployment\napps/v1\nshared";
    assert edges[2].to == "ReplicaSet\napps/v1\napi";
  }

  /** An owner given with a bare "v1" is looked up in group "v1", which this mapping lacks. */
  lemma BareVersionOwnerIsUnresolved(fuel: nat)
    requires fuel >= 1
    ensures var c := Cluster(map[ObjectKey(Pods, "default", "p") := Present([OwnerRef("v1", "ReplicationController", "rc")])],
                             map[GroupKind("", "ReplicationController") := Gvr("", "v1", "replicationcontrollers")]);
      Diagram(c, Pods, "default", "p", fuel) == Failure(TypeNotFound(GroupKind("v1", "ReplicationController")))
  {
    ApiGroupExamples();
    var o := OwnerRef("v1", "ReplicationController", "rc");
    var c := Cluster(map[ObjectKey(Pods, "default", "p") := Present([o])],
                     map[GroupKind("", "ReplicationController") := Gvr("", "v1", "replicationcontrollers")]);
    assert [o] + [] == [o];
    DiagramUnknownOwnerType(c, Pods, "default", "p", fuel, o, []);
  }
}
