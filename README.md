# k8s-graph ownership lineage, modelled in Dafny

k8s-graph draws the ownership lineage of one Kubernetes object as a graph.
It starts from a target object, given as (group, version, resource, namespace,
name). It reads the object's `metadata.ownerReferences` and, for every owner
reference in list order, does four things:

- creates the owner's node, or finds it when a node with that caption exists;
- adds an edge from the child's node to the owner's node;
- resolves the owner's (group, kind) to a fetchable (group, version, resource)
  through the cluster's type mapping;
- fetches the owner in the run's namespace, and descends into its own owner
  references when it has any.

Node captions are three lines: resource (or kind), group (or apiVersion) and
name. Any failure aborts the whole run, and nothing is rendered.

The model has these modules:

- `Text`: Go's `strings.Split` on one separator character, with `Join` as its
  inverse.
- `Cluster`: the object store and the type mapping as read-only maps; the
  apiVersion split; type resolution; the owner-reference fetch.
- `Labels`: node captions (`generateNodeName`) and their three-line reading.
- `Graph`: the diagram as a value (a caption set plus an edge sequence) and as
  the mutable `Graph` class the walker draws into.
- `Walker`:
  - `Walk`, the graph-threading specification of the walk;
  - `Lineage`, a graph-free edge trace used as its reference;
  - the `Graphz` class, whose `FetchRecursiveOwners` loop is proved to agree
    with `Walk`;
  - `Diagram` and `Run`, the start-node and initial-fetch steps of `main`.
- `WalkerFacts`: properties of walks and of whole runs.
- `Scenarios`: worked runs. One is a pod owned by a replica set that is owned
  by a deployment. Another is a diamond, where two replica sets share one
  deployment.

Two points where the code's behaviour is not what a reader might expect, and
which the model follows as written:

- Kubernetes writes a core-group apiVersion as a bare version, so `"v1"`
  belongs to the empty group. The code nevertheless resolves an owner in the
  text before the first `/` of its apiVersion, so `"v1"` is looked up in group
  `"v1"` (`Cluster.ApiGroupExamples`, `Scenarios.BareVersionOwnerIsUnresolved`).
- Every failure aborts the run; no owner is skipped. A failure is
  `Failure(error)` from `Diagram`/`Run`, and no graph is produced.

## Model

| member | source | states |
|---|---|---|
| Text.Split | main.go:80 | splitting apiVersion always yields at least one piece, and no piece contains the separator |
| Text.JoinSplit | main.go:80 | joining the pieces of a split with the separator gives back the original string |
| Text.SplitJoin | main.go:131 | splitting a separator-joined nonempty list of separator-free fields returns exactly those fields |
| Text.SplitPlain | main.go:80 | a string without the separator splits into itself alone |
| Text.SplitFirst | main.go:80 | the first piece is a prefix of the string, contains no separator, and is all of it or is followed by the separator |
| Cluster.ApiGroup | main.go:79-80 | the group is the longest '/'-free prefix of apiVersion: all of it when there is no '/', otherwise what precedes the first '/' |
| Cluster.ApiGroupExamples | main.go:97 | "apps/v1" resolves in group "apps", bare "v1" in group "v1", "" in group "" |
| Cluster.OwnerType | main.go:97 | an owner is resolved by its kind and by the longest '/'-free prefix of its apiVersion: all of it without a '/', otherwise what precedes the first '/' |
| Cluster.Resolve | main.go:97-101 | resolution succeeds exactly when (group, kind) is in the type mapping, with the mapped endpoint; otherwise it is TypeNotFound for that pair |
| Cluster.FetchOwners | main.go:55-72 | a missing object is ObjectNotFound for its key; an object without owner references gives no list, which is success; a list is returned as stored; a field that is not a list is MalformedOwnerMetadata |
| Cluster.OwnerLookup | main.go:97-106 | an owner's owners are fetched with the endpoint its type resolves to, in the run's namespace, by the owner's name; an unresolved type is TypeNotFound |
| Labels.NodeNameLines | main.go:130-132 | a caption reads resource, group, name, one per line, when no field holds a line break |
| Labels.OwnerLabelLines | main.go:85 | an owner's caption reads kind, apiVersion, name when no field holds a line break (Kubernetes names, kinds, resources and apiVersions never do) |
| Labels.StartLabelLines | main.go:175 | the start node's caption reads resource, group, name when no field holds a line break (Kubernetes names, kinds, resources and apiVersions never do) |
| Labels.NodeNameInjective | main.go:130-132 | captions of line-break-free fields are equal if and only if all three fields are equal |
| Labels.OwnerLabelShared | main.go:85 | two owner references share a node if and only if kind, apiVersion and name agree, when no field holds a line break (Kubernetes names, kinds, resources and apiVersions never do) |
| Labels.NodeNameCollides | main.go:131 | fields containing line breaks can give different objects the same caption |
| Graph.GraphValue.AddNode | main.go:85 | adding a node adds the caption and keeps the edges; a caption already present leaves the graph unchanged |
| Graph.GraphValue.AddEdge | main.go:91 | adding an edge keeps the nodes and earlier edges and appends exactly the one new edge |
| Graph.Graph.constructor | main.go:144 | a new graph is empty and well formed |
| Graph.Graph.CreateNode | main.go:85-88 | creating a node returns the node of that caption, and the graph gains that caption as a node |
| Graph.Graph.CreateEdge | main.go:91-94 | an edge between two existing nodes is appended, and every edge still joins two nodes |
| Walker.Lineage | main.go:75-111 | a walk of no owners draws nothing; with owners and fuel, its first edge runs from the child to the first owner's node |
| Walker.WalkFollowsLineage | main.go:75-111 | walking from any graph appends exactly the lineage's edges, in order, adds exactly their owners' nodes, and stops with the lineage's error |
| Walker.WalkGrows | main.go:85-94 | a walk never removes nodes, and never removes or reorders earlier edges |
| Walker.Graphz.constructor | main.go:170-174 | the walker holds the cluster, the run's namespace and the graph it draws into |
| Walker.Graphz.FetchRecursiveOwners | main.go:75-111 | the loop leaves the graph well formed and equal to the walk's graph, and returns the walk's error |
| Walker.Run | main.go:170-184 | a run creates the start node, fetches the target's owners and walks them; the result equals the diagram specification |
| WalkerFacts.LineageAppend | main.go:76 | owners are walked in list order: a concatenated list walks the first part completely before the second, and stops at the first part's error |
| WalkerFacts.LineageFirst | main.go:76-110 | with depth left, a walk of a nonempty list walks the first owner alone and then, unless that failed, the remaining owners |
| WalkerFacts.LineageOfOne | main.go:84-109 | with depth left, one owner contributes the edge child -> owner and then, when its list was fetched, that list's whole lineage below the owner; a failed lookup leaves the one edge and the error |
| WalkerFacts.LineageRooted | main.go:91 | every edge leaves the child or the owner end of an earlier edge |
| WalkerFacts.LineageEdgesDeclared | main.go:77-85 | every edge ends at the node of an owner reference that was passed in or that some stored object declares |
| WalkerFacts.LineageFuelMonotone | main.go:107-108 | a walk that did not run out of depth gives the same trace with any larger depth bound |
| WalkerFacts.SelfOwnerExhaustsFuel | main.go:107-108 | an owner whose only owner is itself is never finished, whatever the depth bound |
| WalkerFacts.LineageReadsOnlyNamespace | main.go:103 | the walk depends only on objects in the run's namespace: stores that agree there give the same trace |
| WalkerFacts.ChainEdgesPath | main.go:107-108 | along a chain of owners, edge i joins caption i to caption i + 1 |
| WalkerFacts.LineageOfChain | main.go:75-111 | a chain of owners with depth for its length is walked to its end, with one edge per link |
| WalkerFacts.DiagramFollowsLineage | main.go:175-184 | a run yields the start node plus the lineage's owner nodes and its edges in walk order; it aborts exactly when the start fetch or the lineage fails, with that error |
| WalkerFacts.DiagramShape | main.go:175-184 | a rendered diagram's nodes are exactly the start node and the owner ends of its edges; every edge joins two nodes and hangs below the start or an earlier owner |
| WalkerFacts.DiagramMissingStart | main.go:181-183 | a missing target object aborts the run with ObjectNotFound for its key |
| WalkerFacts.DiagramNoOwners | main.go:181-184 | a target without owners gives one node and no edges |
| WalkerFacts.DiagramUnknownOwnerType | main.go:97-101 | a first owner whose (group, kind) is not in the mapping aborts the run with TypeNotFound for that pair |
| WalkerFacts.DiagramMissingOwner | main.go:103-106 | a first owner that resolves but is missing from the namespace aborts the run with ObjectNotFound for the resolved key |
| WalkerFacts.DiagramOfChain | main.go:175-184 | a linear chain renders its captions as the nodes and |refs| edges, edge i from caption i to caption i + 1; distinct captions give |refs| + 1 nodes |
| Scenarios.CorednsCaptions | main.go:131 | the pod, replica-set and deployment captions are the expected three-line strings |
| Scenarios.CorednsLineage | main.go:175-184 | pod -> replica set -> deployment renders 3 nodes and the 2 expected edges, and the deployment has no outgoing edge |
| Scenarios.DiamondSharesOwnerNode | main.go:85 | two replica sets owned by one deployment share its node: 4 nodes and 4 edges, in depth-first order |
| Scenarios.BareVersionOwnerIsUnresolved | main.go:97-101 | an owner with apiVersion "v1" is looked up in group "v1" and aborts the run when only the empty group maps its kind |

## Left out

- Flags and global flag variables (main.go:24-52): process configuration. The target and the namespace are parameters of `Run`.
- `NewClients` (main.go:114-127): kubeconfig loading and client construction are I/O.
- Building the REST mapper from discovery (main.go:163-167). The mapping is an abstract read-only map from (group, kind) to (group, version, resource).
- `schema.ParseGroupKind` internals: a kind containing "." is not split the way the library would split it; resolution is a lookup keyed by (avSplit[0], kind).
- The dynamic client's `Get` (main.go:57) is a store lookup. A transport or connection failure is not modelled, so the only fetch errors are a missing object and a malformed owner field.
- Graphviz setup, close, render and printing (main.go:143-154, main.go:186-190) are an external library and stdout. The model returns the finished graph value instead.
- The `interface{}` type assertions (main.go:69, main.go:77-82). Owner references are typed records. A field that is not a list is the error MalformedOwnerMetadata where the code panics; malformed entries inside a list are not modelled.
- The `err != nil && !exists` guard on metadata (main.go:62-65): an object with no metadata is treated as having no owners.
- Repeated edges: `CreateEdge("", node, gnode)` (main.go:91) goes to graphviz, which may hand back the existing edge when the same (child, owner) pair is added again. The model always appends, so an owner listed twice by one child appears twice in the edge sequence; the rendered diagram may show it once.
- Library errors from `CreateNode` and `CreateEdge` (main.go:86-88, main.go:92-94): the graph model never fails.
- Walker.Graphz.FetchRecursiveOwners: the Go recursion is unbounded and never returns on cyclic ownership. The model bounds the depth with `fuel` and reports OutOfFuel in that case. `LineageFuelMonotone` shows the bound only cuts walks short, and `SelfOwnerExhaustsFuel` shows a cycle exhausts any bound.
- Panics and `log.Fatal` become an `Error` value returned to the top of the run. The process exit status is not modelled.
