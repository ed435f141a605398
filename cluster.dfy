/**
  The two collaborators the lineage walker consults, as read-only values: the
  object store the dynamic client reads from, and the type mapping built from
  the cluster's API-type catalog.
 */
module Cluster {
  import opened Outcomes
  import Text

  /** An owner reference as declared in an object's metadata. */
  datatype OwnerRef = OwnerRef(apiVersion: string, kind: string, name: string)

  /** Abstract type identity of an owner: its group and kind. */
  datatype GroupKind = GroupKind(group: string, kind: string)

  /** Concrete, fetchable collection endpoint. */
  datatype Gvr = Gvr(group: string, version: string, resource: string)

  /** The identity one object is fetched by. */
  datatype ObjectKey = ObjectKey(gvr: Gvr, namespace: string, name: string)

  /**
    What an existing object's metadata holds under `ownerReferences`: nothing,
    a list of references, or a value that is not a list.
   */
  datatype OwnerField = Absent | Present(refs: seq<OwnerRef>) | Malformed

  datatype Error =
    | ObjectNotFound(key: ObjectKey)
    | TypeNotFound(gk: GroupKind)
    | MalformedOwnerMetadata(key: ObjectKey)
    | OutOfFuel

  /** The object store and the type mapping of one run. */
  datatype Cluster = Cluster(store: map<ObjectKey, OwnerField>, types: map<GroupKind, Gvr>)

  /**
    The group used to resolve an owner's type: the first piece of its apiVersion
    split on "/". A bare version such as "v1" is its own group here.
   */
  function ApiGroup(apiVersion: string): (group: string)
    ensures group <= apiVersion
    ensures '/' !in group
    ensures group == apiVersion || apiVersion[|group|] == '/'
  {
    Text.SplitFirst(apiVersion, '/');
    Text.Split(apiVersion, '/')[0]
  }

  /** "apps/v1" is resolved in group "apps"; a bare "v1" in group "v1", not in the empty group. */
  lemma ApiGroupExamples()
    ensures ApiGroup("apps/v1") == "apps"
    ensures ApiGroup("v1") == "v1"
    ensures ApiGroup("") == ""
  {
    assert "apps/v1"[4] == '/';
    assert "apps/v1"[..4] == "apps";
  }

  /**
    The (group, kind) pair an owner reference is resolved by: its kind, and the
    text of its apiVersion before the first "/", or all of it when there is none.
   */
  function OwnerType(o: OwnerRef): (gk: GroupKind)
    ensures gk.kind == o.kind
    ensures gk.group <= o.apiVersion && '/' !in gk.group
    ensures gk.group == o.apiVersion || o.apiVersion[|gk.group|] == '/'
  {
    GroupKind(ApiGroup(o.apiVersion), o.kind)
  }

  /** Resolution of an owner's type through the type mapping. */
  function Resolve(types: map<GroupKind, Gvr>, o: OwnerRef): (r: Result<Gvr, Error>)
    ensures r.Success? <==> OwnerType(o) in types
    ensures r.Success? ==> r.value == types[OwnerType(o)]
    ensures r.Failure? ==> r.error == TypeNotFound(OwnerType(o))
  {
    var gk := OwnerType(o);
    if gk in types then Success(types[gk]) else Failure(TypeNotFound(gk))
  }

  /**
    The owner references of one object. A missing object is an error; an
    object without the field has no owner list (None), which is success; a
    field that is not a list is an error.
   */
  function FetchOwners(store: map<ObjectKey, OwnerField>, gvr: Gvr, namespace: string, name: string)
    : (r: Result<Option<seq<OwnerRef>>, Error>)
    ensures var key := ObjectKey(gvr, namespace, name);
      && (key !in store <==> r == Failure(ObjectNotFound(key)))
      && (r == Success(None) <==> key in store && store[key] == Absent)
      && (forall refs :: r == Success(Some(refs)) <==> key in store && store[key] == Present(refs))
      && (r == Failure(MalformedOwnerMetadata(key)) <==> key in store && store[key] == Malformed)
  {
    var key := ObjectKey(gvr, namespace, name);
    if key !in store then Failure(ObjectNotFound(key))
    else match store[key]
      case Absent => Success(None)
      case Present(refs) => Success(Some(refs))
      case Malformed => Failure(MalformedOwnerMetadata(key))
  }

  /**
    The owner references of an owner: its type resolved through the type
    mapping, then the object fetched by the resolved endpoint, the given
    namespace and the owner's name. Either step's failure is the result.
   */
  function OwnerLookup(c: Cluster, namespace: string, o: OwnerRef): (r: Result<Option<seq<OwnerRef>>, Error>)
    ensures OwnerType(o) !in c.types ==> r == Failure(TypeNotFound(OwnerType(o)))
    ensures OwnerType(o) in c.types ==> r == FetchOwners(c.store, c.types[OwnerType(o)], namespace, o.name)
  {
    match Resolve(c.types, o)
    case Failure(e) => Failure(e)
    case Success(gvr) => FetchOwners(c.store, gvr, namespace, o.name)
  }

  /** The list a walk iterates over: a missing list is walked as an empty one. */
  function OwnersOf(field: Option<seq<OwnerRef>>): seq<OwnerRef> {
    match field
    case None => []
    case Some(refs) => refs
  }
}
