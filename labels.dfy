/** Node captions: three lines naming the type, the group or apiVersion, and the object. */
module Labels {
  import Text
  import opened Cluster

  const NewLine: char := '\n'

  /** The caption of a node: `resource`, `group` and `name` on three lines, in that order. */
  function NodeName(name: string, group: string, resource: string): string {
    resource + [NewLine] + group + [NewLine] + name
  }

  /** An owner's node is captioned kind / apiVersion / name. */
  function OwnerLabel(o: OwnerRef): string {
    NodeName(o.name, o.apiVersion, o.kind)
  }

  /** The start node is captioned resource / group / name. */
  function StartLabel(target: Gvr, name: string): string {
    NodeName(name, target.group, target.resource)
  }

  /** When no field holds a line break, the caption's three lines read back as resource, group, name. */
  lemma NodeNameLines(name: string, group: string, resource: string)
    requires NewLine !in name && NewLine !in group && NewLine !in resource
    ensures Text.Split(NodeName(name, group, resource), NewLine) == [resource, group, name]
  {
    assert [resource, group, name][1..] == [group, name] && [group, name][1..] == [name];
    assert Text.Join([name], NewLine) == name;
    assert Text.Join([group, name], NewLine) == group + [NewLine] + name;
    assert NodeName(name, group, resource) == Text.Join([resource, group, name], NewLine);
    Text.SplitJoin([resource, group, name], NewLine);
  }

  /** An owner's caption reads kind, apiVersion, name, line by line. */
  lemma OwnerLabelLines(o: OwnerRef)
    requires NewLine !in o.kind && NewLine !in o.apiVersion && NewLine !in o.name
    ensures Text.Split(OwnerLabel(o), NewLine) == [o.kind, o.apiVersion, o.name]
  {
    NodeNameLines(o.name, o.apiVersion, o.kind);
  }

  /** The start node's caption reads resource, group, name, line by line. */
  lemma StartLabelLines(target: Gvr, name: string)
    requires NewLine !in target.resource && NewLine !in target.group && NewLine !in name
    ensures Text.Split(StartLabel(target, name), NewLine) == [target.resource, target.group, name]
  {
    NodeNameLines(name, target.group, target.resource);
  }

  /** Captions of line-break-free fields determine the fields. */
  lemma NodeNameInjective(n1: string, g1: string, r1: string, n2: string, g2: string, r2: string)
    requires NewLine !in n1 && NewLine !in g1 && NewLine !in r1
    requires NewLine !in n2 && NewLine !in g2 && NewLine !in r2
    ensures NodeName(n1, g1, r1) == NodeName(n2, g2, r2) <==> n1 == n2 && g1 == g2 && r1 == r2
  {
    if NodeName(n1, g1, r1) == NodeName(n2, g2, r2) {
      NodeNameLines(n1, g1, r1);
      NodeNameLines(n2, g2, r2);
      assert [r1, g1, n1] == [r2, g2, n2];
      assert [r1, g1, n1][0] == r2 && [r1, g1, n1][1] == g2 && [r1, g1, n1][2] == n2;
    }
  }

  /** Owner references share a node exactly when kind, apiVersion and name agree. */
  lemma OwnerLabelShared(o1: OwnerRef, o2: OwnerRef)
    requires NewLine !in o1.kind && NewLine !in o1.apiVersion && NewLine !in o1.name
    requires NewLine !in o2.kind && NewLine !in o2.apiVersion && NewLine !in o2.name
    ensures OwnerLabel(o1) == OwnerLabel(o2) <==> o1 == o2
  {
    NodeNameInjective(o1.name, o1.apiVersion, o1.kind, o2.name, o2.apiVersion, o2.kind);
  }

  /** Without the line-break restriction captions can collide. */
  lemma NodeNameCollides()
    ensures NodeName("c", "b\na", "r") == NodeName("a\nc", "b", "r")
  {
  }
}
