/** The live graph: node instances, their connectors, and the links between connectors. */
module Graph {
  import opened Wrappers
  import opened Geometry
  import opened Search
  import opened Catalog

  datatype Role = In | Out

  /** A stable handle on a connector: owning node's id, role, and position in that role's list. */
  datatype ConRef = ConRef(node: int, role: Role, index: nat)

  /** A connector instance: its descriptor, its anchor relative to the node's top-left corner,
      and its upstream link (`input`), the connector supplying its value. */
  datatype Connector = Connector(desc: ConnectionDesc, pos: Vec2, input: Option<ConRef>)

  datatype Node = Node(id: int, name: string, pos: Vec2, size: Vec2,
                       inputs: seq<Connector>, outputs: seq<Connector>)

  function Cons(n: Node, role: Role): seq<Connector> {
    if role == In then n.inputs else n.outputs
  }

  function WithCons(n: Node, role: Role, cs: seq<Connector>): Node {
    if role == In then n.(inputs := cs) else n.(outputs := cs)
  }

  /** The handle of the `i`-th connector of `n` in `role`. */
  function RefOf(n: Node, role: Role, i: nat): ConRef {
    ConRef(n.id, role, i)
  }

  predicate Owns(n: Node, c: ConRef) {
    n.id == c.node && c.index < |Cons(n, c.role)|
  }

  /** Some node of the graph owns the connector `c`. */
  ghost predicate Resolves(nodes: seq<Node>, c: ConRef) {
    exists k :: 0 <= k < |nodes| && Owns(nodes[k], c)
  }

  /** Every upstream link, on any connector, names a connector of the graph. */
  ghost predicate LinksResolve(nodes: seq<Node>) {
    forall k, role, i :: 0 <= k < |nodes| && 0 <= i < |Cons(nodes[k], role)| && Cons(nodes[k], role)[i].input.Some?
      ==> Resolves(nodes, Cons(nodes[k], role)[i].input.value)
  }

  /** Node ids are strictly increasing in list order (hence pairwise distinct). */
  ghost predicate IncreasingIds(nodes: seq<Node>) {
    forall j, k :: 0 <= j < k < |nodes| ==> nodes[j].id < nodes[k].id
  }

  /** Index of the first node that owns `c`, or `None` when no node does. */
  function FindNodeByCon(nodes: seq<Node>, c: ConRef): (r: Option<nat>)
    ensures r.Some? ==> r.value < |nodes| && Owns(nodes[r.value], c)
    ensures r.Some? ==> forall j :: 0 <= j < r.value ==> !Owns(nodes[j], c)
    ensures r.None? <==> !Resolves(nodes, c)
  {
    FirstIndex(nodes, (n: Node) => Owns(n, c))
  }

  /** The connector a resolvable handle designates. */
  function Deref(nodes: seq<Node>, c: ConRef): Connector
    requires FindNodeByCon(nodes, c).Some?
  {
    Cons(nodes[FindNodeByCon(nodes, c).value], c.role)[c.index]
  }

  /** Two graphs with the same ids and the same connector counts, node by node. */
  ghost predicate SameShape(nodes: seq<Node>, nodes': seq<Node>) {
    && |nodes| == |nodes'|
    && forall k :: 0 <= k < |nodes| ==>
         && nodes[k].id == nodes'[k].id
         && |nodes[k].inputs| == |nodes'[k].inputs|
         && |nodes[k].outputs| == |nodes'[k].outputs|
  }

  /** Owner lookup depends only on a graph's shape, not on positions or links. */
  lemma FindNodeByConShape(nodes: seq<Node>, nodes': seq<Node>, c: ConRef)
    requires SameShape(nodes, nodes')
    ensures FindNodeByCon(nodes, c) == FindNodeByCon(nodes', c)
    ensures Resolves(nodes, c) <==> Resolves(nodes', c)
  {
    forall j | 0 <= j < |nodes|
      ensures Owns(nodes[j], c) == Owns(nodes'[j], c)
    {
      assert |Cons(nodes[j], c.role)| == |Cons(nodes'[j], c.role)|;
    }
    FirstIndexAgrees(nodes, (n: Node) => Owns(n, c), nodes', (n: Node) => Owns(n, c));
  }

  /** Appending a node never changes which node an already resolvable handle belongs to. */
  lemma FindNodeByConAppend(nodes: seq<Node>, n: Node, c: ConRef)
    requires Resolves(nodes, c)
    ensures FindNodeByCon(nodes + [n], c) == FindNodeByCon(nodes, c)
  {
    var k := FindNodeByCon(nodes, c).value;
    var s := nodes + [n];
    assert s[k] == nodes[k];
    FirstIndexAtMost(s, (m: Node) => Owns(m, c), k);
    var k' := FindNodeByCon(s, c).value;
    assert s[k'] == nodes[k'];
  }

  /** With distinct ids, a handle names exactly one connector: distinct positions in the graph
      have distinct handles, and a handle's owner is the node at its position. */
  lemma HandleIdentity(nodes: seq<Node>, k: nat, role: Role, i: nat, k': nat, role': Role, i': nat)
    requires IncreasingIds(nodes)
    requires k < |nodes| && i < |Cons(nodes[k], role)|
    requires k' < |nodes| && i' < |Cons(nodes[k'], role')|
    ensures RefOf(nodes[k], role, i) == RefOf(nodes[k'], role', i') <==> (k, role, i) == (k', role', i')
    ensures FindNodeByCon(nodes, RefOf(nodes[k], role, i)) == Some(k)
  {
    if k < k' {
      assert nodes[k].id < nodes[k'].id;
    } else if k' < k {
      assert nodes[k'].id < nodes[k].id;
    }
    FirstIndexAtMost(nodes, (n: Node) => Owns(n, RefOf(nodes[k], role, i)), k);
  }

  /** Sets the upstream link of the `i`-th `role` connector of node `k` to `src`. */
  function SetInput(nodes: seq<Node>, k: nat, role: Role, i: nat, src: Option<ConRef>): (r: seq<Node>)
    requires k < |nodes| && i < |Cons(nodes[k], role)|
    ensures SameShape(nodes, r)
    ensures Cons(r[k], role)[i].input == src
    ensures Cons(r[k], role)[i] == Cons(nodes[k], role)[i].(input := src)
    ensures forall k', role', i' ::
              (0 <= k' < |nodes| && 0 <= i' < |Cons(nodes[k'], role')| && (k', role', i') != (k, role, i))
              ==> Cons(r[k'], role')[i'] == Cons(nodes[k'], role')[i']
    ensures forall k' :: 0 <= k' < |nodes| ==>
              r[k'].pos == nodes[k'].pos && r[k'].size == nodes[k'].size && r[k'].name == nodes[k'].name
  {
    var cs := Cons(nodes[k], role);
    nodes[k := WithCons(nodes[k], role, cs[i := cs[i].(input := src)])]
  }
}
