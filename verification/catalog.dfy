/** The compiled-in node catalog: connector descriptors, node templates and name lookup. */
module Catalog {
  import opened Wrappers
  import opened Search

  /** Every template reserves this many input slots and this many output slots. */
  const MaxConnectionCount: nat := 32

  datatype ConnectionType = Color | Vec3 | Float | Int

  /** A connector descriptor; a slot whose name is `None` ends the list (a null `name`). */
  datatype ConnectionDesc = ConnectionDesc(name: Option<string>, kind: ConnectionType)

  /** A zero-initialised slot of a descriptor array: null name, first connection type. */
  const Unused := ConnectionDesc(None, Color)

  /** A fixed-size descriptor array, as laid out in a template. */
  type Slots = s: seq<ConnectionDesc> | |s| == MaxConnectionCount witness seq(MaxConnectionCount, _ => Unused)

  datatype NodeType = NodeType(name: string, inputs: Slots, outputs: Slots)

  /** Fills the named descriptors up to a full array with unused slots. */
  function Pad(named: seq<ConnectionDesc>): (r: Slots)
    requires |named| <= MaxConnectionCount
  {
    named + seq(MaxConnectionCount - |named|, _ => Unused)
  }

  function Named(name: string, kind: ConnectionType): ConnectionDesc {
    ConnectionDesc(Some(name), kind)
  }

  /** The catalog: two arithmetic templates with two float inputs and one float output. */
  const NodeTypes: seq<NodeType> := [
    NodeType("Multiply",
             Pad([Named("Input1", Float), Named("Input2", Float)]),
             Pad([Named("Out", Float)])),
    NodeType("Add",
             Pad([Named("Input1", Float), Named("Input2", Float)]),
             Pad([Named("Out", Float)]))
  ]

  /** The descriptors a node actually gets: those before the first null name, at most 32. */
  function NamedPrefix(descs: Slots): (r: seq<ConnectionDesc>)
    ensures |r| <= MaxConnectionCount && r == descs[..|r|]
    ensures forall j :: 0 <= j < |r| ==> r[j].name.Some?
    ensures |r| < MaxConnectionCount ==> descs[|r|].name.None?
  {
    match FirstIndex(descs, (d: ConnectionDesc) => d.name.None?)
    case None => descs
    case Some(k) => descs[..k]
  }

  /** Index of the first template whose name equals `name` exactly (case-sensitive). */
  function FindNodeType(types: seq<NodeType>, name: string): (r: Option<nat>)
    ensures r.Some? ==> r.value < |types| && types[r.value].name == name
    ensures r.Some? ==> forall j :: 0 <= j < r.value ==> types[j].name != name
    ensures r.None? <==> forall j :: 0 <= j < |types| ==> types[j].name != name
  {
    FirstIndex(types, (t: NodeType) => t.name == name)
  }

  /** Looking up "Add" yields a template with inputs Input1/Input2 and output Out, all Float. */
  lemma AddTemplate()
    ensures FindNodeType(NodeTypes, "Add") == Some(1)
    ensures NamedPrefix(NodeTypes[1].inputs) == [Named("Input1", Float), Named("Input2", Float)]
    ensures NamedPrefix(NodeTypes[1].outputs) == [Named("Out", Float)]
  {
    assert NodeTypes[0].name != "Add" by {
      assert NodeTypes[0].name[0] == 'M';
    }
    var ins := NodeTypes[1].inputs;
    var outs := NodeTypes[1].outputs;
    assert ins[2].name.None? && ins[0].name.Some? && ins[1].name.Some?;
    assert outs[1].name.None? && outs[0].name.Some?;
    var a := NamedPrefix(ins);
    assert |a| == 2;
    var b := NamedPrefix(outs);
    assert |b| == 1;
  }
}
