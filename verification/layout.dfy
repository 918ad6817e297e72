/** Node instantiation: connector setup from a template and the box layout computed from
    measured label sizes. Text measurement is a parameter (`measure`), supplied by the host. */
module Layout {
  import opened Wrappers
  import opened Geometry
  import opened Catalog
  import opened Graph

  /** Vertical padding added after every connector label row. */
  const RowPadding := 4.0

  /** Horizontal space reserved between the input and output label columns. */
  const ColumnGap := 40.0

  /** The title bar is this many title-text lines high. */
  const TitleLines := 3.0

  /** The text of a descriptor's label (only ever asked of named descriptors). */
  function Label(d: ConnectionDesc): string {
    match d.name
    case Some(s) => s
    case None => ""
  }

  function Heights(measure: string -> Extent, ds: seq<ConnectionDesc>): (r: seq<real>)
    ensures |r| == |ds|
    ensures forall i :: 0 <= i < |ds| ==> r[i] == measure(Label(ds[i])).y >= 0.0
  {
    seq(|ds|, i requires 0 <= i < |ds| => measure(Label(ds[i])).y)
  }

  function Widths(measure: string -> Extent, ds: seq<ConnectionDesc>): (r: seq<real>)
    ensures |r| == |ds|
    ensures forall i :: 0 <= i < |ds| ==> r[i] == measure(Label(ds[i])).x >= 0.0
  {
    seq(|ds|, i requires 0 <= i < |ds| => measure(Label(ds[i])).x)
  }

  /** Total height of a column of label rows: every row's height plus the padding. */
  function RowsHeight(hs: seq<real>): real {
    if |hs| == 0 then 0.0 else RowsHeight(hs[..|hs| - 1]) + hs[|hs| - 1] + RowPadding
  }

  /** The widest label, floored at zero (the accumulator starts at zero). */
  function MaxWidth(ws: seq<real>): (r: real)
    ensures r >= 0.0
    ensures forall i :: 0 <= i < |ws| ==> ws[i] <= r
    ensures r == 0.0 || exists i :: 0 <= i < |ws| && ws[i] == r
  {
    if |ws| == 0 then 0.0
    else
      var m := MaxWidth(ws[..|ws| - 1]);
      assert forall i :: 0 <= i < |ws| - 1 ==> ws[..|ws| - 1][i] == ws[i];
      Max(ws[|ws| - 1], m)
  }

  /** The descriptors of a connector list, in order. */
  function Descs(cons: seq<Connector>): (r: seq<ConnectionDesc>)
    ensures |r| == |cons| && forall i :: 0 <= i < |cons| ==> r[i] == cons[i].desc
  {
    seq(|cons|, i requires 0 <= i < |cons| => cons[i].desc)
  }

  /** Vertical anchor of row `i`: below the title, the rows above it, and half its own height. */
  function RowY(top: real, hs: seq<real>, i: nat): real
    requires i < |hs|
  {
    top + RowsHeight(hs[..i]) + hs[i] / 2.0
  }

  function TitleHeight(measure: string -> Extent, name: string): real {
    measure(name).y * TitleLines
  }

  /** Box width: the widest input label, the gap, and the widest output label. */
  function NodeWidth(measure: string -> Extent, t: NodeType): real {
    MaxWidth(Widths(measure, NamedPrefix(t.inputs))) + ColumnGap + MaxWidth(Widths(measure, NamedPrefix(t.outputs)))
  }

  /** Box height: the title bar and the input column; outputs do not contribute. */
  function NodeHeight(measure: string -> Extent, t: NodeType): real {
    TitleHeight(measure, t.name) + RowsHeight(Heights(measure, NamedPrefix(t.inputs)))
  }

  /** The node a template yields in closed form, with id `id` at canvas position `pos`:
      inputs anchored on the left edge, outputs on the right edge, every link unset. */
  function NodeFromType(pos: Vec2, t: NodeType, id: int, measure: string -> Extent): Node {
    var top := TitleHeight(measure, t.name);
    var ins := NamedPrefix(t.inputs);
    var outs := NamedPrefix(t.outputs);
    var ih := Heights(measure, ins);
    var oh := Heights(measure, outs);
    var w := NodeWidth(measure, t);
    Node(id, t.name, pos, Vec2(w, NodeHeight(measure, t)),
         seq(|ins|, i requires 0 <= i < |ins| => Connector(ins[i], Vec2(0.0, RowY(top, ih, i)), None)),
         seq(|outs|, i requires 0 <= i < |outs| => Connector(outs[i], Vec2(w, RowY(top, oh, i)), None)))
  }

  /** One fresh connector per descriptor before the first null name (at most 32), in order,
      each with no upstream link and anchored at the origin until layout places it. */
  method SetupConnections(descs: Slots) returns (cons: seq<Connector>)
    ensures |cons| == |NamedPrefix(descs)|
    ensures forall i :: 0 <= i < |cons| ==> cons[i] == Connector(NamedPrefix(descs)[i], Origin, None)
  {
    cons := [];
    var i := 0;
    while i < MaxConnectionCount
      invariant 0 <= i <= MaxConnectionCount
      invariant |cons| == i
      invariant forall j :: 0 <= j < i ==> descs[j].name.Some? && cons[j] == Connector(descs[j], Origin, None)
    {
      var desc := descs[i];
      if desc.name.None? {
        break;
      }
      cons := cons + [Connector(desc, Origin, None)];
      i := i + 1;
    }
  }

  /** Lays out the input column: every input anchored on the left edge at its row's
      vertical centre; returns the widest label and the column's accumulated height. */
  method LayoutInputs(cons: seq<Connector>, titleY: real, measure: string -> Extent)
    returns (placed: seq<Connector>, maxW: real, height: real)
    ensures |placed| == |cons|
    ensures forall j :: 0 <= j < |cons| ==>
              placed[j] == cons[j].(pos := Vec2(0.0, RowY(titleY, Heights(measure, Descs(cons)), j)))
    ensures maxW == MaxWidth(Widths(measure, Descs(cons)))
    ensures height == RowsHeight(Heights(measure, Descs(cons)))
  {
    ghost var hs, ws := Heights(measure, Descs(cons)), Widths(measure, Descs(cons));
    placed := cons;
    maxW, height := 0.0, 0.0;
    var i := 0;
    while i < |cons|
      invariant 0 <= i <= |cons| == |placed|
      invariant forall j :: i <= j < |cons| ==> placed[j] == cons[j]
      invariant forall j :: 0 <= j < i ==> placed[j] == cons[j].(pos := Vec2(0.0, RowY(titleY, hs, j)))
      invariant maxW == MaxWidth(ws[..i]) && height == RowsHeight(hs[..i])
    {
      var textSize := measure(Label(placed[i].desc));
      maxW := Max(textSize.x, maxW);
      placed := placed[i := placed[i].(pos := Vec2(0.0, titleY + height + textSize.y / 2.0))];
      height := height + textSize.y;
      height := height + RowPadding;
      assert ws[..i + 1][..i] == ws[..i] && hs[..i + 1][..i] == hs[..i];
      i := i + 1;
    }
    assert ws[..i] == ws && hs[..i] == hs;
  }

  /** Widens the box for the output labels: starting from `xStart`, keeps the larger of the
      running width and `xStart` plus each output label's width. */
  method OutputColumnWidth(cons: seq<Connector>, xStart: real, measure: string -> Extent)
    returns (width: real)
    ensures width == xStart + MaxWidth(Widths(measure, Descs(cons)))
  {
    ghost var ws := Widths(measure, Descs(cons));
    width := xStart;
    var k := 0;
    while k < |cons|
      invariant 0 <= k <= |cons|
      invariant width == xStart + MaxWidth(ws[..k])
    {
      var textSize := measure(Label(cons[k].desc));
      width := Max(xStart + textSize.x, width);
      assert ws[..k + 1][..k] == ws[..k];
      k := k + 1;
    }
    assert ws[..k] == ws;
  }

  /** Lays out the output column on the right edge `x`, with a height accumulator of its own
      that starts again below the title. */
  method LayoutOutputs(cons: seq<Connector>, x: real, titleY: real, measure: string -> Extent)
    returns (placed: seq<Connector>)
    ensures |placed| == |cons|
    ensures forall j :: 0 <= j < |cons| ==>
              placed[j] == cons[j].(pos := Vec2(x, RowY(titleY, Heights(measure, Descs(cons)), j)))
  {
    ghost var hs := Heights(measure, Descs(cons));
    placed := cons;
    var height := 0.0;
    var k := 0;
    while k < |cons|
      invariant 0 <= k <= |cons| == |placed|
      invariant forall j :: k <= j < |cons| ==> placed[j] == cons[j]
      invariant forall j :: 0 <= j < k ==> placed[j] == cons[j].(pos := Vec2(x, RowY(titleY, hs, j)))
      invariant height == RowsHeight(hs[..k])
    {
      var textSize := measure(Label(placed[k].desc));
      placed := placed[k := placed[k].(pos := Vec2(x, titleY + height + textSize.y / 2.0))];
      height := height + textSize.y;
      height := height + RowPadding;
      assert hs[..k + 1][..k] == hs[..k];
      k := k + 1;
    }
  }

  /** Instantiates a template: takes id `sId` and hands back `sId + 1` as the next id, sets up
      both connector lists, then lays the node out; the result is the closed-form node. */
  method CreateNodeFromType(pos: Vec2, t: NodeType, sId: nat, measure: string -> Extent)
    returns (node: Node, nextId: nat)
    ensures node == NodeFromType(pos, t, sId, measure)
    ensures nextId == sId + 1
  {
    var id := sId;
    nextId := sId + 1;
    var titleY := measure(t.name).y * TitleLines;
    var ins := SetupConnections(t.inputs);
    var outs := SetupConnections(t.outputs);
    assert Descs(ins) == NamedPrefix(t.inputs);
    assert Descs(outs) == NamedPrefix(t.outputs);
    var inputX, inputY;
    ins, inputX, inputY := LayoutInputs(ins, titleY, measure);
    var width := OutputColumnWidth(outs, inputX + ColumnGap, measure);
    var size := Vec2(width, inputY + titleY);
    outs := LayoutOutputs(outs, size.x, titleY, measure);
    node := Node(id, t.name, pos, size, ins, outs);
    SameLayout(pos, t, sId, measure, ins, outs, size);
  }

  /** Instantiates the first catalog template whose name equals `name` exactly (the one
      `FindNodeType` finds); an unknown name yields no node and consumes no id. */
  method CreateNodeFromName(pos: Vec2, name: string, sId: nat, measure: string -> Extent)
    returns (node: Option<Node>, nextId: nat)
    ensures node.None? <==> forall j :: 0 <= j < |NodeTypes| ==> NodeTypes[j].name != name
    ensures node.None? ==> nextId == sId
    ensures node.Some? ==> node.value.name == name && node.value.pos == pos && node.value.id == sId
    ensures node.Some? ==> nextId == sId + 1
    ensures node.Some? ==> exists j :: 0 <= j < |NodeTypes| && node.value == NodeFromType(pos, NodeTypes[j], sId, measure)
    ensures node.None? <==> FindNodeType(NodeTypes, name).None?
    ensures node.Some? ==>
              && FindNodeType(NodeTypes, name).Some?
              && node.value == NodeFromType(pos, NodeTypes[FindNodeType(NodeTypes, name).value], sId, measure)
  {
    var i := 0;
    while i < |NodeTypes|
      invariant 0 <= i <= |NodeTypes|
      invariant forall j :: 0 <= j < i ==> NodeTypes[j].name != name
    {
      if NodeTypes[i].name == name {
        var n;
        n, nextId := CreateNodeFromType(pos, NodeTypes[i], sId, measure);
        return Some(n), nextId;
      }
      i := i + 1;
    }
    return None, sId;
  }

  /** A node assembled from laid-out connector lists is the closed-form node. */
  lemma SameLayout(pos: Vec2, t: NodeType, id: int, measure: string -> Extent,
                   ins: seq<Connector>, outs: seq<Connector>, size: Vec2)
    requires |ins| == |NamedPrefix(t.inputs)| && |outs| == |NamedPrefix(t.outputs)|
    requires size == Vec2(NodeWidth(measure, t), NodeHeight(measure, t))
    requires forall j :: 0 <= j < |ins| ==>
               (ins[j] == Connector(NamedPrefix(t.inputs)[j],
                                    Vec2(0.0, RowY(TitleHeight(measure, t.name), Heights(measure, NamedPrefix(t.inputs)), j)),
                                    None))
    requires forall j :: 0 <= j < |outs| ==>
               (outs[j] == Connector(NamedPrefix(t.outputs)[j],
                                     Vec2(size.x, RowY(TitleHeight(measure, t.name), Heights(measure, NamedPrefix(t.outputs)), j)),
                                     None))
    ensures Node(id, t.name, pos, size, ins, outs) == NodeFromType(pos, t, id, measure)
  {
  }

  /** With non-negative label heights, every later row starts below the end of an earlier one. */
  lemma {:induction false} RowsHeightGrows(hs: seq<real>, i: nat, j: nat)
    requires i < j <= |hs|
    requires forall k :: 0 <= k < |hs| ==> hs[k] >= 0.0
    ensures RowsHeight(hs[..i]) + hs[i] + RowPadding <= RowsHeight(hs[..j])
    decreases j
  {
    assert hs[..j][..j - 1] == hs[..j - 1];
    if j > i + 1 {
      RowsHeightGrows(hs, i, j - 1);
    }
  }

  /** A column of at least as many rows, each at least as high, is at least as high. */
  lemma {:induction false} RowsHeightMono(a: seq<real>, b: seq<real>)
    requires |a| <= |b|
    requires forall k :: 0 <= k < |a| ==> a[k] <= b[k]
    requires forall k :: 0 <= k < |b| ==> b[k] >= 0.0
    ensures RowsHeight(a) <= RowsHeight(b)
    decreases |b|
  {
    if |b| > 0 {
      var b' := b[..|b| - 1];
      if |a| == |b| {
        RowsHeightMono(a[..|a| - 1], b');
      } else {
        RowsHeightMono(a, b');
      }
    }
  }

  /** Every input row lies inside the box: anchored on the left edge, below the title bar,
      and its label plus padding ends no lower than the box's bottom edge. */
  lemma InputRowsInsideBox(pos: Vec2, t: NodeType, id: int, measure: string -> Extent, i: nat)
    requires i < |NamedPrefix(t.inputs)|
    ensures var n := NodeFromType(pos, t, id, measure);
            && n.inputs[i].pos.x == 0.0
            && TitleHeight(measure, t.name) <= n.inputs[i].pos.y
            && n.inputs[i].pos.y + Heights(measure, NamedPrefix(t.inputs))[i] / 2.0 + RowPadding <= n.size.y
  {
    var hs := Heights(measure, NamedPrefix(t.inputs));
    RowsHeightMono([], hs[..i]);
    RowsHeightGrows(hs, i, |hs|);
    assert hs[..|hs|] == hs;
  }

  /** Anchors of one column descend strictly in descriptor order. */
  lemma AnchorsDescend(pos: Vec2, t: NodeType, id: int, measure: string -> Extent, role: Role, i: nat, j: nat)
    requires i < j < |Cons(NodeFromType(pos, t, id, measure), role)|
    ensures Cons(NodeFromType(pos, t, id, measure), role)[i].pos.y < Cons(NodeFromType(pos, t, id, measure), role)[j].pos.y
  {
    var hs := Heights(measure, NamedPrefix(if role == In then t.inputs else t.outputs));
    RowsHeightGrows(hs, i, j);
  }

  /** The box height ignores the output column: when a template has more outputs than inputs
      and its output labels are at least as high as the input labels beside them, every
      output past the last input is anchored on or below the box's bottom edge. */
  lemma OutputsOverhangBox(pos: Vec2, t: NodeType, id: int, measure: string -> Extent, k: nat)
    requires |NamedPrefix(t.inputs)| <= k < |NamedPrefix(t.outputs)|
    requires forall j :: 0 <= j < |NamedPrefix(t.inputs)| ==>
               Heights(measure, NamedPrefix(t.inputs))[j] <= Heights(measure, NamedPrefix(t.outputs))[j]
    ensures NodeFromType(pos, t, id, measure).outputs[k].pos.y >= NodeFromType(pos, t, id, measure).size.y
  {
    var ih := Heights(measure, NamedPrefix(t.inputs));
    var oh := Heights(measure, NamedPrefix(t.outputs));
    RowsHeightMono(ih, oh[..k]);
  }

  /** The box is as wide as the widest input label plus the gap, widened by the widest output
      label: at least each input label plus the gap, at least that column plus each output
      label, and equal to one of those bounds (or to the bare gap for a node with no labels). */
  lemma WidthCoversLabels(pos: Vec2, t: NodeType, id: int, measure: string -> Extent)
    ensures var n := NodeFromType(pos, t, id, measure);
            var iw := Widths(measure, NamedPrefix(t.inputs));
            var ow := Widths(measure, NamedPrefix(t.outputs));
            && (forall i :: 0 <= i < |iw| ==> iw[i] + ColumnGap <= n.size.x)
            && (forall k :: 0 <= k < |ow| ==> MaxWidth(iw) + ColumnGap + ow[k] <= n.size.x)
            && (n.size.x == MaxWidth(iw) + ColumnGap
                || exists k :: 0 <= k < |ow| && n.size.x == MaxWidth(iw) + ColumnGap + ow[k])
  {
  }

  /** Instantiation sets up exactly the named descriptors, in order, with no upstream links,
      and keeps the template's name, the requested position and the given id. */
  lemma CreatedConnectors(pos: Vec2, t: NodeType, id: int, measure: string -> Extent)
    ensures var n := NodeFromType(pos, t, id, measure);
            && n.id == id && n.name == t.name && n.pos == pos
            && |n.inputs| == |NamedPrefix(t.inputs)| <= MaxConnectionCount
            && |n.outputs| == |NamedPrefix(t.outputs)| <= MaxConnectionCount
            && (forall i :: 0 <= i < |n.inputs| ==> n.inputs[i].desc == t.inputs[i] && n.inputs[i].input.None?)
            && (forall i :: 0 <= i < |n.outputs| ==> n.outputs[i].desc == t.outputs[i] && n.outputs[i].input.None?)
  {
  }
}
