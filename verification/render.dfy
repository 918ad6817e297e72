/** Link rendering: which upstream links are drawn each frame, and the curve drawn for each. */
module Render {
  import opened Wrappers
  import opened Geometry
  import opened Graph
  import opened Curve
  import HitTest

  /** A drawn link: upstream connector, the input connector it feeds, and the polyline. */
  datatype Line = Line(src: ConRef, dst: ConRef, points: seq<Vec2>)

  /** The `i`-th input of node `k` carries an upstream link whose owning node is found. */
  ghost predicate Drawable(nodes: seq<Node>, k: int, i: int) {
    && 0 <= k < |nodes| && 0 <= i < |nodes[k].inputs|
    && nodes[k].inputs[i].input.Some?
    && FindNodeByCon(nodes, nodes[k].inputs[i].input.value).Some?
  }

  /** Absolute position of a connector: scroll offset, owning node position, anchor. */
  function Anchor(offset: Vec2, owner: Node, c: Connector): Vec2 {
    Add(Add(offset, owner.pos), c.pos)
  }

  /** Scan order on input handles: by owning node id, then by position in the input list. With
      increasing ids this is the order `HitTest.Precedes` gives positions, restricted to inputs. */
  predicate ScanBefore(a: ConRef, b: ConRef) {
    a.node < b.node || (a.node == b.node && a.index < b.index)
  }

  /** With increasing ids, scan order on the handles of two inputs is the hit scan's order on
      their positions. */
  lemma ScanBeforeIsPrecedes(nodes: seq<Node>, k: nat, i: nat, k': nat, i': nat)
    requires IncreasingIds(nodes) && k < |nodes| && k' < |nodes|
    ensures ScanBefore(RefOf(nodes[k], In, i), RefOf(nodes[k'], In, i')) <==> HitTest.Precedes(k, In, i, k', In, i')
  {
    if k < k' {
      assert nodes[k].id < nodes[k'].id;
    } else if k' < k {
      assert nodes[k'].id < nodes[k].id;
    }
  }

  /** The link a drawable input gets: a curve from its upstream connector's absolute anchor to
      its own absolute anchor. */
  ghost function LinkLine(nodes: seq<Node>, offset: Vec2, k: int, i: int): Line
    requires Drawable(nodes, k, i)
  {
    var src := nodes[k].inputs[i].input.value;
    Line(src, RefOf(nodes[k], In, i),
         Hermite(Anchor(offset, nodes[FindNodeByCon(nodes, src).value], Deref(nodes, src)),
                 Anchor(offset, nodes[k], nodes[k].inputs[i]), LinkSteps))
  }

  /** Links drawn for the inputs `i..` of node `k`; an unset link or an upstream connector
      whose owner is not found is skipped. */
  function InputLines(nodes: seq<Node>, offset: Vec2, k: nat, i: nat): (r: seq<Line>)
    requires k < |nodes| && i <= |nodes[k].inputs|
    ensures forall l :: l in r ==>
              exists j :: i <= j < |nodes[k].inputs| && Drawable(nodes, k, j) && l == LinkLine(nodes, offset, k, j)
    ensures forall j :: i <= j < |nodes[k].inputs| && Drawable(nodes, k, j) ==> LinkLine(nodes, offset, k, j) in r
    ensures forall l :: l in r ==> l.dst.node == nodes[k].id && l.dst.role == In && i <= l.dst.index
    ensures forall a, b :: 0 <= a < b < |r| ==> r[a].dst.index < r[b].dst.index
    decreases |nodes[k].inputs| - i
  {
    if i == |nodes[k].inputs| then []
    else
      var con := nodes[k].inputs[i];
      var line :=
        match con.input
        case None => []
        case Some(src) =>
          match FindNodeByCon(nodes, src)
          case None => []
          case Some(t) =>
            var target := nodes[t];
            [Line(src, RefOf(nodes[k], In, i),
                  Hermite(Anchor(offset, target, Cons(target, src.role)[src.index]),
                          Anchor(offset, nodes[k], con), LinkSteps))];
      assert line == if Drawable(nodes, k, i) then [LinkLine(nodes, offset, k, i)] else [];
      var rest := InputLines(nodes, offset, k, i + 1);
      InputLinkThenLater(nodes, offset, k, i, line, rest);
      InputOrderThenLater(nodes[k], i, line, rest);
      line + rest
  }

  /** The link of input `i` (if drawable) followed by the links of inputs `i+1..` are the links
      of inputs `i..`. */
  lemma InputLinkThenLater(nodes: seq<Node>, offset: Vec2, k: nat, i: nat, line: seq<Line>, rest: seq<Line>)
    requires k < |nodes| && i < |nodes[k].inputs|
    requires line == if Drawable(nodes, k, i) then [LinkLine(nodes, offset, k, i)] else []
    requires forall l :: l in rest ==>
               exists j :: i + 1 <= j < |nodes[k].inputs| && Drawable(nodes, k, j) && l == LinkLine(nodes, offset, k, j)
    requires forall j :: i + 1 <= j < |nodes[k].inputs| && Drawable(nodes, k, j) ==> LinkLine(nodes, offset, k, j) in rest
    ensures forall l :: l in line + rest ==>
              exists j :: i <= j < |nodes[k].inputs| && Drawable(nodes, k, j) && l == LinkLine(nodes, offset, k, j)
    ensures forall j :: i <= j < |nodes[k].inputs| && Drawable(nodes, k, j) ==> LinkLine(nodes, offset, k, j) in line + rest
  {
  }

  /** A line for input `i` of node `n` placed before lines for later inputs of `n` keeps the
      lines in input order. */
  lemma InputOrderThenLater(n: Node, i: nat, line: seq<Line>, rest: seq<Line>)
    requires forall l :: l in line ==> l.dst == RefOf(n, In, i)
    requires |line| <= 1
    requires forall l :: l in rest ==> l.dst.node == n.id && l.dst.role == In && i + 1 <= l.dst.index
    requires forall a, b :: 0 <= a < b < |rest| ==> rest[a].dst.index < rest[b].dst.index
    ensures forall l :: l in line + rest ==> l.dst.node == n.id && l.dst.role == In && i <= l.dst.index
    ensures forall a, b :: 0 <= a < b < |line + rest| ==> (line + rest)[a].dst.index < (line + rest)[b].dst.index
  {
    var r := line + rest;
    forall a, b | 0 <= a < b < |r|
      ensures r[a].dst.index < r[b].dst.index
    {
      if a < |line| {
        assert r[a] == line[a] && r[a] in line;
        assert r[b] == rest[b - |line|] && r[b] in rest;
      } else {
        assert r[a] == rest[a - |line|] && r[b] == rest[b - |line|];
      }
    }
  }

  /** Links drawn for nodes `k..`, node by node. */
  function RenderFrom(nodes: seq<Node>, offset: Vec2, k: nat): (r: seq<Line>)
    requires k <= |nodes|
    ensures forall l :: l in r ==>
              exists k', j :: k <= k' && Drawable(nodes, k', j) && l == LinkLine(nodes, offset, k', j)
    ensures forall k', j :: k <= k' && Drawable(nodes, k', j) ==> LinkLine(nodes, offset, k', j) in r
    ensures IncreasingIds(nodes) ==> forall a, b :: 0 <= a < b < |r| ==> ScanBefore(r[a].dst, r[b].dst)
    decreases |nodes| - k
  {
    if k == |nodes| then []
    else
      var head, tail := InputLines(nodes, offset, k, 0), RenderFrom(nodes, offset, k + 1);
      LaterNodesScanAfter(nodes, k, head, tail);
      NodeLinksThenLater(nodes, offset, k, head, tail);
      head + tail
  }

  /** The links of node `k` followed by those of the later nodes are the links of nodes `k..`. */
  lemma NodeLinksThenLater(nodes: seq<Node>, offset: Vec2, k: nat, head: seq<Line>, tail: seq<Line>)
    requires k < |nodes|
    requires forall l :: l in head ==>
               exists j :: 0 <= j < |nodes[k].inputs| && Drawable(nodes, k, j) && l == LinkLine(nodes, offset, k, j)
    requires forall j :: 0 <= j < |nodes[k].inputs| && Drawable(nodes, k, j) ==> LinkLine(nodes, offset, k, j) in head
    requires forall l :: l in tail ==>
               exists k', j :: k + 1 <= k' && Drawable(nodes, k', j) && l == LinkLine(nodes, offset, k', j)
    requires forall k', j :: k + 1 <= k' && Drawable(nodes, k', j) ==> LinkLine(nodes, offset, k', j) in tail
    ensures forall l :: l in head + tail ==>
              exists k', j :: k <= k' && Drawable(nodes, k', j) && l == LinkLine(nodes, offset, k', j)
    ensures forall k', j :: k <= k' && Drawable(nodes, k', j) ==> LinkLine(nodes, offset, k', j) in head + tail
  {
    forall l | l in head + tail
      ensures exists k', j :: k <= k' && Drawable(nodes, k', j) && l == LinkLine(nodes, offset, k', j)
    {
      if l in head {
        var j :| 0 <= j < |nodes[k].inputs| && Drawable(nodes, k, j) && l == LinkLine(nodes, offset, k, j);
      }
    }
  }

  /** With increasing ids, the links of node `k` in input order, followed by the links of the
      later nodes in scan order, are in scan order. */
  lemma LaterNodesScanAfter(nodes: seq<Node>, k: nat, head: seq<Line>, tail: seq<Line>)
    requires k < |nodes|
    requires forall l :: l in head ==> l.dst.node == nodes[k].id
    requires forall a, b :: 0 <= a < b < |head| ==> head[a].dst.index < head[b].dst.index
    requires forall l :: l in tail ==> exists k' :: k + 1 <= k' < |nodes| && l.dst.node == nodes[k'].id
    requires IncreasingIds(nodes) ==> forall a, b :: 0 <= a < b < |tail| ==> ScanBefore(tail[a].dst, tail[b].dst)
    ensures IncreasingIds(nodes) ==>
              forall a, b :: 0 <= a < b < |head + tail| ==> ScanBefore((head + tail)[a].dst, (head + tail)[b].dst)
  {
    var r := head + tail;
    if IncreasingIds(nodes) {
      forall a, b | 0 <= a < b < |r|
        ensures ScanBefore(r[a].dst, r[b].dst)
      {
        if b < |head| {
          assert r[a] == head[a] && r[b] == head[b];
        } else if a >= |head| {
          assert r[a] == tail[a - |head|] && r[b] == tail[b - |head|];
        } else {
          assert r[a] == head[a] && r[a] in head;
          assert r[b] == tail[b - |head|] && r[b] in tail;
          var k' :| k + 1 <= k' < |nodes| && r[b].dst.node == nodes[k'].id;
          assert nodes[k].id < nodes[k'].id;
        }
      }
    }
  }

  /** The links of a frame: exactly one per drawable input connector, in scan order (nodes in
      list order, then inputs in list order) when node ids increase along the list. */
  function RenderLines(nodes: seq<Node>, offset: Vec2): (r: seq<Line>)
    ensures forall l :: l in r ==> exists k, j :: Drawable(nodes, k, j) && l == LinkLine(nodes, offset, k, j)
    ensures forall k, j :: Drawable(nodes, k, j) ==> LinkLine(nodes, offset, k, j) in r
    ensures IncreasingIds(nodes) ==> forall a, b :: 0 <= a < b < |r| ==> ScanBefore(r[a].dst, r[b].dst)
  {
    RenderFrom(nodes, offset, 0)
  }

  /** With increasing node ids, no input connector gets two links in one frame. */
  lemma NoInputDrawnTwice(nodes: seq<Node>, offset: Vec2, a: nat, b: nat)
    requires IncreasingIds(nodes)
    requires a < b < |RenderLines(nodes, offset)|
    ensures RenderLines(nodes, offset)[a].dst != RenderLines(nodes, offset)[b].dst
  {
  }

  /** Only input connectors' links are drawn: a link stored on an output connector never is. */
  lemma OutputLinksNeverDrawn(nodes: seq<Node>, offset: Vec2, k: nat, i: nat)
    requires k < |nodes| && i < |nodes[k].outputs|
    ensures forall l :: l in RenderLines(nodes, offset) ==> l.dst.role == In && l.dst != RefOf(nodes[k], Out, i)
  {
  }

  /** Every drawn curve starts exactly at its upstream connector's absolute anchor and ends
      exactly at the absolute anchor of the input it feeds. */
  lemma LinkJoinsAnchors(nodes: seq<Node>, offset: Vec2, k: int, i: int)
    requires Drawable(nodes, k, i)
    ensures var l := LinkLine(nodes, offset, k, i);
            && |l.points| == LinkSteps + 1
            && l.points[0] == Anchor(offset, nodes[FindNodeByCon(nodes, l.src).value], Deref(nodes, l.src))
            && l.points[LinkSteps] == Anchor(offset, nodes[k], nodes[k].inputs[i])
  {
  }

  /** When every link resolves, every input connector with an upstream link is drawn. */
  lemma EveryLinkedInputDrawn(nodes: seq<Node>, offset: Vec2)
    requires LinksResolve(nodes)
    ensures forall k, i :: 0 <= k < |nodes| && 0 <= i < |nodes[k].inputs| && nodes[k].inputs[i].input.Some?
              ==> Drawable(nodes, k, i) && LinkLine(nodes, offset, k, i) in RenderLines(nodes, offset)
  {
    forall k, i | 0 <= k < |nodes| && 0 <= i < |nodes[k].inputs| && nodes[k].inputs[i].input.Some?
      ensures Drawable(nodes, k, i)
    {
      assert Cons(nodes[k], In)[i] == nodes[k].inputs[i];
    }
  }
}
