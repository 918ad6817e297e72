/** Connector hit testing: a strict radius test and the ordered first-hit scan over the graph. */
module HitTest {
  import opened Wrappers
  import opened Geometry
  import opened Search
  import opened Graph

  /** Radius of a connector's circular hot spot, in canvas units. */
  const NodeSlotRadius := 5.0

  /** The pointer is over `c` when it lies strictly within the slot radius of `at + c.pos`. */
  predicate IsConnectorHovered(c: Connector, at: Vec2, mouse: Vec2) {
    SquaredDistance(mouse, Add(at, c.pos)) < NodeSlotRadius * NodeSlotRadius
  }

  /** The hit test fires exactly inside the open disc of radius 5: a pointer on the anchor is a
      hit, a pointer exactly 5 units away along an axis is not, and any hit lies within 5 units
      of the anchor along both axes. */
  lemma HitIsStrictRadius(c: Connector, at: Vec2, mouse: Vec2)
    ensures mouse == Add(at, c.pos) ==> IsConnectorHovered(c, at, mouse)
    ensures mouse == Add(Add(at, c.pos), Vec2(NodeSlotRadius, 0.0)) ==> !IsConnectorHovered(c, at, mouse)
    ensures mouse == Add(Add(at, c.pos), Vec2(0.0, NodeSlotRadius)) ==> !IsConnectorHovered(c, at, mouse)
    ensures IsConnectorHovered(c, at, mouse) ==>
              var a := Add(at, c.pos);
              -NodeSlotRadius < mouse.x - a.x < NodeSlotRadius && -NodeSlotRadius < mouse.y - a.y < NodeSlotRadius
  {
    var a := Add(at, c.pos);
    var dx, dy := mouse.x - a.x, mouse.y - a.y;
    assert SquaredDistance(mouse, a) == dx * dx + dy * dy;
    assert dx * dx >= 0.0 && dy * dy >= 0.0;
    if dx >= 5.0 || dx <= -5.0 {
      assert dx * dx >= 25.0;
    }
    if dy >= 5.0 || dy <= -5.0 {
      assert dy * dy >= 25.0;
    }
  }

  /** An anchor at (110,150) with no node offset: a pointer at (112,151) hits it, one at
      (116,150) does not. */
  lemma HitExamples(c: Connector)
    requires c.pos == Vec2(110.0, 150.0)
    ensures IsConnectorHovered(c, Origin, Vec2(112.0, 151.0))
    ensures !IsConnectorHovered(c, Origin, Vec2(116.0, 150.0))
  {
  }

  /** What the scan reports: the owning node's index, the connector's handle, and its absolute
      position (node position plus scroll offset plus anchor). */
  datatype Hit = Hit(node: nat, con: ConRef, pos: Vec2)

  /** The `i`-th `role` connector of node `k` is under the pointer. */
  ghost predicate HoveredAt(nodes: seq<Node>, offset: Vec2, mouse: Vec2, k: int, role: Role, i: int) {
    && 0 <= k < |nodes| && 0 <= i < |Cons(nodes[k], role)|
    && IsConnectorHovered(Cons(nodes[k], role)[i], Add(nodes[k].pos, offset), mouse)
  }

  /** Scan order: nodes in list order; within a node, inputs before outputs, in list order. */
  predicate Precedes(k: int, role: Role, i: int, k': int, role': Role, i': int) {
    k < k' || (k == k' && ((role == In && role' == Out) || (role == role' && i < i')))
  }

  /** `h` describes the `h.con.index`-th `h.con.role` connector of node `h.node`, which is hovered. */
  ghost predicate IsHit(nodes: seq<Node>, offset: Vec2, mouse: Vec2, h: Hit) {
    && h.node < |nodes|
    && h.con.node == nodes[h.node].id
    && HoveredAt(nodes, offset, mouse, h.node, h.con.role, h.con.index)
    && h.pos == Add(Add(nodes[h.node].pos, offset), Cons(nodes[h.node], h.con.role)[h.con.index].pos)
  }

  function HitIn(nodes: seq<Node>, offset: Vec2, k: nat, role: Role, i: nat): Hit
    requires k < |nodes| && i < |Cons(nodes[k], role)|
  {
    Hit(k, RefOf(nodes[k], role, i), Add(Add(nodes[k].pos, offset), Cons(nodes[k], role)[i].pos))
  }

  function FirstHoveredIn(cs: seq<Connector>, at: Vec2, mouse: Vec2): Option<nat> {
    FirstIndex(cs, (c: Connector) => IsConnectorHovered(c, at, mouse))
  }

  /** The first hovered connector of nodes `k..`, in scan order. */
  function ScanFrom(nodes: seq<Node>, offset: Vec2, mouse: Vec2, k: nat): (r: Option<Hit>)
    requires k <= |nodes|
    ensures r.Some? ==> k <= r.value.node && IsHit(nodes, offset, mouse, r.value)
    ensures r.Some? ==> forall k', role, i :: k <= k' && Precedes(k', role, i, r.value.node, r.value.con.role, r.value.con.index)
                           ==> !HoveredAt(nodes, offset, mouse, k', role, i)
    ensures r.None? ==> forall k', role, i :: k <= k' ==> !HoveredAt(nodes, offset, mouse, k', role, i)
    decreases |nodes| - k
  {
    if k == |nodes| then None
    else
      var at := Add(nodes[k].pos, offset);
      match FirstHoveredIn(nodes[k].inputs, at, mouse)
      case Some(i) => Some(HitIn(nodes, offset, k, In, i))
      case None =>
        match FirstHoveredIn(nodes[k].outputs, at, mouse)
        case Some(i) => Some(HitIn(nodes, offset, k, Out, i))
        case None => ScanFrom(nodes, offset, mouse, k + 1)
  }

  /** The connector under the pointer: the first hit scanning nodes in list order, inputs before
      outputs; `None` exactly when no connector of any node is hovered. */
  function GetHoverCon(nodes: seq<Node>, offset: Vec2, mouse: Vec2): (r: Option<Hit>)
    ensures r.Some? ==> IsHit(nodes, offset, mouse, r.value)
    ensures r.Some? ==> forall k, role, i :: Precedes(k, role, i, r.value.node, r.value.con.role, r.value.con.index)
                           ==> !HoveredAt(nodes, offset, mouse, k, role, i)
    ensures r.None? <==> forall k, role, i :: !HoveredAt(nodes, offset, mouse, k, role, i)
  {
    ScanFrom(nodes, offset, mouse, 0)
  }
}
