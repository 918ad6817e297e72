/** The per-frame connector drag protocol: Default, Hover and Draging, plus the two states
    BeginDrag and Connect that no transition enters and that do nothing. */
module Dragging {
  import opened Wrappers
  import opened Geometry
  import opened Graph
  import opened HitTest
  import opened Curve

  datatype DragState = Default | Hover | BeginDrag | Draging | Connect

  /** The held connector (`None` is a null pointer) and its absolute position when picked up. */
  datatype DragNode = DragNode(pos: Vec2, con: Option<ConRef>)

  datatype Session = Session(state: DragState, drag: DragNode)

  /** Static initial state: Default, nothing held. */
  const InitialSession := Session(Default, DragNode(Origin, None))

  /** This frame's pointer: position, primary-button clicked edge, primary-button down. */
  datatype Pointer = Pointer(pos: Vec2, clicked: bool, down: bool)

  /** One step's outcome: the graph, the session, and the live preview curve if one was drawn. */
  datatype DragStep = DragStep(nodes: seq<Node>, session: Session, preview: Option<seq<Vec2>>)

  /** The connector pointer a scan returns. */
  function HitCon(h: Option<Hit>): Option<ConRef> {
    match h
    case None => None
    case Some(x) => Some(x.con)
  }

  /** The held connector after a scan: a scan that finds nothing clears it. */
  function AfterScan(held: Option<ConRef>, h: Option<Hit>): Option<ConRef> {
    if h.None? then None else held
  }

  /** The session invariant: only the three live states occur, Draging always holds a
      connector, and Default never does. Hover may hold nothing (see HoverTransitions). */
  ghost predicate Consistent(s: Session) {
    && s.state in {Default, Hover, Draging}
    && (s.state == Draging ==> s.drag.con.Some?)
    && (s.state == Default ==> s.drag.con.None?)
  }

  /** One frame of the drag protocol. The graph changes only when a drag is released. */
  function UpdateDraging(nodes: seq<Node>, s: Session, offset: Vec2, p: Pointer): (r: DragStep)
    ensures Consistent(s) ==> Consistent(r.session)
    ensures SameShape(nodes, r.nodes)
    ensures r.nodes != nodes ==> s.state == Draging && !p.down
    ensures r.preview.Some? <==> s.state == Draging
  {
    match s.state
    case Default =>
      var hit := GetHoverCon(nodes, offset, p.pos);
      if hit.Some? then
        DragStep(nodes, Session(Hover, DragNode(hit.value.pos, Some(hit.value.con))), None)
      else
        DragStep(nodes, s.(drag := s.drag.(con := None)), None)
    case Hover =>
      var hit := GetHoverCon(nodes, offset, p.pos);
      var held := AfterScan(s.drag.con, hit);
      if HitCon(hit) != held then
        DragStep(nodes, Session(Default, s.drag.(con := None)), None)
      else if p.clicked && held.Some? then
        DragStep(nodes, Session(Draging, s.drag.(con := held)), None)
      else
        DragStep(nodes, Session(Hover, s.drag.(con := held)), None)
    case BeginDrag =>
      DragStep(nodes, s, None)
    case Draging =>
      var preview := Some(Hermite(s.drag.pos, p.pos, LinkSteps));
      if p.down then
        DragStep(nodes, s, preview)
      else
        var hit := GetHoverCon(nodes, offset, p.pos);
        var held := AfterScan(s.drag.con, hit);
        if HitCon(hit) == held then
          DragStep(nodes, Session(Default, s.drag.(con := None)), preview)
        else
          // The scan found a connector here: a miss would have cleared `held` and matched.
          var target := hit.value;
          DragStep(SetInput(nodes, target.node, target.con.role, target.con.index, held),
                   Session(Default, s.drag.(con := None)), preview)
    case Connect =>
      DragStep(nodes, s, None)
  }

  /** From Default: any hit moves to Hover, recording the connector and its absolute position;
      a miss stays in Default holding nothing. The graph is untouched. */
  lemma DefaultTransitions(nodes: seq<Node>, s: Session, offset: Vec2, p: Pointer)
    requires s.state == Default
    ensures var r := UpdateDraging(nodes, s, offset, p);
            var hit := GetHoverCon(nodes, offset, p.pos);
            && r.nodes == nodes
            && (hit.Some? ==> r.session == Session(Hover, DragNode(hit.value.pos, Some(hit.value.con))))
            && (hit.None? ==> r.session.state == Default && r.session.drag.con.None?)
  {
  }

  /** From Hover: a hit on a different connector returns to Default holding nothing; a hit on
      the held connector stays, moving to Draging on a click; and a miss stays in Hover with the
      held connector cleared, because the scan clears it before the comparison. */
  lemma HoverTransitions(nodes: seq<Node>, s: Session, offset: Vec2, p: Pointer)
    requires s.state == Hover
    ensures var r := UpdateDraging(nodes, s, offset, p);
            var hit := GetHoverCon(nodes, offset, p.pos);
            && r.nodes == nodes
            && r.session.drag.pos == s.drag.pos
            && (hit.Some? && Some(hit.value.con) != s.drag.con ==>
                  r.session.state == Default && r.session.drag.con.None?)
            && (hit.Some? && Some(hit.value.con) == s.drag.con ==>
                  r.session.state == (if p.clicked then Draging else Hover) && r.session.drag.con == s.drag.con)
            && (hit.None? ==> r.session.state == Hover && r.session.drag.con.None?)
  {
  }

  /** A drag starts only from Hover, on a click, while a connector is held and still hovered. */
  lemma DragStartsOnlyWithConnector(nodes: seq<Node>, s: Session, offset: Vec2, p: Pointer)
    requires s.state != Draging
    requires UpdateDraging(nodes, s, offset, p).session.state == Draging
    ensures s.state == Hover && p.clicked && s.drag.con.Some?
    ensures UpdateDraging(nodes, s, offset, p).session.drag.con == s.drag.con
    ensures HitCon(GetHoverCon(nodes, offset, p.pos)) == s.drag.con
  {
  }

  /** BeginDrag and Connect do nothing. */
  lemma InertStates(nodes: seq<Node>, s: Session, offset: Vec2, p: Pointer)
    requires s.state == BeginDrag || s.state == Connect
    ensures UpdateDraging(nodes, s, offset, p) == DragStep(nodes, s, None)
  {
  }

  /** While the button stays down a drag only draws its preview curve, from the pick-up
      position to the pointer; graph and session are unchanged. */
  lemma DragHeld(nodes: seq<Node>, s: Session, offset: Vec2, p: Pointer)
    requires s.state == Draging && p.down
    ensures UpdateDraging(nodes, s, offset, p) == DragStep(nodes, s, Some(Hermite(s.drag.pos, p.pos, LinkSteps)))
  {
  }

  /** Releasing over the held connector or over nothing cancels: back to Default, nothing
      held, graph unchanged. */
  lemma ReleaseCancels(nodes: seq<Node>, s: Session, offset: Vec2, p: Pointer)
    requires Consistent(s) && s.state == Draging && !p.down
    requires HitCon(GetHoverCon(nodes, offset, p.pos)) in {None, s.drag.con}
    ensures var r := UpdateDraging(nodes, s, offset, p);
            r.nodes == nodes && r.session.state == Default && r.session.drag.con.None?
  {
  }

  /** Releasing over a different connector D commits one link: D's upstream link becomes the
      held connector, no other connector changes (the held one included), no role or type is
      checked, and the session returns to Default holding nothing. */
  lemma ReleaseCommits(nodes: seq<Node>, s: Session, offset: Vec2, p: Pointer)
    requires Consistent(s) && s.state == Draging && !p.down
    requires GetHoverCon(nodes, offset, p.pos).Some?
    requires Some(GetHoverCon(nodes, offset, p.pos).value.con) != s.drag.con
    ensures var r := UpdateDraging(nodes, s, offset, p);
            var d := GetHoverCon(nodes, offset, p.pos).value;
            && SameShape(nodes, r.nodes)
            && Cons(r.nodes[d.node], d.con.role)[d.con.index]
               == Cons(nodes[d.node], d.con.role)[d.con.index].(input := s.drag.con)
            && (forall k, role, i :: 0 <= k < |nodes| && 0 <= i < |Cons(nodes[k], role)|
                  && RefOf(nodes[k], role, i) != d.con
                  ==> Cons(r.nodes[k], role)[i] == Cons(nodes[k], role)[i])
            && r.session.state == Default && r.session.drag.con.None?
  {
  }

  /** A committed link always lands on a connector the pointer is over: the graph changes only
      when this frame's scan found a connector different from the held one. */
  lemma CommitNeedsHit(nodes: seq<Node>, s: Session, offset: Vec2, p: Pointer)
    requires UpdateDraging(nodes, s, offset, p).nodes != nodes
    ensures GetHoverCon(nodes, offset, p.pos).Some?
    ensures Some(GetHoverCon(nodes, offset, p.pos).value.con) != s.drag.con
  {
  }
}
