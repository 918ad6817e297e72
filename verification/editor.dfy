/** The editor session and its frame: node-body moves, the drag step, link rendering and
    node creation from the context menu, in that order. */
module Editor {
  import opened Wrappers
  import opened Geometry
  import opened Catalog
  import opened Graph
  import opened Layout
  import opened HitTest
  import opened Dragging
  import opened Render

  /** The session: nodes in creation order, the next id to hand out, the drag session. */
  datatype Editor = Editor(nodes: seq<Node>, nextId: nat, session: Session)

  const InitialEditor := Editor([], 0, InitialSession)

  /** One frame of host input: the pointer, the scroll offset, whether the pointer is dragging
      with the primary button and by how much it moved, the id of the node whose body is the
      active item (if any), and the catalog entry picked from the context menu (if any). */
  datatype FrameInput = FrameInput(pointer: Pointer, offset: Vec2, mouseDragging: bool, delta: Vec2,
                                   activeNode: Option<int>, menuPick: Option<nat>)

  /** What a frame produces: the next session, the links drawn and the live preview curve. */
  datatype FrameOutput = FrameOutput(editor: Editor, lines: seq<Line>, preview: Option<seq<Vec2>>)

  /** The session invariant: ids strictly increase in list order and stay below the counter,
      every link and the held connector resolve, and the drag session is consistent. */
  ghost predicate WellFormed(e: Editor) {
    && IncreasingIds(e.nodes)
    && (forall k :: 0 <= k < |e.nodes| ==> 0 <= e.nodes[k].id < e.nextId)
    && LinksResolve(e.nodes)
    && Consistent(e.session)
    && (e.session.drag.con.Some? ==> Resolves(e.nodes, e.session.drag.con.value))
  }

  /** Node-body dragging: the active node follows the pointer's movement, but only while no
      connector is held. */
  function MoveNodes(nodes: seq<Node>, held: Option<ConRef>, active: Option<int>,
                     mouseDragging: bool, delta: Vec2): (r: seq<Node>)
    ensures SameShape(nodes, r)
    ensures forall k :: 0 <= k < |nodes| ==> r[k] == nodes[k].(pos := r[k].pos)
    ensures held.Some? || !mouseDragging ==> r == nodes
    ensures forall k :: 0 <= k < |nodes| && r[k].pos != nodes[k].pos ==> active == Some(nodes[k].id)
    ensures held.None? && mouseDragging ==>
              forall k :: 0 <= k < |nodes| && active == Some(nodes[k].id) ==> r[k].pos == Add(nodes[k].pos, delta)
  {
    seq(|nodes|, k requires 0 <= k < |nodes| =>
      var moving := active == Some(nodes[k].id) && held.None?;
      if moving && mouseDragging then nodes[k].(pos := Add(nodes[k].pos, delta)) else nodes[k])
  }

  /** One frame of the editor: the existing nodes come out of the node move and the drag step,
      the links drawn are those of that graph, and a picked catalog entry appends one fresh,
      unlinked node at the pointer with the next id. */
  function Frame(e: Editor, input: FrameInput, measure: string -> Extent): (r: FrameOutput)
    requires input.menuPick.Some? ==> input.menuPick.value < |NodeTypes|
    ensures |r.editor.nodes| == |e.nodes| + (if input.menuPick.Some? then 1 else 0)
    ensures r.editor.nextId == e.nextId + (if input.menuPick.Some? then 1 else 0)
    ensures r.preview.Some? <==> e.session.state == Draging
    ensures var step := UpdateDraging(MoveNodes(e.nodes, e.session.drag.con, input.activeNode,
                                                input.mouseDragging, input.delta),
                                      e.session, input.offset, input.pointer);
            && r.editor.nodes[..|e.nodes|] == step.nodes
            && r.editor.session == step.session
            && r.preview == step.preview
    ensures r.lines == RenderLines(r.editor.nodes[..|e.nodes|], input.offset)
    ensures input.menuPick.Some? ==>
              r.editor.nodes[|e.nodes|] == NodeFromType(input.pointer.pos, NodeTypes[input.menuPick.value], e.nextId, measure)
  {
    var moved := MoveNodes(e.nodes, e.session.drag.con, input.activeNode, input.mouseDragging, input.delta);
    var step := UpdateDraging(moved, e.session, input.offset, input.pointer);
    var lines := RenderLines(step.nodes, input.offset);
    match input.menuPick
    case None =>
      assert step.nodes[..|e.nodes|] == step.nodes;
      FrameOutput(Editor(step.nodes, e.nextId, step.session), lines, step.preview)
    case Some(i) =>
      var node := NodeFromType(input.pointer.pos, NodeTypes[i], e.nextId, measure);
      assert (step.nodes + [node])[..|e.nodes|] == step.nodes;
      FrameOutput(Editor(step.nodes + [node], e.nextId + 1, step.session), lines, step.preview)
  }

  /** A frame keeps the existing nodes' ids and connector counts, in order, and a picked
      catalog entry appends a node carrying that entry's name, at the pointer, with the next
      id and no links. */
  lemma FrameAppendsPicked(e: Editor, input: FrameInput, measure: string -> Extent)
    requires input.menuPick.Some? ==> input.menuPick.value < |NodeTypes|
    ensures SameShape(e.nodes, Frame(e, input, measure).editor.nodes[..|e.nodes|])
    ensures input.menuPick.Some? ==>
              var n := Frame(e, input, measure).editor.nodes[|e.nodes|];
              && n.name == NodeTypes[input.menuPick.value].name
              && n.pos == input.pointer.pos
              && n.id == e.nextId
              && (forall role, j :: 0 <= j < |Cons(n, role)| ==> Cons(n, role)[j].input.None?)
  {
    if input.menuPick.Some? {
      CreatedConnectors(input.pointer.pos, NodeTypes[input.menuPick.value], e.nextId, measure);
    }
  }

  lemma InitialWellFormed()
    ensures WellFormed(InitialEditor)
  {
  }

  /** A graph of the same shape with the same links resolves the same handles. */
  lemma LinksResolveShape(nodes: seq<Node>, nodes': seq<Node>)
    requires SameShape(nodes, nodes') && LinksResolve(nodes)
    requires forall k, role, i :: 0 <= k < |nodes| && 0 <= i < |Cons(nodes[k], role)|
               ==> Cons(nodes'[k], role)[i].input == Cons(nodes[k], role)[i].input
    ensures LinksResolve(nodes')
  {
    forall k, role, i | 0 <= k < |nodes'| && 0 <= i < |Cons(nodes'[k], role)| && Cons(nodes'[k], role)[i].input.Some?
      ensures Resolves(nodes', Cons(nodes'[k], role)[i].input.value)
    {
      assert |Cons(nodes'[k], role)| == |Cons(nodes[k], role)|;
      FindNodeByConShape(nodes, nodes', Cons(nodes[k], role)[i].input.value);
    }
  }

  /** The drag step keeps every link and the held connector resolvable. */
  lemma StepKeepsLinks(nodes: seq<Node>, s: Session, offset: Vec2, p: Pointer)
    requires LinksResolve(nodes)
    requires s.drag.con.Some? ==> Resolves(nodes, s.drag.con.value)
    ensures var r := UpdateDraging(nodes, s, offset, p);
            && SameShape(nodes, r.nodes)
            && LinksResolve(r.nodes)
            && (r.session.drag.con.Some? ==> Resolves(r.nodes, r.session.drag.con.value))
  {
    var r := UpdateDraging(nodes, s, offset, p);
    var hit := GetHoverCon(nodes, offset, p.pos);
    if hit.Some? {
      assert Owns(nodes[hit.value.node], hit.value.con);
    }
    if r.nodes == nodes {
    } else {
      var d := hit.value;
      forall k, role, i | 0 <= k < |r.nodes| && 0 <= i < |Cons(r.nodes[k], role)| && Cons(r.nodes[k], role)[i].input.Some?
        ensures Resolves(r.nodes, Cons(r.nodes[k], role)[i].input.value)
      {
        var c := Cons(r.nodes[k], role)[i].input.value;
        FindNodeByConShape(nodes, r.nodes, c);
        if (k, role, i) != (d.node, d.con.role, d.con.index) {
          assert Cons(r.nodes[k], role)[i] == Cons(nodes[k], role)[i];
        }
      }
    }
    if r.session.drag.con.Some? {
      FindNodeByConShape(nodes, r.nodes, r.session.drag.con.value);
    }
  }

  /** Appending a node that takes the next id and carries no links keeps the invariant. */
  lemma AppendKeepsWellFormed(e: Editor, n: Node)
    requires WellFormed(e) && n.id == e.nextId
    requires forall role, j :: 0 <= j < |Cons(n, role)| ==> Cons(n, role)[j].input.None?
    ensures WellFormed(Editor(e.nodes + [n], e.nextId + 1, e.session))
  {
    var nodes' := e.nodes + [n];
    forall k, role, j | 0 <= k < |nodes'| && 0 <= j < |Cons(nodes'[k], role)| && Cons(nodes'[k], role)[j].input.Some?
      ensures Resolves(nodes', Cons(nodes'[k], role)[j].input.value)
    {
      assert nodes'[k] == e.nodes[k];
      FindNodeByConAppend(e.nodes, n, Cons(nodes'[k], role)[j].input.value);
    }
    if e.session.drag.con.Some? {
      FindNodeByConAppend(e.nodes, n, e.session.drag.con.value);
    }
  }

  /** The node move followed by the drag step keeps the session invariant. */
  lemma MoveAndStepKeepWellFormed(e: Editor, input: FrameInput)
    requires WellFormed(e)
    ensures var step := UpdateDraging(MoveNodes(e.nodes, e.session.drag.con, input.activeNode,
                                                input.mouseDragging, input.delta),
                                      e.session, input.offset, input.pointer);
            WellFormed(Editor(step.nodes, e.nextId, step.session))
  {
    var moved := MoveNodes(e.nodes, e.session.drag.con, input.activeNode, input.mouseDragging, input.delta);
    LinksResolveShape(e.nodes, moved);
    if e.session.drag.con.Some? {
      FindNodeByConShape(e.nodes, moved, e.session.drag.con.value);
    }
    StepKeepsLinks(moved, e.session, input.offset, input.pointer);
  }

  /** Every frame preserves the session invariant; in particular ids keep increasing in
      creation order, and a Draging session always holds a connector. */
  lemma FramePreservesWellFormed(e: Editor, input: FrameInput, measure: string -> Extent)
    requires WellFormed(e)
    requires input.menuPick.Some? ==> input.menuPick.value < |NodeTypes|
    ensures WellFormed(Frame(e, input, measure).editor)
  {
    var step := UpdateDraging(MoveNodes(e.nodes, e.session.drag.con, input.activeNode,
                                        input.mouseDragging, input.delta),
                              e.session, input.offset, input.pointer);
    MoveAndStepKeepWellFormed(e, input);
    var mid := Editor(step.nodes, e.nextId, step.session);
    if input.menuPick.Some? {
      var t := NodeTypes[input.menuPick.value];
      var n := NodeFromType(input.pointer.pos, t, e.nextId, measure);
      CreatedConnectors(input.pointer.pos, t, e.nextId, measure);
      AppendKeepsWellFormed(mid, n);
      assert Frame(e, input, measure).editor == Editor(mid.nodes + [n], e.nextId + 1, mid.session);
    } else {
      assert Frame(e, input, measure).editor == mid;
    }
  }

  /** Node-body dragging and connector dragging exclude each other: during a connector drag no
      node moves, whatever the pointer does. */
  lemma NoNodeMoveWhileDragging(e: Editor, input: FrameInput)
    requires WellFormed(e) && e.session.state == Draging
    ensures MoveNodes(e.nodes, e.session.drag.con, input.activeNode, input.mouseDragging, input.delta) == e.nodes
  {
  }

  /** In a well-formed session, Draging holds a connector, and the graph has a node that owns
      it. */
  lemma DraggingHoldsConnector(e: Editor)
    requires WellFormed(e) && e.session.state == Draging
    ensures e.session.drag.con.Some? && FindNodeByCon(e.nodes, e.session.drag.con.value).Some?
  {
  }
}
