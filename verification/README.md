# Razor material editor: node-graph editing core in Dafny

This project models the node-graph editing core of Razor's material editor, and the
asset-type classifier of its assets manager. The material editor keeps a list of nodes
instantiated from a two-entry catalog (`Multiply` and `Add`). Each node has input and output
connectors. The user wires a connector to another by a hover, click, drag and release gesture.
Each frame the editor does four things in order:

1. it moves a dragged node body;
2. it advances the connector drag state machine;
3. it draws one Hermite curve per linked input;
4. it creates a node if one was picked from the context menu.

The model is functional. Nodes live in a `seq`. Connectors are values inside their node. A
pointer to a connector becomes a handle `ConRef(node id, role, index)`, and a null pointer
becomes `None`. Each frame is a pure step over an `Editor` value. Coordinates are reals. Text
measurement (`ImGui::CalcTextSize`) is a parameter `measure: string -> Extent` whose width and
height are never negative. The pointer state (position, clicked, down, dragging, movement
delta), the scroll offset, the active node body and the context-menu pick are per-frame inputs.

Modules, leaves first:

- `Wrappers`, `Geometry`, `Search`: the optional value, 2D vectors, and the first-match scan
  that every lookup below reuses.
- `Catalog`: connector descriptors, the 32-slot descriptor arrays, the node catalog, the
  null-terminated descriptor prefix, and lookup by exact name.
- `Graph`: connectors, nodes, handles, owner lookup (`findNodeByCon`), and the link write.
- `Layout`: connector setup, box layout, and node creation from a type or a name.
- `HitTest`: the radius test and the ordered first-hit scan (`getHoverCon`).
- `Curve`: the Hermite polyline (`drawHermite`, with its path points as the result).
- `Dragging`: the `updateDraging` state machine.
- `Render`: which links `renderLines` draws, and their curves.
- `Editor`: the node-move guard of `displayNode`, the frame, and the session invariant.
- `Assets`: `AssetsManager::getExt` over an extension table passed as a parameter.

## Behaviour the model reproduces

These are read from the code.

- A hover that ends over empty space does not return to Default. The scan clears the held
  connector on a miss, so the comparison `con != s_dragNode.con` compares null with null. The
  state stays Hover with nothing held (`Dragging.HoverTransitions`). From there, the next hit on
  any connector goes to Default, and the hit after that goes to Hover.
- Output anchors sit at x = node width, on the right edge, not inset by the label width.
- The node height counts the title and the input column only. The model keeps this, and
  `Layout.OutputsOverhangBox` states its consequence.
- `BeginDrag` and `Connect` are kept. No transition enters them, and in them a step does nothing.
- With an even step count, the middle curve sample lies exactly on the chord's midpoint, because
  the two equal tangents cancel at t = 1/2 (`Curve.MiddleSampleOnChord`).
- A commit writes the held connector into the target's `input` whatever the two roles and
  value kinds are. This includes output connectors, whose links are then never drawn.

## Model

| member | source | states |
|---|---|---|
| Catalog.AddTemplate | Razor/src/Editor/Components/MaterialEditor/MaterialEditor.cpp:73-103 | looking up "Add" finds catalog entry 1, whose named inputs are exactly Input1 and Input2 and whose named output is exactly Out, all Float |
| Catalog.NamedPrefix | Razor/src/Editor/Components/MaterialEditor/MaterialEditor.cpp:120-134 | a node's descriptors are the prefix of the 32-slot array before the first null name: all named, at most 32, and the slot right after them (if any) has a null name |
| Catalog.FindNodeType | Razor/src/Editor/Components/MaterialEditor/MaterialEditor.cpp:202-211 | the index of the first catalog entry whose name equals the argument exactly; none exactly when no entry's name is equal |
| Layout.SetupConnections | Razor/src/Editor/Components/MaterialEditor/MaterialEditor.cpp:120-134 | one connector per descriptor before the first null name, in descriptor order, each with a null upstream link and anchor (0,0) |
| Layout.MaxWidth | Razor/src/Editor/Components/MaterialEditor/MaterialEditor.cpp:151-157 | the widest-label accumulator starting at 0 is at least every width and at least 0, and equals 0 or one of the widths |
| Layout.LayoutInputs | Razor/src/Editor/Components/MaterialEditor/MaterialEditor.cpp:154-163 | input anchor i is (0, T + sum over j<i of (h_j+4) + h_i/2); the returned width is the widest input label and the height is the sum over inputs of (h+4) |
| Layout.OutputColumnWidth | Razor/src/Editor/Components/MaterialEditor/MaterialEditor.cpp:165-177 | starting from the input width plus 40, the width becomes that start plus the widest output label (unchanged when there are no outputs) |
| Layout.LayoutOutputs | Razor/src/Editor/Components/MaterialEditor/MaterialEditor.cpp:183-195 | output anchor k is (node width, T + sum over j<k of (h'_j+4) + h'_k/2), using an accumulator that starts again at 0 |
| Layout.CreateNodeFromType | Razor/src/Editor/Components/MaterialEditor/MaterialEditor.cpp:136-200 | the node built by the loops is the closed-form node: id is the current counter, the counter advances by one, width is maxIn+40+maxOut, height is T plus the input rows, and the anchors are as above |
| Layout.CreateNodeFromName | Razor/src/Editor/Components/MaterialEditor/MaterialEditor.cpp:202-211 | no node, and no id consumed, exactly when no catalog name is equal to the argument; otherwise the node of the template `Catalog.FindNodeType` finds (the first match), carrying that name, at the given position, with id sId, and the counter becomes sId+1 |
| Layout.CreatedConnectors | Razor/src/Editor/Components/MaterialEditor/MaterialEditor.cpp:136-147 | a created node keeps the template's name, the position and the id, and its connectors carry the named descriptors in order (at most 32 per role) with no upstream link |
| Layout.InputRowsInsideBox | Razor/src/Editor/Components/MaterialEditor/MaterialEditor.cpp:154-181 | every input anchor lies on the left edge, below the title bar, and its row including padding ends within the box height |
| Layout.AnchorsDescend | Razor/src/Editor/Components/MaterialEditor/MaterialEditor.cpp:159-194 | within the input column and within the output column, anchors strictly descend in descriptor order |
| Layout.OutputsOverhangBox | Razor/src/Editor/Components/MaterialEditor/MaterialEditor.cpp:179-195 | because the height counts only the input column, with more outputs than inputs (and output labels at least as tall as the input labels beside them) every extra output is anchored on or below the box's bottom edge |
| Layout.WidthCoversLabels | Razor/src/Editor/Components/MaterialEditor/MaterialEditor.cpp:151-180 | the width is at least each input label plus 40 and at least maxIn+40 plus each output label, and equals maxIn+40 or maxIn+40 plus some output label |
| Layout.RowsHeightGrows | Razor/src/Editor/Components/MaterialEditor/MaterialEditor.cpp:159-162 | with non-negative label heights, each row's anchor lies strictly above where a later row begins |
| Graph.FindNodeByCon | Razor/src/Editor/Components/MaterialEditor/MaterialEditor.cpp:500-518 | the first node in list order that owns the connector; none exactly when no node owns it |
| Graph.HandleIdentity | Razor/src/Editor/Components/MaterialEditor/MaterialEditor.cpp:500-518 | with distinct node ids, two connector positions have equal handles exactly when they are the same position, and a handle's owner is found at its own node |
| Graph.FindNodeByConAppend | Razor/src/Editor/Components/MaterialEditor/MaterialEditor.cpp:652-658 | appending a created node never changes the owner found for a connector already in the graph |
| Graph.SetInput | Razor/src/Editor/Components/MaterialEditor/MaterialEditor.cpp:367 | the commit writes only the target connector's upstream link; every other connector, and every node's position, size and name, are unchanged |
| HitTest.HitIsStrictRadius | Razor/src/Editor/Components/MaterialEditor/MaterialEditor.cpp:254-263 | the pointer on the anchor is a hit; a pointer exactly 5 units away along an axis is not; any hit lies strictly within 5 units of the anchor on both axes |
| HitTest.HitExamples | Razor/src/Editor/Components/MaterialEditor/MaterialEditor.cpp:254-263 | with the anchor at (110,150), the pointer (112,151) is a hit and (116,150) is not |
| HitTest.ScanFrom | Razor/src/Editor/Components/MaterialEditor/MaterialEditor.cpp:268-289 | the first hovered connector of the remaining nodes in scan order (nodes in list order, inputs before outputs); none exactly when none of them is hovered |
| HitTest.GetHoverCon | Razor/src/Editor/Components/MaterialEditor/MaterialEditor.cpp:266-293 | the reported connector is hovered, belongs to the reported node, is at position node+offset+anchor, and no connector earlier in scan order is hovered; none exactly when no connector is hovered |
| Curve.Hermite | Razor/src/Editor/Components/MaterialEditor/MaterialEditor.cpp:236-249 | steps+1 samples; the first is exactly p1 and the last exactly p2 |
| Curve.WeightsPartitionUnity | Razor/src/Editor/Components/MaterialEditor/MaterialEditor.cpp:244-245 | the two point weights sum to 1 at every t |
| Curve.FlatLinkStaysFlat | Razor/src/Editor/Components/MaterialEditor/MaterialEditor.cpp:238-248 | both tangents are horizontal, so a link between two points of equal height is drawn flat at that height |
| Curve.MiddleSampleOnChord | Razor/src/Editor/Components/MaterialEditor/MaterialEditor.cpp:241-248 | for an even step count, the middle sample is the midpoint of p1 and p2 |
| Curve.FourStepExample | Razor/src/Editor/Components/MaterialEditor/MaterialEditor.cpp:236-249 | from (0,0) to (100,0) in 4 steps: 5 samples, exact ends, middle (50,0), and the quarter sample at (23.125,0), behind (short of) the straight line's 25, because the 80-unit tangents are shorter than the 100-unit chord |
| Dragging.UpdateDraging | Razor/src/Editor/Components/MaterialEditor/MaterialEditor.cpp:297-380 | a step keeps the session invariant (Draging holds a connector, Default holds none, no inert state entered); the graph changes only on a release from Draging; the preview is drawn exactly in Draging |
| Dragging.DefaultTransitions | Razor/src/Editor/Components/MaterialEditor/MaterialEditor.cpp:301-315 | from Default, a hit goes to Hover, recording the connector and its absolute position; a miss stays in Default holding nothing |
| Dragging.HoverTransitions | Razor/src/Editor/Components/MaterialEditor/MaterialEditor.cpp:317-335 | from Hover, a hit on a different connector goes to Default holding nothing; a hit on the held one stays, going to Draging on a click; a miss stays in Hover with the held connector cleared |
| Dragging.DragStartsOnlyWithConnector | Razor/src/Editor/Components/MaterialEditor/MaterialEditor.cpp:331-332 | Draging is entered only from Hover, on a click, while a connector is held and is still the one hit |
| Dragging.InertStates | Razor/src/Editor/Components/MaterialEditor/MaterialEditor.cpp:337-340 | in BeginDrag (and likewise Connect) a step changes nothing and draws nothing |
| Dragging.DragHeld | Razor/src/Editor/Components/MaterialEditor/MaterialEditor.cpp:342-350 | while the button stays down, graph and session are unchanged and the preview runs from the pick-up position to the pointer |
| Dragging.ReleaseCancels | Razor/src/Editor/Components/MaterialEditor/MaterialEditor.cpp:350-362 | a release over the held connector or over nothing returns to Default holding nothing, with the graph unchanged |
| Dragging.ReleaseCommits | Razor/src/Editor/Components/MaterialEditor/MaterialEditor.cpp:364-370 | a release over a different connector D sets only D's upstream link to the held connector; every other connector, the held one included, is unchanged; no role or kind check; back to Default |
| Dragging.CommitNeedsHit | Razor/src/Editor/Components/MaterialEditor/MaterialEditor.cpp:352-367 | the graph changes only when the release scan found a connector different from the held one, so the write never goes through a null connector |
| Render.InputLines | Razor/src/Editor/Components/MaterialEditor/MaterialEditor.cpp:525-539 | the links drawn for one node are exactly those of its inputs that have an upstream link whose owner is found, each ending on an input of that node, in strictly increasing input order (so one link per such input) |
| Render.RenderFrom | Razor/src/Editor/Components/MaterialEditor/MaterialEditor.cpp:523-540 | the links drawn for the remaining nodes are exactly the drawable inputs of those nodes; with increasing node ids they come in strict scan order, node by node and input by input |
| Render.RenderLines | Razor/src/Editor/Components/MaterialEditor/MaterialEditor.cpp:521-541 | every drawn link belongs to an input with a resolvable upstream link, every such input is drawn, and with increasing node ids the links come in strict scan order (nodes in list order, then inputs in list order) |
| Render.NoInputDrawnTwice | Razor/src/Editor/Components/MaterialEditor/MaterialEditor.cpp:523-539 | with increasing node ids, no two drawn links end on the same input connector |
| Render.ScanBeforeIsPrecedes | Razor/src/Editor/Components/MaterialEditor/MaterialEditor.cpp:523-539 | with increasing node ids, the order of drawn links on input handles is the hit scan's node-then-index order on their positions |
| Render.OutputLinksNeverDrawn | Razor/src/Editor/Components/MaterialEditor/MaterialEditor.cpp:525-539 | every drawn link ends on an input connector, so a link stored on an output connector is never drawn |
| Render.LinkJoinsAnchors | Razor/src/Editor/Components/MaterialEditor/MaterialEditor.cpp:535-538 | each link curve has 13 samples; it starts at the upstream connector's absolute anchor and ends at the input's absolute anchor |
| Render.EveryLinkedInputDrawn | Razor/src/Editor/Components/MaterialEditor/MaterialEditor.cpp:525-539 | when every link resolves, every input with an upstream link is drawn |
| Editor.MoveNodes | Razor/src/Editor/Components/MaterialEditor/MaterialEditor.cpp:426-493 | only the active node's position changes, by the pointer delta, and only while no connector is held and the pointer is dragging; ids and connectors are unchanged |
| Editor.Frame | Razor/src/Editor/Components/MaterialEditor/MaterialEditor.cpp:586-659 | the existing nodes and the session are those the node move and then the drag step produce; the links drawn are those of that graph, before any node is added; one node is appended exactly when a catalog entry is picked, and it is that entry's node at the pointer with the current counter as id, the counter then advancing by one; the preview is drawn exactly in Draging |
| Editor.FrameAppendsPicked | Razor/src/Editor/Components/MaterialEditor/MaterialEditor.cpp:652-658 | a frame keeps every existing node's id and connector counts in order, and the appended node carries the picked entry's name, sits at the pointer, has the next id and has no links |
| Editor.MoveAndStepKeepWellFormed | Razor/src/Editor/Components/MaterialEditor/MaterialEditor.cpp:426-493 | the node move followed by the drag step keeps the session invariant |
| Editor.InitialWellFormed | Razor/src/Editor/Components/MaterialEditor/MaterialEditor.cpp:117-233 | the empty editor with counter 0 in Default satisfies the session invariant |
| Editor.StepKeepsLinks | Razor/src/Editor/Components/MaterialEditor/MaterialEditor.cpp:297-380 | the drag step keeps the graph's shape, and keeps every link and the held connector resolvable |
| Editor.AppendKeepsWellFormed | Razor/src/Editor/Components/MaterialEditor/MaterialEditor.cpp:652-658 | appending a node that takes the next id and has no links keeps the invariant |
| Editor.FramePreservesWellFormed | Razor/src/Editor/Components/MaterialEditor/MaterialEditor.cpp:586-659 | every frame keeps ids strictly increasing in creation order and below the counter (so never reused), keeps all links resolvable, and keeps Draging holding a connector |
| Editor.NoNodeMoveWhileDragging | Razor/src/Editor/Components/MaterialEditor/MaterialEditor.cpp:428-429 | during a connector drag no node body moves, whatever the pointer does |
| Editor.DraggingHoldsConnector | Razor/src/Editor/Components/MaterialEditor/MaterialEditor.cpp:331-332 | in a well-formed session, Draging holds a connector and its owner is found |
| Assets.GetExt | Razor/src/Editor/Components/AssetsManager.h:30-43 | a non-None result's list contains the string and no earlier type's list does; the result is None exactly when the None list contains it or no other list does; the table is an immutable parameter, so the lookup cannot change it |
| Assets.FirstListedWins | Razor/src/Editor/Components/AssetsManager.h:27-39 | when two types list the same string, the later type in key order is never returned |
| Assets.ExactMatchOnly | Razor/src/Editor/Components/AssetsManager.h:36 | matching is exact element equality: ".png" matches, ".PNG" and "photo.png" do not |

## Left out

- ImGui presentation in `displayNode` and `MaterialEditor::render` is left out: colours, draw
  channels, title and label text, invisible buttons, hover highlight, `node_selected`, opening
  the context menu, and middle-mouse scrolling. These are immediate-mode UI calls. The active
  node, the pointer state, the menu pick and the scroll offset are frame inputs instead.
- The Load graph and Save graph menu items are left out: their bodies are commented out.
- Raw pointers and `new` are left out. Handles replace pointer identity, and they equal it
  when node ids are distinct (`Graph.HandleIdentity`). The never-populated `Connection::output`
  list and the unused value union are left out too, as is the nodes' never-freed memory.
- Float rounding is left out: coordinates are reals, so the exact endpoint and midpoint
  equalities hold in real arithmetic only.
- Layout.CreateNodeFromType: the uint32 `s_id` is an unbounded natural here. Its wrap after
  2^32 creations, and the negative `int` ids past 2^31, are not modelled.
- Layout.CreateNodeFromName: `strcmp` stops at a NUL character. A Dafny string may contain
  one, and the model compares whole sequences. For NUL-free names the two agree.
- Render.RenderLines: the scan order of the drawn links (and `Render.RenderFrom`'s) is stated
  through node ids, so it is promised only when ids increase along the node list. Every
  reachable session has that property (`Editor.FramePreservesWellFormed`).
- Curve.Hermite: requires at least one step. A step count of 0 would divide by zero, which in
  float gives one NaN point. Every call site passes 12.
- `drawHermite`'s stroke colour and thickness are left out, since they are presentation.
- `AssetsManager`'s `exts` table is a parameter, because its contents are defined in a file
  outside this model. File watching, import and rendering in `AssetsManager` are I/O.
- WindowsWindow.cpp, Camera.cpp, FPSCamera.h, GameLoop.h, Task.h and Core.h are not part of this
  model. They cover window and GL setup, camera initialisation, declarations only, a one-line
  task priority comparator, and macros.
