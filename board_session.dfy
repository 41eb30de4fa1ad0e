/** The board's gesture sessions and the pure computations its pointer
    handlers perform: which interaction a pointer-down starts, the snapshots
    a session keeps, and the store updates a move or a release issues. */
module BoardSession {
  import opened Util
  import opened Canvas
  import opened ControlUtils
  import opened ConnectorPath
  import opened ConnectorResolve
  import opened BoardControls
  import opened BoardHelpers
  import opened SelectionMerge
  import opened StoreActions
  import opened RealArith

  /** A pointer event in screen coordinates; `targetId` is the node under
      the pointer, if any. */
  datatype PointerEvent = PointerEvent(position: Point, button: int, targetId: Option<string>, shiftKey: bool)

  /** Moving nodes: the world point the drag started at and each dragged
      node's position then, in scene order. */
  datatype DragSession = DragSession(start: Point, basePositions: seq<PositionUpdate>)

  /** Panning: the screen point the pan started at and the viewport offset then. */
  datatype PanSession = PanSession(start: Point, baseViewport: Point)

  /** A node's transform when a control drag started. */
  datatype BaseNode = BaseNode(id: string, position: Point, size: Size, rotation: real)

  datatype ControlSession = ControlSession(handleId: HandleId, targetIds: seq<string>, startPointer: Point,
                                           startBounds: Rect, startRotation: real, baseNodes: seq<BaseNode>)

  /** Dragging one end of a connector; the connector's ends as they were. */
  datatype ConnectorSession = ConnectorSession(connectorId: string, endpointKey: EndpointKey,
                                               baseSource: Endpoint, baseTarget: Endpoint)

  /** Screen distance within which a connector end or an anchor is grabbed. */
  const GrabRadius: real := 8.0

  /** Screen size below which a rubber band counts as a click. */
  const ClickThreshold: real := 3.0

  // ---------------------------------------------------------------------
  // Pointer-down routing

  /** Whether a selected node is a connector. */
  predicate HasConnectorSelected(nodes: seq<Node>, ids: seq<string>) {
    exists i :: 0 <= i < |nodes| && nodes[i].id in ids && nodes[i].shape.Connector?
  }

  /** What a pointer-down starts, in the order the board checks. */
  datatype DownRoute =
    | PanStart
    | ControlStart(hit: ControlHit, bounds: Rect)
    | ConnectorGrab(node: Node, key: EndpointKey)
    | ConnectorSelect(node: Node)
    | ShiftToggle(id: string)
    | DragStart(id: string)
    | BoxStart

  /** The interaction a pointer-down starts: a pan when space is held or the
      middle button is pressed; else a control drag when a handle of a
      selection without connectors is hit; else, on a node, a connector end
      grab (or just selecting the connector), a shift toggle or a node drag;
      else a rubber band. */
  function RouteDown(trig: Trig, spacePressed: bool, s: CanvasState, e: PointerEvent): (r: DownRoute)
    requires s.viewport.scale != 0.0
    ensures spacePressed || e.button == 1 <==> r.PanStart?
    ensures r.ControlStart? ==> |s.selection.nodeIds| > 0 && !HasConnectorSelected(s.nodes, s.selection.nodeIds) &&
                                GetSelectedBounds(trig, s, s.selection.nodeIds) == Some(r.bounds) &&
                                GetControlHit(trig, ScreenToWorld(s.viewport, e.position), r.bounds, s.selection.nodeIds,
                                              s.nodes, s.viewport.scale) == Some(r.hit)
    ensures r.ConnectorGrab? || r.ConnectorSelect? || r.ShiftToggle? || r.DragStart? ==> Truthy(e.targetId)
    ensures r.ConnectorGrab? || r.ConnectorSelect? ==>
              FindNode(s.nodes, e.targetId.value) == Some(r.node) && r.node.shape.Connector?
    ensures r.ConnectorGrab? ==>
              var ends := ConnectorPoints(trig, r.node, s.nodes);
              HitTestEndpoint(ScreenToWorld(s.viewport, e.position), ends.0, ends.1, GrabRadius / s.viewport.scale) ==
              Some(r.key)
    ensures r.ShiftToggle? ==> e.shiftKey && r.id == e.targetId.value
    ensures r.DragStart? ==> !e.shiftKey && r.id == e.targetId.value
    ensures r.BoxStart? ==> !Truthy(e.targetId)
  {
    if spacePressed || e.button == 1 then PanStart
    else
      var world := ScreenToWorld(s.viewport, e.position);
      var selected := s.selection.nodeIds;
      var bounds := if |selected| > 0 then GetSelectedBounds(trig, s, selected) else None;
      var hit := if bounds.Some? && !HasConnectorSelected(s.nodes, selected)
                 then GetControlHit(trig, world, bounds.value, selected, s.nodes, s.viewport.scale)
                 else None;
      if hit.Some? then ControlStart(hit.value, bounds.value)
      else if Truthy(e.targetId) then
        var target := FindNode(s.nodes, e.targetId.value);
        if target.Some? && target.value.shape.Connector? then
          var ends := ConnectorPoints(trig, target.value, s.nodes);
          match HitTestEndpoint(world, ends.0, ends.1, GrabRadius / s.viewport.scale)
          case Some(key) => ConnectorGrab(target.value, key)
          case None => ConnectorSelect(target.value)
        else if e.shiftKey then ShiftToggle(e.targetId.value)
        else DragStart(e.targetId.value)
      else BoxStart
  }

  /** A control drag starts exactly when nothing earlier claims the event
      and the selection is non-empty, has bounds, holds no connector and
      has a handle under the pointer. */
  lemma ControlStartCondition(trig: Trig, spacePressed: bool, s: CanvasState, e: PointerEvent)
    requires s.viewport.scale != 0.0
    ensures RouteDown(trig, spacePressed, s, e).ControlStart? <==>
              !(spacePressed || e.button == 1) && |s.selection.nodeIds| > 0 &&
              GetSelectedBounds(trig, s, s.selection.nodeIds).Some? &&
              !HasConnectorSelected(s.nodes, s.selection.nodeIds) &&
              GetControlHit(trig, ScreenToWorld(s.viewport, e.position),
                            GetSelectedBounds(trig, s, s.selection.nodeIds).value,
                            s.selection.nodeIds, s.nodes, s.viewport.scale).Some?
  {
  }

  /** The rotate handle is only ever grabbed for a single selected node. */
  lemma RotateOnlyForSingle(trig: Trig, spacePressed: bool, s: CanvasState, e: PointerEvent)
    requires s.viewport.scale != 0.0
    requires RouteDown(trig, spacePressed, s, e).ControlStart?
    ensures RouteDown(trig, spacePressed, s, e).hit.hit.id == Rotate ==> |s.selection.nodeIds| == 1
  {
  }

  // ---------------------------------------------------------------------
  // Snapshots taken when a gesture starts

  function BaseOf(n: Node): BaseNode {
    BaseNode(n.id, n.position, n.size, RotationOf(n))
  }

  /** The transform of every node whose id is selected, in scene order. */
  function BaseNodesOf(nodes: seq<Node>, ids: seq<string>): (r: seq<BaseNode>)
    ensures forall b :: b in r <==> exists n :: n in nodes && n.id in ids && b == BaseOf(n)
  {
    if |nodes| == 0 then []
    else
      var rest := BaseNodesOf(nodes[1..], ids);
      assert forall n :: n in nodes <==> n == nodes[0] || n in nodes[1..];
      if nodes[0].id in ids then [BaseOf(nodes[0])] + rest else rest
  }

  /** The snapshot a record keyed by id holds: the last one written. */
  function BaseFor(base: seq<BaseNode>, id: string): (r: Option<BaseNode>)
    ensures r.None? <==> forall k :: 0 <= k < |base| ==> base[k].id != id
    ensures r.Some? ==> r.value in base && r.value.id == id
  {
    FindLast(base, (b: BaseNode) => b.id == id)
  }

  /** A snapshot exists exactly for the selected ids that name a node, and
      holds the transform of a node with that id. */
  lemma {:induction false} BaseForSelected(nodes: seq<Node>, ids: seq<string>, id: string)
    ensures BaseFor(BaseNodesOf(nodes, ids), id).Some? <==> id in ids && HasNode(nodes, id)
    ensures BaseFor(BaseNodesOf(nodes, ids), id).Some? ==>
              exists n :: n in nodes && n.id == id && BaseFor(BaseNodesOf(nodes, ids), id).value == BaseOf(n)
  {
    var base := BaseNodesOf(nodes, ids);
    if id in ids && HasNode(nodes, id) {
      var i :| 0 <= i < |nodes| && nodes[i].id == id;
      assert BaseOf(nodes[i]) in base;
    }
  }

  /** The rotation recorded for a control drag: the single selected node's. */
  function StartRotation(base: seq<BaseNode>, ids: seq<string>): (r: real)
    ensures |ids| == 1 && BaseFor(base, ids[0]).Some? ==> r == BaseFor(base, ids[0]).value.rotation
    ensures |ids| != 1 ==> r == 0.0
  {
    if |ids| == 1 then
      match BaseFor(base, ids[0])
      case Some(b) => b.rotation
      case None => 0.0
    else 0.0
  }

  /** The session a control hit starts. */
  function ControlSessionFor(s: CanvasState, hit: ControlHit, bounds: Rect, world: Point): (r: ControlSession)
    ensures r.handleId == hit.hit.id && r.targetIds == s.selection.nodeIds && r.startBounds == bounds
    ensures r.startPointer == world && r.baseNodes == BaseNodesOf(s.nodes, s.selection.nodeIds)
    ensures r.startRotation == StartRotation(r.baseNodes, r.targetIds)
  {
    var base := BaseNodesOf(s.nodes, s.selection.nodeIds);
    ControlSession(hit.hit.id, s.selection.nodeIds, world, bounds, StartRotation(base, s.selection.nodeIds), base)
  }

  /** The position of every node whose id is dragged, in scene order. */
  function DragBase(nodes: seq<Node>, ids: seq<string>): (r: seq<PositionUpdate>)
    ensures forall u :: u in r <==> exists n :: n in nodes && n.id in ids && u == PositionUpdate(n.id, n.position.x, n.position.y)
  {
    if |nodes| == 0 then []
    else
      var rest := DragBase(nodes[1..], ids);
      assert forall n :: n in nodes <==> n == nodes[0] || n in nodes[1..];
      var n := nodes[0];
      if n.id in ids then [PositionUpdate(n.id, n.position.x, n.position.y)] + rest else rest
  }

  /** A drag captures a position for exactly the dragged ids that name a
      node, and it is the position of a node with that id. */
  lemma {:induction false} DragBaseCaptures(nodes: seq<Node>, ids: seq<string>, id: string)
    ensures PositionEntry(DragBase(nodes, ids), id).Some? <==> id in ids && HasNode(nodes, id)
    ensures PositionEntry(DragBase(nodes, ids), id).Some? ==>
              exists n :: n in nodes && n.id == id &&
                          PositionEntry(DragBase(nodes, ids), id).value == PositionUpdate(id, n.position.x, n.position.y)
  {
    var base := DragBase(nodes, ids);
    if id in ids && HasNode(nodes, id) {
      var i :| 0 <= i < |nodes| && nodes[i].id == id;
      var u := PositionUpdate(id, nodes[i].position.x, nodes[i].position.y);
      assert u in base;
    }
    if PositionEntry(base, id).Some? {
      assert PositionEntry(base, id).value in base;
    }
  }

  // ---------------------------------------------------------------------
  // Node drag

  /** A captured position moved by the pointer's world delta. */
  function Shift(u: PositionUpdate, dx: real, dy: real): PositionUpdate {
    PositionUpdate(u.id, u.x + dx, u.y + dy)
  }

  /** Every captured position moved by the same delta. */
  function DragUpdates(base: seq<PositionUpdate>, dx: real, dy: real): (r: seq<PositionUpdate>)
    ensures |r| == |base|
    ensures forall k :: 0 <= k < |base| ==> r[k] == Shift(base[k], dx, dy)
  {
    if |base| == 0 then []
    else
      var init := base[..|base| - 1];
      assert forall k :: 0 <= k < |init| ==> init[k] == base[k];
      DragUpdates(init, dx, dy) + [Shift(base[|base| - 1], dx, dy)]
  }

  function ShiftedEntry(e: Option<PositionUpdate>, dx: real, dy: real): Option<PositionUpdate> {
    match e
    case None => None
    case Some(b) => Some(Shift(b, dx, dy))
  }

  /** The entry for an id after the shift is its captured entry shifted. */
  lemma {:induction false} DragEntry(base: seq<PositionUpdate>, dx: real, dy: real, id: string)
    ensures PositionEntry(DragUpdates(base, dx, dy), id) == ShiftedEntry(PositionEntry(base, id), dx, dy)
    decreases |base|
  {
    if |base| > 0 {
      var init, last := base[..|base| - 1], base[|base| - 1];
      assert base == init + [last];
      PositionEntrySnoc(init, last, id);
      PositionEntrySnoc(DragUpdates(init, dx, dy), Shift(last, dx, dy), id);
      DragEntry(init, dx, dy, id);
    }
  }

  /** The positions a drag writes when the pointer is at `world`: the
      captured ones moved by the pointer's offset from the drag's start. */
  function DragStep(d: DragSession, world: Point): seq<PositionUpdate> {
    DragUpdates(d.basePositions, world.x - d.start.x, world.y - d.start.y)
  }

  /** A drag step moves every captured node to its captured position plus
      the pointer's world delta and leaves every other node alone. */
  lemma DragTranslates(s: CanvasState, base: seq<PositionUpdate>, dx: real, dy: real, now: int, i: int)
    requires 0 <= i < |s.nodes|
    ensures var r := UpdateNodesPosition(s, DragUpdates(base, dx, dy), now);
            match PositionEntry(base, s.nodes[i].id)
            case None => r.nodes[i] == s.nodes[i]
            case Some(b) => r.nodes[i] == s.nodes[i].(position := Point(b.x + dx, b.y + dy))
  {
    var updates := DragUpdates(base, dx, dy);
    DragEntry(base, dx, dy, s.nodes[i].id);
    assert UpdateNodesPosition(s, updates, now).nodes[i] == Moved(s.nodes[i], updates);
  }

  // ---------------------------------------------------------------------
  // Control drag

  /** The one transform a rotation drag issues: the first target turned by
      the angle the pointer swept about the start bounds' centre; no update
      when there is no target or it has no snapshot. */
  function RotateUpdates(trig: Trig, c: ControlSession, world: Point): (r: Option<seq<TransformUpdate>>)
    ensures r.None? <==> |c.targetIds| == 0 || BaseFor(c.baseNodes, c.targetIds[0]).None?
    ensures r.Some? ==>
              r.value == [TransformUpdate(c.targetIds[0], None, None,
                                          Some(BaseFor(c.baseNodes, c.targetIds[0]).value.rotation +
                                               RotationDelta(trig, Center(c.startBounds), c.startPointer, world)))]
  {
    if |c.targetIds| == 0 then None
    else
      match BaseFor(c.baseNodes, c.targetIds[0])
      case None => None
      case Some(base) =>
        var delta := RotationDelta(trig, Center(c.startBounds), c.startPointer, world);
        Some([TransformUpdate(c.targetIds[0], None, None, Some(base.rotation + delta))])
  }

  /** A rotation drag changes the rotation of the first target only. */
  lemma RotateChangesOnlyFirstTarget(trig: Trig, c: ControlSession, world: Point, s: CanvasState, now: int, i: int)
    requires RotateUpdates(trig, c, world).Some? && 0 <= i < |s.nodes|
    ensures var r := UpdateNodesTransform(s, RotateUpdates(trig, c, world).value, now);
            (s.nodes[i].id != c.targetIds[0] ==> r.nodes[i] == s.nodes[i]) &&
            (s.nodes[i].id == c.targetIds[0] ==>
               r.nodes[i] == s.nodes[i].(rotation := Some(BaseFor(c.baseNodes, c.targetIds[0]).value.rotation +
                                                         RotationDelta(trig, Center(c.startBounds), c.startPointer, world))))
  {
    var updates := RotateUpdates(trig, c, world).value;
    assert updates[0].id == c.targetIds[0];
  }

  function BaseOrigin(b: Option<BaseNode>): BaseNode {
    b.GetOr(BaseNode("", Origin, Size(0.0, 0.0), 0.0))
  }

  /** The transform of one target when the start bounds become `next`: its
      offset from the bounds' origin and its size scaled by the bounds'
      growth, its rotation as it was. */
  function ScaledTransform(id: string, base: BaseNode, start: Rect, next: Rect): (r: TransformUpdate)
    requires start.width != 0.0 && start.height != 0.0
    ensures r.id == id && r.rotation == Some(base.rotation)
    ensures r.position.Some? && r.size.Some?
    ensures (r.position.value.x - next.x) * start.width == (base.position.x - start.x) * next.width
    ensures (r.position.value.y - next.y) * start.height == (base.position.y - start.y) * next.height
    ensures r.size.value.width * start.width == base.size.width * next.width
    ensures r.size.value.height * start.height == base.size.height * next.height
  {
    RatioCancels(base.position.x - start.x, next.width, start.width);
    RatioCancels(base.position.y - start.y, next.height, start.height);
    RatioCancels(base.size.width, next.width, start.width);
    RatioCancels(base.size.height, next.height, start.height);
    TransformUpdate(id,
                    Some(Point(next.x + (base.position.x - start.x) * (next.width / start.width),
                               next.y + (base.position.y - start.y) * (next.height / start.height))),
                    Some(Size(base.size.width * (next.width / start.width),
                              base.size.height * (next.height / start.height))),
                    Some(base.rotation))
  }

  /** A node that filled the start bounds fills the new bounds. */
  lemma ScaledFillsBounds(id: string, base: BaseNode, start: Rect, next: Rect)
    requires start.width != 0.0 && start.height != 0.0
    requires base.position == Point(start.x, start.y) && base.size == Size(start.width, start.height)
    ensures ScaledTransform(id, base, start, next).position == Some(Point(next.x, next.y))
    ensures ScaledTransform(id, base, start, next).size == Some(Size(next.width, next.height))
  {
    var t := ScaledTransform(id, base, start, next);
    assert t.position.value.x == next.x + 0.0 * (next.width / start.width);
    assert t.position.value.y == next.y + 0.0 * (next.height / start.height);
    assert t.size.value.width == start.width * (next.width / start.width);
    assert t.size.value.height == start.height * (next.height / start.height);
  }

  /** Bounds that do not change leave every target's transform as it was. */
  lemma ScaledIdentity(id: string, base: BaseNode, start: Rect)
    requires start.width != 0.0 && start.height != 0.0
    ensures ScaledTransform(id, base, start, start) == TransformUpdate(id, Some(base.position), Some(base.size), Some(base.rotation))
  {
    var t := ScaledTransform(id, base, start, start);
    assert start.width / start.width == 1.0 && start.height / start.height == 1.0;
    assert t.position.value.x == start.x + (base.position.x - start.x) * 1.0;
    assert t.position.value.y == start.y + (base.position.y - start.y) * 1.0;
    assert t.size.value == Size(base.size.width * 1.0, base.size.height * 1.0);
  }

  /** Two side-by-side nodes filling the bounds (0, 0, 100, 100): dragging
      the east handle 100 to the right doubles the bounds' width, so the
      right node's offset (50, 0) becomes (100, 0) and both widths double. */
  lemma GroupResizeScenario(trig: Trig)
    ensures var c := ControlSession(E, ["a", "b"], Point(100.0, 50.0), Rect(0.0, 0.0, 100.0, 100.0), 0.0,
                                    [BaseNode("a", Point(0.0, 0.0), Size(50.0, 100.0), 0.0),
                                     BaseNode("b", Point(50.0, 0.0), Size(50.0, 100.0), 0.0)]);
            ControlUpdates(trig, c, Point(200.0, 50.0)) ==
              Some([TransformUpdate("a", Some(Point(0.0, 0.0)), Some(Size(100.0, 100.0)), Some(0.0)),
                    TransformUpdate("b", Some(Point(100.0, 0.0)), Some(Size(100.0, 100.0)), Some(0.0))])
  {
    var c := ControlSession(E, ["a", "b"], Point(100.0, 50.0), Rect(0.0, 0.0, 100.0, 100.0), 0.0,
                            [BaseNode("a", Point(0.0, 0.0), Size(50.0, 100.0), 0.0),
                             BaseNode("b", Point(50.0, 0.0), Size(50.0, 100.0), 0.0)]);
    var next := EastDragDoubles();
    var ta, tb := GroupResizeTargets(c.baseNodes[0], c.baseNodes[1]);
    assert BaseFor(c.baseNodes, "a") == Some(c.baseNodes[0]);
    assert BaseFor(c.baseNodes, "b") == Some(c.baseNodes[1]);
    var r := ResizeUpdates(c, next);
    assert r.value[0] == ta && r.value[1] == tb;
    assert r.value == [ta, tb];
  }

  /** The east handle dragged from (100, 50) to (200, 50) doubles the width
      of the bounds (0, 0, 100, 100). */
  lemma EastDragDoubles() returns (next: Rect)
    ensures next == Resized(Rect(0.0, 0.0, 100.0, 100.0), E, Point(100.0, 50.0), Point(200.0, 50.0), DefaultMinSize)
    ensures next == Rect(0.0, 0.0, 200.0, 100.0)
  {
    next := Resized(Rect(0.0, 0.0, 100.0, 100.0), E, Point(100.0, 50.0), Point(200.0, 50.0), DefaultMinSize);
    assert MovesEast(E) && !MovesWest(E) && !MovesNorth(E) && !MovesSouth(E);
  }

  /** The two transforms of the doubled bounds. */
  lemma GroupResizeTargets(a: BaseNode, b: BaseNode) returns (ta: TransformUpdate, tb: TransformUpdate)
    requires a == BaseNode("a", Point(0.0, 0.0), Size(50.0, 100.0), 0.0)
    requires b == BaseNode("b", Point(50.0, 0.0), Size(50.0, 100.0), 0.0)
    ensures ta == ScaledTransform("a", a, Rect(0.0, 0.0, 100.0, 100.0), Rect(0.0, 0.0, 200.0, 100.0))
    ensures tb == ScaledTransform("b", b, Rect(0.0, 0.0, 100.0, 100.0), Rect(0.0, 0.0, 200.0, 100.0))
    ensures ta == TransformUpdate("a", Some(Point(0.0, 0.0)), Some(Size(100.0, 100.0)), Some(0.0))
    ensures tb == TransformUpdate("b", Some(Point(100.0, 0.0)), Some(Size(100.0, 100.0)), Some(0.0))
  {
    assert 200.0 / 100.0 == 2.0 && 100.0 / 100.0 == 1.0;
    ta := ScaledTransform("a", a, Rect(0.0, 0.0, 100.0, 100.0), Rect(0.0, 0.0, 200.0, 100.0));
    tb := ScaledTransform("b", b, Rect(0.0, 0.0, 100.0, 100.0), Rect(0.0, 0.0, 200.0, 100.0));
  }

  /** The transforms a resize drag issues, one per target in order; none when
      some target has no snapshot (the source fails on it). */
  function ResizeUpdates(c: ControlSession, next: Rect): (r: Option<seq<TransformUpdate>>)
    requires c.startBounds.width != 0.0 && c.startBounds.height != 0.0
    ensures r.None? <==> exists k :: 0 <= k < |c.targetIds| && BaseFor(c.baseNodes, c.targetIds[k]).None?
    ensures r.Some? ==> |r.value| == |c.targetIds|
    ensures r.Some? ==>
              forall k :: 0 <= k < |c.targetIds| ==>
                r.value[k] == ScaledTransform(c.targetIds[k], BaseFor(c.baseNodes, c.targetIds[k]).value, c.startBounds, next)
  {
    if exists k :: 0 <= k < |c.targetIds| && BaseFor(c.baseNodes, c.targetIds[k]).None? then None
    else
      Some(seq(|c.targetIds|, k requires 0 <= k < |c.targetIds| =>
                 ScaledTransform(c.targetIds[k], BaseOrigin(BaseFor(c.baseNodes, c.targetIds[k])), c.startBounds, next)))
  }

  /** Whether every computation of the control session succeeds. */
  predicate ControlCompletes(c: ControlSession) {
    (c.handleId == Rotate ==> |c.targetIds| > 0 && BaseFor(c.baseNodes, c.targetIds[0]).Some?) &&
    (c.handleId != Rotate ==> c.startBounds.width != 0.0 && c.startBounds.height != 0.0 &&
                              forall k :: 0 <= k < |c.targetIds| ==> BaseFor(c.baseNodes, c.targetIds[k]).Some?)
  }

  /** The transforms a control drag issues when the pointer is at `world`:
      a rotation of the first target, or every target scaled into the
      resized bounds (at least the default minimum size); none when a
      snapshot the computation needs is missing. */
  function ControlUpdates(trig: Trig, c: ControlSession, world: Point): (r: Option<seq<TransformUpdate>>)
    requires c.handleId != Rotate ==> c.startBounds.width != 0.0 && c.startBounds.height != 0.0
    ensures ControlCompletes(c) <==> r.Some?
    ensures c.handleId == Rotate ==> r == RotateUpdates(trig, c, world)
    ensures c.handleId != Rotate ==>
              r == ResizeUpdates(c, Resized(c.startBounds, c.handleId, c.startPointer, world, DefaultMinSize))
  {
    if c.handleId == Rotate then RotateUpdates(trig, c, world)
    else
      ResizeUpdates(c, Resized(c.startBounds, c.handleId, c.startPointer, world, DefaultMinSize))
  }

  /** A control drag started on a selection whose ids all name nodes of
      positive size always completes: every target has a snapshot and the
      start bounds have a size to scale by. */
  lemma {:induction false} ControlStartCompletes(trig: Trig, spacePressed: bool, s: CanvasState, e: PointerEvent)
    requires s.viewport.scale != 0.0
    requires RouteDown(trig, spacePressed, s, e).ControlStart?
    requires forall id :: id in s.selection.nodeIds ==> HasNode(s.nodes, id)
    requires forall i :: 0 <= i < |s.nodes| ==> s.nodes[i].size.width > 0.0 && s.nodes[i].size.height > 0.0
    ensures var route := RouteDown(trig, spacePressed, s, e);
            ControlCompletes(ControlSessionFor(s, route.hit, route.bounds, ScreenToWorld(s.viewport, e.position)))
  {
    var route := RouteDown(trig, spacePressed, s, e);
    var c := ControlSessionFor(s, route.hit, route.bounds, ScreenToWorld(s.viewport, e.position));
    forall k | 0 <= k < |c.targetIds|
      ensures BaseFor(c.baseNodes, c.targetIds[k]).Some?
    {
      BaseForSelected(s.nodes, s.selection.nodeIds, c.targetIds[k]);
    }
    var first := s.selection.nodeIds[0];
    assert HasNode(s.nodes, first);
    var i :| 0 <= i < |s.nodes| && s.nodes[i].id == first;
    assert !s.nodes[i].shape.Connector?;
    assert Encloses(route.bounds, GetNodeBounds(trig, s, s.nodes[i]));
  }

  // ---------------------------------------------------------------------
  // Connector end drag

  /** The end a connector drag places: on the anchor under the pointer, or
      free at the pointer. */
  function DraggedEnd(hit: Option<AnchorHit>, world: Point): (r: Endpoint)
    ensures hit.Some? ==> r == Endpoint(Some(hit.value.nodeId), Some(hit.value.anchorId), None, None)
    ensures hit.None? ==> r == Endpoint(None, None, None, Some(world))
  {
    match hit
    case Some(h) => Endpoint(Some(h.nodeId), Some(h.anchorId), None, None)
    case None => Endpoint(None, None, None, Some(world))
  }

  /** The patch a connector drag applies: the dragged end replaced, the other
      as it was, and the mode recomputed from both. */
  function ConnectorPatch(c: ConnectorSession, end: Endpoint): (r: NodePatch)
    ensures r.position.None? && r.size.None? && r.rotation.None?
    ensures r.source == Some(if c.endpointKey == SourceEnd then end else c.baseSource)
    ensures r.target == Some(if c.endpointKey == TargetEnd then end else c.baseTarget)
    ensures r.mode == Some(ResolveConnectorMode(r.source.value, r.target.value))
  {
    var source := if c.endpointKey == SourceEnd then end else c.baseSource;
    var target := if c.endpointKey == TargetEnd then end else c.baseTarget;
    NodePatch(None, None, None, Some(ResolveConnectorMode(source, target)), Some(source), Some(target))
  }

  /** A connector whose dragged end lands on an anchor is linked exactly when
      its other end is attached too. */
  lemma AnchoredEndMode(c: ConnectorSession, hit: AnchorHit, world: Point)
    requires hit.nodeId != ""
    ensures var p := ConnectorPatch(c, DraggedEnd(Some(hit), world));
            p.mode == Some(Linked) <==> Truthy(if c.endpointKey == SourceEnd then c.baseTarget.nodeId else c.baseSource.nodeId)
  {
  }

  /** A connector end dropped on empty canvas leaves the connector free. */
  lemma FreeEndMode(c: ConnectorSession, world: Point)
    ensures ConnectorPatch(c, DraggedEnd(None, world)).mode == Some(Free)
  {
  }

  // ---------------------------------------------------------------------
  // Rubber band

  /** Whether a released rubber band is small enough on screen to be a click. */
  predicate IsClick(box: Rect, scale: real)
    requires scale != 0.0
  {
    box.width < ClickThreshold / scale && box.height < ClickThreshold / scale
  }

  /** The band touches the board bounds of node `n`. */
  predicate InBand(trig: Trig, s: CanvasState, box: Rect, n: Node) {
    Intersects(Some(box), GetNodeBounds(trig, s, n))
  }

  /** The ids of the nodes whose board bounds the band touches, in scene order. */
  function BoxHits(trig: Trig, s: CanvasState, box: Rect): (r: seq<string>)
    ensures forall id :: id in r <==> exists n :: n in s.nodes && n.id == id && InBand(trig, s, box, n)
    ensures r == Map(Filter(s.nodes, (n: Node) => InBand(trig, s, box, n)), (n: Node) => n.id)
  {
    HitsAmongIsFilterMap(trig, s, s.nodes, box);
    HitsAmong(trig, s, s.nodes, box)
  }

  function HitsAmong(trig: Trig, s: CanvasState, nodes: seq<Node>, box: Rect): (r: seq<string>)
    ensures forall id :: id in r <==> exists n :: n in nodes && n.id == id && InBand(trig, s, box, n)
  {
    if |nodes| == 0 then []
    else
      var rest := HitsAmong(trig, s, nodes[1..], box);
      assert forall n :: n in nodes <==> n == nodes[0] || n in nodes[1..];
      if InBand(trig, s, box, nodes[0]) then [nodes[0].id] + rest else rest
  }

  /** The recursive scan is `nodes.filter(...).map(node => node.id)`: the
      hits keep the scene order and its repeats. */
  lemma {:induction false} HitsAmongIsFilterMap(trig: Trig, s: CanvasState, nodes: seq<Node>, box: Rect)
    ensures HitsAmong(trig, s, nodes, box) ==
            Map(Filter(nodes, (n: Node) => InBand(trig, s, box, n)), (n: Node) => n.id)
  {
    if |nodes| > 0 {
      var inBand := (n: Node) => InBand(trig, s, box, n);
      var id := (n: Node) => n.id;
      HitsAmongIsFilterMap(trig, s, nodes[1..], box);
      var tail := Filter(nodes[1..], inBand);
      if inBand(nodes[0]) {
        assert Filter(nodes, inBand) == [nodes[0]] + tail;
        MapCons(nodes[0], tail, id);
      } else {
        assert Filter(nodes, inBand) == tail;
      }
    }
  }

  /** The selection a released band leaves: the earlier ids, then the new
      hits; multi mode exactly when more than one id results. */
  function BoxSelection(baseSelection: seq<string>, hits: seq<string>): (r: Selection)
    ensures r.nodeIds == MergeSelectionIds(baseSelection, hits)
    ensures r.mode == Multi <==> |r.nodeIds| > 1
    ensures r.edgeIds == [] && r.groupIds == [] && r.box.None?
  {
    var merged := MergeSelectionIds(baseSelection, hits);
    Selection(merged, [], [], if |merged| > 1 then Multi else Single, None)
  }

  /** The state a released rubber band leaves before the band itself is
      cleared: a click with no kept ids clears the selection; otherwise the
      kept ids and the nodes the band touches are selected. */
  function BandRelease(trig: Trig, s: CanvasState, kept: seq<string>, box: Rect, now: int): (r: CanvasState)
    requires s.viewport.scale != 0.0
    ensures IsClick(box, s.viewport.scale) && kept == [] ==> r.selection.nodeIds == [] && r.selection.box.None?
    ensures IsClick(box, s.viewport.scale) && kept == [] ==> r == ClearSelection(s, now)
    ensures !(IsClick(box, s.viewport.scale) && kept == []) ==> r.selection == BoxSelection(kept, BoxHits(trig, s, box))
    ensures r == s.(selection := r.selection, updatedAt := now)
  {
    if IsClick(box, s.viewport.scale) && kept == [] then ClearSelection(s, now)
    else SetSelection(s, BoxSelection(kept, BoxHits(trig, s, box)), now)
  }

  /** The selection a pointer-down on a node or a connector end makes. */
  function SoleSelection(id: string): (r: Selection)
    ensures r.nodeIds == [id] && r.edgeIds == [] && r.groupIds == [] && r.mode == Single && r.box.None?
  {
    Selection([id], [], [], Single, None)
  }

  /** The selection a rubber band starts with: the kept ids and a zero-size
      band at the pointer. */
  function BandSelection(kept: seq<string>, world: Point): (r: Selection)
    ensures r.nodeIds == kept && r.mode == Multi && r.box == Some(Rect(world.x, world.y, 0.0, 0.0))
    ensures r.edgeIds == [] && r.groupIds == []
  {
    Selection(kept, [], [], Multi, Some(Rect(world.x, world.y, 0.0, 0.0)))
  }
}
