/** The board: the object that turns pointer, wheel and key events into
    store actions. It keeps at most one gesture session at a time (a node
    drag, a pan, a control drag or a connector end drag) or a rubber band;
    moves preview and releases commit. */
module BoardController {
  import opened Util
  import opened Canvas
  import opened ControlUtils
  import opened ConnectorPath
  import opened ConnectorResolve
  import opened BoardHelpers
  import opened ViewportZoom
  import opened StoreActions
  import opened HistoryLedger
  import opened CanvasStore
  import opened BoardSession

  class Board {
    var boxStart: Option<Point>
    var baseSelection: seq<string>
    var dragSession: Option<DragSession>
    var panSession: Option<PanSession>
    var controlSession: Option<ControlSession>
    var connectorSession: Option<ConnectorSession>
    var spacePressed: bool
    const store: Store
    const trig: Trig

    /** The gesture fields hold exactly the given values. */
    predicate SessionsAre(box: Option<Point>, base: seq<string>, drag: Option<DragSession>, pan: Option<PanSession>,
                          control: Option<ControlSession>, connector: Option<ConnectorSession>)
      reads this
    {
      boxStart == box && baseSelection == base && dragSession == drag && panSession == pan &&
      controlSession == control && connectorSession == connector
    }

    /** No gesture is in progress. */
    predicate Idle()
      reads this
    {
      SessionsAre(None, [], None, None, None, None)
    }

    /** At most one gesture is in progress, and a rubber band's kept ids
        exist only while the band does. */
    predicate OneGesture()
      reads this
    {
      (if boxStart.Some? then 1 else 0) + (if dragSession.Some? then 1 else 0) + (if panSession.Some? then 1 else 0) +
      (if controlSession.Some? then 1 else 0) + (if connectorSession.Some? then 1 else 0) <= 1 &&
      (boxStart.None? ==> baseSelection == [])
    }

    /** What a move or a release computes with is defined: the viewport
        scale is not zero and a resize has start bounds to scale by. */
    predicate Ready()
      reads this, store
    {
      store.state.viewport.scale != 0.0 &&
      (controlSession.Some? && controlSession.value.handleId != Rotate ==>
         controlSession.value.startBounds.width != 0.0 && controlSession.value.startBounds.height != 0.0)
    }

    constructor (store: Store, trig: Trig)
      ensures this.store == store && this.trig == trig
      ensures Idle() && !spacePressed
    {
      this.store := store;
      this.trig := trig;
      boxStart := None;
      baseSelection := [];
      dragSession := None;
      panSession := None;
      controlSession := None;
      connectorSession := None;
      spacePressed := false;
    }

    /** The outcome of starting `route` for the pointer-down `e`, between
        the state before and the state after. */
    twostate predicate Started(route: DownRoute, e: PointerEvent, now: int)
      requires old(store.state).viewport.scale != 0.0
      reads this, store, store.history
    {
      var s, world := old(store.state), ScreenToWorld(old(store.state).viewport, e.position);
      spacePressed == old(spacePressed) &&
      match route
      case PanStart =>
        SessionsAre(None, [], None, Some(PanSession(e.position, Point(s.viewport.x, s.viewport.y))),
                    old(controlSession), old(connectorSession)) &&
        store.state == s && store.history.state == old(store.history.state)
      case ControlStart(hit, bounds) =>
        SessionsAre(old(boxStart), old(baseSelection), old(dragSession), old(panSession),
                    Some(ControlSessionFor(s, hit, bounds, world)), old(connectorSession)) &&
        store.state == s && store.history.state == old(store.history.state)
      case ConnectorGrab(node, key) =>
        node.shape.Connector? &&
        SessionsAre(old(boxStart), old(baseSelection), old(dragSession), old(panSession), old(controlSession),
                    Some(ConnectorSession(node.id, key, node.shape.source, node.shape.target))) &&
        store.state == StoreActions.SetSelection(s, SoleSelection(node.id), now) &&
        store.history.state == old(store.history.state).Pushed(store.state)
      case ConnectorSelect(node) =>
        SessionsAre(old(boxStart), old(baseSelection), old(dragSession), old(panSession), old(controlSession),
                    old(connectorSession)) &&
        store.state == StoreActions.SetSelection(s, SoleSelection(node.id), now) &&
        store.history.state == old(store.history.state).Pushed(store.state)
      case ShiftToggle(id) =>
        SessionsAre(None, [], None, old(panSession), old(controlSession), old(connectorSession)) &&
        store.state == StoreActions.ToggleSelection(s, id, now) &&
        store.history.state == old(store.history.state).Pushed(store.state)
      case DragStart(id) =>
        var selected := if id in s.selection.nodeIds then s.selection.nodeIds else [id];
        SessionsAre(None, [], Some(DragSession(world, DragBase(s.nodes, selected))),
                    old(panSession), old(controlSession), old(connectorSession)) &&
        if id in s.selection.nodeIds then
          store.state == s && store.history.state == old(store.history.state)
        else
          store.state == StoreActions.SetSelection(s, SoleSelection(id), now) &&
          store.history.state == old(store.history.state).Pushed(store.state)
      case BoxStart =>
        var kept := if e.shiftKey then s.selection.nodeIds else [];
        SessionsAre(Some(world), kept, None, old(panSession), old(controlSession), old(connectorSession)) &&
        store.state == StoreActions.SetSelection(s, BandSelection(kept, world), now) &&
        store.history.state == old(store.history.state).Pushed(store.state)
    }

    /** Starts the interaction `RouteDown` picks for the event. */
    method OnPointerDown(e: PointerEvent, now: int)
      requires store.state.viewport.scale != 0.0
      modifies this, store, store.history
      ensures store.state.viewport == old(store.state.viewport)
      ensures Started(RouteDown(trig, old(spacePressed), old(store.state), e), e, now)
      ensures old(Idle()) ==> OneGesture()
    {
      var route := RouteDown(trig, spacePressed, store.state, e);
      Start(route, e, now);
    }

    method Start(route: DownRoute, e: PointerEvent, now: int)
      requires store.state.viewport.scale != 0.0
      requires route.ConnectorGrab? ==> route.node.shape.Connector?
      modifies this, store, store.history
      ensures store.state.viewport == old(store.state.viewport)
      ensures Started(route, e, now)
      ensures old(Idle()) ==> OneGesture()
    {
      var s := store.state;
      var world := ScreenToWorld(s.viewport, e.position);
      match route
      case PanStart =>
        panSession := Some(PanSession(e.position, Point(s.viewport.x, s.viewport.y)));
        boxStart := None;
        baseSelection := [];
        dragSession := None;
      case ControlStart(hit, bounds) =>
        controlSession := Some(ControlSessionFor(s, hit, bounds, world));
      case ConnectorGrab(node, key) =>
        store.SetSelection(SoleSelection(node.id), now);
        connectorSession := Some(ConnectorSession(node.id, key, node.shape.source, node.shape.target));
      case ConnectorSelect(node) =>
        store.SetSelection(SoleSelection(node.id), now);
      case ShiftToggle(id) =>
        store.ToggleSelection(id, now);
        boxStart := None;
        baseSelection := [];
        dragSession := None;
      case DragStart(id) =>
        var isSelected := id in s.selection.nodeIds;
        var selectedIds := if isSelected then s.selection.nodeIds else [id];
        if !isSelected {
          store.SetSelection(SoleSelection(id), now);
        }
        dragSession := Some(DragSession(world, DragBase(s.nodes, selectedIds)));
        boxStart := None;
        baseSelection := [];
      case BoxStart =>
        dragSession := None;
        baseSelection := if e.shiftKey then s.selection.nodeIds else [];
        boxStart := Some(world);
        store.SetSelection(BandSelection(baseSelection, world), now);
    }

    /** Previews the gesture in progress, the first of control drag,
        connector drag, pan, node drag and rubber band that is active. The
        previews of drags are not recorded; a pan step and a band step are.
        The gesture fields do not change. */
    method OnPointerMove(e: PointerEvent, now: int)
      requires Ready()
      modifies store, store.history
      ensures store.state.viewport.scale == old(store.state.viewport.scale)
      ensures var s, world := old(store.state), ScreenToWorld(old(store.state).viewport, e.position);
              controlSession.Some? ==>
                store.history.state == old(store.history.state) &&
                store.state == match ControlUpdates(trig, controlSession.value, world)
                               case None => s
                               case Some(updates) => UpdateNodesTransform(s, updates, now)
      ensures var s, world := old(store.state), ScreenToWorld(old(store.state).viewport, e.position);
              controlSession.None? && connectorSession.Some? ==>
                var c := connectorSession.value;
                var hit := AnchorAt(trig, s.nodes, world, GrabRadius / s.viewport.scale);
                store.history.state == old(store.history.state) &&
                store.state == StoreActions.UpdateNode(s, c.connectorId, ConnectorPatch(c, DraggedEnd(hit, world)), now)
      ensures var s := old(store.state);
              controlSession.None? && connectorSession.None? && panSession.Some? ==>
                var p := panSession.value;
                store.state == StoreActions.SetViewport(s, Viewport(p.baseViewport.x + (e.position.x - p.start.x),
                                                                    p.baseViewport.y + (e.position.y - p.start.y),
                                                                    s.viewport.scale), now) &&
                store.history.state == old(store.history.state).Pushed(store.state)
      ensures var s, world := old(store.state), ScreenToWorld(old(store.state).viewport, e.position);
              controlSession.None? && connectorSession.None? && panSession.None? && dragSession.Some? ==>
                store.state == StoreActions.UpdateNodesPosition(s, DragStep(dragSession.value, world), now) &&
                store.history.state == old(store.history.state)
      ensures var s, world := old(store.state), ScreenToWorld(old(store.state).viewport, e.position);
              controlSession.None? && connectorSession.None? && panSession.None? && dragSession.None? ==>
                if boxStart.Some? then
                  store.state == StoreActions.SetSelectionBox(s, Some(NormalizeBox(boxStart.value, world)), now) &&
                  store.history.state == old(store.history.state).Pushed(store.state)
                else
                  store.state == s && store.history.state == old(store.history.state)
    {
      var viewport := store.state.viewport;
      if controlSession.Some? {
        var c := controlSession.value;
        var world := ScreenToWorld(viewport, e.position);
        var updates;
        if c.handleId == Rotate {
          updates := RotateUpdates(trig, c, world);
        } else {
          var next := ResizeBounds(c.startBounds, c.handleId, c.startPointer, world, DefaultMinSize);
          updates := ResizeUpdates(c, next);
        }
        if updates.Some? {
          store.UpdateNodesTransformPreview(updates.value, now);
        }
        return;
      }
      if connectorSession.Some? {
        var c := connectorSession.value;
        var world := ScreenToWorld(viewport, e.position);
        var hit := FindAnchorAtPoint(trig, store.state.nodes, world, GrabRadius / viewport.scale);
        store.UpdateNodePreview(c.connectorId, ConnectorPatch(c, DraggedEnd(hit, world)), now);
        return;
      }
      if panSession.Some? {
        var p := panSession.value;
        var dx := e.position.x - p.start.x;
        var dy := e.position.y - p.start.y;
        store.SetViewport(Viewport(p.baseViewport.x + dx, p.baseViewport.y + dy, viewport.scale), now);
        return;
      }
      if dragSession.Some? {
        var world := ScreenToWorld(viewport, e.position);
        store.UpdateNodesPositionPreview(DragStep(dragSession.value, world), now);
        return;
      }
      if boxStart.None? {
        return;
      }
      var world := ScreenToWorld(viewport, e.position);
      store.SetSelectionBox(Some(NormalizeBox(boxStart.value, world)), now);
    }

    /** The outcome of a pointer-up at `e`, between the state before and
        the state after: the first active gesture of pan, control drag,
        connector drag, node drag and rubber band ends and commits. */
    twostate predicate Released(e: PointerEvent, now: int)
      requires old(store.state).viewport.scale != 0.0
      requires old(controlSession).Some? && old(controlSession).value.handleId != Rotate ==>
                 old(controlSession).value.startBounds.width != 0.0 && old(controlSession).value.startBounds.height != 0.0
      reads this, store, store.history
    {
      var s, world := old(store.state), ScreenToWorld(old(store.state).viewport, e.position);
      spacePressed == old(spacePressed) &&
      if old(panSession).Some? then
        SessionsAre(old(boxStart), old(baseSelection), old(dragSession), None, old(controlSession),
                    old(connectorSession)) &&
        store.state == s && store.history.state == old(store.history.state)
      else if old(controlSession).Some? then
        ControlReleased(old(controlSession).value, world, now)
      else if old(connectorSession).Some? then
        ConnectorReleased(old(connectorSession).value, world, now)
      else if old(dragSession).Some? then
        SessionsAre(old(boxStart), old(baseSelection), None, None, None, None) &&
        store.state == StoreActions.UpdateNodesPosition(s, DragStep(old(dragSession).value, world), now) &&
        store.history.state == old(store.history.state).Pushed(store.state)
      else if old(boxStart).Some? then
        BandReleased(world, now)
      else
        SessionsAre(None, old(baseSelection), None, None, None, None) &&
        store.state == s && store.history.state == old(store.history.state)
    }

    /** A control drag ends with the transforms for the release point
        committed and the session closed; when they cannot be computed,
        nothing changes. */
    twostate predicate ControlReleased(c: ControlSession, world: Point, now: int)
      requires c.handleId != Rotate ==> c.startBounds.width != 0.0 && c.startBounds.height != 0.0
      reads this, store, store.history
    {
      match ControlUpdates(trig, c, world)
      case None =>
        SessionsAre(old(boxStart), old(baseSelection), old(dragSession), old(panSession), old(controlSession),
                    old(connectorSession)) &&
        store.state == old(store.state) && store.history.state == old(store.history.state)
      case Some(updates) =>
        SessionsAre(old(boxStart), old(baseSelection), old(dragSession), old(panSession), None, old(connectorSession)) &&
        store.state == UpdateNodesTransform(old(store.state), updates, now) &&
        store.history.state == old(store.history.state).Pushed(store.state)
    }

    /** A connector drag ends with the dragged end placed at the release
        point (on the anchor there, if any) and the session closed. */
    twostate predicate ConnectorReleased(c: ConnectorSession, world: Point, now: int)
      requires old(store.state).viewport.scale != 0.0
      reads this, store, store.history
    {
      var s := old(store.state);
      var hit := AnchorAt(trig, s.nodes, world, GrabRadius / s.viewport.scale);
      SessionsAre(old(boxStart), old(baseSelection), old(dragSession), old(panSession), old(controlSession), None) &&
      store.state == StoreActions.UpdateNode(s, c.connectorId, ConnectorPatch(c, DraggedEnd(hit, world)), now) &&
      store.history.state == old(store.history.state).Pushed(store.state)
    }

    /** A rubber band ends with the selection it picks recorded, then the
        band cleared, and the band's fields reset. */
    twostate predicate BandReleased(world: Point, now: int)
      requires old(store.state).viewport.scale != 0.0 && old(boxStart).Some?
      reads this, store, store.history
    {
      var picked := BandRelease(trig, old(store.state), old(baseSelection), NormalizeBox(old(boxStart).value, world), now);
      SessionsAre(None, [], old(dragSession), old(panSession), old(controlSession), old(connectorSession)) &&
      store.state == ClearSelectionBox(picked, now) &&
      store.history.state == old(store.history.state).Pushed(picked).Pushed(store.state)
    }

    /** Ends the gesture in progress, committing what it previewed. */
    method OnPointerUp(e: PointerEvent, now: int)
      requires Ready()
      modifies this, store, store.history
      ensures store.state.viewport.scale == old(store.state.viewport.scale)
      ensures Released(e, now)
      ensures old(OneGesture()) && (old(controlSession).Some? ==> ControlCompletes(old(controlSession).value)) ==> Idle()
    {
      var viewport := store.state.viewport;
      if panSession.Some? {
        panSession := None;
        return;
      }
      var world := ScreenToWorld(viewport, e.position);
      if controlSession.Some? {
        ReleaseControl(controlSession.value, world, now);
      } else if connectorSession.Some? {
        ReleaseConnector(connectorSession.value, world, now);
      } else if dragSession.Some? {
        store.UpdateNodesPosition(DragStep(dragSession.value, world), now);
        dragSession := None;
      } else if boxStart.Some? {
        ReleaseBand(world, now);
      }
    }

    method ReleaseControl(c: ControlSession, world: Point, now: int)
      requires c.handleId != Rotate ==> c.startBounds.width != 0.0 && c.startBounds.height != 0.0
      modifies this, store, store.history
      ensures spacePressed == old(spacePressed) && store.state.viewport == old(store.state.viewport)
      ensures ControlReleased(c, world, now)
    {
      var updates;
      if c.handleId == Rotate {
        updates := RotateUpdates(trig, c, world);
      } else {
        var next := ResizeBounds(c.startBounds, c.handleId, c.startPointer, world, DefaultMinSize);
        updates := ResizeUpdates(c, next);
      }
      if updates.Some? {
        store.UpdateNodesTransformCommit(updates.value, now);
        controlSession := None;
      }
    }

    method ReleaseConnector(c: ConnectorSession, world: Point, now: int)
      requires store.state.viewport.scale != 0.0
      modifies this, store, store.history
      ensures spacePressed == old(spacePressed) && store.state.viewport == old(store.state.viewport)
      ensures ConnectorReleased(c, world, now)
    {
      var hit := FindAnchorAtPoint(trig, store.state.nodes, world, GrabRadius / store.state.viewport.scale);
      store.UpdateNode(c.connectorId, ConnectorPatch(c, DraggedEnd(hit, world)), now);
      connectorSession := None;
    }

    method ReleaseBand(world: Point, now: int)
      requires store.state.viewport.scale != 0.0 && boxStart.Some?
      modifies this, store, store.history
      ensures spacePressed == old(spacePressed) && store.state.viewport == old(store.state.viewport)
      ensures BandReleased(world, now)
    {
      var s := store.state;
      var box := NormalizeBox(boxStart.value, world);
      if IsClick(box, s.viewport.scale) && baseSelection == [] {
        store.ClearSelection(now);
      } else {
        store.SetSelection(BoxSelection(baseSelection, BoxHits(trig, s, box)), now);
      }
      boxStart := None;
      baseSelection := [];
      store.ClearSelectionBox(now);
    }

    /** A whole gesture, a pointer-down, any number of moves and a
        pointer-up, that starts on an idle board leaves it idle again: no
        session outlives its gesture. The selected ids must name nodes of
        positive size, so that a control drag can always be computed. */
    method Gesture(down: PointerEvent, moves: seq<PointerEvent>, up: PointerEvent, now: int)
      requires Idle() && store.state.viewport.scale != 0.0
      requires forall id :: id in store.state.selection.nodeIds ==> HasNode(store.state.nodes, id)
      requires forall i :: 0 <= i < |store.state.nodes| ==>
                 store.state.nodes[i].size.width > 0.0 && store.state.nodes[i].size.height > 0.0
      modifies this, store, store.history
      ensures Idle() && spacePressed == old(spacePressed)
    {
      var route := RouteDown(trig, spacePressed, store.state, down);
      if route.ControlStart? {
        ControlStartCompletes(trig, spacePressed, store.state, down);
      }
      OnPointerDown(down, now);
      assert controlSession.Some? ==> ControlCompletes(controlSession.value) by {
        if !route.ControlStart? {
          assert controlSession.None?;
        }
      }
      OnPointerMoves(moves, now);
      OnPointerUp(up, now);
    }

    /** The moves of one gesture, in order; none of them changes the
        gesture fields. */
    method OnPointerMoves(moves: seq<PointerEvent>, now: int)
      requires Ready()
      modifies store, store.history
      ensures store.state.viewport.scale == old(store.state.viewport.scale)
    {
      var i := 0;
      while i < |moves|
        invariant 0 <= i <= |moves|
        invariant store.state.viewport.scale == old(store.state.viewport.scale)
      {
        OnPointerMove(moves[i], now);
        i := i + 1;
      }
    }

    /** Zooms about `anchor`, the cursor's position in the board's own
        screen coordinates. */
    method OnWheel(deltaY: real, anchor: Point, now: int)
      requires store.state.viewport.scale != 0.0
      modifies store, store.history
      ensures store.state == StoreActions.SetViewport(old(store.state),
                                                      NextViewportFromWheel(old(store.state).viewport, deltaY, anchor), now)
      ensures store.history.state == old(store.history.state).Pushed(store.state)
    {
      var next := NextViewportFromWheel(store.state.viewport, deltaY, anchor);
      store.SetViewport(next, now);
    }

    /** Holding the space bar turns the next pointer-down into a pan. */
    method OnKeyDown(code: string)
      modifies this
      ensures spacePressed == (code == "Space" || old(spacePressed))
      ensures SessionsAre(old(boxStart), old(baseSelection), old(dragSession), old(panSession), old(controlSession),
                          old(connectorSession))
    {
      if code == "Space" {
        spacePressed := true;
      }
    }

    method OnKeyUp(code: string)
      modifies this
      ensures spacePressed == (code != "Space" && old(spacePressed))
      ensures SessionsAre(old(boxStart), old(baseSelection), old(dragSession), old(panSession), old(controlSession),
                          old(connectorSession))
    {
      if code == "Space" {
        spacePressed := false;
      }
    }
  }
}
