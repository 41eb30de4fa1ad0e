/** The scene store's actions as pure updaters of the canvas state: each
    returns the next state and stamps it with the time `now` it is given. */
module StoreActions {
  import opened Util
  import opened Canvas

  /** The state the store starts from and returns to on reset. */
  function InitialState(now: int): (r: CanvasState)
    ensures r.nodes == [] && r.edges == [] && r.groups == []
    ensures r.selection == Selection([], [], [], Single, None)
    ensures r.viewport == Viewport(0.0, 0.0, 1.0) && r.updatedAt == now
  {
    CanvasState([], [], [], Selection([], [], [], Single, None), Viewport(0.0, 0.0, 1.0), now)
  }

  // ---------------------------------------------------------------------
  // Creating nodes

  /** The type-specific part of a node request; every field may be absent. */
  datatype KindRequest =
    | GeometryRequest(kind: Option<GeometryKind>)
    | TextRequest
    | ConnectorRequest(mode: Option<ConnectorMode>, source: Option<Endpoint>, target: Option<Endpoint>,
                       style: ConnectorStyle)

  /** A partial node of a given type. */
  datatype NodeRequest = NodeRequest(id: Option<string>, request: KindRequest, position: Option<Point>,
                                     size: Option<Size>, rotation: Option<real>)

  const DefaultNodePosition: Point := Point(120.0, 120.0)
  const DefaultGeometrySize: Size := Size(160.0, 96.0)
  const DefaultTextSize: Size := Size(180.0, 40.0)
  const DefaultEllipseSize: Size := Size(140.0, 140.0)
  const DefaultSourceEnd: Endpoint := Endpoint(None, None, None, Some(Point(80.0, 80.0)))
  const DefaultTargetEnd: Endpoint := Endpoint(None, None, None, Some(Point(240.0, 160.0)))

  function CreateGeometryNode(id: Option<string>, kind: Option<GeometryKind>, position: Option<Point>,
                              size: Option<Size>, rotation: Option<real>, freshId: string): (r: Node)
    ensures r.shape == Geometry(kind.GetOr(RectKind))
    ensures r.id == id.GetOr(freshId) && r.rotation == Some(rotation.GetOr(0.0))
    ensures r.position == position.GetOr(DefaultNodePosition) && r.size == size.GetOr(DefaultGeometrySize)
  {
    Node(id.GetOr(freshId), Geometry(kind.GetOr(RectKind)), position.GetOr(DefaultNodePosition),
         size.GetOr(DefaultGeometrySize), Some(rotation.GetOr(0.0)))
  }

  function CreateTextNode(id: Option<string>, position: Option<Point>, size: Option<Size>,
                          rotation: Option<real>, freshId: string): (r: Node)
    ensures r.shape == Text
    ensures r.id == id.GetOr(freshId) && r.rotation == Some(rotation.GetOr(0.0))
    ensures r.position == position.GetOr(DefaultNodePosition) && r.size == size.GetOr(DefaultTextSize)
  {
    Node(id.GetOr(freshId), Text, position.GetOr(DefaultNodePosition), size.GetOr(DefaultTextSize),
         Some(rotation.GetOr(0.0)))
  }

  /** A node of the requested type with every absent field defaulted;
      `freshId` stands for the id generated when none is given. */
  function CreateNodeByType(req: NodeRequest, freshId: string): (r: Node)
    ensures r.id == req.id.GetOr(freshId) && r.rotation == Some(req.rotation.GetOr(0.0))
    ensures req.position.Some? ==> r.position == req.position.value
    ensures req.size.Some? ==> r.size == req.size.value
    ensures req.request.GeometryRequest? <==> r.shape.Geometry?
    ensures req.request.TextRequest? <==> r.shape.Text?
    ensures req.request.ConnectorRequest? <==> r.shape.Connector?
    ensures r.shape.Connector? ==> r.shape.style == req.request.style
  {
    match req.request
    case TextRequest => CreateTextNode(req.id, req.position, req.size, req.rotation, freshId)
    case ConnectorRequest(mode, source, target, style) =>
      Node(req.id.GetOr(freshId),
           Connector(mode.GetOr(Free), source.GetOr(DefaultSourceEnd), target.GetOr(DefaultTargetEnd), style),
           req.position.GetOr(Origin), req.size.GetOr(Size(0.0, 0.0)), Some(req.rotation.GetOr(0.0)))
    case GeometryRequest(kind) =>
      CreateGeometryNode(req.id, kind, req.position, req.size, req.rotation, freshId)
  }

  /** What a request that gives nothing but the type produces. */
  lemma CreateDefaults(freshId: string)
    ensures CreateNodeByType(NodeRequest(None, GeometryRequest(None), None, None, None), freshId) ==
            Node(freshId, Geometry(RectKind), Point(120.0, 120.0), Size(160.0, 96.0), Some(0.0))
    ensures CreateNodeByType(NodeRequest(None, TextRequest, None, None, None), freshId) ==
            Node(freshId, Text, Point(120.0, 120.0), Size(180.0, 40.0), Some(0.0))
    ensures CreateNodeByType(NodeRequest(None, ConnectorRequest(None, None, None, NoStyle), None, None, None), freshId) ==
            Node(freshId, Connector(Free, Endpoint(None, None, None, Some(Point(80.0, 80.0))),
                                    Endpoint(None, None, None, Some(Point(240.0, 160.0))), NoStyle),
                 Point(0.0, 0.0), Size(0.0, 0.0), Some(0.0))
  {
  }

  function AddNodes(s: CanvasState, reqs: seq<NodeRequest>, freshIds: seq<string>, now: int): (r: CanvasState)
    requires |freshIds| == |reqs|
    ensures |r.nodes| == |s.nodes| + |reqs| && r.nodes[..|s.nodes|] == s.nodes
    ensures forall k :: 0 <= k < |reqs| ==> r.nodes[|s.nodes| + k] == CreateNodeByType(reqs[k], freshIds[k])
    ensures r == s.(nodes := r.nodes, updatedAt := now)
  {
    var created := seq(|reqs|, k requires 0 <= k < |reqs| => CreateNodeByType(reqs[k], freshIds[k]));
    s.(nodes := s.nodes + created, updatedAt := now)
  }

  function AddNode(s: CanvasState, req: NodeRequest, freshId: string, now: int): (r: CanvasState)
    ensures r.nodes == s.nodes + [CreateNodeByType(req, freshId)]
    ensures r == s.(nodes := r.nodes, updatedAt := now)
  {
    s.(nodes := s.nodes + [CreateNodeByType(req, freshId)], updatedAt := now)
  }

  /** A default geometry node of the given kind; an ellipse is 140 by 140. */
  function AddGeometry(s: CanvasState, kind: GeometryKind, freshId: string, now: int): (r: CanvasState)
    ensures |r.nodes| == |s.nodes| + 1 && r.nodes[..|s.nodes|] == s.nodes
    ensures r.nodes[|s.nodes|].shape == Geometry(kind) && r.nodes[|s.nodes|].position == DefaultNodePosition
    ensures r.nodes[|s.nodes|].size == if kind == EllipseKind then DefaultEllipseSize else DefaultGeometrySize
    ensures r == s.(nodes := r.nodes, updatedAt := now)
  {
    var size := if kind == EllipseKind then Some(DefaultEllipseSize) else None;
    s.(nodes := s.nodes + [CreateGeometryNode(None, Some(kind), None, size, None, freshId)], updatedAt := now)
  }

  /** A default text node; its text content is not modelled. */
  function AddText(s: CanvasState, freshId: string, now: int): (r: CanvasState)
    ensures |r.nodes| == |s.nodes| + 1 && r.nodes[..|s.nodes|] == s.nodes
    ensures r.nodes[|s.nodes|] == Node(freshId, Text, DefaultNodePosition, DefaultTextSize, Some(0.0))
    ensures r == s.(nodes := r.nodes, updatedAt := now)
  {
    s.(nodes := s.nodes + [CreateTextNode(None, None, None, None, freshId)], updatedAt := now)
  }

  // ---------------------------------------------------------------------
  // Updating nodes

  /** The fields a shallow patch of a node may carry; absent ones are left
      alone. The connector fields only mean something on a connector. */
  datatype NodePatch = NodePatch(position: Option<Point>, size: Option<Size>, rotation: Option<real>,
                                 mode: Option<ConnectorMode>, source: Option<Endpoint>, target: Option<Endpoint>)

  /** `{ ...node, ...patch }` */
  function Patched(n: Node, patch: NodePatch): (r: Node)
    ensures r.id == n.id
    ensures r.position == patch.position.GetOr(n.position) && r.size == patch.size.GetOr(n.size)
    ensures r.rotation == if patch.rotation.Some? then patch.rotation else n.rotation
    ensures r.shape.Connector? <==> n.shape.Connector?
    ensures !n.shape.Connector? ==> r.shape == n.shape
    ensures n.shape.Connector? ==>
              r.shape.mode == patch.mode.GetOr(n.shape.mode) && r.shape.source == patch.source.GetOr(n.shape.source) &&
              r.shape.target == patch.target.GetOr(n.shape.target) && r.shape.style == n.shape.style
  {
    var shape :=
      if n.shape.Connector? then
        Connector(patch.mode.GetOr(n.shape.mode), patch.source.GetOr(n.shape.source),
                  patch.target.GetOr(n.shape.target), n.shape.style)
      else n.shape;
    var rotation := if patch.rotation.Some? then patch.rotation else n.rotation;
    Node(n.id, shape, patch.position.GetOr(n.position), patch.size.GetOr(n.size), rotation)
  }

  /** Patches every node with id `id` and leaves the others alone; shared by
      the committing and the preview action. */
  function UpdateNode(s: CanvasState, id: string, patch: NodePatch, now: int): (r: CanvasState)
    ensures |r.nodes| == |s.nodes|
    ensures forall i :: 0 <= i < |s.nodes| ==>
              r.nodes[i] == if s.nodes[i].id == id then Patched(s.nodes[i], patch) else s.nodes[i]
    ensures r == s.(nodes := r.nodes, updatedAt := now)
  {
    var nodes := seq(|s.nodes|, i requires 0 <= i < |s.nodes| =>
                       if s.nodes[i].id == id then Patched(s.nodes[i], patch) else s.nodes[i]);
    s.(nodes := nodes, updatedAt := now)
  }

  datatype PositionUpdate = PositionUpdate(id: string, x: real, y: real)

  /** The entry a `Map` built from `updates` holds for `id`: the last one. */
  function PositionEntry(updates: seq<PositionUpdate>, id: string): (r: Option<PositionUpdate>)
    ensures r.None? <==> forall k :: 0 <= k < |updates| ==> updates[k].id != id
    ensures r.Some? ==> r.value.id == id
    ensures r.Some? ==> exists k :: 0 <= k < |updates| && updates[k] == r.value &&
                                    forall j :: k < j < |updates| ==> updates[j].id != id
  {
    FindLast(updates, (u: PositionUpdate) => u.id == id)
  }

  /** The entry is found from the end: an appended update wins when it names
      the id, otherwise the entry is the one before it. */
  lemma PositionEntrySnoc(updates: seq<PositionUpdate>, last: PositionUpdate, id: string)
    ensures PositionEntry(updates + [last], id) ==
            if last.id == id then Some(last) else PositionEntry(updates, id)
  {
    assert (updates + [last])[..|updates|] == updates;
  }

  function Moved(n: Node, updates: seq<PositionUpdate>): Node {
    match PositionEntry(updates, n.id)
    case None => n
    case Some(u) => n.(position := Point(u.x, u.y))
  }

  /** Moves the nodes listed in `updates`; shared by the committing and the
      preview action. */
  function UpdateNodesPosition(s: CanvasState, updates: seq<PositionUpdate>, now: int): (r: CanvasState)
    ensures |r.nodes| == |s.nodes|
    ensures forall i :: 0 <= i < |s.nodes| ==> r.nodes[i] == s.nodes[i].(position := r.nodes[i].position)
    ensures forall i :: 0 <= i < |s.nodes| && (forall k :: 0 <= k < |updates| ==> updates[k].id != s.nodes[i].id) ==>
              r.nodes[i] == s.nodes[i]
    ensures forall i, k :: 0 <= i < |s.nodes| && 0 <= k < |updates| && updates[k].id == s.nodes[i].id &&
                           (forall j :: k < j < |updates| ==> updates[j].id != s.nodes[i].id) ==>
              r.nodes[i].position == Point(updates[k].x, updates[k].y)
    ensures r == s.(nodes := r.nodes, updatedAt := now)
  {
    var nodes := seq(|s.nodes|, i requires 0 <= i < |s.nodes| => Moved(s.nodes[i], updates));
    s.(nodes := nodes, updatedAt := now)
  }

  /** Of two entries for the same node the later wins: a batch with one more
      entry at the end is the batch followed by that entry alone. */
  lemma {:induction false} LaterPositionWins(s: CanvasState, updates: seq<PositionUpdate>, last: PositionUpdate, now: int)
    ensures UpdateNodesPosition(s, updates + [last], now) ==
            UpdateNodesPosition(UpdateNodesPosition(s, updates, now), [last], now)
  {
    var a := UpdateNodesPosition(s, updates + [last], now);
    var b := UpdateNodesPosition(UpdateNodesPosition(s, updates, now), [last], now);
    forall i | 0 <= i < |s.nodes|
      ensures a.nodes[i] == b.nodes[i]
    {
      var id := s.nodes[i].id;
      PositionEntrySnoc(updates, last, id);
    }
  }

  datatype TransformUpdate = TransformUpdate(id: string, position: Option<Point>, size: Option<Size>,
                                             rotation: Option<real>)

  function TransformEntry(updates: seq<TransformUpdate>, id: string): (r: Option<TransformUpdate>)
    ensures r.None? <==> forall k :: 0 <= k < |updates| ==> updates[k].id != id
    ensures r.Some? ==> r.value.id == id
    ensures r.Some? ==> exists k :: 0 <= k < |updates| && updates[k] == r.value &&
                                    forall j :: k < j < |updates| ==> updates[j].id != id
  {
    FindLast(updates, (u: TransformUpdate) => u.id == id)
  }

  /** A node with the fields present in `u` replaced. */
  function Transformed(n: Node, u: TransformUpdate): (r: Node)
    ensures r.id == n.id && r.shape == n.shape
    ensures r.position == u.position.GetOr(n.position) && r.size == u.size.GetOr(n.size)
    ensures r.rotation == if u.rotation.Some? then u.rotation else n.rotation
  {
    Node(n.id, n.shape, u.position.GetOr(n.position), u.size.GetOr(n.size),
         if u.rotation.Some? then u.rotation else n.rotation)
  }

  /** Applies the listed transforms; shared by the committing and the preview
      action. */
  function UpdateNodesTransform(s: CanvasState, updates: seq<TransformUpdate>, now: int): (r: CanvasState)
    ensures |r.nodes| == |s.nodes|
    ensures forall i :: 0 <= i < |s.nodes| ==> r.nodes[i].id == s.nodes[i].id && r.nodes[i].shape == s.nodes[i].shape
    ensures forall i :: 0 <= i < |s.nodes| && (forall k :: 0 <= k < |updates| ==> updates[k].id != s.nodes[i].id) ==>
              r.nodes[i] == s.nodes[i]
    ensures forall i, k :: 0 <= i < |s.nodes| && 0 <= k < |updates| && updates[k].id == s.nodes[i].id &&
                           (forall j :: k < j < |updates| ==> updates[j].id != s.nodes[i].id) ==>
              r.nodes[i] == Transformed(s.nodes[i], updates[k])
    ensures r == s.(nodes := r.nodes, updatedAt := now)
  {
    var nodes := seq(|s.nodes|, i requires 0 <= i < |s.nodes| =>
                       match TransformEntry(updates, s.nodes[i].id)
                       case None => s.nodes[i]
                       case Some(u) => Transformed(s.nodes[i], u));
    s.(nodes := nodes, updatedAt := now)
  }

  /** Applying one transform twice is applying it once: the fields it gives
      are set, the others kept. */
  lemma TransformIdempotent(n: Node, u: TransformUpdate)
    ensures Transformed(Transformed(n, u), u) == Transformed(n, u)
  {
  }

  // ---------------------------------------------------------------------
  // Removing and adding scene entries

  /** Removes the node, every edge touching it and its id from the selection. */
  function RemoveNode(s: CanvasState, id: string, now: int): (r: CanvasState)
    ensures forall n :: n in r.nodes <==> n in s.nodes && n.id != id
    ensures forall e :: e in r.edges <==> e in s.edges && e.source != id && e.target != id
    ensures forall x :: x in r.selection.nodeIds <==> x in s.selection.nodeIds && x != id
    ensures r.nodes == Filter(s.nodes, (n: Node) => n.id != id)
    ensures r.edges == Filter(s.edges, (e: Edge) => e.source != id && e.target != id)
    ensures r.selection.nodeIds == Filter(s.selection.nodeIds, (x: string) => x != id)
    ensures r.selection == s.selection.(nodeIds := r.selection.nodeIds)
    ensures r == s.(nodes := r.nodes, edges := r.edges, selection := r.selection, updatedAt := now)
  {
    s.(nodes := Filter(s.nodes, (n: Node) => n.id != id),
       edges := Filter(s.edges, (e: Edge) => e.source != id && e.target != id),
       selection := s.selection.(nodeIds := Filter(s.selection.nodeIds, (x: string) => x != id)),
       updatedAt := now)
  }

  /** Removing the same node again changes nothing more. */
  lemma RemoveNodeIdempotent(s: CanvasState, id: string, now: int)
    ensures RemoveNode(RemoveNode(s, id, now), id, now) == RemoveNode(s, id, now)
  {
    var r := RemoveNode(s, id, now);
    FilterKeepsAll(r.nodes, (n: Node) => n.id != id);
    FilterKeepsAll(r.edges, (e: Edge) => e.source != id && e.target != id);
    FilterKeepsAll(r.selection.nodeIds, (x: string) => x != id);
  }

  function AddEdge(s: CanvasState, source: string, target: string, freshId: string, now: int): (r: CanvasState)
    ensures r.edges == s.edges + [Edge(freshId, source, target)]
    ensures r == s.(edges := r.edges, updatedAt := now)
  {
    s.(edges := s.edges + [Edge(freshId, source, target)], updatedAt := now)
  }

  /** Removes the edge and its id from the selection. */
  function RemoveEdge(s: CanvasState, id: string, now: int): (r: CanvasState)
    ensures forall e :: e in r.edges <==> e in s.edges && e.id != id
    ensures forall x :: x in r.selection.edgeIds <==> x in s.selection.edgeIds && x != id
    ensures r.edges == Filter(s.edges, (e: Edge) => e.id != id)
    ensures r.selection.edgeIds == Filter(s.selection.edgeIds, (x: string) => x != id)
    ensures r.selection == s.selection.(edgeIds := r.selection.edgeIds)
    ensures r == s.(edges := r.edges, selection := r.selection, updatedAt := now)
  {
    s.(edges := Filter(s.edges, (e: Edge) => e.id != id),
       selection := s.selection.(edgeIds := Filter(s.selection.edgeIds, (x: string) => x != id)),
       updatedAt := now)
  }

  function AddGroup(s: CanvasState, name: string, nodeIds: seq<string>, freshId: string, now: int): (r: CanvasState)
    ensures r.groups == s.groups + [Group(freshId, name, nodeIds)]
    ensures r == s.(groups := r.groups, updatedAt := now)
  {
    s.(groups := s.groups + [Group(freshId, name, nodeIds)], updatedAt := now)
  }

  // ---------------------------------------------------------------------
  // Selection and viewport

  function SetSelection(s: CanvasState, selection: Selection, now: int): (r: CanvasState)
    ensures r.selection == selection && r == s.(selection := selection, updatedAt := now)
  {
    s.(selection := selection, updatedAt := now)
  }

  /** Nothing selected, single mode, no box. */
  function ClearSelection(s: CanvasState, now: int): (r: CanvasState)
    ensures r.selection.nodeIds == [] && r.selection.edgeIds == [] && r.selection.groupIds == []
    ensures r.selection.mode == Single && r.selection.box.None?
    ensures r == s.(selection := r.selection, updatedAt := now)
  {
    s.(selection := Selection([], [], [], Single, None), updatedAt := now)
  }

  /** Removes a selected node id, or appends one not selected; the mode
      becomes multi either way. */
  function ToggleSelection(s: CanvasState, nodeId: string, now: int): (r: CanvasState)
    ensures nodeId in r.selection.nodeIds <==> nodeId !in s.selection.nodeIds
    ensures forall x :: x != nodeId ==> (x in r.selection.nodeIds <==> x in s.selection.nodeIds)
    ensures nodeId !in s.selection.nodeIds ==> r.selection.nodeIds == s.selection.nodeIds + [nodeId]
    ensures nodeId in s.selection.nodeIds ==>
              r.selection.nodeIds == Filter(s.selection.nodeIds, (x: string) => x != nodeId)
    ensures r.selection.mode == Multi
    ensures r.selection == s.selection.(nodeIds := r.selection.nodeIds, mode := Multi)
    ensures r == s.(selection := r.selection, updatedAt := now)
  {
    var ids := s.selection.nodeIds;
    var next := if nodeId in ids then Filter(ids, (x: string) => x != nodeId) else ids + [nodeId];
    s.(selection := s.selection.(mode := Multi, nodeIds := next), updatedAt := now)
  }

  /** Toggling an unselected id on and off again restores the selected ids. */
  lemma {:induction false} ToggleTwiceRestores(s: CanvasState, nodeId: string, now: int, later: int)
    requires nodeId !in s.selection.nodeIds
    ensures ToggleSelection(ToggleSelection(s, nodeId, now), nodeId, later).selection.nodeIds == s.selection.nodeIds
  {
    var ids := s.selection.nodeIds;
    var keep := (x: string) => x != nodeId;
    FilterAppend(ids, [nodeId], keep);
    FilterKeepsAll(ids, keep);
    assert Filter([nodeId], keep) == [];
  }

  /** Shows the rubber band and switches to multi mode. */
  function SetSelectionBox(s: CanvasState, box: Option<Rect>, now: int): (r: CanvasState)
    ensures r.selection.box == box && r.selection.mode == Multi
    ensures r.selection == s.selection.(box := box, mode := Multi)
    ensures r == s.(selection := r.selection, updatedAt := now)
  {
    s.(selection := s.selection.(box := box, mode := Multi), updatedAt := now)
  }

  function ClearSelectionBox(s: CanvasState, now: int): (r: CanvasState)
    ensures r.selection.box.None? && r.selection == s.selection.(box := None)
    ensures r == s.(selection := r.selection, updatedAt := now)
  {
    s.(selection := s.selection.(box := None), updatedAt := now)
  }

  function SetViewport(s: CanvasState, viewport: Viewport, now: int): (r: CanvasState)
    ensures r.viewport == viewport && r == s.(viewport := viewport, updatedAt := now)
  {
    s.(viewport := viewport, updatedAt := now)
  }
}
