# CoolDraw board engine in Dafny

This project models the interaction engine of the CoolDraw whiteboard editor. The engine turns pointer, wheel and key events into edits of a scene of geometry shapes, text boxes and connectors. It keeps an undo/redo ledger of scene snapshots beside the scene.

The model has five parts:

- **Geometry kernel.**
  - Selection bounds and control-handle layout.
  - Handle hit-testing.
  - The resize rule, with its minimum size and pinned opposite edge.
  - Screen/world conversion and wheel zoom about the cursor.
  - The rubber-band box.
  - Connector anchors, endpoint resolution, path building, bounds and hit-tests.

  Numbers are exact reals. `atan2`, `cos`, `sin` and `Math.hypot` are fields of a `Trig` value passed in; the model does not define them.
- **Selection merge.** The ordered, duplicate-free union of the kept ids and the ids a rubber band hits.
- **History ledger.** `past`/`present`/`future` with push, undo and redo. It is a value datatype plus a `History` class whose `state` field the operations reassign.
- **Scene store.**
  - Every action is a pure updater of `CanvasState` (module `StoreActions`).
  - A `Store` class holds the state and the ledger. It records one snapshot per action, except for the three preview actions.
- **Board controller.**
  - A `Board` class with one optional session field per kind of gesture, plus `boxStart`, `baseSelection` and `spacePressed`.
  - Pointer-down picks an interaction by priority. Moves preview it in the store; pointer-up commits it.
  - The computations the handlers perform live as functions in module `BoardSession`. Each handler's contract ties the new board and store state to those functions.

One module per source file, except:

- `src/shapes/connector-utils.ts` is split in two. `ConnectorPath` holds the path math. `ConnectorResolve` holds anchors and endpoint resolution, which need the shape registry.
- The board's pure computations are in `BoardSession`, and the `Board` class is in `BoardController`.
- `Util` and `Canvas` hold the shared datatypes and list helpers.

Where the source builds a result step by step, the model has a method proved equal to a specification function. The pure callers use that function. These methods are:

- `GetSelectionBounds` (a fold);
- `ResizeBounds` (reassigned locals);
- `BuildPathPoints` (a sampling loop);
- `FindAnchorAtPoint` (nested loops with early return);
- `HitTestLine` (a scan).

The time `Date.now()` and the ids `createId` generates are parameters (`now`, `freshId`). The `Trig` functions are a parameter. The wheel handler's cursor anchor is a parameter.

## Model

| member | source | states |
|---|---|---|
| ControlUtils.HandleSize | src/controls/utils.ts:16 | The handle size is at least 6 and at least 10/scale, and equals one of the two. |
| ControlUtils.MergedBounds | src/controls/utils.ts:18-34 | Absent exactly for an empty list. Otherwise it encloses every input rectangle, and each of its four sides coincides with the same side of some input. |
| ControlUtils.MergedBoundsLeast | src/controls/utils.ts:18-34 | Any rectangle enclosing all inputs encloses the merged bounds, so the merged bounds are the smallest enclosing box. |
| ControlUtils.GetSelectionBounds | src/controls/utils.ts:18-34 | The running min/max loop returns exactly `MergedBounds` of its input. |
| ControlUtils.ControlHandles | src/controls/utils.ts:36-72 | 8 scale handles in the order nw,n,ne,e,se,s,sw,w at the corners and edge midpoints, each with its cursor. A ninth rotate handle at (centre x, y − 2.2·handleSize) is present iff `includeRotate`. |
| ControlUtils.HitTestHandle | src/controls/utils.ts:74-93 | The result is absent iff no handle contains the point. Otherwise it is the first handle in list order that does: a closed square of half-size handleSize/2 for scale handles, a closed disk of that radius for rotate. |
| ControlUtils.HandleHitAtPosition | src/controls/utils.ts:74-93 | A point exactly on a handle hits it. |
| ControlUtils.Resized | src/controls/utils.ts:95-143 | The rotate handle returns `start`. For any other handle, with dx and dy the pointer delta: a handle with e has width max(width + dx, minSize) and one with w has max(width − dx, minSize); a handle with neither has max(width, minSize). Height follows the same rule with s, n and dy. West handles keep the right edge and north handles keep the bottom edge, clamped or not. Handles without w keep x; handles without n keep y. A zero pointer delta on a box already at least minSize returns it unchanged. |
| ControlUtils.ResizeBounds | src/controls/utils.ts:95-143 | The step-by-step reassignment of x, y, width, height equals `Resized`. |
| ControlUtils.ResizeSouthWestScenario | src/controls/utils.ts:105-142 | {0,0,100,50} dragged on sw from (0,50) to (−20,70) becomes {−20,0,120,70}. |
| ControlUtils.ResizeSouthEastGrows | src/controls/utils.ts:107-142 | Dragging se right and down yields a box enclosing the start box. |
| ControlUtils.ResizeSouthEastStrictlyGrows | src/controls/utils.ts:107-142 | Dragging se strictly right and down strictly grows both sides and keeps the top-left corner. |
| ControlUtils.RotationDelta | src/controls/utils.ts:145-149 | The delta is 0 when the pointer has not moved. |
| ControlUtils.RotatePoint | src/controls/utils.ts:151-160 | The centre is fixed, and a zero angle (cos 1, sin 0) leaves every point in place. |
| ControlUtils.RotatePointKeepsDistance | src/controls/utils.ts:151-160 | When cos²+sin² = 1, rotation preserves the squared distance to the centre. |
| BoardControls.SelectionRotation | src/board/controls.ts:20-22 | 0 unless exactly one id is selected and it names a node. Then it is that node's rotation, or 0 when the node has none. |
| BoardControls.RotatedHandles | src/board/controls.ts:27-33 | The same handles, in order, each moved by `RotatePoint` about the centre. |
| BoardControls.ScreenHandles | src/board/controls.ts:27-33 | The handles the pointer is tested against keep every id in order, and are the handles themselves when the rotation is 0. |
| BoardControls.RotateHandleOnlyWhenIncluded | src/board/controls.ts:19-34 | A handle with the Rotate id among the (possibly turned) control handles means the rotate handle was requested. |
| BoardControls.GetControlHit | src/board/controls.ts:10-39 | Absent iff `HitTestHandle` finds nothing among the handles as the pointer meets them (turned by the selection's rotation), and otherwise holds that handle. On a hit it reports the unrotated handle list, handle size `HandleSize(scale)`, the centre of the bounds, the selection's rotation and isSingle iff one id is selected. A rotate hit implies a single selection. |
| BoardControls.UnrotatedControlHit | src/board/controls.ts:27-38 | With rotation 0 the result is absent iff plain `HitTestHandle` over the control handles finds nothing, and otherwise holds the same handle. |
| BoardHelpers.ScreenToWorld | src/board/helpers.ts:6-9 | The result maps back to the screen point: `WorldToScreen(v, ScreenToWorld(v, p)) == p`. |
| BoardHelpers.ScreenToWorldInverse | src/board/helpers.ts:6-9 | `ScreenToWorld(v, w·scale + (x,y)) == w` for scale ≠ 0. |
| BoardHelpers.GetNodeBounds | src/board/helpers.ts:11-27 | Non-connectors use their position/size box. A connector's box is exactly `BoundsFromPoints` (padding 6) of the path between its resolved endpoints with its line type, so both endpoints lie at least 6 units in from every side. |
| BoardHelpers.FreeConnectorBoundsAgree | src/board/helpers.ts:11-27 | For a connector with no attached end, the board's bounds equal the connector type's own bounds. |
| BoardHelpers.GetSelectedBounds | src/board/helpers.ts:29-33 | Absent iff no node's id is among the ids. Otherwise it encloses the bounds of every selected node. |
| BoardHelpers.SelectedBoundsFacts | src/board/helpers.ts:29-33 | The same two facts, stated on the merge of the filtered node list. |
| BoardHelpers.SelectedBoundsIgnoreMissing | src/board/helpers.ts:29-33 | Adding an id that names no node leaves the selected bounds unchanged. |
| BoardHelpers.NormalizeBox | src/board/helpers.ts:35-41 | Non-negative size, origin at the componentwise minimum, far corner at the maximum, both corners inside. |
| BoardHelpers.NormalizeBoxSymmetric | src/board/helpers.ts:35-41 | The box does not depend on the order of its two corners. |
| BoardHelpers.Intersects | src/board/helpers.ts:43-56 | No box, no intersection. |
| BoardHelpers.IntersectsSymmetric | src/board/helpers.ts:43-56 | The overlap test is symmetric in its two rectangles. |
| BoardHelpers.IntersectsIffCommonPoint | src/board/helpers.ts:43-56 | For rectangles of non-negative size, the test holds iff some point lies in both closed rectangles, so touching edges count. |
| SelectionMerge.MergeSelectionIds | src/board/selection.ts:1-2 | No duplicates, and an id is in the result iff it is in `base` or in `hitIds`. |
| SelectionMerge.MergeOrder | src/board/selection.ts:1-2 | The result is base's first occurrences in order, followed by the hit ids not in base, in order. |
| SelectionMerge.DedupAppend | src/board/selection.ts:1-2 | Deduplicating `a + b` is deduplicating `a`, then the deduplicated elements of `b` not in `a`. |
| SelectionMerge.MergeSelf | src/board/selection.ts:1-2 | `mergeSelectionIds(A, A) == A` for a duplicate-free A. |
| SelectionMerge.MergeIdempotent | src/board/selection.ts:1-2 | `merge(merge(A, B), B) == merge(A, B)`. |
| ViewportZoom.NextScale | src/board/viewport.ts:9-12 | The next scale is in [0.2, 4], and equals `scale·(1 − deltaY·0.0015)` whenever that lies in range. |
| ViewportZoom.NextViewportFromWheel | src/board/viewport.ts:3-20 | Scale in [0.2, 4] and equal to `NextScale`. The world point under the anchor maps back to the anchor. |
| ViewportZoom.AnchorStaysPut | src/board/viewport.ts:13-19 | The anchor shows the same world point before and after the zoom. |
| ViewportZoom.ZeroDeltaKeepsViewport | src/board/viewport.ts:9-19 | A zero delta returns the same viewport when its scale is in range. |
| ViewportZoom.WheelDirection | src/board/viewport.ts:9-12 | For a scale in range, a negative delta never decreases the scale and a positive delta never increases it. |
| ViewportZoom.NextScaleMonotone | src/board/viewport.ts:9-12 | For a positive scale, a larger delta never gives a larger next scale. |
| ViewportZoom.ZoomInScenario | src/board/viewport.ts:8-19 | {0,0,1} with deltaY −100 at (50,50) gives scale 1.15 and offset (−7.5,−7.5), and (50,50) maps back to (50,50). |
| ViewportZoom.ZoomInScale | src/board/viewport.ts:8-12 | One notch of −100 from scale 1 gives 1.15. |
| GeometryShape.GetBounds | src/shapes/geometry.ts:4-9 | The bounds are exactly position and size. |
| GeometryShape.HitTestRect | src/shapes/geometry.ts:11-19 | A hit iff the point is in the closed bounds, all four edges included. |
| GeometryShape.HitTestEllipse | src/shapes/geometry.ts:21-33 | Never a hit for zero width or height. For non-zero size, a point is a hit exactly when it lies in the closed ellipse inscribed in the box, stated without division: (px − cx)²·ry² + (py − cy)²·rx² ≤ rx²·ry². The centre is a hit. |
| GeometryShape.EllipseCleared | src/shapes/geometry.ts:30-32 | For non-zero radii, (a/rx)² + (b/ry)² ≤ 1 holds exactly when a²·ry² + b²·rx² ≤ rx²·ry². |
| GeometryShape.EllipseInsideRect | src/shapes/geometry.ts:21-33 | For positive size every ellipse hit is also a rectangle hit. |
| GeometryShape.HitTest | src/shapes/geometry.ts:91-94 | The ellipse test iff the kind is ellipse, the rectangle test otherwise. |
| TextShape.GetBounds | src/shapes/text.ts:4-9 | The bounds are exactly position and size. |
| TextShape.HitTest | src/shapes/text.ts:11-19 | A hit iff the point is in the closed bounds. |
| TextShape.CornersHit | src/shapes/text.ts:11-19 | All four corners of a text box of non-negative size are hits. |
| ShapeRegistry.Bounds | src/shapes/registry.ts:18-19 | Dispatch on the node type: the position/size box for geometry and text, the connector's own bounds for connectors. |
| ShapeRegistry.HitTest | src/shapes/registry.ts:18-19 | Dispatch on the node type: closed box for text and rect, ellipse for ellipse, line test for connectors. |
| ShapeRegistry.TraitsOf | src/shapes/text.ts:64-67 | Text is draggable and text-editable but neither resizable nor rotatable. Geometry is draggable, resizable and rotatable. Connectors declare no traits. |
| ConnectorPath.EndpointPosition | src/shapes/connector-utils.ts:81-82 | The literal position, or the origin when absent, even for an attached end. |
| ConnectorPath.LineTypeOf | src/shapes/connector-utils.ts:98-99 | The line type defaults to curve. |
| ConnectorPath.CurveControl | src/shapes/connector-utils.ts:108-118 | When the two ends coincide (and hypot(0,0) = 0), the control point is that point. |
| ConnectorPath.PathPoints | src/shapes/connector-utils.ts:120-145 | Straight gives 2 points. Orthogonal gives 4, with points 1 and 2 at midX, at source y and target y. Curve gives 21. Every path starts at the source and ends at the target. |
| ConnectorPath.BuildPathPoints | src/shapes/connector-utils.ts:120-145 | The sampling loop builds exactly `PathPoints`. |
| ConnectorPath.BoundsFromPoints | src/shapes/connector-utils.ts:147-160 | For a non-empty list, every point lies at least `padding` inside each side, and each side sits exactly `padding` beyond some point. |
| ConnectorPath.BoundsContainPoints | src/shapes/connector-utils.ts:147-160 | With non-negative padding every point is in the bounds. |
| ConnectorPath.BoundsFromExtremes | src/shapes/connector-utils.ts:147-160 | The bounds are determined by the extreme coordinates alone. |
| ConnectorPath.PathBoundsHoldEnds | src/shapes/connector-utils.ts:120-160 | A path's padded bounds hold both ends `padding` in from the sides. |
| ConnectorPath.HitTestEndpoint | src/shapes/connector-utils.ts:198-214 | "source" iff the source is within the radius, even when the target is too. "target" iff only the target is. Absent iff neither is. |
| ConnectorPath.DistanceToSegment | src/shapes/connector-utils.ts:216-227 | Zero at either end of the segment when hypot(0,0) = 0. |
| ConnectorPath.HitTestLine | src/shapes/connector-utils.ts:229-236 | The scan answers true iff some segment is within the threshold. |
| ConnectorPath.LineHitAtEnds | src/shapes/connector-utils.ts:229-236 | With a non-negative threshold, the first and last points of a path are hits. |
| ConnectorPath.Direction | src/shapes/connector-utils.ts:249-253 | The returned vector times the segment's hypot (or 1 when the hypot is 0) gives back the segment vector from `from` to `to`. |
| ConnectorPath.ArrowDirection | src/shapes/connector-utils.ts:244-254 | (1,0) for fewer than two points. Otherwise the Direction of the first segment towards the source point when atStart, else of the last segment towards the target point. |
| ConnectorPath.DirectionUnit | src/shapes/connector-utils.ts:249-253 | When hypot is the Euclidean length of a non-zero segment, the direction is a unit vector. |
| ConnectorPath.BuildArrowPath | src/shapes/connector-utils.ts:256-264 | The tip is the point and the back is `size` (default 10) behind it along dir. The left barb sits 0.6·size from the back along the normal (−dir.y, dir.x). The barbs are symmetric about the back and perpendicular to dir. |
| ConnectorPath.ResolveConnectorMode | src/shapes/connector-utils.ts:266-267 | "linked" iff both endpoints carry a non-empty nodeId. |
| ConnectorResolve.DefaultAnchors | src/shapes/connector-utils.ts:17-27 | Anchors c,n,e,s,w in order, at the centre and the four edge midpoints. |
| ConnectorResolve.PickDefaultAnchor | src/shapes/connector-utils.ts:64-67 | Among the default anchors, an id picks its own anchor, and any other id (or none) the centre: the point `NamedAnchorPoint` names. |
| ConnectorResolve.FindNodeAnchor | src/shapes/connector-utils.ts:176-193 | The inner loop over one node's anchors returns exactly that node's first anchor in reach. |
| ConnectorResolve.ResolveEndpoint | src/shapes/connector-utils.ts:50-79 | With no nodeId or an unknown node, the literal position (origin if absent). For an existing unrotated node, the named anchor (unknown ids fall back to c, the centre) plus the offset (default 0,0). |
| ConnectorResolve.ConnectorPoints | src/shapes/connector-utils.ts:101-106 | Both ends resolved against the scene; the line type defaults to curve. |
| ConnectorResolve.FirstAnchorWithin | src/shapes/connector-utils.ts:162-196 | The first anchor of one node, in order, whose drawn position is within squared radius; absent iff none is. |
| ConnectorResolve.AnchorAt | src/shapes/connector-utils.ts:162-196 | Any anchor returned is within the radius and belongs to a non-connector node. It is the first hit in node-then-anchor order. The result is absent iff no non-connector node has one. |
| ConnectorResolve.FindAnchorAtPoint | src/shapes/connector-utils.ts:162-196 | The nested loops with early return compute exactly `AnchorAt`. |
| ConnectorShape.LiteralPath | src/shapes/connector.ts:154-168 | The path runs from the literal source position to the literal target position. |
| ConnectorShape.HitTest | src/shapes/connector.ts:154-161 | A line hit with threshold strokeWidth (default 2) + 4, along a path of the default curve type. |
| ConnectorShape.HitAtEndpoints | src/shapes/connector.ts:154-161 | Both literal endpoint positions are hits for a non-negative stroke width. |
| ConnectorShape.GetBounds | src/shapes/connector.ts:162-168 | The bounds hold both literal endpoint positions 6 units in from the sides. |
| ConnectorShape.StraightBounds | src/shapes/connector.ts:162-168 | For straight and orthogonal connectors, the bounds are exactly the box of the two ends padded by 6. |
| HistoryLedger.Ledger.Pushed | src/store/history/history.ts:14-20 | The new present is `next` and future is empty. The timeline is the old past, the old present, then `next`. |
| HistoryLedger.Ledger.Undone | src/store/history/history.ts:22-33 | No change with an empty past. Otherwise the last of past becomes present, past shrinks by one, and the timeline is unchanged. |
| HistoryLedger.Ledger.Redone | src/store/history/history.ts:35-46 | No change with an empty future. Otherwise the head of future becomes present, past grows by one, and the timeline is unchanged. |
| HistoryLedger.TimelineFixed | src/store/history/history.ts:22-46 | Undo and redo keep the whole timeline, so the total number of snapshots is kept too, and the present stays the entry at the cursor. |
| HistoryLedger.UndoThenRedo | src/store/history/history.ts:22-46 | With a non-empty past, redo after undo restores the ledger. |
| HistoryLedger.RedoThenUndo | src/store/history/history.ts:22-46 | With a non-empty future, undo after redo restores the ledger. |
| HistoryLedger.PushThenUndo | src/store/history/history.ts:14-33 | Undo right after a push returns to the old past and present, with the pushed snapshot as the only redo. |
| HistoryLedger.PushThenRedo | src/store/history/history.ts:14-46 | Redo right after a push changes nothing. |
| HistoryLedger.History.constructor | src/store/history/history.ts:7-12 | The ledger starts as ([], initial, []). |
| HistoryLedger.History.Push | src/store/history/history.ts:14-20 | The ledger becomes `old.Pushed(next)`. |
| HistoryLedger.History.Undo | src/store/history/history.ts:22-33 | The ledger becomes `old.Undone()`, and the new present is returned. |
| HistoryLedger.History.Redo | src/store/history/history.ts:35-46 | The ledger becomes `old.Redone()`, and the new present is returned. |
| HistoryLedger.History.GetState | src/store/history/history.ts:48 | Returns the ledger. |
| StoreActions.InitialState | src/store/canvasStore.ts:16-32 | Empty scene, empty single-mode selection without box, viewport (0,0,1), stamped `now`. |
| StoreActions.CreateGeometryNode | src/store/canvasStore.ts:52-62 | Each absent field takes its default: rect, (120,120), 160×96, rotation 0, a fresh id. |
| StoreActions.CreateTextNode | src/store/canvasStore.ts:64-71 | Each absent field takes its default: (120,120), 180×40, rotation 0, a fresh id. |
| StoreActions.CreateNodeByType | src/store/canvasStore.ts:73-95 | The node type follows the request. Given id, position, size and style are kept, and rotation defaults to 0. |
| StoreActions.CreateDefaults | src/store/canvasStore.ts:52-95 | Bare requests give a rect at (120,120) of 160×96, a text box of 180×40, and a free connector from (80,80) to (240,160). |
| StoreActions.AddNodes | src/store/canvasStore.ts:98-104 | The created nodes are appended in request order; the rest is unchanged. |
| StoreActions.AddNode | src/store/canvasStore.ts:105-111 | One created node is appended; the rest is unchanged. |
| StoreActions.AddGeometry | src/store/canvasStore.ts:112-124 | Appends a geometry node of the kind at (120,120): 140×140 for an ellipse, 160×96 otherwise. |
| StoreActions.AddText | src/store/canvasStore.ts:125-134 | Appends a default text node. |
| StoreActions.Patched | src/store/canvasStore.ts:135-143 | Shallow merge: the fields the patch gives replace the node's, and the others, the id and the node type are kept. |
| StoreActions.UpdateNode | src/store/canvasStore.ts:135-155 | Nodes with that id are patched; every other node and every other state field are unchanged. |
| StoreActions.PositionEntry | src/store/canvasStore.ts:156-174 | The update a Map keyed by id keeps for a node: absent iff no entry names it, else the last entry that does. |
| StoreActions.UpdateNodesPosition | src/store/canvasStore.ts:156-174 | Only positions change. A node no entry names is unchanged, and a named node takes the position of the last entry naming it. |
| StoreActions.LaterPositionWins | src/store/canvasStore.ts:156-174 | A batch with an extra final entry equals the batch followed by that entry alone. |
| StoreActions.TransformEntry | src/store/canvasStore.ts:175-233 | The transform a Map keyed by id keeps: absent iff unnamed, else the last entry. |
| StoreActions.Transformed | src/store/canvasStore.ts:175-233 | Position, size and rotation each take the update's value when present and keep the old one when absent. |
| StoreActions.UpdateNodesTransform | src/store/canvasStore.ts:175-233 | Unnamed nodes are unchanged, and named nodes get their last entry's transform. Ids and types are kept. |
| StoreActions.TransformIdempotent | src/store/canvasStore.ts:175-233 | Applying the same transform twice equals applying it once. |
| StoreActions.RemoveNode | src/store/canvasStore.ts:258-271 | Removes the node, every edge with it as source or target, and its id from the selected node ids. The survivors keep their order and repeats (`Filter`); nothing else changes. |
| StoreActions.RemoveNodeIdempotent | src/store/canvasStore.ts:258-271 | Removing the same id twice equals removing it once. |
| StoreActions.AddEdge | src/store/canvasStore.ts:272-278 | Appends the edge with a fresh id. |
| StoreActions.RemoveEdge | src/store/canvasStore.ts:279-289 | Removes the edge and its id from the selected edge ids. The survivors keep their order and repeats (`Filter`); nothing else changes. |
| StoreActions.AddGroup | src/store/canvasStore.ts:290-296 | Appends the group with a fresh id. |
| StoreActions.SetSelection | src/store/canvasStore.ts:297-303 | Replaces the selection only. |
| StoreActions.ClearSelection | src/store/canvasStore.ts:304-315 | Empty id lists, single mode, no box. |
| StoreActions.ToggleSelection | src/store/canvasStore.ts:316-331 | The id is selected afterwards iff it was not before. An absent id is appended at the end; a present one is filtered out, the others keeping their order. Other ids keep their membership. The mode becomes multi. |
| StoreActions.ToggleTwiceRestores | src/store/canvasStore.ts:316-331 | Toggling an unselected id twice restores the selected node ids exactly. |
| StoreActions.SetSelectionBox | src/store/canvasStore.ts:332-342 | Sets the box and forces multi mode. |
| StoreActions.ClearSelectionBox | src/store/canvasStore.ts:343-352 | Removes the box only. |
| StoreActions.SetViewport | src/store/canvasStore.ts:353-359 | Replaces the viewport only. |
| CanvasStore.Store.constructor | src/store/canvasStore.ts:16-35 | Store and ledger both start from the initial state. |
| CanvasStore.Store.SetState | src/store/canvasStore.ts:37-43 | The state becomes `next`. The ledger gets exactly one push when `pushHistory` is set and is untouched otherwise. |
| CanvasStore.Store.UpdateState | src/store/canvasStore.ts:45-50 | The state becomes the updater applied to the old state, with the same history gating. |
| CanvasStore.Store.UpdateNode | src/store/canvasStore.ts:135-143 | `StoreActions.UpdateNode`, with one snapshot pushed. |
| CanvasStore.Store.UpdateNodePreview | src/store/canvasStore.ts:144-155 | `StoreActions.UpdateNode`, with no snapshot pushed. |
| CanvasStore.Store.UpdateNodesPosition | src/store/canvasStore.ts:156-174 | `StoreActions.UpdateNodesPosition`, with one snapshot pushed. |
| CanvasStore.Store.UpdateNodesPositionPreview | src/store/canvasStore.ts:234-257 | `StoreActions.UpdateNodesPosition`, with no snapshot pushed. |
| CanvasStore.Store.UpdateNodesTransformCommit | src/store/canvasStore.ts:206-233 | `StoreActions.UpdateNodesTransform`, with one snapshot pushed. |
| CanvasStore.Store.UpdateNodesTransformPreview | src/store/canvasStore.ts:175-205 | `StoreActions.UpdateNodesTransform`, with no snapshot pushed. |
| CanvasStore.Store.AddNodes | src/store/canvasStore.ts:98-104 | The pure action, with one snapshot pushed. |
| CanvasStore.Store.AddNode | src/store/canvasStore.ts:105-111 | The pure action, with one snapshot pushed. |
| CanvasStore.Store.AddGeometry | src/store/canvasStore.ts:112-124 | The pure action, with one snapshot pushed. |
| CanvasStore.Store.AddText | src/store/canvasStore.ts:125-134 | The pure action, with one snapshot pushed. |
| CanvasStore.Store.RemoveNode | src/store/canvasStore.ts:258-271 | The pure action, with one snapshot pushed. |
| CanvasStore.Store.AddEdge | src/store/canvasStore.ts:272-278 | The pure action, with one snapshot pushed. |
| CanvasStore.Store.RemoveEdge | src/store/canvasStore.ts:279-289 | The pure action, with one snapshot pushed. |
| CanvasStore.Store.AddGroup | src/store/canvasStore.ts:290-296 | The pure action, with one snapshot pushed. |
| CanvasStore.Store.SetSelection | src/store/canvasStore.ts:297-303 | The pure action, with one snapshot pushed. |
| CanvasStore.Store.ClearSelection | src/store/canvasStore.ts:304-315 | The pure action, with one snapshot pushed. |
| CanvasStore.Store.ToggleSelection | src/store/canvasStore.ts:316-331 | The pure action, with one snapshot pushed. |
| CanvasStore.Store.SetSelectionBox | src/store/canvasStore.ts:332-342 | The pure action, with one snapshot pushed. |
| CanvasStore.Store.ClearSelectionBox | src/store/canvasStore.ts:343-352 | The pure action, with one snapshot pushed. |
| CanvasStore.Store.SetViewport | src/store/canvasStore.ts:353-359 | The pure action, with one snapshot pushed. |
| CanvasStore.Store.Reset | src/store/canvasStore.ts:360-362 | Back to the initial state, with one snapshot pushed. |
| CanvasStore.Store.Undo | src/store/canvasStore.ts:363-366 | The ledger steps back, the state shows its present, and nothing is pushed. |
| CanvasStore.Store.Redo | src/store/canvasStore.ts:367-370 | The ledger steps forward, the state shows its present, and nothing is pushed. |
| BoardSession.RouteDown | src/board/Board.ts:113-259 | Pan iff space is held or button 1. A control start only for a non-empty, connector-free selection with bounds and a handle hit. The node routes (connector grab within 8/scale of an end, connector select, shift toggle, drag) need a target id. A band otherwise. |
| BoardSession.ControlStartCondition | src/board/Board.ts:128-173 | A control drag starts iff there is no pan, a non-empty selection with bounds and no connector, and a handle hit. |
| BoardSession.RotateOnlyForSingle | src/board/Board.ts:128-173 | A control drag on the rotate handle only happens for a single selected node. |
| BoardSession.BaseNodesOf | src/board/Board.ts:146-155 | A snapshot for exactly the nodes whose id is selected, holding their position, size and rotation (default 0). |
| BoardSession.BaseFor | src/board/Board.ts:146-155 | The snapshot the record holds for an id: absent iff none was taken, else one taken for that id. |
| BoardSession.BaseForSelected | src/board/Board.ts:146-155 | A snapshot exists iff the id is selected and names a node, and it is that node's transform. |
| BoardSession.StartRotation | src/board/Board.ts:156-159 | The single selected node's snapshot rotation, and 0 for a multi-selection. |
| BoardSession.ControlSessionFor | src/board/Board.ts:160-168 | The session records the handle, the selected ids, the world pointer, the bounds, the snapshots and the start rotation. |
| BoardSession.DragBase | src/board/Board.ts:231-236 | The base position of exactly the dragged ids that name a node. |
| BoardSession.DragBaseCaptures | src/board/Board.ts:217-245 | A drag captures a position iff the id is dragged and names a node, and it is that node's position. |
| BoardSession.DragUpdates | src/board/Board.ts:346-352 | One update per captured position, shifted by the same delta. |
| BoardSession.DragEntry | src/board/Board.ts:346-352 | The update for an id after shifting is its captured entry shifted. |
| BoardSession.DragTranslates | src/board/Board.ts:342-355 | A drag step moves every captured node to its base plus the world delta and leaves every other node unchanged. |
| BoardSession.RotateUpdates | src/board/Board.ts:266-277 | One update of the first target only: base rotation + delta about the start bounds' centre. Absent iff there is no target or no snapshot. |
| BoardSession.RotateChangesOnlyFirstTarget | src/board/Board.ts:266-277 | After a rotation step only `targetIds[0]` changes, and only its rotation. |
| BoardSession.ScaledTransform | src/board/Board.ts:285-302 | A target's offset from the new bounds' origin, times the old width (height), equals its old offset times the new width (height). Its width (height) times the old width (height) equals its old width (height) times the new one. Its rotation is kept. |
| BoardSession.ScaledFillsBounds | src/board/Board.ts:285-302 | A node that filled the start bounds fills the new bounds. |
| BoardSession.GroupResizeScenario | src/board/Board.ts:261-306 | Two nodes filling bounds (0, 0, 100, 100), east handle dragged 100 to the right: the node at offset (50, 0) moves to (100, 0) and both widths double from 50 to 100. |
| BoardSession.ScaledIdentity | src/board/Board.ts:285-302 | Unchanged bounds leave every target's transform as captured. |
| BoardSession.ResizeUpdates | src/board/Board.ts:279-304 | One scaled transform per target, in order; absent iff some target has no snapshot. |
| BoardSession.ControlUpdates | src/board/Board.ts:261-306 | The computation succeeds iff `ControlCompletes`. Rotate gives `RotateUpdates`; other handles give `ResizeUpdates` into `Resized(..., 20)`. |
| BoardSession.ControlStartCompletes | src/board/Board.ts:128-173 | A control session started on a selection of existing nodes of positive size can always be computed. |
| BoardSession.DraggedEnd | src/board/Board.ts:313-317 | On the anchor hit, the end is {nodeId, anchorId}. Otherwise it is free at the world point. |
| BoardSession.ConnectorPatch | src/board/Board.ts:318-326 | Only the dragged end is replaced, the other is kept from the base connector, and the mode is recomputed from both. |
| BoardSession.AnchoredEndMode | src/board/Board.ts:318-326 | An end dropped on an anchor makes the connector linked iff the other end is attached. |
| BoardSession.FreeEndMode | src/board/Board.ts:318-326 | An end dropped on empty canvas makes the connector free. |
| BoardSession.BoxHits | src/board/Board.ts:469-472 | The ids of exactly the nodes whose board bounds the band touches, as `Map(Filter(nodes, InBand), id)`: in scene order. |
| BoardSession.HitsAmongIsFilterMap | src/board/Board.ts:469-472 | The recursive scan equals the filter-then-map over the nodes, so the hits keep the scene order and its repeats. |
| BoardSession.BoxSelection | src/board/Board.ts:473-480 | `mergeSelectionIds(baseSelection, hits)`; multi mode iff more than one id; no box. |
| BoardSession.BandRelease | src/board/Board.ts:461-481 | A click (both sides < 3/scale) with no kept ids gives exactly `ClearSelection`; otherwise the merged selection of the kept ids and the band's hits is set. Nothing else but the time changes. |
| BoardSession.SoleSelection | src/board/Board.ts:182-188 | Only the given node, single mode, no box. |
| BoardSession.BandSelection | src/board/Board.ts:252-258 | The kept ids, multi mode, and a zero-size box at the pointer. |
| BoardController.Board.constructor | src/board/Board.ts:66-77 | Every session field is empty and space is not held. |
| BoardController.Board.OnPointerDown | src/board/Board.ts:113-259 | Performs `Started` for `RouteDown`'s pick: the new session fields, store state and ledger. An idle board ends with at most one gesture. |
| BoardController.Board.Start | src/board/Board.ts:113-259 | Per route, performs exactly `Started`'s outcome. A pan resets box, kept ids and drag, and mutates nothing in the store. A toggle starts no drag. A drag selects an unselected target alone. |
| BoardController.Board.OnPointerMove | src/board/Board.ts:260-364 | Priority control > connector > pan > drag > band. Drag, control and connector previews push no snapshot; pan and band steps push one. Session fields and scale are unchanged. |
| BoardController.Board.OnPointerUp | src/board/Board.ts:366-485 | Performs `Released`: pan only ends, the others commit (one snapshot each, two for a band). A single gesture that can be computed leaves the board idle. |
| BoardController.Board.ReleaseControl | src/board/Board.ts:372-417 | Commits `ControlUpdates` and closes the session; when they cannot be computed, nothing changes. |
| BoardController.Board.ReleaseConnector | src/board/Board.ts:419-440 | Commits the connector patch for the anchor under the pointer (if any) and closes the session. |
| BoardController.Board.ReleaseBand | src/board/Board.ts:458-484 | Records `BandRelease`, then clears the box. `boxStart` and `baseSelection` are reset. |
| BoardController.Board.Gesture | src/board/Board.ts:113-485 | Down, any number of moves and up on an idle board leave it idle again. |
| BoardController.Board.OnPointerMoves | src/board/Board.ts:260-364 | A sequence of moves keeps the viewport scale. |
| BoardController.Board.OnWheel | src/board/Board.ts:487-494 | Sets the viewport to `NextViewportFromWheel` at the anchor, with one snapshot pushed. |
| BoardController.Board.OnKeyDown | src/board/Board.ts:496-500 | Space sets `spacePressed`; other keys and the session fields are left alone. |
| BoardController.Board.OnKeyUp | src/board/Board.ts:502-506 | Space clears `spacePressed`; other keys and the session fields are left alone. |

## Left out

- Rendering (the Pixi renderer, node views, the `render` methods, dashed paths and arrow drawing), styles and `parseColor`. These are graphics side effects and colour parsing.
- The React UI and the older pointer state machine in the UI component. The subscriber/emitter plumbing of the store. `Board.mount`/`unmount`, the engine event wiring and `setState` forwarding to the renderer.
- The DOM part of `onWheel`: `preventDefault` and the anchor computed from the container's client rectangle. The anchor is a parameter.
- `registerShape`: the registry is a closed dispatch on the three built-in node types.
- Node `data`, text content, style fields other than line type and stroke width, edge labels and data, and node ids changed by a patch.
- A patch's connector fields applied to a non-connector node are dropped, since such a node has no place for them.
- `Selection.mode` is always present. The sessions' `active` flags are the presence of the optional session fields.
- JavaScript doubles: rounding, `Infinity` and `NaN` are not modelled; numbers are exact reals.
- The insertion order of `Object.entries` for integer-like keys. The drag's base positions are in scene order.
- `atan2`, `cos`, `sin` and `hypot` are only passed in. Properties on paths that use them are stated under explicit assumptions about them, such as cos²+sin² = 1, hypot(0,0) = 0, or hypot as the Euclidean length.
- Removing a node does not touch connectors whose endpoints name it; `removeNode` (src/store/canvasStore.ts:258-271) prunes only edges and the selected node ids.
- BoardHelpers.ScreenToWorld: requires a non-zero scale. The source divides and would produce `Infinity`/`NaN` at scale 0. The same holds for every board handler and for `ViewportZoom.NextViewportFromWheel`.
- BoardController.Board.OnPointerMove: requires, through `Ready()`, non-zero start bounds for a resize, because the source's `sx`/`sy` division would give `Infinity`/`NaN`. The same holds for `BoardController.Board.OnPointerUp`.
- BoardSession.ControlUpdates: when a target has no snapshot, the source throws a `TypeError` from inside the handler. The model returns no updates, and the handler changes nothing and keeps the session open.
- BoardSession.StartRotation: returns 0 when the single selected id has no snapshot, where the source would throw. This cannot happen once the selection has bounds.
- BoardController.Board.Gesture: proves the return to idle only when every selected id names a node and every node has positive size. In other cases a control release can fail as described above and leave its session open.
- BoardController.Board.OnPointerMoves: states only that the viewport scale is kept. What each move does is stated by `OnPointerMove`.
