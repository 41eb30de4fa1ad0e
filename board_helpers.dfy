/** The board's geometric helpers: screen/world conversion, the bounds of a
    node as the board sees it (connectors through their resolved ends), the
    bounds of a selection, and the rubber-band box. */
module BoardHelpers {
  import opened Util
  import opened Canvas
  import opened ControlUtils
  import opened ConnectorPath
  import opened ConnectorResolve
  import ShapeRegistry
  import ConnectorShape

  /** Where a world point appears on screen: `world * scale + (x, y)`. */
  function WorldToScreen(v: Viewport, w: Point): Point {
    Point(w.x * v.scale + v.x, w.y * v.scale + v.y)
  }

  /** The world point under a screen point. */
  function ScreenToWorld(v: Viewport, p: Point): (w: Point)
    requires v.scale != 0.0
    ensures WorldToScreen(v, w) == p
  {
    DivideThenMultiply(p.x - v.x, v.scale);
    DivideThenMultiply(p.y - v.y, v.scale);
    Point((p.x - v.x) / v.scale, (p.y - v.y) / v.scale)
  }

  lemma DivideThenMultiply(a: real, s: real)
    requires s != 0.0
    ensures (a / s) * s == a
  {
  }

  /** Converting to the screen and back gives the world point again. */
  lemma ScreenToWorldInverse(v: Viewport, w: Point)
    requires v.scale != 0.0
    ensures ScreenToWorld(v, WorldToScreen(v, w)) == w
  {
    assert (w.x * v.scale + v.x - v.x) / v.scale == w.x;
    assert (w.y * v.scale + v.y - v.y) / v.scale == w.y;
  }

  /** The bounds the board uses for a node: a connector's are those of the
      path between its resolved ends, padded by 6; other nodes use their
      type's bounds. */
  function GetNodeBounds(trig: Trig, state: CanvasState, n: Node): (r: Rect)
    ensures !n.shape.Connector? ==> r == BoxOf(n)
    ensures n.shape.Connector? ==>
              var s, t := ResolveEndpoint(trig, n.shape.source, state.nodes), ResolveEndpoint(trig, n.shape.target, state.nodes);
              r.x + DefaultPadding <= Min(s.x, t.x) && Max(s.x, t.x) <= r.x + r.width - DefaultPadding &&
              r.y + DefaultPadding <= Min(s.y, t.y) && Max(s.y, t.y) <= r.y + r.height - DefaultPadding
    ensures n.shape.Connector? ==>
              r == BoundsFromPoints(PathPoints(trig, ResolveEndpoint(trig, n.shape.source, state.nodes),
                                               ResolveEndpoint(trig, n.shape.target, state.nodes),
                                               LineTypeOf(n.shape.style)), DefaultPadding)
  {
    if n.shape.Connector? then
      var ends := ConnectorPoints(trig, n, state.nodes);
      var points := PathPoints(trig, ends.0, ends.1, ends.2);
      PathBoundsHoldEnds(trig, ends.0, ends.1, ends.2, DefaultPadding);
      BoundsFromPoints(points, DefaultPadding)
    else ShapeRegistry.Bounds(trig, n)
  }

  /** For a connector none of whose ends is attached, the board's bounds and
      the connector type's own bounds (from the literal positions) agree. */
  lemma {:induction false} FreeConnectorBoundsAgree(trig: Trig, state: CanvasState, n: Node)
    requires n.shape.Connector? && !Truthy(n.shape.source.nodeId) && !Truthy(n.shape.target.nodeId)
    ensures GetNodeBounds(trig, state, n) == ConnectorShape.GetBounds(trig, n)
  {
    assert ResolveEndpoint(trig, n.shape.source, state.nodes) == EndpointPosition(n.shape.source);
    assert ResolveEndpoint(trig, n.shape.target, state.nodes) == EndpointPosition(n.shape.target);
  }

  /** The nodes of `state` whose id is among `ids`, in scene order. */
  function SelectedNodes(nodes: seq<Node>, ids: seq<string>): (r: seq<Node>)
    ensures forall n :: n in r <==> n in nodes && n.id in ids
  {
    Filter(nodes, (n: Node) => n.id in ids)
  }

  function BoundsList(trig: Trig, state: CanvasState, nodes: seq<Node>): (r: seq<Rect>)
    ensures |r| == |nodes| && forall i :: 0 <= i < |nodes| ==> r[i] == GetNodeBounds(trig, state, nodes[i])
  {
    seq(|nodes|, i requires 0 <= i < |nodes| => GetNodeBounds(trig, state, nodes[i]))
  }

  /** The merged bounds of the selected nodes that exist: absent exactly when
      none of `ids` names a node, and otherwise enclosing each selected node. */
  function GetSelectedBounds(trig: Trig, state: CanvasState, ids: seq<string>): (r: Option<Rect>)
    ensures r.None? <==> forall i :: 0 <= i < |state.nodes| ==> state.nodes[i].id !in ids
    ensures r.Some? ==> forall i :: 0 <= i < |state.nodes| && state.nodes[i].id in ids ==>
                                      Encloses(r.value, GetNodeBounds(trig, state, state.nodes[i]))
  {
    var selected := SelectedNodes(state.nodes, ids);
    SelectedBoundsFacts(trig, state, ids);
    MergedBounds(BoundsList(trig, state, selected))
  }

  lemma SelectedBoundsFacts(trig: Trig, state: CanvasState, ids: seq<string>)
    ensures var r := MergedBounds(BoundsList(trig, state, SelectedNodes(state.nodes, ids)));
            (r.None? <==> forall i :: 0 <= i < |state.nodes| ==> state.nodes[i].id !in ids) &&
            (r.Some? ==> forall i :: 0 <= i < |state.nodes| && state.nodes[i].id in ids ==>
                                      Encloses(r.value, GetNodeBounds(trig, state, state.nodes[i])))
  {
    var selected := SelectedNodes(state.nodes, ids);
    var list := BoundsList(trig, state, selected);
    var r := MergedBounds(list);
    if |selected| > 0 {
      assert selected[0] in selected;
    }
    forall i | 0 <= i < |state.nodes| && state.nodes[i].id in ids
      ensures |selected| > 0
      ensures r.Some? ==> Encloses(r.value, GetNodeBounds(trig, state, state.nodes[i]))
    {
      var j := FilterIndex(state.nodes, (n: Node) => n.id in ids, i);
      assert list[j] == GetNodeBounds(trig, state, state.nodes[i]);
    }
  }

  /** An id that names no node does not change the selection's bounds. */
  lemma {:induction false} SelectedBoundsIgnoreMissing(trig: Trig, state: CanvasState, ids: seq<string>, missing: string)
    requires forall i :: 0 <= i < |state.nodes| ==> state.nodes[i].id != missing
    ensures GetSelectedBounds(trig, state, ids + [missing]) == GetSelectedBounds(trig, state, ids)
  {
    FilterCongruent(state.nodes, (n: Node) => n.id in ids + [missing], (n: Node) => n.id in ids);
  }

  /** The box spanned by two corners given in any order. */
  function NormalizeBox(start: Point, end: Point): (r: Rect)
    ensures r.width >= 0.0 && r.height >= 0.0
    ensures r.x == Min(start.x, end.x) && r.y == Min(start.y, end.y)
    ensures r.x + r.width == Max(start.x, end.x) && r.y + r.height == Max(start.y, end.y)
    ensures InRect(r, start) && InRect(r, end)
  {
    var x, y := Min(start.x, end.x), Min(start.y, end.y);
    var width, height := Abs(end.x - start.x), Abs(end.y - start.y);
    Rect(x, y, width, height)
  }

  lemma NormalizeBoxSymmetric(a: Point, b: Point)
    ensures NormalizeBox(a, b) == NormalizeBox(b, a)
  {
  }

  /** Closed overlap of a rubber band with a node's bounds; no band, no overlap. */
  function Intersects(box: Option<Rect>, bounds: Rect): (r: bool)
    ensures box.None? ==> !r
  {
    if box.None? then false
    else
      var b := box.value;
      !(bounds.x > b.x + b.width || bounds.x + bounds.width < b.x ||
        bounds.y > b.y + b.height || bounds.y + bounds.height < b.y)
  }

  lemma IntersectsSymmetric(a: Rect, b: Rect)
    ensures Intersects(Some(a), b) == Intersects(Some(b), a)
  {
  }

  /** Two rectangles of non-negative size overlap exactly when some point
      lies in both, edges included. */
  lemma {:induction false} IntersectsIffCommonPoint(a: Rect, b: Rect)
    requires a.width >= 0.0 && a.height >= 0.0 && b.width >= 0.0 && b.height >= 0.0
    ensures Intersects(Some(a), b) <==> exists p :: InRect(a, p) && InRect(b, p)
  {
    if Intersects(Some(a), b) {
      var p := Point(Max(a.x, b.x), Max(a.y, b.y));
      assert InRect(a, p) && InRect(b, p);
    }
  }
}
