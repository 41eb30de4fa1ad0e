/** Where a connector's ends really are: anchors on the nodes they attach to,
    endpoint resolution against the scene, and the search for an anchor under
    the pointer. */
module ConnectorResolve {
  import opened Util
  import opened Canvas
  import opened ControlUtils
  import opened ConnectorPath
  import ShapeRegistry

  datatype Anchor = Anchor(id: string, position: Point)

  /** An anchor found under the pointer, where it appears on screen. */
  datatype AnchorHit = AnchorHit(nodeId: string, anchorId: string, position: Point)

  /** The five anchors of a node: its centre "c", then "n", "e", "s", "w" at
      the midpoints of its sides, exactly where the scale handles of the same
      names sit. */
  function DefaultAnchors(b: Rect): (r: seq<Anchor>)
    ensures |r| == 5
    ensures r[0] == Anchor("c", Center(b))
    ensures r[1] == Anchor("n", CompassPoint(b, N)) && r[2] == Anchor("e", CompassPoint(b, E))
    ensures r[3] == Anchor("s", CompassPoint(b, S)) && r[4] == Anchor("w", CompassPoint(b, W))
  {
    var cx, cy := b.x + b.width / 2.0, b.y + b.height / 2.0;
    [ Anchor("c", Point(cx, cy)),
      Anchor("n", Point(cx, b.y)),
      Anchor("e", Point(b.x + b.width, cy)),
      Anchor("s", Point(cx, b.y + b.height)),
      Anchor("w", Point(b.x, cy)) ]
  }

  /** Where an anchor id lands on a box: one of the four side midpoints, and
      the centre for "c" or any id the node does not have. */
  function NamedAnchorPoint(b: Rect, anchorId: Option<string>): Point {
    if anchorId == Some("n") then CompassPoint(b, N)
    else if anchorId == Some("e") then CompassPoint(b, E)
    else if anchorId == Some("s") then CompassPoint(b, S)
    else if anchorId == Some("w") then CompassPoint(b, W)
    else Center(b)
  }

  /** `anchors.find(a => a.id === anchorId) ?? anchors.find(a => a.id === "c")
      ?? { id: "c", position: center }` */
  function PickAnchor(anchors: seq<Anchor>, anchorId: Option<string>, center: Point): Anchor {
    FindFirst(anchors, (a: Anchor) => anchorId == Some(a.id))
      .OrElse(FindFirst(anchors, (a: Anchor) => a.id == "c"))
      .GetOr(Anchor("c", center))
  }

  /** Among the default anchors, an id picks the point `NamedAnchorPoint` names. */
  lemma PickDefaultAnchor(b: Rect, anchorId: Option<string>)
    ensures PickAnchor(DefaultAnchors(b), anchorId, Center(b)).position == NamedAnchorPoint(b, anchorId)
  {
    var anchors := DefaultAnchors(b);
    var named := FindFirst(anchors, (a: Anchor) => anchorId == Some(a.id));
    assert anchors[0].id == "c" && anchors[1].id == "n" && anchors[2].id == "e";
    assert anchors[3].id == "s" && anchors[4].id == "w";
    if anchorId in {Some("c"), Some("n"), Some("e"), Some("s"), Some("w")} {
      assert named.Some? && named.value.id == anchorId.value;
    } else {
      assert named.None?;
      assert FindFirst(anchors, (a: Anchor) => a.id == "c") == Some(anchors[0]);
    }
  }

  /** An anchor position as drawn: turned with its node about the node's centre. */
  function PlacedAnchor(trig: Trig, n: Node, b: Rect, a: Anchor): Point {
    var rotation := n.rotation.GetOr(0.0);
    if rotation != 0.0 then RotatePoint(trig, a.position, Center(b), rotation) else a.position
  }

  /** The point an endpoint stands for: the chosen anchor of the node it
      names, turned with the node and shifted by `offset`, or else its own
      `position` (the origin when absent). */
  function ResolveEndpoint(trig: Trig, e: Endpoint, nodes: seq<Node>): (r: Point)
    ensures !Truthy(e.nodeId) || !HasNode(nodes, e.nodeId.value) ==> r == EndpointPosition(e)
    ensures Truthy(e.nodeId) && HasNode(nodes, e.nodeId.value) && RotationOf(FindNode(nodes, e.nodeId.value).value) == 0.0 ==>
              r == Offset(NamedAnchorPoint(ShapeRegistry.Bounds(trig, FindNode(nodes, e.nodeId.value).value), e.anchorId),
                          e.offset.GetOr(Origin))
  {
    if Truthy(e.nodeId) then
      match FindNode(nodes, e.nodeId.value)
      case Some(node) =>
        var bounds := ShapeRegistry.Bounds(trig, node);
        var anchors := DefaultAnchors(bounds);
        var center := Point(bounds.x + bounds.width / 2.0, bounds.y + bounds.height / 2.0);
        var anchor := PickAnchor(anchors, e.anchorId, center);
        PickDefaultAnchor(bounds, e.anchorId);
        var rotated := PlacedAnchor(trig, node, bounds, anchor);
        var offset := e.offset.GetOr(Origin);
        Point(rotated.x + offset.x, rotated.y + offset.y)
      case None => e.position.GetOr(Origin)
    else e.position.GetOr(Origin)
  }

  /** The resolved ends of a connector and the line type it is drawn with. */
  function ConnectorPoints(trig: Trig, n: Node, nodes: seq<Node>): (r: (Point, Point, LineType))
    requires n.shape.Connector?
    ensures r.0 == ResolveEndpoint(trig, n.shape.source, nodes) && r.1 == ResolveEndpoint(trig, n.shape.target, nodes)
    ensures n.shape.style.lineType.None? ==> r.2 == Curve
  {
    (ResolveEndpoint(trig, n.shape.source, nodes), ResolveEndpoint(trig, n.shape.target, nodes),
     LineTypeOf(n.shape.style))
  }

  /** The first of `anchors` of node `n` drawn within squared distance `r2` of `p`. */
  function FirstAnchorWithin(trig: Trig, n: Node, b: Rect, anchors: seq<Anchor>, p: Point, r2: real): (r: Option<AnchorHit>)
    ensures r.Some? ==> r.value.nodeId == n.id && SquaredDistance(p, r.value.position) <= r2
    ensures r.Some? ==> exists j :: 0 <= j < |anchors| && r.value.anchorId == anchors[j].id &&
                                    r.value.position == PlacedAnchor(trig, n, b, anchors[j]) &&
                                    forall k :: 0 <= k < j ==> SquaredDistance(p, PlacedAnchor(trig, n, b, anchors[k])) > r2
    ensures r.None? <==> forall j :: 0 <= j < |anchors| ==> SquaredDistance(p, PlacedAnchor(trig, n, b, anchors[j])) > r2
  {
    if |anchors| == 0 then None
    else
      var position := PlacedAnchor(trig, n, b, anchors[0]);
      if SquaredDistance(p, position) <= r2 then Some(AnchorHit(n.id, anchors[0].id, position))
      else
        var rest := FirstAnchorWithin(trig, n, b, anchors[1..], p, r2);
        assert forall j :: 1 <= j < |anchors| ==> anchors[1..][j - 1] == anchors[j];
        rest
  }

  /** The anchors of node `n` as the search sees them. */
  function NodeAnchorHit(trig: Trig, n: Node, p: Point, r2: real): Option<AnchorHit> {
    var b := ShapeRegistry.Bounds(trig, n);
    FirstAnchorWithin(trig, n, b, DefaultAnchors(b), p, r2)
  }

  /** The first anchor within `radius` of `p`, nodes in order and each node's
      anchors in order, connectors skipped. */
  function AnchorAt(trig: Trig, nodes: seq<Node>, p: Point, radius: real): (r: Option<AnchorHit>)
    ensures r.Some? ==> SquaredDistance(p, r.value.position) <= radius * radius
    ensures r.Some? ==> exists i :: 0 <= i < |nodes| && nodes[i].id == r.value.nodeId && !nodes[i].shape.Connector? &&
                                    NodeAnchorHit(trig, nodes[i], p, radius * radius) == r &&
                                    forall k :: 0 <= k < i && !nodes[k].shape.Connector? ==>
                                                  NodeAnchorHit(trig, nodes[k], p, radius * radius).None?
    ensures r.None? <==> forall i :: 0 <= i < |nodes| && !nodes[i].shape.Connector? ==>
                                       NodeAnchorHit(trig, nodes[i], p, radius * radius).None?
    decreases |nodes|
  {
    if |nodes| == 0 then None
    else
      var rest := AnchorAt(trig, nodes[1..], p, radius);
      assert forall i :: 1 <= i < |nodes| ==> nodes[1..][i - 1] == nodes[i];
      if nodes[0].shape.Connector? then rest
      else
        var hit := NodeAnchorHit(trig, nodes[0], p, radius * radius);
        if hit.Some? then hit else rest
  }

  /** The source's two nested loops, returning at the first anchor in reach. */
  method FindAnchorAtPoint(trig: Trig, nodes: seq<Node>, point: Point, radius: real) returns (r: Option<AnchorHit>)
    ensures r == AnchorAt(trig, nodes, point, radius)
  {
    var r2 := radius * radius;
    var i := 0;
    while i < |nodes|
      invariant 0 <= i <= |nodes|
      invariant AnchorAt(trig, nodes, point, radius) == AnchorAt(trig, nodes[i..], point, radius)
    {
      var node := nodes[i];
      assert nodes[i..][1..] == nodes[i + 1..];
      if !node.shape.Connector? {
        var hit := FindNodeAnchor(trig, node, point, r2);
        if hit.Some? {
          return hit;
        }
      }
      i := i + 1;
    }
    return None;
  }

  /** The inner loop: the anchors of one node in order. */
  method FindNodeAnchor(trig: Trig, node: Node, point: Point, r2: real) returns (r: Option<AnchorHit>)
    ensures r == NodeAnchorHit(trig, node, point, r2)
  {
    var bounds := ShapeRegistry.Bounds(trig, node);
    var anchors := DefaultAnchors(bounds);
    var j := 0;
    while j < |anchors|
      invariant 0 <= j <= |anchors|
      invariant NodeAnchorHit(trig, node, point, r2) == FirstAnchorWithin(trig, node, bounds, anchors[j..], point, r2)
    {
      var position := PlacedAnchor(trig, node, bounds, anchors[j]);
      assert anchors[j..][1..] == anchors[j + 1..];
      if SquaredDistance(point, position) <= r2 {
        return Some(AnchorHit(node.id, anchors[j].id, position));
      }
      j := j + 1;
    }
    return None;
  }
}
