/** The connector node type as the shape registry sees it: hit-testing and
    bounds computed from the literal `position` of each endpoint. */
module ConnectorShape {
  import opened Util
  import opened Canvas
  import opened ConnectorPath

  /** The path through the two literal endpoint positions. */
  function LiteralPath(trig: Trig, n: Node): (r: seq<Point>)
    requires n.shape.Connector?
    ensures |r| >= 2
    ensures r[0] == EndpointPosition(n.shape.source) && r[|r| - 1] == EndpointPosition(n.shape.target)
  {
    PathPoints(trig, EndpointPosition(n.shape.source), EndpointPosition(n.shape.target),
               LineTypeOf(n.shape.style))
  }

  /** A pointer hits a connector within the stroke width (2 by default) plus 4. */
  function HitTest(trig: Trig, n: Node, p: Point): (r: bool)
    requires n.shape.Connector?
    ensures r <==> LineHit(trig, p, LiteralPath(trig, n), n.shape.style.strokeWidth.GetOr(DefaultStrokeWidth) + 4.0)
  {
    var source := EndpointPosition(n.shape.source);
    var target := EndpointPosition(n.shape.target);
    var lineType := n.shape.style.lineType.GetOr(Curve);
    var points := PathPoints(trig, source, target, lineType);
    var threshold := n.shape.style.strokeWidth.GetOr(DefaultStrokeWidth) + 4.0;
    LineHit(trig, p, points, threshold)
  }

  /** Both literal endpoint positions are hits for a non-negative stroke width. */
  lemma {:induction false} HitAtEndpoints(trig: Trig, n: Node)
    requires n.shape.Connector? && trig.hypot(0.0, 0.0) == 0.0
    requires n.shape.style.strokeWidth.GetOr(DefaultStrokeWidth) >= 0.0
    ensures HitTest(trig, n, EndpointPosition(n.shape.source))
    ensures HitTest(trig, n, EndpointPosition(n.shape.target))
  {
    LineHitAtEnds(trig, LiteralPath(trig, n), n.shape.style.strokeWidth.GetOr(DefaultStrokeWidth) + 4.0);
  }

  /** The bounds of the path, padded by 6; they hold both literal endpoint
      positions 6 units in from their sides. */
  function GetBounds(trig: Trig, n: Node): (r: Rect)
    requires n.shape.Connector?
    ensures var s, t := EndpointPosition(n.shape.source), EndpointPosition(n.shape.target);
            r.x + DefaultPadding <= Min(s.x, t.x) && Max(s.x, t.x) <= r.x + r.width - DefaultPadding &&
            r.y + DefaultPadding <= Min(s.y, t.y) && Max(s.y, t.y) <= r.y + r.height - DefaultPadding
  {
    var source := EndpointPosition(n.shape.source);
    var target := EndpointPosition(n.shape.target);
    var lineType := n.shape.style.lineType.GetOr(Curve);
    var points := PathPoints(trig, source, target, lineType);
    PathBoundsHoldEnds(trig, source, target, lineType, DefaultPadding);
    BoundsFromPoints(points, DefaultPadding)
  }

  /** A straight or orthogonal connector's bounds are exactly the box spanned
      by its two endpoints, padded by 6 on every side. */
  lemma {:induction false} StraightBounds(trig: Trig, n: Node)
    requires n.shape.Connector? && LineTypeOf(n.shape.style) != Curve
    ensures var s, t := EndpointPosition(n.shape.source), EndpointPosition(n.shape.target);
            GetBounds(trig, n) == Rect(Min(s.x, t.x) - 6.0, Min(s.y, t.y) - 6.0,
                                       Max(s.x, t.x) - Min(s.x, t.x) + 12.0, Max(s.y, t.y) - Min(s.y, t.y) + 12.0)
  {
    var s, t := EndpointPosition(n.shape.source), EndpointPosition(n.shape.target);
    var points := LiteralPath(trig, n);
    if LineTypeOf(n.shape.style) == Straight {
      assert points == [s, t];
    } else {
      assert points == [s, Point((s.x + t.x) / 2.0, s.y), Point((s.x + t.x) / 2.0, t.y), t];
    }
    BoundsFromExtremes(points, DefaultPadding, Min(s.x, t.x), Min(s.y, t.y), Max(s.x, t.x), Max(s.y, t.y));
  }
}
