/** The geometry of a connector once its two end points are known: the
    polyline it is drawn and hit-tested along, its padded bounds, endpoint and
    line hit-tests, arrow heads, and the linked/free mode rule. */
module ConnectorPath {
  import opened Util
  import opened Canvas
  import opened RealArith

  /** Which end of a connector a pointer grabbed. */
  datatype EndpointKey = SourceEnd | TargetEnd

  /** An arrow head's style; only its size matters to the geometry. */
  datatype ArrowStyle = ArrowStyle(size: Option<real>)

  datatype ArrowPath = ArrowPath(tip: Point, left: Point, right: Point, back: Point)

  const CurveSegments: nat := 20

  const DefaultPadding: real := 6.0

  const DefaultStrokeWidth: real := 2.0

  const DefaultArrowSize: real := 10.0

  /** The literal `position` of an endpoint, the origin when absent; an
      attached endpoint is not resolved here. */
  function EndpointPosition(e: Endpoint): (r: Point)
    ensures e.position.Some? ==> r == e.position.value
    ensures e.position.None? ==> r == Origin
  {
    e.position.GetOr(Origin)
  }

  /** A connector without a line type is drawn as a curve. */
  function LineTypeOf(style: ConnectorStyle): (r: LineType)
    ensures style.lineType.None? ==> r == Curve
    ensures style.lineType.Some? ==> r == style.lineType.value
  {
    style.lineType.GetOr(Curve)
  }

  /** `Math.hypot(dx, dy) || 1`: a zero length counts as 1. */
  function LengthOr1(trig: Trig, dx: real, dy: real): (r: real)
    ensures r != 0.0
    ensures trig.hypot(dx, dy) != 0.0 ==> r == trig.hypot(dx, dy)
  {
    var len := trig.hypot(dx, dy);
    if len == 0.0 then 1.0 else len
  }

  /** The control point of the quadratic curve: the midpoint pushed sideways
      by a third of the length, at most 80. */
  function CurveControl(trig: Trig, source: Point, target: Point): (r: Point)
    ensures source == target && trig.hypot(0.0, 0.0) == 0.0 ==> r == source
  {
    var mx, my := (source.x + target.x) / 2.0, (source.y + target.y) / 2.0;
    var dx, dy := target.x - source.x, target.y - source.y;
    var len := LengthOr1(trig, dx, dy);
    var nx, ny := -dy / len, dx / len;
    var offset := Min(80.0, len / 3.0);
    Point(mx + nx * offset, my + ny * offset)
  }

  /** The point at parameter `u` of the quadratic Bezier curve from `s` to `t`
      with control point `c`. */
  function Bezier(s: Point, c: Point, t: Point, u: real): Point {
    var mt := 1.0 - u;
    Point(mt * mt * s.x + 2.0 * mt * u * c.x + u * u * t.x,
          mt * mt * s.y + 2.0 * mt * u * c.y + u * u * t.y)
  }

  /** The polyline a connector follows: two points when straight, four with a
      vertical middle leg when orthogonal, 21 samples of the curve otherwise;
      it always runs from the source to the target. */
  function PathPoints(trig: Trig, source: Point, target: Point, lineType: LineType): (r: seq<Point>)
    ensures lineType == Straight ==> |r| == 2
    ensures lineType == Orthogonal ==> |r| == 4 && r[1].x == r[2].x == (source.x + target.x) / 2.0 &&
                                       r[1].y == source.y && r[2].y == target.y
    ensures lineType == Curve ==> |r| == CurveSegments + 1
    ensures |r| >= 2 && r[0] == source && r[|r| - 1] == target
  {
    match lineType
    case Orthogonal =>
      var midX := (source.x + target.x) / 2.0;
      [source, Point(midX, source.y), Point(midX, target.y), target]
    case Straight => [source, target]
    case Curve =>
      var control := CurveControl(trig, source, target);
      var r := seq(CurveSegments + 1, i requires 0 <= i <= CurveSegments =>
                     Bezier(source, control, target, i as real / CurveSegments as real));
      assert r[0] == Bezier(source, control, target, 0.0);
      assert r[CurveSegments] == Bezier(source, control, target, 1.0);
      r
  }

  /** The source's construction: the curve is sampled by a loop that appends
      one point per step. */
  method BuildPathPoints(trig: Trig, source: Point, target: Point, lineType: LineType)
    returns (points: seq<Point>)
    ensures points == PathPoints(trig, source, target, lineType)
  {
    if lineType == Orthogonal {
      var midX := (source.x + target.x) / 2.0;
      return [source, Point(midX, source.y), Point(midX, target.y), target];
    }
    if lineType == Straight {
      return [source, target];
    }
    var control := CurveControl(trig, source, target);
    points := SampleCurve(source, control, target);
    CurveSamples(trig, source, target, points);
  }

  /** The curve loop: one point of the Bezier curve per step. */
  method SampleCurve(source: Point, control: Point, target: Point) returns (points: seq<Point>)
    ensures |points| == CurveSegments + 1
    ensures forall j :: 0 <= j < |points| ==>
              points[j] == Bezier(source, control, target, j as real / CurveSegments as real)
  {
    points := [];
    var segments := CurveSegments;
    var i := 0;
    while i <= segments
      invariant 0 <= i <= segments + 1 && |points| == i
      invariant forall j :: 0 <= j < i ==> points[j] == Bezier(source, control, target, j as real / segments as real)
    {
      var t := i as real / segments as real;
      var mt := 1.0 - t;
      var p := Point(mt * mt * source.x + 2.0 * mt * t * control.x + t * t * target.x,
                     mt * mt * source.y + 2.0 * mt * t * control.y + t * t * target.y);
      assert p == Bezier(source, control, target, t);
      points := points + [p];
      i := i + 1;
    }
  }

  lemma CurveSamples(trig: Trig, source: Point, target: Point, points: seq<Point>)
    requires |points| == CurveSegments + 1
    requires forall j :: 0 <= j < |points| ==>
               points[j] == Bezier(source, CurveControl(trig, source, target), target, j as real / CurveSegments as real)
    ensures points == PathPoints(trig, source, target, Curve)
  {
  }

  function Xs(points: seq<Point>): (xs: seq<real>)
    ensures |xs| == |points| && forall i :: 0 <= i < |points| ==> xs[i] == points[i].x
  {
    seq(|points|, i requires 0 <= i < |points| => points[i].x)
  }

  function Ys(points: seq<Point>): (ys: seq<real>)
    ensures |ys| == |points| && forall i :: 0 <= i < |points| ==> ys[i] == points[i].y
  {
    seq(|points|, i requires 0 <= i < |points| => points[i].y)
  }

  /** The box around a non-empty list of points, each side `padding` beyond
      the extreme coordinate on that side. */
  function BoundsFromPoints(points: seq<Point>, padding: real): (r: Rect)
    requires |points| > 0
    ensures forall i :: 0 <= i < |points| ==>
              r.x + padding <= points[i].x <= r.x + r.width - padding &&
              r.y + padding <= points[i].y <= r.y + r.height - padding
    ensures exists i :: 0 <= i < |points| && r.x + padding == points[i].x
    ensures exists i :: 0 <= i < |points| && r.y + padding == points[i].y
    ensures exists i :: 0 <= i < |points| && r.x + r.width - padding == points[i].x
    ensures exists i :: 0 <= i < |points| && r.y + r.height - padding == points[i].y
  {
    var minX, minY := SeqMin(Xs(points)), SeqMin(Ys(points));
    var maxX, maxY := SeqMax(Xs(points)), SeqMax(Ys(points));
    Rect(minX - padding, minY - padding, maxX - minX + padding * 2.0, maxY - minY + padding * 2.0)
  }

  /** With a non-negative padding every point lies in the bounds. */
  lemma BoundsContainPoints(points: seq<Point>, padding: real, i: int)
    requires |points| > 0 && padding >= 0.0 && 0 <= i < |points|
    ensures InRect(BoundsFromPoints(points, padding), points[i])
  {
  }

  /** The bounds are fixed by the extreme coordinates alone. */
  lemma BoundsFromExtremes(points: seq<Point>, padding: real, minX: real, minY: real, maxX: real, maxY: real)
    requires |points| > 0
    requires forall i :: 0 <= i < |points| ==> minX <= points[i].x <= maxX && minY <= points[i].y <= maxY
    requires exists i :: 0 <= i < |points| && points[i].x == minX
    requires exists i :: 0 <= i < |points| && points[i].y == minY
    requires exists i :: 0 <= i < |points| && points[i].x == maxX
    requires exists i :: 0 <= i < |points| && points[i].y == maxY
    ensures BoundsFromPoints(points, padding) ==
              Rect(minX - padding, minY - padding, maxX - minX + padding * 2.0, maxY - minY + padding * 2.0)
  {
    var r := BoundsFromPoints(points, padding);
    var i0 :| 0 <= i0 < |points| && r.x + padding == points[i0].x;
    var i1 :| 0 <= i1 < |points| && r.y + padding == points[i1].y;
    var i2 :| 0 <= i2 < |points| && r.x + r.width - padding == points[i2].x;
    var i3 :| 0 <= i3 < |points| && r.y + r.height - padding == points[i3].y;
    var j0 :| 0 <= j0 < |points| && points[j0].x == minX;
    var j1 :| 0 <= j1 < |points| && points[j1].y == minY;
    var j2 :| 0 <= j2 < |points| && points[j2].x == maxX;
    var j3 :| 0 <= j3 < |points| && points[j3].y == maxY;
  }

  /** The padded bounds of a path hold both of its ends, `padding` in from the sides. */
  lemma PathBoundsHoldEnds(trig: Trig, source: Point, target: Point, lineType: LineType, padding: real)
    ensures var r := BoundsFromPoints(PathPoints(trig, source, target, lineType), padding);
            r.x + padding <= Min(source.x, target.x) && Max(source.x, target.x) <= r.x + r.width - padding &&
            r.y + padding <= Min(source.y, target.y) && Max(source.y, target.y) <= r.y + r.height - padding
  {
    var points := PathPoints(trig, source, target, lineType);
    var last := |points| - 1;
    assert points[0] == source && points[last] == target;
  }

  /** The end a pointer is on: the source wins when both are within reach. */
  function HitTestEndpoint(p: Point, source: Point, target: Point, radius: real): (r: Option<EndpointKey>)
    ensures r == Some(SourceEnd) <==> SquaredDistance(p, source) <= radius * radius
    ensures r == Some(TargetEnd) <==>
              SquaredDistance(p, source) > radius * radius && SquaredDistance(p, target) <= radius * radius
    ensures r.None? <==>
              SquaredDistance(p, source) > radius * radius && SquaredDistance(p, target) > radius * radius
  {
    var r2 := radius * radius;
    var d1 := (p.x - source.x) * (p.x - source.x) + (p.y - source.y) * (p.y - source.y);
    if d1 <= r2 then Some(SourceEnd)
    else
      var d2 := (p.x - target.x) * (p.x - target.x) + (p.y - target.y) * (p.y - target.y);
      if d2 <= r2 then Some(TargetEnd) else None
  }

  /** The distance from `p` to the segment from `a` to `b`, through the
      projection of `p` clamped to the segment. */
  function DistanceToSegment(trig: Trig, p: Point, a: Point, b: Point): (r: real)
    ensures trig.hypot(0.0, 0.0) == 0.0 && (p == a || p == b) ==> r == 0.0
  {
    var dx, dy := b.x - a.x, b.y - a.y;
    var len2 := dx * dx + dy * dy;
    if len2 == 0.0 then
      SquaresVanish(dx, dy);
      assert b == a;
      trig.hypot(p.x - a.x, p.y - a.y)
    else
      var t := Max(0.0, Min(1.0, ((p.x - a.x) * dx + (p.y - a.y) * dy) / len2));
      assert p == a ==> t == 0.0;
      assert p == b ==> t == 1.0;
      var proj := Point(a.x + t * dx, a.y + t * dy);
      trig.hypot(p.x - proj.x, p.y - proj.y)
  }

  /** A sum of two squares is zero only when both terms are. */
  lemma SquaresVanish(dx: real, dy: real)
    requires dx * dx + dy * dy == 0.0
    ensures dx == 0.0 && dy == 0.0
  {
    SquareNonnegative(dx, dx);
    SquareNonnegative(dy, dy);
    ProductZero(dx, dx);
    ProductZero(dy, dy);
  }

  /** Some segment of the polyline is within `threshold` of `p`. */
  predicate LineHit(trig: Trig, p: Point, points: seq<Point>, threshold: real) {
    exists i :: 0 <= i < |points| - 1 && DistanceToSegment(trig, p, points[i], points[i + 1]) <= threshold
  }

  /** The source's scan over the segments, stopping at the first close one. */
  method HitTestLine(trig: Trig, p: Point, points: seq<Point>, threshold: real) returns (hit: bool)
    ensures hit <==> LineHit(trig, p, points, threshold)
  {
    var i := 0;
    while i < |points| - 1
      invariant 0 <= i && (i == 0 || i <= |points| - 1)
      invariant forall j :: 0 <= j < i ==> DistanceToSegment(trig, p, points[j], points[j + 1]) > threshold
    {
      if DistanceToSegment(trig, p, points[i], points[i + 1]) <= threshold {
        return true;
      }
      i := i + 1;
    }
    return false;
  }

  /** A polyline passes through its first and last points: with a
      non-negative threshold both ends are hits. */
  lemma {:induction false} LineHitAtEnds(trig: Trig, points: seq<Point>, threshold: real)
    requires trig.hypot(0.0, 0.0) == 0.0 && threshold >= 0.0 && |points| >= 2
    ensures LineHit(trig, points[0], points, threshold)
    ensures LineHit(trig, points[|points| - 1], points, threshold)
  {
    var last := |points| - 2;
    assert DistanceToSegment(trig, points[0], points[0], points[1]) == 0.0;
    assert DistanceToSegment(trig, points[|points| - 1], points[last], points[last + 1]) == 0.0;
  }

  /** The vector from `from` to `to` divided by `Math.hypot(dx, dy) || 1`. */
  function Direction(trig: Trig, from: Point, to: Point): (r: Point)
    ensures var len := LengthOr1(trig, to.x - from.x, to.y - from.y);
            r.x * len == to.x - from.x && r.y * len == to.y - from.y
  {
    var dx, dy := to.x - from.x, to.y - from.y;
    var len := LengthOr1(trig, dx, dy);
    Point(dx / len, dy / len)
  }

  /** The direction an arrow head points: along the last (or first) segment,
      towards the end; (1, 0) for fewer than two points. */
  function ArrowDirection(trig: Trig, points: seq<Point>, atStart: bool): (r: Point)
    ensures |points| < 2 ==> r == Point(1.0, 0.0)
    ensures |points| >= 2 && atStart ==> r == Direction(trig, points[1], points[0])
    ensures |points| >= 2 && !atStart ==> r == Direction(trig, points[|points| - 2], points[|points| - 1])
  {
    if |points| < 2 then Point(1.0, 0.0)
    else
      var from := if atStart then points[1] else points[|points| - 2];
      var to := if atStart then points[0] else points[|points| - 1];
      Direction(trig, from, to)
  }

  /** Dividing a vector by its Euclidean length gives a unit vector. */
  lemma Normalised(dx: real, dy: real, h: real)
    requires h > 0.0 && h * h == dx * dx + dy * dy
    ensures (dx / h) * (dx / h) + (dy / h) * (dy / h) == 1.0
  {
    var u, v := dx / h, dy / h;
    assert u * h == dx && v * h == dy;
    calc {
      (u * u + v * v) * (h * h);
      (u * h) * (u * h) + (v * h) * (v * h);
      dx * dx + dy * dy;
      h * h;
    }
    CancelSquare(u * u + v * v, h);
  }

  lemma CancelSquare(a: real, h: real)
    requires h > 0.0 && a * (h * h) == h * h
    ensures a == 1.0
  {
    assert (a - 1.0) * (h * h) == 0.0;
  }

  /** When `hypot` is the Euclidean length, the direction between two
      distinct points is a unit vector. */
  lemma {:induction false} DirectionUnit(trig: Trig, from: Point, to: Point)
    requires trig.hypot(to.x - from.x, to.y - from.y) > 0.0
    requires trig.hypot(to.x - from.x, to.y - from.y) * trig.hypot(to.x - from.x, to.y - from.y) ==
             (to.x - from.x) * (to.x - from.x) + (to.y - from.y) * (to.y - from.y)
    ensures var d := Direction(trig, from, to); d.x * d.x + d.y * d.y == 1.0
  {
    var dx, dy := to.x - from.x, to.y - from.y;
    var h := trig.hypot(dx, dy);
    assert Direction(trig, from, to) == Point(dx / h, dy / h);
    Normalised(dx, dy, h);
  }

  /** The arrow head at `point`: its back sits `size` behind the tip along
      `dir`, and its two barbs sit symmetrically on either side of the back,
      perpendicular to `dir`, 0.6 of the size away. */
  function BuildArrowPath(point: Point, dir: Point, style: ArrowStyle): (r: ArrowPath)
    ensures r.tip == point
    ensures var size := style.size.GetOr(DefaultArrowSize);
            r.back.x + dir.x * size == point.x && r.back.y + dir.y * size == point.y
    ensures r.left.x + r.right.x == 2.0 * r.back.x && r.left.y + r.right.y == 2.0 * r.back.y
    ensures (r.left.x - r.back.x) * dir.x + (r.left.y - r.back.y) * dir.y == 0.0
    ensures var size := style.size.GetOr(DefaultArrowSize);
            r.left == Point(r.back.x - dir.y * (size * 0.6), r.back.y + dir.x * (size * 0.6))
  {
    var size := style.size.GetOr(DefaultArrowSize);
    var nx, ny := -dir.y, dir.x;
    var back := Point(point.x - dir.x * size, point.y - dir.y * size);
    var left := Point(back.x + nx * (size * 0.6), back.y + ny * (size * 0.6));
    var right := Point(back.x - nx * (size * 0.6), back.y - ny * (size * 0.6));
    ArrowPath(point, left, right, back)
  }

  /** A connector is linked exactly when both ends name a node. */
  function ResolveConnectorMode(source: Endpoint, target: Endpoint): (r: ConnectorMode)
    ensures r == Linked <==> Truthy(source.nodeId) && Truthy(target.nodeId)
  {
    if Truthy(source.nodeId) && Truthy(target.nodeId) then Linked else Free
  }
}
