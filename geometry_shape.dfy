/** Rectangles and ellipses: their bounds, their hit tests and their traits. */
module GeometryShape {
  import opened Canvas
  import opened RealArith

  /** A geometry node's bounds are its position and size. */
  function GetBounds(n: Node): (r: Rect)
    ensures r.x == n.position.x && r.y == n.position.y
    ensures r.width == n.size.width && r.height == n.size.height
  {
    Rect(n.position.x, n.position.y, n.size.width, n.size.height)
  }

  /** The closed bounds rectangle answers, edges included. */
  function HitTestRect(n: Node, p: Point): (r: bool)
    ensures r <==> InRect(BoxOf(n), p)
  {
    var bounds := GetBounds(n);
    p.x >= bounds.x && p.x <= bounds.x + bounds.width &&
    p.y >= bounds.y && p.y <= bounds.y + bounds.height
  }

  /** The closed ellipse inscribed in the bounds answers; a flat ellipse
      (zero width or height) answers nowhere. */
  function HitTestEllipse(n: Node, p: Point): (r: bool)
    ensures n.size.width == 0.0 || n.size.height == 0.0 ==> !r
    ensures n.size.width != 0.0 && n.size.height != 0.0 && p == Center(BoxOf(n)) ==> r
    ensures n.size.width != 0.0 && n.size.height != 0.0 ==>
              var rx, ry := n.size.width / 2.0, n.size.height / 2.0;
              var c := Center(BoxOf(n));
              (r <==> (p.x - c.x) * (p.x - c.x) * (ry * ry) + (p.y - c.y) * (p.y - c.y) * (rx * rx)
                      <= (rx * rx) * (ry * ry))
  {
    var bounds := GetBounds(n);
    var rx, ry := bounds.width / 2.0, bounds.height / 2.0;
    var cx, cy := bounds.x + rx, bounds.y + ry;
    if rx == 0.0 || ry == 0.0 then false
    else
      var dx, dy := (p.x - cx) / rx, (p.y - cy) / ry;
      EllipseCleared(p.x - cx, p.y - cy, rx, ry);
      dx * dx + dy * dy <= 1.0
  }

  /** The normalised test `(a/rx)^2 + (b/ry)^2 <= 1`, cleared of its divisions. */
  lemma EllipseCleared(a: real, b: real, rx: real, ry: real)
    requires rx != 0.0 && ry != 0.0
    ensures (a / rx) * (a / rx) + (b / ry) * (b / ry) <= 1.0 <==>
            a * a * (ry * ry) + b * b * (rx * rx) <= (rx * rx) * (ry * ry)
  {
    var u, v := a / rx, b / ry;
    assert a == u * rx && b == v * ry;
    var k := SquaresPositive(rx, ry);
    assert a * a * (ry * ry) == (u * u) * k;
    assert b * b * (rx * rx) == (v * v) * k;
    ScaleBound(u * u + v * v, k);
  }

  /** A number beyond [-1, 1] has a square above 1. */
  lemma SquareBeyondOne(u: real)
    ensures u > 1.0 || u < -1.0 ==> u * u > 1.0
  {
    if u > 1.0 {
      assert u * u - 1.0 == (u - 1.0) * (u + 1.0);
      ProductPositive(u - 1.0, u + 1.0);
    } else if u < -1.0 {
      assert u * u - 1.0 == (-u - 1.0) * (-u + 1.0);
      ProductPositive(-u - 1.0, -u + 1.0);
    }
  }

  /** A coordinate of a point of the unit disk lies in [-1, 1]. */
  lemma UnitDiskCoordinate(u: real, v: real)
    requires u * u + v * v <= 1.0
    ensures -1.0 <= u <= 1.0
  {
    ProductNonnegative(if v >= 0.0 then v else -v, if v >= 0.0 then v else -v);
    SquareBeyondOne(u);
  }

  /** Undoing the division by a positive radius. */
  lemma WithinRadius(d: real, radius: real)
    requires radius > 0.0 && -1.0 <= d / radius <= 1.0
    ensures -radius <= d <= radius
  {
    var q := d / radius;
    assert d == q * radius;
    ProductNonnegative(1.0 - q, radius);
    ProductNonnegative(1.0 + q, radius);
    assert (1.0 - q) * radius == radius - q * radius;
    assert (1.0 + q) * radius == radius + q * radius;
  }

  /** For a node of positive size every ellipse hit is a rectangle hit. */
  lemma {:induction false} EllipseInsideRect(n: Node, p: Point)
    requires n.size.width > 0.0 && n.size.height > 0.0
    requires HitTestEllipse(n, p)
    ensures HitTestRect(n, p)
  {
    var rx, ry := n.size.width / 2.0, n.size.height / 2.0;
    var cx, cy := n.position.x + rx, n.position.y + ry;
    var dx, dy := (p.x - cx) / rx, (p.y - cy) / ry;
    UnitDiskCoordinate(dx, dy);
    UnitDiskCoordinate(dy, dx);
    WithinRadius(p.x - cx, rx);
    WithinRadius(p.y - cy, ry);
  }

  /** `kind === "ellipse"` picks the ellipse test, every other kind the rectangle. */
  function HitTest(n: Node, kind: GeometryKind, p: Point): (r: bool)
    ensures kind == EllipseKind ==> (r <==> HitTestEllipse(n, p))
    ensures kind != EllipseKind ==> (r <==> InRect(BoxOf(n), p))
  {
    if kind == EllipseKind then HitTestEllipse(n, p) else HitTestRect(n, p)
  }

  const GeometryTraits: Traits := Traits(draggable := true, resizable := true, rotatable := true,
                                         connectable := false, textEditable := false)
}
