/** Zooming with the wheel: the scale follows the wheel delta, clamped to
    [0.2, 4], and the offset is chosen so that the world point under the
    cursor stays under the cursor. */
module ViewportZoom {
  import opened Util
  import opened Canvas
  import opened BoardHelpers

  const ScaleStep: real := 0.0015
  const MinScale: real := 0.2
  const MaxScale: real := 4.0

  /** The clamped scale after a wheel step of `deltaY`. */
  function NextScale(scale: real, deltaY: real): (r: real)
    ensures MinScale <= r <= MaxScale
    ensures MinScale <= scale * (1.0 - deltaY * ScaleStep) <= MaxScale ==> r == scale * (1.0 - deltaY * ScaleStep)
  {
    Min(MaxScale, Max(MinScale, scale * (1.0 - deltaY * ScaleStep)))
  }

  function NextViewportFromWheel(v: Viewport, deltaY: real, anchor: Point): (r: Viewport)
    requires v.scale != 0.0
    ensures MinScale <= r.scale <= MaxScale
    ensures r.scale == NextScale(v.scale, deltaY)
    ensures WorldToScreen(r, ScreenToWorld(v, anchor)) == anchor
  {
    var nextScale := NextScale(v.scale, deltaY);
    var world := ScreenToWorld(v, anchor);
    Viewport(anchor.x - world.x * nextScale, anchor.y - world.y * nextScale, nextScale)
  }

  /** The cursor looks at the same world point before and after the step. */
  lemma AnchorStaysPut(v: Viewport, deltaY: real, anchor: Point)
    requires v.scale != 0.0
    ensures ScreenToWorld(NextViewportFromWheel(v, deltaY, anchor), anchor) == ScreenToWorld(v, anchor)
  {
    var r := NextViewportFromWheel(v, deltaY, anchor);
    var w := ScreenToWorld(v, anchor);
    ScreenToWorldInverse(r, w);
  }

  /** A zero step leaves a viewport whose scale is in range as it is. */
  lemma {:induction false} ZeroDeltaKeepsViewport(v: Viewport, anchor: Point)
    requires MinScale <= v.scale <= MaxScale
    ensures NextViewportFromWheel(v, 0.0, anchor) == v
  {
    var w := ScreenToWorld(v, anchor);
    assert NextScale(v.scale, 0.0) == v.scale;
    assert WorldToScreen(v, w) == anchor;
  }

  /** Scrolling up (negative delta) never zooms out and scrolling down never
      zooms in, for a scale in range. */
  lemma {:induction false} WheelDirection(scale: real, deltaY: real)
    requires MinScale <= scale <= MaxScale
    ensures deltaY < 0.0 ==> NextScale(scale, deltaY) >= scale
    ensures deltaY > 0.0 ==> NextScale(scale, deltaY) <= scale
  {
    var f := 1.0 - deltaY * ScaleStep;
    if deltaY < 0.0 {
      assert f > 1.0;
      assert scale * f >= scale * 1.0;
    } else if deltaY > 0.0 {
      assert f < 1.0;
      assert scale * f <= scale * 1.0;
    }
  }

  /** A larger delta never gives a larger scale, for a positive scale. */
  lemma {:induction false} NextScaleMonotone(scale: real, d1: real, d2: real)
    requires scale > 0.0 && d1 <= d2
    ensures NextScale(scale, d2) <= NextScale(scale, d1)
  {
    assert scale * (d2 - d1) >= 0.0;
    assert scale * (1.0 - d2 * ScaleStep) <= scale * (1.0 - d1 * ScaleStep);
  }

  /** One notch up at (50, 50) from the identity viewport zooms to 1.15 about
      that point. */
  lemma ZoomInScenario()
    ensures var r := NextViewportFromWheel(Viewport(0.0, 0.0, 1.0), -100.0, Point(50.0, 50.0));
            r.scale == 1.15 && r.x == -7.5 && r.y == -7.5 && WorldToScreen(r, Point(50.0, 50.0)) == Point(50.0, 50.0)
  {
    ZoomInScale();
  }

  lemma ZoomInScale()
    ensures NextScale(1.0, -100.0) == 1.15
  {
    assert 1.0 * (1.0 - -100.0 * ScaleStep) == 1.15;
  }
}
