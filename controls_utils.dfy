/** Transform controls around a selection: handle size, the merged bounds of
    the selected nodes, the eight scale handles and the rotate handle, handle
    hit-testing, the resize rule with its minimum size and pinned opposite
    edge, and the rotation helpers. */
module ControlUtils {
  import opened Util
  import opened Canvas

  datatype HandleId = NW | N | NE | E | SE | S | SW | W | Rotate

  datatype HandleType = ScaleKind | RotateKind

  datatype Handle = Handle(id: HandleId, kind: HandleType, position: Point, cursor: string)

  /** The id a handle carries in the source; the resize rule reads its letters. */
  function Name(id: HandleId): string {
    match id
    case NW => "nw"
    case N => "n"
    case NE => "ne"
    case E => "e"
    case SE => "se"
    case S => "s"
    case SW => "sw"
    case W => "w"
    case Rotate => "rotate"
  }

  function Cursor(id: HandleId): string {
    match id
    case NW => "nwse-resize"
    case N => "ns-resize"
    case NE => "nesw-resize"
    case E => "ew-resize"
    case SE => "nwse-resize"
    case S => "ns-resize"
    case SW => "nesw-resize"
    case W => "ew-resize"
    case Rotate => "grab"
  }

  predicate MovesWest(id: HandleId) { 'w' in Name(id) }
  predicate MovesEast(id: HandleId) { 'e' in Name(id) }
  predicate MovesNorth(id: HandleId) { 'n' in Name(id) }
  predicate MovesSouth(id: HandleId) { 's' in Name(id) }

  /** The order in which the scale handles are laid out (and hit-tested). */
  const ScaleOrder: seq<HandleId> := [NW, N, NE, E, SE, S, SW, W]

  const DefaultMinSize: real := 20.0

  /** Where a scale handle sits, read off the letters of its name: a west
      handle on the left edge, an east one on the right, neither on the
      centre line; likewise north, south. */
  function CompassPoint(b: Rect, id: HandleId): Point {
    Point(if MovesWest(id) then b.x else if MovesEast(id) then b.x + b.width else b.x + b.width / 2.0,
          if MovesNorth(id) then b.y else if MovesSouth(id) then b.y + b.height else b.y + b.height / 2.0)
  }

  /** Handles are drawn at a constant screen size, but never smaller than 6 world units. */
  function HandleSize(scale: real): (r: real)
    requires scale != 0.0
    ensures r >= 6.0 && r >= 10.0 / scale
    ensures r == 6.0 || r == 10.0 / scale
  {
    Max(6.0, 10.0 / scale)
  }

  function Lefts(rs: seq<Rect>): (xs: seq<real>)
    ensures |xs| == |rs| && forall i :: 0 <= i < |rs| ==> xs[i] == rs[i].x
  {
    seq(|rs|, i requires 0 <= i < |rs| => rs[i].x)
  }

  function Tops(rs: seq<Rect>): (ys: seq<real>)
    ensures |ys| == |rs| && forall i :: 0 <= i < |rs| ==> ys[i] == rs[i].y
  {
    seq(|rs|, i requires 0 <= i < |rs| => rs[i].y)
  }

  function Rights(rs: seq<Rect>): (xs: seq<real>)
    ensures |xs| == |rs| && forall i :: 0 <= i < |rs| ==> xs[i] == rs[i].x + rs[i].width
  {
    seq(|rs|, i requires 0 <= i < |rs| => rs[i].x + rs[i].width)
  }

  function Bottoms(rs: seq<Rect>): (ys: seq<real>)
    ensures |ys| == |rs| && forall i :: 0 <= i < |rs| ==> ys[i] == rs[i].y + rs[i].height
  {
    seq(|rs|, i requires 0 <= i < |rs| => rs[i].y + rs[i].height)
  }

  /** The bounding box of a list of rectangles: absent for an empty list,
      otherwise a box around all of them whose every side touches one of them. */
  function MergedBounds(rs: seq<Rect>): (r: Option<Rect>)
    ensures r.None? <==> |rs| == 0
    ensures r.Some? ==> forall i :: 0 <= i < |rs| ==> Encloses(r.value, rs[i])
    ensures r.Some? ==> exists i :: 0 <= i < |rs| && r.value.x == rs[i].x
    ensures r.Some? ==> exists i :: 0 <= i < |rs| && r.value.y == rs[i].y
    ensures r.Some? ==> exists i :: 0 <= i < |rs| && r.value.x + r.value.width == rs[i].x + rs[i].width
    ensures r.Some? ==> exists i :: 0 <= i < |rs| && r.value.y + r.value.height == rs[i].y + rs[i].height
  {
    if |rs| == 0 then None
    else
      var minX, minY := SeqMin(Lefts(rs)), SeqMin(Tops(rs));
      var maxX, maxY := SeqMax(Rights(rs)), SeqMax(Bottoms(rs));
      Some(Rect(minX, minY, maxX - minX, maxY - minY))
  }

  /** The merged bounds are the least box enclosing every input. */
  lemma MergedBoundsLeast(rs: seq<Rect>, outer: Rect)
    requires |rs| > 0
    requires forall i :: 0 <= i < |rs| ==> Encloses(outer, rs[i])
    ensures MergedBounds(rs).Some? && Encloses(outer, MergedBounds(rs).value)
  {
    var m := MergedBounds(rs).value;
    var i0 :| 0 <= i0 < |rs| && m.x == rs[i0].x;
    var i1 :| 0 <= i1 < |rs| && m.y == rs[i1].y;
    var i2 :| 0 <= i2 < |rs| && m.x + m.width == rs[i2].x + rs[i2].width;
    var i3 :| 0 <= i3 < |rs| && m.y + m.height == rs[i3].y + rs[i3].height;
    assert Encloses(outer, rs[i0]) && Encloses(outer, rs[i1]) && Encloses(outer, rs[i2]) && Encloses(outer, rs[i3]);
  }

  /** What the source's fold holds after its first `i` rectangles. */
  ghost predicate FoldedUpTo(rs: seq<Rect>, i: nat, minX: real, minY: real, maxX: real, maxY: real)
    requires 0 < i <= |rs|
  {
    minX == SeqMin(Lefts(rs)[..i]) && minY == SeqMin(Tops(rs)[..i]) &&
    maxX == SeqMax(Rights(rs)[..i]) && maxY == SeqMax(Bottoms(rs)[..i])
  }

  lemma FoldStart(rs: seq<Rect>)
    requires |rs| > 0
    ensures FoldedUpTo(rs, 1, rs[0].x, rs[0].y, rs[0].x + rs[0].width, rs[0].y + rs[0].height)
  {
  }

  lemma FoldStep(rs: seq<Rect>, i: nat, minX: real, minY: real, maxX: real, maxY: real)
    requires 0 < i < |rs| && FoldedUpTo(rs, i, minX, minY, maxX, maxY)
    ensures FoldedUpTo(rs, i + 1, Min(minX, rs[i].x), Min(minY, rs[i].y),
                       Max(maxX, rs[i].x + rs[i].width), Max(maxY, rs[i].y + rs[i].height))
  {
    SeqMinStep(Lefts(rs), i);
    SeqMinStep(Tops(rs), i);
    SeqMaxStep(Rights(rs), i);
    SeqMaxStep(Bottoms(rs), i);
  }

  lemma FoldEnd(rs: seq<Rect>, minX: real, minY: real, maxX: real, maxY: real)
    requires |rs| > 0 && FoldedUpTo(rs, |rs|, minX, minY, maxX, maxY)
    ensures MergedBounds(rs) == Some(Rect(minX, minY, maxX - minX, maxY - minY))
  {
    assert Lefts(rs)[..|rs|] == Lefts(rs) && Tops(rs)[..|rs|] == Tops(rs);
    assert Rights(rs)[..|rs|] == Rights(rs) && Bottoms(rs)[..|rs|] == Bottoms(rs);
    assert MergedBounds(rs).value == Rect(minX, minY, maxX - minX, maxY - minY);
  }

  /** The four running sides (least left, least top, greatest right,
      greatest bottom) after folding in the first `i` rectangles. */
  function FoldedSides(rs: seq<Rect>, i: nat): (real, real, real, real)
    requires 0 < i <= |rs|
  {
    if i == 1 then (rs[0].x, rs[0].y, rs[0].x + rs[0].width, rs[0].y + rs[0].height)
    else
      var (minX, minY, maxX, maxY) := FoldedSides(rs, i - 1);
      var rect := rs[i - 1];
      (Min(minX, rect.x), Min(minY, rect.y), Max(maxX, rect.x + rect.width), Max(maxY, rect.y + rect.height))
  }

  lemma {:induction false} FoldedSidesAreExtremes(rs: seq<Rect>, i: nat)
    requires 0 < i <= |rs|
    ensures FoldedUpTo(rs, i, FoldedSides(rs, i).0, FoldedSides(rs, i).1, FoldedSides(rs, i).2, FoldedSides(rs, i).3)
  {
    if i == 1 {
      FoldStart(rs);
    } else {
      var j := i - 1;
      FoldedSidesAreExtremes(rs, j);
      var t := FoldedSides(rs, j);
      FoldStep(rs, j, t.0, t.1, t.2, t.3);
      assert j + 1 == i;
      assert FoldedSides(rs, i) == (Min(t.0, rs[j].x), Min(t.1, rs[j].y),
                                    Max(t.2, rs[j].x + rs[j].width), Max(t.3, rs[j].y + rs[j].height));
    }
  }

  /** The source's fold over the list, one running minimum and maximum per side. */
  method GetSelectionBounds(bounds: seq<Rect>) returns (r: Option<Rect>)
    ensures r == MergedBounds(bounds)
  {
    if |bounds| == 0 {
      return None;
    }
    var minX, minY, maxX, maxY := FoldSides(bounds);
    FoldedSidesAreExtremes(bounds, |bounds|);
    FoldEnd(bounds, minX, minY, maxX, maxY);
    r := Some(Rect(minX, minY, maxX - minX, maxY - minY));
  }

  /** The loop of the fold, from the first rectangle's sides onwards. */
  method FoldSides(bounds: seq<Rect>) returns (minX: real, minY: real, maxX: real, maxY: real)
    requires |bounds| > 0
    ensures (minX, minY, maxX, maxY) == FoldedSides(bounds, |bounds|)
  {
    var first := bounds[0];
    minX, minY := first.x, first.y;
    maxX, maxY := first.x + first.width, first.y + first.height;
    var i := 1;
    while i < |bounds|
      invariant 1 <= i <= |bounds|
      invariant (minX, minY, maxX, maxY) == FoldedSides(bounds, i)
    {
      var rect := bounds[i];
      minX := Min(minX, rect.x);
      minY := Min(minY, rect.y);
      maxX := Max(maxX, rect.x + rect.width);
      maxY := Max(maxY, rect.y + rect.height);
      i := i + 1;
    }
  }

  /** The eight scale handles in the order nw, n, ne, e, se, s, sw, w at the
      corners and edge midpoints, then the rotate handle above the top edge
      when one is wanted. */
  function ControlHandles(b: Rect, handleSize: real, includeRotate: bool): (hs: seq<Handle>)
    ensures |hs| == if includeRotate then 9 else 8
    ensures forall i :: 0 <= i < 8 ==>
      hs[i].id == ScaleOrder[i] && hs[i].kind == ScaleKind &&
      hs[i].position == CompassPoint(b, hs[i].id) && hs[i].cursor == Cursor(hs[i].id)
    ensures includeRotate ==>
              hs[8].id == Rotate && hs[8].kind == RotateKind &&
              hs[8].position == Point(Center(b).x, b.y - 2.2 * handleSize) && hs[8].cursor == Cursor(Rotate)
  {
    var x, y, width, height := b.x, b.y, b.width, b.height;
    var cx, cy := x + width / 2.0, y + height / 2.0;
    var rotateOffset := handleSize * 2.2;
    var handles := [
      Handle(NW, ScaleKind, Point(x, y), Cursor(NW)),
      Handle(N, ScaleKind, Point(cx, y), Cursor(N)),
      Handle(NE, ScaleKind, Point(x + width, y), Cursor(NE)),
      Handle(E, ScaleKind, Point(x + width, cy), Cursor(E)),
      Handle(SE, ScaleKind, Point(x + width, y + height), Cursor(SE)),
      Handle(S, ScaleKind, Point(cx, y + height), Cursor(S)),
      Handle(SW, ScaleKind, Point(x, y + height), Cursor(SW)),
      Handle(W, ScaleKind, Point(x, cy), Cursor(W))
    ];
    if includeRotate then handles + [Handle(Rotate, RotateKind, Point(cx, y - rotateOffset), Cursor(Rotate))]
    else handles
  }

  /** The region a handle answers to: a closed disk for the rotate handle, a
      closed square for the others, both of half-size `half`. */
  predicate HandleContains(h: Handle, p: Point, half: real) {
    var dx, dy := p.x - h.position.x, p.y - h.position.y;
    if h.id == Rotate then dx * dx + dy * dy <= half * half
    else h.position.x - half <= p.x <= h.position.x + half &&
         h.position.y - half <= p.y <= h.position.y + half
  }

  /** The first handle, in list order, whose region contains the point. */
  function HitTestHandle(p: Point, handles: seq<Handle>, handleSize: real): (r: Option<Handle>)
    ensures r.None? <==> forall i :: 0 <= i < |handles| ==> !HandleContains(handles[i], p, handleSize / 2.0)
    ensures r.Some? ==>
              exists i :: 0 <= i < |handles| && handles[i] == r.value &&
                          HandleContains(handles[i], p, handleSize / 2.0) &&
                          forall j :: 0 <= j < i ==> !HandleContains(handles[j], p, handleSize / 2.0)
  {
    FindFirst(handles, (h: Handle) => HandleContains(h, p, handleSize / 2.0))
  }

  /** A handle always answers to a pointer exactly on it. */
  lemma HandleHitAtPosition(h: Handle, handleSize: real)
    requires handleSize >= 0.0
    ensures HandleContains(h, h.position, handleSize / 2.0)
  {
  }

  /** The resize rule: the pointer delta moves the edges the handle names,
      a west (north) handle moves the left (top) edge and keeps the right
      (bottom) one, and a side that would get shorter than `minSize` is set
      to `minSize`, still against the kept edge. The rotate handle resizes
      nothing. */
  function Resized(start: Rect, id: HandleId, from: Point, to: Point, minSize: real): (r: Rect)
    ensures id == Rotate ==> r == start
    ensures id != Rotate ==> r.width >= minSize && r.height >= minSize
    ensures id != Rotate && MovesWest(id) ==> r.x + r.width == start.x + start.width
    ensures id != Rotate && !MovesWest(id) ==> r.x == start.x
    ensures id != Rotate && MovesNorth(id) ==> r.y + r.height == start.y + start.height
    ensures id != Rotate && !MovesNorth(id) ==> r.y == start.y
    ensures id != Rotate && MovesEast(id) ==> r.width == Max(start.width + (to.x - from.x), minSize)
    ensures id != Rotate && MovesWest(id) ==> r.width == Max(start.width - (to.x - from.x), minSize)
    ensures id != Rotate && !MovesEast(id) && !MovesWest(id) ==> r.width == Max(start.width, minSize)
    ensures id != Rotate && MovesSouth(id) ==> r.height == Max(start.height + (to.y - from.y), minSize)
    ensures id != Rotate && MovesNorth(id) ==> r.height == Max(start.height - (to.y - from.y), minSize)
    ensures id != Rotate && !MovesSouth(id) && !MovesNorth(id) ==> r.height == Max(start.height, minSize)
    ensures from == to && start.width >= minSize && start.height >= minSize ==> r == start
  {
    if id == Rotate then start
    else
      var dx, dy := to.x - from.x, to.y - from.y;
      var width := if MovesWest(id) then start.width - dx
                   else if MovesEast(id) then start.width + dx
                   else start.width;
      var height := if MovesNorth(id) then start.height - dy
                    else if MovesSouth(id) then start.height + dy
                    else start.height;
      var w, h := Max(width, minSize), Max(height, minSize);
      Rect(if MovesWest(id) then start.x + start.width - w else start.x,
           if MovesNorth(id) then start.y + start.height - h else start.y,
           w, h)
  }

  /** The source's step-by-step reassignment of `x`, `y`, `width`, `height`. */
  method ResizeBounds(start: Rect, handleId: HandleId, startPointer: Point, currentPointer: Point, minSize: real)
    returns (r: Rect)
    ensures r == Resized(start, handleId, startPointer, currentPointer, minSize)
  {
    if handleId == Rotate {
      return start;
    }
    var dx := currentPointer.x - startPointer.x;
    var dy := currentPointer.y - startPointer.y;
    var x, y, width, height := start.x, start.y, start.width, start.height;

    var isWest := 'w' in Name(handleId);
    var isEast := 'e' in Name(handleId);
    var isNorth := 'n' in Name(handleId);
    var isSouth := 's' in Name(handleId);

    if isEast {
      width := start.width + dx;
    }
    if isWest {
      width := start.width - dx;
      x := start.x + dx;
    }
    if width < minSize {
      width := minSize;
      if isWest {
        x := start.x + (start.width - minSize);
      }
    }

    if isSouth {
      height := start.height + dy;
    }
    if isNorth {
      height := start.height - dy;
      y := start.y + dy;
    }
    if height < minSize {
      height := minSize;
      if isNorth {
        y := start.y + (start.height - minSize);
      }
    }
    r := Rect(x, y, width, height);
  }

  /** Dragging the south-west handle of {0,0,100,50} from (0,50) to (-20,70). */
  lemma ResizeSouthWestScenario()
    ensures Resized(Rect(0.0, 0.0, 100.0, 50.0), SW, Point(0.0, 50.0), Point(-20.0, 70.0), DefaultMinSize)
            == Rect(-20.0, 0.0, 120.0, 70.0)
  {
    assert MovesWest(SW) && MovesSouth(SW) && !MovesNorth(SW) && !MovesEast(SW);
  }

  /** Dragging a corner handle outwards never shrinks the box: the south-east
      handle moved right and down gives a box at least as large. */
  lemma ResizeSouthEastGrows(start: Rect, from: Point, to: Point, minSize: real)
    requires from.x <= to.x && from.y <= to.y
    requires start.width >= minSize && start.height >= minSize
    ensures Encloses(Resized(start, SE, from, to, minSize), start)
  {
    assert MovesEast(SE) && MovesSouth(SE) && !MovesWest(SE) && !MovesNorth(SE);
  }

  /** Dragging the south-east handle strictly right and down strictly grows
      both sides and keeps the top-left corner where it was. */
  lemma ResizeSouthEastStrictlyGrows(start: Rect, from: Point, to: Point, minSize: real)
    requires from.x < to.x && from.y < to.y
    ensures var r := Resized(start, SE, from, to, minSize);
            r.width > start.width && r.height > start.height && r.x == start.x && r.y == start.y
  {
    assert MovesEast(SE) && MovesSouth(SE) && !MovesWest(SE) && !MovesNorth(SE);
  }

  /** The rotation, in radians, that takes `from` to `to` about `center`. */
  function RotationDelta(trig: Trig, center: Point, from: Point, to: Point): (r: real)
    ensures from == to ==> r == 0.0
  {
    var start := trig.atan2(from.y - center.y, from.x - center.x);
    var next := trig.atan2(to.y - center.y, to.x - center.x);
    next - start
  }

  /** `point` turned by `angle` about `center`. */
  function RotatePoint(trig: Trig, p: Point, center: Point, angle: real): (r: Point)
    ensures p == center ==> r == center
    ensures trig.cos(angle) == 1.0 && trig.sin(angle) == 0.0 ==> r == p
  {
    var cos, sin := trig.cos(angle), trig.sin(angle);
    var dx, dy := p.x - center.x, p.y - center.y;
    Point(center.x + dx * cos - dy * sin, center.y + dx * sin + dy * cos)
  }

  /** With cos² + sin² = 1, turning about a centre keeps the distance to it. */
  lemma RotatePointKeepsDistance(trig: Trig, p: Point, center: Point, angle: real)
    requires trig.cos(angle) * trig.cos(angle) + trig.sin(angle) * trig.sin(angle) == 1.0
    ensures SquaredDistance(RotatePoint(trig, p, center, angle), center) == SquaredDistance(p, center)
  {
    var c, s := trig.cos(angle), trig.sin(angle);
    var dx, dy := p.x - center.x, p.y - center.y;
    calc {
      (dx * c - dy * s) * (dx * c - dy * s) + (dx * s + dy * c) * (dx * s + dy * c);
      dx * dx * (c * c + s * s) + dy * dy * (c * c + s * s);
      dx * dx + dy * dy;
    }
  }
}
