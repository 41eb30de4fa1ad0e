/** Hit-testing the transform controls of the current selection, turned with
    the selected node when exactly one node is selected. */
module BoardControls {
  import opened Util
  import opened Canvas
  import opened ControlUtils

  /** What the board learns from a pointer-down on a control handle. */
  datatype ControlHit = ControlHit(hit: Handle, rotation: real, center: Point, handles: seq<Handle>,
                                   handleSize: real, isSingle: bool)

  /** The rotation of the one selected node; 0 for a multi-selection, a
      missing node or a node without rotation. */
  function SelectionRotation(selectionIds: seq<string>, nodes: seq<Node>): (r: real)
    ensures |selectionIds| != 1 ==> r == 0.0
    ensures |selectionIds| == 1 && !HasNode(nodes, selectionIds[0]) ==> r == 0.0
    ensures |selectionIds| == 1 && HasNode(nodes, selectionIds[0]) ==>
              r == RotationOf(FindNode(nodes, selectionIds[0]).value)
  {
    if |selectionIds| == 1 then
      match FindNode(nodes, selectionIds[0])
      case Some(node) => node.rotation.GetOr(0.0)
      case None => 0.0
    else 0.0
  }

  /** Every handle moved to where it appears once the selection is turned. */
  function RotatedHandles(trig: Trig, handles: seq<Handle>, center: Point, rotation: real): (rs: seq<Handle>)
    ensures |rs| == |handles|
    ensures forall i :: 0 <= i < |handles| ==>
              rs[i] == handles[i].(position := RotatePoint(trig, handles[i].position, center, rotation))
  {
    seq(|handles|, i requires 0 <= i < |handles| =>
      handles[i].(position := RotatePoint(trig, handles[i].position, center, rotation)))
  }

  /** The handles where the pointer meets them: turned when the selection is,
      untouched otherwise; either way the same ids in the same order. */
  function ScreenHandles(trig: Trig, handles: seq<Handle>, center: Point, rotation: real): (rs: seq<Handle>)
    ensures |rs| == |handles| && forall i :: 0 <= i < |handles| ==> rs[i].id == handles[i].id
    ensures rotation == 0.0 ==> rs == handles
  {
    if rotation != 0.0 then RotatedHandles(trig, handles, center, rotation) else handles
  }

  /** A handle with the Rotate id, taken from the control handles (moved or
      not), exists only when the rotate handle was asked for. */
  lemma RotateHandleOnlyWhenIncluded(b: Rect, handleSize: real, includeRotate: bool, hs: seq<Handle>, h: Handle)
    requires |hs| == |ControlHandles(b, handleSize, includeRotate)|
    requires forall i :: 0 <= i < |hs| ==> hs[i].id == ControlHandles(b, handleSize, includeRotate)[i].id
    requires h in hs && h.id == Rotate
    ensures includeRotate
  {
    var i :| 0 <= i < |hs| && hs[i] == h;
    assert forall k :: 0 <= k < 8 ==> ScaleOrder[k] != Rotate;
  }

  function GetControlHit(trig: Trig, point: Point, selectionBounds: Rect, selectionIds: seq<string>,
                         nodes: seq<Node>, viewportScale: real): (r: Option<ControlHit>)
    requires viewportScale != 0.0
    ensures r.Some? ==> r.value.isSingle == (|selectionIds| == 1)
    ensures r.Some? ==> r.value.handleSize == HandleSize(viewportScale)
    ensures r.Some? ==> r.value.handles == ControlHandles(selectionBounds, r.value.handleSize, r.value.isSingle)
    ensures r.Some? ==> r.value.center == Center(selectionBounds)
    ensures r.Some? ==> r.value.rotation == SelectionRotation(selectionIds, nodes)
    ensures r.Some? && r.value.hit.id == Rotate ==> |selectionIds| == 1
    ensures var size := HandleSize(viewportScale);
            var screen := ScreenHandles(trig, ControlHandles(selectionBounds, size, |selectionIds| == 1),
                                        Center(selectionBounds), SelectionRotation(selectionIds, nodes));
            var found := HitTestHandle(point, screen, size);
            (r.None? <==> found.None?) && (r.Some? ==> r.value.hit == found.value)
  {
    var isSingle := |selectionIds| == 1;
    var handleSize := HandleSize(viewportScale);
    var handles := ControlHandles(selectionBounds, handleSize, isSingle);
    var rotation := SelectionRotation(selectionIds, nodes);
    var center := Center(selectionBounds);
    var rotatedHandles := ScreenHandles(trig, handles, center, rotation);
    var hit := HitTestHandle(point, rotatedHandles, handleSize);
    assert hit.Some? && hit.value.id == Rotate ==> isSingle by {
      if hit.Some? && hit.value.id == Rotate {
        RotateHandleOnlyWhenIncluded(selectionBounds, handleSize, isSingle, rotatedHandles, hit.value);
      }
    }
    match hit
    case Some(h) => Some(ControlHit(h, rotation, center, handles, handleSize, isSingle))
    case None => None
  }

  /** With no rotation to undo, the hit is the plain hit test over the control handles. */
  lemma UnrotatedControlHit(trig: Trig, point: Point, selectionBounds: Rect, selectionIds: seq<string>,
                            nodes: seq<Node>, viewportScale: real)
    requires viewportScale != 0.0
    requires SelectionRotation(selectionIds, nodes) == 0.0
    ensures var r := GetControlHit(trig, point, selectionBounds, selectionIds, nodes, viewportScale);
            var size := HandleSize(viewportScale);
            var plain := HitTestHandle(point, ControlHandles(selectionBounds, size, |selectionIds| == 1), size);
            (r.None? <==> plain.None?) && (r.Some? ==> r.value.hit == plain.value)
  {
  }
}
