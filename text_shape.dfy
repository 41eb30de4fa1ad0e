/** Text boxes: their bounds, their hit test and their traits. */
module TextShape {
  import opened Canvas

  /** A text node's bounds are its position and size. */
  function GetBounds(n: Node): (r: Rect)
    ensures r.x == n.position.x && r.y == n.position.y
    ensures r.width == n.size.width && r.height == n.size.height
  {
    Rect(n.position.x, n.position.y, n.size.width, n.size.height)
  }

  /** The closed bounds rectangle answers, edges included. */
  function HitTest(n: Node, p: Point): (r: bool)
    ensures r <==> InRect(BoxOf(n), p)
  {
    var bounds := GetBounds(n);
    p.x >= bounds.x && p.x <= bounds.x + bounds.width &&
    p.y >= bounds.y && p.y <= bounds.y + bounds.height
  }

  /** All four corners of a text box of non-negative size answer. */
  lemma CornersHit(n: Node)
    requires n.size.width >= 0.0 && n.size.height >= 0.0
    ensures var b := GetBounds(n);
            HitTest(n, Point(b.x, b.y)) && HitTest(n, Point(b.x + b.width, b.y)) &&
            HitTest(n, Point(b.x, b.y + b.height)) && HitTest(n, Point(b.x + b.width, b.y + b.height))
  {
  }

  /** A text box can be dragged and edited, but not resized or rotated. */
  const TextTraits: Traits := Traits(draggable := true, resizable := false, rotatable := false,
                                     connectable := false, textEditable := true)
}
