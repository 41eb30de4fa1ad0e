/** The handler table of the three built-in node types, as a closed dispatch
    on the node's type. */
module ShapeRegistry {
  import opened Util
  import opened Canvas
  import GeometryShape
  import TextShape
  import ConnectorShape

  /** `getShapeHandler(node).getBounds(node)` */
  function Bounds(trig: Trig, n: Node): (r: Rect)
    ensures !n.shape.Connector? ==> r == BoxOf(n)
    ensures n.shape.Connector? ==> r == ConnectorShape.GetBounds(trig, n)
  {
    match n.shape
    case Geometry(_) => GeometryShape.GetBounds(n)
    case Text => TextShape.GetBounds(n)
    case Connector(_, _, _, _) => ConnectorShape.GetBounds(trig, n)
  }

  /** `getShapeHandler(node).hitTest(node, point)` */
  function HitTest(trig: Trig, n: Node, p: Point): (r: bool)
    ensures n.shape.Text? ==> (r <==> InRect(BoxOf(n), p))
    ensures n.shape == Geometry(RectKind) ==> (r <==> InRect(BoxOf(n), p))
    ensures n.shape == Geometry(EllipseKind) ==> (r <==> GeometryShape.HitTestEllipse(n, p))
    ensures n.shape.Connector? ==> (r <==> ConnectorShape.HitTest(trig, n, p))
  {
    match n.shape
    case Geometry(kind) => GeometryShape.HitTest(n, kind, p)
    case Text => TextShape.HitTest(n, p)
    case Connector(_, _, _, _) => ConnectorShape.HitTest(trig, n, p)
  }

  /** The traits a node type declares; connectors declare none. */
  function TraitsOf(s: Shape): (r: Option<Traits>)
    ensures s.Connector? <==> r.None?
    ensures s.Text? ==> r.value.draggable && r.value.textEditable && !r.value.resizable && !r.value.rotatable
    ensures s.Geometry? ==> r.value.draggable && r.value.resizable && r.value.rotatable
  {
    match s
    case Geometry(_) => Some(GeometryShape.GeometryTraits)
    case Text => Some(TextShape.TextTraits)
    case Connector(_, _, _, _) => None
  }
}
