/** The scene graph the board edits: points and rectangles in world space, the
    viewport that maps world to screen, nodes (geometry, text and connectors),
    edges, groups, the selection and the whole canvas state. Numbers are exact
    reals; the source's doubles are not modelled bit for bit. */
module Canvas {
  import opened Util

  datatype Point = Point(x: real, y: real)

  const Origin: Point := Point(0.0, 0.0)

  datatype Size = Size(width: real, height: real)

  datatype Rect = Rect(x: real, y: real, width: real, height: real)

  /** `screen = world * scale + (x, y)` */
  datatype Viewport = Viewport(x: real, y: real, scale: real)

  datatype GeometryKind = RectKind | EllipseKind

  datatype LineType = Straight | Orthogonal | Curve

  datatype ConnectorMode = Linked | Free

  /** A connector end: attached (`nodeId`, `anchorId`, `offset`) or free (`position`).
      Every field is optional, as in the source. */
  datatype Endpoint = Endpoint(nodeId: Option<string>, anchorId: Option<string>,
                               offset: Option<Point>, position: Option<Point>)

  /** The style fields of a connector the core reads; an absent style is a
      style whose fields are all absent. */
  datatype ConnectorStyle = ConnectorStyle(lineType: Option<LineType>, strokeWidth: Option<real>)

  const NoStyle: ConnectorStyle := ConnectorStyle(None, None)

  /** What distinguishes the three node types. */
  datatype Shape =
    | Geometry(kind: GeometryKind)
    | Text
    | Connector(mode: ConnectorMode, source: Endpoint, target: Endpoint, style: ConnectorStyle)

  datatype Node = Node(id: string, shape: Shape, position: Point, size: Size, rotation: Option<real>)

  datatype Edge = Edge(id: string, source: string, target: string)

  datatype Group = Group(id: string, name: string, nodeIds: seq<string>)

  datatype SelectionMode = Single | Multi

  datatype Selection = Selection(nodeIds: seq<string>, edgeIds: seq<string>, groupIds: seq<string>,
                                 mode: SelectionMode, box: Option<Rect>)

  datatype CanvasState = CanvasState(nodes: seq<Node>, edges: seq<Edge>, groups: seq<Group>,
                                     selection: Selection, viewport: Viewport, updatedAt: int)

  /** The behaviour flags a node type declares; a flag it leaves out is false. */
  datatype Traits = Traits(draggable: bool, resizable: bool, rotatable: bool,
                           connectable: bool, textEditable: bool)

  /** The transcendental functions the source takes from `Math`; they are not
      modelled, only passed in. */
  datatype Trig = Trig(cos: real -> real, sin: real -> real,
                       atan2: (real, real) -> real, hypot: (real, real) -> real)

  /** JavaScript truthiness of an optional string: absent and `""` are false. */
  predicate Truthy(s: Option<string>) {
    s.Some? && s.value != ""
  }

  function Center(r: Rect): Point {
    Point(r.x + r.width / 2.0, r.y + r.height / 2.0)
  }

  function Offset(p: Point, d: Point): Point {
    Point(p.x + d.x, p.y + d.y)
  }

  function SquaredDistance(a: Point, b: Point): real {
    (a.x - b.x) * (a.x - b.x) + (a.y - b.y) * (a.y - b.y)
  }

  /** The closed rectangle, edges included. */
  predicate InRect(r: Rect, p: Point) {
    r.x <= p.x <= r.x + r.width && r.y <= p.y <= r.y + r.height
  }

  predicate Encloses(outer: Rect, inner: Rect) {
    outer.x <= inner.x && inner.x + inner.width <= outer.x + outer.width &&
    outer.y <= inner.y && inner.y + inner.height <= outer.y + outer.height
  }

  /** The rectangle a node's `position` and `size` describe. */
  function BoxOf(n: Node): Rect {
    Rect(n.position.x, n.position.y, n.size.width, n.size.height)
  }

  /** `node.rotation ?? 0` */
  function RotationOf(n: Node): real {
    n.rotation.GetOr(0.0)
  }

  /** `nodes.find((node) => node.id === id)` */
  function FindNode(nodes: seq<Node>, id: string): (r: Option<Node>)
    ensures r.None? <==> forall i :: 0 <= i < |nodes| ==> nodes[i].id != id
    ensures r.Some? ==> r.value.id == id
    ensures r.Some? ==> exists i :: 0 <= i < |nodes| && nodes[i] == r.value &&
                                    forall j :: 0 <= j < i ==> nodes[j].id != id
  {
    FindFirst(nodes, (n: Node) => n.id == id)
  }

  predicate HasNode(nodes: seq<Node>, id: string) {
    exists i :: 0 <= i < |nodes| && nodes[i].id == id
  }
}
