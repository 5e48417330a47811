/**
 * The constraint model as the codec sees it: a value snapshot of every entity
 * that `saveFile` writes and `loadFile` rebuilds.
 */
module Layout {
  import opened Tokens

  /** A point constraint: the four fields the codec writes for it. */
  datatype PointItem = PointItem(direction: bool, pos: Point, radius: real, port: U16)

  /** An ellipse constraint: same fields as a point constraint. */
  datatype EllipseItem = EllipseItem(direction: bool, pos: Point, radius: real, port: U16)

  /** A polygon constraint: its vertices in winding order. */
  datatype PolygonItem = PolygonItem(direction: bool, vertices: seq<Point>, port: U16)

  /** A plane (half-plane) constraint through p1 and p2. */
  datatype PlaneItem = PlaneItem(direction: bool, p1: Point, p2: Point, port: U16)

  /** The waypoints or the flown path: points in order and a port. */
  datatype PathItem = PathItem(points: seq<Point>, port: U16)

  datatype DroneItem = DroneItem(pos: Point, port: U16)

  /**
   * The whole layout. The constraint collections are kept in the order the
   * model hands them out when iterated.
   */
  datatype LayoutModel = LayoutModel(
    points: seq<PointItem>,
    ellipses: seq<EllipseItem>,
    polygons: seq<PolygonItem>,
    planes: seq<PlaneItem>,
    waypoints: PathItem,
    drone: DroneItem,
    path: PathItem)

  /** A newly constructed model: no constraints, no waypoints, no path. */
  function Fresh(): LayoutModel
  {
    LayoutModel([], [], [], [], PathItem([], 0), DroneItem(Origin, 0), PathItem([], 0))
  }

  /** Every count the codec writes fits in a quint32. */
  ghost predicate Representable(m: LayoutModel)
  {
    && |m.points| < U32Limit
    && |m.ellipses| < U32Limit
    && |m.polygons| < U32Limit
    && (forall i :: 0 <= i < |m.polygons| ==> |m.polygons[i].vertices| < U32Limit)
    && |m.planes| < U32Limit
    && |m.waypoints.points| < U32Limit
    && |m.path.points| < U32Limit
  }

  /** The ellipse whose fields are those of point constraint p. */
  function AsEllipse(p: PointItem): EllipseItem
  {
    EllipseItem(p.direction, p.pos, p.radius, p.port)
  }

  function AsEllipses(ps: seq<PointItem>): seq<EllipseItem>
  {
    seq(|ps|, i requires 0 <= i < |ps| => AsEllipse(ps[i]))
  }
}
