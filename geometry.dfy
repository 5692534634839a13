/**
 * The geometric vocabulary of the simulator: points, bounding boxes, regions
 * (the java.awt.geom.Area values that entities are made of) and the bundle of
 * foreign library functions the core calls.
 *
 * Regions are kept as terms: a shape the code builds (a rectangle, a circle, a
 * spill path) or a transform or boolean combination of regions.  What the Java
 * library computes about a region (whether it is empty, its bounds, its outline
 * as the path iterator lists it) and the trigonometry of java.lang.Math are
 * fields of `Lib`, so every statement of the model holds for any library
 * that answers those questions.
 */
module Geometry {

  /** An XPoint, as a value. */
  datatype Point = Point(x: real, y: real)

  /** The Rectangle2D that getBounds2D returns. */
  datatype Box = Box(x: real, y: real, width: real, height: real)
  {
    function CentreX(): real { x + width / 2.0 }
    function CentreY(): real { y + height / 2.0 }
    /** The bounding-box area that Environment.getShapeArea computes: height times width. */
    function Area(): real { height * width }
  }

  datatype Region =
    | Rect(x: real, y: real, w: real, h: real)
    | Ellipse(x: real, y: real, w: real, h: real)
    | Segment(from: Point, to: Point)
    | Arc(x: real, y: real, w: real, h: real, startAngle: real, extent: real, kind: int)
    | SpillPath(origin: Point, control1: Point, turn: Point, control2: Point)
    | Polygon(xs: seq<int>, ys: seq<int>)
    | Rotated(base: Region, angle: real, pivot: Point)
    | Translated(base: Region, dx: real, dy: real)
    | Intersection(left: Region, right: Region)
    | Difference(left: Region, right: Region)
    | ExclusiveOr(left: Region, right: Region)

  /** Entity(x, y, r): the circle of radius r about (x, y), as an Ellipse2D frame. */
  function Circle(x: real, y: real, r: real): Region
  {
    Ellipse(x - r, y - r, 2.0 * r, 2.0 * r)
  }

  /** The vertex list a path iterator yields; never empty, since the callers take its last vertex. */
  type Outline = s: seq<Point> | |s| > 0 witness [Point(0.0, 0.0)]

  /** The foreign functions the core calls: java.lang.Math, String.valueOf(double), java.awt.geom. */
  datatype Lib = Lib(
    sin: real -> real,
    cos: real -> real,
    atan: real -> real,
    atan2: (real, real) -> real,
    sqrt: real -> real,
    show: real -> string,
    isEmpty: Region -> bool,
    member: (Region, Point) -> bool,
    bounds: Region -> Box,
    outline: Region -> Outline,
    linesIntersect: (Point, Point, Point, Point) -> bool)

  /**
   * Whether p lies in r: the boolean combinations are read pointwise, every
   * other region asks the library.
   */
  function In(lib: Lib, r: Region, p: Point): bool
  {
    match r
    case Intersection(a, b) => In(lib, a, p) && In(lib, b, p)
    case Difference(a, b) => In(lib, a, p) && !In(lib, b, p)
    case ExclusiveOr(a, b) => In(lib, a, p) != In(lib, b, p)
    case _ => lib.member(r, p)
  }

  /**
   * A library whose emptiness test agrees with its point sets, and whose
   * non-empty regions have bounding boxes of positive width and height, as
   * java.awt.geom.Area's do.
   */
  ghost predicate Sound(lib: Lib)
  {
    (forall r :: lib.isEmpty(r) <==> forall p :: !In(lib, r, p))
    && (forall r :: !lib.isEmpty(r) ==> lib.bounds(r).width > 0.0 && lib.bounds(r).height > 0.0)
  }

  /** A library whose translated regions hold exactly the points of the original moved by the offset. */
  ghost predicate Translates(lib: Lib)
  {
    forall r, dx, dy, p :: In(lib, Translated(r, dx, dy), p) <==> In(lib, r, Point(p.x - dx, p.y - dy))
  }

  /** Point2D.distance. */
  function Distance(lib: Lib, p: Point, q: Point): real
  {
    lib.sqrt((p.x - q.x) * (p.x - q.x) + (p.y - q.y) * (p.y - q.y))
  }
}
