/**
 * simulation.geometry.XPoint: the point-on-line test, the bearing between two
 * points, offset vectors, and the two ray queries against an entity's outline
 * that the range sensors use.
 */
module Points {
  import opened Numerics
  import opened Geometry
  import opened Wrappers

  /** The tolerance of isOnLine. */
  const LINE_EPSILON: real := 0.0001
  /** XPoint.EPS: below this |dx| the ray test divides by dy instead. */
  const EPS: real := 0.001

  /** The double (a.y - b.y) / (a.x - b.x): infinite for a vertical pair, NaN for equal ends. */
  datatype Slope = Infinite | Undefined | Finite(m: real)

  function SlopeOf(a: Point, b: Point): (s: Slope)
    ensures s.Infinite? <==> a.x == b.x && a.y != b.y
    ensures s.Undefined? <==> a == b
  {
    if a.x != b.x then Finite((a.y - b.y) / (a.x - b.x))
    else if a.y != b.y then Infinite
    else Undefined
  }

  /**
   * isOnLine: p lies within 0.0001 of the infinite line through a and b.  For
   * equal ends the slope is NaN, which is not infinite, so the line formula is
   * taken and every comparison with NaN fails.
   */
  predicate IsOnLine(p: Point, a: Point, b: Point)
  {
    match SlopeOf(a, b)
    case Infinite => Abs(p.x - a.x) < LINE_EPSILON
    case Undefined => false
    case Finite(m) => Abs(p.y - (m * p.x + (a.y - m * a.x))) < LINE_EPSILON
  }

  /** The point a + t (b - a) of the line through a and b, for any t, not only 0 <= t <= 1. */
  function Along(a: Point, b: Point, t: real): Point
  {
    Point(a.x + t * (b.x - a.x), a.y + t * (b.y - a.y))
  }

  /** Every point of the line through two distinct ends is on it, also beyond the ends; equal ends accept nothing. */
  lemma {:induction false} CollinearIsOnLine(a: Point, b: Point, t: real)
    ensures IsOnLine(Along(a, b, t), a, b) <==> a != b
  {
    var p := Along(a, b, t);
    if a.x != b.x {
      var m := (a.y - b.y) / (a.x - b.x);
      assert m * (a.x - b.x) == a.y - b.y;
      assert m * (b.x - a.x) == b.y - a.y;
      calc {
        p.y - (m * p.x + (a.y - m * a.x));
        t * (b.y - a.y) - m * (t * (b.x - a.x));
        t * (b.y - a.y) - t * (m * (b.x - a.x));
        0.0;
      }
    }
  }

  /** A vertical pair accepts exactly the points within 0.0001 of its x. */
  lemma VerticalLine(p: Point, a: Point, b: Point)
    requires a.x == b.x && a.y != b.y
    ensures IsOnLine(p, a, b) <==> Abs(p.x - a.x) < LINE_EPSILON
  {
  }

  /** isOnLine with equal ends never holds. */
  lemma DegenerateLine(p: Point, a: Point)
    ensures !IsOnLine(p, a, a)
  {
  }

  /** (2,2) is on the line through (1,1) and (5,5); (2,22) is not on the one through (0,1) and (13,5). */
  lemma OnLineExamples()
    ensures IsOnLine(Point(2.0, 2.0), Point(1.0, 1.0), Point(5.0, 5.0))
    ensures !IsOnLine(Point(2.0, 22.0), Point(0.0, 1.0), Point(13.0, 5.0))
  {
  }

  /** getAngleTo: atan2(x - p.x, p.y - y), the heading from p0 towards p in the simulator's convention. */
  function AngleTo(lib: Lib, p0: Point, p: Point): real
  {
    lib.atan2(p0.x - p.x, p.y - p0.y)
  }

  /** addVector: p moved by offset rotated through angle. */
  function AddVector(lib: Lib, p: Point, offset: Point, angle: real): Point
  {
    Point(p.x + offset.x * lib.cos(angle) - offset.y * lib.sin(angle),
          p.y + offset.y * lib.cos(angle) + offset.x * lib.sin(angle))
  }

  /** The vertex before vertex i of an outline; the first vertex pairs with the last. */
  function Prev(poly: seq<Point>, i: nat): Point
    requires i < |poly|
  {
    if i == 0 then poly[|poly| - 1] else poly[i - 1]
  }

  /**
   * The ray test of distanceToPolygon for the edge from a to b, with the ray
   * direction (dx, dy): the distance to the crossing when 0 <= h <= 1 and
   * g >= 0.  A zero divisor makes h or g infinite or NaN in Java; either way the
   * edge never lowers the minimum, so it is reported as no crossing.
   */
  function EdgeHit(lib: Lib, p: Point, dx: real, dy: real, a: Point, b: Point): Option<real>
  {
    var hDen := dy * (b.x - a.x) - dx * (b.y - a.y);
    var gDen := if Abs(dx) < EPS then dy else dx;
    if hDen == 0.0 || gDen == 0.0 then None
    else
      var h := (dx * (a.y - p.y) + dy * (p.x - a.x)) / hDen;
      var g := (if Abs(dx) < EPS then a.y + h * (b.y - a.y) - p.y else a.x + h * (b.x - a.x) - p.x) / gDen;
      if 0.0 <= h && h <= 1.0 && g >= 0.0 then Some(Distance(lib, p, Point(p.x + g * dx, p.y + g * dy)))
      else None
  }

  /** The running minimum after an edge test. */
  function Lower(min: real, hit: Option<real>): real
  {
    match hit
    case Some(d) => if d < min then d else min
    case None => min
  }

  /** The minimum after folding the edge tests i.. into min, as distanceToPolygon's loop does. */
  function ScanMin(hits: seq<Option<real>>, i: nat, min: real): real
    requires i <= |hits|
    decreases |hits| - i
  {
    if i == |hits| then min else ScanMin(hits, i + 1, Lower(min, hits[i]))
  }

  /** The edge tests of an outline, edge i running from vertex i to the vertex before it. */
  function EdgeHits(lib: Lib, p: Point, dx: real, dy: real, poly: Outline): (hits: seq<Option<real>>)
    ensures |hits| == |poly|
  {
    seq(|poly|, j requires 0 <= j < |poly| => EdgeHit(lib, p, dx, dy, poly[j], Prev(poly, j)))
  }

  /** distanceToPolygon, as a value: the ray leaves p at heading angle, direction (-sin, cos). */
  function RayDistance(lib: Lib, p: Point, poly: Outline, angle: real, max: real): real
  {
    ScanMin(EdgeHits(lib, p, -lib.sin(angle), lib.cos(angle), poly), 0, max)
  }

  /** The crossing distance of edge i, if any. */
  function EdgeDistance(lib: Lib, p: Point, poly: Outline, angle: real, i: nat): Option<real>
    requires i < |poly|
  {
    EdgeHit(lib, p, -lib.sin(angle), lib.cos(angle), poly[i], Prev(poly, i))
  }

  /** distanceToPolygon: the loop over the outline with `last` trailing one vertex behind. */
  method DistanceToPolygon(lib: Lib, p: Point, polygon: Outline, angle: real, max: real) returns (min: real)
    ensures min == RayDistance(lib, p, polygon, angle, max)
  {
    min := max;
    var last := polygon[|polygon| - 1];
    var dy := lib.cos(angle);
    var dx := -lib.sin(angle);
    ghost var hits := EdgeHits(lib, p, dx, dy, polygon);
    var i := 0;
    while i < |polygon|
      invariant 0 <= i <= |polygon|
      invariant i < |polygon| ==> last == Prev(polygon, i)
      invariant ScanMin(hits, i, min) == RayDistance(lib, p, polygon, angle, max)
    {
      var point := polygon[i];
      min := Lower(min, EdgeHit(lib, p, dx, dy, point, last));
      last := point;
      i := i + 1;
    }
  }

  lemma {:induction false} ScanMinFacts(hits: seq<Option<real>>, i: nat, min: real)
    requires i <= |hits|
    decreases |hits| - i
    ensures ScanMin(hits, i, min) <= min
    ensures forall j, d :: i <= j < |hits| && hits[j] == Some(d) ==> ScanMin(hits, i, min) <= d
    ensures ScanMin(hits, i, min) == min || exists j :: i <= j < |hits| && hits[j] == Some(ScanMin(hits, i, min))
  {
    if i < |hits| {
      ScanMinFacts(hits, i + 1, Lower(min, hits[i]));
    }
  }

  /**
   * distanceToPolygon never exceeds max, is at most every accepted crossing
   * distance, and is max itself or one of those distances: the minimum of max
   * and the crossings.
   */
  lemma RayDistanceIsMinimum(lib: Lib, p: Point, poly: Outline, angle: real, max: real)
    ensures RayDistance(lib, p, poly, angle, max) <= max
    ensures forall j, d :: 0 <= j < |poly| && EdgeDistance(lib, p, poly, angle, j) == Some(d)
              ==> RayDistance(lib, p, poly, angle, max) <= d
    ensures RayDistance(lib, p, poly, angle, max) == max
            || exists j :: 0 <= j < |poly| && EdgeDistance(lib, p, poly, angle, j) == Some(RayDistance(lib, p, poly, angle, max))
  {
    var hits := EdgeHits(lib, p, -lib.sin(angle), lib.cos(angle), poly);
    ScanMinFacts(hits, 0, max);
    assert forall j :: 0 <= j < |poly| ==> hits[j] == EdgeDistance(lib, p, poly, angle, j);
  }

  /** With no accepted crossing below max, distanceToPolygon is max. */
  lemma RayDistanceNoHit(lib: Lib, p: Point, poly: Outline, angle: real, max: real)
    requires forall j :: 0 <= j < |poly| ==> Lower(max, EdgeDistance(lib, p, poly, angle, j)) == max
    ensures RayDistance(lib, p, poly, angle, max) == max
  {
    RayDistanceIsMinimum(lib, p, poly, angle, max);
  }

  /** The outline of Entity(0, 0, 100, 100). */
  function Square100(): Outline
  {
    [Point(0.0, 0.0), Point(100.0, 0.0), Point(100.0, 100.0), Point(0.0, 100.0)]
  }

  /** ScanMin over four edge tests of which only the one at k crosses, at d below max. */
  lemma ScanOneHit(hits: seq<Option<real>>, k: nat, d: real, max: real)
    requires |hits| == 4 && k < 4 && d < max
    requires forall j :: 0 <= j < 4 ==> hits[j] == if j == k then Some(d) else None
    ensures ScanMin(hits, 0, max) == d
  {
    assert hits[3] == if k == 3 then Some(d) else None;
    assert ScanMin(hits, 3, if k < 3 then d else max) == d;
    assert hits[2] == if k == 2 then Some(d) else None;
    assert ScanMin(hits, 2, if k < 2 then d else max) == d;
    assert hits[1] == if k == 1 then Some(d) else None;
    assert ScanMin(hits, 1, if k < 1 then d else max) == d;
    assert hits[0] == if k == 0 then Some(d) else None;
  }

  /** From (20,10) inside the 100x100 square the rays at 0 and pi/2 meet the walls at 90 and 20. */
  lemma RaySquareExamplesUp(lib: Lib)
    requires lib.sin(0.0) == 0.0 && lib.cos(0.0) == 1.0
    requires lib.sin(PI / 2.0) == 1.0 && lib.cos(PI / 2.0) == 0.0
    requires lib.sqrt(8100.0) == 90.0 && lib.sqrt(400.0) == 20.0
    ensures RayDistance(lib, Point(20.0, 10.0), Square100(), 0.0, 1000.0) == 90.0
    ensures RayDistance(lib, Point(20.0, 10.0), Square100(), PI / 2.0, 1000.0) == 20.0
  {
    var p, q := Point(20.0, 10.0), Square100();
    var up := EdgeHits(lib, p, -lib.sin(0.0), lib.cos(0.0), q);
    assert up[0] == None && up[1] == None && up[2] == None;
    assert up[3] == Some(90.0);
    ScanOneHit(up, 3, 90.0, 1000.0);
    var left := EdgeHits(lib, p, -lib.sin(PI / 2.0), lib.cos(PI / 2.0), q);
    assert left[0] == Some(20.0);
    assert left[1] == None && left[2] == None && left[3] == None;
    ScanOneHit(left, 0, 20.0, 1000.0);
  }

  /** From (20,10) the rays at pi and 3 pi/2 meet the walls at 10 and 80. */
  lemma RaySquareExamplesDown(lib: Lib)
    requires lib.sin(PI) == 0.0 && lib.cos(PI) == -1.0
    requires lib.sin(PI / 2.0 * 3.0) == -1.0 && lib.cos(PI / 2.0 * 3.0) == 0.0
    requires lib.sqrt(100.0) == 10.0 && lib.sqrt(6400.0) == 80.0
    ensures RayDistance(lib, Point(20.0, 10.0), Square100(), PI, 1000.0) == 10.0
    ensures RayDistance(lib, Point(20.0, 10.0), Square100(), PI / 2.0 * 3.0, 1000.0) == 80.0
  {
    var p, q := Point(20.0, 10.0), Square100();
    var down := EdgeHits(lib, p, -lib.sin(PI), lib.cos(PI), q);
    assert down[1] == Some(10.0);
    assert down[0] == None && down[2] == None && down[3] == None;
    ScanOneHit(down, 1, 10.0, 1000.0);
    var right := EdgeHits(lib, p, -lib.sin(PI / 2.0 * 3.0), lib.cos(PI / 2.0 * 3.0), q);
    assert right[2] == Some(80.0);
    assert right[0] == None && right[1] == None && right[3] == None;
    ScanOneHit(right, 2, 80.0, 1000.0);
  }

  /** Some edge of the outline meets the segment from p to end, in Line2D.intersectsLine's judgement. */
  predicate RayMeets(lib: Lib, p: Point, end: Point, poly: Outline)
  {
    exists i :: 0 <= i < |poly| && lib.linesIntersect(p, end, poly[i], Prev(poly, i))
  }

  /** intersectsPolygon: true at the first edge the segment from p to end meets. */
  method IntersectsPolygon(lib: Lib, p: Point, end: Point, polygon: Outline) returns (hit: bool)
    ensures hit <==> RayMeets(lib, p, end, polygon)
  {
    var last := polygon[|polygon| - 1];
    var i := 0;
    while i < |polygon|
      invariant 0 <= i <= |polygon|
      invariant i < |polygon| ==> last == Prev(polygon, i)
      invariant forall j :: 0 <= j < i ==> !lib.linesIntersect(p, end, polygon[j], Prev(polygon, j))
    {
      var point := polygon[i];
      if lib.linesIntersect(p, end, point, last) {
        return true;
      }
      last := point;
      i := i + 1;
    }
    return false;
  }
}
