/**
 * simulation.geometry.Entity: the region queries every in-game object shares
 * (containment, intersection, and the two collision tests that report the
 * angle of the edge they touched).
 */
module Entities {
  import opened Numerics
  import opened Geometry
  import opened Points
  import opened Wrappers
  import opened Collisions

  /** intersects(rhs): the intersection of the two regions is not empty. */
  predicate Intersects(lib: Lib, a: Region, b: Region)
  {
    !lib.isEmpty(Intersection(a, b))
  }

  /** contains(shape): the part of shape outside this is empty. */
  predicate Contains(lib: Lib, self: Region, shape: Region)
  {
    lib.isEmpty(Difference(shape, self))
  }

  /** With a sound library, intersecting means sharing a point. */
  lemma IntersectsIffCommonPoint(lib: Lib, a: Region, b: Region)
    requires Sound(lib)
    ensures Intersects(lib, a, b) <==> exists p :: In(lib, a, p) && In(lib, b, p)
  {
    if Intersects(lib, a, b) {
      assert !forall p :: !In(lib, Intersection(a, b), p);
      var p :| In(lib, Intersection(a, b), p);
      assert In(lib, a, p) && In(lib, b, p);
      assert exists q :: In(lib, a, q) && In(lib, b, q);
    } else {
      forall p ensures !(In(lib, a, p) && In(lib, b, p)) {
        assert !In(lib, Intersection(a, b), p);
      }
    }
  }

  /** intersects is symmetric. */
  lemma IntersectsSymmetric(lib: Lib, a: Region, b: Region)
    requires Sound(lib)
    ensures Intersects(lib, a, b) <==> Intersects(lib, b, a)
  {
    IntersectsIffCommonPoint(lib, a, b);
    IntersectsIffCommonPoint(lib, b, a);
  }

  /** With a sound library, containment is inclusion of the point sets. */
  lemma ContainsIffSubset(lib: Lib, self: Region, shape: Region)
    requires Sound(lib)
    ensures Contains(lib, self, shape) <==> forall p :: In(lib, shape, p) ==> In(lib, self, p)
  {
    if !Contains(lib, self, shape) {
      assert !forall p :: !In(lib, Difference(shape, self), p);
      var p :| In(lib, Difference(shape, self), p);
      assert In(lib, shape, p) && !In(lib, self, p);
    } else {
      forall p | In(lib, shape, p) ensures In(lib, self, p) {
        assert !In(lib, Difference(shape, self), p);
      }
    }
  }

  /** A non-empty region contained in another intersects it. */
  lemma ContainedIntersects(lib: Lib, self: Region, shape: Region)
    requires Sound(lib) && Contains(lib, self, shape) && !lib.isEmpty(shape)
    ensures Intersects(lib, self, shape)
  {
    assert !forall p :: !In(lib, shape, p);
    var p :| In(lib, shape, p);
    ContainsIffSubset(lib, self, shape);
    assert forall q :: In(lib, shape, q) ==> In(lib, self, q);
    assert In(lib, self, p) && In(lib, shape, p);
    IntersectsIffCommonPoint(lib, self, shape);
    assert exists q :: In(lib, self, q) && In(lib, shape, q);
  }

  /** The vertex `point` lies on the line of edge j (vertex j and the one before it). */
  predicate OnEdge(point: Point, poly: Outline, j: nat)
    requires j < |poly|
  {
    IsOnLine(point, poly[j], Prev(poly, j))
  }

  /** The first edge from j on whose line the point lies. */
  function EdgeMatch(point: Point, poly: Outline, j: nat): (r: Option<nat>)
    requires j <= |poly|
    decreases |poly| - j
    ensures r.None? <==> forall k :: j <= k < |poly| ==> !OnEdge(point, poly, k)
    ensures r.Some? ==> j <= r.value < |poly| && OnEdge(point, poly, r.value)
                        && forall k :: j <= k < r.value ==> !OnEdge(point, poly, k)
  {
    if j == |poly| then None
    else if OnEdge(point, poly, j) then Some(j)
    else EdgeMatch(point, poly, j + 1)
  }

  /** Collision point i lies on no edge line of the outline. */
  predicate Unmatched(points: seq<Point>, poly: Outline, i: nat)
    requires i < |points|
  {
    forall k :: 0 <= k < |poly| ==> !OnEdge(points[i], poly, k)
  }

  /**
   * The first (point, edge) pair, points in the outer order and edges in the
   * inner one, with the point on the edge's line, searching points from i.
   */
  function PointMatch(points: seq<Point>, poly: Outline, i: nat): (r: Option<(nat, nat)>)
    requires i <= |points|
    decreases |points| - i
    ensures r.None? <==> forall n :: i <= n < |points| ==> Unmatched(points, poly, n)
    ensures r.Some? ==> i <= r.value.0 < |points| && r.value.1 < |poly|
                        && OnEdge(points[r.value.0], poly, r.value.1)
                        && (forall n :: i <= n < r.value.0 ==> Unmatched(points, poly, n))
                        && (forall k :: 0 <= k < r.value.1 ==> !OnEdge(points[r.value.0], poly, k))
  {
    if i == |points| then None
    else
      match EdgeMatch(points[i], poly, 0)
      case Some(j) =>
        assert !Unmatched(points, poly, i) by { assert OnEdge(points[i], poly, j); }
        Some((i, j))
      case None => PointMatch(points, poly, i + 1)
  }

  /**
   * findAngleOfCoincidentLine, as a value: the bearing of the first edge on
   * whose line a collision point lies, from its vertex to the vertex before,
   * or NaN when there is none.
   */
  function CoincidentAngle(lib: Lib, points: seq<Point>, poly: Outline): (r: Dbl)
    ensures r.NaN? <==> forall n :: 0 <= n < |points| ==> Unmatched(points, poly, n)
    ensures r.Num? ==> exists n, j :: 0 <= n < |points| && 0 <= j < |poly|
                         && OnEdge(points[n], poly, j)
                         && (forall m :: 0 <= m < n ==> Unmatched(points, poly, m))
                         && (forall k :: 0 <= k < j ==> !OnEdge(points[n], poly, k))
                         && r.v == AngleTo(lib, poly[j], Prev(poly, j))
  {
    match PointMatch(points, poly, 0)
    case None => NaN
    case Some((n, j)) => Num(AngleTo(lib, poly[j], Prev(poly, j)))
  }

  /**
   * findAngleOfCoincidentLine: the points of the remainder's outline in the
   * outer loop, the edges of this outline in the inner one (prev starting at
   * the last vertex), leaving both loops at the first point on an edge line.
   */
  method FindAngleOfCoincidentLine(lib: Lib, self: Region, remainder: Region) returns (out: Dbl)
    ensures out == CoincidentAngle(lib, lib.outline(remainder), lib.outline(self))
  {
    out := NaN;
    var collisionPoints := lib.outline(remainder);
    var outlinePoints := lib.outline(self);
    var i := 0;
    label searchLoop:
    while i < |collisionPoints|
      invariant 0 <= i <= |collisionPoints|
      invariant out == NaN
      invariant PointMatch(collisionPoints, outlinePoints, i) == PointMatch(collisionPoints, outlinePoints, 0)
    {
      var point := collisionPoints[i];
      var prev := outlinePoints[|outlinePoints| - 1];
      var j := 0;
      while j < |outlinePoints|
        invariant 0 <= j <= |outlinePoints|
        invariant j < |outlinePoints| ==> prev == Prev(outlinePoints, j)
        invariant EdgeMatch(point, outlinePoints, j) == EdgeMatch(point, outlinePoints, 0)
        invariant out == NaN
      {
        var current := outlinePoints[j];
        if IsOnLine(point, current, prev) {
          out := Num(AngleTo(lib, current, prev));
          assert EdgeMatch(point, outlinePoints, 0) == Some(j);
          break searchLoop;
        }
        prev := current;
        j := j + 1;
      }
      i := i + 1;
    }
  }

  /** The angle part of a collision report: the edge bearing, plus pi/2, less the body's angle. */
  function ReportedAngle(lib: Lib, self: Region, remainder: Region, bodyAngle: real): Dbl
  {
    DblAdd(CoincidentAngle(lib, lib.outline(remainder), lib.outline(self)), PI / 2.0 - bodyAngle)
  }

  /**
   * incidenceAngleCollision(shape): a collision exactly when this and the
   * body overlap, at the edge angle found on the overlap, plus pi/2, minus
   * the body's angle.
   */
  function IncidenceAngleCollision(lib: Lib, self: Region, shape: Region, shapeAngle: real): (c: Collision)
    ensures c.Occurred() <==> Intersects(lib, self, shape)
    ensures c.Occurred() ==> c.at == ReportedAngle(lib, self, Intersection(self, shape), shapeAngle)
  {
    var remainder := Intersection(self, shape);
    if !lib.isEmpty(remainder) then Hit(ReportedAngle(lib, self, remainder, shapeAngle)) else Miss
  }

  /** The part of the body that internalIncidenceAngleCollision examines: (this and shape) xor shape. */
  function OutsidePart(self: Region, shape: Region): Region
  {
    ExclusiveOr(Intersection(self, shape), shape)
  }

  /**
   * internalIncidenceAngleCollision(shape): a collision exactly when the
   * remainder (this and shape) xor shape is not empty.
   */
  function InternalIncidenceAngleCollision(lib: Lib, self: Region, shape: Region, shapeAngle: real): (c: Collision)
    ensures c.Occurred() <==> !lib.isEmpty(OutsidePart(self, shape))
    ensures c.Occurred() ==> c.at == ReportedAngle(lib, self, OutsidePart(self, shape), shapeAngle)
  {
    var remainder := OutsidePart(self, shape);
    if lib.isEmpty(remainder) then Miss else Hit(ReportedAngle(lib, self, remainder, shapeAngle))
  }

  /** The xor remainder holds exactly the points of the body outside this. */
  lemma {:induction false} OutsidePartPoints(lib: Lib, self: Region, shape: Region, p: Point)
    ensures In(lib, OutsidePart(self, shape), p) <==> In(lib, shape, p) && !In(lib, self, p)
  {
  }

  /** With a sound library the inner collision occurs exactly when the body is not contained in this. */
  lemma InternalIffNotContained(lib: Lib, self: Region, shape: Region, shapeAngle: real)
    requires Sound(lib)
    ensures InternalIncidenceAngleCollision(lib, self, shape, shapeAngle).Occurred() <==> !Contains(lib, self, shape)
  {
    ContainsIffSubset(lib, self, shape);
    if lib.isEmpty(OutsidePart(self, shape)) {
      forall p | In(lib, shape, p) ensures In(lib, self, p) {
        OutsidePartPoints(lib, self, shape, p);
      }
    } else {
      assert !forall p :: !In(lib, OutsidePart(self, shape), p);
      var p :| In(lib, OutsidePart(self, shape), p);
      OutsidePartPoints(lib, self, shape, p);
    }
  }

  /** A collision angle is NaN exactly when no overlap vertex lies on any edge line of this outline. */
  lemma ReportedAngleNaN(lib: Lib, self: Region, remainder: Region, bodyAngle: real)
    ensures ReportedAngle(lib, self, remainder, bodyAngle).NaN?
            <==> forall n :: 0 <= n < |lib.outline(remainder)| ==> Unmatched(lib.outline(remainder), lib.outline(self), n)
  {
  }

  /**
   * adjustOffsetLocation: the location moved by the offset turned through
   * angle, with the offset's y pointing up the screen.
   */
  function AdjustOffsetLocation(lib: Lib, location: Point, offset: Point, angle: real): (r: Point)
    ensures r.x - location.x == offset.x * lib.cos(angle) - offset.y * lib.sin(angle)
    ensures location.y - r.y == offset.y * lib.cos(angle) - offset.x * lib.sin(angle)
  {
    Point(location.x + offset.x * lib.cos(angle) - offset.y * lib.sin(angle),
          location.y - offset.y * lib.cos(angle) + offset.x * lib.sin(angle))
  }

  /** At angle 0 the offset is added to x and subtracted from y. */
  lemma AdjustAtZero(lib: Lib, location: Point, offset: Point)
    requires lib.sin(0.0) == 0.0 && lib.cos(0.0) == 1.0
    ensures AdjustOffsetLocation(lib, location, offset, 0.0) == Point(location.x + offset.x, location.y - offset.y)
  {
  }
}
