/**
 * simulation.geometry.RigidBody: a region together with the angle it has
 * been turned through and its centre of mass, and the transforms that move
 * all three together.
 */
module RigidBodies {
  import opened Numerics
  import opened Geometry
  import opened Entities
  import opened Collisions

  /** The state of a rigid body: its region, accumulated angle and centre of mass. */
  datatype Pose = Pose(region: Region, angle: real, com: Point)
  {
    /** rotate(a): the region turned about the centre of mass, the angle increased by a, without wrapping. */
    function Rotate(a: real): Pose
    {
      this.(region := Rotated(region, a, com), angle := angle + a)
    }

    /** rotateAboutPoint(a, p): the region turned about p, the angle increased; the centre of mass is left as it was. */
    function RotateAboutPoint(a: real, p: Point): Pose
    {
      this.(region := Rotated(region, a, p), angle := angle + a)
    }

    /** translate(dx, dy): region and centre of mass moved by (dx, dy). */
    function Translate(dx: real, dy: real): Pose
    {
      this.(region := Translated(region, dx, dy), com := Point(com.x + dx, com.y + dy))
    }

    /** place(x, y): the region moved by the step from the centre of mass to (x, y), which becomes the centre of mass. */
    function Place(x: real, y: real): Pose
    {
      this.(region := Translated(region, x - com.x, y - com.y), com := Point(x, y))
    }
  }

  /** RigidBody(Shape, com): angle 0, the given centre of mass. */
  function ShapeBody(shape: Region, com: Point): (b: Pose)
    ensures b.angle == 0.0 && b.com == com && b.region == shape
  {
    Pose(shape, 0.0, com)
  }

  /** RigidBody(x, y, radius): the circle about (x, y), centred there. */
  function CircleBody(x: real, y: real, radius: real): (b: Pose)
    ensures b.angle == 0.0 && b.com == Point(x, y)
  {
    Pose(Circle(x, y, radius), 0.0, Point(x, y))
  }

  /** RigidBody(x, y, width, height): the rectangle with corner (x, y), centred on its middle. */
  function RectBody(x: real, y: real, width: real, height: real): (b: Pose)
    ensures b.angle == 0.0
    ensures b.com.x - x == width / 2.0 && b.com.y - y == height / 2.0
  {
    Pose(Rect(x, y, width, height), 0.0, Point(x + width / 2.0, y + height / 2.0))
  }

  /** RigidBody(pt1, pt2): the segment, with its centre of mass at the first end. */
  function LineBody(pt1: Point, pt2: Point): (b: Pose)
    ensures b.angle == 0.0 && b.com == pt1
  {
    Pose(Segment(pt1, pt2), 0.0, pt1)
  }

  /** RigidBody(x, y, rWidth, rHeight, ellipse): the ellipse of those radii about (x, y). */
  function EllipseBody(x: real, y: real, rWidth: real, rHeight: real): (b: Pose)
    ensures b.angle == 0.0 && b.com == Point(x, y)
  {
    Pose(Ellipse(x - rWidth, y - rHeight, 2.0 * rWidth, 2.0 * rHeight), 0.0, Point(x, y))
  }

  /** RigidBody(x, y, w, h, start, extent, type): the arc, its start moved back by 90 degrees and its extent reversed. */
  function ArcBody(x: real, y: real, w: real, h: real, start: real, extent: real, kind: int): (b: Pose)
    ensures b.angle == 0.0 && b.com == Point(x, y)
  {
    Pose(Arc(x, y, w, h, start - 90.0, -extent, kind), 0.0, Point(x, y))
  }

  /** Rotating by a and then by -a restores angle and centre of mass; no normalisation happens on the way. */
  lemma RotateThenBack(b: Pose, a: real)
    ensures b.Rotate(a).angle == b.angle + a && b.Rotate(a).com == b.com
    ensures b.Rotate(a).Rotate(-a).angle == b.angle
    ensures b.Rotate(a).Rotate(-a).com == b.com
  {
  }

  /** rotateAboutPoint changes the angle as rotate does but never the centre of mass, whatever the pivot. */
  lemma RotateAboutPointKeepsCom(b: Pose, a: real, p: Point)
    ensures b.RotateAboutPoint(a, p).com == b.com
    ensures b.RotateAboutPoint(a, p).angle == b.Rotate(a).angle
    ensures b.RotateAboutPoint(a, p) == b.Rotate(a) <==> p == b.com
  {
  }

  /** place puts the centre of mass exactly at (x, y), keeps the angle, and is translate by the difference. */
  lemma PlaceIsTranslate(b: Pose, x: real, y: real)
    ensures b.Place(x, y).com == Point(x, y)
    ensures b.Place(x, y).angle == b.angle
    ensures b.Place(x, y) == b.Translate(x - b.com.x, y - b.com.y)
  {
  }

  /** Translating back restores the centre of mass; translations add up. */
  lemma TranslateThenBack(b: Pose, dx: real, dy: real, ex: real, ey: real)
    ensures b.Translate(dx, dy).Translate(-dx, -dy).com == b.com
    ensures b.Translate(dx, dy).Translate(ex, ey).com == b.Translate(dx + ex, dy + ey).com
    ensures b.Translate(dx, dy).angle == b.angle
  {
  }

  /**
   * Math.atan(xDif / yDif) of the centre-of-mass offset: yDif == 0 divides
   * to an infinity whose arctangent is pi/2 with the sign of xDif, or to
   * NaN when both are 0.
   */
  function Bearing(lib: Lib, from: Point, to: Point): (r: Dbl)
    ensures r.NaN? <==> from == to
    ensures to.y != from.y ==> r == Num(lib.atan((to.x - from.x) / (to.y - from.y)))
  {
    var xDif := to.x - from.x;
    var yDif := to.y - from.y;
    if yDif != 0.0 then Num(lib.atan(xDif / yDif))
    else if xDif > 0.0 then Num(PI / 2.0)
    else if xDif < 0.0 then Num(-PI / 2.0)
    else NaN
  }

  /** The bearing lies strictly inside the critical cone |bearing| <= |critical|; NaN never does. */
  predicate InCone(bearing: Dbl, critical: real)
  {
    bearing.Num? && Abs(bearing.v) <= Abs(critical)
  }

  /**
   * collideWith(cup, critical): no collision unless the regions intersect;
   * otherwise the body's own angle for a cup inside the critical cone, and a
   * quarter turn off it otherwise, towards the side of a negative bearing.
   */
  function CollideWith(lib: Lib, self: Pose, cup: Pose, critical: real): (c: Collision)
    ensures c.Occurred() <==> Intersects(lib, self.region, cup.region)
    ensures c.Occurred() ==> c.at.Num?
    ensures c.Occurred() && InCone(Bearing(lib, self.com, cup.com), critical) ==> c.at.v == self.angle
    ensures c.Occurred() && !InCone(Bearing(lib, self.com, cup.com), critical) ==> Abs(c.at.v - self.angle) == PI / 2.0
  {
    var comAngle := Bearing(lib, self.com, cup.com);
    if Intersects(lib, self.region, cup.region) then
      if InCone(comAngle, critical) then Hit(Num(self.angle))
      else if comAngle.Num? && comAngle.v < 0.0 then Hit(Num(self.angle + PI / 2.0))
      else Hit(Num(self.angle - PI / 2.0))
    else Miss
  }

  /** Two bodies with a common centre of mass (bearing NaN) are deflected by -pi/2, as every NaN comparison fails. */
  lemma CollideSameCentre(lib: Lib, self: Pose, cup: Pose, critical: real)
    requires self.com == cup.com && Intersects(lib, self.region, cup.region)
    ensures CollideWith(lib, self, cup, critical) == Hit(Num(self.angle - PI / 2.0))
  {
  }

  /** A rigid body whose region, angle and centre of mass change in place. */
  class RigidBody {
    var pose: Pose

    /** RigidBody(shape): a copy with its own centre of mass and the same angle. */
    constructor Copy(other: RigidBody)
      ensures pose == other.pose
    {
      pose := other.pose;
    }

    /** Any of the shape constructors, given the pose it builds. */
    constructor FromPose(p: Pose)
      ensures pose == p
    {
      pose := p;
    }

    method Rotate(a: real)
      modifies this
      ensures pose == old(pose).Rotate(a)
    {
      pose := pose.Rotate(a);
    }

    method RotateAboutPoint(a: real, p: Point)
      modifies this
      ensures pose == old(pose).RotateAboutPoint(a, p)
    {
      pose := pose.RotateAboutPoint(a, p);
    }

    method Translate(dx: real, dy: real)
      modifies this
      ensures pose == old(pose).Translate(dx, dy)
    {
      pose := pose.Translate(dx, dy);
    }

    method Place(x: real, y: real)
      modifies this
      ensures pose == old(pose).Place(x, y)
    {
      pose := pose.Place(x, y);
    }

    /** setShape(other): the region replaced wholesale, angle and centre of mass taken from the other body. */
    method SetShape(other: RigidBody)
      modifies this
      ensures pose == old(other.pose)
    {
      pose := other.pose;
    }
  }
}
