/** simulation.entities.Cup: a radius-10 round body that can be knocked over once, spilling its coffee if full. */
module Cups {
  import opened Numerics
  import opened Geometry
  import opened Entities
  import opened Collisions
  import opened RigidBodies

  const DEFAULT_RADIUS: real := 10.0

  class Cup {
    var pose: Pose
    var full: bool
    var upright: bool

    /** Cup(x, y, full): an upright cup, a radius-10 circle centred on (x, y). */
    constructor (x: real, y: real, full: bool)
      ensures upright && this.full == full
      ensures pose == CircleBody(x, y, DEFAULT_RADIUS)
      ensures pose.com == Point(x, y) && pose.angle == 0.0
    {
      pose := CircleBody(x, y, DEFAULT_RADIUS);
      upright := true;
      this.full := full;
    }

    /** Cup(inanimate): a copy with the same pose and the same full and upright flags. */
    constructor Copy(other: Cup)
      ensures pose == other.pose && full == other.full && upright == other.upright
    {
      pose := other.pose;
      full := other.full;
      upright := other.upright;
    }

    /** knockOver: the cup ends up on its side and empty; the answer is whether it held coffee. */
    method KnockOver() returns (spilled: bool)
      modifies this
      ensures spilled == old(full)
      ensures !upright && !full && pose == old(pose)
    {
      spilled := full;
      upright := false;
      full := false;
    }

    /** rotateTo(a): turn back through the current angle, then by a, about the centre of mass. */
    method RotateTo(a: real)
      modifies this
      ensures pose == old(pose).Rotate(-old(pose).angle).Rotate(a)
      ensures pose.angle == a && pose.com == old(pose.com)
      ensures full == old(full) && upright == old(upright)
    {
      pose := pose.Rotate(-pose.angle);
      pose := pose.Rotate(a);
    }

    method Translate(dx: real, dy: real)
      modifies this
      ensures pose == old(pose).Translate(dx, dy)
      ensures full == old(full) && upright == old(upright)
    {
      pose := pose.Translate(dx, dy);
    }
  }

  /**
   * A new full cup is upright, and knocking it over twice spills only the
   * first time.
   */
  method KnockOverTwice(x: real, y: real) returns (wasUpright: bool, first: bool, second: bool)
    ensures wasUpright && first && !second
  {
    var cup := new Cup(x, y, true);
    wasUpright := cup.upright;
    first := cup.KnockOver();
    second := cup.KnockOver();
  }

  /**
   * Cup.collideWith(cup, critical): the critical angle is ignored; on
   * intersection the collision carries the centre-of-mass bearing itself.
   */
  function CupCollideWith(lib: Lib, self: Pose, cup: Pose): (c: Collision)
    ensures c.Occurred() <==> Intersects(lib, self.region, cup.region)
    ensures c.Occurred() ==> c.at == Bearing(lib, self.com, cup.com)
  {
    if Intersects(lib, self.region, cup.region) then Hit(Bearing(lib, self.com, cup.com)) else Miss
  }

  /** Two intersecting cups report a NaN angle exactly when their centres coincide. */
  lemma CupCollisionNaN(lib: Lib, self: Pose, cup: Pose)
    requires Intersects(lib, self.region, cup.region)
    ensures CupCollideWith(lib, self, cup).at.NaN? <==> self.com == cup.com
  {
  }

  /**
   * Unlike the rigid-body rule, which turns a bearing outside the cone into a
   * quarter turn off the body's angle, the cup rule reports the bearing.
   */
  lemma CupRuleDiffersFromBodyRule(lib: Lib, self: Pose, cup: Pose, critical: real)
    requires Intersects(lib, self.region, cup.region) && self.com == cup.com
    ensures CupCollideWith(lib, self, cup).at.NaN?
    ensures !CollideWith(lib, self, cup, critical).at.NaN?
  {
  }
}
