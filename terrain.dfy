/**
 * simulation.geometry.Terrain: a patch of the arena floor, either impassable
 * or passable with a friction coefficient, and a description.
 */
module Terrains {
  import opened Geometry
  import opened RigidBodies

  const IMPASSABLE_DESCRIPTION: string := "Impassable terrain"
  const FRICTION_PREFIX: string := "Terrain with a frictional coefficient of "

  /** The centre of the bounding box of a shape: where Terrain(shape) puts its centre of mass. */
  function BoundsCentre(lib: Lib, shape: Region): Point
  {
    Point(lib.bounds(shape).CentreX(), lib.bounds(shape).CentreY())
  }

  /**
   * A terrain.  Nothing in the simulator moves a terrain or changes its
   * classification, so only the description is mutable.
   */
  class Terrain {
    const pose: Pose
    const friction: real
    const passable: bool
    var description: string

    /** Terrain(shape): impassable, friction 0, centred on the bounding box of the shape. */
    constructor Impassable(lib: Lib, shape: Region)
      ensures !passable && friction == 0.0 && description == IMPASSABLE_DESCRIPTION
      ensures pose == ShapeBody(shape, BoundsCentre(lib, shape))
    {
      pose := ShapeBody(shape, BoundsCentre(lib, shape));
      friction := 0.0;
      passable := false;
      description := IMPASSABLE_DESCRIPTION;
    }

    /** Terrain(shape, f): passable with friction f, described by the coefficient printed after the prefix. */
    constructor Passable(lib: Lib, shape: Region, f: real)
      ensures passable && friction == f
      ensures description == FRICTION_PREFIX + lib.show(f)
      ensures pose == ShapeBody(shape, BoundsCentre(lib, shape))
    {
      pose := ShapeBody(shape, BoundsCentre(lib, shape));
      friction := f;
      passable := true;
      description := FRICTION_PREFIX + lib.show(f);
    }

    /** Terrain(shape, f, desc): passable with friction f and the given description. */
    constructor Described(lib: Lib, shape: Region, f: real, desc: string)
      ensures passable && friction == f && description == desc
      ensures pose == ShapeBody(shape, BoundsCentre(lib, shape))
    {
      pose := ShapeBody(shape, BoundsCentre(lib, shape));
      friction := f;
      passable := true;
      description := desc;
    }

    /** Terrain(terrain): same body and description; the friction is copied only for a passable one. */
    constructor Copy(t: Terrain)
      ensures IsCopy(this, t)
    {
      pose := t.pose;
      passable := t.passable;
      friction := if t.passable then t.friction else 0.0;
      description := t.description;
    }

    /** setDescription: only the description changes (the other fields are constant). */
    method SetDescription(desc: string)
      modifies this
      ensures description == desc
    {
      description := desc;
    }
  }

  /** c is what the copy constructor makes of t. */
  predicate IsCopy(c: Terrain, t: Terrain)
    reads c, t
  {
    c.pose == t.pose && c.passable == t.passable && c.description == t.description
    && c.friction == (if t.passable then t.friction else 0.0)
  }

  /** A copy keeps every field except the friction of an impassable terrain, which reads 0. */
  lemma CopyKeepsFields(c: Terrain, t: Terrain)
    requires IsCopy(c, t)
    ensures c.passable == t.passable && c.description == t.description && c.pose == t.pose
    ensures t.passable ==> c.friction == t.friction
    ensures !t.passable ==> c.friction == 0.0
  {
  }
}
