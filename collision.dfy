/** The immutable two-state collision report of simulation.geometry.Collision. */
module Collisions {
  import opened Numerics

  /**
   * `Miss` is the no-argument constructor, `Hit(a)` the one-argument one.  A
   * datatype value never changes, as the Java fields are final.
   */
  datatype Collision = Miss | Hit(at: Dbl)
  {
    /** occurred() */
    predicate Occurred()
    {
      Hit?
    }

    /** getAngle(): the angle given to the constructor, or 0 for the no-argument one. */
    function Angle(): Dbl
    {
      if Hit? then at else Num(0.0)
    }
  }

  lemma CollisionConstructors(a: Dbl)
    ensures !Miss.Occurred() && Miss.Angle() == Num(0.0)
    ensures Hit(a).Occurred() && Hit(a).Angle() == a
  {
  }
}
