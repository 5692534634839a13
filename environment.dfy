/**
 * simulation.geometry.Environment: the arena outline and its three
 * insertion-ordered terrain lists (impassable, passable, and all terrain),
 * the two obstruction tests, the friction coefficient under a shape, and the
 * coffee spills that cups leave behind.
 */
module Environments {
  import opened Numerics
  import opened Geometry
  import opened Entities
  import opened Collisions
  import opened RigidBodies
  import opened Terrains
  import opened Lists

  /** The friction every shape starts from before the passable terrain under it is added. */
  const BASE_COEFFICIENT: real := 0.1
  const SPILL_FRICTION: real := 0.1
  const SPILL_DESCRIPTION: string := "Big sticky mess of hot coffee."

  /** The four Random.nextDouble() draws a spill takes, in the order the code takes them. */
  datatype SpillDraws = SpillDraws(start: real, up: real, across: real, down: real)

  /**
   * The spill outline: from (x - start * size, y) a quadratic curve through
   * (x, y + up * size) to (x + across * size, y), and another through
   * (x, y - down * size) back to the start.
   */
  function SpillShape(location: Point, size: real, d: SpillDraws): Region
  {
    var start := location.x - d.start * size;
    SpillPath(Point(start, location.y), Point(location.x, location.y + d.up * size),
              Point(location.x + d.across * size, location.y), Point(location.x, location.y - d.down * size))
  }

  /**
   * obstructs(RigidBody), as a value: the collision with the first impassable
   * terrain that meets the body, in list order, and otherwise the collision
   * of the body with the outside of the arena outline.
   */
  function BodyObstruction(lib: Lib, ts: seq<Terrain>, outline: Region, shape: Pose): Collision
  {
    if ts == [] then InternalIncidenceAngleCollision(lib, outline, shape.region, shape.angle)
    else
      var c := IncidenceAngleCollision(lib, ts[0].pose.region, shape.region, shape.angle);
      if c.Occurred() then c
      else BodyObstruction(lib, ts[1..], outline, shape)
  }

  /** A collision is reported exactly when some impassable terrain meets the body or the body leaves the outline. */
  lemma {:induction false} BodyObstructionOccurs(lib: Lib, ts: seq<Terrain>, outline: Region, shape: Pose)
    ensures BodyObstruction(lib, ts, outline, shape).Occurred()
            <==> (exists i :: 0 <= i < |ts| && Intersects(lib, ts[i].pose.region, shape.region))
                 || !lib.isEmpty(OutsidePart(outline, shape.region))
  {
    if ts != [] {
      BodyObstructionOccurs(lib, ts[1..], outline, shape);
      assert forall i :: 1 <= i < |ts| ==> ts[i] == ts[1..][i - 1];
    }
  }

  /** The collision reported is the one with the first impassable terrain that meets the body. */
  lemma {:induction false} BodyObstructionFirst(lib: Lib, ts: seq<Terrain>, outline: Region, shape: Pose, i: nat)
    requires i < |ts| && Intersects(lib, ts[i].pose.region, shape.region)
    requires forall k :: 0 <= k < i ==> !Intersects(lib, ts[k].pose.region, shape.region)
    ensures BodyObstruction(lib, ts, outline, shape)
            == IncidenceAngleCollision(lib, ts[i].pose.region, shape.region, shape.angle)
  {
    if i > 0 {
      assert !Intersects(lib, ts[0].pose.region, shape.region);
      assert forall k :: 0 <= k < i - 1 ==> ts[1..][k] == ts[k + 1];
      BodyObstructionFirst(lib, ts[1..], outline, shape, i - 1);
    }
  }

  /** With no impassable terrain in the way, the collision is the one with the outside of the outline. */
  lemma {:induction false} BodyObstructionOutline(lib: Lib, ts: seq<Terrain>, outline: Region, shape: Pose)
    requires forall i :: 0 <= i < |ts| ==> !Intersects(lib, ts[i].pose.region, shape.region)
    ensures BodyObstruction(lib, ts, outline, shape)
            == InternalIncidenceAngleCollision(lib, outline, shape.region, shape.angle)
  {
    if ts != [] {
      assert !Intersects(lib, ts[0].pose.region, shape.region);
      assert forall k :: 0 <= k < |ts| - 1 ==> ts[1..][k] == ts[k + 1];
      BodyObstructionOutline(lib, ts[1..], outline, shape);
    }
  }

  /** The share of the shape's bounding box that the overlap with t's bounding box covers, times t's friction. */
  function Share(lib: Lib, t: Terrain, shape: Region): real
    requires Sound(lib)
  {
    var overlap := Intersection(t.pose.region, shape);
    if lib.isEmpty(overlap) then 0.0
    else
      NonEmptyOverlapHasArea(lib, t.pose.region, shape);
      (lib.bounds(overlap).Area() / lib.bounds(shape).Area()) * t.friction
  }

  /** A shape that overlaps anything has a bounding box of positive area. */
  lemma NonEmptyOverlapHasArea(lib: Lib, a: Region, shape: Region)
    requires Sound(lib) && !lib.isEmpty(Intersection(a, shape))
    ensures lib.bounds(shape).Area() > 0.0
  {
    assert !forall p :: !In(lib, Intersection(a, shape), p);
    var p :| In(lib, Intersection(a, shape), p);
    assert In(lib, shape, p);
    assert !lib.isEmpty(shape);
  }

  /** The sum of the shares of the terrains in ts, accumulated in list order. */
  function ShareSum(lib: Lib, ts: seq<Terrain>, shape: Region): real
    requires Sound(lib)
  {
    if ts == [] then 0.0 else ShareSum(lib, ts[..|ts| - 1], shape) + Share(lib, ts[|ts| - 1], shape)
  }

  /** How many of the terrains in ts overlap the shape. */
  function OverlapCount(lib: Lib, ts: seq<Terrain>, shape: Region): (n: nat)
    ensures n <= |ts|
  {
    if ts == [] then 0
    else OverlapCount(lib, ts[..|ts| - 1], shape) + if Intersects(lib, ts[|ts| - 1].pose.region, shape) then 1 else 0
  }

  /** The count is 0 exactly when no terrain of the list overlaps the shape. */
  lemma {:induction false} OverlapCountZero(lib: Lib, ts: seq<Terrain>, shape: Region)
    ensures OverlapCount(lib, ts, shape) == 0 <==> forall i :: 0 <= i < |ts| ==> !Intersects(lib, ts[i].pose.region, shape)
  {
    if ts != [] {
      var front := ts[..|ts| - 1];
      OverlapCountZero(lib, front, shape);
      assert forall i :: 0 <= i < |front| ==> ts[i] == front[i];
    }
  }

  /**
   * getCoefficient, as a value: 0.1 plus the shares of the overlapping
   * passable terrains, divided by how many there are, unless that count or the
   * total is 0.
   */
  function Coefficient(lib: Lib, ts: seq<Terrain>, shape: Region): real
    requires Sound(lib)
  {
    var coef := BASE_COEFFICIENT + ShareSum(lib, ts, shape);
    var n := OverlapCount(lib, ts, shape);
    if coef != 0.0 && n != 0 then coef / (n as real) else coef
  }

  /** Terrains that do not overlap the shape contribute no share. */
  lemma {:induction false} NoOverlapNoShare(lib: Lib, ts: seq<Terrain>, shape: Region)
    requires Sound(lib)
    requires forall i :: 0 <= i < |ts| ==> !Intersects(lib, ts[i].pose.region, shape)
    ensures ShareSum(lib, ts, shape) == 0.0
  {
    if ts != [] {
      NoOverlapNoShare(lib, ts[..|ts| - 1], shape);
    }
  }

  /** With no passable terrain under the shape, the coefficient is the 0.1 base. */
  lemma CoefficientNoOverlap(lib: Lib, ts: seq<Terrain>, shape: Region)
    requires Sound(lib)
    requires forall i :: 0 <= i < |ts| ==> !Intersects(lib, ts[i].pose.region, shape)
    ensures Coefficient(lib, ts, shape) == BASE_COEFFICIENT
  {
    NoOverlapNoShare(lib, ts, shape);
    OverlapCountZero(lib, ts, shape);
  }

  /**
   * With exactly one passable terrain under the shape, whose overlap has the
   * shape's own bounding-box area, the coefficient is 0.1 plus its friction.
   */
  lemma CoefficientOneFullOverlap(lib: Lib, ts: seq<Terrain>, shape: Region, k: nat)
    requires Sound(lib) && k < |ts|
    requires Intersects(lib, ts[k].pose.region, shape)
    requires lib.bounds(Intersection(ts[k].pose.region, shape)).Area() == lib.bounds(shape).Area()
    requires forall i :: 0 <= i < |ts| && i != k ==> !Intersects(lib, ts[i].pose.region, shape)
    ensures Coefficient(lib, ts, shape) == BASE_COEFFICIENT + ts[k].friction
  {
    SumAndCountSingle(lib, ts, shape, k);
  }

  lemma {:induction false} SumAndCountSingle(lib: Lib, ts: seq<Terrain>, shape: Region, k: nat)
    requires Sound(lib) && k < |ts|
    requires Intersects(lib, ts[k].pose.region, shape)
    requires lib.bounds(Intersection(ts[k].pose.region, shape)).Area() == lib.bounds(shape).Area()
    requires forall i :: 0 <= i < |ts| && i != k ==> !Intersects(lib, ts[i].pose.region, shape)
    ensures ShareSum(lib, ts, shape) == ts[k].friction
    ensures OverlapCount(lib, ts, shape) == 1
  {
    var front := ts[..|ts| - 1];
    assert forall i :: 0 <= i < |front| ==> front[i] == ts[i];
    if k == |ts| - 1 {
      NoOverlapNoShare(lib, front, shape);
      OverlapCountZero(lib, front, shape);
      NonEmptyOverlapHasArea(lib, ts[k].pose.region, shape);
    } else {
      SumAndCountSingle(lib, front, shape, k);
    }
  }

  /** One more terrain of the list adds its share and, if it overlaps, one to the count. */
  lemma CoefficientStep(lib: Lib, ts: seq<Terrain>, shape: Region, i: nat, coefficient: real, count: nat)
    requires Sound(lib) && i < |ts|
    requires coefficient == BASE_COEFFICIENT + ShareSum(lib, ts[..i], shape)
    requires count == OverlapCount(lib, ts[..i], shape)
    ensures coefficient + Share(lib, ts[i], shape) == BASE_COEFFICIENT + ShareSum(lib, ts[..i + 1], shape)
    ensures lib.isEmpty(Intersection(ts[i].pose.region, shape)) ==>
              Share(lib, ts[i], shape) == 0.0 && count == OverlapCount(lib, ts[..i + 1], shape)
    ensures !lib.isEmpty(Intersection(ts[i].pose.region, shape)) ==>
              lib.bounds(shape).Area() > 0.0 && count + 1 == OverlapCount(lib, ts[..i + 1], shape)
  {
    assert ts[..i + 1][..i] == ts[..i];
    if !lib.isEmpty(Intersection(ts[i].pose.region, shape)) {
      NonEmptyOverlapHasArea(lib, ts[i].pose.region, shape);
    }
  }

  class Environment {
    /** The arena outline: shapes must stay inside it. */
    const outline: Region
    var impassables: seq<Terrain>
    var passables: seq<Terrain>
    var terrains: seq<Terrain>

    /** Environment(): the 1000 by 1000 square from the origin, with no terrain. */
    constructor ()
      ensures outline == Rect(0.0, 0.0, 1000.0, 1000.0)
      ensures impassables == [] && passables == [] && terrains == []
    {
      outline := RectBody(0.0, 0.0, 1000.0, 1000.0).region;
      impassables, passables, terrains := [], [], [];
    }

    /** Environment(area): the given outline, with no terrain. */
    constructor FromArea(area: Region)
      ensures outline == area
      ensures impassables == [] && passables == [] && terrains == []
    {
      outline := area;
      impassables, passables, terrains := [], [], [];
    }

    /**
     * Environment(environment): the same outline and three lists of new
     * terrain copies, each list copied on its own, so that no element of one
     * list is an element of another.
     */
    constructor Copy(other: Environment)
      ensures outline == other.outline
      ensures Copies(terrains, other.terrains) && Copies(passables, other.passables)
      ensures Copies(impassables, other.impassables)
      ensures forall i, j :: 0 <= i < |terrains| && 0 <= j < |passables| ==> terrains[i] != passables[j]
      ensures forall i, j :: 0 <= i < |terrains| && 0 <= j < |impassables| ==> terrains[i] != impassables[j]
      ensures forall i, j :: 0 <= i < |passables| && 0 <= j < |impassables| ==> passables[i] != impassables[j]
    {
      outline := other.outline;
      var all := CopyAll(other.terrains);
      var pass := CopyAll(other.passables);
      var imp := CopyAll(other.impassables);
      terrains, passables, impassables := all, pass, imp;
    }

    /** createNewPassableTerrain(shape, c): one new passable terrain at the end of the passable and all-terrain lists. */
    method CreateNewPassableTerrain(lib: Lib, shape: Region, coefficient: real) returns (ok: bool)
      modifies this
      ensures ok
      ensures |passables| == |old(passables)| + 1 && passables[..|passables| - 1] == old(passables)
      ensures terrains == old(terrains) + [Last(passables)] && impassables == old(impassables)
      ensures fresh(Last(passables))
      ensures Last(passables).passable && Last(passables).friction == coefficient
      ensures Last(passables).description == FRICTION_PREFIX + lib.show(coefficient)
      ensures Last(passables).pose == ShapeBody(shape, BoundsCentre(lib, shape))
    {
      var t := new Terrain.Passable(lib, shape, coefficient);
      passables := passables + [t];
      terrains := terrains + [t];
      return true;
    }

    /** createNewPassableTerrain(shape, c, desc): as above, with the given description. */
    method CreateNewDescribedPassableTerrain(lib: Lib, shape: Region, coefficient: real, desc: string) returns (ok: bool)
      modifies this
      ensures ok
      ensures |passables| == |old(passables)| + 1 && passables[..|passables| - 1] == old(passables)
      ensures terrains == old(terrains) + [Last(passables)] && impassables == old(impassables)
      ensures fresh(Last(passables))
      ensures Last(passables).passable && Last(passables).friction == coefficient
      ensures Last(passables).description == desc
      ensures Last(passables).pose == ShapeBody(shape, BoundsCentre(lib, shape))
    {
      var t := new Terrain.Described(lib, shape, coefficient, desc);
      passables := passables + [t];
      terrains := terrains + [t];
      return true;
    }

    /** createNewImpassableTerrain(shape): one new impassable terrain at the end of the impassable and all-terrain lists. */
    method CreateNewImpassableTerrain(lib: Lib, shape: Region) returns (ok: bool)
      modifies this
      ensures ok
      ensures |impassables| == |old(impassables)| + 1 && impassables[..|impassables| - 1] == old(impassables)
      ensures terrains == old(terrains) + [Last(impassables)] && passables == old(passables)
      ensures fresh(Last(impassables))
      ensures !Last(impassables).passable && Last(impassables).friction == 0.0
      ensures Last(impassables).description == IMPASSABLE_DESCRIPTION
      ensures Last(impassables).pose == ShapeBody(shape, BoundsCentre(lib, shape))
    {
      var t := new Terrain.Impassable(lib, shape);
      impassables := impassables + [t];
      terrains := terrains + [t];
      return true;
    }

    /**
     * createNewImpassableTerrain(shape, desc): builds Terrain(shape, 0, desc),
     * which is flagged passable, and files it in the impassable list.
     */
    method CreateNewDescribedImpassableTerrain(lib: Lib, shape: Region, desc: string) returns (ok: bool)
      modifies this
      ensures ok
      ensures |impassables| == |old(impassables)| + 1 && impassables[..|impassables| - 1] == old(impassables)
      ensures terrains == old(terrains) + [Last(impassables)] && passables == old(passables)
      ensures fresh(Last(impassables))
      ensures Last(impassables).passable && Last(impassables).friction == 0.0
      ensures Last(impassables).description == desc
      ensures Last(impassables).pose == ShapeBody(shape, BoundsCentre(lib, shape))
    {
      var t := new Terrain.Described(lib, shape, 0.0, desc);
      impassables := impassables + [t];
      terrains := terrains + [t];
      return true;
    }

    /** obstructs(RigidBody): the impassable terrains in order, then the outline. */
    method ObstructsBody(lib: Lib, shape: Pose) returns (collision: Collision)
      ensures collision == BodyObstruction(lib, impassables, outline, shape)
    {
      var i := 0;
      while i < |impassables|
        invariant 0 <= i <= |impassables|
        invariant BodyObstruction(lib, impassables[i..], outline, shape) == BodyObstruction(lib, impassables, outline, shape)
      {
        collision := IncidenceAngleCollision(lib, impassables[i].pose.region, shape.region, shape.angle);
        if collision.Occurred() {
          return collision;
        }
        assert impassables[i..][1..] == impassables[i + 1..];
        i := i + 1;
      }
      collision := InternalIncidenceAngleCollision(lib, outline, shape.region, shape.angle);
      if collision.Occurred() {
        return collision;
      }
      return collision;
    }

    /** obstructs(Entity): some impassable terrain meets the shape, or the outline does not contain it. */
    method ObstructsShape(lib: Lib, shape: Region) returns (obstructed: bool)
      ensures obstructed <==> (exists i :: 0 <= i < |impassables| && Intersects(lib, impassables[i].pose.region, shape))
                              || !Contains(lib, outline, shape)
    {
      var i := 0;
      while i < |impassables|
        invariant 0 <= i <= |impassables|
        invariant forall k :: 0 <= k < i ==> !Intersects(lib, impassables[k].pose.region, shape)
      {
        if Intersects(lib, impassables[i].pose.region, shape) {
          return true;
        }
        i := i + 1;
      }
      if !Contains(lib, outline, shape) {
        return true;
      }
      return false;
    }

    /** getCoefficient(shape): the loop over the passable terrains in list order. */
    method GetCoefficient(lib: Lib, shape: Region) returns (coef: real)
      requires Sound(lib)
      ensures coef == Coefficient(lib, passables, shape)
    {
      var coefficient := BASE_COEFFICIENT;
      var noTerrain := 0;
      var i := 0;
      while i < |passables|
        invariant 0 <= i <= |passables|
        invariant coefficient == BASE_COEFFICIENT + ShareSum(lib, passables[..i], shape)
        invariant noTerrain == OverlapCount(lib, passables[..i], shape)
      {
        var t := passables[i];
        var terrainShape := Intersection(t.pose.region, shape);
        CoefficientStep(lib, passables, shape, i, coefficient, noTerrain);
        if !lib.isEmpty(terrainShape) {
          var intersectArea := lib.bounds(terrainShape).Area();
          var vehicleArea := lib.bounds(shape).Area();
          assert (intersectArea / vehicleArea) * t.friction == Share(lib, t, shape);
          coefficient := coefficient + (intersectArea / vehicleArea) * t.friction;
          noTerrain := noTerrain + 1;
        }
        ghost var front := passables[..i + 1];
        assert coefficient == BASE_COEFFICIENT + ShareSum(lib, front, shape);
        assert noTerrain == OverlapCount(lib, front, shape);
        i := i + 1;
        assert front == passables[..i];
      }
      assert passables[..i] == passables;
      if coefficient != 0.0 && noTerrain != 0 {
        return coefficient / (noTerrain as real);
      } else {
        return coefficient;
      }
    }

    /**
     * spillHotCoffeeEverywhere(location, size): one new passable terrain with
     * friction 0.1 and the coffee description, shaped by the four draws.  The
     * body built at the location is handed to the Terrain constructor, which
     * recentres it on its bounding box, so the location is not kept.
     */
    method SpillHotCoffeeEverywhere(lib: Lib, location: Point, size: real, draws: SpillDraws)
      modifies this
      ensures |passables| == |old(passables)| + 1 && passables[..|passables| - 1] == old(passables)
      ensures terrains == old(terrains) + [Last(passables)] && impassables == old(impassables)
      ensures fresh(Last(passables))
      ensures Last(passables).passable && Last(passables).friction == SPILL_FRICTION
      ensures Last(passables).description == SPILL_DESCRIPTION
      ensures Last(passables).pose.region == SpillShape(location, size, draws)
      ensures Last(passables).pose.com == BoundsCentre(lib, SpillShape(location, size, draws))
      ensures Last(passables).pose.angle == 0.0
    {
      var spill := SpillShape(location, size, draws);
      var _ := CreateNewDescribedPassableTerrain(lib, ShapeBody(spill, location).region, SPILL_FRICTION, SPILL_DESCRIPTION);
    }

    /** clear: all three lists emptied; the outline stays. */
    method Clear()
      modifies this
      ensures terrains == [] && impassables == [] && passables == []
    {
      terrains := [];
      impassables := [];
      passables := [];
    }

    /** deleteTerrain(t): the first occurrence of t taken out of each of the three lists. */
    method DeleteTerrain(t: Terrain)
      modifies this
      ensures terrains == RemoveFirst(old(terrains), t)
      ensures passables == RemoveFirst(old(passables), t)
      ensures impassables == RemoveFirst(old(impassables), t)
    {
      terrains := RemoveFirst(terrains, t);
      passables := RemoveFirst(passables, t);
      impassables := RemoveFirst(impassables, t);
    }

    /**
     * The terrain loop of Simulator.deleteEntity: over a snapshot of the
     * terrain list, deleteTerrain once for every occurrence of t.
     */
    method DeleteEveryOccurrence(t: Terrain)
      modifies this
      ensures var n := multiset(old(terrains))[t];
              terrains == RemoveAll(old(terrains), t)
              && passables == RemoveFirstN(old(passables), t, n)
              && impassables == RemoveFirstN(old(impassables), t, n)
    {
      var snapshot := terrains;
      var i := 0;
      while i < |snapshot|
        invariant 0 <= i <= |snapshot|
        invariant terrains == RemoveAll(snapshot[..i], t) + snapshot[i..]
        invariant passables == RemoveFirstN(old(passables), t, multiset(snapshot[..i])[t])
        invariant impassables == RemoveFirstN(old(impassables), t, multiset(snapshot[..i])[t])
      {
        DeleteRound(snapshot, i, t, old(passables), old(impassables));
        i := i + 1;
      }
      assert snapshot[..i] == snapshot;
    }

    /** One round of that loop: deleteTerrain when the snapshot holds t at i. */
    method DeleteRound(snapshot: seq<Terrain>, i: nat, t: Terrain, ghost p0: seq<Terrain>, ghost q0: seq<Terrain>)
      requires i < |snapshot|
      requires terrains == RemoveAll(snapshot[..i], t) + snapshot[i..]
      requires passables == RemoveFirstN(p0, t, multiset(snapshot[..i])[t])
      requires impassables == RemoveFirstN(q0, t, multiset(snapshot[..i])[t])
      modifies this
      ensures terrains == RemoveAll(snapshot[..i + 1], t) + snapshot[i + 1..]
      ensures passables == RemoveFirstN(p0, t, multiset(snapshot[..i + 1])[t])
      ensures impassables == RemoveFirstN(q0, t, multiset(snapshot[..i + 1])[t])
    {
      CountStep(snapshot, i, t);
      DropStep(snapshot, i, t);
      if snapshot[i] == t {
        DeleteTerrain(t);
      }
    }

    /** hasNoTerrain: the all-terrain list is empty. */
    function HasNoTerrain(): (r: bool)
      reads this
      ensures r <==> terrains == []
    {
      |terrains| == 0
    }
  }

  /** The last element of a non-empty list. */
  function Last(ts: seq<Terrain>): Terrain
    requires |ts| > 0
  {
    ts[|ts| - 1]
  }

  /** copies holds one new terrain for each terrain of ts, a copy of it, in the same order. */
  predicate Copies(copies: seq<Terrain>, ts: seq<Terrain>)
    reads set c | c in copies, set t | t in ts
  {
    |copies| == |ts| && forall i :: 0 <= i < |ts| ==> IsCopy(copies[i], ts[i])
  }

  /** A new terrain copy of every terrain in ts, in order. */
  method CopyAll(ts: seq<Terrain>) returns (copies: seq<Terrain>)
    ensures Copies(copies, ts)
    ensures forall i :: 0 <= i < |copies| ==> fresh(copies[i])
  {
    copies := [];
    var i := 0;
    while i < |ts|
      invariant 0 <= i <= |ts| && |copies| == i
      invariant forall k :: 0 <= k < i ==> fresh(copies[k]) && IsCopy(copies[k], ts[k])
    {
      var c := new Terrain.Copy(ts[i]);
      copies := copies + [c];
      i := i + 1;
    }
  }
}
