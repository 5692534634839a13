/**
 * simulation.Simulator: the robots, the cups and the environment of one
 * arena, the placement rule that admits a new robot or cup, deletion and lookup, the
 * step counter, and the game loop that moves every robot by one frame and
 * resolves its collisions.  The random draws the Java code takes from
 * java.util.Random are read from a fixed stream, one after the other.
 */
module Simulators {
  import opened Numerics
  import opened Geometry
  import opened Entities
  import opened Collisions
  import opened RigidBodies
  import opened Cups
  import opened Terrains
  import opened Environments
  import opened RobotOutputs
  import opened Robots
  import opened Wrappers
  import opened Lists
  import opened Dynamics

  /** The random draws of a run: the motor noise of each frame and the shape of each spill, in the order they are taken. */
  datatype Entropy = Entropy(gaussian: nat -> real, spill: nat -> SpillDraws)

  /** What deleteEntity and isInSimulator are given: a robot, a cup, a terrain, or any other body. */
  datatype Target = RobotTarget(robot: Robot) | CupTarget(cup: Cup) | TerrainTarget(terrain: Terrain) | OtherBody

  /**
   * How a robot's move ends: resolve finds it legal, refuses it, or is still
   * running its uncapped cup-on-cup loop; or findNewState's thrust is not a
   * finite number (a robot of mass 0 outside the deadzone), past which the
   * Java frame computes on infinities and NaN.
   */
  datatype Verdict = Accept | Reject | Hang | Diverged

  /**
   * How one call of gameLoop ends: every robot moved and the step counted;
   * the brain of the robot at the index threw and the simulation paused; the
   * cup-on-cup loop of the robot at the index is still running; or the
   * thrust of the robot at the index is not a finite number.
   */
  datatype Tick = Completed | Faulted(at: nat) | Stuck(at: nat) | NonFinite(at: nat)

  class Simulator {
    var robots: seq<Robot>
    var inanimates: seq<Cup>
    const environment: Environment
    var issue: Option<string>
    var paused: bool
    var steps: nat
    const entropy: Entropy
    /** How many noise draws and spill draws have been taken. */
    var noiseTaken: nat
    var spillsTaken: nat

    /** Simulator(): no robots, no cups, the default 1000 by 1000 arena, no issue. */
    constructor (entropy: Entropy)
      ensures fresh(environment)
      ensures environment.outline == Rect(0.0, 0.0, 1000.0, 1000.0)
      ensures environment.terrains == [] && environment.passables == [] && environment.impassables == []
      ensures robots == [] && inanimates == [] && issue == None && !paused && steps == 0
      ensures this.entropy == entropy && noiseTaken == 0 && spillsTaken == 0
    {
      robots, inanimates := [], [];
      environment := new Environment();
      issue, paused, steps := None, false, 0;
      this.entropy, noiseTaken, spillsTaken := entropy, 0, 0;
    }

    /** clearAll: robots, cups and terrains all gone; the counters stay. */
    method ClearAll()
      modifies this, environment
      ensures robots == [] && inanimates == []
      ensures environment.terrains == [] && environment.passables == [] && environment.impassables == []
      ensures steps == old(steps) && issue == old(issue) && paused == old(paused)
      ensures noiseTaken == old(noiseTaken) && spillsTaken == old(spillsTaken)
    {
      robots := [];
      inanimates := [];
      environment.Clear();
    }

    /** reset: cleared, and the step count back to 0. */
    method Reset()
      modifies this, environment
      ensures IsEmpty() && steps == 0
      ensures issue == old(issue) && paused == old(paused)
    {
      ClearAll();
      steps := 0;
    }

    /** isEmpty: no terrain, no robot and no cup. */
    function IsEmpty(): (r: bool)
      reads this, environment
      ensures r <==> environment.terrains == [] && robots == [] && inanimates == []
    {
      environment.HasNoTerrain() && |robots| == 0 && |inanimates| == 0
    }

    /**
     * Where testShape accepts a region: no impassable terrain meets it, the
     * outline contains it, no robot meets it, and no cup other than the one
     * being placed meets it.
     */
    predicate Placeable(lib: Lib, region: Region, placing: Option<Cup>)
      reads this, environment, robots, inanimates
    {
      !((exists i :: 0 <= i < |environment.impassables| && Intersects(lib, environment.impassables[i].pose.region, region))
        || !Contains(lib, environment.outline, region))
      && (forall i :: 0 <= i < |robots| ==> !Intersects(lib, robots[i].pose.region, region))
      && (forall i :: 0 <= i < |inanimates| ==> Some(inanimates[i]) != placing ==> !Intersects(lib, inanimates[i].pose.region, region))
    }

    /** testShape(shape): the environment first, then the robots, then the other cups. */
    method TestShape(lib: Lib, region: Region, placing: Option<Cup>) returns (ok: bool)
      ensures ok == Placeable(lib, region, placing)
    {
      var obstructed := environment.ObstructsShape(lib, region);
      if obstructed {
        return false;
      }
      var i := 0;
      while i < |robots|
        invariant 0 <= i <= |robots|
        invariant forall k :: 0 <= k < i ==> !Intersects(lib, robots[k].pose.region, region)
      {
        if Intersects(lib, robots[i].pose.region, region) {
          return false;
        }
        i := i + 1;
      }
      i := 0;
      while i < |inanimates|
        invariant 0 <= i <= |inanimates|
        invariant forall k :: 0 <= k < i ==> Some(inanimates[k]) != placing ==> !Intersects(lib, inanimates[k].pose.region, region)
      {
        if Some(inanimates[i]) != placing && Intersects(lib, inanimates[i].pose.region, region) {
          return false;
        }
        i := i + 1;
      }
      return true;
    }

    /** addRobot: appended exactly when its body is placeable; a robot always meets itself, so adding one twice fails. */
    method AddRobot(lib: Lib, robot: Robot) returns (added: bool)
      modifies this
      ensures added == old(Placeable(lib, robot.pose.region, None))
      ensures robots == if added then old(robots) + [robot] else old(robots)
      ensures inanimates == old(inanimates) && steps == old(steps) && issue == old(issue) && paused == old(paused)
      ensures noiseTaken == old(noiseTaken) && spillsTaken == old(spillsTaken)
    {
      added := TestShape(lib, robot.pose.region, None);
      if added {
        robots := robots + [robot];
      }
    }

    /** addInanimate: appended exactly when placeable, the cup itself not counting against it. */
    method AddInanimate(lib: Lib, cup: Cup) returns (added: bool)
      modifies this
      ensures added == old(Placeable(lib, cup.pose.region, Some(cup)))
      ensures inanimates == if added then old(inanimates) + [cup] else old(inanimates)
      ensures robots == old(robots) && steps == old(steps) && issue == old(issue) && paused == old(paused)
      ensures noiseTaken == old(noiseTaken) && spillsTaken == old(spillsTaken)
    {
      added := TestShape(lib, cup.pose.region, Some(cup));
      if added {
        inanimates := inanimates + [cup];
      }
    }

    /** getTimeElapsed: DT seconds per step. */
    function GetTimeElapsed(): (t: real)
      reads this
      ensures t * FPS == steps as real
      ensures t >= 0.0
    {
      DT * (steps as real)
    }

    /** getIssue: the pending issue, which is cleared. */
    method GetIssue() returns (r: Option<string>)
      modifies this
      ensures r == old(issue) && issue == None
      ensures robots == old(robots) && inanimates == old(inanimates) && steps == old(steps) && paused == old(paused)
      ensures noiseTaken == old(noiseTaken) && spillsTaken == old(spillsTaken)
    {
      r := issue;
      issue := None;
    }

    /** Whether the target is one of the simulator's robots, cups or terrains. */
    predicate Holds(target: Target)
      reads this, environment
    {
      match target
      case RobotTarget(r) => r in robots
      case CupTarget(c) => c in inanimates
      case TerrainTarget(t) => t in environment.terrains
      case OtherBody => false
    }

    /** isInSimulator: a search through the robots, then the cups, then the terrains. */
    method IsInSimulator(target: Target) returns (found: bool)
      ensures found <==> Holds(target)
    {
      found := false;
      var i := 0;
      while i < |robots|
        invariant 0 <= i <= |robots|
        invariant found <==> exists k :: 0 <= k < i && target == RobotTarget(robots[k])
      {
        if target == RobotTarget(robots[i]) {
          return true;
        }
        i := i + 1;
      }
      i := 0;
      while i < |inanimates|
        invariant 0 <= i <= |inanimates|
        invariant !found
        invariant forall k :: 0 <= k < i ==> target != CupTarget(inanimates[k])
      {
        if target == CupTarget(inanimates[i]) {
          return true;
        }
        i := i + 1;
      }
      var terrains := environment.terrains;
      i := 0;
      while i < |terrains|
        invariant 0 <= i <= |terrains|
        invariant !found
        invariant forall k :: 0 <= k < i ==> target != TerrainTarget(terrains[k])
      {
        if target == TerrainTarget(terrains[i]) {
          return true;
        }
        i := i + 1;
      }
    }

    /**
     * deleteEntity: every occurrence of the target goes from its list; for a
     * terrain, deleteTerrain runs once per occurrence in the terrain list,
     * each time taking the first occurrence out of the passable and the
     * impassable lists too.
     */
    method DeleteEntity(target: Target)
      modifies this, environment
      ensures target.CupTarget? ==> inanimates == RemoveAll(old(inanimates), target.cup)
      ensures !target.CupTarget? ==> inanimates == old(inanimates)
      ensures target.RobotTarget? ==> robots == RemoveAll(old(robots), target.robot)
      ensures !target.RobotTarget? ==> robots == old(robots)
      ensures target.TerrainTarget? ==>
                var t, n := target.terrain, multiset(old(environment.terrains))[target.terrain];
                environment.terrains == RemoveAll(old(environment.terrains), t)
                && environment.passables == RemoveFirstN(old(environment.passables), t, n)
                && environment.impassables == RemoveFirstN(old(environment.impassables), t, n)
      ensures !target.TerrainTarget? ==>
                environment.terrains == old(environment.terrains) && environment.passables == old(environment.passables)
                && environment.impassables == old(environment.impassables)
      ensures steps == old(steps) && issue == old(issue) && paused == old(paused)
      ensures noiseTaken == old(noiseTaken) && spillsTaken == old(spillsTaken)
    {
      match target
      case CupTarget(c) => DeleteCup(c);
      case RobotTarget(r) => DeleteRobot(r);
      case TerrainTarget(t) => environment.DeleteEveryOccurrence(t);
      case OtherBody =>
    }

    /** The cup loop of deleteEntity, over a snapshot of the cups. */
    method DeleteCup(c: Cup)
      modifies this
      ensures inanimates == RemoveAll(old(inanimates), c)
      ensures robots == old(robots) && steps == old(steps) && issue == old(issue) && paused == old(paused)
      ensures noiseTaken == old(noiseTaken) && spillsTaken == old(spillsTaken)
    {
      var snapshot := inanimates;
      var i := 0;
      while i < |snapshot|
        invariant 0 <= i <= |snapshot|
        invariant inanimates == RemoveAll(snapshot[..i], c) + snapshot[i..]
        invariant robots == old(robots) && steps == old(steps) && issue == old(issue)
        invariant noiseTaken == old(noiseTaken) && spillsTaken == old(spillsTaken) && paused == old(paused)
      {
        DropStep(snapshot, i, c);
        if snapshot[i] == c {
          inanimates := RemoveFirst(inanimates, c);
        }
        i := i + 1;
      }
      assert snapshot[..i] == snapshot;
    }

    /** The robot loop of deleteEntity, over a snapshot of the robots. */
    method DeleteRobot(r: Robot)
      modifies this
      ensures robots == RemoveAll(old(robots), r)
      ensures inanimates == old(inanimates) && steps == old(steps) && issue == old(issue) && paused == old(paused)
      ensures noiseTaken == old(noiseTaken) && spillsTaken == old(spillsTaken)
    {
      var snapshot := robots;
      var i := 0;
      while i < |snapshot|
        invariant 0 <= i <= |snapshot|
        invariant robots == RemoveAll(snapshot[..i], r) + snapshot[i..]
        invariant inanimates == old(inanimates) && steps == old(steps) && issue == old(issue)
        invariant noiseTaken == old(noiseTaken) && spillsTaken == old(spillsTaken) && paused == old(paused)
      {
        DropStep(snapshot, i, r);
        if snapshot[i] == r {
          robots := RemoveFirst(robots, r);
        }
        i := i + 1;
      }
      assert snapshot[..i] == snapshot;
    }

    // -------------------------------------------------------------------
    // One frame of one robot
    // -------------------------------------------------------------------

    /**
     * findNewState(robot, output): the robot's velocity is updated at once by
     * the velocity rule, with the ground coefficient under its current body
     * and the next noise draw; the candidate body is the current one turned
     * by the steering and moved by the new velocity along the old heading.
     * When the thrust is not a finite number the answer `finite` is false
     * and the velocity is left as it was, where Java stores an infinity or
     * NaN; the noise draw is taken either way.
     */
    method FindNewState(lib: Lib, robot: Robot, output: RobotOutput) returns (newShape: RigidBody, finite: bool)
      requires Sound(lib)
      modifies this, robot
      ensures fresh(newShape)
      ensures finite == ThrustFinite(old(robot.velocity), output.motor, robot.mass)
      ensures !finite ==> robot.velocity == old(robot.velocity)
      ensures finite ==>
                robot.velocity == NewVelocity(old(robot.velocity), output.motor, robot.power, robot.mass,
                                              Coefficient(lib, environment.passables, robot.pose.region),
                                              entropy.gaussian(old(noiseTaken)))
                && newShape.pose == Candidate(lib, robot.pose, old(robot.velocity), output.steering, robot.velocity)
      ensures robot.pose == old(robot.pose) && robot.collection == old(robot.collection)
      ensures robot.collectionProgress == old(robot.collectionProgress) && robot.heldItems == old(robot.heldItems)
      ensures noiseTaken == old(noiseTaken) + 1 && spillsTaken == old(spillsTaken)
      ensures robots == old(robots) && inanimates == old(inanimates)
      ensures steps == old(steps) && issue == old(issue) && paused == old(paused)
    {
      ghost var p, v0, st := robot.pose, robot.velocity, output.steering;
      newShape := new RigidBody.FromPose(robot.pose);
      var turn := output.steering * robot.velocity / 10000.0;
      assert turn == st * v0 / 10000.0;
      newShape.Rotate(turn);
      ghost var rotated := newShape.pose;
      assert rotated == p.Rotate(turn);
      var coefficient := environment.GetCoefficient(lib, robot.pose.region);
      var velocity;
      velocity, finite := Accelerate(robot.velocity, output.motor, robot.power, robot.mass,
                                     coefficient, entropy.gaussian(noiseTaken));
      noiseTaken := noiseTaken + 1;
      if !finite {
        return;
      }
      robot.SetVelocity(velocity);
      assert robot.pose == p && newShape.pose == rotated;
      var dx, dy := -velocity * DT * lib.sin(robot.pose.angle), velocity * DT * lib.cos(robot.pose.angle);
      assert dx == -velocity * DT * lib.sin(p.angle) && dy == velocity * DT * lib.cos(p.angle);
      newShape.Translate(dx, dy);
      assert newShape.pose == rotated.Translate(dx, dy);
      assert turn == st * v0 / 10000.0;
      CandidateSteps(lib, p, v0, st, velocity);
      assert robot.pose == p && robot.velocity == velocity && output.steering == st && old(robot.velocity) == v0;
      assert newShape.pose == Candidate(lib, p, v0, st, velocity);
      assert newShape.pose == Candidate(lib, robot.pose, old(robot.velocity), output.steering, robot.velocity);
    }

    /**
     * robotIntoEnvironment(robot, newShape, angle): one wall response,
     * exactly as WallResponse describes it, read off the robot's current
     * centre, heading and size.
     */
    method RobotIntoEnvironment(lib: Lib, robot: Robot, newShape: RigidBody, angle: real) returns (clear: bool)
      modifies robot, newShape
      ensures var w := WallResponse(lib, MoverOf(robot), old(newShape.pose), old(robot.velocity), angle);
              newShape.pose == w.shape && robot.velocity == w.velocity && clear == w.clear
      ensures robot.pose == old(robot.pose) && robot.collection == old(robot.collection)
      ensures robot.collectionProgress == old(robot.collectionProgress) && robot.heldItems == old(robot.heldItems)
    {
      ghost var m, shape, v := MoverOf(robot), newShape.pose, robot.velocity;
      var angleOfIncidence := angle;
      var direction := if -PI / 2.0 <= robot.pose.angle <= PI / 2.0 then 1.0 else -1.0;
      var newVelocityFactor := Abs(lib.sin(angleOfIncidence));
      var glancingAngle;
      angleOfIncidence, glancingAngle := IncidenceAngles(angle);
      ghost var factor := if glancingAngle < 0.0 then -1.0 else 1.0;
      WallResponseSteps(lib, m, shape, v, angle, angleOfIncidence, glancingAngle, factor, Pivot(lib, m, shape.angle, factor));
      if Abs(glancingAngle) < ROTATE_INCREMENT {
        return false;
      }
      assert robot.GlancingThreshold(lib) == lib.atan2(m.width, m.length);
      ghost var w := WallResponse(lib, m, shape, v, angle);
      if Abs(glancingAngle) < robot.GlancingThreshold(lib) {
        assert w == WallStep(shape.RotateAboutPoint(factor * ROTATE_INCREMENT, Pivot(lib, m, shape.angle, factor)), v, true);
        PivotOffWall(lib, robot, newShape, direction, glancingAngle);
      } else {
        assert w == WallStep(shape.Rotate(2.0 * lib.sin(angleOfIncidence) * ROTATE_INCREMENT), v * newVelocityFactor, true);
        TurnOffWall(lib, robot, newShape, angleOfIncidence, newVelocityFactor);
      }
      assert MoverOf(robot) == m && newShape.pose == w.shape && robot.velocity == w.velocity;
      return true;
    }

    /** The glancing branch of robotIntoEnvironment: turn the body one degree about its front or back corner. */
    method PivotOffWall(lib: Lib, robot: Robot, newShape: RigidBody, direction: real, glancingAngle: real)
      requires direction == Heading(robot.pose.angle)
      modifies newShape
      ensures var factor := if glancingAngle < 0.0 then -1.0 else 1.0;
              newShape.pose == old(newShape.pose).RotateAboutPoint(factor * ROTATE_INCREMENT,
                                                                   Pivot(lib, MoverOf(robot), old(newShape.pose).angle, factor))
    {
      ghost var m, shape := MoverOf(robot), newShape.pose;
      var incidenceFactor := if glancingAngle < 0.0 then -1.0 else 1.0;
      var theta := if direction == 1.0 then newShape.pose.angle else newShape.pose.angle + PI;
      var xRot := robot.pose.com.x + incidenceFactor * lib.cos(theta) * robot.width / 2.0 - lib.sin(theta) * robot.length / 2.0;
      var yRot := robot.pose.com.y + incidenceFactor * lib.sin(theta) * robot.width / 2.0 + lib.cos(theta) * robot.length / 2.0;
      assert theta == PivotAngle(m.angle, shape.angle);
      assert m.com == robot.pose.com && m.width == robot.width && m.length == robot.length;
      ghost var cos, sin := lib.cos(theta), lib.sin(theta);
      assert xRot == m.com.x + incidenceFactor * cos * m.width / 2.0 - sin * m.length / 2.0;
      assert yRot == m.com.y + incidenceFactor * sin * m.width / 2.0 + cos * m.length / 2.0;
      assert Point(xRot, yRot) == Pivot(lib, m, shape.angle, incidenceFactor);
      newShape.RotateAboutPoint(incidenceFactor * ROTATE_INCREMENT, Point(xRot, yRot));
    }

    /** The steep branch of robotIntoEnvironment: turn the body by 2 sin(angle) degrees and scale the velocity. */
    method TurnOffWall(lib: Lib, robot: Robot, newShape: RigidBody, angleOfIncidence: real, newVelocityFactor: real)
      modifies robot, newShape
      ensures newShape.pose == old(newShape.pose).Rotate(2.0 * lib.sin(angleOfIncidence) * ROTATE_INCREMENT)
      ensures robot.velocity == old(robot.velocity) * newVelocityFactor
      ensures robot.pose == old(robot.pose) && robot.collection == old(robot.collection)
      ensures robot.collectionProgress == old(robot.collectionProgress) && robot.heldItems == old(robot.heldItems)
    {
      var rotateAngle := 2.0 * lib.sin(angleOfIncidence) * ROTATE_INCREMENT;
      robot.SetVelocity(robot.velocity * newVelocityFactor);
      newShape.Rotate(rotateAngle);
    }

    /**
     * The wall loop of resolve: while the environment obstructs the
     * candidate, respond to the reported angle, at most 80 times; the result
     * is the one WallSettle describes.
     */
    method WallPhase(lib: Lib, robot: Robot, newShape: RigidBody) returns (cleared: bool)
      modifies robot, newShape
      ensures var w := WallSettle(lib, environment.impassables, environment.outline, MoverOf(robot),
                                  old(newShape.pose), old(robot.velocity), 0);
              cleared == w.cleared && newShape.pose == w.shape && robot.velocity == w.velocity
      ensures robot.pose == old(robot.pose) && robot.collection == old(robot.collection)
      ensures robot.collectionProgress == old(robot.collectionProgress) && robot.heldItems == old(robot.heldItems)
    {
      ghost var m := MoverOf(robot);
      ghost var goal := WallSettle(lib, environment.impassables, environment.outline, m, newShape.pose, robot.velocity, 0);
      var collision := environment.ObstructsBody(lib, newShape.pose);
      var rotateCounter: nat := 0;
      while collision.Occurred()
        invariant rotateCounter <= WALL_TRIES
        invariant collision == BodyObstruction(lib, environment.impassables, environment.outline, newShape.pose)
        invariant MoverOf(robot) == m
        invariant WallSettle(lib, environment.impassables, environment.outline, m, newShape.pose, robot.velocity, rotateCounter) == goal
        invariant robot.pose == old(robot.pose) && robot.collection == old(robot.collection)
        invariant robot.collectionProgress == old(robot.collectionProgress) && robot.heldItems == old(robot.heldItems)
        decreases WALL_TRIES - rotateCounter
      {
        if rotateCounter >= WALL_TRIES || collision.at.NaN? {
          return false;
        }
        WallSettleStep(lib, environment.impassables, environment.outline, m, newShape.pose, robot.velocity, rotateCounter);
        var _ := RobotIntoEnvironment(lib, robot, newShape, collision.at.v);
        collision := environment.ObstructsBody(lib, newShape.pose);
        rotateCounter := rotateCounter + 1;
      }
      return true;
    }

    // -------------------------------------------------------------------
    // Collision responses involving cups
    // -------------------------------------------------------------------

    /** spillHotCoffeeEverywhere(location, SPILL_SIZE) with the next spill draw. */
    method Spill(lib: Lib, location: Point)
      modifies this, environment
      ensures Extends(old(environment.passables), environment.passables, 1)
      ensures IsSpill(Last(environment.passables), location, entropy.spill(old(spillsTaken)))
      ensures Logged(old(environment.passables), old(environment.terrains), environment.passables, environment.terrains)
      ensures environment.impassables == old(environment.impassables)
      ensures spillsTaken == old(spillsTaken) + 1
      ensures robots == old(robots) && inanimates == old(inanimates) && noiseTaken == old(noiseTaken)
      ensures steps == old(steps) && issue == old(issue) && paused == old(paused)
    {
      environment.SpillHotCoffeeEverywhere(lib, location, SPILL_SIZE, entropy.spill(spillsTaken));
      spillsTaken := spillsTaken + 1;
    }

    /**
     * cupIntoEnvironment(cup), and CupIntoRobot(cup), which does the same:
     * the cup is knocked over, spilling where it stands if it was full, it
     * leaves the cup list, and its body becomes passable ground of friction
     * 0.9.
     */
    method CrushCup(lib: Lib, cup: Cup)
      modifies this, environment, cup
      ensures !cup.upright && !cup.full && cup.pose == old(cup.pose)
      ensures inanimates == RemoveFirst(old(inanimates), cup)
      ensures var before, k := old(environment.passables), if old(cup.full) then 1 else 0;
              Extends(before, environment.passables, k + 1)
              && (old(cup.full) ==> IsSpill(environment.passables[|before|], cup.pose.com, entropy.spill(old(spillsTaken))))
              && IsWreck(lib, Last(environment.passables), cup.pose.region)
              && spillsTaken == old(spillsTaken) + k
      ensures Logged(old(environment.passables), old(environment.terrains), environment.passables, environment.terrains)
      ensures environment.impassables == old(environment.impassables)
      ensures robots == old(robots) && noiseTaken == old(noiseTaken)
      ensures steps == old(steps) && issue == old(issue) && paused == old(paused)
    {
      var spilled := cup.KnockOver();
      if spilled {
        Spill(lib, cup.pose.com);
      }
      ghost var mid := environment.passables;
      inanimates := RemoveFirst(inanimates, cup);
      var _ := environment.CreateNewPassableTerrain(lib, cup.pose.region, CRUSHED_CUP_FRICTION);
      assert environment.passables[..|mid|] == mid;
      assert environment.passables[|old(environment.passables)|..] == mid[|old(environment.passables)|..] + [Last(environment.passables)];
    }

    /**
     * robotIntoCup(robot, cup, angle): the cup is knocked over, spilling
     * where it stood if it was full, and pushed by the robot's velocity along
     * the angle; the answer is always true.
     */
    method RobotIntoCup(lib: Lib, robot: Robot, cup: Cup, angle: real) returns (ok: bool)
      modifies this, environment, cup
      ensures ok
      ensures cup.pose == Push(lib, old(cup.pose), robot.velocity, angle)
      ensures !cup.upright && !cup.full
      ensures var before, k := old(environment.passables), if old(cup.full) then 1 else 0;
              Extends(before, environment.passables, k)
              && (old(cup.full) ==> IsSpill(Last(environment.passables), old(cup.pose.com), entropy.spill(old(spillsTaken))))
              && spillsTaken == old(spillsTaken) + k
      ensures Logged(old(environment.passables), old(environment.terrains), environment.passables, environment.terrains)
      ensures environment.impassables == old(environment.impassables)
      ensures robots == old(robots) && inanimates == old(inanimates) && noiseTaken == old(noiseTaken)
      ensures steps == old(steps) && issue == old(issue) && paused == old(paused)
    {
      var spilled := cup.KnockOver();
      if spilled {
        Spill(lib, cup.pose.com);
      } else {
        assert environment.passables[|old(environment.passables)|..] == [];
      }
      ghost var p0, v := cup.pose, robot.velocity;
      assert p0 == old(cup.pose);
      var xTrans := -robot.velocity * DT * lib.sin(angle);
      var yTrans := robot.velocity * DT * lib.cos(angle);
      PushSteps(lib, p0, v, angle, xTrans, yTrans);
      cup.Translate(xTrans, yTrans);
      return true;
    }

    /**
     * The push loop of resolve, entered when the candidate body collides
     * with the cup: push until they are apart, giving up once 101 pushes have
     * not separated them.  The first pass, which knocks the cup over, is
     * written out ahead of the rest of the loop.
     */
    method PushPhase(lib: Lib, robot: Robot, newShape: RigidBody, cup: Cup) returns (ok: bool)
      requires Intersects(lib, newShape.pose.region, cup.pose.region)
      modifies this, environment, cup
      ensures var p := PushSettle(lib, newShape.pose, robot.GlancingThreshold(lib), robot.velocity, old(cup.pose), 0);
              ok == p.Pushed? && cup.pose == p.cup
      ensures !cup.upright && !cup.full
      ensures var before, k := old(environment.passables), if old(cup.full) then 1 else 0;
              Extends(before, environment.passables, k)
              && (old(cup.full) ==> IsSpill(environment.passables[|before|], old(cup.pose.com), entropy.spill(old(spillsTaken))))
              && spillsTaken == old(spillsTaken) + k
      ensures Logged(old(environment.passables), old(environment.terrains), environment.passables, environment.terrains)
      ensures environment.impassables == old(environment.impassables)
      ensures robots == old(robots) && inanimates == old(inanimates) && noiseTaken == old(noiseTaken)
      ensures steps == old(steps) && issue == old(issue) && paused == old(paused)
    {
      var robotCriticalAngle := lib.atan2(robot.width, robot.length);
      var collision := CollideWith(lib, newShape.pose, cup.pose, robotCriticalAngle);
      assert collision.Occurred();
      ok := RobotIntoCup(lib, robot, cup, collision.at.v);
      ok := PushOn(lib, robot, newShape, cup, robotCriticalAngle, 1);
    }

    /**
     * The push loop from its `pushes`-th pass on, with the cup already
     * knocked over, so that no push spills anything more.
     */
    method PushOn(lib: Lib, robot: Robot, newShape: RigidBody, cup: Cup, robotCriticalAngle: real, pushes: nat)
      returns (ok: bool)
      requires pushes <= PUSH_LIMIT + 1 && !cup.upright && !cup.full
      modifies this, environment, cup
      ensures var p := PushSettle(lib, newShape.pose, robotCriticalAngle, robot.velocity, old(cup.pose), pushes);
              ok == p.Pushed? && cup.pose == p.cup
      ensures !cup.upright && !cup.full
      ensures environment.passables == old(environment.passables) && environment.terrains == old(environment.terrains)
      ensures environment.impassables == old(environment.impassables) && spillsTaken == old(spillsTaken)
      ensures robots == old(robots) && inanimates == old(inanimates) && noiseTaken == old(noiseTaken)
      ensures steps == old(steps) && issue == old(issue) && paused == old(paused)
    {
      ghost var goal := PushSettle(lib, newShape.pose, robotCriticalAngle, robot.velocity, cup.pose, pushes);
      var collision := CollideWith(lib, newShape.pose, cup.pose, robotCriticalAngle);
      var infiniteLoopCheck: nat := pushes;
      while collision.Occurred()
        invariant pushes <= infiniteLoopCheck <= PUSH_LIMIT + 1
        invariant collision == CollideWith(lib, newShape.pose, cup.pose, robotCriticalAngle)
        invariant PushSettle(lib, newShape.pose, robotCriticalAngle, robot.velocity, cup.pose, infiniteLoopCheck) == goal
        invariant !cup.upright && !cup.full
        invariant environment.passables == old(environment.passables) && environment.terrains == old(environment.terrains)
        invariant environment.impassables == old(environment.impassables) && spillsTaken == old(spillsTaken)
        invariant robots == old(robots) && inanimates == old(inanimates) && noiseTaken == old(noiseTaken)
        invariant steps == old(steps) && issue == old(issue) && paused == old(paused)
        decreases PUSH_LIMIT + 1 - infiniteLoopCheck
      {
        if infiniteLoopCheck > PUSH_LIMIT {
          return false;
        }
        ok := RobotIntoCup(lib, robot, cup, collision.at.v);
        assert environment.passables[|old(environment.passables)|..] == [];
        collision := CollideWith(lib, newShape.pose, cup.pose, robotCriticalAngle);
        infiniteLoopCheck := infiniteLoopCheck + 1;
      }
      return true;
    }

    /** What the cup loops of resolve consult besides the cups, as things stand. */
    ghost function ArenaOf(lib: Lib, robot: Robot): Arena
      reads this, robots, environment
    {
      Arena(lib, OtherBodies(robots, robot), environment.impassables, environment.outline)
    }

    /** The moving robot and its candidate body as the cup loops of resolve use them. */
    ghost function PusherOf(lib: Lib, robot: Robot, newShape: RigidBody, fuel: nat): Pusher
      reads robot, newShape
    {
      Pusher(newShape.pose, robot.GlancingThreshold(lib), robot.pose.angle, robot.velocity, fuel)
    }

    /**
     * resolve(robot, newShape): refuse a candidate body that meets another
     * robot; otherwise settle it against the walls, refusing it if that
     * fails; then resolve every cup in turn, over a snapshot of the cup list.
     */
    method Resolve(lib: Lib, robot: Robot, newShape: RigidBody, fuel: nat) returns (verdict: Verdict)
      modifies this, environment, robot, newShape, inanimates
      ensures RobotInTheWay(lib, robots, robot, old(newShape.pose).region) ==>
                verdict == Reject && newShape.pose == old(newShape.pose) && robot.velocity == old(robot.velocity)
                && inanimates == old(inanimates) && environment.passables == old(environment.passables)
                && environment.terrains == old(environment.terrains)
                && forall c :: c in old(inanimates) ==> c.pose == old(c.pose)
      ensures !RobotInTheWay(lib, robots, robot, old(newShape.pose).region) ==>
                var w := WallSettle(lib, environment.impassables, environment.outline, MoverOf(robot),
                                    old(newShape.pose), old(robot.velocity), 0);
                newShape.pose == w.shape && robot.velocity == w.velocity
                && (!w.cleared ==> verdict == Reject && inanimates == old(inanimates)
                                   && forall c :: c in old(inanimates) ==> c.pose == old(c.pose))
                && (w.cleared ==>
                      var r := ResolveFrom(ArenaOf(lib, robot), PusherOf(lib, robot, newShape, fuel),
                                           old(PosesOf(inanimates)), old(inanimates), 0);
                      verdict == r.verdict && (verdict != Hang ==> forall c :: c in old(inanimates) ==> c in r.poses && c.pose == r.poses[c]))
      ensures verdict == Accept ==>
                !RobotInTheWay(lib, robots, robot, old(newShape.pose).region)
                && !BodyObstruction(lib, environment.impassables, environment.outline, newShape.pose).Occurred()
                && inanimates == old(inanimates)
      ensures verdict == Hang ==> inanimates == old(inanimates)
      ensures verdict == Reject ==> AtMostOneGone(old(inanimates), inanimates)
      ensures Logged(old(environment.passables), old(environment.terrains), environment.passables, environment.terrains)
      ensures environment.impassables == old(environment.impassables)
      ensures robot.pose == old(robot.pose) && robot.collection == old(robot.collection)
      ensures robot.collectionProgress == old(robot.collectionProgress) && robot.heldItems == old(robot.heldItems)
      ensures robots == old(robots) && noiseTaken == old(noiseTaken)
      ensures steps == old(steps) && issue == old(issue) && paused == old(paused)
    {
      ghost var m0 := PosesOf(inanimates);
      var blocked := OtherRobotInTheWay(lib, robot, newShape.pose.region);
      if blocked {
        return Reject;
      }
      var cleared := WallPhase(lib, robot, newShape);
      if !cleared {
        return Reject;
      }
      ghost var p1, t1 := environment.passables, environment.terrains;
      ghost var a, u := ArenaOf(lib, robot), PusherOf(lib, robot, newShape, fuel);
      verdict := ResolveCups(lib, robot, newShape, fuel, a, u, m0);
      LoggedChain(old(environment.passables), old(environment.terrains), p1, t1, environment.passables, environment.terrains);
    }

    /**
     * The outer cup loop of resolve, over a snapshot of the cup list: each
     * cup in turn is resolved, up to the first that refuses the move.
     */
    method ResolveCups(lib: Lib, robot: Robot, newShape: RigidBody, fuel: nat,
                       ghost a: Arena, ghost u: Pusher, ghost m0: map<Cup, Pose>) returns (verdict: Verdict)
      requires a == ArenaOf(lib, robot) && u == PusherOf(lib, robot, newShape, fuel)
      requires forall c :: c in inanimates ==> c in m0 && c.pose == m0[c]
      modifies this, environment, inanimates
      ensures a == ArenaOf(lib, robot) && u == PusherOf(lib, robot, newShape, fuel)
      ensures var r := ResolveFrom(a, u, m0, old(inanimates), 0);
              verdict == r.verdict && (verdict != Hang ==> forall c :: c in old(inanimates) ==> c in r.poses && c.pose == r.poses[c])
      ensures verdict == Accept || verdict == Hang ==> inanimates == old(inanimates)
      ensures verdict == Reject ==> AtMostOneGone(old(inanimates), inanimates)
      ensures Logged(old(environment.passables), old(environment.terrains), environment.passables, environment.terrains)
      ensures environment.impassables == old(environment.impassables)
      ensures robots == old(robots) && noiseTaken == old(noiseTaken)
      ensures steps == old(steps) && issue == old(issue) && paused == old(paused)
    {
      var cups := inanimates;
      var i := 0;
      ghost var cur: map<Cup, Pose> := m0;
      ghost var goal := ResolveFrom(a, u, m0, cups, 0);
      while i < |cups|
        invariant 0 <= i <= |cups| && inanimates == cups == old(inanimates)
        invariant a == ArenaOf(lib, robot)
        invariant forall c :: c in cups ==> c in cur && c.pose == cur[c]
        invariant ResolveFrom(a, u, cur, cups, i) == goal
        invariant Logged(old(environment.passables), old(environment.terrains), environment.passables, environment.terrains)
        invariant environment.impassables == old(environment.impassables)
        invariant robots == old(robots) && noiseTaken == old(noiseTaken)
        invariant steps == old(steps) && issue == old(issue) && paused == old(paused)
      {
        ghost var p1, t1 := environment.passables, environment.terrains;
        ghost var next;
        verdict, next := ResolveCup(lib, robot, newShape, cups[i], fuel, a, u, cur, i);
        LoggedChain(old(environment.passables), old(environment.terrains), p1, t1, environment.passables, environment.terrains);
        if verdict != Accept {
          assert goal == CupPoses(verdict, next);
          return;
        }
        cur := next;
        i := i + 1;
      }
      assert goal == CupPoses(Accept, cur);
      return Accept;
    }

    /** The robot loop at the start of resolve: some other robot meets the candidate body. */
    method OtherRobotInTheWay(lib: Lib, robot: Robot, region: Region) returns (blocked: bool)
      ensures blocked == RobotInTheWay(lib, robots, robot, region)
    {
      var i := 0;
      while i < |robots|
        invariant 0 <= i <= |robots|
        invariant forall k :: 0 <= k < i ==> !(robots[k] != robot && Intersects(lib, region, robots[k].pose.region))
      {
        if robots[i] != robot && Intersects(lib, region, robots[i].pose.region) {
          return true;
        }
        i := i + 1;
      }
      return false;
    }

    /** The robot loops of resolve after a cup has moved: some other robot collides with the cup. */
    method CupHitsOtherRobot(lib: Lib, robot: Robot, cup: Cup) returns (hit: bool)
      ensures hit == RobotMeetsCup(lib, robots, robot, cup.pose.region)
    {
      var i := 0;
      while i < |robots|
        invariant 0 <= i <= |robots|
        invariant forall k :: 0 <= k < i ==> !(robots[k] != robot && Intersects(lib, robots[k].pose.region, cup.pose.region))
      {
        if robots[i] != robot {
          var otherRobot := robots[i];
          var criticalAngle := lib.atan2(otherRobot.width, otherRobot.length);
          var cupOnRobotCol := CollideWith(lib, otherRobot.pose, cup.pose, criticalAngle);
          if cupOnRobotCol.Occurred() {
            return true;
          }
        }
        i := i + 1;
      }
      return false;
    }

    /**
     * cupIntoCup(robot, cup, angle): the cup that was run into moves by the
     * robot's velocity along the angle, forwards or backwards as the robot
     * heads.
     */
    method CupIntoCup(lib: Lib, robot: Robot, cup: Cup, angle: Dbl)
      modifies cup
      ensures cup.pose == Shove(lib, old(cup.pose), robot.pose.angle, robot.velocity, angle)
      ensures cup.full == old(cup.full) && cup.upright == old(cup.upright)
    {
      var direction := if -PI / 2.0 <= robot.pose.angle <= PI / 2.0 then 1.0 else -1.0;
      match angle
      case NaN =>
      case Num(a) =>
        var xTrans := direction * robot.velocity * DT * lib.sin(a);
        var yTrans := direction * robot.velocity * DT * lib.cos(a);
        assert direction == Heading(robot.pose.angle);
        ghost var p0, v := cup.pose, robot.velocity;
        cup.Translate(xTrans, yTrans);
        assert xTrans == direction * v * DT * lib.sin(a) && yTrans == direction * v * DT * lib.cos(a);
        assert cup.pose == p0.Translate(xTrans, yTrans);
        ShoveSteps(lib, p0, robot.pose.angle, v, a, direction);
        assert angle == Num(a) && old(cup.pose) == p0 && robot.velocity == v;
    }

    /**
     * One round of the inner cup loop of resolve: when another cup meets the
     * cup just handled, shove it until they are apart, then crush it if it
     * has ended up in a wall or against another robot, as ShoveOne says.
     * The shoving loop has no cap; `fuel` bounds it and Hang reports that it
     * would still run.
     */
    method ShoveCup(lib: Lib, robot: Robot, cup: Cup, otherCup: Cup, fuel: nat,
                    ghost a: Arena, ghost u: Pusher, ghost m: map<Cup, Pose>, ghost cups: seq<Cup>, ghost j: nat)
      returns (verdict: Verdict, ghost next: map<Cup, Pose>)
      requires a == ArenaOf(lib, robot) && u.heading == robot.pose.angle && u.velocity == robot.velocity && u.fuel == fuel
      requires j < |cups| && otherCup == cups[j] && cup in m && forall c :: c in cups ==> c in m && c.pose == m[c]
      requires cup.pose == m[cup]
      modifies this, environment, otherCup
      ensures var r := ShoveOne(a, u, m, cup, otherCup);
              verdict == r.verdict && next == r.poses && (verdict != Hang ==> otherCup.pose == r.poses[otherCup])
      ensures verdict != Hang ==> forall c :: c in cups ==> c in next && c.pose == next[c]
      ensures cup.pose == old(cup.pose)
      ensures verdict == Reject ==> inanimates == RemoveFirst(old(inanimates), otherCup) && !otherCup.upright
      ensures verdict != Reject ==> inanimates == old(inanimates) && environment.passables == old(environment.passables)
      ensures Logged(old(environment.passables), old(environment.terrains), environment.passables, environment.terrains)
      ensures environment.impassables == old(environment.impassables)
      ensures robots == old(robots) && noiseTaken == old(noiseTaken)
      ensures steps == old(steps) && issue == old(issue) && paused == old(paused)
    {
      next := ShoveOne(a, u, m, cup, otherCup).poses;
      var cupOnCupColl := CupCollideWith(lib, otherCup.pose, cup.pose);
      if otherCup != cup && cupOnCupColl.Occurred() {
        var settled := ShoveApart(lib, robot, cup, otherCup, cupOnCupColl, fuel);
        if !settled {
          return Hang, next;
        }
        var enviroOnOtherCupCol := environment.ObstructsBody(lib, otherCup.pose);
        if enviroOnOtherCupCol.Occurred() {
          CrushCup(lib, otherCup);
          return Reject, next;
        }
        var hit := CupHitsOtherRobot(lib, robot, otherCup);
        MeetsOtherIff(lib, robots, robot, otherCup.pose.region);
        if hit {
          CrushCup(lib, otherCup);
          return Reject, next;
        }
      }
      return Accept, next;
    }

    /**
     * The cup-on-cup `while` of resolve: shove the other cup until it no
     * longer meets the cup, within `fuel` rounds.
     */
    method ShoveApart(lib: Lib, robot: Robot, cup: Cup, otherCup: Cup, collision: Collision, fuel: nat) returns (settled: bool)
      requires otherCup != cup && collision == CupCollideWith(lib, otherCup.pose, cup.pose)
      modifies otherCup
      ensures var s := ShoveSettle(lib, old(otherCup.pose), cup.pose, robot.pose.angle, robot.velocity, fuel);
              settled == s.Shoved? && (settled ==> otherCup.pose == s.other)
      ensures otherCup.full == old(otherCup.full) && otherCup.upright == old(otherCup.upright)
    {
      ghost var goal := ShoveSettle(lib, otherCup.pose, cup.pose, robot.pose.angle, robot.velocity, fuel);
      var cupOnCupColl := collision;
      var rounds := fuel;
      while cupOnCupColl.Occurred()
        invariant cupOnCupColl == CupCollideWith(lib, otherCup.pose, cup.pose)
        invariant ShoveSettle(lib, otherCup.pose, cup.pose, robot.pose.angle, robot.velocity, rounds) == goal
        invariant otherCup.full == old(otherCup.full) && otherCup.upright == old(otherCup.upright)
        decreases rounds
      {
        if rounds == 0 {
          return false;
        }
        CupIntoCup(lib, robot, otherCup, cupOnCupColl.at);
        cupOnCupColl := CupCollideWith(lib, otherCup.pose, cup.pose);
        rounds := rounds - 1;
      }
      return true;
    }

    /**
     * One round of the outer cup loop of resolve.  If the candidate body
     * collides with the cup it is pushed clear (or the move is refused after
     * 101 pushes), and crushed, refusing the move, if it then meets another
     * robot or a wall.  Then every other cup is shoved clear of it.
     */
    method ResolveCup(lib: Lib, robot: Robot, newShape: RigidBody, cup: Cup, fuel: nat,
                      ghost a: Arena, ghost u: Pusher, ghost m: map<Cup, Pose>, ghost i: nat)
      returns (verdict: Verdict, ghost next: map<Cup, Pose>)
      requires i < |inanimates| && cup == inanimates[i]
      requires a == ArenaOf(lib, robot) && u == PusherOf(lib, robot, newShape, fuel)
      requires forall c :: c in inanimates ==> c in m && c.pose == m[c]
      modifies this, environment, inanimates
      ensures var r := CupStep(a, u, m, cup, old(inanimates));
              verdict == r.verdict && next == r.poses
              && (verdict != Hang ==> forall c :: c in old(inanimates) ==> c in next && c.pose == next[c])
      ensures ResolveFrom(a, u, m, old(inanimates), i)
              == if verdict == Accept then ResolveFrom(a, u, next, old(inanimates), i + 1) else CupPoses(verdict, next)
      ensures verdict == Accept || verdict == Hang ==> inanimates == old(inanimates)
      ensures verdict == Reject ==> AtMostOneGone(old(inanimates), inanimates)
      ensures Logged(old(environment.passables), old(environment.terrains), environment.passables, environment.terrains)
      ensures environment.impassables == old(environment.impassables)
      ensures robots == old(robots) && noiseTaken == old(noiseTaken)
      ensures steps == old(steps) && issue == old(issue) && paused == old(paused)
    {
      next := CupStep(a, u, m, cup, inanimates).poses;
      ResolveFromStep(a, u, m, inanimates, i);
      ghost var pushed;
      verdict, pushed := PushIfMet(lib, robot, newShape, cup, a, u, m);
      if verdict == Reject {
        return;
      }
      ghost var p1, t1 := environment.passables, environment.terrains;
      verdict := ShoveOthers(lib, robot, cup, fuel, a, u, pushed);
      LoggedChain(old(environment.passables), old(environment.terrains), p1, t1, environment.passables, environment.terrains);
    }

    /** The collision test of the outer cup loop of resolve: a cup the candidate body collides with is pushed clear. */
    method PushIfMet(lib: Lib, robot: Robot, newShape: RigidBody, cup: Cup, ghost a: Arena, ghost u: Pusher, ghost m: map<Cup, Pose>)
      returns (verdict: Verdict, ghost pushed: map<Cup, Pose>)
      requires cup in inanimates && a == ArenaOf(lib, robot)
      requires u.body == newShape.pose && u.critical == robot.GlancingThreshold(lib) && u.velocity == robot.velocity
      requires forall c :: c in inanimates ==> c in m && c.pose == m[c]
      modifies this, environment, cup
      ensures var r := PushOne(a, u, m, cup);
              verdict == r.verdict && pushed == r.poses && forall c :: c in old(inanimates) ==> c.pose == pushed[c]
      ensures var p := PushSettle(lib, newShape.pose, robot.GlancingThreshold(lib), robot.velocity, old(cup.pose), 0);
              cup.pose == p.cup && (p.Jammed? ==> verdict == Reject)
      ensures verdict == Accept ==> !Intersects(lib, newShape.pose.region, cup.pose.region)
      ensures verdict == Accept && Intersects(lib, newShape.pose.region, old(cup.pose.region)) ==>
                !RobotMeetsCup(lib, robots, robot, cup.pose.region)
                && !BodyObstruction(lib, environment.impassables, environment.outline, cup.pose).Occurred()
      ensures verdict == Accept ==> inanimates == old(inanimates)
      ensures inanimates == old(inanimates) || inanimates == RemoveFirst(old(inanimates), cup)
      ensures Logged(old(environment.passables), old(environment.terrains), environment.passables, environment.terrains)
      ensures environment.impassables == old(environment.impassables)
      ensures robots == old(robots) && noiseTaken == old(noiseTaken)
      ensures steps == old(steps) && issue == old(issue) && paused == old(paused)
    {
      pushed := PushOne(a, u, m, cup).poses;
      var robotCriticalAngle := lib.atan2(robot.width, robot.length);
      var shapeOnInanimateCol := CollideWith(lib, newShape.pose, cup.pose, robotCriticalAngle);
      if shapeOnInanimateCol.Occurred() {
        verdict := PushClear(lib, robot, newShape, cup, a);
        MeetsOtherIff(lib, robots, robot, cup.pose.region);
      } else {
        verdict := Accept;
      }
    }

    /**
     * The branch of resolve for a cup the candidate body collides with: push
     * it clear, then crush it, refusing the move, if it meets another robot or
     * a wall.
     */
    method PushClear(lib: Lib, robot: Robot, newShape: RigidBody, cup: Cup, ghost a: Arena) returns (verdict: Verdict)
      requires Intersects(lib, newShape.pose.region, cup.pose.region) && a == ArenaOf(lib, robot)
      modifies this, environment, cup
      ensures var p := PushSettle(lib, newShape.pose, robot.GlancingThreshold(lib), robot.velocity, old(cup.pose), 0);
              cup.pose == p.cup && (verdict == Accept <==> p.Pushed? && !Caught(a, cup.pose))
      ensures verdict == Accept || verdict == Reject
      ensures verdict == Accept ==> inanimates == old(inanimates)
      ensures inanimates == old(inanimates) || inanimates == RemoveFirst(old(inanimates), cup)
      ensures Logged(old(environment.passables), old(environment.terrains), environment.passables, environment.terrains)
      ensures environment.impassables == old(environment.impassables)
      ensures robots == old(robots) && noiseTaken == old(noiseTaken)
      ensures steps == old(steps) && issue == old(issue) && paused == old(paused)
    {
      ghost var p := PushSettle(lib, newShape.pose, robot.GlancingThreshold(lib), robot.velocity, cup.pose, 0);
      var pushed := PushPhase(lib, robot, newShape, cup);
      assert pushed == p.Pushed? && cup.pose == p.cup;
      if !pushed {
        return Reject;
      }
      ghost var p1, t1 := environment.passables, environment.terrains;
      var crushed := CrushIfCaught(lib, robot, cup);
      MeetsOtherIff(lib, robots, robot, cup.pose.region);
      LoggedChain(old(environment.passables), old(environment.terrains), p1, t1, environment.passables, environment.terrains);
      verdict := if crushed then Reject else Accept;
    }

    /** After a push: a cup that now meets another robot, or failing that a wall, is crushed. */
    method CrushIfCaught(lib: Lib, robot: Robot, cup: Cup) returns (crushed: bool)
      modifies this, environment, cup
      ensures crushed == (RobotMeetsCup(lib, robots, robot, cup.pose.region)
                          || BodyObstruction(lib, environment.impassables, environment.outline, cup.pose).Occurred())
      ensures cup.pose == old(cup.pose)
      ensures inanimates == if crushed then RemoveFirst(old(inanimates), cup) else old(inanimates)
      ensures Logged(old(environment.passables), old(environment.terrains), environment.passables, environment.terrains)
      ensures environment.impassables == old(environment.impassables)
      ensures robots == old(robots) && noiseTaken == old(noiseTaken)
      ensures steps == old(steps) && issue == old(issue) && paused == old(paused)
    {
      var hit := CupHitsOtherRobot(lib, robot, cup);
      if hit {
        CrushCup(lib, cup);
        return true;
      }
      var enviroOnCupCol := environment.ObstructsBody(lib, cup.pose);
      if enviroOnCupCol.Occurred() {
        CrushCup(lib, cup);
        return true;
      }
      return false;
    }

    /** The inner cup loop of resolve, over a snapshot of the cups: each other cup in turn is shoved clear of the cup. */
    method ShoveOthers(lib: Lib, robot: Robot, cup: Cup, fuel: nat, ghost a: Arena, ghost u: Pusher, ghost m: map<Cup, Pose>)
      returns (verdict: Verdict)
      requires cup in inanimates && a == ArenaOf(lib, robot)
      requires u.heading == robot.pose.angle && u.velocity == robot.velocity && u.fuel == fuel
      requires forall c :: c in inanimates ==> c in m && c.pose == m[c]
      modifies this, environment, inanimates
      ensures var r := ShoveFrom(a, u, m, cup, old(inanimates), 0);
              verdict == r.verdict && (verdict != Hang ==> forall c :: c in old(inanimates) ==> c in r.poses && c.pose == r.poses[c])
      ensures cup.pose == old(cup.pose)
      ensures verdict == Accept ==>
                forall j :: 0 <= j < |inanimates| && inanimates[j] != cup ==>
                  !Intersects(lib, inanimates[j].pose.region, cup.pose.region)
      ensures verdict != Reject ==> inanimates == old(inanimates) && environment.passables == old(environment.passables)
      ensures verdict == Reject ==> AtMostOneGone(old(inanimates), inanimates)
      ensures Logged(old(environment.passables), old(environment.terrains), environment.passables, environment.terrains)
      ensures environment.impassables == old(environment.impassables)
      ensures robots == old(robots) && noiseTaken == old(noiseTaken)
      ensures steps == old(steps) && issue == old(issue) && paused == old(paused)
    {
      var others := inanimates;
      var j := 0;
      ghost var cur: map<Cup, Pose> := m;
      ghost var goal := ShoveFrom(a, u, m, cup, others, 0);
      while j < |others|
        invariant 0 <= j <= |others| && inanimates == others == old(inanimates)
        invariant cup.pose == old(cup.pose)
        invariant environment.passables == old(environment.passables) && environment.terrains == old(environment.terrains)
        invariant environment.impassables == old(environment.impassables)
        invariant robots == old(robots) && noiseTaken == old(noiseTaken)
        invariant steps == old(steps) && issue == old(issue) && paused == old(paused)
        invariant a == ArenaOf(lib, robot)
        invariant forall c :: c in others ==> c in cur && c.pose == cur[c]
        invariant ShoveFrom(a, u, cur, cup, others, j) == goal
      {
        ghost var next;
        ShoveFromStep(a, u, cur, cup, others, j);
        verdict, next := ShoveCup(lib, robot, cup, others[j], fuel, a, u, cur, others, j);
        if verdict == Hang {
          return;
        }
        cur := next;
        if verdict == Reject {
          assert inanimates == RemoveFirst(old(inanimates), old(inanimates)[j]);
          return;
        }
        j := j + 1;
      }
      ShoveFromApart(a, u, m, cup, others, 0);
      return Accept;
    }

    /**
     * The arm at the end of a robot's turn in gameLoop: with the arm active
     * the robot collects from the cup list, as Collect describes; with the
     * arm idle the counter resets.
     */
    method Arm(lib: Lib, robot: Robot, active: bool)
      modifies this, robot
      ensures active ==>
                var a := ArmSweep(old(Touching(lib, robot.collection.region, inanimates)), old(robot.collectionProgress));
                var picked := Pick(old(inanimates), a.picked);
                robot.collectionProgress == a.progress && robot.heldItems == old(robot.heldItems) + picked
                && inanimates == RemoveEach(old(inanimates), picked)
      ensures !active ==>
                robot.collectionProgress == 0.0 && robot.heldItems == old(robot.heldItems) && inanimates == old(inanimates)
      ensures robot.pose == old(robot.pose) && robot.collection == old(robot.collection) && robot.velocity == old(robot.velocity)
      ensures robots == old(robots) && noiseTaken == old(noiseTaken) && spillsTaken == old(spillsTaken)
      ensures steps == old(steps) && issue == old(issue) && paused == old(paused)
    {
      if active {
        inanimates := Collect(lib, robot, inanimates);
      } else {
        robot.SetCollectionProgress(0.0);
      }
    }

    /**
     * gameLoop(): each robot of a snapshot of the robot list in turn asks
     * its brain for an output; a brain that throws pauses the simulation,
     * records the message as the issue and ends the call before the step is
     * counted; otherwise the robot takes its frame.  A frame whose thrust
     * is not a finite number also ends the call there, where Java would go
     * on with an infinite or NaN velocity.  When every robot has
     * moved the step counter goes up by one.  outcomes[i] is what the brain of
     * the i-th robot does this step.
     */
    method GameLoop(lib: Lib, outcomes: seq<BrainOutcome>, fuel: nat) returns (tick: Tick)
      requires Sound(lib) && |outcomes| == |robots|
      modifies this, environment, robots, inanimates
      ensures robots == old(robots) && environment.impassables == old(environment.impassables)
      ensures multiset(inanimates) <= multiset(old(inanimates))
      ensures Logged(old(environment.passables), old(environment.terrains), environment.passables, environment.terrains)
      ensures tick.Completed? ==>
                (forall k :: 0 <= k < |outcomes| ==> outcomes[k].Returned?)
                && steps == old(steps) + 1 && issue == old(issue) && paused == old(paused)
                && noiseTaken == old(noiseTaken) + |robots|
      ensures tick.Faulted? ==>
                tick.at < |outcomes| && outcomes[tick.at].Threw? && (forall k :: 0 <= k < tick.at ==> outcomes[k].Returned?)
                && paused && issue == Some(FaultMessage(outcomes[tick.at].fault)) && steps == old(steps)
                && noiseTaken == old(noiseTaken) + tick.at
      ensures tick.Stuck? ==>
                tick.at < |outcomes| && (forall k :: 0 <= k <= tick.at ==> outcomes[k].Returned?)
                && steps == old(steps) && issue == old(issue) && paused == old(paused)
      ensures tick.NonFinite? ==>
                tick.at < |outcomes| && (forall k :: 0 <= k <= tick.at ==> outcomes[k].Returned?)
                && robots[tick.at].mass == 0.0
                && steps == old(steps) && issue == old(issue) && paused == old(paused)
      ensures tick.Faulted? ==>
                forall k :: tick.at <= k < |robots| && robots[k] !in robots[..tick.at] ==> Untouched(robots[k])
      ensures tick.Stuck? || tick.NonFinite? ==>
                forall k :: tick.at < k < |robots| && robots[k] !in robots[..tick.at + 1] ==> Untouched(robots[k])
    {
      var snapshot := robots;
      var i := 0;
      while i < |snapshot|
        invariant 0 <= i <= |snapshot| && robots == snapshot == old(robots)
        invariant forall k :: 0 <= k < i ==> outcomes[k].Returned?
        invariant multiset(inanimates) <= multiset(old(inanimates))
        invariant forall k :: 0 <= k < |inanimates| ==> inanimates[k] in old(inanimates)
        invariant Logged(old(environment.passables), old(environment.terrains), environment.passables, environment.terrains)
        invariant environment.impassables == old(environment.impassables)
        invariant steps == old(steps) && issue == old(issue) && paused == old(paused)
        invariant noiseTaken == old(noiseTaken) + i
        invariant forall k :: i <= k < |snapshot| && snapshot[k] !in snapshot[..i] ==> Untouched(snapshot[k])
      {
        var robot := snapshot[i];
        var output := Update(outcomes[i]);
        if output.Err? {
          paused := true;
          issue := Some(output.error);
          return Faulted(i);
        }
        ghost var p1, t1, c1 := environment.passables, environment.terrains, inanimates;
        var verdict := Move(lib, robot, output.value, fuel);
        LoggedChain(old(environment.passables), old(environment.terrains), p1, t1, environment.passables, environment.terrains);
        assert robot in snapshot[..i + 1];
        if verdict == Hang {
          return Stuck(i);
        }
        if verdict == Diverged {
          return NonFinite(i);
        }
        i := i + 1;
      }
      steps := steps + 1;
      return Completed;
    }

    /** A robot's frame as the game loop needs to know it: what it keeps, and that no cup appears. */
    method Move(lib: Lib, robot: Robot, output: RobotOutput, fuel: nat) returns (verdict: Verdict)
      requires Sound(lib)
      modifies this, environment, robot, inanimates
      ensures verdict == Diverged <==> !ThrustFinite(old(robot.velocity), output.motor, robot.mass)
      ensures multiset(inanimates) <= multiset(old(inanimates))
      ensures forall k :: 0 <= k < |inanimates| ==> inanimates[k] in old(inanimates)
      ensures Logged(old(environment.passables), old(environment.terrains), environment.passables, environment.terrains)
      ensures environment.impassables == old(environment.impassables)
      ensures robots == old(robots) && noiseTaken == old(noiseTaken) + 1
      ensures steps == old(steps) && issue == old(issue) && paused == old(paused)
      ensures forall k :: 0 <= k < |robots| && robots[k] != robot ==> Untouched(robots[k])
    {
      verdict := Frame(lib, robot, output, fuel);
      SubMultisetMembers(inanimates, old(inanimates));
    }

    /**
     * One robot's turn in gameLoop once its brain has answered: the body
     * settled by MoveBody, then the arm.
     */
    method Frame(lib: Lib, robot: Robot, output: RobotOutput, fuel: nat) returns (verdict: Verdict)
      requires Sound(lib)
      modifies this, environment, robot, inanimates
      ensures verdict == Diverged <==> !ThrustFinite(old(robot.velocity), output.motor, robot.mass)
      ensures verdict == Diverged ==> robot.pose == old(robot.pose) && robot.velocity == old(robot.velocity)
      ensures ThrustFinite(old(robot.velocity), output.motor, robot.mass) ==>
              var v := NewVelocity(old(robot.velocity), output.motor, robot.power, robot.mass,
                                   Coefficient(lib, old(environment.passables), old(robot.pose.region)),
                                   entropy.gaussian(old(noiseTaken)));
              var c := Candidate(lib, old(robot.pose), old(robot.velocity), output.steering, v);
              var w := WallSettle(lib, environment.impassables, environment.outline, old(MoverOf(robot)), c, v, 0);
              (verdict == Accept ==> !RobotInTheWay(lib, robots, robot, c.region) && w.cleared
                                     && robot.pose == w.shape && robot.velocity == w.velocity)
              && (verdict == Reject ==> robot.pose == old(robot.pose) && robot.velocity == 0.0)
              && (RobotInTheWay(lib, robots, robot, c.region) || !w.cleared ==> verdict == Reject)
      ensures verdict == Diverged ==> forall q :: q in old(inanimates) ==> q.pose == old(q.pose)
      ensures (verdict == Accept || verdict == Reject) && !output.armActive ==>
                robot.collectionProgress == 0.0 && robot.heldItems == old(robot.heldItems)
      ensures multiset(inanimates) + multiset(robot.heldItems) <= multiset(old(inanimates)) + multiset(old(robot.heldItems))
      ensures verdict == Hang || verdict == Diverged ==>
                inanimates == old(inanimates) && robot.heldItems == old(robot.heldItems)
      ensures multiset(inanimates) <= multiset(old(inanimates))
      ensures Logged(old(environment.passables), old(environment.terrains), environment.passables, environment.terrains)
      ensures environment.impassables == old(environment.impassables)
      ensures robots == old(robots) && noiseTaken == old(noiseTaken) + 1
      ensures steps == old(steps) && issue == old(issue) && paused == old(paused)
    {
      verdict := MoveBody(lib, robot, output, fuel);
      if verdict == Hang || verdict == Diverged {
        return;
      }
      ghost var mid := inanimates;
      ghost var touching := Touching(lib, robot.collection.region, inanimates);
      ghost var progress := robot.collectionProgress;
      Arm(lib, robot, output.armActive);
      if output.armActive {
        ArmConserves(mid, touching, progress);
      }
    }

    /**
     * The body part of a robot's turn: the candidate body from
     * findNewState, then resolve; an accepted body becomes the robot's, a
     * refused one stops the robot dead.
     */
    method MoveBody(lib: Lib, robot: Robot, output: RobotOutput, fuel: nat) returns (verdict: Verdict)
      requires Sound(lib)
      modifies this, environment, robot, inanimates
      ensures verdict == Diverged <==> !ThrustFinite(old(robot.velocity), output.motor, robot.mass)
      ensures verdict == Diverged ==>
                robot.pose == old(robot.pose) && robot.velocity == old(robot.velocity) && inanimates == old(inanimates)
                && environment.passables == old(environment.passables) && environment.terrains == old(environment.terrains)
      ensures ThrustFinite(old(robot.velocity), output.motor, robot.mass) ==>
              var v := NewVelocity(old(robot.velocity), output.motor, robot.power, robot.mass,
                                   Coefficient(lib, old(environment.passables), old(robot.pose.region)),
                                   entropy.gaussian(old(noiseTaken)));
              var c := Candidate(lib, old(robot.pose), old(robot.velocity), output.steering, v);
              var w := WallSettle(lib, environment.impassables, environment.outline, old(MoverOf(robot)), c, v, 0);
              (verdict == Accept ==> !RobotInTheWay(lib, robots, robot, c.region) && w.cleared
                                     && robot.pose == w.shape && robot.velocity == w.velocity)
              && (verdict == Reject ==> robot.pose == old(robot.pose) && robot.velocity == 0.0)
              && (RobotInTheWay(lib, robots, robot, c.region) || !w.cleared ==> verdict == Reject)
      ensures verdict == Diverged ==> forall q :: q in old(inanimates) ==> q.pose == old(q.pose)
      ensures verdict == Hang ==> inanimates == old(inanimates)
      ensures multiset(inanimates) <= multiset(old(inanimates))
      ensures robot.heldItems == old(robot.heldItems) && robot.collectionProgress == old(robot.collectionProgress)
      ensures Logged(old(environment.passables), old(environment.terrains), environment.passables, environment.terrains)
      ensures environment.impassables == old(environment.impassables)
      ensures robots == old(robots) && noiseTaken == old(noiseTaken) + 1
      ensures steps == old(steps) && issue == old(issue) && paused == old(paused)
    {
      var newShape, finite := FindNewState(lib, robot, output);
      if !finite {
        return Diverged;
      }
      verdict := SettleBody(lib, robot, newShape, fuel);
    }

    /**
     * The end of a robot's body turn in gameLoop: resolve the candidate
     * body; an accepted body becomes the robot's, a refused one stops the
     * robot dead.
     */
    method SettleBody(lib: Lib, robot: Robot, newShape: RigidBody, fuel: nat) returns (verdict: Verdict)
      modifies this, environment, robot, newShape, inanimates
      ensures verdict != Diverged
      ensures var w := WallSettle(lib, environment.impassables, environment.outline, old(MoverOf(robot)),
                                  old(newShape.pose), old(robot.velocity), 0);
              (verdict == Accept ==> !RobotInTheWay(lib, robots, robot, old(newShape.pose).region) && w.cleared
                                     && robot.pose == w.shape && robot.velocity == w.velocity)
              && (verdict == Reject ==> robot.pose == old(robot.pose) && robot.velocity == 0.0)
              && (RobotInTheWay(lib, robots, robot, old(newShape.pose).region) || !w.cleared ==> verdict == Reject)
      ensures var w := WallSettle(lib, environment.impassables, environment.outline, old(MoverOf(robot)),
                                  old(newShape.pose), old(robot.velocity), 0);
              CupsResolved(ArenaOf(lib, robot), RobotInTheWay(lib, robots, robot, old(newShape.pose).region), w,
                           robot.GlancingThreshold(lib), old(robot.pose.angle), fuel, old(PosesOf(inanimates)), old(inanimates), verdict)
      ensures verdict == Hang ==> inanimates == old(inanimates)
      ensures multiset(inanimates) <= multiset(old(inanimates))
      ensures robot.heldItems == old(robot.heldItems) && robot.collectionProgress == old(robot.collectionProgress)
      ensures Logged(old(environment.passables), old(environment.terrains), environment.passables, environment.terrains)
      ensures environment.impassables == old(environment.impassables)
      ensures robots == old(robots) && noiseTaken == old(noiseTaken)
      ensures steps == old(steps) && issue == old(issue) && paused == old(paused)
    {
      ghost var cups := inanimates;
      verdict := Resolve(lib, robot, newShape, fuel);
      if verdict == Hang {
        return;
      }
      if verdict == Accept {
        robot.SetShape(lib, newShape.pose);
      } else {
        robot.SetVelocity(0.0);
      }
      NoneCreated(cups, inanimates);
    }

  }

  /**
   * The acceleration of findNewState step by step: the motor's thrust, the
   * deadzone, wind resistance and ground friction, and the noise draw.  A
   * zero mass makes the quotient an infinity or NaN, which `finite` reports;
   * only the deadzone, overwriting it with 0, brings it back.  Past a
   * quotient that stays non-finite the old velocity is handed back.
   */
  method Accelerate(v: real, motorOut: real, power: real, mass: real, coefficient: real, gaussian: real)
    returns (velocity: real, finite: bool)
    ensures finite == ThrustFinite(v, motorOut, mass)
    ensures finite ==> velocity == NewVelocity(v, motorOut, power, mass, coefficient, gaussian)
    ensures !finite ==> velocity == v
  {
    var acceleration := 0.0;
    finite := mass != 0.0;
    if finite {
      acceleration := power * motorOut / mass;
    }
    if Abs(motorOut) < 10.0 && Abs(v) < DEADZONE && motorOut * v > 0.0 {
      acceleration := 0.0;
      finite := true;
    }
    if !finite {
      return v, false;
    }
    assert acceleration == Thrust(v, motorOut, power, mass);
    var direction := if v > 0.0 then 1.0 else -1.0;
    var windResistance := v * 0.5;
    var groundFriction := direction * mass * coefficient;
    var friction := windResistance + groundFriction;
    acceleration := acceleration - friction;
    acceleration := acceleration + gaussian * MOTOR_NOISE_STDEV;
    velocity := v + acceleration * DT;
  }

  /**
   * The angle arithmetic at the head of robotIntoEnvironment: the incidence
   * angle reduced by whole turns, and the glancing angle half a turn closer
   * to 0 when the reduced angle is more than a quarter turn away from it.
   */
  method IncidenceAngles(angle: real) returns (angleOfIncidence: real, glancingAngle: real)
    ensures angleOfIncidence == ReducedIncidence(angle)
    ensures glancingAngle == Glancing(angleOfIncidence)
  {
    angleOfIncidence := angle;
    if angleOfIncidence > TWO_PI {
      angleOfIncidence := FMod(angleOfIncidence, TWO_PI);
    }
    if Abs(angleOfIncidence - TWO_PI) < Abs(angleOfIncidence) {
      angleOfIncidence := angleOfIncidence - TWO_PI;
    }
    if Abs(angleOfIncidence) > PI / 2.0 {
      if Abs(angleOfIncidence - PI) < Abs(angleOfIncidence) {
        glancingAngle := angleOfIncidence - PI;
      } else {
        glancingAngle := angleOfIncidence + PI;
      }
    } else {
      glancingAngle := angleOfIncidence;
    }
  }

  /** Some robot other than the given one meets the region, decided as `newShape.intersects(otherRobot)`. */
  predicate RobotInTheWay(lib: Lib, robots: seq<Robot>, robot: Robot, region: Region)
    reads set r | r in robots && r != robot
  {
    exists k :: 0 <= k < |robots| && robots[k] != robot && Intersects(lib, region, robots[k].pose.region)
  }

  /** Some robot other than the given one collides with the cup, decided as `otherRobot.collideWith(cup, ...)`. */
  predicate RobotMeetsCup(lib: Lib, robots: seq<Robot>, robot: Robot, cup: Region)
    reads set r | r in robots && r != robot
  {
    exists k :: 0 <= k < |robots| && robots[k] != robot && Intersects(lib, robots[k].pose.region, cup)
  }

  // -------------------------------------------------------------------
  // Where the cup loops of resolve leave the cups
  // -------------------------------------------------------------------

  /** The bodies of the robots other than the moving one, in list order; the moving robot's own place holds None. */
  ghost function OtherBodies(robots: seq<Robot>, robot: Robot): (b: seq<Option<Region>>)
    reads set r | r in robots && r != robot
    ensures |b| == |robots|
    ensures forall k :: 0 <= k < |robots| ==> b[k] == if robots[k] == robot then None else Some(robots[k].pose.region)
  {
    seq(|robots|, k requires 0 <= k < |robots| reads set r | r in robots && r != robot =>
      if robots[k] == robot then None else Some(robots[k].pose.region))
  }

  /** Some other robot's body meets the region, as `otherRobot.collideWith(cup, ...)` decides it. */
  predicate MeetsOther(lib: Lib, bodies: seq<Option<Region>>, region: Region)
  {
    exists k :: 0 <= k < |bodies| && bodies[k].Some? && Intersects(lib, bodies[k].value, region)
  }

  /** The snapshot of the other robots decides RobotMeetsCup. */
  lemma MeetsOtherIff(lib: Lib, robots: seq<Robot>, robot: Robot, region: Region)
    ensures MeetsOther(lib, OtherBodies(robots, robot), region) <==> RobotMeetsCup(lib, robots, robot, region)
  {
    var b := OtherBodies(robots, robot);
    if RobotMeetsCup(lib, robots, robot, region) {
      var k :| 0 <= k < |robots| && robots[k] != robot && Intersects(lib, robots[k].pose.region, region);
      assert b[k] == Some(robots[k].pose.region);
    }
  }

  /** What the cup loops of resolve consult besides the cups: the other robots' bodies and the walls. */
  datatype Arena = Arena(lib: Lib, others: seq<Option<Region>>, impassables: seq<Terrain>, outline: Region)

  /**
   * The moving robot as the cup loops use it: the settled candidate body
   * that pushes, the robot's glancing threshold, heading and velocity, and
   * the fuel of the uncapped cup-on-cup loop.
   */
  datatype Pusher = Pusher(body: Pose, critical: real, heading: real, velocity: real, fuel: nat)

  /**
   * Where the cup loops stop and the pose of every cup when they do.  On
   * Hang the poses are those from before the shove that does not end, and
   * only the verdict is meant.
   */
  datatype CupPoses = CupPoses(verdict: Verdict, poses: map<Cup, Pose>)

  /** A cup that resolve crushes after moving it: it meets another robot or a wall. */
  predicate Caught(a: Arena, p: Pose)
  {
    MeetsOther(a.lib, a.others, p.region) || BodyObstruction(a.lib, a.impassables, a.outline, p).Occurred()
  }

  /**
   * One round of the inner cup loop: another cup that meets the cup is
   * shoved until it does not, and Reject reports that it was then caught,
   * in which case it stays where the shoves left it.
   */
  function ShoveOne(a: Arena, u: Pusher, m: map<Cup, Pose>, cup: Cup, other: Cup): (r: CupPoses)
    ensures r.verdict != Diverged
    ensures r.verdict == Accept && other != cup && cup in m && other in m ==>
              cup in r.poses && other in r.poses && !Intersects(a.lib, r.poses[other].region, r.poses[cup].region)
  {
    if cup in m && other in m && other != cup && Intersects(a.lib, m[other].region, m[cup].region) then
      match ShoveSettle(a.lib, m[other], m[cup], u.heading, u.velocity, u.fuel)
      case Hung => CupPoses(Hang, m)
      case Shoved(p) => CupPoses(if Caught(a, p) then Reject else Accept, m[other := p])
    else CupPoses(Accept, m)
  }

  /** The inner cup loop from the j-th cup on: its rounds in list order, up to the first that does not accept. */
  function ShoveFrom(a: Arena, u: Pusher, m: map<Cup, Pose>, cup: Cup, cups: seq<Cup>, j: nat): (r: CupPoses)
    decreases |cups| - j
    ensures r.verdict != Diverged
  {
    if j >= |cups| then CupPoses(Accept, m)
    else
      var r := ShoveOne(a, u, m, cup, cups[j]);
      if r.verdict != Accept then r else ShoveFrom(a, u, r.poses, cup, cups, j + 1)
  }

  /**
   * The first half of a round of the outer cup loop: a cup the body meets
   * is pushed by PushSettle, and Reject reports a jam or a pushed cup that
   * is caught; either way the cup stays where the pushes left it.
   */
  function PushOne(a: Arena, u: Pusher, m: map<Cup, Pose>, cup: Cup): (r: CupPoses)
    ensures r.verdict != Diverged && r.verdict != Hang
  {
    if cup in m && Intersects(a.lib, u.body.region, m[cup].region) then
      var p := PushSettle(a.lib, u.body, u.critical, u.velocity, m[cup], 0);
      CupPoses(if p.Jammed? || Caught(a, p.cup) then Reject else Accept, m[cup := p.cup])
    else CupPoses(Accept, m)
  }

  /** One round of the outer cup loop: the cup is pushed, then the other cups are shoved off it. */
  function CupStep(a: Arena, u: Pusher, m: map<Cup, Pose>, cup: Cup, cups: seq<Cup>): (r: CupPoses)
    ensures r.verdict != Diverged
  {
    var r := PushOne(a, u, m, cup);
    if r.verdict != Accept then r else ShoveFrom(a, u, r.poses, cup, cups, 0)
  }

  /**
   * The outer cup loop from the i-th cup on: the rounds in list order, up
   * to the first that does not accept.  Nothing is undone: on Reject every
   * cup pushed or shoved before keeps its new place.
   */
  function ResolveFrom(a: Arena, u: Pusher, m: map<Cup, Pose>, cups: seq<Cup>, i: nat): (r: CupPoses)
    decreases |cups| - i
    ensures r.verdict != Diverged
  {
    if i >= |cups| then CupPoses(Accept, m)
    else
      var r := CupStep(a, u, m, cups[i], cups);
      if r.verdict != Accept then r else ResolveFrom(a, u, r.poses, cups, i + 1)
  }

  /** The first round of the inner cup loop from the j-th cup on. */
  lemma ShoveFromStep(a: Arena, u: Pusher, m: map<Cup, Pose>, cup: Cup, cups: seq<Cup>, j: nat)
    requires j < |cups|
    ensures var r := ShoveOne(a, u, m, cup, cups[j]);
            ShoveFrom(a, u, m, cup, cups, j) == if r.verdict != Accept then r else ShoveFrom(a, u, r.poses, cup, cups, j + 1)
  {}

  /** When the inner cup loop accepts, it leaves every other cup of the list apart from the cup. */
  lemma {:induction false} ShoveFromApart(a: Arena, u: Pusher, m: map<Cup, Pose>, cup: Cup, cups: seq<Cup>, j: nat)
    requires cup in m && (forall c :: c in cups ==> c in m) && j <= |cups|
    requires forall k :: 0 <= k < j && cups[k] != cup ==> !Intersects(a.lib, m[cups[k]].region, m[cup].region)
    requires ShoveFrom(a, u, m, cup, cups, j).verdict == Accept
    decreases |cups| - j
    ensures var r := ShoveFrom(a, u, m, cup, cups, j);
            forall k :: 0 <= k < |cups| && cups[k] != cup ==>
              cups[k] in r.poses && cup in r.poses && !Intersects(a.lib, r.poses[cups[k]].region, r.poses[cup].region)
  {
    if j < |cups| {
      var r := ShoveOne(a, u, m, cup, cups[j]);
      assert forall k :: 0 <= k <= j && cups[k] != cup ==> cups[k] in r.poses && cup in r.poses && !Intersects(a.lib, r.poses[cups[k]].region, r.poses[cup].region) by {
        forall k | 0 <= k <= j && cups[k] != cup
          ensures !Intersects(a.lib, r.poses[cups[k]].region, r.poses[cup].region)
        {
          if cups[k] != cups[j] {
            assert r.poses[cups[k]] == m[cups[k]];
          }
        }
      }
      ShoveFromApart(a, u, r.poses, cup, cups, j + 1);
    }
  }

  /** The inner cup loop never moves the cup it shoves the others off, and forgets no cup. */
  lemma {:induction false} ShoveFromKeeps(a: Arena, u: Pusher, m: map<Cup, Pose>, cup: Cup, cups: seq<Cup>, j: nat)
    requires cup in m
    decreases |cups| - j
    ensures var r := ShoveFrom(a, u, m, cup, cups, j);
            cup in r.poses && r.poses[cup] == m[cup] && forall c :: c in m ==> c in r.poses
  {
    if j < |cups| {
      var r := ShoveOne(a, u, m, cup, cups[j]);
      if r.verdict == Accept {
        ShoveFromKeeps(a, u, r.poses, cup, cups, j + 1);
      }
    }
  }

  /**
   * The push of a round of the outer cup loop: the cup ends where
   * PushSettle leaves it, a jam refuses the move, and an accepted push
   * leaves the cup clear of the body and, if it was pushed, caught by
   * neither another robot nor a wall.  No other cup moves.
   */
  lemma PushOneMeaning(a: Arena, u: Pusher, m: map<Cup, Pose>, cup: Cup)
    requires cup in m
    ensures var r := PushOne(a, u, m, cup);
            var p := PushSettle(a.lib, u.body, u.critical, u.velocity, m[cup], 0);
            cup in r.poses && r.poses[cup] == p.cup && (p.Jammed? ==> r.verdict == Reject)
            && (r.verdict == Accept ==> !Intersects(a.lib, u.body.region, r.poses[cup].region))
            && (r.verdict == Accept && Intersects(a.lib, u.body.region, m[cup].region) ==> !Caught(a, r.poses[cup]))
            && (forall c :: c in m && c != cup ==> c in r.poses && r.poses[c] == m[c])
  {
  }

  /**
   * A round of the outer cup loop: the cup ends where PushSettle leaves it
   * and a jam refuses the move; an accepted round leaves the cup clear of
   * the body and of every other cup of the list, and a pushed cup caught by
   * neither another robot nor a wall.
   */
  lemma CupStepMeaning(a: Arena, u: Pusher, m: map<Cup, Pose>, cup: Cup, cups: seq<Cup>)
    requires cup in m && forall c :: c in cups ==> c in m
    ensures var r := CupStep(a, u, m, cup, cups);
            var p := PushSettle(a.lib, u.body, u.critical, u.velocity, m[cup], 0);
            cup in r.poses && r.poses[cup] == p.cup && (p.Jammed? ==> r.verdict == Reject)
            && (r.verdict == Accept ==>
                  !Intersects(a.lib, u.body.region, r.poses[cup].region)
                  && (Intersects(a.lib, u.body.region, m[cup].region) ==> !Caught(a, r.poses[cup]))
                  && forall k :: 0 <= k < |cups| && cups[k] != cup ==>
                       cups[k] in r.poses && !Intersects(a.lib, r.poses[cups[k]].region, r.poses[cup].region))
  {
    PushOneMeaning(a, u, m, cup);
    var pushed := PushOne(a, u, m, cup);
    if pushed.verdict == Accept {
      ShoveFromKeeps(a, u, pushed.poses, cup, cups, 0);
      if ShoveFrom(a, u, pushed.poses, cup, cups, 0).verdict == Accept {
        ShoveFromApart(a, u, pushed.poses, cup, cups, 0);
      }
    }
  }

  /** The first round of the outer cup loop from the i-th cup on. */
  lemma ResolveFromStep(a: Arena, u: Pusher, m: map<Cup, Pose>, cups: seq<Cup>, i: nat)
    requires i < |cups|
    ensures var r := CupStep(a, u, m, cups[i], cups);
            ResolveFrom(a, u, m, cups, i) == if r.verdict != Accept then r else ResolveFrom(a, u, r.poses, cups, i + 1)
  {}

  /** The poses of the cups of a list, by cup. */
  ghost function PosesOf(cups: seq<Cup>): (m: map<Cup, Pose>)
    reads cups
    ensures forall c :: c in cups ==> c in m && m[c] == c.pose
  {
    map c | c in cups :: c.pose
  }

  /** Every cup of the list stands at the pose the map gives it. */
  predicate CupsAt(cups: seq<Cup>, poses: map<Cup, Pose>)
    reads cups
  {
    forall c :: c in cups ==> c in poses && c.pose == poses[c]
  }

  /**
   * What resolve leaves of the cups, whose poses before it were m: a
   * candidate that meets another robot or is not freed from the walls
   * leaves every cup where it was; otherwise the verdict is that of the cup
   * loops run for the settled body w, and unless they hang every cup stands
   * where they leave it.
   */
  predicate CupsResolved(a: Arena, blocked: bool, w: WallOutcome, critical: real, heading: real, fuel: nat,
                         m: map<Cup, Pose>, cups: seq<Cup>, verdict: Verdict)
    reads cups
  {
    (blocked || !w.cleared ==> CupsAt(cups, m))
    && (!blocked && w.cleared ==>
          var r := ResolveFrom(a, Pusher(w.shape, critical, heading, w.velocity, fuel), m, cups, 0);
          verdict == r.verdict && (verdict != Hang ==> CupsAt(cups, r.poses)))
  }

  /** The robot's state is what it was: body, collection area, velocity, collection counter and held cups. */
  twostate predicate Untouched(r: Robot)
    reads r
  {
    r.pose == old(r.pose) && r.collection == old(r.collection) && r.velocity == old(r.velocity)
    && r.collectionProgress == old(r.collectionProgress) && r.heldItems == old(r.heldItems)
  }

  /** `after` is `before` with n more terrains appended. */
  predicate Extends(before: seq<Terrain>, after: seq<Terrain>, n: nat)
  {
    |after| == |before| + n && after[..|before|] == before
  }

  /**
   * The terrain lists since (p0, t0): passables only appended to, and the
   * terrain list grown by exactly the passables appended, in order.
   */
  predicate Logged(p0: seq<Terrain>, t0: seq<Terrain>, p: seq<Terrain>, t: seq<Terrain>)
  {
    |p0| <= |p| && p[..|p0|] == p0 && t == t0 + p[|p0|..]
  }

  /** Two logged stretches make one. */
  lemma LoggedChain(p0: seq<Terrain>, t0: seq<Terrain>, p1: seq<Terrain>, t1: seq<Terrain>, p2: seq<Terrain>, t2: seq<Terrain>)
    requires Logged(p0, t0, p1, t1) && Logged(p1, t1, p2, t2)
    ensures Logged(p0, t0, p2, t2)
  {
    assert p2[..|p1|][..|p0|] == p2[..|p0|];
    assert p2[|p0|..] == p2[|p0|..|p1|] + p2[|p1|..];
    assert p2[|p0|..|p1|] == p1[|p0|..];
  }

  /** `after` is `before`, or `before` with the first occurrence of one of its cups taken out. */
  predicate AtMostOneGone(before: seq<Cup>, after: seq<Cup>)
  {
    after == before || exists i :: 0 <= i < |before| && after == RemoveFirst(before, before[i])
  }

  /** The terrain a spill leaves: passable, friction 0.1, the spill outline drawn at the location. */
  predicate IsSpill(t: Terrain, location: Point, draws: SpillDraws)
  {
    t.passable && t.friction == SPILL_FRICTION && t.pose.region == SpillShape(location, SPILL_SIZE, draws)
  }

  /** The terrain a crushed cup leaves: passable, friction 0.9, the cup's own region centred on its bounding box. */
  predicate IsWreck(lib: Lib, t: Terrain, cup: Region)
  {
    t.passable && t.friction == CRUSHED_CUP_FRICTION && t.pose == ShapeBody(cup, BoundsCentre(lib, cup))
  }

  /** The parts of a robot the wall response reads. */
  function MoverOf(robot: Robot): Mover
    reads robot
  {
    Mover(robot.pose.com, robot.pose.angle, robot.width, robot.length)
  }

  /**
   * The arm's loop over a snapshot of the cup list: every cup the collection
   * area touches either adds one to the counter or, once the counter has
   * reached 100, is picked up: the counter resets, the cup joins the held
   * items and its first occurrence leaves the list.
   */
  method Collect(lib: Lib, robot: Robot, cups: seq<Cup>) returns (remaining: seq<Cup>)
    modifies robot
    ensures var a := ArmSweep(old(Touching(lib, robot.collection.region, cups)), old(robot.collectionProgress));
            var picked := Pick(cups, a.picked);
            robot.collectionProgress == a.progress && robot.heldItems == old(robot.heldItems) + picked
            && remaining == RemoveEach(cups, picked)
    ensures robot.pose == old(robot.pose) && robot.collection == old(robot.collection) && robot.velocity == old(robot.velocity)
  {
    remaining := cups;
    ghost var touching := Touching(lib, robot.collection.region, cups);
    ghost var p0, h0 := robot.collectionProgress, robot.heldItems;
    var i := 0;
    while i < |cups|
      invariant 0 <= i <= |cups|
      invariant robot.collectionProgress == ArmSweep(touching[..i], p0).progress
      invariant robot.heldItems == h0 + Pick(cups, ArmSweep(touching[..i], p0).picked)
      invariant remaining == RemoveEach(cups, Pick(cups, ArmSweep(touching[..i], p0).picked))
      invariant robot.pose == old(robot.pose) && robot.collection == old(robot.collection) && robot.velocity == old(robot.velocity)
    {
      TouchingAt(lib, robot.collection.region, cups, i);
      remaining := CollectRound(lib, robot, cups, touching, i, p0, h0, remaining);
      i := i + 1;
    }
    assert touching[..|cups|] == touching;
  }

  /** One round of that loop: the arm's progress or pick for cups[i]. */
  method CollectRound(lib: Lib, robot: Robot, cups: seq<Cup>, ghost touching: seq<bool>, i: nat,
                      ghost p0: real, ghost h0: seq<Cup>, remaining: seq<Cup>) returns (rest: seq<Cup>)
    requires i < |cups| == |touching| && touching[i] == Intersects(lib, robot.collection.region, cups[i].pose.region)
    requires robot.collectionProgress == ArmSweep(touching[..i], p0).progress
    requires robot.heldItems == h0 + Pick(cups, ArmSweep(touching[..i], p0).picked)
    requires remaining == RemoveEach(cups, Pick(cups, ArmSweep(touching[..i], p0).picked))
    modifies robot
    ensures robot.collectionProgress == ArmSweep(touching[..i + 1], p0).progress
    ensures robot.heldItems == h0 + Pick(cups, ArmSweep(touching[..i + 1], p0).picked)
    ensures rest == RemoveEach(cups, Pick(cups, ArmSweep(touching[..i + 1], p0).picked))
    ensures robot.pose == old(robot.pose) && robot.collection == old(robot.collection) && robot.velocity == old(robot.velocity)
  {
    rest := remaining;
    ghost var a := ArmSweep(touching[..i], p0);
    ghost var picked := Pick(cups, a.picked);
    SweepStep(touching, i, p0);
    if Intersects(lib, robot.collection.region, cups[i].pose.region) {
      var progress := robot.collectionProgress;
      if progress >= 100.0 {
        robot.SetCollectionProgress(0.0);
        robot.AddHeldItem(cups[i]);
        rest := RemoveFirst(rest, cups[i]);
        assert ArmSweep(touching[..i + 1], p0) == ArmResult(0.0, a.picked + [i]);
        PickStep(cups, a.picked, i);
        AppendAssoc(h0, picked, [cups[i]]);
        RemoveEachStep(cups, picked, cups[i]);
      } else {
        robot.SetCollectionProgress(progress + 1.0);
        assert ArmSweep(touching[..i + 1], p0) == ArmResult(a.progress + 1.0, a.picked);
      }
    } else {
      assert ArmSweep(touching[..i + 1], p0) == a;
    }
  }


  /** For each cup, whether the collection area touches it: `getCollectionArea().intersects(cup)`. */
  function Touching(lib: Lib, area: Region, cups: seq<Cup>): (r: seq<bool>)
    reads cups
    ensures |r| == |cups|
  {
    if cups == [] then []
    else Touching(lib, area, cups[..|cups| - 1]) + [Intersects(lib, area, cups[|cups| - 1].pose.region)]
  }

  /** The k-th answer is about the k-th cup. */
  lemma {:induction false} TouchingAt(lib: Lib, area: Region, cups: seq<Cup>, k: nat)
    requires k < |cups|
    ensures Touching(lib, area, cups)[k] == Intersects(lib, area, cups[k].pose.region)
    decreases |cups|
  {
    var n := |cups| - 1;
    if k < n {
      TouchingAt(lib, area, cups[..n], k);
    }
  }

  /** The arm loses no cup and makes none: what leaves the list is exactly what it picks up. */
  lemma ArmConserves(cups: seq<Cup>, touching: seq<bool>, progress: real)
    requires |touching| == |cups|
    ensures var picked := Pick(cups, ArmSweep(touching, progress).picked);
            multiset(RemoveEach(cups, picked)) + multiset(picked) == multiset(cups)
  {
    var a := ArmSweep(touching, progress);
    ArmSweepPicks(touching, progress);
    PickSubMultiset(cups, a.picked, |cups|);
    assert cups[..|cups|] == cups;
    RemoveEachMultiset(cups, Pick(cups, a.picked));
  }

  /** Crushing takes a cup away and never brings one. */
  lemma NoneCreated(before: seq<Cup>, after: seq<Cup>)
    requires AtMostOneGone(before, after)
    ensures multiset(after) <= multiset(before)
  {
    if after != before {
      var i :| 0 <= i < |before| && after == RemoveFirst(before, before[i]);
      RemoveFirstMultiset(before, before[i]);
    }
  }

  /** One more cup in the arm's pass. */
  lemma SweepStep(touching: seq<bool>, i: nat, progress: real)
    requires i < |touching|
    ensures var a := ArmSweep(touching[..i], progress);
            ArmSweep(touching[..i + 1], progress)
              == if !touching[i] then a
                 else if a.progress >= 100.0 then ArmResult(0.0, a.picked + [i])
                 else ArmResult(a.progress + 1.0, a.picked)
  {
    assert touching[..i + 1][..i] == touching[..i];
  }

  /** One more position picked. */
  lemma PickStep(cups: seq<Cup>, idx: seq<nat>, i: nat)
    requires i < |cups|
    ensures Pick(cups, idx + [i]) == Pick(cups, idx) + [cups[i]]
  {
    assert (idx + [i])[..|idx|] == idx;
  }

  /** One more cup removed. */
  lemma RemoveEachStep(cups: seq<Cup>, xs: seq<Cup>, x: Cup)
    ensures RemoveEach(cups, xs + [x]) == RemoveFirst(RemoveEach(cups, xs), x)
  {
    assert (xs + [x])[..|xs|] == xs;
  }

  lemma AppendAssoc<T>(a: seq<T>, b: seq<T>, c: seq<T>)
    ensures a + (b + c) == (a + b) + c
  {
  }

  /** Whatever is in a sub-multiset of a list is in the list. */
  lemma SubMultisetMembers<T>(a: seq<T>, b: seq<T>)
    requires multiset(a) <= multiset(b)
    ensures forall k :: 0 <= k < |a| ==> a[k] in b
  {
    forall k | 0 <= k < |a|
      ensures a[k] in b
    {
      assert a[k] in multiset(a);
    }
  }
}
