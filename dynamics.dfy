/**
 * The arithmetic of one simulator frame, stated on values: the velocity
 * rule of findNewState, the wall response of robotIntoEnvironment and the
 * three collision loops of resolve (against the walls, against a cup it
 * pushes, and of a pushed cup against the others), and the collection
 * counter of the arm.  The Simulator class runs these loops on its objects
 * and is proved to compute exactly what is defined here.
 */
module Dynamics {
  import opened Numerics
  import opened Geometry
  import opened Entities
  import opened Collisions
  import opened RigidBodies
  import opened Cups
  import opened Terrains
  import opened Environments
  import opened RobotOutputs

  const FPS: real := 50.0
  const DT: real := 1.0 / FPS
  const MOTOR_NOISE_STDEV: real := 1.0
  const SPILL_SIZE: real := 150.0
  const DEADZONE: real := MAX_MOTOR / 20.0
  const ROTATE_INCREMENT: real := PI / 180.0
  /** How many wall responses resolve tries before it calls the robot stuck. */
  const WALL_TRIES: nat := 80
  /** How many pushes of one cup resolve makes before giving up: the 101st push is the last. */
  const PUSH_LIMIT: nat := 100
  /** The friction of the terrain a crushed cup leaves behind. */
  const CRUSHED_CUP_FRICTION: real := 0.9

  // ---------------------------------------------------------------------
  // findNewState: the velocity rule
  // ---------------------------------------------------------------------

  /** The motor deadzone: a weak motor pushing the way a slow robot already moves gives no thrust. */
  predicate InDeadzone(motor: real, v: real)
  {
    Abs(motor) < 10.0 && Abs(v) < DEADZONE && motor * v > 0.0
  }

  /** The sign friction acts against: forwards only for a positive velocity, so a robot at rest counts as reversing. */
  function Direction(v: real): (d: real)
    ensures d == 1.0 || d == -1.0
    ensures d == 1.0 <==> v > 0.0
  {
    if v > 0.0 then 1.0 else -1.0
  }

  /**
   * Whether the thrust is a finite number.  The quotient power * motor / mass
   * is taken before the deadzone test, so for a robot of mass 0 it is an
   * infinity or NaN unless the deadzone then overwrites it with 0.
   */
  predicate ThrustFinite(v: real, motor: real, mass: real)
  {
    mass != 0.0 || InDeadzone(motor, v)
  }

  /** The motor's thrust, power * motor / mass, unless the deadzone cancels it. */
  function Thrust(v: real, motor: real, power: real, mass: real): real
    requires ThrustFinite(v, motor, mass)
  {
    if InDeadzone(motor, v) then 0.0 else power * motor / mass
  }

  /**
   * The velocity one frame later: thrust, less wind resistance v / 2 and
   * ground friction direction * mass * coefficient, plus the noise drawn for
   * the frame, applied for DT.
   */
  function NewVelocity(v: real, motor: real, power: real, mass: real, coefficient: real, noise: real): real
    requires ThrustFinite(v, motor, mass)
  {
    v + (Thrust(v, motor, power, mass) - (v * 0.5 + Direction(v) * mass * coefficient) + noise * MOTOR_NOISE_STDEV) * DT
  }

  /**
   * A robot of mass 0 moves only inside the deadzone, and there it feels no
   * ground friction: the new velocity is wind resistance and noise alone.
   */
  lemma MasslessRobot(v: real, motor: real, power: real, coefficient: real, noise: real)
    ensures ThrustFinite(v, motor, 0.0) <==> InDeadzone(motor, v)
    ensures ThrustFinite(v, motor, 0.0) ==>
              NewVelocity(v, motor, power, 0.0, coefficient, noise) == v + (noise * MOTOR_NOISE_STDEV - v * 0.5) * DT
  {
  }

  /** Outside the deadzone the motor adds exactly power * motor / mass * DT to what the robot would reach coasting. */
  lemma MotorContribution(v: real, motor: real, power: real, mass: real, coefficient: real, noise: real)
    requires mass != 0.0 && !InDeadzone(motor, v)
    ensures NewVelocity(v, motor, power, mass, coefficient, noise)
            == NewVelocity(v, 0.0, power, mass, coefficient, noise) + power * motor / mass * DT
  {
    assert !InDeadzone(0.0, v);
  }

  /** Inside the deadzone the motor makes no difference at all. */
  lemma DeadzoneIgnoresMotor(v: real, motor: real, power: real, mass: real, coefficient: real, noise: real)
    requires mass != 0.0 && InDeadzone(motor, v)
    ensures NewVelocity(v, motor, power, mass, coefficient, noise) == NewVelocity(v, 0.0, power, mass, coefficient, noise)
  {
    assert !InDeadzone(0.0, v);
  }

  /**
   * With the motor off and no noise, a robot at rest on ground with positive
   * friction starts to move forwards: at rest friction is applied as if the
   * robot were reversing.
   */
  lemma RestingRobotCreeps(power: real, mass: real, coefficient: real)
    requires mass > 0.0 && coefficient > 0.0
    ensures NewVelocity(0.0, 0.0, power, mass, coefficient, 0.0) == mass * coefficient * DT
    ensures NewVelocity(0.0, 0.0, power, mass, coefficient, 0.0) > 0.0
  {
    assert !InDeadzone(0.0, 0.0);
    assert Direction(0.0) == -1.0;
  }

  /** Moving forwards with the motor off, no noise and non-negative friction, the robot slows down but does not turn round within a frame. */
  lemma CoastingSlowsDown(v: real, power: real, mass: real, coefficient: real)
    requires v > 0.0 && mass > 0.0 && coefficient >= 0.0 && mass * coefficient * DT < 0.99 * v
    ensures 0.0 < NewVelocity(v, 0.0, power, mass, coefficient, 0.0) < v
  {
    assert !InDeadzone(0.0, v);
    assert Direction(v) == 1.0;
    assert NewVelocity(v, 0.0, power, mass, coefficient, 0.0) == v - (v * 0.5 + mass * coefficient) * DT;
  }

  /**
   * The candidate body before collision handling: turned by steering * v /
   * 10000 with the old velocity, then moved along the robot's old heading by
   * the new velocity.
   */
  function Candidate(lib: Lib, body: Pose, v: real, steering: real, next: real): (c: Pose)
    ensures c.angle == body.angle + steering * v / 10000.0
    ensures c.com == Point(body.com.x - next * DT * lib.sin(body.angle), body.com.y + next * DT * lib.cos(body.angle))
  {
    body.Rotate(steering * v / 10000.0).Translate(-next * DT * lib.sin(body.angle), next * DT * lib.cos(body.angle))
  }

  /** The candidate is the turn followed by the move, as findNewState applies them to the copied body. */
  lemma CandidateSteps(lib: Lib, body: Pose, v: real, steering: real, next: real)
    ensures Candidate(lib, body, v, steering, next)
            == body.Rotate(steering * v / 10000.0).Translate(-next * DT * lib.sin(body.angle), next * DT * lib.cos(body.angle))
  {
  }

  /**
   * RigidBody.cupCollision(velocity, angle): the step a struck cup takes,
   * with the velocity's sign taken off (a zero velocity counts as negative).
   * Whatever the sign, the cup moves |velocity| * DT along (sin, cos) of the angle.
   */
  function CupCollision(lib: Lib, velocity: real, angle: real): (t: Point)
    ensures t == Point(Abs(velocity) * DT * lib.sin(angle), Abs(velocity) * DT * lib.cos(angle))
  {
    var direction := if velocity > 0.0 then 1.0 else -1.0;
    Point(direction * velocity * DT * lib.sin(angle), direction * velocity * DT * lib.cos(angle))
  }

  /**
   * RigidBody.shapeCollision(velocity, robotAngle): a forward velocity gives
   * the step findNewState takes along the robot's heading; any other velocity
   * is written with the heading turned by pi and the signs swapped.
   */
  function ShapeCollision(lib: Lib, velocity: real, robotAngle: real): (t: Point)
    ensures velocity > 0.0 ==> t == Point(-velocity * DT * lib.sin(robotAngle), velocity * DT * lib.cos(robotAngle))
    ensures velocity <= 0.0 ==> t == Point(velocity * DT * lib.sin(robotAngle + PI), -velocity * DT * lib.cos(robotAngle + PI))
  {
    var direction := if velocity > 0.0 then 1.0 else -1.0;
    if direction == 1.0 then Point(-velocity * DT * lib.sin(robotAngle), velocity * DT * lib.cos(robotAngle))
    else Point(velocity * DT * lib.sin(robotAngle + PI), -velocity * DT * lib.cos(robotAngle + PI))
  }

  /**
   * Where sine and cosine change sign under a half turn, both branches of
   * shapeCollision are the translation findNewState gives the candidate, at
   * every velocity.
   */
  lemma ShapeCollisionIsCandidateStep(lib: Lib, body: Pose, v: real, steering: real, velocity: real)
    requires lib.sin(body.angle + PI) == -lib.sin(body.angle) && lib.cos(body.angle + PI) == -lib.cos(body.angle)
    ensures var t := ShapeCollision(lib, velocity, body.angle);
            Candidate(lib, body, v, steering, velocity).com == Point(body.com.x + t.x, body.com.y + t.y)
  {
    var t := ShapeCollision(lib, velocity, body.angle);
    if velocity <= 0.0 {
      assert t.x == velocity * DT * -lib.sin(body.angle);
      assert t.y == -velocity * DT * -lib.cos(body.angle);
    }
  }

  // ---------------------------------------------------------------------
  // robotIntoEnvironment: the response to one wall contact
  // ---------------------------------------------------------------------

  /** The parts of the robot the wall response reads: its centre, heading and size. */
  datatype Mover = Mover(com: Point, angle: real, width: real, length: real)

  /** A heading within a quarter turn of straight up counts as driving forwards. */
  predicate Forwards(angle: real)
  {
    -PI / 2.0 <= angle <= PI / 2.0
  }

  /** The factor that turns a forwards move into the robot's actual one: 1 forwards, -1 backwards. */
  function Heading(angle: real): (d: real)
    ensures d == 1.0 <==> Forwards(angle)
    ensures d == -1.0 <==> !Forwards(angle)
  {
    if Forwards(angle) then 1.0 else -1.0
  }

  /** The incidence angle reduced: a remainder of a whole turn when above 2 pi, then a whole turn less when that is closer to 0. */
  function ReducedIncidence(a: real): real
  {
    var a1 := if a > TWO_PI then FMod(a, TWO_PI) else a;
    if Abs(a1 - TWO_PI) < Abs(a1) then a1 - TWO_PI else a1
  }

  /** A reduced incidence further than a quarter turn from 0 is moved half a turn, towards 0. */
  function Glancing(a2: real): real
  {
    if Abs(a2) > PI / 2.0 then
      if Abs(a2 - PI) < Abs(a2) then a2 - PI else a2 + PI
    else a2
  }

  /** The bearing the pivot corner is found along: the body's own, or the reverse when backing up. */
  function PivotAngle(heading: real, shapeAngle: real): (theta: real)
    ensures Forwards(heading) ==> theta == shapeAngle
    ensures !Forwards(heading) ==> theta == shapeAngle + PI
  {
    if Forwards(heading) then shapeAngle else shapeAngle + PI
  }

  /** The point rotateAboutPoint turns the candidate about: a front corner of the robot, the back one when reversing. */
  function Pivot(lib: Lib, m: Mover, shapeAngle: real, factor: real): Point
  {
    var theta := PivotAngle(m.angle, shapeAngle);
    Point(m.com.x + factor * lib.cos(theta) * m.width / 2.0 - lib.sin(theta) * m.length / 2.0,
          m.com.y + factor * lib.sin(theta) * m.width / 2.0 + lib.cos(theta) * m.length / 2.0)
  }

  /** What one wall response leaves: the candidate body, the robot's velocity, and the answer robotIntoEnvironment gives. */
  datatype WallStep = WallStep(shape: Pose, velocity: real, clear: bool)

  /**
   * robotIntoEnvironment(robot, newShape, angle): nothing changes and the
   * answer is false when the glancing angle is within one degree of 0 (head
   * or rear on); below the glancing threshold atan2(width, length) the body
   * turns one degree about a corner; otherwise it turns by 2 sin(a) degrees
   * about its centre and the robot keeps |sin(angle)| of its velocity.
   */
  function WallResponse(lib: Lib, m: Mover, shape: Pose, v: real, angle: real): (r: WallStep)
    ensures !r.clear <==> Abs(Glancing(ReducedIncidence(angle))) < ROTATE_INCREMENT
    ensures !r.clear ==> r.shape == shape && r.velocity == v
    ensures r.clear && Abs(Glancing(ReducedIncidence(angle))) < lib.atan2(m.width, m.length) ==>
              r.velocity == v && r.shape.com == shape.com
              && (r.shape.angle == shape.angle + ROTATE_INCREMENT || r.shape.angle == shape.angle - ROTATE_INCREMENT)
    ensures r.clear && Abs(Glancing(ReducedIncidence(angle))) >= lib.atan2(m.width, m.length) ==>
              r.velocity == v * Abs(lib.sin(angle)) && r.shape.com == shape.com
  {
    var a2 := ReducedIncidence(angle);
    var g := Glancing(a2);
    if Abs(g) < ROTATE_INCREMENT then WallStep(shape, v, false)
    else if Abs(g) < lib.atan2(m.width, m.length) then
      var factor := if g < 0.0 then -1.0 else 1.0;
      WallStep(shape.RotateAboutPoint(factor * ROTATE_INCREMENT, Pivot(lib, m, shape.angle, factor)), v, true)
    else
      WallStep(shape.Rotate(2.0 * lib.sin(a2) * ROTATE_INCREMENT), v * Abs(lib.sin(angle)), true)
  }

  /** WallResponse case by case, given the reduced and glancing angles and the pivot. */
  lemma WallResponseSteps(lib: Lib, m: Mover, shape: Pose, v: real, angle: real, a2: real, g: real, factor: real, pivot: Point)
    requires a2 == ReducedIncidence(angle) && g == Glancing(a2)
    requires factor == (if g < 0.0 then -1.0 else 1.0) && pivot == Pivot(lib, m, shape.angle, factor)
    ensures Abs(g) < ROTATE_INCREMENT ==> WallResponse(lib, m, shape, v, angle) == WallStep(shape, v, false)
    ensures ROTATE_INCREMENT <= Abs(g) < lib.atan2(m.width, m.length) ==>
              WallResponse(lib, m, shape, v, angle) == WallStep(shape.RotateAboutPoint(factor * ROTATE_INCREMENT, pivot), v, true)
    ensures ROTATE_INCREMENT <= Abs(g) && lib.atan2(m.width, m.length) <= Abs(g) ==>
              WallResponse(lib, m, shape, v, angle) == WallStep(shape.Rotate(2.0 * lib.sin(a2) * ROTATE_INCREMENT), v * Abs(lib.sin(angle)), true)
  {
  }

  /**
   * For an incidence of at least -pi the reduction lands in [-pi, pi], and
   * the glancing angle is within a quarter turn of 0 and differs from the
   * incidence by whole half turns.
   */
  lemma GlancingBounded(a: real)
    requires a >= -PI
    ensures -PI <= ReducedIncidence(a) <= PI
    ensures Abs(Glancing(ReducedIncidence(a))) <= PI / 2.0
    ensures HalfTurns(Glancing(ReducedIncidence(a)) - a)
  {
    var a1 := if a > TWO_PI then FMod(a, TWO_PI) else a;
    var j: int := 0;
    if a > TWO_PI {
      var q :| a == Shifted(a1, TWO_PI, q);
      j := -2 * q;
    }
    assert a1 == a + (j as real) * PI;
    assert -PI <= a1 <= TWO_PI;
    var a2 := ReducedIncidence(a);
    if Abs(a1 - TWO_PI) < Abs(a1) {
      assert a2 == a + ((j - 2) as real) * PI;
      j := j - 2;
    }
    assert a2 == a + (j as real) * PI;
    var g := Glancing(a2);
    if Abs(a2) > PI / 2.0 {
      if Abs(a2 - PI) < Abs(a2) {
        j := j - 1;
      } else {
        j := j + 1;
      }
    }
    assert g - a == (j as real) * PI;
    HalfTurnsOf(g - a, j);
  }

  /** d is a whole number of half turns. */
  predicate HalfTurns(d: real)
  {
    d / PI == (d / PI).Floor as real
  }

  lemma HalfTurnsOf(d: real, j: int)
    requires d == (j as real) * PI
    ensures HalfTurns(d)
  {
    assert d / PI == j as real;
  }

  // ---------------------------------------------------------------------
  // resolve: the wall loop
  // ---------------------------------------------------------------------

  /** How the wall loop ends: the candidate, the velocity it left, and whether the candidate is free of the walls. */
  datatype WallOutcome = WallOutcome(shape: Pose, velocity: real, cleared: bool)

  /**
   * The wall loop of resolve after `tries` responses: while the candidate is
   * obstructed, give up at 80 responses, otherwise respond to the reported
   * angle and test again.  The response's own answer is ignored.  A NaN
   * angle also ends the loop unresolved, where Java would go on with NaN
   * coordinates.
   */
  function WallSettle(lib: Lib, impassables: seq<Terrain>, outline: Region, m: Mover,
                      shape: Pose, v: real, tries: nat): (r: WallOutcome)
    requires tries <= WALL_TRIES
    decreases WALL_TRIES - tries
    ensures r.cleared ==> !BodyObstruction(lib, impassables, outline, r.shape).Occurred()
    ensures !BodyObstruction(lib, impassables, outline, shape).Occurred() ==> r == WallOutcome(shape, v, true)
  {
    var c := BodyObstruction(lib, impassables, outline, shape);
    if !c.Occurred() then WallOutcome(shape, v, true)
    else if tries >= WALL_TRIES || c.at.NaN? then WallOutcome(shape, v, false)
    else
      var w := WallResponse(lib, m, shape, v, c.at.v);
      WallSettle(lib, impassables, outline, m, w.shape, w.velocity, tries + 1)
  }

  /** One round of the wall loop: an obstructed candidate with tries left and a numeric angle takes one wall response. */
  lemma WallSettleStep(lib: Lib, impassables: seq<Terrain>, outline: Region, m: Mover, shape: Pose, v: real, tries: nat)
    requires tries < WALL_TRIES
    requires BodyObstruction(lib, impassables, outline, shape).Occurred() && !BodyObstruction(lib, impassables, outline, shape).at.NaN?
    ensures var w := WallResponse(lib, m, shape, v, BodyObstruction(lib, impassables, outline, shape).at.v);
            WallSettle(lib, impassables, outline, m, shape, v, tries) == WallSettle(lib, impassables, outline, m, w.shape, w.velocity, tries + 1)
  {
  }

  /**
   * A candidate that meets a wall head on is never freed: the response
   * leaves it where it is, so the loop runs out its 80 tries, and the
   * candidate and velocity come back unchanged.
   */
  lemma {:induction false} HeadOnIsStuck(lib: Lib, impassables: seq<Terrain>, outline: Region, m: Mover,
                                         shape: Pose, v: real, tries: nat)
    requires tries <= WALL_TRIES
    requires BodyObstruction(lib, impassables, outline, shape).Occurred()
    requires BodyObstruction(lib, impassables, outline, shape).at.Num?
    requires Abs(Glancing(ReducedIncidence(BodyObstruction(lib, impassables, outline, shape).at.v))) < ROTATE_INCREMENT
    ensures WallSettle(lib, impassables, outline, m, shape, v, tries) == WallOutcome(shape, v, false)
    decreases WALL_TRIES - tries
  {
    if tries < WALL_TRIES {
      HeadOnStep(lib, impassables, outline, m, shape, v, tries);
      HeadOnIsStuck(lib, impassables, outline, m, shape, v, tries + 1);
    }
  }

  /** One head-on round of the wall loop changes nothing but the count. */
  lemma HeadOnStep(lib: Lib, impassables: seq<Terrain>, outline: Region, m: Mover, shape: Pose, v: real, tries: nat)
    requires tries < WALL_TRIES
    requires BodyObstruction(lib, impassables, outline, shape).Occurred()
    requires BodyObstruction(lib, impassables, outline, shape).at.Num?
    requires Abs(Glancing(ReducedIncidence(BodyObstruction(lib, impassables, outline, shape).at.v))) < ROTATE_INCREMENT
    ensures WallSettle(lib, impassables, outline, m, shape, v, tries) == WallSettle(lib, impassables, outline, m, shape, v, tries + 1)
  {
  }

  // ---------------------------------------------------------------------
  // resolve: pushing a cup
  // ---------------------------------------------------------------------

  /** robotIntoCup's move: the cup is translated by (-v * DT * sin(angle), v * DT * cos(angle)). */
  function Push(lib: Lib, cup: Pose, v: real, angle: real): (p: Pose)
    ensures p.com == Point(cup.com.x - v * DT * lib.sin(angle), cup.com.y + v * DT * lib.cos(angle))
    ensures p.angle == cup.angle
  {
    cup.Translate(-v * DT * lib.sin(angle), v * DT * lib.cos(angle))
  }

  /** A push is the one translation robotIntoCup applies. */
  lemma PushSteps(lib: Lib, cup: Pose, v: real, angle: real, dx: real, dy: real)
    requires dx == -v * DT * lib.sin(angle) && dy == v * DT * lib.cos(angle)
    ensures Push(lib, cup, v, angle) == cup.Translate(dx, dy)
  {
  }

  /** How pushing a cup ends: clear of the body after some pushes, or jammed; the cup stays where the pushes left it either way. */
  datatype PushOutcome = Pushed(cup: Pose, pushes: nat) | Jammed(cup: Pose)

  /**
   * The push loop of resolve after `pushes` pushes: while the candidate body
   * collides with the cup, give up after the 101st push, otherwise push the
   * cup along the collision angle and test again.
   */
  function PushSettle(lib: Lib, body: Pose, critical: real, v: real, cup: Pose, pushes: nat): (r: PushOutcome)
    requires pushes <= PUSH_LIMIT + 1
    decreases PUSH_LIMIT + 1 - pushes
    ensures r.Pushed? ==> !Intersects(lib, body.region, r.cup.region) && pushes <= r.pushes <= PUSH_LIMIT + 1
    ensures !Intersects(lib, body.region, cup.region) <==> r == Pushed(cup, pushes)
  {
    var c := CollideWith(lib, body, cup, critical);
    if !c.Occurred() then Pushed(cup, pushes)
    else if pushes > PUSH_LIMIT then Jammed(cup)
    else PushSettle(lib, body, critical, v, Push(lib, cup, v, c.at.v), pushes + 1)
  }

  /** With a sound library a zero translation moves no point, so it meets exactly what the body met. */
  lemma StillIntersects(lib: Lib, p: Pose, other: Region)
    requires Sound(lib) && Translates(lib)
    ensures Intersects(lib, p.Translate(0.0, 0.0).region, other) <==> Intersects(lib, p.region, other)
  {
    var q := p.Translate(0.0, 0.0).region;
    forall x ensures In(lib, q, x) <==> In(lib, p.region, x) {
      assert Point(x.x - 0.0, x.y - 0.0) == x;
    }
    IntersectsIffCommonPoint(lib, q, other);
    IntersectsIffCommonPoint(lib, p.region, other);
  }

  /** A robot at rest that overlaps a cup never pushes it clear: the push loop jams. */
  lemma {:induction false} PushAtRestJams(lib: Lib, body: Pose, critical: real, cup: Pose, pushes: nat)
    requires Sound(lib) && Translates(lib) && pushes <= PUSH_LIMIT + 1
    requires Intersects(lib, body.region, cup.region)
    ensures PushSettle(lib, body, critical, 0.0, cup, pushes).Jammed?
    decreases PUSH_LIMIT + 1 - pushes
  {
    var c := CollideWith(lib, body, cup, critical);
    if pushes <= PUSH_LIMIT {
      var next := Push(lib, cup, 0.0, c.at.v);
      assert next == cup.Translate(0.0, 0.0);
      IntersectsSymmetric(lib, body.region, cup.region);
      StillIntersects(lib, cup, body.region);
      IntersectsSymmetric(lib, body.region, next.region);
      PushAtRestJams(lib, body, critical, next, pushes + 1);
    }
  }

  // ---------------------------------------------------------------------
  // resolve: a pushed cup shoving the other cups
  // ---------------------------------------------------------------------

  /**
   * cupIntoCup's move: the other cup goes direction * v * DT along the
   * collision angle, direction being +1 for a robot heading forwards.  A NaN
   * angle leaves it where it is, where Java would move it by NaN.
   */
  function Shove(lib: Lib, other: Pose, heading: real, v: real, angle: Dbl): (p: Pose)
    ensures angle.NaN? ==> p == other
    ensures angle.Num? ==>
              p.com == Point(other.com.x + Heading(heading) * v * DT * lib.sin(angle.v),
                             other.com.y + Heading(heading) * v * DT * lib.cos(angle.v))
  {
    var direction := Heading(heading);
    match angle
    case NaN => other
    case Num(a) => other.Translate(direction * v * DT * lib.sin(a), direction * v * DT * lib.cos(a))
  }

  /** For a numeric angle the shove is one translation, as cupIntoCup applies it. */
  lemma ShoveSteps(lib: Lib, other: Pose, heading: real, v: real, a: real, direction: real)
    requires direction == Heading(heading)
    ensures Shove(lib, other, heading, v, Num(a))
            == other.Translate(direction * v * DT * lib.sin(a), direction * v * DT * lib.cos(a))
  {
    var s := Shove(lib, other, heading, v, Num(a));
    var dx, dy := Heading(heading) * v * DT * lib.sin(a), Heading(heading) * v * DT * lib.cos(a);
    assert B: s.angle == other.angle;
    assert C: s.region == Translated(other.region, dx, dy);
    assert D: s.com == Point(other.com.x + dx, other.com.y + dy);
    assert A: s == other.Translate(dx, dy);
  }

  /** How shoving ends: the other cup clear of the pushed one, or the loop still running when the fuel is spent. */
  datatype ShoveOutcome = Shoved(other: Pose) | Hung

  /**
   * The cup-on-cup loop of resolve, which has no cap: while the other cup
   * meets the pushed one, shove it along the cups' bearing.  The loop may
   * never end, so it is given `fuel` rounds and reports Hung when they run out.
   */
  function ShoveSettle(lib: Lib, other: Pose, cup: Pose, heading: real, v: real, fuel: nat): (r: ShoveOutcome)
    decreases fuel
    ensures r.Shoved? ==> !Intersects(lib, r.other.region, cup.region)
    ensures !Intersects(lib, other.region, cup.region) <==> r == Shoved(other)
  {
    var c := CupCollideWith(lib, other, cup);
    if !c.Occurred() then Shoved(other)
    else if fuel == 0 then Hung
    else ShoveSettle(lib, Shove(lib, other, heading, v, c.at), cup, heading, v, fuel - 1)
  }

  /**
   * Two overlapping cups and a robot at rest: the uncapped loop never ends,
   * whatever fuel it is given.
   */
  lemma {:induction false} ShoveAtRestHangs(lib: Lib, other: Pose, cup: Pose, heading: real, fuel: nat)
    requires Sound(lib) && Translates(lib) && Intersects(lib, other.region, cup.region)
    ensures ShoveSettle(lib, other, cup, heading, 0.0, fuel) == Hung
    decreases fuel
  {
    if fuel > 0 {
      var c := CupCollideWith(lib, other, cup);
      var next := Shove(lib, other, heading, 0.0, c.at);
      if c.at.Num? {
        assert next == other.Translate(0.0, 0.0);
        StillIntersects(lib, other, cup.region);
      }
      ShoveAtRestHangs(lib, next, cup, heading, fuel - 1);
    }
  }

  // ---------------------------------------------------------------------
  // gameLoop: the collection arm
  // ---------------------------------------------------------------------

  /** Where the arm's pass over the cups leaves the counter, and the positions of the cups it picked up. */
  datatype ArmResult = ArmResult(progress: real, picked: seq<nat>)

  /**
   * The arm's pass over the cups, in list order: a cup the collection area
   * touches is picked up when the counter has reached 100, which resets it;
   * otherwise the touch adds one to the counter.  Cups out of reach change
   * nothing.
   */
  function ArmSweep(touching: seq<bool>, progress: real): (r: ArmResult)
    ensures |r.picked| <= |touching|
  {
    if touching == [] then ArmResult(progress, [])
    else
      var i := |touching| - 1;
      var r := ArmSweep(touching[..i], progress);
      if !touching[i] then r
      else if r.progress >= 100.0 then ArmResult(0.0, r.picked + [i])
      else ArmResult(r.progress + 1.0, r.picked)
  }

  /** The arm picks only cups it touches, each at most once, in list order. */
  lemma {:induction false} ArmSweepPicks(touching: seq<bool>, progress: real)
    ensures forall k :: 0 <= k < |ArmSweep(touching, progress).picked| ==>
              ArmSweep(touching, progress).picked[k] < |touching| && touching[ArmSweep(touching, progress).picked[k]]
    ensures forall k, l :: 0 <= k < l < |ArmSweep(touching, progress).picked| ==>
              ArmSweep(touching, progress).picked[k] < ArmSweep(touching, progress).picked[l]
  {
    if touching != [] {
      var i := |touching| - 1;
      var r := ArmSweep(touching[..i], progress);
      ArmSweepPicks(touching[..i], progress);
      forall k | 0 <= k < |r.picked|
        ensures r.picked[k] < i && touching[r.picked[k]]
      {
        assert touching[..i][r.picked[k]] == touching[r.picked[k]];
      }
      if touching[i] && r.progress >= 100.0 {
        var p := r.picked + [i];
        assert ArmSweep(touching, progress).picked == p;
        assert forall k :: 0 <= k < |p| ==> p[k] == if k < |r.picked| then r.picked[k] else i;
      }
    }
  }

  /** Out of reach of every cup, the arm keeps its counter and picks nothing. */
  lemma {:induction false} ArmSweepNothingInReach(touching: seq<bool>, progress: real)
    requires forall i :: 0 <= i < |touching| ==> !touching[i]
    ensures ArmSweep(touching, progress) == ArmResult(progress, [])
  {
    if touching != [] {
      ArmSweepNothingInReach(touching[..|touching| - 1], progress);
    }
  }

  /** A counter that is a whole number no bigger than 100 stays one. */
  lemma {:induction false} ArmSweepBounded(touching: seq<bool>, n: nat)
    requires n <= 100
    ensures 0.0 <= ArmSweep(touching, n as real).progress <= 100.0
    ensures ArmSweep(touching, n as real).progress == ArmSweep(touching, n as real).progress.Floor as real
  {
    if touching != [] {
      var i := |touching| - 1;
      ArmSweepBounded(touching[..i], n);
      var p := ArmSweep(touching[..i], n as real).progress;
      var k := p.Floor;
      if touching[i] && p < 100.0 {
        assert p + 1.0 == (k + 1) as real;
        assert ArmSweep(touching, n as real).progress == p + 1.0;
      }
    }
  }

  /** The counter after `frames` frames with one cup in reach throughout, starting from 0. */
  function HoldFrames(frames: nat): real
  {
    if frames == 0 then 0.0 else ArmSweep([true], HoldFrames(frames - 1)).progress
  }

  /**
   * A cup must stay in reach of an active arm for 101 frames in a row: for
   * the first 100 the counter climbs to 100, on the 101st the cup is picked
   * up.
   */
  lemma {:induction false} CollectedOnFrame101(frames: nat)
    requires frames <= 100
    ensures HoldFrames(frames) == frames as real
    ensures frames < 100 ==> ArmSweep([true], HoldFrames(frames)).picked == []
    ensures frames == 100 ==> ArmSweep([true], HoldFrames(frames)) == ArmResult(0.0, [0])
  {
    if frames > 0 {
      CollectedOnFrame101(frames - 1);
    }
    assert [true][..0] == [];
  }
}
