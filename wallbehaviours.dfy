/**
 * The behaviours of simulation.entities.behaviour that react to range
 * readings: Bounce, which drives back and forth between two obstacles;
 * FollowWall, which holds a distance to a wall on one side; and
 * AvoidObstacle, which hands the steering to a wall follower on whichever
 * side comes near something.  As for the controllers, each class can be
 * viewed as a value (its State), every update is proved to move that value
 * as a pure tick function, and the promises are lemmas about the ticks.
 * Sensor readings are parameters of the update that reads them.
 */
module WallBehaviours {
  import opened Numerics
  import opened Wrappers
  import opened RobotOutputs
  import opened Controllers

  // ---------------------------------------------------------------- Bounce

  const BOUNCE_REACT_DIST: real := 200.0
  const BOUNCE_MOTOR_EFFORT: real := 50.0
  const BOUNCE_STEERING_EFFORT: real := 0.0

  datatype BounceState = BounceState(direction: real, finished: bool, reactDist: real,
                                     motorEffort: real, steeringEffort: real, out: Setting)

  /** A new Bounce: heading forward, unfinished. */
  function NewBounce(reactDist: real, motorEffort: real, steeringEffort: real): BounceState
  {
    BounceState(1.0, false, reactDist, motorEffort, steeringEffort, CLEAR)
  }

  /** The direction after one pair of readings: an obstacle behind sends it forward, else one in front sends it back. */
  function BounceDirection(direction: real, front: real, back: real, reactDist: real): real
  {
    if back < reactDist then 1.0 else if front < reactDist then -1.0 else direction
  }

  /** update: the direction, then motor and steering efforts signed by it. */
  function BounceTick(s: BounceState, front: real, back: real): BounceState
  {
    var d := BounceDirection(s.direction, front, back, s.reactDist);
    s.(direction := d,
       out := s.out.(motor := Saturate(s.motorEffort * d, MAX_MOTOR), steering := Saturate(s.steeringEffort * d, MAX_TURN)))
  }

  function BounceRun(s: BounceState, readings: seq<(real, real)>): BounceState
  {
    if readings == [] then s
    else BounceTick(BounceRun(s, readings[..|readings| - 1]), readings[|readings| - 1].0, readings[|readings| - 1].1)
  }

  /**
   * Over any run a bounce keeps its settings, never finishes and keeps its
   * direction at +1 or -1; a last reading with the back sensor near leaves
   * it forward, one with only the front sensor near leaves it backward.
   */
  lemma {:induction false} BounceRunRules(s: BounceState, readings: seq<(real, real)>)
    requires s.direction == 1.0 || s.direction == -1.0
    ensures var r := BounceRun(s, readings);
      && r.finished == s.finished && r.reactDist == s.reactDist
      && r.motorEffort == s.motorEffort && r.steeringEffort == s.steeringEffort && r.out.arm == s.out.arm
      && (r.direction == 1.0 || r.direction == -1.0)
      && (readings != [] ==>
            (r.out.motor == Saturate(s.motorEffort * r.direction, MAX_MOTOR)
             && r.out.steering == Saturate(s.steeringEffort * r.direction, MAX_TURN)))
      && (readings != [] && readings[|readings| - 1].1 < s.reactDist ==> r.direction == 1.0)
      && (readings != [] && readings[|readings| - 1].0 < s.reactDist <= readings[|readings| - 1].1 ==> r.direction == -1.0)
    decreases |readings|
  {
    if readings != [] {
      BounceRunRules(s, readings[..|readings| - 1]);
    }
  }

  /** With neither sensor near, the direction is kept. */
  lemma BounceKeepsDirection(s: BounceState, front: real, back: real)
    requires front >= s.reactDist && back >= s.reactDist
    ensures BounceTick(s, front, back).direction == s.direction
  {
  }

  class Bounce {
    var direction: real
    var isFinished: bool
    const output: RobotOutput
    const motorEffort: real
    const reactDist: real
    const steeringEffort: real

    ghost function State(): BounceState
      reads this, output
    {
      BounceState(direction, isFinished, reactDist, motorEffort, steeringEffort, SettingOf(output))
    }

    /** Bounce(front, back): react at 200 with effort 50 and no steering. */
    constructor Default()
      ensures fresh(output)
      ensures State() == NewBounce(BOUNCE_REACT_DIST, BOUNCE_MOTOR_EFFORT, BOUNCE_STEERING_EFFORT)
    {
      direction, isFinished := 1.0, false;
      output := new RobotOutput();
      reactDist, motorEffort, steeringEffort := BOUNCE_REACT_DIST, BOUNCE_MOTOR_EFFORT, BOUNCE_STEERING_EFFORT;
    }

    /** Bounce(front, back, dist): effort 50 and no steering. */
    constructor Reacting(dist: real)
      ensures fresh(output)
      ensures State() == NewBounce(dist, BOUNCE_MOTOR_EFFORT, BOUNCE_STEERING_EFFORT)
    {
      direction, isFinished := 1.0, false;
      output := new RobotOutput();
      reactDist, motorEffort, steeringEffort := dist, BOUNCE_MOTOR_EFFORT, BOUNCE_STEERING_EFFORT;
    }

    /** Bounce(front, back, dist, motorEffort, steeringEffort). */
    constructor (dist: real, motorEffort: real, steeringEffort: real)
      ensures fresh(output)
      ensures State() == NewBounce(dist, motorEffort, steeringEffort)
    {
      direction, isFinished := 1.0, false;
      output := new RobotOutput();
      reactDist, this.motorEffort, this.steeringEffort := dist, motorEffort, steeringEffort;
    }

    /** update, with the front and back distance readings. */
    method Update(front: real, back: real) returns (r: RobotOutput)
      modifies this, output
      ensures r == output
      ensures State() == BounceTick(old(State()), front, back)
    {
      if front < reactDist {
        direction := -1.0;
      }
      if back < reactDist {
        direction := 1.0;
      }
      output.SetMotor(motorEffort * direction);
      output.SetSteering(steeringEffort * direction);
      r := output;
    }

    method Reset()
      modifies this
      ensures State() == old(State()).(finished := false)
    {
      isFinished := false;
    }
  }

  // ---------------------------------------------------------------- FollowWall

  const FOLLOW_DEFAULT_PROXIMITY: real := 50.0
  const FOLLOW_DEFAULT_VELOCITY: real := 100.0
  const HYSTERESIS_LOW_BOUND: real := 0.95
  const HYSTERESIS_UPPER_BOUND: real := 1.05
  /** The turn FollowWall asks for on either side of the band. */
  const WALL_TURN: real := PI / 11.0
  const RESET_UNSUPPORTED: string := "Not supported yet."

  datatype FollowState = FollowState(direction: real, finished: bool, proximity: real,
                                     drive: DriveState, turn: TurnState, out: Setting)

  /** A new follower: direction -1 anticlockwise and +1 clockwise, a Drive at velocity, a RelativeTurn of nothing. */
  function NewFollow(velocity: real, proximity: real, antiClockwise: bool): FollowState
  {
    FollowState(if antiClockwise then -1.0 else 1.0, false, proximity,
                NewDrive(velocity, false, false, 0.0, 0.0),
                NewTurn(0.0, TURN_DEFAULT_PRECISION, TURN_DEFAULT_VELOCITY, false, 0.0), CLEAR)
  }

  /** The first turn update asks for: away from the wall below the band, towards it above. */
  function HysteresisTurn(reading: real, proximity: real, direction: real): real
  {
    if reading < HYSTERESIS_LOW_BOUND * proximity then direction * PI / 11.0
    else if reading > HYSTERESIS_UPPER_BOUND * proximity then -direction * PI / 11.0
    else 0.0
  }

  /** The turn after the set-angle calls of update: the hysteresis angle, then 0 again once the reading passes the range. */
  function FollowAim(s: FollowState, reading: real, maxRange: real, heading: real): TurnState
  {
    var t1 := TurnBy(s.turn, HysteresisTurn(reading, s.proximity, s.direction), heading);
    if reading > maxRange then TurnBy(t1, 0.0, heading) else t1
  }

  /** update: the turn asked for (0 once the reading passes the sensor's range), then drive's motor and steer's steering. */
  function FollowTick(s: FollowState, reading: real, maxRange: real, speed: real, c: Compass): FollowState
  {
    var d := DriveTick(s.drive, speed);
    var t := TurnTick(FollowAim(s, reading, maxRange, c.heading), c);
    s.(drive := d, turn := t,
       out := s.out.(motor := Saturate(d.out.motor, MAX_MOTOR), steering := Saturate(t.out.steering, MAX_TURN)))
  }

  /** The angle one update turns by, as a single rule. */
  function WallAngle(reading: real, proximity: real, maxRange: real, direction: real): (a: real)
    ensures reading > maxRange ==> a == 0.0
    ensures reading <= maxRange && HYSTERESIS_LOW_BOUND * proximity <= reading <= HYSTERESIS_UPPER_BOUND * proximity ==> a == 0.0
  {
    if reading > maxRange then 0.0 else HysteresisTurn(reading, proximity, direction)
  }

  /**
   * One update: the turn is set to the single angle of WallAngle at the
   * compass heading and stepped; below the band the follower turns by
   * direction·pi/11 and above it by the opposite; the output carries
   * drive's motor and steer's steering, and the follower never finishes.
   */
  lemma FollowTickRules(s: FollowState, reading: real, maxRange: real, speed: real, c: Compass)
    requires 0.0 < s.proximity && reading <= maxRange
    ensures var r := FollowTick(s, reading, maxRange, speed, c);
      && r.turn == TurnTick(TurnBy(s.turn, WallAngle(reading, s.proximity, maxRange, s.direction), c.heading), c)
      && r.drive == DriveTick(s.drive, speed)
      && r.out.motor == r.drive.out.motor && r.out.steering == r.turn.out.steering && r.out.arm == s.out.arm
      && r.finished == s.finished && r.direction == s.direction && r.proximity == s.proximity
      && (reading < HYSTERESIS_LOW_BOUND * s.proximity ==> WallAngle(reading, s.proximity, maxRange, s.direction) == s.direction * WALL_TURN)
      && (reading > HYSTERESIS_UPPER_BOUND * s.proximity ==> WallAngle(reading, s.proximity, maxRange, s.direction) == -s.direction * WALL_TURN)
  {
    FollowOutputsSaturated(s, reading, maxRange, speed, c);
  }

  /** Past the sensor's range the second call cancels the first: the turn asks for nothing. */
  lemma FollowBeyondRange(s: FollowState, reading: real, maxRange: real, speed: real, c: Compass)
    requires reading > maxRange
    ensures FollowTick(s, reading, maxRange, speed, c).turn == TurnTick(TurnBy(s.turn, 0.0, c.heading), c)
    ensures FollowTick(s, reading, maxRange, speed, c).finished == s.finished
  {
  }

  /** Drive's motor and steer's steering are already within the limits, so setting them again keeps them. */
  lemma FollowOutputsSaturated(s: FollowState, reading: real, maxRange: real, speed: real, c: Compass)
    ensures var r := FollowTick(s, reading, maxRange, speed, c);
      r.out.motor == r.drive.out.motor && r.out.steering == r.turn.out.steering
  {
    TurnTickRules(FollowAim(s, reading, maxRange, c.heading), c);
    DriveTickOutput(s.drive, speed);
  }

  class FollowWall {
    const direction: real
    const output: RobotOutput
    var finished: bool
    const drive: Drive
    const proximity: real
    const steer: RelativeTurn

    /** The turn's output and controller; only the turn's reset replaces them, and no behaviour calls it. */
    ghost const turnOutput: RobotOutput
    ghost const turnPID: PID

    /** The follower's output, drive's parts and steer's parts are distinct objects. */
    ghost predicate Separate()
    {
      output != drive.output && output != turnOutput && drive.output != turnOutput && drive.velocityPID != turnPID
    }

    ghost predicate Valid()
      reads steer
    {
      steer.output == turnOutput && steer.turnPID == turnPID && Separate()
    }

    ghost function State(): FollowState
      reads this, output, drive, drive.output, drive.velocityPID, steer, steer.output, steer.turnPID
    {
      FollowState(direction, finished, proximity, drive.State(), steer.State(), SettingOf(output))
    }

    /** FollowWall(compass, velocity, distance, antiClockwise): proximity 50, velocity 100. */
    constructor Default(antiClockwise: bool)
      ensures Valid() && fresh(output) && fresh(drive) && fresh(drive.output) && fresh(drive.velocityPID)
      ensures fresh(steer) && fresh(turnOutput) && fresh(turnPID)
      ensures State() == NewFollow(FOLLOW_DEFAULT_VELOCITY, FOLLOW_DEFAULT_PROXIMITY, antiClockwise)
    {
      direction := if antiClockwise then -1.0 else 1.0;
      proximity := FOLLOW_DEFAULT_PROXIMITY;
      finished := false;
      output := new RobotOutput();
      drive := new Drive(FOLLOW_DEFAULT_VELOCITY);
      var turn := new RelativeTurn.Default();
      steer, turnOutput, turnPID := turn, turn.output, turn.turnPID;
    }

    /** FollowWall(compass, velocity, distance, proximity, antiClockwise): velocity 100. */
    constructor Near(proximity: real, antiClockwise: bool)
      ensures Valid() && fresh(output) && fresh(drive) && fresh(drive.output) && fresh(drive.velocityPID)
      ensures fresh(steer) && fresh(turnOutput) && fresh(turnPID)
      ensures State() == NewFollow(FOLLOW_DEFAULT_VELOCITY, proximity, antiClockwise)
    {
      direction := if antiClockwise then -1.0 else 1.0;
      this.proximity := proximity;
      finished := false;
      output := new RobotOutput();
      drive := new Drive(FOLLOW_DEFAULT_VELOCITY);
      var turn := new RelativeTurn.Default();
      steer, turnOutput, turnPID := turn, turn.output, turn.turnPID;
    }

    /** FollowWall(compass, velocity, distance, velocity, proximity, antiClockwise). */
    constructor (velocity: real, proximity: real, antiClockwise: bool)
      ensures Valid() && fresh(output) && fresh(drive) && fresh(drive.output) && fresh(drive.velocityPID)
      ensures fresh(steer) && fresh(turnOutput) && fresh(turnPID)
      ensures State() == NewFollow(velocity, proximity, antiClockwise)
    {
      direction := if antiClockwise then -1.0 else 1.0;
      this.proximity := proximity;
      finished := false;
      output := new RobotOutput();
      drive := new Drive(velocity);
      var turn := new RelativeTurn.Default();
      steer, turnOutput, turnPID := turn, turn.output, turn.turnPID;
    }

    /** update, with the distance reading, the sensor's range, the speed reading and the compass. */
    method Update(reading: real, maxRange: real, speed: real, c: Compass) returns (r: RobotOutput)
      requires Valid()
      modifies this, output, drive, drive.output, drive.velocityPID, steer, turnOutput, turnPID
      ensures Valid() && r == output
      ensures State() == FollowTick(old(State()), reading, maxRange, speed, c)
    {
      Aim(reading, maxRange, c.heading);
      DriveMotor(speed);
      SteerOutput(c);
      r := output;
    }

    /** drive's update, its motor copied to the output. */
    method DriveMotor(speed: real)
      requires Valid()
      modifies drive, drive.output, drive.velocityPID, output
      ensures drive.State() == DriveTick(old(drive.State()), speed)
      ensures SettingOf(output) == old(SettingOf(output)).(motor := Saturate(drive.output.motor, MAX_MOTOR))
    {
      var d := drive.Update(speed);
      output.SetMotor(d.motor);
    }

    /** steer's update, its steering copied to the output. */
    method SteerOutput(c: Compass)
      requires Valid()
      modifies steer, steer.output, steer.turnPID, output
      ensures steer.output == old(steer.output) && steer.turnPID == old(steer.turnPID)
      ensures steer.State() == TurnTick(old(steer.State()), c)
      ensures SettingOf(output) == old(SettingOf(output)).(steering := Saturate(steer.output.steering, MAX_TURN))
    {
      var t := steer.Update(c);
      output.SetSteering(t.steering);
    }

    /** The set-angle calls of update, at the compass heading. */
    method Aim(reading: real, maxRange: real, heading: real)
      requires Valid()
      modifies steer, steer.turnPID
      ensures steer.output == old(steer.output) && steer.turnPID == old(steer.turnPID)
      ensures steer.State() == FollowAim(old(State()), reading, maxRange, heading)
    {
      var angle: real;
      if reading < HYSTERESIS_LOW_BOUND * proximity {
        angle := direction * PI / 11.0;
      } else if reading > HYSTERESIS_UPPER_BOUND * proximity {
        angle := -direction * PI / 11.0;
      } else {
        angle := 0.0;
      }
      steer.SetTurnAngle(angle, heading);
      if reading > maxRange {
        steer.SetTurnAngle(0.0, heading);
      }
    }

    /** reset throws UnsupportedOperationException; nothing changes. */
    method Reset() returns (r: Result<()>)
      ensures r == Err(RESET_UNSUPPORTED)
    {
      r := Err(RESET_UNSUPPORTED);
    }
  }

  // ---------------------------------------------------------------- AvoidObstacle

  const AVOID_DEFAULT_PROXIMITY: real := 50.0
  const AVOID_DEFAULT_VELOCITY: real := 100.0
  const WALL_PROXIMITY: real := 250.0

  /**
   * An AvoidObstacle as a value.  The follower fields keep the source's own
   * names (followWallCLK and followWallAntiCLK): `clockwise` holds the follower
   * built with antiClockwise = true, whose direction is -1, and
   * `antiClockwise` the one built with false, whose direction is +1 (see
   * AvoidSwapsFollowerSettings).
   */
  datatype AvoidState = AvoidState(finished: bool, drive: DriveState, clockwise: FollowState,
                                   antiClockwise: FollowState, out: Setting)

  /**
   * A new AvoidObstacle as its constructor wires it: the followers are built
   * with (proximity, velocity) in the slots of (velocity, proximity).
   */
  function NewAvoid(proximity: real, velocity: real): AvoidState
  {
    AvoidState(false, NewDrive(velocity, false, false, 0.0, 0.0),
               NewFollow(proximity, velocity, true), NewFollow(proximity, velocity, false), CLEAR)
  }

  /** The followers follow at the avoider's velocity as their proximity and drive at its proximity. */
  lemma AvoidSwapsFollowerSettings(proximity: real, velocity: real)
    ensures NewAvoid(proximity, velocity).drive.desired == velocity
    ensures NewAvoid(proximity, velocity).clockwise.proximity == velocity
    ensures NewAvoid(proximity, velocity).clockwise.drive.desired == proximity
    ensures NewAvoid(proximity, velocity).antiClockwise.proximity == velocity
    ensures NewAvoid(proximity, velocity).antiClockwise.drive.desired == proximity
    ensures NewAvoid(proximity, velocity).clockwise.direction == -1.0
    ensures NewAvoid(proximity, velocity).antiClockwise.direction == 1.0
  {
  }

  /**
   * update: motor and steering cleared; the left follower (built with
   * antiClockwise true) is stepped and steers when the left reading is near,
   * then the right one likewise; the motor is drive's.
   */
  function AvoidTick(s: AvoidState, left: real, leftMax: real, right: real, rightMax: real, speed: real, c: Compass): AvoidState
  {
    var t := AvoidSteer(s, left, leftMax, right, rightMax, speed, c);
    var d := DriveTick(t.drive, speed);
    t.(drive := d, out := t.out.(motor := Saturate(d.out.motor, MAX_MOTOR)))
  }

  /** The first part of an update: everything but the drive's step and the motor it sets. */
  function AvoidSteer(s: AvoidState, left: real, leftMax: real, right: real, rightMax: real, speed: real, c: Compass): AvoidState
  {
    var cw := if left < WALL_PROXIMITY then FollowTick(s.clockwise, left, leftMax, speed, c) else s.clockwise;
    var st1 := if left < WALL_PROXIMITY then Saturate(cw.out.steering, MAX_TURN) else 0.0;
    var acw := if right < WALL_PROXIMITY then FollowTick(s.antiClockwise, right, rightMax, speed, c) else s.antiClockwise;
    var st2 := if right < WALL_PROXIMITY then Saturate(acw.out.steering, MAX_TURN) else st1;
    s.(clockwise := cw, antiClockwise := acw, out := s.out.(motor := 0.0, steering := st2))
  }

  /**
   * The steering is 0 unless a side reading is under 250; the right
   * follower's steering wins when both are; the motor is drive's on every
   * tick; a follower is stepped only on ticks when its side is near; the
   * avoider never finishes.
   */
  lemma AvoidTickRules(s: AvoidState, left: real, leftMax: real, right: real, rightMax: real, speed: real, c: Compass)
    ensures var r := AvoidTick(s, left, leftMax, right, rightMax, speed, c);
      && r.finished == s.finished && r.out.arm == s.out.arm
      && r.drive == DriveTick(s.drive, speed) && r.out.motor == r.drive.out.motor
      && (left >= WALL_PROXIMITY && right >= WALL_PROXIMITY ==> r.out.steering == 0.0)
      && (right < WALL_PROXIMITY ==> r.out.steering == r.antiClockwise.out.steering)
      && (left < WALL_PROXIMITY <= right ==> r.out.steering == r.clockwise.out.steering)
      && (left >= WALL_PROXIMITY ==> r.clockwise == s.clockwise)
      && (right >= WALL_PROXIMITY ==> r.antiClockwise == s.antiClockwise)
  {
    DriveTickOutput(s.drive, speed);
    if left < WALL_PROXIMITY {
      FollowOutputsSaturated(s.clockwise, left, leftMax, speed, c);
      var cw := FollowTick(s.clockwise, left, leftMax, speed, c);
      SaturateIdempotent(cw.turn.out.steering, MAX_TURN);
      FollowSteeringSaturated(s.clockwise, left, leftMax, speed, c);
    }
    if right < WALL_PROXIMITY {
      FollowSteeringSaturated(s.antiClockwise, right, rightMax, speed, c);
    }
  }

  /** A follower none of whose objects changed keeps its invariant and its state. */
  twostate lemma FollowerFramed(f: FollowWall)
    requires old(f.Valid())
    requires unchanged(f, f.output, f.drive, f.drive.output, f.drive.velocityPID, f.steer, f.turnOutput, f.turnPID)
    ensures f.Valid() && f.State() == old(f.State())
  {
  }

  /** A drive none of whose objects changed keeps its state. */
  twostate lemma DriveFramed(d: Drive)
    requires unchanged(d, d.output, d.velocityPID)
    ensures d.State() == old(d.State())
  {
  }

  /** A follower's steering is within the steering limit. */
  lemma FollowSteeringSaturated(s: FollowState, reading: real, maxRange: real, speed: real, c: Compass)
    ensures Saturate(FollowTick(s, reading, maxRange, speed, c).out.steering, MAX_TURN)
            == FollowTick(s, reading, maxRange, speed, c).out.steering
  {
    var r := FollowTick(s, reading, maxRange, speed, c);
    SaturateIdempotent(r.turn.out.steering, MAX_TURN);
  }

  class AvoidObstacle {
    var isFinished: bool
    const output: RobotOutput
    const drive: Drive
    const followWallAntiCLK: FollowWall
    const followWallCLK: FollowWall

    /** The avoider's output, its drive and its two followers share no object. */
    ghost predicate Separate()
    {
      var l, r := followWallCLK, followWallAntiCLK;
      l.Separate() && r.Separate() && l != r && l.steer != r.steer
      && drive != l.drive && drive != r.drive && l.drive != r.drive
      && drive.velocityPID != l.drive.velocityPID && drive.velocityPID != l.turnPID
      && drive.velocityPID != r.drive.velocityPID && drive.velocityPID != r.turnPID
      && l.drive.velocityPID != r.drive.velocityPID && l.drive.velocityPID != r.turnPID
      && l.turnPID != r.drive.velocityPID && l.turnPID != r.turnPID
      && output != drive.output && output != l.output && output != l.drive.output && output != l.turnOutput
      && output != r.output && output != r.drive.output && output != r.turnOutput
      && drive.output != l.output && drive.output != l.drive.output && drive.output != l.turnOutput
      && drive.output != r.output && drive.output != r.drive.output && drive.output != r.turnOutput
      && l.output != r.output && l.output != r.drive.output && l.output != r.turnOutput
      && l.drive.output != r.output && l.drive.output != r.drive.output && l.drive.output != r.turnOutput
      && l.turnOutput != r.output && l.turnOutput != r.drive.output && l.turnOutput != r.turnOutput
    }

    ghost predicate Valid()
      reads followWallCLK.steer, followWallAntiCLK.steer
    {
      followWallCLK.Valid() && followWallAntiCLK.Valid() && Separate()
    }

    ghost function State(): AvoidState
      reads this, output, drive, drive.output, drive.velocityPID
      reads followWallCLK, followWallCLK.output, followWallCLK.drive, followWallCLK.drive.output, followWallCLK.drive.velocityPID
      reads followWallCLK.steer, followWallCLK.steer.output, followWallCLK.steer.turnPID
      reads followWallAntiCLK, followWallAntiCLK.output, followWallAntiCLK.drive, followWallAntiCLK.drive.output, followWallAntiCLK.drive.velocityPID
      reads followWallAntiCLK.steer, followWallAntiCLK.steer.output, followWallAntiCLK.steer.turnPID
    {
      AvoidState(isFinished, drive.State(), followWallCLK.State(), followWallAntiCLK.State(), SettingOf(output))
    }

    /** AvoidObstacle(velocity, compass, left, right): proximity 50, velocity 100. */
    constructor Default()
      ensures Valid()
      ensures State() == NewAvoid(AVOID_DEFAULT_PROXIMITY, AVOID_DEFAULT_VELOCITY)
    {
      isFinished := false;
      output := new RobotOutput();
      drive := new Drive(AVOID_DEFAULT_VELOCITY);
      followWallCLK := new FollowWall(AVOID_DEFAULT_PROXIMITY, AVOID_DEFAULT_VELOCITY, true);
      followWallAntiCLK := new FollowWall(AVOID_DEFAULT_PROXIMITY, AVOID_DEFAULT_VELOCITY, false);
    }

    /** AvoidObstacle(velocity, compass, left, right, proximity): velocity 100. */
    constructor Near(proximity: real)
      ensures Valid()
      ensures State() == NewAvoid(proximity, AVOID_DEFAULT_VELOCITY)
    {
      isFinished := false;
      output := new RobotOutput();
      drive := new Drive(AVOID_DEFAULT_VELOCITY);
      followWallCLK := new FollowWall(proximity, AVOID_DEFAULT_VELOCITY, true);
      followWallAntiCLK := new FollowWall(proximity, AVOID_DEFAULT_VELOCITY, false);
    }

    /** AvoidObstacle(velocity, compass, left, right, proximity, velocity). */
    constructor (proximity: real, velocity: real)
      ensures Valid()
      ensures State() == NewAvoid(proximity, velocity)
    {
      isFinished := false;
      output := new RobotOutput();
      drive := new Drive(velocity);
      followWallCLK := new FollowWall(proximity, velocity, true);
      followWallAntiCLK := new FollowWall(proximity, velocity, false);
    }

    /** setVelocity: the drive's new set point. */
    method SetVelocity(velocity: real)
      requires Valid()
      modifies drive, drive.velocityPID
      ensures Valid()
      ensures State() == old(State()).(drive := DriveAt(old(State()).drive, velocity))
    {
      drive.SetDesiredVelocity(velocity);
    }

    /** update, with both side readings and ranges, the speed reading and the compass. */
    method Update(left: real, leftMax: real, right: real, rightMax: real, speed: real, c: Compass) returns (r: RobotOutput)
      requires Valid()
      modifies this, output, drive, drive.output, drive.velocityPID
      modifies followWallCLK, followWallCLK.output, followWallCLK.drive, followWallCLK.drive.output, followWallCLK.drive.velocityPID,
        followWallCLK.steer, followWallCLK.turnOutput, followWallCLK.turnPID
      modifies followWallAntiCLK, followWallAntiCLK.output, followWallAntiCLK.drive, followWallAntiCLK.drive.output, followWallAntiCLK.drive.velocityPID,
        followWallAntiCLK.steer, followWallAntiCLK.turnOutput, followWallAntiCLK.turnPID
      ensures Valid() && r == output
      ensures State() == AvoidTick(old(State()), left, leftMax, right, rightMax, speed, c)
    {
      Steer(left, leftMax, right, rightMax, speed, c);
      var d := StepDrive(speed);
      ShowMotor(d.motor);
      r := output;
    }

    /** The output cleared, then each follower whose side is near stepped and its steering shown. */
    method Steer(left: real, leftMax: real, right: real, rightMax: real, speed: real, c: Compass)
      requires Valid()
      modifies output
      modifies followWallCLK, followWallCLK.output, followWallCLK.drive, followWallCLK.drive.output, followWallCLK.drive.velocityPID,
        followWallCLK.steer, followWallCLK.turnOutput, followWallCLK.turnPID
      modifies followWallAntiCLK, followWallAntiCLK.output, followWallAntiCLK.drive, followWallAntiCLK.drive.output, followWallAntiCLK.drive.velocityPID,
        followWallAntiCLK.steer, followWallAntiCLK.turnOutput, followWallAntiCLK.turnPID
      ensures Valid()
      ensures State() == AvoidSteer(old(State()), left, leftMax, right, rightMax, speed, c)
    {
      ShowMotor(0.0);
      ShowSteering(0.0);
      if left < WALL_PROXIMITY {
        var o := StepLeft(left, leftMax, speed, c);
        ShowSteering(o.steering);
      }
      if right < WALL_PROXIMITY {
        var o := StepRight(right, rightMax, speed, c);
        ShowSteering(o.steering);
      }
    }

    /** The output's motor set, saturated. */
    method ShowMotor(m: real)
      requires Valid()
      modifies output
      ensures Valid()
      ensures State() == old(State()).(out := old(State()).out.(motor := Saturate(m, MAX_MOTOR)))
    {
      output.SetMotor(m);
      FollowerFramed(followWallCLK);
      FollowerFramed(followWallAntiCLK);
    }

    /** The output's steering set, saturated. */
    method ShowSteering(st: real)
      requires Valid()
      modifies output
      ensures Valid()
      ensures State() == old(State()).(out := old(State()).out.(steering := Saturate(st, MAX_TURN)))
    {
      output.SetSteering(st);
      FollowerFramed(followWallCLK);
      FollowerFramed(followWallAntiCLK);
    }

    /** The left follower's update. */
    method StepLeft(reading: real, maxRange: real, speed: real, c: Compass) returns (o: RobotOutput)
      requires Valid()
      modifies followWallCLK, followWallCLK.output, followWallCLK.drive, followWallCLK.drive.output, followWallCLK.drive.velocityPID,
        followWallCLK.steer, followWallCLK.turnOutput, followWallCLK.turnPID
      ensures Valid() && o == followWallCLK.output
      ensures State() == old(State()).(clockwise := FollowTick(old(State()).clockwise, reading, maxRange, speed, c))
    {
      o := followWallCLK.Update(reading, maxRange, speed, c);
      FollowerFramed(followWallAntiCLK);
      DriveFramed(drive);
    }

    /** The right follower's update. */
    method StepRight(reading: real, maxRange: real, speed: real, c: Compass) returns (o: RobotOutput)
      requires Valid()
      modifies followWallAntiCLK, followWallAntiCLK.output, followWallAntiCLK.drive, followWallAntiCLK.drive.output, followWallAntiCLK.drive.velocityPID,
        followWallAntiCLK.steer, followWallAntiCLK.turnOutput, followWallAntiCLK.turnPID
      ensures Valid() && o == followWallAntiCLK.output
      ensures State() == old(State()).(antiClockwise := FollowTick(old(State()).antiClockwise, reading, maxRange, speed, c))
    {
      o := followWallAntiCLK.Update(reading, maxRange, speed, c);
      FollowerFramed(followWallCLK);
      DriveFramed(drive);
    }

    /** drive's update. */
    method StepDrive(speed: real) returns (o: RobotOutput)
      requires Valid()
      modifies drive, drive.output, drive.velocityPID
      ensures Valid() && o == drive.output
      ensures State() == old(State()).(drive := DriveTick(old(State()).drive, speed))
    {
      o := drive.Update(speed);
      FollowerFramed(followWallCLK);
      FollowerFramed(followWallAntiCLK);
    }

    method Reset()
      modifies this
      ensures State() == old(State()).(finished := false)
    {
      isFinished := false;
    }
  }
}
