/**
 * The behaviours of simulation.entities.behaviour that head for something:
 * MoveToObject drives to what the camera sees, MoveToRobotRadar to what the
 * radar reports, FindMoveToCup and FindMoveToRobot hand over between a mover
 * and a search behaviour, and MoveDropReturn turns about, drives, drops and
 * comes back.  As for the controllers, each class can be viewed as a value
 * (its State), every update is proved to move that value as a pure tick
 * function, and the promises are lemmas about the ticks.  Sensor readings
 * are parameters of the update that reads them; a search behaviour is
 * represented by the output object its own update returned.
 */
module TargetBehaviours {
  import opened Numerics
  import opened RobotOutputs
  import opened Controllers
  import Cameras
  import Radar

  // ---------------------------------------------------------------- MoveToObject

  const MOVER_DEFAULT_STOP_DIST: real := 70.0
  const MOVER_DEFAULT_VELOCITY: real := 80.0

  /** The state both approaching behaviours keep: MoveToObject and MoveToRobotRadar have the same fields. */
  datatype ApproachState = ApproachState(finished: bool, stopDist: real, velocity: real, drive: DriveState,
                                   steer: TurnState, out: Setting)

  /** A new MoveToObject: a drive at the approach velocity and a default turn. */
  function NewMover(stopDist: real, velocity: real): ApproachState
  {
    ApproachState(false, stopDist, velocity, NewDrive(velocity, false, false, 0.0, 0.0),
               NewTurn(0.0, TURN_DEFAULT_PRECISION, TURN_DEFAULT_VELOCITY, false, 0.0), CLEAR)
  }

  /**
   * The decision of update on the camera's distance and angle: finished is
   * cleared, then set when nothing was found (0, 0) or the object is nearer
   * than stopDist, which also drops the drive's set point to 0; otherwise the
   * drive is set to the approach velocity and the turn to the negated angle.
   */
  function MoverAim(s: ApproachState, dist: real, angle: real, heading: real): ApproachState
  {
    if dist == 0.0 && angle == 0.0 then s.(finished := true)
    else if dist < s.stopDist then s.(finished := true, drive := DriveAt(s.drive, 0.0))
    else s.(finished := false, drive := DriveAt(s.drive, s.velocity), steer := TurnBy(s.steer, -angle, heading))
  }

  /** drive's update, its motor copied to the output. */
  function ApproachDrive(s: ApproachState, speed: real): ApproachState
  {
    var d := DriveTick(s.drive, speed);
    s.(drive := d, out := s.out.(motor := Saturate(d.out.motor, MAX_MOTOR)))
  }

  /** steer's update, its steering copied to the output. */
  function ApproachSteer(s: ApproachState, c: Compass): ApproachState
  {
    var t := TurnTick(s.steer, c);
    s.(steer := t, out := s.out.(steering := Saturate(t.out.steering, MAX_TURN)))
  }

  /** One update: motor and steering cleared, the decision, then drive's update and steer's. */
  function MoverTick(s: ApproachState, dist: real, angle: real, speed: real, c: Compass): ApproachState
  {
    ApproachSteer(ApproachDrive(MoverAim(s.(out := s.out.(motor := 0.0, steering := 0.0)), dist, angle, c.heading), speed), c)
  }

  /**
   * One tick: finished is recomputed from this tick's reading alone; the
   * motor and steering are drive's and steer's; the arm is never written;
   * the set points move as the three branches say.
   */
  lemma MoverTickRules(s: ApproachState, dist: real, angle: real, speed: real, c: Compass)
    ensures var r := MoverTick(s, dist, angle, speed, c);
      && (r.finished <==> (dist == 0.0 && angle == 0.0) || dist < s.stopDist)
      && r.out.arm == s.out.arm
      && r.out.motor == r.drive.out.motor && r.out.steering == r.steer.out.steering
      && r.stopDist == s.stopDist && r.velocity == s.velocity
      && (dist == 0.0 && angle == 0.0 ==> r.drive == DriveTick(s.drive, speed) && r.steer == TurnTick(s.steer, c))
      && (!(dist == 0.0 && angle == 0.0) && dist < s.stopDist ==>
            r.drive == DriveTick(DriveAt(s.drive, 0.0), speed) && r.drive.desired == 0.0 && r.steer == TurnTick(s.steer, c))
      && (!(dist == 0.0 && angle == 0.0) && dist >= s.stopDist ==>
            r.drive == DriveTick(DriveAt(s.drive, s.velocity), speed) && r.drive.desired == s.velocity
            && r.steer == TurnTick(TurnBy(s.steer, -angle, c.heading), c))
  {
    var a := MoverAim(s.(out := s.out.(motor := 0.0, steering := 0.0)), dist, angle, c.heading);
    DriveTickOutput(a.drive, speed);
    TurnTickRules(a.steer, c);
  }

  /**
   * The camera's nothing-found reading is (maxDist, 0), not (0, 0): on it a
   * mover whose stopDist is at most a non-zero maxDist does not finish and
   * keeps driving at its approach velocity.
   */
  lemma MoverChasesNothing(s: ApproachState, maxDist: real, speed: real, c: Compass)
    requires maxDist != 0.0 && s.stopDist <= maxDist
    ensures !MoverTick(s, maxDist, 0.0, speed, c).finished
    ensures MoverTick(s, maxDist, 0.0, speed, c).drive.desired == s.velocity
  {
    MoverTickRules(s, maxDist, 0.0, speed, c);
  }

  class MoveToObject {
    var finished: bool
    const output: RobotOutput
    const camera: Cameras.Camera
    const drive: Drive
    const steer: RelativeTurn
    const stopDist: real
    const velocity: real

    /** The turn's output and controller; only the turn's reset replaces them, and no behaviour calls it. */
    ghost const turnOutput: RobotOutput
    ghost const turnPID: PID

    /** The mover's output, drive's parts and steer's parts are distinct objects. */
    ghost predicate Separate()
    {
      output != drive.output && output != turnOutput && drive.output != turnOutput && drive.velocityPID != turnPID
    }

    ghost predicate Valid()
      reads steer
    {
      steer.output == turnOutput && steer.turnPID == turnPID && Separate()
    }

    ghost function State(): ApproachState
      reads this, output, drive, drive.output, drive.velocityPID, steer, steer.output, steer.turnPID
    {
      ApproachState(finished, stopDist, velocity, drive.State(), steer.State(), SettingOf(output))
    }

    /** MoveToObject(camera, velocitysensor, compass): cups, stopping at 70, approaching at 80. */
    constructor Default(camera: Cameras.Camera)
      modifies camera
      ensures Valid() && this.camera == camera && camera.objToFind == Cameras.AllCups
      ensures fresh(output) && fresh(drive) && fresh(drive.output) && fresh(drive.velocityPID)
      ensures fresh(steer) && fresh(turnOutput) && fresh(turnPID)
      ensures State() == NewMover(MOVER_DEFAULT_STOP_DIST, MOVER_DEFAULT_VELOCITY)
    {
      this.camera, stopDist, velocity, finished := camera, MOVER_DEFAULT_STOP_DIST, MOVER_DEFAULT_VELOCITY, false;
      output := new RobotOutput();
      var turn := new RelativeTurn.Default();
      steer, turnOutput, turnPID := turn, turn.output, turn.turnPID;
      camera.SetTargetObject(Cameras.AllCups);
      drive := new Drive(MOVER_DEFAULT_VELOCITY);
    }

    /** MoveToObject(camera, velocitysensor, compass, target): stopping at 70, approaching at 80. */
    constructor Targeting(camera: Cameras.Camera, target: Cameras.CameraTarget)
      modifies camera
      ensures Valid() && this.camera == camera && camera.objToFind == target
      ensures fresh(output) && fresh(drive) && fresh(drive.output) && fresh(drive.velocityPID)
      ensures fresh(steer) && fresh(turnOutput) && fresh(turnPID)
      ensures State() == NewMover(MOVER_DEFAULT_STOP_DIST, MOVER_DEFAULT_VELOCITY)
    {
      this.camera, stopDist, velocity, finished := camera, MOVER_DEFAULT_STOP_DIST, MOVER_DEFAULT_VELOCITY, false;
      output := new RobotOutput();
      var turn := new RelativeTurn.Default();
      steer, turnOutput, turnPID := turn, turn.output, turn.turnPID;
      camera.SetTargetObject(target);
      drive := new Drive(MOVER_DEFAULT_VELOCITY);
    }

    /** MoveToObject(camera, velocitysensor, compass, target, stopDist): approaching at 80. */
    constructor Stopping(camera: Cameras.Camera, target: Cameras.CameraTarget, stopDist: real)
      modifies camera
      ensures Valid() && this.camera == camera && camera.objToFind == target
      ensures fresh(output) && fresh(drive) && fresh(drive.output) && fresh(drive.velocityPID)
      ensures fresh(steer) && fresh(turnOutput) && fresh(turnPID)
      ensures State() == NewMover(stopDist, MOVER_DEFAULT_VELOCITY)
    {
      this.camera, this.stopDist, velocity, finished := camera, stopDist, MOVER_DEFAULT_VELOCITY, false;
      output := new RobotOutput();
      var turn := new RelativeTurn.Default();
      steer, turnOutput, turnPID := turn, turn.output, turn.turnPID;
      camera.SetTargetObject(target);
      drive := new Drive(MOVER_DEFAULT_VELOCITY);
    }

    /** MoveToObject(camera, velocitysensor, compass, target, stopDist, velocity). */
    constructor (camera: Cameras.Camera, target: Cameras.CameraTarget, stopDist: real, velocity: real)
      modifies camera
      ensures Valid() && this.camera == camera && camera.objToFind == target
      ensures fresh(output) && fresh(drive) && fresh(drive.output) && fresh(drive.velocityPID)
      ensures fresh(steer) && fresh(turnOutput) && fresh(turnPID)
      ensures State() == NewMover(stopDist, velocity)
    {
      this.camera, this.stopDist, this.velocity, finished := camera, stopDist, velocity, false;
      output := new RobotOutput();
      var turn := new RelativeTurn.Default();
      steer, turnOutput, turnPID := turn, turn.output, turn.turnPID;
      camera.SetTargetObject(target);
      drive := new Drive(velocity);
    }

    /** update, reading the camera's distance and angle, with the speed reading and the compass. */
    method Update(speed: real, c: Compass) returns (r: RobotOutput)
      requires Valid()
      modifies this, output, drive, drive.output, drive.velocityPID, steer, turnOutput, turnPID
      ensures Valid() && r == output
      ensures State() == MoverTick(old(State()), camera.objDist, camera.objAngle, speed, c)
    {
      Clear();
      var objDist := camera.objDist;
      var objAngle := camera.objAngle;
      Aim(objDist, objAngle, c.heading);
      DriveMotor(speed);
      SteerOutput(c);
      r := output;
    }

    /** The start of update: motor and steering set to 0. */
    method Clear()
      requires Valid()
      modifies output
      ensures Valid() && State() == old(State()).(out := old(State()).out.(motor := 0.0, steering := 0.0))
    {
      output.SetMotor(0.0);
      output.SetSteering(0.0);
    }

    /** The decision of update, at the compass heading. */
    method Aim(objDist: real, objAngle: real, heading: real)
      requires Valid()
      modifies this, drive, drive.velocityPID, steer, steer.turnPID
      ensures Valid() && State() == MoverAim(old(State()), objDist, objAngle, heading)
    {
      finished := false;
      if objDist == 0.0 && objAngle == 0.0 {
        finished := true;
      } else if objDist < stopDist {
        finished := true;
        drive.SetDesiredVelocity(0.0);
      } else {
        Approach(objAngle, heading);
      }
    }

    /** The approach branch of the decision. */
    method Approach(objAngle: real, heading: real)
      requires Valid()
      modifies this, drive, drive.velocityPID, steer, steer.turnPID
      ensures Valid()
      ensures State() == old(State()).(drive := DriveAt(old(drive.State()), velocity),
                                       steer := TurnBy(old(steer.State()), -objAngle, heading))
    {
      drive.SetDesiredVelocity(velocity);
      steer.SetTurnAngle(-objAngle, heading);
    }

    /** drive's update, its motor copied to the output. */
    method DriveMotor(speed: real)
      requires Valid()
      modifies drive, drive.output, drive.velocityPID, output
      ensures Valid() && State() == ApproachDrive(old(State()), speed)
    {
      var d := drive.Update(speed);
      output.SetMotor(d.motor);
    }

    /** steer's update, its steering copied to the output. */
    method SteerOutput(c: Compass)
      requires Valid()
      modifies steer, steer.output, steer.turnPID, output
      ensures Valid() && State() == ApproachSteer(old(State()), c)
    {
      var t := steer.Update(c);
      output.SetSteering(t.steering);
    }

    /** reset clears finished and nothing else. */
    method Reset()
      modifies this
      ensures State() == old(State()).(finished := false)
    {
      finished := false;
    }
  }

  // ---------------------------------------------------------------- MoveToRobotRadar

  const CHASE_DEFAULT_STOP_DIST: real := 20.0
  const CHASE_DEFAULT_VELOCITY: real := 60.0
  /** The turn set while the radar reports no robot. */
  const CHASE_SEARCH_TURN: real := -PI / 10.0

  /** A new MoveToRobotRadar: a drive at the approach velocity and a default turn. */
  function NewChase(stopDist: real, velocity: real): ApproachState
  {
    ApproachState(false, stopDist, velocity, NewDrive(velocity, false, false, 0.0, 0.0),
                  NewTurn(0.0, TURN_DEFAULT_PRECISION, TURN_DEFAULT_VELOCITY, false, 0.0), CLEAR)
  }

  /**
   * The decision of update, taken only while unfinished: with no robot the
   * drive is set to the velocity and the turn to -pi/10; a robot nearer than
   * stopDist finishes the behaviour and drops the drive's set point to 0;
   * otherwise the motor is set to the velocity and the turn to the robot's
   * bearing.
   */
  function ChaseAim(s: ApproachState, robot: bool, dist: real, angle: real, heading: real): ApproachState
  {
    if s.finished then s
    else if !robot then s.(drive := DriveAt(s.drive, s.velocity), steer := TurnBy(s.steer, CHASE_SEARCH_TURN, heading))
    else if dist < s.stopDist then s.(finished := true, drive := DriveAt(s.drive, 0.0))
    else s.(out := s.out.(motor := Saturate(s.velocity, MAX_MOTOR)), steer := TurnBy(s.steer, angle, heading))
  }

  /** One update: motor and steering cleared, the decision, then drive's update and steer's, always. */
  function ChaseTick(s: ApproachState, robot: bool, dist: real, angle: real, speed: real, c: Compass): ApproachState
  {
    ApproachSteer(ApproachDrive(ChaseAim(s.(out := s.out.(motor := 0.0, steering := 0.0)), robot, dist, angle, c.heading), speed), c)
  }

  /**
   * One tick: finished latches; once finished no set point moves and drive
   * and steer only run; the motor the approach branch sets is overwritten by
   * drive's, and the steering is steer's; the arm is never written.
   */
  lemma ChaseTickRules(s: ApproachState, robot: bool, dist: real, angle: real, speed: real, c: Compass)
    ensures var r := ChaseTick(s, robot, dist, angle, speed, c);
      && (r.finished <==> s.finished || (robot && dist < s.stopDist))
      && r.out.arm == s.out.arm
      && r.out.motor == r.drive.out.motor && r.out.steering == r.steer.out.steering
      && r.stopDist == s.stopDist && r.velocity == s.velocity
      && (s.finished ==> r.drive == DriveTick(s.drive, speed) && r.steer == TurnTick(s.steer, c))
      && (!s.finished && !robot ==>
            r.drive == DriveTick(DriveAt(s.drive, s.velocity), speed) && r.drive.desired == s.velocity
            && r.steer == TurnTick(TurnBy(s.steer, CHASE_SEARCH_TURN, c.heading), c))
      && (!s.finished && robot && dist < s.stopDist ==>
            r.drive == DriveTick(DriveAt(s.drive, 0.0), speed) && r.drive.desired == 0.0 && r.steer == TurnTick(s.steer, c))
      && (!s.finished && robot && dist >= s.stopDist ==>
            r.drive == DriveTick(s.drive, speed) && r.steer == TurnTick(TurnBy(s.steer, angle, c.heading), c))
  {
    var a := ChaseAim(s.(out := s.out.(motor := 0.0, steering := 0.0)), robot, dist, angle, c.heading);
    DriveTickOutput(a.drive, speed);
    TurnTickRules(a.steer, c);
  }

  /** What one update of MoveToRobotRadar reads: the radar's flag, distance and bearing, the speed and the compass. */
  datatype RadarInput = RadarInput(robot: bool, dist: real, angle: real, speed: real, compass: Compass)

  function ChaseRun(s: ApproachState, ins: seq<RadarInput>): ApproachState
  {
    if ins == [] then s
    else var i := ins[|ins| - 1]; ChaseTick(ChaseRun(s, ins[..|ins| - 1]), i.robot, i.dist, i.angle, i.speed, i.compass)
  }

  function Speeds(ins: seq<RadarInput>): (r: seq<real>)
    ensures |r| == |ins|
  {
    if ins == [] then [] else Speeds(ins[..|ins| - 1]) + [ins[|ins| - 1].speed]
  }

  function Compasses(ins: seq<RadarInput>): (r: seq<Compass>)
    ensures |r| == |ins|
  {
    if ins == [] then [] else Compasses(ins[..|ins| - 1]) + [ins[|ins| - 1].compass]
  }

  /**
   * Once finished, MoveToRobotRadar stays finished until reset, and its
   * drive and turn are left to run on their own: no set point is changed
   * whatever the radar reports.
   */
  lemma {:induction false} FinishedChaseFrozen(s: ApproachState, ins: seq<RadarInput>)
    requires s.finished
    ensures ChaseRun(s, ins).finished
    ensures ChaseRun(s, ins).drive == DriveRun(s.drive, Speeds(ins))
    ensures ChaseRun(s, ins).steer == TurnRun(s.steer, Compasses(ins))
  {
    if ins != [] {
      var i := ins[|ins| - 1];
      var front := ins[..|ins| - 1];
      FinishedChaseFrozen(s, front);
      ChaseTickRules(ChaseRun(s, front), i.robot, i.dist, i.angle, i.speed, i.compass);
      assert Speeds(ins)[..|ins| - 1] == Speeds(front);
      assert Compasses(ins)[..|ins| - 1] == Compasses(front);
    }
  }

  class MoveToRobotRadar {
    var finished: bool
    const output: RobotOutput
    const radar: Radar.RobotRadar
    const drive: Drive
    const steer: RelativeTurn
    const stopDist: real
    const velocity: real

    /** The turn's output and controller; only the turn's reset replaces them, and no behaviour calls it. */
    ghost const turnOutput: RobotOutput
    ghost const turnPID: PID

    /** The behaviour's output, drive's parts and steer's parts are distinct objects. */
    ghost predicate Separate()
    {
      output != drive.output && output != turnOutput && drive.output != turnOutput && drive.velocityPID != turnPID
    }

    ghost predicate Valid()
      reads steer
    {
      steer.output == turnOutput && steer.turnPID == turnPID && Separate()
    }

    ghost function State(): ApproachState
      reads this, output, drive, drive.output, drive.velocityPID, steer, steer.output, steer.turnPID
    {
      ApproachState(finished, stopDist, velocity, drive.State(), steer.State(), SettingOf(output))
    }

    /** MoveToRobotRadar(radar, velocity, compass): stopping at 20, approaching at 60. */
    constructor Default(radar: Radar.RobotRadar)
      ensures Valid() && this.radar == radar
      ensures fresh(output) && fresh(drive) && fresh(drive.output) && fresh(drive.velocityPID)
      ensures fresh(steer) && fresh(turnOutput) && fresh(turnPID)
      ensures State() == NewChase(CHASE_DEFAULT_STOP_DIST, CHASE_DEFAULT_VELOCITY)
    {
      this.radar, stopDist, velocity, finished := radar, CHASE_DEFAULT_STOP_DIST, CHASE_DEFAULT_VELOCITY, false;
      output := new RobotOutput();
      drive := new Drive(CHASE_DEFAULT_VELOCITY);
      var turn := new RelativeTurn.Default();
      steer, turnOutput, turnPID := turn, turn.output, turn.turnPID;
    }

    /** MoveToRobotRadar(radar, velocity, compass, stopDist): approaching at 60. */
    constructor Stopping(radar: Radar.RobotRadar, stopDist: real)
      ensures Valid() && this.radar == radar
      ensures fresh(output) && fresh(drive) && fresh(drive.output) && fresh(drive.velocityPID)
      ensures fresh(steer) && fresh(turnOutput) && fresh(turnPID)
      ensures State() == NewChase(stopDist, CHASE_DEFAULT_VELOCITY)
    {
      this.radar, this.stopDist, velocity, finished := radar, stopDist, CHASE_DEFAULT_VELOCITY, false;
      output := new RobotOutput();
      drive := new Drive(CHASE_DEFAULT_VELOCITY);
      var turn := new RelativeTurn.Default();
      steer, turnOutput, turnPID := turn, turn.output, turn.turnPID;
    }

    /** MoveToRobotRadar(radar, velocity, compass, stopDist, velocity). */
    constructor (radar: Radar.RobotRadar, stopDist: real, velocity: real)
      ensures Valid() && this.radar == radar
      ensures fresh(output) && fresh(drive) && fresh(drive.output) && fresh(drive.velocityPID)
      ensures fresh(steer) && fresh(turnOutput) && fresh(turnPID)
      ensures State() == NewChase(stopDist, velocity)
    {
      this.radar, this.stopDist, this.velocity, finished := radar, stopDist, velocity, false;
      output := new RobotOutput();
      drive := new Drive(velocity);
      var turn := new RelativeTurn.Default();
      steer, turnOutput, turnPID := turn, turn.output, turn.turnPID;
    }

    /** update, reading the radar's output and isRobot, with the speed reading and the compass. */
    method Update(speed: real, c: Compass) returns (r: RobotOutput)
      requires Valid() && radar.Valid()
      modifies this, output, drive, drive.output, drive.velocityPID, steer, turnOutput, turnPID
      ensures Valid() && r == output
      ensures State() == ChaseTick(old(State()), radar.IsRobot(), radar.output[0], radar.output[1], speed, c)
    {
      Clear();
      if !finished {
        var robotData := radar.output;
        var robotDist := robotData[0];
        var robotAngle := robotData[1];
        Decide(radar.IsRobot(), robotDist, robotAngle, c.heading);
      }
      DriveMotor(speed);
      SteerOutput(c);
      r := output;
    }

    /** The start of update: motor and steering set to 0. */
    method Clear()
      requires Valid()
      modifies output
      ensures Valid() && State() == old(State()).(out := old(State()).out.(motor := 0.0, steering := 0.0))
    {
      output.SetMotor(0.0);
      output.SetSteering(0.0);
    }

    /** The decision of update, at the compass heading. */
    method Decide(robot: bool, robotDist: real, robotAngle: real, heading: real)
      requires Valid() && !finished
      modifies this, output, drive, drive.velocityPID, steer, steer.turnPID
      ensures Valid() && State() == ChaseAim(old(State()), robot, robotDist, robotAngle, heading)
    {
      if !robot {
        Search(heading);
      } else if robotDist < stopDist {
        finished := true;
        drive.SetDesiredVelocity(0.0);
      } else {
        output.SetMotor(velocity);
        steer.SetTurnAngle(robotAngle, heading);
      }
    }

    /** The no-robot branch of the decision. */
    method Search(heading: real)
      requires Valid()
      modifies drive, drive.velocityPID, steer, steer.turnPID
      ensures Valid()
      ensures State() == old(State()).(drive := DriveAt(old(drive.State()), velocity),
                                       steer := TurnBy(old(steer.State()), CHASE_SEARCH_TURN, heading))
    {
      drive.SetDesiredVelocity(velocity);
      steer.SetTurnAngle(CHASE_SEARCH_TURN, heading);
    }

    /** drive's update, its motor copied to the output. */
    method DriveMotor(speed: real)
      requires Valid()
      modifies drive, drive.output, drive.velocityPID, output
      ensures Valid() && State() == ApproachDrive(old(State()), speed)
    {
      var d := drive.Update(speed);
      output.SetMotor(d.motor);
    }

    /** steer's update, its steering copied to the output. */
    method SteerOutput(c: Compass)
      requires Valid()
      modifies steer, steer.output, steer.turnPID, output
      ensures Valid() && State() == ApproachSteer(old(State()), c)
    {
      var t := steer.Update(c);
      output.SetSteering(t.steering);
    }

    /** reset clears finished and nothing else. */
    method Reset()
      modifies this
      ensures State() == old(State()).(finished := false)
    {
      finished := false;
    }
  }

  // ---------------------------------------------------------------- FindMoveToCup

  /** FindMoveToCup as a value: the cups counted so far and its mover. */
  datatype HuntState = HuntState(numCollected: int, mover: ApproachState)

  /** A new FindMoveToCup: nothing counted, a mover with MoveToObject's defaults. */
  function NewHunt(): HuntState
  {
    HuntState(0, NewMover(MOVER_DEFAULT_STOP_DIST, MOVER_DEFAULT_VELOCITY))
  }

  /** The start of update: a collection count above the one recorded resets the mover and is recorded. */
  function HuntTally(s: HuntState, count: int): HuntState
  {
    if count > s.numCollected then HuntState(count, s.mover.(finished := false)) else s
  }

  /** The mover's update, and the arm raised on the mover's own output once it reports finished. */
  function HuntChase(s: HuntState, dist: real, angle: real, speed: real, c: Compass): HuntState
  {
    var m := MoverTick(s.mover, dist, angle, speed, c);
    s.(mover := if m.finished then m.(out := m.out.(arm := true)) else m)
  }

  /** One update: the tally, then the mover's update when the camera has a target, else only the search behaviour's. */
  function HuntTick(s: HuntState, count: int, target: bool, dist: real, angle: real, speed: real, c: Compass): HuntState
  {
    var t := HuntTally(s, count);
    if target then HuntChase(t, dist, angle, speed, c) else t
  }

  /**
   * One tick: the count recorded is the larger of the old one and the
   * sensor's; with a target the mover runs, and once it reports finished
   * the arm is on; without one the mover only takes the reset, if any; the
   * arm, once on, stays on.
   */
  lemma HuntTickRules(s: HuntState, count: int, target: bool, dist: real, angle: real, speed: real, c: Compass)
    ensures var r := HuntTick(s, count, target, dist, angle, speed, c);
      && r.numCollected == (if count > s.numCollected then count else s.numCollected)
      && r.numCollected >= s.numCollected
      && (target ==> r.mover.finished == ((dist == 0.0 && angle == 0.0) || dist < s.mover.stopDist))
      && (target && r.mover.finished ==> r.mover.out.arm)
      && (target && !r.mover.finished ==> r.mover.out.arm == s.mover.out.arm)
      && (!target ==> r.mover == (if count > s.numCollected then s.mover.(finished := false) else s.mover))
      && (s.mover.out.arm ==> r.mover.out.arm)
  {
    var t := HuntTally(s, count);
    MoverTickRules(t.mover, dist, angle, speed, c);
  }

  /** What one update of FindMoveToCup reads: the collection count, the camera and the other sensors. */
  datatype HuntInput = HuntInput(count: int, target: bool, dist: real, angle: real, speed: real, compass: Compass)

  function HuntRun(s: HuntState, ins: seq<HuntInput>): HuntState
  {
    if ins == [] then s
    else var i := ins[|ins| - 1]; HuntTick(HuntRun(s, ins[..|ins| - 1]), i.count, i.target, i.dist, i.angle, i.speed, i.compass)
  }

  /** Once the arm is on it stays on, and the recorded count never falls, over any run of updates. */
  lemma {:induction false} ArmStaysRaised(s: HuntState, ins: seq<HuntInput>)
    ensures s.mover.out.arm ==> HuntRun(s, ins).mover.out.arm
    ensures HuntRun(s, ins).numCollected >= s.numCollected
  {
    if ins != [] {
      var i := ins[|ins| - 1];
      ArmStaysRaised(s, ins[..|ins| - 1]);
      HuntTickRules(HuntRun(s, ins[..|ins| - 1]), i.count, i.target, i.dist, i.angle, i.speed, i.compass);
    }
  }

  class FindMoveToCup {
    var numCollected: int
    const cam: Cameras.Camera
    const mover: MoveToObject
    /** The output last returned: initially its own, then the mover's or the search behaviour's. */
    var output: RobotOutput

    ghost predicate Valid()
      reads mover.steer
    {
      mover.Valid() && mover.camera == cam
    }

    ghost function State(): HuntState
      reads this, mover, mover.output, mover.drive, mover.drive.output, mover.drive.velocityPID
      reads mover.steer, mover.steer.output, mover.steer.turnPID
    {
      HuntState(numCollected, mover.State())
    }

    /** FindMoveToCup(camera, velocitysensor, compass, collector, searchBehaviour): a mover for cups. */
    constructor (camera: Cameras.Camera)
      modifies camera
      ensures Valid() && cam == camera && camera.objToFind == Cameras.AllCups
      ensures fresh(output) && fresh(mover) && fresh(mover.output) && fresh(mover.drive)
      ensures fresh(mover.drive.output) && fresh(mover.drive.velocityPID)
      ensures fresh(mover.steer) && fresh(mover.turnOutput) && fresh(mover.turnPID)
      ensures State() == NewHunt()
    {
      mover := new MoveToObject.Targeting(camera, Cameras.AllCups);
      output := new RobotOutput();
      cam := camera;
      numCollected := 0;
    }

    /**
     * update, with the collection sensor's count, the output the search
     * behaviour's own update returned, the speed reading and the compass.
     */
    method Update(count: int, alt: RobotOutput, speed: real, c: Compass) returns (r: RobotOutput)
      requires Valid()
      modifies this, mover, mover.output, mover.drive, mover.drive.output, mover.drive.velocityPID
      modifies mover.steer, mover.turnOutput, mover.turnPID
      ensures Valid() && r == output
      ensures output == (if cam.HasTarget() then mover.output else alt)
      ensures State() == HuntTick(old(State()), count, cam.HasTarget(), cam.objDist, cam.objAngle, speed, c)
    {
      Tally(count);
      if cam.HasTarget() {
        Chase(speed, c);
      } else {
        output := alt;
      }
      r := output;
    }

    /** The tally at the start of update. */
    method Tally(count: int)
      requires Valid()
      modifies this, mover
      ensures Valid() && State() == HuntTally(old(State()), count)
    {
      if count > numCollected {
        mover.Reset();
        numCollected := count;
      }
    }

    /** The target branch of update. */
    method Chase(speed: real, c: Compass)
      requires Valid()
      modifies this, mover, mover.output, mover.drive, mover.drive.output, mover.drive.velocityPID
      modifies mover.steer, mover.turnOutput, mover.turnPID
      ensures Valid() && output == mover.output
      ensures State() == HuntChase(old(State()), cam.objDist, cam.objAngle, speed, c)
    {
      output := mover.Update(speed, c);
      if mover.finished {
        output.SetArm(true);
      }
    }

    /** isFinished: the flag is never raised. */
    predicate IsFinished()
    {
      false
    }

    /** reset sets the recorded count to 0 and nothing else. */
    method Reset()
      modifies this
      ensures output == old(output)
      ensures State() == old(State()).(numCollected := 0)
    {
      numCollected := 0;
    }

    function NumCollected(): int
      reads this
    {
      numCollected
    }
  }

  // ---------------------------------------------------------------- FindMoveToRobot

  const SEEK_STOP_DIST: real := 60.0
  const SEEK_VELOCITY: real := 200.0

  /** One update of FindMoveToRobot on its mover: the mover runs only when the camera has a target. */
  function SeekTick(s: ApproachState, target: bool, dist: real, angle: real, speed: real, c: Compass): ApproachState
  {
    if target then MoverTick(s, dist, angle, speed, c) else s
  }

  /**
   * isFinished is the mover's: after a tick with a target it reports this
   * tick's reading, and after one without it keeps what it was.
   */
  lemma SeekTickRules(s: ApproachState, target: bool, dist: real, angle: real, speed: real, c: Compass)
    ensures var r := SeekTick(s, target, dist, angle, speed, c);
      && (r.finished <==> (target && ((dist == 0.0 && angle == 0.0) || dist < s.stopDist)) || (!target && s.finished))
      && (!target ==> r == s)
      && r.out.arm == s.out.arm
  {
    MoverTickRules(s, dist, angle, speed, c);
  }

  class FindMoveToRobot {
    const cam: Cameras.Camera
    const mover: MoveToObject
    /** The output last returned: initially its own, then the mover's or the search behaviour's. */
    var output: RobotOutput

    ghost predicate Valid()
      reads mover.steer
    {
      mover.Valid() && mover.camera == cam
    }

    ghost function State(): ApproachState
      reads mover, mover.output, mover.drive, mover.drive.output, mover.drive.velocityPID
      reads mover.steer, mover.steer.output, mover.steer.turnPID
    {
      mover.State()
    }

    /** FindMoveToRobot(camera, velocityo, compass, searchBehaviour): a mover for robots, stopping at 60, at 200. */
    constructor (camera: Cameras.Camera)
      modifies camera
      ensures Valid() && cam == camera && camera.objToFind == Cameras.AllRobots
      ensures fresh(output) && fresh(mover) && fresh(mover.output) && fresh(mover.drive)
      ensures fresh(mover.drive.output) && fresh(mover.drive.velocityPID)
      ensures fresh(mover.steer) && fresh(mover.turnOutput) && fresh(mover.turnPID)
      ensures State() == NewMover(SEEK_STOP_DIST, SEEK_VELOCITY)
    {
      mover := new MoveToObject(camera, Cameras.AllRobots, SEEK_STOP_DIST, SEEK_VELOCITY);
      output := new RobotOutput();
      cam := camera;
    }

    /** update, with the output the search behaviour's own update returned, the speed reading and the compass. */
    method Update(alt: RobotOutput, speed: real, c: Compass) returns (r: RobotOutput)
      requires Valid()
      modifies this, mover, mover.output, mover.drive, mover.drive.output, mover.drive.velocityPID
      modifies mover.steer, mover.turnOutput, mover.turnPID
      ensures Valid() && r == output
      ensures output == (if cam.HasTarget() then mover.output else alt)
      ensures State() == SeekTick(old(State()), cam.HasTarget(), cam.objDist, cam.objAngle, speed, c)
    {
      if cam.HasTarget() {
        output := mover.Update(speed, c);
      } else {
        output := alt;
      }
      r := output;
    }

    /** isFinished: the mover's. */
    predicate IsFinished()
      reads mover
    {
      mover.finished
    }

    /** reset does nothing. */
    method Reset()
    {
    }
  }

  // ---------------------------------------------------------------- MoveDropReturn

  /** The object MoveDropReturn's output field refers to: its own, the turn's or the drive's. */
  datatype Showing = OwnOutput | TurnOutput | DriveOutput

  datatype DropState = DropState(finished: bool, dropped: bool, turn: TurnState, drive: DriveState,
                                 own: Setting, showing: Showing)

  /** The turn about by pi within 0.5 at velocity -10, and the drive at 50 for time 50 and distance 300. */
  function NewDrop(): DropState
  {
    DropState(false, false, NewTurn(PI, 0.5, -10.0, false, 0.0), NewDrive(50.0, true, true, 50.0, 300.0), CLEAR, OwnOutput)
  }

  /** What the behaviour returns: the setting of the object its output field refers to. */
  function Shown(s: DropState): Setting
  {
    match s.showing
    case OwnOutput => s.own
    case TurnOutput => s.turn.out
    case DriveOutput => s.drive.out
  }

  /** The start of update: motor and steering of whichever object the output field refers to set to 0. */
  function ZeroShown(s: DropState): DropState
  {
    match s.showing
    case OwnOutput => s.(own := s.own.(motor := 0.0, steering := 0.0))
    case TurnOutput => s.(turn := s.turn.(out := s.turn.out.(motor := 0.0, steering := 0.0)))
    case DriveOutput => s.(drive := s.drive.(out := s.drive.out.(motor := 0.0, steering := 0.0)))
  }

  /** The turn's update, whose output becomes the one shown. */
  function DropTurn(s: DropState, c: Compass): DropState
  {
    s.(turn := TurnTick(s.turn, c), showing := TurnOutput)
  }

  /** The drive's update, whose output becomes the one shown; a drop already made finishes the behaviour. */
  function DropDrive(s: DropState, speed: real): DropState
  {
    s.(drive := DriveTick(s.drive, speed), showing := DriveOutput, finished := s.finished || s.dropped)
  }

  /** The drop: arm off on the shown (drive's) output, dropped, and the turn re-targeted by pi. */
  function DropRelease(s: DropState, heading: real): DropState
  {
    s.(drive := s.drive.(out := s.drive.out.(arm := false)), dropped := true, turn := TurnBy(s.turn, PI, heading))
  }

  /**
   * One update: the shown output zeroed; then, unless finished, the turn's
   * update, and only on a tick when the turn reports finished the drive's
   * update, after which a finished drive makes the drop.
   */
  function DropTick(s: DropState, speed: real, c: Compass): DropState
  {
    var z := ZeroShown(s);
    if z.finished then z
    else
      var t := DropTurn(z, c);
      if !t.turn.finished then t
      else
        var d := DropDrive(t, speed);
        if d.drive.finished then DropRelease(d, c.heading) else d
  }

  /**
   * One tick: a finished behaviour shows motor and steering 0 and moves
   * nothing else; the drive's output is shown, and the drive runs, only
   * on ticks when the turn reports finished; the behaviour finishes only on
   * such a tick with the drop already made; a finished drive makes the drop
   * and re-targets the turn.
   */
  lemma DropTickRules(s: DropState, speed: real, c: Compass)
    ensures var r := DropTick(s, speed, c);
      && (s.finished ==> r == ZeroShown(s) && Shown(r).motor == 0.0 && Shown(r).steering == 0.0
                         && Shown(r).arm == Shown(s).arm)
      && (!s.finished ==> r.showing != OwnOutput)
      && (!s.finished && r.showing == DriveOutput ==> TurnTick(ZeroShown(s).turn, c).finished)
      && (!s.finished && !TurnTick(ZeroShown(s).turn, c).finished ==> r.drive == ZeroShown(s).drive && r.showing == TurnOutput)
      && (r.finished && !s.finished ==> s.dropped && TurnTick(ZeroShown(s).turn, c).finished)
      && (r.dropped && !s.dropped ==> !r.drive.out.arm && !r.turn.finished && r.turn.desired == PI + c.heading)
      && (s.dropped ==> r.dropped)
  {
  }

  /**
   * What every reachable state keeps: the behaviour finishes only after the
   * drop, is then showing the drive's output, and no output it can show has
   * its arm on.
   */
  ghost predicate DropInvariant(s: DropState)
  {
    (s.finished ==> s.dropped && s.showing == DriveOutput) && !s.own.arm && !s.turn.out.arm && !s.drive.out.arm
  }

  /** The new behaviour keeps the invariant, every update preserves it, and what it shows then has the arm off. */
  lemma DropInvariantHolds(s: DropState, speed: real, c: Compass)
    ensures DropInvariant(NewDrop())
    ensures DropInvariant(s) ==> DropInvariant(DropTick(s, speed, c)) && !Shown(DropTick(s, speed, c)).arm
  {
    if DropInvariant(s) {
      TurnTickRules(ZeroShown(s).turn, c);
      DriveTickOutput(DropTurn(ZeroShown(s), c).drive, speed);
    }
  }

  class MoveDropReturn {
    var finished: bool
    var dropped: bool
    const drive: Drive
    const turn: RelativeTurn
    /** The output the constructor makes; the output field refers to it until the first update. */
    const own: RobotOutput
    var output: RobotOutput

    /** The turn's output and controller; only the turn's reset replaces them, and no behaviour calls it. */
    ghost const turnOutput: RobotOutput
    ghost const turnPID: PID

    /** Its own output, drive's parts and the turn's parts are distinct objects. */
    ghost predicate Separate()
    {
      own != drive.output && own != turnOutput && drive.output != turnOutput && drive.velocityPID != turnPID
    }

    ghost predicate Valid()
      reads this, turn
    {
      turn.output == turnOutput && turn.turnPID == turnPID && Separate()
      && (output == own || output == turnOutput || output == drive.output)
    }

    ghost function Showing(): Showing
      reads this
    {
      if output == own then OwnOutput else if output == turnOutput then TurnOutput else DriveOutput
    }

    ghost function State(): DropState
      reads this, own, drive, drive.output, drive.velocityPID, turn, turn.output, turn.turnPID
    {
      DropState(finished, dropped, turn.State(), drive.State(), SettingOf(own), Showing())
    }

    /** MoveDropReturn(compass, velocity). */
    constructor ()
      ensures Valid() && output == own
      ensures fresh(own) && fresh(drive) && fresh(drive.output) && fresh(drive.velocityPID)
      ensures fresh(turn) && fresh(turnOutput) && fresh(turnPID)
      ensures State() == NewDrop()
    {
      finished, dropped := false, false;
      var t := new RelativeTurn(PI, 0.5, -10.0);
      turn, turnOutput, turnPID := t, t.output, t.turnPID;
      drive := new Drive.TimedDistance(50.0, 50.0, 300.0);
      own := new RobotOutput();
      output := own;
    }

    /** update, with the speed reading and the compass. */
    method Update(speed: real, c: Compass) returns (r: RobotOutput)
      requires Valid()
      modifies this, own, drive, drive.output, drive.velocityPID, turn, turnOutput, turnPID
      ensures Valid() && r == output
      ensures State() == DropTick(old(State()), speed, c)
      ensures SettingOf(r) == Shown(State())
    {
      Zero();
      if !finished {
        TurnStep(c);
        if turn.finished {
          DriveStep(speed);
          if drive.finished {
            Release(c.heading);
          }
        }
      }
      r := output;
      ShownIsOutput();
    }

    /** The setting of the object the output field refers to is Shown of the state. */
    lemma ShownIsOutput()
      requires Valid()
      ensures SettingOf(output) == Shown(State())
    {
    }

    /** The start of update: motor and steering of the current output set to 0. */
    method Zero()
      requires Valid()
      modifies own, drive.output, turnOutput
      ensures Valid() && State() == ZeroShown(old(State()))
    {
      output.SetMotor(0.0);
      output.SetSteering(0.0);
    }

    /** The turn's update, its output becoming the one returned. */
    method TurnStep(c: Compass)
      requires Valid()
      modifies this, turn, turn.output, turn.turnPID
      ensures Valid() && State() == DropTurn(old(State()), c)
    {
      output := turn.Update(c);
    }

    /** The drive's update, its output becoming the one returned; finished if the drop was made. */
    method DriveStep(speed: real)
      requires Valid()
      modifies this, drive, drive.output, drive.velocityPID
      ensures Valid() && State() == DropDrive(old(State()), speed)
    {
      output := drive.Update(speed);
      if dropped {
        finished := true;
      }
    }

    /** The drop, on the drive's output. */
    method Release(heading: real)
      requires Valid() && output == drive.output
      modifies this, drive.output, turn, turn.turnPID
      ensures Valid() && State() == DropRelease(old(State()), heading)
    {
      output.SetArm(false);
      dropped := true;
      turn.SetTurnAngle(PI, heading);
    }

    /** reset clears finished and nothing else. */
    method Reset()
      modifies this
      ensures output == old(output)
      ensures State() == old(State()).(finished := false)
    {
      finished := false;
    }
  }
}
