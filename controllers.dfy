/**
 * The primitive controllers of simulation.entities.behaviour: the PID loop,
 * Drive (PID-held speed with optional time and distance countdowns) and the
 * two turns, RelativeTurn and AbsoluteTurn.  Each class can be viewed as a
 * value (its State), and every method that changes it is proved to move that
 * value exactly as a pure transition function defined beside the class; the
 * promises of the controllers are lemmas about those functions.  Sensor
 * readings (speed, compass) are parameters of the method that reads them.
 */
module Controllers {
  import opened Numerics
  import opened RobotOutputs
  import Dynamics

  /** What a RobotOutput holds, as a value. */
  datatype Setting = Setting(arm: bool, motor: real, steering: real)

  const CLEAR: Setting := Setting(false, 0.0, 0.0)

  ghost function SettingOf(o: RobotOutput): Setting
    reads o
  {
    Setting(o.armActive, o.motor, o.steering)
  }

  /** One compass reading: whether the compass is initialised, and its heading. */
  datatype Compass = Compass(ready: bool, heading: real)

  // ---------------------------------------------------------------- PID

  /** The gains and the three state fields of a PID controller. */
  datatype PIDState = PIDState(kp: real, ki: real, kd: real, intError: real, previousValue: real, target: real)

  /** A controller as the constructor leaves it: the gains, everything else 0. */
  function FreshPID(kp: real, ki: real, kd: real): PIDState
  {
    PIDState(kp, ki, kd, 0.0, 0.0, 0.0)
  }

  /** setSetPoint: a new target and a cleared integral. */
  function Retarget(s: PIDState, t: real): PIDState
  {
    s.(intError := 0.0, target := t)
  }

  function Error(s: PIDState, cur: real): real
  {
    s.target - cur
  }

  /** The state updatePID leaves: the error integrated over one frame, the reading remembered. */
  function Advance(s: PIDState, cur: real): PIDState
  {
    s.(intError := s.intError + Error(s, cur) * Dynamics.DT, previousValue := cur)
  }

  /** The value updatePID returns: proportional, integral and derivative terms. */
  function Control(s: PIDState, cur: real): real
  {
    s.kp * Error(s, cur) + s.ki * Advance(s, cur).intError + s.kd * ((cur - s.previousValue) / Dynamics.DT)
  }

  /** The controller after an update at each reading of cs in turn. */
  function Run(s: PIDState, cs: seq<real>): PIDState
  {
    if cs == [] then s else Advance(Run(s, cs[..|cs| - 1]), cs[|cs| - 1])
  }

  /** The errors of the readings cs against the target t, summed. */
  function ErrorSum(t: real, cs: seq<real>): real
  {
    if cs == [] then 0.0 else ErrorSum(t, cs[..|cs| - 1]) + (t - cs[|cs| - 1])
  }

  /** Updates keep the gains and the target, integrate every error and remember the last reading. */
  lemma {:induction false} RunIntegrates(s: PIDState, cs: seq<real>)
    ensures Run(s, cs).kp == s.kp && Run(s, cs).ki == s.ki && Run(s, cs).kd == s.kd
    ensures Run(s, cs).target == s.target
    ensures Run(s, cs).intError == s.intError + ErrorSum(s.target, cs) * Dynamics.DT
    ensures cs != [] ==> Run(s, cs).previousValue == cs[|cs| - 1]
    decreases |cs|
  {
    if cs != [] {
      RunIntegrates(s, cs[..|cs| - 1]);
    }
  }

  /** A controller resting on its target stays at rest under readings on the target, and outputs 0. */
  lemma {:induction false} RestAtTarget(s: PIDState, cs: seq<real>)
    requires s.intError == 0.0 && s.previousValue == s.target
    requires forall i :: 0 <= i < |cs| ==> cs[i] == s.target
    ensures Run(s, cs) == s
    ensures Control(s, s.target) == 0.0
    decreases |cs|
  {
    if cs != [] {
      RestAtTarget(s, cs[..|cs| - 1]);
      assert cs[|cs| - 1] == s.target;
    }
  }

  /**
   * Right after a set point, with a steady reading, non-negative gains push
   * towards the target.
   */
  lemma FirstPushTowardsTarget(s: PIDState, t: real, cur: real)
    requires s.kp >= 0.0 && s.ki >= 0.0 && s.previousValue == cur
    ensures cur < t ==> Control(Retarget(s, t), cur) >= 0.0
    ensures cur > t ==> Control(Retarget(s, t), cur) <= 0.0
  {
    var e := t - cur;
    assert Control(Retarget(s, t), cur) == s.kp * e + s.ki * (e * Dynamics.DT);
    if e > 0.0 {
      assert s.kp * e >= 0.0;
      assert s.ki * (e * Dynamics.DT) >= 0.0;
    } else if e < 0.0 {
      assert s.kp * e <= 0.0;
      assert s.ki * (e * Dynamics.DT) <= 0.0;
    }
  }

  class PID {
    var intError: real
    const kd: real
    const ki: real
    const kp: real
    var previousValue: real
    var target: real

    ghost function State(): PIDState
      reads this
    {
      PIDState(kp, ki, kd, intError, previousValue, target)
    }

    /** The gains are fixed here; the state fields are Java's defaults. */
    constructor (proportional: real, integral: real, differential: real)
      ensures State() == FreshPID(proportional, integral, differential)
    {
      kp, ki, kd := proportional, integral, differential;
      intError, previousValue, target := 0.0, 0.0, 0.0;
    }

    method SetSetPoint(targetValue: real)
      modifies this
      ensures State() == Retarget(old(State()), targetValue)
    {
      intError := 0.0;
      target := targetValue;
    }

    method UpdatePID(currentValue: real) returns (out: real)
      modifies this
      ensures out == Control(old(State()), currentValue)
      ensures State() == Advance(old(State()), currentValue)
    {
      var error := target - currentValue;
      intError := intError + error * Dynamics.DT;
      var derError := (currentValue - previousValue) / Dynamics.DT;
      out := kp * error + ki * intError + kd * derError;
      previousValue := currentValue;
    }
  }

  // ---------------------------------------------------------------- Drive

  const DRIVE_DEFAULT_VELOCITY: real := 100.0

  /** The velocity controller every Drive builds. */
  const DRIVE_PID: PIDState := FreshPID(5.0, 0.001, 0.01)

  datatype DriveState = DriveState(desired: real, finished: bool, timeSet: bool, distanceSet: bool,
                                   time: real, distance: real, pid: PIDState, out: Setting)

  /** A new Drive at velocity v, with the time and distance modes as given. */
  function NewDrive(v: real, timeSet: bool, distanceSet: bool, time: real, distance: real): DriveState
  {
    DriveState(v, false, timeSet, distanceSet, time, distance, Retarget(DRIVE_PID, v), CLEAR)
  }

  /** setDesiredVelocity. */
  function DriveAt(s: DriveState, v: real): DriveState
  {
    s.(desired := v, pid := Retarget(s.pid, v), finished := false)
  }

  /** setDesiredTime. */
  function DriveFor(s: DriveState, t: real): DriveState
  {
    s.(timeSet := true, time := t, finished := false)
  }

  /** setDesiredDistance. */
  function DriveOver(s: DriveState, d: real): DriveState
  {
    s.(distanceSet := true, distance := d, finished := false)
  }

  /**
   * The countdowns of update: an unfinished drive spends DT of its time and
   * |speed|·DT of its distance, and a countdown that goes negative finishes
   * the drive, clears its own flag and drops the set point to 0.
   */
  function Countdown(s: DriveState, speed: real): DriveState
  {
    if s.finished then s
    else
      var t := if s.timeSet then s.time - Dynamics.DT else s.time;
      var timeUp := s.timeSet && t < 0.0;
      var d := if s.distanceSet then s.distance - Abs(speed) * Dynamics.DT else s.distance;
      var distanceUp := s.distanceSet && d < 0.0;
      s.(finished := timeUp || distanceUp,
         timeSet := s.timeSet && !timeUp,
         distanceSet := s.distanceSet && !distanceUp,
         time := t,
         distance := d,
         pid := if timeUp || distanceUp then Retarget(s.pid, 0.0) else s.pid)
  }

  /** One update: the countdowns, then the motor from the PID at the speed reading and no steering. */
  function DriveTick(s: DriveState, speed: real): DriveState
  {
    var c := Countdown(s, speed);
    c.(pid := Advance(c.pid, speed),
       out := c.out.(motor := Saturate(Control(c.pid, speed), MAX_MOTOR), steering := 0.0))
  }

  /** The drive after an update at each speed reading in turn. */
  function DriveRun(s: DriveState, speeds: seq<real>): DriveState
  {
    if speeds == [] then s else DriveTick(DriveRun(s, speeds[..|speeds| - 1]), speeds[|speeds| - 1])
  }

  /** Steering is always 0 and the motor is the clamped PID output, even once finished. */
  lemma DriveTickOutput(s: DriveState, speed: real)
    ensures DriveTick(s, speed).out.steering == 0.0
    ensures DriveTick(s, speed).out.arm == s.out.arm
    ensures DriveTick(s, speed).out.motor == Saturate(Control(Countdown(s, speed).pid, speed), MAX_MOTOR)
    ensures s.finished ==> DriveTick(s, speed).out.motor == Saturate(Control(s.pid, speed), MAX_MOTOR)
    ensures -MAX_MOTOR <= DriveTick(s, speed).out.motor <= MAX_MOTOR
  {
  }

  /** The time and distance rules of one unfinished tick. */
  lemma CountdownRules(s: DriveState, speed: real)
    requires !s.finished
    ensures var c := Countdown(s, speed);
      && (s.timeSet ==> c.time == s.time - Dynamics.DT)
      && (s.distanceSet ==> c.distance == s.distance - Abs(speed) * Dynamics.DT)
      && c.distance <= s.distance && c.time <= s.time
      && (c.finished <==> (s.timeSet && c.time < 0.0) || (s.distanceSet && c.distance < 0.0))
      && (c.timeSet <==> s.timeSet && c.time >= 0.0)
      && (c.distanceSet <==> s.distanceSet && c.distance >= 0.0)
      && (c.finished ==> c.pid.target == 0.0 && c.pid.intError == 0.0)
      && (!c.finished ==> c.pid == s.pid && c.timeSet == s.timeSet && c.distanceSet == s.distanceSet)
      && c.desired == s.desired
  {
  }

  /** Once finished, a drive stays finished, with its countdowns and set point frozen. */
  lemma {:induction false} FinishedDriveStays(s: DriveState, speeds: seq<real>)
    requires s.finished
    ensures var r := DriveRun(s, speeds);
      r.finished && r.timeSet == s.timeSet && r.distanceSet == s.distanceSet
      && r.time == s.time && r.distance == s.distance && r.desired == s.desired
      && r.pid.target == s.pid.target
    decreases |speeds|
  {
    if speeds != [] {
      FinishedDriveStays(s, speeds[..|speeds| - 1]);
    }
  }

  /** The time left of t after k ticks. */
  function TimeLeft(t: real, k: nat): real
  {
    t - k as real * Dynamics.DT
  }

  /**
   * How a timed run goes: while not finished it has spent DT per tick and
   * still has a non-negative time left.
   */
  lemma {:induction false} TimedRunSpends(s: DriveState, speeds: seq<real>)
    requires s.timeSet && !s.distanceSet && !s.finished && s.time >= 0.0
    ensures var r := DriveRun(s, speeds);
      !r.distanceSet
      && (!r.finished ==> r.timeSet && r.time == s.time - |speeds| as real * Dynamics.DT && r.time >= 0.0)
      && (r.finished ==> r.time < 0.0 && exists k :: 0 < k <= |speeds| && r.time == TimeLeft(s.time, k))
    decreases |speeds|
  {
    if speeds != [] {
      var front := speeds[..|speeds| - 1];
      TimedRunSpends(s, front);
      var p := DriveRun(s, front);
      if !p.finished {
        assert |speeds| as real * Dynamics.DT == |front| as real * Dynamics.DT + Dynamics.DT;
        var r := DriveRun(s, speeds);
        if r.finished {
          assert r.time == TimeLeft(s.time, |speeds|);
        }
      } else {
        FinishedDriveStays(p, [speeds[|speeds| - 1]]);
        assert DriveRun(p, [speeds[|speeds| - 1]]) == DriveRun(s, speeds) by {
          assert [speeds[|speeds| - 1]][..0] == [];
        }
      }
    }
  }

  /** A timed drive finishes after n ticks exactly when n·DT has exhausted its time. */
  lemma TimedDriveFinishes(s: DriveState, speeds: seq<real>)
    requires s.timeSet && !s.distanceSet && !s.finished && s.time >= 0.0
    ensures DriveRun(s, speeds).finished <==> |speeds| as real * Dynamics.DT > s.time
  {
    TimedRunSpends(s, speeds);
    var r := DriveRun(s, speeds);
    if r.finished {
      var k :| 0 < k <= |speeds| && r.time == TimeLeft(s.time, k);
      TicksMonotone(k, |speeds|);
    }
  }

  /** More ticks spend more time: the step of TimedDriveFinishes from the finishing tick to the whole run. */
  lemma TicksMonotone(k: nat, n: nat)
    requires k <= n
    ensures k as real * Dynamics.DT <= n as real * Dynamics.DT
  {
    assert Dynamics.DT == 0.02;
  }

  class Drive {
    var desiredVelocity: real
    var finished: bool
    const output: RobotOutput
    var distanceSetFlag: bool
    var timeSetFlag: bool
    const velocityPID: PID
    var distanceToTravel: real
    var time: real

    ghost function State(): DriveState
      reads this, output, velocityPID
    {
      DriveState(desiredVelocity, finished, timeSetFlag, distanceSetFlag, time, distanceToTravel,
                 velocityPID.State(), SettingOf(output))
    }

    /** Drive(sensor): the default velocity 100. */
    constructor Default()
      ensures fresh(output) && fresh(velocityPID)
      ensures State() == NewDrive(DRIVE_DEFAULT_VELOCITY, false, false, 0.0, 0.0)
    {
      desiredVelocity, finished, distanceSetFlag, timeSetFlag := DRIVE_DEFAULT_VELOCITY, false, false, false;
      distanceToTravel, time := 0.0, 0.0;
      output := new RobotOutput();
      velocityPID := new PID(5.0, 0.001, 0.01);
      new;
      velocityPID.SetSetPoint(desiredVelocity);
    }

    /** Drive(sensor, velocity): no countdown. */
    constructor (velocity: real)
      ensures fresh(output) && fresh(velocityPID)
      ensures State() == NewDrive(velocity, false, false, 0.0, 0.0)
    {
      desiredVelocity, finished, distanceSetFlag, timeSetFlag := velocity, false, false, false;
      distanceToTravel, time := 0.0, 0.0;
      output := new RobotOutput();
      velocityPID := new PID(5.0, 0.001, 0.01);
      new;
      velocityPID.SetSetPoint(desiredVelocity);
    }

    /** Drive(sensor, velocity, time): the time countdown. */
    constructor Timed(velocity: real, t: real)
      ensures fresh(output) && fresh(velocityPID)
      ensures State() == NewDrive(velocity, true, false, t, 0.0)
    {
      desiredVelocity, finished, distanceSetFlag, timeSetFlag := velocity, false, false, true;
      distanceToTravel, time := 0.0, t;
      output := new RobotOutput();
      velocityPID := new PID(5.0, 0.001, 0.01);
      new;
      velocityPID.SetSetPoint(desiredVelocity);
    }

    /** Drive(sensor, velocity, time, distance): both countdowns. */
    constructor TimedDistance(velocity: real, t: real, distance: real)
      ensures fresh(output) && fresh(velocityPID)
      ensures State() == NewDrive(velocity, true, true, t, distance)
    {
      desiredVelocity, finished, distanceSetFlag, timeSetFlag := velocity, false, true, true;
      distanceToTravel, time := distance, t;
      output := new RobotOutput();
      velocityPID := new PID(5.0, 0.001, 0.01);
      new;
      velocityPID.SetSetPoint(desiredVelocity);
    }

    method SetDesiredVelocity(velocity: real)
      modifies this, velocityPID
      ensures State() == DriveAt(old(State()), velocity)
    {
      desiredVelocity := velocity;
      velocityPID.SetSetPoint(desiredVelocity);
      finished := false;
    }

    method SetDesiredTime(t: real)
      modifies this
      ensures State() == DriveFor(old(State()), t)
    {
      timeSetFlag := true;
      time := t;
      finished := false;
    }

    method SetDesiredDistance(distance: real)
      modifies this
      ensures State() == DriveOver(old(State()), distance)
    {
      distanceSetFlag := true;
      distanceToTravel := distance;
      finished := false;
    }

    /** update, with the velocity sensor's reading as speed; the result is the drive's own output. */
    method Update(speed: real) returns (r: RobotOutput)
      modifies this, output, velocityPID
      ensures r == output
      ensures State() == DriveTick(old(State()), speed)
    {
      output.SetMotor(0.0);
      output.SetSteering(0.0);
      if !finished {
        if timeSetFlag {
          time := time - Dynamics.DT;
          if time < 0.0 {
            finished := true;
            timeSetFlag := false;
            velocityPID.SetSetPoint(0.0);
          }
        }
        if distanceSetFlag {
          distanceToTravel := distanceToTravel - Abs(speed) * Dynamics.DT;
          if distanceToTravel < 0.0 {
            finished := true;
            distanceSetFlag := false;
            velocityPID.SetSetPoint(0.0);
          }
        }
      }
      var u := velocityPID.UpdatePID(speed);
      output.SetMotor(u);
      r := output;
    }

    /** reset clears finished and nothing else. */
    method Reset()
      modifies this
      ensures State() == old(State()).(finished := false)
    {
      finished := false;
    }
  }

  // ---------------------------------------------------------------- RelativeTurn

  const TURN_DEFAULT_VELOCITY: real := 20.0
  const TURN_DEFAULT_PRECISION: real := PI / 64.0
  const TURN_RESET_PRECISION: real := PI / 32.0

  /** The heading controller both turns build. */
  const TURN_PID: PIDState := FreshPID(7.5, 0.05, 0.0)

  datatype TurnState = TurnState(finished: bool, manual: bool, desired: real, initial: real, initialized: bool,
                                 precision: real, steering: real, turnAngle: real, turnDirection: real,
                                 velocity: real, pid: PIDState, out: Setting)

  /** The direction the constructors give: +1 for a positive angle, else -1. */
  function InitialDirection(angle: real): real
  {
    if angle > 0.0 then 1.0 else -1.0
  }

  /** The direction setTurnAngle gives: -1 for a positive angle, else +1. */
  function RetargetDirection(angle: real): real
  {
    if angle > 0.0 then -1.0 else 1.0
  }

  /** The constructors and setTurnAngle disagree on the sign of the turn direction, for every angle. */
  lemma DirectionsDisagree(angle: real)
    ensures RetargetDirection(angle) == -InitialDirection(angle)
    ensures InitialDirection(angle) == 1.0 || InitialDirection(angle) == -1.0
  {
  }

  /** A new RelativeTurn: unlatched, unfinished, with the default controller. */
  function NewTurn(angle: real, precision: real, velocity: real, manual: bool, steering: real): TurnState
  {
    TurnState(false, manual, 0.0, 0.0, false, precision, steering, angle, InitialDirection(angle),
              velocity, TURN_PID, CLEAR)
  }

  /** setTurnAngle, at the compass heading. */
  function TurnBy(s: TurnState, angle: real, heading: real): TurnState
  {
    s.(initial := heading, desired := angle + heading, pid := Retarget(s.pid, angle + heading),
       turnDirection := RetargetDirection(angle), finished := false)
  }

  /** The latch of update: the first tick with the compass ready fixes the desired heading. */
  function Latch(s: TurnState, c: Compass): TurnState
  {
    if !s.initialized && c.ready then
      s.(initialized := true, finished := false, initial := c.heading, desired := c.heading + s.turnAngle,
         pid := Retarget(s.pid, c.heading + s.turnAngle))
    else s
  }

  /** The steering of update, after the latch. */
  function Steer(s: TurnState, heading: real): TurnState
  {
    if s.finished then s.(out := s.out.(motor := 0.0, steering := 0.0))
    else if Abs(heading - s.desired) < s.precision then s.(finished := true, out := s.out.(motor := 0.0, steering := 0.0))
    else if s.manual then
      s.(out := s.out.(motor := Saturate(s.velocity, MAX_MOTOR), steering := Saturate(s.steering * s.turnDirection, MAX_TURN)))
    else
      s.(pid := Advance(s.pid, heading),
         out := s.out.(motor := Saturate(s.velocity, MAX_MOTOR), steering := Saturate(Control(s.pid, heading), MAX_TURN)))
  }

  function TurnTick(s: TurnState, c: Compass): TurnState
  {
    Steer(Latch(s, c), c.heading)
  }

  /** A tick overwrites the motor and the steering, so their values before it do not matter. */
  lemma TickClearsOutput(s: TurnState, c: Compass)
    ensures TurnTick(s.(out := s.out.(motor := 0.0, steering := 0.0)), c) == TurnTick(s, c)
  {
  }

  /** The turn after an update at each compass reading in turn. */
  function TurnRun(s: TurnState, cs: seq<Compass>): TurnState
  {
    if cs == [] then s else TurnTick(TurnRun(s, cs[..|cs| - 1]), cs[|cs| - 1])
  }

  /** reset: precision pi/32, velocity 20, manual off, a fresh controller and output; the latch is kept. */
  function TurnReset(s: TurnState): TurnState
  {
    s.(finished := false, precision := TURN_RESET_PRECISION, pid := TURN_PID, velocity := TURN_DEFAULT_VELOCITY,
       manual := false, out := CLEAR)
  }

  /**
   * One tick: motor and steering start at 0; a finished turn, or one that
   * arrives within precision, outputs nothing; otherwise the motor is the
   * velocity and the steering the PID's or the manual steering times the
   * direction.  Only the latch moves the desired heading.
   */
  lemma TurnTickRules(s: TurnState, c: Compass)
    ensures var l := Latch(s, c); var r := TurnTick(s, c);
      && r.out.arm == s.out.arm
      && r.desired == l.desired && r.initial == l.initial && r.turnAngle == s.turnAngle
      && r.initialized == (s.initialized || c.ready)
      && (r.finished <==> l.finished || Abs(c.heading - l.desired) < l.precision)
      && (r.finished ==> r.out.motor == 0.0 && r.out.steering == 0.0 && r.pid == l.pid)
      && (!r.finished ==> r.out.motor == Saturate(s.velocity, MAX_MOTOR))
      && (!r.finished && s.manual ==> r.out.steering == Saturate(s.steering * s.turnDirection, MAX_TURN) && r.pid == l.pid)
      && (!r.finished && !s.manual ==> r.out.steering == Saturate(Control(l.pid, c.heading), MAX_TURN)
                                       && r.pid == Advance(l.pid, c.heading))
  {
  }

  /** Before the compass is ready the latch does not fire: turnAngle is kept and nothing is initialised. */
  lemma {:induction false} NoLatchUnready(s: TurnState, cs: seq<Compass>)
    requires !s.initialized
    requires forall i :: 0 <= i < |cs| ==> !cs[i].ready
    ensures !TurnRun(s, cs).initialized && TurnRun(s, cs).turnAngle == s.turnAngle
    ensures TurnRun(s, cs).desired == s.desired
    decreases |cs|
  {
    if cs != [] {
      NoLatchUnready(s, cs[..|cs| - 1]);
      assert !cs[|cs| - 1].ready;
    }
  }

  /**
   * The latch fires once: over a run whose first ready reading is the k-th,
   * the desired heading ends as that reading's heading plus turnAngle.
   */
  lemma {:induction false} LatchesOnce(s: TurnState, cs: seq<Compass>, k: nat)
    requires !s.initialized
    requires k < |cs| && cs[k].ready
    requires forall i :: 0 <= i < k ==> !cs[i].ready
    ensures TurnRun(s, cs).initialized
    ensures TurnRun(s, cs).desired == cs[k].heading + s.turnAngle
    ensures TurnRun(s, cs).initial == cs[k].heading
    decreases |cs|
  {
    var front := cs[..|cs| - 1];
    if |cs| == k + 1 {
      NoLatchUnready(s, front);
    } else {
      assert front[k] == cs[k];
      LatchesOnce(s, front, k);
    }
  }

  /**
   * After reset an already latched turn keeps its desired heading, but its
   * fresh controller targets heading 0, so PID steering no longer aims at it.
   */
  lemma ResetSteersToZero(s: TurnState, c: Compass)
    requires s.initialized
    requires Abs(c.heading - s.desired) >= TURN_RESET_PRECISION
    ensures TurnTick(TurnReset(s), c).desired == s.desired
    ensures TurnTick(TurnReset(s), c).out.steering == Saturate(Control(TURN_PID, c.heading), MAX_TURN)
    ensures TurnReset(s).pid.target == 0.0
  {
  }

  class RelativeTurn {
    var finished: bool
    var output: RobotOutput
    var turnPID: PID
    var manualSteeringFlag: bool
    var desiredHeading: real
    var initialHeading: real
    var initialized: bool
    var precision: real
    var steering: real
    var turnAngle: real
    var turnDirection: real
    var velocity: real

    ghost function State(): TurnState
      reads this, output, turnPID
    {
      TurnState(finished, manualSteeringFlag, desiredHeading, initialHeading, initialized, precision, steering,
                turnAngle, turnDirection, velocity, turnPID.State(), SettingOf(output))
    }

    /** RelativeTurn(compass): no turn, precision pi/64, velocity 20. */
    constructor Default()
      ensures fresh(output) && fresh(turnPID)
      ensures State() == NewTurn(0.0, TURN_DEFAULT_PRECISION, TURN_DEFAULT_VELOCITY, false, 0.0)
    {
      finished, manualSteeringFlag, initialized := false, false, false;
      desiredHeading, initialHeading, steering := 0.0, 0.0, 0.0;
      turnAngle, velocity, precision := 0.0, TURN_DEFAULT_VELOCITY, TURN_DEFAULT_PRECISION;
      turnDirection := InitialDirection(0.0);
      output := new RobotOutput();
      turnPID := new PID(7.5, 0.05, 0.0);
    }

    /** RelativeTurn(compass, angle). */
    constructor ByAngle(angle: real)
      ensures fresh(output) && fresh(turnPID)
      ensures State() == NewTurn(angle, TURN_DEFAULT_PRECISION, TURN_DEFAULT_VELOCITY, false, 0.0)
    {
      finished, manualSteeringFlag, initialized := false, false, false;
      desiredHeading, initialHeading, steering := 0.0, 0.0, 0.0;
      turnAngle, velocity, precision := angle, TURN_DEFAULT_VELOCITY, TURN_DEFAULT_PRECISION;
      turnDirection := if angle > 0.0 then 1.0 else -1.0;
      output := new RobotOutput();
      turnPID := new PID(7.5, 0.05, 0.0);
    }

    /** RelativeTurn(compass, angle, precision). */
    constructor Within(angle: real, tprecision: real)
      ensures fresh(output) && fresh(turnPID)
      ensures State() == NewTurn(angle, tprecision, TURN_DEFAULT_VELOCITY, false, 0.0)
    {
      finished, manualSteeringFlag, initialized := false, false, false;
      desiredHeading, initialHeading, steering := 0.0, 0.0, 0.0;
      turnAngle, velocity, precision := angle, TURN_DEFAULT_VELOCITY, tprecision;
      turnDirection := if angle > 0.0 then 1.0 else -1.0;
      output := new RobotOutput();
      turnPID := new PID(7.5, 0.05, 0.0);
    }

    /** RelativeTurn(compass, angle, precision, velocity): PID steering. */
    constructor (angle: real, tprecision: real, tvelocity: real)
      ensures fresh(output) && fresh(turnPID)
      ensures State() == NewTurn(angle, tprecision, tvelocity, false, 0.0)
    {
      finished, manualSteeringFlag, initialized := false, false, false;
      desiredHeading, initialHeading, steering := 0.0, 0.0, 0.0;
      turnAngle, velocity, precision := angle, tvelocity, tprecision;
      turnDirection := if angle > 0.0 then 1.0 else -1.0;
      output := new RobotOutput();
      turnPID := new PID(7.5, 0.05, 0.0);
    }

    /** RelativeTurn(compass, angle, precision, velocity, steering): manual steering. */
    constructor Manual(angle: real, tprecision: real, tvelocity: real, tsteering: real)
      ensures fresh(output) && fresh(turnPID)
      ensures State() == NewTurn(angle, tprecision, tvelocity, true, tsteering)
    {
      finished, manualSteeringFlag, initialized := false, true, false;
      desiredHeading, initialHeading, steering := 0.0, 0.0, tsteering;
      turnAngle, velocity, precision := angle, tvelocity, tprecision;
      turnDirection := if angle > 0.0 then 1.0 else -1.0;
      output := new RobotOutput();
      turnPID := new PID(7.5, 0.05, 0.0);
    }

    /** setTurnAngle, with the compass heading read at the call. */
    method SetTurnAngle(angle: real, heading: real)
      modifies this, turnPID
      ensures output == old(output) && turnPID == old(turnPID)
      ensures State() == TurnBy(old(State()), angle, heading)
    {
      initialHeading := heading;
      desiredHeading := angle + initialHeading;
      turnPID.SetSetPoint(desiredHeading);
      turnDirection := if angle > 0.0 then -1.0 else 1.0;
      finished := false;
    }

    /** update, with the compass reading c; the result is the turn's own output. */
    method Update(c: Compass) returns (r: RobotOutput)
      modifies this, output, turnPID
      ensures r == output && output == old(output) && turnPID == old(turnPID)
      ensures State() == TurnTick(old(State()), c)
    {
      ghost var s0 := State();
      output.SetMotor(0.0);
      output.SetSteering(0.0);
      ghost var s1 := State();
      assert s1 == s0.(out := s0.out.(motor := 0.0, steering := 0.0));
      LatchHeading(c);
      assert State() == Latch(s1, c);
      SteerTowards(c.heading);
      TickClearsOutput(s0, c);
      r := output;
    }

    /** The first half of update: latch the desired heading once the compass is ready. */
    method LatchHeading(c: Compass)
      modifies this, turnPID
      ensures output == old(output) && turnPID == old(turnPID)
      ensures State() == Latch(old(State()), c)
    {
      if !initialized && c.ready {
        initialized := true;
        finished := false;
        initialHeading := c.heading;
        desiredHeading := initialHeading + turnAngle;
        turnPID.SetSetPoint(desiredHeading);
      }
    }

    /** The second half of update, on an output whose motor and steering are 0. */
    method SteerTowards(heading: real)
      requires output.motor == 0.0 && output.steering == 0.0
      modifies this, output, turnPID
      ensures output == old(output) && turnPID == old(turnPID)
      ensures State() == Steer(old(State()), heading)
    {
      if !finished {
        var currentHeading := heading;
        if Abs(currentHeading - desiredHeading) < precision {
          finished := true;
        } else {
          output.SetMotor(velocity);
          if !manualSteeringFlag {
            var u := turnPID.UpdatePID(currentHeading);
            output.SetSteering(u);
          } else {
            output.SetSteering(steering * turnDirection);
          }
        }
      }
    }

    /** reset: a fresh output and controller, and the defaults; initialized is not cleared. */
    method Reset()
      modifies this
      ensures fresh(output) && fresh(turnPID)
      ensures State() == TurnReset(old(State()))
    {
      finished := false;
      output := new RobotOutput();
      precision := TURN_RESET_PRECISION;
      turnPID := new PID(7.5, 0.05, 0.0);
      velocity := TURN_DEFAULT_VELOCITY;
      manualSteeringFlag := false;
    }
  }

  // ---------------------------------------------------------------- AbsoluteTurn

  datatype AbsTurnState = AbsTurnState(finished: bool, manual: bool, desired: real, initial: real,
                                       motorVelocity: real, precision: real, turnAngle: real,
                                       turnDirection: real, turnVelocity: real, pid: PIDState, out: Setting)

  /** setTurnAngle(a): the absolute heading a, and the direction -1 when a lies above the current heading. */
  function AbsTurnTo(s: AbsTurnState, angle: real, heading: real): AbsTurnState
  {
    s.(initial := heading, turnAngle := angle, desired := angle, pid := Retarget(s.pid, angle),
       turnDirection := if angle - heading > 0.0 then -1.0 else 1.0, finished := false)
  }

  /** A new AbsoluteTurn: the constructor's fields, then setTurnAngle at the heading read then. */
  function NewAbsTurn(angle: real, precision: real, motorVelocity: real, manual: bool, turnVelocity: real,
                      heading: real): AbsTurnState
  {
    AbsTurnTo(AbsTurnState(false, manual, 0.0, 0.0, motorVelocity, precision, 0.0, 0.0, turnVelocity, TURN_PID, CLEAR),
              angle, heading)
  }

  /** update: the motor is the motor velocity on every tick; steering only while unfinished and away. */
  function AbsTick(s: AbsTurnState, heading: real): AbsTurnState
  {
    var base := s.out.(motor := Saturate(s.motorVelocity, MAX_MOTOR), steering := 0.0);
    if s.finished then s.(out := base)
    else if Abs(s.desired - heading) < s.precision then s.(finished := true, out := base)
    else if s.manual then s.(out := base.(steering := Saturate(s.turnDirection * s.turnVelocity, MAX_TURN)))
    else s.(pid := Advance(s.pid, heading), out := base.(steering := Saturate(Control(s.pid, heading), MAX_TURN)))
  }

  function AbsRun(s: AbsTurnState, hs: seq<real>): AbsTurnState
  {
    if hs == [] then s else AbsTick(AbsRun(s, hs[..|hs| - 1]), hs[|hs| - 1])
  }

  /** reset: precision pi/32, motor velocity 20, manual off, a fresh controller and output. */
  function AbsReset(s: AbsTurnState): AbsTurnState
  {
    s.(finished := false, precision := TURN_RESET_PRECISION, pid := TURN_PID, motorVelocity := TURN_DEFAULT_VELOCITY,
       manual := false, out := CLEAR)
  }

  /** setTurnAngle aims at the absolute angle, with direction -1 exactly when it lies above the heading. */
  lemma AbsTurnToRules(s: AbsTurnState, angle: real, heading: real)
    ensures AbsTurnTo(s, angle, heading).desired == angle && !AbsTurnTo(s, angle, heading).finished
    ensures AbsTurnTo(s, angle, heading).pid.target == angle && AbsTurnTo(s, angle, heading).pid.intError == 0.0
    ensures AbsTurnTo(s, angle, heading).turnDirection == -1.0 <==> angle > heading
    ensures AbsTurnTo(s, angle, heading).turnDirection == 1.0 <==> angle <= heading
  {
  }

  /**
   * One tick: the turn finishes when the heading is within precision; the
   * motor is the motor velocity either way; while unfinished the steering is
   * the manual one or the PID's.
   */
  lemma AbsTickRules(s: AbsTurnState, heading: real)
    ensures var r := AbsTick(s, heading);
      && r.out.motor == Saturate(s.motorVelocity, MAX_MOTOR) && r.out.arm == s.out.arm
      && (r.finished <==> s.finished || Abs(s.desired - heading) < s.precision)
      && (r.finished ==> r.out.steering == 0.0 && r.pid == s.pid)
      && (!r.finished && s.manual ==> r.out.steering == Saturate(s.turnDirection * s.turnVelocity, MAX_TURN))
      && (!r.finished && !s.manual ==> r.out.steering == Saturate(Control(s.pid, heading), MAX_TURN))
      && r.desired == s.desired
  {
  }

  /** Once finished, an absolute turn stays finished with steering 0 and the motor at the motor velocity. */
  lemma {:induction false} AbsFinishedStays(s: AbsTurnState, hs: seq<real>)
    requires s.finished
    ensures AbsRun(s, hs).finished && AbsRun(s, hs).pid == s.pid && AbsRun(s, hs).desired == s.desired
    ensures AbsRun(s, hs).motorVelocity == s.motorVelocity
    ensures hs != [] ==> AbsRun(s, hs).out.steering == 0.0
                         && AbsRun(s, hs).out.motor == Saturate(s.motorVelocity, MAX_MOTOR)
    decreases |hs|
  {
    if hs != [] {
      AbsFinishedStays(s, hs[..|hs| - 1]);
    }
  }

  class AbsoluteTurn {
    var finished: bool
    var output: RobotOutput
    var turnPID: PID
    var manualVelocityFlag: bool
    var desiredHeading: real
    var initialHeading: real
    var motorVelocity: real
    var precision: real
    var turnAngle: real
    var turnDirection: real
    var turnVelocity: real

    ghost function State(): AbsTurnState
      reads this, output, turnPID
    {
      AbsTurnState(finished, manualVelocityFlag, desiredHeading, initialHeading, motorVelocity, precision,
                   turnAngle, turnDirection, turnVelocity, turnPID.State(), SettingOf(output))
    }

    /** AbsoluteTurn(compass): heading 0, precision pi/64, motor velocity 20. */
    constructor Default(heading: real)
      ensures fresh(output) && fresh(turnPID)
      ensures State() == NewAbsTurn(0.0, TURN_DEFAULT_PRECISION, TURN_DEFAULT_VELOCITY, false, 0.0, heading)
    {
      finished, manualVelocityFlag := false, false;
      desiredHeading, initialHeading, turnAngle, turnDirection, turnVelocity := 0.0, 0.0, 0.0, 0.0, 0.0;
      motorVelocity, precision := 0.0, 0.0;
      output := new RobotOutput();
      turnPID := new PID(7.5, 0.05, 0.0);
      new;
      SetTurnAngle(0.0, heading);
      precision := TURN_DEFAULT_PRECISION;
      motorVelocity := TURN_DEFAULT_VELOCITY;
    }

    /** AbsoluteTurn(compass, angle): precision pi/64, motor velocity 20. */
    constructor ByAngle(angle: real, heading: real)
      ensures fresh(output) && fresh(turnPID)
      ensures State() == NewAbsTurn(angle, TURN_DEFAULT_PRECISION, TURN_DEFAULT_VELOCITY, false, 0.0, heading)
    {
      finished, manualVelocityFlag := false, false;
      desiredHeading, initialHeading, turnAngle, turnDirection, turnVelocity := 0.0, 0.0, 0.0, 0.0, 0.0;
      motorVelocity, precision := 0.0, 0.0;
      output := new RobotOutput();
      turnPID := new PID(7.5, 0.05, 0.0);
      new;
      SetTurnAngle(angle, heading);
      precision := TURN_DEFAULT_PRECISION;
      motorVelocity := TURN_DEFAULT_VELOCITY;
    }

    /** AbsoluteTurn(compass, angle, precision). */
    constructor Within(angle: real, tprecision: real, heading: real)
      ensures fresh(output) && fresh(turnPID)
      ensures State() == NewAbsTurn(angle, tprecision, TURN_DEFAULT_VELOCITY, false, 0.0, heading)
    {
      finished, manualVelocityFlag := false, false;
      desiredHeading, initialHeading, turnAngle, turnDirection, turnVelocity := 0.0, 0.0, 0.0, 0.0, 0.0;
      motorVelocity, precision := 0.0, 0.0;
      output := new RobotOutput();
      turnPID := new PID(7.5, 0.05, 0.0);
      new;
      SetTurnAngle(angle, heading);
      precision := tprecision;
      motorVelocity := TURN_DEFAULT_VELOCITY;
    }

    /** AbsoluteTurn(compass, angle, precision, motorVelocity), with the compass heading at construction. */
    constructor (angle: real, tprecision: real, tmotorVelocity: real, heading: real)
      ensures fresh(output) && fresh(turnPID)
      ensures State() == NewAbsTurn(angle, tprecision, tmotorVelocity, false, 0.0, heading)
    {
      finished, manualVelocityFlag := false, false;
      desiredHeading, initialHeading, turnAngle, turnDirection, turnVelocity := 0.0, 0.0, 0.0, 0.0, 0.0;
      motorVelocity, precision := 0.0, 0.0;
      output := new RobotOutput();
      turnPID := new PID(7.5, 0.05, 0.0);
      new;
      SetTurnAngle(angle, heading);
      precision := tprecision;
      manualVelocityFlag := false;
      motorVelocity := tmotorVelocity;
    }

    /** AbsoluteTurn(compass, angle, precision, motorVelocity, turnVelocity): manual steering. */
    constructor Manual(angle: real, tprecision: real, tmotorVelocity: real, tturnVelocity: real, heading: real)
      ensures fresh(output) && fresh(turnPID)
      ensures State() == NewAbsTurn(angle, tprecision, tmotorVelocity, true, tturnVelocity, heading)
    {
      finished, manualVelocityFlag := false, false;
      desiredHeading, initialHeading, turnAngle, turnDirection, turnVelocity := 0.0, 0.0, 0.0, 0.0, 0.0;
      motorVelocity, precision := 0.0, 0.0;
      output := new RobotOutput();
      turnPID := new PID(7.5, 0.05, 0.0);
      new;
      SetTurnAngle(angle, heading);
      precision := tprecision;
      manualVelocityFlag := true;
      motorVelocity := tmotorVelocity;
      turnVelocity := tturnVelocity;
    }

    method SetTurnAngle(angle: real, heading: real)
      modifies this, turnPID
      ensures output == old(output) && turnPID == old(turnPID)
      ensures State() == AbsTurnTo(old(State()), angle, heading)
    {
      initialHeading := heading;
      turnAngle := angle;
      desiredHeading := turnAngle;
      turnPID.SetSetPoint(desiredHeading);
      turnDirection := if turnAngle - initialHeading > 0.0 then -1.0 else 1.0;
      finished := false;
    }

    method Update(heading: real) returns (r: RobotOutput)
      modifies this, output, turnPID
      ensures r == output && output == old(output) && turnPID == old(turnPID)
      ensures State() == AbsTick(old(State()), heading)
    {
      output.SetMotor(motorVelocity);
      output.SetSteering(0.0);
      if !finished {
        var currentHeading := heading;
        if Abs(desiredHeading - currentHeading) < precision {
          finished := true;
        } else {
          if manualVelocityFlag {
            output.SetSteering(turnDirection * turnVelocity);
          } else {
            var u := turnPID.UpdatePID(currentHeading);
            output.SetSteering(u);
          }
        }
      }
      r := output;
    }

    method Reset()
      modifies this
      ensures fresh(output) && fresh(turnPID)
      ensures State() == AbsReset(old(State()))
    {
      finished := false;
      output := new RobotOutput();
      precision := TURN_RESET_PRECISION;
      turnPID := new PID(7.5, 0.05, 0.0);
      motorVelocity := TURN_DEFAULT_VELOCITY;
      manualVelocityFlag := false;
    }
  }
}
