/**
 * simulation.entities.RobotOutput: what a robot's script asks for each
 * frame, the arm flag, a motor setting saturated at +-100 and a steering
 * setting saturated at +-15.
 */
module RobotOutputs {

  const MAX_MOTOR: real := 100.0
  const MAX_TURN: real := 15.0

  /**
   * The nested conditional of setMotor and setSteering: a value below the
   * limit and above its negation is kept, anything else saturates.
   */
  function Saturate(x: real, limit: real): (r: real)
    requires limit >= 0.0
    ensures -limit <= r <= limit
    ensures -limit <= x <= limit ==> r == x
    ensures x > limit ==> r == limit
    ensures x < -limit ==> r == -limit
  {
    if x < limit then (if x > -limit then x else -limit) else limit
  }

  /** Saturating twice is saturating once. */
  lemma SaturateIdempotent(x: real, limit: real)
    requires limit >= 0.0
    ensures Saturate(Saturate(x, limit), limit) == Saturate(x, limit)
  {
  }

  /** Saturation keeps the order of its inputs. */
  lemma SaturateMonotone(x: real, y: real, limit: real)
    requires limit >= 0.0 && x <= y
    ensures Saturate(x, limit) <= Saturate(y, limit)
  {
  }

  /** Saturation is odd: it commutes with negation. */
  lemma SaturateOdd(x: real, limit: real)
    requires limit >= 0.0
    ensures Saturate(-x, limit) == -Saturate(x, limit)
  {
  }

  class RobotOutput {
    var armActive: bool
    var motor: real
    var steering: real

    /** Both settings stay within their limits. */
    predicate Valid()
      reads this
    {
      -MAX_MOTOR <= motor <= MAX_MOTOR && -MAX_TURN <= steering <= MAX_TURN
    }

    /** A new output: arm off, motor and steering 0, as Java's field defaults. */
    constructor ()
      ensures Valid()
      ensures !armActive && motor == 0.0 && steering == 0.0
    {
      armActive, motor, steering := false, 0.0, 0.0;
    }

    method SetArm(arm: bool)
      modifies this
      ensures armActive == arm && motor == old(motor) && steering == old(steering)
    {
      armActive := arm;
    }

    /** setMotor: the request saturated at MAX_MOTOR. */
    method SetMotor(m: real)
      modifies this
      ensures motor == Saturate(m, MAX_MOTOR)
      ensures armActive == old(armActive) && steering == old(steering)
      ensures old(Valid()) ==> Valid()
    {
      motor := if m < MAX_MOTOR then (if m > -MAX_MOTOR then m else -MAX_MOTOR) else MAX_MOTOR;
    }

    /** setSteering: the request saturated at MAX_TURN. */
    method SetSteering(s: real)
      modifies this
      ensures steering == Saturate(s, MAX_TURN)
      ensures armActive == old(armActive) && motor == old(motor)
      ensures old(Valid()) ==> Valid()
    {
      steering := if s < MAX_TURN then (if s > -MAX_TURN then s else -MAX_TURN) else MAX_TURN;
    }
  }

  /** Requests of 250 and -3 come out as 100 and -3. */
  method SetBoth() returns (motor: real, steering: real)
    ensures motor == MAX_MOTOR && steering == -3.0
  {
    var out := new RobotOutput();
    out.SetMotor(250.0);
    out.SetSteering(-3.0);
    motor, steering := out.motor, out.steering;
  }
}
