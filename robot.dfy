/**
 * simulation.entities.Robot: a rectangular rigid body driven by a user
 * script, with a velocity, a circular cup-collection area kept 60 units in
 * front of it, the arm's progress and the cups it holds.  The script itself
 * is outside the model; what is kept is how its class name is read from the
 * script text and how the faults of its update call are reported.
 */
module Robots {
  import opened Numerics
  import opened Geometry
  import opened Entities
  import opened RigidBodies
  import opened Cups
  import opened RobotOutputs
  import opened Wrappers
  import opened ClassNames

  const DEFAULT_LENGTH: real := 60.0
  const DEFAULT_MASS: real := 100.0
  const DEFAULT_POWER: real := 200.0
  const DEFAULT_WIDTH: real := 30.0
  const NULL_REFERENCE_FOUND: string := "Null reference found"
  const UNKNOWN_ISSUE_CAUGHT: string := "Unknown Issue caught."
  /** Where the collection area sits relative to the robot's centre of mass, before turning. */
  const COLLECTION_OFFSET: Point := Point(0.0, -60.0)
  const COLLECTION_RADIUS: real := 50.0

  // ---------------------------------------------------------------------
  // Faults of the script's update
  // ---------------------------------------------------------------------

  /** What the script's update call can throw. */
  datatype Fault = NullReference | Raised(message: string) | OtherException(message: string)

  /** How the script's update call ended: with its output object, or by throwing. */
  datatype BrainOutcome = Returned(output: RobotOutput) | Threw(fault: Fault)

  /** The message of the ScriptException that update throws for a fault. */
  function FaultMessage(f: Fault): (m: string)
    ensures f.NullReference? ==> m == NULL_REFERENCE_FOUND
    ensures f.Raised? ==> m == f.message
    ensures f.OtherException? ==> m == UNKNOWN_ISSUE_CAUGHT + ": " + f.message
  {
    match f
    case NullReference => NULL_REFERENCE_FOUND
    case Raised(msg) => msg
    case OtherException(msg) => UNKNOWN_ISSUE_CAUGHT + ": " + msg
  }

  /** update(): the script's output when it returns, otherwise the fault's message as an error. */
  function Update(outcome: BrainOutcome): (r: Result<RobotOutput>)
    ensures r.Ok? <==> outcome.Returned?
    ensures r.Ok? ==> r.value == outcome.output
    ensures r.Err? ==> r.error == FaultMessage(outcome.fault)
  {
    match outcome
    case Returned(out) => Ok(out)
    case Threw(f) => Err(FaultMessage(f))
  }

  /** Any other exception is reported under the "Unknown Issue caught." prefix, and a Ruby raise by its own message. */
  lemma UnknownIssuesArePrefixed(msg: string)
    ensures UNKNOWN_ISSUE_CAUGHT <= Update(Threw(OtherException(msg))).error
    ensures Update(Threw(Raised(msg))).error == msg
  {
  }

  // ---------------------------------------------------------------------
  // The robot
  // ---------------------------------------------------------------------

  /** The body of a robot: the width by length rectangle centred on the location, then turned by the angle. */
  function RobotBody(location: Point, width: real, length: real, angle: real): (b: Pose)
    ensures b.com == location && b.angle == angle
  {
    ShapeBody(Rect(location.x - width / 2.0, location.y - length / 2.0, width, length), location).Rotate(angle)
  }

  /** Where the centre of the collection area belongs for a robot at com turned through angle. */
  function CollectionSpot(lib: Lib, com: Point, angle: real): Point
  {
    AdjustOffsetLocation(lib, com, COLLECTION_OFFSET, -angle)
  }

  /** The collection area: the radius-50 circle placed at a spot; placing never turns it. */
  function CollectionAreaAt(spot: Point): (c: Pose)
    ensures c.com == spot && c.angle == 0.0
  {
    CircleBody(0.0, 0.0, COLLECTION_RADIUS).Place(spot.x, spot.y)
  }

  class Robot {
    var pose: Pose
    var velocity: real
    var collectionProgress: real
    var collection: Pose
    var heldItems: seq<Cup>
    const width: real
    const length: real
    const power: real
    const mass: real
    const name: string
    const className: string

    /** The collection area is where the robot's centre of mass and angle put it, and unturned. */
    predicate Attached(lib: Lib)
      reads this
    {
      collection.com == CollectionSpot(lib, pose.com, pose.angle) && collection.angle == 0.0
    }

    /**
     * The constructor once the script's class name is known: the body built
     * and turned, the collection area placed in front of it, at rest, with
     * nothing held.
     */
    constructor (lib: Lib, className: string, name: string, location: Point, angle: real,
                 width: real, length: real, power: real, mass: real)
      ensures Attached(lib)
      ensures pose == RobotBody(location, width, length, angle)
      ensures collection == CollectionAreaAt(CollectionSpot(lib, location, angle))
      ensures velocity == 0.0 && collectionProgress == 0.0 && heldItems == []
      ensures this.className == className && this.name == name
      ensures this.width == width && this.length == length && this.power == power && this.mass == mass
    {
      var body := ShapeBody(Rect(location.x - width / 2.0, location.y - length / 2.0, width, length), location);
      body := body.Rotate(angle);
      pose := body;
      collection := CircleBody(0.0, 0.0, COLLECTION_RADIUS).Place(CollectionSpot(lib, body.com, body.angle).x,
                                                              CollectionSpot(lib, body.com, body.angle).y);
      velocity, collectionProgress, heldItems := 0.0, 0.0, [];
      this.className, this.name := className, name;
      this.width, this.length, this.power, this.mass := width, length, power, mass;
    }

    /**
     * Robot(robot): a robot rebuilt from the other's centre of mass, angle,
     * sizes and script, at rest and with its arm progress at 0, holding new
     * copies of the other's cups.
     */
    constructor Copy(lib: Lib, other: Robot)
      ensures Attached(lib)
      ensures pose == RobotBody(other.pose.com, other.width, other.length, other.pose.angle)
      ensures velocity == 0.0 && collectionProgress == 0.0
      ensures className == other.className && name == other.name
      ensures width == other.width && length == other.length && power == other.power && mass == other.mass
      ensures |heldItems| == |other.heldItems|
      ensures forall i :: 0 <= i < |heldItems| ==> fresh(heldItems[i])
      ensures forall i :: 0 <= i < |heldItems| ==>
                heldItems[i].pose == other.heldItems[i].pose
                && heldItems[i].full == other.heldItems[i].full && heldItems[i].upright == other.heldItems[i].upright
    {
      var body := RobotBody(other.pose.com, other.width, other.length, other.pose.angle);
      var copies: seq<Cup> := [];
      var i := 0;
      while i < |other.heldItems|
        invariant 0 <= i <= |other.heldItems| && |copies| == i
        invariant forall k :: 0 <= k < i ==> fresh(copies[k])
        invariant forall k :: 0 <= k < i ==>
                    copies[k].pose == other.heldItems[k].pose
                    && copies[k].full == other.heldItems[k].full && copies[k].upright == other.heldItems[k].upright
      {
        var c := new Cup.Copy(other.heldItems[i]);
        copies := copies + [c];
        i := i + 1;
      }
      pose := body;
      collection := CollectionAreaAt(CollectionSpot(lib, body.com, body.angle));
      velocity, collectionProgress, heldItems := 0.0, 0.0, copies;
      className, name := other.className, other.name;
      width, length, power, mass := other.width, other.length, other.power, other.mass;
    }

    method SetVelocity(v: real)
      modifies this
      ensures velocity == v
      ensures pose == old(pose) && collection == old(collection) && heldItems == old(heldItems)
      ensures collectionProgress == old(collectionProgress)
    {
      velocity := v;
    }

    method SetCollectionProgress(p: real)
      modifies this
      ensures collectionProgress == p
      ensures pose == old(pose) && collection == old(collection) && heldItems == old(heldItems)
      ensures velocity == old(velocity)
    {
      collectionProgress := p;
    }

    /** addHeldItem: the cup goes at the end of the held items. */
    method AddHeldItem(cup: Cup)
      modifies this
      ensures heldItems == old(heldItems) + [cup]
      ensures pose == old(pose) && collection == old(collection)
      ensures velocity == old(velocity) && collectionProgress == old(collectionProgress)
    {
      heldItems := heldItems + [cup];
    }

    /** setShape(newShape): the body becomes the new one and the collection area follows it. */
    method SetShape(lib: Lib, newShape: Pose)
      modifies this
      ensures pose == newShape
      ensures collection == old(collection).Place(CollectionSpot(lib, newShape.com, newShape.angle).x,
                                                  CollectionSpot(lib, newShape.com, newShape.angle).y)
      ensures old(collection.angle) == 0.0 ==> Attached(lib)
      ensures velocity == old(velocity) && collectionProgress == old(collectionProgress) && heldItems == old(heldItems)
    {
      pose := newShape;
      var spot := AdjustOffsetLocation(lib, newShape.com, COLLECTION_OFFSET, -newShape.angle);
      collection := collection.Place(spot.x, spot.y);
    }

    /** place(x, y): the body moved to (x, y) and the collection area with it. */
    method Place(lib: Lib, x: real, y: real)
      modifies this
      ensures pose == old(pose).Place(x, y)
      ensures collection == old(collection).Place(CollectionSpot(lib, Point(x, y), old(pose.angle)).x,
                                                  CollectionSpot(lib, Point(x, y), old(pose.angle)).y)
      ensures old(collection.angle) == 0.0 ==> Attached(lib)
      ensures velocity == old(velocity) && collectionProgress == old(collectionProgress) && heldItems == old(heldItems)
    {
      pose := pose.Place(x, y);
      var spot := AdjustOffsetLocation(lib, Point(x, y), COLLECTION_OFFSET, -pose.angle);
      collection := collection.Place(spot.x, spot.y);
    }

    /** getGlancingThreshold: atan2(width, length). */
    function GlancingThreshold(lib: Lib): real
      reads this
    {
      lib.atan2(width, length)
    }
  }

  /**
   * The nine-argument constructor: the class name read from the script, then
   * the robot built; a script without a usable class line fails with the
   * message the constructor's ScriptException carries.
   */
  method Load(lib: Lib, script: seq<string>, name: string, location: Point, angle: real,
              width: real, length: real, power: real, mass: real) returns (r: Result<Robot>)
    ensures r.Err? <==> ScriptClassName(script).Err?
    ensures r.Err? ==> r.error == ScriptClassName(script).error
    ensures r.Ok? ==> fresh(r.value) && r.value.Attached(lib) && r.value.className == ScriptClassName(script).value
    ensures r.Ok? ==> r.value.pose == RobotBody(location, width, length, angle)
    ensures r.Ok? ==> r.value.width == width && r.value.length == length && r.value.power == power && r.value.mass == mass
  {
    var cls := ReadClassName(script);
    if cls.Err? {
      return Err(cls.error);
    }
    var robot := new Robot(lib, cls.value, name, location, angle, width, length, power, mass);
    return Ok(robot);
  }

  /** The four-argument constructor: width 30, length 60, power 200 and mass 100. */
  method LoadWithDefaults(lib: Lib, script: seq<string>, name: string, location: Point, angle: real)
    returns (r: Result<Robot>)
    ensures r.Err? <==> ScriptClassName(script).Err?
    ensures r.Ok? ==> fresh(r.value) && r.value.Attached(lib)
    ensures r.Ok? ==> r.value.width == DEFAULT_WIDTH && r.value.length == DEFAULT_LENGTH
                      && r.value.power == DEFAULT_POWER && r.value.mass == DEFAULT_MASS
  {
    r := Load(lib, script, name, location, angle, DEFAULT_WIDTH, DEFAULT_LENGTH, DEFAULT_POWER, DEFAULT_MASS);
  }

}
