/**
 * RobotRadar of simulation.sensors: a circle of radius maxRange about its host
 * that reports the distance and bearing of another robot inside it, with three
 * display rings and a sweep line that advance every frame.
 *
 * The source's analyse keeps its candidate in an array `temp` that is the very
 * array `output` it is compared with, so the comparison always succeeds and
 * the radar reports the LAST robot in range rather than the nearest.  The
 * model keeps both: Analyse is the code as written, AnalyseNearest the
 * comparison against a separate best-so-far that the code evidently intends.
 */
module Radar {
  import opened Numerics
  import opened Geometry
  import opened Points
  import opened Wrappers
  import opened Entities
  import opened RigidBodies
  import opened Robots
  import Dynamics

  const RADAR_MAX: real := 300.0
  /** How far each display ring grows per frame: 20 * DT. */
  const RING_STEP: real := 20.0 * Dynamics.DT
  /** How far the sweep line turns per frame: 4 * DT. */
  const SWEEP_STEP: real := 4.0 * Dynamics.DT

  /**
   * A ring (or the sweep angle) after one frame: back to 0 once past the
   * limit, otherwise one step further; so it stays within [0, limit + step].
   */
  function Sweep(r: real, limit: real, step: real): (s: real)
    ensures 0.0 <= step && 0.0 <= r <= limit + step ==> 0.0 <= s <= limit + step
    ensures r <= limit ==> s - r == step
    ensures r > limit ==> s == 0.0
  {
    if r > limit then 0.0 else r + step
  }

  /** A robot on the radar: its distance, its bearing less the host's heading, and its centre. */
  datatype Contact = Contact(dist: real, bearing: real, at: Point)

  /** How the radar sees one body: in range and not the host, or nothing. */
  function Sighted(lib: Lib, range: Region, location: Point, offsetAngle: real, isHost: bool, body: Pose): Option<Contact>
  {
    if !isHost && Intersects(lib, range, body.region) then
      Some(Contact(Distance(lib, location, body.com), AngleTo(lib, location, body.com) - offsetAngle, body.com))
    else None
  }

  /** The robots in list order as the analyse loop sees them. */
  function RadarContacts(lib: Lib, range: Region, location: Point, offsetAngle: real, host: Robot?, robots: seq<Robot>)
    : (cs: seq<Option<Contact>>)
    reads robots
  {
    seq(|robots|, i requires 0 <= i < |robots| reads robots =>
      Sighted(lib, range, location, offsetAngle, robots[i] == host, robots[i].pose))
  }

  /** The loop as written, from index i holding cur: every contact replaces what is held. */
  function LastFrom(cs: seq<Option<Contact>>, i: nat, cur: Contact): Contact
    requires i <= |cs|
    decreases |cs| - i
  {
    if i == |cs| then cur
    else if cs[i].Some? then LastFrom(cs, i + 1, cs[i].value)
    else LastFrom(cs, i + 1, cur)
  }

  /** The loop as intended, from index i holding cur: a contact replaces what is held when it is no farther. */
  function NearestFrom(cs: seq<Option<Contact>>, i: nat, cur: Contact): Contact
    requires i <= |cs|
    decreases |cs| - i
  {
    if i == |cs| then cur
    else if cs[i].Some? && cs[i].value.dist <= cur.dist then NearestFrom(cs, i + 1, cs[i].value)
    else NearestFrom(cs, i + 1, cur)
  }

  /**
   * The loop as written keeps init when no robot is in range, and otherwise
   * the contact of the last robot in range.
   */
  lemma {:induction false} LastFromIsLast(cs: seq<Option<Contact>>, i: nat, cur: Contact)
    requires i <= |cs|
    decreases |cs| - i
    ensures (forall j :: i <= j < |cs| ==> cs[j].None?) ==> LastFrom(cs, i, cur) == cur
    ensures forall k :: i <= k < |cs| && cs[k].Some? && (forall j :: k < j < |cs| ==> cs[j].None?) ==>
              LastFrom(cs, i, cur) == cs[k].value
  {
    if i < |cs| {
      if cs[i].Some? {
        LastFromIsLast(cs, i + 1, cs[i].value);
      } else {
        LastFromIsLast(cs, i + 1, cur);
      }
    }
  }

  /**
   * The loop as intended keeps a contact no farther than init and than every
   * robot in range, and it is init or one of the contacts.
   */
  lemma {:induction false} NearestFromIsNearest(cs: seq<Option<Contact>>, i: nat, cur: Contact)
    requires i <= |cs|
    decreases |cs| - i
    ensures NearestFrom(cs, i, cur).dist <= cur.dist
    ensures forall j :: i <= j < |cs| && cs[j].Some? ==> NearestFrom(cs, i, cur).dist <= cs[j].value.dist
    ensures NearestFrom(cs, i, cur) == cur || exists j :: i <= j < |cs| && cs[j] == Some(NearestFrom(cs, i, cur))
  {
    if i < |cs| {
      var next := if cs[i].Some? && cs[i].value.dist <= cur.dist then cs[i].value else cur;
      NearestFromIsNearest(cs, i + 1, next);
    }
  }

  /**
   * The two loops part ways as soon as a nearer robot comes before a farther
   * one: the code as written reports the farther one.
   */
  lemma LastIsNotNearest()
    ensures var near := Contact(10.0, 0.5, Point(10.0, 0.0));
            var far := Contact(50.0, 1.0, Point(50.0, 0.0));
            var init := Contact(RADAR_MAX, 0.0, Point(0.0, 0.0));
            LastFrom([Some(near), Some(far)], 0, init) == far
            && NearestFrom([Some(near), Some(far)], 0, init) == near
  {
    var near := Contact(10.0, 0.5, Point(10.0, 0.0));
    var far := Contact(50.0, 1.0, Point(50.0, 0.0));
    var cs := [Some(near), Some(far)];
    assert LastFrom(cs, 1, near) == LastFrom(cs, 2, far) == far;
    assert NearestFrom(cs, 1, near) == NearestFrom(cs, 2, near) == near;
  }

  /** The translations wrapped round a region, summed. */
  function Offset(r: Region): Point
  {
    match r
    case Translated(b, dx, dy) => var o := Offset(b); Point(o.x + dx, o.y + dy)
    case _ => Point(0.0, 0.0)
  }

  /** The region inside its translations. */
  function Untranslated(r: Region): Region
  {
    match r
    case Translated(b, _, _) => Untranslated(b)
    case _ => r
  }

  /** The range circle sits at o: a circle of radius maxRange about the origin, translated by o. */
  predicate CentredAt(range: Region, maxRange: real, o: Point)
  {
    Untranslated(range) == Circle(0.0, 0.0, maxRange) && Offset(range) == o
  }

  /** A radar mounted on a robot. */
  class RobotRadar {
    var offsetLocation: Point
    var endPoint: Point
    /** The centre of mass setObject lends the range circle before placing it; place overwrites it. */
    var origin: Point
    var radarAngle: real
    var radarRing1: real
    var radarRing2: real
    var radarRing3: real
    var location: Point
    var maxRange: real
    var host: Robot?
    var offsetAngle: real
    /** [0] the distance, [1] the bearing. */
    var output: array<real>
    var range: Pose

    /** The output holds a distance and a bearing. */
    predicate Valid()
      reads this
    {
      output.Length == 2
    }

    /** RobotRadar(offsetLocation, range): the circle about the origin, the rings a third apart, output (0, 0). */
    constructor (offsetLocation: Point, range: real)
      ensures Valid() && Centred() && fresh(output) && output[..] == [0.0, 0.0]
      ensures this.offsetLocation == offsetLocation && maxRange == range
      ensures this.range == CircleBody(0.0, 0.0, range) && origin == Point(0.0, 0.0)
      ensures radarRing1 == 0.0 && radarRing2 == range / 3.0 && radarRing3 == range / 3.0 * 2.0 && radarAngle == 0.0
      ensures location == Point(0.0, 0.0) && endPoint == Point(0.0, 0.0) && host == null && offsetAngle == 0.0
    {
      this.offsetLocation, maxRange := offsetLocation, range;
      location := Point(0.0, 0.0);
      this.range := CircleBody(0.0, 0.0, range);
      origin, endPoint := Point(0.0, 0.0), Point(0.0, 0.0);
      radarRing1, radarRing2, radarRing3, radarAngle := 0.0, range / 3.0, range / 3.0 * 2.0, 0.0;
      host, offsetAngle := null, 0.0;
      output := new real[2](_ => 0.0);
    }

    /** RobotRadar(): at the host's centre, the default range. */
    constructor Default()
      ensures Valid() && Centred() && fresh(output) && output[..] == [0.0, 0.0]
      ensures offsetLocation == Point(0.0, 0.0) && maxRange == RADAR_MAX
      ensures range == CircleBody(0.0, 0.0, RADAR_MAX) && origin == Point(0.0, 0.0)
      ensures radarRing1 == 0.0 && radarRing2 == RADAR_MAX / 3.0 && radarRing3 == RADAR_MAX / 3.0 * 2.0 && radarAngle == 0.0
      ensures location == Point(0.0, 0.0) && endPoint == Point(0.0, 0.0) && host == null && offsetAngle == 0.0
    {
      offsetLocation, maxRange := Point(0.0, 0.0), RADAR_MAX;
      location := Point(0.0, 0.0);
      range := CircleBody(0.0, 0.0, RADAR_MAX);
      origin, endPoint := Point(0.0, 0.0), Point(0.0, 0.0);
      radarRing1, radarRing2, radarRing3, radarAngle := 0.0, RADAR_MAX / 3.0, RADAR_MAX / 3.0 * 2.0, 0.0;
      host, offsetAngle := null, 0.0;
      output := new real[2](_ => 0.0);
    }

    /** RobotRadar(range): at the host's centre. */
    constructor Ranged(range: real)
      ensures Valid() && Centred() && fresh(output) && output[..] == [0.0, 0.0]
      ensures offsetLocation == Point(0.0, 0.0) && maxRange == range
      ensures this.range == CircleBody(0.0, 0.0, range) && origin == Point(0.0, 0.0)
      ensures radarRing1 == 0.0 && radarRing2 == range / 3.0 && radarRing3 == range / 3.0 * 2.0 && radarAngle == 0.0
      ensures location == Point(0.0, 0.0) && endPoint == Point(0.0, 0.0) && host == null && offsetAngle == 0.0
    {
      offsetLocation, maxRange := Point(0.0, 0.0), range;
      location := Point(0.0, 0.0);
      this.range := CircleBody(0.0, 0.0, range);
      origin, endPoint := Point(0.0, 0.0), Point(0.0, 0.0);
      radarRing1, radarRing2, radarRing3, radarAngle := 0.0, range / 3.0, range / 3.0 * 2.0, 0.0;
      host, offsetAngle := null, 0.0;
      output := new real[2](_ => 0.0);
    }

    /** RobotRadar(offsetLocation): the default range. */
    constructor Placed(offsetLocation: Point)
      ensures Valid() && Centred() && fresh(output) && output[..] == [0.0, 0.0]
      ensures this.offsetLocation == offsetLocation && maxRange == RADAR_MAX
      ensures range == CircleBody(0.0, 0.0, RADAR_MAX) && origin == Point(0.0, 0.0)
      ensures radarRing1 == 0.0 && radarRing2 == RADAR_MAX / 3.0 && radarRing3 == RADAR_MAX / 3.0 * 2.0 && radarAngle == 0.0
      ensures location == Point(0.0, 0.0) && endPoint == Point(0.0, 0.0) && host == null && offsetAngle == 0.0
    {
      this.offsetLocation, maxRange := offsetLocation, RADAR_MAX;
      location := Point(0.0, 0.0);
      range := CircleBody(0.0, 0.0, RADAR_MAX);
      origin, endPoint := Point(0.0, 0.0), Point(0.0, 0.0);
      radarRing1, radarRing2, radarRing3, radarAngle := 0.0, RADAR_MAX / 3.0, RADAR_MAX / 3.0 * 2.0, 0.0;
      host, offsetAngle := null, 0.0;
      output := new real[2](_ => 0.0);
    }

    /** RobotRadar(x, y): at the integer offset (x, y), the default range. */
    constructor At(x: int, y: int)
      ensures Valid() && Centred() && fresh(output) && output[..] == [0.0, 0.0]
      ensures offsetLocation == Point(x as real, y as real) && maxRange == RADAR_MAX
      ensures range == CircleBody(0.0, 0.0, RADAR_MAX) && origin == Point(0.0, 0.0)
      ensures radarRing1 == 0.0 && radarRing2 == RADAR_MAX / 3.0 && radarRing3 == RADAR_MAX / 3.0 * 2.0 && radarAngle == 0.0
      ensures location == Point(0.0, 0.0) && endPoint == Point(0.0, 0.0) && host == null && offsetAngle == 0.0
    {
      offsetLocation, maxRange := Point(x as real, y as real), RADAR_MAX;
      location := Point(0.0, 0.0);
      range := CircleBody(0.0, 0.0, RADAR_MAX);
      origin, endPoint := Point(0.0, 0.0), Point(0.0, 0.0);
      radarRing1, radarRing2, radarRing3, radarAngle := 0.0, RADAR_MAX / 3.0, RADAR_MAX / 3.0 * 2.0, 0.0;
      host, offsetAngle := null, 0.0;
      output := new real[2](_ => 0.0);
    }

    /** The range circle is centred at origin. */
    predicate Centred()
      reads this
    {
      CentredAt(range.region, maxRange, origin)
    }

    /**
     * setObject: the location is the host's centre plus the offset turned by
     * its heading; the range circle, lent the previous centre, is placed at
     * the host's centre, which place also writes into origin; so a circle
     * centred at the old origin ends centred at the host.
     */
    method SetObject(lib: Lib, host: Robot)
      modifies this
      ensures location == AddVector(lib, host.pose.com, offsetLocation, host.pose.angle)
      ensures offsetAngle == host.pose.angle && this.host == host
      ensures range == old(range).(com := old(origin)).Place(host.pose.com.x, host.pose.com.y)
      ensures origin == host.pose.com && range.com == origin
      ensures old(Centred()) ==> Centred()
      ensures offsetLocation == old(offsetLocation) && maxRange == old(maxRange) && output == old(output)
      ensures endPoint == old(endPoint) && radarAngle == old(radarAngle)
      ensures radarRing1 == old(radarRing1) && radarRing2 == old(radarRing2) && radarRing3 == old(radarRing3)
    {
      location := AddVector(lib, host.pose.com, offsetLocation, host.pose.angle);
      offsetAngle := host.pose.angle;
      range := range.(com := origin).Place(host.pose.com.x, host.pose.com.y);
      origin := host.pose.com;
      range := range.(com := host.pose.com);
      this.host := host;
    }

    /** isRobot: false exactly when the distance is at least the range and the bearing is 0. */
    function IsRobot(): bool
      requires Valid()
      reads this, output
    {
      !(output[0] >= maxRange && output[1] == 0.0)
    }

    /** The four display sweeps of analyse. */
    method AdvanceRings()
      modifies this
      ensures radarRing1 == Sweep(old(radarRing1), maxRange, RING_STEP)
      ensures radarRing2 == Sweep(old(radarRing2), maxRange, RING_STEP)
      ensures radarRing3 == Sweep(old(radarRing3), maxRange, RING_STEP)
      ensures radarAngle == Sweep(old(radarAngle), maxRange, SWEEP_STEP)
      ensures offsetLocation == old(offsetLocation) && endPoint == old(endPoint) && origin == old(origin)
      ensures location == old(location) && maxRange == old(maxRange) && host == old(host)
      ensures offsetAngle == old(offsetAngle) && output == old(output) && range == old(range)
    {
      radarRing1 := if radarRing1 > maxRange then 0.0 else radarRing1 + RING_STEP;
      radarRing2 := if radarRing2 > maxRange then 0.0 else radarRing2 + RING_STEP;
      radarRing3 := if radarRing3 > maxRange then 0.0 else radarRing3 + RING_STEP;
      radarAngle := if radarAngle > maxRange then 0.0 else radarAngle + SWEEP_STEP;
    }

    /**
     * analyse, as written: the rings advance; output is a fresh array that
     * temp also names, so each robot in range overwrites it and the test
     * against output always passes; the contact of the last robot in range
     * (or the maximum range, bearing 0 and the old endPoint) is reported,
     * with the bearing brought into [-pi, pi].
     */
    method Analyse(lib: Lib, robots: seq<Robot>) returns (ghost turns: int)
      modifies this
      ensures Valid() && fresh(output)
      ensures radarRing1 == Sweep(old(radarRing1), maxRange, RING_STEP) && radarAngle == Sweep(old(radarAngle), maxRange, SWEEP_STEP)
      ensures radarRing2 == Sweep(old(radarRing2), maxRange, RING_STEP) && radarRing3 == Sweep(old(radarRing3), maxRange, RING_STEP)
      ensures var c := LastFrom(old(RadarContacts(lib, range.region, location, offsetAngle, host, robots)), 0,
                                Contact(maxRange, 0.0, old(endPoint)));
              endPoint == c.at && output[0] == c.dist && -PI <= output[1] <= PI && output[1] == Turns(c.bearing, turns)
      ensures offsetLocation == old(offsetLocation) && origin == old(origin) && location == old(location)
      ensures maxRange == old(maxRange) && host == old(host) && offsetAngle == old(offsetAngle) && range == old(range)
    {
      ghost var cs := RadarContacts(lib, range.region, location, offsetAngle, host, robots);
      AdvanceRings();
      var temp := new real[2];
      temp[0], temp[1] := maxRange, 0.0;
      output := temp;
      ScanAliased(lib, robots, temp, cs);
      var a;
      a, turns := NormalizeAngle(output[1]);
      output[1] := a;
    }

    /** The loop of analyse as written, temp and output being one array. */
    method ScanAliased(lib: Lib, robots: seq<Robot>, temp: array<real>, ghost cs: seq<Option<Contact>>)
      requires temp.Length == 2 && output == temp
      requires |cs| == |robots|
      requires forall j :: 0 <= j < |cs| ==> cs[j] == Sighted(lib, range.region, location, offsetAngle, robots[j] == host, robots[j].pose)
      modifies this, temp
      ensures output == temp
      ensures var c := LastFrom(cs, 0, Contact(old(temp[0]), old(temp[1]), old(endPoint)));
              endPoint == c.at && temp[0] == c.dist && temp[1] == c.bearing
      ensures offsetLocation == old(offsetLocation) && origin == old(origin) && location == old(location)
      ensures maxRange == old(maxRange) && host == old(host) && offsetAngle == old(offsetAngle) && range == old(range)
      ensures radarRing1 == old(radarRing1) && radarRing2 == old(radarRing2) && radarRing3 == old(radarRing3)
      ensures radarAngle == old(radarAngle)
    {
      ghost var init := Contact(temp[0], temp[1], endPoint);
      var i := 0;
      while i < |robots|
        invariant 0 <= i <= |robots| && output == temp
        invariant LastFrom(cs, i, Contact(temp[0], temp[1], endPoint)) == LastFrom(cs, 0, init)
        invariant offsetLocation == old(offsetLocation) && origin == old(origin) && location == old(location)
        invariant maxRange == old(maxRange) && host == old(host) && offsetAngle == old(offsetAngle) && range == old(range)
        invariant radarRing1 == old(radarRing1) && radarRing2 == old(radarRing2) && radarRing3 == old(radarRing3)
        invariant radarAngle == old(radarAngle)
      {
        var robot := robots[i];
        if robot != host && Intersects(lib, range.region, robot.pose.region) {
          temp[0] := Distance(lib, location, robot.pose.com);
          temp[1] := AngleTo(lib, location, robot.pose.com) - offsetAngle;
          if temp[0] <= output[0] {
            endPoint := robot.pose.com;
            output := temp;
          }
        }
        i := i + 1;
      }
    }

    /**
     * analyse as intended: the same, but a robot in range replaces the
     * reported contact only when it is no farther, so the nearest robot in
     * range (the later of equals) is reported.
     */
    method AnalyseNearest(lib: Lib, robots: seq<Robot>) returns (ghost turns: int)
      modifies this
      ensures Valid() && fresh(output)
      ensures radarRing1 == Sweep(old(radarRing1), maxRange, RING_STEP) && radarAngle == Sweep(old(radarAngle), maxRange, SWEEP_STEP)
      ensures radarRing2 == Sweep(old(radarRing2), maxRange, RING_STEP) && radarRing3 == Sweep(old(radarRing3), maxRange, RING_STEP)
      ensures var c := NearestFrom(old(RadarContacts(lib, range.region, location, offsetAngle, host, robots)), 0,
                                   Contact(maxRange, 0.0, old(endPoint)));
              endPoint == c.at && output[0] == c.dist && -PI <= output[1] <= PI && output[1] == Turns(c.bearing, turns)
      ensures offsetLocation == old(offsetLocation) && origin == old(origin) && location == old(location)
      ensures maxRange == old(maxRange) && host == old(host) && offsetAngle == old(offsetAngle) && range == old(range)
    {
      ghost var cs := RadarContacts(lib, range.region, location, offsetAngle, host, robots);
      AdvanceRings();
      output := new real[2];
      output[0], output[1] := maxRange, 0.0;
      ScanNearest(lib, robots, cs);
      var a;
      a, turns := NormalizeAngle(output[1]);
      output[1] := a;
    }

    /** The intended loop: candidates in locals, output overwritten only by a contact no farther. */
    method ScanNearest(lib: Lib, robots: seq<Robot>, ghost cs: seq<Option<Contact>>)
      requires Valid()
      requires |cs| == |robots|
      requires forall j :: 0 <= j < |cs| ==> cs[j] == Sighted(lib, range.region, location, offsetAngle, robots[j] == host, robots[j].pose)
      modifies this, output
      ensures output == old(output)
      ensures var c := NearestFrom(cs, 0, Contact(old(output[0]), old(output[1]), old(endPoint)));
              endPoint == c.at && output[0] == c.dist && output[1] == c.bearing
      ensures offsetLocation == old(offsetLocation) && origin == old(origin) && location == old(location)
      ensures maxRange == old(maxRange) && host == old(host) && offsetAngle == old(offsetAngle) && range == old(range)
      ensures radarRing1 == old(radarRing1) && radarRing2 == old(radarRing2) && radarRing3 == old(radarRing3)
      ensures radarAngle == old(radarAngle)
    {
      ghost var init := Contact(output[0], output[1], endPoint);
      var i := 0;
      while i < |robots|
        invariant 0 <= i <= |robots| && output == old(output)
        invariant NearestFrom(cs, i, Contact(output[0], output[1], endPoint)) == NearestFrom(cs, 0, init)
        invariant offsetLocation == old(offsetLocation) && origin == old(origin) && location == old(location)
        invariant maxRange == old(maxRange) && host == old(host) && offsetAngle == old(offsetAngle) && range == old(range)
        invariant radarRing1 == old(radarRing1) && radarRing2 == old(radarRing2) && radarRing3 == old(radarRing3)
        invariant radarAngle == old(radarAngle)
      {
        var robot := robots[i];
        if robot != host && Intersects(lib, range.region, robot.pose.region) {
          var d := Distance(lib, location, robot.pose.com);
          var a := AngleTo(lib, location, robot.pose.com) - offsetAngle;
          if d <= output[0] {
            endPoint := robot.pose.com;
            output[0], output[1] := d, a;
          }
        }
        i := i + 1;
      }
    }
  }
}
