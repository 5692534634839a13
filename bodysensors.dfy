/**
 * The three contact sensors of simulation.sensors: Bumper, which reports
 * whether its shape, carried by the host, touches a robot, a cup, an
 * impassable terrain or the arena wall; Encoder, the odometer; and
 * TerrainSensor, which reads the friction coefficient of the passable
 * terrain under the host.
 */
module BodySensors {
  import opened Geometry
  import opened Points
  import opened Wrappers
  import opened Entities
  import opened RigidBodies
  import opened Robots
  import opened Cups
  import opened Terrains
  import opened Environments

  // ---------------------------------------------------------------- Bumper

  /** The bumper's scan area for one analysis: its own body placed at the sensor and turned by the offset plus the host heading. */
  function BumperScan(body: Pose, location: Point, angle: real): Pose
  {
    body.Place(location.x, location.y).Rotate(angle)
  }

  /** Some robot other than the host overlaps the scan area. */
  predicate RobotBumped(lib: Lib, scan: Region, host: Robot?, robots: seq<Robot>)
    reads robots
  {
    exists i :: 0 <= i < |robots| && robots[i] != host && Intersects(lib, scan, robots[i].pose.region)
  }

  /** Some cup overlaps the scan area. */
  predicate CupBumped(lib: Lib, scan: Region, cups: seq<Cup>)
    reads cups
  {
    exists i :: 0 <= i < |cups| && Intersects(lib, scan, cups[i].pose.region)
  }

  /**
   * The terrain loop as written: some impassable terrain overlaps the scan
   * area or, on any turn of that loop, the arena does not contain it.
   */
  predicate TerrainBumpedAsWritten(lib: Lib, scan: Region, ts: seq<Terrain>, outline: Region)
  {
    exists i :: 0 <= i < |ts| && (Intersects(lib, scan, ts[i].pose.region) || !Contains(lib, outline, scan))
  }

  /** The terrain test as intended: an impassable terrain overlaps the scan area, or the scan area leaves the arena. */
  predicate TerrainOrWallBumped(lib: Lib, scan: Region, ts: seq<Terrain>, outline: Region)
  {
    (exists i :: 0 <= i < |ts| && Intersects(lib, scan, ts[i].pose.region)) || !Contains(lib, outline, scan)
  }

  /**
   * The wall test sits inside the terrain loop, so with no impassable terrain
   * a scan area that crosses the arena wall goes unnoticed.
   */
  lemma WallMissedWithoutTerrain(lib: Lib, scan: Region, outline: Region)
    requires !Contains(lib, outline, scan)
    ensures !TerrainBumpedAsWritten(lib, scan, [], outline)
    ensures TerrainOrWallBumped(lib, scan, [], outline)
  {
  }

  /** With at least one impassable terrain the loop as written and the intended test agree. */
  lemma AsWrittenAgreesWithTerrain(lib: Lib, scan: Region, ts: seq<Terrain>, outline: Region)
    requires |ts| > 0
    ensures TerrainBumpedAsWritten(lib, scan, ts, outline) <==> TerrainOrWallBumped(lib, scan, ts, outline)
  {
    if !Contains(lib, outline, scan) {
      assert Intersects(lib, scan, ts[0].pose.region) || !Contains(lib, outline, scan);
    }
  }

  /** A bumper shape carried by a robot. */
  class Bumper {
    /** The bumper's own body, at its offset from the host's centre; never moved. */
    const body: Pose
    const offsetAngle: real
    const offsetLocation: Point
    var output: bool
    var location: Point
    /** The robot whose centre setObject shares: analyse skips the robot whose centre is that object. */
    var host: Robot?
    var objAngle: real
    var scanArea: Pose

    /** Bumper(x, y, r): a circle of radius r at (x, y), no offset angle. */
    constructor Circle(x: real, y: real, r: real)
      ensures body == CircleBody(x, y, r) && scanArea == body
      ensures offsetLocation == Point(x, y) && offsetAngle == 0.0
      ensures !output && host == null && objAngle == 0.0
    {
      body := CircleBody(x, y, r);
      scanArea := CircleBody(x, y, r);
      offsetLocation, offsetAngle := Point(x, y), 0.0;
      output, host, objAngle, location := false, null, 0.0, Point(0.0, 0.0);
    }

    /** Bumper(x, y, angle, s): the shape s with its centre at (x, y), turned by angle. */
    constructor Shaped(x: real, y: real, angle: real, s: Region)
      ensures body == ShapeBody(s, Point(x, y)) && scanArea == body
      ensures offsetLocation == Point(x, y) && offsetAngle == angle
      ensures !output && host == null && objAngle == 0.0
    {
      body := ShapeBody(s, Point(x, y));
      scanArea := ShapeBody(s, Point(x, y));
      offsetLocation, offsetAngle := Point(x, y), angle;
      output, host, objAngle, location := false, null, 0.0, Point(0.0, 0.0);
    }

    /** Bumper(x, y, width, height, angle): the rectangle with corner (x, y), turned by angle. */
    constructor Rectangular(x: real, y: real, width: real, height: real, angle: real)
      ensures body == RectBody(x, y, width, height) && scanArea == body
      ensures offsetLocation == Point(x, y) && offsetAngle == angle
      ensures !output && host == null && objAngle == 0.0
    {
      body := RectBody(x, y, width, height);
      scanArea := RectBody(x, y, width, height);
      offsetLocation, offsetAngle := Point(x, y), angle;
      output, host, objAngle, location := false, null, 0.0, Point(0.0, 0.0);
    }

    /** Bumper(x, y, h, w, angle): the ellipse of radial width h and height w about (x, y), turned by a whole angle. */
    constructor Oval(x: real, y: real, h: real, w: real, angle: int)
      ensures body == EllipseBody(x, y, h, w) && scanArea == body
      ensures offsetLocation == Point(x, y) && offsetAngle == angle as real
      ensures !output && host == null && objAngle == 0.0
    {
      body := EllipseBody(x, y, h, w);
      scanArea := EllipseBody(x, y, h, w);
      offsetLocation, offsetAngle := Point(x, y), angle as real;
      output, host, objAngle, location := false, null, 0.0, Point(0.0, 0.0);
    }

    /** setObject: the host's heading, and its centre plus the offset turned by that heading. */
    method SetObject(lib: Lib, host: Robot)
      modifies this
      ensures this.host == host && objAngle == host.pose.angle
      ensures location == AddVector(lib, host.pose.com, offsetLocation, host.pose.angle)
      ensures output == old(output) && scanArea == old(scanArea)
    {
      this.host := host;
      objAngle := host.pose.angle;
      location := AddVector(lib, host.pose.com, offsetLocation, host.pose.angle);
    }

    /**
     * analyse, as written: the scan area rebuilt from the body; the output is
     * true exactly when another robot or a cup touches it, or some turn of
     * the impassable loop finds that terrain touching it or the arena not
     * containing it.
     */
    method Analyse(lib: Lib, env: Environment, robots: seq<Robot>, cups: seq<Cup>)
      requires host != null
      modifies this
      ensures scanArea == BumperScan(body, location, offsetAngle + objAngle)
      ensures output <==> RobotBumped(lib, scanArea.region, host, robots) || CupBumped(lib, scanArea.region, cups)
                          || TerrainBumpedAsWritten(lib, scanArea.region, env.impassables, env.outline)
      ensures location == old(location) && host == old(host) && objAngle == old(objAngle)
    {
      output := false;
      scanArea := BumperScan(body, location, offsetAngle + objAngle);
      BumpRobotsAndCups(lib, robots, cups);
      var ts := env.impassables;
      var i := 0;
      while i < |ts|
        invariant 0 <= i <= |ts|
        invariant output <==> RobotBumped(lib, scanArea.region, host, robots) || CupBumped(lib, scanArea.region, cups)
                              || TerrainBumpedAsWritten(lib, scanArea.region, ts[..i], env.outline)
        invariant location == old(location) && host == old(host) && objAngle == old(objAngle)
        invariant scanArea == BumperScan(body, location, offsetAngle + objAngle)
      {
        if Intersects(lib, scanArea.region, ts[i].pose.region) || !Contains(lib, env.outline, scanArea.region) {
          output := true;
        }
        assert ts[..i + 1] == ts[..i] + [ts[i]];
        i := i + 1;
      }
      assert ts[..i] == ts;
    }

    /**
     * analyse as intended: the same robot and cup loops, the terrain loop
     * asking about overlap only, and the arena wall examined once after it.
     */
    method AnalyseWithWall(lib: Lib, env: Environment, robots: seq<Robot>, cups: seq<Cup>)
      requires host != null
      modifies this
      ensures scanArea == BumperScan(body, location, offsetAngle + objAngle)
      ensures output <==> RobotBumped(lib, scanArea.region, host, robots) || CupBumped(lib, scanArea.region, cups)
                          || TerrainOrWallBumped(lib, scanArea.region, env.impassables, env.outline)
      ensures location == old(location) && host == old(host) && objAngle == old(objAngle)
    {
      output := false;
      scanArea := BumperScan(body, location, offsetAngle + objAngle);
      BumpRobotsAndCups(lib, robots, cups);
      var ts := env.impassables;
      var i := 0;
      while i < |ts|
        invariant 0 <= i <= |ts|
        invariant output <==> RobotBumped(lib, scanArea.region, host, robots) || CupBumped(lib, scanArea.region, cups)
                              || exists j :: 0 <= j < i && Intersects(lib, scanArea.region, ts[j].pose.region)
        invariant location == old(location) && host == old(host) && objAngle == old(objAngle)
        invariant scanArea == BumperScan(body, location, offsetAngle + objAngle)
      {
        if Intersects(lib, scanArea.region, ts[i].pose.region) {
          output := true;
        }
        i := i + 1;
      }
      if !Contains(lib, env.outline, scanArea.region) {
        output := true;
      }
    }

    /** The robot and cup loops of analyse: the output turns true at every body that touches the scan area. */
    method BumpRobotsAndCups(lib: Lib, robots: seq<Robot>, cups: seq<Cup>)
      modifies this
      ensures output <==> old(output) || RobotBumped(lib, scanArea.region, host, robots) || CupBumped(lib, scanArea.region, cups)
      ensures scanArea == old(scanArea) && location == old(location) && host == old(host) && objAngle == old(objAngle)
    {
      var i := 0;
      while i < |robots|
        invariant 0 <= i <= |robots|
        invariant output <==> old(output) || exists j :: 0 <= j < i && robots[j] != host && Intersects(lib, scanArea.region, robots[j].pose.region)
        invariant scanArea == old(scanArea) && location == old(location) && host == old(host) && objAngle == old(objAngle)
      {
        var r := robots[i];
        if r != host && Intersects(lib, scanArea.region, r.pose.region) {
          output := true;
        }
        i := i + 1;
      }
      var k := 0;
      while k < |cups|
        invariant 0 <= k <= |cups|
        invariant output <==> old(output) || RobotBumped(lib, scanArea.region, host, robots)
                              || exists j :: 0 <= j < k && Intersects(lib, scanArea.region, cups[j].pose.region)
        invariant scanArea == old(scanArea) && location == old(location) && host == old(host) && objAngle == old(objAngle)
      {
        if Intersects(lib, scanArea.region, cups[k].pose.region) {
          output := true;
        }
        k := k + 1;
      }
    }
  }

  // ---------------------------------------------------------------- Encoder

  /** Encoder's MAX_RESOLUTION: with 0, every setObject counts. */
  const MAX_RESOLUTION: int := 0

  /** The last of the centres seen, or the start before any. */
  function LastSeen(start: Point, path: seq<Point>): Point
  {
    if path == [] then start else path[|path| - 1]
  }

  /** The distance the encoder has summed along path, each leg measured from the previous centre to the next. */
  function Odometer(lib: Lib, start: Point, path: seq<Point>): real
  {
    if path == [] then 0.0
    else Odometer(lib, start, path[..|path| - 1]) + Distance(lib, path[|path| - 1], LastSeen(start, path[..|path| - 1]))
  }

  /** A library whose square root of a non-negative number is non-negative, as Math.sqrt's is. */
  ghost predicate RootsNonNegative(lib: Lib)
  {
    forall x :: x >= 0.0 ==> lib.sqrt(x) >= 0.0
  }

  /** Point2D.distance is never negative under such a library; OdometerStep and Encoder.SetObject rely on it. */
  lemma DistanceNonNegative(lib: Lib, p: Point, q: Point)
    requires RootsNonNegative(lib)
    ensures Distance(lib, p, q) >= 0.0
  {
    SquareNonNegative(p.x - q.x);
    SquareNonNegative(p.y - q.y);
  }

  /** The step of DistanceNonNegative: both squared offsets under the root are non-negative. */
  lemma SquareNonNegative(a: real)
    ensures a * a >= 0.0
  {
    if a < 0.0 {
      assert (-a) * (-a) == a * a;
    }
  }

  /** One more centre adds one leg and keeps the reading from falling. */
  lemma OdometerStep(lib: Lib, start: Point, path: seq<Point>, q: Point)
    requires RootsNonNegative(lib)
    ensures Odometer(lib, start, path + [q]) == Odometer(lib, start, path) + Distance(lib, q, LastSeen(start, path))
    ensures Odometer(lib, start, path + [q]) >= Odometer(lib, start, path)
  {
    var s := path + [q];
    assert s[..|s| - 1] == path;
    DistanceNonNegative(lib, q, LastSeen(start, path));
  }

  /** No leg is negative, so the odometer reading along a longer path is never smaller. */
  lemma {:induction false} OdometerGrows(lib: Lib, start: Point, path: seq<Point>, more: seq<Point>)
    requires RootsNonNegative(lib)
    ensures Odometer(lib, start, path + more) >= Odometer(lib, start, path)
    decreases |more|
  {
    if more == [] {
      assert path + more == path;
    } else {
      var front := more[..|more| - 1];
      assert path + more == (path + front) + [more[|more| - 1]];
      OdometerGrows(lib, start, path, front);
      OdometerStep(lib, start, path + front, more[|more| - 1]);
    }
  }

  /** The encoder's test path: from (0, 0) to (0, 10), (0, 100) and (110, 100) reads 100 after two moves and 210 after three. */
  lemma EncoderReadings(lib: Lib)
    requires lib.sqrt(100.0) == 10.0 && lib.sqrt(8100.0) == 90.0 && lib.sqrt(12100.0) == 110.0
    ensures Odometer(lib, Point(0.0, 0.0), [Point(0.0, 10.0), Point(0.0, 100.0)]) == 100.0
    ensures Odometer(lib, Point(0.0, 0.0), [Point(0.0, 10.0), Point(0.0, 100.0), Point(110.0, 100.0)]) == 210.0
  {
    var p := [Point(0.0, 10.0), Point(0.0, 100.0), Point(110.0, 100.0)];
    assert p[..1] == [Point(0.0, 10.0)] && p[..2] == [Point(0.0, 10.0), Point(0.0, 100.0)];
    assert [Point(0.0, 10.0)][..0] == [];
    assert Odometer(lib, Point(0.0, 0.0), p[..1]) == 10.0;
    assert Odometer(lib, Point(0.0, 0.0), p[..2]) == 100.0;
  }

  /** The odometer. */
  class Encoder {
    var currentResolution: int
    var lastLocation: Point
    var distanceTravelled: real
    var lastDistance: real
    /** The host centres setObject has been given, in order. */
    ghost var visited: seq<Point>

    /** The reading is the odometer along the centres seen from (0, 0), and lastLocation the last of them. */
    ghost predicate Valid(lib: Lib)
      reads this
    {
      currentResolution == 0
      && lastLocation == LastSeen(Point(0.0, 0.0), visited)
      && distanceTravelled == Odometer(lib, Point(0.0, 0.0), visited)
    }

    /** Encoder(): nothing travelled, last seen at (0, 0). */
    constructor ()
      ensures forall lib :: Valid(lib)
      ensures distanceTravelled == 0.0 && lastLocation == Point(0.0, 0.0) && visited == []
    {
      currentResolution := 0;
      lastLocation := Point(0.0, 0.0);
      distanceTravelled, lastDistance := 0.0, 0.0;
      visited := [];
    }

    /**
     * setObject: the resolution counter is stepped; once it reaches
     * MAX_RESOLUTION it restarts, the leg from the last centre to the host's
     * centre is added and the host's centre becomes the last.  Otherwise
     * nothing but the counter changes.  The reading never decreases.
     */
    method SetObject(lib: Lib, host: Robot)
      modifies this
      ensures old(currentResolution) + 1 >= MAX_RESOLUTION ==>
                currentResolution == 0
                && lastDistance == Distance(lib, host.pose.com, old(lastLocation))
                && distanceTravelled == old(distanceTravelled) + lastDistance
                && lastLocation == host.pose.com && visited == old(visited) + [host.pose.com]
      ensures old(currentResolution) + 1 < MAX_RESOLUTION ==>
                currentResolution == old(currentResolution) + 1
                && lastDistance == old(lastDistance) && distanceTravelled == old(distanceTravelled)
                && lastLocation == old(lastLocation) && visited == old(visited)
      ensures old(Valid(lib)) ==> Valid(lib)
      ensures RootsNonNegative(lib) ==> distanceTravelled >= old(distanceTravelled)
    {
      currentResolution := currentResolution + 1;
      if currentResolution >= MAX_RESOLUTION {
        currentResolution := 0;
        lastDistance := Distance(lib, host.pose.com, lastLocation);
        distanceTravelled := distanceTravelled + lastDistance;
        lastLocation := host.pose.com;
        visited := visited + [host.pose.com];
        assert visited[..|visited| - 1] == old(visited);
        if RootsNonNegative(lib) {
          DistanceNonNegative(lib, host.pose.com, old(lastLocation));
        }
      }
    }

    /** analyse does nothing: it has no modifies clause. */
    method Analyse(env: Environment, robots: seq<Robot>, cups: seq<Cup>)
    {
    }
  }

  // ---------------------------------------------------------------- TerrainSensor

  /** The first terrain from index i on whose region holds p. */
  function FirstContainingFrom(lib: Lib, ts: seq<Terrain>, p: Point, i: nat): (k: Option<nat>)
    requires i <= |ts|
    ensures k.Some? ==> i <= k.value < |ts| && In(lib, ts[k.value].pose.region, p)
    decreases |ts| - i
  {
    if i == |ts| then None
    else if In(lib, ts[i].pose.region, p) then Some(i)
    else FirstContainingFrom(lib, ts, p, i + 1)
  }

  /** The first search finds the first terrain holding p, and nothing when none does. */
  lemma {:induction false} FirstContainingIsFirst(lib: Lib, ts: seq<Terrain>, p: Point, i: nat)
    requires i <= |ts|
    decreases |ts| - i
    ensures var k := FirstContainingFrom(lib, ts, p, i);
            (k.None? <==> forall j :: i <= j < |ts| ==> !In(lib, ts[j].pose.region, p))
            && (k.Some? ==> i <= k.value < |ts| && In(lib, ts[k.value].pose.region, p)
                            && forall j :: i <= j < k.value ==> !In(lib, ts[j].pose.region, p))
  {
    if i < |ts| && !In(lib, ts[i].pose.region, p) {
      FirstContainingIsFirst(lib, ts, p, i + 1);
    }
  }

  /** The reading after analyse: the coefficient of the first passable terrain holding p, or the previous reading. */
  function TerrainReading(lib: Lib, ts: seq<Terrain>, p: Point, previous: real): real
    requires Sound(lib)
  {
    match FirstContainingFrom(lib, ts, p, 0)
    case None => previous
    case Some(k) => Coefficient(lib, ts, ts[k].pose.region)
  }

  /**
   * The terrain sensor's test: one passable terrain with friction 0.5 holding
   * the host, whose overlap with itself has its own bounding-box area, reads
   * 0.1 + 0.5.
   */
  lemma FullPatchReading(lib: Lib, t: Terrain, p: Point, previous: real)
    requires Sound(lib) && t.friction == 0.5 && In(lib, t.pose.region, p)
    requires lib.bounds(Intersection(t.pose.region, t.pose.region)).Area() == lib.bounds(t.pose.region).Area()
    ensures TerrainReading(lib, [t], p, previous) == 0.6
  {
    assert FirstContainingFrom(lib, [t], p, 0) == Some(0);
    assert In(lib, Intersection(t.pose.region, t.pose.region), p);
    IntersectsIffCommonPoint(lib, t.pose.region, t.pose.region);
    CoefficientOneFullOverlap(lib, [t], t.pose.region, 0);
  }

  /** The friction sensor. */
  class TerrainSensor {
    /** The robot whose centre location shares: analyse reads the host's centre as it is then. */
    var host: Robot?
    var output: real

    /** TerrainSensor(): no host, reading 0. */
    constructor ()
      ensures host == null && output == 0.0
    {
      host, output := null, 0.0;
    }

    /** setObject: share the host's centre. */
    method SetObject(host: Robot)
      modifies this
      ensures this.host == host && output == old(output)
    {
      this.host := host;
    }

    /**
     * analyse: the passable terrains in list order; the first one holding
     * the host's centre sets the reading to getCoefficient of its own shape,
     * and when none does the reading stays.  The centre is only read when
     * there is a terrain to test.
     */
    method Analyse(lib: Lib, env: Environment)
      requires Sound(lib)
      requires host != null || |env.passables| == 0
      modifies this
      ensures |env.passables| == 0 ==> output == old(output)
      ensures host != null ==> output == TerrainReading(lib, env.passables, host.pose.com, old(output))
      ensures host == old(host)
    {
      var ts := env.passables;
      var i := 0;
      while i < |ts|
        invariant 0 <= i <= |ts| && host == old(host) && output == old(output)
        invariant host != null ==> FirstContainingFrom(lib, ts, host.pose.com, i) == FirstContainingFrom(lib, ts, host.pose.com, 0)
      {
        if In(lib, ts[i].pose.region, host.pose.com) {
          output := env.GetCoefficient(lib, ts[i].pose.region);
          return;
        }
        i := i + 1;
      }
    }
  }
}
