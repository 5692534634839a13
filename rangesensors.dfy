/**
 * The two ray sensors of simulation.sensors: CupSensor, which reports whether
 * a cup is the first thing along its ray, and DistanceSensor, the range
 * finder.  Both walk the robots, cups and impassable terrain in list order,
 * keeping a running minimum; the model states each reading as that minimum
 * over an explicit list of candidate distances.
 */
module RangeSensors {
  import opened Geometry
  import opened Points
  import opened Wrappers
  import opened Robots
  import opened Cups
  import opened Terrains
  import opened Environments

  /** ScanMin over a concatenation: the second part continues from the first part's minimum. */
  lemma {:induction false} ScanMinAppend(a: seq<Option<real>>, b: seq<Option<real>>, i: nat, m: real)
    requires i <= |a|
    decreases |a| - i
    ensures ScanMin(a + b, i, m) == ScanMin(b, 0, ScanMin(a, i, m))
  {
    if i == |a| {
      ScanMinShift(a, b, 0, m);
    } else {
      assert (a + b)[i] == a[i];
      ScanMinAppend(a, b, i + 1, Lower(m, a[i]));
    }
  }

  lemma {:induction false} ScanMinShift(a: seq<Option<real>>, b: seq<Option<real>>, j: nat, m: real)
    requires j <= |b|
    decreases |b| - j
    ensures ScanMin(a + b, |a| + j, m) == ScanMin(b, j, m)
  {
    if j < |b| {
      assert (a + b)[|a| + j] == b[j];
      ScanMinShift(a, b, j + 1, Lower(m, b[j]));
    }
  }

  /** The running minimum drops below its start exactly when some candidate lies below it. */
  lemma ScanMinBelow(hits: seq<Option<real>>, m: real)
    ensures ScanMin(hits, 0, m) < m <==> exists j :: 0 <= j < |hits| && hits[j].Some? && hits[j].value < m
  {
    ScanMinFacts(hits, 0, m);
    if exists j :: 0 <= j < |hits| && hits[j].Some? && hits[j].value < m {
      var j :| 0 <= j < |hits| && hits[j].Some? && hits[j].value < m;
      assert hits[j] == Some(hits[j].value);
    }
  }

  /** The ray distance to a region's outline, as distanceToPolygon gives it. */
  function Ray(lib: Lib, p: Point, r: Region, angle: real, max: real): real
  {
    RayDistance(lib, p, lib.outline(r), angle, max)
  }

  // ---------------------------------------------------------------- CupSensor

  /** The CupSensor's robot candidates: every robot but the host, at its ray distance. */
  function OtherRobotRays(lib: Lib, robots: seq<Robot>, host: Robot?, p: Point, angle: real, max: real): (hits: seq<Option<real>>)
    reads robots
  {
    seq(|robots|, i requires 0 <= i < |robots| reads robots =>
      if robots[i] != host then Some(Ray(lib, p, robots[i].pose.region, angle, max)) else None)
  }

  /** Every terrain at its ray distance. */
  function TerrainRays(lib: Lib, ts: seq<Terrain>, p: Point, angle: real, max: real): (hits: seq<Option<real>>)
  {
    seq(|ts|, i requires 0 <= i < |ts| => Some(Ray(lib, p, ts[i].pose.region, angle, max)))
  }

  /** Every cup at its ray distance. */
  function CupRays(lib: Lib, cups: seq<Cup>, p: Point, angle: real, max: real): (hits: seq<Option<real>>)
    reads cups
  {
    seq(|cups|, i requires 0 <= i < |cups| reads cups => Some(Ray(lib, p, cups[i].pose.region, angle, max)))
  }

  /** Everything that can hide a cup from the CupSensor, in the order analyse visits it. */
  function BlockerRays(lib: Lib, env: Environment, robots: seq<Robot>, host: Robot?, p: Point, angle: real, max: real): seq<Option<real>>
    reads env, robots
  {
    OtherRobotRays(lib, robots, host, p, angle, max) + TerrainRays(lib, env.impassables, p, angle, max)
      + [Some(Ray(lib, p, env.outline, angle, max))]
  }

  /**
   * The distance to the nearest thing that is not a cup: the range, every
   * other robot, every impassable terrain and the arena edge.
   */
  function Blocker(lib: Lib, env: Environment, robots: seq<Robot>, host: Robot?, p: Point, angle: real, max: real): real
    reads env, robots
  {
    ScanMin(BlockerRays(lib, env, robots, host, p, angle, max), 0, max)
  }

  /** The CupSensor's answer: some cup is nearer along the ray than every other thing. */
  predicate CupAhead(lib: Lib, env: Environment, robots: seq<Robot>, cups: seq<Cup>, host: Robot?, p: Point, angle: real, max: real)
    reads env, robots, cups
  {
    exists j :: 0 <= j < |cups| && Ray(lib, p, cups[j].pose.region, angle, max) < Blocker(lib, env, robots, host, p, angle, max)
  }

  /**
   * The blocking distance is at most the range, the ray distance of the
   * arena edge, of every other robot and of every impassable terrain.
   */
  lemma BlockerIsLowerBound(lib: Lib, env: Environment, robots: seq<Robot>, host: Robot?, p: Point, angle: real, max: real)
    ensures Blocker(lib, env, robots, host, p, angle, max) <= max
    ensures Blocker(lib, env, robots, host, p, angle, max) <= Ray(lib, p, env.outline, angle, max)
    ensures forall i :: 0 <= i < |robots| && robots[i] != host ==>
              Blocker(lib, env, robots, host, p, angle, max) <= Ray(lib, p, robots[i].pose.region, angle, max)
    ensures forall i :: 0 <= i < |env.impassables| ==>
              Blocker(lib, env, robots, host, p, angle, max) <= Ray(lib, p, env.impassables[i].pose.region, angle, max)
  {
    var rh := OtherRobotRays(lib, robots, host, p, angle, max);
    var th := TerrainRays(lib, env.impassables, p, angle, max);
    var hits := BlockerRays(lib, env, robots, host, p, angle, max);
    ScanMinFacts(hits, 0, max);
    assert hits[|rh| + |th|] == Some(Ray(lib, p, env.outline, angle, max));
    forall i | 0 <= i < |robots| && robots[i] != host
      ensures ScanMin(hits, 0, max) <= Ray(lib, p, robots[i].pose.region, angle, max)
    {
      assert hits[i] == rh[i];
    }
    forall i | 0 <= i < |env.impassables|
      ensures ScanMin(hits, 0, max) <= Ray(lib, p, env.impassables[i].pose.region, angle, max)
    {
      assert hits[|rh| + i] == th[i];
    }
  }

  /** The blocking distance is the range itself or the ray distance of the edge, another robot or an impassable. */
  lemma BlockerIsAttained(lib: Lib, env: Environment, robots: seq<Robot>, host: Robot?, p: Point, angle: real, max: real)
    ensures var b := Blocker(lib, env, robots, host, p, angle, max);
            b == max || b == Ray(lib, p, env.outline, angle, max)
            || (exists i :: 0 <= i < |robots| && robots[i] != host && b == Ray(lib, p, robots[i].pose.region, angle, max))
            || (exists i :: 0 <= i < |env.impassables| && b == Ray(lib, p, env.impassables[i].pose.region, angle, max))
  {
    var rh := OtherRobotRays(lib, robots, host, p, angle, max);
    var th := TerrainRays(lib, env.impassables, p, angle, max);
    var hits := BlockerRays(lib, env, robots, host, p, angle, max);
    ScanMinFacts(hits, 0, max);
    var b := ScanMin(hits, 0, max);
    if b != max {
      var j :| 0 <= j < |hits| && hits[j] == Some(b);
      if j < |rh| {
        assert hits[j] == rh[j];
      } else if j < |rh| + |th| {
        assert hits[j] == th[j - |rh|];
      }
    }
  }

  /** A cup sensor: one ray from the host's centre of mass at the host's heading plus an offset. */
  class CupSensor {
    /** The range of the ray. */
    var max: real
    var angle: real
    var location: Point
    /** The host set by setObject; until then the sensor has no location. */
    var host: Robot?
    var offsetAngle: real
    var output: bool

    /** CupSensor(offsetAngle, max). */
    constructor (offsetAngle: real, max: real)
      ensures this.offsetAngle == offsetAngle && this.max == max
      ensures !output && host == null
    {
      this.offsetAngle := offsetAngle;
      this.max := max;
      angle, location, host, output := 0.0, Point(0.0, 0.0), null, false;
    }

    /** setObject: the host's centre of mass and its heading turned by the offset. */
    method SetObject(host: Robot)
      modifies this
      ensures location == host.pose.com && angle == host.pose.angle + offsetAngle && this.host == host
      ensures max == old(max) && offsetAngle == old(offsetAngle) && output == old(output)
    {
      location := host.pose.com;
      angle := host.pose.angle + offsetAngle;
      this.host := host;
    }

    /**
     * analyse: the blocking distance folded over the other robots, the
     * impassables and the arena edge, then the cups; the answer is true once a
     * cup comes nearer than anything before it.
     */
    method Analyse(lib: Lib, env: Environment, robots: seq<Robot>, cups: seq<Cup>)
      requires host != null
      modifies this
      ensures output <==> CupAhead(lib, env, robots, cups, host, location, angle, max)
      ensures max == old(max) && angle == old(angle) && location == old(location)
      ensures host == old(host) && offsetAngle == old(offsetAngle)
    {
      var closest := BlockingDistance(lib, env, robots);
      output := CupNearer(lib, cups, closest);
    }

    /** The blocking distance: the first two loops of analyse, then the arena edge. */
    method BlockingDistance(lib: Lib, env: Environment, robots: seq<Robot>) returns (closest: real)
      ensures closest == Blocker(lib, env, robots, host, location, angle, max)
    {
      closest := RobotsAndTerrain(lib, env, robots);
      var temp := DistanceToPolygon(lib, location, lib.outline(env.outline), angle, max);
      if temp < closest {
        closest := temp;
      }
      ghost var rh := OtherRobotRays(lib, robots, host, location, angle, max);
      ghost var th := TerrainRays(lib, env.impassables, location, angle, max);
      ScanMinAppend(rh + th, [Some(Ray(lib, location, env.outline, angle, max))], 0, max);
    }

    /** The cup loop of analyse: true once some cup's ray distance comes below the blocking distance. */
    method CupNearer(lib: Lib, cups: seq<Cup>, blocker: real) returns (seen: bool)
      ensures seen <==> exists j :: 0 <= j < |cups| && Ray(lib, location, cups[j].pose.region, angle, max) < blocker
    {
      ghost var ch := CupRays(lib, cups, location, angle, max);
      var closest := blocker;
      seen := false;
      var i := 0;
      while i < |cups|
        invariant 0 <= i <= |cups|
        invariant ScanMin(ch, i, closest) == ScanMin(ch, 0, blocker)
        invariant closest <= blocker
        invariant seen <==> closest < blocker
      {
        var temp := DistanceToPolygon(lib, location, lib.outline(cups[i].pose.region), angle, max);
        if temp < closest {
          closest := temp;
          seen := true;
        }
        i := i + 1;
      }
      ScanMinBelow(ch, blocker);
      ScanMinFacts(ch, 0, blocker);
      if seen {
        ghost var j :| 0 <= j < |ch| && ch[j].Some? && ch[j].value < blocker;
        assert Ray(lib, location, cups[j].pose.region, angle, max) < blocker;
      }
      if exists j :: 0 <= j < |cups| && Ray(lib, location, cups[j].pose.region, angle, max) < blocker {
        ghost var j :| 0 <= j < |cups| && Ray(lib, location, cups[j].pose.region, angle, max) < blocker;
        assert ch[j].Some? && ch[j].value < blocker;
      }
    }

    /** The first two loops of analyse: the nearest other robot and impassable terrain, from the range. */
    method RobotsAndTerrain(lib: Lib, env: Environment, robots: seq<Robot>) returns (closest: real)
      ensures closest == ScanMin(OtherRobotRays(lib, robots, host, location, angle, max)
                                 + TerrainRays(lib, env.impassables, location, angle, max), 0, max)
    {
      ghost var rh := OtherRobotRays(lib, robots, host, location, angle, max);
      ghost var th := TerrainRays(lib, env.impassables, location, angle, max);
      closest := max;
      var i := 0;
      while i < |robots|
        invariant 0 <= i <= |robots|
        invariant ScanMin(rh, i, closest) == ScanMin(rh, 0, max)
      {
        var robot := robots[i];
        if robot != host {
          var temp := DistanceToPolygon(lib, location, lib.outline(robot.pose.region), angle, max);
          if temp < closest {
            closest := temp;
          }
        }
        i := i + 1;
      }
      ghost var afterRobots := closest;
      var ts := env.impassables;
      i := 0;
      while i < |ts|
        invariant 0 <= i <= |ts|
        invariant ScanMin(th, i, closest) == ScanMin(th, 0, afterRobots)
      {
        var temp := DistanceToPolygon(lib, location, lib.outline(ts[i].pose.region), angle, max);
        if temp < closest {
          closest := temp;
        }
        i := i + 1;
      }
      ScanMinAppend(rh, th, 0, max);
    }
  }

  // ---------------------------------------------------------------- DistanceSensor

  const DEFAULT_MAX: real := 800.0
  const DEFAULT_NOISE: real := 0.25

  /** The other robots whose outline the sensor's segment meets, at their ray distance. */
  function MetRobotRays(lib: Lib, robots: seq<Robot>, host: Robot?, p: Point, end: Point, angle: real, max: real): seq<Option<real>>
    reads robots
  {
    seq(|robots|, i requires 0 <= i < |robots| reads robots =>
      if robots[i] != host && RayMeets(lib, p, end, lib.outline(robots[i].pose.region))
      then Some(Ray(lib, p, robots[i].pose.region, angle, max)) else None)
  }

  /** The cups whose outline the segment meets, at the straight-line distance to their centre. */
  function MetCupDistances(lib: Lib, cups: seq<Cup>, p: Point, end: Point): seq<Option<real>>
    reads cups
  {
    seq(|cups|, i requires 0 <= i < |cups| reads cups =>
      if RayMeets(lib, p, end, lib.outline(cups[i].pose.region)) then Some(Distance(lib, p, cups[i].pose.com)) else None)
  }

  /** The terrains whose outline the segment meets, at their ray distance. */
  function MetTerrainRays(lib: Lib, ts: seq<Terrain>, p: Point, end: Point, angle: real, max: real): seq<Option<real>>
  {
    seq(|ts|, i requires 0 <= i < |ts| =>
      if RayMeets(lib, p, end, lib.outline(ts[i].pose.region)) then Some(Ray(lib, p, ts[i].pose.region, angle, max)) else None)
  }

  /** Every candidate reading of a range finder, in the order analyse visits them. */
  function RangeCandidates(lib: Lib, env: Environment, robots: seq<Robot>, cups: seq<Cup>, host: Robot?,
                           p: Point, end: Point, angle: real, max: real): seq<Option<real>>
    reads env, robots, cups
  {
    MetRobotRays(lib, robots, host, p, end, angle, max) + MetCupDistances(lib, cups, p, end)
      + MetTerrainRays(lib, env.impassables, p, end, angle, max) + [Some(Ray(lib, p, env.outline, angle, max))]
  }

  /** The noiseless reading: the least candidate, or the range. */
  function RangeReading(lib: Lib, env: Environment, robots: seq<Robot>, cups: seq<Cup>, host: Robot?,
                        p: Point, end: Point, angle: real, max: real): real
    reads env, robots, cups
  {
    ScanMin(RangeCandidates(lib, env, robots, cups, host, p, end, angle, max), 0, max)
  }

  /**
   * The reading is at most the range; at most the ray distance of every other
   * robot and every impassable the segment meets, the centre distance of
   * every cup it meets, and the arena edge; and it is the range or one of
   * those candidates.
   */
  lemma RangeReadingIsNearest(lib: Lib, env: Environment, robots: seq<Robot>, cups: seq<Cup>, host: Robot?,
                              p: Point, end: Point, angle: real, max: real)
    ensures var r := RangeReading(lib, env, robots, cups, host, p, end, angle, max);
            r <= max && r <= Ray(lib, p, env.outline, angle, max)
    ensures forall i :: 0 <= i < |robots| && robots[i] != host && RayMeets(lib, p, end, lib.outline(robots[i].pose.region)) ==>
              RangeReading(lib, env, robots, cups, host, p, end, angle, max) <= Ray(lib, p, robots[i].pose.region, angle, max)
    ensures forall i :: 0 <= i < |cups| && RayMeets(lib, p, end, lib.outline(cups[i].pose.region)) ==>
              RangeReading(lib, env, robots, cups, host, p, end, angle, max) <= Distance(lib, p, cups[i].pose.com)
    ensures forall i :: 0 <= i < |env.impassables| && RayMeets(lib, p, end, lib.outline(env.impassables[i].pose.region)) ==>
              RangeReading(lib, env, robots, cups, host, p, end, angle, max) <= Ray(lib, p, env.impassables[i].pose.region, angle, max)
    ensures var r := RangeReading(lib, env, robots, cups, host, p, end, angle, max);
            var hits := RangeCandidates(lib, env, robots, cups, host, p, end, angle, max);
            r == max || exists j :: 0 <= j < |hits| && hits[j] == Some(r)
  {
    var rh := MetRobotRays(lib, robots, host, p, end, angle, max);
    var ch := MetCupDistances(lib, cups, p, end);
    var th := MetTerrainRays(lib, env.impassables, p, end, angle, max);
    var hits := RangeCandidates(lib, env, robots, cups, host, p, end, angle, max);
    ScanMinFacts(hits, 0, max);
    assert hits[|rh| + |ch| + |th|] == Some(Ray(lib, p, env.outline, angle, max));
    forall i | 0 <= i < |robots| && robots[i] != host && RayMeets(lib, p, end, lib.outline(robots[i].pose.region))
      ensures ScanMin(hits, 0, max) <= Ray(lib, p, robots[i].pose.region, angle, max)
    {
      assert hits[i] == rh[i];
    }
    forall i | 0 <= i < |cups| && RayMeets(lib, p, end, lib.outline(cups[i].pose.region))
      ensures ScanMin(hits, 0, max) <= Distance(lib, p, cups[i].pose.com)
    {
      assert hits[|rh| + i] == ch[i];
    }
    forall i | 0 <= i < |env.impassables| && RayMeets(lib, p, end, lib.outline(env.impassables[i].pose.region))
      ensures ScanMin(hits, 0, max) <= Ray(lib, p, env.impassables[i].pose.region, angle, max)
    {
      assert hits[|rh| + |ch| + i] == th[i];
    }
  }

  /** The candidate list read in its four parts, each loop continuing from the minimum of the one before. */
  lemma RangeReadingSplit(lib: Lib, env: Environment, robots: seq<Robot>, cups: seq<Cup>, host: Robot?,
                          p: Point, end: Point, angle: real, max: real)
    ensures RangeReading(lib, env, robots, cups, host, p, end, angle, max)
         == Lower(ScanMin(MetTerrainRays(lib, env.impassables, p, end, angle, max), 0,
                    ScanMin(MetCupDistances(lib, cups, p, end), 0,
                      ScanMin(MetRobotRays(lib, robots, host, p, end, angle, max), 0, max))),
                  Some(Ray(lib, p, env.outline, angle, max)))
  {
    var rh := MetRobotRays(lib, robots, host, p, end, angle, max);
    var ch := MetCupDistances(lib, cups, p, end);
    var th := MetTerrainRays(lib, env.impassables, p, end, angle, max);
    var last := [Some(Ray(lib, p, env.outline, angle, max))];
    ScanMinAppend(rh + ch + th, last, 0, max);
    ScanMinAppend(rh + ch, th, 0, max);
    ScanMinAppend(rh, ch, 0, max);
  }

  /** The reading with Random.nextGaussian's draw g applied: output += g * uncertainty * output. */
  function Noisy(reading: real, g: real, uncertainty: real): real
  {
    reading + g * uncertainty * reading
  }

  /** A sensor with no uncertainty reports the noiseless reading whatever the draw; otherwise the error is proportional to the reading. */
  lemma NoiseScalesReading(reading: real, g: real, uncertainty: real)
    ensures uncertainty == 0.0 ==> Noisy(reading, g, uncertainty) == reading
    ensures Noisy(reading, g, uncertainty) - reading == reading * (g * uncertainty)
  {
  }

  /** A range finder: a segment of length range from an offset point on the host, at the host's heading plus an offset. */
  class DistanceSensor {
    var offsetLocation: Point
    var endPoint: Point
    var endOffset: Point
    var angle: real
    var location: Point
    var maxRange: real
    var host: Robot?
    const offsetAngle: real
    var output: real
    var uncertainty: real

    /** DistanceSensor(): facing forward, from the centre, the default range and noise. */
    constructor Default()
      ensures offsetAngle == 0.0 && offsetLocation == Point(0.0, 0.0)
      ensures maxRange == DEFAULT_MAX && uncertainty == DEFAULT_NOISE
      ensures endOffset == Point(0.0, DEFAULT_MAX)
      ensures location == Point(0.0, 0.0) && endPoint == Point(0.0, 0.0) && host == null && output == 0.0
    {
      offsetAngle := 0.0;
      offsetLocation, maxRange, uncertainty := Point(0.0, 0.0), DEFAULT_MAX, DEFAULT_NOISE;
      endOffset := Point(0.0, DEFAULT_MAX);
      location, endPoint, angle, host, output := Point(0.0, 0.0), Point(0.0, 0.0), 0.0, null, 0.0;
    }

    /** DistanceSensor(offsetAngle): from the centre, the default range and noise. */
    constructor Angled(offsetAngle: real)
      ensures this.offsetAngle == offsetAngle && offsetLocation == Point(0.0, 0.0)
      ensures maxRange == DEFAULT_MAX && uncertainty == DEFAULT_NOISE
      ensures endOffset == Point(0.0, DEFAULT_MAX)
      ensures location == Point(0.0, 0.0) && endPoint == Point(0.0, 0.0) && host == null && output == 0.0
    {
      this.offsetAngle := offsetAngle;
      offsetLocation, maxRange, uncertainty := Point(0.0, 0.0), DEFAULT_MAX, DEFAULT_NOISE;
      endOffset := Point(0.0, DEFAULT_MAX);
      location, endPoint, angle, host, output := Point(0.0, 0.0), Point(0.0, 0.0), 0.0, null, 0.0;
    }

    /** DistanceSensor(offsetAngle, offsetLocation): the default range, no noise. */
    constructor Placed(offsetAngle: real, offsetLocation: Point)
      ensures this.offsetAngle == offsetAngle && this.offsetLocation == offsetLocation
      ensures maxRange == DEFAULT_MAX && uncertainty == 0.0
      ensures endOffset == Point(offsetLocation.x, DEFAULT_MAX)
      ensures location == Point(0.0, 0.0) && endPoint == Point(0.0, 0.0) && host == null && output == 0.0
    {
      this.offsetAngle := offsetAngle;
      this.offsetLocation, maxRange, uncertainty := offsetLocation, DEFAULT_MAX, 0.0;
      endOffset := Point(offsetLocation.x, DEFAULT_MAX);
      location, endPoint, angle, host, output := Point(0.0, 0.0), Point(0.0, 0.0), 0.0, null, 0.0;
    }

    /** DistanceSensor(offsetAngle, x, y): at the integer offset (x, y), the default range, no noise. */
    constructor At(offsetAngle: real, x: int, y: int)
      ensures this.offsetAngle == offsetAngle && offsetLocation == Point(x as real, y as real)
      ensures maxRange == DEFAULT_MAX && uncertainty == 0.0
      ensures endOffset == Point(x as real, DEFAULT_MAX)
      ensures location == Point(0.0, 0.0) && endPoint == Point(0.0, 0.0) && host == null && output == 0.0
    {
      this.offsetAngle := offsetAngle;
      offsetLocation, maxRange, uncertainty := Point(x as real, y as real), DEFAULT_MAX, 0.0;
      endOffset := Point(x as real, DEFAULT_MAX);
      location, endPoint, angle, host, output := Point(0.0, 0.0), Point(0.0, 0.0), 0.0, null, 0.0;
    }

    /** DistanceSensor(offsetAngle, offsetLocation, range): no noise. */
    constructor Ranged(offsetAngle: real, offsetLocation: Point, range: real)
      ensures this.offsetAngle == offsetAngle && this.offsetLocation == offsetLocation
      ensures maxRange == range && uncertainty == 0.0
      ensures endOffset == Point(offsetLocation.x, range)
      ensures location == Point(0.0, 0.0) && endPoint == Point(0.0, 0.0) && host == null && output == 0.0
    {
      this.offsetAngle := offsetAngle;
      this.offsetLocation, maxRange, uncertainty := offsetLocation, range, 0.0;
      endOffset := Point(offsetLocation.x, range);
      location, endPoint, angle, host, output := Point(0.0, 0.0), Point(0.0, 0.0), 0.0, null, 0.0;
    }

    /** DistanceSensor(offsetAngle, offsetLocation, range, uncertainty): the end offset is (offset x, range). */
    constructor (offsetAngle: real, offsetLocation: Point, range: real, uncertainty: real)
      ensures this.offsetAngle == offsetAngle && this.offsetLocation == offsetLocation
      ensures maxRange == range && this.uncertainty == uncertainty
      ensures endOffset == Point(offsetLocation.x, range)
      ensures location == Point(0.0, 0.0) && endPoint == Point(0.0, 0.0) && host == null && output == 0.0
    {
      this.offsetAngle := offsetAngle;
      this.offsetLocation, maxRange, this.uncertainty := offsetLocation, range, uncertainty;
      endOffset := Point(offsetLocation.x, range);
      location, endPoint, angle, host, output := Point(0.0, 0.0), Point(0.0, 0.0), 0.0, null, 0.0;
    }

    /**
     * setObject: the start is the host's centre moved by the offset at the
     * host's heading; the end is the centre moved by (offset x, range) at the
     * heading plus the sensor's own offset angle.
     */
    method SetObject(lib: Lib, host: Robot)
      modifies this
      ensures location == AddVector(lib, host.pose.com, offsetLocation, host.pose.angle)
      ensures endPoint == AddVector(lib, host.pose.com, endOffset, host.pose.angle + offsetAngle)
      ensures angle == host.pose.angle + offsetAngle && this.host == host
      ensures offsetLocation == old(offsetLocation) && endOffset == old(endOffset)
      ensures maxRange == old(maxRange) && uncertainty == old(uncertainty) && output == old(output)
    {
      location := AddVector(lib, host.pose.com, offsetLocation, host.pose.angle);
      endPoint := AddVector(lib, host.pose.com, endOffset, host.pose.angle + offsetAngle);
      angle := host.pose.angle + offsetAngle;
      this.host := host;
    }

    /**
     * analyse: the least candidate reading, or the range, with the noise
     * draw g (Random.nextGaussian, a parameter here) scaled by the
     * uncertainty.  With no uncertainty the output is the noiseless reading.
     */
    method Analyse(lib: Lib, env: Environment, robots: seq<Robot>, cups: seq<Cup>, g: real)
      modifies this
      ensures output == Noisy(RangeReading(lib, env, robots, cups, host, location, endPoint, angle, maxRange), g, uncertainty)
      ensures maxRange == old(maxRange) && angle == old(angle) && location == old(location) && endPoint == old(endPoint)
      ensures host == old(host) && uncertainty == old(uncertainty)
      ensures offsetLocation == old(offsetLocation) && endOffset == old(endOffset)
    {
      var reading := Reading(lib, env, robots, cups);
      output := Noisy(reading, g, uncertainty);
    }

    /** The four loops of analyse, before the noise. */
    method Reading(lib: Lib, env: Environment, robots: seq<Robot>, cups: seq<Cup>) returns (reading: real)
      ensures reading == RangeReading(lib, env, robots, cups, host, location, endPoint, angle, maxRange)
    {
      reading := ScanRobots(lib, robots);
      reading := ScanCups(lib, cups, reading);
      reading := ScanTerrain(lib, env.impassables, reading);
      var temp := DistanceToPolygon(lib, location, lib.outline(env.outline), angle, maxRange);
      if temp < reading {
        reading := temp;
      }
      RangeReadingSplit(lib, env, robots, cups, host, location, endPoint, angle, maxRange);
    }

    /** The robot loop of analyse, from the range. */
    method ScanRobots(lib: Lib, robots: seq<Robot>) returns (reading: real)
      ensures reading == ScanMin(MetRobotRays(lib, robots, host, location, endPoint, angle, maxRange), 0, maxRange)
    {
      ghost var rh := MetRobotRays(lib, robots, host, location, endPoint, angle, maxRange);
      reading := maxRange;
      var i := 0;
      while i < |robots|
        invariant 0 <= i <= |robots|
        invariant ScanMin(rh, i, reading) == ScanMin(rh, 0, maxRange)
      {
        var robot := robots[i];
        if robot != host {
          var meets := IntersectsPolygon(lib, location, endPoint, lib.outline(robot.pose.region));
          if meets {
            var temp := DistanceToPolygon(lib, location, lib.outline(robot.pose.region), angle, maxRange);
            if temp < reading {
              reading := temp;
            }
          }
        }
        i := i + 1;
      }
    }

    /** The cup loop of analyse, continuing from the robots' minimum. */
    method ScanCups(lib: Lib, cups: seq<Cup>, start: real) returns (reading: real)
      ensures reading == ScanMin(MetCupDistances(lib, cups, location, endPoint), 0, start)
    {
      ghost var ch := MetCupDistances(lib, cups, location, endPoint);
      reading := start;
      var i := 0;
      while i < |cups|
        invariant 0 <= i <= |cups|
        invariant ScanMin(ch, i, reading) == ScanMin(ch, 0, start)
      {
        var meets := IntersectsPolygon(lib, location, endPoint, lib.outline(cups[i].pose.region));
        if meets {
          var temp := Distance(lib, location, cups[i].pose.com);
          if temp < reading {
            reading := temp;
          }
        }
        i := i + 1;
      }
    }

    /** The impassable-terrain loop of analyse, continuing from the cups' minimum. */
    method ScanTerrain(lib: Lib, ts: seq<Terrain>, start: real) returns (reading: real)
      ensures reading == ScanMin(MetTerrainRays(lib, ts, location, endPoint, angle, maxRange), 0, start)
    {
      ghost var th := MetTerrainRays(lib, ts, location, endPoint, angle, maxRange);
      reading := start;
      var i := 0;
      while i < |ts|
        invariant 0 <= i <= |ts|
        invariant ScanMin(th, i, reading) == ScanMin(th, 0, start)
      {
        var meets := IntersectsPolygon(lib, location, endPoint, lib.outline(ts[i].pose.region));
        if meets {
          var temp := DistanceToPolygon(lib, location, lib.outline(ts[i].pose.region), angle, maxRange);
          if temp < reading {
            reading := temp;
          }
        }
        i := i + 1;
      }
    }
  }
}
