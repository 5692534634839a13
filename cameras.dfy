/**
 * The two triangle-scan sensors of simulation.sensors: Camera, which finds the
 * nearest unobstructed cup (of a chosen kind) or robot in a triangle ahead
 * of the host, and RobotCamera, which does the same for robots only.  Each
 * candidate body is viewed as a Sighting: its region, its centre of mass,
 * whether the scan skips it outright and whether something stands between
 * the sensor and its centre.
 */
module Cameras {
  import opened Numerics
  import opened Geometry
  import opened Points
  import opened Wrappers
  import opened Entities
  import opened RigidBodies
  import opened Robots
  import opened Cups
  import opened Environments

  const CAMERA_DIST: real := 500.0
  const CAMERA_WIDTH: real := 1000.0

  /** What a Camera looks for. */
  datatype CameraTarget = AllCups | AllRobots | UprightCups | FallenCups

  /** A candidate body as the scan loop sees it. */
  datatype Sighting = Sighting(region: Region, com: Point, skipped: bool, blocked: bool)

  /** The scan triangle: apex at the origin, base maxDist ahead and maxWidth wide, corners truncated to int. */
  function ScanTriangle(maxWidth: real, maxDist: real): Region
  {
    Polygon([0, Trunc(-maxWidth / 2.0), Trunc(maxWidth / 2.0)], [0, Trunc(maxDist), Trunc(maxDist)])
  }

  /** The scan area of one analysis: the triangle with its centre at the origin, placed at the sensor and turned to its heading. */
  function ScanAreaAt(original: Pose, location: Point, angle: real): Pose
  {
    ShapeBody(original.region, Point(0.0, 0.0)).Place(location.x, location.y).Rotate(angle)
  }

  /** The bearing both cameras report before normalising: atan2(dx, dy) from the sensor to the body, plus the heading. */
  function SightBearing(lib: Lib, from: Point, to: Point, heading: real): real
  {
    lib.atan2(to.x - from.x, to.y - from.y) + heading
  }

  /** The scan loop's test: not skipped, overlapping the scan area, unobstructed, and nearer than closest. */
  predicate Takes(lib: Lib, from: Point, scan: Region, s: Sighting, closest: real)
  {
    !s.skipped && Intersects(lib, scan, s.region) && !s.blocked && Distance(lib, from, s.com) < closest
  }

  /** A sighting counts when the scan would take it against the maximum distance. */
  predicate Visible(lib: Lib, from: Point, maxDist: real, scan: Region, s: Sighting)
  {
    Takes(lib, from, scan, s, maxDist)
  }

  /** The scan loop from index i on, holding item at distance closest. */
  function PickFrom(lib: Lib, from: Point, scan: Region, col: seq<Sighting>, i: nat, item: Option<nat>, closest: real): Option<nat>
    requires i <= |col|
    decreases |col| - i
  {
    if i == |col| then item
    else if Takes(lib, from, scan, col[i], closest) then PickFrom(lib, from, scan, col, i + 1, Some(i), Distance(lib, from, col[i].com))
    else PickFrom(lib, from, scan, col, i + 1, item, closest)
  }

  /** The index the scan keeps, starting from nothing at the maximum distance. */
  function NearestPick(lib: Lib, from: Point, maxDist: real, scan: Region, col: seq<Sighting>): Option<nat>
  {
    PickFrom(lib, from, scan, col, 0, None, maxDist)
  }

  /**
   * Sighting k is the one the scan should keep: visible, no farther than any
   * visible sighting, and strictly nearer than every visible sighting before
   * it, so that ties go to the first in the list.
   */
  predicate IsNearest(lib: Lib, from: Point, maxDist: real, scan: Region, col: seq<Sighting>, k: int)
  {
    0 <= k < |col| && Visible(lib, from, maxDist, scan, col[k])
    && (forall j :: 0 <= j < |col| && Visible(lib, from, maxDist, scan, col[j]) ==>
          Distance(lib, from, col[k].com) <= Distance(lib, from, col[j].com))
    && (forall j :: 0 <= j < k && Visible(lib, from, maxDist, scan, col[j]) ==>
          Distance(lib, from, col[k].com) < Distance(lib, from, col[j].com))
  }

  /** At most one sighting is the nearest one. */
  lemma NearestIsUnique(lib: Lib, from: Point, maxDist: real, scan: Region, col: seq<Sighting>, k: int, m: int)
    requires IsNearest(lib, from, maxDist, scan, col, k) && IsNearest(lib, from, maxDist, scan, col, m)
    ensures k == m
  {
  }

  /** What the scan knows after the first i sightings. */
  ghost predicate PickInvariant(lib: Lib, from: Point, maxDist: real, scan: Region, col: seq<Sighting>,
                                i: nat, item: Option<nat>, closest: real)
  {
    i <= |col|
    && (item.None? ==> closest == maxDist && forall j :: 0 <= j < i ==> !Visible(lib, from, maxDist, scan, col[j]))
    && (item.Some? ==> item.value < i && Visible(lib, from, maxDist, scan, col[item.value])
                       && closest == Distance(lib, from, col[item.value].com))
    && (forall j :: 0 <= j < i && Visible(lib, from, maxDist, scan, col[j]) ==> closest <= Distance(lib, from, col[j].com))
    && (item.Some? ==> forall j :: 0 <= j < item.value && Visible(lib, from, maxDist, scan, col[j]) ==>
                         closest < Distance(lib, from, col[j].com))
  }

  /** One turn of the scan loop keeps the invariant. */
  lemma PickStep(lib: Lib, from: Point, maxDist: real, scan: Region, col: seq<Sighting>,
                 i: nat, item: Option<nat>, closest: real)
    requires i < |col| && PickInvariant(lib, from, maxDist, scan, col, i, item, closest)
    ensures Takes(lib, from, scan, col[i], closest) ==>
              PickInvariant(lib, from, maxDist, scan, col, i + 1, Some(i), Distance(lib, from, col[i].com))
    ensures !Takes(lib, from, scan, col[i], closest) ==> PickInvariant(lib, from, maxDist, scan, col, i + 1, item, closest)
  {
  }

  lemma {:induction false} PickFromFinds(lib: Lib, from: Point, maxDist: real, scan: Region, col: seq<Sighting>,
                                         i: nat, item: Option<nat>, closest: real)
    requires PickInvariant(lib, from, maxDist, scan, col, i, item, closest)
    decreases |col| - i
    ensures var r := PickFrom(lib, from, scan, col, i, item, closest);
            (r.None? <==> forall j :: 0 <= j < |col| ==> !Visible(lib, from, maxDist, scan, col[j]))
            && (r.Some? ==> IsNearest(lib, from, maxDist, scan, col, r.value))
  {
    if i < |col| {
      PickStep(lib, from, maxDist, scan, col, i, item, closest);
      if Takes(lib, from, scan, col[i], closest) {
        PickFromFinds(lib, from, maxDist, scan, col, i + 1, Some(i), Distance(lib, from, col[i].com));
      } else {
        PickFromFinds(lib, from, maxDist, scan, col, i + 1, item, closest);
      }
    }
  }

  /**
   * The scan keeps nothing exactly when no sighting is visible, and otherwise
   * keeps the nearest visible sighting, the first of equals.
   */
  lemma NearestPickIsNearest(lib: Lib, from: Point, maxDist: real, scan: Region, col: seq<Sighting>)
    ensures NearestPick(lib, from, maxDist, scan, col).None? <==> forall j :: 0 <= j < |col| ==> !Visible(lib, from, maxDist, scan, col[j])
    ensures NearestPick(lib, from, maxDist, scan, col).Some? ==>
              IsNearest(lib, from, maxDist, scan, col, NearestPick(lib, from, maxDist, scan, col).value)
  {
    PickFromFinds(lib, from, maxDist, scan, col, 0, None, maxDist);
  }

  /** The kept sighting is one of the list and visible. */
  lemma NearestPickVisible(lib: Lib, from: Point, maxDist: real, scan: Region, col: seq<Sighting>)
    ensures var r := NearestPick(lib, from, maxDist, scan, col);
            r.Some? ==> r.value < |col| && Visible(lib, from, maxDist, scan, col[r.value])
  {
    NearestPickIsNearest(lib, from, maxDist, scan, col);
  }

  // ---------------------------------------------------------------- Camera

  /** isObstruction's cup rule: while looking for cups of one posture, a cup of the other posture blocks the view. */
  predicate CupBlocks(target: CameraTarget, upright: bool)
  {
    target != AllRobots && ((upright && target == FallenCups) || (!upright && target == UprightCups))
  }

  /**
   * isObstruction: unless robots are the target, another robot whose outline
   * crosses the line of sight; a cup of the wrong posture on it; or an
   * impassable terrain on it.
   */
  predicate CameraObstructed(lib: Lib, target: CameraTarget, host: Robot?, from: Point,
                             env: Environment, robots: seq<Robot>, cups: seq<Cup>, p: Point)
    reads env, robots, cups
  {
    (target != AllRobots && exists i :: 0 <= i < |robots| && robots[i] != host && RayMeets(lib, from, p, lib.outline(robots[i].pose.region)))
    || (exists i :: 0 <= i < |cups| && RayMeets(lib, from, p, lib.outline(cups[i].pose.region)) && CupBlocks(target, cups[i].upright))
    || (exists i :: 0 <= i < |env.impassables| && RayMeets(lib, from, p, lib.outline(env.impassables[i].pose.region)))
  }

  /** A cup, skipped when its posture is not the one looked for. */
  function CupSighting(lib: Lib, target: CameraTarget, host: Robot?, from: Point,
                       env: Environment, robots: seq<Robot>, cups: seq<Cup>, c: Cup): Sighting
    reads env, robots, cups, c
  {
    Sighting(c.pose.region, c.pose.com,
             (target == UprightCups && !c.upright) || (target == FallenCups && c.upright),
             CameraObstructed(lib, target, host, from, env, robots, cups, c.pose.com))
  }

  /** A robot, skipped when it is the host. */
  function RobotSighting(lib: Lib, target: CameraTarget, host: Robot?, from: Point,
                         env: Environment, robots: seq<Robot>, cups: seq<Cup>, r: Robot): Sighting
    reads env, robots, cups, r
  {
    Sighting(r.pose.region, r.pose.com, r == host, CameraObstructed(lib, target, host, from, env, robots, cups, r.pose.com))
  }

  /** The collection analyse scans: the robots when they are the target, the cups otherwise. */
  function CameraSightings(lib: Lib, target: CameraTarget, host: Robot?, from: Point,
                           env: Environment, robots: seq<Robot>, cups: seq<Cup>): (col: seq<Sighting>)
    reads env, robots, cups
  {
    if target == AllRobots then
      seq(|robots|, i requires 0 <= i < |robots| reads env, robots, cups =>
        RobotSighting(lib, target, host, from, env, robots, cups, robots[i]))
    else
      seq(|cups|, i requires 0 <= i < |cups| reads env, robots, cups =>
        CupSighting(lib, target, host, from, env, robots, cups, cups[i]))
  }

  /** A camera with a triangular field of view ahead of its host. */
  class Camera {
    var objToFind: CameraTarget
    var angle: real
    var location: Point
    var maxDist: real
    /** The host set by setObject; until then the camera has no location. */
    var host: Robot?
    var objAngle: real
    var objDist: real
    var offsetAngle: real
    var scanArea: Pose
    var scanAreaOriginal: Pose
    /** The centre of the body last found. */
    var target: Point

    /** Camera(): facing forward, 1000 wide and 500 deep. */
    constructor Default()
      ensures offsetAngle == 0.0 && maxDist == CAMERA_DIST && objToFind == AllCups
      ensures scanAreaOriginal == ShapeBody(ScanTriangle(CAMERA_WIDTH, CAMERA_DIST), Point(0.0, 0.0))
      ensures objDist == CAMERA_DIST && objAngle == 0.0 && host == null
    {
      objToFind := AllCups;
      offsetAngle, maxDist := 0.0, CAMERA_DIST;
      scanAreaOriginal := ShapeBody(ScanTriangle(CAMERA_WIDTH, CAMERA_DIST), Point(0.0, 0.0));
      scanArea := scanAreaOriginal;
      objDist, objAngle := CAMERA_DIST, 0.0;
      angle, location, host, target := 0.0, Point(0.0, 0.0), null, Point(0.0, 0.0);
    }

    /** Camera(offsetAngle, maxWidth, maxDist): no target yet, the distance at its maximum. */
    constructor (offsetAngle: real, maxWidth: real, maxDist: real)
      ensures this.offsetAngle == offsetAngle && this.maxDist == maxDist && objToFind == AllCups
      ensures scanAreaOriginal == ShapeBody(ScanTriangle(maxWidth, maxDist), Point(0.0, 0.0))
      ensures objDist == maxDist && objAngle == 0.0 && host == null
    {
      objToFind := AllCups;
      this.offsetAngle, this.maxDist := offsetAngle, maxDist;
      scanAreaOriginal := ShapeBody(ScanTriangle(maxWidth, maxDist), Point(0.0, 0.0));
      scanArea := scanAreaOriginal;
      objDist, objAngle := maxDist, 0.0;
      angle, location, host, target := 0.0, Point(0.0, 0.0), null, Point(0.0, 0.0);
    }

    /** setObject: the host's centre and heading plus the offset. */
    method SetObject(host: Robot)
      modifies this
      ensures location == host.pose.com && angle == host.pose.angle + offsetAngle && this.host == host
      ensures objToFind == old(objToFind) && maxDist == old(maxDist) && offsetAngle == old(offsetAngle)
      ensures objDist == old(objDist) && objAngle == old(objAngle) && scanAreaOriginal == old(scanAreaOriginal)
    {
      location := host.pose.com;
      angle := host.pose.angle + offsetAngle;
      this.host := host;
    }

    /** setTargetObject. */
    method SetTargetObject(t: CameraTarget)
      modifies this
      ensures objToFind == t
      ensures angle == old(angle) && location == old(location) && host == old(host) && maxDist == old(maxDist)
      ensures objDist == old(objDist) && objAngle == old(objAngle) && scanAreaOriginal == old(scanAreaOriginal)
    {
      objToFind := t;
    }

    /** hasTarget: false exactly when the distance is at its maximum and the angle is 0. */
    function HasTarget(): bool
      reads this
    {
      !(objDist == maxDist && objAngle == 0.0)
    }

    /**
     * analyse: the scan area rebuilt at the sensor; with nothing kept the
     * distance stays at its maximum and the angle at 0, so hasTarget is
     * false; otherwise the kept body gives the distance, below the maximum,
     * and the bearing atan2(dx, dy) plus the heading brought into [-pi, pi].
     */
    method Analyse(lib: Lib, env: Environment, robots: seq<Robot>, cups: seq<Cup>) returns (ghost turns: int)
      requires host != null
      modifies this
      ensures scanArea == ScanAreaAt(scanAreaOriginal, location, angle)
      ensures var col := old(CameraSightings(lib, objToFind, host, location, env, robots, cups));
              var item := NearestPick(lib, location, maxDist, scanArea.region, col);
              (item.None? ==> objDist == maxDist && objAngle == 0.0 && target == old(target))
              && (item.Some? ==> item.value < |col| && target == col[item.value].com
                                 && objDist == Distance(lib, location, target) < maxDist
                                 && -PI <= objAngle <= PI
                                 && objAngle == Turns(SightBearing(lib, location, target, angle), turns))
      ensures HasTarget() <==> NearestPick(lib, location, maxDist, scanArea.region,
                                           old(CameraSightings(lib, objToFind, host, location, env, robots, cups))).Some?
      ensures objToFind == old(objToFind) && angle == old(angle) && location == old(location) && host == old(host)
      ensures maxDist == old(maxDist) && offsetAngle == old(offsetAngle) && scanAreaOriginal == old(scanAreaOriginal)
    {
      var col := CameraSightings(lib, objToFind, host, location, env, robots, cups);
      objDist, objAngle := maxDist, 0.0;
      scanArea := ScanAreaAt(scanAreaOriginal, location, angle);
      var item := FindNearestInCollection(lib, col, scanArea.region, env, robots, cups);
      NearestPickVisible(lib, location, maxDist, scanArea.region, col);
      if item.None? {
        return 0;
      }
      turns := Aim(lib, col[item.value].com);
    }

    /** The end of analyse once a body is found: its distance, its bearing brought into [-pi, pi], its centre. */
    method Aim(lib: Lib, com: Point) returns (ghost turns: int)
      modifies this
      ensures target == com
      ensures objDist == if Distance(lib, location, com) == maxDist then 0.0 else Distance(lib, location, com)
      ensures -PI <= objAngle <= PI && objAngle == Turns(SightBearing(lib, location, com, angle), turns)
      ensures objToFind == old(objToFind) && angle == old(angle) && location == old(location) && host == old(host)
      ensures maxDist == old(maxDist) && offsetAngle == old(offsetAngle)
      ensures scanAreaOriginal == old(scanAreaOriginal) && scanArea == old(scanArea)
    {
      objDist := Distance(lib, location, com);
      var a := SightBearing(lib, location, com, angle);
      target := com;
      if objDist == maxDist {
        objDist := 0.0;
      }
      objAngle, turns := NormalizeAngle(a);
    }

    /** findNearestInCollection: the scan loop, keeping the nearest sighting it takes. */
    method FindNearestInCollection(lib: Lib, col: seq<Sighting>, scan: Region,
                                   env: Environment, robots: seq<Robot>, cups: seq<Cup>) returns (item: Option<nat>)
      requires forall j :: 0 <= j < |col| ==> col[j].blocked == CameraObstructed(lib, objToFind, host, location, env, robots, cups, col[j].com)
      ensures item == NearestPick(lib, location, maxDist, scan, col)
    {
      item := None;
      var closest := maxDist;
      var i := 0;
      while i < |col|
        invariant 0 <= i <= |col|
        invariant PickFrom(lib, location, scan, col, i, item, closest) == NearestPick(lib, location, maxDist, scan, col)
      {
        var t := col[i];
        if !t.skipped && Intersects(lib, scan, t.region) {
          var tempDist := Distance(lib, location, t.com);
          var obstructed := IsObstruction(lib, env, robots, cups, t.com);
          if !obstructed && tempDist < closest {
            closest := tempDist;
            item := Some(i);
          }
        }
        i := i + 1;
      }
    }

    /** isObstruction: the three loops, each answering true at the first body on the line of sight. */
    method IsObstruction(lib: Lib, env: Environment, robots: seq<Robot>, cups: seq<Cup>, p: Point) returns (blocked: bool)
      ensures blocked == CameraObstructed(lib, objToFind, host, location, env, robots, cups, p)
    {
      if objToFind != AllRobots {
        var i := 0;
        while i < |robots|
          invariant 0 <= i <= |robots|
          invariant forall j :: 0 <= j < i ==> !(robots[j] != host && RayMeets(lib, location, p, lib.outline(robots[j].pose.region)))
        {
          var robot := robots[i];
          if robot != host {
            var meets := IntersectsPolygon(lib, location, p, lib.outline(robot.pose.region));
            if meets {
              return true;
            }
          }
          i := i + 1;
        }
      }
      var i := 0;
      while i < |cups|
        invariant 0 <= i <= |cups|
        invariant forall j :: 0 <= j < i ==> !(RayMeets(lib, location, p, lib.outline(cups[j].pose.region)) && CupBlocks(objToFind, cups[j].upright))
      {
        var meets := IntersectsPolygon(lib, location, p, lib.outline(cups[i].pose.region));
        if meets && CupBlocks(objToFind, cups[i].upright) {
          return true;
        }
        i := i + 1;
      }
      blocked := TerrainOnLine(lib, location, p, env);
    }
  }

  /** Some impassable terrain's outline crosses the segment from p to q. */
  predicate TerrainBetween(lib: Lib, p: Point, q: Point, env: Environment)
    reads env
  {
    exists i :: 0 <= i < |env.impassables| && RayMeets(lib, p, q, lib.outline(env.impassables[i].pose.region))
  }

  /** The impassable-terrain loop shared by both cameras' isObstruction. */
  method TerrainOnLine(lib: Lib, p: Point, q: Point, env: Environment) returns (blocked: bool)
    ensures blocked <==> TerrainBetween(lib, p, q, env)
  {
    var ts := env.impassables;
    var i := 0;
    while i < |ts|
      invariant 0 <= i <= |ts|
      invariant forall j :: 0 <= j < i ==> !RayMeets(lib, p, q, lib.outline(ts[j].pose.region))
    {
      var meets := IntersectsPolygon(lib, p, q, lib.outline(ts[i].pose.region));
      if meets {
        return true;
      }
      i := i + 1;
    }
    return false;
  }

  // ---------------------------------------------------------------- RobotCamera

  /** The robots as RobotCamera sees them: the host skipped, only impassable terrain in the way. */
  function RobotCameraSightings(lib: Lib, host: Robot?, from: Point, env: Environment, robots: seq<Robot>): (col: seq<Sighting>)
    reads env, robots
  {
    seq(|robots|, i requires 0 <= i < |robots| reads env, robots =>
      Sighting(robots[i].pose.region, robots[i].pose.com, robots[i] == host, TerrainBetween(lib, from, robots[i].pose.com, env)))
  }

  /** A camera that looks for robots only. */
  class RobotCamera {
    var angle: real
    var cupAngle: real
    var cupDist: real
    var location: Point
    var maxDist: real
    var offsetAngle: real
    var scanArea: Pose
    var scanAreaOriginal: Pose
    /**
     * The robot whose centre of mass location is: setObject shares the host's
     * centre, and analyse skips the robot whose centre is that same object.
     */
    var host: Robot?

    /** RobotCamera(offsetAngle, maxWidth, maxDist). */
    constructor (offsetAngle: real, maxWidth: real, maxDist: real)
      ensures this.offsetAngle == offsetAngle && this.maxDist == maxDist
      ensures scanAreaOriginal == ShapeBody(ScanTriangle(maxWidth, maxDist), Point(0.0, 0.0))
      ensures cupDist == 0.0 && cupAngle == 0.0 && host == null
    {
      this.offsetAngle, this.maxDist := offsetAngle, maxDist;
      scanAreaOriginal := ShapeBody(ScanTriangle(maxWidth, maxDist), Point(0.0, 0.0));
      scanArea := scanAreaOriginal;
      cupDist, cupAngle := 0.0, 0.0;
      angle, location, host := 0.0, Point(0.0, 0.0), null;
    }

    /** setObject: the host's centre and heading plus the offset. */
    method SetObject(host: Robot)
      modifies this
      ensures location == host.pose.com && angle == host.pose.angle + offsetAngle && this.host == host
      ensures maxDist == old(maxDist) && offsetAngle == old(offsetAngle) && scanAreaOriginal == old(scanAreaOriginal)
      ensures cupDist == old(cupDist) && cupAngle == old(cupAngle)
    {
      location := host.pose.com;
      angle := host.pose.angle + offsetAngle;
      this.host := host;
    }

    /** isCup: false exactly when distance and angle are both 0. */
    function IsCup(): bool
      reads this
    {
      !(cupDist == 0.0 && cupAngle == 0.0)
    }

    /**
     * analyse: with nothing kept the output is (0, 0) and isCup is false;
     * otherwise the kept robot gives the distance and the bearing
     * atan2(dx, dy) plus the heading, brought into [-pi, pi].
     */
    method Analyse(lib: Lib, env: Environment, robots: seq<Robot>) returns (ghost turns: int)
      requires host != null
      modifies this
      ensures scanArea == ScanAreaAt(scanAreaOriginal, location, angle)
      ensures var col := old(RobotCameraSightings(lib, host, location, env, robots));
              var found := NearestPick(lib, location, maxDist, scanArea.region, col);
              (found.None? ==> cupDist == 0.0 && cupAngle == 0.0 && !IsCup())
              && (found.Some? ==> found.value < |col| && cupDist == Distance(lib, location, col[found.value].com)
                                  && -PI <= cupAngle <= PI
                                  && cupAngle == Turns(SightBearing(lib, location, col[found.value].com, angle), turns))
      ensures angle == old(angle) && location == old(location) && host == old(host)
      ensures maxDist == old(maxDist) && offsetAngle == old(offsetAngle) && scanAreaOriginal == old(scanAreaOriginal)
    {
      ghost var col := RobotCameraSightings(lib, host, location, env, robots);
      scanArea := ScanAreaAt(scanAreaOriginal, location, angle);
      ghost var found;
      var d, a;
      found, d, a := NearestRobot(lib, env, robots, scanArea.region, col);
      NearestPickVisible(lib, location, maxDist, scanArea.region, col);
      cupDist, cupAngle := d, a;
      if cupDist == maxDist {
        cupDist := 0.0;
      }
      cupAngle, turns := NormalizeAngle(cupAngle);
    }

    /**
     * The loop of analyse: the distance and bearing of the kept robot, or
     * maxDist and 0 when none is kept; the kept index is ghost.
     */
    method NearestRobot(lib: Lib, env: Environment, robots: seq<Robot>, scan: Region, ghost col: seq<Sighting>)
      returns (ghost found: Option<nat>, dist: real, bearing: real)
      requires |col| == |robots|
      requires forall j :: 0 <= j < |col| ==>
                 col[j] == Sighting(robots[j].pose.region, robots[j].pose.com, robots[j] == host, TerrainBetween(lib, location, robots[j].pose.com, env))
      ensures found == NearestPick(lib, location, maxDist, scan, col)
      ensures found.None? ==> dist == maxDist && bearing == 0.0
      ensures found.Some? ==> found.value < |col| && dist == Distance(lib, location, col[found.value].com)
                              && bearing == SightBearing(lib, location, col[found.value].com, angle)
    {
      found, dist, bearing := None, maxDist, 0.0;
      var i := 0;
      while i < |robots|
        invariant 0 <= i <= |robots|
        invariant PickFrom(lib, location, scan, col, i, found, dist) == NearestPick(lib, location, maxDist, scan, col)
        invariant found.None? ==> dist == maxDist && bearing == 0.0
        invariant found.Some? ==> found.value < |col| && dist == Distance(lib, location, col[found.value].com)
                                  && bearing == SightBearing(lib, location, col[found.value].com, angle)
      {
        var robot := robots[i];
        if robot != host && Intersects(lib, scan, robot.pose.region) {
          var p := robot.pose.com;
          var tempDist := Distance(lib, location, p);
          var tempAngle := SightBearing(lib, location, p, angle);
          var obstruction := TerrainOnLine(lib, location, p, env);
          if !obstruction && tempDist < dist {
            found, dist, bearing := Some(i), tempDist, tempAngle;
          }
        }
        i := i + 1;
      }
    }
  }
}
