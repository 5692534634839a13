# robosim in Dafny

robosim is a two-dimensional arena simulator for small robots whose brains
are Ruby scripts. At a fixed rate of 50 frames a second (DT = 1/50 s) the
`Simulator` gives every robot its turn:
- its sensors read the arena;
- its brain answers with a `RobotOutput` (motor, steering, arm);
- the velocity rule proposes a new body;
- collision resolution settles that body against other robots, the arena walls and impassable terrain, and the cups it pushes;
- the arm collects any cup that has stayed long enough under the robot's collection area.

The arena (`Environment`) keeps its terrain patches in three insertion-ordered
lists. Passable patches set the ground friction. Impassable ones act as walls.

This project models that core in Dafny:

- **Pose bookkeeping and small value types**: `RigidBody`, `Entity`,
  `Collision`, `XPoint`, `Cup`, `Terrain`, `RobotOutput` and the `Robot`
  state, including the brain's class-name parser and fault mapping.
- **Arena registry** (`Environment`): creation, deletion, obstruction
  queries and the friction average.
- **Tick engine** (`Simulator`): the registry, `gameLoop`, `findNewState`,
  `resolve` and its response helpers, and the collection counter.
- **Controllers and behaviours** (`entities/behaviour`): PID, Drive, the two
  turns and the composite behaviours.
- **Sensors' selection logic**: `CupSensor`, `DistanceSensor`, `Camera`,
  `RobotCamera`, `RobotRadar`, `Encoder`, `Bumper` and `TerrainSensor`.
- **Polygon editor** (`PolygonCreator`): point-list and grid-snapping logic.

How the model is built:

- **Objects the Java code mutates are Dafny classes.** The arena's lists,
  the simulator's robot and cup lists, and a behaviour's sub-controllers
  are fields that the methods update. Each method's `ensures` ties the new
  state to a specification function of the old state, such as `WallSettle`,
  `PushSettle`, `ArmSweep`, `DriveTick`, `TurnTick`, `MoverTick` or
  `Coefficient`. Lemmas then prove what the source promises about those
  functions.
- **Foreign code is a parameter.** The `Lib` value (module `Geometry`)
  carries the Area operations of java.awt.geom, path-iterator outlines,
  bounding boxes, Line2D intersection, trigonometry, `Math.sqrt` and
  `String.valueOf(double)`. Regions are a term algebra (rectangles,
  ellipses, arcs, translations, rotations, intersections). `Lib` answers
  questions about them, and some lemmas assume a *sound* library (for
  example, one whose `isEmpty` agrees with point membership).
- **Randomness is an input.** Gaussian motor noise and spill shapes enter
  through an `Entropy` value.
- **Sensor readings are inputs to the behaviours.** This covers velocity,
  compass, distance, camera and collection readings.
- **Java doubles are reals, with NaN written out.** A NaN is a `Dbl` value
  where the source can produce one: for an angle of coincident lines, the
  bearing of two cups at the same centre, or the slope of a degenerate
  line. Where the source would go on computing with a NaN or an infinity
  (a NaN wall angle, a NaN cup bearing, a robot of mass 0), the model
  stops or holds instead, as "## Left out" says member by member. Java's
  `%`, truncation and the `[-pi, pi]` normalisation loops are written out
  explicitly.
- **The uncapped cup-on-cup loop of `resolve` is given `fuel`.** When the
  fuel runs out, `resolve` reports `Hang`, and a lemma shows inputs on
  which it never ends.

## Model

| member | source | states |
|---|---|---|
| Numerics.FMod | src/simulation/Simulator.java:401-403 | Java's `%` on doubles: the remainder keeps the dividend's sign and is smaller than the divisor in magnitude |
| Numerics.IntRem | src/ux/display/designer/PolygonCreator.java:262-281 | Java's `%` on int: truncating division, so the remainder takes the dividend's sign, with `a == b * q + r` |
| Numerics.NormalizeAngle | src/simulation/sensors/Camera.java:119-126 | the two while loops bring a bearing into [-pi, pi] by a whole number of turns |
| Numerics.DblAdd | src/simulation/geometry/Entity.java:144-160 | adding to NaN gives NaN; adding to a number adds |
| RobotOutputs.Saturate | src/simulation/entities/RobotOutput.java:38-62 | the result lies in [-limit, limit]; a value strictly inside is kept, anything else becomes the nearer limit |
| RobotOutputs.SaturateIdempotent | src/simulation/entities/RobotOutput.java:38-62 | clamping an already clamped value changes nothing |
| RobotOutputs.SaturateMonotone | src/simulation/entities/RobotOutput.java:38-62 | clamping keeps the order of two requests |
| RobotOutputs.SaturateOdd | src/simulation/entities/RobotOutput.java:38-62 | clamping commutes with negation |
| RobotOutputs.RobotOutput.constructor | src/simulation/entities/RobotOutput.java:8-12 | a new output has the arm off and motor and steering 0 |
| RobotOutputs.RobotOutput.SetArm | src/simulation/entities/RobotOutput.java:24-26 | the arm flag becomes the argument; motor and steering are unchanged |
| RobotOutputs.RobotOutput.SetMotor | src/simulation/entities/RobotOutput.java:38-44 | the motor becomes the request clamped to [-100, 100]; arm and steering are unchanged |
| RobotOutputs.RobotOutput.SetSteering | src/simulation/entities/RobotOutput.java:56-62 | the steering becomes the request clamped to [-15, 15]; arm and motor are unchanged |
| RobotOutputs.SetBoth | src/simulation/entities/RobotOutput.java:38-62 | requests of 250 and -3 are stored as 100 and -3 |
| Collisions.CollisionConstructors | src/simulation/geometry/Collision.java:15-43 | the no-argument collision has not occurred and has angle 0; `Collision(a)` has occurred and its angle is a |
| Points.SlopeOf | src/simulation/geometry/XPoint.java:145-164 | the slope is infinite for a vertical pair, NaN for equal ends, and otherwise the finite quotient |
| Points.CollinearIsOnLine | src/simulation/geometry/XPoint.java:145-164 | every point of the infinite line through two distinct ends is on it, including points beyond the ends |
| Points.VerticalLine | src/simulation/geometry/XPoint.java:147-154 | for a vertical pair, isOnLine holds iff the point is within 0.0001 of the ends' x |
| Points.DegenerateLine | src/simulation/geometry/XPoint.java:147-161 | with identical ends the slope is NaN, so isOnLine never holds |
| Points.OnLineExamples | test/simulation/geometry/XPointTest.java:124-138 | (2,2) is on the line through (1,1) and (5,5); (2,22) is not on the line through (0,1) and (13,5) |
| Points.EdgeHits | src/simulation/geometry/XPoint.java:82-126 | one edge test per vertex, edge i running from vertex i to the vertex before it |
| Points.DistanceToPolygon | src/simulation/geometry/XPoint.java:82-126 | the loop, with `last` trailing one vertex behind, returns the ray distance of RayDistance |
| Points.RayDistanceIsMinimum | src/simulation/geometry/XPoint.java:82-126 | the distance never exceeds max, is at most every accepted crossing, and is max or one of the crossings |
| Points.RayDistanceNoHit | src/simulation/geometry/XPoint.java:82-126 | when no edge crossing with 0 <= h <= 1 and g >= 0 lies below max, the distance is max |
| Points.RaySquareExamplesUp | test/simulation/geometry/XPointTest.java:36-63 | from (20,10) in the 100 by 100 square, the rays at 0 and pi/2 meet the walls at 90 and 20 |
| Points.RaySquareExamplesDown | test/simulation/geometry/XPointTest.java:36-63 | from (20,10) the rays at pi and 3 pi/2 meet the walls at 10 and 80 |
| Points.IntersectsPolygon | src/simulation/geometry/XPoint.java:192-221 | true iff some edge of the outline meets the segment, stopping at the first such edge |
| Entities.IntersectsIffCommonPoint | src/simulation/geometry/Entity.java:192-199 | with a sound library, two regions intersect iff they share a point |
| Entities.IntersectsSymmetric | src/simulation/geometry/Entity.java:192-199 | intersects is symmetric |
| Entities.ContainsIffSubset | src/simulation/geometry/Entity.java:107-118 | with a sound library, contains(s) holds iff every point of s is in this region |
| Entities.ContainedIntersects | src/simulation/geometry/Entity.java:107-118 | a non-empty region contained in another intersects it |
| Entities.EdgeMatch | src/simulation/geometry/Entity.java:216-224 | the first edge from j on whose line the point lies, or none when no such edge exists |
| Entities.PointMatch | src/simulation/geometry/Entity.java:212-225 | the first (point, edge) pair with the point on the edge's line, points in the outer loop and edges in the inner one |
| Entities.CoincidentAngle | src/simulation/geometry/Entity.java:207-228 | NaN iff no collision point lies on any edge line; otherwise the bearing from the first matching edge's vertex to the vertex before it |
| Entities.FindAngleOfCoincidentLine | src/simulation/geometry/Entity.java:207-228 | the labelled double loop, with prev starting at the last vertex, returns CoincidentAngle |
| Entities.IncidenceAngleCollision | src/simulation/geometry/Entity.java:144-160 | a collision occurs iff this region and the shape overlap; its angle is edge angle + pi/2 - shape angle |
| Entities.InternalIncidenceAngleCollision | src/simulation/geometry/Entity.java:168-185 | a collision occurs iff the remainder (this and shape) xor shape is non-empty |
| Entities.OutsidePartPoints | src/simulation/geometry/Entity.java:168-185 | with a sound library, the xor remainder holds exactly the points of the shape outside this region |
| Entities.InternalIffNotContained | src/simulation/geometry/Entity.java:168-185 | with a sound library, the internal collision occurs iff the shape is not contained in this region |
| Entities.ReportedAngleNaN | src/simulation/geometry/Entity.java:144-160 | the collision angle is NaN iff no overlap vertex lies on any edge line of this outline |
| Entities.AdjustOffsetLocation | src/simulation/geometry/Entity.java:237-242 | the location moved by the offset rotated through angle, with the offset's y pointing up the screen |
| Entities.AdjustAtZero | src/simulation/geometry/Entity.java:237-242 | at angle 0 the offset's x is added and its y subtracted |
| RigidBodies.ShapeBody | src/simulation/geometry/RigidBody.java:40-43 | the given region and centre of mass, angle 0 |
| RigidBodies.CircleBody | src/simulation/geometry/RigidBody.java:63-66 | the circle body is centred on (x, y), angle 0 |
| RigidBodies.RectBody | src/simulation/geometry/RigidBody.java:88-91 | the rectangle body's centre of mass is its middle, angle 0 |
| RigidBodies.LineBody | src/simulation/geometry/RigidBody.java:51-54 | the segment body's centre of mass is its first end, angle 0 |
| RigidBodies.EllipseBody | src/simulation/geometry/RigidBody.java:102-105 | the ellipse body is centred on (x, y), angle 0 |
| RigidBodies.ArcBody | src/simulation/geometry/RigidBody.java:110-113 | the arc body is centred on (x, y), angle 0 |
| RigidBodies.RotateThenBack | src/simulation/geometry/RigidBody.java:137-140 | rotate adds to the angle with no wrap-around and keeps the centre of mass; rotate(a) then rotate(-a) restores the angle |
| RigidBodies.RotateAboutPointKeepsCom | src/simulation/geometry/RigidBody.java:147-150 | rotateAboutPoint changes the angle as rotate does but never the centre of mass; it equals rotate iff the pivot is the centre |
| RigidBodies.PlaceIsTranslate | src/simulation/geometry/RigidBody.java:165-168 | place puts the centre of mass exactly at (x, y), keeps the angle, and is translate by the difference |
| RigidBodies.TranslateThenBack | src/simulation/geometry/RigidBody.java:175-178 | translating back restores the centre of mass, translations add up, and the angle is kept |
| RigidBodies.Bearing | src/simulation/geometry/RigidBody.java:284-309 | atan(dx/dy) of the centre offset; NaN iff the centres coincide, and the plain arctangent when dy is not 0 |
| RigidBodies.CollideWith | src/simulation/geometry/RigidBody.java:284-309 | no collision unless the regions intersect; inside the critical cone the body's own angle; outside it a quarter turn off that angle |
| RigidBodies.CollideSameCentre | src/simulation/geometry/RigidBody.java:284-309 | with coincident centres (NaN bearing) every comparison fails, so the collision is at angle - pi/2 |
| RigidBodies.RigidBody.Copy | src/simulation/geometry/RigidBody.java:28-32 | the copy has the other body's region, angle and centre of mass |
| RigidBodies.RigidBody.FromPose | src/simulation/geometry/RigidBody.java:40-113 | a body built by any shape constructor holds the pose that constructor's function gives |
| RigidBodies.RigidBody.Rotate | src/simulation/geometry/RigidBody.java:137-140 | the new pose is the old one rotated by a |
| RigidBodies.RigidBody.RotateAboutPoint | src/simulation/geometry/RigidBody.java:147-150 | the new pose is the old one rotated about p, with the centre of mass unchanged |
| RigidBodies.RigidBody.Translate | src/simulation/geometry/RigidBody.java:175-178 | the new pose is the old one translated by (dx, dy) |
| RigidBodies.RigidBody.Place | src/simulation/geometry/RigidBody.java:165-168 | the new pose is the old one placed at (x, y) |
| RigidBodies.RigidBody.SetShape | src/simulation/geometry/RigidBody.java:223-227 | the region, angle and centre of mass all become the other body's |
| Dynamics.CupCollision | src/simulation/geometry/RigidBody.java:238-247 | whatever the velocity's sign, the struck cup moves \|velocity\| * DT along (sin, cos) of the angle |
| Dynamics.ShapeCollision | src/simulation/geometry/RigidBody.java:256-272 | a forward velocity gives the heading step; any other velocity uses the heading turned by pi with the signs swapped |
| Dynamics.ShapeCollisionIsCandidateStep | src/simulation/geometry/RigidBody.java:256-272 | where sin and cos change sign under a half turn, both branches give the translation findNewState applies |
| Cups.Cup.constructor | src/simulation/entities/Cup.java:35-39 | a new cup is upright, full as given, and a radius-10 circle centred on (x, y) |
| Cups.Cup.Copy | src/simulation/entities/Cup.java:23-27 | the copy has the same pose and the same full and upright flags |
| Cups.Cup.KnockOver | src/simulation/entities/Cup.java:61-69 | returns the previous full flag and leaves the cup not upright and not full |
| Cups.Cup.RotateTo | src/simulation/entities/Cup.java:76-79 | the angle ends equal to a; the centre of mass is unchanged |
| Cups.Cup.Translate | src/simulation/geometry/RigidBody.java:175-178 | the cup's pose is translated; its flags are unchanged |
| Cups.KnockOverTwice | test/simulation/inanimates/ThingTest.java:34-38 | a new full cup is upright, and knocking it over twice spills only the first time |
| Cups.CupCollideWith | src/simulation/entities/Cup.java:82-97 | the critical angle is ignored; on intersection the collision carries the centre-of-mass bearing |
| Cups.CupCollisionNaN | src/simulation/entities/Cup.java:82-97 | two intersecting cups report a NaN angle iff their centres coincide |
| Cups.CupRuleDiffersFromBodyRule | src/simulation/entities/Cup.java:82-97 | outside the critical cone the cup rule reports the bearing itself, where the rigid-body rule reports a quarter turn off the body's angle |
| Terrains.Terrain.Impassable | src/simulation/geometry/Terrain.java:20-25 | impassable, friction 0, described as "Impassable terrain", centred on the bounding box |
| Terrains.Terrain.Passable | src/simulation/geometry/Terrain.java:45-50 | passable with friction f, described by the prefix and the printed coefficient |
| Terrains.Terrain.Described | src/simulation/geometry/Terrain.java:58-63 | passable with friction f and the given description |
| Terrains.Terrain.Copy | src/simulation/geometry/Terrain.java:27-38 | the same body, classification and description; the friction is copied only for a passable terrain |
| Terrains.Terrain.SetDescription | src/simulation/geometry/Terrain.java:94-96 | only the description changes |
| Terrains.CopyKeepsFields | src/simulation/geometry/Terrain.java:27-38 | a copy keeps every field, except that an impassable terrain's copy reads friction 0 |
| Environments.BodyObstructionOccurs | src/simulation/geometry/Environment.java:147-165 | a collision is reported iff some impassable terrain meets the body or the body leaves the outline |
| Environments.BodyObstructionFirst | src/simulation/geometry/Environment.java:147-165 | the reported collision is the one with the first impassable terrain that meets the body |
| Environments.BodyObstructionOutline | src/simulation/geometry/Environment.java:147-165 | with no impassable terrain in the way, the reported collision is the one with the outside of the outline |
| Environments.NonEmptyOverlapHasArea | src/simulation/geometry/Environment.java:194-230 | a shape that overlaps anything has a bounding box of positive area, so the shares are well defined |
| Environments.OverlapCount | src/simulation/geometry/Environment.java:194-230 | the number of terrains overlapping the shape, never more than the list's length |
| Environments.OverlapCountZero | src/simulation/geometry/Environment.java:194-230 | the count is 0 iff no terrain of the list overlaps the shape |
| Environments.NoOverlapNoShare | src/simulation/geometry/Environment.java:194-230 | terrains that do not overlap the shape add no share |
| Environments.CoefficientNoOverlap | src/simulation/geometry/Environment.java:194-230 | with no passable terrain under the shape, the coefficient is the 0.1 base |
| Environments.CoefficientOneFullOverlap | test/simulation/sensors/TerrainSensorTest.java:35-41 | with exactly one passable terrain under the shape, covering its whole bounding box, the coefficient is 0.1 plus that terrain's friction |
| Environments.Environment.constructor | src/simulation/geometry/Environment.java:26-28 | the 1000 by 1000 square from the origin, with three empty lists |
| Environments.Environment.FromArea | src/simulation/geometry/Environment.java:58-63 | the given outline, with three empty lists |
| Environments.Environment.Copy | src/simulation/geometry/Environment.java:35-52 | the same outline and three lists of new terrain copies in the same order, with no element shared between two lists |
| Environments.Environment.CreateNewPassableTerrain | src/simulation/geometry/Environment.java:71-78 | one new passable terrain of friction c is appended to the passable and all-terrain lists, and the answer is true |
| Environments.Environment.CreateNewDescribedPassableTerrain | src/simulation/geometry/Environment.java:87-94 | as above, with the given description |
| Environments.Environment.CreateNewImpassableTerrain | src/simulation/geometry/Environment.java:101-108 | one new impassable terrain is appended to the impassable and all-terrain lists, and the answer is true |
| Environments.Environment.CreateNewDescribedImpassableTerrain | src/simulation/geometry/Environment.java:116-123 | the new terrain is Terrain(shape, 0, desc), flagged passable, yet filed in the impassable and all-terrain lists |
| Environments.Environment.ObstructsBody | src/simulation/geometry/Environment.java:147-165 | the loop over impassables with early return gives BodyObstruction |
| Environments.Environment.ObstructsShape | src/simulation/geometry/Environment.java:172-183 | true iff some impassable terrain intersects the shape or the outline does not contain it |
| Environments.Environment.GetCoefficient | src/simulation/geometry/Environment.java:194-230 | the loop over passables computes Coefficient: 0.1 plus the overlap shares, divided by the count of overlapping patches when there are any |
| Environments.Environment.SpillHotCoffeeEverywhere | src/simulation/geometry/Environment.java:238-249 | exactly one passable terrain with friction 0.1 and the coffee description is appended to passables and terrains, its region the spill drawn from the four draws around the location, its centre the centre of that region's bounding box, its angle 0 |
| Environments.Environment.Clear | src/simulation/geometry/Environment.java:317-321 | all three lists are emptied; the outline stays |
| Environments.Environment.DeleteTerrain | src/simulation/geometry/Environment.java:328-332 | the first occurrence of the terrain is removed from each of the three lists |
| Environments.Environment.DeleteEveryOccurrence | src/simulation/Simulator.java:673-677 | over a snapshot of the all-terrain list, deleteTerrain runs once per occurrence: every occurrence leaves the all-terrain list and as many leave the other two |
| Environments.Environment.DeleteRound | src/simulation/Simulator.java:673-677 | one round of that loop keeps the removal count in step with the occurrences met |
| Environments.Environment.HasNoTerrain | src/simulation/geometry/Environment.java:337-339 | true iff the all-terrain list is empty |
| Environments.CopyAll | src/simulation/geometry/Environment.java:35-52 | one new terrain copy per element, in order, each a copy of its original |
| Lists.IndexOf | src/simulation/Simulator.java:200 | the position of the first occurrence, or the length when there is none |
| Lists.IndexOfIs | src/simulation/Simulator.java:200 | the first occurrence is the only index holding x with no x before it |
| Lists.RemoveFirst | src/simulation/Simulator.java:200 | List.remove with identity: the first occurrence goes and the rest keep their order |
| Lists.RemoveFirstAt | src/simulation/Simulator.java:200 | what precedes the removed occurrence stays and what follows moves up one place |
| Lists.RemoveFirstMultiset | src/simulation/Simulator.java:200 | exactly one occurrence of x goes, if there is one, and nothing else |
| Lists.RemoveAll | src/simulation/Simulator.java:663-672 | every occurrence of x goes, the rest keep their order |
| Lists.RemoveAllMultiset | src/simulation/Simulator.java:663-672 | every occurrence of x goes and every other element keeps its multiplicity |
| Lists.RemoveFirstN | src/simulation/Simulator.java:663-672 | n removals of x in a row |
| Lists.RemoveFirstNMultiset | src/simulation/Simulator.java:663-672 | n removals leave n fewer occurrences of x, or none, and every other element as it was |
| Lists.Pick | src/simulation/Simulator.java:192-200 | the cups at the picked positions, in the order picked |
| Lists.RemoveEach | src/simulation/Simulator.java:192-200 | one remove call per picked cup, in order |
| Lists.RemoveEachMultiset | src/simulation/Simulator.java:192-200 | when the removed cups are a sub-multiset of the list, exactly those copies go |
| Lists.PickSubMultiset | src/simulation/Simulator.java:192-200 | cups picked at strictly increasing positions are a sub-multiset of the list |
| Robots.FaultMessage | src/simulation/entities/Robot.java:306-318 | a NullPointerException gives "Null reference found", a Ruby raise its own message, and anything else "Unknown Issue caught.: " plus the message |
| Robots.Update | src/simulation/entities/Robot.java:306-318 | the result is the brain's output iff the brain returned; otherwise the error is the fault's message |
| Robots.UnknownIssuesArePrefixed | src/simulation/entities/Robot.java:306-318 | any other exception's message is reported behind the "Unknown Issue caught." prefix |
| Robots.RobotBody | src/simulation/entities/Robot.java:125-191 | the width-by-length rectangle centred on the location, turned by the angle |
| Robots.CollectionAreaAt | src/simulation/entities/Robot.java:35-37 | the radius-50 collection circle placed at a spot, unturned |
| Robots.Robot.constructor | src/simulation/entities/Robot.java:125-191 | the body built and turned, the collection area placed at adjustOffsetLocation(com, (0, -60), -angle), at rest, holding nothing |
| Robots.Robot.Copy | src/simulation/entities/Robot.java:60-65 | rebuilt from the other's centre, angle, sizes and script, at rest with progress 0, holding new copies of the other's cups in order |
| Robots.Robot.SetVelocity | src/simulation/entities/Robot.java:213-215 | only the velocity changes |
| Robots.Robot.SetCollectionProgress | src/simulation/entities/Robot.java:289-291 | only the collection progress changes |
| Robots.Robot.AddHeldItem | src/simulation/entities/Robot.java:229-231 | the cup is appended to the held items and nothing else changes |
| Robots.Robot.SetShape | src/simulation/entities/Robot.java:257-264 | the body becomes the new shape and the collection area is re-placed at the spot for the new centre and angle |
| Robots.Robot.Place | src/simulation/entities/Robot.java:271-277 | the body is placed at (x, y) and the collection area is re-placed from the new point and the current angle |
| Robots.Load | src/simulation/entities/Robot.java:125-191 | loading fails iff the script has no usable class line, with that message; otherwise a fresh robot built as the constructor builds it, named by the parsed class |
| Robots.LoadWithDefaults | src/simulation/entities/Robot.java:78-81 | the same, with width 30, length 60, power 200 and mass 100 |
| ClassNames.Trim | src/simulation/entities/Robot.java:165 | String.trim: the longest slice that neither starts nor ends with a character at or below ' '; only such characters are cut off |
| ClassNames.TrimIsSlice | src/simulation/entities/Robot.java:165 | what trim cuts off on either side is at or below ' ' |
| ClassNames.TrimSpan | src/simulation/entities/Robot.java:165 | the trimmed string is s[a..b] exactly when only blank characters lie outside that slice at the ends |
| ClassNames.TrimIdempotent | src/simulation/entities/Robot.java:165 | trimming twice is trimming once |
| ClassNames.FirstCodeLine | src/simulation/entities/Robot.java:159-165 | the first line from i on that is neither blank after trimming nor a '#' comment, or none |
| ClassNames.ClassName | src/simulation/entities/Robot.java:173-177 | the untrimmed line from index 5 up to the first '<', trimmed; no '<', or one before index 5, gives "Please extend the SimRobot class" |
| ClassNames.IndentedClassLine | src/simulation/entities/Robot.java:165-174 | the skip test trims but the extraction does not, so " class A<S" is accepted and reads as "s A" |
| ClassNames.IndentedLine | src/simulation/entities/Robot.java:174 | " class A<S" has its '<' at index 8, in range for the substring |
| ClassNames.ScriptClassName | src/simulation/entities/Robot.java:156-177 | "No class data found" when every line is skipped; otherwise the class name on the first line that is not |
| ClassNames.ReadClassName | src/simulation/entities/Robot.java:159-177 | the do-while loop over the lines gives ScriptClassName |
| ClassNames.CommentedScript | src/simulation/entities/Robot.java:159-165 | a script opening with a comment and a blank line is read from its class line |
| ClassNames.PlainClassLine | src/simulation/entities/Robot.java:173-177 | "class B<S" names B |
| Dynamics.Direction | src/simulation/Simulator.java:236-241 | friction acts as if forwards only for a positive velocity: +1 then, -1 at rest or reversing |
| Dynamics.MotorContribution | src/simulation/Simulator.java:232-248 | outside the deadzone the motor adds exactly power * motor / mass * DT to the coasting velocity |
| Dynamics.MasslessRobot | src/simulation/Simulator.java:227-248 | for a robot of mass 0 the thrust is finite exactly in the deadzone, and there the new velocity is wind resistance and noise alone |
| Dynamics.DeadzoneIgnoresMotor | src/simulation/Simulator.java:232-234 | inside the deadzone the new velocity is the one with the motor off |
| Dynamics.RestingRobotCreeps | src/simulation/Simulator.java:236-248 | a robot at rest with the motor off on ground of positive friction gets a positive velocity, since friction at rest pushes as if reversing |
| Dynamics.CoastingSlowsDown | src/simulation/Simulator.java:236-248 | coasting forwards on non-negative friction lowers the velocity without reversing it within a frame |
| Dynamics.Candidate | src/simulation/Simulator.java:220-252 | the body turned by steering * v / 10000 with the old velocity and moved by the new velocity along the old heading |
| Dynamics.Heading | src/simulation/Simulator.java:397-404 | 1 for a heading within a quarter turn of up, -1 otherwise |
| Dynamics.PivotAngle | src/simulation/Simulator.java:427-433 | the body's angle when driving forwards, that angle plus pi when backing |
| Dynamics.WallResponse | src/simulation/Simulator.java:387-461 | head or rear on, within one degree: nothing changes and the answer is false; below the glancing threshold atan2(width, length) the body turns one degree about its front (or back) corner, away from the wall, and keeps its velocity; steeper, the body turns by 2 sin(reduced incidence) degrees about its centre, the velocity is scaled by the sine of the angle taken positive, and the answer is true |
| Dynamics.GlancingBounded | src/simulation/Simulator.java:397-416 | from an incidence of at least -pi the reduction lands in [-pi, pi], the glancing angle within a quarter turn of 0, and the two differ by whole half turns |
| Dynamics.WallSettle | src/simulation/Simulator.java:267-283 | the wall loop: an obstructed candidate is answered by WallResponse and tested again, until it is clear or 80 responses have been given; a cleared candidate meets no wall; the response's answer is not read; the model also stops, unresolved, on a NaN angle, where the source goes on (see "## Left out") |
| Dynamics.HeadOnIsStuck | src/simulation/Simulator.java:267-283 | a head-on candidate is never freed: the loop spends its 80 tries and hands back the candidate and velocity unchanged |
| Dynamics.HeadOnStep | src/simulation/Simulator.java:267-283 | one head-on round changes only the count of tries |
| Dynamics.Push | src/simulation/Simulator.java:470-480 | the cup translated by (-v * DT * sin(angle), v * DT * cos(angle)), its angle kept |
| Dynamics.PushSettle | src/simulation/Simulator.java:294-308 | while the candidate still meets the cup, push it again; after the 101st push the robot is jammed |
| Dynamics.PushAtRestJams | src/simulation/Simulator.java:294-308 | a robot at rest overlapping a cup never pushes it clear: the loop reports a jam |
| Dynamics.Shove | src/simulation/Simulator.java:501-516 | for a numeric bearing, the other cup translated by (d * v * DT * sin, d * v * DT * cos) of the bearing, d = +1 for a robot heading forwards and -1 otherwise; on a NaN bearing the model leaves it in place, where the source moves it by NaN (see "## Left out") |
| Dynamics.ShoveSettle | src/simulation/Simulator.java:336-373 | the uncapped cup-on-cup loop: while the other cup meets the pushed one, shove it; Hung when the fuel runs out |
| Dynamics.ShoveAtRestHangs | src/simulation/Simulator.java:336-373 | two overlapping cups and a robot at rest: the loop never ends, whatever the fuel |
| Dynamics.ArmSweep | src/simulation/Simulator.java:191-208 | over the cups in order, a touched cup is picked when the counter has reached 100, which resets it, else the touch adds 1; untouched cups change nothing |
| Dynamics.ArmSweepPicks | src/simulation/Simulator.java:191-208 | only touched cups are picked, each at most once, at strictly increasing positions |
| Dynamics.ArmSweepNothingInReach | src/simulation/Simulator.java:191-208 | with no cup in reach the counter stays and nothing is picked |
| Dynamics.ArmSweepBounded | src/simulation/Simulator.java:191-208 | a whole-number counter in [0, 100] stays one |
| Dynamics.CollectedOnFrame101 | src/simulation/Simulator.java:191-208 | with one cup held in reach from a counter of 0, frames 1 to 100 climb to 100 and frame 101 picks it up |
| Simulators.Simulator.constructor | src/simulation/Simulator.java:62-69 | no robots, no cups, the default 1000 by 1000 arena with no terrain, no issue, not paused, step 0 |
| Simulators.Simulator.ClearAll | src/simulation/Simulator.java:75-79 | robots, cups and all three terrain lists emptied; step count and issue kept |
| Simulators.Simulator.Reset | src/simulation/Simulator.java:154-159 | everything cleared, so the simulator is empty, and the step count back to 0 |
| Simulators.Simulator.IsEmpty | src/simulation/Simulator.java:111-126 | true iff there is no terrain, no robot and no cup |
| Simulators.Simulator.TestShape | src/simulation/Simulator.java:134-149 | true iff no impassable terrain meets the region, the outline contains it, no robot meets it, and no cup other than the one being placed meets it |
| Simulators.Simulator.AddRobot | src/simulation/Simulator.java:86-93 | the robot is appended iff its body passes testShape, and the answer says whether it was; nothing else changes |
| Simulators.Simulator.AddInanimate | src/simulation/Simulator.java:100-107 | the cup is appended iff its body passes testShape with the cup itself not counting, and the answer says whether it was |
| Simulators.Simulator.GetTimeElapsed | src/simulation/Simulator.java:572-574 | steps / FPS seconds, never negative |
| Simulators.Simulator.GetIssue | src/simulation/Simulator.java:583-589 | the pending issue is handed back and cleared; nothing else changes |
| Simulators.Simulator.IsInSimulator | src/simulation/Simulator.java:681-694 | true iff the target is one of the robots, cups or terrains, according to its kind |
| Simulators.Simulator.DeleteEntity | src/simulation/Simulator.java:661-678 | a robot or cup loses every occurrence from its list; a terrain leaves the terrain list entirely and one occurrence of the passable and impassable lists per occurrence it had; nothing else changes |
| Simulators.Simulator.DeleteCup | src/simulation/Simulator.java:668-672 | every occurrence of the cup leaves the cup list |
| Simulators.Simulator.DeleteRobot | src/simulation/Simulator.java:663-667 | every occurrence of the robot leaves the robot list |
| Simulators.Simulator.FindNewState | src/simulation/Simulator.java:220-252 | finite iff the robot has mass or the motor is in the deadzone; then the velocity becomes NewVelocity with the ground coefficient under the old body and the frame's noise draw, otherwise it is kept; the fresh candidate is Candidate of the old body; one noise draw is used either way and the robot's body is untouched |
| Simulators.Accelerate | src/simulation/Simulator.java:227-248 | the answer is finite iff ThrustFinite, and a finite answer is NewVelocity; a robot of mass 0 outside the deadzone yields no velocity |
| Simulators.IncidenceAngles | src/simulation/Simulator.java:397-416 | the reduced incidence and glancing angle the wall response is built on |
| Simulators.Simulator.RobotIntoEnvironment | src/simulation/Simulator.java:387-461 | the candidate, velocity and answer are those of WallResponse for the robot's centre, heading and size |
| Simulators.Simulator.PivotOffWall | src/simulation/Simulator.java:427-450 | the candidate turned one degree about the pivot corner, away from the wall; the velocity is kept |
| Simulators.Simulator.TurnOffWall | src/simulation/Simulator.java:453-457 | the candidate turned by 2 sin(incidence) degrees in place and the velocity scaled by the factor |
| Simulators.Simulator.WallPhase | src/simulation/Simulator.java:267-283 | the loop's candidate, velocity and verdict are those of WallSettle, NaN stop included |
| Simulators.Simulator.Spill | src/simulation/geometry/Environment.java:238-249 | one spill terrain, drawn at the location with the next spill draw, appended to passables and terrains; one draw used |
| Simulators.Simulator.CrushCup | src/simulation/Simulator.java:487-493 | the cup knocked over and emptied, a spill appended if it was full, its first occurrence gone from the cup list, and a wreck of friction 0.9 appended |
| Simulators.Simulator.RobotIntoCup | src/simulation/Simulator.java:470-480 | the cup knocked over and emptied, a spill left if it was full, and moved by Push; the answer is always true |
| Simulators.Simulator.PushPhase | src/simulation/Simulator.java:294-308 | the cup ends where PushSettle leaves it, and the answer is false iff the pushes jam |
| Simulators.Simulator.PushOn | src/simulation/Simulator.java:294-308 | from the given push count on, the cup follows PushSettle and no more spills happen |
| Simulators.Simulator.OtherRobotInTheWay | src/simulation/Simulator.java:261-265 | true iff another robot meets the candidate body |
| Simulators.Simulator.CupHitsOtherRobot | src/simulation/Simulator.java:312-323 | true iff another robot collides with the cup |
| Simulators.Simulator.CupIntoCup | src/simulation/Simulator.java:501-516 | the cup moves as Shove says, forwards or backwards as the robot heads; whether it is upright or full is kept; a NaN bearing leaves it in place |
| Simulators.Simulator.ShoveApart | src/simulation/Simulator.java:336-373 | the other cup ends where ShoveSettle leaves it, and the answer is false iff the fuel ran out |
| Simulators.Simulator.ShoveCup | src/simulation/Simulator.java:336-373 | the verdict and poses are ShoveOne's: a touched other cup is shoved clear of the cup, then crushed, refusing the move, if it meets a wall or another robot; on any verdict but Hang it stands where ShoveOne puts it; the pushed cup stays put |
| Simulators.Simulator.ShoveOthers | src/simulation/Simulator.java:336-373 | over a snapshot of the cups, the verdict is ShoveFrom's and, unless it is Hang, every cup of the snapshot stands where ShoveFrom puts it, a refused round's shoves kept; an accepted round leaves no other cup meeting the pushed one; only a Reject loses a cup |
| Simulators.Simulator.CrushIfCaught | src/simulation/Simulator.java:312-332 | the cup is crushed iff another robot collides with it or an impassable terrain obstructs it |
| Simulators.Simulator.PushClear | src/simulation/Simulator.java:294-332 | a cup the candidate meets ends where PushSettle leaves it; the move is accepted iff the pushes do not jam and the pushed cup is caught by neither another robot nor a wall; at most that cup leaves the list |
| Simulators.Simulator.ResolveCup | src/simulation/Simulator.java:287-375 | one cup of resolve: the verdict and poses are CupStep's, and every cup stands where CupStep puts it unless the verdict is Hang; the outer loop goes on from the next cup exactly when it accepts, as ResolveFrom says; at most one cup leaves the list |
| Simulators.Simulator.Resolve | src/simulation/Simulator.java:260-377 | another robot in the way refuses the move with nothing changed, every cup where it was; otherwise the walls settle the candidate per WallSettle and an unfreed one is refused with every cup where it was; a freed candidate gets ResolveFrom's verdict and, unless that is Hang, every cup of the snapshot stands where ResolveFrom puts it, on Reject too: pushes and shoves before the refusal are not undone; an accepted candidate meets no robot and no wall and leaves every cup in the list; terrains are only appended |
| Simulators.Simulator.ResolveCups | src/simulation/Simulator.java:287-375 | the outer cup loop over a snapshot gives ResolveFrom's verdict and, unless it is Hang, leaves every cup where ResolveFrom puts it; Accept and Hang lose no cup, Reject at most one |
| Simulators.Simulator.PushIfMet | src/simulation/Simulator.java:289-332 | the verdict and poses are PushOne's: the cup ends where PushSettle leaves it, a jam refuses, an accepted cup is clear of the body and, if it was pushed, caught by nothing; the other cups stay put |
| Simulators.Simulator.SettleBody | src/simulation/Simulator.java:182-188 | the resolved candidate: accepted, it becomes the robot's body with WallSettle's velocity; refused, the robot keeps its body and stops dead; another robot in the way or an unfreed candidate refuses and leaves every cup where it was; otherwise the verdict is that of resolve's cup loops for the wall-settled body, and unless they hang every cup stands where they leave it; never Diverged |
| Simulators.OtherBodies | src/simulation/Simulator.java:312-323 | one entry per robot in list order: None for the moving robot, the body of each other robot |
| Simulators.MeetsOtherIff | src/simulation/Simulator.java:312-323 | the snapshot of the other robots' bodies finds a meeting exactly when some other robot collides with the cup |
| Simulators.ShoveOne | src/simulation/Simulator.java:336-373 | a round of the inner cup loop never diverges, and an accepted round leaves the other cup apart from the cup |
| Simulators.ShoveFrom | src/simulation/Simulator.java:336-373 | the inner cup loop never diverges |
| Simulators.ShoveFromApart | src/simulation/Simulator.java:336-373 | an accepted inner cup loop leaves every other cup of the list apart from the cup |
| Simulators.ShoveFromKeeps | src/simulation/Simulator.java:336-373 | the inner cup loop never moves the cup the others are shoved off, and forgets no cup |
| Simulators.PushOne | src/simulation/Simulator.java:289-332 | the push half of a round ends in Accept or Reject only |
| Simulators.PushOneMeaning | src/simulation/Simulator.java:289-332 | the cup ends where PushSettle leaves it and a jam refuses; accepted, the cup is clear of the body and, if the body met it, caught by neither another robot nor a wall; no other cup moves |
| Simulators.CupStep | src/simulation/Simulator.java:287-375 | a round of the outer cup loop never diverges |
| Simulators.CupStepMeaning | src/simulation/Simulator.java:287-375 | a round leaves the cup where PushSettle puts it, and a jam refuses; an accepted round leaves the cup clear of the body and of every other cup of the list, and a pushed cup caught by nothing |
| Simulators.ResolveFrom | src/simulation/Simulator.java:287-375 | the outer cup loop, its rounds in list order up to the first that does not accept, never ends in Diverged |
| Simulators.Simulator.MoveBody | src/simulation/Simulator.java:182-188 | Diverged iff the thrust is not finite, with the robot, the cup list, every cup's pose and the terrains untouched; otherwise the candidate from findNewState is resolved: accepted, it becomes the robot's body with WallSettle's velocity; refused, the robot keeps its body and stops dead; another robot in the way or an unfreed candidate refuses |
| Simulators.Simulator.Arm | src/simulation/Simulator.java:191-208 | with the arm active the robot collects as ArmSweep says; idle, the counter resets to 0 |
| Simulators.Collect | src/simulation/Simulator.java:191-208 | over a snapshot of the cups, the counter follows ArmSweep, the picked cups join the held items in order and each leaves the cup list |
| Simulators.CollectRound | src/simulation/Simulator.java:192-207 | one cup of that loop keeps the counter, held items and remaining cups in step with ArmSweep |
| Simulators.Touching | src/simulation/Simulator.java:193 | one answer per cup, in order |
| Simulators.TouchingAt | src/simulation/Simulator.java:193 | the k-th answer is whether the collection area meets the k-th cup |
| Simulators.ArmConserves | src/simulation/Simulator.java:191-208 | the arm loses and makes no cup: what leaves the cup list is exactly what is picked up |
| Simulators.NoneCreated | src/simulation/Simulator.java:287-375 | a crush removes a cup and never adds one |
| Simulators.Simulator.Frame | src/simulation/Simulator.java:182-208 | a robot's turn: Diverged iff the thrust is not finite, and then neither the robot nor any cup moves; accepted, it takes WallSettle's body and velocity; refused, it stops in place; cups held plus cups on the floor never grow; an idle arm resets the counter |
| Simulators.Simulator.Move | src/simulation/Simulator.java:182-208 | a robot's turn is Diverged iff its thrust is not finite; it creates no cup, appends terrains only, takes one noise draw, and leaves every other robot's body, velocity, collection counter and held cups as they were |
| Simulators.Simulator.GameLoop | src/simulation/Simulator.java:164-211 | in robot order: a brain that throws pauses the simulation and records its message as the issue; a hung loop stops the call; a robot of mass 0 driven outside the deadzone stops it as NonFinite; once the call stops, every robot after the one it stopped at that did not already take a turn keeps its body, velocity, collection counter and held cups; when every brain answered and every frame finished, the step count goes up by one; no cup ever appears |
| Simulators.LoggedChain | src/simulation/Simulator.java:164-211 | two stretches of append-only terrain history make one |
| Controllers.RunIntegrates | src/simulation/entities/behaviour/PID.java:53-64 | a run of updates keeps the gains and target, adds every reading's error times DT to the integral, and remembers the last reading |
| Controllers.RestAtTarget | src/simulation/entities/behaviour/PID.java:53-64 | a controller at rest on its target stays unchanged under on-target readings and outputs 0 |
| Controllers.FirstPushTowardsTarget | src/simulation/entities/behaviour/PID.java:43-64 | right after setSetPoint, with non-negative gains and the reading as the previous value, the output pushes towards the target |
| Controllers.PID.constructor | src/simulation/entities/behaviour/PID.java:33-37 | the given gains, with integral, previous value and target 0 |
| Controllers.PID.SetSetPoint | src/simulation/entities/behaviour/PID.java:43-46 | the new target, with the integral cleared |
| Controllers.PID.UpdatePID | src/simulation/entities/behaviour/PID.java:53-64 | the output is kp * error + ki * integral + kd * (reading - previous) / DT, with the integral advanced first, and the reading is remembered |
| Controllers.DriveTickOutput | src/simulation/entities/behaviour/Drive.java:113-142 | steering is always 0, the arm untouched, and the motor the PID output at the speed clamped to the motor limit, even once finished |
| Controllers.CountdownRules | src/simulation/entities/behaviour/Drive.java:118-137 | an unfinished tick spends DT of the time and the distance covered at the speed; an exhausted countdown finishes the drive, clears its own flag and sets the target to 0 |
| Controllers.FinishedDriveStays | src/simulation/entities/behaviour/Drive.java:113-142 | once finished, the drive stays finished with its countdowns and target frozen |
| Controllers.TimedRunSpends | src/simulation/entities/behaviour/Drive.java:118-126 | an unfinished timed run has spent exactly DT per tick and has a non-negative time left; a finished one has gone below 0 on some tick |
| Controllers.TimedDriveFinishes | src/simulation/entities/behaviour/Drive.java:118-126 | a timed drive is finished after n ticks iff n * DT exceeds its time |
| Controllers.Drive.Default | src/simulation/entities/behaviour/Drive.java:33-35 | velocity 100, no countdowns, output and controller fresh |
| Controllers.Drive.constructor | src/simulation/entities/behaviour/Drive.java:42-46 | the given velocity as the target, no countdowns |
| Controllers.Drive.Timed | src/simulation/entities/behaviour/Drive.java:54-60 | the velocity and the time countdown |
| Controllers.Drive.TimedDistance | src/simulation/entities/behaviour/Drive.java:69-77 | the velocity and both countdowns |
| Controllers.Drive.SetDesiredVelocity | src/simulation/entities/behaviour/Drive.java:83-87 | the new target velocity and the controller retargeted; nothing else changes |
| Controllers.Drive.SetDesiredTime | src/simulation/entities/behaviour/Drive.java:93-97 | the time countdown set and switched on, and the drive unfinished |
| Controllers.Drive.SetDesiredDistance | src/simulation/entities/behaviour/Drive.java:103-107 | the distance countdown set and switched on, and the drive unfinished |
| Controllers.Drive.Update | src/simulation/entities/behaviour/Drive.java:113-142 | the new state is DriveTick of the old at the speed reading, and the result is the drive's own output object |
| Controllers.Drive.Reset | src/simulation/entities/behaviour/Drive.java:156-158 | finished cleared, nothing else changed |
| Controllers.DirectionsDisagree | src/simulation/entities/behaviour/RelativeTurn.java:67-115 | the constructors give +1 for a positive angle and setTurnAngle gives -1, so the two disagree for every angle |
| Controllers.TurnTickRules | src/simulation/entities/behaviour/RelativeTurn.java:121-150 | a finished turn or one within precision of its heading outputs motor and steering 0 and finishes; otherwise the motor is the velocity and the steering the PID's, or the manual steering times the direction |
| Controllers.NoLatchUnready | src/simulation/entities/behaviour/RelativeTurn.java:125-131 | while the compass is not ready the latch does not fire: nothing is initialised and the desired heading is kept |
| Controllers.LatchesOnce | src/simulation/entities/behaviour/RelativeTurn.java:125-131 | over any run, the desired heading is fixed at the first ready reading's heading plus the turn angle, and never again |
| Controllers.ResetSteersToZero | src/simulation/entities/behaviour/RelativeTurn.java:164-171 | after reset a latched turn keeps its desired heading, but its fresh controller targets 0, so the PID steering no longer aims at it |
| Controllers.RelativeTurn.Default | src/simulation/entities/behaviour/RelativeTurn.java:37-39 | no turn, precision pi/64, velocity 20, PID steering |
| Controllers.RelativeTurn.ByAngle | src/simulation/entities/behaviour/RelativeTurn.java:46-48 | the angle, precision pi/64, velocity 20 |
| Controllers.RelativeTurn.Within | src/simulation/entities/behaviour/RelativeTurn.java:56-58 | the angle and precision, velocity 20 |
| Controllers.RelativeTurn.constructor | src/simulation/entities/behaviour/RelativeTurn.java:67-79 | the angle, precision and velocity, PID steering, direction from the angle's sign |
| Controllers.RelativeTurn.Manual | src/simulation/entities/behaviour/RelativeTurn.java:89-101 | as above, with manual steering at the given value |
| Controllers.RelativeTurn.SetTurnAngle | src/simulation/entities/behaviour/RelativeTurn.java:107-115 | the desired heading becomes the compass heading plus the angle, with the reversed direction rule, and the turn unfinished |
| Controllers.RelativeTurn.LatchHeading | src/simulation/entities/behaviour/RelativeTurn.java:125-131 | the first half of update gives Latch |
| Controllers.RelativeTurn.SteerTowards | src/simulation/entities/behaviour/RelativeTurn.java:133-147 | the second half of update gives Steer |
| Controllers.RelativeTurn.Update | src/simulation/entities/behaviour/RelativeTurn.java:121-150 | the new state is TurnTick of the old at the compass reading, and the result is the turn's own output |
| Controllers.RelativeTurn.Reset | src/simulation/entities/behaviour/RelativeTurn.java:164-171 | a fresh output and controller, precision pi/32, velocity 20, manual off; the latch is kept |
| Controllers.AbsTurnToRules | src/simulation/entities/behaviour/AbsoluteTurn.java:92-101 | the desired heading is the angle itself, with direction -1 iff it lies above the current heading, and the turn unfinished |
| Controllers.AbsTickRules | src/simulation/entities/behaviour/AbsoluteTurn.java:107-126 | within precision the turn finishes; the motor is the motor velocity on every tick; while unfinished the steering is the manual one times the direction or the PID's |
| Controllers.AbsFinishedStays | src/simulation/entities/behaviour/AbsoluteTurn.java:107-126 | once finished, an absolute turn stays finished with steering 0 and the motor at the motor velocity |
| Controllers.AbsoluteTurn.Default | src/simulation/entities/behaviour/AbsoluteTurn.java:32-34 | heading 0 targeted, precision pi/64, motor velocity 20 |
| Controllers.AbsoluteTurn.ByAngle | src/simulation/entities/behaviour/AbsoluteTurn.java:41-43 | the angle targeted, precision pi/64, motor velocity 20 |
| Controllers.AbsoluteTurn.Within | src/simulation/entities/behaviour/AbsoluteTurn.java:51-53 | the angle and precision, motor velocity 20 |
| Controllers.AbsoluteTurn.constructor | src/simulation/entities/behaviour/AbsoluteTurn.java:62-68 | the angle, precision and motor velocity, via setTurnAngle at the heading read on construction |
| Controllers.AbsoluteTurn.Manual | src/simulation/entities/behaviour/AbsoluteTurn.java:78-86 | as above, with manual steering at the turn velocity |
| Controllers.AbsoluteTurn.SetTurnAngle | src/simulation/entities/behaviour/AbsoluteTurn.java:92-101 | the new state is AbsTurnTo at the compass heading |
| Controllers.AbsoluteTurn.Update | src/simulation/entities/behaviour/AbsoluteTurn.java:107-126 | the new state is AbsTick at the heading, and the result is the turn's own output |
| Controllers.AbsoluteTurn.Reset | src/simulation/entities/behaviour/AbsoluteTurn.java:140-147 | a fresh output and controller, precision pi/32, motor velocity 20, manual off |
| WallBehaviours.BounceRunRules | src/simulation/entities/behaviour/Bounce.java:73-86 | over any run a bounce keeps its settings, never finishes, keeps its direction at +1 or -1, ends forwards after a reading with the back sensor near and backwards after one with only the front sensor near |
| WallBehaviours.BounceKeepsDirection | src/simulation/entities/behaviour/Bounce.java:73-86 | with neither sensor within the reaction distance the direction is kept |
| WallBehaviours.Bounce.Default | src/simulation/entities/behaviour/Bounce.java:37-39 | reaction distance 200, motor effort 50, steering 0, heading forwards |
| WallBehaviours.Bounce.Reacting | src/simulation/entities/behaviour/Bounce.java:47-49 | the given reaction distance, effort 50, steering 0 |
| WallBehaviours.Bounce.constructor | src/simulation/entities/behaviour/Bounce.java:59-65 | the given distance and efforts |
| WallBehaviours.Bounce.Update | src/simulation/entities/behaviour/Bounce.java:73-86 | the new state is BounceTick of the two readings, and the result is the bounce's own output |
| WallBehaviours.Bounce.Reset | src/simulation/entities/behaviour/Bounce.java:100-102 | finished cleared, nothing else changed |
| WallBehaviours.WallAngle | src/simulation/entities/behaviour/FollowWall.java:78-97 | the turn asked for: direction * pi/11 below the band, the opposite above it, 0 inside it and 0 past the sensor's range |
| WallBehaviours.FollowTickRules | src/simulation/entities/behaviour/FollowWall.java:78-97 | one update sets the turn to WallAngle at the compass heading and steps it; the output carries drive's motor and the turn's steering |
| WallBehaviours.FollowBeyondRange | src/simulation/entities/behaviour/FollowWall.java:89-91 | past the sensor's range the second setTurnAngle cancels the first, so the turn asks for nothing |
| WallBehaviours.FollowOutputsSaturated | src/simulation/entities/behaviour/FollowWall.java:93-94 | drive's motor and the turn's steering already lie within the limits, so copying them through the saturating setters keeps them |
| WallBehaviours.FollowSteeringSaturated | src/simulation/entities/behaviour/FollowWall.java:94 | a follower's steering output is within the steering limit |
| WallBehaviours.FollowWall.Default | src/simulation/entities/behaviour/FollowWall.java:36-39 | proximity 50, velocity 100, direction -1 anticlockwise and +1 clockwise |
| WallBehaviours.FollowWall.Near | src/simulation/entities/behaviour/FollowWall.java:49-52 | the given proximity, velocity 100 |
| WallBehaviours.FollowWall.constructor | src/simulation/entities/behaviour/FollowWall.java:63-72 | the given velocity and proximity, a Drive at the velocity and a RelativeTurn of nothing |
| WallBehaviours.FollowWall.Update | src/simulation/entities/behaviour/FollowWall.java:78-97 | the new state is FollowTick of the readings, and the result is the follower's own output |
| WallBehaviours.FollowWall.Aim | src/simulation/entities/behaviour/FollowWall.java:81-91 | the set-angle calls give FollowAim |
| WallBehaviours.FollowWall.DriveMotor | src/simulation/entities/behaviour/FollowWall.java:93 | drive's update, its motor copied to the output |
| WallBehaviours.FollowWall.SteerOutput | src/simulation/entities/behaviour/FollowWall.java:94 | the turn's update, its steering copied to the output |
| WallBehaviours.FollowWall.Reset | src/simulation/entities/behaviour/FollowWall.java:111-113 | an UnsupportedOperationException and no change |
| WallBehaviours.AvoidSwapsFollowerSettings | src/simulation/entities/behaviour/AvoidObstacle.java:69-78 | the followers are built with their velocity and proximity arguments swapped: they follow at the avoider's velocity and drive at its proximity |
| WallBehaviours.AvoidTickRules | src/simulation/entities/behaviour/AvoidObstacle.java:91-106 | steering is 0 unless a side reading is under 250, the right follower's wins when both are, the motor is drive's on every tick, a follower is stepped only when its side is near, and the avoider never finishes |
| WallBehaviours.AvoidObstacle.Default | src/simulation/entities/behaviour/AvoidObstacle.java:42-45 | proximity 50, velocity 100 |
| WallBehaviours.AvoidObstacle.Near | src/simulation/entities/behaviour/AvoidObstacle.java:55-58 | the given proximity, velocity 100 |
| WallBehaviours.AvoidObstacle.constructor | src/simulation/entities/behaviour/AvoidObstacle.java:69-78 | a drive at the velocity, and an anticlockwise and a clockwise follower wired as NewAvoid says |
| WallBehaviours.AvoidObstacle.SetVelocity | src/simulation/entities/behaviour/AvoidObstacle.java:83-85 | the drive's new set point, nothing else changed |
| WallBehaviours.AvoidObstacle.Update | src/simulation/entities/behaviour/AvoidObstacle.java:91-106 | the new state is AvoidTick of the side readings, and the result is the avoider's own output |
| WallBehaviours.AvoidObstacle.Steer | src/simulation/entities/behaviour/AvoidObstacle.java:92-101 | the output cleared and each near side's follower stepped, its steering shown |
| WallBehaviours.AvoidObstacle.ShowMotor | src/simulation/entities/behaviour/AvoidObstacle.java:103 | the output's motor set, saturated |
| WallBehaviours.AvoidObstacle.ShowSteering | src/simulation/entities/behaviour/AvoidObstacle.java:95-101 | the output's steering set, saturated |
| WallBehaviours.AvoidObstacle.StepLeft | src/simulation/entities/behaviour/AvoidObstacle.java:95-97 | the left follower's update |
| WallBehaviours.AvoidObstacle.StepRight | src/simulation/entities/behaviour/AvoidObstacle.java:99-101 | the right follower's update |
| WallBehaviours.AvoidObstacle.StepDrive | src/simulation/entities/behaviour/AvoidObstacle.java:103 | the drive's update |
| WallBehaviours.AvoidObstacle.Reset | src/simulation/entities/behaviour/AvoidObstacle.java:120-122 | finished cleared, nothing else changed |
| TargetBehaviours.MoverTickRules | src/simulation/entities/behaviour/MoveToObject.java:84-108 | finished is recomputed from this tick's camera reading alone: set on (0, 0) or nearer than stopDist, which drops the drive's target to 0; otherwise the drive aims at the velocity and the turn at minus the camera angle; motor and steering are drive's and steer's; the arm is never written |
| TargetBehaviours.MoverChasesNothing | src/simulation/entities/behaviour/MoveToObject.java:94-102 | the camera's nothing-found reading is (maxDist, 0), not the (0, 0) update tests, so for stopDist at most a non-zero maxDist the mover keeps driving at its velocity |
| TargetBehaviours.MoveToObject.Default | src/simulation/entities/behaviour/MoveToObject.java:33-35 | cups targeted, stop at 70, approach at 80 |
| TargetBehaviours.MoveToObject.Targeting | src/simulation/entities/behaviour/MoveToObject.java:44-46 | the given target, stop at 70, approach at 80 |
| TargetBehaviours.MoveToObject.Stopping | src/simulation/entities/behaviour/MoveToObject.java:56-59 | the given target and stop distance, approach at 80 |
| TargetBehaviours.MoveToObject.constructor | src/simulation/entities/behaviour/MoveToObject.java:70-78 | the given target, stop distance and velocity |
| TargetBehaviours.MoveToObject.Update | src/simulation/entities/behaviour/MoveToObject.java:84-108 | the new state is MoverTick of the camera's reading at the speed and compass, and the result is the mover's own output |
| TargetBehaviours.MoveToObject.Clear | src/simulation/entities/behaviour/MoveToObject.java:85-86 | motor and steering set to 0 |
| TargetBehaviours.MoveToObject.Aim | src/simulation/entities/behaviour/MoveToObject.java:94-102 | the decision gives MoverAim |
| TargetBehaviours.MoveToObject.Approach | src/simulation/entities/behaviour/MoveToObject.java:100-101 | the drive aimed at the velocity and the turn at minus the camera angle |
| TargetBehaviours.MoveToObject.DriveMotor | src/simulation/entities/behaviour/MoveToObject.java:104 | drive's update, its motor copied to the output |
| TargetBehaviours.MoveToObject.SteerOutput | src/simulation/entities/behaviour/MoveToObject.java:105 | steer's update, its steering copied to the output |
| TargetBehaviours.MoveToObject.Reset | src/simulation/entities/behaviour/MoveToObject.java:122-124 | finished cleared, nothing else changed |
| TargetBehaviours.ChaseTickRules | src/simulation/entities/behaviour/MoveToRobotRadar.java:69-97 | finished latches; once finished no set point moves and drive and steer only run; with no robot the turn searches at -pi/10; a robot nearer than stopDist finishes it; the motor and steering are drive's and steer's |
| TargetBehaviours.FinishedChaseFrozen | src/simulation/entities/behaviour/MoveToRobotRadar.java:69-97 | once finished it stays finished until reset, over any run, with no set point changed whatever the radar reports |
| TargetBehaviours.MoveToRobotRadar.Default | src/simulation/entities/behaviour/MoveToRobotRadar.java:32-34 | stop at 20, approach at 60 |
| TargetBehaviours.MoveToRobotRadar.Stopping | src/simulation/entities/behaviour/MoveToRobotRadar.java:44-46 | the given stop distance, approach at 60 |
| TargetBehaviours.MoveToRobotRadar.constructor | src/simulation/entities/behaviour/MoveToRobotRadar.java:57-64 | the given stop distance and velocity |
| TargetBehaviours.MoveToRobotRadar.Update | src/simulation/entities/behaviour/MoveToRobotRadar.java:69-97 | the new state is ChaseTick of the radar's reading at the speed and compass, and the result is the behaviour's own output |
| TargetBehaviours.MoveToRobotRadar.Clear | src/simulation/entities/behaviour/MoveToRobotRadar.java:70-71 | motor and steering set to 0 |
| TargetBehaviours.MoveToRobotRadar.Decide | src/simulation/entities/behaviour/MoveToRobotRadar.java:73-91 | the decision gives ChaseAim |
| TargetBehaviours.MoveToRobotRadar.Search | src/simulation/entities/behaviour/MoveToRobotRadar.java:81-83 | the drive at the velocity and the turn at -pi/10 |
| TargetBehaviours.MoveToRobotRadar.DriveMotor | src/simulation/entities/behaviour/MoveToRobotRadar.java:93 | drive's update, its motor copied to the output |
| TargetBehaviours.MoveToRobotRadar.SteerOutput | src/simulation/entities/behaviour/MoveToRobotRadar.java:94 | steer's update, its steering copied to the output |
| TargetBehaviours.MoveToRobotRadar.Reset | src/simulation/entities/behaviour/MoveToRobotRadar.java:111-113 | finished cleared, nothing else changed |
| TargetBehaviours.HuntTickRules | src/simulation/entities/behaviour/FindMoveToCup.java:44-61 | the recorded count becomes the larger of the old one and the sensor's, resetting the mover when it grows; with a target the mover runs and once it reports finished the arm is raised; the arm, once on, stays on |
| TargetBehaviours.ArmStaysRaised | src/simulation/entities/behaviour/FindMoveToCup.java:44-61 | over any run the arm, once on, stays on, and the recorded count never falls |
| TargetBehaviours.FindMoveToCup.constructor | src/simulation/entities/behaviour/FindMoveToCup.java:31-38 | nothing counted, a mover with MoveToObject's defaults |
| TargetBehaviours.FindMoveToCup.Update | src/simulation/entities/behaviour/FindMoveToCup.java:44-61 | the new state is HuntTick of the count and camera reading; the result is the mover's output with a target, else the search behaviour's |
| TargetBehaviours.FindMoveToCup.Tally | src/simulation/entities/behaviour/FindMoveToCup.java:45-48 | the tally gives HuntTally |
| TargetBehaviours.FindMoveToCup.Chase | src/simulation/entities/behaviour/FindMoveToCup.java:50-55 | the target branch gives HuntChase |
| TargetBehaviours.FindMoveToCup.Reset | src/simulation/entities/behaviour/FindMoveToCup.java:75-77 | the recorded count set to 0, nothing else changed |
| TargetBehaviours.SeekTickRules | src/simulation/entities/behaviour/FindMoveToRobot.java:29-42 | isFinished after a tick with a target reports this tick's reading; after one without, it keeps what it was |
| TargetBehaviours.FindMoveToRobot.constructor | src/simulation/entities/behaviour/FindMoveToRobot.java:21-26 | a mover for robots stopping at 60 and approaching at 200 |
| TargetBehaviours.FindMoveToRobot.Update | src/simulation/entities/behaviour/FindMoveToRobot.java:29-36 | the new state is SeekTick; the result is the mover's output with a target, else the search behaviour's |
| TargetBehaviours.DropTickRules | src/simulation/entities/behaviour/MoveDropReturn.java:45-68 | a finished behaviour shows motor and steering 0 and moves nothing else; the drive runs and is shown only on ticks when the turn reports finished; it finishes only on such a tick after the drop |
| TargetBehaviours.DropInvariantHolds | src/simulation/entities/behaviour/MoveDropReturn.java:33-68 | from construction and across every update it finishes only after the drop, then shows the drive's output, and never shows an output with the arm on |
| TargetBehaviours.MoveDropReturn.constructor | src/simulation/entities/behaviour/MoveDropReturn.java:33-37 | a turn about by pi within 0.5 at -10 and a drive at 50 for time 50 and distance 300, showing its own output |
| TargetBehaviours.MoveDropReturn.Update | src/simulation/entities/behaviour/MoveDropReturn.java:45-68 | the new state is DropTick, and the result is the output the output field refers to |
| TargetBehaviours.MoveDropReturn.ShownIsOutput | src/simulation/entities/behaviour/MoveDropReturn.java:45-68 | the setting of the object the output field refers to is Shown of the state |
| TargetBehaviours.MoveDropReturn.Zero | src/simulation/entities/behaviour/MoveDropReturn.java:46-47 | the shown output's motor and steering set to 0 |
| TargetBehaviours.MoveDropReturn.TurnStep | src/simulation/entities/behaviour/MoveDropReturn.java:50 | the turn's update, its output becoming the one shown |
| TargetBehaviours.MoveDropReturn.DriveStep | src/simulation/entities/behaviour/MoveDropReturn.java:53-57 | the drive's update, its output becoming the one shown; finished when the drop was made |
| TargetBehaviours.MoveDropReturn.Release | src/simulation/entities/behaviour/MoveDropReturn.java:59-63 | the arm off on the drive's output, dropped set, and the turn retargeted by pi |
| TargetBehaviours.MoveDropReturn.Reset | src/simulation/entities/behaviour/MoveDropReturn.java:82-84 | finished cleared, nothing else changed |
| BodySensors.WallMissedWithoutTerrain | src/simulation/sensors/Bumper.java:105-109 | with no impassable terrain, a scan area that crosses the arena wall is not reported by the loop as written, though the intended test reports it |
| BodySensors.AsWrittenAgreesWithTerrain | src/simulation/sensors/Bumper.java:105-109 | with at least one impassable terrain the loop as written and the intended test agree |
| BodySensors.Bumper.Circle | src/simulation/sensors/Bumper.java:35-40 | a circle of radius r at (x, y), no offset angle |
| BodySensors.Bumper.Shaped | src/simulation/sensors/Bumper.java:49-54 | the given shape centred at (x, y), turned by the angle |
| BodySensors.Bumper.Rectangular | src/simulation/sensors/Bumper.java:64-69 | the width-by-height rectangle with corner (x, y), turned by the angle |
| BodySensors.Bumper.Oval | src/simulation/sensors/Bumper.java:79-84 | the h-by-w ellipse about (x, y), turned by a whole angle |
| BodySensors.Bumper.SetObject | src/simulation/sensors/Bumper.java:113-118 | the host's heading, and its centre plus the offset turned by that heading |
| BodySensors.Bumper.Analyse | src/simulation/sensors/Bumper.java:87-110 | as written: true iff another robot or a cup meets the scan area, or some turn of the impassable loop finds that terrain meeting it or the arena not containing it |
| BodySensors.Bumper.AnalyseWithWall | src/simulation/sensors/Bumper.java:87-110 | as intended: true iff another robot, a cup or an impassable terrain meets the scan area, or the arena does not contain it |
| BodySensors.Bumper.BumpRobotsAndCups | src/simulation/sensors/Bumper.java:93-103 | true iff a robot other than the host or a cup meets the scan area |
| BodySensors.OdometerStep | src/simulation/sensors/Encoder.java:42-52 | one more leg is added to the reading, which does not fall |
| BodySensors.OdometerGrows | src/simulation/sensors/Encoder.java:42-52 | the reading along a longer path is never smaller |
| BodySensors.EncoderReadings | test/simulation/sensors/EncoderTest.java:84-107 | from (0, 0) via (0, 10) and (0, 100) to (110, 100), the encoder reads 100 after two moves and 210 after three |
| BodySensors.Encoder.constructor | src/simulation/sensors/Encoder.java:31-34 | nothing travelled, last seen at (0, 0) |
| BodySensors.Encoder.SetObject | src/simulation/sensors/Encoder.java:42-52 | the counter is stepped; when it reaches the resolution it restarts, the leg from the last centre to the host's is added and the host's centre becomes the last; otherwise only the counter changes |
| BodySensors.FirstContainingFrom | src/simulation/sensors/TerrainSensor.java:40-50 | the first terrain from index i on holding the point, or none |
| BodySensors.FirstContainingIsFirst | src/simulation/sensors/TerrainSensor.java:40-50 | the search finds the first terrain holding the point, and nothing iff none does |
| BodySensors.FullPatchReading | test/simulation/sensors/TerrainSensorTest.java:35-41 | one passable terrain of friction 0.5 under the host, covering its own bounding box, reads 0.1 + 0.5 |
| BodySensors.TerrainSensor.constructor | src/simulation/sensors/TerrainSensor.java:28-30 | no host, reading 0 |
| BodySensors.TerrainSensor.SetObject | src/simulation/sensors/TerrainSensor.java:63-65 | records the host, whose centre analyse reads |
| BodySensors.TerrainSensor.Analyse | src/simulation/sensors/TerrainSensor.java:40-50 | the first passable terrain holding the host's centre sets the reading to getCoefficient of its own shape; with none the reading stays |
| Cameras.NearestIsUnique | src/simulation/sensors/Camera.java:138-184 | at most one sighting is the nearest |
| Cameras.PickFromFinds | src/simulation/sensors/Camera.java:138-184 | the scan from any point keeps the nearest of what it has seen, ties to the first |
| Cameras.NearestPickIsNearest | src/simulation/sensors/Camera.java:138-184 | nothing is kept iff no sighting is visible; otherwise the kept one is the nearest visible sighting, the first of equals |
| Cameras.NearestPickVisible | src/simulation/sensors/Camera.java:138-184 | the kept sighting is in the list and visible |
| Cameras.Camera.Default | src/simulation/sensors/Camera.java:50-52 | facing forwards, 1000 wide and 500 deep |
| Cameras.Camera.constructor | src/simulation/sensors/Camera.java:60-73 | the truncated triangle of the given size, no target yet, the distance at its maximum and the angle 0 |
| Cameras.Camera.SetObject | src/simulation/sensors/Camera.java:234-238 | the host's centre, and its heading plus the offset |
| Cameras.Camera.SetTargetObject | src/simulation/sensors/Camera.java:324-326 | the new target, nothing else changed |
| Cameras.Camera.Analyse | src/simulation/sensors/Camera.java:76-127 | with nothing kept the distance stays at its maximum and the angle 0, so hasTarget is false; otherwise the nearest visible target's distance, below the maximum, and its bearing brought into [-pi, pi] |
| Cameras.Camera.Aim | src/simulation/sensors/Camera.java:110-126 | the distance to the centre, replaced by 0 when it equals maxDist, and the bearing atan2(dx, dy) plus the heading, normalised into [-pi, pi] |
| Cameras.Camera.FindNearestInCollection | src/simulation/sensors/Camera.java:138-184 | the loop keeps NearestPick |
| Cameras.Camera.IsObstruction | src/simulation/sensors/Camera.java:194-225 | true iff, unless robots are the target, another robot crosses the line of sight, or a cup of the other posture does, or an impassable terrain does |
| Cameras.TerrainOnLine | src/simulation/sensors/Camera.java:219-223 | true iff some impassable terrain's outline crosses the segment |
| Cameras.RobotCamera.constructor | src/simulation/sensors/RobotCamera.java:39-50 | a camera of the given offset and size looking for robots, output (0, 0) |
| Cameras.RobotCamera.SetObject | src/simulation/sensors/RobotCamera.java:132-135 | the host's centre, and its heading plus the offset |
| Cameras.RobotCamera.Analyse | src/simulation/sensors/RobotCamera.java:60-107 | with no robot kept the output is (0, 0) and isCup is false; otherwise the nearest visible robot's distance and bearing, normalised into [-pi, pi] |
| Cameras.RobotCamera.NearestRobot | src/simulation/sensors/RobotCamera.java:73-92 | the distance and bearing of the kept robot, or maxDist and 0 when none is kept |
| RangeSensors.BlockerIsLowerBound | src/simulation/sensors/CupSensor.java:55-79 | the blocking distance is at most the range, the arena edge's ray distance, every other robot's and every impassable terrain's |
| RangeSensors.BlockerIsAttained | src/simulation/sensors/CupSensor.java:55-79 | the blocking distance is the range itself or one of those ray distances |
| RangeSensors.CupSensor.constructor | src/simulation/sensors/CupSensor.java:34-38 | the offset angle and range, output false |
| RangeSensors.CupSensor.SetObject | src/simulation/sensors/CupSensor.java:93-97 | the host's centre, and its heading turned by the offset |
| RangeSensors.CupSensor.Analyse | src/simulation/sensors/CupSensor.java:48-90 | true iff some cup is nearer along the ray than every other robot, impassable terrain, the arena edge and the range |
| RangeSensors.CupSensor.BlockingDistance | src/simulation/sensors/CupSensor.java:55-79 | the first two loops and the edge give Blocker |
| RangeSensors.CupSensor.CupNearer | src/simulation/sensors/CupSensor.java:82-89 | true iff some cup's ray distance is below the blocking distance |
| RangeSensors.CupSensor.RobotsAndTerrain | src/simulation/sensors/CupSensor.java:55-72 | the nearest other robot and impassable terrain, starting from the range |
| RangeSensors.RangeReadingIsNearest | src/simulation/sensors/DistanceSensor.java:111-155 | the reading is at most the range and every candidate the segment meets (other robots and impassables at ray distance, cups at centre distance, the arena edge), and it is the range or one of them |
| RangeSensors.RangeReadingSplit | src/simulation/sensors/DistanceSensor.java:116-151 | the four loops continue each from the minimum the one before left |
| RangeSensors.NoiseScalesReading | src/simulation/sensors/DistanceSensor.java:154 | with no uncertainty the reading is noiseless whatever the draw; otherwise the error is proportional to the reading |
| RangeSensors.DistanceSensor.Default | src/simulation/sensors/DistanceSensor.java:42-44 | facing forwards from the centre, the default range and noise |
| RangeSensors.DistanceSensor.Angled | src/simulation/sensors/DistanceSensor.java:51-53 | the offset angle, from the centre, the default range and noise |
| RangeSensors.DistanceSensor.Placed | src/simulation/sensors/DistanceSensor.java:60-62 | the offset angle and point, the default range, no noise |
| RangeSensors.DistanceSensor.At | src/simulation/sensors/DistanceSensor.java:72-74 | the integer offset point, the default range, no noise |
| RangeSensors.DistanceSensor.Ranged | src/simulation/sensors/DistanceSensor.java:82-84 | the given range, no noise |
| RangeSensors.DistanceSensor.constructor | src/simulation/sensors/DistanceSensor.java:93-103 | the given offset, range and uncertainty, the end offset at (offset x, range) |
| RangeSensors.DistanceSensor.SetObject | src/simulation/sensors/DistanceSensor.java:176-183 | the start is the host's centre moved by the offset at its heading; the end the centre moved by (offset x, range) at the heading plus the sensor's angle |
| RangeSensors.DistanceSensor.Analyse | src/simulation/sensors/DistanceSensor.java:111-155 | the output is RangeReading with the noise draw scaled by the uncertainty |
| RangeSensors.DistanceSensor.Reading | src/simulation/sensors/DistanceSensor.java:116-151 | the four loops give RangeReading |
| RangeSensors.DistanceSensor.ScanRobots | src/simulation/sensors/DistanceSensor.java:116-124 | the least ray distance of another robot the segment meets, from the range |
| RangeSensors.DistanceSensor.ScanCups | src/simulation/sensors/DistanceSensor.java:126-135 | the least centre distance of a cup the segment meets, from the robots' minimum |
| RangeSensors.DistanceSensor.ScanTerrain | src/simulation/sensors/DistanceSensor.java:137-145 | the least ray distance of an impassable terrain the segment meets, from the cups' minimum |
| Radar.Sweep | src/simulation/sensors/RobotRadar.java:136-147 | a ring back to 0 past its limit, else one step on; it stays within [0, limit + step] |
| Radar.LastFromIsLast | src/simulation/sensors/RobotRadar.java:149-163 | the loop as written keeps its start with no robot in range, and otherwise the last robot in range |
| Radar.NearestFromIsNearest | src/simulation/sensors/RobotRadar.java:149-163 | the intended loop keeps a contact no farther than its start and each robot in range, and it is the start or one of them |
| Radar.LastIsNotNearest | src/simulation/sensors/RobotRadar.java:149-163 | a nearer robot before a farther one: the loop as written reports the farther one, the intended loop the nearer |
| Radar.RobotRadar.constructor | src/simulation/sensors/RobotRadar.java:80-90 | the range circle about the origin, rings a third of the range apart, output (0, 0) |
| Radar.RobotRadar.Default | src/simulation/sensors/RobotRadar.java:46-48 | at the host's centre, the default range |
| Radar.RobotRadar.Ranged | src/simulation/sensors/RobotRadar.java:54-56 | at the host's centre, the given range |
| Radar.RobotRadar.Placed | src/simulation/sensors/RobotRadar.java:62-64 | at the offset, the default range |
| Radar.RobotRadar.At | src/simulation/sensors/RobotRadar.java:71-73 | at the integer offset, the default range |
| Radar.RobotRadar.SetObject | src/simulation/sensors/RobotRadar.java:211-219 | the location is the host's centre plus the offset turned by its heading; the range circle is placed at the host's centre |
| Radar.RobotRadar.AdvanceRings | src/simulation/sensors/RobotRadar.java:136-147 | each of the four display sweeps advances by Sweep |
| Radar.RobotRadar.Analyse | src/simulation/sensors/RobotRadar.java:135-172 | as written: the contact of the last robot in range, or the range with bearing 0, bearing normalised |
| Radar.RobotRadar.ScanAliased | src/simulation/sensors/RobotRadar.java:149-163 | with temp and output one array, the loop keeps LastFrom |
| Radar.RobotRadar.AnalyseNearest | src/simulation/sensors/RobotRadar.java:135-172 | as intended: the nearest robot in range, the later of equals, or the range with bearing 0 |
| Radar.RobotRadar.ScanNearest | src/simulation/sensors/RobotRadar.java:149-163 | the loop keeps NearestFrom |
| PolygonCreators.Snap | src/ux/display/designer/PolygonCreator.java:262-281 | on the grid of 25 that GRIDW and GRIDH both give, a multiple of 25: a non-negative coordinate with a remainder up to 12 rounds down and one of 13 or more up; a negative one moves less than 25 towards 0 |
| PolygonCreators.SnapIsNearest | src/ux/display/designer/PolygonCreator.java:262-281 | for a non-negative coordinate no grid line is nearer than the snapped one |
| PolygonCreators.PolygonCreator.constructor | src/ux/display/designer/PolygonCreator.java:48-58 | empty lists, no points, not editable |
| PolygonCreators.PolygonCreator.SetEditable | src/ux/display/designer/PolygonCreator.java:104-106 | only the editable flag changes |
| PolygonCreators.PolygonCreator.ResetCanvas | src/ux/display/designer/PolygonCreator.java:186-190 | both lists emptied and the count 0 |
| PolygonCreators.PolygonCreator.AddPoint | src/ux/display/designer/PolygonCreator.java:196-204 | the point appended to both lists and counted |
| PolygonCreators.PolygonCreator.RemovePreviousPoint | src/ux/display/designer/PolygonCreator.java:209-219 | the last point dropped while more than one is left, else nothing changes; the count stays equal to both lengths |
| PolygonCreators.PolygonCreator.MousePressed | src/ux/display/designer/PolygonCreator.java:255-289 | the first button appends the snapped point only while editable; the third removes the previous point whether or not editable; other buttons change nothing |
| PolygonCreators.ListToIntArray | src/ux/display/designer/PolygonCreator.java:351-369 | null iff the list is empty, otherwise a new array holding the list in order |

## Left out

- Swing user interface, painting and mouse plumbing (everything under `src/ux` except the point-list and snapping logic of `PolygonCreator`): no statable behaviour beyond field assignments.
- `PolygonCreator` painting (`drawPolygon`, `paintComponent`) and its catch blocks, which the list operations cannot reach.
- Schedulers (`WinScheduler`, `NixScheduler`), `Simulator.chooseScheduler`, `readObject` and subscriber notification: timer threads and serialisation.
- Loading a brain through JRuby: the `ScriptingContainer`, the file readers, the `mark`/`reset` of the reader (and its "Class name too long" IOException) and the Ruby scripts. Only the class-line parsing rule is modelled, on the script's lines as an input.
- The `Robot` constructor that also takes a colour (`src/simulation/entities/Robot.java:97-107`): the colour is for display only; otherwise it is `Robots.Load` with the default power and mass.
- `java.awt.geom.Area` clipping, `PathIterator`, bounding boxes, `Line2D` intersection, trigonometry and `Math.sqrt`: these are the `Lib` parameter, not re-implemented.
- Floating point: doubles are reals. Rounding, infinities other than the vertical slope, and the `atan2` values the glancing-threshold and `getAngleTo` test cases expect are not modelled, since they depend on the trigonometry `Lib` supplies.
- `Random.nextGaussian` and the spill shape draws: supplied as `Entropy` and as the `g` parameter of `DistanceSensor.analyse`.
- GPS, velocity, compass and collection sensors: their readings are inputs of the behaviours and the arm, not modelled sensors. Hence also GPS writing noise into the host's shared centre.
- Object aliasing of points: `XPoint` is a value. `RigidBody.setShape` and the sensors' `setObject` share the other body's centre object in Java. Except for `TerrainSensor`, whose model keeps the host itself and reads its centre in analyse, the model copies the centre's value at the call, so a later move of the host is not seen through the shared point.
- `XPoint.setLocation` and `addVector`: with points as values these are plain assignments.
- Shapes without vertices: the vertex list of a shape (`Geometry.Outline`) is never empty in the model. `XPoint.java:88`, `XPoint.java:198` and `Entity.java:214` take its last vertex with `getLast()`, which would throw `NoSuchElementException` on an empty path; that exception is not modelled.
- `Entity.setShape` (`src/simulation/geometry/Entity.java:249-252`): covered by `RigidBodies.RigidBody.SetShape`, which replaces the region wholesale.
- RigidBodies.RigidBody.SetShape: states that the new centre equals the other body's centre, not that it is the same object (see aliasing above).
- RangeSensors.CupSensor.SetObject: copies the host's centre rather than sharing it.
- Cameras.Camera.SetObject: copies the host's centre rather than sharing it.
- Cameras.RobotCamera.SetObject: copies the host's centre rather than sharing it.
- Radar.RobotRadar.SetObject: the range circle's centre is set to the host's centre by value, not shared with the host.
- Java integer widths: the snapping arithmetic, the step counter and the collection counter are unbounded integers or reals; 32-bit overflow is not modelled, since no reachable input comes near it.
- The cup-on-cup loop of `resolve` has no cap in the source. The model runs it for at most `fuel` rounds and reports `Hang` after that, so a run the source would finish after more rounds than the fuel is reported as hung.
- Dynamics.WallSettle: on a NaN wall-collision angle the model ends the wall loop unresolved, so the move is refused. In the source every comparison of robotIntoEnvironment fails on NaN, so it takes the turn-in-place branch: it multiplies the velocity by NaN, rotates the candidate by NaN and answers true, and the loop goes on with NaN coordinates. Reals cannot hold those, so the NaN case is cut short.
- Simulators.Simulator.WallPhase: follows WallSettle, so it also stops unresolved on a NaN angle where the source goes on with NaN coordinates.
- Dynamics.Shove: on a NaN bearing (two cups with the same centre) the model leaves the other cup in place, where the source translates it by NaN. ShoveSettle then shoves in place until its fuel runs out and reports Hung, while in the source the next collision test sees a cup at NaN coordinates.
- Simulators.Simulator.CupIntoCup: on a NaN bearing leaves the cup in place, where the source translates it by NaN; reals cannot hold the NaN coordinates.
- Simulators.Simulator.FindNewState: for a robot of mass 0 outside the motor deadzone the source divides by 0 and stores an infinite or NaN velocity. The model reports that the thrust is not finite and keeps the old velocity, since reals hold no infinity or NaN.
- Simulators.Accelerate: for mass 0 outside the deadzone it reports a non-finite thrust instead of computing Java's infinite or NaN acceleration.
- Simulators.Simulator.MoveBody: a non-finite thrust ends the turn as Diverged, with the body not moved, where the source goes on to resolve a candidate with an infinite or NaN velocity.
- Simulators.Simulator.Frame: a Diverged body turn skips the arm, where the source goes on with the infinite or NaN velocity.
- Simulators.Simulator.Move: passes Diverged on, and does not follow the source past a non-finite thrust.
- Simulators.Simulator.Move: states only what the game loop needs of a turn; the robot's new body and velocity are stated by Frame and the cups' poses by SettleBody.
- Simulators.Simulator.MoveBody: the cups' poses after a resolved candidate are stated by SettleBody, which MoveBody runs on findNewState's candidate unchanged; MoveBody itself states them only for a Diverged turn.
- Simulators.Simulator.Frame: the cups' poses after a resolved candidate are stated by SettleBody, as for MoveBody; the arm moves no cup, it only takes cups off the list.
- Simulators.Simulator.GameLoop: after a Completed call each robot's own new state is stated per robot by Frame, not by GameLoop, which states only the step count, the counters and that no cup appears.
- Simulators.Simulator.GameLoop: the sensors' `setObject` and `analyse` at the start of each robot's turn (src/simulation/Simulator.java:167-171) are not run inside the loop. Their readings, taken after the robots before it have moved in this step, are part of the brain outcome `outcomes[i]`, which is an input.
- Simulators.Simulator.GameLoop: a robot of mass 0 driven outside the deadzone stops the call as NonFinite, where the source goes on with the robots after it and counts the step.
- Simulators.Simulator.Resolve: on Hang no cup pose is promised. The source's cup-on-cup loop never returns then, so nothing is observable after it; the model only promises that the cup list is unchanged.
- Simulators.Simulator.ResolveCups: on Hang, as for Resolve, only the verdict and the unchanged cup list are promised, not the poses.
- Simulators.Simulator.ResolveCup: on Hang, only the verdict and the unchanged cup list are promised, not the poses.
- Simulators.Simulator.ShoveOthers: on Hang, only the verdict and the unchanged cup list are promised, not the poses.
- Simulators.Simulator.ShoveCup: on Hang, the shoved cup's pose is not promised.
- WallBehaviours.AvoidObstacle.Default: does not promise that its sub-controllers are freshly allocated, only their wiring and state.
- WallBehaviours.AvoidObstacle.Near: does not promise that its sub-controllers are freshly allocated, only their wiring and state.
- WallBehaviours.AvoidObstacle.constructor: does not promise that its sub-controllers are freshly allocated, only their wiring and state.
- `FindMoveToCup.isFinished`, `getNumCollected` and `FindMoveToRobot.isFinished`: plain accessors (a flag that is never raised, the recorded count, the mover's flag); they are functions without contracts of their own, and the tick lemmas state what they return.
- The accessors `getValue`, `getDescription`, `getRange` and `getOutput` of the sensors: string formatting and field reads.
- The accessors `Camera.hasTarget` (src/simulation/sensors/Camera.java:296-302), `RobotCamera.isCup` (src/simulation/sensors/RobotCamera.java:170-176), `RobotRadar.isRobot` (src/simulation/sensors/RobotRadar.java:239-244), `XPoint.getAngleTo` (src/simulation/geometry/XPoint.java:171-173) and `Robot.getGlancingThreshold` (src/simulation/entities/Robot.java:397-399): they are the functions `Cameras.Camera.HasTarget`, `Cameras.RobotCamera.IsCup`, `Radar.RobotRadar.IsRobot`, `Points.AngleTo` and `Robots.Robot.GlancingThreshold`, each its Java body (a test of the sensor's stored reading, or one `atan2` call of the trigonometry library) with no contract of its own. The contracts that use them state what they mean: the camera and radar analyse rows, MoveToRobotRadar.Update, FindMoveToCup.Update, FindMoveToRobot.Update and WallResponse.
- TargetBehaviours.FindMoveToCup.Update: the search behaviour's `update()` is not called. Its output `alt` is an input, and Java calls `altBehaviour.update()` only on ticks without a camera target (src/simulation/entities/behaviour/FindMoveToCup.java:56-57), so the search behaviour's own state, which the model does not hold, advances only on those ticks.
- TargetBehaviours.FindMoveToRobot.Update: likewise the search behaviour's `update()` is not called; its output `alt` is an input, and Java calls it only on ticks without a camera target (src/simulation/entities/behaviour/FindMoveToRobot.java:32-33).
- The sensor test scenarios that depend on concrete Area geometry (a wall seen at 490, an impassable at 14.1, a cup hidden behind an impassable): with Area as a parameter they are not computable. The range-finder and cup-sensor lemmas state the selection rule those tests exercise.
- Concurrent readers of the copy-on-write lists: loops iterate a snapshot, as the sequential tick does.
- `SimulationBuilder`, `RobotBuilder`, `DeflatedSimulator` and the interfaces (`Sensor`, `SensorAble`, `Behaviour`, `Scheduler`, publisher and subscriber): demo data and declarations without logic.

## Findings

| source | as written | input that shows it | evidently intended | confidence | as-written member | corrected member |
|---|---|---|---|---|---|---|
| src/simulation/sensors/RobotRadar.java:149-163 | `output = temp` makes both names refer to one array, so the test `temp[0] <= output[0]` compares the new distance with itself and always holds: every robot in range overwrites the result, and the radar reports the last robot in range | two other robots in range, the nearer one first in the robot list: the farther one is reported | report the nearest robot in range | not executed | Radar.RobotRadar.Analyse, Radar.LastIsNotNearest | Radar.RobotRadar.AnalyseNearest, Radar.NearestFromIsNearest |
| src/simulation/sensors/Bumper.java:105-109 | the arena-containment test sits inside the loop over impassable terrain, so it only runs when there is at least one impassable terrain | an arena with no impassable terrain and a bumper that crosses the arena wall: the bumper reads false | the bumper also fires when it leaves the arena, whatever terrain there is | not executed | BodySensors.Bumper.Analyse, BodySensors.WallMissedWithoutTerrain | BodySensors.Bumper.AnalyseWithWall, BodySensors.AsWrittenAgreesWithTerrain |
