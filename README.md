# MathVisualTests, modelled in Dafny

MathVisualTests is a set of interactive demos for a small game-engine maths
library. An `App` owns one demo ("game mode") at a time. F7 and F6 step
forward and back through the seven modes, and creating a mode's game sets
the clock's time scale for the curves and pachinko demos. The seven demos are:

- **nearest point**: the player point is moved by keys or the mouse, and the
  nearest point on each of seven 2D shapes is highlighted, together with the
  closest of those points;
- **raycast vs discs**, **raycast vs line segments** and **raycast vs AABB2s**:
  a ray is edited with letter keys, arrows and the mouse. It is cast against
  random shapes, and the nearest impact is chosen (the lowest index among
  equally near hits);
- **3D shapes**: random spheres, boxes, cylinders, oriented boxes and planes.
  A raycast selects a shape, which can then be grabbed and carried in front
  of the camera. Overlapping shapes are repainted in a pulsing colour, and the
  nearest point on every shape to the player is tracked. Space locks a
  reference position: the ray start and the nearest points stay where they
  were measured until Space unlocks;
- **curves**: a table of fifteen easing functions browsed with W and E, a
  random Bezier curve, a random spline, a subdivision count doubled and
  halved with M and N between 2 and 2048, and a point that moves along the
  spline at constant speed;
- **pachinko**: balls spawned along the ray fall under gravity. They bounce
  off each other, off fixed discs, capsules and boxes, and off the walls.
  The floor optionally warps them back to the top. Physics runs at a fixed
  or a variable time step.

The engine's geometry kernels are fields of a record of functions in every
module, with no properties assumed about them. The kernels are the
nearest-point, raycast, overlap and bounce routines, lengths and orientation
bases. Random rolls are given as inputs (`Fraction`s in [0, 1], or naturals
for integer rolls), so a demo's state after F8 is a function of the rolls.

Shared pieces:

- `Sweeps` models the nested loops "every unordered pair `i < j`" and "every
  pair of a row and a column" as fold functions, with loop methods proved
  equal to them.
- `Selection` models the nearest-hit scan that every raycast demo repeats,
  and the closest-candidate search against the 99999 sentinel.
- `RayEditing` models the ray editing shared by the three 2D raycast demos and
  pachinko.

## Model

| member | source | states |
|---|---|---|
| App.NextGameMode | Code/Game/App.cpp:235-238 | the next mode is always valid; it is mode + 1, except that the last mode wraps to the nearest-point mode |
| App.PreviousGameMode | Code/Game/App.cpp:240-243 | the previous mode is always valid; it is mode - 1, except that the first mode wraps to pachinko |
| App.NextPreviousInverse | Code/Game/App.cpp:235-243 | next and previous undo each other on every valid mode |
| App.NextTimesAdvances | Code/Game/App.cpp:235-238 | k presses of F7 advance the mode by k modulo seven |
| App.NextCyclesThroughAllModes | Code/Game/App.cpp:116-120 | seven presses of F7 return to the starting mode, and every mode is reached on the way |
| App.GameFor | Code/Game/App.cpp:164-210 | a game is created exactly for the seven valid modes; curves and pachinko each come from exactly one mode |
| App.GameForInjective | Code/Game/App.cpp:164-210 | different modes create different kinds of game |
| App.TimeScaleFor | Code/Game/App.cpp:194-204 | the curves mode sets the clock's time scale to 0.5, the pachinko mode to 2.0, and every other mode leaves it as it was |
| App.SwitchedModeCases | Code/Game/App.cpp:116-126 | after F7 then F6 the mode stays valid; both keys or neither leave it, and exactly one steps forward or back |
| App.BothKeysRestoreModeTimeScale | Code/Game/App.cpp:116-126 | pressing both keys on the curves or pachinko mode leaves that mode's own time scale in force |
| App.App.constructor | Code/Game/App.cpp:34-66 | start-up runs the nearest-point demo, which satisfies the class invariant |
| App.App.GetNextGameMode | Code/Game/App.cpp:235-238 | returns the mode after the current one |
| App.App.GetPreviousGameMode | Code/Game/App.cpp:240-243 | returns the mode before the current one |
| App.App.CreateNewGameForMode | Code/Game/App.cpp:164-210 | records the mode, creates its game (none for an unknown mode) and sets its time scale |
| App.App.Update | Code/Game/App.cpp:102-127 | keeps the running game equal to the current mode's game; the mode and time scale follow F7 then F6; a frame without either key keeps the game |
| Curves.NextEasing | Code/Game/Game2DCurves.cpp:284-288 | the next easing index stays in the table and wraps from the last to the first |
| Curves.PreviousEasing | Code/Game/Game2DCurves.cpp:290-294 | the previous easing index stays in the table and wraps from the first to the last |
| Curves.NextPreviousInverse | Code/Game/Game2DCurves.cpp:284-294 | next and previous easing undo each other |
| Curves.BrowsedEasing | Code/Game/Game2DCurves.cpp:271-282 | W steps back, E steps forward, and both or neither keep the index |
| Curves.Doubled | Code/Game/Game2DCurves.cpp:317-324 | M doubles the subdivision count, capped at 2048, and keeps it a power of two |
| Curves.Halved | Code/Game/Game2DCurves.cpp:326-333 | N halves the subdivision count, floored at 2, and keeps it a power of two |
| Curves.Subdivided | Code/Game/Game2DCurves.cpp:315-334 | after a frame the count is still a power of two between 2 and 2048 |
| Curves.SubdivisionCountSteps | Code/Game/Game2DCurves.cpp:315-334 | every reachable count lies in [2, 2048]; doubling below the cap and halving above the floor stay reachable and are exact |
| Curves.SubdivisionCountBounds | Code/Game/Game2DCurves.cpp:315-334 | every reachable count is even and lies in [2, 2048] |
| Curves.MThenNRestores | Code/Game/Game2DCurves.cpp:315-334 | M and N in one frame restore the count, except at 2048, where the count ends at 1024 |
| Curves.ControlPointCount | Code/Game/Game2DCurves.cpp:58 | a random spline has four to six control points |
| Curves.RollSplinePoints | Code/Game/Game2DCurves.cpp:57-70 | the loop builds exactly the rolled spline points |
| Curves.SplinePointsPlaced | Code/Game/Game2DCurves.cpp:57-70 | point i lies 20 to 200 units to the right of the pane's i-th step and inside the pane vertically |
| Curves.SplinePointsIncreasing | Code/Game/Game2DCurves.cpp:57-70 | when the step exceeds 180 units, the spline's points strictly increase in x |
| Curves.SumNonNegative | Code/Game/Game2DCurves.cpp:242-249 | a total of nonnegative segment lengths is nonnegative |
| Curves.SegmentLengths | Code/Game/Game2DCurves.cpp:242-249 | one length per spline segment |
| Curves.SegmentLengthsNonNegative | Code/Game/Game2DCurves.cpp:242-249 | segments of nonnegative measured length give nonnegative entries |
| Curves.MeasureSegments | Code/Game/Game2DCurves.cpp:242-249 | the loop collects every segment's length, and the running total is their sum |
| Curves.ConstantSpeedParameter | Code/Game/Game2DCurves.cpp:253-265 | the search returns the parameter inside the first segment whose end reaches the distance, or 0 when none does; only that segment's length must be nonzero |
| Curves.FirstReachUnique | Code/Game/Game2DCurves.cpp:253-265 | the segment the search stops in is unique |
| Curves.FirstReachExists | Code/Game/Game2DCurves.cpp:253-265 | some segment reaches the distance whenever any segment end does |
| Curves.WithinTotalIsReached | Code/Game/Game2DCurves.cpp:253-265 | a distance within the total length is reached by some segment |
| Curves.SectionParameterInUnitRange | Code/Game/Game2DCurves.cpp:259-261 | the parameter of the reached segment lies in [0, 1] |
| Curves.ConstantSpeedSplineParameter | Code/Game/Game2DCurves.cpp:235-265 | the moving point's parameter is the search result at the average-speed distance, and it lies in [0, 1]; zero-length segments are allowed except the one the search stops at |
| Curves.SearchResultInUnitRange | Code/Game/Game2DCurves.cpp:251-265 | within one lap the search result lies in [0, 1] |
| Curves.SpeedReachesSegment | Code/Game/Game2DCurves.cpp:251-257 | within one lap the average-speed distance is reached by some segment |
| Curves.AverageSpeedDistance | Code/Game/Game2DCurves.cpp:251-252 | the average-speed distance lies between 0 and the total length |
| Curves.Game2DCurves.constructor | Code/Game/Game2DCurves.cpp:29-37 | two subdivisions, panes hidden, and a rolled easing, Bezier curve and spline |
| Curves.Game2DCurves.RandomizeCurves | Code/Game/Game2DCurves.cpp:39-71 | F8 state is the rolled easing index and its name, the rolled Bezier curve and the rolled spline |
| Curves.Game2DCurves.Update | Code/Game/Game2DCurves.cpp:297-313 | F1 toggles the panes; the count, easing and curves follow the keys in source order |
| Curves.Game2DCurves.IncreaseDecreaseSubdivisions | Code/Game/Game2DCurves.cpp:315-334 | the count becomes Subdivided of the old count |
| Curves.Game2DCurves.NextAndPreviousInputs | Code/Game/Game2DCurves.cpp:271-282 | the easing index becomes BrowsedEasing, and the shown name matches it |
| Curves.Game2DCurves.GetNextEasingFunction | Code/Game/Game2DCurves.cpp:284-288 | the next easing and its name |
| Curves.Game2DCurves.GetPreviousEasingFunction | Code/Game/Game2DCurves.cpp:290-294 | the previous easing and its name |
| Selection.ReplacingHitIsNearest | Code/Game/GameRaycastsVsDiscs.cpp:139-152 | a hit strictly nearer than the running nearest is the new nearest |
| Selection.KeptStateStillSummarises | Code/Game/GameRaycastsVsDiscs.cpp:139-152 | a miss or a hit that is not nearer leaves the running state correct |
| Selection.ScanForNearest | Code/Game/Game3DTestShapes.cpp:505-594 | scanning one more container updates the nearest hit; it reports a replacement exactly when the container holds a new strict record |
| Selection.ScanNext | Code/Game/Game3DTestShapes.cpp:505-594 | after a replacement the nearest hit lies in the container just scanned; otherwise the state is unchanged |
| Selection.NearestHit | Code/Game/GameRaycastsVsDiscs.cpp:139-152 | reports a hit exactly when some ray hits; the chosen index has the smallest distance, and the earliest index wins a tie; a miss leaves the initial values |
| Selection.NearestIsUnique | Code/Game/GameRaycastsVsDiscs.cpp:139-152 | at most one index is the nearest hit |
| Selection.NearestExists | Code/Game/GameRaycastsVsDiscs.cpp:139-152 | whenever something is hit, a nearest hit exists |
| Selection.ClosestCandidate | Code/Game/GameNearestPoint.cpp:203-219 | with a candidate below 99999, returns the first one at the smallest distance; otherwise returns the start value |
| Sweeps.PairsMembers | Code/Game/Game2DPachinko.cpp:126-136 | the pair sweep visits exactly the pairs i < j < n |
| Sweeps.PairsVisitOrder | Code/Game/Game2DPachinko.cpp:126-136 | pairs are visited in strictly increasing lexicographic order, none twice |
| Sweeps.PairsEmpty | Code/Game/Game2DPachinko.cpp:126-136 | fewer than two elements give no pairs |
| Sweeps.GridMembers | Code/Game/Game2DPachinko.cpp:138-172 | the cross sweep visits exactly the pairs a < na, b < nb |
| Sweeps.GridVisitOrder | Code/Game/Game2DPachinko.cpp:138-172 | rows and columns are visited in strictly increasing lexicographic order, none twice |
| Sweeps.FoldPairsConcat | Code/Game/Game3DTestShapes.cpp:970-1138 | running two sweeps back to back equals one sweep over their concatenation |
| Sweeps.FoldPairsKeeps | Code/Game/Game3DTestShapes.cpp:970-1138 | an invariant kept by each visit is kept by the whole sweep |
| Sweeps.ForEachPair | Code/Game/Game2DPachinko.cpp:126-136 | the nested i < j loops compute the pair fold |
| Sweeps.ForEachCross | Code/Game/Game2DPachinko.cpp:138-172 | the nested row and column loops compute the cross fold |
| Pachinko.AdjustedBalls | Code/Game/Game2DPachinko.cpp:224-238 | the elasticity keys change only elasticities, and every elasticity ends in [-0.05, 1.05] |
| Pachinko.SpawnedBall | Code/Game/Game2DPachinko.cpp:375-386 | a spawned ball's radius lies between the configured minimum and maximum |
| Pachinko.Game2DPachinko.constructor | Code/Game/Game2DPachinko.cpp:10-25 | the ray is at its default, the time step is 0.005, warp is on, the step is variable, there are no balls, and the shapes are rolled |
| Pachinko.Game2DPachinko.Update | Code/Game/Game2DPachinko.cpp:57-93 | the ray is edited, then F8, elasticity, spawning, B and P follow in order; then fixed steps (one per timer firing) or one variable step run |
| Pachinko.Game2DPachinko.HandleKeys | Code/Game/Game2DPachinko.cpp:62-79 | F8 re-rolls the shapes; elasticity and spawning change the balls; B and P toggle warp and the fixed step |
| Pachinko.Game2DPachinko.AdvancePhysics | Code/Game/Game2DPachinko.cpp:81-92 | a fixed step adjusts the step and runs one physics step per firing; otherwise one step of the frame's length runs |
| Pachinko.Game2DPachinko.Spawned | Code/Game/Game2DPachinko.cpp:212-222 | space adds one ball and a held N one more; each starts at the ray start with the ray as velocity and the default elasticity |
| Pachinko.Game2DPachinko.RunFixedSteps | Code/Game/Game2DPachinko.cpp:84-87 | one physics step with the fixed step per timer firing |
| Pachinko.Game2DPachinko.AdjustTimeStep | Code/Game/Game2DPachinko.cpp:95-105 | brackets scale the fixed step |
| Pachinko.Game2DPachinko.UpdatePhysics | Code/Game/Game2DPachinko.cpp:107-113 | gravity, then ball pairs, then bumpers, then walls |
| Pachinko.Game2DPachinko.ApplyGravityAndMoveBalls | Code/Game/Game2DPachinko.cpp:115-124 | each ball's velocity gains gravity times dt and its centre moves by the new velocity times dt; radius and elasticity are kept |
| Pachinko.Game2DPachinko.BallsVsBalls | Code/Game/Game2DPachinko.cpp:126-136 | the pair sweep over the balls |
| Pachinko.Game2DPachinko.BallsVsBumpers | Code/Game/Game2DPachinko.cpp:138-172 | the cross sweep of balls with fixed shapes |
| Pachinko.Game2DPachinko.BallsVsWalls | Code/Game/Game2DPachinko.cpp:174-178 | the north and south walls, then the east and west walls |
| Pachinko.Game2DPachinko.CheckEastAndWestWalls | Code/Game/Game2DPachinko.cpp:180-194 | every ball goes through the east and west wall test |
| Pachinko.Game2DPachinko.CheckNorthAndSouthWalls | Code/Game/Game2DPachinko.cpp:196-210 | every ball goes through the floor test, with warp or bounce |
| Pachinko.Game2DPachinko.BallSpawning | Code/Game/Game2DPachinko.cpp:212-222 | the spawned balls are appended after the existing ones |
| Pachinko.Game2DPachinko.AdjustBallElasticity | Code/Game/Game2DPachinko.cpp:224-238 | the balls become AdjustedBalls of the old balls |
| Pachinko.Game2DPachinko.SpawnBalls | Code/Game/Game2DPachinko.cpp:375-386 | exactly one rolled ball is appended |
| Pachinko.Game2DPachinko.RandomizeFixedShapes | Code/Game/Game2DPachinko.cpp:313-373 | the balls are cleared and the shapes are re-rolled |
| Pachinko.PairSweepKeepsDiscs | Code/Game/Game2DPachinko.cpp:126-136 | ball-on-ball bounces keep the number of balls, their radii and their elasticities |
| Pachinko.BumperSweepKeepsDiscs | Code/Game/Game2DPachinko.cpp:138-172 | bumper bounces keep the number of balls, their radii and their elasticities |
| Pachinko.PhysicsKeepsDiscs | Code/Game/Game2DPachinko.cpp:107-113 | a physics step keeps the number of balls, their radii and their elasticities |
| Pachinko.RunPhysicsKeepsDiscs | Code/Game/Game2DPachinko.cpp:84-87 | any number of fixed steps keeps the number of balls, their radii and their elasticities |
| Pachinko.NoPairBounceBelowTwoBalls | Code/Game/Game2DPachinko.cpp:126-136 | with fewer than two balls the pair sweep changes nothing |
| Pachinko.PairSweepVisits | Code/Game/Game2DPachinko.cpp:126-136 | each unordered pair of balls is tested once, in order |
| Pachinko.BumperSweepVisits | Code/Game/Game2DPachinko.cpp:138-172 | each ball is tested against each shape once, in order |
| Pachinko.NoBumpersNoBounce | Code/Game/Game2DPachinko.cpp:138-172 | without fixed shapes no ball changes |
| Pachinko.CapsuleBounceCondition | Code/Game/Game2DPachinko.cpp:150-159 | a ball bounces off a capsule exactly when it is strictly closer than the two radii, from the nearest point on the capsule |
| Pachinko.CapsuleTouchIsNoBounce | Code/Game/Game2DPachinko.cpp:150-159 | a ball that exactly touches a capsule does not bounce |
| Pachinko.BoxTouchIsNoBounce | Code/Game/Game2DPachinko.cpp:161-169 | a ball that exactly touches a box does not bounce |
| Pachinko.EastWallTestedAgainstRadius | Code/Game/Game2DPachinko.cpp:180-194 | as written, a ball right of its own radius bounces off the east wall, and one left of it off the west wall |
| Pachinko.WarpOnlyLiftsFallenBalls | Code/Game/Game2DPachinko.cpp:196-210 | with warp on, only a ball fully below the floor moves, to the screen top plus its radius plus the extra height, keeping everything else |
| Pachinko.FloorBounceWithoutWarp | Code/Game/Game2DPachinko.cpp:196-210 | with warp off, a ball whose centre is closer to the floor than its radius bounces off the floor |
| Pachinko.AdjustedElasticityBounds | Code/Game/Game2DPachinko.cpp:224-238 | elasticity ends in [-0.05, 1.05], and in [0, 1] without keys |
| Pachinko.BothElasticityKeysCancel | Code/Game/Game2DPachinko.cpp:224-238 | both keys or none only clamp to [0, 1] |
| Pachinko.LoweringStopsBelowZero | Code/Game/Game2DPachinko.cpp:224-238 | lowering an elasticity that is already at or below zero gives -0.05 |
| Pachinko.TimeStepKeys | Code/Game/Game2DPachinko.cpp:95-105 | ] multiplies the step by 1.1 and [ divides it back; [ keeps the step positive |
| Pachinko.NoFiringNoPhysics | Code/Game/Game2DPachinko.cpp:81-92 | zero firings run no physics, and one firing runs one step |
| Pachinko.FixedShapesLayout | Code/Game/Game2DPachinko.cpp:313-373 | the shapes are the discs, then the capsules, then the boxes, each from its own roll |
| Pachinko.DiscShapeRanges | Code/Game/Game2DPachinko.cpp:319-330 | a rolled disc lies on screen, with radius and elasticity in their configured ranges |
| Pachinko.CapsuleBoneCentred | Code/Game/Game2DPachinko.cpp:333-353 | a capsule's bone is the rolled direction times the rolled length, centred on the rolled point |
| Pachinko.BoxShapeMargin | Code/Game/Game2DPachinko.cpp:356-372 | a rolled box has half-sizes in range and stays 50 units inside the screen |
| RayEditing.RayEditor.constructor | Code/Game/GameRaycastVsLineSegments.cpp:8-16 | the ray starts at the given ends |
| RayEditing.RayEditor.KeyMoves | Code/Game/GameRaycastsVsDiscs.cpp:45-101 | letters move one end each, and arrows move both |
| RayEditing.RayEditor.MoveStartByLetters | Code/Game/GameRaycastsVsDiscs.cpp:45-61 | ESDF move the start by one unit per key; the end is kept |
| RayEditing.RayEditor.MoveEndByLetters | Code/Game/GameRaycastsVsDiscs.cpp:63-79 | IJKL move the end by one unit per key; the start is kept |
| RayEditing.RayEditor.MoveBothByArrows | Code/Game/GameRaycastsVsDiscs.cpp:81-101 | arrows move both ends by the same amount |
| RayEditing.RayEditor.SnapAxes | Code/Game/GameRaycastVsAABB2s.cpp:110-117 | V aligns the end's x with the start, and H aligns its y |
| RayEditing.RayEditor.MouseOverride | Code/Game/GameRaycastsVsDiscs.cpp:102-113 | the left button puts the start at the cursor, and the right button the end |
| RayEditing.RayEditor.ArrowMovement | Code/Game/GameRaycastsVsDiscs.cpp:42-113 | the edited ray is EditedRay of the old one |
| RayEditing.ArrowsKeepSpan | Code/Game/GameRaycastsVsDiscs.cpp:81-101 | arrows never change the ray's direction vector; only the letter keys do |
| RayEditing.LetterKeysMoveOneEnd | Code/Game/GameRaycastsVsDiscs.cpp:45-79 | without arrows or mouse, each end moves only by its own keys |
| RayEditing.MouseWins | Code/Game/GameRaycastsVsDiscs.cpp:102-113 | a held mouse button overrides every key for its end |
| RayEditing.SnapsAlignEnds | Code/Game/GameRaycastVsAABB2s.cpp:110-117 | after V the ends share x, and after H they share y |
| RaycastVsDiscs.RandomDisc | Code/Game/GameRaycastsVsDiscs.cpp:184-194 | a rolled disc's radius lies in the configured range |
| RaycastVsDiscs.RandomDiscs | Code/Game/GameRaycastsVsDiscs.cpp:184-194 | F8 rolls exactly the configured number of discs |
| RaycastVsDiscs.RandomDiscsRadii | Code/Game/GameRaycastsVsDiscs.cpp:184-194 | every rolled disc's radius lies in range |
| RaycastVsDiscs.GameRaycastVsDiscs.constructor | Code/Game/GameRaycastsVsDiscs.cpp:11-19 | rolled discs, with both ray ends at the origin |
| RaycastVsDiscs.GameRaycastVsDiscs.Update | Code/Game/GameRaycastsVsDiscs.cpp:21-32 | F8 re-rolls the discs; the ray is reset to its default and then edited |
| RaycastVsDiscs.GameRaycastVsDiscs.RandomizeDiscs | Code/Game/GameRaycastsVsDiscs.cpp:184-194 | the discs become the rolled discs |
| RaycastVsDiscs.GameRaycastVsDiscs.Hits | Code/Game/GameRaycastsVsDiscs.cpp:139-152 | one raycast result per disc |
| RaycastVsDiscs.GameRaycastVsDiscs.NearestDisc | Code/Game/GameRaycastsVsDiscs.cpp:139-152 | reports a hit exactly when some disc is hit; the highlighted disc is the nearest, with the earliest winning a tie |
| RaycastVsLineSegments.RandomSegments | Code/Game/GameRaycastVsLineSegments.cpp:36-57 | F8 rolls exactly the configured number of segments |
| RaycastVsLineSegments.RandomSegmentClipped | Code/Game/GameRaycastVsLineSegments.cpp:36-57 | a segment keeps its rolled start; one longer than the maximum is shortened along its direction to the maximum length |
| RaycastVsLineSegments.GameRaycastVsLinesegments.constructor | Code/Game/GameRaycastVsLineSegments.cpp:8-16 | rolled segments, with the ray from the screen centre to (900, 300) |
| RaycastVsLineSegments.GameRaycastVsLinesegments.Update | Code/Game/GameRaycastVsLineSegments.cpp:18-26 | F8 re-rolls the segments, and the ray is edited |
| RaycastVsLineSegments.GameRaycastVsLinesegments.RandomizeLineSegments | Code/Game/GameRaycastVsLineSegments.cpp:36-57 | the segments become the rolled segments |
| RaycastVsLineSegments.GameRaycastVsLinesegments.Hits | Code/Game/GameRaycastVsLineSegments.cpp:92-105 | one raycast result per segment |
| RaycastVsLineSegments.GameRaycastVsLinesegments.NearestSegment | Code/Game/GameRaycastVsLineSegments.cpp:92-105 | reports a hit exactly when some segment is hit; the highlighted segment is the nearest, with the earliest winning a tie |
| RaycastVsAABB2s.RandomBoxes | Code/Game/GameRaycastVsAABB2s.cpp:37-48 | F8 rolls exactly the configured number of boxes |
| RaycastVsAABB2s.RandomBoxExtents | Code/Game/GameRaycastVsAABB2s.cpp:37-48 | a rolled box's sides lie in the size range, with mins below maxs, and it lies on screen on both axes |
| RaycastVsAABB2s.RandomBoxesExtents | Code/Game/GameRaycastVsAABB2s.cpp:37-48 | every rolled box is well formed |
| RaycastVsAABB2s.GameRaycastVsAABB2s.constructor | Code/Game/GameRaycastVsAABB2s.cpp:8-16 | rolled boxes, with the ray from the screen centre to (900, 300) |
| RaycastVsAABB2s.GameRaycastVsAABB2s.Update | Code/Game/GameRaycastVsAABB2s.cpp:18-27 | F8 re-rolls the boxes, and the ray is edited with V and H snapping |
| RaycastVsAABB2s.GameRaycastVsAABB2s.RandomizeAABB2s | Code/Game/GameRaycastVsAABB2s.cpp:37-48 | the boxes become the rolled boxes |
| RaycastVsAABB2s.GameRaycastVsAABB2s.Hits | Code/Game/GameRaycastVsAABB2s.cpp:156-169 | one raycast result per box |
| RaycastVsAABB2s.GameRaycastVsAABB2s.NearestBox | Code/Game/GameRaycastVsAABB2s.cpp:156-169 | reports a hit exactly when some box is hit; the highlighted box is the nearest, with the earliest winning a tie |
| NearestPoint.GameNearestPoint.constructor | Code/Game/GameNearestPoint.cpp:12-21 | the player starts at the screen centre, with the given shapes |
| NearestPoint.GameNearestPoint.Points | Code/Game/GameNearestPoint.cpp:190-201 | one nearest point per shape, seven in all |
| NearestPoint.GameNearestPoint.NearestPointsTo | Code/Game/GameNearestPoint.cpp:190-201 | the seven nearest points to a position |
| NearestPoint.GameNearestPoint.Update | Code/Game/GameNearestPoint.cpp:27-40 | F8 re-rolls the shapes; the player follows the mouse or the keys; the nearest points and the closest of them are recomputed |
| NearestPoint.GameNearestPoint.PlayerMovement | Code/Game/GameNearestPoint.cpp:42-69 | the held left button puts the player at the cursor; otherwise the keys move it by speed times dt; only the player point changes: the shapes, the seven nearest points and the closest point are kept |
| NearestPoint.GameNearestPoint.GetNearestPointCheck | Code/Game/GameNearestPoint.cpp:190-201 | the points are the seven nearest points to the player, and the closest is chosen among them |
| NearestPoint.GameNearestPoint.GetClosestPointToPlayer | Code/Game/GameNearestPoint.cpp:203-219 | the closest point is the first at minimal distance below 99999, or (0, 0) when none is below |
| NearestPoint.KeyMovesPerAxis | Code/Game/GameNearestPoint.cpp:42-69 | each axis moves by at most one step; opposite keys cancel; up with E moves up exactly one step |
| TestShapes3D.RandomSpheres | Code/Game/Game3DTestShapes.cpp:736-817 | F8 rolls exactly the configured number of spheres |
| TestShapes3D.RandomAABB3s | Code/Game/Game3DTestShapes.cpp:736-817 | F8 rolls exactly the configured number of boxes |
| TestShapes3D.RandomCylinders | Code/Game/Game3DTestShapes.cpp:736-817 | F8 rolls exactly the configured number of cylinders |
| TestShapes3D.RandomOBB3s | Code/Game/Game3DTestShapes.cpp:736-817 | F8 rolls exactly the configured number of oriented boxes |
| TestShapes3D.RandomPlanes | Code/Game/Game3DTestShapes.cpp:736-817 | F8 rolls exactly the configured number of planes |
| TestShapes3D.RandomAABB3Extents | Code/Game/Game3DTestShapes.cpp:736-817 | a rolled box is at least 0.2 deep on each axis and lies within its spawn ranges |
| TestShapes3D.RandomPlaneThroughPoint | Code/Game/Game3DTestShapes.cpp:736-817 | a rolled plane keeps its normal and passes through its rolled point |
| TestShapes3D.RandomSizes | Code/Game/Game3DTestShapes.cpp:736-817 | rolled sphere, cylinder and oriented-box sizes lie in their ranges, and the orientation starts at zero |
| TestShapes3D.MovedAABB3KeepsExtents | Code/Game/Game3DTestShapes.cpp:41-98 | a carried box keeps its size and colour and is centred on the target |
| TestShapes3D.TurnKeys | Code/Game/Game3DTestShapes.cpp:41-98 | opposite turn keys cancel, and O alone adds 10 degrees of yaw |
| TestShapes3D.TurnOBB3 | Code/Game/Game3DTestShapes.cpp:41-98 | a carried oriented box moves to the target, turned by the keys |
| TestShapes3D.MoveSphere | Code/Game/Game3DTestShapes.cpp:41-98 | only the grabbed sphere moves, to the target |
| TestShapes3D.MoveAABB3 | Code/Game/Game3DTestShapes.cpp:41-98 | only the grabbed box moves, to the target |
| TestShapes3D.MoveCylinder | Code/Game/Game3DTestShapes.cpp:41-98 | only the grabbed cylinder moves, to the target |
| TestShapes3D.MoveOBB3 | Code/Game/Game3DTestShapes.cpp:41-98 | only the grabbed oriented box moves and turns |
| TestShapes3D.SweepRepaints | Code/Game/Game3DTestShapes.cpp:970-1138 | a sweep whose every visit only repaints with the pulse colour does so as a whole |
| TestShapes3D.SphereAndBoxSweepsRepaint | Code/Game/Game3DTestShapes.cpp:970-1138 | the sphere and box sweeps only repaint |
| TestShapes3D.CylinderSweepsRepaint | Code/Game/Game3DTestShapes.cpp:970-1138 | the cylinder sweeps only repaint |
| TestShapes3D.OBB3AndPlaneSweepsRepaint | Code/Game/Game3DTestShapes.cpp:970-1138 | the oriented-box and plane sweeps only repaint |
| TestShapes3D.OverlapOnlyRecolours | Code/Game/Game3DTestShapes.cpp:970-1138 | overlap checking keeps every shape's geometry and every container's length; a colour that changed is the pulse colour |
| TestShapes3D.PointsOf | Code/Game/Game3DTestShapes.cpp:858-904 | one nearest point per shape |
| TestShapes3D.CollectPoints | Code/Game/Game3DTestShapes.cpp:858-904 | the loop collects the nearest point of each shape, in order |
| TestShapes3D.RayWalk | Code/Game/Game3DTestShapes.cpp:505-594 | one raycast result per shape, per kind |
| TestShapes3D.Position | Code/Game/Game3DTestShapes.cpp:505-594 | each shape kind has its place in the scan order |
| TestShapes3D.ScanContainer | Code/Game/Game3DTestShapes.cpp:505-594 | scanning one kind's container replaces the nearest hit exactly when that kind holds a new strict record |
| TestShapes3D.ScanGrabbable | Code/Game/Game3DTestShapes.cpp:110-207 | over the four grabbable kinds, the flags name the kinds that replaced the nearest, and the last flagged kind holds the nearest hit |
| TestShapes3D.RaycastSelection | Code/Game/Game3DTestShapes.cpp:505-594 | reports a hit exactly when some shape is hit; the last flagged kind holds the nearest hit overall, at the reported index; a miss reports index 0 |
| TestShapes3D.ToggleGrab | Code/Game/Game3DTestShapes.cpp:110-207 | a click releases a grabbed object, or grabs the nearest hit grabbable shape and records its offset |
| TestShapes3D.SeveralKindFlags | Code/Game/Game3DTestShapes.cpp:505-594 | two kinds can both be flagged, and the later, nearer one wins |
| TestShapes3D.TieKeepsEarlierKind | Code/Game/Game3DTestShapes.cpp:505-594 | an equally near hit in a later kind does not replace the earlier one |
| TestShapes3D.Game3DTestShapes.constructor | Code/Game/Game3DTestShapes.cpp:10-22 | solid rasterizer, nothing grabbed, everything at the origin, and rolled shapes |
| TestShapes3D.Game3DTestShapes.Update | Code/Game/Game3DTestShapes.cpp:24-108 | R flips the rasterizer; Space toggles the lock, and locking records the camera position as the reference position and ray start; while unlocked the ray runs from the camera two units forward, while locked it stays; F8 re-rolls the planes and resizes the containers, otherwise their sizes are kept; the brightness advances by 200 times dt |
| TestShapes3D.Game3DTestShapes.EndOfFrame | Code/Game/Game3DTestShapes.cpp:100-107 | the shapes become the overlap colouring of the F8 re-roll (or of the shapes as they were); while unlocked the nearest points are those of the re-rolled shapes measured from the camera, with the closest kept; while locked they are unchanged |
| TestShapes3D.Game3DTestShapes.NearestAndOverlaps | Code/Game/Game3DTestShapes.cpp:106-107 | while unlocked, the nearest points are those of the shapes measured from the camera and the closest is kept; while locked they are unchanged; the shapes become the overlap colouring of the shapes before it, under the advanced brightness |
| TestShapes3D.Game3DTestShapes.GrabAndMove | Code/Game/Game3DTestShapes.cpp:36-98 | the click is handled as by LeftClick against the ray and shapes before it, and then the shapes are those before it with the grabbed shape of the flagged kind moved to the point in front of the camera (unchanged when nothing is grabbed); the grab invariant is kept |
| TestShapes3D.Game3DTestShapes.LeftClick | Code/Game/Game3DTestShapes.cpp:36-39 | with a click, the kind flags follow the raycast, a flag is up exactly when a grabbable shape is hit, and the grab toggles as ToggleGrab says; without one, the grab state and flags are unchanged |
| TestShapes3D.Game3DTestShapes.LockPosition | Code/Game/Game3DTestShapes.cpp:209-233 | Space toggles the lock; locking sets the reference position and the ray start to the camera position and measures the nearest points from it, with the closest kept; otherwise the nearest points are untouched; while unlocked the ray runs from the camera two units along the forward normal, while still locked it is unchanged |
| TestShapes3D.Game3DTestShapes.Walked | Code/Game/Game3DTestShapes.cpp:505-594 | one raycast result per shape of the scene |
| TestShapes3D.Game3DTestShapes.ToggleGrabObject | Code/Game/Game3DTestShapes.cpp:110-207 | the kind flags follow the raycast; grabbing follows ToggleGrab |
| TestShapes3D.Game3DTestShapes.MoveGrabbedObject | Code/Game/Game3DTestShapes.cpp:41-98 | only the grabbed shape of the flagged kind moves to the point in front of the camera |
| TestShapes3D.Game3DTestShapes.RandomizeShapes | Code/Game/Game3DTestShapes.cpp:736-817 | all five containers are re-rolled |
| TestShapes3D.Game3DTestShapes.ToggleRasterizerMode | Code/Game/Game3DTestShapes.cpp:819-834 | R flips between solid and wireframe |
| TestShapes3D.Game3DTestShapes.GetNearestPointCheck | Code/Game/Game3DTestShapes.cpp:858-904 | while unlocked, each container holds, shape by shape, the kernel's nearest point to the camera, and the closest of them is kept; while locked nothing changes |
| TestShapes3D.Game3DTestShapes.GetNearestPointForRefPosition | Code/Game/Game3DTestShapes.cpp:906-947 | each container holds, shape by shape, the nearest point to the reference position; the planes' points are measured from the camera position, as the source does |
| TestShapes3D.Game3DTestShapes.GetPointClosestToPlayer | Code/Game/Game3DTestShapes.cpp:949-968 | the kept point is the first candidate at minimal squared distance to the camera when one is below 99999, or the origin when none is |
| TestShapes3D.Game3DTestShapes.ShapevsShapeOverlap | Code/Game/Game3DTestShapes.cpp:970-1138 | the brightness advances by 200 times dt, and the shapes become the eleven overlap sweeps' result |

## Left out

- Geometry kernels: nearest point on a shape, raycasts, overlap tests, bounces, lengths and orientation bases are engine routines. They are record fields with no properties assumed. So the model proves what the demos do with their answers, not that the answers are right.
- Square roots, trigonometry, normalisation and single-precision float rounding: all arithmetic is on exact reals.
- Random numbers: every roll is an input. The rejection-sampling loops that re-roll overlapping 3D shapes and the construction of random oriented-box bases are given as rolled values.
- Rendering: vertex building, text, draw calls, colours used only for drawing, the easing functions themselves and Bezier/spline evaluation.
- Camera: camera setup, camera key presses, the pitch clamp, the forward vector (a parameter) and the cursor mode. The camera position is state that Update leaves unchanged.
- Clock: `AdjustForPauseAndTimeDistortion` (T slows the clock to 0.1, otherwise it is reset to 1.0) and ESC quitting. The physics timer is the number of firings in a frame, an input; its period is not tied to the fixed time step.
- App shell: start-up and shut-down of engine systems, the event system, the config file and the main loop. App.App.Update models mode switching only. The created game's own Update is not called from it, and the previous game is not deleted.
- Ownership: balls and games created with `new` and never freed are plain values.
- NearestPoint: the rolled shapes of F8 are the `rolled` input.
- Curves: `InitializePanes` is not modelled; the panes are inputs.
- Curves.ConstantSpeedParameter: a zero-length segment at which the search stops makes the source divide by zero in floating point. The model requires that one segment's length to be nonzero and promises nothing for that input.
- Curves.ConstantSpeedSplineParameter: the same division by a zero-length stopping segment is excluded.
- Screen constants: GameCommon.h is not part of this model, so the screen size, centre and player speed are parameters.
- App.App.Update: does not state which game object exists after both keys, only that it is the current mode's game.
- TestShapes3D.Game3DTestShapes.Update: states the rasterizer, the lock, the ray, the planes, the brightness and the container sizes after a frame. The click result, the shape contents and the nearest points are stated by its parts (LeftClick, GrabAndMove, LockPosition, EndOfFrame, NearestAndOverlaps), not composed again in Update's own contract, because that composition exceeds the verifier's resource limit.
