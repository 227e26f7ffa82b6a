# Evil cubes: a verified model of enemy-cube movement, spawning and game bookkeeping

This project models the core of the evil-cubes game in Dafny. Enemy cubes roll and jump towards
the player, who stands at the origin. Before a cube moves, it reserves the points it is about to
pass through, and it does not move through a point that a nearby cube covers. The project states
what each component of that core does and proves properties about it.

- `Geometry`, `Outcomes`:
  - 3-vectors over the reals, and the cube's transform and mesh as objects updated in place;
  - the C# exceptions the code can raise, as `Result` values. Those are: a null reference, a
    `GetRange` out of range, a duplicate key, an unknown roll direction and an index out of range.
- `Neighbours`, `Trackers`, `Awareness`: the trigger sphere around a cube and the list and
  instance-id set of the cubes inside it. Both stay in agreement and free of duplicates. The
  model also covers the removal-event subscriptions and the sphere radius of each of the four
  proximity components. The two CubeAwareness components also hold their own path.
- `Overlap`, `PathFinding`: the reservation test. A planned path is free when no tracked cube
  covers any of its points, either around its own position or around a point of its committed
  path. The variants differ in the comparison: inclusive `<=`, or strict `<` in the earliest
  draft. A committed path that a finished move has set to null makes the test throw a null
  reference. The model keeps that fault path instead of excluding it.
- `Clearance`: the quarter-second polling wait every move starts with, with or without a
  timeout, and the older copy whose failure test differs.
- `Rolling`, `Jumping`: a roll over one bottom edge, with its target table, fixed-step rotation
  and overshoot correction, final height snap and path release. Also a jump along a
  sixteen-sample parabola, whose reservation shrinks to the samples still ahead. When one frame
  carries the elapsed time past 17/16 of the jump duration, `GetRange` throws. The model keeps
  that fault path too.
- `Strategies`: how the roll and jump strategies pick the next move from explicit random draws,
  the roll angle per physics step, and the step-finished event.
- `Spawning`:
  - the wave and enemy configurations with their validators;
  - the cumulative-chance table and the draw from it;
  - the per-frame spawn budget under the live-count cap;
  - the four quarter-turned candidate positions around the player;
  - the spawner's counters.
- `Health`, `Lattice`, `Bodies`, `DraftBodies`:
  - hit points clamped at zero;
  - the enemy body's grid of parts, laid out by three nested loops, with the body's hit points
    following its parts';
  - the earlier version of that body.
- `Locator`: the type-keyed registry of managers, which never overwrites an entry and comes
  with two default managers.
- `Game`: the game controller. It starts, pauses and tears down a game, keeps the game's
  statistics, and latches the game's result so that a game ends at most once.
- `Weapons`: the player's weapon. It covers:
  - the cooldown gate on shooting;
  - the dispersion that widens while the trigger is held;
  - the damage of a projectile, dealt from the nearest enemy outward and cut down after each
    enemy it passes through. Two hits at the same distance make the sorted list throw a
    duplicate-key exception.

Random draws, the physics queries (overlap spheres, ray casts) and trigonometry are parameters of
the operations that use them. Coroutines and frame loops are modelled by giving the answers of
the successive polls, or the successive frame times, as arguments. A wait is given a budget of
polls; a wait that no poll within the budget ends is reported as still waiting.

## Model

| member | source | states |
|---|---|---|
| Neighbours.Without | Assets/Scripts/EnemyCubes/NearbyCubeTracker.cs:62-66 | List.Remove: a cube that is not listed leaves the list unchanged; otherwise exactly its first occurrence is cut out and the rest keeps its order |
| Neighbours.WithoutDistinct | Assets/Scripts/EnemyCubes/NearbyCubeTracker.cs:62-66 | removing a cube from a duplicate-free list leaves a duplicate-free list holding exactly the other cubes |
| Neighbours.TransitionsStayConsistent | Assets/Scripts/EnemyCubes/NearbyCubeTracker.cs:30-68 | entering and leaving the trigger sphere both keep the cube list and the id set in agreement, without duplicates |
| Neighbours.EnterIsIdempotent | Assets/Scripts/EnemyCubes/NearbyCubeTracker.cs:30-40 | a second OnTriggerEnter of the same collider changes nothing |
| Neighbours.EnterThenExitRestores | Assets/Scripts/EnemyCubes/NearbyCubeTracker.cs:30-68 | a cube that was not tracked, enters and leaves again leaves the tracked cubes exactly as they were |
| Neighbours.NeighbourSet.constructor | Assets/Scripts/EnemyCubes/NearbyCubeTracker.cs:8-9 | a component starts with no tracked cube and no subscription |
| Neighbours.NeighbourSet.Observe | Assets/Scripts/EnemyCubes/NearbyCubeTracker.cs:70-78 | the handler is unsubscribed once (a no-op when absent) and subscribed once more only when asked; other cubes' subscriptions are untouched |
| Neighbours.NeighbourSet.Register | Assets/Scripts/EnemyCubes/NearbyCubeTracker.cs:54-60 | the cube is appended to the list and the id set and carries exactly one subscription; the invariant holds |
| Neighbours.NeighbourSet.Unregister | Assets/Scripts/EnemyCubes/NearbyCubeTracker.cs:62-68 | the cube leaves the list and the id set and keeps no subscription; an untracked cube leaves both as they were |
| Neighbours.NeighbourSet.HandleOtherCubeRemoved | Assets/Scripts/EnemyCubes/NearbyCubeTracker.cs:80-83 | a removed cube is no longer tracked and no longer observed |
| Neighbours.NeighbourSet.OnTriggerEnter | Assets/Scripts/EnemyCubes/NearbyCubeTracker.cs:30-40 | only a trigger collider with an untracked proximity component is registered; the result is AfterEnter and the invariant holds |
| Neighbours.NeighbourSet.OnTriggerExit | Assets/Scripts/EnemyCubes/NearbyCubeTracker.cs:42-52 | only a trigger collider with a tracked proximity component is unregistered; the result is AfterExit and the invariant holds |
| Trackers.NearbyCubeTracker.constructor | Assets/Scripts/EnemyCubes/NearbyCubeTracker.cs:8-11 | a tracker starts with an empty, consistent set of nearby cubes |
| Trackers.NearbyCubeTracker.UpdateTrackedAreaSize | Assets/Scripts/EnemyCubes/NearbyCubeTracker.cs:21-28 | with a sphere collider the trigger radius becomes three longest steps; without one nothing changes |
| Trackers.NearbyCubeTracker.OnTriggerEnter | Assets/Scripts/EnemyCubes/NearbyCubeTracker.cs:30-40 | the tracked cubes become AfterEnter of the old ones |
| Trackers.NearbyCubeTracker.OnTriggerExit | Assets/Scripts/EnemyCubes/NearbyCubeTracker.cs:42-52 | the tracked cubes become AfterExit of the old ones |
| Trackers.CubesNearbyCubeTracker.constructor | Assets/Cubes/NearbyCubeTracker.cs:8-9 | the older tracker starts with an empty, consistent set of nearby cubes |
| Trackers.CubesNearbyCubeTracker.UpdateTrackedAreaSize | Assets/Cubes/NearbyCubeTracker.cs:19-26 | the older tracker's trigger radius becomes 2.25 longest steps when it has a sphere collider |
| Trackers.CubesNearbyCubeTracker.OnTriggerEnter | Assets/Cubes/NearbyCubeTracker.cs:28-38 | the tracked cubes become AfterEnter of the old ones |
| Trackers.CubesNearbyCubeTracker.OnTriggerExit | Assets/Cubes/NearbyCubeTracker.cs:40-50 | the tracked cubes become AfterExit of the old ones |
| Awareness.CubeAwareness.constructor | Assets/Cubes/CubeAwareness.cs:13-18 | the reservation radius starts at 1, both paths empty, no neighbour tracked |
| Awareness.CubeAwareness.UpdateSize | Assets/Cubes/CubeAwareness.cs:46-54 | the reservation radius becomes the given one; with a sphere collider the trigger radius becomes 2.25 longest steps |
| Awareness.CubeAwareness.UpdatePath | Assets/Cubes/CubeAwareness.cs:58-61 | the committed path becomes the given one and nothing else changes |
| Awareness.CubeAwareness.IsPathFree | Assets/Cubes/CubeAwareness.cs:63-87 | the provisional path is recorded; the answer is free exactly when no tracked neighbour's inclusive overlap test reports the path |
| Awareness.CubeAwareness.OverlapsAnyPosition | Assets/Cubes/CubeAwareness.cs:89-113 | true exactly when some queried point lies within the summed sizes (inclusive) of the position or of a committed path point |
| Awareness.CubeAwareness.OverlapsPosition | Assets/Cubes/CubeAwareness.cs:115-119 | never reports an overlap |
| Awareness.CubeAwareness.OnTriggerEnter | Assets/Cubes/CubeAwareness.cs:163-173 | the tracked neighbours become AfterEnter of the old ones |
| Awareness.CubeAwareness.OnTriggerExit | Assets/Cubes/CubeAwareness.cs:175-190 | the tracked neighbours become AfterExit of the old ones |
| Awareness.DraftViews | Assets/Movement/CubeAwareness.cs:45-56 | one view per tracked neighbour, each with the default reservation radius |
| Awareness.DraftCubeAwareness.constructor | Assets/Movement/CubeAwareness.cs:13-17 | the draft starts with an empty path and no neighbour |
| Awareness.DraftCubeAwareness.UpdatePath | Assets/Movement/CubeAwareness.cs:33-36 | the committed path becomes the given one |
| Awareness.DraftCubeAwareness.IsPathFree | Assets/Movement/CubeAwareness.cs:38-59 | free exactly when no tracked neighbour's strict overlap test reports the path; nothing is recorded |
| Awareness.DraftCubeAwareness.OverlapsAnyPosition | Assets/Movement/CubeAwareness.cs:61-83 | true exactly when some queried point lies strictly within the summed sizes of the position or of a committed path point |
| Awareness.DraftCubeAwareness.OverlapsPosition | Assets/Movement/CubeAwareness.cs:85-89 | never reports an overlap |
| Awareness.DraftCubeAwareness.OnTriggerEnter | Assets/Movement/CubeAwareness.cs:133-143 | the tracked neighbours become AfterEnter of the old ones |
| Awareness.DraftCubeAwareness.OnTriggerExit | Assets/Movement/CubeAwareness.cs:145-160 | the tracked neighbours become AfterExit of the old ones |
| Awareness.DraftBlockedImpliesBlocked | Assets/Movement/CubeAwareness.cs:67-74 | whatever the draft's strict test reports blocked, the later inclusive test (Assets/Cubes/CubeAwareness.cs:96-104) reports blocked too |
| Overlap.OverlapScan | Assets/Cubes/PathFinder.cs:88-108 | the overlap query in evaluation order; it faults only with NullReference, and only when the committed path is null |
| Overlap.OverlapScanAnswersQuery | Assets/Cubes/PathFinder.cs:88-108 | with a committed path the query never faults and answers "some queried point lies within the threshold of the position or of a path point" |
| Overlap.ClearedPathFaults | Assets/Cubes/PathFinder.cs:91-98 | with a null path, the query faults as soon as the first point is not within reach of the position itself |
| Overlap.OverlapScanMonotone | Assets/Cubes/PathFinder.cs:90-104 | a larger combined size never turns a reported overlap into a non-overlap |
| Overlap.StrictImpliesInclusive | Assets/Cubes/CubeAwareness.cs:96-104 | an overlap under the strict test is one under the inclusive test |
| Overlap.BoundaryPointDiffers | Assets/Movement/CubeAwareness.cs:67 | a point at exactly the combined radius overlaps under the inclusive test and not under the strict one |
| Overlap.ScanPositions | Assets/Cubes/PathFinder.cs:88-108 | the nested loops compute exactly the overlap query, fault included |
| Overlap.FirstBlocker | Assets/Cubes/PathFinder.cs:77-85 | the first neighbour in list order that reports an overlap, every earlier one reporting none; a fault comes from some neighbour's query |
| Overlap.PathFree | Assets/Cubes/PathFinder.cs:65-86 | a fault can only be a NullReference from a neighbour whose path is null |
| Overlap.PathFreeWithCommittedPaths | Assets/Cubes/PathFinder.cs:65-86 | when every neighbour has a committed path, the path is free exactly when no neighbour covers any of its points |
| Overlap.ScanNeighbours | Assets/Cubes/PathFinder.cs:77-85 | the loop over the neighbours returns exactly FirstBlocker |
| Overlap.FirstBlockerAt | Assets/Cubes/PathFinder.cs:77-85 | after k neighbours answering "no", the (k+1)-th one's answer decides the scan |
| Overlap.ScanViews | Assets/Cubes/CubeAwareness.cs:73-86 | free exactly when no neighbour's view covers a planned point |
| Neighbours.Lookup | Assets/Cubes/PathFinder.cs:71 | one entry per tracked cube, in the tracker's order: what the world shows of that cube (its surface for the path finder, its view for CubeAwareness) |
| PathFinding.Names | Assets/Cubes/PathFinder.cs:70-74 | the names of the neighbours, in order |
| PathFinding.PositionClaimMeaning | Assets/Cubes/PathFinder.cs:43-63 | with committed paths the claim never faults, is found exactly when some neighbour covers the position, and names such a neighbour |
| PathFinding.PathFinder.constructor | Assets/Cubes/PathFinder.cs:17-25 | the reserved radius is the half diagonal; both paths start empty |
| PathFinding.PathFinder.AmIOverlappingAnotherCube | Assets/Cubes/PathFinder.cs:27-41 | true exactly when some tracked cube is strictly closer than the sum of the two half scales |
| PathFinding.PathFinder.IsMyPositionInAnotherPath | Assets/Cubes/PathFinder.cs:43-63 | the claim of the first neighbour covering the position, "" when none does, or the fault of the scan |
| PathFinding.PathFinder.IsPathFree | Assets/Cubes/PathFinder.cs:65-86 | the provisional path, the consulted names and the frame are recorded; the committed path is untouched; the answer is PathFree |
| PathFinding.PathFinder.OverlapsAnyPositions | Assets/Cubes/PathFinder.cs:88-108 | the answer, or the NullReference fault, of the overlap query on this cube's position and path |
| Clearance.FirstStopExists | Assets/Scripts/Movement/AMove.cs:16-21 | the polling loop ends at a definite poll whenever the timeout is non-negative or some poll does not answer "blocked" |
| Clearance.FirstStopIsUnique | Assets/Scripts/Movement/AMove.cs:16-21 | the wait ends at one poll only |
| Clearance.PollBound | Assets/Scripts/Movement/AMove.cs:16-21 | with a non-negative timeout the last poll comes at most one interval after it; a two-second wait makes at most ten polls |
| Clearance.SuccessIffFreeBeforeTimeOut | Assets/Scripts/Movement/AMove.cs:16-31 | with a positive timeout a wait succeeds exactly when some poll strictly before the timeout found the path free |
| Clearance.DraftDefaultTimeOutAlwaysFails | Assets/Cubes/AMovementStrategy.cs:132-150 | the older failure test reports the default endless wait (timeout -1) as a failure even when the path was found free, where the newer test reports success |
| Clearance.WithinBound | Assets/Scripts/Movement/AMove.cs:17 | a poll within a non-negative timeout leaves room for at most ⌊4·timeout⌋ + 1 polls |
| Clearance.AMove.constructor | Assets/Scripts/Movement/AMove.cs:8-12 | a move starts with no successful path find |
| Clearance.AMove.Answers | Assets/Scripts/Movement/AMove.cs:17 | a poll of the path finder can fail only with NullReference |
| Clearance.WaitingIffNoStop | Assets/Scripts/Movement/AMove.cs:16-21 | the wait is still going on after the budget exactly when no poll up to the budget stops it; without a timeout, exactly when every one of those polls found the path blocked; a budget that covers a non-negative timeout always ends the wait |
| Clearance.AMove.Poll | Assets/Scripts/Movement/AMove.cs:16-21 | the loop stops at the first poll that is not blocked or comes after a non-negative timeout and returns that poll's answer, or reports the wait still going on exactly when no poll within the budget stopped it; the committed path is untouched |
| Clearance.AMove.WaitUntilPathFreeOrTimeOut | Assets/Scripts/Movement/AMove.cs:14-32 | within a budget of polls the wait is still going on, with nothing recorded, exactly when no poll stopped it (without a timeout: exactly when every poll found the path blocked), and a budget covering a non-negative timeout always ends it; an exception propagates with nothing recorded; otherwise the wait succeeds and commits the path exactly when a positive timeout was not reached; a non-positive timeout never fails, and a negative one succeeds only on a free path; two seconds make at most ten polls |
| Clearance.AMove.DraftWaitUntilPathFreeOrTimeOut | Assets/Cubes/AMovementStrategy.cs:132-150 | within a budget of polls the older wait is still going on exactly when no poll stopped it; once it ends it fails whenever the timeout is at most the elapsed time, so a non-positive timeout never commits the path |
| Rolling.RollTargetIsOneEdgeAway | Assets/Scripts/Movement/RollMove.cs:130-144 | with unit axes, every roll's target lies exactly one edge length from the cube |
| Rolling.RollIsAlongAxis | Assets/Scripts/Movement/RollMove.cs:134-140 | forward and back move along the forward axis, left and right along the right axis, by plus or minus one edge |
| Rolling.OppositeRollsMirror | Assets/Scripts/Movement/RollMove.cs:134-140 | opposite rolls land on cells mirrored about the cube's position |
| Rolling.PivotFacesTarget | Assets/Scripts/Movement/RollMove.cs:114-128 | the pivot edge is the bottom edge facing the target: the centre sits half a step back from it |
| Rolling.AxisIsPerpendicularToStep | Assets/Scripts/Movement/RollMove.cs:114-128 | with perpendicular axes, the axis a roll turns about is perpendicular to its step |
| Rolling.TurnedIsProduct | Assets/Scripts/Movement/RollMove.cs:78 | n steps of a degrees turn n·a degrees |
| Rolling.TurnedGrows | Assets/Scripts/Movement/RollMove.cs:78 | with a positive step angle, more steps never turn less |
| Rolling.BelowQuarterIsFewer | Assets/Scripts/Movement/RollMove.cs:67-71 | a step count short of a quarter turn is smaller than one that reaches it |
| Rolling.QuarterTurnIsUnique | Assets/Scripts/Movement/RollMove.cs:67-71 | the number of steps of a quarter turn is fixed by the step angle |
| Rolling.EnoughSteps | Assets/Scripts/Movement/RollMove.cs:67-71 | with a positive step angle the loop reaches a quarter turn after finitely many steps |
| Rolling.SumAppend | Assets/Scripts/Movement/RollMove.cs:87 | appending a mesh rotation adds its angle to the sum |
| Rolling.StepKeepsMeshSum | Assets/Scripts/Movement/RollMove.cs:78-87 | after the over-rotation correction, the mesh angles applied sum to the rotation cut back to a quarter turn |
| Rolling.RollMove.constructor | Assets/Scripts/Movement/RollMove.cs:24-34 | the planned path starts as the origin and the direction as Forward |
| Rolling.RollMove.CalculatePath | Assets/Scripts/Movement/RollMove.cs:130-144 | the planned path becomes the single target cell of the given direction (the origin for None) |
| Rolling.RollMove.RotationStep | Assets/Scripts/Movement/RollMove.cs:73-87 | one fixed step: the pivot vector turns, the cube moves by its change, the angle advances, and the mesh angle is cut back when it would pass a quarter turn |
| Rolling.RollMove.Turn | Assets/Scripts/Movement/RollMove.cs:57-97 | the frame loop either runs out of frames or ends after exactly a quarter turn of steps, at the position those steps give, with the mesh turned exactly ±90 degrees |
| Rolling.RollMove.Execute | Assets/Scripts/Movement/RollMove.cs:36-107 | a roll plans its target, waits at most ten polls; a fault or a timeout leaves the cube where it was and its mesh unturned; direction None faults with NotImplemented after committing the origin; a landed roll has turned a quarter turn about the pivot, sits at resting height and has released its path |
| Jumping.JumpDuration | Assets/Scripts/Movement/JumpMove.cs:80 | the duration is the time at which the vertical motion returns to the starting height: duration·g = -2·vy |
| Jumping.Trajectory | Assets/Scripts/Movement/JumpMove.cs:82-93 | the trajectory has exactly sixteen samples |
| Jumping.LastSampleIsLanding | Assets/Scripts/Movement/JumpMove.cs:42-93 | the last sample is the landing point, which lies at the starting height |
| Jumping.SectionsElapsedGrows | Assets/Scripts/Movement/JumpMove.cs:98-103 | the passed-section count never decreases as elapsed time grows |
| Jumping.OverrunIffLateFrame | Assets/Scripts/Movement/JumpMove.cs:98-109 | more than sixteen sections count as passed exactly when a frame ends at or after 17/16 of the duration |
| Jumping.ReservedSamplesAreAhead | Assets/Scripts/Movement/JumpMove.cs:98-109 | after a release, sample j (j ≥ 1) is still reserved exactly when the cube has not yet reached its time |
| Jumping.LateFrameOverruns | Assets/Scripts/Movement/JumpMove.cs:105-109 | a one-second jump whose frame ends at 1.1 s finds seventeen sections passed and a negative remaining count |
| Jumping.MaxJumpDistanceIsForwardTravel | Assets/Scripts/Movement/JumpMove.cs:63-70 | the longest jump equals the forward travel of a forward jump by a cube facing the world's forward axis |
| Jumping.JumpMove.constructor | Assets/Scripts/Movement/JumpMove.cs:21-32 | a jump starts forward, with an empty trajectory |
| Jumping.JumpMove.CalculateTrajectory | Assets/Scripts/Movement/JumpMove.cs:72-94 | the launch velocity comes from the current orientation, the duration makes the cube come back to its height, and the samples are the parabola at the sixteen section ends |
| Jumping.JumpMove.UpdatePath | Assets/Scripts/Movement/JumpMove.cs:96-111 | when the remaining count changes, the committed path becomes the samples from the passed count on, or GetRange throws ArgumentOutOfRange when that count is negative; otherwise nothing changes |
| Jumping.JumpMove.Execute | Assets/Scripts/Movement/JumpMove.cs:34-61 | the jump reserves all samples but the first and waits without timeout for them: it is still waiting, unmoved, exactly when every poll within the budget found them blocked, and is never blocked; otherwise it lands on the last sample with its path released, or is still in flight on the parabola, or faults |
| Jumping.JumpMove.Fly | Assets/Scripts/Movement/JumpMove.cs:40-60 | each frame puts the cube on the parabola at the elapsed time and keeps a suffix of the samples reserved; at the end it lands and releases the path |
| Strategies.RollAngleScalesWithSpeed | Assets/Scripts/Movement/AMovementStrategy.cs:34-37 | the per-step roll angle is positive for positive size, speed and step, and proportional to the speed |
| Strategies.RollTimeMatchesSpeed | Assets/Scripts/Movement/AMovementStrategy.cs:34-37 | a quarter turn at that angle takes the fewest physics steps whose total time covers one edge length at the cube's speed |
| Strategies.StepsReachEdge | Assets/Scripts/Movement/AMovementStrategy.cs:34-37 | m steps reach a quarter turn exactly when m steps' time covers one edge length at the cube's speed |
| Strategies.StepEvent.constructor | Assets/Scripts/Movement/AMovementStrategy.cs:7 | the event starts with no handler and no call |
| Strategies.StepEvent.Subscribe | Assets/Scripts/Movement/AMovementStrategy.cs:7 | a handler is added |
| Strategies.StepEvent.Raise | Assets/Scripts/Movement/AMovementStrategy.cs:29-32 | every subscribed handler is called once; without handlers nothing happens |
| Strategies.NextDirection | Assets/Scripts/Movement/RollStrategy.cs:27-35 | forward exactly when the first draw is not below the side-roll chance; left exactly when it is and the second draw is below one half; right otherwise |
| Strategies.SideRollChanceExtremes | Assets/Scripts/Movement/RollStrategy.cs:27-35 | with no side-roll chance a cube always rolls forward; with a chance above one it never does |
| Strategies.RollStrategy.constructor | Assets/Scripts/Movement/RollStrategy.cs:9-19 | the roll gets the cube's edge and the step angle of its speed times the multiplier; it starts forward and the longest step is one edge |
| Strategies.RollStrategy.RunOnce | Assets/Scripts/Movement/RollStrategy.cs:21-39 | after a finished or blocked roll the next direction follows the draws and the event is raised; a roll never faults on an unknown direction; the directions stay forward, left or right |
| Strategies.JumpStrategy.constructor | Assets/Scripts/Movement/JumpStrategy.cs:12-25 | the jump and the roll share the cube's transform, mesh and path finder; the longest step is the longest jump |
| Strategies.JumpStrategy.JumpsOnlyWhenFarAndLucky | Assets/Scripts/Movement/JumpStrategy.cs:44-57 | a cube jumps exactly when the player is strictly farther than one jump and the draw is below the jump chance |
| Strategies.JumpStrategy.RunOnce | Assets/Scripts/Movement/JumpStrategy.cs:27-41 | one iteration makes exactly one move, a jump exactly when ShouldJump held; a jump is still waiting exactly when every poll within the budget found its path blocked, and is never blocked; the event is raised once the move is over |
| Spawning.WaveConfig.constructor | Assets/SpawnLogic/Scripts/WaveConfig.cs:11-25 | every field of the wave holds the value it is given |
| Spawning.WaveConfig.OnValidate | Assets/SpawnLogic/Scripts/WaveConfig.cs:27-30 | afterwards the outer spawn distance is at least the inner one; a ring that was already in order is left as it was; no other field changes |
| Spawning.WaveConfig.GetSpawnChance | Assets/SpawnLogic/Scripts/WaveConfig.cs:32-42 | Simple, Jumper and Zigzag get their own chance field; the Titan gets zero |
| Spawning.WaveConfig.SpawnChances | Assets/SpawnLogic/Scripts/SpawnManager.cs:76-78 | the chances read in the order of the spawnable types, one per type |
| Spawning.EnemyConfig.constructor | Assets/SpawnLogic/Scripts/EnemyConfig.cs:6-11 | type, edge and speed hold the values given; the diagonal starts at zero |
| Spawning.EnemyConfig.OnValidate | Assets/SpawnLogic/Scripts/EnemyConfig.cs:13-18 | edge and speed are raised to 0.2 and otherwise kept; the half diagonal is √3·edge/2 of the edge BEFORE the clamp, so it matches the stored edge exactly when that edge was already in range and falls short of it otherwise |
| Spawning.Running | Assets/SpawnLogic/Scripts/SpawnManager.cs:74-81 | the running total of the positive chances is never negative |
| Spawning.TableUpTo | Assets/SpawnLogic/Scripts/SpawnManager.cs:73-84 | after k types the table has at most k entries |
| Spawning.PositivesUpTo | Assets/SpawnLogic/Scripts/SpawnManager.cs:79 | the listed positions are below k, in increasing order, and each has a positive chance |
| Spawning.PositivesComplete | Assets/SpawnLogic/Scripts/SpawnManager.cs:79 | every position with a positive chance is listed |
| Spawning.RunningGrows | Assets/SpawnLogic/Scripts/SpawnManager.cs:81 | the running total never decreases along the list of types |
| Spawning.TableEntries | Assets/SpawnLogic/Scripts/SpawnManager.cs:73-84 | the table holds exactly one entry per positive-chance type, in list order, each carrying the running total up to and including its own chance |
| Spawning.TableIsIncreasing | Assets/SpawnLogic/Scripts/SpawnManager.cs:73-84 | the table's totals are positive and strictly increasing, and its last entry is the total of all positive chances |
| Spawning.FirstCovering | Assets/SpawnLogic/Scripts/SpawnManager.cs:202-208 | the scan returns an entry whose total reaches the roll with every earlier total below it, or nothing exactly when every total is below the roll |
| Spawning.CoveringIsNoLater | Assets/SpawnLogic/Scripts/SpawnManager.cs:202-208 | an entry whose total reaches the roll is never passed over |
| Spawning.PickFallsInInterval | Assets/SpawnLogic/Scripts/SpawnManager.cs:202-208 | in an increasing table, a roll above the previous total and up to an entry's own total picks that entry |
| Spawning.RollInRangePicksAnEntry | Assets/SpawnLogic/Scripts/SpawnManager.cs:195-210 | a roll up to the last total always picks a table entry, so the Simple fallback is reached only by rolls above the total |
| Spawning.EntryAt | Assets/SpawnLogic/Scripts/SpawnManager.cs:73-84 | entry m of the table is the m-th positive-chance type with its running total |
| Spawning.PositiveRank | Assets/SpawnLogic/Scripts/SpawnManager.cs:79-82 | every positive-chance type has a rank m at which it is listed |
| Spawning.RollPicksItsInterval | Assets/SpawnLogic/Scripts/SpawnManager.cs:68-85 | each type with a positive chance owns the roll interval (total before it, total after it], which is exactly as wide as its chance, and every roll in it draws that type |
| Spawning.SpawnTableExamples | Assets/Editor/Tests/SpawnLogicTests.cs:11-17 | with Zigzag 1 alone every roll in [0, 1] draws Zigzag; with Jumper 2 added, 0.9 draws Zigzag and 1.2 draws Jumper |
| Spawning.ThreeEntryTableExamples | Assets/Editor/Tests/SpawnLogicTests.cs:19-22 | with totals 1, 2 and 2.25 for Zigzag, Jumper and Simple, 0.12, 1.99 and 2.01 draw Zigzag, Jumper and Simple |
| Spawning.PickRandomEnemyToSpawn | Assets/SpawnLogic/Scripts/SpawnManager.cs:185-211 | no table draws Simple; an empty table draws one of the spawnable types; otherwise the first entry whose total reaches the roll decides, and the roll is the override unless that is negative |
| Spawning.SpawnRoundsBounds | Assets/SpawnLogic/Scripts/SpawnManager.cs:96-100 | a frame makes at most twelve attempts and no more than the whole intervals elapsed, and at least one once a whole interval has elapsed |
| Spawning.SpawnBudgetFits | Assets/SpawnLogic/Scripts/SpawnManager.cs:96-107 | the attempts of a frame, paid one interval each, never cost more than the elapsed time |
| Spawning.AttemptsFitElapsed | Assets/SpawnLogic/Scripts/SpawnManager.cs:100-107 | however many attempts succeed, the time they pay is no more than the elapsed time |
| Spawning.CandidatesAreQuarterTurns | Assets/SpawnLogic/Scripts/SpawnManager.cs:155-163 | the four candidates of a round are successive quarter turns about the vertical axis, all at the centre height and all at the drawn distance from the player |
| Spawning.Round | Assets/SpawnLogic/Scripts/SpawnManager.cs:160-163 | a round is four candidates, in array order |
| Spawning.SlotOf | Assets/SpawnLogic/Scripts/SpawnManager.cs:149-172 | candidate q of round t is search slot 4t + q |
| Spawning.FirstClearSlotIsFirst | Assets/SpawnLogic/Scripts/SpawnManager.cs:149-176 | the search returns the first clear candidate in round order, or nothing exactly when every candidate is blocked |
| Spawning.ClearSlotIsNoLater | Assets/SpawnLogic/Scripts/SpawnManager.cs:165-172 | a clear candidate is never passed over |
| Spawning.FoundInRound | Assets/SpawnLogic/Scripts/SpawnManager.cs:165-172 | the first clear candidate of a round, after rounds with none, is the first clear candidate of the whole search |
| Spawning.NoClearSlot | Assets/SpawnLogic/Scripts/SpawnManager.cs:173-176 | when every candidate is blocked the search finds none |
| Spawning.MissedRound | Assets/SpawnLogic/Scripts/SpawnManager.cs:149-173 | a round with no clear candidate extends the blocked candidates by one round |
| Spawning.SpawnManager.constructor | Assets/SpawnLogic/Scripts/SpawnManager.cs:23-35 | the spawner starts with no configurations, no active wave, an empty table, zeroed counters, no routine and a four-slot candidate array |
| Spawning.SpawnManager.Init | Assets/SpawnLogic/Scripts/SpawnManager.cs:52-61 | succeeds exactly when no two configurations share a type, and then maps each type to its configuration; a repeated type throws a duplicate-key error; nothing else changes |
| Spawning.SpawnManager.SetActiveConfig | Assets/SpawnLogic/Scripts/SpawnManager.cs:68-85 | the index is stored; an index outside the waves throws and leaves the wave and the table alone; otherwise that wave becomes active and the table is the cumulative table of its chances |
| Spawning.SpawnManager.FillRound | Assets/SpawnLogic/Scripts/SpawnManager.cs:160-163 | the candidate array holds the round's four candidates |
| Spawning.SpawnManager.FirstClearInRound | Assets/SpawnLogic/Scripts/SpawnManager.cs:165-172 | the scan returns the first clear candidate of the array, or nothing exactly when all four are blocked |
| Spawning.SpawnManager.TryPickRandomPositionToSpawn | Assets/SpawnLogic/Scripts/SpawnManager.cs:145-183 | without a configuration nothing is tried and the result is false at the origin; without an active wave it throws; otherwise it returns the first clear candidate of the search, or false at the origin when all 32 are blocked |
| Spawning.SpawnManager.TryRound | Assets/SpawnLogic/Scripts/SpawnManager.cs:153-172 | one round fills the array and either finds the search's first clear candidate in it or extends the blocked candidates by one round |
| Spawning.SpawnManager.DoSpawn | Assets/SpawnLogic/Scripts/SpawnManager.cs:133-141 | the enemy is instantiated with its configuration at the position, and one more enemy is alive |
| Spawning.SpawnManager.TrySpawnNewEnemy | Assets/SpawnLogic/Scripts/SpawnManager.cs:118-131 | an enemy of the drawn type is spawned at the first clear candidate exactly when that type has a configuration and a clear candidate exists, and that is the result; otherwise nothing is spawned |
| Spawning.SpawnManager.SpawnFrame | Assets/SpawnLogic/Scripts/SpawnManager.cs:94-113 | a cancelled routine ends; otherwise the frame makes SpawnRounds attempts, spawns no more than that, never while the live count has reached the wave's cap, never past a whole-number cap, and pays one interval per spawn without driving the elapsed time negative |
| Spawning.SpawnManager.RunAttempts | Assets/SpawnLogic/Scripts/SpawnManager.cs:100-109 | the attempts spawn at most one enemy each, pay one interval per spawn and keep the live count within a whole-number cap |
| Spawning.SpawnManager.SpawnAttempt | Assets/SpawnLogic/Scripts/SpawnManager.cs:102-108 | an attempt is made only below the cap; a spawn adds one live enemy and pays one interval; a failed attempt changes nothing |
| Spawning.SpawnManager.ResetVariables | Assets/SpawnLogic/Scripts/SpawnManager.cs:217-226 | no active wave, counters and elapsed time at zero, cancel token down, table empty; the configurations stay |
| Spawning.SpawnManager.ResetSpawningCompletely | Assets/SpawnLogic/Scripts/SpawnManager.cs:228-237 | the variables are reset and the spawn routine is stopped |
| Spawning.SpawnManager.StartSpawning | Assets/SpawnLogic/Scripts/SpawnManager.cs:63-66 | the variables are reset; with no wave the routine throws and ends; otherwise the first wave is active with its table and the interval is its own, raised to the minimum |
| Health.HP.constructor | Assets/Cubes/HP.cs:15-17 | a new component holds the hit points and the destroy flag given, no starting value, no notification and no destroy request |
| Health.HP.Awake | Assets/Cubes/HP.cs:26-29 | the hit points the object starts with are remembered as its maximum; nothing else changes |
| Health.HP.SetStartingHP | Assets/Scripts/EnemyCubes/EnemyBody.cs:83 | both the current and the starting hit points become the value; no notification is sent |
| Health.HP.GetHPInfo | Assets/Cubes/HP.cs:21-24 | the report holds the current hit points against the starting ones |
| Health.HP.Hit | Assets/Cubes/HP.cs:49-61 | a positive damage on non-negative hit points lowers them by the damage but never below zero, sends exactly one notification with the new, the starting and the previous value, and asks for destruction exactly when they reach zero on a flagged object; any other hit changes nothing; hit points never rise |
| Health.AfterHits | Assets/Cubes/HP.cs:52-54 | a run of hits never raises hit points and never takes non-negative hit points below zero |
| Health.ZeroIsFinal | Assets/Cubes/HP.cs:52-54 | once hit points are zero, no run of hits changes them |
| Lattice.Cells | Assets/Scripts/EnemyCubes/EnemyBody.cs:53-67 | the three nested loops visit n·n·n cells |
| Lattice.RowShape | Assets/Scripts/EnemyCubes/EnemyBody.cs:57-65 | the innermost loop visits cells (i, j, 0), (i, j, 1), … in that order and no others |
| Lattice.RowsShape | Assets/Scripts/EnemyCubes/EnemyBody.cs:55-66 | the middle loop visits exactly the cells of plane i, row after row, in ascending order |
| Lattice.PlanesShape | Assets/Scripts/EnemyCubes/EnemyBody.cs:53-67 | the outer loop visits exactly the cells of the planes below i, in ascending order |
| Lattice.CellsShape | Assets/Scripts/EnemyCubes/EnemyBody.cs:53-67 | the loops visit every cell of the n × n × n grid exactly once, in ascending order |
| Bodies.CoordinatesAreCentred | Assets/Scripts/EnemyCubes/EnemyBody.cs:41-49 | along each axis the cells sit one part edge apart and are symmetric about the body's centre |
| Bodies.GridIsCentred | Assets/Scripts/EnemyCubes/EnemyBody.cs:41-59 | the part in the mirrored cell sits at the mirrored offset, so the parts fill a cube centred on the body |
| Bodies.LoopSumIsCellOffset | Assets/Scripts/EnemyCubes/EnemyBody.cs:44-59 | the loops' startP + right·k + up·j + back·i is the centred offset of cell (i, j, k) along the body's own axes |
| Bodies.PartsAddUp | Assets/Scripts/EnemyCubes/EnemyBody.cs:35 | count parts of perPart hit points together hold perPart·count |
| Bodies.EnemyBody.constructor | Assets/Scripts/EnemyCubes/EnemyBody.cs:12-17 | a new body has no parts, no notifications and zero hit points |
| Bodies.EnemyBody.SetupComposingPart | Assets/Scripts/EnemyCubes/EnemyBody.cs:77-92 | the part is appended with its position, gets the configured current and starting hit points and is destroyed at zero; its notifications are untouched |
| Bodies.EnemyBody.SpawnPart | Assets/Scripts/EnemyCubes/EnemyBody.cs:59-64 | one fresh part is instantiated at the body's position plus the cell's offset, and set up |
| Bodies.EnemyBody.SpawnRow | Assets/Scripts/EnemyCubes/EnemyBody.cs:57-65 | the innermost loop adds one fresh set-up part per cell of the row, each at its cell's offset, keeping the parts before |
| Bodies.EnemyBody.SpawnPlane | Assets/Scripts/EnemyCubes/EnemyBody.cs:55-66 | the middle loop adds one fresh set-up part per cell of the plane, row after row |
| Bodies.EnemyBody.SpawnAndSetupComposingCubes | Assets/Scripts/EnemyCubes/EnemyBody.cs:39-68 | the body gains one fresh set-up part per cell of the sectionCount³ grid, in the loops' order, each of edge edgeSize/sectionCount at the body's position plus its cell's centred offset |
| Bodies.EnemyBody.Setup | Assets/Scripts/EnemyCubes/EnemyBody.cs:28-37 | the parts are spawned, the collider takes the edge and the impact damage, and current and maximum hit points are hitPointsPerPart·composingPartCount; when that count is the real number of parts the body's hit points are exactly the sum of its parts' |
| Bodies.EnemyBody.SetupColliderAndHP | Assets/Scripts/EnemyCubes/EnemyBody.cs:32-36 | collider edge, impact damage and the body's current and maximum hit points take their configured values |
| Bodies.EnemyBody.HandlePartsHPChanged | Assets/Scripts/EnemyCubes/EnemyBody.cs:70-75 | the body loses what the part lost in this change, remembers its previous value and reports maximum, new and previous hit points |
| Bodies.EnemyBody.HitPart | Assets/Scripts/EnemyCubes/EnemyBody.cs:70-85 | a hit on a part keeps the gap between the body's hit points and the sum of its parts' hit points unchanged; an effective hit sends one body notification, an ineffective one none |
| Bodies.EnemyBody.HitOnePart | Assets/Cubes/HP.cs:49-61 | only the hit part's hit points change, by the clamp of one hit |
| Bodies.RepeatedHitsOnOnePart | Assets/Scripts/EnemyCubes/EnemyBody.cs:70-75 | two hits of 10 on the single part of a 100 hit-point body leave part and body both at 80 |
| DraftBodies.StepAlongZ | Assets/Cubes/EnemyBody.cs:56 | after a part the spawn position moves half a part edge along z, to the next cell of the row |
| DraftBodies.StepAlongY | Assets/Cubes/EnemyBody.cs:59-61 | after a row the position moves half a part edge up and back to the start of z |
| DraftBodies.StepAlongX | Assets/Cubes/EnemyBody.cs:64-65 | after a plane the position moves half a part edge along x and back to the start of y and z |
| DraftBodies.EnemyBody.constructor | Assets/Cubes/EnemyBody.cs:12-16 | a new body has no parts, no notifications and zero hit points |
| DraftBodies.EnemyBody.SetupComposingPart | Assets/Cubes/EnemyBody.cs:75-92 | the part is appended and set up as in the newer body, and the body adds the part's hit points to its own |
| DraftBodies.EnemyBody.SpawnPart | Assets/Cubes/EnemyBody.cs:50-54 | one fresh part is instantiated at the body's position plus the running offset, and set up |
| DraftBodies.EnemyBody.DraftRow | Assets/Cubes/EnemyBody.cs:48-61 | the innermost loop adds m set-up parts at the draft offsets of the row, and leaves the position at the start of the next row |
| DraftBodies.EnemyBody.DraftPlaneRow | Assets/Cubes/EnemyBody.cs:46-61 | one turn of the middle loop adds one more row of parts after the rows before it |
| DraftBodies.EnemyBody.DraftPlane | Assets/Cubes/EnemyBody.cs:46-65 | the middle loop adds m rows of parts and leaves the position at the start of the next plane |
| DraftBodies.EnemyBody.SpawnAndSetupComposingCubes | Assets/Cubes/EnemyBody.cs:33-67 | as written, each of the three loops runs sectionCount³ times, so the body gets (sectionCount³)³ parts, half a part edge apart along the world axes, and gains each part's hit points |
| DraftBodies.EnemyBody.Setup | Assets/Cubes/EnemyBody.cs:26-31 | the parts are spawned, the collider takes the edge and the maximum hit points are those gathered from the parts |
| DraftBodies.EnemyBody.HandlePartsHPChanged | Assets/Cubes/EnemyBody.cs:69-73 | as written, the body loses the part's whole loss since its start at every change, and reports maximum and new hit points |
| DraftBodies.EnemyBody.HitPart | Assets/Cubes/EnemyBody.cs:69-73 | an effective hit on a part takes the part's whole loss so far off the body again |
| DraftBodies.RepeatedHitsOnOnePart | Assets/Cubes/EnemyBody.cs:69-73 | two hits of 10 on the single part of a 100 hit-point body leave the part at 80 but the body at 70 |
| DraftBodies.TwoSectionsOverflowTheGrid | Assets/Cubes/EnemyBody.cs:35-66 | with two sections the loops make 512 parts instead of 8, and the last is not the mirror of the first |
| Locator.Manager.constructor | Assets/Managers/ManagerLocator.cs:93-96 | a manager is every type it was declared with |
| Locator.OfType | Assets/Managers/ManagerLocator.cs:56-62 | the managers gathered from the first k entries are at most k |
| Locator.OfTypeMembers | Assets/Managers/ManagerLocator.cs:56-62 | a manager is gathered exactly when it is registered under one of the first k keys and is of the requested type |
| Locator.ManagerLocator.constructor | Assets/Managers/ManagerLocator.cs:41-50 | a new locator holds exactly a new HitManager and a new SettingsManager, under their own types, in that order |
| Locator.ManagerLocator.TryRegisterManager | Assets/Managers/ManagerLocator.cs:79-90 | returns true exactly when the type was not registered yet, and then adds the manager under it; a registered type keeps its manager and nothing changes |
| Locator.ManagerLocator.TryGetManager | Assets/Managers/ManagerLocator.cs:67-77 | the manager registered for the type, or null exactly when there is none |
| Locator.ManagerLocator.TryGetAllOfType | Assets/Managers/ManagerLocator.cs:52-65 | the registered managers of the type, in the dictionary's order, and exactly those |
| Locator.ManagerLocator.Clear | Assets/Managers/ManagerLocator.cs:26 | the dictionary is emptied |
| Locator.Locator.constructor | Assets/Managers/ManagerLocator.cs:5 | no instance exists at first |
| Locator.Locator.Instance | Assets/Managers/ManagerLocator.cs:31-37 | the existing instance, or a new one holding only the two default managers |
| Locator.Locator.TryRegister | Assets/Managers/ManagerLocator.cs:12-15 | the registration on the instance, created first if need be; on a new instance every type but the two defaults is accepted; afterwards the type is always registered |
| Locator.Locator.TryGet | Assets/Managers/ManagerLocator.cs:7-10 | the lookup on the instance, created first if need be |
| Locator.Locator.TryGetAll | Assets/Managers/ManagerLocator.cs:17-20 | exactly the instance's managers of the type, the instance created first if need be |
| Locator.Locator.Cleanup | Assets/Managers/ManagerLocator.cs:22-29 | an existing instance is emptied and dropped; afterwards there is none |
| Locator.RegisterThenGet | Assets/Managers/ManagerLocator.cs:7-15 | after a successful registration the lookup returns that manager; after a refused one it returns the manager registered before |
| Locator.RegisterAfterCleanup | Assets/Managers/ManagerLocator.cs:22-50 | after Cleanup a HitManager or SettingsManager registration is refused and any other type is accepted |
| Game.GameOversAppend | Assets/GameController.cs:20 | the game-over notifications of two runs of notifications add up |
| Game.NoGameOvers | Assets/GameController.cs:20 | notifications without a game over count none |
| Game.EventLatches | Assets/GameController.cs:154-207 | one handled event never changes a result once set, sends exactly one game-over notification when it sets one and none otherwise, wins only on a Titan's removal, copies the spawner's live and dead counts, and adds exactly a shot's fired and hit counts |
| Game.RunLatches | Assets/GameController.cs:154-189 | over any run of events a result once set stays, the game is over at most once, and a win means a Titan was removed during the run |
| Game.GameModel.constructor | Assets/GameController.cs:76 | a new model has every counter at zero, no game going on and no result |
| Game.GameController.constructor | Assets/GameController.cs:42-49 | after Start there is no game, no notification, the player is disabled and the HUD hidden |
| Game.GameController.StartNewGame | Assets/GameController.cs:70-94 | a fresh model with every counter zero is going on without a result; the subscribers hear the four counters at zero and then the game start; the player is enabled, the cursor hidden, the HUD shown and time runs at full speed |
| Game.GameController.PauseGame | Assets/GameController.cs:96-104 | while a game goes on, pausing stops time, shows the cursor and pauses the player, and resuming undoes all three; otherwise nothing changes |
| Game.GameController.AbortGameServices | Assets/GameController.cs:106-114 | the player is disabled and the HUD hidden |
| Game.GameController.Teardown | Assets/GameController.cs:116-127 | the model is dropped, so no game is playing, and the manager locator's instance, if any, is emptied and dropped |
| Game.GameController.Handle | Assets/GameController.cs:154-207 | without a model every handler throws a null reference and nothing is heard; otherwise the model and the notifications move as one event's reaction says |
| Game.GameController.HandleGameOver | Assets/GameController.cs:154-170 | the result is set and announced only while there is none; otherwise nothing changes |
| Game.GameController.HandleShotFired | Assets/GameController.cs:191-201 | the totals grow by the shot's counts; the fired total is always announced, the hit total exactly when the shot hit something |
| Game.GameController.UpdateStats | Assets/GameController.cs:203-207 | the live and dead counts are copied from the spawner's report |
| Game.GameController.Play | Assets/GameController.cs:154-207 | a game played event by event ends with the statistics and notifications of the run, and is over at most once |
| Weapons.InsertKeepsOrder | Assets/Weapons/WeaponController.cs:113 | adding a new key to the sorted list keeps it sorted nearest first and adds exactly that hit |
| Weapons.ByDistance | Assets/Weapons/WeaponController.cs:109-114 | building the sorted list fails only with a duplicate-key error |
| Weapons.ByDistanceSorts | Assets/Weapons/WeaponController.cs:109-114 | a sorted list that could be built is sorted nearest first and holds exactly the buffered hits |
| Weapons.ByDistanceOkIffDistinct | Assets/Weapons/WeaponController.cs:109-114 | the sorted list can be built exactly when no two buffered hits lie at the same distance |
| Weapons.DistinctSnoc | Assets/Weapons/WeaponController.cs:111-114 | hits are at distinct distances exactly when all but the last are and the last lies at none of their distances |
| Weapons.ByDistanceFailPersists | Assets/Weapons/WeaponController.cs:111-114 | once Add has thrown on some of the hits, building the list from all of them throws |
| Weapons.PenetrateReportsInOrder | Assets/Weapons/WeaponController.cs:116-124 | the damage loop reports the hits nearest first, at most one per hit, the k-th with the damage left after k enemies and above 0.1; it stops early only once the damage has fallen to 0.1 |
| Weapons.NextDecays | Assets/Weapons/WeaponController.cs:122 | with a reduction rate in [0, 1] the truncated damage never grows and never goes negative |
| Weapons.DamageNeverGrows | Assets/Weapons/WeaponController.cs:118-123 | the damage carried to each further enemy is no more than to the one before, and never negative |
| Weapons.NoPenetrationAtRateOne | Assets/Weapons/WeaponConfig.cs:16-18 | a reduction rate of 1 stops every projectile at the first enemy |
| Weapons.FullPenetrationAtRateZero | Assets/Weapons/WeaponConfig.cs:16-18 | a reduction rate of 0 lets a projectile of damage at least 1 reach every enemy on its ray |
| Weapons.Captured | Assets/Weapons/WeaponController.cs:13 | the ray cast buffers at most MAX_HIT_PER_SHOT hits, and all of them when there are no more |
| Weapons.StrikeBounds | Assets/Weapons/WeaponController.cs:81-86 | one projectile faults exactly when two of its buffered hits share a distance, and otherwise reports at most one hit per buffered hit |
| Weapons.FiredOkIffDistinct | Assets/Weapons/WeaponController.cs:69-87 | a shot faults exactly when some projectile's buffered hits share a distance |
| Weapons.FiredReportsAtMost | Assets/Weapons/WeaponController.cs:69-87 | a shot of n projectiles reports at most MAX_HIT_PER_SHOT·n hits |
| Weapons.FiredStep | Assets/Weapons/WeaponController.cs:69-87 | one more projectile that does not fault adds its reports after the shot's |
| Weapons.StrikeFailSpoils | Assets/Weapons/WeaponController.cs:69-87 | a projectile that faults makes the whole shot fault |
| Weapons.FailStays | Assets/Weapons/WeaponController.cs:69-87 | once a shot has faulted on some of its projectiles, the whole shot faults |
| Weapons.RaysAimEachProjectile | Assets/Weapons/WeaponController.cs:76-79 | a shot records one ray point per projectile, the i-th one unit ahead of the muzzle displaced by the i-th projectile's dispersion |
| Weapons.RaysStep | Assets/Weapons/WeaponController.cs:79 | one more projectile appends its ray point |
| Weapons.Widen | Assets/Weapons/WeaponController.cs:134-137 | the widened angle is the current one times the increment, capped at MAX_DISPERSION_DEGREE, and with an increment of at least 1 it never narrows |
| Weapons.WeaponController.constructor | Assets/Weapons/WeaponController.cs:11-16 | before the first shot the time since the last one is float.MaxValue, with no rays, no sorted hits and no reports |
| Weapons.WeaponController.Awake | Assets/Weapons/WeaponController.cs:20-24 | the dispersion starts at the configured angle |
| Weapons.WeaponController.LateUpdate | Assets/Weapons/WeaponController.cs:31-34 | the frame's time is added to the time since the last shot |
| Weapons.WeaponController.HandleTriggerPull | Assets/Weapons/WeaponController.cs:36-39 | the shot goes off exactly when the cooldown has passed and no projectile faults; a refused pull changes nothing; a shot restarts the time at zero and records every projectile's ray and reports, or throws a duplicate-key error |
| Weapons.WeaponController.HandleTriggerHeld | Assets/Weapons/WeaponController.cs:41-50 | only an automatic weapon shoots; it widens its dispersion exactly when the shot went off, and its shot restarts the time at zero and records every projectile's ray and reports, or throws a duplicate-key error; a refused pull and any other weapon change nothing |
| Weapons.WeaponController.HandleTriggerLetGo | Assets/Weapons/WeaponController.cs:52-55 | the dispersion goes back to the configured angle |
| Weapons.WeaponController.TryShoot | Assets/Weapons/WeaponController.cs:57-89 | refused with nothing changed while the cooldown has not passed; otherwise the time restarts at zero and either every projectile's ray and reports are recorded and the result is true, or the shot throws a duplicate-key error |
| Weapons.WeaponController.Shoot | Assets/Weapons/WeaponController.cs:65-88 | the projectile loop records every ray and exactly the shot's reports, or throws when the shot faults |
| Weapons.WeaponController.Advance | Assets/Weapons/WeaponController.cs:69-87 | one turn of the loop records the projectile's ray and either adds its reports to the shot's or makes the whole shot fault |
| Weapons.WeaponController.Fire | Assets/Weapons/WeaponController.cs:76-86 | the projectile's ray is recorded and, when its ray hit something, its reports are added or its fault raised |
| Weapons.WeaponController.ProcessHits | Assets/Weapons/WeaponController.cs:107-127 | succeeds exactly when the hits are at distinct distances, and then reports the hits nearest first with decaying damage; on a fault nothing is reported |
| Weapons.WeaponController.SortHits | Assets/Weapons/WeaponController.cs:109-114 | the sorted list holds the hits by distance, or Add throws a duplicate-key error exactly when two share a distance |
| Weapons.WeaponController.ReportHits | Assets/Weapons/WeaponController.cs:116-124 | the reports are those of the damage loop over the sorted hits |
| Weapons.WeaponController.ResetDispersionRate | Assets/Weapons/WeaponController.cs:129-132 | the dispersion is the configured angle |
| Weapons.WeaponController.IncreaseDispersionRate | Assets/Weapons/WeaponController.cs:134-137 | the dispersion widens by the increment and never exceeds MAX_DISPERSION_DEGREE |
| Weapons.FirstShot | Assets/Weapons/WeaponController.cs:11 | a new weapon's first shot always goes off when the cooldown is within its configured range and no projectile's hits share a distance |

## Left out

- Floating point: single-precision floats are reals, so rounding and overflow are not modelled.
- Trigonometry:
  - the roll's rotation matrix is the parameter `rotate`;
  - the jump's `Quaternion.AngleAxis` aim is the parameter `aim`;
  - `CalculateMaxJumpDistance` takes the launch velocity as given;
  - the spawn angle's sine and cosine are given as ring points;
  - the weapon's `tan`-based dispersion offset (WeaponController.cs:91-105) is not modelled.
  Each of these depends on trigonometric functions that have no exact real-number model here.
- The mesh rotation is recorded as the list of angles applied to it. The axes and the resulting
  quaternion are not modelled.
- `Random.Range` draws are explicit arguments. Their distribution is not modelled.
- `Physics.OverlapSphere`, `Physics.RaycastNonAlloc` and the trigger callbacks of the engine are
  inputs: a clearance oracle, the list of hits a ray returned, and the colliders that entered or
  left.
- Coroutines are modelled one poll or frame sequence at a time, and endless loops one iteration
  at a time (`RunOnce`). Interleaving between coroutines of different cubes is not modelled.
- Unity events and C# `event` fields are recorded as notification lists or subscription sets.
  The handlers' own effects beyond the modelled components are not modelled.
- `HP.Start` / `HP.OnDestroy` registration with the HitManager (Assets/Cubes/HP.cs:31-47), and the
  HitManager's own hit reporting, are not modelled: they wire the component to managers outside
  the core.
- The value before a hit and `SetStartingHP`, which the newer enemy body reads and calls, are
  carried in `Health.HP`. The newer hit-point component itself is not part of this model.
- `EnemyBody.SetVisible`, the material fader and `SetupDamageOnImpact` are not modelled: they
  only change rendering and collision-damage components.
- DraftBodies.EnemyBody.SetupComposingPart: the older body asks the configuration for
  `CalculateHPPerComposingPart()`, which is not part of this model. The model uses the configured
  `hitPointsPerPart` as its value.
- Bodies.EnemyBody.SpawnAndSetupComposingCubes: with a section count of 0 the source divides the
  float edge by zero. It spawns no part, and the model keeps the previous part edge instead of
  an infinite one.
- The older strategies in Assets/Cubes/AMovementStrategy.cs are the newer ones without the
  step-finished event. They are modelled by the newer strategies with no subscriber. Only the
  older AMove, whose failure test differs, is modelled separately.
- The class of Assets/Managers/GameModel.cs is modelled by `Game.GameModel`, with the fields the
  controller reads and writes.
- Game.GameController.StartNewGame: the calls to the spawner (`StopSpawning`, `Cleanup`, `Reset`,
  `StartSpawning`) and the player's `Setup` are not modelled. The spawner's class in this model
  has no such methods, and the player is outside the core.
- `CacheDependencies` and `SetupObservers` (GameController.cs:129-152) are not modelled. They look
  managers up and subscribe handlers; the handlers are modelled as the events they receive.
- Game.GameController.Teardown: `CleanupObservers` and the nulling of the four count events
  (GameController.cs:120-125) are not modelled. Subscriptions are not part of the controller's
  model, whose notification list records what its subscribers hear, so after teardown the model
  does not stop later notifications from being recorded.
- Awareness.CubeAwareness.UpdatePath: the component stores the caller's list itself
  (CubeAwareness.cs:58-61). The model stores the list's value, so later changes the caller makes
  through that alias are not seen.
- Clearance.AMove.WaitUntilPathFreeOrTimeOut: the wait commits the planned list itself
  (AMove.cs:29). The model commits its value, so later changes made through that alias are lost.
- Clearance.AMove.Answers: the neighbour list is read once for the whole wait. The source reads
  the tracker again at every poll, so cubes that enter or leave the sphere during the wait are not
  reflected.
- Rolling.RollMove.Execute: the `YawToTarget` turn (a `LookAt`) of RollMove.cs:90-94 and 101-104
  is not modelled. After a sideways roll the model keeps the cube's forward and right directions
  where they were.
- Cursor, HUD and menu UI code, gizmos and `Debug.Log` calls are left out, except the flags the
  controller sets on them.

## Findings

| source | as written | input that shows it | evidently intended | confidence | as-written member | corrected member |
|---|---|---|---|---|---|---|
| Assets/Cubes/EnemyBody.cs:35-66 | each of the three nested loops runs up to `cubesToSpawn` = sectionCount³, and the spawn position moves half a part edge per step | sectionCount 2: the loops make 512 parts instead of 8, and the last part is not the mirror of the first | each loop runs sectionCount times and the parts sit one part edge apart, filling a cube centred on the body, as in Assets/Scripts/EnemyCubes/EnemyBody.cs:41-67 | high, not executed | DraftBodies.TwoSectionsOverflowTheGrid | Bodies.GridIsCentred |
| Assets/Cubes/EnemyBody.cs:69-73 | at every change of a part, the body's hit points go down by that part's whole loss since its start (max − current) | one part of 100 hit points, hit twice for 10: the part is at 80, the body at 70 | the body loses only what the part lost in this change, as in Assets/Scripts/EnemyCubes/EnemyBody.cs:70-75 | high, not executed | DraftBodies.RepeatedHitsOnOnePart | Bodies.RepeatedHitsOnOnePart |
| Assets/Cubes/AMovementStrategy.cs:141 | the wait reports failure whenever `timeOut <= elapsed`, and the default timeout is −1 | default timeout −1, path free at the first poll (elapsed 0): −1 ≤ 0, so the move fails and never commits its path | a wait without a timeout succeeds once the path is free; failure only for a positive timeout that has passed, as in Assets/Scripts/Movement/AMove.cs:23 | high, not executed | Clearance.DraftDefaultTimeOutAlwaysFails | Clearance.SuccessIffFreeBeforeTimeOut |
