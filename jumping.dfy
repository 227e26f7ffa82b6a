/** JumpMove: a ballistic jump of an enemy cube. The cube samples its parabola at sixteen evenly
    spaced times, reserves all samples but the first, waits without a timeout until they are free,
    then flies along the parabola frame by frame, releasing the samples it has passed, and lands
    where the parabola meets its starting height.

    Gravity (Physics.gravity.y) is a constant of the cube, and the rotation of the jump direction
    (Quaternion.AngleAxis(angle, axis) * v) is the parameter `aim`. */
module Jumping {
  import opened Geometry
  import opened Outcomes
  import opened Overlap
  import opened PathFinding
  import opened Clearance
  import opened Rolling

  /** The number of samples of the trajectory */
  const TRAJECTORY_SECTION_COUNT: nat := 16

  /** Where a body launched with velocity `v` is after `t` seconds under gravity `g` */
  function Displacement(v: Vec3, g: real, t: real): Vec3
  {
    Vec3(v.x * t, v.y * t + g * t * t / 2.0, v.z * t)
  }

  function Sample(start: Vec3, v: Vec3, g: real, t: real): Vec3
  {
    Add(start, Displacement(v, g, t))
  }

  /** The time a body launched upwards at `vy` takes to fall back to its starting height */
  function JumpDuration(vy: real, g: real): (r: real)
    requires g != 0.0
    ensures r * g == -2.0 * vy
  {
    -2.0 * vy / g
  }

  /** The time of the sample at index `j` (the `j + 1`-th section end) */
  function SampleTime(j: nat, duration: real): real
  {
    (duration / TRAJECTORY_SECTION_COUNT as real) * ((j + 1) as real)
  }

  /** The sampled parabola: one point per section end, the last one at the full duration. */
  function Trajectory(start: Vec3, v: Vec3, g: real, duration: real): (r: seq<Vec3>)
    ensures |r| == TRAJECTORY_SECTION_COUNT
  {
    seq(TRAJECTORY_SECTION_COUNT, j requires 0 <= j < TRAJECTORY_SECTION_COUNT => Sample(start, v, g, SampleTime(j, duration)))
  }

  /** The landing point: the horizontal travel of the whole jump, at the starting height */
  function Landing(start: Vec3, v: Vec3, duration: real): Vec3
  {
    Add(start, Vec3(v.x * duration, 0.0, v.z * duration))
  }

  /** The launch velocity: the forward axis turned up by the jump angle about the right axis (or,
      backwards, turned over past the vertical), times the jump force. */
  function LaunchVelocity(aim: (real, Vec3, Vec3) -> Vec3, forward: Vec3, right: Vec3, jumpAngle: real,
                          jumpForce: real, jumpForward: bool): Vec3
  {
    var angle := if jumpForward then -jumpAngle else 180.0 + jumpAngle;
    Scale(aim(angle, right, forward), jumpForce)
  }

  /** The last sample of the trajectory is the landing point, at the height the jump started from. */
  lemma LastSampleIsLanding(start: Vec3, v: Vec3, g: real)
    requires g != 0.0
    ensures Trajectory(start, v, g, JumpDuration(v.y, g))[TRAJECTORY_SECTION_COUNT - 1] == Landing(start, v, JumpDuration(v.y, g))
    ensures Landing(start, v, JumpDuration(v.y, g)).y == start.y
  {
    var t := JumpDuration(v.y, g);
    assert SampleTime(TRAJECTORY_SECTION_COUNT - 1, t) == t;
    assert v.y * t + g * t * t / 2.0 == t * (v.y + (t * g) / 2.0);
  }

  /** The number of trajectory sections the cube has passed, counting at least one */
  function SectionsElapsed(elapsed: real, duration: real): int
    requires duration != 0.0
  {
    var s := Trunc(elapsed / (duration / TRAJECTORY_SECTION_COUNT as real));
    if s < 1 then 1 else s
  }

  /** The passed section count never decreases as the jump goes on. */
  lemma SectionsElapsedGrows(e1: real, e2: real, duration: real)
    requires 0.0 <= e1 <= e2 && duration > 0.0
    ensures SectionsElapsed(e1, duration) <= SectionsElapsed(e2, duration)
  {
    DivMono(e1, e2, duration / TRAJECTORY_SECTION_COUNT as real);
  }

  /** The release of passed samples goes wrong exactly when a frame ends a sixteenth of the jump
      or more past its end: then fewer than zero samples remain. */
  lemma OverrunIffLateFrame(elapsed: real, duration: real)
    requires 0.0 <= elapsed && duration > 0.0
    ensures SectionsElapsed(elapsed, duration) > TRAJECTORY_SECTION_COUNT as int <==>
      elapsed >= duration * 17.0 / 16.0
  {
    var d := duration / 16.0;
    var q := elapsed / d;
    assert q * d == elapsed;
    assert 17.0 * d == duration * 17.0 / 16.0;
    if q < 17.0 {
      MulStrict(q, 17.0, d);
    } else {
      MulMono(17.0, q, d);
    }
  }

  /** After the release, the samples still reserved are exactly those ahead of the cube, except
      the first sample, which is never reserved. */
  lemma ReservedSamplesAreAhead(elapsed: real, duration: real, j: nat)
    requires 0.0 <= elapsed && duration > 0.0 && 1 <= j < TRAJECTORY_SECTION_COUNT
    ensures SectionsElapsed(elapsed, duration) <= j <==> elapsed < SampleTime(j, duration)
  {
    var d := duration / 16.0;
    var q := elapsed / d;
    assert q * d == elapsed;
    var tj := (j + 1) as real;
    assert SampleTime(j, duration) == tj * d;
    if q < tj {
      MulStrict(q, tj, d);
    } else {
      MulMono(tj, q, d);
    }
  }

  /** A frame that lasts long enough to end the jump past its seventeenth sixteenth: a one-second
      jump whose last frame ends at 1.1 seconds finds seventeen sections passed. */
  lemma LateFrameOverruns()
    ensures SectionsElapsed(1.1, 1.0) == 17
    ensures TRAJECTORY_SECTION_COUNT as int - SectionsElapsed(1.1, 1.0) < 0
  {
    assert 1.1 / (1.0 / 16.0) == 17.6;
  }

  /** The longest jump along the world's forward axis: twice the product of the upward and forward
      launch speeds over the (negated) gravity. */
  function MaxJumpDistance(aim: (real, Vec3, Vec3) -> Vec3, jumpAngle: real, jumpForce: real, g: real): real
    requires g != 0.0
  {
    var v := Scale(aim(-jumpAngle, Vec3(1.0, 0.0, 0.0), Vec3(0.0, 0.0, 1.0)), jumpForce);
    -2.0 * v.y * v.z / g
  }

  /** The longest jump is the forward travel of a forward jump of a cube facing the world's
      forward axis. */
  lemma MaxJumpDistanceIsForwardTravel(aim: (real, Vec3, Vec3) -> Vec3, jumpAngle: real, jumpForce: real,
                                       g: real, start: Vec3)
    requires g != 0.0
    ensures var v := LaunchVelocity(aim, Vec3(0.0, 0.0, 1.0), Vec3(1.0, 0.0, 0.0), jumpAngle, jumpForce, true);
      Landing(start, v, JumpDuration(v.y, g)).z - start.z == MaxJumpDistance(aim, jumpAngle, jumpForce, g)
  {
    var v := LaunchVelocity(aim, Vec3(0.0, 0.0, 1.0), Vec3(1.0, 0.0, 0.0), jumpAngle, jumpForce, true);
    assert v.z * (-2.0 * v.y / g) == -2.0 * v.y * v.z / g;
  }

  class JumpMove {
    const move: AMove
    const transform: CubeTransform
    const mesh: Mesh
    const jumpForce: real
    const jumpAngle: real
    /** Physics.gravity.y */
    const gravity: real
    var jumpForward: bool
    var jumpDuration: real
    var initialVelocity: Vec3
    var trajectory: seq<Vec3>
    var previousRemainingSectionCount: int

    constructor (cachedTransform: CubeTransform, meshToRotate: Mesh, move: AMove, jumpForce: real, jumpAngle: real, gravity: real)
      ensures transform == cachedTransform && mesh == meshToRotate && this.move == move
      ensures this.jumpForce == jumpForce && this.jumpAngle == jumpAngle && this.gravity == gravity
      ensures jumpForward && trajectory == [] && previousRemainingSectionCount == 0
    {
      transform := cachedTransform;
      mesh := meshToRotate;
      this.move := move;
      this.jumpForce := jumpForce;
      this.jumpAngle := jumpAngle;
      this.gravity := gravity;
      jumpForward := true;
      jumpDuration := 0.0;
      initialVelocity := Zero;
      trajectory := [];
      previousRemainingSectionCount := 0;
    }

    /** The launch velocity from the cube's current orientation */
    function Velocity(aim: (real, Vec3, Vec3) -> Vec3): Vec3
      reads this, transform
    {
      LaunchVelocity(aim, transform.forward, transform.right, jumpAngle, jumpForce, jumpForward)
    }

    /** The points a jump from the current position reserves before it starts */
    function PlannedPath(aim: (real, Vec3, Vec3) -> Vec3): seq<Vec3>
      requires gravity != 0.0
      reads this, transform
    {
      var v := Velocity(aim);
      Trajectory(transform.position, v, gravity, JumpDuration(v.y, gravity))[1..]
    }

    /** Computes the launch velocity, the duration, and the sixteen samples of the parabola. */
    method CalculateTrajectory(aim: (real, Vec3, Vec3) -> Vec3)
      requires gravity != 0.0
      modifies this`initialVelocity, this`jumpDuration, this`trajectory
      ensures initialVelocity == old(Velocity(aim))
      ensures jumpDuration == JumpDuration(initialVelocity.y, gravity)
      ensures trajectory == Trajectory(transform.position, initialVelocity, gravity, jumpDuration)
    {
      var g := gravity;
      var angle := if jumpForward then -jumpAngle else 180.0 + jumpAngle;
      var jumpDirection := aim(angle, transform.right, transform.forward);
      initialVelocity := Scale(jumpDirection, jumpForce);
      jumpDuration := -2.0 * initialVelocity.y / g;
      var start, v, d := transform.position, initialVelocity, jumpDuration;
      var samples := [];
      for i := 1 to TRAJECTORY_SECTION_COUNT + 1
        invariant |samples| == i - 1
        invariant forall j :: 0 <= j < i - 1 ==> samples[j] == Sample(start, v, g, SampleTime(j, d))
      {
        var t := (d / TRAJECTORY_SECTION_COUNT as real) * (i as real);
        var dx := v.x * t;
        var dy := v.y * t + g * t * t / 2.0;
        var dz := v.z * t;
        assert SampleTime(i - 1, d) == t;
        samples := samples + [Add(start, Vec3(dx, dy, dz))];
      }
      trajectory := samples;
    }

    /** Releases the samples the cube has passed: when the number of remaining sections changed
        since the last frame, the committed path becomes the samples from the passed section
        count on. A negative remaining count makes List.GetRange throw. */
    method UpdatePath(elapsedTime: real) returns (r: Result<()>)
      requires jumpDuration != 0.0 && |trajectory| == TRAJECTORY_SECTION_COUNT
      modifies this, move.pathFinder
      ensures trajectory == old(trajectory) && jumpDuration == old(jumpDuration)
      ensures var s := SectionsElapsed(elapsedTime, jumpDuration);
        previousRemainingSectionCount == TRAJECTORY_SECTION_COUNT as int - s &&
        (old(previousRemainingSectionCount) == previousRemainingSectionCount ==>
           r.Ok? && move.pathFinder.Path == old(move.pathFinder.Path)) &&
        (old(previousRemainingSectionCount) != previousRemainingSectionCount && s > TRAJECTORY_SECTION_COUNT as int ==>
           r == Fail(ArgumentOutOfRange) && move.pathFinder.Path == old(move.pathFinder.Path)) &&
        (old(previousRemainingSectionCount) != previousRemainingSectionCount && s <= TRAJECTORY_SECTION_COUNT as int ==>
           r.Ok? && move.pathFinder.Path == Some(trajectory[s..]))
      ensures initialVelocity == old(initialVelocity) && jumpForward == old(jumpForward)
      ensures move.pathFinder.ProvisionalPath == old(move.pathFinder.ProvisionalPath)
    {
      var elapsedTrajectorySections := Trunc(elapsedTime / (jumpDuration / TRAJECTORY_SECTION_COUNT as real));
      if elapsedTrajectorySections < 1 {
        elapsedTrajectorySections := 1;
      }
      var remainingSectionCount := TRAJECTORY_SECTION_COUNT as int - elapsedTrajectorySections;
      if previousRemainingSectionCount != remainingSectionCount {
        previousRemainingSectionCount := remainingSectionCount;
        if remainingSectionCount < 0 {
          return Fail(ArgumentOutOfRange);
        }
        move.pathFinder.Path := Some(trajectory[elapsedTrajectorySections..elapsedTrajectorySections + remainingSectionCount]);
        assert trajectory[elapsedTrajectorySections..elapsedTrajectorySections + remainingSectionCount] == trajectory[elapsedTrajectorySections..];
      }
      r := Ok(());
    }

    /** The jump coroutine. The wait has no timeout: it goes on for as long as the planned samples
        stay blocked, and `pollBudget` is the number of polls after the first it is given here; a
        wait that has not ended by then is reported as waiting. `frames` are the delta times of the
        frames of the flight; a flight that has not reached the jump duration when they run out is
        reported in flight. */
    method Execute(aim: (real, Vec3, Vec3) -> Vec3, worlds: nat -> (int -> Surface), frameCounts: nat -> int,
                   pollBudget: nat, frames: seq<real>)
      returns (polls: nat, status: MoveStatus)
      requires gravity != 0.0
      requires forall i :: 0 <= i < |frames| ==> frames[i] >= 0.0
      modifies this, move, move.pathFinder, transform, mesh
      ensures initialVelocity == old(Velocity(aim)) && jumpDuration == JumpDuration(initialVelocity.y, gravity)
      ensures trajectory == Trajectory(old(transform.position), initialVelocity, gravity, jumpDuration)
      ensures status == Waiting <==> forall i :: 0 <= i <= pollBudget ==> old(move.Answers(PlannedPath(aim), worlds))(i) == Ok(false)
      ensures status == Waiting ==>
        polls == pollBudget && transform.position == old(transform.position) &&
        move.pathFinder.Path == old(move.pathFinder.Path) && mesh.pitch == old(mesh.pitch)
      ensures status != Waiting ==> FirstStop(old(move.Answers(PlannedPath(aim), worlds)), -1.0, polls)
      ensures status != Waiting && old(move.Answers(PlannedPath(aim), worlds))(polls).Fail? ==>
        status == Faulted(old(move.Answers(PlannedPath(aim), worlds))(polls).fault) &&
        transform.position == old(transform.position) && move.pathFinder.Path == old(move.pathFinder.Path)
      ensures status != Waiting && old(move.Answers(PlannedPath(aim), worlds))(polls).Ok? ==>
        old(move.Answers(PlannedPath(aim), worlds))(polls) == Ok(true) && move.lastPathFindWasSuccessful
      ensures status == Landed ==>
        transform.position == Landing(old(transform.position), initialVelocity, jumpDuration) &&
        transform.position == trajectory[TRAJECTORY_SECTION_COUNT - 1] && move.pathFinder.Path.None?
      ensures status == InFlight ==>
        0.0 < jumpDuration && Sum(frames) < jumpDuration &&
        transform.position == (if frames == [] then old(transform.position)
                               else Sample(old(transform.position), initialVelocity, gravity, Sum(frames)))
      ensures status != Waiting && old(move.Answers(PlannedPath(aim), worlds))(polls).Ok? ==>
        status == Landed || status == InFlight || status == Faulted(ArgumentOutOfRange)
      ensures status != Waiting && old(move.Answers(PlannedPath(aim), worlds))(polls).Ok? && status != Landed ==>
        exists s :: 1 <= s <= TRAJECTORY_SECTION_COUNT && move.pathFinder.Path == Some(trajectory[s..])
      ensures status != Blocked
      ensures status.Faulted? ==> status.fault == NullReference || status.fault == ArgumentOutOfRange
    {
      CalculateTrajectory(aim);
      var plannedPath := trajectory[1..];
      assert plannedPath == old(PlannedPath(aim));
      assert move.Answers(plannedPath, worlds) == old(move.Answers(PlannedPath(aim), worlds));
      var w;
      polls, w := move.WaitUntilPathFreeOrTimeOut(plannedPath, worlds, frameCounts, -1.0, pollBudget);
      if w.StillWaiting? {
        return polls, Waiting;
      }
      if w.result.Fail? {
        return polls, Faulted(w.result.fault);
      }
      LastSampleIsLanding(old(transform.position), initialVelocity, gravity);
      status := Fly(frames);
    }

    /** The flight: per frame, the cube moves to the parabola's point at the elapsed time, the
        mesh pitches in proportion, and the passed samples are released; at the end of the jump
        the cube is put on the landing point and the reservation is cleared. */
    method Fly(frames: seq<real>) returns (status: MoveStatus)
      requires gravity != 0.0 && jumpDuration == JumpDuration(initialVelocity.y, gravity)
      requires |trajectory| == TRAJECTORY_SECTION_COUNT
      requires forall i :: 0 <= i < |frames| ==> frames[i] >= 0.0
      requires move.pathFinder.Path == Some(trajectory[1..])
      modifies this, move.pathFinder, transform, mesh
      ensures trajectory == old(trajectory) && initialVelocity == old(initialVelocity) && jumpDuration == old(jumpDuration)
      ensures status == Landed || status == InFlight || status == Faulted(ArgumentOutOfRange)
      ensures status == Landed ==>
        transform.position == Landing(old(transform.position), initialVelocity, jumpDuration) && move.pathFinder.Path.None?
      ensures status == InFlight ==>
        0.0 < jumpDuration && Sum(frames) < jumpDuration &&
        transform.position == (if frames == [] then old(transform.position)
                               else Sample(old(transform.position), initialVelocity, gravity, Sum(frames)))
      ensures status != Landed ==>
        exists s :: 1 <= s <= TRAJECTORY_SECTION_COUNT && move.pathFinder.Path == Some(trajectory[s..])
    {
      var elapsedTime := 0.0;
      var startingPoint := transform.position;
      var endPoint := Add(transform.position, Vec3(initialVelocity.x * jumpDuration, 0.0, initialVelocity.z * jumpDuration));
      previousRemainingSectionCount := 0;
      ghost var reservedFrom: nat := 1;
      var f := 0;
      while elapsedTime < jumpDuration
        invariant 0 <= f <= |frames| && elapsedTime == Sum(frames[..f]) && 0.0 <= elapsedTime
        invariant transform.position == if f == 0 then startingPoint else Sample(startingPoint, initialVelocity, gravity, elapsedTime)
        invariant startingPoint == old(transform.position)
        invariant trajectory == old(trajectory) && initialVelocity == old(initialVelocity) && jumpDuration == old(jumpDuration)
        invariant 1 <= reservedFrom <= TRAJECTORY_SECTION_COUNT && move.pathFinder.Path == Some(trajectory[reservedFrom..])
        invariant endPoint == Landing(old(transform.position), initialVelocity, jumpDuration)
        decreases |frames| - f
      {
        if f == |frames| {
          assert frames[..f] == frames;
          return InFlight;
        }
        assert frames[..f + 1][..f] == frames[..f];
        elapsedTime := elapsedTime + frames[f];
        transform.position := Sample(startingPoint, initialVelocity, gravity, elapsedTime);
        mesh.pitch := 90.0 * (if jumpForward then 1.0 else -1.0) * (elapsedTime / jumpDuration);
        ghost var reserved := move.pathFinder.Path;
        var u := UpdatePath(elapsedTime);
        if u.Fail? {
          return Faulted(u.fault);
        }
        if move.pathFinder.Path != reserved {
          reservedFrom := SectionsElapsed(elapsedTime, jumpDuration);
        }
        f := f + 1;
      }
      transform.position := endPoint;
      move.pathFinder.Path := Option.None;
      status := Landed;
    }
  }
}
