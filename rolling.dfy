/** RollMove: one roll of an enemy cube over one of its bottom edges. The cube reserves the cell
    it will land on, waits up to two seconds for it to be free, then rotates about the edge one
    fixed physics step at a time until it has turned a quarter turn, snaps back to resting height
    and releases its reservation.

    The rotation matrix (trigonometry) is a parameter: `rotate` maps the vector from the pivot
    edge to the centre to its image after one step's rotation. Frames are given as the list of
    their delta times; a roll that has not finished when they run out is reported in flight. */
module Rolling {
  import opened Geometry
  import opened Outcomes
  import opened Overlap
  import opened PathFinding
  import opened Clearance

  datatype Direction = None | Forward | Back | Left | Right

  /** How a move coroutine ended: the wait failed, an exception ended it, the wait for a clear
      path was still going on when the polls given to it ran out, the frames ran out before it
      finished, or it finished. */
  datatype MoveStatus = Blocked | Faulted(fault: Fault) | Waiting | InFlight | Landed

  /** The wait timeout of a roll, in seconds */
  const ROLL_WAIT_TIMEOUT: real := 2.0

  /** Polls after the first that always end a wait with the roll's timeout: ⌊4 · 2⌋ + 1 */
  const ROLL_POLL_BUDGET: nat := 9

  /** The cell a roll in `direction` lands on: one edge length along the cube's forward or right
      axis; `None` gives the origin. */
  function RollTarget(position: Vec3, forward: Vec3, right: Vec3, direction: Direction, edgeSize: real): Vec3
  {
    match direction
    case Forward => Add(position, Scale(forward, edgeSize))
    case Back => Sub(position, Scale(forward, edgeSize))
    case Left => Sub(position, Scale(right, edgeSize))
    case Right => Add(position, Scale(right, edgeSize))
    case None => Zero
  }

  /** With unit axes, every roll lands exactly one edge length away. */
  lemma RollTargetIsOneEdgeAway(position: Vec3, forward: Vec3, right: Vec3, direction: Direction, edgeSize: real)
    requires !direction.None? && SqrMagnitude(forward) == 1.0 && SqrMagnitude(right) == 1.0
    ensures SqrDist(RollTarget(position, forward, right, direction, edgeSize), position) == edgeSize * edgeSize
  {
    var axis := if direction == Forward || direction == Back then forward else right;
    var k := if direction == Forward || direction == Right then edgeSize else -edgeSize;
    RollIsAlongAxis(position, forward, right, direction, edgeSize);
    SqrMagnitudeScale(axis, k);
    assert k * k == edgeSize * edgeSize;
  }

  /** A roll moves the cube along its forward axis (forward or back) or its right axis (right or
      left), by plus or minus one edge. */
  lemma RollIsAlongAxis(position: Vec3, forward: Vec3, right: Vec3, direction: Direction, edgeSize: real)
    requires !direction.None?
    ensures Sub(RollTarget(position, forward, right, direction, edgeSize), position) ==
      Scale(if direction == Forward || direction == Back then forward else right,
            if direction == Forward || direction == Right then edgeSize else -edgeSize)
  {
  }

  /** Opposite rolls land on cells mirrored about the cube's position. */
  lemma OppositeRollsMirror(position: Vec3, forward: Vec3, right: Vec3, edgeSize: real)
    ensures Add(RollTarget(position, forward, right, Forward, edgeSize), RollTarget(position, forward, right, Back, edgeSize))
      == Scale(position, 2.0)
    ensures Add(RollTarget(position, forward, right, Left, edgeSize), RollTarget(position, forward, right, Right, edgeSize))
      == Scale(position, 2.0)
  {
  }

  /** The pivot of a roll: the vector from the bottom edge the cube turns over to its centre (a
      cube resting at height `halfSize`), and the axis it turns about. An unknown direction raises
      NotImplementedException. */
  function EdgeToCentre(direction: Direction, halfSize: real, forward: Vec3, right: Vec3): Result<(Vec3, Vec3)>
  {
    var centre := Vec3(0.0, halfSize, 0.0);
    match direction
    case Forward => Ok((Sub(centre, Scale(forward, halfSize)), right))
    case Back => Ok((Add(centre, Scale(forward, halfSize)), right))
    case Left => Ok((Add(centre, Scale(right, halfSize)), forward))
    case Right => Ok((Sub(centre, Scale(right, halfSize)), forward))
    case None => Fail(NotImplemented)
  }

  /** The pivot edge is the bottom edge facing the target cell: the centre lies half a step back
      from it. */
  lemma {:induction false} PivotFacesTarget(position: Vec3, forward: Vec3, right: Vec3, direction: Direction, edgeSize: real)
    requires !direction.None?
    ensures EdgeToCentre(direction, edgeSize / 2.0, forward, right).Ok?
    ensures Sub(EdgeToCentre(direction, edgeSize / 2.0, forward, right).value.0, Vec3(0.0, edgeSize / 2.0, 0.0))
      == Scale(Sub(RollTarget(position, forward, right, direction, edgeSize), position), -0.5)
  {
    var h := edgeSize / 2.0;
    var v := if direction == Forward || direction == Back then forward else right;
    var k := if direction == Forward || direction == Right then edgeSize else -edgeSize;
    var c := if direction == Forward || direction == Right then -h else h;
    RollIsAlongAxis(position, forward, right, direction, edgeSize);
    assert Sub(EdgeToCentre(direction, h, forward, right).value.0, Vec3(0.0, h, 0.0)) == Scale(v, c);
    HalfScale(v, k, c);
  }

  lemma HalfScale(v: Vec3, k: real, c: real)
    requires c == k * -0.5
    ensures Scale(v, c) == Scale(Scale(v, k), -0.5)
  {
    assert v.x * (k * -0.5) == v.x * k * -0.5;
    assert v.y * (k * -0.5) == v.y * k * -0.5;
    assert v.z * (k * -0.5) == v.z * k * -0.5;
  }

  /** The cube turns about an axis perpendicular to its step when its own axes are perpendicular. */
  lemma {:induction false} AxisIsPerpendicularToStep(position: Vec3, forward: Vec3, right: Vec3, direction: Direction, edgeSize: real)
    requires !direction.None? && Dot(forward, right) == 0.0
    ensures EdgeToCentre(direction, edgeSize / 2.0, forward, right).Ok?
    ensures Dot(EdgeToCentre(direction, edgeSize / 2.0, forward, right).value.1,
                Sub(RollTarget(position, forward, right, direction, edgeSize), position)) == 0.0
  {
    var axis := EdgeToCentre(direction, edgeSize / 2.0, forward, right).value.1;
    var v := if direction == Forward || direction == Back then forward else right;
    var k := if direction == Forward || direction == Right then edgeSize else -edgeSize;
    RollIsAlongAxis(position, forward, right, direction, edgeSize);
    assert Dot(axis, v) == 0.0 by {
      assert Dot(forward, right) == Dot(right, forward);
    }
    DotScale(axis, v, k);
  }

  /** The per-step angle with the sign of the direction: backwards and to the right the cube
      turns the other way. */
  function SignedAngle(direction: Direction, angle: real): real
  {
    if direction == Back || direction == Right then -angle else angle
  }

  /** The angle turned after `n` physics steps of `a` degrees */
  function Turned(n: nat, a: real): real
  {
    if n == 0 then 0.0 else Turned(n - 1, a) + a
  }

  /** `n` physics steps of `a` degrees make a quarter turn: the last of them reaches or passes 90
      degrees and the one before it does not. */
  predicate IsQuarterTurn(n: nat, a: real)
  {
    n >= 1 && Turned(n, a) >= 90.0 && Turned(n - 1, a) < 90.0
  }

  lemma {:induction false} TurnedIsProduct(n: nat, a: real)
    ensures Turned(n, a) == (n as real) * a
  {
    if n > 0 {
      TurnedIsProduct(n - 1, a);
    }
  }

  lemma {:induction false} TurnedGrows(m: nat, n: nat, a: real)
    requires a > 0.0 && m <= n
    ensures Turned(m, a) <= Turned(n, a)
  {
    if m < n {
      TurnedGrows(m, n - 1, a);
    }
  }

  /** A step count short of a quarter turn is smaller than one that reaches it. */
  lemma BelowQuarterIsFewer(reaching: nat, short: nat, a: real)
    requires a > 0.0 && Turned(reaching, a) >= 90.0 && Turned(short, a) < 90.0
    ensures short < reaching
  {
    if reaching <= short {
      TurnedGrows(reaching, short, a);
      assert false;
    }
  }

  /** The number of steps of a quarter turn is determined by the step angle. */
  lemma QuarterTurnIsUnique(n1: nat, n2: nat, a: real)
    requires a > 0.0 && IsQuarterTurn(n1, a) && IsQuarterTurn(n2, a)
    ensures n1 == n2
  {
    BelowQuarterIsFewer(n1, n2 - 1, a);
    BelowQuarterIsFewer(n2, n1 - 1, a);
  }

  /** Enough steps of a positive angle always add up to a quarter turn. */
  lemma EnoughSteps(a: real) returns (n: nat)
    requires a > 0.0
    ensures Turned(n, a) >= 90.0
  {
    var x := 90.0 / a;
    assert x * a == 90.0 && x > 0.0;
    n := x.Floor + 1;
    MulMono(x, n as real, a);
    TurnedIsProduct(n, a);
  }

  /** The state after `n` rotation steps: the cube's position and the pivot-to-centre vector. Each
      step rotates the vector and moves the position by the change of the vector. */
  function RollSteps(position: Vec3, pivot: Vec3, rotate: Vec3 -> Vec3, n: nat): (Vec3, Vec3)
  {
    if n == 0 then (position, pivot)
    else
      var (p, v) := RollSteps(position, pivot, rotate, n - 1);
      (Add(rotate(v), Sub(p, v)), rotate(v))
  }

  /** Back at resting height: the same x and z, the centre half an edge above the ground */
  function Snap(p: Vec3, halfSize: real): Vec3
  {
    Vec3(p.x, halfSize, p.z)
  }

  /** An angle past a quarter turn, cut back to the quarter turn */
  function ClampToQuarter(angle: real): real
  {
    if angle > 90.0 then 90.0 else if angle < -90.0 then -90.0 else angle
  }

  lemma SumAppend(s: seq<real>, x: real)
    ensures Sum(s + [x]) == Sum(s) + x
  {
    assert (s + [x])[..|s + [x]| - 1] == s;
  }

  /** One step of the inner loop keeps the applied mesh angles summing to the clamped rotation. */
  lemma StepKeepsMeshSum(applied: seq<real>, angles: real, rollAngle: real, a: real)
    requires a > 0.0 && (rollAngle == a || rollAngle == -a)
    requires Abs(angles) < 90.0 && Sum(applied) == angles
    ensures var next := angles + rollAngle;
      var over := Abs(next) - 90.0;
      var applied' := if Abs(next) > 90.0 then (if rollAngle < 0.0 then rollAngle + over else rollAngle - over) else rollAngle;
      Sum(applied + [applied']) == ClampToQuarter(next)
  {
    var next := angles + rollAngle;
    var over := Abs(next) - 90.0;
    var applied' := if Abs(next) > 90.0 then (if rollAngle < 0.0 then rollAngle + over else rollAngle - over) else rollAngle;
    SumAppend(applied, applied');
    if Abs(next) > 90.0 {
      if rollAngle < 0.0 {
        assert next < -90.0 && applied' == -90.0 - angles;
      } else {
        assert next > 90.0 && applied' == 90.0 - angles;
      }
    }
  }

  class RollMove {
    const move: AMove
    const transform: CubeTransform
    const mesh: Mesh
    const edgeSize: real
    const rollAnglePerUpdate: real
    var rollDirection: Direction
    var plannedPath: seq<Vec3>

    constructor (cachedTransform: CubeTransform, mesh: Mesh, move: AMove, edgeSize: real, rollAnglePerUpdate: real)
      ensures transform == cachedTransform && this.mesh == mesh && this.move == move
      ensures this.edgeSize == edgeSize && this.rollAnglePerUpdate == rollAnglePerUpdate
      ensures plannedPath == [Zero] && rollDirection == Forward
    {
      transform := cachedTransform;
      this.mesh := mesh;
      this.move := move;
      this.edgeSize := edgeSize;
      this.rollAnglePerUpdate := rollAnglePerUpdate;
      plannedPath := [Zero];
      rollDirection := Forward;
    }

    /** The cell the next roll lands on */
    function Target(): Vec3
      reads this, transform
    {
      RollTarget(transform.position, transform.forward, transform.right, rollDirection, edgeSize)
    }

    /** CalculatePath: the planned path is the single target cell. */
    method CalculatePath(direction: Direction, edgeSize: real)
      modifies this
      ensures plannedPath == [RollTarget(transform.position, transform.forward, transform.right, direction, edgeSize)]
      ensures rollDirection == old(rollDirection)
    {
      plannedPath := [RollTarget(transform.position, transform.forward, transform.right, direction, edgeSize)];
    }

    /** One fixed step of the roll: the pivot-to-centre vector turns, the cube moves by the
        vector's change, and the mesh turns by the step angle, cut back on the step that would
        pass a quarter turn. */
    method RotationStep(rotate: Vec3 -> Vec3, fromEdgeToCentre: Vec3, anglesRotated: real, rollAngle: real,
                        ghost a: real, ghost applied: seq<real>)
      returns (toCentre: Vec3, angles: real, meshAngle: real)
      requires a > 0.0 && (rollAngle == a || rollAngle == -a)
      requires Abs(anglesRotated) < 90.0 && Sum(applied) == anglesRotated
      modifies transform`position, mesh`rolls
      ensures toCentre == rotate(fromEdgeToCentre)
      ensures transform.position == Add(toCentre, Sub(old(transform.position), fromEdgeToCentre))
      ensures angles == anglesRotated + rollAngle
      ensures mesh.rolls == old(mesh.rolls) + [meshAngle]
      ensures Sum(applied + [meshAngle]) == ClampToQuarter(angles)
      ensures Abs(angles) <= 90.0 ==> meshAngle == rollAngle
    {
      StepKeepsMeshSum(applied, anglesRotated, rollAngle, a);
      var delta := Sub(transform.position, fromEdgeToCentre);
      toCentre := rotate(fromEdgeToCentre);
      transform.position := Add(toCentre, delta);
      angles := anglesRotated + rollAngle;
      meshAngle := rollAngle;
      if Abs(angles) > 90.0 {
        var overRotation := Abs(angles) - 90.0;
        if rollAngle < 0.0 {
          meshAngle := rollAngle + overRotation;
        } else {
          meshAngle := rollAngle - overRotation;
        }
      }
      mesh.rolls := mesh.rolls + [meshAngle];
    }

    /** The frame loop of a roll: per frame, as many fixed steps as the accumulated time allows,
        each rotating the cube about the pivot edge by the step angle, until a quarter turn. The
        mesh turns by the same angle, the last step cut back so that the mesh turns exactly a
        quarter turn. */
    method Turn(pivot: Vec3, rotate: Vec3 -> Vec3, frames: seq<real>, timeStep: real) returns (done: bool)
      requires rollAnglePerUpdate > 0.0
      modifies transform`position, mesh`rolls
      ensures |mesh.rolls| >= |old(mesh.rolls)| && mesh.rolls[..|old(mesh.rolls)|] == old(mesh.rolls)
      ensures done ==> exists n: nat :: IsQuarterTurn(n, rollAnglePerUpdate) &&
                         transform.position == RollSteps(old(transform.position), pivot, rotate, n).0
      ensures done ==> Sum(mesh.rolls[|old(mesh.rolls)|..]) == SignedAngle(rollDirection, 90.0)
    {
      var a := rollAnglePerUpdate;
      var rollAngle := SignedAngle(rollDirection, a);
      ghost var negative := rollDirection == Back || rollDirection == Right;
      var fromEdgeToCentre := pivot;
      var anglesRotated := 0.0;
      var elapsed := 0.0;
      ghost var steps: nat := 0;
      ghost var turned := 0.0;
      ghost var applied: seq<real> := [];
      ghost var bound := EnoughSteps(a);
      var f := 0;
      while Abs(anglesRotated) < 90.0
        invariant 0 <= f <= |frames| && steps <= bound
        invariant turned == Turned(steps, a) && turned >= 0.0
        invariant anglesRotated == if negative then -turned else turned
        invariant steps > 0 ==> turned - a < 90.0
        invariant Abs(anglesRotated) < 90.0 ==> rollAngle == SignedAngle(rollDirection, a)
        invariant (transform.position, fromEdgeToCentre) == RollSteps(old(transform.position), pivot, rotate, steps)
        invariant mesh.rolls == old(mesh.rolls) + applied
        invariant Sum(applied) == ClampToQuarter(anglesRotated)
        decreases |frames| - f
      {
        if f == |frames| {
          assert mesh.rolls[..|old(mesh.rolls)|] == old(mesh.rolls);
          return false;
        }
        elapsed := elapsed + frames[f];
        while elapsed > timeStep && Abs(anglesRotated) < 90.0
          invariant steps <= bound
          invariant turned == Turned(steps, a) && turned >= 0.0
          invariant anglesRotated == if negative then -turned else turned
          invariant steps > 0 ==> turned - a < 90.0
          invariant Abs(anglesRotated) < 90.0 ==> rollAngle == SignedAngle(rollDirection, a)
          invariant (transform.position, fromEdgeToCentre) == RollSteps(old(transform.position), pivot, rotate, steps)
          invariant mesh.rolls == old(mesh.rolls) + applied
          invariant Sum(applied) == ClampToQuarter(anglesRotated)
          decreases bound - steps
        {
          BelowQuarterIsFewer(bound, steps, a);
          elapsed := elapsed - timeStep;
          var meshAngle;
          fromEdgeToCentre, anglesRotated, meshAngle :=
            RotationStep(rotate, fromEdgeToCentre, anglesRotated, rollAngle, a, applied);
          rollAngle := meshAngle;
          steps := steps + 1;
          turned := turned + a;
          applied := applied + [meshAngle];
        }
        f := f + 1;
      }
      assert IsQuarterTurn(steps, a);
      assert mesh.rolls[|old(mesh.rolls)|..] == applied;
      return true;
    }

    /** The roll coroutine: plan the target cell, wait for it with the roll's timeout, turn about
        the pivot edge until a quarter turn, snap back to resting height and release the
        reservation. `rotation(axis, angle)` is the rotation of one step about `axis`. */
    method Execute(worlds: nat -> (int -> Surface), frameCounts: nat -> int, rotation: (Vec3, real) -> (Vec3 -> Vec3),
                   frames: seq<real>, timeStep: real)
      returns (polls: nat, status: MoveStatus)
      modifies this, move, move.pathFinder, transform, mesh
      ensures plannedPath == [old(Target())] && rollDirection == old(rollDirection)
      ensures FirstStop(old(move.Answers([Target()], worlds)), ROLL_WAIT_TIMEOUT, polls) && polls <= 9
      ensures move.pathFinder.ProvisionalPath == plannedPath
      ensures old(move.Answers([Target()], worlds))(polls).Fail? ==>
        status == Faulted(old(move.Answers([Target()], worlds))(polls).fault) &&
        move.pathFinder.Path == old(move.pathFinder.Path) && transform.position == old(transform.position)
      ensures old(move.Answers([Target()], worlds))(polls).Ok? && TimedOut(ROLL_WAIT_TIMEOUT, polls) ==>
        status == Blocked && move.pathFinder.Path == old(move.pathFinder.Path) &&
        transform.position == old(transform.position)
      ensures status == Blocked ==> TimedOut(ROLL_WAIT_TIMEOUT, polls)
      ensures old(move.Answers([Target()], worlds))(polls).Ok? && !TimedOut(ROLL_WAIT_TIMEOUT, polls) ==>
        move.lastPathFindWasSuccessful
      ensures rollDirection.None? ==> status == Blocked || status.Faulted?
      ensures status.Faulted? ==> status.fault == NullReference || (rollDirection.None? && status.fault == NotImplemented)
      ensures rollDirection.None? && old(move.Answers([Target()], worlds))(polls).Ok? && !TimedOut(ROLL_WAIT_TIMEOUT, polls) ==>
        status == Faulted(NotImplemented) && move.pathFinder.Path == Some([Zero])
      ensures status == InFlight ==> rollAnglePerUpdate > 0.0 && move.pathFinder.Path == Some(plannedPath)
      ensures status != Waiting
      ensures status == Blocked || status.Faulted? ==> mesh.rolls == old(mesh.rolls)
      ensures |mesh.rolls| >= |old(mesh.rolls)| && mesh.rolls[..|old(mesh.rolls)|] == old(mesh.rolls)
      ensures status == Landed ==>
        !rollDirection.None? && move.pathFinder.Path.None? && transform.position.y == edgeSize / 2.0 &&
        Sum(mesh.rolls[|old(mesh.rolls)|..]) == (if rollAnglePerUpdate > 0.0 then SignedAngle(rollDirection, 90.0) else 0.0)
      ensures status == Landed && rollAnglePerUpdate <= 0.0 ==>
        transform.position == Snap(old(transform.position), edgeSize / 2.0)
      ensures status == Landed && rollAnglePerUpdate > 0.0 ==>
        var (pivot, axis) := EdgeToCentre(rollDirection, edgeSize / 2.0, old(transform.forward), old(transform.right)).value;
        exists n: nat :: IsQuarterTurn(n, rollAnglePerUpdate) &&
          transform.position == Snap(RollSteps(old(transform.position), pivot,
                                               rotation(axis, SignedAngle(rollDirection, rollAnglePerUpdate)), n).0,
                                     edgeSize / 2.0)
    {
      CalculatePath(rollDirection, edgeSize);
      var w;
      assert (4.0 * ROLL_WAIT_TIMEOUT).Floor == 8;
      polls, w := move.WaitUntilPathFreeOrTimeOut(plannedPath, worlds, frameCounts, ROLL_WAIT_TIMEOUT, ROLL_POLL_BUDGET);
      var r := w.result;
      if r.Fail? {
        return polls, Faulted(r.fault);
      }
      if !r.value {
        return polls, Blocked;
      }
      var halfSize := edgeSize / 2.0;
      var pivotAndAxis := EdgeToCentre(rollDirection, halfSize, transform.forward, transform.right);
      if pivotAndAxis.Fail? {
        return polls, Faulted(pivotAndAxis.fault);
      }
      var (fromEdgeToCentre, axisToRotateAround) := pivotAndAxis.value;
      var rollAngle := SignedAngle(rollDirection, rollAnglePerUpdate);
      var rotate := rotation(axisToRotateAround, rollAngle);
      if rollAnglePerUpdate > 0.0 {
        var done := Turn(fromEdgeToCentre, rotate, frames, timeStep);
        if !done {
          return polls, InFlight;
        }
      } else {
        assert mesh.rolls[|old(mesh.rolls)|..] == [];
      }
      transform.position := Snap(transform.position, halfSize);
      move.pathFinder.Path := Option.None;
      status := Landed;
    }
  }
}
