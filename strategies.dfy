/** Movement strategies: the endless loops that pick an enemy cube's next move. A RollStrategy
    rolls forward or, with some chance, sideways; a JumpStrategy jumps when the player (at the
    origin) is out of jump reach and a draw succeeds, and rolls forward otherwise. Each finished
    move raises the strategy's step-finished event.

    Every `Random.Range(0f, 1f)` is an explicit draw argument, and the endless loop is modelled
    one iteration at a time (`RunOnce`). The per-move parameters of the roll and the jump are
    those of `RollMove.Execute` and `JumpMove.Execute`. */
module Strategies {
  import opened Geometry
  import opened Outcomes
  import opened Overlap
  import opened PathFinding
  import opened Clearance
  import opened Rolling
  import opened Jumping

  /** The roll angle of one physics step for a cube of edge `edgeSize` moving at `speed` units
      per second: a quarter turn moves it one edge length. */
  function RollAnglePerUpdate(edgeSize: real, speed: real, fixedDeltaTime: real): real
    requires edgeSize != 0.0
  {
    speed / edgeSize * 90.0 * fixedDeltaTime
  }

  /** The angle is positive for a positive size, speed and step, and proportional to the speed. */
  lemma RollAngleScalesWithSpeed(edgeSize: real, speed: real, fixedDeltaTime: real, k: real)
    requires edgeSize > 0.0
    ensures speed > 0.0 && fixedDeltaTime > 0.0 ==> RollAnglePerUpdate(edgeSize, speed, fixedDeltaTime) > 0.0
    ensures RollAnglePerUpdate(edgeSize, k * speed, fixedDeltaTime) == k * RollAnglePerUpdate(edgeSize, speed, fixedDeltaTime)
  {
    var u := speed / edgeSize;
    assert (k * speed) / edgeSize == k * u;
    if speed > 0.0 && fixedDeltaTime > 0.0 {
      assert u > 0.0;
      assert u * 90.0 > 0.0;
      MulStrict(0.0, u * 90.0, fixedDeltaTime);
    }
  }

  /** A roll at this angle takes the fewest physics steps whose total time reaches the time the
      cube needs to travel one edge length at its speed. */
  lemma RollTimeMatchesSpeed(edgeSize: real, speed: real, fixedDeltaTime: real, n: nat)
    requires edgeSize > 0.0 && speed > 0.0 && fixedDeltaTime > 0.0
    requires IsQuarterTurn(n, RollAnglePerUpdate(edgeSize, speed, fixedDeltaTime))
    ensures (n as real) * fixedDeltaTime * speed >= edgeSize
    ensures ((n - 1) as real) * fixedDeltaTime * speed < edgeSize
  {
    var a := RollAnglePerUpdate(edgeSize, speed, fixedDeltaTime);
    TurnedIsProduct(n, a);
    TurnedIsProduct(n - 1, a);
    StepsReachEdge(n as real, edgeSize, speed, fixedDeltaTime);
    StepsReachEdge((n - 1) as real, edgeSize, speed, fixedDeltaTime);
  }

  lemma StepsReachEdge(m: real, edgeSize: real, speed: real, dt: real)
    requires edgeSize > 0.0
    ensures m * RollAnglePerUpdate(edgeSize, speed, dt) == 90.0 * (m * dt * speed) / edgeSize
    ensures m * RollAnglePerUpdate(edgeSize, speed, dt) >= 90.0 <==> m * dt * speed >= edgeSize
  {
    var x := m * dt * speed;
    assert m * RollAnglePerUpdate(edgeSize, speed, dt) == 90.0 * x / edgeSize;
    var q := x / edgeSize;
    assert q * edgeSize == x;
    if q >= 1.0 {
      MulMono(1.0, q, edgeSize);
    } else {
      MulStrict(q, 1.0, edgeSize);
    }
  }

  /** The step-finished event: the number of handlers subscribed and the number of handler calls
      made so far. */
  class StepEvent {
    var subscribers: nat
    var notified: nat

    constructor ()
      ensures subscribers == 0 && notified == 0
    {
      subscribers := 0;
      notified := 0;
    }

    method Subscribe()
      modifies this
      ensures subscribers == old(subscribers) + 1 && notified == old(notified)
    {
      subscribers := subscribers + 1;
    }

    /** StepFinished: every subscribed handler is called once; without handlers nothing happens. */
    method Raise()
      modifies this
      ensures notified == old(notified) + subscribers && subscribers == old(subscribers)
    {
      notified := notified + subscribers;
    }
  }

  /** The direction of the next roll: sideways when the first draw is below the side-roll chance
      (left or right on the second draw), forward otherwise. */
  function NextDirection(sideDraw: real, leftRightDraw: real, chanceToRollSideways: real): (r: Direction)
    ensures r == Forward || r == Left || r == Right
    ensures r == Forward <==> !(sideDraw < chanceToRollSideways)
    ensures r == Left <==> sideDraw < chanceToRollSideways && leftRightDraw < 0.5
  {
    if sideDraw < chanceToRollSideways then
      (if leftRightDraw < 0.5 then Left else Right)
    else Forward
  }

  /** With no side-roll chance a cube only rolls forward; with a chance above one it never does. */
  lemma SideRollChanceExtremes(sideDraw: real, leftRightDraw: real, chanceToRollSideways: real)
    requires 0.0 <= sideDraw <= 1.0
    ensures chanceToRollSideways <= 0.0 ==> NextDirection(sideDraw, leftRightDraw, chanceToRollSideways) == Forward
    ensures chanceToRollSideways > 1.0 ==> NextDirection(sideDraw, leftRightDraw, chanceToRollSideways) != Forward
  {
  }

  /** Assets/Scripts/Movement/RollStrategy.cs */
  class RollStrategy {
    const roll: RollMove
    const edgeSize: real
    const chanceToRollSideways: real
    const onStepFinished: StepEvent

    constructor (cachedTransform: CubeTransform, meshToRotate: Mesh, pathFinder: PathFinder, edgeSize: real,
                 speedUnitsPerSecond: real, speedMultiplier: real, sideRollChance: real, fixedDeltaTime: real)
      requires edgeSize != 0.0
      ensures fresh(roll) && fresh(roll.move) && fresh(onStepFinished)
      ensures roll.transform == cachedTransform && roll.mesh == meshToRotate && roll.move.pathFinder == pathFinder
      ensures roll.edgeSize == edgeSize && this.edgeSize == edgeSize && GetMaxStepDistance() == edgeSize
      ensures roll.rollAnglePerUpdate == RollAnglePerUpdate(edgeSize, speedUnitsPerSecond * speedMultiplier, fixedDeltaTime)
      ensures roll.rollDirection == Forward && chanceToRollSideways == sideRollChance
      ensures onStepFinished.subscribers == 0 && onStepFinished.notified == 0
    {
      this.edgeSize := edgeSize;
      var move := new AMove(pathFinder);
      roll := new RollMove(cachedTransform, meshToRotate, move, edgeSize,
                           RollAnglePerUpdate(edgeSize, speedUnitsPerSecond * speedMultiplier, fixedDeltaTime));
      chanceToRollSideways := sideRollChance;
      onStepFinished := new StepEvent();
    }

    function GetMaxStepDistance(): real
    {
      edgeSize
    }

    /** The roll directions this strategy ever uses */
    predicate Valid()
      reads roll
    {
      roll.rollDirection == Forward || roll.rollDirection == Left || roll.rollDirection == Right
    }

    /** One iteration of RunRoutine: roll; once the roll is over (landed or blocked), choose the
        next direction from the draws and raise the step-finished event. A roll that is still in
        flight or that threw leaves the loop where it is. */
    method RunOnce(worlds: nat -> (int -> Surface), frameCounts: nat -> int, rotation: (Vec3, real) -> (Vec3 -> Vec3),
                   frames: seq<real>, timeStep: real, sideDraw: real, leftRightDraw: real)
      returns (status: MoveStatus)
      requires Valid()
      modifies roll, roll.move, roll.move.pathFinder, roll.transform, roll.mesh, onStepFinished
      ensures Valid()
      ensures status != Faulted(NotImplemented)
      ensures status == Landed || status == Blocked ==>
        roll.rollDirection == NextDirection(sideDraw, leftRightDraw, chanceToRollSideways) &&
        onStepFinished.notified == old(onStepFinished.notified) + onStepFinished.subscribers
      ensures status == InFlight || status.Faulted? ==>
        roll.rollDirection == old(roll.rollDirection) && onStepFinished.notified == old(onStepFinished.notified)
      ensures onStepFinished.subscribers == old(onStepFinished.subscribers)
    {
      var polls;
      polls, status := roll.Execute(worlds, frameCounts, rotation, frames, timeStep);
      if status == InFlight || status.Faulted? {
        return;
      }
      var shouldRollSideWays := sideDraw < chanceToRollSideways;
      if shouldRollSideWays {
        roll.rollDirection := if leftRightDraw < 0.5 then Left else Right;
      } else {
        roll.rollDirection := Forward;
      }
      onStepFinished.Raise();
    }
  }

  /** Assets/Scripts/Movement/JumpStrategy.cs */
  class JumpStrategy {
    const jump: JumpMove
    const roll: RollMove
    const transform: CubeTransform
    const jumpChance: real
    const maxJumpDistance: real
    const onStepFinished: StepEvent

    constructor (cachedTransform: CubeTransform, meshToRotate: Mesh, pathFinder: PathFinder, edgeSize: real,
                 speedUnitsPerSecond: real, speedMultiplier: real, jumpForce: real, jumpAngle: real,
                 jumpChance: real, fixedDeltaTime: real, gravity: real, aim: (real, Vec3, Vec3) -> Vec3)
      requires edgeSize != 0.0 && gravity != 0.0
      ensures fresh(jump) && fresh(jump.move) && fresh(roll) && fresh(roll.move) && fresh(onStepFinished)
      ensures transform == cachedTransform && jump.transform == cachedTransform && roll.transform == cachedTransform
      ensures jump.mesh == meshToRotate && roll.mesh == meshToRotate
      ensures jump.move.pathFinder == pathFinder && roll.move.pathFinder == pathFinder
      ensures jump.jumpForce == jumpForce && jump.jumpAngle == jumpAngle && jump.gravity == gravity && jump.jumpForward
      ensures roll.edgeSize == edgeSize && roll.rollDirection == Forward
      ensures roll.rollAnglePerUpdate == RollAnglePerUpdate(edgeSize, speedUnitsPerSecond * speedMultiplier, fixedDeltaTime)
      ensures maxJumpDistance == MaxJumpDistance(aim, jumpAngle, jumpForce, gravity)
      ensures GetMaxStepDistance() == maxJumpDistance && this.jumpChance == jumpChance
      ensures onStepFinished.subscribers == 0 && onStepFinished.notified == 0
    {
      transform := cachedTransform;
      var jumpMove := new AMove(pathFinder);
      jump := new JumpMove(cachedTransform, meshToRotate, jumpMove, jumpForce, jumpAngle, gravity);
      var rollMove := new AMove(pathFinder);
      roll := new RollMove(cachedTransform, meshToRotate, rollMove, edgeSize,
                           RollAnglePerUpdate(edgeSize, speedUnitsPerSecond * speedMultiplier, fixedDeltaTime));
      maxJumpDistance := MaxJumpDistance(aim, jumpAngle, jumpForce, gravity);
      this.jumpChance := jumpChance;
      onStepFinished := new StepEvent();
    }

    function GetMaxStepDistance(): real
    {
      maxJumpDistance
    }

    /** The player, at the origin, lies strictly beyond one jump. */
    predicate IsPlayerOutOfJumpDistance()
      reads transform
    {
      SqrMagnitude(Neg(transform.position)) > maxJumpDistance * maxJumpDistance
    }

    predicate HasRandomChanceToJump(draw: real)
    {
      draw < jumpChance
    }

    predicate ShouldJump(draw: real)
      reads transform
    {
      IsPlayerOutOfJumpDistance() && HasRandomChanceToJump(draw)
    }

    /** A cube within one jump of the player never jumps, and with no jump chance a cube never
        jumps at all. */
    lemma JumpsOnlyWhenFarAndLucky(draw: real)
      requires 0.0 <= draw
      ensures SqrDist(transform.position, Zero) <= maxJumpDistance * maxJumpDistance ==> !ShouldJump(draw)
      ensures jumpChance <= 0.0 ==> !ShouldJump(draw)
      ensures ShouldJump(draw) <==> SqrDist(transform.position, Zero) > maxJumpDistance * maxJumpDistance && draw < jumpChance
    {
      var p := transform.position;
      assert Sub(p, Zero) == p;
      assert SqrMagnitude(Neg(p)) == SqrMagnitude(p);
    }

    /** The objects a move of this strategy works on */
    predicate Valid()
      reads this, jump, roll
    {
      jump.transform == transform && roll.transform == transform && jump.mesh == roll.mesh &&
      jump.move.pathFinder == roll.move.pathFinder && jump.gravity != 0.0 && roll.rollDirection == Forward
    }

    /** One iteration of RunRoutine: exactly one move, a jump when ShouldJump holds for the draw
        and a forward roll otherwise, then the step-finished event once the move is over. A jump
        waits without a timeout; `pollBudget` is the number of polls after the first its wait is
        given here. */
    method RunOnce(draw: real, aim: (real, Vec3, Vec3) -> Vec3, worlds: nat -> (int -> Surface), frameCounts: nat -> int,
                   pollBudget: nat, rotation: (Vec3, real) -> (Vec3 -> Vec3), frames: seq<real>, timeStep: real)
      returns (jumped: bool, status: MoveStatus)
      requires Valid()
      requires forall i :: 0 <= i < |frames| ==> frames[i] >= 0.0
      modifies jump, jump.move, roll, roll.move, jump.move.pathFinder, transform, jump.mesh, onStepFinished
      ensures Valid()
      ensures jumped == old(ShouldJump(draw))
      ensures jumped ==> status != Blocked
      ensures jumped ==> (status == Waiting <==>
        forall i :: 0 <= i <= pollBudget ==> old(jump.move.Answers(jump.PlannedPath(aim), worlds))(i) == Ok(false))
      ensures !jumped ==> status != Waiting
      ensures status != Faulted(NotImplemented)
      ensures status == Landed || status == Blocked ==>
        onStepFinished.notified == old(onStepFinished.notified) + onStepFinished.subscribers
      ensures status == Waiting || status == InFlight || status.Faulted? ==>
        onStepFinished.notified == old(onStepFinished.notified)
    {
      jumped := ShouldJump(draw);
      var polls;
      if jumped {
        polls, status := jump.Execute(aim, worlds, frameCounts, pollBudget, frames);
      } else {
        polls, status := roll.Execute(worlds, frameCounts, rotation, frames, timeStep);
      }
      if status == Waiting || status == InFlight || status.Faulted? {
        return;
      }
      onStepFinished.Raise();
    }
  }
}
