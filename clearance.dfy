/** AMove: the clearance wait every move starts with. The move polls its PathFinder every quarter
    second until the planned path is free or the timeout has passed, then commits the path or
    reports failure. A negative timeout waits for as long as it takes.

    The polls are the PathFinder's own `IsPathFree` queries; `worlds(k)` is what the nearby cubes
    expose at the k-th poll and `frames(k)` the frame number of that poll. Poll k happens at
    elapsed time k/4 seconds. */
module Clearance {
  import opened Geometry
  import opened Outcomes
  import opened Overlap
  import opened Neighbours
  import opened PathFinding

  const PATH_CHECK_INTERVAL_SECONDS: real := 0.25

  /** The time counted as elapsed when poll `k` is made */
  function Elapsed(k: nat): real
  {
    k as real * PATH_CHECK_INTERVAL_SECONDS
  }

  /** The wait ends at poll `k`: the answer is not "blocked" (free, or an exception), or a
      non-negative timeout has been exceeded. */
  predicate Stops(answers: nat -> Result<bool>, timeOut: real, k: nat)
  {
    answers(k) != Ok(false) || (0.0 <= timeOut && timeOut < Elapsed(k))
  }

  /** `k` is the poll at which the wait ends */
  predicate FirstStop(answers: nat -> Result<bool>, timeOut: real, k: nat)
  {
    Stops(answers, timeOut, k) && forall j :: 0 <= j < k ==> !Stops(answers, timeOut, j)
  }

  /** The failure test of Assets/Scripts/Movement/AMove.cs: only a positive timeout can fail. */
  predicate TimedOut(timeOut: real, k: nat)
  {
    0.0 < timeOut && timeOut <= Elapsed(k)
  }

  /** The failure test of the older AMove in Assets/Cubes/AMovementStrategy.cs. */
  predicate DraftTimedOut(timeOut: real, k: nat)
  {
    timeOut <= Elapsed(k)
  }

  /** The wait ends at a well-defined poll whenever it can end at all: with a non-negative
      timeout, or when some poll does not answer "blocked". */
  lemma {:induction false} FirstStopExists(answers: nat -> Result<bool>, timeOut: real)
    requires 0.0 <= timeOut || exists j: nat :: answers(j) != Ok(false)
    ensures exists k: nat :: FirstStop(answers, timeOut, k)
  {
    var bound: nat;
    if 0.0 <= timeOut {
      bound := (4.0 * timeOut).Floor + 1;
      assert Stops(answers, timeOut, bound);
    } else {
      var j: nat :| answers(j) != Ok(false);
      bound := j;
    }
    var k: nat := 0;
    while !Stops(answers, timeOut, k)
      invariant k <= bound
      invariant forall i :: 0 <= i < k ==> !Stops(answers, timeOut, i)
      decreases bound - k
    {
      k := k + 1;
    }
    assert FirstStop(answers, timeOut, k);
  }

  /** The wait ends at one poll only. */
  lemma FirstStopIsUnique(answers: nat -> Result<bool>, timeOut: real, k1: nat, k2: nat)
    requires FirstStop(answers, timeOut, k1) && FirstStop(answers, timeOut, k2)
    ensures k1 == k2
  {
  }

  /** With a non-negative timeout the last poll happens at most one interval after it. For the
      two-second wait of a roll this allows ten polls, the last at 2.25 seconds. */
  lemma PollBound(answers: nat -> Result<bool>, timeOut: real, k: nat)
    requires 0.0 <= timeOut && FirstStop(answers, timeOut, k)
    ensures Elapsed(k) <= timeOut + PATH_CHECK_INTERVAL_SECONDS
    ensures timeOut == 2.0 ==> k <= 9
  {
    if k > 0 {
      assert !Stops(answers, timeOut, k - 1);
    }
  }

  /** With a positive timeout, a wait that ends without an exception succeeds exactly when some
      poll made strictly before the timeout found the path free. A path found free exactly at the
      timeout, or by the extra poll after it, is still reported as a failure. */
  lemma SuccessIffFreeBeforeTimeOut(answers: nat -> Result<bool>, timeOut: real, k: nat)
    requires 0.0 < timeOut && FirstStop(answers, timeOut, k) && answers(k).Ok?
    ensures !TimedOut(timeOut, k) <==> exists j: nat :: Elapsed(j) < timeOut && answers(j) == Ok(true)
  {
    if !TimedOut(timeOut, k) {
      assert Elapsed(k) < timeOut && answers(k) != Ok(false);
      assert answers(k).value;
    }
    if exists j: nat :: Elapsed(j) < timeOut && answers(j) == Ok(true) {
      var j: nat :| Elapsed(j) < timeOut && answers(j) == Ok(true);
      assert j < k ==> !Stops(answers, timeOut, j);
      assert Elapsed(k) <= Elapsed(j);
    }
  }

  /** The older failure test reports every wait without a positive timeout as a failure,
      including the endless wait of a jump (timeout -1), even when the path was found free. */
  lemma DraftDefaultTimeOutAlwaysFails(answers: nat -> Result<bool>, k: nat)
    requires FirstStop(answers, -1.0, k) && answers(k) == Ok(true)
    ensures DraftTimedOut(-1.0, k)
    ensures !TimedOut(-1.0, k)
  {
  }

  /** A poll made within a non-negative timeout is followed by at most ⌊4·timeOut⌋ + 1 polls. */
  lemma WithinBound(k: nat, timeOut: real)
    requires 0.0 <= timeOut && Elapsed(k) <= timeOut
    ensures k + 1 <= (4.0 * timeOut).Floor + 1
  {
    assert k as real <= 4.0 * timeOut;
  }

  /** Where a wait stands once the polls it was given are used up: still waiting for the path,
      or ended with the outcome of its last poll (success or failure, or an exception). */
  datatype WaitState = StillWaiting | Ended(result: Result<bool>)

  /** A wait that has made polls 0 to k, each but the last without stopping, and has either
      stopped at poll k or used up its budget there, is still waiting exactly when none of the
      polls up to the budget stops it. Without a timeout that means every one of them found the
      path blocked; a budget that covers a non-negative timeout always sees the wait end. */
  lemma {:induction false} WaitingIffNoStop(answers: nat -> Result<bool>, timeOut: real, k: nat, budget: nat)
    requires k <= budget && forall i :: 0 <= i < k ==> !Stops(answers, timeOut, i)
    requires Stops(answers, timeOut, k) || k == budget
    ensures !Stops(answers, timeOut, k) <==> forall i :: 0 <= i <= budget ==> !Stops(answers, timeOut, i)
    ensures timeOut < 0.0 ==>
      (!Stops(answers, timeOut, k) <==> forall i :: 0 <= i <= budget ==> answers(i) == Ok(false))
    ensures 0.0 <= timeOut && (4.0 * timeOut).Floor + 1 <= budget ==> Stops(answers, timeOut, k)
  {
    if 0.0 <= timeOut && (4.0 * timeOut).Floor + 1 <= budget && !Stops(answers, timeOut, k) {
      WithinBound(k, timeOut);
    }
    if timeOut < 0.0 {
      if forall i :: 0 <= i <= budget ==> answers(i) == Ok(false) {
        assert answers(k) == Ok(false);
      }
      if !Stops(answers, timeOut, k) {
        forall i | 0 <= i <= budget
          ensures answers(i) == Ok(false)
        {
          assert !Stops(answers, timeOut, i);
        }
      }
    }
  }

  /** The part every move shares: the path finder it reserves through and the outcome of its
      last wait. */
  class AMove {
    const pathFinder: PathFinder
    var lastPathFindWasSuccessful: bool

    constructor (pathFinder: PathFinder)
      ensures this.pathFinder == pathFinder && !lastPathFindWasSuccessful
    {
      this.pathFinder := pathFinder;
      lastPathFindWasSuccessful := false;
    }

    /** The answers the successive polls of `path` receive; a poll can only throw on a
        neighbour whose path was cleared. */
    function Answers(path: seq<Vec3>, worlds: nat -> (int -> Surface)): (r: nat -> Result<bool>)
      reads pathFinder, pathFinder.tracker, pathFinder.tracker.neighbours
      ensures forall k: nat :: r(k).Fail? ==> r(k).fault == NullReference
    {
      var cubes := pathFinder.tracker.neighbours.cubes;
      var mySize := pathFinder.mySize;
      var answers := (k: nat) => PathFree(Lookup(cubes, worlds(k)), path, mySize);
      assert forall k: nat :: answers(k) == PathFree(Lookup(cubes, worlds(k)), path, mySize);
      answers
    }

    /** One poll: the path finder's answer for the world the poll sees */
    method PollOnce(path: seq<Vec3>, world: int -> Surface, frame: int, ghost cubes: seq<int>) returns (answer: Result<bool>)
      requires pathFinder.tracker.neighbours.cubes == cubes
      modifies pathFinder
      ensures answer == PathFree(Lookup(cubes, world), path, pathFinder.mySize)
      ensures pathFinder.tracker.neighbours.cubes == cubes
      ensures pathFinder.Path == old(pathFinder.Path) && pathFinder.ProvisionalPath == path
    {
      answer := pathFinder.IsPathFree(path, world, frame);
    }

    /** The polling loop: asks the path finder until the wait ends or the `budget` polls after the
        first are used up, and reports the poll it stopped at, that poll's answer and whether the
        wait is still going on. */
    method Poll(path: seq<Vec3>, worlds: nat -> (int -> Surface), frames: nat -> int, timeOut: real, budget: nat)
      returns (k: nat, answer: Result<bool>, waiting: bool)
      modifies pathFinder
      ensures k <= budget && answer == old(Answers(path, worlds))(k)
      ensures forall i :: 0 <= i < k ==> !Stops(old(Answers(path, worlds)), timeOut, i)
      ensures waiting <==> !Stops(old(Answers(path, worlds)), timeOut, k)
      ensures waiting ==> k == budget
      ensures !waiting ==> FirstStop(old(Answers(path, worlds)), timeOut, k)
      ensures pathFinder.Path == old(pathFinder.Path) && pathFinder.ProvisionalPath == path
    {
      ghost var answers := Answers(path, worlds);
      ghost var cubes := pathFinder.tracker.neighbours.cubes;
      k := 0;
      var elapsed := 0.0;
      answer := PollOnce(path, worlds(0), frames(0), cubes);
      assert answer == answers(0);
      while answer == Ok(false) && (timeOut < 0.0 || elapsed <= timeOut) && k < budget
        invariant elapsed == Elapsed(k) && k <= budget
        invariant answer == answers(k)
        invariant forall i :: 0 <= i < k ==> !Stops(answers, timeOut, i)
        invariant pathFinder.tracker.neighbours.cubes == cubes
        invariant pathFinder.Path == old(pathFinder.Path) && pathFinder.ProvisionalPath == path
        decreases budget - k
      {
        assert !Stops(answers, timeOut, k);
        k := k + 1;
        elapsed := elapsed + PATH_CHECK_INTERVAL_SECONDS;
        answer := PollOnce(path, worlds(k), frames(k), cubes);
        assert answer == answers(k);
      }
      waiting := answer == Ok(false) && (timeOut < 0.0 || elapsed <= timeOut);
      assert waiting <==> !Stops(answers, timeOut, k);
    }

    /** WaitUntilPathFreeOrTimeOutRoutine of Assets/Scripts/Movement/AMove.cs, given `budget` polls
        after the first. An exception raised by a poll ends the wait with nothing recorded;
        otherwise a wait that did not run out of its positive timeout commits the path. Without a
        timeout the wait goes on for as long as the path stays blocked. */
    method WaitUntilPathFreeOrTimeOut(path: seq<Vec3>, worlds: nat -> (int -> Surface), frames: nat -> int,
                                      timeOut: real, budget: nat)
      returns (k: nat, w: WaitState)
      modifies this, pathFinder
      ensures k <= budget
      ensures w.StillWaiting? <==> forall i :: 0 <= i <= budget ==> !Stops(old(Answers(path, worlds)), timeOut, i)
      ensures timeOut < 0.0 ==>
        (w.StillWaiting? <==> forall i :: 0 <= i <= budget ==> old(Answers(path, worlds))(i) == Ok(false))
      ensures 0.0 <= timeOut && (4.0 * timeOut).Floor + 1 <= budget ==> w.Ended?
      ensures w.StillWaiting? ==>
        k == budget && pathFinder.Path == old(pathFinder.Path) &&
        lastPathFindWasSuccessful == old(lastPathFindWasSuccessful)
      ensures w.Ended? ==> FirstStop(old(Answers(path, worlds)), timeOut, k)
      ensures w.Ended? && old(Answers(path, worlds))(k).Fail? ==>
        w.result == Fail(old(Answers(path, worlds))(k).fault) && pathFinder.Path == old(pathFinder.Path) &&
        lastPathFindWasSuccessful == old(lastPathFindWasSuccessful)
      ensures w.Ended? && old(Answers(path, worlds))(k).Ok? ==>
        w.result == Ok(!TimedOut(timeOut, k)) && lastPathFindWasSuccessful == !TimedOut(timeOut, k) &&
        pathFinder.Path == (if TimedOut(timeOut, k) then old(pathFinder.Path) else Some(path))
      ensures timeOut <= 0.0 && w.Ended? && w.result.Ok? ==> w.result.value
      ensures timeOut < 0.0 && w.Ended? && w.result.Ok? ==> old(Answers(path, worlds))(k) == Ok(true)
      ensures timeOut == 2.0 && w.Ended? ==> k <= 9
      ensures pathFinder.ProvisionalPath == path
    {
      ghost var answers := Answers(path, worlds);
      var answer, waiting;
      k, answer, waiting := Poll(path, worlds, frames, timeOut, budget);
      WaitingIffNoStop(answers, timeOut, k, budget);
      if waiting {
        return k, StillWaiting;
      }
      if timeOut < 0.0 && answer.Ok? {
        assert answer.value;
      }
      if timeOut >= 0.0 {
        PollBound(answers, timeOut, k);
      }
      if answer.Fail? {
        return k, Ended(Fail(answer.fault));
      }
      if timeOut > 0.0 && timeOut <= Elapsed(k) {
        lastPathFindWasSuccessful := false;
      } else {
        pathFinder.Path := Some(path);
        lastPathFindWasSuccessful := true;
      }
      w := Ended(Ok(lastPathFindWasSuccessful));
    }

    /** The same wait with the failure test of the older AMove in
        Assets/Cubes/AMovementStrategy.cs. */
    method DraftWaitUntilPathFreeOrTimeOut(path: seq<Vec3>, worlds: nat -> (int -> Surface), frames: nat -> int,
                                           timeOut: real, budget: nat)
      returns (k: nat, w: WaitState)
      modifies this, pathFinder
      ensures k <= budget
      ensures timeOut < 0.0 ==>
        (w.StillWaiting? <==> forall i :: 0 <= i <= budget ==> old(Answers(path, worlds))(i) == Ok(false))
      ensures w.StillWaiting? ==>
        k == budget && pathFinder.Path == old(pathFinder.Path) &&
        lastPathFindWasSuccessful == old(lastPathFindWasSuccessful)
      ensures w.Ended? ==> FirstStop(old(Answers(path, worlds)), timeOut, k)
      ensures w.Ended? && old(Answers(path, worlds))(k).Fail? ==>
        w.result == Fail(old(Answers(path, worlds))(k).fault) && pathFinder.Path == old(pathFinder.Path) &&
        lastPathFindWasSuccessful == old(lastPathFindWasSuccessful)
      ensures w.Ended? && old(Answers(path, worlds))(k).Ok? ==>
        w.result == Ok(!DraftTimedOut(timeOut, k)) && lastPathFindWasSuccessful == !DraftTimedOut(timeOut, k) &&
        pathFinder.Path == (if DraftTimedOut(timeOut, k) then old(pathFinder.Path) else Some(path))
      ensures timeOut <= 0.0 ==> pathFinder.Path == old(pathFinder.Path)
      ensures pathFinder.ProvisionalPath == path
    {
      ghost var answers := Answers(path, worlds);
      var answer, waiting;
      k, answer, waiting := Poll(path, worlds, frames, timeOut, budget);
      WaitingIffNoStop(answers, timeOut, k, budget);
      if waiting {
        return k, StillWaiting;
      }
      if answer.Fail? {
        return k, Ended(Fail(answer.fault));
      }
      if timeOut <= Elapsed(k) {
        lastPathFindWasSuccessful := false;
      } else {
        pathFinder.Path := Some(path);
        lastPathFindWasSuccessful := true;
      }
      w := Ended(Ok(lastPathFindWasSuccessful));
    }
  }
}
