/** PathFinder: an enemy cube's reservation of the points it is about to move through. A move
    first asks every nearby cube whether the planned points are free; once they are, it commits
    them as its `Path`, which the nearby cubes then respect in turn. The nearby cubes are those
    tracked by the cube's NearbyCubeTracker; `world` gives, for each tracked cube, what its own
    PathFinder exposes. */
module PathFinding {
  import opened Geometry
  import opened Outcomes
  import opened Overlap
  import opened Neighbours
  import opened Trackers

  /** The names of the given cubes, in order */
  function Names(nearby: seq<Surface>): (r: seq<string>)
    ensures |r| == |nearby| && forall k :: 0 <= k < |nearby| ==> r[k] == nearby[k].name
  {
    seq(|nearby|, k requires 0 <= k < |nearby| => nearby[k].name)
  }

  /** Two cubes whose bodies (spheres of half their scale) intersect. */
  predicate Touching(other: Surface, position: Vec3, scale: real)
  {
    SqrDist(other.position, position) < (other.scale / 2.0 + scale / 2.0) * (other.scale / 2.0 + scale / 2.0)
  }

  /** The answer to "is my position in another cube's path": whether some neighbour claims it,
      and that neighbour's name. */
  datatype Claim = Claim(found: bool, name: string)

  /** The claim on a position: the first neighbour whose reservation covers it. */
  function PositionClaim(nearby: seq<Surface>, position: Vec3, mySize: real): Result<Claim>
  {
    match FirstBlocker(nearby, [position], mySize)
    case Fail(f) => Fail(f)
    case Ok(None) => Ok(Claim(false, ""))
    case Ok(Some(k)) => Ok(Claim(true, nearby[k].name))
  }

  /** A position is claimed exactly when some neighbour covers it, when all neighbours have
      committed paths; the claimant is a neighbour that covers it. */
  lemma PositionClaimMeaning(nearby: seq<Surface>, position: Vec3, mySize: real)
    requires forall k :: 0 <= k < |nearby| ==> nearby[k].path.Some?
    ensures PositionClaim(nearby, position, mySize).Ok?
    ensures PositionClaim(nearby, position, mySize).value.found <==>
      exists k :: 0 <= k < |nearby| &&
        Covers(nearby[k].position, nearby[k].path.value, position, Limit(mySize, nearby[k].size), true)
    ensures PositionClaim(nearby, position, mySize).value.found ==>
      exists k :: 0 <= k < |nearby| && nearby[k].name == PositionClaim(nearby, position, mySize).value.name &&
        Covers(nearby[k].position, nearby[k].path.value, position, Limit(mySize, nearby[k].size), true)
  {
    forall k | 0 <= k < |nearby|
      ensures NeighbourScan(nearby[k], [position], mySize) ==
        Ok(Covers(nearby[k].position, nearby[k].path.value, position, Limit(mySize, nearby[k].size), true))
    {
      var n := nearby[k];
      OverlapScanAnswersQuery(n.position, n.path.value, [position], Limit(mySize, n.size), true);
      assert AnyCovered(n.position, n.path.value, [position], Limit(mySize, n.size), true)
        == Covers(n.position, n.path.value, position, Limit(mySize, n.size), true) by {
        assert [position][0] == position;
      }
    }
  }

  class PathFinder {
    /** The committed path: null after a move completes */
    var Path: Option<seq<Vec3>>
    /** The path last asked about */
    var ProvisionalPath: seq<Vec3>
    /** Debug record: the names of the cubes consulted by the last path query, and its frame */
    var checkedCubes: seq<string>
    var lastFrameCheck: int

    const tracker: NearbyCubeTracker
    const transform: CubeTransform
    /** The radius this cube reserves around itself and its path: half its body diagonal */
    const mySize: real

    constructor (cachedTransform: CubeTransform, tracker: NearbyCubeTracker, cubeHalfDiagonal: real)
      ensures transform == cachedTransform && this.tracker == tracker && mySize == cubeHalfDiagonal
      ensures Path == Some([]) && ProvisionalPath == [] && checkedCubes == [] && lastFrameCheck == 0
    {
      transform := cachedTransform;
      this.tracker := tracker;
      mySize := cubeHalfDiagonal;
      Path := Some([]);
      ProvisionalPath := [];
      checkedCubes := [];
      lastFrameCheck := 0;
    }

    /** What this PathFinder exposes to its neighbours */
    function AsSurface(name: string): Surface
      reads this, transform
    {
      Surface(name, transform.position, transform.scale, mySize, Path)
    }

    function Nearby(world: int -> Surface): seq<Surface>
      reads this, tracker, tracker.neighbours
    {
      Lookup(tracker.neighbours.cubes, world)
    }

    /** Whether this cube's body touches some nearby cube's body (strictly closer than the sum
        of their half scales). */
    method AmIOverlappingAnotherCube(world: int -> Surface) returns (r: bool)
      ensures r <==> (exists k :: 0 <= k < |tracker.neighbours.cubes| &&
                        Touching(world(tracker.neighbours.cubes[k]), transform.position, transform.scale))
    {
      var cubes := tracker.neighbours.cubes;
      var k := 0;
      while k < |cubes|
        invariant 0 <= k <= |cubes|
        invariant forall i :: 0 <= i < k ==> !Touching(world(cubes[i]), transform.position, transform.scale)
      {
        var other := world(cubes[k]);
        var dist := SqrDist(other.position, transform.position);
        var min := (other.scale / 2.0 + transform.scale / 2.0) * (other.scale / 2.0 + transform.scale / 2.0);
        if dist < min {
          return true;
        }
        k := k + 1;
      }
      return false;
    }

    /** Whether some nearby cube's reservation covers this cube's current position, and the
        name of the first such cube ("" when there is none). */
    method IsMyPositionInAnotherPath(world: int -> Surface) returns (r: Result<Claim>)
      ensures r == PositionClaim(Nearby(world), transform.position, mySize)
    {
      var blocker := ScanNeighbours(Nearby(world), [transform.position], mySize);
      match blocker {
        case Fail(f) => r := Fail(f);
        case Ok(None) => r := Ok(Claim(false, ""));
        case Ok(Some(k)) => r := Ok(Claim(true, Nearby(world)[k].name));
      }
    }

    /** Records the planned path as provisional and the consulted cubes, then asks every nearby
        cube in turn whether it overlaps the planned points. */
    method IsPathFree(path: seq<Vec3>, world: int -> Surface, frameCount: int) returns (r: Result<bool>)
      modifies this
      ensures ProvisionalPath == path && checkedCubes == Names(Nearby(world)) && lastFrameCheck == frameCount
      ensures Path == old(Path)
      ensures r == PathFree(Nearby(world), path, mySize)
    {
      ProvisionalPath := path;
      var nearby := Nearby(world);
      checkedCubes := [];
      var k := 0;
      while k < |nearby|
        invariant 0 <= k <= |nearby| && nearby == Nearby(world)
        invariant checkedCubes == Names(nearby[..k])
        invariant ProvisionalPath == path && Path == old(Path)
      {
        checkedCubes := checkedCubes + [nearby[k].name];
        k := k + 1;
        assert nearby[..k] == nearby[..k - 1] + [nearby[k - 1]];
      }
      assert nearby[..k] == nearby;
      lastFrameCheck := frameCount;
      var blocker := ScanNeighbours(nearby, path, mySize);
      match blocker {
        case Fail(f) => r := Fail(f);
        case Ok(b) => r := Ok(b.None?);
      }
    }

    /** A neighbour's question: do the given points come within this cube's reservation, around
        its position or its committed path? */
    method OverlapsAnyPositions(positions: seq<Vec3>, otherCubeSize: real) returns (r: Result<bool>)
      ensures r == OverlapScan(transform.position, Path, positions, Limit(otherCubeSize, mySize), true)
    {
      r := ScanPositions(transform.position, Path, positions, Limit(otherCubeSize, mySize), true);
    }
  }
}
