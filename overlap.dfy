/** The proximity test behind movement reservation. A cube "covers" a point when the point lies
    within the combined radius of that cube and the asking cube, either around the cube's own
    position or around one of the points of the path it has committed to. A move may go ahead only
    when no nearby cube covers any point of the move's planned path. */
module Overlap {
  import opened Geometry
  import opened Outcomes

  /** Square of the combined radius of two cubes: the overlap threshold. */
  function Limit(otherSize: real, mySize: real): real
  {
    (otherSize + mySize) * (otherSize + mySize)
  }

  /** `b` lies within the threshold of `a`; `inclusive` selects `<=` rather than `<`. */
  predicate Near(a: Vec3, b: Vec3, limit: real, inclusive: bool)
  {
    if inclusive then SqrDist(a, b) <= limit else SqrDist(a, b) < limit
  }

  /** A cube standing at `own` whose committed path is `path` covers the point `p`. */
  predicate Covers(own: Vec3, path: seq<Vec3>, p: Vec3, limit: real, inclusive: bool)
  {
    Near(own, p, limit, inclusive) || exists j :: 0 <= j < |path| && Near(path[j], p, limit, inclusive)
  }

  /** Reference definition of the overlap query: some candidate point is covered. */
  predicate AnyCovered(own: Vec3, path: seq<Vec3>, positions: seq<Vec3>, limit: real, inclusive: bool)
  {
    exists i :: 0 <= i < |positions| && Covers(own, path, positions[i], limit, inclusive)
  }

  /** The overlap query in the order the code evaluates it: for each candidate point, first the
      cube's own position, then every point of its committed path. The path is a nullable list:
      reaching it while it is null raises a NullReferenceException. */
  function OverlapScan(own: Vec3, path: Option<seq<Vec3>>, positions: seq<Vec3>, limit: real, inclusive: bool): (r: Result<bool>)
    ensures r.Fail? ==> r.fault == NullReference && path.None?
  {
    if positions == [] then Ok(false)
    else if Near(own, positions[0], limit, inclusive) then Ok(true)
    else if path.None? then Fail(NullReference)
    else if exists j :: 0 <= j < |path.value| && Near(path.value[j], positions[0], limit, inclusive) then Ok(true)
    else OverlapScan(own, path, positions[1..], limit, inclusive)
  }

  /** With a committed path the scan never faults and answers the reference query. */
  lemma {:induction false} OverlapScanAnswersQuery(own: Vec3, path: seq<Vec3>, positions: seq<Vec3>, limit: real, inclusive: bool)
    ensures OverlapScan(own, Some(path), positions, limit, inclusive) == Ok(AnyCovered(own, path, positions, limit, inclusive))
  {
    if positions != [] {
      OverlapScanAnswersQuery(own, path, positions[1..], limit, inclusive);
      if !Covers(own, path, positions[0], limit, inclusive) {
        assert AnyCovered(own, path, positions, limit, inclusive) == AnyCovered(own, path, positions[1..], limit, inclusive) by {
          if AnyCovered(own, path, positions, limit, inclusive) {
            var i :| 0 <= i < |positions| && Covers(own, path, positions[i], limit, inclusive);
            assert positions[1..][i - 1] == positions[i];
          }
          if AnyCovered(own, path, positions[1..], limit, inclusive) {
            var i :| 0 <= i < |positions[1..]| && Covers(own, path, positions[1..][i], limit, inclusive);
            assert positions[i + 1] == positions[1..][i];
          }
        }
      } else {
        assert Covers(own, path, positions[0], limit, inclusive);
      }
    }
  }

  /** A cube whose path was cleared to null answers only when its own position already covers the
      first candidate point (or there are no candidates); otherwise the query faults. */
  lemma ClearedPathFaults(own: Vec3, positions: seq<Vec3>, limit: real, inclusive: bool)
    requires positions != [] && !Near(own, positions[0], limit, inclusive)
    ensures OverlapScan(own, None, positions, limit, inclusive) == Fail(NullReference)
  {
  }

  /** Growing the threshold never turns a detected overlap into a non-overlap. */
  lemma {:induction false} OverlapScanMonotone(own: Vec3, path: seq<Vec3>, positions: seq<Vec3>, limit: real, larger: real, inclusive: bool)
    requires limit <= larger
    requires OverlapScan(own, Some(path), positions, limit, inclusive) == Ok(true)
    ensures OverlapScan(own, Some(path), positions, larger, inclusive) == Ok(true)
  {
    OverlapScanAnswersQuery(own, path, positions, limit, inclusive);
    OverlapScanAnswersQuery(own, path, positions, larger, inclusive);
    var i :| 0 <= i < |positions| && Covers(own, path, positions[i], limit, inclusive);
    if !Near(own, positions[i], limit, inclusive) {
      var j :| 0 <= j < |path| && Near(path[j], positions[i], limit, inclusive);
      assert Near(path[j], positions[i], larger, inclusive);
    }
    assert Covers(own, path, positions[i], larger, inclusive);
  }

  /** An overlap under the strict test is an overlap under the inclusive test; a point at exactly
      the combined radius overlaps only under the inclusive test. */
  lemma StrictImpliesInclusive(own: Vec3, path: seq<Vec3>, positions: seq<Vec3>, limit: real)
    requires AnyCovered(own, path, positions, limit, false)
    ensures AnyCovered(own, path, positions, limit, true)
  {
    var i :| 0 <= i < |positions| && Covers(own, path, positions[i], limit, false);
    if !Near(own, positions[i], limit, false) {
      var j :| 0 <= j < |path| && Near(path[j], positions[i], limit, false);
      assert Near(path[j], positions[i], limit, true);
    }
    assert Covers(own, path, positions[i], limit, true);
  }

  lemma BoundaryPointDiffers()
    ensures AnyCovered(Zero, [], [Vec3(2.0, 0.0, 0.0)], Limit(1.0, 1.0), true)
    ensures !AnyCovered(Zero, [], [Vec3(2.0, 0.0, 0.0)], Limit(1.0, 1.0), false)
  {
    assert Covers(Zero, [], [Vec3(2.0, 0.0, 0.0)][0], Limit(1.0, 1.0), true);
  }

  /** The nested loops of the overlap query: outer over the candidate points, inner over the
      committed path. */
  method ScanPositions(own: Vec3, path: Option<seq<Vec3>>, positions: seq<Vec3>, limit: real, inclusive: bool) returns (r: Result<bool>)
    ensures r == OverlapScan(own, path, positions, limit, inclusive)
  {
    var i := 0;
    while i < |positions|
      invariant 0 <= i <= |positions|
      invariant OverlapScan(own, path, positions, limit, inclusive) == OverlapScan(own, path, positions[i..], limit, inclusive)
    {
      var pos := positions[i];
      if Near(own, pos, limit, inclusive) {
        return Ok(true);
      }
      if path.None? {
        return Fail(NullReference);
      }
      var points := path.value;
      var j := 0;
      while j < |points|
        invariant 0 <= j <= |points|
        invariant forall m :: 0 <= m < j ==> !Near(points[m], pos, limit, inclusive)
      {
        if Near(points[j], pos, limit, inclusive) {
          return Ok(true);
        }
        j := j + 1;
      }
      assert positions[i..][1..] == positions[i + 1..];
      i := i + 1;
    }
    return Ok(false);
  }

  /** What a PathFinder exposes to its neighbours: its name, position, scale, the radius it
      reserves around itself, and its committed path (null after a move). */
  datatype Surface = Surface(name: string, position: Vec3, scale: real, size: real, path: Option<seq<Vec3>>)

  /** One neighbour's answer to "do you overlap any of these points", asked by a cube of size
      `mySize`. */
  function NeighbourScan(n: Surface, candidate: seq<Vec3>, mySize: real): Result<bool>
  {
    OverlapScan(n.position, n.path, candidate, Limit(mySize, n.size), true)
  }

  /** The first neighbour, in list order, that overlaps the candidate points; a fault raised by an
      earlier neighbour ends the scan. */
  function FirstBlocker(nearby: seq<Surface>, candidate: seq<Vec3>, mySize: real): (r: Result<Option<nat>>)
    ensures r.Ok? && r.value.Some? ==> r.value.value < |nearby| && NeighbourScan(nearby[r.value.value], candidate, mySize) == Ok(true)
    ensures r.Ok? && r.value.Some? ==> forall i :: 0 <= i < r.value.value ==> NeighbourScan(nearby[i], candidate, mySize) == Ok(false)
    ensures r.Ok? && r.value.None? ==> forall i :: 0 <= i < |nearby| ==> NeighbourScan(nearby[i], candidate, mySize) == Ok(false)
    ensures r.Fail? ==> exists k :: 0 <= k < |nearby| && NeighbourScan(nearby[k], candidate, mySize) == Fail(r.fault)
  {
    if nearby == [] then Ok(None)
    else match NeighbourScan(nearby[0], candidate, mySize)
      case Fail(f) => Fail(f)
      case Ok(true) => Ok(Some(0))
      case Ok(false) =>
        match FirstBlocker(nearby[1..], candidate, mySize)
        case Fail(f) => Fail(f)
        case Ok(None) => Ok(None)
        case Ok(Some(k)) => Ok(Some(k + 1))
  }

  /** Whether the planned points are free of every neighbour, or the fault raised on the way. */
  function PathFree(nearby: seq<Surface>, candidate: seq<Vec3>, mySize: real): (r: Result<bool>)
    ensures r.Fail? ==> r.fault == NullReference && exists k :: 0 <= k < |nearby| && nearby[k].path.None?
  {
    match FirstBlocker(nearby, candidate, mySize)
    case Fail(f) => Fail(f)
    case Ok(blocker) => Ok(blocker.None?)
  }

  /** When every neighbour has a committed path, the planned points are free exactly when no
      neighbour covers any of them. */
  lemma PathFreeWithCommittedPaths(nearby: seq<Surface>, candidate: seq<Vec3>, mySize: real)
    requires forall k :: 0 <= k < |nearby| ==> nearby[k].path.Some?
    ensures PathFree(nearby, candidate, mySize) ==
      Ok(forall k :: 0 <= k < |nearby| ==>
        !AnyCovered(nearby[k].position, nearby[k].path.value, candidate, Limit(mySize, nearby[k].size), true))
  {
    forall k | 0 <= k < |nearby|
      ensures NeighbourScan(nearby[k], candidate, mySize) ==
        Ok(AnyCovered(nearby[k].position, nearby[k].path.value, candidate, Limit(mySize, nearby[k].size), true))
    {
      OverlapScanAnswersQuery(nearby[k].position, nearby[k].path.value, candidate, Limit(mySize, nearby[k].size), true);
    }
  }

  /** The loop over the nearby cubes, asking each in turn. */
  method ScanNeighbours(nearby: seq<Surface>, candidate: seq<Vec3>, mySize: real) returns (r: Result<Option<nat>>)
    ensures r == FirstBlocker(nearby, candidate, mySize)
  {
    var k := 0;
    while k < |nearby|
      invariant 0 <= k <= |nearby|
      invariant forall i :: 0 <= i < k ==> NeighbourScan(nearby[i], candidate, mySize) == Ok(false)
    {
      var n := nearby[k];
      var overlaps := ScanPositions(n.position, n.path, candidate, Limit(mySize, n.size), true);
      match overlaps {
        case Fail(f) =>
          FirstBlockerAt(nearby, candidate, mySize, k);
          return Fail(f);
        case Ok(true) =>
          FirstBlockerAt(nearby, candidate, mySize, k);
          return Ok(Some(k));
        case Ok(false) =>
      }
      k := k + 1;
    }
    FirstBlockerAt(nearby, candidate, mySize, |nearby|);
    return Ok(None);
  }

  /** The scan result is decided by the first neighbour that does not answer "no overlap". */
  lemma {:induction false} FirstBlockerAt(nearby: seq<Surface>, candidate: seq<Vec3>, mySize: real, k: nat)
    requires k <= |nearby|
    requires forall i :: 0 <= i < k ==> NeighbourScan(nearby[i], candidate, mySize) == Ok(false)
    ensures k == |nearby| ==> FirstBlocker(nearby, candidate, mySize) == Ok(None)
    ensures k < |nearby| && NeighbourScan(nearby[k], candidate, mySize).Fail? ==>
      FirstBlocker(nearby, candidate, mySize) == Fail(NeighbourScan(nearby[k], candidate, mySize).fault)
    ensures k < |nearby| && NeighbourScan(nearby[k], candidate, mySize) == Ok(true) ==>
      FirstBlocker(nearby, candidate, mySize) == Ok(Some(k))
  {
    if k > 0 {
      FirstBlockerAt(nearby[1..], candidate, mySize, k - 1);
      assert NeighbourScan(nearby[0], candidate, mySize) == Ok(false);
      if k < |nearby| {
        assert nearby[1..][k - 1] == nearby[k];
      }
    }
  }

  /** What a CubeAwareness component exposes to its neighbours: its position, the radius it
      reserves and its committed path (never null in that component). */
  datatype AwarenessView = AwarenessView(position: Vec3, size: real, path: seq<Vec3>)

  /** Some neighbour covers some planned point. */
  predicate Blocked(views: seq<AwarenessView>, candidate: seq<Vec3>, mySize: real, inclusive: bool)
  {
    exists k :: 0 <= k < |views| &&
      AnyCovered(views[k].position, views[k].path, candidate, Limit(mySize, views[k].size), inclusive)
  }

  /** The loop over the nearby awareness components; stops at the first one reporting overlap. */
  method ScanViews(views: seq<AwarenessView>, candidate: seq<Vec3>, mySize: real, inclusive: bool) returns (free: bool)
    ensures free <==> !Blocked(views, candidate, mySize, inclusive)
  {
    var k := 0;
    while k < |views|
      invariant 0 <= k <= |views|
      invariant forall i :: 0 <= i < k ==>
        !AnyCovered(views[i].position, views[i].path, candidate, Limit(mySize, views[i].size), inclusive)
    {
      var v := views[k];
      var overlaps := ScanPositions(v.position, Some(v.path), candidate, Limit(mySize, v.size), inclusive);
      OverlapScanAnswersQuery(v.position, v.path, candidate, Limit(mySize, v.size), inclusive);
      if overlaps == Ok(true) {
        return false;
      }
      k := k + 1;
    }
    return true;
  }
}
