/** The two CubeAwareness components, an earlier design of movement reservation in which the
    proximity component itself holds the committed path. `world` gives, for each tracked instance
    id, what that neighbour's component exposes. */
module Awareness {
  import opened Geometry
  import opened Outcomes
  import opened Overlap
  import opened Neighbours

  /** Trigger radius of the awareness sphere per unit of longest step */
  const AWARENESS_AREA_FACTOR: real := 2.25

  /** The reservation radius a component starts with */
  const DEFAULT_SIZE: real := 1.0

  /** Assets/Cubes/CubeAwareness.cs: inclusive overlap test, resizable reservation, and a record
      of the last path asked about. */
  class CubeAwareness {
    const transform: CubeTransform
    const neighbours: NeighbourSet
    /** Whether the component's collider is a SphereCollider */
    const hasSphereCollider: bool
    var mySize: real
    var myPath: seq<Vec3>
    var provisionalPath: seq<Vec3>
    var triggerRadius: real

    constructor (transform: CubeTransform, hasSphereCollider: bool, triggerRadius: real)
      ensures this.transform == transform && this.hasSphereCollider == hasSphereCollider
      ensures this.triggerRadius == triggerRadius
      ensures mySize == DEFAULT_SIZE && myPath == [] && provisionalPath == []
      ensures fresh(neighbours) && neighbours.Valid() && neighbours.cubes == []
    {
      this.transform := transform;
      this.hasSphereCollider := hasSphereCollider;
      this.triggerRadius := triggerRadius;
      mySize := DEFAULT_SIZE;
      myPath := [];
      provisionalPath := [];
      neighbours := new NeighbourSet();
    }

    /** What this component exposes to its neighbours */
    function View(): AwarenessView
      reads this, transform
    {
      AwarenessView(transform.position, mySize, myPath)
    }

    /** Sets the reservation radius, and the awareness sphere to two and a quarter longest steps
        when the collider is a sphere. */
    method UpdateSize(awarenessRadius: real, maxStepDistance: real)
      modifies this
      ensures mySize == awarenessRadius
      ensures triggerRadius == if hasSphereCollider then maxStepDistance * AWARENESS_AREA_FACTOR else old(triggerRadius)
      ensures myPath == old(myPath) && provisionalPath == old(provisionalPath)
    {
      mySize := awarenessRadius;
      if hasSphereCollider {
        triggerRadius := maxStepDistance * AWARENESS_AREA_FACTOR;
      }
    }

    method UpdatePath(path: seq<Vec3>)
      modifies this
      ensures myPath == path && mySize == old(mySize) && provisionalPath == old(provisionalPath)
    {
      myPath := path;
    }

    /** Records the planned path as provisional, then asks every nearby component whether it
        overlaps the planned points for a cube of the given size. */
    method IsPathFree(path: seq<Vec3>, mySize: real, world: int -> AwarenessView) returns (free: bool)
      modifies this
      ensures provisionalPath == path && myPath == old(myPath) && this.mySize == old(this.mySize)
      ensures free <==> !Blocked(Lookup(neighbours.cubes, world), path, mySize, true)
    {
      provisionalPath := path;
      free := ScanViews(Lookup(neighbours.cubes, world), path, mySize, true);
    }

    /** A neighbour's question: do the given points come within this component's reservation
        (distance at most the sum of the two sizes), around its position or its path? */
    method OverlapsAnyPosition(positions: seq<Vec3>, otherCubeSize: real) returns (r: bool)
      ensures r <==> AnyCovered(transform.position, myPath, positions, Limit(otherCubeSize, mySize), true)
    {
      var scan := ScanPositions(transform.position, Some(myPath), positions, Limit(otherCubeSize, mySize), true);
      OverlapScanAnswersQuery(transform.position, myPath, positions, Limit(otherCubeSize, mySize), true);
      r := scan == Ok(true);
    }

    /** Not implemented in the component: never reports an overlap. */
    function OverlapsPosition(position: Vec3, cubeSize: real): (r: bool)
      ensures !r
    {
      false
    }

    method OnTriggerEnter(other: Collider)
      requires neighbours.Valid()
      modifies neighbours
      ensures neighbours.Valid() && neighbours.State() == AfterEnter(old(neighbours.State()), other)
    {
      neighbours.OnTriggerEnter(other);
    }

    method OnTriggerExit(other: Collider)
      requires neighbours.Valid()
      modifies neighbours
      ensures neighbours.Valid() && neighbours.State() == AfterExit(old(neighbours.State()), other)
    {
      neighbours.OnTriggerExit(other);
    }
  }

  /** What a component of the first draft exposes: its position and its path; its reservation
      radius is always the default. */
  datatype DraftView = DraftView(position: Vec3, path: seq<Vec3>)

  function DraftViews(ids: seq<int>, world: int -> DraftView): (r: seq<AwarenessView>)
    ensures |r| == |ids|
    ensures forall k :: 0 <= k < |ids| ==> r[k] == AwarenessView(world(ids[k]).position, DEFAULT_SIZE, world(ids[k]).path)
  {
    seq(|ids|, k requires 0 <= k < |ids| => AwarenessView(world(ids[k]).position, DEFAULT_SIZE, world(ids[k]).path))
  }

  /** Assets/Movement/CubeAwareness.cs: the first draft, with a fixed reservation radius and a
      strict overlap test. */
  class DraftCubeAwareness {
    const transform: CubeTransform
    const neighbours: NeighbourSet
    var myPath: seq<Vec3>

    constructor (transform: CubeTransform)
      ensures this.transform == transform && myPath == []
      ensures fresh(neighbours) && neighbours.Valid() && neighbours.cubes == []
    {
      this.transform := transform;
      myPath := [];
      neighbours := new NeighbourSet();
    }

    method UpdatePath(path: seq<Vec3>)
      modifies this
      ensures myPath == path
    {
      myPath := path;
    }

    /** Asks every nearby component whether it overlaps the planned points for a cube of the
        given size; nothing is recorded. */
    method IsPathFree(path: seq<Vec3>, cubeSize: real, world: int -> DraftView) returns (free: bool)
      ensures free <==> !Blocked(DraftViews(neighbours.cubes, world), path, cubeSize, false)
    {
      free := ScanViews(DraftViews(neighbours.cubes, world), path, cubeSize, false);
    }

    /** A neighbour's question, answered with a strict distance test against the default radius. */
    method OverlapsAnyPosition(positions: seq<Vec3>, cubeSize: real) returns (r: bool)
      ensures r <==> AnyCovered(transform.position, myPath, positions, Limit(cubeSize, DEFAULT_SIZE), false)
    {
      var scan := ScanPositions(transform.position, Some(myPath), positions, Limit(cubeSize, DEFAULT_SIZE), false);
      OverlapScanAnswersQuery(transform.position, myPath, positions, Limit(cubeSize, DEFAULT_SIZE), false);
      r := scan == Ok(true);
    }

    function OverlapsPosition(position: Vec3, cubeSize: real): (r: bool)
      ensures !r
    {
      false
    }

    method OnTriggerEnter(other: Collider)
      requires neighbours.Valid()
      modifies neighbours
      ensures neighbours.Valid() && neighbours.State() == AfterEnter(old(neighbours.State()), other)
    {
      neighbours.OnTriggerEnter(other);
    }

    method OnTriggerExit(other: Collider)
      requires neighbours.Valid()
      modifies neighbours
      ensures neighbours.Valid() && neighbours.State() == AfterExit(old(neighbours.State()), other)
    {
      neighbours.OnTriggerExit(other);
    }
  }

  /** Whatever the strict test of the draft reports blocked, the inclusive test of the later
      component reports blocked as well. */
  lemma DraftBlockedImpliesBlocked(views: seq<AwarenessView>, candidate: seq<Vec3>, mySize: real)
    requires Blocked(views, candidate, mySize, false)
    ensures Blocked(views, candidate, mySize, true)
  {
    var k :| 0 <= k < |views| && AnyCovered(views[k].position, views[k].path, candidate, Limit(mySize, views[k].size), false);
    StrictImpliesInclusive(views[k].position, views[k].path, candidate, Limit(mySize, views[k].size));
  }
}
