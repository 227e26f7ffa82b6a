/** The two NearbyCubeTracker components: a trigger sphere around an enemy cube that keeps the
    list of the cubes inside it. They differ only in how large the sphere is made for a given
    longest step of the cube's movement strategy. */
module Trackers {
  import opened Neighbours

  /** Trigger radius per unit of longest step: the EnemyCubes tracker and the older Cubes tracker */
  const TRACKED_AREA_FACTOR: real := 3.0
  const CUBES_TRACKED_AREA_FACTOR: real := 2.25

  /** Assets/Scripts/EnemyCubes/NearbyCubeTracker.cs */
  class NearbyCubeTracker {
    const neighbours: NeighbourSet
    /** Whether the game object has a SphereCollider (the component requires one) */
    const hasSphereCollider: bool
    var radius: real

    constructor (hasSphereCollider: bool, radius: real)
      ensures fresh(neighbours) && neighbours.Valid() && neighbours.cubes == []
      ensures this.hasSphereCollider == hasSphereCollider && this.radius == radius
    {
      neighbours := new NeighbourSet();
      this.hasSphereCollider := hasSphereCollider;
      this.radius := radius;
    }

    /** The trigger sphere reaches three longest steps out. */
    method UpdateTrackedAreaSize(maxStepDistance: real)
      modifies this
      ensures radius == if hasSphereCollider then maxStepDistance * TRACKED_AREA_FACTOR else old(radius)
    {
      if hasSphereCollider {
        radius := maxStepDistance * TRACKED_AREA_FACTOR;
      }
    }

    function OtherCubesNearby(): seq<int>
      reads this, neighbours
    {
      neighbours.cubes
    }

    method OnTriggerEnter(other: Collider)
      requires neighbours.Valid()
      modifies neighbours
      ensures neighbours.Valid() && neighbours.State() == AfterEnter(old(neighbours.State()), other)
    {
      neighbours.OnTriggerEnter(other);
    }

    method OnTriggerExit(other: Collider)
      requires neighbours.Valid()
      modifies neighbours
      ensures neighbours.Valid() && neighbours.State() == AfterExit(old(neighbours.State()), other)
    {
      neighbours.OnTriggerExit(other);
    }
  }

  /** Assets/Cubes/NearbyCubeTracker.cs */
  class CubesNearbyCubeTracker {
    const neighbours: NeighbourSet
    const hasSphereCollider: bool
    var radius: real

    constructor (hasSphereCollider: bool, radius: real)
      ensures fresh(neighbours) && neighbours.Valid() && neighbours.cubes == []
      ensures this.hasSphereCollider == hasSphereCollider && this.radius == radius
    {
      neighbours := new NeighbourSet();
      this.hasSphereCollider := hasSphereCollider;
      this.radius := radius;
    }

    /** The trigger sphere reaches two and a quarter longest steps out. */
    method UpdateTrackedAreaSize(maxStepDistance: real)
      modifies this
      ensures radius == if hasSphereCollider then maxStepDistance * CUBES_TRACKED_AREA_FACTOR else old(radius)
    {
      if hasSphereCollider {
        radius := maxStepDistance * CUBES_TRACKED_AREA_FACTOR;
      }
    }

    function OtherCubesNearby(): seq<int>
      reads this, neighbours
    {
      neighbours.cubes
    }

    method OnTriggerEnter(other: Collider)
      requires neighbours.Valid()
      modifies neighbours
      ensures neighbours.Valid() && neighbours.State() == AfterEnter(old(neighbours.State()), other)
    {
      neighbours.OnTriggerEnter(other);
    }

    method OnTriggerExit(other: Collider)
      requires neighbours.Valid()
      modifies neighbours
      ensures neighbours.Valid() && neighbours.State() == AfterExit(old(neighbours.State()), other)
    {
      neighbours.OnTriggerExit(other);
    }
  }
}
