/** The earlier version of the enemy body (Assets/Cubes/EnemyBody.cs). Its loops run
    sectionCount³ times at every level and step half a part at a time, and its hit points go
    down by each part's whole loss so far at every change. */
module DraftBodies {
  import opened Geometry
  import opened Health
  import opened Lattice
  import Bodies

  /** The offset from the body's centre, along the world axes, at which the part of loop cell
      (i, j, k) is placed: every coordinate starts at -(n - 1)·u/2 and moves half a part edge
      per step. */
  function DraftOffset(n: int, u: real, c: Cell): Vec3
  {
    var half := u / 2.0;
    var start := (n - 1) as real * half;
    Vec3(-start + c.0 as real * half, -start + c.1 as real * half, -start + c.2 as real * half)
  }

  /** Moving half an edge along z reaches the next cell of the row. */
  lemma StepAlongZ(n: int, u: real, i: nat, j: nat, k: nat)
    ensures Add(DraftOffset(n, u, (i, j, k)), Vec3(0.0, 0.0, u / 2.0)) == DraftOffset(n, u, (i, j, k + 1))
  {
    var half := u / 2.0;
    assert (k + 1) as real * half == k as real * half + half;
  }

  /** Moving half an edge up and back to the start of z reaches the next row. */
  lemma StepAlongY(n: int, u: real, i: nat, j: nat, k: nat)
    ensures var o := DraftOffset(n, u, (i, j, k));
      Vec3(o.x, o.y + u / 2.0, -((n - 1) as real * (u / 2.0))) == DraftOffset(n, u, (i, j + 1, 0))
  {
    var half := u / 2.0;
    assert (j + 1) as real * half == j as real * half + half;
  }

  /** Moving half an edge along x and back to the start of y and z reaches the next plane. */
  lemma StepAlongX(n: int, u: real, i: nat, j: nat, k: nat)
    ensures var o := DraftOffset(n, u, (i, j, k));
      Vec3(o.x + u / 2.0, -((n - 1) as real * (u / 2.0)), -((n - 1) as real * (u / 2.0))) == DraftOffset(n, u, (i + 1, 0, 0))
  {
    var half := u / 2.0;
    assert (i + 1) as real * half == i as real * half + half;
  }

  /** The number of iterations of each loop: cubesToSpawn, sectionCount³, none when that is not
      positive */
  function CubesToSpawn(config: Bodies.BodyConfig): nat
  {
    var m := config.sectionCount * config.sectionCount * config.sectionCount;
    if m > 0 then m else 0
  }

  /** Assets/Cubes/EnemyBody.cs */
  class EnemyBody {
    /** The body's own transform (CachedTransform) */
    const transform: CubeTransform
    /** composingParts, with the world position each part was instantiated at */
    var parts: seq<HP>
    var partPositions: seq<Vec3>
    /** The edge of every part (its localScale) */
    var partEdge: real
    /** The edge of the impact collider */
    var colliderEdge: real
    var maxHP: int
    var hp: int
    /** The OnHitPointsChanged notifications sent so far; this version sets no previous value */
    var events: seq<HPInfo>

    constructor (transform: CubeTransform)
      ensures this.transform == transform && parts == [] && partPositions == [] && events == []
      ensures maxHP == 0 && hp == 0
    {
      this.transform := transform;
      parts := [];
      partPositions := [];
      partEdge := 0.0;
      colliderEdge := 0.0;
      maxHP := 0;
      hp := 0;
      events := [];
    }

    /** Every part is listed once, with its position. */
    predicate Valid()
      reads this`parts, this`partPositions
    {
      |partPositions| == |parts| &&
      forall a, b :: 0 <= a < b < |parts| ==> parts[a] != parts[b]
    }

    /** After the parts parts0 (placed at positions0, with body hit points hp0), the body lists
        one set-up part per cell of `cells`, placed at the body's position plus the draft offset
        of that cell, and has gained each part's hit points. */
    predicate Placed(parts0: seq<HP>, positions0: seq<Vec3>, hp0: int, cells: seq<Cell>, n: int, u: real, perPart: int)
      reads this`parts, this`partPositions, this`hp, transform, set p | p in parts
    {
      |parts| == |parts0| + |cells| && |partPositions| == |parts| &&
      parts[..|parts0|] == parts0 && partPositions[..|parts0|] == positions0 &&
      hp == hp0 + |cells| * perPart &&
      (forall t :: 0 <= t < |cells| ==>
        partPositions[|parts0| + t] == Add(transform.position, DraftOffset(n, u, cells[t]))) &&
      forall t :: |parts0| <= t < |parts| ==>
        parts[t].hitPoints == perPart && parts[t].startingHP == perPart && parts[t].destroyWhenHPzero &&
        parts[t].events == [] && !parts[t].destroyRequested
    }

    /** SetupComposingPart: the part is listed, its current and starting hit points become the
        configured ones and it is destroyed when they are gone; the body adds the part's hit
        points to its own and now hears of the part's changes. */
    method SetupComposingPart(part: HP, at: Vec3, config: Bodies.BodyConfig)
      requires Valid() && part !in parts
      modifies this`parts, this`partPositions, this`hp, part
      ensures Valid()
      ensures parts == old(parts) + [part] && partPositions == old(partPositions) + [at]
      ensures part.hitPoints == config.hitPointsPerPart && part.startingHP == config.hitPointsPerPart
      ensures part.destroyWhenHPzero && part.events == old(part.events) && part.destroyRequested == old(part.destroyRequested)
      ensures hp == old(hp) + config.hitPointsPerPart
    {
      parts := parts + [part];
      partPositions := partPositions + [at];
      part.SetStartingHP(config.hitPointsPerPart);
      part.destroyWhenHPzero := true;
      hp := hp + part.hitPoints;
    }

    /** The body of the innermost loop: a part is instantiated from the prototype at the given
        offset from the body and set up. */
    method SpawnPart(cell: Cell, offset: Vec3, n: int, u: real, config: Bodies.BodyConfig,
                     ghost parts0: seq<HP>, ghost positions0: seq<Vec3>, ghost hp0: int, ghost cells: seq<Cell>)
      requires Valid() && Placed(parts0, positions0, hp0, cells, n, u, config.hitPointsPerPart)
      requires offset == DraftOffset(n, u, cell)
      modifies this`parts, this`partPositions, this`hp
      ensures Valid() && Placed(parts0, positions0, hp0, cells + [cell], n, u, config.hitPointsPerPart)
      ensures parts == old(parts) + [parts[|parts| - 1]] && fresh(parts[|parts| - 1])
    {
      var cube := new HP(Bodies.PROTOTYPE_HP, false);
      cube.Awake();
      SetupComposingPart(cube, Add(transform.position, offset), config);
      assert (|cells| + 1) * config.hitPointsPerPart == |cells| * config.hitPointsPerPart + config.hitPointsPerPart;
    }

    /** The innermost loop: m parts along z, half a part edge apart; the position is then moved
        half an edge up and back to the start of z. */
    method DraftRow(i: nat, j: nat, m: nat, n: int, u: real, next: Vec3, config: Bodies.BodyConfig,
                    ghost parts0: seq<HP>, ghost positions0: seq<Vec3>, ghost hp0: int, ghost cells0: seq<Cell>)
      returns (after: Vec3)
      requires Valid() && Placed(parts0, positions0, hp0, cells0, n, u, config.hitPointsPerPart)
      requires next == DraftOffset(n, u, (i, j, 0))
      modifies this`parts, this`partPositions, this`hp
      ensures Valid() && Placed(parts0, positions0, hp0, cells0 + Row(i, j, m), n, u, config.hitPointsPerPart)
      ensures after == DraftOffset(n, u, (i, j + 1, 0))
      ensures parts[..|old(parts)|] == old(parts) && forall t :: |old(parts)| <= t < |parts| ==> fresh(parts[t])
    {
      var halfUnitCubeLength := u / 2.0;
      var startCoord := (n - 1) as real * halfUnitCubeLength;
      var position := next;
      ghost var start := parts;
      for k := 0 to m
        invariant Valid() && Placed(parts0, positions0, hp0, cells0 + Row(i, j, k), n, u, config.hitPointsPerPart)
        invariant position == DraftOffset(n, u, (i, j, k))
        invariant |parts| >= |start| && parts[..|start|] == start
        invariant forall t :: |start| <= t < |parts| ==> fresh(parts[t])
      {
        SpawnPart((i, j, k), position, n, u, config, parts0, positions0, hp0, cells0 + Row(i, j, k));
        assert cells0 + Row(i, j, k + 1) == cells0 + Row(i, j, k) + [(i, j, k)];
        StepAlongZ(n, u, i, j, k);
        position := Add(position, Vec3(0.0, 0.0, halfUnitCubeLength));
      }
      StepAlongY(n, u, i, j, m);
      after := Vec3(position.x, position.y + halfUnitCubeLength, -startCoord);
    }

    /** The middle loop: m rows, each half a part edge above the previous one; the position is
        then moved half an edge along x and back to the start of y and z. */
    method DraftPlane(i: nat, m: nat, n: int, u: real, next: Vec3, config: Bodies.BodyConfig,
                      ghost parts0: seq<HP>, ghost positions0: seq<Vec3>, ghost hp0: int, ghost cells0: seq<Cell>)
      returns (after: Vec3)
      requires Valid() && Placed(parts0, positions0, hp0, cells0, n, u, config.hitPointsPerPart)
      requires next == DraftOffset(n, u, (i, 0, 0))
      modifies this`parts, this`partPositions, this`hp
      ensures Valid() && Placed(parts0, positions0, hp0, cells0 + Rows(m, i, m), n, u, config.hitPointsPerPart)
      ensures after == DraftOffset(n, u, (i + 1, 0, 0))
      ensures parts[..|old(parts)|] == old(parts) && forall t :: |old(parts)| <= t < |parts| ==> fresh(parts[t])
    {
      var halfUnitCubeLength := u / 2.0;
      var startCoord := (n - 1) as real * halfUnitCubeLength;
      var position := next;
      ghost var start := parts;
      for j := 0 to m
        invariant Valid() && Placed(parts0, positions0, hp0, cells0 + Rows(m, i, j), n, u, config.hitPointsPerPart)
        invariant position == DraftOffset(n, u, (i, j, 0))
        invariant |parts| >= |start| && parts[..|start|] == start
        invariant forall t :: |start| <= t < |parts| ==> fresh(parts[t])
      {
        position := DraftPlaneRow(i, j, m, n, u, position, config, parts0, positions0, hp0, cells0, start);
      }
      StepAlongX(n, u, i, m, 0);
      after := Vec3(position.x + halfUnitCubeLength, -startCoord, -startCoord);
    }

    /** One turn of the middle loop: row j of plane i, after the rows before it. */
    method DraftPlaneRow(i: nat, j: nat, m: nat, n: int, u: real, next: Vec3, config: Bodies.BodyConfig,
                         ghost parts0: seq<HP>, ghost positions0: seq<Vec3>, ghost hp0: int, ghost cells0: seq<Cell>,
                         ghost start: seq<HP>)
      returns (after: Vec3)
      requires Valid() && Placed(parts0, positions0, hp0, cells0 + Rows(m, i, j), n, u, config.hitPointsPerPart)
      requires next == DraftOffset(n, u, (i, j, 0))
      requires |parts| >= |start| && parts[..|start|] == start
      modifies this`parts, this`partPositions, this`hp
      ensures Valid() && Placed(parts0, positions0, hp0, cells0 + Rows(m, i, j + 1), n, u, config.hitPointsPerPart)
      ensures after == DraftOffset(n, u, (i, j + 1, 0))
      ensures |parts| >= |start| && parts[..|start|] == start
      ensures parts[..|old(parts)|] == old(parts) && forall t :: |old(parts)| <= t < |parts| ==> fresh(parts[t])
    {
      after := DraftRow(i, j, m, n, u, next, config, parts0, positions0, hp0, cells0 + Rows(m, i, j));
      assert parts[..|start|] == old(parts)[..|start|];
      RowsGrow(m, i, j, cells0);
    }

    /** SpawnAndSetupComposingCubes as written: each of the three loops runs cubesToSpawn =
        sectionCount³ times, so the body gets cubesToSpawn³ parts, placed half a part edge apart
        from (-(n - 1)·u/2, …) along the world axes, and gains each part's hit points. */
    method SpawnAndSetupComposingCubes(config: Bodies.BodyConfig)
      requires Valid()
      modifies this`parts, this`partPositions, this`hp, this`partEdge
      ensures Valid()
      ensures var m := CubesToSpawn(config);
        Placed(old(parts), old(partPositions), old(hp), Cells(m), config.sectionCount, partEdge, config.hitPointsPerPart) &&
        (config.sectionCount != 0 ==> partEdge == config.edgeSize / config.sectionCount as real)
      ensures forall t :: |old(parts)| <= t < |parts| ==> fresh(parts[t])
    {
      var m := CubesToSpawn(config);
      var n := config.sectionCount;
      var unitCubeLength := if n != 0 then config.edgeSize / n as real else partEdge;
      var halfUnitCubeLength := unitCubeLength / 2.0;
      var startCoord := (n - 1) as real * halfUnitCubeLength;
      var nextPartSpawnPosition := Vec3(-startCoord, -startCoord, -startCoord);
      partEdge := unitCubeLength;
      ghost var parts0, positions0, hp0 := parts, partPositions, hp;
      assert parts[..|parts|] == parts && partPositions[..|parts|] == partPositions;
      for i := 0 to m
        invariant Valid() && partEdge == unitCubeLength
        invariant Placed(parts0, positions0, hp0, Planes(m, i), n, unitCubeLength, config.hitPointsPerPart)
        invariant nextPartSpawnPosition == DraftOffset(n, unitCubeLength, (i, 0, 0))
        invariant forall t :: |parts0| <= t < |parts| ==> fresh(parts[t])
      {
        ghost var before := parts;
        nextPartSpawnPosition := DraftPlane(i, m, n, unitCubeLength, nextPartSpawnPosition, config,
                                            parts0, positions0, hp0, Planes(m, i));
        forall t | |parts0| <= t < |parts| ensures fresh(parts[t]) {
          if t < |before| {
            assert parts[t] == before[t];
          }
        }
        PlanesGrow(m, i);
      }
    }

    /** Setup: the parts are spawned and set up, the impact collider takes the body's edge, and
        the maximum hit points are the hit points gathered from the parts. */
    method Setup(config: Bodies.BodyConfig)
      requires Valid()
      modifies this
      ensures Valid()
      ensures var m := CubesToSpawn(config);
        Placed(old(parts), old(partPositions), old(hp), Cells(m), config.sectionCount, partEdge, config.hitPointsPerPart)
      ensures forall t :: |old(parts)| <= t < |parts| ==> fresh(parts[t])
      ensures colliderEdge == config.edgeSize && maxHP == hp && events == old(events)
    {
      SpawnAndSetupComposingCubes(config);
      colliderEdge := config.edgeSize;
      maxHP := hp;
    }

    /** HandlePartsHPChanged as written: the body loses the part's whole loss since its start,
        not the loss of this change, and tells its own subscribers the maximum and the new hit
        points. */
    method HandlePartsHPChanged(info: HPInfo)
      modifies this
      ensures hp == old(hp) - (info.max - info.current)
      ensures events == old(events) + [HPInfo(hp, maxHP, 0)]
      ensures parts == old(parts) && partPositions == old(partPositions) && maxHP == old(maxHP)
      ensures partEdge == old(partEdge) && colliderEdge == old(colliderEdge)
    {
      hp := hp - (info.max - info.current);
      events := events + [HPInfo(hp, maxHP, 0)];
    }

    /** A hit on part m: the part takes the hit, and when it reports a change the body handles
        it, losing everything the part has lost since it started. */
    method HitPart(m: nat, damage: int)
      requires Valid() && m < |parts|
      modifies this, parts[m]
      ensures Valid() && parts == old(parts) && partPositions == old(partPositions) && maxHP == old(maxHP)
      ensures parts[m].hitPoints == AfterHits(old(parts[m].hitPoints), [damage])
      ensures parts[m].startingHP == old(parts[m].startingHP)
      ensures old(parts[m].hitPoints) >= 0 && damage > 0 ==>
        hp == old(hp) - (parts[m].startingHP - parts[m].hitPoints) &&
        events == old(events) + [HPInfo(hp, maxHP, 0)]
      ensures !(old(parts[m].hitPoints) >= 0 && damage > 0) ==> events == old(events) && hp == old(hp)
    {
      var part := parts[m];
      var count := |part.events|;
      part.Hit(damage);
      if |part.events| > count {
        HandlePartsHPChanged(part.events[|part.events| - 1]);
      }
    }
  }

  /** Two hits of 10 on the single part of a one-section body of 100 hit points: the part ends at
      80, but the body loses 10 and then 20, and ends at 70. */
  method RepeatedHitsOnOnePart() returns (bodyHP: int, partHP: int)
    ensures partHP == 80 && bodyHP == 70
  {
    var transform := new CubeTransform(Zero, Vec3(0.0, 0.0, 1.0), Vec3(1.0, 0.0, 0.0), Vec3(0.0, 1.0, 0.0), 1.0);
    var body := new EnemyBody(transform);
    body.Setup(Bodies.BodyConfig(1.0, 1, 100, 1, 10));
    assert |body.parts| == 1;
    body.HitPart(0, 10);
    body.HitPart(0, 10);
    bodyHP, partHP := body.hp, body.parts[0].hitPoints;
  }

  /** With two sections the loops make 8³ = 512 parts instead of 8, and they are not centred:
      the first sits at -u/2 on every axis, the last at 6·u/2. */
  lemma TwoSectionsOverflowTheGrid(u: real)
    requires u > 0.0
    ensures |Cells(CubesToSpawn(Bodies.BodyConfig(2.0 * u, 2, 100, 8, 10)))| == 512
    ensures DraftOffset(2, u, (7, 7, 7)) != Neg(DraftOffset(2, u, (0, 0, 0)))
  {
  }
}
