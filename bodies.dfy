/** The body of an enemy cube: a grid of sectionCount³ small cubes, each with hit points of its
    own. The body's hit points go down by what its parts lose. (Assets/Scripts/EnemyCubes/EnemyBody.cs) */
module Bodies {
  import opened Geometry
  import opened Health
  import opened Lattice

  /** What a body reads from its enemy's configuration: the edge of the whole cube, the number of
      parts along each edge, the hit points of one part, the number of parts the body's hit points
      are counted for, and the damage dealt on impact. */
  datatype BodyConfig = BodyConfig(edgeSize: real, sectionCount: int, hitPointsPerPart: int,
                                   composingPartCount: int, damageOnImpact: int)

  /** The hit points of the part prototype before it is set up (the HP component's default) */
  const PROTOTYPE_HP := 100

  /** The number of parts along one edge: the loops run sectionCount times, so none below zero */
  function Sections(config: BodyConfig): nat
  {
    if config.sectionCount > 0 then config.sectionCount else 0
  }

  /** The coordinate, along one axis, of cell k of a row of n cells of edge u: the cells sit one
      edge apart and the row is centred on the body's centre. */
  function Coordinate(n: int, u: real, k: int): real
  {
    k as real * u - (n - 1) as real * (u / 2.0)
  }

  /** The row of cells is symmetric about the centre. */
  lemma CoordinatesAreCentred(n: int, u: real, k: int)
    ensures Coordinate(n, u, n - 1 - k) == -Coordinate(n, u, k)
    ensures Coordinate(n, u, k + 1) - Coordinate(n, u, k) == u
  {
    var half := u / 2.0;
    assert u == 2.0 * half;
    assert Coordinate(n, u, n - 1 - k) == (n - 1 - k) as real * u - (n - 1) as real * half;
  }

  /** The offset from the body's centre of the part in cell (i, j, k) of an n-section body whose
      parts have edge u: i steps along the forward axis, j up and k to the right. */
  function CellOffset(t: (Vec3, Vec3, Vec3), n: int, u: real, c: Cell): Vec3
  {
    var (forward, right, up) := t;
    Add(Add(Scale(forward, Coordinate(n, u, c.0)), Scale(right, Coordinate(n, u, c.2))),
        Scale(up, Coordinate(n, u, c.1)))
  }

  /** The parts fill a cube centred on the body: the part in the mirrored cell sits at the
      mirrored offset. */
  lemma {:induction false} GridIsCentred(t: (Vec3, Vec3, Vec3), n: nat, u: real, c: Cell)
    requires c.0 < n && c.1 < n && c.2 < n
    ensures CellOffset(t, n, u, (n - 1 - c.0, n - 1 - c.1, n - 1 - c.2)) == Neg(CellOffset(t, n, u, c))
  {
    CoordinatesAreCentred(n, u, c.0);
    CoordinatesAreCentred(n, u, c.1);
    CoordinatesAreCentred(n, u, c.2);
  }

  /** The loops' own sum, startP + right·k + up·j + back·i, is the offset of cell (i, j, k). */
  lemma {:induction false} LoopSumIsCellOffset(t: (Vec3, Vec3, Vec3), n: int, u: real, i: nat, j: nat, k: nat)
    ensures var (forward, right, up) := t;
      var delta := (n - 1) as real * (u / 2.0);
      var startP := Sub(Sub(Scale(Neg(forward), delta), Scale(right, delta)), Scale(up, delta));
      Add(Add(Add(startP, Scale(Scale(right, u), k as real)), Scale(Scale(up, u), j as real)),
          Scale(Scale(forward, u), i as real))
      == CellOffset(t, n, u, (i, j, k))
  {
    var (f, r, w) := t;
    var d := (n - 1) as real * (u / 2.0);
    var ri, rj, rk := i as real, j as real, k as real;
    ScaleNeg(f, d);
    SubScale(Scale(f, -d), r, d);
    SubScale(Add(Scale(f, -d), Scale(r, -d)), w, d);
    ScaleScale(r, u, rk);
    ScaleScale(w, u, rj);
    ScaleScale(f, u, ri);
    var f1, f2, r1, r2, w1, w2 := Scale(f, -d), Scale(f, u * ri), Scale(r, -d), Scale(r, u * rk), Scale(w, -d), Scale(w, u * rj);
    assert Add(Add(Add(Add(Add(f1, r1), w1), r2), w2), f2) == Add(Add(Add(f1, f2), Add(r1, r2)), Add(w1, w2));
    ScaleSum(f, -d, u * ri);
    ScaleSum(r, -d, u * rk);
    ScaleSum(w, -d, u * rj);
    assert -d + u * ri == Coordinate(n, u, i) && -d + u * rk == Coordinate(n, u, k) && -d + u * rj == Coordinate(n, u, j);
  }

  /** count parts of perPart hit points each hold perPart · count hit points together. */
  lemma PartsAddUp(hps: seq<int>, perPart: int, count: int)
    requires |hps| == count && forall t :: 0 <= t < |hps| ==> hps[t] == perPart
    ensures Total(hps) == perPart * count
  {
    TotalOfEqual(hps, perPart);
  }

  /** Assets/Scripts/EnemyCubes/EnemyBody.cs */
  class EnemyBody {
    /** The body's own transform (CachedTransform) */
    const transform: CubeTransform
    /** composingParts, with the world position each part was instantiated at */
    var parts: seq<HP>
    var partPositions: seq<Vec3>
    /** The edge of every part (its localScale) */
    var partEdge: real
    /** The edge of the impact collider and the damage it deals */
    var colliderEdge: real
    var impactDamage: int
    var maxHP: int
    var hp: int
    var previousHP: int
    /** The OnHitPointsChanged notifications sent so far */
    var events: seq<HPInfo>

    constructor (transform: CubeTransform)
      ensures this.transform == transform && parts == [] && partPositions == [] && events == []
      ensures maxHP == 0 && hp == 0 && previousHP == 0
    {
      this.transform := transform;
      parts := [];
      partPositions := [];
      partEdge := 0.0;
      colliderEdge := 0.0;
      impactDamage := 0;
      maxHP := 0;
      hp := 0;
      previousHP := 0;
      events := [];
    }

    /** Every part is listed once, with its position. */
    predicate Valid()
      reads this`parts, this`partPositions
    {
      |partPositions| == |parts| &&
      forall a, b :: 0 <= a < b < |parts| ==> parts[a] != parts[b]
    }

    /** The hit points of the parts, in order */
    function PartHPs(): seq<int>
      reads this`parts, set p | p in parts
    {
      HitPointsOf(parts)
    }

    /** The axes of the body's transform, forward, right and up */
    function Axes(): (Vec3, Vec3, Vec3)
      reads transform
    {
      (transform.forward, transform.right, transform.up)
    }

    /** SetupComposingPart: the part is listed, its current and starting hit points become the
        configured ones and it is destroyed when they are gone; the body now hears of its
        changes. */
    method SetupComposingPart(part: HP, at: Vec3, config: BodyConfig)
      requires Valid() && part !in parts
      modifies this`parts, this`partPositions, part
      ensures Valid()
      ensures parts == old(parts) + [part] && partPositions == old(partPositions) + [at]
      ensures part.hitPoints == config.hitPointsPerPart && part.startingHP == config.hitPointsPerPart
      ensures part.destroyWhenHPzero && part.events == old(part.events) && part.destroyRequested == old(part.destroyRequested)
    {
      parts := parts + [part];
      partPositions := partPositions + [at];
      part.SetStartingHP(config.hitPointsPerPart);
      part.destroyWhenHPzero := true;
    }

    /** After the parts parts0 (placed at positions0), the body lists one set-up part per cell of
        `cells`, placed at the body's position plus the offset of that cell. */
    predicate Placed(parts0: seq<HP>, positions0: seq<Vec3>, cells: seq<Cell>, n: int, u: real, perPart: int)
      reads this`parts, this`partPositions, transform, set p | p in parts
    {
      |parts| == |parts0| + |cells| && |partPositions| == |parts| &&
      parts[..|parts0|] == parts0 && partPositions[..|parts0|] == positions0 &&
      (forall t :: 0 <= t < |cells| ==>
        partPositions[|parts0| + t] == Add(transform.position, CellOffset(Axes(), n, u, cells[t]))) &&
      forall t :: |parts0| <= t < |parts| ==>
        parts[t].hitPoints == perPart && parts[t].startingHP == perPart && parts[t].destroyWhenHPzero &&
        parts[t].events == [] && !parts[t].destroyRequested
    }

    /** The body of the innermost loop: a part is instantiated from the prototype at the body's
        position plus the offset of its cell, and set up. */
    method SpawnPart(cell: Cell, v: Vec3, n: nat, u: real, config: BodyConfig,
                     ghost parts0: seq<HP>, ghost positions0: seq<Vec3>, ghost cells: seq<Cell>)
      requires Valid() && Placed(parts0, positions0, cells, n, u, config.hitPointsPerPart)
      requires v == CellOffset(Axes(), n, u, cell)
      modifies this`parts, this`partPositions
      ensures Valid() && Placed(parts0, positions0, cells + [cell], n, u, config.hitPointsPerPart)
      ensures parts == old(parts) + [parts[|parts| - 1]] && fresh(parts[|parts| - 1])
    {
      var cube := new HP(PROTOTYPE_HP, false);
      cube.Awake();
      SetupComposingPart(cube, Add(transform.position, v), config);
    }

    /** The innermost loop of SpawnAndSetupComposingCubes: the row (i, j) of parts */
    method SpawnRow(i: nat, j: nat, n: nat, u: real, startP: Vec3, right: Vec3, up: Vec3, back: Vec3,
                    config: BodyConfig, ghost parts0: seq<HP>, ghost positions0: seq<Vec3>, ghost cells0: seq<Cell>)
      requires Valid() && Placed(parts0, positions0, cells0, n, u, config.hitPointsPerPart)
      requires startP == Sub(Sub(Scale(Neg(transform.forward), (n - 1) as real * (u / 2.0)),
                                 Scale(transform.right, (n - 1) as real * (u / 2.0))),
                             Scale(transform.up, (n - 1) as real * (u / 2.0)))
      requires right == Scale(transform.right, u) && up == Scale(transform.up, u) && back == Scale(transform.forward, u)
      modifies this`parts, this`partPositions
      ensures Valid() && Placed(parts0, positions0, cells0 + Row(i, j, n), n, u, config.hitPointsPerPart)
      ensures parts[..|old(parts)|] == old(parts) && forall t :: |old(parts)| <= t < |parts| ==> fresh(parts[t])
    {
      ghost var start := parts;
      for k := 0 to n
        invariant Valid() && Placed(parts0, positions0, cells0 + Row(i, j, k), n, u, config.hitPointsPerPart)
        invariant |parts| >= |start| && parts[..|start|] == start
        invariant forall t :: |start| <= t < |parts| ==> fresh(parts[t])
      {
        var v := Add(Add(Add(startP, Scale(right, k as real)), Scale(up, j as real)), Scale(back, i as real));
        LoopSumIsCellOffset(Axes(), n, u, i, j, k);
        SpawnPart((i, j, k), v, n, u, config, parts0, positions0, cells0 + Row(i, j, k));
        assert cells0 + Row(i, j, k + 1) == (cells0 + Row(i, j, k)) + [(i, j, k)];
      }
    }

    /** The middle loop of SpawnAndSetupComposingCubes: the plane i of parts */
    method SpawnPlane(i: nat, n: nat, u: real, startP: Vec3, right: Vec3, up: Vec3, back: Vec3,
                      config: BodyConfig, ghost parts0: seq<HP>, ghost positions0: seq<Vec3>, ghost cells0: seq<Cell>)
      requires Valid() && Placed(parts0, positions0, cells0, n, u, config.hitPointsPerPart)
      requires startP == Sub(Sub(Scale(Neg(transform.forward), (n - 1) as real * (u / 2.0)),
                                 Scale(transform.right, (n - 1) as real * (u / 2.0))),
                             Scale(transform.up, (n - 1) as real * (u / 2.0)))
      requires right == Scale(transform.right, u) && up == Scale(transform.up, u) && back == Scale(transform.forward, u)
      modifies this`parts, this`partPositions
      ensures Valid() && Placed(parts0, positions0, cells0 + Rows(n, i, n), n, u, config.hitPointsPerPart)
      ensures parts[..|old(parts)|] == old(parts) && forall t :: |old(parts)| <= t < |parts| ==> fresh(parts[t])
    {
      ghost var start := parts;
      for j := 0 to n
        invariant Valid() && Placed(parts0, positions0, cells0 + Rows(n, i, j), n, u, config.hitPointsPerPart)
        invariant |parts| >= |start| && parts[..|start|] == start
        invariant forall t :: |start| <= t < |parts| ==> fresh(parts[t])
      {
        ghost var before := parts;
        SpawnRow(i, j, n, u, startP, right, up, back, config, parts0, positions0, cells0 + Rows(n, i, j));
        assert parts[..|start|] == before[..|start|];
        forall t | |start| <= t < |parts| ensures fresh(parts[t]) {
          if t < |before| {
            assert parts[t] == before[t];
          }
        }
        RowsGrow(n, i, j, cells0);
      }
    }

    /** SpawnAndSetupComposingCubes: one fresh part per cell of the grid, in the loops' order,
        instantiated at the body's position plus the cell's offset and set up. */
    method SpawnAndSetupComposingCubes(config: BodyConfig)
      requires Valid()
      modifies this`parts, this`partPositions, this`partEdge
      ensures Valid()
      ensures var n := Sections(config);
        (n > 0 ==> partEdge == config.edgeSize / n as real) && (n == 0 ==> partEdge == old(partEdge)) &&
        Placed(old(parts), old(partPositions), Cells(n), n, partEdge, config.hitPointsPerPart)
      ensures forall t :: |old(parts)| <= t < |parts| ==> fresh(parts[t])
    {
      var n := Sections(config);
      if n == 0 {
        assert Cells(0) == [];
        assert parts[..|parts|] == parts && partPositions[..|parts|] == partPositions;
        return;
      }
      var unitCubeLength := config.edgeSize / n as real;
      var halfUnitCubeLength := unitCubeLength / 2.0;
      var delta := (n - 1) as real * halfUnitCubeLength;
      var startP := Sub(Sub(Scale(Neg(transform.forward), delta), Scale(transform.right, delta)),
                        Scale(transform.up, delta));
      var right := Scale(transform.right, unitCubeLength);
      var back := Scale(transform.forward, unitCubeLength);
      var up := Scale(transform.up, unitCubeLength);
      assert delta == (n - 1) as real * (unitCubeLength / 2.0);
      assert startP == Sub(Sub(Scale(Neg(transform.forward), (n - 1) as real * (unitCubeLength / 2.0)),
                                    Scale(transform.right, (n - 1) as real * (unitCubeLength / 2.0))),
                                Scale(transform.up, (n - 1) as real * (unitCubeLength / 2.0)));
      partEdge := unitCubeLength;
      ghost var parts0, positions0 := parts, partPositions;
      assert parts[..|parts|] == parts && partPositions[..|parts|] == partPositions;
      for i := 0 to n
        invariant Valid() && partEdge == unitCubeLength
        invariant startP == Sub(Sub(Scale(Neg(transform.forward), (n - 1) as real * (unitCubeLength / 2.0)),
                                    Scale(transform.right, (n - 1) as real * (unitCubeLength / 2.0))),
                                Scale(transform.up, (n - 1) as real * (unitCubeLength / 2.0)))
        invariant Placed(parts0, positions0, Planes(n, i), n, unitCubeLength, config.hitPointsPerPart)
        invariant forall t :: |parts0| <= t < |parts| ==> fresh(parts[t])
      {
        ghost var before := parts;
        SpawnPlane(i, n, unitCubeLength, startP, right, up, back, config, parts0, positions0, Planes(n, i));
        forall t | |parts0| <= t < |parts| ensures fresh(parts[t]) {
          if t < |before| {
            assert parts[t] == before[t];
          }
        }
        PlanesGrow(n, i);
      }
    }

    /** Setup: the parts are spawned and set up, the impact collider takes the body's edge and
        damage, and the body's hit points, current and maximum, are those of one part times the
        configured part count. When that count is the number of parts actually made, and the
        body had none before, its hit points are exactly the sum of its parts'. */
    method Setup(config: BodyConfig)
      requires Valid()
      modifies this`parts, this`partPositions, this`partEdge, this`colliderEdge, this`impactDamage, this`hp, this`maxHP
      ensures Valid()
      ensures var n := Sections(config);
        (n > 0 ==> partEdge == config.edgeSize / n as real) &&
        Placed(old(parts), old(partPositions), Cells(n), n, partEdge, config.hitPointsPerPart)
      ensures forall t :: |old(parts)| <= t < |parts| ==> fresh(parts[t])
      ensures colliderEdge == config.edgeSize && impactDamage == config.damageOnImpact
      ensures hp == config.hitPointsPerPart * config.composingPartCount && maxHP == hp
      ensures old(parts) == [] && config.composingPartCount == Sections(config) * Sections(config) * Sections(config) ==>
        hp == Total(PartHPs())
    {
      SpawnAndSetupComposingCubes(config);
      SetupColliderAndHP(config);
      if old(parts) == [] && config.composingPartCount == Sections(config) * Sections(config) * Sections(config) {
        ghost var hps := PartHPs();
        assert |hps| == config.composingPartCount;
        forall t | 0 <= t < |hps| ensures hps[t] == config.hitPointsPerPart {
          assert hps[t] == parts[t].hitPoints;
        }
        PartsAddUp(hps, config.hitPointsPerPart, config.composingPartCount);
      }
    }

    /** The tail of Setup: the impact collider, its damage and the body's hit points. Only
        these four fields change. */
    method SetupColliderAndHP(config: BodyConfig)
      modifies this`colliderEdge, this`impactDamage, this`hp, this`maxHP
      ensures colliderEdge == config.edgeSize && impactDamage == config.damageOnImpact
      ensures hp == config.hitPointsPerPart * config.composingPartCount && maxHP == hp
    {
      colliderEdge := config.edgeSize;
      impactDamage := config.damageOnImpact;
      hp := config.hitPointsPerPart * config.composingPartCount;
      maxHP := hp;
    }

    /** HandlePartsHPChanged: the body loses what the part lost in this change, and tells its
        own subscribers the maximum, the new and the previous hit points. */
    method HandlePartsHPChanged(info: HPInfo)
      modifies this`hp, this`previousHP, this`events
      ensures hp == old(hp) - (info.previous - info.current) && previousHP == old(hp)
      ensures events == old(events) + [HPInfo(hp, maxHP, previousHP)]
    {
      previousHP := hp;
      hp := hp - (info.previous - info.current);
      events := events + [HPInfo(hp, maxHP, previousHP)];
    }

    /** A hit on part m: the part takes the hit, and when it reports a change the body handles
        it. The body's hit points keep their distance to the sum of the parts' hit points, so a
        body set up with its real part count always has exactly the sum of its parts. */
    method HitPart(m: nat, damage: int)
      requires Valid() && m < |parts|
      modifies this`hp, this`previousHP, this`events, parts[m]
      ensures hp - Total(PartHPs()) == old(hp - Total(PartHPs()))
      ensures parts[m].hitPoints == AfterHits(old(parts[m].hitPoints), [damage])
      ensures old(parts[m].hitPoints) >= 0 && damage > 0 ==>
        events == old(events) + [HPInfo(hp, maxHP, old(hp))] &&
        hp == old(hp) - (old(parts[m].hitPoints) - parts[m].hitPoints)
      ensures !(old(parts[m].hitPoints) >= 0 && damage > 0) ==> events == old(events) && hp == old(hp)
    {
      ghost var before := PartHPs();
      var part := parts[m];
      var count := |part.events|;
      HitOnePart(m, damage);
      ghost var mid := PartHPs();
      assert Total(mid) == Total(before) - before[m] + part.hitPoints by {
        TotalUpdate(before, m, part.hitPoints);
      }
      if |part.events| > count {
        HandlePartsHPChanged(part.events[|part.events| - 1]);
      }
      assert PartHPs() == mid;
    }

    /** The part at m takes the hit; the other parts keep their hit points. */
    method HitOnePart(m: nat, damage: int)
      requires Valid() && m < |parts|
      modifies parts[m]
      ensures PartHPs() == old(PartHPs())[m := parts[m].hitPoints]
      ensures var effective := old(parts[m].hitPoints) >= 0 && damage > 0;
        (effective ==> parts[m].events == old(parts[m].events) + [HPInfo(parts[m].hitPoints, parts[m].startingHP, old(parts[m].hitPoints))]) &&
        (!effective ==> parts[m].hitPoints == old(parts[m].hitPoints) && parts[m].events == old(parts[m].events))
      ensures parts[m].hitPoints == AfterHits(old(parts[m].hitPoints), [damage])
    {
      ghost var before := PartHPs();
      var part := parts[m];
      part.Hit(damage);
      forall t | 0 <= t < |parts| ensures PartHPs()[t] == before[m := part.hitPoints][t] {
        if t != m {
          assert parts[t] != part;
        }
      }
    }
  }

  /** Two hits of 10 on the single part of a one-section body of 100 hit points: the part and the
      body both end at 80. */
  method RepeatedHitsOnOnePart() returns (bodyHP: int, partHP: int)
    ensures bodyHP == 80 && partHP == 80
  {
    var transform := new CubeTransform(Zero, Vec3(0.0, 0.0, 1.0), Vec3(1.0, 0.0, 0.0), Vec3(0.0, 1.0, 0.0), 1.0);
    var body := new EnemyBody(transform);
    var config := BodyConfig(1.0, 1, 100, 1, 10);
    assert Sections(config) == 1;
    body.Setup(config);
    assert |body.parts| == 1 && body.parts[0].hitPoints == 100;
    assert body.hp == Total(body.PartHPs());
    ghost var part := body.parts[0];
    body.HitPart(0, 10);
    assert part.hitPoints == AfterHits(100, [10]) == 90;
    body.HitPart(0, 10);
    assert part.hitPoints == AfterHits(90, [10]) == 80;
    assert body.PartHPs() == [80];
    bodyHP, partHP := body.hp, body.parts[0].hitPoints;
  }
}
