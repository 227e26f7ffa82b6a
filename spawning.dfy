/** Enemy spawning: the per-wave and per-enemy configurations, the cumulative-chance table the
    spawner draws enemy types from, the per-frame spawn budget and the search for a free spawn
    position around the player (who stands at the origin).

    Every `Random.Range` is an explicit draw argument, `Physics.OverlapSphere` is the oracle
    `clear(radius, position)`, and `Instantiate` is recorded as an entry of `spawned`. */
module Spawning {
  import opened Geometry
  import opened Outcomes

  /** The kinds of enemy cube. Only the first three are ever drawn; a Titan has no spawn chance. */
  datatype EnemyType = Simple | Jumper | Zigzag | Titan

  const MAX_SPAWN_COUNT_PER_FRAME: real := 12.0
  const MIN_SPAWN_INTERVAL: real := 0.01
  const SPAWNABLE_ENEMIES: seq<EnemyType> := [Simple, Jumper, Zigzag]

  /** Rounds of candidate positions tried before giving up, and candidates per round */
  const SPAWN_POSITION_TRIES: nat := 8
  const CANDIDATES_PER_TRY: nat := 4
  const SPAWN_SLOTS: nat := 32

  /** Extra clearance around a new cube's bounding sphere */
  const SPAWN_CLEARANCE_MARGIN: real := 0.1

  /** Single-precision value of the square root of three */
  const SQRT_3: real := 1.7320508
  const MIN_EDGE_SIZE: real := 0.2
  const MIN_SPEED: real := 0.2

  /** Assets/SpawnLogic/Scripts/WaveConfig.cs */
  class WaveConfig {
    var spawnIntervalSeconds: real
    var maxLiveCubeCount: real
    var spawnChanceSimple: real
    var spawnChanceJumper: real
    var spawnChanceZigZag: real
    var titanToAppearAt: int
    var minSpawnDistanceFromPlayer: real
    var maxSpawnDistanceFromPlayer: real
    var cubeSpeedUnitsPerSec: real

    constructor (spawnIntervalSeconds: real, maxLiveCubeCount: real, spawnChanceSimple: real,
                 spawnChanceJumper: real, spawnChanceZigZag: real, titanToAppearAt: int,
                 minSpawnDistanceFromPlayer: real, maxSpawnDistanceFromPlayer: real, cubeSpeedUnitsPerSec: real)
      ensures this.spawnIntervalSeconds == spawnIntervalSeconds && this.maxLiveCubeCount == maxLiveCubeCount
      ensures this.spawnChanceSimple == spawnChanceSimple && this.spawnChanceJumper == spawnChanceJumper
      ensures this.spawnChanceZigZag == spawnChanceZigZag && this.titanToAppearAt == titanToAppearAt
      ensures this.minSpawnDistanceFromPlayer == minSpawnDistanceFromPlayer
      ensures this.maxSpawnDistanceFromPlayer == maxSpawnDistanceFromPlayer
      ensures this.cubeSpeedUnitsPerSec == cubeSpeedUnitsPerSec
    {
      this.spawnIntervalSeconds := spawnIntervalSeconds;
      this.maxLiveCubeCount := maxLiveCubeCount;
      this.spawnChanceSimple := spawnChanceSimple;
      this.spawnChanceJumper := spawnChanceJumper;
      this.spawnChanceZigZag := spawnChanceZigZag;
      this.titanToAppearAt := titanToAppearAt;
      this.minSpawnDistanceFromPlayer := minSpawnDistanceFromPlayer;
      this.maxSpawnDistanceFromPlayer := maxSpawnDistanceFromPlayer;
      this.cubeSpeedUnitsPerSec := cubeSpeedUnitsPerSec;
    }

    /** The editor-time fix-up: the spawn ring never has its outer radius inside its inner one.
        A configuration that already satisfies this is left as it is, so a second call changes
        nothing. */
    method OnValidate()
      modifies this
      ensures maxSpawnDistanceFromPlayer >= minSpawnDistanceFromPlayer
      ensures maxSpawnDistanceFromPlayer == Max(old(minSpawnDistanceFromPlayer), old(maxSpawnDistanceFromPlayer))
      ensures old(maxSpawnDistanceFromPlayer) >= old(minSpawnDistanceFromPlayer) ==>
        maxSpawnDistanceFromPlayer == old(maxSpawnDistanceFromPlayer)
      ensures minSpawnDistanceFromPlayer == old(minSpawnDistanceFromPlayer)
      ensures spawnIntervalSeconds == old(spawnIntervalSeconds) && maxLiveCubeCount == old(maxLiveCubeCount)
      ensures spawnChanceSimple == old(spawnChanceSimple) && spawnChanceJumper == old(spawnChanceJumper)
      ensures spawnChanceZigZag == old(spawnChanceZigZag) && titanToAppearAt == old(titanToAppearAt)
      ensures cubeSpeedUnitsPerSec == old(cubeSpeedUnitsPerSec)
    {
      maxSpawnDistanceFromPlayer := Max(minSpawnDistanceFromPlayer, maxSpawnDistanceFromPlayer);
    }

    /** The chance of each spawnable type is its own field; any other type, such as the Titan,
        is never drawn. */
    function GetSpawnChance(kind: EnemyType): (r: real)
      reads this
      ensures kind == Titan ==> r == 0.0
      ensures kind == Simple ==> r == spawnChanceSimple
      ensures kind == Jumper ==> r == spawnChanceJumper
      ensures kind == Zigzag ==> r == spawnChanceZigZag
    {
      match kind
      case Simple => spawnChanceSimple
      case Jumper => spawnChanceJumper
      case Zigzag => spawnChanceZigZag
      case _ => 0.0
    }

    /** The chances of `SPAWNABLE_ENEMIES`, in that order */
    function SpawnChances(): (r: seq<real>)
      reads this
      ensures |r| == |SPAWNABLE_ENEMIES|
      ensures forall j :: 0 <= j < |r| ==> r[j] == GetSpawnChance(SPAWNABLE_ENEMIES[j])
    {
      [spawnChanceSimple, spawnChanceJumper, spawnChanceZigZag]
    }
  }

  /** Half the space diagonal of a cube of edge `edge`: the radius of its bounding sphere */
  function HalfBodyDiagonal(edge: real): real
  {
    SQRT_3 * edge / 2.0
  }

  /** Assets/SpawnLogic/Scripts/EnemyConfig.cs */
  class EnemyConfig {
    var kind: EnemyType
    var edgeSize: real
    var speedUnitsPerSecond: real
    var halfBodyDiagonal: real

    constructor (kind: EnemyType, edgeSize: real, speedUnitsPerSecond: real)
      ensures this.kind == kind && this.edgeSize == edgeSize && this.speedUnitsPerSecond == speedUnitsPerSecond
      ensures halfBodyDiagonal == 0.0
    {
      this.kind := kind;
      this.edgeSize := edgeSize;
      this.speedUnitsPerSecond := speedUnitsPerSecond;
      halfBodyDiagonal := 0.0;
    }

    /** The editor-time fix-up. Edge and speed are raised to their minimum. The diagonal is taken
        from the edge as it was BEFORE the clamp, so a too small edge leaves the diagonal short of
        the stored edge's; once the edge is in range (for instance on a second call) the diagonal
        matches it. */
    method OnValidate()
      modifies this
      ensures halfBodyDiagonal == HalfBodyDiagonal(old(edgeSize))
      ensures edgeSize == Max(MIN_EDGE_SIZE, old(edgeSize)) && edgeSize >= MIN_EDGE_SIZE
      ensures old(edgeSize) >= MIN_EDGE_SIZE ==> edgeSize == old(edgeSize) && halfBodyDiagonal == HalfBodyDiagonal(edgeSize)
      ensures old(edgeSize) < MIN_EDGE_SIZE ==> halfBodyDiagonal < HalfBodyDiagonal(edgeSize)
      ensures speedUnitsPerSecond == Max(MIN_SPEED, old(speedUnitsPerSecond)) && speedUnitsPerSecond >= MIN_SPEED
      ensures old(speedUnitsPerSecond) >= MIN_SPEED ==> speedUnitsPerSecond == old(speedUnitsPerSecond)
      ensures kind == old(kind)
    {
      halfBodyDiagonal := HalfBodyDiagonal(edgeSize);
      edgeSize := Max(MIN_EDGE_SIZE, edgeSize);
      speedUnitsPerSecond := Max(MIN_SPEED, speedUnitsPerSecond);
    }
  }

  /** One entry of the cumulative-chance table: the running total of the chances up to and
      including `kind` */
  datatype ChanceEntry = ChanceEntry(spawnChance: real, kind: EnemyType)

  /** A chance as it counts towards the total: only positive chances do */
  function Counted(chance: real): real
  {
    if chance > 0.0 then chance else 0.0
  }

  /** The running total of the positive chances among the first k */
  function Running(chances: seq<real>, k: nat): (r: real)
    requires k <= |chances|
    ensures r >= 0.0
  {
    if k == 0 then 0.0 else Running(chances, k - 1) + Counted(chances[k - 1])
  }

  /** The cumulative-chance table SetActiveConfig has built after the first k types: one entry
      per type with a positive chance, in list order, carrying the running total. */
  function TableUpTo(kinds: seq<EnemyType>, chances: seq<real>, k: nat): (t: seq<ChanceEntry>)
    requires |kinds| == |chances| && k <= |kinds|
    ensures |t| <= k
  {
    if k == 0 then []
    else
      var prefix := TableUpTo(kinds, chances, k - 1);
      if chances[k - 1] > 0.0 then prefix + [ChanceEntry(Running(chances, k), kinds[k - 1])] else prefix
  }

  /** The whole cumulative-chance table */
  function CumulativeTable(kinds: seq<EnemyType>, chances: seq<real>): seq<ChanceEntry>
    requires |kinds| == |chances|
  {
    TableUpTo(kinds, chances, |kinds|)
  }

  /** The positions of the positive chances among the first k, in increasing order */
  function PositivesUpTo(chances: seq<real>, k: nat): (idx: seq<nat>)
    requires k <= |chances|
    ensures forall m :: 0 <= m < |idx| ==> idx[m] < k && chances[idx[m]] > 0.0
    ensures forall m, m' :: 0 <= m < m' < |idx| ==> idx[m] < idx[m']
  {
    if k == 0 then []
    else
      var prefix := PositivesUpTo(chances, k - 1);
      if chances[k - 1] > 0.0 then prefix + [k - 1] else prefix
  }

  /** Every positive chance among the first k is listed. */
  lemma {:induction false} PositivesComplete(chances: seq<real>, k: nat, i: nat)
    requires i < k <= |chances| && chances[i] > 0.0
    ensures i in PositivesUpTo(chances, k)
  {
    if i < k - 1 {
      PositivesComplete(chances, k - 1, i);
    }
  }

  predicate StrictlyIncreasing(table: seq<ChanceEntry>)
  {
    forall i, j :: 0 <= i < j < |table| ==> table[i].spawnChance < table[j].spawnChance
  }

  /** Running totals only grow along the list. */
  lemma {:induction false} RunningGrows(chances: seq<real>, a: nat, b: nat)
    requires a <= b <= |chances|
    ensures Running(chances, a) <= Running(chances, b)
    decreases b - a
  {
    if a < b {
      RunningGrows(chances, a, b - 1);
    }
  }

  /** The table's entries are exactly the positive-chance types in list order, each with the
      running total up to and including itself. */
  lemma {:induction false} TableEntries(kinds: seq<EnemyType>, chances: seq<real>, k: nat)
    requires |kinds| == |chances| && k <= |kinds|
    ensures var t, idx := TableUpTo(kinds, chances, k), PositivesUpTo(chances, k);
            |t| == |idx| &&
            forall m :: 0 <= m < |t| ==> t[m] == ChanceEntry(Running(chances, idx[m] + 1), kinds[idx[m]])
  {
    if k > 0 {
      TableEntries(kinds, chances, k - 1);
      var pt, pidx := TableUpTo(kinds, chances, k - 1), PositivesUpTo(chances, k - 1);
      var t, idx := TableUpTo(kinds, chances, k), PositivesUpTo(chances, k);
      if chances[k - 1] > 0.0 {
        assert t == pt + [ChanceEntry(Running(chances, k), kinds[k - 1])] && idx == pidx + [k - 1];
      } else {
        assert t == pt && idx == pidx;
      }
      forall m | 0 <= m < |t|
        ensures t[m] == ChanceEntry(Running(chances, idx[m] + 1), kinds[idx[m]])
      {
        if m < |pt| {
          assert t[m] == pt[m] && idx[m] == pidx[m];
        }
      }
    }
  }

  /** The table is strictly increasing, every entry is positive, and the last entry is the total
      of all positive chances. */
  lemma {:induction false} TableIsIncreasing(kinds: seq<EnemyType>, chances: seq<real>, k: nat)
    requires |kinds| == |chances| && k <= |kinds|
    ensures var t := TableUpTo(kinds, chances, k);
            StrictlyIncreasing(t) &&
            (forall m :: 0 <= m < |t| ==> 0.0 < t[m].spawnChance <= Running(chances, k)) &&
            (t != [] ==> t[|t| - 1].spawnChance == Running(chances, k))
  {
    if k > 0 {
      TableIsIncreasing(kinds, chances, k - 1);
    }
  }

  /** The index of the first entry whose running total reaches the roll */
  function FirstCovering(table: seq<ChanceEntry>, roll: real): (r: Option<nat>)
    ensures r.Some? ==> r.value < |table| && table[r.value].spawnChance >= roll &&
                        forall j :: 0 <= j < r.value ==> table[j].spawnChance < roll
    ensures r.None? ==> forall j :: 0 <= j < |table| ==> table[j].spawnChance < roll
  {
    if table == [] then Option.None
    else if table[0].spawnChance >= roll then Some(0)
    else match FirstCovering(table[1..], roll)
      case None => Option.None
      case Some(i) => Some(i + 1)
  }

  /** The type a roll draws from a non-empty table: the first covering entry's, or Simple when
      the roll lies above every entry */
  function PickedType(table: seq<ChanceEntry>, roll: real): EnemyType
  {
    match FirstCovering(table, roll)
    case Some(i) => table[i].kind
    case None => Simple
  }

  /** An entry that reaches the roll is never passed over: the scan stops there or earlier. */
  lemma {:induction false} CoveringIsNoLater(table: seq<ChanceEntry>, roll: real, i: nat)
    requires i < |table| && table[i].spawnChance >= roll
    ensures FirstCovering(table, roll).Some? && FirstCovering(table, roll).value <= i
  {
    if table[0].spawnChance < roll {
      CoveringIsNoLater(table[1..], roll, i - 1);
    }
  }

  /** In an increasing table, a roll in (previous total, own total] picks that entry. */
  lemma PickFallsInInterval(table: seq<ChanceEntry>, i: nat, roll: real)
    requires StrictlyIncreasing(table) && i < |table|
    requires i == 0 || table[i - 1].spawnChance < roll
    requires roll <= table[i].spawnChance
    ensures FirstCovering(table, roll) == Some(i)
  {
    CoveringIsNoLater(table, roll, i);
    assert forall j :: 0 <= j < i ==> table[j].spawnChance < roll;
  }

  /** A roll no larger than the last total always picks one of the table's entries. */
  lemma RollInRangePicksAnEntry(table: seq<ChanceEntry>, roll: real)
    requires table != [] && roll <= table[|table| - 1].spawnChance
    ensures FirstCovering(table, roll).Some?
  {
    CoveringIsNoLater(table, roll, |table| - 1);
  }

  /** Entry m of the table belongs to the m-th positive chance. */
  lemma EntryAt(kinds: seq<EnemyType>, chances: seq<real>, m: nat)
    requires |kinds| == |chances| && m < |PositivesUpTo(chances, |chances|)|
    ensures var idx := PositivesUpTo(chances, |chances|);
            m < |CumulativeTable(kinds, chances)| &&
            CumulativeTable(kinds, chances)[m] == ChanceEntry(Running(chances, idx[m] + 1), kinds[idx[m]])
  {
    TableEntries(kinds, chances, |kinds|);
  }

  /** The rank of a positive chance among the positive ones */
  lemma PositiveRank(chances: seq<real>, p: nat) returns (m: nat)
    requires p < |chances| && chances[p] > 0.0
    ensures var idx := PositivesUpTo(chances, |chances|);
            m < |idx| && idx[m] == p && (m > 0 ==> idx[m - 1] < p)
  {
    var idx := PositivesUpTo(chances, |chances|);
    PositivesComplete(chances, |chances|, p);
    m :| 0 <= m < |idx| && idx[m] == p;
  }

  /** Each spawnable type with a positive chance owns a slice of the roll range as wide as its
      chance: a roll in (total before it, total up to it] draws exactly that type. */
  lemma {:induction false} RollPicksItsInterval(kinds: seq<EnemyType>, chances: seq<real>, p: nat, roll: real)
    requires |kinds| == |chances| && p < |kinds| && chances[p] > 0.0
    requires Running(chances, p) < roll <= Running(chances, p + 1)
    ensures Running(chances, p + 1) - Running(chances, p) == chances[p]
    ensures PickedType(CumulativeTable(kinds, chances), roll) == kinds[p]
  {
    var t := CumulativeTable(kinds, chances);
    var m := PositiveRank(chances, p);
    EntryAt(kinds, chances, m);
    if m > 0 {
      var q := PositivesUpTo(chances, |chances|)[m - 1];
      EntryAt(kinds, chances, m - 1);
      RunningGrows(chances, q + 1, p);
    }
    TableIsIncreasing(kinds, chances, |kinds|);
    PickFallsInInterval(t, m, roll);
  }

  /** Small cumulative tables: with Zigzag alone any roll in [0, 1] draws Zigzag; with Zigzag 1
      and Jumper 1 (totals 1 and 2), 0.9 draws Zigzag and 1.2 draws Jumper. */
  lemma SpawnTableExamples(roll: real)
    requires 0.0 <= roll <= 1.0
    ensures PickedType([ChanceEntry(1.0, Zigzag)], roll) == Zigzag
    ensures PickedType([ChanceEntry(1.0, Zigzag), ChanceEntry(2.0, Jumper)], 0.9) == Zigzag
    ensures PickedType([ChanceEntry(1.0, Zigzag), ChanceEntry(2.0, Jumper)], 1.2) == Jumper
  {
    var t := [ChanceEntry(1.0, Zigzag), ChanceEntry(2.0, Jumper)];
    PickFallsInInterval([ChanceEntry(1.0, Zigzag)], 0, roll);
    PickFallsInInterval(t, 0, 0.9);
    PickFallsInInterval(t, 1, 1.2);
  }

  /** Zigzag 1, Jumper 1 and Simple 0.25 (totals 1, 2 and 2.25): 0.12 draws Zigzag, 1.99 draws
      Jumper and 2.01 draws Simple. */
  lemma ThreeEntryTableExamples()
    ensures PickedType([ChanceEntry(1.0, Zigzag), ChanceEntry(2.0, Jumper), ChanceEntry(2.25, Simple)], 0.12) == Zigzag
    ensures PickedType([ChanceEntry(1.0, Zigzag), ChanceEntry(2.0, Jumper), ChanceEntry(2.25, Simple)], 1.99) == Jumper
    ensures PickedType([ChanceEntry(1.0, Zigzag), ChanceEntry(2.0, Jumper), ChanceEntry(2.25, Simple)], 2.01) == Simple
  {
    var t := [ChanceEntry(1.0, Zigzag), ChanceEntry(2.0, Jumper), ChanceEntry(2.25, Simple)];
    PickFallsInInterval(t, 0, 0.12);
    PickFallsInInterval(t, 1, 1.99);
    PickFallsInInterval(t, 2, 2.01);
  }

  /** The roll PickRandomEnemyToSpawn uses: the override when it is not negative, the draw
      otherwise */
  function DiceRoll(chanceOverride: real, draw: real): real
  {
    if chanceOverride < 0.0 then draw else chanceOverride
  }

  /** PickRandomEnemyToSpawn: a missing table gives Simple, an empty one a drawn spawnable type,
      and otherwise the scan returns the first entry whose running total reaches the roll,
      falling back to Simple. `draw` stands for the draw in [0, last total] and `typeDraw` for
      the draw among the spawnable types. */
  method PickRandomEnemyToSpawn(table: Option<seq<ChanceEntry>>, chanceOverride: real, draw: real, typeDraw: nat)
    returns (kind: EnemyType)
    ensures kind == EnemyPick(table, chanceOverride, draw, typeDraw)
    ensures table.None? ==> kind == Simple
    ensures table == Some([]) ==> kind == SPAWNABLE_ENEMIES[typeDraw % |SPAWNABLE_ENEMIES|]
    ensures table.Some? && table.value != [] ==> kind == PickedType(table.value, DiceRoll(chanceOverride, draw))
  {
    if table.None? {
      return Simple;
    }
    var entries := table.value;
    if |entries| < 1 {
      return SPAWNABLE_ENEMIES[typeDraw % |SPAWNABLE_ENEMIES|];
    }
    var diceRoll := chanceOverride;
    if chanceOverride < 0.0 {
      diceRoll := draw;
    }
    var i := 0;
    while i < |entries|
      invariant 0 <= i <= |entries|
      invariant forall j :: 0 <= j < i ==> entries[j].spawnChance < diceRoll
    {
      if entries[i].spawnChance >= diceRoll {
        CoveringIsNoLater(entries, diceRoll, i);
        return entries[i].kind;
      }
      i := i + 1;
    }
    kind := Simple;
  }

  /** The number of spawn attempts of a frame in which `elapsed` seconds have built up since the
      last spawn: the whole part of elapsed/interval, capped at twelve, and none below one. */
  function SpawnRounds(elapsed: real, interval: real): nat
    requires interval > 0.0
  {
    var ideal := Min(elapsed / interval, MAX_SPAWN_COUNT_PER_FRAME);
    if ideal >= 1.0 then Trunc(ideal) else 0
  }

  /** A frame makes at most MAX_SPAWN_COUNT_PER_FRAME attempts and no more than the whole
      intervals the elapsed time holds, and at least one once a whole interval has elapsed. */
  lemma SpawnRoundsBounds(elapsed: real, interval: real)
    requires interval > 0.0
    ensures var n := SpawnRounds(elapsed, interval);
      n as real <= MAX_SPAWN_COUNT_PER_FRAME &&
      (n > 0 ==> n as real <= elapsed / interval) &&
      (elapsed / interval >= 1.0 ==> n >= 1)
  {
  }

  /** The attempts of a frame never spend more than the elapsed time, so the elapsed time never
      becomes negative. */
  lemma SpawnBudgetFits(elapsed: real, interval: real)
    requires interval > 0.0 && elapsed >= 0.0
    ensures (SpawnRounds(elapsed, interval) as real) * interval <= elapsed
  {
    var q := elapsed / interval;
    SpawnRoundsBounds(elapsed, interval);
    assert q * interval == elapsed;
    MulMono(SpawnRounds(elapsed, interval) as real, q, interval);
  }

  /** However many of the frame's attempts succeed, they spend no more than the elapsed time. */
  lemma AttemptsFitElapsed(elapsed: real, interval: real, spawnedNow: nat)
    requires interval > 0.0 && elapsed >= 0.0 && spawnedNow <= SpawnRounds(elapsed, interval)
    ensures (spawnedNow as real) * interval <= elapsed
  {
    var rounds := SpawnRounds(elapsed, interval) as real;
    SpawnBudgetFits(elapsed, interval);
    MulMono(spawnedNow as real, rounds, interval);
    calc {
      (spawnedNow as real) * interval;
    <=
      rounds * interval;
    <=
      elapsed;
    }
  }

  /** Candidate `q` of the round drawn as `ring` = (cos·distance, sin·distance), at height `h`:
      the four are the same point turned by successive quarter turns about the vertical axis. */
  function Candidate(ring: (real, real), q: nat, h: real): Vec3
    requires q < CANDIDATES_PER_TRY
  {
    var (c, s) := ring;
    if q == 0 then Vec3(c, h, s)
    else if q == 1 then Vec3(s, h, -c)
    else if q == 2 then Vec3(-c, h, -s)
    else Vec3(-s, h, c)
  }

  /** A quarter turn about the vertical axis */
  function QuarterTurn(v: Vec3): Vec3
  {
    Vec3(v.z, v.y, -v.x)
  }

  /** The four candidates of a round are successive quarter turns of the first, all at the
      cube's centre height and all as far from the player's axis as the drawn distance. */
  lemma CandidatesAreQuarterTurns(ring: (real, real), h: real)
    ensures forall q: nat :: q < CANDIDATES_PER_TRY - 1 ==> Candidate(ring, q + 1, h) == QuarterTurn(Candidate(ring, q, h))
    ensures QuarterTurn(Candidate(ring, CANDIDATES_PER_TRY - 1, h)) == Candidate(ring, 0, h)
    ensures forall q: nat :: q < CANDIDATES_PER_TRY ==>
      Candidate(ring, q, h).y == h &&
      Candidate(ring, q, h).x * Candidate(ring, q, h).x + Candidate(ring, q, h).z * Candidate(ring, q, h).z
        == ring.0 * ring.0 + ring.1 * ring.1
  {
  }

  /** The candidates of one round, as the candidate array holds them */
  function Round(ring: (real, real), h: real): (r: seq<Vec3>)
    ensures |r| == CANDIDATES_PER_TRY
    ensures forall q :: 0 <= q < CANDIDATES_PER_TRY ==> r[q] == Candidate(ring, q, h)
  {
    [Candidate(ring, 0, h), Candidate(ring, 1, h), Candidate(ring, 2, h), Candidate(ring, 3, h)]
  }

  /** Candidate number `m` in the order of the search: round m / 4, candidate m % 4 */
  function SlotCandidate(rings: nat -> (real, real), h: real, m: nat): Vec3
  {
    Candidate(rings(m / CANDIDATES_PER_TRY), m % CANDIDATES_PER_TRY, h)
  }

  lemma SlotOf(t: nat, q: nat)
    requires q < CANDIDATES_PER_TRY
    ensures (CANDIDATES_PER_TRY * t + q) / CANDIDATES_PER_TRY == t
    ensures (CANDIDATES_PER_TRY * t + q) % CANDIDATES_PER_TRY == q
  {
  }

  /** The first slot from `n` on whose candidate is clear */
  function FirstClearSlot(rings: nat -> (real, real), h: real, radius: real, clear: (real, Vec3) -> bool, n: nat): (r: Option<nat>)
    requires n <= SPAWN_SLOTS
    decreases SPAWN_SLOTS - n
  {
    if n == SPAWN_SLOTS then Option.None
    else if clear(radius, SlotCandidate(rings, h, n)) then Some(n)
    else FirstClearSlot(rings, h, radius, clear, n + 1)
  }

  /** The search finds the first clear slot from n on, and finds none only when every slot from
      n on is blocked. */
  lemma {:induction false} FirstClearSlotIsFirst(rings: nat -> (real, real), h: real, radius: real, clear: (real, Vec3) -> bool, n: nat)
    requires n <= SPAWN_SLOTS
    decreases SPAWN_SLOTS - n
    ensures var r := FirstClearSlot(rings, h, radius, clear, n);
      (r.Some? ==> n <= r.value < SPAWN_SLOTS && clear(radius, SlotCandidate(rings, h, r.value)) &&
                   forall m :: n <= m < r.value ==> !clear(radius, SlotCandidate(rings, h, m))) &&
      (r.None? ==> forall m :: n <= m < SPAWN_SLOTS ==> !clear(radius, SlotCandidate(rings, h, m)))
  {
    if n < SPAWN_SLOTS && !clear(radius, SlotCandidate(rings, h, n)) {
      FirstClearSlotIsFirst(rings, h, radius, clear, n + 1);
    }
  }

  /** The height of a spawned cube's centre, and the radius kept clear around it */
  function SpawnHeight(config: EnemyConfig): real
    reads config
  {
    config.edgeSize / 2.0
  }

  function SpawnRadius(config: EnemyConfig): real
    reads config
  {
    config.halfBodyDiagonal + SPAWN_CLEARANCE_MARGIN
  }

  /** The draws of one spawn attempt: the type roll in [0, last total], the type drawn when the
      table is empty, and each round's (cos·distance, sin·distance) */
  datatype AttemptDraws = AttemptDraws(typeRoll: real, typeDraw: nat, rings: nat -> (real, real))

  /** The type PickRandomEnemyToSpawn returns */
  function EnemyPick(table: Option<seq<ChanceEntry>>, chanceOverride: real, draw: real, typeDraw: nat): EnemyType
  {
    match table
    case None => Simple
    case Some(entries) =>
      if entries == [] then SPAWNABLE_ENEMIES[typeDraw % |SPAWNABLE_ENEMIES|]
      else PickedType(entries, DiceRoll(chanceOverride, draw))
  }

  /** A clear slot is never passed over: the search stops there or earlier. */
  lemma {:induction false} ClearSlotIsNoLater(rings: nat -> (real, real), h: real, radius: real, clear: (real, Vec3) -> bool,
                                             n: nat, m: nat)
    requires n <= m < SPAWN_SLOTS && clear(radius, SlotCandidate(rings, h, m))
    ensures FirstClearSlot(rings, h, radius, clear, n).Some? && FirstClearSlot(rings, h, radius, clear, n).value <= m
    decreases m - n
  {
    if !clear(radius, SlotCandidate(rings, h, n)) {
      ClearSlotIsNoLater(rings, h, radius, clear, n + 1, m);
    }
  }

  /** A round whose first clear candidate is q, after rounds with none, holds the first clear
      slot of the whole search. */
  lemma FoundInRound(rings: nat -> (real, real), h: real, radius: real, clear: (real, Vec3) -> bool, t: nat, q: nat)
    requires t < SPAWN_POSITION_TRIES && q < CANDIDATES_PER_TRY
    requires forall m :: 0 <= m < CANDIDATES_PER_TRY * t ==> !clear(radius, SlotCandidate(rings, h, m))
    requires forall j :: 0 <= j < q ==> !clear(radius, Candidate(rings(t), j, h))
    requires clear(radius, Candidate(rings(t), q, h))
    ensures var slot := CANDIDATES_PER_TRY * t + q;
      FirstClearSlot(rings, h, radius, clear, 0) == Some(slot) &&
      slot / CANDIDATES_PER_TRY == t && SlotCandidate(rings, h, slot) == Candidate(rings(t), q, h)
  {
    var slot := CANDIDATES_PER_TRY * t + q;
    SlotOf(t, q);
    forall m | CANDIDATES_PER_TRY * t <= m < slot
      ensures !clear(radius, SlotCandidate(rings, h, m))
    {
      SlotOf(t, m - CANDIDATES_PER_TRY * t);
    }
    ClearSlotIsNoLater(rings, h, radius, clear, 0, slot);
    FirstClearSlotIsFirst(rings, h, radius, clear, 0);
  }

  /** When no slot is clear the search finds nothing. */
  lemma NoClearSlot(rings: nat -> (real, real), h: real, radius: real, clear: (real, Vec3) -> bool)
    requires forall m :: 0 <= m < SPAWN_SLOTS ==> !clear(radius, SlotCandidate(rings, h, m))
    ensures FirstClearSlot(rings, h, radius, clear, 0) == Option.None
  {
    FirstClearSlotIsFirst(rings, h, radius, clear, 0);
  }

  /** A round with no clear candidate extends the slots known to be blocked by one round. */
  lemma MissedRound(rings: nat -> (real, real), h: real, radius: real, clear: (real, Vec3) -> bool, t: nat)
    requires forall m :: 0 <= m < CANDIDATES_PER_TRY * t ==> !clear(radius, SlotCandidate(rings, h, m))
    requires forall j :: 0 <= j < CANDIDATES_PER_TRY ==> !clear(radius, Candidate(rings(t), j, h))
    ensures forall m :: 0 <= m < CANDIDATES_PER_TRY * (t + 1) ==> !clear(radius, SlotCandidate(rings, h, m))
  {
    forall m | CANDIDATES_PER_TRY * t <= m < CANDIDATES_PER_TRY * (t + 1)
      ensures !clear(radius, SlotCandidate(rings, h, m))
    {
      SlotOf(t, m - CANDIDATES_PER_TRY * t);
    }
  }

  /** Assets/SpawnLogic/Scripts/SpawnManager.cs */
  class SpawnManager {
    /** The waves of the spawn configuration */
    const waves: seq<WaveConfig>
    const candidateSpawnPositions: array<Vec3>
    var enemyConfigsByType: map<EnemyType, EnemyConfig>
    var activeConfig: Option<WaveConfig>
    var activeWaveIndex: int
    var eliminatedCubeCount: int
    var liveEnemyCount: int
    var elapsedSinceLastSpawn: real
    var spawnCancelToken: bool
    var cumulativeSpawnChances: seq<ChanceEntry>
    /** Whether the spawn coroutine is running, and the interval it computed when it started */
    var spawnRoutineRunning: bool
    var spawnInterval: real
    /** The enemies instantiated so far, with their configuration and position */
    var spawned: seq<(EnemyConfig, Vec3)>

    constructor (waves: seq<WaveConfig>)
      ensures this.waves == waves && fresh(candidateSpawnPositions) && candidateSpawnPositions.Length == CANDIDATES_PER_TRY
      ensures enemyConfigsByType == map[] && activeConfig.None? && cumulativeSpawnChances == []
      ensures activeWaveIndex == 0 && eliminatedCubeCount == 0 && liveEnemyCount == 0
      ensures elapsedSinceLastSpawn == 0.0 && !spawnCancelToken && !spawnRoutineRunning && spawned == []
    {
      this.waves := waves;
      candidateSpawnPositions := new Vec3[CANDIDATES_PER_TRY](_ => Zero);
      enemyConfigsByType := map[];
      activeConfig := Option.None;
      activeWaveIndex := 0;
      eliminatedCubeCount := 0;
      liveEnemyCount := 0;
      elapsedSinceLastSpawn := 0.0;
      spawnCancelToken := false;
      cumulativeSpawnChances := [];
      spawnRoutineRunning := false;
      spawnInterval := MIN_SPAWN_INTERVAL;
      spawned := [];
    }

    /** Init: indexes the enemy configurations by their type. A second configuration of the same
        type makes the dictionary throw; the entries added before it stay. */
    method Init(enemyConfigs: seq<EnemyConfig>) returns (r: Result<()>)
      modifies this
      ensures r.Ok? <==> forall i, j :: 0 <= i < j < |enemyConfigs| ==> enemyConfigs[i].kind != enemyConfigs[j].kind
      ensures r.Fail? ==> r.fault == DuplicateKey
      ensures r.Ok? ==> enemyConfigsByType.Keys == set i | 0 <= i < |enemyConfigs| :: enemyConfigs[i].kind
      ensures r.Ok? ==> forall i :: 0 <= i < |enemyConfigs| ==> enemyConfigsByType[enemyConfigs[i].kind] == enemyConfigs[i]
      ensures activeConfig == old(activeConfig) && cumulativeSpawnChances == old(cumulativeSpawnChances)
      ensures liveEnemyCount == old(liveEnemyCount) && spawned == old(spawned)
      ensures elapsedSinceLastSpawn == old(elapsedSinceLastSpawn) && activeWaveIndex == old(activeWaveIndex)
      ensures eliminatedCubeCount == old(eliminatedCubeCount) && spawnCancelToken == old(spawnCancelToken)
      ensures spawnRoutineRunning == old(spawnRoutineRunning) && spawnInterval == old(spawnInterval)
    {
      enemyConfigsByType := map[];
      var i := 0;
      while i < |enemyConfigs|
        invariant 0 <= i <= |enemyConfigs|
        invariant forall a, b :: 0 <= a < b < i ==> enemyConfigs[a].kind != enemyConfigs[b].kind
        invariant enemyConfigsByType.Keys == set a | 0 <= a < i :: enemyConfigs[a].kind
        invariant forall a :: 0 <= a < i ==> enemyConfigsByType[enemyConfigs[a].kind] == enemyConfigs[a]
        invariant activeConfig == old(activeConfig) && cumulativeSpawnChances == old(cumulativeSpawnChances)
        invariant liveEnemyCount == old(liveEnemyCount) && spawned == old(spawned)
        invariant elapsedSinceLastSpawn == old(elapsedSinceLastSpawn) && activeWaveIndex == old(activeWaveIndex)
        invariant eliminatedCubeCount == old(eliminatedCubeCount) && spawnCancelToken == old(spawnCancelToken)
        invariant spawnRoutineRunning == old(spawnRoutineRunning) && spawnInterval == old(spawnInterval)
      {
        var config := enemyConfigs[i];
        if config.kind in enemyConfigsByType {
          var a :| 0 <= a < i && enemyConfigs[a].kind == config.kind;
          return Fail(DuplicateKey);
        }
        enemyConfigsByType := enemyConfigsByType[config.kind := config];
        i := i + 1;
      }
      r := Ok(());
    }

    /** SetActiveConfig: makes wave `waveConfigIndex` the active one and rebuilds the
        cumulative-chance table from its chances. An index outside the waves throws after the
        index was stored. */
    method SetActiveConfig(waveConfigIndex: int) returns (r: Result<()>)
      modifies this
      ensures activeWaveIndex == waveConfigIndex
      ensures !(0 <= waveConfigIndex < |waves|) ==>
        r == Fail(IndexOutOfRange) && activeConfig == old(activeConfig) &&
        cumulativeSpawnChances == old(cumulativeSpawnChances)
      ensures 0 <= waveConfigIndex < |waves| ==>
        r == Ok(()) && activeConfig == Some(waves[waveConfigIndex]) &&
        cumulativeSpawnChances == CumulativeTable(SPAWNABLE_ENEMIES, waves[waveConfigIndex].SpawnChances())
      ensures enemyConfigsByType == old(enemyConfigsByType) && liveEnemyCount == old(liveEnemyCount)
      ensures elapsedSinceLastSpawn == old(elapsedSinceLastSpawn) && spawned == old(spawned)
      ensures eliminatedCubeCount == old(eliminatedCubeCount) && spawnCancelToken == old(spawnCancelToken)
      ensures spawnRoutineRunning == old(spawnRoutineRunning) && spawnInterval == old(spawnInterval)
    {
      activeWaveIndex := waveConfigIndex;
      if !(0 <= waveConfigIndex < |waves|) {
        return Fail(IndexOutOfRange);
      }
      var wave := waves[waveConfigIndex];
      activeConfig := Some(wave);
      ghost var chances := wave.SpawnChances();
      cumulativeSpawnChances := [];
      var totalSpawnChance := 0.0;
      for j := 0 to |SPAWNABLE_ENEMIES|
        invariant cumulativeSpawnChances == TableUpTo(SPAWNABLE_ENEMIES, chances, j)
        invariant totalSpawnChance == Running(chances, j)
        invariant activeWaveIndex == waveConfigIndex && activeConfig == Some(wave)
        invariant enemyConfigsByType == old(enemyConfigsByType) && liveEnemyCount == old(liveEnemyCount)
        invariant elapsedSinceLastSpawn == old(elapsedSinceLastSpawn) && spawned == old(spawned)
        invariant eliminatedCubeCount == old(eliminatedCubeCount) && spawnCancelToken == old(spawnCancelToken)
        invariant spawnRoutineRunning == old(spawnRoutineRunning) && spawnInterval == old(spawnInterval)
      {
        var enemyType := SPAWNABLE_ENEMIES[j];
        var spawnChance := wave.GetSpawnChance(enemyType);
        if spawnChance > 0.0 {
          totalSpawnChance := totalSpawnChance + spawnChance;
          cumulativeSpawnChances := cumulativeSpawnChances + [ChanceEntry(totalSpawnChance, enemyType)];
        }
      }
      r := Ok(());
    }

    /** One round of candidates written into the candidate array */
    method FillRound(ring: (real, real), h: real)
      requires candidateSpawnPositions.Length == CANDIDATES_PER_TRY
      modifies candidateSpawnPositions
      ensures candidateSpawnPositions[..] == Round(ring, h)
    {
      candidateSpawnPositions[0] := Candidate(ring, 0, h);
      candidateSpawnPositions[1] := Candidate(ring, 1, h);
      candidateSpawnPositions[2] := Candidate(ring, 2, h);
      candidateSpawnPositions[3] := Candidate(ring, 3, h);
    }

    /** The scan of the candidate array: the first candidate the overlap test finds clear */
    method FirstClearInRound(radius: real, clear: (real, Vec3) -> bool) returns (q: Option<nat>)
      ensures q.Some? ==> q.value < candidateSpawnPositions.Length && clear(radius, candidateSpawnPositions[q.value]) &&
                          forall j :: 0 <= j < q.value ==> !clear(radius, candidateSpawnPositions[j])
      ensures q.None? ==> forall j :: 0 <= j < candidateSpawnPositions.Length ==> !clear(radius, candidateSpawnPositions[j])
    {
      for j := 0 to candidateSpawnPositions.Length
        invariant forall k :: 0 <= k < j ==> !clear(radius, candidateSpawnPositions[k])
      {
        if clear(radius, candidateSpawnPositions[j]) {
          return Some(j);
        }
      }
      q := Option.None;
    }

    /** TryPickRandomPositionToSpawn: up to eight rounds of four candidates around the player at
        the drawn ring (`rings(t)` is round t's (cos·distance, sin·distance)); the first clear
        candidate is returned. Without an enemy configuration nothing is tried; when every
        candidate is taken the result is false and the zero vector. The rounds read the active
        wave's spawn distances, so they throw when no wave is active. */
    method TryPickRandomPositionToSpawn(enemyConfig: Option<EnemyConfig>, rings: nat -> (real, real),
                                        clear: (real, Vec3) -> bool)
      returns (r: Result<bool>, position: Vec3)
      requires candidateSpawnPositions.Length == CANDIDATES_PER_TRY
      modifies candidateSpawnPositions
      ensures enemyConfig.None? ==> r == Ok(false) && position == Zero && unchanged(candidateSpawnPositions)
      ensures enemyConfig.Some? && activeConfig.None? ==> r == Fail(NullReference)
      ensures enemyConfig.Some? && activeConfig.Some? ==>
        var h := SpawnHeight(enemyConfig.value);
        match FirstClearSlot(rings, h, SpawnRadius(enemyConfig.value), clear, 0)
        case Some(m) =>
          r == Ok(true) && position == SlotCandidate(rings, h, m) &&
          candidateSpawnPositions[..] == Round(rings(m / CANDIDATES_PER_TRY), h)
        case None =>
          r == Ok(false) && position == Zero &&
          candidateSpawnPositions[..] == Round(rings(SPAWN_POSITION_TRIES - 1), h)
    {
      if enemyConfig.None? {
        return Ok(false), Zero;
      }
      if activeConfig.None? {
        return Fail(NullReference), Zero;
      }
      var config := enemyConfig.value;
      var h := SpawnHeight(config);
      var radius := SpawnRadius(config);
      var t := 0;
      while t < SPAWN_POSITION_TRIES
        invariant 0 <= t <= SPAWN_POSITION_TRIES
        invariant forall m :: 0 <= m < CANDIDATES_PER_TRY * t ==> !clear(radius, SlotCandidate(rings, h, m))
        invariant t > 0 ==> candidateSpawnPositions[..] == Round(rings(t - 1), h)
      {
        var q := TryRound(rings, h, radius, clear, t);
        if q.Some? {
          assert SpawnHeight(config) == h && SpawnRadius(config) == radius;
          return Ok(true), candidateSpawnPositions[q.value];
        }
        t := t + 1;
      }
      NoClearSlot(rings, h, radius, clear);
      assert SpawnHeight(config) == h && SpawnRadius(config) == radius;
      return Ok(false), Zero;
    }

    /** Round t of TryPickRandomPositionToSpawn, after t rounds without a clear candidate: its
        candidates are written into the array and scanned. */
    method TryRound(rings: nat -> (real, real), h: real, radius: real, clear: (real, Vec3) -> bool, t: nat)
      returns (q: Option<nat>)
      requires t < SPAWN_POSITION_TRIES && candidateSpawnPositions.Length == CANDIDATES_PER_TRY
      requires forall m :: 0 <= m < CANDIDATES_PER_TRY * t ==> !clear(radius, SlotCandidate(rings, h, m))
      modifies candidateSpawnPositions
      ensures candidateSpawnPositions[..] == Round(rings(t), h)
      ensures q.Some? ==>
        var m := CANDIDATES_PER_TRY * t + q.value;
        q.value < CANDIDATES_PER_TRY && FirstClearSlot(rings, h, radius, clear, 0) == Some(m) &&
        m / CANDIDATES_PER_TRY == t && SlotCandidate(rings, h, m) == candidateSpawnPositions[q.value]
      ensures q.None? ==> forall m :: 0 <= m < CANDIDATES_PER_TRY * (t + 1) ==> !clear(radius, SlotCandidate(rings, h, m))
    {
      FillRound(rings(t), h);
      q := FirstClearInRound(radius, clear);
      if q.Some? {
        FoundInRound(rings, h, radius, clear, t, q.value);
      } else {
        MissedRound(rings, h, radius, clear, t);
      }
    }

    /** The state a spawn attempt leaves alone */
    function Setup(): (map<EnemyType, EnemyConfig>, Option<WaveConfig>, int, seq<ChanceEntry>, bool, real, bool, int)
      reads this`enemyConfigsByType, this`activeConfig, this`activeWaveIndex, this`cumulativeSpawnChances
      reads this`spawnRoutineRunning, this`spawnInterval, this`spawnCancelToken, this`eliminatedCubeCount
    {
      (enemyConfigsByType, activeConfig, activeWaveIndex, cumulativeSpawnChances,
       spawnRoutineRunning, spawnInterval, spawnCancelToken, eliminatedCubeCount)
    }

    /** The candidate array has its four slots, and a running spawn routine has an active wave
        and its interval. */
    predicate Valid()
      reads this`spawnRoutineRunning, this`activeConfig, this`spawnInterval
    {
      candidateSpawnPositions.Length == CANDIDATES_PER_TRY &&
      (spawnRoutineRunning ==> activeConfig.Some? && spawnInterval >= MIN_SPAWN_INTERVAL)
    }

    /** DoSpawn: the enemy is instantiated with its configuration at the position, and one more
        enemy is alive. */
    method DoSpawn(enemyConfig: EnemyConfig, spawnPosition: Vec3)
      modifies this
      ensures liveEnemyCount == old(liveEnemyCount) + 1
      ensures spawned == old(spawned) + [(enemyConfig, spawnPosition)]
      ensures Setup() == old(Setup()) && elapsedSinceLastSpawn == old(elapsedSinceLastSpawn)
    {
      spawned := spawned + [(enemyConfig, spawnPosition)];
      liveEnemyCount := liveEnemyCount + 1;
    }

    /** TrySpawnNewEnemy: draws a type, looks up its configuration and looks for a free position;
        an enemy is spawned exactly when both succeed, and that is the result. (The wave passed
        in by the caller is not used.) */
    method TrySpawnNewEnemy(table: Option<seq<ChanceEntry>>, draws: AttemptDraws, clear: (real, Vec3) -> bool)
      returns (r: Result<bool>)
      requires candidateSpawnPositions.Length == CANDIDATES_PER_TRY
      modifies this, candidateSpawnPositions
      ensures Setup() == old(Setup()) && elapsedSinceLastSpawn == old(elapsedSinceLastSpawn)
      ensures var kind := EnemyPick(table, -1.0, draws.typeRoll, draws.typeDraw);
        if kind !in enemyConfigsByType then
          r == Ok(false) && liveEnemyCount == old(liveEnemyCount) && spawned == old(spawned)
        else if activeConfig.None? then
          r == Fail(NullReference) && liveEnemyCount == old(liveEnemyCount) && spawned == old(spawned)
        else
          var config := enemyConfigsByType[kind];
          var h := SpawnHeight(config);
          match FirstClearSlot(draws.rings, h, SpawnRadius(config), clear, 0)
          case Some(m) =>
            r == Ok(true) && liveEnemyCount == old(liveEnemyCount) + 1 &&
            spawned == old(spawned) + [(config, SlotCandidate(draws.rings, h, m))]
          case None =>
            r == Ok(false) && liveEnemyCount == old(liveEnemyCount) && spawned == old(spawned)
    {
      var success := true;
      var enemyToSpawnType := PickRandomEnemyToSpawn(table, -1.0, draws.typeRoll, draws.typeDraw);
      var found := enemyToSpawnType in enemyConfigsByType;
      var enemyConfig := if found then Some(enemyConfigsByType[enemyToSpawnType]) else Option.None;
      success := success && found;
      var picked, spawnPosition := TryPickRandomPositionToSpawn(enemyConfig, draws.rings, clear);
      if picked.Fail? {
        return Fail(picked.fault);
      }
      success := success && picked.value;
      if success {
        DoSpawn(enemyConfig.value, spawnPosition);
      }
      r := Ok(success);
    }

    /** One frame of SpawnRoutine. A cancelled routine ends. Otherwise the frame's time is added
        to the time since the last spawn, and the frame makes SpawnRounds attempts; an attempt is
        only made while fewer enemies live than the wave allows, and each spawn pays one interval
        of the elapsed time. `draws(i)` are the draws of attempt i. */
    method SpawnFrame(deltaTime: real, draws: nat -> AttemptDraws, clear: (real, Vec3) -> bool)
      returns (rounds: nat, spawnedNow: nat)
      requires Valid() && spawnRoutineRunning
      modifies this, candidateSpawnPositions
      ensures Valid()
      ensures old(spawnCancelToken) ==>
        !spawnRoutineRunning && rounds == 0 && spawnedNow == 0 &&
        elapsedSinceLastSpawn == old(elapsedSinceLastSpawn) && liveEnemyCount == old(liveEnemyCount) && spawned == old(spawned)
      ensures !old(spawnCancelToken) ==>
        Setup() == old(Setup()) &&
        rounds == SpawnRounds(old(elapsedSinceLastSpawn) + deltaTime, spawnInterval) && spawnedNow <= rounds &&
        elapsedSinceLastSpawn == old(elapsedSinceLastSpawn) + deltaTime - (spawnedNow as real) * spawnInterval &&
        liveEnemyCount == old(liveEnemyCount) + spawnedNow &&
        |spawned| == |old(spawned)| + spawnedNow && spawned[..|old(spawned)|] == old(spawned)
      ensures old(liveEnemyCount) as real >= old(activeConfig).value.maxLiveCubeCount ==> spawnedNow == 0
      ensures var cap := old(activeConfig).value.maxLiveCubeCount;
        cap == cap.Floor as real && old(liveEnemyCount) as real <= cap ==> liveEnemyCount as real <= cap
      ensures old(elapsedSinceLastSpawn) >= 0.0 && deltaTime >= 0.0 ==> elapsedSinceLastSpawn >= 0.0
    {
      if spawnCancelToken {
        spawnRoutineRunning := false;
        return 0, 0;
      }
      var wave := activeConfig.value;
      var start := elapsedSinceLastSpawn + deltaTime;
      elapsedSinceLastSpawn := start;
      rounds := SpawnRounds(start, spawnInterval);
      ghost var interval := spawnInterval;
      spawnedNow := RunAttempts(wave, rounds, draws, clear);
      assert spawnInterval == interval;
      if start >= 0.0 {
        AttemptsFitElapsed(start, interval, spawnedNow);
      }
    }

    /** The attempts of one frame, `rounds` of them */
    method RunAttempts(wave: WaveConfig, rounds: nat, draws: nat -> AttemptDraws, clear: (real, Vec3) -> bool)
      returns (spawnedNow: nat)
      requires Valid() && activeConfig == Some(wave)
      modifies this, candidateSpawnPositions
      ensures Valid() && Setup() == old(Setup())
      ensures spawnedNow <= rounds
      ensures elapsedSinceLastSpawn == old(elapsedSinceLastSpawn) - (spawnedNow as real) * spawnInterval
      ensures liveEnemyCount == old(liveEnemyCount) + spawnedNow
      ensures |spawned| == |old(spawned)| + spawnedNow && spawned[..|old(spawned)|] == old(spawned)
      ensures old(liveEnemyCount) as real >= wave.maxLiveCubeCount ==> spawnedNow == 0
      ensures wave.maxLiveCubeCount == wave.maxLiveCubeCount.Floor as real && old(liveEnemyCount) as real <= wave.maxLiveCubeCount ==>
        liveEnemyCount as real <= wave.maxLiveCubeCount
    {
      spawnedNow := 0;
      ghost var start := elapsedSinceLastSpawn;
      ghost var spawnedBefore := spawned;
      ghost var liveBefore := liveEnemyCount;
      ghost var setup := Setup();
      for i := 0 to rounds
        invariant Valid() && Setup() == setup
        invariant spawnedNow <= i
        invariant elapsedSinceLastSpawn == start - (spawnedNow as real) * spawnInterval
        invariant liveEnemyCount == liveBefore + spawnedNow
        invariant |spawned| == |spawnedBefore| + spawnedNow && spawned[..|spawnedBefore|] == spawnedBefore
        invariant liveBefore as real >= wave.maxLiveCubeCount ==> spawnedNow == 0
        invariant wave.maxLiveCubeCount == wave.maxLiveCubeCount.Floor as real && liveBefore as real <= wave.maxLiveCubeCount ==>
          liveEnemyCount as real <= wave.maxLiveCubeCount
      {
        ghost var before := spawned;
        ghost var liveNow := liveEnemyCount;
        var success := SpawnAttempt(wave, draws(i), clear);
        if success {
          assert liveNow as real < wave.maxLiveCubeCount;
          assert wave.maxLiveCubeCount == wave.maxLiveCubeCount.Floor as real ==> liveNow < wave.maxLiveCubeCount.Floor;
          assert spawned[..|spawnedBefore|] == before[..|spawnedBefore|];
          assert (spawnedNow + 1) as real * spawnInterval == (spawnedNow as real) * spawnInterval + spawnInterval;
          spawnedNow := spawnedNow + 1;
        }
      }
    }

    /** One attempt of a frame: made only while fewer enemies live than the wave allows, and a
        spawn pays one interval of the elapsed time. */
    method SpawnAttempt(wave: WaveConfig, draws: AttemptDraws, clear: (real, Vec3) -> bool) returns (success: bool)
      requires Valid() && activeConfig == Some(wave)
      modifies this, candidateSpawnPositions
      ensures Valid() && Setup() == old(Setup())
      ensures old(liveEnemyCount) as real >= wave.maxLiveCubeCount ==> !success
      ensures success ==>
        liveEnemyCount == old(liveEnemyCount) + 1 && |spawned| == |old(spawned)| + 1 &&
        spawned[..|old(spawned)|] == old(spawned) &&
        elapsedSinceLastSpawn == old(elapsedSinceLastSpawn) - spawnInterval
      ensures !success ==>
        liveEnemyCount == old(liveEnemyCount) && spawned == old(spawned) &&
        elapsedSinceLastSpawn == old(elapsedSinceLastSpawn)
    {
      success := false;
      if (liveEnemyCount as real) < wave.maxLiveCubeCount {
        var r := TrySpawnNewEnemy(Some(cumulativeSpawnChances), draws, clear);
        if r == Ok(true) {
          elapsedSinceLastSpawn := elapsedSinceLastSpawn - spawnInterval;
          success := true;
        }
      }
    }

    /** ResetVariables: no active wave, every counter and the elapsed time at zero, the cancel
        token down and the cumulative table empty. */
    method ResetVariables()
      modifies this
      ensures activeConfig.None? && activeWaveIndex == 0 && eliminatedCubeCount == 0
      ensures elapsedSinceLastSpawn == 0.0 && liveEnemyCount == 0 && !spawnCancelToken && cumulativeSpawnChances == []
      ensures enemyConfigsByType == old(enemyConfigsByType) && spawned == old(spawned)
      ensures spawnRoutineRunning == old(spawnRoutineRunning) && spawnInterval == old(spawnInterval)
    {
      activeConfig := Option.None;
      activeWaveIndex := 0;
      eliminatedCubeCount := 0;
      elapsedSinceLastSpawn := 0.0;
      liveEnemyCount := 0;
      spawnCancelToken := false;
      cumulativeSpawnChances := [];
    }

    /** ResetSpawningCompletely: the variables are reset and the spawn routine is stopped. */
    method ResetSpawningCompletely()
      requires candidateSpawnPositions.Length == CANDIDATES_PER_TRY
      modifies this
      ensures Valid() && !spawnRoutineRunning
      ensures activeConfig.None? && activeWaveIndex == 0 && eliminatedCubeCount == 0
      ensures elapsedSinceLastSpawn == 0.0 && liveEnemyCount == 0 && !spawnCancelToken && cumulativeSpawnChances == []
      ensures enemyConfigsByType == old(enemyConfigsByType) && spawned == old(spawned)
    {
      ResetVariables();
      spawnRoutineRunning := false;
    }

    /** StartSpawning, up to the first frame of SpawnRoutine: the variables are reset, the first
        wave becomes active and the interval is that wave's, but never below the minimum. With no
        wave at all the routine throws and ends. */
    method StartSpawning() returns (r: Result<()>)
      requires candidateSpawnPositions.Length == CANDIDATES_PER_TRY
      modifies this
      ensures Valid()
      ensures activeWaveIndex == 0 && eliminatedCubeCount == 0 && elapsedSinceLastSpawn == 0.0
      ensures liveEnemyCount == 0 && !spawnCancelToken
      ensures enemyConfigsByType == old(enemyConfigsByType) && spawned == old(spawned)
      ensures waves == [] ==> r == Fail(IndexOutOfRange) && !spawnRoutineRunning
      ensures waves != [] ==>
        r == Ok(()) && spawnRoutineRunning && activeConfig == Some(waves[0]) &&
        cumulativeSpawnChances == CumulativeTable(SPAWNABLE_ENEMIES, waves[0].SpawnChances()) &&
        spawnInterval == Max(MIN_SPAWN_INTERVAL, waves[0].spawnIntervalSeconds)
    {
      ResetVariables();
      r := SetActiveConfig(activeWaveIndex);
      if r.Fail? {
        spawnRoutineRunning := false;
        return;
      }
      spawnInterval := Max(MIN_SPAWN_INTERVAL, activeConfig.value.spawnIntervalSeconds);
      spawnRoutineRunning := true;
    }
  }
}
