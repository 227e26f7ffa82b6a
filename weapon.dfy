/** The player's weapon: a cooldown gate on shooting, a dispersion angle that widens while an
    automatic weapon is held and resets when the trigger is let go, and the damage of each
    projectile, dealt to the enemies along its ray from the nearest outward and cut down after
    every enemy it passes through. (Assets/Weapons/WeaponController.cs,
    Assets/Weapons/WeaponConfig.cs) */
module Weapons {
  import opened Geometry
  import opened Outcomes

  /** MAX_HIT_PER_SHOT: the size of the buffer the ray cast fills */
  const MaxHitPerShot := 256

  /** MAX_DISPERSION_DEGREE */
  const MaxDispersionDegree := 15.0

  /** float.MaxValue, the time since the last shot before the first one */
  const FloatMaxValue: real := 340282346638528859811704183484516925440.0

  /** A projectile keeps going while its damage is above this (the loop's 0.1f) */
  const DamageFloor := 0.1

  /** The fields of a WeaponConfig asset */
  datatype WeaponConfig = WeaponConfig(isAutomatic: bool, coolDownSeconds: real, range: real,
                                       damagePerProjectile: real, dmgReductionRate: real,
                                       projectileCountPerShot: int, dispersionDegrees: real,
                                       dispersionIncrementOverTime: real)

  /** One enemy a ray passes through: the object hit, where and how far from the muzzle */
  datatype RaycastHit = RaycastHit(target: int, point: Vec3, distance: real)

  /** One call of HitManager.ReportHit */
  datatype HitReport = HitReport(target: int, point: Vec3, damage: real)

  /** What the engine makes of one projectile: the displacements drawn for it, as the tangents
      of its horizontal and vertical dispersion angles, and every hit its ray finds, in the
      engine's order */
  datatype Projectile = Projectile(hDisplacement: real, vDisplacement: real, hits: seq<RaycastHit>)

  /** How many projectiles a shot fires: the loop runs projectileCountPerShot times, and not at
      all for a count below one */
  function ShotCount(config: WeaponConfig): nat
  {
    if config.projectileCountPerShot < 0 then 0 else config.projectileCountPerShot
  }

  // ---------------------------------------------------------------------------------------
  // The hits of one ray, ordered by distance (SortedList<float, RaycastHit>)

  /** Whether some hit of `s` lies at distance d: a key of the sorted list */
  predicate HasKey(s: seq<RaycastHit>, d: real)
  {
    exists x :: x in s && x.distance == d
  }

  predicate Ascending(s: seq<RaycastHit>)
  {
    forall i, j :: 0 <= i < j < |s| ==> s[i].distance < s[j].distance
  }

  predicate DistinctDistances(s: seq<RaycastHit>)
  {
    forall i, j :: 0 <= i < j < |s| ==> s[i].distance != s[j].distance
  }

  /** SortedList.Add of a new key: the hit goes in before the first hit that lies farther */
  function Insert(s: seq<RaycastHit>, h: RaycastHit): seq<RaycastHit>
  {
    if s == [] || h.distance < s[0].distance then [h] + s
    else [s[0]] + Insert(s[1..], h)
  }

  /** Adding a new key to a sorted list keeps it sorted and adds exactly that hit. */
  lemma {:induction false} InsertKeepsOrder(s: seq<RaycastHit>, h: RaycastHit)
    requires Ascending(s) && !HasKey(s, h.distance)
    ensures Ascending(Insert(s, h)) && |Insert(s, h)| == |s| + 1
    ensures forall x :: x in Insert(s, h) <==> x in s || x == h
  {
    if s != [] && h.distance >= s[0].distance {
      assert forall x :: x in s <==> x == s[0] || x in s[1..];
      InsertKeepsOrder(s[1..], h);
      var rest := Insert(s[1..], h);
      assert s[0].distance < h.distance by {
        assert s[0] in s;
      }
      forall k | 0 <= k < |rest| ensures s[0].distance < rest[k].distance {
        assert rest[k] in rest;
        if rest[k] != h {
          var j :| 0 <= j < |s[1..]| && s[1..][j] == rest[k];
          assert s[j + 1] == rest[k];
        }
      }
    }
  }

  /** The hits of `hits`, added one after the other to an empty sorted list; the first hit whose
      distance is already a key makes Add throw. */
  function ByDistance(hits: seq<RaycastHit>): (r: Result<seq<RaycastHit>>)
    ensures r.Fail? ==> r.fault == DuplicateKey
  {
    if hits == [] then Ok([])
    else
      var last := hits[|hits| - 1];
      match ByDistance(hits[..|hits| - 1])
      case Fail(f) => Fail(f)
      case Ok(s) =>
        if HasKey(s, last.distance) then Fail(DuplicateKey)
        else Ok(Insert(s, last))
  }

  /** A sorted list that could be built is sorted, nearest first, and holds exactly the hits it
      was built from, each once. */
  lemma {:induction false} ByDistanceSorts(hits: seq<RaycastHit>)
    requires ByDistance(hits).Ok?
    ensures Ascending(ByDistance(hits).value) && |ByDistance(hits).value| == |hits|
    ensures forall x :: x in ByDistance(hits).value <==> x in hits
  {
    if hits != [] {
      var n := |hits| - 1;
      ByDistanceSorts(hits[..n]);
      InsertKeepsOrder(ByDistance(hits[..n]).value, hits[n]);
      assert hits == hits[..n] + [hits[n]];
    }
  }

  /** The sorted list can be built exactly when no two hits are at the same distance; it then
      holds every hit once, nearest first. */
  lemma {:induction false} ByDistanceOkIffDistinct(hits: seq<RaycastHit>)
    ensures ByDistance(hits).Ok? <==> DistinctDistances(hits)
  {
    if hits != [] {
      var n := |hits| - 1;
      var init, last := hits[..n], hits[n];
      ByDistanceOkIffDistinct(init);
      DistinctSnoc(hits);
      if ByDistance(init).Ok? {
        ByDistanceSorts(init);
        var s := ByDistance(init).value;
        assert HasKey(s, last.distance) ==> HasKey(init, last.distance);
        assert HasKey(init, last.distance) ==> HasKey(s, last.distance);
      }
    }
  }

  /** Hits are at distinct distances exactly when all but the last are, and the last one lies
      at none of their distances. */
  lemma DistinctSnoc(hits: seq<RaycastHit>)
    requires hits != []
    ensures var n := |hits| - 1;
      DistinctDistances(hits) <==> DistinctDistances(hits[..n]) && !HasKey(hits[..n], hits[n].distance)
  {
    var n := |hits| - 1;
    var init := hits[..n];
    if DistinctDistances(hits) {
      forall x | x in init ensures x.distance != hits[n].distance {
        var i :| 0 <= i < n && init[i] == x;
        assert hits[i] == x;
      }
    }
    if DistinctDistances(init) && !HasKey(init, hits[n].distance) {
      forall i, j | 0 <= i < j < |hits| ensures hits[i].distance != hits[j].distance {
        assert hits[i] == init[i];
        if j < n {
          assert hits[j] == init[j];
        } else {
          assert init[i] in init;
        }
      }
    }
  }

  // ---------------------------------------------------------------------------------------
  // Penetration damage

  /** The damage after one more enemy: the reduced damage, truncated to a whole number */
  function Next(damage: real, rate: real): real
  {
    Trunc(damage * (1.0 - rate)) as real
  }

  /** The damage a projectile of damage `damage` carries to the enemy at index k */
  function DamageAt(damage: real, rate: real, k: nat): real
    decreases k
  {
    if k == 0 then damage else DamageAt(Next(damage, rate), rate, k - 1)
  }

  /** The reports of the damage loop over the hits nearest first: one per hit, while the damage
      is above the floor */
  function Penetrate(byDistance: seq<RaycastHit>, damage: real, rate: real): seq<HitReport>
  {
    if byDistance == [] || damage <= DamageFloor then []
    else [HitReport(byDistance[0].target, byDistance[0].point, damage)] + Penetrate(byDistance[1..], Next(damage, rate), rate)
  }

  /** The damage loop reports the hits in the order of the sorted list, at most one per hit, the
      k-th with the damage left after k enemies, all above the floor; it stops early only once
      the damage has fallen to the floor. */
  lemma {:induction false} PenetrateReportsInOrder(byDistance: seq<RaycastHit>, damage: real, rate: real)
    ensures var r := Penetrate(byDistance, damage, rate);
      |r| <= |byDistance| &&
      (forall k :: 0 <= k < |r| ==>
         r[k] == HitReport(byDistance[k].target, byDistance[k].point, DamageAt(damage, rate, k)) &&
         DamageAt(damage, rate, k) > DamageFloor) &&
      (|r| < |byDistance| ==> DamageAt(damage, rate, |r|) <= DamageFloor)
  {
    if byDistance != [] && damage > DamageFloor {
      var next := Next(damage, rate);
      PenetrateReportsInOrder(byDistance[1..], next, rate);
      var r := Penetrate(byDistance, damage, rate);
      var tail := Penetrate(byDistance[1..], next, rate);
      assert r == [HitReport(byDistance[0].target, byDistance[0].point, damage)] + tail;
      forall k | 0 < k <= |tail| ensures DamageAt(damage, rate, k) == DamageAt(next, rate, k - 1) {
      }
    }
  }

  /** With a reduction rate between 0 and 1 and a damage that is not negative, the damage never
      grows from one enemy to the next, and never drops below zero. */
  lemma NextDecays(damage: real, rate: real)
    requires 0.0 <= rate <= 1.0 && 0.0 <= damage
    ensures 0.0 <= Next(damage, rate) <= damage
  {
    var kept := damage * (1.0 - rate);
    if damage > 0.0 {
      MulMono(0.0, 1.0 - rate, damage);
      MulMono(1.0 - rate, 1.0, damage);
      assert (1.0 - rate) * damage == kept;
    } else {
      assert kept == 0.0;
    }
    assert 0.0 <= kept <= damage;
    var t := Trunc(kept);
    assert t as real <= kept < t as real + 1.0;
    assert Next(damage, rate) == t as real;
  }

  lemma {:induction false} DamageNeverGrows(damage: real, rate: real, k: nat)
    requires 0.0 <= rate <= 1.0 && 0.0 <= damage
    ensures 0.0 <= DamageAt(damage, rate, k + 1) <= DamageAt(damage, rate, k)
    decreases k
  {
    NextDecays(damage, rate);
    if k > 0 {
      DamageNeverGrows(Next(damage, rate), rate, k - 1);
    }
  }

  /** A reduction rate of 1 stops every projectile at the first enemy it hits. */
  lemma NoPenetrationAtRateOne(byDistance: seq<RaycastHit>, damage: real)
    ensures |Penetrate(byDistance, damage, 1.0)| <= 1
  {
    if byDistance != [] && damage > DamageFloor {
      assert Next(damage, 1.0) == 0.0;
      assert Penetrate(byDistance[1..], 0.0, 1.0) == [];
    }
  }

  /** A reduction rate of 0 lets a projectile of damage at least 1 through every enemy on its
      ray. */
  lemma {:induction false} FullPenetrationAtRateZero(byDistance: seq<RaycastHit>, damage: real)
    requires damage >= 1.0
    ensures |Penetrate(byDistance, damage, 0.0)| == |byDistance|
  {
    if byDistance != [] {
      assert Next(damage, 0.0) >= 1.0;
      FullPenetrationAtRateZero(byDistance[1..], Next(damage, 0.0));
    }
  }

  // ---------------------------------------------------------------------------------------
  // A whole shot

  /** The hits the ray cast writes into its buffer: at most MAX_HIT_PER_SHOT of them */
  function Captured(hits: seq<RaycastHit>): (r: seq<RaycastHit>)
    ensures |r| <= MaxHitPerShot && (|hits| <= MaxHitPerShot ==> r == hits)
  {
    if |hits| <= MaxHitPerShot then hits else hits[..MaxHitPerShot]
  }

  /** What one projectile reports: nothing when its ray hits nothing, otherwise the damage loop
      over its hits nearest first, or the fault of the sorted list */
  function Strike(p: Projectile, damage: real, rate: real): Result<seq<HitReport>>
  {
    var hits := Captured(p.hits);
    if hits == [] then Ok([])
    else
      match ByDistance(hits)
      case Fail(f) => Fail(f)
      case Ok(s) => Ok(Penetrate(s, damage, rate))
  }

  /** The first n projectiles of a shot, fired one after the other; a fault stops the shot. */
  function Fired(shots: seq<Projectile>, n: nat, damage: real, rate: real): Result<seq<HitReport>>
    requires n <= |shots|
    decreases n
  {
    if n == 0 then Ok([])
    else
      match Fired(shots, n - 1, damage, rate)
      case Fail(f) => Fail(f)
      case Ok(rs) =>
        match Strike(shots[n - 1], damage, rate)
        case Fail(f) => Fail(f)
        case Ok(more) => Ok(rs + more)
  }

  /** The whole shot */
  function Volley(shots: seq<Projectile>, damage: real, rate: real): Result<seq<HitReport>>
  {
    Fired(shots, |shots|, damage, rate)
  }

  /** One projectile reports at most one hit per buffered hit of its ray, and faults exactly
      when two of those hits share a distance. */
  lemma StrikeBounds(p: Projectile, damage: real, rate: real)
    ensures Strike(p, damage, rate).Ok? <==> DistinctDistances(Captured(p.hits))
    ensures Strike(p, damage, rate).Ok? ==> |Strike(p, damage, rate).value| <= |Captured(p.hits)|
  {
    var hits := Captured(p.hits);
    ByDistanceOkIffDistinct(hits);
    if hits != [] && ByDistance(hits).Ok? {
      ByDistanceSorts(hits);
      PenetrateReportsInOrder(ByDistance(hits).value, damage, rate);
    }
  }

  /** A shot faults exactly when some projectile's buffered hits share a distance. */
  lemma {:induction false} FiredOkIffDistinct(shots: seq<Projectile>, n: nat, damage: real, rate: real)
    requires n <= |shots|
    ensures Fired(shots, n, damage, rate).Ok? <==>
      forall i :: 0 <= i < n ==> DistinctDistances(Captured(shots[i].hits))
    decreases n
  {
    if n > 0 {
      FiredOkIffDistinct(shots, n - 1, damage, rate);
      StrikeBounds(shots[n - 1], damage, rate);
      var before, last := Fired(shots, n - 1, damage, rate), Strike(shots[n - 1], damage, rate);
      if before.Ok? && last.Ok? {
        assert Fired(shots, n, damage, rate).Ok?;
        forall i | 0 <= i < n ensures DistinctDistances(Captured(shots[i].hits)) {
          if i < n - 1 {
            assert DistinctDistances(Captured(shots[i].hits));
          }
        }
      } else {
        assert Fired(shots, n, damage, rate).Fail?;
        if !before.Ok? {
          var i :| 0 <= i < n - 1 && !DistinctDistances(Captured(shots[i].hits));
        }
      }
    }
  }

  /** A shot reports at most MAX_HIT_PER_SHOT hits per projectile. */
  lemma {:induction false} FiredReportsAtMost(shots: seq<Projectile>, n: nat, damage: real, rate: real)
    requires n <= |shots| && Fired(shots, n, damage, rate).Ok?
    ensures |Fired(shots, n, damage, rate).value| <= MaxHitPerShot * n
    decreases n
  {
    if n > 0 {
      var before, last := Fired(shots, n - 1, damage, rate), Strike(shots[n - 1], damage, rate);
      assert before.Ok? && last.Ok?;
      FiredReportsAtMost(shots, n - 1, damage, rate);
      StrikeBounds(shots[n - 1], damage, rate);
      assert Fired(shots, n, damage, rate).value == before.value + last.value;
      assert MaxHitPerShot * n == MaxHitPerShot * (n - 1) + MaxHitPerShot;
    }
  }

  /** The point a projectile's ray is drawn towards: one unit ahead of the muzzle, displaced up
      and to the right by the tangents of its dispersion angles */
  function RayPoint(origin: Vec3, forward: Vec3, up: Vec3, right: Vec3, p: Projectile): Vec3
  {
    Add(origin, Add(Add(forward, Scale(up, p.vDisplacement)), Scale(right, p.hDisplacement)))
  }

  /** The ray points of the projectiles of a shot, in firing order */
  function Rays(origin: Vec3, forward: Vec3, up: Vec3, right: Vec3, shots: seq<Projectile>): seq<Vec3>
  {
    if shots == [] then []
    else Rays(origin, forward, up, right, shots[..|shots| - 1]) + [RayPoint(origin, forward, up, right, shots[|shots| - 1])]
  }

  /** A shot draws one ray per projectile, the i-th towards the i-th projectile's point. */
  lemma {:induction false} RaysAimEachProjectile(origin: Vec3, forward: Vec3, up: Vec3, right: Vec3, shots: seq<Projectile>)
    ensures |Rays(origin, forward, up, right, shots)| == |shots|
    ensures forall i :: 0 <= i < |shots| ==>
      Rays(origin, forward, up, right, shots)[i] == RayPoint(origin, forward, up, right, shots[i])
  {
    if shots != [] {
      var n := |shots| - 1;
      RaysAimEachProjectile(origin, forward, up, right, shots[..n]);
    }
  }

  /** IncreaseDispersionRate's new angle: the current one times the increment, never above the
      maximum; with an increment of at least 1 (the configured range is 1 to 5) it never
      narrows an angle that is within the maximum. */
  function Widen(current: real, increment: real): (r: real)
    ensures r <= MaxDispersionDegree
    ensures r == MaxDispersionDegree || r == increment * current
    ensures 1.0 <= increment && 0.0 <= current <= MaxDispersionDegree ==> current <= r
  {
    var r := Min(MaxDispersionDegree, increment * current);
    if 1.0 <= increment && 0.0 < current then
      MulMono(1.0, increment, current);
      r
    else r
  }

  /** Assets/Weapons/WeaponController.cs. The weapon's transform is read only; the sorted list and
      the rays of the last shot are kept, and the hit manager's reports are recorded. */
  class WeaponController {
    const config: WeaponConfig
    const transform: CubeTransform
    var elapsedSecondsSinceLastShot: real
    var currentDispersionDegrees: real
    var hitsByDistance: seq<RaycastHit>
    var projectileRays: seq<Vec3>
    /** Every HitManager.ReportHit call so far */
    var reports: seq<HitReport>

    /** The field initialisers: no shot yet, so the time since the last one is float.MaxValue */
    constructor (config: WeaponConfig, transform: CubeTransform)
      ensures this.config == config && this.transform == transform
      ensures elapsedSecondsSinceLastShot == FloatMaxValue && currentDispersionDegrees == 0.0
      ensures hitsByDistance == [] && projectileRays == [] && reports == []
    {
      this.config := config;
      this.transform := transform;
      elapsedSecondsSinceLastShot := FloatMaxValue;
      currentDispersionDegrees := 0.0;
      hitsByDistance := [];
      projectileRays := [];
      reports := [];
    }

    /** Awake lets the trigger go, which sets the configured dispersion. */
    method Awake()
      modifies this`currentDispersionDegrees
      ensures currentDispersionDegrees == config.dispersionDegrees
    {
      HandleTriggerLetGo();
    }

    /** LateUpdate: the frame's time is added to the time since the last shot. */
    method LateUpdate(deltaTime: real)
      modifies this`elapsedSecondsSinceLastShot
      ensures elapsedSecondsSinceLastShot == old(elapsedSecondsSinceLastShot) + deltaTime
    {
      elapsedSecondsSinceLastShot := elapsedSecondsSinceLastShot + deltaTime;
    }

    /** HandleTriggerPull: one attempt to shoot */
    method HandleTriggerPull(shots: seq<Projectile>) returns (fired: Result<bool>)
      requires |shots| == ShotCount(config)
      modifies this`elapsedSecondsSinceLastShot, this`projectileRays, this`hitsByDistance, this`reports
      ensures fired.Ok? && !fired.value ==> unchanged(this)
      ensures fired == Ok(true) <==>
        (old(elapsedSecondsSinceLastShot) >= config.coolDownSeconds &&
         Volley(shots, config.damagePerProjectile, config.dmgReductionRate).Ok?)
      ensures old(elapsedSecondsSinceLastShot) < config.coolDownSeconds ==> fired == Ok(false) && unchanged(this)
      ensures old(elapsedSecondsSinceLastShot) >= config.coolDownSeconds ==>
        var volley := Volley(shots, config.damagePerProjectile, config.dmgReductionRate);
        elapsedSecondsSinceLastShot == 0.0 &&
        (volley.Ok? ==>
           (fired == Ok(true) &&
            projectileRays == Rays(transform.position, transform.forward, transform.up, transform.right, shots) &&
            reports == old(reports) + volley.value)) &&
        (volley.Fail? ==> fired == Fail(DuplicateKey))
    {
      fired := TryShoot(shots);
    }

    /** HandleTriggerHeld: an automatic weapon tries to shoot and widens its dispersion when the
        shot went off; any other weapon does nothing. */
    method HandleTriggerHeld(shots: seq<Projectile>) returns (fired: Result<bool>)
      requires |shots| == ShotCount(config)
      modifies this`elapsedSecondsSinceLastShot, this`projectileRays, this`hitsByDistance, this`reports,
        this`currentDispersionDegrees
      ensures !config.isAutomatic ==> fired == Ok(false) && unchanged(this)
      ensures fired == Ok(true) <==>
        (config.isAutomatic && old(elapsedSecondsSinceLastShot) >= config.coolDownSeconds &&
         Volley(shots, config.damagePerProjectile, config.dmgReductionRate).Ok?)
      ensures currentDispersionDegrees ==
        if fired == Ok(true) then Widen(old(currentDispersionDegrees), config.dispersionIncrementOverTime)
        else old(currentDispersionDegrees)
      ensures config.isAutomatic && old(elapsedSecondsSinceLastShot) < config.coolDownSeconds ==>
        fired == Ok(false) && unchanged(this)
      ensures config.isAutomatic && old(elapsedSecondsSinceLastShot) >= config.coolDownSeconds ==>
        var volley := Volley(shots, config.damagePerProjectile, config.dmgReductionRate);
        elapsedSecondsSinceLastShot == 0.0 &&
        (volley.Ok? ==>
           (fired == Ok(true) &&
            projectileRays == Rays(transform.position, transform.forward, transform.up, transform.right, shots) &&
            reports == old(reports) + volley.value)) &&
        (volley.Fail? ==> fired == Fail(DuplicateKey))
    {
      if config.isAutomatic {
        fired := TryShoot(shots);
        if fired == Ok(true) {
          IncreaseDispersionRate();
        }
      } else {
        fired := Ok(false);
      }
    }

    /** HandleTriggerLetGo: the dispersion goes back to the configured one. */
    method HandleTriggerLetGo()
      modifies this`currentDispersionDegrees
      ensures currentDispersionDegrees == config.dispersionDegrees
    {
      ResetDispersionRate();
    }

    /** TryShoot: refused, with nothing changed, while the cooldown has not passed; otherwise
        the time since the last shot restarts at zero, every projectile's ray is recorded and
        its hits are processed. A fault of the sorted list ends the shot. */
    method TryShoot(shots: seq<Projectile>) returns (fired: Result<bool>)
      requires |shots| == ShotCount(config)
      modifies this`elapsedSecondsSinceLastShot, this`projectileRays, this`hitsByDistance, this`reports
      ensures old(elapsedSecondsSinceLastShot) < config.coolDownSeconds ==> fired == Ok(false) && unchanged(this)
      ensures old(elapsedSecondsSinceLastShot) >= config.coolDownSeconds ==>
        var volley := Volley(shots, config.damagePerProjectile, config.dmgReductionRate);
        elapsedSecondsSinceLastShot == 0.0 &&
        (volley.Ok? ==>
           (fired == Ok(true) &&
            projectileRays == Rays(transform.position, transform.forward, transform.up, transform.right, shots) &&
            reports == old(reports) + volley.value)) &&
        (volley.Fail? ==> fired == Fail(DuplicateKey))
    {
      if elapsedSecondsSinceLastShot < config.coolDownSeconds {
        return Ok(false);
      }
      elapsedSecondsSinceLastShot := 0.0;
      fired := Shoot(shots);
    }

    /** The projectile loop of TryShoot, once the cool-down has passed. */
    method Shoot(shots: seq<Projectile>) returns (fired: Result<bool>)
      modifies this`projectileRays, this`hitsByDistance, this`reports
      ensures var volley := Volley(shots, config.damagePerProjectile, config.dmgReductionRate);
        (volley.Ok? ==>
           (fired == Ok(true) &&
            projectileRays == Rays(transform.position, transform.forward, transform.up, transform.right, shots) &&
            reports == old(reports) + volley.value)) &&
        (volley.Fail? ==> fired == Fail(DuplicateKey))
    {
      projectileRays := [];
      var origin, forward, up, right := transform.position, transform.forward, transform.up, transform.right;
      var i := 0;
      ghost var done: seq<HitReport> := [];
      while i < |shots|
        invariant 0 <= i <= |shots|
        invariant projectileRays == Rays(origin, forward, up, right, shots[..i])
        invariant Fired(shots, i, config.damagePerProjectile, config.dmgReductionRate) == Ok(done)
        invariant reports == old(reports) + done
      {
        var thrown;
        thrown, done := Advance(origin, forward, up, right, shots, i, old(reports), done);
        if thrown.Some? {
          return Fail(thrown.value);
        }
        i := i + 1;
      }
      assert shots[..i] == shots;
      fired := Ok(true);
    }

    /** One turn of TryShoot's loop, with the shot's reports so far: projectile i is fired, and
        either its reports join the shot's or the whole shot faults. */
    method Advance(origin: Vec3, forward: Vec3, up: Vec3, right: Vec3, shots: seq<Projectile>, i: nat,
                   ghost base: seq<HitReport>, ghost done: seq<HitReport>)
      returns (thrown: Option<Fault>, ghost done': seq<HitReport>)
      requires i < |shots|
      requires projectileRays == Rays(origin, forward, up, right, shots[..i])
      requires Fired(shots, i, config.damagePerProjectile, config.dmgReductionRate) == Ok(done)
      requires reports == base + done
      modifies this`projectileRays, this`hitsByDistance, this`reports
      ensures projectileRays == Rays(origin, forward, up, right, shots[..i + 1])
      ensures thrown == None ==>
        Fired(shots, i + 1, config.damagePerProjectile, config.dmgReductionRate) == Ok(done') &&
        reports == base + done'
      ensures thrown != None ==>
        Volley(shots, config.damagePerProjectile, config.dmgReductionRate).Fail? && thrown == Some(DuplicateKey)
    {
      var damage, rate := config.damagePerProjectile, config.dmgReductionRate;
      RaysStep(origin, forward, up, right, shots, i);
      ghost var more;
      thrown, more := Fire(origin, forward, up, right, shots[i]);
      if thrown.Some? {
        done' := done;
        StrikeFailSpoils(shots, i, damage, rate);
        return;
      }
      FiredStep(shots, i, damage, rate, done, more);
      done' := done + more;
      assert base + done + more == base + done';
    }

    /** One turn of TryShoot's loop: the projectile's ray is recorded, and its hits, if the ray
        cast found any, are processed. */
    method Fire(origin: Vec3, forward: Vec3, up: Vec3, right: Vec3, p: Projectile)
      returns (thrown: Option<Fault>, ghost more: seq<HitReport>)
      modifies this`projectileRays, this`hitsByDistance, this`reports
      ensures projectileRays == old(projectileRays) + [RayPoint(origin, forward, up, right, p)]
      ensures thrown == None ==>
        (Strike(p, config.damagePerProjectile, config.dmgReductionRate) == Ok(more) && reports == old(reports) + more)
      ensures thrown != None ==>
        (Strike(p, config.damagePerProjectile, config.dmgReductionRate).Fail? && thrown == Some(DuplicateKey))
    {
      projectileRays := projectileRays + [RayPoint(origin, forward, up, right, p)];
      var hits := Captured(p.hits);
      thrown, more := None, [];
      if |hits| > 0 {
        thrown := ProcessHits(hits);
        if thrown == None {
          more := Penetrate(hitsByDistance, config.damagePerProjectile, config.dmgReductionRate);
        }
      }
    }

    /** ProcessHits: the buffered hits go into the emptied sorted list, which throws on a second
        hit at the same distance; then, nearest first, each enemy is reported with the
        projectile's damage, which is reduced after every enemy, until the hits run out or the
        damage has fallen to the floor. */
    method ProcessHits(hits: seq<RaycastHit>) returns (thrown: Option<Fault>)
      modifies this`hitsByDistance, this`reports
      ensures thrown == None <==> ByDistance(hits).Ok?
      ensures thrown == None ==>
        (hitsByDistance == ByDistance(hits).value &&
         reports == old(reports) + Penetrate(hitsByDistance, config.damagePerProjectile, config.dmgReductionRate))
      ensures thrown != None ==> thrown == Some(DuplicateKey) && reports == old(reports)
    {
      thrown := SortHits(hits);
      if thrown == None {
        ReportHits();
      }
    }

    /** The first loop of ProcessHits: SortedList.Add of every hit, in the buffer's order */
    method SortHits(hits: seq<RaycastHit>) returns (thrown: Option<Fault>)
      modifies this`hitsByDistance
      ensures thrown == None <==> ByDistance(hits).Ok?
      ensures thrown == None ==> hitsByDistance == ByDistance(hits).value
      ensures thrown != None ==> thrown == Some(DuplicateKey)
    {
      hitsByDistance := [];
      var i := 0;
      while i < |hits|
        invariant 0 <= i <= |hits|
        invariant ByDistance(hits[..i]) == Ok(hitsByDistance)
      {
        assert hits[..i + 1][..i] == hits[..i] && hits[..i + 1][i] == hits[i];
        if HasKey(hitsByDistance, hits[i].distance) {
          ByDistanceFailPersists(hits, i + 1);
          assert hits[..|hits|] == hits;
          return Some(DuplicateKey);
        }
        hitsByDistance := Insert(hitsByDistance, hits[i]);
        i := i + 1;
      }
      assert hits[..i] == hits;
      thrown := None;
    }

    /** The second loop of ProcessHits: the sorted hits are reported nearest first while the
        damage, reduced after each of them, stays above the floor. */
    method ReportHits()
      modifies this`reports
      ensures reports == old(reports) + Penetrate(hitsByDistance, config.damagePerProjectile, config.dmgReductionRate)
    {
      var damage, rate := config.damagePerProjectile, config.dmgReductionRate;
      var k := 0;
      while k < |hitsByDistance| && damage > DamageFloor
        invariant 0 <= k <= |hitsByDistance|
        invariant old(reports) + Penetrate(hitsByDistance, config.damagePerProjectile, rate) ==
          reports + Penetrate(hitsByDistance[k..], damage, rate)
      {
        var hit := hitsByDistance[k];
        assert hitsByDistance[k..][1..] == hitsByDistance[k + 1..];
        reports := reports + [HitReport(hit.target, hit.point, damage)];
        damage := Next(damage, rate);
        k := k + 1;
      }
    }

    /** ResetDispersionRate */
    method ResetDispersionRate()
      modifies this`currentDispersionDegrees
      ensures currentDispersionDegrees == config.dispersionDegrees
    {
      currentDispersionDegrees := config.dispersionDegrees;
    }

    /** IncreaseDispersionRate: never above MAX_DISPERSION_DEGREE */
    method IncreaseDispersionRate()
      modifies this`currentDispersionDegrees
      ensures currentDispersionDegrees == Widen(old(currentDispersionDegrees), config.dispersionIncrementOverTime)
      ensures currentDispersionDegrees <= MaxDispersionDegree
    {
      currentDispersionDegrees := Widen(currentDispersionDegrees, config.dispersionIncrementOverTime);
    }
  }

  /** Once the sorted list has thrown on some prefix of the hits, it throws on all of them. */
  lemma {:induction false} ByDistanceFailPersists(hits: seq<RaycastHit>, i: nat)
    requires i <= |hits| && ByDistance(hits[..i]).Fail?
    ensures ByDistance(hits).Fail?
    decreases |hits| - i
  {
    if i < |hits| {
      assert hits[..i + 1][..i] == hits[..i];
      ByDistanceFailPersists(hits, i + 1);
    } else {
      assert hits[..i] == hits;
    }
  }

  lemma RaysStep(origin: Vec3, forward: Vec3, up: Vec3, right: Vec3, shots: seq<Projectile>, i: nat)
    requires i < |shots|
    ensures Rays(origin, forward, up, right, shots[..i + 1]) ==
      Rays(origin, forward, up, right, shots[..i]) + [RayPoint(origin, forward, up, right, shots[i])]
  {
    assert shots[..i + 1][..i] == shots[..i] && shots[..i + 1][i] == shots[i];
  }

  /** One more projectile that does not fault adds its reports to the shot's. */
  lemma FiredStep(shots: seq<Projectile>, i: nat, damage: real, rate: real, done: seq<HitReport>, more: seq<HitReport>)
    requires i < |shots| && Fired(shots, i, damage, rate) == Ok(done) && Strike(shots[i], damage, rate) == Ok(more)
    ensures Fired(shots, i + 1, damage, rate) == Ok(done + more)
  {
  }

  /** A projectile that faults makes the whole shot fault. */
  lemma StrikeFailSpoils(shots: seq<Projectile>, i: nat, damage: real, rate: real)
    requires i < |shots| && Strike(shots[i], damage, rate).Fail?
    ensures Volley(shots, damage, rate).Fail?
  {
    assert Fired(shots, i + 1, damage, rate).Fail?;
    FailStays(shots, i + 1, damage, rate);
  }

  /** Once a shot has faulted on some of its projectiles, the whole shot faults. */
  lemma {:induction false} FailStays(shots: seq<Projectile>, i: nat, damage: real, rate: real)
    requires i <= |shots| && Fired(shots, i, damage, rate).Fail?
    ensures Volley(shots, damage, rate).Fail?
    decreases |shots| - i
  {
    if i < |shots| {
      FailStays(shots, i + 1, damage, rate);
    }
  }

  /** The first shot of a new weapon always goes off, whatever its cooldown within the
      configured range, as long as its projectiles' hits are at distinct distances. */
  method FirstShot(config: WeaponConfig, transform: CubeTransform, shots: seq<Projectile>) returns (fired: Result<bool>)
    requires config.coolDownSeconds <= 5.0 && |shots| == ShotCount(config)
    requires forall i :: 0 <= i < |shots| ==> DistinctDistances(Captured(shots[i].hits))
    ensures fired == Ok(true)
  {
    var weapon := new WeaponController(config, transform);
    FiredOkIffDistinct(shots, |shots|, config.damagePerProjectile, config.dmgReductionRate);
    fired := weapon.TryShoot(shots);
  }
}
