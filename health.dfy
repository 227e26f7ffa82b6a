/** Hit points of a hittable object. A hit lowers them, never below zero, and tells the
    subscribers; an object flagged for it asks to be destroyed once its hit points are gone. */
module Health {

  /** What a change of hit points reports: the current and the starting value, and the value
      before the change. Assets/Cubes/HP.cs fills in only the first two; the third is the field
      the newer enemy body (Assets/Scripts/EnemyCubes/EnemyBody.cs) reads, so it is carried here:
      a hit reports the value before it, and GetHPInfo leaves it at its default of zero. */
  datatype HPInfo = HPInfo(current: int, max: int, previous: int)

  /** Assets/Cubes/HP.cs, together with the SetStartingHP call and the value before a hit that
      the newer enemy body relies on; the newer hit-point component itself is not part of this
      model. */
  class HP {
    var hitPoints: int
    var destroyWhenHPzero: bool
    var startingHP: int
    /** The OnHitPointsChanged notifications sent so far */
    var events: seq<HPInfo>
    /** Whether Destroy was called on the object */
    var destroyRequested: bool

    constructor (hitPoints: int, destroyWhenHPzero: bool)
      ensures this.hitPoints == hitPoints && this.destroyWhenHPzero == destroyWhenHPzero
      ensures startingHP == 0 && events == [] && !destroyRequested
    {
      this.hitPoints := hitPoints;
      this.destroyWhenHPzero := destroyWhenHPzero;
      startingHP := 0;
      events := [];
      destroyRequested := false;
    }

    /** Awake: the hit points the object starts with are remembered as its maximum. */
    method Awake()
      modifies this
      ensures startingHP == hitPoints && hitPoints == old(hitPoints)
      ensures events == old(events) && destroyRequested == old(destroyRequested)
      ensures destroyWhenHPzero == old(destroyWhenHPzero)
    {
      startingHP := hitPoints;
    }

    /** SetStartingHP, as the enemy bodies use it: both the current and the starting hit points
        become `value`. */
    method SetStartingHP(value: int)
      modifies this
      ensures hitPoints == value && startingHP == value
      ensures events == old(events) && destroyRequested == old(destroyRequested)
      ensures destroyWhenHPzero == old(destroyWhenHPzero)
    {
      hitPoints := value;
      startingHP := value;
    }

    /** GetHPInfo: the current hit points against the starting ones (the value before a change
        is not set, so it keeps its default of zero) */
    function GetHPInfo(): (info: HPInfo)
      reads this
      ensures info.current == hitPoints && info.max == startingHP && info.previous == 0
    {
      HPInfo(hitPoints, startingHP, 0)
    }

    /** Hit: a positive damage on an object whose hit points are not negative lowers them by the
        damage, stopping at zero, sends one notification (even when they were already zero) and
        asks for destruction when they are gone and the object is flagged for it. Any other hit
        changes nothing. */
    method Hit(damage: int)
      modifies this
      ensures var effective := old(hitPoints) >= 0 && damage > 0;
        (effective ==>
          hitPoints == (if old(hitPoints) - damage < 0 then 0 else old(hitPoints) - damage) &&
          events == old(events) + [HPInfo(hitPoints, startingHP, old(hitPoints))] &&
          destroyRequested == (old(destroyRequested) || (hitPoints <= 0 && destroyWhenHPzero))) &&
        (!effective ==> hitPoints == old(hitPoints) && events == old(events) && destroyRequested == old(destroyRequested))
      ensures old(hitPoints) >= 0 ==> 0 <= hitPoints <= old(hitPoints)
      ensures hitPoints <= old(hitPoints) && hitPoints == AfterHits(old(hitPoints), [damage])
      ensures startingHP == old(startingHP) && destroyWhenHPzero == old(destroyWhenHPzero)
    {
      if hitPoints >= 0 && damage > 0 {
        var before := hitPoints;
        hitPoints := if hitPoints - damage < 0 then 0 else hitPoints - damage;
        events := events + [HPInfo(hitPoints, startingHP, before)];
        if hitPoints <= 0 && destroyWhenHPzero {
          destroyRequested := true;
        }
      }
    }
  }

  /** The net loss a sequence of hits deals to hit points `hp`: the same clamp as Hit, one hit
      after the other */
  function AfterHits(hp: int, damages: seq<int>): (r: int)
    ensures hp >= 0 ==> 0 <= r <= hp
    ensures r <= hp
  {
    if damages == [] then hp
    else
      var next := if hp >= 0 && damages[0] > 0 then (if hp - damages[0] < 0 then 0 else hp - damages[0]) else hp;
      AfterHits(next, damages[1..])
  }

  /** Hits can only wear hit points down: more hits never leave more, and zero is absorbing. */
  lemma {:induction false} ZeroIsFinal(damages: seq<int>)
    ensures AfterHits(0, damages) == 0
  {
    if damages != [] {
      ZeroIsFinal(damages[1..]);
    }
  }

  /** The hit points of each object, in order */
  function HitPointsOf(ps: seq<HP>): (r: seq<int>)
    reads set p | p in ps
    ensures |r| == |ps| && forall t :: 0 <= t < |ps| ==> r[t] == ps[t].hitPoints
  {
    if ps == [] then [] else HitPointsOf(ps[..|ps| - 1]) + [ps[|ps| - 1].hitPoints]
  }

  /** The sum of a sequence of hit points */
  function Total(s: seq<int>): int
  {
    if s == [] then 0 else Total(s[..|s| - 1]) + s[|s| - 1]
  }

  /** Changing one entry changes the sum by the difference. */
  lemma {:induction false} TotalUpdate(s: seq<int>, m: nat, v: int)
    requires m < |s|
    ensures Total(s[m := v]) == Total(s) - s[m] + v
  {
    var last := |s| - 1;
    if m < last {
      TotalUpdate(s[..last], m, v);
      assert s[m := v][..last] == s[..last][m := v];
    } else {
      assert s[m := v][..last] == s[..last];
    }
  }

  /** Entries that all equal v sum to v times their count. */
  lemma {:induction false} TotalOfEqual(s: seq<int>, v: int)
    requires forall t :: 0 <= t < |s| ==> s[t] == v
    ensures Total(s) == |s| * v
  {
    if s != [] {
      TotalOfEqual(s[..|s| - 1], v);
    }
  }
}
