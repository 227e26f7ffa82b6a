/** The neighbour bookkeeping that every proximity component of an enemy cube carries: a list of
    nearby cubes, a set of their instance ids, and a subscription to each tracked cube's
    "removed" event. The same code appears in the two NearbyCubeTracker components and in the two
    CubeAwareness components; it is modelled once here, and each of those classes owns one
    `NeighbourSet`. Cubes are identified by their instance id. */
module Neighbours {
  import opened Outcomes

  /** The collider that entered or left the trigger sphere: whether it is itself a trigger, and
      the instance id of the proximity component on its game object, if it has one. */
  datatype Collider = Collider(isTrigger: bool, component: Option<int>)

  predicate Distinct(s: seq<int>)
  {
    forall i, j :: 0 <= i < j < |s| ==> s[i] != s[j]
  }

  function Elements(s: seq<int>): set<int>
  {
    set x | x in s
  }

  /** Position of the first occurrence of `c` */
  function FirstIndex(s: seq<int>, c: int): (k: nat)
    requires c in s
    ensures k < |s| && s[k] == c && c !in s[..k]
  {
    if s[0] == c then 0
    else
      var k := FirstIndex(s[1..], c);
      assert s[..k + 1] == [s[0]] + s[1..][..k];
      k + 1
  }

  /** List.Remove: removes the first occurrence of `c`, if any, and keeps the order of the rest. */
  function Without(s: seq<int>, c: int): (r: seq<int>)
    ensures c !in s ==> r == s
    ensures c in s ==> exists k :: 0 <= k < |s| && s[k] == c && c !in s[..k] && r == s[..k] + s[k + 1..]
  {
    if c in s then
      var k := FirstIndex(s, c);
      s[..k] + s[k + 1..]
    else s
  }

  /** Position `i` of a list with position `k` cut out. */
  function Skip(i: int, k: int): int { if i < k then i else i + 1 }

  lemma CutAt(s: seq<int>, k: int)
    requires 0 <= k < |s|
    ensures |s[..k] + s[k + 1..]| == |s| - 1
    ensures forall i :: 0 <= i < |s| - 1 ==> (s[..k] + s[k + 1..])[i] == s[Skip(i, k)]
  {
  }

  /** Removing a member of a list without duplicates leaves a list without duplicates holding
      exactly the other members. */
  lemma {:induction false} WithoutDistinct(s: seq<int>, c: int)
    requires Distinct(s)
    ensures Distinct(Without(s, c))
    ensures Elements(Without(s, c)) == Elements(s) - {c}
  {
    if c in s {
      var k :| 0 <= k < |s| && s[k] == c && c !in s[..k] && Without(s, c) == s[..k] + s[k + 1..];
      CutDistinct(s, k);
      CutElements(s, k);
    }
  }

  lemma CutDistinct(s: seq<int>, k: int)
    requires Distinct(s) && 0 <= k < |s|
    ensures Distinct(s[..k] + s[k + 1..])
  {
    var r := s[..k] + s[k + 1..];
    CutAt(s, k);
    forall i, j | 0 <= i < j < |r|
      ensures r[i] != r[j]
    {
      assert r[i] == s[Skip(i, k)] && r[j] == s[Skip(j, k)];
    }
  }

  lemma CutElements(s: seq<int>, k: int)
    requires Distinct(s) && 0 <= k < |s|
    ensures Elements(s[..k] + s[k + 1..]) == Elements(s) - {s[k]}
  {
    var r := s[..k] + s[k + 1..];
    CutAt(s, k);
    forall x | x in Elements(s) - {s[k]}
      ensures x in Elements(r)
    {
      var m :| 0 <= m < |s| && s[m] == x;
      var i := if m < k then m else m - 1;
      assert r[i] == s[Skip(i, k)];
    }
    forall x | x in Elements(r)
      ensures x in Elements(s) - {s[k]}
    {
      var i :| 0 <= i < |r| && r[i] == x;
      assert r[i] == s[Skip(i, k)];
    }
  }

  /** What the world shows of each tracked cube, in the order of the list */
  function Lookup<T>(ids: seq<int>, world: int -> T): (r: seq<T>)
    ensures |r| == |ids| && forall k :: 0 <= k < |ids| ==> r[k] == world(ids[k])
  {
    seq(|ids|, k requires 0 <= k < |ids| => world(ids[k]))
  }

  /** The tracked cubes: the list and the id set. */
  datatype Tracked = Tracked(cubes: seq<int>, ids: set<int>)

  /** The list and the id set agree and the list holds no cube twice. */
  predicate Consistent(t: Tracked)
  {
    Distinct(t.cubes) && t.ids == Elements(t.cubes)
  }

  /** What entering the trigger sphere does to the tracked cubes: only a trigger collider carrying
      a proximity component that is not tracked yet is added, at the end of the list. */
  function AfterEnter(t: Tracked, other: Collider): Tracked
  {
    if other.isTrigger && other.component.Some? && other.component.value !in t.ids
    then Tracked(t.cubes + [other.component.value], t.ids + {other.component.value})
    else t
  }

  /** What leaving the trigger sphere does: only a trigger collider carrying a tracked proximity
      component is removed. */
  function AfterExit(t: Tracked, other: Collider): Tracked
  {
    if other.isTrigger && other.component.Some? && other.component.value in t.ids
    then Tracked(Without(t.cubes, other.component.value), t.ids - {other.component.value})
    else t
  }

  /** Both transitions keep the list and the id set consistent. */
  lemma TransitionsStayConsistent(t: Tracked, other: Collider)
    requires Consistent(t)
    ensures Consistent(AfterEnter(t, other)) && Consistent(AfterExit(t, other))
  {
    if other.component.Some? {
      var c := other.component.value;
      WithoutDistinct(t.cubes, c);
      if c !in t.ids {
        assert Elements(t.cubes + [c]) == Elements(t.cubes) + {c};
      }
    }
  }

  /** A second entry of the same collider changes nothing. */
  lemma EnterIsIdempotent(t: Tracked, other: Collider)
    ensures AfterEnter(AfterEnter(t, other), other) == AfterEnter(t, other)
  {
  }

  /** A cube that was not tracked, enters and then leaves again leaves the tracked cubes as they
      were. */
  lemma {:induction false} EnterThenExitRestores(t: Tracked, other: Collider)
    requires Consistent(t)
    requires other.component.Some? ==> other.component.value !in t.ids
    ensures AfterExit(AfterEnter(t, other), other) == t
  {
    if other.isTrigger && other.component.Some? && other.component.value !in t.ids {
      var c := other.component.value;
      var s := t.cubes + [c];
      assert c in s by { assert s[|t.cubes|] == c; }
      assert forall i :: 0 <= i < |t.cubes| ==> s[i] == t.cubes[i];
      var k :| 0 <= k < |s| && s[k] == c && c !in s[..k] && Without(s, c) == s[..k] + s[k + 1..];
      assert k == |t.cubes|;
      assert s[..k] == t.cubes && s[k + 1..] == [];
      assert Without(s, c) == t.cubes;
      assert (t.ids + {c}) - {c} == t.ids;
      assert AfterEnter(t, other) == Tracked(s, t.ids + {c});
    }
  }

  class NeighbourSet {
    /** The nearby cubes, in the order they were registered */
    var cubes: seq<int>
    /** The instance ids of the nearby cubes */
    var ids: set<int>
    /** How many times this component's removal handler is subscribed to each cube's event */
    var handlers: map<int, nat>

    function State(): Tracked
      reads this
    {
      Tracked(cubes, ids)
    }

    function Subscriptions(c: int): nat
      reads this
    {
      if c in handlers then handlers[c] else 0
    }

    /** The list and the id set agree, the list holds no cube twice, and exactly the tracked
        cubes carry one subscription of the removal handler. */
    ghost predicate Valid()
      reads this
    {
      && Consistent(State())
      && (forall c :: Subscriptions(c) == (if c in ids then 1 else 0))
    }

    constructor ()
      ensures Valid()
      ensures cubes == [] && ids == {} && handlers == map[]
    {
      cubes := [];
      ids := {};
      handlers := map[];
    }

    /** Observe: unsubscribe the handler once (a delegate `-=` removes one subscription, or
        nothing), then subscribe it once more when `state` holds. */
    method Observe(c: int, state: bool)
      modifies this
      ensures cubes == old(cubes) && ids == old(ids)
      ensures Subscriptions(c) == (if old(Subscriptions(c)) == 0 then 0 else old(Subscriptions(c)) - 1) + (if state then 1 else 0)
      ensures forall d :: d != c ==> Subscriptions(d) == old(Subscriptions(d))
    {
      var count := Subscriptions(c);
      if count > 0 {
        count := count - 1;
      }
      if state {
        count := count + 1;
      }
      handlers := handlers[c := count];
    }

    /** RegisterOther: its only caller has checked that `c` is not tracked yet. */
    method Register(c: int)
      requires Valid() && c !in ids
      modifies this
      ensures Valid()
      ensures cubes == old(cubes) + [c] && ids == old(ids) + {c}
      ensures Subscriptions(c) == 1
    {
      cubes := cubes + [c];
      ids := ids + {c};
      Observe(c, true);
      assert Elements(cubes) == Elements(old(cubes)) + {c};
      assert forall d :: Subscriptions(d) == (if d in ids then 1 else 0) by {
        forall d
          ensures Subscriptions(d) == (if d in ids then 1 else 0)
        {
          if d != c {
            assert old(Subscriptions(d)) == (if d in old(ids) then 1 else 0);
          }
        }
      }
    }

    /** UnregisterOther: removes the cube from the list and the id set and drops the handler.
        A cube that is not tracked leaves both collections as they were. */
    method Unregister(c: int)
      requires Valid()
      modifies this
      ensures Valid()
      ensures cubes == Without(old(cubes), c) && ids == old(ids) - {c}
      ensures c !in old(ids) ==> cubes == old(cubes) && ids == old(ids)
      ensures Subscriptions(c) == 0
    {
      WithoutDistinct(cubes, c);
      cubes := Without(cubes, c);
      ids := ids - {c};
      Observe(c, false);
      assert forall d :: Subscriptions(d) == (if d in ids then 1 else 0) by {
        forall d
          ensures Subscriptions(d) == (if d in ids then 1 else 0)
        {
          if d != c {
            assert old(Subscriptions(d)) == (if d in old(ids) then 1 else 0);
          }
        }
      }
    }

    /** HandleOtherCubeRemoved: a tracked cube reported that it is being removed. */
    method HandleOtherCubeRemoved(c: int)
      requires Valid()
      modifies this
      ensures Valid()
      ensures cubes == Without(old(cubes), c) && ids == old(ids) - {c}
      ensures c !in ids && Subscriptions(c) == 0
    {
      Unregister(c);
    }

    /** OnTriggerEnter: a trigger collider carrying a proximity component that is not tracked yet
        is registered; every other collider is ignored. */
    method OnTriggerEnter(other: Collider)
      requires Valid()
      modifies this
      ensures Valid()
      ensures State() == AfterEnter(old(State()), other)
    {
      if other.isTrigger && other.component.Some? && other.component.value !in ids {
        Register(other.component.value);
      }
    }

    /** OnTriggerExit: a trigger collider carrying a tracked proximity component is unregistered;
        every other collider is ignored. */
    method OnTriggerExit(other: Collider)
      requires Valid()
      modifies this
      ensures Valid()
      ensures State() == AfterExit(old(State()), other)
    {
      if other.isTrigger && other.component.Some? && other.component.value in ids {
        Unregister(other.component.value);
      }
    }
  }
}
