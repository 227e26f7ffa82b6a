/** The service locator every manager registers with: a dictionary from a type to the one
    manager registered for it, never overwritten, built lazily with two default managers and
    dropped on cleanup. (Assets/Managers/ManagerLocator.cs) */
module Locator {

  /** The types managers are registered and looked up by, and the interface the camera shaker
      collects its targets by */
  datatype TypeName =
    | HitManager | SettingsManager | GameController | SpawnManager | PlayerController
    | Hud | CameraManager | MenuUIManager | Shakeable

  /** A manager object. `types` is its class with every class and interface it derives from:
      the types `manager is T` holds for. */
  class Manager {
    const types: set<TypeName>

    constructor (types: set<TypeName>)
      ensures this.types == types
    {
      this.types := types;
    }
  }

  /** The managers registered under the first k keys that are a `t`, in registration order */
  function OfType(keys: seq<TypeName>, managers: map<TypeName, Manager>, t: TypeName, k: nat): (r: seq<Manager>)
    requires k <= |keys| && forall i :: 0 <= i < |keys| ==> keys[i] in managers
    ensures |r| <= k
  {
    if k == 0 then []
    else
      var m := managers[keys[k - 1]];
      OfType(keys, managers, t, k - 1) + (if t in m.types then [m] else [])
  }

  /** A manager is among those of type t under the first k keys exactly when one of those keys
      holds it and it is a `t`. */
  lemma {:induction false} OfTypeMembers(keys: seq<TypeName>, managers: map<TypeName, Manager>, t: TypeName, k: nat, m: Manager)
    requires k <= |keys| && forall i :: 0 <= i < |keys| ==> keys[i] in managers
    ensures m in OfType(keys, managers, t, k) <==> t in m.types && exists i :: 0 <= i < k && managers[keys[i]] == m
  {
    if k > 0 {
      OfTypeMembers(keys, managers, t, k - 1, m);
      var last := managers[keys[k - 1]];
      if t in m.types && m == last {
        assert m in OfType(keys, managers, t, k);
      }
    }
  }

  /** The instance side of ManagerLocator: the `_managers` dictionary, with its keys in the order
      they were added, which is the order its values are enumerated in. */
  class ManagerLocator {
    var keys: seq<TypeName>
    var managers: map<TypeName, Manager>

    /** The key list and the dictionary hold the same keys, each once. */
    ghost predicate Valid()
      reads this
    {
      (forall k :: k in managers <==> k in keys) &&
      forall a, b :: 0 <= a < b < |keys| ==> keys[a] != keys[b]
    }

    /** Exactly the default managers: a HitManager and a SettingsManager, registered under their
        own types in that order. */
    ghost predicate HoldsDefaults()
      reads this
    {
      keys == [HitManager, SettingsManager] && managers.Keys == {HitManager, SettingsManager} &&
      managers[HitManager].types == {HitManager} && managers[SettingsManager].types == {SettingsManager}
    }

    /** The constructor: CreateDefaultManagers registers a new HitManager and a new
        SettingsManager. */
    constructor ()
      ensures Valid() && HoldsDefaults()
      ensures fresh(managers[HitManager]) && fresh(managers[SettingsManager])
    {
      keys := [];
      managers := map[];
      new;
      var hit := new Manager({HitManager});
      var added := TryRegisterManager(HitManager, hit);
      var settings := new Manager({SettingsManager});
      added := TryRegisterManager(SettingsManager, settings);
    }

    /** TryRegisterManager: a type already present keeps its manager and the call returns false;
        otherwise the manager is added under the type and the call returns true. */
    method TryRegisterManager(key: TypeName, manager: Manager) returns (added: bool)
      requires Valid()
      modifies this
      ensures Valid()
      ensures added <==> key !in old(managers)
      ensures !added ==> keys == old(keys) && managers == old(managers)
      ensures added ==> keys == old(keys) + [key] && managers == old(managers)[key := manager]
    {
      if key in managers {
        return false;
      }
      keys := keys + [key];
      managers := managers[key := manager];
      return true;
    }

    /** TryGetManager: the manager registered for the type, or null when there is none */
    method TryGetManager(key: TypeName) returns (manager: Manager?)
      ensures key in managers ==> manager == managers[key]
      ensures key !in managers ==> manager == null
    {
      if key in managers {
        return managers[key];
      }
      return null;
    }

    /** TryGetAllOfType: every registered manager that is a `t`, in the dictionary's order */
    method TryGetAllOfType(t: TypeName) returns (result: seq<Manager>)
      requires Valid()
      ensures result == OfType(keys, managers, t, |keys|)
      ensures forall m: Manager :: m in result <==> t in m.types && m in managers.Values
    {
      result := [];
      for i := 0 to |keys|
        invariant result == OfType(keys, managers, t, i)
      {
        var manager := managers[keys[i]];
        if t in manager.types {
          result := result + [manager];
        }
      }
      forall m: Manager ensures m in result <==> t in m.types && m in managers.Values {
        OfTypeMembers(keys, managers, t, |keys|, m);
        if m in managers.Values {
          var key :| key in managers && managers[key] == m;
          var i :| 0 <= i < |keys| && keys[i] == key;
        }
      }
    }

    /** The dictionary's Clear */
    method Clear()
      modifies this
      ensures Valid() && keys == [] && managers == map[]
    {
      keys := [];
      managers := map[];
    }
  }

  /** The static side of ManagerLocator: the lazily created `_instance`. */
  class Locator {
    var instance: ManagerLocator?

    constructor ()
      ensures instance == null
    {
      instance := null;
    }

    ghost predicate Valid()
      reads this, instance
    {
      instance != null ==> instance.Valid()
    }

    /** Instance: the existing locator, or a new one holding only the defaults */
    method Instance() returns (locator: ManagerLocator)
      requires Valid()
      modifies this`instance
      ensures Valid() && instance == locator
      ensures old(instance) != null ==> locator == old(instance)
      ensures old(instance) == null ==> fresh(locator) && locator.HoldsDefaults()
    {
      if instance == null {
        instance := new ManagerLocator();
      }
      return instance;
    }

    /** TryRegister: the registration on the instance, created first if need be */
    method TryRegister(key: TypeName, manager: Manager) returns (added: bool)
      requires Valid()
      modifies this`instance, instance
      ensures Valid() && instance != null && key in instance.managers
      ensures old(instance) != null ==> (instance == old(instance) &&
        (added <==> key !in old(instance.managers)) &&
        instance.managers == (if added then old(instance.managers)[key := manager] else old(instance.managers)))
      ensures old(instance) == null ==> (fresh(instance) &&
        (added <==> key != HitManager && key != SettingsManager) &&
        (added ==> instance.managers.Keys == {HitManager, SettingsManager, key} && instance.managers[key] == manager))
    {
      var locator := Instance();
      added := locator.TryRegisterManager(key, manager);
    }

    /** TryGet: the lookup on the instance, created first if need be */
    method TryGet(key: TypeName) returns (manager: Manager?)
      requires Valid()
      modifies this`instance
      ensures Valid() && instance != null
      ensures old(instance) != null ==> instance == old(instance)
      ensures old(instance) == null ==> fresh(instance) && instance.HoldsDefaults()
      ensures key in instance.managers ==> manager == instance.managers[key]
      ensures key !in instance.managers ==> manager == null
    {
      var locator := Instance();
      manager := locator.TryGetManager(key);
    }

    /** TryGetAll: the managers of the instance that are a `t`, created first if need be */
    method TryGetAll(t: TypeName) returns (result: seq<Manager>)
      requires Valid()
      modifies this`instance
      ensures Valid() && instance != null
      ensures old(instance) != null ==> instance == old(instance)
      ensures old(instance) == null ==> fresh(instance) && instance.HoldsDefaults()
      ensures forall m: Manager :: m in result <==> t in m.types && m in instance.managers.Values
    {
      var locator := Instance();
      result := locator.TryGetAllOfType(t);
    }

    /** Cleanup: an existing instance is emptied and dropped. */
    method Cleanup()
      requires Valid()
      modifies this`instance, instance
      ensures Valid() && instance == null
      ensures old(instance) != null ==> old(instance).keys == [] && old(instance).managers == map[]
    {
      if instance != null {
        instance.Clear();
        instance := null;
      }
    }
  }

  /** Register then get: a registration that succeeds makes the lookup return that manager, and
      one that fails leaves the lookup returning the manager registered before. */
  method RegisterThenGet(locator: Locator, key: TypeName, manager: Manager) returns (added: bool, found: Manager?)
    requires locator.Valid()
    modifies locator, locator.instance
    ensures added ==> found == manager
    ensures !added ==> found != null
    ensures !added && old(locator.instance) != null ==> key in old(locator.instance.managers) && found == old(locator.instance.managers[key])
  {
    added := locator.TryRegister(key, manager);
    found := locator.TryGet(key);
  }

  /** After Cleanup the next access rebuilds the instance with only the defaults, so a second
      HitManager or SettingsManager is refused while any other type is accepted. */
  method RegisterAfterCleanup(locator: Locator, key: TypeName, manager: Manager) returns (added: bool)
    requires locator.Valid()
    modifies locator, locator.instance
    ensures added <==> key != HitManager && key != SettingsManager
  {
    locator.Cleanup();
    added := locator.TryRegister(key, manager);
  }
}
