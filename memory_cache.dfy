/**
 * The in-memory key/value cache.  Every instance names its store by a uid;
 * the stores themselves live in one process-wide registry, so two caches
 * with the same uid read and write the same map.
 */
module MemoryCaches {
  import opened Wrappers
  import opened PyValues

  type Store = map<string, Value>

  /** `add`: stores the value only when the key is absent. */
  function AddTo(s: Store, key: string, value: Value): (r: Store)
    ensures key in r && r.Keys == s.Keys + {key}
    ensures key in s ==> r == s
    ensures key !in s ==> r[key] == value && forall k :: k in s ==> r[k] == s[k]
  {
    if key in s then s else s[key := value]
  }

  /** `get(key, default)`. */
  function Lookup(s: Store, key: string, default: Value): (r: Value)
    ensures key in s ==> r == s[key]
    ensures key !in s ==> r == default
  {
    if key in s then s[key] else default
  }

  /** `delete`: removes the key when present, and is a no-op otherwise. */
  function DeleteFrom(s: Store, key: string): (r: Store)
    ensures key !in r && r.Keys == s.Keys - {key}
    ensures forall k :: k in r ==> r[k] == s[k]
  {
    s - {key}
  }

  /** `x += delta` where `x` is the stored value; only numbers support it. */
  function AddNumber(x: Value, delta: int): (r: Result<int>)
    ensures r.Ok? <==> x.Int? || x.Bool?
    ensures x.Int? ==> r == Ok(x.i + delta)
    ensures r.Err? ==> r.error.kind == TypeError
  {
    match x
    case Int(i) => Ok(i + delta)
    case Bool(b) => Ok((if b then 1 else 0) + delta)
    case _ => Raise(TypeError, "unsupported operand type(s) for +=")
  }

  /**
   * `incr(key, delta)`: a missing key counts as 0.  The number stored and
   * returned, and the store afterwards (a missing key is set to 0 before
   * the addition fails or succeeds).
   */
  function IncrIn(s: Store, key: string, delta: int): (r: (Result<int>, Store))
    ensures key !in s ==> r.0 == Ok(delta) && r.1 == s[key := Int(delta)]
    ensures r.0.Ok? ==> key in r.1 && r.1 == s[key := Int(r.0.value)]
    ensures r.0.Err? ==> r.1 == s && r.0.error.kind == TypeError
  {
    var current := if key in s then s[key] else Int(0);
    match AddNumber(current, delta)
    case Ok(n) => (Ok(n), s[key := Int(n)])
    case Err(e) => (Err(e), s)
  }

  /** `__getitem__`: a missing key raises KeyError. */
  function Item(s: Store, key: string): (r: Result<Value>)
    ensures r.Ok? <==> key in s
    ensures r.Ok? ==> r.value == s[key]
    ensures r.Err? ==> r.error.kind == KeyError
  {
    if key in s then Ok(s[key]) else Raise(KeyError, key)
  }

  /** A write through the cache with uid `uid` into the registry of stores. */
  function WriteVia(stores: map<string, Store>, uid: string, key: string, value: Value): map<string, Store>
    requires uid in stores
  {
    stores[uid := stores[uid][key := value]]
  }

  /** A read through the cache with uid `uid`. */
  function ReadVia(stores: map<string, Store>, uid: string, key: string, default: Value): Value
    requires uid in stores
  {
    Lookup(stores[uid], key, default)
  }

  /** The process-wide registry: one store per uid. */
  class StoreRegistry {
    var stores: map<string, Store>

    constructor()
      ensures stores == map[]
    {
      stores := map[];
    }
  }

  class MemoryCache {
    const uid: string
    const registry: StoreRegistry

    ghost predicate Valid()
      reads this, registry
    {
      uid in registry.stores
    }

    /** The store this cache reads and writes. */
    function Contents(): Store
      reads this, registry
      requires Valid()
    {
      registry.stores[uid]
    }

    /** A cache with `uid` shares an existing store of that uid and creates an empty one otherwise. */
    constructor(uid: string, registry: StoreRegistry)
      modifies registry
      ensures this.uid == uid && this.registry == registry
      ensures Valid()
      ensures uid in old(registry.stores) ==> registry.stores == old(registry.stores)
      ensures uid !in old(registry.stores) ==> registry.stores == old(registry.stores)[uid := map[]]
    {
      this.uid := uid;
      this.registry := registry;
      new;
      if uid !in registry.stores {
        registry.stores := registry.stores[uid := map[]];
      }
    }

    method Add(key: string, value: Value, timeout: Option<int>)
      requires Valid()
      modifies registry
      ensures Valid()
      ensures registry.stores == old(registry.stores)[uid := AddTo(old(Contents()), key, value)]
    {
      var s := registry.stores[uid];
      if key !in s {
        s := s[key := value];
        registry.stores := registry.stores[uid := s];
      }
    }

    method Get(key: string, default: Value) returns (r: Value)
      requires Valid()
      ensures r == Lookup(Contents(), key, default)
    {
      var s := registry.stores[uid];
      r := if key in s then s[key] else default;
    }

    method Delete(key: string)
      requires Valid()
      modifies registry
      ensures Valid()
      ensures registry.stores == old(registry.stores)[uid := DeleteFrom(old(Contents()), key)]
    {
      var s := registry.stores[uid];
      if key in s {
        s := s - {key};
      } else {
        assert s == s - {key};
      }
      registry.stores := registry.stores[uid := s];
    }

    method Set(key: string, value: Value, timeout: Option<int>)
      requires Valid()
      modifies registry
      ensures Valid()
      ensures registry.stores == WriteVia(old(registry.stores), uid, key, value)
    {
      registry.stores := registry.stores[uid := registry.stores[uid][key := value]];
    }

    /** Timeouts are not kept by this cache, so touching a key changes nothing. */
    method Touch(key: string, timeout: Option<int>)
      requires Valid()
      ensures Contents() == old(Contents())
    {
    }

    method Clear()
      requires Valid()
      modifies registry
      ensures Valid()
      ensures registry.stores == old(registry.stores)[uid := map[]]
    {
      registry.stores := registry.stores[uid := map[]];
    }

    method Incr(key: string, delta: int) returns (r: Result<int>)
      requires Valid()
      modifies registry
      ensures Valid()
      ensures r == IncrIn(old(Contents()), key, delta).0
      ensures registry.stores == old(registry.stores)[uid := IncrIn(old(Contents()), key, delta).1]
    {
      ghost var s0 := registry.stores[uid];
      var s := registry.stores[uid];
      if key !in s {
        s := s[key := Int(0)];
        registry.stores := registry.stores[uid := s];
      }
      var n := AddNumber(s[key], delta);
      if n.Err? {
        return Err(n.error);
      }
      assert s[key := Int(n.value)] == s0[key := Int(n.value)];
      registry.stores := registry.stores[uid := s[key := Int(n.value)]];
      r := Ok(n.value);
    }

    method Decr(key: string, delta: int) returns (r: Result<int>)
      requires Valid()
      modifies registry
      ensures Valid()
      ensures r == IncrIn(old(Contents()), key, -delta).0
      ensures registry.stores == old(registry.stores)[uid := IncrIn(old(Contents()), key, -delta).1]
    {
      r := Incr(key, -delta);
    }

    method Contains(key: string) returns (r: bool)
      requires Valid()
      ensures r <==> key in Contents()
    {
      r := key in registry.stores[uid];
    }

    method GetItem(key: string) returns (r: Result<Value>)
      requires Valid()
      ensures r == Item(Contents(), key)
    {
      var s := registry.stores[uid];
      if key !in s {
        return Raise(KeyError, key);
      }
      r := Ok(s[key]);
    }

    method SetItem(key: string, value: Value)
      requires Valid()
      modifies registry
      ensures Valid()
      ensures registry.stores == WriteVia(old(registry.stores), uid, key, value)
    {
      Set(key, value, None);
    }

    method DelItem(key: string) returns (r: Result<()>)
      requires Valid()
      modifies registry
      ensures Valid()
      ensures key in old(Contents()) ==>
        r == Ok(()) && registry.stores == old(registry.stores)[uid := DeleteFrom(old(Contents()), key)]
      ensures key !in old(Contents()) ==>
        r.Err? && r.error.kind == KeyError && registry.stores == old(registry.stores)
    {
      var s := registry.stores[uid];
      if key !in s {
        return Raise(KeyError, key);
      }
      registry.stores := registry.stores[uid := s - {key}];
      r := Ok(());
    }
  }

  /** `add` never overwrites, while `set` always does. */
  lemma AddVersusSet(s: Store, key: string, old_: Value, value: Value)
    requires key in s && s[key] == old_
    ensures Lookup(AddTo(s, key, value), key, PyNone) == old_
    ensures Lookup(s[key := value], key, PyNone) == value
  {
  }

  /** `get` gives the default for a missing key where `__getitem__` raises. */
  lemma MissingKey(s: Store, key: string, default: Value)
    requires key !in s
    ensures Lookup(s, key, default) == default
    ensures Item(s, key).Err?
    ensures DeleteFrom(s, key) == s
  {
    assert s - {key} == s;
  }

  /** `incr` then `decr` by the same amount restores a numeric entry. */
  lemma IncrDecr(s: Store, key: string, delta: int)
    requires key in s && s[key].Int?
    ensures var (r1, s1) := IncrIn(s, key, delta);
      r1.Ok? && IncrIn(s1, key, -delta) == (Ok(s[key].i), s)
  {
    assert s[key := Int(s[key].i + delta)][key := Int(s[key].i)] == s;
  }

  /** Repeated increments accumulate from zero. */
  lemma IncrTwice(s: Store, key: string, a: int, b: int)
    requires key !in s
    ensures IncrIn(IncrIn(s, key, a).1, key, b).0 == Ok(a + b)
  {
  }

  /** Caches with one uid share one store; writes through one uid never reach another. */
  lemma UidSharing(stores: map<string, Store>, u1: string, u2: string, key: string, value: Value, default: Value)
    requires u1 in stores && u2 in stores
    ensures ReadVia(WriteVia(stores, u1, key, value), u2, key, default) ==
      if u1 == u2 then value else ReadVia(stores, u2, key, default)
    ensures u1 != u2 ==> WriteVia(stores, u1, key, value)[u2] == stores[u2]
  {
  }
}
