/**
 * The run context: named scopes of key/value pairs kept in a backing cache.
 * The global scope always exists; other scopes are created on demand and
 * their names recorded in a registry list.
 */
module Contexts {
  import opened Wrappers
  import opened PyValues

  /** The cache key of the global scope, used when no scope is named. */
  const GlobalKey := "__global_key__"
  /** The registry key the constructor seeds with an empty list. */
  const SeedKey := "__all_contexts__"
  /** The registry key `create_context` appends to and the listing reads. */
  const RegistryKey := "__all_contexts"

  /** What the backing cache holds under one key: a scope dict or a list of names. */
  datatype Slot = Scope(vars: Entries) | Registry(names: seq<string>)

  type Store = map<string, Slot>

  /** A cached slot as Python sees it. */
  function AsValue(s: Slot): (r: Value)
    ensures s.Scope? ==> r == Dict(s.vars)
    ensures s.Registry? ==> (r.List? && |r.items| == |s.names| &&
      forall i :: 0 <= i < |s.names| ==> r.items[i] == Str(s.names[i]))
  {
    match s
    case Scope(v) => Dict(v)
    case Registry(ns) => List(seq(|ns|, i requires 0 <= i < |ns| => Str(ns[i])))
  }

  /** The store after construction: an empty global scope and an empty seeded list. */
  function Initial(shared: Store): (r: Store)
    ensures GlobalKey in r && r[GlobalKey] == Scope([])
    ensures SeedKey in r && r[SeedKey] == Registry([])
    ensures forall k :: k != GlobalKey && k != SeedKey ==> (k in r <==> k in shared)
  {
    shared[GlobalKey := Scope([])][SeedKey := Registry([])]
  }

  /** `_is_context_valid`: `None` names the global scope; the scope must be a str that exists. */
  function Resolve(store: Store, context: Value): (r: Result<string>)
    ensures r.Ok? <==> (context.PyNone? && GlobalKey in store) || (context.Str? && context.s in store)
    ensures r.Ok? ==> r.value in store && r.value == (if context.PyNone? then GlobalKey else context.s)
    ensures r.Err? ==> r.error.kind == ValueError
  {
    var k := if context.PyNone? then Str(GlobalKey) else context;
    if !k.Str? then Raise(ValueError, "Context name must be a string or None")
    else if k.s !in store then Raise(ValueError, "Context does not exist")
    else Ok(k.s)
  }

  /** `set(name, value, context)`: the scope's dict gets `name` bound to `value`. */
  function SetIn(store: Store, name: string, value: Value, context: Value): (r: Result<Store>)
  {
    match Resolve(store, context)
    case Err(e) => Err(e)
    case Ok(k) =>
      match store[k]
      case Scope(v) => Ok(store[k := Scope(Put(v, name, value))])
      case Registry(_) => Raise(TypeError, "list indices must be integers or slices, not str")
  }

  /** `get(name, default, context)`: the whole scope for `None`, else the entry or `default`. */
  function GetIn(store: Store, name: Option<string>, default: Value, context: Value): (r: Result<Value>)
  {
    match Resolve(store, context)
    case Err(e) => Err(e)
    case Ok(k) =>
      if name.None? then Ok(AsValue(store[k]))
      else match store[k]
        case Scope(v) => Ok(GetOr(v, name.value, default))
        case Registry(_) => Raise(AttributeError, "'list' object has no attribute 'get'")
  }

  /** `clear(name, context)`: empties the scope for `None`, else deletes the one entry. */
  function ClearIn(store: Store, name: Option<string>, context: Value): (r: Result<Store>)
  {
    match Resolve(store, context)
    case Err(e) => Err(e)
    case Ok(k) =>
      if name.None? then Ok(store[k := Scope([])])
      else match store[k]
        case Scope(v) =>
          if HasKey(v, name.value) then Ok(store[k := Scope(Remove(v, name.value))])
          else Raise(KeyError, name.value)
        case Registry(_) => Raise(TypeError, "list indices must be integers or slices, not str")
  }

  /**
   * `create_context(context, exist_ok)`: the name returned (or the error) and
   * the store afterwards, which changes even when appending to the registry fails.
   */
  function CreateIn(store: Store, context: Value, existOk: bool): (r: (Result<string>, Store))
  {
    if !context.Str? then (Raise(ValueError, "Context name must be a string"), store)
    else if context.s in store then
      if existOk then (Ok(context.s), store)
      else (Raise(ValueError, "Context already exists"), store)
    else
      var s1 := store[context.s := Scope([])];
      if RegistryKey !in s1 then (Ok(context.s), s1[RegistryKey := Registry([context.s])])
      else match s1[RegistryKey]
        case Registry(ns) => (Ok(context.s), s1[RegistryKey := Registry(ns + [context.s])])
        case Scope(_) => (Raise(AttributeError, "'dict' object has no attribute 'append'"), s1)
  }

  /** `get_all_contexts_keys()`: whatever the registry key holds, or `[]`. */
  function AllKeysValue(store: Store): Value
  {
    if RegistryKey in store then AsValue(store[RegistryKey]) else List([])
  }

  /** The names a `for key in get_all_contexts_keys()` loop visits. */
  function AllKeys(store: Store): (r: seq<string>)
    ensures RegistryKey in store && store[RegistryKey].Registry? ==> r == store[RegistryKey].names
  {
    if RegistryKey !in store then []
    else match store[RegistryKey]
      case Registry(ns) => ns
      case Scope(v) => Keys(v)
  }

  /** `get_all_contexts()` from position `i` of the key list on. */
  function AllContextsFrom(store: Store, keys: seq<string>, i: nat, acc: Entries): (r: Result<Entries>)
    requires i <= |keys|
    decreases |keys| - i
  {
    if i == |keys| then Ok(acc)
    else match GetIn(store, None, PyNone, Str(keys[i]))
      case Err(e) => Err(e)
      case Ok(v) => AllContextsFrom(store, keys, i + 1, Put(acc, keys[i], v))
  }

  /** The backing cache of a context. */
  class Context {
    var cache: Store

    /** A fresh context over a cache that may already hold other scopes. */
    constructor(shared: Store)
      ensures cache == Initial(shared)
    {
      var c := shared[GlobalKey := Scope([])];
      cache := c[SeedKey := Registry([])];
    }

    method Set(name: string, value: Value, context: Value) returns (r: Result<()>)
      modifies this
      ensures SetIn(old(cache), name, value, context).Ok? ==>
        r == Ok(()) && cache == SetIn(old(cache), name, value, context).value
      ensures SetIn(old(cache), name, value, context).Err? ==>
        r == Err(SetIn(old(cache), name, value, context).error) && cache == old(cache)
    {
      var k := Resolve(cache, context);
      if k.Err? {
        return Err(k.error);
      }
      var current := cache[k.value];
      if current.Registry? {
        return Raise(TypeError, "list indices must be integers or slices, not str");
      }
      current := Scope(Put(current.vars, name, value));
      cache := cache[k.value := current];
      r := Ok(());
    }

    method Get(name: Option<string>, default: Value, context: Value) returns (r: Result<Value>)
      ensures r == GetIn(cache, name, default, context)
    {
      var k := Resolve(cache, context);
      if k.Err? {
        return Err(k.error);
      }
      if name.None? {
        return Ok(AsValue(cache[k.value]));
      }
      var current := cache[k.value];
      if current.Registry? {
        return Raise(AttributeError, "'list' object has no attribute 'get'");
      }
      r := Ok(GetOr(current.vars, name.value, default));
    }

    method Clear(name: Option<string>, context: Value) returns (r: Result<()>)
      modifies this
      ensures ClearIn(old(cache), name, context).Ok? ==>
        r == Ok(()) && cache == ClearIn(old(cache), name, context).value
      ensures ClearIn(old(cache), name, context).Err? ==>
        r == Err(ClearIn(old(cache), name, context).error) && cache == old(cache)
    {
      var k := Resolve(cache, context);
      if k.Err? {
        return Err(k.error);
      }
      if name.None? {
        cache := cache[k.value := Scope([])];
        return Ok(());
      }
      var current := cache[k.value];
      if current.Registry? {
        return Raise(TypeError, "list indices must be integers or slices, not str");
      }
      if !HasKey(current.vars, name.value) {
        return Raise(KeyError, name.value);
      }
      cache := cache[k.value := Scope(Remove(current.vars, name.value))];
      r := Ok(());
    }

    method HasContext(context: string) returns (r: bool)
      ensures r <==> context in cache
    {
      r := context in cache;
    }

    method CreateContext(context: Value, existOk: bool) returns (r: Result<string>)
      modifies this
      ensures (r, cache) == CreateIn(old(cache), context, existOk)
    {
      if !context.Str? {
        return Raise(ValueError, "Context name must be a string");
      }
      if context.s in cache {
        if existOk {
          return Ok(context.s);
        }
        return Raise(ValueError, "Context already exists");
      }
      cache := cache[context.s := Scope([])];
      var all := if RegistryKey in cache then cache[RegistryKey] else Registry([]);
      if all.Scope? {
        return Raise(AttributeError, "'dict' object has no attribute 'append'");
      }
      assert [] + [context.s] == [context.s];
      all := Registry(all.names + [context.s]);
      cache := cache[RegistryKey := all];
      r := Ok(context.s);
    }

    method GetAllContextsKeys() returns (r: Value)
      ensures r == AllKeysValue(cache)
    {
      r := if RegistryKey in cache then AsValue(cache[RegistryKey]) else List([]);
    }

    method GetAllContexts() returns (r: Result<Entries>)
      ensures r == AllContextsFrom(cache, AllKeys(cache), 0, [])
    {
      var keys := AllKeys(cache);
      var result: Entries := [];
      var i := 0;
      while i < |keys|
        invariant 0 <= i <= |keys|
        invariant AllContextsFrom(cache, keys, i, result) == AllContextsFrom(cache, keys, 0, [])
      {
        var v := Get(None, PyNone, Str(keys[i]));
        if v.Err? {
          return Err(v.error);
        }
        result := Put(result, keys[i], v.value);
        i := i + 1;
      }
      r := Ok(result);
    }
  }

  /** The global scope exists from construction, so `None` always resolves. */
  lemma GlobalExists(shared: Store)
    ensures Resolve(Initial(shared), PyNone) == Ok(GlobalKey)
  {
  }

  /** A scope that was never created, or a name that is not a str, raises ValueError everywhere. */
  lemma UnknownScope(store: Store, context: Value, name: string, value: Value)
    requires !context.PyNone? && (!context.Str? || context.s !in store)
    ensures SetIn(store, name, value, context).Err? && SetIn(store, name, value, context).error.kind == ValueError
    ensures GetIn(store, Some(name), value, context).Err? && GetIn(store, Some(name), value, context).error.kind == ValueError
    ensures ClearIn(store, Some(name), context).Err? && ClearIn(store, Some(name), context).error.kind == ValueError
  {
  }

  /** After `set(name, v, c)`, `get(name, _, c)` gives `v`, and every other entry of every scope is as before. */
  lemma SetThenGet(store: Store, name: string, value: Value, context: Value, default: Value)
    requires SetIn(store, name, value, context).Ok?
    ensures GetIn(SetIn(store, name, value, context).value, Some(name), default, context) == Ok(value)
    ensures var st := SetIn(store, name, value, context).value;
      st.Keys == store.Keys &&
      forall k, n :: k in store && (k != Resolve(store, context).value || n != name) ==>
        GetIn(st, Some(n), default, Str(k)) == GetIn(store, Some(n), default, Str(k))
  {
    var k := Resolve(store, context).value;
    var v := store[k].vars;
    var st := SetIn(store, name, value, context).value;
    assert st == store[k := Scope(Put(v, name, value))];
    assert Resolve(st, context) == Ok(k);
    forall k', n | k' in store && (k' != k || n != name)
      ensures GetIn(st, Some(n), default, Str(k')) == GetIn(store, Some(n), default, Str(k'))
    {
      assert Resolve(st, Str(k')) == Resolve(store, Str(k')) == Ok(k');
    }
  }

  /** A missing name reads as the default, and `get(None)` reads the whole scope. */
  lemma GetDefaults(store: Store, name: string, default: Value, context: Value)
    requires Resolve(store, context).Ok? && store[Resolve(store, context).value].Scope?
    ensures !HasKey(store[Resolve(store, context).value].vars, name) ==>
      GetIn(store, Some(name), default, context) == Ok(default)
    ensures GetIn(store, None, default, context) == Ok(Dict(store[Resolve(store, context).value].vars))
  {
  }

  /** `clear(None)` empties the scope; `clear(name)` drops exactly that entry and raises if it is absent. */
  lemma ClearEffects(store: Store, name: string, context: Value, default: Value)
    requires Resolve(store, context).Ok? && store[Resolve(store, context).value].Scope?
    requires DistinctKeys(store[Resolve(store, context).value].vars)
    ensures ClearIn(store, None, context) == Ok(store[Resolve(store, context).value := Scope([])])
    ensures !HasKey(store[Resolve(store, context).value].vars, name) ==>
      ClearIn(store, Some(name), context) == Raise(KeyError, name)
    ensures HasKey(store[Resolve(store, context).value].vars, name) ==>
      var st := ClearIn(store, Some(name), context).value;
      GetIn(st, Some(name), default, context) == Ok(default) &&
      forall n :: n != name ==> GetIn(st, Some(n), default, context) == GetIn(store, Some(n), default, context)
  {
    var k := Resolve(store, context).value;
    var v := store[k].vars;
    if HasKey(v, name) {
      RemoveGet(v, name);
    }
  }

  lemma RemoveGet(v: Entries, name: string)
    requires DistinctKeys(v)
    ensures Get(Remove(v, name), name) == None
    ensures forall n :: n != name ==> Get(Remove(v, name), n) == Get(v, n)
  {
  }

  /** An existing scope is returned untouched with `exist_ok` and raises without it. */
  lemma CreateExisting(store: Store, context: string)
    requires context in store
    ensures CreateIn(store, Str(context), true) == (Ok(context), store)
    ensures CreateIn(store, Str(context), false).0.Err? && CreateIn(store, Str(context), false).1 == store
  {
  }

  /** A new scope starts empty and is appended to the registry. */
  lemma CreateNew(store: Store, context: string, ns: seq<string>)
    requires context !in store && context != RegistryKey
    requires RegistryKey in store ==> store[RegistryKey] == Registry(ns)
    requires RegistryKey !in store ==> ns == []
    ensures var (r, st) := CreateIn(store, Str(context), false);
      r == Ok(context) && st[context] == Scope([]) && AllKeys(st) == ns + [context] &&
      forall k :: k in store && k != RegistryKey ==> k in st && st[k] == store[k]
  {
  }

  /** Creating new scopes one by one from a fresh context lists exactly those scopes, in order. */
  lemma {:induction false} RegistryListsCreated(store: Store, names: seq<string>)
    requires RegistryKey !in store
    requires forall i :: 0 <= i < |names| ==> names[i] !in store && names[i] != RegistryKey
    requires forall i, j :: 0 <= i < j < |names| ==> names[i] != names[j]
    ensures AllKeys(CreateAllIn(store, names)) == names
  {
    CreatedSoFar(store, names);
  }

  /** The store after creating each of `names` in turn, ignoring results. */
  function CreateAllIn(store: Store, names: seq<string>): Store
    decreases |names|
  {
    if |names| == 0 then store
    else CreateAllIn(CreateIn(store, Str(names[0]), false).1, names[1..])
  }

  lemma {:induction false} CreatedSoFar(store: Store, names: seq<string>)
    requires RegistryKey !in store
    requires forall i :: 0 <= i < |names| ==> names[i] !in store && names[i] != RegistryKey
    requires forall i, j :: 0 <= i < j < |names| ==> names[i] != names[j]
    ensures var st := CreateAllIn(store, names);
      (|names| == 0 ==> st == store) &&
      (|names| > 0 ==> RegistryKey in st && st[RegistryKey] == Registry(names)) &&
      forall k :: k in st && k != RegistryKey ==> k in store || k in names
    decreases |names|
  {
    if |names| > 0 {
      var init := names[..|names| - 1];
      var c := names[|names| - 1];
      CreatedSoFar(store, init);
      var st := CreateAllIn(store, init);
      assert c !in st;
      CreateNew(st, c, init);
      assert names == init + [c];
      CreateAllSnoc(store, init, c);
    }
  }

  lemma {:induction false} CreateAllSnoc(store: Store, names: seq<string>, c: string)
    ensures CreateAllIn(store, names + [c]) == CreateIn(CreateAllIn(store, names), Str(c), false).1
    decreases |names|
  {
    if |names| == 0 {
      assert names + [c] == [c];
      assert [c][1..] == [];
    } else {
      assert (names + [c])[1..] == names[1..] + [c];
      CreateAllSnoc(CreateIn(store, Str(names[0]), false).1, names[1..], c);
    }
  }

  /** The constructor's seeded list is never read: listing scopes looks at the other key. */
  lemma SeedIgnored(store: Store, s: Slot)
    requires SeedKey in store
    ensures AllKeys(store[SeedKey := s]) == AllKeys(store)
  {
  }
}
