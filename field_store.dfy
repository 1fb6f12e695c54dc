/**
 * The per-instance field store behind the Param descriptor
 * (theflow/base.py): `__ff_params__`, `__ff_depends__` (for each computed
 * field, the identity each dependency had when the field was last
 * computed), and what reading, writing and deleting a param does to them.
 */
module FieldStore {
  import opened Wrappers
  import opened PyValues
  import opened Declarations

  // ---------------------------------------------------------------------
  // The messages of the errors fields raise

  const RecursionMsg := "maximum recursion depth exceeded"

  function NoAttrMsg(name: string): string
  {
    "object has no attribute '" + name + "'"
  }

  function NotSetMsg(field: string): string
  {
    "Parameter " + field + " is not set and has no default value"
  }

  function NoCallbackMsg(field: string): string
  {
    "Param " + field + " depends on other params, is a computed param and require default_callback"
  }

  function DependsSetMsg(field: string): string
  {
    "Param " + field + " depends on other params, cannot be set directly"
  }

  function TypeMsg(field: string): string
  {
    "Value is not of the declared type for parameter " + field
  }

  /**
   * The part of an instance a param read can change: the stored params,
   * the recorded dependency identities (an absent field stands for the
   * empty dict `defaultdict(dict)` hands out), the next identity to mint
   * for a computed value, and how often each field's callback has run.
   */
  datatype Store = Store(
    params: Stored,
    depends: map<string, map<string, nat>>,
    nextId: nat,
    calls: map<string, nat>)

  /** How often the callback of `field` has run. */
  function Count(calls: map<string, nat>, field: string): nat
  {
    if field in calls then calls[field] else 0
  }

  function Bump(calls: map<string, nat>, field: string): (r: map<string, nat>)
    ensures Count(r, field) == Count(calls, field) + 1
    ensures forall f :: f != field ==> Count(r, f) == Count(calls, f)
  {
    calls[field := Count(calls, field) + 1]
  }

  /** `__ff_depends__[field].get(target, -1)`: identities are never negative. */
  function Recorded(depends: map<string, map<string, nat>>, field: string, target: string): (r: int)
    ensures r == -1 <==> !(field in depends && target in depends[field])
  {
    if field in depends && target in depends[field] then depends[field][target] else -1
  }

  /** `__ff_depends__[field][target] = id`. */
  function Record(s: Store, field: string, target: string, id: nat): (r: Store)
    ensures r.params == s.params && r.nextId == s.nextId && r.calls == s.calls
    ensures Recorded(r.depends, field, target) == id
    ensures forall f, t :: (f, t) != (field, target) ==> Recorded(r.depends, f, t) == Recorded(s.depends, f, t)
  {
    var row := if field in s.depends then s.depends[field] else map[];
    s.(depends := s.depends[field := row[target := id]])
  }

  /**
   * Running the callback of `field` and storing what it returns: the value
   * is a new object, so it gets a new identity.
   */
  function RunCallback(s: Store, field: string, cb: Stored -> Result<Value>): (Result<Obj>, Store)
  {
    var s1 := s.(calls := Bump(s.calls, field));
    match cb(s.params)
    case Err(e) => (Err(e), s1)
    case Ok(x) =>
      var o := Obj(x, s1.nextId);
      (Ok(o), s1.(params := s1.params[field := o], nextId := s1.nextId + 1))
  }

  /** A param read that finds nothing usable stored: the callback, else the default, else AttributeError. */
  function Fill(s: Store, field: string, p: ParamDecl): (Result<Obj>, Store)
  {
    if p.callback.Some? then RunCallback(s, field, p.callback.value)
    else if p.default.Some? then (Ok(p.default.value), s.(params := s.params[field := p.default.value]))
    else (Raise(AttributeError, NotSetMsg(field)), s)
  }

  /**
   * `getattr(obj, field)` for a param (`Param.__get__`, theflow/base.py
   * 114-143).  `fuel` bounds the depth of nested reads, standing for
   * Python's recursion limit.
   */
  function ReadParam(mro: seq<ClassBody>, s: Store, field: string, fuel: nat): (Result<Obj>, Store)
    decreases fuel, 0, 0
  {
    if fuel == 0 then (Raise(RecursionError, RecursionMsg), s)
    else match ParamOf(mro, field)
      case None => (Raise(AttributeError, NoAttrMsg(field)), s)
      case Some(p) =>
        if |p.dependsOn| > 0 then
          var (c, s1) := Calculate(mro, s, field, p, fuel - 1);
          if c.Err? then (Err(c.error), s1)
          else if field in s1.params then (Ok(s1.params[field]), s1)
          else (Raise(KeyError, field), s1)
        else if field !in s.params || p.noCache then Fill(s, field, p)
        else (Ok(s.params[field]), s)
  }

  /** `_calculate_from_depends_on` (theflow/base.py 145-172). */
  function Calculate(mro: seq<ClassBody>, s: Store, field: string, p: ParamDecl, fuel: nat): (Result<()>, Store)
    decreases fuel, 3, 0
  {
    var (found, s1) := Scan(mro, s, field, p.dependsOn, 0, map[], fuel);
    match found
    case Err(e) => (Err(e), s1)
    case Ok(None) => (Ok(()), s1)
    case Ok(Some(ids)) => Recompute(mro, s1, field, p, ids, fuel)
  }

  /**
   * The scan over the dependencies from index `i`: read each one, note its
   * identity in `ids`, and stop at the first whose identity differs from the
   * one recorded before the read.  `Some(ids)` reports that mismatch.
   */
  function Scan(mro: seq<ClassBody>, s: Store, field: string, deps: seq<string>, i: nat,
                ids: map<string, nat>, fuel: nat): (Result<Option<map<string, nat>>>, Store)
    requires i <= |deps|
    decreases fuel, 2, |deps| - i
  {
    if i == |deps| then (Ok(None), s)
    else
      var target := deps[i];
      var (t, s1) := ReadParam(mro, s, target, fuel);
      match t
      case Err(e) => (Err(e), s1)
      case Ok(o) =>
        var ids' := ids[target := o.id];
        if Recorded(s.depends, field, target) != o.id then (Ok(Some(ids')), s1)
        else Scan(mro, s1, field, deps, i + 1, ids', fuel)
  }

  /** At a mismatch: compute and store the field, then record every dependency's identity. */
  function Recompute(mro: seq<ClassBody>, s: Store, field: string, p: ParamDecl, ids: map<string, nat>,
                     fuel: nat): (Result<()>, Store)
    decreases fuel, 2, 0
  {
    if p.callback.None? then
      (Raise(ValueError, NoCallbackMsg(field)), s)
    else
      var (v, s1) := RunCallback(s, field, p.callback.value);
      if v.Err? then (Err(v.error), s1)
      else Refresh(mro, s1, field, p.dependsOn, 0, ids, fuel)
  }

  /**
   * Recording the dependencies from index `j`: the identity read during the
   * scan when there is one, otherwise the identity of a fresh read.
   */
  function Refresh(mro: seq<ClassBody>, s: Store, field: string, deps: seq<string>, j: nat,
                   ids: map<string, nat>, fuel: nat): (Result<()>, Store)
    requires j <= |deps|
    decreases fuel, 1, |deps| - j
  {
    if j == |deps| then (Ok(()), s)
    else
      var target := deps[j];
      if target in ids then Refresh(mro, Record(s, field, target, ids[target]), field, deps, j + 1, ids, fuel)
      else
        var (t, s1) := ReadParam(mro, s, target, fuel);
        match t
        case Err(e) => (Err(e), s1)
        case Ok(o) => Refresh(mro, Record(s1, field, target, o.id), field, deps, j + 1, ids, fuel)
  }

  /**
   * `Param.__set__` (theflow/base.py 174-189) with the annotation check
   * done on the class's annotation: `conforms(v)` stands for
   * `isinstance(v, annotation)`.  The boolean says whether `_initialize`
   * runs afterwards.
   */
  function WriteParam(s: Store, field: string, p: ParamDecl, o: Obj, conforms: Value -> bool): (Result<()>, Store, bool)
  {
    if |p.dependsOn| > 0 then
      (Raise(ValueError, DependsSetMsg(field)), s, false)
    else if p.strictType && !conforms(o.value) then
      (Raise(ValueError, TypeMsg(field)), s, false)
    else (Ok(()), s.(params := s.params[field := o]), p.refreshOnSet)
  }

  /** `Param.__delete__` (theflow/base.py 191-195); the boolean says whether `_initialize` runs. */
  function DeleteParam(s: Store, field: string, p: ParamDecl): (Store, bool)
  {
    if field in s.params then (s.(params := s.params - {field}), p.refreshOnSet) else (s, false)
  }

  // ---------------------------------------------------------------------
  // The strict_type check as written

  /** The attributes `Composable.__init__` puts in an instance's `__dict__`. */
  const InitKeys: set<string> :=
    {"__ff_params__", "__ff_nodes__", "__ff_depends__", "__ff_run_kwargs__", "__ff_run_temp_kwargs__",
     "_ff_params", "_ff_nodes", "_ff_config", "_ff_context", "_ff_in_run", "_ff_prefix", "_ff_name",
     "_ff_run_id", "_ff_childs_called", "_ff_init_called", "_middleware", "_ff_initializing"}

  /**
   * `Param.__set__` as written: the annotation is looked up in
   * `obj.__dict__["__annotations__"]`, the instance's own dict, and
   * `isInstance(v, a)` stands for `isinstance(v, a)`.
   */
  function WriteParamAsWritten(s: Store, instanceDict: map<string, Value>, field: string, p: ParamDecl, o: Obj,
                               isInstance: (Value, Value) -> bool): (Result<()>, Store, bool)
  {
    if |p.dependsOn| > 0 then
      (Raise(ValueError, DependsSetMsg(field)), s, false)
    else if p.strictType then
      if "__annotations__" !in instanceDict then (Raise(KeyError, "__annotations__"), s, false)
      else match Subscript(instanceDict["__annotations__"], field)
        case Err(e) => (Err(e), s, false)
        case Ok(a) =>
          if !isInstance(o.value, a) then
            (Raise(ValueError, TypeMsg(field)), s, false)
          else (Ok(()), s.(params := s.params[field := o]), p.refreshOnSet)
    else (Ok(()), s.(params := s.params[field := o]), p.refreshOnSet)
  }

  /**
   * Annotations live on the class, never in an instance dict holding what
   * `__init__` and plain attribute writes put there, so as written every
   * write to a `strict_type` param raises KeyError, even of a value that
   * conforms; the intended check accepts it.
   */
  lemma StrictWriteAlwaysRaises(s: Store, plain: map<string, Value>, field: string, p: ParamDecl, o: Obj,
                                isInstance: (Value, Value) -> bool, conforms: Value -> bool)
    requires p.strictType && |p.dependsOn| == 0
    requires "__annotations__" !in plain
    requires conforms(o.value)
    ensures forall d: map<string, Value> :: d.Keys == InitKeys + plain.Keys ==>
      WriteParamAsWritten(s, d, field, p, o, isInstance) == (Raise(KeyError, "__annotations__"), s, false)
    ensures WriteParam(s, field, p, o, conforms) == (Ok(()), s.(params := s.params[field := o]), p.refreshOnSet)
  {
    forall d: map<string, Value> | d.Keys == InitKeys + plain.Keys
      ensures WriteParamAsWritten(s, d, field, p, o, isInstance) == (Raise(KeyError, "__annotations__"), s, false)
    {
      assert "__annotations__" !in InitKeys;
    }
  }

  // ---------------------------------------------------------------------
  // Plain params

  /** A param that is neither computed nor uncached and has a stored value. */
  predicate CachedAt(mro: seq<ClassBody>, s: Store, t: string)
  {
    ParamOf(mro, t).Some? && |ParamOf(mro, t).value.dependsOn| == 0 && !ParamOf(mro, t).value.noCache &&
    t in s.params
  }

  /** A stored value of a cached plain param is returned, and nothing changes. */
  lemma CachedRead(mro: seq<ClassBody>, s: Store, t: string, fuel: nat)
    requires fuel > 0 && CachedAt(mro, s, t)
    ensures ReadParam(mro, s, t, fuel) == (Ok(s.params[t]), s)
  {
  }

  /**
   * A plain param with nothing stored, or an uncached one: the callback's
   * value (run once, stored with a new identity), else the default object,
   * else AttributeError with nothing changed.
   */
  lemma MissRead(mro: seq<ClassBody>, s: Store, t: string, fuel: nat)
    requires fuel > 0 && ParamOf(mro, t).Some?
    requires var p := ParamOf(mro, t).value; |p.dependsOn| == 0 && (t !in s.params || p.noCache)
    ensures var p := ParamOf(mro, t).value; var (r, s') := ReadParam(mro, s, t, fuel);
      (p.callback.Some? ==>
         Count(s'.calls, t) == Count(s.calls, t) + 1 &&
         (p.callback.value(s.params).Ok? ==>
            r == Ok(Obj(p.callback.value(s.params).value, s.nextId)) && s'.params == s.params[t := r.value] &&
            s'.nextId == s.nextId + 1) &&
         (p.callback.value(s.params).Err? ==> r == Err(p.callback.value(s.params).error) && s'.params == s.params)) &&
      (p.callback.None? && p.default.Some? ==> r == Ok(p.default.value) && s' == s.(params := s.params[t := r.value])) &&
      (p.callback.None? && p.default.None? ==> r.Err? && r.error.kind == AttributeError && s' == s)
  {
  }

  /** A written value of a cached plain param is what the next read returns, and the read changes nothing. */
  lemma WriteThenRead(mro: seq<ClassBody>, s: Store, t: string, o: Obj, conforms: Value -> bool, fuel: nat)
    requires fuel > 0 && ParamOf(mro, t).Some?
    requires var p := ParamOf(mro, t).value; |p.dependsOn| == 0 && !p.noCache
    requires WriteParam(s, t, ParamOf(mro, t).value, o, conforms).0.Ok?
    ensures var s1 := WriteParam(s, t, ParamOf(mro, t).value, o, conforms).1;
      ReadParam(mro, s1, t, fuel) == (Ok(o), s1)
  {
  }

  /**
   * An uncached param with a callback ignores what was written: the read
   * runs the callback and overwrites the written value with its result.
   */
  lemma UncachedIgnoresWrite(mro: seq<ClassBody>, s: Store, t: string, o: Obj, conforms: Value -> bool, fuel: nat)
    requires fuel > 0 && ParamOf(mro, t).Some?
    requires var p := ParamOf(mro, t).value; |p.dependsOn| == 0 && p.noCache && p.callback.Some?
    requires WriteParam(s, t, ParamOf(mro, t).value, o, conforms).0.Ok?
    ensures var p := ParamOf(mro, t).value; var s1 := WriteParam(s, t, p, o, conforms).1;
      var (r, s2) := ReadParam(mro, s1, t, fuel);
      (p.callback.value(s1.params).Ok? ==>
         r == Ok(Obj(p.callback.value(s1.params).value, s.nextId)) && s2.params[t] == r.value) &&
      Count(s2.calls, t) == Count(s.calls, t) + 1
  {
  }

  /** A computed param cannot be written, and a failed write changes nothing. */
  lemma DependentWriteRaises(s: Store, t: string, p: ParamDecl, o: Obj, conforms: Value -> bool)
    requires |p.dependsOn| > 0
    ensures WriteParam(s, t, p, o, conforms).0.Err?
    ensures WriteParam(s, t, p, o, conforms).0.error.kind == ValueError
    ensures WriteParam(s, t, p, o, conforms).1 == s && !WriteParam(s, t, p, o, conforms).2
  {
  }

  /**
   * `_initialize` runs after a write or a delete exactly when the param is
   * `refresh_on_set` and the write succeeds or the delete finds a value.
   */
  lemma RefreshOnSet(s: Store, t: string, p: ParamDecl, o: Obj, conforms: Value -> bool)
    ensures WriteParam(s, t, p, o, conforms).2 <==> p.refreshOnSet && WriteParam(s, t, p, o, conforms).0.Ok?
    ensures DeleteParam(s, t, p).1 <==> p.refreshOnSet && t in s.params
    ensures t !in DeleteParam(s, t, p).0.params
    ensures forall u :: u != t && u in s.params ==>
      (u in DeleteParam(s, t, p).0.params && DeleteParam(s, t, p).0.params[u] == s.params[u])
  {
  }

  // ---------------------------------------------------------------------
  // Computed params

  /** Every dependency from index `i` is a cached plain param with a stored value. */
  predicate StableFrom(mro: seq<ClassBody>, s: Store, deps: seq<string>, i: nat)
  {
    forall j :: i <= j < |deps| ==> CachedAt(mro, s, deps[j])
  }

  /** The identities collected so far are those of the stored values. */
  predicate IdsMatch(s: Store, ids: map<string, nat>)
  {
    forall t :: t in ids ==> t in s.params && ids[t] == s.params[t].id
  }

  /** Whether every dependency from index `i` still has the identity recorded for `field`. */
  predicate Unchanged(s: Store, field: string, deps: seq<string>, i: nat)
    requires StableFrom2(s, deps, i)
  {
    forall j :: i <= j < |deps| ==> Recorded(s.depends, field, deps[j]) == s.params[deps[j]].id
  }

  predicate StableFrom2(s: Store, deps: seq<string>, i: nat)
  {
    forall j :: i <= j < |deps| ==> deps[j] in s.params
  }

  /**
   * With stable dependencies the scan reads without changing anything, and
   * reports a mismatch exactly when some dependency's identity differs from
   * the recorded one.
   */
  lemma {:induction false} ScanStable(mro: seq<ClassBody>, s: Store, field: string, deps: seq<string>, i: nat,
                                      ids: map<string, nat>, fuel: nat)
    requires i <= |deps| && fuel > 0
    requires StableFrom(mro, s, deps, i) && IdsMatch(s, ids)
    requires forall t :: t in ids ==> t in deps
    ensures StableFrom2(s, deps, i)
    ensures Scan(mro, s, field, deps, i, ids, fuel).1 == s
    ensures Scan(mro, s, field, deps, i, ids, fuel).0.Ok?
    ensures Scan(mro, s, field, deps, i, ids, fuel).0.value.None? <==> Unchanged(s, field, deps, i)
    ensures Scan(mro, s, field, deps, i, ids, fuel).0.value.Some? ==>
      IdsMatch(s, Scan(mro, s, field, deps, i, ids, fuel).0.value.value) &&
      forall t :: t in Scan(mro, s, field, deps, i, ids, fuel).0.value.value ==> t in deps
    decreases |deps| - i
  {
    if i < |deps| {
      var target := deps[i];
      CachedRead(mro, s, target, fuel);
      var ids' := ids[target := s.params[target].id];
      if Recorded(s.depends, field, target) == s.params[target].id {
        ScanStable(mro, s, field, deps, i + 1, ids', fuel);
      }
    }
  }

  /**
   * With stable dependencies, recording them succeeds without reading
   * anything new, and afterwards each dependency from index `j` is recorded
   * with the identity of its stored value; nothing else of `field` changes.
   */
  lemma {:induction false} RefreshStable(mro: seq<ClassBody>, s: Store, field: string, deps: seq<string>, j: nat,
                                         ids: map<string, nat>, fuel: nat)
    requires j <= |deps| && fuel > 0
    requires StableFrom(mro, s, deps, j) && IdsMatch(s, ids)
    ensures var (r, s') := Refresh(mro, s, field, deps, j, ids, fuel);
      r.Ok? && s'.params == s.params && s'.nextId == s.nextId && s'.calls == s.calls &&
      (forall t :: Recorded(s'.depends, field, t) ==
         if t in deps[j..] then s.params[t].id else Recorded(s.depends, field, t))
    decreases |deps| - j
  {
    if j < |deps| {
      var target := deps[j];
      var s1 := Record(s, field, target, s.params[target].id);
      RefreshStep(mro, s, field, deps, j, ids, fuel);
      assert StableFrom(mro, s1, deps, j + 1);
      RefreshStable(mro, s1, field, deps, j + 1, ids, fuel);
      var s' := Refresh(mro, s1, field, deps, j + 1, ids, fuel).1;
      assert deps[j..] == [target] + deps[j + 1..];
      forall t
        ensures Recorded(s'.depends, field, t) == if t in deps[j..] then s.params[t].id else Recorded(s.depends, field, t)
      {
        assert t in deps[j..] <==> t == target || t in deps[j + 1..];
      }
    }
  }

  /** With stable dependencies, recording them leaves what is recorded for every other field as it was. */
  lemma {:induction false} RefreshOnlyField(mro: seq<ClassBody>, s: Store, field: string, deps: seq<string>, j: nat,
                                            ids: map<string, nat>, fuel: nat)
    requires j <= |deps| && fuel > 0
    requires StableFrom(mro, s, deps, j) && IdsMatch(s, ids)
    ensures forall f, t :: f != field ==>
      Recorded(Refresh(mro, s, field, deps, j, ids, fuel).1.depends, f, t) == Recorded(s.depends, f, t)
    decreases |deps| - j
  {
    if j < |deps| {
      var s1 := Record(s, field, deps[j], s.params[deps[j]].id);
      RefreshStep(mro, s, field, deps, j, ids, fuel);
      assert StableFrom(mro, s1, deps, j + 1);
      RefreshOnlyField(mro, s1, field, deps, j + 1, ids, fuel);
    }
  }

  /** With a stable dependency at `j`, recording from `j` records its stored identity, then goes on. */
  lemma RefreshStep(mro: seq<ClassBody>, s: Store, field: string, deps: seq<string>, j: nat,
                    ids: map<string, nat>, fuel: nat)
    requires j < |deps| && fuel > 0
    requires CachedAt(mro, s, deps[j]) && IdsMatch(s, ids)
    ensures Refresh(mro, s, field, deps, j, ids, fuel) ==
      Refresh(mro, Record(s, field, deps[j], s.params[deps[j]].id), field, deps, j + 1, ids, fuel)
  {
    if deps[j] !in ids {
      CachedRead(mro, s, deps[j], fuel);
    }
  }

  /**
   * Reading a computed param whose dependencies are stable plain params:
   * when every dependency still has its recorded identity the stored value
   * comes back and nothing runs; otherwise (in particular on the first read,
   * when nothing is recorded) the callback runs once, its value is stored
   * with a new identity, and every dependency's identity is recorded.
   */
  lemma DependentRead(mro: seq<ClassBody>, s: Store, field: string, fuel: nat)
    requires fuel >= 2 && ParamOf(mro, field).Some?
    requires var p := ParamOf(mro, field).value; |p.dependsOn| > 0 && p.callback.Some?
    requires StableFrom(mro, s, ParamOf(mro, field).value.dependsOn, 0)
    ensures var p := ParamOf(mro, field).value; var deps := p.dependsOn;
      StableFrom2(s, deps, 0) &&
      var (r, s') := ReadParam(mro, s, field, fuel);
      (field !in s.depends ==> !Unchanged(s, field, deps, 0)) &&
      (Unchanged(s, field, deps, 0) ==> s' == s && r == (if field in s.params then Ok(s.params[field]) else Raise(KeyError, field))) &&
      (!Unchanged(s, field, deps, 0) ==>
         Count(s'.calls, field) == Count(s.calls, field) + 1 &&
         (p.callback.value(s.params).Err? ==> r == Err(p.callback.value(s.params).error)) &&
         (p.callback.value(s.params).Ok? ==>
            r == Ok(Obj(p.callback.value(s.params).value, s.nextId)) &&
            s'.params == s.params[field := r.value] && s'.nextId == s.nextId + 1 &&
            forall k :: 0 <= k < |deps| ==> Recorded(s'.depends, field, deps[k]) == s.params[deps[k]].id))
  {
    var p := ParamOf(mro, field).value;
    var deps := p.dependsOn;
    ScanStable(mro, s, field, deps, 0, map[], fuel - 1);
    if field !in s.depends {
      assert CachedAt(mro, s, deps[0]);
      assert Recorded(s.depends, field, deps[0]) == -1;
    }
    var (found, s1) := Scan(mro, s, field, deps, 0, map[], fuel - 1);
    if found.value.Some? {
      RecomputeStable(mro, s, field, p, found.value.value, fuel - 1);
    }
  }

  /**
   * The recompute after a mismatch, with stable dependencies: the callback
   * runs once; when it succeeds its value is stored with a new identity
   * and every dependency is recorded with the identity of its stored value.
   */
  lemma RecomputeStable(mro: seq<ClassBody>, s: Store, field: string, p: ParamDecl, ids: map<string, nat>, fuel: nat)
    requires fuel > 0 && ParamOf(mro, field) == Some(p) && |p.dependsOn| > 0 && p.callback.Some?
    requires StableFrom(mro, s, p.dependsOn, 0) && IdsMatch(s, ids)
    requires forall t :: t in ids ==> t in p.dependsOn
    ensures var deps := p.dependsOn; var (r, s') := Recompute(mro, s, field, p, ids, fuel);
      Count(s'.calls, field) == Count(s.calls, field) + 1 &&
      (p.callback.value(s.params).Err? ==> r == Err(p.callback.value(s.params).error)) &&
      (p.callback.value(s.params).Ok? ==>
         r.Ok? && s'.params == s.params[field := Obj(p.callback.value(s.params).value, s.nextId)] &&
         s'.nextId == s.nextId + 1 &&
         forall k :: 0 <= k < |deps| ==> Recorded(s'.depends, field, deps[k]) == s.params[deps[k]].id)
  {
    var deps := p.dependsOn;
    var (v, s2) := RunCallback(s, field, p.callback.value);
    assert Count(s2.calls, field) == Count(s.calls, field) + 1;
    if v.Ok? {
      assert Recompute(mro, s, field, p, ids, fuel) == Refresh(mro, s2, field, deps, 0, ids, fuel);
      assert field !in deps;
      forall j | 0 <= j < |deps| ensures CachedAt(mro, s2, deps[j]) {
        assert CachedAt(mro, s, deps[j]);
      }
      forall t | t in ids ensures t in s2.params && ids[t] == s2.params[t].id {
        assert t != field;
      }
      RefreshStable(mro, s2, field, deps, 0, ids, fuel);
      var s3 := Refresh(mro, s2, field, deps, 0, ids, fuel).1;
      assert deps[0..] == deps;
      forall k | 0 <= k < |deps| ensures Recorded(s3.depends, field, deps[k]) == s.params[deps[k]].id {
        assert deps[k] in deps[0..];
      }
    } else {
      assert Recompute(mro, s, field, p, ids, fuel) == (Err(v.error), s2);
    }
  }

  /**
   * Deleting a computed param whose dependencies have not changed leaves it
   * unreadable: nothing triggers a recompute, and the stored value is gone.
   */
  lemma DeletedComputedRaises(mro: seq<ClassBody>, s: Store, field: string, fuel: nat)
    requires fuel >= 2 && ParamOf(mro, field).Some?
    requires var p := ParamOf(mro, field).value; |p.dependsOn| > 0 && p.callback.Some?
    requires StableFrom(mro, s, ParamOf(mro, field).value.dependsOn, 0)
    requires StableFrom2(s, ParamOf(mro, field).value.dependsOn, 0)
    requires Unchanged(s, field, ParamOf(mro, field).value.dependsOn, 0)
    ensures var s1 := DeleteParam(s, field, ParamOf(mro, field).value).0;
      ReadParam(mro, s1, field, fuel) == (Raise(KeyError, field), s1)
  {
    var p := ParamOf(mro, field).value;
    var s1 := DeleteParam(s, field, p).0;
    forall j | 0 <= j < |p.dependsOn| ensures CachedAt(mro, s1, p.dependsOn[j]) {
      assert CachedAt(mro, s, p.dependsOn[j]);
      assert p.dependsOn[j] != field;
    }
    DependentRead(mro, s1, field, fuel);
  }
}
