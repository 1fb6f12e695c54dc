/**
 * A Composable instance (theflow/base.py): the params and nodes it stores,
 * the run it is in, and what reading and writing its attributes, setting
 * it up from keyword arguments, running it and walking its nodes do to
 * that state.  The class-level declarations it consults are those of
 * `Declarations`; the param reads follow `FieldStore`.
 */
module Composables {
  import opened Wrappers
  import opened PyValues
  import opened Declarations
  import FieldStore
  import Naming
  import Pretties
  import Backends

  /** The calls a Composable makes on its context. */
  datatype ContextCall =
    | ClearAll
    | SetGlobal(key: string, value: Value)
    | CreateLocal(scope: string)

  /**
   * What the objects of one model run share.  One counter stands for
   * CPython's `id()`: two objects never share an identity.  A context store
   * is named by such an identity, and `logs` keeps the calls each context
   * receives, in order; `clear_all` and `create_local_context` are not part
   * of theflow/context.py, so what they do to the store is not modelled.
   */
  class Runtime {
    var next: nat
    var logs: map<nat, seq<ContextCall>>

    constructor ()
      ensures next == 0 && logs == map[]
    {
      next := 0;
      logs := map[];
    }

    method Mint() returns (id: nat)
      modifies this`next
      ensures id == old(next) && next == old(next) + 1
    {
      id := next;
      next := next + 1;
    }

    /** The calls context `ctx` has received so far. */
    function Log(ctx: nat): seq<ContextCall>
      reads this`logs
    {
      if ctx in logs then logs[ctx] else []
    }

    /** Context `ctx` receives `call`. */
    method Record(ctx: nat, call: ContextCall)
      modifies this`logs
      ensures Log(ctx) == old(Log(ctx)) + [call]
      ensures forall other :: other != ctx ==> Log(other) == old(Log(other))
    {
      logs := logs[ctx := Log(ctx) + [call]];
    }
  }

  /** The proxy's one Param: the field that holds the wrapped object. */
  const Original := "ff_original_obj"

  // The messages of the errors raised here.
  const NodeValueMsg := "Node can only be used with Composable"
  const NotCallableMsg := "object is not callable"
  const DoubleWrapMsg := "Unnecessary to wrap a ComposableProxy object with ComposableProxy"

  function NodeNotSetMsg(field: string): string
  {
    "Node " + field + " is not set and has no default value"
  }

  /** What an attribute holds: an ordinary object, or a Composable. */
  datatype Target = Val(o: Obj) | Comp(c: Composable)

  /** What an instance's params, attributes and nodes hold for one name. */
  type Slots = (Option<Obj>, Option<Target>, Option<Composable>)

  /**
   * `isinstance(value, annotation)` for the annotation of `field` in class
   * `k`; the model does not derive annotations' types.
   */
  type Conforms = (Klass, string, Value) -> bool

  /** The class statement of `ComposableProxy` (theflow/base.py 940-955): one annotation, `ff_original_obj`. */
  const ProxyStatement: ClassBody :=
    ClassBody("ComposableProxy", "theflow.base", 1, [], [(Original, false)], None, None, None)

  /** `ComposableProxy` as class creation makes it: the annotation became a plain Param. */
  const ProxyBody: ClassBody := ProxyStatement.(attrs := [(Original, Desc(PDesc(PlainParam(None))))])

  const ProxyKlass: Klass := Klass(ProxyBody, [ComposableBody])

  /** `set_run` hands entries whose name is a node and whose value is a dict to that node. */
  predicate Routed(e: (string, Value), nodeNames: seq<string>)
  {
    e.0 in nodeNames && e.1.Dict?
  }

  /** The entries `set_run` keeps on the object itself, in order. */
  function Own(items: Entries, nodeNames: seq<string>): Entries
    decreases |items|
  {
    if |items| == 0 then []
    else
      var rest := Own(items[1..], nodeNames);
      if Routed(items[0], nodeNames) then rest else [items[0]] + rest
  }

  /** The entries kept are exactly the entries not routed. */
  lemma {:induction false} OwnMembers(items: Entries, nodeNames: seq<string>)
    ensures forall e :: e in Own(items, nodeNames) <==> e in items && !Routed(e, nodeNames)
    decreases |items|
  {
    if |items| > 0 {
      OwnMembers(items[1..], nodeNames);
      assert forall e :: e in items <==> e == items[0] || e in items[1..];
    }
  }

  class Composable {
    const cls: Klass
    const mro: seq<ClassBody> := Mro(cls)
    /** `_ff_params` and `_ff_nodes`: every name declared as a Param or a Node in the MRO, sorted. */
    const paramNames: seq<string> := Registered(Mro(cls)).0
    const nodeNames: seq<string> := Registered(Mro(cls)).1
    /** `id(self)`. */
    const oid: nat
    const ids: Runtime
    const isa: Conforms

    /** `__ff_params__`, `__ff_depends__`, and how often each callback has run. */
    var params: Stored
    var depends: map<string, map<string, nat>>
    ghost var calls: map<string, nat>
    /** `__ff_nodes__`. */
    var nodes: map<string, Composable>
    /** Plain instance attributes (the rest of `__dict__`). */
    var attrs: map<string, Target>
    /** `__ff_run_kwargs__` and `__ff_run_temp_kwargs__`. */
    var runKwargs: Entries
    var tempKwargs: Entries
    /** `_ff_in_run`, `_ff_prefix`, `_ff_name`, `_ff_run_id`, `_ff_childs_called`. */
    var inRun: bool
    var prefix: string
    var name: string
    var runId: Value
    var childsCalled: map<string, nat>
    /** `_ff_context`, by the identity of the store. */
    var context: nat
    /** `_middleware`: the chain of middleware names around `_run`, or None. */
    var middleware: Option<Naming.Chain>
    /** How often `_initialize` has run. */
    var initCount: nat

    /** The attribute set-up at the start of `__init__` (theflow/base.py 467-485). */
    constructor (cls: Klass, ids: Runtime, isa: Conforms)
      modifies ids`next
      ensures this.cls == cls && mro == Mro(cls) && (paramNames, nodeNames) == Registered(Mro(cls))
      ensures this.ids == ids && this.isa == isa
      ensures oid == old(ids.next) && ids.next == old(ids.next) + 1
      ensures params == map[] && depends == map[] && calls == map[] && nodes == map[] && attrs == map[]
      ensures runKwargs == [] && tempKwargs == []
      ensures !inRun && prefix == "" && name == "" && runId == Str("") && childsCalled == map[]
      ensures context == oid
      ensures middleware == None && initCount == 0
    {
      this.cls := cls;
      oid := ids.next;
      this.ids := ids;
      this.isa := isa;
      params := map[];
      depends := map[];
      calls := map[];
      nodes := map[];
      attrs := map[];
      runKwargs := [];
      tempKwargs := [];
      inRun := false;
      prefix := "";
      name := "";
      runId := Str("");
      childsCalled := map[];
      context := ids.next;
      middleware := None;
      initCount := 0;
      new;
      ids.next := ids.next + 1;
    }

    /** The part of the instance a param read sees and changes. */
    ghost function Snapshot(): FieldStore.Store
      reads this`params, this`depends, this`calls, ids`next
    {
      FieldStore.Store(params, depends, ids.next, calls)
    }

    // -------------------------------------------------------------------
    // Param.__get__ and _calculate_from_depends_on

    method RunParamCallback(field: string, cb: Stored -> Result<Value>) returns (r: Result<Obj>)
      modifies this`params, this`calls, ids`next
      ensures (r, Snapshot()) == FieldStore.RunCallback(old(Snapshot()), field, cb)
    {
      var v := cb(params);
      calls := FieldStore.Bump(calls, field);
      if v.Err? {
        return Err(v.error);
      }
      var o := Obj(v.value, ids.next);
      ids.next := ids.next + 1;
      params := params[field := o];
      r := Ok(o);
    }

    method FillParam(field: string, p: ParamDecl) returns (r: Result<Obj>)
      modifies this`params, this`calls, ids`next
      ensures (r, Snapshot()) == FieldStore.Fill(old(Snapshot()), field, p)
    {
      if p.callback.Some? {
        r := RunParamCallback(field, p.callback.value);
      } else if p.default.Some? {
        params := params[field := p.default.value];
        r := Ok(p.default.value);
      } else {
        r := Raise(AttributeError, FieldStore.NotSetMsg(field));
      }
    }

    /** `getattr(self, field)` for a param (theflow/base.py 114-143). */
    method GetParam(field: string, fuel: nat) returns (r: Result<Obj>)
      modifies this`params, this`depends, this`calls, ids`next
      ensures (r, Snapshot()) == FieldStore.ReadParam(mro, old(Snapshot()), field, fuel)
      decreases fuel, 0, 0
    {
      if fuel == 0 {
        return Raise(RecursionError, FieldStore.RecursionMsg);
      }
      var decl := ParamOf(mro, field);
      if decl.None? {
        return Raise(AttributeError, FieldStore.NoAttrMsg(field));
      }
      var p := decl.value;
      if |p.dependsOn| > 0 {
        var c := CalculateParam(field, p, fuel - 1);
        if c.Err? {
          return Err(c.error);
        }
        if field !in params {
          return Raise(KeyError, field);
        }
        return Ok(params[field]);
      }
      if field !in params || p.noCache {
        r := FillParam(field, p);
        return;
      }
      r := Ok(params[field]);
    }

    /** `Param._calculate_from_depends_on` (theflow/base.py 145-172). */
    method CalculateParam(field: string, p: ParamDecl, fuel: nat) returns (r: Result<()>)
      modifies this`params, this`depends, this`calls, ids`next
      ensures (r, Snapshot()) == FieldStore.Calculate(mro, old(Snapshot()), field, p, fuel)
      decreases fuel, 3, 0
    {
      var found := ScanDependencies(field, p.dependsOn, fuel);
      if found.Err? {
        return Err(found.error);
      }
      if found.value.None? {
        return Ok(());
      }
      if p.callback.None? {
        return Raise(ValueError, FieldStore.NoCallbackMsg(field));
      }
      var v := RunParamCallback(field, p.callback.value);
      if v.Err? {
        return Err(v.error);
      }
      r := RecordDependencies(field, p.dependsOn, found.value.value, fuel);
    }

    /**
     * The scan of a computed field's dependencies: read each, stop at the
     * first whose identity differs from the recorded one.
     */
    method ScanDependencies(field: string, deps: seq<string>, fuel: nat) returns (found: Result<Option<map<string, nat>>>)
      modifies this`params, this`depends, this`calls, ids`next
      ensures (found, Snapshot()) == FieldStore.Scan(mro, old(Snapshot()), field, deps, 0, map[], fuel)
      decreases fuel, 2, |deps|
    {
      var seen: map<string, nat> := map[];
      var i := 0;
      while i < |deps|
        invariant 0 <= i <= |deps|
        invariant FieldStore.Scan(mro, Snapshot(), field, deps, i, seen, fuel) ==
          FieldStore.Scan(mro, old(Snapshot()), field, deps, 0, map[], fuel)
      {
        var target := deps[i];
        var before := FieldStore.Recorded(depends, field, target);
        var t := GetParam(target, fuel);
        if t.Err? {
          return Err(t.error);
        }
        seen := seen[target := t.value.id];
        if before != t.value.id {
          return Ok(Some(seen));
        }
        i := i + 1;
      }
      found := Ok(None);
    }

    /** Recording every dependency's identity after a recomputation. */
    method RecordDependencies(field: string, deps: seq<string>, seen: map<string, nat>, fuel: nat) returns (r: Result<()>)
      modifies this`params, this`depends, this`calls, ids`next
      ensures (r, Snapshot()) == FieldStore.Refresh(mro, old(Snapshot()), field, deps, 0, seen, fuel)
      decreases fuel, 1, |deps|
    {
      var j := 0;
      while j < |deps|
        invariant 0 <= j <= |deps|
        invariant FieldStore.Refresh(mro, Snapshot(), field, deps, j, seen, fuel) ==
          FieldStore.Refresh(mro, old(Snapshot()), field, deps, 0, seen, fuel)
      {
        var target := deps[j];
        var id: nat;
        if target in seen {
          id := seen[target];
        } else {
          var t := GetParam(target, fuel);
          if t.Err? {
            return Err(t.error);
          }
          id := t.value.id;
        }
        var row := if field in depends then depends[field] else map[];
        depends := depends[field := row[target := id]];
        j := j + 1;
      }
      r := Ok(());
    }

    // -------------------------------------------------------------------
    // Writes and deletes through the descriptors

    /** `_initialize` (theflow/base.py 627-652), as far as it is observable here: it ran once more. */
    method Initialize()
      modifies this`initCount
      ensures initCount == old(initCount) + 1
    {
      initCount := initCount + 1;
    }

    /** `isinstance(v, annotation of field)`. */
    function FieldConforms(field: string): Value -> bool
    {
      v => isa(cls, field, v)
    }

    /** `Param.__set__` (theflow/base.py 174-189). */
    method SetParam(field: string, p: ParamDecl, o: Obj) returns (r: Result<()>)
      modifies this`params, this`initCount
      ensures var (res, s, refresh) := FieldStore.WriteParam(old(Snapshot()), field, p, o, FieldConforms(field));
        r == res && params == s.params && initCount == old(initCount) + (if refresh then 1 else 0)
    {
      if |p.dependsOn| > 0 {
        return Raise(ValueError, FieldStore.DependsSetMsg(field));
      }
      if p.strictType && !isa(cls, field, o.value) {
        return Raise(ValueError, FieldStore.TypeMsg(field));
      }
      params := params[field := o];
      if p.refreshOnSet {
        Initialize();
      }
      r := Ok(());
    }

    /** `Param.__delete__` (theflow/base.py 191-195). */
    method DeleteParam(field: string, p: ParamDecl)
      modifies this`params, this`initCount
      ensures var (s, refresh) := FieldStore.DeleteParam(old(Snapshot()), field, p);
        params == s.params && initCount == old(initCount) + (if refresh then 1 else 0)
    {
      if field in params {
        params := params - {field};
        if p.refreshOnSet {
          Initialize();
        }
      }
    }

    /** `Node.__delete__` (theflow/base.py 346-348). */
    method DeleteNode(field: string)
      modifies this`nodes
      ensures nodes == old(nodes) - {field}
    {
      if field in nodes {
        nodes := nodes - {field};
      }
    }

    /** `delattr(self, name)`: through the descriptor, else from the instance dict. */
    method DelAttr(attr: string) returns (r: Result<()>)
      modifies this`params, this`initCount, this`nodes, this`attrs
      ensures ParamOf(mro, attr).Some? ==> (r == Ok(()) && attrs == old(attrs) && nodes == old(nodes) &&
        var (s, refresh) := FieldStore.DeleteParam(old(Snapshot()), attr, ParamOf(mro, attr).value);
        params == s.params && initCount == old(initCount) + (if refresh then 1 else 0))
      ensures NodeOf(mro, attr).Some? ==> r == Ok(()) && nodes == old(nodes) - {attr} && attrs == old(attrs) && params == old(params)
      ensures ParamOf(mro, attr).None? && NodeOf(mro, attr).None? ==> (nodes == old(nodes) && params == old(params) &&
        (attr in old(attrs) ==> r == Ok(()) && attrs == old(attrs) - {attr}) &&
        (attr !in old(attrs) ==> r.Err? && r.error.kind == AttributeError && attrs == old(attrs)))
    {
      match FindAttr(mro, attr)
      case Some(Desc(PDesc(p))) =>
        DeleteParam(attr, p);
        r := Ok(());
      case Some(Desc(NDesc(_))) =>
        DeleteNode(attr);
        r := Ok(());
      case _ =>
        if attr !in attrs {
          return Raise(AttributeError, attr);
        }
        attrs := attrs - {attr};
        r := Ok(());
    }

    /**
     * `object.__setattr__(self, attr, v)`: through the Node or Param
     * descriptor the class binds to `attr`, else into the instance dict.
     */
    method Store(attr: string, v: Target, ghost U: set<Composable>) returns (r: Result<()>)
      requires this in U && Closed(U, ids) && (v.Comp? ==> v.c in U)
      modifies this`params, this`nodes, this`attrs, this`initCount
      ensures Closed(U, ids)
      ensures NodeOf(mro, attr).Some? ==> (attrs == old(attrs) && params == old(params) &&
        (v.Comp? ==> r == Ok(()) && nodes == old(nodes)[attr := v.c]) &&
        (v.Val? ==> r.Err? && r.error.kind == ValueError && nodes == old(nodes)))
      ensures ParamOf(mro, attr).Some? ==> (attrs == old(attrs) && nodes == old(nodes) &&
        var (res, s, refresh) := FieldStore.WriteParam(old(Snapshot()), attr, ParamOf(mro, attr).value, ObjOf(v), FieldConforms(attr));
        r == res && params == s.params && initCount == old(initCount) + (if refresh then 1 else 0))
      ensures ParamOf(mro, attr).None? && NodeOf(mro, attr).None? ==>
        r == Ok(()) && nodes == old(nodes) && params == old(params) && attrs == old(attrs)[attr := v]
    {
      if NodeOf(mro, attr).Some? {
        if v.Val? {
          r := Raise(ValueError, NodeValueMsg);
        } else {
          PutNode(attr, v.c, U);
          r := Ok(());
        }
      } else if ParamOf(mro, attr).Some? {
        r := SetParam(attr, ParamOf(mro, attr).value, ObjOf(v));
      } else {
        PutAttr(attr, v, U);
        r := Ok(());
      }
    }

    /** `Node.__set__` storing a Composable (theflow/base.py 338-344). */
    method PutNode(attr: string, c: Composable, ghost U: set<Composable>)
      requires this in U && Closed(U, ids) && c in U
      modifies this`nodes
      ensures Closed(U, ids) && nodes == old(nodes)[attr := c]
    {
      nodes := nodes[attr := c];
      ValuesUpdate(old(nodes), attr, c);
    }

    /** An assignment into the instance dict. */
    method PutAttr(attr: string, v: Target, ghost U: set<Composable>)
      requires this in U && Closed(U, ids) && (v.Comp? ==> v.c in U)
      modifies this`attrs
      ensures Closed(U, ids) && attrs == old(attrs)[attr := v]
    {
      attrs := attrs[attr := v];
    }

    /** `_make_composable` (theflow/base.py 684-688): anything but a Composable gets wrapped in a proxy. */
    method MakeComposable(t: Target, ghost U: set<Composable>) returns (v: Target, ghost made: set<Composable>)
      requires Closed(U, ids) && (t.Comp? ==> t.c in U)
      modifies ids`next
      ensures fresh(made) && Closed(U + made, ids)
      ensures v.Comp? && v.c in U + made
      ensures t.Comp? ==> v == t && made == {}
      ensures t.Val? ==> fresh(v.c) && Wraps(v.c, t)
    {
      made := {};
      assert U + made == U;
      v := t;
      if t.Val? {
        var p;
        p, made := NewProxy(t, ids, isa, U);
        v := Comp(p.value);
      }
    }

    /**
     * `Composable.__setattr__` (theflow/base.py 618-625): a registered node
     * name whose value is not a Composable gets a fresh proxy around it;
     * then the value `stored` is written through `Store`.
     */
    method SetAttr(attr: string, t: Target, ghost U: set<Composable>)
      returns (r: Result<()>, stored: Target, ghost made: set<Composable>)
      requires this in U && Closed(U, ids) && (t.Comp? ==> t.c in U)
      modifies this`params, this`nodes, this`attrs, this`initCount, ids`next
      ensures fresh(made) && Closed(U + made, ids)
      ensures !Text.StartsWith(attr, "_") && attr in nodeNames && t.Val? ==>
        stored.Comp? && fresh(stored.c) && Wraps(stored.c, t)
      ensures !(!Text.StartsWith(attr, "_") && attr in nodeNames && t.Val?) ==> stored == t
      ensures NodeOf(mro, attr).Some? ==> (attrs == old(attrs) && params == old(params) &&
        (stored.Comp? ==> r == Ok(()) && nodes == old(nodes)[attr := stored.c]) &&
        (stored.Val? ==> r.Err? && r.error.kind == ValueError && nodes == old(nodes)))
      ensures ParamOf(mro, attr).Some? ==> (attrs == old(attrs) && nodes == old(nodes) &&
        var (res, s, refresh) := FieldStore.WriteParam(old(Snapshot()), attr, ParamOf(mro, attr).value, ObjOf(stored), FieldConforms(attr));
        r == res && params == s.params && initCount == old(initCount) + (if refresh then 1 else 0))
      ensures ParamOf(mro, attr).None? && NodeOf(mro, attr).None? ==>
        r == Ok(()) && nodes == old(nodes) && params == old(params) && attrs == old(attrs)[attr := stored]
    {
      made := {};
      assert U + made == U;
      stored := t;
      if !Text.StartsWith(attr, "_") && attr in nodeNames && t.Val? {
        stored, made := MakeComposable(t, U);
      }
      r := Store(attr, stored, U + made);
    }

    // -------------------------------------------------------------------
    // Node.__get__ and _prepare_child

    /** `_prepare_child` (theflow/base.py 690-699). */
    method PrepareChild(child: Composable, field: string)
      modifies this`childsCalled, child`prefix, child`name, child`context
      ensures old(inRun) ==>
        child.prefix == Naming.ChildPrefix(old(prefix), old(name)) &&
        child.name == Naming.Occurrence(field, FieldStore.Count(old(childsCalled), field)) &&
        child.context == old(context) &&
        childsCalled == FieldStore.Bump(old(childsCalled), field)
      ensures !old(inRun) ==> unchanged(this`childsCalled, child`prefix, child`name, child`context)
    {
      if inRun {
        var pre := Naming.ChildPrefix(prefix, name);
        var nm := Naming.Occurrence(field, FieldStore.Count(childsCalled, field));
        var ctx := context;
        childsCalled := FieldStore.Bump(childsCalled, field);
        child.prefix := pre;
        child.name := nm;
        child.context := ctx;
      }
    }

    /** A fresh node value: from the callback, else the default class, else an error. */
    method BuildNode(field: string, n: NodeDecl, fuel: nat) returns (r: Result<Composable>, ghost made: set<Composable>)
      requires fuel > 0
      modifies this`calls, ids`next
      ensures fresh(made) && Closed(made, ids)
      ensures calls == (if n.callback.Some? then FieldStore.Bump(old(calls), field) else old(calls))
      ensures NodeRecipe(field, n, params).Err? ==> r == Err(NodeRecipe(field, n, params).error)
      ensures r.Ok? ==> (NodeRecipe(field, n, params).Ok? && fresh(r.value) && r.value in made &&
        r.value.cls == NodeRecipe(field, n, params).value.cls)
      decreases fuel, 0, 0
    {
      made := {};
      var recipe := NodeRecipe(field, n, params);
      if n.callback.Some? {
        calls := FieldStore.Bump(calls, field);
      }
      if recipe.Err? {
        return Err(recipe.error), made;
      }
      r, made := New(recipe.value.cls, recipe.value.kwargs, ids, isa, fuel - 1);
    }

    /** `Node._calculate_from_depends_on` (theflow/base.py 309-336). */
    method CalculateNode(field: string, n: NodeDecl, fuel: nat) returns (r: Result<()>, ghost made: set<Composable>)
      requires fuel > 0
      modifies this`params, this`depends, this`calls, this`nodes, ids`next
      ensures fresh(made) && Closed(made, ids)
      ensures nodes == old(nodes) || (field in nodes && nodes == old(nodes)[field := nodes[field]] && nodes[field] in made)
      ensures var (found, s) := FieldStore.Scan(mro, old(Snapshot()), field, n.dependsOn, 0, map[], fuel);
        (found.Err? ==> r == Err(found.error) && nodes == old(nodes) && Snapshot() == s) &&
        (found == Ok(None) ==> r == Ok(()) && nodes == old(nodes) && Snapshot() == s) &&
        (found.Ok? && found.value.Some? && r.Ok? ==> n.callback.Some? && field in nodes && fresh(nodes[field]))
      ensures n.callback.None? ==> r.Ok? ==> nodes == old(nodes)
      decreases fuel, 0, 1
    {
      made := {};
      var found := ScanDependencies(field, n.dependsOn, fuel);
      if found.Err? {
        return Err(found.error), made;
      }
      if found.value.None? {
        return Ok(()), made;
      }
      if n.callback.None? {
        return Raise(ValueError, FieldStore.NoCallbackMsg(field)), made;
      }
      var c;
      c, made := BuildNode(field, n, fuel);
      if c.Err? {
        return Err(c.error), made;
      }
      nodes := nodes[field := c.value];
      r := RecordDependencies(field, n.dependsOn, found.value.value, fuel);
    }

    /**
     * What a node read does to the field store before `_prepare_child`
     * (theflow/base.py 291-303), between the state before (`old`) and after:
     * a cached node is kept and nothing else changes; a missing or uncached
     * one is built from the callback or the default, or its error raised; a
     * dependent one is recomputed exactly when the dependency scan says so.
     */
    twostate predicate Obtained(field: string, n: NodeDecl, fuel: nat, new got: Result<()>)
      reads this`params, this`depends, this`calls, this`nodes, ids`next
    {
      (nodes == old(nodes) || (field in nodes && nodes == old(nodes)[field := nodes[field]] && fresh(nodes[field]))) &&
      (|n.dependsOn| == 0 && field in old(nodes) && !n.noCache ==>
        got == Ok(()) && nodes == old(nodes) && Snapshot() == old(Snapshot())) &&
      (|n.dependsOn| == 0 && (field !in old(nodes) || n.noCache) ==>
        (NodeRecipe(field, n, old(params)).Err? ==> got == Err(NodeRecipe(field, n, old(params)).error)) &&
        (got.Ok? ==> (NodeRecipe(field, n, old(params)).Ok? && field in nodes && fresh(nodes[field]) &&
          nodes[field].cls == NodeRecipe(field, n, old(params)).value.cls))) &&
      (|n.dependsOn| > 0 ==>
        var (found, s) := FieldStore.Scan(mro, old(Snapshot()), field, n.dependsOn, 0, map[], fuel);
        (found.Err? ==> got == Err(found.error) && nodes == old(nodes)) &&
        (found == Ok(None) ==> got == Ok(()) && nodes == old(nodes) && Snapshot() == s) &&
        (found.Ok? && found.value.Some? && got.Ok? ==> n.callback.Some? && field in nodes && fresh(nodes[field])))
    }

    /** The field-store half of `Node.__get__`. */
    method ObtainNode(field: string, n: NodeDecl, fuel: nat, ghost U: set<Composable>) returns (r: Result<()>, ghost made: set<Composable>)
      requires fuel > 0 && this in U && Closed(U, ids)
      modifies this`params, this`depends, this`calls, this`nodes, ids`next
      ensures fresh(made) && Closed(U + made, ids)
      ensures nodes == old(nodes) || (field in nodes && nodes[field] in made)
      ensures Obtained(field, n, fuel, r)
      decreases fuel, 0, 2
    {
      made := {};
      assert U + made == U;
      if |n.dependsOn| > 0 {
        r, made := CalculateNode(field, n, fuel);
        if nodes != old(nodes) {
          ValuesUpdate(old(nodes), field, nodes[field]);
        }
      } else if field !in nodes || n.noCache {
        var c;
        c, made := BuildNode(field, n, fuel);
        if c.Err? {
          return Err(c.error), made;
        }
        nodes := nodes[field := c.value];
        ValuesUpdate(old(nodes), field, c.value);
        r := Ok(());
      } else {
        r := Ok(());
      }
    }

    /**
     * `getattr(self, field)` for a node (theflow/base.py 276-307): the
     * field store changes as `Obtained` says, then the stored node is
     * prepared as a child and returned.
     */
    method GetNode(field: string, fuel: nat, ghost U: set<Composable>)
      returns (r: Result<Composable>, got: Result<()>, ghost made: set<Composable>)
      requires this in U && Closed(U, ids) && NodeOf(mro, field).Some?
      modifies this`params, this`depends, this`calls, this`nodes, this`childsCalled, ids`next
      modifies At(field)`prefix, At(field)`name, At(field)`context
      ensures fresh(made) && Closed(U + made, ids)
      ensures fuel == 0 ==> r.Err? && r.error.kind == RecursionError && unchanged(this)
      ensures fuel > 0 ==> Obtained(field, NodeOf(mro, field).value, fuel, got)
      ensures fuel > 0 && got.Err? ==> r == Err(got.error)
      ensures fuel > 0 && got.Ok? && field !in nodes ==> r.Err? && r.error.kind == KeyError
      ensures fuel > 0 && got.Ok? && field in nodes ==> r == Ok(nodes[field])
      ensures r.Ok? ==> r.value in U + made
      ensures r.Ok? && old(inRun) ==>
        r.value.prefix == Naming.ChildPrefix(old(prefix), old(name)) &&
        r.value.name == Naming.Occurrence(field, FieldStore.Count(old(childsCalled), field)) &&
        r.value.context == old(context) &&
        childsCalled == FieldStore.Bump(old(childsCalled), field)
      ensures !(r.Ok? && old(inRun)) ==> childsCalled == old(childsCalled)
      ensures field in old(nodes) && !(r.Ok? && old(inRun) && r.value == old(nodes)[field]) ==> Placed(old(nodes)[field])
      decreases fuel, 1, 1
    {
      if fuel == 0 {
        made := {};
        got := Ok(());
        r := Raise(RecursionError, FieldStore.RecursionMsg);
      } else {
        r, got, made := FetchNode(field, fuel, U);
      }
    }

    /** `GetNode` below the recursion limit: obtain the node, then attach it. */
    method FetchNode(field: string, fuel: nat, ghost U: set<Composable>)
      returns (r: Result<Composable>, got: Result<()>, ghost made: set<Composable>)
      requires fuel > 0 && this in U && Closed(U, ids) && NodeOf(mro, field).Some?
      modifies this`params, this`depends, this`calls, this`nodes, this`childsCalled, ids`next
      modifies At(field)`prefix, At(field)`name, At(field)`context
      ensures fresh(made) && Closed(U + made, ids)
      ensures Obtained(field, NodeOf(mro, field).value, fuel, got)
      ensures got.Err? ==> r == Err(got.error)
      ensures got.Ok? && field !in nodes ==> r.Err? && r.error.kind == KeyError
      ensures got.Ok? && field in nodes ==> r == Ok(nodes[field])
      ensures r.Ok? ==> r.value in U + made
      ensures r.Ok? && old(inRun) ==>
        r.value.prefix == Naming.ChildPrefix(old(prefix), old(name)) &&
        r.value.name == Naming.Occurrence(field, FieldStore.Count(old(childsCalled), field)) &&
        r.value.context == old(context) &&
        childsCalled == FieldStore.Bump(old(childsCalled), field)
      ensures !(r.Ok? && old(inRun)) ==> childsCalled == old(childsCalled)
      ensures field in old(nodes) && !(r.Ok? && old(inRun) && r.value == old(nodes)[field]) ==> Placed(old(nodes)[field])
      decreases fuel, 1, 0
    {
      got, made := ObtainNode(field, NodeOf(mro, field).value, fuel, U);
      if got.Err? {
        r := Err(got.error);
      } else {
        r := Attach(field);
      }
    }

    /** The node stored for `field`, if any. */
    function At(field: string): set<Composable>
      reads this`nodes
    {
      if field in nodes then {nodes[field]} else {}
    }

    /** The end of `Node.__get__`: the stored node, prepared as a child (theflow/base.py 305-307). */
    method Attach(field: string) returns (r: Result<Composable>)
      modifies this`childsCalled, At(field)`prefix, At(field)`name, At(field)`context
      ensures field !in nodes ==> r.Err? && r.error.kind == KeyError && childsCalled == old(childsCalled)
      ensures field in nodes ==> r == Ok(nodes[field])
      ensures field in nodes && old(inRun) ==>
        nodes[field].prefix == Naming.ChildPrefix(old(prefix), old(name)) &&
        nodes[field].name == Naming.Occurrence(field, FieldStore.Count(old(childsCalled), field)) &&
        nodes[field].context == old(context) &&
        childsCalled == FieldStore.Bump(old(childsCalled), field)
      ensures !old(inRun) ==> childsCalled == old(childsCalled) && unchanged(At(field)`prefix, At(field)`name, At(field)`context)
    {
      if field !in nodes {
        return Raise(KeyError, field);
      }
      PrepareChild(nodes[field], field);
      r := Ok(nodes[field]);
    }

    // -------------------------------------------------------------------
    // set

    /** What `params`, `attrs` and `nodes` hold for `k`. */
    function Slot(k: string): Slots
      reads this`params, this`attrs, this`nodes
    {
      SlotOf(params, attrs, nodes, k)
    }

    /** `__setattr__` wraps a value that is not a Composable, given for `k`, in a proxy. */
    predicate Wrapped(k: string)
    {
      !Text.StartsWith(k, "_") && k in nodeNames
    }

    /**
     * The keys whose `setattr` outcome `Took` states: all but a wrapped
     * name whose nearest class attribute is not a Node.
     */
    predicate Settled(k: string)
    {
      !Wrapped(k) || NodeOf(mro, k).Some?
    }

    /**
     * `setattr(self, k, v)` raises: a computed param, a `strict_type`
     * param given a value of another type, or a private node name given a
     * value that is not a Composable.
     */
    predicate Refused(k: string, v: Value)
    {
      !Wrapped(k) &&
      ((ParamOf(mro, k).Some? &&
        (|ParamOf(mro, k).value.dependsOn| > 0 || (ParamOf(mro, k).value.strictType && !isa(cls, k, v)))) ||
       NodeOf(mro, k).Some?)
    }

    /**
     * What `setattr(self, k, v)` leaves in `k`'s slot, `now`, when it held
     * `prior`: a refused write leaves it alone; otherwise a param or a
     * plain attribute holds `v` and a node holds a new proxy.
     */
    predicate Took(k: string, v: Value, now: Slots, prior: Slots)
    {
      (Refused(k, v) ==> now == prior) &&
      (!Wrapped(k) && ParamOf(mro, k).Some? && !Refused(k, v) ==>
        now.0.Some? && now.0.value.value == v && now.1 == prior.1 && now.2 == prior.2) &&
      (!Wrapped(k) && ParamOf(mro, k).None? && NodeOf(mro, k).None? ==>
        now.0 == prior.0 && now.1.Some? && now.1.value.Val? && now.1.value.o.value == v && now.2 == prior.2) &&
      (Wrapped(k) && NodeOf(mro, k).Some? ==>
        now.0 == prior.0 && now.1 == prior.1 && now.2.Some? && now.2.value.cls == ProxyKlass)
    }

    /**
     * The outcome of `set` over `items` whose keys are distinct and none
     * of which goes to a node: the first `done` items took effect as
     * `Took` says and the others left their slots alone; a strict call
     * stops at the first item that raised, and only there.
     */
    twostate predicate SetOutcome(items: Entries, done: nat, strict: bool, new r: Result<()>)
      requires done <= |items|
      reads this`params, this`attrs, this`nodes
    {
      Outcome(items, done, strict, r, params, attrs, nodes, old(params), old(attrs), old(nodes))
    }

    /** `SetOutcome` with the maps after, `p`, `a`, `n`, and before, `p0`, `a0`, `n0`. */
    predicate Outcome(items: Entries, done: nat, strict: bool, r: Result<()>,
                      p: Stored, a: map<string, Target>, n: map<string, Composable>,
                      p0: Stored, a0: map<string, Target>, n0: map<string, Composable>)
      requires done <= |items|
    {
      (forall j :: 0 <= j < done ==> Took(items[j].0, items[j].1, SlotOf(p, a, n, items[j].0), SlotOf(p0, a0, n0, items[j].0))) &&
      (forall j :: done <= j < |items| ==> SlotOf(p, a, n, items[j].0) == SlotOf(p0, a0, n0, items[j].0)) &&
      (strict ==> forall j :: 0 <= j < done && (r.Ok? || j < done - 1) && Settled(items[j].0) ==>
        !Refused(items[j].0, items[j].1)) &&
      (r.Err? ==> strict && 0 < done && (Settled(items[done - 1].0) ==> Refused(items[done - 1].0, items[done - 1].1)))
    }

    /**
     * One more item of `set` over distinct keys: the item took effect in
     * its own slot and every other slot stayed as it was.
     */
    lemma {:induction false} OutcomeStep(items: Entries, i: nat, strict: bool, r: Result<()>,
                                         p0: Stored, a0: map<string, Target>, n0: map<string, Composable>,
                                         p1: Stored, a1: map<string, Target>, n1: map<string, Composable>,
                                         p2: Stored, a2: map<string, Target>, n2: map<string, Composable>)
      requires i < |items| && DistinctKeys(items)
      requires Outcome(items, i, strict, Ok(()), p1, a1, n1, p0, a0, n0)
      requires Took(items[i].0, items[i].1, SlotOf(p2, a2, n2, items[i].0), SlotOf(p1, a1, n1, items[i].0))
      requires forall k :: k != items[i].0 ==> SlotOf(p2, a2, n2, k) == SlotOf(p1, a1, n1, k)
      requires !strict ==> r.Ok?
      requires strict && Settled(items[i].0) ==> (r.Err? <==> Refused(items[i].0, items[i].1))
      ensures Outcome(items, i + 1, strict, r, p2, a2, n2, p0, a0, n0)
    {
      forall j | 0 <= j < |items| && j != i
        ensures SlotOf(p2, a2, n2, items[j].0) == SlotOf(p1, a1, n1, items[j].0)
      {
        assert items[j].0 != items[i].0;
      }
    }

    /**
     * `set(kwargs, strict)` (theflow/base.py 716-727): the keys are
     * unflattened; a dict given for a node is set on that node, which
     * propagates its errors; anything else is assigned, and the error of an
     * assignment is raised only when `strict`.  `done` is the number of
     * unflattened items handled.
     */
    method Set(kwargs: Entries, strict: bool, fuel: nat, ghost U: set<Composable>)
      returns (r: Result<()>, ghost done: nat, ghost made: set<Composable>)
      requires this in U && Closed(U, ids)
      modifies U`params, U`depends, U`calls, U`nodes, U`attrs, U`initCount, U`childsCalled, U`prefix, U`name, U`context, ids`next
      ensures fresh(made) && Closed(U + made, ids)
      ensures Pretties.Unflatten(kwargs).Err? ==> r == Err(Pretties.Unflatten(kwargs).error) && unchanged(U)
      ensures (!strict && Pretties.Unflatten(kwargs).Ok? &&
        forall e :: e in Pretties.Unflatten(kwargs).value ==> !Routed(e, nodeNames)) ==> r.Ok?
      ensures Pretties.Unflatten(kwargs).Ok? ==>
        done <= |Pretties.Unflatten(kwargs).value| && (r.Ok? ==> done == |Pretties.Unflatten(kwargs).value|) &&
        (NoneRouted(Pretties.Unflatten(kwargs).value, nodeNames) ==> SetOutcome(Pretties.Unflatten(kwargs).value, done, strict, r))
      decreases fuel, 2, 0
    {
      var u := Pretties.Unflatten(kwargs);
      done := 0;
      if u.Err? {
        made := {};
        r := Err(u.error);
      } else {
        UnflattenDistinct([], kwargs);
        r, done, made := SetAll(u.value, strict, fuel, U);
      }
    }

    /** The loop of `set` over the unflattened items; the first error ends it. */
    method SetAll(items: Entries, strict: bool, fuel: nat, ghost U: set<Composable>)
      returns (r: Result<()>, ghost done: nat, ghost made: set<Composable>)
      requires this in U && Closed(U, ids)
      modifies U`params, U`depends, U`calls, U`nodes, U`attrs, U`initCount, U`childsCalled, U`prefix, U`name, U`context, ids`next
      ensures fresh(made) && Closed(U + made, ids)
      ensures (!strict && forall e :: e in items ==> !Routed(e, nodeNames)) ==> r.Ok?
      ensures done <= |items| && (r.Ok? ==> done == |items|)
      ensures NoneRouted(items, nodeNames) && DistinctKeys(items) ==> SetOutcome(items, done, strict, r)
      decreases fuel, 1, 4
    {
      made := {};
      assert U + made == U;
      r := Ok(());
      ghost var p0, a0, n0 := params, attrs, nodes;
      var i := 0;
      while i < |items| && r.Ok?
        invariant 0 <= i <= |items|
        invariant fresh(made) && Closed(U + made, ids)
        invariant (!strict && forall e :: e in items ==> !Routed(e, nodeNames)) ==> r.Ok?
        invariant NoneRouted(items, nodeNames) && DistinctKeys(items) ==>
          Outcome(items, i, strict, r, params, attrs, nodes, p0, a0, n0)
      {
        ghost var m;
        ghost var prev := made;
        r, m := SetNext(items, i, strict, fuel, U + made, p0, a0, n0);
        made := made + m;
        assert U + made == (U + prev) + m;
        i := i + 1;
      }
      done := i;
      assert p0 == old(params) && a0 == old(attrs) && n0 == old(nodes);
    }

    /** Item `i` of the loop of `set`, and how it extends the outcome of the items before it. */
    method SetNext(items: Entries, i: nat, strict: bool, fuel: nat, ghost U: set<Composable>,
                   ghost p0: Stored, ghost a0: map<string, Target>, ghost n0: map<string, Composable>)
      returns (r: Result<()>, ghost made: set<Composable>)
      requires this in U && Closed(U, ids) && i < |items|
      requires NoneRouted(items, nodeNames) && DistinctKeys(items) ==>
        Outcome(items, i, strict, Ok(()), params, attrs, nodes, p0, a0, n0)
      modifies U`params, U`depends, U`calls, U`nodes, U`attrs, U`initCount, U`childsCalled, U`prefix, U`name, U`context, ids`next
      ensures fresh(made) && Closed(U + made, ids)
      ensures !strict && !Routed(items[i], nodeNames) ==> r.Ok?
      ensures NoneRouted(items, nodeNames) && DistinctKeys(items) ==>
        Outcome(items, i + 1, strict, r, params, attrs, nodes, p0, a0, n0)
      decreases fuel, 1, 3
    {
      ghost var p1, a1, n1 := params, attrs, nodes;
      var (key, value) := items[i];
      r, made := SetItem(key, value, strict, fuel, U);
      if NoneRouted(items, nodeNames) && DistinctKeys(items) {
        assert !Routed(items[i], nodeNames);
        OutcomeStep(items, i, strict, r, p0, a0, n0, p1, a1, n1, params, attrs, nodes);
      }
    }

    /** One item of `set`: a dict for a node goes to that node's `set`, anything else to `setattr`. */
    method SetItem(key: string, value: Value, strict: bool, fuel: nat, ghost U: set<Composable>)
      returns (r: Result<()>, ghost made: set<Composable>)
      requires this in U && Closed(U, ids)
      modifies U`params, U`depends, U`calls, U`nodes, U`attrs, U`initCount, U`childsCalled, U`prefix, U`name, U`context, ids`next
      ensures fresh(made) && Closed(U + made, ids)
      ensures !Routed((key, value), nodeNames) ==>
        Took(key, value, Slot(key), old(Slot(key))) &&
        (forall k :: k != key ==> SlotOf(params, attrs, nodes, k) == SlotOf(old(params), old(attrs), old(nodes), k)) &&
        (!strict ==> r.Ok?) &&
        (strict && Settled(key) ==> (r.Err? <==> Refused(key, value)))
      ensures Routed((key, value), nodeNames) && (NodeOf(mro, key).None? || fuel == 0) ==>
        r == Raise(AttributeError, key)
      decreases fuel, 1, 2
    {
      made := {};
      assert U + made == U;
      if key in nodeNames && value.Dict? {
        if NodeOf(mro, key).None? || fuel == 0 {
          return Raise(AttributeError, key), made;
        }
        var c, _, m := GetNode(key, fuel, U);
        made := m;
        if c.Err? {
          return Err(c.error), made;
        }
        ghost var n, m2;
        ghost var prev := made;
        r, n, m2 := c.value.Set(value.entries, strict, fuel - 1, U + made);
        made := made + m2;
        assert U + made == (U + prev) + m2;
      } else {
        r, made := Assign(key, value, strict, U);
      }
    }

    /** The `setattr` branch of `set`: the value, as a new object, is assigned; only a strict call raises. */
    method Assign(key: string, value: Value, strict: bool, ghost U: set<Composable>)
      returns (r: Result<()>, ghost made: set<Composable>)
      requires this in U && Closed(U, ids)
      requires !(key in nodeNames && value.Dict?)
      modifies this`params, this`nodes, this`attrs, this`initCount, ids`next
      ensures fresh(made) && Closed(U + made, ids)
      ensures Took(key, value, Slot(key), old(Slot(key)))
      ensures forall k :: k != key ==> SlotOf(params, attrs, nodes, k) == SlotOf(old(params), old(attrs), old(nodes), k)
      ensures !strict ==> r.Ok?
      ensures strict && Settled(key) ==> (r.Err? <==> Refused(key, value))
    {
      var id := ids.Mint();
      ghost var before := Snapshot();
      var s, stored, m := SetAttr(key, Val(Obj(value, id)), U);
      r, made := s, m;
      if NodeOf(mro, key).Some? {
        NodeRegistered(mro, key);
      }
      AssignedSlots(this, key, value, Obj(value, id), stored, r, before, old(attrs), old(nodes), params, attrs, nodes);
      if !strict {
        r := Ok(());
      }
    }

    // -------------------------------------------------------------------
    // getattr, set_run, __call__, get_from_path, apply

    /**
     * What `getattr(self, attr)` returns and does: a Param's read, a Node's
     * child, or the instance dict or class attribute, which change nothing.
     */
    twostate predicate Fetched(attr: string, fuel: nat, new r: Result<Target>)
      reads this`params, this`depends, this`calls, this`nodes, this`childsCalled, this`attrs, ids`next
    {
      (ParamOf(mro, attr).Some? ==>
        var (res, s) := FieldStore.ReadParam(mro, old(Snapshot()), attr, fuel);
        r == AsTarget(res) && Snapshot() == s && nodes == old(nodes) && childsCalled == old(childsCalled)) &&
      (NodeOf(mro, attr).Some? && r.Ok? ==> r.value.Comp? && attr in nodes && r.value.c == nodes[attr]) &&
      (ParamOf(mro, attr).None? && NodeOf(mro, attr).None? ==>
        r == Unbound(attrs, mro, attr) && Snapshot() == old(Snapshot()) && nodes == old(nodes) && childsCalled == old(childsCalled))
    }

    /**
     * `getattr(self, attr)`: a Param or Node of the class answers first, as
     * a data descriptor; then the instance dict; then a plain class
     * attribute; anything else is an AttributeError.
     */
    method GetAttr(attr: string, fuel: nat, ghost U: set<Composable>) returns (r: Result<Target>, ghost made: set<Composable>)
      requires this in U && Closed(U, ids)
      modifies this`params, this`depends, this`calls, this`nodes, this`childsCalled, ids`next
      modifies At(attr)`prefix, At(attr)`name, At(attr)`context
      ensures fresh(made) && Closed(U + made, ids)
      ensures r.Ok? && r.value.Comp? ==> r.value.c in U + made
      ensures Fetched(attr, fuel, r)
      ensures !(r.Ok? && r.value.Comp? && old(inRun)) ==> childsCalled == old(childsCalled)
      ensures attr in old(nodes) && !(r.Ok? && r.value.Comp? && old(inRun) && r.value.c == old(nodes)[attr]) ==>
        Placed(old(nodes)[attr])
    {
      made := {};
      assert U + made == U;
      match FindAttr(mro, attr)
      case Some(Desc(PDesc(_))) =>
        var o := GetParam(attr, fuel);
        r := AsTarget(o);
      case Some(Desc(NDesc(_))) =>
        var c, _, m := GetNode(attr, fuel, U);
        made := m;
        r := if c.Ok? then Ok(Comp(c.value)) else Err(c.error);
      case _ =>
        r := Unbound(attrs, mro, attr);
    }

    /**
     * `getattr(self, attr)` where a Composable is needed, to call `meth`
     * on it: anything else raises AttributeError.  Of the objects, only
     * the returned one may have its name or context changed.
     */
    method Child(attr: string, meth: string, fuel: nat, ghost U: set<Composable>) returns (r: Result<Composable>, ghost made: set<Composable>)
      requires this in U && Closed(U, ids)
      modifies this`params, this`depends, this`calls, this`nodes, this`childsCalled, ids`next
      modifies At(attr)`prefix, At(attr)`name, At(attr)`context
      ensures fresh(made) && Closed(U + made, ids)
      ensures r.Ok? ==> r.value in U + made
      ensures forall c :: c in U && !(r.Ok? && c == r.value) ==> Kept(c)
    {
      var t;
      t, made := GetAttr(attr, fuel, U);
      r := if t.Err? then Err(t.error)
        else if t.value.Val? then Raise(AttributeError, FieldStore.NoAttrMsg(meth))
        else Ok(t.value.c);
    }

    /** The run kwargs `set_run(…, temp)` assigns into. */
    function RunKw(temp: bool): Entries
      reads this`runKwargs, this`tempKwargs
    {
      if temp then tempKwargs else runKwargs
    }

    /** The run kwargs `set_run(…, temp)` leaves alone. */
    function OtherKw(temp: bool): Entries
      reads this`runKwargs, this`tempKwargs
    {
      if temp then runKwargs else tempKwargs
    }

    /**
     * `set_run(kwargs, temp)` (theflow/base.py 729-758): the keys are
     * unflattened; a dict given for a node goes to that node's `set_run`,
     * every other entry is assigned into the one-shot (`temp`) or the
     * persisted run kwargs.  `touched` gathers the nodes whose `set_run`
     * ran; every other object keeps its run kwargs, name and context.
     */
    method SetRun(kwargs: Entries, temp: bool, fuel: nat, ghost U: set<Composable>)
      returns (r: Result<()>, ghost made: set<Composable>, ghost touched: set<Composable>)
      requires this in U && Closed(U, ids)
      modifies U`params, U`depends, U`calls, U`nodes, U`childsCalled, U`runKwargs, U`tempKwargs, U`prefix, U`name, U`context, ids`next
      ensures fresh(made) && Closed(U + made, ids)
      ensures Pretties.Unflatten(kwargs).Err? ==> r == Err(Pretties.Unflatten(kwargs).error) && touched == {}
      ensures forall c :: c in U && c != this && c !in touched ==> Kept(c)
      ensures this !in touched ==> Placed(this) && OtherKw(temp) == old(OtherKw(temp))
      ensures this !in touched && r.Ok? && Pretties.Unflatten(kwargs).Ok? ==>
        RunKw(temp) == Update(old(RunKw(temp)), Own(Pretties.Unflatten(kwargs).value, nodeNames))
      ensures Pretties.Unflatten(kwargs).Ok? && NoneRouted(Pretties.Unflatten(kwargs).value, nodeNames) ==>
        r.Ok? && touched == {}
      decreases fuel, 4
    {
      made := {};
      assert U + made == U;
      touched := {};
      var u := Pretties.Unflatten(kwargs);
      if u.Err? {
        return Err(u.error), made, touched;
      }
      r, made, touched := SetRunAll(u.value, temp, fuel, U);
    }

    /**
     * Every object of `U` outside `touched` kept its run kwargs, its name
     * and its context; this one, when outside, kept its place and the run
     * kwargs `temp` does not name.
     */
    twostate predicate Confined(U: set<Composable>, new touched: set<Composable>, temp: bool)
      reads U`runKwargs, U`tempKwargs, U`prefix, U`name, U`context
      reads this`runKwargs, this`tempKwargs, this`prefix, this`name, this`context
    {
      (forall c :: c in U && c != this && c !in touched ==> Kept(c)) &&
      (this !in touched ==> Placed(this) && OtherKw(temp) == old(OtherKw(temp)))
    }

    /** The loop of `set_run` over the unflattened items. */
    method SetRunAll(items: Entries, temp: bool, fuel: nat, ghost U: set<Composable>)
      returns (r: Result<()>, ghost made: set<Composable>, ghost touched: set<Composable>)
      requires this in U && Closed(U, ids)
      modifies U`params, U`depends, U`calls, U`nodes, U`childsCalled, U`runKwargs, U`tempKwargs, U`prefix, U`name, U`context, ids`next
      ensures fresh(made) && Closed(U + made, ids)
      ensures Confined(U, touched, temp)
      ensures this !in touched && r.Ok? ==> RunKw(temp) == Update(old(RunKw(temp)), Own(items, nodeNames))
      ensures NoneRouted(items, nodeNames) ==> r.Ok? && touched == {}
      decreases fuel, 3
    {
      made := {};
      assert U + made == U;
      touched := {};
      ghost var sofar := RunKw(temp);
      ghost var base := sofar;
      ghost var held := map c | c in U :: Held(c);
      ghost var place, other := Place(this), OtherKw(temp);
      assert items[..0] == [];
      var i := 0;
      r := Ok(());
      while i < |items| && r.Ok?
        invariant 0 <= i <= |items|
        invariant fresh(made) && Closed(U + made, ids)
        invariant forall c :: c in U && c != this && c !in touched ==> c in held && Held(c) == held[c]
        invariant this !in touched ==> Place(this) == place && OtherKw(temp) == other
        invariant base == old(RunKw(temp)) && sofar == Update(base, Own(items[..i], nodeNames))
        invariant this !in touched && r.Ok? ==> RunKw(temp) == sofar
        invariant NoneRouted(items, nodeNames) ==> r.Ok? && touched == {}
      {
        ghost var prev := made;
        ghost var m, t;
        r, m, t := SetRunNext(items, i, temp, fuel, U, made, touched, held, place, other, base);
        made := made + m;
        assert U + made == (U + prev) + m;
        touched := touched + t;
        sofar := Update(base, Own(items[..i + 1], nodeNames));
        i := i + 1;
      }
      if r.Ok? {
        assert items[..i] == items;
      }
    }

    /** Item `i` of the loop of `set_run`, and how it extends what the items before it did. */
    method SetRunNext(items: Entries, i: nat, temp: bool, fuel: nat, ghost U: set<Composable>, ghost made: set<Composable>,
                      ghost touched: set<Composable>, ghost held: map<Composable, (Entries, Entries, (string, string, nat))>,
                      ghost place: (string, string, nat), ghost other: Entries, ghost base: Entries)
      returns (r: Result<()>, ghost m: set<Composable>, ghost t: set<Composable>)
      requires this in U && Closed(U + made, ids) && i < |items|
      requires forall c :: c in U && c != this && c !in touched ==> c in held && Held(c) == held[c]
      requires this !in touched ==> Place(this) == place && OtherKw(temp) == other
      requires this !in touched ==> RunKw(temp) == Update(base, Own(items[..i], nodeNames))
      modifies (U + made)`params, (U + made)`depends, (U + made)`calls, (U + made)`nodes, (U + made)`childsCalled
      modifies (U + made)`runKwargs, (U + made)`tempKwargs, (U + made)`prefix, (U + made)`name, (U + made)`context, ids`next
      ensures fresh(m) && Closed(U + made + m, ids)
      ensures forall c :: c in U && c != this && c !in touched + t ==> Held(c) == held[c]
      ensures this !in touched + t ==> Place(this) == place && OtherKw(temp) == other
      ensures this !in touched + t && r.Ok? ==> RunKw(temp) == Update(base, Own(items[..i + 1], nodeNames))
      ensures !Routed(items[i], nodeNames) ==> r.Ok? && t == {}
      decreases fuel, 2
    {
      r, m, t := SetRunItem(items[i], temp, fuel, U + made);
      OwnSnoc(base, items, i, nodeNames);
    }

    /** One item of `set_run`. */
    method SetRunItem(e: (string, Value), temp: bool, fuel: nat, ghost U: set<Composable>)
      returns (r: Result<()>, ghost made: set<Composable>, ghost touched: set<Composable>)
      requires this in U && Closed(U, ids)
      modifies U`params, U`depends, U`calls, U`nodes, U`childsCalled, U`runKwargs, U`tempKwargs, U`prefix, U`name, U`context, ids`next
      ensures fresh(made) && Closed(U + made, ids)
      ensures forall c :: c in U && c != this && c !in touched ==> Kept(c)
      ensures this !in touched ==> Placed(this) && OtherKw(temp) == old(OtherKw(temp))
      ensures this !in touched && r.Ok? ==>
        RunKw(temp) == if Routed(e, nodeNames) then old(RunKw(temp)) else Put(old(RunKw(temp)), e.0, e.1)
      ensures !Routed(e, nodeNames) ==> r.Ok? && touched == {}
      decreases fuel, 1
    {
      made := {};
      assert U + made == U;
      touched := {};
      r := Ok(());
      if Routed(e, nodeNames) {
        r, made, touched := SetRunNode(e.0, e.1.entries, temp, fuel, U);
      } else if temp {
        tempKwargs := Put(tempKwargs, e.0, e.1);
      } else {
        runKwargs := Put(runKwargs, e.0, e.1);
      }
    }

    /** A routed item of `set_run`: `getattr(self, key).set_run(kwargs, temp)`. */
    method SetRunNode(key: string, kwargs: Entries, temp: bool, fuel: nat, ghost U: set<Composable>)
      returns (r: Result<()>, ghost made: set<Composable>, ghost touched: set<Composable>)
      requires this in U && Closed(U, ids)
      modifies U`params, U`depends, U`calls, U`nodes, U`childsCalled, U`runKwargs, U`tempKwargs, U`prefix, U`name, U`context, ids`next
      ensures fresh(made) && Closed(U + made, ids)
      ensures forall c :: c in U && c !in touched ==> Kept(c)
      decreases fuel, 0
    {
      made := {};
      assert U + made == U;
      touched := {};
      if fuel == 0 {
        r := Raise(RecursionError, FieldStore.RecursionMsg);
      } else {
        var child;
        child, made := Child(key, SetRunMeth, fuel, U);
        if child.Err? {
          r := Err(child.error);
        } else {
          ghost var m2, t2;
          ghost var prev := made;
          ghost var mid := map c | c in U :: Held(c);
          r, m2, t2 := child.value.SetRun(kwargs, temp, fuel - 1, U + made);
          assert forall c :: c in U && c != child.value && c !in t2 ==> Held(c) == mid[c];
          made := made + m2;
          assert U + made == (U + prev) + m2;
          touched := {child.value} + t2;
        }
      }
    }

    /**
     * `__call__` (theflow/base.py 536-579).  The run enters InRun; a
     * truthy `_ff_run_kwargs` is popped and set as one-shot run kwargs; a
     * root (empty prefix) takes its run id from the config (`runIdOf`),
     * clears the context and stores the id globally; the local context of
     * the object's path is created; the persisted, then the one-shot run
     * kwargs are merged over the call's; then the middleware chain or
     * `_run` (`invoke`) runs on them.  Whatever it returns or raises, the
     * one-shot kwargs are cleared and the run state is reset.  `given` is
     * the kwargs `invoke` got, None when something raised before it.
     */
    method Call(kwargs: Entries, runIdOf: Result<Value>, invoke: Entries -> Result<Value>, fuel: nat, ghost U: set<Composable>)
      returns (r: Result<Value>, given: Option<Entries>, ghost made: set<Composable>, ghost touched: set<Composable>)
      requires this in U && Closed(U, ids)
      modifies this`inRun, this`initCount, this`runId, ids`logs
      modifies U`params, U`depends, U`calls, U`nodes, U`childsCalled, U`runKwargs, U`tempKwargs, U`prefix, U`name, U`context, ids`next
      ensures fresh(made) && Closed(U + made, ids)
      ensures given.Some? ==> r == invoke(given.value)
      ensures given.Some? ==>
        !inRun && prefix == "" && name == "" && runId == Str("") && childsCalled == map[] && tempKwargs == []
      ensures given.None? ==> r.Err? && inRun
      ensures var popped := GetOr(kwargs, RunKwargsKey, Dict([]));
        Truthy(popped) && !popped.Dict? ==> given.None? && r.Err? && r.error.kind == AttributeError
      ensures !Truthy(GetOr(kwargs, RunKwargsKey, Dict([]))) ==>
        touched == {} && (given.None? <==> old(prefix) == "" && runIdOf.Err?)
      ensures this !in touched && given.Some? ==>
        given.value == Update(Update(Remove(kwargs, RunKwargsKey), old(runKwargs)), WithRun(old(tempKwargs), kwargs, nodeNames)) &&
        runKwargs == old(runKwargs) && context == old(context) &&
        ids.Log(context) == old(ids.Log(context)) + Admin(old(prefix), old(name), runIdOf)
      ensures forall c :: c in U && c != this && c !in touched ==> Kept(c)
    {
      given := None;
      var s;
      s, made, touched := Enter(kwargs, runIdOf, fuel, U);
      if s.Err? {
        r := Err(s.error);
      } else {
        var merged := Update(Update(Remove(kwargs, RunKwargsKey), runKwargs), tempKwargs);
        given := Some(merged);
        r := invoke(merged);
        ghost var kept := (runKwargs, context);
        Reset();
        assert (runKwargs, context) == kept;
      }
    }

    /** The `finally` of `__call__`: the one-shot run kwargs and the run state are cleared. */
    method Reset()
      modifies this`tempKwargs, this`inRun, this`prefix, this`name, this`runId, this`childsCalled
      ensures !inRun && prefix == "" && name == "" && runId == Str("") && childsCalled == map[] && tempKwargs == []
    {
      tempKwargs := [];
      inRun := false;
      prefix := "";
      name := "";
      runId := Str("");
      childsCalled := map[];
    }

    /** `__call__` up to the run: InRun, `_initialize`, the one-shot run kwargs, the context. */
    method Enter(kwargs: Entries, runIdOf: Result<Value>, fuel: nat, ghost U: set<Composable>)
      returns (r: Result<()>, ghost made: set<Composable>, ghost touched: set<Composable>)
      requires this in U && Closed(U, ids)
      modifies this`inRun, this`initCount, this`runId, ids`logs
      modifies U`params, U`depends, U`calls, U`nodes, U`childsCalled, U`runKwargs, U`tempKwargs, U`prefix, U`name, U`context, ids`next
      ensures fresh(made) && Closed(U + made, ids) && inRun
      ensures var popped := GetOr(kwargs, RunKwargsKey, Dict([]));
        Truthy(popped) && !popped.Dict? ==> r.Err? && r.error.kind == AttributeError
      ensures !Truthy(GetOr(kwargs, RunKwargsKey, Dict([]))) ==>
        touched == {} && (r.Err? <==> old(prefix) == "" && runIdOf.Err?)
      ensures this !in touched && r.Ok? ==>
        tempKwargs == WithRun(old(tempKwargs), kwargs, nodeNames) && runKwargs == old(runKwargs) &&
        Placed(this) && ids.Log(context) == old(ids.Log(context)) + Admin(old(prefix), old(name), runIdOf)
      ensures forall c :: c in U && c != this && c !in touched ==> Kept(c)
    {
      inRun := true;
      if initCount == 0 {
        Initialize();
      }
      r, made, touched := Begin(kwargs, runIdOf, fuel, U);
    }

    /** `__call__` after entering the run: the run kwargs, then the context. */
    method Begin(kwargs: Entries, runIdOf: Result<Value>, fuel: nat, ghost U: set<Composable>)
      returns (r: Result<()>, ghost made: set<Composable>, ghost touched: set<Composable>)
      requires this in U && Closed(U, ids)
      modifies this`runId, ids`logs
      modifies U`params, U`depends, U`calls, U`nodes, U`childsCalled, U`runKwargs, U`tempKwargs, U`prefix, U`name, U`context, ids`next
      ensures fresh(made) && Closed(U + made, ids)
      ensures var popped := GetOr(kwargs, RunKwargsKey, Dict([]));
        Truthy(popped) && !popped.Dict? ==> r.Err? && r.error.kind == AttributeError
      ensures !Truthy(GetOr(kwargs, RunKwargsKey, Dict([]))) ==>
        touched == {} && (r.Err? <==> old(prefix) == "" && runIdOf.Err?)
      ensures this !in touched && r.Ok? ==>
        tempKwargs == WithRun(old(tempKwargs), kwargs, nodeNames) && runKwargs == old(runKwargs) &&
        Placed(this) && ids.Log(context) == old(ids.Log(context)) + Admin(old(prefix), old(name), runIdOf)
      ensures forall c :: c in U && c != this && c !in touched ==> Kept(c)
    {
      r, made, touched := TakeRunKwargs(kwargs, fuel, U);
      if r.Ok? {
        r := Administer(runIdOf);
      }
    }

    /** The `_ff_run_kwargs` step of `__call__`: a truthy value is set as one-shot run kwargs. */
    method TakeRunKwargs(kwargs: Entries, fuel: nat, ghost U: set<Composable>)
      returns (r: Result<()>, ghost made: set<Composable>, ghost touched: set<Composable>)
      requires this in U && Closed(U, ids)
      modifies U`params, U`depends, U`calls, U`nodes, U`childsCalled, U`runKwargs, U`tempKwargs, U`prefix, U`name, U`context, ids`next
      ensures fresh(made) && Closed(U + made, ids)
      ensures forall c :: c in U && c != this && c !in touched ==> Kept(c)
      ensures this !in touched ==> Placed(this) && runKwargs == old(runKwargs)
      ensures this !in touched && r.Ok? ==> tempKwargs == WithRun(old(tempKwargs), kwargs, nodeNames)
      ensures var popped := GetOr(kwargs, RunKwargsKey, Dict([]));
        Truthy(popped) && !popped.Dict? ==> r.Err? && r.error.kind == AttributeError
      ensures !Truthy(GetOr(kwargs, RunKwargsKey, Dict([]))) ==> r.Ok? && touched == {}
    {
      made := {};
      assert U + made == U;
      touched := {};
      r := Ok(());
      var popped := GetOr(kwargs, RunKwargsKey, Dict([]));
      if Truthy(popped) {
        if !popped.Dict? {
          return Raise(AttributeError, FieldStore.NoAttrMsg(ItemsMeth)), made, touched;
        }
        r, made, touched := SetRun(popped.entries, true, fuel, U);
      }
    }

    /** The context step of `__call__`: a root sets up the run, then the local context is created. */
    method Administer(runIdOf: Result<Value>) returns (r: Result<()>)
      modifies this`runId, ids`logs
      ensures r.Err? <==> prefix == "" && runIdOf.Err?
      ensures r.Err? ==> r.error == runIdOf.error
      ensures r.Ok? ==> ids.Log(context) == old(ids.Log(context)) + Admin(prefix, name, runIdOf)
    {
      if prefix == "" {
        if runIdOf.Err? {
          return Err(runIdOf.error);
        }
        runId := runIdOf.value;
        ids.Record(context, ClearAll);
        ids.Record(context, ContextCall.SetGlobal(RunIdKey, runId));
      }
      ids.Record(context, CreateLocal(Backends.AbsPath(prefix, name)));
      r := Ok(());
    }

    /**
     * What `getattr(self, attr)` returned, read off the object once the
     * read is over: a param's read from the field store `before` it, the
     * node now stored, or the instance dict or a plain class attribute.
     */
    ghost predicate Gave(attr: string, fuel: nat, before: FieldStore.Store, r: Result<Target>)
      reads this`params, this`depends, this`calls, this`nodes, this`attrs, ids`next
    {
      (ParamOf(mro, attr).Some? ==>
        var (res, s) := FieldStore.ReadParam(mro, before, attr, fuel); r == AsTarget(res) && Snapshot() == s) &&
      (NodeOf(mro, attr).Some? && r.Ok? ==> r.value.Comp? && attr in nodes && r.value.c == nodes[attr]) &&
      (ParamOf(mro, attr).None? && NodeOf(mro, attr).None? ==> r == Unbound(attrs, mro, attr))
    }

    /**
     * `get_from_path(path)` (theflow/base.py 877-892): outer dots are
     * stripped, the path is split at its first dot, the first segment is
     * read with `getattr` and the rest asked of what it holds.  `walked`
     * is the segments read, in order: always a prefix of `PathSteps(path)`,
     * and all of it when the lookup succeeds.  `owner` is the object the
     * last segment was read on (this object for a one-segment path), and a
     * successful result is what that read gave.
     */
    method GetFromPath(path: string, fuel: nat, ghost U: set<Composable>)
      returns (r: Result<Target>, ghost walked: seq<string>, ghost owner: Composable, ghost before: FieldStore.Store,
               ghost made: set<Composable>)
      requires this in U && Closed(U, ids)
      modifies U`params, U`depends, U`calls, U`nodes, U`childsCalled, U`prefix, U`name, U`context, ids`next
      ensures fresh(made) && Closed(U + made, ids)
      ensures r.Ok? && r.value.Comp? ==> r.value.c in U + made
      ensures 0 < |walked| <= |Naming.PathSteps(path)| && walked == Naming.PathSteps(path)[..|walked|]
      ensures r.Ok? ==> walked == Naming.PathSteps(path)
      ensures owner in U + made && (|walked| == 1 ==> owner == this)
      ensures Answered(owner, walked, fuel, before, r)
      decreases |path|, 2
    {
      var p := Text.Strip(path, {'.'});
      if '.' in p {
        r, walked, owner, before, made := GetDotted(path, p, fuel, U);
      } else {
        r, walked, owner, before, made := GetLast(path, p, fuel, U);
      }
    }

    /** The dotted case of `get_from_path`: split `attr` once on its first dot. */
    method GetDotted(path: string, p: string, fuel: nat, ghost U: set<Composable>)
      returns (r: Result<Target>, ghost walked: seq<string>, ghost owner: Composable, ghost before: FieldStore.Store,
               ghost made: set<Composable>)
      requires this in U && Closed(U, ids)
      requires p == Text.Strip(path, {'.'}) && '.' in p
      modifies U`params, U`depends, U`calls, U`nodes, U`childsCalled, U`prefix, U`name, U`context, ids`next
      ensures fresh(made) && Closed(U + made, ids)
      ensures r.Ok? && r.value.Comp? ==> r.value.c in U + made
      ensures 0 < |walked| <= |Naming.PathSteps(path)| && walked == Naming.PathSteps(path)[..|walked|]
      ensures r.Ok? ==> walked == Naming.PathSteps(path)
      ensures owner in U + made && (|walked| == 1 ==> owner == this)
      ensures Answered(owner, walked, fuel, before, r)
      decreases |path|, 1
    {
      var i := Naming.IndexOf(p, '.');
      assert Naming.PathSteps(path) == [p[..i]] + Naming.PathSteps(p[i + 1..]);
      r, walked, owner, before, made := GetFromChild(p[..i], p[i + 1..], fuel, U);
    }

    /** The undotted case of `get_from_path`: `getattr(self, attr)`, `attr` being the whole stripped path. */
    method GetLast(path: string, attr: string, fuel: nat, ghost U: set<Composable>)
      returns (r: Result<Target>, ghost walked: seq<string>, ghost owner: Composable, ghost before: FieldStore.Store,
               ghost made: set<Composable>)
      requires this in U && Closed(U, ids)
      requires attr == Text.Strip(path, {'.'}) && '.' !in attr
      modifies U`params, U`depends, U`calls, U`nodes, U`childsCalled, U`prefix, U`name, U`context, ids`next
      ensures fresh(made) && Closed(U + made, ids)
      ensures r.Ok? && r.value.Comp? ==> r.value.c in U + made
      ensures walked == [attr] == Naming.PathSteps(path) && owner == this
      ensures 0 < |walked| <= |Naming.PathSteps(path)| && walked == Naming.PathSteps(path)[..|walked|]
      ensures r.Ok? ==> walked == Naming.PathSteps(path)
      ensures owner in U + made && (|walked| == 1 ==> owner == this)
      ensures Gave(attr, fuel, before, r)
      ensures Answered(owner, walked, fuel, before, r)
    {
      walked, owner := [attr], this;
      before := Snapshot();
      r, made := GetAttr(attr, fuel, U);
    }

    /** The dotted case of `get_from_path`: `getattr(self, segment).get_from_path(rest)`. */
    method GetFromChild(segment: string, rest: string, fuel: nat, ghost U: set<Composable>)
      returns (r: Result<Target>, ghost walked: seq<string>, ghost owner: Composable, ghost before: FieldStore.Store,
               ghost made: set<Composable>)
      requires this in U && Closed(U, ids)
      modifies U`params, U`depends, U`calls, U`nodes, U`childsCalled, U`prefix, U`name, U`context, ids`next
      ensures fresh(made) && Closed(U + made, ids)
      ensures r.Ok? && r.value.Comp? ==> r.value.c in U + made
      ensures 0 < |walked| <= 1 + |Naming.PathSteps(rest)| && walked == ([segment] + Naming.PathSteps(rest))[..|walked|]
      ensures r.Ok? ==> walked == [segment] + Naming.PathSteps(rest) && |walked| > 1
      ensures owner in U + made && (|walked| == 1 ==> owner == this)
      ensures Answered(owner, walked, fuel, before, r)
      decreases |rest|, 4
    {
      var child;
      child, made := Child(segment, GetFromPathMeth, fuel, U);
      owner, before := this, Snapshot();
      if child.Err? {
        r, walked := Err(child.error), [segment];
        ConsPrefix(segment, [], Naming.PathSteps(rest));
      } else {
        ghost var m;
        ghost var prev := made;
        r, walked, owner, before, m := GetBelow(child.value, segment, rest, fuel, U, made);
        made := made + m;
        assert U + made == (U + prev) + m;
      }
    }

    /** The walk of `get_from_path` below the child reached through `segment`. */
    method GetBelow(child: Composable, segment: string, rest: string, fuel: nat, ghost U: set<Composable>,
                    ghost made: set<Composable>)
      returns (r: Result<Target>, ghost walked: seq<string>, ghost owner: Composable, ghost before: FieldStore.Store,
               ghost m: set<Composable>)
      requires child in U + made && Closed(U + made, ids)
      modifies (U + made)`params, (U + made)`depends, (U + made)`calls, (U + made)`nodes, (U + made)`childsCalled
      modifies (U + made)`prefix, (U + made)`name, (U + made)`context, ids`next
      ensures fresh(m) && Closed(U + made + m, ids)
      ensures r.Ok? && r.value.Comp? ==> r.value.c in U + made + m
      ensures 1 < |walked| <= 1 + |Naming.PathSteps(rest)| && walked == ([segment] + Naming.PathSteps(rest))[..|walked|]
      ensures r.Ok? ==> walked == [segment] + Naming.PathSteps(rest)
      ensures owner in U + made + m
      ensures Answered(owner, walked, fuel, before, r)
      decreases |rest|, 3
    {
      ghost var w;
      r, w, owner, before, m := child.GetFromPath(rest, fuel, U + made);
      walked := [segment] + w;
      ConsPrefix(segment, w, Naming.PathSteps(rest));
      AnsweredCons(owner, segment, w, fuel, before, r);
    }

    /**
     * `apply(fn)` (theflow/base.py 708-713): `apply(fn)` on every
     * registered node, in `_ff_nodes` order, then `fn(self)`.  `visits` is
     * the objects `fn` is called with, in order; `walk` is the tree the
     * calls went down: a completed walk has one subtree per registered
     * node of each object reached, and `visits` is its post-order.
     */
    method Apply(fuel: nat, ghost U: set<Composable>) returns (r: Result<()>, visits: seq<Composable>, ghost walk: Walk, ghost made: set<Composable>)
      requires this in U && Closed(U, ids)
      modifies U`params, U`depends, U`calls, U`nodes, U`childsCalled, U`prefix, U`name, U`context, ids`next
      ensures fresh(made) && Closed(U + made, ids)
      ensures r.Ok? ==> walk.obj == this && FullWalk(walk) && visits == PostOrder(walk)
      ensures fuel == 0 ==> r.Err? && r.error.kind == RecursionError && visits == []
      decreases fuel, 1
    {
      made := {};
      assert U + made == U;
      visits := [];
      walk := Walk(this, []);
      if fuel == 0 {
        return Raise(RecursionError, FieldStore.RecursionMsg), visits, walk, made;
      }
      ghost var kids: seq<Walk> := [];
      var i := 0;
      while i < |nodeNames|
        invariant 0 <= i <= |nodeNames|
        invariant fresh(made) && Closed(U + made, ids)
        invariant |kids| == i && visits == Walks(kids) && forall k :: k in kids ==> FullWalk(k)
      {
        ghost var prev := made;
        var s, v, w, m := ApplyNode(nodeNames[i], fuel, U + made);
        made := made + m;
        assert U + made == (U + prev) + m;
        visits := visits + v;
        if s.Err? {
          return s, visits, walk, made;
        }
        assert (kids + [w])[..|kids|] == kids;
        kids := kids + [w];
        i := i + 1;
      }
      walk := Walk(this, kids);
      visits := visits + [this];
      r := Ok(());
    }

    /** One node of `apply`: `getattr(self, node).apply(fn)`. */
    method ApplyNode(node: string, fuel: nat, ghost U: set<Composable>)
      returns (r: Result<()>, visits: seq<Composable>, ghost walk: Walk, ghost made: set<Composable>)
      requires fuel > 0 && this in U && Closed(U, ids)
      modifies U`params, U`depends, U`calls, U`nodes, U`childsCalled, U`prefix, U`name, U`context, ids`next
      ensures fresh(made) && Closed(U + made, ids)
      ensures r.Ok? ==> FullWalk(walk) && visits == PostOrder(walk)
      decreases fuel, 0
    {
      visits := [];
      walk := Walk(this, []);
      var child;
      child, made := Child(node, ApplyMeth, fuel, U);
      if child.Err? {
        return Err(child.error), visits, walk, made;
      }
      ghost var m;
      ghost var prev := made;
      r, visits, walk, m := child.value.Apply(fuel - 1, U + made);
      made := made + m;
      assert U + made == (U + prev) + m;
    }
  }

  /** The objects an `apply` walk reached: an object, then the walk under each of its nodes. */
  datatype Walk = Walk(obj: Composable, kids: seq<Walk>)

  /** Every object of the walk went down all of its registered nodes. */
  ghost predicate FullWalk(w: Walk)
    decreases w
  {
    |w.kids| == |w.obj.nodeNames| && forall k :: k in w.kids ==> FullWalk(k)
  }

  /** The order `apply` calls `fn`: the walks under the nodes, in order, then the object. */
  function PostOrder(w: Walk): seq<Composable>
    decreases w, 1
  {
    Walks(w.kids) + [w.obj]
  }

  function Walks(ws: seq<Walk>): seq<Composable>
    decreases ws, 0
  {
    if |ws| == 0 then [] else Walks(ws[..|ws| - 1]) + PostOrder(ws[|ws| - 1])
  }

  lemma {:induction false} WalksAppend(a: seq<Walk>, b: seq<Walk>)
    ensures Walks(a + b) == Walks(a) + Walks(b)
    decreases |b|
  {
    if |b| > 0 {
      var b' := b[..|b| - 1];
      assert (a + b)[..|a + b| - 1] == a + b';
      WalksAppend(a, b');
    } else {
      assert a + b == a;
    }
  }

  /**
   * The walk under the `i`th node is called in one stretch, after the
   * walks under the nodes before it and before the object itself.
   */
  lemma SubtreeBeforeParent(w: Walk, i: nat)
    requires i < |w.kids|
    ensures var lo, hi := |Walks(w.kids[..i])|, |Walks(w.kids[..i + 1])|;
      lo <= hi < |PostOrder(w)| && PostOrder(w)[lo..hi] == PostOrder(w.kids[i])
  {
    var ks := w.kids;
    assert ks[..i + 1][..i] == ks[..i];
    assert Walks(ks[..i + 1]) == Walks(ks[..i]) + PostOrder(ks[i]);
    assert ks == ks[..i + 1] + ks[i + 1..];
    WalksAppend(ks[..i + 1], ks[i + 1..]);
    var a, b, c := Walks(ks[..i]), PostOrder(ks[i]), Walks(ks[i + 1..]) + [w.obj];
    assert PostOrder(w) == a + b + c;
    assert (a + b + c)[|a|..|a| + |b|] == b;
  }

  /** A complete walk calls `fn` at least once per registered node, and last on the object itself. */
  lemma {:induction false} CompleteVisits(w: Walk)
    requires FullWalk(w)
    ensures |PostOrder(w)| >= |w.obj.nodeNames| + 1 && PostOrder(w)[|PostOrder(w)| - 1] == w.obj
  {
    WalksLength(w.kids);
  }

  lemma {:induction false} WalksLength(ws: seq<Walk>)
    ensures |Walks(ws)| >= |ws|
    decreases |ws|
  {
    if |ws| > 0 {
      WalksLength(ws[..|ws| - 1]);
    }
  }

  /** What the three maps of an instance hold for `k`. */
  function SlotOf(p: Stored, a: map<string, Target>, n: map<string, Composable>, k: string): Slots
  {
    (if k in p then Some(p[k]) else None, if k in a then Some(a[k]) else None, if k in n then Some(n[k]) else None)
  }

  /**
   * The slots `setattr(c, key, o)` leaves, from what it does to the maps
   * `p0`, `a0`, `n0` of `c` (the field store before it was `s0`): the
   * slot of `key` is as `Took` says, every other slot is unchanged, and
   * for a settled key the write raises exactly when it is refused.
   */
  lemma AssignedSlots(c: Composable, key: string, value: Value, o: Obj, stored: Target, r: Result<()>,
                      s0: FieldStore.Store, a0: map<string, Target>, n0: map<string, Composable>,
                      p1: Stored, a1: map<string, Target>, n1: map<string, Composable>)
    requires o.value == value && !(key in c.nodeNames && value.Dict?)
    requires c.Wrapped(key) ==> stored.Comp? && stored.c.cls == ProxyKlass
    requires !c.Wrapped(key) ==> stored == Val(o)
    requires NodeOf(c.mro, key).Some? ==>
      key in c.nodeNames && p1 == s0.params && a1 == a0 &&
      (stored.Comp? ==> r == Ok(()) && n1 == n0[key := stored.c]) && (stored.Val? ==> r.Err? && n1 == n0)
    requires ParamOf(c.mro, key).Some? ==>
      a1 == a0 && n1 == n0 &&
      var w := FieldStore.WriteParam(s0, key, ParamOf(c.mro, key).value, ObjOf(stored), c.FieldConforms(key));
      r == w.0 && p1 == w.1.params
    requires ParamOf(c.mro, key).None? && NodeOf(c.mro, key).None? ==>
      r == Ok(()) && p1 == s0.params && n1 == n0 && a1 == a0[key := stored]
    ensures c.Took(key, value, SlotOf(p1, a1, n1, key), SlotOf(s0.params, a0, n0, key))
    ensures forall k :: k != key ==> SlotOf(p1, a1, n1, k) == SlotOf(s0.params, a0, n0, k)
    ensures c.Settled(key) ==> (r.Err? <==> c.Refused(key, value))
  {
    if NodeOf(c.mro, key).Some? {
      assert p1 == s0.params && a1 == a0;
    } else if ParamOf(c.mro, key).Some? {
      AssignedParam(c, key, value, o, stored, r, s0, a0, n0, p1, a1, n1);
    } else {
      assert p1 == s0.params && n1 == n0 && a1 == a0[key := stored];
    }
  }

  /** `AssignedSlots` for a key naming a param. */
  lemma AssignedParam(c: Composable, key: string, value: Value, o: Obj, stored: Target, r: Result<()>,
                      s0: FieldStore.Store, a0: map<string, Target>, n0: map<string, Composable>,
                      p1: Stored, a1: map<string, Target>, n1: map<string, Composable>)
    requires ParamOf(c.mro, key).Some? && NodeOf(c.mro, key).None?
    requires o.value == value && (!c.Wrapped(key) ==> stored == Val(o))
    requires a1 == a0 && n1 == n0 &&
      var w := FieldStore.WriteParam(s0, key, ParamOf(c.mro, key).value, ObjOf(stored), c.FieldConforms(key));
      r == w.0 && p1 == w.1.params
    ensures c.Took(key, value, SlotOf(p1, a1, n1, key), SlotOf(s0.params, a0, n0, key))
    ensures forall k :: k != key ==> SlotOf(p1, a1, n1, k) == SlotOf(s0.params, a0, n0, k)
    ensures c.Settled(key) ==> (r.Err? <==> c.Refused(key, value))
  {
    if !c.Wrapped(key) {
      assert c.FieldConforms(key)(value) == c.isa(c.cls, key, value);
      assert r.Err? <==> c.Refused(key, value);
    }
  }

  /**
   * What `set` took reads back: a cached param it wrote is read from the
   * field store as the value given, and so is a plain attribute from the
   * instance dict, whatever the field store `s` holding the new params.
   */
  lemma TookReadsBack(c: Composable, key: string, v: Value, p: Stored, a: map<string, Target>, n: map<string, Composable>,
                      prior: Slots, s: FieldStore.Store, fuel: nat)
    requires c.Took(key, v, SlotOf(p, a, n, key), prior) && !c.Wrapped(key) && !c.Refused(key, v)
    requires s.params == p && fuel > 0
    ensures ParamOf(c.mro, key).Some? && !ParamOf(c.mro, key).value.noCache ==>
      var (res, s1) := FieldStore.ReadParam(c.mro, s, key, fuel);
      res.Ok? && res.value.value == v && s1 == s
    ensures ParamOf(c.mro, key).None? && NodeOf(c.mro, key).None? ==>
      var got := Unbound(a, c.mro, key);
      got.Ok? && got.value.Val? && got.value.o.value == v
  {
  }

  /**
   * A path ending in a cached, already filled param that depends on
   * nothing answers with the stored object and leaves the field store as
   * it found it.
   */
  lemma GaveCached(c: Composable, attr: string, fuel: nat, before: FieldStore.Store, r: Result<Target>)
    requires c.Gave(attr, fuel, before, r) && fuel > 0
    requires ParamOf(c.mro, attr).Some? && |ParamOf(c.mro, attr).value.dependsOn| == 0
    requires !ParamOf(c.mro, attr).value.noCache && attr in before.params
    ensures r == Ok(Val(before.params[attr])) && c.Snapshot() == before
  {
  }

  /** A successful lookup read its last segment on `owner`, and `Gave` says what that read returned. */
  ghost predicate Answered(owner: Composable, walked: seq<string>, fuel: nat, before: FieldStore.Store, r: Result<Target>)
    reads owner`params, owner`depends, owner`calls, owner`nodes, owner`attrs, owner.ids`next
  {
    r.Ok? ==> |walked| > 0 && owner.Gave(walked[|walked| - 1], fuel, before, r)
  }

  /** The answer of a walk is the answer of its last segment, whatever came before it. */
  lemma AnsweredCons(owner: Composable, segment: string, w: seq<string>, fuel: nat, before: FieldStore.Store, r: Result<Target>)
    requires Answered(owner, w, fuel, before, r)
    ensures Answered(owner, [segment] + w, fuel, before, r)
  {
    if r.Ok? {
      assert ([segment] + w)[|w|] == w[|w| - 1];
    }
  }

  /** A prefix stays a prefix with one more element in front. */
  lemma ConsPrefix<T>(x: T, a: seq<T>, b: seq<T>)
    requires |a| <= |b| && a == b[..|a|]
    ensures [x] + a == ([x] + b)[..|a| + 1]
  {
  }

  /** The keyword `__call__` pops to find one-shot run kwargs. */
  const RunKwargsKey := "_ff_run_kwargs"

  /** The methods called on a child, named in the AttributeError when the child is not a Composable. */
  const SetRunMeth := "set_run"
  const GetFromPathMeth := "get_from_path"
  const ApplyMeth := "apply"
  /** The method `set_run` calls on the popped run kwargs. */
  const ItemsMeth := "items"

  /** The global context key of the run id. */
  const RunIdKey := "run_id"

  /**
   * The one-shot run kwargs after `__call__` sets the truthy
   * `_ff_run_kwargs` of `kwargs` into `temp`; unchanged otherwise.
   */
  function WithRun(temp: Entries, kwargs: Entries, nodeNames: seq<string>): Entries
  {
    var popped := GetOr(kwargs, RunKwargsKey, Dict([]));
    if Truthy(popped) && popped.Dict? && Pretties.Unflatten(popped.entries).Ok? then
      Update(temp, Own(Pretties.Unflatten(popped.entries).value, nodeNames))
    else temp
  }

  /** A param read's result, as what `getattr` returns. */
  function AsTarget(r: Result<Obj>): Result<Target>
  {
    match r
    case Ok(o) => Ok(Val(o))
    case Err(e) => Err(e)
  }

  /** Attribute lookup past the descriptors: the instance dict, then a plain class attribute. */
  function Unbound(attrs: map<string, Target>, mro: seq<ClassBody>, attr: string): Result<Target>
  {
    if attr in attrs then Ok(attrs[attr])
    else match FindAttr(mro, attr)
      case Some(Plain(o)) => Ok(Val(o))
      case Some(Sub(k)) => Ok(Val(ClassObj(k)))
      case _ => Raise(AttributeError, FieldStore.NoAttrMsg(attr))
  }

  /** Where `c` sits in the flow: its prefix, its name and its context. */
  function Place(c: Composable): (string, string, nat)
    reads c`prefix, c`name, c`context
  {
    (c.prefix, c.name, c.context)
  }

  /** The run kwargs of `c` and where it sits. */
  function Held(c: Composable): (Entries, Entries, (string, string, nat))
    reads c`runKwargs, c`tempKwargs, c`prefix, c`name, c`context
  {
    (c.runKwargs, c.tempKwargs, Place(c))
  }

  /** `c` kept its name and its context between the two states. */
  twostate predicate Placed(c: Composable)
    reads c`prefix, c`name, c`context
  {
    Place(c) == old(Place(c))
  }

  /** `c` kept its run kwargs, its name and its context between the two states. */
  twostate predicate Kept(c: Composable)
    reads c`runKwargs, c`tempKwargs, c`prefix, c`name, c`context
  {
    Held(c) == old(Held(c))
  }

  /** No entry of `items` is routed to a node. */
  predicate NoneRouted(items: Entries, nodeNames: seq<string>)
  {
    forall j :: 0 <= j < |items| ==> !Routed(items[j], nodeNames)
  }

  /**
   * The context calls `__call__` makes before the run: a root clears the
   * context and stores the run id globally; every object creates the local
   * context of its path.
   */
  function Admin(prefix: string, name: string, runIdOf: Result<Value>): seq<ContextCall>
  {
    (if prefix == "" && runIdOf.Ok? then [ClearAll, ContextCall.SetGlobal(RunIdKey, runIdOf.value)] else []) +
    [CreateLocal(Backends.AbsPath(prefix, name))]
  }

  /** `d` holds the pair `(k, v)` exactly when its value for `k` is `v`. */
  lemma {:induction false} GetIn(d: Entries, k: string, v: Value)
    requires DistinctKeys(d)
    ensures (k, v) in d <==> Get(d, k) == Some(v)
    decreases |d|
  {
    if |d| > 0 {
      DistinctKeysIff(d);
      assert d == [d[0]] + d[1..];
      GetIn(d[1..], k, v);
    }
  }

  /** A key is present exactly when some pair carries it. */
  lemma HasKeyIff(d: Entries, k: string)
    ensures HasKey(d, k) <==> exists v :: (k, v) in d
  {
    if HasKey(d, k) {
      var i :| 0 <= i < |d| && Keys(d)[i] == k;
      assert (k, d[i].1) == d[i];
    }
    if exists v :: (k, v) in d {
      var v :| (k, v) in d;
      var i :| 0 <= i < |d| && d[i] == (k, v);
      assert Keys(d)[i] == k;
    }
  }

  /** Dropping the routed entries keeps the keys distinct. */
  lemma {:induction false} OwnDistinct(items: Entries, nodeNames: seq<string>)
    requires DistinctKeys(items)
    ensures DistinctKeys(Own(items, nodeNames))
    decreases |items|
  {
    if |items| > 0 {
      DistinctKeysIff(items);
      OwnDistinct(items[1..], nodeNames);
      OwnMembers(items[1..], nodeNames);
      var rest := Own(items[1..], nodeNames);
      if !Routed(items[0], nodeNames) {
        var r := [items[0]] + rest;
        assert r[1..] == rest;
        HasKeyIff(rest, items[0].0);
        HasKeyIff(items[1..], items[0].0);
        DistinctKeysIff(r);
      }
    }
  }

  /** What `set_run` leaves in the kwargs it assigns into, key by key. */
  lemma OwnGet(d: Entries, items: Entries, nodeNames: seq<string>, k: string)
    requires DistinctKeys(items)
    ensures Get(Update(d, Own(items, nodeNames)), k) ==
      if HasKey(items, k) && !Routed((k, Get(items, k).value), nodeNames) then Get(items, k) else Get(d, k)
  {
    var own := Own(items, nodeNames);
    OwnDistinct(items, nodeNames);
    OwnMembers(items, nodeNames);
    UpdateGet(d, own, k);
    HasKeyIff(own, k);
    HasKeyIff(items, k);
    if HasKey(own, k) {
      var v :| (k, v) in own;
      GetIn(own, k, v);
      GetIn(items, k, v);
    } else if HasKey(items, k) {
      var v := Get(items, k).value;
      GetIn(items, k, v);
    }
  }

  /** Unflattening yields a dict: its keys are distinct. */
  lemma {:induction false} UnflattenDistinct(out: Entries, d: Entries)
    requires DistinctKeys(out) && Pretties.UnflattenInto(out, d).Ok?
    ensures DistinctKeys(Pretties.UnflattenInto(out, d).value)
    decreases |d|
  {
    if |d| > 0 {
      var path := Pretties.KeyPath(d[0].0);
      var o := Pretties.SetPath(out, path, d[0].1).value;
      if |path| == 1 {
        PutDistinct(out, path[0], d[0].1);
      } else {
        var inner := Pretties.SetPath(GetOr(out, path[0], EmptyDict).entries, path[1..], d[0].1).value;
        PutDistinct(out, path[0], Dict(inner));
      }
      UnflattenDistinct(o, d[1..]);
    }
  }

  /**
   * `set_run(kwargs)` on an object it does not reach through its nodes:
   * each key of the unflattened kwargs that is not routed to a node takes
   * the value given; every other key keeps its value.
   */
  lemma SetRunLookup(d: Entries, kwargs: Entries, nodeNames: seq<string>, k: string)
    requires Pretties.Unflatten(kwargs).Ok?
    ensures var items := Pretties.Unflatten(kwargs).value;
      Get(Update(d, Own(items, nodeNames)), k) ==
      if HasKey(items, k) && !Routed((k, Get(items, k).value), nodeNames) then Get(items, k) else Get(d, k)
  {
    UnflattenDistinct([], kwargs);
    OwnGet(d, Pretties.Unflatten(kwargs).value, nodeNames, k);
  }

  /**
   * The kwargs `__call__` hands to the run: a one-shot run kwarg wins over
   * a persisted one, which wins over a keyword of the call;
   * `_ff_run_kwargs` itself is passed on only when a run kwarg sets it.
   */
  lemma MergedPrecedence(kwargs: Entries, run: Entries, temp: Entries, k: string)
    requires DistinctKeys(kwargs) && DistinctKeys(run) && DistinctKeys(temp)
    ensures Get(Update(Update(Remove(kwargs, RunKwargsKey), run), temp), k) ==
      if HasKey(temp, k) then Get(temp, k)
      else if HasKey(run, k) then Get(run, k)
      else if k == RunKwargsKey then None
      else Get(kwargs, k)
  {
    UpdateGet(Update(Remove(kwargs, RunKwargsKey), run), temp, k);
    UpdateGet(Remove(kwargs, RunKwargsKey), run, k);
  }

  /**
   * One more item of `set_run` done: the kwargs assigned so far grow by
   * that item unless it is routed.
   */
  lemma OwnSnoc(run: Entries, items: Entries, i: nat, nodeNames: seq<string>)
    requires i < |items|
    ensures Update(run, Own(items[..i + 1], nodeNames)) ==
      var sofar := Update(run, Own(items[..i], nodeNames));
      if Routed(items[i], nodeNames) then sofar else Put(sofar, items[i].0, items[i].1)
  {
    assert items[..i + 1] == items[..i] + [items[i]];
    OwnAppend(items[..i], [items[i]], nodeNames);
    assert Own([items[i]], nodeNames) == if Routed(items[i], nodeNames) then [] else [items[i]] by {
      assert [items[i]][1..] == [];
    }
    if Routed(items[i], nodeNames) {
      assert Own(items[..i], nodeNames) + [] == Own(items[..i], nodeNames);
    } else {
      UpdateSnoc(run, Own(items[..i], nodeNames), items[i]);
    }
  }

  /** `Own` of a concatenation is the concatenation of `Own`s. */
  lemma {:induction false} OwnAppend(a: Entries, b: Entries, nodeNames: seq<string>)
    ensures Own(a + b, nodeNames) == Own(a, nodeNames) + Own(b, nodeNames)
    decreases |a|
  {
    if |a| == 0 {
      assert a + b == b;
    } else {
      assert (a + b)[1..] == a[1..] + b;
      OwnAppend(a[1..], b, nodeNames);
    }
  }

  /** Updating by one more entry puts that entry last. */
  lemma {:induction false} UpdateSnoc(d: Entries, e: Entries, x: (string, Value))
    ensures Update(d, e + [x]) == Put(Update(d, e), x.0, x.1)
    decreases |e|
  {
    if |e| == 0 {
      assert e + [x] == [x];
      assert [x][1..] == [];
    } else {
      assert (e + [x])[1..] == e[1..] + [x];
      UpdateSnoc(Put(d, e[0].0, e[0].1), e[1..], x);
    }
  }

  /** The object a param write stores: a Composable is kept as its class and identity. */
  function ObjOf(t: Target): Obj
  {
    match t
    case Val(o) => o
    case Comp(c) => Obj(Object(c.cls.own.name, []), c.oid)
  }

  /** `p` is a ComposableProxy holding `t` as `ff_original_obj`. */
  ghost predicate Wraps(p: Composable, t: Target)
    reads p`params
  {
    p.cls == ProxyKlass && Original in p.params && p.params[Original] == ObjOf(t)
  }

  /** `isinstance(x, ComposableProxy)` for an instance of `k`. */
  predicate IsProxyClass(k: Klass)
  {
    ProxyIn(Mro(k))
  }

  /** Some class of `mro` is `ComposableProxy`. */
  predicate ProxyIn(mro: seq<ClassBody>)
  {
    |mro| > 0 && ((mro[0].modname == ProxyBody.modname && mro[0].name == ProxyBody.name) || ProxyIn(mro[1..]))
  }

  /**
   * What a node read that finds nothing usable builds: the class and
   * keyword arguments the callback returns, else the default class with
   * `default_kwargs`; a default that is not a class cannot be called, and
   * no default at all is an AttributeError.
   */
  function NodeRecipe(field: string, n: NodeDecl, params: Stored): (r: Result<Recipe>)
    ensures n.callback.None? && n.default.NoNodeDefault? ==> r.Err? && r.error.kind == AttributeError
    ensures n.callback.None? && n.default.NotAClass? ==> r.Err? && r.error.kind == TypeError
    ensures n.callback.None? && n.default.Make? ==> r == Ok(Recipe(n.default.cls, n.defaultKwargs))
  {
    if n.callback.Some? then n.callback.value(params)
    else match n.default
      case Make(k) => Ok(Recipe(k, n.defaultKwargs))
      case NotAClass(_) => Raise(TypeError, NotCallableMsg)
      case NoNodeDefault => Raise(AttributeError, NodeNotSetMsg(field))
  }

  /** Every Composable that an object of `U` holds is in `U`, and all of them draw identities from one source. */
  ghost predicate Closed(U: set<Composable>, ids: Runtime)
    reads U`nodes, U`attrs
  {
    forall c :: c in U ==> c.ids == ids && c.nodes.Values <= U && AttrsIn(c.attrs, U)
  }

  ghost predicate AttrsIn(a: map<string, Target>, U: set<Composable>)
  {
    forall k :: k in a && a[k].Comp? ==> a[k].c in U
  }

  lemma ValuesUpdate<K, V>(m: map<K, V>, k: K, v: V)
    ensures m[k := v].Values <= m.Values + {v}
  {
    forall x | x in m[k := v].Values
      ensures x in m.Values + {v}
    {
      var j :| j in m[k := v] && m[k := v][j] == x;
      if j != k {
        assert m[j] == x;
      }
    }
  }

  /** A name whose nearest class attribute is a Node descriptor is a registered node. */
  lemma NodeRegistered(mro: seq<ClassBody>, x: string)
    ensures NodeOf(mro, x).Some? ==> x in Registered(mro).1
  {
    if NodeOf(mro, x).Some? {
      FoundDeclared(mro, x);
      RegisteredIff(mro, x);
    }
  }

  lemma {:induction false} FoundDeclared(mro: seq<ClassBody>, x: string)
    requires FindAttr(mro, x).Some? && IsNodeAttr(FindAttr(mro, x).value)
    ensures DeclaredIn(mro, x, true)
    decreases |mro|
  {
    match Lookup(mro[0].attrs, x)
    case Some(a) =>
      var j :| 0 <= j < |mro[0].attrs| && mro[0].attrs[j] == (x, a);
      assert mro[0].attrs[j].0 == x && IsNodeAttr(mro[0].attrs[j].1);
    case None =>
      FoundDeclared(mro[1..], x);
      var i, j :| 0 <= i < |mro[1..]| && 0 <= j < |mro[1..][i].attrs| && mro[1..][i].attrs[j].0 == x &&
        IsNodeAttr(mro[1..][i].attrs[j].1);
      assert mro[i + 1] == mro[1..][i];
  }

  /**
   * `k(**kwargs)` for a Composable class (theflow/base.py 466-506): the
   * instance is set up, the keyword arguments are `set`, the middleware
   * chain is built with the first listed middleware outermost, and
   * `_initialize` runs unless a write already ran it.
   */
  method New(k: Klass, kwargs: Entries, ids: Runtime, isa: Conforms, fuel: nat)
    returns (r: Result<Composable>, ghost made: set<Composable>)
    modifies ids`next
    ensures fresh(made) && Closed(made, ids)
    ensures r.Ok? ==> r.value in made && r.value.cls == k && r.value.ids == ids && r.value.isa == isa
    ensures r.Ok? ==> (MiddlewareOf(Mro(k)).Ok? && r.value.initCount >= 1 &&
      r.value.middleware == (if MiddlewareOf(Mro(k)).value.Some? then Some(Naming.Nested(MiddlewareOf(Mro(k)).value.value)) else None))
    ensures |kwargs| == 0 ==> (r.Ok? <==> MiddlewareOf(Mro(k)).Ok?)
    ensures |kwargs| == 0 && r.Ok? ==>
      r.value.params == map[] && r.value.nodes == map[] && r.value.attrs == map[] && r.value.initCount == 1 &&
      !r.value.inRun && r.value.prefix == "" && r.value.name == "" && r.value.childsCalled == map[]
    ensures Pretties.Unflatten(kwargs).Err? ==> r == Err(Pretties.Unflatten(kwargs).error)
    ensures Pretties.Unflatten(kwargs).Ok? && NoneRouted(Pretties.Unflatten(kwargs).value, Registered(Mro(k)).1) ==>
      (r.Ok? <==> MiddlewareOf(Mro(k)).Ok?) &&
      (r.Err? ==> r.error == MiddlewareOf(Mro(k)).error) &&
      (r.Ok? ==> r.value.Outcome(Pretties.Unflatten(kwargs).value, |Pretties.Unflatten(kwargs).value|, false, Ok(()),
                                 r.value.params, r.value.attrs, r.value.nodes, map[], map[], map[]))
    decreases fuel, 3, 0
  {
    var c, s;
    c, s, made := Construct(k, kwargs, ids, isa, fuel);
    if s.Err? {
      return Err(s.error), made;
    }
    var done := Complete(c);
    if done.Err? {
      return Err(done.error), made;
    }
    r := Ok(c);
  }

  /** The start of `__init__` (theflow/base.py 467-491): a new instance, then `set` with the keyword arguments. */
  method Construct(k: Klass, kwargs: Entries, ids: Runtime, isa: Conforms, fuel: nat)
    returns (c: Composable, r: Result<()>, ghost made: set<Composable>)
    modifies ids`next
    ensures fresh(made) && Closed(made, ids) && c in made
    ensures c.cls == k && c.ids == ids && c.isa == isa
    ensures |kwargs| == 0 ==> (r.Ok? &&
      c.params == map[] && c.nodes == map[] && c.attrs == map[] && c.initCount == 0 &&
      !c.inRun && c.prefix == "" && c.name == "" && c.childsCalled == map[])
    ensures Pretties.Unflatten(kwargs).Err? ==> r == Err(Pretties.Unflatten(kwargs).error)
    ensures Pretties.Unflatten(kwargs).Ok? && NoneRouted(Pretties.Unflatten(kwargs).value, c.nodeNames) ==>
      r.Ok? && c.Outcome(Pretties.Unflatten(kwargs).value, |Pretties.Unflatten(kwargs).value|, false, r,
                         c.params, c.attrs, c.nodes, map[], map[], map[])
    decreases fuel, 2, 1
  {
    c := new Composable(k, ids, isa);
    made := {c};
    r := Ok(());
    assert c.nodes.Values == {} && AttrsIn(c.attrs, made);
    if |kwargs| == 0 {
      return;
    }
    ghost var m;
    ghost var n;
    r, n, m := c.Set(kwargs, false, fuel, made);
    made := made + m;
  }

  /** The end of `__init__` (theflow/base.py 493-505): the middleware chain, then `_initialize` unless it already ran. */
  method Complete(c: Composable) returns (r: Result<()>)
    modifies c`middleware, c`initCount
    ensures r.Ok? <==> MiddlewareOf(c.mro).Ok?
    ensures r.Err? ==> r.error == MiddlewareOf(c.mro).error
    ensures r.Ok? ==> (c.initCount == (if old(c.initCount) == 0 then 1 else old(c.initCount)) &&
      c.middleware == (if MiddlewareOf(c.mro).value.Some? then Some(Naming.Nested(MiddlewareOf(c.mro).value.value)) else None))
  {
    c.middleware := None;
    var mw := MiddlewareOf(c.mro);
    if mw.Err? {
      return Err(mw.error);
    }
    if mw.value.Some? {
      var chain := Naming.BuildChain(mw.value.value);
      c.middleware := Some(chain);
    }
    if c.initCount == 0 {
      c.Initialize();
    }
    r := Ok(());
  }

  /**
   * `ComposableProxy(ff_original_obj=original)` (theflow/base.py 955-960):
   * `__init__` writes the Param `ff_original_obj`, builds the middleware
   * chain and initializes; then wrapping a proxy raises.
   */
  method NewProxy(original: Target, ids: Runtime, isa: Conforms, ghost U: set<Composable>)
    returns (r: Result<Composable>, ghost made: set<Composable>)
    requires Closed(U, ids)
    modifies ids`next
    ensures fresh(made) && Closed(U + made, ids)
    ensures r.Ok? <==> !(original.Comp? && IsProxyClass(original.c.cls))
    ensures r.Err? ==> r.error.kind == ValueError
    ensures r.Ok? ==> (fresh(r.value) && r.value in made && Wraps(r.value, original) &&
      r.value.nodes == map[] && r.value.attrs == map[] && r.value.initCount == 1 &&
      r.value.middleware == Some(Naming.Nested(ComposableBody.middleware.value.value)))
  {
    var p := InitProxy(original, ids, isa);
    made := {p};
    assert p.nodes.Values == {} && AttrsIn(p.attrs, made);
    if original.Comp? && IsProxyClass(original.c.cls) {
      return Raise(ValueError, DoubleWrapMsg), made;
    }
    r := Ok(p);
  }

  /** `ComposableProxy.__init__`: the Param write, the middleware chain, `_initialize`. */
  method InitProxy(original: Target, ids: Runtime, isa: Conforms) returns (p: Composable)
    modifies ids`next
    ensures fresh(p) && p.ids == ids && Wraps(p, original)
    ensures p.nodes == map[] && p.attrs == map[] && p.initCount == 1
    ensures p.middleware == Some(Naming.Nested(ComposableBody.middleware.value.value))
  {
    p := new Composable(ProxyKlass, ids, isa);
    FillProxy(p, original);
  }

  /** The body of `ComposableProxy.__init__` on the fresh object. */
  method FillProxy(p: Composable, original: Target)
    requires p.cls == ProxyKlass && p.mro == Mro(ProxyKlass)
    requires p.params == map[] && p.initCount == 0
    modifies p`params, p`initCount, p`middleware
    ensures Wraps(p, original) && p.initCount == 1
    ensures p.middleware == Some(Naming.Nested(ComposableBody.middleware.value.value))
  {
    var w := p.SetParam(Original, PlainParam(None), ObjOf(original));
    assert p.params == map[Original := ObjOf(original)] && p.initCount == 0;
    ProxyMiddleware();
    var done := Complete(p);
  }

  /** A proxy inherits Composable's middleware list. */
  lemma ProxyMiddleware()
    ensures MiddlewareOf(Mro(ProxyKlass)) == Ok(ComposableBody.middleware.value)
  {
    assert Mro(ProxyKlass)[1..] == [ComposableBody];
  }

  /** The proxy class is what class creation makes of its statement. */
  lemma ProxyCreated()
    ensures CreateClass(ProxyStatement, [ComposableBody]) == Ok(ProxyKlass)
  {
    var attrs := Descriptorize(ProxyStatement.attrs, ProxyStatement.annotations);
    assert Original[0] == 'f' && !Text.StartsWith(Original, "_");
    assert ProxyStatement.annotations[1..] == [];
    assert attrs == Descriptorize(Assign([], Original, Desc(Declare(false, None))), []);
    assert attrs == ProxyBody.attrs;
    var mro := Mro(ProxyKlass);
    assert mro == [ProxyBody, ComposableBody];
    ProtectedNearest(mro, Original);
    assert Original !in OwnKeywords(mro[0]) && Original !in OwnKeywords(mro[1]);
    ProtectedBounded(mro);
    assert CheckNames(attrs, mro, ProtectedKeywords(mro)) == CheckNames([], mro, ProtectedKeywords(mro));
    assert ProxyStatement.(attrs := attrs) == ProxyBody;
    SetNamesIff(ProxyBody, attrs);
    assert SetNames(ProxyBody, attrs).Ok?;
  }
}
