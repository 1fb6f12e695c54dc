/**
 * The prototype's two flow bases, `Pipeline` (finestflow/pipeline.py) and
 * `YourFlow` (finestflow/workflow.py).  A subclass declares its steps by
 * assigning them inside `initialize`; each assignment is checked,
 * registered in order and wrapped so that the step shares the flow's
 * config and context.  Calling a flow records the routing flags in the
 * context, names the run, pushes that name down to the steps as their
 * prefix, runs the flow's `run` body and records its result under the
 * name.
 *
 * The two classes differ only in their reserved names, in how they hold
 * their config (a Config object, or the dict given), in marking a rebuilt
 * sub-flow as nested, in the extra `_ff_cache_dir` key, and in what they
 * record; one class with a `Kind` covers both.
 */
module FlowPipelines {
  import opened Wrappers
  import opened PyValues
  import opened Text
  import opened FlowContexts
  import opened FlowConfigs
  import Configs

  datatype Kind = PipelineKind | YourFlowKind

  /** `RESERVED_PIPELINE_KEYWORDS` of each module. */
  function Reserved(kind: Kind): seq<string>
  {
    match kind
    case PipelineKind => ["Config", "config", "initialize", "run", "last_run"]
    case YourFlowKind => ["Config"]
  }

  const InitCalledFlag := "_ff_init_called"
  const InitializingFlag := "_ff_initializing"

  const InitMessage := "Please call `super().__init__()` at the top of your `__init__` method"

  /** Why `__setattr__` refuses to register `name` after `nodes`, if it does: its three checks in order. */
  function Refusal(kind: Kind, nodes: seq<string>, name: string): Option<string>
  {
    if name in Reserved(kind) then Some("`" + name + "` is a reserved keyword. Please use different name")
    else if StartsWith(name, "_ff") then Some("Please don't start step name with `_ff`: " + name)
    else if name in nodes then Some("Step name `" + name + "` is duplicated. Please use different name")
    else None
  }

  /** What a flow's step names always are: distinct, none reserved, none starting with `_ff`. */
  predicate Registry(kind: Kind, nodes: seq<string>)
  {
    (forall i, j :: 0 <= i < j < |nodes| ==> nodes[i] != nodes[j]) &&
    forall i :: 0 <= i < |nodes| ==> nodes[i] !in Reserved(kind) && !StartsWith(nodes[i], "_ff")
  }

  /** A name is registered exactly when no check refuses it, and registering it keeps the registry well formed. */
  lemma RegisterKeeps(kind: Kind, nodes: seq<string>, name: string)
    requires Registry(kind, nodes)
    ensures Refusal(kind, nodes, name).None? <==> name !in Reserved(kind) && !StartsWith(name, "_ff") && name !in nodes
    ensures Refusal(kind, nodes, name).None? ==> Registry(kind, nodes + [name])
  {
    if Refusal(kind, nodes, name).None? {
      var ns := nodes + [name];
      forall i, j | 0 <= i < j < |ns| ensures ns[i] != ns[j] {
        if j == |nodes| {
          assert ns[i] == nodes[i];
        }
      }
    }
  }

  /**
   * A flow subclass: which base it extends, the `Config` bodies along its
   * MRO (most derived first), and the assignments its `initialize` makes,
   * in order (`None` when it does not override `initialize`).
   */
  datatype FlowSpec = FlowSpec(kind: Kind, mro: seq<Option<Entries>>, steps: Option<seq<(string, Assigned)>>)

  /** What may be assigned to a flow attribute: another flow, a StepWrapper, or any other object. */
  datatype Assigned = FlowOf(f: Flow) | WrapperOf(w: StepWrapper) | Given(v: Value)

  /** What an attribute holds afterwards: a rebuilt sub-flow, a wrapper, or the object as assigned. */
  datatype Member = Sub(f: Flow) | Wrapped(w: StepWrapper) | Kept(a: Assigned)

  /** `_ff_config`: a Config object (Pipeline) or the dict given (YourFlow). */
  datatype Settings = ConfigObject(c: FlowConfig) | ConfigDict(d: Entries)

  /**
   * The `config` argument of a flow's constructor.  A path names a JSON
   * file; `loaded` is what opening and decoding it gives, a dict or the raise.
   */
  datatype ConfigArg =
    | NoConfig
    | GivenDict(d: Entries)
    | GivenConfig(c: FlowConfig)
    | GivenPath(path: string, loaded: Result<Entries>)

  /** `bool(value)`: objects without a length or `__bool__` are true. */
  predicate AssignedTruthy(a: Assigned)
  {
    !a.Given? || Truthy(a.v)
  }

  /** The StepWrapper of finestflow/step.py: the wrapped object, the flow's config and context, and a prefix. */
  class StepWrapper {
    const obj: Assigned
    const config: Settings
    const context: FlowContext
    var prefix: string

    constructor(obj: Assigned, config: Settings, context: FlowContext)
      ensures this.obj == obj && this.config == config && this.context == context && prefix == ""
    {
      this.obj := obj;
      this.config := config;
      this.context := context;
      prefix := "";
    }
  }

  /**
   * `wrapper._obj` as the rebuild of a StepWrapper reads it: the name does
   * not start with `_ff`, so the wrapper forwards it to the object it
   * wraps, and only an object or class that happens to carry an `_obj`
   * attribute answers.
   */
  function ObjAttrAsWritten(inner: Assigned): (r: Result<Assigned>)
    ensures r.Ok? ==> inner.Given? && (inner.v.Object? || inner.v.Class?)
    ensures inner.Given? && inner.v.Object? ==> (r.Ok? <==> HasKey(inner.v.attrs, "_obj"))
  {
    match inner
    case Given(Object(_, attrs)) =>
      if HasKey(attrs, "_obj") then Ok(Given(Get(attrs, "_obj").value))
      else Raise(AttributeError, "object has no attribute '_obj'")
    case Given(Class(_, _, attrs)) =>
      if HasKey(attrs, "_obj") then Ok(Given(Get(attrs, "_obj").value))
      else Raise(AttributeError, "type object has no attribute '_obj'")
    case _ => Raise(AttributeError, "object has no attribute '_obj'")
  }

  /**
   * Re-registering a StepWrapper around a plain value, as written, raises
   * instead of wrapping that value again.
   */
  lemma RewrapLosesObject(v: Value)
    requires !v.Object? && !v.Class?
    ensures ObjAttrAsWritten(Given(v)) == Raise(AttributeError, "object has no attribute '_obj'")
  {
  }

  /** The values of a Config object as a dict, the way `update_from_dict` takes them. */
  function Export(a: Configs.Attrs): Entries
  {
    (if "store_result" in a then [("store_result", a["store_result"])] else []) +
    (if "run_id" in a then [("run_id", a["run_id"])] else [])
  }

  /** The dict `Config(config=config, cls=...)` layers last, when `config` is one. */
  function LastLayer(config: ConfigArg): Option<Entries>
  {
    if config.GivenDict? then Some(config.d) else None
  }

  /**
   * Whether `Config.update` is handed `config` itself and refuses it: a
   * Config object is truthy and not a dict, and so is a non-empty path.
   */
  predicate Refused(config: ConfigArg)
  {
    config.GivenConfig? || (config.GivenPath? && config.path != "")
  }

  /** The defaults, the class's MRO and a dict `config`, layered as a Pipeline's config stores them. */
  function Layered(config: ConfigArg, mro: seq<Option<Entries>>): (Result<()>, Configs.Attrs)
  {
    Configs.ApplyAll(map[], Configs.Layers(FlowDefaults, LastLayer(config), Some(mro)), Verbatim())
  }

  /** `parse_callbacks` took `before` to `after`: each key's reference imported, any other value kept. */
  predicate ParsedFrom(before: Configs.Attrs, after: Configs.Attrs, resolve: string -> Result<Value>)
  {
    before.Keys == after.Keys && forall k :: k in before ==> Configs.Parse(before[k], resolve) == Ok(after[k])
  }

  /**
   * The config a Pipeline builds in `__init__`: `Config(config=config,
   * cls=...)`.  A dict argument is layered last when non-empty; a Config
   * object or a non-empty path reaches `update`, which refuses it.
   */
  method PipelineConfig(config: ConfigArg, mro: seq<Option<Entries>>, resolve: string -> Result<Value>)
    returns (r: Result<FlowConfig>)
    ensures r.Ok? ==> fresh(r.value)
    ensures Refused(config) ==> r.Err?
    ensures Refused(config) && Layered(NoConfig, mro).0.Ok? ==> r.Err? && r.error.kind == ValueError
    ensures !Refused(config) ==>
      (r.Ok? <==> Layered(config, mro).0.Ok?) &&
      (r.Err? ==> r.error == Layered(config, mro).0.error) &&
      (r.Ok? ==> r.value.Valid() && r.value.attrs == Layered(config, mro).1 && r.value.resolve == resolve)
  {
    if Refused(config) {
      var x := NewFlowConfig(None, Some(mro), resolve);
      if x.Err? {
        r := x;
      } else {
        var u := x.value.Update(OtherArg);
        r := Err(u.error);
      }
    } else {
      r := NewFlowConfig(LastLayer(config), Some(mro), resolve);
    }
  }

  /**
   * The config the corrected rebuild of a nested Pipeline gets: the nested
   * instance's own values, given as a dict, land on top of the class layers
   * and come out unchanged.
   */
  method RebuildConfig(c: FlowConfig, mro: seq<Option<Entries>>, resolve: string -> Result<Value>)
    returns (r: Result<FlowConfig>)
    requires c.Valid()
    ensures r.Ok? <==> Configs.ApplyAll(map[], Configs.Layers(FlowDefaults, None, Some(mro)), Verbatim()).0.Ok?
    ensures r.Ok? ==> r.value.attrs == c.attrs && r.value.Valid()
  {
    var e := Export(c.attrs);
    r := PipelineConfig(GivenDict(e), mro, resolve);
    ExportLast(c.attrs, mro);
  }

  /** Layering a Config's exported values last reproduces them, whatever the class layers set. */
  lemma ExportLast(a: Configs.Attrs, mro: seq<Option<Entries>>)
    requires a.Keys == Configs.Available
    ensures var below := Configs.ApplyAll(map[], Configs.Layers(FlowDefaults, None, Some(mro)), Verbatim());
      var all := Configs.ApplyAll(map[], Configs.Layers(FlowDefaults, Some(Export(a)), Some(mro)), Verbatim());
      (all.0.Ok? <==> below.0.Ok?) && (all.0.Ok? ==> all.1 == a)
  {
    var e := Export(a);
    var lower := Configs.Layers(FlowDefaults, None, Some(mro));
    assert e == [("store_result", a["store_result"]), ("run_id", a["run_id"])];
    assert Configs.Layers(FlowDefaults, Some(e), Some(mro)) == lower + [e];
    Configs.ApplyAllAppend(map[], lower, [e], Verbatim());
    var below := Configs.ApplyAll(map[], lower, Verbatim());
    if below.0.Ok? {
      Configs.SingleLayer(below.1, e, Verbatim());
      Configs.AvailableNotDunder("store_result");
      Configs.AvailableNotDunder("run_id");
      ExportApplies(below.1, a);
    }
  }

  /** Both available keys, given last, overwrite whatever was there. */
  lemma ExportApplies(b: Configs.Attrs, a: Configs.Attrs)
    requires a.Keys == Configs.Available && b.Keys <= Configs.Available
    requires !Configs.Dunder("store_result") && !Configs.Dunder("run_id")
    ensures var e := [("store_result", a["store_result"]), ("run_id", a["run_id"])];
      Configs.ApplyDict(b, e, Verbatim()) == (Ok(()), a)
  {
    var e := [("store_result", a["store_result"]), ("run_id", a["run_id"])];
    assert e[1..] == [("run_id", a["run_id"])];
    assert e[1..][1..] == [];
    var b1 := b["store_result" := a["store_result"]];
    assert Configs.ApplyDict(b, e, Verbatim()) == Configs.ApplyDict(b1, e[1..], Verbatim());
    var b2 := b1["run_id" := a["run_id"]];
    assert Configs.ApplyDict(b1, e[1..], Verbatim()) == Configs.ApplyDict(b2, [], Verbatim());
    assert b2 == a;
  }

  /**
   * A sub-flow's `_ff_config` as the rebuild passes it back as `config`: a
   * YourFlow's as it is; a Pipeline's Config object, which its constructor
   * would refuse, as the dict of its values (the correction; see
   * `RebuildConfig`).
   */
  function Rebuilt(kind: Kind, s: Settings): ConfigArg
    reads if s.ConfigObject? then {s.c} else {}
  {
    match s
    case ConfigObject(c) => if kind == PipelineKind then GivenDict(Export(c.attrs)) else GivenConfig(c)
    case ConfigDict(d) => GivenDict(d)
  }

  /** The `_ff_config` a YourFlow keeps from its `config` argument: `{}` for none, a path's decoded dict. */
  function YourSettings(config: ConfigArg): Result<Settings>
  {
    match config
    case NoConfig => Ok(ConfigDict([]))
    case GivenDict(d) => Ok(ConfigDict(d))
    case GivenConfig(c) => Ok(ConfigObject(c))
    case GivenPath(_, loaded) => if loaded.Ok? then Ok(ConfigDict(loaded.value)) else Err(loaded.error)
  }

  /** The routing keys `__call__` pops, in order. */
  function RoutingKeys(kind: Kind): seq<string>
  {
    ["_ff_from", "_ff_to", "_ff_from_cache"] + (if kind == YourFlowKind then ["_ff_cache_dir"] else [])
  }

  /** What `__call__` writes to the global scope from the routing keys, in order. */
  function RoutingWrites(kind: Kind, kwargs: Entries): seq<(string, Value)>
  {
    FromWrites(kwargs) + ToWrites(kwargs) + CacheWrites(kind, kwargs)
  }

  /** A truthy `_ff_from` is recorded, and turns `good_to_run` off. */
  function FromWrites(kwargs: Entries): seq<(string, Value)>
  {
    var from := GetOr(kwargs, "_ff_from", PyNone);
    if Truthy(from) then [("from", from), ("good_to_run", Bool(false))] else []
  }

  function ToWrites(kwargs: Entries): seq<(string, Value)>
  {
    var to := GetOr(kwargs, "_ff_to", PyNone);
    if Truthy(to) then [("to", to)] else []
  }

  function CacheWrites(kind: Kind, kwargs: Entries): seq<(string, Value)>
  {
    var cache := GetOr(kwargs, "_ff_from_cache", PyNone);
    var cacheDir := GetOr(kwargs, "_ff_cache_dir", PyNone);
    (if Truthy(cache) then [("cache", cache)] else []) +
    (if kind == YourFlowKind && Truthy(cacheDir) then [("cache_dir", cacheDir)] else [])
  }

  /** The global scope after `writes`, in order. */
  function Applied(values: map<(Option<string>, string), Value>, writes: seq<(string, Value)>): map<(Option<string>, string), Value>
    decreases |writes|
  {
    if |writes| == 0 then values else Applied(values[(None, writes[0].0) := writes[0].1], writes[1..])
  }

  /** `kwargs` with `keys` popped, one after the other. */
  function Without(kwargs: Entries, keys: seq<string>): Entries
    decreases |keys|
  {
    if |keys| == 0 then kwargs else Without(Remove(kwargs, keys[0]), keys[1..])
  }

  /**
   * The run's name: a root keeps the name given (`""` by default); a
   * nested flow needs one and puts its prefix before it.
   */
  function CallName(prefix: Option<string>, name: string): Result<string>
  {
    match prefix
    case None => Ok(name)
    case Some(p) => if name == "" then Raise(AttributeError, "Must provide _ff_name") else Ok(p + "." + name)
  }

  /** What `__call__` stores under the run's name: input and output (Pipeline), or the bare output (YourFlow). */
  function Record(kind: Kind, args: seq<Value>, kwargs: Entries, out: Value): Value
  {
    match kind
    case PipelineKind => Dict([("input", Dict([("args", Tuple(args)), ("kwargs", Dict(kwargs))])), ("output", out)])
    case YourFlowKind => out
  }

  /** Popping a key keeps the other keys distinct. */
  lemma {:induction false} RemoveDistinct(d: Entries, k: string)
    requires DistinctKeys(d)
    ensures DistinctKeys(Remove(d, k))
    decreases |d|
  {
    DistinctKeysIff(d);
    if |d| > 0 && d[0].0 != k {
      var r := Remove(d, k);
      RemoveDistinct(d[1..], k);
      assert r[1..] == Remove(d[1..], k);
      assert Get(r[1..], d[0].0) == Get(d[1..], d[0].0);
      DistinctKeysIff(r);
    }
  }

  /**
   * What `run` receives: the popped keys are gone and every other key keeps
   * its value.
   */
  lemma {:induction false} Stripped(kwargs: Entries, keys: seq<string>)
    requires DistinctKeys(kwargs)
    ensures DistinctKeys(Without(kwargs, keys))
    ensures forall k :: k in keys ==> !HasKey(Without(kwargs, keys), k)
    ensures forall k :: k !in keys ==> Get(Without(kwargs, keys), k) == Get(kwargs, k)
    decreases |keys|
  {
    if |keys| > 0 {
      var d := Remove(kwargs, keys[0]);
      RemoveDistinct(kwargs, keys[0]);
      Stripped(d, keys[1..]);
      var w := Without(kwargs, keys);
      forall k | k in keys ensures !HasKey(w, k) {
        if k !in keys[1..] {
          assert k == keys[0];
          assert Get(w, k) == Get(d, k);
        }
      }
      forall k | k !in keys ensures Get(w, k) == Get(kwargs, k) {
        assert k !in keys[1..] && k != keys[0];
      }
    }
  }

  /** The call's name is the prefix's segments followed by the given name's. */
  lemma CallNameSplit(prefix: Option<string>, name: string)
    ensures CallName(prefix, name).Ok? <==> prefix.None? || name != ""
    ensures prefix.Some? && name != "" ==>
      Split(CallName(prefix, name).value, '.') == Split(prefix.value, '.') + Split(name, '.')
  {
    if prefix.Some? && name != "" {
      SplitSep(prefix.value, '.', name);
    }
  }

  /** Splitting at a separator put between two strings splits each of them. */
  lemma {:induction false} SplitSep(p: string, sep: char, t: string)
    ensures Split(p + [sep] + t, sep) == Split(p, sep) + Split(t, sep)
    decreases |p|
  {
    var s := p + [sep] + t;
    if |p| == 0 {
      assert s[1..] == t;
    } else {
      assert s[0] == p[0] && s[1..] == p[1..] + [sep] + t;
      SplitSep(p[1..], sep, t);
      var a := Split(p[1..], sep);
      var b := Split(t, sep);
      var rest := Split(s[1..], sep);
      assert rest == a + b;
      if p[0] == sep {
        assert Split(p, sep) == [""] + a;
        assert Split(s, sep) == [""] + rest;
        ConsAssoc("", a, b);
      } else {
        assert Split(p, sep) == [[p[0]] + a[0]] + a[1..];
        assert Split(s, sep) == [[p[0]] + rest[0]] + rest[1..];
        assert rest[0] == a[0];
        assert rest[1..] == a[1..] + b;
        ConsAssoc([p[0]] + a[0], a[1..], b);
      }
    }
  }

  lemma ConsAssoc<T>(x: T, u: seq<T>, v: seq<T>)
    ensures [x] + (u + v) == ([x] + u) + v
  {
  }

  /** The value the last of `writes` to `k` writes, if any. */
  function LastWrite(writes: seq<(string, Value)>, k: string): Option<Value>
    decreases |writes|
  {
    if |writes| == 0 then None
    else if LastWrite(writes[1..], k).Some? then LastWrite(writes[1..], k)
    else if writes[0].0 == k then Some(writes[0].1)
    else None
  }

  /** After the writes, a global name holds its last write; everything else is as before. */
  lemma {:induction false} AppliedLast(values: map<(Option<string>, string), Value>, writes: seq<(string, Value)>,
                                       key: (Option<string>, string))
    ensures var w := if key.0.None? then LastWrite(writes, key.1) else None;
      (w.Some? ==> key in Applied(values, writes) && Applied(values, writes)[key] == w.value) &&
      (w.None? ==>
        (key in Applied(values, writes) <==> key in values) &&
        (key in values ==> Applied(values, writes)[key] == values[key]))
    decreases |writes|
  {
    if |writes| > 0 {
      AppliedLast(values[(None, writes[0].0) := writes[0].1], writes[1..], key);
    }
  }

  lemma {:induction false} LastWriteAppend(a: seq<(string, Value)>, b: seq<(string, Value)>, k: string)
    ensures LastWrite(a + b, k) == if LastWrite(b, k).Some? then LastWrite(b, k) else LastWrite(a, k)
    decreases |a|
  {
    if |a| == 0 {
      assert a + b == b;
    } else {
      assert (a + b)[1..] == a[1..] + b;
      LastWriteAppend(a[1..], b, k);
    }
  }

  /**
   * A truthy `_ff_from` turns `good_to_run` off and records where to start;
   * without one, both names keep whatever the global scope held.
   */
  lemma RoutingFrom(kind: Kind, kwargs: Entries, values: map<(Option<string>, string), Value>)
    ensures var from := GetOr(kwargs, "_ff_from", PyNone);
      var routed := Applied(values, RoutingWrites(kind, kwargs));
      (Truthy(from) ==>
        (None, "good_to_run") in routed && routed[(None, "good_to_run")] == Bool(false) &&
        (None, "from") in routed && routed[(None, "from")] == from) &&
      (!Truthy(from) ==> forall k :: k in ["good_to_run", "from"] ==>
        ((None, k) in routed <==> (None, k) in values) && ((None, k) in values ==> routed[(None, k)] == values[(None, k)]))
  {
    var ws := RoutingWrites(kind, kwargs);
    var head := FromWrites(kwargs);
    var tail := ToWrites(kwargs) + CacheWrites(kind, kwargs);
    assert ws == head + tail;
    forall k | k in ["good_to_run", "from"] ensures LastWrite(tail, k).None? {
      TailWrites(kind, kwargs, k);
    }
    LastWriteAppend(head, tail, "good_to_run");
    LastWriteAppend(head, tail, "from");
    AppliedLast(values, ws, (None, "good_to_run"));
    AppliedLast(values, ws, (None, "from"));
    if |head| > 0 {
      assert head[1..] == [("good_to_run", Bool(false))];
      assert head[1..][1..] == [];
    }
  }

  /** The writes after the `_ff_from` ones touch neither `from` nor `good_to_run`. */
  lemma TailWrites(kind: Kind, kwargs: Entries, k: string)
    requires k in ["good_to_run", "from"]
    ensures LastWrite(ToWrites(kwargs) + CacheWrites(kind, kwargs), k).None?
  {
    var cache := GetOr(kwargs, "_ff_from_cache", PyNone);
    var cacheDir := GetOr(kwargs, "_ff_cache_dir", PyNone);
    var c1: seq<(string, Value)> := if Truthy(cache) then [("cache", cache)] else [];
    var c2: seq<(string, Value)> := if kind == YourFlowKind && Truthy(cacheDir) then [("cache_dir", cacheDir)] else [];
    NoWrite(ToWrites(kwargs), k);
    NoWrite(c1, k);
    NoWrite(c2, k);
    LastWriteAppend(c1, c2, k);
    LastWriteAppend(ToWrites(kwargs), c1 + c2, k);
  }

  lemma {:induction false} NoWrite(ws: seq<(string, Value)>, k: string)
    requires forall i :: 0 <= i < |ws| ==> ws[i].0 != k
    ensures LastWrite(ws, k).None?
    decreases |ws|
  {
    if |ws| > 0 {
      NoWrite(ws[1..], k);
    }
  }

  /** Where setting `_ff_prefix` on a member lands: a flow's prefix, a wrapper's prefix, or an object not tracked. */
  function PrefixFlow(m: Member): Option<Flow>
  {
    match m
    case Sub(f) => Some(f)
    case Kept(FlowOf(f)) => Some(f)
    case _ => None
  }

  function PrefixWrapper(m: Member): Option<StepWrapper>
  {
    match m
    case Wrapped(w) => Some(w)
    case Kept(WrapperOf(w)) => Some(w)
    case _ => None
  }

  /** Builtin values refuse new attributes; functions, classes and other objects take them. */
  predicate TakesAttribute(m: Member)
  {
    !m.Kept? || !m.a.Given? || m.a.v.Func? || m.a.v.Class? || m.a.v.Object?
  }

  /** The names of the assignments, in order. */
  function Names(steps: seq<(string, Assigned)>): (r: seq<string>)
    ensures |r| == |steps| && forall i :: 0 <= i < |steps| ==> r[i] == steps[i].0
  {
    if |steps| == 0 then [] else [steps[0].0] + Names(steps[1..])
  }

  /** None of the assignments touches the two flags. */
  predicate NoFlags(steps: seq<(string, Assigned)>)
  {
    forall i :: 0 <= i < |steps| ==> steps[i].0 != InitCalledFlag && steps[i].0 != InitializingFlag
  }

  /** The objects a member holds. */
  function Objs(m: Member): set<object>
  {
    match m
    case Sub(f) => {f}
    case Wrapped(w) => {w}
    case Kept(FlowOf(f)) => {f}
    case Kept(WrapperOf(w)) => {w}
    case Kept(Given(_)) => {}
  }

  /** The Config object a member's flow holds as `_ff_config`, if any. */
  function ConfigObjs(m: Member): set<object>
    reads Objs(m)
  {
    match m
    case Sub(f) => if f.config.ConfigObject? then {f.config.c} else {}
    case Kept(FlowOf(f)) => if f.config.ConfigObject? then {f.config.c} else {}
    case _ => {}
  }

  class Flow {
    const spec: FlowSpec
    /** The importer `parse_callbacks` uses. */
    const resolve: string -> Result<Value>
    /** `_ff_init_called` and `_ff_initializing`, by their truthiness. */
    var initCalled: bool
    var initializing: bool
    var kwargs: Option<Entries>
    var config: Settings
    var context: FlowContext
    /** `_ff_nodes`: the registered step names, in order. */
    var nodes: seq<string>
    /** The other attributes assigned through `__setattr__`. */
    var members: map<string, Member>
    var prefix: Option<string>
    /** `_is_pipeline_nested` (Pipeline only). */
    var nested: bool

    /** The object before its `__init__` runs: both flags at their class default, `False`. */
    constructor Blank(spec: FlowSpec, resolve: string -> Result<Value>)
      ensures this.spec == spec && this.resolve == resolve
      ensures !initCalled && !initializing && nodes == [] && members == map[] && prefix == None && !nested
    {
      this.spec := spec;
      this.resolve := resolve;
      initCalled := false;
      initializing := false;
      kwargs := None;
      config := ConfigDict([]);
      context := new FlowContext();
      nodes := [];
      members := map[];
      prefix := None;
      nested := false;
    }

    function Kind(): Kind
    {
      spec.kind
    }

    /**
     * `__setattr__(name, value)`.  The two flags are set as given; before
     * `__init__` has set `_ff_init_called` anything else raises; inside
     * `initialize` the name is checked, registered, and the value wrapped;
     * outside it the value is stored as given.
     */
    method SetAttr(name: string, value: Assigned, fuel: nat) returns (r: Result<()>)
      modifies this`initCalled, this`initializing, this`nodes, this`members
      ensures name == InitCalledFlag ==>
        r.Ok? && initCalled == AssignedTruthy(value) &&
        initializing == old(initializing) && nodes == old(nodes) && members == old(members)
      ensures name == InitializingFlag ==>
        r.Ok? && initializing == AssignedTruthy(value) &&
        initCalled == old(initCalled) && nodes == old(nodes) && members == old(members)
      ensures name != InitCalledFlag && name != InitializingFlag ==> initCalled == old(initCalled) && initializing == old(initializing)
      ensures name != InitCalledFlag && name != InitializingFlag && !old(initCalled) ==>
        r == Raise(AttributeError, InitMessage) && nodes == old(nodes) && members == old(members)
      ensures name != InitCalledFlag && name != InitializingFlag && old(initCalled) && !old(initializing) ==>
        r.Ok? && nodes == old(nodes) && members == old(members)[name := Kept(value)]
      ensures name != InitCalledFlag && name != InitializingFlag && old(initCalled) && old(initializing) ==>
        Registering(old(nodes), old(members), name, value, r) &&
        (r.Ok? && name in members && Refusal(Kind(), old(nodes), name).None? ==> fresh(Objs(members[name])))
      ensures Registry(Kind(), old(nodes)) ==> Registry(Kind(), nodes)
      decreases fuel, 2
    {
      if name == InitCalledFlag {
        initCalled := AssignedTruthy(value);
        r := Ok(());
      } else if name == InitializingFlag {
        initializing := AssignedTruthy(value);
        r := Ok(());
      } else if !initCalled {
        r := Raise(AttributeError, InitMessage);
      } else if !initializing {
        members := members[name := Kept(value)];
        r := Ok(());
      } else {
        r := Register(name, value, fuel);
      }
    }

    /**
     * What registering `name` did: a refused name raises and changes
     * nothing; an accepted one is appended to the nodes, and the attribute
     * holds its wrapper unless wrapping raised.
     */
    ghost predicate Registering(nodes0: seq<string>, members0: map<string, Member>, name: string, value: Assigned, r: Result<()>)
      reads this, (if name in members then Objs(members[name]) else {}), Objs(Kept(value))
      reads (if name in members then ConfigObjs(members[name]) else {}), ConfigObjs(Kept(value))
    {
      match Refusal(Kind(), nodes0, name)
      case Some(m) => r == Raise(AttributeError, m) && nodes == nodes0 && members == members0
      case None =>
        nodes == nodes0 + [name] &&
        (r.Ok? ==> name in members && members == members0[name := members[name]] && Wraps(value, members[name])) &&
        (r.Err? ==> members == members0 && value.FlowOf? && value.f.Kind() == Kind())
    }

    /**
     * How a registered value is wrapped: a flow of the same base is rebuilt
     * from its class, kwargs and config with this flow's context (a
     * Pipeline is then marked nested); a StepWrapper's object and anything
     * else go into a new StepWrapper sharing this flow's config and context.
     * A rebuilt YourFlow shares the sub-flow's config; a rebuilt Pipeline
     * has a config of its own whose values, once callbacks are parsed, come
     * from the sub-flow's values.
     */
    ghost predicate Wraps(value: Assigned, m: Member)
      reads this, Objs(m), Objs(Kept(value)), ConfigObjs(m), ConfigObjs(Kept(value))
    {
      if value.FlowOf? && value.f.Kind() == Kind() then
        m.Sub? && m.f.spec == value.f.spec && m.f.kwargs == value.f.kwargs &&
        m.f.context == context && m.f.nested == (Kind() == PipelineKind) && m.f.prefix == None &&
        (Kind() == YourFlowKind ==> m.f.config == value.f.config) &&
        (Kind() == PipelineKind ==>
          m.f.config.ConfigObject? && m.f.config.c.Valid() &&
          (value.f.config.ConfigObject? && value.f.config.c.Valid() ==>
            ParsedFrom(value.f.config.c.attrs, m.f.config.c.attrs, resolve)))
      else
        m.Wrapped? && m.w.config == config && m.w.context == context && m.w.prefix == "" &&
        m.w.obj == (if value.WrapperOf? then value.w.obj else value)
    }

    /** The registering branch of `__setattr__`. */
    method Register(name: string, value: Assigned, fuel: nat) returns (r: Result<()>)
      modifies this`nodes, this`members
      ensures Registering(old(nodes), old(members), name, value, r)
      ensures r.Ok? && name in members && Refusal(Kind(), old(nodes), name).None? ==> fresh(Objs(members[name]))
      ensures Registry(Kind(), old(nodes)) ==> Registry(Kind(), nodes)
      decreases fuel, 1
    {
      var refused := Refusal(Kind(), nodes, name);
      if refused.Some? {
        r := Raise(AttributeError, refused.value);
      } else {
        if Registry(Kind(), nodes) {
          RegisterKeeps(Kind(), nodes, name);
        }
        nodes := nodes + [name];
        var m := Wrap(value, fuel);
        if m.Err? {
          r := Err(m.error);
        } else {
          members := members[name := m.value];
          r := Ok(());
        }
      }
    }

    /** The value an accepted step is stored as. */
    method Wrap(value: Assigned, fuel: nat) returns (r: Result<Member>)
      ensures r.Ok? ==> fresh(Objs(r.value)) && Wraps(value, r.value)
      ensures r.Err? ==> value.FlowOf? && value.f.Kind() == Kind()
      decreases fuel, 0
    {
      if value.FlowOf? && value.f.Kind() == Kind() {
        if fuel == 0 {
          r := Raise(RecursionError, "maximum recursion depth exceeded");
        } else {
          if Kind() == PipelineKind && value.f.config.ConfigObject? && value.f.config.c.Valid() {
            ExportLast(value.f.config.c.attrs, value.f.spec.mro);
          }
          var f := NewFlow(value.f.spec, value.f.kwargs, Rebuilt(Kind(), value.f.config), Some(context), resolve, fuel - 1);
          if f.Err? {
            r := Err(f.error);
          } else {
            if Kind() == PipelineKind {
              var _ := f.value.IsPipelineNested(Some(true));
            }
            r := Ok(Sub(f.value));
          }
        }
      } else {
        var obj := if value.WrapperOf? then value.w.obj else value;
        var w := new StepWrapper(obj, config, context);
        r := Ok(Wrapped(w));
      }
    }

    /**
     * `__init__(kwargs=..., config=..., context=...)` on a blank object:
     * the config (built from the class for a Pipeline, kept as given for a
     * YourFlow), the context (a fresh one when none is given), then
     * `_ff_initialize`: callbacks parsed (Pipeline), and `initialize` run
     * with the registering flag up.
     */
    method Init(kwargs: Option<Entries>, config: ConfigArg, context: Option<FlowContext>, fuel: nat) returns (r: Result<()>)
      requires !initCalled && !initializing && nodes == [] && members == map[]
      modifies this
      ensures spec.steps.None? ==> r.Err?
      ensures r.Ok? ==> !initializing && prefix == None && !nested && this.kwargs == kwargs
      ensures r.Ok? ==> (context.Some? ==> this.context == context.value)
      ensures r.Ok? ==>
        Registry(Kind(), nodes) && spec.steps.Some? &&
        (NoFlags(spec.steps.value) ==> initCalled && nodes == Names(spec.steps.value))
      ensures Kind() == PipelineKind && r.Ok? ==>
        !Refused(config) && Layered(config, spec.mro).0.Ok? &&
        this.config.ConfigObject? && fresh(this.config.c) && this.config.c.Valid() &&
        ParsedFrom(Layered(config, spec.mro).1, this.config.c.attrs, resolve)
      ensures Kind() == PipelineKind && !Refused(config) && Layered(config, spec.mro).0.Err? ==>
        r == Err(Layered(config, spec.mro).0.error)
      ensures Kind() == YourFlowKind && YourSettings(config).Err? ==> r == Err(YourSettings(config).error)
      ensures Kind() == YourFlowKind && r.Ok? ==> YourSettings(config) == Ok(this.config)
      decreases fuel, 6
    {
      initCalled := true;
      this.kwargs := kwargs;
      r := Configure(config);
      if r.Ok? {
        r := Start(context, fuel);
      }
    }

    /** The rest of `__init__` once `_ff_config` is set: the context, the nodes, `_ff_initialize`, the prefix and the nesting flag. */
    method Start(context: Option<FlowContext>, fuel: nat) returns (r: Result<()>)
      requires initCalled && !initializing && members == map[]
      requires Kind() == PipelineKind ==> config.ConfigObject? && config.c.Valid()
      modifies this`context, this`initCalled, this`initializing, this`nodes, this`members, this`prefix, this`nested,
        if Kind() == PipelineKind && config.ConfigObject? then {config.c} else {}
      ensures spec.steps.None? ==> r.Err?
      ensures r.Ok? ==> !initializing && prefix == None && !nested
      ensures r.Ok? ==> (context.Some? ==> this.context == context.value)
      ensures r.Ok? ==>
        Registry(Kind(), nodes) && spec.steps.Some? &&
        (NoFlags(spec.steps.value) ==> initCalled && nodes == Names(spec.steps.value))
      ensures Kind() == PipelineKind && r.Ok? ==>
        config.c.Valid() && ParsedFrom(old(config.c.attrs), config.c.attrs, config.c.resolve)
      decreases fuel, 5
    {
      if context.Some? {
        this.context := context.value;
      } else {
        this.context := new FlowContext();
      }
      nodes := [];
      r := Initialize(fuel);
      prefix := None;
      nested := false;
    }

    /**
     * `_ff_config` as `__init__` sets it: a Config object layered from the
     * defaults, the class and the argument (Pipeline); the argument itself,
     * `{}` for none and a path's decoded dict (YourFlow).
     */
    method Configure(config: ConfigArg) returns (r: Result<()>)
      modifies this`config
      ensures Kind() == PipelineKind && Refused(config) ==> r.Err?
      ensures Kind() == PipelineKind && !Refused(config) ==>
        (r.Ok? <==> Layered(config, spec.mro).0.Ok?) &&
        (r.Err? ==> r.error == Layered(config, spec.mro).0.error)
      ensures Kind() == PipelineKind && r.Ok? ==>
        this.config.ConfigObject? && fresh(this.config.c) && this.config.c.Valid() &&
        this.config.c.attrs == Layered(config, spec.mro).1 && this.config.c.resolve == resolve
      ensures Kind() == YourFlowKind ==>
        (r.Ok? <==> YourSettings(config).Ok?) && (r.Err? ==> r.error == YourSettings(config).error) &&
        (r.Ok? ==> this.config == YourSettings(config).value)
    {
      r := Ok(());
      if Kind() == PipelineKind {
        var c := PipelineConfig(config, spec.mro, resolve);
        if c.Err? {
          r := Err(c.error);
        } else {
          this.config := ConfigObject(c.value);
        }
      } else {
        var s := YourSettings(config);
        if s.Err? {
          r := Err(s.error);
        } else {
          this.config := s.value;
        }
      }
    }

    /** `_ff_initialize()`. */
    method Initialize(fuel: nat) returns (r: Result<()>)
      requires initCalled && !initializing && nodes == [] && members == map[]
      requires Kind() == PipelineKind ==> config.ConfigObject? && config.c.Valid()
      modifies this`initCalled, this`initializing, this`nodes, this`members,
        if Kind() == PipelineKind && config.ConfigObject? then {config.c} else {}
      ensures spec.steps.None? ==> r.Err?
      ensures r.Ok? ==>
        !initializing && Registry(Kind(), nodes) && spec.steps.Some? &&
        (NoFlags(spec.steps.value) ==> initCalled && nodes == Names(spec.steps.value))
      ensures Kind() == PipelineKind && r.Ok? ==>
        config.c.Valid() && ParsedFrom(old(config.c.attrs), config.c.attrs, config.c.resolve)
      decreases fuel, 4
    {
      initializing := true;
      r := Ok(());
      if Kind() == PipelineKind {
        r := config.c.ParseCallbacks();
      }
      if r.Ok? {
        if spec.steps.None? {
          r := Raise(NotImplementedError, "Please declare your steps in `initialize`");
        } else {
          r := RunSteps(spec.steps.value, fuel);
          if r.Ok? {
            initializing := false;
          }
        }
      }
    }

    /** The body of a subclass's `initialize`: its assignments in order, the first raise ending it. */
    method RunSteps(steps: seq<(string, Assigned)>, fuel: nat) returns (r: Result<()>)
      requires initCalled && initializing && nodes == []
      modifies this`initCalled, this`initializing, this`nodes, this`members
      ensures r.Ok? ==> Registry(Kind(), nodes) && (NoFlags(steps) ==> initCalled && initializing && nodes == Names(steps))
      decreases fuel, 3
    {
      r := Ok(());
      var i := 0;
      while i < |steps| && r.Ok?
        invariant 0 <= i <= |steps|
        invariant r.Ok? ==> Registry(Kind(), nodes) && (NoFlags(steps[..i]) ==> initCalled && initializing && nodes == Names(steps[..i]))
      {
        var (name, value) := steps[i];
        ghost var before := nodes;
        assert steps[..i + 1] == steps[..i] + [steps[i]];
        assert Names(steps[..i + 1]) == Names(steps[..i]) + [name];
        r := SetAttr(name, value, fuel);
        i := i + 1;
      }
      if r.Ok? {
        assert steps[..i] == steps;
      }
    }

    /** `is_pipeline_nested(is_nested)`: sets the flag when given one, and returns it. */
    method IsPipelineNested(isNested: Option<bool>) returns (b: bool)
      modifies this`nested
      ensures isNested.Some? ==> nested == isNested.value
      ensures isNested.None? ==> nested == old(nested)
      ensures b == nested
    {
      if isNested.Some? {
        nested := isNested.value;
      }
      b := nested;
    }

    /** The flows whose prefix `__call__` sets. */
    function PrefixFlows(): set<Flow>
      reads this`nodes, this`members
    {
      set n | n in nodes && n in members && PrefixFlow(members[n]).Some? :: PrefixFlow(members[n]).value
    }

    /** The wrappers whose prefix `__call__` sets. */
    function PrefixWrappers(): set<StepWrapper>
      reads this`nodes, this`members
    {
      set n | n in nodes && n in members && PrefixWrapper(members[n]).Some? :: PrefixWrapper(members[n]).value
    }

    /** Node `n` holds an object that takes the new prefix. */
    predicate Settable(n: string)
      reads this`members
    {
      n in members && TakesAttribute(members[n])
    }

    /** Node `n` now carries prefix `name`, wherever its member keeps one. */
    predicate Prefixed(n: string, name: string)
      reads this`nodes, this`members, PrefixFlows(), PrefixWrappers()
    {
      n in members &&
      (PrefixFlow(members[n]).Some? && n in nodes ==> PrefixFlow(members[n]).value.prefix == Some(name)) &&
      (PrefixWrapper(members[n]).Some? && n in nodes ==> PrefixWrapper(members[n]).value.prefix == name)
    }

    /** The loop of `__call__` that sets `_ff_prefix` on every step; a builtin or missing step raises AttributeError there. */
    method PushPrefix(name: string) returns (r: Result<()>)
      modifies PrefixFlows()`prefix, PrefixWrappers()`prefix
      ensures r.Ok? <==> forall n :: n in nodes ==> Settable(n)
      ensures r.Ok? ==> forall n :: n in nodes ==> Prefixed(n, name)
      ensures r.Err? ==> r.error.kind == AttributeError
    {
      r := Ok(());
      var k := 0;
      while k < |nodes| && r.Ok?
        invariant 0 <= k <= |nodes|
        invariant forall m :: 0 <= m < k ==> Settable(nodes[m]) && Prefixed(nodes[m], name)
        invariant r.Err? ==> r.error.kind == AttributeError && k < |nodes| && !Settable(nodes[k])
        decreases |nodes| - k, if r.Ok? then 1 else 0
      {
        var n := nodes[k];
        if n !in members || !TakesAttribute(members[n]) {
          r := Raise(AttributeError, n);
        } else {
          var m := members[n];
          if PrefixFlow(m).Some? {
            PrefixFlow(m).value.prefix := Some(name);
          } else if PrefixWrapper(m).Some? {
            PrefixWrapper(m).value.prefix := name;
          }
          k := k + 1;
        }
      }
    }

    /**
     * `__call__(*args, **kwargs)`: the routing keys are popped and written
     * to the global scope, the run is named and the name pushed to the
     * steps, `run` is called with what is left, and its result recorded
     * under the name.  `run` stands for the subclass's `run` body.
     */
    method Call(args: seq<Value>, kwargs: Entries, name: string, run: (seq<Value>, Entries) -> Result<Value>)
      returns (r: Result<Value>)
      requires DistinctKeys(kwargs)
      modifies context`values, PrefixFlows()`prefix, PrefixWrappers()`prefix
      ensures var named := CallName(old(prefix), name);
        var rest := Without(kwargs, RoutingKeys(Kind()));
        var routed := Applied(old(context.values), RoutingWrites(Kind(), kwargs));
        (named.Err? ==> r == Err(named.error) && context.values == routed) &&
        (r.Ok? ==>
          named.Ok? && r == run(args, rest) &&
          context.values == routed[(None, named.value) := Record(Kind(), args, rest, r.value)] &&
          forall n :: n in nodes ==> Prefixed(n, named.value))
    {
      var kind := Kind();
      Route(RoutingWrites(kind, kwargs));
      var rest := Without(kwargs, RoutingKeys(kind));
      var named := CallName(prefix, name);
      if named.Err? {
        r := Err(named.error);
      } else {
        r := Run(args, rest, named.value, run);
      }
    }

    /** The part of `__call__` after the run is named: prefixes pushed, `run` called, its record stored. */
    method Run(args: seq<Value>, rest: Entries, name: string, run: (seq<Value>, Entries) -> Result<Value>)
      returns (r: Result<Value>)
      modifies context`values, PrefixFlows()`prefix, PrefixWrappers()`prefix
      ensures r.Err? ==> context.values == old(context.values)
      ensures r.Ok? ==>
        r == run(args, rest) && context.values == old(context.values)[(None, name) := Record(Kind(), args, rest, r.value)] &&
        forall n :: n in nodes ==> Prefixed(n, name)
    {
      var pushed := PushPrefix(name);
      if pushed.Err? {
        r := Err(pushed.error);
      } else {
        r := run(args, rest);
        if r.Ok? {
          context.Set(name, Record(Kind(), args, rest, r.value), None);
        }
      }
    }

    /** The routing writes, in order. */
    method Route(writes: seq<(string, Value)>)
      modifies context`values
      ensures context.values == Applied(old(context.values), writes)
    {
      var i := 0;
      while i < |writes|
        invariant 0 <= i <= |writes|
        invariant Applied(context.values, writes[i..]) == Applied(old(context.values), writes)
      {
        assert writes[i..][1..] == writes[i + 1..];
        context.Set(writes[i].0, writes[i].1, None);
        i := i + 1;
      }
    }
  }

  /**
   * `cls(kwargs=..., config=..., context=...)`: a blank object put through
   * `__init__`; `fuel` bounds how deep sub-flows are rebuilt.
   */
  method NewFlow(spec: FlowSpec, kwargs: Option<Entries>, config: ConfigArg, context: Option<FlowContext>,
                 resolve: string -> Result<Value>, fuel: nat)
    returns (r: Result<Flow>)
    ensures r.Ok? ==> fresh(r.value) && r.value.spec == spec && r.value.resolve == resolve
    ensures r.Ok? ==> !r.value.initializing && r.value.prefix == None && !r.value.nested
    ensures r.Ok? ==> r.value.kwargs == kwargs && (context.Some? ==> r.value.context == context.value)
    ensures r.Ok? ==>
      Registry(spec.kind, r.value.nodes) && spec.steps.Some? &&
      (NoFlags(spec.steps.value) ==> r.value.initCalled && r.value.nodes == Names(spec.steps.value))
    ensures spec.steps.None? ==> r.Err?
    ensures spec.kind == PipelineKind && r.Ok? ==>
      !Refused(config) && Layered(config, spec.mro).0.Ok? &&
      r.value.config.ConfigObject? && fresh(r.value.config.c) && r.value.config.c.Valid() &&
      ParsedFrom(Layered(config, spec.mro).1, r.value.config.c.attrs, resolve)
    ensures spec.kind == PipelineKind && !Refused(config) && Layered(config, spec.mro).0.Err? ==>
      r == Err(Layered(config, spec.mro).0.error)
    ensures spec.kind == YourFlowKind && YourSettings(config).Err? ==> r == Err(YourSettings(config).error)
    ensures spec.kind == YourFlowKind && r.Ok? ==> YourSettings(config) == Ok(r.value.config)
    decreases fuel, 7
  {
    var f := new Flow.Blank(spec, resolve);
    var x := f.Init(kwargs, config, context, fuel);
    r := if x.Ok? then Ok(f) else Err(x.error);
  }
}
