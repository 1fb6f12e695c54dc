/**
 * The middleware wrapped around a component's run: memoising cache,
 * progress tracking, and skipping of components before a `from` point.
 *
 * A middleware sees the component it wraps through `Component`: its context,
 * the run-state view of the calling thread, its class name, `dump()` and
 * `config.dump()`.  `next_call` is an abstract function of the run's
 * arguments; a ghost counter records how often a middleware invokes it.
 */
module Middlewares {
  import opened Wrappers
  import opened PyValues
  import opened Contexts
  import opened Backends
  import Paths
  import Runs
  import Hashes

  /** The next layer of the chain, down to the component's own `run`. */
  type Next = (seq<Value>, Entries) -> Result<Value>

  /** The component a middleware wraps, as the middleware sees it. */
  class Component {
    const context: Context
    /** `obj.fl` as the calling thread sees it. */
    const fl: View
    const className: string
    /** `obj.dump()`, which may raise. */
    const dump: Result<Value>
    /** `obj.config.dump()`. */
    const configDump: Value
    var lastRun: Option<Runs.RunTracker>

    constructor(context: Context, fl: View, className: string, dump: Result<Value>, configDump: Value)
      ensures this.context == context && this.fl == fl && this.className == className
      ensures this.dump == dump && this.configDump == configDump && lastRun == None
    {
      this.context := context;
      this.fl := fl;
      this.className := className;
      this.dump := dump;
      this.configDump := configDump;
      lastRun := None;
    }
  }

  /** `Middleware.__init__`: every middleware needs the component it wraps. */
  function Init(obj: Option<Component>): (r: Result<Component>)
    ensures r.Ok? <==> obj.Some?
    ensures r.Ok? ==> r.value == obj.value
    ensures r.Err? ==> r.error.kind == ValueError
  {
    if obj.None? then Raise(ValueError, "obj must be specified") else Ok(obj.value)
  }

  /** The progress scope `obj.log_progress` writes to. */
  function ProgressOf(fl: View): string
  {
    Runs.ProgressKey(fl.flowName, fl.runId, "__progress__")
  }

  /** The scope holding the previous run's progress. */
  function FromRunOf(fl: View): string
  {
    Runs.ProgressKey(fl.flowName, fl.runId, "__from_run__")
  }

  /** `obj.log_progress(name, **kwargs)`. */
  function Log(store: Store, fl: View, name: string, kwargs: Entries): Result<Store>
  {
    Runs.LogIn(store, ProgressOf(fl), name, kwargs)
  }

  method LogProgress(obj: Component, name: string, kwargs: Entries) returns (r: Result<()>)
    modifies obj.context
    ensures Log(old(obj.context.cache), obj.fl, name, kwargs).Ok? ==>
      r.Ok? && obj.context.cache == Log(old(obj.context.cache), obj.fl, name, kwargs).value
    ensures Log(old(obj.context.cache), obj.fl, name, kwargs).Err? ==>
      r == Err(Log(old(obj.context.cache), obj.fl, name, kwargs).error) && obj.context.cache == old(obj.context.cache)
  {
    var tracker := new Runs.RunTracker(obj.context, ProgressOf(obj.fl));
    r := tracker.LogProgress(name, kwargs);
  }

  /** The result, the context afterwards, and how many times `next_call` ran. */
  datatype Outcome = Outcome(result: Result<Value>, store: Store, calls: nat)

  // ---------------------------------------------------------------------
  // CachingMiddleware

  /** What `create_key` hashes. */
  function Content(args: seq<Value>, kwargs: Entries, definition: Value, className: string): Value
  {
    Dict([("input", Dict([("args", Tuple(args)), ("kwargs", Dict(kwargs))])),
          ("definition", definition),
          ("name", Str(className))])
  }

  /** `create_key`: the digest of the input, the definition and the class name. */
  function CacheKey(dump: Result<Value>, className: string, args: seq<Value>, kwargs: Entries,
                    digestOf: string -> string): Result<string>
  {
    var definition :- dump;
    Ok(digestOf(Hashes.Stream(Content(args, kwargs, definition, className))))
  }

  /**
   * One `__call__` of the caching middleware, given the key (or the error
   * building it) and what `next_call` would return.
   */
  function CacheStep(cache: map<string, Value>, key: Result<string>, out: Result<Value>): (r: (Result<Value>, map<string, Value>, nat))
    ensures key.Ok? && key.value in cache ==> r == (Ok(cache[key.value]), cache, 0)
    ensures key.Err? ==> r == (out, cache, 1)
    ensures key.Ok? && key.value !in cache ==>
      r.0 == out && r.2 == 1 && r.1 == (if out.Ok? then cache[key.value := out.value] else cache)
  {
    if key.Err? then (out, cache, 1)
    else if key.value in cache then (Ok(cache[key.value]), cache, 0)
    else if out.Err? then (out, cache, 1)
    else (out, cache[key.value := out.value], 1)
  }

  class CachingMiddleware {
    const obj: Component
    const next: Next
    /** The hasher's digest function. */
    const digestOf: string -> string
    /** The cache backend named by the settings. */
    var cache: map<string, Value>
    ghost var calls: nat

    constructor(obj: Component, next: Next, digestOf: string -> string, cache: map<string, Value>)
      ensures this.obj == obj && this.next == next && this.digestOf == digestOf
      ensures this.cache == cache && calls == 0
    {
      this.obj := obj;
      this.next := next;
      this.digestOf := digestOf;
      this.cache := cache;
      calls := 0;
    }

    method CreateKey(args: seq<Value>, kwargs: Entries) returns (r: Result<string>)
      ensures r == CacheKey(obj.dump, obj.className, args, kwargs, digestOf)
    {
      if obj.dump.Err? {
        return Err(obj.dump.error);
      }
      var content := Content(args, kwargs, obj.dump.value, obj.className);
      var hasher := new Hashes.NaiveHash(digestOf);
      var key := hasher.Call(content);
      assert [] + Hashes.Stream(content) == Hashes.Stream(content);
      r := Ok(key);
    }

    method Call(args: seq<Value>, kwargs: Entries) returns (r: Result<Value>)
      modifies this
      ensures var o := CacheStep(old(cache), CacheKey(obj.dump, obj.className, args, kwargs, digestOf), next(args, kwargs));
        r == o.0 && cache == o.1 && calls == old(calls) + o.2
    {
      var key := CreateKey(args, kwargs);
      if key.Err? {
        calls := calls + 1;
        return next(args, kwargs);
      }
      if key.value in cache {
        return Ok(cache[key.value]);
      }
      calls := calls + 1;
      var output := next(args, kwargs);
      if output.Err? {
        return output;
      }
      cache := cache[key.value := output.value];
      r := output;
    }
  }

  /** A second call with the same input is served from the cache and does not run the component. */
  lemma SecondCallCached(cache: map<string, Value>, key: string, out: Result<Value>, out2: Result<Value>)
    requires out.Ok?
    ensures var first := CacheStep(cache, Ok(key), out);
      var second := CacheStep(first.1, Ok(key), out2);
      second.0 == first.0 && second.1 == first.1 && second.2 == 0 && first.2 + second.2 <= 1
  {
  }

  /** The key does not depend on the order keyword arguments were passed in. */
  lemma KeyIgnoresKwargOrder(dump: Result<Value>, className: string, args: seq<Value>, kwargs: Entries, kwargs2: Entries,
                             digestOf: string -> string)
    requires forall k :: Get(kwargs, k) == Get(kwargs2, k)
    ensures CacheKey(dump, className, args, kwargs, digestOf) == CacheKey(dump, className, args, kwargs2, digestOf)
  {
    if dump.Ok? {
      Hashes.DictOrderFree(kwargs, kwargs2);
      var i1 := [("args", Tuple(args)), ("kwargs", Dict(kwargs))];
      var i2 := [("args", Tuple(args)), ("kwargs", Dict(kwargs2))];
      assert i1[1..] == [("kwargs", Dict(kwargs))] && i2[1..] == [("kwargs", Dict(kwargs2))];
      Hashes.DictStreamCongruent(i1, i2);
      var c1 := [("input", Dict(i1)), ("definition", dump.value), ("name", Str(className))];
      var c2 := [("input", Dict(i2)), ("definition", dump.value), ("name", Str(className))];
      assert c1[1..] == c2[1..];
      Hashes.DictStreamCongruent(c1, c2);
    }
  }

  /** A key that cannot be built means the component runs and nothing is stored. */
  lemma KeyFailureRuns(cache: map<string, Value>, e: Exc, out: Result<Value>)
    ensures CacheStep(cache, Err(e), out) == (out, cache, 1)
  {
  }

  // ---------------------------------------------------------------------
  // TrackProgressMiddleware

  /** The `{args, kwargs}` record of a call. */
  function InputRecord(args: seq<Value>, kwargs: Entries): Value
  {
    Dict([("args", Tuple(args)), ("kwargs", Dict(kwargs))])
  }

  /** What is logged for a call that returned `out`. */
  function TrackRecord(args: seq<Value>, kwargs: Entries, out: Result<Value>): Entries
  {
    if out.Ok? then [("input", InputRecord(args, kwargs)), ("output", out.value)]
    else [("input", InputRecord(args, kwargs)), ("output", PyNone), ("error", Str(out.error.msg))]
  }

  /** One `__call__` of the tracking middleware. */
  function TrackIn(store: Store, fl: View, args: seq<Value>, kwargs: Entries, out: Result<Value>): Outcome
  {
    var name := AbsPath(fl.prefix, fl.name);
    var (started, s1) :=
      if name == "." then Runs.OpenIn(store, ProgressOf(fl), fl.prefix == "", fl.flowName, fl.runId)
      else (Ok(()), store);
    if started.Err? then Outcome(Err(started.error), s1, 0)
    else match Log(s1, fl, name, TrackRecord(args, kwargs, out))
      case Err(e) => Outcome(Err(e), s1, 1)
      case Ok(s2) => Outcome(out, s2, 1)
  }

  class TrackProgressMiddleware {
    const obj: Component
    const next: Next
    ghost var calls: nat

    constructor(obj: Component, next: Next)
      ensures this.obj == obj && this.next == next && calls == 0
    {
      this.obj := obj;
      this.next := next;
      calls := 0;
    }

    method Call(args: seq<Value>, kwargs: Entries) returns (r: Result<Value>)
      modifies this, obj, obj.context
      ensures var o := TrackIn(old(obj.context.cache), obj.fl, args, kwargs, next(args, kwargs));
        r == o.result && obj.context.cache == o.store && calls == old(calls) + o.calls
      ensures AbsPath(obj.fl.prefix, obj.fl.name) == "." && obj.lastRun != old(obj.lastRun) ==>
        obj.lastRun.Some? && obj.lastRun.value.config == obj.configDump &&
        obj.lastRun.value.progress == ProgressOf(obj.fl)
    {
      var name := AbsPath(obj.fl.prefix, obj.fl.name);
      if name == "." {
        var tracker := Runs.Open(obj.context, obj.fl.flowName, obj.fl.runId, obj.fl.prefix, "__progress__");
        if tracker.Err? {
          return Err(tracker.error);
        }
        tracker.value.SetConfig(obj.configDump);
        obj.lastRun := Some(tracker.value);
      }
      calls := calls + 1;
      var output := next(args, kwargs);
      var logged := LogProgress(obj, name, TrackRecord(args, kwargs, output));
      if logged.Err? {
        return Err(logged.error);
      }
      r := output;
    }
  }

  /** Below the root, a successful run is returned and logged with its input and output. */
  lemma TrackSuccess(store: Store, fl: View, args: seq<Value>, kwargs: Entries, v: Value)
    requires AbsPath(fl.prefix, fl.name) != "."
    requires ProgressOf(fl) in store && store[ProgressOf(fl)].Scope?
    requires GetOr(store[ProgressOf(fl)].vars, AbsPath(fl.prefix, fl.name), EmptyDict).Dict?
    ensures var o := TrackIn(store, fl, args, kwargs, Ok(v));
      var name := AbsPath(fl.prefix, fl.name);
      o.result == Ok(v) && o.calls == 1 &&
      Runs.FieldIn(o.store, ProgressOf(fl), name, "input") == Ok(InputRecord(args, kwargs)) &&
      Runs.FieldIn(o.store, ProgressOf(fl), name, "output") == Ok(v)
  {
    Runs.LoggedInputOutput(store, ProgressOf(fl), AbsPath(fl.prefix, fl.name), InputRecord(args, kwargs), v);
  }

  /**
   * Below the root, a failing run logs its input, output None and the error
   * text, and then raises the same error.
   */
  lemma TrackFailure(store: Store, fl: View, args: seq<Value>, kwargs: Entries, e: Exc)
    requires AbsPath(fl.prefix, fl.name) != "."
    requires ProgressOf(fl) in store && store[ProgressOf(fl)].Scope?
    requires GetOr(store[ProgressOf(fl)].vars, AbsPath(fl.prefix, fl.name), EmptyDict).Dict?
    ensures var o := TrackIn(store, fl, args, kwargs, Err(e));
      var name := AbsPath(fl.prefix, fl.name);
      o.result == Err(e) && o.calls == 1 &&
      Runs.FieldIn(o.store, ProgressOf(fl), name, "output") == Ok(PyNone) &&
      Runs.FieldIn(o.store, ProgressOf(fl), name, "error") == Ok(Str(e.msg))
  {
    var name := AbsPath(fl.prefix, fl.name);
    var kw := TrackRecord(args, kwargs, Err(e));
    assert kw == [("input", InputRecord(args, kwargs)), ("output", PyNone), ("error", Str(e.msg))];
    Tails3(kw[0], kw[1], kw[2]);
    assert "input" != "error" && "input" != "output" && "output" != "error" by {
      assert "input"[0] != "error"[0] && "input"[0] != "output"[0] && "output"[0] != "error"[0];
    }
    assert Get(kw, "output") == Get(kw[1..], "output") == Some(PyNone);
    assert Get(kw, "error") == Get(kw[1..], "error") == Get(kw[1..][1..], "error") == Some(Str(e.msg));
    Runs.LogMerges(store, ProgressOf(fl), name, kw, "error");
    Runs.LogMerges(store, ProgressOf(fl), name, kw, "output");
    assert TrackIn(store, fl, args, kwargs, Err(e)).store == Runs.LogIn(store, ProgressOf(fl), name, kw).value;
  }

  // ---------------------------------------------------------------------
  // SkipComponentMiddleware

  /** Stores `v` under `key` in `scope` when `v` is truthy (the routing keywords). */
  function SetIfTruthy(store: Store, key: string, v: Value, scope: string): Result<Store>
  {
    if Truthy(v) then SetIn(store, key, v, Str(scope)) else Ok(store)
  }

  /** `RunTracker.load`: each saved entry is set into the tracker's scope, in order. */
  function LoadIn(store: Store, scope: string, loaded: Entries): Result<Store>
    decreases |loaded|
  {
    if |loaded| == 0 then Ok(store)
    else
      var s :- SetIn(store, loaded[0].0, loaded[0].1, Str(scope));
      LoadIn(s, scope, loaded[1..])
  }

  /** `RunTracker(obj, "__from_run__").load(...)`, with the saved progress as `loaded`. */
  function FromRunIn(store: Store, fl: View, loaded: Entries): Result<Store>
  {
    var (started, s) := Runs.OpenIn(store, FromRunOf(fl), fl.prefix == "", fl.flowName, fl.runId);
    if started.Err? then Err(started.error) else LoadIn(s, FromRunOf(fl), loaded)
  }

  /** The routing keywords of `__call__` go into the flow's scope, and the previous run is loaded. */
  function RouteIn(store: Store, fl: View, from: Value, to: Value, fromRun: Value, loaded: Entries): Result<Store>
  {
    var flow := FlowQualidx(fl);
    var s1 :- SetIfTruthy(store, "from", from, flow);
    var s2 :- SetIfTruthy(s1, "to", to, flow);
    if Truthy(fromRun) then FromRunIn(s2, fl, loaded) else Ok(s2)
  }

  /** A component that is the parent of `from` marks its own scope not good to run. */
  function MarkIn(store: Store, fl: View): Result<Store>
  {
    var f :- GetIn(store, Some("from"), PyNone, Str(FlowQualidx(fl)));
    if !Truthy(f) then Ok(store)
    else if !f.Str? then Raise(AttributeError, "object has no attribute 'strip'")
    else if Paths.IsParentOfChild(fl.name, f.s) then SetIn(store, "good_to_run", Bool(false), Str(Qualidx(fl)))
    else Ok(store)
  }

  /** The first half of `__call__`. */
  function GatherIn(store: Store, fl: View, from: Value, to: Value, fromRun: Value, loaded: Entries): Result<Store>
  {
    match RouteIn(store, fl, from, to, fromRun, loaded)
    case Err(e) => Err(e)
    case Ok(s) => MarkIn(s, fl)
  }

  /** Logs status `run` and runs the component. */
  function RunNextIn(store: Store, fl: View, name: string, out: Result<Value>): Outcome
  {
    match Log(store, fl, name, [("status", Str("run"))])
    case Err(e) => Outcome(Err(e), store, 0)
    case Ok(s) => Outcome(out, s, 1)
  }

  /** The `try` block: the previous run's output, or running after all when anything fails. */
  function FromPreviousRun(store: Store, fl: View, name: string, out: Result<Value>): Outcome
  {
    var (started, s1) := Runs.OpenIn(store, FromRunOf(fl), fl.prefix == "", fl.flowName, fl.runId);
    if started.Err? then RunNextIn(s1, fl, name, out)
    else match Runs.FieldIn(s1, FromRunOf(fl), name, "output")
      case Err(_) => RunNextIn(s1, fl, name, out)
      case Ok(previous) =>
        match Log(s1, fl, name, [("status", Str("cached"))])
        case Err(_) => RunNextIn(s1, fl, name, out)
        case Ok(s2) => Outcome(Ok(previous), s2, 0)
  }

  /** `good_to_run` of the parent's scope, True when that scope does not exist. */
  function GoodToRun(store: Store, fl: View): Result<Value>
  {
    if ParentQualidx(fl) in store then GetIn(store, Some("good_to_run"), Bool(true), Str(ParentQualidx(fl)))
    else Ok(Bool(true))
  }

  /** The second half of `__call__`: run, resume at `from`, reuse the previous output, or stop after `to`. */
  function DecideIn(store: Store, fl: View, out: Result<Value>): Outcome
  {
    var name := AbsPath(fl.prefix, fl.name);
    var flow := Str(FlowQualidx(fl));
    match GoodToRun(store, fl)
    case Err(e) => Outcome(Err(e), store, 0)
    case Ok(good) =>
      if good == Bool(false) then
        match GetIn(store, Some("from"), PyNone, flow)
        case Err(e) => Outcome(Err(e), store, 0)
        case Ok(pattern) =>
          if !pattern.Str? then Outcome(Raise(AttributeError, "object has no attribute 'split'"), store, 0)
          else if Paths.IsNameMatched(name, pattern.s) then
            match SetIn(store, "good_to_run", Bool(true), Str(ParentQualidx(fl)))
            case Err(e) => Outcome(Err(e), store, 0)
            case Ok(s1) => RunNextIn(s1, fl, name, out)
          else FromPreviousRun(store, fl, name, out)
      else
        match GetIn(store, Some("to"), PyNone, flow)
        case Err(e) => Outcome(Err(e), store, 0)
        case Ok(to) =>
          if to == Str(name) then
            match SetIn(store, "good_to_run", Bool(false), flow)
            case Err(e) => Outcome(Err(e), store, 0)
            case Ok(s1) => RunNextIn(s1, fl, name, out)
          else RunNextIn(store, fl, name, out)
  }

  /**
   * The component runs at most once per call, and when it runs its own result
   * is returned; a successful call that does not run it happens only when the
   * parent's scope says not good to run (the previous run's output is reused).
   */
  lemma DecideRunsAtMostOnce(store: Store, fl: View, out: Result<Value>)
    ensures var o := DecideIn(store, fl, out);
      o.calls <= 1 && (o.calls == 1 ==> o.result == out) &&
      (o.calls == 0 && o.result.Ok? ==> GoodToRun(store, fl) == Ok(Bool(false)))
  {
    var name := AbsPath(fl.prefix, fl.name);
    var flow := Str(FlowQualidx(fl));
    match GoodToRun(store, fl)
    case Err(e) =>
    case Ok(good) =>
      if good == Bool(false) {
        match GetIn(store, Some("from"), PyNone, flow)
        case Err(e) =>
        case Ok(pattern) =>
          if pattern.Str? && Paths.IsNameMatched(name, pattern.s) {
            match SetIn(store, "good_to_run", Bool(true), Str(ParentQualidx(fl)))
            case Err(e) =>
            case Ok(s1) => RunNextOnce(s1, fl, name, out);
          } else if pattern.Str? {
            PreviousOnce(store, fl, name, out);
          }
      } else {
        match GetIn(store, Some("to"), PyNone, flow)
        case Err(e) =>
        case Ok(to) =>
          if to == Str(name) {
            match SetIn(store, "good_to_run", Bool(false), flow)
            case Err(e) =>
            case Ok(s1) => RunNextOnce(s1, fl, name, out);
          } else {
            RunNextOnce(store, fl, name, out);
          }
      }
  }

  lemma RunNextOnce(store: Store, fl: View, name: string, out: Result<Value>)
    ensures var o := RunNextIn(store, fl, name, out);
      o.calls <= 1 && (o.calls == 1 ==> o.result == out) && (o.calls == 0 ==> o.result.Err?)
  {
  }

  lemma PreviousOnce(store: Store, fl: View, name: string, out: Result<Value>)
    ensures var o := FromPreviousRun(store, fl, name, out);
      o.calls <= 1 && (o.calls == 1 ==> o.result == out)
  {
    var (started, s1) := Runs.OpenIn(store, FromRunOf(fl), fl.prefix == "", fl.flowName, fl.runId);
    RunNextOnce(s1, fl, name, out);
  }

  /**
   * The `to` mark is written to the flow's scope, which is never the parent
   * scope of a component of the same run: it leaves every such component's
   * `good_to_run` as it was.
   */
  lemma ToMarkNotRead(store: Store, fl: View, other: View)
    requires SetIn(store, "good_to_run", Bool(false), Str(FlowQualidx(fl))).Ok?
    requires other.flowName == fl.flowName && other.runId == fl.runId
    ensures GoodToRun(SetIn(store, "good_to_run", Bool(false), Str(FlowQualidx(fl))).value, other) == GoodToRun(store, other)
  {
    var flow := FlowQualidx(fl);
    var parent := ParentQualidx(other);
    assert |parent| > |flow|;
    SetThenGet(store, "good_to_run", Bool(false), Str(flow), Bool(true));
    if parent in store {
      assert GetIn(SetIn(store, "good_to_run", Bool(false), Str(flow)).value, Some("good_to_run"), Bool(true), Str(parent))
          == GetIn(store, Some("good_to_run"), Bool(true), Str(parent));
    }
  }

  /** A component's path always holds a dot, so it is never the `good_to_run` key. */
  lemma PathIsNotGoodToRun(prefix: string, name: string)
    ensures AbsPath(prefix, name) != "good_to_run"
  {
    var r := AbsPath(prefix, name);
    var i := if prefix == "." then 0 else |prefix|;
    assert r[i] == '.';
  }

  /** Logging a component's progress leaves every `good_to_run` as it was. */
  lemma LogKeepsGoodToRun(store: Store, fl: View, other: View, name: string, kwargs: Entries)
    requires Log(store, fl, name, kwargs).Ok?
    requires name != "good_to_run"
    ensures GoodToRun(Log(store, fl, name, kwargs).value, other) == GoodToRun(store, other)
  {
    var progress := ProgressOf(fl);
    var v := GetIn(store, Some(name), EmptyDict, Str(progress)).value;
    SetThenGet(store, name, Dict(Update(v.entries, kwargs)), Str(progress), Bool(true));
    var parent := ParentQualidx(other);
    if parent in store {
      assert GetIn(Log(store, fl, name, kwargs).value, Some("good_to_run"), Bool(true), Str(parent))
          == GetIn(store, Some("good_to_run"), Bool(true), Str(parent));
    }
  }

  /** A skipped component whose name matches `from` reopens its parent's scope and runs. */
  lemma ResumeAtFrom(store: Store, fl: View, out: Result<Value>, pattern: string)
    requires GoodToRun(store, fl) == Ok(Bool(false))
    requires GetIn(store, Some("from"), PyNone, Str(FlowQualidx(fl))) == Ok(Str(pattern))
    requires Paths.IsNameMatched(AbsPath(fl.prefix, fl.name), pattern)
    ensures var o := DecideIn(store, fl, out);
      o.result.Ok? ==> o.result == out && o.calls == 1 && GoodToRun(o.store, fl) == Ok(Bool(true))
  {
    var parent := ParentQualidx(fl);
    assert parent in store;
    SetThenGet(store, "good_to_run", Bool(true), Str(parent), Bool(true));
    var s1 := SetIn(store, "good_to_run", Bool(true), Str(parent)).value;
    assert GoodToRun(s1, fl) == Ok(Bool(true));
    var o := DecideIn(store, fl, out);
    if o.result.Ok? {
      var name := AbsPath(fl.prefix, fl.name);
      PathIsNotGoodToRun(fl.prefix, fl.name);
      LogKeepsGoodToRun(s1, fl, fl, name, [("status", Str("run"))]);
    }
  }

  /** `kwargs` without the three routing keywords. */
  function Popped(kwargs: Entries): Entries
  {
    Remove(Remove(Remove(kwargs, "_ff_from"), "_ff_to"), "_ff_from_run")
  }

  class SkipComponentMiddleware {
    const obj: Component
    const next: Next
    ghost var calls: nat

    constructor(obj: Component, next: Next)
      ensures this.obj == obj && this.next == next && calls == 0
    {
      this.obj := obj;
      this.next := next;
      calls := 0;
    }

    /** `__call__`; `loaded` is the progress saved by the run `_ff_from_run` names. */
    method Call(args: seq<Value>, kwargs: Entries, loaded: Entries) returns (r: Result<Value>)
      modifies this, obj.context
      ensures var g := GatherIn(old(obj.context.cache), obj.fl, GetOr(kwargs, "_ff_from", PyNone),
                                GetOr(kwargs, "_ff_to", PyNone), GetOr(kwargs, "_ff_from_run", PyNone), loaded);
        (g.Err? ==> r.Err? && calls == old(calls)) &&
        (g.Ok? ==> var o := DecideIn(g.value, obj.fl, next(args, Popped(kwargs)));
                   r == o.result && obj.context.cache == o.store && calls == old(calls) + o.calls)
    {
      var from := GetOr(kwargs, "_ff_from", PyNone);
      var to := GetOr(kwargs, "_ff_to", PyNone);
      var fromRun := GetOr(kwargs, "_ff_from_run", PyNone);
      var gathered := Gather(from, to, fromRun, loaded);
      if gathered.Err? {
        return Err(gathered.error);
      }
      r := Decide(args, Popped(kwargs));
    }

    method Gather(from: Value, to: Value, fromRun: Value, loaded: Entries) returns (r: Result<()>)
      modifies obj.context
      ensures var g := GatherIn(old(obj.context.cache), obj.fl, from, to, fromRun, loaded);
        (g.Ok? ==> r.Ok? && obj.context.cache == g.value) && (g.Err? ==> r.Err?)
    {
      r := Route(from, to, fromRun, loaded);
      if r.Err? {
        return;
      }
      r := Mark();
    }

    method Route(from: Value, to: Value, fromRun: Value, loaded: Entries) returns (r: Result<()>)
      modifies obj.context
      ensures var g := RouteIn(old(obj.context.cache), obj.fl, from, to, fromRun, loaded);
        (g.Ok? ==> r.Ok? && obj.context.cache == g.value) && (g.Err? ==> r.Err?)
    {
      var flow := FlowQualidx(obj.fl);
      r := Ok(());
      if Truthy(from) {
        r := obj.context.Set("from", from, Str(flow));
        if r.Err? {
          return;
        }
      }
      if Truthy(to) {
        r := obj.context.Set("to", to, Str(flow));
        if r.Err? {
          return;
        }
      }
      if Truthy(fromRun) {
        r := LoadFromRun(loaded);
      }
    }

    method Mark() returns (r: Result<()>)
      modifies obj.context
      ensures var g := MarkIn(old(obj.context.cache), obj.fl);
        (g.Ok? ==> r.Ok? && obj.context.cache == g.value) && (g.Err? ==> r.Err?)
    {
      var f := obj.context.Get(Some("from"), PyNone, Str(FlowQualidx(obj.fl)));
      if f.Err? {
        return Err(f.error);
      }
      if !Truthy(f.value) {
        return Ok(());
      }
      if !f.value.Str? {
        return Raise(AttributeError, "object has no attribute 'strip'");
      }
      if Paths.IsParentOfChild(obj.fl.name, f.value.s) {
        r := obj.context.Set("good_to_run", Bool(false), Str(Qualidx(obj.fl)));
      } else {
        r := Ok(());
      }
    }

    method LoadFromRun(loaded: Entries) returns (r: Result<()>)
      modifies obj.context
      ensures var g := FromRunIn(old(obj.context.cache), obj.fl, loaded);
        (g.Ok? ==> r.Ok? && obj.context.cache == g.value) && (g.Err? ==> r.Err?)
    {
      var tracker := Runs.Open(obj.context, obj.fl.flowName, obj.fl.runId, obj.fl.prefix, "__from_run__");
      if tracker.Err? {
        return Err(tracker.error);
      }
      var i := 0;
      while i < |loaded|
        invariant 0 <= i <= |loaded|
        invariant LoadIn(obj.context.cache, FromRunOf(obj.fl), loaded[i..]) == FromRunIn(old(obj.context.cache), obj.fl, loaded)
      {
        assert loaded[i..][1..] == loaded[i + 1..];
        var s := obj.context.Set(loaded[i].0, loaded[i].1, Str(FromRunOf(obj.fl)));
        if s.Err? {
          return Err(s.error);
        }
        i := i + 1;
      }
      r := Ok(());
    }

    method Decide(args: seq<Value>, kwargs: Entries) returns (r: Result<Value>)
      modifies this, obj.context
      ensures var o := DecideIn(old(obj.context.cache), obj.fl, next(args, kwargs));
        r == o.result && obj.context.cache == o.store && calls == old(calls) + o.calls
    {
      var name := AbsPath(obj.fl.prefix, obj.fl.name);
      var flow := Str(FlowQualidx(obj.fl));
      var good := Ok(Bool(true));
      var exists_ := obj.context.HasContext(ParentQualidx(obj.fl));
      if exists_ {
        good := obj.context.Get(Some("good_to_run"), Bool(true), Str(ParentQualidx(obj.fl)));
      }
      if good.Err? {
        return Err(good.error);
      }
      if good.value == Bool(false) {
        r := Resume(args, kwargs);
        return;
      }
      var to := obj.context.Get(Some("to"), PyNone, flow);
      if to.Err? {
        return Err(to.error);
      }
      if to.value == Str(name) {
        var s := obj.context.Set("good_to_run", Bool(false), flow);
        if s.Err? {
          return Err(s.error);
        }
      }
      r := RunNext(name, args, kwargs);
    }

    /** The branch where the parent is not good to run. */
    method Resume(args: seq<Value>, kwargs: Entries) returns (r: Result<Value>)
      requires GoodToRun(obj.context.cache, obj.fl) == Ok(Bool(false))
      modifies this, obj.context
      ensures var o := DecideIn(old(obj.context.cache), obj.fl, next(args, kwargs));
        r == o.result && obj.context.cache == o.store && calls == old(calls) + o.calls
    {
      var name := AbsPath(obj.fl.prefix, obj.fl.name);
      var pattern := obj.context.Get(Some("from"), PyNone, Str(FlowQualidx(obj.fl)));
      if pattern.Err? {
        return Err(pattern.error);
      }
      if !pattern.value.Str? {
        return Raise(AttributeError, "object has no attribute 'split'");
      }
      if Paths.IsNameMatched(name, pattern.value.s) {
        var s := obj.context.Set("good_to_run", Bool(true), Str(ParentQualidx(obj.fl)));
        if s.Err? {
          return Err(s.error);
        }
        r := RunNext(name, args, kwargs);
        return;
      }
      r := Previous(name, args, kwargs);
    }

    /** The `try` block and its fallback. */
    method Previous(name: string, args: seq<Value>, kwargs: Entries) returns (r: Result<Value>)
      modifies this, obj.context
      ensures var o := FromPreviousRun(old(obj.context.cache), obj.fl, name, next(args, kwargs));
        r == o.result && obj.context.cache == o.store && calls == old(calls) + o.calls
    {
      var tracker := Runs.Open(obj.context, obj.fl.flowName, obj.fl.runId, obj.fl.prefix, "__from_run__");
      if tracker.Err? {
        r := RunNext(name, args, kwargs);
        return;
      }
      var output := tracker.value.Output(name);
      if output.Err? {
        r := RunNext(name, args, kwargs);
        return;
      }
      var logged := LogProgress(obj, name, [("status", Str("cached"))]);
      if logged.Err? {
        r := RunNext(name, args, kwargs);
        return;
      }
      r := output;
    }

    method RunNext(name: string, args: seq<Value>, kwargs: Entries) returns (r: Result<Value>)
      modifies this, obj.context
      ensures var o := RunNextIn(old(obj.context.cache), obj.fl, name, next(args, kwargs));
        r == o.result && obj.context.cache == o.store && calls == old(calls) + o.calls
    {
      var logged := LogProgress(obj, name, [("status", Str("run"))]);
      if logged.Err? {
        return Err(logged.error);
      }
      calls := calls + 1;
      r := next(args, kwargs);
    }
  }
}
