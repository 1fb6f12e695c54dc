/**
 * The run tracker: the progress of one run is a context scope named
 * `flow_name|run_id|which_progress`, holding one record per step.
 */
module Runs {
  import opened Wrappers
  import opened PyValues
  import opened Contexts

  /** The progress scope of a run. */
  function ProgressKey(flowName: string, runId: string, which: string): string
  {
    flowName + "|" + runId + "|" + which
  }

  /**
   * Construction: the progress scope is created unless it exists, and a
   * root tracker (empty prefix) records the flow name and run id in it.
   */
  function OpenIn(store: Store, progress: string, root: bool, flowName: string, runId: string): (r: (Result<()>, Store))
  {
    var (c, s1) := CreateIn(store, Str(progress), true);
    if c.Err? then (Err(c.error), s1)
    else if !root then (Ok(()), s1)
    else match SetIn(s1, "name", Str(flowName), Str(progress))
      case Err(e) => (Err(e), s1)
      case Ok(s2) =>
        match SetIn(s2, "id", Str(runId), Str(progress))
        case Err(e) => (Err(e), s2)
        case Ok(s3) => (Ok(()), s3)
  }

  /** `log_progress(name, **kwargs)`: the step record (default `{}`) updated with `kwargs`. */
  function LogIn(store: Store, progress: string, name: string, kwargs: Entries): (r: Result<Store>)
  {
    match GetIn(store, Some(name), EmptyDict, Str(progress))
    case Err(e) => Err(e)
    case Ok(v) =>
      if !v.Dict? then Raise(AttributeError, "object has no attribute 'update'")
      else SetIn(store, name, Dict(Update(v.entries, kwargs)), Str(progress))
  }

  /** `steps()`: the keys of the whole progress map. */
  function StepsIn(store: Store, progress: string): (r: Result<seq<string>>)
  {
    match GetIn(store, None, PyNone, Str(progress))
    case Err(e) => Err(e)
    case Ok(v) =>
      if v.Dict? then Ok(Keys(v.entries))
      else Raise(AttributeError, "object has no attribute 'keys'")
  }

  /** `logs(name)[field]`, as `input` and `output` read it. */
  function FieldIn(store: Store, progress: string, name: string, field: string): (r: Result<Value>)
  {
    match GetIn(store, Some(name), PyNone, Str(progress))
    case Err(e) => Err(e)
    case Ok(v) => Subscript(v, field)
  }

  class RunTracker {
    const context: Context
    const progress: string
    var config: Value

    /** A tracker over an already prepared progress scope; see `Open`. */
    constructor(context: Context, progress: string)
      ensures this.context == context && this.progress == progress && config == EmptyDict
    {
      this.context := context;
      this.progress := progress;
      config := EmptyDict;
    }

    method LogProgress(name: string, kwargs: Entries) returns (r: Result<()>)
      modifies context
      ensures LogIn(old(context.cache), progress, name, kwargs).Ok? ==>
        r == Ok(()) && context.cache == LogIn(old(context.cache), progress, name, kwargs).value
      ensures LogIn(old(context.cache), progress, name, kwargs).Err? ==>
        r == Err(LogIn(old(context.cache), progress, name, kwargs).error) && context.cache == old(context.cache)
    {
      var value := context.Get(Some(name), EmptyDict, Str(progress));
      if value.Err? {
        return Err(value.error);
      }
      if !value.value.Dict? {
        return Raise(AttributeError, "object has no attribute 'update'");
      }
      var merged := Dict(Update(value.value.entries, kwargs));
      r := context.Set(name, merged, Str(progress));
    }

    method Logs(name: Option<string>) returns (r: Result<Value>)
      ensures r == GetIn(context.cache, name, PyNone, Str(progress))
    {
      r := context.Get(name, PyNone, Str(progress));
    }

    method Steps() returns (r: Result<seq<string>>)
      ensures r == StepsIn(context.cache, progress)
    {
      var all := Logs(None);
      if all.Err? {
        return Err(all.error);
      }
      if !all.value.Dict? {
        return Raise(AttributeError, "object has no attribute 'keys'");
      }
      r := Ok(Keys(all.value.entries));
    }

    /** `input(name)`; the caller passes `"."` for the default step. */
    method Input(name: string) returns (r: Result<Value>)
      ensures r == FieldIn(context.cache, progress, name, "input")
    {
      var record := Logs(Some(name));
      if record.Err? {
        return Err(record.error);
      }
      r := Subscript(record.value, "input");
    }

    /** `output(name)`; the caller passes `"."` for the default step. */
    method Output(name: string) returns (r: Result<Value>)
      ensures r == FieldIn(context.cache, progress, name, "output")
    {
      var record := Logs(Some(name));
      if record.Err? {
        return Err(record.error);
      }
      r := Subscript(record.value, "output");
    }

    method Id() returns (r: Result<Value>)
      ensures r == GetIn(context.cache, Some("id"), PyNone, Str(progress))
    {
      r := context.Get(Some("id"), PyNone, Str(progress));
    }

    method SetConfig(c: Value)
      modifies this
      ensures config == c
    {
      config := c;
    }
  }

  /**
   * `RunTracker(obj, which_progress)`, where the flow name, run id and prefix
   * are those of the component being run.
   */
  method Open(context: Context, flowName: string, runId: string, prefix: string, which: string)
    returns (r: Result<RunTracker>)
    modifies context
    ensures var (res, st) := OpenIn(old(context.cache), ProgressKey(flowName, runId, which), prefix == "", flowName, runId);
      context.cache == st && (r.Ok? <==> res.Ok?) && (r.Err? ==> r.error == res.error)
    ensures r.Ok? ==> (fresh(r.value) && r.value.context == context &&
      r.value.progress == ProgressKey(flowName, runId, which) && r.value.config == EmptyDict)
  {
    var progress := ProgressKey(flowName, runId, which);
    var c := context.CreateContext(Str(progress), true);
    if c.Err? {
      return Err(c.error);
    }
    if prefix == "" {
      var s := context.Set("name", Str(flowName), Str(progress));
      if s.Err? {
        return Err(s.error);
      }
      s := context.Set("id", Str(runId), Str(progress));
      if s.Err? {
        return Err(s.error);
      }
    }
    var t := new RunTracker(context, progress);
    r := Ok(t);
  }

  /** The registry key holds a list, as it does unless that key is misused as a scope. */
  predicate RegistryIntact(store: Store)
  {
    RegistryKey !in store || store[RegistryKey].Registry?
  }

  /** Opening a non-root tracker on an existing progress scope leaves everything as it was. */
  lemma ReopenKeeps(store: Store, progress: string, flowName: string, runId: string)
    requires progress in store
    ensures OpenIn(store, progress, false, flowName, runId) == (Ok(()), store)
  {
  }

  /** A root tracker records the flow name and run id, and `id()` reads the run id back. */
  lemma {:induction false} RootRecordsId(store: Store, progress: string, flowName: string, runId: string)
    requires RegistryIntact(store) && progress != RegistryKey
    requires progress in store ==> store[progress].Scope?
    ensures var (res, st) := OpenIn(store, progress, true, flowName, runId);
      res.Ok? &&
      GetIn(st, Some("id"), PyNone, Str(progress)) == Ok(Str(runId)) &&
      GetIn(st, Some("name"), PyNone, Str(progress)) == Ok(Str(flowName)) &&
      StepsIn(st, progress).Ok? && "name" in StepsIn(st, progress).value && "id" in StepsIn(st, progress).value
  {
    var (c, s1) := CreateIn(store, Str(progress), true);
    assert progress in s1 && s1[progress].Scope?;
    var s2 := SetIn(s1, "name", Str(flowName), Str(progress)).value;
    SetThenGet(s1, "name", Str(flowName), Str(progress), PyNone);
    var s3 := SetIn(s2, "id", Str(runId), Str(progress)).value;
    SetThenGet(s2, "id", Str(runId), Str(progress), PyNone);
    var v := s3[progress].vars;
    assert Get(v, "name") == Some(Str(flowName)) && Get(v, "id") == Some(Str(runId));
  }

  /**
   * `log_progress` merges: keys given now are overwritten, the record's
   * other keys are kept, and the other steps' records are untouched.
   */
  lemma LogMerges(store: Store, progress: string, name: string, kwargs: Entries, k: string)
    requires progress in store && store[progress].Scope?
    requires DistinctKeys(kwargs)
    requires GetOr(store[progress].vars, name, EmptyDict).Dict?
    ensures LogIn(store, progress, name, kwargs).Ok?
    ensures var st := LogIn(store, progress, name, kwargs).value;
      var before := GetOr(store[progress].vars, name, EmptyDict).entries;
      GetIn(st, Some(name), PyNone, Str(progress)).Ok? &&
      GetIn(st, Some(name), PyNone, Str(progress)).value.Dict? &&
      Get(GetIn(st, Some(name), PyNone, Str(progress)).value.entries, k) ==
        (if HasKey(kwargs, k) then Get(kwargs, k) else Get(before, k)) &&
      forall other :: other != name ==>
        GetIn(st, Some(other), PyNone, Str(progress)) == GetIn(store, Some(other), PyNone, Str(progress))
  {
    var before := GetOr(store[progress].vars, name, EmptyDict).entries;
    SetThenGet(store, name, Dict(Update(before, kwargs)), Str(progress), PyNone);
    UpdateGet(before, kwargs, k);
  }

  /** What is logged as a step's `input`/`output` is what `input`/`output` return. */
  lemma LoggedInputOutput(store: Store, progress: string, name: string, x: Value, y: Value)
    requires progress in store && store[progress].Scope?
    requires GetOr(store[progress].vars, name, EmptyDict).Dict?
    ensures var st := LogIn(store, progress, name, [("input", x), ("output", y)]);
      st.Ok? &&
      FieldIn(st.value, progress, name, "input") == Ok(x) &&
      FieldIn(st.value, progress, name, "output") == Ok(y)
  {
    var kwargs := [("input", x), ("output", y)];
    assert DistinctKeys(kwargs);
    assert Keys(kwargs) == ["input", "output"];
    LogMerges(store, progress, name, kwargs, "input");
    LogMerges(store, progress, name, kwargs, "output");
  }
}
