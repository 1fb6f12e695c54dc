/**
 * The prototype's configuration (finestflow/config.py): the same layering
 * as theflow's, but `update_from_dict` stores values verbatim, references
 * are imported later by `parse_callbacks`, and `update` refuses anything
 * that is neither a dict nor a Pipeline subclass.
 */
module FlowConfigs {
  import opened Wrappers
  import opened PyValues
  import opened Configs

  /** `DEFAULT_CONFIG` of the prototype. */
  const FlowDefaults: Entries :=
    [("store_result", Str("{{ finestflow.callbacks.store_result__project_root }}")),
     ("run_id", Str("{{ finestflow.callbacks.run_id__timestamp }}"))]

  /** `update_from_dict` here stores each value as given. */
  function Verbatim(): Value -> Result<Value>
  {
    v => Ok(v)
  }

  /** What `update(val)` may be given. */
  datatype Arg =
    | DictArg(d: Entries)
    /** A Pipeline subclass, as its MRO. */
    | PipelineArg(mro: seq<Option<Entries>>)
    /** Anything else, such as another config object. */
    | OtherArg

  /** `parse_callbacks` for one value: a reference is imported, anything else kept. */
  function ParsedIn(attrs: Attrs, k: string, resolve: string -> Result<Value>): Result<Value>
    requires k in attrs
  {
    Parse(attrs[k], resolve)
  }

  class FlowConfig {
    var attrs: Attrs
    const resolve: string -> Result<Value>

    ghost predicate Valid()
      reads this
    {
      attrs.Keys == Available
    }

    /** The object before `__init__` applies any layer; see `NewFlowConfig`. */
    constructor(resolve: string -> Result<Value>)
      ensures attrs == map[] && this.resolve == resolve
    {
      attrs := map[];
      this.resolve := resolve;
    }

    method UpdateFromDict(d: Entries) returns (r: Result<()>)
      modifies this
      ensures (r, attrs) == ApplyDict(old(attrs), d, Verbatim())
    {
      var i := 0;
      r := Ok(());
      while i < |d|
        invariant 0 <= i <= |d|
        invariant ApplyDict(attrs, d[i..], Verbatim()) == ApplyDict(old(attrs), d, Verbatim())
      {
        var (k, v) := d[i];
        assert d[i..][1..] == d[i + 1..];
        if !Dunder(k) {
          if k !in Available {
            return Raise(ValueError, "Unknown config: " + k);
          }
          attrs := attrs[k := v];
        }
        i := i + 1;
      }
    }

    method UpdateFromPipeline(mro: seq<Option<Entries>>) returns (r: Result<()>)
      modifies this
      ensures (r, attrs) == ApplyAll(old(attrs), MroLayers(mro, |mro|), Verbatim())
    {
      var i := |mro|;
      r := Ok(());
      while i > 0
        invariant 0 <= i <= |mro| && r == Ok(())
        invariant ApplyAll(attrs, MroLayers(mro, i), Verbatim()) ==
          ApplyAll(old(attrs), MroLayers(mro, |mro|), Verbatim())
      {
        i := i - 1;
        MroStep(attrs, mro, i, Verbatim());
        var c := Inherited(mro, i);
        if c.Some? {
          r := UpdateFromDict(c.value);
          if r.Err? {
            return;
          }
          OkUnit(r);
        }
      }
    }

    /** `update(val)`: a dict or a Pipeline subclass; anything else raises. */
    method Update(val: Arg) returns (r: Result<()>)
      modifies this
      ensures val.DictArg? ==> (r, attrs) == ApplyDict(old(attrs), val.d, Verbatim())
      ensures val.PipelineArg? ==> (r, attrs) == ApplyAll(old(attrs), MroLayers(val.mro, |val.mro|), Verbatim())
      ensures val.OtherArg? ==> r.Err? && r.error.kind == ValueError && attrs == old(attrs)
    {
      match val
      case DictArg(d) =>
        r := UpdateFromDict(d);
      case PipelineArg(mro) =>
        r := UpdateFromPipeline(mro);
      case OtherArg =>
        r := Raise(ValueError, "Unknown config type");
    }

    /**
     * `parse_callbacks()`: every available key holding a `{{…}}` string gets
     * the imported object instead.  The keys are visited in set order, which
     * Python leaves unspecified; an import that raises ends the walk.
     */
    method ParseCallbacks() returns (r: Result<()>)
      requires Valid()
      modifies this
      ensures Valid()
      ensures r.Ok? <==> forall k :: k in Available ==> ParsedIn(old(attrs), k, resolve).Ok?
      ensures r.Ok? ==> forall k :: k in Available ==> ParsedIn(old(attrs), k, resolve) == Ok(attrs[k])
      ensures r.Err? ==> forall k :: k in Available ==>
        attrs[k] == old(attrs)[k] || ParsedIn(old(attrs), k, resolve) == Ok(attrs[k])
    {
      var left := Available;
      r := Ok(());
      while left != {}
        invariant left <= Available && Valid()
        invariant forall k :: k in Available - left ==> ParsedIn(old(attrs), k, resolve) == Ok(attrs[k])
        invariant forall k :: k in left ==> attrs[k] == old(attrs)[k]
        decreases |left|
      {
        var k :| k in left;
        var value := attrs[k];
        if Reference(value) {
          var f := resolve(Referent(value));
          if f.Err? {
            return Err(f.error);
          }
          attrs := attrs[k := f.value];
        }
        left := left - {k};
      }
    }
  }

  /**
   * `Config(config, cls)`: the defaults, then `cls`'s MRO when given, then
   * `config` when it is a non-empty dict.  A raise in any layer is the
   * constructor's raise.
   */
  method NewFlowConfig(config: Option<Entries>, cls: Option<seq<Option<Entries>>>, resolve: string -> Result<Value>)
    returns (r: Result<FlowConfig>)
    ensures r.Ok? <==> ApplyAll(map[], Layers(FlowDefaults, config, cls), Verbatim()).0.Ok?
    ensures r.Err? ==> r.error == ApplyAll(map[], Layers(FlowDefaults, config, cls), Verbatim()).0.error
    ensures r.Ok? ==> (fresh(r.value) && r.value.Valid() && r.value.resolve == resolve &&
      r.value.attrs == ApplyAll(map[], Layers(FlowDefaults, config, cls), Verbatim()).1)
  {
    var c := new FlowConfig(resolve);
    LayersSplit(FlowDefaults, config, cls, Verbatim());
    var x := c.UpdateFromDict(FlowDefaults);
    SingleLayer(map[], FlowDefaults, Verbatim());
    DefaultsFill(FlowDefaults, Verbatim());
    if x.Err? {
      return Err(x.error);
    }
    OkUnit(x);
    if cls.Some? {
      x := c.UpdateFromPipeline(cls.value);
      if x.Err? {
        return Err(x.error);
      }
      OkUnit(x);
    }
    if config.Some? && |config.value| > 0 {
      ghost var before := c.attrs;
      x := c.UpdateFromDict(config.value);
      SingleLayer(before, config.value, Verbatim());
      if x.Err? {
        return Err(x.error);
      }
    }
    r := Ok(c);
  }

  /**
   * Storing verbatim, the only raise is an unknown key: a dict applies
   * exactly when every key that does not start with `__` is available, and
   * then each such key holds the value given for it.
   */
  lemma VerbatimApply(attrs: Attrs, d: Entries, k: string)
    requires DistinctKeys(d)
    ensures ApplyDict(attrs, d, Verbatim()).0.Ok? <==>
      forall i :: 0 <= i < |d| && !Dunder(d[i].0) ==> d[i].0 in Available
    ensures ApplyDict(attrs, d, Verbatim()).0.Err? ==> ApplyDict(attrs, d, Verbatim()).0.error.kind == ValueError
    ensures ApplyDict(attrs, d, Verbatim()).0.Ok? && HasKey(d, k) && !Dunder(k) ==>
      k in ApplyDict(attrs, d, Verbatim()).1 && ApplyDict(attrs, d, Verbatim()).1[k] == Get(d, k).value
  {
    ApplyOkIff(attrs, d, Verbatim());
    if ApplyDict(attrs, d, Verbatim()).0.Err? {
      var i :| 0 <= i < |d| && !Dunder(d[i].0) && !(d[i].0 in Available && Verbatim()(d[i].1).Ok?);
      FirstUnknownExists(d, i);
    } else {
      ApplyValues(attrs, d, Verbatim(), k);
    }
  }

  /** Some entry has an unknown key, so a first such entry exists. */
  lemma {:induction false} FirstUnknownExists(d: Entries, i: int)
    requires 0 <= i < |d| && !Dunder(d[i].0) && d[i].0 !in Available
    ensures FirstUnknown(d, Verbatim())
    decreases i
  {
    if forall j :: 0 <= j < i && !Dunder(d[j].0) ==> d[j].0 in Available && Verbatim()(d[j].1).Ok? {
      assert UnknownAt(d, Verbatim(), i);
    } else {
      var j :| 0 <= j < i && !Dunder(d[j].0) && !(d[j].0 in Available && Verbatim()(d[j].1).Ok?);
      FirstUnknownExists(d, j);
    }
  }

  /**
   * Parsing the layered values afterwards gives what theflow's parsing
   * while layering gives, whenever the latter succeeds: only the last value
   * of each key matters.
   */
  lemma {:induction false} ParseLaterAgrees(ds: seq<Entries>, resolve: string -> Result<Value>, k: string)
    requires forall j :: 0 <= j < |ds| ==> DistinctKeys(ds[j])
    requires ApplyAll(map[], ds, Loader(resolve)).0.Ok?
    requires k in ApplyAll(map[], ds, Loader(resolve)).1
    ensures ApplyAll(map[], ds, Verbatim()).0.Ok?
    ensures k in ApplyAll(map[], ds, Verbatim()).1
    ensures Parse(ApplyAll(map[], ds, Verbatim()).1[k], resolve) == Ok(ApplyAll(map[], ds, Loader(resolve)).1[k])
  {
    VerbatimFollows(map[], map[], ds, resolve);
    LaterWins(map[], ds, Loader(resolve), k);
    LaterWins(map[], ds, Verbatim(), k);
  }

  /** Where parsing while layering succeeds, layering verbatim succeeds too. */
  lemma {:induction false} VerbatimFollows(a: Attrs, b: Attrs, ds: seq<Entries>, resolve: string -> Result<Value>)
    requires ApplyAll(a, ds, Loader(resolve)).0.Ok?
    ensures ApplyAll(b, ds, Verbatim()).0.Ok?
    decreases |ds|
  {
    if |ds| > 0 {
      var d := ds[0];
      ApplyOkIff(a, d, Loader(resolve));
      ApplyOkIff(b, d, Verbatim());
      VerbatimFollows(ApplyDict(a, d, Loader(resolve)).1, ApplyDict(b, d, Verbatim()).1, ds[1..], resolve);
    }
  }
}
