/**
 * Layered configuration of a composable (theflow/config.py): the defaults,
 * then the `Config` inner class of every class along the MRO from base to
 * derived, then the constructor's dict.  Each layer goes through
 * `update_from_dict`, so a later layer overwrites an earlier one.
 *
 * The function that turns a given value into the stored one is a parameter
 * (`parse`), so the same fold also describes the prototype in
 * finestflow/config.py, which stores values verbatim.
 */
module Configs {
  import opened Wrappers
  import opened PyValues
  import Text
  import Modules

  /** The attributes a config object holds, by name. */
  type Attrs = map<string, Value>

  /** `DEFAULT_CONFIG`. */
  const Defaults: Entries :=
    [("store_result", Str("{{ theflow.callbacks.store_result__project_root }}")),
     ("run_id", Str("{{ theflow.callbacks.run_id__timestamp }}"))]

  /** `_available_configs`: the keys of `DEFAULT_CONFIG`, the only keys accepted. */
  const Available: set<string> := {"store_result", "run_id"}

  /** Keys such as `__module__` and `__doc__`, which `update_from_dict` skips. */
  predicate Dunder(k: string)
  {
    Text.StartsWith(k, "__")
  }

  /** A string of the form `{{…}}`, which names an object to import. */
  predicate Reference(v: Value)
  {
    v.Str? && Modules.Braced(v.s)
  }

  /** The dotted name inside a reference: `value[2:-2].strip()`. */
  function Referent(v: Value): string
    requires Reference(v)
  {
    Modules.BracedLength(v.s);
    Text.StripSpace(v.s[2..|v.s| - 2])
  }

  /**
   * The value theflow's `update_from_dict` stores for `v`: a reference is
   * replaced by what `resolve` (standing for `import_dotted_string`) gives
   * for its dotted name; anything else is stored as given.
   */
  function Parse(v: Value, resolve: string -> Result<Value>): (r: Result<Value>)
    ensures !Reference(v) ==> r == Ok(v)
  {
    if Reference(v) then resolve(Referent(v)) else Ok(v)
  }

  function Loader(resolve: string -> Result<Value>): Value -> Result<Value>
  {
    v => Parse(v, resolve)
  }

  /**
   * `update_from_dict(d)` on `attrs`: the outcome and the attributes
   * afterwards.  A raise keeps what was set before it.
   */
  function ApplyDict(attrs: Attrs, d: Entries, parse: Value -> Result<Value>): (r: (Result<()>, Attrs))
    ensures attrs.Keys <= r.1.Keys <= attrs.Keys + Available
    ensures forall k :: k in attrs && k !in Available ==> r.1[k] == attrs[k]
    decreases |d|
  {
    if |d| == 0 then (Ok(()), attrs)
    else
      var (k, v) := d[0];
      if Dunder(k) then ApplyDict(attrs, d[1..], parse)
      else if k !in Available then (Raise(ValueError, "Unknown config: " + k), attrs)
      else match parse(v)
        case Err(e) => (Err(e), attrs)
        case Ok(x) => ApplyDict(attrs[k := x], d[1..], parse)
  }

  /** Several `update_from_dict` calls in a row; the first raise ends them. */
  function ApplyAll(attrs: Attrs, ds: seq<Entries>, parse: Value -> Result<Value>): (r: (Result<()>, Attrs))
    ensures attrs.Keys <= r.1.Keys <= attrs.Keys + Available
    decreases |ds|
  {
    if |ds| == 0 then (Ok(()), attrs)
    else
      var (c, a) := ApplyDict(attrs, ds[0], parse);
      if c.Err? then (c, a) else ApplyAll(a, ds[1..], parse)
  }

  /** The layers `ds` applied after the outcome `p`, unless `p` is a raise. */
  function Then(p: (Result<()>, Attrs), ds: seq<Entries>, parse: Value -> Result<Value>): (Result<()>, Attrs)
  {
    if p.0.Err? then p else ApplyAll(p.1, ds, parse)
  }

  /**
   * What `hasattr(cls, "Config")` and `cls.Config` find for the class at
   * position `i` of an MRO (most derived first, each entry the class's own
   * `Config` body if it declares one): its own, or else the nearest one it
   * inherits.
   */
  function Inherited(mro: seq<Option<Entries>>, i: nat): (r: Option<Entries>)
    requires i <= |mro|
    ensures r.Some? <==> exists j :: i <= j < |mro| && mro[j].Some?
    decreases |mro| - i
  {
    if i == |mro| then None
    else if mro[i].Some? then mro[i]
    else Inherited(mro, i + 1)
  }

  /** The dicts `update_from_pipeline` applies for the first `n` classes, base first. */
  function MroLayers(mro: seq<Option<Entries>>, n: nat): seq<Entries>
    requires n <= |mro|
    decreases n
  {
    if n == 0 then []
    else
      var c := Inherited(mro, n - 1);
      (if c.Some? then [c.value] else []) + MroLayers(mro, n - 1)
  }

  /** Every layer the constructor applies, in order. */
  function Layers(defaults: Entries, config: Option<Entries>, mro: Option<seq<Option<Entries>>>): seq<Entries>
  {
    [defaults]
    + (if mro.Some? then MroLayers(mro.value, |mro.value|) else [])
    + (if config.Some? && |config.value| > 0 then [config.value] else [])
  }

  /** What `export` emits for a value: a callable as `"{{ module.name }}"`. */
  function Render(v: Value): (r: Value)
    ensures !Callable(v) ==> r == v
    ensures Callable(v) ==> r.Str? && Modules.Braced(r.s)
  {
    if Callable(v) then
      Modules.TemplateInner(Modules.DottedName(v.modname, v.name));
      Str(Modules.Template(Modules.DottedName(v.modname, v.name)))
    else v
  }

  /** What `update(val)` may be given. */
  datatype Source =
    | DictSource(d: Entries)
    /** A Composable subclass, as its MRO. */
    | PipelineSource(mro: seq<Option<Entries>>)
    | ConfigSource(c: Config)
    | OtherSource

  class Config {
    var attrs: Attrs
    const resolve: string -> Result<Value>

    /** Every available key holds a value, as it does once the defaults are applied. */
    ghost predicate Valid()
      reads this
    {
      attrs.Keys == Available
    }

    /** The object before `__init__` applies any layer; see `New`. */
    constructor(resolve: string -> Result<Value>)
      ensures attrs == map[] && this.resolve == resolve
    {
      attrs := map[];
      this.resolve := resolve;
    }

    method UpdateFromDict(d: Entries) returns (r: Result<()>)
      modifies this
      ensures (r, attrs) == ApplyDict(old(attrs), d, Loader(resolve))
    {
      var i := 0;
      r := Ok(());
      while i < |d|
        invariant 0 <= i <= |d|
        invariant ApplyDict(attrs, d[i..], Loader(resolve)) == ApplyDict(old(attrs), d, Loader(resolve))
      {
        var (k, v) := d[i];
        assert d[i..][1..] == d[i + 1..];
        if !Dunder(k) {
          if k !in Available {
            return Raise(ValueError, "Unknown config: " + k);
          }
          var x := Parse(v, resolve);
          if x.Err? {
            return Err(x.error);
          }
          attrs := attrs[k := x.value];
        }
        i := i + 1;
      }
    }

    method UpdateFromPipeline(mro: seq<Option<Entries>>) returns (r: Result<()>)
      modifies this
      ensures (r, attrs) == ApplyAll(old(attrs), MroLayers(mro, |mro|), Loader(resolve))
    {
      var i := |mro|;
      r := Ok(());
      while i > 0
        invariant 0 <= i <= |mro| && r == Ok(())
        invariant ApplyAll(attrs, MroLayers(mro, i), Loader(resolve)) ==
          ApplyAll(old(attrs), MroLayers(mro, |mro|), Loader(resolve))
      {
        i := i - 1;
        MroStep(attrs, mro, i, Loader(resolve));
        var c := Inherited(mro, i);
        if c.Some? {
          r := UpdateFromDict(c.value);
          if r.Err? {
            return;
          }
          OkUnit(r);
        }
      }
    }

    /** `export()`: every available key, a callable rendered as `"{{ module.name }}"`. */
    method Export() returns (r: Entries)
      requires Valid()
      ensures DistinctKeys(r)
      ensures forall k :: HasKey(r, k) <==> k in Available
      ensures forall k :: k in Available ==> Get(r, k) == Some(Render(attrs[k]))
    {
      var left := Available;
      r := [];
      while left != {}
        invariant left <= Available
        invariant DistinctKeys(r)
        invariant forall k :: HasKey(r, k) <==> k in Available - left
        invariant forall k :: HasKey(r, k) ==> Get(r, k) == Some(Render(attrs[k]))
        decreases |left|
      {
        var k :| k in left;
        AppendAbsent(r, k, Render(attrs[k]));
        r := r + [(k, Render(attrs[k]))];
        left := left - {k};
      }
    }

    /** `update_from_config(other)`: `other`'s export, applied as a dict. */
    method UpdateFromConfig(other: Config) returns (r: Result<()>)
      requires Valid() && other.Valid()
      modifies this
      ensures Valid()
      ensures r.Ok? <==> forall k :: k in Available ==> Parse(Render(old(other.attrs)[k]), resolve).Ok?
      ensures r.Ok? ==> forall k :: k in Available ==> Parse(Render(old(other.attrs)[k]), resolve) == Ok(attrs[k])
    {
      var e := other.Export();
      ghost var before := attrs;
      assert Exported(e, old(other.attrs));
      r := UpdateFromDict(e);
      ExportedOk(before, e, old(other.attrs), Loader(resolve));
      if r.Ok? {
        ExportedValues(before, e, old(other.attrs), Loader(resolve));
      }
    }

    /** `update(val)`: any other kind of value is ignored. */
    method Update(val: Source) returns (r: Result<()>)
      requires Valid()
      requires val.ConfigSource? ==> val.c.Valid()
      modifies this
      ensures Valid()
      ensures val.DictSource? ==> (r, attrs) == ApplyDict(old(attrs), val.d, Loader(resolve))
      ensures val.PipelineSource? ==>
        (r, attrs) == ApplyAll(old(attrs), MroLayers(val.mro, |val.mro|), Loader(resolve))
      ensures val.ConfigSource? ==>
        (r.Ok? <==> forall k :: k in Available ==> Parse(Render(old(val.c.attrs)[k]), resolve).Ok?)
      ensures val.ConfigSource? && r.Ok? ==>
        forall k :: k in Available ==> Parse(Render(old(val.c.attrs)[k]), resolve) == Ok(attrs[k])
      ensures val.OtherSource? ==> r == Ok(()) && attrs == old(attrs)
    {
      match val
      case DictSource(d) =>
        r := UpdateFromDict(d);
      case PipelineSource(mro) =>
        r := UpdateFromPipeline(mro);
      case ConfigSource(c) =>
        r := UpdateFromConfig(c);
      case OtherSource =>
        r := Ok(());
    }
  }

  /**
   * `Config(config, cls)`: the defaults, then `cls`'s MRO when given, then
   * `config` when it is a non-empty dict.  A raise in any layer is the
   * constructor's raise.
   */
  method New(config: Option<Entries>, cls: Option<seq<Option<Entries>>>, resolve: string -> Result<Value>)
    returns (r: Result<Config>)
    ensures r.Ok? <==> ApplyAll(map[], Layers(Defaults, config, cls), Loader(resolve)).0.Ok?
    ensures r.Err? ==> r.error == ApplyAll(map[], Layers(Defaults, config, cls), Loader(resolve)).0.error
    ensures r.Ok? ==> (fresh(r.value) && r.value.Valid() && r.value.resolve == resolve &&
      r.value.attrs == ApplyAll(map[], Layers(Defaults, config, cls), Loader(resolve)).1)
  {
    var c := new Config(resolve);
    ghost var parse := Loader(resolve);
    ghost var m := if cls.Some? then MroLayers(cls.value, |cls.value|) else [];
    ghost var t := if config.Some? && |config.value| > 0 then [config.value] else [];
    LayersSplit(Defaults, config, cls, parse);
    var x := c.UpdateFromDict(Defaults);
    SingleLayer(map[], Defaults, parse);
    DefaultsFill(Defaults, parse);
    if x.Err? {
      return Err(x.error);
    }
    OkUnit(x);
    if cls.Some? {
      x := c.UpdateFromPipeline(cls.value);
      if x.Err? {
        return Err(x.error);
      }
      OkUnit(x);
    }
    if config.Some? && |config.value| > 0 {
      ghost var before := c.attrs;
      x := c.UpdateFromDict(config.value);
      SingleLayer(before, config.value, parse);
      if x.Err? {
        return Err(x.error);
      }
    }
    r := Ok(c);
  }

  /** One class of `update_from_pipeline`: its layer, if any, then the classes below it. */
  lemma MroStep(attrs: Attrs, mro: seq<Option<Entries>>, i: nat, parse: Value -> Result<Value>)
    requires i < |mro|
    ensures Inherited(mro, i).Some? ==>
      ApplyAll(attrs, MroLayers(mro, i + 1), parse) == Then(ApplyDict(attrs, Inherited(mro, i).value, parse), MroLayers(mro, i), parse)
    ensures Inherited(mro, i).None? ==> MroLayers(mro, i + 1) == MroLayers(mro, i)
  {
    var c := Inherited(mro, i);
    if c.Some? {
      var rest := MroLayers(mro, i);
      assert MroLayers(mro, i + 1) == [c.value] + rest;
      assert ([c.value] + rest)[0] == c.value && ([c.value] + rest)[1..] == rest;
    }
  }

  /** A single layer is one `update_from_dict`. */
  lemma SingleLayer(attrs: Attrs, d: Entries, parse: Value -> Result<Value>)
    ensures ApplyAll(attrs, [d], parse) == ApplyDict(attrs, d, parse)
  {
    assert [d][0] == d && [d][1..] == [];
    if ApplyDict(attrs, d, parse).0.Ok? {
      OkUnit(ApplyDict(attrs, d, parse).0);
    }
  }

  /** The constructor's layers: the defaults, then the MRO, then the given dict. */
  lemma LayersSplit(defaults: Entries, config: Option<Entries>, cls: Option<seq<Option<Entries>>>, parse: Value -> Result<Value>)
    ensures var m := if cls.Some? then MroLayers(cls.value, |cls.value|) else [];
      var t := if config.Some? && |config.value| > 0 then [config.value] else [];
      ApplyAll(map[], Layers(defaults, config, cls), parse) == Then(Then(ApplyAll(map[], [defaults], parse), m, parse), t, parse)
  {
    var m := if cls.Some? then MroLayers(cls.value, |cls.value|) else [];
    var t := if config.Some? && |config.value| > 0 then [config.value] else [];
    ApplyAllAppend(map[], [defaults] + m, t, parse);
    ApplyAllAppend(map[], [defaults], m, parse);
  }


  /** `ConfigProperty.__get__`: reading before a config is attached raises. */
  function PropertyGet(slot: Option<Config>): (r: Result<Config>)
    ensures r.Ok? <==> slot.Some?
    ensures r.Ok? ==> r.value == slot.value
    ensures r.Err? ==> r.error.kind == ValueError
  {
    if slot.None? then Raise(ValueError, "ConfigProperty can only be accessed after initialization")
    else Ok(slot.value)
  }

  /** What `ConfigProperty.__set__` may be given. */
  datatype Assigned = AConfig(c: Config) | ADict(d: Entries) | ANone

  /**
   * `ConfigProperty.__set__`: the new `_ff_config`.  Only a Config object is
   * accepted; the dict and None branches after the type check are never reached.
   */
  function PropertySet(value: Assigned): (r: Result<Config>)
    ensures r.Ok? <==> value.AConfig?
    ensures r.Ok? ==> r.value == value.c
    ensures r.Err? ==> r.error.kind == ValueError
  {
    if !value.AConfig? then Raise(ValueError, "ConfigProperty can only be set with Config object")
    else Ok(value.c)
  }

  /**
   * `ConfigGet.__getattr__(name)`: a callable config value is called with
   * the pipeline (`call` stands for that call), anything else is returned.
   */
  function GetAttr(config: Config, name: string, call: Value -> Result<Value>): (r: Result<Value>)
    reads config
    ensures name !in config.attrs ==> r.Err? && r.error.kind == AttributeError
    ensures name in config.attrs && Callable(config.attrs[name]) ==> r == call(config.attrs[name])
    ensures name in config.attrs && !Callable(config.attrs[name]) ==> r == Ok(config.attrs[name])
  {
    if name !in config.attrs then Raise(AttributeError, "'Config' object has no attribute " + name)
    else if Callable(config.attrs[name]) then call(config.attrs[name])
    else Ok(config.attrs[name])
  }

  // ---------------------------------------------------------------------
  // Properties of update_from_dict

  /** Entry `i` has an unknown key, and every entry before it would have been applied. */
  predicate UnknownAt(d: Entries, parse: Value -> Result<Value>, i: int)
  {
    0 <= i < |d| && !Dunder(d[i].0) && d[i].0 !in Available &&
    forall j :: 0 <= j < i && !Dunder(d[j].0) ==> d[j].0 in Available && parse(d[j].1).Ok?
  }

  ghost predicate FirstUnknown(d: Entries, parse: Value -> Result<Value>)
  {
    exists i :: UnknownAt(d, parse, i)
  }

  /**
   * A dict applies cleanly exactly when each of its keys that does not start
   * with `__` is available and its value parses.
   */
  lemma {:induction false} ApplyOkIff(attrs: Attrs, d: Entries, parse: Value -> Result<Value>)
    ensures ApplyDict(attrs, d, parse).0.Ok? <==>
      forall i :: 0 <= i < |d| && !Dunder(d[i].0) ==> d[i].0 in Available && parse(d[i].1).Ok?
    ensures ApplyDict(attrs, d, parse).0.Err? && FirstUnknown(d, parse) ==>
      ApplyDict(attrs, d, parse).0.error.kind == ValueError
    decreases |d|
  {
    if |d| > 0 {
      var (k, v) := d[0];
      if Dunder(k) || (k in Available && parse(v).Ok?) {
        var a := if Dunder(k) then attrs else attrs[k := parse(v).value];
        ApplyOkIff(a, d[1..], parse);
        forall i | 1 <= i < |d| ensures d[i] == d[1..][i - 1] { }
        if ApplyDict(attrs, d, parse).0.Err? && FirstUnknown(d, parse) {
          var i :| UnknownAt(d, parse, i);
          assert i > 0;
          assert d[1..][i - 1] == d[i];
          assert UnknownAt(d[1..], parse, i - 1) by {
            forall j | 0 <= j < i - 1 && !Dunder(d[1..][j].0) ensures parse(d[1..][j].1).Ok? {
              assert d[1..][j] == d[j + 1];
            }
          }
        }
      }
    }
  }

  /**
   * After a clean application of a dict (whose keys are distinct, as in any
   * Python dict), each given key that does not start with `__` holds its
   * parsed value, and every other attribute is as before.
   */
  lemma {:induction false} ApplyValues(attrs: Attrs, d: Entries, parse: Value -> Result<Value>, k: string)
    requires DistinctKeys(d)
    requires ApplyDict(attrs, d, parse).0.Ok?
    ensures var a := ApplyDict(attrs, d, parse).1;
      if HasKey(d, k) && !Dunder(k) then
        k in a && parse(Get(d, k).value).Ok? && a[k] == parse(Get(d, k).value).value
      else
        (k in a <==> k in attrs) && (k in attrs ==> a[k] == attrs[k])
    decreases |d|
  {
    if |d| > 0 {
      DistinctKeysIff(d);
      var (k0, v0) := d[0];
      var a := if Dunder(k0) then attrs else attrs[k0 := parse(v0).value];
      ApplyValues(a, d[1..], parse, k);
      assert Keys(d) == [k0] + Keys(d[1..]);
    }
  }

  /** Keys starting with `__` are skipped: dropping them changes nothing. */
  lemma {:induction false} DunderIgnored(attrs: Attrs, d: Entries, parse: Value -> Result<Value>)
    ensures ApplyDict(attrs, d, parse) == ApplyDict(attrs, WithoutDunder(d), parse)
    decreases |d|
  {
    if |d| > 0 {
      var (k, v) := d[0];
      if Dunder(k) {
        DunderIgnored(attrs, d[1..], parse);
      } else {
        var e := WithoutDunder(d);
        assert e[0] == d[0] && e[1..] == WithoutDunder(d[1..]);
        if k in Available && parse(v).Ok? {
          DunderIgnored(attrs[k := parse(v).value], d[1..], parse);
        }
      }
    }
  }

  /** The entries whose key does not start with `__`, in order. */
  function WithoutDunder(d: Entries): (r: Entries)
    ensures forall i :: 0 <= i < |r| ==> !Dunder(r[i].0)
    decreases |d|
  {
    if |d| == 0 then []
    else if Dunder(d[0].0) then WithoutDunder(d[1..])
    else
      var r := [d[0]] + WithoutDunder(d[1..]);
      assert r[1..] == WithoutDunder(d[1..]);
      r
  }

  /** Applying one dict after another is applying their layers in order. */
  lemma {:induction false} ApplyAllAppend(attrs: Attrs, xs: seq<Entries>, ys: seq<Entries>, parse: Value -> Result<Value>)
    ensures ApplyAll(attrs, xs + ys, parse) ==
      (var p := ApplyAll(attrs, xs, parse); if p.0.Err? then p else ApplyAll(p.1, ys, parse))
    decreases |xs|
  {
    if |xs| > 0 {
      assert (xs + ys)[0] == xs[0] && (xs + ys)[1..] == xs[1..] + ys;
      var (c, a) := ApplyDict(attrs, xs[0], parse);
      if c.Ok? {
        ApplyAllAppend(a, xs[1..], ys, parse);
      }
    } else {
      assert xs + ys == ys;
    }
  }

  /** The last layer that gives key `k` (a key starting with `__` is never given). */
  function LastWith(ds: seq<Entries>, k: string): (r: Option<nat>)
    ensures r.Some? ==> r.value < |ds| && HasKey(ds[r.value], k) && !Dunder(k)
    ensures r.Some? ==> forall j :: r.value < j < |ds| ==> !HasKey(ds[j], k)
    ensures r.None? ==> Dunder(k) || forall j :: 0 <= j < |ds| ==> !HasKey(ds[j], k)
    decreases |ds|
  {
    if |ds| == 0 || Dunder(k) then None
    else if HasKey(ds[|ds| - 1], k) then Some(|ds| - 1)
    else LastWith(ds[..|ds| - 1], k)
  }

  /**
   * Later layers win: after a clean application of several layers, a key
   * holds the parsed value from the last layer that gives it, and a key no
   * layer gives keeps its earlier value.
   */
  lemma {:induction false} LaterWins(attrs: Attrs, ds: seq<Entries>, parse: Value -> Result<Value>, k: string)
    requires forall j :: 0 <= j < |ds| ==> DistinctKeys(ds[j])
    requires ApplyAll(attrs, ds, parse).0.Ok?
    ensures var a := ApplyAll(attrs, ds, parse).1;
      match LastWith(ds, k)
      case Some(j) => k in a && parse(Get(ds[j], k).value) == Ok(a[k])
      case None => (k in a <==> k in attrs) && (k in attrs ==> a[k] == attrs[k])
    decreases |ds|
  {
    if |ds| > 0 {
      var init := ds[..|ds| - 1];
      var last := ds[|ds| - 1];
      assert init + [last] == ds;
      ApplyAllAppend(attrs, init, [last], parse);
      var p := ApplyAll(attrs, init, parse);
      assert p.0.Ok?;
      LaterWins(attrs, init, parse, k);
      SingleLayer(p.1, last, parse);
      ApplyValues(p.1, last, parse, k);
    }
  }

  // ---------------------------------------------------------------------
  // Properties of the constructor, export and the inherited layers

  /** The defaults fill every available key, when both callbacks resolve. */
  lemma DefaultsFill(defaults: Entries, parse: Value -> Result<Value>)
    requires Keys(defaults) == ["store_result", "run_id"]
    ensures ApplyDict(map[], defaults, parse).0.Ok? ==> ApplyDict(map[], defaults, parse).1.Keys == Available
  {
    if ApplyDict(map[], defaults, parse).0.Ok? {
      assert defaults[0].0 == "store_result" && defaults[1].0 == "run_id";
      assert DistinctKeys(defaults);
      assert HasKey(defaults, "store_result") && HasKey(defaults, "run_id");
      AvailableNotDunder("store_result");
      AvailableNotDunder("run_id");
      ApplyValues(map[], defaults, parse, "store_result");
      ApplyValues(map[], defaults, parse, "run_id");
    }
  }


  /** Available keys are never skipped as `__` keys. */
  lemma AvailableNotDunder(k: string)
    requires k in Available
    ensures !Dunder(k)
  {
    assert k[0] != '_';
  }

  /** What `export` gives: each available key once, with its rendered value. */
  ghost predicate Exported(e: Entries, other: Attrs)
  {
    DistinctKeys(e) &&
    (forall k :: HasKey(e, k) <==> k in Available) &&
    (forall k :: k in Available ==> k in other && Get(e, k) == Some(Render(other[k])))
  }

  /** Every pair of an export is an available key with its rendered value. */
  lemma ExportedPairs(e: Entries, other: Attrs)
    requires Exported(e, other)
    ensures forall i :: 0 <= i < |e| ==> e[i].0 in Available && !Dunder(e[i].0) && e[i].1 == Render(other[e[i].0])
  {
    forall i | 0 <= i < |e| ensures e[i].0 in Available && !Dunder(e[i].0) && e[i].1 == Render(other[e[i].0]) {
      assert Keys(e)[i] == e[i].0;
      var j := Find(e, e[i].0).value;
      assert j == i;
      AvailableNotDunder(e[i].0);
    }
  }

  /** `update_from_config` succeeds exactly when every exported value parses. */
  lemma ExportedOk(attrs: Attrs, e: Entries, other: Attrs, parse: Value -> Result<Value>)
    requires Exported(e, other)
    ensures ApplyDict(attrs, e, parse).0.Ok? <==> forall k :: k in Available ==> parse(Render(other[k])).Ok?
  {
    ApplyOkIff(attrs, e, parse);
    ExportedPairs(e, other);
    if ApplyDict(attrs, e, parse).0.Ok? {
      forall k | k in Available ensures parse(Render(other[k])).Ok? {
        var j := Find(e, k).value;
      }
    }
  }

  /** After a clean `update_from_config`, each available key holds the parsed export. */
  lemma ExportedValues(attrs: Attrs, e: Entries, other: Attrs, parse: Value -> Result<Value>)
    requires Exported(e, other)
    requires ApplyDict(attrs, e, parse).0.Ok?
    ensures forall k :: k in Available ==>
      k in ApplyDict(attrs, e, parse).1 && parse(Render(other[k])) == Ok(ApplyDict(attrs, e, parse).1[k])
  {
    forall k | k in Available ensures
      k in ApplyDict(attrs, e, parse).1 && parse(Render(other[k])) == Ok(ApplyDict(attrs, e, parse).1[k]) {
      AvailableNotDunder(k);
      ApplyValues(attrs, e, parse, k);
    }
  }

  /**
   * `export` then `update_from_config` round-trips a value: a named function
   * or class comes back through its `"{{ module.name }}"` rendering when the
   * resolver maps that name back to it, and any other value that does not
   * look like `{{…}}` is copied as it is.
   */
  lemma RenderParse(v: Value, resolve: string -> Result<Value>)
    requires Callable(v) ==>
      Modules.Trimmed(Modules.DottedName(v.modname, v.name)) && resolve(Modules.DottedName(v.modname, v.name)) == Ok(v)
    requires !Callable(v) ==> !Reference(v)
    ensures Parse(Render(v), resolve) == Ok(v)
  {
    if Callable(v) {
      var d := Modules.DottedName(v.modname, v.name);
      Modules.TemplateInner(d);
      Modules.StripPadded(d);
    }
  }

  /** A plain string that looks like `{{…}}` is not copied but resolved. */
  lemma ReferenceNotCopied(s: string, resolve: string -> Result<Value>)
    requires Modules.Braced(s)
    ensures Render(Str(s)) == Str(s)
    ensures Parse(Render(Str(s)), resolve) == resolve(Referent(Str(s)))
  {
  }

  /**
   * A class without its own `Config` re-applies the one it inherits, right
   * after that one was applied; this changes nothing, so the MRO layers act
   * as the classes' own `Config` bodies from base to derived.
   */
  lemma InheritedHarmless(attrs: Attrs, mro: seq<Option<Entries>>, parse: Value -> Result<Value>)
    requires forall j :: 0 <= j < |mro| && mro[j].Some? ==> DistinctKeys(mro[j].value)
    ensures ApplyAll(attrs, MroLayers(mro, |mro|), parse) == ApplyAll(attrs, OwnLayers(mro, |mro|), parse)
  {
    OwnFromInherited(attrs, mro, |mro|, parse);
  }

  /** The classes' own `Config` bodies among the first `n`, base first. */
  function OwnLayers(mro: seq<Option<Entries>>, n: nat): seq<Entries>
    requires n <= |mro|
    decreases n
  {
    if n == 0 then []
    else (if mro[n - 1].Some? then [mro[n - 1].value] else []) + OwnLayers(mro, n - 1)
  }

  /** A dict applied once more, right after a clean application, changes nothing. */
  lemma Idempotent(attrs: Attrs, d: Entries, parse: Value -> Result<Value>)
    requires DistinctKeys(d)
    requires ApplyDict(attrs, d, parse).0.Ok?
    ensures var a := ApplyDict(attrs, d, parse).1;
      ApplyDict(a, d, parse) == (Ok(()), a)
  {
    var a := ApplyDict(attrs, d, parse).1;
    ApplyOkIff(attrs, d, parse);
    ApplyOkIff(a, d, parse);
    var a2 := ApplyDict(a, d, parse).1;
    forall k ensures (k in a2 <==> k in a) && (k in a ==> a2[k] == a[k]) {
      ApplyValues(a, d, parse, k);
      ApplyValues(attrs, d, parse, k);
    }
    assert a2 == a;
    OkUnit(ApplyDict(a, d, parse).0);
  }

  /**
   * Applying the inherited layers of the first `n` classes equals applying
   * their own layers, from a state that the layer the next class up finds
   * (`Inherited(mro, n)`) leaves unchanged.
   */
  lemma {:induction false} OwnFromInherited(attrs: Attrs, mro: seq<Option<Entries>>, n: nat, parse: Value -> Result<Value>)
    requires n <= |mro|
    requires forall j :: 0 <= j < |mro| && mro[j].Some? ==> DistinctKeys(mro[j].value)
    requires Inherited(mro, n).Some? ==> ApplyDict(attrs, Inherited(mro, n).value, parse) == (Ok(()), attrs)
    ensures ApplyAll(attrs, MroLayers(mro, n), parse) == ApplyAll(attrs, OwnLayers(mro, n), parse)
    decreases n
  {
    if n > 0 {
      var i := n - 1;
      var c := Inherited(mro, i);
      if mro[i].Some? {
        var d := mro[i].value;
        assert MroLayers(mro, n) == [d] + MroLayers(mro, i);
        assert OwnLayers(mro, n) == [d] + OwnLayers(mro, i);
        assert ([d] + MroLayers(mro, i))[1..] == MroLayers(mro, i);
        assert ([d] + OwnLayers(mro, i))[1..] == OwnLayers(mro, i);
        var (r, a) := ApplyDict(attrs, d, parse);
        if r.Ok? {
          Idempotent(attrs, d, parse);
          OwnFromInherited(a, mro, i, parse);
        }
      } else if c.Some? {
        var d := c.value;
        assert MroLayers(mro, n) == [d] + MroLayers(mro, i);
        assert ([d] + MroLayers(mro, i))[1..] == MroLayers(mro, i);
        assert OwnLayers(mro, n) == OwnLayers(mro, i);
        OwnFromInherited(attrs, mro, i, parse);
      } else {
        assert MroLayers(mro, n) == MroLayers(mro, i);
        assert OwnLayers(mro, n) == OwnLayers(mro, i);
        OwnFromInherited(attrs, mro, i, parse);
      }
    }
  }
}
