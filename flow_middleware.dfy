/**
 * The prototype's middleware (finestflow/middleware.py): a wrapper around
 * a Pipeline or a Step that sees each call before the wrapped object
 * does.  The skip middleware serves steps before the `from` step out of a
 * previous run and stops running after the `to` step; the track
 * middleware logs every named call's input and output.
 *
 * `next_call` is a function of the call's arguments; what the previous
 * run holds for a step is passed in as `cached`.
 */
module FlowMiddlewares {
  import opened Wrappers
  import opened PyValues
  import opened Text
  import opened FlowContexts
  import Paths
  import FlowPipelines

  datatype ObjKind = PipelineObj | StepObj | StepProxyObj

  /** What a middleware reads and writes of the Pipeline or Step it wraps. */
  class Target {
    const kind: ObjKind
    const context: FlowContext
    var prefix: Option<string>
    /** `_is_pipeline_nested`. */
    var nested: bool
    /** `_ff_config.export()`. */
    var configExport: Entries
    /** `last_run`: the config it records and the progress logged, in order. */
    var lastConfig: Option<Entries>
    var logged: seq<(string, Value, Value)>

    constructor(kind: ObjKind, context: FlowContext, prefix: Option<string>, nested: bool, configExport: Entries)
      ensures this.kind == kind && this.context == context && this.prefix == prefix && this.nested == nested
      ensures this.configExport == configExport && lastConfig == None && logged == []
    {
      this.kind := kind;
      this.context := context;
      this.prefix := prefix;
      this.nested := nested;
      this.configExport := configExport;
      lastConfig := None;
      logged := [];
    }
  }

  /** The `obj` parameter: a Pipeline or Step, or any other value (`PyNone` also when it is missing). */
  datatype ObjArg = ObjOf(t: Target) | OtherObj(v: Value)

  /** `Middleware`, `SkipComponentMiddleware` or `TrackProgressMiddleware`. */
  datatype Flavour = Base | Skip | Track

  /** `type(v).__name__`, the name Python puts in an attribute error. */
  function PyTypeName(v: Value): string
  {
    match v
      case PyNone => "NoneType"
      case Bool(_) => "bool"
      case Int(_) => "int"
      case Str(_) => "str"
      case List(_) => "list"
      case Tuple(_) => "tuple"
      case Dict(_) => "dict"
      case Func(_, _) => "function"
      case Class(_, _, _) => "type"
      case Object(t, _) => t
  }

  /** `type(v)` as Python prints it. */
  function PyType(v: Value): string
  {
    "<class '" + PyTypeName(v) + "'>"
  }

  /** `obj_type` as `__init__` decides it. */
  function ObjType(obj: ObjArg): (r: Result<string>)
    ensures r.Ok? <==> obj.ObjOf?
    ensures r.Ok? ==> (r.value == "pipeline" <==> obj.t.kind == PipelineObj) && (r.value == "step" <==> obj.t.kind != PipelineObj)
    ensures obj == OtherObj(PyNone) ==> r == Raise(ValueError, "obj must be specified")
    ensures obj.OtherObj? && obj.v != PyNone ==> r.Err? && r.error.kind == AttributeError
  {
    match obj
    case ObjOf(t) => if t.kind == PipelineObj then Ok("pipeline") else Ok("step")
    case OtherObj(PyNone) => Raise(ValueError, "obj must be specified")
    case OtherObj(v) => Raise(AttributeError, "obj must be either Pipeline or Step, got " + PyType(v))
  }

  /** `str(v)` for the values a step name is given as. */
  function NameText(v: Value): Option<string>
  {
    match v
    case Str(s) => Some(s)
    case Int(i) => Some(IntToString(i))
    case Bool(b) => Some(if b then "True" else "False")
    case _ => None
  }

  /** `f"{prefix}"`: a missing prefix prints as `None`. */
  function PrefixText(prefix: Option<string>): string
  {
    if prefix.Some? then prefix.value else "None"
  }

  /** The name the skip middleware matches a step by. */
  function SkipName(prefix: Option<string>, name: string): string
  {
    PrefixText(prefix) + "." + name
  }

  /** The name the track middleware logs a step under. */
  function TrackName(prefix: Option<string>, name: string): string
  {
    if prefix.None? then name else prefix.value + "." + name
  }

  /**
   * Under a prefix the two middlewares and the flow's own call all use
   * `prefix.name`; at the root the skip middleware matches `None.name`
   * while the track middleware and the flow use the bare name.
   */
  lemma NamesAgree(prefix: Option<string>, name: string)
    ensures prefix.Some? ==> SkipName(prefix, name) == TrackName(prefix, name)
    ensures prefix.None? ==> SkipName(prefix, name) == "None." + name && TrackName(prefix, name) == name
    ensures FlowPipelines.CallName(prefix, name).Ok? ==> FlowPipelines.CallName(prefix, name).value == TrackName(prefix, name)
  {
  }

  /** What the skip middleware does with a named step. */
  datatype Action =
    | RunOn                // the flag is on and the step is not `to`: run it
    | Resume               // the flag is off and the step matches `from`: turn it on, run it
    | Reuse                // the flag is off otherwise: the previous run's output, or run it
    | Halt                 // the step is `to`: turn the flag off, run it
    | Refuse(e: Exc)       // `from` is not a string pattern

  /** The decision of `run_step` from the scope's flag, the global `from` and `to`, and the step's full name. */
  function SkipAction(good: Value, from: Value, to: Value, full: string): Action
  {
    if good == Bool(false) then
      if !from.Str? then Refuse(Exc(AttributeError, "'" + PyTypeName(from) + "' object has no attribute 'split'"))
      else if Paths.IsNameMatched(full, from.s) then Resume
      else Reuse
    else if to == Str(full) then Halt
    else RunOn
  }

  /** The scope's flag after a step. */
  function FlagAfter(a: Action, good: bool): bool
  {
    match a
    case Resume => true
    case Halt => false
    case _ => good
  }

  /**
   * Which of the steps `names`, called in order in one scope whose flag
   * starts at `good`, are served from the previous run.
   */
  function Skipped(good: bool, from: string, to: string, names: seq<string>): (r: seq<bool>)
    ensures |r| == |names|
    decreases |names|
  {
    if |names| == 0 then []
    else
      var a := SkipAction(Bool(good), Str(from), Str(to), names[0]);
      [a.Reuse?] + Skipped(FlagAfter(a, good), from, to, names[1..])
  }

  /** With the flag on and no `to` among them, every step runs. */
  lemma {:induction false} NeverSkipped(from: string, to: string, names: seq<string>)
    requires forall i :: 0 <= i < |names| ==> names[i] != to
    ensures forall i :: 0 <= i < |names| ==> !Skipped(true, from, to, names)[i]
    decreases |names|
  {
    if |names| > 0 {
      NeverSkipped(from, to, names[1..]);
      var s := Skipped(true, from, to, names);
      forall i | 0 <= i < |names| ensures !s[i] {
        if i > 0 {
          assert s[i] == Skipped(true, from, to, names[1..])[i - 1];
        }
      }
    }
  }

  /** With the flag off and no step matching `from`, every step is served from the previous run. */
  lemma {:induction false} AlwaysSkipped(from: string, to: string, names: seq<string>)
    requires forall i :: 0 <= i < |names| ==> !Paths.IsNameMatched(names[i], from)
    ensures forall i :: 0 <= i < |names| ==> Skipped(false, from, to, names)[i]
    decreases |names|
  {
    if |names| > 0 {
      AlwaysSkipped(from, to, names[1..]);
      var s := Skipped(false, from, to, names);
      forall i | 0 <= i < |names| ensures s[i] {
        if i > 0 {
          assert s[i] == Skipped(false, from, to, names[1..])[i - 1];
        }
      }
    }
  }

  /**
   * Starting with the flag off (a run started `from` some step), a step is
   * served from the previous run exactly when neither it nor any step
   * before it matches `from`.
   */
  lemma {:induction false} FromResumes(from: string, to: string, names: seq<string>)
    requires forall i :: 0 <= i < |names| ==> names[i] != to
    ensures forall i :: 0 <= i < |names| ==>
      (Skipped(false, from, to, names)[i] <==> forall j :: 0 <= j <= i ==> !Paths.IsNameMatched(names[j], from))
    decreases |names|
  {
    if |names| > 0 {
      var s := Skipped(false, from, to, names);
      var tail := Skipped(FlagAfter(SkipAction(Bool(false), Str(from), Str(to), names[0]), false), from, to, names[1..]);
      assert s == [s[0]] + tail;
      if Paths.IsNameMatched(names[0], from) {
        NeverSkipped(from, to, names[1..]);
        forall i | 0 <= i < |names| ensures !s[i] {
          if i > 0 {
            assert s[i] == tail[i - 1];
          }
        }
      } else {
        FromResumes(from, to, names[1..]);
        forall i | 0 <= i < |names|
          ensures s[i] <==> forall j :: 0 <= j <= i ==> !Paths.IsNameMatched(names[j], from)
        {
          if i > 0 {
            assert s[i] == tail[i - 1];
            assert (forall j :: 0 <= j <= i - 1 ==> !Paths.IsNameMatched(names[1..][j], from)) <==>
                   (forall j :: 1 <= j <= i ==> !Paths.IsNameMatched(names[j], from)) by {
              forall j | 1 <= j <= i ensures names[1..][j - 1] == names[j] {}
            }
          }
        }
      }
    }
  }

  /**
   * Starting with the flag on and no step matching `from`, a step is served
   * from the previous run exactly when an earlier step was `to`: `to`
   * itself still runs.
   */
  lemma {:induction false} ToHalts(from: string, to: string, names: seq<string>)
    requires forall i :: 0 <= i < |names| ==> !Paths.IsNameMatched(names[i], from)
    ensures forall i :: 0 <= i < |names| ==>
      (Skipped(true, from, to, names)[i] <==> exists j :: 0 <= j < i && names[j] == to)
    decreases |names|
  {
    if |names| > 0 {
      var s := Skipped(true, from, to, names);
      var tail := Skipped(FlagAfter(SkipAction(Bool(true), Str(from), Str(to), names[0]), true), from, to, names[1..]);
      assert s == [s[0]] + tail;
      if names[0] == to {
        AlwaysSkipped(from, to, names[1..]);
        forall i | 0 <= i < |names| ensures s[i] <==> exists j :: 0 <= j < i && names[j] == to {
          if i > 0 {
            assert s[i] == tail[i - 1];
          }
        }
      } else {
        ToHalts(from, to, names[1..]);
        forall i | 0 <= i < |names| ensures s[i] <==> exists j :: 0 <= j < i && names[j] == to {
          if i > 0 {
            assert s[i] == tail[i - 1];
            if exists j :: 0 <= j < i && names[j] == to {
              var j :| 0 <= j < i && names[j] == to;
              assert names[1..][j - 1] == to;
            }
            if exists j :: 0 <= j < i - 1 && names[1..][j] == to {
              var j :| 0 <= j < i - 1 && names[1..][j] == to;
              assert names[j + 1] == to;
            }
          }
        }
      }
    }
  }

  /**
   * Where a run resumes: a pipeline at dotted path `p` is the parent of
   * `from == p.last`, so it turns its own scope's flag off; inside, the
   * step `last` (its prefix is `p`) matches `from`, and a sibling does not.
   */
  lemma ResumePoint(segs: seq<string>, last: string, other: string)
    requires |segs| >= 1 && Paths.Segments(segs) && Paths.Literal(segs)
    requires Paths.Segment(last) && Paths.Segment(other) && '*' !in last && other != last
    ensures var p := "." + Join(segs, '.');
      Paths.IsParentOfChild(p, p + "." + last) &&
      Paths.IsNameMatched(SkipName(Some(p), last), p + "." + last) &&
      !Paths.IsNameMatched(SkipName(Some(p), other), p + "." + last)
  {
    var p := "." + Join(segs, '.');
    Paths.ParentOfExtension(segs, last);
    Paths.JoinLiteral(segs);
    assert '*' !in p;
    assert '*' !in p + "." + last;
    Paths.ExactMatch(SkipName(Some(p), last), p + "." + last);
    Paths.ExactMatch(SkipName(Some(p), other), p + "." + last);
    assert (p + "." + other)[|p| + 1..] == other;
    assert (p + "." + last)[|p| + 1..] == last;
  }

  /** What the track middleware logs for one call: the named call that returned, under `TrackName`. */
  function LogEntry(prefix: Option<string>, args: seq<Value>, kwargs: Entries, r: Result<Value>): seq<(string, Value, Value)>
  {
    var nameV := GetOr(kwargs, "_ff_name", PyNone);
    var n := NameText(nameV);
    if nameV != PyNone && n.Some? && r.Ok? then
      [(TrackName(prefix, n.value), Dict([("args", Tuple(args)), ("kwargs", Dict(kwargs))]), r.value)]
    else []
  }

  /** What the skip middleware's `run_pipeline` writes to the global scope, in order. */
  function Gathered(kwargs: Entries): seq<(string, Value)>
  {
    var from := GetOr(kwargs, "_ff_from", PyNone);
    var to := GetOr(kwargs, "_ff_to", PyNone);
    (if Truthy(from) then [("from", from)] else []) + (if Truthy(to) then [("to", to)] else [])
  }

  /** What the wrapped pipeline gets: the keyword arguments without `_ff_from`, `_ff_to` and `_ff_from_run`. */
  function PipelineRest(kwargs: Entries): Entries
  {
    Remove(Remove(Remove(kwargs, "_ff_from"), "_ff_to"), "_ff_from_run")
  }

  /** The three keys are gone; `_ff_name` and every other key keep their value. */
  lemma PipelineRestKeeps(kwargs: Entries)
    requires DistinctKeys(kwargs)
    ensures forall k :: k in ["_ff_from", "_ff_to", "_ff_from_run"] ==> !HasKey(PipelineRest(kwargs), k)
    ensures forall k :: k !in ["_ff_from", "_ff_to", "_ff_from_run"] ==> Get(PipelineRest(kwargs), k) == Get(kwargs, k)
  {
    FlowPipelines.Stripped(kwargs, ["_ff_from", "_ff_to", "_ff_from_run"]);
    var w := FlowPipelines.Without(kwargs, ["_ff_from", "_ff_to", "_ff_from_run"]);
    assert ["_ff_from", "_ff_to", "_ff_from_run"][1..] == ["_ff_to", "_ff_from_run"];
    assert ["_ff_to", "_ff_from_run"][1..] == ["_ff_from_run"];
    assert ["_ff_from_run"][1..] == [];
    assert w == PipelineRest(kwargs);
  }

  /**
   * The outcome of the parent check: an unnamed call, or one with no
   * `from`, goes straight on; a named call that is the parent of `from`
   * turns off the flag of its own scope; names that are not strings raise.
   */
  predicate Marking(name: Value, f: Value, before: map<(Option<string>, string), Value>,
                    after: map<(Option<string>, string), Value>, r: Result<Value>, ran: Result<Value>)
  {
    if name == PyNone || !Truthy(f) then r == ran && after == before
    else if !name.Str? || !f.Str? then r.Err? && r.error.kind == AttributeError && after == before
    else r == ran && after == if Paths.IsParentOfChild(name.s, f.s) then before[(Some(name.s), "good_to_run") := Bool(false)] else before
  }

  /**
   * The outcome of a tracked call: a name that is neither None, a string,
   * an int nor a bool raises; otherwise the call returns what the wrapped
   * callable returns.
   */
  predicate Tracked(kwargs: Entries, r: Result<Value>, ran: Result<Value>)
  {
    var nameV := GetOr(kwargs, "_ff_name", PyNone);
    (nameV != PyNone && NameText(nameV).None? ==> r.Err?) &&
    (nameV == PyNone || NameText(nameV).Some? ==> r == ran)
  }

  class Middleware {
    const flavour: Flavour
    const obj: Target
    var objType: string

    constructor Make(flavour: Flavour, obj: Target, objType: string)
      ensures this.flavour == flavour && this.obj == obj && this.objType == objType
    {
      this.flavour := flavour;
      this.obj := obj;
      this.objType := objType;
    }

    /**
     * What the skip middleware's `run_step` returns and does to the
     * context: an unnamed call runs and changes nothing; a named one does
     * what `SkipAction` decides.
     */
    twostate predicate SkipStepped(args: seq<Value>, kwargs: Entries, next: (seq<Value>, Entries) -> Result<Value>,
                                   cached: Result<Value>, new r: Result<Value>)
      reads obj`prefix, obj.context`values
    {
      (GetOr(kwargs, "_ff_name", PyNone) == PyNone ==> r == next(args, kwargs) && obj.context.values == old(obj.context.values)) &&
      (var n := NameText(GetOr(kwargs, "_ff_name", PyNone));
        n.Some? ==>
        var scope := obj.prefix;
        var a := SkipAction(old(obj.context.Get("good_to_run", Bool(true), obj.prefix)), old(obj.context.Get("from", PyNone, None)),
                            old(obj.context.Get("to", PyNone, None)), SkipName(scope, n.value));
        scope == old(obj.prefix) &&
        obj.context.values == (match a
          case Resume => old(obj.context.values)[(scope, "good_to_run") := Bool(true)]
          case Halt => old(obj.context.values)[(scope, "good_to_run") := Bool(false)]
          case _ => old(obj.context.values)) &&
        r == (match a
          case Refuse(e) => Err(e)
          case Reuse => if cached.Ok? then cached else next(args, kwargs)
          case _ => next(args, kwargs)))
    }

    /**
     * What the skip middleware's `run_pipeline` returns and does to the
     * context: `Gathered` routes `from` and `to`, then `Marking` decides.
     */
    twostate predicate SkipPiped(args: seq<Value>, kwargs: Entries, next: (seq<Value>, Entries) -> Result<Value>, new r: Result<Value>)
      reads obj.context`values
    {
      var routed := FlowPipelines.Applied(old(obj.context.values), Gathered(kwargs));
      var f := if (None, "from") in routed then routed[(None, "from")] else PyNone;
      Marking(GetOr(kwargs, "_ff_name", PyNone), f, routed, obj.context.values, r, next(args, PipelineRest(kwargs)))
    }

    /**
     * `run(*args, **kwargs)`: the track middleware starts a fresh log; then
     * the call goes to `run_step` or `run_pipeline` by `obj_type`.
     */
    method Run(args: seq<Value>, kwargs: Entries, next: (seq<Value>, Entries) -> Result<Value>, cached: Result<Value>)
      returns (r: Result<Value>)
      requires DistinctKeys(kwargs)
      modifies obj.context`values, obj`lastConfig, obj`logged
      ensures objType != "step" && objType != "pipeline" ==> r == Raise(NotImplementedError, "Haven't implemented for " + objType)
      ensures flavour == Track && (objType == "step" || objType == "pipeline") ==>
        obj.logged == LogEntry(obj.prefix, args, kwargs, r) && obj.context.values == old(obj.context.values)
      ensures flavour == Track && objType == "pipeline" ==> obj.lastConfig == if obj.nested then None else Some(obj.configExport)
      ensures flavour != Track ==> obj.logged == old(obj.logged) && obj.lastConfig == old(obj.lastConfig)
      ensures flavour == Base && (objType == "step" || objType == "pipeline") ==>
        r == Ok(Tuple([Tuple(args), Dict(kwargs)])) && obj.context.values == old(obj.context.values)
      ensures flavour == Skip && objType == "step" ==> SkipStepped(args, kwargs, next, cached, r)
      ensures flavour == Skip && objType == "pipeline" ==> SkipPiped(args, kwargs, next, r)
      ensures flavour == Track && objType == "step" ==> Tracked(kwargs, r, next(args, kwargs))
      ensures flavour == Track && objType == "pipeline" ==> Tracked(kwargs, r, next(args, kwargs))
    {
      if flavour == Track {
        obj.lastConfig := None;
        obj.logged := [];
      }
      if objType == "step" {
        r := RunStep(args, kwargs, next, cached);
      } else if objType == "pipeline" {
        r := RunPipeline(args, kwargs, next);
      } else {
        r := Raise(NotImplementedError, "Haven't implemented for " + objType);
      }
    }

    /** `run_step`: the base middleware hands back its arguments. */
    method RunStep(args: seq<Value>, kwargs: Entries, next: (seq<Value>, Entries) -> Result<Value>, cached: Result<Value>)
      returns (r: Result<Value>)
      modifies obj.context`values, obj`logged
      ensures flavour == Base ==> r == Ok(Tuple([Tuple(args), Dict(kwargs)])) && obj.context.values == old(obj.context.values)
      ensures flavour != Track ==> obj.logged == old(obj.logged)
      ensures flavour == Track ==> obj.context.values == old(obj.context.values) && obj.logged == old(obj.logged) + LogEntry(obj.prefix, args, kwargs, r)
      ensures flavour == Skip ==> SkipStepped(args, kwargs, next, cached, r)
      ensures flavour == Track ==> Tracked(kwargs, r, next(args, kwargs))
    {
      match flavour
      case Base =>
        r := Ok(Tuple([Tuple(args), Dict(kwargs)]));
      case Skip =>
        r := SkipStep(args, kwargs, next, cached);
      case Track =>
        r := TrackStep(args, kwargs, next);
    }

    /** `run_pipeline`: the base middleware hands back its arguments. */
    method RunPipeline(args: seq<Value>, kwargs: Entries, next: (seq<Value>, Entries) -> Result<Value>)
      returns (r: Result<Value>)
      requires DistinctKeys(kwargs)
      modifies obj.context`values, obj`lastConfig, obj`logged
      ensures flavour == Base ==> r == Ok(Tuple([Tuple(args), Dict(kwargs)])) && obj.context.values == old(obj.context.values)
      ensures flavour != Track ==> obj.logged == old(obj.logged) && obj.lastConfig == old(obj.lastConfig)
      ensures flavour == Track ==>
        obj.context.values == old(obj.context.values) && obj.logged == old(obj.logged) + LogEntry(obj.prefix, args, kwargs, r) &&
        obj.lastConfig == if obj.nested then old(obj.lastConfig) else Some(obj.configExport)
      ensures flavour == Skip ==> SkipPiped(args, kwargs, next, r)
      ensures flavour == Track ==> Tracked(kwargs, r, next(args, kwargs))
    {
      match flavour
      case Base =>
        r := Ok(Tuple([Tuple(args), Dict(kwargs)]));
      case Skip =>
        r := SkipPipeline(args, kwargs, next);
      case Track =>
        r := TrackPipeline(args, kwargs, next);
    }

    /**
     * The skip middleware's `run_step`: an unnamed call runs; a named one
     * is decided by `SkipAction` on the flag of the step's own scope (its
     * prefix), the global `from` and `to`, and the step's full name.
     */
    method SkipStep(args: seq<Value>, kwargs: Entries, next: (seq<Value>, Entries) -> Result<Value>, cached: Result<Value>)
      returns (r: Result<Value>)
      modifies obj.context`values
      ensures SkipStepped(args, kwargs, next, cached, r)
    {
      var nameV := GetOr(kwargs, "_ff_name", PyNone);
      if nameV == PyNone {
        r := next(args, kwargs);
      } else {
        var n := NameText(nameV);
        if n.None? {
          r := Raise(TypeError, "step name of type " + PyType(nameV));
        } else {
          var scope := obj.prefix;
          var full := SkipName(scope, n.value);
          var a := SkipAction(obj.context.Get("good_to_run", Bool(true), scope), obj.context.Get("from", PyNone, None),
                              obj.context.Get("to", PyNone, None), full);
          match a {
            case Resume =>
              obj.context.Set("good_to_run", Bool(true), scope);
              r := next(args, kwargs);
            case Halt =>
              obj.context.Set("good_to_run", Bool(false), scope);
              r := next(args, kwargs);
            case Refuse(e) =>
              r := Err(e);
            case Reuse =>
              r := if cached.Ok? then cached else next(args, kwargs);
            case RunOn =>
              r := next(args, kwargs);
          }
        }
      }
    }

    /**
     * The skip middleware's `run_pipeline`: a truthy `_ff_from` and `_ff_to`
     * move into the global scope, `_ff_from_run` is dropped, and a named
     * pipeline that is the parent of `from` turns off the flag of its own
     * scope, so that its steps wait for the `from` step.
     */
    method SkipPipeline(args: seq<Value>, kwargs: Entries, next: (seq<Value>, Entries) -> Result<Value>)
      returns (r: Result<Value>)
      requires DistinctKeys(kwargs)
      modifies obj.context`values
      ensures SkipPiped(args, kwargs, next, r)
    {
      Gather(kwargs);
      var rest := PipelineRest(kwargs);
      PipelineRestKeeps(kwargs);
      r := MarkParent(GetOr(kwargs, "_ff_name", PyNone), args, rest, next);
    }

    /** `_ff_from` and `_ff_to` moved into the global scope. */
    method Gather(kwargs: Entries)
      modifies obj.context`values
      ensures obj.context.values == FlowPipelines.Applied(old(obj.context.values), Gathered(kwargs))
    {
      var writes := Gathered(kwargs);
      var i := 0;
      while i < |writes|
        invariant 0 <= i <= |writes|
        invariant FlowPipelines.Applied(obj.context.values, writes[i..]) == FlowPipelines.Applied(old(obj.context.values), writes)
      {
        assert writes[i..][1..] == writes[i + 1..];
        obj.context.Set(writes[i].0, writes[i].1, None);
        i := i + 1;
      }
    }

    /** The parent check of a named pipeline call, once the routing keys are gathered. */
    method MarkParent(name: Value, args: seq<Value>, rest: Entries, next: (seq<Value>, Entries) -> Result<Value>)
      returns (r: Result<Value>)
      modifies obj.context`values
      ensures var f := old(obj.context.Get("from", PyNone, None));
        Marking(name, f, old(obj.context.values), obj.context.values, r, next(args, rest))
    {
      var f := obj.context.Get("from", PyNone, None);
      if name == PyNone || !Truthy(f) {
        r := next(args, rest);
      } else if !name.Str? || !f.Str? {
        r := Raise(AttributeError, "'" + PyTypeName(if name.Str? then f else name) + "' object has no attribute 'strip'");
      } else {
        if Paths.IsParentOfChild(name.s, f.s) {
          obj.context.Set("good_to_run", Bool(false), Some(name.s));
        }
        r := next(args, rest);
      }
    }

    /**
     * The track middleware's `run_step`: a named call that returns is logged
     * with its arguments (the name among them) under the name `TrackName`
     * gives; an unnamed call or one that raises logs nothing.
     */
    method TrackStep(args: seq<Value>, kwargs: Entries, next: (seq<Value>, Entries) -> Result<Value>)
      returns (r: Result<Value>)
      modifies obj`logged
      ensures Tracked(kwargs, r, next(args, kwargs))
      ensures obj.logged == old(obj.logged) + LogEntry(obj.prefix, args, kwargs, r)
    {
      var nameV := GetOr(kwargs, "_ff_name", PyNone);
      if nameV == PyNone {
        r := next(args, kwargs);
      } else {
        var n := NameText(nameV);
        if n.None? {
          r := Raise(TypeError, "step name of type " + PyType(nameV));
        } else {
          var full := TrackName(obj.prefix, n.value);
          var input := Dict([("args", Tuple(args)), ("kwargs", Dict(kwargs))]);
          r := next(args, kwargs);
          if r.Ok? {
            obj.logged := obj.logged + [(full, input, r.value)];
          }
        }
      }
    }

    /**
     * The track middleware's `run_pipeline`: a root pipeline records its
     * config, then the call is tracked as a step.
     */
    method TrackPipeline(args: seq<Value>, kwargs: Entries, next: (seq<Value>, Entries) -> Result<Value>)
      returns (r: Result<Value>)
      modifies obj`lastConfig, obj`logged
      ensures obj.lastConfig == if obj.nested then old(obj.lastConfig) else Some(obj.configExport)
      ensures obj.logged == old(obj.logged) + LogEntry(obj.prefix, args, kwargs, r)
      ensures Tracked(kwargs, r, next(args, kwargs))
    {
      if !obj.nested {
        obj.lastConfig := Some(obj.configExport);
      }
      r := TrackStep(args, kwargs, next);
    }
  }

  /**
   * `Middleware(obj=...)`: the wrapped object must be a Pipeline (type
   * `"pipeline"`) or a Step or StepProxy (type `"step"`).
   */
  method NewMiddleware(flavour: Flavour, obj: ObjArg) returns (r: Result<Middleware>)
    ensures r.Ok? <==> ObjType(obj).Ok?
    ensures r.Err? ==> r.error == ObjType(obj).error
    ensures r.Ok? ==> fresh(r.value) && r.value.flavour == flavour && r.value.obj == obj.t && r.value.objType == ObjType(obj).value
  {
    var t := ObjType(obj);
    if t.Err? {
      r := Err(t.error);
    } else {
      var m := new Middleware.Make(flavour, obj.t, t.value);
      r := Ok(m);
    }
  }
}
