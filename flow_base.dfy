/**
 * The prototype's Composable (finestflow/base.py): the params and nodes a
 * class registers through its annotations, the protected keywords its MRO
 * declares, attribute assignment on an instance, the step names pushed
 * down to the nodes, and `_info`.
 *
 * Whether an annotation mentions Composable comes with the annotation: the
 * reflection that decides it is not part of this model.
 */
module FlowBase {
  import opened Wrappers
  import opened PyValues
  import opened Text
  import Paths

  /**
   * One class of an MRO: its module and name, its own `_keywords` list if
   * its body sets one, and its own annotations in order, each with whether
   * it mentions Composable.
   */
  datatype FlowClass = FlowClass(modname: string, name: string, keywords: Option<seq<string>>,
                                 annotations: seq<(string, bool)>)

  const ComposableKeywords: seq<string> :=
    ["last_run", "apply", "Middleware", "Config", "config", "run", "params", "prefix", "nodes", "context"]
  const ComposableClass := FlowClass("finestflow.base", "Composable", Some(ComposableKeywords), [])
  const ObjectClass := FlowClass("builtins", "object", None, [])
  const OriginalAttr := "ff_original_obj"
  const ProxyClass := FlowClass("finestflow.base", "ComposableProxy", None, [(OriginalAttr, false)])

  /** `str(cls)`. */
  function Display(c: FlowClass): string
  {
    "<class '" + c.modname + "." + c.name + "'>"
  }

  function OwnKeywords(c: FlowClass): seq<string>
  {
    if c.keywords.Some? then c.keywords.value else []
  }

  /** Some class of the MRO lists `kw` in its own `_keywords`. */
  ghost predicate Listed(mro: seq<FlowClass>, kw: string)
  {
    exists j :: 0 <= j < |mro| && kw in OwnKeywords(mro[j])
  }

  /** Position `j` holds the nearest class of the MRO listing `kw`. */
  predicate Nearest(mro: seq<FlowClass>, kw: string, j: nat)
  {
    j < |mro| && kw in OwnKeywords(mro[j]) && forall i :: 0 <= i < j ==> kw !in OwnKeywords(mro[i])
  }

  /** What `_protected_keywords` returns, as positions in the MRO. */
  ghost predicate ProtectedBy(mro: seq<FlowClass>, kws: map<string, nat>)
  {
    (forall kw :: kw in kws <==> Listed(mro, kw)) && forall kw :: kw in kws ==> Nearest(mro, kw, kws[kw])
  }

  /**
   * `_protected_keywords()`: every keyword some class of the MRO lists,
   * attributed to the nearest class listing it.
   */
  method ProtectedKeywords(mro: seq<FlowClass>) returns (kws: map<string, nat>)
    ensures ProtectedBy(mro, kws)
  {
    kws := map[];
    for i := 0 to |mro|
      invariant forall kw :: kw in kws <==> exists j :: 0 <= j < i && kw in OwnKeywords(mro[j])
      invariant forall kw :: kw in kws ==> Nearest(mro, kw, kws[kw])
    {
      var own := OwnKeywords(mro[i]);
      for k := 0 to |own|
        invariant forall kw :: kw in kws <==> (exists j :: 0 <= j < i && kw in OwnKeywords(mro[j])) || kw in own[..k]
        invariant forall kw :: kw in kws ==> Nearest(mro, kw, kws[kw])
      {
        if own[k] !in kws {
          assert forall j :: 0 <= j < i ==> own[k] !in OwnKeywords(mro[j]);
          kws := kws[own[k] := i];
        }
        assert own[..k + 1] == own[..k] + [own[k]];
      }
      assert own[..|own|] == own;
    }
  }

  // ---------------------------------------------------------------------
  // Registered params and nodes

  /** Names starting with `_` are skipped by the collection and stored as given. */
  predicate Private(name: string)
  {
    StartsWith(name, "_")
  }

  /** Every annotation of the MRO, class by class in MRO order. */
  function AllAnnotations(mro: seq<FlowClass>): seq<(string, bool)>
  {
    if |mro| == 0 then [] else AllAnnotations(mro[..|mro| - 1]) + mro[|mro| - 1].annotations
  }

  /** The names of the public annotations that mention Composable (`node`) or do not. */
  function Named(anns: seq<(string, bool)>, node: bool): seq<string>
  {
    if |anns| == 0 then []
    else
      var a := anns[|anns| - 1];
      Named(anns[..|anns| - 1], node) + (if !Private(a.0) && a.1 == node then [a.0] else [])
  }

  /** Some public annotation of the MRO names `x` as a node (or a param). */
  ghost predicate Declares(mro: seq<FlowClass>, x: string, node: bool)
  {
    exists k :: 0 <= k < |AllAnnotations(mro)| && AllAnnotations(mro)[k] == (x, node) && !Private(x)
  }

  /** An annotation the collection refuses: public, and a protected keyword. */
  ghost predicate Refused(mro: seq<FlowClass>, a: (string, bool))
  {
    !Private(a.0) && Listed(mro, a.0)
  }

  function ProtectedMessage(name: string, owner: FlowClass): string
  {
    "\"" + name + "\" is a protected keyword, defined by \"" + Display(owner) + "\""
  }

  /** Position `k` holds the first refused annotation of `anns`. */
  ghost predicate FirstRefusedAt(mro: seq<FlowClass>, anns: seq<(string, bool)>, k: nat)
  {
    k < |anns| && Refused(mro, anns[k]) && forall m :: 0 <= m < k ==> !Refused(mro, anns[m])
  }

  /** `e` is the ValueError naming the nearest class that protects `name`. */
  ghost predicate RefusalOf(mro: seq<FlowClass>, name: string, e: Exc)
  {
    exists o: nat :: Nearest(mro, name, o) && e == Exc(ValueError, ProtectedMessage(name, mro[o]))
  }

  /** `e` is what the first refused annotation of `anns` raises. */
  ghost predicate FirstRefusal(mro: seq<FlowClass>, anns: seq<(string, bool)>, e: Exc)
  {
    exists k: nat :: FirstRefusedAt(mro, anns, k) && RefusalOf(mro, anns[k].0, e)
  }

  lemma {:induction false} NamedIff(anns: seq<(string, bool)>, node: bool, x: string)
    ensures x in Named(anns, node) <==> exists k :: 0 <= k < |anns| && anns[k] == (x, node) && !Private(x)
    decreases |anns|
  {
    if |anns| > 0 {
      var init := anns[..|anns| - 1];
      NamedIff(init, node, x);
      if exists k :: 0 <= k < |anns| && anns[k] == (x, node) && !Private(x) {
        var k :| 0 <= k < |anns| && anns[k] == (x, node) && !Private(x);
        if k < |anns| - 1 {
          assert init[k] == anns[k];
        }
      }
      if exists k :: 0 <= k < |init| && init[k] == (x, node) && !Private(x) {
        var k :| 0 <= k < |init| && init[k] == (x, node) && !Private(x);
        assert anns[k] == init[k];
      }
    }
  }

  lemma AllAnnotationsSnoc(mro: seq<FlowClass>, i: nat)
    requires i < |mro|
    ensures AllAnnotations(mro[..i + 1]) == AllAnnotations(mro[..i]) + mro[i].annotations
  {
    assert mro[..i + 1][..i] == mro[..i];
  }

  lemma NamedSnoc(anns: seq<(string, bool)>, a: (string, bool), node: bool)
    ensures Named(anns + [a], node) == Named(anns, node) + (if !Private(a.0) && a.1 == node then [a.0] else [])
  {
    assert (anns + [a])[..|anns|] == anns;
  }

  /** A first refusal in a prefix is the first refusal of the whole. */
  lemma FirstRefusalExtends(mro: seq<FlowClass>, anns: seq<(string, bool)>, whole: seq<(string, bool)>, e: Exc)
    requires FirstRefusal(mro, anns, e) && anns <= whole
    ensures FirstRefusal(mro, whole, e)
  {
    var k: nat :| FirstRefusedAt(mro, anns, k) && RefusalOf(mro, anns[k].0, e);
    assert whole[k] == anns[k];
    assert forall m :: 0 <= m < k ==> whole[m] == anns[m];
    assert FirstRefusedAt(mro, whole, k);
  }

  /** The inner loop of the collection: the annotations of the class at MRO position `i`. */
  method CollectClass(mro: seq<FlowClass>, kws: map<string, nat>, i: nat, params: seq<string>, nodes: seq<string>)
    returns (failed: Option<Exc>, params': seq<string>, nodes': seq<string>)
    requires i < |mro| && ProtectedBy(mro, kws)
    requires Accepted(mro, AllAnnotations(mro[..i]), params, nodes)
    ensures Collected(mro, i + 1, failed, params', nodes')
  {
    var anns := mro[i].annotations;
    AllAnnotationsSnoc(mro, i);
    params', nodes', failed := params, nodes, None;
    ghost var seen := AllAnnotations(mro[..i]);
    assert anns[..0] == [];
    assert seen + anns[..0] == seen;
    var j := 0;
    while j < |anns| && failed.None?
      invariant 0 <= j <= |anns|
      invariant seen == AllAnnotations(mro[..i]) + anns[..j]
      invariant failed.None? ==> Accepted(mro, seen, params', nodes')
      invariant failed.Some? ==> FirstRefusal(mro, seen, failed.value)
    {
      var (name, node) := anns[j];
      if !Private(name) && name in kws {
        failed := Some(Exc(ValueError, ProtectedMessage(name, mro[kws[name]])));
        RefuseStep(mro, seen, anns[j], kws[name]);
      } else {
        AcceptStep(mro, seen, anns[j], params', nodes');
        if !Private(name) && node {
          nodes' := nodes' + [name];
        } else if !Private(name) {
          params' := params' + [name];
        }
      }
      SnocSlice(AllAnnotations(mro[..i]), anns, j);
      seen := seen + [anns[j]];
      j := j + 1;
    }
    if failed.Some? {
      PrefixSlice(AllAnnotations(mro[..i]), anns, j);
      FirstRefusalExtends(mro, seen, AllAnnotations(mro[..i + 1]), failed.value);
    } else {
      assert anns[..j] == anns;
    }
  }

  /** One more annotation the collection accepts. */
  lemma AcceptStep(mro: seq<FlowClass>, seen: seq<(string, bool)>, a: (string, bool), params: seq<string>, nodes: seq<string>)
    requires Accepted(mro, seen, params, nodes) && !Refused(mro, a)
    ensures Accepted(mro, seen + [a], params + (if !Private(a.0) && !a.1 then [a.0] else []),
                     nodes + (if !Private(a.0) && a.1 then [a.0] else []))
  {
    NamedSnoc(seen, a, false);
    NamedSnoc(seen, a, true);
    assert forall m :: 0 <= m < |seen| ==> (seen + [a])[m] == seen[m];
  }

  /** The annotation after an accepted prefix is refused, as the class at `o` protects it. */
  lemma RefuseStep(mro: seq<FlowClass>, seen: seq<(string, bool)>, a: (string, bool), o: nat)
    requires forall m :: 0 <= m < |seen| ==> !Refused(mro, seen[m])
    requires !Private(a.0) && Nearest(mro, a.0, o)
    ensures FirstRefusal(mro, seen + [a], Exc(ValueError, ProtectedMessage(a.0, mro[o])))
  {
    assert forall m :: 0 <= m < |seen| ==> (seen + [a])[m] == seen[m];
    assert Refused(mro, a);
    assert FirstRefusedAt(mro, seen + [a], |seen|);
    assert RefusalOf(mro, a.0, Exc(ValueError, ProtectedMessage(a.0, mro[o])));
  }

  lemma SnocSlice<T>(a: seq<T>, b: seq<T>, j: nat)
    requires j < |b|
    ensures a + b[..j + 1] == a + b[..j] + [b[j]]
  {
    assert b[..j + 1] == b[..j] + [b[j]];
  }

  lemma PrefixSlice<T>(a: seq<T>, b: seq<T>, j: nat)
    requires j <= |b|
    ensures a + b[..j] <= a + b
  {
    assert (a + b)[..|a| + j] == a + b[..j];
  }

  /** After the first `i` classes: what they register, or the first refusal among them. */
  ghost predicate Collected(mro: seq<FlowClass>, i: nat, failed: Option<Exc>, params: seq<string>, nodes: seq<string>)
    requires i <= |mro|
  {
    (failed.None? ==> Accepted(mro, AllAnnotations(mro[..i]), params, nodes)) &&
    (failed.Some? ==> FirstRefusal(mro, AllAnnotations(mro[..i]), failed.value))
  }

  /** `params` and `nodes` are what the accepted annotations `anns` register, in order, duplicates kept. */
  ghost predicate Accepted(mro: seq<FlowClass>, anns: seq<(string, bool)>, params: seq<string>, nodes: seq<string>)
  {
    params == Named(anns, false) && nodes == Named(anns, true) && forall m :: 0 <= m < |anns| ==> !Refused(mro, anns[m])
  }

  /**
   * `_collect_registered_params_and_nodes()`: the public annotations of the
   * whole MRO, split into params and nodes, each sorted and duplicate-free;
   * the first public annotation naming a protected keyword raises
   * ValueError naming the class that protects it.
   */
  method Collect(mro: seq<FlowClass>) returns (r: Result<(seq<string>, seq<string>)>)
    ensures r.Ok? <==> forall m :: 0 <= m < |AllAnnotations(mro)| ==> !Refused(mro, AllAnnotations(mro)[m])
    ensures r.Err? ==> FirstRefusal(mro, AllAnnotations(mro), r.error)
    ensures r.Ok? ==> StrictlySorted(r.value.0) && StrictlySorted(r.value.1)
    ensures r.Ok? ==> forall x :: (x in r.value.0 <==> Declares(mro, x, false)) && (x in r.value.1 <==> Declares(mro, x, true))
  {
    var failed, params, nodes := CollectAll(mro);
    if failed.Some? {
      FirstRefusalOnly(mro, AllAnnotations(mro), failed.value);
      r := Err(failed.value);
    } else {
      r := Ok((SortedUnique(params), SortedUnique(nodes)));
      Registers(mro, params, nodes);
    }
  }

  /** The loops of the collection, before the sorting. */
  method CollectAll(mro: seq<FlowClass>) returns (failed: Option<Exc>, params: seq<string>, nodes: seq<string>)
    ensures failed.None? ==> Accepted(mro, AllAnnotations(mro), params, nodes)
    ensures failed.Some? ==> FirstRefusal(mro, AllAnnotations(mro), failed.value)
  {
    var kws := ProtectedKeywords(mro);
    var i;
    failed, params, nodes, i := CollectUpTo(mro, kws);
    if failed.Some? {
      Registration(mro, i);
      FirstRefusalExtends(mro, AllAnnotations(mro[..i]), AllAnnotations(mro), failed.value);
    } else {
      assert mro[..i] == mro;
    }
  }

  /** The classes of the MRO in order, up to the first refusal. */
  method CollectUpTo(mro: seq<FlowClass>, kws: map<string, nat>)
    returns (failed: Option<Exc>, params: seq<string>, nodes: seq<string>, i: nat)
    requires ProtectedBy(mro, kws)
    ensures i <= |mro| && (failed.None? ==> i == |mro|)
    ensures Collected(mro, i, failed, params, nodes)
  {
    params, nodes, failed := [], [], None;
    assert mro[..0] == [];
    i := 0;
    while i < |mro| && failed.None?
      invariant 0 <= i <= |mro|
      invariant Collected(mro, i, failed, params, nodes)
    {
      failed, params, nodes := CollectClass(mro, kws, i, params, nodes);
      i := i + 1;
    }
  }

  /** Sorting the accepted names keeps exactly the declared ones. */
  lemma Registers(mro: seq<FlowClass>, params: seq<string>, nodes: seq<string>)
    requires Accepted(mro, AllAnnotations(mro), params, nodes)
    ensures forall x ::
      (x in SortedUnique(params) <==> Declares(mro, x, false)) && (x in SortedUnique(nodes) <==> Declares(mro, x, true))
  {
    forall x ensures (x in SortedUnique(params) <==> Declares(mro, x, false)) &&
      (x in SortedUnique(nodes) <==> Declares(mro, x, true))
    {
      NamedIff(AllAnnotations(mro), false, x);
      NamedIff(AllAnnotations(mro), true, x);
      assert x in SortedUnique(params) <==> x in Elems(SortedUnique(params));
      assert x in SortedUnique(nodes) <==> x in Elems(SortedUnique(nodes));
      assert x in params <==> x in Elems(params);
      assert x in nodes <==> x in Elems(nodes);
    }
  }

  /** The annotations of an MRO prefix lead the annotations of the MRO. */
  lemma {:induction false} Registration(mro: seq<FlowClass>, i: nat)
    requires i <= |mro|
    ensures AllAnnotations(mro[..i]) <= AllAnnotations(mro)
    decreases |mro| - i
  {
    if i < |mro| {
      Registration(mro, i + 1);
      AllAnnotationsSnoc(mro, i);
    } else {
      assert mro[..i] == mro;
    }
  }

  /** A sequence with a refused annotation is not wholly accepted. */
  lemma FirstRefusalOnly(mro: seq<FlowClass>, anns: seq<(string, bool)>, e: Exc)
    requires FirstRefusal(mro, anns, e)
    ensures !forall m :: 0 <= m < |anns| ==> !Refused(mro, anns[m])
  {
  }

  // ---------------------------------------------------------------------
  // Instances

  /** What an attribute of an instance holds: a Composable, or any other value. */
  datatype Slot = Node(c: FlowComposable) | Plain(v: Value)

  /** How a param's value shows in `_info`: a function by its dotted name. */
  function Shown(s: Slot): Value
  {
    match s
    case Plain(Func(m, n)) => Str(m + "." + n)
    case Plain(v) => v
    case Node(c) => Object(c.cls.modname + "." + c.cls.name, [])
  }

  /**
   * The name `_handle_step_name` composes: a root keeps the name it is
   * given; below a prefix, the name (the class name when it is empty)
   * follows the prefix after a dot.
   */
  function StepName(prefix: Option<string>, name: string, className: string): string
  {
    match prefix
    case None => name
    case Some(p) => p + "." + (if name == "" then className else name)
  }

  /** The names `_handle_step_name` lets through. */
  predicate Acceptable(prefix: Option<string>, name: string)
  {
    prefix.None? || ('.' !in name && '*' !in name)
  }

  const DotMessage := "_ff_name cannot contain `.`"
  const StarMessage := "_ff_name cannot contain `*`"

  /** The properties of the Composable base without a setter (finestflow/base.py 165-171). */
  predicate ReadOnly(name: string)
  {
    name == "nodes" || name == "params"
  }

  class FlowComposable {
    /** The instance's class; with `bases` its MRO. */
    const cls: FlowClass
    const bases: seq<FlowClass>
    /** `_ff_params` and `_ff_nodes`, as the collection returned them. */
    const params: seq<string>
    const nodes: seq<string>
    /** `_ff_prefix`: `None` for the root of a flow. */
    var prefix: Option<string>
    /** The attributes set on the instance through `__setattr__`. */
    var slots: map<string, Slot>

    /** An instance once `__init__` has collected its params and nodes and before it assigns any. */
    constructor(cls: FlowClass, bases: seq<FlowClass>, params: seq<string>, nodes: seq<string>)
      ensures this.cls == cls && this.bases == bases && this.params == params && this.nodes == nodes
      ensures prefix == None && slots == map[]
    {
      this.cls := cls;
      this.bases := bases;
      this.params := params;
      this.nodes := nodes;
      prefix := None;
      slots := map[];
    }

    function Mro(): seq<FlowClass>
    {
      [cls] + bases
    }

    /** `ComposableProxy(ff_original_obj=v)`: a Composable whose only param holds `v`. */
    static method NewProxy(v: Value) returns (p: FlowComposable)
      ensures fresh(p) && p.cls == ProxyClass && p.bases == [ComposableClass, ObjectClass]
      ensures p.params == [OriginalAttr] && p.nodes == []
      ensures p.prefix == None && p.slots == map[OriginalAttr := Plain(v)]
    {
      var mro := [ProxyClass, ComposableClass, ObjectClass];
      ProxyAnnotations();
      var c := Collect(mro);
      assert forall kw :: kw in ComposableKeywords ==> kw[0] != 'f';
      assert !Listed(mro, OriginalAttr);
      assert !Private(OriginalAttr);
      var registered := c.value;
      OnlyElement(registered.0, OriginalAttr, mro);
      NoElement(registered.1, mro);
      p := new FlowComposable(ProxyClass, [ComposableClass, ObjectClass], registered.0, registered.1);
      p.slots := map[OriginalAttr := Plain(v)];
    }

    /** The assigned nodes' Composables: the objects `_handle_step_name` writes to. */
    function Children(): set<FlowComposable>
      reads this`slots
    {
      set n | n in nodes && n in slots && slots[n].Node? :: slots[n].c
    }

    /** The node `n` was assigned a Composable. */
    predicate Holds(n: string)
      reads this`slots
    {
      n in slots && slots[n].Node?
    }

    /**
     * `__setattr__(name, value)`: a value for a node that is not already a
     * Composable is wrapped in a fresh ComposableProxy; names starting with
     * `_` and protected keywords go to the plain attribute store, where the
     * read-only properties `nodes` and `params` refuse the write with
     * AttributeError; anything else is stored as given.
     */
    method SetAttr(name: string, value: Slot) returns (r: Result<()>)
      modifies this`slots
      ensures r.Err? <==> ReadOnly(name)
      ensures r.Err? ==> r.error.kind == AttributeError && slots == old(slots)
      ensures !ReadOnly(name) && !Private(name) && !Listed(Mro(), name) && name in nodes && value.Plain? ==>
        slots.Keys == old(slots).Keys + {name} && slots[name].Node? && fresh(slots[name].c) &&
        slots[name].c.params == [OriginalAttr] && slots[name].c.slots == map[OriginalAttr := value] &&
        slots == old(slots)[name := slots[name]]
      ensures !ReadOnly(name) && !(!Private(name) && !Listed(Mro(), name) && name in nodes && value.Plain?) ==>
        slots == old(slots)[name := value]
    {
      r := Ok(());
      if Private(name) {
        assert !ReadOnly(name) by { assert "nodes"[0] != '_' && "params"[0] != '_'; }
        slots := slots[name := value];
      } else {
        var kws := ProtectedKeywords(Mro());
        if ReadOnly(name) {
          r := Raise(AttributeError, "can't set attribute '" + name + "'");
        } else if name in kws || name !in nodes || value.Node? {
          slots := slots[name := value];
        } else {
          var p := NewProxy(value.v);
          slots := slots[name := Node(p)];
        }
      }
    }

    /**
     * `_handle_step_name(name)`: checks the name, composes it, and makes
     * it the prefix of every node in turn; a node never assigned, or
     * holding no Composable, raises AttributeError there, after the nodes
     * before it took the new prefix.
     */
    method HandleStepName(name: Value) returns (r: Result<string>)
      modifies Children()`prefix
      ensures !name.Str? ==> r.Err? && r.error.kind == TypeError
      ensures name.Str? && old(prefix).Some? && '.' in name.s ==> r == Raise(AttributeError, DotMessage)
      ensures name.Str? && old(prefix).Some? && '.' !in name.s && '*' in name.s ==> r == Raise(AttributeError, StarMessage)
      ensures !(name.Str? && Acceptable(old(prefix), name.s)) ==>
        (forall c :: c in old(Children()) ==> c.prefix == old(c.prefix))
      ensures r.Ok? <==> name.Str? && Acceptable(old(prefix), name.s) && forall n :: n in nodes ==> Holds(n)
      ensures r.Ok? ==> (r.value == StepName(old(prefix), name.s, cls.name) &&
        forall n :: n in nodes ==> slots[n].c.prefix == Some(r.value))
      ensures r.Err? && name.Str? && Acceptable(old(prefix), name.s) ==> (r.error.kind == AttributeError &&
        exists k :: 0 <= k < |nodes| && !Holds(nodes[k]) && forall m :: 0 <= m < k ==>
          Holds(nodes[m]) && slots[nodes[m]].c.prefix == Some(StepName(old(prefix), name.s, cls.name)))
    {
      if !name.Str? {
        r := Raise(TypeError, "_ff_name must be str");
      } else if prefix.Some? && '.' in name.s {
        r := Raise(AttributeError, DotMessage);
      } else if prefix.Some? && '*' in name.s {
        r := Raise(AttributeError, StarMessage);
      } else {
        r := PushName(StepName(prefix, name.s, cls.name));
      }
    }

    /** The loop of `_handle_step_name`: `full` becomes each node's prefix, in order. */
    method PushName(full: string) returns (r: Result<string>)
      modifies Children()`prefix
      ensures r.Ok? <==> forall n :: n in nodes ==> Holds(n)
      ensures r.Ok? ==> r.value == full && forall n :: n in nodes ==> slots[n].c.prefix == Some(full)
      ensures r.Err? ==> (r.error.kind == AttributeError &&
        exists k :: 0 <= k < |nodes| && !Holds(nodes[k]) && forall m :: 0 <= m < k ==>
          Holds(nodes[m]) && slots[nodes[m]].c.prefix == Some(full))
    {
      r := Ok(full);
      var k := 0;
      while k < |nodes| && r.Ok?
        invariant 0 <= k <= |nodes|
        invariant forall m :: 0 <= m < k ==> Holds(nodes[m]) && slots[nodes[m]].c.prefix == Some(full)
        invariant r.Ok? ==> r.value == full
        invariant r.Err? ==> r.error.kind == AttributeError && k < |nodes| && !Holds(nodes[k])
        decreases |nodes| - k, if r.Ok? then 1 else 0
      {
        var n := nodes[k];
        if n in slots && slots[n].Node? {
          slots[n].c.prefix := Some(full);
          k := k + 1;
        } else {
          r := Raise(AttributeError, n);
        }
      }
    }

    /** `__module__ + "." + __qualname__` of the instance's class. */
    function TypeName(): string
    {
      cls.modname + "." + cls.name
    }

    /**
     * How `_info` reports the nodes: `None` for a node never assigned, and
     * for every other node that node's own report.
     */
    ghost predicate NodesReported(ns: Entries)
      reads *
      decreases Dict(ns), 0
    {
      Keys(ns) == nodes && forall k :: 0 <= k < |ns| ==>
        if nodes[k] !in slots then ns[k].1 == PyNone
        else slots[nodes[k]].Node? && slots[nodes[k]].c.Reports(ns[k].1)
    }

    /** How `_info` reports the params: each with its shown value. */
    predicate ParamsReported(ps: Entries)
      reads this`slots
    {
      Keys(ps) == params && forall k :: 0 <= k < |ps| ==> params[k] in slots && ps[k].1 == Shown(slots[params[k]])
    }

    /** `_info()`'s result: type, params and nodes, in that order. */
    ghost predicate Reports(v: Value)
      reads *
      decreases v, 1
    {
      v.Dict? && |v.entries| == 3 && v.entries[0] == ("type", Str(TypeName())) &&
      v.entries[1].0 == "params" && v.entries[1].1.Dict? && ParamsReported(v.entries[1].1.entries) &&
      v.entries[2].0 == "nodes" && v.entries[2].1.Dict? && NodesReported(v.entries[2].1.entries)
    }

    /**
     * `_info()`, recursing at most `fuel` levels into the nodes: the type,
     * the params, and each node's own report (`None` when it was never
     * assigned).  An unassigned param raises KeyError; a node holding no
     * Composable raises AttributeError.
     */
    method Info(fuel: nat) returns (r: Result<Value>)
      ensures fuel == 0 ==> r.Err? && r.error.kind == RecursionError
      ensures r.Ok? ==> Reports(r.value)
      ensures fuel > 0 && (forall n :: n in nodes ==> n !in slots) ==>
        (r.Ok? <==> forall p :: p in params ==> p in slots)
      decreases fuel, 1
    {
      if fuel == 0 {
        r := Raise(RecursionError, "maximum recursion depth exceeded");
      } else {
        var ns := NodeInfos(fuel);
        if ns.Err? {
          r := Err(ns.error);
        } else {
          var ps := ParamInfos();
          if ps.Err? {
            r := Err(ps.error);
          } else {
            r := Ok(Dict([("type", Str(TypeName())), ("params", Dict(ps.value)), ("nodes", Dict(ns.value))]));
          }
        }
      }
    }

    /** The node loop of `_info`. */
    method NodeInfos(fuel: nat) returns (r: Result<Entries>)
      requires fuel > 0
      ensures r.Ok? ==> NodesReported(r.value)
      ensures (forall n :: n in nodes ==> n !in slots) ==> r.Ok?
      decreases fuel, 0
    {
      var ns: Entries := [];
      r := Ok([]);
      var k := 0;
      while k < |nodes| && r.Ok?
        invariant 0 <= k <= |nodes| && |ns| == k
        invariant forall m :: 0 <= m < k ==>
          ns[m].0 == nodes[m] &&
          if nodes[m] !in slots then ns[m].1 == PyNone
          else slots[nodes[m]].Node? && slots[nodes[m]].c.Reports(ns[m].1)
        invariant r.Err? ==> k < |nodes| && nodes[k] in slots
        decreases |nodes| - k, if r.Ok? then 1 else 0
      {
        var n := nodes[k];
        if n !in slots {
          ns := ns + [(n, PyNone)];
          k := k + 1;
        } else if slots[n].Plain? {
          r := Raise(AttributeError, "_info");
        } else {
          var x := slots[n].c.Info(fuel - 1);
          if x.Err? {
            r := Err(x.error);
          } else {
            ns := ns + [(n, x.value)];
            k := k + 1;
          }
        }
      }
      if r.Ok? {
        assert Keys(ns) == nodes;
        r := Ok(ns);
      }
    }

    /** `self.params` and the param loop of `_info`. */
    method ParamInfos() returns (r: Result<Entries>)
      ensures r.Ok? <==> forall p :: p in params ==> p in slots
      ensures r.Ok? ==> ParamsReported(r.value)
      ensures r.Err? ==> r.error.kind == KeyError
    {
      var ps: Entries := [];
      r := Ok([]);
      var k := 0;
      while k < |params| && r.Ok?
        invariant 0 <= k <= |params| && |ps| == k
        invariant forall m :: 0 <= m < k ==> ps[m].0 == params[m] && params[m] in slots && ps[m].1 == Shown(slots[params[m]])
        invariant r.Err? ==> r.error.kind == KeyError && k < |params| && params[k] !in slots
        decreases |params| - k, if r.Ok? then 1 else 0
      {
        var p := params[k];
        if p !in slots {
          r := Raise(KeyError, p);
        } else {
          ps := ps + [(p, Shown(slots[p]))];
          k := k + 1;
        }
      }
      if r.Ok? {
        assert Keys(ps) == params;
        r := Ok(ps);
      }
    }
  }

  /**
   * `_info()` depends on nothing but the objects: two reports of the same
   * object, down through its nodes, are equal.
   */
  lemma {:induction false} ReportUnique(c: FlowComposable, v: Value, w: Value)
    requires c.Reports(v) && c.Reports(w)
    ensures v == w
    decreases v
  {
    var ps, qs := v.entries[1].1.entries, w.entries[1].1.entries;
    assert |ps| == |Keys(ps)| == |Keys(qs)| == |qs|;
    forall k | 0 <= k < |ps|
      ensures ps[k] == qs[k]
    {
      assert ps[k].0 == Keys(ps)[k] == Keys(qs)[k] == qs[k].0;
    }
    var ns, ms := v.entries[2].1.entries, w.entries[2].1.entries;
    assert |ns| == |Keys(ns)| == |Keys(ms)| == |ms|;
    forall k | 0 <= k < |ns|
      ensures ns[k] == ms[k]
    {
      assert ns[k].0 == Keys(ns)[k] == Keys(ms)[k] == ms[k].0;
      if c.nodes[k] in c.slots {
        assert ns[k].1 < v;
        ReportUnique(c.slots[c.nodes[k]].c, ns[k].1, ms[k].1);
      }
    }
    assert ps == qs && ns == ms;
    assert v.entries == w.entries;
  }

  /** The proxy class's only public annotation is its one param. */
  lemma ProxyAnnotations()
    ensures AllAnnotations([ProxyClass, ComposableClass, ObjectClass]) == [(OriginalAttr, false)]
  {
    var mro := [ProxyClass, ComposableClass, ObjectClass];
    assert mro[..2] == [ProxyClass, ComposableClass];
    assert [ProxyClass, ComposableClass][..1] == [ProxyClass];
    assert [ProxyClass][..0] == [];
    assert AllAnnotations([ProxyClass]) == ProxyClass.annotations;
    assert AllAnnotations([ProxyClass, ComposableClass]) == ProxyClass.annotations;
  }

  /** A strictly sorted list holding exactly what the MRO declares, when that is one name. */
  lemma OnlyElement(s: seq<string>, x: string, mro: seq<FlowClass>)
    requires StrictlySorted(s) && AllAnnotations(mro) == [(x, false)] && !Private(x)
    requires forall y :: y in s <==> Declares(mro, y, false)
    ensures s == [x]
  {
    assert AllAnnotations(mro)[0] == (x, false);
    assert Declares(mro, x, false);
    assert x in s;
    forall y | y in s ensures y == x {
      assert Declares(mro, y, false);
    }
    if |s| > 1 {
      assert s[0] in s && s[1] in s;
      LexIrreflexive(x);
    }
  }

  lemma NoElement(s: seq<string>, mro: seq<FlowClass>)
    requires |AllAnnotations(mro)| == 1 && AllAnnotations(mro)[0].1 == false
    requires forall y :: y in s <==> Declares(mro, y, true)
    ensures s == []
  {
    assert forall y :: !Declares(mro, y, true);
    HeadIn(s);
  }

  lemma HeadIn<T>(s: seq<T>)
    ensures |s| > 0 ==> s[0] in s
  {
  }

  /**
   * Below a prefix, the composed name is the prefix's path with one more
   * segment: the given name, or the class name when none is given.
   */
  lemma StepNameSplit(p: string, name: string, className: string)
    requires Acceptable(Some(p), name) && '.' !in className
    ensures Split(StepName(Some(p), name, className), '.') == Split(p, '.') + [if name == "" then className else name]
  {
    var seg := if name == "" then className else name;
    var parts := Split(p, '.') + [seg];
    JoinSplit(p, '.');
    Paths.JoinSnoc(Split(p, '.'), seg);
    SplitNoSep(p, '.');
    SplitJoin(parts, '.');
  }

  /** Distinct step names under one prefix compose to distinct names. */
  lemma StepNameInjective(p: string, a: string, b: string, className: string)
    requires Acceptable(Some(p), a) && Acceptable(Some(p), b) && '.' !in className
    requires a != "" && b != "" && a != b
    ensures StepName(Some(p), a, className) != StepName(Some(p), b, className)
  {
    StepNameSplit(p, a, className);
    StepNameSplit(p, b, className);
    assert (Split(p, '.') + [a])[|Split(p, '.')|] == a;
    assert (Split(p, '.') + [b])[|Split(p, '.')|] == b;
  }
}
