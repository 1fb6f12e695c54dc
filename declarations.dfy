/**
 * Class-level declarations of a Composable (theflow/base.py): the Param and
 * Node descriptors, what MetaComposable makes of a class body and the checks
 * it runs when the class is created, the protected keywords, and the
 * registered params and nodes.
 */
module Declarations {
  import opened Wrappers
  import opened PyValues
  import opened Text

  /** An object as `id()` sees it: its value and its identity. */
  datatype Obj = Obj(value: Value, id: nat)

  /** The params stored on an instance (`__ff_params__`), as a callback sees them. */
  type Stored = map<string, Obj>

  /**
   * A `Param` descriptor.  `callback` stands for `default_callback` called
   * with the instance: what it computes from the stored params, or the
   * exception it raises.  `depends_on` is kept as a list (a single name is
   * the one-element list `__init__` makes of it; `[]` stands for None).
   */
  datatype ParamDecl = ParamDecl(
    default: Option<Obj>,
    callback: Option<Stored -> Result<Value>>,
    refreshOnSet: bool,
    strictType: bool,
    dependsOn: seq<string>,
    noCache: bool)

  /** A class object: its own body followed by the bodies of its bases, in MRO order. */
  datatype Klass = Klass(own: ClassBody, bases: seq<ClassBody>)

  /** What a node's callback returns: a Composable class and the keyword arguments it is built with. */
  datatype Recipe = Recipe(cls: Klass, kwargs: Entries)

  /** A node's `default`: nothing (`empty`), a Composable class, or some other object. */
  datatype NodeDefault = NoNodeDefault | Make(cls: Klass) | NotAClass(o: Obj)

  /** A `Node` descriptor. */
  datatype NodeDecl = NodeDecl(
    default: NodeDefault,
    defaultKwargs: Entries,
    callback: Option<Stored -> Result<Recipe>>,
    dependsOn: seq<string>,
    noCache: bool)

  datatype Descriptor = PDesc(p: ParamDecl) | NDesc(n: NodeDecl)

  /** A class attribute: an ordinary object, a Composable class, or a descriptor. */
  datatype Attr = Plain(o: Obj) | Sub(k: Klass) | Desc(d: Descriptor)

  /**
   * The namespace of one class statement: its attributes in definition
   * order, its annotations (with whether each mentions Composable), and the
   * `_keywords`, `Middleware.middleware` and `Config` it defines itself.
   * `middleware` is `Some(None)` when the class sets `Middleware = None`.
   */
  datatype ClassBody = ClassBody(
    name: string,
    modname: string,
    id: nat,
    attrs: seq<(string, Attr)>,
    annotations: seq<(string, bool)>,
    keywords: Option<seq<string>>,
    middleware: Option<Option<seq<string>>>,
    config: Option<Entries>)

  function Mro(k: Klass): (r: seq<ClassBody>)
    ensures |r| >= 1 && r[0] == k.own
  {
    [k.own] + k.bases
  }

  /** The class object as a value. */
  function ClassObj(k: Klass): Obj
  {
    Obj(Class(k.own.modname, k.own.name, []), k.own.id)
  }

  /** How a class prints: `<class 'module.Name'>`. */
  function ClassRepr(b: ClassBody): string
  {
    "<class '" + b.modname + "." + b.name + "'>"
  }

  /** `Composable` itself: its `_keywords` and its default middleware. */
  const ComposableBody: ClassBody := ClassBody(
    "Composable", "theflow.base", 0, [], [],
    Some(["last_run", "apply", "Middleware", "Config", "config", "run", "params", "prefix", "nodes", "context"]),
    Some(Some(["theflow.middleware.TrackProgressMiddleware", "theflow.middleware.SkipComponentMiddleware"])),
    None)

  // ---------------------------------------------------------------------
  // Namespaces (dicts keyed by attribute name)

  /** `d.get(k)`: the first binding of `k`. */
  function Lookup<T>(d: seq<(string, T)>, k: string): (r: Option<T>)
    ensures r.Some? <==> exists i :: 0 <= i < |d| && d[i].0 == k
    ensures r.Some? ==> exists i :: 0 <= i < |d| && d[i] == (k, r.value)
  {
    if |d| == 0 then None
    else if d[0].0 == k then Some(d[0].1)
    else
      var r := Lookup(d[1..], k);
      assert forall i :: 0 < i < |d| ==> d[i] == d[1..][i - 1];
      assert r.Some? ==> exists i :: 0 <= i < |d[1..]| && d[1..][i] == (k, r.value);
      r
  }

  /** `d[k] = v`: a present key keeps its place, a new one is appended. */
  function Assign<T>(d: seq<(string, T)>, k: string, v: T): (r: seq<(string, T)>)
    ensures Lookup(r, k) == Some(v)
    ensures forall k' :: k' != k ==> Lookup(r, k') == Lookup(d, k')
    ensures |r| == |d| || (|r| == |d| + 1 && r[|d|] == (k, v))
    ensures forall i :: 0 <= i < |d| ==> r[i].0 == d[i].0
  {
    if |d| == 0 then [(k, v)]
    else if d[0].0 == k then [(k, v)] + d[1..]
    else
      var r := [d[0]] + Assign(d[1..], k, v);
      assert r[1..] == Assign(d[1..], k, v);
      r
  }

  // ---------------------------------------------------------------------
  // Descriptors

  /**
   * `Param._validate_args`, run from `__set_name__` while the class is
   * created: `depends_on` needs a `default_callback` and excludes `no_cache`.
   */
  function ValidateParam(qualName: string, p: ParamDecl): (r: Result<()>)
    ensures r.Err? <==> |p.dependsOn| > 0 && (p.callback.None? || p.noCache)
    ensures r.Err? ==> r.error.kind == InvalidParamDefinition
    ensures |p.dependsOn| > 0 && p.callback.None? ==>
      r == Raise(InvalidParamDefinition, "Must provide `default_callback` when param has `depends_on`: " + qualName)
  {
    if |p.dependsOn| > 0 && p.callback.None? then
      Raise(InvalidParamDefinition, "Must provide `default_callback` when param has `depends_on`: " + qualName)
    else if |p.dependsOn| > 0 && p.noCache then
      Raise(InvalidParamDefinition, "Cannot set `no_cache=True` if param has `depends_on`: " + qualName)
    else Ok(())
  }

  /**
   * `Node.__init__` as written: the check on `depends_on` together with
   * `no_cache` formats its message with `self._name`, which is only set
   * later by `__set_name__`, so the raise is an AttributeError.
   */
  function NodeInitAsWritten(d: NodeDecl): (r: Result<NodeDecl>)
  {
    if |d.dependsOn| > 0 && d.noCache then Raise(AttributeError, "'Node' object has no attribute '_name'")
    else Ok(d)
  }

  /** `Node.__init__` with the ValueError its check means to raise. */
  function NodeInit(d: NodeDecl): (r: Result<NodeDecl>)
    ensures r.Ok? <==> !(|d.dependsOn| > 0 && d.noCache)
    ensures r.Ok? ==> r.value == d
    ensures r.Err? ==> r.error.kind == ValueError
  {
    if |d.dependsOn| > 0 && d.noCache then Raise(ValueError, "depends_on and no_cache cannot be both set")
    else Ok(d)
  }

  /** Declaring a Node with both `depends_on` and `no_cache` raises AttributeError, not ValueError. */
  lemma NodeInitWrongError(x: string)
    ensures var d := NodeDecl(NoNodeDefault, [], None, [x], true);
      NodeInitAsWritten(d).Err? && NodeInitAsWritten(d).error.kind == AttributeError &&
      NodeInit(d).Err? && NodeInit(d).error.kind == ValueError
  {
  }

  // ---------------------------------------------------------------------
  // MetaComposable: annotations become descriptors

  /** A Param with only a default (or none), as an annotation declares it. */
  function PlainParam(default: Option<Obj>): ParamDecl
  {
    ParamDecl(default, None, false, false, [], false)
  }

  /** A Node with only a default (or none), as an annotation declares it. */
  function PlainNode(default: NodeDefault): NodeDecl
  {
    NodeDecl(default, [], None, [], false)
  }

  /**
   * The descriptor an annotation gets: a Node when the annotation mentions
   * Composable, else a Param; the class attribute of the same name, if any,
   * is its default.
   */
  function Declare(composable: bool, value: Option<Attr>): Descriptor
  {
    if composable then
      NDesc(PlainNode(match value
        case None => NoNodeDefault
        case Some(Sub(k)) => Make(k)
        case Some(Plain(o)) => NotAClass(o)
        case Some(Desc(_)) => NoNodeDefault))
    else
      PDesc(PlainParam(match value
        case None => None
        case Some(Sub(k)) => Some(ClassObj(k))
        case Some(Plain(o)) => Some(o)
        case Some(Desc(_)) => None))
  }

  /**
   * The loop over `__annotations__` in `MetaComposable.__new__`: names
   * starting with `_` and names already bound to a descriptor are skipped,
   * every other annotation is bound to the descriptor `Declare` makes.
   */
  function Descriptorize(attrs: seq<(string, Attr)>, annotations: seq<(string, bool)>): (r: seq<(string, Attr)>)
    decreases |annotations|
  {
    if |annotations| == 0 then attrs
    else
      Descriptorize(Convert(attrs, annotations[0].0, annotations[0].1), annotations[1..])
  }

  /** One step of that loop, for the annotation of `name`. */
  function Convert(attrs: seq<(string, Attr)>, name: string, composable: bool): seq<(string, Attr)>
  {
    var existing := Lookup(attrs, name);
    if StartsWith(name, Private) || (existing.Some? && existing.value.Desc?) then attrs
    else Assign(attrs, name, Desc(Declare(composable, existing)))
  }

  const Private := "_"

  /** Whether `x` is bound to a descriptor in `attrs`. */
  predicate BoundToDesc(attrs: seq<(string, Attr)>, x: string)
  {
    Lookup(attrs, x).Some? && Lookup(attrs, x).value.Desc?
  }

  /** Whether some annotation is for `x`. */
  predicate Annotates(annotations: seq<(string, bool)>, x: string)
  {
    exists i :: 0 <= i < |annotations| && annotations[i].0 == x
  }

  lemma AnnotatesCons(annotations: seq<(string, bool)>, x: string)
    requires |annotations| > 0
    ensures Annotates(annotations, x) <==> annotations[0].0 == x || Annotates(annotations[1..], x)
  {
    if Annotates(annotations, x) && annotations[0].0 != x {
      var i :| 0 <= i < |annotations| && annotations[i].0 == x;
      assert annotations[1..][i - 1].0 == x;
    }
    if Annotates(annotations[1..], x) {
      var i :| 0 <= i < |annotations[1..]| && annotations[1..][i].0 == x;
      assert annotations[i + 1].0 == x;
    }
  }

  /** One step binds `name` unless it is private or already a descriptor, and changes no other name. */
  lemma ConvertBinds(attrs: seq<(string, Attr)>, name: string, composable: bool, x: string)
    ensures BoundToDesc(Convert(attrs, name, composable), x) <==>
      BoundToDesc(attrs, x) || (!StartsWith(x, Private) && x == name)
    ensures StartsWith(x, Private) || BoundToDesc(attrs, x) ==> Lookup(Convert(attrs, name, composable), x) == Lookup(attrs, x)
  {
  }

  /**
   * After the conversion, a name is bound to a descriptor exactly when it
   * was before or it is annotated without a leading `_`; names starting
   * with `_` keep what they had, and descriptors given in the body are kept.
   */
  lemma {:induction false} DescriptorizeBinds(attrs: seq<(string, Attr)>, annotations: seq<(string, bool)>, x: string)
    ensures BoundToDesc(Descriptorize(attrs, annotations), x) <==>
      BoundToDesc(attrs, x) || (!StartsWith(x, Private) && Annotates(annotations, x))
    ensures StartsWith(x, Private) ==> Lookup(Descriptorize(attrs, annotations), x) == Lookup(attrs, x)
    ensures BoundToDesc(attrs, x) ==> Lookup(Descriptorize(attrs, annotations), x) == Lookup(attrs, x)
    decreases |annotations|
  {
    if |annotations| > 0 {
      var attrs' := Convert(attrs, annotations[0].0, annotations[0].1);
      ConvertBinds(attrs, annotations[0].0, annotations[0].1, x);
      DescriptorizeBinds(attrs', annotations[1..], x);
      AnnotatesCons(annotations, x);
    }
  }

  /** An annotation mentioning Composable, without a leading `_` and with no descriptor, becomes a Node. */
  lemma AnnotatedNode(attrs: seq<(string, Attr)>, name: string, k: Klass)
    requires !StartsWith(name, "_")
    requires Lookup(attrs, name) == Some(Sub(k))
    ensures Lookup(Descriptorize(attrs, [(name, true)]), name) == Some(Desc(NDesc(PlainNode(Make(k)))))
  {
    assert [(name, true)][1..] == [];
  }

  // ---------------------------------------------------------------------
  // Protected keywords

  function OwnKeywords(b: ClassBody): seq<string>
  {
    if b.keywords.Some? then b.keywords.value else []
  }

  /** Adding the keywords of the class at MRO position `j`: a keyword already present keeps its owner. */
  function AddKeywords(acc: map<string, nat>, kws: seq<string>, j: nat): (r: map<string, nat>)
    ensures r.Keys == acc.Keys + set kw | kw in kws
    ensures forall kw :: kw in acc ==> r[kw] == acc[kw]
    ensures forall kw :: kw in r && kw !in acc ==> r[kw] == j
    decreases |kws|
  {
    if |kws| == 0 then acc
    else
      var kw := kws[0];
      var acc' := if kw in acc then acc else acc[kw := j];
      assert forall x :: x in kws <==> x == kw || x in kws[1..] by {
        assert kws == [kw] + kws[1..];
      }
      AddKeywords(acc', kws[1..], j)
  }

  /** The loop of `_protected_keywords` over the MRO from position `i`. */
  function KeywordsFrom(mro: seq<ClassBody>, i: nat, acc: map<string, nat>): map<string, nat>
    requires i <= |mro|
    decreases |mro| - i
  {
    if i == |mro| then acc
    else KeywordsFrom(mro, i + 1, AddKeywords(acc, OwnKeywords(mro[i]), i))
  }

  /** `_protected_keywords()`: each keyword with the MRO position of the class that defines it. */
  function ProtectedKeywords(mro: seq<ClassBody>): map<string, nat>
  {
    KeywordsFrom(mro, 0, map[])
  }

  /** Position `j` holds the nearest class of the MRO whose own `_keywords` list `kw`. */
  predicate NearestLister(mro: seq<ClassBody>, kw: string, j: nat)
  {
    j < |mro| && kw in OwnKeywords(mro[j]) && forall i :: 0 <= i < j ==> kw !in OwnKeywords(mro[i])
  }

  /**
   * A name is a protected keyword exactly when some class of the MRO lists
   * it, and it is attributed to the nearest such class.
   */
  lemma ProtectedNearest(mro: seq<ClassBody>, kw: string)
    ensures kw in ProtectedKeywords(mro) <==> exists j :: 0 <= j < |mro| && kw in OwnKeywords(mro[j])
    ensures kw in ProtectedKeywords(mro) ==> NearestLister(mro, kw, ProtectedKeywords(mro)[kw])
  {
    KeywordsFromSpec(mro, 0, map[], kw);
  }

  lemma {:induction false} KeywordsFromSpec(mro: seq<ClassBody>, i: nat, acc: map<string, nat>, kw: string)
    requires i <= |mro|
    requires kw in acc <==> exists j :: 0 <= j < i && kw in OwnKeywords(mro[j])
    requires kw in acc ==> NearestLister(mro, kw, acc[kw])
    ensures kw in KeywordsFrom(mro, i, acc) <==> exists j :: 0 <= j < |mro| && kw in OwnKeywords(mro[j])
    ensures kw in KeywordsFrom(mro, i, acc) ==> NearestLister(mro, kw, KeywordsFrom(mro, i, acc)[kw])
    decreases |mro| - i
  {
    if i < |mro| {
      var acc' := AddKeywords(acc, OwnKeywords(mro[i]), i);
      assert kw in acc' <==> exists j :: 0 <= j < i + 1 && kw in OwnKeywords(mro[j]);
      KeywordsFromSpec(mro, i + 1, acc', kw);
    }
  }

  /** The Composable keywords are protected in every class that derives from it. */
  lemma BaseKeywordsProtected(bases: seq<ClassBody>, own: ClassBody)
    requires |bases| > 0 && bases[|bases| - 1] == ComposableBody
    ensures "run" in ProtectedKeywords([own] + bases) && "config" in ProtectedKeywords([own] + bases)
  {
    var mro := [own] + bases;
    assert mro[|mro| - 1] == ComposableBody;
    assert "run" in OwnKeywords(mro[|mro| - 1]) && "config" in OwnKeywords(mro[|mro| - 1]);
    ProtectedNearest(mro, "run");
    ProtectedNearest(mro, "config");
  }

  // ---------------------------------------------------------------------
  // Class creation

  /** `__set_name__` of every attribute, in definition order: Params validate their arguments. */
  function SetNames(b: ClassBody, attrs: seq<(string, Attr)>): (r: Result<()>)
    decreases |attrs|
  {
    if |attrs| == 0 then Ok(())
    else match attrs[0].1
      case Desc(PDesc(p)) =>
        (match ValidateParam(b.modname + "." + b.name + "." + attrs[0].0, p)
         case Err(e) => Err(e)
         case Ok(_) => SetNames(b, attrs[1..]))
      case _ => SetNames(b, attrs[1..])
  }

  /**
   * The loop after the class is made: a descriptor whose name starts with
   * `_` or is a protected keyword raises ValueError; the message names the
   * class defining the keyword.
   */
  function CheckNames(attrs: seq<(string, Attr)>, mro: seq<ClassBody>, kws: map<string, nat>): (r: Result<()>)
    requires forall kw :: kw in kws ==> kws[kw] < |mro|
    decreases |attrs|
  {
    if |attrs| == 0 then Ok(())
    else
      var (name, a) := attrs[0];
      if !a.Desc? then CheckNames(attrs[1..], mro, kws)
      else if StartsWith(name, "_") then Raise(ValueError, "Node and param name cannot start with _: " + name)
      else if name in kws then
        Raise(ValueError, "\"" + name + "\" is a protected keyword, defined by \"" + ClassRepr(mro[kws[name]]) + "\"")
      else CheckNames(attrs[1..], mro, kws)
  }

  /** A Param whose arguments `_validate_args` rejects. */
  predicate BadParam(a: Attr)
  {
    a.Desc? && a.d.PDesc? && |a.d.p.dependsOn| > 0 && (a.d.p.callback.None? || a.d.p.noCache)
  }

  /** A descriptor whose name is private or protected. */
  predicate BadName(name: string, a: Attr, kws: map<string, nat>)
  {
    a.Desc? && (StartsWith(name, "_") || name in kws)
  }

  /**
   * `MetaComposable.__new__` for a class statement with body `body` and
   * bases whose MRO is `bases`: the annotations become descriptors, the
   * class is made (running `__set_name__`), then the names are checked.
   */
  function CreateClass(body: ClassBody, bases: seq<ClassBody>): (r: Result<Klass>)
  {
    var own := body.(attrs := Descriptorize(body.attrs, body.annotations));
    var k := Klass(own, bases);
    var kws := ProtectedKeywords(Mro(k));
    ProtectedBounded(Mro(k));
    match SetNames(own, own.attrs)
    case Err(e) => Err(e)
    case Ok(_) =>
      match CheckNames(own.attrs, Mro(k), kws)
      case Err(e) => Err(e)
      case Ok(_) => Ok(k)
  }

  lemma ProtectedBounded(mro: seq<ClassBody>)
    ensures forall kw :: kw in ProtectedKeywords(mro) ==> ProtectedKeywords(mro)[kw] < |mro|
  {
    forall kw | kw in ProtectedKeywords(mro) ensures ProtectedKeywords(mro)[kw] < |mro| {
      ProtectedNearest(mro, kw);
    }
  }

  lemma {:induction false} SetNamesIff(b: ClassBody, attrs: seq<(string, Attr)>)
    ensures SetNames(b, attrs).Ok? <==> forall i :: 0 <= i < |attrs| ==> !BadParam(attrs[i].1)
    ensures SetNames(b, attrs).Err? ==> SetNames(b, attrs).error.kind == InvalidParamDefinition
    decreases |attrs|
  {
    if |attrs| > 0 {
      SetNamesIff(b, attrs[1..]);
      assert forall i :: 0 < i < |attrs| ==> attrs[i] == attrs[1..][i - 1];
    }
  }

  lemma {:induction false} CheckNamesIff(attrs: seq<(string, Attr)>, mro: seq<ClassBody>, kws: map<string, nat>)
    requires forall kw :: kw in kws ==> kws[kw] < |mro|
    ensures CheckNames(attrs, mro, kws).Ok? <==> forall i :: 0 <= i < |attrs| ==> !BadName(attrs[i].0, attrs[i].1, kws)
    ensures CheckNames(attrs, mro, kws).Err? ==> CheckNames(attrs, mro, kws).error.kind == ValueError
    decreases |attrs|
  {
    if |attrs| > 0 {
      CheckNamesIff(attrs[1..], mro, kws);
      assert forall i :: 0 < i < |attrs| ==> attrs[i] == attrs[1..][i - 1];
    }
  }

  /**
   * A class is created exactly when none of its Params has `depends_on`
   * without a callback or together with `no_cache`, and none of its
   * descriptors is named with a leading `_` or after a protected keyword.
   * A bad Param is reported (InvalidParamDefinition) before a bad name
   * (ValueError).
   */
  lemma CreateClassIff(body: ClassBody, bases: seq<ClassBody>)
    ensures var attrs := Descriptorize(body.attrs, body.annotations);
      var kws := ProtectedKeywords([body.(attrs := attrs)] + bases);
      (CreateClass(body, bases).Ok? <==>
        forall i :: 0 <= i < |attrs| ==> !BadParam(attrs[i].1) && !BadName(attrs[i].0, attrs[i].1, kws)) &&
      ((exists i :: 0 <= i < |attrs| && BadParam(attrs[i].1)) ==>
        CreateClass(body, bases).Err? && CreateClass(body, bases).error.kind == InvalidParamDefinition) &&
      ((forall i :: 0 <= i < |attrs| ==> !BadParam(attrs[i].1)) && CreateClass(body, bases).Err? ==>
        CreateClass(body, bases).error.kind == ValueError)
  {
    var own := body.(attrs := Descriptorize(body.attrs, body.annotations));
    var k := Klass(own, bases);
    ProtectedBounded(Mro(k));
    SetNamesIff(own, own.attrs);
    CheckNamesIff(own.attrs, Mro(k), ProtectedKeywords(Mro(k)));
  }

  /**
   * When the only problem is a descriptor named after a protected keyword,
   * the ValueError names the nearest class of the MRO that lists it.
   */
  lemma {:induction false} ProtectedMessage(attrs: seq<(string, Attr)>, mro: seq<ClassBody>, i: nat)
    requires i < |attrs| && attrs[i].1.Desc? && !StartsWith(attrs[i].0, "_")
    requires attrs[i].0 in ProtectedKeywords(mro)
    requires forall j :: 0 <= j < i ==> !BadName(attrs[j].0, attrs[j].1, ProtectedKeywords(mro))
    ensures forall kw :: kw in ProtectedKeywords(mro) ==> ProtectedKeywords(mro)[kw] < |mro|
    ensures exists n: nat :: (NearestLister(mro, attrs[i].0, n) &&
      CheckNames(attrs, mro, ProtectedKeywords(mro)) ==
        Raise(ValueError, "\"" + attrs[i].0 + "\" is a protected keyword, defined by \"" + ClassRepr(mro[n]) + "\""))
    decreases i
  {
    ProtectedBounded(mro);
    ProtectedNearest(mro, attrs[i].0);
    var n := ProtectedKeywords(mro)[attrs[i].0];
    if i > 0 {
      ProtectedMessage(attrs[1..], mro, i - 1);
      assert forall j :: 0 <= j < i - 1 ==> attrs[1..][j] == attrs[j + 1];
    }
    assert NearestLister(mro, attrs[i].0, n);
  }

  // ---------------------------------------------------------------------
  // Registered params and nodes

  predicate IsParamAttr(a: Attr) { a.Desc? && a.d.PDesc? }
  predicate IsNodeAttr(a: Attr) { a.Desc? && a.d.NDesc? }

  /** The names of one class's own Param (or Node) attributes, in definition order. */
  function OwnDeclared(attrs: seq<(string, Attr)>, node: bool): (r: seq<string>)
    ensures forall x :: x in r <==>
      exists j :: 0 <= j < |attrs| && attrs[j].0 == x && (if node then IsNodeAttr(attrs[j].1) else IsParamAttr(attrs[j].1))
    decreases |attrs|
  {
    if |attrs| == 0 then []
    else
      var rest := OwnDeclared(attrs[1..], node);
      assert forall j :: 0 < j < |attrs| ==> attrs[j] == attrs[1..][j - 1];
      if (if node then IsNodeAttr(attrs[0].1) else IsParamAttr(attrs[0].1)) then [attrs[0].0] + rest else rest
  }

  /** The names declared by every class of the MRO, in MRO order. */
  function AllDeclared(mro: seq<ClassBody>, node: bool): seq<string>
    decreases |mro|
  {
    if |mro| == 0 then [] else OwnDeclared(mro[0].attrs, node) + AllDeclared(mro[1..], node)
  }

  /** `_collect_registered_params_and_nodes()`: sorted, duplicate-free params and nodes. */
  function Registered(mro: seq<ClassBody>): (r: (seq<string>, seq<string>))
    ensures StrictlySorted(r.0) && StrictlySorted(r.1)
  {
    (SortedUnique(AllDeclared(mro, false)), SortedUnique(AllDeclared(mro, true)))
  }

  /** A name is declared somewhere in the MRO as a Param (or a Node). */
  ghost predicate DeclaredIn(mro: seq<ClassBody>, x: string, node: bool)
  {
    exists i, j :: 0 <= i < |mro| && 0 <= j < |mro[i].attrs| && mro[i].attrs[j].0 == x &&
      (if node then IsNodeAttr(mro[i].attrs[j].1) else IsParamAttr(mro[i].attrs[j].1))
  }

  lemma {:induction false} AllDeclaredIff(mro: seq<ClassBody>, node: bool, x: string)
    ensures x in AllDeclared(mro, node) <==> DeclaredIn(mro, x, node)
    decreases |mro|
  {
    if |mro| > 0 {
      AllDeclaredIff(mro[1..], node, x);
      if DeclaredIn(mro, x, node) {
        var i, j :| 0 <= i < |mro| && 0 <= j < |mro[i].attrs| && mro[i].attrs[j].0 == x &&
          (if node then IsNodeAttr(mro[i].attrs[j].1) else IsParamAttr(mro[i].attrs[j].1));
        if i > 0 {
          assert mro[1..][i - 1] == mro[i];
        }
      }
      if DeclaredIn(mro[1..], x, node) {
        var i, j :| 0 <= i < |mro[1..]| && 0 <= j < |mro[1..][i].attrs| && mro[1..][i].attrs[j].0 == x &&
          (if node then IsNodeAttr(mro[1..][i].attrs[j].1) else IsParamAttr(mro[1..][i].attrs[j].1));
        assert mro[i + 1] == mro[1..][i];
      }
    }
  }

  /**
   * The registered params (nodes) are exactly the names some class of the
   * MRO declares as a Param (Node), each listed once, in sorted order; a
   * name declared as a Param in one class and a Node in another is in both.
   */
  lemma RegisteredIff(mro: seq<ClassBody>, x: string)
    ensures x in Registered(mro).0 <==> DeclaredIn(mro, x, false)
    ensures x in Registered(mro).1 <==> DeclaredIn(mro, x, true)
  {
    AllDeclaredIff(mro, false, x);
    AllDeclaredIff(mro, true, x);
    assert x in Registered(mro).0 <==> x in Elems(Registered(mro).0);
    assert x in Registered(mro).1 <==> x in Elems(Registered(mro).1);
  }

  // ---------------------------------------------------------------------
  // What an instance resolves through its class

  /** Python attribute lookup on the class: the nearest class of the MRO binding `name`. */
  function FindAttr(mro: seq<ClassBody>, name: string): Option<Attr>
    decreases |mro|
  {
    if |mro| == 0 then None
    else match Lookup(mro[0].attrs, name)
      case Some(a) => Some(a)
      case None => FindAttr(mro[1..], name)
  }

  /** The Param descriptor that governs `name`, if the attribute found is one. */
  function ParamOf(mro: seq<ClassBody>, name: string): Option<ParamDecl>
  {
    match FindAttr(mro, name)
    case Some(Desc(PDesc(p))) => Some(p)
    case _ => None
  }

  /** The Node descriptor that governs `name`, if the attribute found is one. */
  function NodeOf(mro: seq<ClassBody>, name: string): Option<NodeDecl>
  {
    match FindAttr(mro, name)
    case Some(Desc(NDesc(n))) => Some(n)
    case _ => None
  }

  /**
   * `getattr(self, "Middleware")` then `.middleware`: the nearest class
   * defining `Middleware`; `None` when it is set to None, and an
   * AttributeError when no class defines it.
   */
  function MiddlewareOf(mro: seq<ClassBody>): Result<Option<seq<string>>>
    decreases |mro|
  {
    if |mro| == 0 then Raise(AttributeError, "object has no attribute 'Middleware'")
    else if mro[0].middleware.Some? then Ok(mro[0].middleware.value)
    else MiddlewareOf(mro[1..])
  }

  /** Each class's own `Config`, in MRO order, as the configuration layers it. */
  function ConfigsOf(mro: seq<ClassBody>): (r: seq<Option<Entries>>)
    ensures |r| == |mro|
    ensures forall i :: 0 <= i < |mro| ==> r[i] == mro[i].config
  {
    seq(|mro|, i requires 0 <= i < |mro| => mro[i].config)
  }

  /** Classes that do not define `Middleware` pass the lookup on to their bases. */
  lemma {:induction false} MiddlewareInherited(own: seq<ClassBody>, rest: seq<ClassBody>)
    requires forall i :: 0 <= i < |own| ==> own[i].middleware.None?
    ensures MiddlewareOf(own + rest) == MiddlewareOf(rest)
    decreases |own|
  {
    if |own| > 0 {
      assert (own + rest)[0] == own[0];
      assert (own + rest)[1..] == own[1..] + rest;
      assert forall i :: 0 <= i < |own[1..]| ==> own[1..][i] == own[i + 1];
      MiddlewareInherited(own[1..], rest);
    } else {
      assert own + rest == rest;
    }
  }
}
