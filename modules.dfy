/**
 * Allow-list imports and (de)serialisation of values to JSON-friendly
 * trees (theflow/utils/modules.py).  Only the safe import path is modelled:
 * an allow-list maps dotted names to the objects they stand for.
 */
module Modules {
  import opened Wrappers
  import opened Text
  import opened PyValues

  /** `import_dotted_string(name, safe=True, allowed_modules=allowed)`. */
  function ImportDotted(name: string, allowed: Option<Entries>): (r: Result<Value>)
    ensures allowed.None? ==> r.Err? && r.error.kind == ValueError
    ensures allowed.Some? ==> (r.Ok? <==> HasKey(allowed.value, name))
    ensures r.Err? ==> r.error.kind == ValueError
    ensures r.Ok? ==> allowed.Some? && Get(allowed.value, name) == Some(r.value)
  {
    if allowed.None? then Raise(ValueError, "Must provide allowed_modules when safe=True")
    else match Get(allowed.value, name)
      case None => Raise(ValueError, "Module is not allowed")
      case Some(obj) => Ok(obj)
  }

  /**
   * Importing the value stored under `"__type__"`: a string is looked up,
   * an unhashable key raises TypeError on the membership test, and any other
   * key is simply not in the allow-list.
   */
  function ImportType(t: Value, allowed: Option<Entries>): (r: Result<Value>)
    ensures t.Str? ==> r == ImportDotted(t.s, allowed)
    ensures !t.Str? ==> r.Err?
  {
    if allowed.None? then Raise(ValueError, "Must provide allowed_modules when safe=True")
    else if t.Str? then ImportDotted(t.s, allowed)
    else if !Hashable(t) then Raise(TypeError, "unhashable type")
    else Raise(ValueError, "Module is not allowed")
  }

  /** The entries of `d` other than `"__type__"`, in order. */
  function WithoutType(d: Entries): (r: Entries)
    ensures !HasKey(r, "__type__")
    ensures forall k :: k != "__type__" ==> Get(r, k) == Get(d, k)
    ensures |r| <= |d|
  {
    if |d| == 0 then []
    else if d[0].0 == "__type__" then WithoutType(d[1..])
    else
      var r := [d[0]] + WithoutType(d[1..]);
      assert r[1..] == WithoutType(d[1..]);
      r
  }

  /**
   * `init_object(obj_dict, allowed_modules=allowed)`; `construct(cls, params)`
   * stands for the call `cls(**params)`, which runs code outside this model.
   */
  function InitObject(objDict: Entries, allowed: Option<Entries>, construct: (Value, Entries) -> Result<Value>): (r: Result<Value>)
    ensures !HasKey(objDict, "__type__") ==> r.Err? && r.error.kind == ValueError
    ensures HasKey(objDict, "__type__") && ImportType(GetOr(objDict, "__type__", PyNone), allowed).Ok? ==>
      r == construct(ImportType(GetOr(objDict, "__type__", PyNone), allowed).value, WithoutType(objDict))
    ensures HasKey(objDict, "__type__") && ImportType(GetOr(objDict, "__type__", PyNone), allowed).Err? ==>
      r == ImportType(GetOr(objDict, "__type__", PyNone), allowed)
  {
    if !HasKey(objDict, "__type__") then Raise(ValueError, "Missing __type__ key")
    else match ImportType(GetOr(objDict, "__type__", PyNone), allowed)
      case Err(e) => Err(e)
      case Ok(cls) => construct(cls, WithoutType(objDict))
  }

  // ---------------------------------------------------------------------
  // serialize

  /** `"{{ dotted }}"`, the rendering of a named function or class. */
  function Template(dotted: string): string
  {
    "{{" + (" " + dotted + " ") + "}}"
  }

  /** A string `deserialize` treats as a reference: it starts with `{{` and ends with `}}`. */
  predicate Braced(s: string)
  {
    StartsWith(s, "{{") && EndsWith(s, "}}")
  }

  /** `value.__module__ + "." + value.__name__`. */
  function DottedName(modname: string, name: string): string
  {
    modname + "." + name
  }

  /** `serialize(value)`. */
  function Serialize(v: Value): Result<Value>
    decreases v, Width(v) + 1
  {
    match v
    case Dict(_) =>
      (match SerializeEntries(v, 0)
       case Err(e) => Err(e)
       case Ok(es) => Ok(Dict(es)))
    case List(_) =>
      (match SerializeItems(v, 0)
       case Err(e) => Err(e)
       case Ok(xs) => Ok(List(xs)))
    case Tuple(_) =>
      (match SerializeItems(v, 0)
       case Err(e) => Err(e)
       case Ok(xs) => Ok(Tuple(xs)))
    case PyNone => Ok(v)
    case Bool(_) => Ok(v)
    case Int(_) => Ok(v)
    case Str(_) => Ok(v)
    case Func(m, n) => if n == "<lambda>" then Raise(ValueError, "Cannot serialize lambda functions") else Ok(Str(Template(DottedName(m, n))))
    case Class(m, n, _) => if n == "<lambda>" then Raise(ValueError, "Cannot serialize lambda functions") else Ok(Str(Template(DottedName(m, n))))
    case Object(_, _) => Raise(ValueError, "Cannot serialize. Consider implementing __persist_flow__")
  }

  /** The items `i..` of a list or tuple, serialized in order; the first failure wins. */
  function SerializeItems(v: Value, i: nat): (r: Result<seq<Value>>)
    requires (v.List? || v.Tuple?) && i <= |v.items|
    ensures r.Ok? <==> forall j :: i <= j < |v.items| ==> Serialize(v.items[j]).Ok?
    ensures r.Ok? ==> |r.value| == |v.items| - i
    ensures r.Ok? ==> forall j :: 0 <= j < |r.value| ==> r.value[j] == Serialize(v.items[i + j]).value
    decreases v, |v.items| - i
  {
    if i == |v.items| then Ok([])
    else match Serialize(v.items[i])
      case Err(e) => Err(e)
      case Ok(x) =>
        match SerializeItems(v, i + 1)
        case Err(e) => Err(e)
        case Ok(xs) => Ok([x] + xs)
  }

  /** The entries `i..` of a dict with their values serialized, keys kept. */
  function SerializeEntries(v: Value, i: nat): (r: Result<Entries>)
    requires v.Dict? && i <= |v.entries|
    ensures r.Ok? <==> forall j :: i <= j < |v.entries| ==> Serialize(v.entries[j].1).Ok?
    ensures r.Ok? ==> |r.value| == |v.entries| - i
    ensures r.Ok? ==> forall j :: 0 <= j < |r.value| ==>
      r.value[j] == (v.entries[i + j].0, Serialize(v.entries[i + j].1).value)
    decreases v, |v.entries| - i
  {
    if i == |v.entries| then Ok([])
    else match Serialize(v.entries[i].1)
      case Err(e) => Err(e)
      case Ok(x) =>
        match SerializeEntries(v, i + 1)
        case Err(e) => Err(e)
        case Ok(es) => Ok([(v.entries[i].0, x)] + es)
  }

  // ---------------------------------------------------------------------
  // deserialize

  /** `deserialize(value, allowed_modules=allowed)`; `construct` stands for `cls(**params)`. */
  function Deserialize(v: Value, allowed: Option<Entries>, construct: (Value, Entries) -> Result<Value>): Result<Value>
    decreases v, Width(v) + 1
  {
    match v
    case Str(s) =>
      if Braced(s) then
        BracedLength(s);
        ImportDotted(StripSpace(s[2..|s| - 2]), allowed)
      else Ok(v)
    case Dict(e) =>
      if HasKey(e, "__type__") then
        (match ImportType(GetOr(e, "__type__", PyNone), allowed)
         case Err(x) => Err(x)
         case Ok(cls) =>
           (match DeserializeEntries(v, 0, allowed, construct)
            case Err(x) => Err(x)
            case Ok(params) => construct(cls, params)))
      else
        (match DeserializeEntries(v, 0, allowed, construct)
         case Err(x) => Err(x)
         case Ok(es) => Ok(Dict(es)))
    case List(_) =>
      (match DeserializeItems(v, 0, allowed, construct)
       case Err(x) => Err(x)
       case Ok(xs) => Ok(List(xs)))
    case Tuple(_) =>
      (match DeserializeItems(v, 0, allowed, construct)
       case Err(x) => Err(x)
       case Ok(xs) => Ok(Tuple(xs)))
    case PyNone => Ok(v)
    case Bool(_) => Ok(v)
    case Int(_) => Ok(v)
    case _ => Raise(ValueError, "Cannot deserialize type")
  }

  function DeserializeItems(v: Value, i: nat, allowed: Option<Entries>, construct: (Value, Entries) -> Result<Value>): (r: Result<seq<Value>>)
    requires (v.List? || v.Tuple?) && i <= |v.items|
    ensures r.Ok? <==> forall j :: i <= j < |v.items| ==> Deserialize(v.items[j], allowed, construct).Ok?
    ensures r.Ok? ==> |r.value| == |v.items| - i
    ensures r.Ok? ==> forall j :: 0 <= j < |r.value| ==> r.value[j] == Deserialize(v.items[i + j], allowed, construct).value
    decreases v, |v.items| - i
  {
    if i == |v.items| then Ok([])
    else match Deserialize(v.items[i], allowed, construct)
      case Err(e) => Err(e)
      case Ok(x) =>
        match DeserializeItems(v, i + 1, allowed, construct)
        case Err(e) => Err(e)
        case Ok(xs) => Ok([x] + xs)
  }

  /**
   * The entries `i..` of a dict other than `"__type__"`, values deserialized.
   * A dict without `"__type__"` keeps all its keys; one with it yields the
   * constructor's keyword arguments.
   */
  function DeserializeEntries(v: Value, i: nat, allowed: Option<Entries>, construct: (Value, Entries) -> Result<Value>): (r: Result<Entries>)
    requires v.Dict? && i <= |v.entries|
    ensures r.Ok? ==> Keys(r.value) == Keys(WithoutType(v.entries[i..]))
    ensures (forall j :: i <= j < |v.entries| ==> v.entries[j].0 != "__type__") ==>
      (r.Ok? <==> forall j :: i <= j < |v.entries| ==> Deserialize(v.entries[j].1, allowed, construct).Ok?)
    ensures (forall j :: i <= j < |v.entries| ==> v.entries[j].0 != "__type__") && r.Ok? ==>
      |r.value| == |v.entries| - i &&
      forall j :: 0 <= j < |r.value| ==> r.value[j] == (v.entries[i + j].0, Deserialize(v.entries[i + j].1, allowed, construct).value)
    decreases v, |v.entries| - i
  {
    if i == |v.entries| then Ok([])
    else
      assert v.entries[i..][1..] == v.entries[i + 1..];
      if v.entries[i].0 == "__type__" then DeserializeEntries(v, i + 1, allowed, construct)
      else match Deserialize(v.entries[i].1, allowed, construct)
        case Err(e) => Err(e)
        case Ok(x) =>
          match DeserializeEntries(v, i + 1, allowed, construct)
          case Err(e) => Err(e)
          case Ok(es) => Ok([(v.entries[i].0, x)] + es)
  }

  /** A braced string is at least four characters long, so its inner slice exists. */
  lemma BracedLength(s: string)
    requires Braced(s)
    ensures |s| >= 4
  {
    assert s[..2][1] == '{' && s[..2][0] == '{';
    assert s[|s| - 2..][0] == '}' && s[|s| - 2..][1] == '}';
  }

  // ---------------------------------------------------------------------
  // Properties

  /** `serialize` is the identity on trees of dicts, lists, tuples and scalars. */
  lemma {:induction false} SerializeNative(v: Value)
    requires IsNative(v)
    ensures Serialize(v) == Ok(v)
    decreases v
  {
    match v {
      case List(items) =>
        forall j | 0 <= j < |items| ensures Serialize(items[j]) == Ok(items[j]) {
          SerializeNative(items[j]);
        }
        assert SerializeItems(v, 0).value == items;
      case Tuple(items) =>
        forall j | 0 <= j < |items| ensures Serialize(items[j]) == Ok(items[j]) {
          SerializeNative(items[j]);
        }
        assert SerializeItems(v, 0).value == items;
      case Dict(e) =>
        forall j | 0 <= j < |e| ensures Serialize(e[j].1) == Ok(e[j].1) {
          SerializeNative(e[j].1);
        }
        assert SerializeEntries(v, 0).value == e;
      case _ =>
    }
  }

  /** Whatever `serialize` returns is a tree of dicts, lists, tuples and scalars. */
  lemma {:induction false} SerializeIsNative(v: Value)
    requires Serialize(v).Ok?
    ensures IsNative(Serialize(v).value)
    decreases v
  {
    match v {
      case List(items) =>
        forall j | 0 <= j < |items| ensures IsNative(Serialize(items[j]).value) {
          SerializeIsNative(items[j]);
        }
      case Tuple(items) =>
        forall j | 0 <= j < |items| ensures IsNative(Serialize(items[j]).value) {
          SerializeIsNative(items[j]);
        }
      case Dict(e) =>
        forall j | 0 <= j < |e| ensures IsNative(Serialize(e[j].1).value) {
          SerializeIsNative(e[j].1);
        }
      case _ =>
    }
  }

  /** Named functions and classes become `"{{ module.name }}"`; lambdas are refused. */
  lemma SerializeNamed(m: string, n: string, attrs: Entries)
    ensures n != "<lambda>" ==> Serialize(Func(m, n)) == Ok(Str(Template(DottedName(m, n))))
    ensures n != "<lambda>" ==> Serialize(Class(m, n, attrs)) == Ok(Str(Template(DottedName(m, n))))
    ensures n == "<lambda>" ==> Serialize(Func(m, n)).Err? && Serialize(Func(m, n)).error.kind == ValueError
  {
  }

  /** A name with no whitespace at either end. */
  predicate Trimmed(d: string)
  {
    |d| > 0 && d[0] !in Whitespace && d[|d| - 1] !in Whitespace
  }

  lemma StripPadded(d: string)
    requires Trimmed(d)
    ensures StripSpace(" " + d + " ") == d
  {
    assert ' ' in Whitespace;
    assert " " + d + " " == [' '] + (d + " ");
    LStripDrop(' ', d + " ", Whitespace);
    LStripClean(d + " ", Whitespace);
    RStripDrop(d, ' ', Whitespace);
    RStripClean(d, Whitespace);
  }

  lemma TemplateInner(d: string)
    ensures Braced(Template(d))
    ensures |Template(d)| >= 4 && Template(d)[2..|Template(d)| - 2] == " " + d + " "
  {
    var t := Template(d);
    var x := " " + d + " ";
    assert t == "{{" + x + "}}";
    assert t[..2] == "{{";
    assert t[|t| - 2..] == "}}";
    assert t[2..|t| - 2] == x;
  }

  /** `deserialize` resolves a rendered name through the allow-list. */
  lemma DeserializeTemplate(d: string, allowed: Option<Entries>, construct: (Value, Entries) -> Result<Value>)
    requires Trimmed(d)
    ensures Deserialize(Str(Template(d)), allowed, construct) == ImportDotted(d, allowed)
  {
    TemplateInner(d);
    StripPadded(d);
  }

  /**
   * Values that survive `serialize` then `deserialize`: scalars, strings
   * that do not look like `{{…}}`, containers of such values (dicts without
   * `"__type__"`), and named functions and classes that the allow-list maps
   * their dotted name back to.
   */
  predicate Portable(v: Value, allowed: Entries)
  {
    match v
    case PyNone => true
    case Bool(_) => true
    case Int(_) => true
    case Str(s) => !Braced(s)
    case List(items) => forall i :: 0 <= i < |items| ==> Portable(items[i], allowed)
    case Tuple(items) => forall i :: 0 <= i < |items| ==> Portable(items[i], allowed)
    case Dict(e) => !HasKey(e, "__type__") && forall i :: 0 <= i < |e| ==> Portable(e[i].1, allowed)
    case Func(m, n) => n != "<lambda>" && Trimmed(DottedName(m, n)) && Get(allowed, DottedName(m, n)) == Some(v)
    case Class(m, n, _) => n != "<lambda>" && Trimmed(DottedName(m, n)) && Get(allowed, DottedName(m, n)) == Some(v)
    case Object(_, _) => false
  }

  /** `deserialize(serialize(v), allowed_modules=allowed) == v` for portable values. */
  lemma {:induction false} RoundTrip(v: Value, allowed: Entries, construct: (Value, Entries) -> Result<Value>)
    requires Portable(v, allowed)
    ensures Serialize(v).Ok?
    ensures Deserialize(Serialize(v).value, Some(allowed), construct) == Ok(v)
    decreases v
  {
    match v {
      case List(items) =>
        forall j | 0 <= j < |items|
          ensures Serialize(items[j]).Ok? && Deserialize(Serialize(items[j]).value, Some(allowed), construct) == Ok(items[j])
        {
          RoundTrip(items[j], allowed, construct);
        }
        var w := List(SerializeItems(v, 0).value);
        assert DeserializeItems(w, 0, Some(allowed), construct).value == items;
      case Tuple(items) =>
        forall j | 0 <= j < |items|
          ensures Serialize(items[j]).Ok? && Deserialize(Serialize(items[j]).value, Some(allowed), construct) == Ok(items[j])
        {
          RoundTrip(items[j], allowed, construct);
        }
        var w := Tuple(SerializeItems(v, 0).value);
        assert DeserializeItems(w, 0, Some(allowed), construct).value == items;
      case Dict(e) =>
        forall j | 0 <= j < |e|
          ensures Serialize(e[j].1).Ok? && Deserialize(Serialize(e[j].1).value, Some(allowed), construct) == Ok(e[j].1)
        {
          RoundTrip(e[j].1, allowed, construct);
        }
        var es := SerializeEntries(v, 0).value;
        forall j | 0 <= j < |es| ensures es[j].0 != "__type__" {
          assert Keys(e)[j] == e[j].0;
        }
        assert !HasKey(es, "__type__");
        assert DeserializeEntries(Dict(es), 0, Some(allowed), construct).value == e;
      case Func(m, n) =>
        DeserializeTemplate(DottedName(m, n), Some(allowed), construct);
      case Class(m, n, _) =>
        DeserializeTemplate(DottedName(m, n), Some(allowed), construct);
      case _ =>
    }
  }

  /**
   * A native string that looks like `{{…}}` is kept by `serialize` but
   * resolved by `deserialize`, so it does not come back: without an
   * allow-list the round trip fails.
   */
  lemma BracedStringNotPortable(s: string, construct: (Value, Entries) -> Result<Value>)
    requires Braced(s)
    ensures Serialize(Str(s)) == Ok(Str(s))
    ensures Deserialize(Str(s), None, construct).Err?
  {
  }

  /** Values outside the supported kinds raise ValueError in both directions. */
  lemma UnsupportedRaise(v: Value, allowed: Option<Entries>, construct: (Value, Entries) -> Result<Value>)
    ensures v.Object? ==> Serialize(v).Err? && Serialize(v).error.kind == ValueError
    ensures v.Func? || v.Class? || v.Object? ==>
      Deserialize(v, allowed, construct).Err? && Deserialize(v, allowed, construct).error.kind == ValueError
  {
  }

  /** `deserialize` keeps the shape of lists and tuples. */
  lemma DeserializeShape(v: Value, allowed: Option<Entries>, construct: (Value, Entries) -> Result<Value>)
    requires v.List? || v.Tuple?
    requires Deserialize(v, allowed, construct).Ok?
    ensures var r := Deserialize(v, allowed, construct).value;
      (v.List? ==> r.List?) && (v.Tuple? ==> r.Tuple?) && |r.items| == |v.items|
  {
  }
}
