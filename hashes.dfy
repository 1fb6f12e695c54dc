/**
 * The naive structural hash: a value is turned into a stream of text that
 * is fed piece by piece to a digest function.  The digest itself (md5 by
 * default) is an opaque function of everything fed so far.
 */
module Hashes {
  import opened Text
  import opened PyValues

  /** Attribute names `dir()` lists that do not start with an underscore. */
  function Public(names: seq<string>): (r: seq<string>)
    ensures forall i :: 0 <= i < |r| ==> r[i] in names && !StartsWith(r[i], "_")
    ensures forall i :: 0 <= i < |names| && !StartsWith(names[i], "_") ==> names[i] in r
  {
    if |names| == 0 then []
    else if StartsWith(names[0], "_") then Public(names[1..])
    else [names[0]] + Public(names[1..])
  }

  /**
   * The text `update(v)` feeds: `str(v)` for a str, int or bool; the items'
   * streams in order for a list or tuple; key then value in sorted key order
   * for a dict; and for anything else each public attribute name from the
   * sorted `dir()` listing followed by that attribute's stream.
   */
  function Stream(v: Value): string
    decreases v, 1
  {
    match v
    case Str(_) => ScalarText(v)
    case Int(_) => ScalarText(v)
    case Bool(_) => ScalarText(v)
    case List(items) => ItemsFrom(items, 0, v)
    case Tuple(items) => ItemsFrom(items, 0, v)
    case Dict(e) => KeyedFrom(SortedUnique(Keys(e)), 0, e, v)
    case Class(_, _, attrs) => KeyedFrom(Public(SortedUnique(Keys(attrs))), 0, attrs, v)
    case Object(_, attrs) => KeyedFrom(Public(SortedUnique(Keys(attrs))), 0, attrs, v)
    case PyNone => ""
    case Func(_, _) => ""
  }

  /** The streams of `items[i..]`, concatenated with no separator. */
  function ItemsFrom(items: seq<Value>, i: nat, ghost parent: Value): string
    requires i <= |items|
    requires forall j :: 0 <= j < |items| ==> items[j] < parent
    decreases parent, 0, |items| - i
  {
    if i == |items| then "" else Stream(items[i]) + ItemsFrom(items, i + 1, parent)
  }

  /** Each key of `keys[i..]` followed by the stream of its value in `e`. */
  function KeyedFrom(keys: seq<string>, i: nat, e: Entries, ghost parent: Value): string
    requires i <= |keys|
    requires forall j :: 0 <= j < |e| ==> e[j].1 < parent
    decreases parent, 0, |keys| - i
  {
    if i == |keys| then ""
    else
      var rest := KeyedFrom(keys, i + 1, e, parent);
      match Find(e, keys[i])
      case None => keys[i] + rest
      case Some(j) => keys[i] + Stream(e[j].1) + rest
  }

  /** The hasher: a digest function and the text fed to it so far. */
  class NaiveHash {
    /** Everything fed to the digest function since construction. */
    var fed: string
    /** The digest of a fed stream; md5's hex digest by default. */
    const digestOf: string -> string

    constructor(digestOf: string -> string)
      ensures fed == [] && this.digestOf == digestOf
    {
      fed := [];
      this.digestOf := digestOf;
    }

    /** The digest function's own `update`. */
    method Feed(s: string)
      modifies this
      ensures fed == old(fed) + s
    {
      fed := fed + s;
    }

    /** Feeds the stream of `obj`. */
    method Update(obj: Value)
      modifies this
      ensures fed == old(fed) + Stream(obj)
      decreases obj
    {
      match obj
      case Str(_) => Feed(ScalarText(obj));
      case Int(_) => Feed(ScalarText(obj));
      case Bool(_) => Feed(ScalarText(obj));
      case List(items) => UpdateItems(items, obj);
      case Tuple(items) => UpdateItems(items, obj);
      case Dict(e) => UpdateKeyed(SortedUnique(Keys(e)), e, obj);
      case Class(_, _, attrs) => UpdateKeyed(Public(SortedUnique(Keys(attrs))), attrs, obj);
      case Object(_, attrs) => UpdateKeyed(Public(SortedUnique(Keys(attrs))), attrs, obj);
      case PyNone =>
      case Func(_, _) =>
    }

    /** Feeds each item in order. */
    method UpdateItems(items: seq<Value>, ghost obj: Value)
      requires forall j :: 0 <= j < |items| ==> items[j] < obj
      modifies this
      ensures fed == old(fed) + ItemsFrom(items, 0, obj)
      decreases obj, 0
    {
      var i := 0;
      while i < |items|
        invariant 0 <= i <= |items|
        invariant fed + ItemsFrom(items, i, obj) == old(fed) + ItemsFrom(items, 0, obj)
      {
        ghost var before := fed;
        Update(items[i]);
        assert before + ItemsFrom(items, i, obj)
            == before + Stream(items[i]) + ItemsFrom(items, i + 1, obj);
        i := i + 1;
      }
    }

    /** Feeds each key, which is a str, and then the stream of its value. */
    method UpdateKeyed(keys: seq<string>, e: Entries, ghost obj: Value)
      requires forall j :: 0 <= j < |e| ==> e[j].1 < obj
      modifies this
      ensures fed == old(fed) + KeyedFrom(keys, 0, e, obj)
      decreases obj, 0
    {
      var i := 0;
      while i < |keys|
        invariant 0 <= i <= |keys|
        invariant fed + KeyedFrom(keys, i, e, obj) == old(fed) + KeyedFrom(keys, 0, e, obj)
      {
        ghost var before := fed;
        Feed(keys[i]);
        match Find(e, keys[i]) {
          case None =>
            assert before + KeyedFrom(keys, i, e, obj)
                == before + keys[i] + KeyedFrom(keys, i + 1, e, obj);
          case Some(j) =>
            Update(e[j].1);
            assert before + KeyedFrom(keys, i, e, obj)
                == before + keys[i] + Stream(e[j].1) + KeyedFrom(keys, i + 1, e, obj);
        }
        i := i + 1;
      }
    }

    /** `h(obj)`: feeds `obj` and returns the digest of all text fed so far. */
    method Call(obj: Value) returns (digest: string)
      modifies this
      ensures fed == old(fed) + Stream(obj)
      ensures digest == digestOf(old(fed) + Stream(obj))
    {
      Update(obj);
      digest := digestOf(fed);
    }
  }

  /** The parent bound only justifies termination; it never changes the text. */
  lemma {:induction false} ItemsParentFree(items: seq<Value>, i: nat, p: Value, q: Value)
    requires i <= |items|
    requires forall j :: 0 <= j < |items| ==> items[j] < p && items[j] < q
    ensures ItemsFrom(items, i, p) == ItemsFrom(items, i, q)
    decreases |items| - i
  {
    if i < |items| {
      ItemsParentFree(items, i + 1, p, q);
    }
  }

  /** A list and a tuple with the same items feed the same text. */
  lemma ListTupleAlike(items: seq<Value>)
    ensures Stream(List(items)) == Stream(Tuple(items))
  {
    ItemsParentFree(items, 0, List(items), Tuple(items));
  }

  /** Items are fed back to back: the text of a concatenated list is the texts of its two parts, joined. */
  lemma {:induction false} ItemsConcat(items: seq<Value>, more: seq<Value>)
    ensures Stream(List(items + more)) == Stream(List(items)) + Stream(List(more))
  {
    ItemsSplit(items, more, 0);
  }

  lemma {:induction false} ItemsSplit(items: seq<Value>, more: seq<Value>, i: nat)
    requires i <= |items|
    ensures ItemsFrom(items + more, i, List(items + more))
         == ItemsFrom(items, i, List(items)) + ItemsFrom(more, 0, List(more))
    decreases |items| - i
  {
    var all := items + more;
    if i == |items| {
      ItemsShift(items, more, 0);
    } else {
      assert all[i] == items[i];
      ItemsSplit(items, more, i + 1);
    }
  }

  lemma {:induction false} ItemsShift(items: seq<Value>, more: seq<Value>, j: nat)
    requires j <= |more|
    ensures ItemsFrom(items + more, |items| + j, List(items + more))
         == ItemsFrom(more, j, List(more))
    decreases |more| - j
  {
    var all := items + more;
    if j < |more| {
      assert all[|items| + j] == more[j];
      ItemsShift(items, more, j + 1);
    }
  }

  /** No separators: `[1, 2]` and `[12]` feed the same text, and so get the same digest. */
  lemma ItemsRunTogether()
    ensures Stream(List([Int(1), Int(2)])) == Stream(List([Int(12)])) == "12"
  {
    var a := [Int(1), Int(2)];
    assert IntToString(1) == "1" && IntToString(2) == "2" && IntToString(12) == "12";
    assert ItemsFrom(a, 1, List(a)) == "2";
    assert ItemsFrom([Int(12)], 0, List([Int(12)])) == "12";
  }

  /** Order matters only through the text: `["a", "aa"]` and `["aa", "a"]` feed the same text. */
  lemma ReorderCollision()
    ensures Stream(List([Str("a"), Str("aa")])) == Stream(List([Str("aa"), Str("a")])) == "aaa"
  {
    var a := [Str("a"), Str("aa")];
    var b := [Str("aa"), Str("a")];
    assert ItemsFrom(a, 1, List(a)) == "aa";
    assert ItemsFrom(b, 1, List(b)) == "a";
  }

  /** Empty list, empty tuple, empty dict and None all feed nothing. */
  lemma EmptyFeedsNothing()
    ensures Stream(List([])) == Stream(Tuple([])) == Stream(Dict([])) == Stream(PyNone) == ""
  {
    assert Keys([]) == [];
    assert SortedUnique([]) == [];
  }

  /** The keyed text depends on `e` only through `Get`. */
  lemma {:induction false} KeyedByGet(keys: seq<string>, i: nat, e: Entries, f: Entries, p: Value, q: Value)
    requires i <= |keys|
    requires forall j :: 0 <= j < |e| ==> e[j].1 < p
    requires forall j :: 0 <= j < |f| ==> f[j].1 < q
    requires forall j :: i <= j < |keys| ==> Get(e, keys[j]) == Get(f, keys[j])
    ensures KeyedFrom(keys, i, e, p) == KeyedFrom(keys, i, f, q)
    decreases |keys| - i
  {
    if i < |keys| {
      KeyedByGet(keys, i + 1, e, f, p, q);
      FoundAlike(e, f, keys[i]);
    }
  }

  /** Where two dicts map `k` alike, both find it or neither does, with the same value. */
  lemma FoundAlike(e: Entries, f: Entries, k: string)
    requires Get(e, k) == Get(f, k)
    ensures Find(e, k).Some? <==> Find(f, k).Some?
    ensures Find(e, k).Some? ==> e[Find(e, k).value].1 == f[Find(f, k).value].1
  {
  }

  /** Both dicts hold `k` or both lack it, and where they hold it its values feed alike. */
  predicate AlikeAt(e: Entries, f: Entries, k: string)
  {
    (Get(e, k).Some? <==> Get(f, k).Some?) &&
    (Get(e, k).Some? ==> Stream(Get(e, k).value) == Stream(Get(f, k).value))
  }

  /** Where two dicts both hold `k` or both lack it, both find it or neither does. */
  lemma FoundBoth(e: Entries, f: Entries, k: string)
    requires Get(e, k).Some? <==> Get(f, k).Some?
    ensures Find(e, k).Some? <==> Find(f, k).Some?
    ensures Find(e, k).Some? ==> Get(e, k).value == e[Find(e, k).value].1 && Get(f, k).value == f[Find(f, k).value].1
  {
  }

  /** The keys of a dict, as a set, are those `Get` finds. */
  lemma KeySet(e: Entries, k: string)
    ensures k in Elems(Keys(e)) <==> Get(e, k).Some?
  {
    if k in Elems(Keys(e)) {
      var i :| 0 <= i < |Keys(e)| && Keys(e)[i] == k;
      assert HasKey(e, k);
    }
  }

  /** Insertion order never matters: dicts that map every key alike feed the same text. */
  lemma {:induction false} DictOrderFree(e: Entries, f: Entries)
    requires forall k :: Get(e, k) == Get(f, k)
    ensures Stream(Dict(e)) == Stream(Dict(f))
  {
    SameSortedKeys(e, f);
    SortedAlike(e, f, SortedUnique(Keys(e)));
  }

  /** Dicts listing the same sorted keys and mapping each of them alike feed the same text. */
  lemma SortedAlike(e: Entries, f: Entries, keys: seq<string>)
    requires keys == SortedUnique(Keys(e)) == SortedUnique(Keys(f))
    requires forall j :: 0 <= j < |keys| ==> Get(e, keys[j]) == Get(f, keys[j])
    ensures Stream(Dict(e)) == Stream(Dict(f))
  {
    KeyedByGet(keys, 0, e, f, Dict(e), Dict(f));
  }

  /** Dicts that map every key alike list the same sorted keys. */
  lemma SameSortedKeys(e: Entries, f: Entries)
    requires forall k :: Get(e, k).Some? <==> Get(f, k).Some?
    ensures SortedUnique(Keys(e)) == SortedUnique(Keys(f))
  {
    assert Elems(Keys(e)) == Elems(Keys(f)) by {
      forall k ensures k in Elems(Keys(e)) <==> k in Elems(Keys(f)) {
        KeySet(e, k);
        KeySet(f, k);
      }
    }
    SortedUniqueness(SortedUnique(Keys(e)), SortedUnique(Keys(f)));
  }

  /** The keyed text depends on each key's value only through that value's text. */
  lemma {:induction false} KeyedByStream(keys: seq<string>, i: nat, e: Entries, f: Entries, p: Value, q: Value)
    requires i <= |keys|
    requires forall j :: 0 <= j < |e| ==> e[j].1 < p
    requires forall j :: 0 <= j < |f| ==> f[j].1 < q
    requires forall j :: i <= j < |keys| ==> AlikeAt(e, f, keys[j])
    ensures KeyedFrom(keys, i, e, p) == KeyedFrom(keys, i, f, q)
    decreases |keys| - i
  {
    if i < |keys| {
      var k := keys[i];
      KeyedByStream(keys, i + 1, e, f, p, q);
      FoundBoth(e, f, k);
      assert AlikeAt(e, f, k);
      var rest := KeyedFrom(keys, i + 1, e, p);
      assert rest == KeyedFrom(keys, i + 1, f, q);
      if Find(e, k).Some? {
        var a, b := Find(e, k).value, Find(f, k).value;
        assert Stream(e[a].1) == Stream(f[b].1);
        assert KeyedFrom(keys, i, e, p) == k + Stream(e[a].1) + rest;
        assert KeyedFrom(keys, i, f, q) == k + Stream(f[b].1) + rest;
      } else {
        assert KeyedFrom(keys, i, e, p) == k + rest == KeyedFrom(keys, i, f, q);
      }
    }
  }

  /** Dicts with the same keys whose values feed alike feed alike, whatever their order. */
  lemma {:induction false} DictStreamCongruent(e: Entries, f: Entries)
    requires forall k :: Get(e, k).Some? <==> Get(f, k).Some?
    requires forall k :: Get(e, k).Some? ==> Stream(Get(e, k).value) == Stream(Get(f, k).value)
    ensures Stream(Dict(e)) == Stream(Dict(f))
  {
    SameSortedKeys(e, f);
    var keys := SortedUnique(Keys(e));
    forall j | 0 <= j < |keys| ensures AlikeAt(e, f, keys[j]) {
    }
    KeyedByStream(keys, 0, e, f, Dict(e), Dict(f));
  }

  /** Reordering the pairs of a dict with distinct keys leaves its text unchanged. */
  lemma SwapEntries(a: (string, Value), b: (string, Value))
    requires a.0 != b.0
    ensures Stream(Dict([a, b])) == Stream(Dict([b, a]))
  {
    forall k ensures Get([a, b], k) == Get([b, a], k) {
      assert [a, b][1..] == [b];
      assert [b, a][1..] == [a];
    }
    DictOrderFree([a, b], [b, a]);
  }

  /** A class and an instance with the same public attributes feed the same text. */
  lemma ClassLikeInstance(modname: string, name: string, typeName: string, attrs: Entries)
    ensures Stream(Class(modname, name, attrs)) == Stream(Object(typeName, attrs))
  {
    var keys := Public(SortedUnique(Keys(attrs)));
    KeyedByGet(keys, 0, attrs, attrs, Class(modname, name, attrs), Object(typeName, attrs));
  }

  /** Two fresh hashers with the same digest function give equal digests for values with equal text. */
  method SameText(digestOf: string -> string, x: Value, y: Value) returns (dx: string, dy: string)
    ensures Stream(x) == Stream(y) ==> dx == dy
  {
    var h := new NaiveHash(digestOf);
    dx := h.Call(x);
    var g := new NaiveHash(digestOf);
    dy := g.Call(y);
  }

  /** A hasher used twice digests the first value's text followed by the second's. */
  method Reused(digestOf: string -> string, x: Value) returns (first: string, second: string)
    ensures first == digestOf(Stream(x))
    ensures second == digestOf(Stream(x) + Stream(x))
  {
    var h := new NaiveHash(digestOf);
    first := h.Call(x);
    assert [] + Stream(x) == Stream(x);
    second := h.Call(x);
  }
}
