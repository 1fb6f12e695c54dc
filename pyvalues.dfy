/**
 * Python values as the runtime sees them: natives, containers, named
 * functions and classes, and other objects described by their public
 * attributes.  A dict is an insertion-ordered list of (key, value) pairs
 * with string keys, as Python dicts keep insertion order.
 */
module PyValues {
  import opened Wrappers
  import Text

  datatype Value =
    | PyNone
    | Bool(b: bool)
    | Int(i: int)
    | Str(s: string)
    | List(items: seq<Value>)
    | Tuple(items: seq<Value>)
    | Dict(entries: seq<(string, Value)>)
    /** A function object; `name` is `"<lambda>"` for a lambda. */
    | Func(modname: string, name: string)
    /** A class object with the public attributes `dir()` lists for it. */
    | Class(modname: string, name: string, attrs: seq<(string, Value)>)
    /** Any other object, described by the attributes `dir()` lists for it. */
    | Object(typeName: string, attrs: seq<(string, Value)>)

  type Entries = seq<(string, Value)>

  const EmptyDict: Value := Dict([])

  function Keys(d: Entries): (r: seq<string>)
    ensures |r| == |d|
    ensures forall i :: 0 <= i < |d| ==> r[i] == d[i].0
  {
    if |d| == 0 then [] else [d[0].0] + Keys(d[1..])
  }

  predicate HasKey(d: Entries, k: string)
  {
    k in Keys(d)
  }

  /** Python dicts never hold a key twice. */
  predicate DistinctKeys(d: Entries)
  {
    forall i, j :: 0 <= i < j < |d| ==> d[i].0 != d[j].0
  }

  /** Python `d.get(k)`: `None` stands for the missing key. */
  function Get(d: Entries, k: string): (r: Option<Value>)
    ensures r.Some? <==> HasKey(d, k)
  {
    if |d| == 0 then None
    else if d[0].0 == k then Some(d[0].1)
    else Get(d[1..], k)
  }

  /** Position of the first binding of key `k`, if present. */
  function Find(d: Entries, k: string): (r: Option<nat>)
    ensures r.Some? ==> r.value < |d| && d[r.value].0 == k && Get(d, k) == Some(d[r.value].1)
    ensures r.None? <==> !HasKey(d, k)
  {
    if |d| == 0 then None
    else if d[0].0 == k then Some(0)
    else match Find(d[1..], k)
      case None => None
      case Some(i) => Some(i + 1)
  }

  /** Python `d.get(k, default)`. */
  function GetOr(d: Entries, k: string, default: Value): Value
  {
    match Get(d, k)
    case None => default
    case Some(v) => v
  }

  /** Python `d[k] = v`: replaces in place, or appends a new key. */
  function Put(d: Entries, k: string, v: Value): (r: Entries)
    ensures Get(r, k) == Some(v)
    ensures forall k' :: k' != k ==> Get(r, k') == Get(d, k')
  {
    if |d| == 0 then [(k, v)]
    else if d[0].0 == k then [(k, v)] + d[1..]
    else
      var r := [d[0]] + Put(d[1..], k, v);
      assert r[1..] == Put(d[1..], k, v);
      r
  }

  /** Assignment keeps a present key in place and appends a new one. */
  lemma {:induction false} PutKeys(d: Entries, k: string, v: Value)
    ensures Keys(Put(d, k, v)) == if HasKey(d, k) then Keys(d) else Keys(d) + [k]
  {
    if |d| > 0 && d[0].0 != k {
      PutKeys(d[1..], k, v);
      assert Keys(d) == [d[0].0] + Keys(d[1..]);
      assert Put(d, k, v) == [d[0]] + Put(d[1..], k, v);
    }
  }

  lemma DistinctKeysIff(d: Entries)
    ensures DistinctKeys(d) <==> (|d| == 0 || (!HasKey(d[1..], d[0].0) && DistinctKeys(d[1..])))
  {
    if |d| > 0 {
      if !HasKey(d[1..], d[0].0) && DistinctKeys(d[1..]) {
        forall i, j | 0 <= i < j < |d| ensures d[i].0 != d[j].0 {
          if i == 0 {
            assert Keys(d[1..])[j - 1] == d[j].0;
          } else {
            assert d[1..][i - 1].0 == d[i].0 && d[1..][j - 1].0 == d[j].0;
          }
        }
      }
    }
  }

  lemma {:induction false} PutDistinct(d: Entries, k: string, v: Value)
    requires DistinctKeys(d)
    ensures DistinctKeys(Put(d, k, v))
  {
    DistinctKeysIff(d);
    var r := Put(d, k, v);
    DistinctKeysIff(r);
    if |d| > 0 {
      if d[0].0 != k {
        PutDistinct(d[1..], k, v);
        PutKeys(d[1..], k, v);
        assert r[1..] == Put(d[1..], k, v);
        assert !HasKey(r[1..], d[0].0);
      } else {
        assert r[1..] == d[1..];
      }
    }
  }

  lemma KeysAppend(d: Entries, e: Entries)
    ensures Keys(d + e) == Keys(d) + Keys(e)
  {
  }

  /** Assigning a key that is absent appends it. */
  lemma {:induction false} PutAbsent(d: Entries, k: string, v: Value)
    requires !HasKey(d, k)
    ensures Put(d, k, v) == d + [(k, v)]
  {
    if |d| > 0 {
      assert Keys(d) == [d[0].0] + Keys(d[1..]);
      PutAbsent(d[1..], k, v);
      assert Put(d, k, v) == [d[0]] + (d[1..] + [(k, v)]);
      ConsSnoc(d, (k, v));
    }
  }

  // Sequence facts stated once for any element type: proved on entries
  // directly they make the solver compare values structurally.

  lemma SliceCons<T>(e: seq<T>, i: nat)
    requires i < |e|
    ensures e[i..] == [e[i]] + e[i + 1..]
  {
  }

  lemma SliceEnd<T>(a: seq<T>, e: seq<T>, i: nat)
    requires i == |e|
    ensures a + e[i..] == a
  {
  }

  lemma WholeSlice<T>(e: seq<T>)
    ensures [] + e[0..] == e
  {
  }

  lemma TailConcat<T>(a: seq<T>, b: seq<T>)
    requires |a| > 0
    ensures (a + b)[0] == a[0] && (a + b)[1..] == a[1..] + b
  {
  }

  lemma Tails3<T>(a: T, b: T, c: T)
    ensures [a, b, c][1..] == [b, c] && [b, c][1..] == [c]
  {
  }

  lemma ConsSnoc<T>(d: seq<T>, y: T)
    requires |d| > 0
    ensures [d[0]] + (d[1..] + [y]) == d + [y]
  {
  }

  /** The last pair of a dict whose other keys differ is found and replaced in place. */
  lemma {:induction false} PutLast(d: Entries, k: string, x: Value, v: Value)
    requires !HasKey(d, k)
    ensures Get(d + [(k, x)], k) == Some(x)
    ensures Put(d + [(k, x)], k, v) == d + [(k, v)]
  {
    var e := d + [(k, x)];
    if |d| > 0 {
      assert Keys(d) == [d[0].0] + Keys(d[1..]);
      TailConcat(d, [(k, x)]);
      PutLast(d[1..], k, x, v);
      assert Put(e, k, v) == [d[0]] + (d[1..] + [(k, v)]);
      ConsSnoc(d, (k, v));
    }
  }

  /** Assigning a new key appends it and leaves the other keys as they were. */
  lemma AppendAbsent(d: Entries, k: string, v: Value)
    requires DistinctKeys(d) && !HasKey(d, k)
    ensures DistinctKeys(d + [(k, v)])
    ensures Get(d + [(k, v)], k) == Some(v)
    ensures forall x :: x != k ==> Get(d + [(k, v)], x) == Get(d, x)
    ensures forall x :: HasKey(d + [(k, v)], x) <==> HasKey(d, x) || x == k
  {
    PutAbsent(d, k, v);
    PutDistinct(d, k, v);
    KeysAppend(d, [(k, v)]);
  }

  lemma HasKeySnoc(d: Entries, k: string, v: Value, x: string)
    ensures HasKey(d + [(k, v)], x) <==> HasKey(d, x) || x == k
  {
    KeysAppend(d, [(k, v)]);
  }

  lemma DistinctAppend(d: Entries, e: Entries)
    requires DistinctKeys(d) && DistinctKeys(e)
    requires forall j :: 0 <= j < |e| ==> !HasKey(d, e[j].0)
    ensures DistinctKeys(d + e)
  {
    forall i, j | 0 <= i < j < |d + e| ensures (d + e)[i].0 != (d + e)[j].0 {
      if i < |d| <= j {
        assert Keys(d)[i] == d[i].0;
        assert (d + e)[j] == e[j - |d|];
      }
    }
  }

  /** Python `del d[k]` (keeps the order of the other keys). */
  function Remove(d: Entries, k: string): (r: Entries)
    ensures forall k' :: k' != k ==> Get(r, k') == Get(d, k')
    ensures DistinctKeys(d) ==> !HasKey(r, k)
  {
    if |d| == 0 then []
    else if d[0].0 == k then
      DistinctKeysIff(d);
      d[1..]
    else
      var r := [d[0]] + Remove(d[1..], k);
      assert r[1..] == Remove(d[1..], k);
      DistinctKeysIff(d);
      r
  }

  /** Python `d.update(other)`: each pair of `other`, in order, is assigned into `d`. */
  function Update(d: Entries, other: Entries): (r: Entries)
    decreases |other|
  {
    if |other| == 0 then d
    else Update(Put(d, other[0].0, other[0].1), other[1..])
  }

  lemma {:induction false} UpdateGet(d: Entries, other: Entries, k: string)
    requires DistinctKeys(other)
    ensures Get(Update(d, other), k) == (if HasKey(other, k) then Get(other, k) else Get(d, k))
    decreases |other|
  {
    if |other| > 0 {
      DistinctKeysIff(other);
      UpdateGet(Put(d, other[0].0, other[0].1), other[1..], k);
    }
  }

  /** Python `v[k]` with a str key. */
  function Subscript(v: Value, k: string): (r: Result<Value>)
    ensures r.Ok? <==> v.Dict? && HasKey(v.entries, k)
    ensures r.Ok? ==> Get(v.entries, k) == Some(r.value)
    ensures r.Err? ==> r.error.kind == (if v.Dict? then KeyError else TypeError)
  {
    if !v.Dict? then Raise(TypeError, "object is not subscriptable")
    else match Get(v.entries, k)
      case None => Raise(KeyError, k)
      case Some(x) => Ok(x)
  }

  /** Python `bool(v)`. Functions, classes and other objects are truthy. */
  predicate Truthy(v: Value)
  {
    match v
    case PyNone => false
    case Bool(b) => b
    case Int(i) => i != 0
    case Str(s) => |s| > 0
    case List(items) => |items| > 0
    case Tuple(items) => |items| > 0
    case Dict(entries) => |entries| > 0
    case _ => true
  }

  /** Python `callable(v)`. */
  predicate Callable(v: Value)
  {
    v.Func? || v.Class?
  }

  /** Python `str(v)` for `str`, `int` and `bool`. */
  function ScalarText(v: Value): string
    requires v.Str? || v.Int? || v.Bool?
  {
    match v
    case Str(s) => s
    case Int(i) => Text.IntToString(i)
    case Bool(b) => if b then "True" else "False"
  }

  /** Values built only from dicts, lists, tuples, str, int, bool and None. */
  predicate IsNative(v: Value)
  {
    match v
    case PyNone => true
    case Bool(_) => true
    case Int(_) => true
    case Str(_) => true
    case List(items) => forall i :: 0 <= i < |items| ==> IsNative(items[i])
    case Tuple(items) => forall i :: 0 <= i < |items| ==> IsNative(items[i])
    case Dict(entries) => forall i :: 0 <= i < |entries| ==> IsNative(entries[i].1)
    case _ => false
  }

  /** Number of direct children: items of a list or tuple, entries of a dict. */
  function Width(v: Value): nat
  {
    match v
    case List(items) => |items|
    case Tuple(items) => |items|
    case Dict(entries) => |entries|
    case _ => 0
  }

  /** Python `hash(v)` succeeds: lists and dicts are unhashable, tuples when an item is. */
  predicate Hashable(v: Value)
  {
    match v
    case List(_) => false
    case Dict(_) => false
    case Tuple(items) => forall i :: 0 <= i < |items| ==> Hashable(items[i])
    case _ => true
  }
}
