/**
 * Nested/flat dict conversion and docstring re-indentation
 * (theflow/utils/pretties.py).
 */
module Pretties {
  import opened Wrappers
  import opened Text
  import opened PyValues
  import Paths

  // ---------------------------------------------------------------------
  // flatten_dict

  /** `flatten_dict(d)`: nested keys joined with ".", built by assignment into a fresh dict. */
  function Flatten(d: Entries): Entries
  {
    FlattenFrom([], Dict(d), 0)
  }

  /** The loop of `flatten_dict` over the entries `i..` of the dict `v`, assigning into `acc`. */
  function FlattenFrom(acc: Entries, v: Value, i: nat): Entries
    requires v.Dict? && i <= |v.entries|
    decreases v, |v.entries| - i
  {
    if i == |v.entries| then acc
    else
      var k := v.entries[i].0;
      var x := v.entries[i].1;
      var acc' := if x.Dict? then PutPrefixed(acc, k, FlattenFrom([], x, 0)) else Put(acc, k, x);
      FlattenFrom(acc', v, i + 1)
  }

  /** `outdict[f"{key}.{subkey}"] = subvalue` for each pair of `sub`, in order. */
  function PutPrefixed(acc: Entries, k: string, sub: Entries): Entries
    decreases |sub|
  {
    if |sub| == 0 then acc
    else PutPrefixed(Put(acc, k + "." + sub[0].0, sub[0].1), k, sub[1..])
  }

  // ---------------------------------------------------------------------
  // unflatten_dict

  /** The path a flat key stands for: outer dots stripped, then split on ".". */
  function KeyPath(key: string): (r: seq<string>)
    ensures |r| >= 1
  {
    Split(Strip(key, {'.'}), '.')
  }

  /**
   * Assigning `v` at `path` below `out`: missing intermediate keys get a
   * fresh `{}` (appended), existing dicts are descended into, and any other
   * value in the way raises TypeError (it cannot be indexed by a string).
   */
  function SetPath(out: Entries, path: seq<string>, v: Value): Result<Entries>
    requires |path| >= 1
    decreases |path|
  {
    if |path| == 1 then Ok(Put(out, path[0], v))
    else
      var sub := GetOr(out, path[0], EmptyDict);
      if !sub.Dict? then Raise(TypeError, "object does not support item assignment")
      else match SetPath(sub.entries, path[1..], v)
        case Err(e) => Err(e)
        case Ok(inner) => Ok(Put(out, path[0], Dict(inner)))
  }

  /** The loop of `unflatten_dict` over the pairs of `d`, starting from `out`. */
  function UnflattenInto(out: Entries, d: Entries): Result<Entries>
    decreases |d|
  {
    if |d| == 0 then Ok(out)
    else match SetPath(out, KeyPath(d[0].0), d[0].1)
      case Err(e) => Err(e)
      case Ok(o) => UnflattenInto(o, d[1..])
  }

  /** `unflatten_dict(d)`. */
  function Unflatten(d: Entries): Result<Entries>
  {
    UnflattenInto([], d)
  }

  /** `unflatten_dict`, walking the flat pairs in a loop. */
  method UnflattenDict(indict: Entries) returns (r: Result<Entries>)
    ensures r == Unflatten(indict)
  {
    var outdict: Entries := [];
    var i := 0;
    while i < |indict|
      invariant 0 <= i <= |indict|
      invariant UnflattenInto(outdict, indict[i..]) == Unflatten(indict)
    {
      var step := SetPath(outdict, KeyPath(indict[i].0), indict[i].1);
      assert indict[i..][0] == indict[i];
      if step.Err? {
        return Err(step.error);
      }
      assert indict[i..][1..] == indict[i + 1..];
      outdict := step.value;
      i := i + 1;
    }
    return Ok(outdict);
  }

  // ---------------------------------------------------------------------
  // Properties

  /** An empty nested dict contributes no entries. */
  lemma EmptyNestedVanishes(k: string)
    ensures Flatten([(k, EmptyDict)]) == []
  {
    var v := Dict([(k, EmptyDict)]);
    assert FlattenFrom([], EmptyDict, 0) == [];
    assert PutPrefixed([], k, []) == [];
    assert FlattenFrom([], v, 1) == [];
  }

  /** Assigning twice at the same path keeps the later value. */
  lemma {:induction false} LaterKeyWins(out: Entries, path: seq<string>, v1: Value, v2: Value)
    requires |path| >= 1 && SetPath(out, path, v1).Ok?
    ensures SetPath(SetPath(out, path, v1).value, path, v2) == SetPath(out, path, v2)
    decreases |path|
  {
    if |path| > 1 {
      var sub := GetOr(out, path[0], EmptyDict);
      var inner := SetPath(sub.entries, path[1..], v1).value;
      LaterKeyWins(sub.entries, path[1..], v1, v2);
      var second := SetPath(inner, path[1..], v2);
      if second.Ok? {
        PutPut(out, path[0], Dict(inner), Dict(second.value));
      }
    } else {
      PutPut(out, path[0], v1, v2);
    }
  }

  lemma {:induction false} PutPut(d: Entries, k: string, v1: Value, v2: Value)
    ensures Put(Put(d, k, v1), k, v2) == Put(d, k, v2)
  {
    if |d| > 0 && d[0].0 != k {
      PutPut(d[1..], k, v1, v2);
    }
  }

  /** Leading and trailing dots of a flat key are ignored. */
  lemma OuterDotsIgnored(key: string)
    ensures KeyPath("." + key) == KeyPath(key)
    ensures KeyPath(key + ".") == KeyPath(key)
  {
    LStripDrop('.', key, {'.'});
    StripTrailingDot(key);
  }

  lemma StripTrailingDot(key: string)
    ensures Strip(key + ".", {'.'}) == Strip(key, {'.'})
  {
    LStripAppend(key, ".", {'.'});
    if LStrip(key, {'.'}) != [] {
      RStripDrop(LStrip(key, {'.'}), '.', {'.'});
    } else {
      assert LStrip(".", {'.'}) == LStrip("", {'.'});
    }
  }

  // ---------------------------------------------------------------------
  // Round trip: unflatten_dict(flatten_dict(d)) == d

  /**
   * A nested value that survives the round trip: a non-dict, or a non-empty
   * dict whose keys are dot-free, non-empty and distinct and whose values
   * survive in turn.
   */
  predicate Nested(v: Value)
  {
    match v
    case Dict(e) => |e| > 0 && DistinctKeys(e) && forall i :: 0 <= i < |e| ==> Paths.Segment(e[i].0) && Nested(e[i].1)
    case _ => true
  }

  /** The top-level dicts that survive the round trip (they may be empty). */
  predicate CleanDict(e: Entries)
  {
    DistinctKeys(e) && forall i :: 0 <= i < |e| ==> Paths.Segment(e[i].0) && Nested(e[i].1)
  }

  /** A key that neither is empty nor starts or ends with a dot. */
  predicate CleanKey(s: string)
  {
    |s| > 0 && s[0] != '.' && s[|s| - 1] != '.'
  }

  /** The first dot-separated segment of a key. */
  function Head(key: string): string
  {
    Split(key, '.')[0]
  }

  /** `sub` with every key prefixed by `k.` */
  function Prefixed(k: string, sub: Entries): (r: Entries)
    ensures |r| == |sub|
  {
    if |sub| == 0 then [] else [(k + "." + sub[0].0, sub[0].1)] + Prefixed(k, sub[1..])
  }

  /** Entry `j` of `Prefixed(k, sub)` is entry `j` of `sub` under the key `k.` + its key. */
  lemma {:induction false} PrefixedAt(k: string, sub: Entries)
    ensures forall j :: 0 <= j < |sub| ==> Prefixed(k, sub)[j] == (k + "." + sub[j].0, sub[j].1)
    decreases |sub|
  {
    if |sub| > 0 {
      PrefixedAt(k, sub[1..]);
      PrefixedCons(k, sub);
    }
  }

  lemma PrefixedCons(k: string, sub: Entries)
    requires |sub| > 0
    ensures Prefixed(k, sub)[0] == (k + "." + sub[0].0, sub[0].1)
    ensures Prefixed(k, sub)[1..] == Prefixed(k, sub[1..])
  {
    TailConcat([(k + "." + sub[0].0, sub[0].1)], Prefixed(k, sub[1..]));
  }

  /** Reference flattening: the leaves of entries `i..` of `v`, depth first, keyed by their dotted paths. */
  function FlatFrom(v: Value, i: nat): Entries
    requires v.Dict? && i <= |v.entries|
    decreases v, |v.entries| - i
  {
    if i == |v.entries| then []
    else
      Piece(v.entries[i].0, v.entries[i].1) + FlatFrom(v, i + 1)
  }

  /** The flat pairs one entry `k: x` contributes. */
  function Piece(k: string, x: Value): Entries
    decreases x, if x.Dict? then |x.entries| + 1 else 0
  {
    if x.Dict? then Prefixed(k, FlatFrom(x, 0)) else [(k, x)]
  }

  function KeysFrom(e: Entries, i: nat): set<string>
  {
    set m | i <= m < |e| :: e[m].0
  }

  lemma HeadOfSegment(k: string)
    requires Paths.Segment(k)
    ensures Head(k) == k
  {
    SplitAtom(k, '.');
  }

  lemma HeadOfDotted(k: string, s: string)
    requires Paths.Segment(k)
    ensures Head(k + "." + s) == k
  {
    SplitCons(k, '.', s);
  }

  lemma KeyPathSegment(k: string)
    requires Paths.Segment(k)
    ensures KeyPath(k) == [k]
  {
    assert k[0] in k && k[|k| - 1] in k;
    StripClean(k, {'.'});
    SplitAtom(k, '.');
  }

  lemma KeyPathDotted(k: string, s: string)
    requires Paths.Segment(k) && CleanKey(s)
    ensures CleanKey(k + "." + s)
    ensures KeyPath(k + "." + s) == [k] + KeyPath(s)
  {
    var t := k + "." + s;
    assert t[0] == k[0] && t[|t| - 1] == s[|s| - 1];
    StripClean(t, {'.'});
    StripClean(s, {'.'});
    SplitCons(k, '.', s);
  }

  lemma PrefixInjective(k: string, a: string, b: string)
    ensures k + "." + a == k + "." + b ==> a == b
  {
    if k + "." + a == k + "." + b {
      assert (k + "." + a)[|k| + 1..] == a;
      assert (k + "." + b)[|k| + 1..] == b;
    }
  }

  lemma PrefixedDistinct(k: string, sub: Entries)
    requires DistinctKeys(sub)
    ensures DistinctKeys(Prefixed(k, sub))
  {
    var r := Prefixed(k, sub);
    PrefixedAt(k, sub);
    forall i, j | 0 <= i < j < |r| ensures r[i].0 != r[j].0 {
      assert r[i].0[|k| + 1..] == sub[i].0;
      assert r[j].0[|k| + 1..] == sub[j].0;
    }
  }

  /** Shape of one entry's pairs: distinct clean keys, all headed by `k`, at least one when `x` survives the round trip. */
  lemma {:induction false} PieceShape(k: string, x: Value)
    requires Paths.Segment(k) && Nested(x)
    ensures DistinctKeys(Piece(k, x)) && |Piece(k, x)| > 0
    ensures forall j :: 0 <= j < |Piece(k, x)| ==> CleanKey(Piece(k, x)[j].0) && Head(Piece(k, x)[j].0) == k
    decreases x, if x.Dict? then |x.entries| + 1 else 0
  {
    if x.Dict? {
      var sub := FlatFrom(x, 0);
      FlatShape(x, 0);
      PrefixedDistinct(k, sub);
      PrefixedAt(k, sub);
      forall j | 0 <= j < |sub|
        ensures CleanKey(Piece(k, x)[j].0) && Head(Piece(k, x)[j].0) == k
      {
        KeyPathDotted(k, sub[j].0);
        HeadOfDotted(k, sub[j].0);
      }
    } else {
      assert k[0] in k && k[|k| - 1] in k;
      HeadOfSegment(k);
    }
  }

  /** Shape of the reference flattening: distinct clean keys, each headed by a key of `v`, none missing. */
  lemma {:induction false} FlatShape(v: Value, i: nat)
    requires v.Dict? && i <= |v.entries| && CleanDict(v.entries)
    ensures DistinctKeys(FlatFrom(v, i))
    ensures forall j :: 0 <= j < |FlatFrom(v, i)| ==> CleanKey(FlatFrom(v, i)[j].0)
    ensures forall j :: 0 <= j < |FlatFrom(v, i)| ==> Head(FlatFrom(v, i)[j].0) in KeysFrom(v.entries, i)
    ensures i < |v.entries| ==> |FlatFrom(v, i)| > 0
    decreases v, |v.entries| - i
  {
    var e := v.entries;
    if i < |e| {
      var k := e[i].0;
      var piece := Piece(k, e[i].1);
      var rest := FlatFrom(v, i + 1);
      FlatShape(v, i + 1);
      PieceShape(k, e[i].1);
      assert k in KeysFrom(e, i);
      assert k !in KeysFrom(e, i + 1);
      assert KeysFrom(e, i + 1) <= KeysFrom(e, i);
      DistinctAppend(piece, rest);
      assert FlatFrom(v, i) == piece + rest;
    }
  }

  lemma {:induction false} PutPrefixedAppends(acc: Entries, k: string, sub: Entries)
    requires DistinctKeys(sub)
    requires forall j :: 0 <= j < |sub| ==> !HasKey(acc, k + "." + sub[j].0)
    ensures PutPrefixed(acc, k, sub) == acc + Prefixed(k, sub)
    decreases |sub|
  {
    if |sub| > 0 {
      var key := k + "." + sub[0].0;
      var acc' := acc + [(key, sub[0].1)];
      assert Put(acc, key, sub[0].1) == acc' by {
        PutAbsent(acc, key, sub[0].1);
      }
      assert PutPrefixed(acc', k, sub[1..]) == acc' + Prefixed(k, sub[1..]) by {
        StillFresh(acc, k, sub);
        PutPrefixedAppends(acc', k, sub[1..]);
      }
      assert Prefixed(k, sub) == [(key, sub[0].1)] + Prefixed(k, sub[1..]);
      SnocAssoc(acc, (key, sub[0].1), Prefixed(k, sub[1..]));
    }
  }

  lemma SnocAssoc<T>(a: seq<T>, x: T, b: seq<T>)
    ensures a + [x] + b == a + ([x] + b)
  {
  }

  lemma StillFresh(acc: Entries, k: string, sub: Entries)
    requires |sub| > 0 && DistinctKeys(sub)
    requires forall j :: 0 <= j < |sub| ==> !HasKey(acc, k + "." + sub[j].0)
    ensures forall j :: 0 <= j < |sub[1..]| ==> !HasKey(acc + [(k + "." + sub[0].0, sub[0].1)], k + "." + sub[1..][j].0)
  {
    var key := k + "." + sub[0].0;
    forall j | 0 <= j < |sub[1..]| ensures !HasKey(acc + [(key, sub[0].1)], k + "." + sub[1..][j].0) {
      HasKeySnoc(acc, key, sub[0].1, k + "." + sub[j + 1].0);
      PrefixInjective(k, sub[j + 1].0, sub[0].0);
    }
  }

  /** One entry of `flatten_dict`'s loop appends exactly that entry's flat pairs. */
  lemma {:induction false} PieceAppends(acc: Entries, k: string, x: Value)
    requires Paths.Segment(k) && Nested(x) && DistinctKeys(acc)
    requires forall j :: 0 <= j < |acc| ==> Head(acc[j].0) != k
    ensures (if x.Dict? then PutPrefixed(acc, k, FlattenFrom([], x, 0)) else Put(acc, k, x)) == acc + Piece(k, x)
    ensures DistinctKeys(acc + Piece(k, x))
    decreases x, if x.Dict? then |x.entries| + 1 else 0
  {
    PieceShape(k, x);
    if x.Dict? {
      var sub := FlatFrom(x, 0);
      assert FlattenFrom([], x, 0) == sub by {
        FlattenIsFlat([], x, 0);
        assert [] + sub == sub;
      }
      assert PutPrefixed(acc, k, sub) == acc + Prefixed(k, sub) by {
        FlatShape(x, 0);
        forall j | 0 <= j < |sub| ensures !HasKey(acc, k + "." + sub[j].0) {
          HeadOfDotted(k, sub[j].0);
        }
        PutPrefixedAppends(acc, k, sub);
      }
    } else {
      assert !HasKey(acc, k) by {
        HeadOfSegment(k);
      }
      PutAbsent(acc, k, x);
    }
    DistinctAppend(acc, Piece(k, x));
  }

  /** `flatten_dict` assigns only fresh keys, so it appends the reference flattening. */
  lemma {:induction false} FlattenIsFlat(acc: Entries, v: Value, i: nat)
    requires v.Dict? && i <= |v.entries| && CleanDict(v.entries) && DistinctKeys(acc)
    requires forall j :: 0 <= j < |acc| ==> Head(acc[j].0) !in KeysFrom(v.entries, i)
    ensures FlattenFrom(acc, v, i) == acc + FlatFrom(v, i)
    decreases v, |v.entries| - i, 1
  {
    if i < |v.entries| {
      var piece := Piece(v.entries[i].0, v.entries[i].1);
      var acc' := acc + piece;
      FlattenStep(acc, v, i);
      FlattenIsFlat(acc', v, i + 1);
      ConcatAssoc(acc, piece, FlatFrom(v, i + 1));
    }
  }

  /** One turn of `flatten_dict`'s loop, and the freshness it leaves for the next. */
  lemma FlattenStep(acc: Entries, v: Value, i: nat)
    requires v.Dict? && i < |v.entries| && CleanDict(v.entries) && DistinctKeys(acc)
    requires forall j :: 0 <= j < |acc| ==> Head(acc[j].0) !in KeysFrom(v.entries, i)
    ensures FlattenFrom(acc, v, i) == FlattenFrom(acc + Piece(v.entries[i].0, v.entries[i].1), v, i + 1)
    ensures DistinctKeys(acc + Piece(v.entries[i].0, v.entries[i].1))
    ensures forall j :: 0 <= j < |acc + Piece(v.entries[i].0, v.entries[i].1)| ==>
      Head((acc + Piece(v.entries[i].0, v.entries[i].1))[j].0) !in KeysFrom(v.entries, i + 1)
    ensures FlatFrom(v, i) == Piece(v.entries[i].0, v.entries[i].1) + FlatFrom(v, i + 1)
    decreases v, |v.entries| - i, 0
  {
    var e := v.entries;
    var k := e[i].0;
    var x := e[i].1;
    var piece := Piece(k, x);
    var acc' := acc + piece;
    assert k in KeysFrom(e, i);
    PieceAppends(acc, k, x);
    PieceShape(k, x);
    assert k !in KeysFrom(e, i + 1);
    assert KeysFrom(e, i + 1) <= KeysFrom(e, i);
    forall j | 0 <= j < |acc'| ensures Head(acc'[j].0) !in KeysFrom(e, i + 1) {
      if j >= |acc| {
        assert acc'[j] == piece[j - |acc|];
      }
    }
  }

  lemma ConcatAssoc<T>(a: seq<T>, b: seq<T>, c: seq<T>)
    ensures a + b + c == a + (b + c)
  {
  }

  lemma {:induction false} UnflattenConcat(out: Entries, a: Entries, b: Entries)
    requires UnflattenInto(out, a).Ok?
    ensures UnflattenInto(out, a + b) == UnflattenInto(UnflattenInto(out, a).value, b)
    decreases |a|
  {
    if |a| > 0 {
      var o := SetPath(out, KeyPath(a[0].0), a[0].1);
      assert UnflattenInto(out, a) == UnflattenInto(o.value, a[1..]);
      TailConcat(a, b);
      assert UnflattenInto(out, a + b) == UnflattenInto(o.value, a[1..] + b);
      UnflattenConcat(o.value, a[1..], b);
    } else {
      assert a + b == b;
    }
  }

  /** A dotted key `k.s` descends into the dict already stored under `k`. */
  lemma SetPathNested(acc: Entries, k: string, inner: Entries, s: string, x: Value)
    requires !HasKey(acc, k) && Paths.Segment(k) && CleanKey(s)
    requires SetPath(inner, KeyPath(s), x).Ok?
    ensures SetPath(acc + [(k, Dict(inner))], KeyPath(k + "." + s), x)
         == Ok(acc + [(k, Dict(SetPath(inner, KeyPath(s), x).value))])
  {
    KeyPathDotted(k, s);
    PutLast(acc, k, Dict(inner), Dict(SetPath(inner, KeyPath(s), x).value));
    assert KeyPath(k + "." + s)[1..] == KeyPath(s);
  }

  /** A dotted key `k.s` with `k` missing first creates `{}` under `k`. */
  lemma SetPathFresh(acc: Entries, k: string, s: string, x: Value)
    requires !HasKey(acc, k) && Paths.Segment(k) && CleanKey(s)
    requires SetPath([], KeyPath(s), x).Ok?
    ensures SetPath(acc, KeyPath(k + "." + s), x) == Ok(acc + [(k, Dict(SetPath([], KeyPath(s), x).value))])
  {
    KeyPathDotted(k, s);
    PutAbsent(acc, k, Dict(SetPath([], KeyPath(s), x).value));
    assert KeyPath(k + "." + s)[1..] == KeyPath(s);
  }

  lemma {:induction false} UnflattenLift(acc: Entries, k: string, inner: Entries, sub: Entries)
    requires !HasKey(acc, k) && Paths.Segment(k)
    requires forall j :: 0 <= j < |sub| ==> CleanKey(sub[j].0)
    requires UnflattenInto(inner, sub).Ok?
    ensures UnflattenInto(acc + [(k, Dict(inner))], Prefixed(k, sub))
         == Ok(acc + [(k, Dict(UnflattenInto(inner, sub).value))])
    decreases |sub|
  {
    if |sub| > 0 {
      SetPathNested(acc, k, inner, sub[0].0, sub[0].1);
      var inner' := SetPath(inner, KeyPath(sub[0].0), sub[0].1).value;
      PrefixedCons(k, sub);
      UnflattenLift(acc, k, inner', sub[1..]);
    }
  }

  lemma UnflattenCreate(acc: Entries, k: string, sub: Entries)
    requires !HasKey(acc, k) && Paths.Segment(k) && |sub| > 0
    requires forall j :: 0 <= j < |sub| ==> CleanKey(sub[j].0)
    requires UnflattenInto([], sub).Ok?
    ensures UnflattenInto(acc, Prefixed(k, sub)) == Ok(acc + [(k, Dict(UnflattenInto([], sub).value))])
  {
    SetPathFresh(acc, k, sub[0].0, sub[0].1);
    var inner := SetPath([], KeyPath(sub[0].0), sub[0].1).value;
    PrefixedCons(k, sub);
    UnflattenLift(acc, k, inner, sub[1..]);
  }

  /** Unflattening one entry's flat pairs restores that entry. */
  lemma {:induction false} UnflattenPiece(acc: Entries, k: string, x: Value)
    requires !HasKey(acc, k) && Paths.Segment(k) && Nested(x)
    ensures UnflattenInto(acc, Piece(k, x)) == Ok(acc + [(k, x)])
    decreases x, if x.Dict? then |x.entries| + 1 else 0
  {
    if x.Dict? {
      var sub := FlatFrom(x, 0);
      assert UnflattenInto([], sub) == Ok(x.entries) by {
        UnflattenFlat([], x, 0);
        WholeSlice(x.entries);
      }
      assert |sub| > 0 && forall j :: 0 <= j < |sub| ==> CleanKey(sub[j].0) by {
        FlatShape(x, 0);
      }
      UnflattenCreate(acc, k, sub);
    } else {
      UnflattenLeaf(acc, k, x);
    }
  }

  /** A leaf entry's single flat pair restores it. */
  lemma UnflattenLeaf(acc: Entries, k: string, x: Value)
    requires !HasKey(acc, k) && Paths.Segment(k) && !x.Dict?
    ensures UnflattenInto(acc, [(k, x)]) == Ok(acc + [(k, x)])
  {
    KeyPathSegment(k);
    PutAbsent(acc, k, x);
    var o := SetPath(acc, KeyPath(k), x);
    assert o == Ok(acc + [(k, x)]);
    assert UnflattenInto(acc, [(k, x)]) == UnflattenInto(o.value, []);
  }

  lemma {:induction false} UnflattenFlat(acc: Entries, v: Value, i: nat)
    requires v.Dict? && i <= |v.entries| && CleanDict(v.entries)
    requires forall m :: i <= m < |v.entries| ==> !HasKey(acc, v.entries[m].0)
    ensures UnflattenInto(acc, FlatFrom(v, i)) == Ok(acc + v.entries[i..])
    decreases v, |v.entries| - i
  {
    var e := v.entries;
    if i < |e| {
      var k := e[i].0;
      var x := e[i].1;
      var piece := Piece(k, x);
      var rest := FlatFrom(v, i + 1);
      var acc' := acc + [(k, x)];
      assert UnflattenInto(acc, piece) == Ok(acc') by {
        UnflattenPiece(acc, k, x);
      }
      assert UnflattenInto(acc, FlatFrom(v, i)) == UnflattenInto(acc', rest) by {
        assert FlatFrom(v, i) == piece + rest;
        UnflattenConcat(acc, piece, rest);
      }
      assert UnflattenInto(acc', rest) == Ok(acc' + e[i + 1..]) by {
        forall m | i + 1 <= m < |e| ensures !HasKey(acc', e[m].0) {
          HasKeySnoc(acc, k, x, e[m].0);
        }
        UnflattenFlat(acc', v, i + 1);
      }
      SliceCons(e, i);
      SnocAssoc(acc, (k, x), e[i + 1..]);
    } else {
      SliceEnd(acc, e, i);
    }
  }

  /**
   * `unflatten_dict(flatten_dict(d)) == d` for dicts whose keys are
   * non-empty, dot-free and distinct at every level and whose nested dicts
   * are non-empty.
   */
  lemma RoundTrip(d: Entries)
    requires CleanDict(d)
    ensures Unflatten(Flatten(d)) == Ok(d)
  {
    var flat := FlatFrom(Dict(d), 0);
    assert Flatten(d) == flat by {
      FlattenIsFlat([], Dict(d), 0);
      assert [] + flat == flat;
    }
    assert Unflatten(flat) == Ok(d) by {
      UnflattenFlat([], Dict(d), 0);
      WholeSlice(d);
    }
  }

  /** A leaf followed by a dotted key below it cannot be unflattened, as with `{"a": 1, "a.b": 2}`. */
  lemma LeafThenNestedFails(k: string, x: Value, s: string, y: Value)
    requires Paths.Segment(k) && !x.Dict? && CleanKey(s)
    ensures Unflatten([(k, x), (k + "." + s, y)]).Err?
    ensures Unflatten([(k, x), (k + "." + s, y)]).error.kind == TypeError
  {
    var d := [(k, x), (k + "." + s, y)];
    assert SetPath([], KeyPath(k), x) == Ok([(k, x)]) by {
      KeyPathSegment(k);
    }
    assert d[1..] == [(k + "." + s, y)];
    var second := SetPath([(k, x)], KeyPath(k + "." + s), y);
    assert second.Err? && second.error.kind == TypeError by {
      KeyPathDotted(k, s);
      assert KeyPath(k + "." + s)[0] == k;
      assert GetOr([(k, x)], k, EmptyDict) == x;
    }
    assert Unflatten(d) == UnflattenInto([(k, x)], d[1..]);
    assert UnflattenInto([(k, x)], d[1..]) == Err(second.error);
  }

  /** The shape of the docstring examples: `{"a": {"b": x}, "c": y}` and `{"a.b": x, "c": y}`. */
  lemma DocExamples(a: string, b: string, c: string, x: Value, y: Value)
    requires Paths.Segment(a) && Paths.Segment(b) && Paths.Segment(c) && a != c
    requires !x.Dict? && !y.Dict?
    ensures Flatten([(a, Dict([(b, x)])), (c, y)]) == [(a + "." + b, x), (c, y)]
    ensures Unflatten([(a + "." + b, x), (c, y)]) == Ok([(a, Dict([(b, x)])), (c, y)])
  {
    var d := [(a, Dict([(b, x)])), (c, y)];
    assert CleanDict(d) by {
      assert Nested(Dict([(b, x)]));
    }
    var flat := FlatFrom(Dict(d), 0);
    assert FlatFrom(Dict([(b, x)]), 0) == [(b, x)] by {
      assert FlatFrom(Dict([(b, x)]), 1) == [];
      assert Piece(b, x) == [(b, x)];
    }
    assert Piece(a, Dict([(b, x)])) == [(a + "." + b, x)] by {
      assert Prefixed(a, [(b, x)]) == [(a + "." + b, x)];
    }
    assert FlatFrom(Dict(d), 1) == [(c, y)] by {
      assert FlatFrom(Dict(d), 2) == [];
      assert Piece(c, y) == [(c, y)];
    }
    assert flat == [(a + "." + b, x), (c, y)];
    assert Flatten(d) == flat by {
      FlattenIsFlat([], Dict(d), 0);
      assert [] + flat == flat;
    }
    RoundTrip(d);
  }

  // ---------------------------------------------------------------------
  // reindent_docstring

  const Blanks: set<char> := {' ', '\t'}

  /** The leading run of spaces and tabs of `s`. */
  function BlankRun(s: string): (r: string)
    ensures |r| <= |s| && r == s[..|r|]
    ensures forall i :: 0 <= i < |r| ==> r[i] in Blanks
    ensures |r| < |s| ==> s[|r|] !in Blanks
    decreases |s|
  {
    if |s| > 0 && s[0] in Blanks then [s[0]] + BlankRun(s[1..]) else ""
  }

  /**
   * The matches of `\n[ \t]+` in `s`, left to right, without their newline:
   * the blank run after every newline that is followed by a space or a tab.
   */
  function Indents(s: string): (r: seq<string>)
    ensures forall i :: 0 <= i < |r| ==> |r[i]| > 0 && forall j :: 0 <= j < |r[i]| ==> r[i][j] in Blanks
    decreases |s|
  {
    if |s| == 0 then []
    else if s[0] == '\n' && |BlankRun(s[1..])| > 0 then [BlankRun(s[1..])] + Indents(s[1..])
    else Indents(s[1..])
  }

  /** Python `min` over strings. */
  function MinLex(xs: seq<string>): (m: string)
    requires |xs| > 0
    ensures m in xs
    ensures forall x :: x in xs ==> !LexLess(x, m)
  {
    if |xs| == 1 then
      LexIrreflexive(xs[0]);
      xs[0]
    else
      var t := MinLex(xs[1..]);
      if LexLess(t, xs[0]) then
        forall x | x in xs ensures !LexLess(x, t) {
          if x == xs[0] {
            LexAsymmetric(t, x);
          } else {
            assert x in xs[1..];
          }
        }
        t
      else
        forall x | x in xs ensures !LexLess(x, xs[0]) {
          if x != xs[0] {
            assert x in xs[1..];
            if LexLess(x, xs[0]) {
              LexTotal(t, xs[0]);
              if LexLess(xs[0], t) {
                LexTransitive(x, xs[0], t);
              }
            }
          } else {
            LexIrreflexive(x);
          }
        }
        xs[0]
  }

  /** One line with the common indentation removed, if it starts with it. */
  function Dedent(line: string, indent: string): (r: string)
    ensures StartsWith(line, indent) ==> line == indent + r
    ensures !StartsWith(line, indent) ==> r == line
  {
    if StartsWith(line, indent) then line[|indent|..] else line
  }

  /** The specification of `reindent_docstring`. */
  function Reindented(doc: string): string
  {
    if |doc| == 0 then ""
    else if |Indents(doc)| == 0 then doc
    else
      var indent := MinLex(Indents(doc));
      var lines := SplitLines(doc);
      StripSpace(Join(seq(|lines|, i requires 0 <= i < |lines| => Dedent(lines[i], indent)), '\n'))
  }

  /**
   * `reindent_docstring(docin)`: an absent docstring is passed as `""`.
   * The lines are rebuilt one by one, as the source's loop does.
   */
  method ReindentDocstring(docin: string) returns (r: string)
    ensures r == Reindented(docin)
  {
    if |docin| == 0 {
      return "";
    }
    var whitespaces := Indents(docin);
    if |whitespaces| == 0 {
      return docin;
    }
    var minWhitespace := MinLex(whitespaces);
    var source := SplitLines(docin);
    var lines: seq<string> := [];
    var i := 0;
    while i < |source|
      invariant 0 <= i <= |source|
      invariant |lines| == i
      invariant forall j :: 0 <= j < i ==> lines[j] == Dedent(source[j], minWhitespace)
    {
      var line := source[i];
      if StartsWith(line, minWhitespace) {
        line := line[|minWhitespace|..];
      }
      lines := lines + [line];
      i := i + 1;
    }
    assert lines == seq(|source|, j requires 0 <= j < |source| => Dedent(source[j], minWhitespace));
    r := StripSpace(Join(lines, '\n'));
  }

  /** A docstring with no indented line comes back unchanged. */
  lemma UnindentedUnchanged(doc: string)
    requires |Indents(doc)| == 0
    ensures Reindented(doc) == doc
  {
  }

  /** Once any line is indented, the result carries no outer whitespace. */
  lemma ReindentedTrimmed(doc: string)
    requires |Indents(doc)| > 0
    ensures var r := Reindented(doc); r == [] || (r[0] !in Whitespace && r[|r| - 1] !in Whitespace)
  {
  }

  /** Between runs of spaces only, `<` is "shorter than". */
  lemma {:induction false} SpacesLex(a: string, b: string)
    requires forall i :: 0 <= i < |a| ==> a[i] == ' '
    requires forall i :: 0 <= i < |b| ==> b[i] == ' '
    ensures LexLess(a, b) <==> |a| < |b|
    decreases |a|
  {
    if |a| > 0 && |b| > 0 {
      SpacesLex(a[1..], b[1..]);
    }
  }

  /**
   * With space-only indentation the removed prefix is the common
   * indentation: the shortest run, which every indented line starts with.
   */
  lemma {:induction false} CommonIndent(doc: string)
    requires |Indents(doc)| > 0
    requires forall i :: 0 <= i < |Indents(doc)| ==> forall j :: 0 <= j < |Indents(doc)[i]| ==> Indents(doc)[i][j] == ' '
    ensures forall i :: 0 <= i < |Indents(doc)| ==>
      |MinLex(Indents(doc))| <= |Indents(doc)[i]| && StartsWith(Indents(doc)[i], MinLex(Indents(doc)))
  {
    var runs := Indents(doc);
    var m := MinLex(runs);
    forall i | 0 <= i < |runs|
      ensures |m| <= |runs[i]| && StartsWith(runs[i], m)
    {
      assert runs[i] in runs;
      SpacesLex(runs[i], m);
      assert forall j :: 0 <= j < |m| ==> runs[i][j] == ' ' == m[j];
    }
  }
}
