/**
 * How a Composable names the nodes it runs (theflow/base.py): the path a
 * node gets from `_prepare_child` and `abs_path`, the attribute names
 * `get_from_path` walks, and the order of the middleware chain.
 */
module Naming {
  import opened Text
  import Backends

  // ---------------------------------------------------------------------
  // Child names and absolute paths

  /**
   * `_prepare_child` names the `k`-th read of child `name` in one run
   * `name`, then `name[1]`, `name[2]`, ...
   */
  function Occurrence(name: string, k: nat): string
  {
    if k == 0 then name else name + "[" + IntToString(k) + "]"
  }

  /** The prefix `_prepare_child` gives a child: the parent's prefix and name joined by a dot. */
  function ChildPrefix(prefix: string, name: string): string
  {
    prefix + "." + name
  }

  /** The name of the node reached from a running root by first reads of `names`. */
  function NameAt(names: seq<string>): string
  {
    if |names| == 0 then "" else names[|names| - 1]
  }

  /**
   * Its prefix, as written: a running root has prefix `""` and each child
   * gets `ChildPrefix` of its parent's prefix and name (theflow/base.py 692).
   */
  function PrefixAsWritten(names: seq<string>): string
    decreases |names|
  {
    if |names| == 0 then ""
    else
      var init := names[..|names| - 1];
      ChildPrefix(PrefixAsWritten(init), NameAt(init))
  }

  /** `abs_path()` of that node, as written (theflow/base.py 508-522). */
  function AbsPathAsWritten(names: seq<string>): string
  {
    Backends.AbsPath(PrefixAsWritten(names), NameAt(names))
  }

  /**
   * `abs_path()` as its docstring describes it (`.a.a1.a2`): each child's
   * prefix is its parent's absolute path.
   */
  function AbsPathFixed(names: seq<string>): string
    decreases |names|
  {
    if |names| == 0 then "."
    else Backends.AbsPath(AbsPathFixed(names[..|names| - 1]), names[|names| - 1])
  }

  /** The root is `"."` and a direct child `".a"`, but a grandchild is `"..a.a1"`, not `".a.a1"`. */
  lemma ExtraLeadingDot(a: string, a1: string)
    ensures AbsPathAsWritten([]) == "."
    ensures AbsPathAsWritten([a]) == "." + a
    ensures AbsPathAsWritten([a, a1]) == ".." + a + "." + a1
    ensures AbsPathAsWritten([a, a1]) != "." + a + "." + a1
  {
    assert [a][..0] == [] && [a, a1][..1] == [a];
    assert "" + "." + "" == ".";
    assert PrefixAsWritten([a]) == ".";
    var p := PrefixAsWritten([a, a1]);
    assert p == "." + "." + a;
    assert p != "." by {
      assert |p| >= 2;
    }
    var w := ".." + a + "." + a1;
    var f := "." + a + "." + a1;
    assert |w| == |f| + 1;
  }

  /** With each prefix the parent's path, the path is the docstring's `.a.a1.a2`. */
  lemma {:induction false} FixedMatchesDocstring(names: seq<string>)
    requires |names| > 0
    requires forall i :: 0 <= i < |names| ==> names[i] != ""
    ensures AbsPathFixed(names) == "." + Join(names, '.')
  {
    FixedIsDescend(names);
    Backends.DescendFromRoot(names);
  }

  /** The fixed path is the backend's descent from the root path `"."`. */
  lemma {:induction false} FixedIsDescend(names: seq<string>)
    ensures AbsPathFixed(names) == Backends.Descend(".", names)
    decreases |names|
  {
    if |names| > 0 {
      var init := names[..|names| - 1];
      FixedIsDescend(init);
      DescendSnoc(".", init, names[|names| - 1]);
      assert init + [names[|names| - 1]] == names;
    }
  }

  lemma {:induction false} DescendSnoc(start: string, names: seq<string>, last: string)
    ensures Backends.Descend(start, names + [last]) == Backends.AbsPath(Backends.Descend(start, names), last)
    decreases |names|
  {
    if |names| == 0 {
      assert names + [last] == [last];
      assert [last][1..] == [];
    } else {
      assert (names + [last])[0] == names[0];
      assert (names + [last])[1..] == names[1..] + [last];
      DescendSnoc(Backends.AbsPath(start, names[0]), names[1..], last);
    }
  }

  /**
   * For a node at depth at least one, the written `prefix + "." + name` is
   * `"."` followed by the fixed path, which has at least two characters.
   */
  lemma {:induction false} PrefixIsDottedFixed(names: seq<string>)
    requires |names| >= 1
    requires forall i :: 0 <= i < |names| ==> names[i] != ""
    ensures ChildPrefix(PrefixAsWritten(names), NameAt(names)) == "." + AbsPathFixed(names)
    ensures |AbsPathFixed(names)| >= 2
    decreases |names|
  {
    var init := names[..|names| - 1];
    var x := names[|names| - 1];
    assert x != "";
    assert NameAt(names) == x;
    if |init| == 0 {
      assert "" + "." + "" == ".";
      assert PrefixAsWritten(names) == ".";
      assert AbsPathFixed(init) == ".";
      assert AbsPathFixed(names) == "." + x;
    } else {
      assert forall i :: 0 <= i < |init| ==> init[i] == names[i];
      PrefixIsDottedFixed(init);
      var fi := AbsPathFixed(init);
      var pi := PrefixAsWritten(init);
      assert PrefixAsWritten(names) == ChildPrefix(pi, NameAt(init));
      assert PrefixAsWritten(names) == "." + fi;
      assert fi != "." by {
        assert |fi| >= 2;
      }
      assert AbsPathFixed(names) == Backends.AbsPath(fi, x);
      assert AbsPathFixed(names) == fi + "." + x;
      assert ChildPrefix("." + fi, x) == "." + (fi + "." + x);
    }
  }

  /**
   * Below the first level the written path has exactly one extra leading
   * dot: the child prefix repeats the parent's prefix instead of using the
   * parent's path.
   */
  lemma {:induction false} AsWrittenIsFixedWithExtraDot(names: seq<string>)
    requires |names| >= 2
    requires forall i :: 0 <= i < |names| ==> names[i] != ""
    ensures AbsPathAsWritten(names) == "." + AbsPathFixed(names)
  {
    var init := names[..|names| - 1];
    var x := names[|names| - 1];
    PrefixIsDottedFixed(init);
    var fi := AbsPathFixed(init);
    var p := PrefixAsWritten(names);
    assert p == "." + fi;
    assert p != "." by {
      assert |p| >= 3;
    }
    assert fi != "." by {
      assert |fi| >= 2;
    }
    assert AbsPathFixed(names) == fi + "." + x;
  }

  // ---------------------------------------------------------------------
  // get_from_path

  /** Position of the first `c` in `s`. */
  function IndexOf(s: string, c: char): (i: nat)
    requires c in s
    ensures i < |s| && s[i] == c && c !in s[..i]
  {
    if s[0] == c then 0
    else
      var j := IndexOf(s[1..], c);
      assert s[..j + 1] == [s[0]] + s[1..][..j];
      j + 1
  }

  /**
   * The attribute names `get_from_path` reads, in order: strip the outer
   * dots, split once on the first dot, and go on with the rest.
   */
  function PathSteps(path: string): (r: seq<string>)
    ensures |r| >= 1
    decreases |path|, 1
  {
    StrippedSteps(Strip(path, {'.'}))
  }

  /** `PathSteps` of a path whose outer dots are already stripped. */
  function StrippedSteps(p: string): (r: seq<string>)
    ensures |r| >= 1
    decreases |p|, 0
  {
    if '.' in p then
      var i := IndexOf(p, '.');
      [p[..i]] + PathSteps(p[i + 1..])
    else [p]
  }

  predicate Segment(s: string)
  {
    s != "" && '.' !in s
  }

  lemma {:induction false} JoinEnds(segs: seq<string>)
    requires |segs| >= 1 && forall i :: 0 <= i < |segs| ==> Segment(segs[i])
    ensures var j := Join(segs, '.'); |j| > 0 && j[0] != '.' && j[|j| - 1] != '.'
    decreases |segs|
  {
    assert Segment(segs[0]);
    if |segs| >= 2 {
      JoinEnds(segs[1..]);
    }
  }

  lemma {:induction false} IndexOfFirst(a: string, rest: string)
    requires '.' !in a
    ensures '.' in a + "." + rest && IndexOf(a + "." + rest, '.') == |a|
    decreases |a|
  {
    var p := a + "." + rest;
    assert p[|a|] == '.';
    if |a| > 0 {
      assert p[1..] == a[1..] + "." + rest;
      IndexOfFirst(a[1..], rest);
    }
  }

  /** A path without outer dots is split at the end of its first dot-free segment. */
  lemma {:induction false} CleanSplit(a: string, rest: string)
    requires Segment(a)
    requires rest != "" && rest[|rest| - 1] != '.'
    ensures PathSteps(a + "." + rest) == [a] + PathSteps(rest)
  {
    var p := a + "." + rest;
    assert p[0] == a[0] && p[|p| - 1] == rest[|rest| - 1];
    StripClean(p, {'.'});
    IndexOfFirst(a, rest);
    assert p[..|a|] == a;
    assert p[|a| + 1..] == rest;
  }

  /** A path of non-empty dot-free segments is walked segment by segment. */
  lemma {:induction false} StepsOfSegments(segs: seq<string>)
    requires |segs| >= 1 && forall i :: 0 <= i < |segs| ==> Segment(segs[i])
    ensures PathSteps(Join(segs, '.')) == segs
    decreases |segs|
  {
    if |segs| == 1 {
      assert segs == [segs[0]];
      SingleSegment(segs[0]);
    } else {
      var s0, tail := segs[0], segs[1..];
      assert forall i :: 0 <= i < |tail| ==> Segment(tail[i]) by {
        forall i | 0 <= i < |tail| ensures Segment(tail[i]) {
          assert tail[i] == segs[i + 1];
        }
      }
      assert Segment(s0);
      assert segs == [s0] + tail;
      assert PathSteps(Join(tail, '.')) == tail by {
        StepsOfSegments(tail);
      }
      assert Join(tail, '.') != "" && Join(tail, '.')[|Join(tail, '.')| - 1] != '.' by {
        JoinEnds(tail);
      }
      SegmentThenRest(s0, tail);
    }
  }

  lemma {:induction false} SingleSegment(s: string)
    requires Segment(s)
    ensures PathSteps(Join([s], '.')) == [s]
  {
    assert Join([s], '.') == s;
    StripClean(s, {'.'});
  }

  lemma {:induction false} SegmentThenRest(s0: string, tail: seq<string>)
    requires Segment(s0) && |tail| >= 1
    requires Join(tail, '.') != "" && Join(tail, '.')[|Join(tail, '.')| - 1] != '.'
    requires PathSteps(Join(tail, '.')) == tail
    ensures PathSteps(Join([s0] + tail, '.')) == [s0] + tail
  {
    var segs := [s0] + tail;
    assert segs[0] == s0 && segs[1..] == tail;
    var rest := Join(tail, '.');
    assert Join(segs, '.') == s0 + "." + rest;
    CleanSplit(s0, rest);
  }

  /** Leading dots are stripped before walking: `".a.b"` is walked like `"a.b"`. */
  lemma {:induction false} LeadingDotIgnored(path: string)
    ensures PathSteps("." + path) == PathSteps(path)
  {
    LStripDrop('.', path, {'.'});
  }

  /**
   * An empty segment after a split is stripped with the dots around it:
   * `"a..b"` is walked like `"a.b"`.
   */
  lemma {:induction false} DoubledDotCollapses(a: string, rest: string)
    requires Segment(a)
    requires rest != "" && rest[|rest| - 1] != '.'
    ensures PathSteps(a + ".." + rest) == [a] + PathSteps(rest)
  {
    var dotted := "." + rest;
    assert a + ".." + rest == a + "." + dotted;
    assert dotted[|dotted| - 1] == rest[|rest| - 1];
    CleanSplit(a, dotted);
    LeadingDotIgnored(rest);
  }

  // ---------------------------------------------------------------------
  // The middleware chain

  /** A callable chain: the innermost call (`_run`), or a middleware wrapping the next call. */
  datatype Chain = Run | Wrap(middleware: string, next: Chain)

  /** The chain in which the first listed middleware is the outermost. */
  function Nested(names: seq<string>): Chain
    decreases |names|
  {
    if |names| == 0 then Run else Wrap(names[0], Nested(names[1..]))
  }

  /** The middleware a call passes through, from the outside in. */
  function EntryOrder(c: Chain): seq<string>
  {
    match c
    case Run => []
    case Wrap(m, next) => [m] + EntryOrder(next)
  }

  /**
   * Building the chain as `__init__` does, wrapping from the last listed
   * middleware outwards, nests them in list order: a call enters them in
   * the order they are listed.
   */
  method BuildChain(names: seq<string>) returns (c: Chain)
    ensures c == Nested(names)
    ensures EntryOrder(c) == names
  {
    c := Run;
    var i := |names|;
    while i > 0
      invariant 0 <= i <= |names|
      invariant c == Nested(names[i..])
    {
      i := i - 1;
      assert names[i..][1..] == names[i + 1..];
      c := Wrap(names[i], c);
    }
    assert names[0..] == names;
    EntryOrderNested(names);
  }

  lemma {:induction false} EntryOrderNested(names: seq<string>)
    ensures EntryOrder(Nested(names)) == names
    decreases |names|
  {
    if |names| > 0 {
      EntryOrderNested(names[1..]);
    }
  }
}
