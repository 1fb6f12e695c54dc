/**
 * Dotted-path wildcard matching (theflow/utils/paths.py).
 *
 * A pattern is split on `*`; the literal pieces must appear in order, each
 * `*` standing for one or more characters other than `.`, and the whole
 * name must be consumed (the regular expression is anchored at both ends).
 */
module Paths {
  import opened Text

  predicate NoDot(s: string)
  {
    '.' !in s
  }

  /**
   * The anchored regular expression built from `parts`, matched against
   * `name`: `parts[0]` literally, then for every further part a run of one
   * or more non-dot characters followed by that part.
   */
  predicate MatchParts(name: string, parts: seq<string>)
    requires |parts| >= 1
    decreases |parts|, 1
  {
    StartsWith(name, parts[0]) &&
    var rest := name[|parts[0]|..];
    if |parts| == 1 then rest == []
    else exists k :: 1 <= k <= |rest| && StarThen(rest, k, parts[1..])
  }

  /** The `[^.]+` of one `*` takes `rest[..k]`, and `tail` matches what is left. */
  predicate StarThen(rest: string, k: int, tail: seq<string>)
    requires 1 <= k <= |rest| && |tail| >= 1
    decreases |tail| + 1, 0
  {
    NoDot(rest[..k]) && MatchParts(rest[k..], tail)
  }

  /** `is_name_matched(name, pattern)`. */
  predicate IsNameMatched(name: string, pattern: string)
  {
    MatchParts(name, Split(pattern, '*'))
  }

  /** `is_parent_of_child(parent, child)`: the parent against the child minus its last segment. */
  predicate IsParentOfChild(parent: string, child: string)
  {
    var p := Strip(parent, {'.'});
    var c := Strip(child, {'.'});
    var segs := Split(c, '.');
    IsNameMatched(p, Join(segs[..|segs| - 1], '.'))
  }

  // ---------------------------------------------------------------------
  // An independent description: the name is the pattern's literal pieces
  // with one non-empty, dot-free filler between consecutive pieces.

  /** `parts[0] + fill[0] + parts[1] + ... + parts[n]`. */
  function Interleave(parts: seq<string>, fill: seq<string>): string
    requires |parts| == |fill| + 1
    decreases |fill|
  {
    if |fill| == 0 then parts[0]
    else parts[0] + fill[0] + Interleave(parts[1..], fill[1..])
  }

  predicate GoodFill(fill: seq<string>)
  {
    forall i :: 0 <= i < |fill| ==> |fill[i]| > 0 && NoDot(fill[i])
  }

  lemma {:induction false} InterleaveMatches(parts: seq<string>, fill: seq<string>)
    requires |parts| == |fill| + 1 && GoodFill(fill)
    ensures MatchParts(Interleave(parts, fill), parts)
    decreases |fill|
  {
    var name := Interleave(parts, fill);
    if |fill| > 0 {
      InterleaveMatches(parts[1..], fill[1..]);
      var tail := Interleave(parts[1..], fill[1..]);
      assert name == parts[0] + (fill[0] + tail);
      var rest := name[|parts[0]|..];
      assert rest == fill[0] + tail;
      var k := |fill[0]|;
      assert rest[..k] == fill[0] && rest[k..] == tail;
      assert StarThen(rest, k, parts[1..]);
    }
  }

  lemma {:induction false} MatchesInterleave(name: string, parts: seq<string>) returns (fill: seq<string>)
    requires |parts| >= 1 && MatchParts(name, parts)
    ensures |parts| == |fill| + 1 && GoodFill(fill) && name == Interleave(parts, fill)
    decreases |parts|
  {
    var rest := name[|parts[0]|..];
    if |parts| == 1 {
      fill := [];
      assert name == name[..|parts[0]|] + rest;
    } else {
      var k :| 1 <= k <= |rest| && StarThen(rest, k, parts[1..]);
      var more := MatchesInterleave(rest[k..], parts[1..]);
      fill := [rest[..k]] + more;
      assert fill[0] == rest[..k] && fill[1..] == more;
      assert rest == rest[..k] + rest[k..];
      assert name == parts[0] + rest;
      calc {
        Interleave(parts, fill);
        parts[0] + fill[0] + Interleave(parts[1..], more);
        parts[0] + rest[..k] + rest[k..];
        { assert parts[0] + rest[..k] + rest[k..] == parts[0] + (rest[..k] + rest[k..]); }
        name;
      }
    }
  }

  /** The wildcard semantics, stated without the matcher. */
  lemma NameMatchedIff(name: string, pattern: string)
    ensures IsNameMatched(name, pattern) <==>
      exists fill :: |fill| + 1 == |Split(pattern, '*')| && GoodFill(fill)
                     && name == Interleave(Split(pattern, '*'), fill)
  {
    var parts := Split(pattern, '*');
    if IsNameMatched(name, pattern) {
      var fill := MatchesInterleave(name, parts);
    }
    if exists fill :: |fill| + 1 == |parts| && GoodFill(fill) && name == Interleave(parts, fill) {
      var fill :| |fill| + 1 == |parts| && GoodFill(fill) && name == Interleave(parts, fill);
      InterleaveMatches(parts, fill);
    }
  }

  /** Without `*`, matching is string equality. */
  lemma ExactMatch(name: string, pattern: string)
    requires '*' !in pattern
    ensures IsNameMatched(name, pattern) <==> name == pattern
  {
    SplitAtom(pattern, '*');
    if IsNameMatched(name, pattern) {
      assert name == name[..|pattern|] + name[|pattern|..];
    }
  }

  lemma {:induction false} InterleaveEnds(parts: seq<string>, fill: seq<string>)
    requires |parts| == |fill| + 1
    ensures EndsWith(Interleave(parts, fill), parts[|parts| - 1])
    decreases |fill|
  {
    if |fill| > 0 {
      InterleaveEnds(parts[1..], fill[1..]);
    }
  }

  lemma MatchByFill(name: string, pattern: string, parts: seq<string>, fill: seq<string>)
    requires |parts| == |fill| + 1 && NoSep(parts, '*') && GoodFill(fill)
    requires pattern == Join(parts, '*') && name == Interleave(parts, fill)
    ensures IsNameMatched(name, pattern)
  {
    SplitJoin(parts, '*');
    InterleaveMatches(parts, fill);
  }

  lemma NoMatchByEnding(name: string, pattern: string, parts: seq<string>)
    requires |parts| >= 1 && NoSep(parts, '*') && pattern == Join(parts, '*')
    requires !EndsWith(name, parts[|parts| - 1])
    ensures !IsNameMatched(name, pattern)
  {
    SplitJoin(parts, '*');
    if IsNameMatched(name, pattern) {
      var fill := MatchesInterleave(name, parts);
      InterleaveEnds(parts, fill);
    }
  }

  // Facts about the literal test strings, kept apart so that each is
  // evaluated on its own.
  lemma Join3(a: string, b: string, c: string, sep: char)
    ensures Join([a, b, c], sep) == a + [sep] + b + [sep] + c
  {
    calc {
      Join([a, b, c], sep);
      { assert [a, b, c][1..] == [b, c]; }
      a + [sep] + Join([b, c], sep);
      { assert [b, c][1..] == [c]; }
      a + [sep] + (b + [sep] + c);
    }
  }

  lemma Pattern1()
    ensures ".main." + ['*'] + ".pipeline_B2." + ['*'] + ".step_a" == ".main.*.pipeline_B2.*.step_a"
  {
  }

  lemma Pattern2()
    ensures ".main." + ['*'] + ".pipeline_B2.pipeline" + ['*'] + ".step_a" == ".main.*.pipeline_B2.pipeline*.step_a"
  {
  }

  lemma Pieces1()
    ensures ".main.*.pipeline_B2.*.step_a" == Join([".main.", ".pipeline_B2.", ".step_a"], '*')
    ensures NoSep([".main.", ".pipeline_B2.", ".step_a"], '*')
  {
    Join3(".main.", ".pipeline_B2.", ".step_a", '*');
    Pattern1();
  }

  lemma Pieces2()
    ensures ".main.*.pipeline_B2.pipeline*.step_a" == Join([".main.", ".pipeline_B2.pipeline", ".step_a"], '*')
    ensures NoSep([".main.", ".pipeline_B2.pipeline", ".step_a"], '*')
  {
    Join3(".main.", ".pipeline_B2.pipeline", ".step_a", '*');
    Pattern2();
  }

  lemma Interleave3(a: string, b: string, c: string, x: string, y: string)
    ensures Interleave([a, b, c], [x, y]) == a + x + b + y + c
  {
    calc {
      Interleave([a, b, c], [x, y]);
      { assert [a, b, c][1..] == [b, c] && [x, y][1..] == [y]; }
      a + x + Interleave([b, c], [y]);
      { assert [b, c][1..] == [c] && [y][1..] == []; }
      a + x + (b + y + c);
    }
  }

  lemma Name1()
    ensures ".main." + "pipeline_A1" + ".pipeline_B2." + "pipeline_C2" + ".step_a"
            == ".main.pipeline_A1.pipeline_B2.pipeline_C2.step_a"
  {
    Head1();
    Tail1();
    Whole1();
  }

  // The literal pieces of the two names, one fact each.

  lemma Head1()
    ensures ".main." + "pipeline_A1" + ".pipeline_B2." == ".main.pipeline_A1.pipeline_B2."
  {
  }

  lemma Tail1()
    ensures "pipeline_C2" + ".step_a" == "pipeline_C2.step_a"
  {
  }

  lemma Whole1()
    ensures ".main.pipeline_A1.pipeline_B2." + "pipeline_C2.step_a" == ".main.pipeline_A1.pipeline_B2.pipeline_C2.step_a"
  {
  }

  lemma Name2()
    ensures ".main." + "pipeline_A1" + ".pipeline_B2.pipeline" + "_C2" + ".step_a"
            == ".main.pipeline_A1.pipeline_B2.pipeline_C2.step_a"
  {
    Head2();
    Tail2();
    Whole2();
  }

  lemma Head2()
    ensures ".main." + "pipeline_A1" + ".pipeline_B2.pipeline" == ".main.pipeline_A1.pipeline_B2.pipeline"
  {
  }

  lemma Tail2()
    ensures "_C2" + ".step_a" == "_C2.step_a"
  {
  }

  lemma Whole2()
    ensures ".main.pipeline_A1.pipeline_B2.pipeline" + "_C2.step_a" == ".main.pipeline_A1.pipeline_B2.pipeline_C2.step_a"
  {
  }

  lemma Fill1()
    ensures ".main.pipeline_A1.pipeline_B2.pipeline_C2.step_a"
            == Interleave([".main.", ".pipeline_B2.", ".step_a"], ["pipeline_A1", "pipeline_C2"])
  {
    Interleave3(".main.", ".pipeline_B2.", ".step_a", "pipeline_A1", "pipeline_C2");
    Name1();
  }

  lemma Fill2()
    ensures ".main.pipeline_A1.pipeline_B2.pipeline_C2.step_a"
            == Interleave([".main.", ".pipeline_B2.pipeline", ".step_a"], ["pipeline_A1", "_C2"])
  {
    Interleave3(".main.", ".pipeline_B2.pipeline", ".step_a", "pipeline_A1", "_C2");
    Name2();
  }

  lemma GoodFills()
    ensures GoodFill(["pipeline_A1", "pipeline_C2"])
    ensures GoodFill(["pipeline_A1", "_C2"])
  {
  }

  lemma BadEnding()
    ensures !EndsWith(".main.pipeline_A1.pipeline_B2.pipeline_C2.step_a.some_step", ".step_a")
  {
  }

  /** A `*` alone takes a whole segment. */
  lemma WildcardSegmentExample()
    ensures IsNameMatched(".main.pipeline_A1.pipeline_B2.pipeline_C2.step_a",
                          ".main.*.pipeline_B2.*.step_a")
  {
    Pieces1();
    Fill1();
    GoodFills();
    MatchByFill(".main.pipeline_A1.pipeline_B2.pipeline_C2.step_a", ".main.*.pipeline_B2.*.step_a",
                [".main.", ".pipeline_B2.", ".step_a"], ["pipeline_A1", "pipeline_C2"]);
  }

  /** `pipeline*` completes the segment `pipeline_C2`. */
  lemma WildcardInSegmentExample()
    ensures IsNameMatched(".main.pipeline_A1.pipeline_B2.pipeline_C2.step_a",
                          ".main.*.pipeline_B2.pipeline*.step_a")
  {
    Pieces2();
    Fill2();
    GoodFills();
    MatchByFill(".main.pipeline_A1.pipeline_B2.pipeline_C2.step_a", ".main.*.pipeline_B2.pipeline*.step_a",
                [".main.", ".pipeline_B2.pipeline", ".step_a"], ["pipeline_A1", "_C2"]);
  }

  /** The whole name must be consumed: a trailing extra segment does not match. */
  lemma TrailingSegmentRejected()
    ensures !IsNameMatched(".main.pipeline_A1.pipeline_B2.pipeline_C2.step_a.some_step",
                           ".main.*.pipeline_B2.pipeline*.step_a")
  {
    Pieces2();
    BadEnding();
    NoMatchByEnding(".main.pipeline_A1.pipeline_B2.pipeline_C2.step_a.some_step",
                    ".main.*.pipeline_B2.pipeline*.step_a",
                    [".main.", ".pipeline_B2.pipeline", ".step_a"]);
  }

  // ---------------------------------------------------------------------
  // Parents and children of canonical dotted paths "." + a.b.c

  /** A path segment: non-empty and free of dots. */
  predicate Segment(s: string)
  {
    |s| > 0 && '.' !in s
  }

  predicate Segments(segs: seq<string>)
  {
    forall i :: 0 <= i < |segs| ==> Segment(segs[i])
  }

  /** Segments that hold no wildcard. */
  predicate Literal(segs: seq<string>)
  {
    forall i :: 0 <= i < |segs| ==> '*' !in segs[i]
  }

  lemma {:induction false} JoinSnoc(q: seq<string>, s: string)
    ensures Join(q + [s], '.') == if |q| == 0 then s else Join(q, '.') + "." + s
    decreases |q|
  {
    if |q| > 1 {
      assert (q + [s])[1..] == q[1..] + [s];
      JoinSnoc(q[1..], s);
    }
  }

  lemma {:induction false} JoinSegmentsShape(segs: seq<string>)
    requires |segs| >= 1 && Segments(segs)
    ensures var j := Join(segs, '.'); |j| > 0 && j[0] != '.' && j[|j| - 1] != '.'
    decreases |segs|
  {
    if |segs| > 1 {
      JoinSegmentsShape(segs[1..]);
      var j := Join(segs, '.');
      assert j == segs[0] + ("." + Join(segs[1..], '.'));
      assert j[0] == segs[0][0];
      assert j[|j| - 1] == Join(segs[1..], '.')[|Join(segs[1..], '.')| - 1];
    }
  }

  lemma {:induction false} JoinLiteral(segs: seq<string>)
    requires Literal(segs)
    ensures '*' !in Join(segs, '.')
    decreases |segs|
  {
    if |segs| > 1 {
      JoinLiteral(segs[1..]);
      assert Join(segs, '.') == segs[0] + "." + Join(segs[1..], '.');
    }
  }

  lemma Assoc4(a: string, b: string, c: string, d: string)
    ensures a + b + c + d == a + (b + c + d)
  {
  }

  lemma StripDottedPath(segs: seq<string>)
    requires |segs| >= 1 && Segments(segs)
    ensures Strip("." + Join(segs, '.'), {'.'}) == Join(segs, '.')
  {
    JoinSegmentsShape(segs);
    var j := Join(segs, '.');
    LStripDrop('.', j, {'.'});
    LStripClean(j, {'.'});
    RStripClean(j, {'.'});
  }

  /** Stripping and splitting a canonical dotted path gives back its segments. */
  lemma SplitDottedPath(segs: seq<string>)
    requires |segs| >= 1 && Segments(segs)
    ensures Split(Strip("." + Join(segs, '.'), {'.'}), '.') == segs
  {
    StripDottedPath(segs);
    assert NoSep(segs, '.');
    SplitJoin(segs, '.');
  }

  /** A path is the parent of each of its one-segment extensions (`*` allowed in the extension). */
  /** The pattern `is_parent_of_child` derives from a one-segment extension. */
  lemma ExtensionPattern(segs: seq<string>, last: string)
    requires |segs| >= 1 && Segments(segs) && Segment(last)
    ensures var cs := Split(Strip("." + Join(segs, '.') + "." + last, {'.'}), '.');
            Join(cs[..|cs| - 1], '.') == Join(segs, '.')
  {
    var childSegs := segs + [last];
    JoinSnoc(segs, last);
    var x := Join(segs, '.');
    Assoc4(".", x, ".", last);
    SplitDottedPath(childSegs);
    assert childSegs[..|childSegs| - 1] == segs;
  }

  lemma ParentOfExtension(segs: seq<string>, last: string)
    requires |segs| >= 1 && Segments(segs) && Literal(segs) && Segment(last)
    ensures IsParentOfChild("." + Join(segs, '.'), "." + Join(segs, '.') + "." + last)
  {
    ExtensionPattern(segs, last);
    StripDottedPath(segs);
    JoinLiteral(segs);
    ExactMatch(Join(segs, '.'), Join(segs, '.'));
  }

  /** A path is not the parent of its siblings. */
  lemma NotParentOfSibling(q: seq<string>, s1: string, s2: string)
    requires Segments(q) && Literal(q) && Segment(s1) && Segment(s2)
    ensures !IsParentOfChild("." + Join(q + [s1], '.'), "." + Join(q + [s2], '.'))
  {
    var a := q + [s1];
    var b := q + [s2];
    assert Segments(a) && Segments(b);
    StripDottedPath(a);
    SplitDottedPath(b);
    assert b[..|b| - 1] == q;
    JoinSnoc(q, s1);
    JoinLiteral(q);
    ExactMatch(Join(a, '.'), Join(q, '.'));
  }

  lemma ExamplePaths()
    ensures "." + Join(["main", "pipeline_A1"], '.') == ".main.pipeline_A1"
    ensures "." + Join(["main"] + ["pipeline_A1"], '.') == ".main.pipeline_A1"
    ensures "." + Join(["main"] + ["pipeline_A2"], '.') == ".main.pipeline_A2"
  {
    assert ["main"] + ["pipeline_A1"] == ["main", "pipeline_A1"];
    assert ["main"] + ["pipeline_A2"] == ["main", "pipeline_A2"];
  }

  lemma ExampleChild()
    ensures "." + Join(["main", "pipeline_A1"], '.') + "." + "pipeline_B1" == ".main.pipeline_A1.pipeline_B1"
  {
  }

  /** `is_parent_of_child(".main.pipeline_A1", ".main.pipeline_A1.pipeline_B1")`. */
  lemma ParentExample()
    ensures IsParentOfChild(".main.pipeline_A1", ".main.pipeline_A1.pipeline_B1")
  {
    ExamplePaths();
    ExampleChild();
    ParentOfExtension(["main", "pipeline_A1"], "pipeline_B1");
  }

  /** `is_parent_of_child(".main.pipeline_A1", ".main.pipeline_A2")` is false. */
  lemma SiblingExample()
    ensures !IsParentOfChild(".main.pipeline_A1", ".main.pipeline_A2")
  {
    ExamplePaths();
    NotParentOfSibling(["main"], "pipeline_A1", "pipeline_A2");
  }
}
