/**
 * Pruning a serialised function definition to the nodes that run on the
 * local machine: below a node whose default backend is not the local
 * `Backend`, every child node is dropped.
 */
module HttpSync {
  import opened Wrappers
  import opened PyValues

  /** The `__type__` of the local backend. */
  const LocalBackend := "theflow.backends.Backend"

  /** `node["configs"]["default_backend"]["__type__"] == LocalBackend`. */
  function IsLocal(node: Value): (r: Result<bool>)
    ensures r.Ok? ==> Subscript(node, "configs").Ok?
    ensures r.Err? ==> r.error.kind == KeyError || r.error.kind == TypeError
  {
    match Subscript(node, "configs")
    case Err(e) => Err(e)
    case Ok(c) =>
      match Subscript(c, "default_backend")
      case Err(e) => Err(e)
      case Ok(b) =>
        match Subscript(b, "__type__")
        case Err(e) => Err(e)
        case Ok(t) => Ok(t == Str(LocalBackend))
  }

  /** The dict `{"function": f, "params": p, "nodes": n, "configs": c}`. */
  function Def(f: Value, p: Value, n: Value, c: Value): Value
  {
    Dict([("function", f), ("params", p), ("nodes", n), ("configs", c)])
  }

  /** `handle_child_nodes(node)`. */
  function Prune(node: Value): (r: Result<Value>)
    decreases node, 1
  {
    if !node.Dict? then Raise(TypeError, "object is not subscriptable")
    else match Find(node.entries, "nodes")
      case None => Raise(KeyError, "nodes")
      case Some(j) =>
        var ns := node.entries[j].1;
        if !Truthy(ns) then Ok(node)
        else match IsLocal(node)
          case Err(e) => Err(e)
          case Ok(false) =>
            (match Subscript(node, "function")
             case Err(e) => Err(e)
             case Ok(f) =>
               match Subscript(node, "params")
               case Err(e) => Err(e)
               case Ok(p) => Ok(Def(f, p, EmptyDict, Subscript(node, "configs").value)))
          case Ok(true) =>
            if !ns.Dict? then Raise(AttributeError, "object has no attribute 'items'")
            else match PruneChildren(ns.entries, 0, [], node)
              case Err(e) => Err(e)
              case Ok(children) =>
                match Subscript(node, "function")
                case Err(e) => Err(e)
                case Ok(f) =>
                  match Subscript(node, "params")
                  case Err(e) => Err(e)
                  case Ok(p) => Ok(Def(f, p, Dict(children), Subscript(node, "configs").value))
  }

  /** The loop filling `child_nodes`: each child pruned, in order, the first failure raised. */
  function PruneChildren(ce: Entries, i: nat, acc: Entries, ghost parent: Value): (r: Result<Entries>)
    requires i <= |ce|
    requires forall j :: 0 <= j < |ce| ==> ce[j].1 < parent
    decreases parent, 0, |ce| - i
  {
    if i == |ce| then Ok(acc)
    else match Prune(ce[i].1)
      case Err(e) => Err(e)
      case Ok(x) => PruneChildren(ce, i + 1, Put(acc, ce[i].0, x), parent)
  }

  /** `local_only_func_def(func_def)`. */
  function LocalOnly(funcDef: Value): Result<Value>
  {
    Prune(funcDef)
  }

  /** A node whose `nodes` is empty comes back unchanged. */
  lemma LeafUnchanged(node: Value)
    requires node.Dict? && Get(node.entries, "nodes").Some? && !Truthy(Get(node.entries, "nodes").value)
    ensures Prune(node) == Ok(node)
  {
  }

  /** A remote node with children keeps its function, params and configs and loses its children. */
  lemma RemoteDropsChildren(node: Value)
    requires node.Dict? && Get(node.entries, "nodes").Some? && Truthy(Get(node.entries, "nodes").value)
    requires IsLocal(node) == Ok(false)
    requires HasKey(node.entries, "function") && HasKey(node.entries, "params")
    ensures Prune(node) == Ok(Def(Get(node.entries, "function").value, Get(node.entries, "params").value,
                                  EmptyDict, Get(node.entries, "configs").value))
  {
  }

  /** A node's result is the node itself, or a dict with exactly the four definition keys. */
  lemma {:induction false} PruneShape(node: Value)
    requires Prune(node).Ok?
    ensures Prune(node).value == node ||
      (Prune(node).value.Dict? && Keys(Prune(node).value.entries) == ["function", "params", "nodes", "configs"])
  {
    if Prune(node).value != node {
      PruneInner(node);
      if IsLocal(node) == Ok(false) {
        PruneRemote(node);
      } else {
        PruneLocal(node);
      }
      var r := Prune(node).value;
      DefKeys(r.entries[0].1, r.entries[1].1, r.entries[2].1, r.entries[3].1);
    }
  }

  /** The keys of a rebuilt definition, in order. */
  lemma DefKeys(f: Value, p: Value, n: Value, c: Value)
    ensures Keys(Def(f, p, n, c).entries) == ["function", "params", "nodes", "configs"]
  {
  }

  /** Assigning into a dict only adds the new pair or keeps an old one. */
  lemma {:induction false} PutFrom(acc: Entries, k: string, x: Value)
    ensures forall j :: 0 <= j < |Put(acc, k, x)| ==> Put(acc, k, x)[j] == (k, x) || Put(acc, k, x)[j] in acc
    ensures |Put(acc, k, x)| > 0
  {
    if |acc| > 0 && acc[0].0 != k {
      PutFrom(acc[1..], k, x);
      var r := Put(acc, k, x);
      assert r == [acc[0]] + Put(acc[1..], k, x);
      forall j | 0 <= j < |r| ensures r[j] == (k, x) || r[j] in acc {
        if j > 0 {
          assert r[j] == Put(acc[1..], k, x)[j - 1];
          if r[j] in acc[1..] {
            var m :| 0 <= m < |acc[1..]| && acc[1..][m] == r[j];
            assert acc[m + 1] == r[j];
          }
        }
      }
    }
  }

  /** Every value of `d` is already pruned. */
  ghost predicate AllFixed(d: Entries)
  {
    forall j :: 0 <= j < |d| ==> Prune(d[j].1) == Ok(d[j].1)
  }

  /** Re-pruning a list of already pruned children with distinct names rebuilds it. */
  lemma {:induction false} RefoldFixed(out: Entries, i: nat, parent: Value)
    requires i <= |out| && DistinctKeys(out) && AllFixed(out)
    requires forall j :: 0 <= j < |out| ==> out[j].1 < parent
    ensures PruneChildren(out, i, out[..i], parent) == Ok(out)
    decreases |out| - i
  {
    if i == |out| {
      assert out[..i] == out;
    } else {
      RefoldStep(out, i, parent);
      RefoldFixed(out, i + 1, parent);
    }
  }

  /** One step of the refold: the next child is new, so it is appended. */
  lemma RefoldStep(out: Entries, i: nat, parent: Value)
    requires i < |out| && DistinctKeys(out) && AllFixed(out)
    requires forall j :: 0 <= j < |out| ==> out[j].1 < parent
    ensures PruneChildren(out, i, out[..i], parent) == PruneChildren(out, i + 1, out[..i + 1], parent)
  {
    assert !HasKey(out[..i], out[i].0) by {
      assert forall m :: 0 <= m < i ==> Keys(out[..i])[m] == out[m].0 != out[i].0;
    }
    PutAbsent(out[..i], out[i].0, out[i].1);
    assert out[..i] + [(out[i].0, out[i].1)] == out[..i + 1];
    assert Prune(out[i].1) == Ok(out[i].1);
  }

  /** The children a prune produces have distinct names and are pruned already. */
  lemma {:induction false} FoldProducesFixed(ce: Entries, i: nat, acc: Entries, parent: Value)
    requires i <= |ce|
    requires forall j :: 0 <= j < |ce| ==> ce[j].1 < parent
    requires DistinctKeys(acc) && AllFixed(acc)
    requires PruneChildren(ce, i, acc, parent).Ok?
    ensures DistinctKeys(PruneChildren(ce, i, acc, parent).value)
    ensures AllFixed(PruneChildren(ce, i, acc, parent).value)
    ensures i < |ce| || |acc| > 0 ==> |PruneChildren(ce, i, acc, parent).value| > 0
    decreases parent, 0, |ce| - i
  {
    if i < |ce| {
      var x := Prune(ce[i].1).value;
      Idempotent(ce[i].1);
      var acc' := Put(acc, ce[i].0, x);
      PutDistinct(acc, ce[i].0, x);
      PutFrom(acc, ce[i].0, x);
      assert AllFixed(acc') by {
        forall j | 0 <= j < |acc'| ensures Prune(acc'[j].1) == Ok(acc'[j].1) {
          if acc'[j] != (ce[i].0, x) {
            var m :| 0 <= m < |acc| && acc[m] == acc'[j];
          }
        }
      }
      FoldProducesFixed(ce, i + 1, acc', parent);
    }
  }

  /** Pruning is idempotent: its output prunes to itself. */
  lemma {:induction false} Idempotent(node: Value)
    requires Prune(node).Ok?
    ensures Prune(Prune(node).value) == Prune(node)
    decreases node, 2
  {
    if Prune(node).value != node {
      PruneInner(node);
      if IsLocal(node) == Ok(false) {
        RemoteFixed(node);
      } else {
        LocalFixed(node);
      }
    }
  }

  /** A pruned remote node has no children left, so it prunes to itself. */
  lemma RemoteFixed(node: Value)
    requires Inner(node) && IsLocal(node) == Ok(false) && Prune(node).Ok?
    ensures Prune(Prune(node).value) == Prune(node)
  {
    var r := Prune(node).value;
    PruneRemote(node);
    RebuiltRemote(r, r.entries[0].1, r.entries[1].1, r.entries[3].1);
  }

  /** A rebuilt remote definition has no children, so it prunes to itself. */
  lemma RebuiltRemote(d: Value, f: Value, p: Value, c: Value)
    requires d == Def(f, p, EmptyDict, c)
    ensures Prune(d) == Ok(d)
  {
    assert Find(d.entries, "nodes") == Some(2) by { DefPrune(f, p, EmptyDict, c); }
    assert d.entries[2].1 == EmptyDict;
    LeafAt(d, 2);
  }

  /** A dict whose `nodes` entry is falsy prunes to itself. */
  lemma LeafAt(node: Value, j: nat)
    requires node.Dict? && Find(node.entries, "nodes") == Some(j) && !Truthy(node.entries[j].1)
    ensures Prune(node) == Ok(node)
  {
  }

  /** A pruned local node keeps pruned children, which prune to themselves. */
  lemma {:induction false} LocalFixed(node: Value)
    requires Inner(node) && IsLocal(node) == Ok(true) && Prune(node).Ok?
    ensures Prune(Prune(node).value) == Prune(node)
    decreases node, 1
  {
    var r := Prune(node).value;
    PruneLocal(node);
    var ns := NodesOf(node);
    assert Truthy(ns) && |ns.entries| > 0;
    var children := PruneChildren(ns.entries, 0, [], node).value;
    FoldProducesFixed(ns.entries, 0, [], node);
    var f, p, c := r.entries[0].1, r.entries[1].1, r.entries[3].1;
    DefPrune(f, p, Dict(children), c);
    assert Subscript(r, "configs") == Subscript(node, "configs");
    SameConfigs(r, node);
    RebuiltLocal(r, f, p, children, c);
  }

  /** Locality is read from `configs` alone. */
  lemma SameConfigs(a: Value, b: Value)
    requires Subscript(a, "configs") == Subscript(b, "configs")
    ensures IsLocal(a) == IsLocal(b)
  {
  }

  /** A rebuilt local definition whose children are pruned already prunes to itself. */
  lemma RebuiltLocal(d: Value, f: Value, p: Value, children: Entries, c: Value)
    requires d == Def(f, p, Dict(children), c) && IsLocal(d) == Ok(true)
    requires |children| > 0 && DistinctKeys(children) && AllFixed(children)
    ensures Prune(d) == Ok(d)
  {
    assert d.entries[2].1 == Dict(children);
    assert forall j :: 0 <= j < |children| ==> children[j].1 < Dict(children) < d;
    RefoldFixed(children, 0, d);
    assert children[..0] == [];
    DefPrune(f, p, Dict(children), c);
    DefInner(f, p, children, c);
    LocalPrunes(d, children);
  }

  /** A node with children: a dict whose `nodes` entry is truthy. */
  ghost predicate Inner(node: Value)
  {
    node.Dict? && Find(node.entries, "nodes").Some? &&
    Truthy(node.entries[Find(node.entries, "nodes").value].1)
  }

  /** `node["nodes"]`. */
  function NodesOf(node: Value): (r: Value)
    requires node.Dict? && Find(node.entries, "nodes").Some?
    ensures r < node && Get(node.entries, "nodes") == Some(r)
  {
    node.entries[Find(node.entries, "nodes").value].1
  }

  /** A prune that changes its node found children and read all four keys. */
  lemma PruneInner(node: Value)
    requires Prune(node).Ok? && Prune(node).value != node
    ensures Inner(node) && IsLocal(node).Ok?
    ensures Subscript(node, "function").Ok? && Subscript(node, "params").Ok?
  {
  }

  lemma PruneRemote(node: Value)
    requires Inner(node) && IsLocal(node) == Ok(false) && Prune(node).Ok?
    ensures Prune(node).value == Def(Subscript(node, "function").value, Subscript(node, "params").value,
                                     EmptyDict, Subscript(node, "configs").value)
  {
  }

  lemma PruneLocal(node: Value)
    requires Inner(node) && IsLocal(node) == Ok(true) && Prune(node).Ok?
    ensures NodesOf(node).Dict? && PruneChildren(NodesOf(node).entries, 0, [], node).Ok?
    ensures Prune(node).value == Def(Subscript(node, "function").value, Subscript(node, "params").value,
      Dict(PruneChildren(NodesOf(node).entries, 0, [], node).value), Subscript(node, "configs").value)
  {
  }

  lemma DefInner(f: Value, p: Value, children: Entries, c: Value)
    requires |children| > 0
    ensures Inner(Def(f, p, Dict(children), c)) && NodesOf(Def(f, p, Dict(children), c)) == Dict(children)
  {
    var d := Def(f, p, Dict(children), c);
    DefPrune(f, p, Dict(children), c);
    assert d.entries[2].1 == Dict(children);
    assert Truthy(Dict(children));
  }

  /** A local node with children whose loop succeeds prunes to the rebuilt definition. */
  lemma LocalPrunes(node: Value, children: Entries)
    requires Inner(node) && IsLocal(node) == Ok(true) && NodesOf(node).Dict?
    requires PruneChildren(NodesOf(node).entries, 0, [], node) == Ok(children)
    requires Subscript(node, "function").Ok? && Subscript(node, "params").Ok?
    ensures Prune(node) == Ok(Def(Subscript(node, "function").value, Subscript(node, "params").value,
                                  Dict(children), Subscript(node, "configs").value))
  {
  }

  /** How a rebuilt definition dict reads back. */
  lemma DefPrune(f: Value, p: Value, n: Value, c: Value)
    ensures Find(Def(f, p, n, c).entries, "nodes") == Some(2)
    ensures Subscript(Def(f, p, n, c), "function") == Ok(f)
    ensures Subscript(Def(f, p, n, c), "params") == Ok(p)
    ensures Subscript(Def(f, p, n, c), "configs") == Ok(c)
  {
    var e := Def(f, p, n, c).entries;
    assert "function" != "nodes" && "params" != "nodes";
    assert "function" != "params";
    assert "function" != "configs" && "params" != "configs" && "nodes" != "configs";
    assert e[1..] == [("params", p), ("nodes", n), ("configs", c)];
    assert e[1..][1..] == [("nodes", n), ("configs", c)];
    assert e[1..][1..][1..] == [("configs", c)];
    assert Find(e[1..][1..], "nodes") == Some(0);
    assert Find(e[1..], "nodes") == Some(1);
    assert Get(e[1..][1..][1..], "configs") == Some(c);
    assert Get(e[1..][1..], "configs") == Some(c);
    assert Get(e[1..], "configs") == Some(c);
    assert Get(e[1..], "params") == Some(p);
    assert Get(e, "params") == Some(p);
    assert Get(e, "function") == Some(f);
  }

  /** A remote node with children and a function and params prunes to its childless definition. */
  lemma RemotePrunes(node: Value)
    requires Inner(node) && IsLocal(node) == Ok(false)
    requires Subscript(node, "function").Ok? && Subscript(node, "params").Ok?
    ensures Prune(node) == Ok(Def(Subscript(node, "function").value, Subscript(node, "params").value,
                                  EmptyDict, Subscript(node, "configs").value))
  {
  }

  /** `{"default_backend": {"__type__": t}}` plus extra backend settings. */
  function BackendConfig(t: string, extra: Entries): Value
  {
    Dict([("default_backend", Dict([("__type__", Str(t))] + extra))])
  }

  lemma BackendLocality(t: string, extra: Entries)
    ensures IsLocal(Def(PyNone, PyNone, PyNone, BackendConfig(t, extra))) == Ok(t == LocalBackend)
  {
    DefPrune(PyNone, PyNone, PyNone, BackendConfig(t, extra));
  }

  lemma Locality(f: Value, p: Value, n: Value, t: string, extra: Entries)
    ensures IsLocal(Def(f, p, n, BackendConfig(t, extra))) == Ok(t == LocalBackend)
  {
    DefPrune(f, p, n, BackendConfig(t, extra));
    DefPrune(PyNone, PyNone, PyNone, BackendConfig(t, extra));
    SameConfigs(Def(f, p, n, BackendConfig(t, extra)), Def(PyNone, PyNone, PyNone, BackendConfig(t, extra)));
    BackendLocality(t, extra);
  }

  /**
   * The sample definition: a local root with a local leaf `x1` and a
   * remote `x2` whose local child `y1` is dropped.
   */
  lemma SampleTree(f: Value, p: Value, fx1: Value, px1: Value, fx2: Value, px2: Value,
                   fy1: Value, py1: Value, remote: string, extra: Entries)
    requires remote != LocalBackend
    ensures
      var local := BackendConfig(LocalBackend, []);
      var x1 := Def(fx1, px1, EmptyDict, local);
      var y1 := Def(fy1, py1, EmptyDict, local);
      var x2 := Def(fx2, px2, Dict([("y1", y1)]), BackendConfig(remote, extra));
      LocalOnly(Def(f, p, Dict([("x1", x1), ("x2", x2)]), local))
        == Ok(Def(f, p, Dict([("x1", x1), ("x2", Def(fx2, px2, EmptyDict, BackendConfig(remote, extra)))]), local))
  {
    var local := BackendConfig(LocalBackend, []);
    var x1 := Def(fx1, px1, EmptyDict, local);
    var y1 := Def(fy1, py1, EmptyDict, local);
    var rc := BackendConfig(remote, extra);
    var x2 := Def(fx2, px2, Dict([("y1", y1)]), rc);
    var x2' := Def(fx2, px2, EmptyDict, rc);
    var ce := [("x1", x1), ("x2", x2)];
    var root := Def(f, p, Dict(ce), local);
    RebuiltRemote(x1, fx1, px1, local);
    SampleRemote(fx2, px2, y1, remote, extra);
    SampleChildren(x1, x2, x2', root);
    DefInner(f, p, ce, local);
    DefPrune(f, p, Dict(ce), local);
    Locality(f, p, Dict(ce), LocalBackend, []);
    LocalPrunes(root, [("x1", x1), ("x2", x2')]);
  }

  /** The remote `x2` loses its child. */
  lemma SampleRemote(fx2: Value, px2: Value, y1: Value, remote: string, extra: Entries)
    requires remote != LocalBackend
    ensures Prune(Def(fx2, px2, Dict([("y1", y1)]), BackendConfig(remote, extra)))
         == Ok(Def(fx2, px2, EmptyDict, BackendConfig(remote, extra)))
  {
    var rc := BackendConfig(remote, extra);
    DefInner(fx2, px2, [("y1", y1)], rc);
    DefPrune(fx2, px2, Dict([("y1", y1)]), rc);
    Locality(fx2, px2, Dict([("y1", y1)]), remote, extra);
    RemotePrunes(Def(fx2, px2, Dict([("y1", y1)]), rc));
  }

  /** The loop over the root's two children. */
  lemma SampleChildren(x1: Value, x2: Value, x2': Value, root: Value)
    requires root.Dict? && |root.entries| == 4 && root.entries[2].1 == Dict([("x1", x1), ("x2", x2)])
    requires Prune(x1) == Ok(x1) && Prune(x2) == Ok(x2')
    ensures PruneChildren([("x1", x1), ("x2", x2)], 0, [], root) == Ok([("x1", x1), ("x2", x2')])
  {
    var ce := [("x1", x1), ("x2", x2)];
    assert forall j :: 0 <= j < |ce| ==> ce[j].1 < Dict(ce) < root;
    assert ce[0].1 == x1 && ce[1].1 == x2;
    assert Put([], "x1", x1) == [("x1", x1)];
    assert "x1" != "x2";
    assert Put([("x1", x1)], "x2", x2') == [("x1", x1), ("x2", x2')];
    assert PruneChildren(ce, 2, [("x1", x1), ("x2", x2')], root) == Ok([("x1", x1), ("x2", x2')]);
    assert PruneChildren(ce, 1, [("x1", x1)], root) == Ok([("x1", x1), ("x2", x2')]);
  }
}
