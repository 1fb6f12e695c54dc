/**
 * The run-state backend: whether a component is in a run, and its prefix,
 * name, run id and flow name, each kept per thread.  The thread identity is
 * an explicit parameter.
 */
module Backends {
  import opened Wrappers
  import Text

  type ThreadId = int

  /** Everything one thread sees through the getters. */
  datatype View = View(inRun: bool, prefix: string, name: string, runId: string, flowName: string)

  /** What a thread that was never tracked, or was cleared, sees. */
  const Untracked := View(false, "", "", "", "")

  /** The path of a node named `name` under `prefix`; the root prefix `"."` is not doubled. */
  function AbsPath(prefix: string, name: string): (r: string)
    ensures prefix == "." ==> r == "." + name
    ensures prefix != "." ==> r == prefix + "." + name
  {
    if prefix == "." then "." + name else prefix + "." + name
  }

  function Qualidx(v: View): string
  {
    v.flowName + "|" + v.runId + "|" + AbsPath(v.prefix, v.name)
  }

  function ParentQualidx(v: View): string
  {
    v.flowName + "|" + v.runId + "|" + v.prefix
  }

  function FlowQualidx(v: View): string
  {
    v.flowName + "|" + v.runId
  }

  function OrEmpty(o: Option<string>): string
  {
    if o.Some? then o.value else ""
  }

  class Backend {
    var inRun: map<ThreadId, bool>
    var prefixes: map<ThreadId, string>
    var names: map<ThreadId, string>
    var runIds: map<ThreadId, string>
    var flowNames: map<ThreadId, string>

    constructor()
      ensures inRun == map[] && prefixes == map[] && names == map[] && runIds == map[] && flowNames == map[]
    {
      inRun, prefixes, names, runIds, flowNames := map[], map[], map[], map[], map[];
    }

    /** The five getters for thread `tid`, each defaulting when the thread has no entry. */
    function ViewOf(tid: ThreadId): (r: View)
      reads this
      ensures r.inRun == (tid in inRun && inRun[tid])
      ensures r.prefix == (if tid in prefixes then prefixes[tid] else "")
      ensures r.name == (if tid in names then names[tid] else "")
      ensures r.runId == (if tid in runIds then runIds[tid] else "")
      ensures r.flowName == (if tid in flowNames then flowNames[tid] else "")
    {
      View(if tid in inRun then inRun[tid] else false,
           if tid in prefixes then prefixes[tid] else "",
           if tid in names then names[tid] else "",
           if tid in runIds then runIds[tid] else "",
           if tid in flowNames then flowNames[tid] else "")
    }

    method SetInRun(tid: ThreadId, value: bool)
      modifies this
      ensures inRun == old(inRun)[tid := value]
      ensures prefixes == old(prefixes) && names == old(names) && runIds == old(runIds) && flowNames == old(flowNames)
    {
      inRun := inRun[tid := value];
    }

    method SetPrefix(tid: ThreadId, value: string)
      modifies this
      ensures prefixes == old(prefixes)[tid := value]
      ensures inRun == old(inRun) && names == old(names) && runIds == old(runIds) && flowNames == old(flowNames)
    {
      prefixes := prefixes[tid := value];
    }

    method SetName(tid: ThreadId, value: string)
      modifies this
      ensures names == old(names)[tid := value]
      ensures inRun == old(inRun) && prefixes == old(prefixes) && runIds == old(runIds) && flowNames == old(flowNames)
    {
      names := names[tid := value];
    }

    method SetRunId(tid: ThreadId, value: string)
      modifies this
      ensures runIds == old(runIds)[tid := value]
      ensures inRun == old(inRun) && prefixes == old(prefixes) && names == old(names) && flowNames == old(flowNames)
    {
      runIds := runIds[tid := value];
    }

    method SetFlowName(tid: ThreadId, value: string)
      modifies this
      ensures flowNames == old(flowNames)[tid := value]
      ensures inRun == old(inRun) && prefixes == old(prefixes) && names == old(names) && runIds == old(runIds)
    {
      flowNames := flowNames[tid := value];
    }

    /** `del in_run`: a thread without an entry raises KeyError. */
    method DelInRun(tid: ThreadId) returns (r: Result<()>)
      modifies this
      ensures r.Ok? <==> tid in old(inRun)
      ensures r.Err? ==> r.error.kind == KeyError
      ensures inRun == old(inRun) - {tid}
      ensures prefixes == old(prefixes) && names == old(names) && runIds == old(runIds) && flowNames == old(flowNames)
    {
      if tid !in inRun {
        return Raise(KeyError, "thread");
      }
      inRun := inRun - {tid};
      r := Ok(());
    }

    /** `del prefix`: a thread without an entry raises KeyError. */
    method DelPrefix(tid: ThreadId) returns (r: Result<()>)
      modifies this
      ensures r.Ok? <==> tid in old(prefixes)
      ensures r.Err? ==> r.error.kind == KeyError
      ensures prefixes == old(prefixes) - {tid}
      ensures inRun == old(inRun) && names == old(names) && runIds == old(runIds) && flowNames == old(flowNames)
    {
      if tid !in prefixes {
        return Raise(KeyError, "thread");
      }
      prefixes := prefixes - {tid};
      r := Ok(());
    }

    /** `del name`: a thread without an entry raises KeyError. */
    method DelName(tid: ThreadId) returns (r: Result<()>)
      modifies this
      ensures r.Ok? <==> tid in old(names)
      ensures r.Err? ==> r.error.kind == KeyError
      ensures names == old(names) - {tid}
      ensures inRun == old(inRun) && prefixes == old(prefixes) && runIds == old(runIds) && flowNames == old(flowNames)
    {
      if tid !in names {
        return Raise(KeyError, "thread");
      }
      names := names - {tid};
      r := Ok(());
    }

    /** `del run_id` tolerates a thread without an entry. */
    method DelRunId(tid: ThreadId)
      modifies this
      ensures runIds == old(runIds) - {tid}
      ensures inRun == old(inRun) && prefixes == old(prefixes) && names == old(names) && flowNames == old(flowNames)
    {
      runIds := runIds - {tid};
    }

    /** `del flow_name` tolerates a thread without an entry. */
    method DelFlowName(tid: ThreadId)
      modifies this
      ensures flowNames == old(flowNames) - {tid}
      ensures inRun == old(inRun) && prefixes == old(prefixes) && names == old(names) && runIds == old(runIds)
    {
      flowNames := flowNames - {tid};
    }

    /** `track(**kwargs)`: the calling thread enters a run; a missing keyword reads as `""`. */
    method Track(tid: ThreadId, prefix: Option<string>, name: Option<string>, runId: Option<string>, flowName: Option<string>)
      modifies this
      ensures ViewOf(tid) == View(true, OrEmpty(prefix), OrEmpty(name), OrEmpty(runId), OrEmpty(flowName))
      ensures forall t :: t != tid ==> ViewOf(t) == old(ViewOf(t))
      ensures inRun == old(inRun)[tid := true] && prefixes == old(prefixes)[tid := OrEmpty(prefix)]
      ensures names == old(names)[tid := OrEmpty(name)] && runIds == old(runIds)[tid := OrEmpty(runId)]
      ensures flowNames == old(flowNames)[tid := OrEmpty(flowName)]
    {
      inRun := inRun[tid := true];
      prefixes := prefixes[tid := OrEmpty(prefix)];
      names := names[tid := OrEmpty(name)];
      runIds := runIds[tid := OrEmpty(runId)];
      flowNames := flowNames[tid := OrEmpty(flowName)];
    }

    /** `clear()`: the calling thread's five entries go; other threads keep theirs. */
    method Clear(tid: ThreadId)
      modifies this
      ensures ViewOf(tid) == Untracked
      ensures forall t :: t != tid ==> ViewOf(t) == old(ViewOf(t))
      ensures inRun == old(inRun) - {tid} && prefixes == old(prefixes) - {tid} && names == old(names) - {tid}
      ensures runIds == old(runIds) - {tid} && flowNames == old(flowNames) - {tid}
    {
      inRun := inRun - {tid};
      prefixes := prefixes - {tid};
      names := names - {tid};
      runIds := runIds - {tid};
      flowNames := flowNames - {tid};
    }
  }

  /** A thread that was never tracked sits at the root path `"."`. */
  lemma UntrackedAtRoot()
    ensures AbsPath(Untracked.prefix, Untracked.name) == "."
    ensures Qualidx(Untracked) == "||."
  {
  }

  /** The qualified ids extend one another: flow, then parent, then node. */
  lemma QualidxNesting(v: View)
    ensures ParentQualidx(v) == FlowQualidx(v) + "|" + v.prefix
    ensures Qualidx(v) == FlowQualidx(v) + "|" + AbsPath(v.prefix, v.name)
  {
  }

  /** The path reached by descending through `names` from the path `start`. */
  function Descend(start: string, names: seq<string>): string
    decreases |names|
  {
    if |names| == 0 then start else Descend(AbsPath(start, names[0]), names[1..])
  }

  /**
   * Descending from the root through non-empty names gives the dotted path
   * `.a.a1.a2`: the root's `"."` is never doubled.
   */
  lemma {:induction false} DescendFromRoot(names: seq<string>)
    requires |names| > 0
    requires forall i :: 0 <= i < |names| ==> names[i] != ""
    ensures Descend(".", names) == "." + Text.Join(names, '.')
  {
    var first := "." + names[0];
    assert first != "." by {
      assert |first| >= 2;
    }
    DescendFrom(first, names[1..]);
    JoinCons(names);
  }

  /** Below any path other than the root, each step appends `"." + name`. */
  lemma {:induction false} DescendFrom(start: string, names: seq<string>)
    requires start != "."
    requires forall i :: 0 <= i < |names| ==> names[i] != ""
    ensures Descend(start, names) == start + JoinTail(names)
    decreases |names|
  {
    if |names| > 0 {
      var next := start + "." + names[0];
      assert next != "." by {
        assert |next| >= 2;
      }
      DescendFrom(next, names[1..]);
      assert next + JoinTail(names[1..]) == start + JoinTail(names);
    }
  }

  /** Each name preceded by a dot. */
  function JoinTail(names: seq<string>): string
    decreases |names|
  {
    if |names| == 0 then "" else "." + names[0] + JoinTail(names[1..])
  }

  lemma {:induction false} JoinCons(names: seq<string>)
    requires |names| > 0
    ensures Text.Join(names, '.') == names[0] + JoinTail(names[1..])
    decreases |names|
  {
    if |names| > 1 {
      JoinCons(names[1..]);
      assert names[1..][1..] == names[2..];
    }
  }
}
