/**
 Parallel execution means what serial execution means. Task bodies run as interleaved single reads
 and writes on one shared memory, scheduled by the task graph; every complete run ends in the
 memory that running the bodies one by one in submission order produces.
 */
module SerialEquivalence {
  import opened ResourceUsers
  import opened AccessPolicy
  import opened EventGraph
  import opened GraphInvariant
  import opened GraphTheorems

  /** One element of a resource. */
  datatype Loc = Loc(resource: Resource, index: seq<SizeT>)

  type Memory = map<Loc, int>

  function Get(m: Memory, x: Loc): (r: int) { if x in m then m[x] else 0 }

  datatype Action = Read(x: Loc) | Write(x: Loc, v: int) | Stop

  /**
   The bodies. What a body does next depends on the values it has met so far, so `next` covers any
   deterministic program. `touches` and `writes` say what a task declared.
   */
  datatype Code = Code(
    next: (nat, seq<int>) -> Action,
    touches: (nat, Loc) -> bool,
    writes: (nat, Loc) -> bool)

  /** Bodies touch only what they declare. */
  ghost predicate Declared(code: Code)
  {
    && (forall t: nat, h :: code.next(t, h).Read? ==> code.touches(t, code.next(t, h).x))
    && (forall t: nat, h :: code.next(t, h).Write? ==> code.writes(t, code.next(t, h).x))
    && (forall t: nat, x :: code.writes(t, x) ==> code.touches(t, x))
  }

  /** All tasks live in one space, touch only what they declare, and declared clashes are conflicts. */
  ghost predicate Disciplined(g: Graph, code: Code)
  {
    && (forall t :: 0 <= t < |g.parent| ==> g.parent[t] == -1)
    && Declared(code)
    && (forall q: nat, t: nat, x {:trigger code.touches(q, x), code.touches(t, x)} ::
          (&& q < t < |g.parent| && code.touches(q, x) && code.touches(t, x)
           && (code.writes(q, x) || code.writes(t, x))) ==> g.conflict(q, t))
  }

  // ------------------------------------------------------------ serial meaning

  datatype Exec = Exec(mem: Memory, hist: seq<int>)

  /** One operation of task `t`. */
  function Perform(code: Code, t: nat, e: Exec): (r: Exec)
  {
    match code.next(t, e.hist)
    case Read(x) => Exec(e.mem, e.hist + [Get(e.mem, x)])
    case Write(x, v) => Exec(e.mem[x := v], e.hist + [v])
    case Stop => e
  }

  /** The first `k` operations of task `t` from memory `m`. */
  function Execute(code: Code, t: nat, m: Memory, k: nat): (r: Exec)
  {
    if k == 0 then Exec(m, []) else Perform(code, t, Execute(code, t, m, k - 1))
  }

  /** Memory before task `t` when tasks `0..t` ran one by one for the given numbers of operations. */
  function SerialMemory(code: Code, m0: Memory, lengths: seq<nat>, t: nat): (r: Memory)
    requires t <= |lengths|
  {
    if t == 0 then m0
    else Execute(code, t - 1, SerialMemory(code, m0, lengths, t - 1), lengths[t - 1]).mem
  }

  /** Task `t` started on `m` stops after exactly `k` operations. */
  predicate Halts(code: Code, t: nat, m: Memory, k: nat)
  {
    |Execute(code, t, m, k).hist| == k && code.next(t, Execute(code, t, m, k).hist).Stop?
  }

  /** The serial run of all `|lengths|` tasks, each to its end. */
  ghost predicate SerialRun(code: Code, m0: Memory, lengths: seq<nat>)
  {
    forall t :: 0 <= t < |lengths| ==> Halts(code, t, SerialMemory(code, m0, lengths, t), lengths[t])
  }

  /** The latest of the first `n` operations of a history that writes `x`, -1 if there is none. */
  function LastWrite(code: Code, t: nat, hist: seq<int>, n: nat, x: Loc): (w: int)
    requires n <= |hist|
    ensures -1 <= w < n && (w >= 0 ==> code.next(t, hist[..w]).Write? && code.next(t, hist[..w]).x == x)
    ensures forall j :: w < j < n ==> !(code.next(t, hist[..j]).Write? && code.next(t, hist[..j]).x == x)
  {
    if n == 0 then -1
    else if code.next(t, hist[..n - 1]).Write? && code.next(t, hist[..n - 1]).x == x then n - 1
    else LastWrite(code, t, hist, n - 1, x)
  }

  /** What `x` holds after the first `n` operations of a history that started on `m`. */
  function Written(code: Code, t: nat, m: Memory, hist: seq<int>, n: nat, x: Loc): (v: int)
    requires n <= |hist|
  {
    var w := LastWrite(code, t, hist, n, x);
    if w < 0 then Get(m, x) else code.next(t, hist[..w]).v
  }

  lemma {:induction false} WrittenSame(code: Code, t: nat, m: Memory, hist: seq<int>, hist': seq<int>, n: nat, x: Loc)
    requires n <= |hist| && hist <= hist'
    ensures Written(code, t, m, hist', n, x) == Written(code, t, m, hist, n, x)
    ensures LastWrite(code, t, hist', n, x) == LastWrite(code, t, hist, n, x)
  {
    if n > 0 {
      assert hist'[..n - 1] == hist[..n - 1];
      WrittenSame(code, t, m, hist, hist', n - 1, x);
      var w := LastWrite(code, t, hist, n, x);
      if w >= 0 { assert hist'[..w] == hist[..w]; }
    }
  }

  /**
   What serial execution means: a read meets the value the task wrote last to the location, or else the one
   it held at the start, and that is what the location holds at the end.
   */
  lemma {:induction false} ExecutionMeans(code: Code, t: nat, m: Memory, k: nat, x: Loc)
    ensures var e := Execute(code, t, m, k);
            && Get(e.mem, x) == Written(code, t, m, e.hist, |e.hist|, x)
            && forall j :: 0 <= j < |e.hist| && code.next(t, e.hist[..j]) == Action.Read(x) ==>
                             e.hist[j] == Written(code, t, m, e.hist, j, x)
  {
    if k > 0 {
      ExecutionMeans(code, t, m, k - 1, x);
      PerformMeans(code, t, m, Execute(code, t, m, k - 1), x);
    }
  }

  lemma PerformMeans(code: Code, t: nat, m: Memory, e: Exec, x: Loc)
    requires Get(e.mem, x) == Written(code, t, m, e.hist, |e.hist|, x)
    requires forall j :: 0 <= j < |e.hist| && code.next(t, e.hist[..j]) == Action.Read(x) ==>
                           e.hist[j] == Written(code, t, m, e.hist, j, x)
    ensures var e' := Perform(code, t, e);
            && Get(e'.mem, x) == Written(code, t, m, e'.hist, |e'.hist|, x)
            && forall j :: 0 <= j < |e'.hist| && code.next(t, e'.hist[..j]) == Action.Read(x) ==>
                             e'.hist[j] == Written(code, t, m, e'.hist, j, x)
  {
    var e', n := Perform(code, t, e), |e.hist|;
    assert e'.hist[..n] == e.hist;
    WrittenSame(code, t, m, e.hist, e'.hist, n, x);
    forall j | 0 <= j < |e'.hist| && code.next(t, e'.hist[..j]) == Action.Read(x)
      ensures e'.hist[j] == Written(code, t, m, e'.hist, j, x)
    {
      WrittenSame(code, t, m, e.hist, e'.hist, j, x);
      assert e'.hist[..j] == e.hist[..j];
    }
  }

  // ------------------------------------------------------------ parallel system

  datatype System = System(graph: State, mem: Memory, hist: seq<seq<int>>)

  ghost predicate GraphStep(g: Graph, code: Code, s: System, s': System, step: Step)
  {
    && Enabled(g, s.graph, step)
    && s'.graph == Apply(g, s.graph, step)
    && s'.mem == s.mem
    && |s.hist| == |s.graph.tasks|
    && s'.hist == (if step.Submit? then s.hist + [[]] else s.hist)
    && (step.Finish? ==> code.next(step.t, s.hist[step.t]).Stop?)
  }

  ghost predicate BodyStep(g: Graph, code: Code, s: System, s': System, t: nat)
  {
    && t < |s.graph.tasks| == |s.hist| && s.graph.tasks[t].phase.Running?
    && !code.next(t, s.hist[t]).Stop?
    && var e := Perform(code, t, Exec(s.mem, s.hist[t]));
       s' == s.(mem := e.mem, hist := s.hist[t := e.hist])
  }

  ghost predicate SystemNext(g: Graph, code: Code, s: System, s': System)
  {
    (exists step :: GraphStep(g, code, s, s', step)) || (exists t: nat :: BodyStep(g, code, s, s', t))
  }

  ghost predicate StepAt(g: Graph, code: Code, run: seq<System>, i: int)
  {
    0 <= i < |run| - 1 ==> SystemNext(g, code, run[i], run[i + 1])
  }

  ghost predicate SystemRun(g: Graph, code: Code, m0: Memory, run: seq<System>)
  {
    && |run| > 0 && run[0] == System(INITIAL, m0, [])
    && forall i {:trigger StepAt(g, code, run, i)} :: StepAt(g, code, run, i)
  }

  ghost predicate Complete(g: Graph, s: System)
  {
    |s.graph.tasks| == |g.parent| && forall t :: 0 <= t < |g.parent| ==> s.graph.tasks[t].phase.Done?
  }

  // ------------------------------------------------------------ facts about serial execution

  lemma {:induction false} ExecuteFrame(code: Code, t: nat, m: Memory, k: nat, x: Loc)
    requires Declared(code) && !code.writes(t, x)
    ensures Get(Execute(code, t, m, k).mem, x) == Get(m, x)
  {
    if k > 0 { ExecuteFrame(code, t, m, k - 1, x); }
  }

  /** Tasks that do not write a location leave it as it is. */
  lemma {:induction false} SerialFrame(code: Code, m0: Memory, lengths: seq<nat>, a: nat, b: nat, x: Loc)
    requires Declared(code) && a <= b <= |lengths|
    requires forall w: nat :: a <= w < b ==> !code.writes(w, x)
    ensures Get(SerialMemory(code, m0, lengths, b), x) == Get(SerialMemory(code, m0, lengths, a), x)
  {
    if a < b {
      SerialFrame(code, m0, lengths, a, b - 1, x);
      ExecuteFrame(code, b - 1, SerialMemory(code, m0, lengths, b - 1), lengths[b - 1], x);
    }
  }

  lemma {:induction false} HistBound(code: Code, t: nat, m: Memory, k: nat)
    ensures |Execute(code, t, m, k).hist| <= k
  {
    if k > 0 { HistBound(code, t, m, k - 1); }
  }

  lemma {:induction false} StoppedStays(code: Code, t: nat, m: Memory, j: nat, k: nat)
    requires j <= k && code.next(t, Execute(code, t, m, j).hist).Stop?
    ensures Execute(code, t, m, k) == Execute(code, t, m, j)
  {
    if j < k { StoppedStays(code, t, m, j, k - 1); }
  }

  lemma HaltsOnce(code: Code, t: nat, m: Memory, j: nat, k: nat)
    requires Halts(code, t, m, j) && Halts(code, t, m, k)
    ensures j == k
  {
    if j <= k { StoppedStays(code, t, m, j, k); } else { StoppedStays(code, t, m, k, j); }
  }

  lemma SameLength(code: Code, m0: Memory, a: seq<nat>, b: seq<nat>, t: nat)
    requires t < |a| == |b| && SerialRun(code, m0, a) && SerialRun(code, m0, b)
    requires SerialMemory(code, m0, a, t) == SerialMemory(code, m0, b, t)
    ensures a[t] == b[t]
  {
    HaltsOnce(code, t, SerialMemory(code, m0, a, t), a[t], b[t]);
  }

  lemma SameOutcome(code: Code, m0: Memory, a: seq<nat>, b: seq<nat>, t: nat)
    requires t < |a| == |b| && a[t] == b[t]
    requires SerialMemory(code, m0, a, t) == SerialMemory(code, m0, b, t)
    ensures SerialMemory(code, m0, a, t + 1) == SerialMemory(code, m0, b, t + 1)
  {
  }

  lemma {:induction false} SameMemory(code: Code, m0: Memory, a: seq<nat>, b: seq<nat>, t: nat)
    requires |a| == |b| && t <= |a| && SerialRun(code, m0, a) && SerialRun(code, m0, b)
    ensures SerialMemory(code, m0, a, t) == SerialMemory(code, m0, b, t)
  {
    if t == 0 {
      return;
    }
    var p := t - 1;
    SameMemory(code, m0, a, b, p);
    SameLength(code, m0, a, b, p);
    SameOutcome(code, m0, a, b, p);
  }

  /** There is at most one serial run. */
  lemma SerialRunUnique(code: Code, m0: Memory, a: seq<nat>, b: seq<nat>)
    requires |a| == |b| && SerialRun(code, m0, a) && SerialRun(code, m0, b)
    ensures a == b
  {
    forall t | 0 <= t < |a| ensures a[t] == b[t] {
      SameMemory(code, m0, a, b, t);
      SameLength(code, m0, a, b, t);
    }
  }

  // ------------------------------------------------------------ the simulation invariant

  /** `w` is the last started task that writes `x`. */
  ghost predicate Latest(code: Code, ts: seq<Task>, x: Loc, w: nat)
  {
    && w < |ts| && Started(ts[w]) && code.writes(w, x)
    && forall v: nat :: w < v < |ts| && Started(ts[v]) ==> !code.writes(v, x)
  }

  ghost predicate Untouched(code: Code, ts: seq<Task>, x: Loc)
  {
    forall v: nat :: v < |ts| && Started(ts[v]) ==> !code.writes(v, x)
  }

  /** Where task `t` would stand in the serial run after as many operations as it has made. */
  function Shadow(code: Code, m0: Memory, lengths: seq<nat>, t: nat, k: nat): (r: Exec)
    requires t <= |lengths|
  {
    Execute(code, t, SerialMemory(code, m0, lengths, t), k)
  }

  /** Task `t` has met the values it meets in the serial run, and stops where it stops there. */
  ghost predicate HistoryMatches(code: Code, m0: Memory, lengths: seq<nat>, t: nat, x: Task, hist: seq<int>)
    requires t < |lengths|
  {
    && hist == Shadow(code, m0, lengths, t, |hist|).hist
    && (!Started(x) ==> hist == [])
    && (x.phase.Done? ==> |hist| == lengths[t] && code.next(t, hist).Stop?)
  }

  ghost predicate HistoriesMatch(code: Code, m0: Memory, lengths: seq<nat>, s: System)
  {
    && |s.hist| == |s.graph.tasks| <= |lengths|
    && forall t :: 0 <= t < |s.hist| ==>
                     HistoryMatches(code, m0, lengths, t, s.graph.tasks[t], s.hist[t])
  }

  /** Each location holds what its last started writer has left there in the serial run. */
  ghost predicate MemoryMatches(code: Code, m0: Memory, lengths: seq<nat>, s: System)
    requires |s.hist| == |s.graph.tasks| <= |lengths|
  {
    && (forall x, w: nat :: Latest(code, s.graph.tasks, x, w) ==>
          Get(s.mem, x) == Get(Shadow(code, m0, lengths, w, |s.hist[w]|).mem, x))
    && (forall x :: Untouched(code, s.graph.tasks, x) ==> Get(s.mem, x) == Get(m0, x))
  }

  ghost predicate Matches(code: Code, m0: Memory, lengths: seq<nat>, s: System)
  {
    HistoriesMatch(code, m0, lengths, s) && MemoryMatches(code, m0, lengths, s)
  }

  /** Histories only grow, and stay within the lengths they have at the end of the run. */
  ghost predicate Within(s: System, lengths: seq<nat>)
  {
    && |s.hist| == |s.graph.tasks| <= |lengths|
    && forall t :: 0 <= t < |s.hist| ==>
                     |s.hist[t]| <= lengths[t] && (s.graph.tasks[t].phase.Done? ==> |s.hist[t]| == lengths[t])
  }

  /** What the task graph contributes: an earlier task that clashes with a started one is done. */
  ghost predicate Orderly(code: Code, ts: seq<Task>)
  {
    forall q: nat, t: nat, x {:trigger code.touches(q, x), code.touches(t, x)} ::
      (&& q < t < |ts| && Started(ts[t]) && code.touches(q, x) && code.touches(t, x)
       && (code.writes(q, x) || code.writes(t, x))) ==> ts[q].phase.Done?
  }

  lemma GraphIsOrderly(g: Graph, code: Code, s: State)
    requires Inv(g, s) && Disciplined(g, code)
    ensures Orderly(code, s.tasks)
  {
    forall q: nat, t: nat, x {:trigger code.touches(q, x), code.touches(t, x)} |
      && q < t < |s.tasks| && Started(s.tasks[t]) && code.touches(q, x) && code.touches(t, x)
      && (code.writes(q, x) || code.writes(t, x))
      ensures s.tasks[q].phase.Done?
    {
      assert g.conflict(q, t);
      assert Siblings(g, q, t, |s.tasks|);
      assert LocalOk(g, s.tasks[q], q, |s.tasks|);
    }
  }

  /** The last of the started writers of `x` before `t`, if there is one. */
  lemma {:induction false} FindLatest(code: Code, ts: seq<Task>, x: Loc, n: nat) returns (w: int)
    requires n <= |ts|
    ensures -1 <= w < n
    ensures w >= 0 ==> Started(ts[w]) && code.writes(w, x)
    ensures forall v: nat :: w < v < n && Started(ts[v]) ==> !code.writes(v, x)
  {
    if n == 0 {
      w := -1;
    } else if Started(ts[n - 1]) && code.writes(n - 1, x) {
      w := n - 1;
    } else {
      w := FindLatest(code, ts, x, n - 1);
    }
  }

  /**
   Before its first write to `x`, a task that touches `x` sees there what the serial run has there:
   all earlier writers of `x` are done and no later one has started.
   */
  lemma SeesSerialValue(code: Code, m0: Memory, lengths: seq<nat>, s: System, t: nat, x: Loc)
    requires Declared(code) && Matches(code, m0, lengths, s) && t < |s.graph.tasks|
    requires forall q: nat :: q < t && code.writes(q, x) ==> s.graph.tasks[q].phase.Done?
    requires forall v: nat :: t <= v < |s.graph.tasks| && Started(s.graph.tasks[v]) ==> !code.writes(v, x)
    ensures Get(s.mem, x) == Get(SerialMemory(code, m0, lengths, t), x)
  {
    var ts := s.graph.tasks;
    var w := FindLatest(code, ts, x, t);
    SerialFrame(code, m0, lengths, w + 1, t, x);
    if w < 0 {
      assert Untouched(code, ts, x);
    } else {
      assert Latest(code, ts, x, w);
    }
  }

  /** The value a running task meets at a location it touches is the serial one. */
  lemma MeetsSerialValue(code: Code, m0: Memory, lengths: seq<nat>, s: System, t: nat, x: Loc)
    requires Declared(code) && Matches(code, m0, lengths, s) && Orderly(code, s.graph.tasks)
    requires t < |s.graph.tasks| && s.graph.tasks[t].phase.Running? && code.touches(t, x)
    ensures Get(s.mem, x) == Get(Shadow(code, m0, lengths, t, |s.hist[t]|).mem, x)
  {
    var ts := s.graph.tasks;
    assert forall v: nat :: t < v < |ts| && Started(ts[v]) && code.writes(v, x) ==> code.touches(v, x);
    if code.writes(t, x) {
      assert Latest(code, ts, x, t);
    } else {
      assert forall q: nat :: q < t && code.writes(q, x) ==> code.touches(q, x);
      SeesSerialValue(code, m0, lengths, s, t, x);
      ExecuteFrame(code, t, SerialMemory(code, m0, lengths, t), |s.hist[t]|, x);
    }
  }

  /** One operation does the same from two memories that agree where it reads. */
  lemma PerformAgrees(code: Code, t: nat, e: Exec, f: Exec)
    requires e.hist == f.hist
    requires code.next(t, e.hist).Read? ==>
               Get(e.mem, code.next(t, e.hist).x) == Get(f.mem, code.next(t, e.hist).x)
    ensures Perform(code, t, e).hist == Perform(code, t, f).hist
    ensures forall x :: Get(e.mem, x) == Get(f.mem, x) ==>
                          Get(Perform(code, t, e).mem, x) == Get(Perform(code, t, f).mem, x)
  {
  }

  /** One operation of a running task keeps it in step with the serial run. */
  lemma BodyStepAgrees(g: Graph, code: Code, m0: Memory, lengths: seq<nat>, s: System, s': System, t: nat)
    requires Declared(code) && Matches(code, m0, lengths, s) && Orderly(code, s.graph.tasks)
    requires BodyStep(g, code, s, s', t)
    ensures |s'.hist[t]| == |s.hist[t]| + 1
    ensures s'.hist[t] == Shadow(code, m0, lengths, t, |s'.hist[t]|).hist
    ensures forall x :: Get(s.mem, x) == Get(Shadow(code, m0, lengths, t, |s.hist[t]|).mem, x) ==>
                          Get(s'.mem, x) == Get(Shadow(code, m0, lengths, t, |s'.hist[t]|).mem, x)
  {
    var before := Shadow(code, m0, lengths, t, |s.hist[t]|);
    var op := code.next(t, s.hist[t]);
    assert HistoryMatches(code, m0, lengths, t, s.graph.tasks[t], s.hist[t]);
    if op.Read? { MeetsSerialValue(code, m0, lengths, s, t, op.x); }
    PerformAgrees(code, t, Exec(s.mem, s.hist[t]), before);
    assert Shadow(code, m0, lengths, t, |s.hist[t]| + 1) == Perform(code, t, before);
  }

  lemma BodyStepHistories(g: Graph, code: Code, m0: Memory, lengths: seq<nat>, s: System, s': System, t: nat)
    requires HistoriesMatch(code, m0, lengths, s) && BodyStep(g, code, s, s', t)
    requires s'.hist[t] == Shadow(code, m0, lengths, t, |s'.hist[t]|).hist
    ensures HistoriesMatch(code, m0, lengths, s')
  {
    forall v | 0 <= v < |s'.hist|
      ensures HistoryMatches(code, m0, lengths, v, s'.graph.tasks[v], s'.hist[v])
    {
      if v != t { assert HistoryMatches(code, m0, lengths, v, s.graph.tasks[v], s.hist[v]); }
    }
  }

  lemma BodyStepMatches(g: Graph, code: Code, m0: Memory, lengths: seq<nat>, s: System, s': System, t: nat)
    requires Declared(code) && Matches(code, m0, lengths, s) && Orderly(code, s.graph.tasks)
    requires BodyStep(g, code, s, s', t)
    ensures Matches(code, m0, lengths, s')
  {
    var ts := s.graph.tasks;
    BodyStepAgrees(g, code, m0, lengths, s, s', t);
    BodyStepHistories(g, code, m0, lengths, s, s', t);
    var op := code.next(t, s.hist[t]);
    forall x, w: nat | Latest(code, ts, x, w)
      ensures Get(s'.mem, x) == Get(Shadow(code, m0, lengths, w, |s'.hist[w]|).mem, x)
    {
      if w != t { OneWriter(code, ts, x, w, t); OnlyDeclaredWrites(code, s, s', t, x); }
    }
    forall x | Untouched(code, ts, x) ensures Get(s'.mem, x) == Get(m0, x) {
      OnlyDeclaredWrites(code, s, s', t, x);
    }
  }

  lemma OnlyDeclaredWrites(code: Code, s: System, s': System, t: nat, x: Loc)
    requires Declared(code) && !code.writes(t, x) && t < |s.hist|
    requires s'.mem == Perform(code, t, Exec(s.mem, s.hist[t])).mem
    ensures Get(s'.mem, x) == Get(s.mem, x)
  {
  }

  /** A running task that writes `x` is the last started writer of `x`. */
  lemma OneWriter(code: Code, ts: seq<Task>, x: Loc, w: nat, t: nat)
    requires Declared(code) && Orderly(code, ts) && Latest(code, ts, x, w)
    requires t < |ts| && ts[t].phase.Running? && t != w
    ensures !code.writes(t, x)
  {
    assert code.writes(t, x) ==> code.touches(t, x);
  }

  lemma StartHistories(g: Graph, code: Code, m0: Memory, lengths: seq<nat>, s: System, s': System, t: nat)
    requires HistoriesMatch(code, m0, lengths, s) && GraphStep(g, code, s, s', Start(t))
    ensures HistoriesMatch(code, m0, lengths, s')
  {
    forall v | 0 <= v < |s'.hist|
      ensures HistoryMatches(code, m0, lengths, v, s'.graph.tasks[v], s'.hist[v])
    {
      assert HistoryMatches(code, m0, lengths, v, s.graph.tasks[v], s.hist[v]);
    }
  }

  lemma StartMatches(g: Graph, code: Code, m0: Memory, lengths: seq<nat>, s: System, s': System, t: nat)
    requires Declared(code) && Matches(code, m0, lengths, s)
    requires Orderly(code, s.graph.tasks) && Orderly(code, s'.graph.tasks)
    requires GraphStep(g, code, s, s', Start(t))
    ensures Matches(code, m0, lengths, s')
  {
    var ts, ts' := s.graph.tasks, s'.graph.tasks;
    StartHistories(g, code, m0, lengths, s, s', t);
    assert forall v :: 0 <= v < |ts| && v != t ==> ts'[v] == ts[v];
    forall x, w: nat | Latest(code, ts', x, w)
      ensures Get(s'.mem, x) == Get(Shadow(code, m0, lengths, w, |s'.hist[w]|).mem, x)
    {
      StartLatest(code, m0, lengths, s, ts', t, x, w);
    }
    forall x | Untouched(code, ts', x) ensures Get(s'.mem, x) == Get(m0, x) {
      assert Untouched(code, ts, x);
    }
  }

  /** Where the task that starts is the new last writer, memory already holds its serial input. */
  lemma StartLatest(code: Code, m0: Memory, lengths: seq<nat>, s: System, ts': seq<Task>, t: nat, x: Loc, w: nat)
    requires Declared(code) && Matches(code, m0, lengths, s) && Orderly(code, ts')
    requires t < |s.graph.tasks| == |ts'| && s.graph.tasks[t].phase.Waiting? && ts'[t].phase.Running?
    requires forall v :: 0 <= v < |ts'| && v != t ==> ts'[v] == s.graph.tasks[v]
    requires Latest(code, ts', x, w)
    ensures Get(s.mem, x) == Get(Shadow(code, m0, lengths, w, |s.hist[w]|).mem, x)
  {
    if w == t {
      assert HistoryMatches(code, m0, lengths, t, s.graph.tasks[t], s.hist[t]);
      assert forall q: nat :: q < t && code.writes(q, x) ==> code.touches(q, x);
      SeesSerialValue(code, m0, lengths, s, t, x);
    } else {
      OneWriter(code, ts', x, w, t);
      assert Latest(code, s.graph.tasks, x, w);
    }
  }

  lemma OtherStepMatches(code: Code, m0: Memory, lengths: seq<nat>, s: System, s': System)
    requires Matches(code, m0, lengths, s) && Within(s', lengths)
    requires s'.mem == s.mem && |s.hist| == |s.graph.tasks| <= |s'.graph.tasks| == |s'.hist|
    requires forall t :: 0 <= t < |s.hist| ==>
                           && s'.hist[t] == s.hist[t]
                           && (Started(s'.graph.tasks[t]) <==> Started(s.graph.tasks[t]))
                           && (s'.graph.tasks[t].phase.Done? && !s.graph.tasks[t].phase.Done? ==>
                                 code.next(t, s.hist[t]).Stop?)
    requires forall t :: |s.hist| <= t < |s'.hist| ==> s'.hist[t] == [] && !Started(s'.graph.tasks[t])
    ensures Matches(code, m0, lengths, s')
  {
    var ts, ts' := s.graph.tasks, s'.graph.tasks;
    forall x, w: nat | Latest(code, ts', x, w)
      ensures Get(s'.mem, x) == Get(Shadow(code, m0, lengths, w, |s'.hist[w]|).mem, x)
    {
      assert Latest(code, ts, x, w);
    }
    forall x | Untouched(code, ts', x) ensures Untouched(code, ts, x) {}
  }
}
