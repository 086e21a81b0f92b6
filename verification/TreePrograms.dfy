/**
 Serial equivalence for whole task trees and every access policy. Bodies do single uses of their
 resources and submit children while they run; a complete run has a rearrangement in which each
 child runs, with all below it, at the point where it was submitted.
 */
module TreePrograms {
  import opened AccessPolicy
  import opened AccessMeaning
  import opened ResourceUsers
  import opened UserMeaning
  import opened EventGraph
  import opened GraphInvariant
  import opened GraphTheorems
  import opened EventOrder
  import opened TaskGraph
  import SerialRuns
  import opened Traces

  datatype Action = Do(op: Operation) | Stop

  /**
   What a body does next, and how many children it has submitted by then, depends on the answers it got
   so far.
   */
  datatype Bodies = Bodies(next: (nat, seq<int>) -> Action, spawns: (nat, seq<int>) -> nat)

  predicate Declares(accesses: seq<Access>, op: Operation)
  {
    Uses(accesses, op.resource, op.use)
  }

  /** Bodies do only what their tasks declare. */
  ghost predicate Behaved(ds: seq<Decl>, code: Bodies)
  {
    forall t: nat, h {:trigger code.next(t, h)} ::
      t < |ds| && code.next(t, h).Do? ==> Declares(ds[t].accesses, code.next(t, h).op)
  }

  // ------------------------------------------------------------ places in the serial order

  /** The latest child of `t` among the first `n` tasks, -1 if it has none. */
  function LastChild(g: Graph, t: nat, n: nat): (c: int)
    requires n <= |g.parent|
    ensures -1 <= c < n && (c >= 0 ==> g.parent[c] == t) && forall d :: 0 <= d < n && g.parent[d] == t ==> d <= c
  {
    if n == 0 then -1 else if g.parent[n - 1] == t then n - 1 else LastChild(g, t, n - 1)
  }

  /** The children `t` has among the first `n` tasks. */
  function ChildCount(g: Graph, t: nat, n: nat): (r: nat)
    requires n <= |g.parent|
  {
    if n == 0 then 0 else ChildCount(g, t, n - 1) + (if g.parent[n - 1] == t then 1 else 0)
  }

  /** The children of `t` up to child `mark`, of which there is none if it is -1. */
  function Rank(g: Graph, t: nat, mark: int): (r: nat)
  {
    if -1 <= mark < |g.parent| then ChildCount(g, t, mark + 1) else 0
  }

  lemma {:induction false} ChildCountGrows(g: Graph, t: nat, n: nat, m: nat)
    requires n <= m <= |g.parent|
    ensures ChildCount(g, t, n) <= ChildCount(g, t, m)
  {
    if n < m { ChildCountGrows(g, t, n, m - 1); }
  }

  lemma {:induction false} RankOfLast(g: Graph, t: nat, n: nat)
    requires n <= |g.parent|
    ensures Rank(g, t, LastChild(g, t, n)) == ChildCount(g, t, n)
  {
    if n > 0 && g.parent[n - 1] != t { RankOfLast(g, t, n - 1); }
  }

  /** A child is known by its rank. */
  lemma RankTells(g: Graph, t: nat, c: int, d: int)
    requires -1 <= c < |g.parent| && (c >= 0 ==> g.parent[c] == t)
    requires -1 <= d < |g.parent| && (d >= 0 ==> g.parent[d] == t)
    ensures c <= d <==> Rank(g, t, c) <= Rank(g, t, d)
  {
    if c <= d { ChildCountGrows(g, t, c + 1, d + 1); } else { ChildCountGrows(g, t, d + 1, c); }
  }

  /** What `t` does after submitting child `mark` comes after all that is below `mark`, and before the next child. */
  function Place(g: Graph, t: nat, mark: int): (key: seq<int>)
    requires Rooted(g) && t < |g.parent|
  {
    Path(g, t) + [mark, |g.parent|]
  }

  /** The child a task had submitted last when it made the event. */
  function Mark(e: Deed): (c: int)
  {
    if |e.key| < 2 then -1 else e.key[|e.key| - 2]
  }

  ghost predicate WellPlaced(g: Graph, e: Deed)
    requires Rooted(g)
  {
    && e.t < |g.parent| && e.key == Place(g, e.t, Mark(e))
    && -1 <= Mark(e) < |g.parent| && (Mark(e) >= 0 ==> g.parent[Mark(e)] == e.t)
  }

  /** The way down from a task to one below it. */
  lemma {:induction false} PathBelow(g: Graph, x: nat, t: nat) returns (rest: seq<int>)
    requires Rooted(g) && t < |g.parent| && IsBelow(g, x, t)
    ensures x < |g.parent| && Path(g, t) == Path(g, x) + rest
    ensures forall i :: 0 <= i < |rest| ==> 0 <= rest[i] < |g.parent|
    decreases t
  {
    if x == t {
      rest := [];
    } else {
      var above := PathBelow(g, x, g.parent[t]);
      rest := above + [t];
    }
  }

  /** The child of `x` through which `t` is below it. */
  lemma {:induction false} ChildAbove(g: Graph, x: nat, t: nat) returns (c: nat)
    requires Rooted(g) && t < |g.parent| && IsBelow(g, x, t) && x != t
    ensures c < |g.parent| && g.parent[c] == x && IsBelow(g, c, t) && c <= t
    decreases t
  {
    if g.parent[t] == x {
      c := t;
    } else {
      c := ChildAbove(g, x, g.parent[t]);
      BelowParent(g, g.parent[t], t);
    }
  }

  /** Lists that branch after a common part. */
  lemma Branch(p: seq<int>, x: int, xs: seq<int>, y: int, ys: seq<int>)
    ensures LexLess(p + [x] + xs, p + [y] + ys) <==> x < y || (x == y && LexLess(xs, ys))
  {
    assert p + [x] + xs == p + ([x] + xs) && p + [y] + ys == p + ([y] + ys);
    LexPrefix(p, [x] + xs, [y] + ys);
    assert ([x] + xs)[1..] == xs && ([y] + ys)[1..] == ys;
  }

  /** The events of one task are in the order of the children they follow. */
  lemma OutSame(g: Graph, f: Deed, e: Deed)
    requires Rooted(g) && WellPlaced(g, f) && WellPlaced(g, e) && f.t == e.t
    ensures Out(f, e) <==> Mark(e) < Mark(f)
  {
    var n := |g.parent|;
    Branch(Path(g, e.t), Mark(e), [n], Mark(f), [n]);
    assert e.key == Path(g, e.t) + [Mark(e)] + [n] && f.key == Path(g, f.t) + [Mark(f)] + [n];
  }

  /** An event above and one below it, through child `c`: the one above comes later exactly if it followed `c`. */
  lemma OutAbove(g: Graph, f: Deed, e: Deed, c: nat)
    requires Rooted(g) && WellPlaced(g, f) && WellPlaced(g, e)
    requires c < |g.parent| && g.parent[c] == f.t && IsBelow(g, c, e.t)
    ensures Out(f, e) <==> c <= Mark(f)
    ensures Out(e, f) <==> c > Mark(f)
  {
    var n := |g.parent|;
    var rest := PathBelow(g, c, e.t);
    var tail := rest + [Mark(e), n];
    Around(g, c);
    assert f.key == Path(g, f.t) + [Mark(f)] + [n];
    assert e.key == Path(g, f.t) + [c] + tail;
    Branch(Path(g, f.t), c, tail, Mark(f), [n]);
    Branch(Path(g, f.t), Mark(f), [n], c, tail);
    assert tail[0] < n;
  }

  /** Events below two siblings are in the order of the siblings. */
  lemma OutApart(g: Graph, f: Deed, e: Deed, a0: nat, b0: nat)
    requires Rooted(g) && WellPlaced(g, f) && WellPlaced(g, e) && a0 < |g.parent| && b0 < |g.parent|
    requires a0 != b0 && g.parent[a0] == g.parent[b0] && IsBelow(g, a0, f.t) && IsBelow(g, b0, e.t)
    ensures Out(f, e) <==> b0 < a0
  {
    var n := |g.parent|;
    var above: seq<int> := if g.parent[a0] < 0 then [] else Path(g, g.parent[a0]);
    var r := PathBelow(g, a0, f.t);
    var q := PathBelow(g, b0, e.t);
    Around(g, a0);
    Around(g, b0);
    assert f.key == above + [a0] + (r + [Mark(f), n]);
    assert e.key == above + [b0] + (q + [Mark(e), n]);
    Branch(above, b0, q + [Mark(e), n], a0, r + [Mark(f), n]);
  }

  // ------------------------------------------------------------ the parallel system

  datatype System<!S> = System(graph: State, mem: S, trace: seq<Deed>)

  function Answers(events: seq<Deed>): (h: seq<int>)
    ensures |h| == |events|
  {
    seq(|events|, i requires 0 <= i < |events| => events[i].answer)
  }

  /** The body of `t` has submitted as many children as it has at this point, among the first `n` tasks. */
  predicate AllSpawned(g: Graph, code: Bodies, t: nat, n: nat, own: seq<Deed>)
    requires n <= |g.parent|
  {
    ChildCount(g, t, n) == code.spawns(t, Answers(own))
  }

  /** A body submits its children where it has them, and returns when it has nothing left to do. */
  ghost predicate BodyAllows(g: Graph, code: Bodies, s: State, trace: seq<Deed>, step: Step)
    requires Enabled(g, s, step)
  {
    var n := |s.tasks|;
    && (step.Submit? && g.parent[n] >= 0 ==>
          ChildCount(g, g.parent[n], n) < code.spawns(g.parent[n], Answers(Own(trace, g.parent[n]))))
    && (step.Finish? ==>
          code.next(step.t, Answers(Own(trace, step.t))).Stop? && AllSpawned(g, code, step.t, n, Own(trace, step.t)))
  }

  ghost predicate GraphStep<S>(g: Graph, code: Bodies, s: System<S>, s': System<S>, step: Step)
  {
    && Enabled(g, s.graph, step) && s' == s.(graph := Apply(g, s.graph, step))
    && BodyAllows(g, code, s.graph, s.trace, step)
  }

  /** Task `t`, which is running, does its next operation. */
  ghost predicate OpStep<S>(g: Graph, code: Bodies, effect: Effect<S>, s: System<S>, s': System<S>, t: nat)
    requires Rooted(g)
  {
    && t < |s.graph.tasks| <= |g.parent| && s.graph.tasks[t].phase.Running?
    && code.next(t, Answers(Own(s.trace, t))).Do? && AllSpawned(g, code, t, |s.graph.tasks|, Own(s.trace, t))
    && var op := code.next(t, Answers(Own(s.trace, t))).op;
    && var (m, answer) := effect(s.mem, op);
    && s' == System(s.graph, m, s.trace + [Deed(t, op, answer, Place(g, t, LastChild(g, t, |s.graph.tasks|)))])
  }

  ghost predicate SystemNext<S>(g: Graph, code: Bodies, effect: Effect<S>, s: System<S>, s': System<S>)
    requires Rooted(g)
  {
    (exists step :: GraphStep(g, code, s, s', step)) || (exists t: nat :: OpStep(g, code, effect, s, s', t))
  }

  ghost predicate SystemRun<S>(g: Graph, code: Bodies, effect: Effect<S>, m0: S, run: seq<System<S>>)
    requires Rooted(g)
  {
    && |run| > 0 && run[0] == System(INITIAL, m0, [])
    && forall i :: 0 <= i < |run| - 1 ==> SystemNext(g, code, effect, run[i], run[i + 1])
  }

  ghost predicate Complete<S>(g: Graph, s: System<S>)
  {
    |s.graph.tasks| == |g.parent| && forall t :: 0 <= t < |g.parent| ==> s.graph.tasks[t].phase.Done?
  }

  /** `e` is from below child `c` of the task of `f`, which had submitted it when it did `f`. */
  predicate HandedOver(g: Graph, f: Deed, e: Deed, c: nat)
    requires Rooted(g)
  {
    c < |g.parent| && g.parent[c] == f.t && c <= Mark(f) && IsBelow(g, c, e.t)
  }

  // ------------------------------------------------------------ what holds in every state

  /** The operations of a task, and the children before each, are those its body has after the answers it got. */
  ghost predicate Follows(g: Graph, code: Bodies, t: nat, own: seq<Deed>)
  {
    forall k :: 0 <= k < |own| ==>
                  && code.next(t, Answers(own[..k])) == Do(own[k].op)
                  && code.spawns(t, Answers(own[..k])) == Rank(g, t, Mark(own[k]))
  }

  /** `n` tasks are submitted so far. */
  ghost predicate TaskOk(g: Graph, code: Bodies, t: nat, x: Task, own: seq<Deed>, n: nat)
    requires n <= |g.parent|
  {
    && Follows(g, code, t, own)
    && (x.phase.Done? ==> code.next(t, Answers(own)).Stop? && AllSpawned(g, code, t, n, own))
  }

  ghost predicate EventOk(g: Graph, ds: seq<Decl>, s: State, e: Deed)
    requires Rooted(g) && |s.tasks| <= |g.parent| == |ds|
  {
    && WellPlaced(g, e) && e.t < |s.tasks| && Started(s.tasks[e.t]) && Declares(ds[e.t].accesses, e.op)
    && Mark(e) <= LastChild(g, e.t, |s.tasks|)
  }

  /** What is known of deed `f` and a later deed `e`. */
  ghost predicate PairOk(g: Graph, f: Deed, e: Deed)
    requires Rooted(g)
  {
    Out(f, e) ==> f.t != e.t && (!Clashing(f.op, e.op) || exists c: nat :: HandedOver(g, f, e, c))
  }

  ghost predicate PairsOk(g: Graph, trace: seq<Deed>)
    requires Rooted(g)
  {
    forall i, j :: 0 <= i < j < |trace| ==> PairOk(g, trace[i], trace[j])
  }

  ghost predicate DeedsOk(ds: seq<Decl>, s: State, trace: seq<Deed>)
    requires WellDeclared(ds) && |s.tasks| <= |ds|
  {
    forall i :: 0 <= i < |trace| ==> EventOk(GraphOf(ds), ds, s, trace[i])
  }

  ghost predicate TasksOk(g: Graph, code: Bodies, s: State, trace: seq<Deed>)
    requires |s.tasks| <= |g.parent|
  {
    forall t :: 0 <= t < |s.tasks| ==> TaskOk(g, code, t, s.tasks[t], Own(trace, t), |s.tasks|)
  }

  ghost predicate Good<S(!new)>(ds: seq<Decl>, code: Bodies, effect: Effect<S>, m0: S, s: System<S>)
    requires WellDeclared(ds)
  {
    && Inv(GraphOf(ds), s.graph) && |s.graph.tasks| <= |ds|
    && Leads(effect, m0, s.trace, s.mem)
    && DeedsOk(ds, s.graph, s.trace)
    && TasksOk(GraphOf(ds), code, s.graph, s.trace)
    && PairsOk(GraphOf(ds), s.trace)
  }

  // ------------------------------------------------------------ clashes are conflicts

  lemma DeclaredIsProper(accesses: seq<Access>, op: Operation)
    requires WellTyped(accesses) && Declares(accesses, op)
    ensures Proper(op)
  {
    var i :| 0 <= i < |accesses| && accesses[i].resource == op.resource && Admits(accesses[i].policy, op.use);
    SameTypeSymmetric(accesses[i].policy, op.resource.proto);
    WithinTop(op.resource.proto, accesses[i].policy, op.use);
  }

  /** Declared uses that clash make two tasks conflict, whatever their policy tree. */
  lemma ClashIsConflict(a: seq<Access>, b: seq<Access>, x: Operation, y: Operation)
    requires WellTyped(a) && WellTyped(b) && Declares(a, x) && Declares(b, y) && Clashing(x, y)
    ensures UserIsSerial(a, b)
  {
    ClashMakesSerial(a, b, x.resource, x.use, y.use);
  }

  // ------------------------------------------------------------ a new deed and the earlier ones

  lemma RunningUnfinished(g: Graph, s: State, t: nat)
    requires Local(g, s) && t < |s.tasks| && s.tasks[t].phase.Running?
    ensures !Finished(s.tasks[t])
  {
    assert LocalOk(g, s.tasks[t], t, |s.tasks|);
  }

  lemma DeedsConflict(ds: seq<Decl>, s: State, f: Deed, e: Deed)
    requires WellDeclared(ds) && |s.tasks| <= |ds| && Clashing(f.op, e.op)
    requires EventOk(GraphOf(ds), ds, s, f) && EventOk(GraphOf(ds), ds, s, e)
    ensures UserIsSerial(ds[f.t].accesses, ds[e.t].accesses)
  {
    ClashIsConflict(ds[f.t].accesses, ds[e.t].accesses, f.op, e.op);
  }

  /** Of two tasks that part ways and conflict there, the earlier one is not still running. */
  lemma ForkInOrder(ds: seq<Decl>, s: State, f: Deed, e: Deed, a0: nat, b0: nat)
    requires WellDeclared(ds) && Inv(GraphOf(ds), s) && |s.tasks| <= |ds| && a0 < |ds| && b0 < |ds|
    requires WellPlaced(GraphOf(ds), f) && WellPlaced(GraphOf(ds), e) && f.t < |s.tasks| && e.t < |s.tasks|
    requires Started(s.tasks[f.t]) && s.tasks[e.t].phase.Running?
    requires a0 != b0 && ds[a0].parent == ds[b0].parent && GraphOf(ds).conflict(b0, a0)
    requires IsBelow(GraphOf(ds), a0, f.t) && IsBelow(GraphOf(ds), b0, e.t)
    ensures !Out(f, e)
  {
    var g := GraphOf(ds);
    assert g.parent[a0] == ds[a0].parent && g.parent[b0] == ds[b0].parent;
    OutApart(g, f, e, a0, b0);
    if b0 < a0 {
      ForkOrder(ds, s, b0, a0, e.t, f.t);
      RunningUnfinished(g, s, e.t);
    }
  }

  /** Of two tasks that conflict, neither above the other, the earlier one is not still running. */
  lemma ApartInOrder(ds: seq<Decl>, creator: Resource -> int, s: State, f: Deed, e: Deed)
    requires WellDeclared(ds) && WellNested(ds, creator) && Inv(GraphOf(ds), s) && |s.tasks| <= |ds|
    requires EventOk(GraphOf(ds), ds, s, f) && EventOk(GraphOf(ds), ds, s, e) && s.tasks[e.t].phase.Running?
    requires !IsBelow(GraphOf(ds), f.t, e.t) && !IsBelow(GraphOf(ds), e.t, f.t) && Clashing(f.op, e.op)
    ensures !Out(f, e)
  {
    DeedsConflict(ds, s, f, e);
    var a0, b0 := ConflictingFork(ds, creator, f.t, e.t);
    ForkInOrder(ds, s, f, e, a0, b0);
  }

  lemma NewPair(ds: seq<Decl>, creator: Resource -> int, s: State, f: Deed, e: Deed)
    requires WellDeclared(ds) && WellNested(ds, creator) && Inv(GraphOf(ds), s) && |s.tasks| <= |ds|
    requires EventOk(GraphOf(ds), ds, s, f) && EventOk(GraphOf(ds), ds, s, e) && s.tasks[e.t].phase.Running?
    requires Mark(e) == LastChild(GraphOf(ds), e.t, |s.tasks|)
    ensures PairOk(GraphOf(ds), f, e)
  {
    var g := GraphOf(ds);
    if f.t == e.t {
      OutSame(g, f, e);
    } else if IsBelow(g, e.t, f.t) {
      var c := ChildAbove(g, e.t, f.t);
      OutAbove(g, e, f, c);
    } else if IsBelow(g, f.t, e.t) {
      var c := ChildAbove(g, f.t, e.t);
      OutAbove(g, f, e, c);
      assert Out(f, e) ==> HandedOver(g, f, e, c);
    } else if Clashing(f.op, e.op) {
      ApartInOrder(ds, creator, s, f, e);
    }
  }

  // ------------------------------------------------------------ every step keeps it

  lemma {:induction false} LastChildGrows(g: Graph, t: nat, n: nat, m: nat)
    requires n <= m <= |g.parent|
    ensures LastChild(g, t, n) <= LastChild(g, t, m)
  {
  }

  lemma {:induction false} OwnNone(trace: seq<Deed>, t: nat)
    requires forall i :: 0 <= i < |trace| ==> trace[i].t != t
    ensures Own(trace, t) == []
  {
    if trace != [] { OwnNone(trace[..|trace| - 1], t); }
  }

  lemma DeedsKept(ds: seq<Decl>, s: State, s': State, trace: seq<Deed>)
    requires WellDeclared(ds) && |s.tasks| <= |s'.tasks| <= |ds| && DeedsOk(ds, s, trace)
    requires forall u :: 0 <= u < |s.tasks| && Started(s.tasks[u]) ==> Started(s'.tasks[u])
    ensures DeedsOk(ds, s', trace)
  {
    forall i | 0 <= i < |trace| ensures EventOk(GraphOf(ds), ds, s', trace[i]) {
      assert EventOk(GraphOf(ds), ds, s, trace[i]);
      LastChildGrows(GraphOf(ds), trace[i].t, |s.tasks|, |s'.tasks|);
    }
  }

  lemma GraphStepKeeps(ds: seq<Decl>, s: State, s': State, step: Step)
    requires WellDeclared(ds) && Inv(GraphOf(ds), s)
    requires Enabled(GraphOf(ds), s, step) && s' == Apply(GraphOf(ds), s, step)
    ensures Inv(GraphOf(ds), s') && |s'.tasks| <= |ds| && SerialRuns.PhasesKept(s, s', step)
  {
    DeclaredGraphIsLawful(ds);
    assert Next(GraphOf(ds), s, s');
    InvStep(GraphOf(ds), s, s');
    SerialRuns.PhaseStep(GraphOf(ds), s, step);
  }

  lemma GoodGraphStep<S(!new)>(ds: seq<Decl>, code: Bodies, effect: Effect<S>, m0: S,
                               s: System<S>, s': System<S>, step: Step)
    requires WellDeclared(ds) && Good(ds, code, effect, m0, s) && GraphStep(GraphOf(ds), code, s, s', step)
    ensures Good(ds, code, effect, m0, s')
  {
    GraphStepKeeps(ds, s.graph, s'.graph, step);
    DeedsKept(ds, s.graph, s'.graph, s.trace);
    TasksKept(ds, code, s.graph, s'.graph, s.trace, step);
  }

  lemma OwnNoneYet(ds: seq<Decl>, s: State, trace: seq<Deed>, t: nat)
    requires WellDeclared(ds) && |s.tasks| <= |ds| && DeedsOk(ds, s, trace) && t >= |s.tasks|
    ensures Own(trace, t) == []
  {
    forall i | 0 <= i < |trace| ensures trace[i].t != t { assert EventOk(GraphOf(ds), ds, s, trace[i]); }
    OwnNone(trace, t);
  }

  lemma TaskKept(g: Graph, code: Bodies, s: State, s': State, trace: seq<Deed>, step: Step, t: nat)
    requires |s.tasks| <= |s'.tasks| <= |g.parent| && SerialRuns.PhasesKept(s, s', step) && t < |s.tasks|
    requires Enabled(g, s, step) && BodyAllows(g, code, s, trace, step)
    requires TaskOk(g, code, t, s.tasks[t], Own(trace, t), |s.tasks|)
    ensures TaskOk(g, code, t, s'.tasks[t], Own(trace, t), |s'.tasks|)
  {
  }

  lemma TasksKept(ds: seq<Decl>, code: Bodies, s: State, s': State, trace: seq<Deed>, step: Step)
    requires WellDeclared(ds) && |s.tasks| <= |s'.tasks| <= |ds| && SerialRuns.PhasesKept(s, s', step)
    requires Enabled(GraphOf(ds), s, step) && BodyAllows(GraphOf(ds), code, s, trace, step)
    requires DeedsOk(ds, s, trace) && TasksOk(GraphOf(ds), code, s, trace)
    ensures TasksOk(GraphOf(ds), code, s', trace)
  {
    forall t | 0 <= t < |s'.tasks| ensures TaskOk(GraphOf(ds), code, t, s'.tasks[t], Own(trace, t), |s'.tasks|) {
      if t < |s.tasks| { TaskKept(GraphOf(ds), code, s, s', trace, step, t); } else { OwnNoneYet(ds, s, trace, t); }
    }
  }

  lemma FollowsNext(g: Graph, code: Bodies, t: nat, own: seq<Deed>, e: Deed)
    requires Follows(g, code, t, own) && code.next(t, Answers(own)) == Do(e.op)
    requires code.spawns(t, Answers(own)) == Rank(g, t, Mark(e))
    ensures Follows(g, code, t, own + [e])
  {
    forall k | 0 <= k <= |own|
      ensures code.next(t, Answers((own + [e])[..k])) == Do((own + [e])[k].op)
      ensures code.spawns(t, Answers((own + [e])[..k])) == Rank(g, t, Mark((own + [e])[k]))
    {
      assert (own + [e])[..k] == own[..k];
      if k == |own| { assert own[..k] == own; }
    }
  }

  lemma GoodOpStep<S(!new)>(ds: seq<Decl>, creator: Resource -> int, code: Bodies, effect: Effect<S>, m0: S,
                            s: System<S>, s': System<S>, t: nat)
    requires WellDeclared(ds) && WellNested(ds, creator) && Behaved(ds, code)
    requires Good(ds, code, effect, m0, s) && OpStep(GraphOf(ds), code, effect, s, s', t)
    ensures Good(ds, code, effect, m0, s')
  {
    var e := s'.trace[|s.trace|];
    assert s'.trace == s.trace + [e];
    LeadsNext(effect, m0, s.trace, e, s'.mem);
    NewDeedOk(ds, code, s.graph, s.trace, e);
    PairsNext(ds, creator, s.graph, s.trace, e);
  }

  lemma PairsNext(ds: seq<Decl>, creator: Resource -> int, s: State, trace: seq<Deed>, e: Deed)
    requires WellDeclared(ds) && WellNested(ds, creator) && Inv(GraphOf(ds), s) && |s.tasks| <= |ds|
    requires DeedsOk(ds, s, trace) && PairsOk(GraphOf(ds), trace)
    requires EventOk(GraphOf(ds), ds, s, e) && s.tasks[e.t].phase.Running?
    requires Mark(e) == LastChild(GraphOf(ds), e.t, |s.tasks|)
    ensures PairsOk(GraphOf(ds), trace + [e])
  {
    forall i | 0 <= i < |trace| ensures PairOk(GraphOf(ds), trace[i], e) { NewPair(ds, creator, s, trace[i], e); }
  }

  lemma NewDeedOk(ds: seq<Decl>, code: Bodies, s: State, trace: seq<Deed>, e: Deed)
    requires WellDeclared(ds) && |s.tasks| <= |ds| && Behaved(ds, code)
    requires DeedsOk(ds, s, trace) && TasksOk(GraphOf(ds), code, s, trace)
    requires e.t < |s.tasks| && s.tasks[e.t].phase.Running? && code.next(e.t, Answers(Own(trace, e.t))) == Do(e.op)
    requires AllSpawned(GraphOf(ds), code, e.t, |s.tasks|, Own(trace, e.t))
    requires e.key == Place(GraphOf(ds), e.t, LastChild(GraphOf(ds), e.t, |s.tasks|))
    ensures DeedsOk(ds, s, trace + [e]) && TasksOk(GraphOf(ds), code, s, trace + [e])
    ensures EventOk(GraphOf(ds), ds, s, e) && Mark(e) == LastChild(GraphOf(ds), e.t, |s.tasks|)
  {
    NewDeedPlaced(GraphOf(ds), e, |s.tasks|);
    RankOfLast(GraphOf(ds), e.t, |s.tasks|);
    NewDeedFollows(GraphOf(ds), code, s, trace, e);
    DeedsNext(ds, s, trace, e);
  }

  lemma NewDeedPlaced(g: Graph, e: Deed, n: nat)
    requires Rooted(g) && e.t < n <= |g.parent| && e.key == Place(g, e.t, LastChild(g, e.t, n))
    ensures WellPlaced(g, e) && Mark(e) == LastChild(g, e.t, n)
  {
  }

  lemma DeedsNext(ds: seq<Decl>, s: State, trace: seq<Deed>, e: Deed)
    requires WellDeclared(ds) && |s.tasks| <= |ds| && DeedsOk(ds, s, trace) && EventOk(GraphOf(ds), ds, s, e)
    ensures DeedsOk(ds, s, trace + [e])
  {
    forall i | 0 <= i < |trace + [e]| ensures EventOk(GraphOf(ds), ds, s, (trace + [e])[i]) {
      if i < |trace| { assert EventOk(GraphOf(ds), ds, s, trace[i]); }
    }
  }

  lemma NewDeedFollows(g: Graph, code: Bodies, s: State, trace: seq<Deed>, e: Deed)
    requires |s.tasks| <= |g.parent| && TasksOk(g, code, s, trace)
    requires e.t < |s.tasks| && s.tasks[e.t].phase.Running? && code.next(e.t, Answers(Own(trace, e.t))) == Do(e.op)
    requires code.spawns(e.t, Answers(Own(trace, e.t))) == Rank(g, e.t, Mark(e))
    ensures TasksOk(g, code, s, trace + [e])
  {
    forall u | 0 <= u < |s.tasks| ensures TaskOk(g, code, u, s.tasks[u], Own(trace + [e], u), |s.tasks|) {
      OwnNext(trace, e, u);
      assert TaskOk(g, code, u, s.tasks[u], Own(trace, u), |s.tasks|);
      if u == e.t { FollowsNext(g, code, u, Own(trace, u), e); }
    }
  }

  lemma GoodInitially<S(!new)>(ds: seq<Decl>, code: Bodies, effect: Effect<S>, m0: S)
    requires WellDeclared(ds)
    ensures Good(ds, code, effect, m0, System(INITIAL, m0, []))
  {
    DeclaredGraphIsLawful(ds);
    InvInitial(GraphOf(ds));
  }

  lemma GoodStep<S(!new)>(ds: seq<Decl>, creator: Resource -> int, code: Bodies, effect: Effect<S>, m0: S,
                          s: System<S>, s': System<S>)
    requires WellDeclared(ds) && WellNested(ds, creator) && Behaved(ds, code)
    requires Good(ds, code, effect, m0, s) && SystemNext(GraphOf(ds), code, effect, s, s')
    ensures Good(ds, code, effect, m0, s')
  {
    if step :| GraphStep(GraphOf(ds), code, s, s', step) {
      GoodGraphStep(ds, code, effect, m0, s, s', step);
    } else {
      var t: nat :| OpStep(GraphOf(ds), code, effect, s, s', t);
      GoodOpStep(ds, creator, code, effect, m0, s, s', t);
    }
  }

  lemma {:induction false} GoodRun<S(!new)>(ds: seq<Decl>, creator: Resource -> int, code: Bodies,
                                            effect: Effect<S>, m0: S, run: seq<System<S>>, i: nat)
    requires WellDeclared(ds) && WellNested(ds, creator) && Behaved(ds, code)
    requires SystemRun(GraphOf(ds), code, effect, m0, run) && i < |run|
    ensures Good(ds, code, effect, m0, run[i])
  {
    if i == 0 {
      GoodInitially(ds, code, effect, m0);
    } else {
      GoodRun(ds, creator, code, effect, m0, run, i - 1);
      GoodStep(ds, creator, code, effect, m0, run[i - 1], run[i]);
    }
  }
}
