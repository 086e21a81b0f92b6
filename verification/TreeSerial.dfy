/**
 Serial equivalence for whole task trees: a complete run has a rearrangement in which each child runs,
 with all below it, at the point where it was submitted, provided that no task meddles with what a child
 it has submitted declares.
 */
module TreeSerial {
  import opened AccessPolicy
  import opened AccessMeaning
  import opened ResourceUsers
  import opened UserMeaning
  import opened EventGraph
  import opened GraphInvariant
  import opened GraphTheorems
  import opened TaskGraph
  import opened Traces
  import opened TreePrograms

  // ------------------------------------------------------------ the serial execution

  /** Task `t` does what its body does, from its beginning to its end, and submits all its children. */
  ghost predicate Whole(g: Graph, code: Bodies, t: nat, own: seq<Deed>)
  {
    Follows(g, code, t, own) && code.next(t, Answers(own)).Stop? && AllSpawned(g, code, t, |g.parent|, own)
  }

  /**
   A serial execution: every task runs its whole body; what is below a child happens between what its
   parent does before and after submitting it; the answers are those of the memory.
   */
  ghost predicate SerialExecution<S(!new)>(g: Graph, code: Bodies, effect: Effect<S>, m0: S, serial: seq<Deed>, m: S)
    requires Rooted(g)
  {
    && (forall i :: 0 <= i < |serial| ==> WellPlaced(g, serial[i]))
    && Sorted(serial)
    && Leads(effect, m0, serial, m)
    && AllWhole(g, code, serial)
  }

  /** Deeds that are out of order do not clash. */
  lemma OutCommutes<S(!new)>(ds: seq<Decl>, effect: Effect<S>, s: State, f: Deed, e: Deed)
    requires WellDeclared(ds) && Respects(effect) && |s.tasks| <= |ds|
    requires EventOk(GraphOf(ds), ds, s, f) && EventOk(GraphOf(ds), ds, s, e) && !Clashing(f.op, e.op)
    ensures Commute(effect, f.op, e.op)
  {
    DeclaredIsProper(ds[f.t].accesses, f.op);
    DeclaredIsProper(ds[e.t].accesses, e.op);
  }

  lemma GoodIsSortable<S(!new)>(ds: seq<Decl>, effect: Effect<S>, s: State, trace: seq<Deed>)
    requires WellDeclared(ds) && Respects(effect) && |s.tasks| <= |ds|
    requires DeedsOk(ds, s, trace) && PairsOk(GraphOf(ds), trace) && KeepsOff(GraphOf(ds), trace)
    ensures Sortable(effect, trace)
  {
    forall i, j | 0 <= i < j < |trace| && Out(trace[i], trace[j]) ensures Commute(effect, trace[i].op, trace[j].op) {
      assert PairOk(GraphOf(ds), trace[i], trace[j]);
      assert EventOk(GraphOf(ds), ds, s, trace[i]) && EventOk(GraphOf(ds), ds, s, trace[j]);
      OutCommutes(ds, effect, s, trace[i], trace[j]);
    }
  }

  lemma PairsInOrder(g: Graph, trace: seq<Deed>)
    requires Rooted(g) && PairsOk(g, trace)
    ensures EachInOrder(trace)
  {
    forall i, j | 0 <= i < j < |trace| && trace[i].t == trace[j].t ensures !Out(trace[i], trace[j]) {
      assert PairOk(g, trace[i], trace[j]);
    }
  }

  lemma SortedPlaces(ds: seq<Decl>, s: State, trace: seq<Deed>)
    requires WellDeclared(ds) && |s.tasks| <= |ds| && DeedsOk(ds, s, trace)
    ensures forall i :: 0 <= i < |Sort(trace)| ==> WellPlaced(GraphOf(ds), Sort(trace)[i])
  {
    forall i | 0 <= i < |Sort(trace)| ensures WellPlaced(GraphOf(ds), Sort(trace)[i]) {
      MemberOf(trace, Sort(trace)[i]);
      var k :| 0 <= k < |trace| && trace[k] == Sort(trace)[i];
      assert EventOk(GraphOf(ds), ds, s, trace[k]);
    }
  }

  ghost predicate AllWhole(g: Graph, code: Bodies, trace: seq<Deed>)
  {
    forall t: nat {:trigger Own(trace, t)} :: t < |g.parent| ==> Whole(g, code, t, Own(trace, t))
  }

  lemma CompleteIsWhole<S(!new)>(g: Graph, code: Bodies, s: System<S>)
    requires Complete(g, s) && TasksOk(g, code, s.graph, s.trace)
    ensures AllWhole(g, code, s.trace)
  {
    forall t: nat | t < |g.parent| ensures Whole(g, code, t, Own(s.trace, t)) {
      assert TaskOk(g, code, t, s.graph.tasks[t], Own(s.trace, t), |g.parent|);
    }
  }

  /** A complete state that keeps the invariant has a serial counterpart. */
  lemma GoodIsSerial<S(!new)>(ds: seq<Decl>, code: Bodies, effect: Effect<S>, m0: S, s: System<S>)
    requires WellDeclared(ds) && Respects(effect) && Good(ds, code, effect, m0, s)
    requires Complete(GraphOf(ds), s) && KeepsOff(GraphOf(ds), s.trace)
    ensures SerialExecution(GraphOf(ds), code, effect, m0, Sort(s.trace), s.mem)
    ensures SameForEach(s.trace, Sort(s.trace))
  {
    GoodIsSortable(ds, effect, s.graph, s.trace);
    PairsInOrder(GraphOf(ds), s.trace);
    SortedPlaces(ds, s.graph, s.trace);
    Rearrange(effect, m0, s.trace, s.mem);
    CompleteIsWhole(GraphOf(ds), code, s);
  }

  /** Every task does the same and gets the same answers in both traces. */
  ghost predicate SameForEach(trace: seq<Deed>, trace': seq<Deed>)
  {
    forall t: nat {:trigger Own(trace', t)} :: Own(trace', t) == Own(trace, t)
  }

  // ------------------------------------------------------------ keeping off what was handed down

  /**
   A task keeps off what it has handed to its children: no operation of a task clashes with a later
   operation from below a child it had submitted before.
   */
  ghost predicate KeepsOff(g: Graph, trace: seq<Deed>)
    requires Rooted(g)
  {
    forall i, j, c: nat :: 0 <= i < j < |trace| && HandedOver(g, trace[i], trace[j], c) ==>
                             !Clashing(trace[i].op, trace[j].op)
  }

  /** Operations that clash come in the serial order. */
  ghost predicate ClashesInOrder(trace: seq<Deed>)
  {
    forall i, j :: 0 <= i < j < |trace| && Out(trace[i], trace[j]) ==> !Clashing(trace[i].op, trace[j].op)
  }

  lemma HandedOverIsOut(ds: seq<Decl>, s: State, trace: seq<Deed>, i: nat, j: nat, c: nat)
    requires WellDeclared(ds) && |s.tasks| <= |ds| && DeedsOk(ds, s, trace) && i < |trace| && j < |trace|
    requires HandedOver(GraphOf(ds), trace[i], trace[j], c)
    ensures Out(trace[i], trace[j])
  {
    var g := GraphOf(ds);
    assert EventOk(g, ds, s, trace[i]) && EventOk(g, ds, s, trace[j]);
    OutAbove(g, trace[i], trace[j], c);
  }

  /** In every state of every run: clashing operations are in the serial order if and only if tasks kept off. */
  lemma KeepsOffIff<S(!new)>(ds: seq<Decl>, code: Bodies, effect: Effect<S>, m0: S, s: System<S>)
    requires WellDeclared(ds) && Good(ds, code, effect, m0, s)
    ensures KeepsOff(GraphOf(ds), s.trace) <==> ClashesInOrder(s.trace)
  {
    KeepsOffInOrder(ds, s.trace);
    InOrderKeepsOff(ds, s.graph, s.trace);
  }

  lemma KeepsOffInOrder(ds: seq<Decl>, trace: seq<Deed>)
    requires WellDeclared(ds) && PairsOk(GraphOf(ds), trace)
    ensures KeepsOff(GraphOf(ds), trace) ==> ClashesInOrder(trace)
  {
    if !ClashesInOrder(trace) {
      var i, j :| 0 <= i < j < |trace| && Out(trace[i], trace[j]) && Clashing(trace[i].op, trace[j].op);
      assert PairOk(GraphOf(ds), trace[i], trace[j]);
    }
  }

  lemma InOrderKeepsOff(ds: seq<Decl>, s: State, trace: seq<Deed>)
    requires WellDeclared(ds) && |s.tasks| <= |ds| && DeedsOk(ds, s, trace)
    ensures ClashesInOrder(trace) ==> KeepsOff(GraphOf(ds), trace)
  {
    forall i, j, c: nat | 0 <= i < j < |trace| && HandedOver(GraphOf(ds), trace[i], trace[j], c)
      ensures ClashesInOrder(trace) ==> !Clashing(trace[i].op, trace[j].op)
    {
      HandedOverIsOut(ds, s, trace, i, j, c);
    }
  }

  /** Nothing a use of `accesses` does clashes with the operation. */
  ghost predicate Avoids(op: Operation, accesses: seq<Access>)
  {
    forall e: Operation :: Declares(accesses, e) ==> !Clashing(op, e)
  }

  /**
   A condition on declarations and bodies alone: whatever answers it got, no operation that a body does
   after submitting a child clashes with what the child declares.
   */
  ghost predicate Careful(ds: seq<Decl>, code: Bodies)
  {
    forall t: nat, h, c: nat {:trigger code.next(t, h), ds[c]} ::
      (&& t < c < |ds| && ds[c].parent == t && Rank(GraphOf(ds), t, c) <= code.spawns(t, h)
       && code.next(t, h).Do?) ==> Avoids(code.next(t, h).op, ds[c].accesses)
  }

  lemma CoveredUse(a: seq<Access>, x: Access, e: Operation)
    requires Covered(a, x) && x.resource == e.resource && Admits(x.policy, e.use)
    ensures Declares(a, e)
  {
    var i :| 0 <= i < |a| && AccessIsSupersetOf(a[i], x);
    SupersetSound(a[i].policy, x.policy, e.use);
  }

  /** What is declared below a task is declared by the task itself, on resources it can see. */
  lemma {:induction false} DeclaredAbove(ds: seq<Decl>, creator: Resource -> int, c: nat, d: nat, e: Operation)
    requires WellDeclared(ds) && WellNested(ds, creator)
    requires c < |ds| && d < |ds| && IsBelow(GraphOf(ds), c, d)
    requires e.resource.scopeLevel <= Depth(GraphOf(ds), c) && Declares(ds[d].accesses, e)
    ensures Declares(ds[c].accesses, e)
    decreases d
  {
    var g := GraphOf(ds);
    if d != c {
      var p := ds[d].parent;
      assert g.parent[d] == p;
      BelowDepth(g, c, p);
      var j :| 0 <= j < |ds[d].accesses| && ds[d].accesses[j].resource == e.resource
               && Admits(ds[d].accesses[j].policy, e.use);
      CoveredUse(ds[p].accesses, ds[d].accesses[j], e);
      DeclaredAbove(ds, creator, c, p, e);
    }
  }

  /** A resource that a task declares was created above it. */
  lemma DeclaredScope(ds: seq<Decl>, creator: Resource -> int, t: nat, op: Operation)
    requires WellDeclared(ds) && WellNested(ds, creator) && t < |ds| && Declares(ds[t].accesses, op)
    ensures op.resource.scopeLevel <= Depth(GraphOf(ds), t)
  {
    var g := GraphOf(ds);
    assert Accesses(ds[t].accesses, op.resource);
    assert CreatedAbove(g, creator(op.resource), t, op.resource);
    if creator(op.resource) >= 0 { BelowDepth(g, creator(op.resource), t); }
  }

  /** Where a deed stands among those of its task. */
  lemma {:induction false} OwnHolds(trace: seq<Deed>, i: nat) returns (k: nat)
    requires i < |trace|
    ensures k < |Own(trace, trace[i].t)| && Own(trace, trace[i].t)[k] == trace[i]
  {
    if i == |trace| - 1 {
      k := |Own(trace, trace[i].t)| - 1;
    } else {
      k := OwnHolds(trace[..|trace| - 1], i);
    }
  }

  /** The condition extends to all that is below a child. */
  ghost predicate AvoidsBelow(ds: seq<Decl>, code: Bodies)
    requires WellDeclared(ds)
  {
    forall t: nat, h, c: nat, d: nat {:trigger code.next(t, h), IsBelow(GraphOf(ds), c, d)} ::
      (&& t < c < |ds| && d < |ds| && ds[c].parent == t && Rank(GraphOf(ds), t, c) <= code.spawns(t, h)
       && code.next(t, h).Do? && IsBelow(GraphOf(ds), c, d)) ==> Avoids(code.next(t, h).op, ds[d].accesses)
  }

  lemma CarefulBelow(ds: seq<Decl>, creator: Resource -> int, code: Bodies)
    requires WellDeclared(ds) && WellNested(ds, creator) && Behaved(ds, code) && Careful(ds, code)
    ensures AvoidsBelow(ds, code)
  {
    var g := GraphOf(ds);
    forall t: nat, h, c: nat, d: nat {:trigger code.next(t, h), IsBelow(g, c, d)} |
      && t < c < |ds| && d < |ds| && ds[c].parent == t && Rank(g, t, c) <= code.spawns(t, h)
      && code.next(t, h).Do? && IsBelow(g, c, d)
      ensures Avoids(code.next(t, h).op, ds[d].accesses)
    {
      assert Avoids(code.next(t, h).op, ds[c].accesses);
      AvoidedBelow(ds, creator, t, code.next(t, h).op, c, d);
    }
  }

  lemma AvoidedBelow(ds: seq<Decl>, creator: Resource -> int, t: nat, op: Operation, c: nat, d: nat)
    requires WellDeclared(ds) && WellNested(ds, creator) && t < c < |ds| && d < |ds| && ds[c].parent == t
    requires IsBelow(GraphOf(ds), c, d) && Declares(ds[t].accesses, op) && Avoids(op, ds[c].accesses)
    ensures Avoids(op, ds[d].accesses)
  {
    DeclaredScope(ds, creator, t, op);
    forall e: Operation | Declares(ds[d].accesses, e) ensures !Clashing(op, e) {
      if Clashing(op, e) { DeclaredAbove(ds, creator, c, d, e); }
    }
  }

  /** What a task had submitted children for when it made a deed. */
  lemma DeedFollows(ds: seq<Decl>, code: Bodies, s: State, trace: seq<Deed>, i: nat) returns (h: seq<int>)
    requires WellDeclared(ds) && |s.tasks| <= |ds| && i < |trace| && trace[i].t < |s.tasks|
    requires TasksOk(GraphOf(ds), code, s, trace)
    ensures code.next(trace[i].t, h) == Do(trace[i].op)
    ensures code.spawns(trace[i].t, h) == Rank(GraphOf(ds), trace[i].t, Mark(trace[i]))
  {
    var own := Own(trace, trace[i].t);
    var k := OwnHolds(trace, i);
    h := Answers(own[..k]);
    assert TaskOk(GraphOf(ds), code, trace[i].t, s.tasks[trace[i].t], own, |s.tasks|);
  }

  lemma HandedOverApart(ds: seq<Decl>, code: Bodies, s: State, trace: seq<Deed>, i: nat, j: nat, c: nat)
    requires WellDeclared(ds) && AvoidsBelow(ds, code) && |s.tasks| <= |ds|
    requires DeedsOk(ds, s, trace) && TasksOk(GraphOf(ds), code, s, trace) && i < |trace| && j < |trace|
    requires HandedOver(GraphOf(ds), trace[i], trace[j], c)
    ensures !Clashing(trace[i].op, trace[j].op)
  {
    var g, f, e := GraphOf(ds), trace[i], trace[j];
    assert EventOk(g, ds, s, f) && EventOk(g, ds, s, e);
    var h := DeedFollows(ds, code, s, trace, i);
    RankTells(g, f.t, c, Mark(f));
    assert g.parent[c] == ds[c].parent;
    assert Avoids(code.next(f.t, h).op, ds[e.t].accesses);
  }

  lemma CarefulKeepsOff(ds: seq<Decl>, code: Bodies, s: State, trace: seq<Deed>)
    requires WellDeclared(ds) && AvoidsBelow(ds, code) && |s.tasks| <= |ds|
    requires DeedsOk(ds, s, trace) && TasksOk(GraphOf(ds), code, s, trace)
    ensures KeepsOff(GraphOf(ds), trace)
  {
    forall i, j, c: nat | 0 <= i < j < |trace| && HandedOver(GraphOf(ds), trace[i], trace[j], c)
      ensures !Clashing(trace[i].op, trace[j].op)
    {
      HandedOverApart(ds, code, s, trace, i, j, c);
    }
  }

  /** Where the condition holds, every task keeps off what it has handed down, in every state of every run. */
  lemma CarefulRuns<S(!new)>(ds: seq<Decl>, creator: Resource -> int, code: Bodies, effect: Effect<S>, m0: S,
                             run: seq<System<S>>, i: nat)
    requires WellDeclared(ds) && WellNested(ds, creator) && Behaved(ds, code) && Careful(ds, code)
    requires SystemRun(GraphOf(ds), code, effect, m0, run) && i < |run|
    ensures KeepsOff(GraphOf(ds), run[i].trace) && ClashesInOrder(run[i].trace)
  {
    GoodRun(ds, creator, code, effect, m0, run, i);
    CarefulBelow(ds, creator, code);
    CarefulKeepsOff(ds, code, run[i].graph, run[i].trace);
    KeepsOffInOrder(ds, run[i].trace);
  }

  // ------------------------------------------------------------ serial equivalence

  /**
   Serial equivalence for the whole task tree: whatever the interleaving, a complete run of tasks that
   do what they declare and avoid the children they have submitted ends in the memory of a serial
   execution, and every task does the same and gets the same answers in both.
   */
  lemma TreeIsSerial<S(!new)>(ds: seq<Decl>, creator: Resource -> int, code: Bodies, effect: Effect<S>, m0: S,
                              run: seq<System<S>>) returns (serial: seq<Deed>)
    requires WellDeclared(ds) && WellNested(ds, creator) && Behaved(ds, code) && Careful(ds, code) && Respects(effect)
    requires SystemRun(GraphOf(ds), code, effect, m0, run) && Complete(GraphOf(ds), run[|run| - 1])
    ensures SerialExecution(GraphOf(ds), code, effect, m0, serial, run[|run| - 1].mem)
    ensures SameForEach(run[|run| - 1].trace, serial)
  {
    GoodRun(ds, creator, code, effect, m0, run, |run| - 1);
    CarefulRuns(ds, creator, code, effect, m0, run, |run| - 1);
    GoodIsSerial(ds, code, effect, m0, run[|run| - 1]);
    serial := Sort(run[|run| - 1].trace);
  }

  /** Tasks of one space have no children to avoid. */
  lemma FlatIsCareful(ds: seq<Decl>, code: Bodies)
    requires forall t :: 0 <= t < |ds| ==> ds[t].parent == -1
    ensures Careful(ds, code)
  {
  }
}
