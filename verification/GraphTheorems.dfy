/** What the task graph guarantees in every state of every run. */
module GraphTheorems {
  import opened Common
  import opened ResourceUsers
  import opened EventGraph
  import opened GraphInvariant
  import opened GraphCore
  import opened GraphLists
  import opened GraphOrder
  import opened GraphRemoval

  lemma InvInitial(g: Graph)
    requires Lawful(g)
    ensures Inv(g, INITIAL)
  {
    assert forall r :: Users(INITIAL, r) == [];
  }

  lemma CoreStep(g: Graph, s: State, step: Step)
    requires Lawful(g) && Core(g, s) && Enabled(g, s, step)
    ensures Core(g, Apply(g, s, step))
  {
    LocalStep(g, s, step);
    FamilyStep(g, s, step);
    ListingStep(g, s, step);
    ExactStep(g, s, step);
  }

  lemma InvStep(g: Graph, s: State, s': State)
    requires Lawful(g) && Inv(g, s) && Next(g, s, s')
    ensures Inv(g, s')
  {
    var step :| Enabled(g, s, step) && s' == Apply(g, s, step);
    CoreStep(g, s, step);
    OrderStep(g, s, step);
    HandoffStep(g, s, step);
    RemovalStep(g, s, step);
  }

  /** The invariant holds in every state of every run. */
  lemma {:induction false} InvRun(g: Graph, run: seq<State>, i: nat)
    requires Lawful(g) && Run(g, run) && i < |run|
    ensures Inv(g, run[i])
  {
    if i == 0 {
      InvInitial(g);
    } else {
      InvRun(g, run, i - 1);
      assert Next(g, run[i - 1], run[i]);
      InvStep(g, run[i - 1], run[i]);
    }
  }

  // ------------------------------------------------------------ order

  /** No task starts while an earlier conflicting task of its space is unfinished. */
  lemma PrunedScanSuffices(g: Graph, run: seq<State>, i: nat, q: nat, t: nat)
    requires Lawful(g) && Run(g, run) && i < |run|
    requires Siblings(g, q, t, |g.parent|) && g.conflict(q, t)
    requires t < |run[i].tasks| && Started(run[i].tasks[t])
    ensures q < |run[i].tasks| && Finished(run[i].tasks[q]) && !run[i].tasks[q].phase.Running?
  {
    InvRun(g, run, i);
    FirstHasFinished(g, run[i], q, t);
  }

  lemma FirstHasFinished(g: Graph, s: State, q: nat, t: nat)
    requires Inv(g, s) && Siblings(g, q, t, |g.parent|) && g.conflict(q, t)
    requires t < |s.tasks| && Started(s.tasks[t])
    ensures q < |s.tasks| && Finished(s.tasks[q]) && !s.tasks[q].phase.Running?
  {
    assert Siblings(g, q, t, |s.tasks|);
    assert LocalOk(g, s.tasks[q], q, |s.tasks|);
  }

  /** `t` is `top` or a descendant of it. */
  predicate IsBelow(g: Graph, top: nat, t: nat)
    requires Rooted(g)
    decreases t
  {
    t == top || (top < t < |g.parent| && g.parent[t] >= 0 && IsBelow(g, top, g.parent[t]))
  }

  lemma {:induction false} StartedAbove(g: Graph, s: State, top: nat, t: nat)
    requires Lawful(g) && Inv(g, s) && t < |s.tasks| && IsBelow(g, top, t) && Started(s.tasks[t])
    ensures top < |s.tasks| && Started(s.tasks[top])
    decreases t
  {
    if t != top { StartedAbove(g, s, top, g.parent[t]); }
  }

  lemma ParentUnfinished(g: Graph, s: State, t: nat)
    requires Inv(g, s) && t < |s.tasks| && g.parent[t] >= 0 && !Finished(s.tasks[t])
    ensures g.parent[t] < |s.tasks| && !Finished(s.tasks[g.parent[t]])
  {
    var p := g.parent[t];
    assert LocalOk(g, s.tasks[t], t, |s.tasks|);
    UndeliveredMember(s.tasks, t, Post(p));
    assert PostEdges(s.tasks[p]) == Undelivered(s.tasks, Post(p));
  }

  /** A finished task has no unfinished descendant. */
  lemma {:induction false} FinishedBelow(g: Graph, s: State, top: nat, t: nat)
    requires Lawful(g) && Inv(g, s) && t < |s.tasks| && IsBelow(g, top, t)
    requires top < |s.tasks| && Finished(s.tasks[top])
    ensures Finished(s.tasks[t])
    decreases t
  {
    if t != top {
      FinishedBelow(g, s, top, g.parent[t]);
      if !Finished(s.tasks[t]) { ParentUnfinished(g, s, t); }
    }
  }

  /** Below conflicting siblings `a0` before `b0`, everything under `a0` ends before anything under `b0` starts. */
  lemma NestedOrder(g: Graph, run: seq<State>, i: nat, a0: nat, b0: nat, a: nat, b: nat)
    requires Lawful(g) && Run(g, run) && i < |run|
    requires Siblings(g, a0, b0, |g.parent|) && g.conflict(a0, b0)
    requires IsBelow(g, a0, a) && IsBelow(g, b0, b)
    requires a < |run[i].tasks| && b < |run[i].tasks| && Started(run[i].tasks[b])
    ensures Finished(run[i].tasks[a])
  {
    InvRun(g, run, i);
    NestedOrderAt(g, run[i], a0, b0, a, b);
  }

  lemma NestedOrderAt(g: Graph, s: State, a0: nat, b0: nat, a: nat, b: nat)
    requires Lawful(g) && Inv(g, s) && Siblings(g, a0, b0, |g.parent|) && g.conflict(a0, b0)
    requires IsBelow(g, a0, a) && IsBelow(g, b0, b)
    requires a < |s.tasks| && b < |s.tasks| && Started(s.tasks[b])
    ensures Finished(s.tasks[a])
  {
    StartedAbove(g, s, b0, b);
    FirstHasFinished(g, s, a0, b0);
    FinishedBelow(g, s, a0, a);
  }

  // ------------------------------------------------------------ counters

  /**
   A pre-event counts its own token, the init guard and every undelivered follower entry, except
   the entry that is pushed but not yet counted. It never drops below 2 during initialisation.
   */
  lemma NoLostNotification(g: Graph, run: seq<State>, i: nat, t: nat)
    requires Lawful(g) && Run(g, run) && i < |run| && t < |run[i].tasks|
    ensures var s, x := run[i], run[i].tasks[t];
            && x.pre == B2i(!Started(x)) + B2i(x.phase.Initing?) + Undelivered(s.tasks, Pre(t))
                        - B2i(x.phase.Initing? && x.phase.scan.Inc?)
            && x.post == B2i(!x.phase.Done?) + x.ext + x.fired + Undelivered(s.tasks, Post(t))
            && (x.phase.Initing? ==> x.pre >= 2)
            && (x.done.Closed? ==> x.followers == [])
  {
    InvRun(g, run, i);
    assert LocalOk(g, run[i].tasks[t], t, |run[i].tasks|);
    if run[i].tasks[t].phase.Initing? { GuardHolds(g, run[i], t); }
  }

  /** A scan only touches tasks that have not begun to notify, so no entry comes too late. */
  lemma ScannedEntryIsLive(g: Graph, run: seq<State>, i: nat, t: nat)
    requires Lawful(g) && Run(g, run) && i < |run| && t < |run[i].tasks|
    requires t < |g.resources| && HasEntry(g, run[i], t)
    ensures var x := run[i].tasks[Entry(g, run[i], t)];
            x.frees == 0 && !x.done.Notifying? && !x.done.Closed?
  {
    InvRun(g, run, i);
    EntryIsLive(g, run[i], t);
  }

  lemma EntryIsLive(g: Graph, s: State, t: nat)
    requires Inv(g, s) && t < |s.tasks| && t < |g.resources| && HasEntry(g, s, t)
    ensures var x := s.tasks[Entry(g, s, t)];
            x.frees == 0 && !x.done.Notifying? && !x.done.Closed?
  {
    var p := Entry(g, s, t);
    var r := ScanResource(g, s.tasks[t], t);
    assert p in Users(s, r);
    assert Listed(g, s.tasks[p], p, r);
    assert RemovalOk(s.tasks[p]);
  }

  /** The target of an entry about to be delivered is not freed. */
  lemma PoppedIsLive(g: Graph, s: State, t: nat)
    requires Inv(g, s) && CanDeliver(g, s, t)
    ensures s.tasks[s.tasks[t].followers[|s.tasks[t].followers| - 1].t].frees == 0
  {
    var e := PoppedEntry(g, s, t);
    var x := s.tasks[e.t];
    assert LocalOk(g, x, e.t, |s.tasks|) && HandoffOk(x) && RemovalOk(x);
    assert if e.Pre? then PreEdges(x) == Undelivered(s.tasks, e) else PostEdges(x) == Undelivered(s.tasks, e);
  }

  /** A task with nothing left to do. */
  predicate Still(x: Task)
  {
    x.phase.Done? && x.ext == 0 && x.fired == 0 && x.done.Closed? && x.result.Counted?
  }

  lemma FreedIsStill(g: Graph, s: State, t: nat)
    requires Inv(g, s) && t < |s.tasks| && s.tasks[t].frees != 0
    ensures Still(s.tasks[t])
  {
    assert LocalOk(g, s.tasks[t], t, |s.tasks|) && RemovalOk(s.tasks[t]);
    assert PostEdges(s.tasks[t]) == Undelivered(s.tasks, Post(t));
  }

  lemma StillTakesNoStep(g: Graph, s: State, step: Step)
    requires !step.Submit? && step.t < |s.tasks| && Still(s.tasks[step.t])
    ensures !Enabled(g, s, step)
  {
  }

  lemma OwnTaskIsLive(g: Graph, s: State, step: Step)
    requires Inv(g, s) && Enabled(g, s, step) && !step.Submit?
    ensures s.tasks[step.t].frees == 0
  {
    if s.tasks[step.t].frees != 0 {
      FreedIsStill(g, s, step.t);
      StillTakesNoStep(g, s, step);
    }
  }

  lemma ParentIsLive(g: Graph, s: State)
    requires Inv(g, s) && CanSubmit(g, s) && g.parent[|s.tasks|] >= 0
    ensures s.tasks[g.parent[|s.tasks|]].frees == 0
  {
    if s.tasks[g.parent[|s.tasks|]].frees != 0 { FreedIsStill(g, s, g.parent[|s.tasks|]); }
  }

  predicate TouchesLive(g: Graph, s: State, step: Step)
    requires Enabled(g, s, step)
  {
    if step.Submit? then g.parent[|s.tasks|] >= 0 ==> s.tasks[g.parent[|s.tasks|]].frees == 0
    else
      && s.tasks[step.t].frees == 0
      && (step.Deliver? ==> s.tasks[s.tasks[step.t].followers[|s.tasks[step.t].followers| - 1].t].frees == 0)
      && (step.t < |g.resources| && HasEntry(g, s, step.t) ==> s.tasks[Entry(g, s, step.t)].frees == 0)
  }

  /**
   No step touches a freed task: neither the task that takes it, nor the one that is submitted into,
   nor the predecessor a scan stands at, nor the one whose event a notifier decrements.
   */
  lemma StepsTouchLiveTasks(g: Graph, run: seq<State>, i: nat, step: Step)
    requires Lawful(g) && Run(g, run) && i < |run| && Enabled(g, run[i], step)
    ensures TouchesLive(g, run[i], step)
  {
    InvRun(g, run, i);
    if step.Submit? { SubmitTouchesLive(g, run[i]); } else { TaskTouchesLive(g, run[i], step); }
  }

  lemma SubmitTouchesLive(g: Graph, s: State)
    requires Inv(g, s) && CanSubmit(g, s)
    ensures TouchesLive(g, s, Submit)
  {
    if g.parent[|s.tasks|] >= 0 { ParentIsLive(g, s); }
  }

  lemma TaskTouchesLive(g: Graph, s: State, step: Step)
    requires Inv(g, s) && Enabled(g, s, step) && !step.Submit?
    ensures TouchesLive(g, s, step)
  {
    OwnTaskIsLive(g, s, step);
    if step.Deliver? { PoppedIsLive(g, s, step.t); }
    if step.t < |g.resources| && HasEntry(g, s, step.t) { EntryIsLive(g, s, step.t); }
  }

  // ------------------------------------------------------------ hand-off

  /** A task is handed to a worker once, by its initialiser or by its last predecessor. */
  lemma HandedOffOnce(g: Graph, run: seq<State>, i: nat, t: nat)
    requires Lawful(g) && Run(g, run) && i < |run| && t < |run[i].tasks|
    ensures var s, x := run[i], run[i].tasks[t];
            && (x.claims, x.activations) in {(0, 0), (1, 0), (0, 1)}
            && (x.claims + x.activations == 1 <==>
                (Started(x) || x.phase.Waiting?) && Undelivered(s.tasks, Pre(t)) == 0)
  {
    InvRun(g, run, i);
    var x := run[i].tasks[t];
    assert HandoffOk(x);
    HandoffWhen(x, Undelivered(run[i].tasks, Pre(t)));
  }

  lemma HandoffWhen(x: Task, entries: nat)
    requires HandoffOk(x) && PreEdges(x) == entries
    ensures (x.claims, x.activations) in {(0, 0), (1, 0), (0, 1)}
    ensures x.claims + x.activations == 1 <==> (Started(x) || x.phase.Waiting?) && entries == 0
  {
  }

  // ------------------------------------------------------------ removal and barrier

  /** A task is freed at most once, and only when its post-event and its result-get event are reached. */
  lemma FreedOnce(g: Graph, run: seq<State>, i: nat, t: nat)
    requires Lawful(g) && Run(g, run) && i < |run| && t < |run[i].tasks|
    ensures var x := run[i].tasks[t];
            && x.frees <= 1
            && (x.frees == 1 <==> x.done.Closed? && x.result.Counted?)
            && (x.frees == 1 ==> Finished(x) && x.followers == [])
  {
    InvRun(g, run, i);
    assert RemovalOk(run[i].tasks[t]);
    assert LocalOk(g, run[i].tasks[t], t, |run[i].tasks|);
  }

  /** The root space counts the root tasks submitted and not yet freed. */
  lemma RootCountExact(g: Graph, run: seq<State>, i: nat)
    requires Lawful(g) && Run(g, run) && i < |run|
    ensures |run[i].tasks| <= |g.parent| && run[i].rootCount == Alive(g, run[i].tasks, -1)
  {
    InvRun(g, run, i);
  }

  function Root(g: Graph, t: nat): (r: nat)
    requires Rooted(g)
    requires t < |g.parent|
    ensures Root(g, t) < |g.parent| && g.parent[Root(g, t)] == -1 && IsBelow(g, Root(g, t), t)
    decreases t
  {
    if g.parent[t] < 0 then t else BelowParent(g, g.parent[t], t); Root(g, g.parent[t])
  }

  lemma BelowParent(g: Graph, p: nat, t: nat)
    requires Rooted(g)
    requires t < |g.parent| && g.parent[t] == p
    ensures forall top :: IsBelow(g, top, p) ==> IsBelow(g, top, t)
  {
    forall top | IsBelow(g, top, p) ensures IsBelow(g, top, t) { BelowBound(g, top, p); }
  }

  lemma BelowBound(g: Graph, top: nat, t: nat)
    requires Rooted(g)
    requires IsBelow(g, top, t)
    ensures top <= t
  {
  }

  /** When the root space is empty, every submitted task at every depth has finished. */
  lemma BarrierWaitsForAll(g: Graph, run: seq<State>, i: nat)
    requires Lawful(g) && Run(g, run) && i < |run| && run[i].rootCount == 0
    ensures forall t :: 0 <= t < |run[i].tasks| ==> Finished(run[i].tasks[t])
  {
    InvRun(g, run, i);
    var s := run[i];
    forall t | 0 <= t < |s.tasks| ensures Finished(s.tasks[t]) {
      var top := Root(g, t);
      BelowBound(g, top, t);
      AmongZero(g, s.tasks, |s.tasks|, -1, top);
      assert RemovalOk(s.tasks[top]);
      assert LocalOk(g, s.tasks[top], top, |s.tasks|);
      FinishedBelow(g, s, top, t);
    }
  }

  // ------------------------------------------------------------ progress

  function Depth(g: Graph, t: nat): (r: nat)
    requires Rooted(g)
    requires t < |g.parent|
    ensures Depth(g, t) <= t
    decreases t
  {
    if g.parent[t] < 0 then 0 else 1 + Depth(g, g.parent[t])
  }

  /** Steps the runtime takes by itself, given that bodies return: no submission, no outside event. */
  predicate Internal(step: Step)
  {
    !step.Submit? && !step.MakeEvent? && !step.FireEvent? && !step.TakeResult? && !step.CountResult?
  }

  /** What to do next with the entry a scan stands at. */
  function NextOfScan(scan: Scan, t: nat): (step: Step)
    requires !scan.Idle?
    ensures Internal(step) && !step.Close?
  {
    match scan
    case At(_) => Look(t)
    case Dep(_) => Recheck(t)
    case Push(_) => AddFollower(t)
    case Inc(_) => Raise(t)
  }

  /** A holder of a resource lock can always go on. */
  lemma HolderMoves(g: Graph, s: State, t: nat) returns (step: Step)
    requires Lawful(g) && Inv(g, s) && t < |s.tasks| && Scanning(s.tasks[t])
    ensures step == NextOfScan(s.tasks[t].phase.scan, t) && Enabled(g, s, step)
  {
    HolderStands(g, s, t);
    step := NextOfScan(s.tasks[t].phase.scan, t);
    ScanGoesOn(g, s, t);
  }

  lemma HolderStands(g: Graph, s: State, t: nat)
    requires Lawful(g) && Local(g, s) && Listing(g, s) && t < |s.tasks| && Scanning(s.tasks[t])
    ensures WellSized(g, s) && s.tasks[t].phase.k < |g.resources[t]|
    ensures s.tasks[t].phase.scan.n > 0 ==> HasEntry(g, s, t)
    ensures s.tasks[t].phase.scan.At? || s.tasks[t].phase.scan.n > 0
  {
    assert LocalOk(g, s.tasks[t], t, |s.tasks|);
    assert ScanOk(g, s, t);
    if s.tasks[t].phase.scan.n > 0 { OwnEntryAbove(g, s, t, s.tasks[t].phase.scan.n - 1); }
  }

  lemma ScanGoesOn(g: Graph, s: State, t: nat)
    requires WellSized(g, s) && t < |s.tasks| && Scanning(s.tasks[t]) && s.tasks[t].phase.k < |g.resources[t]|
    requires s.tasks[t].phase.scan.n > 0 ==> HasEntry(g, s, t)
    requires s.tasks[t].phase.scan.At? || s.tasks[t].phase.scan.n > 0
    ensures Enabled(g, s, NextOfScan(s.tasks[t].phase.scan, t))
  {
  }

  /** A task whose post-event is reached moves on to its removal, or waits for a lock whose holder moves. */
  lemma FinishedMoves(g: Graph, s: State, t: nat) returns (step: Step)
    requires Lawful(g) && Inv(g, s) && t < |s.tasks| && Finished(s.tasks[t]) && !s.tasks[t].done.Closed?
    ensures Internal(step) && Enabled(g, s, step)
    ensures step.Close? ==> step.t == t && s.tasks[t].followers == []
  {
    assert LocalOk(g, s.tasks[t], t, |s.tasks|);
    match s.tasks[t].done
    case Removing(k) =>
      if k == |g.resources[t]| {
        step := BeginNotify(t);
      } else if g.resources[t][k] !in s.locks {
        step := Unlist(t);
      } else {
        step := HolderMoves(g, s, s.locks[g.resources[t][k]]);
      }
    case Notifying =>
      if s.tasks[t].followers == [] {
        step := Close(t);
      } else {
        EntryOk(g, s, t, s.tasks[t].followers[|s.tasks[t].followers| - 1]);
        step := Deliver(t);
      }
  }

  lemma SubmittingMoves(g: Graph, s: State, t: nat) returns (step: Step)
    requires Lawful(g) && Inv(g, s) && t < |s.tasks| && s.tasks[t].phase.Submitting?
    ensures Internal(step) && Enabled(g, s, step) && !step.Close?
  {
    assert LocalOk(g, s.tasks[t], t, |s.tasks|);
    step := if s.tasks[t].phase.k == |g.resources[t]| then Emplace(t) else PushUser(t);
  }

  lemma InitialiserMoves(g: Graph, s: State, t: nat) returns (step: Step)
    requires Lawful(g) && Inv(g, s) && t < |s.tasks| && s.tasks[t].phase.Initing?
    ensures Internal(step) && Enabled(g, s, step) && !step.Close?
  {
    assert LocalOk(g, s.tasks[t], t, |s.tasks|);
    if Scanning(s.tasks[t]) {
      step := HolderMoves(g, s, t);
    } else if s.tasks[t].phase.k == |g.resources[t]| {
      step := InitEnd(t);
    } else if ScanResource(g, s.tasks[t], t) !in s.locks {
      step := Lock(t);
    } else {
      step := HolderMoves(g, s, s.locks[ScanResource(g, s.tasks[t], t)]);
    }
  }

  /** A task that is ready to start waits for a sibling with an entry for it, which comes before it. */
  lemma SiblingAwaited(g: Graph, s: State, t: nat) returns (p: nat)
    requires Inv(g, s) && t < |s.tasks| && s.tasks[t].phase.Waiting? && s.tasks[t].pre != 1
    ensures p < t && p < |s.tasks| && g.parent[p] == g.parent[t] && s.tasks[p].followers != []
    ensures !s.tasks[p].done.Closed?
  {
    assert HandoffOk(s.tasks[t]) && PreEdges(s.tasks[t]) == Undelivered(s.tasks, Pre(t));
    GuardOrEntry(g, s, t);
    p := UndeliveredWitness(s.tasks, Pre(t));
    EntryOk(g, s, p, Pre(t));
    assert LocalOk(g, s.tasks[p], p, |s.tasks|);
  }

  lemma GuardOrEntry(g: Graph, s: State, t: nat)
    requires Exact(s) && t < |s.tasks| && s.tasks[t].phase.Waiting? && s.tasks[t].pre != 1
    ensures Undelivered(s.tasks, Pre(t)) >= 1
  {
    assert PreEdges(s.tasks[t]) == Undelivered(s.tasks, Pre(t));
  }

  /** A task whose body has returned without finishing waits for a child, or for an external event. */
  lemma ChildAwaited(g: Graph, s: State, t: nat) returns (c: nat)
    requires Inv(g, s) && t < |s.tasks| && s.tasks[t].phase.Done? && !Finished(s.tasks[t])
    requires s.tasks[t].ext == 0 == s.tasks[t].fired
    ensures c < |s.tasks| && g.parent[c] == t && s.tasks[c].followers != [] && !s.tasks[c].done.Closed?
  {
    assert LocalOk(g, s.tasks[t], t, |s.tasks|);
    assert PostEdges(s.tasks[t]) == Undelivered(s.tasks, Post(t));
    c := UndeliveredWitness(s.tasks, Post(t));
    EntryOk(g, s, c, Post(t));
    assert LocalOk(g, s.tasks[c], c, |s.tasks|);
  }

  /** A running task returns unless one of its children is still being submitted. */
  lemma RunningMoves(g: Graph, s: State, t: nat) returns (step: Step)
    requires Lawful(g) && Inv(g, s) && t < |s.tasks| && s.tasks[t].phase.Running?
    ensures Internal(step) && Enabled(g, s, step) && !step.Close?
  {
    if NoneSubmitting(g, s, t) {
      step := Finish(t);
    } else {
      var c :| 0 <= c < |s.tasks| && g.parent[c] == t && s.tasks[c].phase.Submitting?;
      step := SubmittingMoves(g, s, c);
    }
  }

  /** A task that waits for no other task can take a step. */
  predicate Awaits(x: Task)
  {
    (x.phase.Waiting? && x.pre != 1) || (x.phase.Done? && !Finished(x) && x.fired == 0)
  }

  lemma OwnMove(g: Graph, s: State, t: nat) returns (step: Step)
    requires Lawful(g) && Inv(g, s) && t < |s.tasks| && !s.tasks[t].done.Closed? && !Awaits(s.tasks[t])
    ensures Internal(step) && Enabled(g, s, step)
    ensures step.Close? ==> step.t == t && s.tasks[t].followers == []
  {
    var x := s.tasks[t];
    if Finished(x) {
      step := FinishedMoves(g, s, t);
    } else {
      match x.phase
      case Submitting(_) => step := SubmittingMoves(g, s, t);
      case Emplaced => step := InitBegin(t);
      case Initing(_, _) => step := InitialiserMoves(g, s, t);
      case Running => step := RunningMoves(g, s, t);
      case Waiting => assert HandoffOk(x); step := Start(t);
      case Done => step := DeliverEvent(t);
    }
  }

  /**
   Follow an unfinished task to what holds it up: an earlier sibling, or a child. The search goes
   deeper or further back in a space, so it ends at a task that can take a step.
   */
  lemma {:induction false} Unblocked(g: Graph, s: State, t: nat) returns (step: Step)
    requires Lawful(g) && Inv(g, s) && t < |s.tasks| && !s.tasks[t].done.Closed?
    requires forall u :: 0 <= u < |s.tasks| ==> s.tasks[u].ext == 0
    ensures Internal(step) && Enabled(g, s, step)
    ensures step.Close? ==> step.t == t && s.tasks[t].followers == []
    decreases |g.parent| - Depth(g, t), t
  {
    if !Awaits(s.tasks[t]) {
      step := OwnMove(g, s, t);
    } else if s.tasks[t].phase.Waiting? {
      var p := SiblingAwaited(g, s, t);
      step := Unblocked(g, s, p);
    } else {
      var c := ChildAwaited(g, s, t);
      step := Unblocked(g, s, c);
    }
  }

  /** While a task is unfinished, some step is possible or an external event is outstanding. */
  lemma NeverStuck(g: Graph, run: seq<State>, i: nat, t: nat)
    requires Lawful(g) && Run(g, run) && i < |run| && t < |run[i].tasks|
    requires !run[i].tasks[t].done.Closed?
    ensures || (exists u :: 0 <= u < |run[i].tasks| && run[i].tasks[u].ext > 0)
            || (exists step :: Internal(step) && Enabled(g, run[i], step))
  {
    InvRun(g, run, i);
    if forall u :: 0 <= u < |run[i].tasks| ==> run[i].tasks[u].ext == 0 {
      var step := Unblocked(g, run[i], t);
    }
  }

  // ------------------------------------------------------------ the barrier returns

  lemma {:induction false} AmongAllFreed(g: Graph, ts: seq<Task>, n: nat, space: int)
    requires n <= |ts| <= |g.parent| && forall t :: 0 <= t < n && g.parent[t] == space ==> ts[t].frees != 0
    ensures AliveAmong(g, ts, n, space) == 0
  {
    if n > 0 { AmongAllFreed(g, ts, n - 1, space); }
  }

  /** Both parties of the removal countdown have arrived. */
  predicate Gone(x: Task) { x.done.Closed? && x.result.Counted? }

  /** The barrier sees an empty root space exactly when every root task has notified and its result is taken. */
  lemma BarrierReturnsIff(g: Graph, run: seq<State>, i: nat)
    requires Lawful(g) && Run(g, run) && i < |run|
    ensures |run[i].tasks| <= |g.parent|
    ensures run[i].rootCount == 0 <==> forall t :: 0 <= t < |run[i].tasks| && g.parent[t] == -1 ==>
            Gone(run[i].tasks[t])
  {
    RootCountExact(g, run, i);
    var ts := run[i].tasks;
    forall t | 0 <= t < |ts| ensures ts[t].frees == 1 <==> Gone(ts[t]) { FreedOnce(g, run, i, t); }
    if run[i].rootCount == 0 {
      forall t | 0 <= t < |ts| && g.parent[t] == -1 ensures Gone(ts[t]) {
        AmongZero(g, ts, |ts|, -1, t);
        FreedOnce(g, run, i, t);
      }
    } else if forall t :: 0 <= t < |ts| && g.parent[t] == -1 ==> Gone(ts[t]) {
      AmongAllFreed(g, ts, |ts|, -1);
    }
  }

  /**
   When nothing can move any more, no external event is outstanding and all results were taken, every
   task has been freed exactly once and every space, the root space included, is empty.
   */
  lemma AllFreedInTheEnd(g: Graph, run: seq<State>)
    requires Lawful(g) && Run(g, run)
    requires var last := run[|run| - 1];
             && (forall step :: Internal(step) || step.CountResult? ==> !Enabled(g, last, step))
             && (forall u :: 0 <= u < |last.tasks| ==> last.tasks[u].ext == 0 && !last.tasks[u].result.Untaken?)
    ensures var last := run[|run| - 1];
            && last.rootCount == 0
            && forall t :: 0 <= t < |last.tasks| ==> last.tasks[t].frees == 1 && last.tasks[t].children == 0
  {
    var i := |run| - 1;
    var ts := run[i].tasks;
    InvRun(g, run, i);
    forall t | 0 <= t < |ts| ensures Gone(ts[t]) {
      if !ts[t].done.Closed? { var step := Unblocked(g, run[i], t); }
      assert !Enabled(g, run[i], CountResult(t));
    }
    BarrierReturnsIff(g, run, i);
    forall t | 0 <= t < |ts| ensures ts[t].frees == 1 && ts[t].children == 0 {
      FreedOnce(g, run, i, t);
      forall u | 0 <= u < |ts| ensures ts[u].frees != 0 { FreedOnce(g, run, i, u); }
      AmongAllFreed(g, ts, |ts|, t);
      assert ts[t].children == Alive(g, ts, t);
    }
  }
}
