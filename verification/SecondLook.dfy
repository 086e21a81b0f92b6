/**
 A notifier decrements the counter of an event and then looks at the event once more, unless it left
 more than 1. Whether the task can be freed before that look depends on what was left.
 */
module SecondLook {
  import opened Common
  import opened EventGraph
  import opened GraphInvariant
  import opened GraphCore
  import opened GraphLists
  import opened GraphRemoval
  import opened GraphTheorems
  import opened GraphProgress

  /** Steps that take one from the post-event of `p`. */
  predicate Decrements(s: State, step: Step, p: nat)
  {
    match step
    case Deliver(c) => c < |s.tasks| && s.tasks[c].followers != []
                       && s.tasks[c].followers[|s.tasks[c].followers| - 1] == Post(p)
    case DeliverEvent(t) => t == p
    case Finish(t) => t == p
    case _ => false
  }

  /**
   What the thread that took step `first` goes on with: notifying the followers of the task it was
   at, and after leaving the post-event of `p` at 0 all the rest of `p`.
   */
  predicate OfNotifier(first: Step, p: nat, left: int, step: Step)
  {
    || (first.Deliver? && (step == Deliver(first.t) || step == Close(first.t)))
    || (left == 0 && (step == Unlist(p) || step == BeginNotify(p) || step == Deliver(p) || step == Close(p)))
  }

  ghost predicate OtherStep(g: Graph, first: Step, p: nat, left: int, s: State, s': State)
  {
    exists step :: Enabled(g, s, step) && s' == Apply(g, s, step) && !OfNotifier(first, p, left, step)
  }

  ghost predicate OtherAt(g: Graph, first: Step, p: nat, left: int, path: seq<State>, i: nat)
    requires i < |path| - 1
  {
    OtherStep(g, first, p, left, path[i], path[i + 1])
  }

  /** A stretch of steps of other threads. */
  ghost predicate Meanwhile(g: Graph, first: Step, p: nat, left: int, path: seq<State>)
  {
    |path| > 0 && forall i: nat {:trigger OtherAt(g, first, p, left, path, i)} ::
                    i < |path| - 1 ==> OtherAt(g, first, p, left, path, i)
  }

  predicate Freed(s: State, p: nat) { p < |s.tasks| && s.tasks[p].frees > 0 }

  /** The notifier looks at the event again although the task can be freed by then. */
  ghost predicate LooksTooLate(g: Graph, s: State, first: Step, p: nat)
    requires Enabled(g, s, first) && p < |Apply(g, s, first).tasks|
  {
    var s1 := Apply(g, s, first);
    var left := s1.tasks[p].post;
    left <= 1 && exists path :: Meanwhile(g, first, p, left, path) && path[0] == s1 && Freed(path[|path| - 1], p)
  }

  // ------------------------------------------------------------ left at 0

  lemma OwnStaysUnclosed(g: Graph, s: State, step: Step)
    requires Enabled(g, s, step) && OwnStep(step) && !s.tasks[step.t].done.Closed?
    ensures !Apply(g, s, step).tasks[step.t].done.Closed?
  {
  }

  /** Nobody but its notifier closes a task. */
  lemma StaysUnclosed(g: Graph, s: State, step: Step, p: nat)
    requires Core(g, s) && Enabled(g, s, step) && step != Close(p) && p < |s.tasks| && !s.tasks[p].done.Closed?
    ensures p < |Apply(g, s, step).tasks| && !Apply(g, s, step).tasks[p].done.Closed?
  {
    if OwnStep(step) {
      OwnShape(g, s, step);
      if step.t == p { OwnStaysUnclosed(g, s, step); }
    } else if ScanStep(step) {
      ScanShape(g, s, step);
      ScanKeepsPost(g, s, Apply(g, s, step), step.t, step.Raise?, p);
    } else {
      OtherStaysUnclosed(g, s, step, p);
    }
  }

  lemma OtherStaysUnclosed(g: Graph, s: State, step: Step, p: nat)
    requires Local(g, s) && Family(g, s) && Listing(g, s) && Enabled(g, s, step) && !OwnStep(step) && !ScanStep(step)
    requires step != Close(p) && p < |s.tasks| && !s.tasks[p].done.Closed?
    ensures p < |Apply(g, s, step).tasks| && !Apply(g, s, step).tasks[p].done.Closed?
  {
    match step
    case Submit => SubmitKeepsPost(g, s, p);
    case AddFollower(t) => AddFollowerKeepsDone(g, s, t);
    case Deliver(t) => DeliverKeepsUnclosed(g, s, t, p);
    case Close(t) => CloseKeepsOthers(g, s, t, p);
    case CountResult(t) => CountResultKeepsPost(g, s, t, p);
  }

  lemma ScanKeepsPost(g: Graph, s: State, s': State, t: nat, raised: bool, p: nat)
    requires ScanShaped(g, s, s', t, raised) && p < |s.tasks|
    ensures p < |s'.tasks| && s'.tasks[p].done == s.tasks[p].done && s'.tasks[p].followers == s.tasks[p].followers
  {
  }

  lemma SubmitKeepsPost(g: Graph, s: State, p: nat)
    requires CanSubmit(g, s) && p < |s.tasks|
    ensures p < |DoSubmit(g, s).tasks|
    ensures DoSubmit(g, s).tasks[p].done == s.tasks[p].done
    ensures DoSubmit(g, s).tasks[p].followers == s.tasks[p].followers
  {
  }

  lemma CloseKeepsOthers(g: Graph, s: State, t: nat, p: nat)
    requires Family(g, s) && CanClose(g, s, t) && p < |s.tasks| && t != p
    ensures p < |DoClose(g, s, t).tasks|
    ensures DoClose(g, s, t).tasks[p].done == s.tasks[p].done
    ensures DoClose(g, s, t).tasks[p].followers == s.tasks[p].followers
  {
    CloseShape(g, s, t);
    assert SameTask(s.tasks[p], DoClose(g, s, t).tasks[p]);
  }

  lemma CountResultKeepsPost(g: Graph, s: State, t: nat, p: nat)
    requires Family(g, s) && CanCountResult(g, s, t) && p < |s.tasks|
    ensures p < |DoCountResult(g, s, t).tasks|
    ensures DoCountResult(g, s, t).tasks[p].done == s.tasks[p].done
    ensures DoCountResult(g, s, t).tasks[p].followers == s.tasks[p].followers
  {
    ArriveShape(g, s.(tasks := s.tasks[t := s.tasks[t].(result := Counted)]), t);
  }

  lemma AddFollowerKeepsDone(g: Graph, s: State, t: nat)
    requires Listing(g, s) && CanAddFollower(g, s, t)
    ensures |DoAddFollower(g, s, t).tasks| == |s.tasks|
    ensures forall u :: 0 <= u < |s.tasks| ==> DoAddFollower(g, s, t).tasks[u].done == s.tasks[u].done
  {
    EntryFacts(g, s, t);
  }

  lemma DeliverKeepsUnclosed(g: Graph, s: State, t: nat, p: nat)
    requires Local(g, s) && Family(g, s) && CanDeliver(g, s, t) && p < |s.tasks| && !s.tasks[p].done.Closed?
    ensures p < |DoDeliver(g, s, t).tasks| && !DoDeliver(g, s, t).tasks[p].done.Closed?
  {
    var e := PoppedEntry(g, s, t);
  }

  lemma MeanwhileAt(g: Graph, first: Step, p: nat, left: int, path: seq<State>, i: nat)
    requires Meanwhile(g, first, p, left, path) && i < |path| - 1
    ensures OtherStep(g, first, p, left, path[i], path[i + 1])
  {
    assert OtherAt(g, first, p, left, path, i);
  }

  ghost predicate Unclosed(g: Graph, s: State, p: nat)
    ensures Unclosed(g, s, p) ==> !Freed(s, p)
  {
    Inv(g, s) && p < |s.tasks| && !s.tasks[p].done.Closed?
  }

  lemma OtherStepKeeps(g: Graph, first: Step, p: nat, s: State, s': State)
    requires Lawful(g) && Inv(g, s) && OtherStep(g, first, p, 0, s, s') && p < |s.tasks| && !s.tasks[p].done.Closed?
    ensures Inv(g, s') && p < |s'.tasks| && !s'.tasks[p].done.Closed?
  {
    var step :| Enabled(g, s, step) && s' == Apply(g, s, step) && !OfNotifier(first, p, 0, step);
    assert Next(g, s, s');
    InvStep(g, s, s');
    StaysUnclosed(g, s, step, p);
  }

  ghost function OtherSteps(g: Graph, first: Step, p: nat, left: int): (rel: (State, State) -> bool)
  {
    (s, s') => OtherStep(g, first, p, left, s, s')
  }

  ghost function UnclosedIn(g: Graph, p: nat): (keeps: State -> bool)
  {
    s => Unclosed(g, s, p)
  }

  lemma OthersPreserve(g: Graph, first: Step, p: nat)
    requires Lawful(g)
    ensures Preserves(OtherSteps(g, first, p, 0), UnclosedIn(g, p))
  {
    forall s, s' | OtherStep(g, first, p, 0, s, s') && Unclosed(g, s, p) ensures Unclosed(g, s', p) {
      OtherStepKeeps(g, first, p, s, s');
    }
  }

  lemma MeanwhileRelates(g: Graph, first: Step, p: nat, left: int, path: seq<State>, i: nat)
    requires Meanwhile(g, first, p, left, path) && i < |path| - 1
    ensures RelatedAt(OtherSteps(g, first, p, left), path, i)
  {
    assert OtherAt(g, first, p, left, path, i);
  }

  /** While the notifier that left 0 has not gone on to close the task, the task is not freed. */
  lemma SafeAtZero(g: Graph, first: Step, p: nat, path: seq<State>)
    requires Lawful(g) && Meanwhile(g, first, p, 0, path) && Unclosed(g, path[0], p)
    ensures !Freed(path[|path| - 1], p)
  {
    OthersPreserve(g, first, p);
    forall i: nat | i < |path| - 1 ensures RelatedAt(OtherSteps(g, first, p, 0), path, i) {
      MeanwhileRelates(g, first, p, 0, path, i);
    }
    KeptAlong(OtherSteps(g, first, p, 0), UnclosedIn(g, p), path, |path| - 1);
  }

  // ------------------------------------------------------------ left at 1

  /** A task that has notified all its followers and is about to count down. */
  predicate Quiet(s: State, c: nat)
  {
    c < |s.tasks| && s.tasks[c].done.Notifying? && s.tasks[c].followers == []
  }

  lemma OwnStaysQuiet(g: Graph, s: State, step: Step, c: nat)
    requires Local(g, s) && Exact(s) && Enabled(g, s, step) && OwnStep(step) && Quiet(s, c)
    ensures Quiet(Apply(g, s, step), c)
  {
    OwnShape(g, s, step);
    if step.t == c {
      assert LocalOk(g, s.tasks[c], c, |s.tasks|);
      assert PostEdges(s.tasks[c]) == Undelivered(s.tasks, Post(c));
    }
  }

  lemma DeliverStaysQuiet(g: Graph, s: State, t: nat, c: nat)
    requires Local(g, s) && Family(g, s) && Exact(s) && CanDeliver(g, s, t) && Quiet(s, c)
    ensures Quiet(DoDeliver(g, s, t), c)
  {
    var e := PoppedEntry(g, s, t);
    assert LocalOk(g, s.tasks[c], c, |s.tasks|);
    PostIsCounted(s, e);
    DeliverSparesQuiet(g, s, t, c, e);
  }

  lemma DeliverSparesQuiet(g: Graph, s: State, t: nat, c: nat, e: Event)
    requires CanDeliver(g, s, t) && e == s.tasks[t].followers[|s.tasks[t].followers| - 1] && e.t != t && Quiet(s, c)
    requires e != Post(c)
    ensures Quiet(DoDeliver(g, s, t), c)
  {
  }

  lemma AddFollowerStaysQuiet(g: Graph, s: State, t: nat, c: nat)
    requires Inv(g, s) && CanAddFollower(g, s, t) && Quiet(s, c)
    ensures Quiet(DoAddFollower(g, s, t), c)
  {
    EntryFacts(g, s, t);
    EntryIsLive(g, s, t);
  }

  /** It stays like that until it counts down. */
  lemma StaysQuiet(g: Graph, s: State, step: Step, c: nat)
    requires Inv(g, s) && Enabled(g, s, step) && step != Close(c) && Quiet(s, c)
    ensures Quiet(Apply(g, s, step), c)
  {
    if OwnStep(step) {
      OwnStaysQuiet(g, s, step, c);
    } else if ScanStep(step) {
      ScanShape(g, s, step);
      ScanKeepsPost(g, s, Apply(g, s, step), step.t, step.Raise?, c);
    } else {
      OtherStaysQuiet(g, s, step, c);
    }
  }

  lemma OtherStaysQuiet(g: Graph, s: State, step: Step, c: nat)
    requires Inv(g, s) && Enabled(g, s, step) && !OwnStep(step) && !ScanStep(step) && step != Close(c) && Quiet(s, c)
    ensures Quiet(Apply(g, s, step), c)
  {
    match step
    case Submit => SubmitKeepsPost(g, s, c);
    case AddFollower(t) => AddFollowerStaysQuiet(g, s, t, c);
    case Deliver(t) => DeliverStaysQuiet(g, s, t, c);
    case Close(t) => CloseKeepsOthers(g, s, t, c);
    case CountResult(t) => CountResultKeepsPost(g, s, t, c);
  }

  /** Where others can take over from step `first`. */
  predicate LeftAlone(s: State, first: Step, p: nat)
  {
    p < |s.tasks| && (first.Deliver? ==> first.t != p && Quiet(s, first.t))
  }

  /** A step of others that brings `p` nearer to being freed. */
  lemma OthersMove(g: Graph, s: State, first: Step, p: nat) returns (step: Step)
    requires Lawful(g) && Inv(g, s) && LeftAlone(s, first, p) && !Gone(s.tasks[p])
    ensures Enabled(g, s, step) && Consuming(step) && !OfNotifier(first, p, 1, step)
    ensures first.Deliver? ==> step != Close(first.t)
  {
    if u :| 0 <= u < |s.tasks| && s.tasks[u].ext > 0 {
      step := FireEvent(u);
      HolderSized(g, s);
    } else if !s.tasks[p].done.Closed? {
      step := InternalMove(g, s, first, p);
    } else {
      step := ResultMove(g, s, p);
    }
  }

  lemma InternalMove(g: Graph, s: State, first: Step, p: nat) returns (step: Step)
    requires Lawful(g) && Inv(g, s) && LeftAlone(s, first, p) && !s.tasks[p].done.Closed?
    requires forall u :: 0 <= u < |s.tasks| ==> s.tasks[u].ext == 0
    ensures Enabled(g, s, step) && Internal(step) && !OfNotifier(first, p, 1, step)
    ensures first.Deliver? ==> step != Close(first.t)
  {
    step := Unblocked(g, s, p);
    NotOfNotifier(g, s, first, p, step);
  }

  /** The notifier has nothing left to deliver, and closes another task. */
  lemma NotOfNotifier(g: Graph, s: State, first: Step, p: nat, step: Step)
    requires LeftAlone(s, first, p) && Enabled(g, s, step) && (step.Close? ==> step.t == p)
    ensures !OfNotifier(first, p, 1, step) && (first.Deliver? ==> step != Close(first.t))
  {
  }

  lemma LeftAloneStays(g: Graph, s: State, first: Step, p: nat, step: Step)
    requires Lawful(g) && Inv(g, s) && LeftAlone(s, first, p) && Enabled(g, s, step) && Consuming(step)
    requires first.Deliver? ==> step != Close(first.t)
    ensures Inv(g, Apply(g, s, step)) && LeftAlone(Apply(g, s, step), first, p)
  {
    assert Next(g, s, Apply(g, s, step));
    InvStep(g, s, Apply(g, s, step));
    StepUsesWork(g, s, step);
    if first.Deliver? { StaysQuiet(g, s, step, first.t); }
  }

  /** One step of others towards the end of `p`. */
  lemma OthersAdvance(g: Graph, s: State, first: Step, p: nat) returns (s': State)
    requires Lawful(g) && Inv(g, s) && LeftAlone(s, first, p) && |s.tasks| <= |g.resources| && !Gone(s.tasks[p])
    ensures Inv(g, s') && LeftAlone(s', first, p) && |s'.tasks| <= |g.resources|
    ensures OtherStep(g, first, p, 1, s, s') && Work(g, s'.tasks) < Work(g, s.tasks)
  {
    var step := OthersMove(g, s, first, p);
    s' := Apply(g, s, step);
    LeftAloneStays(g, s, first, p, step);
    StepUsesWork(g, s, step);
  }

  /** Others bring `p` to its end. */
  lemma {:induction false} OthersFree(g: Graph, s: State, first: Step, p: nat) returns (path: seq<State>)
    requires Lawful(g) && Inv(g, s) && LeftAlone(s, first, p) && |s.tasks| <= |g.resources|
    ensures Meanwhile(g, first, p, 1, path) && path[0] == s && Freed(path[|path| - 1], p)
    decreases Work(g, s.tasks)
  {
    if Gone(s.tasks[p]) {
      GoneIsFreed(g, s, p);
      path := [s];
    } else {
      var s' := OthersAdvance(g, s, first, p);
      var rest := OthersFree(g, s', first, p);
      path := [s] + rest;
      PathGrows(g, first, p, s, rest);
    }
  }

  lemma GoneIsFreed(g: Graph, s: State, p: nat)
    requires Removal(g, s) && p < |s.tasks| && Gone(s.tasks[p])
    ensures Freed(s, p)
  {
    assert RemovalOk(s.tasks[p]);
  }

  lemma PathGrows(g: Graph, first: Step, p: nat, s: State, rest: seq<State>)
    requires Meanwhile(g, first, p, 1, rest) && OtherStep(g, first, p, 1, s, rest[0])
    ensures Meanwhile(g, first, p, 1, [s] + rest)
  {
    var path := [s] + rest;
    forall i: nat | i < |path| - 1 ensures OtherAt(g, first, p, 1, path, i) {
      if i > 0 { MeanwhileAt(g, first, p, 1, rest, i - 1); }
    }
  }

  // ------------------------------------------------------------ exactly when

  lemma AfterDecrement(g: Graph, s: State, first: Step, p: nat)
    requires Lawful(g) && Inv(g, s) && Enabled(g, s, first) && Decrements(s, first, p)
    ensures var s1 := Apply(g, s, first);
            && Inv(g, s1) && LeftAlone(s1, first, p) && |s1.tasks| <= |g.resources|
            && s1.tasks[p].post == s.tasks[p].post - 1 && !s1.tasks[p].done.Closed?
  {
    var s1 := Apply(g, s, first);
    assert Next(g, s, s1);
    InvStep(g, s, s1);
    if first.Deliver? { DeliveredToParent(g, s, first.t, p); } else { OwnDecrement(g, s, first, p); }
  }

  lemma OwnDecrement(g: Graph, s: State, first: Step, p: nat)
    requires Local(g, s) && Exact(s) && Enabled(g, s, first) && (first == DeliverEvent(p) || first == Finish(p))
    ensures p < |s.tasks| == |Apply(g, s, first).tasks|
    ensures Apply(g, s, first).tasks[p].post == s.tasks[p].post - 1 && !Apply(g, s, first).tasks[p].done.Closed?
  {
    assert LocalOk(g, s.tasks[p], p, |s.tasks|);
    assert PostEdges(s.tasks[p]) == Undelivered(s.tasks, Post(p));
  }

  /** The entry for the parent is the last that a task delivers. */
  lemma DeliveredToParent(g: Graph, s: State, c: nat, p: nat)
    requires Local(g, s) && Family(g, s) && Exact(s) && CanDeliver(g, s, c) && Decrements(s, Deliver(c), p)
    ensures var s1 := DoDeliver(g, s, c);
            && p < |s.tasks| == |s1.tasks| && c != p && Quiet(s1, c)
            && s1.tasks[p].post == s.tasks[p].post - 1 && !s1.tasks[p].done.Closed?
  {
    var e := PoppedEntry(g, s, c);
    assert LocalOk(g, s.tasks[c], c, |s.tasks|) && LocalOk(g, s.tasks[p], p, |s.tasks|);
    assert PostEdges(s.tasks[p]) == Undelivered(s.tasks, Post(p));
  }

  /**
   Whoever decrements the post-event of a task, be it a child that notifies its parent, an external
   event, or the executor of the body: its second look can come too late if and only if it left 1.
   */
  lemma LooksTooLateIff(g: Graph, s: State, first: Step, p: nat)
    requires Lawful(g) && Inv(g, s) && Enabled(g, s, first) && Decrements(s, first, p)
    ensures p < |Apply(g, s, first).tasks|
    ensures LooksTooLate(g, s, first, p) <==> Apply(g, s, first).tasks[p].post == 1
  {
    AfterDecrement(g, s, first, p);
    var s1 := Apply(g, s, first);
    if s1.tasks[p].post == 1 {
      var path := OthersFree(g, s1, first, p);
    } else if s1.tasks[p].post == 0 {
      forall path | Meanwhile(g, first, p, 0, path) && path[0] == s1 ensures !Freed(path[|path| - 1], p) {
        SafeAtZero(g, first, p, path);
      }
    } else {
      assert LocalOk(g, s1.tasks[p], p, |s1.tasks|);
    }
  }

  // ------------------------------------------------------------ a run in which it is too late

  /** One task that submits one child; no resources. */
  const PAIR := Graph([-1, 0], [[], []], (q, t) => false, (q, t, r) => false, (p, r) => false)

  /** A parent and its child. */
  function Both(parent: Task, child: Task): (s: State) { State([parent, child], map[], map[], 1) }

  /** The parent runs and its result is taken already. */
  const PARENT := STARTED_TASK.(post := 2, result := Counted, countdown := 1, children := 1)

  /** The child is about to notify its parent. */
  const CHILD := STARTED_TASK.(phase := Done, post := 0, done := Notifying, followers := [Post(0)])

  const DEAF := CHILD.(followers := [])

  /** The parent is freed; its child has left the post-event at 1 and not gone on. */
  const FREED := PARENT.(phase := Done, post := 0, done := Closed, countdown := 0, frees := 1)

  lemma Extend(g: Graph, run: seq<State>, step: Step, s: State) returns (run': seq<State>)
    requires Run(g, run) && Enabled(g, run[|run| - 1], step) && s == Apply(g, run[|run| - 1], step)
    ensures run' == run + [s] && Run(g, run')
  {
    run' := run + [s];
    forall i | 0 <= i < |run'| - 1 ensures Next(g, run'[i], run'[i + 1]) {
      if i < |run| - 1 { assert Next(g, run[i], run[i + 1]); }
    }
  }

  /** From submission to the body. */
  lemma Launch(run: seq<State>, t: nat, f: seq<Event>) returns (run': seq<State>)
    requires Run(PAIR, run) && WellSized(PAIR, run[|run| - 1]) && t < |run[|run| - 1].tasks|
    requires run[|run| - 1].tasks[t] == FRESH_TASK.(followers := f)
    ensures Run(PAIR, run') && run'[|run'| - 1] == With(run[|run| - 1], t, STARTED_TASK.(followers := f))
  {
    var s := run[|run| - 1];
    var x := FRESH_TASK.(followers := f);
    run' := Extend(PAIR, run, Emplace(t), With(s, t, x.(phase := Emplaced)));
    run' := Extend(PAIR, run', InitBegin(t), With(s, t, x.(phase := Initing(0, Idle), pre := 2)));
    run' := LaunchReady(run', s, t, x);
  }

  lemma LaunchReady(run: seq<State>, s: State, t: nat, x: Task) returns (run': seq<State>)
    requires Run(PAIR, run) && WellSized(PAIR, s) && t < |s.tasks| && x == FRESH_TASK.(followers := x.followers)
    requires run[|run| - 1] == With(s, t, x.(phase := Initing(0, Idle), pre := 2))
    ensures Run(PAIR, run') && run'[|run'| - 1] == With(s, t, STARTED_TASK.(followers := x.followers))
  {
    run' := Extend(PAIR, run, InitEnd(t), With(s, t, x.(phase := Waiting, pre := 1, claims := 1)));
    run' := Extend(PAIR, run', Start(t), With(s, t, STARTED_TASK.(followers := x.followers)));
  }

  lemma BothRunning() returns (run: seq<State>)
    ensures Run(PAIR, run)
    ensures run[|run| - 1] == Both(STARTED_TASK.(post := 2, children := 1), STARTED_TASK.(followers := [Post(0)]))
  {
    run := Extend(PAIR, [INITIAL], Submit, State([FRESH_TASK], map[], map[], 1));
    run := Launch(run, 0, []);
    run := Extend(PAIR, run, Submit,
                  Both(STARTED_TASK.(post := 2, children := 1), FRESH_TASK.(followers := [Post(0)])));
    run := Launch(run, 1, [Post(0)]);
  }

  lemma AboutToNotify() returns (run: seq<State>)
    ensures Run(PAIR, run) && run[|run| - 1] == Both(PARENT, CHILD)
  {
    run := BothRunning();
    var parent := STARTED_TASK.(post := 2, children := 1);
    run := Extend(PAIR, run, Finish(1), Both(parent, CHILD.(done := Removing(0))));
    run := Extend(PAIR, run, BeginNotify(1), Both(parent, CHILD));
    run := ResultTaken(run);
  }

  lemma ResultTaken(run: seq<State>) returns (run': seq<State>)
    requires Run(PAIR, run) && run[|run| - 1] == Both(STARTED_TASK.(post := 2, children := 1), CHILD)
    ensures Run(PAIR, run') && run'[|run'| - 1] == Both(PARENT, CHILD)
  {
    run' := Extend(PAIR, run, TakeResult(0), Both(STARTED_TASK.(post := 2, children := 1, result := Reached), CHILD));
    run' := Extend(PAIR, run', CountResult(0), Both(PARENT, CHILD));
  }

  /** The parent has returned and is unlisted, notifies, and is freed. */
  const RETURNED := PARENT.(phase := Done, post := 0, done := Removing(0))
  const LAST := [Both(PARENT.(post := 1), DEAF), Both(RETURNED, DEAF), Both(RETURNED.(done := Notifying), DEAF),
                 Both(FREED, DEAF).(rootCount := 0)]

  lemma ParentReturns()
    ensures OtherStep(PAIR, Deliver(1), 0, 1, LAST[0], LAST[1])
  {
    assert Enabled(PAIR, LAST[0], Finish(0)) && Apply(PAIR, LAST[0], Finish(0)) == LAST[1];
  }

  lemma ParentNotifies()
    ensures OtherStep(PAIR, Deliver(1), 0, 1, LAST[1], LAST[2])
  {
    assert Enabled(PAIR, LAST[1], BeginNotify(0)) && Apply(PAIR, LAST[1], BeginNotify(0)) == LAST[2];
  }

  lemma ParentFreed()
    ensures OtherStep(PAIR, Deliver(1), 0, 1, LAST[2], LAST[3])
  {
    assert Enabled(PAIR, LAST[2], Close(0)) && Apply(PAIR, LAST[2], Close(0)) == LAST[3];
  }

  lemma {:induction false} ParentOvertakes(k: nat)
    requires k <= 3
    ensures Meanwhile(PAIR, Deliver(1), 0, 1, LAST[k..])
    decreases 3 - k
  {
    if k < 3 {
      ParentOvertakes(k + 1);
      ParentReturns();
      ParentNotifies();
      ParentFreed();
      PathGrows(PAIR, Deliver(1), 0, LAST[k], LAST[k + 1..]);
      assert [LAST[k]] + LAST[k + 1..] == LAST[k..];
    }
  }

  /** The child notifies its parent; before it looks again, the parent returns, is closed and freed. */
  lemma FreedBeforeSecondLook() returns (run: seq<State>)
    ensures Lawful(PAIR) && Run(PAIR, run) && run[|run| - 1] == Both(PARENT, CHILD)
    ensures Enabled(PAIR, run[|run| - 1], Deliver(1)) && Decrements(run[|run| - 1], Deliver(1), 0)
    ensures Apply(PAIR, run[|run| - 1], Deliver(1)) == LAST[0]
    ensures Meanwhile(PAIR, Deliver(1), 0, 1, LAST) && Freed(LAST[3], 0) && LAST[3].tasks[1].done.Notifying?
  {
    run := AboutToNotify();
    ParentOvertakes(0);
    assert LAST[0..] == LAST;
  }
}
