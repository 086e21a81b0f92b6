/** The runtime's own steps always come to an end: each of them uses up work. */
module GraphProgress {
  import opened Common
  import opened ResourceUsers
  import opened EventGraph
  import opened GraphInvariant
  import opened GraphCore
  import opened GraphTheorems

  // ------------------------------------------------------------ a measure of the work ahead

  /** Steps a scan of `m` lists can take when no list is longer than `n`. */
  function Lists(m: nat, n: nat): (r: nat)
  {
    if m == 0 then 0 else Lists(m - 1, n) + 4 * n + 3
  }

  function Left(k: nat, size: nat): (r: nat) { if k < size then size - k else 0 }

  function ScanWork(scan: Scan): (r: nat)
  {
    match scan
    case Idle => 0
    case At(n) => 4 * n + 1
    case Dep(n) => 4 * n
    case Push(n) => if n > 0 then 4 * n - 1 else 0
    case Inc(n) => if n > 0 then 4 * n - 2 else 0
  }

  function InitWork(k: nat, scan: Scan, size: nat, n: nat): (r: nat)
  {
    if scan.Idle? then Lists(Left(k, size), n) else Lists(Left(k + 1, size), n) + ScanWork(scan)
  }

  function PhaseWork(phase: Phase, size: nat, n: nat): (r: nat)
  {
    match phase
    case Submitting(k) => 5 + Lists(size, n) + Left(k, size)
    case Emplaced => 4 + Lists(size, n)
    case Initing(k, scan) => 3 + InitWork(k, scan, size, n)
    case Waiting => 2
    case Running => 1
    case Done => 0
  }

  function PostWork(done: PostPhase, size: nat): (r: nat)
  {
    match done
    case Open => size + 4
    case Removing(k) => Left(k, size) + 3
    case Notifying => 2
    case Closed => 0
  }

  function ResultWork(result: ResultGet): (r: nat)
  {
    match result
    case Untaken => 2
    case Reached => 1
    case Counted => 0
  }

  /** A pushed follower entry costs one delivery, and pushing it used up two units of its scan. */
  function TaskWork(g: Graph, t: nat, x: Task): (r: nat)
    requires t < |g.resources|
  {
    2 * PhaseWork(x.phase, |g.resources[t]|, |g.parent|) + PostWork(x.done, |g.resources[t]|)
    + ResultWork(x.result) + 2 * x.ext + x.fired + |x.followers|
  }

  function Work(g: Graph, ts: seq<Task>): (r: nat)
    requires |ts| <= |g.resources|
  {
    if ts == [] then 0 else Work(g, ts[..|ts| - 1]) + TaskWork(g, |ts| - 1, ts[|ts| - 1])
  }

  lemma {:induction false} WorkUpdate(g: Graph, ts: seq<Task>, t: nat, x: Task)
    requires t < |ts| <= |g.resources|
    ensures Work(g, ts[t := x]) == Work(g, ts) - TaskWork(g, t, ts[t]) + TaskWork(g, t, x)
  {
    var n := |ts| - 1;
    if t < n {
      WorkUpdate(g, ts[..n], t, x);
      assert ts[t := x][..n] == ts[..n][t := x];
    } else {
      assert ts[t := x][..n] == ts[..n];
    }
  }

  lemma {:induction false} WorkSame(g: Graph, ts: seq<Task>, ts': seq<Task>)
    requires |ts| == |ts'| <= |g.resources|
    requires forall i :: 0 <= i < |ts| ==> TaskWork(g, i, ts'[i]) == TaskWork(g, i, ts[i])
    ensures Work(g, ts') == Work(g, ts)
  {
    if ts != [] { WorkSame(g, ts[..|ts| - 1], ts'[..|ts| - 1]); }
  }

  // ------------------------------------------------------------ lists are short

  lemma {:induction false} Pigeonhole(us: seq<nat>, n: nat)
    requires forall i :: 0 <= i < |us| ==> us[i] < n
    requires forall i, j :: 0 <= i < j < |us| ==> us[i] != us[j]
    ensures |us| <= n
    decreases n
  {
    assert |us| > 0 ==> us[0] < n;
    if n == 0 {
    } else if n - 1 in us {
      var k :| 0 <= k < |us| && us[k] == n - 1;
      Pigeonhole(us[..k] + us[k + 1..], n - 1);
    } else {
      forall i | 0 <= i < |us| ensures us[i] < n - 1 { assert us[i] in us; }
      Pigeonhole(us, n - 1);
    }
  }

  lemma ListIsShort(g: Graph, s: State, r: Resource)
    requires Listing(g, s)
    ensures |Users(s, r)| <= |g.parent|
  {
    var us := Users(s, r);
    assert OrderedList(g, us);
    forall i | 0 <= i < |us| ensures us[i] < |g.parent| { assert us[i] in us; }
    forall i, j | 0 <= i < j < |us| ensures us[i] != us[j] { assert InOrder(g, us[i], us[j]); }
    Pigeonhole(us, |g.parent|);
  }

  // ------------------------------------------------------------ every step uses up work

  /** All steps but those that bring in something new. */
  predicate Consuming(step: Step) { !step.Submit? && !step.MakeEvent? }

  /** After the step the same tasks have less work ahead. */
  ghost predicate LessWork(g: Graph, s: State, s': State)
  {
    |s'.tasks| == |s.tasks| <= |g.resources| && Work(g, s'.tasks) < Work(g, s.tasks)
  }

  lemma LockUsesWork(g: Graph, s: State, t: nat)
    requires Listing(g, s) && CanLock(g, s, t)
    ensures TaskWork(g, t, DoLock(g, s, t).tasks[t]) < TaskWork(g, t, s.tasks[t])
  {
    ListIsShort(g, s, ScanResource(g, s.tasks[t], t));
  }

  /** The scan of a list has ended or come nearer to its end; at most the pre-event has changed beside it. */
  predicate Forward(x: Task, x': Task)
  {
    && Scanning(x) && x'.phase.Initing? && x' == x.(phase := x'.phase, pre := x'.pre)
    && (|| x'.phase == Initing(x.phase.k + 1, Idle)
        || (x'.phase.k == x.phase.k && !x'.phase.scan.Idle? && ScanWork(x'.phase.scan) < ScanWork(x.phase.scan)))
  }

  lemma ForwardUsesWork(g: Graph, t: nat, x: Task, x': Task)
    requires t < |g.resources| && Forward(x, x') && ScanWork(x.phase.scan) > 0
    ensures TaskWork(g, t, x') < TaskWork(g, t, x)
  {
    var n := |g.parent|;
    assert InitWork(x'.phase.k, x'.phase.scan, |g.resources[t]|, n)
           < InitWork(x.phase.k, x.phase.scan, |g.resources[t]|, n);
  }

  lemma ScanUsesWork(g: Graph, s: State, step: Step)
    requires Enabled(g, s, step) && ScanStep(step)
    ensures TaskWork(g, step.t, Apply(g, s, step).tasks[step.t]) < TaskWork(g, step.t, s.tasks[step.t])
  {
    match step
    case Look(t) => LookForward(g, s, t);
    case Recheck(t) => RecheckForward(g, s, t);
    case Raise(t) => RaiseForward(g, s, t);
    ForwardUsesWork(g, step.t, s.tasks[step.t], Apply(g, s, step).tasks[step.t]);
  }

  lemma LookForward(g: Graph, s: State, t: nat)
    requires CanLook(g, s, t)
    ensures Forward(s.tasks[t], DoLook(g, s, t).tasks[t]) && ScanWork(s.tasks[t].phase.scan) > 0
  {
  }

  lemma RecheckForward(g: Graph, s: State, t: nat)
    requires CanRecheck(g, s, t)
    ensures Forward(s.tasks[t], DoRecheck(g, s, t).tasks[t]) && ScanWork(s.tasks[t].phase.scan) > 0
  {
  }

  lemma RaiseForward(g: Graph, s: State, t: nat)
    requires CanRaise(g, s, t)
    ensures Forward(s.tasks[t], DoRaise(g, s, t).tasks[t]) && ScanWork(s.tasks[t].phase.scan) > 0
  {
  }

  lemma OwnUsesWork(g: Graph, s: State, step: Step)
    requires Local(g, s) && Enabled(g, s, step) && OwnStep(step) && Consuming(step) && !step.Lock?
    ensures TaskWork(g, step.t, Apply(g, s, step).tasks[step.t]) < TaskWork(g, step.t, s.tasks[step.t])
  {
    assert LocalOk(g, s.tasks[step.t], step.t, |s.tasks|);
    if EarlyOwn(step) {
      EarlyUsesWork(g, s, step);
    } else {
      LateUsesWork(g, s, step);
    }
  }

  lemma EarlyUsesWork(g: Graph, s: State, step: Step)
    requires Enabled(g, s, step) && OwnStep(step) && EarlyOwn(step) && !step.Lock?
    ensures TaskWork(g, step.t, Apply(g, s, step).tasks[step.t]) < TaskWork(g, step.t, s.tasks[step.t])
  {
  }

  lemma LateUsesWork(g: Graph, s: State, step: Step)
    requires Enabled(g, s, step) && OwnStep(step) && !EarlyOwn(step) && Consuming(step)
    requires LocalOk(g, s.tasks[step.t], step.t, |s.tasks|)
    ensures TaskWork(g, step.t, Apply(g, s, step).tasks[step.t]) < TaskWork(g, step.t, s.tasks[step.t])
  {
  }

  lemma AddFollowerUsesWork(g: Graph, s: State, t: nat)
    requires Listing(g, s) && CanAddFollower(g, s, t)
    ensures LessWork(g, s, DoAddFollower(g, s, t))
  {
    EntryFacts(g, s, t);
    var p := Entry(g, s, t);
    var mid := MoveScan(s, t, Inc(s.tasks[t].phase.scan.n)).tasks;
    var s' := DoAddFollower(g, s, t);
    WorkUpdate(g, s.tasks, t, mid[t]);
    WorkUpdate(g, mid, p, s'.tasks[p]);
    assert s'.tasks == mid[p := s'.tasks[p]];
  }

  lemma NotifiedWork(g: Graph, t: nat, x: Task)
    requires t < |g.resources| && (x.post == 1 ==> x.done.Open?)
    ensures TaskWork(g, t, NotifyPre(x, false)) <= TaskWork(g, t, x)
    ensures TaskWork(g, t, NotifyPost(x)) <= TaskWork(g, t, x)
  {
  }

  lemma PoppedWork(g: Graph, t: nat, x: Task)
    requires t < |g.resources| && x.followers != []
    ensures TaskWork(g, t, x.(followers := x.followers[..|x.followers| - 1])) == TaskWork(g, t, x) - 1
  {
  }

  lemma DeliverUsesWork(g: Graph, s: State, t: nat)
    requires Local(g, s) && Family(g, s) && CanDeliver(g, s, t)
    ensures LessWork(g, s, DoDeliver(g, s, t))
  {
    var e := PoppedEntry(g, s, t);
    assert LocalOk(g, s.tasks[e.t], e.t, |s.tasks|);
    DeliveredWork(g, s, t, e);
  }

  lemma DeliveredWork(g: Graph, s: State, t: nat, e: Event)
    requires |s.tasks| <= |g.resources| && CanDeliver(g, s, t) && e.t != t
    requires e == s.tasks[t].followers[|s.tasks[t].followers| - 1]
    requires s.tasks[e.t].post == 1 ==> s.tasks[e.t].done.Open?
    ensures LessWork(g, s, DoDeliver(g, s, t))
  {
    var popped := s.tasks[t := s.tasks[t].(followers := s.tasks[t].followers[..|s.tasks[t].followers| - 1])];
    PoppedWork(g, t, s.tasks[t]);
    NotifiedWork(g, e.t, s.tasks[e.t]);
    WorkUpdate(g, s.tasks, t, popped[t]);
    WorkUpdate(g, popped, e.t, Notify(popped, e)[e.t]);
    assert DoDeliver(g, s, t).tasks == popped[e.t := Notify(popped, e)[e.t]];
  }

  lemma CloseUsesWork(g: Graph, s: State, t: nat)
    requires Family(g, s) && WellSized(g, s) && CanClose(g, s, t)
    ensures LessWork(g, s, DoClose(g, s, t))
  {
    var mid := s.(tasks := s.tasks[t := s.tasks[t].(done := Closed)]);
    ArriveShape(g, mid, t);
    WorkUpdate(g, s.tasks, t, mid.tasks[t]);
    WorkSame(g, mid.tasks, DoClose(g, s, t).tasks);
  }

  lemma CountResultUsesWork(g: Graph, s: State, t: nat)
    requires Family(g, s) && WellSized(g, s) && CanCountResult(g, s, t)
    ensures LessWork(g, s, DoCountResult(g, s, t))
  {
    var mid := s.(tasks := s.tasks[t := s.tasks[t].(result := Counted)]);
    ArriveShape(g, mid, t);
    WorkUpdate(g, s.tasks, t, mid.tasks[t]);
    WorkSame(g, mid.tasks, DoCountResult(g, s, t).tasks);
  }

  lemma OneTaskUsesWork(g: Graph, s: State, s': State, t: nat)
    requires t < |s.tasks| == |s'.tasks| <= |g.resources| && s'.tasks == s.tasks[t := s'.tasks[t]]
    requires TaskWork(g, t, s'.tasks[t]) < TaskWork(g, t, s.tasks[t])
    ensures Work(g, s'.tasks) < Work(g, s.tasks)
  {
    WorkUpdate(g, s.tasks, t, s'.tasks[t]);
  }

  lemma OwnStepUsesWork(g: Graph, s: State, step: Step)
    requires Local(g, s) && Listing(g, s) && Enabled(g, s, step) && OwnStep(step) && Consuming(step)
    ensures LessWork(g, s, Apply(g, s, step))
  {
    OwnShape(g, s, step);
    if step.Lock? { LockUsesWork(g, s, step.t); } else { OwnUsesWork(g, s, step); }
    OneTaskUsesWork(g, s, Apply(g, s, step), step.t);
  }

  lemma ScanStepUsesWork(g: Graph, s: State, step: Step)
    requires Local(g, s) && Enabled(g, s, step) && ScanStep(step)
    ensures LessWork(g, s, Apply(g, s, step))
  {
    ScanShape(g, s, step);
    ScanUsesWork(g, s, step);
    OneTaskUsesWork(g, s, Apply(g, s, step), step.t);
  }

  /** Every step but a submission and a new external event leaves less work. */
  lemma StepUsesWork(g: Graph, s: State, step: Step)
    requires Core(g, s) && Enabled(g, s, step) && Consuming(step)
    ensures LessWork(g, s, Apply(g, s, step))
  {
    if OwnStep(step) {
      OwnStepUsesWork(g, s, step);
    } else if ScanStep(step) {
      ScanStepUsesWork(g, s, step);
    } else {
      match step
      case Deliver(t) => DeliverUsesWork(g, s, t);
      case Close(t) => CloseUsesWork(g, s, t);
      case CountResult(t) => CountResultUsesWork(g, s, t);
      case AddFollower(t) => AddFollowerUsesWork(g, s, t);
    }
  }

  // ------------------------------------------------------------ runs

  ghost predicate InternalNext(g: Graph, s: State, s': State)
  {
    exists step :: Internal(step) && Enabled(g, s, step) && s' == Apply(g, s, step)
  }

  /** A stretch of steps that only the runtime takes. */
  ghost predicate InternalRun(g: Graph, run: seq<State>)
  {
    |run| > 0 && forall i :: 0 <= i < |run| - 1 ==> InternalNext(g, run[i], run[i + 1])
  }

  /** No stretch of internal steps is longer than the work at its start. */
  lemma {:induction false} InternalRunsEnd(g: Graph, run: seq<State>)
    requires Lawful(g) && InternalRun(g, run) && Inv(g, run[0])
    ensures |run[0].tasks| <= |g.resources| && |run| - 1 <= Work(g, run[0].tasks)
    ensures Inv(g, run[|run| - 1])
  {
    if |run| > 1 {
      assert InternalNext(g, run[0], run[1]);
      var step :| Internal(step) && Enabled(g, run[0], step) && run[1] == Apply(g, run[0], step);
      StepUsesWork(g, run[0], step);
      assert Next(g, run[0], run[1]);
      InvStep(g, run[0], run[1]);
      forall i | 0 <= i < |run[1..]| - 1 ensures InternalNext(g, run[1..][i], run[1..][i + 1]) {
        assert InternalNext(g, run[i + 1], run[i + 2]);
      }
      InternalRunsEnd(g, run[1..]);
    }
  }

  /**
   Left alone, the runtime finishes everything: where a stretch of internal steps can go no further
   and no external event is outstanding, every submitted task has finished and notified its followers.
   */
  lemma LeftAloneAllFinish(g: Graph, run: seq<State>, t: nat)
    requires Lawful(g) && InternalRun(g, run) && Inv(g, run[0])
    requires var last := run[|run| - 1];
             && t < |last.tasks|
             && (forall u :: 0 <= u < |last.tasks| ==> last.tasks[u].ext == 0)
             && (forall step :: Internal(step) ==> !Enabled(g, last, step))
    ensures run[|run| - 1].tasks[t].done.Closed?
  {
    InternalRunsEnd(g, run);
    var last := run[|run| - 1];
    if !last.tasks[t].done.Closed? {
      var step := Unblocked(g, last, t);
    }
  }

  // ------------------------------------------------------------ single steps

  lemma HolderSized(g: Graph, s: State)
    requires Lawful(g) && Local(g, s) && Family(g, s)
    ensures WellSized(g, s)
  {
  }

  lemma ResultMove(g: Graph, s: State, p: nat) returns (step: Step)
    requires Lawful(g) && Local(g, s) && Family(g, s) && p < |s.tasks|
    requires s.tasks[p].done.Closed? && !s.tasks[p].result.Counted?
    ensures Enabled(g, s, step) && (step == TakeResult(p) || step == CountResult(p))
  {
    assert LocalOk(g, s.tasks[p], p, |s.tasks|);
    step := if s.tasks[p].result.Untaken? then TakeResult(p) else CountResult(p);
  }
}
