/** Every step keeps the counters, lists and locks of the task graph in order. */
module GraphCore {
  import opened Common
  import opened ResourceUsers
  import opened EventGraph
  import opened GraphInvariant

  // ------------------------------------------------------------ counting entries

  lemma {:induction false} UndeliveredUpdate(ts: seq<Task>, i: nat, x: Task, e: Event)
    requires i < |ts|
    ensures Undelivered(ts[i := x], e) ==
            Undelivered(ts, e) - multiset(ts[i].followers)[e] + multiset(x.followers)[e]
  {
    var n := |ts| - 1;
    if i < n {
      UndeliveredUpdate(ts[..n], i, x, e);
      assert ts[i := x][..n] == ts[..n][i := x];
    } else {
      assert ts[i := x][..n] == ts[..n];
    }
  }

  lemma {:induction false} UndeliveredSame(ts: seq<Task>, ts': seq<Task>, e: Event)
    requires |ts| == |ts'| && forall i :: 0 <= i < |ts| ==> ts'[i].followers == ts[i].followers
    ensures Undelivered(ts', e) == Undelivered(ts, e)
  {
    if ts != [] {
      UndeliveredSame(ts[..|ts| - 1], ts'[..|ts| - 1], e);
    }
  }

  lemma UndeliveredPush(ts: seq<Task>, x: Task, e: Event)
    ensures Undelivered(ts + [x], e) == Undelivered(ts, e) + multiset(x.followers)[e]
  {
    assert (ts + [x])[..|ts|] == ts;
  }

  lemma {:induction false} UndeliveredMember(ts: seq<Task>, i: nat, e: Event)
    requires i < |ts| && e in ts[i].followers
    ensures Undelivered(ts, e) >= 1
  {
    var n := |ts| - 1;
    if i < n { UndeliveredMember(ts[..n], i, e); }
  }

  lemma {:induction false} UndeliveredWitness(ts: seq<Task>, e: Event) returns (i: nat)
    requires Undelivered(ts, e) >= 1
    ensures i < |ts| && e in ts[i].followers
  {
    var n := |ts| - 1;
    if e in ts[n].followers { i := n; } else { i := UndeliveredWitness(ts[..n], e); }
  }

  lemma NoEntryForFuture(g: Graph, s: State, t: nat, e: Event)
    requires Local(g, s) && Family(g, s) && t >= |s.tasks| && e.t == t
    ensures Undelivered(s.tasks, e) == 0
  {
    if Undelivered(s.tasks, e) >= 1 {
      var i := UndeliveredWitness(s.tasks, e);
      EntryOk(g, s, i, e);
      assert false;
    }
  }

  lemma EntryOk(g: Graph, s: State, i: nat, e: Event)
    requires Local(g, s) && i < |s.tasks| && e in s.tasks[i].followers
    ensures FollowerOk(g, i, e, |s.tasks|)
  {
    var j :| 0 <= j < |s.tasks[i].followers| && s.tasks[i].followers[j] == e;
    assert LocalOk(g, s.tasks[i], i, |s.tasks|);
  }

  /** Counters stay exact when no follower list changes and each task's own balance is kept. */
  lemma ExactFrame(s: State, s': State)
    requires Exact(s) && |s'.tasks| == |s.tasks|
    requires forall i :: 0 <= i < |s.tasks| ==>
                           && s'.tasks[i].followers == s.tasks[i].followers
                           && PreEdges(s'.tasks[i]) == PreEdges(s.tasks[i])
                           && PostEdges(s'.tasks[i]) == PostEdges(s.tasks[i])
    ensures Exact(s')
  {
    forall t | 0 <= t < |s.tasks|
      ensures && PreEdges(s'.tasks[t]) == Undelivered(s'.tasks, Pre(t))
              && PostEdges(s'.tasks[t]) == Undelivered(s'.tasks, Post(t))
    {
      UndeliveredSame(s.tasks, s'.tasks, Pre(t));
      UndeliveredSame(s.tasks, s'.tasks, Post(t));
    }
  }

  lemma ExactUpdate(s: State, s': State, t: nat)
    requires Exact(s) && t < |s.tasks| == |s'.tasks| && s'.tasks == s.tasks[t := s'.tasks[t]]
    requires s'.tasks[t].followers == s.tasks[t].followers
    requires PreEdges(s'.tasks[t]) == PreEdges(s.tasks[t]) && PostEdges(s'.tasks[t]) == PostEdges(s.tasks[t])
    ensures Exact(s')
  {
    ExactFrame(s, s');
  }

  // ------------------------------------------------------------ shapes of composite steps

  predicate ScanStep(step: Step) { step.Look? || step.Recheck? || step.Raise? }

  predicate OwnStep(step: Step)
  {
    !step.Submit? && !step.AddFollower? && !step.Deliver? && !ScanStep(step) && !step.Close? && !step.CountResult?
  }

  /** A scan step moves the scan down its list or ends it; at most the own pre-event changes. */
  predicate ScanShaped(g: Graph, s: State, s': State, t: nat, raised: bool)
  {
    && t < |s.tasks| == |s'.tasks| && t < |g.resources|
    && var x, x' := s.tasks[t], s'.tasks[t];
    && s'.tasks == s.tasks[t := x']
    && x' == x.(phase := x'.phase, pre := x'.pre)
    && x'.pre == x.pre + B2i(raised)
    && s'.users == s.users && s'.rootCount == s.rootCount
    && x.phase.Initing? && x.phase.k < |g.resources[t]| && !x.phase.scan.Idle? && (x.phase.scan.Inc? <==> raised)
    && (|| (x'.phase == Initing(x.phase.k + 1, Idle) && s'.locks == s.locks - {ScanResource(g, x, t)})
        || (x'.phase.Initing? && x'.phase.k == x.phase.k && !x'.phase.scan.Idle? && !x'.phase.scan.Inc?
            && s'.locks == s.locks))
  }

  lemma OwnShape(g: Graph, s: State, step: Step)
    requires Enabled(g, s, step) && OwnStep(step)
    ensures var s' := Apply(g, s, step); |s'.tasks| == |s.tasks| && s'.tasks == s.tasks[step.t := s'.tasks[step.t]]
  {
  }

  lemma ScanShape(g: Graph, s: State, step: Step)
    requires Enabled(g, s, step) && ScanStep(step)
    ensures ScanShaped(g, s, Apply(g, s, step), step.t, step.Raise?)
  {
    match step
    case Look(t) => LookShape(g, s, t);
    case Recheck(t) => RecheckShape(g, s, t);
    case Raise(t) => RaiseShape(g, s, t);
  }

  lemma LookShape(g: Graph, s: State, t: nat)
    requires CanLook(g, s, t)
    ensures ScanShaped(g, s, DoLook(g, s, t), t, false)
  {
  }

  lemma RecheckShape(g: Graph, s: State, t: nat)
    requires CanRecheck(g, s, t)
    ensures ScanShaped(g, s, DoRecheck(g, s, t), t, false)
  {
  }

  lemma RaiseShape(g: Graph, s: State, t: nat)
    requires CanRaise(g, s, t)
    ensures ScanShaped(g, s, DoRaise(g, s, t), t, true)
  {
  }

  /** Fields the removal countdown does not touch. */
  predicate SameTask(x: Task, x': Task)
  {
    x' == x.(countdown := x'.countdown, frees := x'.frees, children := x'.children)
  }

  /** One party of the removal countdown of `t` has arrived: counters may change, and what it records. */
  predicate Shelved(s: State, s': State, t: nat)
  {
    && t < |s.tasks| == |s'.tasks| && s'.users == s.users && s'.locks == s.locks
    && (forall i :: 0 <= i < |s.tasks| && i != t ==> SameTask(s.tasks[i], s'.tasks[i]))
    && SameTask(s.tasks[t].(done := s'.tasks[t].done, result := s'.tasks[t].result), s'.tasks[t])
    && (|| s'.tasks[t].done == s.tasks[t].done
        || (s.tasks[t].done.Notifying? && s.tasks[t].followers == [] && s'.tasks[t].done.Closed?))
  }

  lemma CloseShape(g: Graph, s: State, t: nat)
    requires Family(g, s) && CanClose(g, s, t)
    ensures Shelved(s, DoClose(g, s, t), t)
  {
    ArriveShape(g, s.(tasks := s.tasks[t := s.tasks[t].(done := Closed)]), t);
  }

  lemma CountResultShape(g: Graph, s: State, t: nat)
    requires Family(g, s) && CanCountResult(g, s, t)
    ensures Shelved(s, DoCountResult(g, s, t), t)
  {
    ArriveShape(g, s.(tasks := s.tasks[t := s.tasks[t].(result := Counted)]), t);
  }

  lemma ArriveShape(g: Graph, s: State, t: nat)
    requires t < |s.tasks| && t < |g.parent| && -1 <= g.parent[t] < |s.tasks|
    ensures var s' := Arrive(g, s, t);
            && |s'.tasks| == |s.tasks| && s'.users == s.users && s'.locks == s.locks
            && forall i :: 0 <= i < |s.tasks| ==> SameTask(s.tasks[i], s'.tasks[i])
  {
  }

  /** A submission appends a fresh task and counts it in the task whose space it enters. */
  predicate SubmitShaped(g: Graph, s: State, s': State)
  {
    && |s'.tasks| == |s.tasks| + 1 <= |g.parent| && g.parent[|s.tasks|] < |s.tasks|
    && s'.users == s.users && s'.locks == s.locks
    && var p := g.parent[|s.tasks|];
    && s'.rootCount == s.rootCount + B2i(p < 0)
    && s'.tasks[|s.tasks|] == FRESH_TASK.(followers := s'.tasks[|s.tasks|].followers)
    && forall i :: 0 <= i < |s.tasks| ==>
                     s'.tasks[i] == s.tasks[i].(post := s.tasks[i].post + B2i(i == p),
                                                children := s.tasks[i].children + B2i(i == p))
  }

  lemma SubmitShape(g: Graph, s: State)
    requires CanSubmit(g, s)
    ensures SubmitShaped(g, s, DoSubmit(g, s))
  {
  }

  // ------------------------------------------------------------ exact counters

  /** Steps before the body of a task runs. */
  predicate EarlyOwn(step: Step)
  {
    step.PushUser? || step.Emplace? || step.InitBegin? || step.Lock? || step.InitEnd? || step.Start?
  }

  lemma ExactOwn(g: Graph, s: State, step: Step)
    requires Exact(s) && Enabled(g, s, step) && OwnStep(step)
    ensures Exact(Apply(g, s, step))
  {
    if EarlyOwn(step) { ExactEarly(g, s, step); } else { ExactLate(g, s, step); }
  }

  lemma ExactEarly(g: Graph, s: State, step: Step)
    requires Exact(s) && Enabled(g, s, step) && OwnStep(step) && EarlyOwn(step)
    ensures Exact(Apply(g, s, step))
  {
    var s' := Apply(g, s, step);
    match step
    case PushUser(t) => ExactUpdate(s, s', t);
    case Emplace(t) => ExactUpdate(s, s', t);
    case InitBegin(t) => ExactUpdate(s, s', t);
    case Lock(t) => ExactUpdate(s, s', t);
    case InitEnd(t) => ExactUpdate(s, s', t);
    case Start(t) => ExactUpdate(s, s', t);
  }

  lemma ExactLate(g: Graph, s: State, step: Step)
    requires Exact(s) && Enabled(g, s, step) && OwnStep(step) && !EarlyOwn(step)
    ensures Exact(Apply(g, s, step))
  {
    var s' := Apply(g, s, step);
    match step
    case MakeEvent(t) => ExactUpdate(s, s', t);
    case FireEvent(t) => ExactUpdate(s, s', t);
    case DeliverEvent(t) => ExactUpdate(s, s', t);
    case Finish(t) => ExactUpdate(s, s', t);
    case Unlist(t) => ExactUpdate(s, s', t);
    case BeginNotify(t) => ExactUpdate(s, s', t);
    case TakeResult(t) => ExactUpdate(s, s', t);
  }

  lemma ExactScan(s: State, s': State, g: Graph, t: nat, raised: bool)
    requires Exact(s) && ScanShaped(g, s, s', t, raised)
    ensures Exact(s')
  {
    ExactUpdate(s, s', t);
  }

  lemma ExactShelved(s: State, s': State, t: nat)
    requires Exact(s) && Shelved(s, s', t)
    ensures Exact(s')
  {
    ExactFrame(s, s');
  }

  lemma ExactSubmit(g: Graph, s: State)
    requires Exact(s) && Local(g, s) && Family(g, s) && CanSubmit(g, s)
    ensures Exact(DoSubmit(g, s))
  {
    var n := |s.tasks|;
    var s' := DoSubmit(g, s);
    NoEntryForFuture(g, s, n, Pre(n));
    NoEntryForFuture(g, s, n, Post(n));
    forall t | 0 <= t <= n
      ensures && PreEdges(s'.tasks[t]) == Undelivered(s'.tasks, Pre(t))
              && PostEdges(s'.tasks[t]) == Undelivered(s'.tasks, Post(t))
    {
      SubmitEdges(g, s, t);
    }
  }

  lemma SubmitEdges(g: Graph, s: State, t: nat)
    requires CanSubmit(g, s) && t <= |s.tasks| && g.parent[|s.tasks|] < |s.tasks|
    requires if t < |s.tasks| then
               && PreEdges(s.tasks[t]) == Undelivered(s.tasks, Pre(t))
               && PostEdges(s.tasks[t]) == Undelivered(s.tasks, Post(t))
             else Undelivered(s.tasks, Pre(t)) == 0 == Undelivered(s.tasks, Post(t))
    ensures var s' := DoSubmit(g, s);
            && |s'.tasks| == |s.tasks| + 1
            && PreEdges(s'.tasks[t]) == Undelivered(s'.tasks, Pre(t))
            && PostEdges(s'.tasks[t]) == Undelivered(s'.tasks, Post(t))
  {
    SubmitCount(g, s, Pre(t));
    SubmitCount(g, s, Post(t));
  }

  lemma SubmitCount(g: Graph, s: State, e: Event)
    requires CanSubmit(g, s)
    ensures var p := g.parent[|s.tasks|];
            Undelivered(DoSubmit(g, s).tasks, e) == Undelivered(s.tasks, e) + B2i(p >= 0 && e == Post(p))
  {
    var n := |s.tasks|;
    var s' := DoSubmit(g, s);
    UndeliveredPush(s'.tasks[..n], s'.tasks[n], e);
    assert s'.tasks == s'.tasks[..n] + [s'.tasks[n]];
    UndeliveredSame(s.tasks, s'.tasks[..n], e);
  }

  /** The entry a scan works on: an earlier sibling that is still listed, hence not yet notifying. */
  lemma EntryFacts(g: Graph, s: State, t: nat)
    requires Listing(g, s) && t < |s.tasks| && HasEntry(g, s, t) && !s.tasks[t].phase.scan.At?
    ensures var p := Entry(g, s, t);
            && p < t && g.parent[p] == g.parent[t]
            && Listed(g, s.tasks[p], p, ScanResource(g, s.tasks[t], t))
  {
    assert ScanOk(g, s, t);
    assert Entry(g, s, t) in Users(s, ScanResource(g, s.tasks[t], t));
  }

  lemma ExactAddFollower(g: Graph, s: State, t: nat)
    requires Exact(s) && Listing(g, s) && CanAddFollower(g, s, t)
    ensures Exact(DoAddFollower(g, s, t))
  {
    EntryFacts(g, s, t);
    var s' := DoAddFollower(g, s, t);
    forall u | 0 <= u < |s.tasks|
      ensures && PreEdges(s'.tasks[u]) == Undelivered(s'.tasks, Pre(u))
              && PostEdges(s'.tasks[u]) == Undelivered(s'.tasks, Post(u))
    {
      AddFollowerEdges(g, s, t, u);
    }
  }

  lemma AddFollowerEdges(g: Graph, s: State, t: nat, u: nat)
    requires CanAddFollower(g, s, t) && u < |s.tasks| && Entry(g, s, t) != t
    requires PreEdges(s.tasks[u]) == Undelivered(s.tasks, Pre(u))
    requires PostEdges(s.tasks[u]) == Undelivered(s.tasks, Post(u))
    ensures var s' := DoAddFollower(g, s, t);
            && |s'.tasks| == |s.tasks|
            && PreEdges(s'.tasks[u]) == Undelivered(s'.tasks, Pre(u))
            && PostEdges(s'.tasks[u]) == Undelivered(s'.tasks, Post(u))
  {
    AddFollowerCount(g, s, t, Pre(u));
    AddFollowerCount(g, s, t, Post(u));
  }

  lemma AddFollowerCount(g: Graph, s: State, t: nat, e: Event)
    requires CanAddFollower(g, s, t) && Entry(g, s, t) != t
    ensures Undelivered(DoAddFollower(g, s, t).tasks, e) == Undelivered(s.tasks, e) + B2i(e == Pre(t))
  {
    var p := Entry(g, s, t);
    var s' := DoAddFollower(g, s, t);
    var mid := MoveScan(s, t, Inc(s.tasks[t].phase.scan.n)).tasks;
    assert s'.tasks == mid[p := s'.tasks[p]];
    UndeliveredSame(s.tasks, mid, e);
    UndeliveredUpdate(mid, p, s'.tasks[p], e);
  }

  /** What a notifier finds at the end of its follower list. */
  lemma PoppedEntry(g: Graph, s: State, t: nat) returns (e: Event)
    requires Local(g, s) && Family(g, s) && CanDeliver(g, s, t)
    ensures e == s.tasks[t].followers[|s.tasks[t].followers| - 1]
    ensures e.t < |s.tasks| && e.t != t && Undelivered(s.tasks, e) >= 1
    ensures e.Pre? ==> t < e.t && g.parent[e.t] == g.parent[t]
    ensures e.Post? ==> e.t == g.parent[t]
  {
    e := s.tasks[t].followers[|s.tasks[t].followers| - 1];
    EntryOk(g, s, t, e);
    UndeliveredMember(s.tasks, t, e);
  }

  lemma DeliverCount(g: Graph, s: State, t: nat, e: Event)
    requires CanDeliver(g, s, t)
    ensures var f := s.tasks[t].followers;
            Undelivered(DoDeliver(g, s, t).tasks, e) == Undelivered(s.tasks, e) - B2i(e == f[|f| - 1])
  {
    var f := s.tasks[t].followers;
    var s' := DoDeliver(g, s, t);
    var popped := s.tasks[t := s.tasks[t].(followers := f[..|f| - 1])];
    assert f == f[..|f| - 1] + [f[|f| - 1]];
    UndeliveredUpdate(s.tasks, t, popped[t], e);
    UndeliveredSame(popped, s'.tasks, e);
  }

  lemma ExactDeliver(g: Graph, s: State, t: nat)
    requires Exact(s) && Local(g, s) && Family(g, s) && CanDeliver(g, s, t)
    ensures Exact(DoDeliver(g, s, t))
  {
    var e0 := PoppedEntry(g, s, t);
    var s' := DoDeliver(g, s, t);
    forall u | 0 <= u < |s.tasks|
      ensures && PreEdges(s'.tasks[u]) == Undelivered(s'.tasks, Pre(u))
              && PostEdges(s'.tasks[u]) == Undelivered(s'.tasks, Post(u))
    {
      DeliverEdges(g, s, t, u);
    }
  }

  lemma DeliverEdges(g: Graph, s: State, t: nat, u: nat)
    requires CanDeliver(g, s, t) && u < |s.tasks|
    requires s.tasks[t].followers[|s.tasks[t].followers| - 1].t != t
    requires PreEdges(s.tasks[u]) == Undelivered(s.tasks, Pre(u))
    requires PostEdges(s.tasks[u]) == Undelivered(s.tasks, Post(u))
    ensures var s' := DoDeliver(g, s, t);
            && |s'.tasks| == |s.tasks|
            && PreEdges(s'.tasks[u]) == Undelivered(s'.tasks, Pre(u))
            && PostEdges(s'.tasks[u]) == Undelivered(s'.tasks, Post(u))
  {
    DeliverCount(g, s, t, Pre(u));
    DeliverCount(g, s, t, Post(u));
  }

  lemma ExactStep(g: Graph, s: State, step: Step)
    requires Local(g, s) && Family(g, s) && Listing(g, s) && Exact(s) && Enabled(g, s, step)
    ensures Exact(Apply(g, s, step))
  {
    if OwnStep(step) {
      ExactOwn(g, s, step);
    } else if ScanStep(step) {
      ScanShape(g, s, step);
      ExactScan(s, Apply(g, s, step), g, step.t, step.Raise?);
    } else {
      match step
      case Submit => ExactSubmit(g, s);
      case AddFollower(t) => ExactAddFollower(g, s, t);
      case Deliver(t) => ExactDeliver(g, s, t);
      case Close(t) => CloseShape(g, s, t); ExactShelved(s, DoClose(g, s, t), t);
      case CountResult(t) => CountResultShape(g, s, t); ExactShelved(s, DoCountResult(g, s, t), t);
    }
  }

  // ------------------------------------------------------------ local shape

  lemma LocalUpdate(g: Graph, s: State, s': State, t: nat)
    requires Local(g, s) && t < |s.tasks| == |s'.tasks| && s'.tasks == s.tasks[t := s'.tasks[t]]
    requires LocalOk(g, s'.tasks[t], t, |s.tasks|)
    ensures Local(g, s')
  {
  }

  lemma LocalOwn(g: Graph, s: State, step: Step)
    requires Local(g, s) && Exact(s) && Enabled(g, s, step) && OwnStep(step)
    ensures Local(g, Apply(g, s, step))
  {
    if EarlyOwn(step) { LocalEarly(g, s, step); } else { LocalLate(g, s, step); }
  }

  lemma LocalEarly(g: Graph, s: State, step: Step)
    requires Local(g, s) && Enabled(g, s, step) && OwnStep(step) && EarlyOwn(step)
    ensures Local(g, Apply(g, s, step))
  {
    var s' := Apply(g, s, step);
    assert LocalOk(g, s.tasks[step.t], step.t, |s.tasks|);
    match step
    case PushUser(t) => LocalUpdate(g, s, s', t);
    case Emplace(t) => LocalUpdate(g, s, s', t);
    case InitBegin(t) => LocalUpdate(g, s, s', t);
    case Lock(t) => LocalUpdate(g, s, s', t);
    case InitEnd(t) => LocalUpdate(g, s, s', t);
    case Start(t) => LocalUpdate(g, s, s', t);
  }

  lemma LocalLate(g: Graph, s: State, step: Step)
    requires Local(g, s) && Exact(s) && Enabled(g, s, step) && OwnStep(step) && !EarlyOwn(step)
    ensures Local(g, Apply(g, s, step))
  {
    var s' := Apply(g, s, step);
    assert LocalOk(g, s.tasks[step.t], step.t, |s.tasks|);
    match step
    case MakeEvent(t) => LocalUpdate(g, s, s', t);
    case FireEvent(t) => LocalUpdate(g, s, s', t);
    case DeliverEvent(t) => LocalUpdate(g, s, s', t);
    case Finish(t) => LocalUpdate(g, s, s', t);
    case Unlist(t) => LocalUpdate(g, s, s', t);
    case BeginNotify(t) => LocalUpdate(g, s, s', t);
    case TakeResult(t) => LocalUpdate(g, s, s', t);
  }

  lemma LocalScan(g: Graph, s: State, s': State, t: nat, raised: bool)
    requires Local(g, s) && ScanShaped(g, s, s', t, raised)
    ensures Local(g, s')
  {
    assert LocalOk(g, s.tasks[t], t, |s.tasks|);
    LocalUpdate(g, s, s', t);
  }

  lemma LocalShelved(g: Graph, s: State, s': State, t: nat)
    requires Local(g, s) && Shelved(s, s', t)
    ensures Local(g, s')
  {
    forall u | 0 <= u < |s.tasks| ensures LocalOk(g, s'.tasks[u], u, |s.tasks|) {
      assert LocalOk(g, s.tasks[u], u, |s.tasks|);
    }
  }

  lemma LocalSubmit(g: Graph, s: State)
    requires Lawful(g) && Local(g, s) && CanSubmit(g, s)
    ensures Local(g, DoSubmit(g, s))
  {
    var s' := DoSubmit(g, s);
    var n := |s.tasks|;
    forall t | 0 <= t <= n ensures LocalOk(g, s'.tasks[t], t, n + 1) {
      if t < n { assert LocalOk(g, s.tasks[t], t, n); }
    }
  }

  lemma LocalAddFollower(g: Graph, s: State, t: nat)
    requires Local(g, s) && Listing(g, s) && CanAddFollower(g, s, t)
    ensures Local(g, DoAddFollower(g, s, t))
  {
    EntryFacts(g, s, t);
    var p := Entry(g, s, t);
    var mid := MoveScan(s, t, Inc(s.tasks[t].phase.scan.n));
    assert LocalOk(g, s.tasks[t], t, |s.tasks|);
    LocalUpdate(g, s, mid, t);
    LocalPushed(g, mid, DoAddFollower(g, s, t), p, t);
  }

  lemma LocalPushed(g: Graph, s: State, s': State, p: nat, t: nat)
    requires Local(g, s) && p < t < |s.tasks| == |s'.tasks| && g.parent[p] == g.parent[t]
    requires !s.tasks[p].done.Closed?
    requires s'.tasks == s.tasks[p := s.tasks[p].(followers := s.tasks[p].followers + [Pre(t)])]
    ensures Local(g, s')
  {
    assert LocalOk(g, s.tasks[p], p, |s.tasks|);
    LocalUpdate(g, s, s', p);
  }

  lemma LocalDeliver(g: Graph, s: State, t: nat)
    requires Local(g, s) && Family(g, s) && Exact(s) && CanDeliver(g, s, t)
    ensures Local(g, DoDeliver(g, s, t))
  {
    var e := PoppedEntry(g, s, t);
    var f := s.tasks[t].followers;
    var mid := s.(tasks := s.tasks[t := s.tasks[t].(followers := f[..|f| - 1])]);
    LocalPop(g, s, mid, t);
    PostIsCounted(s, e);
    LocalNotify(g, mid, DoDeliver(g, s, t), e);
  }

  lemma PostIsCounted(s: State, e: Event)
    requires Exact(s) && e.t < |s.tasks| && Undelivered(s.tasks, e) >= 1
    ensures e.Post? ==> PostEdges(s.tasks[e.t]) >= 1
  {
    if e.Post? { assert e == Post(e.t) && PostEdges(s.tasks[e.t]) == Undelivered(s.tasks, Post(e.t)); }
  }

  lemma LocalPop(g: Graph, s: State, mid: State, t: nat)
    requires Local(g, s) && t < |s.tasks| && s.tasks[t].done.Notifying? && s.tasks[t].followers != []
    requires mid.tasks == s.tasks[t := s.tasks[t].(followers := s.tasks[t].followers[..|s.tasks[t].followers| - 1])]
    ensures Local(g, mid)
  {
    assert LocalOk(g, s.tasks[t], t, |s.tasks|);
    PoppedLocal(g, s.tasks[t], t, |s.tasks|);
    LocalUpdate(g, s, mid, t);
  }

  lemma LocalNotify(g: Graph, mid: State, s': State, e: Event)
    requires Local(g, mid) && e.t < |mid.tasks| && (e.Post? ==> PostEdges(mid.tasks[e.t]) >= 1)
    requires s'.tasks == Notify(mid.tasks, e)
    ensures Local(g, s')
  {
    assert LocalOk(g, mid.tasks[e.t], e.t, |mid.tasks|);
    NotifiedLocal(g, mid.tasks[e.t], e.t, |mid.tasks|, e.Pre?);
    LocalUpdate(g, mid, s', e.t);
  }

  lemma PoppedLocal(g: Graph, x: Task, t: nat, n: nat)
    requires t < |g.parent| == |g.resources| && n <= |g.parent|
    requires LocalOk(g, x, t, n) && x.done.Notifying? && x.followers != []
    ensures LocalOk(g, x.(followers := x.followers[..|x.followers| - 1]), t, n)
  {
  }

  lemma NotifiedLocal(g: Graph, x: Task, t: nat, n: nat, pre: bool)
    requires t < |g.parent| == |g.resources| && n <= |g.parent|
    requires LocalOk(g, x, t, n) && (!pre ==> PostEdges(x) >= 1)
    ensures LocalOk(g, if pre then NotifyPre(x, false) else NotifyPost(x), t, n)
  {
  }

  lemma LocalStep(g: Graph, s: State, step: Step)
    requires Lawful(g) && Local(g, s) && Family(g, s) && Listing(g, s) && Exact(s) && Enabled(g, s, step)
    ensures Local(g, Apply(g, s, step))
  {
    if OwnStep(step) {
      LocalOwn(g, s, step);
    } else if ScanStep(step) {
      ScanShape(g, s, step);
      LocalScan(g, s, Apply(g, s, step), step.t, step.Raise?);
    } else {
      match step
      case Submit => LocalSubmit(g, s);
      case AddFollower(t) => LocalAddFollower(g, s, t);
      case Deliver(t) => LocalDeliver(g, s, t);
      case Close(t) => CloseShape(g, s, t); LocalShelved(g, s, DoClose(g, s, t), t);
      case CountResult(t) => CountResultShape(g, s, t); LocalShelved(g, s, DoCountResult(g, s, t), t);
    }
  }
}
