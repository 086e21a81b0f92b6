/**
 The pruned predecessor scan is enough: an initialised task waits, directly or through a chain of
 conflicting tasks, for every unfinished earlier sibling it conflicts with.
 */
module GraphOrder {
  import opened ResourceUsers
  import opened EventGraph
  import opened GraphInvariant
  import opened GraphCore
  import opened GraphLists

  ghost predicate OrderInv(g: Graph, s: State)
  {
    |s.tasks| <= |g.parent| == |g.resources| && OrderedInits(g, s) && StartedAfter(g, s)
  }

  ghost predicate KeepsFinished(s: State, s': State)
  {
    |s.tasks| <= |s'.tasks| && forall i :: 0 <= i < |s.tasks| && Finished(s.tasks[i]) ==> Finished(s'.tasks[i])
  }

  /** Once reached, a post-event stays reached. */
  lemma FinishedKept(g: Graph, s: State, step: Step)
    requires Core(g, s) && Enabled(g, s, step)
    ensures KeepsFinished(s, Apply(g, s, step))
  {
    if OwnStep(step) {
      FinishedKeptOwn(g, s, step);
    } else if ScanStep(step) {
      ScanShape(g, s, step);
      FinishedKeptScan(g, s, Apply(g, s, step), step.t, step.Raise?);
    } else {
      FinishedKeptOther(g, s, step);
    }
  }

  lemma FinishedKeptOther(g: Graph, s: State, step: Step)
    requires Local(g, s) && Family(g, s) && Listing(g, s) && Exact(s)
    requires Enabled(g, s, step) && !OwnStep(step) && !ScanStep(step)
    ensures KeepsFinished(s, Apply(g, s, step))
  {
    match step
    case Deliver(t) => FinishedKeptDeliver(g, s, t);
    case Submit => FinishedKeptSubmit(g, s);
    case Close(t) => FinishedKeptClose(g, s, t);
    case CountResult(t) => FinishedKeptCountResult(g, s, t);
    case AddFollower(t) => FinishedKeptAddFollower(g, s, t);
  }

  lemma FinishedKeptScan(g: Graph, s: State, s': State, t: nat, raised: bool)
    requires ScanShaped(g, s, s', t, raised)
    ensures KeepsFinished(s, s')
  {
  }

  lemma FinishedKeptClose(g: Graph, s: State, t: nat)
    requires Family(g, s) && CanClose(g, s, t)
    ensures KeepsFinished(s, DoClose(g, s, t))
  {
    CloseShape(g, s, t);
  }

  lemma FinishedKeptCountResult(g: Graph, s: State, t: nat)
    requires Family(g, s) && CanCountResult(g, s, t)
    ensures KeepsFinished(s, DoCountResult(g, s, t))
  {
    CountResultShape(g, s, t);
  }

  lemma FinishedKeptAddFollower(g: Graph, s: State, t: nat)
    requires Listing(g, s) && CanAddFollower(g, s, t)
    ensures KeepsFinished(s, DoAddFollower(g, s, t))
  {
    EntryFacts(g, s, t);
  }

  lemma FinishedKeptSubmit(g: Graph, s: State)
    requires Local(g, s) && CanSubmit(g, s)
    ensures KeepsFinished(s, DoSubmit(g, s))
  {
    SubmitShape(g, s);
    forall i | 0 <= i < |s.tasks| ensures LocalOk(g, s.tasks[i], i, |s.tasks|) {}
  }

  lemma FinishedKeptOwn(g: Graph, s: State, step: Step)
    requires Local(g, s) && Exact(s) && Enabled(g, s, step) && OwnStep(step)
    ensures KeepsFinished(s, Apply(g, s, step))
  {
    assert LocalOk(g, s.tasks[step.t], step.t, |s.tasks|);
    assert PostEdges(s.tasks[step.t]) == Undelivered(s.tasks, Post(step.t));
  }

  lemma FinishedKeptDeliver(g: Graph, s: State, t: nat)
    requires Local(g, s) && Family(g, s) && Exact(s) && CanDeliver(g, s, t)
    ensures KeepsFinished(s, DoDeliver(g, s, t))
  {
    var e := PoppedEntry(g, s, t);
    assert PostEdges(s.tasks[e.t]) == Undelivered(s.tasks, Post(e.t));
    assert LocalOk(g, s.tasks[e.t], e.t, |s.tasks|);
  }

  /** Waiting relations survive when follower lists only grow. */
  predicate Grows(s: State, s': State)
  {
    && |s.tasks| <= |s'.tasks|
    && forall i :: 0 <= i < |s.tasks| ==>
                     && (Finished(s.tasks[i]) ==> Finished(s'.tasks[i]))
                     && s.tasks[i].followers <= s'.tasks[i].followers
  }

  lemma SafeGrows(g: Graph, s: State, s': State, q: nat, t: nat)
    requires |s'.tasks| <= |g.parent| && Grows(s, s') && q < |s.tasks| && Safe(g, s, q, t)
    ensures Safe(g, s', q, t)
  {
    if !Finished(s.tasks[q]) {
      var p: nat :| WaitsFor(g, s, q, t, p);
      assert WaitsFor(g, s', q, t, p);
    }
  }

  /** A task that is not newly initialised, started or further in its scan. */
  ghost predicate NoFurther(g: Graph, s: State, s': State, t: nat)
    requires t < |s.tasks| <= |s'.tasks| <= |g.resources|
  {
    var x, x' := s.tasks[t], s'.tasks[t];
    && (Started(x') ==> Started(x))
    && (x'.phase.Waiting? ==> x.phase.Waiting?)
    && (x'.phase.Initing? ==> forall q, r :: Passed(g, s', t, q, r) ==> x.phase.Initing? && Passed(g, s, t, q, r))
  }

  lemma OrderFrame(g: Graph, s: State, s': State)
    requires Grows(s, s') && |s'.tasks| <= |g.parent| == |g.resources| && OrderInv(g, s)
    requires forall t :: 0 <= t < |s.tasks| ==> NoFurther(g, s, s', t)
    requires forall t :: |s.tasks| <= t < |s'.tasks| ==> s'.tasks[t].phase.Submitting?
    ensures OrderInv(g, s')
  {
    forall q, t {:trigger g.conflict(q, t)} |
      && Siblings(g, q, t, |s'.tasks|) && g.conflict(q, t)
      && (s'.tasks[t].phase.Waiting? || Started(s'.tasks[t]))
      ensures Safe(g, s', q, t)
    {
      assert NoFurther(g, s, s', t);
      SafeGrows(g, s, s', q, t);
    }
    forall q, t, r {:trigger g.on(q, t, r)} |
      && Siblings(g, q, t, |s'.tasks|) && g.on(q, t, r)
      && s'.tasks[t].phase.Initing? && Passed(g, s', t, q, r)
      ensures Safe(g, s', q, t)
    {
      assert NoFurther(g, s, s', t);
      SafeGrows(g, s, s', q, t);
    }
    forall q, t {:trigger g.conflict(q, t)} |
      Siblings(g, q, t, |s'.tasks|) && g.conflict(q, t) && Started(s'.tasks[t])
      ensures Finished(s'.tasks[q])
    {
      assert NoFurther(g, s, s', t);
    }
  }

  lemma SamePhase(g: Graph, s: State, s': State, t: nat)
    requires t < |s.tasks| <= |s'.tasks| <= |g.resources| && s'.tasks[t].phase == s.tasks[t].phase
    requires Scanning(s.tasks[t]) && s.tasks[t].phase.k < |g.resources[t]| ==>
               && Ahead(s.tasks[t].phase.scan) <= |Users(s, ScanResource(g, s.tasks[t], t))|
               && Users(s, ScanResource(g, s.tasks[t], t)) <= Users(s', ScanResource(g, s.tasks[t], t))
    ensures NoFurther(g, s, s', t)
  {
    if Scanning(s.tasks[t]) && s.tasks[t].phase.k < |g.resources[t]| {
      var r := ScanResource(g, s.tasks[t], t);
      var a := Ahead(s.tasks[t].phase.scan);
      assert Users(s', r)[..a] == Users(s, r)[..a];
    }
  }

  lemma AheadInRange(g: Graph, s: State, t: nat)
    requires Listing(g, s) && t < |s.tasks|
    ensures Scanning(s.tasks[t]) && s.tasks[t].phase.k < |g.resources[t]| ==>
              Ahead(s.tasks[t].phase.scan) <= |Users(s, ScanResource(g, s.tasks[t], t))|
  {
    assert ScanOk(g, s, t);
  }

  // ------------------------------------------------------------ steps that change no scan

  /** Everything but scan steps, hand-over steps and deliveries leaves the order invariant alone. */
  predicate Calm(step: Step)
  {
    OwnStep(step) && !step.Lock? && !step.InitEnd? && !step.Start?
  }

  lemma OrderCalm(g: Graph, s: State, step: Step)
    requires Core(g, s) && OrderInv(g, s) && Enabled(g, s, step) && Calm(step)
    ensures OrderInv(g, Apply(g, s, step))
  {
    var s' := Apply(g, s, step);
    FinishedKept(g, s, step);
    forall t | 0 <= t < |s.tasks| ensures NoFurther(g, s, s', t) {
      CalmTask(g, s, step, t);
    }
    OrderFrame(g, s, s');
  }

  lemma CalmTask(g: Graph, s: State, step: Step, t: nat)
    requires Local(g, s) && Listing(g, s) && Enabled(g, s, step) && Calm(step) && t < |s.tasks|
    ensures NoFurther(g, s, Apply(g, s, step), t)
  {
    var s' := Apply(g, s, step);
    assert LocalOk(g, s.tasks[t], t, |s.tasks|);
    AheadInRange(g, s, t);
    if s'.tasks[t].phase == s.tasks[t].phase {
      SamePhase(g, s, s', t);
    } else if step.InitBegin? {
      assert g.resources[t][..0] == [];
    }
  }

  lemma OrderShelved(g: Graph, s: State, s': State, t: nat)
    requires Listing(g, s) && OrderInv(g, s) && Shelved(s, s', t)
    ensures OrderInv(g, s')
  {
    forall u | 0 <= u < |s.tasks| ensures NoFurther(g, s, s', u) {
      AheadInRange(g, s, u);
      SamePhase(g, s, s', u);
    }
    OrderFrame(g, s, s');
  }

  lemma OrderSubmit(g: Graph, s: State, s': State)
    requires Listing(g, s) && OrderInv(g, s) && SubmitShaped(g, s, s') && KeepsFinished(s, s')
    ensures OrderInv(g, s')
  {
    forall u | 0 <= u < |s.tasks| ensures NoFurther(g, s, s', u) {
      AheadInRange(g, s, u);
      SamePhase(g, s, s', u);
    }
    OrderFrame(g, s, s');
  }

  // ------------------------------------------------------------ scan steps

  /** What a step of task `t` must establish about `t` when all else is as before. */
  lemma OrderOneTask(g: Graph, s: State, s': State, t: nat)
    requires |s'.tasks| == |s.tasks| <= |g.parent| == |g.resources| && t < |s.tasks|
    requires OrderInv(g, s) && Grows(s, s')
    requires forall u :: 0 <= u < |s.tasks| && u != t ==> NoFurther(g, s, s', u)
    requires s'.tasks[t].phase.Initing?
    requires forall q, r :: Siblings(g, q, t, |s.tasks|) && g.on(q, t, r) && Passed(g, s', t, q, r) ==>
            Safe(g, s', q, t)
    ensures OrderInv(g, s')
  {
    forall q, u {:trigger g.conflict(q, u)} |
      && Siblings(g, q, u, |s'.tasks|) && g.conflict(q, u)
      && (s'.tasks[u].phase.Waiting? || Started(s'.tasks[u]))
      ensures Safe(g, s', q, u)
    {
      assert NoFurther(g, s, s', u);
      SafeGrows(g, s, s', q, u);
    }
    forall q, u, r {:trigger g.on(q, u, r)} |
      && Siblings(g, q, u, |s'.tasks|) && g.on(q, u, r)
      && s'.tasks[u].phase.Initing? && Passed(g, s', u, q, r)
      ensures Safe(g, s', q, u)
    {
      if u != t {
        assert NoFurther(g, s, s', u);
        SafeGrows(g, s, s', q, u);
      }
    }
    forall q, u {:trigger g.conflict(q, u)} |
      Siblings(g, q, u, |s'.tasks|) && g.conflict(q, u) && Started(s'.tasks[u])
      ensures Finished(s'.tasks[q])
    {
      assert NoFurther(g, s, s', u);
    }
  }

  /** A sibling that is not in the list when the lock is taken has been removed from it. */
  lemma MissingIsFinished(g: Graph, s: State, q: nat, t: nat, r: Resource)
    requires Lawful(g) && Local(g, s) && Family(g, s) && Listing(g, s)
    requires Siblings(g, q, t, |s.tasks|) && g.on(q, t, r) && s.tasks[t].phase.Initing?
    requires q !in Users(s, r)[..IndexOf(Users(s, r), t)]
    ensures Finished(s.tasks[q])
  {
    var us := Users(s, r);
    assert LocalOk(g, s.tasks[q], q, |s.tasks|) && LocalOk(g, s.tasks[t], t, |s.tasks|);
    assert t in us;
    var i := IndexOf(us, t);
    assert OrderedList(g, us);
    assert us == us[..i] + [t] + us[i + 1..];
    assert q !in us;
  }

  lemma OrderLock(g: Graph, s: State, t: nat)
    requires Lawful(g) && Core(g, s) && OrderInv(g, s) && CanLock(g, s, t)
    ensures OrderInv(g, DoLock(g, s, t))
  {
    var s' := DoLock(g, s, t);
    var r0 := ScanResource(g, s.tasks[t], t);
    forall u | 0 <= u < |s.tasks| && u != t ensures NoFurther(g, s, s', u) {
      AheadInRange(g, s, u);
      SamePhase(g, s, s', u);
    }
    forall q, r | Siblings(g, q, t, |s.tasks|) && g.on(q, t, r) && Passed(g, s', t, q, r) ensures Safe(g, s', q, t) {
      if Passed(g, s, t, q, r) {
        SafeGrows(g, s, s', q, t);
      } else {
        MissingIsFinished(g, s, q, t, r0);
      }
    }
    OrderOneTask(g, s, s', t);
  }

  /** The entry under examination is dealt with: finished, or the task was made to follow it. */
  predicate Settled(s: State, p: nat, t: nat)
    requires p < |s.tasks|
  {
    Finished(s.tasks[p]) || Pre(t) in s.tasks[p].followers
  }

  /**
   The early stop. Everything in front of a settled synchronizing predecessor that conflicts with
   `t` on this resource conflicts with that predecessor, and so is ordered before it.
   */
  lemma EarlyStop(g: Graph, s: State, q: nat, t: nat, p: nat, r: Resource)
    requires Lawful(g) && Core(g, s) && OrderInv(g, s)
    requires Siblings(g, q, t, |s.tasks|) && Siblings(g, p, t, |s.tasks|) && q <= p
    requires g.on(q, t, r) && g.sync(p, r) && Settled(s, p, t)
    ensures Safe(g, s, q, t)
  {
    assert g.conflict(q, p);
    if Finished(s.tasks[p]) {
      assert LocalOk(g, s.tasks[p], p, |s.tasks|);
      if q < p { assert Siblings(g, q, p, |s.tasks|); }
    } else {
      assert WaitsFor(g, s, q, t, p);
    }
  }

  /** No sibling of `t` is listed in front of the parent of `t`. */
  lemma ParentStop(g: Graph, s: State, q: nat, t: nat, n: nat, us: seq<nat>)
    requires Family(g, s) && OrderedList(g, us) && 0 < n <= |us| && t < |s.tasks|
    requires us[n - 1] == g.parent[t] && Siblings(g, q, t, |s.tasks|)
    ensures q !in us[..n]
  {
    if q in us[..n] {
      var i :| 0 <= i < n && us[i] == q;
      assert false;
    }
  }

  /** After a scan step the scan is through with `q`. */
  predicate NowPassed(g: Graph, s: State, step: Step, q: nat, r: Resource)
    requires Enabled(g, s, step) && ScanStep(step)
  {
    var s' := Apply(g, s, step);
    step.t < |s'.tasks| <= |g.resources| && s'.tasks[step.t].phase.Initing? && Passed(g, s', step.t, q, r)
  }

  /** After a scan step, every sibling the scan is through with is safe. */
  lemma ScanSafe(g: Graph, s: State, step: Step, q: nat, r: Resource)
    requires Enabled(g, s, step) && ScanStep(step) && s.tasks[step.t].phase.Initing?
    requires Siblings(g, q, step.t, |s.tasks|) && g.on(q, step.t, r) && NowPassed(g, s, step, q, r)
    requires Lawful(g) && Core(g, s) && OrderInv(g, s)
    ensures Safe(g, s, q, step.t)
  {
    if !Passed(g, s, step.t, q, r) {
      ScanShape(g, s, step);
      NewlyPassed(g, s, Apply(g, s, step), step.t, step.Raise?, q, r);
      EntryExists(g, s, step.t);
      ScannedList(g, s, step.t);
      NotBehindParent(g, s, step.t, q);
      assert g.conflict(q, step.t);
      var i := KnowEntry(g, s, step, q);
      StoppedAt(g, s, step, q, i);
      var p := Entry(g, s, step.t);
      if q != p { EarlyStop(g, s, q, step.t, p, r); }
    }
  }

  /** What the invariant says about the entry a scan step examines and an entry `q` below it. */
  predicate EntryKnown(g: Graph, s: State, step: Step, q: nat, i: nat)
    requires !step.Submit? && step.t < |s.tasks| && step.t < |g.resources| == |g.parent| && HasEntry(g, s, step.t)
  {
    var t, p, r := step.t, Entry(g, s, step.t), ScanResource(g, s.tasks[step.t], step.t);
    && p != g.parent[t] && InOrder(g, p, t)
    && i < Ahead(s.tasks[t].phase.scan) <= |Users(s, r)| && Users(s, r)[i] == q
    && (i < s.tasks[t].phase.scan.n - 1 ==> InOrder(g, q, p))
    && q < |g.parent| && g.parent[q] == g.parent[t] && g.conflict(q, t)
    && (!step.Look? ==> g.parent[p] == g.parent[t])
    && (step.Raise? ==> Pre(t) in s.tasks[p].followers)
  }

  /** The list under the scan of `t` is in order, and the entry examined comes before `t`. */
  lemma ScannedList(g: Graph, s: State, t: nat)
    requires Local(g, s) && Listing(g, s) && t < |s.tasks| && HasEntry(g, s, t)
    ensures t < |g.parent| && InOrder(g, Entry(g, s, t), t) && ScanOk(g, s, t)
    ensures OrderedList(g, Users(s, ScanResource(g, s.tasks[t], t)))
  {
    OwnEntryAbove(g, s, t, s.tasks[t].phase.scan.n - 1);
    assert OrderedList(g, Users(s, ScanResource(g, s.tasks[t], t)));
  }

  lemma KnowEntry(g: Graph, s: State, step: Step, q: nat) returns (i: nat)
    requires ScanStep(step) && step.t < |s.tasks| <= |g.resources| == |g.parent|
    requires HasEntry(g, s, step.t) && Entry(g, s, step.t) != g.parent[step.t]
    requires InOrder(g, Entry(g, s, step.t), step.t)
    requires step.Recheck? ==> s.tasks[step.t].phase.scan.Dep?
    requires step.Raise? ==> s.tasks[step.t].phase.scan.Inc?
    requires Siblings(g, q, step.t, |s.tasks|) && g.conflict(q, step.t) && ScanOk(g, s, step.t)
    requires var r := ScanResource(g, s.tasks[step.t], step.t);
             && Ahead(s.tasks[step.t].phase.scan) <= |Users(s, r)| && OrderedList(g, Users(s, r))
             && q in Users(s, r)[..Ahead(s.tasks[step.t].phase.scan)]
    ensures EntryKnown(g, s, step, q, i)
  {
    var r := ScanResource(g, s.tasks[step.t], step.t);
    i :| 0 <= i < Ahead(s.tasks[step.t].phase.scan) && Users(s, r)[i] == q;
    KnowIndex(g, s, step, q, i);
  }

  lemma KnowIndex(g: Graph, s: State, step: Step, q: nat, i: nat)
    requires ScanStep(step) && step.t < |s.tasks| <= |g.resources| == |g.parent|
    requires HasEntry(g, s, step.t) && Entry(g, s, step.t) != g.parent[step.t]
    requires InOrder(g, Entry(g, s, step.t), step.t)
    requires step.Recheck? ==> s.tasks[step.t].phase.scan.Dep?
    requires step.Raise? ==> s.tasks[step.t].phase.scan.Inc?
    requires Siblings(g, q, step.t, |s.tasks|) && g.conflict(q, step.t) && ScanOk(g, s, step.t)
    requires var r := ScanResource(g, s.tasks[step.t], step.t);
             && i < Ahead(s.tasks[step.t].phase.scan) <= |Users(s, r)| && Users(s, r)[i] == q
             && OrderedList(g, Users(s, r))
    ensures EntryKnown(g, s, step, q, i)
  {
    EntryBelow(g, Users(s, ScanResource(g, s.tasks[step.t], step.t)), i, s.tasks[step.t].phase.scan.n - 1);
  }

  lemma EntryExists(g: Graph, s: State, t: nat)
    requires Local(g, s) && Listing(g, s) && t < |s.tasks| && Scanning(s.tasks[t]) && 0 < s.tasks[t].phase.scan.n
    ensures HasEntry(g, s, t)
  {
    OwnEntryAbove(g, s, t, s.tasks[t].phase.scan.n - 1);
    assert ScanOk(g, s, t);
  }

  lemma NotBehindParent(g: Graph, s: State, t: nat, q: nat)
    requires Family(g, s) && t < |s.tasks| && t < |g.resources| && HasEntry(g, s, t)
    requires OrderedList(g, Users(s, ScanResource(g, s.tasks[t], t))) && Siblings(g, q, t, |s.tasks|)
    requires q in Users(s, ScanResource(g, s.tasks[t], t))[..Ahead(s.tasks[t].phase.scan)]
    ensures Entry(g, s, t) != g.parent[t]
  {
    if Entry(g, s, t) == g.parent[t] {
      ParentStop(g, s, q, t, s.tasks[t].phase.scan.n, Users(s, ScanResource(g, s.tasks[t], t)));
    }
  }

  /** A sibling that a scan step passes is at or below the entry examined. */
  lemma NewlyPassed(g: Graph, s: State, s': State, t: nat, raised: bool, q: nat, r: Resource)
    requires Local(g, s) && Listing(g, s) && ScanShaped(g, s, s', t, raised) && q < |s.tasks|
    requires Passed(g, s', t, q, r) && !Passed(g, s, t, q, r)
    ensures r == ScanResource(g, s.tasks[t], t)
    ensures 0 < s.tasks[t].phase.scan.n <= |Users(s, r)|
    ensures q in Users(s, r)[..Ahead(s.tasks[t].phase.scan)]
  {
    assert LocalOk(g, s.tasks[t], t, |s.tasks|);
    assert ScanOk(g, s, t);
    var k := s.tasks[t].phase.k;
    assert g.resources[t][..k + 1] == g.resources[t][..k] + [g.resources[t][k]];
  }

  /** Either the entry itself was passed and is finished, or the scan stopped at it for good reason. */
  lemma StoppedAt(g: Graph, s: State, step: Step, q: nat, i: nat)
    requires Enabled(g, s, step) && ScanStep(step) && HasEntry(g, s, step.t) && EntryKnown(g, s, step, q, i)
    requires !Passed(g, s, step.t, q, ScanResource(g, s.tasks[step.t], step.t))
    requires NowPassed(g, s, step, q, ScanResource(g, s.tasks[step.t], step.t))
    ensures var p, r := Entry(g, s, step.t), ScanResource(g, s.tasks[step.t], step.t);
            && Siblings(g, p, step.t, |s.tasks|)
            && (q == p ==> Finished(s.tasks[p]))
            && (q != p ==> q <= p && g.sync(p, r) && Settled(s, p, step.t))
  {
    match step
    case Look(t) => EntryLooked(g, s, t, q, i);
    case Recheck(t) => EntryRechecked(g, s, t, q, i);
    case Raise(t) => EntryRaised(g, s, t, q, i);
  }

  lemma EntryBelow(g: Graph, us: seq<nat>, i: nat, j: nat)
    requires OrderedList(g, us) && i <= j < |us|
    ensures i < j ==> InOrder(g, us[i], us[j])
  {
  }

  lemma EntryLooked(g: Graph, s: State, t: nat, q: nat, i: nat)
    requires CanLook(g, s, t) && HasEntry(g, s, t) && Entry(g, s, t) != g.parent[t]
    requires var r := ScanResource(g, s.tasks[t], t);
             && i < s.tasks[t].phase.scan.n && Users(s, r)[i] == q
             && g.parent[t] == (if q < |g.parent| then g.parent[q] else -2) && g.conflict(q, t)
             && !Passed(g, s, t, q, r) && Passed(g, DoLook(g, s, t), t, q, r)
    ensures var p, r := Entry(g, s, t), ScanResource(g, s.tasks[t], t);
            && g.parent[p] == g.parent[t] && Finished(s.tasks[p])
            && (i < s.tasks[t].phase.scan.n - 1 ==> g.sync(p, r))
  {
  }

  lemma EntryRechecked(g: Graph, s: State, t: nat, q: nat, i: nat)
    requires CanRecheck(g, s, t)
    requires var r := ScanResource(g, s.tasks[t], t);
             && i < s.tasks[t].phase.scan.n && Users(s, r)[i] == q
             && !Passed(g, s, t, q, r) && Passed(g, DoRecheck(g, s, t), t, q, r)
    ensures var p, r := Entry(g, s, t), ScanResource(g, s.tasks[t], t);
            && Finished(s.tasks[p])
            && (i < s.tasks[t].phase.scan.n - 1 ==> g.sync(p, r))
  {
  }

  lemma EntryRaised(g: Graph, s: State, t: nat, q: nat, i: nat)
    requires CanRaise(g, s, t)
    requires var r := ScanResource(g, s.tasks[t], t);
             && i < s.tasks[t].phase.scan.n - 1 && Users(s, r)[i] == q
             && !Passed(g, s, t, q, r) && Passed(g, DoRaise(g, s, t), t, q, r)
    ensures g.sync(Entry(g, s, t), ScanResource(g, s.tasks[t], t))
  {
  }

  lemma OthersNoFurther(g: Graph, s: State, s': State, t: nat, raised: bool)
    requires Listing(g, s) && ScanShaped(g, s, s', t, raised)
    ensures forall u :: 0 <= u < |s.tasks| && u != t ==> NoFurther(g, s, s', u)
  {
    forall u | 0 <= u < |s.tasks| && u != t ensures NoFurther(g, s, s', u) {
      AheadInRange(g, s, u);
      SamePhase(g, s, s', u);
    }
  }

  lemma OrderScan(g: Graph, s: State, step: Step)
    requires Enabled(g, s, step) && ScanStep(step)
    requires Lawful(g) && Core(g, s) && OrderInv(g, s)
    ensures OrderInv(g, Apply(g, s, step))
  {
    ScanShape(g, s, step);
    ScanAllSafe(g, s, step);
    OrderScanned(g, s, Apply(g, s, step), step.t, step.Raise?);
  }

  lemma ScanAllSafe(g: Graph, s: State, step: Step)
    requires Enabled(g, s, step) && ScanStep(step) && s.tasks[step.t].phase.Initing?
    requires Lawful(g) && Core(g, s) && OrderInv(g, s)
    ensures forall q, r :: Siblings(g, q, step.t, |s.tasks|) && g.on(q, step.t, r) && NowPassed(g, s, step, q, r) ==>
                             Safe(g, s, q, step.t)
  {
    forall q, r | Siblings(g, q, step.t, |s.tasks|) && g.on(q, step.t, r) && NowPassed(g, s, step, q, r)
      ensures Safe(g, s, q, step.t)
    {
      ScanSafe(g, s, step, q, r);
    }
  }

  lemma OrderScanned(g: Graph, s: State, s': State, t: nat, raised: bool)
    requires Listing(g, s) && OrderInv(g, s) && ScanShaped(g, s, s', t, raised)
    requires forall q, r :: Siblings(g, q, t, |s.tasks|) && g.on(q, t, r) && Passed(g, s', t, q, r) ==> Safe(g, s, q, t)
    ensures OrderInv(g, s')
  {
    OthersNoFurther(g, s, s', t, raised);
    forall q, r | Siblings(g, q, t, |s.tasks|) && g.on(q, t, r) && Passed(g, s', t, q, r) ensures Safe(g, s', q, t) {
      SafeGrows(g, s, s', q, t);
    }
    OrderOneTask(g, s, s', t);
  }

  lemma OrderAddFollower(g: Graph, s: State, t: nat)
    requires Lawful(g) && Local(g, s) && Listing(g, s) && OrderInv(g, s) && CanAddFollower(g, s, t)
    ensures OrderInv(g, DoAddFollower(g, s, t))
  {
    EntryFacts(g, s, t);
    var p := Entry(g, s, t);
    var s' := DoAddFollower(g, s, t);
    forall u | 0 <= u < |s.tasks| && u != t ensures NoFurther(g, s, s', u) {
      AheadInRange(g, s, u);
      SamePhase(g, s, s', u);
    }
    forall q, r | Siblings(g, q, t, |s.tasks|) && g.on(q, t, r) && Passed(g, s', t, q, r) ensures Safe(g, s', q, t) {
      if q == p {
        FollowsNow(g, s, t);
      } else {
        PassedBefore(g, s, t, q, r);
        SafeGrows(g, s, s', q, t);
      }
    }
    OrderOneTask(g, s, s', t);
  }

  lemma FollowsNow(g: Graph, s: State, t: nat)
    requires CanAddFollower(g, s, t) && Entry(g, s, t) < t && g.parent[Entry(g, s, t)] == g.parent[t]
    ensures |DoAddFollower(g, s, t).tasks| == |s.tasks|
    ensures Safe(g, DoAddFollower(g, s, t), Entry(g, s, t), t)
  {
    var p := Entry(g, s, t);
    assert WaitsFor(g, DoAddFollower(g, s, t), p, t, p);
  }

  lemma PassedBefore(g: Graph, s: State, t: nat, q: nat, r: Resource)
    requires |s.tasks| <= |g.resources| && CanAddFollower(g, s, t) && Entry(g, s, t) != t && q != Entry(g, s, t)
    requires Passed(g, DoAddFollower(g, s, t), t, q, r)
    ensures Passed(g, s, t, q, r)
  {
    var n := s.tasks[t].phase.scan.n;
    var us := Users(s, ScanResource(g, s.tasks[t], t));
    assert us[..n] == us[..n - 1] + [Entry(g, s, t)];
  }

  // ------------------------------------------------------------ hand-over steps

  lemma OrderInitEnd(g: Graph, s: State, t: nat)
    requires Lawful(g) && Core(g, s) && OrderInv(g, s) && CanInitEnd(g, s, t)
    ensures OrderInv(g, DoInitEnd(g, s, t))
  {
    var s' := DoInitEnd(g, s, t);
    var before := s.(tasks := s.tasks[t := s'.tasks[t].(phase := s.tasks[t].phase)]);
    forall u | 0 <= u < |s.tasks| ensures NoFurther(g, s, before, u) {
      AheadInRange(g, s, u);
      SamePhase(g, s, before, u);
    }
    OrderFrame(g, s, before);
    forall q | Siblings(g, q, t, |s.tasks|) && g.conflict(q, t) ensures Safe(g, before, q, t) {
      assert SharedConflict(g, q, t);
      var i :| 0 <= i < |g.resources[t]| && g.on(q, t, g.resources[t][i]);
      assert g.resources[t][..|g.resources[t]|] == g.resources[t];
      assert Passed(g, before, t, q, g.resources[t][i]);
    }
    Promote(g, before, s', t);
  }

  /** Advancing one task to waiting or running needs safety of that task only. */
  lemma Promote(g: Graph, s: State, s': State, t: nat)
    requires |s.tasks| <= |g.parent| == |g.resources| && OrderInv(g, s) && t < |s.tasks|
    requires |s'.tasks| == |s.tasks| && s' == s.(tasks := s.tasks[t := s'.tasks[t]])
    requires s'.tasks[t].followers == s.tasks[t].followers && s'.tasks[t].post == s.tasks[t].post
    requires s'.tasks[t].phase.Waiting? || s'.tasks[t].phase.Running?
    requires forall q :: Siblings(g, q, t, |s.tasks|) && g.conflict(q, t) ==> Safe(g, s, q, t)
    requires s'.tasks[t].phase.Running? ==>
               forall q :: Siblings(g, q, t, |s.tasks|) && g.conflict(q, t) ==> Finished(s.tasks[q])
    ensures OrderInv(g, s')
  {
    assert Grows(s, s');
    forall q, u {:trigger g.conflict(q, u)} |
      && Siblings(g, q, u, |s'.tasks|) && g.conflict(q, u)
      && (s'.tasks[u].phase.Waiting? || Started(s'.tasks[u]))
      ensures Safe(g, s', q, u)
    {
      SafeGrows(g, s, s', q, u);
    }
    forall q, u, r {:trigger g.on(q, u, r)} |
      && Siblings(g, q, u, |s'.tasks|) && g.on(q, u, r)
      && s'.tasks[u].phase.Initing? && Passed(g, s', u, q, r)
      ensures Safe(g, s', q, u)
    {
      assert Passed(g, s, u, q, r);
      SafeGrows(g, s, s', q, u);
    }
  }

  /** The task that starts has nothing left to wait for. */
  lemma OrderStart(g: Graph, s: State, t: nat)
    requires Lawful(g) && Core(g, s) && OrderInv(g, s) && CanStart(g, s, t)
    ensures OrderInv(g, DoStart(g, s, t))
  {
    forall q | Siblings(g, q, t, |s.tasks|) && g.conflict(q, t) ensures Finished(s.tasks[q]) {
      assert Safe(g, s, q, t);
      if !Finished(s.tasks[q]) {
        var p: nat :| WaitsFor(g, s, q, t, p);
        UndeliveredMember(s.tasks, p, Pre(t));
        assert false;
      }
    }
    Promote(g, s, DoStart(g, s, t), t);
  }

  // ------------------------------------------------------------ deliveries

  /** A delivered edge comes from a finished task, and whatever that task waited for is finished too. */
  lemma SafeDelivered(g: Graph, s: State, t: nat, q: nat, u: nat)
    requires Core(g, s) && OrderInv(g, s) && CanDeliver(g, s, t)
    requires Siblings(g, q, u, |s.tasks|) && Safe(g, s, q, u)
    ensures |DoDeliver(g, s, t).tasks| <= |g.parent| && Safe(g, DoDeliver(g, s, t), q, u)
  {
    var s' := DoDeliver(g, s, t);
    FinishedKept(g, s, Deliver(t));
    if !Finished(s.tasks[q]) {
      var p: nat :| WaitsFor(g, s, q, u, p);
      assert LocalOk(g, s.tasks[t], t, |s.tasks|);
      assert p != t;
      var e := PoppedEntry(g, s, t);
      assert WaitsFor(g, s', q, u, p);
    }
  }

  lemma DeliverPhases(g: Graph, s: State, t: nat)
    requires CanDeliver(g, s, t)
    ensures var s' := DoDeliver(g, s, t);
            && |s'.tasks| == |s.tasks| && s'.users == s.users
            && forall u :: 0 <= u < |s.tasks| ==> s'.tasks[u].phase == s.tasks[u].phase
  {
  }

  lemma OrderDeliver(g: Graph, s: State, t: nat)
    requires Core(g, s) && OrderInv(g, s) && CanDeliver(g, s, t)
    ensures OrderInv(g, DoDeliver(g, s, t))
  {
    var s' := DoDeliver(g, s, t);
    DeliverPhases(g, s, t);
    FinishedKept(g, s, Deliver(t));
    forall q, u {:trigger Safe(g, s', q, u)} | Siblings(g, q, u, |s.tasks|) && Safe(g, s, q, u)
      ensures Safe(g, s', q, u)
    {
      SafeDelivered(g, s, t, q, u);
    }
    OrderKept(g, s, s');
  }

  lemma OrderKept(g: Graph, s: State, s': State)
    requires |s'.tasks| == |s.tasks| <= |g.parent| == |g.resources| && OrderInv(g, s) && s'.users == s.users
    requires forall u :: 0 <= u < |s.tasks| ==> s'.tasks[u].phase == s.tasks[u].phase
    requires forall u :: 0 <= u < |s.tasks| && Finished(s.tasks[u]) ==> Finished(s'.tasks[u])
    requires forall q, u {:trigger Safe(g, s', q, u)} ::
               Siblings(g, q, u, |s.tasks|) && Safe(g, s, q, u) ==> Safe(g, s', q, u)
    ensures OrderInv(g, s')
  {
    forall q, u, r {:trigger g.on(q, u, r)} |
      && Siblings(g, q, u, |s'.tasks|) && g.on(q, u, r)
      && s'.tasks[u].phase.Initing? && Passed(g, s', u, q, r)
      ensures Safe(g, s', q, u)
    {
      assert Passed(g, s, u, q, r);
    }
  }

  /** Steps that end or begin a part of the way of a task from the lists to its body. */
  predicate Handover(step: Step)
  {
    step.Lock? || step.AddFollower? || step.InitEnd? || step.Start? || step.Deliver?
  }

  lemma OrderHandover(g: Graph, s: State, step: Step)
    requires Lawful(g) && Core(g, s) && OrderInv(g, s) && Enabled(g, s, step) && Handover(step)
    ensures OrderInv(g, Apply(g, s, step))
  {
    match step
    case Lock(t) => OrderLock(g, s, t);
    case AddFollower(t) => OrderAddFollower(g, s, t);
    case InitEnd(t) => OrderInitEnd(g, s, t);
    case Start(t) => OrderStart(g, s, t);
    case Deliver(t) => OrderDeliver(g, s, t);
  }

  lemma OrderStep(g: Graph, s: State, step: Step)
    requires Lawful(g) && Core(g, s) && OrderInv(g, s) && Enabled(g, s, step)
    ensures OrderInv(g, Apply(g, s, step))
  {
    if Calm(step) {
      OrderCalm(g, s, step);
    } else if ScanStep(step) {
      OrderScan(g, s, step);
    } else if Handover(step) {
      OrderHandover(g, s, step);
    } else {
      match step
      case Close(t) => CloseShape(g, s, t); OrderShelved(g, s, DoClose(g, s, t), t);
      case CountResult(t) => CountResultShape(g, s, t); OrderShelved(g, s, DoCountResult(g, s, t), t);
      case Submit => FinishedKeptSubmit(g, s); SubmitShape(g, s); OrderSubmit(g, s, DoSubmit(g, s));
    }
  }
}
