/**
 A task waits only for what it conflicts with, and a scan goes on only past what does not end it. With
 the invariant of the graph this says exactly when a task becomes ready.
 */
module GraphNeeds {
  import opened Common
  import opened ResourceUsers
  import opened EventGraph
  import opened GraphInvariant
  import opened GraphCore
  import opened GraphLists
  import opened GraphTheorems

  /** Task `t` is to be notified by `p`. */
  predicate Awaiting(s: State, p: nat, t: nat)
  {
    p < |s.tasks| && Pre(t) in s.tasks[p].followers
  }

  ghost predicate EntriesNeeded(g: Graph, s: State)
  {
    forall p: nat, t: nat {:trigger Awaiting(s, p, t)} :: Awaiting(s, p, t) ==> g.conflict(p, t)
  }

  /** Entry `p` of the list of `r` ends a scan by `t`: the parent, or a dependency that is synchronizing. */
  predicate StopsAt(g: Graph, p: nat, t: nat, r: Resource)
  {
    && p < |g.parent| && t < |g.parent|
    && (p == g.parent[t] || (g.parent[p] == g.parent[t] && g.conflict(p, t) && g.sync(p, r)))
  }

  /** The entry a scan works on is a conflict, and none of those between it and the scanning task ends the scan. */
  ghost predicate ScanNeeded(g: Graph, s: State, t: nat)
    requires t < |s.tasks| && t < |g.resources|
  {
    var x := s.tasks[t];
    Scanning(x) && x.phase.k < |g.resources[t]| ==>
      var us := Users(s, ScanResource(g, x, t));
      && (!x.phase.scan.At? && 0 < x.phase.scan.n <= |us| ==> g.conflict(us[x.phase.scan.n - 1], t))
      && NoStop(g, us, x.phase.scan.n, t, ScanResource(g, x, t))
  }

  ghost predicate NoStop(g: Graph, us: seq<nat>, n: nat, t: nat, r: Resource)
  {
    forall k :: n <= k < IndexOf(us, t) ==> !StopsAt(g, us[k], t, r)
  }

  ghost predicate ScansNeeded(g: Graph, s: State)
    requires |s.tasks| <= |g.resources|
  {
    forall t :: 0 <= t < |s.tasks| ==> ScanNeeded(g, s, t)
  }

  ghost predicate Needed(g: Graph, s: State)
  {
    |s.tasks| <= |g.resources| && EntriesNeeded(g, s) && ScansNeeded(g, s)
  }

  // ------------------------------------------------------------ steps that change no scan

  /** Nothing new is awaited. */
  ghost predicate NoMoreAwaited(s: State, s': State)
  {
    forall p: nat, t: nat {:trigger Awaiting(s', p, t)} :: Awaiting(s', p, t) ==> Awaiting(s, p, t)
  }

  lemma EntriesKept(g: Graph, s: State, s': State)
    requires EntriesNeeded(g, s) && NoMoreAwaited(s, s')
    ensures EntriesNeeded(g, s')
  {
    forall p: nat, t: nat | Awaiting(s', p, t) ensures g.conflict(p, t) { assert Awaiting(s, p, t); }
  }

  lemma {:induction false} IndexFromIs(s: seq<nat>, x: nat, k: nat, i: nat)
    requires k <= i < |s| && s[i] == x && x !in s[..i]
    ensures IndexFrom(s, x, k) == i
    decreases i - k
  {
    if k < i {
      assert s[k] in s[..i];
      IndexFromIs(s, x, k + 1, i);
    }
  }

  lemma IndexKept(us: seq<nat>, vs: seq<nat>, t: nat)
    requires t in us && us <= vs
    ensures IndexOf(vs, t) == IndexOf(us, t) < |us|
  {
    assert us[..|us|] == us;
    var i := IndexOf(us, t);
    assert vs[..i] == us[..i] && vs[i] == us[i];
    IndexFromIs(vs, t, 0, i);
  }

  /** A task that scans is in the list it scans. */
  lemma ScannerIsListed(g: Graph, s: State, t: nat)
    requires Local(g, s) && Listing(g, s) && t < |s.tasks| && Scanning(s.tasks[t])
    ensures s.tasks[t].phase.k < |g.resources[t]| && t in Users(s, ScanResource(g, s.tasks[t], t))
  {
    assert LocalOk(g, s.tasks[t], t, |s.tasks|);
    assert Listed(g, s.tasks[t], t, ScanResource(g, s.tasks[t], t));
  }

  /** The list a task scans is at most extended. */
  predicate ListGrows(g: Graph, s: State, s': State, t: nat)
    requires t < |s.tasks| && t < |g.resources|
  {
    Scanning(s.tasks[t]) && s.tasks[t].phase.k < |g.resources[t]| ==>
      Users(s, ScanResource(g, s.tasks[t], t)) <= Users(s', ScanResource(g, s.tasks[t], t))
  }

  lemma ScanKept(g: Graph, s: State, s': State, t: nat)
    requires Local(g, s) && Listing(g, s) && t < |s.tasks| && t < |s'.tasks| && ScanNeeded(g, s, t)
    requires SameScan(s.tasks[t], s'.tasks[t]) && ListGrows(g, s, s', t)
    ensures ScanNeeded(g, s', t)
  {
    if Scanning(s.tasks[t]) {
      ScannerIsListed(g, s, t);
      var r := ScanResource(g, s.tasks[t], t);
      IndexKept(Users(s, r), Users(s', r), t);
      assert ScanOk(g, s, t);
    }
  }

  lemma ScansKept(g: Graph, s: State, s': State)
    requires Local(g, s) && Listing(g, s) && ScansNeeded(g, s) && |s.tasks| == |s'.tasks|
    requires forall t :: 0 <= t < |s.tasks| ==> SameScan(s.tasks[t], s'.tasks[t]) && ListGrows(g, s, s', t)
    ensures ScansNeeded(g, s')
  {
    forall t | 0 <= t < |s'.tasks| ensures ScanNeeded(g, s', t) { ScanKept(g, s, s', t); }
  }

  /** No user list and no scan changes, and nothing new is awaited. */
  lemma NeededFrame(g: Graph, s: State, s': State)
    requires Local(g, s) && Listing(g, s) && Needed(g, s) && |s.tasks| == |s'.tasks| && SameUsers(s, s')
    requires forall t :: 0 <= t < |s.tasks| ==> SameScan(s.tasks[t], s'.tasks[t])
    requires NoMoreAwaited(s, s')
    ensures Needed(g, s')
  {
    EntriesKept(g, s, s');
    ScansKept(g, s, s');
  }

  lemma NeededShelved(g: Graph, s: State, s': State, t: nat)
    requires Local(g, s) && Listing(g, s) && Needed(g, s) && Shelved(s, s', t)
    ensures Needed(g, s')
  {
    NeededFrame(g, s, s');
  }

  lemma NeededDeliver(g: Graph, s: State, t: nat)
    requires Local(g, s) && Family(g, s) && Listing(g, s) && Needed(g, s) && CanDeliver(g, s, t)
    ensures Needed(g, DoDeliver(g, s, t))
  {
    var e := PoppedEntry(g, s, t);
    DeliverAwaits(g, s, t, e);
    NeededFrame(g, s, DoDeliver(g, s, t));
  }

  lemma DeliverAwaits(g: Graph, s: State, t: nat, e: Event)
    requires CanDeliver(g, s, t) && e == s.tasks[t].followers[|s.tasks[t].followers| - 1] && e.t != t
    ensures var s' := DoDeliver(g, s, t);
            && |s'.tasks| == |s.tasks| && s'.users == s.users && NoMoreAwaited(s, s')
            && forall u :: 0 <= u < |s.tasks| ==> s'.tasks[u].phase == s.tasks[u].phase
  {
  }

  lemma NeededSubmit(g: Graph, s: State)
    requires Local(g, s) && Family(g, s) && Listing(g, s) && Needed(g, s) && CanSubmit(g, s)
    ensures Needed(g, DoSubmit(g, s))
  {
    var s' := DoSubmit(g, s);
    EntriesKept(g, s, s');
    forall t | 0 <= t < |s'.tasks| ensures ScanNeeded(g, s', t) {
      if t < |s.tasks| { ScanKept(g, s, s', t); }
    }
  }

  // ------------------------------------------------------------ steps of the own task

  lemma NeededOwn(g: Graph, s: State, step: Step)
    requires Local(g, s) && Listing(g, s) && Needed(g, s) && Enabled(g, s, step) && OwnStep(step)
    requires !step.PushUser? && !step.Lock? && !step.Unlist?
    ensures Needed(g, Apply(g, s, step))
  {
    OwnShape(g, s, step);
    OwnKeepsLists(g, s, step);
    NeededFrame(g, s, Apply(g, s, step));
  }

  lemma OwnKeepsLists(g: Graph, s: State, step: Step)
    requires Enabled(g, s, step) && OwnStep(step) && !step.PushUser? && !step.Lock? && !step.Unlist?
    ensures var s' := Apply(g, s, step);
            && step.t < |s.tasks| == |s'.tasks| && s'.users == s.users
            && s'.tasks[step.t].followers == s.tasks[step.t].followers
            && SameScan(s.tasks[step.t], s'.tasks[step.t])
  {
  }

  lemma NeededPush(g: Graph, s: State, t: nat)
    requires Local(g, s) && Listing(g, s) && Needed(g, s) && CanPushUser(g, s, t)
    ensures Needed(g, DoPushUser(g, s, t))
  {
    var s' := DoPushUser(g, s, t);
    EntriesKept(g, s, s');
    ScansKept(g, s, s');
  }

  /** A list is not shortened while it is scanned. */
  lemma NeededUnlist(g: Graph, s: State, t: nat)
    requires Local(g, s) && Listing(g, s) && Needed(g, s) && CanUnlist(g, s, t)
    ensures Needed(g, DoUnlist(g, s, t))
  {
    var s' := DoUnlist(g, s, t);
    EntriesKept(g, s, s');
    forall u | 0 <= u < |s.tasks| ensures SameScan(s.tasks[u], s'.tasks[u]) && ListGrows(g, s, s', u) {
      if Scanning(s.tasks[u]) {
        ScannerIsListed(g, s, u);
        assert ScanResource(g, s.tasks[u], u) in s.locks;
      }
    }
    ScansKept(g, s, s');
  }

  lemma NeededLock(g: Graph, s: State, t: nat)
    requires Local(g, s) && Listing(g, s) && Needed(g, s) && CanLock(g, s, t)
    ensures Needed(g, DoLock(g, s, t))
  {
    var s' := DoLock(g, s, t);
    EntriesKept(g, s, s');
    forall u | 0 <= u < |s.tasks| ensures ScanNeeded(g, s', u) { if u != t { ScanKept(g, s, s', u); } }
  }

  // ------------------------------------------------------------ steps of a scan

  lemma NeededScan(g: Graph, s: State, step: Step)
    requires Local(g, s) && Family(g, s) && Listing(g, s) && Needed(g, s) && Enabled(g, s, step) && ScanStep(step)
    ensures Needed(g, Apply(g, s, step))
  {
    ScanShape(g, s, step);
    var s' := Apply(g, s, step);
    EntriesKept(g, s, s');
    forall u | 0 <= u < |s.tasks| ensures ScanNeeded(g, s', u) {
      if u != step.t { ScanKept(g, s, s', u); } else { OwnScanNeeded(g, s, step); }
    }
  }

  lemma OwnScanNeeded(g: Graph, s: State, step: Step)
    requires Local(g, s) && Family(g, s) && Listing(g, s) && Enabled(g, s, step) && ScanStep(step)
    requires step.t < |s.tasks| && ScanNeeded(g, s, step.t)
    ensures step.t < |Apply(g, s, step).tasks| && ScanNeeded(g, Apply(g, s, step), step.t)
  {
    assert ScanOk(g, s, step.t);
    match step
    case Look(t) => LookNeeded(g, s, t);
    case Recheck(t) => DependencyNeeded(g, s, t);
    case Raise(t) => DependencyNeeded(g, s, t);
  }

  lemma LookNeeded(g: Graph, s: State, t: nat)
    requires Family(g, s) && Listing(g, s) && CanLook(g, s, t) && ScanNeeded(g, s, t)
    ensures t < |DoLook(g, s, t).tasks| && ScanNeeded(g, DoLook(g, s, t), t)
  {
    if s.tasks[t].phase.scan.n > 0 {
      NoStopFurther(g, s, t);
      EntryNeeded(g, s, t);
    } else {
      EndedNeeded(g, s, t);
    }
  }

  lemma EndedNeeded(g: Graph, s: State, t: nat)
    requires t < |s.tasks| && t < |g.resources| && s.tasks[t].phase.Initing? && s.tasks[t].phase.k < |g.resources[t]|
    ensures ScanNeeded(g, EndScan(g, s, t), t)
  {
  }

  lemma EntryNeeded(g: Graph, s: State, t: nat)
    requires CanLook(g, s, t) && s.tasks[t].phase.scan.n > 0 && t < |g.parent|
    requires !StopsAt(g, Entry(g, s, t), t, ScanResource(g, s.tasks[t], t)) ==>
               NoStop(g, Users(s, ScanResource(g, s.tasks[t], t)), s.tasks[t].phase.scan.n - 1, t,
                      ScanResource(g, s.tasks[t], t))
    requires ScanNeeded(g, s, t)
    ensures t < |DoLook(g, s, t).tasks| && ScanNeeded(g, DoLook(g, s, t), t)
  {
    EndedNeeded(g, s, t);
  }

  /** Going on in front of an entry that does not end the scan. */
  lemma NoStopFurther(g: Graph, s: State, t: nat)
    requires t < |s.tasks| && t < |g.resources| && HasEntry(g, s, t) && ScanNeeded(g, s, t)
    ensures var x := s.tasks[t];
            !StopsAt(g, Entry(g, s, t), t, ScanResource(g, x, t)) ==>
              NoStop(g, Users(s, ScanResource(g, x, t)), x.phase.scan.n - 1, t, ScanResource(g, x, t))
  {
  }

  lemma DependencyNeeded(g: Graph, s: State, t: nat)
    requires Family(g, s) && Listing(g, s) && (CanRecheck(g, s, t) || CanRaise(g, s, t)) && ScanNeeded(g, s, t)
    ensures CanRecheck(g, s, t) ==> t < |DoRecheck(g, s, t).tasks| && ScanNeeded(g, DoRecheck(g, s, t), t)
    ensures CanRaise(g, s, t) ==> t < |DoRaise(g, s, t).tasks| && ScanNeeded(g, DoRaise(g, s, t), t)
  {
    NoStopFurther(g, s, t);
    assert ScanOk(g, s, t);
  }

  lemma NeededAddFollower(g: Graph, s: State, t: nat)
    requires Local(g, s) && Family(g, s) && Listing(g, s) && Needed(g, s) && CanAddFollower(g, s, t)
    ensures Needed(g, DoAddFollower(g, s, t))
  {
    var s' := DoAddFollower(g, s, t);
    EntryFacts(g, s, t);
    assert ScanNeeded(g, s, t);
    forall p: nat, u: nat | Awaiting(s', p, u) ensures g.conflict(p, u) {
      if !(p == Entry(g, s, t) && u == t) { assert Awaiting(s, p, u); }
    }
    forall u | 0 <= u < |s.tasks| ensures ScanNeeded(g, s', u) { if u != t { ScanKept(g, s, s', u); } }
  }

  lemma NeededOther(g: Graph, s: State, step: Step)
    requires Local(g, s) && Family(g, s) && Listing(g, s) && Needed(g, s)
    requires Enabled(g, s, step) && !OwnStep(step) && !ScanStep(step)
    ensures Needed(g, Apply(g, s, step))
  {
    match step
    case Submit => NeededSubmit(g, s);
    case AddFollower(t) => NeededAddFollower(g, s, t);
    case Deliver(t) => NeededDeliver(g, s, t);
    case Close(t) => CloseShape(g, s, t); NeededShelved(g, s, DoClose(g, s, t), t);
    case CountResult(t) => CountResultShape(g, s, t); NeededShelved(g, s, DoCountResult(g, s, t), t);
  }

  lemma NeededOwnStep(g: Graph, s: State, step: Step)
    requires Local(g, s) && Listing(g, s) && Needed(g, s) && Enabled(g, s, step) && OwnStep(step)
    ensures Needed(g, Apply(g, s, step))
  {
    if step.PushUser? {
      NeededPush(g, s, step.t);
    } else if step.Lock? {
      NeededLock(g, s, step.t);
    } else if step.Unlist? {
      NeededUnlist(g, s, step.t);
    } else {
      NeededOwn(g, s, step);
    }
  }

  lemma NeededStep(g: Graph, s: State, step: Step)
    requires Core(g, s) && Needed(g, s) && Enabled(g, s, step)
    ensures Needed(g, Apply(g, s, step))
  {
    if ScanStep(step) {
      NeededScan(g, s, step);
    } else if OwnStep(step) {
      NeededOwnStep(g, s, step);
    } else {
      NeededOther(g, s, step);
    }
  }

  /** The whole invariant of the graph. */
  ghost predicate Standing(g: Graph, s: State)
  {
    Inv(g, s) && Needed(g, s)
  }

  lemma StandingInitially(g: Graph)
    requires Lawful(g)
    ensures Standing(g, INITIAL)
  {
    InvInitial(g);
  }

  lemma StandingNext(g: Graph, s: State, s': State)
    requires Lawful(g) && Standing(g, s) && Next(g, s, s')
    ensures Standing(g, s')
  {
    InvStep(g, s, s');
    var step :| Enabled(g, s, step) && s' == Apply(g, s, step);
    NeededStep(g, s, step);
  }

  /** It holds in every state of every run. */
  lemma {:induction false} StandingRun(g: Graph, run: seq<State>, i: nat)
    requires Lawful(g) && Run(g, run) && i < |run|
    ensures Standing(g, run[i])
  {
    if i == 0 {
      StandingInitially(g);
    } else {
      StandingRun(g, run, i - 1);
      assert Next(g, run[i - 1], run[i]);
      StandingNext(g, run[i - 1], run[i]);
    }
  }

  // ------------------------------------------------------------ what a task waits for

  /** In every state of every run a task is to be notified only by earlier tasks of its space it conflicts with. */
  lemma WaitsForConflictsOnly(g: Graph, run: seq<State>, i: nat, p: nat, t: nat)
    requires Lawful(g) && Run(g, run) && i < |run| && Awaiting(run[i], p, t)
    ensures |run[i].tasks| <= |g.parent| && Siblings(g, p, t, |run[i].tasks|) && g.conflict(p, t)
  {
    StandingRun(g, run, i);
    EntryOk(g, run[i], p, Pre(t));
  }

  /** What a scan has passed in its list did not end it: neither the parent nor a synchronizing dependency. */
  lemma PassedDoNotStop(g: Graph, run: seq<State>, i: nat, t: nat, k: nat)
    requires Lawful(g) && Run(g, run) && i < |run| && t < |run[i].tasks| && Scanning(run[i].tasks[t])
    ensures t < |g.resources| && run[i].tasks[t].phase.k < |g.resources[t]|
    ensures var r := ScanResource(g, run[i].tasks[t], t);
            var us := Users(run[i], r);
            run[i].tasks[t].phase.scan.n <= k < IndexOf(us, t) < |us| ==> !StopsAt(g, us[k], t, r)
  {
    StandingRun(g, run, i);
    ScannerIsListed(g, run[i], t);
    assert ScanNeeded(g, run[i], t);
    NoStopAt(g, run[i], t, k);
  }

  lemma NoStopAt(g: Graph, s: State, t: nat, k: nat)
    requires t < |s.tasks| && t < |g.resources| && Scanning(s.tasks[t]) && s.tasks[t].phase.k < |g.resources[t]|
    requires ScanNeeded(g, s, t)
    ensures var us := Users(s, ScanResource(g, s.tasks[t], t));
            s.tasks[t].phase.scan.n <= k < IndexOf(us, t) < |us| ==>
              !StopsAt(g, us[k], t, ScanResource(g, s.tasks[t], t))
  {
  }

  // ------------------------------------------------------------ when it is ready

  lemma NoneAwaited(s: State, t: nat)
    requires forall p: nat :: !Awaiting(s, p, t)
    ensures Undelivered(s.tasks, Pre(t)) == 0
  {
    if Undelivered(s.tasks, Pre(t)) >= 1 {
      var p := UndeliveredWitness(s.tasks, Pre(t));
      assert Awaiting(s, p, t);
    }
  }

  lemma AwaitedCounts(s: State, p: nat, t: nat)
    requires Awaiting(s, p, t)
    ensures Undelivered(s.tasks, Pre(t)) >= 1
  {
    UndeliveredMember(s.tasks, p, Pre(t));
  }

  /** Every earlier task of the space that `t` conflicts with has finished. */
  ghost predicate AllFinishedBefore(g: Graph, s: State, t: nat)
    requires |s.tasks| <= |g.parent|
  {
    forall q: nat {:trigger g.conflict(q, t)} ::
      Siblings(g, q, t, |s.tasks|) && g.conflict(q, t) ==> Finished(s.tasks[q])
  }

  /** Every such task has notified its followers as well. */
  ghost predicate AllClosedBefore(g: Graph, s: State, t: nat)
    requires |s.tasks| <= |g.parent|
  {
    forall q: nat {:trigger g.conflict(q, t)} ::
      Siblings(g, q, t, |s.tasks|) && g.conflict(q, t) ==> s.tasks[q].done.Closed?
  }

  lemma ReadyMeansFinished(g: Graph, s: State, t: nat)
    requires Inv(g, s) && t < |s.tasks| && s.tasks[t].phase.Waiting? && s.tasks[t].pre == 1
    ensures AllFinishedBefore(g, s, t)
  {
    assert PreEdges(s.tasks[t]) == Undelivered(s.tasks, Pre(t));
    forall q: nat | Siblings(g, q, t, |s.tasks|) && g.conflict(q, t) ensures Finished(s.tasks[q]) {
      assert Safe(g, s, q, t);
      if !Finished(s.tasks[q]) {
        var p: nat :| WaitsFor(g, s, q, t, p);
        AwaitedCounts(s, p, t);
      }
    }
  }

  lemma ClosedNotifiesNone(g: Graph, s: State, p: nat)
    requires Local(g, s) && p < |s.tasks| && s.tasks[p].done.Closed?
    ensures s.tasks[p].followers == []
  {
    assert LocalOk(g, s.tasks[p], p, |s.tasks|);
  }

  lemma NotifiedMeansReady(g: Graph, s: State, t: nat)
    requires Inv(g, s) && Needed(g, s) && t < |s.tasks| && s.tasks[t].phase.Waiting?
    requires AllClosedBefore(g, s, t)
    ensures s.tasks[t].pre == 1 && s.tasks[t].claims + s.tasks[t].activations == 1
  {
    forall p: nat ensures !Awaiting(s, p, t) {
      if Awaiting(s, p, t) {
        EntryOk(g, s, p, Pre(t));
        ClosedNotifiesNone(g, s, p);
      }
    }
    NoneAwaited(s, t);
    assert PreEdges(s.tasks[t]) == Undelivered(s.tasks, Pre(t)) && HandoffOk(s.tasks[t]);
  }

  /**
   In every state of every run: a task that waits is ready, and handed over, as soon as all earlier tasks of
   its space that it conflicts with have notified their followers, and not before they have all finished.
   */
  lemma ReadyAsSoonAsNotified(g: Graph, run: seq<State>, i: nat, t: nat)
    requires Lawful(g) && Run(g, run) && i < |run| && t < |run[i].tasks| && run[i].tasks[t].phase.Waiting?
    ensures |run[i].tasks| <= |g.parent|
    ensures AllClosedBefore(g, run[i], t) ==>
              run[i].tasks[t].pre == 1 && run[i].tasks[t].claims + run[i].tasks[t].activations == 1
    ensures run[i].tasks[t].pre == 1 ==> AllFinishedBefore(g, run[i], t)
  {
    StandingRun(g, run, i);
    if AllClosedBefore(g, run[i], t) { NotifiedMeansReady(g, run[i], t); }
    if run[i].tasks[t].pre == 1 { ReadyMeansFinished(g, run[i], t); }
  }

  // ------------------------------------------------------------ both tests of a dependency

  /** The scan of a task stands at an entry that is not finished. */
  predicate SeesUnfinished(g: Graph, s: State, t: nat, phase: Phase)
  {
    && t < |s.tasks| && t < |g.resources| && s.tasks[t].phase == phase
    && HasEntry(g, s, t) && !Finished(s.tasks[Entry(g, s, t)])
  }

  predicate AboutToPush(s: State, t: nat, k: nat, n: nat)
  {
    t < |s.tasks| && s.tasks[t].phase == Initing(k, Push(n))
  }

  /** Only a second test that finds the entry unfinished leads to pushing it. */
  ghost predicate TestedOrBefore(g: Graph, s: State, s': State, t: nat)
  {
    forall k: nat, n: nat {:trigger AboutToPush(s', t, k, n)} ::
      AboutToPush(s', t, k, n) ==> AboutToPush(s, t, k, n) || SeesUnfinished(g, s, t, Initing(k, Dep(n)))
  }

  lemma OwnTests(g: Graph, s: State, step: Step, t: nat)
    requires Enabled(g, s, step) && OwnStep(step)
    ensures TestedOrBefore(g, s, Apply(g, s, step), t)
  {
    OwnShape(g, s, step);
    if step.t == t { if EarlyOwn(step) { EarlyTests(g, s, step); } else { LateTests(g, s, step); } }
  }

  lemma EarlyTests(g: Graph, s: State, step: Step)
    requires Enabled(g, s, step) && OwnStep(step) && EarlyOwn(step)
    ensures TestedOrBefore(g, s, Apply(g, s, step), step.t)
  {
  }

  lemma LateTests(g: Graph, s: State, step: Step)
    requires Enabled(g, s, step) && OwnStep(step) && !EarlyOwn(step)
    ensures TestedOrBefore(g, s, Apply(g, s, step), step.t)
  {
  }

  lemma ScanTests(g: Graph, s: State, step: Step, t: nat)
    requires Enabled(g, s, step) && ScanStep(step)
    ensures TestedOrBefore(g, s, Apply(g, s, step), t)
  {
    ScanShape(g, s, step);
    match step
    case Look(u) => LookTests(g, s, u);
    case Recheck(u) => RecheckTests(g, s, u);
    case Raise(u) => RaiseTests(g, s, u);
  }

  lemma LookTests(g: Graph, s: State, t: nat)
    requires CanLook(g, s, t)
    ensures TestedOrBefore(g, s, DoLook(g, s, t), t)
  {
  }

  lemma RecheckTests(g: Graph, s: State, t: nat)
    requires CanRecheck(g, s, t)
    ensures TestedOrBefore(g, s, DoRecheck(g, s, t), t)
  {
  }

  lemma RaiseTests(g: Graph, s: State, t: nat)
    requires CanRaise(g, s, t)
    ensures TestedOrBefore(g, s, DoRaise(g, s, t), t)
  {
  }

  lemma SubmitTests(g: Graph, s: State, t: nat)
    requires CanSubmit(g, s)
    ensures TestedOrBefore(g, s, DoSubmit(g, s), t)
  {
    SubmitShape(g, s);
  }

  lemma ShelvedTests(g: Graph, s: State, s': State, u: nat, t: nat)
    requires Shelved(s, s', u)
    ensures TestedOrBefore(g, s, s', t)
  {
  }

  lemma DeliverTests(g: Graph, s: State, u: nat, t: nat)
    requires Local(g, s) && Family(g, s) && CanDeliver(g, s, u)
    ensures TestedOrBefore(g, s, DoDeliver(g, s, u), t)
  {
    var e := PoppedEntry(g, s, u);
    DeliverAwaits(g, s, u, e);
  }

  lemma FollowerTests(g: Graph, s: State, u: nat, t: nat)
    requires Listing(g, s) && CanAddFollower(g, s, u)
    ensures TestedOrBefore(g, s, DoAddFollower(g, s, u), t)
  {
    EntryFacts(g, s, u);
  }

  lemma StepTests(g: Graph, s: State, step: Step, t: nat)
    requires Local(g, s) && Family(g, s) && Listing(g, s) && Enabled(g, s, step)
    ensures TestedOrBefore(g, s, Apply(g, s, step), t)
  {
    if OwnStep(step) {
      OwnTests(g, s, step, t);
    } else if ScanStep(step) {
      ScanTests(g, s, step, t);
    } else {
      match step
      case Submit => SubmitTests(g, s, t);
      case AddFollower(u) => FollowerTests(g, s, u, t);
      case Deliver(u) => DeliverTests(g, s, u, t);
      case Close(u) => CloseShape(g, s, u); ShelvedTests(g, s, DoClose(g, s, u), u, t);
      case CountResult(u) => CountResultShape(g, s, u); ShelvedTests(g, s, DoCountResult(g, s, u), u, t);
    }
  }

  lemma TestedNext(g: Graph, s: State, s': State, t: nat, k: nat, n: nat)
    requires Core(g, s) && Next(g, s, s') && AboutToPush(s', t, k, n)
    ensures AboutToPush(s, t, k, n) || SeesUnfinished(g, s, t, Initing(k, Dep(n)))
  {
    var step :| Enabled(g, s, step) && s' == Apply(g, s, step);
    StepTests(g, s, step, t);
  }

  lemma TestedAcross(g: Graph, run: seq<State>, i: nat, t: nat, k: nat, n: nat)
    requires Lawful(g) && Run(g, run) && i + 1 < |run| && AboutToPush(run[i + 1], t, k, n)
    ensures AboutToPush(run[i], t, k, n) || SeesUnfinished(g, run[i], t, Initing(k, Dep(n)))
  {
    InvRun(g, run, i);
    assert Next(g, run[i], run[i + 1]);
    TestedNext(g, run[i], run[i + 1], t, k, n);
  }

  /**
   In every run: before a task pushes itself to an entry of a list, it stood at that entry for the second
   test and the entry was not finished; since then it has done nothing.
   */
  lemma PushedAfterTest(g: Graph, run: seq<State>, i: nat, t: nat, k: nat, n: nat) returns (j: nat)
    requires Lawful(g) && Run(g, run) && i < |run| && AboutToPush(run[i], t, k, n)
    ensures j < i && SeesUnfinished(g, run[j], t, Initing(k, Dep(n)))
    ensures forall m :: j < m <= i ==> AboutToPush(run[m], t, k, n)
  {
    var pushes := (s: State) => AboutToPush(s, t, k, n);
    j := HoldsSince(pushes, run, i);
    assert !AboutToPush(run[j], t, k, n);
    TestedAcross(g, run, j, t, k, n);
  }
}
