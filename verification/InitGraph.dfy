/**
 Initialising one task without interruption: the nested loops over its resources and over the
 users registered before it, written as the program runs them. Every pass is a step of the task
 graph machine, so whatever holds for the machine holds for this code.
 */
module InitGraph {
  import opened Common
  import opened ResourceUsers
  import opened EventGraph
  import opened GraphInvariant
  import opened GraphCore
  import opened GraphLists
  import opened GraphTheorems
  import opened GraphProgress
  import opened GraphNeeds
  import opened GraphHandoff

  /** The states a piece of code went through. */
  ghost predicate Path(g: Graph, path: seq<State>, s: State, s': State)
  {
    |path| > 0 && path[0] == s && path[|path| - 1] == s'
    && forall i :: 0 <= i < |path| - 1 ==> Next(g, path[i], path[i + 1])
  }

  lemma Longer(g: Graph, path: seq<State>, s: State, s': State, step: Step)
    requires Path(g, path, s, s') && Enabled(g, s', step)
    ensures Path(g, path + [Apply(g, s', step)], s, Apply(g, s', step))
  {
    var next := Apply(g, s', step);
    assert Next(g, s', next);
  }

  /** Take one step of the machine. */
  method Do(g: Graph, s: State, step: Step, ghost start: State, ghost path: seq<State>)
    returns (s': State, ghost path': seq<State>)
    requires Lawful(g) && Standing(g, s) && Enabled(g, s, step) && Path(g, path, start, s)
    ensures s' == Apply(g, s, step) && Standing(g, s') && Path(g, path', start, s')
  {
    s' := Apply(g, s, step);
    assert Next(g, s, s');
    StandingNext(g, s, s');
    Longer(g, path, start, s, step);
    path' := path + [s'];
  }

  /** No task but `t` holds a lock. */
  ghost predicate Alone(s: State, t: nat)
  {
    forall r :: r in s.locks ==> s.locks[r] == t
  }

  /** Nothing but follower entries changes at the other tasks, and `t` is not finished by it. */
  predicate OthersKept(s: State, s': State, t: nat)
  {
    && t < |s.tasks| == |s'.tasks| && s'.tasks[t].post == s.tasks[t].post
    && forall u :: 0 <= u < |s.tasks| && u != t ==> s'.tasks[u] == s.tasks[u].(followers := s'.tasks[u].followers)
  }

  lemma KeptBoth(s: State, s1: State, s2: State, t: nat)
    requires OthersKept(s, s1, t) && OthersKept(s1, s2, t)
    ensures OthersKept(s, s2, t)
  {
  }

  /** What `t` waits for, or is about to wait for, is not finished. */
  ghost predicate OnUnfinished(g: Graph, s: State, t: nat)
    requires t < |g.resources|
  {
    && (forall p: nat {:trigger Awaiting(s, p, t)} :: Awaiting(s, p, t) ==> !Finished(s.tasks[p]))
    && (t < |s.tasks| && HasEntry(g, s, t) && !s.tasks[t].phase.scan.At? ==> !Finished(s.tasks[Entry(g, s, t)]))
  }

  /** One step of a scan by `t` that ends it or brings it nearer to its end. */
  ghost predicate Moved(g: Graph, s: State, s': State, t: nat)
    requires t < |s.tasks| <= |g.resources| && s.tasks[t].phase.Initing?
  {
    && OthersKept(s, s', t) && s'.tasks[t].phase.Initing? && Alone(s', t)
    && s'.tasks[t].phase.k == s.tasks[t].phase.k + B2i(!Scanning(s'.tasks[t]))
    && TaskWork(g, t, s'.tasks[t]) < TaskWork(g, t, s.tasks[t])
  }

  lemma FollowerMoves(g: Graph, s: State, t: nat)
    requires Listing(g, s) && CanAddFollower(g, s, t) && Alone(s, t)
    ensures Moved(g, s, DoAddFollower(g, s, t), t)
  {
    EntryFacts(g, s, t);
  }

  lemma FollowerUnfinished(g: Graph, s: State, t: nat)
    requires Listing(g, s) && CanAddFollower(g, s, t) && OnUnfinished(g, s, t)
    ensures OnUnfinished(g, DoAddFollower(g, s, t), t)
  {
    EntryFacts(g, s, t);
    var s' := DoAddFollower(g, s, t);
    forall p: nat | Awaiting(s', p, t) ensures !Finished(s'.tasks[p]) {
      if p != Entry(g, s, t) { assert Awaiting(s, p, t); }
    }
  }

  lemma ScanMoves(g: Graph, s: State, step: Step)
    requires Enabled(g, s, step) && ScanStep(step) && s.tasks[step.t].phase.Initing? && Alone(s, step.t)
    ensures Moved(g, s, Apply(g, s, step), step.t)
  {
    ScanShape(g, s, step);
    ScanUsesWork(g, s, step);
  }

  lemma ScanUnfinished(g: Graph, s: State, step: Step)
    requires Listing(g, s) && Enabled(g, s, step) && ScanStep(step) && OnUnfinished(g, s, step.t)
    ensures OnUnfinished(g, Apply(g, s, step), step.t)
  {
    ScanShape(g, s, step);
    var s' := Apply(g, s, step);
    assert ScanOk(g, s, step.t);
    forall p: nat | Awaiting(s', p, step.t) ensures !Finished(s'.tasks[p]) { assert Awaiting(s, p, step.t); }
    EntryUnfinished(g, s, step);
  }

  /** A scan goes on with an entry only if the test before found it unfinished. */
  lemma EntryUnfinished(g: Graph, s: State, step: Step)
    requires Enabled(g, s, step) && ScanStep(step) && ScanShaped(g, s, Apply(g, s, step), step.t, step.Raise?)
    ensures var s' := Apply(g, s, step);
            HasEntry(g, s', step.t) && !s'.tasks[step.t].phase.scan.At? ==> !Finished(s'.tasks[Entry(g, s', step.t)])
  {
    match step
    case Look(t) => LookUnfinished(g, s, t);
    case Recheck(t) => RecheckUnfinished(g, s, t);
    case Raise(t) =>
  }

  lemma LookUnfinished(g: Graph, s: State, t: nat)
    requires CanLook(g, s, t)
    ensures var s' := DoLook(g, s, t);
            t < |s'.tasks| && HasEntry(g, s', t) && !s'.tasks[t].phase.scan.At? ==>
              !Finished(s'.tasks[Entry(g, s', t)])
  {
  }

  lemma RecheckUnfinished(g: Graph, s: State, t: nat)
    requires CanRecheck(g, s, t)
    ensures var s' := DoRecheck(g, s, t);
            t < |s'.tasks| && HasEntry(g, s', t) && !s'.tasks[t].phase.scan.At? ==>
              !Finished(s'.tasks[Entry(g, s', t)])
  {
  }

  /** Deal with the entry the scan of `t` stands at. */
  method ScanOne(g: Graph, s0: State, t: nat, ghost start: State, ghost path0: seq<State>)
    returns (s: State, ghost path: seq<State>)
    requires Lawful(g) && Standing(g, s0) && t < |s0.tasks| <= |g.resources| && Path(g, path0, start, s0)
    requires Scanning(s0.tasks[t]) && Alone(s0, t) && OnUnfinished(g, s0, t)
    ensures Standing(g, s) && Path(g, path, start, s) && Moved(g, s0, s, t) && OnUnfinished(g, s, t)
  {
    ghost var step := HolderMoves(g, s0, t);
    OneMoves(g, s0, t, step);
    s, path := Do(g, s0, NextOfScan(s0.tasks[t].phase.scan, t), start, path0);
  }

  lemma OneMoves(g: Graph, s: State, t: nat, step: Step)
    requires Listing(g, s) && t < |s.tasks| && Scanning(s.tasks[t]) && Alone(s, t) && t < |g.resources|
    requires step == NextOfScan(s.tasks[t].phase.scan, t) && Enabled(g, s, step) && OnUnfinished(g, s, t)
    ensures Moved(g, s, Apply(g, s, step), t) && OnUnfinished(g, Apply(g, s, step), t)
  {
    if step.AddFollower? {
      FollowerMoves(g, s, t);
      FollowerUnfinished(g, s, t);
    } else {
      ScanMoves(g, s, step);
      ScanUnfinished(g, s, step);
    }
  }

  /** Go through the users of one resource backwards, stopping at the parent or a synchronizing one. */
  method ScanUsers(g: Graph, s0: State, t: nat, ghost start: State, ghost path0: seq<State>)
    returns (s: State, ghost path: seq<State>)
    requires Lawful(g) && Standing(g, s0) && t < |s0.tasks| <= |g.resources| && Path(g, path0, start, s0)
    requires Scanning(s0.tasks[t]) && Alone(s0, t) && OnUnfinished(g, s0, t)
    ensures Standing(g, s) && Path(g, path, start, s) && OthersKept(s0, s, t) && OnUnfinished(g, s, t)
    ensures s.tasks[t].phase == Initing(s0.tasks[t].phase.k + 1, Idle) && Alone(s, t)
  {
    s, path := s0, path0;
    while Scanning(s.tasks[t])
      invariant Standing(g, s) && Path(g, path, start, s) && OthersKept(s0, s, t) && |s.tasks| <= |g.resources|
      invariant s.tasks[t].phase.Initing? && Alone(s, t) && OnUnfinished(g, s, t)
      invariant s.tasks[t].phase.k == s0.tasks[t].phase.k + B2i(!Scanning(s.tasks[t]))
      decreases TaskWork(g, t, s.tasks[t])
    {
      ghost var before := s;
      s, path := ScanOne(g, s, t, start, path);
      KeptBoth(s0, before, s, t);
    }
  }

  lemma FreeLocks(g: Graph, s: State, t: nat)
    requires Standing(g, s) && t < |s.tasks| && !Scanning(s.tasks[t]) && Alone(s, t)
    ensures s.locks == map[]
  {
    forall r ensures r !in s.locks {}
  }

  /**
   Initialise a task. Afterwards it is to be notified by unfinished earlier tasks of its space that it
   conflicts with, and by no others; it waits for each of them, directly or through a task between them; and
   it is ready, and kept by its initialiser, exactly when all of them had finished.
   */
  method InitTask(g: Graph, s0: State, t: nat) returns (s: State, ghost path: seq<State>)
    requires Lawful(g) && Standing(g, s0) && t < |s0.tasks| && s0.tasks[t].phase.Emplaced? && s0.locks == map[]
    ensures Path(g, path, s0, s) && Standing(g, s) && |s.tasks| <= |g.parent| && OthersKept(s0, s, t)
    ensures s.tasks[t].phase.Waiting? && s.locks == map[]
    ensures forall q: nat :: Siblings(g, q, t, |s.tasks|) && g.conflict(q, t) ==> Safe(g, s, q, t)
    ensures forall p: nat :: Awaiting(s, p, t) ==>
                               Siblings(g, p, t, |s.tasks|) && g.conflict(p, t) && !Finished(s0.tasks[p])
    ensures s.tasks[t].pre == 1 <==> AllFinishedBefore(g, s0, t)
    ensures s.tasks[t].claims == B2i(s.tasks[t].pre == 1)
  {
    s, path := Begin(g, s0, t);
    ghost var s1 := s;
    s, path := ScanAll(g, s, t, s0, path);
    KeptBoth(s0, s1, s, t);
    ghost var s2 := s;
    s, path := End(g, s, t, s0, path);
    KeptBoth(s0, s2, s, t);
    RightFromStart(g, s0, s, t);
  }

  lemma RightFromStart(g: Graph, s0: State, s: State, t: nat)
    requires t < |s.tasks| <= |g.parent| && OthersKept(s0, s, t) && WaitsRight(g, s, t)
    ensures forall q: nat :: Siblings(g, q, t, |s.tasks|) && g.conflict(q, t) ==> Safe(g, s, q, t)
    ensures forall p: nat :: Awaiting(s, p, t) ==>
                               Siblings(g, p, t, |s.tasks|) && g.conflict(p, t) && !Finished(s0.tasks[p])
    ensures s.tasks[t].pre == 1 <==> AllFinishedBefore(g, s0, t)
  {
    assert forall q :: 0 <= q < |s.tasks| ==> (Finished(s.tasks[q]) <==> Finished(s0.tasks[q]));
  }

  /** Raise the guard. */
  method Begin(g: Graph, s0: State, t: nat) returns (s: State, ghost path: seq<State>)
    requires Lawful(g) && Standing(g, s0) && t < |s0.tasks| && s0.tasks[t].phase.Emplaced?
    ensures Path(g, path, s0, s) && Standing(g, s) && |s.tasks| <= |g.resources| && OthersKept(s0, s, t)
    ensures s.tasks[t].phase == Initing(0, Idle) && s.locks == s0.locks && OnUnfinished(g, s, t)
  {
    path := [s0];
    NothingAwaited(g, s0, t);
    BeginMoves(g, s0, t);
    s, path := Do(g, s0, InitBegin(t), s0, path);
  }

  lemma BeginMoves(g: Graph, s: State, t: nat)
    requires Lawful(g) && Local(g, s) && Family(g, s) && t < |s.tasks| && s.tasks[t].phase.Emplaced?
    requires forall p: nat :: !Awaiting(s, p, t)
    ensures CanInitBegin(g, s, t) && t < |g.resources|
    ensures var s' := DoInitBegin(g, s, t);
            && OthersKept(s, s', t) && OnUnfinished(g, s', t)
            && s'.tasks[t].phase == Initing(0, Idle) && s'.locks == s.locks
  {
    forall p: nat ensures !Awaiting(DoInitBegin(g, s, t), p, t) { assert !Awaiting(s, p, t); }
  }

  /** A task that is not initialised yet is in no follower list. */
  lemma NothingAwaited(g: Graph, s: State, t: nat)
    requires Inv(g, s) && t < |s.tasks| && s.tasks[t].phase.Emplaced?
    ensures forall p: nat :: !Awaiting(s, p, t)
  {
    assert PreEdges(s.tasks[t]) == Undelivered(s.tasks, Pre(t)) && HandoffOk(s.tasks[t]);
    forall p: nat ensures !Awaiting(s, p, t) {
      if Awaiting(s, p, t) { AwaitedCounts(s, p, t); }
    }
  }

  /** The outer loop over the resources of the task. */
  method ScanAll(g: Graph, s0: State, t: nat, ghost start: State, ghost path0: seq<State>)
    returns (s: State, ghost path: seq<State>)
    requires Lawful(g) && Standing(g, s0) && Path(g, path0, start, s0) && t < |s0.tasks| <= |g.resources|
    requires s0.tasks[t].phase == Initing(0, Idle) && s0.locks == map[] && OnUnfinished(g, s0, t)
    ensures Standing(g, s) && Path(g, path, start, s) && OthersKept(s0, s, t) && OnUnfinished(g, s, t)
    ensures s.tasks[t].phase == Initing(|g.resources[t]|, Idle) && s.locks == map[]
  {
    s, path := s0, path0;
    var k := 0;
    while k < |g.resources[t]|
      invariant 0 <= k <= |g.resources[t]| && Standing(g, s) && Path(g, path, start, s) && OthersKept(s0, s, t)
      invariant s.tasks[t].phase == Initing(k, Idle) && s.locks == map[] && OnUnfinished(g, s, t)
    {
      ghost var before := s;
      s, path := ScanResourceUsers(g, s, t, start, path);
      KeptBoth(s0, before, s, t);
      k := k + 1;
    }
  }

  method TakeLock(g: Graph, s0: State, t: nat, ghost start: State, ghost path0: seq<State>)
    returns (s: State, ghost path: seq<State>)
    requires Lawful(g) && Standing(g, s0) && Path(g, path0, start, s0) && CanLock(g, s0, t) && s0.locks == map[]
    requires OnUnfinished(g, s0, t)
    ensures Standing(g, s) && Path(g, path, start, s) && OthersKept(s0, s, t) && OnUnfinished(g, s, t)
    ensures Scanning(s.tasks[t]) && s.tasks[t].phase.k == s0.tasks[t].phase.k && Alone(s, t)
  {
    LockMoves(g, s0, t);
    s, path := Do(g, s0, Lock(t), start, path0);
  }

  lemma LockMoves(g: Graph, s: State, t: nat)
    requires CanLock(g, s, t) && s.locks == map[] && OnUnfinished(g, s, t)
    ensures var s' := DoLock(g, s, t);
            && OthersKept(s, s', t) && OnUnfinished(g, s', t)
            && Scanning(s'.tasks[t]) && s'.tasks[t].phase.k == s.tasks[t].phase.k && Alone(s', t)
  {
    var s' := DoLock(g, s, t);
    forall p: nat | Awaiting(s', p, t) ensures !Finished(s'.tasks[p]) { assert Awaiting(s, p, t); }
  }

  lemma LockIsFree(g: Graph, s: State, t: nat)
    requires Lawful(g) && Local(g, s) && t < |s.tasks| && s.locks == map[]
    requires s.tasks[t].phase.Initing? && s.tasks[t].phase.scan.Idle? && s.tasks[t].phase.k < |g.resources[t]|
    ensures CanLock(g, s, t)
  {
  }

  /** One pass of the outer loop: take the lock of the next resource, scan its users, release it. */
  method ScanResourceUsers(g: Graph, s0: State, t: nat, ghost start: State, ghost path0: seq<State>)
    returns (s: State, ghost path: seq<State>)
    requires Lawful(g) && Standing(g, s0) && t < |s0.tasks| && Path(g, path0, start, s0) && s0.locks == map[]
    requires t < |g.resources| && s0.tasks[t].phase.Initing? && s0.tasks[t].phase.scan.Idle?
    requires s0.tasks[t].phase.k < |g.resources[t]| && OnUnfinished(g, s0, t)
    ensures Standing(g, s) && Path(g, path, start, s) && OthersKept(s0, s, t) && OnUnfinished(g, s, t)
    ensures s.tasks[t].phase == Initing(s0.tasks[t].phase.k + 1, Idle) && s.locks == map[]
  {
    LockIsFree(g, s0, t);
    s, path := TakeLock(g, s0, t, start, path0);
    ghost var locked := s;
    s, path := ScanUsers(g, s, t, start, path);
    KeptBoth(s0, locked, s, t);
    FreeLocks(g, s, t);
  }

  /** Lower the guard; the task waits for its predecessors from now on. */
  method End(g: Graph, s0: State, t: nat, ghost start: State, ghost path0: seq<State>)
    returns (s: State, ghost path: seq<State>)
    requires Lawful(g) && Standing(g, s0) && t < |s0.tasks| && Path(g, path0, start, s0)
    requires t < |g.resources| && s0.tasks[t].phase == Initing(|g.resources[t]|, Idle) && OnUnfinished(g, s0, t)
    ensures Path(g, path, start, s) && Standing(g, s) && |s.tasks| <= |g.parent| && OthersKept(s0, s, t)
    ensures s.tasks[t].phase.Waiting? && s.locks == s0.locks && WaitsRight(g, s, t)
    ensures s.tasks[t].claims == B2i(s.tasks[t].pre == 1)
  {
    EndMoves(g, s0, t);
    s, path := Do(g, s0, InitEnd(t), start, path0);
    WaitsForAll(g, s, t);
  }

  lemma EndMoves(g: Graph, s: State, t: nat)
    requires Lawful(g) && Local(g, s) && Family(g, s) && Handoff(s) && t < |s.tasks| && t < |g.resources|
    requires s.tasks[t].phase == Initing(|g.resources[t]|, Idle) && OnUnfinished(g, s, t)
    ensures CanInitEnd(g, s, t)
    ensures var s' := DoInitEnd(g, s, t);
            && OthersKept(s, s', t) && s'.tasks[t].phase.Waiting? && s'.locks == s.locks
            && s'.tasks[t].claims == B2i(s'.tasks[t].pre == 1)
            && forall p: nat :: Awaiting(s', p, t) ==> !Finished(s'.tasks[p])
  {
    var s' := DoInitEnd(g, s, t);
    assert HandoffOk(s.tasks[t]);
    forall p: nat | Awaiting(s', p, t) ensures !Finished(s'.tasks[p]) { assert Awaiting(s, p, t); }
  }

  /** What the initialisation of a task brings about. */
  ghost predicate WaitsRight(g: Graph, s: State, t: nat)
    requires t < |s.tasks| <= |g.parent|
  {
    && (forall q: nat :: Siblings(g, q, t, |s.tasks|) && g.conflict(q, t) ==> Safe(g, s, q, t))
    && (forall p: nat :: Awaiting(s, p, t) ==>
                           Siblings(g, p, t, |s.tasks|) && g.conflict(p, t) && !Finished(s.tasks[p]))
    && (s.tasks[t].pre == 1 <==> AllFinishedBefore(g, s, t))
  }

  lemma WaitsForAll(g: Graph, s: State, t: nat)
    requires Standing(g, s) && t < |s.tasks| && s.tasks[t].phase.Waiting?
    requires forall p: nat :: Awaiting(s, p, t) ==> !Finished(s.tasks[p])
    ensures WaitsRight(g, s, t)
  {
    forall p: nat | Awaiting(s, p, t) ensures Siblings(g, p, t, |s.tasks|) && g.conflict(p, t) {
      EntryOk(g, s, p, Pre(t));
    }
    if s.tasks[t].pre == 1 { ReadyMeansFinished(g, s, t); }
    if AllFinishedBefore(g, s, t) {
      NoneAwaited(s, t);
      CountsWaiting(s, t);
    }
  }
}
