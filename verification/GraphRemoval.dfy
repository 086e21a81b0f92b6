/** Every step keeps the hand-off exact and frees a task exactly when both parties have arrived. */
module GraphRemoval {
  import opened Common
  import opened ResourceUsers
  import opened EventGraph
  import opened GraphInvariant
  import opened GraphCore

  // ------------------------------------------------------------ hand-off

  lemma {:induction false} TwoEntries(ts: seq<Task>, i: nat, j: nat, e: Event)
    requires i < j < |ts| && e in ts[i].followers && e in ts[j].followers
    ensures Undelivered(ts, e) >= 2
  {
    var n := |ts| - 1;
    if j < n { TwoEntries(ts[..n], i, j, e); } else { UndeliveredMember(ts[..n], i, e); }
  }

  /** While a task is being initialised its pre-event stays at 2 or more. */
  lemma GuardHolds(g: Graph, s: State, t: nat)
    requires Core(g, s) && t < |s.tasks| && s.tasks[t].phase.Initing?
    ensures s.tasks[t].pre >= 2
  {
    assert PreEdges(s.tasks[t]) == Undelivered(s.tasks, Pre(t));
    if s.tasks[t].phase.scan.Inc? {
      var p := UncountedEntry(g, s, t);
      UndeliveredMember(s.tasks, p, Pre(t));
    }
  }

  /** The entry a scan has pushed and not yet counted sits with a task that is not notifying. */
  lemma UncountedEntry(g: Graph, s: State, u: nat) returns (p: nat)
    requires Local(g, s) && Listing(g, s) && u < |s.tasks| && s.tasks[u].phase.Initing? && s.tasks[u].phase.scan.Inc?
    ensures p < |s.tasks| && Pre(u) in s.tasks[p].followers && !s.tasks[p].done.Notifying?
  {
    assert LocalOk(g, s.tasks[u], u, |s.tasks|);
    assert ScanOk(g, s, u);
    var r := ScanResource(g, s.tasks[u], u);
    p := Users(s, r)[s.tasks[u].phase.scan.n - 1];
    assert p in Users(s, r);
    assert Listed(g, s.tasks[p], p, r);
  }

  /** A delivery never takes a task under initialisation out of it. */
  lemma GuardOutlives(g: Graph, s: State, t: nat, u: nat)
    requires Core(g, s) && CanDeliver(g, s, t) && u < |s.tasks| && s.tasks[u].phase.Initing?
    requires s.tasks[t].followers[|s.tasks[t].followers| - 1] == Pre(u)
    ensures s.tasks[u].pre >= 3
  {
    EntriesFor(g, s, t, u);
    assert PreEdges(s.tasks[u]) == Undelivered(s.tasks, Pre(u));
  }

  lemma EntriesFor(g: Graph, s: State, t: nat, u: nat)
    requires Local(g, s) && Listing(g, s) && t < |s.tasks| && u < |s.tasks| && s.tasks[u].phase.Initing?
    requires s.tasks[t].done.Notifying? && Pre(u) in s.tasks[t].followers
    ensures Undelivered(s.tasks, Pre(u)) >= 1 + B2i(s.tasks[u].phase.scan.Inc?)
  {
    if s.tasks[u].phase.scan.Inc? {
      var p := UncountedEntry(g, s, u);
      if p < t { TwoEntries(s.tasks, p, t, Pre(u)); } else { TwoEntries(s.tasks, t, p, Pre(u)); }
    } else {
      UndeliveredMember(s.tasks, t, Pre(u));
    }
  }

  lemma HandoffDeliver(g: Graph, s: State, t: nat)
    requires Core(g, s) && Handoff(s) && CanDeliver(g, s, t)
    ensures Handoff(DoDeliver(g, s, t))
  {
    var e := PoppedEntry(g, s, t);
    if e.Pre? {
      assert PreEdges(s.tasks[e.t]) == Undelivered(s.tasks, e);
      assert HandoffOk(s.tasks[e.t]);
      if s.tasks[e.t].phase.Initing? { GuardOutlives(g, s, t, e.t); }
      NotifiedHandoff(s.tasks[e.t]);
    }
    HandoffDelivered(g, s, t, e);
  }

  lemma NotifiedHandoff(x: Task)
    requires HandoffOk(x) && PreEdges(x) >= 1 && (x.phase.Initing? ==> x.pre >= 3)
    ensures HandoffOk(NotifyPre(x, false))
  {
  }

  lemma HandoffDelivered(g: Graph, s: State, t: nat, e: Event)
    requires CanDeliver(g, s, t) && e == s.tasks[t].followers[|s.tasks[t].followers| - 1] && e.t != t
    requires Handoff(s) && (e.Pre? ==> HandoffOk(NotifyPre(s.tasks[e.t], false)))
    ensures Handoff(DoDeliver(g, s, t))
  {
    var s' := DoDeliver(g, s, t);
    forall u | 0 <= u < |s'.tasks| ensures HandoffOk(s'.tasks[u]) {
      assert HandoffOk(s.tasks[u]);
    }
  }

  lemma HandoffScan(g: Graph, s: State, s': State, t: nat, raised: bool)
    requires Handoff(s) && ScanShaped(g, s, s', t, raised)
    ensures Handoff(s')
  {
    assert HandoffOk(s.tasks[t]);
  }

  lemma HandoffShelved(s: State, s': State, t: nat)
    requires Handoff(s) && Shelved(s, s', t)
    ensures Handoff(s')
  {
    forall u | 0 <= u < |s.tasks| ensures HandoffOk(s'.tasks[u]) {
      assert HandoffOk(s.tasks[u]);
    }
  }

  lemma HandoffAddFollower(g: Graph, s: State, t: nat)
    requires Handoff(s) && Listing(g, s) && CanAddFollower(g, s, t)
    ensures Handoff(DoAddFollower(g, s, t))
  {
    EntryFacts(g, s, t);
    assert HandoffOk(s.tasks[t]) && HandoffOk(s.tasks[Entry(g, s, t)]);
  }

  lemma HandoffInitEnd(g: Graph, s: State, t: nat)
    requires Core(g, s) && Handoff(s) && CanInitEnd(g, s, t)
    ensures Handoff(DoInitEnd(g, s, t))
  {
    assert HandoffOk(s.tasks[t]);
    GuardHolds(g, s, t);
  }

  lemma HandoffOwn(g: Graph, s: State, step: Step)
    requires Handoff(s) && Enabled(g, s, step) && OwnStep(step) && !step.InitEnd?
    ensures Handoff(Apply(g, s, step))
  {
    assert HandoffOk(s.tasks[step.t]);
  }

  lemma HandoffSubmit(g: Graph, s: State)
    requires Handoff(s) && CanSubmit(g, s)
    ensures Handoff(DoSubmit(g, s))
  {
    var s' := DoSubmit(g, s);
    forall u | 0 <= u < |s'.tasks| ensures HandoffOk(s'.tasks[u]) {
      if u < |s.tasks| { assert HandoffOk(s.tasks[u]); }
    }
  }

  lemma HandoffStep(g: Graph, s: State, step: Step)
    requires Core(g, s) && Handoff(s) && Enabled(g, s, step)
    ensures Handoff(Apply(g, s, step))
  {
    if step.InitEnd? {
      HandoffInitEnd(g, s, step.t);
    } else if OwnStep(step) {
      HandoffOwn(g, s, step);
    } else if ScanStep(step) {
      ScanShape(g, s, step);
      HandoffScan(g, s, Apply(g, s, step), step.t, step.Raise?);
    } else {
      match step
      case Submit => HandoffSubmit(g, s);
      case Deliver(t) => HandoffDeliver(g, s, t);
      case AddFollower(t) => HandoffAddFollower(g, s, t);
      case Close(t) => CloseShape(g, s, t); HandoffShelved(s, DoClose(g, s, t), t);
      case CountResult(t) => CountResultShape(g, s, t); HandoffShelved(s, DoCountResult(g, s, t), t);
    }
  }

  // ------------------------------------------------------------ removal

  lemma {:induction false} AmongSame(g: Graph, ts: seq<Task>, ts': seq<Task>, n: nat, space: int)
    requires n <= |ts| <= |g.parent| && n <= |ts'| <= |g.parent|
    requires forall i :: 0 <= i < n ==> ts'[i].frees == ts[i].frees
    ensures AliveAmong(g, ts', n, space) == AliveAmong(g, ts, n, space)
  {
    if n > 0 { AmongSame(g, ts, ts', n - 1, space); }
  }

  lemma AliveSame(g: Graph, ts: seq<Task>, ts': seq<Task>, space: int)
    requires |ts| == |ts'| <= |g.parent| && forall i :: 0 <= i < |ts| ==> ts'[i].frees == ts[i].frees
    ensures Alive(g, ts', space) == Alive(g, ts, space)
  {
    AmongSame(g, ts, ts', |ts|, space);
  }

  lemma {:induction false} AmongFreed(g: Graph, ts: seq<Task>, ts': seq<Task>, n: nat, t: nat, space: int)
    requires t < n <= |ts| == |ts'| <= |g.parent| && ts[t].frees == 0 && ts'[t].frees == 1
    requires forall i :: 0 <= i < |ts| && i != t ==> ts'[i].frees == ts[i].frees
    ensures AliveAmong(g, ts', n, space) == AliveAmong(g, ts, n, space) - B2i(g.parent[t] == space)
  {
    if t < n - 1 { AmongFreed(g, ts, ts', n - 1, t, space); } else { AmongSame(g, ts, ts', n - 1, space); }
  }

  lemma AliveFreed(g: Graph, ts: seq<Task>, ts': seq<Task>, t: nat, space: int)
    requires t < |ts| == |ts'| <= |g.parent| && ts[t].frees == 0 && ts'[t].frees == 1
    requires forall i :: 0 <= i < |ts| && i != t ==> ts'[i].frees == ts[i].frees
    ensures Alive(g, ts', space) == Alive(g, ts, space) - B2i(g.parent[t] == space)
  {
    AmongFreed(g, ts, ts', |ts|, t, space);
  }

  lemma {:induction false} AmongNone(g: Graph, ts: seq<Task>, n: nat, space: int)
    requires n <= |ts| <= |g.parent| && n <= space
    requires forall i :: 0 <= i < |g.parent| ==> g.parent[i] < i
    ensures AliveAmong(g, ts, n, space) == 0
  {
    if n > 0 { AmongNone(g, ts, n - 1, space); }
  }

  lemma {:induction false} AmongZero(g: Graph, ts: seq<Task>, n: nat, space: int, t: nat)
    requires t < n <= |ts| <= |g.parent| && AliveAmong(g, ts, n, space) == 0 && g.parent[t] == space
    ensures ts[t].frees != 0
  {
    if t < n - 1 { AmongZero(g, ts, n - 1, space, t); }
  }

  lemma RemovalFrame(g: Graph, s: State, s': State)
    requires |s'.tasks| == |s.tasks| && Removal(g, s) && s'.rootCount == s.rootCount
    requires forall i :: 0 <= i < |s.tasks| ==>
                           && s'.tasks[i].frees == s.tasks[i].frees
                           && s'.tasks[i].children == s.tasks[i].children
                           && RemovalOk(s'.tasks[i])
    ensures Removal(g, s')
  {
    AliveSame(g, s.tasks, s'.tasks, -1);
    forall t | 0 <= t < |s.tasks| ensures s'.tasks[t].children == Alive(g, s'.tasks, t) {
      AliveSame(g, s.tasks, s'.tasks, t);
    }
  }

  /** An own step leaves the countdown and the space counts alone. */
  predicate Uncounted(s: State, s': State, t: nat)
  {
    && t < |s.tasks| == |s'.tasks| && s'.rootCount == s.rootCount && s'.tasks == s.tasks[t := s'.tasks[t]]
    && var x, x' := s.tasks[t], s'.tasks[t];
    && x'.countdown == x.countdown && x'.frees == x.frees && x'.children == x.children
    && (x'.done.Closed? <==> x.done.Closed?) && (x'.result.Counted? <==> x.result.Counted?)
  }

  lemma OwnUncounted(g: Graph, s: State, step: Step)
    requires Enabled(g, s, step) && OwnStep(step) && (s.tasks[step.t].post == 1 ==> s.tasks[step.t].done.Open?)
    ensures Uncounted(s, Apply(g, s, step), step.t)
  {
  }

  lemma RemovalUncounted(g: Graph, s: State, s': State, t: nat)
    requires Removal(g, s) && Uncounted(s, s', t)
    ensures Removal(g, s')
  {
    assert RemovalOk(s.tasks[t]);
    RemovalFrame(g, s, s');
  }

  lemma RemovalScan(g: Graph, s: State, s': State, t: nat, raised: bool)
    requires Removal(g, s) && ScanShaped(g, s, s', t, raised)
    ensures Removal(g, s')
  {
    assert RemovalOk(s.tasks[t]);
    RemovalFrame(g, s, s');
  }

  lemma RemovalAddFollower(g: Graph, s: State, t: nat)
    requires Listing(g, s) && Removal(g, s) && CanAddFollower(g, s, t)
    ensures Removal(g, DoAddFollower(g, s, t))
  {
    EntryFacts(g, s, t);
    assert RemovalOk(s.tasks[t]) && RemovalOk(s.tasks[Entry(g, s, t)]);
    RemovalFrame(g, s, DoAddFollower(g, s, t));
  }

  lemma RemovalDeliver(g: Graph, s: State, t: nat)
    requires Local(g, s) && Family(g, s) && Exact(s) && Removal(g, s) && CanDeliver(g, s, t)
    ensures Removal(g, DoDeliver(g, s, t))
  {
    var e := PoppedEntry(g, s, t);
    assert RemovalOk(s.tasks[t]) && RemovalOk(s.tasks[e.t]);
    assert LocalOk(g, s.tasks[e.t], e.t, |s.tasks|);
    RemovalDelivered(g, s, t);
    RemovalFrame(g, s, DoDeliver(g, s, t));
  }

  lemma RemovalDelivered(g: Graph, s: State, t: nat)
    requires CanDeliver(g, s, t) && forall i :: 0 <= i < |s.tasks| ==> RemovalOk(s.tasks[i])
    requires var e := s.tasks[t].followers[|s.tasks[t].followers| - 1];
             e.t != t && (s.tasks[e.t].post == 1 ==> s.tasks[e.t].done.Open?)
    ensures var s' := DoDeliver(g, s, t);
            forall i :: 0 <= i < |s.tasks| ==>
                          && s'.tasks[i].frees == s.tasks[i].frees
                          && s'.tasks[i].children == s.tasks[i].children
                          && RemovalOk(s'.tasks[i])
  {
  }

  lemma SubmitAlive(g: Graph, s: State, s': State, space: int)
    requires SubmitShaped(g, s, s')
    ensures Alive(g, s'.tasks, space) == Alive(g, s.tasks, space) + B2i(space == g.parent[|s.tasks|])
  {
    AmongSame(g, s.tasks, s'.tasks, |s.tasks|, space);
  }

  lemma RemovalSubmit(g: Graph, s: State, s': State)
    requires Lawful(g) && Removal(g, s) && SubmitShaped(g, s, s')
    ensures Removal(g, s')
  {
    var n := |s.tasks|;
    SubmitAlive(g, s, s', -1);
    forall t | 0 <= t <= n ensures RemovalOk(s'.tasks[t]) && s'.tasks[t].children == Alive(g, s'.tasks, t) {
      SubmitAlive(g, s, s', t);
      if t < n {
        assert RemovalOk(s.tasks[t]) && s.tasks[t].children == Alive(g, s.tasks, t);
      } else {
        AmongNone(g, s.tasks, n, n);
      }
    }
  }

  /** One party of the removal countdown has just arrived and is about to count down. */
  predicate Arriving(x: Task)
  {
    && x.frees == 0
    && x.countdown == 3 - B2i(x.done.Closed?) - B2i(x.result.Counted?)
    && (x.done.Closed? || x.result.Counted?)
  }

  lemma RemovalArrived(g: Graph, s: State, t: nat)
    requires t < |s.tasks| <= |g.parent| && -1 <= g.parent[t] < t && Arriving(s.tasks[t])
    requires s.rootCount == Alive(g, s.tasks, -1)
    requires forall u :: 0 <= u < |s.tasks| ==>
                           (u != t ==> RemovalOk(s.tasks[u])) && s.tasks[u].children == Alive(g, s.tasks, u)
    ensures Removal(g, Arrive(g, s, t))
  {
    var s' := Arrive(g, s, t);
    forall u | -1 <= u < |s.tasks|
      ensures Alive(g, s'.tasks, u) == Alive(g, s.tasks, u) - B2i(s.tasks[t].countdown == 1 && g.parent[t] == u)
    {
      if s.tasks[t].countdown == 1 {
        AliveFreed(g, s.tasks, s'.tasks, t, u);
      } else {
        AliveSame(g, s.tasks, s'.tasks, u);
      }
    }
  }

  lemma RemovalArrive(g: Graph, s: State, mid: State, t: nat)
    requires Removal(g, s) && t < |s.tasks| && -1 <= g.parent[t] < t
    requires |mid.tasks| == |s.tasks| && mid == s.(tasks := s.tasks[t := mid.tasks[t]])
    requires mid.tasks[t].frees == s.tasks[t].frees && mid.tasks[t].children == s.tasks[t].children
    requires Arriving(mid.tasks[t])
    ensures Removal(g, Arrive(g, mid, t))
  {
    forall u | -1 <= u < |s.tasks| ensures Alive(g, mid.tasks, u) == Alive(g, s.tasks, u) {
      AliveSame(g, s.tasks, mid.tasks, u);
    }
    RemovalArrived(g, mid, t);
  }

  lemma RemovalClose(g: Graph, s: State, t: nat)
    requires Family(g, s) && Removal(g, s) && CanClose(g, s, t)
    ensures Removal(g, DoClose(g, s, t))
  {
    assert RemovalOk(s.tasks[t]);
    RemovalArrive(g, s, s.(tasks := s.tasks[t := s.tasks[t].(done := Closed)]), t);
  }

  lemma RemovalCountResult(g: Graph, s: State, t: nat)
    requires Family(g, s) && Removal(g, s) && CanCountResult(g, s, t)
    ensures Removal(g, DoCountResult(g, s, t))
  {
    assert RemovalOk(s.tasks[t]);
    RemovalArrive(g, s, s.(tasks := s.tasks[t := s.tasks[t].(result := Counted)]), t);
  }

  lemma RemovalOwn(g: Graph, s: State, step: Step)
    requires Local(g, s) && Removal(g, s) && Enabled(g, s, step) && OwnStep(step)
    ensures Removal(g, Apply(g, s, step))
  {
    assert LocalOk(g, s.tasks[step.t], step.t, |s.tasks|);
    OwnUncounted(g, s, step);
    RemovalUncounted(g, s, Apply(g, s, step), step.t);
  }

  lemma RemovalStep(g: Graph, s: State, step: Step)
    requires Lawful(g) && Core(g, s) && Removal(g, s) && Enabled(g, s, step)
    ensures Removal(g, Apply(g, s, step))
  {
    if OwnStep(step) {
      RemovalOwn(g, s, step);
    } else if ScanStep(step) {
      ScanShape(g, s, step);
      RemovalScan(g, s, Apply(g, s, step), step.t, step.Raise?);
    } else {
      match step
      case Submit => SubmitShape(g, s); RemovalSubmit(g, s, DoSubmit(g, s));
      case Deliver(t) => RemovalDeliver(g, s, t);
      case AddFollower(t) => RemovalAddFollower(g, s, t);
      case Close(t) => RemovalClose(g, s, t);
      case CountResult(t) => RemovalCountResult(g, s, t);
    }
  }
}
