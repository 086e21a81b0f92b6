/** Every step keeps the task tree, the user lists, the locks and the scan positions consistent. */
module GraphLists {
  import opened Common
  import opened ResourceUsers
  import opened EventGraph
  import opened GraphInvariant
  import opened GraphCore

  // ------------------------------------------------------------ task tree

  lemma FamilyFrame(g: Graph, s: State, s': State)
    requires Family(g, s) && |s'.tasks| == |s.tasks|
    requires forall i :: 0 <= i < |s.tasks| ==>
                           && (Started(s.tasks[i]) ==> Started(s'.tasks[i]))
                           && (s.tasks[i].phase.Running? ==> s'.tasks[i].phase.Running?)
                           && (s'.tasks[i].phase.Submitting? ==> s.tasks[i].phase.Submitting?)
    ensures Family(g, s')
  {
  }

  lemma FamilySubmit(g: Graph, s: State)
    requires Lawful(g) && Family(g, s) && CanSubmit(g, s)
    ensures Family(g, DoSubmit(g, s))
  {
    var s' := DoSubmit(g, s);
    var mid := s.(tasks := s'.tasks[..|s.tasks|]);
    FamilyFrame(g, s, mid);
    FamilyAppend(g, mid, s');
  }

  lemma FamilyAppend(g: Graph, s: State, s': State)
    requires Lawful(g) && Family(g, s) && |s'.tasks| == |s.tasks| + 1 <= |g.parent|
    requires forall i :: 0 <= i < |s.tasks| ==> s'.tasks[i] == s.tasks[i]
    requires var p := g.parent[|s.tasks|];
             && NoneSubmitting(g, s, p)
             && (p >= 0 ==> s.tasks[p].phase.Running?)
    ensures Family(g, s')
  {
    var n := |s.tasks|;
    forall q, t | 0 <= q < t <= n && g.parent[q] == g.parent[t] ensures !s'.tasks[q].phase.Submitting? {
      assert s'.tasks[q] == s.tasks[q];
    }
    forall t | 0 <= t <= n && g.parent[t] >= 0
      ensures && Started(s'.tasks[g.parent[t]])
              && (s'.tasks[t].phase.Submitting? ==> s'.tasks[g.parent[t]].phase.Running?)
    {
      assert g.parent[t] < n && s'.tasks[g.parent[t]] == s.tasks[g.parent[t]];
      if t < n { assert s'.tasks[t] == s.tasks[t]; }
    }
  }

  lemma FamilyFinish(g: Graph, s: State, t: nat)
    requires Family(g, s) && CanFinish(g, s, t)
    ensures Family(g, DoFinish(g, s, t))
  {
  }

  lemma FamilyOwn(g: Graph, s: State, step: Step)
    requires Family(g, s) && Enabled(g, s, step) && OwnStep(step) && !step.Finish?
    ensures Family(g, Apply(g, s, step))
  {
    FamilyFrame(g, s, Apply(g, s, step));
  }

  lemma FamilyScan(g: Graph, s: State, s': State, t: nat, raised: bool)
    requires Family(g, s) && ScanShaped(g, s, s', t, raised)
    ensures Family(g, s')
  {
    FamilyFrame(g, s, s');
  }

  lemma FamilyShelved(g: Graph, s: State, s': State, t: nat)
    requires Family(g, s) && Shelved(s, s', t)
    ensures Family(g, s')
  {
    FamilyFrame(g, s, s');
  }

  lemma FamilyAddFollower(g: Graph, s: State, t: nat)
    requires Family(g, s) && Listing(g, s) && CanAddFollower(g, s, t)
    ensures Family(g, DoAddFollower(g, s, t))
  {
    EntryFacts(g, s, t);
    FamilyFrame(g, s, DoAddFollower(g, s, t));
  }

  lemma FamilyDeliver(g: Graph, s: State, t: nat)
    requires Family(g, s) && CanDeliver(g, s, t)
    ensures Family(g, DoDeliver(g, s, t))
  {
    FamilyFrame(g, s, DoDeliver(g, s, t));
  }

  lemma FamilyStep(g: Graph, s: State, step: Step)
    requires Lawful(g) && Family(g, s) && Listing(g, s) && Enabled(g, s, step)
    ensures Family(g, Apply(g, s, step))
  {
    if OwnStep(step) {
      if step.Finish? { FamilyFinish(g, s, step.t); } else { FamilyOwn(g, s, step); }
    } else if ScanStep(step) {
      ScanShape(g, s, step);
      FamilyScan(g, s, Apply(g, s, step), step.t, step.Raise?);
    } else {
      match step
      case Submit => FamilySubmit(g, s);
      case Close(t) => CloseShape(g, s, t); FamilyShelved(g, s, DoClose(g, s, t), t);
      case CountResult(t) => CountResultShape(g, s, t); FamilyShelved(g, s, DoCountResult(g, s, t), t);
      case AddFollower(t) => FamilyAddFollower(g, s, t);
      case Deliver(t) => FamilyDeliver(g, s, t);
    }
  }

  // ------------------------------------------------------------ lists, when no list or lock changes

  ghost predicate SameListing(g: Graph, x: Task, x': Task, t: nat)
    requires t < |g.resources|
  {
    forall r :: Listed(g, x, t, r) <==> Listed(g, x', t, r)
  }

  predicate SameScan(x: Task, x': Task)
  {
    (Scanning(x) <==> Scanning(x')) && (Scanning(x) ==> x.phase == x'.phase)
  }

  ghost predicate SameUsers(s: State, s': State)
  {
    forall r :: Users(s', r) == Users(s, r)
  }

  lemma MembersFrame(g: Graph, s: State, s': State)
    requires |s'.tasks| == |s.tasks| <= |g.resources| && Members(g, s) && SameUsers(s, s')
    requires forall i :: 0 <= i < |s.tasks| ==> SameListing(g, s.tasks[i], s'.tasks[i], i)
    ensures Members(g, s')
  {
    forall r, t ensures t in Users(s', r) <==> 0 <= t < |s.tasks| && Listed(g, s'.tasks[t], t, r) {
      assert t in Users(s, r) <==> 0 <= t < |s.tasks| && Listed(g, s.tasks[t], t, r);
    }
  }

  lemma LocksFrame(g: Graph, s: State, s': State)
    requires |s.tasks| <= |s'.tasks| <= |g.resources| && Locks(g, s) && s'.locks == s.locks
    requires forall i :: 0 <= i < |s.tasks| ==> SameScan(s.tasks[i], s'.tasks[i])
    requires forall i :: |s.tasks| <= i < |s'.tasks| ==> !Scanning(s'.tasks[i])
    ensures Locks(g, s')
  {
  }

  /** A position stays good while its part of the list and the followers of its entry last. */
  lemma ScanOkFrame(g: Graph, s: State, s': State, t: nat)
    requires |s.tasks| <= |s'.tasks| <= |g.resources| && t < |s.tasks| && ScanOk(g, s, t)
    requires s'.tasks[t].phase == s.tasks[t].phase
    requires Scanning(s.tasks[t]) && s.tasks[t].phase.k < |g.resources[t]| ==>
               var us := Users(s, ScanResource(g, s.tasks[t], t));
               && us <= Users(s', ScanResource(g, s.tasks[t], t))
               && (!s.tasks[t].phase.scan.At? ==>
                     s.tasks[us[s.tasks[t].phase.scan.n - 1]].followers
                     <= s'.tasks[us[s.tasks[t].phase.scan.n - 1]].followers)
    ensures ScanOk(g, s', t)
  {
  }

  lemma ListingFrame(g: Graph, s: State, s': State)
    requires Listing(g, s) && |s'.tasks| == |s.tasks| && s'.users == s.users && s'.locks == s.locks
    requires forall i :: 0 <= i < |s.tasks| ==>
                           && SameListing(g, s.tasks[i], s'.tasks[i], i)
                           && SameScan(s.tasks[i], s'.tasks[i])
                           && (s'.tasks[i].followers == s.tasks[i].followers || s.tasks[i].done.Notifying?)
    ensures Listing(g, s')
  {
    assert forall r :: Users(s', r) == Users(s, r);
    MembersFrame(g, s, s');
    LocksFrame(g, s, s');
    forall t | 0 <= t < |s.tasks| ensures ScanOk(g, s', t) {
      assert ScanOk(g, s, t);
      if Scanning(s.tasks[t]) && s.tasks[t].phase.k < |g.resources[t]| {
        if !s.tasks[t].phase.scan.At? { EntryFacts(g, s, t); }
        ScanOkFrame(g, s, s', t);
      }
    }
  }

  lemma ListingUpdate(g: Graph, s: State, s': State, t: nat)
    requires Listing(g, s) && t < |s.tasks| == |s'.tasks| && s'.users == s.users && s'.locks == s.locks
    requires s'.tasks == s.tasks[t := s'.tasks[t]] && s'.tasks[t].followers == s.tasks[t].followers
    requires SameListing(g, s.tasks[t], s'.tasks[t], t) && SameScan(s.tasks[t], s'.tasks[t])
    ensures Listing(g, s')
  {
    ListingFrame(g, s, s');
  }

  predicate QuietOwn(step: Step)
  {
    OwnStep(step) && !step.PushUser? && !step.Lock? && !step.Unlist?
  }

  lemma ListingOwn(g: Graph, s: State, step: Step)
    requires Local(g, s) && Listing(g, s) && Enabled(g, s, step) && QuietOwn(step)
    ensures Listing(g, Apply(g, s, step))
  {
    assert LocalOk(g, s.tasks[step.t], step.t, |s.tasks|);
    assert g.resources[step.t][..|g.resources[step.t]|] == g.resources[step.t];
    if EarlyOwn(step) { ListingEarly(g, s, step); } else { ListingLate(g, s, step); }
  }

  lemma ListingEarly(g: Graph, s: State, step: Step)
    requires Listing(g, s) && Enabled(g, s, step) && QuietOwn(step) && EarlyOwn(step)
    requires g.resources[step.t][..|g.resources[step.t]|] == g.resources[step.t]
    ensures Listing(g, Apply(g, s, step))
  {
    var s' := Apply(g, s, step);
    match step
    case Emplace(t) => ListingUpdate(g, s, s', t);
    case InitBegin(t) => ListingUpdate(g, s, s', t);
    case InitEnd(t) => ListingUpdate(g, s, s', t);
    case Start(t) => ListingUpdate(g, s, s', t);
  }

  lemma ListingLate(g: Graph, s: State, step: Step)
    requires Listing(g, s) && Enabled(g, s, step) && QuietOwn(step) && !EarlyOwn(step)
    requires LocalOk(g, s.tasks[step.t], step.t, |s.tasks|)
    requires g.resources[step.t][..|g.resources[step.t]|] == g.resources[step.t]
    ensures Listing(g, Apply(g, s, step))
  {
    var s' := Apply(g, s, step);
    assert g.resources[step.t][..0] == [];
    match step
    case MakeEvent(t) => ListingUpdate(g, s, s', t);
    case FireEvent(t) => ListingUpdate(g, s, s', t);
    case DeliverEvent(t) => ListingUpdate(g, s, s', t);
    case Finish(t) => ListingUpdate(g, s, s', t);
    case BeginNotify(t) => ListingUpdate(g, s, s', t);
    case TakeResult(t) => ListingUpdate(g, s, s', t);
  }

  lemma ListingShelved(g: Graph, s: State, s': State, t: nat)
    requires Listing(g, s) && Shelved(s, s', t)
    ensures Listing(g, s')
  {
    ListingFrame(g, s, s');
  }

  lemma ListingPop(g: Graph, s: State, t: nat) returns (s': State)
    requires Listing(g, s) && t < |s.tasks| && s.tasks[t].done.Notifying? && s.tasks[t].followers != []
    ensures var f := s.tasks[t].followers;
            s' == s.(tasks := s.tasks[t := s.tasks[t].(followers := f[..|f| - 1])])
    ensures Listing(g, s')
  {
    s' := s.(tasks := s.tasks[t := s.tasks[t].(followers := s.tasks[t].followers[..|s.tasks[t].followers| - 1])]);
    ListingFrame(g, s, s');
  }

  lemma ListingNotify(g: Graph, s: State, s': State, e: Event)
    requires Listing(g, s) && e.t < |s.tasks| && s' == s.(tasks := Notify(s.tasks, e))
    requires e.Post? ==> s.tasks[e.t].post == 1 ==> s.tasks[e.t].done.Open?
    ensures Listing(g, s')
  {
    assert g.resources[e.t][..0] == [];
    ListingUpdate(g, s, s', e.t);
  }

  /** A post-event about to be brought to 0 is still open. */
  lemma PoppedIsOpen(g: Graph, s: State, t: nat) returns (e: Event)
    requires Local(g, s) && Family(g, s) && CanDeliver(g, s, t)
    ensures e == s.tasks[t].followers[|s.tasks[t].followers| - 1]
    ensures e.t < |s.tasks| && e.t != t && (e.Post? ==> s.tasks[e.t].post == 1 ==> s.tasks[e.t].done.Open?)
  {
    e := PoppedEntry(g, s, t);
    assert LocalOk(g, s.tasks[e.t], e.t, |s.tasks|);
  }

  lemma ListingDeliver(g: Graph, s: State, t: nat)
    requires Local(g, s) && Family(g, s) && Listing(g, s) && CanDeliver(g, s, t)
    ensures Listing(g, DoDeliver(g, s, t))
  {
    var e := PoppedIsOpen(g, s, t);
    var mid := ListingPop(g, s, t);
    ListingNotify(g, mid, DoDeliver(g, s, t), e);
  }

  // ------------------------------------------------------------ lists, when they change

  lemma ListingSubmit(g: Graph, s: State, s': State)
    requires Listing(g, s) && SubmitShaped(g, s, s')
    ensures Listing(g, s')
  {
    var n := |s.tasks|;
    assert SameUsers(s, s');
    forall r, t ensures t in Users(s', r) <==> 0 <= t < |s'.tasks| && Listed(g, s'.tasks[t], t, r) {
      assert t in Users(s, r) <==> 0 <= t < n && Listed(g, s.tasks[t], t, r);
      if t == n { assert !Listed(g, s'.tasks[t], t, r); }
    }
    LocksFrame(g, s, s');
    forall t | 0 <= t <= n ensures ScanOk(g, s', t) {
      if t < n { assert ScanOk(g, s, t); ScanOkFrame(g, s, s', t); }
    }
  }

  lemma ListingPush(g: Graph, s: State, t: nat)
    requires Lawful(g) && Local(g, s) && Family(g, s) && Listing(g, s) && CanPushUser(g, s, t)
    ensures Listing(g, DoPushUser(g, s, t))
  {
    var s' := DoPushUser(g, s, t);
    var r0 := g.resources[t][s.tasks[t].phase.k];
    PushedOne(g, s, t);
    MembersAdd(g, s, s', t, r0);
    PushOrdered(g, s, s', t, r0);
    LocksFrame(g, s, s');
    PushScans(g, s, s', t, r0);
  }

  lemma PushOrdered(g: Graph, s: State, s': State, t: nat, r0: Resource)
    requires Family(g, s) && Listing(g, s) && t < |s.tasks| && s.tasks[t].phase.Submitting?
    requires !Listed(g, s.tasks[t], t, r0)
    requires forall r :: Users(s', r) == if r == r0 then Users(s, r0) + [t] else Users(s, r)
    ensures Ordered(g, s')
  {
    OrderedPush(g, s, t, r0);
    forall r ensures OrderedList(g, Users(s', r)) {
      if r != r0 { assert OrderedList(g, Users(s, r)); }
    }
  }

  lemma PushScans(g: Graph, s: State, s': State, t: nat, r0: Resource)
    requires |s.tasks| == |s'.tasks| <= |g.resources| && Scans(g, s) && t < |s.tasks|
    requires s'.tasks == s.tasks[t := s'.tasks[t]] && s'.tasks[t].followers == s.tasks[t].followers
    requires !Scanning(s.tasks[t]) && !Scanning(s'.tasks[t])
    requires forall r :: Users(s', r) == if r == r0 then Users(s, r0) + [t] else Users(s, r)
    ensures Scans(g, s')
  {
    ScansFrame(g, s, s', t);
  }

  lemma PushedOne(g: Graph, s: State, t: nat)
    requires Lawful(g) && Local(g, s) && CanPushUser(g, s, t)
    ensures var s', r0 := DoPushUser(g, s, t), g.resources[t][s.tasks[t].phase.k];
            && !Listed(g, s.tasks[t], t, r0)
            && (forall r :: Users(s', r) == if r == r0 then Users(s, r0) + [t] else Users(s, r))
            && (forall r :: Listed(g, s'.tasks[t], t, r) <==> Listed(g, s.tasks[t], t, r) || r == r0)
  {
    var k := s.tasks[t].phase.k;
    assert LocalOk(g, s.tasks[t], t, |s.tasks|);
    Prefix(g, t, k);
    assert g.resources[t][..k + 1] == g.resources[t][..k] + [g.resources[t][k]];
  }

  /** Scans are untouched when the only task that changes is not scanning and their lists only grow. */
  lemma ScansFrame(g: Graph, s: State, s': State, t: nat)
    requires |s.tasks| == |s'.tasks| <= |g.resources| && Scans(g, s) && t < |s.tasks|
    requires s'.tasks == s.tasks[t := s'.tasks[t]] && s'.tasks[t].followers == s.tasks[t].followers
    requires !Scanning(s.tasks[t]) && !Scanning(s'.tasks[t])
    requires forall u :: 0 <= u < |s.tasks| && Scanning(s.tasks[u]) && s.tasks[u].phase.k < |g.resources[u]| ==>
                           Users(s, ScanResource(g, s.tasks[u], u)) <= Users(s', ScanResource(g, s.tasks[u], u))
    ensures Scans(g, s')
  {
    forall u | 0 <= u < |s.tasks| ensures ScanOk(g, s', u) {
      assert ScanOk(g, s, u);
      if u != t { ScanOkFrame(g, s, s', u); }
    }
  }

  lemma MembersAdd(g: Graph, s: State, s': State, t: nat, r0: Resource)
    requires |s'.tasks| == |s.tasks| <= |g.resources| && Members(g, s) && t < |s.tasks|
    requires s'.tasks == s.tasks[t := s'.tasks[t]]
    requires forall r :: Users(s', r) == if r == r0 then Users(s, r0) + [t] else Users(s, r)
    requires forall r :: Listed(g, s'.tasks[t], t, r) <==> Listed(g, s.tasks[t], t, r) || r == r0
    ensures Members(g, s')
  {
    forall r, u ensures u in Users(s', r) <==> 0 <= u < |s'.tasks| && Listed(g, s'.tasks[u], u, r) {
      assert u in Users(s, r) <==> 0 <= u < |s.tasks| && Listed(g, s.tasks[u], u, r);
      assert u in Users(s', r) <==> u in Users(s, r) || (r == r0 && u == t);
      if 0 <= u < |s.tasks| && u != t { assert s'.tasks[u] == s.tasks[u]; }
    }
  }

  /** A task enters a list behind all its listed siblings and before any of its children. */
  lemma OrderedPush(g: Graph, s: State, t: nat, r0: Resource)
    requires Family(g, s) && Listing(g, s) && t < |s.tasks| && s.tasks[t].phase.Submitting?
    requires !Listed(g, s.tasks[t], t, r0)
    ensures OrderedList(g, Users(s, r0) + [t])
  {
    var us := Users(s, r0);
    forall i | 0 <= i < |us| ensures InOrder(g, us[i], t) {
      assert us[i] in us;
    }
    assert OrderedList(g, us);
  }

  lemma Prefix(g: Graph, t: nat, k: nat)
    requires Lawful(g) && t < |g.parent| && k < |g.resources[t]|
    ensures g.resources[t][k] !in g.resources[t][..k]
  {
    assert Distinct(g.resources[t]);
  }

  lemma LocksLock(g: Graph, s: State, t: nat)
    requires |s.tasks| <= |g.resources| && Locks(g, s) && CanLock(g, s, t)
    ensures |DoLock(g, s, t).tasks| == |s.tasks| && Locks(g, DoLock(g, s, t))
  {
  }

  lemma ListingLock(g: Graph, s: State, t: nat)
    requires Listing(g, s) && CanLock(g, s, t)
    ensures Listing(g, DoLock(g, s, t))
  {
    var s' := DoLock(g, s, t);
    assert SameUsers(s, s');
    assert SameListing(g, s.tasks[t], s'.tasks[t], t);
    MembersFrame(g, s, s');
    LocksLock(g, s, t);
    forall u | 0 <= u < |s.tasks| ensures ScanOk(g, s', u) {
      assert ScanOk(g, s, u);
      if u != t { ScanOkFrame(g, s, s', u); }
    }
  }

  /** The own entry of a scanning task lies above the part of the list it has yet to scan. */
  lemma OwnEntryAbove(g: Graph, s: State, t: nat, i: nat)
    requires Local(g, s) && Listing(g, s) && t < |s.tasks| && Scanning(s.tasks[t])
    requires i < s.tasks[t].phase.scan.n
    ensures s.tasks[t].phase.k < |g.resources[t]|
    ensures var us := Users(s, ScanResource(g, s.tasks[t], t));
            i < |us| && us[i] < |s.tasks| && InOrder(g, us[i], t)
  {
    assert LocalOk(g, s.tasks[t], t, |s.tasks|);
    var us := Users(s, ScanResource(g, s.tasks[t], t));
    assert ScanOk(g, s, t);
    assert t in us;
    var j :| 0 <= j < |us| && us[j] == t;
    assert us == us[..s.tasks[t].phase.scan.n] + us[s.tasks[t].phase.scan.n..];
    assert us[i] in us;
  }

  lemma ListingScan(g: Graph, s: State, s': State, t: nat, raised: bool)
    requires Listing(g, s) && ScanShaped(g, s, s', t, raised) && ScanOk(g, s', t)
    ensures Listing(g, s')
  {
    assert SameUsers(s, s');
    assert SameListing(g, s.tasks[t], s'.tasks[t], t);
    MembersFrame(g, s, s');
    LocksScan(g, s, s', t, raised);
    forall u | 0 <= u < |s.tasks| ensures ScanOk(g, s', u) {
      assert ScanOk(g, s, u);
      if u != t { ScanOkFrame(g, s, s', u); }
    }
  }

  lemma LocksScan(g: Graph, s: State, s': State, t: nat, raised: bool)
    requires |s.tasks| <= |g.resources| && Locks(g, s) && ScanShaped(g, s, s', t, raised)
    ensures Locks(g, s')
  {
    assert s.locks[ScanResource(g, s.tasks[t], t)] == t;
  }

  lemma ScanOkOwn(g: Graph, s: State, step: Step)
    requires Local(g, s) && Listing(g, s) && Enabled(g, s, step) && ScanStep(step)
    ensures |Apply(g, s, step).tasks| == |s.tasks| && ScanOk(g, Apply(g, s, step), step.t)
  {
    match step
    case Look(t) => ScanOkLook(g, s, t);
    case Recheck(t) => ScanOkRecheck(g, s, t);
    case Raise(t) => ScanOkRaise(g, s, t);
  }

  lemma ScanOkLook(g: Graph, s: State, t: nat)
    requires Local(g, s) && Listing(g, s) && CanLook(g, s, t)
    ensures |DoLook(g, s, t).tasks| == |s.tasks| && ScanOk(g, DoLook(g, s, t), t)
  {
    var n := s.tasks[t].phase.scan.n;
    var us := Users(s, ScanResource(g, s.tasks[t], t));
    assert ScanOk(g, s, t);
    if n > 0 {
      OwnEntryAbove(g, s, t, n - 1);
      assert us[..n - 1] <= us[..n];
    }
  }

  lemma ScanOkRecheck(g: Graph, s: State, t: nat)
    requires Listing(g, s) && CanRecheck(g, s, t)
    ensures |DoRecheck(g, s, t).tasks| == |s.tasks| && ScanOk(g, DoRecheck(g, s, t), t)
  {
    var us := Users(s, ScanResource(g, s.tasks[t], t));
    assert ScanOk(g, s, t);
    assert us[..s.tasks[t].phase.scan.n - 1] <= us[..s.tasks[t].phase.scan.n];
  }

  lemma ScanOkRaise(g: Graph, s: State, t: nat)
    requires Listing(g, s) && CanRaise(g, s, t)
    ensures |DoRaise(g, s, t).tasks| == |s.tasks| && ScanOk(g, DoRaise(g, s, t), t)
  {
    var us := Users(s, ScanResource(g, s.tasks[t], t));
    assert ScanOk(g, s, t);
    assert us[..s.tasks[t].phase.scan.n - 1] <= us[..s.tasks[t].phase.scan.n];
  }

  lemma ListingAddFollower(g: Graph, s: State, t: nat)
    requires Listing(g, s) && CanAddFollower(g, s, t)
    ensures Listing(g, DoAddFollower(g, s, t))
  {
    EntryFacts(g, s, t);
    var s' := DoAddFollower(g, s, t);
    assert SameUsers(s, s');
    MembersFrame(g, s, s');
    LocksPush(g, s, t);
    forall u | 0 <= u < |s.tasks| ensures ScanOk(g, s', u) {
      assert ScanOk(g, s, u);
      if u != t { ScanOkFrame(g, s, s', u); }
    }
  }

  lemma LocksPush(g: Graph, s: State, t: nat)
    requires |s.tasks| <= |g.resources| && Locks(g, s) && CanAddFollower(g, s, t) && Entry(g, s, t) < t
    ensures Locks(g, DoAddFollower(g, s, t))
  {
  }

  lemma ListingUnlist(g: Graph, s: State, t: nat)
    requires Lawful(g) && Local(g, s) && Listing(g, s) && CanUnlist(g, s, t)
    ensures Listing(g, DoUnlist(g, s, t))
  {
    var s' := DoUnlist(g, s, t);
    var k := s.tasks[t].done.k;
    var r0 := g.resources[t][k];
    UnlistedOne(g, s, t);
    MembersDrop(g, s, s', t, r0);
    UnlistOrdered(g, s, s', t, r0);
    LocksFrame(g, s, s');
    UnlistScans(g, s, s', t, r0);
  }

  lemma UnlistOrdered(g: Graph, s: State, s': State, t: nat, r0: Resource)
    requires Ordered(g, s)
    requires forall r :: Users(s', r) == if r == r0 then Drop(Users(s, r0), t) else Users(s, r)
    ensures Ordered(g, s')
  {
    OrderedDrop(g, Users(s, r0), t);
    forall r ensures OrderedList(g, Users(s', r)) {
      if r != r0 { assert OrderedList(g, Users(s, r)); }
    }
  }

  /** A list is only shortened when no scan holds its lock. */
  lemma UnlistScans(g: Graph, s: State, s': State, t: nat, r0: Resource)
    requires |s.tasks| == |s'.tasks| <= |g.resources| && Scans(g, s) && Locks(g, s) && t < |s.tasks|
    requires s'.tasks == s.tasks[t := s'.tasks[t]] && s'.tasks[t].followers == s.tasks[t].followers
    requires !Scanning(s.tasks[t]) && !Scanning(s'.tasks[t]) && r0 !in s.locks
    requires forall r :: Users(s', r) == if r == r0 then Drop(Users(s, r0), t) else Users(s, r)
    ensures Scans(g, s')
  {
    ScansFrame(g, s, s', t);
  }

  lemma UnlistedOne(g: Graph, s: State, t: nat)
    requires Lawful(g) && Local(g, s) && CanUnlist(g, s, t)
    ensures var s', r0 := DoUnlist(g, s, t), g.resources[t][s.tasks[t].done.k];
            && !Scanning(s.tasks[t])
            && (forall r :: Users(s', r) == if r == r0 then Drop(Users(s, r0), t) else Users(s, r))
            && (forall r :: Listed(g, s'.tasks[t], t, r) <==> Listed(g, s.tasks[t], t, r) && r != r0)
  {
    var k := s.tasks[t].done.k;
    assert LocalOk(g, s.tasks[t], t, |s.tasks|);
    Prefix(g, t, k);
    assert g.resources[t][..k + 1] == g.resources[t][..k] + [g.resources[t][k]];
  }

  lemma MembersDrop(g: Graph, s: State, s': State, t: nat, r0: Resource)
    requires |s'.tasks| == |s.tasks| <= |g.resources| && Members(g, s) && Ordered(g, s) && t < |s.tasks|
    requires s'.tasks == s.tasks[t := s'.tasks[t]]
    requires forall r :: Users(s', r) == if r == r0 then Drop(Users(s, r0), t) else Users(s, r)
    requires forall r :: Listed(g, s'.tasks[t], t, r) <==> Listed(g, s.tasks[t], t, r) && r != r0
    ensures Members(g, s')
  {
    DropMembers(g, Users(s, r0), t);
    forall r, u ensures u in Users(s', r) <==> 0 <= u < |s'.tasks| && Listed(g, s'.tasks[u], u, r) {
      assert u in Users(s, r) <==> 0 <= u < |s.tasks| && Listed(g, s.tasks[u], u, r);
    }
  }

  lemma DropAt(us: seq<nat>, t: nat, i: nat)
    requires i < |Drop(us, t)|
    ensures var j := if i < IndexOf(us, t) then i else i + 1; j < |us| && Drop(us, t)[i] == us[j]
  {
  }

  lemma OrderedDrop(g: Graph, us: seq<nat>, t: nat)
    requires OrderedList(g, us)
    ensures OrderedList(g, Drop(us, t))
  {
    var vs := Drop(us, t);
    forall i, j | 0 <= i < j < |vs| ensures InOrder(g, vs[i], vs[j]) {
      DropAt(us, t, i);
      DropAt(us, t, j);
    }
  }

  lemma DropMembers(g: Graph, us: seq<nat>, t: nat)
    requires OrderedList(g, us)
    ensures forall u :: u in Drop(us, t) <==> u in us && u != t
  {
    var d := IndexOf(us, t);
    if d < |us| {
      forall j | d < j < |us| ensures us[j] != t { assert InOrder(g, us[d], us[j]); }
      assert us == us[..d] + [t] + us[d + 1..];
    }
  }

  lemma ListingScanStep(g: Graph, s: State, step: Step)
    requires Local(g, s) && Family(g, s) && Listing(g, s) && Enabled(g, s, step) && ScanStep(step)
    ensures Listing(g, Apply(g, s, step))
  {
    ScanShape(g, s, step);
    ScanOkOwn(g, s, step);
    ListingScan(g, s, Apply(g, s, step), step.t, step.Raise?);
  }

  predicate ListChange(step: Step) { step.PushUser? || step.Lock? || step.AddFollower? || step.Unlist? }

  lemma ListingChange(g: Graph, s: State, step: Step)
    requires Lawful(g) && Local(g, s) && Family(g, s) && Listing(g, s) && Exact(s) && Enabled(g, s, step)
    requires ListChange(step)
    ensures Listing(g, Apply(g, s, step))
  {
    match step
    case PushUser(t) => ListingPush(g, s, t);
    case Lock(t) => ListingLock(g, s, t);
    case AddFollower(t) => ListingAddFollower(g, s, t);
    case Unlist(t) => ListingUnlist(g, s, t);
  }

  lemma ListingStep(g: Graph, s: State, step: Step)
    requires Lawful(g) && Local(g, s) && Family(g, s) && Listing(g, s) && Exact(s) && Enabled(g, s, step)
    ensures Listing(g, Apply(g, s, step))
  {
    if QuietOwn(step) {
      ListingOwn(g, s, step);
    } else if ScanStep(step) {
      ListingScanStep(g, s, step);
    } else if ListChange(step) {
      ListingChange(g, s, step);
    } else {
      match step
      case Submit => SubmitShape(g, s); ListingSubmit(g, s, DoSubmit(g, s));
      case Deliver(t) => ListingDeliver(g, s, t);
      case Close(t) => CloseShape(g, s, t); ListingShelved(g, s, DoClose(g, s, t), t);
      case CountResult(t) => CountResultShape(g, s, t); ListingShelved(g, s, DoCountResult(g, s, t), t);
    }
  }
}
