/** The task graph of declared accesses: the access policies meet all the graph asks of them. */
module TaskGraph {
  import opened Common
  import opened ResourceUsers
  import opened EventGraph
  import opened GraphInvariant
  import opened GraphTheorems
  import opened GraphNeeds
  import opened UserMeaning

  /** A task as submitted: the space it goes to, its accesses and its distinct resources. */
  datatype Decl = Decl(parent: int, accesses: seq<Access>, unique: seq<Resource>)

  function GraphOf(ds: seq<Decl>): (r: Graph)
  {
    Graph(
      seq(|ds|, i requires 0 <= i < |ds| => ds[i].parent),
      seq(|ds|, i requires 0 <= i < |ds| => ds[i].unique),
      (q: nat, t: nat) => q < |ds| && t < |ds| && UserIsSerial(ds[q].accesses, ds[t].accesses),
      (q: nat, t: nat, r: Resource) => q < |ds| && t < |ds| && SerialOn(ds[q].accesses, ds[t].accesses, r),
      (p: nat, r: Resource) => p < |ds| && UserHasSync(ds[p].accesses, r))
  }

  /** What every task must bring: no resource listed twice, one policy type per resource. */
  ghost predicate WellDeclared(ds: seq<Decl>)
  {
    forall t :: 0 <= t < |ds| ==>
                  && -1 <= ds[t].parent < t
                  && Distinct(ds[t].unique)
                  && (forall r :: r in ds[t].unique <==> Accesses(ds[t].accesses, r))
                  && WellTyped(ds[t].accesses)
  }

  /** The access policies satisfy every law the pruned scan relies on. */
  lemma DeclaredGraphIsLawful(ds: seq<Decl>)
    requires WellDeclared(ds)
    ensures Lawful(GraphOf(ds))
  {
    var g := GraphOf(ds);
    forall q: nat, t: nat | q < |ds| && t < |ds| && g.conflict(q, t) ensures SharedConflict(g, q, t) {
      SerialIffOnSomeResource(ds[q].accesses, ds[t].accesses);
      var r :| Accesses(ds[t].accesses, r) && SerialOn(ds[q].accesses, ds[t].accesses, r);
      var i :| 0 <= i < |ds[t].unique| && ds[t].unique[i] == r;
      assert g.on(q, t, g.resources[t][i]);
    }
    forall q: nat, t: nat, r | q < |ds| && t < |ds| && g.on(q, t, r)
      ensures g.conflict(q, t) && r in g.resources[q] && r in g.resources[t]
    {
      SerialOnFacts(ds[q].accesses, ds[t].accesses, r);
    }
    forall q: nat, t: nat, p: nat, r | q < |ds| && t < |ds| && p < |ds| && g.on(q, t, r) && g.sync(p, r)
      ensures g.conflict(q, p)
    {
      SyncUserOrdersAll(ds[q].accesses, ds[t].accesses, ds[p].accesses, r);
    }
  }

  lemma SerialOnFacts(a: seq<Access>, b: seq<Access>, r: Resource)
    requires SerialOn(a, b, r)
    ensures UserIsSerial(a, b) && Accesses(a, r) && Accesses(b, r)
  {
    var i, j :| 0 <= i < |a| && 0 <= j < |b| && a[i].resource == r && AccessIsSerial(a[i], b[j]);
  }

  // ------------------------------------------------------------ order within one space

  /** Of two conflicting tasks of one space, the first submitted finishes before the other starts. */
  lemma SubmissionOrder(ds: seq<Decl>, run: seq<State>, i: nat, q: nat, t: nat)
    requires WellDeclared(ds) && Run(GraphOf(ds), run) && i < |run|
    requires q < t < |ds| && ds[q].parent == ds[t].parent && UserIsSerial(ds[q].accesses, ds[t].accesses)
    requires t < |run[i].tasks| && Started(run[i].tasks[t])
    ensures q < |run[i].tasks| && Finished(run[i].tasks[q]) && !run[i].tasks[q].phase.Running?
  {
    DeclaredGraphIsLawful(ds);
    PrunedScanSuffices(GraphOf(ds), run, i, q, t);
  }

  /**
   A task is to be notified only by earlier tasks of its space that it conflicts with: readers of one
   resource, for one, do not wait for each other. Without empty intervals, single uses of the two clash.
   */
  lemma WaitsForClashesOnly(ds: seq<Decl>, run: seq<State>, i: nat, p: nat, t: nat)
    requires WellDeclared(ds) && Run(GraphOf(ds), run) && i < |run| && Awaiting(run[i], p, t)
    ensures p < t < |ds| && ds[p].parent == ds[t].parent && UserIsSerial(ds[p].accesses, ds[t].accesses)
    ensures AllInhabited(ds[p].accesses) && AllInhabited(ds[t].accesses) ==>
              UsersClash(ds[p].accesses, ds[t].accesses)
  {
    DeclaredGraphIsLawful(ds);
    WaitsForConflictsOnly(GraphOf(ds), run, i, p, t);
    SerialMeansUsersClash(ds[p].accesses, ds[t].accesses);
  }

  /**
   A scan ends at the parent and at the first conflicting sibling that has synchronizing access: none of
   them is among the users that a scan under way has passed, so nobody in front of them is added.
   */
  lemma ScanEndsAtSync(ds: seq<Decl>, run: seq<State>, i: nat, t: nat, k: nat)
    requires WellDeclared(ds) && Run(GraphOf(ds), run) && i < |run|
    requires t < |run[i].tasks| && Scanning(run[i].tasks[t]) && k >= run[i].tasks[t].phase.scan.n
    ensures t < |ds| && run[i].tasks[t].phase.k < |ds[t].unique|
    ensures var r := ds[t].unique[run[i].tasks[t].phase.k];
            var us := Users(run[i], r);
            k < IndexOf(us, t) < |us| && us[k] < |ds| ==>
              && us[k] != ds[t].parent
              && !(&& ds[us[k]].parent == ds[t].parent && UserIsSerial(ds[us[k]].accesses, ds[t].accesses)
                   && UserHasSync(ds[us[k]].accesses, r))
  {
    DeclaredGraphIsLawful(ds);
    var g := GraphOf(ds);
    PassedDoNotStop(g, run, i, t, k);
    var r := ScanResource(g, run[i].tasks[t], t);
    var us := Users(run[i], r);
    if k < IndexOf(us, t) && us[k] < |ds| { StopsWhereDeclared(ds, us[k], t, r); }
  }

  lemma StopsWhereDeclared(ds: seq<Decl>, p: nat, t: nat, r: Resource)
    requires p < |ds| && t < |ds|
    ensures StopsAt(GraphOf(ds), p, t, r) <==>
            || p == ds[t].parent
            || (ds[p].parent == ds[t].parent && UserIsSerial(ds[p].accesses, ds[t].accesses)
                && UserHasSync(ds[p].accesses, r))
  {
  }

  // ------------------------------------------------------------ order across the task tree

  /**
   Children stay within their parent's accesses, except for resources created inside it, and a
   resource is used only below the task that created it. `creator` is -1 for outside resources.
   */
  ghost predicate WellNested(ds: seq<Decl>, creator: Resource -> int)
    requires WellDeclared(ds)
  {
    var g := GraphOf(ds);
    && (forall t :: 0 <= t < |ds| && ds[t].parent >= 0 ==>
          UserIsSupersetOf(ds[ds[t].parent].accesses, Depth(g, ds[t].parent), ds[t].accesses))
    && (forall t, r :: 0 <= t < |ds| && r in ds[t].unique ==> CreatedAbove(g, creator(r), t, r))
  }

  predicate CreatedAbove(g: Graph, c: int, t: nat, r: Resource)
    requires Rooted(g) && t < |g.parent|
  {
    || (c == -1 && r.scopeLevel == 0)
    || (0 <= c < t && IsBelow(g, c, t) && r.scopeLevel == Depth(g, c) + 1)
  }

  lemma {:induction false} BelowTransitive(g: Graph, x: nat, y: nat, t: nat)
    requires Rooted(g) && IsBelow(g, x, y) && IsBelow(g, y, t)
    ensures IsBelow(g, x, t)
    decreases t
  {
    BelowBound(g, x, y);
    if y != t { BelowTransitive(g, x, y, g.parent[t]); BelowBound(g, y, g.parent[t]); }
  }

  lemma {:induction false} BelowDepth(g: Graph, x: nat, t: nat)
    requires Rooted(g) && t < |g.parent| && IsBelow(g, x, t)
    ensures x < |g.parent| && (x == t || Depth(g, x) < Depth(g, t))
    decreases t
  {
    if x != t { BelowDepth(g, x, g.parent[t]); }
  }

  /** The ancestors of a task form a chain. */
  lemma {:induction false} AncestorsComparable(g: Graph, x: nat, y: nat, t: nat)
    requires Rooted(g) && t < |g.parent| && IsBelow(g, x, t) && IsBelow(g, y, t)
    ensures IsBelow(g, x, y) || IsBelow(g, y, x)
    decreases t
  {
    if x != t && y != t { AncestorsComparable(g, x, y, g.parent[t]); }
  }

  /** The siblings below which two tasks, neither above the other, part ways. */
  lemma {:induction false} Fork(g: Graph, a: nat, b: nat) returns (a0: nat, b0: nat)
    requires Rooted(g) && a < |g.parent| && b < |g.parent| && !IsBelow(g, a, b) && !IsBelow(g, b, a)
    ensures a0 < |g.parent| && b0 < |g.parent| && a0 != b0 && g.parent[a0] == g.parent[b0]
    ensures IsBelow(g, a0, a) && IsBelow(g, b0, b)
    decreases a + b
  {
    if g.parent[a] == g.parent[b] {
      a0, b0 := a, b;
    } else if g.parent[a] > g.parent[b] {
      if IsBelow(g, g.parent[a], b) {
        BelowBound(g, g.parent[a], b);
        BelowBound(g, g.parent[a], g.parent[b]);
        assert false;
      }
      a0, b0 := Fork(g, g.parent[a], b);
      BelowParent(g, g.parent[a], a);
    } else {
      if IsBelow(g, g.parent[b], a) {
        BelowBound(g, g.parent[b], a);
        BelowBound(g, g.parent[b], g.parent[a]);
        assert false;
      }
      a0, b0 := Fork(g, a, g.parent[b]);
      BelowParent(g, g.parent[b], b);
    }
  }

  /** A conflict below a task is a conflict of the task itself, on resources it can see. */
  lemma {:induction false} ConflictRises(ds: seq<Decl>,
                                         creator: Resource -> int, top: nat, a: nat, other: seq<Access>, r: Resource)
    requires WellDeclared(ds) && WellNested(ds, creator)
    requires top < |ds| && a < |ds| && IsBelow(GraphOf(ds), top, a)
    requires r.scopeLevel <= Depth(GraphOf(ds), top) && SerialOn(ds[a].accesses, other, r)
    ensures SerialOn(ds[top].accesses, other, r)
    decreases a
  {
    var g := GraphOf(ds);
    if a != top {
      var p := ds[a].parent;
      assert g.parent[a] == p;
      BelowDepth(g, top, p);
      SerialWidens(ds[p].accesses, Depth(g, p), ds[a].accesses, other, r);
      ConflictRises(ds, creator, top, p, other, r);
    }
  }

  /** A common ancestor of two tasks lies above the point where they part ways. */
  lemma CommonAncestor(g: Graph, c: nat, a: nat, b: nat, a0: nat, b0: nat)
    requires Rooted(g) && a < |g.parent| && b < |g.parent| && a0 < |g.parent| && b0 < |g.parent|
    requires a0 != b0 && g.parent[a0] == g.parent[b0] && IsBelow(g, a0, a) && IsBelow(g, b0, b)
    requires IsBelow(g, c, a) && IsBelow(g, c, b)
    ensures c < |g.parent| && Depth(g, c) < Depth(g, a0)
  {
    SiblingsApart(g, a0, b0);
    AncestorsComparable(g, c, a0, a);
    if IsBelow(g, a0, c) {
      BelowTransitive(g, a0, c, b);
      AncestorsComparable(g, a0, b0, b);
    }
    BelowDepth(g, c, a0);
  }

  /** A resource two tasks share was created above the point where they part ways. */
  lemma SharedScope(g: Graph, c: int, a: nat, b: nat, a0: nat, b0: nat, r: Resource)
    requires Rooted(g) && a < |g.parent| && b < |g.parent| && a0 < |g.parent| && b0 < |g.parent|
    requires a0 != b0 && g.parent[a0] == g.parent[b0] && IsBelow(g, a0, a) && IsBelow(g, b0, b)
    requires CreatedAbove(g, c, a, r) && CreatedAbove(g, c, b, r)
    ensures r.scopeLevel <= Depth(g, a0)
  {
    if c >= 0 { CommonAncestor(g, c, a, b, a0, b0); }
  }

  lemma SiblingsApart(g: Graph, a0: nat, b0: nat)
    requires Rooted(g) && a0 < |g.parent| && b0 < |g.parent| && a0 != b0 && g.parent[a0] == g.parent[b0]
    ensures !IsBelow(g, a0, b0) && !IsBelow(g, b0, a0)
  {
    if IsBelow(g, a0, b0) { BelowDepth(g, a0, b0); }
    if IsBelow(g, b0, a0) { BelowDepth(g, b0, a0); }
  }

  /** What the tree order needs of the policies: conflicts are mutual and rise to covering ancestors. */
  ghost predicate Widening(g: Graph, creator: Resource -> int)
    requires Rooted(g) && |g.resources| == |g.parent|
  {
    && (forall a: nat, b: nat, r :: a < |g.parent| && b < |g.parent| && g.on(a, b, r) ==> g.on(b, a, r))
    && (forall top: nat, a: nat, b: nat, r: Resource ::
          (&& a < |g.parent| && b < |g.parent| && top < |g.parent|
           && IsBelow(g, top, a) && r.scopeLevel <= Depth(g, top) && g.on(a, b, r)) ==> g.on(top, b, r))
    && (forall t: nat, r :: t < |g.parent| && r in g.resources[t] ==> CreatedAbove(g, creator(r), t, r))
  }

  lemma DeclaredGraphWidens(ds: seq<Decl>, creator: Resource -> int)
    requires WellDeclared(ds) && WellNested(ds, creator)
    ensures Widening(GraphOf(ds), creator)
  {
    var g := GraphOf(ds);
    forall a: nat, b: nat, r | a < |ds| && b < |ds| && g.on(a, b, r) ensures g.on(b, a, r) {
      SerialOnFlip(ds[a].accesses, ds[b].accesses, r);
    }
    forall top: nat, a: nat, b: nat, r: Resource |
      a < |ds| && b < |ds| && top < |ds| && IsBelow(g, top, a) && r.scopeLevel <= Depth(g, top) && g.on(a, b, r)
      ensures g.on(top, b, r)
    {
      ConflictRises(ds, creator, top, a, ds[b].accesses, r);
    }
  }

  lemma AncestorsConflict(g: Graph, creator: Resource -> int, a: nat, b: nat, a0: nat, b0: nat)
    requires Lawful(g) && Widening(g, creator)
    requires a < |g.parent| && b < |g.parent| && a0 < |g.parent| && b0 < |g.parent|
    requires a0 != b0 && g.parent[a0] == g.parent[b0]
    requires IsBelow(g, a0, a) && IsBelow(g, b0, b) && g.conflict(a, b)
    ensures g.conflict(a0, b0) && g.conflict(b0, a0)
  {
    assert SharedConflict(g, a, b);
    var i :| 0 <= i < |g.resources[b]| && g.on(a, b, g.resources[b][i]);
    var r := g.resources[b][i];
    SharedScope(g, creator(r), a, b, a0, b0, r);
    assert Depth(g, a0) == Depth(g, b0);
    assert g.on(a0, b, r);
    assert g.on(b, a0, r);
    assert g.on(b0, a0, r);
    assert g.on(a0, b0, r);
  }

  ghost predicate FinishesFirst(s: State, a: nat, b: nat)
  {
    a < |s.tasks| && b < |s.tasks| && Started(s.tasks[b]) ==> Finished(s.tasks[a])
  }

  /** Where two conflicting tasks part ways, their ancestors conflict as well. */
  lemma ConflictingFork(ds: seq<Decl>, creator: Resource -> int, a: nat, b: nat) returns (a0: nat, b0: nat)
    requires WellDeclared(ds) && WellNested(ds, creator)
    requires a < |ds| && b < |ds| && UserIsSerial(ds[a].accesses, ds[b].accesses)
    requires !IsBelow(GraphOf(ds), a, b) && !IsBelow(GraphOf(ds), b, a)
    ensures a0 < |ds| && b0 < |ds| && a0 != b0 && ds[a0].parent == ds[b0].parent
    ensures IsBelow(GraphOf(ds), a0, a) && IsBelow(GraphOf(ds), b0, b)
    ensures GraphOf(ds).conflict(a0, b0) && GraphOf(ds).conflict(b0, a0)
  {
    var g := GraphOf(ds);
    DeclaredGraphIsLawful(ds);
    DeclaredGraphWidens(ds, creator);
    assert g.conflict(a, b);
    a0, b0 := Fork(g, a, b);
    assert ds[a0].parent == g.parent[a0] && ds[b0].parent == g.parent[b0];
    AncestorsConflict(g, creator, a, b, a0, b0);
  }

  /**
   In every state, of two conflicting tasks that part ways at `a0` and `b0` the first has finished when
   the other started.
   */
  lemma ForkOrder(ds: seq<Decl>, s: State, a0: nat, b0: nat, a: nat, b: nat)
    requires WellDeclared(ds) && Inv(GraphOf(ds), s) && a0 < b0 < |ds| && ds[a0].parent == ds[b0].parent
    requires IsBelow(GraphOf(ds), a0, a) && IsBelow(GraphOf(ds), b0, b) && GraphOf(ds).conflict(a0, b0)
    ensures FinishesFirst(s, a, b)
  {
    var g := GraphOf(ds);
    DeclaredGraphIsLawful(ds);
    assert g.parent[a0] == g.parent[b0];
    if a < |s.tasks| && b < |s.tasks| && Started(s.tasks[b]) { NestedOrderAt(g, s, a0, b0, a, b); }
  }

  /**
   Any two conflicting tasks of the tree, neither an ancestor of the other, run one after the other,
   in the order of their ancestors in the space they have in common.
   */
  lemma NestedSubmissionOrder(ds: seq<Decl>, creator: Resource -> int, run: seq<State>, a: nat, b: nat)
    returns (a0: nat, b0: nat)
    requires WellDeclared(ds) && WellNested(ds, creator) && Run(GraphOf(ds), run)
    requires a < |ds| && b < |ds| && UserIsSerial(ds[a].accesses, ds[b].accesses)
    requires !IsBelow(GraphOf(ds), a, b) && !IsBelow(GraphOf(ds), b, a)
    ensures a0 < |ds| && b0 < |ds| && a0 != b0 && ds[a0].parent == ds[b0].parent
    ensures IsBelow(GraphOf(ds), a0, a) && IsBelow(GraphOf(ds), b0, b)
    ensures a0 < b0 ==> forall i :: 0 <= i < |run| ==> FinishesFirst(run[i], a, b)
    ensures b0 < a0 ==> forall i :: 0 <= i < |run| ==> FinishesFirst(run[i], b, a)
  {
    var g := GraphOf(ds);
    DeclaredGraphIsLawful(ds);
    a0, b0 := ConflictingFork(ds, creator, a, b);
    assert ds[a0].parent == g.parent[a0] && ds[b0].parent == g.parent[b0];
    if a0 < b0 { NestedOrderAlong(g, run, a0, b0, a, b); } else { NestedOrderAlong(g, run, b0, a0, b, a); }
  }

  lemma NestedOrderAlong(g: Graph, run: seq<State>, a0: nat, b0: nat, a: nat, b: nat)
    requires Lawful(g) && Run(g, run) && Siblings(g, a0, b0, |g.parent|) && g.conflict(a0, b0)
    requires IsBelow(g, a0, a) && IsBelow(g, b0, b)
    ensures forall i :: 0 <= i < |run| ==> FinishesFirst(run[i], a, b)
  {
    forall i | 0 <= i < |run| ensures FinishesFirst(run[i], a, b) {
      if a < |run[i].tasks| && b < |run[i].tasks| && Started(run[i].tasks[b]) {
        NestedOrder(g, run, i, a0, b0, a, b);
      }
    }
  }
}
