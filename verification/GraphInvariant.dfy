/** The inductive invariant of the task-graph machine, in groups that are proved one by one. */
module GraphInvariant {
  import opened Common
  import opened ResourceUsers
  import opened EventGraph

  // ------------------------------------------------------------ one task alone

  predicate FollowerOk(g: Graph, t: nat, e: Event, n: nat)
    requires t < |g.parent| && n <= |g.parent|
  {
    match e
    case Post(p) => p == g.parent[t]
    case Pre(u) => t < u < n && g.parent[u] == g.parent[t]
  }

  predicate LocalOk(g: Graph, x: Task, t: nat, n: nat)
    requires t < |g.parent| == |g.resources| && n <= |g.parent|
  {
    && (x.phase.Submitting? || x.phase.Initing? ==> x.phase.k <= |g.resources[t]|)
    && (Scanning(x) ==> x.phase.k < |g.resources[t]|)
    && x.post >= 0
    && (x.post == 0 <==> !x.done.Open?)
    && (x.post == 0 ==> x.phase.Done?)
    && (!Started(x) ==> x.ext == 0 && x.fired == 0)
    && (x.done.Removing? ==> x.done.k <= |g.resources[t]|)
    && (x.done.Closed? ==> x.followers == [])
    && (forall i :: 0 <= i < |x.followers| ==> FollowerOk(g, t, x.followers[i], n) && (x.followers[i].Post? ==> i == 0))
    && ((x.done.Open? || x.done.Removing?) && g.parent[t] >= 0 ==> Post(g.parent[t]) in x.followers)
  }

  ghost predicate Local(g: Graph, s: State)
  {
    && |s.tasks| <= |g.parent| == |g.resources|
    && forall t :: 0 <= t < |s.tasks| ==> LocalOk(g, s.tasks[t], t, |s.tasks|)
  }

  // ------------------------------------------------------------ task tree

  ghost predicate Family(g: Graph, s: State)
  {
    && |s.tasks| <= |g.parent|
    && (forall t :: 0 <= t < |s.tasks| ==> -1 <= g.parent[t] < t)
    && (forall t :: 0 <= t < |s.tasks| && g.parent[t] >= 0 ==>
                      && Started(s.tasks[g.parent[t]])
                      && (s.tasks[t].phase.Submitting? ==> s.tasks[g.parent[t]].phase.Running?))
    && (forall q, t :: 0 <= q < t < |s.tasks| && g.parent[q] == g.parent[t] ==> !s.tasks[q].phase.Submitting?)
  }

  // ------------------------------------------------------------ user lists and locks

  predicate Pushed(g: Graph, x: Task, t: nat, r: Resource)
    requires t < |g.resources|
  {
    if x.phase.Submitting? && x.phase.k <= |g.resources[t]| then r in g.resources[t][..x.phase.k]
    else r in g.resources[t]
  }

  predicate Removed(g: Graph, x: Task, t: nat, r: Resource)
    requires t < |g.resources|
  {
    match x.done
    case Open => false
    case Removing(k) => k > |g.resources[t]| || r in g.resources[t][..k]
    case _ => true
  }

  predicate Listed(g: Graph, x: Task, t: nat, r: Resource)
    requires t < |g.resources|
  {
    Pushed(g, x, t, r) && !Removed(g, x, t, r)
  }

  ghost predicate Members(g: Graph, s: State)
    requires |s.tasks| <= |g.resources|
  {
    forall r, t {:trigger t in Users(s, r)} ::
      t in Users(s, r) <==> 0 <= t < |s.tasks| && Listed(g, s.tasks[t], t, r)
  }

  predicate InOrder(g: Graph, u: nat, v: nat)
  {
    u < |g.parent| && v < |g.parent| && (g.parent[u] == g.parent[v] ==> u < v) && g.parent[u] != v
  }

  predicate OrderedList(g: Graph, us: seq<nat>)
  {
    forall i, j :: 0 <= i < j < |us| ==> InOrder(g, us[i], us[j])
  }

  ghost predicate Ordered(g: Graph, s: State)
  {
    forall r :: OrderedList(g, Users(s, r))
  }

  ghost predicate Locks(g: Graph, s: State)
    requires |s.tasks| <= |g.resources|
  {
    && (forall r :: r in s.locks ==>
          && s.locks[r] < |s.tasks| && Scanning(s.tasks[s.locks[r]])
          && s.tasks[s.locks[r]].phase.k < |g.resources[s.locks[r]]|
          && ScanResource(g, s.tasks[s.locks[r]], s.locks[r]) == r)
    && (forall t :: 0 <= t < |s.tasks| && Scanning(s.tasks[t]) && s.tasks[t].phase.k < |g.resources[t]| ==>
          ScanResource(g, s.tasks[t], t) in s.locks && s.locks[ScanResource(g, s.tasks[t], t)] == t)
  }

  ghost predicate ScanOk(g: Graph, s: State, t: nat)
    requires |s.tasks| <= |g.resources| && t < |s.tasks|
  {
    var x := s.tasks[t];
    Scanning(x) && x.phase.k < |g.resources[t]| ==>
      var us := Users(s, ScanResource(g, x, t));
      var n := x.phase.scan.n;
      && n <= |us| && t !in us[..n]
      && (!x.phase.scan.At? ==>
            && 0 < n && us[n - 1] < |s.tasks| && us[n - 1] < |g.parent| && t < |g.parent|
            && g.parent[us[n - 1]] == g.parent[t] && us[n - 1] < t
            && (x.phase.scan.Inc? ==> Pre(t) in s.tasks[us[n - 1]].followers))
  }

  ghost predicate Listing(g: Graph, s: State)
  {
    && |s.tasks| <= |g.resources| == |g.parent|
    && Members(g, s)
    && Ordered(g, s)
    && Locks(g, s)
    && Scans(g, s)
  }

  ghost predicate Scans(g: Graph, s: State)
    requires |s.tasks| <= |g.resources|
  {
    forall t :: 0 <= t < |s.tasks| ==> ScanOk(g, s, t)
  }

  // ------------------------------------------------------------ exact counters

  /** Follower entries for `e` that are still to be notified, with multiplicity. */
  function Undelivered(ts: seq<Task>, e: Event): (r: nat)
  {
    if ts == [] then 0
    else Undelivered(ts[..|ts| - 1], e) + multiset(ts[|ts| - 1].followers)[e]
  }

  /** A pre-event less its own token and the init guard; the entry just pushed is not counted in yet. */
  function PreEdges(x: Task): (r: int)
  {
    x.pre - B2i(!Started(x)) - B2i(x.phase.Initing?) + B2i(x.phase.Initing? && x.phase.scan.Inc?)
  }

  /** A post-event less the token of the body and the external events. */
  function PostEdges(x: Task): (r: int)
  {
    x.post - B2i(!x.phase.Done?) - x.ext - x.fired
  }

  ghost predicate Exact(s: State)
  {
    forall t :: 0 <= t < |s.tasks| ==>
                  && PreEdges(s.tasks[t]) == Undelivered(s.tasks, Pre(t))
                  && PostEdges(s.tasks[t]) == Undelivered(s.tasks, Post(t))
  }

  // ------------------------------------------------------------ order of conflicting siblings

  predicate Siblings(g: Graph, q: int, t: int, n: nat)
    requires n <= |g.parent|
  {
    0 <= q < t < n && g.parent[q] == g.parent[t]
  }

  /** `t` still waits for `p`, and `p` is `q` or ordered after it. */
  predicate WaitsFor(g: Graph, s: State, q: nat, t: nat, p: nat)
    requires |s.tasks| <= |g.parent|
  {
    && q <= p < t && p < |s.tasks| && Siblings(g, p, t, |g.parent|)
    && (p == q || g.conflict(q, p))
    && Pre(t) in s.tasks[p].followers
  }

  ghost predicate Safe(g: Graph, s: State, q: nat, t: nat)
    requires |s.tasks| <= |g.parent| && q < |s.tasks|
  {
    Finished(s.tasks[q]) || exists p: nat :: WaitsFor(g, s, q, t, p)
  }

  /** List entries the current scan has not passed yet. */
  function Ahead(scan: Scan): (r: nat)
    requires !scan.Idle?
  {
    if scan.Inc? && scan.n > 0 then scan.n - 1 else scan.n
  }

  ghost predicate OrderedInits(g: Graph, s: State)
    requires |s.tasks| <= |g.parent| == |g.resources|
  {
    && (forall q, t {:trigger g.conflict(q, t)} ::
          (&& Siblings(g, q, t, |s.tasks|) && g.conflict(q, t)
           && (s.tasks[t].phase.Waiting? || Started(s.tasks[t]))) ==> Safe(g, s, q, t))
    && (forall q, t, r {:trigger g.on(q, t, r)} ::
          (&& Siblings(g, q, t, |s.tasks|) && g.on(q, t, r)
           && s.tasks[t].phase.Initing? && Passed(g, s, t, q, r)) ==> Safe(g, s, q, t))
  }

  /** Task `t` is through with entry `q` of the list of `r`. */
  predicate Passed(g: Graph, s: State, t: nat, q: nat, r: Resource)
    requires t < |s.tasks| <= |g.resources| && s.tasks[t].phase.Initing?
  {
    var x := s.tasks[t];
    && x.phase.k <= |g.resources[t]|
    && (|| r in g.resources[t][..x.phase.k]
        || (Scanning(x) && x.phase.k < |g.resources[t]| && r == ScanResource(g, x, t)
            && Ahead(x.phase.scan) <= |Users(s, r)| && q !in Users(s, r)[..Ahead(x.phase.scan)]))
  }

  ghost predicate StartedAfter(g: Graph, s: State)
    requires |s.tasks| <= |g.parent|
  {
    forall q, t {:trigger g.conflict(q, t)} ::
      Siblings(g, q, t, |s.tasks|) && g.conflict(q, t) && Started(s.tasks[t]) ==> Finished(s.tasks[q])
  }

  // ------------------------------------------------------------ hand-off and removal

  predicate HandoffOk(x: Task)
  {
    && x.claims + x.activations == B2i(Started(x) || (x.phase.Waiting? && x.pre == 1))
    && (x.phase.Submitting? || x.phase.Emplaced? ==> x.pre == 1)
    && (Started(x) ==> x.pre == 0)
  }

  ghost predicate Handoff(s: State)
  {
    forall t :: 0 <= t < |s.tasks| ==> HandoffOk(s.tasks[t])
  }

  predicate RemovalOk(x: Task)
  {
    && x.countdown == 2 - B2i(x.done.Closed?) - B2i(x.result.Counted?)
    && x.frees == B2i(x.done.Closed? && x.result.Counted?)
  }

  /** Of the first `n` tasks, those of a space that are not freed. */
  function AliveAmong(g: Graph, ts: seq<Task>, n: nat, space: int): (r: nat)
    requires n <= |ts| <= |g.parent|
  {
    if n == 0 then 0
    else AliveAmong(g, ts, n - 1, space) + (if g.parent[n - 1] == space && ts[n - 1].frees == 0 then 1 else 0)
  }

  /** Tasks of a space submitted and not freed. */
  function Alive(g: Graph, ts: seq<Task>, space: int): (r: nat)
    requires |ts| <= |g.parent|
  {
    AliveAmong(g, ts, |ts|, space)
  }

  ghost predicate Removal(g: Graph, s: State)
  {
    && |s.tasks| <= |g.parent|
    && (forall t :: 0 <= t < |s.tasks| ==> RemovalOk(s.tasks[t]))
    && s.rootCount == Alive(g, s.tasks, -1)
    && (forall t {:trigger Alive(g, s.tasks, t)} :: 0 <= t < |s.tasks| ==> s.tasks[t].children == Alive(g, s.tasks, t))
  }

  // ------------------------------------------------------------ together

  ghost predicate Core(g: Graph, s: State)
  {
    Local(g, s) && Family(g, s) && Listing(g, s) && Exact(s)
  }

  ghost predicate Inv(g: Graph, s: State)
  {
    && Core(g, s)
    && OrderedInits(g, s)
    && StartedAfter(g, s)
    && Handoff(s)
    && Removal(g, s)
  }
}
