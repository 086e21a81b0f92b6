/**
 The task graph as a state machine. Each step is one atomic action of some thread: a counter
 update, a list operation, one position of a predecessor scan. Steps of different tasks
 interleave freely; the only exclusion is the lock each resource carries.
 */
module EventGraph {
  import opened Common
  import opened ResourceUsers

  /**
   The tasks of one run in the order they are submitted. `parent` is the task whose space a task
   lives in, -1 for the root space. `resources` lists the distinct resources in the order the
   loops over them visit them. `conflict`, `on` and `sync` are the answers of the access policies.
   */
  datatype Graph = Graph(
    parent: seq<int>,
    resources: seq<seq<Resource>>,
    conflict: (nat, nat) -> bool,
    on: (nat, nat, Resource) -> bool,
    sync: (nat, Resource) -> bool)

  /** All the graph needs to know about access policies. */
  ghost predicate Lawful(g: Graph)
  {
    && |g.resources| == |g.parent|
    && Rooted(g)
    && (forall t :: 0 <= t < |g.parent| ==> Distinct(g.resources[t]))
    && (forall q: nat, t: nat :: q < |g.parent| && t < |g.parent| && g.conflict(q, t) ==> SharedConflict(g, q, t))
    && (forall q: nat, t: nat, r :: q < |g.parent| && t < |g.parent| && g.on(q, t, r) ==>
                                      g.conflict(q, t) && r in g.resources[q] && r in g.resources[t])
    && (forall q: nat, t: nat, p: nat, r ::
          q < |g.parent| && t < |g.parent| && p < |g.parent| && g.on(q, t, r) && g.sync(p, r) ==> g.conflict(q, p))
  }

  /** Every task lives in the root space or in the space of an earlier task. */
  ghost predicate Rooted(g: Graph)
  {
    forall t :: 0 <= t < |g.parent| ==> -1 <= g.parent[t] < t
  }

  ghost predicate SharedConflict(g: Graph, q: nat, t: nat)
    requires t < |g.resources|
  {
    exists i :: 0 <= i < |g.resources[t]| && g.on(q, t, g.resources[t][i])
  }

  datatype Event = Pre(t: nat) | Post(t: nat)

  /**
   Where a predecessor scan stands. `n` entries of the user list are still to be examined; `Dep`,
   `Push` and `Inc` are working on entry `n - 1`: first reached-test passed, second passed, pushed.
   */
  datatype Scan = Idle | At(n: nat) | Dep(n: nat) | Push(n: nat) | Inc(n: nat)

  datatype Phase =
    | Submitting(k: nat)            // entered in the first k user lists
    | Emplaced                      // in an emplacement queue
    | Initing(k: nat, scan: Scan)   // guard raised, first k user lists scanned
    | Waiting                       // initialised, pre-event not reached
    | Running                       // pre-event reached, body executing
    | Done                          // body returned

  /** What the thread that brought the post-event to zero has done since. */
  datatype PostPhase = Open | Removing(k: nat) | Notifying | Closed

  datatype ResultGet = Untaken | Reached | Counted

  datatype Task = Task(
    phase: Phase,
    pre: int,
    post: int,
    ext: nat,               // external events not yet reached
    fired: nat,             // external events reached, post-event not yet notified
    done: PostPhase,
    followers: seq<Event>,  // follower entries of the post-event still to be notified
    claims: nat,            // times its initialiser kept it for execution
    activations: nat,       // times a predecessor put it into a ready queue
    result: ResultGet,
    countdown: int,
    frees: nat,
    children: int)          // task count of the space below

  datatype State = State(
    tasks: seq<Task>,
    users: map<Resource, seq<nat>>,
    locks: map<Resource, nat>,
    rootCount: int)

  const FRESH_TASK := Task(Submitting(0), 1, 1, 0, 0, Open, [], 0, 0, Untaken, 2, 0, 0)

  /** A task whose body was started by its initialiser. */
  const STARTED_TASK := FRESH_TASK.(phase := Running, pre := 0, claims := 1)

  const INITIAL := State([], map[], map[], 0)

  function With(s: State, t: nat, x: Task): (s': State)
    requires t < |s.tasks|
  {
    s.(tasks := s.tasks[t := x])
  }

  function Users(s: State, r: Resource): (res: seq<nat>)
  {
    if r in s.users then s.users[r] else []
  }

  predicate Started(x: Task) { x.phase.Running? || x.phase.Done? }

  predicate Finished(x: Task) { x.post == 0 }

  predicate Scanning(x: Task) { x.phase.Initing? && !x.phase.scan.Idle? }

  function IndexFrom(s: seq<nat>, x: nat, k: nat): (i: nat)
    requires k <= |s|
    ensures k <= i <= |s| && (i < |s| ==> s[i] == x) && forall j :: k <= j < i ==> s[j] != x
    decreases |s| - k
  {
    if k == |s| || s[k] == x then k else IndexFrom(s, x, k + 1)
  }

  function IndexOf(s: seq<nat>, x: nat): (i: nat)
    ensures i <= |s| && x !in s[..i] && (i < |s| ==> s[i] == x)
  {
    IndexFrom(s, x, 0)
  }

  function Drop(s: seq<nat>, x: nat): (r: seq<nat>)
  {
    var i := IndexOf(s, x);
    if i < |s| then s[..i] + s[i + 1..] else s
  }

  // ------------------------------------------------------------ shared actions

  /** Decrement a pre-event; the notifier that leaves 1 keeps the task or activates it. */
  function NotifyPre(x: Task, claimed: bool): (r: Task)
  {
    x.(pre := x.pre - 1,
       claims := if x.pre == 2 && claimed then x.claims + 1 else x.claims,
       activations := if x.pre == 2 && !claimed then x.activations + 1 else x.activations)
  }

  /** Decrement a post-event; the notifier that leaves 0 goes on to unlist the task. */
  function NotifyPost(x: Task): (r: Task)
  {
    x.(post := x.post - 1, done := if x.post == 1 then Removing(0) else x.done)
  }

  function Notify(ts: seq<Task>, e: Event): (r: seq<Task>)
    requires e.t < |ts|
  {
    ts[e.t := if e.Pre? then NotifyPre(ts[e.t], false) else NotifyPost(ts[e.t])]
  }

  function CountSpace(s: State, p: int, delta: int): (s': State)
    requires p < |s.tasks|
  {
    if p < 0 then s.(rootCount := s.rootCount + delta)
    else s.(tasks := s.tasks[p := s.tasks[p].(children := s.tasks[p].children + delta)])
  }

  /** One of the two parties of the removal countdown arrives; the second one frees the task. */
  function Arrive(g: Graph, s: State, t: nat): (s': State)
    requires t < |s.tasks| && t < |g.parent| && g.parent[t] < |s.tasks|
  {
    var x := s.tasks[t];
    var s1 := s.(tasks := s.tasks[t := x.(countdown := x.countdown - 1,
                                          frees := if x.countdown == 1 then x.frees + 1 else x.frees)]);
    if x.countdown == 1 then CountSpace(s1, g.parent[t], -1) else s1
  }

  // ------------------------------------------------------------ steps

  datatype Step =
    | Submit
    | PushUser(t: nat)
    | Emplace(t: nat)
    | InitBegin(t: nat)
    | Lock(t: nat)
    | Look(t: nat)
    | Recheck(t: nat)
    | AddFollower(t: nat)
    | Raise(t: nat)
    | InitEnd(t: nat)
    | Start(t: nat)
    | MakeEvent(t: nat)
    | FireEvent(t: nat)
    | DeliverEvent(t: nat)
    | Finish(t: nat)
    | Unlist(t: nat)
    | BeginNotify(t: nat)
    | Deliver(t: nat)
    | Close(t: nat)
    | TakeResult(t: nat)
    | CountResult(t: nat)

  predicate NoneSubmitting(g: Graph, s: State, space: int)
    requires |s.tasks| <= |g.parent|
  {
    forall c :: 0 <= c < |s.tasks| && g.parent[c] == space ==> !s.tasks[c].phase.Submitting?
  }

  /** The resource whose list task `t` is scanning. */
  function ScanResource(g: Graph, x: Task, t: nat): (r: Resource)
    requires t < |g.resources| && x.phase.Initing? && x.phase.k < |g.resources[t]|
  {
    g.resources[t][x.phase.k]
  }

  /** A scan that is working on an entry of its list. */
  predicate HasEntry(g: Graph, s: State, t: nat)
    requires t < |s.tasks| && t < |g.resources|
  {
    var x := s.tasks[t];
    && Scanning(x) && x.phase.k < |g.resources[t]|
    && 0 < x.phase.scan.n <= |Users(s, ScanResource(g, x, t))|
    && Entry(g, s, t) < |s.tasks|
  }

  function Entry(g: Graph, s: State, t: nat): (r: nat)
    requires t < |s.tasks| && t < |g.resources|
    requires Scanning(s.tasks[t]) && s.tasks[t].phase.k < |g.resources[t]|
    requires 0 < s.tasks[t].phase.scan.n <= |Users(s, ScanResource(g, s.tasks[t], t))|
  {
    Users(s, ScanResource(g, s.tasks[t], t))[s.tasks[t].phase.scan.n - 1]
  }

  predicate WellSized(g: Graph, s: State)
  {
    |s.tasks| <= |g.parent| == |g.resources| && forall t :: 0 <= t < |s.tasks| ==> g.parent[t] < |s.tasks|
  }

  predicate CanSubmit(g: Graph, s: State)
  {
    && WellSized(g, s)
    && |s.tasks| < |g.parent|
    && g.parent[|s.tasks|] < |s.tasks|
    && (g.parent[|s.tasks|] >= 0 ==> s.tasks[g.parent[|s.tasks|]].phase.Running?)
    && NoneSubmitting(g, s, g.parent[|s.tasks|])
  }

  predicate CanPushUser(g: Graph, s: State, t: nat)
  {
    && WellSized(g, s) && t < |s.tasks|
    && s.tasks[t].phase.Submitting? && s.tasks[t].phase.k < |g.resources[t]|
  }

  predicate CanEmplace(g: Graph, s: State, t: nat)
  {
    && WellSized(g, s) && t < |s.tasks|
    && s.tasks[t].phase == Submitting(|g.resources[t]|)
  }

  predicate CanInitBegin(g: Graph, s: State, t: nat)
  {
    && WellSized(g, s) && t < |s.tasks|
    && s.tasks[t].phase.Emplaced?
  }

  predicate CanLock(g: Graph, s: State, t: nat)
  {
    && WellSized(g, s) && t < |s.tasks|
    && s.tasks[t].phase.Initing? && s.tasks[t].phase.scan.Idle? && s.tasks[t].phase.k < |g.resources[t]|
    && ScanResource(g, s.tasks[t], t) !in s.locks
  }

  predicate CanLook(g: Graph, s: State, t: nat)
  {
    && WellSized(g, s) && t < |s.tasks|
    && Scanning(s.tasks[t]) && s.tasks[t].phase.scan.At? && s.tasks[t].phase.k < |g.resources[t]|
    && (s.tasks[t].phase.scan.n > 0 ==> HasEntry(g, s, t))
  }

  predicate CanRecheck(g: Graph, s: State, t: nat)
  {
    && WellSized(g, s) && t < |s.tasks|
    && HasEntry(g, s, t) && s.tasks[t].phase.scan.Dep?
  }

  predicate CanAddFollower(g: Graph, s: State, t: nat)
  {
    && WellSized(g, s) && t < |s.tasks|
    && HasEntry(g, s, t) && s.tasks[t].phase.scan.Push?
  }

  predicate CanRaise(g: Graph, s: State, t: nat)
  {
    && WellSized(g, s) && t < |s.tasks|
    && HasEntry(g, s, t) && s.tasks[t].phase.scan.Inc?
  }

  predicate CanInitEnd(g: Graph, s: State, t: nat)
  {
    && WellSized(g, s) && t < |s.tasks|
    && s.tasks[t].phase == Initing(|g.resources[t]|, Idle)
  }

  predicate CanStart(g: Graph, s: State, t: nat)
  {
    && WellSized(g, s) && t < |s.tasks|
    && s.tasks[t].phase.Waiting? && s.tasks[t].pre == 1 && s.tasks[t].claims + s.tasks[t].activations > 0
  }

  predicate CanMakeEvent(g: Graph, s: State, t: nat)
  {
    && WellSized(g, s) && t < |s.tasks|
    && s.tasks[t].phase.Running?
  }

  predicate CanFireEvent(g: Graph, s: State, t: nat)
  {
    && WellSized(g, s) && t < |s.tasks|
    && s.tasks[t].ext > 0
  }

  predicate CanDeliverEvent(g: Graph, s: State, t: nat)
  {
    && WellSized(g, s) && t < |s.tasks|
    && s.tasks[t].fired > 0
  }

  predicate CanFinish(g: Graph, s: State, t: nat)
  {
    && WellSized(g, s) && t < |s.tasks|
    && s.tasks[t].phase.Running? && NoneSubmitting(g, s, t)
  }

  predicate CanUnlist(g: Graph, s: State, t: nat)
  {
    && WellSized(g, s) && t < |s.tasks|
    && s.tasks[t].done.Removing? && s.tasks[t].done.k < |g.resources[t]|
    && g.resources[t][s.tasks[t].done.k] !in s.locks
  }

  predicate CanBeginNotify(g: Graph, s: State, t: nat)
  {
    && WellSized(g, s) && t < |s.tasks|
    && s.tasks[t].done == Removing(|g.resources[t]|)
  }

  predicate CanDeliver(g: Graph, s: State, t: nat)
  {
    && WellSized(g, s) && t < |s.tasks|
    && s.tasks[t].done.Notifying? && s.tasks[t].followers != []
    && s.tasks[t].followers[|s.tasks[t].followers| - 1].t < |s.tasks|
  }

  predicate CanClose(g: Graph, s: State, t: nat)
  {
    && WellSized(g, s) && t < |s.tasks|
    && s.tasks[t].done.Notifying? && s.tasks[t].followers == []
  }

  predicate CanTakeResult(g: Graph, s: State, t: nat)
  {
    && WellSized(g, s) && t < |s.tasks|
    && s.tasks[t].result.Untaken? && !s.tasks[t].phase.Submitting?
  }

  predicate CanCountResult(g: Graph, s: State, t: nat)
  {
    && WellSized(g, s) && t < |s.tasks|
    && s.tasks[t].result.Reached?
  }

  predicate Enabled(g: Graph, s: State, step: Step)
  {
    match step
    case Submit => CanSubmit(g, s)
    case PushUser(t) => CanPushUser(g, s, t)
    case Emplace(t) => CanEmplace(g, s, t)
    case InitBegin(t) => CanInitBegin(g, s, t)
    case Lock(t) => CanLock(g, s, t)
    case Look(t) => CanLook(g, s, t)
    case Recheck(t) => CanRecheck(g, s, t)
    case AddFollower(t) => CanAddFollower(g, s, t)
    case Raise(t) => CanRaise(g, s, t)
    case InitEnd(t) => CanInitEnd(g, s, t)
    case Start(t) => CanStart(g, s, t)
    case MakeEvent(t) => CanMakeEvent(g, s, t)
    case FireEvent(t) => CanFireEvent(g, s, t)
    case DeliverEvent(t) => CanDeliverEvent(g, s, t)
    case Finish(t) => CanFinish(g, s, t)
    case Unlist(t) => CanUnlist(g, s, t)
    case BeginNotify(t) => CanBeginNotify(g, s, t)
    case Deliver(t) => CanDeliver(g, s, t)
    case Close(t) => CanClose(g, s, t)
    case TakeResult(t) => CanTakeResult(g, s, t)
    case CountResult(t) => CanCountResult(g, s, t)
  }

  /** The scan of the current list is over: release its lock and go to the next list. */
  function EndScan(g: Graph, s: State, t: nat): (s': State)
    requires t < |s.tasks| && t < |g.resources| && s.tasks[t].phase.Initing?
    requires s.tasks[t].phase.k < |g.resources[t]|
  {
    s.(tasks := s.tasks[t := s.tasks[t].(phase := Initing(s.tasks[t].phase.k + 1, Idle))],
       locks := s.locks - {ScanResource(g, s.tasks[t], t)})
  }

  function MoveScan(s: State, t: nat, scan: Scan): (s': State)
    requires t < |s.tasks| && s.tasks[t].phase.Initing?
  {
    s.(tasks := s.tasks[t := s.tasks[t].(phase := Initing(s.tasks[t].phase.k, scan))])
  }

  /** After a dependency was dealt with: stop at a synchronizing predecessor, else go on. */
  function AfterDependency(g: Graph, s: State, t: nat): (s': State)
    requires t < |s.tasks| && t < |g.resources| && HasEntry(g, s, t)
  {
    if g.sync(Entry(g, s, t), ScanResource(g, s.tasks[t], t)) then EndScan(g, s, t)
    else MoveScan(s, t, At(s.tasks[t].phase.scan.n - 1))
  }

  function DoSubmit(g: Graph, s: State): (s': State)
    requires CanSubmit(g, s)
  {
    var p := g.parent[|s.tasks|];
    if p < 0 then s.(tasks := s.tasks + [FRESH_TASK], rootCount := s.rootCount + 1)
    else
      var x := s.tasks[p];
      s.(tasks := s.tasks[p := x.(post := x.post + 1, children := x.children + 1)]
                  + [FRESH_TASK.(followers := [Post(p)])])
  }

  function DoPushUser(g: Graph, s: State, t: nat): (s': State)
    requires CanPushUser(g, s, t)
  {
    var r := g.resources[t][s.tasks[t].phase.k];
    s.(tasks := s.tasks[t := s.tasks[t].(phase := Submitting(s.tasks[t].phase.k + 1))],
       users := s.users[r := Users(s, r) + [t]])
  }

  function DoEmplace(g: Graph, s: State, t: nat): (s': State)
    requires CanEmplace(g, s, t)
  {
    s.(tasks := s.tasks[t := s.tasks[t].(phase := Emplaced)])
  }

  function DoInitBegin(g: Graph, s: State, t: nat): (s': State)
    requires CanInitBegin(g, s, t)
  {
    s.(tasks := s.tasks[t := s.tasks[t].(phase := Initing(0, Idle), pre := s.tasks[t].pre + 1)])
  }

  function DoLock(g: Graph, s: State, t: nat): (s': State)
    requires CanLock(g, s, t)
  {
    var r := ScanResource(g, s.tasks[t], t);
    MoveScan(s, t, At(IndexOf(Users(s, r), t))).(locks := s.locks[r := t])
  }

  function DoLook(g: Graph, s: State, t: nat): (s': State)
    requires CanLook(g, s, t)
  {
    var n := s.tasks[t].phase.scan.n;
    if n == 0 then EndScan(g, s, t)
    else
      var p := Entry(g, s, t);
      if p == g.parent[t] then EndScan(g, s, t)
      else if g.parent[p] == g.parent[t] && g.conflict(p, t) then
        if Finished(s.tasks[p]) then AfterDependency(g, s, t) else MoveScan(s, t, Dep(n))
      else MoveScan(s, t, At(n - 1))
  }

  function DoRecheck(g: Graph, s: State, t: nat): (s': State)
    requires CanRecheck(g, s, t)
  {
    if Finished(s.tasks[Entry(g, s, t)]) then AfterDependency(g, s, t)
    else MoveScan(s, t, Push(s.tasks[t].phase.scan.n))
  }

  function DoAddFollower(g: Graph, s: State, t: nat): (s': State)
    requires CanAddFollower(g, s, t)
  {
    var p := Entry(g, s, t);
    var s1 := MoveScan(s, t, Inc(s.tasks[t].phase.scan.n));
    s1.(tasks := s1.tasks[p := s1.tasks[p].(followers := s1.tasks[p].followers + [Pre(t)])])
  }

  function DoRaise(g: Graph, s: State, t: nat): (s': State)
    requires CanRaise(g, s, t)
  {
    var s1 := AfterDependency(g, s, t);
    s1.(tasks := s1.tasks[t := s1.tasks[t].(pre := s1.tasks[t].pre + 1)])
  }

  function DoInitEnd(g: Graph, s: State, t: nat): (s': State)
    requires CanInitEnd(g, s, t)
  {
    s.(tasks := s.tasks[t := NotifyPre(s.tasks[t].(phase := Waiting), true)])
  }

  function DoStart(g: Graph, s: State, t: nat): (s': State)
    requires CanStart(g, s, t)
  {
    s.(tasks := s.tasks[t := s.tasks[t].(phase := Running, pre := s.tasks[t].pre - 1)])
  }

  function DoMakeEvent(g: Graph, s: State, t: nat): (s': State)
    requires CanMakeEvent(g, s, t)
  {
    s.(tasks := s.tasks[t := s.tasks[t].(ext := s.tasks[t].ext + 1, post := s.tasks[t].post + 1)])
  }

  function DoFireEvent(g: Graph, s: State, t: nat): (s': State)
    requires CanFireEvent(g, s, t)
  {
    s.(tasks := s.tasks[t := s.tasks[t].(ext := s.tasks[t].ext - 1, fired := s.tasks[t].fired + 1)])
  }

  function DoDeliverEvent(g: Graph, s: State, t: nat): (s': State)
    requires CanDeliverEvent(g, s, t)
  {
    s.(tasks := s.tasks[t := NotifyPost(s.tasks[t].(fired := s.tasks[t].fired - 1))])
  }

  function DoFinish(g: Graph, s: State, t: nat): (s': State)
    requires CanFinish(g, s, t)
  {
    s.(tasks := s.tasks[t := NotifyPost(s.tasks[t].(phase := Done))])
  }

  function DoUnlist(g: Graph, s: State, t: nat): (s': State)
    requires CanUnlist(g, s, t)
  {
    var r := g.resources[t][s.tasks[t].done.k];
    s.(tasks := s.tasks[t := s.tasks[t].(done := Removing(s.tasks[t].done.k + 1))],
       users := s.users[r := Drop(Users(s, r), t)])
  }

  function DoBeginNotify(g: Graph, s: State, t: nat): (s': State)
    requires CanBeginNotify(g, s, t)
  {
    s.(tasks := s.tasks[t := s.tasks[t].(done := Notifying)])
  }

  function DoDeliver(g: Graph, s: State, t: nat): (s': State)
    requires CanDeliver(g, s, t)
  {
    var f := s.tasks[t].followers;
    var popped := s.tasks[t := s.tasks[t].(followers := f[..|f| - 1])];
    s.(tasks := Notify(popped, f[|f| - 1]))
  }

  function DoClose(g: Graph, s: State, t: nat): (s': State)
    requires CanClose(g, s, t)
  {
    Arrive(g, s.(tasks := s.tasks[t := s.tasks[t].(done := Closed)]), t)
  }

  function DoTakeResult(g: Graph, s: State, t: nat): (s': State)
    requires CanTakeResult(g, s, t)
  {
    s.(tasks := s.tasks[t := s.tasks[t].(result := Reached)])
  }

  function DoCountResult(g: Graph, s: State, t: nat): (s': State)
    requires CanCountResult(g, s, t)
  {
    Arrive(g, s.(tasks := s.tasks[t := s.tasks[t].(result := Counted)]), t)
  }

  function Apply(g: Graph, s: State, step: Step): (s': State)
    requires Enabled(g, s, step)
  {
    match step
    case Submit => DoSubmit(g, s)
    case PushUser(t) => DoPushUser(g, s, t)
    case Emplace(t) => DoEmplace(g, s, t)
    case InitBegin(t) => DoInitBegin(g, s, t)
    case Lock(t) => DoLock(g, s, t)
    case Look(t) => DoLook(g, s, t)
    case Recheck(t) => DoRecheck(g, s, t)
    case AddFollower(t) => DoAddFollower(g, s, t)
    case Raise(t) => DoRaise(g, s, t)
    case InitEnd(t) => DoInitEnd(g, s, t)
    case Start(t) => DoStart(g, s, t)
    case MakeEvent(t) => DoMakeEvent(g, s, t)
    case FireEvent(t) => DoFireEvent(g, s, t)
    case DeliverEvent(t) => DoDeliverEvent(g, s, t)
    case Finish(t) => DoFinish(g, s, t)
    case Unlist(t) => DoUnlist(g, s, t)
    case BeginNotify(t) => DoBeginNotify(g, s, t)
    case Deliver(t) => DoDeliver(g, s, t)
    case Close(t) => DoClose(g, s, t)
    case TakeResult(t) => DoTakeResult(g, s, t)
    case CountResult(t) => DoCountResult(g, s, t)
  }

  ghost predicate Next(g: Graph, s: State, s': State)
  {
    exists step :: Enabled(g, s, step) && s' == Apply(g, s, step)
  }

  /** A run from the empty state. */
  ghost predicate Run(g: Graph, run: seq<State>)
  {
    |run| > 0 && run[0] == INITIAL && forall i :: 0 <= i < |run| - 1 ==> Next(g, run[i], run[i + 1])
  }
}
