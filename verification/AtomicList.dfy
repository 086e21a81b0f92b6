/**
 The lock-free list of chunks. Any number of threads append by compare-and-swap, flag chunks as
 deleted, and shorten `prev` links while they walk; every shared load and store is a step of its
 own, so a link may be stored long after it was computed.
 */
module AtomicList {

  import opened Common

  /** Chunks are named by their position in append order; -1 is the null pointer. */
  datatype Node = Node(prev: int, deleted: bool)

  datatype Thread =
    | Idle
    | Appending(known: int)                                // head loaded into the own `prev`
    | AtChunk(c: int, start: int, seen: set<int>)          // an iterator standing at `c`
    | Skip(c: int, p: int, start: int, seen: set<int>)     // about to test whether `p` is deleted
    | Follow(c: int, p: int, start: int, seen: set<int>)   // `p` was deleted, about to load its link
    | Store(c: int, p: int, start: int, seen: set<int>)    // about to store `p` as the link of `c`
    | Stored(c: int, start: int, seen: set<int>)

  datatype State = State(nodes: seq<Node>, threads: seq<Thread>)

  function Head(s: State): (r: int) { |s.nodes| - 1 }

  datatype Step =
    | BeginAppend(i: nat)
    | Swap(i: nat)
    | AppendFirst(i: nat)
    | Erase(c: nat)
    | Begin(i: nat)
    | LoadPrev(i: nat)
    | Test(i: nat)
    | LoadNext(i: nat)
    | StorePrev(i: nat)
    | Move(i: nat)
    | Leave(i: nat)

  predicate Enabled(s: State, step: Step)
  {
    match step
    case Erase(c) => c < |s.nodes|
    case BeginAppend(i) => i < |s.threads| && s.threads[i].Idle?
    case Swap(i) => i < |s.threads| && s.threads[i].Appending?
    case AppendFirst(i) => i < |s.threads| && s.threads[i].Idle?
    case Begin(i) => i < |s.threads| && s.threads[i].Idle?
    case LoadPrev(i) => i < |s.threads| && s.threads[i].AtChunk? && 0 <= s.threads[i].c < |s.nodes|
    case Test(i) => i < |s.threads| && s.threads[i].Skip? && s.threads[i].p < |s.nodes|
    case LoadNext(i) => i < |s.threads| && s.threads[i].Follow? && 0 <= s.threads[i].p < |s.nodes|
    case StorePrev(i) => i < |s.threads| && s.threads[i].Store? && 0 <= s.threads[i].c < |s.nodes|
    case Move(i) => i < |s.threads| && s.threads[i].Stored? && 0 <= s.threads[i].c < |s.nodes|
    case Leave(i) => i < |s.threads| && (s.threads[i].AtChunk? || s.threads[i].Stored?)
  }

  function SetThread(s: State, i: nat, t: Thread): (s': State)
    requires i < |s.threads|
  {
    s.(threads := s.threads[i := t])
  }

  function Apply(s: State, step: Step): (s': State)
    requires Enabled(s, step)
  {
    match step
    case BeginAppend(i) => SetThread(s, i, Appending(Head(s)))
    case Swap(i) =>
      // a failed exchange starts over
      if s.threads[i].known == Head(s)
      then SetThread(s, i, Idle).(nodes := s.nodes + [Node(s.threads[i].known, false)])
      else SetThread(s, i, Idle)
    case AppendFirst(i) => if s.nodes == [] then s.(nodes := [Node(-1, false)]) else s
    case Erase(c) => s.(nodes := s.nodes[c := s.nodes[c].(deleted := true)])
    case Begin(i) => SetThread(s, i, AtChunk(Head(s), Head(s), {Head(s)}))
    case LoadPrev(i) =>
      var t := s.threads[i];
      SetThread(s, i, Skip(t.c, s.nodes[t.c].prev, t.start, t.seen))
    case Test(i) =>
      var t := s.threads[i];
      if t.p >= 0 && s.nodes[t.p].deleted then SetThread(s, i, Follow(t.c, t.p, t.start, t.seen))
      else SetThread(s, i, Store(t.c, t.p, t.start, t.seen))
    case LoadNext(i) =>
      var t := s.threads[i];
      SetThread(s, i, Skip(t.c, s.nodes[t.p].prev, t.start, t.seen))
    case StorePrev(i) =>
      var t := s.threads[i];
      SetThread(s, i, Stored(t.c, t.start, t.seen)).(nodes := s.nodes[t.c := s.nodes[t.c].(prev := t.p)])
    case Move(i) =>
      var t := s.threads[i];
      var p := s.nodes[t.c].prev;
      SetThread(s, i, AtChunk(p, t.start, t.seen + {p}))
    case Leave(i) => SetThread(s, i, Idle)
  }

  predicate Init(s: State)
  {
    s.nodes == [] && forall i :: 0 <= i < |s.threads| ==> s.threads[i].Idle?
  }

  ghost predicate Next(s: State, s': State)
  {
    exists step :: Enabled(s, step) && s' == Apply(s, step)
  }

  ghost predicate Run(run: seq<State>)
  {
    |run| > 0 && Init(run[0]) && forall i :: 0 <= i < |run| - 1 ==> Next(run[i], run[i + 1])
  }

  // ------------------------------------------------------------ the invariant

  /** A link from `c` to `p` passes deleted chunks only. */
  predicate LinkOk(nodes: seq<Node>, c: int, p: int)
  {
    -1 <= p < c < |nodes| && forall d :: p < d < c ==> nodes[d].deleted
  }

  /** An iterator that started at `start` and stands at `c` has seen every live chunk in between. */
  predicate Walked(nodes: seq<Node>, c: int, start: int, seen: set<int>)
  {
    && -1 <= c <= start < |nodes| && c in seen
    && forall d :: c <= d <= start && d >= 0 && !nodes[d].deleted ==> d in seen
  }

  predicate ThreadOk(nodes: seq<Node>, t: Thread)
  {
    match t
    case Idle => true
    case Appending(known) => -1 <= known < |nodes|
    case AtChunk(c, start, seen) => Walked(nodes, c, start, seen)
    case Skip(c, p, start, seen) => Walked(nodes, c, start, seen) && LinkOk(nodes, c, p)
    case Follow(c, p, start, seen) => Walked(nodes, c, start, seen) && LinkOk(nodes, c, p) && p >= 0 && nodes[p].deleted
    case Store(c, p, start, seen) => Walked(nodes, c, start, seen) && LinkOk(nodes, c, p)
    case Stored(c, start, seen) => Walked(nodes, c, start, seen) && c >= 0
  }

  predicate LinksOk(nodes: seq<Node>)
  {
    forall c :: 0 <= c < |nodes| ==> LinkOk(nodes, c, nodes[c].prev)
  }

  predicate ThreadsOk(s: State)
  {
    forall i :: 0 <= i < |s.threads| ==> ThreadOk(s.nodes, s.threads[i])
  }

  predicate Inv(s: State)
  {
    LinksOk(s.nodes) && ThreadsOk(s)
  }

  /** Chunks stay, and stay deleted. */
  predicate Later(nodes: seq<Node>, nodes': seq<Node>)
  {
    |nodes| <= |nodes'| && forall c :: 0 <= c < |nodes| && nodes[c].deleted ==> nodes'[c].deleted
  }

  lemma LinkLater(nodes: seq<Node>, nodes': seq<Node>, c: int, p: int)
    requires Later(nodes, nodes') && LinkOk(nodes, c, p)
    ensures LinkOk(nodes', c, p)
  {
  }

  lemma ThreadLater(nodes: seq<Node>, nodes': seq<Node>, t: Thread)
    requires Later(nodes, nodes') && ThreadOk(nodes, t)
    ensures ThreadOk(nodes', t)
  {
    if t.Skip? || t.Follow? || t.Store? { LinkLater(nodes, nodes', t.c, t.p); }
  }

  lemma LinkThrough(nodes: seq<Node>, c: int, p: int, q: int)
    requires LinkOk(nodes, c, p) && LinkOk(nodes, p, q) && nodes[p].deleted
    ensures LinkOk(nodes, c, q)
  {
  }

  lemma WalkOn(nodes: seq<Node>, c: int, p: int, start: int, seen: set<int>)
    requires Walked(nodes, c, start, seen) && LinkOk(nodes, c, p)
    ensures Walked(nodes, p, start, seen + {p})
  {
  }

  lemma StepIsLater(s: State, step: Step)
    requires Enabled(s, step)
    ensures Later(s.nodes, Apply(s, step).nodes)
  {
  }

  lemma LinksStep(s: State, step: Step)
    requires Inv(s) && Enabled(s, step)
    ensures LinksOk(Apply(s, step).nodes)
  {
    var nodes, nodes' := s.nodes, Apply(s, step).nodes;
    StepIsLater(s, step);
    if step.StorePrev? { assert ThreadOk(nodes, s.threads[step.i]); }
    forall c | 0 <= c < |nodes'| ensures LinkOk(nodes', c, nodes'[c].prev) {
      if c < |nodes| {
        LinkLater(nodes, nodes', c, nodes[c].prev);
        if step.StorePrev? && c == s.threads[step.i].c { LinkLater(nodes, nodes', c, s.threads[step.i].p); }
      }
    }
  }

  lemma MoverStep(s: State, step: Step)
    requires Inv(s) && Enabled(s, step) && !step.Erase? && !step.AppendFirst?
    ensures ThreadOk(Apply(s, step).nodes, Apply(s, step).threads[step.i])
  {
    var t := s.threads[step.i];
    assert ThreadOk(s.nodes, t);
    match step
    case LoadPrev(_) => assert LinkOk(s.nodes, t.c, s.nodes[t.c].prev);
    case LoadNext(_) =>
      assert LinkOk(s.nodes, t.p, s.nodes[t.p].prev);
      LinkThrough(s.nodes, t.c, t.p, s.nodes[t.p].prev);
    case Move(_) => WalkOn(s.nodes, t.c, s.nodes[t.c].prev, t.start, t.seen);
    case StorePrev(_) => ThreadLater(s.nodes, Apply(s, step).nodes, t);
    case _ =>
  }

  lemma InvStep(s: State, step: Step)
    requires Inv(s) && Enabled(s, step)
    ensures Inv(Apply(s, step))
  {
    var s' := Apply(s, step);
    StepIsLater(s, step);
    LinksStep(s, step);
    if !step.Erase? && !step.AppendFirst? { MoverStep(s, step); }
    forall i | 0 <= i < |s'.threads| ensures ThreadOk(s'.nodes, s'.threads[i]) {
      if s'.threads[i] == s.threads[i] { ThreadLater(s.nodes, s'.nodes, s.threads[i]); }
    }
  }

  lemma {:induction false} InvRun(run: seq<State>, i: nat)
    requires Run(run) && i < |run|
    ensures Inv(run[i])
  {
    if i > 0 {
      InvRun(run, i - 1);
      assert Next(run[i - 1], run[i]);
      var step :| Enabled(run[i - 1], step) && run[i] == Apply(run[i - 1], step);
      InvStep(run[i - 1], step);
    }
  }

  // ------------------------------------------------------------ what a walk meets

  /** The chunks reached from `c` by following links. */
  function Chain(nodes: seq<Node>, c: int): (chain: seq<int>)
    requires LinksOk(nodes) && -1 <= c < |nodes|
    decreases c + 1
  {
    if c < 0 then [] else
      assert LinkOk(nodes, c, nodes[c].prev);
      [c] + Chain(nodes, nodes[c].prev)
  }

  predicate Inside(chain: seq<int>, n: nat)
  {
    forall i :: 0 <= i < |chain| ==> 0 <= chain[i] < n
  }

  function LiveOf(nodes: seq<Node>, chain: seq<int>): (r: seq<int>)
    requires Inside(chain, |nodes|)
  {
    if chain == [] then []
    else (if nodes[chain[0]].deleted then [] else [chain[0]]) + LiveOf(nodes, chain[1..])
  }

  /** All live chunks up to `c`, latest first. */
  function LiveDown(nodes: seq<Node>, c: int): (r: seq<int>)
    requires -1 <= c < |nodes|
    decreases c + 1
  {
    if c < 0 then [] else (if nodes[c].deleted then [] else [c]) + LiveDown(nodes, c - 1)
  }

  lemma {:induction false} ChainInside(nodes: seq<Node>, c: int)
    requires LinksOk(nodes) && -1 <= c < |nodes|
    ensures forall i :: 0 <= i < |Chain(nodes, c)| ==> 0 <= Chain(nodes, c)[i] <= c
    decreases c + 1
  {
    if c >= 0 {
      assert LinkOk(nodes, c, nodes[c].prev);
      ChainInside(nodes, nodes[c].prev);
    }
  }

  lemma {:induction false} SkipDeleted(nodes: seq<Node>, p: int, c: int)
    requires -1 <= p <= c < |nodes| && forall d :: p < d <= c ==> nodes[d].deleted
    ensures LiveDown(nodes, c) == LiveDown(nodes, p)
    decreases c - p
  {
    if p < c { SkipDeleted(nodes, p, c - 1); }
  }

  /** The live chunks on the chain are all live chunks, in reverse append order. */
  lemma {:induction false} ChainIsComplete(nodes: seq<Node>, c: int)
    requires LinksOk(nodes) && -1 <= c < |nodes|
    ensures Inside(Chain(nodes, c), |nodes|)
    ensures LiveOf(nodes, Chain(nodes, c)) == LiveDown(nodes, c)
    decreases c + 1
  {
    ChainInside(nodes, c);
    if c >= 0 {
      var p := nodes[c].prev;
      assert LinkOk(nodes, c, p);
      ChainIsComplete(nodes, p);
      SkipDeleted(nodes, p, c - 1);
      assert Chain(nodes, c)[1..] == Chain(nodes, p);
    }
  }

  /** In every state of every run, following links from the head meets exactly the live chunks, latest first. */
  lemma LiveChunksReachable(run: seq<State>, i: nat)
    requires Run(run) && i < |run|
    ensures var nodes := run[i].nodes;
            && LinksOk(nodes)
            && Inside(Chain(nodes, |nodes| - 1), |nodes|)
            && LiveOf(nodes, Chain(nodes, |nodes| - 1)) == LiveDown(nodes, |nodes| - 1)
  {
    InvRun(run, i);
    ChainIsComplete(run[i].nodes, |run[i].nodes| - 1);
  }

  lemma {:induction false} LiveDownMembers(nodes: seq<Node>, c: int)
    requires -1 <= c < |nodes|
    ensures forall d :: d in LiveDown(nodes, c) <==> 0 <= d <= c && !nodes[d].deleted
    ensures forall i, j :: 0 <= i < j < |LiveDown(nodes, c)| ==> LiveDown(nodes, c)[i] > LiveDown(nodes, c)[j]
    decreases c + 1
  {
    if c >= 0 {
      LiveDownMembers(nodes, c - 1);
      forall i, j | 0 <= i < j < |LiveDown(nodes, c)| ensures LiveDown(nodes, c)[i] > LiveDown(nodes, c)[j] {
        var rest := LiveDown(nodes, c - 1);
        assert forall k :: 0 <= k < |rest| ==> rest[k] in rest;
      }
    }
  }

  /** The thread is on a walk that began at chunk `start`. */
  predicate WalksFrom(t: Thread, start: int)
  {
    match t
    case Idle | Appending(_) => false
    case _ => t.start == start
  }

  predicate OnTheWay(s: State, k: nat)
  {
    k < |s.threads| && !s.threads[k].Idle?
  }

  lemma WalkKeepsStart(s: State, step: Step, k: nat, start: int)
    requires Enabled(s, step) && k < |s.threads| && WalksFrom(s.threads[k], start) && OnTheWay(Apply(s, step), k)
    ensures WalksFrom(Apply(s, step).threads[k], start)
  {
  }

  /** Thread `k` begins a walk in state `b` and has not given it up by state `i`. */
  predicate WalkOf(run: seq<State>, b: nat, i: nat, k: nat)
  {
    && b < i < |run| && Enabled(run[b], Begin(k)) && run[b + 1] == Apply(run[b], Begin(k))
    && forall m :: b < m <= i ==> OnTheWay(run[m], k)
  }

  lemma WalkBegins(s: State, k: nat)
    requires Enabled(s, Begin(k))
    ensures k < |Apply(s, Begin(k)).threads| && WalksFrom(Apply(s, Begin(k)).threads[k], Head(s))
  {
  }

  lemma WalkNext(s: State, s': State, k: nat, start: int)
    requires Next(s, s') && OnTheWay(s', k) && k < |s.threads| && WalksFrom(s.threads[k], start)
    ensures WalksFrom(s'.threads[k], start)
  {
    var step :| Enabled(s, step) && s' == Apply(s, step);
    WalkKeepsStart(s, step, k, start);
  }

  /** As long as the walk goes on, it is the one that began at the head of that time. */
  lemma WalkStart(run: seq<State>, b: nat, i: nat, k: nat)
    requires Run(run) && WalkOf(run, b, i, k)
    ensures k < |run[i].threads| && WalksFrom(run[i].threads[k], Head(run[b]))
  {
    var start := Head(run[b]);
    var goesOn := (s: State, s': State) => Next(s, s') && OnTheWay(s', k);
    var walks := (s: State) => k < |s.threads| && WalksFrom(s.threads[k], start);
    var path := run[b + 1..i + 1];
    assert Preserves(goesOn, walks) by {
      forall s: State, s': State | goesOn(s, s') && walks(s) ensures walks(s') { WalkNext(s, s', k, start); }
    }
    forall j: nat | j < |path| - 1 ensures RelatedAt(goesOn, path, j) {
      assert Next(run[b + 1 + j], run[b + 1 + j + 1]) && OnTheWay(run[b + 1 + j + 1], k);
    }
    WalkBegins(run[b], k);
    KeptAlong(goesOn, walks, path, i - b - 1);
  }

  /** An iterator that reached the end has met every chunk that is still live and was there when it began. */
  lemma WalkMissesNone(run: seq<State>, b: nat, i: nat, k: nat, d: int)
    requires Run(run) && WalkOf(run, b, i, k) && run[i].threads[k].AtChunk? && run[i].threads[k].c == -1
    requires 0 <= d < |run[b].nodes|
    ensures d < |run[i].nodes| && (!run[i].nodes[d].deleted ==> d in run[i].threads[k].seen)
  {
    WalkStart(run, b, i, k);
    InvRun(run, i);
    assert ThreadOk(run[i].nodes, run[i].threads[k]);
  }

  /** Distance an iterator still has to go, and how far its look-ahead has got. */
  function Left(t: Thread): (int, int)
  {
    match t
    case AtChunk(c, _, _) => (c + 1, c + 2)
    case Skip(c, p, _, _) => (c + 1, p + 2)
    case Follow(c, p, _, _) => (c + 1, p + 2)
    case Store(c, p, _, _) => (c + 1, 0)
    case Stored(c, _, _) => (c + 1, 0)
    case _ => (0, 0)
  }

  /** Whatever other threads do, an iterator only moves back, so every walk ends. */
  lemma WalkGoesBack(s: State, step: Step)
    requires Inv(s) && Enabled(s, step)
    requires step.LoadPrev? || step.Test? || step.LoadNext? || step.StorePrev? || step.Move?
    ensures var before, after := Left(s.threads[step.i]), Left(Apply(s, step).threads[step.i]);
            && 0 <= after.0 && 0 <= after.1
            && after.0 <= before.0
            && (step.Move? ==> after.0 < before.0)
            && (step.LoadPrev? || step.LoadNext? ==> after.0 == before.0 && after.1 < before.1)
  {
    assert ThreadOk(s.nodes, s.threads[step.i]);
    if step.LoadPrev? { assert LinkOk(s.nodes, s.threads[step.i].c, s.nodes[s.threads[step.i].c].prev); }
    if step.LoadNext? { assert LinkOk(s.nodes, s.threads[step.i].p, s.nodes[s.threads[step.i].p].prev); }
    if step.Move? { assert LinkOk(s.nodes, s.threads[step.i].c, s.nodes[s.threads[step.i].c].prev); }
  }

  // ------------------------------------------------------------ what a step does to the list

  /** The list without `x`, taken from the front as the list is built. */
  function Minus(s: seq<int>, x: int): (r: seq<int>)
  {
    if s == [] then [] else (if s[0] == x then [] else [s[0]]) + Minus(s[1..], x)
  }

  lemma {:induction false} LiveDownSame(nodes: seq<Node>, nodes': seq<Node>, c: int)
    requires -1 <= c < |nodes| && c < |nodes'| && forall d :: 0 <= d <= c ==> nodes'[d].deleted == nodes[d].deleted
    ensures LiveDown(nodes', c) == LiveDown(nodes, c)
    decreases c + 1
  {
    if c >= 0 { LiveDownSame(nodes, nodes', c - 1); }
  }

  lemma {:induction false} LiveDownErased(nodes: seq<Node>, c: int, x: nat)
    requires -1 <= c < |nodes| && x < |nodes|
    ensures LiveDown(nodes[x := nodes[x].(deleted := true)], c) == Minus(LiveDown(nodes, c), x)
    decreases c + 1
  {
    if c >= 0 {
      var nodes', rest := nodes[x := nodes[x].(deleted := true)], LiveDown(nodes, c - 1);
      LiveDownErased(nodes, c - 1, x);
      assert LiveDown(nodes', c) == (if nodes'[c].deleted then [] else [c]) + Minus(rest, x);
      assert ([c] + rest)[1..] == rest && [] + rest == rest;
    }
  }

  /** An exchange that succeeds, or the first chunk. */
  predicate Appends(s: State, step: Step)
    requires Enabled(s, step)
  {
    match step
    case Swap(i) => s.threads[i].known == Head(s)
    case AppendFirst(_) => s.nodes == []
    case _ => false
  }

  /** The list of live chunks, latest first. */
  function Listed(s: State): (r: seq<int>) { LiveDown(s.nodes, Head(s)) }

  /**
   Every step is one of the plain list: a successful append puts a new chunk in front, erasing takes the chunk
   out, and walking with all its stores changes nothing.
   */
  lemma StepOnList(s: State, step: Step)
    requires Enabled(s, step)
    ensures Listed(Apply(s, step)) ==
            if Appends(s, step) then [|s.nodes|] + Listed(s)
            else if step.Erase? then Minus(Listed(s), step.c)
            else Listed(s)
  {
    var s' := Apply(s, step);
    if step.Erase? { LiveDownErased(s.nodes, Head(s), step.c); } else { LiveDownSame(s.nodes, s'.nodes, Head(s)); }
  }

  /** An append that nobody disturbs succeeds. */
  lemma SoloAppend(s: State, i: nat)
    requires i < |s.threads| && s.threads[i].Idle?
    ensures Enabled(s, BeginAppend(i)) && Enabled(Apply(s, BeginAppend(i)), Swap(i))
    ensures Listed(Apply(Apply(s, BeginAppend(i)), Swap(i))) == [|s.nodes|] + Listed(s)
  {
    var s1 := Apply(s, BeginAppend(i));
    StepOnList(s, BeginAppend(i));
    StepOnList(s1, Swap(i));
  }

  // ------------------------------------------------------------ a walk that nobody disturbs

  /** The newest live chunk before `c`, -1 if there is none. */
  function NewestBefore(nodes: seq<Node>, c: int): (d: int)
    requires 0 <= c <= |nodes|
    ensures -1 <= d < c && (d >= 0 ==> !nodes[d].deleted) && forall e :: d < e < c ==> nodes[e].deleted
  {
    if c == 0 then -1 else if !nodes[c - 1].deleted then c - 1 else NewestBefore(nodes, c - 1)
  }

  /** What an iterator does next on its way to the next chunk. */
  function OnWalk(t: Thread, i: nat): (step: Step)
  {
    match t
    case AtChunk(_, _, _) => LoadPrev(i)
    case Skip(_, _, _, _) => Test(i)
    case Follow(_, _, _, _) => LoadNext(i)
    case Store(_, _, _, _) => StorePrev(i)
    case _ => Move(i)
  }

  predicate SoloStep(s: State, s': State, i: nat)
  {
    i < |s.threads| && Enabled(s, OnWalk(s.threads[i], i)) && s' == Apply(s, OnWalk(s.threads[i], i))
  }

  /** Steps of iterator `i` alone. */
  predicate Solo(path: seq<State>, i: nat)
  {
    |path| > 0 && forall k :: 0 <= k < |path| - 1 ==> SoloStep(path[k], path[k + 1], i)
  }

  lemma SoloLonger(s: State, path: seq<State>, i: nat)
    requires Solo(path, i) && SoloStep(s, path[0], i)
    ensures Solo([s] + path, i)
  {
    var longer := [s] + path;
    forall k | 0 <= k < |longer| - 1 ensures SoloStep(longer[k], longer[k + 1], i) {
      if k > 0 { assert SoloStep(path[k - 1], path[k], i); }
    }
  }

  /** The iterator has arrived at `q`, and `c` is linked to it. */
  predicate ArrivedAt(s: State, s': State, i: nat, c: int, q: int)
  {
    && i < |s'.threads| && s'.threads[i].AtChunk? && s'.threads[i].c == q
    && 0 <= c < |s.nodes| && s'.nodes == s.nodes[c := s.nodes[c].(prev := q)]
  }

  lemma SoloStore(s: State, i: nat) returns (path: seq<State>)
    requires Inv(s) && i < |s.threads| && s.threads[i].Store?
    ensures Solo(path, i) && path[0] == s
    ensures ArrivedAt(s, path[|path| - 1], i, s.threads[i].c, s.threads[i].p)
  {
    assert ThreadOk(s.nodes, s.threads[i]);
    var s1 := Apply(s, StorePrev(i));
    var s2 := Apply(s1, Move(i));
    path := [s, s1, s2];
  }

  lemma {:induction false} SoloSkip(s: State, i: nat) returns (path: seq<State>)
    requires Inv(s) && i < |s.threads| && s.threads[i].Skip?
    ensures 0 <= s.threads[i].c < |s.nodes| && Solo(path, i) && path[0] == s
    ensures ArrivedAt(s, path[|path| - 1], i, s.threads[i].c, NewestBefore(s.nodes, s.threads[i].c))
    decreases s.threads[i].p + 1
  {
    assert ThreadOk(s.nodes, s.threads[i]);
    var p := s.threads[i].p;
    var s1 := Apply(s, Test(i));
    InvStep(s, Test(i));
    if p >= 0 && s.nodes[p].deleted {
      assert LinkOk(s.nodes, p, s.nodes[p].prev);
      var s2 := Apply(s1, LoadNext(i));
      InvStep(s1, LoadNext(i));
      path := SoloSkip(s2, i);
      SoloLonger(s1, path, i);
      SoloLonger(s, [s1] + path, i);
      path := [s] + ([s1] + path);
    } else {
      NewestIs(s.nodes, s.threads[i].c, p);
      path := SoloStore(s1, i);
      SoloLonger(s, path, i);
      path := [s] + path;
    }
  }

  lemma {:induction false} NewestIs(nodes: seq<Node>, c: int, d: int)
    requires 0 <= c <= |nodes| && -1 <= d < c && (d >= 0 ==> !nodes[d].deleted)
    requires forall e :: d < e < c ==> nodes[e].deleted
    ensures NewestBefore(nodes, c) == d
    decreases c
  {
    if d < c - 1 { NewestIs(nodes, c - 1, d); }
  }

  /**
   An iterator that nobody disturbs goes from any chunk to the newest live one before it, past all deleted
   ones, and leaves a link behind that skips them.
   */
  lemma SoloWalk(s: State, i: nat) returns (path: seq<State>)
    requires Inv(s) && i < |s.threads| && s.threads[i].AtChunk? && s.threads[i].c >= 0
    ensures s.threads[i].c < |s.nodes| && Solo(path, i) && path[0] == s
    ensures ArrivedAt(s, path[|path| - 1], i, s.threads[i].c, NewestBefore(s.nodes, s.threads[i].c))
  {
    assert ThreadOk(s.nodes, s.threads[i]);
    var s1 := Apply(s, LoadPrev(i));
    InvStep(s, LoadPrev(i));
    path := SoloSkip(s1, i);
    SoloLonger(s, path, i);
    path := [s] + path;
  }
}
