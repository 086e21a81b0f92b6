/** All event edges point forward in one order, the order in which a serial program nests its tasks. */
module EventOrder {
  import opened Common
  import opened EventGraph
  import opened GraphInvariant
  import opened GraphTheorems
  import opened GraphCore

  /** Lexicographic order; a proper prefix comes first. */
  predicate LexLess(a: seq<int>, b: seq<int>)
  {
    b != [] && (a == [] || a[0] < b[0] || (a[0] == b[0] && LexLess(a[1..], b[1..])))
  }

  lemma {:induction false} LexIrreflexive(a: seq<int>)
    ensures !LexLess(a, a)
  {
    if a != [] { LexIrreflexive(a[1..]); }
  }

  lemma {:induction false} LexTransitive(a: seq<int>, b: seq<int>, c: seq<int>)
    requires LexLess(a, b) && LexLess(b, c)
    ensures LexLess(a, c)
  {
    if a != [] && a[0] == b[0] && b[0] == c[0] { LexTransitive(a[1..], b[1..], c[1..]); }
  }

  lemma {:induction false} LexPrefix(p: seq<int>, a: seq<int>, b: seq<int>)
    ensures LexLess(p + a, p + b) <==> LexLess(a, b)
  {
    if p == [] {
      assert p + a == a && p + b == b;
    } else {
      LexPrefix(p[1..], a, b);
      assert (p + a)[1..] == p[1..] + a && (p + b)[1..] == p[1..] + b;
    }
  }

  /** The positions of a task and of its ancestors in their spaces, outermost first. */
  function Path(g: Graph, t: nat): (p: seq<int>)
    requires Rooted(g) && t < |g.parent|
    ensures p != []
    decreases t
  {
    if g.parent[t] < 0 then [t] else Path(g, g.parent[t]) + [t]
  }

  /** An event of a task, or one of the external events its body made. */
  datatype Vertex = Of(e: Event) | Ext(t: nat)

  function TaskOf(v: Vertex): (t: nat)
  {
    match v
    case Of(e) => e.t
    case Ext(t) => t
  }

  /** A task opens at its path; its external events come after all that is nested in it, and then it closes. */
  function Key(g: Graph, v: Vertex): (key: seq<int>)
    requires Rooted(g) && TaskOf(v) < |g.parent|
  {
    match v
    case Of(Pre(t)) => Path(g, t)
    case Ext(t) => Path(g, t) + [|g.parent|]
    case Of(Post(t)) => Path(g, t) + [|g.parent| + 1]
  }

  /** An edge the runtime can add, or the causality of running and nesting. */
  predicate Edge(g: Graph, v: Vertex, w: Vertex)
    requires Rooted(g)
  {
    && TaskOf(v) < |g.parent| && TaskOf(w) < |g.parent|
    && match (v, w)
       case (Of(Post(p)), Of(Pre(u))) => p < u && g.parent[p] == g.parent[u]
       case (Of(Post(c)), Of(Post(p))) => g.parent[c] == p
       case (Of(Pre(t)), Of(Post(u))) => t == u
       case (Of(Pre(p)), Of(Pre(c))) => g.parent[c] == p
       case (Of(Pre(t)), Ext(u)) => t == u
       case (Ext(t), Of(Post(u))) => t == u
       case _ => false
  }

  lemma Around(g: Graph, t: nat)
    requires Rooted(g) && t < |g.parent|
    ensures var above: seq<int> := if g.parent[t] < 0 then [] else Path(g, g.parent[t]);
            Path(g, t) == above + [t] && forall n: int :: Path(g, t) + [n] == above + [t, n]
  {
  }

  lemma EdgeForward(g: Graph, v: Vertex, w: Vertex)
    requires Rooted(g) && Edge(g, v, w)
    ensures LexLess(Key(g, v), Key(g, w))
  {
    var n := |g.parent|;
    Around(g, TaskOf(v));
    Around(g, TaskOf(w));
    match (v, w)
    case (Of(Post(p)), Of(Pre(u))) =>
      LexPrefix(if g.parent[p] < 0 then [] else Path(g, g.parent[p]), [p, n + 1], [u]);
    case (Of(Post(c)), Of(Post(p))) =>
      LexPrefix(Path(g, p), [c, n + 1], [n + 1]);
    case (Of(Pre(t)), Of(Post(_))) =>
      assert Path(g, t) + [] == Path(g, t);
      LexPrefix(Path(g, t), [], [n + 1]);
    case (Of(Pre(p)), Of(Pre(c))) =>
      assert Path(g, p) + [] == Path(g, p);
      LexPrefix(Path(g, p), [], [c]);
    case (Of(Pre(t)), Ext(_)) =>
      assert Path(g, t) + [] == Path(g, t);
      LexPrefix(Path(g, t), [], [n]);
    case (Ext(t), Of(Post(_))) =>
      LexPrefix(Path(g, t), [n], [n + 1]);
  }

  predicate Chain(g: Graph, es: seq<Vertex>)
    requires Rooted(g)
  {
    && (forall i :: 0 <= i < |es| ==> TaskOf(es[i]) < |g.parent|)
    && (forall i :: 0 <= i < |es| - 1 ==> Edge(g, es[i], es[i + 1]))
  }

  lemma {:induction false} ChainForward(g: Graph, es: seq<Vertex>)
    requires Rooted(g) && |es| >= 2 && Chain(g, es)
    ensures LexLess(Key(g, es[0]), Key(g, es[|es| - 1]))
  {
    EdgeForward(g, es[|es| - 2], es[|es| - 1]);
    if |es| > 2 {
      var front := es[..|es| - 1];
      ChainForward(g, front);
      LexTransitive(Key(g, es[0]), Key(g, es[|es| - 2]), Key(g, es[|es| - 1]));
    }
  }

  /** Every follower entry present in any state of any run is such an edge. */
  lemma EntriesAreEdges(g: Graph, run: seq<State>, i: nat, p: nat, e: Event)
    requires Lawful(g) && Run(g, run) && i < |run|
    requires p < |run[i].tasks| && e in run[i].tasks[p].followers
    ensures Rooted(g) && Edge(g, Of(Post(p)), Of(e))
  {
    InvRun(g, run, i);
    EntryOk(g, run[i], p, e);
    assert LocalOk(g, run[i].tasks[p], p, |run[i].tasks|);
  }

  /** What a post-event still counts are edges too: of its children and of the external events of its own body. */
  lemma CountedAreEdges(g: Graph, run: seq<State>, i: nat, p: nat)
    requires Lawful(g) && Run(g, run) && i < |run| && p < |run[i].tasks|
    ensures var s, x := run[i], run[i].tasks[p];
            && Rooted(g) && x.post == B2i(!x.phase.Done?) + x.ext + x.fired + Undelivered(s.tasks, Post(p))
            && (x.ext + x.fired > 0 ==> Started(x) && Edge(g, Ext(p), Of(Post(p))))
            && (forall c :: 0 <= c < |s.tasks| && Post(p) in s.tasks[c].followers ==>
                              Edge(g, Of(Post(c)), Of(Post(p))))
  {
    NoLostNotification(g, run, i, p);
    InvRun(g, run, i);
    assert LocalOk(g, run[i].tasks[p], p, |run[i].tasks|);
    forall c | 0 <= c < |run[i].tasks| && Post(p) in run[i].tasks[c].followers
      ensures Edge(g, Of(Post(c)), Of(Post(p)))
    {
      EntriesAreEdges(g, run, i, c, Post(p));
    }
  }

  /** No chain of edges returns to where it started, so the event graph is acyclic. */
  lemma NoCycle(g: Graph, es: seq<Vertex>)
    requires Rooted(g) && |es| >= 2 && Chain(g, es)
    ensures es[0] != es[|es| - 1]
  {
    ChainForward(g, es);
    LexIrreflexive(Key(g, es[0]));
  }
}
