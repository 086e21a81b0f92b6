/** The serial execution of a task tree is determined by the bodies. */
module SerialOrder {
  import opened EventGraph
  import opened EventOrder
  import opened GraphTheorems
  import ResourceUsers
  import opened TaskGraph
  import opened Traces
  import opened TreePrograms
  import opened TreeSerial

  // ------------------------------------------------------------ deeds of one task

  lemma TakeAll(trace: seq<Deed>)
    ensures trace[..|trace|] == trace
  {
  }

  lemma AgreeOnce(a: seq<Deed>, b: seq<Deed>, k: nat)
    requires k < |a| && k < |b| && a[..k] == b[..k] && a[k] == b[k]
    ensures a[..k + 1] == b[..k + 1]
  {
    assert a[..k + 1] == a[..k] + [a[k]] && b[..k + 1] == b[..k] + [b[k]];
  }

  lemma {:induction false} OwnPrefix(trace: seq<Deed>, k: nat, t: nat)
    requires k <= |trace|
    ensures Own(trace[..k], t) <= Own(trace, t)
  {
    if k < |trace| {
      var front := trace[..|trace| - 1];
      assert front[..k] == trace[..k];
      OwnPrefix(front, k, t);
    } else {
      assert trace[..k] == trace;
    }
  }

  /** Where the `n`-th deed of a task stands, if the first `k` deeds hold no more than `n` of them. */
  lemma {:induction false} FindOwn(trace: seq<Deed>, k: nat, t: nat, n: nat) returns (j: nat)
    requires k <= |trace| && |Own(trace[..k], t)| <= n < |Own(trace, t)|
    ensures k <= j < |trace| && trace[j] == Own(trace, t)[n] && trace[j].t == t
  {
    TakeAll(trace);
    var front, e := trace[..|trace| - 1], trace[|trace| - 1];
    assert front[..k] == trace[..k];
    if n < |Own(front, t)| {
      j := FindOwn(front, k, t, n);
    } else {
      j := |trace| - 1;
    }
  }

  lemma OwnAt(trace: seq<Deed>, k: nat)
    requires k < |trace|
    ensures var t, n := trace[k].t, |Own(trace[..k], trace[k].t)|;
            n < |Own(trace, t)| && Own(trace, t)[n] == trace[k] && Own(trace, t)[..n] == Own(trace[..k], t)
  {
    var t := trace[k].t;
    assert trace[..k + 1] == trace[..k] + [trace[k]];
    OwnNext(trace[..k], trace[k], t);
    OwnPrefix(trace, k + 1, t);
    OwnPrefix(trace, k, t);
  }

  // ------------------------------------------------------------ the next deed

  /** The place of a deed follows from how many children its task had submitted. */
  lemma SamePlace(g: Graph, e: Deed, f: Deed)
    requires Rooted(g) && WellPlaced(g, e) && WellPlaced(g, f) && e.t == f.t
    requires Rank(g, e.t, Mark(e)) == Rank(g, e.t, Mark(f))
    ensures e.key == f.key
  {
    RankTells(g, e.t, Mark(e), Mark(f));
    RankTells(g, e.t, Mark(f), Mark(e));
  }

  /** Once two executions agree so far, the next deed of one comes in the other as well, in the same place. */
  lemma Counterpart(g: Graph, code: Bodies, a: seq<Deed>, b: seq<Deed>, k: nat) returns (j: nat)
    requires Rooted(g) && k < |a| && k <= |b| && a[..k] == b[..k] && WellPlaced(g, a[k])
    requires forall i :: 0 <= i < |b| ==> WellPlaced(g, b[i])
    requires AllWhole(g, code, a) && AllWhole(g, code, b)
    ensures k <= j < |b| && b[j].t == a[k].t && b[j].op == a[k].op && b[j].key == a[k].key
  {
    var t, n := a[k].t, |Own(a[..k], a[k].t)|;
    OwnAt(a, k);
    OwnPrefix(b, k, t);
    assert Whole(g, code, t, Own(a, t)) && Whole(g, code, t, Own(b, t));
    assert code.next(t, Answers(Own(a, t)[..n])) == Do(a[k].op);
    assert Own(b, t)[..n] == Own(a, t)[..n];
    TakeAll(Own(b, t));
    assert code.next(t, Answers(Own(b, t)[..n])) == Do(Own(b, t)[n].op);
    j := FindOwn(b, k, t, n);
    SamePlace(g, a[k], b[j]);
  }

  lemma SameKeySameTask(g: Graph, e: Deed, f: Deed)
    requires Rooted(g) && WellPlaced(g, e) && WellPlaced(g, f) && e.key == f.key
    ensures e.t == f.t
  {
    PathEnds(g, e.t);
    PathEnds(g, f.t);
    assert |e.key| == |Path(g, e.t)| + 2 && |f.key| == |Path(g, f.t)| + 2;
    assert e.key[|e.key| - 3] == e.t && f.key[|f.key| - 3] == f.t;
  }

  lemma PathEnds(g: Graph, t: nat)
    requires Rooted(g) && t < |g.parent|
    ensures Path(g, t)[|Path(g, t)| - 1] == t
  {
  }

  /** Both go on with the same deed. */
  lemma SameNext<S(!new)>(g: Graph, code: Bodies, effect: Effect<S>, m0: S,
                          a: seq<Deed>, m: S, b: seq<Deed>, m': S, k: nat)
    requires Rooted(g) && SerialExecution(g, code, effect, m0, a, m) && SerialExecution(g, code, effect, m0, b, m')
    requires k < |a| && k <= |b| && a[..k] == b[..k]
    ensures k < |b| && a[k] == b[k]
  {
    var j := Counterpart(g, code, a, b, k);
    var i := Counterpart(g, code, b, a, k);
    assert j == k || !Out(b[k], b[j]);
    assert i == k || !Out(a[k], a[i]);
    LexTotal(a[k].key, b[k].key);
    SameKeySameTask(g, a[k], b[k]);
    SameDeed(g, code, a, b, k);
    AnsweredAt(effect, m0, a, k);
    AnsweredAt(effect, m0, b, k);
  }

  lemma SameDeed(g: Graph, code: Bodies, a: seq<Deed>, b: seq<Deed>, k: nat)
    requires k < |a| && k < |b| && a[..k] == b[..k] && a[k].t == b[k].t
    requires Follows(g, code, a[k].t, Own(a, a[k].t)) && Follows(g, code, a[k].t, Own(b, a[k].t))
    ensures a[k].op == b[k].op
  {
    var t, n := a[k].t, |Own(a[..k], a[k].t)|;
    OwnAt(a, k);
    OwnAt(b, k);
    assert code.next(t, Answers(Own(a, t)[..n])) == Do(a[k].op);
    assert code.next(t, Answers(Own(b, t)[..n])) == Do(b[k].op);
  }

  lemma {:induction false} SamePrefix<S(!new)>(g: Graph, code: Bodies, effect: Effect<S>,
                                               m0: S, a: seq<Deed>, m: S, b: seq<Deed>, m': S, k: nat)
    requires Rooted(g) && SerialExecution(g, code, effect, m0, a, m) && SerialExecution(g, code, effect, m0, b, m')
    requires k <= |a|
    ensures k <= |b| && a[..k] == b[..k]
  {
    if k > 0 {
      SamePrefix(g, code, effect, m0, a, m, b, m', k - 1);
      SameNext(g, code, effect, m0, a, m, b, m', k - 1);
      AgreeOnce(a, b, k - 1);
    }
  }

  /** There is one serial execution of given bodies and one memory it ends in. */
  lemma SerialUnique<S(!new)>(g: Graph, code: Bodies, effect: Effect<S>, m0: S,
                              a: seq<Deed>, m: S, b: seq<Deed>, m': S)
    requires Rooted(g) && SerialExecution(g, code, effect, m0, a, m) && SerialExecution(g, code, effect, m0, b, m')
    ensures a == b && m == m'
  {
    SamePrefix(g, code, effect, m0, a, m, b, m', |a|);
    SamePrefix(g, code, effect, m0, b, m', a, m, |b|);
    TakeAll(a);
    TakeAll(b);
  }

  /**
   A complete run of a task tree, whatever its interleaving, ends in the memory of the one serial
   execution of its bodies.
   */
  lemma TreeEndsSerially<S(!new)>(ds: seq<Decl>, creator: ResourceUsers.Resource -> int, code: Bodies,
                                  effect: Effect<S>, m0: S, run: seq<System<S>>, serial: seq<Deed>, m: S)
    requires WellDeclared(ds) && WellNested(ds, creator) && Behaved(ds, code) && Careful(ds, code) && Respects(effect)
    requires SystemRun(GraphOf(ds), code, effect, m0, run) && Complete(GraphOf(ds), run[|run| - 1])
    requires SerialExecution(GraphOf(ds), code, effect, m0, serial, m)
    ensures m == run[|run| - 1].mem && SameForEach(run[|run| - 1].trace, serial)
  {
    var last := run[|run| - 1];
    var sorted := TreeIsSerial(ds, creator, code, effect, m0, run);
    SerialUnique(GraphOf(ds), code, effect, m0, sorted, last.mem, serial, m);
  }
}
