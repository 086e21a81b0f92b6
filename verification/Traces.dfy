/**
 Traces of single operations and their rearrangement. Operations whose uses do not clash may be
 swapped; a trace in which only such operations are out of order can be sorted without changing any
 answer or the outcome.
 */
module Traces {
  import opened AccessPolicy
  import opened AccessMeaning
  import opened ResourceUsers
  import opened UserMeaning
  import opened EventOrder

  /** One use of a resource; `arg` is whatever else the operation depends on. */
  datatype Operation = Operation(resource: Resource, use: Use, arg: int)

  /** Operation `op` of task `t` gave `answer`; `key` is its place in the serial order. */
  datatype Deed = Deed(t: nat, op: Operation, answer: int, key: seq<int>)

  /** What operations do to the memory, of whatever kind it is. */
  type Effect<!S> = (S, Operation) -> (S, int)

  /** The use is one that the policy type of its resource knows. */
  predicate Proper(o: Operation)
  {
    Admits(Top(o.resource.proto), o.use)
  }

  predicate Clashing(a: Operation, b: Operation)
  {
    a.resource == b.resource && ClashOn(a.resource, a.use, b.use)
  }

  /** Doing `a` and then `b` from `s` is the same as doing `b` and then `a`, answers included. */
  ghost predicate CommuteAt<S>(effect: Effect<S>, a: Operation, b: Operation, s: S)
  {
    && effect(effect(s, a).0, b).0 == effect(effect(s, b).0, a).0
    && effect(effect(s, a).0, b).1 == effect(s, b).1
    && effect(effect(s, b).0, a).1 == effect(s, a).1
  }

  ghost predicate Commute<S(!new)>(effect: Effect<S>, a: Operation, b: Operation)
  {
    forall s: S :: CommuteAt(effect, a, b, s)
  }

  /** Operations do what the access policies take them to do: those that do not clash commute. */
  ghost predicate Respects<S(!new)>(effect: Effect<S>)
  {
    forall a: Operation, b: Operation {:trigger Commute(effect, a, b)} ::
      Proper(a) && Proper(b) && !Clashing(a, b) ==> Commute(effect, a, b)
  }

  function Final<S>(effect: Effect<S>, s: S, trace: seq<Deed>): (s': S)
  {
    if trace == [] then s else effect(Final(effect, s, trace[..|trace| - 1]), trace[|trace| - 1].op).0
  }

  /** Every answer is the one the memory gives at that point. */
  ghost predicate Answered<S(!new)>(effect: Effect<S>, s: S, trace: seq<Deed>)
  {
    trace == [] ||
    (&& Answered(effect, s, trace[..|trace| - 1])
     && trace[|trace| - 1].answer == effect(Final(effect, s, trace[..|trace| - 1]), trace[|trace| - 1].op).1)
  }

  /** The trace is one that memory `s` allows, and leads to `s'`. */
  ghost predicate Leads<S(!new)>(effect: Effect<S>, s: S, trace: seq<Deed>, s': S)
  {
    Answered(effect, s, trace) && Final(effect, s, trace) == s'
  }

  lemma LeadsNext<S(!new)>(effect: Effect<S>, s: S, trace: seq<Deed>, e: Deed, s': S)
    ensures Leads(effect, s, trace + [e], s') <==>
            Leads(effect, s, trace, Final(effect, s, trace)) && effect(Final(effect, s, trace), e.op) == (s', e.answer)
  {
    assert (trace + [e])[..|trace|] == trace;
  }

  lemma {:induction false} AnsweredAt<S(!new)>(effect: Effect<S>, s: S, trace: seq<Deed>, k: nat)
    requires Answered(effect, s, trace) && k < |trace|
    ensures trace[k].answer == effect(Final(effect, s, trace[..k]), trace[k].op).1
  {
    if k < |trace| - 1 {
      var front := trace[..|trace| - 1];
      AnsweredAt(effect, s, front, k);
      assert front[..k] == trace[..k];
    }
  }

  /** Two operations at the end that commute may be swapped. */
  lemma SwapLast<S(!new)>(effect: Effect<S>, s: S, trace: seq<Deed>, f: Deed, e: Deed, s': S)
    requires Leads(effect, s, trace + [f] + [e], s') && Commute(effect, f.op, e.op)
    ensures Leads(effect, s, trace + [e] + [f], s')
  {
    var m := Final(effect, s, trace);
    var a, b := effect(m, f.op), effect(m, e.op);
    assert CommuteAt(effect, f.op, e.op, m);
    LeadsNext(effect, s, trace + [f], e, s');
    LeadsNext(effect, s, trace, f, a.0);
    LeadsNext(effect, s, trace, e, b.0);
    LeadsNext(effect, s, trace + [e], f, s');
  }

  // ------------------------------------------------------------ sorting

  predicate Out(f: Deed, e: Deed)
  {
    LexLess(e.key, f.key)
  }

  /** Put `e` behind the last event that is not to come after it. */
  function Insert(trace: seq<Deed>, e: Deed): (trace': seq<Deed>)
  {
    if trace == [] || !Out(trace[|trace| - 1], e) then trace + [e]
    else Insert(trace[..|trace| - 1], e) + [trace[|trace| - 1]]
  }

  function Sort(trace: seq<Deed>): (trace': seq<Deed>)
  {
    if trace == [] then [] else Insert(Sort(trace[..|trace| - 1]), trace[|trace| - 1])
  }

  ghost predicate Sorted(trace: seq<Deed>)
  {
    forall i, j :: 0 <= i < j < |trace| ==> !Out(trace[i], trace[j])
  }

  lemma FrontAndLast(trace: seq<Deed>)
    requires trace != []
    ensures multiset(trace) == multiset(trace[..|trace| - 1]) + multiset{trace[|trace| - 1]}
  {
    assert trace == trace[..|trace| - 1] + [trace[|trace| - 1]];
  }

  lemma {:induction false} InsertMembers(trace: seq<Deed>, e: Deed)
    ensures multiset(Insert(trace, e)) == multiset(trace) + multiset{e}
  {
    if trace != [] && Out(trace[|trace| - 1], e) {
      InsertMembers(trace[..|trace| - 1], e);
      FrontAndLast(trace);
    }
  }

  lemma {:induction false} SortMembers(trace: seq<Deed>)
    ensures multiset(Sort(trace)) == multiset(trace)
  {
    if trace != [] {
      SortMembers(trace[..|trace| - 1]);
      InsertMembers(Sort(trace[..|trace| - 1]), trace[|trace| - 1]);
      FrontAndLast(trace);
    }
  }

  lemma MemberOf(trace: seq<Deed>, x: Deed)
    ensures x in Sort(trace) <==> x in trace
  {
    SortMembers(trace);
    assert x in multiset(Sort(trace)) <==> x in multiset(trace);
  }

  lemma {:induction false} LexTotal(a: seq<int>, b: seq<int>)
    ensures LexLess(a, b) || a == b || LexLess(b, a)
  {
    if a != [] && b != [] && a[0] == b[0] {
      LexTotal(a[1..], b[1..]);
      assert a == [a[0]] + a[1..] && b == [b[0]] + b[1..];
    }
  }

  lemma NotOutBoth(x: Deed, y: Deed, z: Deed)
    requires !Out(x, y) && !Out(y, z)
    ensures !Out(x, z)
  {
    LexTotal(x.key, y.key);
    LexTotal(y.key, z.key);
    if Out(x, z) {
      if LexLess(x.key, y.key) { LexTransitive(z.key, x.key, y.key); }
    }
  }

  lemma {:induction false} InsertSorted(trace: seq<Deed>, e: Deed)
    requires Sorted(trace)
    ensures Sorted(Insert(trace, e))
  {
    var n := |trace| - 1;
    if trace == [] {
    } else if !Out(trace[n], e) {
      forall i | 0 <= i <= n ensures !Out(trace[i], e) {
        if i < n { NotOutBoth(trace[i], trace[n], e); }
      }
    } else {
      var front := Insert(trace[..n], e);
      InsertSorted(trace[..n], e);
      InsertMembers(trace[..n], e);
      forall i | 0 <= i < |front| ensures !Out(front[i], trace[n]) {
        assert front[i] in multiset(front);
        if front[i] == e {
          if Out(e, trace[n]) { LexTransitive(e.key, trace[n].key, e.key); LexIrreflexive(e.key); }
        } else {
          assert front[i] in multiset(trace[..n]);
          var k :| 0 <= k < n && trace[k] == front[i];
        }
      }
    }
  }

  lemma {:induction false} SortSorted(trace: seq<Deed>)
    ensures Sorted(Sort(trace))
  {
    if trace != [] {
      SortSorted(trace[..|trace| - 1]);
      InsertSorted(Sort(trace[..|trace| - 1]), trace[|trace| - 1]);
    }
  }

  // ------------------------------------------------------------ sorting changes nothing

  lemma {:induction false} InsertLeads<S(!new)>(effect: Effect<S>, s: S, trace: seq<Deed>, e: Deed, s': S)
    requires Leads(effect, s, trace + [e], s')
    requires forall f :: f in trace && Out(f, e) ==> Commute(effect, f.op, e.op)
    ensures Leads(effect, s, Insert(trace, e), s')
  {
    if trace != [] && Out(trace[|trace| - 1], e) {
      var front, f := trace[..|trace| - 1], trace[|trace| - 1];
      assert trace + [e] == front + [f] + [e] && f in trace;
      SwapLast(effect, s, front, f, e, s');
      LeadsNext(effect, s, front + [e], f, s');
      var m := Final(effect, s, front + [e]);
      InsertLeads(effect, s, front, e, m);
      LeadsNext(effect, s, Insert(front, e), f, s');
    }
  }

  /** All pairs that are out of order commute. */
  ghost predicate Sortable<S(!new)>(effect: Effect<S>, trace: seq<Deed>)
  {
    forall i, j :: 0 <= i < j < |trace| && Out(trace[i], trace[j]) ==> Commute(effect, trace[i].op, trace[j].op)
  }

  lemma {:induction false} SortLeads<S(!new)>(effect: Effect<S>, s: S, trace: seq<Deed>, s': S)
    requires Leads(effect, s, trace, s') && Sortable(effect, trace)
    ensures Leads(effect, s, Sort(trace), s')
  {
    if trace != [] {
      var front, e := trace[..|trace| - 1], trace[|trace| - 1];
      assert trace == front + [e];
      var m := Final(effect, s, front);
      LeadsNext(effect, s, front, e, s');
      SortLeads(effect, s, front, m);
      LeadsNext(effect, s, Sort(front), e, s');
      forall f | f in Sort(front) && Out(f, e) ensures Commute(effect, f.op, e.op) {
        MemberOf(front, f);
        var i :| 0 <= i < |front| && front[i] == f;
        assert trace[i] == f && trace[|front|] == e;
      }
      InsertLeads(effect, s, Sort(front), e, s');
    }
  }

  // ------------------------------------------------------------ what one task sees

  /** The events of task `t` in their order. */
  function Own(trace: seq<Deed>, t: nat): (own: seq<Deed>)
  {
    if trace == [] then []
    else
      var own := Own(trace[..|trace| - 1], t);
      if trace[|trace| - 1].t == t then own + [trace[|trace| - 1]] else own
  }

  lemma OwnNext(trace: seq<Deed>, e: Deed, t: nat)
    ensures Own(trace + [e], t) == if e.t == t then Own(trace, t) + [e] else Own(trace, t)
  {
    assert (trace + [e])[..|trace|] == trace;
  }

  /** No task is out of order with itself. */
  ghost predicate EachInOrder(trace: seq<Deed>)
  {
    forall i, j :: 0 <= i < j < |trace| && trace[i].t == trace[j].t ==> !Out(trace[i], trace[j])
  }

  lemma {:induction false} InsertOwn(trace: seq<Deed>, e: Deed, t: nat)
    requires forall f :: f in trace && f.t == e.t ==> !Out(f, e)
    ensures Own(Insert(trace, e), t) == Own(trace + [e], t)
  {
    OwnNext(trace, e, t);
    if trace != [] && Out(trace[|trace| - 1], e) {
      var front, f := trace[..|trace| - 1], trace[|trace| - 1];
      assert f in trace;
      InsertOwn(front, e, t);
      OwnNext(front, e, t);
      OwnNext(Insert(front, e), f, t);
    }
  }

  lemma {:induction false} SortOwn(trace: seq<Deed>, t: nat)
    requires EachInOrder(trace)
    ensures Own(Sort(trace), t) == Own(trace, t)
  {
    if trace != [] {
      var front, e := trace[..|trace| - 1], trace[|trace| - 1];
      SortOwn(front, t);
      forall f | f in Sort(front) && f.t == e.t ensures !Out(f, e) {
        MemberOf(front, f);
        var i :| 0 <= i < |front| && front[i] == f;
        assert trace[i] == f;
      }
      InsertOwn(Sort(front), e, t);
      OwnNext(Sort(front), e, t);
    }
  }

  /**
   A trace in which only commuting operations are out of order has a sorted counterpart that leads
   from the same memory to the same memory and in which every task does and sees the same.
   */
  lemma Rearrange<S(!new)>(effect: Effect<S>, s: S, trace: seq<Deed>, s': S)
    requires Leads(effect, s, trace, s') && Sortable(effect, trace) && EachInOrder(trace)
    ensures Sorted(Sort(trace)) && Leads(effect, s, Sort(trace), s')
    ensures forall t: nat :: Own(Sort(trace), t) == Own(trace, t)
  {
    SortSorted(trace);
    SortLeads(effect, s, trace, s');
    forall t: nat ensures Own(Sort(trace), t) == Own(trace, t) { SortOwn(trace, t); }
  }
}
