/**
 Polling outstanding message requests. Three vectors hold a request, its event and its status cell
 at the same position; completed entries are erased one by one while the remaining completed
 indices are shifted.
 */
module RequestPool {
  import opened Common

  type Request = nat
  type Event = nat
  type Cell = nat

  ghost predicate Increasing(s: seq<nat>)
  {
    forall i, j :: 0 <= i < j < |s| ==> s[i] < s[j]
  }

  /** The elements of `s` at the given positions. */
  ghost function Pick(s: seq<nat>, keep: seq<nat>): (r: seq<nat>)
    requires forall k :: 0 <= k < |keep| ==> keep[k] < |s|
  {
    seq(|keep|, k requires 0 <= k < |keep| => s[keep[k]])
  }

  /** `keep` lists the positions below `n` that are not among the completed ones, in order. */
  ghost predicate Incomplete(keep: seq<nat>, n: nat, completed: seq<nat>)
  {
    Increasing(keep) && forall x :: x in keep <==> 0 <= x < n && x !in completed
  }

  lemma InRange(keep: seq<nat>, n: nat, completed: seq<nat>)
    requires Incomplete(keep, n, completed)
    ensures forall k :: 0 <= k < |keep| ==> keep[k] < n
  {
    forall k | 0 <= k < |keep| ensures keep[k] < n { assert keep[k] in keep; }
  }

  function Erase<T>(s: seq<T>, i: nat): (r: seq<T>)
    requires i < |s|
  {
    s[..i] + s[i + 1..]
  }

  lemma ErasePick(s: seq<nat>, keep: seq<nat>, i: nat)
    requires i < |keep| && forall k :: 0 <= k < |keep| ==> keep[k] < |s|
    ensures forall k :: 0 <= k < |Erase(keep, i)| ==> Erase(keep, i)[k] < |s|
    ensures Erase(Pick(s, keep), i) == Pick(s, Erase(keep, i))
  {
  }

  /** Erasing the position of one more completed entry. */
  lemma EraseCompleted(keep: seq<nat>, n: nat, completed: seq<nat>, i: nat)
    requires Incomplete(keep, n, completed) && i < |keep|
    ensures Incomplete(Erase(keep, i), n, completed + [keep[i]])
  {
    var keep', done := Erase(keep, i), completed + [keep[i]];
    forall x ensures x in keep' <==> 0 <= x < n && x !in done {
      if x in keep && x != keep[i] {
        var k :| 0 <= k < |keep| && keep[k] == x;
        assert keep'[if k < i then k else k - 1] == x;
      }
      if x in keep' {
        var k :| 0 <= k < |keep'| && keep'[k] == x;
        assert x == keep[if k < i then k else k + 1];
      }
    }
  }

  function Identity(n: nat): (r: seq<nat>) { seq(n, k requires 0 <= k < n => k) }

  lemma NothingCompleted(n: nat)
    ensures Incomplete(Identity(n), n, [])
    ensures forall s: seq<nat> :: |s| == n ==> Pick(s, Identity(n)) == s
  {
    forall x | 0 <= x < n ensures x in Identity(n) { assert Identity(n)[x] == x; }
  }

  /** The remaining indices point at the remaining completed entries. */
  ghost predicate PointAt(indices: seq<nat>, keep: seq<nat>, completed: seq<nat>, i: nat)
  {
    |indices| == |completed| && forall j :: i <= j < |completed| ==>
        indices[j] < |keep| && keep[indices[j]] == completed[j]
  }

  lemma ShiftKeepsPointing(indices: seq<nat>, indices': seq<nat>, keep: seq<nat>, completed: seq<nat>, i: nat)
    requires i < |completed| && PointAt(indices, keep, completed, i) && Distinct(completed) && |indices'| == |indices|
    requires forall j :: 0 <= j < |indices| ==>
                           indices'[j] == if j >= i && indices[j] > indices[i] then indices[j] - 1 else indices[j]
    ensures PointAt(indices', Erase(keep, indices[i]), completed, i + 1)
  {
  }

  lemma PickOneMore(s: seq<nat>, completed: seq<nat>, i: nat)
    requires i < |completed| && forall k :: 0 <= k < |completed| ==> completed[k] < |s|
    ensures Pick(s, completed[..i + 1]) == Pick(s, completed[..i]) + [s[completed[i]]]
  {
  }

  /** Lower the indices behind the erased one. */
  method ShiftDown(indices: seq<nat>, i: nat, idx: nat) returns (r: seq<nat>)
    requires i <= |indices|
    ensures |r| == |indices|
    ensures forall j :: 0 <= j < |r| ==> r[j] == if j >= i && indices[j] > idx then indices[j] - 1 else indices[j]
  {
    r := indices;
    for j := i to |indices|
      invariant |r| == |indices|
      invariant forall k :: 0 <= k < |r| ==>
              r[k] == if i <= k < j && indices[k] > idx then indices[k] - 1 else indices[k]
    {
      if r[j] > idx { r := r[j := r[j] - 1]; }
    }
  }

  class RequestPool {
    var requests: seq<Request>
    var events: seq<Event>
    var statuses: seq<Cell>
    var cells: map<Cell, int>   // contents of the status cells
    var notified: seq<Event>

    predicate Valid()
      reads this
    {
      |requests| == |events| == |statuses|
    }

    constructor ()
      ensures Valid() && requests == [] && notified == []
    {
      requests, events, statuses, cells, notified := [], [], [], map[], [];
    }

    /** Register a request with its event and status cell. */
    method Add(request: Request, event: Event, cell: Cell)
      requires Valid()
      modifies this`requests, this`events, this`statuses
      ensures Valid() && requests == old(requests) + [request]
      ensures events == old(events) + [event] && statuses == old(statuses) + [cell]
    {
      requests, events, statuses := requests + [request], events + [event], statuses + [cell];
    }

    /** Write the status of the entry at `idx`, notify its event and erase it from the three vectors. */
    method Complete(idx: nat, status: int)
      requires Valid() && idx < |requests|
      modifies this
      ensures Valid() && requests == Erase(old(requests), idx) && events == Erase(old(events), idx)
      ensures statuses == Erase(old(statuses), idx)
      ensures cells == old(cells)[old(statuses)[idx] := status] && notified == old(notified) + [old(events)[idx]]
    {
      cells := cells[statuses[idx] := status];
      notified := notified + [events[idx]];
      requests, statuses, events := Erase(requests, idx), Erase(statuses, idx), Erase(events, idx);
    }

    /** What polling has done after the first `i` completed entries. */
    ghost predicate Polled(keep: seq<nat>, r0: seq<Request>, e0: seq<Event>, s0: seq<Cell>, completed: seq<nat>)
      requires |r0| == |e0| == |s0|
      reads this
    {
      && Incomplete(keep, |r0|, completed)
      && (forall k :: 0 <= k < |keep| ==> keep[k] < |r0|)
      && requests == Pick(r0, keep) && events == Pick(e0, keep) && statuses == Pick(s0, keep)
    }

    /** Deal with the completed entry that stands at `idx` now. */
    method PollOne(idx: nat, status: int, ghost keep: seq<nat>, ghost r0: seq<Request>, ghost e0: seq<Event>,
                   ghost s0: seq<Cell>, ghost completed: seq<nat>)
      requires |r0| == |e0| == |s0| && Valid() && Polled(keep, r0, e0, s0, completed) && idx < |keep|
      modifies this
      ensures Valid() && Polled(Erase(keep, idx), r0, e0, s0, completed + [keep[idx]])
      ensures cells == old(cells)[s0[keep[idx]] := status] && notified == old(notified) + [e0[keep[idx]]]
    {
      EraseCompleted(keep, |r0|, completed, idx);
      ErasePick(r0, keep, idx);
      ErasePick(e0, keep, idx);
      ErasePick(s0, keep, idx);
      Complete(idx, status);
    }

    /** Deal with the `i`-th completed entry, and adjust the indices behind it. */
    method PollNext(i: nat, indices: seq<nat>, status: int, ghost keep: seq<nat>, ghost r0: seq<Request>,
                    ghost e0: seq<Event>, ghost s0: seq<Cell>, ghost completed: seq<nat>)
      returns (indices': seq<nat>, ghost keep': seq<nat>)
      requires |r0| == |e0| == |s0| && Valid() && i < |completed| && Distinct(completed)
      requires forall k :: 0 <= k < |completed| ==> completed[k] < |e0|
      requires Polled(keep, r0, e0, s0, completed[..i]) && PointAt(indices, keep, completed, i)
      modifies this
      ensures Valid() && Polled(keep', r0, e0, s0, completed[..i + 1]) && PointAt(indices', keep', completed, i + 1)
      ensures cells == old(cells)[s0[completed[i]] := status] && notified == old(notified) + [e0[completed[i]]]
    {
      var idx := indices[i];
      PollOne(idx, status, keep, r0, e0, s0, completed[..i]);
      indices' := ShiftDown(indices, i, idx);
      ShiftKeepsPointing(indices, indices', keep, completed, i);
      assert completed[..i + 1] == completed[..i] + [keep[idx]];
      keep' := Erase(keep, idx);
    }

    /**
     Poll with the answer of the message library: the positions of the completed requests, in any
     order, each with its status. `keep` are the positions of the others.
     */
    method Poll(completed: seq<nat>, results: seq<int>) returns (ghost keep: seq<nat>)
      requires Valid() && |results| == |completed| && Distinct(completed)
      requires forall i :: 0 <= i < |completed| ==> completed[i] < |requests|
      modifies this
      ensures Valid() && Polled(keep, old(requests), old(events), old(statuses), completed)
      ensures notified == old(notified) + Pick(old(events), completed)
      ensures cells == Written(old(cells), old(statuses), completed, results, |completed|)
    {
      ghost var r0, e0, s0 := requests, events, statuses;
      keep := Identity(|requests|);
      NothingCompleted(|requests|);
      var indices: seq<nat> := completed;
      var i := 0;
      assert completed[..0] == [];
      while i < |completed|
        invariant 0 <= i <= |completed| && Valid()
        invariant Polled(keep, r0, e0, s0, completed[..i]) && PointAt(indices, keep, completed, i)
        invariant notified == old(notified) + Pick(e0, completed[..i])
        invariant cells == Written(old(cells), s0, completed, results, i)
      {
        PickOneMore(e0, completed, i);
        indices, keep := PollNext(i, indices, results[i], keep, r0, e0, s0, completed);
        i := i + 1;
      }
      assert completed[..i] == completed;
    }
  }

  /** The status cells after the first `i` completed entries were written. */
  ghost function Written(cells: map<Cell, int>, statuses: seq<Cell>, completed: seq<nat>, results: seq<int>,
                         i: nat): (r: map<Cell, int>)
    requires i <= |completed| == |results| && forall k :: 0 <= k < |completed| ==> completed[k] < |statuses|
  {
    if i == 0 then cells
    else Written(cells, statuses, completed, results, i - 1)[statuses[completed[i - 1]] := results[i - 1]]
  }

  /**
   With a cell of its own for every request, each completed request gets its own status, and no other cell
   changes.
   */
  lemma {:induction false} OwnStatus(cells: map<Cell, int>, statuses: seq<Cell>, completed: seq<nat>,
                                     results: seq<int>, i: nat, x: nat)
    requires i <= |completed| == |results| && forall k :: 0 <= k < |completed| ==> completed[k] < |statuses|
    requires Distinct(completed) && Distinct(statuses) && x < |statuses|
    ensures var w := Written(cells, statuses, completed, results, i);
            && (forall k :: 0 <= k < i && completed[k] == x ==> statuses[x] in w && w[statuses[x]] == results[k])
            && (x !in completed[..i] ==> (statuses[x] in w <==> statuses[x] in cells)
                                         && (statuses[x] in w ==> w[statuses[x]] == cells[statuses[x]]))
  {
    if i > 0 {
      OwnStatus(cells, statuses, completed, results, i - 1, x);
      assert completed[..i] == completed[..i - 1] + [completed[i - 1]];
    }
  }
}
