/** One kind of memory: numbers, one for each plain resource and one for each index of a field. */
module CellMemory {
  import opened AccessPolicy
  import opened AccessMeaning
  import opened ResourceUsers
  import FieldResource
  import opened Traces

  /** `place` is the index in a field, and no index for a plain resource. */
  datatype Cell = Cell(resource: Resource, place: Use)

  type Cells = map<Cell, int>

  function Get(m: Cells, c: Cell): (v: int) { if c in m then m[c] else 0 }

  /** A mode together with an area, as field guards declare it. */
  predicate IsField(p: Policy)
  {
    match p
    case Combine(And, IO(_), Array(And, area)) => FieldResource.IsBox(area)
    case _ => false
  }

  /** The operation is on one cell, in one mode. */
  predicate OnCell(o: Operation)
  {
    match o.use
    case Mode(_) => o.resource.proto.IO?
    case Both(Mode(_), All(_)) => IsField(o.resource.proto)
    case _ => false
  }

  function CellOf(o: Operation): (c: Cell)
    requires OnCell(o)
  {
    Cell(o.resource, if o.use.Both? then o.use.second else All([]))
  }

  function ModeOf(o: Operation): (m: Mode)
    requires OnCell(o)
  {
    if o.use.Both? then o.use.first.mode else o.use.mode
  }

  function NewValue(o: Operation, v: int): (v': int)
    requires OnCell(o)
  {
    match ModeOf(o)
    case Write => o.arg
    case AtomicAdd => v + o.arg
    case AtomicMul => v * o.arg
    case Read => v
  }

  /** Reading, writing, atomic addition and multiplication of cells; other operations do nothing. */
  function CellEffect(m: Cells, o: Operation): (result: (Cells, int))
  {
    if !OnCell(o) then (m, 0)
    else
      var v := Get(m, CellOf(o));
      (m[CellOf(o) := NewValue(o, v)], if ModeOf(o) == Read then v else 0)
  }

  lemma CellsApart(a: Operation, b: Operation)
    requires OnCell(a) && OnCell(b) && CellOf(a) != CellOf(b)
    ensures Commute(CellEffect, a, b)
  {
    forall m: Cells ensures CommuteAt(CellEffect, a, b, m) {
      UpdatesApart(m, CellOf(a), NewValue(a, Get(m, CellOf(a))), CellOf(b), NewValue(b, Get(m, CellOf(b))));
    }
  }

  lemma UpdatesApart(m: Cells, c: Cell, v: int, d: Cell, w: int)
    requires c != d
    ensures m[c := v][d := w] == m[d := w][c := v]
  {
  }

  lemma UpdateTwice(m: Cells, c: Cell, v: int, w: int)
    ensures m[c := v][c := w] == m[c := w]
  {
  }

  lemma NewValuesSwap(a: Operation, b: Operation, v: int)
    requires OnCell(a) && OnCell(b) && ModeOf(a) == ModeOf(b) && ModeOf(a) != Write
    ensures NewValue(b, NewValue(a, v)) == NewValue(a, NewValue(b, v))
    ensures ModeOf(a) == Read ==> NewValue(a, v) == v
  {
    if ModeOf(a) == AtomicMul { assert v * a.arg * b.arg == v * b.arg * a.arg; }
  }

  lemma SameCell(a: Operation, b: Operation)
    requires OnCell(a) && OnCell(b) && CellOf(a) == CellOf(b) && ModeOf(a) == ModeOf(b) && ModeOf(a) != Write
    ensures Commute(CellEffect, a, b)
  {
    forall m: Cells ensures CommuteAt(CellEffect, a, b, m) {
      var c, v := CellOf(a), Get(m, CellOf(a));
      NewValuesSwap(a, b, v);
      NewValuesSwap(b, a, v);
      UpdateTwice(m, c, NewValue(a, v), NewValue(b, NewValue(a, v)));
      UpdateTwice(m, c, NewValue(b, v), NewValue(a, NewValue(b, v)));
    }
  }

  lemma OffCells(a: Operation, b: Operation)
    requires !OnCell(a) || !OnCell(b)
    ensures Commute(CellEffect, a, b)
  {
    forall m: Cells ensures CommuteAt(CellEffect, a, b, m) {}
  }

  /** An index of a field clashes with itself. */
  lemma SameIndexClashes(area: seq<Policy>, place: Use)
    requires FieldResource.IsBox(area) && Admits(Top(Array(And, area)), place)
    ensures Clash(Array(And, area), place, place)
  {
    var us := place.uses;
    forall i | 0 <= i < |area| ensures Admits(Top(area[i]), us[i]) && Clash(area[i], us[i], us[i]) {
      assert Admits(Top(Array(And, area)).elems[i], us[i]);
    }
  }

  /** On one cell only equal modes do not clash, and not writing. */
  lemma ClashOnCell(a: Operation, b: Operation)
    requires Proper(a) && Proper(b) && !Clashing(a, b) && OnCell(a) && OnCell(b) && CellOf(a) == CellOf(b)
    ensures ModeOf(a) == ModeOf(b) && ModeOf(a) != Write
  {
    var p := a.resource.proto;
    if p.Combine? {
      SameIndexClashes(p.second.elems, a.use.second);
      assert p == Combine(And, p.first, Array(And, p.second.elems));
      assert a.use == Both(a.use.first, a.use.second) && b.use == Both(b.use.first, a.use.second);
      assert !Clash(p.first, a.use.first, b.use.first);
    }
  }

  /** Such a memory does what the access policies take it to do, the atomic modes and field areas included. */
  lemma CellsRespect()
    ensures Respects(CellEffect)
  {
    forall a: Operation, b: Operation {:trigger Commute(CellEffect, a, b)} | Proper(a) && Proper(b) && !Clashing(a, b)
      ensures Commute(CellEffect, a, b)
    {
      if !OnCell(a) || !OnCell(b) {
        OffCells(a, b);
      } else if CellOf(a) != CellOf(b) {
        CellsApart(a, b);
      } else {
        ClashOnCell(a, b);
        SameCell(a, b);
      }
    }
  }

  // ------------------------------------------------------------ what a later read returns

  lemma {:induction false} FinalOfBoth<S>(effect: Effect<S>, s: S, a: seq<Deed>, b: seq<Deed>)
    ensures Final(effect, s, a + b) == Final(effect, Final(effect, s, a), b)
  {
    if b == [] {
      assert a + b == a;
    } else {
      assert (a + b)[..|a + b| - 1] == a + b[..|b| - 1];
      FinalOfBoth(effect, s, a, b[..|b| - 1]);
    }
  }

  predicate OpOn(o: Operation, c: Cell, mode: Mode)
  {
    OnCell(o) && CellOf(o) == c && ModeOf(o) == mode
  }

  /** Among the deeds, what concerns the cell is in the given mode, or reads. */
  predicate OnlyMode(deeds: seq<Deed>, c: Cell, mode: Mode)
  {
    forall i :: 0 <= i < |deeds| && OnCell(deeds[i].op) && CellOf(deeds[i].op) == c ==>
                  ModeOf(deeds[i].op) == mode || ModeOf(deeds[i].op) == Read
  }

  /** The numbers added to the cell. */
  function Added(deeds: seq<Deed>, c: Cell): (n: int)
  {
    if deeds == [] then 0
    else Added(deeds[1..], c) + (if OpOn(deeds[0].op, c, AtomicAdd) then deeds[0].op.arg else 0)
  }

  /** The product of the numbers the cell is multiplied by. */
  function Multiplied(deeds: seq<Deed>, c: Cell): (n: int)
  {
    if deeds == [] then 1
    else Multiplied(deeds[1..], c) * (if OpOn(deeds[0].op, c, AtomicMul) then deeds[0].op.arg else 1)
  }

  lemma FirstDeed(m: Cells, deeds: seq<Deed>)
    requires deeds != []
    ensures Final(CellEffect, m, deeds) == Final(CellEffect, CellEffect(m, deeds[0].op).0, deeds[1..])
  {
    assert deeds == [deeds[0]] + deeds[1..];
    FinalOfBoth(CellEffect, m, [deeds[0]], deeds[1..]);
    assert [deeds[0]][..0] == [];
  }

  lemma {:induction false} SumAfter(m: Cells, deeds: seq<Deed>, c: Cell)
    requires OnlyMode(deeds, c, AtomicAdd)
    ensures Get(Final(CellEffect, m, deeds), c) == Get(m, c) + Added(deeds, c)
    decreases |deeds|
  {
    if deeds != [] {
      FirstDeed(m, deeds);
      SumAfter(CellEffect(m, deeds[0].op).0, deeds[1..], c);
    }
  }

  lemma {:induction false} ProductAfter(m: Cells, deeds: seq<Deed>, c: Cell)
    requires OnlyMode(deeds, c, AtomicMul)
    ensures Get(Final(CellEffect, m, deeds), c) == Get(m, c) * Multiplied(deeds, c)
    decreases |deeds|
  {
    if deeds != [] {
      var v, n := Get(m, c), Multiplied(deeds[1..], c);
      FirstDeed(m, deeds);
      ProductAfter(CellEffect(m, deeds[0].op).0, deeds[1..], c);
      if OpOn(deeds[0].op, c, AtomicMul) { Regroup(v, deeds[0].op.arg, n); }
    }
  }

  lemma Regroup(v: int, a: int, n: int)
    ensures v * a * n == v * (n * a)
  {
  }

  /** The `j`-th deed is the latest write to the cell before the `k`-th, and only `mode` came since. */
  predicate WrittenLast(trace: seq<Deed>, j: nat, k: nat, c: Cell, mode: Mode)
  {
    j < k < |trace| && OpOn(trace[j].op, c, Write) && OnlyMode(trace[j + 1..k], c, mode)
  }

  lemma ValueSince(m: Cells, trace: seq<Deed>, j: nat, k: nat)
    requires j < k < |trace|
    ensures var written := CellEffect(Final(CellEffect, m, trace[..j]), trace[j].op).0;
            Final(CellEffect, m, trace[..k]) == Final(CellEffect, written, trace[j + 1..k])
  {
    assert trace[..k] == trace[..j] + trace[j..k];
    FinalOfBoth(CellEffect, m, trace[..j], trace[j..k]);
    FirstDeed(Final(CellEffect, m, trace[..j]), trace[j..k]);
    assert trace[j..k][1..] == trace[j + 1..k];
  }

  /**
   What a read in a trace answers: the value written last, with what was added to the cell since, or times
   what it was multiplied by since.
   */
  lemma ReadAnswersLastWrite(m: Cells, trace: seq<Deed>, j: nat, k: nat, c: Cell)
    requires Answered(CellEffect, m, trace) && k < |trace| && OpOn(trace[k].op, c, Read)
    ensures WrittenLast(trace, j, k, c, Read) ==> trace[k].answer == trace[j].op.arg
    ensures WrittenLast(trace, j, k, c, AtomicAdd) ==>
              trace[k].answer == trace[j].op.arg + Added(trace[j + 1..k], c)
    ensures WrittenLast(trace, j, k, c, AtomicMul) ==>
              trace[k].answer == trace[j].op.arg * Multiplied(trace[j + 1..k], c)
  {
    AnsweredAt(CellEffect, m, trace, k);
    if j < k && OpOn(trace[j].op, c, Write) {
      var written := CellEffect(Final(CellEffect, m, trace[..j]), trace[j].op).0;
      var since := trace[j + 1..k];
      ValueSince(m, trace, j, k);
      if OnlyMode(since, c, AtomicAdd) { SumAfter(written, since, c); }
      if OnlyMode(since, c, AtomicMul) { ProductAfter(written, since, c); }
      if OnlyMode(since, c, Read) { SumAfter(written, since, c); NothingAdded(since, c); }
    }
  }

  lemma {:induction false} NothingAdded(deeds: seq<Deed>, c: Cell)
    requires OnlyMode(deeds, c, Read)
    ensures Added(deeds, c) == 0
    decreases |deeds|
  {
    if deeds != [] { NothingAdded(deeds[1..], c); }
  }
}
