/** Serial equivalence for tasks that declare read/write and field accesses. */
module SerialPrograms {
  import opened AccessPolicy
  import opened ResourceUsers
  import opened EventGraph
  import opened TaskGraph
  import opened FieldResource
  import opened SerialEquivalence
  import opened SerialRuns

  predicate ModePermits(m: Mode, write: bool)
  {
    m.Write? || (m.Read? && !write)
  }

  /** What an access lets a body do: read/write one cell, or the cells of an area of a field. */
  predicate Permits(p: Policy, index: Index, write: bool)
  {
    match p
    case IO(m) => index == [] && ModePermits(m, write)
    case Combine(And, IO(m), Array(And, area)) => IsBox(area) && Contains(area, index) && ModePermits(m, write)
    case _ => false
  }

  predicate Declares(accesses: seq<Access>, x: Loc, write: bool)
  {
    exists i :: 0 <= i < |accesses| && accesses[i].resource == x.resource && Permits(accesses[i].policy, x.index, write)
  }

  /** The bodies `next` of the declared tasks. */
  function CodeOf(ds: seq<Decl>, next: (nat, seq<int>) -> Action): (r: Code)
  {
    Code(
      (t: nat, h: seq<int>) => if t < |ds| then next(t, h) else Stop,
      (t: nat, x: Loc) => t < |ds| && Declares(ds[t].accesses, x, false),
      (t: nat, x: Loc) => t < |ds| && Declares(ds[t].accesses, x, true))
  }

  /** Bodies do no more than their tasks declare. */
  ghost predicate Behaved(ds: seq<Decl>, next: (nat, seq<int>) -> Action)
  {
    forall t: nat, h {:trigger next(t, h)} :: t < |ds| ==>
      && (next(t, h).Read? ==> Declares(ds[t].accesses, next(t, h).x, false))
      && (next(t, h).Write? ==> Declares(ds[t].accesses, next(t, h).x, true))
  }

  lemma ClashIsSerial(p: Policy, q: Policy, index: Index, wp: bool, wq: bool)
    requires SameType(p, q) && Permits(p, index, wp) && Permits(q, index, wq) && (wp || wq)
    ensures IsSerial(p, q)
  {
    match (p, q)
    case (IO(_), IO(_)) =>
    case (Combine(And, IO(m), Array(And, a)), Combine(_, IO(m'), Array(_, b))) => FieldSoundness(m, m', a, b);
  }

  /** Declared uses of one location, one of them writing, make two tasks conflict. */
  lemma ClashIsConflict(a: seq<Access>, b: seq<Access>, x: Loc, wa: bool, wb: bool)
    requires WellTyped(a) && WellTyped(b) && Declares(a, x, wa) && Declares(b, x, wb) && (wa || wb)
    ensures UserIsSerial(a, b)
  {
    var i :| 0 <= i < |a| && a[i].resource == x.resource && Permits(a[i].policy, x.index, wa);
    var j :| 0 <= j < |b| && b[j].resource == x.resource && Permits(b[j].policy, x.index, wb);
    SameTypeSymmetric(b[j].policy, x.resource.proto);
    SameTypeTransitive(a[i].policy, x.resource.proto, b[j].policy);
    ClashIsSerial(a[i].policy, b[j].policy, x.index, wa, wb);
    assert AccessIsSerial(a[i], b[j]);
  }

  lemma WriteDeclaresRead(a: seq<Access>, x: Loc)
    requires Declares(a, x, true)
    ensures Declares(a, x, false)
  {
    var i :| 0 <= i < |a| && a[i].resource == x.resource && Permits(a[i].policy, x.index, true);
    assert Permits(a[i].policy, x.index, false);
  }

  lemma DeclaredCodeIsDisciplined(ds: seq<Decl>, next: (nat, seq<int>) -> Action)
    requires WellDeclared(ds) && Behaved(ds, next) && forall t :: 0 <= t < |ds| ==> ds[t].parent == -1
    ensures Disciplined(GraphOf(ds), CodeOf(ds, next))
  {
    var g, code := GraphOf(ds), CodeOf(ds, next);
    forall t: nat, x | code.writes(t, x) ensures code.touches(t, x) { WriteDeclaresRead(ds[t].accesses, x); }
    forall t: nat, h | code.next(t, h).Write? ensures code.writes(t, code.next(t, h).x) {
      assert next(t, h) == code.next(t, h);
    }
    forall t: nat, h | code.next(t, h).Read? ensures code.touches(t, code.next(t, h).x) {
      assert next(t, h) == code.next(t, h);
    }
    forall q: nat, t: nat, x {:trigger code.touches(q, x), code.touches(t, x)} |
      && q < t < |ds| && code.touches(q, x) && code.touches(t, x) && (code.writes(q, x) || code.writes(t, x))
      ensures g.conflict(q, t)
    {
      ClashIsConflict(ds[q].accesses, ds[t].accesses, x, code.writes(q, x), code.writes(t, x));
    }
  }

  /**
   For any list of tasks of one space whose bodies do only what their accesses declare, every
   complete run, whatever the interleaving, ends in the memory of the serial run.
   */
  lemma ProgramIsSerial(ds: seq<Decl>, next: (nat, seq<int>) -> Action, m0: Memory, run: seq<System>)
    returns (lengths: seq<nat>)
    requires WellDeclared(ds) && Behaved(ds, next) && forall t :: 0 <= t < |ds| ==> ds[t].parent == -1
    requires SystemRun(GraphOf(ds), CodeOf(ds, next), m0, run) && Complete(GraphOf(ds), run[|run| - 1])
    ensures |lengths| == |ds| && SerialRun(CodeOf(ds, next), m0, lengths)
    ensures forall other :: |other| == |ds| && SerialRun(CodeOf(ds, next), m0, other) ==> other == lengths
    ensures forall x :: Get(run[|run| - 1].mem, x) == Get(SerialMemory(CodeOf(ds, next), m0, lengths, |ds|), x)
  {
    var g, code := GraphOf(ds), CodeOf(ds, next);
    DeclaredGraphIsLawful(ds);
    DeclaredCodeIsDisciplined(ds, next);
    lengths := RunIsSerial(g, code, m0, run);
    forall other | |other| == |ds| && SerialRun(code, m0, other) ensures other == lengths {
      SerialRunUnique(code, m0, lengths, other);
    }
  }
}
