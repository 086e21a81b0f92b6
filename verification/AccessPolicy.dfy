/**
 The access-policy algebra: how two accesses to one resource relate.
 A policy is an arbitrarily nested tree of read/write modes, index intervals,
 arrays and pairs, the latter two joined by `And` or `Or`.
 */
module AccessPolicy {

  const SIZE_MAX: int := 0xFFFF_FFFF_FFFF_FFFF

  /** The machine type of interval bounds. */
  type SizeT = x: int | 0 <= x <= SIZE_MAX

  datatype Mode = Write | Read | AtomicAdd | AtomicMul

  datatype Op = And | Or

  datatype Policy =
    | IO(mode: Mode)
    | Area(begin: SizeT, end: SizeT)
    | Array(op: Op, elems: seq<Policy>)
    | Combine(op: Op, first: Policy, second: Policy)

  /** Two values inhabit the same policy type: same tree, array lengths and tags. */
  predicate SameType(p: Policy, q: Policy)
  {
    match (p, q)
    case (IO(_), IO(_)) => true
    case (Area(_, _), Area(_, _)) => true
    case (Array(o, xs), Array(o', ys)) =>
      o == o' && |xs| == |ys| && forall i :: 0 <= i < |xs| ==> SameType(xs[i], ys[i])
    case (Combine(o, a, b), Combine(o', a', b')) => o == o' && SameType(a, a') && SameType(b, b')
    case _ => false
  }

  /** The two accesses have to happen in order. */
  predicate IsSerial(p: Policy, q: Policy)
    requires SameType(p, q)
  {
    match (p, q)
    case (IO(m), IO(m')) =>
      !((m == Read && m' == Read) || (m == AtomicAdd && m' == AtomicAdd) || (m == AtomicMul && m' == AtomicMul))
    case (Area(b, e), Area(b', e')) => e > b' && b < e'
    case (Array(Or, xs), Array(_, ys)) => exists i :: 0 <= i < |xs| && IsSerial(xs[i], ys[i])
    case (Array(And, xs), Array(_, ys)) => forall i :: 0 <= i < |xs| ==> IsSerial(xs[i], ys[i])
    case (Combine(And, a, b), Combine(_, a', b')) => IsSerial(a, a') && IsSerial(b, b')
    case (Combine(Or, a, b), Combine(_, a', b')) => IsSerial(a, a') || IsSerial(b, b')
  }

  predicate IsSupersetOf(p: Policy, q: Policy)
    requires SameType(p, q)
  {
    match (p, q)
    case (IO(m), IO(m')) => m == Write || m == m'
    case (Area(b, e), Area(b', e')) => b <= b' && e >= e'
    case (Array(_, xs), Array(_, ys)) => forall i :: 0 <= i < |xs| ==> IsSupersetOf(xs[i], ys[i])
    case (Combine(_, a, b), Combine(_, a', b')) => IsSupersetOf(a, a') && IsSupersetOf(b, b')
  }

  predicate IsSynchronizing(p: Policy)
  {
    match p
    case IO(m) => m == Write
    case Area(b, e) => b == 0 && e == SIZE_MAX
    case Array(_, xs) => forall i :: 0 <= i < |xs| ==> IsSynchronizing(xs[i])
    case Combine(_, a, b) => IsSynchronizing(a) && IsSynchronizing(b)
  }

  // ---------------------------------------------------------------- typing

  lemma {:induction false} SameTypeReflexive(p: Policy)
    ensures SameType(p, p)
  {
    match p
    case Array(_, xs) =>
      forall i | 0 <= i < |xs| ensures SameType(xs[i], xs[i]) { SameTypeReflexive(xs[i]); }
    case Combine(_, a, b) => SameTypeReflexive(a); SameTypeReflexive(b);
    case _ =>
  }

  lemma {:induction false} SameTypeSymmetric(p: Policy, q: Policy)
    requires SameType(p, q)
    ensures SameType(q, p)
  {
    match (p, q)
    case (Array(_, xs), Array(_, ys)) =>
      forall i | 0 <= i < |xs| ensures SameType(ys[i], xs[i]) { SameTypeSymmetric(xs[i], ys[i]); }
    case (Combine(_, a, b), Combine(_, a', b')) => SameTypeSymmetric(a, a'); SameTypeSymmetric(b, b');
    case _ =>
  }

  lemma {:induction false} SameTypeTransitive(p: Policy, q: Policy, r: Policy)
    requires SameType(p, q) && SameType(q, r)
    ensures SameType(p, r)
  {
    match (p, q, r)
    case (Array(_, xs), Array(_, ys), Array(_, zs)) =>
      forall i | 0 <= i < |xs| ensures SameType(xs[i], zs[i]) { SameTypeTransitive(xs[i], ys[i], zs[i]); }
    case (Combine(_, a, b), Combine(_, a', b'), Combine(_, a'', b'')) =>
      SameTypeTransitive(a, a', a'');
      SameTypeTransitive(b, b', b'');
    case _ =>
  }

  // ---------------------------------------------------------------- laws

  lemma {:induction false} SerialSymmetric(p: Policy, q: Policy)
    requires SameType(p, q) && SameType(q, p)
    ensures IsSerial(p, q) <==> IsSerial(q, p)
  {
    match (p, q)
    case (Array(_, xs), Array(_, ys)) =>
      forall i | 0 <= i < |xs| ensures IsSerial(xs[i], ys[i]) <==> IsSerial(ys[i], xs[i]) {
        SerialSymmetric(xs[i], ys[i]);
      }
    case (Combine(_, a, b), Combine(_, a', b')) => SerialSymmetric(a, a'); SerialSymmetric(b, b');
    case _ =>
  }

  lemma {:induction false} SupersetReflexive(p: Policy)
    requires SameType(p, p)
    ensures IsSupersetOf(p, p)
  {
    match p
    case Array(_, xs) =>
      forall i | 0 <= i < |xs| ensures IsSupersetOf(xs[i], xs[i]) { SupersetReflexive(xs[i]); }
    case Combine(_, a, b) => SupersetReflexive(a); SupersetReflexive(b);
    case _ =>
  }

  lemma {:induction false} SupersetTransitive(p: Policy, q: Policy, r: Policy)
    requires SameType(p, q) && SameType(q, r) && SameType(p, r)
    requires IsSupersetOf(p, q) && IsSupersetOf(q, r)
    ensures IsSupersetOf(p, r)
  {
    match (p, q, r)
    case (Array(_, xs), Array(_, ys), Array(_, zs)) =>
      forall i | 0 <= i < |xs| ensures IsSupersetOf(xs[i], zs[i]) { SupersetTransitive(xs[i], ys[i], zs[i]); }
    case (Combine(_, a, b), Combine(_, a', b'), Combine(_, a'', b'')) =>
      SupersetTransitive(a, a', a'');
      SupersetTransitive(b, b', b'');
    case _ =>
  }

  /** Widening one side never loses an ordering constraint. */
  lemma {:induction false} SerialMonotone(p: Policy, q: Policy, other: Policy)
    requires SameType(p, q) && SameType(q, other) && SameType(p, other)
    requires IsSupersetOf(p, q) && IsSerial(q, other)
    ensures IsSerial(p, other)
  {
    match (p, q, other)
    case (Array(And, xs), Array(_, ys), Array(_, zs)) =>
      forall i | 0 <= i < |xs| ensures IsSerial(xs[i], zs[i]) { SerialMonotone(xs[i], ys[i], zs[i]); }
    case (Array(Or, xs), Array(_, ys), Array(_, zs)) =>
      var i :| 0 <= i < |ys| && IsSerial(ys[i], zs[i]);
      SerialMonotone(xs[i], ys[i], zs[i]);
    case (Combine(_, a, b), Combine(_, a', b'), Combine(_, a'', b'')) =>
      if IsSerial(a', a'') { SerialMonotone(a, a', a''); }
      if IsSerial(b', b'') { SerialMonotone(b, b', b''); }
    case _ =>
  }

  /** The widest policy of the type of `p`. */
  function Top(p: Policy): (r: Policy)
    ensures SameType(r, p) && IsSynchronizing(r)
  {
    match p
    case IO(_) => IO(Write)
    case Area(_, _) => Area(0, SIZE_MAX)
    case Array(o, xs) => Array(o, seq(|xs|, i requires 0 <= i < |xs| => Top(xs[i])))
    case Combine(o, a, b) => Combine(o, Top(a), Top(b))
  }

  lemma {:induction false} SynchronizingCovers(s: Policy, p: Policy)
    requires SameType(s, p) && IsSynchronizing(s)
    ensures IsSupersetOf(s, p)
  {
    match (s, p)
    case (Array(_, xs), Array(_, ys)) =>
      forall i | 0 <= i < |xs| ensures IsSupersetOf(xs[i], ys[i]) { SynchronizingCovers(xs[i], ys[i]); }
    case (Combine(_, a, b), Combine(_, a', b')) => SynchronizingCovers(a, a'); SynchronizingCovers(b, b');
    case _ =>
  }

  lemma {:induction false} CoversSynchronizing(s: Policy, t: Policy)
    requires SameType(s, t) && IsSynchronizing(t) && IsSupersetOf(s, t)
    ensures IsSynchronizing(s)
  {
    match (s, t)
    case (Array(_, xs), Array(_, ys)) =>
      forall i | 0 <= i < |xs| ensures IsSynchronizing(xs[i]) { CoversSynchronizing(xs[i], ys[i]); }
    case (Combine(_, a, b), Combine(_, a', b')) => CoversSynchronizing(a, a'); CoversSynchronizing(b, b');
    case _ =>
  }

  ghost predicate IsTop(s: Policy)
  {
    forall p :: SameType(s, p) ==> IsSupersetOf(s, p)
  }

  /** A policy is synchronizing exactly when it is the top of the superset order of its type. */
  lemma SynchronizingIsTop(s: Policy)
    ensures IsSynchronizing(s) <==> IsTop(s)
  {
    if IsSynchronizing(s) {
      forall p | SameType(s, p) ensures IsSupersetOf(s, p) { SynchronizingCovers(s, p); }
    } else {
      SameTypeSymmetric(Top(s), s);
      if IsTop(s) {
        assert IsSupersetOf(s, Top(s));
        CoversSynchronizing(s, Top(s));
      }
    }
  }

  /** Whatever conflicts with anything conflicts with every synchronizing access. */
  lemma SynchronizingOrdersAll(s: Policy, p: Policy, q: Policy)
    requires SameType(p, q) && SameType(p, s)
    requires IsSynchronizing(s) && IsSerial(p, q)
    ensures IsSerial(p, s)
  {
    SameTypeSymmetric(p, s);
    SameTypeSymmetric(p, q);
    SameTypeTransitive(s, p, q);
    SynchronizingCovers(s, q);
    SerialSymmetric(p, q);
    SerialMonotone(s, q, p);
    SerialSymmetric(p, s);
  }

  /** The same law read the other way: not serial with one synchronizing access, serial with nothing. */
  lemma SilentAccess(s: Policy, p: Policy)
    requires SameType(p, s) && IsSynchronizing(s) && !IsSerial(p, s)
    ensures forall q :: SameType(p, q) ==> !IsSerial(p, q)
  {
    forall q | SameType(p, q) ensures !IsSerial(p, q) {
      if IsSerial(p, q) { SynchronizingOrdersAll(s, p, q); }
    }
  }

  // ------------------------------------------------- array loops as written

  /** The early-exit loops of the array policy, run element by element. */
  method ArrayIsSerial(op: Op, xs: seq<Policy>, ys: seq<Policy>) returns (b: bool)
    requires SameType(Array(op, xs), Array(op, ys))
    ensures b <==> IsSerial(Array(op, xs), Array(op, ys))
  {
    for i := 0 to |xs|
      invariant op == Or ==> forall j :: 0 <= j < i ==> !IsSerial(xs[j], ys[j])
      invariant op == And ==> forall j :: 0 <= j < i ==> IsSerial(xs[j], ys[j])
    {
      var e := IsSerial(xs[i], ys[i]);
      if op == Or && e { return true; }
      if op == And && !e { return false; }
    }
    return op == And;
  }

  method ArrayIsSupersetOf(op: Op, xs: seq<Policy>, ys: seq<Policy>) returns (b: bool)
    requires SameType(Array(op, xs), Array(op, ys))
    ensures b <==> IsSupersetOf(Array(op, xs), Array(op, ys))
  {
    for i := 0 to |xs|
      invariant forall j :: 0 <= j < i ==> IsSupersetOf(xs[j], ys[j])
    {
      if !IsSupersetOf(xs[i], ys[i]) { return false; }
    }
    return true;
  }

  method ArrayIsSynchronizing(op: Op, xs: seq<Policy>) returns (b: bool)
    ensures b <==> IsSynchronizing(Array(op, xs))
  {
    for i := 0 to |xs|
      invariant forall j :: 0 <= j < i ==> IsSynchronizing(xs[j])
    {
      if !IsSynchronizing(xs[i]) { return false; }
    }
    return true;
  }
}
