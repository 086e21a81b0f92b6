/**
 What an access policy stands for: the set of single uses it admits. A use picks a mode at each
 `IO` leaf and an index at each `Area` leaf. The relations of the policy algebra are compared with
 the relations on uses.
 */
module AccessMeaning {
  import opened AccessPolicy

  datatype Use =
    | Mode(mode: Mode)
    | At(index: SizeT)
    | All(uses: seq<Use>)
    | Both(first: Use, second: Use)

  predicate Admits(p: Policy, u: Use)
  {
    match (p, u)
    case (IO(m), Mode(m')) => m == Write || m == m'
    case (Area(b, e), At(i)) => b <= i < e
    case (Array(_, xs), All(us)) => |us| == |xs| && forall i :: 0 <= i < |xs| ==> Admits(xs[i], us[i])
    case (Combine(_, a, b), Both(u1, u2)) => Admits(a, u1) && Admits(b, u2)
    case _ => false
  }

  /** Two single uses of a resource of the type of `p` must not be swapped. */
  predicate Clash(p: Policy, u: Use, v: Use)
    requires Admits(Top(p), u) && Admits(Top(p), v)
  {
    match (p, u, v)
    case (IO(_), Mode(m), Mode(m')) => m != m' || m == Write
    case (Area(_, _), At(i), At(j)) => i == j
    case (Array(Or, xs), All(us), All(vs)) => exists i :: 0 <= i < |xs| && Clash(xs[i], us[i], vs[i])
    case (Array(And, xs), All(us), All(vs)) => forall i :: 0 <= i < |xs| ==> Clash(xs[i], us[i], vs[i])
    case (Combine(And, a, b), Both(u1, u2), Both(v1, v2)) => Clash(a, u1, v1) && Clash(b, u2, v2)
    case (Combine(Or, a, b), Both(u1, u2), Both(v1, v2)) => Clash(a, u1, v1) || Clash(b, u2, v2)
  }

  /** The policy has no empty interval, so it admits some use. */
  predicate Inhabited(p: Policy)
  {
    match p
    case IO(_) => true
    case Area(b, e) => b < e
    case Array(_, xs) => forall i :: 0 <= i < |xs| ==> Inhabited(xs[i])
    case Combine(_, a, b) => Inhabited(a) && Inhabited(b)
  }

  function SomeUse(p: Policy): (u: Use)
    requires Inhabited(p)
    ensures Admits(p, u)
  {
    match p
    case IO(m) => Mode(m)
    case Area(b, _) => At(b)
    case Array(_, xs) => All(seq(|xs|, i requires 0 <= i < |xs| => SomeUse(xs[i])))
    case Combine(_, a, b) => Both(SomeUse(a), SomeUse(b))
  }

  // ------------------------------------------------------------ superset is inclusion

  lemma {:induction false} SupersetSound(p: Policy, q: Policy, u: Use)
    requires SameType(p, q) && IsSupersetOf(p, q) && Admits(q, u)
    ensures Admits(p, u)
  {
    match (p, q, u)
    case (Array(_, xs), Array(_, ys), All(us)) =>
      forall i | 0 <= i < |xs| ensures Admits(xs[i], us[i]) { SupersetSound(xs[i], ys[i], us[i]); }
    case (Combine(_, a, b), Combine(_, a', b'), Both(u1, u2)) =>
      SupersetSound(a, a', u1);
      SupersetSound(b, b', u2);
    case _ =>
  }

  lemma {:induction false} Missed(p: Policy, q: Policy) returns (u: Use)
    requires SameType(p, q) && Inhabited(q) && !IsSupersetOf(p, q)
    ensures Admits(q, u) && !Admits(p, u)
  {
    match (p, q)
    case (IO(_), IO(m')) => u := Mode(m');
    case (Area(b, e), Area(b', e')) => u := At(if b' < b then b' else e' - 1);
    case (Array(_, xs), Array(_, ys)) =>
      var i :| 0 <= i < |xs| && !IsSupersetOf(xs[i], ys[i]);
      var v := Missed(xs[i], ys[i]);
      u := All(SomeUse(q).uses[i := v]);
    case (Combine(_, a, b), Combine(_, a', b')) =>
      if !IsSupersetOf(a, a') {
        var v := Missed(a, a');
        u := Both(v, SomeUse(b'));
      } else {
        var v := Missed(b, b');
        u := Both(SomeUse(a'), v);
      }
  }

  ghost predicate Includes(p: Policy, q: Policy)
  {
    forall u :: Admits(q, u) ==> Admits(p, u)
  }

  /** Superset means that every use of one is a use of the other, unless an interval is empty. */
  lemma SupersetMeansInclusion(p: Policy, q: Policy)
    requires SameType(p, q)
    ensures IsSupersetOf(p, q) ==> Includes(p, q)
    ensures Inhabited(q) ==> (IsSupersetOf(p, q) <==> Includes(p, q))
  {
    if IsSupersetOf(p, q) {
      forall u | Admits(q, u) ensures Admits(p, u) { SupersetSound(p, q, u); }
    } else if Inhabited(q) {
      var u := Missed(p, q);
    }
  }

  lemma WithinTop(p: Policy, q: Policy, u: Use)
    requires SameType(p, q) && Admits(q, u)
    ensures Admits(Top(p), u)
  {
    SameTypeSymmetric(p, q);
    SameTypeSymmetric(Top(p), p);
    SameTypeTransitive(q, p, Top(p));
    SameTypeSymmetric(q, Top(p));
    SynchronizingCovers(Top(p), q);
    SupersetSound(Top(p), q, u);
  }

  // ------------------------------------------------------------ serial is a possible clash

  /** Uses that clash only come from policies that are serial. */
  lemma {:induction false} SerialSound(p: Policy, q: Policy, u: Use, v: Use)
    requires SameType(p, q) && Admits(p, u) && Admits(q, v)
    requires Admits(Top(p), u) && Admits(Top(p), v) && Clash(p, u, v)
    ensures IsSerial(p, q)
  {
    match (p, q, u, v)
    case (Array(And, xs), Array(_, ys), All(us), All(vs)) =>
      forall i | 0 <= i < |xs| ensures IsSerial(xs[i], ys[i]) { SerialSound(xs[i], ys[i], us[i], vs[i]); }
    case (Array(Or, xs), Array(_, ys), All(us), All(vs)) =>
      var i :| 0 <= i < |xs| && Clash(xs[i], us[i], vs[i]);
      SerialSound(xs[i], ys[i], us[i], vs[i]);
    case (Combine(_, a, b), Combine(_, a', b'), Both(u1, u2), Both(v1, v2)) =>
      if Clash(a, u1, v1) { SerialSound(a, a', u1, v1); }
      if Clash(b, u2, v2) { SerialSound(b, b', u2, v2); }
    case _ =>
  }

  lemma TopSame(p: Policy, q: Policy, u: Use)
    requires SameType(p, q) && Admits(Top(p), u)
    ensures Admits(Top(q), u)
  {
    SameTypeSymmetric(p, q);
    SameTypeSymmetric(Top(p), p);
    SameTypeTransitive(q, p, Top(p));
    WithinTop(q, Top(p), u);
  }

  /** Whether uses clash depends on the policy type only. */
  lemma {:induction false} ClashSame(p: Policy, q: Policy, u: Use, v: Use)
    requires SameType(p, q) && Admits(Top(p), u) && Admits(Top(p), v) && Admits(Top(q), u) && Admits(Top(q), v)
    ensures Clash(p, u, v) <==> Clash(q, u, v)
  {
    match (p, q, u, v)
    case (Array(_, xs), Array(_, ys), All(us), All(vs)) =>
      forall i | 0 <= i < |xs| ensures Clash(xs[i], us[i], vs[i]) <==> Clash(ys[i], us[i], vs[i]) {
        ClashSame(xs[i], ys[i], us[i], vs[i]);
      }
    case (Combine(_, a, b), Combine(_, a', b'), Both(u1, u2), Both(v1, v2)) =>
      ClashSame(a, a', u1, v1);
      ClashSame(b, b', u2, v2);
    case _ =>
  }

  ghost predicate ClashPair(p: Policy, q: Policy, u: Use, v: Use)
  {
    Admits(p, u) && Admits(q, v) && Admits(Top(p), u) && Admits(Top(p), v) && Clash(p, u, v)
  }

  ghost predicate CanClash(p: Policy, q: Policy)
  {
    exists u, v :: ClashPair(p, q, u, v)
  }

  /** Some pair of uses, clashing or not. */
  lemma AnyPair(p: Policy, q: Policy)
    requires SameType(p, q) && Inhabited(p) && Inhabited(q)
    ensures Admits(Top(p), SomeUse(p)) && Admits(Top(p), SomeUse(q))
  {
    SameTypeReflexive(p);
    WithinTop(p, p, SomeUse(p));
    WithinTop(p, q, SomeUse(q));
  }

  /** Serial policies without empty intervals admit two uses that clash. */
  lemma {:induction false} Witnesses(p: Policy, q: Policy) returns (u: Use, v: Use)
    requires SameType(p, q) && Inhabited(p) && Inhabited(q) && IsSerial(p, q)
    ensures ClashPair(p, q, u, v)
  {
    match (p, q)
    case (IO(m), IO(m')) => u, v := Mode(m), Mode(m');
    case (Area(b, e), Area(b', e')) => u, v := At(if b < b' then b' else b), At(if b < b' then b' else b);
    case (Array(And, xs), Array(_, ys)) => u, v := ArrayWitnesses(xs, ys);
    case (Array(Or, xs), Array(_, ys)) =>
      var i :| 0 <= i < |xs| && IsSerial(xs[i], ys[i]);
      var u1, v1 := Witnesses(xs[i], ys[i]);
      u, v := Elsewhere(xs, ys, i, u1, v1);
    case (Combine(op, a, b), Combine(_, a', b')) =>
      AnyPair(a, a');
      AnyPair(b, b');
      var u1, v1, u2, v2 := SomeUse(a), SomeUse(a'), SomeUse(b), SomeUse(b');
      if IsSerial(a, a') { u1, v1 := Witnesses(a, a'); }
      if IsSerial(b, b') { u2, v2 := Witnesses(b, b'); }
      u, v := Both(u1, u2), Both(v1, v2);
      CombinedClash(p, q, u, v);
  }

  lemma CombinedClash(p: Policy, q: Policy, u: Use, v: Use)
    requires Inhabited(p) && Inhabited(q)
    requires p.Combine? && q.Combine? && SameType(p, q) && IsSerial(p, q) && u.Both? && v.Both?
    requires if IsSerial(p.first, q.first) then ClashPair(p.first, q.first, u.first, v.first)
             else u.first == SomeUse(p.first) && v.first == SomeUse(q.first)
    requires if IsSerial(p.second, q.second) then ClashPair(p.second, q.second, u.second, v.second)
             else u.second == SomeUse(p.second) && v.second == SomeUse(q.second)
    ensures ClashPair(p, q, u, v)
  {
    AnyPair(p.first, q.first);
    AnyPair(p.second, q.second);
  }

  /** Uses that clash at position `i` of an `Or` array and are arbitrary elsewhere. */
  lemma Elsewhere(xs: seq<Policy>, ys: seq<Policy>, i: nat, u1: Use, v1: Use) returns (u: Use, v: Use)
    requires i < |xs| && SameType(Array(Or, xs), Array(Or, ys)) && ClashPair(xs[i], ys[i], u1, v1)
    requires Inhabited(Array(Or, xs)) && Inhabited(Array(Or, ys))
    ensures ClashPair(Array(Or, xs), Array(Or, ys), u, v)
  {
    AnyPair(Array(Or, xs), Array(Or, ys));
    u := All(SomeUse(Array(Or, xs)).uses[i := u1]);
    v := All(SomeUse(Array(Or, ys)).uses[i := v1]);
    assert Clash(xs[i], u.uses[i], v.uses[i]);
  }

  /** Clashing uses at every position, put together. */
  lemma {:induction false} ArrayWitnesses(xs: seq<Policy>, ys: seq<Policy>) returns (u: Use, v: Use)
    requires |xs| == |ys|
    requires forall i :: 0 <= i < |xs| ==>
                           && SameType(xs[i], ys[i]) && Inhabited(xs[i]) && Inhabited(ys[i])
                           && IsSerial(xs[i], ys[i])
    ensures ClashPair(Array(And, xs), Array(And, ys), u, v)
    decreases xs
  {
    var us: seq<Use>, vs: seq<Use> := [], [];
    for i := 0 to |xs|
      invariant |us| == |vs| == i
      invariant forall j :: 0 <= j < i ==> ClashPair(xs[j], ys[j], us[j], vs[j])
    {
      var u1, v1 := Witnesses(xs[i], ys[i]);
      us, vs := us + [u1], vs + [v1];
    }
    u, v := All(us), All(vs);
  }

  lemma {:induction false} AdmitsNeedsNoEmpty(p: Policy, u: Use)
    requires Admits(p, u)
    ensures Inhabited(p)
  {
    match (p, u)
    case (Array(_, xs), All(us)) =>
      forall i | 0 <= i < |xs| ensures Inhabited(xs[i]) { AdmitsNeedsNoEmpty(xs[i], us[i]); }
    case (Combine(_, a, b), Both(u1, u2)) => AdmitsNeedsNoEmpty(a, u1); AdmitsNeedsNoEmpty(b, u2);
    case _ =>
  }

  /**
   For every nested policy tree, two policies admit uses that clash exactly when they are serial
   and neither has an empty interval. So `IsSerial` is never too weak, and too strong only for
   empty intervals.
   */
  lemma SerialMeansClash(p: Policy, q: Policy)
    requires SameType(p, q)
    ensures CanClash(p, q) <==> IsSerial(p, q) && Inhabited(p) && Inhabited(q)
  {
    if CanClash(p, q) {
      var u, v :| ClashPair(p, q, u, v);
      SerialSound(p, q, u, v);
      AdmitsNeedsNoEmpty(p, u);
      AdmitsNeedsNoEmpty(q, v);
    } else if Inhabited(p) && Inhabited(q) && IsSerial(p, q) {
      var u, v := Witnesses(p, q);
    }
  }

  /** An empty interval inside another counts as overlapping it although no index is in both. */
  lemma EmptyIntervalClashesForNothing()
    ensures IsSerial(Area(5, 5), Area(0, 10)) && !CanClash(Area(5, 5), Area(0, 10))
  {
  }
}
