/**
 What the relations of resource users stand for: the single uses of resources that their accesses admit.
 */
module UserMeaning {
  import opened AccessPolicy
  import opened AccessMeaning
  import opened ResourceUsers

  /** Some access of the user admits the use. */
  predicate Uses(a: seq<Access>, r: Resource, u: Use)
  {
    exists i :: 0 <= i < |a| && a[i].resource == r && Admits(a[i].policy, u)
  }

  /** Two uses of a resource that its policy type knows, and that must not be swapped. */
  predicate ClashOn(r: Resource, u: Use, v: Use)
  {
    Admits(Top(r.proto), u) && Admits(Top(r.proto), v) && Clash(r.proto, u, v)
  }

  // ------------------------------------------------------------ conflict

  ghost predicate UsersClash(a: seq<Access>, b: seq<Access>)
  {
    exists r, u, v :: Uses(a, r, u) && Uses(b, r, v) && ClashOn(r, u, v)
  }

  /** No access has an empty interval. */
  predicate AllInhabited(a: seq<Access>)
  {
    forall i :: 0 <= i < |a| ==> Inhabited(a[i].policy)
  }

  /** The accesses without an empty interval, which admit some use. */
  function Usable(a: seq<Access>): (a': seq<Access>)
    ensures forall i :: 0 <= i < |a'| ==> a'[i] in a && Inhabited(a'[i].policy)
    ensures forall i :: 0 <= i < |a| && Inhabited(a[i].policy) ==> a[i] in a'
  {
    if a == [] then [] else (if Inhabited(a[0].policy) then [a[0]] else []) + Usable(a[1..])
  }

  lemma TypesMeet(p: Policy, q: Policy, proto: Policy)
    requires SameType(p, proto) && SameType(q, proto)
    ensures SameType(p, q) && SameType(proto, p) && SameType(proto, q)
  {
    SameTypeSymmetric(p, proto);
    SameTypeSymmetric(q, proto);
    SameTypeTransitive(p, proto, q);
  }

  /** Uses of two users that clash make the users conflict, whatever their policy trees. */
  lemma ClashMakesSerial(a: seq<Access>, b: seq<Access>, r: Resource, u: Use, v: Use)
    requires WellTyped(a) && WellTyped(b) && Uses(a, r, u) && Uses(b, r, v) && ClashOn(r, u, v)
    ensures UserIsSerial(a, b)
  {
    var i :| 0 <= i < |a| && a[i].resource == r && Admits(a[i].policy, u);
    var j :| 0 <= j < |b| && b[j].resource == r && Admits(b[j].policy, v);
    var p, q := a[i].policy, b[j].policy;
    TypesMeet(p, q, r.proto);
    TopSame(r.proto, p, u);
    TopSame(r.proto, p, v);
    ClashSame(r.proto, p, u, v);
    SerialSound(p, q, u, v);
    assert AccessIsSerial(a[i], b[j]);
  }

  /** Two accesses that are serial and have no empty interval admit uses that clash. */
  lemma SerialUses(x: Access, y: Access) returns (u: Use, v: Use)
    requires AccessIsSerial(x, y) && Inhabited(x.policy) && Inhabited(y.policy)
    requires SameType(x.policy, x.resource.proto) && SameType(y.policy, y.resource.proto)
    ensures Admits(x.policy, u) && Admits(y.policy, v) && ClashOn(x.resource, u, v)
  {
    var p, proto := x.policy, x.resource.proto;
    u, v := Witnesses(p, y.policy);
    TypesMeet(p, y.policy, proto);
    TopSame(p, proto, u);
    TopSame(p, proto, v);
    ClashSame(proto, p, u, v);
  }

  lemma InhabitedSerialClash(a: seq<Access>, b: seq<Access>, i: nat, j: nat)
    requires WellTyped(a) && WellTyped(b) && i < |a| && j < |b| && AccessIsSerial(a[i], b[j])
    requires Inhabited(a[i].policy) && Inhabited(b[j].policy)
    ensures UsersClash(a, b)
  {
    var u, v := SerialUses(a[i], b[j]);
    assert Uses(a, a[i].resource, u) && Uses(b, a[i].resource, v);
  }

  /**
   Users without empty intervals conflict exactly when one resource has a use by the one that clashes
   with a use by the other.
   */
  lemma SerialMeansUsersClash(a: seq<Access>, b: seq<Access>)
    requires WellTyped(a) && WellTyped(b)
    ensures UsersClash(a, b) ==> UserIsSerial(a, b)
    ensures AllInhabited(a) && AllInhabited(b) ==> (UserIsSerial(a, b) <==> UsersClash(a, b))
  {
    if UsersClash(a, b) {
      var r, u, v :| Uses(a, r, u) && Uses(b, r, v) && ClashOn(r, u, v);
      ClashMakesSerial(a, b, r, u, v);
    } else if AllInhabited(a) && AllInhabited(b) && UserIsSerial(a, b) {
      var i, j :| 0 <= i < |a| && 0 <= j < |b| && AccessIsSerial(a[i], b[j]);
      InhabitedSerialClash(a, b, i, j);
    }
  }

  lemma UsableUses(a: seq<Access>, r: Resource, u: Use)
    ensures Uses(Usable(a), r, u) <==> Uses(a, r, u)
  {
    if Uses(a, r, u) {
      var i :| 0 <= i < |a| && a[i].resource == r && Admits(a[i].policy, u);
      AdmitsNeedsNoEmpty(a[i].policy, u);
      var k :| 0 <= k < |Usable(a)| && Usable(a)[k] == a[i];
    }
    if Uses(Usable(a), r, u) {
      var k :| 0 <= k < |Usable(a)| && Usable(a)[k].resource == r && Admits(Usable(a)[k].policy, u);
      var i :| 0 <= i < |a| && a[i] == Usable(a)[k];
    }
  }

  /** For all users: their uses can clash exactly when they conflict by accesses without empty intervals. */
  lemma UsersClashIff(a: seq<Access>, b: seq<Access>)
    requires WellTyped(a) && WellTyped(b)
    ensures UsersClash(a, b) <==> UserIsSerial(Usable(a), Usable(b))
  {
    SerialMeansUsersClash(Usable(a), Usable(b));
    if UsersClash(a, b) {
      var r, u, v :| Uses(a, r, u) && Uses(b, r, v) && ClashOn(r, u, v);
      UsableUses(a, r, u);
      UsableUses(b, r, v);
    }
    if UsersClash(Usable(a), Usable(b)) {
      var r, u, v :| Uses(Usable(a), r, u) && Uses(Usable(b), r, v) && ClashOn(r, u, v);
      UsableUses(a, r, u);
      UsableUses(b, r, v);
    }
  }

  // ------------------------------------------------------------ coverage

  /** One access of `a` admits every use that `x` admits, of the same resource. */
  ghost predicate AdmitsAllOf(a: seq<Access>, x: Access)
  {
    exists i :: 0 <= i < |a| && a[i].resource == x.resource && Includes(a[i].policy, x.policy)
  }

  /** An access is covered exactly when one access of the user admits all its uses, empty intervals aside. */
  lemma CoveredMeansAdmitted(a: seq<Access>, x: Access)
    requires WellTyped(a) && SameType(x.policy, x.resource.proto)
    ensures Covered(a, x) ==> AdmitsAllOf(a, x)
    ensures Inhabited(x.policy) ==> (Covered(a, x) <==> AdmitsAllOf(a, x))
  {
    if Covered(a, x) {
      var i :| 0 <= i < |a| && AccessIsSupersetOf(a[i], x);
      SupersetMeansInclusion(a[i].policy, x.policy);
    }
    if AdmitsAllOf(a, x) && Inhabited(x.policy) {
      var i :| 0 <= i < |a| && a[i].resource == x.resource && Includes(a[i].policy, x.policy);
      TypesMeet(a[i].policy, x.policy, x.resource.proto);
      SupersetMeansInclusion(a[i].policy, x.policy);
      assert AccessIsSupersetOf(a[i], x);
    }
  }

  /** A user without empty intervals is covered exactly when each of its accesses in scope is admitted whole. */
  lemma SupersetMeansUses(a: seq<Access>, scope: nat, b: seq<Access>)
    requires WellTyped(a) && WellTyped(b) && AllInhabited(b)
    ensures UserIsSupersetOf(a, scope, b) <==>
            forall j :: 0 <= j < |b| ==> AdmitsAllOf(a, b[j]) || b[j].resource.scopeLevel > scope
  {
    forall j | 0 <= j < |b| ensures Covered(a, b[j]) <==> AdmitsAllOf(a, b[j]) { CoveredMeansAdmitted(a, b[j]); }
  }

  // ------------------------------------------------------------ synchronizing access

  lemma {:induction false} TopInhabited(p: Policy)
    ensures Inhabited(Top(p))
  {
    match p
    case Array(_, xs) => forall i | 0 <= i < |xs| ensures Inhabited(Top(p).elems[i]) { TopInhabited(xs[i]); }
    case Combine(_, a, b) => TopInhabited(a); TopInhabited(b);
    case _ =>
  }

  /** A policy is synchronizing exactly when it admits every use that its type knows. */
  lemma SynchronizingMeansEveryUse(p: Policy, proto: Policy)
    requires SameType(p, proto)
    ensures IsSynchronizing(p) <==> Includes(p, Top(proto))
  {
    SameTypeSymmetric(Top(proto), proto);
    SameTypeTransitive(p, proto, Top(proto));
    TopInhabited(proto);
    SupersetMeansInclusion(p, Top(proto));
    if IsSynchronizing(p) { SynchronizingCovers(p, Top(proto)); }
    if IsSupersetOf(p, Top(proto)) { CoversSynchronizing(p, Top(proto)); }
  }

  /** A user has synchronizing access to a resource exactly when one access of it admits every use. */
  lemma SyncMeansEveryUse(a: seq<Access>, r: Resource)
    requires WellTyped(a)
    ensures UserHasSync(a, r) <==>
            exists i :: 0 <= i < |a| && a[i].resource == r && Includes(a[i].policy, Top(r.proto))
  {
    forall i | 0 <= i < |a| && a[i].resource == r
      ensures IsSynchronizing(a[i].policy) <==> Includes(a[i].policy, Top(r.proto))
    {
      SynchronizingMeansEveryUse(a[i].policy, r.proto);
    }
  }
}
