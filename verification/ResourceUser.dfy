/**
 Resource users: tasks as lists of resource accesses, the relations between two
 users, and the list of distinct resources a user is entered in.
 */
module ResourceUsers {
  import opened Common
  import opened AccessPolicy

  /** A resource with the nesting level it was created at. `proto` fixes its policy type. */
  datatype Resource = Resource(id: nat, scopeLevel: nat, proto: Policy)

  datatype Access = Access(resource: Resource, policy: Policy)

  /** Accesses of different policy types never conflict; otherwise the resource must agree too. */
  predicate AccessIsSerial(a: Access, b: Access)
  {
    SameType(a.policy, b.policy) && a.resource == b.resource && IsSerial(a.policy, b.policy)
  }

  predicate AccessIsSupersetOf(a: Access, b: Access)
  {
    SameType(a.policy, b.policy) && a.resource == b.resource && IsSupersetOf(a.policy, b.policy)
  }

  /** Every access uses the policy type of its resource. */
  predicate WellTyped(accesses: seq<Access>)
  {
    forall i :: 0 <= i < |accesses| ==> SameType(accesses[i].policy, accesses[i].resource.proto)
  }

  predicate UserIsSerial(a: seq<Access>, b: seq<Access>)
  {
    exists i, j :: 0 <= i < |a| && 0 <= j < |b| && AccessIsSerial(a[i], b[j])
  }

  /** The conflict of two users that is visible on resource `r`. */
  predicate SerialOn(a: seq<Access>, b: seq<Access>, r: Resource)
  {
    exists i, j :: 0 <= i < |a| && 0 <= j < |b| && a[i].resource == r && AccessIsSerial(a[i], b[j])
  }

  predicate UserHasSync(a: seq<Access>, r: Resource)
  {
    exists i :: 0 <= i < |a| && a[i].resource == r && IsSynchronizing(a[i].policy)
  }

  predicate Covered(a: seq<Access>, x: Access)
  {
    exists i :: 0 <= i < |a| && AccessIsSupersetOf(a[i], x)
  }

  /** `a` covers every access of `b` except those to resources created below scope level `scope`. */
  predicate UserIsSupersetOf(a: seq<Access>, scope: nat, b: seq<Access>)
  {
    forall j :: 0 <= j < |b| ==> Covered(a, b[j]) || b[j].resource.scopeLevel > scope
  }

  predicate Accesses(a: seq<Access>, r: Resource)
  {
    exists i :: 0 <= i < |a| && a[i].resource == r
  }

  // ---------------------------------------------------------------- laws

  lemma UserSerialSymmetric(a: seq<Access>, b: seq<Access>)
    ensures UserIsSerial(a, b) <==> UserIsSerial(b, a)
  {
    UserSerialFlip(a, b);
    UserSerialFlip(b, a);
  }

  lemma UserSerialFlip(a: seq<Access>, b: seq<Access>)
    ensures UserIsSerial(a, b) ==> UserIsSerial(b, a)
  {
    if UserIsSerial(a, b) {
      var i, j :| 0 <= i < |a| && 0 <= j < |b| && AccessIsSerial(a[i], b[j]);
      SameTypeSymmetric(a[i].policy, b[j].policy);
      SerialSymmetric(a[i].policy, b[j].policy);
      assert AccessIsSerial(b[j], a[i]);
    }
  }

  /** Two users conflict exactly when they conflict on some resource both access. */
  lemma SerialIffOnSomeResource(a: seq<Access>, b: seq<Access>)
    ensures UserIsSerial(a, b) <==> exists r :: Accesses(b, r) && SerialOn(a, b, r)
  {
    if UserIsSerial(a, b) {
      var i, j :| 0 <= i < |a| && 0 <= j < |b| && AccessIsSerial(a[i], b[j]);
      assert Accesses(b, b[j].resource) && SerialOn(a, b, b[j].resource);
    }
  }

  /**
   The law behind the early stop of the predecessor scan. If `q` conflicts with anyone on `r`,
   it conflicts with every user that has synchronizing access to `r`.
   */
  lemma SyncUserOrdersAll(q: seq<Access>, t: seq<Access>, p: seq<Access>, r: Resource)
    requires WellTyped(q) && WellTyped(t) && WellTyped(p)
    requires SerialOn(q, t, r) && UserHasSync(p, r)
    ensures SerialOn(q, p, r) && UserIsSerial(q, p)
  {
    var i, j :| 0 <= i < |q| && 0 <= j < |t| && q[i].resource == r && AccessIsSerial(q[i], t[j]);
    var k :| 0 <= k < |p| && p[k].resource == r && IsSynchronizing(p[k].policy);
    SameTypeSymmetric(p[k].policy, r.proto);
    SameTypeTransitive(q[i].policy, r.proto, p[k].policy);
    SynchronizingOrdersAll(p[k].policy, q[i].policy, t[j].policy);
    assert AccessIsSerial(q[i], p[k]);
  }

  /** A conflict of a user is a conflict of every user that covers it on that resource. */
  lemma SerialWidens(wide: seq<Access>, scope: nat, a: seq<Access>, b: seq<Access>, r: Resource)
    requires UserIsSupersetOf(wide, scope, a) && r.scopeLevel <= scope
    requires SerialOn(a, b, r)
    ensures SerialOn(wide, b, r)
  {
    var i, j :| 0 <= i < |a| && 0 <= j < |b| && a[i].resource == r && AccessIsSerial(a[i], b[j]);
    assert Covered(wide, a[i]);
    var k :| 0 <= k < |wide| && AccessIsSupersetOf(wide[k], a[i]);
    SameTypeTransitive(wide[k].policy, a[i].policy, b[j].policy);
    SerialMonotone(wide[k].policy, a[i].policy, b[j].policy);
    assert AccessIsSerial(wide[k], b[j]);
  }

  lemma SerialOnFlip(a: seq<Access>, b: seq<Access>, r: Resource)
    requires SerialOn(a, b, r)
    ensures SerialOn(b, a, r)
  {
    var i, j :| 0 <= i < |a| && 0 <= j < |b| && a[i].resource == r && AccessIsSerial(a[i], b[j]);
    SameTypeSymmetric(a[i].policy, b[j].policy);
    SerialSymmetric(a[i].policy, b[j].policy);
    assert AccessIsSerial(b[j], a[i]);
  }

  // ------------------------------------------------------ the user object

  class ResourceUser {
    var accessList: seq<Access>
    var uniqueResources: seq<Resource>
    var scopeLevel: nat

    constructor (scopeDepth: nat)
      ensures accessList == [] && uniqueResources == [] && scopeLevel == scopeDepth
    {
      accessList, uniqueResources, scopeLevel := [], [], scopeDepth;
    }

    /** Enters the resource a second time if it is already there. */
    method AddResourceAccess(ra: Access)
      modifies this`accessList, this`uniqueResources
      ensures accessList == old(accessList) + [ra]
      ensures uniqueResources == old(uniqueResources) + [ra.resource]
    {
      accessList := accessList + [ra];
      uniqueResources := uniqueResources + [ra.resource];
    }

    /** Afterwards each accessed resource is listed exactly once and every other entry is as before. */
    method BuildUniqueResourceList()
      modifies this`uniqueResources
      ensures forall r :: multiset(uniqueResources)[r] ==
                          if Accesses(accessList, r) then 1 else old(multiset(uniqueResources)[r])
    {
      var i := |accessList|;
      while i > 0
        invariant 0 <= i <= |accessList|
        invariant forall r :: multiset(uniqueResources)[r] ==
                              if Accesses(accessList[i..], r) then 1 else old(multiset(uniqueResources)[r])
      {
        i := i - 1;
        var r := accessList[i].resource;
        assert accessList[i..] == [accessList[i]] + accessList[i + 1..];
        AccessesCons(accessList[i], accessList[i + 1..]);
        uniqueResources := Without(uniqueResources, r) + [r];
      }
      assert accessList[0..] == accessList;
    }

    method HasSyncAccess(r: Resource) returns (b: bool)
      ensures b <==> UserHasSync(accessList, r)
    {
      var i := |accessList|;
      while i > 0
        invariant 0 <= i <= |accessList|
        invariant forall k :: i <= k < |accessList| ==>
                                !(accessList[k].resource == r && IsSynchronizing(accessList[k].policy))
      {
        i := i - 1;
        if accessList[i].resource == r && IsSynchronizing(accessList[i].policy) { return true; }
      }
      return false;
    }

    method IsSupersetOfUser(a: ResourceUser) returns (b: bool)
      ensures b <==> UserIsSupersetOf(accessList, scopeLevel, a.accessList)
    {
      var j := |a.accessList|;
      while j > 0
        invariant 0 <= j <= |a.accessList|
        invariant forall k :: j <= k < |a.accessList| ==>
                                Covered(accessList, a.accessList[k]) || a.accessList[k].resource.scopeLevel > scopeLevel
      {
        j := j - 1;
        var found := false;
        var i := |accessList|;
        while i > 0
          invariant 0 <= i <= |accessList|
          invariant found <==> exists k :: i <= k < |accessList| && AccessIsSupersetOf(accessList[k], a.accessList[j])
        {
          i := i - 1;
          if AccessIsSupersetOf(accessList[i], a.accessList[j]) { found := true; }
        }
        if !found && a.accessList[j].resource.scopeLevel <= scopeLevel { return false; }
      }
      return true;
    }

    static method IsSerialUsers(a: ResourceUser, b: ResourceUser) returns (res: bool)
      ensures res <==> UserIsSerial(a.accessList, b.accessList)
    {
      var i := |a.accessList|;
      while i > 0
        invariant 0 <= i <= |a.accessList|
        invariant forall k, l :: i <= k < |a.accessList| && 0 <= l < |b.accessList| ==>
                                   !AccessIsSerial(a.accessList[k], b.accessList[l])
      {
        i := i - 1;
        var j := |b.accessList|;
        while j > 0
          invariant 0 <= j <= |b.accessList|
          invariant forall l :: j <= l < |b.accessList| ==> !AccessIsSerial(a.accessList[i], b.accessList[l])
        {
          j := j - 1;
          if AccessIsSerial(a.accessList[i], b.accessList[j]) { return true; }
        }
      }
      return false;
    }
  }

  lemma AccessesCons(a: Access, rest: seq<Access>)
    ensures forall r :: Accesses([a] + rest, r) <==> a.resource == r || Accesses(rest, r)
  {
    var s := [a] + rest;
    forall r ensures Accesses(s, r) <==> a.resource == r || Accesses(rest, r) {
      if a.resource == r { assert s[0].resource == r; }
      if Accesses(rest, r) {
        var i :| 0 <= i < |rest| && rest[i].resource == r;
        assert s[i + 1].resource == r;
      }
      if Accesses(s, r) && a.resource != r {
        var i :| 0 <= i < |s| && s[i].resource == r;
        assert rest[i - 1].resource == r;
      }
    }
  }
}
