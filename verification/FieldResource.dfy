/**
 Guards on multi-dimensional containers. A guard reaches the indices of its area; sub-area guards
 are derived from one another; the access a guard declares is a mode together with its area.
 */
module FieldResource {
  import opened AccessPolicy

  type Index = seq<SizeT>

  /** `Undefined` is an access past the extent of the container, which the program does not check. */
  datatype Result<T> = Ok(value: T) | OutOfRange | Undefined

  /** A box is one interval per dimension. */
  predicate IsBox(area: seq<Policy>)
  {
    forall d :: 0 <= d < |area| ==> area[d].Area?
  }

  predicate Contains(area: seq<Policy>, index: Index)
    requires IsBox(area)
  {
    |index| == |area| && forall d :: 0 <= d < |area| ==> area[d].begin <= index[d] < area[d].end
  }

  function FieldAccess(mode: Mode, area: seq<Policy>): (r: Policy)
  {
    Combine(And, IO(mode), Array(And, area))
  }

  /** The box `[begin, end)`. */
  function Box(begin: Index, end: Index): (area: seq<Policy>)
    requires |begin| == |end|
    ensures IsBox(area) && |area| == |begin|
  {
    seq(|begin|, d requires 0 <= d < |begin| => Area(begin[d], end[d]))
  }

  /** Interval by interval within the other box. */
  predicate Encloses(area: seq<Policy>, sub: seq<Policy>)
    requires IsBox(area) && IsBox(sub) && |sub| == |area|
  {
    forall d :: 0 <= d < |area| ==> area[d].begin <= sub[d].begin && sub[d].end <= area[d].end
  }

  // ------------------------------------------------------------ the guard's loops

  method ContainsIndex(area: seq<Policy>, index: Index) returns (b: bool)
    requires IsBox(area) && |index| == |area|
    ensures b <==> Contains(area, index)
  {
    for d := 0 to |area|
      invariant forall d' :: 0 <= d' < d ==> area[d'].begin <= index[d'] < area[d'].end
    {
      if index[d] < area[d].begin || index[d] >= area[d].end { return false; }
    }
    return true;
  }

  /** Every access goes through the guard, which refuses indices outside the area. `field` is the container. */
  method GetAt(area: seq<Policy>, field: map<Index, int>, index: Index) returns (r: Result<int>)
    requires IsBox(area) && |index| == |area|
    ensures r.OutOfRange? <==> !Contains(area, index)
    ensures r.Undefined? <==> Contains(area, index) && index !in field
    ensures r.Ok? ==> index in field && r.value == field[index]
  {
    var inside := ContainsIndex(area, index);
    if !inside { return OutOfRange; }
    return if index in field then Ok(field[index]) else Undefined;
  }

  ghost predicate Reaches(area: seq<Policy>, field: map<Index, int>)
    requires IsBox(area)
  {
    forall index :: Contains(area, index) ==> index in field
  }

  /** Guards derived from one that keeps to the container keep to it as well, so no access is undefined. */
  lemma DerivedKeepsToContainer(areas: seq<seq<Policy>>, k: nat, field: map<Index, int>)
    requires Derived(areas) && k < |areas| && Reaches(areas[0], field)
    ensures Reaches(areas[k], field)
  {
    forall index | Contains(areas[k], index) ensures index in field {
      ReachesLess(areas, 0, k, index);
    }
  }

  /** The index lies between the corners in every dimension. */
  predicate Between(begin: Index, end: Index, index: Index)
    requires |begin| == |end|
  {
    |index| == |begin| && forall d :: 0 <= d < |begin| ==> begin[d] <= index[d] < end[d]
  }

  lemma BoxContains(begin: Index, end: Index, index: Index)
    requires |begin| == |end|
    ensures Contains(Box(begin, end), index) <==> Between(begin, end, index)
  {
  }

  /**
   The area of a derived guard. It reaches exactly the indices between the corners, and it is refused
   unless the corners keep within the bounds of this guard's area in every dimension.
   */
  method MakeArea(area: seq<Policy>, begin: Index, end: Index) returns (r: Result<seq<Policy>>)
    requires IsBox(area) && |begin| == |end| == |area|
    ensures !r.Undefined?
    ensures r.Ok? <==> forall d :: 0 <= d < |area| ==> area[d].begin <= begin[d] && end[d] <= area[d].end
    ensures r.Ok? ==> IsBox(r.value) && |r.value| == |area| && Encloses(area, r.value)
    ensures r.Ok? ==> forall d :: 0 <= d < |area| ==> r.value[d].begin == begin[d] && r.value[d].end == end[d]
    ensures r.Ok? ==> forall index :: Contains(r.value, index) <==> Between(begin, end, index)
  {
    var sub: seq<Policy> := [];
    for d := 0 to |area|
      invariant |sub| == d && sub == Box(begin, end)[..d]
    {
      sub := sub + [Area(begin[d], end[d])];
    }
    assert sub == Box(begin, end);
    var covered := ArrayIsSupersetOf(And, area, sub);
    if !covered { return OutOfRange; }
    return Ok(sub);
  }

  // ------------------------------------------------------------ chains of guards

  /** Each area was made from the one before it. */
  ghost predicate Derived(areas: seq<seq<Policy>>)
  {
    && (forall k :: 0 <= k < |areas| ==> IsBox(areas[k]) && |areas[k]| == |areas[0]|)
    && (forall k :: 0 <= k < |areas| - 1 ==> Encloses(areas[k], areas[k + 1]))
  }

  /** A guard reaches only what every guard it was derived from reaches. */
  lemma {:induction false} ReachesLess(areas: seq<seq<Policy>>, j: nat, k: nat, index: Index)
    requires Derived(areas) && j <= k < |areas| && Contains(areas[k], index)
    ensures Contains(areas[j], index)
  {
    if j < k {
      assert Encloses(areas[k - 1], areas[k]);
      forall d | 0 <= d < |areas[k]| ensures areas[k - 1][d].begin <= index[d] < areas[k - 1][d].end {
        assert IsSupersetOf(areas[k - 1][d], areas[k][d]);
      }
      ReachesLess(areas, j, k - 1, index);
    }
  }

  /** Along a chain the declared access only narrows, so a task holding a guard may pass on derived ones. */
  lemma {:induction false} ChainCovers(mode: Mode, areas: seq<seq<Policy>>, j: nat, k: nat)
    requires Derived(areas) && j <= k < |areas|
    ensures SameType(FieldAccess(mode, areas[j]), FieldAccess(mode, areas[k]))
    ensures IsSupersetOf(FieldAccess(mode, areas[j]), FieldAccess(mode, areas[k]))
    ensures IsSupersetOf(FieldAccess(Write, areas[j]), FieldAccess(mode, areas[k]))
  {
    if j == k {
      forall d | 0 <= d < |areas[j]|
        ensures SameType(areas[j][d], areas[j][d]) && IsSupersetOf(areas[j][d], areas[j][d])
      {}
    } else {
      ChainCovers(mode, areas, j, k - 1);
      assert Encloses(areas[k - 1], areas[k]);
      forall d | 0 <= d < |areas[j]|
        ensures SameType(areas[j][d], areas[k][d]) && IsSupersetOf(areas[j][d], areas[k][d])
      {
        assert IsSupersetOf(areas[j][d], areas[k - 1][d]);
        assert IsSupersetOf(areas[k - 1][d], areas[k][d]);
      }
    }
  }

  /** The guard of one position reaches that position only, and nothing at the largest coordinate. */
  lemma SinglePosition(pos: Index, index: Index)
    ensures var end := seq(|pos|, d requires 0 <= d < |pos| => Next(pos[d]));
            Contains(Box(pos, end), index) <==> index == pos && forall d :: 0 <= d < |pos| ==> pos[d] != SIZE_MAX
  {
    var end: Index := seq(|pos|, d requires 0 <= d < |pos| => Next(pos[d]));
    if Contains(Box(pos, end), index) {
      forall d | 0 <= d < |pos| ensures pos[d] != SIZE_MAX && index[d] == pos[d] {
        assert Box(pos, end)[d].begin <= index[d] < Box(pos, end)[d].end;
      }
    }
  }

  /** Increment of a machine index, wrapping around. */
  function Next(i: SizeT): (r: SizeT) { if i == SIZE_MAX then 0 else i + 1 }

  // ------------------------------------------------------------ soundness of field accesses

  predicate HasEmptySide(area: seq<Policy>)
    requires IsBox(area)
  {
    exists d :: 0 <= d < |area| && area[d].end <= area[d].begin
  }

  predicate SameSharedMode(m: Mode, m': Mode) { m == m' && m != Write }

  ghost predicate Share(a: seq<Policy>, b: seq<Policy>)
    requires IsBox(a) && IsBox(b)
  {
    exists index :: Contains(a, index) && Contains(b, index)
  }

  lemma FieldTyped(m: Mode, m': Mode, a: seq<Policy>, b: seq<Policy>)
    requires IsBox(a) && IsBox(b) && |a| == |b|
    ensures SameType(FieldAccess(m, a), FieldAccess(m', b))
    ensures IsSerial(FieldAccess(m, a), FieldAccess(m', b)) <==>
            !SameSharedMode(m, m') && forall d :: 0 <= d < |a| ==> a[d].end > b[d].begin && a[d].begin < b[d].end
  {
    assert forall d :: 0 <= d < |a| ==> SameType(a[d], b[d]);
    assert SameType(Array(And, a), Array(And, b));
    assert IsSerial(IO(m), IO(m')) <==> !SameSharedMode(m, m');
    assert forall d :: 0 <= d < |a| ==> (IsSerial(a[d], b[d]) <==> a[d].end > b[d].begin && a[d].begin < b[d].end);
    assert IsSerial(Array(And, a), Array(And, b)) <==> forall d :: 0 <= d < |a| ==> IsSerial(a[d], b[d]);
  }

  /**
   Two field accesses share an index under modes that matter exactly when they are serial and both
   areas are non-empty in every dimension. So accesses that are not serial never interfere.
   */
  lemma FieldSoundness(m: Mode, m': Mode, a: seq<Policy>, b: seq<Policy>)
    requires IsBox(a) && IsBox(b) && |a| == |b|
    ensures SameType(FieldAccess(m, a), FieldAccess(m', b))
    ensures !IsSerial(FieldAccess(m, a), FieldAccess(m', b)) ==> !Share(a, b) || SameSharedMode(m, m')
    ensures Share(a, b) && !SameSharedMode(m, m') <==>
            IsSerial(FieldAccess(m, a), FieldAccess(m', b)) && !HasEmptySide(a) && !HasEmptySide(b)
  {
    FieldTyped(m, m', a, b);
    if Share(a, b) {
      var index :| Contains(a, index) && Contains(b, index);
      assert forall d :: 0 <= d < |a| ==> a[d].begin <= index[d] < a[d].end && b[d].begin <= index[d] < b[d].end;
    } else if IsSerial(FieldAccess(m, a), FieldAccess(m', b)) && !HasEmptySide(a) && !HasEmptySide(b) {
      var index: Index :=
        seq(|a|, d requires 0 <= d < |a| => if a[d].begin < b[d].begin then b[d].begin else a[d].begin);
      assert Contains(a, index) && Contains(b, index);
    }
  }
}
