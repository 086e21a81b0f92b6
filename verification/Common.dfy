/** Small notions that several components share. */
module Common {

  function B2i(b: bool): (n: int) { if b then 1 else 0 }

  ghost predicate Distinct<T>(s: seq<T>)
  {
    forall i, j :: 0 <= i < j < |s| ==> s[i] != s[j]
  }

  /** `s` without any occurrence of `x`. */
  function Without<T(==)>(s: seq<T>, x: T): (r: seq<T>)
    ensures multiset(r) == multiset(s)[x := 0]
  {
    if s == [] then []
    else
      assert s == s[..|s| - 1] + [s[|s| - 1]];
      if s[|s| - 1] == x then Without(s[..|s| - 1], x) else Without(s[..|s| - 1], x) + [s[|s| - 1]]
  }

  /** Two neighbours on a path are related. */
  ghost predicate RelatedAt<T>(rel: (T, T) -> bool, path: seq<T>, i: nat)
    requires i < |path| - 1
  {
    rel(path[i], path[i + 1])
  }

  ghost predicate Preserves<T(!new)>(rel: (T, T) -> bool, keeps: T -> bool)
  {
    forall s: T, s': T {:trigger rel(s, s')} :: rel(s, s') && keeps(s) ==> keeps(s')
  }

  /** What every step keeps holds all along a path. */
  lemma {:induction false} KeptAlong<T(!new)>(rel: (T, T) -> bool, keeps: T -> bool, path: seq<T>, i: nat)
    requires Preserves(rel, keeps) && i < |path| && keeps(path[0])
    requires forall j: nat :: j < |path| - 1 ==> RelatedAt(rel, path, j)
    ensures keeps(path[i])
  {
    if i > 0 {
      KeptAlong(rel, keeps, path, i - 1);
      assert RelatedAt(rel, path, i - 1);
    }
  }

  /** What holds at `i` and not at the start of a path has held since some place on it. */
  lemma {:induction false} HoldsSince<T>(holds: T -> bool, path: seq<T>, i: nat) returns (j: nat)
    requires i < |path| && holds(path[i]) && !holds(path[0])
    ensures j < i && !holds(path[j])
    ensures forall m :: j < m <= i ==> holds(path[m])
  {
    if holds(path[i - 1]) {
      j := HoldsSince(holds, path, i - 1);
    } else {
      j := i - 1;
    }
  }
}
