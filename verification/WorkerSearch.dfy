/**
 The bitfield of worker states and the search for a worker in a given state. Other threads may
 change every word between any two loads, so the search is given each load by an oracle.
 */
module WorkerSearch {
  import opened Common
  import opened Bits

  // ------------------------------------------------------------ words as sets of bits

  type View = bv64 -> set<nat>

  ghost predicate Represents(m: bv64, s: set<nat>)
  {
    && (forall k {:trigger Bit(m, k)} :: 0 <= k < 64 ==> (Bit(m, k) <==> k in s))
    && (forall k :: k in s ==> k < 64)
  }

  /** `view` shows each word as the set of its one bits. */
  ghost predicate Faithful(view: View)
  {
    forall m {:trigger view(m)} :: Represents(m, view(m))
  }

  function Ones(m: bv64): (r: set<nat>)
  {
    set k | 0 <= k < 64 && Bit(m, k)
  }

  lemma OnesIsFaithful()
    ensures Faithful(Ones)
  {
  }

  lemma FullWord(view: View)
    requires Faithful(view)
    ensures forall k :: k in view(ONES) <==> 0 <= k < 64
  {
    forall k | 0 <= k < 64 ensures k in view(ONES) { BitOnes(k); }
  }

  lemma ZeroWord(view: View)
    requires Faithful(view)
    ensures view(0) == {}
  {
    forall k | 0 <= k < 64 ensures k !in view(0) { BitZero(k); }
  }

  lemma Complement(view: View, m: bv64, w: bv64)
    requires Faithful(view) && w == !m
    ensures forall k :: k in view(w) <==> 0 <= k < 64 && k !in view(m)
  {
    forall k | 0 <= k < 64 ensures k in view(w) <==> k !in view(m) { BitNot(m, k); }
  }

  lemma Intersection(view: View, m: bv64, n: bv64, w: bv64)
    requires Faithful(view) && w == m & n
    ensures view(w) == view(m) * view(n)
  {
    forall k | 0 <= k < 64 ensures k in view(w) <==> k in view(m) && k in view(n) { BitAnd(m, n, k); }
  }

  lemma Union(view: View, m: bv64, n: bv64, w: bv64)
    requires Faithful(view) && w == m | n
    ensures view(w) == view(m) + view(n)
  {
    forall k | 0 <= k < 64 ensures k in view(w) <==> k in view(m) || k in view(n) { BitOr(m, n, k); }
  }

  lemma HighOnes(view: View, s: nat, w: bv64)
    requires Faithful(view) && s < 64 && w == ONES << (s as bv7)
    ensures forall k :: k in view(w) <==> s <= k < 64
  {
    forall k | 0 <= k < 64 ensures k in view(w) <==> k >= s { BitHigh(s, k); }
  }

  lemma LowOnes(view: View, n: nat, w: bv64)
    requires Faithful(view) && n < 64 && w == (1 << (n as bv7)) - 1
    ensures forall k :: k in view(w) <==> 0 <= k < n
  {
    var high := ONES << (n as bv7);
    AmountInRange(n);
    LowIsNotHigh(n as bv7);
    HighOnes(view, n, high);
    Complement(view, high, w);
  }

  lemma SingleOne(view: View, j: nat, w: bv64)
    requires Faithful(view) && j < 64 && w == 1 << (j as bv7)
    ensures view(w) == {j}
  {
    forall k | 0 <= k < 64 ensures k in view(w) <==> k == j { BitSingle(j, k); }
    assert j in view(w);
  }

  // ------------------------------------------------------------ operations on words

  /** The mask of one bit. */
  method BitMask(k: nat, ghost view: View) returns (mask: bv64)
    requires k < 64 && Faithful(view)
    ensures view(mask) == {k}
  {
    mask := 1 << (k as bv7);
    SingleOne(view, k, mask);
  }

  /** The ones from bit `s` on. */
  method MaskFrom(s: nat, ghost view: View) returns (mask: bv64)
    requires s < 64 && Faithful(view)
    ensures forall k :: k in view(mask) <==> s <= k < 64
  {
    mask := ONES << (s as bv7);
    HighOnes(view, s, mask);
  }

  /** The ones below bit `n`. */
  method MaskBelow(n: nat, ghost view: View) returns (mask: bv64)
    requires n < 64 && Faithful(view)
    ensures forall k :: k in view(mask) <==> 0 <= k < n
  {
    mask := (1 << (n as bv7)) - 1;
    LowOnes(view, n, mask);
  }

  method Not(m: bv64, ghost view: View) returns (r: bv64)
    requires Faithful(view)
    ensures forall k :: k in view(r) <==> 0 <= k < 64 && k !in view(m)
  {
    r := !m;
    Complement(view, m, r);
  }

  method And(m: bv64, n: bv64, ghost view: View) returns (r: bv64)
    requires Faithful(view)
    ensures view(r) == view(m) * view(n)
  {
    r := m & n;
    Intersection(view, m, n, r);
  }

  method Or(m: bv64, n: bv64, ghost view: View) returns (r: bv64)
    requires Faithful(view)
    ensures view(r) == view(m) + view(n)
  {
    r := m | n;
    Union(view, m, n, r);
  }

  method IsZero(m: bv64, ghost view: View) returns (b: bool)
    requires Faithful(view)
    ensures b <==> view(m) == {}
  {
    var k := FirstOneIdx(m);
    if k < 64 {
      assert k in view(m);
    } else {
      forall j | 0 <= j < 64 ensures j !in view(m) { assert !Bit(m, j); }
    }
    b := m == 0;
  }

  /** The lowest one bit, 64 if there is none. */
  method LowestOne(m: bv64, ghost view: View) returns (k: nat)
    requires Faithful(view)
    ensures k <= 64 && (k == 64 <==> view(m) == {}) && (k < 64 ==> k in view(m))
    ensures forall j :: j in view(m) ==> k <= j
  {
    k := FirstOneIdx(m);
    forall j | 0 <= j < k ensures j !in view(m) { assert !Bit(m, j); }
    if k < 64 { assert k in view(m) by { assert Bit(m, k); } }
  }

  method Flip(m: bv64, wanted: bool, ghost view: View) returns (r: bv64)
    requires Faithful(view)
    ensures forall k :: k in view(r) <==> 0 <= k < 64 && (k in view(m)) == wanted
  {
    if wanted { r := m; } else { r := Not(m, view); }
    assert forall k :: k in view(m) ==> 0 <= k < 64;
  }

  // ------------------------------------------------------------ the bitfield

  class AtomicBitfield {
    const size: nat
    const state: array<bv64>
    ghost const view: View

    ghost predicate Valid()
    {
      state.Length == (size + 63) / 64 && Faithful(view)
    }

    constructor (size: nat)
      ensures Valid() && this.size == size && fresh(state)
      ensures forall i :: 0 <= i < size ==> !Value(i)
    {
      this.size := size;
      state := new bv64[(size + 63) / 64](_ => 0);
      view := Ones;
      new;
      OnesIsFaithful();
      ZeroWord(view);
    }

    /** The state of worker `i`. */
    ghost predicate Value(i: nat)
      requires Valid() && i < size
      reads state
    {
      i % 64 in view(state[i / 64])
    }

    /** The states of all workers. */
    ghost function States(): (states: seq<bool>)
      requires Valid()
      reads state
      ensures |states| == size && forall i :: 0 <= i < size ==> states[i] == Value(i)
    {
      seq(size, i requires 0 <= i < size && Valid() reads state => Value(i))
    }

    method Get(i: nat) returns (b: bool)
      requires Valid() && i < size
      ensures b == Value(i)
    {
      var mask := BitMask(i % 64, view);
      var word := And(state[i / 64], mask, view);
      var zero := IsZero(word, view);
      assert i % 64 in view(word) <==> i % 64 in view(state[i / 64]);
      b := !zero;
    }

    /** Exchange one bit; no other bit changes. */
    method Set(i: nat, newValue: bool) returns (before: bool)
      requires Valid() && i < size
      modifies state
      ensures before == old(Value(i)) && States() == old(States())[i := newValue]
    {
      var j := i / 64;
      before := Get(i);
      var mask := BitMask(i % 64, view);
      var word;
      if newValue {
        word := Or(state[j], mask, view);
      } else {
        var others := Not(mask, view);
        word := And(state[j], others, view);
      }
      state[j] := word;
      assert forall k :: 0 <= k < size && k != i ==> Value(k) == old(Value(k));
    }
  }

  // ------------------------------------------------------------ probing one word

  /** The value of word `j` as the `t`-th load finds it, and whether candidate `i` is accepted then. */
  datatype World = World(load: (nat, nat) -> bv64, accept: (nat, nat) -> bool, view: View)

  /** Load `t` of the word of `i` finds it in state `b`. */
  ghost predicate Seen(w: World, t: nat, i: nat, b: bool)
  {
    (i % 64 in w.view(w.load(t, i / 64))) == b
  }

  /** Candidate `i` was found in the wanted state, and the callback answered `ok`. */
  ghost predicate Tried(w: World, wanted: bool, i: nat, ok: bool)
  {
    exists t: nat :: Seen(w, t, i, wanted) && w.accept(t, i) == ok
  }

  /** Some load of its word found `i` in the other state. */
  ghost predicate PassedOver(w: World, wanted: bool, i: nat)
  {
    var other := !wanted;
    exists t: nat :: Seen(w, t, i, other)
  }

  ghost predicate Examined(w: World, wanted: bool, tried: seq<nat>, i: nat)
  {
    i in tried || PassedOver(w, wanted, i)
  }

  /** The last candidate tried was accepted if the search succeeded; all others were turned down. */
  ghost predicate AllTried(w: World, wanted: bool, tried: seq<nat>, found: bool)
  {
    && Distinct(tried)
    && (found ==> tried != [])
    && forall n :: 0 <= n < |tried| ==> Tried(w, wanted, tried[n], found && n == |tried| - 1)
  }

  ghost predicate Selected(w: World, j: nat, mask: bv64, i: nat)
  {
    i / 64 == j && i % 64 in w.view(mask)
  }

  lemma Append(w: World, wanted: bool, tried: seq<nat>, t: nat, i: nat)
    requires AllTried(w, wanted, tried, false) && i !in tried && Seen(w, t, i, wanted)
    ensures AllTried(w, wanted, tried + [i], w.accept(t, i))
  {
    assert Tried(w, wanted, i, w.accept(t, i));
  }

  lemma WordIndex(j: nat, k: nat)
    requires k < 64
    ensures (64 * j + k) / 64 == j && (64 * j + k) % 64 == k
  {
  }

  /** What is left of the mask after the candidates tried so far. */
  ghost predicate Remaining(w: World, j: nat, mask0: bv64, tried: seq<nat>, mask: bv64)
  {
    forall k :: k in w.view(mask) <==> k in w.view(mask0) && 64 * j + k !in tried
  }

  lemma NothingLeft(w: World, j: nat, mask0: bv64, mask: bv64, wanted: bool, t: nat, tried: seq<nat>)
    requires Faithful(w.view) && Remaining(w, j, mask0, tried, mask)
    requires forall k :: k in w.view(mask) ==> (k in w.view(w.load(t, j))) != wanted
    ensures forall i: nat :: Selected(w, j, mask0, i) ==> Examined(w, wanted, tried, i)
  {
    forall i: nat | Selected(w, j, mask0, i) && i !in tried ensures PassedOver(w, wanted, i) {
      assert i == 64 * j + i % 64;
      assert i % 64 in w.view(mask);
      assert Seen(w, t, i, !wanted);
    }
  }

  lemma OneTried(w: World, j: nat, mask0: bv64, mask: bv64, mask': bv64, tried: seq<nat>, k: nat)
    requires Remaining(w, j, mask0, tried, mask) && k in w.view(mask) && w.view(mask') == w.view(mask) - {k}
    ensures Remaining(w, j, mask0, tried + [64 * j + k], mask')
  {
    forall i ensures i in w.view(mask') <==> i in w.view(mask0) && 64 * j + i !in tried + [64 * j + k] {
      assert i in w.view(mask) <==> i in w.view(mask0) && 64 * j + i !in tried;
    }
  }

  lemma PickedIsSelected(w: World, j: nat, mask0: bv64, mask: bv64, tried: seq<nat>, k: nat)
    requires Faithful(w.view) && Remaining(w, j, mask0, tried, mask) && k in w.view(mask)
    ensures k < 64 && (64 * j + k) / 64 == j && (64 * j + k) % 64 == k
    ensures 64 * j + k !in tried && Selected(w, j, mask0, 64 * j + k)
  {
    WordIndex(j, k);
  }

  function Segment(w: World, j: nat, mask: bv64): (r: set<nat>)
  {
    set k | k in w.view(mask) :: 64 * j + k
  }

  lemma SegmentIsSelected(w: World, j: nat, mask: bv64)
    requires Faithful(w.view)
    ensures forall i: nat :: i in Segment(w, j, mask) <==> Selected(w, j, mask, i)
  {
    forall i: nat ensures i in Segment(w, j, mask) <==> Selected(w, j, mask, i) {
      if Selected(w, j, mask, i) { assert i == 64 * j + i % 64; }
      if i in Segment(w, j, mask) {
        var k :| k in w.view(mask) && i == 64 * j + k;
        WordIndex(j, k);
      }
    }
  }

  // ------------------------------------------------------------ the order of the search

  /** No word changes while the search goes on. */
  ghost predicate Steady(w: World)
  {
    forall t: nat, j: nat :: w.load(t, j) == w.load(0, j)
  }

  /** Some rank of the indices by which a search goes. */
  type Ranking = nat -> int

  /**
   The candidates tried are in the wanted state and in the order of their ranks, and none in that state was
   left out: of all indices in `region`, or of those before the one found.
   */
  ghost predicate InTurn(w: World, wanted: bool, rank: Ranking, region: set<nat>, tried: seq<nat>, found: bool)
  {
    && (forall m, n :: 0 <= m < n < |tried| ==> rank(tried[m]) < rank(tried[n]))
    && (forall i :: i in tried ==> Seen(w, 0, i, wanted))
    && (found ==> tried != [])
    && (forall i :: i in region && Seen(w, 0, i, wanted) && (found ==> rank(i) < rank(tried[|tried| - 1])) ==>
                      i in tried)
  }

  ghost predicate Ascending(w: World, j: nat, mask: bv64, rank: Ranking)
  {
    forall x: nat, y: nat :: Selected(w, j, mask, x) && Selected(w, j, mask, y) && x < y ==> rank(x) < rank(y)
  }

  /** Bit `k` of a steady word `j` is in the wanted state. */
  ghost predicate Shows(w: World, j: nat, k: nat, wanted: bool)
  {
    (k in w.view(w.load(0, j))) == wanted
  }

  /** All candidates tried so far come before all that the mask still has in the wanted state. */
  ghost predicate LowestFirst(w: World, j: nat, mask: bv64, wanted: bool, tried: seq<nat>)
  {
    && (forall m, n :: 0 <= m < n < |tried| ==> tried[m] < tried[n])
    && (forall i :: i in tried ==> Seen(w, 0, i, wanted))
    && (forall n, k :: 0 <= n < |tried| && k in w.view(mask) && Shows(w, j, k, wanted) ==> tried[n] < 64 * j + k)
  }

  /** Picking the lowest from a steady word. */
  lemma PickInTurn(w: World, j: nat, mask: bv64, mask': bv64, wanted: bool, tried: seq<nat>, t: nat, k: nat)
    requires Faithful(w.view) && Steady(w) && LowestFirst(w, j, mask, wanted, tried)
    requires k in w.view(mask) && k < 64 && (k in w.view(w.load(t, j))) == wanted
    requires forall i :: i in w.view(mask) && (i in w.view(w.load(t, j))) == wanted ==> k <= i
    requires w.view(mask') == w.view(mask) - {k}
    ensures LowestFirst(w, j, mask', wanted, tried + [64 * j + k])
  {
    WordIndex(j, k);
    assert w.load(t, j) == w.load(0, j);
    var tried' := tried + [64 * j + k];
    forall n, i | 0 <= n < |tried'| && i in w.view(mask') && Shows(w, j, i, wanted) ensures tried'[n] < 64 * j + i {
      if n < |tried| { assert tried[n] < 64 * j + i; }
    }
  }

  /** What is not tried is still in the mask, behind all that was tried. */
  lemma LeftOver(w: World, j: nat, mask0: bv64, mask: bv64, wanted: bool, tried: seq<nat>, i: nat)
    requires LowestFirst(w, j, mask, wanted, tried) && Remaining(w, j, mask0, tried, mask)
    requires Selected(w, j, mask0, i) && Seen(w, 0, i, wanted) && i !in tried
    ensures i % 64 in w.view(mask) && Shows(w, j, i % 64, wanted)
    ensures forall n :: 0 <= n < |tried| ==> tried[n] < i
  {
    assert i == 64 * j + i % 64;
  }

  /** A search of one word by its bits is one in the order of the indices. */
  lemma WordInTurn(w: World, j: nat, mask0: bv64, mask: bv64, wanted: bool, tried: seq<nat>, found: bool)
    requires Faithful(w.view) && LowestFirst(w, j, mask, wanted, tried)
    requires Remaining(w, j, mask0, tried, mask) && (found ==> tried != [])
    requires !found ==> forall k :: k in w.view(mask) ==> !Shows(w, j, k, wanted)
    ensures InTurn(w, wanted, i => i, Segment(w, j, mask0), tried, found)
  {
    SegmentIsSelected(w, j, mask0);
    forall i | i in Segment(w, j, mask0) && Seen(w, 0, i, wanted) && (found ==> i < tried[|tried| - 1])
      ensures i in tried
    {
      if i !in tried { LeftOver(w, j, mask0, mask, wanted, tried, i); }
    }
  }

  lemma NoneInTurn(w: World, j: nat, mask0: bv64, mask: bv64, wanted: bool, tried: seq<nat>, t: nat)
    requires Faithful(w.view) && Steady(w) && LowestFirst(w, j, mask, wanted, tried)
    requires Remaining(w, j, mask0, tried, mask)
    requires forall k :: k in w.view(mask) ==> (k in w.view(w.load(t, j))) != wanted
    ensures InTurn(w, wanted, i => i, Segment(w, j, mask0), tried, false)
  {
    assert w.load(t, j) == w.load(0, j);
    WordInTurn(w, j, mask0, mask, wanted, tried, false);
  }

  /** Load the word and pick the lowest candidate that is in the wanted state, 64 if there is none. */
  method Pick(word: bv64, mask: bv64, wanted: bool, ghost view: View) returns (k: nat)
    requires Faithful(view)
    ensures k <= 64 && (k < 64 ==> k in view(mask) && (k in view(word)) == wanted)
    ensures forall i :: i in view(mask) && (i in view(word)) == wanted ==> k <= i
    ensures k == 64 ==> forall i :: i in view(mask) ==> (i in view(word)) != wanted
  {
    var field := Flip(word, wanted, view);
    var masked := And(field, mask, view);
    k := LowestOne(masked, view);
    assert forall i :: i in view(mask) ==> 0 <= i < 64;
    assert forall i :: i in view(mask) && (i in view(word)) == wanted ==> i in view(masked);
    if k == 64 {
      forall i | i in view(mask) ensures (i in view(word)) != wanted { assert i !in view(masked); }
    }
  }

  method Strike(mask: bv64, k: nat, ghost view: View) returns (r: bv64)
    requires Faithful(view) && k < 64
    ensures view(r) == view(mask) - {k}
  {
    var one := BitMask(k, view);
    var others := Not(one, view);
    r := And(mask, others, view);
    assert forall i :: i in view(mask) ==> 0 <= i < 64;
  }

  /**
   Probe the bits of word `j` under a mask, lowest first. Each candidate is tried at most once even
   if its bit keeps changing, and without success every bit of the mask was tried or passed over.
   */
  method ProbeChunk(j: nat, mask0: bv64, wanted: bool, w: World, t0: nat)
    returns (found: bool, tried: seq<nat>, t: nat)
    requires Faithful(w.view)
    ensures AllTried(w, wanted, tried, found)
    ensures forall i :: i in tried ==> Selected(w, j, mask0, i)
    ensures !found ==> forall i: nat :: Selected(w, j, mask0, i) ==> Examined(w, wanted, tried, i)
    ensures Steady(w) ==> InTurn(w, wanted, i => i, Segment(w, j, mask0), tried, found)
  {
    var mask := mask0;
    tried, t := [], t0;
    while true
      invariant Steady(w) ==> LowestFirst(w, j, mask, wanted, tried)
      invariant AllTried(w, wanted, tried, false)
      invariant forall i :: i in tried ==> Selected(w, j, mask0, i)
      invariant Remaining(w, j, mask0, tried, mask)
      decreases w.view(mask)
    {
      var k := Pick(w.load(t, j), mask, wanted, w.view);
      if k == 64 {
        NothingLeft(w, j, mask0, mask, wanted, t, tried);
        if Steady(w) { NoneInTurn(w, j, mask0, mask, wanted, tried, t); }
        return false, tried, t + 1;
      }
      var idx := 64 * j + k;
      PickedIsSelected(w, j, mask0, mask, tried, k);
      Append(w, wanted, tried, t, idx);
      var ok := w.accept(t, idx);
      var rest := Strike(mask, k, w.view);
      OneTried(w, j, mask0, mask, rest, tried, k);
      if Steady(w) {
        PickInTurn(w, j, mask, rest, wanted, tried, t, k);
        if ok { WordInTurn(w, j, mask0, rest, wanted, tried + [idx], true); }
      }
      if ok { return true, tried + [idx], t + 1; }
      tried, t, mask := tried + [idx], t + 1, rest;
    }
  }

  // ------------------------------------------------------------ probing all words

  /** A search that has dealt with the indices in `region` without success. */
  ghost predicate Searched(w: World, wanted: bool, region: set<nat>, tried: seq<nat>)
  {
    && AllTried(w, wanted, tried, false)
    && (forall i :: i in tried ==> i in region)
    && (forall i :: i in region ==> Examined(w, wanted, tried, i))
  }

  lemma Join(w: World, wanted: bool, a: seq<nat>, b: seq<nat>, found: bool)
    requires AllTried(w, wanted, a, false) && AllTried(w, wanted, b, found)
    requires forall i :: i in a ==> i !in b
    ensures AllTried(w, wanted, a + b, found)
  {
    forall n | 0 <= n < |a + b| ensures Tried(w, wanted, (a + b)[n], found && n == |a + b| - 1) {
      if n < |a| {
        assert Tried(w, wanted, a[n], false);
      } else {
        assert Tried(w, wanted, b[n - |a|], found && n - |a| == |b| - 1);
      }
    }
    forall m, n | 0 <= m < n < |a + b| ensures (a + b)[m] != (a + b)[n] {
      if m < |a| <= n { assert a[m] in a && b[n - |a|] in b; }
    }
  }

  /** All of a region comes before all of a segment. */
  ghost predicate Before(w: World, j: nat, mask: bv64, rank: Ranking, region: set<nat>)
  {
    forall i: nat, x: nat {:trigger rank(i), Selected(w, j, mask, x)} ::
      i in region && Selected(w, j, mask, x) ==> rank(i) < rank(x)
  }

  lemma JoinInTurn(w: World, j: nat, mask: bv64, wanted: bool, rank: Ranking, region: set<nat>,
                   a: seq<nat>, b: seq<nat>, found: bool)
    requires Faithful(w.view) && InTurn(w, wanted, rank, region, a, false) && (forall i :: i in a ==> i in region)
    requires InTurn(w, wanted, i => i, Segment(w, j, mask), b, found)
    requires forall i :: i in b ==> Selected(w, j, mask, i)
    requires Ascending(w, j, mask, rank) && Before(w, j, mask, rank, region)
    ensures InTurn(w, wanted, rank, region + Segment(w, j, mask), a + b, found)
  {
    SegmentIsSelected(w, j, mask);
    forall m, n | 0 <= m < n < |a + b| ensures rank((a + b)[m]) < rank((a + b)[n]) {
      if n < |a| {
      } else if m < |a| {
        assert a[m] in a && b[n - |a|] in b;
      } else {
        assert b[m - |a|] in b && b[n - |a|] in b && b[m - |a|] < b[n - |a|];
      }
    }
    forall i | && i in region + Segment(w, j, mask) && Seen(w, 0, i, wanted)
               && (found ==> rank(i) < rank((a + b)[|a + b| - 1]))
      ensures i in a + b
    {
      if i !in region && found {
        assert b[|b| - 1] in b && (a + b)[|a + b| - 1] == b[|b| - 1];
        assert i < b[|b| - 1];
      }
    }
  }

  /** Probe one more segment, which must not overlap what was searched before. */
  method ProbeSegment(j: nat, mask: bv64, wanted: bool, w: World, t0: nat, tried0: seq<nat>, ghost region: set<nat>,
                      ghost rank: Ranking)
    returns (found: bool, tried: seq<nat>, t: nat, ghost region': set<nat>)
    requires Faithful(w.view) && Searched(w, wanted, region, tried0)
    requires forall i :: i in region ==> !Selected(w, j, mask, i)
    requires Ascending(w, j, mask, rank) && Before(w, j, mask, rank, region)
    requires Steady(w) ==> InTurn(w, wanted, rank, region, tried0, false)
    ensures AllTried(w, wanted, tried, found) && forall i :: i in tried ==> i in region'
    ensures !found ==> Searched(w, wanted, region', tried)
    ensures forall i: nat :: i in region' <==> i in region || Selected(w, j, mask, i)
    ensures Steady(w) ==> InTurn(w, wanted, rank, region', tried, found)
  {
    var more;
    found, more, t := ProbeChunk(j, mask, wanted, w, t0);
    tried := tried0 + more;
    region' := region + Segment(w, j, mask);
    SegmentIsSelected(w, j, mask);
    Join(w, wanted, tried0, more, found);
    if Steady(w) { JoinInTurn(w, j, mask, wanted, rank, region, tried0, more, found); }
  }

  function Words(size: nat): (r: nat) { (size + 63) / 64 }

  /** Bits of word `j` that stand for workers. */
  predicate InWord(size: nat, j: nat, k: nat)
  {
    j < Words(size) && k < 64 && (j == Words(size) - 1 && size % 64 != 0 ==> k < size % 64)
  }

  lemma InWordIff(size: nat, i: nat)
    ensures i < size <==> InWord(size, i / 64, i % 64)
  {
  }

  /** The word probed after `b` steps from word `s`, and the number of steps to word `j`. */
  function WordAfter(s: nat, b: nat, n: nat): (r: nat) { if s + b < n then s + b else s + b - n }

  function StepsTo(s: nat, j: nat, n: nat): (r: int) { if j >= s then j - s else j - s + n }

  /**
   The rank of index `i` in a search from `start`: the bits of the start word below the start, then those
   from the start on, then the words behind it and, from the first word, those in front of it.
   */
  function Turn(size: nat, start: nat, i: nat): (r: int)
  {
    64 * Round(size, start, i) + i % 64
  }

  function Round(size: nat, start: nat, i: nat): (r: int)
  {
    if i / 64 == start / 64 then (if i % 64 < start % 64 then 0 else 1)
    else 1 + StepsTo(start / 64, i / 64, Words(size))
  }

  function Turns(size: nat, start: nat): (rank: Ranking)
  {
    (i: nat) => Turn(size, start, i)
  }

  lemma EarlierRound(size: nat, start: nat, i: nat, x: nat)
    ensures Round(size, start, i) < Round(size, start, x) ==> Turn(size, start, i) < Turn(size, start, x)
    ensures Round(size, start, i) == Round(size, start, x) && i / 64 == x / 64 && i < x ==>
              Turn(size, start, i) < Turn(size, start, x)
  {
  }

  /** A segment that belongs to one round is searched in turn after all rounds before. */
  lemma RoundInTurn(w: World, size: nat, start: nat, j: nat, mask: bv64, region: set<nat>, r: int)
    requires forall x: nat :: Selected(w, j, mask, x) ==> Round(size, start, x) == r
    requires forall i: nat :: i in region ==> Round(size, start, i) < r
    ensures Ascending(w, j, mask, Turns(size, start)) && Before(w, j, mask, Turns(size, start), region)
  {
    forall x: nat, y: nat | Selected(w, j, mask, x) && Selected(w, j, mask, y) && x < y
      ensures Turn(size, start, x) < Turn(size, start, y)
    {
      EarlierRound(size, start, x, y);
    }
    forall i: nat, x: nat | i in region && Selected(w, j, mask, x) ensures Turn(size, start, i) < Turn(size, start, x) {
      EarlierRound(size, start, i, x);
    }
  }

  lemma WordAfterIsMod(s: nat, b: nat, n: nat)
    requires s < n && b < n
    ensures WordAfter(s, b, n) == (s + b) % n < n
    ensures forall j :: 0 <= j < n ==> (j == WordAfter(s, b, n) <==> StepsTo(s, j, n) == b)
  {
    if s + b >= n { assert (s + b) % n == s + b - n by { ModOnce(s + b, n); } }
  }

  lemma ModOnce(x: nat, n: nat)
    requires n <= x < 2 * n
    ensures x % n == x - n
  {
  }

  /** The mask of the bits of word `j` that stand for workers, cut from `mask`. */
  method Trim(size: nat, j: nat, mask: bv64, ghost view: View) returns (r: bv64)
    requires Faithful(view) && j < Words(size)
    ensures forall k :: k in view(r) <==> k in view(mask) && InWord(size, j, k)
  {
    assert forall k :: k in view(mask) ==> k < 64;
    r := mask;
    if j == Words(size) - 1 && size % 64 != 0 {
      var low := MaskBelow(size % 64, view);
      r := And(mask, low, view);
    }
  }

  /** The bits below the start; asking to leave the start out changes nothing, as it is not among them. */
  method LowerHalf(size: nat, start: nat, excludeStart: bool, ghost view: View) returns (mask: bv64)
    requires Faithful(view) && start < size
    ensures forall k :: k in view(mask) <==> 0 <= k < start % 64
  {
    InWordIff(size, start);
    var first := MaskFrom(start % 64, view);
    mask := Not(first, view);
    mask := Trim(size, start / 64, mask, view);
    if excludeStart { mask := Strike(mask, start % 64, view); }
  }

  method UpperHalf(size: nat, start: nat, ghost view: View) returns (mask: bv64)
    requires Faithful(view) && start < size
    ensures forall k :: k in view(mask) <==> start % 64 <= k < 64 && InWord(size, start / 64, k)
  {
    mask := MaskFrom(start % 64, view);
    mask := Trim(size, start / 64, mask, view);
  }

  method WholeWord(size: nat, j: nat, ghost view: View) returns (mask: bv64)
    requires Faithful(view) && j < Words(size)
    ensures forall k :: k in view(mask) <==> 0 <= k < 64 && InWord(size, j, k)
  {
    FullWord(view);
    mask := Trim(size, j, ONES, view);
  }

  /** Search the word of the start index: below it first, then from it on. */
  method ProbeStartWord(size: nat, start: nat, wanted: bool, excludeStart: bool, w: World)
    returns (found: bool, tried: seq<nat>, t: nat, ghost region: set<nat>)
    requires Faithful(w.view) && start < size
    ensures AllTried(w, wanted, tried, found) && forall i :: i in tried ==> i < size
    ensures !found ==> Searched(w, wanted, region, tried)
    ensures !found ==> forall i: nat :: i in region <==> i / 64 == start / 64 && i < size
    ensures Steady(w) ==> InTurn(w, wanted, Turns(size, start), region, tried, found)
    ensures found ==> tried[|tried| - 1] < size && forall i: nat ::
              i < size && Turn(size, start, i) < Turn(size, start, tried[|tried| - 1]) ==> i in region
  {
    InWordIff(size, start);
    var lower := LowerHalf(size, start, excludeStart, w.view);
    RoundInTurn(w, size, start, start / 64, lower, {}, 0);
    found, tried, t, region := ProbeSegment(start / 64, lower, wanted, w, 0, [], {}, Turns(size, start));
    forall i: nat ensures i in region <==> i / 64 == start / 64 && i % 64 < start % 64 {}
    forall i | i in region ensures i < size { InWordIff(size, i); }
    if found {
      EarlierCovered(size, start, region, tried[|tried| - 1], 0);
      return;
    }
    var upper := UpperHalf(size, start, w.view);
    RoundInTurn(w, size, start, start / 64, upper, region, 1);
    found, tried, t, region := ProbeSegment(start / 64, upper, wanted, w, t, tried, region, Turns(size, start));
    forall i: nat ensures i in region <==> i / 64 == start / 64 && i < size { InWordIff(size, i); }
    if found { EarlierCovered(size, start, region, tried[|tried| - 1], 1); }
  }

  /** All workers that come before one of round `r` are among those of the rounds up to it. */
  lemma EarlierCovered(size: nat, start: nat, region: set<nat>, last: nat, r: int)
    requires forall i: nat :: i < size && Round(size, start, i) <= r ==> i in region
    requires Round(size, start, last) <= r
    ensures forall i: nat :: i < size && Turn(size, start, i) < Turn(size, start, last) ==> i in region
  {
    forall i: nat | i < size && Turn(size, start, i) < Turn(size, start, last) ensures i in region {
      EarlierRound(size, start, last, i);
    }
  }

  /**
   Search all workers beginning near `start`. No worker is tried twice; if the search fails, every
   worker was tried or seen in the other state, the start included. If the words do not change meanwhile,
   the workers in the wanted state are tried one after the other in the order of the search.
   */
  method ProbeByValue(size: nat, start: nat, wanted: bool, excludeStart: bool, w: World)
    returns (found: bool, tried: seq<nat>)
    requires Faithful(w.view)
    ensures start >= size ==> !found && tried == []
    ensures AllTried(w, wanted, tried, found) && forall i :: i in tried ==> i < size
    ensures start < size && !found ==> forall i :: 0 <= i < size ==> Examined(w, wanted, tried, i)
    ensures start < size && Steady(w) ==> SearchedInTurn(w, wanted, size, start, tried, found)
  {
    if start >= size { return false, []; }
    var n, s := Words(size), start / 64;
    InWordIff(size, start);
    var t;
    ghost var region;
    found, tried, t, region := ProbeStartWord(size, start, wanted, excludeStart, w);
    if found {
      if Steady(w) { FoundInTurn(w, wanted, size, start, region, tried, found); }
      return;
    }
    forall i: nat ensures i in region <==> i < size && StepsTo(s, i / 64, n) < 1 { InWordIff(size, i); }
    for b := 1 to n
      invariant Searched(w, wanted, region, tried)
      invariant Steady(w) ==> InTurn(w, wanted, Turns(size, start), region, tried, false)
      invariant forall i: nat :: i in region <==> i < size && StepsTo(s, i / 64, n) < b
    {
      var j := (s + b) % n;
      var mask;
      ghost var region';
      mask, region' := NextWord(size, start, b, region, w);
      found, tried, t, region := ProbeSegment(j, mask, wanted, w, t, tried, region, Turns(size, start));
      forall i: nat ensures i in region <==> i in region' {}
      if found {
        WordCovered(size, start, b, region, tried[|tried| - 1]);
        if Steady(w) { FoundInTurn(w, wanted, size, start, region, tried, found); }
        return;
      }
    }
    forall i | 0 <= i < size ensures i in region { InWordIff(size, i); }
    if Steady(w) { FoundInTurn(w, wanted, size, start, region, tried, false); }
  }

  /** The mask of the word after `b` steps, and the region that is searched with it. */
  method NextWord(size: nat, start: nat, b: nat, ghost region: set<nat>, w: World)
    returns (mask: bv64, ghost region': set<nat>)
    requires Faithful(w.view) && start < size && 1 <= b < Words(size)
    requires forall i: nat :: i in region <==> i < size && StepsTo(start / 64, i / 64, Words(size)) < b
    ensures var j := (start / 64 + b) % Words(size);
            && (forall i :: i in region ==> !Selected(w, j, mask, i))
            && Ascending(w, j, mask, Turns(size, start)) && Before(w, j, mask, Turns(size, start), region)
            && (forall i: nat :: i in region' <==> i in region || Selected(w, j, mask, i))
    ensures forall i: nat :: i in region' <==> i < size && StepsTo(start / 64, i / 64, Words(size)) < b + 1
  {
    var n, s := Words(size), start / 64;
    InWordIff(size, start);
    var j := (s + b) % n;
    WordAfterIsMod(s, b, n);
    mask := WholeWord(size, j, w.view);
    region' := region + Segment(w, j, mask);
    SegmentIsSelected(w, j, mask);
    forall i: nat ensures Selected(w, j, mask, i) <==> i < size && StepsTo(s, i / 64, n) == b { InWordIff(size, i); }
    RoundInTurn(w, size, start, j, mask, region, 1 + b);
  }

  lemma WordCovered(size: nat, start: nat, b: nat, region: set<nat>, last: nat)
    requires start < size && 1 <= b
    requires forall i: nat :: i in region <==> i < size && StepsTo(start / 64, i / 64, Words(size)) < b + 1
    requires last in region
    ensures forall i: nat :: i < size && Turn(size, start, i) < Turn(size, start, last) ==> i in region
  {
    EarlierCovered(size, start, region, last, 1 + b);
  }

  predicate EarlierTurn(size: nat, start: nat, i: nat, tried: seq<nat>)
    requires tried != []
  {
    Turn(size, start, i) < Turn(size, start, tried[|tried| - 1])
  }

  /** Of the workers in the wanted state, those tried are the first in the order of the search, in that order. */
  ghost predicate SearchedInTurn(w: World, wanted: bool, size: nat, start: nat, tried: seq<nat>, found: bool)
  {
    && (found ==> tried != [])
    && (forall m, n :: 0 <= m < n < |tried| ==> Turn(size, start, tried[m]) < Turn(size, start, tried[n]))
    && (forall i :: i in tried ==> Seen(w, 0, i, wanted))
    && forall i: nat :: i < size && Seen(w, 0, i, wanted) && (found ==> EarlierTurn(size, start, i, tried)) ==>
                          i in tried
  }

  lemma FoundInTurn(w: World, wanted: bool, size: nat, start: nat, region: set<nat>, tried: seq<nat>, found: bool)
    requires InTurn(w, wanted, Turns(size, start), region, tried, found)
    requires if found then
               forall i: nat :: i < size && Turn(size, start, i) < Turn(size, start, tried[|tried| - 1]) ==> i in region
             else forall i: nat :: i < size ==> i in region
    ensures SearchedInTurn(w, wanted, size, start, tried, found)
  {
  }

  // ------------------------------------------------------------ claiming a free worker

  /**
   Claim a free worker, starting at the caller's own position when it belongs to the pool. The
   callback clears the worker's bit and accepts if it was set. -1 means that every worker was seen
   busy or was taken by somebody else first.
   */
  method FindFreeWorker(size: nat, base: nat, current: nat, w: World) returns (r: int)
    requires Faithful(w.view)
    ensures -1 <= r < size
    ensures r >= 0 ==> Tried(w, true, r, true)
    ensures r < 0 ==> forall i :: 0 <= i < size ==> Tried(w, true, i, false) || PassedOver(w, true, i)
    ensures Steady(w) && r >= 0 ==> Seen(w, 0, r, true)
    ensures Steady(w) && r >= 0 ==>
              var start := if base <= current < base + size then current - base else 0;
              forall i: nat :: i < size && Seen(w, 0, i, true) && Turn(size, start, i) < Turn(size, start, r) ==>
                                 Tried(w, true, i, false)
  {
    var start := if base <= current < base + size then current - base else 0;
    var found, tried := ProbeByValue(size, start, true, false, w);
    if found {
      var last := tried[|tried| - 1];
      assert last in tried;
      forall i: nat | Steady(w) && i < size && Seen(w, 0, i, true) && Turn(size, start, i) < Turn(size, start, last)
        ensures Tried(w, true, i, false)
      {
        var n :| 0 <= n < |tried| && tried[n] == i;
        assert Tried(w, true, tried[n], false);
      }
      return last;
    }
    forall i | 0 <= i < size && !PassedOver(w, true, i) ensures Tried(w, true, i, false) {
      assert Examined(w, true, tried, i);
      var n :| 0 <= n < |tried| && tried[n] == i;
      assert Tried(w, true, tried[n], false);
    }
    return -1;
  }

  // ------------------------------------------------------------ claims are exclusive

  /** One call of `Set`. The calls of all threads happen in some order. */
  datatype Exchange = Exchange(i: nat, v: bool)

  predicate InField(bits: seq<bool>, ops: seq<Exchange>)
  {
    forall n :: 0 <= n < |ops| ==> ops[n].i < |bits|
  }

  function After(bits: seq<bool>, ops: seq<Exchange>): (after: seq<bool>)
    requires InField(bits, ops)
    ensures |after| == |bits|
  {
    if ops == [] then bits
    else After(bits, ops[..|ops| - 1])[ops[|ops| - 1].i := ops[|ops| - 1].v]
  }

  /** What the `n`-th call returns. */
  function Returned(bits: seq<bool>, ops: seq<Exchange>, n: nat): (before: bool)
    requires InField(bits, ops) && n < |ops|
  {
    After(bits, ops[..n])[ops[n].i]
  }

  /** The `n`-th call changes the state of worker `i` to `v`. */
  predicate Flips(bits: seq<bool>, ops: seq<Exchange>, n: nat, i: nat, v: bool)
  {
    InField(bits, ops) && n < |ops| && ops[n] == Exchange(i, v) && Returned(bits, ops, n) != v
  }

  lemma AfterNext(bits: seq<bool>, ops: seq<Exchange>, n: nat)
    requires InField(bits, ops) && n < |ops|
    ensures After(bits, ops[..n + 1]) == After(bits, ops[..n])[ops[n].i := ops[n].v]
  {
    assert ops[..n + 1][..n] == ops[..n];
  }

  /** Between a moment at which worker `i` is busy and one at which it is available, somebody releases it. */
  lemma {:induction false} ReleasedBetween(bits: seq<bool>, ops: seq<Exchange>, m: nat, n: nat, i: nat) returns (r: nat)
    requires InField(bits, ops) && m <= n <= |ops| && i < |bits|
    requires !After(bits, ops[..m])[i] && After(bits, ops[..n])[i]
    ensures m <= r < n && Flips(bits, ops, r, i, true)
  {
    AfterNext(bits, ops, n - 1);
    if After(bits, ops[..n - 1])[i] {
      r := ReleasedBetween(bits, ops, m, n - 1, i);
    } else {
      r := n - 1;
    }
  }

  /** Of two claims of one worker, by whichever threads, the second follows a release after the first. */
  lemma ClaimedOncePerRelease(bits: seq<bool>, ops: seq<Exchange>, a: nat, b: nat, i: nat) returns (r: nat)
    requires a < b && Flips(bits, ops, a, i, false) && Flips(bits, ops, b, i, false)
    ensures a < r < b && Flips(bits, ops, r, i, true)
  {
    AfterNext(bits, ops, a);
    r := ReleasedBetween(bits, ops, a + 1, b, i);
  }

  /** How often worker `i` was turned to `v` by the first `n` calls. */
  function Count(bits: seq<bool>, ops: seq<Exchange>, n: nat, i: nat, v: bool): (count: nat)
    requires n <= |ops|
  {
    if n == 0 then 0 else Count(bits, ops, n - 1, i, v) + (if Flips(bits, ops, n - 1, i, v) then 1 else 0)
  }

  /** A worker is claimed as often as it became available, less one if it is available still. */
  lemma {:induction false} ClaimsMatchReleases(bits: seq<bool>, ops: seq<Exchange>, n: nat, i: nat)
    requires InField(bits, ops) && n <= |ops| && i < |bits|
    ensures Count(bits, ops, n, i, false) ==
            B2i(bits[i]) + Count(bits, ops, n, i, true) - B2i(After(bits, ops[..n])[i])
  {
    if n > 0 {
      ClaimsMatchReleases(bits, ops, n - 1, i);
      AfterNext(bits, ops, n - 1);
    }
  }

  /** The callback that a search makes after its load `t` is call number `at(t)`; it accepts what it turned busy. */
  ghost predicate Callbacks(w: World, bits: seq<bool>, ops: seq<Exchange>, at: nat -> nat)
  {
    forall t: nat, i: nat :: w.accept(t, i) ==> Flips(bits, ops, at(t), i, false)
  }

  /** A worker that a search finds was claimed by it. */
  lemma FoundIsClaimed(w: World, bits: seq<bool>, ops: seq<Exchange>, at: nat -> nat, r: nat) returns (t: nat)
    requires Callbacks(w, bits, ops, at) && Tried(w, true, r, true)
    ensures Flips(bits, ops, at(t), r, false)
  {
    t :| Seen(w, t, r, true) && w.accept(t, r) == true;
  }

  /** Two searches that find the same worker are apart by a release of it. */
  lemma FoundTwice(w: World, w': World, bits: seq<bool>, ops: seq<Exchange>, at: nat -> nat, at': nat -> nat, r: nat)
    returns (t: nat, t': nat, n: nat)
    requires Callbacks(w, bits, ops, at) && Callbacks(w', bits, ops, at')
    requires forall t: nat, t': nat :: at(t) != at'(t')
    requires Tried(w, true, r, true) && Tried(w', true, r, true)
    ensures Flips(bits, ops, at(t), r, false) && Flips(bits, ops, at'(t'), r, false) && Flips(bits, ops, n, r, true)
    ensures at(t) < n < at'(t') || at'(t') < n < at(t)
  {
    t := FoundIsClaimed(w, bits, ops, at, r);
    t' := FoundIsClaimed(w', bits, ops, at', r);
    assert at(t) != at'(t');
    if at(t) < at'(t') {
      n := ClaimedOncePerRelease(bits, ops, at(t), at'(t'), r);
    } else {
      n := ClaimedOncePerRelease(bits, ops, at'(t'), at(t), r);
    }
  }
}
