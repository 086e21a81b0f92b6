/**
 The bump allocators and the chunked allocator on top of them. Addresses are 64-bit words; a chunk
 remembers, beside what the program stores, the blocks that are handed out and not yet returned.
 */
module Allocator {
  import opened PowerOfTwo

  const WORD: nat := 0x1_0000_0000_0000_0000

  /** Counters of live blocks are 16 bits wide. */
  const COUNT_LIMIT: nat := 0x1_0000

  /** A block at address 0 is the null block. */
  datatype Block = Block(ptr: nat, len: nat)

  const NULL_BLOCK := Block(0, 0)

  predicate Apart(a: Block, b: Block)
  {
    a.ptr + a.len <= b.ptr || b.ptr + b.len <= a.ptr
  }

  ghost predicate PairwiseApart(blocks: set<Block>)
  {
    forall a, b :: a in blocks && b in blocks && a != b ==> Apart(a, b)
  }

  /** Atomic subtraction on an address word. */
  function Subtract(addr: nat, n: nat): (r: nat)
  {
    if n <= addr then addr - n else if n <= addr + WORD then addr - n + WORD else 0
  }

  /** A request is accepted when it fits, and when it is larger than the address and wraps around. */
  lemma AcceptedIff(next: nat, lower: nat, n: nat)
    requires lower <= next < WORD && n < WORD
    ensures Subtract(next, n) < WORD
    ensures Subtract(next, n) >= lower <==> n <= next - lower || n > next
  {
  }

  /** What a 16-bit counter shows of `n`. */
  function Counter(n: nat): (c: nat)
    ensures c < COUNT_LIMIT && (n < COUNT_LIMIT ==> c == n)
  {
    if n < COUNT_LIMIT then n else Counter(n - COUNT_LIMIT)
  }

  function Up(c: nat): (c': nat) { if c + 1 == COUNT_LIMIT then 0 else c + 1 }

  function Down(c: nat): (c': nat) { if c == 0 then COUNT_LIMIT - 1 else c - 1 }

  lemma {:induction false} CounterUp(n: nat)
    ensures Up(Counter(n)) == Counter(n + 1) && Down(Counter(n + 1)) == Counter(n)
  {
    if n >= COUNT_LIMIT { CounterUp(n - COUNT_LIMIT); }
  }

  // ------------------------------------------------------------ one chunk

  /**
   A chunk of memory that is handed out from the top. `blocks` are the outstanding blocks of some
   length, `empties` those of length 0, of which several may look the same.
   */
  datatype Chunk = Chunk(lower: nat, upper: nat, next: nat, count: nat, blocks: set<Block>, empties: multiset<Block>)

  function NewChunk(lower: nat, upper: nat): (c: Chunk)
  {
    Chunk(lower, upper, upper, 0, {}, multiset{})
  }

  function Outstanding(c: Chunk): (n: nat)
  {
    |c.blocks| + |c.empties|
  }

  predicate Holds(c: Chunk, blk: Block)
  {
    blk in c.blocks || blk in c.empties
  }

  predicate Owns(c: Chunk, blk: Block)
  {
    c.lower <= blk.ptr < c.upper
  }

  predicate Full(c: Chunk)
  {
    c.next <= c.lower
  }

  /** Blocks lie in `[lower, upper)` above `next`, apart from each other, and fill no more than was taken. */
  ghost predicate Carved(lower: nat, upper: nat, next: nat, bs: set<Block>, es: multiset<Block>)
  {
    && |bs| <= upper - (if next < lower then lower else next)
    && (forall b :: b in bs ==> 0 < b.len && lower <= b.ptr && next <= b.ptr && b.ptr + b.len <= upper)
    && (forall e :: e in es ==> e.len == 0 && lower <= e.ptr && next <= e.ptr <= upper)
    && PairwiseApart(bs)
    && (forall b, e :: b in bs && e in es ==> Apart(b, e))
  }

  ghost predicate ChunkOk(c: Chunk)
  {
    && 0 < c.lower <= c.upper < WORD && c.next <= c.upper && c.count == Counter(Outstanding(c))
    && Carved(c.lower, c.upper, c.next, c.blocks, c.empties)
  }

  function Entered(c: Chunk, blk: Block): (c': Chunk)
  {
    if blk.len > 0 then c.(blocks := c.blocks + {blk}) else c.(empties := c.empties + multiset{blk})
  }

  function BlockFrom(c: Chunk, n: nat): (blk: Block)
  {
    if Subtract(c.next, n) >= c.lower then Block(Subtract(c.next, n), n) else NULL_BLOCK
  }

  /** The chunk after a request; a block that wrapped around is counted and lies in no chunk. */
  function Allocated(c: Chunk, n: nat): (c': Chunk)
  {
    var c1 := c.(next := Subtract(c.next, n));
    if c1.next < c.lower then c1
    else if n > c.next then c1.(count := Up(c.count))
    else Entered(c1.(count := Up(c.count)), Block(c1.next, n))
  }

  function Returned(c: Chunk, blk: Block): (c': Chunk)
  {
    c.(count := Down(c.count), blocks := c.blocks - {blk}, empties := c.empties - multiset{blk})
  }

  lemma CarveBlock(lower: nat, upper: nat, next: nat, bs: set<Block>, es: multiset<Block>, blk: Block)
    requires Carved(lower, upper, next, bs, es) && lower <= blk.ptr && blk.len > 0 && blk.ptr + blk.len == next <= upper
    ensures blk !in bs && |bs + {blk}| == |bs| + 1
    ensures Carved(lower, upper, blk.ptr, bs + {blk}, es)
  {
  }

  lemma CarveEmpty(lower: nat, upper: nat, next: nat, bs: set<Block>, es: multiset<Block>)
    requires Carved(lower, upper, next, bs, es) && lower <= next <= upper
    ensures Carved(lower, upper, next, bs, es + multiset{Block(next, 0)})
    ensures |es + multiset{Block(next, 0)}| == |es| + 1
  {
    var es' := es + multiset{Block(next, 0)};
    forall e | e in es' ensures e in es || e == Block(next, 0) {}
  }

  lemma CarveNothing(lower: nat, upper: nat, next: nat, bs: set<Block>, es: multiset<Block>, next': nat)
    requires Carved(lower, upper, next, bs, es) && next' < lower && (next < lower || next' <= next)
    ensures Carved(lower, upper, next', bs, es)
  {
  }

  /** Which requests a chunk grants. */
  lemma GrantsIff(c: Chunk, n: nat)
    requires ChunkOk(c) && c.lower <= c.next && n < WORD
    ensures BlockFrom(c, n) != NULL_BLOCK <==> n <= c.next - c.lower || n > c.next
  {
    AcceptedIff(c.next, c.lower, n);
  }

  lemma RefusingOk(c: Chunk, n: nat)
    requires ChunkOk(c) && n < WORD && BlockFrom(c, n) == NULL_BLOCK
    ensures ChunkOk(Allocated(c, n)) && Full(Allocated(c, n))
  {
    CarveNothing(c.lower, c.upper, c.next, c.blocks, c.empties, Subtract(c.next, n));
  }

  lemma EmptyOk(c: Chunk)
    requires ChunkOk(c) && c.lower <= c.next
    ensures ChunkOk(c.(count := Up(c.count), empties := c.empties + multiset{Block(c.next, 0)}))
  {
    CounterUp(Outstanding(c));
    CarveEmpty(c.lower, c.upper, c.next, c.blocks, c.empties);
  }

  lemma BlockOk(c: Chunk, blk: Block)
    requires ChunkOk(c) && c.lower <= blk.ptr && blk.len > 0 && blk.ptr + blk.len == c.next
    ensures ChunkOk(c.(next := blk.ptr, count := Up(c.count), blocks := c.blocks + {blk}))
  {
    CounterUp(Outstanding(c));
    CarveBlock(c.lower, c.upper, c.next, c.blocks, c.empties, blk);
  }

  lemma GrantingOk(c: Chunk, n: nat)
    requires ChunkOk(c) && n <= c.next && BlockFrom(c, n) != NULL_BLOCK
    ensures ChunkOk(Allocated(c, n))
  {
    if n == 0 { EmptyOk(c); } else { BlockOk(c, BlockFrom(c, n)); }
  }

  /** Chunk `c` turned into `c'` by granting `blk` for `n` bytes. */
  predicate Granted(c: Chunk, c': Chunk, n: nat, blk: Block)
  {
    && blk.len == n && c.lower <= blk.ptr && blk.ptr + n == c.next
    && (Owns(c', blk) <==> n != 0 || c.next < c.upper)
    && Holds(c', blk) && (n > 0 ==> !Holds(c, blk))
    && Outstanding(c') == Outstanding(c) + 1
  }

  /** A block granted within the address is new, lies in the chunk, and is owned unless it is empty and the first. */
  lemma GrantedBlock(c: Chunk, n: nat)
    requires ChunkOk(c) && n <= c.next && BlockFrom(c, n) != NULL_BLOCK
    ensures Granted(c, Allocated(c, n), n, BlockFrom(c, n))
  {
    if n > 0 {
      CarveBlock(c.lower, c.upper, c.next, c.blocks, c.empties, BlockFrom(c, n));
    } else {
      CarveEmpty(c.lower, c.upper, c.next, c.blocks, c.empties);
      assert Block(c.next, 0) in c.empties + multiset{Block(c.next, 0)};
    }
  }

  /** A block granted beyond the address reaches past the end of the address space. */
  lemma WrappedBlock(c: Chunk, n: nat)
    requires ChunkOk(c) && c.next < n < WORD && BlockFrom(c, n) != NULL_BLOCK
    ensures BlockFrom(c, n).ptr + BlockFrom(c, n).len >= WORD
  {
  }

  lemma FewerEmpties(es: multiset<Block>, blk: Block)
    ensures forall e :: e in es - multiset{blk} ==> e in es
    ensures blk in es ==> |es - multiset{blk}| == |es| - 1
    ensures blk !in es ==> es - multiset{blk} == es
  {
  }

  lemma CarveReturn(lower: nat, upper: nat, next: nat, bs: set<Block>, es: multiset<Block>, blk: Block)
    requires Carved(lower, upper, next, bs, es) && (blk in bs || blk in es)
    ensures Carved(lower, upper, next, bs - {blk}, es - multiset{blk})
    ensures |bs - {blk}| + |es - multiset{blk}| == |bs| + |es| - 1
  {
    FewerEmpties(es, blk);
    if blk in bs {
      assert blk.len > 0 && blk !in es;
    } else {
      assert blk.len == 0 && bs - {blk} == bs;
    }
  }

  lemma ReturnedOk(c: Chunk, blk: Block)
    requires ChunkOk(c) && Holds(c, blk)
    ensures ChunkOk(Returned(c, blk)) && Outstanding(Returned(c, blk)) == Outstanding(c) - 1
  {
    CarveReturn(c.lower, c.upper, c.next, c.blocks, c.empties, blk);
    CounterUp(Outstanding(c) - 1);
  }

  /** Which outstanding blocks their chunk does not own: the empty ones handed out before anything else. */
  lemma NotOwnedIff(c: Chunk, blk: Block)
    requires ChunkOk(c) && Holds(c, blk)
    ensures !Owns(c, blk) <==> blk == Block(c.upper, 0)
  {
  }

  /** A chunk no larger than its counter can tell, without empty blocks, is counted exactly. */
  lemma SmallIsCounted(c: Chunk)
    requires ChunkOk(c) && c.upper - c.lower < COUNT_LIMIT && c.empties == multiset{}
    ensures c.count == |c.blocks| == Outstanding(c) < COUNT_LIMIT
  {
  }

  /** The two counters of a chunk as the program updates them. */
  class BumpAllocator {
    var nextAddr: nat
    var count: nat
    const lower: nat
    const upper: nat
    ghost var blocks: set<Block>
    ghost var empties: multiset<Block>

    ghost function Value(): (c: Chunk)
      reads this
    {
      Chunk(lower, upper, nextAddr, count, blocks, empties)
    }

    constructor (lower: nat, upper: nat)
      requires 0 < lower <= upper < WORD
      ensures Value() == NewChunk(lower, upper) && ChunkOk(Value())
    {
      this.lower := lower;
      this.upper := upper;
      nextAddr, count := upper, 0;
      blocks, empties := {}, multiset{};
    }

    /**
     A block that fits is new and apart from all others. Otherwise the chunk is full from now on,
     unless the request exceeds the address: then a block that no chunk holds may be handed out.
     */
    method Allocate(n: nat) returns (blk: Block)
      requires ChunkOk(Value()) && n < WORD
      modifies this
      ensures Value() == Allocated(old(Value()), n) && blk == BlockFrom(old(Value()), n)
      ensures lower <= old(nextAddr) ==> (blk != NULL_BLOCK <==> n <= old(nextAddr) - lower || n > old(nextAddr))
      ensures n <= old(nextAddr) || blk == NULL_BLOCK ==> ChunkOk(Value())
      ensures blk != NULL_BLOCK && n <= old(nextAddr) ==>
                && Holds(Value(), blk) && (n > 0 ==> !Holds(old(Value()), blk))
                && (Owns(Value(), blk) <==> n != 0 || old(nextAddr) < upper)
      ensures blk != NULL_BLOCK && n > old(nextAddr) ==> blk.ptr + blk.len >= WORD
      ensures blk == NULL_BLOCK ==> Full(Value())
    {
      if lower <= nextAddr { GrantsIff(Value(), n); }
      if BlockFrom(Value(), n) == NULL_BLOCK {
        RefusingOk(Value(), n);
      } else if n <= nextAddr {
        GrantingOk(Value(), n);
        GrantedBlock(Value(), n);
      } else {
        WrappedBlock(Value(), n);
      }
      ghost var wraps := n > nextAddr;
      nextAddr := Subtract(nextAddr, n);
      if nextAddr >= lower {
        count := Up(count);
        blk := Block(nextAddr, n);
        if !wraps && n > 0 { blocks := blocks + {blk}; }
        if !wraps && n == 0 { empties := empties + multiset{blk}; }
      } else {
        blk := NULL_BLOCK;
      }
    }

    /** Give a block back; the result is the count before. */
    method Deallocate(blk: Block) returns (before: nat)
      requires ChunkOk(Value()) && Holds(Value(), blk)
      modifies this`count, this`blocks, this`empties
      ensures Value() == Returned(old(Value()), blk) && ChunkOk(Value())
      ensures before == Counter(old(Outstanding(Value()))) && Outstanding(Value()) == old(Outstanding(Value())) - 1
    {
      ReturnedOk(Value(), blk);
      before := count;
      count := Down(count);
      blocks, empties := blocks - {blk}, empties - multiset{blk};
    }
  }

  // ------------------------------------------------------------ the list of chunks

  /**
   Sizes common to all chunks: bytes asked from the system, less the control block, and what of it is not
   handed out.
   */
  datatype Layout = Layout(capacity: nat, overhead: nat)

  function Usable(l: Layout): (n: int) { l.capacity - l.overhead }

  function ChunkAt(l: Layout, base: nat): (c: Chunk)
  {
    NewChunk(base + l.overhead, base + l.capacity)
  }

  /** Chunks a walk from the head visits: the head, and what is not erased. */
  predicate Visited(chunks: seq<Chunk>, erased: seq<bool>, i: int)
    requires |erased| == |chunks|
  {
    0 <= i < |chunks| && (i == |chunks| - 1 || !erased[i])
  }

  ghost predicate InPlace(l: Layout, chunks: seq<Chunk>, erased: seq<bool>, i: int)
    requires |erased| == |chunks|
  {
    0 <= i < |chunks| ==>
      && ChunkOk(chunks[i]) && chunks[i].upper - chunks[i].lower == Usable(l) && chunks[i].lower >= l.capacity
      && (i < |chunks| - 1 ==> Full(chunks[i]))
      && (erased[i] ==> chunks[i].blocks == {} && Full(chunks[i]))
  }

  predicate RangeApart(l: Layout, a: Chunk, b: Chunk)
  {
    a.upper + l.overhead <= b.lower || b.upper + l.overhead <= a.lower
  }

  /** Chunks in use, headers included, occupy disjoint ranges; that of an erased chunk may be in use again. */
  ghost predicate RangesApart(l: Layout, chunks: seq<Chunk>, erased: seq<bool>)
    requires |erased| == |chunks|
  {
    forall i, j {:trigger Visited(chunks, erased, i), Visited(chunks, erased, j)} ::
      0 <= i < j < |chunks| && Visited(chunks, erased, i) && Visited(chunks, erased, j) ==>
        RangeApart(l, chunks[i], chunks[j])
  }

  ghost predicate Sound(l: Layout, chunks: seq<Chunk>, erased: seq<bool>)
  {
    && 0 < l.overhead <= l.capacity < WORD && |erased| == |chunks|
    && (forall i {:trigger InPlace(l, chunks, erased, i)} :: InPlace(l, chunks, erased, i))
    && RangesApart(l, chunks, erased)
  }

  /** The memory of a chunk at `base` lies apart from that of every chunk in use, and away from address 0. */
  ghost predicate Free(l: Layout, chunks: seq<Chunk>, erased: seq<bool>, base: nat)
    requires |erased| == |chunks|
  {
    && l.capacity <= base && base + l.capacity < WORD
    && forall i {:trigger Visited(chunks, erased, i)} :: Visited(chunks, erased, i) ==>
         chunks[i].upper <= base || base + l.capacity + l.overhead <= chunks[i].lower
  }

  /** Addresses the system will hand out one after the other, each apart from all before it. */
  ghost predicate Supply(l: Layout, chunks: seq<Chunk>, erased: seq<bool>, bases: seq<nat>)
    requires |erased| == |chunks|
  {
    && (forall k :: 0 <= k < |bases| ==> Free(l, chunks, erased, bases[k]))
    && (forall j, k :: 0 <= j < k < |bases| ==> BasesApart(l, bases[j], bases[k]))
  }

  predicate BasesApart(l: Layout, a: nat, b: nat)
  {
    a + l.capacity <= b || b + l.capacity <= a
  }

  lemma ReplaceSound(l: Layout, chunks: seq<Chunk>, erased: seq<bool>, i: nat, c: Chunk, e: bool)
    requires Sound(l, chunks, erased) && i < |chunks| && ChunkOk(c)
    requires c.lower == chunks[i].lower && c.upper == chunks[i].upper
    requires (i < |chunks| - 1 ==> Full(c)) && (e ==> c.blocks == {} && Full(c)) && (erased[i] ==> e)
    ensures Sound(l, chunks[i := c], erased[i := e])
  {
    var chunks', erased' := chunks[i := c], erased[i := e];
    forall k ensures InPlace(l, chunks', erased', k) {
      assert InPlace(l, chunks, erased, k) && InPlace(l, chunks, erased, i);
    }
    forall j, k | 0 <= j < k < |chunks| && Visited(chunks', erased', j) && Visited(chunks', erased', k)
      ensures RangeApart(l, chunks'[j], chunks'[k])
    {
      assert Visited(chunks, erased, j) && Visited(chunks, erased, k);
    }
  }

  lemma AddSound(l: Layout, chunks: seq<Chunk>, erased: seq<bool>, base: nat)
    requires Sound(l, chunks, erased) && Free(l, chunks, erased, base) && (chunks != [] ==> Full(chunks[|chunks| - 1]))
    ensures Sound(l, chunks + [ChunkAt(l, base)], erased + [false])
  {
    var chunks', erased' := chunks + [ChunkAt(l, base)], erased + [false];
    forall k ensures InPlace(l, chunks', erased', k) {
      assert InPlace(l, chunks, erased, k);
    }
    forall j, k | 0 <= j < k < |chunks'| && Visited(chunks', erased', j) && Visited(chunks', erased', k)
      ensures RangeApart(l, chunks'[j], chunks'[k])
    {
      assert Visited(chunks, erased, j);
      if k < |chunks| { assert Visited(chunks, erased, k); }
    }
  }

  lemma AddSupply(l: Layout, chunks: seq<Chunk>, erased: seq<bool>, bases: seq<nat>)
    requires |erased| == |chunks| && bases != [] && Supply(l, chunks, erased, bases)
    ensures Supply(l, chunks + [ChunkAt(l, bases[0])], erased + [false], bases[1..])
  {
    var chunks', erased' := chunks + [ChunkAt(l, bases[0])], erased + [false];
    forall k | 0 <= k < |bases[1..]| ensures Free(l, chunks', erased', bases[1..][k]) {
      assert Free(l, chunks, erased, bases[k + 1]);
      forall i | Visited(chunks', erased', i)
        ensures chunks'[i].upper <= bases[k + 1] || bases[k + 1] + l.capacity + l.overhead <= chunks'[i].lower
      {
        if i < |chunks| { assert Visited(chunks, erased, i); }
      }
    }
  }

  /** Supply does not depend on what is outstanding in the chunks. */
  lemma SupplyKept(l: Layout, chunks: seq<Chunk>, erased: seq<bool>, bases: seq<nat>, i: nat, c: Chunk)
    requires |erased| == |chunks| && i < |chunks| && Supply(l, chunks, erased, bases)
    requires c.lower == chunks[i].lower && c.upper == chunks[i].upper
    ensures Supply(l, chunks[i := c], erased, bases)
  {
    var chunks' := chunks[i := c];
    forall k | 0 <= k < |bases| ensures Free(l, chunks', erased, bases[k]) {
      assert Free(l, chunks, erased, bases[k]);
      forall j | Visited(chunks', erased, j)
        ensures chunks'[j].upper <= bases[k] || bases[k] + l.capacity + l.overhead <= chunks'[j].lower
      {
        assert Visited(chunks, erased, j);
      }
    }
  }

  /** No chunk has more blocks outstanding than its counter can tell. */
  ghost predicate Counted(chunks: seq<Chunk>)
  {
    forall i :: 0 <= i < |chunks| ==> Outstanding(chunks[i]) < COUNT_LIMIT
  }

  /** The head has not refused a request yet. */
  ghost predicate Open(l: Layout, chunks: seq<Chunk>, erased: seq<bool>)
  {
    Sound(l, chunks, erased) && (chunks != [] ==> chunks[|chunks| - 1].lower <= chunks[|chunks| - 1].next)
  }

  /** A request that was refused only moves the address. */
  predicate SameBlocks(c: Chunk, c': Chunk)
  {
    c' == c.(next := c'.next)
  }

  /** The chunks after the head was asked for `size` bytes, and its answer. */
  function Asked(chunks: seq<Chunk>, size: nat): (chunks': seq<Chunk>)
  {
    if chunks == [] then [] else chunks[|chunks| - 1 := Allocated(chunks[|chunks| - 1], size)]
  }

  function Answer(chunks: seq<Chunk>, size: nat): (blk: Block)
  {
    if chunks == [] then NULL_BLOCK else BlockFrom(chunks[|chunks| - 1], size)
  }

  /** The head grants a request exactly when that much is left in it. */
  lemma HeadAnswers(l: Layout, chunks: seq<Chunk>, erased: seq<bool>, size: nat)
    requires Open(l, chunks, erased) && chunks != [] && size <= l.capacity
    ensures var c := chunks[|chunks| - 1];
            && ChunkOk(c) && size <= c.next && l.capacity < WORD
            && (Answer(chunks, size) != NULL_BLOCK <==> size <= c.next - c.lower)
            && (Answer(chunks, size) != NULL_BLOCK ==> size <= Usable(l))
  {
    assert InPlace(l, chunks, erased, |chunks| - 1);
    GrantsIff(chunks[|chunks| - 1], size);
  }

  lemma AskedSound(l: Layout, chunks: seq<Chunk>, erased: seq<bool>, size: nat)
    requires Open(l, chunks, erased) && size <= l.capacity
    ensures Sound(l, Asked(chunks, size), erased)
    ensures Answer(chunks, size) != NULL_BLOCK ==> Open(l, Asked(chunks, size), erased)
    ensures Answer(chunks, size) == NULL_BLOCK && chunks != [] ==>
              && Full(Asked(chunks, size)[|chunks| - 1])
              && SameBlocks(chunks[|chunks| - 1], Asked(chunks, size)[|chunks| - 1])
  {
    if chunks != [] {
      var h := |chunks| - 1;
      HeadAnswers(l, chunks, erased, size);
      assert InPlace(l, chunks, erased, h);
      if Answer(chunks, size) == NULL_BLOCK { RefusingOk(chunks[h], size); } else { GrantingOk(chunks[h], size); }
      ReplaceSound(l, chunks, erased, h, Allocated(chunks[h], size), erased[h]);
      assert erased[h := erased[h]] == erased;
    }
  }

  function Flags(erased: seq<bool>, k: nat): (erased': seq<bool>)
  {
    erased + seq(k, _ => false)
  }

  lemma FlagsNext(erased: seq<bool>, k: nat)
    ensures Flags(erased, 0) == erased && Flags(erased, k + 1) == Flags(erased, k) + [false]
  {
  }

  /** One round that found no room: the head was asked, and a chunk added. */
  predicate Added(l: Layout, chunks: seq<Chunk>, size: nat, base: nat, chunks': seq<Chunk>)
  {
    Answer(chunks, size) == NULL_BLOCK && chunks' == Asked(chunks, size) + [ChunkAt(l, base)]
  }

  /** The lists of chunks that a request for `size` bytes went through without finding room. */
  ghost predicate Rounds(l: Layout, lists: seq<seq<Chunk>>, size: nat, bases: seq<nat>)
  {
    && 0 < |lists| <= |bases| + 1
    && forall k :: 0 <= k < |lists| - 1 ==> Added(l, lists[k], size, bases[k], lists[k + 1])
  }

  lemma GrowOnce(l: Layout, chunks: seq<Chunk>, erased: seq<bool>, size: nat, bases: seq<nat>)
    requires Open(l, chunks, erased) && size <= l.capacity && bases != [] && Supply(l, chunks, erased, bases)
    requires Answer(chunks, size) == NULL_BLOCK
    ensures Open(l, Asked(chunks, size) + [ChunkAt(l, bases[0])], erased + [false])
    ensures Supply(l, Asked(chunks, size) + [ChunkAt(l, bases[0])], erased + [false], bases[1..])
  {
    AskedSound(l, chunks, erased, size);
    if chunks != [] { SupplyKept(l, chunks, erased, bases, |chunks| - 1, Allocated(chunks[|chunks| - 1], size)); }
    assert Free(l, Asked(chunks, size), erased, bases[0]);
    AddSound(l, Asked(chunks, size), erased, bases[0]);
    AddSupply(l, Asked(chunks, size), erased, bases);
  }

  lemma {:induction false} RoundsOk(l: Layout, lists: seq<seq<Chunk>>, erased: seq<bool>, size: nat,
                                    bases: seq<nat>, k: nat)
    requires Rounds(l, lists, size, bases) && k < |lists|
    requires Open(l, lists[0], erased) && size <= l.capacity && Supply(l, lists[0], erased, bases)
    ensures Open(l, lists[k], Flags(erased, k)) && Supply(l, lists[k], Flags(erased, k), bases[k..])
  {
    if k == 0 {
      assert Flags(erased, 0) == erased && bases[0..] == bases;
    } else {
      RoundsOk(l, lists, erased, size, bases, k - 1);
      assert Added(l, lists[k - 1], size, bases[k - 1], lists[k]);
      GrowOnce(l, lists[k - 1], Flags(erased, k - 1), size, bases[k - 1..]);
      FlagsNext(erased, k - 1);
      assert bases[k - 1..][1..] == bases[k..];
    }
  }

  /** The chunks that were there keep their blocks. */
  ghost predicate BlocksKept(chunks: seq<Chunk>, chunks': seq<Chunk>)
  {
    |chunks| <= |chunks'| && forall i :: 0 <= i < |chunks| ==> SameBlocks(chunks[i], chunks'[i])
  }

  lemma KeptOnce(l: Layout, chunks: seq<Chunk>, erased: seq<bool>, size: nat, base: nat)
    requires Open(l, chunks, erased) && size <= l.capacity && Answer(chunks, size) == NULL_BLOCK
    ensures |Asked(chunks, size)| == |chunks| && BlocksKept(chunks, Asked(chunks, size))
    ensures BlocksKept(chunks, Asked(chunks, size) + [ChunkAt(l, base)])
  {
    AskedSound(l, chunks, erased, size);
  }

  lemma KeptBoth(a: seq<Chunk>, b: seq<Chunk>, c: seq<Chunk>)
    requires BlocksKept(a, b) && BlocksKept(b, c)
    ensures BlocksKept(a, c)
  {
    forall i | 0 <= i < |a| ensures SameBlocks(a[i], c[i]) {
      assert SameBlocks(a[i], b[i]) && SameBlocks(b[i], c[i]);
    }
  }

  lemma {:induction false} RoundsKeep(l: Layout, lists: seq<seq<Chunk>>, erased: seq<bool>, size: nat,
                                      bases: seq<nat>, k: nat)
    requires Rounds(l, lists, size, bases) && k < |lists|
    requires Open(l, lists[0], erased) && size <= l.capacity && Supply(l, lists[0], erased, bases)
    ensures |lists[k]| == |lists[0]| + k && BlocksKept(lists[0], lists[k])
    ensures k > 0 ==> lists[k][|lists[k]| - 1] == ChunkAt(l, bases[k - 1])
  {
    if k > 0 {
      RoundsKeep(l, lists, erased, size, bases, k - 1);
      RoundsOk(l, lists, erased, size, bases, k - 1);
      assert Added(l, lists[k - 1], size, bases[k - 1], lists[k]);
      KeptOnce(l, lists[k - 1], Flags(erased, k - 1), size, bases[k - 1]);
      KeptBoth(lists[0], lists[k - 1], lists[k]);
    }
  }

  /** A size that fits a fresh chunk needs one new chunk at most. */
  lemma OneIsEnough(l: Layout, lists: seq<seq<Chunk>>, erased: seq<bool>, size: nat, bases: seq<nat>)
    requires Rounds(l, lists, size, bases)
    requires Open(l, lists[0], erased) && size <= Usable(l) && Supply(l, lists[0], erased, bases)
    ensures |lists| <= 2 && (|lists| == 2 ==> Answer(lists[1], size) != NULL_BLOCK)
  {
    if |lists| >= 2 {
      RoundsOk(l, lists, erased, size, bases, 1);
      RoundsKeep(l, lists, erased, size, bases, 1);
      assert |lists| > 2 ==> Added(l, lists[1], size, bases[1], lists[2]);
      HeadAnswers(l, lists[1], Flags(erased, 1), size);
    }
  }

  /** After all rounds failed. */
  lemma RoundsRefused(l: Layout, lists: seq<seq<Chunk>>, erased: seq<bool>, size: nat, bases: seq<nat>)
    requires Rounds(l, lists, size, bases)
    requires Open(l, lists[0], erased) && size <= l.capacity && Supply(l, lists[0], erased, bases)
    requires Answer(lists[|lists| - 1], size) == NULL_BLOCK
    ensures |Asked(lists[|lists| - 1], size)| == |lists[0]| + |lists| - 1
    ensures BlocksKept(lists[0], Asked(lists[|lists| - 1], size))
    ensures size <= Usable(l) ==> |lists| == 1
  {
    var k := |lists| - 1;
    RoundsOk(l, lists, erased, size, bases, k);
    RoundsKeep(l, lists, erased, size, bases, k);
    KeptOnce(l, lists[k], Flags(erased, k), size, 0);
    KeptBoth(lists[0], lists[k], Asked(lists[k], size));
    if size <= Usable(l) { OneIsEnough(l, lists, erased, size, bases); }
  }

  /** The chunk a request was served from: the old head, or the last chunk added for it. */
  function Server(l: Layout, chunks: seq<Chunk>, bases: seq<nat>, used: nat): (c: Chunk)
    requires used <= |bases| && (used == 0 ==> chunks != [])
  {
    if used == 0 then chunks[|chunks| - 1] else ChunkAt(l, bases[used - 1])
  }

  /** What a request that was granted after `used` new chunks leaves. */
  ghost predicate Served(l: Layout, chunks: seq<Chunk>, bases: seq<nat>, used: nat, size: nat,
                         chunks': seq<Chunk>, blk: Block)
  {
    && used <= 1 && used <= |bases| && (used == 0 ==> chunks != []) && |chunks'| == |chunks| + used
    && (used > 0 ==> Answer(chunks, size) == NULL_BLOCK)
    && (forall i :: 0 <= i < |chunks'| - 1 ==> SameBlocks(chunks[i], chunks'[i]))
    && var c := Server(l, chunks, bases, used);
    && ChunkOk(c) && size <= c.next && blk == BlockFrom(c, size) != NULL_BLOCK
    && chunks'[|chunks'| - 1] == Allocated(c, size)
  }

  lemma ServedBy(l: Layout, chunks: seq<Chunk>, grown: seq<Chunk>, bases: seq<nat>, used: nat, size: nat)
    requires used <= 1 && used <= |bases| && (used == 0 ==> chunks != []) && |grown| == |chunks| + used
    requires BlocksKept(chunks, grown) && grown[|grown| - 1] == Server(l, chunks, bases, used)
    requires used > 0 ==> Answer(chunks, size) == NULL_BLOCK
    requires ChunkOk(grown[|grown| - 1]) && size <= grown[|grown| - 1].next && Answer(grown, size) != NULL_BLOCK
    ensures Served(l, chunks, bases, used, size, Asked(grown, size), Answer(grown, size))
  {
  }

  lemma ServedAfter(l: Layout, lists: seq<seq<Chunk>>, erased: seq<bool>, size: nat, bases: seq<nat>)
    requires Rounds(l, lists, size, bases)
    requires Open(l, lists[0], erased) && size <= l.capacity && Supply(l, lists[0], erased, bases)
    requires Answer(lists[|lists| - 1], size) != NULL_BLOCK
    ensures var k, grown := |lists| - 1, lists[|lists| - 1];
            && Open(l, Asked(grown, size), Flags(erased, k)) && size <= Usable(l)
            && Served(l, lists[0], bases, k, size, Asked(grown, size), Answer(grown, size))
  {
    var k, grown := |lists| - 1, lists[|lists| - 1];
    RoundsOk(l, lists, erased, size, bases, k);
    RoundsKeep(l, lists, erased, size, bases, k);
    HeadAnswers(l, grown, Flags(erased, k), size);
    OneIsEnough(l, lists, erased, size, bases);
    AskedSound(l, grown, Flags(erased, k), size);
    assert k > 0 ==> Added(l, lists[0], size, bases[0], lists[1]);
    ServedBy(l, lists[0], grown, bases, k, size);
  }

  datatype Outcome = Given(blk: Block) | Refused | Starved

  class ChunkedBumpAlloc {
    const layout: Layout
    var chunks: seq<Chunk>            // the head is last
    var erased: seq<bool>

    ghost predicate Valid()
      reads this
    {
      Open(layout, chunks, erased) && Counted(chunks)
    }

    constructor (layout: Layout)
      requires 0 < layout.overhead <= layout.capacity < WORD
      ensures Valid() && chunks == [] && this.layout == layout
    {
      this.layout := layout;
      chunks, erased := [], [];
    }

    /** Ask for a block, adding chunks, until one has room or the memory `bases` of the system is used up. */
    method FindRoom(size: nat, bases: seq<nat>) returns (blk: Block, used: nat, ghost lists: seq<seq<Chunk>>)
      modifies this
      ensures Rounds(layout, lists, size, bases) && lists[0] == old(chunks) && used == |lists| - 1
      ensures blk == Answer(lists[used], size) && (blk == NULL_BLOCK ==> used == |bases|)
      ensures chunks == Asked(lists[used], size) && erased == Flags(old(erased), used)
    {
      used, lists := 0, [chunks];
      while true
        invariant Rounds(layout, lists, size, bases) && lists[0] == old(chunks) && used == |lists| - 1
        invariant chunks == lists[used] && erased == Flags(old(erased), used)
        decreases |bases| - used
      {
        blk := Answer(chunks, size);
        chunks := Asked(chunks, size);
        if blk != NULL_BLOCK || used == |bases| { return; }
        FlagsNext(old(erased), used);
        chunks, erased := chunks + [ChunkAt(layout, bases[used])], erased + [false];
        lists := lists + [chunks];
        used := used + 1;
      }
    }

    /**
     Allocate `size` bytes, adding chunks until one of them has room. `Starved` means that the memory
     of the system was used up without success.
     */
    method AllocateRounded(size: nat, bases: seq<nat>) returns (r: Outcome, used: nat)
      requires Open(layout, chunks, erased) && Supply(layout, chunks, erased, bases)
      modifies this
      ensures r.Refused? <==> size > layout.capacity
      ensures r.Refused? ==> used == 0 && chunks == old(chunks) && erased == old(erased)
      ensures r.Given? ==> Open(layout, chunks, erased) && size <= Usable(layout)
      ensures r.Given? ==> Served(layout, old(chunks), bases, used, size, chunks, r.blk)
      ensures erased == Flags(old(erased), used)
      ensures r.Starved? ==> used == |bases| && |chunks| == |old(chunks)| + used && BlocksKept(old(chunks), chunks)
      ensures r.Starved? && size <= Usable(layout) ==> bases == []
    {
      if size > layout.capacity {
        assert Flags(erased, 0) == erased;
        return Refused, 0;
      }
      var blk;
      ghost var lists;
      blk, used, lists := FindRoom(size, bases);
      if blk == NULL_BLOCK {
        RoundsRefused(layout, lists, old(erased), size, bases);
        r := Starved;
      } else {
        ServedAfter(layout, lists, old(erased), size, bases);
        r := Given(blk);
      }
    }

    /** What a granted request means for the caller. */
    method AllocateSized(size: nat, bases: seq<nat>) returns (r: Outcome, used: nat)
      requires Valid() && Supply(layout, chunks, erased, bases)
      modifies this
      ensures r.Refused? <==> size > layout.capacity
      ensures size <= Usable(layout) && bases != [] ==> r.Given?
      ensures Usable(layout) < size <= layout.capacity ==> r.Starved? && used == |bases|
      ensures r.Given? ==> Served(layout, old(chunks), bases, used, size, chunks, r.blk)
      ensures erased == Flags(old(erased), used)
      ensures r.Given? ==> Granted(Server(layout, old(chunks), bases, used), chunks[|chunks| - 1], size, r.blk)
      ensures r.Given? ==> (Valid() <==> Outstanding(Server(layout, old(chunks), bases, used)) + 1 < COUNT_LIMIT)
    {
      r, used := AllocateRounded(size, bases);
      if r.Given? {
        GrantedBlock(Server(layout, old(chunks), bases, used), size);
        CountedIff(layout, old(chunks), bases, used, size, chunks, r.blk);
      }
    }

    /**
     Allocate `n` bytes, rounded up to a power of two. Requests of 0 and above 2^63 bytes round to 0:
     they get an empty block, and if nothing was taken from its chunk before, the chunk does not own it.
     */
    method Allocate(n: bv64, bases: seq<nat>) returns (r: Outcome, used: nat, ghost s: bv64, ghost size: nat)
      requires Valid() && Supply(layout, chunks, erased, bases)
      modifies this
      ensures RoundsUp(n, s, size)
      ensures r.Refused? <==> size > layout.capacity
      ensures size <= Usable(layout) && bases != [] ==> r.Given?
      ensures Usable(layout) < size <= layout.capacity ==> r.Starved? && used == |bases|
      ensures r.Given? ==> Served(layout, old(chunks), bases, used, size, chunks, r.blk)
      ensures erased == Flags(old(erased), used)
      ensures r.Given? ==> Granted(Server(layout, old(chunks), bases, used), chunks[|chunks| - 1], size, r.blk)
      ensures r.Given? ==> (Valid() <==> Outstanding(Server(layout, old(chunks), bases, used)) + 1 < COUNT_LIMIT)
    {
      var power, bytes := RoundedSize(n);
      s, size := power, bytes;
      r, used := AllocateSized(bytes, bases);
    }

    /** The first chunk a walk from the head finds whose range holds the pointer, -1 if none does. */
    method FindOwner(blk: Block) returns (i: int)
      requires |erased| == |chunks|
      ensures Found(chunks, erased, blk, i)
    {
      i := |chunks| - 1;
      while i >= 0 && !(Visited(chunks, erased, i) && Owns(chunks[i], blk))
        invariant -1 <= i < |chunks|
        invariant forall k {:trigger Visited(chunks, erased, k)} :: i < k < |chunks| && Visited(chunks, erased, k) ==>
                    !Owns(chunks[k], blk)
      {
        i := i - 1;
      }
    }

    /**
     Return a block of chunk `owner` to the chunk that a walk finds for it, which is erased exactly when
     that leaves it without a block and spent. While `owner` is on the walk, it is the chunk found, unless
     it does not own the block; then nothing happens. An empty block of a chunk that was erased and is no
     longer the head goes to whatever chunk holds its address by now, and if that one has not handed out
     such a block itself, its counter is wrong from then on.
     */
    method Deallocate(blk: Block, ghost owner: nat) returns (i: int)
      requires Valid() && owner < |chunks| && Holds(chunks[owner], blk)
      modifies this
      ensures Found(old(chunks), old(erased), blk, i)
      ensures Visited(old(chunks), old(erased), owner) ==> i == if Owns(old(chunks)[owner], blk) then owner else -1
      ensures i < 0 ==> chunks == old(chunks) && erased == old(erased)
      ensures i >= 0 ==>
                && chunks == old(chunks)[i := Returned(old(chunks)[i], blk)]
                && erased == (if Outstanding(old(chunks)[i]) == 1 && Full(old(chunks)[i])
                              then old(erased)[i := true] else old(erased))
      ensures Valid() <==> i < 0 || Holds(old(chunks)[i], blk)
    {
      i := FindOwner(blk);
      OwnerFound(layout, chunks, erased, blk, owner, i);
      if i >= 0 {
        CountIsExact(layout, chunks, erased, i);
        if Holds(chunks[i], blk) {
          ReturnSound(layout, chunks, erased, i, blk);
        } else {
          StrayReturn(layout, chunks, erased, i, blk, erased[i]);
          StrayReturn(layout, chunks, erased, i, blk, true);
          assert erased[i := erased[i]] == erased;
        }
        var before := chunks[i].count;
        chunks := chunks[i := Returned(chunks[i], blk)];
        if before == 1 && Full(chunks[i]) { erased := erased[i := true]; }
      }
    }
  }

  /** Granting one more block keeps all chunks counted unless the counter of the serving chunk overflows. */
  lemma CountedIff(l: Layout, chunks: seq<Chunk>, bases: seq<nat>, used: nat, size: nat, chunks': seq<Chunk>,
                   blk: Block)
    requires Counted(chunks) && Served(l, chunks, bases, used, size, chunks', blk)
    ensures Counted(chunks') <==> Outstanding(Server(l, chunks, bases, used)) + 1 < COUNT_LIMIT
  {
    GrantedBlock(Server(l, chunks, bases, used), size);
    forall i | 0 <= i < |chunks'| - 1 ensures Outstanding(chunks'[i]) < COUNT_LIMIT {
      assert SameBlocks(chunks[i], chunks'[i]);
    }
  }

  /** What a walk from the head that looks for the owner of a block ends with. */
  ghost predicate Found(chunks: seq<Chunk>, erased: seq<bool>, blk: Block, i: int)
    requires |erased| == |chunks|
  {
    && -1 <= i < |chunks|
    && (i >= 0 ==> Visited(chunks, erased, i) && Owns(chunks[i], blk))
    && forall k {:trigger Visited(chunks, erased, k)} :: i < k < |chunks| && Visited(chunks, erased, k) ==>
         !Owns(chunks[k], blk)
  }

  /** A chunk with a block of some length in it is visited and owns the block. */
  lemma HolderIsVisited(l: Layout, chunks: seq<Chunk>, erased: seq<bool>, blk: Block, owner: nat)
    requires Sound(l, chunks, erased) && owner < |chunks| && blk in chunks[owner].blocks
    ensures Visited(chunks, erased, owner) && Owns(chunks[owner], blk)
  {
    assert InPlace(l, chunks, erased, owner);
  }

  /**
   The chunk an outstanding block came from is found for it if it is on the walk and owns the block, and
   if it is on the walk and does not, none is. Only an empty block can come from a chunk off the walk.
   */
  lemma OwnerFound(l: Layout, chunks: seq<Chunk>, erased: seq<bool>, blk: Block, owner: nat, i: int)
    requires Sound(l, chunks, erased) && owner < |chunks| && Holds(chunks[owner], blk)
    requires Found(chunks, erased, blk, i)
    ensures i == owner <==> Visited(chunks, erased, owner) && Owns(chunks[owner], blk)
    ensures Visited(chunks, erased, owner) && i != owner ==> i == -1
    ensures !Visited(chunks, erased, owner) ==> blk.len == 0
  {
    assert InPlace(l, chunks, erased, owner) && InPlace(l, chunks, erased, i);
  }

  lemma ReturnSound(l: Layout, chunks: seq<Chunk>, erased: seq<bool>, i: nat, blk: Block)
    requires Open(l, chunks, erased) && Counted(chunks) && i < |chunks| && Holds(chunks[i], blk)
    ensures var c := Returned(chunks[i], blk);
            && chunks[i].count == Outstanding(chunks[i])
            && Open(l, chunks[i := c], erased) && Counted(chunks[i := c])
            && (Outstanding(chunks[i]) == 1 && Full(chunks[i]) ==> Open(l, chunks[i := c], erased[i := true]))
  {
    var c := Returned(chunks[i], blk);
    assert InPlace(l, chunks, erased, i);
    ReturnedOk(chunks[i], blk);
    ReplaceSound(l, chunks, erased, i, c, erased[i]);
    assert erased[i := erased[i]] == erased;
    if Outstanding(chunks[i]) == 1 && Full(chunks[i]) { ReplaceSound(l, chunks, erased, i, c, true); }
  }

  lemma CountIsExact(l: Layout, chunks: seq<Chunk>, erased: seq<bool>, i: nat)
    requires Sound(l, chunks, erased) && Counted(chunks) && i < |chunks|
    ensures chunks[i].count == Outstanding(chunks[i])
  {
    assert InPlace(l, chunks, erased, i);
  }

  /** A chunk that takes back what it has not handed out counts wrongly. */
  lemma StrayCount(c: Chunk, blk: Block)
    requires ChunkOk(c) && !Holds(c, blk)
    ensures !ChunkOk(Returned(c, blk))
  {
    FewerEmpties(c.empties, blk);
    assert c.blocks - {blk} == c.blocks;
    assert Outstanding(Returned(c, blk)) == Outstanding(c);
    CountsDiffer(c, Returned(c, blk));
  }

  lemma CountsDiffer(c: Chunk, c': Chunk)
    requires c.count == Counter(Outstanding(c)) && Outstanding(c') == Outstanding(c) && c'.count == Down(c.count)
    ensures c'.count != Counter(Outstanding(c'))
  {
  }

  lemma StrayReturn(l: Layout, chunks: seq<Chunk>, erased: seq<bool>, i: nat, blk: Block, flag: bool)
    requires Sound(l, chunks, erased) && i < |chunks| && !Holds(chunks[i], blk)
    ensures !Sound(l, chunks[i := Returned(chunks[i], blk)], erased[i := flag])
  {
    assert InPlace(l, chunks, erased, i);
    StrayCount(chunks[i], blk);
    assert !InPlace(l, chunks[i := Returned(chunks[i], blk)], erased[i := flag], i);
  }

  /** All outstanding blocks of an allocator are pairwise disjoint and lie inside their chunks. */
  lemma OutstandingApart(l: Layout, chunks: seq<Chunk>, erased: seq<bool>, i: nat, j: nat, a: Block, b: Block)
    requires Open(l, chunks, erased) && Counted(chunks) && i <= j < |chunks|
    requires Holds(chunks[i], a) && Holds(chunks[j], b) && (i < j || a != b)
    requires Visited(chunks, erased, i) && Visited(chunks, erased, j)
    ensures Apart(a, b)
    ensures chunks[i].lower <= a.ptr && a.ptr + a.len <= chunks[i].upper
    ensures chunks[i].count == Outstanding(chunks[i]) > 0
  {
    assert InPlace(l, chunks, erased, i) && InPlace(l, chunks, erased, j);
  }

  /** The first request of an allocator, if it rounds to 0: returning its block has no effect. */
  method EmptyBlockIsLost(n: bv64, layout: Layout, base: nat) returns (alloc: ChunkedBumpAlloc)
    requires n == 0 || n > MAX_POWER
    requires 0 < layout.overhead <= layout.capacity <= base && base + layout.capacity < WORD
    ensures alloc.Valid() && |alloc.chunks| == 1 && alloc.chunks[0].count == 1
  {
    alloc := new ChunkedBumpAlloc(layout);
    var r, used, s, size := alloc.Allocate(n, [base]);
    assert InPlace(layout, alloc.chunks, alloc.erased, 0);
    var _ := alloc.Deallocate(r.blk, 0);
  }

  const SMALL := Layout(72, 64)

  /** A head that was used up by one block and erased when that was returned. */
  method SpentHead() returns (alloc: ChunkedBumpAlloc)
    ensures fresh(alloc) && alloc.Valid() && alloc.layout == SMALL && alloc.erased == [true]
    ensures alloc.chunks == [Chunk(1064, 1072, 1064, 0, {}, multiset{})]
  {
    alloc := new ChunkedBumpAlloc(SMALL);
    var r, used := alloc.AllocateSized(8, [1000]);
    var blk := Block(1064, 8);
    assert alloc.chunks == [Chunk(1064, 1072, 1064, 1, {} + {blk}, multiset{})] && r.blk == blk;
    var i := alloc.Deallocate(r.blk, 0);
  }

  /** One empty block was taken from it since. */
  method SpentHeadHolding() returns (alloc: ChunkedBumpAlloc, blk: Block)
    ensures fresh(alloc) && alloc.Valid() && alloc.layout == SMALL && alloc.erased == [true] && blk == Block(1064, 0)
    ensures alloc.chunks == [Chunk(1064, 1072, 1064, 1, {}, multiset{blk})]
  {
    alloc := SpentHead();
    var r, used := alloc.AllocateSized(0, [2000]);
    blk := r.blk;
    var none: multiset<Block> := multiset{};
    assert none + multiset{blk} == multiset{blk};
    assert alloc.chunks == [Chunk(1064, 1072, 1064, 1, {}, none + multiset{blk})];
    FlagsNext([true], 0);
  }

  /**
   A chunk is erased as the head, with its last address left; an empty block is taken from it before
   another chunk is added. Returning that block has no effect.
   */
  method ErasedHeadsBlockIsLost() returns (alloc: ChunkedBumpAlloc, blk: Block)
    ensures alloc.Valid() && |alloc.chunks| == 2 && alloc.erased[0]
    ensures Holds(alloc.chunks[0], blk) && alloc.chunks[0].count == 1
  {
    alloc, blk := SpentHeadHolding();
    assert blk in alloc.chunks[0].empties;
    var r, used := alloc.AllocateSized(8, [2000]);
    assert SameBlocks(Chunk(1064, 1072, 1064, 1, {}, multiset{blk}), alloc.chunks[0]);
    var i := alloc.Deallocate(blk, 0);
  }
}
