/**
 The chunked list refines a plain sequence. Items live in fixed-size chunks; a removed item leaves
 a skip offset behind, a chunk whose items are all removed is flagged and skipped later.
 */
module ChunkedLists {
  import opened Common

  /**
   One storage slot. `offset` 0 means the item exists; otherwise it is the distance to jump
   backwards. A slot that was never written has offset 1.
   */
  datatype Item<T> = Item(offset: nat, value: T)

  /** `next` is the next free slot and runs past the end once; `prev` is the chunk before, -1 if none. */
  datatype Chunk<T> = Chunk(items: seq<Item<T>>, next: nat, freed: nat, deleted: bool, prev: int)

  datatype Position = End | At(chunk: nat, slot: nat)

  // ------------------------------------------------------------ contents

  function Value<T>(item: Item<T>): (r: seq<T>)
  {
    if item.offset == 0 then [item.value] else []
  }

  /** The live items of the first `n` slots. */
  function LiveIn<T>(items: seq<Item<T>>, n: nat): (r: seq<T>)
    requires n <= |items|
  {
    if n == 0 then [] else LiveIn(items, n - 1) + Value(items[n - 1])
  }

  function LiveFrom<T>(items: seq<Item<T>>, n: nat): (r: seq<T>)
    requires n <= |items|
    decreases |items| - n
  {
    if n == |items| then [] else Value(items[n]) + LiveFrom(items, n + 1)
  }

  /** The live items of the first `c` chunks. */
  function Before<T>(chunks: seq<Chunk<T>>, c: nat): (r: seq<T>)
    requires c <= |chunks|
  {
    if c == 0 then [] else Before(chunks, c - 1) + LiveIn(chunks[c - 1].items, |chunks[c - 1].items|)
  }

  function After<T>(chunks: seq<Chunk<T>>, c: nat): (r: seq<T>)
    requires c <= |chunks|
    decreases |chunks| - c
  {
    if c == |chunks| then [] else LiveFrom(chunks[c].items, 0) + After(chunks, c + 1)
  }

  /** All live items in push order. */
  function Live<T>(chunks: seq<Chunk<T>>): (r: seq<T>)
  {
    Before(chunks, |chunks|)
  }

  /** The live items below slot `n` of chunk `c`. */
  function UpTo<T>(chunks: seq<Chunk<T>>, c: nat, n: nat): (r: seq<T>)
    requires c < |chunks| && n <= |chunks[c].items|
  {
    Before(chunks, c) + LiveIn(chunks[c].items, n)
  }

  /** The live items from slot `n` of chunk `c` on. */
  function From<T>(chunks: seq<Chunk<T>>, c: nat, n: nat): (r: seq<T>)
    requires c < |chunks| && n <= |chunks[c].items|
  {
    LiveFrom(chunks[c].items, n) + After(chunks, c + 1)
  }

  lemma {:induction false} CutItems<T>(items: seq<Item<T>>, n: nat)
    requires n <= |items|
    ensures LiveIn(items, |items|) == LiveIn(items, n) + LiveFrom(items, n)
    decreases |items| - n
  {
    if n < |items| { CutItems(items, n + 1); }
  }

  lemma {:induction false} CutChunks<T>(chunks: seq<Chunk<T>>, c: nat)
    requires c <= |chunks|
    ensures Live(chunks) == Before(chunks, c) + After(chunks, c)
    decreases |chunks| - c
  {
    if c < |chunks| {
      CutChunks(chunks, c + 1);
      CutItems(chunks[c].items, 0);
    }
  }

  lemma {:induction false} Cut<T>(chunks: seq<Chunk<T>>, c: nat, n: nat)
    requires c < |chunks| && n <= |chunks[c].items|
    ensures Live(chunks) == UpTo(chunks, c, n) + From(chunks, c, n)
  {
    CutChunks(chunks, c + 1);
    CutItems(chunks[c].items, n);
  }

  lemma {:induction false} SameIn<T>(items: seq<Item<T>>, items': seq<Item<T>>, n: nat)
    requires n <= |items| && n <= |items'| && forall j :: 0 <= j < n ==> items'[j] == items[j]
    ensures LiveIn(items', n) == LiveIn(items, n)
  {
    if n > 0 { SameIn(items, items', n - 1); }
  }

  lemma {:induction false} SameFrom<T>(items: seq<Item<T>>, items': seq<Item<T>>, n: nat)
    requires n <= |items| == |items'| && forall j :: n <= j < |items| ==> items'[j] == items[j]
    ensures LiveFrom(items', n) == LiveFrom(items, n)
    decreases |items| - n
  {
    if n < |items| { SameFrom(items, items', n + 1); }
  }

  lemma {:induction false} SameBefore<T>(chunks: seq<Chunk<T>>, chunks': seq<Chunk<T>>, c: nat)
    requires c <= |chunks| && c <= |chunks'| && forall d :: 0 <= d < c ==> chunks'[d].items == chunks[d].items
    ensures Before(chunks', c) == Before(chunks, c)
  {
    if c > 0 { SameBefore(chunks, chunks', c - 1); }
  }

  lemma {:induction false} SameAfter<T>(chunks: seq<Chunk<T>>, chunks': seq<Chunk<T>>, c: nat)
    requires c <= |chunks| == |chunks'| && forall d :: c <= d < |chunks| ==> chunks'[d].items == chunks[d].items
    ensures After(chunks', c) == After(chunks, c)
    decreases |chunks| - c
  {
    if c < |chunks| { SameAfter(chunks, chunks', c + 1); }
  }

  /** A stretch of removed or unwritten slots holds nothing. */
  lemma {:induction false} Dead<T>(items: seq<Item<T>>, m: nat, n: nat)
    requires m <= n <= |items| && forall j :: m <= j < n ==> items[j].offset > 0
    ensures LiveIn(items, n) == LiveIn(items, m)
  {
    if m < n { Dead(items, m, n - 1); }
  }

  lemma {:induction false} AllDead<T>(items: seq<Item<T>>, n: nat)
    requires n <= |items| && LiveIn(items, n) == []
    ensures forall i :: 0 <= i < n ==> items[i].offset > 0
  {
    if n > 0 { AllDead(items, n - 1); }
  }

  // ------------------------------------------------------------ representation

  predicate SkipsDead<T>(items: seq<Item<T>>, i: nat)
    requires i < |items|
  {
    && items[i].offset <= i + 1
    && forall j :: i - items[i].offset < j <= i ==> items[j].offset > 0
  }

  function Min(a: nat, b: nat): (r: nat) { if a < b then a else b }

  ghost predicate ChunkOk<T>(ch: Chunk<T>, size: nat)
  {
    && |ch.items| == size && ch.next <= size + 1
    && (forall i :: ch.next <= i < size ==> ch.items[i].offset == 1)
    && (forall i :: 0 <= i < size && ch.items[i].offset > 0 ==> SkipsDead(ch.items, i))
    && ch.freed + |LiveIn(ch.items, size)| == Min(ch.next, size)
    && (ch.deleted <==> ch.freed == size)
  }

  /** Everything between chunk `c` and chunk `p` is deleted. */
  ghost predicate LinkOk<T>(chunks: seq<Chunk<T>>, c: nat, p: int)
    requires c <= |chunks|
  {
    -1 <= p < c && forall d :: p < d < c ==> chunks[d].deleted
  }

  ghost predicate ChunkAt<T>(chunks: seq<Chunk<T>>, size: nat, c: int)
  {
    0 <= c < |chunks| ==>
      && ChunkOk(chunks[c], size)
      && LinkOk(chunks, c, chunks[c].prev)
      && (c < |chunks| - 1 ==> chunks[c].next == size + 1)
  }

  ghost predicate ChunksOk<T>(chunks: seq<Chunk<T>>, size: nat)
  {
    && size > 0
    && (forall c :: 0 <= c < |chunks| ==> |chunks[c].items| == size)
    && (forall c {:trigger ChunkAt(chunks, size, c)} :: ChunkAt(chunks, size, c))
  }

  ghost predicate ListOk<T>(chunks: seq<Chunk<T>>, size: nat)
  {
    ChunksOk(chunks, size) && (chunks != [] ==> 1 <= chunks[|chunks| - 1].next <= size)
  }

  /** A chunk is deleted exactly when all its slots were written and none is live. */
  lemma DeletedHoldsNone<T>(ch: Chunk<T>, size: nat)
    requires ChunkOk(ch, size) && size > 0
    ensures ch.deleted <==> ch.next >= size && forall i :: 0 <= i < size ==> ch.items[i].offset > 0
    ensures ch.deleted ==> LiveIn(ch.items, size) == []
  {
    if ch.deleted { AllDead(ch.items, size); }
    if forall i :: 0 <= i < size ==> ch.items[i].offset > 0 { Dead(ch.items, 0, size); }
  }

  // ------------------------------------------------------------ walking back

  /** Jumping by the offset of a removed item passes no live item. */
  lemma Jump<T>(chunks: seq<Chunk<T>>, c: nat, i: nat)
    requires c < |chunks| && i < |chunks[c].items| && chunks[c].items[i].offset > 0
    requires SkipsDead(chunks[c].items, i)
    ensures UpTo(chunks, c, i + 1) == UpTo(chunks, c, i + 1 - chunks[c].items[i].offset)
  {
    Dead(chunks[c].items, i + 1 - chunks[c].items[i].offset, i + 1);
  }

  predicate NoneLive<T(==)>(ch: Chunk<T>) { LiveIn(ch.items, |ch.items|) == [] }

  lemma {:induction false} EmptyChunks<T>(chunks: seq<Chunk<T>>, m: nat, c: nat)
    requires m <= c <= |chunks| && forall d :: m <= d < c ==> NoneLive(chunks[d])
    ensures Before(chunks, c) == Before(chunks, m)
  {
    if m < c {
      EmptyChunks(chunks, m, c - 1);
      assert NoneLive(chunks[c - 1]);
    }
  }

  /** Below the first slot of chunk `c` there is what the chunk it links to leaves. */
  lemma IntoPrev<T>(chunks: seq<Chunk<T>>, size: nat, c: nat, p: int)
    requires ListOk(chunks, size) && c < |chunks| && LinkOk(chunks, c, p)
    ensures Before(chunks, c) == if p < 0 then [] else UpTo(chunks, p, size)
  {
    forall d | p < d < c ensures NoneLive(chunks[d]) {
      assert ChunkAt(chunks, size, d);
      DeletedHoldsNone(chunks[d], size);
    }
    EmptyChunks(chunks, p + 1, c);
  }

  /** The last written slot, -1 if there is none. */
  function LastItem<T>(ch: Chunk<T>, size: nat): (r: int)
  {
    if ch.next - 1 >= size then size - 1 else ch.next - 1
  }

  lemma LastItemCovers<T>(chunks: seq<Chunk<T>>, size: nat, c: nat)
    requires ListOk(chunks, size) && c < |chunks|
    ensures 0 <= LastItem(chunks[c], size) < size
    ensures UpTo(chunks, c, LastItem(chunks[c], size) + 1) == UpTo(chunks, c, size)
  {
    assert ChunkAt(chunks, size, c);
    Dead(chunks[c].items, LastItem(chunks[c], size) + 1, size);
  }

  // ------------------------------------------------------------ positions

  predicate InRange<T>(chunks: seq<Chunk<T>>, pos: Position)
  {
    pos.At? ==> pos.chunk < |chunks| && pos.slot < |chunks[pos.chunk].items|
  }

  /** Positions are returned by `push` and by walks, so they stand at written slots. */
  predicate OnWritten<T>(chunks: seq<Chunk<T>>, pos: Position)
    requires InRange(chunks, pos)
  {
    pos.At? ==> pos.slot < chunks[pos.chunk].next
  }

  lemma HeldIsWritten<T>(chunks: seq<Chunk<T>>, size: nat, pos: Position)
    requires ListOk(chunks, size) && Holds(chunks, pos)
    ensures OnWritten(chunks, pos)
  {
    if pos.At? { assert ChunkAt(chunks, size, pos.chunk); }
  }

  predicate Holds<T>(chunks: seq<Chunk<T>>, pos: Position)
  {
    InRange(chunks, pos) && (pos.At? ==> chunks[pos.chunk].items[pos.slot].offset == 0)
  }

  /** What a reverse walk at `pos` still has to come, in push order. */
  function Ahead<T>(chunks: seq<Chunk<T>>, pos: Position): (r: seq<T>)
    requires InRange(chunks, pos)
  {
    match pos
    case End => []
    case At(c, i) => UpTo(chunks, c, i)
  }

  /** The walk arrived at the last of `todo`, or at the end when there is none. */
  predicate Arrived<T(==)>(chunks: seq<Chunk<T>>, pos: Position, todo: seq<T>)
  {
    && Holds(chunks, pos)
    && (pos.End? ==> todo == [])
    && (pos.At? ==> todo == Ahead(chunks, pos) + [chunks[pos.chunk].items[pos.slot].value])
  }

  lemma ArrivedAt<T>(chunks: seq<Chunk<T>>, c: nat, i: nat)
    requires c < |chunks| && i < |chunks[c].items| && chunks[c].items[i].offset == 0
    ensures Arrived(chunks, At(c, i), UpTo(chunks, c, i + 1))
  {
  }

  /** `chunks` differ at most in how far their `prev` links skip. */
  ghost predicate SameItems<T>(chunks: seq<Chunk<T>>, chunks': seq<Chunk<T>>)
  {
    |chunks'| == |chunks| && forall c {:trigger SameChunk(chunks, chunks', c)} :: SameChunk(chunks, chunks', c)
  }

  ghost predicate SameChunk<T>(chunks: seq<Chunk<T>>, chunks': seq<Chunk<T>>, c: int)
  {
    0 <= c < |chunks| && c < |chunks'| ==> chunks'[c] == chunks[c].(prev := chunks'[c].prev)
  }

  lemma SameItemsBoth<T>(a: seq<Chunk<T>>, b: seq<Chunk<T>>, c: seq<Chunk<T>>)
    requires SameItems(a, b) && SameItems(b, c)
    ensures SameItems(a, c)
  {
    forall d ensures SameChunk(a, c, d) { assert SameChunk(a, b, d) && SameChunk(b, c, d); }
  }

  lemma SameLive<T>(chunks: seq<Chunk<T>>, chunks': seq<Chunk<T>>)
    requires SameItems(chunks, chunks')
    ensures Live(chunks') == Live(chunks)
  {
    forall d | 0 <= d < |chunks| ensures chunks'[d].items == chunks[d].items { assert SameChunk(chunks, chunks', d); }
    SameBefore(chunks, chunks', |chunks|);
  }

  /** Written slots stay as they are. */
  ghost predicate KeepsWritten<T>(chunks: seq<Chunk<T>>, chunks': seq<Chunk<T>>)
  {
    && |chunks| <= |chunks'|
    && forall c :: 0 <= c < |chunks| ==>
                     && |chunks'[c].items| == |chunks[c].items| && chunks'[c].next >= chunks[c].next
                     && forall j :: 0 <= j < chunks[c].next && j < |chunks[c].items| ==>
                                      chunks'[c].items[j] == chunks[c].items[j]
  }

  /** Pushing changes nothing for a walk that is under way. */
  lemma HeldKept<T>(chunks: seq<Chunk<T>>, chunks': seq<Chunk<T>>, size: nat, pos: Position)
    requires ListOk(chunks, size) && KeepsWritten(chunks, chunks') && Holds(chunks, pos)
    ensures Holds(chunks', pos) && Ahead(chunks', pos) == Ahead(chunks, pos)
  {
    if pos.At? {
      var c := pos.chunk;
      assert ChunkAt(chunks, size, c);
      forall d | 0 <= d < c ensures chunks'[d].items == chunks[d].items { assert ChunkAt(chunks, size, d); }
      SameBefore(chunks, chunks', c);
      SameIn(chunks[c].items, chunks'[c].items, pos.slot);
    }
  }

  // ------------------------------------------------------------ the updates of the chunks

  function BlankItems<T>(size: nat, blank: T): (items: seq<Item<T>>)
    ensures |items| == size && forall i :: 0 <= i < size ==> items[i].offset == 1
  {
    seq(size, _ => Item(1, blank))
  }

  /** A full head is marked as overflowed, and a new empty head is linked to it. */
  function NewHead<T>(chunks: seq<Chunk<T>>, size: nat, blank: T): (r: seq<Chunk<T>>)
  {
    var h := |chunks| - 1;
    (if chunks == [] then [] else chunks[h := chunks[h].(next := size + 1)])
    + [Chunk(BlankItems(size, blank), 0, 0, false, h)]
  }

  /** Ready for a push: the head has a free slot, and apart from an empty head the list is in order. */
  ghost predicate HasRoom<T>(chunks: seq<Chunk<T>>, size: nat)
  {
    ChunksOk(chunks, size) && chunks != [] && chunks[|chunks| - 1].next < size
  }

  lemma NewHeadRoom<T>(chunks: seq<Chunk<T>>, size: nat, blank: T)
    requires ListOk(chunks, size) && (chunks != [] ==> chunks[|chunks| - 1].next == size)
    ensures HasRoom(NewHead(chunks, size, blank), size)
  {
    var chunks' := NewHead(chunks, size, blank);
    Dead(BlankItems(size, blank), 0, size);
    forall c ensures ChunkAt(chunks', size, c) { assert ChunkAt(chunks, size, c); }
  }

  lemma {:induction false} LiveAppend<T>(chunks: seq<Chunk<T>>, ch: Chunk<T>)
    ensures Live(chunks + [ch]) == Live(chunks) + LiveIn(ch.items, |ch.items|)
  {
    SameBefore(chunks, chunks + [ch], |chunks|);
  }

  lemma {:induction false} NewHeadContents<T>(chunks: seq<Chunk<T>>, size: nat, blank: T)
    ensures Live(NewHead(chunks, size, blank)) == Live(chunks)
  {
    var h := |chunks| - 1;
    var full := if chunks == [] then [] else chunks[h := chunks[h].(next := size + 1)];
    var head := Chunk(BlankItems(size, blank), 0, 0, false, h);
    assert NewHead(chunks, size, blank) == full + [head];
    BlankHoldsNone(size, blank);
    LiveAppend(full, head);
    SameBefore(chunks, full, |chunks|);
  }

  lemma {:induction false} BlankHoldsNone<T>(size: nat, blank: T)
    ensures LiveIn(BlankItems(size, blank), size) == []
  {
    Dead(BlankItems(size, blank), 0, size);
  }

  lemma NewHeadKeeps<T>(chunks: seq<Chunk<T>>, size: nat, blank: T)
    requires chunks != [] ==> chunks[|chunks| - 1].next == size
    ensures KeepsWritten(chunks, NewHead(chunks, size, blank))
  {
  }

  /** Write `x` to the next slot of the head. */
  function Written<T>(chunks: seq<Chunk<T>>, x: T): (r: seq<Chunk<T>>)
    requires chunks != [] && chunks[|chunks| - 1].next < |chunks[|chunks| - 1].items|
  {
    var h := |chunks| - 1;
    var n := chunks[h].next;
    chunks[h := chunks[h].(items := chunks[h].items[n := Item(0, x)], next := n + 1)]
  }

  lemma {:induction false} WriteItem<T>(ch: Chunk<T>, size: nat, x: T)
    requires ChunkOk(ch, size) && ch.next < size
    ensures LiveIn(ch.items[ch.next := Item(0, x)], size) == LiveIn(ch.items, size) + [x]
  {
    var n := ch.next;
    var items' := ch.items[n := Item(0, x)];
    Dead(ch.items, n, size);
    Dead(items', n + 1, size);
    SameIn(ch.items, items', n);
  }

  lemma WriteOk<T>(ch: Chunk<T>, size: nat, x: T)
    requires ChunkOk(ch, size) && ch.next < size
    ensures ChunkOk(ch.(items := ch.items[ch.next := Item(0, x)], next := ch.next + 1), size)
  {
    WriteItem(ch, size, x);
    var items' := ch.items[ch.next := Item(0, x)];
    forall j | 0 <= j < size && items'[j].offset > 0 ensures SkipsDead(items', j) {
      assert SkipsDead(ch.items, j);
    }
  }

  lemma WrittenOk<T>(chunks: seq<Chunk<T>>, size: nat, x: T)
    requires HasRoom(chunks, size)
    ensures ListOk(Written(chunks, x), size)
  {
    var chunks' := Written(chunks, x);
    assert ChunkAt(chunks, size, |chunks| - 1);
    WriteOk(chunks[|chunks| - 1], size, x);
    forall c ensures ChunkAt(chunks', size, c) { assert ChunkAt(chunks, size, c); }
  }

  lemma WrittenKeeps<T>(chunks: seq<Chunk<T>>, x: T)
    requires chunks != [] && chunks[|chunks| - 1].next < |chunks[|chunks| - 1].items|
    ensures KeepsWritten(chunks, Written(chunks, x))
  {
  }

  lemma {:induction false} WrittenContents<T>(chunks: seq<Chunk<T>>, size: nat, x: T)
    requires HasRoom(chunks, size)
    ensures Live(Written(chunks, x)) == Live(chunks) + [x]
  {
    var h := |chunks| - 1;
    var chunks' := Written(chunks, x);
    assert ChunkAt(chunks, size, h);
    WriteItem(chunks[h], size, x);
    SameBefore(chunks, chunks', h);
  }

  /** The new item is the one a walk from the head meets first. */
  lemma {:induction false} WrittenArrived<T>(chunks: seq<Chunk<T>>, size: nat, x: T)
    requires HasRoom(chunks, size)
    ensures Arrived(Written(chunks, x), At(|chunks| - 1, chunks[|chunks| - 1].next), Live(chunks) + [x])
  {
    var h := |chunks| - 1;
    var n := chunks[h].next;
    var chunks' := Written(chunks, x);
    assert ChunkAt(chunks, size, h);
    SameBefore(chunks, chunks', h);
    SameIn(chunks[h].items, chunks'[h].items, n);
    Dead(chunks[h].items, n, size);
  }

  /** Shorten the link of chunk `c`. */
  function Relinked<T>(chunks: seq<Chunk<T>>, c: nat, p: int): (r: seq<Chunk<T>>)
    requires c < |chunks|
  {
    chunks[c := chunks[c].(prev := p)]
  }

  lemma RelinkedOk<T>(chunks: seq<Chunk<T>>, size: nat, c: nat, p: int)
    requires ListOk(chunks, size) && c < |chunks| && LinkOk(chunks, c, p)
    ensures ListOk(Relinked(chunks, c, p), size)
    ensures Live(Relinked(chunks, c, p)) == Live(chunks) && SameItems(chunks, Relinked(chunks, c, p))
  {
    var chunks' := Relinked(chunks, c, p);
    SameBefore(chunks, chunks', |chunks|);
    forall d ensures ChunkAt(chunks', size, d) { assert ChunkAt(chunks, size, d); }
  }

  lemma SameUpTo<T>(chunks: seq<Chunk<T>>, chunks': seq<Chunk<T>>, c: nat, n: nat)
    requires SameItems(chunks, chunks') && c < |chunks| && n <= |chunks[c].items|
    ensures n <= |chunks'[c].items| && UpTo(chunks', c, n) == UpTo(chunks, c, n)
  {
    forall d | 0 <= d < |chunks| ensures chunks'[d].items == chunks[d].items {
      assert SameChunk(chunks, chunks', d);
    }
    SameBefore(chunks, chunks', c);
  }

  /** Removing one item: its offset reuses the one of its predecessor. */
  function RemovedItems<T>(items: seq<Item<T>>, i: nat): (r: seq<Item<T>>)
    requires i < |items|
  {
    items[i := Item(if i == 0 then 1 else items[i - 1].offset + 1, items[i].value)]
  }

  lemma RemoveSkips<T>(items: seq<Item<T>>, i: nat)
    requires i < |items|
    requires forall j :: 0 <= j < |items| && items[j].offset > 0 ==> SkipsDead(items, j)
    ensures var items' := RemovedItems(items, i);
            && items'[i].offset > 0
            && (forall j :: 0 <= j < |items'| && items'[j].offset > 0 ==> SkipsDead(items', j))
  {
    var items' := RemovedItems(items, i);
    forall j | 0 <= j < |items| && items'[j].offset > 0 ensures SkipsDead(items', j) {
      if j == i {
        if i > 0 && items[i - 1].offset > 0 { assert SkipsDead(items, i - 1); }
      } else {
        assert SkipsDead(items, j);
      }
    }
  }

  lemma {:induction false} RemoveAround<T>(items: seq<Item<T>>, i: nat)
    requires i < |items|
    ensures LiveIn(RemovedItems(items, i), i) == LiveIn(items, i)
    ensures LiveFrom(RemovedItems(items, i), i + 1) == LiveFrom(items, i + 1)
  {
    SameIn(items, RemovedItems(items, i), i);
    SameFrom(items, RemovedItems(items, i), i + 1);
  }

  lemma {:induction false} RemoveCounts<T>(items: seq<Item<T>>, i: nat)
    requires i < |items|
    ensures LiveIn(RemovedItems(items, i), |items|) == LiveIn(items, i) + LiveFrom(items, i + 1)
  {
    var items' := RemovedItems(items, i);
    RemoveAround(items, i);
    CutItems(items', i + 1);
    Dead(items', i, i + 1);
  }

  lemma {:induction false} RemoveLoses<T>(items: seq<Item<T>>, i: nat)
    requires i < |items| && items[i].offset == 0
    ensures LiveIn(items, |items|) == LiveIn(items, i) + [items[i].value] + LiveFrom(items, i + 1)
  {
    CutItems(items, i + 1);
  }

  lemma {:induction false} DeadAround<T>(items: seq<Item<T>>, i: nat)
    requires i < |items| && items[i].offset > 0
    ensures LiveIn(items, |items|) == LiveIn(items, i) + LiveFrom(items, i + 1)
  {
    CutItems(items, i + 1);
    Dead(items, i, i + 1);
  }

  /** Flag slot `i` of chunk `c` as removed, and the chunk as deleted if that was its last item. */
  function RemovedAt<T>(chunks: seq<Chunk<T>>, c: nat, i: nat): (r: seq<Chunk<T>>)
    requires c < |chunks| && i < |chunks[c].items|
  {
    var ch := chunks[c];
    chunks[c := ch.(items := RemovedItems(ch.items, i), freed := ch.freed + 1,
                    deleted := ch.deleted || ch.freed == |ch.items| - 1)]
  }

  lemma RemovedChunkOk<T>(ch: Chunk<T>, size: nat, i: nat)
    requires size > 0 && ChunkOk(ch, size) && i < size && ch.items[i].offset == 0
    ensures ChunkOk(RemovedAt([ch], 0, i)[0], size)
  {
    RemoveSkips(ch.items, i);
    RemoveCounts(ch.items, i);
    RemoveLoses(ch.items, i);
    var n := Min(ch.next, size);
    assert i < n;
  }

  lemma RemovedOk<T>(chunks: seq<Chunk<T>>, size: nat, c: nat, i: nat)
    requires ListOk(chunks, size) && c < |chunks| && i < size && chunks[c].items[i].offset == 0
    ensures ListOk(RemovedAt(chunks, c, i), size)
  {
    var chunks' := RemovedAt(chunks, c, i);
    assert ChunkAt(chunks, size, c);
    RemovedChunkOk(chunks[c], size, i);
    forall d ensures ChunkAt(chunks', size, d) { assert ChunkAt(chunks, size, d); }
  }

  /** A second removal counts an item as freed that was not live. */
  lemma {:induction false} RemovedTwice<T>(chunks: seq<Chunk<T>>, size: nat, c: nat, i: nat)
    requires ListOk(chunks, size) && c < |chunks| && i < size && chunks[c].items[i].offset > 0
    ensures !ListOk(RemovedAt(chunks, c, i), size)
  {
    var chunks' := RemovedAt(chunks, c, i);
    assert ChunkAt(chunks, size, c);
    RemoveCounts(chunks[c].items, i);
    DeadAround(chunks[c].items, i);
    assert !ChunkOk(chunks'[c], size);
    assert !ChunkAt(chunks', size, c);
  }

  /** Removing keeps the list in order exactly when the item is there. */
  lemma RemovedIff<T>(chunks: seq<Chunk<T>>, size: nat, c: nat, i: nat)
    requires ListOk(chunks, size) && c < |chunks| && i < size
    ensures ListOk(RemovedAt(chunks, c, i), size) <==> chunks[c].items[i].offset == 0
  {
    if chunks[c].items[i].offset == 0 { RemovedOk(chunks, size, c, i); } else { RemovedTwice(chunks, size, c, i); }
  }

  /** Only the offset of slot `i` is written; the item had been removed before. */
  function Overwritten<T>(chunks: seq<Chunk<T>>, c: nat, i: nat): (r: seq<Chunk<T>>)
    requires c < |chunks| && i < |chunks[c].items|
  {
    chunks[c := chunks[c].(items := RemovedItems(chunks[c].items, i))]
  }

  lemma OverwrittenChunkOk<T>(ch: Chunk<T>, size: nat, i: nat)
    requires size > 0 && ChunkOk(ch, size) && i < size && i < ch.next && ch.items[i].offset > 0
    ensures ChunkOk(ch.(items := RemovedItems(ch.items, i)), size)
  {
    RemoveSkips(ch.items, i);
    RemoveCounts(ch.items, i);
    DeadAround(ch.items, i);
  }

  lemma OverwrittenOk<T>(chunks: seq<Chunk<T>>, size: nat, c: nat, i: nat)
    requires ListOk(chunks, size) && c < |chunks| && i < size && i < chunks[c].next && chunks[c].items[i].offset > 0
    ensures ListOk(Overwritten(chunks, c, i), size)
  {
    var chunks' := Overwritten(chunks, c, i);
    assert ChunkAt(chunks, size, c);
    OverwrittenChunkOk(chunks[c], size, i);
    forall d ensures ChunkAt(chunks', size, d) { assert ChunkAt(chunks, size, d); }
  }

  /** A removal that goes no further than the offset does no harm. */
  lemma OverwrittenKept<T>(chunks: seq<Chunk<T>>, size: nat, c: nat, i: nat)
    requires ListOk(chunks, size) && c < |chunks| && i < size && i < chunks[c].next && chunks[c].items[i].offset > 0
    ensures ListOk(Overwritten(chunks, c, i), size) && Live(Overwritten(chunks, c, i)) == Live(chunks)
  {
    OverwrittenOk(chunks, size, c, i);
    OverwrittenContents(chunks, c, i);
    Cut(chunks, c, i);
  }

  lemma SameLists<T>(chunks: seq<Chunk<T>>, chunks': seq<Chunk<T>>)
    requires |chunks| == |chunks'| && forall d :: 0 <= d < |chunks| ==> chunks'[d].items == chunks[d].items
    ensures Live(chunks') == Live(chunks)
  {
    SameBefore(chunks, chunks', |chunks|);
  }

  lemma {:induction false} RemovedAround<T>(chunks: seq<Chunk<T>>, c: nat, i: nat)
    requires c < |chunks| && i < |chunks[c].items|
    ensures var chunks' := RemovedAt(chunks, c, i);
            && UpTo(chunks', c, i) == UpTo(chunks, c, i)
            && UpTo(chunks', c, i + 1) == UpTo(chunks, c, i)
            && From(chunks', c, i + 1) == From(chunks, c, i + 1)
  {
    var chunks' := RemovedAt(chunks, c, i);
    RemoveAround(chunks[c].items, i);
    SameBefore(chunks, chunks', c);
    SameAfter(chunks, chunks', c + 1);
  }

  lemma {:induction false} RemovedContents<T>(chunks: seq<Chunk<T>>, c: nat, i: nat)
    requires c < |chunks| && i < |chunks[c].items|
    ensures var chunks' := RemovedAt(chunks, c, i);
            && UpTo(chunks', c, i) == UpTo(chunks, c, i)
            && From(chunks', c, i + 1) == From(chunks, c, i + 1)
            && Live(chunks') == UpTo(chunks, c, i) + From(chunks, c, i + 1)
  {
    RemovedAround(chunks, c, i);
    Cut(RemovedAt(chunks, c, i), c, i + 1);
  }

  lemma OverwrittenContents<T>(chunks: seq<Chunk<T>>, c: nat, i: nat)
    requires c < |chunks| && i < |chunks[c].items|
    ensures var chunks' := Overwritten(chunks, c, i);
            && UpTo(chunks', c, i) == UpTo(chunks, c, i)
            && From(chunks', c, i + 1) == From(chunks, c, i + 1)
            && Live(chunks') == UpTo(chunks, c, i) + From(chunks, c, i + 1)
  {
    var chunks' := Overwritten(chunks, c, i);
    RemoveAround(chunks[c].items, i);
    SameBefore(chunks, chunks', c);
    SameAfter(chunks, chunks', c + 1);
    RemovedContents(chunks, c, i);
    SameLists(RemovedAt(chunks, c, i), chunks');
  }

  // ------------------------------------------------------------ the list

  class ChunkedList<T(==)> {
    const size: nat
    const blank: T            // what unused storage happens to hold
    var chunks: seq<Chunk<T>> // the head is last

    ghost predicate Valid()
      reads this
    {
      ListOk(chunks, size)
    }

    /** The live items in push order. */
    function Contents(): (r: seq<T>)
      reads this
    {
      Live(chunks)
    }

    constructor (size: nat, blank: T)
      requires size > 0
      ensures Valid() && this.size == size && Contents() == []
    {
      this.size := size;
      this.blank := blank;
      this.chunks := [];
    }

    /** Push as one step: take the next slot of the head chunk, after making a new head if it is full. */
    method Push(x: T) returns (pos: Position)
      requires Valid()
      modifies this`chunks
      ensures Valid() && Contents() == old(Contents()) + [x] && Arrived(chunks, pos, Contents())
      ensures KeepsWritten(old(chunks), chunks)
    {
      if chunks == [] || chunks[|chunks| - 1].next == size { NewChunk(); }
      pos := Write(x);
    }

    method NewChunk()
      requires Valid() && (chunks != [] ==> chunks[|chunks| - 1].next == size)
      modifies this`chunks
      ensures HasRoom(chunks, size) && Contents() == old(Contents()) && KeepsWritten(old(chunks), chunks)
    {
      NewHeadRoom(chunks, size, blank);
      NewHeadContents(chunks, size, blank);
      NewHeadKeeps(chunks, size, blank);
      chunks := NewHead(chunks, size, blank);
    }

    method Write(x: T) returns (pos: Position)
      requires HasRoom(chunks, size)
      modifies this`chunks
      ensures Valid() && Contents() == old(Contents()) + [x] && Arrived(chunks, pos, Contents())
      ensures KeepsWritten(old(chunks), chunks)
    {
      pos := At(|chunks| - 1, chunks[|chunks| - 1].next);
      WrittenOk(chunks, size, x);
      WrittenContents(chunks, size, x);
      WrittenKeeps(chunks, x);
      WrittenArrived(chunks, size, x);
      chunks := Written(chunks, x);
    }

    /** The next chunk back that is not deleted; the link of `c` is shortened on the way. */
    method PrevChunk(c: nat) returns (p: int)
      requires Valid() && c < |chunks|
      modifies this`chunks
      ensures Valid() && SameItems(old(chunks), chunks)
      ensures LinkOk(chunks, c, p) && chunks[c].prev == p && (p >= 0 ==> !chunks[p].deleted)
    {
      assert ChunkAt(chunks, size, c);
      p := chunks[c].prev;
      while p >= 0 && chunks[p].deleted
        invariant LinkOk(chunks, c, p)
      {
        assert ChunkAt(chunks, size, p);
        p := chunks[p].prev;
      }
      RelinkedOk(chunks, size, c, p);
      chunks := Relinked(chunks, c, p);
    }

    /** Step to the last slot of the next chunk back, or to the end. */
    method Back(c: nat) returns (p: int, i: int)
      requires Valid() && c < |chunks|
      modifies this`chunks
      ensures Valid() && SameItems(old(chunks), chunks)
      ensures -1 <= p < c && (p >= 0 ==> 0 <= i < size)
      ensures old(UpTo(chunks, c, 0)) == if p < 0 then [] else UpTo(chunks, p, i + 1)
    {
      ghost var before := chunks;
      p := PrevChunk(c);
      SameUpTo(before, chunks, c, 0);
      IntoPrev(chunks, size, c, p);
      i := 0;
      if p >= 0 {
        i := LastItem(chunks[p], size);
        LastItemCovers(chunks, size, p);
      }
    }

    /** Jump by the offset of a removed item, and on to the chunk before if that leaves this one. */
    method Skip(c: nat, i: nat) returns (c': int, i': int)
      requires Valid() && c < |chunks| && i < size && chunks[c].items[i].offset > 0
      modifies this`chunks
      ensures Valid() && SameItems(old(chunks), chunks)
      ensures -1 <= c' <= c && (c' >= 0 ==> 0 <= i' < size) && (c' < c || i' < i)
      ensures old(UpTo(chunks, c, i + 1)) == if c' < 0 then [] else UpTo(chunks, c', i' + 1)
    {
      assert ChunkAt(chunks, size, c);
      Jump(chunks, c, i);
      c', i' := c, i - chunks[c].items[i].offset;
      if i' < 0 {
        c', i' := Back(c);
      }
    }

    /** Follow skip offsets and chunk links to the next live item. */
    method AcquireNext(c0: nat, i0: nat) returns (pos: Position)
      requires Valid() && c0 < |chunks| && i0 < size
      modifies this`chunks
      ensures Valid() && SameItems(old(chunks), chunks)
      ensures Arrived(chunks, pos, old(UpTo(chunks, c0, i0 + 1)))
    {
      ghost var todo := UpTo(chunks, c0, i0 + 1);
      var c: int, i: int := c0, i0;
      while c >= 0
        invariant Valid() && SameItems(old(chunks), chunks)
        invariant -1 <= c < |chunks| && (c >= 0 ==> 0 <= i < size)
        invariant todo == if c < 0 then [] else UpTo(chunks, c, i + 1)
        decreases c, i
      {
        if chunks[c].items[i].offset == 0 {
          ArrivedAt(chunks, c, i);
          return At(c, i);
        }
        ghost var before := chunks;
        c, i := Skip(c, i);
        SameItemsBoth(old(chunks), before, chunks);
      }
      return End;
    }

    method RBegin() returns (pos: Position)
      requires Valid()
      modifies this`chunks
      ensures Valid() && SameItems(old(chunks), chunks)
      ensures Contents() == old(Contents()) && Arrived(chunks, pos, Contents())
    {
      if chunks == [] { return End; }
      var h := |chunks| - 1;
      LastItemCovers(chunks, size, h);
      pos := AcquireNext(h, LastItem(chunks[h], size));
      SameLive(old(chunks), chunks);
    }

    /** Advance from any position, whether or not its item was removed in the meantime. */
    method Next(pos: Position) returns (next: Position)
      requires Valid() && pos.At? && InRange(chunks, pos)
      modifies this`chunks
      ensures Valid() && SameItems(old(chunks), chunks)
      ensures Arrived(chunks, next, old(Ahead(chunks, pos)))
    {
      next := Advance(pos.chunk, pos.slot);
    }

    method Advance(c: nat, i: nat) returns (next: Position)
      requires Valid() && c < |chunks| && i < size
      modifies this`chunks
      ensures Valid() && SameItems(old(chunks), chunks)
      ensures Arrived(chunks, next, old(UpTo(chunks, c, i)))
    {
      if i >= 1 {
        next := AcquireNext(c, i - 1);
      } else {
        next := NextFromChunk(c);
      }
    }

    /** Advance from the first slot of a chunk. */
    method NextFromChunk(c: nat) returns (next: Position)
      requires Valid() && c < |chunks|
      modifies this`chunks
      ensures Valid() && SameItems(old(chunks), chunks)
      ensures Arrived(chunks, next, old(UpTo(chunks, c, 0)))
    {
      var p, i := Back(c);
      if p < 0 { return End; }
      ghost var before := chunks;
      next := AcquireNext(p, i);
      SameItemsBoth(old(chunks), before, chunks);
    }

    /**
     Remove the item at a position whose reference count is `refcount`; false if it throws, as it does for
     the end position and for a removed item that nobody holds. A second removal of an item that is
     still held loses no other item, but the chunk is out of order from then on.
     */
    method Remove(pos: Position, refcount: int) returns (ok: bool)
      requires Valid() && InRange(chunks, pos) && OnWritten(chunks, pos)
      requires Holds(chunks, pos) ==> refcount >= 0
      modifies this`chunks
      ensures ok == (pos.At? && refcount >= 0) && (pos.End? ==> chunks == old(chunks))
      ensures Valid() <==> !ok || old(Holds(chunks, pos))
      ensures pos.At? ==> && InRange(chunks, pos) && Ahead(chunks, pos) == old(Ahead(chunks, pos))
                          && From(chunks, pos.chunk, pos.slot + 1) == old(From(chunks, pos.chunk, pos.slot + 1))
                          && Contents() == Ahead(chunks, pos) + From(chunks, pos.chunk, pos.slot + 1)
    {
      if pos.End? { return false; }
      if refcount < 0 {
        OverwrittenKept(chunks, size, pos.chunk, pos.slot);
        OverwrittenContents(chunks, pos.chunk, pos.slot);
        chunks := Overwritten(chunks, pos.chunk, pos.slot);
        return false;
      }
      RemovedIff(chunks, size, pos.chunk, pos.slot);
      RemovedContents(chunks, pos.chunk, pos.slot);
      chunks := RemovedAt(chunks, pos.chunk, pos.slot);
      return true;
    }

    /** Remove every item equal to `x`, walking backwards over the list that shrinks meanwhile. */
    method Erase(x: T)
      requires Valid()
      modifies this`chunks
      ensures Valid() && Contents() == Without(old(Contents()), x)
    {
      var it := RBegin();
      ghost var todo, done := Contents(), [];
      assert todo + done == todo;
      while it.At?
        invariant Valid() && Arrived(chunks, it, todo)
        invariant Contents() == todo + done
        invariant Without(old(Contents()), x) == Without(todo, x) + done
        decreases |todo|
      {
        WithoutLast(Ahead(chunks, it), chunks[it.chunk].items[it.slot].value, x, done);
        todo, done := EraseAt(x, it, todo, done);
        ghost var before := chunks;
        it := Next(it);
        SameLive(before, chunks);
      }
    }

    /** What one round of `Erase` does at the item it holds. */
    method EraseAt(x: T, it: Position, ghost todo: seq<T>, ghost done: seq<T>)
      returns (ghost todo': seq<T>, ghost done': seq<T>)
      requires Valid() && it.At? && Arrived(chunks, it, todo) && Contents() == todo + done
      modifies this`chunks
      ensures Valid() && InRange(chunks, it) && Contents() == todo' + done'
      ensures todo' == Ahead(chunks, it) == old(Ahead(chunks, it))
      ensures var v := old(chunks)[it.chunk].items[it.slot].value; done' == if v == x then done else [v] + done
    {
      var v := chunks[it.chunk].items[it.slot].value;
      todo', done' := Ahead(chunks, it), if v == x then done else [v] + done;
      CutRound(chunks, it, todo, done);
      if v == x {
        HeldIsWritten(chunks, size, it);
        var _ := Remove(it, 1); // the walk itself holds the item
      }
    }

    /** A full reverse walk. */
    method Reversed() returns (s: seq<T>)
      requires Valid()
      modifies this`chunks
      ensures Valid() && Contents() == old(Contents()) && s == Backwards(Contents())
    {
      s := [];
      var it := RBegin();
      ghost var all := Contents();
      ghost var todo := all;
      while it.At?
        invariant Valid() && Arrived(chunks, it, todo) && Contents() == all
        invariant s + Backwards(todo) == Backwards(all)
        decreases |todo|
      {
        var v := chunks[it.chunk].items[it.slot].value;
        ghost var before := chunks;
        todo := Ahead(chunks, it);
        BackwardsLast(s, todo, v);
        s := s + [v];
        it := Next(it);
        SameLive(before, chunks);
      }
    }
  }

  lemma WithoutLast<T>(s: seq<T>, v: T, x: T, done: seq<T>)
    ensures Without(s + [v], x) + done == Without(s, x) + (if v == x then done else [v] + done)
  {
    assert (s + [v])[..|s|] == s;
  }

  lemma BackwardsLast<T>(s: seq<T>, todo: seq<T>, v: T)
    ensures s + Backwards(todo + [v]) == (s + [v]) + Backwards(todo)
  {
    assert (todo + [v])[..|todo|] == todo;
  }

  lemma SameTail<T>(s: seq<T>, a: seq<T>, b: seq<T>)
    requires s + a == s + b
    ensures a == b
  {
    assert a == (s + a)[|s|..] && b == (s + b)[|s|..];
  }

  function Backwards<T>(s: seq<T>): (r: seq<T>)
  {
    if s == [] then [] else [s[|s| - 1]] + Backwards(s[..|s| - 1])
  }

  lemma {:induction false} BackwardsAt<T>(s: seq<T>, k: nat)
    requires k < |s|
    ensures |Backwards(s)| == |s| && Backwards(s)[k] == s[|s| - 1 - k]
  {
    if |s| > 1 { BackwardsAt(s[..|s| - 1], if k > 0 then k - 1 else 0); }
  }

  /** The list around the item at a position. */
  lemma CutAt<T>(chunks: seq<Chunk<T>>, pos: Position)
    requires pos.At? && Holds(chunks, pos)
    ensures Live(chunks) == Ahead(chunks, pos) + [chunks[pos.chunk].items[pos.slot].value]
                            + From(chunks, pos.chunk, pos.slot + 1)
  {
    Cut(chunks, pos.chunk, pos.slot + 1);
  }

  /** What is done lies behind the item at a position, what is left to do in front of it. */
  lemma CutRound<T>(chunks: seq<Chunk<T>>, pos: Position, todo: seq<T>, done: seq<T>)
    requires pos.At? && Arrived(chunks, pos, todo) && Live(chunks) == todo + done
    ensures done == From(chunks, pos.chunk, pos.slot + 1)
    ensures Live(chunks) == Ahead(chunks, pos) + ([chunks[pos.chunk].items[pos.slot].value] + done)
  {
    CutAt(chunks, pos);
    SameTail(todo, done, From(chunks, pos.chunk, pos.slot + 1));
  }
}
