/**
 Returning the last block of a chunk while others allocate from it. The decrement of the count and
 the test whether the chunk is full are separate steps, and allocations may come in between.
 */
module ChunkErasure {

  /** A thread that has returned the last block tests whether the chunk is full, and erases it if so. */
  datatype Thread = Idle | Testing | Erasing

  /** `space` is what the chunk has left; a refused request makes it negative. */
  datatype State = State(space: int, live: nat, threads: seq<Thread>, erased: bool)

  datatype Step = Allocate(n: nat) | Drop(i: nat) | Test(i: nat) | Erase(i: nat)

  predicate Full(s: State) { s.space <= 0 }

  predicate Enabled(s: State, step: Step)
  {
    match step
    case Allocate(n) => n > 0
    case Drop(i) => i < |s.threads| && s.threads[i].Idle? && s.live > 0
    case Test(i) => i < |s.threads| && s.threads[i].Testing?
    case Erase(i) => i < |s.threads| && s.threads[i].Erasing?
  }

  function Apply(s: State, step: Step): (s': State)
    requires Enabled(s, step)
  {
    match step
    case Allocate(n) =>
      s.(space := s.space - n, live := if s.space >= n then s.live + 1 else s.live)
    case Drop(i) =>
      s.(live := s.live - 1, threads := s.threads[i := if s.live == 1 then Testing else Idle])
    case Test(i) =>
      s.(threads := s.threads[i := if Full(s) then Erasing else Idle])
    case Erase(i) => s.(threads := s.threads[i := Idle], erased := true)
  }

  predicate Init(s: State)
  {
    s.space > 0 && s.live == 0 && !s.erased && forall i :: 0 <= i < |s.threads| ==> s.threads[i].Idle?
  }

  ghost predicate Next(s: State, s': State)
  {
    exists step :: Enabled(s, step) && s' == Apply(s, step)
  }

  /** A stretch of steps from any state. */
  ghost predicate Steps(run: seq<State>)
  {
    |run| > 0 && forall i :: 0 <= i < |run| - 1 ==> Next(run[i], run[i + 1])
  }

  ghost predicate Run(run: seq<State>)
  {
    Steps(run) && Init(run[0])
  }

  // ------------------------------------------------------------ when erasure is safe

  /** However it goes on from `s`, the chunk is only ever erased without a block in it. */
  ghost predicate ErasesOnlyEmpty(s: State)
  {
    forall run: seq<State>, i :: Steps(run) && run[0] == s && 0 <= i < |run| && run[i].erased ==> run[i].live == 0
  }

  /** A full chunk without blocks never holds a block again. */
  predicate Dead(s: State) { Full(s) && s.live == 0 }

  lemma {:induction false} DeadStays(run: seq<State>, i: nat)
    requires Steps(run) && Dead(run[0]) && i < |run|
    ensures Dead(run[i])
  {
    if i > 0 {
      DeadStays(run, i - 1);
      assert Next(run[i - 1], run[i]);
    }
  }

  lemma DeadErasesOnlyEmpty(s: State)
    requires Dead(s)
    ensures ErasesOnlyEmpty(s)
  {
    forall run: seq<State>, i | Steps(run) && run[0] == s && 0 <= i < |run| && run[i].erased ensures run[i].live == 0 {
      DeadStays(run, i);
    }
  }

  /** A test that passes over a live block ends with the chunk erased under it, if nothing comes in between. */
  lemma LateTestErasesLive(s: State, i: nat)
    requires Enabled(s, Test(i)) && Full(s) && s.live > 0
    ensures Enabled(Apply(s, Test(i)), Erase(i)) && !ErasesOnlyEmpty(s)
  {
    var s1 := Apply(s, Test(i));
    var s2 := Apply(s1, Erase(i));
    assert Next(s, s1) && Next(s1, s2);
    var run := [s, s1, s2];
    assert Steps(run) && run[2].erased && run[2].live > 0;
  }

  /** What can go wrong after a step can go wrong before it. */
  lemma UnsafeBefore(s: State, s1: State)
    requires Next(s, s1) && !ErasesOnlyEmpty(s1)
    ensures !ErasesOnlyEmpty(s)
  {
    var run: seq<State>, i :| Steps(run) && run[0] == s1 && 0 <= i < |run| && run[i].erased && run[i].live != 0;
    var longer := [s] + run;
    assert Steps(longer) && longer[i + 1] == run[i];
  }

  /** With room left, an allocation that takes all of it lets the waiting test pass over a live block. */
  lemma RoomLosesBlock(s: State, i: nat)
    requires i < |s.threads| && s.threads[i].Testing? && s.space > 0
    ensures !ErasesOnlyEmpty(s)
  {
    var s1 := Apply(s, Allocate(s.space));
    assert Next(s, s1);
    LateTestErasesLive(s1, i);
    UnsafeBefore(s, s1);
  }

  /**
   Returning the last block is safe, whatever happens afterwards, exactly when the chunk is full by
   then. A caller can tell before the call.
   */
  lemma DropSafeIff(s: State, i: nat)
    requires Enabled(s, Drop(i)) && s.live == 1
    ensures ErasesOnlyEmpty(Apply(s, Drop(i))) <==> Full(s)
  {
    if Full(s) {
      DeadErasesOnlyEmpty(Apply(s, Drop(i)));
    } else {
      RoomLosesBlock(Apply(s, Drop(i)), i);
    }
  }

  predicate Takes(run: seq<State>, i: nat, step: Step)
  {
    i + 1 < |run| && Enabled(run[i], step) && run[i + 1] == Apply(run[i], step)
  }

  /** Every last block of the run was returned to a chunk that was full by then. */
  ghost predicate FullBeforeLastDrop(run: seq<State>)
  {
    forall i: nat, k :: Takes(run, i, Drop(k)) && run[i].live == 1 ==> Full(run[i])
  }

  /** Every state of the run that a last block's return leads to is safe for good. */
  ghost predicate LastDropsSafe(run: seq<State>)
  {
    forall i: nat, k :: Takes(run, i, Drop(k)) && run[i].live == 1 ==> ErasesOnlyEmpty(run[i + 1])
  }

  /** The same for whole runs: no return puts the chunk in danger if and only if the chunk was full each time. */
  lemma SafeIffFullFirst(run: seq<State>)
    ensures LastDropsSafe(run) <==> FullBeforeLastDrop(run)
  {
    forall i: nat, k | Takes(run, i, Drop(k)) && run[i].live == 1
      ensures ErasesOnlyEmpty(run[i + 1]) <==> Full(run[i])
    {
      DropSafeIff(run[i], k);
    }
  }

  predicate Untouched(s: State)
  {
    forall i :: 0 <= i < |s.threads| && !s.threads[i].Idle? ==> Dead(s)
  }

  lemma {:induction false} UntouchedRun(run: seq<State>, i: nat)
    requires Run(run) && FullBeforeLastDrop(run) && i < |run|
    ensures Untouched(run[i]) && (run[i].erased ==> Dead(run[i]))
  {
    if i > 0 {
      UntouchedRun(run, i - 1);
      assert Next(run[i - 1], run[i]);
      var step :| Enabled(run[i - 1], step) && run[i] == Apply(run[i - 1], step);
      assert Takes(run, i - 1, step);
    }
  }

  /**
   In a run whose last blocks come back to a full chunk, as they do behind the head, an erased chunk
   has no outstanding block and will never have one again.
   */
  lemma FullFirstIsSafe(run: seq<State>, i: nat)
    requires Run(run) && FullBeforeLastDrop(run) && i < |run| && run[i].erased
    ensures run[i].live == 0 && ErasesOnlyEmpty(run[i])
  {
    UntouchedRun(run, i);
    DeadErasesOnlyEmpty(run[i]);
  }

  // ------------------------------------------------------------ the race at the head

  /** The last block is returned, a new one exhausts the chunk, and the chunk is erased under it. */
  lemma ErasedUnderLiveBlock() returns (run: seq<State>)
    ensures Run(run) && run[|run| - 1].erased && run[|run| - 1].live == 1
  {
    var s0 := State(2, 0, [Idle], false);
    var s1 := Apply(s0, Allocate(1));
    var s2 := Apply(s1, Drop(0));
    var s3 := Apply(s2, Allocate(1));
    var s4 := Apply(s3, Test(0));
    var s5 := Apply(s4, Erase(0));
    assert Next(s0, s1) && Next(s1, s2) && Next(s2, s3) && Next(s3, s4) && Next(s4, s5);
    run := [s0, s1, s2, s3, s4, s5];
  }
}
