/**
 The life of one list item under concurrent acquisition, release and removal. Every step is one
 atomic load, store or fetch-and-add; the item is removed at most once, by a thread of its own.
 */
module ItemLifetime {
  import opened Common

  /** Where a thread stands in `acquire`, and what it came back with. */
  datatype Thread =
    | Idle
    | Offset(off: nat)              // first offset load done
    | Ready                         // both loads done, the item looked alive
    | Added(seen: int)              // count raised
    | Reloaded(seen: int, off: nat) // second offset load done
    | Holding                       // returned 0 with a reference
    | Failed(off: nat)              // returned a distance
    | Phantom                       // returned 0 without a reference

  datatype Removal = Listed | Flagged | Dropped

  datatype State = State(
    threads: seq<Thread>,
    offset: nat,
    refcount: int,
    removal: Removal,
    destroyed: nat,     // times the value was destructed
    phantoms: nat,      // times an acquisition returned 0 without a reference
    lost: bool)         // a failed acquisition made the last decrement, which destructs nothing

  datatype Step =
    | LoadOffset(i: nat)
    | LoadCount(i: nat)
    | Add(i: nat)
    | Reload(i: nat)
    | Settle(i: nat)
    | Release(i: nat)
    | Flag(off: nat)
    | Drop

  predicate Enabled(s: State, step: Step)
  {
    match step
    case LoadOffset(i) => i < |s.threads| && (s.threads[i].Idle? || s.threads[i].Failed?)
    case LoadCount(i) => i < |s.threads| && s.threads[i].Offset?
    case Add(i) => i < |s.threads| && s.threads[i].Ready?
    case Reload(i) => i < |s.threads| && s.threads[i].Added?
    case Settle(i) => i < |s.threads| && s.threads[i].Reloaded?
    case Release(i) => i < |s.threads| && (s.threads[i].Holding? || s.threads[i].Phantom?)
    case Flag(off) => s.removal.Listed? && off > 0
    case Drop => s.removal.Flagged?
  }

  /** `release`: the decrement that takes the count from 0 to -1 destructs the value. */
  function Decrement(s: State): (s': State)
  {
    s.(refcount := s.refcount - 1, destroyed := if s.refcount == 0 then s.destroyed + 1 else s.destroyed)
  }

  function SetThread(s: State, i: nat, t: Thread): (s': State)
    requires i < |s.threads|
  {
    s.(threads := s.threads[i := t])
  }

  function Apply(s: State, step: Step): (s': State)
    requires Enabled(s, step)
  {
    match step
    case LoadOffset(i) => SetThread(s, i, Offset(s.offset))
    case LoadCount(i) =>
      var off := s.threads[i].off;
      if off == 0 && s.refcount >= 0 then SetThread(s, i, Ready)
      else if off == 0 then SetThread(s, i, Phantom).(phantoms := s.phantoms + 1)
      else SetThread(s, i, Failed(off))
    case Add(i) => SetThread(s, i, Added(s.refcount)).(refcount := s.refcount + 1)
    case Reload(i) => SetThread(s, i, Reloaded(s.threads[i].seen, s.offset))
    case Settle(i) =>
      var seen, off := s.threads[i].seen, s.threads[i].off;
      if seen >= 0 && off == 0 then SetThread(s, i, Holding)
      else
        var s1 := s.(refcount := s.refcount - 1,
                     lost := s.lost || (s.refcount == 0 && s.removal.Dropped? && s.destroyed == 0));
        if off == 0 then SetThread(s1, i, Phantom).(phantoms := s.phantoms + 1) else SetThread(s1, i, Failed(off))
    case Release(i) => Decrement(SetThread(s, i, Idle))
    case Flag(off) => s.(offset := off, removal := Flagged)
    case Drop => Decrement(s.(removal := Dropped))
  }

  /** A written item with any number of threads that have not touched it yet. */
  predicate Init(s: State)
  {
    s == State(s.threads, 0, 0, Listed, 0, 0, false) && forall i :: 0 <= i < |s.threads| ==> s.threads[i].Idle?
  }

  ghost predicate Next(s: State, s': State)
  {
    exists step :: Enabled(s, step) && s' == Apply(s, step)
  }

  ghost predicate Run(run: seq<State>)
  {
    |run| > 0 && Init(run[0]) && forall i {:trigger StepAt(run, i)} :: StepAt(run, i)
  }

  ghost predicate StepAt(run: seq<State>, i: int)
  {
    0 <= i < |run| - 1 ==> Next(run[i], run[i + 1])
  }

  // ------------------------------------------------------------ counting references

  predicate InFlight(t: Thread) { t.Added? || t.Reloaded? }

  predicate Counted(t: Thread) { t.Holding? || InFlight(t) }

  /** Holders and acquisitions in flight. */
  function Refs(ts: seq<Thread>): (r: nat)
  {
    if ts == [] then 0 else Refs(ts[..|ts| - 1]) + (if Counted(ts[|ts| - 1]) then 1 else 0)
  }

  lemma {:induction false} RefsUpdate(ts: seq<Thread>, i: nat, t: Thread)
    requires i < |ts|
    ensures Refs(ts[i := t]) == Refs(ts) - B2i(Counted(ts[i])) + B2i(Counted(t))
  {
    var n := |ts| - 1;
    if i < n {
      RefsUpdate(ts[..n], i, t);
      assert ts[i := t][..n] == ts[..n][i := t];
    } else {
      assert ts[i := t][..n] == ts[..n];
    }
  }

  lemma {:induction false} RefsPositive(ts: seq<Thread>, i: nat)
    requires i < |ts| && Counted(ts[i])
    ensures Refs(ts) >= 1
  {
    if i < |ts| - 1 { RefsPositive(ts[..|ts| - 1], i); }
  }

  lemma {:induction false} NoRefs(ts: seq<Thread>)
    requires forall i :: 0 <= i < |ts| ==> !Counted(ts[i])
    ensures Refs(ts) == 0
  {
    if ts != [] { NoRefs(ts[..|ts| - 1]); }
  }

  // ------------------------------------------------------------ the invariant

  /** Nobody reads the value or is about to. */
  predicate Unread(t: Thread)
  {
    !t.Holding? && !(t.Reloaded? && t.off == 0)
  }

  predicate ThreadOk(s: State, t: Thread)
  {
    && (t.Added? && t.seen < 0 ==> s.offset > 0)
    && (t.Reloaded? && t.seen < 0 ==> t.off > 0)
    && (t.Failed? ==> t.off == s.offset > 0)
    && (t.Offset? || t.Reloaded? ==> t.off == 0 || t.off == s.offset)
    && !t.Phantom?
    && (s.destroyed > 0 || s.lost ==> Unread(t))
  }

  ghost predicate Inv(s: State)
  {
    && (s.offset == 0 <==> s.removal.Listed?)
    && s.refcount == Refs(s.threads) - B2i(s.removal.Dropped?)
    && (s.destroyed > 0 || s.lost ==> s.removal.Dropped?)
    && s.destroyed + B2i(s.lost) <= 1
    && (s.removal.Dropped? && Refs(s.threads) == 0 ==> s.destroyed == 1 || s.lost)
    && forall i :: 0 <= i < |s.threads| ==> ThreadOk(s, s.threads[i])
  }

  lemma InvInit(s: State)
    requires Init(s)
    ensures Inv(s)
  {
    NoRefs(s.threads);
  }

  /** The decrement that leaves -1 behind finds no reference left. */
  lemma LastOut(s: State)
    requires Refs(s.threads) == 0
    ensures forall i :: 0 <= i < |s.threads| ==> !Counted(s.threads[i])
  {
    forall i | 0 <= i < |s.threads| ensures !Counted(s.threads[i]) {
      if Counted(s.threads[i]) { RefsPositive(s.threads, i); }
    }
  }

  /** A step of thread `i` that leaves the item as it is, apart from the count. */
  lemma CountStep(s: State, s': State, i: nat)
    requires Inv(s) && i < |s.threads| == |s'.threads| && ThreadOk(s', s'.threads[i])
    requires s' == s.(threads := s.threads[i := s'.threads[i]], refcount := s'.refcount, lost := s'.lost)
    requires s'.refcount - s.refcount == B2i(Counted(s'.threads[i])) - B2i(Counted(s.threads[i]))
    requires s'.lost == (s.lost || (s'.refcount < s.refcount == 0 && s.removal.Dropped? && s.destroyed == 0))
    ensures Inv(s')
  {
    RefsUpdate(s.threads, i, s'.threads[i]);
    if Refs(s'.threads) == 0 { LastOut(s'); }
  }

  lemma ReleaseStep(s: State, i: nat)
    requires Inv(s) && Enabled(s, Release(i))
    ensures Inv(Apply(s, Release(i)))
  {
    var s' := Apply(s, Release(i));
    assert ThreadOk(s, s.threads[i]);
    RefsUpdate(s.threads, i, Idle);
    RefsPositive(s.threads, i);
    if Refs(s'.threads) == 0 { LastOut(s'); }
  }

  lemma DropStep(s: State)
    requires Inv(s) && Enabled(s, Drop)
    ensures Inv(Apply(s, Drop))
  {
    if Refs(s.threads) == 0 { LastOut(s); }
  }

  lemma InvStep(s: State, step: Step)
    requires Inv(s) && Enabled(s, step) && Apply(s, step).phantoms == s.phantoms
    ensures Inv(Apply(s, step))
  {
    match step
    case Release(i) => ReleaseStep(s, i);
    case Drop => DropStep(s);
    case Flag(_) =>
    case Settle(i) =>
      assert ThreadOk(s, s.threads[i]);
      RefsPositive(s.threads, i);
      CountStep(s, Apply(s, step), i);
    case _ =>
      assert ThreadOk(s, s.threads[step.i]);
      CountStep(s, Apply(s, step), step.i);
  }

  lemma PhantomsGrow(s: State, step: Step)
    requires Enabled(s, step)
    ensures s.phantoms <= Apply(s, step).phantoms <= s.phantoms + 1
    ensures s.destroyed <= Apply(s, step).destroyed
  {
  }

  /** The invariant holds as long as no acquisition returned 0 without a reference. */
  lemma {:induction false} InvRun(run: seq<State>, i: nat)
    requires Run(run) && i < |run| && run[i].phantoms == 0
    ensures Inv(run[i])
  {
    if i == 0 {
      InvInit(run[0]);
    } else {
      assert StepAt(run, i - 1);
      var step :| Enabled(run[i - 1], step) && run[i] == Apply(run[i - 1], step);
      PhantomsGrow(run[i - 1], step);
      InvRun(run, i - 1);
      InvStep(run[i - 1], step);
    }
  }

  // ------------------------------------------------------------ what holds

  /**
   The count is the holders plus the acquisitions in flight, less one once removed. The value is
   destructed at most once, and then nobody holds it or is about to.
   */
  lemma Lifetime(run: seq<State>, i: nat)
    requires Run(run) && i < |run| && run[i].phantoms == 0
    ensures var s := run[i];
            && s.refcount == Refs(s.threads) - B2i(s.removal.Dropped?)
            && s.destroyed <= 1
            && (s.destroyed == 1 ==> s.removal.Dropped? && forall k :: 0 <= k < |s.threads| ==> Unread(s.threads[k]))
  {
    InvRun(run, i);
    forall k | 0 <= k < |run[i].threads| ensures ThreadOk(run[i], run[i].threads[k]) {}
  }

  /** Removed and unreferenced, the value is either destructed or was given up by a failed acquisition. */
  lemma DestructedOrLost(run: seq<State>, i: nat)
    requires Run(run) && i < |run| && run[i].phantoms == 0
    requires run[i].removal.Dropped? && Refs(run[i].threads) == 0
    ensures run[i].destroyed == 1 <==> !run[i].lost
  {
    InvRun(run, i);
  }

  lemma {:induction false} DestroyedStays(run: seq<State>, i: nat, j: nat)
    requires Run(run) && i <= j < |run|
    ensures run[i].destroyed <= run[j].destroyed && run[i].phantoms <= run[j].phantoms
  {
    if i < j {
      DestroyedStays(run, i, j - 1);
      assert StepAt(run, j - 1);
      var step :| Enabled(run[j - 1], step) && run[j] == Apply(run[j - 1], step);
      PhantomsGrow(run[j - 1], step);
    }
  }

  /** After the destruction no thread ever holds the item again. */
  lemma NoneAfterDestruction(run: seq<State>, i: nat, j: nat, k: nat)
    requires Run(run) && i <= j < |run| && run[j].phantoms == 0 && run[i].destroyed > 0
    requires k < |run[j].threads|
    ensures !run[j].threads[k].Holding?
  {
    DestroyedStays(run, i, j);
    InvRun(run, j);
    assert ThreadOk(run[j], run[j].threads[k]);
  }

  /** Until the item is flagged as removed, nothing goes wrong. */
  lemma {:induction false} ListedIsSound(run: seq<State>, i: nat)
    requires Run(run) && i < |run| && run[i].removal.Listed?
    ensures run[i].phantoms == 0
  {
    if i > 0 {
      assert StepAt(run, i - 1);
      var step :| Enabled(run[i - 1], step) && run[i] == Apply(run[i - 1], step);
      ListedIsSound(run, i - 1);
      InvRun(run, i - 1);
      if step.LoadCount? || step.Settle? { assert ThreadOk(run[i - 1], run[i - 1].threads[step.i]); }
    }
  }

  /**
   What an acquisition comes back with. While the item is not removed it succeeds; one that fails returns
   the distance that the removal has stored.
   */
  lemma AcquisitionReturns(run: seq<State>, i: nat, k: nat)
    requires Run(run) && i < |run| && k < |run[i].threads|
    ensures run[i].removal.Listed? ==> !run[i].threads[k].Failed? && !run[i].threads[k].Phantom?
    ensures run[i].phantoms == 0 && run[i].threads[k].Failed? ==> run[i].threads[k].off == run[i].offset > 0
  {
    if run[i].removal.Listed? { ListedIsSound(run, i); }
    if run[i].phantoms == 0 {
      InvRun(run, i);
      assert ThreadOk(run[i], run[i].threads[k]);
    }
  }

  lemma Extend(run: seq<State>, step: Step) returns (run': seq<State>)
    requires Run(run) && Enabled(run[|run| - 1], step)
    ensures run' == run + [Apply(run[|run| - 1], step)] && Run(run')
  {
    run' := run + [Apply(run[|run| - 1], step)];
    forall i ensures StepAt(run', i) { assert StepAt(run, i); }
  }

  /** An acquisition that nobody disturbs holds the item, if that is not removed. */
  lemma SoloAcquires(run: seq<State>, i: nat) returns (run': seq<State>)
    requires Run(run) && run[|run| - 1].removal.Listed?
    requires i < |run[|run| - 1].threads| && run[|run| - 1].threads[i].Idle?
    ensures Run(run')
    ensures var s := run[|run| - 1]; run'[|run'| - 1] == SetThread(s, i, Holding).(refcount := s.refcount + 1)
  {
    var s := run[|run| - 1];
    ListedIsSound(run, |run| - 1);
    InvRun(run, |run| - 1);
    run' := Extend(run, LoadOffset(i));
    run' := Extend(run', LoadCount(i));
    run' := Extend(run', Add(i));
    run' := Extend(run', Reload(i));
    run' := Extend(run', Settle(i));
    assert run'[|run'| - 1].threads == s.threads[i := Holding];
  }

  // ------------------------------------------------------------ when acquisition is sound

  /** The second load sees a count below zero although the first still saw offset 0. */
  predicate StaleLoad(s: State, step: Step)
  {
    step.LoadCount? && Enabled(s, step) && s.threads[step.i].off == 0 && s.refcount < 0
  }

  lemma PhantomIsStaleLoad(s: State, step: Step)
    requires Inv(s) && Enabled(s, step)
    ensures Apply(s, step).phantoms > s.phantoms <==> StaleLoad(s, step)
    ensures StaleLoad(s, step) ==> s.destroyed == 1 || s.lost
  {
    if step.Settle? { assert ThreadOk(s, s.threads[step.i]); }
  }

  predicate Takes(run: seq<State>, i: nat, step: Step)
  {
    i + 1 < |run| && Enabled(run[i], step) && run[i + 1] == Apply(run[i], step)
  }

  ghost predicate NoStaleLoad(run: seq<State>)
  {
    forall i: nat, step :: Takes(run, i, step) ==> !StaleLoad(run[i], step)
  }

  lemma {:induction false} NoStaleNoPhantom(run: seq<State>, i: nat)
    requires Run(run) && NoStaleLoad(run) && i < |run|
    ensures run[i].phantoms == 0
  {
    if i > 0 {
      NoStaleNoPhantom(run, i - 1);
      assert StepAt(run, i - 1);
      var step :| Enabled(run[i - 1], step) && run[i] == Apply(run[i - 1], step);
      InvRun(run, i - 1);
      PhantomIsStaleLoad(run[i - 1], step);
      assert Takes(run, i - 1, step);
      PhantomsGrow(run[i - 1], step);
    }
  }

  lemma StaleLeavesPhantom(run: seq<State>, i: nat, step: Step)
    requires Run(run) && Takes(run, i, step) && StaleLoad(run[i], step)
    ensures run[|run| - 1].phantoms > 0
  {
    DestroyedStays(run, 0, i);
    DestroyedStays(run, i + 1, |run| - 1);
  }

  /** Every acquisition that returned 0 got its reference exactly in the runs without a stale load. */
  lemma AcquireSoundIff(run: seq<State>)
    requires Run(run)
    ensures run[|run| - 1].phantoms == 0 <==> NoStaleLoad(run)
  {
    if NoStaleLoad(run) {
      NoStaleNoPhantom(run, |run| - 1);
    } else {
      var i: nat, step :| Takes(run, i, step) && StaleLoad(run[i], step);
      StaleLeavesPhantom(run, i, step);
    }
  }

  // ------------------------------------------------------------ removal under the list lock

  /** Not in the middle of an acquisition. */
  predicate Resting(t: Thread)
  {
    t.Idle? || t.Holding? || t.Failed?
  }

  predicate AllResting(s: State)
  {
    forall k :: 0 <= k < |s.threads| ==> Resting(s.threads[k])
  }

  /** Removal and acquisition exclude each other, as they do under the lock of a resource. */
  ghost predicate LockedRemoval(run: seq<State>)
  {
    forall i: nat, off :: Takes(run, i, Flag(off)) ==> AllResting(run[i])
  }

  ghost predicate Clean(s: State)
  {
    && Inv(s) && s.phantoms == 0 && !s.lost
    && forall k :: 0 <= k < |s.threads| && !s.removal.Listed? ==>
                     Resting(s.threads[k]) || (s.threads[k].Offset? && s.threads[k].off > 0)
  }

  lemma CleanStep(s: State, step: Step)
    requires Clean(s) && Enabled(s, step)
    requires step.Flag? ==> AllResting(s)
    ensures Clean(Apply(s, step))
  {
    PhantomIsStaleLoad(s, step);
    PhantomsGrow(s, step);
    if !StaleLoad(s, step) { InvStep(s, step); }
  }

  lemma {:induction false} CleanRun(run: seq<State>, i: nat)
    requires Run(run) && LockedRemoval(run) && i < |run|
    ensures Clean(run[i])
  {
    if i == 0 {
      InvInit(run[0]);
    } else {
      CleanRun(run, i - 1);
      assert StepAt(run, i - 1);
      var step :| Enabled(run[i - 1], step) && run[i] == Apply(run[i - 1], step);
      assert Takes(run, i - 1, step);
      CleanStep(run[i - 1], step);
    }
  }

  /** Under the lock every acquisition is sound, and a removed item is destructed once its holders are gone. */
  lemma LockedRemovalIsClean(run: seq<State>, i: nat)
    requires Run(run) && LockedRemoval(run) && i < |run|
    ensures run[i].phantoms == 0 && run[i].destroyed <= 1
    ensures run[i].destroyed == 1 <==>
            run[i].removal.Dropped? && forall k :: 0 <= k < |run[i].threads| ==> !run[i].threads[k].Holding?
  {
    CleanRun(run, i);
    var s := run[i];
    if s.removal.Dropped? && forall k :: 0 <= k < |s.threads| ==> !s.threads[k].Holding? {
      NoRefs(s.threads);
    }
    if s.destroyed == 1 {
      forall k | 0 <= k < |s.threads| ensures !s.threads[k].Holding? { assert ThreadOk(s, s.threads[k]); }
    }
  }

  // ------------------------------------------------------------ what can go wrong

  /** Removal between the two loads of an acquisition: it returns 0 for a destructed value. */
  lemma StaleAcquisition() returns (run: seq<State>)
    ensures Run(run)
    ensures var s := run[|run| - 1]; s.destroyed == 1 && s.threads == [Phantom]
  {
    var s0 := State([Idle], 0, 0, Listed, 0, 0, false);
    var s1 := Apply(s0, LoadOffset(0));
    var s2 := Apply(s1, Flag(1));
    var s3 := Apply(s2, Drop);
    var s4 := Apply(s3, LoadCount(0));
    assert Next(s0, s1) && Next(s1, s2) && Next(s2, s3) && Next(s3, s4);
    run := [s0, s1, s2, s3, s4];
  }

  /** One thread returned 0 without a reference while another is about to raise the count. */
  lemma StaleBesideAnother() returns (run: seq<State>)
    ensures Run(run) && run[|run| - 1] == State([Phantom, Ready], 1, -1, Dropped, 1, 1, false)
  {
    var s0 := State([Idle, Idle], 0, 0, Listed, 0, 0, false);
    var s1 := Apply(s0, LoadOffset(0));
    var s2 := Apply(s1, LoadOffset(1));
    var s3 := Apply(s2, LoadCount(1));
    assert Next(s0, s1) && Next(s1, s2) && Next(s2, s3);
    run := Extend([s0, s1, s2, s3], Flag(1));
    run := Extend(run, Drop);
    run := Extend(run, LoadCount(0));
  }

  /** Its release can then meet the count raised by a second acquisition and destruct the value again. */
  lemma DestructedTwice() returns (run: seq<State>)
    ensures Run(run) && run[|run| - 1].destroyed == 2
  {
    run := StaleBesideAnother();
    run := Extend(run, Add(1));
    run := Extend(run, Release(0));
  }

  /** A failed acquisition can make the last decrement; then the value is never destructed. */
  lemma NeverDestructed() returns (run: seq<State>)
    ensures Run(run)
    ensures var s := run[|run| - 1]; s.phantoms == 0 && s.lost && s.destroyed == 0 && Refs(s.threads) == 0
  {
    var s0 := State([Idle], 0, 0, Listed, 0, 0, false);
    var s1 := Apply(s0, LoadOffset(0));
    var s2 := Apply(s1, LoadCount(0));
    var s3 := Apply(s2, Add(0));
    var s4 := Apply(s3, Flag(1));
    var s5 := Apply(s4, Drop);
    var s6 := Apply(s5, Reload(0));
    var s7 := Apply(s6, Settle(0));
    assert Next(s0, s1) && Next(s1, s2) && Next(s2, s3) && Next(s3, s4);
    assert Next(s4, s5) && Next(s5, s6) && Next(s6, s7);
    run := [s0, s1, s2, s3, s4, s5, s6, s7];
    NoRefs(s7.threads);
  }
}
