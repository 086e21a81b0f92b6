/**
 Futures hand the result of a task to one taker. A future may be moved, asked for the result and
 destroyed; the task's result-get event must be notified once over all of this. The machine below
 says what each operation does to all futures of one task; the class does it in place.
 */
module Futures {
  import opened Common

  // ------------------------------------------------------------ all futures of one task

  /** `taken` is also set on a future that was moved from. */
  datatype Handle = Handle(alive: bool, taken: bool)

  /** `gets` counts notifications of the result-get event. */
  datatype History = History(futures: seq<Handle>, gets: nat)

  datatype Step = Move(i: nat) | Get(i: nat) | Destroy(i: nat)

  const SUBMITTED := History([Handle(true, false)], 0)

  predicate Enabled(s: History, step: Step)
  {
    step.i < |s.futures| && s.futures[step.i].alive
  }

  function Apply(s: History, step: Step): (s': History)
    requires Enabled(s, step)
  {
    var f := s.futures[step.i];
    match step
    case Move(i) => s.(futures := s.futures[i := f.(taken := true)] + [f])
    case Get(i) => History(s.futures[i := f.(taken := true)], s.gets + 1)
    case Destroy(i) => History(s.futures[i := f.(alive := false)], s.gets + B2i(!f.taken))
  }

  /** A `get` on a future that was taken from or moved from before. */
  predicate LateGet(s: History, step: Step)
    requires Enabled(s, step)
  {
    step.Get? && s.futures[step.i].taken
  }

  /** The states that a list of operations leads through from the submission of the task. */
  ghost predicate Run(run: seq<History>, steps: seq<Step>)
  {
    && |run| == |steps| + 1 && run[0] == SUBMITTED
    && forall k :: 0 <= k < |steps| ==> Enabled(run[k], steps[k]) && run[k + 1] == Apply(run[k], steps[k])
  }

  function LateGets(run: seq<History>, steps: seq<Step>, k: nat): (n: nat)
    requires k <= |steps| && |steps| <= |run| && forall j :: 0 <= j < k ==> Enabled(run[j], steps[j])
  {
    if k == 0 then 0
    else LateGets(run, steps, k - 1) + (if LateGet(run[k - 1], steps[k - 1]) then 1 else 0)
  }

  /** Futures that still owe a notification. */
  function Owed(fs: seq<Handle>): (n: nat)
  {
    if fs == [] then 0 else Owed(fs[..|fs| - 1]) + B2i(fs[|fs| - 1].alive && !fs[|fs| - 1].taken)
  }

  lemma {:induction false} OwedUpdate(fs: seq<Handle>, i: nat, f: Handle)
    requires i < |fs|
    ensures Owed(fs[i := f]) == Owed(fs) - B2i(fs[i].alive && !fs[i].taken) + B2i(f.alive && !f.taken)
  {
    var n := |fs| - 1;
    if i < n {
      OwedUpdate(fs[..n], i, f);
      assert fs[i := f][..n] == fs[..n][i := f];
    } else {
      assert fs[i := f][..n] == fs[..n];
    }
  }

  lemma {:induction false} OwedNone(fs: seq<Handle>)
    requires forall i :: 0 <= i < |fs| ==> !fs[i].alive || fs[i].taken
    ensures Owed(fs) == 0
  {
    if fs != [] { OwedNone(fs[..|fs| - 1]); }
  }

  lemma OwedStep(s: History, step: Step)
    requires Enabled(s, step)
    ensures var s' := Apply(s, step);
            s'.gets + Owed(s'.futures) == s.gets + Owed(s.futures) + (if LateGet(s, step) then 1 else 0)
  {
    var f := s.futures[step.i];
    OwedUpdate(s.futures, step.i, f.(taken := true));
    OwedUpdate(s.futures, step.i, f.(alive := false));
    if step.Move? {
      var fs := s.futures[step.i := f.(taken := true)];
      assert (fs + [f])[..|fs|] == fs;
    }
  }

  /** Notifications made and owed are one, and one more for every late `get`. */
  lemma {:induction false} Balance(run: seq<History>, steps: seq<Step>, k: nat)
    requires Run(run, steps) && k <= |steps|
    ensures run[k].gets + Owed(run[k].futures) == 1 + LateGets(run, steps, k)
  {
    if k == 0 {
      assert SUBMITTED.futures[..0] == [];
    } else {
      Balance(run, steps, k - 1);
      OwedStep(run[k - 1], steps[k - 1]);
    }
  }

  predicate AllGone(s: History)
  {
    forall i :: 0 <= i < |s.futures| ==> !s.futures[i].alive
  }

  ghost predicate NoLateGet(run: seq<History>, steps: seq<Step>)
    requires |steps| <= |run| && forall j :: 0 <= j < |steps| ==> Enabled(run[j], steps[j])
  {
    forall k :: 0 <= k < |steps| ==> !LateGet(run[k], steps[k])
  }

  lemma {:induction false} NoneIsZero(run: seq<History>, steps: seq<Step>, k: nat)
    requires k <= |steps| <= |run| && forall j :: 0 <= j < |steps| ==> Enabled(run[j], steps[j])
    ensures NoLateGet(run, steps) ==> LateGets(run, steps, k) == 0
    ensures forall j :: 0 <= j < k && LateGet(run[j], steps[j]) ==> LateGets(run, steps, k) > 0
  {
    if k > 0 { NoneIsZero(run, steps, k - 1); }
  }

  /**
   Over any moves, takings and destructions, the event is notified at most once when every `get` is
   on a future not taken from before, and exactly once by the time all futures are gone.
   */
  lemma NotifiedOnce(run: seq<History>, steps: seq<Step>, k: nat)
    requires Run(run, steps) && k <= |steps| && NoLateGet(run, steps)
    ensures run[k].gets <= 1 && (AllGone(run[k]) ==> run[k].gets == 1)
  {
    Balance(run, steps, k);
    NoneIsZero(run, steps, k);
    if AllGone(run[k]) { OwedNone(run[k].futures); }
  }

  /** Once all futures are gone, the event was notified exactly once if and only if no `get` came late. */
  lemma NotifiedOnceIff(run: seq<History>, steps: seq<Step>)
    requires Run(run, steps) && AllGone(run[|steps|])
    ensures run[|steps|].gets == 1 <==> NoLateGet(run, steps)
  {
    Balance(run, steps, |steps|);
    OwedNone(run[|steps|].futures);
    NoneIsZero(run, steps, |steps|);
  }

  /** One `get` alone is not enough: on a future that was moved from, it notifies a second time. */
  lemma MovedFromGet() returns (run: seq<History>, steps: seq<Step>)
    ensures Run(run, steps) && (forall j, k :: 0 <= j < k < |steps| ==> !steps[j].Get? || !steps[k].Get?)
    ensures AllGone(run[|steps|]) && run[|steps|].gets == 2
  {
    steps := [Move(0), Get(0), Destroy(1), Destroy(0)];
    var s1 := Apply(SUBMITTED, Move(0));
    var s2 := Apply(s1, Get(0));
    var s3 := Apply(s2, Destroy(1));
    run := [SUBMITTED, s1, s2, s3, Apply(s3, Destroy(0))];
  }

  // ------------------------------------------------------------ the objects

  class Task {
    var resultGets: nat           // notifications of the result-get event
    ghost var history: History    // all its futures, in the order they came into being

    ghost predicate Valid()
      reads this
    {
      history.gets == resultGets
    }

    constructor ()
      ensures Valid() && history == History([], 0)
    {
      resultGets, history := 0, History([], 0);
    }
  }

  class Future {
    var taken: bool
    const task: Task
    ghost const id: nat
    ghost var alive: bool

    ghost predicate Valid()
      reads this, task
    {
      task.Valid() && id < |task.history.futures| && task.history.futures[id] == Handle(alive, taken)
    }

    /** The future returned when the task is submitted. */
    constructor (task: Task)
      requires task.Valid() && task.history == History([], 0)
      modifies task`history
      ensures Valid() && this.task == task && id == 0 && alive && task.history == SUBMITTED
    {
      this.task, id := task, 0;
      taken, alive := false, true;
      new;
      task.history := SUBMITTED;
    }

    /** The new future owes what the old one owed; the old one owes nothing any more. */
    constructor MoveFrom(other: Future)
      requires other.Valid() && other.alive
      modifies other`taken, other.task`history
      ensures Valid() && other.Valid() && task == other.task && alive && id == |old(other.task.history.futures)|
      ensures taken == old(other.taken) && other.taken
      ensures task.history == Apply(old(other.task.history), Move(other.id))
    {
      taken, task, alive, id := other.taken, other.task, true, |other.task.history.futures|;
      new;
      task.history := Apply(task.history, Move(other.id));
      other.taken := true;
    }

    /** Take the result. */
    method Get()
      requires Valid() && alive
      modifies this`taken, task
      ensures Valid() && taken && alive && task.resultGets == old(task.resultGets) + 1
      ensures task.history == Apply(old(task.history), Step.Get(id))
    {
      task.history := Apply(task.history, Step.Get(id));
      taken := true;
      task.resultGets := task.resultGets + 1;
    }

    /** A future that was not taken from notifies when it is destroyed. */
    method Destroy()
      requires Valid() && alive
      modifies this`alive, task
      ensures Valid() && !alive && task.resultGets == old(task.resultGets) + (if old(taken) then 0 else 1)
      ensures task.history == Apply(old(task.history), Step.Destroy(id))
    {
      task.history := Apply(task.history, Step.Destroy(id));
      if !taken { task.resultGets := task.resultGets + 1; }
      alive := false;
    }
  }
}
