/**
 Putting a worker to sleep and waking it. One worker waits on its condition variable, resets the
 flag and drains its queue; any number of dispatchers push and notify; stopping raises a flag and
 notifies. Every access to shared state is a step of its own.
 */
module WakeUp {

  datatype Worker =
    | Loop          // about to test the stop flag
    | Test          // about to test `should_wait`
    | Retest        // spun long enough, about to test once more
    | Locking       // about to take the mutex
    | Predicate     // holds the mutex, about to evaluate the wake-up condition
    | FallAsleep    // condition was false, about to release the mutex and sleep in one
    | Asleep
    | Woken         // about to take the mutex again
    | Reset         // about to store `should_wait`
    | Drain         // consuming its queue
    | Ended

  /** A thread that dispatches a task or stops the worker. */
  datatype Caller =
    | Idle
    | Announced(stop: bool)  // pushed the task or raised the stop flag, about to notify
    | Signal                 // won the exchange, about to take the mutex and notify

  datatype State = State(worker: Worker, shouldWait: bool, stop: bool, queue: nat, callers: seq<Caller>)

  datatype Step =
    | WorkerStep
    | Spin                // give up spinning
    | Spurious            // wake up for no reason
    | Steal               // another worker takes a task
    | Push(i: nat)
    | Stop(i: nat)
    | Exchange(i: nat)
    | Notify(i: nat)

  predicate MutexFree(s: State) { !s.worker.Predicate? && !s.worker.FallAsleep? }

  predicate Enabled(s: State, step: Step)
  {
    match step
    case WorkerStep => !s.worker.Asleep? && !s.worker.Ended?
    case Spin => s.worker.Test? && s.shouldWait
    case Spurious => s.worker.Asleep?
    case Steal => s.queue > 0
    case Push(i) => i < |s.callers| && s.callers[i].Idle?
    case Stop(i) => i < |s.callers| && s.callers[i].Idle?
    case Exchange(i) => i < |s.callers| && s.callers[i].Announced?
    case Notify(i) => i < |s.callers| && s.callers[i].Signal? && MutexFree(s)
  }

  function MoveWorker(s: State): (s': State)
    requires Enabled(s, WorkerStep)
  {
    match s.worker
    case Loop => s.(worker := if s.stop then Ended else Test)
    case Test => s.(worker := if s.shouldWait then Test else Reset)
    case Retest => s.(worker := if s.shouldWait then Locking else Test)
    case Locking => s.(worker := Predicate)
    case Predicate => s.(worker := if s.shouldWait then FallAsleep else Test)
    case FallAsleep => s.(worker := Asleep)
    case Woken => s.(worker := Predicate)
    case Reset => s.(worker := Drain, shouldWait := true)
    case Drain => if s.queue > 0 then s.(queue := s.queue - 1) else s.(worker := Loop)
  }

  function Apply(s: State, step: Step): (s': State)
    requires Enabled(s, step)
  {
    match step
    case WorkerStep => MoveWorker(s)
    case Spin => s.(worker := Retest)
    case Spurious => s.(worker := Woken)
    case Steal => s.(queue := s.queue - 1)
    case Push(i) => s.(queue := s.queue + 1, callers := s.callers[i := Announced(false)])
    case Stop(i) => s.(stop := true, callers := s.callers[i := Announced(true)])
    case Exchange(i) =>
      s.(shouldWait := false, callers := s.callers[i := if s.shouldWait then Signal else Idle])
    case Notify(i) =>
      s.(worker := if s.worker.Asleep? then Woken else s.worker, callers := s.callers[i := Idle])
  }

  predicate Init(s: State)
  {
    s == State(Loop, true, false, 0, s.callers) && forall i :: 0 <= i < |s.callers| ==> s.callers[i].Idle?
  }

  ghost predicate Next(s: State, s': State)
  {
    exists step :: Enabled(s, step) && s' == Apply(s, step)
  }

  ghost predicate Run(run: seq<State>)
  {
    |run| > 0 && Init(run[0]) && forall i :: 0 <= i < |run| - 1 ==> Next(run[i], run[i + 1])
  }

  // ------------------------------------------------------------ the invariant

  predicate Announcing(s: State, stop: bool)
  {
    exists i :: 0 <= i < |s.callers| && s.callers[i] == Announced(stop)
  }

  predicate Signalling(s: State)
  {
    exists i :: 0 <= i < |s.callers| && s.callers[i].Signal?
  }

  /** Inside `wait`, with the flag not yet seen lowered. */
  predicate InWait(w: Worker)
  {
    w.Test? || w.Retest? || w.Locking? || w.Predicate? || w.FallAsleep? || w.Asleep? || w.Woken?
  }

  predicate Inv(s: State)
  {
    && (s.worker.Reset? ==> !s.shouldWait)
    && (s.worker.Ended? ==> s.stop)
    && (s.queue > 0 && s.shouldWait && (InWait(s.worker) || s.worker.Loop?) ==> Announcing(s, false))
    && (s.stop && s.shouldWait && InWait(s.worker) ==> Announcing(s, true))
    && ((s.worker.Asleep? || s.worker.FallAsleep?) && !s.shouldWait ==> Signalling(s))
  }

  lemma KeepAnnouncing(s: State, i: nat, c: Caller, stop: bool)
    requires i < |s.callers| && Announcing(s, stop) && s.callers[i] != Announced(stop)
    ensures Announcing(s.(callers := s.callers[i := c]), stop)
  {
    var k :| 0 <= k < |s.callers| && s.callers[k] == Announced(stop);
    assert s.callers[i := c][k] == Announced(stop);
  }

  lemma KeepSignalling(s: State, i: nat, c: Caller)
    requires i < |s.callers| && Signalling(s) && !s.callers[i].Signal?
    ensures Signalling(s.(callers := s.callers[i := c]))
  {
    var k :| 0 <= k < |s.callers| && s.callers[k].Signal?;
    assert s.callers[i := c][k].Signal?;
  }

  lemma InvStep(s: State, step: Step)
    requires Inv(s) && Enabled(s, step)
    ensures Inv(Apply(s, step))
  {
    var s' := Apply(s, step);
    if step.Push? || step.Stop? || step.Exchange? || step.Notify? {
      var i, c := step.i, s'.callers[step.i];
      assert s'.callers == s.callers[i := c];
      assert s'.callers[i] == c;
      if Announcing(s, false) && s.callers[i] != Announced(false) { KeepAnnouncing(s, i, c, false); }
      if Announcing(s, true) && s.callers[i] != Announced(true) { KeepAnnouncing(s, i, c, true); }
      if Signalling(s) && !s.callers[i].Signal? { KeepSignalling(s, i, c); }
    }
  }

  lemma {:induction false} InvRun(run: seq<State>, i: nat)
    requires Run(run) && i < |run|
    ensures Inv(run[i])
  {
    if i > 0 {
      InvRun(run, i - 1);
      assert Next(run[i - 1], run[i]);
      var step :| Enabled(run[i - 1], step) && run[i] == Apply(run[i - 1], step);
      InvStep(run[i - 1], step);
    }
  }

  // ------------------------------------------------------------ no lost wake-up

  /** A worker never waits with work in its queue unless a dispatcher is still on its way to notify. */
  lemma NoLostDispatch(run: seq<State>, i: nat)
    requires Run(run) && i < |run|
    ensures run[i].queue > 0 && run[i].shouldWait && InWait(run[i].worker) ==> Announcing(run[i], false)
  {
    InvRun(run, i);
  }

  /** A sleeper whose flag was lowered has a notifier that is still to signal. */
  lemma SleeperIsSignalled(run: seq<State>, i: nat)
    requires Run(run) && i < |run|
    ensures run[i].worker.Asleep? && !run[i].shouldWait ==> Signalling(run[i])
  {
    InvRun(run, i);
  }

  /** A worker never waits after the stop flag was raised unless the stopper is still to notify. */
  lemma NoLostStop(run: seq<State>, i: nat)
    requires Run(run) && i < |run|
    ensures run[i].stop && run[i].shouldWait && InWait(run[i].worker) ==> Announcing(run[i], true)
  {
    InvRun(run, i);
  }

  /** With work or a stop pending, a sleeping worker has a caller that can take its next step now. */
  lemma SleeperWillWake(run: seq<State>, i: nat) returns (step: Step)
    requires Run(run) && i < |run| && run[i].worker.Asleep? && (run[i].queue > 0 || run[i].stop || !run[i].shouldWait)
    ensures (step.Exchange? || step.Notify?) && Enabled(run[i], step)
  {
    InvRun(run, i);
    var s := run[i];
    if !s.shouldWait {
      var k :| 0 <= k < |s.callers| && s.callers[k].Signal?;
      step := Notify(k);
    } else {
      var stop := s.stop;
      var k :| 0 <= k < |s.callers| && s.callers[k] == Announced(stop);
      step := Exchange(k);
    }
  }

  /** Once the stop flag is up, a worker that leaves `wait` or tests the flag does not enter `wait` again. */
  lemma StoppedStaysOut(s: State, step: Step)
    requires Inv(s) && Enabled(s, step) && s.stop && !InWait(s.worker)
    ensures Apply(s, step).stop && !InWait(Apply(s, step).worker)
  {
  }

  // ------------------------------------------------------------ progress

  /** The steps can be taken one after the other from `s`. */
  predicate Allowed(s: State, steps: seq<Step>)
    decreases |steps|
  {
    steps == [] || (Enabled(s, steps[0]) && Allowed(Apply(s, steps[0]), steps[1..]))
  }

  function After(s: State, steps: seq<Step>): (s': State)
    requires Allowed(s, steps)
    decreases |steps|
  {
    if steps == [] then s else After(Apply(s, steps[0]), steps[1..])
  }

  /** Some state on the way has the worker consume its queue. */
  predicate Drains(s: State, steps: seq<Step>)
    requires Allowed(s, steps)
    decreases |steps|
  {
    s.worker.Drain? || (steps != [] && Drains(Apply(s, steps[0]), steps[1..]))
  }

  function WorkerSteps(steps: seq<Step>): (n: nat)
  {
    if steps == [] then 0 else (if steps[0].WorkerStep? then 1 else 0) + WorkerSteps(steps[1..])
  }

  /** Steps of its own that a worker in `wait` takes, once the flag is down, before it consumes its queue. */
  function StepsToDrain(w: Worker): (n: nat)
    requires InWait(w) || w.Reset? || w.Drain?
    ensures n <= 5
  {
    match w
    case FallAsleep => 5
    case Asleep | Woken | Locking => 4
    case Predicate | Retest => 3
    case Test => 2
    case Reset => 1
    case Drain => 0
  }

  /** With the flag down `wait` returns: no interleaving lets the worker take more steps of its own in it. */
  lemma {:induction false} WaitReturns(s: State, steps: seq<Step>)
    requires Allowed(s, steps) && (s.worker.Drain? || (!s.shouldWait && (InWait(s.worker) || s.worker.Reset?)))
    requires WorkerSteps(steps) >= StepsToDrain(s.worker)
    ensures Drains(s, steps)
    decreases |steps|
  {
    if !s.worker.Drain? { WaitReturns(Apply(s, steps[0]), steps[1..]); }
  }

  /** A step that brings the worker nearer to consuming its queue, consumes from it, or leads back to `wait`. */
  predicate Helpful(s: State, step: Step)
  {
    match step
    case WorkerStep => s.worker.Drain? || s.worker.Reset? || s.worker.Loop? || (InWait(s.worker) && !s.shouldWait)
    case Exchange(_) => s.shouldWait && (InWait(s.worker) || s.worker.Loop?)
    case Notify(_) => s.worker.Asleep? && !s.shouldWait
    case Spurious => s.worker.Asleep? && !s.shouldWait
    case _ => false
  }

  /** With the flag down, a task queued, or a stop pending, such a step can be taken, unless the worker has ended. */
  lemma HelpIsPossible(s: State) returns (step: Step)
    requires Inv(s) && (s.queue > 0 || s.stop || !s.shouldWait) && !s.worker.Ended?
    ensures Enabled(s, step) && Helpful(s, step) && !step.Spurious?
  {
    if !InWait(s.worker) || (!s.shouldWait && !s.worker.Asleep?) {
      step := WorkerStep;
    } else if !s.shouldWait {
      var k :| 0 <= k < |s.callers| && s.callers[k].Signal?;
      step := Notify(k);
    } else {
      var stop := s.stop;
      var k :| 0 <= k < |s.callers| && s.callers[k] == Announced(stop);
      step := Exchange(k);
    }
  }

  function HelpfulSteps(s: State, steps: seq<Step>): (n: nat)
    requires Allowed(s, steps)
    decreases |steps|
  {
    if steps == [] then 0
    else (if Helpful(s, steps[0]) then 1 else 0) + HelpfulSteps(Apply(s, steps[0]), steps[1..])
  }

  /** Tasks taken out of the queue, by the worker or by a thief. */
  function Taken(s: State, steps: seq<Step>): (n: nat)
    requires Allowed(s, steps)
    decreases |steps|
  {
    if steps == [] then 0
    else (if Takes(s, steps[0]) then 1 else 0) + Taken(Apply(s, steps[0]), steps[1..])
  }

  predicate Takes(s: State, step: Step)
  {
    step.Steal? || (step.WorkerStep? && s.worker.Drain? && s.queue > 0)
  }

  /** Helpful steps before the worker comes to consume its queue. */
  function StepsToQueue(s: State): (n: nat)
    ensures n <= 8
  {
    match s.worker
    case Ended | Drain => 0
    case Reset => 1
    case Loop => if s.shouldWait then 8 else 3
    case FallAsleep => if s.shouldWait then 7 else 6
    case Asleep => if s.shouldWait then 7 else 5
    case Locking | Woken => if s.shouldWait then 7 else 4
    case Predicate | Retest => if s.shouldWait then 7 else 3
    case Test => if s.shouldWait then 7 else 2
  }

  lemma HelpsOnce(s: State, step: Step)
    requires Inv(s) && Enabled(s, step) && !Apply(s, step).stop && s.queue > 0
    ensures var n, n' := StepsToQueue(s), StepsToQueue(Apply(s, step));
            if Takes(s, step) then n' <= n else n' + (if Helpful(s, step) then 1 else 0) <= n
  {
  }

  lemma {:induction false} StopStays(s: State, steps: seq<Step>)
    requires Allowed(s, steps) && s.stop
    ensures After(s, steps).stop
    decreases |steps|
  {
    if steps != [] { StopStays(Apply(s, steps[0]), steps[1..]); }
  }

  /**
   A dispatched task is taken out of the queue: unless the worker is stopped, any interleaving with
   that many helpful steps takes out as many tasks as were queued, in whatever order they were queued.
   */
  lemma {:induction false} DispatchedIsTaken(s: State, steps: seq<Step>, queued: nat)
    requires Inv(s) && Allowed(s, steps) && !After(s, steps).stop && queued <= s.queue
    requires HelpfulSteps(s, steps) >= StepsToQueue(s) + queued
    ensures Taken(s, steps) >= queued
    decreases |steps|
  {
    if queued > 0 {
      var s' := Apply(s, steps[0]);
      if s'.stop { StopStays(s', steps[1..]); }
      InvStep(s, steps[0]);
      HelpsOnce(s, steps[0]);
      DispatchedIsTaken(s', steps[1..], if Takes(s, steps[0]) then queued - 1 else queued);
    }
  }

  // ------------------------------------------------------------ stopping, and sleeping

  function Pushes(steps: seq<Step>): (n: nat)
  {
    if steps == [] then 0 else (if steps[0].Push? then 1 else 0) + Pushes(steps[1..])
  }

  /** Every task pushed is taken out once or still queued. */
  lemma {:induction false} QueueBalances(s: State, steps: seq<Step>)
    requires Allowed(s, steps)
    ensures After(s, steps).queue + Taken(s, steps) == s.queue + Pushes(steps)
    decreases |steps|
  {
    if steps != [] { QueueBalances(Apply(s, steps[0]), steps[1..]); }
  }

  /** Helpful steps before a stopped worker ends. */
  function StepsToEnd(s: State): (n: nat)
  {
    match s.worker
    case Ended => 0
    case Loop => if s.shouldWait then 2 else 1
    case _ => StepsToQueue(s) + s.queue + 3
  }

  lemma EndsNearer(s: State, step: Step)
    requires Inv(s) && Enabled(s, step) && s.stop && !s.worker.Ended?
    ensures Apply(s, step).stop
    ensures StepsToEnd(Apply(s, step)) + (if Helpful(s, step) then 1 else 0)
            <= StepsToEnd(s) + (if step.Push? then 1 else 0)
  {
  }

  /** A stopped worker ends, after it has consumed its queue. */
  lemma {:induction false} StoppedEnds(s: State, steps: seq<Step>)
    requires Inv(s) && Allowed(s, steps) && s.stop && HelpfulSteps(s, steps) >= StepsToEnd(s) + Pushes(steps)
    ensures After(s, steps).worker.Ended?
    decreases |steps|
  {
    if steps == [] {
    } else if s.worker.Ended? {
      EndedStays(s, steps);
    } else {
      InvStep(s, steps[0]);
      EndsNearer(s, steps[0]);
      StoppedEnds(Apply(s, steps[0]), steps[1..]);
    }
  }

  lemma {:induction false} EndedStays(s: State, steps: seq<Step>)
    requires Allowed(s, steps) && s.worker.Ended?
    ensures After(s, steps).worker.Ended?
    decreases |steps|
  {
    if steps != [] { EndedStays(Apply(s, steps[0]), steps[1..]); }
  }

  /** Nobody dispatches or stops, and there is nothing to do. */
  predicate Quiet(s: State)
  {
    s.queue == 0 && !s.stop && forall i :: 0 <= i < |s.callers| ==> s.callers[i].Idle?
  }

  predicate Sleeps(s: State, steps: seq<Step>)
    requires Allowed(s, steps)
    decreases |steps|
  {
    s.worker.Asleep? || (steps != [] && Sleeps(Apply(s, steps[0]), steps[1..]))
  }

  /** Steps of the worker other than another round of spinning. */
  function Onward(s: State, steps: seq<Step>): (n: nat)
    requires Allowed(s, steps)
    decreases |steps|
  {
    if steps == [] then 0
    else (if s.worker.Test? && s.shouldWait && steps[0].WorkerStep? then 0 else 1)
         + Onward(Apply(s, steps[0]), steps[1..])
  }

  function StepsToSleep(s: State): (n: nat)
  {
    match s.worker
    case Asleep => 0
    case FallAsleep => 1
    case Predicate => if s.shouldWait then 2 else 10
    case Locking | Woken => if s.shouldWait then 3 else 11
    case Retest => if s.shouldWait then 4 else 10
    case Test => if s.shouldWait then 5 else 9
    case Loop => if s.shouldWait then 6 else 10
    case Drain => if s.shouldWait then 7 else 11
    case Reset => 8
    case Ended => 0
  }

  /** Such a step can always be taken until then; in particular spinning can be given up. */
  lemma IdleGoesOn(s: State) returns (step: Step)
    requires Inv(s) && Quiet(s) && !s.worker.Asleep?
    ensures Enabled(s, step) && (step.WorkerStep? || step.Spin?)
    ensures !(s.worker.Test? && s.shouldWait && step.WorkerStep?)
  {
    step := if s.worker.Test? && s.shouldWait then Spin else WorkerStep;
  }

  /** A worker without work that nobody calls falls asleep, once it has given up spinning. */
  lemma {:induction false} IdleSleeps(s: State, steps: seq<Step>)
    requires Inv(s) && Quiet(s) && Allowed(s, steps)
    requires forall i :: 0 <= i < |steps| ==> !steps[i].Push? && !steps[i].Stop?
    requires Onward(s, steps) >= StepsToSleep(s)
    ensures Sleeps(s, steps)
    decreases |steps|
  {
    if !s.worker.Asleep? {
      var s' := Apply(s, steps[0]);
      InvStep(s, steps[0]);
      IdleSleeps(s', steps[1..]);
    }
  }
}
