/**
 Who hands a task over for execution: its initialiser, if nothing was left to wait for when it had
 finished, and otherwise the predecessor that notifies it last.
 */
module GraphHandoff {
  import opened Common
  import opened EventGraph
  import opened GraphInvariant
  import opened GraphCore
  import opened GraphLists
  import opened GraphRemoval
  import opened GraphTheorems
  import SerialRuns

  /** The task is not initialised yet. */
  predicate Early(x: Task)
  {
    x.phase.Submitting? || x.phase.Emplaced? || x.phase.Initing?
  }

  /** What a step other than the end of its initialisation does to the hand-off of a task. */
  predicate Delivered(x: Task, x': Task)
  {
    && x'.claims == x.claims
    && (Early(x) <==> Early(x')) && (x'.phase.Waiting? ==> x.phase.Waiting?)
    && (x'.activations == x.activations || (x'.activations == x.activations + 1 && x.phase.Waiting? && x.pre >= 2))
  }

  /** The end of the initialisation of a task: the initialiser keeps it if its pre-event is down to its own token. */
  predicate Initialised(x: Task, x': Task)
  {
    && x.phase.Initing? && x'.phase.Waiting?
    && x'.claims == x.claims + B2i(x'.pre == 1) && x'.activations == x.activations
  }

  predicate HandedAsDue(s: State, s': State, step: Step, t: nat)
    requires t < |s.tasks|
  {
    && t < |s'.tasks|
    && if step == InitEnd(t) then Initialised(s.tasks[t], s'.tasks[t]) else Delivered(s.tasks[t], s'.tasks[t])
  }

  lemma InitEndHands(g: Graph, s: State, t: nat)
    requires CanInitEnd(g, s, t)
    ensures HandedAsDue(s, DoInitEnd(g, s, t), InitEnd(t), t)
  {
  }

  lemma OwnHands(g: Graph, s: State, step: Step, t: nat)
    requires Enabled(g, s, step) && OwnStep(step) && t < |s.tasks|
    ensures HandedAsDue(s, Apply(g, s, step), step, t)
  {
    OwnShape(g, s, step);
    if step.t == t { if EarlyOwn(step) { EarlyHands(g, s, step); } else { LateHands(g, s, step); } }
  }

  lemma EarlyHands(g: Graph, s: State, step: Step)
    requires Enabled(g, s, step) && OwnStep(step) && EarlyOwn(step)
    ensures HandedAsDue(s, Apply(g, s, step), step, step.t)
  {
    if step.InitEnd? { InitEndHands(g, s, step.t); }
  }

  lemma LateHands(g: Graph, s: State, step: Step)
    requires Enabled(g, s, step) && OwnStep(step) && !EarlyOwn(step)
    ensures HandedAsDue(s, Apply(g, s, step), step, step.t)
  {
  }

  lemma ScanHands(g: Graph, s: State, s': State, step: Step, t: nat)
    requires ScanStep(step) && ScanShaped(g, s, s', step.t, step.Raise?) && t < |s.tasks|
    ensures HandedAsDue(s, s', step, t)
  {
  }

  lemma ShelvedHands(s: State, s': State, step: Step, t: nat)
    requires (step.Close? || step.CountResult?) && Shelved(s, s', step.t) && t < |s.tasks|
    ensures HandedAsDue(s, s', step, t)
  {
  }

  lemma SubmitHands(g: Graph, s: State, t: nat)
    requires CanSubmit(g, s) && t < |s.tasks|
    ensures HandedAsDue(s, DoSubmit(g, s), Submit, t)
  {
  }

  lemma FollowerHands(g: Graph, s: State, u: nat, t: nat)
    requires Listing(g, s) && CanAddFollower(g, s, u) && t < |s.tasks|
    ensures HandedAsDue(s, DoAddFollower(g, s, u), AddFollower(u), t)
  {
    EntryFacts(g, s, u);
  }

  /** A notification that brings a pre-event to 1 meets a task that waits. */
  lemma DeliverHands(g: Graph, s: State, u: nat, t: nat)
    requires Core(g, s) && Handoff(s) && CanDeliver(g, s, u) && t < |s.tasks|
    ensures HandedAsDue(s, DoDeliver(g, s, u), Deliver(u), t)
  {
    var e := PoppedEntry(g, s, u);
    if e == Pre(t) {
      assert PreEdges(s.tasks[t]) == Undelivered(s.tasks, e) && HandoffOk(s.tasks[t]);
      if s.tasks[t].phase.Initing? { GuardOutlives(g, s, u, t); }
      NotifiedWaits(s.tasks[t]);
    }
    DeliverReaches(g, s, u, t, e);
  }

  lemma NotifiedWaits(x: Task)
    requires HandoffOk(x) && PreEdges(x) >= 1 && (x.phase.Initing? ==> x.pre >= 3)
    ensures Delivered(x, NotifyPre(x, false))
  {
  }

  lemma DeliverReaches(g: Graph, s: State, u: nat, t: nat, e: Event)
    requires CanDeliver(g, s, u) && e == s.tasks[u].followers[|s.tasks[u].followers| - 1] && e.t != u
    requires t < |s.tasks| && (e == Pre(t) ==> Delivered(s.tasks[t], NotifyPre(s.tasks[t], false)))
    ensures HandedAsDue(s, DoDeliver(g, s, u), Deliver(u), t)
  {
  }

  lemma StepHands(g: Graph, s: State, step: Step, t: nat)
    requires Inv(g, s) && Enabled(g, s, step) && t < |s.tasks|
    ensures HandedAsDue(s, Apply(g, s, step), step, t)
  {
    if OwnStep(step) {
      OwnHands(g, s, step, t);
    } else if ScanStep(step) {
      ScanShape(g, s, step);
      ScanHands(g, s, Apply(g, s, step), step, t);
    } else {
      match step
      case Submit => SubmitHands(g, s, t);
      case AddFollower(u) => FollowerHands(g, s, u, t);
      case Deliver(u) => DeliverHands(g, s, u, t);
      case Close(u) => CloseShape(g, s, u); ShelvedHands(s, DoClose(g, s, u), step, t);
      case CountResult(u) => CountResultShape(g, s, u); ShelvedHands(s, DoCountResult(g, s, u), step, t);
    }
  }

  // ------------------------------------------------------------ over whole runs

  /** `t` is initialised and somebody is still to notify it. */
  predicate WaitsAt(s: State, t: nat)
  {
    t < |s.tasks| && s.tasks[t].phase.Waiting? && Undelivered(s.tasks, Pre(t)) > 0
  }

  /** The initialisation of `t` ends with nobody left to wait for. */
  predicate EndsReady(s: State, s': State, t: nat)
  {
    && t < |s.tasks| && t < |s'.tasks|
    && s.tasks[t].phase.Initing? && s'.tasks[t].phase.Waiting? && Undelivered(s'.tasks, Pre(t)) == 0
  }

  ghost predicate HadToWait(run: seq<State>, i: nat, t: nat)
    requires i < |run|
  {
    exists j :: 0 <= j <= i && WaitsAt(run[j], t)
  }

  ghost predicate EndedReady(run: seq<State>, i: nat, t: nat)
    requires i < |run|
  {
    exists j :: 0 <= j < i && EndsReady(run[j], run[j + 1], t)
  }

  lemma HadToWaitNext(run: seq<State>, i: nat, t: nat)
    requires i + 1 < |run|
    ensures HadToWait(run, i + 1, t) <==> HadToWait(run, i, t) || WaitsAt(run[i + 1], t)
  {
  }

  lemma EndedReadyNext(run: seq<State>, i: nat, t: nat)
    requires i + 1 < |run|
    ensures EndedReady(run, i + 1, t) <==> EndedReady(run, i, t) || EndsReady(run[i], run[i + 1], t)
  {
  }

  /** What the history of a task says about its hand-off. */
  predicate Recorded(s: State, t: nat, waited: bool, ended: bool)
  {
    if t >= |s.tasks| then !waited && !ended
    else
      && (Early(s.tasks[t]) ==> !waited && !ended && s.tasks[t].claims == s.tasks[t].activations == 0)
      && (waited ==> s.tasks[t].claims == 0)
      && (!waited ==> s.tasks[t].activations == 0)
      && (s.tasks[t].claims == 1 <==> ended) && s.tasks[t].claims <= 1
  }

  lemma CountsWaiting(s: State, t: nat)
    requires Exact(s) && Handoff(s) && t < |s.tasks| && s.tasks[t].phase.Waiting?
    ensures s.tasks[t].pre == 1 + Undelivered(s.tasks, Pre(t))
    ensures WaitsAt(s, t) ==> s.tasks[t].claims == s.tasks[t].activations == 0
  {
    assert PreEdges(s.tasks[t]) == Undelivered(s.tasks, Pre(t)) && HandoffOk(s.tasks[t]);
  }

  lemma RecordNext(g: Graph, s: State, step: Step, t: nat, waited: bool, ended: bool)
    requires Lawful(g) && Inv(g, s) && Enabled(g, s, step) && Inv(g, Apply(g, s, step))
    requires Recorded(s, t, waited, ended) && (t < |s.tasks| && WaitsAt(s, t) ==> waited)
    ensures var s' := Apply(g, s, step);
            Recorded(s', t, waited || WaitsAt(s', t), ended || EndsReady(s, s', t))
  {
    var s' := Apply(g, s, step);
    if t < |s.tasks| {
      StepHands(g, s, step, t);
      if s.tasks[t].phase.Waiting? { CountsWaiting(s, t); }
      if s'.tasks[t].phase.Waiting? { CountsWaiting(s', t); }
    } else if t < |s'.tasks| {
      NewIsEarly(g, s, step, t);
    }
  }

  lemma NewIsEarly(g: Graph, s: State, step: Step, t: nat)
    requires Inv(g, s) && Enabled(g, s, step) && |s.tasks| <= t < |Apply(g, s, step).tasks|
    ensures var x := Apply(g, s, step).tasks[t]; Early(x) && x.claims == x.activations == 0
  {
    SerialRuns.PhaseStep(g, s, step);
    assert step == Submit;
  }

  lemma RecordAcross(g: Graph, s: State, s': State, t: nat, waited: bool, ended: bool)
    requires Lawful(g) && Inv(g, s) && Next(g, s, s')
    requires Recorded(s, t, waited, ended) && (WaitsAt(s, t) ==> waited)
    ensures Inv(g, s') && Recorded(s', t, waited || WaitsAt(s', t), ended || EndsReady(s, s', t))
  {
    InvStep(g, s, s');
    var step :| Enabled(g, s, step) && s' == Apply(g, s, step);
    RecordNext(g, s, step, t, waited, ended);
  }

  ghost predicate RecordedAt(g: Graph, run: seq<State>, i: nat, t: nat)
    requires i < |run|
  {
    Inv(g, run[i]) && Recorded(run[i], t, HadToWait(run, i, t), EndedReady(run, i, t))
  }

  lemma RecordedNext(g: Graph, run: seq<State>, i: nat, t: nat)
    requires Lawful(g) && i + 1 < |run| && Next(g, run[i], run[i + 1]) && RecordedAt(g, run, i, t)
    ensures RecordedAt(g, run, i + 1, t)
  {
    RecordAcross(g, run[i], run[i + 1], t, HadToWait(run, i, t), EndedReady(run, i, t));
    HadToWaitNext(run, i, t);
    EndedReadyNext(run, i, t);
  }

  lemma {:induction false} RecordRun(g: Graph, run: seq<State>, i: nat, t: nat)
    requires Lawful(g) && Run(g, run) && i < |run|
    ensures RecordedAt(g, run, i, t)
  {
    if i == 0 {
      InvInitial(g);
    } else {
      RecordRun(g, run, i - 1, t);
      assert Next(g, run[i - 1], run[i]);
      RecordedNext(g, run, i - 1, t);
    }
  }

  /**
   In every state of every run: a task was kept by its initialiser if and only if its initialisation
   ended with nobody left to notify it, and put into a ready queue by a predecessor if and only if it
   was handed over and had to wait before.
   */
  lemma HandedOverBy(g: Graph, run: seq<State>, i: nat, t: nat)
    requires Lawful(g) && Run(g, run) && i < |run| && t < |run[i].tasks|
    ensures var s, x := run[i], run[i].tasks[t];
            && (x.claims == 1 <==> EndedReady(run, i, t))
            && (x.activations == 1 <==> HadToWait(run, i, t) && (Started(x) || x.phase.Waiting?)
                                        && Undelivered(s.tasks, Pre(t)) == 0)
            && (Started(x) ==> (x.claims == 1 <==> !HadToWait(run, i, t)))
  {
    RecordRun(g, run, i, t);
    HandedOffOnce(g, run, i, t);
    assert HandoffOk(run[i].tasks[t]);
  }
}
