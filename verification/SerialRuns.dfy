/** Every complete parallel run ends in the memory of the one serial run. */
module SerialRuns {
  import opened Common
  import opened EventGraph
  import opened GraphInvariant
  import opened GraphCore
  import opened GraphTheorems
  import opened SerialEquivalence

  // ------------------------------------------------------------ how tasks progress

  /** Only `Start` starts a task, only `Finish` ends one, and neither is ever taken back. */
  ghost predicate PhasesKept(s: State, s': State, step: Step)
  {
    && |s.tasks| <= |s'.tasks| == |s.tasks| + B2i(step.Submit?)
    && (step.Submit? ==> !Started(s'.tasks[|s.tasks|]))
    && forall u :: 0 <= u < |s.tasks| ==>
                     && (Started(s'.tasks[u]) <==> Started(s.tasks[u]) || step == Start(u))
                     && (s'.tasks[u].phase.Done? <==> s.tasks[u].phase.Done? || step == Finish(u))
  }

  lemma PhaseStep(g: Graph, s: State, step: Step)
    requires Core(g, s) && Enabled(g, s, step)
    ensures PhasesKept(s, Apply(g, s, step), step)
  {
    if OwnStep(step) {
      PhaseOwn(g, s, step);
    } else if ScanStep(step) {
      PhaseScan(g, s, step);
    } else {
      match step
      case Deliver(t) => PhaseDeliver(g, s, t);
      case Submit => PhaseSubmit(g, s);
      case Close(t) => CloseShape(g, s, t); PhaseShelved(s, DoClose(g, s, t), t, step);
      case CountResult(t) => CountResultShape(g, s, t); PhaseShelved(s, DoCountResult(g, s, t), t, step);
      case AddFollower(t) => PhaseAddFollower(g, s, t);
    }
  }

  lemma PhaseShelved(s: State, s': State, t: nat, step: Step)
    requires Shelved(s, s', t) && !step.Submit? && !step.Start? && !step.Finish?
    ensures PhasesKept(s, s', step)
  {
  }

  lemma PhaseScan(g: Graph, s: State, step: Step)
    requires Enabled(g, s, step) && ScanStep(step)
    ensures PhasesKept(s, Apply(g, s, step), step)
  {
    ScanShape(g, s, step);
    PhaseScanned(g, s, Apply(g, s, step), step);
  }

  lemma PhaseScanned(g: Graph, s: State, s': State, step: Step)
    requires ScanStep(step) && ScanShaped(g, s, s', step.t, step.Raise?)
    ensures PhasesKept(s, s', step)
  {
  }

  lemma PhaseDeliver(g: Graph, s: State, t: nat)
    requires Local(g, s) && Family(g, s) && CanDeliver(g, s, t)
    ensures PhasesKept(s, DoDeliver(g, s, t), Deliver(t))
  {
    var e := PoppedEntry(g, s, t);
  }

  lemma PhaseSubmit(g: Graph, s: State)
    requires CanSubmit(g, s)
    ensures PhasesKept(s, DoSubmit(g, s), Submit)
  {
    SubmitShape(g, s);
  }

  lemma PhaseAddFollower(g: Graph, s: State, t: nat)
    requires Listing(g, s) && CanAddFollower(g, s, t)
    ensures PhasesKept(s, DoAddFollower(g, s, t), AddFollower(t))
  {
    EntryFacts(g, s, t);
  }

  lemma PhaseOwn(g: Graph, s: State, step: Step)
    requires Enabled(g, s, step) && OwnStep(step)
    ensures PhasesKept(s, Apply(g, s, step), step)
  {
    if EarlyOwn(step) { PhaseEarly(g, s, step); } else { PhaseLate(g, s, step); }
  }

  lemma PhaseEarly(g: Graph, s: State, step: Step)
    requires Enabled(g, s, step) && OwnStep(step) && EarlyOwn(step)
    ensures PhasesKept(s, Apply(g, s, step), step)
  {
  }

  lemma PhaseLate(g: Graph, s: State, step: Step)
    requires Enabled(g, s, step) && OwnStep(step) && !EarlyOwn(step)
    ensures PhasesKept(s, Apply(g, s, step), step)
  {
  }

  // ------------------------------------------------------------ runs

  /** Between two states of a run histories grow, and those of ended tasks stay. */
  ghost predicate Grown(s: System, s': System)
  {
    && |s.hist| == |s.graph.tasks| <= |s'.graph.tasks| == |s'.hist|
    && forall t :: 0 <= t < |s.hist| ==>
                     && |s.hist[t]| <= |s'.hist[t]|
                     && (s.graph.tasks[t].phase.Done? ==> s'.hist[t] == s.hist[t] && s'.graph.tasks[t].phase.Done?)
  }

  lemma GrownBoth(a: System, b: System, c: System)
    requires Grown(a, b) && Grown(b, c)
    ensures Grown(a, c)
  {
  }

  lemma GrowsInStep(g: Graph, code: Code, s: System, s': System)
    requires Core(g, s.graph) && SystemNext(g, code, s, s')
    ensures Grown(s, s')
  {
    if step :| GraphStep(g, code, s, s', step) {
      PhaseStep(g, s.graph, step);
    } else {
      var t: nat :| BodyStep(g, code, s, s', t);
    }
  }

  ghost predicate Aligned(s: System) { |s.hist| == |s.graph.tasks| }

  /** The graph of a system run goes through states of a graph run, so the invariant holds throughout. */
  lemma {:induction false} SystemInv(g: Graph, code: Code, m0: Memory, run: seq<System>, i: nat)
    requires Lawful(g) && SystemRun(g, code, m0, run) && i < |run|
    ensures Inv(g, run[i].graph) && Aligned(run[i])
  {
    if i == 0 {
      InvInitial(g);
    } else {
      SystemInv(g, code, m0, run, i - 1);
      var s, s' := run[i - 1], run[i];
      assert StepAt(g, code, run, i - 1);
      if step :| GraphStep(g, code, s, s', step) {
        InvStep(g, s.graph, s'.graph);
      }
      GrowsInStep(g, code, s, s');
    }
  }

  lemma GrowsAt(g: Graph, code: Code, m0: Memory, run: seq<System>, j: nat)
    requires Lawful(g) && SystemRun(g, code, m0, run) && j + 1 < |run|
    ensures Grown(run[j], run[j + 1])
  {
    SystemInv(g, code, m0, run, j);
    assert StepAt(g, code, run, j);
    GrowsInStep(g, code, run[j], run[j + 1]);
  }

  lemma {:induction false} GrowsInRun(g: Graph, code: Code, m0: Memory, run: seq<System>, i: nat, j: nat)
    requires Lawful(g) && SystemRun(g, code, m0, run) && i <= j < |run|
    ensures Grown(run[i], run[j])
  {
    if i == j {
      SystemInv(g, code, m0, run, i);
    } else {
      GrowsInRun(g, code, m0, run, i, j - 1);
      GrowsAt(g, code, m0, run, j - 1);
      GrownBoth(run[i], run[j - 1], run[j]);
    }
  }

  /** How many operations each task has made. */
  function Lengths(s: System): (lengths: seq<nat>)
    ensures |lengths| == |s.hist|
  {
    seq(|s.hist|, i requires 0 <= i < |s.hist| => |s.hist[i]|)
  }

  lemma WithinRun(g: Graph, code: Code, m0: Memory, run: seq<System>, i: nat)
    requires Lawful(g) && SystemRun(g, code, m0, run) && i < |run|
    ensures Within(run[i], Lengths(run[|run| - 1]))
  {
    GrowsInRun(g, code, m0, run, i, |run| - 1);
  }

  // ------------------------------------------------------------ the simulation holds in every state

  lemma GraphStepMatches(g: Graph, code: Code, m0: Memory, lengths: seq<nat>, s: System, s': System, step: Step)
    requires Declared(code) && PhasesKept(s.graph, s'.graph, step) && !step.Start?
    requires Matches(code, m0, lengths, s) && Within(s', lengths) && GraphStep(g, code, s, s', step)
    ensures Matches(code, m0, lengths, s')
  {
    OtherStepMatches(code, m0, lengths, s, s');
  }

  /** What the task graph says about a step from `s` to `s'`. */
  ghost predicate GraphFacts(g: Graph, code: Code, s: System, s': System)
  {
    && Orderly(code, s.graph.tasks) && Orderly(code, s'.graph.tasks)
    && forall step {:trigger GraphStep(g, code, s, s', step)} ::
         GraphStep(g, code, s, s', step) ==> PhasesKept(s.graph, s'.graph, step)
  }

  lemma StepMatches(g: Graph, code: Code, m0: Memory, lengths: seq<nat>, s: System, s': System)
    requires Declared(code) && GraphFacts(g, code, s, s')
    requires Matches(code, m0, lengths, s) && Within(s', lengths) && SystemNext(g, code, s, s')
    ensures Matches(code, m0, lengths, s')
  {
    if t: nat :| BodyStep(g, code, s, s', t) {
      BodyStepMatches(g, code, m0, lengths, s, s', t);
    } else {
      var step :| GraphStep(g, code, s, s', step);
      if step.Start? {
        StartMatches(g, code, m0, lengths, s, s', step.t);
      } else {
        GraphStepMatches(g, code, m0, lengths, s, s', step);
      }
    }
  }

  lemma PhasesOfStep(g: Graph, code: Code, s: System, s': System)
    requires Core(g, s.graph)
    ensures forall step {:trigger GraphStep(g, code, s, s', step)} ::
              GraphStep(g, code, s, s', step) ==> PhasesKept(s.graph, s'.graph, step)
  {
    forall step | GraphStep(g, code, s, s', step) ensures PhasesKept(s.graph, s'.graph, step) {
      PhaseStep(g, s.graph, step);
    }
  }

  lemma OrderlyAt(g: Graph, code: Code, m0: Memory, run: seq<System>, i: nat)
    requires Lawful(g) && Disciplined(g, code) && SystemRun(g, code, m0, run) && i < |run|
    ensures Orderly(code, run[i].graph.tasks)
  {
    SystemInv(g, code, m0, run, i);
    GraphIsOrderly(g, code, run[i].graph);
  }

  lemma PhasesAt(g: Graph, code: Code, m0: Memory, run: seq<System>, i: nat)
    requires Lawful(g) && SystemRun(g, code, m0, run) && i + 1 < |run|
    ensures forall step {:trigger GraphStep(g, code, run[i], run[i + 1], step)} ::
              GraphStep(g, code, run[i], run[i + 1], step) ==> PhasesKept(run[i].graph, run[i + 1].graph, step)
  {
    SystemInv(g, code, m0, run, i);
    PhasesOfStep(g, code, run[i], run[i + 1]);
  }

  lemma FactsAt(g: Graph, code: Code, m0: Memory, run: seq<System>, i: nat)
    requires Lawful(g) && Disciplined(g, code) && SystemRun(g, code, m0, run) && i + 1 < |run|
    ensures GraphFacts(g, code, run[i], run[i + 1])
  {
    OrderlyAt(g, code, m0, run, i);
    OrderlyAt(g, code, m0, run, i + 1);
    PhasesAt(g, code, m0, run, i);
  }

  lemma MatchesNext(g: Graph, code: Code, m0: Memory, run: seq<System>, lengths: seq<nat>, i: nat)
    requires Declared(code) && SystemRun(g, code, m0, run) && i + 1 < |run|
    requires GraphFacts(g, code, run[i], run[i + 1])
    requires Within(run[i + 1], lengths) && Matches(code, m0, lengths, run[i])
    ensures Matches(code, m0, lengths, run[i + 1])
  {
    assert StepAt(g, code, run, i);
    StepMatches(g, code, m0, lengths, run[i], run[i + 1]);
  }

  lemma MatchesInitially(code: Code, m0: Memory, lengths: seq<nat>)
    ensures Matches(code, m0, lengths, System(INITIAL, m0, []))
  {
  }

  lemma {:induction false} RunMatches(g: Graph, code: Code, m0: Memory, run: seq<System>, i: nat)
    requires Lawful(g) && Disciplined(g, code) && SystemRun(g, code, m0, run) && i < |run|
    ensures Matches(code, m0, Lengths(run[|run| - 1]), run[i])
  {
    var lengths := Lengths(run[|run| - 1]);
    if i == 0 {
      MatchesInitially(code, m0, lengths);
    } else {
      RunMatches(g, code, m0, run, i - 1);
      WithinRun(g, code, m0, run, i);
      FactsAt(g, code, m0, run, i - 1);
      MatchesNext(g, code, m0, run, lengths, i - 1);
    }
  }

  // ------------------------------------------------------------ complete runs

  lemma CompleteIsSerial(g: Graph, code: Code, m0: Memory, lengths: seq<nat>, s: System)
    requires Complete(g, s) && Matches(code, m0, lengths, s) && lengths == Lengths(s)
    ensures |lengths| == |g.parent| && SerialRun(code, m0, lengths)
  {
    forall t | 0 <= t < |lengths| ensures Halts(code, t, SerialMemory(code, m0, lengths, t), lengths[t]) {
      assert HistoryMatches(code, m0, lengths, t, s.graph.tasks[t], s.hist[t]);
    }
  }

  lemma CompleteMemory(g: Graph, code: Code, m0: Memory, lengths: seq<nat>, s: System, x: Loc)
    requires Declared(code) && Complete(g, s) && Matches(code, m0, lengths, s) && lengths == Lengths(s)
    ensures Get(s.mem, x) == Get(SerialMemory(code, m0, lengths, |lengths|), x)
  {
    var n := |lengths|;
    var w := FindLatest(code, s.graph.tasks, x, n);
    SerialFrame(code, m0, lengths, w + 1, n, x);
    if w < 0 {
      assert Untouched(code, s.graph.tasks, x);
    } else {
      assert Latest(code, s.graph.tasks, x, w);
    }
  }

  /** A parallel run that ends exhibits the serial run, and ends in its memory. */
  lemma RunIsSerial(g: Graph, code: Code, m0: Memory, run: seq<System>) returns (lengths: seq<nat>)
    requires Lawful(g) && Disciplined(g, code) && SystemRun(g, code, m0, run)
    requires Complete(g, run[|run| - 1])
    ensures |lengths| == |g.parent| && SerialRun(code, m0, lengths)
    ensures forall x :: Get(run[|run| - 1].mem, x) == Get(SerialMemory(code, m0, lengths, |lengths|), x)
  {
    var last := run[|run| - 1];
    lengths := Lengths(last);
    RunMatches(g, code, m0, run, |run| - 1);
    CompleteIsSerial(g, code, m0, lengths, last);
    forall x ensures Get(last.mem, x) == Get(SerialMemory(code, m0, lengths, |lengths|), x) {
      CompleteMemory(g, code, m0, lengths, last, x);
    }
  }

  /** Serial equivalence: whatever the interleaving, a complete run ends where the serial run ends. */
  lemma SerialEquivalent(g: Graph, code: Code, m0: Memory, run: seq<System>, serial: seq<nat>)
    requires Lawful(g) && Disciplined(g, code) && SystemRun(g, code, m0, run)
    requires Complete(g, run[|run| - 1])
    requires |serial| == |g.parent| && SerialRun(code, m0, serial)
    ensures forall x :: Get(run[|run| - 1].mem, x) == Get(SerialMemory(code, m0, serial, |serial|), x)
  {
    var lengths := RunIsSerial(g, code, m0, run);
    SerialRunUnique(code, m0, lengths, serial);
  }
}
