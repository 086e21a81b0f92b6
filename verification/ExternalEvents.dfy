/** A task whose body has made an external event is not finished before that event was reached. */
module ExternalEvents {
  import opened Common
  import opened EventGraph
  import opened GraphInvariant
  import opened GraphCore
  import opened GraphLists
  import opened GraphTheorems

  /** No external event of `t` is reached. */
  predicate Holds(s: State, s': State, t: nat)
  {
    t < |s.tasks| && t < |s'.tasks| && s'.tasks[t].ext >= s.tasks[t].ext
  }

  lemma OwnHolds(g: Graph, s: State, step: Step, t: nat)
    requires Enabled(g, s, step) && OwnStep(step) && step != FireEvent(t) && t < |s.tasks|
    ensures Holds(s, Apply(g, s, step), t)
  {
    OwnShape(g, s, step);
    if step.t == t { if EarlyOwn(step) { EarlyHolds(g, s, step); } else { LateHolds(g, s, step); } }
  }

  lemma EarlyHolds(g: Graph, s: State, step: Step)
    requires Enabled(g, s, step) && OwnStep(step) && EarlyOwn(step)
    ensures Holds(s, Apply(g, s, step), step.t)
  {
  }

  lemma LateHolds(g: Graph, s: State, step: Step)
    requires Enabled(g, s, step) && OwnStep(step) && !EarlyOwn(step) && !step.FireEvent?
    ensures Holds(s, Apply(g, s, step), step.t)
  {
  }

  lemma ScanHolds(g: Graph, s: State, s': State, u: nat, raised: bool, t: nat)
    requires ScanShaped(g, s, s', u, raised) && t < |s.tasks|
    ensures Holds(s, s', t)
  {
  }

  lemma ShelvedHolds(s: State, s': State, u: nat, t: nat)
    requires Shelved(s, s', u) && t < |s.tasks|
    ensures Holds(s, s', t)
  {
  }

  lemma SubmitHolds(g: Graph, s: State, t: nat)
    requires CanSubmit(g, s) && t < |s.tasks|
    ensures Holds(s, DoSubmit(g, s), t)
  {
  }

  lemma FollowerHolds(g: Graph, s: State, u: nat, t: nat)
    requires Listing(g, s) && CanAddFollower(g, s, u) && t < |s.tasks|
    ensures Holds(s, DoAddFollower(g, s, u), t)
  {
    EntryFacts(g, s, u);
  }

  lemma DeliverHolds(g: Graph, s: State, u: nat, t: nat)
    requires Local(g, s) && Family(g, s) && CanDeliver(g, s, u) && t < |s.tasks|
    ensures Holds(s, DoDeliver(g, s, u), t)
  {
    var e := PoppedEntry(g, s, u);
  }

  lemma StepHolds(g: Graph, s: State, step: Step, t: nat)
    requires Local(g, s) && Family(g, s) && Listing(g, s) && Enabled(g, s, step) && step != FireEvent(t)
    requires t < |s.tasks|
    ensures Holds(s, Apply(g, s, step), t)
  {
    if OwnStep(step) {
      OwnHolds(g, s, step, t);
    } else if ScanStep(step) {
      ScanShape(g, s, step);
      ScanHolds(g, s, Apply(g, s, step), step.t, step.Raise?, t);
    } else {
      match step
      case Submit => SubmitHolds(g, s, t);
      case AddFollower(u) => FollowerHolds(g, s, u, t);
      case Deliver(u) => DeliverHolds(g, s, u, t);
      case Close(u) => CloseShape(g, s, u); ShelvedHolds(s, DoClose(g, s, u), u, t);
      case CountResult(u) => CountResultShape(g, s, u); ShelvedHolds(s, DoCountResult(g, s, u), u, t);
    }
  }

  /** A step by which no external event of `t` is reached. */
  ghost predicate NotFired(g: Graph, s: State, s': State, t: nat)
  {
    exists step :: Enabled(g, s, step) && s' == Apply(g, s, step) && step != FireEvent(t)
  }

  lemma HoldsAcross(g: Graph, s: State, s': State, t: nat)
    requires Core(g, s) && t < |s.tasks| && NotFired(g, s, s', t)
    ensures Holds(s, s', t)
  {
    var step :| Enabled(g, s, step) && s' == Apply(g, s, step) && step != FireEvent(t);
    StepHolds(g, s, step, t);
  }

  ghost predicate HasEvents(g: Graph, s: State, t: nat, n: nat)
  {
    Inv(g, s) && t < |s.tasks| && s.tasks[t].ext >= n
  }

  ghost function HavingEvents(g: Graph, t: nat, n: nat): (keeps: State -> bool)
  {
    s => HasEvents(g, s, t, n)
  }

  ghost function NotFiring(g: Graph, t: nat): (rel: (State, State) -> bool)
  {
    (s, s') => NotFired(g, s, s', t)
  }

  lemma EventsPreserved(g: Graph, t: nat, n: nat)
    requires Lawful(g)
    ensures Preserves(NotFiring(g, t), HavingEvents(g, t, n))
  {
    forall s, s' | NotFired(g, s, s', t) && HasEvents(g, s, t, n) ensures HasEvents(g, s', t, n) {
      assert Next(g, s, s');
      InvStep(g, s, s');
      HoldsAcross(g, s, s', t);
    }
  }

  lemma ExtStays(g: Graph, path: seq<State>, t: nat, n: nat)
    requires Lawful(g) && |path| > 0 && HasEvents(g, path[0], t, n)
    requires forall m: nat :: m < |path| - 1 ==> RelatedAt(NotFiring(g, t), path, m)
    ensures HasEvents(g, path[|path| - 1], t, n)
  {
    EventsPreserved(g, t, n);
    KeptAlong(NotFiring(g, t), HavingEvents(g, t, n), path, |path| - 1);
  }

  lemma HeldIsUnfinished(g: Graph, s: State, t: nat)
    requires Core(g, s) && t < |s.tasks| && s.tasks[t].ext > 0
    ensures !Finished(s.tasks[t])
  {
    assert LocalOk(g, s.tasks[t], t, |s.tasks|);
    assert PostEdges(s.tasks[t]) == Undelivered(s.tasks, Post(t));
  }

  /** From the step that makes an external event on, a task is unfinished until one of its events is reached. */
  lemma HeldByEvent(g: Graph, s: State, t: nat, path: seq<State>)
    requires Lawful(g) && Inv(g, s) && CanMakeEvent(g, s, t)
    requires |path| > 0 && path[0] == DoMakeEvent(g, s, t)
    requires forall m: nat :: m < |path| - 1 ==> RelatedAt(NotFiring(g, t), path, m)
    ensures t < |path[|path| - 1].tasks| && !Finished(path[|path| - 1].tasks[t])
  {
    assert Next(g, s, path[0]) by { assert Enabled(g, s, MakeEvent(t)) && path[0] == Apply(g, s, MakeEvent(t)); }
    InvStep(g, s, path[0]);
    ExtStays(g, path, t, 1);
    HeldIsUnfinished(g, path[|path| - 1], t);
  }
}
