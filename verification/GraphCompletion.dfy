/** What can always be brought about: the next submission, and the end of all tasks of one space. */
module GraphCompletion {
  import opened Common
  import opened EventGraph
  import opened GraphInvariant
  import opened GraphTheorems
  import opened GraphProgress

  /** Some step that uses up work, if anything is left to do for the tasks submitted so far. */
  lemma ConsumingMove(g: Graph, s: State) returns (step: Step)
    requires Lawful(g) && Inv(g, s) && exists t :: 0 <= t < |s.tasks| && !Gone(s.tasks[t])
    ensures Enabled(g, s, step) && Consuming(step)
  {
    if u :| 0 <= u < |s.tasks| && s.tasks[u].ext > 0 {
      step := FireEvent(u);
      HolderSized(g, s);
    } else if t :| 0 <= t < |s.tasks| && !s.tasks[t].done.Closed? {
      step := Unblocked(g, s, t);
    } else {
      var t :| 0 <= t < |s.tasks| && !Gone(s.tasks[t]);
      step := ResultMove(g, s, t);
    }
  }

  /** Once every submitted task has gone, the next task of the root space can be submitted. */
  lemma NextIsSubmitted(g: Graph, s: State)
    requires Lawful(g) && Inv(g, s) && |s.tasks| < |g.parent| && g.parent[|s.tasks|] == -1
    requires forall t :: 0 <= t < |s.tasks| ==> Gone(s.tasks[t])
    ensures CanSubmit(g, s) && |DoSubmit(g, s).tasks| == |s.tasks| + 1
  {
    forall t | 0 <= t < |s.tasks| ensures g.parent[t] < |s.tasks| && !s.tasks[t].phase.Submitting? {
      assert LocalOk(g, s.tasks[t], t, |s.tasks|);
    }
  }

  ghost function Steps(g: Graph): (rel: (State, State) -> bool)
  {
    (s, s') => Next(g, s, s')
  }

  /** Each state on the path is related to the next. */
  ghost predicate Stretch(rel: (State, State) -> bool, path: seq<State>)
  {
    |path| > 0 && forall i: nat :: i < |path| - 1 ==> RelatedAt(rel, path, i)
  }

  /** All steps of the machine are of the relation. */
  ghost predicate Allows(g: Graph, rel: (State, State) -> bool)
  {
    forall s: State, s': State {:trigger rel(s, s')} :: Next(g, s, s') ==> rel(s, s')
  }

  lemma StretchGrows(rel: (State, State) -> bool, s: State, rest: seq<State>)
    requires Stretch(rel, rest) && rel(s, rest[0])
    ensures Stretch(rel, [s] + rest)
  {
    var path := [s] + rest;
    forall i: nat | i < |path| - 1 ensures RelatedAt(rel, path, i) {
      if i > 0 { assert RelatedAt(rel, rest, i - 1); }
    }
  }

  lemma StretchExtends(rel: (State, State) -> bool, path: seq<State>, s: State)
    requires Stretch(rel, path) && rel(path[|path| - 1], s)
    ensures Stretch(rel, path + [s])
  {
    forall i: nat | i < |path + [s]| - 1 ensures RelatedAt(rel, path + [s], i) {
      if i < |path| - 1 { assert RelatedAt(rel, path, i); }
    }
  }

  /** The next task can be submitted: its parent runs, or it belongs to the root space. */
  predicate NextIsWanted(g: Graph, s: State)
  {
    && |s.tasks| < |g.parent| && g.parent[|s.tasks|] < |s.tasks|
    && (g.parent[|s.tasks|] >= 0 ==> s.tasks[g.parent[|s.tasks|]].phase.Running?)
  }

  /** Only task `c` is touched. */
  predicate OnlyOwn(s: State, s': State, c: nat)
  {
    c < |s.tasks| == |s'.tasks| && forall u :: 0 <= u < |s.tasks| && u != c ==> s'.tasks[u] == s.tasks[u]
  }

  /** Task `c` is being submitted, and then its parent goes on. */
  ghost predicate UnderWay(g: Graph, s: State, c: nat)
  {
    && Inv(g, s) && WellSized(g, s) && NextIsWanted(g, s)
    && c < |s.tasks| && s.tasks[c].phase.Submitting? && s.tasks[c].phase.k <= |g.resources[c]|
  }

  ghost predicate Submitted(g: Graph, s: State, c: nat)
  {
    Inv(g, s) && WellSized(g, s) && NextIsWanted(g, s) && c < |s.tasks| && s.tasks[c].phase.Emplaced?
  }

  predicate SubmissionStep(g: Graph, s: State, s': State, c: nat)
    requires c < |s.tasks| && c < |g.resources| && s.tasks[c].phase.Submitting?
  {
    && OnlyOwn(s, s', c)
    && var k := s.tasks[c].phase.k;
       s'.tasks[c].phase == if k < |g.resources[c]| then Submitting(k + 1) else Emplaced
  }

  lemma SubmissionGoesOn(g: Graph, s: State, c: nat) returns (s': State)
    requires WellSized(g, s) && c < |s.tasks| && s.tasks[c].phase.Submitting? && s.tasks[c].phase.k <= |g.resources[c]|
    ensures Next(g, s, s') && SubmissionStep(g, s, s', c)
  {
    var step := if s.tasks[c].phase.k < |g.resources[c]| then PushUser(c) else Emplace(c);
    assert Enabled(g, s, step);
    s' := Apply(g, s, step);
  }

  lemma StillWanted(g: Graph, s: State, s': State, c: nat)
    requires WellSized(g, s) && NextIsWanted(g, s) && c < |s.tasks| && s.tasks[c].phase.Submitting?
    requires OnlyOwn(s, s', c)
    ensures WellSized(g, s') && NextIsWanted(g, s')
  {
  }

  /** A step of the submission of task `c`. */
  lemma SubmissionMoves(g: Graph, s: State, c: nat) returns (s': State)
    requires Lawful(g) && UnderWay(g, s, c)
    ensures Next(g, s, s') && SubmissionStep(g, s, s', c)
    ensures if s.tasks[c].phase.k < |g.resources[c]| then UnderWay(g, s', c) else Submitted(g, s', c)
  {
    s' := SubmissionGoesOn(g, s, c);
    InvStep(g, s, s');
    StillWanted(g, s, s', c);
  }

  lemma OwnBoth(s: State, s1: State, s2: State, c: nat)
    requires OnlyOwn(s, s1, c) && OnlyOwn(s1, s2, c)
    ensures OnlyOwn(s, s2, c)
  {
  }

  /** A submission under way can be completed without anybody else. */
  lemma {:induction false} SubmissionEnds(g: Graph, rel: (State, State) -> bool, s: State, c: nat, left: nat)
    returns (path: seq<State>, last: State)
    requires Lawful(g) && Allows(g, rel) && UnderWay(g, s, c) && left == |g.resources[c]| - s.tasks[c].phase.k
    ensures Stretch(rel, path) && path[0] == s && path[|path| - 1] == last
    ensures Submitted(g, last, c) && OnlyOwn(s, last, c)
    decreases left
  {
    var s' := SubmissionMoves(g, s, c);
    assert rel(s, s');
    if left == 0 {
      path, last := [s'], s';
    } else {
      path, last := SubmissionEnds(g, rel, s', c, left - 1);
      OwnBoth(s, s', last, c);
    }
    StretchGrows(rel, s, path);
    path := [s] + path;
  }

  /** No two tasks of one space are being submitted. */
  lemma OneSubmission(g: Graph, s: State, s': State, c: nat)
    requires Inv(g, s) && c < |s.tasks| && s.tasks[c].phase.Submitting? && NextIsWanted(g, s) && OnlyOwn(s, s', c)
    requires g.parent[c] == g.parent[|s.tasks|] && !s'.tasks[c].phase.Submitting?
    ensures |s'.tasks| <= |g.parent| && NoneSubmitting(g, s', g.parent[|s.tasks|])
  {
    forall d | 0 <= d < |s.tasks| && d != c && g.parent[d] == g.parent[c] ensures !s.tasks[d].phase.Submitting? {
      if d < c { assert !s.tasks[d].phase.Submitting?; }
    }
  }

  /** The next task is there; of the others at most its parent and its siblings are touched. */
  predicate SubmittedNext(g: Graph, s: State, s': State)
    requires NextIsWanted(g, s)
  {
    && |s'.tasks| == |s.tasks| + 1
    && forall u :: 0 <= u < |s.tasks| && u != g.parent[|s.tasks|] && g.parent[u] != g.parent[|s.tasks|] ==>
                     s'.tasks[u] == s.tasks[u]
  }

  lemma IsUnderWay(g: Graph, s: State, c: nat)
    requires Lawful(g) && Inv(g, s) && NextIsWanted(g, s) && c < |s.tasks| && s.tasks[c].phase.Submitting?
    ensures UnderWay(g, s, c)
  {
    HolderSized(g, s);
    assert LocalOk(g, s.tasks[c], c, |s.tasks|);
  }

  lemma SubmitBehind(g: Graph, rel: (State, State) -> bool, s: State, c: nat) returns (path: seq<State>)
    requires Lawful(g) && Allows(g, rel) && UnderWay(g, s, c) && g.parent[c] == g.parent[|s.tasks|]
    ensures Stretch(rel, path) && path[0] == s && SubmittedNext(g, s, path[|path| - 1])
  {
    var s1;
    path, s1 := SubmissionEnds(g, rel, s, c, |g.resources[c]| - s.tasks[c].phase.k);
    OneSubmission(g, s, s1, c);
    path := SubmitAfter(g, rel, path);
    BothTouchOwn(g, s, s1, path[|path| - 1], c);
  }

  lemma BothTouchOwn(g: Graph, s: State, s1: State, s2: State, c: nat)
    requires NextIsWanted(g, s) && NextIsWanted(g, s1) && OnlyOwn(s, s1, c) && SubmittedNext(g, s1, s2)
    requires c < |g.parent| && g.parent[c] == g.parent[|s.tasks|]
    ensures SubmittedNext(g, s, s2)
  {
  }

  /**
   Submission never blocks: a task that runs can submit its next child, whatever else goes on, as soon as the
   submission of the one before is completed, which needs nobody else.
   */
  lemma CanSubmitNext(g: Graph, s: State) returns (path: seq<State>)
    requires Lawful(g) && Inv(g, s) && NextIsWanted(g, s)
    ensures Stretch(Steps(g), path) && path[0] == s && SubmittedNext(g, s, path[|path| - 1])
  {
    var rel := Steps(g);
    if c :| 0 <= c < |s.tasks| && g.parent[c] == g.parent[|s.tasks|] && s.tasks[c].phase.Submitting? {
      IsUnderWay(g, s, c);
      path := SubmitBehind(g, rel, s, c);
    } else {
      HolderSized(g, s);
      path := SubmitAfter(g, rel, [s]);
    }
  }

  lemma SubmitAfter(g: Graph, rel: (State, State) -> bool, path: seq<State>) returns (path': seq<State>)
    requires Allows(g, rel) && Stretch(rel, path) && NextIsWanted(g, path[|path| - 1])
    requires WellSized(g, path[|path| - 1]) && NoneSubmitting(g, path[|path| - 1], g.parent[|path[|path| - 1].tasks|])
    ensures Stretch(rel, path') && path'[0] == path[0]
    ensures SubmittedNext(g, path[|path| - 1], path'[|path'| - 1])
  {
    var s' := SubmitNow(g, path[|path| - 1]);
    assert rel(path[|path| - 1], s');
    StretchExtends(rel, path, s');
    path' := path + [s'];
  }

  lemma SubmitNow(g: Graph, s: State) returns (s': State)
    requires NextIsWanted(g, s) && WellSized(g, s) && NoneSubmitting(g, s, g.parent[|s.tasks|])
    ensures Next(g, s, s') && SubmittedNext(g, s, s')
  {
    s' := DoSubmit(g, s);
    assert Enabled(g, s, Submit) && s' == Apply(g, s, Submit);
  }

  lemma GoesOn(g: Graph, s: State) returns (s': State)
    requires Lawful(g) && Inv(g, s) && |s.tasks| <= |g.resources| && exists t :: 0 <= t < |s.tasks| && !Gone(s.tasks[t])
    ensures Next(g, s, s') && Inv(g, s') && |s'.tasks| == |s.tasks| && Work(g, s'.tasks) < Work(g, s.tasks)
  {
    var step := ConsumingMove(g, s);
    s' := Apply(g, s, step);
    StepUsesWork(g, s, step);
    InvStep(g, s, s');
  }

  lemma Submits(g: Graph, s: State) returns (s': State)
    requires Lawful(g) && Inv(g, s) && |s.tasks| < |g.parent| && g.parent[|s.tasks|] == -1
    requires forall t :: 0 <= t < |s.tasks| ==> Gone(s.tasks[t])
    ensures Next(g, s, s') && Inv(g, s') && |s'.tasks| == |s.tasks| + 1
  {
    NextIsSubmitted(g, s);
    s' := DoSubmit(g, s);
    assert Enabled(g, s, Submit) && s' == Apply(g, s, Submit);
    InvStep(g, s, s');
  }

  ghost predicate AllGone(g: Graph, s: State)
  {
    |s.tasks| == |g.parent| && forall t :: 0 <= t < |s.tasks| ==> Gone(s.tasks[t])
  }

  lemma Advances(g: Graph, s: State) returns (s': State)
    requires Lawful(g) && Inv(g, s) && |s.tasks| <= |g.parent| && !AllGone(g, s)
    requires forall t :: 0 <= t < |g.parent| ==> g.parent[t] == -1
    ensures Next(g, s, s') && Inv(g, s') && |s'.tasks| <= |g.parent|
    ensures |s'.tasks| == |s.tasks| + 1 || (|s'.tasks| == |s.tasks| && Work(g, s'.tasks) < Work(g, s.tasks))
  {
    if exists t :: 0 <= t < |s.tasks| && !Gone(s.tasks[t]) { s' := GoesOn(g, s); } else { s' := Submits(g, s); }
  }

  lemma {:induction false} CompletedBy(g: Graph, rel: (State, State) -> bool, s: State) returns (path: seq<State>)
    requires Lawful(g) && Allows(g, rel) && Inv(g, s) && |s.tasks| <= |g.parent|
    requires forall t :: 0 <= t < |g.parent| ==> g.parent[t] == -1
    ensures Stretch(rel, path) && path[0] == s && AllGone(g, path[|path| - 1])
    decreases |g.parent| - |s.tasks|, Work(g, s.tasks)
  {
    if AllGone(g, s) {
      path := [s];
    } else {
      var s' := Advances(g, s);
      assert rel(s, s');
      var rest := CompletedBy(g, rel, s');
      StretchGrows(rel, s, rest);
      path := [s] + rest;
    }
  }

  /**
   Tasks of one space can always be brought to an end: from every state some continuation submits the rest of
   them, finishes all and frees all.
   */
  lemma CanComplete(g: Graph, s: State) returns (path: seq<State>)
    requires Lawful(g) && Inv(g, s) && |s.tasks| <= |g.parent|
    requires forall t :: 0 <= t < |g.parent| ==> g.parent[t] == -1
    ensures Stretch(Steps(g), path) && path[0] == s && AllGone(g, path[|path| - 1])
  {
    path := CompletedBy(g, Steps(g), s);
  }
}
