/**
 A task that writes what a child it has submitted writes too: the run ends in another memory than the
 serial execution.
 */
module ParentRace {
  import opened AccessPolicy
  import opened AccessMeaning
  import opened ResourceUsers
  import opened UserMeaning
  import opened EventGraph
  import opened EventOrder
  import opened GraphTheorems
  import opened TaskGraph
  import opened Traces
  import opened TreePrograms
  import opened TreeSerial
  import opened CellMemory
  import SerialOrder

  const CELL := Resource(0, 0, IO(Write))

  const WRITES := [Access(CELL, IO(Write))]

  /** A parent and its child, both declared to write. */
  const TASKS := [Decl(-1, WRITES, [CELL]), Decl(0, WRITES, [CELL])]

  const GRAPH := GraphOf(TASKS)

  function Put(v: int): (op: Operation) { Operation(CELL, Mode(Write), v) }

  /** The parent submits its child and then writes 1; the child writes 2. */
  const CODE := Bodies(
    (t: nat, h: seq<int>) => if h == [] then Do(Put(t + 1)) else Stop,
    (t: nat, h: seq<int>) => if t == 0 then 1 else 0)

  const PARENT := Deed(0, Put(1), 0, [0, 1, 2])

  const CHILD := Deed(1, Put(2), 0, [0, 1, -1, 2])

  function One(v: int): (m: Cells) { map[Cell(CELL, All([])) := v] }

  lemma GraphFacts()
    ensures GRAPH.parent == [-1, 0] && GRAPH.resources == [[CELL], [CELL]] && Rooted(GRAPH)
    ensures LastChild(GRAPH, 0, 1) == -1 && LastChild(GRAPH, 0, 2) == 1 && LastChild(GRAPH, 1, 2) == -1
    ensures ChildCount(GRAPH, 0, 1) == 0 && ChildCount(GRAPH, 0, 2) == 1 && ChildCount(GRAPH, 1, 2) == 0
    ensures Place(GRAPH, 0, 1) == PARENT.key && Place(GRAPH, 1, -1) == CHILD.key
  {
    assert Path(GRAPH, 1) == Path(GRAPH, 0) + [1];
    assert ChildCount(GRAPH, 1, 1) == 0;
  }

  /** The parent declares all that its child does, and both bodies do what they declare. */
  lemma Declared()
    ensures WellDeclared(TASKS) && WellNested(TASKS, (r: Resource) => -1) && Behaved(TASKS, CODE)
  {
    GraphFacts();
    assert AccessIsSupersetOf(WRITES[0], WRITES[0]);
    forall v: int ensures Declares(WRITES, Put(v)) { assert Admits(WRITES[0].policy, Put(v).use); }
  }

  // ------------------------------------------------------------ the serial execution

  lemma OwnDeeds(a: Deed, b: Deed)
    requires a.t != b.t
    ensures Own([a, b], a.t) == [a] && Own([a, b], b.t) == [b]
  {
    assert [a, b] == [a] + [b];
    OwnNext([a], b, a.t);
    OwnNext([a], b, b.t);
    assert [a] == [] + [a];
    OwnNext([], a, a.t);
    OwnNext([], a, b.t);
  }

  lemma WholeBody(e: Deed)
    requires e == PARENT || e == CHILD
    ensures Whole(GRAPH, CODE, e.t, [e])
  {
    GraphFacts();
    assert [e][..0] == [] && Answers([]) == [] && Answers([e]) == [0];
  }

  lemma WholeBodies(trace: seq<Deed>)
    requires trace == [CHILD, PARENT] || trace == [PARENT, CHILD]
    ensures AllWhole(GRAPH, CODE, trace)
  {
    OwnDeeds(trace[0], trace[1]);
    WholeBody(PARENT);
    WholeBody(CHILD);
    assert Own(trace, 0) == [PARENT] && Own(trace, 1) == [CHILD] && |GRAPH.parent| == 2;
  }

  lemma LeadsTo(a: Deed, b: Deed)
    requires a.op.resource == b.op.resource == CELL && a.op.use == b.op.use == Mode(Write) && a.answer == b.answer == 0
    ensures Leads(CellEffect, map[], [a, b], One(b.op.arg))
  {
    var m: Cells := map[];
    LeadsNext(CellEffect, m, [], a, One(a.op.arg));
    assert [] + [a] == [a];
    assert CellEffect(m, a.op) == (One(a.op.arg), 0) && Final(CellEffect, m, []) == m;
    LeadsNext(CellEffect, m, [a], b, One(b.op.arg));
    assert [a] + [b] == [a, b];
    assert CellEffect(One(a.op.arg), b.op).0 == One(b.op.arg);
  }

  /** In a serial execution the child comes first, for its parent has submitted it before. */
  lemma ChildFirst()
    ensures Rooted(GRAPH) && SerialExecution(GRAPH, CODE, CellEffect, map[], [CHILD, PARENT], One(1))
  {
    GraphFacts();
    WholeBodies([CHILD, PARENT]);
    LeadsTo(CHILD, PARENT);
    LexPrefix([0, 1], [2], [-1, 2]);
    assert [0, 1] + [2] == PARENT.key && [0, 1] + [-1, 2] == CHILD.key;
  }

  // ------------------------------------------------------------ the parallel run

  /** The memory is that after the deeds of the trace. */
  function At(graph: State, trace: seq<Deed>): (s: System<Cells>)
  {
    System(graph, if trace == [] then map[] else One(trace[|trace| - 1].op.arg), trace)
  }

  ghost predicate Reached(run: seq<System<Cells>>, s: System<Cells>)
    requires Rooted(GRAPH)
  {
    SystemRun(GRAPH, CODE, CellEffect, map[], run) && run[|run| - 1] == s
  }

  lemma Extend(run: seq<System<Cells>>, s: System<Cells>, s': System<Cells>) returns (run': seq<System<Cells>>)
    requires Rooted(GRAPH) && Reached(run, s) && SystemNext(GRAPH, CODE, CellEffect, s, s')
    ensures Reached(run', s')
  {
    run' := run + [s'];
    forall i | 0 <= i < |run'| - 1 ensures SystemNext(GRAPH, CODE, CellEffect, run'[i], run'[i + 1]) {
      if i < |run| - 1 { assert SystemNext(GRAPH, CODE, CellEffect, run[i], run[i + 1]); }
    }
  }

  lemma Move(run: seq<System<Cells>>, s: System<Cells>, step: Step, graph: State) returns (run': seq<System<Cells>>)
    requires Rooted(GRAPH) && Reached(run, s) && Enabled(GRAPH, s.graph, step) && graph == Apply(GRAPH, s.graph, step)
    requires BodyAllows(GRAPH, CODE, s.graph, s.trace, step)
    ensures Reached(run', s.(graph := graph))
  {
    assert GraphStep(GRAPH, CODE, s, s.(graph := graph), step);
    run' := Extend(run, s, s.(graph := graph));
  }

  /** The task is entered in the user list. */
  lemma Push(run: seq<System<Cells>>, s: System<Cells>, t: nat) returns (run': seq<System<Cells>>)
    requires Rooted(GRAPH) && Reached(run, s) && WellSized(GRAPH, s.graph) && t < |s.graph.tasks| && t < 2
    requires s.graph.tasks[t].phase == Submitting(0)
    ensures Reached(run', s.(graph := With(s.graph, t, s.graph.tasks[t].(phase := Submitting(1)))
                                      .(users := s.graph.users[CELL := Users(s.graph, CELL) + [t]])))
  {
    GraphFacts();
    run' := Move(run, s, PushUser(t), With(s.graph, t, s.graph.tasks[t].(phase := Submitting(1)))
                                      .(users := s.graph.users[CELL := Users(s.graph, CELL) + [t]]));
  }

  lemma Begin(run: seq<System<Cells>>, s: System<Cells>, t: nat, x: Task) returns (run': seq<System<Cells>>)
    requires Rooted(GRAPH) && Reached(run, s) && WellSized(GRAPH, s.graph) && t < |s.graph.tasks| && t < 2
    requires x == FRESH_TASK.(followers := x.followers) && s.graph.tasks[t] == x.(phase := Submitting(1))
    ensures Reached(run', s.(graph := With(s.graph, t, x.(phase := Initing(0, Idle), pre := 2))))
  {
    GraphFacts();
    var emplaced := With(s.graph, t, x.(phase := Emplaced));
    run' := Move(run, s, Emplace(t), emplaced);
    run' := Move(run', s.(graph := emplaced), InitBegin(t), With(s.graph, t, x.(phase := Initing(0, Idle), pre := 2)));
  }

  lemma LockList(run: seq<System<Cells>>, s: System<Cells>, t: nat, x: Task) returns (run': seq<System<Cells>>)
    requires Rooted(GRAPH) && Reached(run, s) && WellSized(GRAPH, s.graph) && t < |s.graph.tasks| && t < 2
    requires s.graph.tasks[t] == x.(phase := Initing(0, Idle)) && CELL !in s.graph.locks
    requires Users(s.graph, CELL) == if t == 0 then [0] else [0, 1]
    ensures Reached(run', s.(graph := With(s.graph, t, x.(phase := Initing(0, Scan.At(t))))
                                      .(locks := s.graph.locks[CELL := t])))
  {
    GraphFacts();
    var us := Users(s.graph, CELL);
    assert IndexOf(us, t) == (if us[0] == t then 0 else IndexFrom(us, t, 1)) == t;
    run' := Move(run, s, Lock(t), With(s.graph, t, x.(phase := Initing(0, Scan.At(t))))
                                  .(locks := s.graph.locks[CELL := t]));
  }

  /** The scan finds nobody, or only the parent. */
  lemma ScanList(run: seq<System<Cells>>, s: System<Cells>, t: nat, x: Task) returns (run': seq<System<Cells>>)
    requires Rooted(GRAPH) && Reached(run, s) && WellSized(GRAPH, s.graph) && t < |s.graph.tasks| && t < 2
    requires s.graph.tasks[t] == x.(phase := Initing(0, Scan.At(t))) && s.graph.locks == map[CELL := t]
    requires Users(s.graph, CELL) == if t == 0 then [0] else [0, 1]
    ensures Reached(run', s.(graph := With(s.graph, t, x.(phase := Initing(1, Idle))).(locks := map[])))
  {
    GraphFacts();
    assert s.graph.locks - {CELL} == map[];
    run' := Move(run, s, Look(t), With(s.graph, t, x.(phase := Initing(1, Idle))).(locks := map[]));
  }

  lemma Ready(run: seq<System<Cells>>, s: System<Cells>, t: nat, x: Task) returns (run': seq<System<Cells>>)
    requires Rooted(GRAPH) && Reached(run, s) && WellSized(GRAPH, s.graph) && t < |s.graph.tasks| && t < 2
    requires x == FRESH_TASK.(followers := x.followers)
    requires s.graph.tasks[t] == x.(phase := Initing(1, Idle), pre := 2)
    ensures Reached(run', s.(graph := With(s.graph, t, STARTED_TASK.(followers := x.followers))))
  {
    GraphFacts();
    var ready := With(s.graph, t, x.(phase := Waiting, pre := 1, claims := 1));
    run' := Move(run, s, InitEnd(t), ready);
    run' := Move(run', s.(graph := ready), Start(t), With(s.graph, t, STARTED_TASK.(followers := x.followers)));
  }

  /** From submission to the body. */
  lemma Launch(run: seq<System<Cells>>, s: System<Cells>, t: nat, f: seq<Event>) returns (run': seq<System<Cells>>)
    requires Rooted(GRAPH) && Reached(run, s) && WellSized(GRAPH, s.graph) && t < |s.graph.tasks| && t < 2
    requires s.graph.tasks[t] == FRESH_TASK.(followers := f) && s.graph.locks == map[]
    requires Users(s.graph, CELL) + [t] == if t == 0 then [0] else [0, 1]
    ensures Reached(run', s.(graph := With(s.graph, t, STARTED_TASK.(followers := f))
                                      .(users := s.graph.users[CELL := Users(s.graph, CELL) + [t]])))
  {
    var x := FRESH_TASK.(followers := f);
    var graph := s.graph.(users := s.graph.users[CELL := Users(s.graph, CELL) + [t]]);
    run' := Push(run, s, t);
    run' := Begin(run', s.(graph := With(graph, t, x.(phase := Submitting(1)))), t, x);
    run' := LockList(run', s.(graph := With(graph, t, x.(phase := Initing(0, Idle), pre := 2))), t, x.(pre := 2));
    run' := ScanList(run', s.(graph := With(graph, t, x.(phase := Initing(0, Scan.At(t)), pre := 2))
                                       .(locks := map[CELL := t])), t, x.(pre := 2));
    run' := Ready(run', s.(graph := With(graph, t, x.(phase := Initing(1, Idle), pre := 2))), t, x);
  }

  const FORKED := STARTED_TASK.(post := 2, children := 1)

  function Tasks(parent: Task, child: Task, users: seq<nat>): (s: State)
  {
    State([parent, child], map[CELL := users], map[], 1)
  }

  lemma ParentRuns() returns (run: seq<System<Cells>>)
    ensures Rooted(GRAPH) && Reached(run, At(Tasks(FORKED, FRESH_TASK.(followers := [Post(0)]), [0]), []))
  {
    GraphFacts();
    var s := At(INITIAL, []);
    run := Move([s], s, Submit, State([FRESH_TASK], map[], map[], 1));
    s := At(State([FRESH_TASK], map[], map[], 1), []);
    run := Launch(run, s, 0, []);
    run := Fork(run);
  }

  lemma Fork(run: seq<System<Cells>>) returns (run': seq<System<Cells>>)
    requires Rooted(GRAPH) && Reached(run, At(State([STARTED_TASK], map[CELL := [0]], map[], 1), []))
    ensures Reached(run', At(Tasks(FORKED, FRESH_TASK.(followers := [Post(0)]), [0]), []))
  {
    GraphFacts();
    run' := Move(run, At(State([STARTED_TASK], map[CELL := [0]], map[], 1), []), Submit,
                 Tasks(FORKED, FRESH_TASK.(followers := [Post(0)]), [0]));
  }

  /** Task `t` writes. */
  lemma Writes(run: seq<System<Cells>>, graph: State, trace: seq<Deed>, e: Deed) returns (run': seq<System<Cells>>)
    requires Rooted(GRAPH) && Reached(run, At(graph, trace)) && |graph.tasks| == 2
    requires (trace == [] && e == PARENT) || (trace == [PARENT] && e == CHILD)
    requires graph.tasks[e.t].phase.Running?
    ensures Reached(run', At(graph, trace + [e]))
  {
    GraphFacts();
    assert Own([PARENT], 1) == [] by { assert [PARENT] == [] + [PARENT]; OwnNext([], PARENT, 1); }
    assert Answers(Own(trace, e.t)) == [];
    var s, s' := At(graph, trace), At(graph, trace + [e]);
    assert s'.mem == One(e.op.arg) == s.mem[Cell(CELL, All([])) := e.op.arg];
    assert OpStep(GRAPH, CODE, CellEffect, s, s', e.t);
    run' := Extend(run, s, s');
  }

  lemma BothReturn(run: seq<System<Cells>>, child: Task) returns (run': seq<System<Cells>>, parent: Task, child': Task)
    requires Rooted(GRAPH) && child == STARTED_TASK.(followers := [Post(0)])
    requires Reached(run, At(Tasks(FORKED, child, [0, 1]), [PARENT, CHILD]))
    ensures Reached(run', At(Tasks(parent, child', [0, 1]), [PARENT, CHILD]))
    ensures parent.phase.Done? && child'.phase.Done?
  {
    child' := child.(phase := Done, post := 0, done := Removing(0));
    parent := FORKED.(phase := Done, post := 1);
    run' := Return(run, Tasks(FORKED, child, [0, 1]), 1, Tasks(FORKED, child', [0, 1]));
    run' := Return(run', Tasks(FORKED, child', [0, 1]), 0, Tasks(parent, child', [0, 1]));
  }

  /** Nothing keeps the body of `t` from returning once both have written. */
  lemma Return(run: seq<System<Cells>>, graph: State, t: nat, graph': State) returns (run': seq<System<Cells>>)
    requires Rooted(GRAPH) && Reached(run, At(graph, [PARENT, CHILD])) && |graph.tasks| == 2
    requires CanFinish(GRAPH, graph, t) && graph' == DoFinish(GRAPH, graph, t)
    ensures Reached(run', At(graph', [PARENT, CHILD]))
  {
    GraphFacts();
    OwnDeeds(PARENT, CHILD);
    assert Answers([PARENT]) == [0] && Answers([CHILD]) == [0];
    run' := Move(run, At(graph, [PARENT, CHILD]), Finish(t), graph');
  }

  /**
   Both tasks do only what they declare, and the child stays within what its parent declares. Yet the
   run in which the child comes to write last leaves 2, where every serial execution leaves 1.
   */
  lemma ParentRacesChild() returns (run: seq<System<Cells>>)
    ensures WellDeclared(TASKS) && WellNested(TASKS, (r: Resource) => -1) && Behaved(TASKS, CODE)
    ensures Respects(CellEffect)
    ensures SystemRun(GRAPH, CODE, CellEffect, map[], run) && Complete(GRAPH, run[|run| - 1])
    ensures run[|run| - 1].mem == One(2)
    ensures exists serial :: SerialExecution(GRAPH, CODE, CellEffect, map[], serial, One(1))
    ensures forall serial, m :: SerialExecution(GRAPH, CODE, CellEffect, map[], serial, m) ==> m == One(1) != One(2)
  {
    Declared();
    CellsRespect();
    ChildFirst();
    GraphFacts();
    forall serial, m | SerialExecution(GRAPH, CODE, CellEffect, map[], serial, m) ensures m == One(1) != One(2) {
      SerialOrder.SerialUnique(GRAPH, CODE, CellEffect, map[], [CHILD, PARENT], One(1), serial, m);
      assert One(1)[Cell(CELL, All([]))] == 1;
    }
    run := ChildWritesLast();
  }

  lemma ChildWritesLast() returns (run: seq<System<Cells>>)
    ensures Rooted(GRAPH) && SystemRun(GRAPH, CODE, CellEffect, map[], run)
    ensures Complete(GRAPH, run[|run| - 1]) && run[|run| - 1].mem == One(2)
  {
    GraphFacts();
    var child := STARTED_TASK.(followers := [Post(0)]);
    run := ParentRuns();
    run := Writes(run, Tasks(FORKED, FRESH_TASK.(followers := [Post(0)]), [0]), [], PARENT);
    run := Launch(run, At(Tasks(FORKED, FRESH_TASK.(followers := [Post(0)]), [0]), [PARENT]), 1, [Post(0)]);
    assert With(Tasks(FORKED, FRESH_TASK.(followers := [Post(0)]), [0]), 1, child).tasks == [FORKED, child];
    assert [0] + [1] == [0, 1];
    run := Writes(run, Tasks(FORKED, child, [0, 1]), [PARENT], CHILD);
    var parent, child';
    run, parent, child' := BothReturn(run, child);
  }
}
