/** Deferred nodes of compiled graphs: when they run alone, and a run in which they do not. */
module DeferredGraphs {
  import opened Channels
  import opened TaskOrder
  import opened Supersteps
  import opened Scheduling
  import opened StateGraphs
  import opened CompiledRuns
  import Deferral
  import EdgeMeaning

  function DeferredNodes(g: Graph): set<Node> { set n | n in g.nodes && g.nodes[n] }

  lemma CompiledPartitioned(g: Graph, input: NodeInput, base: map<ChannelName, Channel>, c: Compiled)
    requires GraphCompiles(g, input, base, c)
    ensures Deferral.Partitioned(c.processes, DeferredNodes(g), c.channels)
  {
    forall n, k | n in c.processes && k in c.processes[n].triggers
      ensures k in c.channels && (c.channels[k].WaitsForFinish() <==> n in DeferredNodes(g))
    {
      OwnersWake(g, input, c.processes, n, k);
      assert Lookup(c.channels, k) == ChannelFor(g, base, k);
    }
  }

  /** A run of a compiled graph from its start, step by step. */
  ghost predicate CompiledMoves(c: Compiled, states: seq<Loop>, moves: seq<Deferral.Move>) {
    && |states| == |moves| + 1 && states[0] == FirstLoop(c)
    && (forall i :: 0 <= i < |moves| ==> Deferral.Makes(c.processes, states[i], moves[i], states[i + 1]))
    && (forall i :: 0 <= i < |states| ==> Fed(c.processes, states[i].store))
  }

  /** In all states of a run of a compiled graph the nodes due are all deferred or all ordinary,
      exactly if no command of the run wakes an ordinary node while a deferred one stays due. */
  lemma CompiledRunAlone(g: Graph, input: NodeInput, base: map<ChannelName, Channel>, c: Compiled,
          states: seq<Loop>, moves: seq<Deferral.Move>)
    requires GraphCompiles(g, input, base, c) && JoinsHaveSources(g) && CompiledMoves(c, states, moves)
    ensures (forall i :: 0 <= i < |states| ==> Deferral.RunAlone(c.processes, DeferredNodes(g), states[i])) <==>
      Deferral.CommandsKeepApart(c.processes, DeferredNodes(g), states, moves)
  {
    CompiledInitial(g, input, base, c);
    CompiledPartitioned(g, input, base, c);
    assert Deferral.MovedRun(c.processes, DeferredNodes(g), states, moves);
    Deferral.DeferredRunAlone(c.processes, DeferredNodes(g), states, moves);
  }

  // ---------------------------------------------------------------- a run with a goto

  /** All edges from the entry lead to deferred nodes or to the end. */
  ghost predicate EntryDefers(g: Graph) {
    forall e <- g.edges :: e.0 == START ==> e.1 == END || Deferred(g, e.1)
  }

  function EntryTask(c: Compiled): Task
    requires START in c.writers
  {
    Task(PullPath(START), START, {Start}, c.writers[START])
  }

  ghost function Entered(g: Graph): EdgeMeaning.Walk { EdgeMeaning.Restart(g, EdgeMeaning.NotStarted(g)) }

  lemma InputKind(c: Compiled, s: Loop, v: Value, s': Loop)
    requires InputStep(c.processes, s, [], [(Start, v)], s')
    ensures EdgeMeaning.KindOfStep(c, s, EdgeMeaning.NewInput, s')
  {
    var none: seq<Task> := [];
    assert EdgeMeaning.NoPackets(none) && forall t: Task <- none :: t.writes == [];
    assert InputStep(c.processes, s, none, [(Start, v)], s');
  }

  lemma TasksKind(c: Compiled, s: Loop, tasks: seq<Task>, s': Loop)
    requires Superstep(c.processes, s, tasks, s')
    requires EdgeMeaning.NoPackets(tasks) && forall t <- tasks :: EdgeMeaning.GraphTask(c, t)
    ensures EdgeMeaning.KindOfStep(c, s, EdgeMeaning.Step, s')
  {}

  /** The state after the first input, as the walk sees it: the entry is due. */
  lemma InputTracks(g: Graph, input: NodeInput, base: map<ChannelName, Channel>, c: Compiled, v: Value, s: Loop)
    requires GraphCompiles(g, input, base, c) && JoinsHaveSources(g) && Fed(c.processes, FirstLoop(c).store)
    requires InputStep(c.processes, FirstLoop(c), [], [(Start, v)], s)
    ensures EdgeMeaning.Tracks(g, c.processes, Entered(g), s)
  {
    EdgeMeaning.InitiallyTracks(g, input, base, c);
    InputKind(c, FirstLoop(c), v, s);
    EdgeMeaning.StepTracks(g, input, c, base, EdgeMeaning.NotStarted(g), FirstLoop(c), EdgeMeaning.NewInput, s);
  }

  lemma EntryIsDue(g: Graph, input: NodeInput, base: map<ChannelName, Channel>, c: Compiled, s: Loop)
    requires GraphCompiles(g, input, base, c)
    requires EdgeMeaning.Tracks(g, c.processes, Entered(g), s) && Fed(c.processes, s.store)
    ensures START in c.writers && EdgeMeaning.GraphTask(c, EntryTask(c)) && !IsPush(EntryTask(c))
    ensures Pull(s.store, c.processes, s.updated, true) == {START}
    ensures TasksFor(c.processes, {START}, [EntryTask(c)])
  {
    EdgeMeaning.DueIsPull(g, c.processes, Entered(g), s, true);
    assert Lookup(c.processes, START) == ProcessFor(g, input, START);
    var own: seq<Write> := [];
    assert own + c.writers[START] == c.writers[START];
    assert [EntryTask(c)][0] in [EntryTask(c)];
  }

  /** The entry writes to trigger channels only. */
  lemma EntryBatch(g: Graph, c: Compiled, k: ChannelName)
    requires Built(g) && KnownEnds(g) && WritersMatch(g, c.writers) && !IsTrigger(g, k)
    ensures START in c.writers && Batch([EntryTask(c)], k) == []
  {
    var batch := Batch([EntryTask(c)], k);
    forall v ensures v !in batch {
      EdgeMeaning.BatchMember([EntryTask(c)], k, v);
      if (k, v) in c.writers[START] { assert Touches(c.writers[START], k); }
    }
    EdgeMeaning.SomeMember(batch);
  }

  lemma EntryAccepted(g: Graph, input: NodeInput, base: map<ChannelName, Channel>, c: Compiled, s: Loop)
    requires GraphCompiles(g, input, base, c) && JoinsHaveSources(g)
    requires EdgeMeaning.Tracks(g, c.processes, Entered(g), s) && Fed(c.processes, s.store)
    ensures START in c.writers && !Refuses(s.store.channels, [EntryTask(c)])
  {
    var tasks := [EntryTask(c)];
    EntryIsDue(g, input, base, c, s);
    EdgeMeaning.DueIsPull(g, c.processes, Entered(g), s, true);
    EdgeMeaning.StepEffects(g, input, c, Entered(g), tasks);
    EdgeMeaning.StagesMatch(g, input, c.processes, Entered(g), s.store, tasks, false);
    forall k <- s.store.channels ensures Staged(s.store.channels[k], tasks, k).Some? {
      if !IsTrigger(g, k) { EntryBatch(g, c, k); }
    }
  }

  /** The entry runs. */
  lemma EntrySteps(g: Graph, input: NodeInput, base: map<ChannelName, Channel>, c: Compiled, s: Loop)
    returns (s': Loop)
    requires GraphCompiles(g, input, base, c) && JoinsHaveSources(g) && START in c.writers
    requires EdgeMeaning.Tracks(g, c.processes, Entered(g), s) && Fed(c.processes, s.store)
    ensures Superstep(c.processes, s, [EntryTask(c)], s')
  {
    var tasks := [EntryTask(c)];
    EntryIsDue(g, input, base, c, s);
    EntryAccepted(g, input, base, c, s);
    var r := ApplyWrites(s.store, tasks, TriggerKeys(c.processes));
    s' := Loop(r.store, Some(r.updated));
  }

  lemma EntryKind(c: Compiled, t: Task, s: Loop, s': Loop)
    requires EdgeMeaning.GraphTask(c, t) && !IsPush(t) && Superstep(c.processes, s, [t], s')
    ensures EdgeMeaning.KindOfStep(c, s, EdgeMeaning.Step, s')
  {
    forall u <- [t] ensures EdgeMeaning.GraphTask(c, u) && !IsPush(u) { assert u == t; }
    TasksKind(c, s, [t], s');
  }

  lemma StepAdvances(g: Graph, procs: Processes, w: EdgeMeaning.Walk, s: Loop)
    requires EdgeMeaning.Tracks(g, procs, EdgeMeaning.WalkOn(g, w, EdgeMeaning.Step), s)
    ensures EdgeMeaning.Tracks(g, procs, EdgeMeaning.Advance(g, w), s)
  {}

  /** Then what it leads to is due. */
  lemma EntryRuns(g: Graph, input: NodeInput, base: map<ChannelName, Channel>, c: Compiled, s: Loop, s': Loop)
    requires GraphCompiles(g, input, base, c) && JoinsHaveSources(g) && START in c.writers
    requires EdgeMeaning.Tracks(g, c.processes, Entered(g), s) && Fed(c.processes, s.store)
    requires Superstep(c.processes, s, [EntryTask(c)], s')
    ensures EdgeMeaning.Tracks(g, c.processes, EdgeMeaning.Advance(g, Entered(g)), s')
  {
    EntryIsDue(g, input, base, c, s);
    EntryKind(c, EntryTask(c), s, s');
    EdgeMeaning.StepTracks(g, input, c, base, Entered(g), s, EdgeMeaning.Step, s');
    StepAdvances(g, c.processes, Entered(g), s');
  }

  lemma NamesOfNone(starts: seq<Node>)
    ensures NamesIn(starts) == {} <==> starts == []
  {
    if starts != [] { assert starts[0] in NamesIn(starts); }
  }

  lemma DeferredAreDue(g: Graph, d: Node, a: Node)
    requires Built(g) && KnownEnds(g) && JoinsHaveSources(g) && EntryDefers(g)
    requires (START, d) in g.edges && Deferred(g, d) && a in g.nodes && !Deferred(g, a)
    ensures var due := EdgeMeaning.Advance(g, Entered(g)).due; d in due && a !in due
  {
    var w := Entered(g);
    forall j <- w.arrived ensures EdgeMeaning.AfterArrival(g, w)[j] == {} {
      assert {START} * NamesIn(j.0) == {};
    }
    forall n | n in EdgeMeaning.Complete(EdgeMeaning.AfterArrival(g, w)) ensures Deferred(g, n) {
      var j :| j in w.arrived && NamesIn(j.0) == {} && j.1 == n;
      NamesOfNone(j.0);
    }
    assert EdgeMeaning.OrdinaryReached(g, w) == {};
    assert d in EdgeMeaning.Successors(g, w.due) by { assert (START, d) in g.edges; }
  }

  /** An ordinary node that is not due has an empty branch channel. */
  lemma BranchEmpty(g: Graph, input: NodeInput, c: Compiled, w: EdgeMeaning.Walk, s: Loop, a: Node)
    requires Built(g) && ProcessesMatch(g, input, c.processes) && EdgeMeaning.Tracks(g, c.processes, w, s)
    requires a in g.nodes && !Deferred(g, a) && a !in w.due
    ensures a in c.processes && BranchTo(a) in c.processes[a].triggers
    ensures BranchTo(a) in s.store.channels && s.store.channels[BranchTo(a)] == Ephemeral(false, None)
  {
    OwnersWake(g, input, c.processes, a, BranchTo(a));
    TriggerKey(c.processes, a, BranchTo(a));
    assert EdgeMeaning.Holds(g, w, BranchTo(a), s.store.channels[BranchTo(a)]);
    assert !Offers(s.store, a, BranchTo(a));
  }

  /** The command is taken. */
  lemma GotoTaken(procs: Processes, s: Loop, a: Node, v: Value) returns (s': Loop)
    requires BranchTo(a) in s.store.channels && s.store.channels[BranchTo(a)] == Ephemeral(false, None)
    ensures NullStep(procs, s, [(BranchTo(a), v)], s')
  {
    var tasks := [NullTask([(BranchTo(a), v)])];
    forall k <- s.store.channels ensures Staged(s.store.channels[k], tasks, k).Some? { Deferral.GotoBatch(a, v, k); }
    var r := ApplyWrites(s.store, tasks, TriggerKeys(procs));
    s' := Loop(r.store, if s.updated.Some? then Some(s.updated.value + r.updated) else None);
  }

  lemma ThreeMoves(c: Compiled, states: seq<Loop>, moves: seq<Deferral.Move>)
    requires |states| == 4 && |moves| == 3 && states[0] == FirstLoop(c)
    requires Deferral.Makes(c.processes, states[0], moves[0], states[1])
    requires Deferral.Makes(c.processes, states[1], moves[1], states[2])
    requires Deferral.Makes(c.processes, states[2], moves[2], states[3])
    requires Fed(c.processes, states[0].store) && Fed(c.processes, states[1].store)
    requires Fed(c.processes, states[2].store) && Fed(c.processes, states[3].store)
    ensures CompiledMoves(c, states, moves)
  {
    forall i | 0 <= i < |states| ensures Fed(c.processes, states[i].store) {
      assert i == 0 || i == 1 || i == 2 || i == 3;
    }
    forall i | 0 <= i < |moves| ensures Deferral.Makes(c.processes, states[i], moves[i], states[i + 1]) {
      assert i == 0 || i == 1 || i == 2;
    }
  }

  function GotoMoves(c: Compiled, a: Node, v: Value, u: Value): seq<Deferral.Move>
    requires START in c.writers
  {
    [Deferral.Given([], [(Start, v)]), Deferral.Ran([EntryTask(c)]), Deferral.Commanded([(BranchTo(a), u)])]
  }

  lemma GotoRun(c: Compiled, a: Node, v: Value, u: Value, s1: Loop, s2: Loop, s3: Loop)
    requires START in c.writers
    requires InputStep(c.processes, FirstLoop(c), [], [(Start, v)], s1)
    requires Superstep(c.processes, s1, [EntryTask(c)], s2)
    requires NullStep(c.processes, s2, [(BranchTo(a), u)], s3)
    requires Fed(c.processes, FirstLoop(c).store) && Fed(c.processes, s1.store)
    requires Fed(c.processes, s2.store) && Fed(c.processes, s3.store)
    ensures CompiledMoves(c, [FirstLoop(c), s1, s2, s3], GotoMoves(c, a, v, u))
  {
    var states, moves := [FirstLoop(c), s1, s2, s3], GotoMoves(c, a, v, u);
    GivenMakes(c.processes, FirstLoop(c), moves[0], s1);
    RanMakes(c.processes, s1, moves[1], s2);
    CommandMakes(c.processes, s2, moves[2], s3);
    ThreeMoves(c, states, moves);
  }

  lemma GivenMakes(procs: Processes, s: Loop, move: Deferral.Move, s': Loop)
    requires move.Given? && InputStep(procs, s, move.discarded, move.input, s')
    ensures Deferral.Makes(procs, s, move, s')
  {}

  lemma RanMakes(procs: Processes, s: Loop, move: Deferral.Move, s': Loop)
    requires move.Ran? && Superstep(procs, s, move.tasks, s')
    ensures Deferral.Makes(procs, s, move, s')
  {}

  lemma CommandMakes(procs: Processes, s: Loop, move: Deferral.Move, s': Loop)
    requires move.Commanded? && NullStep(procs, s, move.writes, s')
    ensures Deferral.Makes(procs, s, move, s')
  {}

  /** In every compiled graph whose entry leads to a deferred node and to no ordinary one, an
      input and then a goto to an ordinary node make both due at once. */
  lemma GotoReached(g: Graph, input: NodeInput, base: map<ChannelName, Channel>, c: Compiled,
          d: Node, a: Node, v: Value, u: Value) returns (states: seq<Loop>)
    requires GraphCompiles(g, input, base, c) && JoinsHaveSources(g) && input.Several? && EntryDefers(g)
    requires (START, d) in g.edges && Deferred(g, d) && a in g.nodes && !Deferred(g, a)
    ensures |states| == 4 && START in c.writers
    ensures CompiledMoves(c, states, GotoMoves(c, a, v, u))
    ensures d in Pull(states[3].store, c.processes, states[3].updated, true)
    ensures a in Pull(states[3].store, c.processes, states[3].updated, true)
  {
    var s1, s2 := EntryRan(g, input, base, c, v);
    DeferredAreDue(g, d, a);
    BranchEmpty(g, input, c, EdgeMeaning.Advance(g, Entered(g)), s2, a);
    var s3 := GotoTaken(c.processes, s2, a, u);
    EntrySettles(g, input, base, c, v, s1, s2);
    EdgeMeaning.DueIsPull(g, c.processes, EdgeMeaning.Advance(g, Entered(g)), s2, true);
    DeferredBeside(g, input, c, s2, d, a, u, s3);
    CompiledFed(g, input, c.processes, s3.store);
    states := [FirstLoop(c), s1, s2, s3];
    GotoRun(c, a, v, u, s1, s2, s3);
  }

  lemma EntryRan(g: Graph, input: NodeInput, base: map<ChannelName, Channel>, c: Compiled, v: Value)
    returns (s1: Loop, s2: Loop)
    requires GraphCompiles(g, input, base, c) && JoinsHaveSources(g) && input.Several?
    ensures START in c.writers && InputStep(c.processes, FirstLoop(c), [], [(Start, v)], s1)
    ensures Superstep(c.processes, s1, [EntryTask(c)], s2)
    ensures EdgeMeaning.Tracks(g, c.processes, EdgeMeaning.Advance(g, Entered(g)), s2)
    ensures Fed(c.processes, FirstLoop(c).store) && Fed(c.processes, s1.store) && Fed(c.processes, s2.store)
  {
    FirstInputRuns(g, input, base, c, v);
    s1 := AfterInput(c.processes, c.channels, v);
    CompiledFed(g, input, c.processes, FirstLoop(c).store);
    CompiledFed(g, input, c.processes, s1.store);
    InputTracks(g, input, base, c, v, s1);
    EntryIsDue(g, input, base, c, s1);
    s2 := EntrySteps(g, input, base, c, s1);
    EntryRuns(g, input, base, c, s1, s2);
    CompiledFed(g, input, c.processes, s2.store);
  }

  lemma EntrySettles(g: Graph, input: NodeInput, base: map<ChannelName, Channel>, c: Compiled, v: Value, s1: Loop,
          s2: Loop)
    requires GraphCompiles(g, input, base, c) && JoinsHaveSources(g) && START in c.writers
    requires InputStep(c.processes, FirstLoop(c), [], [(Start, v)], s1)
    requires Superstep(c.processes, s1, [EntryTask(c)], s2)
    requires Fed(c.processes, FirstLoop(c).store) && Fed(c.processes, s1.store)
    ensures Deferral.Tracks(c.processes, DeferredNodes(g), s2)
  {
    var deferred := DeferredNodes(g);
    CompiledInitial(g, input, base, c);
    CompiledPartitioned(g, input, base, c);
    Deferral.InitialDefers(c.processes, deferred, FirstLoop(c));
    InitiallySound(c.processes, FirstLoop(c));
    Deferral.MoveTracks(c.processes, deferred, FirstLoop(c), Deferral.Given([], [(Start, v)]), s1);
    Deferral.MoveTracks(c.processes, deferred, s1, Deferral.Ran([EntryTask(c)]), s2);
  }

  lemma GraphProcesses(g: Graph, input: NodeInput, procs: Processes)
    requires ProcessesMatch(g, input, procs) && input.Several?
    ensures forall n <- procs ::
      procs[n].runs && (procs[n].input.One? ==> procs[n] == Process({Start}, One(Start), true))
  {
    forall n <- procs
      ensures procs[n].runs && (procs[n].input.One? ==> procs[n] == Process({Start}, One(Start), true))
    {
      assert Lookup(procs, n) == ProcessFor(g, input, n);
    }
  }

  lemma DeferredBeside(g: Graph, input: NodeInput, c: Compiled, s: Loop, d: Node, a: Node, u: Value, s': Loop)
    requires Built(g) && ProcessesMatch(g, input, c.processes) && input.Several?
    requires Deferral.Tracks(c.processes, DeferredNodes(g), s) && Deferred(g, d) && a in g.nodes && !Deferred(g, a)
    requires d in Pull(s.store, c.processes, s.updated, true)
    requires BranchTo(a) in s.store.channels && s.store.channels[BranchTo(a)] == Ephemeral(false, None)
    requires NullStep(c.processes, s, [(BranchTo(a), u)], s')
    ensures d in Pull(s'.store, c.processes, s'.updated, true) && a in Pull(s'.store, c.processes, s'.updated, true)
  {
    GraphProcesses(g, input, c.processes);
    OwnersWake(g, input, c.processes, a, BranchTo(a));
    Deferral.GotoBesideDeferred(c.processes, DeferredNodes(g), s, d, a, u, s');
  }
}
