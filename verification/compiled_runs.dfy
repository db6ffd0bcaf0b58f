/** Runs of a compiled graph: which channels wake which node, and when the short search for
    tasks finds all of them. */
module CompiledRuns {
  import opened Channels
  import opened TaskOrder
  import opened Supersteps
  import opened Scheduling
  import opened StateGraphs

  predicate Deferred(g: Graph, n: Node) { n in g.nodes && g.nodes[n] }

  // ---------------------------------------------------------------- triggers and their owners

  predicate IsTrigger(g: Graph, k: ChannelName) {
    match k
    case Start => true
    case BranchTo(n) => n in g.nodes
    case Join(ss, e) => (ss, e) in g.joins && e in g.nodes
    case _ => false
  }

  function Owner(k: ChannelName): Node
    requires IsEdgeChannel(k)
  {
    match k
    case Start => START
    case BranchTo(n) => n
    case Join(_, e) => e
  }

  lemma OwnersWake(g: Graph, input: NodeInput, procs: Processes, n: Node, k: ChannelName)
    requires Built(g) && ProcessesMatch(g, input, procs)
    ensures n in procs <==> n == START || n in g.nodes
    ensures n in procs ==> (k in procs[n].triggers <==> IsTrigger(g, k) && Owner(k) == n)
  {
    assert Lookup(procs, n) == ProcessFor(g, input, n);
  }

  lemma TriggerKeysAre(g: Graph, input: NodeInput, procs: Processes, k: ChannelName)
    requires Built(g) && ProcessesMatch(g, input, procs)
    ensures k in TriggerKeys(procs) <==> IsTrigger(g, k)
  {
    if IsTrigger(g, k) {
      OwnersWake(g, input, procs, Owner(k), k);
      TriggerKey(procs, Owner(k), k);
    } else if k in TriggerKeys(procs) {
      var n :| n in procs && k in procs[n].triggers;
      OwnersWake(g, input, procs, n, k);
    }
  }

  // ---------------------------------------------------------------- compiled runs

  function FirstLoop(c: Compiled): Loop { Loop(Store(c.channels, map[], map[]), None) }

  /** The program's own nodes have names of their own. */
  ghost predicate GraphCompiles(g: Graph, input: NodeInput, base: map<ChannelName, Channel>, c: Compiled) {
    Built(g) && KnownEnds(g) && Implements(g, input, base, c) && INPUT !in g.nodes && INTERRUPT !in g.nodes
  }

  ghost predicate CompiledRun(c: Compiled, states: seq<Loop>) {
    && states != [] && states[0] == FirstLoop(c)
    && (forall i :: 0 <= i < |states| - 1 ==> Next(c.processes, states[i], states[i + 1]))
    && (forall i :: 0 <= i < |states| ==> Fed(c.processes, states[i].store))
  }

  /** In every state the nodes behind updated channels are all there are to find. */
  ghost predicate SearchesAgree(procs: Processes, states: seq<Loop>) {
    forall i :: 0 <= i < |states| ==>
      Pull(states[i].store, procs, states[i].updated, true) == FullScan(states[i].store, procs)
  }

  /** Joins without sources lead to deferred nodes only. */
  ghost predicate JoinsHaveSources(g: Graph) { forall j <- g.joins :: j.0 == [] && j.1 in g.nodes ==> Deferred(g, j.1) }

  lemma InitiallyFresh(g: Graph, input: NodeInput, base: map<ChannelName, Channel>, c: Compiled, k: ChannelName)
    requires Built(g) && Implements(g, input, base, c) && JoinsHaveSources(g) && k in TriggerKeys(c.processes)
    ensures k in c.channels && Fresh(c.channels[k]) && !c.channels[k].Available() && !k.Control?
  {
    TriggerKeysAre(g, input, c.processes, k);
    assert Lookup(c.channels, k) == ChannelFor(g, base, k);
    if k.Join? && k.starts != [] { assert k.starts[0] in NamesIn(k.starts); }
  }

  lemma CompiledInitial(g: Graph, input: NodeInput, base: map<ChannelName, Channel>, c: Compiled)
    requires GraphCompiles(g, input, base, c) && JoinsHaveSources(g)
    ensures Initial(c.processes, FirstLoop(c))
  {
    OwnersWake(g, input, c.processes, INPUT, Start);
    OwnersWake(g, input, c.processes, INTERRUPT, Start);
    forall k <- TriggerKeys(c.processes)
      ensures k in c.channels && Fresh(c.channels[k]) && !c.channels[k].Available() && !k.Control?
    {
      InitiallyFresh(g, input, base, c, k);
    }
  }

  // ---------------------------------------------------------------- the first input

  lemma SingleInput(v: Value, c: ChannelName)
    ensures Batch([NullTask([(Start, v)])], c) == if c == Start then [v] else []
  {
    var tasks, ws: seq<Write> := [NullTask([(Start, v)])], [(Start, v)];
    assert Sort(tasks) == tasks;
    assert tasks[1..] == [] && AllWrites(tasks) == ws + [] == ws;
    assert ws[1..] == [];
    assert Values(ws, c) == (if c == Start then [v] else []) + Values(ws[1..], c);
    assert Values(ws[1..], c) == [];
    assert [v] + [] == [v];
  }

  /** Only the entry channel takes part. */
  lemma InputStages(channels: map<ChannelName, Channel>, v: Value, c: ChannelName)
    requires Start in channels && channels[Start] == Ephemeral(true, None) && c in channels
    ensures Staged(channels[c], [NullTask([(Start, v)])], c)
         == Some(if c == Start then Cell(Ephemeral(true, Some(v)), true, true) else Cell(channels[c], false, false))
  {
    SingleInput(v, c);
  }

  /** The state after the first input, and what it leaves alone. */
  lemma FirstInput(procs: Processes, channels: map<ChannelName, Channel>, v: Value)
    requires Start in channels && channels[Start] == Ephemeral(true, None) && Start in TriggerKeys(procs)
    ensures var st := Store(channels, map[], map[]);
      var r := ApplyWrites(st, [NullTask([(Start, v)])], TriggerKeys(procs));
      && r.Done? && r.updated == {Start} && Start in r.store.versions
      && r.store.seen.Keys == {INPUT}
      && forall c <- channels :: c != Start ==> c in r.store.channels && r.store.channels[c] == channels[c]
  {
    var st, tasks, triggers := Store(channels, map[], map[]), [NullTask([(Start, v)])], TriggerKeys(procs);
    forall c <- channels
      ensures Staged(channels[c], tasks, c)
           == Some(if c == Start then Cell(Ephemeral(true, Some(v)), true, true) else Cell(channels[c], false, false))
    {
      InputStages(channels, v, c);
    }
    assert !Bumps(tasks) && !Refuses(channels, tasks) && !LooksLast(channels, tasks, triggers);
    forall c <- channels
      ensures Final(channels, tasks, triggers, c)
           == if c == Start then Cell(Ephemeral(true, Some(v)), true, true) else Cell(channels[c], false, false)
    {}
    assert UpdatedBy(channels, tasks, triggers) == {Start} && BumpedBy(channels, tasks, triggers) == {Start};
    assert Names(tasks) == {INPUT} by { assert tasks[0] in tasks; }
  }

  /** What the nodes read is there: whatever there is of several channels, or the one channel
      of a state that is a single value. */
  predicate InputThere(input: NodeInput, channels: map<ChannelName, Channel>) {
    input.One? ==> input.c in channels && channels[input.c].Available()
  }

  lemma CompiledFed(g: Graph, input: NodeInput, procs: Processes, st: Store)
    requires Built(g) && ProcessesMatch(g, input, procs) && InputThere(input, st.channels)
    ensures Fed(procs, st)
  {
    forall n <- procs | Triggered(st, procs, n) ensures Yields(st, procs[n]) {
      assert Lookup(procs, n) == ProcessFor(g, input, n);
      var k :| k in procs[n].triggers && Offers(st, n, k);
    }
  }

  ghost predicate HasEntry(procs: Processes, channels: map<ChannelName, Channel>) {
    Start in channels && channels[Start] == Ephemeral(true, None) && Start in TriggerKeys(procs)
  }

  /** The loop after the first input of a new thread. */
  ghost function AfterInput(procs: Processes, channels: map<ChannelName, Channel>, v: Value): Loop
    requires HasEntry(procs, channels)
  {
    FirstInput(procs, channels, v);
    var r := ApplyWrites(Store(channels, map[], map[]), [NullTask([(Start, v)])], TriggerKeys(procs));
    Loop(r.store, Some(r.updated))
  }

  lemma InputRuns(c: Compiled, v: Value)
    requires HasEntry(c.processes, c.channels)
    requires Fed(c.processes, FirstLoop(c).store) && Fed(c.processes, AfterInput(c.processes, c.channels, v).store)
    ensures InputStep(c.processes, FirstLoop(c), [], [(Start, v)], AfterInput(c.processes, c.channels, v))
    ensures CompiledRun(c, [FirstLoop(c), AfterInput(c.processes, c.channels, v)])
  {
    var s, s' := FirstLoop(c), AfterInput(c.processes, c.channels, v);
    FirstInput(c.processes, c.channels, v);
    assert [] + [NullTask([(Start, v)])] == [NullTask([(Start, v)])];
    assert Pull(s.store, c.processes, None, false) == {};
    assert InputStep(c.processes, s, [], [(Start, v)], s');
  }

  lemma InputStays(procs: Processes, channels: map<ChannelName, Channel>, input: NodeInput, v: Value)
    requires HasEntry(procs, channels) && InputThere(input, channels)
    ensures InputThere(input, AfterInput(procs, channels, v).store.channels)
  {
    FirstInput(procs, channels, v);
  }

  lemma FirstInputRuns(g: Graph, input: NodeInput, base: map<ChannelName, Channel>, c: Compiled, v: Value)
    requires GraphCompiles(g, input, base, c) && InputThere(input, c.channels)
    ensures HasEntry(c.processes, c.channels)
    ensures InputStep(c.processes, FirstLoop(c), [], [(Start, v)], AfterInput(c.processes, c.channels, v))
    ensures CompiledRun(c, [FirstLoop(c), AfterInput(c.processes, c.channels, v)])
  {
    CompiledEntry(g, input, base, c);
    InputStays(c.processes, c.channels, input, v);
    CompiledFed(g, input, c.processes, FirstLoop(c).store);
    CompiledFed(g, input, c.processes, AfterInput(c.processes, c.channels, v).store);
    InputRuns(c, v);
  }

  /** The full scan finds the node, the short search does not. */
  ghost predicate Missed(procs: Processes, s: Loop, e: Node) {
    e in FullScan(s.store, procs) && e !in Pull(s.store, procs, s.updated, true)
  }

  /** A channel that is available from the start, and that no input updates. */
  lemma AvailableFromTheStart(procs: Processes, channels: map<ChannelName, Channel>, e: Node, k: ChannelName, v: Value)
    requires HasEntry(procs, channels) && e in procs && Start !in procs[e].triggers && e != INPUT
    requires k in procs[e].triggers && k in channels && channels[k].Available()
    requires procs[e].runs && InputThere(procs[e].input, channels)
    ensures Missed(procs, AfterInput(procs, channels, v), e)
  {
    var s' := AfterInput(procs, channels, v);
    FirstInput(procs, channels, v);
    InputStays(procs, channels, procs[e].input, v);
    assert Offers(s'.store, e, k);
    assert procs[e].triggers * s'.updated.value == {};
  }

  lemma CompiledEntry(g: Graph, input: NodeInput, base: map<ChannelName, Channel>, c: Compiled)
    requires GraphCompiles(g, input, base, c)
    ensures HasEntry(c.processes, c.channels)
  {
    OwnersWake(g, input, c.processes, START, Start);
    TriggerKey(c.processes, START, Start);
    assert Lookup(c.channels, Start) == ChannelFor(g, base, Start);
  }

  lemma EmptyJoinAvailable(g: Graph, input: NodeInput, base: map<ChannelName, Channel>, c: Compiled, e: Node)
    requires GraphCompiles(g, input, base, c)
    requires ([], e) in g.joins && e in g.nodes && !Deferred(g, e)
    ensures Join([], e) in c.channels && c.channels[Join([], e)].Available()
    ensures e in c.processes && Start !in c.processes[e].triggers && Join([], e) in c.processes[e].triggers
    ensures c.processes[e].runs && c.processes[e].input == input
  {
    OwnersWake(g, input, c.processes, e, Join([], e));
    OwnersWake(g, input, c.processes, e, Start);
    assert Lookup(c.channels, Join([], e)) == ChannelFor(g, base, Join([], e));
    assert Lookup(c.processes, e) == ProcessFor(g, input, e);
    assert NamesIn([]) == {};
  }

  /** A join without sources into an ordinary node is available from the start, and nothing
      ever updates it: after the first input the full scan finds its target and the short
      search does not. */
  lemma EmptyJoinIsMissed(g: Graph, input: NodeInput, base: map<ChannelName, Channel>, c: Compiled, e: Node, v: Value)
    requires GraphCompiles(g, input, base, c) && InputThere(input, c.channels)
    requires ([], e) in g.joins && e in g.nodes && !Deferred(g, e)
    ensures HasEntry(c.processes, c.channels)
    ensures CompiledRun(c, [FirstLoop(c), AfterInput(c.processes, c.channels, v)])
    ensures Missed(c.processes, AfterInput(c.processes, c.channels, v), e)
  {
    FirstInputRuns(g, input, base, c, v);
    EmptyJoinAvailable(g, input, base, c, e);
    AvailableFromTheStart(c.processes, c.channels, e, Join([], e), v);
  }

  lemma MissedDisagrees(procs: Processes, s: Loop, s': Loop, e: Node)
    requires Missed(procs, s', e)
    ensures !SearchesAgree(procs, [s, s'])
  {
    assert [s, s'][1] == s';
  }

  lemma RunsAgree(g: Graph, input: NodeInput, base: map<ChannelName, Channel>, c: Compiled, states: seq<Loop>)
    requires GraphCompiles(g, input, base, c) && JoinsHaveSources(g) && CompiledRun(c, states)
    ensures SearchesAgree(c.processes, states)
  {
    CompiledInitial(g, input, base, c);
    assert Run(c.processes, states);
    forall i | 0 <= i < |states|
      ensures Pull(states[i].store, c.processes, states[i].updated, true) == FullScan(states[i].store, c.processes)
    {
      CandidatesAreEnough(c.processes, states, i);
    }
  }

  lemma SomeRunDisagrees(g: Graph, input: NodeInput, base: map<ChannelName, Channel>, c: Compiled, e: Node)
    requires GraphCompiles(g, input, base, c) && InputThere(input, c.channels)
    requires ([], e) in g.joins && e in g.nodes && !Deferred(g, e)
    ensures exists states: seq<Loop> :: CompiledRun(c, states) && !SearchesAgree(c.processes, states)
  {
    EmptyJoinIsMissed(g, input, base, c, e, Null);
    MissedDisagrees(c.processes, FirstLoop(c), AfterInput(c.processes, c.channels, Null), e);
  }

  /** Looking only behind updated channels finds every task, in every state of every run of a
      compiled graph, exactly if no join into an ordinary node is without sources. */
  lemma SearchesAgreeExactly(g: Graph, input: NodeInput, base: map<ChannelName, Channel>, c: Compiled)
    requires GraphCompiles(g, input, base, c) && InputThere(input, c.channels)
    ensures (forall states: seq<Loop> :: CompiledRun(c, states) ==> SearchesAgree(c.processes, states)) <==>
      JoinsHaveSources(g)
  {
    if JoinsHaveSources(g) {
      forall states: seq<Loop> | CompiledRun(c, states) ensures SearchesAgree(c.processes, states) {
        RunsAgree(g, input, base, c, states);
      }
    } else {
      var j :| j in g.joins && j.0 == [] && j.1 in g.nodes && !Deferred(g, j.1);
      SomeRunDisagrees(g, input, base, c, j.1);
    }
  }
}
