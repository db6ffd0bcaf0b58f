/** Building a graph of nodes, edges and joins, and compiling it to channels, triggers and
    writers. */
module StateGraphs {
  import opened Channels
  import opened Scheduling

  const START: Node := "__start__"
  const END: Node := "__end__"

  /** `joins` are the waiting edges: a list of sources and one target. */
  datatype Graph = Graph(
    nodes: map<Node, bool>,               // node to whether it is deferred
    edges: set<(Node, Node)>,
    joins: set<(seq<Node>, Node)>)

  datatype Compiled = Compiled(
    processes: Processes,
    writers: map<Node, seq<Write>>,
    channels: map<ChannelName, Channel>)

  /** The character separates parts of namespaces and may not occur in a node's name. */
  predicate ReservedCharacter(ch: char) { ch == '|' || ch == ':' }

  predicate WellSpelled(name: Node) { forall ch <- name :: !ReservedCharacter(ch) }

  /** What adding nodes and edges keeps. */
  ghost predicate Built(g: Graph) {
    && START !in g.nodes && END !in g.nodes
    && (forall n <- g.nodes :: WellSpelled(n))
    && (forall e <- g.edges :: e.0 != END && e.1 != START)
    && (forall j <- g.joins :: (forall s <- j.0 :: s in g.nodes) && j.1 != START)
    && (forall j <- g.joins :: j.1 == END || j.1 in g.nodes)
  }

  /** What `validate` checks. */
  predicate KnownEnds(g: Graph) {
    && (forall e <- g.edges :: (e.0 in g.nodes || e.0 == START) && (e.1 in g.nodes || e.1 == END))
    && (exists e <- g.edges :: e.0 == START)
  }

  // ---------------------------------------------------------------- what compiling must give

  predicate Touches(ws: seq<Write>, c: ChannelName) { exists w <- ws :: w.0 == c }

  /** The writers of a node: null to the branch channel of every direct successor, its own
      name to every join it feeds, and nothing else. */
  ghost predicate WritesEdges(g: Graph, n: Node, ws: seq<Write>) {
    && (forall t :: Touches(ws, BranchTo(t)) <==> (n, t) in g.edges && t != END)
    && (forall ss, e :: Touches(ws, Join(ss, e)) <==> (ss, e) in g.joins && e != END && n in ss)
    && (forall w <- ws :: (w.0.BranchTo? && w.1 == Null) || (w.0.Join? && w.1 == Name(n)))
  }

  ghost function TriggersOf(g: Graph, n: Node): set<ChannelName> {
    {BranchTo(n)} + set j | j in g.joins && j.1 == n :: Join(j.0, n)
  }

  function NamesIn(starts: seq<Node>): set<Node> { set s <- starts }

  function BranchChannel(deferred: bool): Channel {
    if deferred then LastValueAfterFinish(None, false) else Ephemeral(false, None)
  }

  function JoinChannel(starts: seq<Node>, deferred: bool): Channel {
    if deferred then BarrierAfterFinish(NamesIn(starts), {}, false) else Barrier(NamesIn(starts), {})
  }

  /** Only edges write to these, and only they wake nodes. */
  predicate IsEdgeChannel(c: ChannelName) { c.Start? || c.BranchTo? || c.Join? }

  function Lookup<K, V>(m: map<K, V>, k: K): Option<V> { if k in m then Some(m[k]) else None }

  ghost function ProcessFor(g: Graph, input: NodeInput, n: Node): Option<Process> {
    if n == START then Some(Process({Start}, One(Start), true))
    else if n in g.nodes then Some(Process(TriggersOf(g, n), input, true))
    else None
  }

  function ChannelFor(g: Graph, base: map<ChannelName, Channel>, c: ChannelName): Option<Channel> {
    match c
    case Start => Some(Ephemeral(true, None))
    case BranchTo(n) => if n in g.nodes then Some(BranchChannel(g.nodes[n])) else None
    case Join(ss, e) => if (ss, e) in g.joins && e in g.nodes then Some(JoinChannel(ss, g.nodes[e])) else None
    case _ => Lookup(base, c)
  }

  ghost predicate ProcessesMatch(g: Graph, input: NodeInput, procs: Processes) {
    forall n :: Lookup(procs, n) == ProcessFor(g, input, n)
  }

  ghost predicate WritersMatch(g: Graph, writers: map<Node, seq<Write>>) {
    && writers.Keys == g.nodes.Keys + {START}
    && forall n <- writers :: WritesEdges(g, n, writers[n])
  }

  ghost predicate ChannelsMatch(g: Graph, base: map<ChannelName, Channel>, channels: map<ChannelName, Channel>) {
    forall c :: Lookup(channels, c) == ChannelFor(g, base, c)
  }

  /** The compiled graph has exactly the processes, writers and channels the graph asks for;
      `base` holds the channels of the state. */
  ghost predicate Implements(g: Graph, input: NodeInput, base: map<ChannelName, Channel>, c: Compiled) {
    ProcessesMatch(g, input, c.processes) && WritersMatch(g, c.writers) && ChannelsMatch(g, base, c.channels)
  }

  // ---------------------------------------------------------------- the builder

  class StateGraph {
    var nodes: map<Node, bool>
    var edges: set<(Node, Node)>
    var waitingEdges: set<(seq<Node>, Node)>

    ghost function View(): Graph
      reads this
    {
      Graph(nodes, edges, waitingEdges)
    }

    constructor ()
      ensures View() == Graph(map[], {}, {}) && Built(View())
    {
      nodes, edges, waitingEdges := map[], {}, {};
    }

    method AddNode(node: Node, defer_: bool) returns (ok: bool)
      requires Built(View())
      modifies this
      ensures ok <==> old(node !in nodes) && node != START && node != END && WellSpelled(node)
      ensures View() == if ok then old(View()).(nodes := old(nodes)[node := defer_]) else old(View())
      ensures Built(View())
    {
      if node in nodes || node == END || node == START { return false; }
      for i := 0 to |node|
        invariant forall k :: 0 <= k < i ==> !ReservedCharacter(node[k])
        invariant View() == old(View())
      {
        if ReservedCharacter(node[i]) { return false; }
      }
      nodes := nodes[node := defer_];
      ok := true;
    }

    method AddEdge(start: Node, end: Node) returns (ok: bool)
      requires Built(View())
      modifies this
      ensures ok <==> start != END && end != START
      ensures View() == if ok then old(View()).(edges := old(edges) + {(start, end)}) else old(View())
      ensures Built(View())
    {
      if start == END || end == START { return false; }
      edges := edges + {(start, end)};
      ok := true;
    }

    method AddWaitingEdge(starts: seq<Node>, end: Node) returns (ok: bool)
      requires Built(View())
      modifies this
      ensures ok <==>
        (forall s <- starts :: s != END && s in old(nodes)) && end != START && (end == END || end in old(nodes))
      ensures View() == if ok then old(View()).(joins := old(waitingEdges) + {(starts, end)}) else old(View())
      ensures Built(View())
    {
      for i := 0 to |starts|
        invariant forall k :: 0 <= k < i ==> starts[k] != END && starts[k] in nodes
        invariant View() == old(View())
      {
        if starts[i] == END || starts[i] !in nodes { return false; }
      }
      if end == START || (end != END && end !in nodes) { return false; }
      waitingEdges := waitingEdges + {(starts, end)};
      ok := true;
    }

    /** Compiles a graph whose edges start and end at known nodes; refuses any other. */
    method Compile(input: NodeInput, base: map<ChannelName, Channel>) returns (r: Option<CompiledStateGraph>)
      requires Built(View())
      requires forall c <- base :: !IsEdgeChannel(c)
      ensures r.Some? <==> KnownEnds(View())
      ensures r.Some? ==> fresh(r.value) && Implements(View(), input, base, r.value.View())
    {
      if !KnownEnds(Graph(nodes, edges, waitingEdges)) { return None; }
      var compiled := new CompiledStateGraph(input, base);
      compiled.AttachNodes(Graph(nodes, edges, waitingEdges), input, base);
      compiled.AttachEdges(Graph(nodes, edges, waitingEdges), input, base);
      compiled.AttachJoins(Graph(nodes, edges, waitingEdges), input, base);
      r := Some(compiled);
    }
  }

  // ---------------------------------------------------------------- the compiled graph

  class CompiledStateGraph {
    var processes: Processes
    var writers: map<Node, seq<Write>>
    var channels: map<ChannelName, Channel>

    ghost function View(): Compiled
      reads this
    {
      Compiled(processes, writers, channels)
    }

    constructor (input: NodeInput, base: map<ChannelName, Channel>)
      requires forall c <- base :: !IsEdgeChannel(c)
      ensures Implements(Graph(map[], {}, {}), input, base, View())
    {
      processes := map[START := Process({Start}, One(Start), true)];
      writers := map[START := []];
      channels := base[Start := Ephemeral(true, None)];
    }

    method AttachNodes(g: Graph, input: NodeInput, ghost base: map<ChannelName, Channel>)
      requires Implements(Graph(map[], {}, {}), input, base, View()) && START !in g.nodes
      modifies this
      ensures Implements(Graph(g.nodes, {}, {}), input, base, View())
    {
      var todo := g.nodes.Keys;
      ghost var done := Graph(map[], {}, {});
      while todo != {}
        invariant todo <= g.nodes.Keys && done.edges == {} && done.joins == {}
        invariant done.nodes == Without(g.nodes, todo)
        invariant Implements(done, input, base, View())
        decreases todo
      {
        var n :| n in todo;
        AttachNode(done, input, base, n, g.nodes[n]);
        MapStep(g.nodes, todo, n);
        done := done.(nodes := done.nodes[n := g.nodes[n]]);
        todo := todo - {n};
      }
      assert done == Graph(g.nodes, {}, {});
    }

    method AttachEdges(g: Graph, input: NodeInput, ghost base: map<ChannelName, Channel>)
      requires Implements(Graph(g.nodes, {}, {}), input, base, View())
      requires forall e <- g.edges :: e.0 in g.nodes || e.0 == START
      modifies `writers
      ensures Implements(Graph(g.nodes, g.edges, {}), input, base, View())
    {
      var todo := g.edges;
      ghost var done := Graph(g.nodes, {}, {});
      while todo != {}
        invariant todo <= g.edges && done == Graph(g.nodes, g.edges - todo, {})
        invariant Implements(done, input, base, View())
        decreases todo
      {
        var e :| e in todo;
        var (start, end) := e;
        assert start in writers by { assert WritersMatch(done, writers); }
        AttachEdge(done, input, base, start, end);
        SetStep(g.edges, todo, (start, end));
        done := done.(edges := done.edges + {(start, end)});
        todo := todo - {(start, end)};
      }
      assert done == Graph(g.nodes, g.edges, {});
    }

    method AttachJoins(g: Graph, input: NodeInput, ghost base: map<ChannelName, Channel>)
      requires Implements(Graph(g.nodes, g.edges, {}), input, base, View()) && Built(g)
      modifies this
      ensures Implements(g, input, base, View())
    {
      var todo := g.joins;
      ghost var done := Graph(g.nodes, g.edges, {});
      while todo != {}
        invariant todo <= g.joins && done == Graph(g.nodes, g.edges, g.joins - todo)
        invariant Implements(done, input, base, View())
        decreases todo
      {
        var j :| j in todo;
        var (starts, end) := j;
        AttachJoin(done, input, base, starts, end, end != END && g.nodes[end]);
        SetStep(g.joins, todo, (starts, end));
        done := done.(joins := done.joins + {(starts, end)});
        todo := todo - {(starts, end)};
      }
      assert done == g;
    }

    method AttachNode(ghost g: Graph, input: NodeInput, ghost base: map<ChannelName, Channel>, key: Node,
            deferred: bool)
      requires Implements(g, input, base, View()) && g.edges == {} && g.joins == {}
      requires key !in g.nodes && key != START
      modifies this
      ensures Implements(g.(nodes := g.nodes[key := deferred]), input, base, View())
    {
      channels := channels[BranchTo(key) := if deferred then LastValueAfterFinish(None, false)
        else Ephemeral(false, None)];
      processes := processes[key := Process({BranchTo(key)}, input, true)];
      writers := writers[key := []];
      NodeAddsProcess(g, input, old(processes), key, deferred);
      NodeAddsChannel(g, base, old(channels), key, deferred);
      NodeAddsWriter(g, old(writers), key, deferred);
    }

    method AttachEdge(ghost g: Graph, input: NodeInput, ghost base: map<ChannelName, Channel>, start: Node, end: Node)
      requires Implements(g, input, base, View())
      requires start in writers
      modifies `writers
      ensures Implements(g.(edges := g.edges + {(start, end)}), input, base, View())
    {
      ghost var before := writers;
      if end != END {
        writers := writers[start := writers[start] + [(BranchTo(end), Null)]];
      }
      EdgeAddsNothingElse(g, input, base, View(), start, end);
      EdgeAddsWriter(g, before, start, end);
    }

    method AttachJoin(ghost g: Graph, input: NodeInput, ghost base: map<ChannelName, Channel>, starts: seq<Node>,
            end: Node, deferred: bool)
      requires Implements(g, input, base, View()) && START !in g.nodes && END !in g.nodes
      requires forall s <- starts :: s in g.nodes
      requires end == END || (end in g.nodes && deferred == g.nodes[end])
      modifies this
      ensures Implements(g.(joins := g.joins + {(starts, end)}), input, base, View())
    {
      JoinWakes(g, input, processes, starts, end);
      JoinAddsChannel(g, base, channels, starts, end);
      if end != END {
        var name := Join(starts, end);
        channels := channels[name := if deferred then BarrierAfterFinish(set s <- starts, {}, false)
          else Barrier(set s <- starts, {})];
        processes := processes[end := Process(processes[end].triggers + {name}, processes[end].input, true)];
        PublishFrom(starts, name);
      }
      JoinAddsWriters(g, old(writers), writers, starts, end);
    }

    method PublishFrom(starts: seq<Node>, name: ChannelName)
      requires forall s <- starts :: s in writers
      modifies `writers
      ensures writers.Keys == old(writers).Keys
      ensures forall n <- writers :: Extended(old(writers)[n], writers[n], name, n, n in starts)
    {
      for i := 0 to |starts|
        invariant writers.Keys == old(writers).Keys
        invariant forall n <- writers :: Extended(old(writers)[n], writers[n], name, n, n in starts[..i])
      {
        writers := writers[starts[i] := writers[starts[i]] + [(name, Name(starts[i]))]];
        assert starts[..i + 1] == starts[..i] + [starts[i]];
      }
      assert starts[..|starts|] == starts;
    }
  }

  ghost function Without<V>(m: map<Node, V>, todo: set<Node>): map<Node, V> { map n | n in m && n !in todo :: m[n] }

  lemma MapStep<V>(m: map<Node, V>, todo: set<Node>, n: Node)
    requires n in todo && n in m
    ensures Without(m, todo)[n := m[n]] == Without(m, todo - {n})
  {}

  lemma SetStep<T>(all: set<T>, todo: set<T>, x: T)
    requires todo <= all && x in todo
    ensures (all - todo) + {x} == all - (todo - {x})
  {}

  lemma NodeAddsProcess(g: Graph, input: NodeInput, procs: Processes, key: Node, deferred: bool)
    requires ProcessesMatch(g, input, procs) && g.joins == {} && key !in g.nodes && key != START
    ensures ProcessesMatch(g.(nodes := g.nodes[key := deferred]), input,
      procs[key := Process({BranchTo(key)}, input, true)])
  {
    var g' := g.(nodes := g.nodes[key := deferred]);
    forall n ensures Lookup(procs[key := Process({BranchTo(key)}, input, true)], n) == ProcessFor(g', input, n) {
      assert Lookup(procs, n) == ProcessFor(g, input, n);
      assert TriggersOf(g', n) == {BranchTo(n)} == TriggersOf(g, n);
    }
  }

  lemma NodeAddsChannel(g: Graph, base: map<ChannelName, Channel>, channels: map<ChannelName, Channel>, key: Node,
          deferred: bool)
    requires ChannelsMatch(g, base, channels) && g.joins == {}
    ensures ChannelsMatch(g.(nodes := g.nodes[key := deferred]), base,
      channels[BranchTo(key) := BranchChannel(deferred)])
  {
    var g' := g.(nodes := g.nodes[key := deferred]);
    forall c ensures Lookup(channels[BranchTo(key) := BranchChannel(deferred)], c) == ChannelFor(g', base, c) {
      assert Lookup(channels, c) == ChannelFor(g, base, c);
    }
  }

  lemma NodeAddsWriter(g: Graph, writers: map<Node, seq<Write>>, key: Node, deferred: bool)
    requires WritersMatch(g, writers) && g.edges == {} && g.joins == {}
    ensures WritersMatch(g.(nodes := g.nodes[key := deferred]), writers[key := []])
  {
    var g' := g.(nodes := g.nodes[key := deferred]);
    assert WritesEdges(g', key, []);
    forall n <- writers ensures WritesEdges(g', n, writers[n]) { assert WritesEdges(g, n, writers[n]); }
  }

  lemma EdgeAddsNothingElse(g: Graph, input: NodeInput, base: map<ChannelName, Channel>, c: Compiled, start: Node,
          end: Node)
    requires ProcessesMatch(g, input, c.processes) && ChannelsMatch(g, base, c.channels)
    ensures var g' := g.(edges := g.edges + {(start, end)});
      ProcessesMatch(g', input, c.processes) && ChannelsMatch(g', base, c.channels)
  {
    var g' := g.(edges := g.edges + {(start, end)});
    forall n ensures Lookup(c.processes, n) == ProcessFor(g', input, n) {
      assert Lookup(c.processes, n) == ProcessFor(g, input, n);
      assert TriggersOf(g', n) == TriggersOf(g, n);
    }
    forall k ensures Lookup(c.channels, k) == ChannelFor(g', base, k) {
      assert Lookup(c.channels, k) == ChannelFor(g, base, k);
    }
  }

  lemma EdgeAddsWriter(g: Graph, writers: map<Node, seq<Write>>, start: Node, end: Node)
    requires WritersMatch(g, writers) && start in writers
    ensures WritersMatch(g.(edges := g.edges + {(start, end)}),
      if end == END then writers else writers[start := writers[start] + [(BranchTo(end), Null)]])
  {
    var g' := g.(edges := g.edges + {(start, end)});
    var writers' := if end == END then writers else writers[start := writers[start] + [(BranchTo(end), Null)]];
    forall n <- writers' ensures WritesEdges(g', n, writers'[n]) {
      assert WritesEdges(g, n, writers[n]);
      if n == start && end != END { EdgeAdded(g, n, writers[n], end); }
    }
  }

  lemma JoinAddsChannel(g: Graph, base: map<ChannelName, Channel>, channels: map<ChannelName, Channel>,
          starts: seq<Node>, end: Node)
    requires ChannelsMatch(g, base, channels) && END !in g.nodes && (end == END || end in g.nodes)
    ensures var g' := g.(joins := g.joins + {(starts, end)});
      ChannelsMatch(g', base,
        if end == END then channels else channels[Join(starts, end) := JoinChannel(starts, g.nodes[end])])
  {
    var g' := g.(joins := g.joins + {(starts, end)});
    var channels' := if end == END then channels else channels[Join(starts, end) := JoinChannel(starts, g.nodes[end])];
    forall c ensures Lookup(channels', c) == ChannelFor(g', base, c) {
      assert Lookup(channels, c) == ChannelFor(g, base, c);
    }
  }

  lemma JoinAddsWriters(g: Graph, before: map<Node, seq<Write>>, writers: map<Node, seq<Write>>, starts: seq<Node>,
          end: Node)
    requires WritersMatch(g, before) && writers.Keys == before.Keys
    requires end == END ==> writers == before
    requires end != END ==> forall n <- writers :: Extended(before[n], writers[n], Join(starts, end), n, n in starts)
    ensures WritersMatch(g.(joins := g.joins + {(starts, end)}), writers)
  {
    var g' := g.(joins := g.joins + {(starts, end)});
    forall n <- writers ensures WritesEdges(g', n, writers[n]) {
      assert WritesEdges(g, n, before[n]);
      if end != END { JoinAdded(g, n, before[n], writers[n], starts, end); }
    }
  }

  lemma JoinWakes(g: Graph, input: NodeInput, procs: Processes, starts: seq<Node>, end: Node)
    requires ProcessesMatch(g, input, procs) && START !in g.nodes && END !in g.nodes && (end == END || end in g.nodes)
    ensures end == END ==> ProcessesMatch(g.(joins := g.joins + {(starts, end)}), input, procs)
    ensures end != END ==> end in procs
    ensures end != END ==>
      ProcessesMatch(g.(joins := g.joins + {(starts, end)}), input,
                     procs[end := Process(procs[end].triggers + {Join(starts, end)}, procs[end].input, true)])
  {
    var g' := g.(joins := g.joins + {(starts, end)});
    assert Lookup(procs, end) == ProcessFor(g, input, end);
    forall n ensures n != end || end == END ==> Lookup(procs, n) == ProcessFor(g', input, n) {
      assert Lookup(procs, n) == ProcessFor(g, input, n);
      if n != end { assert TriggersOf(g', n) == TriggersOf(g, n); }
    }
    assert TriggersOf(g', end) == TriggersOf(g, end) + {Join(starts, end)};
  }

  lemma EdgeAdded(g: Graph, n: Node, ws: seq<Write>, end: Node)
    requires WritesEdges(g, n, ws) && end != END
    ensures WritesEdges(g.(edges := g.edges + {(n, end)}), n, ws + [(BranchTo(end), Null)])
  {
    var ws' := ws + [(BranchTo(end), Null)];
    forall c ensures Touches(ws', c) <==> Touches(ws, c) || c == BranchTo(end) {
      if c == BranchTo(end) { assert (BranchTo(end), Null) in ws'; }
      if Touches(ws, c) { var w :| w in ws && w.0 == c; assert w in ws'; }
    }
  }

  /** `ws` extends the list `before` by writes of `n` to `name`, some if `fed`, else none. */
  ghost predicate Extended(before: seq<Write>, ws: seq<Write>, name: ChannelName, n: Node, fed: bool) {
    && |before| <= |ws| && ws[..|before|] == before
    && (forall k :: |before| <= k < |ws| ==> ws[k] == (name, Name(n)))
    && (fed <==> |before| < |ws|)
  }

  lemma JoinAdded(g: Graph, n: Node, before: seq<Write>, ws: seq<Write>, starts: seq<Node>, end: Node)
    requires WritesEdges(g, n, before) && end != END
    requires Extended(before, ws, Join(starts, end), n, n in starts)
    ensures WritesEdges(g.(joins := g.joins + {(starts, end)}), n, ws)
  {
    forall c ensures Touches(ws, c) <==> Touches(before, c) || (c == Join(starts, end) && n in starts) {
      if Touches(before, c) { var w :| w in before && w.0 == c; assert w in ws[..|before|]; assert w in ws; }
      if c == Join(starts, end) && n in starts { assert ws[|before|] in ws; }
      if Touches(ws, c) {
        var k :| 0 <= k < |ws| && ws[k].0 == c;
        if k < |before| { assert ws[k] == ws[..|before|][k] == before[k]; }
      }
    }
    forall w <- ws ensures (w.0.BranchTo? && w.1 == Null) || (w.0.Join? && w.1 == Name(n)) {
      var k :| 0 <= k < |ws| && ws[k] == w;
      if k < |before| { assert w == ws[..|before|][k] == before[k]; }
    }
  }
}
