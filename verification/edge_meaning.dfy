/** What a compiled graph does, step by step: the channels, versions and triggers amount to
    walking along the edges. */
module EdgeMeaning {
  import opened Channels
  import opened TaskOrder
  import opened Supersteps
  import opened Scheduling
  import opened StateGraphs
  import opened CompiledRuns
  import Deferral

  type JoinEdge = (seq<Node>, Node)

  ghost predicate NoPackets(tasks: seq<Task>) { forall t <- tasks :: !IsPush(t) }

  // ---------------------------------------------------------------- walking along the edges

  /** `due` are the nodes that run now; `waiting` the deferred nodes reached by a direct edge
      since they last ran; `arrived` the sources of each join that ran since it last fired. */
  datatype Walk = Walk(due: set<Node>, waiting: set<Node>, arrived: map<JoinEdge, set<Node>>)

  function Successors(g: Graph, ran: set<Node>): set<Node> {
    set e | e in g.edges && e.0 in ran && e.1 != END :: e.1
  }

  /** Complete joins fire with their target and start over. */
  function AfterFiring(g: Graph, w: Walk): map<JoinEdge, set<Node>> {
    map j | j in w.arrived :: if w.arrived[j] == NamesIn(j.0) && j.1 in w.due then {} else w.arrived[j]
  }

  function AfterArrival(g: Graph, w: Walk): map<JoinEdge, set<Node>> {
    map j | j in w.arrived :: AfterFiring(g, w)[j] + (w.due * NamesIn(j.0))
  }

  function Complete(arrived: map<JoinEdge, set<Node>>): set<Node> {
    set j | j in arrived && arrived[j] == NamesIn(j.0) :: j.1
  }

  /** Direct successors of what just ran, and targets of joins now complete. */
  function Reached(g: Graph, w: Walk): set<Node> { Successors(g, w.due) + Complete(AfterArrival(g, w)) }

  function OrdinaryReached(g: Graph, w: Walk): set<Node> { set n | n in Reached(g, w) && !Deferred(g, n) }

  function WaitingAfter(g: Graph, w: Walk): set<Node> {
    (w.waiting - w.due) + set n | n in Successors(g, w.due) && Deferred(g, n)
  }

  /** One superstep: ordinary nodes first; deferred nodes only once none is left. */
  function Advance(g: Graph, w: Walk): Walk {
    var ordinary := OrdinaryReached(g, w);
    var complete := set n | n in Complete(AfterArrival(g, w)) && Deferred(g, n);
    Walk(if ordinary != {} then ordinary else WaitingAfter(g, w) + complete, WaitingAfter(g, w), AfterArrival(g, w))
  }

  /** New input: what was due is dropped and the walk starts again at the entry. */
  function Restart(g: Graph, w: Walk): Walk { Walk({START}, w.waiting - w.due, AfterFiring(g, w)) }

  function NotStarted(g: Graph): Walk {
    Walk({}, {}, map j | j in g.joins && j.1 in g.nodes :: {})
  }

  datatype StepKind = Step | NewInput | Idle

  function WalkOn(g: Graph, w: Walk, kind: StepKind): Walk {
    match kind
    case Step => Advance(g, w)
    case NewInput => Restart(g, w)
    case Idle => w
  }

  function WalkAt(g: Graph, kinds: seq<StepKind>): Walk {
    if kinds == [] then NotStarted(g)
    else WalkOn(g, WalkAt(g, kinds[..|kinds| - 1]), kinds[|kinds| - 1])
  }

  // ---------------------------------------------------------------- runs of a compiled graph

  /** A node's task: whatever it wrote to the state, and what its writers add. */
  ghost predicate GraphTask(c: Compiled, t: Task) {
    && t.name in c.writers
    && exists own: seq<Write> :: t.writes == own + c.writers[t.name] && forall w <- own :: w.0.State?
  }

  ghost predicate KindOfStep(c: Compiled, s: Loop, kind: StepKind, s': Loop) {
    match kind
    case Step =>
      exists tasks ::
        Superstep(c.processes, s, tasks, s') && NoPackets(tasks) && forall t <- tasks :: GraphTask(c, t)
    case NewInput =>
      exists discarded, v ::
        && InputStep(c.processes, s, discarded, [(Start, v)], s') && NoPackets(discarded)
        && forall t: Task <- discarded :: t.writes == []
    case Idle =>
      || ResumeStep(s, s')
      || LoadStep(s, s')
      || exists writes :: Deferral.Quiet(c.processes, writes) && NullStep(c.processes, s, writes, s')
  }

  ghost predicate GraphRun(g: Graph, input: NodeInput, base: map<ChannelName, Channel>, c: Compiled,
                           states: seq<Loop>, kinds: seq<StepKind>) {
    && GraphCompiles(g, input, base, c) && JoinsHaveSources(g)
    && |states| == |kinds| + 1 && states[0] == FirstLoop(c)
    && (forall i :: 0 <= i < |kinds| ==> KindOfStep(c, states[i], kinds[i], states[i + 1]))
    && (forall i :: 0 <= i < |states| ==> Fed(c.processes, states[i].store))
  }

  // ---------------------------------------------------------------- the correspondence

  /** What the walk says a trigger channel holds. */
  ghost predicate Holds(g: Graph, w: Walk, c: ChannelName, ch: Channel) {
    match c
    case Start => ch.Ephemeral? && ch.guard
    case BranchTo(n) =>
      if Deferred(g, n) then
        && ch.LastValueAfterFinish?
        && (ch.late.Some? <==> n in w.waiting)
        && (ch.finished <==> n in w.waiting && n in w.due)
      else ch.Ephemeral? && !ch.guard
    case Join(ss, e) =>
      && (ss, e) in w.arrived
      && if Deferred(g, e) then
           && ch.BarrierAfterFinish? && ch.names == NamesIn(ss) && ch.seen == w.arrived[(ss, e)]
           && (ch.finished <==> ch.seen == ch.names && e in w.due)
         else ch.Barrier? && ch.names == NamesIn(ss) && ch.seen == w.arrived[(ss, e)]
    case _ => true
  }

  /** What every walk keeps: only deferred nodes wait, and a complete join of an ordinary
      node has sources and is about to fire. */
  ghost predicate Sensible(g: Graph, w: Walk) {
    && w.arrived.Keys == (set j | j in g.joins && j.1 in g.nodes)
    && w.due <= g.nodes.Keys + {START}
    && (forall n <- w.waiting :: Deferred(g, n))
    && (forall j <- w.arrived :: Deferred(g, j.1) || (j.0 != [] && (w.arrived[j] == NamesIn(j.0) ==> j.1 in w.due)))
  }

  ghost predicate Matches(g: Graph, procs: Processes, w: Walk, st: Store) {
    && Sensible(g, w)
    && (forall c <- TriggerKeys(procs) :: c in st.channels && Holds(g, w, c, st.channels[c]))
    && (forall n, c :: n in procs && c in procs[n].triggers && c in st.channels && st.channels[c].Available() ==>
      Offers(st, n, c))
    && (forall n :: n in w.due <==> n in procs && Triggered(st, procs, n))
  }

  // ---------------------------------------------------------------- what the tasks do to a channel

  /** The batch a channel gets when the due nodes ran, or when new input came in. */
  ghost predicate Effects(g: Graph, w: Walk, tasks: seq<Task>, started: bool) {
    && (Bumps(tasks) <==> w.due != {})
    && (forall k :: IsTrigger(g, k) ==> (ReadBy(tasks, k) <==> Owner(k) in w.due))
    && (forall k :: IsTrigger(g, k) ==> BatchIs(g, w, k, Batch(tasks, k), started))
  }

  ghost predicate BatchIs(g: Graph, w: Walk, k: ChannelName, batch: seq<Value>, started: bool) {
    match k
    case Start => |batch| == if started then 1 else 0
    case BranchTo(n) => batch != [] <==> !started && n in Successors(g, w.due)
    case Join(ss, _) =>
      && AllKnown(batch, NamesIn(ss))
      && NodesOf(batch) == if started then {} else w.due * NamesIn(ss)
    case _ => true
  }

  function WaitingThen(g: Graph, w: Walk, started: bool): set<Node> {
    if started then w.waiting - w.due else WaitingAfter(g, w)
  }

  function ArrivedThen(g: Graph, w: Walk, started: bool): map<JoinEdge, set<Node>> {
    if started then AfterFiring(g, w) else AfterArrival(g, w)
  }

  /** A trigger channel of an ordinary node (or of the entry) that has something new. */
  ghost predicate Lit(g: Graph, w: Walk, k: ChannelName, started: bool) {
    match k
    case Start => started
    case BranchTo(n) => !Deferred(g, n) && !started && n in Successors(g, w.due)
    case Join(ss, e) => (ss, e) in w.arrived && !Deferred(g, e) && ArrivedThen(g, w, started)[(ss, e)] == NamesIn(ss)
    case _ => false
  }

  /** What a trigger channel holds just before the run is checked for having finished. */
  ghost predicate StagedIs(g: Graph, w: Walk, k: ChannelName, cell: Cell, started: bool) {
    && (cell.channel.Available() <==> Lit(g, w, k, started))
    && (cell.updated <==> Lit(g, w, k, started))
    && (Lit(g, w, k, started) ==> cell.bumped)
    && match k
       case Start => cell.channel.Ephemeral? && cell.channel.guard
       case BranchTo(n) =>
         if Deferred(g, n) then
           cell.channel.LastValueAfterFinish? && !cell.channel.finished
           && (cell.channel.late.Some? <==> n in WaitingThen(g, w, started))
         else cell.channel.Ephemeral? && !cell.channel.guard
       case Join(ss, e) =>
         && (ss, e) in w.arrived
         && if Deferred(g, e) then cell.channel == BarrierAfterFinish(NamesIn(ss),
           ArrivedThen(g, w, started)[(ss, e)], false)
            else cell.channel == Barrier(NamesIn(ss), ArrivedThen(g, w, started)[(ss, e)])
       case _ => true
  }

  lemma StagedBranch(g: Graph, w: Walk, ch: Channel, tasks: seq<Task>, k: ChannelName, started: bool)
    requires Effects(g, w, tasks, started) && IsTrigger(g, k) && !k.Join?
    requires Holds(g, w, k, ch) && (ch.Available() ==> Owner(k) in w.due)
    ensures Staged(ch, tasks, k).Some? && StagedIs(g, w, k, Staged(ch, tasks, k).value, started)
  {
    assert BatchIs(g, w, k, Batch(tasks, k), started);
  }

  function Restarted(seen: set<Node>, names: set<Node>, fired: bool): set<Node> {
    if fired && seen == names then {} else seen
  }

  lemma BarrierWritten(names: set<Node>, seen: set<Node>, bumped: bool, batch: seq<Value>)
    requires AllKnown(batch, names)
    ensures var more := !(NodesOf(batch) <= seen);
      Written(Cell(Barrier(names, seen), bumped, false), batch) ==
        Some(Cell(Barrier(names, seen + NodesOf(batch)), bumped || more, more && seen + NodesOf(batch) == names))
  {
    if batch == [] { assert seen + NodesOf(batch) == seen; }
  }

  lemma BarrierNotified(names: set<Node>, seen: set<Node>, bumped: bool, updated: bool, bump: bool)
    ensures var cell := Cell(Barrier(names, seen), bumped, updated); Notified(cell, bump) == cell
  {
    assert seen + NodesOf([]) == seen && NodesOf([]) <= seen;
  }

  lemma BarrierStaged(ch: Channel, tasks: seq<Task>, k: ChannelName)
    requires ch.Barrier? && ch.names != {} && AllKnown(Batch(tasks, k), ch.names)
    requires ch.seen == ch.names ==> ReadBy(tasks, k)
    ensures var seen' := Restarted(ch.seen, ch.names, ReadBy(tasks, k)) + NodesOf(Batch(tasks, k));
      var full := seen' == ch.names;
      && Staged(ch, tasks, k).Some?
      && Staged(ch, tasks, k).value.channel == Barrier(ch.names, seen')
      && (Staged(ch, tasks, k).value.updated <==> full)
      && (full ==> Staged(ch, tasks, k).value.bumped)
  {
    var batch, read := Batch(tasks, k), ReadBy(tasks, k);
    var seen, fired := Restarted(ch.seen, ch.names, read), read && ch.seen == ch.names;
    assert Consumed(ch, read) == Cell(Barrier(ch.names, seen), fired, false);
    BarrierWritten(ch.names, seen, fired, batch);
    var more := !(NodesOf(batch) <= seen);
    BarrierNotified(ch.names, seen + NodesOf(batch), fired || more, more &&
      seen + NodesOf(batch) == ch.names, Bumps(tasks));
    if !more { assert seen + NodesOf(batch) == seen; }
  }

  lemma LateBarrierWritten(names: set<Node>, seen: set<Node>, bumped: bool, batch: seq<Value>)
    requires AllKnown(batch, names)
    ensures Written(Cell(BarrierAfterFinish(names, seen, false), bumped, false), batch) ==
      Some(Cell(BarrierAfterFinish(names, seen + NodesOf(batch), false), bumped || !(NodesOf(batch) <= seen), false))
  {
    if batch == [] { assert seen + NodesOf(batch) == seen; }
  }

  lemma LateBarrierStaged(ch: Channel, tasks: seq<Task>, k: ChannelName)
    requires ch.BarrierAfterFinish? && AllKnown(Batch(tasks, k), ch.names)
    requires ch.finished <==> ch.seen == ch.names && ReadBy(tasks, k)
    ensures var seen' := Restarted(ch.seen, ch.names, ReadBy(tasks, k)) + NodesOf(Batch(tasks, k));
      && Staged(ch, tasks, k).Some?
      && Staged(ch, tasks, k).value.channel == BarrierAfterFinish(ch.names, seen', false)
      && !Staged(ch, tasks, k).value.updated
  {
    var seen := Restarted(ch.seen, ch.names, ReadBy(tasks, k));
    assert Consumed(ch, ReadBy(tasks, k)) == Cell(BarrierAfterFinish(ch.names, seen, false), ch.finished, false);
    LateBarrierWritten(ch.names, seen, ch.finished, Batch(tasks, k));
  }

  lemma StagedJoin(g: Graph, w: Walk, ch: Channel, tasks: seq<Task>, k: ChannelName, started: bool)
    requires Effects(g, w, tasks, started) && IsTrigger(g, k) && k.Join? && JoinsHaveSources(g)
    requires Holds(g, w, k, ch) && (ch.Available() ==> Owner(k) in w.due)
    ensures Staged(ch, tasks, k).Some? && StagedIs(g, w, k, Staged(ch, tasks, k).value, started)
  {
    var j := (k.starts, k.end);
    assert BatchIs(g, w, k, Batch(tasks, k), started);
    assert ReadBy(tasks, k) <==> k.end in w.due;
    if Deferred(g, k.end) {
      LateBarrierStaged(ch, tasks, k);
    } else {
      assert k.starts[0] in NamesIn(k.starts);
      BarrierStaged(ch, tasks, k);
    }
    assert AfterFiring(g, w)[j] == Restarted(w.arrived[j], NamesIn(k.starts), k.end in w.due);
    assert ArrivedThen(g, w, started)[j] == AfterFiring(g, w)[j] + NodesOf(Batch(tasks, k));
  }

  lemma StagedAt(g: Graph, w: Walk, ch: Channel, tasks: seq<Task>, k: ChannelName, started: bool)
    requires Effects(g, w, tasks, started) && IsTrigger(g, k) && JoinsHaveSources(g)
    requires Holds(g, w, k, ch) && (ch.Available() ==> Owner(k) in w.due)
    ensures Staged(ch, tasks, k).Some? && StagedIs(g, w, k, Staged(ch, tasks, k).value, started)
  {
    if k.Join? { StagedJoin(g, w, ch, tasks, k, started); } else { StagedBranch(g, w, ch, tasks, k, started); }
  }

  // ---------------------------------------------------------------- the batches of a step

  lemma {:induction false} ValuesMember(ws: seq<Write>, c: ChannelName, v: Value)
    ensures v in Values(ws, c) <==> (c, v) in ws
  {
    if ws != [] { ValuesMember(ws[1..], c, v); }
  }

  lemma {:induction false} WritesMember(tasks: seq<Task>, x: Write)
    ensures x in AllWrites(tasks) <==> exists t <- tasks :: x in t.writes
  {
    if tasks != [] { WritesMember(tasks[1..], x); }
  }

  lemma {:induction false} InsertKeepsWrites(t: Task, s: seq<Task>)
    ensures multiset(AllWrites(Insert(t, s))) == multiset(t.writes) + multiset(AllWrites(s))
  {
    if s == [] || Le(t, s[0]) {
      assert ([t] + s)[1..] == s;
    } else {
      InsertKeepsWrites(t, s[1..]);
      assert Insert(t, s)[1..] == Insert(t, s[1..]);
    }
  }

  lemma {:induction false} SortKeepsWrites(tasks: seq<Task>)
    ensures multiset(AllWrites(Sort(tasks))) == multiset(AllWrites(tasks))
  {
    if tasks != [] {
      SortKeepsWrites(tasks[1..]);
      InsertKeepsWrites(tasks[0], Sort(tasks[1..]));
    }
  }

  lemma BatchMember(tasks: seq<Task>, c: ChannelName, v: Value)
    ensures v in Batch(tasks, c) <==> !c.Control? && exists t <- tasks :: (c, v) in t.writes
  {
    ValuesMember(AllWrites(Sort(tasks)), c, v);
    SortKeepsWrites(tasks);
    assert (c, v) in AllWrites(Sort(tasks)) <==> (c, v) in multiset(AllWrites(Sort(tasks)));
    assert (c, v) in AllWrites(tasks) <==> (c, v) in multiset(AllWrites(tasks));
    WritesMember(tasks, (c, v));
  }

  /** The tasks are those of the due nodes. */
  ghost predicate DueTasks(procs: Processes, w: Walk, tasks: seq<Task>) {
    TasksFor(procs, w.due, tasks) && NoPackets(tasks)
  }

  lemma EdgeWrite(g: Graph, c: Compiled, t: Task, k: ChannelName, v: Value)
    requires WritersMatch(g, c.writers) && GraphTask(c, t) && IsEdgeChannel(k) && (k, v) in t.writes
    ensures (k, v) in c.writers[t.name]
  {}

  lemma BranchBatch(g: Graph, c: Compiled, w: Walk, tasks: seq<Task>, n: Node)
    requires WritersMatch(g, c.writers) && DueTasks(c.processes, w, tasks) && (forall t <- tasks :: GraphTask(c, t))
    requires n != END
    ensures Batch(tasks, BranchTo(n)) != [] <==> n in Successors(g, w.due)
  {
    var k := BranchTo(n);
    if Batch(tasks, k) != [] {
      var v := Batch(tasks, k)[0];
      BatchMember(tasks, k, v);
      var t :| t in tasks && (k, v) in t.writes;
      EdgeWrite(g, c, t, k, v);
      assert Touches(c.writers[t.name], k);
      assert (t.name, n) in g.edges;
    }
    if n in Successors(g, w.due) {
      var e :| e in g.edges && e.0 in w.due && e.1 != END && e.1 == n;
      var t :| t in tasks && t.name == e.0 && e.0 in c.processes && t.triggers == c.processes[e.0].triggers;
      assert GraphTask(c, t) && (t.name, n) in g.edges;
      assert Touches(c.writers[t.name], k);
      var x :| x in c.writers[t.name] && x.0 == k;
      assert (k, x.1) in t.writes;
      BatchMember(tasks, k, x.1);
    }
  }

  lemma JoinBatch(g: Graph, c: Compiled, w: Walk, tasks: seq<Task>, ss: seq<Node>, e: Node)
    requires WritersMatch(g, c.writers) && DueTasks(c.processes, w, tasks) && (forall t <- tasks :: GraphTask(c, t))
    requires (ss, e) in g.joins && e != END
    ensures AllKnown(Batch(tasks, Join(ss, e)), NamesIn(ss))
    ensures NodesOf(Batch(tasks, Join(ss, e))) == w.due * NamesIn(ss)
  {
    var k := Join(ss, e);
    var batch := Batch(tasks, k);
    forall v <- batch ensures v.Name? && v.node in NamesIn(ss) && v.node in w.due {
      BatchMember(tasks, k, v);
      var t :| t in tasks && (k, v) in t.writes;
      EdgeWrite(g, c, t, k, v);
      assert Touches(c.writers[t.name], k);
    }
    forall n | n in w.due * NamesIn(ss) ensures n in NodesOf(batch) {
      var t :| t in tasks && t.name == n && n in c.processes && t.triggers == c.processes[n].triggers;
      assert GraphTask(c, t) && n in ss;
      assert Touches(c.writers[n], k);
      var x :| x in c.writers[n] && x.0 == k;
      assert (k, Name(n)) in t.writes;
      BatchMember(tasks, k, Name(n));
      assert Name(n) in batch;
    }
  }

  lemma SomeMember(batch: seq<Value>)
    ensures batch == [] || exists v :: v in batch
  {
    if batch != [] { assert batch[0] in batch; }
  }

  lemma StartBatch(g: Graph, c: Compiled, tasks: seq<Task>)
    requires WritersMatch(g, c.writers) && forall t <- tasks :: GraphTask(c, t)
    ensures Batch(tasks, Start) == []
  {
    forall t, x | t in tasks && x in t.writes ensures x.0 != Start {
      assert x.0.State? || x in c.writers[t.name];
    }
    var batch := Batch(tasks, Start);
    forall v ensures v !in batch { BatchMember(tasks, Start, v); }
    SomeMember(batch);
  }

  lemma DueRead(g: Graph, input: NodeInput, procs: Processes, w: Walk, due: seq<Task>, tasks: seq<Task>)
    requires Built(g) && ProcessesMatch(g, input, procs) && DueTasks(procs, w, due) && w.due <= procs.Keys
    requires forall t <- due :: t in tasks
    requires forall t <- tasks :: t in due || t.triggers == {}
    ensures Bumps(tasks) <==> w.due != {}
    ensures forall k :: IsTrigger(g, k) ==> (ReadBy(tasks, k) <==> Owner(k) in w.due)
  {
    forall n | n in w.due ensures exists t <- due ::
      t in tasks && t.name == n && t.triggers == procs[n].triggers && t.triggers != {} {
      OwnersWake(g, input, procs, n, if n == START then Start else BranchTo(n));
      var t :| t in due && t.name == n && t.triggers == procs[n].triggers;
    }
    forall k | IsTrigger(g, k) ensures ReadBy(tasks, k) <==> Owner(k) in w.due {
      forall n ensures n in procs ==> (k in procs[n].triggers <==> Owner(k) == n) { OwnersWake(g, input, procs, n, k); }
    }
  }

  lemma StepEffects(g: Graph, input: NodeInput, c: Compiled, w: Walk, tasks: seq<Task>)
    requires Built(g) && ProcessesMatch(g, input, c.processes) && WritersMatch(g, c.writers)
    requires DueTasks(c.processes, w, tasks) && w.due <= c.processes.Keys && forall t <- tasks :: GraphTask(c, t)
    ensures Effects(g, w, tasks, false)
  {
    DueRead(g, input, c.processes, w, tasks, tasks);
    forall k | IsTrigger(g, k) ensures BatchIs(g, w, k, Batch(tasks, k), false) {
      match k
      case Start => StartBatch(g, c, tasks);
      case BranchTo(n) => BranchBatch(g, c, w, tasks, n);
      case Join(ss, e) => JoinBatch(g, c, w, tasks, ss, e);
      case _ =>
    }
  }

  lemma {:induction false} NoWritesFrom(tasks: seq<Task>, last: Task)
    requires forall t <- tasks :: t.writes == []
    ensures AllWrites(tasks + [last]) == last.writes
  {
    if tasks != [] {
      assert (tasks + [last])[1..] == tasks[1..] + [last];
      NoWritesFrom(tasks[1..], last);
    } else {
      assert ([last])[1..] == [];
    }
  }

  lemma RestartBatch(discarded: seq<Task>, v: Value, k: ChannelName)
    requires !k.Control? && forall t <- discarded :: t.writes == []
    ensures Batch(discarded + [NullTask([(Start, v)])], k) == if k == Start then [v] else []
  {
    var tasks := discarded + [NullTask([(Start, v)])];
    NoWritesFrom(discarded, NullTask([(Start, v)]));
    SortKeepsWrites(tasks);
    var ws := AllWrites(Sort(tasks));
    assert |ws| == |multiset(ws)| == 1;
    assert ws[0] in multiset(ws);
    assert ws == [(Start, v)] && ws[1..] == [];
    assert Values(ws[1..], k) == [] && [v] + [] == [v];
    assert Values(ws, k) == if k == Start then [v] else [];
  }

  lemma RestartEffects(g: Graph, input: NodeInput, c: Compiled, w: Walk, discarded: seq<Task>, v: Value)
    requires Built(g) && ProcessesMatch(g, input, c.processes)
    requires DueTasks(c.processes, w, discarded) && w.due <= c.processes.Keys && forall t <- discarded :: t.writes == []
    ensures Effects(g, w, discarded + [NullTask([(Start, v)])], true)
  {
    var tasks := discarded + [NullTask([(Start, v)])];
    DueRead(g, input, c.processes, w, discarded, tasks);
    forall k | IsTrigger(g, k) ensures BatchIs(g, w, k, Batch(tasks, k), true) { RestartBatch(discarded, v, k); }
  }

  // ---------------------------------------------------------------- one step of the simulation

  function WalkThen(g: Graph, w: Walk, started: bool): Walk {
    if started then Restart(g, w) else Advance(g, w)
  }

  ghost predicate AllStagedIs(g: Graph, w: Walk, channels: map<ChannelName, Channel>, tasks: seq<Task>, started: bool) {
    forall k :: IsTrigger(g, k) ==>
      k in channels && Staged(channels[k], tasks, k).Some? &&
        StagedIs(g, w, k, Staged(channels[k], tasks, k).value, started)
  }

  lemma StagesMatch(g: Graph, input: NodeInput, procs: Processes, w: Walk, st: Store, tasks: seq<Task>, started: bool)
    requires Built(g) && ProcessesMatch(g, input, procs) && JoinsHaveSources(g)
    requires Matches(g, procs, w, st) && Effects(g, w, tasks, started)
    ensures AllStagedIs(g, w, st.channels, tasks, started)
  {
    forall k | IsTrigger(g, k)
      ensures k in st.channels && Staged(st.channels[k], tasks, k).Some?
              && StagedIs(g, w, k, Staged(st.channels[k], tasks, k).value, started)
    {
      TriggerKeysAre(g, input, procs, k);
      OwnersWake(g, input, procs, Owner(k), k);
      assert st.channels[k].Available() ==> Triggered(st, procs, Owner(k));
      StagedAt(g, w, st.channels[k], tasks, k, started);
    }
  }

  lemma LitMeansReached(g: Graph, w: Walk, n: Node)
    requires Built(g) && KnownEnds(g) && Sensible(g, w)
    ensures n in OrdinaryReached(g, w) <==> exists k :: IsTrigger(g, k) && Owner(k) == n && Lit(g, w, k, false)
  {
    if n in Successors(g, w.due) && !Deferred(g, n) {
      assert Lit(g, w, BranchTo(n), false) && IsTrigger(g, BranchTo(n));
    }
    if n in Complete(AfterArrival(g, w)) && !Deferred(g, n) {
      var j :| j in AfterArrival(g, w) && AfterArrival(g, w)[j] == NamesIn(j.0) && j.1 == n;
      assert Lit(g, w, Join(j.0, n), false) && IsTrigger(g, Join(j.0, n));
    }
    if k :| IsTrigger(g, k) && Owner(k) == n && Lit(g, w, k, false) {
      if k.Join? { assert (k.starts, n) in AfterArrival(g, w); }
    }
  }

  /** The run looks finished exactly when the walk has only deferred nodes left. */
  lemma LastMatches(g: Graph, input: NodeInput, procs: Processes, w: Walk, channels: map<ChannelName, Channel>,
          tasks: seq<Task>, started: bool)
    requires Built(g) && KnownEnds(g) && ProcessesMatch(g, input, procs) && !Refuses(channels, tasks)
    requires Sensible(g, w)
    requires Effects(g, w, tasks, started) && AllStagedIs(g, w, channels, tasks, started)
    ensures LooksLast(channels, tasks, TriggerKeys(procs)) <==> w.due != {} && !started && OrdinaryReached(g, w) == {}
  {
    if started {
      TriggerKeysAre(g, input, procs, Start);
      assert IsTrigger(g, Start) && Lit(g, w, Start, true);
      assert Staged(channels[Start], tasks, Start).value.updated;
    } else if n :| n in OrdinaryReached(g, w) {
      LitMeansReached(g, w, n);
      var k :| IsTrigger(g, k) && Owner(k) == n && Lit(g, w, k, false);
      TriggerKeysAre(g, input, procs, k);
      assert Staged(channels[k], tasks, k).value.updated;
    } else {
      forall k <- channels | k in TriggerKeys(procs) ensures !Staged(channels[k], tasks, k).value.updated {
        TriggerKeysAre(g, input, procs, k);
        LitMeansReached(g, w, Owner(k));
      }
    }
  }

  /** What a trigger channel holds after the step. */
  ghost predicate FinalIs(g: Graph, w: Walk, w': Walk, k: ChannelName, cell: Cell, started: bool, last: bool)
    requires IsTrigger(g, k)
  {
    && Holds(g, w', k, cell.channel)
    && (cell.channel.Available() ==> cell.bumped)
    && (cell.channel.Available() <==> Lit(g, w, k, started) || (last && Stirred(g, w', k)))
  }

  /** A trigger channel of a deferred node with something in it. */
  ghost predicate Stirred(g: Graph, w': Walk, k: ChannelName) {
    match k
    case BranchTo(n) => Deferred(g, n) && n in w'.waiting
    case Join(ss, e) => Deferred(g, e) && (ss, e) in w'.arrived && w'.arrived[(ss, e)] == NamesIn(ss)
    case _ => false
  }

  lemma StirredMeansDue(g: Graph, w: Walk, n: Node)
    requires Sensible(g, w) && OrdinaryReached(g, w) == {}
    requires Built(g) && KnownEnds(g)
    ensures n in Advance(g, w).due && Deferred(g, n) <==> exists k ::
      IsTrigger(g, k) && Owner(k) == n && Stirred(g, Advance(g, w), k)
  {
    var w' := Advance(g, w);
    if n in WaitingAfter(g, w) && Deferred(g, n) { assert Stirred(g, w', BranchTo(n)) && IsTrigger(g, BranchTo(n)); }
    if n in Complete(AfterArrival(g, w)) && Deferred(g, n) {
      var j :| j in AfterArrival(g, w) && AfterArrival(g, w)[j] == NamesIn(j.0) && j.1 == n;
      assert Stirred(g, w', Join(j.0, n)) && IsTrigger(g, Join(j.0, n));
    }
    if k :| IsTrigger(g, k) && Owner(k) == n && Stirred(g, w', k) {
      if k.Join? { assert (k.starts, n) in AfterArrival(g, w); }
    }
  }

  lemma FinalOrdinary(g: Graph, w: Walk, cell: Cell, k: ChannelName, started: bool, last: bool)
    requires Built(g) && Sensible(g, w) && IsTrigger(g, k) && !Deferred(g, Owner(k))
    requires StagedIs(g, w, k, cell, started)
    ensures FinalIs(g, w, WalkThen(g, w, started), k, Finished(cell, last), started, last)
  {}

  lemma FinalDeferred(g: Graph, w: Walk, cell: Cell, k: ChannelName, started: bool)
    requires Built(g) && KnownEnds(g) && Sensible(g, w) && IsTrigger(g, k) && Deferred(g, Owner(k))
    requires StagedIs(g, w, k, cell, started)
    ensures var last := !started && OrdinaryReached(g, w) == {};
      FinalIs(g, w, WalkThen(g, w, started), k, Finished(cell, last), started, last)
  {
    var n := Owner(k);
    if !started && OrdinaryReached(g, w) == {} {
      var w' := Advance(g, w);
      StirredMeansDue(g, w, n);
      if Stirred(g, w', k) { assert n in w'.due; }
    } else {
      assert n !in WalkThen(g, w, started).due;
    }
  }

  lemma FinalAt(g: Graph, input: NodeInput, procs: Processes, w: Walk, channels: map<ChannelName, Channel>,
          tasks: seq<Task>, started: bool, k: ChannelName)
    requires Built(g) && KnownEnds(g) && ProcessesMatch(g, input, procs) && !Refuses(channels, tasks)
    requires Sensible(g, w) && Effects(g, w, tasks, started) && AllStagedIs(g, w, channels, tasks, started)
    requires started || w.due != {}
    requires IsTrigger(g, k) && k in channels
    ensures FinalIs(g, w, WalkThen(g, w, started), k, Final(channels, tasks, TriggerKeys(procs), k), started,
                    !started && OrdinaryReached(g, w) == {})
  {
    LastMatches(g, input, procs, w, channels, tasks, started);
    var cell := Staged(channels[k], tasks, k).value;
    if Deferred(g, Owner(k)) {
      FinalDeferred(g, w, cell, k, started);
    } else {
      FinalOrdinary(g, w, cell, k, started, !started && OrdinaryReached(g, w) == {});
    }
  }

  lemma DueAfter(g: Graph, w: Walk, started: bool, n: Node)
    requires Built(g) && KnownEnds(g) && Sensible(g, w)
    ensures n in WalkThen(g, w, started).due <==>
      exists k :: IsTrigger(g, k) && Owner(k) == n &&
        (Lit(g, w, k, started) || (!started && OrdinaryReached(g, w) == {} && Stirred(g, WalkThen(g, w, started), k)))
  {
    if started {
      assert IsTrigger(g, Start) && Lit(g, w, Start, true);
      forall k | IsTrigger(g, k) && k.Join? ensures !Lit(g, w, k, true) {
        if (k.starts, k.end) in w.arrived && !Deferred(g, k.end) { assert k.starts[0] in NamesIn(k.starts); }
      }
    } else if OrdinaryReached(g, w) != {} {
      LitMeansReached(g, w, n);
    } else {
      LitMeansReached(g, w, n);
      StirredMeansDue(g, w, n);
      assert n in Advance(g, w).due ==> Deferred(g, n);
    }
  }

  lemma SensibleAfter(g: Graph, w: Walk, started: bool)
    requires Built(g) && KnownEnds(g) && Sensible(g, w)
    ensures Sensible(g, WalkThen(g, w, started))
  {
    var w' := WalkThen(g, w, started);
    assert forall n <- Reached(g, w) :: n in g.nodes;
    forall j <- w'.arrived | w'.arrived[j] == NamesIn(j.0) && !Deferred(g, j.1) ensures j.1 in w'.due {
      assert j.0[0] in NamesIn(j.0);
      if !started {
        assert j.1 in Complete(AfterArrival(g, w));
        assert j.1 in OrdinaryReached(g, w);
      }
    }
  }

  /** One superstep of the machine, or one new input, is one step of the walk. */
  lemma Simulates(g: Graph, input: NodeInput, procs: Processes, w: Walk, st: Store, tasks: seq<Task>, started: bool)
    requires Built(g) && KnownEnds(g) && ProcessesMatch(g, input, procs) && JoinsHaveSources(g)
    requires Sound(procs, st) && Matches(g, procs, w, st) && Effects(g, w, tasks, started) && (started || w.due != {})
    requires ApplyWrites(st, tasks, TriggerKeys(procs)).Done?
    ensures Matches(g, procs, WalkThen(g, w, started), ApplyWrites(st, tasks, TriggerKeys(procs)).store)
  {
    var st' := ApplyWrites(st, tasks, TriggerKeys(procs)).store;
    var w' := WalkThen(g, w, started);
    var last := !started && OrdinaryReached(g, w) == {};
    StagesMatch(g, input, procs, w, st, tasks, started);
    SensibleAfter(g, w, started);
    forall k | IsTrigger(g, k)
      ensures k in st'.channels && Holds(g, w', k, st'.channels[k])
      ensures st'.channels[k].Available() ==> Offers(st', Owner(k), k)
      ensures st'.channels[k].Available() <==> Lit(g, w, k, started) || (last && Stirred(g, w', k))
    {
      ResultAt(st, tasks, TriggerKeys(procs), k);
      FinalAt(g, input, procs, w, st.channels, tasks, started, k);
      if Owner(k) in SeenAfter(st, tasks) && k in SeenAfter(st, tasks)[Owner(k)] { SeenIsOld(st, tasks, Owner(k), k); }
    }
    MatchesFrom(g, input, procs, w, started, st');
  }

  lemma MatchesFrom(g: Graph, input: NodeInput, procs: Processes, w: Walk, started: bool, st': Store)
    requires Built(g) && KnownEnds(g) && ProcessesMatch(g, input, procs) && Sensible(g, w)
    requires Sensible(g, WalkThen(g, w, started))
    requires forall k :: IsTrigger(g, k) ==> k in st'.channels && Holds(g, WalkThen(g, w, started), k, st'.channels[k])
    requires forall k :: IsTrigger(g, k) && st'.channels[k].Available() ==> Offers(st', Owner(k), k)
    requires forall k :: IsTrigger(g, k) ==> (st'.channels[k].Available() <==>
      Lit(g, w, k, started) || (!started && OrdinaryReached(g, w) == {} && Stirred(g, WalkThen(g, w, started), k)))
    ensures Matches(g, procs, WalkThen(g, w, started), st')
  {
    var w' := WalkThen(g, w, started);
    forall c <- TriggerKeys(procs) ensures c in st'.channels && Holds(g, w', c, st'.channels[c]) {
      TriggerKeysAre(g, input, procs, c);
    }
    forall n, c | n in procs && c in procs[n].triggers
      ensures c in st'.channels && IsTrigger(g, c) && Owner(c) == n &&
        (st'.channels[c].Available() ==> Offers(st', n, c))
    {
      OwnersWake(g, input, procs, n, c);
    }
    forall n ensures n in w'.due <==> n in procs && Triggered(st', procs, n) {
      DueAfter(g, w, started, n);
      if n in w'.due {
        var k :| IsTrigger(g, k) && Owner(k) == n &&
          (Lit(g, w, k, started) || (!started && OrdinaryReached(g, w) == {} && Stirred(g, w', k)));
        OwnersWake(g, input, procs, n, k);
        assert Offers(st', n, k);
      }
      if n in procs && Triggered(st', procs, n) {
        var k :| k in procs[n].triggers && Offers(st', n, k);
        assert IsTrigger(g, k) && Owner(k) == n && st'.channels[k].Available();
      }
    }
  }

  // ---------------------------------------------------------------- whole runs

  lemma InitiallyHolds(g: Graph, input: NodeInput, base: map<ChannelName, Channel>, c: Compiled, k: ChannelName)
    requires GraphCompiles(g, input, base, c) && k in TriggerKeys(c.processes)
    ensures k in c.channels && Holds(g, NotStarted(g), k, c.channels[k])
  {
    TriggerKeysAre(g, input, c.processes, k);
    ChannelIs(g, input, base, c, k);
    NewHolds(g, base, k);
  }

  lemma ChannelIs(g: Graph, input: NodeInput, base: map<ChannelName, Channel>, c: Compiled, k: ChannelName)
    requires Implements(g, input, base, c)
    ensures Lookup(c.channels, k) == ChannelFor(g, base, k)
  {}

  /** Before the first input the walk is nowhere, and each trigger is new. */
  lemma NewHolds(g: Graph, base: map<ChannelName, Channel>, k: ChannelName)
    requires IsTrigger(g, k)
    ensures ChannelFor(g, base, k).Some? && Holds(g, NotStarted(g), k, ChannelFor(g, base, k).value)
  {}

  lemma InitiallyMatches(g: Graph, input: NodeInput, base: map<ChannelName, Channel>, c: Compiled)
    requires GraphCompiles(g, input, base, c) && JoinsHaveSources(g)
    ensures Initial(c.processes, FirstLoop(c)) && Matches(g, c.processes, NotStarted(g), FirstLoop(c).store)
  {
    CompiledInitial(g, input, base, c);
    forall k <- TriggerKeys(c.processes)
      ensures k in c.channels && !c.channels[k].Available() && Holds(g, NotStarted(g), k, c.channels[k])
    {
      InitiallyHolds(g, input, base, c, k);
    }
    forall n, k | n in c.processes && k in c.processes[n].triggers ensures !Offers(FirstLoop(c).store, n, k) {
      TriggerKey(c.processes, n, k);
    }
    forall j <- NotStarted(g).arrived | !Deferred(g, j.1) ensures NamesIn(j.0) != {} { assert j.0[0] in NamesIn(j.0); }
  }

  lemma IdleMatches(g: Graph, procs: Processes, w: Walk, st: Store, st': Store)
    requires Matches(g, procs, w, st) && Deferral.SameOffers(procs, st, st')
    ensures Matches(g, procs, w, st')
  {
    forall n, c | n in procs && c in procs[n].triggers ensures c in TriggerKeys(procs) { TriggerKey(procs, n, c); }
  }

  lemma DueIsPull(g: Graph, procs: Processes, w: Walk, s: Loop, indexed: bool)
    requires Sound(procs, s.store) && Covered(procs, s) && Fed(procs, s.store) && Matches(g, procs, w, s.store)
    ensures Pull(s.store, procs, s.updated, indexed) == w.due
    ensures w.due <= procs.Keys
  {
    CoveredFindsAll(procs, s, indexed);
    forall n | n in w.due ensures n in FullScan(s.store, procs) {
      var c :| c in procs[n].triggers && Offers(s.store, n, c);
      TriggerKey(procs, n, c);
    }
  }

  lemma StepMatches(g: Graph, input: NodeInput, c: Compiled, base: map<ChannelName, Channel>, w: Walk, s: Loop,
          kind: StepKind, s': Loop)
    requires Built(g) && KnownEnds(g) && Implements(g, input, base, c) && JoinsHaveSources(g)
    requires Sound(c.processes, s.store) && Covered(c.processes, s) && Fed(c.processes, s.store)
    requires Matches(g, c.processes, w, s.store) && KindOfStep(c, s, kind, s')
    ensures Next(c.processes, s, s')
    ensures Matches(g, c.processes, WalkOn(g, w, kind), s'.store)
  {
    var procs := c.processes;
    match kind
    case Step =>
      var tasks :| Superstep(procs, s, tasks, s') && NoPackets(tasks) && forall t <- tasks :: GraphTask(c, t);
      DueIsPull(g, procs, w, s, true);
      assert tasks[0] in tasks;
      StepEffects(g, input, c, w, tasks);
      Simulates(g, input, procs, w, s.store, tasks, false);
    case NewInput =>
      var discarded, v :|
        && InputStep(procs, s, discarded, [(Start, v)], s') && NoPackets(discarded)
        && forall t: Task <- discarded :: t.writes == [];
      DueIsPull(g, procs, w, s, false);
      RestartEffects(g, input, c, w, discarded, v);
      Simulates(g, input, procs, w, s.store, discarded + [NullTask([(Start, v)])], true);
    case Idle =>
      if ResumeStep(s, s') {
        Deferral.ResumeSame(procs, s, s');
      } else if !LoadStep(s, s') {
        var writes :| Deferral.Quiet(procs, writes) && NullStep(procs, s, writes, s');
        Deferral.QuietSame(procs, s, writes, s');
      }
      IdleMatches(g, procs, w, s.store, s'.store);
  }

  ghost predicate Tracks(g: Graph, procs: Processes, w: Walk, s: Loop) {
    Sound(procs, s.store) && Covered(procs, s) && Matches(g, procs, w, s.store)
  }

  lemma StepTracks(g: Graph, input: NodeInput, c: Compiled, base: map<ChannelName, Channel>, w: Walk, s: Loop,
          kind: StepKind, s': Loop)
    requires Built(g) && KnownEnds(g) && Implements(g, input, base, c) && JoinsHaveSources(g)
    requires Tracks(g, c.processes, w, s) && Fed(c.processes, s.store) && KindOfStep(c, s, kind, s')
    ensures Tracks(g, c.processes, WalkOn(g, w, kind), s')
  {
    StepMatches(g, input, c, base, w, s, kind, s');
    NextKeeps(c.processes, s, s');
  }

  lemma GraphRunAt(g: Graph, input: NodeInput, base: map<ChannelName, Channel>, c: Compiled,
                   states: seq<Loop>, kinds: seq<StepKind>, i: nat)
    requires GraphRun(g, input, base, c, states, kinds) && i < |kinds|
    ensures KindOfStep(c, states[i], kinds[i], states[i + 1]) && Fed(c.processes, states[i].store)
  {}

  lemma WalkAtStep(g: Graph, kinds: seq<StepKind>, i: nat)
    requires i < |kinds|
    ensures WalkAt(g, kinds[..i + 1]) == WalkOn(g, WalkAt(g, kinds[..i]), kinds[i])
  {
    assert kinds[..i + 1][..i] == kinds[..i];
  }

  lemma InitiallyTracks(g: Graph, input: NodeInput, base: map<ChannelName, Channel>, c: Compiled)
    requires GraphCompiles(g, input, base, c) && JoinsHaveSources(g)
    ensures Tracks(g, c.processes, NotStarted(g), FirstLoop(c))
  {
    InitiallyMatches(g, input, base, c);
    InitiallySound(c.processes, FirstLoop(c));
  }

  lemma TracksNext(g: Graph, input: NodeInput, base: map<ChannelName, Channel>, c: Compiled,
                   states: seq<Loop>, kinds: seq<StepKind>, i: nat)
    requires GraphRun(g, input, base, c, states, kinds) && i < |kinds|
    requires Tracks(g, c.processes, WalkAt(g, kinds[..i]), states[i])
    ensures Tracks(g, c.processes, WalkAt(g, kinds[..i + 1]), states[i + 1])
  {
    GraphRunAt(g, input, base, c, states, kinds, i);
    WalkAtStep(g, kinds, i);
    StepTracks(g, input, c, base, WalkAt(g, kinds[..i]), states[i], kinds[i], states[i + 1]);
  }

  lemma {:induction false} RunTracks(g: Graph, input: NodeInput, base: map<ChannelName, Channel>, c: Compiled,
                                     states: seq<Loop>, kinds: seq<StepKind>, i: nat)
    requires GraphRun(g, input, base, c, states, kinds) && i < |states|
    ensures Tracks(g, c.processes, WalkAt(g, kinds[..i]), states[i])
  {
    if i == 0 {
      InitiallyTracks(g, input, base, c);
    } else {
      RunTracks(g, input, base, c, states, kinds, i - 1);
      TracksNext(g, input, base, c, states, kinds, i - 1);
    }
  }

  /** After any number of supersteps and new inputs, the nodes the scheduler runs next are
      exactly those the walk along the edges has reached. */
  lemma RunsAlongEdges(g: Graph, input: NodeInput, base: map<ChannelName, Channel>, c: Compiled,
                       states: seq<Loop>, kinds: seq<StepKind>, i: nat)
    requires GraphRun(g, input, base, c, states, kinds) && i < |states|
    ensures Pull(states[i].store, c.processes, states[i].updated, true) == WalkAt(g, kinds[..i]).due
  {
    RunTracks(g, input, base, c, states, kinds, i);
    assert Fed(c.processes, states[i].store);
    DueIsPull(g, c.processes, WalkAt(g, kinds[..i]), states[i], true);
  }

  // ---------------------------------------------------------------- the walk, told from its history

  /** What was due in each state of a run. */
  ghost function Dues(c: Compiled, states: seq<Loop>): (r: seq<set<Node>>)
    ensures |r| == |states|
    ensures forall i :: 0 <= i < |states| ==> r[i] == Pull(states[i].store, c.processes, states[i].updated, true)
  {
    seq(|states|, i requires 0 <= i < |states| => Pull(states[i].store, c.processes, states[i].updated, true))
  }

  /** The node ran in the superstep from state `m`. */
  predicate Ran(dues: seq<set<Node>>, kinds: seq<StepKind>, n: Node, m: nat)
    requires m < |kinds| <= |dues|
  {
    kinds[m].Step? && n in dues[m]
  }

  /** Before state `n` the source ran, and the join has not fired since. */
  ghost predicate SeenSince(dues: seq<set<Node>>, kinds: seq<StepKind>, j: JoinEdge, source: Node, n: nat)
    requires n <= |kinds| <= |dues|
    decreases n, 0
  {
    exists m :: 0 <= m < n && Ran(dues, kinds, source, m) && forall k :: m < k < n ==> !Fires(dues, kinds, j, k)
  }

  /** The join fires in state `k`: all its sources ran since it last fired, and its target runs
      or is dropped. */
  ghost predicate Fires(dues: seq<set<Node>>, kinds: seq<StepKind>, j: JoinEdge, k: nat)
    requires k < |kinds| <= |dues|
    decreases k, 1
  {
    !kinds[k].Idle? && j.1 in dues[k] && forall s <- j.0 :: SeenSince(dues, kinds, j, s, k)
  }

  /** Some direct predecessor ran in the superstep from state `m`. */
  ghost predicate Pointed(g: Graph, dues: seq<set<Node>>, kinds: seq<StepKind>, n: Node, m: nat)
    requires m < |kinds| <= |dues|
  {
    exists e <- g.edges :: e.1 == n && Ran(dues, kinds, e.0, m)
  }

  /** Some join into the node had all its sources run since it last fired. */
  ghost predicate Joined(g: Graph, dues: seq<set<Node>>, kinds: seq<StepKind>, n: Node, i: nat)
    requires i <= |kinds| <= |dues|
  {
    exists j <- g.joins :: j.1 == n && forall s <- j.0 :: SeenSince(dues, kinds, j, s, i)
  }

  /** A direct predecessor ran some time before state `i`, and the node has not been due since. */
  ghost predicate Waits(g: Graph, dues: seq<set<Node>>, kinds: seq<StepKind>, n: Node, i: nat)
    requires i <= |kinds| <= |dues|
  {
    exists m :: 0 <= m < i && Pointed(g, dues, kinds, n, m) && forall k :: m < k < i ==> kinds[k].Idle? || n !in dues[k]
  }

  lemma SeenOneMore(dues: seq<set<Node>>, kinds: seq<StepKind>, j: JoinEdge, source: Node, n: nat)
    requires n < |kinds| <= |dues|
    ensures SeenSince(dues, kinds, j, source, n + 1) <==>
      Ran(dues, kinds, source, n) || (SeenSince(dues, kinds, j, source, n) && !Fires(dues, kinds, j, n))
  {
    if m :| 0 <= m < n + 1 && Ran(dues, kinds, source, m) && forall k :: m < k < n + 1 ==> !Fires(dues, kinds, j, k) {
      assert m < n ==> !Fires(dues, kinds, j, n);
    }
    if m :| 0 <= m < n && Ran(dues, kinds, source, m) && forall k :: m < k < n ==> !Fires(dues, kinds, j, k) {
      assert !Fires(dues, kinds, j, n) ==> forall k :: m < k < n + 1 ==> !Fires(dues, kinds, j, k);
    }
  }

  lemma WaitsOneMore(g: Graph, dues: seq<set<Node>>, kinds: seq<StepKind>, n: Node, i: nat)
    requires i < |kinds| <= |dues|
    ensures Waits(g, dues, kinds, n, i + 1) <==>
      Pointed(g, dues, kinds, n, i) || (Waits(g, dues, kinds, n, i) && (kinds[i].Idle? || n !in dues[i]))
  {
    if m :| 0 <= m < i && Pointed(g, dues, kinds, n, m) && forall k :: m < k < i ==> kinds[k].Idle? || n !in dues[k] {
      assert kinds[i].Idle? || n !in dues[i] ==> forall k :: m < k < i + 1 ==> kinds[k].Idle? || n !in dues[k];
    }
  }

  ghost predicate DuesOfWalk(g: Graph, dues: seq<set<Node>>, kinds: seq<StepKind>) {
    |dues| == |kinds| + 1 && forall i :: 0 <= i <= |kinds| ==> dues[i] == WalkAt(g, kinds[..i]).due
  }

  lemma {:induction false} ArrivedKeys(g: Graph, kinds: seq<StepKind>)
    ensures WalkAt(g, kinds).arrived.Keys == set j | j in g.joins && j.1 in g.nodes
  {
    if kinds != [] { ArrivedKeys(g, kinds[..|kinds| - 1]); }
  }

  lemma JoinFires(g: Graph, dues: seq<set<Node>>, kinds: seq<StepKind>, w: Walk, j: JoinEdge, n: nat)
    requires n < |kinds| <= |dues| && !kinds[n].Idle? && j in w.arrived && dues[n] == w.due
    requires forall s :: s in w.arrived[j] <==> s in NamesIn(j.0) && SeenSince(dues, kinds, j, s, n)
    ensures Fires(dues, kinds, j, n) <==> w.arrived[j] == NamesIn(j.0) && j.1 in w.due
  {
    if Fires(dues, kinds, j, n) { assert w.arrived[j] == NamesIn(j.0); }
    if w.arrived[j] == NamesIn(j.0) {
      forall s <- j.0 ensures SeenSince(dues, kinds, j, s, n) { assert s in NamesIn(j.0); }
    }
  }

  lemma ArrivedNext(g: Graph, dues: seq<set<Node>>, kinds: seq<StepKind>, w: Walk, j: JoinEdge, s: Node, n: nat)
    requires n < |kinds| <= |dues| && dues[n] == w.due && j in w.arrived
    requires s in w.arrived[j] <==> s in NamesIn(j.0) && SeenSince(dues, kinds, j, s, n)
    requires !kinds[n].Idle? ==> (Fires(dues, kinds, j, n) <==> w.arrived[j] == NamesIn(j.0) && j.1 in w.due)
    ensures j in WalkOn(g, w, kinds[n]).arrived
    ensures s in WalkOn(g, w, kinds[n]).arrived[j] <==> s in NamesIn(j.0) && SeenSince(dues, kinds, j, s, n + 1)
  {
    SeenOneMore(dues, kinds, j, s, n);
  }

  /** What has arrived at a join are the sources that ran since it last fired. */
  lemma {:induction false} ArrivedMeans(g: Graph, dues: seq<set<Node>>, kinds: seq<StepKind>, j: JoinEdge, n: nat)
    requires DuesOfWalk(g, dues, kinds) && n <= |kinds| && j in g.joins && j.1 in g.nodes
    ensures j in WalkAt(g, kinds[..n]).arrived
    ensures forall s :: s in WalkAt(g, kinds[..n]).arrived[j] <==> s in NamesIn(j.0) && SeenSince(dues, kinds, j, s, n)
  {
    ArrivedKeys(g, kinds[..n]);
    if n > 0 {
      ArrivedMeans(g, dues, kinds, j, n - 1);
      WalkAtStep(g, kinds, n - 1);
      var w := WalkAt(g, kinds[..n - 1]);
      if !kinds[n - 1].Idle? { JoinFires(g, dues, kinds, w, j, n - 1); }
      forall s ensures s in WalkAt(g, kinds[..n]).arrived[j] <==> s in NamesIn(j.0) && SeenSince(dues, kinds, j, s, n) {
        ArrivedNext(g, dues, kinds, w, j, s, n - 1);
      }
    }
  }

  lemma PointedIsSuccessor(g: Graph, dues: seq<set<Node>>, kinds: seq<StepKind>, n: Node, m: nat)
    requires m < |kinds| <= |dues| && n != END
    ensures Pointed(g, dues, kinds, n, m) <==> kinds[m].Step? && n in Successors(g, dues[m])
  {
    if e :| e in g.edges && e.1 == n && Ran(dues, kinds, e.0, m) { assert n in Successors(g, dues[m]); }
  }

  lemma JoinedIsComplete(g: Graph, dues: seq<set<Node>>, kinds: seq<StepKind>, n: Node, i: nat)
    requires DuesOfWalk(g, dues, kinds) && i <= |kinds| && n in g.nodes
    ensures Joined(g, dues, kinds, n, i) <==> n in Complete(WalkAt(g, kinds[..i]).arrived)
  {
    var arrived := WalkAt(g, kinds[..i]).arrived;
    ArrivedKeys(g, kinds[..i]);
    forall j | j in g.joins && j.1 == n
      ensures (forall s <- j.0 :: SeenSince(dues, kinds, j, s, i)) <==> arrived[j] == NamesIn(j.0)
    {
      ArrivedMeans(g, dues, kinds, j, i);
      if arrived[j] == NamesIn(j.0) { forall s <- j.0 ensures SeenSince(dues, kinds, j, s,
        i) { assert s in NamesIn(j.0); } }
    }
  }

  lemma WaitingNext(g: Graph, dues: seq<set<Node>>, kinds: seq<StepKind>, w: Walk, n: Node, i: nat)
    requires i < |kinds| <= |dues| && dues[i] == w.due && Deferred(g, n) && n != END
    requires n in w.waiting <==> Waits(g, dues, kinds, n, i)
    ensures n in WalkOn(g, w, kinds[i]).waiting <==> Waits(g, dues, kinds, n, i + 1)
  {
    WaitsOneMore(g, dues, kinds, n, i);
    PointedIsSuccessor(g, dues, kinds, n, i);
  }

  lemma {:induction false} OnlyDeferredWait(g: Graph, kinds: seq<StepKind>, n: Node)
    ensures n in WalkAt(g, kinds).waiting ==> Deferred(g, n)
  {
    if kinds != [] { OnlyDeferredWait(g, kinds[..|kinds| - 1], n); }
  }

  /** The deferred nodes that wait are those pointed to since they were last due. */
  lemma {:induction false} WaitingMeans(g: Graph, dues: seq<set<Node>>, kinds: seq<StepKind>, n: Node, i: nat)
    requires DuesOfWalk(g, dues, kinds) && i <= |kinds| && Deferred(g, n) && n != END
    ensures n in WalkAt(g, kinds[..i]).waiting <==> Waits(g, dues, kinds, n, i)
  {
    if i > 0 {
      WaitingMeans(g, dues, kinds, n, i - 1);
      WalkAtStep(g, kinds, i - 1);
      WaitingNext(g, dues, kinds, WalkAt(g, kinds[..i - 1]), n, i - 1);
    }
  }

  /** Pointed to in the superstep from state `i`, or joined by its end. */
  ghost predicate ReachedBy(g: Graph, dues: seq<set<Node>>, kinds: seq<StepKind>, n: Node, i: nat)
    requires i < |kinds| <= |dues|
  {
    Pointed(g, dues, kinds, n, i) || Joined(g, dues, kinds, n, i + 1)
  }

  /** Ordinary nodes that were reached go first; when there is none, the deferred ones go that
      wait or are joined. */
  ghost predicate DueNext(g: Graph, dues: seq<set<Node>>, kinds: seq<StepKind>, n: Node, i: nat)
    requires i < |kinds| <= |dues|
  {
    if exists m <- g.nodes :: !Deferred(g, m) && ReachedBy(g, dues, kinds, m, i) then
      !Deferred(g, n) && ReachedBy(g, dues, kinds, n, i)
    else
      Deferred(g, n) && (Waits(g, dues, kinds, n, i + 1) || Joined(g, dues, kinds, n, i + 1))
  }

  lemma ReachedMeans(g: Graph, dues: seq<set<Node>>, kinds: seq<StepKind>, w: Walk, n: Node, i: nat)
    requires Built(g) && DuesOfWalk(g, dues, kinds) && i < |kinds| && kinds[i].Step? && n in g.nodes
    requires w == WalkAt(g, kinds[..i])
    ensures ReachedBy(g, dues, kinds, n, i) <==> n in Reached(g, w)
    ensures Joined(g, dues, kinds, n, i + 1) <==> n in Complete(AfterArrival(g, w))
  {
    WalkAtStep(g, kinds, i);
    PointedIsSuccessor(g, dues, kinds, n, i);
    JoinedIsComplete(g, dues, kinds, n, i + 1);
  }

  lemma StepMeans(g: Graph, dues: seq<set<Node>>, kinds: seq<StepKind>, n: Node, i: nat)
    requires Built(g) && KnownEnds(g) && DuesOfWalk(g, dues, kinds) && i < |kinds| && kinds[i].Step?
    ensures n in dues[i + 1] <==> n in g.nodes && DueNext(g, dues, kinds, n, i)
  {
    var w := WalkAt(g, kinds[..i]);
    WalkAtStep(g, kinds, i);
    forall m <- g.nodes ensures ReachedBy(g, dues, kinds, m, i) <==> m in Reached(g, w) {
      ReachedMeans(g, dues, kinds, w, m, i);
    }
    if n in g.nodes { ReachedMeans(g, dues, kinds, w, n, i); }
    if Deferred(g, n) { WaitingMeans(g, dues, kinds, n, i + 1); }
    OnlyDeferredWait(g, kinds[..i], n);
    ArrivedKeys(g, kinds[..i]);
    OrdinaryMeans(g, dues, kinds, w, i);
    AdvanceMeans(g, dues, kinds, w, n, i);
  }

  lemma OrdinaryMeans(g: Graph, dues: seq<set<Node>>, kinds: seq<StepKind>, w: Walk, i: nat)
    requires Built(g) && KnownEnds(g) && i < |kinds| <= |dues|
    requires w.arrived.Keys == set j | j in g.joins && j.1 in g.nodes
    requires forall m <- g.nodes :: ReachedBy(g, dues, kinds, m, i) <==> m in Reached(g, w)
    ensures Reached(g, w) <= g.nodes.Keys
    ensures OrdinaryReached(g, w) != {} <==> exists m <- g.nodes :: !Deferred(g, m) && ReachedBy(g, dues, kinds, m, i)
  {
    if m :| m in OrdinaryReached(g, w) { assert m in Reached(g, w); }
    if m :| m in g.nodes && !Deferred(g, m) && ReachedBy(g, dues, kinds, m, i) { assert m in OrdinaryReached(g, w); }
  }

  lemma AdvanceMeans(g: Graph, dues: seq<set<Node>>, kinds: seq<StepKind>, w: Walk, n: Node, i: nat)
    requires i < |kinds| <= |dues| && Reached(g, w) <= g.nodes.Keys
    requires n in g.nodes ==> (ReachedBy(g, dues, kinds, n, i) <==> n in Reached(g, w))
    requires n in g.nodes ==> (Joined(g, dues, kinds, n, i + 1) <==> n in Complete(AfterArrival(g, w)))
    requires Deferred(g, n) ==> (Waits(g, dues, kinds, n, i + 1) <==> n in WaitingAfter(g, w))
    requires OrdinaryReached(g, w) != {} <==> exists m <- g.nodes :: !Deferred(g, m) && ReachedBy(g, dues, kinds, m, i)
    requires n in w.waiting ==> Deferred(g, n)
    ensures n in Advance(g, w).due <==> n in g.nodes && DueNext(g, dues, kinds, n, i)
  {
    if OrdinaryReached(g, w) != {} {
      assert n in Advance(g, w).due <==> n in Reached(g, w) && !Deferred(g, n);
    } else {
      assert n in WaitingAfter(g, w) ==> Deferred(g, n);
    }
  }

  /** Which nodes are due after a step, told from what was due before: after a superstep those
      that edges and joins lead to, deferred ones last; after new input the entry; otherwise
      the same as before. */
  lemma MeaningOfEdges(g: Graph, input: NodeInput, base: map<ChannelName, Channel>, c: Compiled,
                       states: seq<Loop>, kinds: seq<StepKind>, n: Node, i: nat)
    requires GraphRun(g, input, base, c, states, kinds) && i < |kinds|
    ensures var dues := Dues(c, states);
      match kinds[i]
      case Step => n in dues[i + 1] <==> n in g.nodes && DueNext(g, dues, kinds, n, i)
      case NewInput => dues[i + 1] == {START}
      case Idle => dues[i + 1] == dues[i]
  {
    var dues := Dues(c, states);
    DuesAreWalked(g, input, base, c, states, kinds);
    WalkAtStep(g, kinds, i);
    if kinds[i].Step? { StepMeans(g, dues, kinds, n, i); }
  }

  lemma DuesAreWalked(g: Graph, input: NodeInput, base: map<ChannelName, Channel>, c: Compiled,
                      states: seq<Loop>, kinds: seq<StepKind>)
    requires GraphRun(g, input, base, c, states, kinds)
    ensures DuesOfWalk(g, Dues(c, states), kinds)
  {
    forall i | 0 <= i <= |kinds| ensures Dues(c, states)[i] == WalkAt(g, kinds[..i]).due {
      RunsAlongEdges(g, input, base, c, states, kinds, i);
    }
  }

  /** In a graph without deferred nodes, after a superstep just those nodes are due that a direct
      predecessor ran for, or that some join leads to all of whose sources ran since it last
      fired. */
  lemma PlainMeaning(g: Graph, input: NodeInput, base: map<ChannelName, Channel>, c: Compiled,
                     states: seq<Loop>, kinds: seq<StepKind>, n: Node, i: nat)
    requires GraphRun(g, input, base, c, states, kinds) && i < |kinds| && kinds[i].Step?
    requires forall m <- g.nodes :: !Deferred(g, m)
    ensures var dues := Dues(c, states);
      n in dues[i + 1] <==> n in g.nodes && (Pointed(g, dues, kinds, n, i) || Joined(g, dues, kinds, n, i + 1))
  {
    MeaningOfEdges(g, input, base, c, states, kinds, n, i);
    var dues := Dues(c, states);
    assert n in g.nodes ==> (DueNext(g, dues, kinds, n, i) <==> ReachedBy(g, dues, kinds, n, i));
  }
}
