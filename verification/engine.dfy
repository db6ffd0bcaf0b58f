/** The superstep as the loop performs it: one pass after another over tasks and channels,
    changing channels, versions and seen versions in place. */
module Engine {
  import opened Channels
  import opened TaskOrder
  import opened Supersteps
  import opened Scheduling
  import opened Breakpoints
  import Packets

  /** The channels, versions and updated set agree with one cell per channel. */
  ghost predicate Reflects(cells: map<ChannelName, Cell>, before: map<ChannelName, nat>, next: nat,
          channels: map<ChannelName, Channel>, versions: map<ChannelName, nat>, updated: set<ChannelName>) {
    && channels.Keys == cells.Keys
    && (forall c <- cells :: channels[c] == cells[c].channel)
    && (forall c :: c in versions <==> c in before || (c in cells && cells[c].bumped))
    && (forall c <- versions :: versions[c] == if c in cells && cells[c].bumped then next else before[c])
    && (forall c :: c in updated <==> c in cells && cells[c].updated)
  }

  /** Cells of which those in `done` have reached `target`. */
  ghost predicate Treated(cells: map<ChannelName, Cell>, from: map<ChannelName, Cell>, target: map<ChannelName, Cell>,
          done: set<ChannelName>) {
    && cells.Keys == from.Keys == target.Keys
    && forall c <- cells :: cells[c] == if c in done then target[c] else from[c]
  }

  lemma TreatedStep(cells: map<ChannelName, Cell>, from: map<ChannelName, Cell>, target: map<ChannelName, Cell>,
                    all: set<ChannelName>, todo: set<ChannelName>, c: ChannelName, after: map<ChannelName, Cell>)
    requires Treated(cells, from, target, all - todo) && c in todo && todo <= all && c in from
    requires after == cells[c := target[c]]
    ensures Treated(after, from, target, all - (todo - {c}))
  {}

  function Untouched(channels: map<ChannelName, Channel>): map<ChannelName, Cell> {
    map c | c in channels :: Cell(channels[c], false, false)
  }

  /** One channel moves on: its cell changes, and with it the channel, perhaps its version,
      perhaps the updated set. */
  lemma ReflectsStep(cells: map<ChannelName, Cell>, before: map<ChannelName, nat>, next: nat,
          channels: map<ChannelName, Channel>, versions: map<ChannelName, nat>, updated: set<ChannelName>,
          c: ChannelName, cell: Cell, changed: bool)
    requires Reflects(cells, before, next, channels, versions, updated) && c in cells
    requires cell.bumped == (cells[c].bumped || changed)
    requires cells[c].updated ==> cell.updated
    ensures Reflects(cells[c := cell], before, next, channels[c := cell.channel],
      if changed then versions[c := next] else versions, if cell.updated then updated + {c} else updated)
  {
    var versions' := if changed then versions[c := next] else versions;
    var updated' := if cell.updated then updated + {c} else updated;
    var cells' := cells[c := cell];
    forall d ensures d in versions' <==> d in before || (d in cells' && cells'[d].bumped) {
      assert d in versions <==> d in before || (d in cells && cells[d].bumped);
    }
    forall d <- versions' ensures versions'[d] == if d in cells' && cells'[d].bumped then next else before[d] {
      assert d in versions ==> versions[d] == if d in cells && cells[d].bumped then next else before[d];
    }
    forall d ensures d in updated' <==> d in cells' && cells'[d].updated {
      assert d in updated <==> d in cells && cells[d].updated;
    }
  }

  lemma SeenOne(st: Store, done: seq<Task>, t: Task, n: Node)
    ensures Read(st.versions, done + [t], n) == Read(st.versions, done, n) +
      (if n == t.name then TaskRead(st.versions, t) else map[])
    ensures n !in Names(done) ==> Read(st.versions, done, n) == map[]
  {
    forall x ensures x in done + [t] <==> x in done || x == t {}
  }

  function TaskRead(versions: map<ChannelName, nat>, t: Task): map<ChannelName, nat> {
    map c | c in t.triggers && c in versions :: versions[c]
  }

  lemma PlusAssociates(a: map<ChannelName, nat>, b: map<ChannelName, nat>, c: map<ChannelName, nat>)
    ensures a + (b + c) == (a + b) + c
  {}

  lemma SeenByAfter(st: Store, done: seq<Task>, n: Node)
    ensures SeenBy(SeenAfter(st, done), n) == SeenBy(st.seen, n) + Read(st.versions, done, n)
  {
    if n !in Names(done) { assert Read(st.versions, done, n) == map[]; }
  }

  lemma SeenStepAt(st: Store, done: seq<Task>, t: Task, n: Node)
    requires n in SeenAfter(st, done + [t])
    ensures SeenAfter(st, done + [t])[n] ==
      if n == t.name then SeenBy(SeenAfter(st, done), n) + TaskRead(st.versions, t)
      else SeenBy(SeenAfter(st, done), n)
  {
    var before, read, more := SeenBy(st.seen, n), Read(st.versions, done, n), TaskRead(st.versions, t);
    SeenOne(st, done, t, n);
    SeenByAfter(st, done, n);
    if n == t.name {
      PlusAssociates(before, read, more);
    } else {
      assert read + map[] == read;
    }
  }

  lemma SeenStep(st: Store, done: seq<Task>, t: Task)
    ensures var before := SeenAfter(st, done);
      SeenAfter(st, done + [t]) == before[t.name := SeenBy(before, t.name) + TaskRead(st.versions, t)]
  {
    var before, after := SeenAfter(st, done), SeenAfter(st, done + [t]);
    var expected := before[t.name := SeenBy(before, t.name) + TaskRead(st.versions, t)];
    assert Names(done + [t]) == Names(done) + {t.name};
    assert after.Keys == expected.Keys;
    forall n <- after ensures after[n] == expected[n] { SeenStepAt(st, done, t, n); }
  }

  lemma SortedSame(st: Store, tasks: seq<Task>)
    ensures SeenAfter(st, Sort(tasks)) == SeenAfter(st, tasks)
    ensures Bumps(Sort(tasks)) == Bumps(tasks)
    ensures forall c :: ReadBy(Sort(tasks), c) == ReadBy(tasks, c)
  {
    SortSorts(tasks);
    SameMembers(Sort(tasks), tasks);
    assert Names(Sort(tasks)) == Names(tasks);
    forall n ensures Read(st.versions, Sort(tasks), n) == Read(st.versions, tasks, n) {}
  }

  /** The three passes over the channels, put together. */
  lemma StagedFromPasses(channels: map<ChannelName, Channel>, tasks: seq<Task>, consumed: map<ChannelName, Cell>,
                         written: map<ChannelName, Cell>, staged: map<ChannelName, Cell>)
    requires consumed.Keys == written.Keys == staged.Keys == channels.Keys
    requires forall c <- channels :: consumed[c] == Consumed(channels[c], ReadBy(tasks, c))
    requires forall c <- channels :: Written(consumed[c], Batch(tasks, c)) == Some(written[c])
    requires forall c <- channels :: staged[c] == Notified(written[c], Bumps(tasks))
    ensures !Refuses(channels, tasks)
    ensures forall c <- channels :: Staged(channels[c], tasks, c) == Some(staged[c])
  {}

  lemma WriteRefused(channels: map<ChannelName, Channel>, tasks: seq<Task>, consumed: map<ChannelName, Cell>,
          c: ChannelName)
    requires c in channels && c in consumed && consumed[c] == Consumed(channels[c], ReadBy(tasks, c))
    requires Written(consumed[c], Batch(tasks, c)) == None
    ensures Refuses(channels, tasks)
  {
    assert Staged(channels[c], tasks, c).None?;
  }

  lemma LastFromPasses(channels: map<ChannelName, Channel>, tasks: seq<Task>, triggers: set<ChannelName>,
                       staged: map<ChannelName, Cell>, updated: set<ChannelName>, last: bool)
    requires staged.Keys == channels.Keys && !Refuses(channels, tasks)
    requires forall c <- channels :: Staged(channels[c], tasks, c) == Some(staged[c])
    requires forall c :: c in updated <==> c in staged && staged[c].updated
    requires last == (Bumps(tasks) && updated !! triggers)
    ensures last == LooksLast(channels, tasks, triggers)
    ensures forall c <- channels :: Final(channels, tasks, triggers, c) == Finished(staged[c], last)
  {
    if Bumps(tasks) && !(updated !! triggers) {
      var c :| c in updated && c in triggers;
      assert Staged(channels[c], tasks, c).value.updated;
    }
  }

  lemma {:induction false} AllWritesSplit(done: seq<Task>, t: Task)
    ensures AllWrites(done + [t]) == AllWrites(done) + t.writes
  {
    if done == [] {
      assert ([t])[1..] == [] && [] + [t] == [t];
    } else {
      assert (done + [t])[1..] == done[1..] + [t];
      AllWritesSplit(done[1..], t);
    }
  }

  lemma {:induction false} ValuesSplit(ws: seq<Write>, w: Write, c: ChannelName)
    ensures Values(ws + [w], c) == Values(ws, c) + (if w.0 == c then [w.1] else [])
  {
    if ws == [] {
      assert ([w])[1..] == [] && [] + [w] == [w];
    } else {
      assert (ws + [w])[0] == ws[0] && (ws + [w])[1..] == ws[1..] + [w];
      ValuesSplit(ws[1..], w, c);
      var head: seq<Value> := if ws[0].0 == c then [ws[0].1] else [];
      var last: seq<Value> := if w.0 == c then [w.1] else [];
      assert head + (Values(ws[1..], c) + last) == (head + Values(ws[1..], c)) + last;
    }
  }

  /** The known channels that were written to, each with its values. */
  ghost predicate Grouped(known: set<ChannelName>, groups: map<ChannelName, seq<Value>>, ws: seq<Write>) {
    && groups.Keys <= known
    && (forall c <- groups :: groups[c] != [])
    && forall c <- known :: (if c in groups then groups[c] else []) == if c.Control? then [] else Values(ws, c)
  }

  lemma GroupedStep(known: set<ChannelName>, groups: map<ChannelName, seq<Value>>, ws: seq<Write>, w: Write)
    requires Grouped(known, groups, ws)
    ensures Grouped(known, if w.0.Control? || w.0 !in known then groups
                           else groups[w.0 := (if w.0 in groups then groups[w.0] else []) + [w.1]], ws + [w])
  {
    forall c ensures Values(ws + [w], c) == Values(ws, c) + (if w.0 == c then [w.1] else []) { ValuesSplit(ws, w, c); }
  }

  /** The map from a trigger to the nodes that listen to it. */
  ghost predicate IsIndex(procs: Processes, index: map<ChannelName, seq<Node>>) {
    && (forall c, n :: c in index && n in index[c] ==> n in procs && c in procs[n].triggers)
    && (forall n, c :: n in procs && c in procs[n].triggers ==> c in index && n in index[c])
    && (forall c <- index :: index[c] != [])
  }

  lemma IndexKeys(procs: Processes, index: map<ChannelName, seq<Node>>)
    requires IsIndex(procs, index)
    ensures index.Keys == TriggerKeys(procs)
  {
    forall c <- index ensures c in TriggerKeys(procs) {
      var n := index[c][0];
      assert n in index[c];
      TriggerKey(procs, n, c);
    }
    forall c <- TriggerKeys(procs) ensures c in index {}
  }

  method TriggerToNodes(procs: Processes) returns (index: map<ChannelName, seq<Node>>)
    ensures IsIndex(procs, index)
  {
    index := map[];
    var todo := procs.Keys;
    while todo != {}
      invariant todo <= procs.Keys
      invariant forall c, n :: c in index && n in index[c] ==> n in procs && n !in todo && c in procs[n].triggers
      invariant forall n, c :: n in procs && n !in todo && c in procs[n].triggers ==> c in index && n in index[c]
      invariant forall c <- index :: index[c] != []
      decreases todo
    {
      var n :| n in todo;
      var before := index;
      index := map c | c in before.Keys + procs[n].triggers ::
        (if c in before then before[c] else []) + (if c in procs[n].triggers then [n] else []);
      todo := todo - {n};
    }
  }

  method NodesBehind(procs: Processes, updated: set<ChannelName>, index: map<ChannelName, seq<Node>>)
    returns (nodes: set<Node>)
    requires IsIndex(procs, index)
    ensures nodes == set n | n in procs && procs[n].triggers * updated != {}
  {
    nodes := {};
    var todo := updated;
    while todo != {}
      invariant todo <= updated
      invariant nodes == set n | n in procs && procs[n].triggers * (updated - todo) != {}
      decreases todo
    {
      var c :| c in todo;
      var more := if c in index then set n <- index[c] else {};
      assert more == set n | n in procs && c in procs[n].triggers;
      assert updated - (todo - {c}) == (updated - todo) + {c};
      NodesUnion(procs, updated - todo, c);
      nodes, todo := nodes + more, todo - {c};
    }
    assert updated - todo == updated;
  }

  lemma NodesUnion(procs: Processes, cs: set<ChannelName>, c: ChannelName)
    ensures (set n | n in procs && procs[n].triggers * (cs + {c}) != {})
         == (set n | n in procs && procs[n].triggers * cs != {}) + (set n | n in procs && c in procs[n].triggers)
  {
    forall n <- procs ensures procs[n].triggers * (cs + {c}) != {} <==>
      procs[n].triggers * cs != {} || c in procs[n].triggers {
      if d :| d in procs[n].triggers * (cs + {c}) { assert d == c || d in procs[n].triggers * cs; }
      if d :| d in procs[n].triggers * cs { assert d in procs[n].triggers * (cs + {c}); }
      if c in procs[n].triggers { assert c in procs[n].triggers * (cs + {c}); }
    }
  }

  /** The tasks for pending packets, numbered from `from`; what is no packet, or is for an
      unknown node or one with nothing to run, is skipped and keeps its number. */
  function PacketTasks(procs: Processes, packets: seq<Value>, from: nat): seq<Task> {
    if packets == [] then [] else PacketTask(procs, packets[0], from) + PacketTasks(procs, packets[1..], from + 1)
  }

  function PacketTask(procs: Processes, packet: Value, idx: nat): seq<Task> {
    if packet.Send? && packet.target in procs && procs[packet.target].runs then
      [Task(PushPath(idx), packet.target, {Control(Push)}, [])]
    else []
  }

  function PacketsOf(channels: map<ChannelName, Channel>, procs: Processes): seq<Task> {
    PacketTasks(procs, Waiting(channels), 0)
  }

  lemma {:induction false} PacketTasksSplit(procs: Processes, packets: seq<Value>, last: Value, from: nat)
    ensures PacketTasks(procs, packets + [last], from) == PacketTasks(procs, packets, from) +
      PacketTask(procs, last, from + |packets|)
  {
    if packets == [] {
      assert [] + [last] == [last] && [last][1..] == [];
    } else {
      assert (packets + [last])[1..] == packets[1..] + [last];
      PacketTasksSplit(procs, packets[1..], last, from + 1);
    }
  }

  /** The packets that are waiting. */
  function Waiting(channels: map<ChannelName, Channel>): seq<Value> {
    if Tasks in channels && channels[Tasks].Topic? then channels[Tasks].values else []
  }

  lemma {:induction false} PacketTasksMade(procs: Processes, packets: seq<Value>)
    ensures Packets.MadeFor(procs, packets, PacketTasks(procs, packets, 0))
  {
    if packets == [] {
      Packets.NoneMade(procs);
    } else {
      var before, p := packets[..|packets| - 1], packets[|packets| - 1];
      assert packets == before + [p];
      PacketTasksMade(procs, before);
      PacketTasksLast(procs, before, p);
      PacketTaskMade(procs, before, PacketTasks(procs, before, 0), p);
    }
  }

  lemma PacketTasksLast(procs: Processes, before: seq<Value>, p: Value)
    ensures PacketTasks(procs, before + [p], 0) == PacketTasks(procs, before, 0) + PacketTask(procs, p, |before|)
  {
    PacketTasksSplit(procs, before, p, 0);
  }

  lemma PacketTaskMade(procs: Processes, before: seq<Value>, made: seq<Task>, p: Value)
    requires Packets.MadeFor(procs, before, made)
    ensures Packets.MadeFor(procs, before + [p], made + PacketTask(procs, p, |before|))
  {
    var t := Task(PushPath(|before|), if p.Send? then p.target else "", {Control(Push)}, []);
    Packets.MadeOneMore(procs, before, made, p, t);
    assert made + [] == made;
  }

  /** What is prepared from packets is just that, and the pulled tasks are not. */
  lemma PreparedPushes(procs: Processes, packets: seq<Value>, ready: set<Node>, pulls: seq<Task>)
    requires PullsFor(procs, ready, pulls)
    ensures Packets.MadeFor(procs, packets, Packets.Pushes(PacketTasks(procs, packets, 0) + pulls))
  {
    var made := PacketTasks(procs, packets, 0);
    PacketTasksMade(procs, packets);
    PacketsNumbered(procs, packets, 0);
    forall t <- made ensures Packets.FromPacket(t) {
      assert Numbered(procs, t, 0);
      var k: nat :| t.path == PushPath(k);
    }
    forall t <- pulls ensures !Packets.FromPacket(t) {
      assert t.path[0] == Word(PULL);
      assert PULL[11] != PUSH[11];
    }
    Packets.PushesOnly(made, pulls);
  }

  lemma NoneDeliverable(procs: Processes, packets: seq<Value>)
    ensures PacketTasks(procs, packets, 0) == [] <==> forall p <- packets :: !Packets.Deliverable(procs, p)
  {
    PacketTasksMade(procs, packets);
    Packets.NothingMade(procs, packets, PacketTasks(procs, packets, 0));
  }

  ghost predicate DistinctPaths(tasks: seq<Task>) {
    forall i, j :: 0 <= i < j < |tasks| ==> tasks[i].path != tasks[j].path
  }

  /** A packet's task, numbered `from` or higher. */
  ghost predicate Numbered(procs: Processes, t: Task, from: nat) {
    IsPush(t) && t.name in procs && t.writes == [] && exists k: nat :: k >= from && t.path == PushPath(k)
  }

  lemma {:induction false} PacketsNumbered(procs: Processes, packets: seq<Value>, from: nat)
    ensures forall t <- PacketTasks(procs, packets, from) :: Numbered(procs, t, from)
  {
    if packets != [] {
      PacketsNumbered(procs, packets[1..], from + 1);
      var first, rest := PacketTask(procs, packets[0], from), PacketTasks(procs, packets[1..], from + 1);
      forall t <- first + rest ensures Numbered(procs, t, from) {
        if t in first { assert t.path == PushPath(from); }
      }
    }
  }

  lemma {:induction false} PacketPaths(procs: Processes, packets: seq<Value>, from: nat)
    ensures DistinctPaths(PacketTasks(procs, packets, from))
  {
    if packets != [] {
      PacketPaths(procs, packets[1..], from + 1);
      PacketsNumbered(procs, packets[1..], from + 1);
      var first, rest := PacketTask(procs, packets[0], from), PacketTasks(procs, packets[1..], from + 1);
      if first == [] {
        assert first + rest == rest;
      } else {
        assert first + rest == [first[0]] + rest;
        LaterNumbers(procs, first[0], rest, from);
      }
    }
  }

  lemma LaterNumbers(procs: Processes, first: Task, rest: seq<Task>, from: nat)
    requires first.path == PushPath(from) && DistinctPaths(rest) && forall t <- rest :: Numbered(procs, t, from + 1)
    ensures DistinctPaths([first] + rest)
  {
    forall j | 0 <= j < |rest| ensures rest[j].path != first.path {
      assert rest[j] in rest;
      var k: nat :| k >= from + 1 && rest[j].path == PushPath(k);
      assert PushPath(k)[1] != PushPath(from)[1];
    }
  }

  ghost predicate Unwritten(tasks: seq<Task>) { forall t <- tasks :: t.writes == [] }

  /** Every task has a path that the scheduler makes, and no two have the same. */
  ghost predicate PreparedOnce(tasks: seq<Task>) {
    (forall t <- tasks :: Prepared(t)) && DistinctPaths(tasks)
  }

  /** One task without writes for each ready node. */
  ghost predicate PullsFor(procs: Processes, ready: set<Node>, tasks: seq<Task>) {
    && (forall t <- tasks ::
      t.name in ready && t.name in procs && t == Task(PullPath(t.name), t.name, procs[t.name].triggers, []))
    && (forall n <- ready :: exists t <- tasks :: t.name == n)
    && (forall i, j :: 0 <= i < j < |tasks| ==> tasks[i].name != tasks[j].name)
  }

  lemma PullAdded(procs: Processes, ready: set<Node>, tasks: seq<Task>, n: Node)
    requires PullsFor(procs, ready, tasks) && n !in ready && n in procs
    ensures PullsFor(procs, ready + {n}, tasks + [Task(PullPath(n), n, procs[n].triggers, [])])
  {
    var t := Task(PullPath(n), n, procs[n].triggers, []);
    forall m <- ready + {n} ensures exists u <- tasks + [t] :: u.name == m {
      if m == n {
        assert t in tasks + [t];
      } else {
        var u :| u in tasks && u.name == m;
        assert u in tasks + [t];
      }
    }
    forall i, j | 0 <= i < j < |tasks + [t]| ensures (tasks + [t])[i].name != (tasks + [t])[j].name {
      assert tasks[i] in tasks;
    }
  }

  lemma PreparedInParts(procs: Processes, ready: set<Node>, packets: seq<Task>, pulls: seq<Task>)
    requires DistinctPaths(packets) && forall t <- packets :: Numbered(procs, t, 0)
    requires PullsFor(procs, ready, pulls)
    ensures PreparedOnce(packets + pulls) && Unwritten(packets + pulls)
    ensures TasksFor(procs, ready, packets + pulls)
  {
    var tasks := packets + pulls;
    forall i, j | 0 <= i < j < |tasks| ensures tasks[i].path != tasks[j].path {
      if i < |packets| <= j {
        assert packets[i] in packets && pulls[j - |packets|] in pulls;
        assert tasks[i].path[0] == Word(PUSH) && tasks[j].path[0] == Word(PULL);
        assert PUSH[11] != PULL[11];
      } else if |packets| <= i {
        assert pulls[i - |packets|] in pulls && pulls[j - |packets|] in pulls;
        assert tasks[i].path[1] != tasks[j].path[1];
      }
    }
    forall n <- ready ensures exists t <- tasks :: t.name == n && n in procs && t.triggers == procs[n].triggers {
      var t :| t in pulls && t.name == n;
      assert t in tasks;
    }
  }

  // ---------------------------------------------------------------- one tick

  /** What a tick finds: a reason to run nothing, or tasks to run. And how a round ends then. */
  datatype Status = OutOfSteps | NothingDue | Draining | StoppedBefore | Pending | Rejected | Ran | StoppedAfter

  /** What a tick is told: the step and the last one allowed, whether to drain, whether done
      tasks are run again, the breakpoints, and which nodes are hidden from them. */
  datatype Settings = Settings(step: int, stop: int, draining: bool, replaying: bool, before: Places, after: Places,
    hidden: Node -> bool)

  /** A breakpoint is at the node of one of the tasks. */
  ghost predicate Reached(places: Places, hidden: Node -> bool, tasks: seq<Task>) {
    exists t <- tasks :: StopsAt(places, Due(t.name, hidden(t.name)))
  }

  function DueOf(tasks: seq<Task>, hidden: Node -> bool): (r: seq<Due>)
    ensures |r| == |tasks| && forall i :: 0 <= i < |r| ==> r[i] == Due(tasks[i].name, hidden(tasks[i].name))
  {
    seq(|tasks|, i requires 0 <= i < |tasks| => Due(tasks[i].name, hidden(tasks[i].name)))
  }

  lemma {:induction false} StoppingSome(places: Places, due: seq<Due>)
    ensures Stopping(places, due) != [] <==> exists t <- due :: StopsAt(places, t)
  {
    if due != [] {
      var init, last := due[..|due| - 1], due[|due| - 1];
      StoppingSome(places, init);
      assert due == init + [last];
    }
  }

  lemma StoppingReached(places: Places, hidden: Node -> bool, tasks: seq<Task>)
    ensures Stopping(places, DueOf(tasks, hidden)) != [] <==> Reached(places, hidden, tasks)
  {
    var due := DueOf(tasks, hidden);
    StoppingSome(places, due);
    if t :| t in due && StopsAt(places, t) {
      var i :| 0 <= i < |due| && due[i] == t;
      assert tasks[i] in tasks;
    }
    if t :| t in tasks && StopsAt(places, Due(t.name, hidden(t.name))) {
      var i :| 0 <= i < |tasks| && tasks[i] == t;
      assert due[i] in due;
    }
  }

  /** The tasks that were prepared, with writes of their own. */
  ghost predicate Worked(due: seq<Task>, ran: seq<Task>) {
    |ran| == |due| && forall i :: 0 <= i < |due| ==> ran[i] == due[i].(writes := ran[i].writes)
  }

  /** Running a task changes nothing but its writes. */
  lemma TasksThatRan(procs: Processes, chosen: set<Node>, due: seq<Task>, ran: seq<Task>)
    requires TasksFor(procs, chosen, due) && Worked(due, ran)
    ensures TasksFor(procs, chosen, ran)
  {
    forall t <- ran ensures t.name in procs && (IsPush(t) ||
      (t.name in chosen && t.triggers == procs[t.name].triggers)) {
      var i :| 0 <= i < |ran| && ran[i] == t;
      assert due[i] in due;
    }
    forall n <- chosen ensures exists t <- ran :: t.name == n && n in procs && t.triggers == procs[n].triggers {
      var u :| u in due && u.name == n && n in procs && u.triggers == procs[n].triggers;
      var i :| 0 <= i < |due| && due[i] == u;
      assert ran[i] in ran;
    }
  }

  lemma NothingPulled(procs: Processes, ready: set<Node>, pulls: seq<Task>)
    requires PullsFor(procs, ready, pulls)
    ensures pulls == [] <==> ready == {}
  {
    if pulls != [] { assert pulls[0] in pulls; }
    if ready != {} {
      var n :| n in ready;
      assert exists t <- pulls :: t.name == n;
    }
  }

  /** The tasks of a superstep may finish in any order: however they are permuted once they
      have written, the superstep ends the same. */
  lemma PreparedTasksCommute(st: Store, prepared: seq<Task>, ran: seq<Task>, permuted: seq<Task>,
          triggers: set<ChannelName>)
    requires PreparedOnce(prepared) && |ran| == |prepared|
    requires forall i :: 0 <= i < |ran| ==> ran[i] == prepared[i].(writes := ran[i].writes)
    requires multiset(ran) == multiset(permuted)
    ensures Supersteps.ApplyWrites(st, ran, triggers) == Supersteps.ApplyWrites(st, permuted, triggers)
  {
    forall t, u | t in ran && u in ran && Key(t) == Key(u) ensures t == u {
      var i, j :| 0 <= i < |ran| && 0 <= j < |ran| && ran[i] == t && ran[j] == u;
      assert prepared[i] in prepared && prepared[j] in prepared;
      assert Prepared(t) && Prepared(u);
      PreparedKeysInjective(t, u);
      assert prepared[i].path == prepared[j].path;
    }
    OrderIrrelevant(st, ran, permuted, triggers);
  }

  ghost function WrittenOr(cell: Cell, vals: seq<Value>): Cell {
    match Written(cell, vals) case Some(after) => after case None => cell
  }

  lemma WriteAccepted(cell: Cell, vals: seq<Value>, outcome: Outcome)
    requires vals != [] && outcome == cell.channel.Update(vals) && outcome.Accepted?
    ensures Written(cell, vals).Some?
    ensures WrittenOr(cell, vals) == Cell(outcome.channel, cell.bumped || outcome.changed,
                                          cell.updated || (outcome.changed && true && outcome.channel.Available()))
  {}

  class PregelState {
    var channels: map<ChannelName, Channel>
    var versions: map<ChannelName, nat>
    var seen: map<Node, map<ChannelName, nat>>

    ghost function View(): Store
      reads this
    {
      Store(channels, versions, seen)
    }

    constructor (specs: map<ChannelName, Channel>)
      ensures View() == Store(specs, map[], map[])
    {
      channels, versions, seen := specs, map[], map[];
    }

    /** The tasks of the next superstep: one for every valid packet, then one for every
        candidate node that is ready. */
    method PrepareNextTasks(procs: Processes, updated: Option<set<ChannelName>>,
            index: Option<map<ChannelName, seq<Node>>>)
      returns (tasks: seq<Task>)
      requires index.Some? ==> IsIndex(procs, index.value)
      ensures exists pulls ::
        tasks == PacketsOf(channels, procs) + pulls && PullsFor(procs, Pull(View(), procs, updated, index.Some?), pulls)
      ensures TasksFor(procs, Pull(View(), procs, updated, index.Some?), tasks)
      ensures PreparedOnce(tasks) && Unwritten(tasks)
      ensures Packets.MadeFor(procs, Waiting(channels), Packets.Pushes(tasks))
    {
      var packets := PreparePackets(procs);
      if Tasks in channels && channels[Tasks].Topic? {
        PacketPaths(procs, channels[Tasks].values, 0);
        PacketsNumbered(procs, channels[Tasks].values, 0);
      }
      var candidates: set<Node>;
      if index.Some? { IndexKeys(procs, index.value); }
      if updated.Some? && updated.value != {} && index.Some? && index.value != map[] {
        candidates := NodesBehind(procs, updated.value, index.value);
      } else if versions == map[] {
        candidates := {};
      } else {
        candidates := procs.Keys;
      }
      assert candidates == Candidates(View(), procs, updated, index.Some?);
      var pulls := PreparePulls(procs, candidates);
      tasks := packets + pulls;
      PreparedInParts(procs, Pull(View(), procs, updated, index.Some?), packets, pulls);
      PreparedPushes(procs, Waiting(channels), Pull(View(), procs, updated, index.Some?), pulls);
    }

    method PreparePulls(procs: Processes, candidates: set<Node>) returns (tasks: seq<Task>)
      ensures PullsFor(procs, (set n | n in candidates && n in procs && Ready(View(), procs, n)), tasks)
    {
      tasks := [];
      var todo := candidates;
      ghost var ready: set<Node> := {};
      while todo != {}
        invariant todo <= candidates
        invariant ready == set n | n in candidates - todo && n in procs && Ready(View(), procs, n)
        invariant PullsFor(procs, ready, tasks)
        decreases todo
      {
        var n :| n in todo;
        if n in procs && Ready(Store(channels, versions, seen), procs, n) {
          PullAdded(procs, ready, tasks, n);
          tasks := tasks + [Task(PullPath(n), n, procs[n].triggers, [])];
          ready := ready + {n};
        }
        todo := todo - {n};
      }
      assert ready == set n | n in candidates && n in procs && Ready(View(), procs, n);
    }

    method PreparePackets(procs: Processes) returns (tasks: seq<Task>)
      ensures tasks == PacketsOf(channels, procs)
      ensures Packets.MadeFor(procs, Waiting(channels), tasks)
    {
      tasks := [];
      if Tasks in channels && channels[Tasks].Topic? && channels[Tasks].Available() {
        var packets := channels[Tasks].values;
        for i := 0 to |packets|
          invariant tasks == PacketTasks(procs, packets[..i], 0)
        {
          PacketTasksSplit(procs, packets[..i], packets[i], 0);
          assert packets[..i + 1] == packets[..i] + [packets[i]];
          tasks := tasks + PacketTask(procs, packets[i], i);
        }
        assert packets[..|packets|] == packets;
      }
      PacketTasksMade(procs, Waiting(channels));
    }

    /** Prepares the tasks that are due, gives back what they wrote before, and stops at a
        breakpoint in front of them. */
    method Tick(procs: Processes, updated: Option<set<ChannelName>>, index: map<ChannelName, seq<Node>>, c: Settings,
            restored: seq<PathPart> -> seq<Write>)
      returns (status: Status, tasks: seq<Task>)
      requires IsIndex(procs, index)
      ensures !status.Rejected? && !status.Ran? && !status.StoppedAfter?
      ensures status.OutOfSteps? <==> c.step > c.stop
      ensures status.NothingDue? <==> (!status.OutOfSteps? &&
        (forall p <- Waiting(channels) :: !Packets.Deliverable(procs, p)) && Pull(View(), procs, updated, true) == {})
      ensures status.Draining? <==> !status.OutOfSteps? && !status.NothingDue? && c.draining
      ensures status.StoppedBefore? <==> (!status.OutOfSteps? && !status.NothingDue? && !c.draining &&
        ChangedSince(View()) && Reached(c.before, c.hidden, tasks))
      ensures !status.OutOfSteps? ==> TasksFor(procs, Pull(View(), procs, updated, true), tasks)
      ensures !status.OutOfSteps? ==> Packets.MadeFor(procs, Waiting(channels), Packets.Pushes(tasks))
      ensures status.StoppedBefore? || status.Pending? ==>
        tasks != [] && forall t <- tasks :: t.writes == if c.replaying then [] else restored(t.path)
    {
      if c.step > c.stop { return OutOfSteps, []; }
      tasks := PrepareNextTasks(procs, updated, Some(index));
      ghost var ready := Pull(View(), procs, updated, true);
      ghost var pulls :| tasks == PacketsOf(channels, procs) + pulls && PullsFor(procs, ready, pulls);
      NothingPulled(procs, ready, pulls);
      NoneDeliverable(procs, Waiting(channels));
      if tasks == [] { return NothingDue, []; }
      if c.draining { return Draining, tasks; }
      ghost var due := tasks;
      if !c.replaying { tasks := GiveBack(procs, ready, tasks, restored); }
      Packets.StillMade(procs, Waiting(channels), due, tasks);
      var stop := Stops(c.before, c.hidden, tasks);
      status := if stop then StoppedBefore else Pending;
    }

    /** Applies what the tasks wrote, and stops at a breakpoint behind them. */
    method AfterTick(procs: Processes, tasks: seq<Task>, c: Settings)
      returns (status: Status, changed: set<ChannelName>)
      modifies this
      ensures status.Rejected? || status.Ran? || status.StoppedAfter?
      ensures status.Rejected? <==> Supersteps.ApplyWrites(old(View()), tasks, TriggerKeys(procs)).Refused?
      ensures !status.Rejected? ==>
        Supersteps.ApplyWrites(old(View()), tasks, TriggerKeys(procs)) == Done(View(), changed)
      ensures !status.Rejected? ==> (status.StoppedAfter? <==>
        ChangedSince(View()) && Reached(c.after, c.hidden, tasks))
    {
      var ok;
      ok, changed := ApplyWrites(tasks, TriggerKeys(procs));
      if !ok { return Status.Rejected, {}; }
      var stop := Stops(c.after, c.hidden, tasks);
      status := if stop then StoppedAfter else Ran;
    }

    method Stops(places: Places, hidden: Node -> bool, tasks: seq<Task>) returns (stop: bool)
      ensures stop <==> ChangedSince(View()) && Reached(places, hidden, tasks)
    {
      var stopping := ShouldInterrupt(Store(channels, versions, seen), places, DueOf(tasks, hidden));
      StoppingReached(places, hidden, tasks);
      stop := stopping != [];
    }

    /** One round of the loop: a tick, the tasks that were given nothing back run, and their
        writes are applied. `run` stands for the tasks' code. */
    method Round(procs: Processes, updated: Option<set<ChannelName>>, index: map<ChannelName, seq<Node>>, c: Settings,
            restored: seq<PathPart> -> seq<Write>, run: seq<PathPart> -> seq<Write>)
      returns (status: Status, tasks: seq<Task>, changed: set<ChannelName>)
      requires IsIndex(procs, index)
      modifies this
      ensures !status.Pending?
      ensures status.OutOfSteps? || status.NothingDue? || status.Draining? || status.StoppedBefore? ==>
        View() == old(View())
      ensures status.NothingDue? ==> old(Pull(View(), procs, updated, true)) == {}
      ensures status.Rejected? ==> Supersteps.ApplyWrites(old(View()), tasks, TriggerKeys(procs)).Refused?
      ensures status.Ran? || status.StoppedAfter? ==>
        Superstep(procs, Loop(old(View()), updated), tasks, Loop(View(), Some(changed)))
      ensures status.Rejected? || status.Ran? || status.StoppedAfter? ==>
        forall t <- tasks ::
          t.writes == if c.replaying || restored(t.path) == [] then run(t.path) else restored(t.path)
      ensures status.Rejected? || status.Ran? || status.StoppedAfter? ==>
        Packets.MadeFor(procs, old(Waiting(channels)), Packets.Pushes(tasks))
    {
      status, tasks := Tick(procs, updated, index, c, restored);
      if !status.Pending? { return status, tasks, {}; }
      tasks := RunDue(procs, Pull(View(), procs, updated, true), Waiting(channels), tasks, c, restored, run);
      status, changed := AfterTick(procs, tasks, c);
    }

    static method GiveBack(ghost procs: Processes, ghost chosen: set<Node>, due: seq<Task>,
            restored: seq<PathPart> -> seq<Write>)
      returns (given: seq<Task>)
      requires TasksFor(procs, chosen, due) && Unwritten(due)
      ensures |given| == |due| && TasksFor(procs, chosen, given) && Packets.SamePaths(given, due)
      ensures forall t <- given :: t.writes == restored(t.path)
    {
      given := [];
      for i := 0 to |due|
        invariant |given| == i
        invariant forall k :: 0 <= k < i ==> given[k] == due[k].(writes := restored(due[k].path))
      {
        assert due[i].writes + restored(due[i].path) == restored(due[i].path);
        given := given + [due[i].(writes := due[i].writes + restored(due[i].path))];
      }
      TasksThatRan(procs, chosen, due, given);
    }

    /** The tasks that are due run, except those that were given writes back. */
    static method RunDue(ghost procs: Processes, ghost chosen: set<Node>, ghost packets: seq<Value>, due: seq<Task>,
            ghost c: Settings, ghost restored: seq<PathPart> -> seq<Write>, run: seq<PathPart> -> seq<Write>)
      returns (ran: seq<Task>)
      requires TasksFor(procs, chosen, due) && Packets.MadeFor(procs, packets, Packets.Pushes(due))
      requires forall t <- due :: t.writes == if c.replaying then [] else restored(t.path)
      ensures |ran| == |due| && TasksFor(procs, chosen, ran)
      ensures Packets.MadeFor(procs, packets, Packets.Pushes(ran))
      ensures forall t <- ran ::
        t.writes == if c.replaying || restored(t.path) == [] then run(t.path) else restored(t.path)
    {
      ran := RunTasks(due, run);
      TasksThatRan(procs, chosen, due, ran);
      Packets.StillMade(procs, packets, due, ran);
    }

    /** Only tasks without writes are run. */
    static method RunTasks(due: seq<Task>, run: seq<PathPart> -> seq<Write>) returns (ran: seq<Task>)
      ensures |ran| == |due|
      ensures forall i :: 0 <= i < |due| ==>
        ran[i] == if due[i].writes == [] then due[i].(writes := run(due[i].path)) else due[i]
    {
      ran := [];
      for i := 0 to |due|
        invariant |ran| == i
        invariant forall k :: 0 <= k < i ==>
          ran[k] == if due[k].writes == [] then due[k].(writes := run(due[k].path)) else due[k]
      {
        ran := ran + [if due[i].writes == [] then due[i].(writes := run(due[i].path)) else due[i]];
      }
    }

    /** Applies the writes of the tasks, and says which channels were updated. When a channel
        refuses its writes, the call fails and the run ends. */
    method ApplyWrites(tasks: seq<Task>, triggers: set<ChannelName>) returns (ok: bool, updated: set<ChannelName>)
      modifies this
      ensures ok <==> Supersteps.ApplyWrites(old(View()), tasks, triggers).Done?
      ensures ok ==> Supersteps.ApplyWrites(old(View()), tasks, triggers) == Done(View(), updated)
    {
      var sorted := Sort(tasks);
      SortedSame(View(), tasks);
      MarkSeen(sorted);
      var next := NextVersionOf(versions);
      ok, updated := ApplyToChannels(tasks, sorted, Bumps(sorted), next, triggers);
    }

    /** The passes over the channels: consume, write, notify, finish. */
    method ApplyToChannels(ghost tasks: seq<Task>, sorted: seq<Task>, bump: bool, next: nat, triggers: set<ChannelName>)
      returns (ok: bool, updated: set<ChannelName>)
      requires sorted == Sort(tasks) && bump == Bumps(tasks) && forall c :: ReadBy(sorted, c) == ReadBy(tasks, c)
      modifies `channels, `versions
      ensures ok <==> !Refuses(old(channels), tasks)
      ensures ok ==> channels == ChannelsAfter(old(channels), tasks, triggers)
      ensures ok ==> versions == Rebumped(old(versions), BumpedBy(old(channels), tasks, triggers), next)
      ensures ok ==> updated == UpdatedBy(old(channels), tasks, triggers)
    {
      ghost var before := versions;
      ghost var consumed := ConsumeRead(sorted, next, before);
      var groups := GroupByChannel(sorted);
      ghost var written, staged, final;
      ok, updated, written := WriteGroups(groups, next, before, consumed);
      if !ok {
        ghost var c :| c in groups && Written(consumed[c], groups[c]).None?;
        WriteRefused(old(channels), tasks, consumed, c);
        return;
      }
      updated, staged := NotifyRest(bump, next, before, updated, written);
      StagedFromPasses(old(channels), tasks, consumed, written, staged);
      var last := bump && updated !! triggers;
      LastFromPasses(old(channels), tasks, triggers, staged, updated, last);
      updated, final := FinishAll(last, next, before, updated, staged);
      ReflectedParts(final, before, next, channels, versions, updated);
      FinalParts(old(channels), tasks, triggers, final);
    }

    method MarkSeen(tasks: seq<Task>)
      modifies `seen
      ensures seen == SeenAfter(old(View()), tasks)
    {
      ghost var st := View();
      assert SeenAfter(st, []) == seen by {
        forall n <- seen ensures SeenAfter(st, [])[n] == seen[n] { assert Read(st.versions, [], n) == map[]; }
      }
      assert tasks[..0] == [];
      for i := 0 to |tasks|
        invariant seen == SeenAfter(st, tasks[..i])
      {
        var t := tasks[i];
        SeenStep(st, tasks[..i], t);
        assert tasks[..i + 1] == tasks[..i] + [t];
        seen := seen[t.name := SeenBy(seen, t.name) + TaskRead(versions, t)];
      }
      assert tasks[..|tasks|] == tasks;
    }

    /** Puts a channel back; a change bumps its version, and adds it to the updated set if
        it counts as an update and the channel is available. */
    method Replace(c: ChannelName, ch: Channel, changed: bool, counts: bool, next: nat, updated0: set<ChannelName>,
                   ghost before: map<ChannelName, nat>, ghost from: map<ChannelName, Cell>)
      returns (updated: set<ChannelName>, ghost cells: map<ChannelName, Cell>)
      requires Reflects(from, before, next, channels, versions, updated0) && c in channels
      modifies `channels, `versions
      ensures c in from && cells == from[c := Cell(ch, from[c].bumped || changed, from[c].updated ||
        (changed && counts && ch.Available()))]
      ensures Reflects(cells, before, next, channels, versions, updated)
      ensures updated == if changed && counts && ch.Available() then updated0 + {c} else updated0
    {
      updated := updated0;
      ghost var cell := Cell(ch, from[c].bumped || changed, from[c].updated || (changed && counts && ch.Available()));
      ReflectsStep(from, before, next, channels, versions, updated, c, cell, changed);
      channels := channels[c := ch];
      if changed {
        versions := versions[c := next];
        if counts && ch.Available() { updated := updated + {c}; }
      }
      cells := from[c := cell];
      assert from[c].updated ==> updated + {c} == updated;
    }

    /** A subscribed task ran: every channel that was read is told so. */
    method ConsumeRead(tasks: seq<Task>, next: nat, ghost before: map<ChannelName, nat>)
      returns (ghost cells: map<ChannelName, Cell>)
      requires versions == before
      modifies `channels, `versions
      ensures Reflects(cells, before, next, channels, versions, {})
      ensures cells.Keys == old(channels).Keys && forall c <- cells ::
        cells[c] == Consumed(old(channels)[c], ReadBy(tasks, c))
    {
      ghost var from := Untouched(channels);
      ghost var target := map c | c in channels :: Consumed(channels[c], true);
      cells := from;
      var todo := set t, c | t in tasks && c in t.triggers && !c.Control? && c in channels :: c;
      ghost var all := todo;
      assert forall c <- channels :: c in all <==> ReadBy(tasks, c);
      while todo != {}
        invariant todo <= all && all <= channels.Keys
        invariant Reflects(cells, before, next, channels, versions, {})
        invariant Treated(cells, from, target, all - todo)
        decreases todo
      {
        var c :| c in todo;
        var (ch, changed) := channels[c].Consume();
        assert cells[c] == from[c];
        var _, after := Replace(c, ch, changed, false, next, {}, before, cells);
        assert after == cells[c := target[c]];
        TreatedStep(cells, from, target, all, todo, c, after);
        cells := after;
        todo := todo - {c};
      }
    }

    /** The values written to each known channel, in the order of the tasks. */
    method GroupByChannel(tasks: seq<Task>) returns (groups: map<ChannelName, seq<Value>>)
      ensures Grouped(channels.Keys, groups, AllWrites(tasks))
    {
      groups := map[];
      for i := 0 to |tasks|
        invariant Grouped(channels.Keys, groups, AllWrites(tasks[..i]))
      {
        groups := GroupMore(groups, tasks[i].writes, AllWrites(tasks[..i]));
        AllWritesSplit(tasks[..i], tasks[i]);
        assert tasks[..i + 1] == tasks[..i] + [tasks[i]];
      }
      assert tasks[..|tasks|] == tasks;
    }

    method GroupMore(groups0: map<ChannelName, seq<Value>>, ws: seq<Write>, ghost before: seq<Write>)
      returns (groups: map<ChannelName, seq<Value>>)
      requires Grouped(channels.Keys, groups0, before)
      ensures Grouped(channels.Keys, groups, before + ws)
    {
      groups := groups0;
      assert before + ws[..0] == before;
      for k := 0 to |ws|
        invariant Grouped(channels.Keys, groups, before + ws[..k])
      {
        var (c, v) := ws[k];
        assert before + ws[..k + 1] == (before + ws[..k]) + [ws[k]];
        GroupedStep(channels.Keys, groups, before + ws[..k], ws[k]);
        if !c.Control? && c in channels {
          groups := groups[c := (if c in groups then groups[c] else []) + [v]];
        }
      }
      assert ws[..|ws|] == ws;
    }

    method WriteGroups(groups: map<ChannelName, seq<Value>>, next: nat, ghost before: map<ChannelName, nat>,
            ghost from: map<ChannelName, Cell>)
      returns (ok: bool, updated: set<ChannelName>, ghost cells: map<ChannelName, Cell>)
      requires Reflects(from, before, next, channels, versions, {})
      requires groups.Keys <= channels.Keys && forall c <- groups :: groups[c] != []
      modifies `channels, `versions
      ensures !ok ==> exists c <- groups :: c in from && Written(from[c], groups[c]).None?
      ensures ok ==> Reflects(cells, before, next, channels, versions, updated)
      ensures ok ==> cells.Keys == from.Keys && forall c <- cells ::
        Written(from[c], if c in groups then groups[c] else []) == Some(cells[c])
    {
      ghost var target := map c | c in from :: if c in groups then WrittenOr(from[c], groups[c]) else from[c];
      cells, updated := from, {};
      var todo := groups.Keys;
      while todo != {}
        invariant todo <= groups.Keys
        invariant Reflects(cells, before, next, channels, versions, updated)
        invariant Treated(cells, from, target, groups.Keys - todo)
        invariant forall c <- groups :: c !in todo ==> Written(from[c], groups[c]).Some?
        decreases todo
      {
        var c :| c in todo;
        var outcome := channels[c].Update(groups[c]);
        assert cells[c] == from[c];
        if outcome.Rejected? { return false, updated, cells; }
        WriteAccepted(from[c], groups[c], outcome);
        var updated', after := Replace(c, outcome.channel, outcome.changed, true, next, updated, before, cells);
        assert after == cells[c := target[c]];
        TreatedStep(cells, from, target, groups.Keys, todo, c, after);
        updated, cells, todo := updated', after, todo - {c};
      }
      ok := true;
    }

    /** Channels that hold something but were not updated learn that a step began. */
    method NotifyRest(bump: bool, next: nat, ghost before: map<ChannelName, nat>, updated0: set<ChannelName>,
            ghost from: map<ChannelName, Cell>)
      returns (updated: set<ChannelName>, ghost cells: map<ChannelName, Cell>)
      requires Reflects(from, before, next, channels, versions, updated0)
      modifies `channels, `versions
      ensures Reflects(cells, before, next, channels, versions, updated)
      ensures cells.Keys == from.Keys && forall c <- cells :: cells[c] == Notified(from[c], bump)
    {
      ghost var target := map c | c in from :: Notified(from[c], true);
      cells, updated := from, updated0;
      var todo := if bump then channels.Keys else {};
      ghost var all := todo;
      while todo != {}
        invariant todo <= all && all <= channels.Keys
        invariant Reflects(cells, before, next, channels, versions, updated)
        invariant Treated(cells, from, target, all - todo)
        decreases todo
      {
        var c :| c in todo;
        var updated', after := NotifyOne(c, next, before, updated, cells);
        assert cells[c] == from[c];
        TreatedStep(cells, from, target, all, todo, c, after);
        updated, cells := updated', after;
        todo := todo - {c};
      }
    }

    method NotifyOne(c: ChannelName, next: nat, ghost before: map<ChannelName, nat>, updated0: set<ChannelName>,
            ghost from: map<ChannelName, Cell>)
      returns (updated: set<ChannelName>, ghost cells: map<ChannelName, Cell>)
      requires Reflects(from, before, next, channels, versions, updated0) && c in channels
      modifies `channels, `versions
      ensures channels.Keys == old(channels.Keys) && c in from
      ensures cells == from[c := Notified(from[c], true)]
      ensures Reflects(cells, before, next, channels, versions, updated)
    {
      updated, cells := updated0, from;
      if channels[c].Available() && c !in updated {
        var outcome := channels[c].Update([]);
        if outcome.Accepted? {
          updated, cells := Replace(c, outcome.channel, outcome.changed, true, next, updated0, before, from);
          return;
        }
      }
      assert cells == from[c := from[c]];
    }

    /** The run looks finished: every channel is told. */
    method FinishAll(last: bool, next: nat, ghost before: map<ChannelName, nat>, updated0: set<ChannelName>,
            ghost from: map<ChannelName, Cell>)
      returns (updated: set<ChannelName>, ghost cells: map<ChannelName, Cell>)
      requires Reflects(from, before, next, channels, versions, updated0)
      modifies `channels, `versions
      ensures Reflects(cells, before, next, channels, versions, updated)
      ensures cells.Keys == from.Keys && forall c <- cells :: cells[c] == Finished(from[c], last)
    {
      ghost var target := map c | c in from :: Finished(from[c], true);
      cells, updated := from, updated0;
      var todo := if last then channels.Keys else {};
      ghost var all := todo;
      while todo != {}
        invariant todo <= all && all <= channels.Keys
        invariant Reflects(cells, before, next, channels, versions, updated)
        invariant Treated(cells, from, target, all - todo)
        decreases todo
      {
        var c :| c in todo;
        assert cells[c] == from[c];
        var (ch, changed) := channels[c].Finish();
        var updated', after := Replace(c, ch, changed, true, next, updated, before, cells);
        assert after == cells[c := target[c]];
        TreatedStep(cells, from, target, all, todo, c, after);
        updated, cells, todo := updated', after, todo - {c};
      }
    }
  }

  method NextVersionOf(versions: map<ChannelName, nat>) returns (next: nat)
    ensures next == NextVersion(versions)
  {
    var highest := 0;
    var todo := versions.Keys;
    while todo != {}
      invariant todo <= versions.Keys
      invariant forall c <- versions :: c !in todo ==> versions[c] <= highest
      invariant highest == 0 || exists c <- versions :: versions[c] == highest
      decreases todo
    {
      var c :| c in todo;
      if versions[c] > highest { highest := versions[c]; }
      todo := todo - {c};
    }
    next := highest + 1;
    NextVersionIs(versions, next);
  }

  lemma NextVersionIs(versions: map<ChannelName, nat>, next: nat)
    requires next > 0 && forall c <- versions :: versions[c] < next
    requires next == 1 || exists c <- versions :: versions[c] + 1 == next
    ensures next == NextVersion(versions)
  {
    if c :| c in versions {
      assert versions[c] in versions.Values;
      var m := Max(versions.Values);
      var d :| d in versions && versions[d] == m;
      if e :| e in versions && versions[e] + 1 == next { assert versions[e] in versions.Values; }
    }
  }

  lemma ReflectedParts(finals: map<ChannelName, Cell>, before: map<ChannelName, nat>, next: nat,
          channels: map<ChannelName, Channel>,
                       versions: map<ChannelName, nat>, updated: set<ChannelName>)
    requires Reflects(finals, before, next, channels, versions, updated)
    ensures versions == Rebumped(before, (set c | c in finals && finals[c].bumped), next)
    ensures updated == set c | c in finals && finals[c].updated
    ensures channels == map c | c in finals :: finals[c].channel
  {}

  lemma FinalParts(channels: map<ChannelName, Channel>, tasks: seq<Task>, triggers: set<ChannelName>,
          finals: map<ChannelName, Cell>)
    requires !Refuses(channels, tasks) && finals.Keys == channels.Keys
    requires forall c <- channels :: finals[c] == Final(channels, tasks, triggers, c)
    ensures (set c | c in finals && finals[c].bumped) == BumpedBy(channels, tasks, triggers)
    ensures (set c | c in finals && finals[c].updated) == UpdatedBy(channels, tasks, triggers)
    ensures (map c | c in finals :: finals[c].channel) == ChannelsAfter(channels, tasks, triggers)
  {}
}
