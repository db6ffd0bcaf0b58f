/** Packets over a run: which step runs one that was sent, and when it is lost. */
module Packets {
  import opened Channels
  import opened ChannelValues
  import opened TaskOrder
  import opened Supersteps
  import opened SuperstepValues
  import opened Scheduling
  import opened Deferral
  import Lists

  /** A packet for a known node that has something to run. */
  predicate Deliverable(procs: Processes, p: Value) { p.Send? && p.target in procs && procs[p.target].runs }

  /** The task for the packet at `k`; what it writes is up to it. */
  predicate TaskFor(p: Value, k: nat, t: Task) {
    p.Send? && t.path == [Word("__pregel_push"), Index(k), Index(0)] && t.name == p.target &&
    t.triggers == {Control(Push)}
  }

  /** One task for each packet that can be delivered, in their order, each under its number. */
  ghost predicate MadeAt(procs: Processes, packets: seq<Value>, tasks: seq<Task>, at: seq<nat>) {
    && |at| == |tasks|
    && (forall i :: 0 <= i < |at| ==>
         at[i] < |packets| && Deliverable(procs, packets[at[i]]) && TaskFor(packets[at[i]], at[i], tasks[i]))
    && (forall i, j :: 0 <= i < j < |at| ==> at[i] < at[j])
    && (forall k :: 0 <= k < |packets| && Deliverable(procs, packets[k]) ==> k in at)
  }

  ghost predicate MadeFor(procs: Processes, packets: seq<Value>, tasks: seq<Task>) {
    exists at: seq<nat> :: MadeAt(procs, packets, tasks, at)
  }

  // ---------------------------------------------------------------- runs

  /** The tasks whose writes a move applies. */
  function TasksOf(move: Move): seq<Task> {
    match move
    case Ran(tasks) => tasks
    case Given(discarded, input) => discarded + [NullTask(input)]
    case Commanded(writes) => [NullTask(writes)]
    case _ => []
  }

  predicate SendsPackets(tasks: seq<Task>) { exists t <- tasks :: exists w <- t.writes :: w.0 == Tasks }

  /** The move gives the channel of packets a new content: it begins a step, or sends packets. */
  predicate Replaces(move: Move) { Begins(TasksOf(move)) || SendsPackets(TasksOf(move)) }

  /** What the move sent. */
  ghost predicate Sent(move: Move, items: seq<Value>) {
    exists batch :: Gets(TasksOf(move), Tasks, batch) && Spread(batch, items)
  }

  predicate HasPackets(s: Loop) { Tasks in s.store.channels && s.store.channels[Tasks].Topic? }

  function PacketsIn(s: Loop): seq<Value>
    requires HasPackets(s)
  {
    s.store.channels[Tasks].values
  }

  predicate FromPacket(t: Task) { t.path != [] && t.path[0] == Word("__pregel_push") }

  function Pushes(tasks: seq<Task>): seq<Task> {
    if tasks == [] then []
    else Pushes(tasks[..|tasks| - 1]) + if FromPacket(tasks[|tasks| - 1]) then [tasks[|tasks| - 1]] else []
  }

  /** A run that starts without packets, and in which each step runs the packets there are. */
  ghost predicate PacketRun(procs: Processes, states: seq<Loop>, moves: seq<Move>) {
    && |states| == |moves| + 1
    && states[0].store.channels.Keys >= {Tasks} && states[0].store.channels[Tasks] == Topic(false, [])
    && (forall i :: 0 <= i < |moves| ==> Makes(procs, states[i], moves[i], states[i + 1]))
    && (forall i :: 0 <= i < |moves| ==> Delivers(procs, states[i], moves[i]))
  }

  ghost predicate Delivers(procs: Processes, s: Loop, move: Move) {
    move.Ran? ==> HasPackets(s) && MadeFor(procs, PacketsIn(s), Pushes(move.tasks))
  }

  // ---------------------------------------------------------------- one move

  lemma RanBegins(procs: Processes, s: Loop, tasks: seq<Task>, s': Loop)
    requires Superstep(procs, s, tasks, s')
    ensures Begins(tasks)
  {
    var t := tasks[0];
    assert t in tasks;
    if !IsPush(t) {
      var c :| c in procs[t.name].triggers && Offers(s.store, t.name, c);
      assert t.triggers != {};
    } else {
      assert Control(Push) in t.triggers;
    }
  }

  lemma {:induction false} NoneSent(ws: seq<Write>, c: ChannelName)
    requires forall w <- ws :: w.0 != c
    ensures Values(ws, c) == []
  {
    if ws != [] {
      assert ws[0] in ws && forall w <- ws[1..] :: w in ws;
      NoneSent(ws[1..], c);
    }
  }

  lemma {:induction false} NoWrites(tasks: seq<Task>, c: ChannelName)
    requires forall t <- tasks :: forall w <- t.writes :: w.0 != c
    ensures Values(AllWrites(tasks), c) == []
  {
    if tasks != [] {
      assert tasks[0] in tasks && forall t <- tasks[1..] :: t in tasks;
      NoneSent(tasks[0].writes, c);
      NoWrites(tasks[1..], c);
      ValuesConcat(tasks[0].writes, AllWrites(tasks[1..]), c);
    }
  }

  lemma NothingSent(tasks: seq<Task>)
    requires !SendsPackets(tasks)
    ensures Gets(tasks, Tasks, []) && Spread([], [])
  {
    SortSorts(tasks);
    SameMembers(tasks, Sort(tasks));
    NoWrites(Sort(tasks), Tasks);
    BatchGets(tasks, Tasks);
    NoneSpread();
  }

  lemma MoveSends(move: Move) returns (items: seq<Value>)
    ensures Sent(move, items)
  {
    BatchGets(TasksOf(move), Tasks);
    FlattenSpreads(Batch(TasksOf(move), Tasks));
    items := Flatten(Batch(TasksOf(move), Tasks));
  }

  /** Such an application leaves what was sent, or what was there if nothing was and no step begins. */
  lemma AppliedPackets(st: Store, tasks: seq<Task>, triggers: set<ChannelName>, batch: seq<Value>, items: seq<Value>)
    requires ApplyWrites(st, tasks, triggers).Done? && Gets(tasks, Tasks, batch) && Spread(batch, items)
    requires Tasks in st.channels && st.channels[Tasks].Topic? && !st.channels[Tasks].accumulate
    ensures var after := ApplyWrites(st, tasks, triggers).store.channels;
      Tasks in after && after[Tasks] ==
        Topic(false, if Begins(tasks) || SendsPackets(tasks) then items else st.channels[Tasks].values)
  {
    TopicHolds(st, tasks, triggers, Tasks, batch, items);
    if !SendsPackets(tasks) {
      NothingSent(tasks);
      OneBatch(Sort(tasks), Tasks, batch, []);
      OneSpread([], items, []);
      assert st.channels[Tasks].values + [] == st.channels[Tasks].values;
    } else {
      SentSome(tasks);
      GetsBatch(tasks, Tasks, batch);
    }
    assert [] + items == items;
  }

  lemma {:induction false} SomeValueOf(ws: seq<Write>, c: ChannelName)
    requires exists w <- ws :: w.0 == c
    ensures Values(ws, c) != []
  {
    if ws[0].0 != c {
      var w :| w in ws && w.0 == c;
      assert w in ws[1..];
      SomeValueOf(ws[1..], c);
    }
  }

  lemma {:induction false} SomeWrite(tasks: seq<Task>, c: ChannelName)
    requires exists t <- tasks :: exists w <- t.writes :: w.0 == c
    ensures Values(AllWrites(tasks), c) != []
  {
    ValuesConcat(tasks[0].writes, AllWrites(tasks[1..]), c);
    if exists w <- tasks[0].writes :: w.0 == c {
      SomeValueOf(tasks[0].writes, c);
    } else {
      var t :| t in tasks && exists w <- t.writes :: w.0 == c;
      assert t in tasks[1..];
      SomeWrite(tasks[1..], c);
    }
  }

  lemma SentSome(tasks: seq<Task>)
    requires SendsPackets(tasks)
    ensures Batch(tasks, Tasks) != []
  {
    SortSorts(tasks);
    SameMembers(tasks, Sort(tasks));
    var t :| t in tasks && exists w <- t.writes :: w.0 == Tasks;
    assert t in Sort(tasks);
    SomeWrite(Sort(tasks), Tasks);
  }

  lemma MovePackets(procs: Processes, s: Loop, move: Move, s': Loop, items: seq<Value>)
    requires Makes(procs, s, move, s') && Sent(move, items)
    requires HasPackets(s) && !s.store.channels[Tasks].accumulate
    ensures HasPackets(s') && !s'.store.channels[Tasks].accumulate
    ensures PacketsIn(s') == if Replaces(move) then items else PacketsIn(s)
  {
    var batch :| Gets(TasksOf(move), Tasks, batch) && Spread(batch, items);
    match move
    case Ran(tasks) => AppliedPackets(s.store, tasks, TriggerKeys(procs), batch, items);
    case Given(d, input) => AppliedPackets(s.store, d + [NullTask(input)], TriggerKeys(procs), batch, items);
    case Commanded(writes) => AppliedPackets(s.store, [NullTask(writes)], TriggerKeys(procs), batch, items);
    case _ =>
  }

  // ---------------------------------------------------------------- every run

  ghost predicate Holding(s: Loop, packets: seq<Value>) {
    HasPackets(s) && !s.store.channels[Tasks].accumulate && PacketsIn(s) == packets
  }

  lemma StepHolds(procs: Processes, states: seq<Loop>, moves: seq<Move>, k: nat, packets: seq<Value>, items: seq<Value>)
    requires PacketRun(procs, states, moves) && k < |moves|
    requires Holding(states[k], packets) && Sent(moves[k], items)
    ensures Holding(states[k + 1], if Replaces(moves[k]) then items else packets)
  {
    assert Makes(procs, states[k], moves[k], states[k + 1]);
    MovePackets(procs, states[k], moves[k], states[k + 1], items);
  }

  /** There is always a channel of packets, and what it holds. */
  lemma {:induction false} SomePackets(procs: Processes, states: seq<Loop>, moves: seq<Move>, k: nat)
    returns (packets: seq<Value>)
    requires PacketRun(procs, states, moves) && k <= |moves|
    ensures Holding(states[k], packets)
  {
    packets := [];
    if k > 0 {
      var before := SomePackets(procs, states, moves, k - 1);
      var items := MoveSends(moves[k - 1]);
      StepHolds(procs, states, moves, k - 1, before, items);
      packets := if Replaces(moves[k - 1]) then items else before;
    }
  }

  /** No move strictly between the two replaces the packets. */
  predicate Undisturbed(moves: seq<Move>, i: nat, k: nat)
    requires i < k <= |moves|
  {
    forall m :: i < m < k ==> !Replaces(moves[m])
  }

  lemma UndisturbedMore(moves: seq<Move>, i: nat, k: nat)
    requires i < k < |moves|
    ensures Undisturbed(moves, i, k + 1) <==> Undisturbed(moves, i, k) && !Replaces(moves[k])
  {}

  /** What a move sent is there until the next one that replaces it. */
  lemma {:induction false} PacketsSince(procs: Processes, states: seq<Loop>, moves: seq<Move>, i: nat, k: nat,
          items: seq<Value>)
    requires PacketRun(procs, states, moves) && i < k <= |moves| && Replaces(moves[i]) && Sent(moves[i], items)
    requires Undisturbed(moves, i, k)
    ensures Holding(states[k], items)
  {
    if k == i + 1 {
      SentHolds(procs, states, moves, i, items);
    } else {
      UndisturbedMore(moves, i, k - 1);
      PacketsSince(procs, states, moves, i, k - 1, items);
      KeepsHolding(procs, states, moves, k, items);
    }
  }

  lemma SentHolds(procs: Processes, states: seq<Loop>, moves: seq<Move>, k: nat, items: seq<Value>)
    requires PacketRun(procs, states, moves) && k < |moves| && Replaces(moves[k]) && Sent(moves[k], items)
    ensures Holding(states[k + 1], items)
  {
    var before := SomePackets(procs, states, moves, k);
    StepHolds(procs, states, moves, k, before, items);
  }

  lemma KeepsHolding(procs: Processes, states: seq<Loop>, moves: seq<Move>, k: nat, packets: seq<Value>)
    requires PacketRun(procs, states, moves) && 0 < k <= |moves|
    requires !Replaces(moves[k - 1]) && Holding(states[k - 1], packets)
    ensures Holding(states[k], packets)
  {
    var none := MoveSends(moves[k - 1]);
    StepHolds(procs, states, moves, k - 1, packets, none);
  }

  /** The step at `k` runs the packets that the move at `i` sent. */
  ghost predicate RunsThem(moves: seq<Move>, i: nat, k: nat) {
    i < k < |moves| && moves[k].Ran? && Undisturbed(moves, i, k)
  }

  /** Each packet that is sent yields its task in the step that is next to replace the packets, if
      that is a superstep, and in no other; it yields none if new input or a command is next. */
  lemma EachPacketOnce(procs: Processes, states: seq<Loop>, moves: seq<Move>, i: nat, k: nat, items: seq<Value>)
    requires PacketRun(procs, states, moves) && i < k < |moves| && Replaces(moves[i]) && Sent(moves[i], items)
    requires Replaces(moves[k]) && Undisturbed(moves, i, k)
    ensures moves[k].Ran? ==> MadeFor(procs, items, Pushes(moves[k].tasks))
    ensures forall m: nat :: RunsThem(moves, i, m) <==> m == k && moves[k].Ran?
  {
    PacketsSince(procs, states, moves, i, k, items);
    assert Delivers(procs, states[k], moves[k]);
    forall m: nat | RunsThem(moves, i, m) ensures m == k {
      assert Makes(procs, states[m], moves[m], states[m + 1]);
      RanBegins(procs, states[m], moves[m].tasks, states[m + 1]);
      assert Replaces(moves[m]);
    }
  }

  ghost predicate SentAt(moves: seq<Move>, i: nat, k: nat, packets: seq<Value>) {
    i < k <= |moves| && Replaces(moves[i]) && Undisturbed(moves, i, k) && Sent(moves[i], packets)
  }

  /** Packets that wait were all sent by one earlier move, and none has replaced them since. */
  lemma {:induction false} PacketsComeFrom(procs: Processes, states: seq<Loop>, moves: seq<Move>, k: nat)
    returns (i: nat, packets: seq<Value>)
    requires PacketRun(procs, states, moves) && k <= |moves|
    ensures Holding(states[k], packets) && (packets == [] || SentAt(moves, i, k, packets))
  {
    if k == 0 {
      i, packets := 0, [];
    } else {
      var items := MoveSends(moves[k - 1]);
      i, packets := PacketsComeFrom(procs, states, moves, k - 1);
      StepHolds(procs, states, moves, k - 1, packets, items);
      if Replaces(moves[k - 1]) {
        i, packets := k - 1, items;
      } else if packets != [] {
        UndisturbedMore(moves, i, k - 1);
      }
    }
  }

  /** A command that sends a packet drops the packets that were waiting. */
  lemma CommandDropsPackets(procs: Processes, s: Loop, target: Node, arg: Value, s': Loop)
    requires HasPackets(s) && !s.store.channels[Tasks].accumulate
    requires NullStep(procs, s, [(Tasks, Send(target, arg))], s')
    ensures HasPackets(s') && PacketsIn(s') == [Send(target, arg)]
  {
    var w: Write := (Tasks, Send(target, arg));
    var move := Commanded([w]);
    var tasks := TasksOf(move);
    assert tasks[1..] == [] && [w][1..] == [] && [w.1][1..] == [];
    assert Sort(tasks) == tasks;
    assert AllWrites(tasks) == [w] + [] == [w];
    assert Values([w], Tasks) == [w.1] + Values([], Tasks) == [w.1];
    assert Batch(tasks, Tasks) == [w.1];
    BatchGets(tasks, Tasks);
    FlattenSpreads([w.1]);
    assert Flatten([w.1]) == [w.1] + [] == [w.1];
    assert NullTask([w]) in tasks && w in NullTask([w]).writes;
    MovePackets(procs, s, move, s', [w.1]);
  }

  // ---------------------------------------------------------------- tasks made one by one

  lemma MadeMore(procs: Processes, packets: seq<Value>, tasks: seq<Task>, at: seq<nat>, p: Value, t: Task)
    requires MadeAt(procs, packets, tasks, at) && Deliverable(procs, p) && TaskFor(p, |packets|, t)
    ensures MadeAt(procs, packets + [p], tasks + [t], at + [|packets|])
  {
    var more := at + [|packets|];
    forall i | 0 <= i < |more|
      ensures more[i] < |packets + [p]| && Deliverable(procs, (packets + [p])[more[i]])
      ensures TaskFor((packets + [p])[more[i]], more[i], (tasks + [t])[i])
    {
      if i < |at| { assert more[i] == at[i]; }
    }
    forall k | 0 <= k < |packets + [p]| && Deliverable(procs, (packets + [p])[k]) ensures k in more {
      if k < |packets| { assert k in at; }
    }
  }

  lemma MadeSkips(procs: Processes, packets: seq<Value>, tasks: seq<Task>, at: seq<nat>, p: Value)
    requires MadeAt(procs, packets, tasks, at) && !Deliverable(procs, p)
    ensures MadeAt(procs, packets + [p], tasks, at)
  {
    forall k | 0 <= k < |packets + [p]| && Deliverable(procs, (packets + [p])[k]) ensures k in at {
      assert k < |packets| && packets[k] == (packets + [p])[k];
    }
  }

  lemma MadeOneMore(procs: Processes, packets: seq<Value>, tasks: seq<Task>, p: Value, t: Task)
    requires MadeFor(procs, packets, tasks) && (Deliverable(procs, p) ==> TaskFor(p, |packets|, t))
    ensures MadeFor(procs, packets + [p], if Deliverable(procs, p) then tasks + [t] else tasks)
  {
    var at: seq<nat> :| MadeAt(procs, packets, tasks, at);
    if Deliverable(procs, p) { MadeMore(procs, packets, tasks, at, p, t); }
      else { MadeSkips(procs, packets, tasks, at, p); }
  }

  lemma NothingMade(procs: Processes, packets: seq<Value>, tasks: seq<Task>)
    requires MadeFor(procs, packets, tasks)
    ensures tasks == [] <==> forall p <- packets :: !Deliverable(procs, p)
  {
    var at: seq<nat> :| MadeAt(procs, packets, tasks, at);
    if p :| p in packets && Deliverable(procs, p) {
      var k :| 0 <= k < |packets| && packets[k] == p;
      assert k in at;
    }
    if at != [] { assert Deliverable(procs, packets[at[0]]); }
  }

  lemma NoneMade(procs: Processes)
    ensures MadeFor(procs, [], [])
  {
    assert MadeAt(procs, [], [], []);
  }

  /** The tasks that a list of packets yields are those that come from packets. */
  lemma {:induction false} PushesOnly(packets: seq<Task>, pulls: seq<Task>)
    requires (forall t <- packets :: FromPacket(t)) && (forall t <- pulls :: !FromPacket(t))
    ensures Pushes(packets + pulls) == packets
  {
    if pulls != [] {
      var n := |pulls| - 1;
      assert (packets + pulls)[..|packets| + n] == packets + pulls[..n];
      assert pulls[n] in pulls && forall t <- pulls[..n] :: t in pulls;
      PushesOnly(packets, pulls[..n]);
    } else if packets != [] {
      var n := |packets| - 1;
      assert (packets + pulls)[..n] == packets[..n] + [] && packets + pulls == packets;
      assert packets[n] in packets && forall t <- packets[..n] :: t in packets;
      PushesOnly(packets[..n], []);
      Lists.LastOff(packets);
    }
  }

  /** Tasks keep their packets when they write. */
  ghost predicate SamePaths(a: seq<Task>, b: seq<Task>) {
    |a| == |b| && forall i :: 0 <= i < |a| ==> SamePath(a[i], b[i])
  }

  predicate SamePath(a: Task, b: Task) { a == b.(writes := a.writes) }

  lemma {:induction false} PushesAlike(a: seq<Task>, b: seq<Task>)
    requires SamePaths(a, b)
    ensures SamePaths(Pushes(a), Pushes(b))
  {
    if a != [] {
      var n := |a| - 1;
      assert SamePath(a[n], b[n]);
      PushesAlike(a[..n], b[..n]);
    }
  }

  lemma StillMade(procs: Processes, packets: seq<Value>, due: seq<Task>, ran: seq<Task>)
    requires MadeFor(procs, packets, Pushes(due)) && SamePaths(ran, due)
    ensures MadeFor(procs, packets, Pushes(ran))
  {
    PushesAlike(ran, due);
    var at: seq<nat> :| MadeAt(procs, packets, Pushes(due), at);
    var a, b := Pushes(ran), Pushes(due);
    forall i | 0 <= i < |at| ensures TaskFor(packets[at[i]], at[i], a[i]) {
      assert TaskFor(packets[at[i]], at[i], b[i]);
    }
    assert MadeAt(procs, packets, a, at);
  }
}
