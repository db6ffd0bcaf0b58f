/** Which nodes run next. The scheduler looks only at nodes that listen to a channel of the
    last superstep; this module shows that it misses none. */
module Scheduling {
  import opened Channels
  import opened TaskOrder
  import opened Supersteps

  /** What a node reads: one channel, or whatever is there of several. */
  datatype NodeInput = One(c: ChannelName) | Several(cs: set<ChannelName>)

  /** `runs` is false for a process with nothing to run: no runnable and no writers. */
  datatype Process = Process(triggers: set<ChannelName>, input: NodeInput, runs: bool)

  type Processes = map<Node, Process>

  const INPUT: Node := "__input__"
  const INTERRUPT: Node := "__interrupt__"

  function TriggerKeys(procs: Processes): set<ChannelName> {
    set n, c | n in procs && c in procs[n].triggers :: c
  }

  function VersionOf(versions: map<ChannelName, nat>, c: ChannelName): nat {
    if c in versions then versions[c] else 0
  }

  /** The channel holds something the node has not seen. */
  predicate Offers(st: Store, n: Node, c: ChannelName) {
    && c in st.channels && st.channels[c].Available()
    && (n in st.seen ==> VersionOf(st.versions, c) > VersionOf(st.seen[n], c))
  }

  predicate Triggered(st: Store, procs: Processes, n: Node)
    requires n in procs
  {
    exists c <- procs[n].triggers :: Offers(st, n, c)
  }

  predicate HasInput(st: Store, p: Process) {
    p.input.One? ==> p.input.c in st.channels && st.channels[p.input.c].Available()
  }

  /** A triggered process gets no task if it has nothing to read or nothing to run. */
  predicate Yields(st: Store, p: Process) { p.runs && HasInput(st, p) }

  predicate Ready(st: Store, procs: Processes, n: Node)
    requires n in procs
  {
    st.versions != map[] && Triggered(st, procs, n) && Yields(st, procs[n])
  }

  /** A node is due exactly if it has something to run and something to read, and one of its
      triggers holds a value that is newer than what the node has seen. */
  lemma ReadyExactly(st: Store, procs: Processes, n: Node)
    requires n in procs
    ensures Ready(st, procs, n) <==>
      && st.versions != map[] && procs[n].runs
      && (procs[n].input.One? ==> procs[n].input.c in st.channels && st.channels[procs[n].input.c].Available())
      && exists c :: c in procs[n].triggers && c in st.channels && st.channels[c].Available() &&
           (n !in st.seen || (c in st.versions && st.versions[c] > 0 &&
                              (c in st.seen[n] ==> st.versions[c] > st.seen[n][c])))
  {
    if c :| c in procs[n].triggers && c in st.channels && st.channels[c].Available() &&
            (n !in st.seen || (c in st.versions && st.versions[c] > 0 &&
                               (c in st.seen[n] ==> st.versions[c] > st.seen[n][c]))) {
      assert Offers(st, n, c);
    }
    if Triggered(st, procs, n) {
      var c :| c in procs[n].triggers && Offers(st, n, c);
    }
  }

  /** The nodes that are looked at. `indexed` says whether the map from triggers to nodes
      was passed in. An empty set of updated channels counts as none at all. */
  function Candidates(st: Store, procs: Processes, updated: Option<set<ChannelName>>, indexed: bool): set<Node> {
    if updated.Some? && updated.value != {} && indexed && TriggerKeys(procs) != {} then
      set n | n in procs && procs[n].triggers * updated.value != {}
    else if st.versions == map[] then {}
    else procs.Keys
  }

  function Pull(st: Store, procs: Processes, updated: Option<set<ChannelName>>, indexed: bool): set<Node> {
    set n | n in Candidates(st, procs, updated, indexed) && n in procs && Ready(st, procs, n)
  }

  function FullScan(st: Store, procs: Processes): set<Node> {
    set n | n in procs && Ready(st, procs, n)
  }

  // ---------------------------------------------------------------- runs

  datatype Loop = Loop(store: Store, updated: Option<set<ChannelName>>)

  predicate IsPush(t: Task) { t.triggers == {Control(Push)} }

  /** One task for each chosen node, with its triggers; besides them any tasks made from
      packets for known nodes. What the tasks wrote is up to them. */
  ghost predicate TasksFor(procs: Processes, chosen: set<Node>, tasks: seq<Task>) {
    && (forall t <- tasks :: t.name in procs)
    && (forall t <- tasks :: IsPush(t) || (t.name in chosen && t.triggers == procs[t.name].triggers))
    && (forall n <- chosen :: exists t <- tasks :: t.name == n && n in procs && t.triggers == procs[n].triggers)
  }

  function NullTask(writes: seq<Write>): Task { Task([], INPUT, {}, writes) }

  ghost predicate Superstep(procs: Processes, s: Loop, tasks: seq<Task>, s': Loop) {
    && tasks != []
    && TasksFor(procs, Pull(s.store, procs, s.updated, true), tasks)
    && s'.updated.Some?
    && ApplyWrites(s.store, tasks, TriggerKeys(procs)) == Done(s'.store, s'.updated.value)
  }

  /** New input discards the tasks that were due, which are found by the full scan. */
  ghost predicate InputStep(procs: Processes, s: Loop, discarded: seq<Task>, writes: seq<Write>, s': Loop) {
    && TasksFor(procs, Pull(s.store, procs, s.updated, false), discarded)
    && s'.updated.Some?
    && ApplyWrites(s.store, discarded + [NullTask(writes)], TriggerKeys(procs)) == Done(s'.store, s'.updated.value)
  }

  /** Writes that belong to no task, such as those of a command. */
  ghost predicate NullStep(procs: Processes, s: Loop, writes: seq<Write>, s': Loop) {
    var r := ApplyWrites(s.store, [NullTask(writes)], TriggerKeys(procs));
    && r.Done? && s'.store == r.store
    && s'.updated == if s.updated.Some? then Some(s.updated.value + r.updated) else None
  }

  /** Resuming marks every channel that has a version as seen by the interrupt. */
  function Resumed(st: Store): Store {
    var now := map c | c in st.channels && c in st.versions :: st.versions[c];
    st.(seen := st.seen[INTERRUPT := SeenBy(st.seen, INTERRUPT) + now])
  }

  ghost predicate ResumeStep(s: Loop, s': Loop) { s'.updated == s.updated && s'.store == Resumed(s.store) }

  /** Reading a thread back takes an empty set of updated channels for none at all. */
  ghost predicate LoadStep(s: Loop, s': Loop) {
    s'.store == s.store && s'.updated == if s.updated == Some({}) then None else s.updated
  }

  ghost predicate Next(procs: Processes, s: Loop, s': Loop) {
    || (exists tasks :: Superstep(procs, s, tasks, s'))
    || (exists discarded, writes :: InputStep(procs, s, discarded, writes, s'))
    || (exists writes :: NullStep(procs, s, writes, s'))
    || ResumeStep(s, s')
    || LoadStep(s, s')
  }

  /** A channel as its constructor leaves it. */
  predicate Fresh(ch: Channel) {
    match ch
    case LastValue(v) => v == None
    case Ephemeral(_, v) => v == None
    case LastValueAfterFinish(v, f) => v == None && !f
    case Barrier(_, seen) => seen == {}
    case BarrierAfterFinish(_, seen, f) => seen == {} && !f
    case Topic(_, vs) => vs == []
    case Reducer(_, _) => true
  }

  /** The loop of a new thread: nothing has a version, and no trigger is available. */
  ghost predicate Initial(procs: Processes, s: Loop) {
    && s.updated == None && s.store.versions == map[] && s.store.seen == map[]
    && INPUT !in procs && INTERRUPT !in procs
    && forall c <- TriggerKeys(procs) ::
         c in s.store.channels && !c.Control? && Fresh(s.store.channels[c]) && !s.store.channels[c].Available()
  }

  /** A triggered node finds its input and has something to run. */
  ghost predicate Fed(procs: Processes, st: Store) {
    forall n <- procs :: Triggered(st, procs, n) ==> Yields(st, procs[n])
  }

  ghost predicate Run(procs: Processes, states: seq<Loop>) {
    && states != [] && Initial(procs, states[0])
    && (forall i :: 0 <= i < |states| - 1 ==> Next(procs, states[i], states[i + 1]))
    && (forall i :: 0 <= i < |states| ==> Fed(procs, states[i].store))
  }

  /** Inputs that cannot be missing: a node that reads several channels, or reads the very
      channel that triggers it. */
  ghost predicate SelfFed(procs: Processes) {
    forall n <- procs :: procs[n].runs && (procs[n].input.One? ==>
      forall c <- procs[n].triggers :: c == procs[n].input.c)
  }

  lemma SelfFedIsFed(procs: Processes, st: Store)
    requires SelfFed(procs)
    ensures Fed(procs, st)
  {
    forall n <- procs | Triggered(st, procs, n) ensures Yields(st, procs[n]) {
      var c :| c in procs[n].triggers && Offers(st, n, c);
    }
  }

  // ---------------------------------------------------------------- channel by channel

  /** A barrier that waits for nobody is available whatever happens. */
  predicate Empties(ch: Channel) { ch.Barrier? ==> ch.names != {} }

  lemma StagedFacts(ch: Channel, tasks: seq<Task>, c: ChannelName)
    requires Staged(ch, tasks, c).Some? && Empties(ch)
    ensures var cell := Staged(ch, tasks, c).value;
      && SameKind(ch, cell.channel)
      && (!cell.bumped && cell.channel.Available() ==> ch.Available())
      && (cell.bumped && cell.channel.Available() ==> cell.updated)
      && (cell.updated ==> cell.bumped && cell.channel.Available())
  {
    var batch := Batch(tasks, c);
    var used := Consumed(ch, ReadBy(tasks, c));
    if batch != [] && used.channel.Barrier? && AllKnown(batch, used.channel.names) {
      assert batch[0].node in NodesOf(batch);
    }
  }

  lemma FinalFacts(channels: map<ChannelName, Channel>, tasks: seq<Task>, triggers: set<ChannelName>, c: ChannelName)
    requires !Refuses(channels, tasks) && c in channels && Empties(channels[c])
    ensures var cell := Final(channels, tasks, triggers, c);
      && SameKind(channels[c], cell.channel)
      && (!cell.bumped && cell.channel.Available() ==> channels[c].Available())
      && (cell.bumped && cell.channel.Available() ==> cell.updated)
      && (cell.updated ==> cell.bumped && cell.channel.Available())
  {
    StagedFacts(channels[c], tasks, c);
  }

  // ---------------------------------------------------------------- the invariant

  ghost predicate SeenBounded(st: Store) {
    forall n, c :: n in st.seen && c in st.seen[n] ==> c in st.versions && st.seen[n][c] <= st.versions[c]
  }

  /** Trigger channels exist, empty when consumed, and carry a version when available. */
  ghost predicate Sound(procs: Processes, st: Store) {
    && INPUT !in procs && INTERRUPT !in procs
    && (forall c <- TriggerKeys(procs) ::
          && c in st.channels && !c.Control? && Empties(st.channels[c])
          && (st.channels[c].Available() ==> c in st.versions && st.versions[c] > 0))
    && SeenBounded(st)
  }

  /** Every triggered node listens to an updated channel. */
  ghost predicate Covered(procs: Processes, s: Loop) {
    s.updated.Some? ==> forall n <- procs :: Triggered(s.store, procs, n) ==> procs[n].triggers * s.updated.value != {}
  }

  lemma TriggerKey(procs: Processes, n: Node, c: ChannelName)
    requires n in procs && c in procs[n].triggers
    ensures c in TriggerKeys(procs)
  {}

  lemma CoveredFindsAll(procs: Processes, s: Loop, indexed: bool)
    requires Sound(procs, s.store) && Covered(procs, s)
    ensures Pull(s.store, procs, s.updated, indexed) == FullScan(s.store, procs)
  {}

  lemma VersionGrows(st: Store, tasks: seq<Task>, triggers: set<ChannelName>, c: ChannelName)
    requires ApplyWrites(st, tasks, triggers).Done? && c in st.versions
    ensures var st' := ApplyWrites(st, tasks, triggers).store;
      c in st'.versions && st.versions[c] <= st'.versions[c]
  {}

  /** Nodes only see versions that exist before the step. */
  lemma SeenIsOld(st: Store, tasks: seq<Task>, n: Node, c: ChannelName)
    requires SeenBounded(st) && n in SeenAfter(st, tasks) && c in SeenAfter(st, tasks)[n]
    ensures c in st.versions && SeenAfter(st, tasks)[n][c] <= st.versions[c]
  {
    var before, read := SeenBy(st.seen, n), Read(st.versions, tasks, n);
    assert SeenAfter(st, tasks)[n] == before + read;
    assert c in read ==> read[c] == st.versions[c];
    assert c in before ==> n in st.seen && c in st.versions && before[c] <= st.versions[c];
  }

  lemma SeenStaysBounded(st: Store, tasks: seq<Task>, triggers: set<ChannelName>)
    requires ApplyWrites(st, tasks, triggers).Done? && SeenBounded(st)
    ensures SeenBounded(ApplyWrites(st, tasks, triggers).store)
  {
    var st' := ApplyWrites(st, tasks, triggers).store;
    forall n, c | n in st'.seen && c in st'.seen[n] ensures c in st'.versions && st'.seen[n][c] <= st'.versions[c] {
      SeenStays(st, tasks, triggers, n, c);
    }
  }

  lemma SeenStays(st: Store, tasks: seq<Task>, triggers: set<ChannelName>, n: Node, c: ChannelName)
    requires ApplyWrites(st, tasks, triggers).Done? && SeenBounded(st)
    requires var st' := ApplyWrites(st, tasks, triggers).store; n in st'.seen && c in st'.seen[n]
    ensures var st' := ApplyWrites(st, tasks, triggers).store;
      c in st'.versions && st'.seen[n][c] <= st'.versions[c]
  {
    SeenIsOld(st, tasks, n, c);
    VersionGrows(st, tasks, triggers, c);
  }

  lemma SoundPreserved(procs: Processes, st: Store, tasks: seq<Task>)
    requires Sound(procs, st) && ApplyWrites(st, tasks, TriggerKeys(procs)).Done?
    ensures Sound(procs, ApplyWrites(st, tasks, TriggerKeys(procs)).store)
  {
    SeenStaysBounded(st, tasks, TriggerKeys(procs));
    var st' := ApplyWrites(st, tasks, TriggerKeys(procs)).store;
    forall c <- TriggerKeys(procs)
      ensures && c in st'.channels && Empties(st'.channels[c])
              && (st'.channels[c].Available() ==> c in st'.versions && st'.versions[c] > 0)
    {
      FinalFacts(st.channels, tasks, TriggerKeys(procs), c);
    }
  }

  /** After writes are applied, a node is offered a channel only if the channel was just
      updated, or if it was offered before to a node that did not run. */
  lemma OffersAfter(procs: Processes, st: Store, tasks: seq<Task>, n: Node, c: ChannelName)
    requires Sound(procs, st) && n in procs && c in procs[n].triggers
    requires var r := ApplyWrites(st, tasks, TriggerKeys(procs)); r.Done? && Offers(r.store, n, c)
    ensures || c in ApplyWrites(st, tasks, TriggerKeys(procs)).updated
            || (Offers(st, n, c) && !exists t <- tasks :: t.name == n && c in t.triggers)
  {
    TriggerKey(procs, n, c);
    var r := ApplyWrites(st, tasks, TriggerKeys(procs));
    FinalFacts(st.channels, tasks, TriggerKeys(procs), c);
    if c !in r.updated {
      assert r.store.versions[c] == st.versions[c];
      assert n in r.store.seen ==> r.store.seen[n] == SeenBy(st.seen, n) + Read(st.versions, tasks, n);
      assert n in st.seen ==> n in r.store.seen;
    }
  }

  lemma StepCovers(procs: Processes, s: Loop, chosen: seq<Task>, tasks: seq<Task>)
    requires Sound(procs, s.store) && Covered(procs, s) && Fed(procs, s.store)
    requires exists indexed :: TasksFor(procs, Pull(s.store, procs, s.updated, indexed), chosen)
    requires forall t <- chosen :: t in tasks
    requires ApplyWrites(s.store, tasks, TriggerKeys(procs)).Done?
    ensures var r := ApplyWrites(s.store, tasks, TriggerKeys(procs));
      Covered(procs, Loop(r.store, Some(r.updated)))
  {
    var r := ApplyWrites(s.store, tasks, TriggerKeys(procs));
    var indexed :| TasksFor(procs, Pull(s.store, procs, s.updated, indexed), chosen);
    CoveredFindsAll(procs, s, indexed);
    forall n <- procs | Triggered(r.store, procs, n) ensures procs[n].triggers * r.updated != {} {
      var c :| c in procs[n].triggers && Offers(r.store, n, c);
      OffersAfter(procs, s.store, tasks, n, c);
      if c !in r.updated {
        assert Triggered(s.store, procs, n);
        TriggerKey(procs, n, c);
        assert false;
      }
      assert c in procs[n].triggers * r.updated;
    }
  }

  lemma NullCovers(procs: Processes, s: Loop, writes: seq<Write>, s': Loop)
    requires Sound(procs, s.store) && Covered(procs, s) && NullStep(procs, s, writes, s')
    ensures Covered(procs, s')
  {
    if s'.updated.Some? {
      forall n <- procs | Triggered(s'.store, procs, n) ensures procs[n].triggers * s'.updated.value != {} {
        var c :| c in procs[n].triggers && Offers(s'.store, n, c);
        OffersAfter(procs, s.store, [NullTask(writes)], n, c);
        if c in s'.updated.value {
          assert c in procs[n].triggers * s'.updated.value;
        } else {
          assert Triggered(s.store, procs, n);
          var d :| d in procs[n].triggers * s.updated.value;
          assert d in procs[n].triggers * s'.updated.value;
        }
      }
    }
  }

  lemma ResumeKeeps(procs: Processes, s: Loop, s': Loop)
    requires Sound(procs, s.store) && Covered(procs, s) && ResumeStep(s, s')
    ensures Sound(procs, s'.store) && Covered(procs, s')
  {
    assert forall n <- procs :: n in s.store.seen <==> n in s'.store.seen;
    assert forall n <- procs :: n in s.store.seen ==> s.store.seen[n] == s'.store.seen[n];
    forall n <- procs ensures Triggered(s'.store, procs, n) ==> Triggered(s.store, procs, n) {
      if Triggered(s'.store, procs, n) {
        var c :| c in procs[n].triggers && Offers(s'.store, n, c);
        assert Offers(s.store, n, c);
      }
    }
  }

  lemma NextKeeps(procs: Processes, s: Loop, s': Loop)
    requires Sound(procs, s.store) && Covered(procs, s) && Fed(procs, s.store) && Next(procs, s, s')
    ensures Sound(procs, s'.store) && Covered(procs, s')
  {
    if tasks :| Superstep(procs, s, tasks, s') {
      SoundPreserved(procs, s.store, tasks);
      StepCovers(procs, s, tasks, tasks);
    } else if discarded, writes :| InputStep(procs, s, discarded, writes, s') {
      SoundPreserved(procs, s.store, discarded + [NullTask(writes)]);
      StepCovers(procs, s, discarded, discarded + [NullTask(writes)]);
    } else if writes :| NullStep(procs, s, writes, s') {
      SoundPreserved(procs, s.store, [NullTask(writes)]);
      NullCovers(procs, s, writes, s');
    } else if ResumeStep(s, s') {
      ResumeKeeps(procs, s, s');
    }
  }

  lemma InitiallySound(procs: Processes, s: Loop)
    requires Initial(procs, s)
    ensures Sound(procs, s.store) && Covered(procs, s)
  {}

  lemma {:induction false} RunKeeps(procs: Processes, states: seq<Loop>, i: nat)
    requires Run(procs, states) && i < |states|
    ensures Sound(procs, states[i].store) && Covered(procs, states[i])
  {
    if i == 0 {
      InitiallySound(procs, states[0]);
    } else {
      RunKeeps(procs, states, i - 1);
      RunAt(procs, states, i - 1);
      NextKeeps(procs, states[i - 1], states[i]);
    }
  }

  lemma RunAt(procs: Processes, states: seq<Loop>, i: nat)
    requires Run(procs, states) && i + 1 < |states|
    ensures Next(procs, states[i], states[i + 1]) && Fed(procs, states[i].store)
  {}

  /** In every state a run reaches, looking only at the nodes behind updated channels finds
      the same tasks as looking at every node. */
  lemma CandidatesAreEnough(procs: Processes, states: seq<Loop>, i: nat)
    requires Run(procs, states) && i < |states|
    ensures Pull(states[i].store, procs, states[i].updated, true) == FullScan(states[i].store, procs)
  {
    RunKeeps(procs, states, i);
    CoveredFindsAll(procs, states[i], true);
  }
}
