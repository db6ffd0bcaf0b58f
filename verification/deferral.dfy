/** A deferred node runs only when no ordinary node is triggered, unless a command wakes one beside it. */
module Deferral {
  import opened Channels
  import opened TaskOrder
  import opened Supersteps
  import opened Scheduling

  /** Deferred nodes listen to channels that wait for `finish`, ordinary nodes to others. */
  ghost predicate Partitioned(procs: Processes, deferred: set<Node>, channels: map<ChannelName, Channel>) {
    forall n, c :: n in procs && c in procs[n].triggers ==>
      c in channels && (channels[c].WaitsForFinish() <==> n in deferred)
  }

  /** A barrier that was told to finish stays complete until it is consumed. */
  predicate Settled(ch: Channel) {
    match ch
    case LastValueAfterFinish(v, f) => f ==> v.Some?
    case BarrierAfterFinish(names, seen, f) => f ==> seen == names
    case _ => true
  }

  // ---------------------------------------------------------------- runs, step by step

  /** What one step of a run did. */
  datatype Move =
    | Ran(tasks: seq<Task>)
    | Given(discarded: seq<Task>, input: seq<Write>)
    | Commanded(writes: seq<Write>)
    | Resuming
    | Loading

  ghost predicate Makes(procs: Processes, s: Loop, move: Move, s': Loop) {
    match move
    case Ran(tasks) => Superstep(procs, s, tasks, s')
    case Given(discarded, input) => InputStep(procs, s, discarded, input, s')
    case Commanded(writes) => NullStep(procs, s, writes, s')
    case Resuming => ResumeStep(s, s')
    case Loading => LoadStep(s, s')
  }

  ghost predicate MovedRun(procs: Processes, deferred: set<Node>, states: seq<Loop>, moves: seq<Move>) {
    && states != [] && Initial(procs, states[0]) && |states| == |moves| + 1
    && Partitioned(procs, deferred, states[0].store.channels)
    && (forall i :: 0 <= i < |moves| ==> Makes(procs, states[i], moves[i], states[i + 1]))
    && (forall i :: 0 <= i < |states| ==> Fed(procs, states[i].store))
  }

  // ---------------------------------------------------------------- the invariant

  /** Whatever a deferred node could be woken by wakes it now. */
  ghost predicate Pending(procs: Processes, st: Store) {
    forall n, c :: n in procs && c in procs[n].triggers && Awake(st, c) ==> Offers(st, n, c)
  }

  predicate Awake(st: Store, c: ChannelName) {
    c in st.channels && st.channels[c].WaitsForFinish() && st.channels[c].Available()
  }

  ghost predicate AllSettled(procs: Processes, st: Store) {
    forall c <- TriggerKeys(procs) :: c in st.channels && Settled(st.channels[c])
  }

  ghost predicate OneKindOnly(procs: Processes, deferred: set<Node>, st: Store) {
    !exists n, m :: n in procs && n in deferred && Triggered(st, procs, n)
                 && m in procs && m !in deferred && Triggered(st, procs, m)
  }

  ghost predicate Settling(procs: Processes, deferred: set<Node>, st: Store) {
    Partitioned(procs, deferred, st.channels) && AllSettled(procs, st) && Pending(procs, st)
  }

  lemma SettledByUpdate(ch: Channel, vals: seq<Value>)
    requires Settled(ch) && ch.Update(vals).Accepted?
    ensures Settled(ch.Update(vals).channel)
  {}

  lemma SettledPreserved(ch: Channel, tasks: seq<Task>, c: ChannelName, last: bool)
    requires Staged(ch, tasks, c).Some? && Settled(ch)
    ensures Settled(Finished(Staged(ch, tasks, c).value, last).channel)
  {
    var batch := Batch(tasks, c);
    var used := Consumed(ch, ReadBy(tasks, c));
    assert Settled(used.channel);
    var written := Written(used, batch).value;
    if batch != [] { SettledByUpdate(used.channel, batch); }
    assert Settled(written.channel);
    if written.channel.Update([]).Accepted? { SettledByUpdate(written.channel, []); }
    assert Settled(Notified(written, Bumps(tasks)).channel);
  }

  lemma UnreadStaysAsleep(ch: Channel, tasks: seq<Task>, c: ChannelName)
    requires Staged(ch, tasks, c).Some? && Settled(ch) && ch.WaitsForFinish()
    requires ch.Available() ==> ReadBy(tasks, c)
    ensures !Staged(ch, tasks, c).value.channel.Available()
    ensures SameKind(ch, Staged(ch, tasks, c).value.channel)
  {}

  /** Every triggered node is among the tasks, with all its triggers. */
  ghost predicate RunsAll(procs: Processes, st: Store, tasks: seq<Task>) {
    forall n <- procs :: Triggered(st, procs, n) ==>
      exists t <- tasks :: t.name == n && t.triggers == procs[n].triggers
  }

  lemma DeferredAsleep(procs: Processes, st: Store, tasks: seq<Task>, n: Node, c: ChannelName)
    requires Sound(procs, st) && AllSettled(procs, st) && Pending(procs, st) && RunsAll(procs, st, tasks)
    requires !Refuses(st.channels, tasks)
    requires n in procs && c in procs[n].triggers && st.channels[c].WaitsForFinish()
    ensures c in st.channels && !Staged(st.channels[c], tasks, c).value.channel.Available()
    ensures SameKind(st.channels[c], Staged(st.channels[c], tasks, c).value.channel)
  {
    TriggerKey(procs, n, c);
    if st.channels[c].Available() {
      assert Offers(st, n, c);
      assert Triggered(st, procs, n);
      var t :| t in tasks && t.name == n && t.triggers == procs[n].triggers;
    }
    UnreadStaysAsleep(st.channels[c], tasks, c);
  }

  /** A channel with a version of this step is new to every node. */
  lemma BumpedOffers(procs: Processes, st: Store, tasks: seq<Task>, n: Node, c: ChannelName)
    requires SeenBounded(st) && ApplyWrites(st, tasks, TriggerKeys(procs)).Done? && c in st.channels
    requires Final(st.channels, tasks, TriggerKeys(procs), c).bumped
    requires Final(st.channels, tasks, TriggerKeys(procs), c).channel.Available()
    ensures Offers(ApplyWrites(st, tasks, TriggerKeys(procs)).store, n, c)
  {
    ResultAt(st, tasks, TriggerKeys(procs), c);
    if n in SeenAfter(st, tasks) && c in SeenAfter(st, tasks)[n] { SeenIsOld(st, tasks, n, c); }
  }

  /** A channel that only `finish` made available has a new version. */
  lemma FinishBumps(cell: Cell, last: bool)
    requires !cell.channel.Available() && Finished(cell, last).channel.Available()
    ensures Finished(cell, last).bumped
  {}

  lemma AwakeOffers(procs: Processes, st: Store, tasks: seq<Task>, n: Node, c: ChannelName)
    requires Sound(procs, st) && AllSettled(procs, st) && Pending(procs, st) && RunsAll(procs, st, tasks)
    requires ApplyWrites(st, tasks, TriggerKeys(procs)).Done?
    requires n in procs && c in procs[n].triggers && Awake(ApplyWrites(st, tasks, TriggerKeys(procs)).store, c)
    ensures Offers(ApplyWrites(st, tasks, TriggerKeys(procs)).store, n, c)
  {
    TriggerKey(procs, n, c);
    KindStays(st, tasks, TriggerKeys(procs), c);
    DeferredAsleep(procs, st, tasks, n, c);
    FinishBumps(Staged(st.channels[c], tasks, c).value, LooksLast(st.channels, tasks, TriggerKeys(procs)));
    BumpedOffers(procs, st, tasks, n, c);
  }

  lemma KindStays(st: Store, tasks: seq<Task>, triggers: set<ChannelName>, c: ChannelName)
    requires ApplyWrites(st, tasks, triggers).Done? && c in st.channels && Empties(st.channels[c])
    requires Awake(ApplyWrites(st, tasks, triggers).store, c)
    ensures st.channels[c].WaitsForFinish() && Final(st.channels, tasks, triggers, c).channel.Available()
  {
    ResultAt(st, tasks, triggers, c);
    FinalFacts(st.channels, tasks, triggers, c);
  }

  lemma PendingAfter(procs: Processes, st: Store, tasks: seq<Task>)
    requires Sound(procs, st) && AllSettled(procs, st) && Pending(procs, st) && RunsAll(procs, st, tasks)
    requires ApplyWrites(st, tasks, TriggerKeys(procs)).Done?
    ensures Pending(procs, ApplyWrites(st, tasks, TriggerKeys(procs)).store)
  {
    var st' := ApplyWrites(st, tasks, TriggerKeys(procs)).store;
    forall n, c | n in procs && c in procs[n].triggers && Awake(st', c) ensures Offers(st', n, c) {
      AwakeOffers(procs, st, tasks, n, c);
    }
  }

  /** Finishing touches none of the channels that ordinary nodes listen to. */
  lemma LastUpdatesNone(channels: map<ChannelName, Channel>, tasks: seq<Task>, triggers: set<ChannelName>,
          c: ChannelName)
    requires !Refuses(channels, tasks) && LooksLast(channels, tasks, triggers)
    requires c in channels && c in triggers && Empties(channels[c]) && !channels[c].WaitsForFinish()
    ensures !Final(channels, tasks, triggers, c).updated
  {
    StagedFacts(channels[c], tasks, c);
  }

  /** When the step looks last, no ordinary node is offered anything after it. */
  lemma NoneOffered(procs: Processes, st: Store, tasks: seq<Task>, m: Node, c: ChannelName)
    requires Sound(procs, st) && RunsAll(procs, st, tasks)
    requires ApplyWrites(st, tasks, TriggerKeys(procs)).Done? && LooksLast(st.channels, tasks, TriggerKeys(procs))
    requires m in procs && c in procs[m].triggers && !st.channels[c].WaitsForFinish()
    ensures !Offers(ApplyWrites(st, tasks, TriggerKeys(procs)).store, m, c)
  {
    TriggerKey(procs, m, c);
    LastUpdatesNone(st.channels, tasks, TriggerKeys(procs), c);
    ResultAt(st, tasks, TriggerKeys(procs), c);
    if Offers(ApplyWrites(st, tasks, TriggerKeys(procs)).store, m, c) {
      OffersAfter(procs, st, tasks, m, c);
      assert Triggered(st, procs, m);
    }
  }

  /** A deferred node that is offered something was woken by this very step. */
  lemma OfferedMeansLast(procs: Processes, st: Store, tasks: seq<Task>, n: Node, c: ChannelName)
    requires Sound(procs, st) && AllSettled(procs, st) && Pending(procs, st) && RunsAll(procs, st, tasks)
    requires ApplyWrites(st, tasks, TriggerKeys(procs)).Done?
    requires n in procs && c in procs[n].triggers && st.channels[c].WaitsForFinish()
    requires Offers(ApplyWrites(st, tasks, TriggerKeys(procs)).store, n, c)
    ensures LooksLast(st.channels, tasks, TriggerKeys(procs))
  {
    DeferredAsleep(procs, st, tasks, n, c);
    ResultAt(st, tasks, TriggerKeys(procs), c);
  }

  lemma OneKindAfter(procs: Processes, deferred: set<Node>, st: Store, tasks: seq<Task>)
    requires Sound(procs, st) && AllSettled(procs, st) && Pending(procs, st) && RunsAll(procs, st, tasks)
    requires Partitioned(procs, deferred, st.channels)
    requires ApplyWrites(st, tasks, TriggerKeys(procs)).Done?
    ensures OneKindOnly(procs, deferred, ApplyWrites(st, tasks, TriggerKeys(procs)).store)
  {
    var st' := ApplyWrites(st, tasks, TriggerKeys(procs)).store;
    if n :| n in procs && n in deferred && Triggered(st', procs, n) {
      var c :| c in procs[n].triggers && Offers(st', n, c);
      OfferedMeansLast(procs, st, tasks, n, c);
      forall m, d | m in procs && m !in deferred && d in procs[m].triggers ensures !Offers(st', m, d) {
        NoneOffered(procs, st, tasks, m, d);
      }
    }
  }

  lemma ShapesAfter(procs: Processes, deferred: set<Node>, st: Store, tasks: seq<Task>)
    requires Sound(procs, st) && AllSettled(procs, st) && Partitioned(procs, deferred, st.channels)
    requires ApplyWrites(st, tasks, TriggerKeys(procs)).Done?
    ensures var st' := ApplyWrites(st, tasks, TriggerKeys(procs)).store;
      AllSettled(procs, st') && Partitioned(procs, deferred, st'.channels)
  {
    var st' := ApplyWrites(st, tasks, TriggerKeys(procs)).store;
    forall c <- TriggerKeys(procs)
      ensures c in st'.channels && SameKind(st.channels[c], st'.channels[c]) && Settled(st'.channels[c])
    {
      FinalFacts(st.channels, tasks, TriggerKeys(procs), c);
      SettledPreserved(st.channels[c], tasks, c, LooksLast(st.channels, tasks, TriggerKeys(procs)));
    }
    forall n, c | n in procs && c in procs[n].triggers
      ensures c in st'.channels && (st'.channels[c].WaitsForFinish() <==> n in deferred)
    {
      TriggerKey(procs, n, c);
    }
  }

  /** A step with tasks settles which kind of nodes goes next, whatever was due before. */
  lemma StepDefers(procs: Processes, deferred: set<Node>, st: Store, tasks: seq<Task>)
    requires Sound(procs, st) && Settling(procs, deferred, st) && RunsAll(procs, st, tasks)
    requires ApplyWrites(st, tasks, TriggerKeys(procs)).Done?
    ensures Settling(procs, deferred, ApplyWrites(st, tasks, TriggerKeys(procs)).store)
    ensures OneKindOnly(procs, deferred, ApplyWrites(st, tasks, TriggerKeys(procs)).store)
  {
    PendingAfter(procs, st, tasks);
    OneKindAfter(procs, deferred, st, tasks);
    ShapesAfter(procs, deferred, st, tasks);
  }

  lemma ChosenRunsAll(procs: Processes, s: Loop, indexed: bool, chosen: seq<Task>, tasks: seq<Task>)
    requires Sound(procs, s.store) && Covered(procs, s) && Fed(procs, s.store)
    requires TasksFor(procs, Pull(s.store, procs, s.updated, indexed), chosen)
    requires forall t <- chosen :: t in tasks
    ensures RunsAll(procs, s.store, tasks)
  {
    CoveredFindsAll(procs, s, indexed);
    forall n <- procs | Triggered(s.store, procs, n)
      ensures exists t <- tasks :: t.name == n && t.triggers == procs[n].triggers
    {
      var c :| c in procs[n].triggers && Offers(s.store, n, c);
      TriggerKey(procs, n, c);
      assert n in FullScan(s.store, procs);
      var t :| t in chosen && t.name == n && t.triggers == procs[n].triggers;
      assert t in tasks;
    }
  }

  lemma {:induction false} ValuesNone(writes: seq<Write>, c: ChannelName)
    requires forall w <- writes :: w.0 != c
    ensures Values(writes, c) == []
  {
    if writes != [] { ValuesNone(writes[1..], c); }
  }

  // ---------------------------------------------------------------- writes of no task

  /** Writes that no node listens to. */
  ghost predicate Quiet(procs: Processes, writes: seq<Write>) {
    forall w <- writes :: w.0 !in TriggerKeys(procs)
  }

  /** Nothing a node listens to changed between two stores. */
  ghost predicate SameOffers(procs: Processes, st: Store, st': Store) {
    && (forall c <- TriggerKeys(procs) :: c in st.channels && c in st'.channels && st'.channels[c] == st.channels[c])
    && (forall n, c :: n in procs && c in procs[n].triggers ==> Offers(st, n, c) == Offers(st', n, c))
    && (forall n <- procs :: Triggered(st, procs, n) == Triggered(st', procs, n))
  }

  lemma NullTaskBatch(writes: seq<Write>, c: ChannelName)
    requires forall w <- writes :: w.0 != c
    ensures Batch([NullTask(writes)], c) == [] && !ReadBy([NullTask(writes)], c) && !Bumps([NullTask(writes)])
  {
    var tasks := [NullTask(writes)];
    assert Sort(tasks) == tasks;
    assert AllWrites(tasks) == writes + AllWrites(tasks[1..]);
    ValuesNone(AllWrites(tasks), c);
  }

  lemma NullTaskSeesNothing(st: Store, writes: seq<Write>, n: Node)
    requires n != INPUT
    ensures n in SeenAfter(st, [NullTask(writes)]) <==> n in st.seen
    ensures n in st.seen ==> SeenAfter(st, [NullTask(writes)])[n] == st.seen[n]
  {
    assert Read(st.versions, [NullTask(writes)], n) == map[];
  }

  lemma QuietSame(procs: Processes, s: Loop, writes: seq<Write>, s': Loop)
    requires Sound(procs, s.store) && Quiet(procs, writes) && NullStep(procs, s, writes, s')
    ensures SameOffers(procs, s.store, s'.store)
  {
    var tasks := [NullTask(writes)];
    assert s'.store.seen == SeenAfter(s.store, tasks);
    forall c <- TriggerKeys(procs)
      ensures c in s'.store.channels && s'.store.channels[c] == s.store.channels[c]
      ensures VersionOf(s'.store.versions, c) == VersionOf(s.store.versions, c)
    {
      NullTaskBatch(writes, c);
      ResultAt(s.store, tasks, TriggerKeys(procs), c);
    }
    forall n <- procs ensures (n in s.store.seen <==> n in s'.store.seen) &&
      (n in s.store.seen ==> s'.store.seen[n] == s.store.seen[n]) {
      NullTaskSeesNothing(s.store, writes, n);
    }
    forall n, c | n in procs && c in procs[n].triggers ensures Offers(s.store, n, c) == Offers(s'.store, n, c) {
      TriggerKey(procs, n, c);
    }
  }

  lemma ResumeSame(procs: Processes, s: Loop, s': Loop)
    requires Sound(procs, s.store) && ResumeStep(s, s')
    ensures SameOffers(procs, s.store, s'.store)
  {
    assert forall n <- procs :: n in s.store.seen <==> n in s'.store.seen;
    assert forall n <- procs :: n in s.store.seen ==> s.store.seen[n] == s'.store.seen[n];
    forall n, c | n in procs ensures Offers(s.store, n, c) == Offers(s'.store, n, c) {}
  }

  lemma SameKeeps(procs: Processes, deferred: set<Node>, st: Store, st': Store)
    requires Settling(procs, deferred, st) && SameOffers(procs, st, st')
    ensures Settling(procs, deferred, st')
    ensures OneKindOnly(procs, deferred, st') <==> OneKindOnly(procs, deferred, st)
  {
    forall n, c | n in procs && c in procs[n].triggers ensures c in TriggerKeys(procs) { TriggerKey(procs, n, c); }
  }

  /** Writing to a channel takes back that the run looked finished, except from a barrier that
      is complete. */
  predicate StaysOffered(st: Store, writes: seq<Write>, n: Node, c: ChannelName) {
    Offers(st, n, c) && (st.channels[c].LastValueAfterFinish? ==> Batch([NullTask(writes)], c) == [])
  }

  /** The writes put something new into the channel and make it available. */
  predicate Wakes(st: Store, writes: seq<Write>, c: ChannelName) {
    var batch := Batch([NullTask(writes)], c);
    && c in st.channels && batch != []
    && st.channels[c].Update(batch).Accepted?
    && st.channels[c].Update(batch).changed && st.channels[c].Update(batch).channel.Available()
  }

  /** No deferred node stays due, or no ordinary one is woken. */
  ghost predicate KeepsApart(procs: Processes, deferred: set<Node>, st: Store, writes: seq<Write>) {
    || (forall n, c :: n in procs && n in deferred && c in procs[n].triggers ==> !StaysOffered(st, writes, n, c))
    || (forall m, c :: m in procs && m !in deferred && c in procs[m].triggers ==> !Wakes(st, writes, c))
  }

  lemma NullTaskReads(writes: seq<Write>, c: ChannelName)
    ensures !ReadBy([NullTask(writes)], c) && !Bumps([NullTask(writes)])
  {}

  /** What a channel gets from writes of no task. */
  lemma NullFinal(channels: map<ChannelName, Channel>, writes: seq<Write>, triggers: set<ChannelName>, c: ChannelName)
    requires !Refuses(channels, [NullTask(writes)]) && c in channels
    ensures var batch := Batch([NullTask(writes)], c);
      var cell := Final(channels, [NullTask(writes)], triggers, c);
      if batch == [] then cell == Cell(channels[c], false, false)
      else
        && channels[c].Update(batch).Accepted?
        && var r := channels[c].Update(batch);
           cell == Cell(r.channel, r.changed, r.changed && r.channel.Available())
  {
    NullTaskReads(writes, c);
    assert Staged(channels[c], [NullTask(writes)], c).Some?;
  }

  lemma NullKinds(procs: Processes, s: Loop, writes: seq<Write>, s': Loop, c: ChannelName)
    requires Sound(procs, s.store) && NullStep(procs, s, writes, s')
    requires c in TriggerKeys(procs) && Settled(s.store.channels[c])
    ensures c in s'.store.channels && SameKind(s.store.channels[c], s'.store.channels[c]) &&
      Settled(s'.store.channels[c])
  {
    NullFinal(s.store.channels, writes, TriggerKeys(procs), c);
    ResultAt(s.store, [NullTask(writes)], TriggerKeys(procs), c);
    FinalFacts(s.store.channels, [NullTask(writes)], TriggerKeys(procs), c);
  }

  lemma SeenIsBelow(st: Store, n: Node, c: ChannelName)
    requires SeenBounded(st)
    ensures n in st.seen ==> VersionOf(st.seen[n], c) < NextVersion(st.versions)
  {
    if n in st.seen && c in st.seen[n] { assert st.seen[n][c] <= st.versions[c]; }
  }

  lemma NullVersions(st: Store, writes: seq<Write>, triggers: set<ChannelName>, c: ChannelName)
    requires ApplyWrites(st, [NullTask(writes)], triggers).Done? && c in st.channels
    ensures !Refuses(st.channels, [NullTask(writes)])
    ensures var st' := ApplyWrites(st, [NullTask(writes)], triggers).store;
      var cell := Final(st.channels, [NullTask(writes)], triggers, c);
      && c in st'.channels && st'.channels[c] == cell.channel
      && VersionOf(st'.versions, c) == if cell.bumped then NextVersion(st.versions) else VersionOf(st.versions, c)
  {
    ResultAt(st, [NullTask(writes)], triggers, c);
  }

  /** The store after writes of no task, at one channel and for one node. */
  lemma NullAt(procs: Processes, s: Loop, writes: seq<Write>, s': Loop, n: Node, c: ChannelName)
    requires SeenBounded(s.store) && NullStep(procs, s, writes, s') && c in s.store.channels && n != INPUT
    ensures !Refuses(s.store.channels, [NullTask(writes)])
    ensures var cell := Final(s.store.channels, [NullTask(writes)], TriggerKeys(procs), c);
      && c in s'.store.channels && s'.store.channels[c] == cell.channel
      && (cell.bumped && cell.channel.Available() ==> Offers(s'.store, n, c))
      && (!cell.bumped && cell.channel.Available() == s.store.channels[c].Available() ==>
           Offers(s'.store, n, c) == Offers(s.store, n, c))
  {
    SeenIsBelow(s.store, n, c);
    NullVersions(s.store, writes, TriggerKeys(procs), c);
    NullTaskSeesNothing(s.store, writes, n);
    assert s'.store.seen == SeenAfter(s.store, [NullTask(writes)]);
  }

  lemma NullOffers(procs: Processes, s: Loop, writes: seq<Write>, s': Loop, n: Node, c: ChannelName)
    requires Sound(procs, s.store) && NullStep(procs, s, writes, s')
    requires n in procs && c in procs[n].triggers && Settled(s.store.channels[c])
    ensures c in s.store.channels
    ensures s.store.channels[c].WaitsForFinish() ==> (Offers(s'.store, n, c) <==> StaysOffered(s.store, writes, n, c))
    ensures !s.store.channels[c].WaitsForFinish() && Offers(s'.store, n, c) ==>
      Wakes(s.store, writes, c) || Offers(s.store, n, c)
    ensures Wakes(s.store, writes, c) ==> Offers(s'.store, n, c)
  {
    TriggerKey(procs, n, c);
    NullAt(procs, s, writes, s', n, c);
    NullFinal(s.store.channels, writes, TriggerKeys(procs), c);
    FinalFacts(s.store.channels, [NullTask(writes)], TriggerKeys(procs), c);
  }

  /** Writes alone do not finish a channel. */
  lemma NullAwake(procs: Processes, s: Loop, writes: seq<Write>, s': Loop, c: ChannelName)
    requires NullStep(procs, s, writes, s') && c in s.store.channels && Settled(s.store.channels[c])
    requires Awake(s'.store, c)
    ensures Awake(s.store, c)
    ensures s.store.channels[c].LastValueAfterFinish? ==> Batch([NullTask(writes)], c) == []
  {
    NullFinal(s.store.channels, writes, TriggerKeys(procs), c);
    ResultAt(s.store, [NullTask(writes)], TriggerKeys(procs), c);
  }

  /** A trigger that keeps its kind, and wakes the node if it is awake. */
  predicate CarriedOver(st: Store, st': Store, n: Node, c: ChannelName) {
    && c in st.channels && c in st'.channels
    && SameKind(st.channels[c], st'.channels[c]) && Settled(st'.channels[c])
    && (Awake(st', c) ==> Offers(st', n, c))
  }

  lemma NullCarriesOver(procs: Processes, s: Loop, writes: seq<Write>, s': Loop, n: Node, c: ChannelName)
    requires Sound(procs, s.store) && AllSettled(procs, s.store) && Pending(procs, s.store)
    requires NullStep(procs, s, writes, s') && n in procs && c in procs[n].triggers
    ensures CarriedOver(s.store, s'.store, n, c)
  {
    TriggerKey(procs, n, c);
    NullKinds(procs, s, writes, s', c);
    NullOffers(procs, s, writes, s', n, c);
    if Awake(s'.store, c) {
      NullAwake(procs, s, writes, s', c);
      assert Offers(s.store, n, c);
    }
  }

  lemma NullSettles(procs: Processes, deferred: set<Node>, s: Loop, writes: seq<Write>, s': Loop)
    requires Sound(procs, s.store) && Settling(procs, deferred, s.store) && NullStep(procs, s, writes, s')
    ensures Settling(procs, deferred, s'.store)
  {
    forall n, c | n in procs && c in procs[n].triggers ensures CarriedOver(s.store, s'.store, n, c) {
      NullCarriesOver(procs, s, writes, s', n, c);
    }
    SettlesFrom(procs, deferred, s.store, s'.store);
  }

  lemma SettlesFrom(procs: Processes, deferred: set<Node>, st: Store, st': Store)
    requires Partitioned(procs, deferred, st.channels)
    requires forall n, c :: n in procs && c in procs[n].triggers ==> CarriedOver(st, st', n, c)
    ensures Settling(procs, deferred, st')
  {
    forall n, c | n in procs && c in procs[n].triggers
      ensures c in st'.channels && (st'.channels[c].WaitsForFinish() <==> n in deferred)
    {
      assert CarriedOver(st, st', n, c);
    }
  }

  /** From a state in which only one kind of nodes is due, writes of no task leave it that way
      exactly if no deferred node stays due or no ordinary node is woken. */
  lemma NullKeepsExactly(procs: Processes, deferred: set<Node>, s: Loop, writes: seq<Write>, s': Loop)
    requires Sound(procs, s.store) && Settling(procs, deferred, s.store) && NullStep(procs, s, writes, s')
    requires OneKindOnly(procs, deferred, s.store)
    ensures OneKindOnly(procs, deferred, s'.store) <==> KeepsApart(procs, deferred, s.store, writes)
  {
    forall n, c | n in procs && c in procs[n].triggers
      ensures n in deferred ==> (Offers(s'.store, n, c) <==> StaysOffered(s.store, writes, n, c))
      ensures n !in deferred && Offers(s'.store, n, c) ==> Wakes(s.store, writes, c) || Offers(s.store, n, c)
      ensures n !in deferred && Wakes(s.store, writes, c) ==> Offers(s'.store, n, c)
    {
      TriggerKey(procs, n, c);
      NullOffers(procs, s, writes, s', n, c);
    }
    if n, c :| n in procs && n in deferred && c in procs[n].triggers && StaysOffered(s.store, writes, n, c) {
      assert Triggered(s.store, procs, n) && Triggered(s'.store, procs, n);
      forall m | m in procs && m !in deferred
        ensures Triggered(s'.store, procs, m) <==> exists d <- procs[m].triggers :: Wakes(s.store, writes, d)
      {
        assert !Triggered(s.store, procs, m);
      }
    } else {
      forall n | n in procs && n in deferred ensures !Triggered(s'.store, procs, n) {}
    }
  }

  // ---------------------------------------------------------------- whole runs

  lemma MoveIsNext(procs: Processes, s: Loop, move: Move, s': Loop)
    requires Makes(procs, s, move, s')
    ensures Next(procs, s, s')
  {}

  lemma MoveKeeps(procs: Processes, deferred: set<Node>, s: Loop, move: Move, s': Loop)
    requires Sound(procs, s.store) && Covered(procs, s) && Fed(procs, s.store)
    requires Settling(procs, deferred, s.store) && Makes(procs, s, move, s')
    ensures Settling(procs, deferred, s'.store)
    ensures (move.Ran? || move.Given?) ==> OneKindOnly(procs, deferred, s'.store)
    ensures OneKindOnly(procs, deferred, s.store) ==>
      (OneKindOnly(procs, deferred, s'.store) <==>
        (move.Commanded? ==> KeepsApart(procs, deferred, s.store, move.writes)))
  {
    match move
    case Ran(tasks) =>
      ChosenRunsAll(procs, s, true, tasks, tasks);
      StepDefers(procs, deferred, s.store, tasks);
    case Given(discarded, input) =>
      ChosenRunsAll(procs, s, false, discarded, discarded + [NullTask(input)]);
      StepDefers(procs, deferred, s.store, discarded + [NullTask(input)]);
    case Commanded(writes) =>
      NullSettles(procs, deferred, s, writes, s');
      if OneKindOnly(procs, deferred, s.store) { NullKeepsExactly(procs, deferred, s, writes, s'); }
    case Resuming =>
      ResumeSame(procs, s, s');
      SameKeeps(procs, deferred, s.store, s'.store);
    case Loading =>
      SameKeeps(procs, deferred, s.store, s'.store);
  }

  lemma InitialDefers(procs: Processes, deferred: set<Node>, s: Loop)
    requires Initial(procs, s) && Partitioned(procs, deferred, s.store.channels)
    ensures Settling(procs, deferred, s.store) && OneKindOnly(procs, deferred, s.store)
  {
    forall n, c | n in procs && c in procs[n].triggers
      ensures !Offers(s.store, n, c) && !Awake(s.store, c)
    {
      TriggerKey(procs, n, c);
    }
    assert forall n <- procs :: !Triggered(s.store, procs, n);
  }

  ghost predicate Tracks(procs: Processes, deferred: set<Node>, s: Loop) {
    Sound(procs, s.store) && Covered(procs, s) && Settling(procs, deferred, s.store)
  }

  lemma MovedRunAt(procs: Processes, deferred: set<Node>, states: seq<Loop>, moves: seq<Move>, i: nat)
    requires MovedRun(procs, deferred, states, moves) && i < |moves|
    ensures Makes(procs, states[i], moves[i], states[i + 1]) && Fed(procs, states[i].store)
  {}

  lemma MoveTracks(procs: Processes, deferred: set<Node>, s: Loop, move: Move, s': Loop)
    requires Tracks(procs, deferred, s) && Fed(procs, s.store) && Makes(procs, s, move, s')
    ensures Tracks(procs, deferred, s')
  {
    MoveIsNext(procs, s, move, s');
    NextKeeps(procs, s, s');
    MoveKeeps(procs, deferred, s, move, s');
  }

  lemma {:induction false} MovedRunTracks(procs: Processes, deferred: set<Node>, states: seq<Loop>, moves: seq<Move>,
          i: nat)
    requires MovedRun(procs, deferred, states, moves) && i < |states|
    ensures Tracks(procs, deferred, states[i])
  {
    if i == 0 {
      InitialDefers(procs, deferred, states[0]);
      InitiallySound(procs, states[0]);
    } else {
      MovedRunTracks(procs, deferred, states, moves, i - 1);
      MovedRunAt(procs, deferred, states, moves, i - 1);
      MoveTracks(procs, deferred, states[i - 1], moves[i - 1], states[i]);
    }
  }

  /** The nodes that are due are all deferred or all ordinary. */
  ghost predicate RunAlone(procs: Processes, deferred: set<Node>, s: Loop) {
    var due := Pull(s.store, procs, s.updated, true);
    due <= deferred || due !! deferred
  }

  lemma TriggeredIsDue(procs: Processes, s: Loop, n: Node)
    requires Sound(procs, s.store) && Covered(procs, s) && Fed(procs, s.store) && n in procs
    ensures n in Pull(s.store, procs, s.updated, true) <==> Triggered(s.store, procs, n)
  {
    CoveredFindsAll(procs, s, true);
    if Triggered(s.store, procs, n) {
      var c :| c in procs[n].triggers && Offers(s.store, n, c);
      TriggerKey(procs, n, c);
      assert c in s.store.versions;
    }
  }

  lemma AloneIsOneKind(procs: Processes, deferred: set<Node>, s: Loop)
    requires Tracks(procs, deferred, s) && Fed(procs, s.store)
    ensures RunAlone(procs, deferred, s) <==> OneKindOnly(procs, deferred, s.store)
  {
    forall n <- procs ensures n in Pull(s.store, procs, s.updated, true) <==> Triggered(s.store, procs, n) {
      TriggeredIsDue(procs, s, n);
    }
  }

  lemma MoveAlone(procs: Processes, deferred: set<Node>, states: seq<Loop>, moves: seq<Move>, i: nat)
    requires MovedRun(procs, deferred, states, moves) && i < |moves|
    ensures RunAlone(procs, deferred, states[i]) ==>
      (RunAlone(procs, deferred, states[i + 1]) <==>
        (moves[i].Commanded? ==> KeepsApart(procs, deferred, states[i].store, moves[i].writes)))
    ensures (moves[i].Ran? || moves[i].Given?) ==> RunAlone(procs, deferred, states[i + 1])
  {
    MovedRunTracks(procs, deferred, states, moves, i);
    MovedRunTracks(procs, deferred, states, moves, i + 1);
    MovedRunAt(procs, deferred, states, moves, i);
    MoveKeeps(procs, deferred, states[i], moves[i], states[i + 1]);
    AloneIsOneKind(procs, deferred, states[i]);
    AloneIsOneKind(procs, deferred, states[i + 1]);
  }

  /** Every command of the run keeps the two kinds apart. */
  ghost predicate CommandsKeepApart(procs: Processes, deferred: set<Node>, states: seq<Loop>, moves: seq<Move>)
    requires |states| == |moves| + 1
  {
    forall i :: 0 <= i < |moves| && moves[i].Commanded? ==>
      KeepsApart(procs, deferred, states[i].store, moves[i].writes)
  }

  lemma {:induction false} KeptAlone(procs: Processes, deferred: set<Node>, states: seq<Loop>, moves: seq<Move>, i: nat)
    requires MovedRun(procs, deferred, states, moves) && CommandsKeepApart(procs, deferred, states, moves)
    requires i < |states|
    ensures RunAlone(procs, deferred, states[i])
  {
    if i == 0 {
      MovedRunTracks(procs, deferred, states, moves, 0);
      InitialDefers(procs, deferred, states[0]);
      AloneIsOneKind(procs, deferred, states[0]);
    } else {
      KeptAlone(procs, deferred, states, moves, i - 1);
      MoveAlone(procs, deferred, states, moves, i - 1);
    }
  }

  /** In all states of a run the nodes due are all deferred or all ordinary, exactly if no
      command of the run wakes an ordinary node while a deferred one stays due. */
  lemma DeferredRunAlone(procs: Processes, deferred: set<Node>, states: seq<Loop>, moves: seq<Move>)
    requires MovedRun(procs, deferred, states, moves)
    ensures (forall i :: 0 <= i < |states| ==> RunAlone(procs, deferred, states[i])) <==>
      CommandsKeepApart(procs, deferred, states, moves)
  {
    if CommandsKeepApart(procs, deferred, states, moves) {
      forall i | 0 <= i < |states| ensures RunAlone(procs, deferred, states[i]) {
        KeptAlone(procs, deferred, states, moves, i);
      }
    }
    if forall i :: 0 <= i < |states| ==> RunAlone(procs, deferred, states[i]) {
      forall i | 0 <= i < |moves| && moves[i].Commanded?
        ensures KeepsApart(procs, deferred, states[i].store, moves[i].writes)
      {
        MoveAlone(procs, deferred, states, moves, i);
      }
    }
  }

  // ---------------------------------------------------------------- a command that breaks it

  lemma GotoBatch(m: Node, v: Value, c: ChannelName)
    ensures Batch([NullTask([(BranchTo(m), v)])], c) == if c == BranchTo(m) then [v] else []
  {
    var tasks, ws: seq<Write> := [NullTask([(BranchTo(m), v)])], [(BranchTo(m), v)];
    assert Sort(tasks) == tasks;
    assert tasks[1..] == [] && AllWrites(tasks) == ws + [] == ws;
    assert ws[1..] == [];
    assert Values(ws[1..], c) == [];
    assert [v] + [] == [v];
  }

  lemma GotoOffers(procs: Processes, deferred: set<Node>, s: Loop, n: Node, c: ChannelName, m: Node, v: Value, s': Loop)
    requires Sound(procs, s.store) && Settling(procs, deferred, s.store)
    requires n in procs && n in deferred && c in procs[n].triggers && Offers(s.store, n, c)
    requires m in procs && m !in deferred && BranchTo(m) in procs[m].triggers
    requires BranchTo(m) in s.store.channels && s.store.channels[BranchTo(m)] == Ephemeral(false, None)
    requires NullStep(procs, s, [(BranchTo(m), v)], s')
    ensures Offers(s'.store, n, c) && Offers(s'.store, m, BranchTo(m))
  {
    var writes := [(BranchTo(m), v)];
    TriggerKey(procs, n, c);
    TriggerKey(procs, m, BranchTo(m));
    GotoBatch(m, v, c);
    GotoBatch(m, v, BranchTo(m));
    NullOffers(procs, s, writes, s', n, c);
    NullOffers(procs, s, writes, s', m, BranchTo(m));
  }

  /** A command that goes to an ordinary node while a deferred node is due: both are due next. */
  lemma GotoBesideDeferred(procs: Processes, deferred: set<Node>, s: Loop, n: Node, m: Node, v: Value, s': Loop)
    requires Tracks(procs, deferred, s) && SelfFed(procs)
    requires n in procs && n in deferred && n in Pull(s.store, procs, s.updated, true)
    requires m in procs && m !in deferred && BranchTo(m) in procs[m].triggers
    requires BranchTo(m) in s.store.channels && s.store.channels[BranchTo(m)] == Ephemeral(false, None)
    requires NullStep(procs, s, [(BranchTo(m), v)], s')
    ensures n in Pull(s'.store, procs, s'.updated, true) && m in Pull(s'.store, procs, s'.updated, true)
  {
    var writes := [(BranchTo(m), v)];
    var c :| c in procs[n].triggers && Offers(s.store, n, c);
    TriggerKey(procs, n, c);
    TriggerKey(procs, m, BranchTo(m));
    GotoOffers(procs, deferred, s, n, c, m, v, s');
    SelfFedIsFed(procs, s'.store);
    SelfFedIsFed(procs, s.store);
    MoveTracks(procs, deferred, s, Commanded(writes), s');
    assert Triggered(s'.store, procs, n) && Triggered(s'.store, procs, m);
    TriggeredIsDue(procs, s', n);
    TriggeredIsDue(procs, s', m);
  }
}
