/** Breakpoints before and after nodes: the loop stops at one again only when a channel has
    changed since it was resumed. */
module Breakpoints {
  import opened Channels
  import opened TaskOrder
  import opened Supersteps
  import opened Scheduling
  import Lists

  datatype Places = AllNodes | Only(names: set<Node>)

  /** A task that is due, and whether its node is tagged as hidden. */
  datatype Due = Due(name: Node, hidden: bool)

  predicate StopsAt(places: Places, t: Due) { if places.AllNodes? then !t.hidden else t.name in places.names }

  function Stopping(places: Places, tasks: seq<Due>): seq<Due> {
    if tasks == [] then []
    else
      var last := tasks[|tasks| - 1];
      Stopping(places, tasks[..|tasks| - 1]) + if StopsAt(places, last) then [last] else []
  }

  /** Some channel has a version that the last interrupt has not seen. */
  predicate ChangedSince(st: Store) {
    exists c <- st.versions :: st.versions[c] > VersionOf(SeenBy(st.seen, INTERRUPT), c)
  }

  /** The node is one of those named, or all are meant and it is not hidden. */
  predicate Chosen(places: Places, t: Due) {
    (places.Only? && t.name in places.names) || (places.AllNodes? && !t.hidden)
  }

  lemma {:induction false} StoppingPicked(places: Places, tasks: seq<Due>)
    ensures Lists.Picked(tasks, t => Chosen(places, t), Lists.Itself, Stopping(places, tasks))
  {
    var keep := t => Chosen(places, t);
    if tasks == [] {
      Lists.PickedNone(keep, Lists.Itself);
    } else {
      var before, t := tasks[..|tasks| - 1], tasks[|tasks| - 1];
      StoppingPicked(places, before);
      Lists.PickedMore(before, keep, Lists.Itself, Stopping(places, before), t);
      assert Stopping(places, before) + [] == Stopping(places, before);
      Lists.LastOff(tasks);
    }
  }

  /** A channel has a version that is higher than the one seen by the interrupt, or that none was. */
  ghost predicate Progress(st: Store) {
    exists c :: c in st.versions && st.versions[c] > 0 &&
      (INTERRUPT in st.seen && c in st.seen[INTERRUPT] ==> st.versions[c] > st.seen[INTERRUPT][c])
  }

  method ShouldInterrupt(st: Store, places: Places, tasks: seq<Due>) returns (r: seq<Due>)
    ensures r == if ChangedSince(st) then Stopping(places, tasks) else []
    ensures if Progress(st) then Lists.Picked(tasks, t => Chosen(places, t), Lists.Itself, r) else r == []
  {
    StoppingPicked(places, tasks);
    assert Progress(st) <==> ChangedSince(st);
    var seen := SeenBy(st.seen, INTERRUPT);
    if !exists c <- st.versions :: st.versions[c] > VersionOf(seen, c) { return []; }
    r := [];
    for i := 0 to |tasks|
      invariant r == Stopping(places, tasks[..i])
    {
      assert tasks[..i + 1][..i] == tasks[..i];
      if (if places.AllNodes? then !tasks[i].hidden else tasks[i].name in places.names) { r := r + [tasks[i]]; }
    }
    assert tasks[..|tasks|] == tasks;
  }

  // ---------------------------------------------------------------- between two resumes

  /** A step that is no resume. */
  ghost predicate Works(procs: Processes, s: Loop, s': Loop) {
    || (exists tasks :: Superstep(procs, s, tasks, s'))
    || (exists discarded, writes :: InputStep(procs, s, discarded, writes, s'))
    || (exists writes :: NullStep(procs, s, writes, s'))
    || LoadStep(s, s')
  }

  /** Since `from`, versions have only gone up and the interrupt has seen nothing more. */
  ghost predicate Grown(from: Store, st: Store) {
    && SeenBy(st.seen, INTERRUPT) == SeenBy(from.seen, INTERRUPT)
    && from.versions.Keys <= st.versions.Keys
    && forall c <- st.versions :: Kept(from, st, c) || st.versions[c] > VersionOf(from.versions, c)
  }

  predicate Kept(from: Store, st: Store, c: ChannelName) {
    c in st.versions && c in from.versions && st.versions[c] == from.versions[c]
  }

  lemma NotRead(st: Store, tasks: seq<Task>)
    requires forall t <- tasks :: t.name != INTERRUPT
    ensures SeenBy(SeenAfter(st, tasks), INTERRUPT) == SeenBy(st.seen, INTERRUPT)
  {
    assert Read(st.versions, tasks, INTERRUPT) == map[];
    assert SeenBy(st.seen, INTERRUPT) + map[] == SeenBy(st.seen, INTERRUPT);
  }

  lemma WritesGrow(triggers: set<ChannelName>, from: Store, st: Store, tasks: seq<Task>)
    requires Grown(from, st) && ApplyWrites(st, tasks, triggers).Done? && forall t <- tasks :: t.name != INTERRUPT
    ensures Grown(from, ApplyWrites(st, tasks, triggers).store)
  {
    var st', next := ApplyWrites(st, tasks, triggers).store, NextVersion(st.versions);
    NotRead(st, tasks);
    forall c <- st'.versions ensures st'.versions[c] == next || Kept(st, st', c) {}
    forall c <- from.versions ensures from.versions[c] < next { assert st.versions[c] < next; }
  }

  lemma WorkGrows(procs: Processes, from: Store, s: Loop, s': Loop)
    requires Grown(from, s.store) && Works(procs, s, s') && INTERRUPT !in procs
    ensures Grown(from, s'.store)
  {
    if tasks :| Superstep(procs, s, tasks, s') {
      WritesGrow(TriggerKeys(procs), from, s.store, tasks);
    } else if discarded, writes :| InputStep(procs, s, discarded, writes, s') {
      WritesGrow(TriggerKeys(procs), from, s.store, discarded + [NullTask(writes)]);
    } else if writes :| NullStep(procs, s, writes, s') {
      WritesGrow(TriggerKeys(procs), from, s.store, [NullTask(writes)]);
    }
  }

  /** From the resume at `r` on, no state up to `i` is reached by another resume. */
  ghost predicate ResumedAt(procs: Processes, states: seq<Loop>, r: nat, i: nat) {
    && r < i < |states| && ResumeStep(states[r], states[r + 1])
    && forall k :: r < k < i ==> Works(procs, states[k], states[k + 1])
  }

  lemma {:induction false} GrownSince(procs: Processes, states: seq<Loop>, r: nat, i: nat)
    requires ResumedAt(procs, states, r, i) && INTERRUPT !in procs
    ensures Grown(states[r + 1].store, states[i].store)
    decreases i
  {
    if i > r + 1 {
      GrownSince(procs, states, r, i - 1);
      WorkGrows(procs, states[r + 1].store, states[i - 1], states[i]);
    }
  }

  // ---------------------------------------------------------------- what a resume marks

  /** Only channels that are there have versions. */
  predicate VersionsHaveChannels(st: Store) { st.versions.Keys <= st.channels.Keys }

  lemma StepHasChannels(procs: Processes, s: Loop, s': Loop)
    requires VersionsHaveChannels(s.store) && Next(procs, s, s')
    ensures VersionsHaveChannels(s'.store)
  {
    if tasks :| Superstep(procs, s, tasks, s') {
    } else if discarded, writes :| InputStep(procs, s, discarded, writes, s') {
    } else if writes :| NullStep(procs, s, writes, s') {
    }
  }

  lemma {:induction false} RunHasChannels(procs: Processes, states: seq<Loop>, i: nat)
    requires Run(procs, states) && i < |states|
    ensures VersionsHaveChannels(states[i].store)
  {
    if i > 0 {
      RunHasChannels(procs, states, i - 1);
      RunAt(procs, states, i - 1);
      StepHasChannels(procs, states[i - 1], states[i]);
    }
  }

  /** What the interrupt has seen right after a resume is just what there is. */
  lemma ResumedSeen(st: Store)
    requires SeenBounded(st) && VersionsHaveChannels(st)
    ensures Resumed(st).versions == st.versions
    ensures forall c :: VersionOf(SeenBy(Resumed(st).seen, INTERRUPT), c) == VersionOf(st.versions, c)
  {
    var seen := SeenBy(Resumed(st).seen, INTERRUPT);
    forall c ensures VersionOf(seen, c) == VersionOf(st.versions, c) {
      assert c in SeenBy(st.seen, INTERRUPT) ==> INTERRUPT in st.seen && c in st.seen[INTERRUPT] && c in st.versions;
    }
  }

  lemma ChangedExactly(before: Store, now: Store)
    requires SeenBounded(before) && VersionsHaveChannels(before) && Grown(Resumed(before), now)
    ensures ChangedSince(now) <==> now.versions != before.versions
  {
    ResumedSeen(before);
    if now.versions != before.versions {
      var c :| c in now.versions && !Kept(Resumed(before), now, c);
      assert now.versions[c] > VersionOf(SeenBy(now.seen, INTERRUPT), c);
    }
  }

  /** In every run, after a resume the loop can be stopped again exactly when some channel's
      version has changed since: breakpoints never hold a graph in one place. */
  lemma StopsOnlyAfterProgress(procs: Processes, states: seq<Loop>, r: nat, i: nat)
    requires Run(procs, states) && ResumedAt(procs, states, r, i)
    ensures ChangedSince(states[i].store) <==> states[i].store.versions != states[r].store.versions
  {
    RunKeeps(procs, states, r);
    RunHasChannels(procs, states, r);
    GrownSince(procs, states, r, i);
    ChangedExactly(states[r].store, states[i].store);
  }
}
