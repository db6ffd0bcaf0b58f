/** What each kind of channel holds after a superstep, told from the writes of its tasks, and
    when a superstep is refused. */
module SuperstepValues {
  import opened Channels
  import opened ChannelValues
  import opened Lists
  import opened Supersteps
  import opened TaskOrder

  // ---------------------------------------------------------------- the values written to a channel

  /** Where a write stands: the place of its task, and its place among the task's writes. */
  type Place = (nat, nat)

  predicate Earlier(p: Place, q: Place) { p.0 < q.0 || (p.0 == q.0 && p.1 < q.1) }

  /** At `p` there is a write to the channel. */
  predicate WritesTo(tasks: seq<Task>, c: ChannelName, p: Place) {
    p.0 < |tasks| && p.1 < |tasks[p.0].writes| && tasks[p.0].writes[p.1].0 == c
  }

  /** Each place stands in front of `end` and holds the value that goes with it. */
  predicate Holding(tasks: seq<Task>, c: ChannelName, batch: seq<Value>, at: seq<Place>, end: Place) {
    && |at| == |batch|
    && forall j :: 0 <= j < |at| ==>
         WritesTo(tasks, c, at[j]) && Earlier(at[j], end) && tasks[at[j].0].writes[at[j].1].1 == batch[j]
  }

  predicate Ascending(at: seq<Place>) { forall j, k :: 0 <= j < k < |at| ==> Earlier(at[j], at[k]) }

  ghost predicate Covering(tasks: seq<Task>, c: ChannelName, at: seq<Place>, end: Place) {
    forall p :: WritesTo(tasks, c, p) && Earlier(p, end) ==> p in at
  }

  /** The writes to the channel in front of `end`, in order, are those at `at`. */
  ghost predicate WrittenUntil(tasks: seq<Task>, c: ChannelName, batch: seq<Value>, at: seq<Place>, end: Place) {
    Holding(tasks, c, batch, at, end) && Ascending(at) && Covering(tasks, c, at, end)
  }

  /** All that tasks in this order wrote to the channel, task by task and write by write. */
  ghost predicate WrittenInOrder(tasks: seq<Task>, c: ChannelName, batch: seq<Value>) {
    exists at: seq<Place> :: WrittenUntil(tasks, c, batch, at, (|tasks|, 0))
  }

  lemma NextWrite(tasks: seq<Task>, c: ChannelName, batch: seq<Value>, at: seq<Place>, k: nat, i: nat)
    requires WrittenUntil(tasks, c, batch, at, (k, i)) && k < |tasks| && i < |tasks[k].writes|
    requires tasks[k].writes[i].0 == c
    ensures WrittenUntil(tasks, c, batch + [tasks[k].writes[i].1], at + [(k, i)], (k, i + 1))
  {
    CoversMore(tasks, c, at, k, i);
    var more, all := at + [(k, i)], batch + [tasks[k].writes[i].1];
    forall j | 0 <= j < |more|
      ensures WritesTo(tasks, c, more[j]) && Earlier(more[j], (k, i + 1))
      ensures tasks[more[j].0].writes[more[j].1].1 == all[j]
    {
      if j < |at| { assert more[j] == at[j]; }
    }
  }

  lemma CoversMore(tasks: seq<Task>, c: ChannelName, at: seq<Place>, k: nat, i: nat)
    requires Covering(tasks, c, at, (k, i))
    ensures Covering(tasks, c, at + [(k, i)], (k, i + 1))
    ensures !WritesTo(tasks, c, (k, i)) ==> Covering(tasks, c, at, (k, i + 1))
  {
    forall p | WritesTo(tasks, c, p) && Earlier(p, (k, i + 1)) && p != (k, i) ensures p in at {
      assert Earlier(p, (k, i));
    }
  }

  lemma OtherWrite(tasks: seq<Task>, c: ChannelName, batch: seq<Value>, at: seq<Place>, k: nat, i: nat)
    requires WrittenUntil(tasks, c, batch, at, (k, i)) && k < |tasks| && i < |tasks[k].writes|
    requires tasks[k].writes[i].0 != c
    ensures WrittenUntil(tasks, c, batch, at, (k, i + 1))
  {
    CoversMore(tasks, c, at, k, i);
  }

  lemma NextTask(tasks: seq<Task>, c: ChannelName, batch: seq<Value>, at: seq<Place>, k: nat)
    requires k < |tasks| && WrittenUntil(tasks, c, batch, at, (k, |tasks[k].writes|))
    ensures WrittenUntil(tasks, c, batch, at, (k + 1, 0))
  {
    forall p | WritesTo(tasks, c, p) && Earlier(p, (k + 1, 0)) ensures p in at {
      assert Earlier(p, (k, |tasks[k].writes|));
    }
  }

  /** The writes of the tasks in front of task `k`, and the first `i` of its own. */
  function Until(tasks: seq<Task>, c: ChannelName, k: nat, i: nat): seq<Value>
    requires k < |tasks| && i <= |tasks[k].writes|
  {
    Values(AllWrites(tasks[..k]), c) + Values(tasks[k].writes[..i], c)
  }

  lemma UntilMore(tasks: seq<Task>, c: ChannelName, k: nat, i: nat)
    requires k < |tasks| && i < |tasks[k].writes|
    ensures var w := tasks[k].writes[i];
      Until(tasks, c, k, i + 1) == if w.0 == c then Until(tasks, c, k, i) + [w.1] else Until(tasks, c, k, i)
  {
    var ws := tasks[k].writes;
    assert ws[..i + 1] == ws[..i] + [ws[i]];
    ValuesConcat(ws[..i], [ws[i]], c);
    assert [ws[i]][1..] == [];
    Assoc(Values(AllWrites(tasks[..k]), c), Values(ws[..i], c), Values([ws[i]], c));
    assert Until(tasks, c, k, i) + [] == Until(tasks, c, k, i);
  }

  lemma {:induction false} AllWritesLast(tasks: seq<Task>, t: Task)
    ensures AllWrites(tasks + [t]) == AllWrites(tasks) + t.writes
  {
    if tasks == [] {
      assert [] + [t] == [t] && [t][1..] == [];
      assert t.writes + [] == t.writes == [] + t.writes;
    } else {
      assert (tasks + [t])[1..] == tasks[1..] + [t];
      AllWritesLast(tasks[1..], t);
      Assoc(tasks[0].writes, AllWrites(tasks[1..]), t.writes);
    }
  }

  lemma UntilAll(tasks: seq<Task>, c: ChannelName, k: nat)
    requires k < |tasks|
    ensures Until(tasks, c, k, |tasks[k].writes|) == Values(AllWrites(tasks[..k + 1]), c)
    ensures Until(tasks, c, k, 0) == Values(AllWrites(tasks[..k]), c)
  {
    var ws := tasks[k].writes;
    assert tasks[..k + 1] == tasks[..k] + [tasks[k]];
    AllWritesLast(tasks[..k], tasks[k]);
    ValuesConcat(AllWrites(tasks[..k]), ws, c);
    assert ws[..|ws|] == ws && ws[..0] == [];
    assert Values(AllWrites(tasks[..k]), c) + [] == Values(AllWrites(tasks[..k]), c);
  }

  lemma {:induction false} WritesInTask(tasks: seq<Task>, c: ChannelName, k: nat, i: nat) returns (at: seq<Place>)
    requires k < |tasks| && i <= |tasks[k].writes|
    ensures WrittenUntil(tasks, c, Until(tasks, c, k, i), at, (k, i))
    decreases k, 1, i
  {
    if i == 0 {
      UntilAll(tasks, c, k);
      at := WritesInFront(tasks, c, k);
    } else {
      at := WritesInTask(tasks, c, k, i - 1);
      UntilMore(tasks, c, k, i - 1);
      if tasks[k].writes[i - 1].0 == c {
        NextWrite(tasks, c, Until(tasks, c, k, i - 1), at, k, i - 1);
        at := at + [(k, i - 1)];
      } else {
        OtherWrite(tasks, c, Until(tasks, c, k, i - 1), at, k, i - 1);
      }
    }
  }

  lemma {:induction false} WritesInFront(tasks: seq<Task>, c: ChannelName, k: nat) returns (at: seq<Place>)
    requires k <= |tasks|
    ensures WrittenUntil(tasks, c, Values(AllWrites(tasks[..k]), c), at, (k, 0))
    decreases k, 0
  {
    if k == 0 {
      at := [];
    } else {
      at := WritesInTask(tasks, c, k - 1, |tasks[k - 1].writes|);
      NextTask(tasks, c, Until(tasks, c, k - 1, |tasks[k - 1].writes|), at, k - 1);
      UntilAll(tasks, c, k - 1);
    }
  }

  /** A channel's batch is what was written to it, in the order of the task keys. */
  lemma BatchIsWritten(tasks: seq<Task>, c: ChannelName)
    requires !c.Control?
    ensures WrittenInOrder(Sort(tasks), c, Batch(tasks, c))
  {
    var sorted := Sort(tasks);
    var at := WritesInFront(sorted, c, |sorted|);
    assert sorted[..|sorted|] == sorted;
  }

  /** There is one such batch. */
  lemma OneBatch(tasks: seq<Task>, c: ChannelName, x: seq<Value>, y: seq<Value>)
    requires WrittenInOrder(tasks, c, x) && WrittenInOrder(tasks, c, y)
    ensures x == y
  {
    var a: seq<Place> :| WrittenUntil(tasks, c, x, a, (|tasks|, 0));
    var b: seq<Place> :| WrittenUntil(tasks, c, y, b, (|tasks|, 0));
    SamePlaces(a, b);
  }

  lemma {:induction false} SamePlaces(a: seq<Place>, b: seq<Place>)
    requires Ascending(a) && Ascending(b) && forall p :: p in a <==> p in b
    ensures a == b
  {
    assert (a != [] ==> a[0] in a) && (b != [] ==> b[0] in b);
    if a != [] && b != [] {
      var n, m := |a| - 1, |b| - 1;
      assert a[n] in b && b[m] in a;
      forall p ensures p in a[..n] <==> p in b[..m] { LastPlace(a, p); LastPlace(b, p); }
      SamePlaces(a[..n], b[..m]);
      LastOff(a);
      LastOff(b);
    }
  }

  lemma LastPlace(a: seq<Place>, p: Place)
    requires Ascending(a) && a != []
    ensures p in a[..|a| - 1] <==> p in a && p != a[|a| - 1]
  {
    if p in a && p != a[|a| - 1] {
      var i :| 0 <= i < |a| && a[i] == p;
      assert a[..|a| - 1][i] == p;
    }
  }

  // ---------------------------------------------------------------- what a superstep leaves

  /** The batch that a superstep of these tasks has for the channel. */
  ghost predicate Gets(tasks: seq<Task>, c: ChannelName, batch: seq<Value>) {
    !c.Control? && WrittenInOrder(Sort(tasks), c, batch)
  }

  ghost predicate Applies(st: Store, tasks: seq<Task>, triggers: set<ChannelName>, c: ChannelName, batch: seq<Value>) {
    ApplyWrites(st, tasks, triggers).Done? && c in st.channels && Gets(tasks, c, batch)
  }

  /** Some task was triggered, so that this is a step and not only writes put from outside. */
  predicate Begins(tasks: seq<Task>) { exists t <- tasks :: t.triggers != {} }

  predicate ReadByOne(tasks: seq<Task>, c: ChannelName) { exists t <- tasks :: c in t.triggers }

  lemma GetsBatch(tasks: seq<Task>, c: ChannelName, batch: seq<Value>)
    requires Gets(tasks, c, batch)
    ensures batch == Batch(tasks, c)
  {
    BatchIsWritten(tasks, c);
    OneBatch(Sort(tasks), c, batch, Batch(tasks, c));
  }

  /** What one channel goes through: consumed, written to, notified, finished. */
  function Passed(ch: Channel, read: bool, batch: seq<Value>, begins: bool, last: bool): Option<Cell> {
    match Written(Consumed(ch, read), batch)
    case None => None
    case Some(cell) => Some(Finished(Notified(cell, begins), last))
  }

  lemma PassedThrough(st: Store, tasks: seq<Task>, triggers: set<ChannelName>, c: ChannelName, batch: seq<Value>)
    requires Applies(st, tasks, triggers, c, batch)
    ensures !Refuses(st.channels, tasks)
    ensures var r := ApplyWrites(st, tasks, triggers);
      var p := Passed(st.channels[c], ReadByOne(tasks, c), batch, Begins(tasks),
        LooksLast(st.channels, tasks, triggers));
      p.Some? && c in r.store.channels && r.store.channels[c] == p.value.channel &&
        (c in r.updated <==> p.value.updated)
  {
    GetsBatch(tasks, c, batch);
    ResultAt(st, tasks, triggers, c);
  }

  // a topic

  /** One that does not accumulate holds just what was written to it in the last step, and nothing
      if nothing was; one that does holds this behind what it held. */
  predicate TopicThen(was: Channel, batch: seq<Value>, items: seq<Value>, begins: bool, now: Channel, updated: bool) {
    && was.Topic? && now.Topic? && now.accumulate == was.accumulate
    && now.values == (if was.accumulate || (batch == [] && !begins) then was.values else []) + items
    && (updated <==> items != [])
  }

  lemma TopicPassed(ch: Channel, read: bool, batch: seq<Value>, items: seq<Value>, begins: bool, last: bool)
    requires ch.Topic? && Spread(batch, items)
    ensures var p := Passed(ch, read, batch, begins, last);
      p.Some? && TopicThen(ch, batch, items, begins, p.value.channel, p.value.updated)
  {
    TopicUpdated(ch, batch, items);
    NoneSpread();
    TopicUpdated(ch, [], []);
    TopicUpdated(Topic(ch.accumulate, (if ch.accumulate then ch.values else []) + items), [], []);
    assert batch == [] ==> items == [] by { if batch == [] { OneSpread(batch, items, []); } }
    assert ch.values + [] == ch.values && [] + items == items;
  }

  lemma TopicUpdated(ch: Channel, batch: seq<Value>, items: seq<Value>)
    requires ch.Topic? && Spread(batch, items)
    ensures ch.Update(batch) == Accepted(Topic(ch.accumulate, (if ch.accumulate then ch.values else []) + items),
                                         (!ch.accumulate && ch.values != []) || items != [])
  {
    FlattenSpreads(batch);
    OneSpread(batch, items, Flatten(batch));
    assert [] + items == items;
  }

  lemma TopicHolds(st: Store, tasks: seq<Task>, triggers: set<ChannelName>, c: ChannelName, batch: seq<Value>,
          items: seq<Value>)
    requires Applies(st, tasks, triggers, c, batch) && st.channels[c].Topic? && Spread(batch, items)
    ensures var r := ApplyWrites(st, tasks, triggers);
      c in r.store.channels &&
      TopicThen(st.channels[c], batch, items, Begins(tasks), r.store.channels[c], c in r.updated)
  {
    PassedThrough(st, tasks, triggers, c, batch);
    TopicPassed(st.channels[c], ReadByOne(tasks, c), batch, items, Begins(tasks),
                LooksLast(st.channels, tasks, triggers));
  }

  // channels for one value

  /** Of the plain one: the one value written, or what was there. Of the ephemeral one: the last
      value written, which a step without writes takes away. */
  predicate ValueThen(was: Channel, batch: seq<Value>, begins: bool, now: Channel, updated: bool) {
    match was
    case LastValue(last) => |batch| <= 1 && (updated <==> batch != []) &&
      now == LastValue(if batch == [] then last else Some(batch[0]))
    case Ephemeral(guard, held) => (guard ==> |batch| <= 1) && (updated <==> batch != []) &&
      now == Ephemeral(guard, if batch != [] then Some(batch[|batch| - 1]) else if begins then None else held)
    case _ => false
  }

  lemma ValuePassed(ch: Channel, read: bool, batch: seq<Value>, begins: bool, last: bool)
    requires (ch.LastValue? || ch.Ephemeral?) && Passed(ch, read, batch, begins, last).Some?
    ensures var p := Passed(ch, read, batch, begins, last).value; ValueThen(ch, batch, begins, p.channel, p.updated)
  {}

  lemma ValueHolds(st: Store, tasks: seq<Task>, triggers: set<ChannelName>, c: ChannelName, batch: seq<Value>)
    requires Applies(st, tasks, triggers, c, batch) && (st.channels[c].LastValue? || st.channels[c].Ephemeral?)
    ensures var r := ApplyWrites(st, tasks, triggers);
      c in r.store.channels && ValueThen(st.channels[c], batch, Begins(tasks), r.store.channels[c], c in r.updated)
  {
    PassedThrough(st, tasks, triggers, c, batch);
    ValuePassed(st.channels[c], ReadByOne(tasks, c), batch, Begins(tasks), LooksLast(st.channels, tasks, triggers));
  }

  // channels that wait for finish

  /** The last value written; without one it goes once a task that the finished channel woke has
      run. It is finished when the run looks finished, or if it was and nothing happened to it. */
  predicate LateThen(was: Channel, batch: seq<Value>, read: bool, last: bool, now: Channel) {
    && was.LastValueAfterFinish? && now.LastValueAfterFinish?
    && now.late == (if batch != [] then Some(batch[|batch| - 1]) else if was.finished && read then None else was.late)
    && (now.finished <==> (was.finished && batch == [] && !read) || (last && now.late.Some?))
  }

  lemma LatePassed(ch: Channel, read: bool, batch: seq<Value>, begins: bool, last: bool)
    requires ch.LastValueAfterFinish?
    ensures var p := Passed(ch, read, batch, begins, last); p.Some? && LateThen(ch, batch, read, last, p.value.channel)
  {}

  lemma LateHolds(st: Store, tasks: seq<Task>, triggers: set<ChannelName>, c: ChannelName, batch: seq<Value>)
    requires Applies(st, tasks, triggers, c, batch) && st.channels[c].LastValueAfterFinish?
    ensures !Refuses(st.channels, tasks)
    ensures var r := ApplyWrites(st, tasks, triggers);
      c in r.store.channels && LateThen(st.channels[c], batch, ReadByOne(tasks, c),
        LooksLast(st.channels, tasks, triggers), r.store.channels[c])
  {
    PassedThrough(st, tasks, triggers, c, batch);
    LatePassed(st.channels[c], ReadByOne(tasks, c), batch, Begins(tasks), LooksLast(st.channels, tasks, triggers));
  }

  // barriers

  predicate AllNamesOf(batch: seq<Value>, names: set<Node>) { forall v <- batch :: v.Name? && v.node in names }

  /** The names that came, behind those that had come unless a task that they woke has run. */
  ghost predicate BarrierThen(was: Channel, batch: seq<Value>, read: bool, now: Channel) {
    && (was.Barrier? || was.BarrierAfterFinish?) && SameKind(was, now) && AllNamesOf(batch, was.names)
    && var fired := read && was.seen == was.names && (was.BarrierAfterFinish? ==> was.finished);
       forall n :: n in now.seen <==> (n in was.seen && !fired) || Name(n) in batch
  }

  lemma BarrierPassed(ch: Channel, read: bool, batch: seq<Value>, begins: bool, last: bool)
    requires (ch.Barrier? || ch.BarrierAfterFinish?) && Passed(ch, read, batch, begins, last).Some?
    ensures BarrierThen(ch, batch, read, Passed(ch, read, batch, begins, last).value.channel)
  {
    assert forall n :: n in NodesOf(batch) <==> Name(n) in batch;
    assert NodesOf([]) == {};
  }

  lemma BarrierHolds(st: Store, tasks: seq<Task>, triggers: set<ChannelName>, c: ChannelName, batch: seq<Value>)
    requires Applies(st, tasks, triggers, c, batch) && (st.channels[c].Barrier? || st.channels[c].BarrierAfterFinish?)
    ensures var r := ApplyWrites(st, tasks, triggers);
      c in r.store.channels && BarrierThen(st.channels[c], batch, ReadByOne(tasks, c), r.store.channels[c])
  {
    PassedThrough(st, tasks, triggers, c, batch);
    BarrierPassed(st.channels[c], ReadByOne(tasks, c), batch, Begins(tasks), LooksLast(st.channels, tasks, triggers));
  }

  // folds

  /** The fold of the writes onto what was there. */
  ghost predicate ReducerThen(was: Channel, batch: seq<Value>, now: Channel, updated: bool) {
    && was.Reducer? && now.Reducer? && now.fold == was.fold && (updated <==> batch != [])
    && Some(now.total) == if batch == [] then Some(was.total) else was.fold(was.total, batch)
  }

  lemma ReducerPassed(ch: Channel, read: bool, batch: seq<Value>, begins: bool, last: bool)
    requires ch.Reducer? && Passed(ch, read, batch, begins, last).Some?
    ensures var p := Passed(ch, read, batch, begins, last).value; ReducerThen(ch, batch, p.channel, p.updated)
  {}

  lemma ReducerHolds(st: Store, tasks: seq<Task>, triggers: set<ChannelName>, c: ChannelName, batch: seq<Value>)
    requires Applies(st, tasks, triggers, c, batch) && st.channels[c].Reducer?
    ensures var r := ApplyWrites(st, tasks, triggers);
      c in r.store.channels && ReducerThen(st.channels[c], batch, r.store.channels[c], c in r.updated)
  {
    PassedThrough(st, tasks, triggers, c, batch);
    ReducerPassed(st.channels[c], ReadByOne(tasks, c), batch, Begins(tasks), LooksLast(st.channels, tasks, triggers));
  }

  // ---------------------------------------------------------------- when a superstep is refused

  /** More writes than the channel takes, a name it does not expect, or a fold that refuses. */
  predicate CannotTake(ch: Channel, batch: seq<Value>) {
    || (ch.LastValue? && |batch| > 1)
    || (ch.Ephemeral? && ch.guard && |batch| > 1)
    || ((ch.Barrier? || ch.BarrierAfterFinish?) && !AllNamesOf(batch, ch.names))
    || (ch.Reducer? && batch != [] && ch.fold(ch.total, batch).None?)
  }

  lemma StagedRefuses(ch: Channel, tasks: seq<Task>, c: ChannelName)
    ensures Staged(ch, tasks, c).None? <==> CannotTake(ch, Batch(tasks, c))
  {}

  lemma BatchGets(tasks: seq<Task>, c: ChannelName)
    requires !c.Control?
    ensures Gets(tasks, c, Batch(tasks, c))
  {
    BatchIsWritten(tasks, c);
  }

  /** A superstep is refused exactly if some channel cannot take what its tasks wrote to it. */
  lemma RefusedExactly(st: Store, tasks: seq<Task>, triggers: set<ChannelName>)
    ensures ApplyWrites(st, tasks, triggers).Refused? <==>
      exists c, batch :: c in st.channels && Gets(tasks, c, batch) && CannotTake(st.channels[c], batch)
  {
    if Refuses(st.channels, tasks) {
      var c :| c in st.channels && Staged(st.channels[c], tasks, c).None?;
      StagedRefuses(st.channels[c], tasks, c);
      BatchGets(tasks, c);
    }
    forall c, batch | c in st.channels && Gets(tasks, c, batch) && CannotTake(st.channels[c], batch)
      ensures Refuses(st.channels, tasks)
    {
      GetsBatch(tasks, c, batch);
      StagedRefuses(st.channels[c], tasks, c);
    }
  }
}
