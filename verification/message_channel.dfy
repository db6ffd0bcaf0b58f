/** The delta channel whose value is a message list. */
module MessageChannel {
  import opened Channels
  import opened DeltaChannels
  import opened DeltaSnapshots
  import opened Messages
  import opened SavedOrder
  import opened TaskOrder

  function ReduceWrites(s: seq<Message>, writes: seq<MessageWrite>): seq<Message> {
    Reduce(s, Flat(writes))
  }

  lemma MessagesBatchingInvariant()
    ensures BatchingInvariant(DistinctIds, ReduceWrites)
  {
    forall s, xs | DistinctIds(s) ensures DistinctIds(ReduceWrites(s, xs)) {
      ReduceIsFold(s, Flat(xs));
    }
    forall s, xs, ys | DistinctIds(s) ensures ReduceWrites(ReduceWrites(s, xs), ys) == ReduceWrites(s, xs + ys) {
      BatchingExactly(s);
      FlatConcat(xs, ys);
    }
  }

  /** Reading a thread back gives the message list that its supersteps built live, as long as
      the tasks that wrote messages come back in the order of their paths, and every Overwrite
      comes first in its step and brings a list with distinct ids. */
  lemma MessagesSurviveRestart(c: Cadence, view: View<seq<Message>, MessageWrite>, rans: seq<Ran>)
    requires c.Valid() && forall r <- rans :: WritersInOrder(view, r)
    requires forall r <- rans :: MessagesFit(Entries(view, r.saved))
    ensures var turns := Turns(view, rans);
      && RunLog(ReduceWrites, [], c, turns).Some?
      && var log := RunLog(ReduceWrites, [], c, turns).value;
         && LiveRun(ReduceWrites, [], [], Applied(turns)) == Some(Rebuilt(ReduceWrites, [], log.chain))
         && DistinctIds(log.value)
  {
    MessagesBatchingInvariant();
    ChainRebuildsLive(DistinctIds, ReduceWrites, [], c, view, rans);
  }

  /** An Overwrite comes first and brings distinct ids. */
  ghost predicate MessagesFit(entries: seq<Entry<seq<Message>, MessageWrite>>) {
    OverwriteFirst(entries) && GoodBases(DistinctIds, entries)
  }

  lemma FlatTwo(m: Message, n: Message)
    ensures Flat([One(m), One(n)]) == [m, n]
  {
    var both := [One(m), One(n)];
    assert both[..1] == [One(m)] && both[..1][..0] == [];
    assert Flat(both[..1]) == [] + [m] == [m];
  }

  lemma ReduceTwo(m: Message, n: Message)
    requires m.id.Some? && n.id.Some? && m.id != n.id && !m.role.Remove? && !n.role.Remove?
    ensures ReduceWrites([], [One(m), One(n)]) == [m, n]
  {
    FlatTwo(m, n);
    ReduceIsFold([], [m, n]);
    assert [m, n][..1] == [m] && [m][..0] == [];
    assert Position([m], n.id.value).None?;
    assert ApplyAll([], [m]) == Apply(ApplyAll([], []), m) == [] + [m] == [m];
    assert ApplyAll([], [m, n]) == Apply([m], n) == [m] + [n] == [m, n];
    assert ReduceWrites([], [One(m), One(n)]) == Reduce([], Flat([One(m), One(n)]));
  }

  lemma TwoLive(m: Message, n: Message)
    requires m.id.Some? && n.id.Some? && m.id != n.id && !m.role.Remove? && !n.role.Remove?
    ensures var batch: seq<Entry<seq<Message>, MessageWrite>> := [Plain(One(m)), Plain(One(n))];
      && Live(ReduceWrites, [], [], batch) == Some([m, n])
      && Replay(ReduceWrites, [], [], batch) == [m, n]
  {
    var batch: seq<Entry<seq<Message>, MessageWrite>> := [Plain(One(m)), Plain(One(n))];
    TwoPlains<seq<Message>, MessageWrite>(One(m), One(n));
    PlainIsLive(ReduceWrites, [], [], batch);
    PlainOnly(batch);
    ReduceTwo(m, n);
    assert batch[0..] == batch;
  }

  /** Two tasks of one superstep each add a message, and the one that comes second by path
      commits first: after a restart the two messages have changed places. */
  lemma MessagesChangePlaces(c: Cadence, view: View<seq<Message>, MessageWrite>, t: Task, u: Task, m: Message,
          n: Message)
    requires c.frequency > 1 && c.horizon > 2 && Le(t, u)
    requires m.id.Some? && n.id.Some? && m.id != n.id && !m.role.Remove? && !n.role.Remove?
    requires view(t) == [Plain(One(m))] && view(u) == [Plain(One(n))]
    ensures var turns := Turns(view, [Ran([t, u], [u, t])]);
      && RunLog(ReduceWrites, [], c, turns).Some?
      && var log := RunLog(ReduceWrites, [], c, turns).value;
         log.value == [m, n] && Rebuilt(ReduceWrites, [], log.chain) == [n, m]
  {
    SortTwo(t, u);
    EntriesOfTwo(view, t, u, One(m), One(n));
    EntriesOfTwo(view, u, t, One(n), One(m));
    TwoLive(m, n);
    TwoLive(n, m);
    var turn: Turn<seq<Message>, MessageWrite> := Turn([Plain(One(m)), Plain(One(n))], [Plain(One(n)), Plain(One(m))]);
    assert Turns(view, [Ran([t, u], [u, t])]) == [turn];
    FirstTurn(ReduceWrites, [], c, turn);
  }
}
