/** The order in which a saver hands the writes of a superstep back. The loop applies them in
    the order of the task paths; the saver knows the order in which tasks committed, or that
    of their ids. */
module SavedOrder {
  import opened Channels
  import opened DeltaChannels
  import opened DeltaSnapshots
  import opened Lists
  import Supersteps
  import opened TaskOrder

  /** What a task wrote to the delta channel, in order. */
  type View<V, W> = Task -> seq<Entry<V, W>>

  /** The tasks of a superstep as the loop held them, and in the order of the saver. */
  datatype Ran = Ran(tasks: seq<Task>, saved: seq<Task>)

  function Entries<V, W>(view: View<V, W>, tasks: seq<Task>): seq<Entry<V, W>> {
    if tasks == [] then [] else view(tasks[0]) + Entries(view, tasks[1..])
  }

  function TurnOf<V, W>(view: View<V, W>, r: Ran): Turn<V, W> {
    Turn(Entries(view, Sort(r.tasks)), Entries(view, r.saved))
  }

  function Turns<V, W>(view: View<V, W>, rans: seq<Ran>): (r: seq<Turn<V, W>>)
    ensures |r| == |rans| && forall i :: 0 <= i < |rans| ==> r[i] == TurnOf(view, rans[i])
  {
    seq(|rans|, i requires 0 <= i < |rans| => TurnOf(view, rans[i]))
  }

  ghost predicate SameTasks(r: Ran) { multiset(r.saved) == multiset(r.tasks) }

  // ---------------------------------------------------------------- what the superstep applies

  function Decoded<V, W>(decode: Value -> Entry<V, W>, values: seq<Value>): seq<Entry<V, W>> {
    if values == [] then [] else [decode(values[0])] + Decoded(decode, values[1..])
  }

  /** The view of a channel, whose values are entries in some encoding. */
  function ViewOf<V, W>(decode: Value -> Entry<V, W>, c: ChannelName): View<V, W> {
    (t: Task) => Decoded(decode, Supersteps.Values(t.writes, c))
  }

  lemma {:induction false} DecodedConcat<V, W>(decode: Value -> Entry<V, W>, a: seq<Value>, b: seq<Value>)
    ensures Decoded(decode, a + b) == Decoded(decode, a) + Decoded(decode, b)
  {
    if a == [] {
      assert a + b == b;
    } else {
      assert (a + b)[0] == a[0] && (a + b)[1..] == a[1..] + b;
      DecodedConcat(decode, a[1..], b);
      Assoc([decode(a[0])], Decoded(decode, a[1..]), Decoded(decode, b));
    }
  }

  lemma {:induction false} EntriesAreWrites<V, W>(decode: Value -> Entry<V, W>, c: ChannelName, tasks: seq<Task>)
    ensures Entries(ViewOf(decode, c), tasks) == Decoded(decode, Supersteps.Values(Supersteps.AllWrites(tasks), c))
  {
    if tasks != [] {
      EntriesAreWrites(decode, c, tasks[1..]);
      Supersteps.ValuesConcat(tasks[0].writes, Supersteps.AllWrites(tasks[1..]), c);
      DecodedConcat(decode, Supersteps.Values(tasks[0].writes, c),
                    Supersteps.Values(Supersteps.AllWrites(tasks[1..]), c));
    }
  }

  /** What a turn applies is the batch that the superstep of the engine gives the channel. */
  lemma AppliedIsBatch<V, W>(decode: Value -> Entry<V, W>, c: ChannelName, r: Ran)
    requires !c.Control?
    ensures TurnOf(ViewOf(decode, c), r).applied == Decoded(decode, Supersteps.Batch(r.tasks, c))
  {
    EntriesAreWrites(decode, c, Sort(r.tasks));
  }

  // ---------------------------------------------------------------- when the orders agree

  /** The tasks that wrote to the channel. */
  ghost function Writers<V, W>(view: View<V, W>, tasks: seq<Task>): seq<Task> {
    if tasks == [] then [] else (if view(tasks[0]) != [] then [tasks[0]] else []) + Writers(view, tasks[1..])
  }

  /** The saver has the tasks that wrote to the channel in the order of their paths. */
  ghost predicate WritersInOrder<V, W>(view: View<V, W>, r: Ran) {
    SameTasks(r) && Writers(view, r.saved) == Writers(view, Sort(r.tasks))
  }

  lemma {:induction false} EntriesOfWriters<V, W>(view: View<V, W>, tasks: seq<Task>)
    ensures Entries(view, Writers(view, tasks)) == Entries(view, tasks)
  {
    if tasks != [] {
      EntriesOfWriters(view, tasks[1..]);
      if view(tasks[0]) != [] {
        assert ([tasks[0]] + Writers(view, tasks[1..]))[1..] == Writers(view, tasks[1..]);
      } else {
        assert [] + Writers(view, tasks[1..]) == Writers(view, tasks[1..]);
        assert view(tasks[0]) + Entries(view, tasks[1..]) == Entries(view, tasks[1..]);
      }
    }
  }

  lemma OrdersAgree<V, W>(view: View<V, W>, r: Ran)
    requires WritersInOrder(view, r)
    ensures TurnOf(view, r).Agrees()
  {
    EntriesOfWriters(view, r.saved);
    EntriesOfWriters(view, Sort(r.tasks));
  }

  lemma {:induction false} CountWriters<V, W>(view: View<V, W>, tasks: seq<Task>, t: Task)
    ensures multiset(Writers(view, tasks))[t] == if view(t) != [] then multiset(tasks)[t] else 0
  {
    if tasks != [] {
      CountWriters(view, tasks[1..], t);
      assert tasks == [tasks[0]] + tasks[1..];
    }
  }

  lemma SameWriters<V, W>(view: View<V, W>, a: seq<Task>, b: seq<Task>)
    requires multiset(a) == multiset(b)
    ensures multiset(Writers(view, a)) == multiset(Writers(view, b))
  {
    forall t ensures multiset(Writers(view, a))[t] == multiset(Writers(view, b))[t] {
      CountWriters(view, a, t);
      CountWriters(view, b, t);
    }
  }

  lemma ShortLists<T>(a: seq<T>, b: seq<T>)
    requires multiset(a) == multiset(b) && |a| <= 1
    ensures a == b
  {
    assert |a| == |multiset(a)| == |multiset(b)| == |b|;
    if |a| == 1 {
      assert a == [a[0]] && b == [b[0]];
      assert a[0] in multiset(b);
    }
  }

  /** At most one task wrote to the channel: any saver has it in order. */
  lemma OneWriter<V, W>(view: View<V, W>, r: Ran)
    requires SameTasks(r) && |Writers(view, r.tasks)| <= 1
    ensures WritersInOrder(view, r)
  {
    SortSorts(r.tasks);
    SameWriters(view, r.tasks, r.saved);
    SameWriters(view, r.tasks, Sort(r.tasks));
    ShortLists(Writers(view, r.tasks), Writers(view, r.saved));
    ShortLists(Writers(view, r.tasks), Writers(view, Sort(r.tasks)));
  }

  /** The tasks committed in the order of their paths. */
  lemma CommittedInOrder<V, W>(view: View<V, W>, r: Ran)
    requires SameTasks(r) && Sorted(r.saved) && KeysIdentify(r.tasks)
    ensures WritersInOrder(view, r)
  {
    SortSorts(r.tasks);
    Supersteps.SameMembers(r.tasks, r.saved);
    SortedUnique(r.saved, Sort(r.tasks));
  }

  // ---------------------------------------------------------------- whole runs

  function Applied<V, W>(turns: seq<Turn<V, W>>): seq<seq<Entry<V, W>>> {
    if turns == [] then [] else Applied(turns[..|turns| - 1]) + [turns[|turns| - 1].applied]
  }

  /** The loop refuses and holds what updating the channel batch by batch does. */
  lemma {:induction false} LogIsLive<V, W>(reducer: Reducer<V, W>, empty: V, c: Cadence, turns: seq<Turn<V, W>>)
    ensures var log := RunLog(reducer, empty, c, turns);
      LiveRun(reducer, empty, empty, Applied(turns)) == if log.Some? then Some(log.value.value) else None
  {
    if turns != [] {
      LogIsLive(reducer, empty, c, turns[..|turns| - 1]);
      var all, last := Applied(turns), turns[|turns| - 1].applied;
      assert all[..|all| - 1] == Applied(turns[..|turns| - 1]) && all[|all| - 1] == last;
    }
  }

  /** After any run of supersteps, in each of which the writers of the channel come back in the
      order of their paths and at most one Overwrite was written, first of all, the saved chain
      rebuilds the live value. */
  lemma ChainRebuildsLive<V(!new), W(!new)>(good: V -> bool, reducer: Reducer<V, W>, empty: V, c: Cadence,
          view: View<V, W>, rans: seq<Ran>)
    requires c.Valid() && BatchingInvariant(good, reducer) && good(empty)
    requires forall r <- rans :: WritersInOrder(view, r)
    requires forall r <- rans :: OverwriteFirst(Entries(view, r.saved)) && GoodBases(good, Entries(view, r.saved))
    ensures var turns := Turns(view, rans);
      && RunLog(reducer, empty, c, turns).Some?
      && var log := RunLog(reducer, empty, c, turns).value;
         && LiveRun(reducer, empty, empty, Applied(turns)) == Some(Rebuilt(reducer, empty, log.chain))
         && Replayed(log.chain) < c.frequency
         && (Seed(log.chain).Some? ==> Walked(log.chain) < c.horizon)
         && (Seed(log.chain).None? ==> Walked(log.chain) == |log.chain|)
         && good(log.value)
  {
    var turns := Turns(view, rans);
    forall i | 0 <= i < |turns|
      ensures turns[i].Agrees() && OverwriteFirst(turns[i].filed) && GoodBases(good, turns[i].filed)
    {
      assert rans[i] in rans;
      OrdersAgree(view, rans[i]);
    }
    TurnsRebuild(good, reducer, empty, c, turns);
    LogIsLive(reducer, empty, c, turns);
  }

  // ---------------------------------------------------------------- the exact condition

  ghost predicate AppendsOnly<V, W>(view: View<V, W>, r: Ran) { forall t <- r.tasks :: AllPlain(view(t)) }

  lemma {:induction false} EntriesConcat<V, W>(view: View<V, W>, a: seq<Task>, b: seq<Task>)
    ensures Entries(view, a + b) == Entries(view, a) + Entries(view, b)
  {
    if a == [] {
      assert a + b == b;
    } else {
      assert (a + b)[0] == a[0] && (a + b)[1..] == a[1..] + b;
      EntriesConcat(view, a[1..], b);
      Assoc(view(a[0]), Entries(view, a[1..]), Entries(view, b));
    }
  }

  lemma {:induction false} SameLength<V, W>(view: View<V, W>, a: seq<Task>, b: seq<Task>)
    requires multiset(a) == multiset(b)
    ensures |Entries(view, a)| == |Entries(view, b)|
  {
    if a == [] {
      assert |b| == |multiset(b)| == |multiset(a)|;
    } else {
      assert a[0] in multiset(b);
      var j :| 0 <= j < |b| && b[j] == a[0];
      var front, back := b[..j], b[j + 1..];
      assert b == front + ([b[j]] + back) by { Around(b, j); }
      assert a == [a[0]] + a[1..];
      assert multiset(front + back) == multiset(b) - multiset{b[j]};
      SameLength(view, a[1..], front + back);
      EntriesConcat(view, front, back);
      EntriesConcat(view, front, [b[j]] + back);
      assert ([b[j]] + back)[1..] == back;
    }
  }

  lemma {:induction false} EntriesPlain<V, W>(view: View<V, W>, tasks: seq<Task>)
    requires forall t <- tasks :: AllPlain(view(t))
    ensures AllPlain(Entries(view, tasks))
  {
    if tasks != [] { EntriesPlain(view, tasks[1..]); }
  }

  lemma PlainRan<V, W>(view: View<V, W>, r: Ran)
    requires SameTasks(r) && AppendsOnly(view, r)
    ensures PlainTurn(TurnOf(view, r))
  {
    SortSorts(r.tasks);
    Supersteps.SameMembers(r.tasks, r.saved);
    Supersteps.SameMembers(r.tasks, Sort(r.tasks));
    SameLength(view, Sort(r.tasks), r.saved);
    EntriesPlain(view, Sort(r.tasks));
    EntriesPlain(view, r.saved);
  }

  /** Lists that only grow: after any run the saved chain rebuilds the live list exactly if in
      every superstep since the newest snapshot the writes come back as the paths order them. */
  lemma AppendsNeedOrder<W>(empty: seq<W>, c: Cadence, view: View<seq<W>, W>, rans: seq<Ran>)
    requires forall r <- rans :: SameTasks(r) && AppendsOnly(view, r)
    ensures RunLog(Append, empty, c, Turns(view, rans)).Some?
    ensures var log := RunLog(Append, empty, c, Turns(view, rans)).value;
      Rebuilt(Append, empty, log.chain) == log.value <==>
        forall i :: 0 <= i < |rans| <= i + Walked(log.chain) ==>
          Entries(view, rans[i].saved) == Entries(view, Sort(rans[i].tasks))
  {
    var turns := Turns(view, rans);
    forall i | 0 <= i < |turns| ensures PlainTurn(turns[i]) {
      assert rans[i] in rans;
      PlainRan(view, rans[i]);
    }
    AppendsRebuildExactly(empty, c, turns);
    var walked := Walked(RunLog(Append, empty, c, turns).value.chain);
    assert AgreeSince(turns, walked) <==> forall i :: 0 <= i < |rans| <= i + walked ==>
      Entries(view, rans[i].saved) == Entries(view, Sort(rans[i].tasks)) by {
      forall i | 0 <= i < |rans|
        ensures turns[i].Agrees() <==> Entries(view, rans[i].saved) == Entries(view, Sort(rans[i].tasks)) {}
    }
  }

  // ---------------------------------------------------------------- an input

  lemma SortTwo(t: Task, u: Task)
    requires Le(t, u)
    ensures Sort([t, u]) == [t, u]
  {
    assert [t, u][1..] == [u] && [u][1..] == [];
    assert Sort([u]) == [u];
  }

  /** Two tasks of one superstep append to the channel, and the one that comes second by path
      commits first: after a restart their writes stand the other way round. */
  lemma SecondCommitsFirst<W>(empty: seq<W>, c: Cadence, view: View<seq<W>, W>, t: Task, u: Task, x: W, y: W)
    requires c.frequency > 1 && c.horizon > 2 && Le(t, u)
    requires view(t) == [Plain(x)] && view(u) == [Plain(y)]
    ensures var turns := Turns(view, [Ran([t, u], [u, t])]);
      && RunLog(Append, empty, c, turns).Some?
      && var log := RunLog(Append, empty, c, turns).value;
         && log.value == empty + [x, y]
         && Rebuilt(Append, empty, log.chain) == empty + [y, x]
  {
    SortTwo(t, u);
    var ran := Ran([t, u], [u, t]);
    var turns := Turns(view, [ran]);
    EntriesOfTwo(view, t, u, x, y);
    EntriesOfTwo(view, u, t, y, x);
    var turn: Turn<seq<W>, W> := Turn([Plain(x), Plain(y)], [Plain(y), Plain(x)]);
    assert turns == [turn];
    TwoPlains<seq<W>, W>(x, y);
    TwoPlains<seq<W>, W>(y, x);
    PlainIsLive(Append, empty, empty, turn.applied);
    AppendReplays(empty, empty, turn.filed);
    FirstTurn(Append, empty, c, turn);
  }

  lemma EntriesOfTwo<V, W>(view: View<V, W>, t: Task, u: Task, x: W, y: W)
    requires view(t) == [Plain(x)] && view(u) == [Plain(y)]
    ensures Entries(view, [t, u]) == [Plain(x), Plain(y)]
  {
    assert [t, u][1..] == [u] && [u][1..] == [];
    assert Entries(view, [u]) == view(u) + [] == view(u);
  }

  lemma TwoPlains<V, W>(x: W, y: W)
    ensures Plains<V, W>([Plain(x), Plain(y)]) == [x, y]
    ensures AllPlain<V, W>([Plain(x), Plain(y)])
  {
    var both: seq<Entry<V, W>> := [Plain(x), Plain(y)];
    assert both[1..] == [Plain(y)] && both[1..][1..] == [];
    assert Plains(both[1..]) == [y] + [] == [y];
  }

  /** One superstep of a new thread, with no snapshot due. */
  lemma FirstTurn<V, W>(reducer: Reducer<V, W>, empty: V, c: Cadence, turn: Turn<V, W>)
    requires c.frequency > 1 && c.horizon > 2 && Live(reducer, empty, empty, turn.applied).Some?
    ensures var log := RunLog(reducer, empty, c, [turn]);
      && log.Some?
      && Some(log.value.value) == Live(reducer, empty, empty, turn.applied)
      && Rebuilt(reducer, empty, log.value.chain) == Replay(reducer, empty, empty, turn.filed)
  {
    FirstBooked<V, W>(empty, c);
    var first: Log<V, W> := FirstLog(empty, c);
    assert [turn][..0] == [];
    assert RunLog(reducer, empty, c, [turn]) == Step(reducer, empty, c, first, turn);
    StepOnChain(first.chain, turn.filed, None);
    assert [] + turn.filed == turn.filed;
  }
}
