/** The saved history of one delta channel: when a snapshot is written, what the walk over the
    ancestors collects, and that a restart rebuilds the value the running loop held. */
module DeltaSnapshots {
  import opened Channels
  import opened DeltaChannels
  import opened Lists

  /** A saved checkpoint: the channel's snapshot, if one was written, and the writes of the
      superstep that ran from it. */
  datatype Saved<V, W> = Saved(blob: Option<V>, writes: seq<Entry<V, W>>)

  /** `frequency` updates or `horizon` supersteps since the last snapshot make one due. */
  datatype Cadence = Cadence(frequency: nat, horizon: nat) {
    predicate Valid() { frequency > 0 && horizon > 0 }
  }

  /** One superstep as the channel meets it: the batch it was updated with, in the order of
      the task paths, and the same writes in the order in which the saver hands them back. */
  datatype Turn<V, W> = Turn(applied: seq<Entry<V, W>>, filed: seq<Entry<V, W>>) {
    predicate Whole() { |applied| == |filed| }
    ghost predicate Agrees() { applied == filed }
  }

  /** What the loop keeps for the channel; `versioned` is false until its first update. */
  datatype Log<V, W> = Log(value: V, versioned: bool, updates: nat, supersteps: nat, chain: seq<Saved<V, W>>)

  // ---------------------------------------------------------------- one superstep

  /** The writes of the next superstep are filed under the newest checkpoint. */
  function Filed<V, W>(chain: seq<Saved<V, W>>, batch: seq<Entry<V, W>>): seq<Saved<V, W>>
    requires chain != []
  {
    chain[..|chain| - 1] + [chain[|chain| - 1].(writes := batch)]
  }

  /** A snapshot is written when one is due and the channel has a version. */
  predicate Due(c: Cadence, updates: nat, supersteps: nat) {
    updates >= c.frequency || supersteps >= c.horizon
  }

  function Step<V, W>(reducer: Reducer<V, W>, empty: V, c: Cadence, log: Log<V, W>, turn: Turn<V, W>): Option<Log<V, W>>
    requires log.chain != []
  {
    match Live(reducer, empty, log.value, turn.applied)
    case None => None
    case Some(v) =>
      var written := turn.applied != [];
      var u, s := log.updates + (if written then 1 else 0), log.supersteps + 1;
      var due := Due(c, u, s);
      var blob := if due && (log.versioned || written) then Some(v) else None;
      var chain := Filed(log.chain, turn.filed) + [Saved(blob, [])];
      Some(Log(v, log.versioned || written, if due then 0 else u, if due then 0 else s, chain))
  }

  /** The input checkpoint of a new thread: no version, no snapshot, one superstep counted. */
  function FirstLog<V, W>(empty: V, c: Cadence): Log<V, W> {
    Log(empty, false, 0, if 1 >= c.horizon then 0 else 1, [Saved(None, [])])
  }

  class DeltaLedger<V, W> {
    const channel: DeltaChannel<V, W>
    const cadence: Cadence
    var versioned: bool
    var updates: nat
    var supersteps: nat
    var chain: seq<Saved<V, W>>

    constructor (channel: DeltaChannel<V, W>, cadence: Cadence)
      requires channel.value == Some(channel.empty)
      ensures this.channel == channel && this.cadence == cadence && Ready()
      ensures View() == FirstLog(channel.empty, cadence)
    {
      this.channel, this.cadence, versioned, updates := channel, cadence, false, 0;
      supersteps := if 1 >= cadence.horizon then 0 else 1;
      chain := [Saved(None, [])];
    }

    predicate Ready()
      reads this, channel
    {
      channel.value.Some? && chain != []
    }

    function View(): Log<V, W>
      requires Ready()
      reads this, channel
    {
      Log(channel.value.value, versioned, updates, supersteps, chain)
    }

    /** One more superstep, and one more update if there were writes; both start over when as many
        as the cadence asks for have been counted. */
    predicate Counts(u: nat, s: nat, written: bool, u': nat, s': nat) {
      var updates', supersteps' := if written then u + 1 else u, s + 1;
      if updates' < cadence.frequency && supersteps' < cadence.horizon
      then u' == updates' && s' == supersteps' else u' == 0 && s' == 0
    }

    /** The writes are filed under the newest checkpoint, and one more is saved. */
    ghost predicate SavesNext(before: seq<Saved<V, W>>, filed: seq<Entry<V, W>>, after: seq<Saved<V, W>>) {
      && before != [] && |after| == |before| + 1 && after[|before|].writes == []
      && (forall i :: 0 <= i < |before| - 1 ==> after[i] == before[i])
      && after[|before| - 1].blob == before[|before| - 1].blob && after[|before| - 1].writes == filed
    }

    /** Saves the step's writes, applies them, counts, and saves the next checkpoint. The
        saver will hand the batch back as `filed`. */
    method Superstep(batch: seq<Entry<V, W>>, filed: seq<Entry<V, W>>) returns (ok: bool)
      requires Ready()
      modifies this, channel
      ensures ok <==> Overwrites(batch) <= 1
      ensures ok ==> Ready()
      ensures ok ==> Some(View()) == old(Step(channel.reducer, channel.empty, cadence, View(), Turn(batch, filed)))
      ensures ok ==> Counts(old(updates), old(supersteps), batch != [], updates, supersteps)
      ensures ok ==> (versioned <==> old(versioned) || batch != [])
      ensures ok ==> SavesNext(old(chain), filed, chain)
      ensures ok ==> chain[|chain| - 1].blob == (if supersteps == 0 && versioned then channel.value else None)
    {
      var changed;
      ok, changed := channel.Update(batch);
      if ok { Save(filed, changed); }
    }

    /** Counts, and saves the next checkpoint. */
    method Save(filed: seq<Entry<V, W>>, changed: bool)
      requires Ready()
      modifies this
      ensures Ready() && Counts(old(updates), old(supersteps), changed, updates, supersteps)
      ensures versioned <==> old(versioned) || changed
      ensures SavesNext(old(chain), filed, chain)
      ensures chain[|chain| - 1].blob == (if supersteps == 0 && versioned then channel.value else None)
      ensures chain == old(Filed(chain, filed)) + [chain[|chain| - 1]]
    {
      chain := Filed(chain, filed);
      supersteps := supersteps + 1;
      if changed {
        versioned := true;
        updates := updates + 1;
      }
      var due := updates >= cadence.frequency || supersteps >= cadence.horizon;
      chain := chain + [Saved(if due && versioned then channel.value else None, [])];
      if due { updates, supersteps := 0, 0; }
    }
  }

  // ---------------------------------------------------------------- reading the history

  function Reversed<T>(s: seq<T>): (r: seq<T>) {
    if s == [] then [] else Reversed(s[1..]) + [s[0]]
  }

  /** The newest snapshot of a chain. */
  function Seed<V, W>(chain: seq<Saved<V, W>>): Option<V> {
    if chain == [] then None
    else if chain[|chain| - 1].blob.Some? then chain[|chain| - 1].blob
    else Seed(chain[..|chain| - 1])
  }

  /** The writes since then, oldest first. */
  function Since<V, W>(chain: seq<Saved<V, W>>): seq<Entry<V, W>> {
    if chain == [] then []
    else if chain[|chain| - 1].blob.Some? then chain[|chain| - 1].writes
    else Since(chain[..|chain| - 1]) + chain[|chain| - 1].writes
  }

  /** What the newest checkpoint of a chain stands for: its own writes are still pending. */
  function Rebuilt<V, W>(reducer: Reducer<V, W>, empty: V, chain: seq<Saved<V, W>>): V
    requires chain != []
  {
    var settled := Filed(chain, []);
    Replay(reducer, empty, SeedValue(empty, settled), Since(settled))
  }

  lemma {:induction false} ReversedSplit<T>(a: seq<T>, b: seq<T>)
    ensures Reversed(a + b) == Reversed(b) + Reversed(a)
  {
    if a == [] {
      assert a + b == b;
    } else {
      assert (a + b)[0] == a[0] && (a + b)[1..] == a[1..] + b;
      ReversedSplit(a[1..], b);
      assert Reversed(a + b) == (Reversed(b) + Reversed(a[1..])) + [a[0]];
    }
  }

  lemma {:induction false} ReversedTwice<T>(s: seq<T>)
    ensures Reversed(Reversed(s)) == s
  {
    if s != [] {
      ReversedSplit(Reversed(s[1..]), [s[0]]);
      ReversedTwice(s[1..]);
      assert Reversed([s[0]]) == [s[0]];
    }
  }

  /** One ancestor's writes, appended newest first. */
  method Collect<T>(collected: seq<T>, writes: seq<T>) returns (r: seq<T>)
    ensures r == collected + Reversed(writes)
  {
    r := collected;
    var j := |writes|;
    while j > 0
      invariant 0 <= j <= |writes|
      invariant r == collected + Reversed(writes[j..])
    {
      j := j - 1;
      assert writes[j..][1..] == writes[j + 1..];
      r := r + [writes[j]];
    }
    assert writes[0..] == writes;
  }

  /** What one more ancestor adds to a walk. */
  lemma Ancestor<V, W>(chain: seq<Saved<V, W>>, i: nat, late: seq<Entry<V, W>>, collected: seq<Entry<V, W>>)
    requires i < |chain| && collected == late + Reversed(chain[i].writes)
    ensures Seed(chain[..i + 1]) == if chain[i].blob.Some? then chain[i].blob else Seed(chain[..i])
    ensures Since(chain[..i + 1]) + Reversed(late) == (if chain[i].blob.Some? then [] else Since(chain[..i])) +
      Reversed(collected)
  {
    var here := chain[i];
    ReversedSplit(late, Reversed(here.writes));
    ReversedTwice(here.writes);
    assert Reversed(collected) == here.writes + Reversed(late);
    assert chain[..i + 1] == chain[..i] + [here];
    OneMore(chain[..i], here);
    Assoc(Since(chain[..i]), here.writes, Reversed(late));
    Assoc([], here.writes, Reversed(late));
    assert [] + here.writes == here.writes;
  }

  /** Walks the parents of `chain[n]`, newest first, down to a stored value. */
  method History<V, W>(chain: seq<Saved<V, W>>, n: nat) returns (seed: Option<V>, writes: seq<Entry<V, W>>)
    requires n < |chain|
    ensures seed == Seed(chain[..n]) && writes == Since(chain[..n])
  {
    var collected: seq<Entry<V, W>> := [];
    var i := n;
    seed := None;
    while i > 0 && seed.None?
      invariant 0 <= i <= n
      invariant seed.None? ==> Since(chain[..n]) == Since(chain[..i]) + Reversed(collected)
      invariant seed.None? ==> Seed(chain[..n]) == Seed(chain[..i])
      invariant seed.Some? ==> seed == Seed(chain[..n]) && Since(chain[..n]) == Reversed(collected)
      decreases i
    {
      i := i - 1;
      var here := chain[i];
      ghost var late := collected;
      collected := Collect(collected, here.writes);
      Ancestor(chain, i, late, collected);
      seed := here.blob;
    }
    if i == 0 && seed.None? { assert [] + Reversed(collected) == Reversed(collected); }
    writes := Reversed(collected);
  }

  /** A channel read back from the newest checkpoint. */
  method Hydrate<V, W>(reducer: Reducer<V, W>, empty: V, frequency: nat, chain: seq<Saved<V, W>>)
    returns (ch: DeltaChannel<V, W>)
    requires chain != []
    ensures fresh(ch) && ch.reducer == reducer && ch.empty == empty
    ensures ch.value == Some(Rebuilt(reducer, empty, chain))
  {
    var n := |chain| - 1;
    assert Filed(chain, [])[..n] == chain[..n];
    if chain[n].blob.Some? {
      ch := new DeltaChannel.FromCheckpoint(reducer, empty, frequency, chain[n].blob);
    } else {
      var seed, writes := History(chain, n);
      assert Since(Filed(chain, [])) == Since(chain[..n]) + [] == Since(chain[..n]);
      ch := new DeltaChannel.FromCheckpoint(reducer, empty, frequency, seed);
      ch.ReplayWrites(writes);
    }
  }

  // ---------------------------------------------------------------- every run

  /** How many supersteps with writes, and how many at all, a walk goes back over. */
  function Replayed<V, W>(chain: seq<Saved<V, W>>): nat {
    if chain == [] then 0
    else (if chain[|chain| - 1].blob.Some? then 0 else Replayed(chain[..|chain| - 1]))
         + if chain[|chain| - 1].writes == [] then 0 else 1
  }

  function Walked<V, W>(chain: seq<Saved<V, W>>): nat {
    if chain == [] || chain[|chain| - 1].blob.Some? then 0 else 1 + Walked(chain[..|chain| - 1])
  }

  /** A log reached from the first one by some supersteps. */
  function RunLog<V, W>(reducer: Reducer<V, W>, empty: V, c: Cadence, turns: seq<Turn<V, W>>): (r: Option<Log<V, W>>)
    ensures r.Some? ==> r.value.chain != []
  {
    if turns == [] then Some(FirstLog(empty, c))
    else match RunLog(reducer, empty, c, turns[..|turns| - 1])
         case None => None
         case Some(log) => Step(reducer, empty, c, log, turns[|turns| - 1])
  }

  function SeedValue<V, W>(empty: V, chain: seq<Saved<V, W>>): V {
    match Seed(chain) case Some(v) => v case None => empty
  }

  /** The counters say how far a walk goes; without a snapshot it goes back to the root. */
  ghost predicate Booked<V, W>(c: Cadence, log: Log<V, W>) {
    && log.chain != [] && log.chain[|log.chain| - 1].writes == []
    && log.updates < c.frequency && log.supersteps < c.horizon
    && (log.versioned ==> log.updates == Replayed(log.chain))
    && (Seed(log.chain).Some? ==> log.supersteps == Walked(log.chain))
    && (Seed(log.chain).None? ==> Walked(log.chain) == |log.chain|)
    && (!log.versioned ==> log.updates == 0 && Replayed(log.chain) == 0 && Seed(log.chain).None?)
  }

  lemma OneMore<V, W>(chain: seq<Saved<V, W>>, x: Saved<V, W>)
    ensures var all := chain + [x];
            && Seed(all) == (if x.blob.Some? then x.blob else Seed(chain))
            && Since(all) == (if x.blob.Some? then x.writes else Since(chain) + x.writes)
            && Replayed(all) == (if x.blob.Some? then 0 else Replayed(chain)) + (if x.writes == [] then 0 else 1)
            && Walked(all) == (if x.blob.Some? then 0 else 1 + Walked(chain))
            && Filed(all, []) == chain + [x.(writes := [])]
  {
    var all := chain + [x];
    assert all[..|all| - 1] == chain && all[|all| - 1] == x;
  }

  lemma FiledFacts<V, W>(chain: seq<Saved<V, W>>, batch: seq<Entry<V, W>>)
    requires chain != [] && chain[|chain| - 1].writes == []
    ensures Filed(chain, []) == chain
    ensures Seed(Filed(chain, batch)) == Seed(chain)
    ensures Since(Filed(chain, batch)) == Since(chain) + batch
    ensures Replayed(Filed(chain, batch)) == Replayed(chain) + if batch == [] then 0 else 1
    ensures Walked(Filed(chain, batch)) == Walked(chain)
  {
    var init, blob := chain[..|chain| - 1], chain[|chain| - 1].blob;
    assert chain == init + [Saved(blob, [])] by { LastOff(chain); }
    FiledBehind(init, blob, batch);
  }

  lemma FiledBehind<V, W>(init: seq<Saved<V, W>>, blob: Option<V>, batch: seq<Entry<V, W>>)
    ensures var chain := init + [Saved(blob, [])];
            && Filed(chain, []) == chain
            && Filed(chain, batch) == init + [Saved(blob, batch)]
            && Seed(Filed(chain, batch)) == Seed(chain)
            && Since(Filed(chain, batch)) == Since(chain) + batch
            && Replayed(Filed(chain, batch)) == Replayed(chain) + (if batch == [] then 0 else 1)
            && Walked(Filed(chain, batch)) == Walked(chain)
  {
    var none: seq<Entry<V, W>> := [];
    OneMore(init, Saved(blob, none));
    OneMore(init, Saved(blob, batch));
    if blob.None? {
      assert (Since(init) + none) + batch == Since(init) + batch;
    } else {
      assert none + batch == batch;
    }
  }

  /** A superstep, seen on the saved chain: its writes go behind the earlier ones unless a
      snapshot makes them all unnecessary. */
  lemma StepOnChain<V, W>(chain: seq<Saved<V, W>>, batch: seq<Entry<V, W>>, blob: Option<V>)
    requires chain != [] && chain[|chain| - 1].writes == []
    ensures var all := Filed(chain, batch) + [Saved(blob, [])];
            && Filed(all, []) == all
            && Seed(all) == (if blob.Some? then blob else Seed(chain))
            && Since(all) == (if blob.Some? then [] else Since(chain) + batch)
            && Replayed(all) == (if blob.Some? then 0 else Replayed(chain) + if batch == [] then 0 else 1)
            && Walked(all) == (if blob.Some? then 0 else 1 + Walked(chain))
  {
    FiledFacts(chain, batch);
    OneMore(Filed(chain, batch), Saved(blob, []));
    assert (Since(chain) + batch) + [] == Since(chain) + batch;
  }

  ghost predicate GoodLog<V(!new), W(!new)>(good: V -> bool, empty: V, log: Log<V, W>) {
    good(log.value) && good(SeedValue(empty, log.chain)) && GoodBases(good, Since(log.chain))
  }

  lemma LiveGood<V(!new), W(!new)>(good: V -> bool, reducer: Reducer<V, W>, empty: V, value: V, batch: seq<Entry<V, W>>)
    requires BatchingInvariant(good, reducer) && good(empty) && good(value) && GoodBases(good, batch)
    ensures Live(reducer, empty, value, batch).Some? ==> good(Live(reducer, empty, value, batch).value)
  {
    var k := AfterLast(batch);
    if k > 0 {
      assert batch[k - 1] in batch;
      assert good(BaseAt(empty, batch, k));
    }
  }

  lemma StepGood<V(!new), W(!new)>(good: V -> bool, reducer: Reducer<V, W>, empty: V, c: Cadence, log: Log<V, W>,
          turn: Turn<V, W>)
    requires BatchingInvariant(good, reducer) && good(empty) && turn.Agrees() && GoodBases(good, turn.filed)
    requires log.chain != [] && log.chain[|log.chain| - 1].writes == [] && GoodLog(good, empty, log)
    requires Step(reducer, empty, c, log, turn).Some?
    ensures GoodLog(good, empty, Step(reducer, empty, c, log, turn).value)
  {
    var next := Step(reducer, empty, c, log, turn).value;
    LiveGood(good, reducer, empty, log.value, turn.applied);
    StepOnChain(log.chain, turn.filed, next.chain[|next.chain| - 1].blob);
  }

  /** The counters after a step, against what a walk over the new chain meets. */
  lemma ChainBooked<V, W>(c: Cadence, log: Log<V, W>, next: Log<V, W>, filed: seq<Entry<V, W>>, blob: Option<V>)
    requires c.Valid() && Booked(c, log) && next.chain == Filed(log.chain, filed) + [Saved(blob, [])]
    requires var u, s := log.updates + (if filed != [] then 1 else 0), log.supersteps + 1;
      && next.versioned == (log.versioned || filed != [])
      && (next.updates, next.supersteps) == (if Due(c, u, s) then (0, 0) else (u, s))
      && (blob.Some? <==> Due(c, u, s) && next.versioned)
    ensures Booked(c, next)
  {
    StepOnChain(log.chain, filed, blob);
  }

  lemma StepBooked<V, W>(reducer: Reducer<V, W>, empty: V, c: Cadence, log: Log<V, W>, turn: Turn<V, W>)
    requires c.Valid() && Booked(c, log) && turn.Whole() && Step(reducer, empty, c, log, turn).Some?
    ensures Booked(c, Step(reducer, empty, c, log, turn).value)
  {
    var next := Step(reducer, empty, c, log, turn).value;
    assert turn.applied == [] <==> turn.filed == [];
    ChainBooked(c, log, next, turn.filed, next.chain[|next.chain| - 1].blob);
  }

  lemma FirstBooked<V, W>(empty: V, c: Cadence)
    requires c.Valid()
    ensures var log := FirstLog<V, W>(empty, c);
      && Booked(c, log)
      && Filed(log.chain, []) == log.chain
      && Seed(log.chain).None? && Since(log.chain) == [] && Walked(log.chain) == 1
  {
    var log: Log<V, W> := FirstLog(empty, c);
    OneMore([], log.chain[0]);
    assert [] + log.chain == log.chain;
  }

  /** After any run a walk replays fewer than `frequency` supersteps with writes. It visits
      fewer than `horizon` ancestors if there is a snapshot, and all of them if there is none. */
  lemma {:induction false} RunBooked<V, W>(reducer: Reducer<V, W>, empty: V, c: Cadence, turns: seq<Turn<V, W>>)
    requires c.Valid() && RunLog(reducer, empty, c, turns).Some? && forall t <- turns :: t.Whole()
    ensures Booked(c, RunLog(reducer, empty, c, turns).value)
  {
    if turns == [] {
      FirstBooked<V, W>(empty, c);
    } else {
      var before, last := turns[..|turns| - 1], turns[|turns| - 1];
      RunBooked(reducer, empty, c, before);
      StepBooked(reducer, empty, c, RunLog(reducer, empty, c, before).value, last);
    }
  }

  // ---------------------------------------------------------------- when a walk finds a snapshot

  /** The counters after some batches, were every due snapshot written. */
  function Counted<V, W>(c: Cadence, turns: seq<Turn<V, W>>): (nat, nat)
    decreases |turns|, 1
  {
    if turns == [] then (0, if 1 >= c.horizon then 0 else 1)
    else
      var (u, s) := Raised(c, turns);
      if Due(c, u, s) then (0, 0) else (u, s)
  }

  /** The counters in the last superstep, before it is decided whether a snapshot is due. */
  function Raised<V, W>(c: Cadence, turns: seq<Turn<V, W>>): (nat, nat)
    requires turns != []
    decreases |turns|, 0
  {
    var (u, s) := Counted(c, turns[..|turns| - 1]);
    (u + (if turns[|turns| - 1].applied != [] then 1 else 0), s + 1)
  }

  predicate DueLast<V, W>(c: Cadence, turns: seq<Turn<V, W>>)
    requires turns != []
  {
    Due(c, Raised(c, turns).0, Raised(c, turns).1)
  }

  ghost predicate Wrote<V, W>(turns: seq<Turn<V, W>>) { exists t <- turns :: t.applied != [] }

  /** In some superstep a snapshot was due, and the channel had been written by then. */
  ghost predicate DueOnceWritten<V, W>(c: Cadence, turns: seq<Turn<V, W>>) {
    exists i :: 0 < i <= |turns| && DueLast(c, turns[..i]) && Wrote(turns[..i])
  }

  lemma DueOneMore<V, W>(c: Cadence, turns: seq<Turn<V, W>>)
    requires turns != []
    ensures DueOnceWritten(c, turns) <==>
      DueOnceWritten(c, turns[..|turns| - 1]) || (DueLast(c, turns) && Wrote(turns))
  {
    var before := turns[..|turns| - 1];
    forall i | 0 < i <= |before| ensures before[..i] == turns[..i] {}
    assert turns[..|turns|] == turns;
  }

  lemma WroteOneMore<V, W>(turns: seq<Turn<V, W>>)
    requires turns != []
    ensures Wrote(turns) <==> Wrote(turns[..|turns| - 1]) || turns[|turns| - 1].applied != []
  {
    var before, last := turns[..|turns| - 1], turns[|turns| - 1];
    LastOff(turns);
    if Wrote(turns) {
      var t :| t in turns && t.applied != [];
      assert t in before || t == last;
    }
  }

  /** The log after a run, told from the batches alone. */
  ghost predicate Told<V, W>(c: Cadence, turns: seq<Turn<V, W>>, log: Log<V, W>) {
    && (log.versioned <==> Wrote(turns)) && (log.updates, log.supersteps) == Counted(c, turns)
    && |log.chain| == |turns| + 1 && log.chain[|turns|].writes == []
    && (Seed(log.chain).Some? <==> DueOnceWritten(c, turns))
    && (Seed(log.chain).None? ==> Walked(log.chain) == |turns| + 1)
  }

  lemma FirstTold<V, W>(empty: V, c: Cadence)
    ensures Told<V, W>(c, [], FirstLog(empty, c))
  {
    var log: Log<V, W> := FirstLog(empty, c);
    OneMore([], log.chain[0]);
    assert [] + log.chain == log.chain;
  }

  /** The counters of the next checkpoint. */
  lemma StepCounts<V, W>(reducer: Reducer<V, W>, empty: V, c: Cadence, before: seq<Turn<V, W>>, log: Log<V, W>,
          turn: Turn<V, W>)
    requires (log.versioned <==> Wrote(before)) && (log.updates, log.supersteps) == Counted(c, before)
    requires log.chain != [] && Step(reducer, empty, c, log, turn).Some?
    ensures var turns, next := before + [turn], Step(reducer, empty, c, log, turn).value;
      && (next.versioned <==> Wrote(turns)) && (next.updates, next.supersteps) == Counted(c, turns)
      && Raised(c, turns) == (log.updates + (if turn.applied != [] then 1 else 0), log.supersteps + 1)
  {
    var turns := before + [turn];
    assert turns[..|turns| - 1] == before;
    WroteOneMore(turns);
  }

  /** The next checkpoint, and when it holds a snapshot. */
  lemma StepSaves<V, W>(reducer: Reducer<V, W>, empty: V, c: Cadence, log: Log<V, W>, turn: Turn<V, W>)
    requires log.chain != [] && Step(reducer, empty, c, log, turn).Some?
    ensures var next := Step(reducer, empty, c, log, turn).value;
      && next.chain == Filed(log.chain, turn.filed) + [next.chain[|log.chain|]]
      && next.chain[|log.chain|].writes == []
      && (next.chain[|log.chain|].blob.Some? <==>
            Due(c, log.updates + (if turn.applied != [] then 1 else 0), log.supersteps + 1) && next.versioned)
  {}

  lemma StepTold<V, W>(reducer: Reducer<V, W>, empty: V, c: Cadence, before: seq<Turn<V, W>>, log: Log<V, W>,
          turn: Turn<V, W>)
    requires Told(c, before, log) && Step(reducer, empty, c, log, turn).Some?
    ensures Told(c, before + [turn], Step(reducer, empty, c, log, turn).value)
  {
    var turns, next := before + [turn], Step(reducer, empty, c, log, turn).value;
    assert turns[..|turns| - 1] == before;
    StepCounts(reducer, empty, c, before, log, turn);
    StepSaves(reducer, empty, c, log, turn);
    StepOnChain(log.chain, turn.filed, next.chain[|log.chain|].blob);
    DueOneMore(c, turns);
  }

  /** The walk finds a snapshot exactly if the channel was first written no later than the
      last superstep in which one was due. Until then it goes back to the root, however many
      supersteps pass. */
  lemma {:induction false} SavedOnceWritten<V, W>(reducer: Reducer<V, W>, empty: V, c: Cadence, turns: seq<Turn<V, W>>)
    requires RunLog(reducer, empty, c, turns).Some?
    ensures Told(c, turns, RunLog(reducer, empty, c, turns).value)
  {
    if turns == [] {
      FirstTold<V, W>(empty, c);
    } else {
      var before, last := turns[..|turns| - 1], turns[|turns| - 1];
      LastOff(turns);
      SavedOnceWritten(reducer, empty, c, before);
      StepTold(reducer, empty, c, before, RunLog(reducer, empty, c, before).value, last);
    }
  }

  /** A channel that was never written has no snapshot, whatever the cadence. */
  lemma NeverWrittenNeverSaved<V, W>(reducer: Reducer<V, W>, empty: V, c: Cadence, turns: seq<Turn<V, W>>)
    requires forall t <- turns :: t.applied == []
    requires RunLog(reducer, empty, c, turns).Some?
    ensures Walked(RunLog(reducer, empty, c, turns).value.chain) == |turns| + 1
  {
    SavedOnceWritten(reducer, empty, c, turns);
    forall i | 0 < i <= |turns| ensures !Wrote(turns[..i]) {}
  }

  // ---------------------------------------------------------------- what a restart rebuilds

  /** A superstep whose writes come back in the order in which they were applied. */
  lemma StepRebuilds<V(!new), W(!new)>(good: V -> bool, reducer: Reducer<V, W>, empty: V, c: Cadence,
          log: Log<V, W>, turn: Turn<V, W>)
    requires BatchingInvariant(good, reducer) && good(empty) && GoodLog(good, empty, log)
    requires log.chain != [] && log.chain[|log.chain| - 1].writes == []
    requires Rebuilt(reducer, empty, log.chain) == log.value && turn.Agrees() && OverwriteFirst(turn.filed)
    ensures Step(reducer, empty, c, log, turn).Some?
    ensures var next := Step(reducer, empty, c, log, turn).value;
      Rebuilt(reducer, empty, next.chain) == next.value
  {
    FiledFacts(log.chain, []);
    ReplayOneMore(good, reducer, empty, SeedValue(empty, log.chain), Since(log.chain), turn.filed);
    var next := Step(reducer, empty, c, log, turn).value;
    var blob := next.chain[|next.chain| - 1].blob;
    StepOnChain(log.chain, turn.filed, blob);
    NewestIs(reducer, empty, log.chain, turn.filed, blob, next.value);
  }

  /** What a chain stands for after one more superstep. */
  lemma NewestIs<V, W>(reducer: Reducer<V, W>, empty: V, chain: seq<Saved<V, W>>, filed: seq<Entry<V, W>>,
          blob: Option<V>, value: V)
    requires chain != [] && chain[|chain| - 1].writes == [] && (blob.Some? ==> blob.value == value)
    requires value == Replay(reducer, empty, SeedValue(empty, chain), Since(chain) + filed)
    ensures Rebuilt(reducer, empty, Filed(chain, filed) + [Saved(blob, [])]) == value
  {
    StepOnChain(chain, filed, blob);
  }

  lemma {:induction false} TurnsRebuild<V(!new), W(!new)>(good: V -> bool, reducer: Reducer<V, W>, empty: V, c: Cadence,
          turns: seq<Turn<V, W>>)
    requires c.Valid() && BatchingInvariant(good, reducer) && good(empty)
    requires forall t <- turns :: t.Agrees() && OverwriteFirst(t.filed) && GoodBases(good, t.filed)
    ensures RunLog(reducer, empty, c, turns).Some?
    ensures var log := RunLog(reducer, empty, c, turns).value;
      && Booked(c, log) && GoodLog(good, empty, log)
      && Rebuilt(reducer, empty, log.chain) == log.value
  {
    if turns == [] {
      FirstBooked<V, W>(empty, c);
    } else {
      var before, last := turns[..|turns| - 1], turns[|turns| - 1];
      assert last in turns && forall t <- before :: t in turns;
      TurnsRebuild(good, reducer, empty, c, before);
      var log := RunLog(reducer, empty, c, before).value;
      StepRebuilds(good, reducer, empty, c, log, last);
      StepBooked(reducer, empty, c, log, last);
      StepGood(good, reducer, empty, c, log, last);
    }
  }

  // ---------------------------------------------------------------- appended writes

  ghost predicate AllPlain<V, W>(entries: seq<Entry<V, W>>) { forall e <- entries :: e.Plain? }

  lemma {:induction false} PlainsInjective<V, W>(a: seq<Entry<V, W>>, b: seq<Entry<V, W>>)
    requires AllPlain(a) && AllPlain(b) && Plains(a) == Plains(b)
    ensures a == b
  {
    PlainsOfPlain(a);
    PlainsOfPlain(b);
    if a != [] {
      assert a[0] in a && b[0] in b;
      assert Plains(a)[0] == a[0].write && Plains(b)[0] == b[0].write;
      assert Plains(a)[1..] == Plains(a[1..]) && Plains(b)[1..] == Plains(b[1..]);
      PlainsInjective(a[1..], b[1..]);
      assert a == [a[0]] + a[1..] && b == [b[0]] + b[1..];
    }
  }

  lemma PlainOnly<V, W>(entries: seq<Entry<V, W>>)
    requires AllPlain(entries)
    ensures forall i :: 0 <= i < |entries| ==> entries[i].Plain?
    ensures AfterLast(entries) == 0
  {
    forall i | 0 <= i < |entries| ensures entries[i].Plain? { assert entries[i] in entries; }
  }

  lemma AppendReplays<W>(empty: seq<W>, value: seq<W>, entries: seq<Entry<seq<W>, W>>)
    requires AllPlain(entries)
    ensures Replay(Append, empty, value, entries) == value + Plains(entries)
  {
    PlainOnly(entries);
    assert entries[0..] == entries;
    assert value + [] == value;
  }

  /** What the last `walked` supersteps applied, and what was filed for them. */
  function AppliedSince<V, W>(turns: seq<Turn<V, W>>, walked: nat): seq<Entry<V, W>> {
    if turns == [] || walked == 0 then []
    else AppliedSince(turns[..|turns| - 1], walked - 1) + turns[|turns| - 1].applied
  }

  function FiledSince<V, W>(turns: seq<Turn<V, W>>, walked: nat): seq<Entry<V, W>> {
    if turns == [] || walked == 0 then []
    else FiledSince(turns[..|turns| - 1], walked - 1) + turns[|turns| - 1].filed
  }

  ghost predicate AgreeSince<V, W>(turns: seq<Turn<V, W>>, walked: nat) {
    forall i :: 0 <= i < |turns| <= i + walked ==> turns[i].Agrees()
  }

  ghost predicate PlainTurn<V, W>(turn: Turn<V, W>) {
    turn.Whole() && AllPlain(turn.applied) && AllPlain(turn.filed)
  }

  lemma AgreeOneMore<V, W>(turns: seq<Turn<V, W>>, walked: nat)
    requires turns != []
    ensures AgreeSince(turns, walked + 1) <==>
      AgreeSince(turns[..|turns| - 1], walked) && turns[|turns| - 1].Agrees()
  {
    var before := turns[..|turns| - 1];
    if AgreeSince(before, walked) && turns[|turns| - 1].Agrees() {
      forall i | 0 <= i < |turns| <= i + walked + 1 ensures turns[i].Agrees() {
        if i < |before| { assert before[i] == turns[i]; }
      }
    }
    if AgreeSince(turns, walked + 1) {
      forall i | 0 <= i < |before| <= i + walked ensures before[i].Agrees() { assert before[i] == turns[i]; }
    }
  }

  lemma SameEnds<T>(a: seq<T>, x: seq<T>, b: seq<T>, y: seq<T>)
    requires |a| == |b| && a + x == b + y
    ensures a == b && x == y
  {
    assert a == (a + x)[..|a|] && b == (b + y)[..|b|];
    assert x == (a + x)[|a|..] && y == (b + y)[|b|..];
  }

  /** Two runs of batches of equal lengths join to one list exactly if they agree batch by batch. */
  lemma {:induction false} SinceAgree<V, W>(turns: seq<Turn<V, W>>, walked: nat)
    requires forall t <- turns :: PlainTurn(t)
    ensures AllPlain(AppliedSince(turns, walked)) && AllPlain(FiledSince(turns, walked))
    ensures |AppliedSince(turns, walked)| == |FiledSince(turns, walked)|
    ensures AppliedSince(turns, walked) == FiledSince(turns, walked) <==> AgreeSince(turns, walked)
  {
    if turns != [] && walked > 0 {
      var before, last := turns[..|turns| - 1], turns[|turns| - 1];
      assert PlainTurn(last) && forall t <- before :: t in turns;
      SinceAgree(before, walked - 1);
      AgreeOneMore(turns, walked - 1);
      var a, b := AppliedSince(before, walked - 1), FiledSince(before, walked - 1);
      if a + last.applied == b + last.filed { SameEnds(a, last.applied, b, last.filed); }
    }
  }

  lemma PlainIsLive<V, W>(reducer: Reducer<V, W>, empty: V, value: V, batch: seq<Entry<V, W>>)
    requires AllPlain(batch)
    ensures Live(reducer, empty, value, batch) == Some(Fold(reducer, value, Plains(batch)))
  {
    PlainOnly(batch);
    NoOverwrites(batch);
    PlainsOfPlain(batch);
  }

  ghost predicate ChainOf<V, W>(turns: seq<Turn<V, W>>, chain: seq<Saved<V, W>>) {
    && chain != [] && chain[|chain| - 1].writes == []
    && Since(chain) == FiledSince(turns, Walked(chain))
  }

  lemma ChainOneMore<V, W>(before: seq<Turn<V, W>>, chain: seq<Saved<V, W>>, turn: Turn<V, W>, blob: Option<V>)
    requires ChainOf(before, chain)
    ensures ChainOf(before + [turn], Filed(chain, turn.filed) + [Saved(blob, [])])
  {
    assert (before + [turn])[..|before|] == before;
    StepOnChain(chain, turn.filed, blob);
  }

  /** The writes that a walk collects are those filed since the snapshot it finds. */
  lemma {:induction false} SinceIsFiled<V, W>(reducer: Reducer<V, W>, empty: V, c: Cadence, turns: seq<Turn<V, W>>)
    requires RunLog(reducer, empty, c, turns).Some?
    ensures ChainOf(turns, RunLog(reducer, empty, c, turns).value.chain)
  {
    if turns == [] {
      OneMore([], FirstLog<V, W>(empty, c).chain[0]);
    } else {
      var before, last := turns[..|turns| - 1], turns[|turns| - 1];
      LastOff(turns);
      SinceIsFiled(reducer, empty, c, before);
      var chain := RunLog(reducer, empty, c, before).value.chain;
      var next := RunLog(reducer, empty, c, turns).value.chain;
      ChainOneMore(before, chain, last, next[|next| - 1].blob);
    }
  }

  /** The live value and the saved writes of a run that only appends. */
  ghost predicate AppendedTo<W>(empty: seq<W>, turns: seq<Turn<seq<W>, W>>, chain: seq<Saved<seq<W>, W>>,
      value: seq<W>)
  {
    ChainOf(turns, chain) && value == SeedValue(empty, chain) + Plains(AppliedSince(turns, Walked(chain)))
  }

  ghost predicate Appended<W>(empty: seq<W>, turns: seq<Turn<seq<W>, W>>, log: Log<seq<W>, W>) {
    AppendedTo(empty, turns, log.chain, log.value)
  }

  lemma AppendedOneMore<W>(empty: seq<W>, before: seq<Turn<seq<W>, W>>, chain: seq<Saved<seq<W>, W>>, value: seq<W>,
          turn: Turn<seq<W>, W>, blob: Option<seq<W>>)
    requires AppendedTo(empty, before, chain, value) && (blob.Some? ==> blob.value == value + Plains(turn.applied))
    ensures AppendedTo(empty, before + [turn], Filed(chain, turn.filed) + [Saved(blob, [])],
      value + Plains(turn.applied))
  {
    assert (before + [turn])[..|before|] == before;
    ChainOneMore(before, chain, turn, blob);
    StepOnChain(chain, turn.filed, blob);
    var applied := AppliedSince(before, Walked(chain));
    PlainsConcat(applied, turn.applied);
    Assoc(SeedValue(empty, chain), Plains(applied), Plains(turn.applied));
    var next := value + Plains(turn.applied);
    assert next + [] == next;
  }

  lemma StepAppended<W>(empty: seq<W>, c: Cadence, before: seq<Turn<seq<W>, W>>, log: Log<seq<W>, W>,
          turn: Turn<seq<W>, W>)
    requires Appended(empty, before, log) && PlainTurn(turn)
    ensures Step(Append, empty, c, log, turn).Some?
    ensures Appended(empty, before + [turn], Step(Append, empty, c, log, turn).value)
  {
    PlainIsLive(Append, empty, log.value, turn.applied);
    FoldAppends(log.value, Plains(turn.applied));
    var next := Step(Append, empty, c, log, turn).value;
    AppendedOneMore(empty, before, log.chain, log.value, turn, next.chain[|next.chain| - 1].blob);
  }

  lemma FoldAppends<W>(value: seq<W>, xs: seq<W>)
    ensures Fold(Append, value, xs) == value + xs
  {
    assert value + [] == value;
  }

  lemma {:induction false} AppendedSince<W>(empty: seq<W>, c: Cadence, turns: seq<Turn<seq<W>, W>>)
    requires forall t <- turns :: PlainTurn(t)
    ensures RunLog(Append, empty, c, turns).Some?
    ensures Appended(empty, turns, RunLog(Append, empty, c, turns).value)
  {
    if turns == [] {
      OneMore([], FirstLog<seq<W>, W>(empty, c).chain[0]);
    } else {
      var before, last := turns[..|turns| - 1], turns[|turns| - 1];
      LastOff(turns);
      assert PlainTurn(last) && forall t <- before :: t in turns;
      AppendedSince(empty, c, before);
      StepAppended(empty, c, before, RunLog(Append, empty, c, before).value, last);
    }
  }

  /** With the appending reducer a restart rebuilds the live value exactly if, in every
      superstep since the newest snapshot, the saver hands the writes back as they were applied. */
  lemma AppendsRebuildExactly<W>(empty: seq<W>, c: Cadence, turns: seq<Turn<seq<W>, W>>)
    requires forall t <- turns :: PlainTurn(t)
    ensures RunLog(Append, empty, c, turns).Some?
    ensures var log := RunLog(Append, empty, c, turns).value;
      Rebuilt(Append, empty, log.chain) == log.value <==> AgreeSince(turns, Walked(log.chain))
  {
    AppendedSince(empty, c, turns);
    var log := RunLog(Append, empty, c, turns).value;
    var n := Walked(log.chain);
    var seed, applied, filed := SeedValue(empty, log.chain), AppliedSince(turns, n), FiledSince(turns, n);
    FiledFacts(log.chain, []);
    SinceAgree(turns, n);
    AppendReplays(empty, seed, filed);
    if seed + Plains(filed) == seed + Plains(applied) {
      SameEnds(seed, Plains(filed), seed, Plains(applied));
      PlainsInjective(filed, applied);
    }
  }
}
