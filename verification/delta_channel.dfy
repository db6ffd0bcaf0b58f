/** A channel that keeps its value by folding batches of writes, and is rebuilt from a
    snapshot and the writes that came after it. */
module DeltaChannels {
  import opened Channels
  import opened Lists

  /** `Overwrite(None)` sets the channel back to its type's empty value. */
  datatype Entry<V, W> = Plain(write: W) | Overwrite(base: Option<V>)

  type Reducer<!V, !W> = (V, seq<W>) -> V

  /** From a good value, applying two batches one after the other, or their concatenation
      once, is the same, and the values stay good. */
  ghost predicate BatchingInvariant<V(!new), W(!new)>(good: V -> bool, reducer: Reducer<V, W>) {
    && (forall s, xs :: good(s) ==> good(reducer(s, xs)))
    && (forall s, xs, ys :: good(s) ==> reducer(reducer(s, xs), ys) == reducer(s, xs + ys))
  }

  ghost predicate GoodBases<V(!new), W(!new)>(good: V -> bool, entries: seq<Entry<V, W>>) {
    forall e <- entries :: e.Overwrite? && e.base.Some? ==> good(e.base.value)
  }

  // ---------------------------------------------------------------- one batch, many batches

  function Overwrites<V, W>(entries: seq<Entry<V, W>>): nat {
    if entries == [] then 0 else (if entries[0].Overwrite? then 1 else 0) + Overwrites(entries[1..])
  }

  /** The plain writes, in order. */
  function Plains<V, W>(entries: seq<Entry<V, W>>): seq<W> {
    if entries == [] then [] else (if entries[0].Plain? then [entries[0].write] else []) + Plains(entries[1..])
  }

  /** The position behind the last Overwrite, 0 if there is none. */
  function AfterLast<V, W>(entries: seq<Entry<V, W>>): (k: nat)
    ensures k <= |entries|
    ensures k > 0 ==> entries[k - 1].Overwrite?
    ensures forall i :: k <= i < |entries| ==> entries[i].Plain?
  {
    if entries == [] then 0
    else if entries[|entries| - 1].Overwrite? then |entries|
    else AfterLast(entries[..|entries| - 1])
  }

  function Fold<V, W>(reducer: Reducer<V, W>, base: V, writes: seq<W>): V {
    if writes == [] then base else reducer(base, writes)
  }

  function BaseAt<V, W>(empty: V, entries: seq<Entry<V, W>>, k: nat): V
    requires 0 < k <= |entries| && entries[k - 1].Overwrite?
  {
    match entries[k - 1].base case Some(v) => v case None => empty
  }

  /** One superstep's batch. `None` is the refusal of a second Overwrite. The writes in
      front of the Overwrite are applied to it as well. */
  function Live<V, W>(reducer: Reducer<V, W>, empty: V, value: V, batch: seq<Entry<V, W>>): Option<V> {
    if batch == [] then Some(value)
    else if Overwrites(batch) > 1 then None
    else if AfterLast(batch) > 0 then Some(Fold(reducer, BaseAt(empty, batch, AfterLast(batch)), Plains(batch)))
    else Some(reducer(value, Plains(batch)))
  }

  /** All writes at once: the last Overwrite is the new base, and only what follows counts. */
  function Replay<V, W>(reducer: Reducer<V, W>, empty: V, value: V, entries: seq<Entry<V, W>>): V {
    var k := AfterLast(entries);
    Fold(reducer, if k > 0 then BaseAt(empty, entries, k) else value, Plains(entries[k..]))
  }

  // ---------------------------------------------------------------- told outright

  predicate IsPlain<V, W>(e: Entry<V, W>) { e.Plain? }

  /** The plain writes among the entries, in order. */
  ghost predicate PlainsAre<V, W>(entries: seq<Entry<V, W>>, picked: seq<Entry<V, W>>, writes: seq<W>) {
    && Picked(entries, IsPlain, Itself, picked)
    && |picked| == |writes| && forall i :: 0 <= i < |picked| ==> picked[i] == Plain(writes[i])
  }

  lemma {:induction false} PlainsPicked<V, W>(entries: seq<Entry<V, W>>) returns (picked: seq<Entry<V, W>>)
    ensures PlainsAre(entries, picked, Plains(entries))
  {
    if entries == [] {
      picked := [];
      PickedNone<Entry<V, W>, Entry<V, W>>(IsPlain, Itself);
    } else {
      var before, e := entries[..|entries| - 1], entries[|entries| - 1];
      var p := PlainsPicked(before);
      PickedMore(before, IsPlain, Itself, p, e);
      PlainsConcat(before, [e]);
      assert [e][1..] == [];
      LastOff(entries);
      picked := if e.Plain? then p + [e] else p;
    }
  }

  predicate TwoOverwrites<V, W>(entries: seq<Entry<V, W>>, i: nat, j: nat) {
    i < j < |entries| && entries[i].Overwrite? && entries[j].Overwrite?
  }

  ghost predicate SeveralOverwrites<V, W>(entries: seq<Entry<V, W>>) {
    exists i: nat, j: nat :: TwoOverwrites(entries, i, j)
  }

  lemma {:induction false} OverwritesMany<V, W>(entries: seq<Entry<V, W>>)
    ensures Overwrites(entries) == 0 <==> forall e <- entries :: e.Plain?
    ensures Overwrites(entries) > 1 <==> SeveralOverwrites(entries)
  {
    if entries != [] {
      var rest := entries[1..];
      OverwritesMany(rest);
      assert entries == [entries[0]] + rest;
      assert entries[0] in entries && forall e :: e in entries <==> e == entries[0] || e in rest;
      if i: nat, j: nat :| TwoOverwrites(rest, i, j) { assert TwoOverwrites(entries, i + 1, j + 1); }
      if i: nat, j: nat :| TwoOverwrites(entries, i, j) {
        if i > 0 { assert TwoOverwrites(rest, i - 1, j - 1); } else { assert entries[j] in rest; }
      }
      if entries[0].Overwrite? && !(forall e <- rest :: e.Plain?) {
        var j :| 0 <= j < |rest| && rest[j].Overwrite?;
        assert TwoOverwrites(entries, 0, j + 1);
      }
    }
  }

  /** The value that an Overwrite sets. */
  function Base<V, W>(empty: V, e: Entry<V, W>): V
    requires e.Overwrite?
  {
    if e.base.Some? then e.base.value else empty
  }

  /** One batch: all its plain writes are folded onto the value, or onto that of its Overwrite. */
  ghost predicate UpdatedTo<V, W>(reducer: Reducer<V, W>, empty: V, value: V, batch: seq<Entry<V, W>>, writes: seq<W>,
      now: V)
  {
    if forall e <- batch :: e.Plain? then now == reducer(value, writes)
    else exists k :: 0 <= k < |batch| && batch[k].Overwrite? &&
                     now == if writes == [] then Base(empty, batch[k]) else reducer(Base(empty, batch[k]), writes)
  }

  ghost predicate UpdatedBy<V, W>(reducer: Reducer<V, W>, empty: V, value: V, batch: seq<Entry<V, W>>, now: Option<V>,
      picked: seq<Entry<V, W>>, writes: seq<W>)
  {
    PlainsAre(batch, picked, writes) && now.Some? && UpdatedTo(reducer, empty, value, batch, writes, now.value)
  }

  lemma UpdateIs<V, W>(reducer: Reducer<V, W>, empty: V, value: V, batch: seq<Entry<V, W>>)
    returns (picked: seq<Entry<V, W>>)
    requires batch != [] && Overwrites(batch) <= 1
    ensures UpdatedBy(reducer, empty, value, batch, Live(reducer, empty, value, batch), picked, Plains(batch))
  {
    picked := PlainsPicked(batch);
    LiveIs(reducer, empty, value, batch);
  }

  lemma LiveIs<V, W>(reducer: Reducer<V, W>, empty: V, value: V, batch: seq<Entry<V, W>>)
    requires batch != [] && Overwrites(batch) <= 1
    ensures Live(reducer, empty, value, batch).Some?
    ensures UpdatedTo(reducer, empty, value, batch, Plains(batch), Live(reducer, empty, value, batch).value)
  {
    var k := AfterLast(batch);
    if k > 0 {
      assert batch[k - 1] in batch;
    } else {
      forall e <- batch ensures e.Plain? {
        var i :| 0 <= i < |batch| && batch[i] == e;
      }
    }
  }

  /** A replay: what follows the last Overwrite is folded onto its value, or all onto the value. */
  ghost predicate ReplayedTo<V, W>(reducer: Reducer<V, W>, empty: V, value: V, entries: seq<Entry<V, W>>, k: nat,
      writes: seq<W>, now: V)
  {
    && k <= |entries| && (forall i :: k <= i < |entries| ==> entries[i].Plain?)
    && (k > 0 ==> entries[k - 1].Overwrite?)
    && |writes| == |entries| - k && (forall i :: 0 <= i < |writes| ==> entries[k + i] == Plain(writes[i]))
    && var base := if k > 0 then Base(empty, entries[k - 1]) else value;
       now == if writes == [] then base else reducer(base, writes)
  }

  lemma {:induction false} PlainsInPlace<V, W>(entries: seq<Entry<V, W>>)
    requires forall i :: 0 <= i < |entries| ==> entries[i].Plain?
    ensures |Plains(entries)| == |entries| && forall i :: 0 <= i < |entries| ==> entries[i] == Plain(Plains(entries)[i])
  {
    if entries != [] {
      PlainsInPlace(entries[1..]);
      var rest := Plains(entries[1..]);
      assert Plains(entries) == [entries[0].write] + rest;
      forall i | 0 < i < |entries| ensures entries[i] == Plain(Plains(entries)[i]) {
        assert entries[1..][i - 1] == Plain(rest[i - 1]);
      }
    }
  }

  lemma ReplayIs<V, W>(reducer: Reducer<V, W>, empty: V, value: V, entries: seq<Entry<V, W>>)
    ensures var k := AfterLast(entries);
      ReplayedTo(reducer, empty, value, entries, k, Plains(entries[k..]), Replay(reducer, empty, value, entries))
  {
    var k := AfterLast(entries);
    PlainsInPlace(entries[k..]);
    forall i | 0 <= i < |entries| - k ensures entries[k + i] == Plain(Plains(entries[k..])[i]) {
      assert entries[k..][i] == entries[k + i];
    }
  }

  // ---------------------------------------------------------------- the channel

  class DeltaChannel<V, W> {
    const reducer: Reducer<V, W>
    const empty: V
    const snapshotFrequency: nat
    var value: Option<V>

    /** An absent blob, a snapshot and a plain value all give a channel with a value. */
    constructor FromCheckpoint(reducer: Reducer<V, W>, empty: V, snapshotFrequency: nat, stored: Option<V>)
      ensures this.reducer == reducer && this.empty == empty && this.snapshotFrequency == snapshotFrequency
      ensures value == Some(if stored.Some? then stored.value else empty)
    {
      this.reducer, this.empty, this.snapshotFrequency := reducer, empty, snapshotFrequency;
      value := Some(if stored.Some? then stored.value else empty);
    }

    function Current(): V
      reads this
    {
      if value.Some? then value.value else empty
    }

    method Update(values: seq<Entry<V, W>>) returns (ok: bool, changed: bool)
      modifies this
      ensures ok <==> Overwrites(values) <= 1
      ensures ok ==> (changed <==> values != [])
      ensures !ok || values == [] ==> value == old(value)
      ensures ok && values != [] ==> value == Live(reducer, empty, old(Current()), values)
      ensures ok <==> !SeveralOverwrites(values)
      ensures ok && values != [] ==> exists picked, writes ::
        UpdatedBy(reducer, empty, old(Current()), values, value, picked, writes)
    {
      OverwritesMany(values);
      if |values| == 0 { return true, false; }
      var at := 0;
      for i := 0 to |values|
        invariant value == old(value)
        invariant at == AfterLast(values[..i])
        invariant Overwrites(values[..i]) == if at > 0 then 1 else 0
      {
        OneEntryMore(values, i);
        if values[i].Overwrite? {
          if at > 0 { return false, false; }
          at := i + 1;
        }
      }
      assert values[..|values|] == values;
      var writes := Plains(values);
      if at > 0 {
        var base := match values[at - 1].base case Some(v) => v case None => empty;
        value := Some(if writes == [] then base else reducer(base, writes));
      } else {
        value := Some(reducer(if value.Some? then value.value else empty, writes));
      }
      ghost var picked := UpdateIs(reducer, empty, old(Current()), values);
      return true, true;
    }

    method ReplayWrites(entries: seq<Entry<V, W>>)
      requires value.Some?
      modifies this
      ensures value == Some(Replay(reducer, empty, old(Current()), entries))
      ensures exists k: nat, writes ::
        ReplayedTo(reducer, empty, old(Current()), entries, k, writes, value.value)
    {
      ReplayIs(reducer, empty, Current(), entries);
      if |entries| == 0 { return; }
      var base := value.value;
      var start := 0;
      for i := 0 to |entries|
        invariant value == old(value)
        invariant start == AfterLast(entries[..i])
        invariant base == if start > 0 then BaseAt(empty, entries, start) else old(Current())
      {
        OneEntryMore(entries, i);
        if entries[i].Overwrite? {
          base := match entries[i].base case Some(v) => v case None => empty;
          start := i + 1;
        }
      }
      assert entries[..|entries|] == entries;
      var remaining := Plains(entries[start..]);
      value := Some(if remaining == [] then base else reducer(base, remaining));
    }
  }

  // ---------------------------------------------------------------- lists of entries

  lemma {:induction false} OverwritesConcat<V, W>(a: seq<Entry<V, W>>, b: seq<Entry<V, W>>)
    ensures Overwrites(a + b) == Overwrites(a) + Overwrites(b)
  {
    if a == [] {
      assert a + b == b;
    } else {
      assert (a + b)[1..] == a[1..] + b;
      OverwritesConcat(a[1..], b);
    }
  }

  lemma OneEntryMore<V, W>(entries: seq<Entry<V, W>>, i: nat)
    requires i < |entries|
    ensures AfterLast(entries[..i + 1]) == if entries[i].Overwrite? then i + 1 else AfterLast(entries[..i])
    ensures Overwrites(entries[..i + 1]) == Overwrites(entries[..i]) + if entries[i].Overwrite? then 1 else 0
    ensures Overwrites(entries[..i + 1]) <= Overwrites(entries)
  {
    assert entries[..i + 1][..i] == entries[..i] && entries[..i + 1] == entries[..i] + [entries[i]];
    OverwritesConcat(entries[..i], [entries[i]]);
    SplitAt(entries, i + 1);
    OverwritesConcat(entries[..i + 1], entries[i + 1..]);
  }

  lemma {:induction false} PlainsConcat<V, W>(a: seq<Entry<V, W>>, b: seq<Entry<V, W>>)
    ensures Plains(a + b) == Plains(a) + Plains(b)
  {
    if a == [] {
      assert a + b == b;
    } else {
      PlainsConcat(a[1..], b);
      var head: seq<W> := if a[0].Plain? then [a[0].write] else [];
      assert (a + b)[0] == a[0] && (a + b)[1..] == a[1..] + b;
      assert Plains(a + b) == head + (Plains(a[1..]) + Plains(b));
      assert head + (Plains(a[1..]) + Plains(b)) == (head + Plains(a[1..])) + Plains(b);
    }
  }

  lemma {:induction false} PlainsOfPlain<V, W>(entries: seq<Entry<V, W>>)
    requires forall i :: 0 <= i < |entries| ==> entries[i].Plain?
    ensures |Plains(entries)| == |entries|
  {
    if entries != [] { PlainsOfPlain(entries[1..]); }
  }

  lemma {:induction false} AfterLastConcat<V, W>(a: seq<Entry<V, W>>, b: seq<Entry<V, W>>)
    ensures AfterLast(a + b) == if AfterLast(b) > 0 then |a| + AfterLast(b) else AfterLast(a)
  {
    if b == [] {
      assert a + b == a;
    } else {
      var ab := a + b;
      assert ab[|ab| - 1] == b[|b| - 1] && ab[..|ab| - 1] == a + b[..|b| - 1];
      if !b[|b| - 1].Overwrite? { AfterLastConcat(a, b[..|b| - 1]); }
    }
  }

  // ---------------------------------------------------------------- replay against live updates

  /** At most one Overwrite, and nothing in front of it. */
  predicate OverwriteFirst<V, W>(batch: seq<Entry<V, W>>) { AfterLast(batch) <= 1 }

  lemma {:induction false} FirstIsOnly<V, W>(batch: seq<Entry<V, W>>)
    requires OverwriteFirst(batch)
    ensures Overwrites(batch) <= 1
  {
    if AfterLast(batch) == 0 { NoOverwrites(batch); } else { NoOverwrites(batch[1..]); }
  }

  lemma {:induction false} NoOverwrites<V, W>(entries: seq<Entry<V, W>>)
    requires forall i :: 0 <= i < |entries| ==> entries[i].Plain?
    ensures Overwrites(entries) == 0
  {
    if entries != [] { NoOverwrites(entries[1..]); }
  }

  lemma ReplayFreshBase<V(!new), W(!new)>(reducer: Reducer<V, W>, empty: V, value: V, entries: seq<Entry<V, W>>,
          batch: seq<Entry<V, W>>)
    requires AfterLast(batch) == 1
    ensures Replay(reducer, empty, value, entries + batch) == Fold(reducer, BaseAt(empty, batch, 1), Plains(batch))
  {
    var all, n := entries + batch, |entries| + 1;
    AfterLastConcat(entries, batch);
    assert AfterLast(all) == n && all[n - 1] == batch[0] && all[n..] == batch[1..];
    assert BaseAt(empty, all, n) == BaseAt(empty, batch, 1);
    assert Plains(batch) == Plains(batch[1..]);
  }

  /** Without a new Overwrite the base stays and the new writes come behind the old ones. */
  lemma ReplayKeepsBase<V(!new), W(!new)>(reducer: Reducer<V, W>, empty: V, value: V, entries: seq<Entry<V, W>>,
          batch: seq<Entry<V, W>>, base: V)
    requires AfterLast(batch) == 0
    requires base == if AfterLast(entries) > 0 then BaseAt(empty, entries, AfterLast(entries)) else value
    ensures Replay(reducer, empty, value, entries + batch) ==
      Fold(reducer, base, Plains(entries[AfterLast(entries)..]) + Plains(batch))
  {
    var all, k := entries + batch, AfterLast(entries);
    AfterLastConcat(entries, batch);
    assert all[k..] == entries[k..] + batch;
    PlainsConcat(entries[k..], batch);
    if k > 0 {
      assert all[k - 1] == entries[k - 1];
      assert BaseAt(empty, all, k) == BaseAt(empty, entries, k);
    }
  }

  lemma FoldTwice<V(!new), W(!new)>(good: V -> bool, reducer: Reducer<V, W>, base: V, xs: seq<W>, ys: seq<W>)
    requires BatchingInvariant(good, reducer) && good(base) && ys != []
    ensures reducer(Fold(reducer, base, xs), ys) == Fold(reducer, base, xs + ys)
  {
    if xs == [] { assert xs + ys == ys; }
  }

  lemma ReplayOldBase<V(!new), W(!new)>(good: V -> bool, reducer: Reducer<V, W>, empty: V, value: V,
          entries: seq<Entry<V, W>>, batch: seq<Entry<V, W>>)
    requires BatchingInvariant(good, reducer) && good(empty) && good(value) && GoodBases(good, entries)
    requires AfterLast(batch) == 0 && batch != []
    ensures Replay(reducer, empty, value, entries + batch) ==
      reducer(Replay(reducer, empty, value, entries), Plains(batch))
  {
    var k := AfterLast(entries);
    var base := if k > 0 then BaseAt(empty, entries, k) else value;
    ReplayKeepsBase(reducer, empty, value, entries, batch, base);
    PlainsOfPlain(batch);
    assert k > 0 ==> entries[k - 1] in entries;
    FoldTwice(good, reducer, base, Plains(entries[k..]), Plains(batch));
  }

  /** Replaying one more batch is updating with it. */
  lemma ReplayOneMore<V(!new), W(!new)>(good: V -> bool, reducer: Reducer<V, W>, empty: V, value: V,
          entries: seq<Entry<V, W>>, batch: seq<Entry<V, W>>)
    requires BatchingInvariant(good, reducer) && good(empty) && good(value) && GoodBases(good, entries)
    requires OverwriteFirst(batch)
    ensures Live(reducer, empty, Replay(reducer, empty, value, entries), batch) ==
      Some(Replay(reducer, empty, value, entries + batch))
  {
    FirstIsOnly(batch);
    if batch == [] {
      assert entries + batch == entries;
    } else if AfterLast(batch) == 1 {
      ReplayFreshBase(reducer, empty, value, entries, batch);
    } else {
      ReplayOldBase(good, reducer, empty, value, entries, batch);
    }
  }

  function Flatten<T>(batches: seq<seq<T>>): seq<T> {
    if batches == [] then [] else Flatten(batches[..|batches| - 1]) + batches[|batches| - 1]
  }

  /** The value after one update per batch. */
  function LiveRun<V, W>(reducer: Reducer<V, W>, empty: V, value: V, batches: seq<seq<Entry<V, W>>>): Option<V> {
    if batches == [] then Some(value)
    else match LiveRun(reducer, empty, value, batches[..|batches| - 1])
         case None => None
         case Some(v) => Live(reducer, empty, v, batches[|batches| - 1])
  }

  lemma {:induction false} FlattenGood<V(!new), W(!new)>(good: V -> bool, batches: seq<seq<Entry<V, W>>>)
    requires forall b <- batches :: GoodBases(good, b)
    ensures GoodBases(good, Flatten(batches))
  {
    if batches != [] {
      var before, last := batches[..|batches| - 1], batches[|batches| - 1];
      assert last in batches && forall b <- before :: b in batches;
      FlattenGood(good, before);
      assert forall e <- Flatten(batches) :: e in Flatten(before) || e in last;
    }
  }

  /** One replay of all later writes rebuilds the value that one update per superstep built. */
  lemma {:induction false} ReplayIsLive<V(!new), W(!new)>(good: V -> bool, reducer: Reducer<V, W>, empty: V, value: V,
          batches: seq<seq<Entry<V, W>>>)
    requires BatchingInvariant(good, reducer) && good(empty) && good(value)
    requires forall b <- batches :: OverwriteFirst(b) && GoodBases(good, b)
    ensures LiveRun(reducer, empty, value, batches) == Some(Replay(reducer, empty, value, Flatten(batches)))
  {
    if batches != [] {
      var before, last := batches[..|batches| - 1], batches[|batches| - 1];
      ReplayIsLive(good, reducer, empty, value, before);
      FlattenGood(good, before);
      ReplayOneMore(good, reducer, empty, value, Flatten(before), last);
    }
  }

  /** Appending is a batching-invariant reducer. */
  function Append<W>(s: seq<W>, xs: seq<W>): seq<W> { s + xs }

  predicate Any<V>(v: V) { true }

  lemma AppendInvariant<W(!new)>()
    ensures BatchingInvariant<seq<W>, W>(Any, Append)
  {
    forall s: seq<W>, xs, ys ensures Append(Append(s, xs), ys) == Append(s, xs + ys) { Assoc(s, xs, ys); }
  }

  /** Batching invariance does not make up for an Overwrite behind other writes: with the
      appending reducer a batch that holds one replays to what it did live exactly when nothing
      stands in front of it. */
  lemma OverwriteMustComeFirst<W(!new)>(empty: seq<W>, value: seq<W>, batch: seq<Entry<seq<W>, W>>)
    requires Overwrites(batch) == 1
    ensures BatchingInvariant<seq<W>, W>(Any, Append)
    ensures Live(Append, empty, value, batch) == Some(Replay(Append, empty, value, batch)) <==> OverwriteFirst(batch)
  {
    AppendInvariant<W>();
    AppendsNeedItFirst(empty, value, batch);
  }

  lemma AppendsNeedItFirst<W>(empty: seq<W>, value: seq<W>, batch: seq<Entry<seq<W>, W>>)
    requires Overwrites(batch) == 1
    ensures Live(Append, empty, value, batch) == Some(Replay(Append, empty, value, batch)) <==> OverwriteFirst(batch)
  {
    var k := AfterLast(batch);
    if k == 0 { NoOverwrites(batch); }
    var base := BaseAt(empty, batch, k);
    var pre, post := Plains(batch[..k]), Plains(batch[k..]);
    assert batch == batch[..k] + batch[k..];
    PlainsConcat(batch[..k], batch[k..]);
    assert Fold(Append, base, pre + post) == base + (pre + post);
    assert Fold(Append, base, post) == base + post;
    OneOverwrite(batch, k);
    assert |base + (pre + post)| - |base + post| == |pre|;
    if pre == [] { assert pre + post == post; }
  }

  lemma OneOverwrite<V, W>(batch: seq<Entry<V, W>>, k: nat)
    requires 0 < k <= |batch| && batch[k - 1].Overwrite? && Overwrites(batch) == 1
    ensures |Plains(batch[..k])| == k - 1
  {
    assert batch == (batch[..k - 1] + [batch[k - 1]]) + batch[k..];
    OverwritesConcat(batch[..k - 1] + [batch[k - 1]], batch[k..]);
    OverwritesConcat(batch[..k - 1], [batch[k - 1]]);
    CountedOut(batch[..k - 1]);
    PlainsOfPlain(batch[..k - 1]);
    assert batch[..k] == batch[..k - 1] + [batch[k - 1]];
    PlainsConcat(batch[..k - 1], [batch[k - 1]]);
  }

  lemma {:induction false} CountedOut<V, W>(entries: seq<Entry<V, W>>)
    requires Overwrites(entries) == 0
    ensures forall i :: 0 <= i < |entries| ==> entries[i].Plain?
  {
    if entries != [] {
      CountedOut(entries[1..]);
      assert forall i :: 0 < i < |entries| ==> entries[i] == entries[1..][i - 1];
    }
  }
}
