/** Supersteps that only add new messages: a restart keeps their order exactly if the saver does. */
module MessageOrder {
  import opened Channels
  import opened DeltaChannels
  import opened DeltaSnapshots
  import opened Lists
  import opened MessageChannel
  import opened Messages
  import opened SavedOrder
  import opened TaskOrder

  type MessageEntry = Entry<seq<Message>, MessageWrite>
  type MessageTurn = Turn<seq<Message>, MessageWrite>

  /** The messages of some entries, in order. */
  function Said(entries: seq<MessageEntry>): seq<Message> { Flat(Plains(entries)) }

  /** New messages: each has an id of its own, and none removes another. */
  ghost predicate Fresh(ms: seq<Message>) {
    DistinctIds(ms) && forall i :: 0 <= i < |ms| ==> ms[i].id.Some? && !ms[i].role.Remove?
  }

  lemma SaidConcat(a: seq<MessageEntry>, b: seq<MessageEntry>)
    ensures Said(a + b) == Said(a) + Said(b)
  {
    PlainsConcat(a, b);
    FlatConcat(Plains(a), Plains(b));
  }

  lemma FreshFront(a: seq<Message>, b: seq<Message>)
    requires Fresh(a + b)
    ensures Fresh(a)
  {
    assert forall i :: 0 <= i < |a| ==> a[i] == (a + b)[i];
  }

  /** The fold puts new messages at the end. */
  lemma {:induction false} FreshAppended(s: seq<Message>, ms: seq<Message>)
    requires Fresh(s + ms)
    ensures ApplyAll(s, ms) == s + ms
  {
    if ms == [] {
      assert s + ms == s;
    } else {
      var n := |ms| - 1;
      LastOff(ms);
      assert s + ms == (s + ms[..n]) + [ms[n]];
      FreshFront(s + ms[..n], [ms[n]]);
      FreshAppended(s, ms[..n]);
      NewAtEnd(s + ms[..n], ms[n]);
    }
  }

  lemma NewAtEnd(s: seq<Message>, m: Message)
    requires Fresh(s + [m])
    ensures Apply(s, m) == s + [m]
  {
    var all := s + [m];
    assert all[|s|] == m;
    forall i | 0 <= i < |s| ensures s[i].id != m.id { assert all[i] == s[i]; }
    assert Position(s, m.id.value).None?;
  }

  lemma ReducedFresh(s: seq<Message>, writes: seq<MessageWrite>)
    requires Fresh(s + Flat(writes))
    ensures Fold(ReduceWrites, s, writes) == s + Flat(writes)
  {
    FreshFront(s, Flat(writes));
    FreshAppended(s, Flat(writes));
    ReduceIsFold(s, Flat(writes));
    if writes == [] { assert s + [] == s; }
  }

  // ---------------------------------------------------------------- other orders of new messages

  lemma {:induction false} OnceEach(ms: seq<Message>, x: Message)
    requires Fresh(ms)
    ensures multiset(ms)[x] <= 1
  {
    if ms != [] {
      var n := |ms| - 1;
      LastOff(ms);
      FreshFront(ms[..n], [ms[n]]);
      OnceEach(ms[..n], x);
    }
  }

  lemma TwiceIn<T>(s: seq<T>, i: nat, j: nat)
    requires i < j < |s| && s[i] == s[j]
    ensures multiset(s)[s[i]] >= 2
  {
    assert s == s[..j] + s[j..];
    assert s[..j][i] in multiset(s[..j]) && s[j..][0] in multiset(s[j..]);
  }

  lemma Member(a: seq<Message>, b: seq<Message>, i: nat) returns (j: nat)
    requires multiset(a) == multiset(b) && i < |b|
    ensures j < |a| && a[j] == b[i]
  {
    assert b[i] in multiset(a);
    j :| 0 <= j < |a| && a[j] == b[i];
  }

  lemma PermutedFresh(a: seq<Message>, b: seq<Message>)
    requires Fresh(a) && multiset(a) == multiset(b)
    ensures Fresh(b)
  {
    forall i | 0 <= i < |b| ensures b[i].id.Some? && !b[i].role.Remove? {
      var k := Member(a, b, i);
    }
    forall i, j | 0 <= i < j < |b| ensures b[i].id != b[j].id {
      var k := Member(a, b, i);
      var l := Member(a, b, j);
      if b[i] == b[j] {
        TwiceIn(b, i, j);
        OnceEach(a, b[i]);
      }
      assert k != l;
    }
  }

  // ---------------------------------------------------------------- batches

  function Newest<T>(s: seq<T>, n: nat): seq<T> { if n < |s| then s[|s| - n..] else s }

  lemma NewestOneMore<T>(s: seq<T>, x: T, n: nat)
    ensures Newest(s + [x], n + 1) == Newest(s, n) + [x]
  {}

  lemma FlattenOneMore<T>(batches: seq<seq<T>>, x: seq<T>)
    ensures DeltaChannels.Flatten(batches + [x]) == DeltaChannels.Flatten(batches) + x
  {
    assert (batches + [x])[..|batches|] == batches;
  }

  /** The batches of the one list hold the messages of those of the other, in some order each. */
  ghost predicate Alike(a: seq<seq<Message>>, b: seq<seq<Message>>) {
    |a| == |b| && forall i :: 0 <= i < |a| ==> multiset(a[i]) == multiset(b[i])
  }

  lemma JoinedAgree(a: seq<Message>, x: seq<Message>, b: seq<Message>, y: seq<Message>)
    requires multiset(a) == multiset(b) && multiset(x) == multiset(y)
    ensures multiset(a + x) == multiset(b + y)
    ensures a + x == b + y <==> a == b && x == y
  {
    assert |a| == |multiset(a)| == |b|;
    if a + x == b + y { SameEnds(a, x, b, y); }
  }

  /** Such batches join to one list exactly if they agree batch by batch. */
  lemma {:induction false} FlattenAgree(a: seq<seq<Message>>, b: seq<seq<Message>>)
    requires Alike(a, b)
    ensures multiset(DeltaChannels.Flatten(a)) == multiset(DeltaChannels.Flatten(b))
    ensures DeltaChannels.Flatten(a) == DeltaChannels.Flatten(b) <==> a == b
  {
    if a != [] {
      var n := |a| - 1;
      FlattenAgree(a[..n], b[..n]);
      JoinedAgree(DeltaChannels.Flatten(a[..n]), a[n], DeltaChannels.Flatten(b[..n]), b[n]);
      LastOff(a);
      LastOff(b);
    }
  }

  // ---------------------------------------------------------------- turns

  /** The saver hands back the messages of the step in some order. */
  ghost predicate Shuffled(turn: MessageTurn) {
    && AllPlain(turn.applied) && AllPlain(turn.filed)
    && multiset(Said(turn.applied)) == multiset(Said(turn.filed))
  }

  /** What was said in each superstep, as it was applied and as it is handed back. */
  function AppliedEach(turns: seq<MessageTurn>): (r: seq<seq<Message>>)
    ensures |r| == |turns| && forall i :: 0 <= i < |turns| ==> r[i] == Said(turns[i].applied)
  {
    seq(|turns|, i requires 0 <= i < |turns| => Said(turns[i].applied))
  }

  function FiledEach(turns: seq<MessageTurn>): (r: seq<seq<Message>>)
    ensures |r| == |turns| && forall i :: 0 <= i < |turns| ==> r[i] == Said(turns[i].filed)
  {
    seq(|turns|, i requires 0 <= i < |turns| => Said(turns[i].filed))
  }

  lemma EachOneMore(before: seq<MessageTurn>, turn: MessageTurn)
    ensures AppliedEach(before + [turn]) == AppliedEach(before) + [Said(turn.applied)]
    ensures FiledEach(before + [turn]) == FiledEach(before) + [Said(turn.filed)]
  {}

  lemma EachAlike(turns: seq<MessageTurn>, n: nat)
    requires forall t <- turns :: Shuffled(t)
    ensures Alike(Newest(AppliedEach(turns), n), Newest(FiledEach(turns), n))
  {
    forall i | 0 <= i < |turns| ensures multiset(AppliedEach(turns)[i]) == multiset(FiledEach(turns)[i]) {
      assert Shuffled(turns[i]);
    }
  }

  lemma {:induction false} FiledPlain(turns: seq<MessageTurn>, walked: nat)
    requires forall t <- turns :: AllPlain(t.filed)
    ensures AllPlain(FiledSince(turns, walked))
  {
    if turns != [] && walked > 0 {
      var before, last := turns[..|turns| - 1], turns[|turns| - 1];
      assert last in turns && forall t <- before :: t in turns;
      FiledPlain(before, walked - 1);
    }
  }

  function FiledIn(turns: seq<MessageTurn>): seq<MessageEntry> {
    if turns == [] then [] else FiledIn(turns[..|turns| - 1]) + turns[|turns| - 1].filed
  }

  lemma FiledInThen(before: seq<MessageTurn>, turn: MessageTurn)
    ensures FiledIn(before + [turn]) == FiledIn(before) + turn.filed
  {
    assert (before + [turn])[..|before|] == before;
  }

  lemma NewestThen(before: seq<MessageTurn>, turn: MessageTurn, walked: nat)
    requires FiledSince(before, walked) == FiledIn(Newest(before, walked))
    ensures FiledSince(before + [turn], walked + 1) == FiledIn(Newest(before + [turn], walked + 1))
  {
    assert (before + [turn])[..|before|] == before;
    NewestOneMore(before, turn, walked);
    FiledInThen(Newest(before, walked), turn);
  }

  lemma NewestNone(turns: seq<MessageTurn>, walked: nat)
    requires turns == [] || walked == 0
    ensures FiledSince(turns, walked) == FiledIn(Newest(turns, walked))
  {
    assert Newest(turns, walked) == [];
  }

  lemma {:induction false} FiledIsNewest(turns: seq<MessageTurn>, walked: nat)
    ensures FiledSince(turns, walked) == FiledIn(Newest(turns, walked))
  {
    if turns == [] || walked == 0 {
      NewestNone(turns, walked);
    } else {
      var before, last := turns[..|turns| - 1], turns[|turns| - 1];
      FiledIsNewest(before, walked - 1);
      NewestThen(before, last, walked - 1);
      LastOff(turns);
    }
  }

  lemma {:induction false} SaidInFiled(turns: seq<MessageTurn>)
    ensures SaidIs(FiledIn(turns), FiledEach(turns))
  {
    if turns != [] {
      var before, last := turns[..|turns| - 1], turns[|turns| - 1];
      SaidInFiled(before);
      SaidIsOneMore(FiledIn(before), FiledEach(before), last.filed);
      EachOneMore(before, last);
      LastOff(turns);
    }
  }

  ghost predicate SaidIs(filed: seq<MessageEntry>, batches: seq<seq<Message>>) {
    Said(filed) == DeltaChannels.Flatten(batches)
  }

  lemma SaidIsOneMore(filed: seq<MessageEntry>, batches: seq<seq<Message>>, more: seq<MessageEntry>)
    requires SaidIs(filed, batches)
    ensures SaidIs(filed + more, batches + [Said(more)])
  {
    FlattenOneMore(batches, Said(more));
    SaidConcat(filed, more);
  }

  lemma SaidSince(turns: seq<MessageTurn>, walked: nat)
    ensures SaidIs(FiledSince(turns, walked), Newest(FiledEach(turns), walked))
  {
    FiledIsNewest(turns, walked);
    SaidInFiled(Newest(turns, walked));
    assert FiledEach(Newest(turns, walked)) == Newest(FiledEach(turns), walked);
  }

  /** The live list is all that was said, and what the newest snapshot holds is the front of it. */
  ghost predicate Heard(each: seq<seq<Message>>, chain: seq<Saved<seq<Message>, MessageWrite>>, value: seq<Message>) {
    && chain != [] && chain[|chain| - 1].writes == []
    && value == DeltaChannels.Flatten(each)
    && SeedValue([], chain) + DeltaChannels.Flatten(Newest(each, Walked(chain))) == value
  }

  lemma HeardOneMore(each: seq<seq<Message>>, chain: seq<Saved<seq<Message>, MessageWrite>>, value: seq<Message>,
          batch: seq<Message>, filed: seq<MessageEntry>, blob: Option<seq<Message>>)
    requires Heard(each, chain, value) && (blob.Some? ==> blob.value == value + batch)
    ensures Heard(each + [batch], Filed(chain, filed) + [Saved(blob, [])], value + batch)
  {
    var newest := Newest(each, Walked(chain));
    FlattenOneMore(each, batch);
    NewestOneMore(each, batch, Walked(chain));
    FlattenOneMore(newest, batch);
    StepOnChain(chain, filed, blob);
    Assoc(SeedValue([], chain), DeltaChannels.Flatten(newest), batch);
    var next := value + batch;
    assert next + [] == next;
  }

  lemma StepHeard(c: Cadence, each: seq<seq<Message>>, log: Log<seq<Message>, MessageWrite>, turn: MessageTurn)
    requires Heard(each, log.chain, log.value) && AllPlain(turn.applied) && Fresh(log.value + Said(turn.applied))
    ensures Step(ReduceWrites, [], c, log, turn).Some?
    ensures var next := Step(ReduceWrites, [], c, log, turn).value;
      Heard(each + [Said(turn.applied)], next.chain, next.value)
  {
    PlainIsLive(ReduceWrites, [], log.value, turn.applied);
    ReducedFresh(log.value, Plains(turn.applied));
    var next := Step(ReduceWrites, [], c, log, turn).value;
    HeardOneMore(each, log.chain, log.value, Said(turn.applied), turn.filed, next.chain[|next.chain| - 1].blob);
  }

  lemma FirstHeard(c: Cadence)
    ensures var log: Log<seq<Message>, MessageWrite> := FirstLog([], c); Heard([], log.chain, log.value)
  {
    var log: Log<seq<Message>, MessageWrite> := FirstLog([], c);
    OneMore([], log.chain[0]);
    assert [] + log.chain == log.chain;
  }

  lemma {:induction false} RunHeard(c: Cadence, turns: seq<MessageTurn>)
    requires (forall t <- turns :: AllPlain(t.applied)) && Fresh(DeltaChannels.Flatten(AppliedEach(turns)))
    ensures RunLog(ReduceWrites, [], c, turns).Some?
    ensures var log := RunLog(ReduceWrites, [], c, turns).value; Heard(AppliedEach(turns), log.chain, log.value)
  {
    if turns == [] {
      FirstHeard(c);
    } else {
      var before, last := turns[..|turns| - 1], turns[|turns| - 1];
      LastOff(turns);
      assert last in turns && forall t <- before :: t in turns;
      EachOneMore(before, last);
      FlattenOneMore(AppliedEach(before), Said(last.applied));
      FreshFront(DeltaChannels.Flatten(AppliedEach(before)), Said(last.applied));
      RunHeard(c, before);
      StepHeard(c, AppliedEach(before), RunLog(ReduceWrites, [], c, before).value, last);
    }
  }

  lemma PlainReplays(seed: seq<Message>, entries: seq<MessageEntry>)
    requires AllPlain(entries) && Fresh(seed + Said(entries))
    ensures Replay(ReduceWrites, [], seed, entries) == seed + Said(entries)
  {
    PlainOnly(entries);
    assert entries[0..] == entries;
    ReducedFresh(seed, Plains(entries));
  }

  /** What the newest snapshot and the batches filed since give, against the live list. */
  lemma SeedAndBatches(seed: seq<Message>, a: seq<seq<Message>>, b: seq<seq<Message>>)
    requires Alike(a, b) && Fresh(seed + DeltaChannels.Flatten(a))
    ensures Fresh(seed + DeltaChannels.Flatten(b))
    ensures seed + DeltaChannels.Flatten(b) == seed + DeltaChannels.Flatten(a) <==> a == b
  {
    FlattenAgree(a, b);
    JoinedAgree(seed, DeltaChannels.Flatten(a), seed, DeltaChannels.Flatten(b));
    PermutedFresh(seed + DeltaChannels.Flatten(a), seed + DeltaChannels.Flatten(b));
  }

  /** What a chain whose writes since the newest snapshot say these batches stands for. */
  lemma BatchesRebuilt(seed: seq<Message>, filed: seq<MessageEntry>, a: seq<seq<Message>>, b: seq<seq<Message>>)
    requires AllPlain(filed) && SaidIs(filed, b) && Alike(a, b) && Fresh(seed + DeltaChannels.Flatten(a))
    ensures Replay(ReduceWrites, [], seed, filed) == seed + DeltaChannels.Flatten(a) <==> a == b
  {
    SeedAndBatches(seed, a, b);
    PlainReplays(seed, filed);
  }

  lemma TurnsNeedOrder(c: Cadence, turns: seq<MessageTurn>)
    requires (forall t <- turns :: Shuffled(t)) && Fresh(DeltaChannels.Flatten(AppliedEach(turns)))
    ensures RunLog(ReduceWrites, [], c, turns).Some?
    ensures var log := RunLog(ReduceWrites, [], c, turns).value;
      Rebuilt(ReduceWrites, [], log.chain) == log.value <==>
        Newest(AppliedEach(turns), Walked(log.chain)) == Newest(FiledEach(turns), Walked(log.chain))
  {
    RunHeard(c, turns);
    SinceIsFiled(ReduceWrites, [], c, turns);
    var log := RunLog(ReduceWrites, [], c, turns).value;
    var n := Walked(log.chain);
    FiledPlain(turns, n);
    SaidSince(turns, n);
    EachAlike(turns, n);
    FiledFacts(log.chain, []);
    BatchesRebuilt(SeedValue([], log.chain), FiledSince(turns, n), Newest(AppliedEach(turns), n),
                   Newest(FiledEach(turns), n));
  }

  // ---------------------------------------------------------------- tasks

  lemma {:induction false} SameSaid(view: View<seq<Message>, MessageWrite>, a: seq<Task>, b: seq<Task>)
    requires multiset(a) == multiset(b)
    ensures multiset(Said(Entries(view, a))) == multiset(Said(Entries(view, b)))
  {
    if a == [] {
      assert |b| == |multiset(b)| == |multiset(a)|;
    } else {
      assert a[0] in multiset(b);
      var j :| 0 <= j < |b| && b[j] == a[0];
      TakenOut(a, b, j);
      SameSaid(view, a[1..], b[..j] + b[j + 1..]);
      SaidConcat(view(a[0]), Entries(view, a[1..]));
      SaidAround(view, b, j);
    }
  }

  lemma TakenOut(a: seq<Task>, b: seq<Task>, j: nat)
    requires multiset(a) == multiset(b) && a != [] && j < |b| && b[j] == a[0]
    ensures multiset(a[1..]) == multiset(b[..j] + b[j + 1..])
  {
    assert a == [a[0]] + a[1..];
    assert b == b[..j] + ([b[j]] + b[j + 1..]) by { Around(b, j); }
    assert multiset(b[..j] + b[j + 1..]) == multiset(b) - multiset{b[j]};
  }

  lemma SaidAround(view: View<seq<Message>, MessageWrite>, b: seq<Task>, j: nat)
    requires j < |b|
    ensures multiset(Said(Entries(view, b))) ==
      multiset(Said(view(b[j]))) + multiset(Said(Entries(view, b[..j] + b[j + 1..])))
  {
    var front, back := b[..j], b[j + 1..];
    Around(b, j);
    EntriesConcat(view, front, [b[j]] + back);
    EntriesConcat(view, front, back);
    assert ([b[j]] + back)[1..] == back;
    SaidConcat(Entries(view, front), view(b[j]) + Entries(view, back));
    SaidConcat(view(b[j]), Entries(view, back));
    SaidConcat(Entries(view, front), Entries(view, back));
  }

  lemma RanShuffled(view: View<seq<Message>, MessageWrite>, r: Ran)
    requires SameTasks(r) && AppendsOnly(view, r)
    ensures Shuffled(TurnOf(view, r))
  {
    PlainRan(view, r);
    SortSorts(r.tasks);
    SameSaid(view, Sort(r.tasks), r.saved);
  }

  lemma NewestAgree<T>(a: seq<T>, b: seq<T>, n: nat)
    requires |a| == |b|
    ensures Newest(a, n) == Newest(b, n) <==> forall i :: 0 <= i < |a| <= i + n ==> a[i] == b[i]
  {
    var k := if n < |a| then |a| - n else 0;
    assert Newest(a, n) == a[k..] && Newest(b, n) == b[k..];
    if Newest(a, n) == Newest(b, n) {
      forall i | 0 <= i < |a| <= i + n ensures a[i] == b[i] { assert a[k..][i - k] == b[k..][i - k]; }
    }
  }

  /** What the tasks of each superstep say, in the order of their paths, and in that of the saver. */
  function SaidInOrder(view: View<seq<Message>, MessageWrite>, r: Ran): seq<Message> {
    Said(Entries(view, Sort(r.tasks)))
  }

  function SaidAsSaved(view: View<seq<Message>, MessageWrite>, r: Ran): seq<Message> {
    Said(Entries(view, r.saved))
  }

  function SaidEach(view: View<seq<Message>, MessageWrite>, rans: seq<Ran>): seq<seq<Message>> {
    seq(|rans|, i requires 0 <= i < |rans| => SaidInOrder(view, rans[i]))
  }

  /** Supersteps whose tasks only add new messages: after any run of them the saved chain rebuilds
      the live list exactly if, in every superstep since the newest snapshot, the messages come
      back in the order of the task paths. */
  lemma MessagesNeedOrder(c: Cadence, view: View<seq<Message>, MessageWrite>, rans: seq<Ran>)
    requires forall r <- rans :: SameTasks(r) && AppendsOnly(view, r)
    requires Fresh(DeltaChannels.Flatten(SaidEach(view, rans)))
    ensures RunLog(ReduceWrites, [], c, Turns(view, rans)).Some?
    ensures var log := RunLog(ReduceWrites, [], c, Turns(view, rans)).value;
      Rebuilt(ReduceWrites, [], log.chain) == log.value <==>
        forall i :: 0 <= i < |rans| <= i + Walked(log.chain) ==>
          SaidAsSaved(view, rans[i]) == SaidInOrder(view, rans[i])
  {
    var turns := Turns(view, rans);
    forall t | t in turns ensures Shuffled(t) {
      var i :| 0 <= i < |turns| && turns[i] == t;
      assert rans[i] in rans;
      RanShuffled(view, rans[i]);
    }
    assert AppliedEach(turns) == SaidEach(view, rans);
    TurnsNeedOrder(c, turns);
    NewestAgree(AppliedEach(turns), FiledEach(turns), Walked(RunLog(ReduceWrites, [], c, turns).value.chain));
  }
}
