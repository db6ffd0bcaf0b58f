/** A whole conversation of appended messages and prepared contexts, against its full history. */
module Conversation {
  import opened Channels
  import opened Messages
  import opened AddedMessages
  import opened Contexts
  import opened LoopDetection
  import opened Compaction
  import opened Summaries
  import opened Texts
  import opened Lists

  /** New messages from the graph, or a prepared context and how it came out. */
  datatype Event = Append(more: seq<Message>) | Prepare(setup: Setup, outcome: Prepared)

  /** The stored state once an update has gone through the message reducer. */
  function Stored(s: ContextState, u: Update): ContextState
    requires AllNamed(s.messages) && (u.Archive? ==> AllNamed(u.recent))
  {
    match u
    case Nothing => s
    case Failure(n) => s.(failures := n)
    case Archive(recent, summary, compactions, archived) =>
      match Merge(s.messages, [RemoveMessage(REMOVE_ALL)] + recent)
      case None => s
      case Some(ms) => ContextState(ms, summary, s.failures, compactions, archived)
  }

  /** Histories as the reducer keeps them: ids present and distinct, no removal markers. */
  ghost predicate Proper(h: seq<Message>) { AllNamed(h) && DistinctIds(h) && forall x <- h :: !x.role.Remove? }

  ghost predicate Follows(h: seq<Message>, s: ContextState, e: Event, h': seq<Message>, s': ContextState) {
    match e
    case Append(more) => h' == h + more && Appends(h, s, more, s')
    case Prepare(setup, r) => h' == h && ComesOut(setup, s, r) && Settles(s, r, s')
  }

  ghost predicate Appends(h: seq<Message>, s: ContextState, more: seq<Message>, s': ContextState) {
    && Proper(h + more) && AllNamed(s.messages) && AllNamed(more)
    && Merge(s.messages, more).Some? && s' == s.(messages := Merge(s.messages, more).value)
  }

  ghost predicate ComesOut(setup: Setup, s: ContextState, r: Prepared) { r == PreparedOf(setup, s) }

  ghost predicate Settles(s: ContextState, r: Prepared, s': ContextState) {
    match r
    case Raised => s' == s
    case Prepared(_, u) => AllNamed(s.messages) && (u.Archive? ==> AllNamed(u.recent)) && s' == Stored(s, u)
  }

  // ---------------------------------------------------------------- parts of a history

  function Pick(h: seq<Message>, mask: seq<bool>, want: bool): seq<Message>
    requires |h| == |mask|
  {
    if h == [] then [] else Pick(h[..|h| - 1], mask[..|h| - 1], want) + if mask[|h| - 1] == want then [h[|h| - 1]]
      else []
  }

  lemma {:induction false} PickConcat(a: seq<Message>, b: seq<Message>, ma: seq<bool>, mb: seq<bool>, want: bool)
    requires |a| == |ma| && |b| == |mb|
    ensures Pick(a + b, ma + mb, want) == Pick(a, ma, want) + Pick(b, mb, want)
  {
    if b == [] {
      assert a + b == a && ma + mb == ma;
    } else {
      var n := |b| - 1;
      var last := if mb[n] == want then [b[n]] else [];
      assert (a + b)[..|a| + n] == a + b[..n] && (ma + mb)[..|a| + n] == ma + mb[..n];
      PickConcat(a, b[..n], ma, mb[..n], want);
      Assoc(Pick(a, ma, want), Pick(b[..n], mb[..n], want), last);
    }
  }

  function Same(n: nat, b: bool): seq<bool> { seq(n, _ => b) }

  lemma {:induction false} PickAll(h: seq<Message>, b: bool)
    ensures Pick(h, Same(|h|, b), b) == h && Pick(h, Same(|h|, b), !b) == []
  {
    if h != [] {
      var n := |h| - 1;
      assert Same(|h|, b)[..n] == Same(n, b);
      PickAll(h[..n], b);
      assert h == h[..n] + [h[n]];
    }
  }

  // ---------------------------------------------------------------- the invariant

  predicate AllSystem(ms: seq<Message>) { forall x <- ms :: x.role.System? }

  /** The positions between a call and its results. */
  ghost function Parting(h: seq<Message>): set<nat> { set c: nat | c < |h| && Inside(h, c) }

  /** The history is `gone` and then `live`. Of `gone` only the picked system messages are
      still stored, of `live` everything is. The border parts no call from its results, and
      the current turn lies behind it. */
  ghost predicate Tracks(h: seq<Message>, s: ContextState, gone: seq<Message>, live: seq<Message>, mask: seq<bool>) {
    && Proper(h) && h == gone + live && |mask| == |gone| && (gone != [] ==> live != [])
    && |gone| !in Parting(h)
    && s.messages == Pick(gone, mask, true) + live && AllSystem(Pick(gone, mask, true))
    && s.archived == |Pick(gone, mask, false)|
    && (LastHuman(live).Some? || LastHuman(gone).None?)
  }

  lemma {:induction false} PickedFrom(h: seq<Message>, mask: seq<bool>, want: bool)
    requires |h| == |mask|
    ensures forall x <- Pick(h, mask, want) :: x in h
  {
    if h != [] { PickedFrom(h[..|h| - 1], mask[..|h| - 1], want); }
  }

  lemma {:induction false} PickProper(h: seq<Message>, mask: seq<bool>, want: bool)
    requires |h| == |mask| && Proper(h)
    ensures Proper(Pick(h, mask, want))
  {
    if h != [] {
      var n := |h| - 1;
      ProperPrefix(h, n);
      PickProper(h[..n], mask[..n], want);
      PickedFrom(h[..n], mask[..n], want);
      assert h[n] in h;
      if mask[n] == want { ProperMore(Pick(h[..n], mask[..n], want), h[n]); }
    }
  }

  lemma ProperMore(p: seq<Message>, x: Message)
    requires Proper(p) && x.id.Some? && !x.role.Remove? && forall y <- p :: y.id != x.id
    ensures Proper(p + [x])
  {
    assert forall i :: 0 <= i < |p| ==> p[i] in p;
  }

  lemma ProperPrefix(h: seq<Message>, n: nat)
    requires Proper(h) && n <= |h|
    ensures Proper(h[..n])
  {
    assert forall x <- h[..n] :: x in h;
  }

  /** One mask over the whole history. */
  lemma FullPick(gone: seq<Message>, live: seq<Message>, mask: seq<bool>)
    requires |mask| == |gone|
    ensures var all := mask + Same(|live|, true);
            && Pick(gone + live, all, true) == Pick(gone, mask, true) + live
            && Pick(gone + live, all, false) == Pick(gone, mask, false)
  {
    var more := Same(|live|, true);
    PickConcat(gone, live, mask, more, true);
    PickConcat(gone, live, mask, more, false);
    PickAll(live, true);
    assert Pick(gone, mask, false) + [] == Pick(gone, mask, false);
  }

  lemma StoredProper(gone: seq<Message>, live: seq<Message>, mask: seq<bool>)
    requires |mask| == |gone| && Proper(gone + live)
    ensures Proper(Pick(gone, mask, true) + live)
  {
    FullPick(gone, live, mask);
    PickProper(gone + live, mask + Same(|live|, true), true);
  }

  // ---------------------------------------------------------------- new messages

  lemma InsideMore(h: seq<Message>, more: seq<Message>, q: nat)
    requires q < |h|
    ensures Inside(h + more, q) <==> Inside(h, q)
  {
    var all := h + more;
    forall a | 0 <= a < q ensures CallsThrough(all, a, q) <==> CallsThrough(h, a, q) {
      assert forall i :: a <= i <= q ==> all[i] == h[i];
    }
  }

  lemma AppendTracks(h: seq<Message>, s: ContextState, gone: seq<Message>, live: seq<Message>, mask: seq<bool>,
          more: seq<Message>, s': ContextState)
    requires Tracks(h, s, gone, live, mask) && Appends(h, s, more, s')
    ensures Tracks(h + more, s', gone, live + more, mask)
  {
    var P := Pick(gone, mask, true);
    Assoc(gone, live, more);
    Assoc(P, live, more);
    StoredProper(gone, live + more, mask);
    AppendProper(s.messages, more);
    if gone != [] { InsideMore(h, more, |gone|); }
    LastHumanAppended(live, more);
  }

  lemma AppendProper(ms: seq<Message>, more: seq<Message>)
    requires Proper(ms + more)
    ensures AllNamed(ms) && AllNamed(more) && Merge(ms, more) == Some(ms + more)
  {
    assert forall x <- more :: x in ms + more;
    assert forall x <- ms :: x in ms + more;
    FreshAreAppended(ms, more);
  }

  // ---------------------------------------------------------------- compaction

  /** The system block of the stored messages: the picked ones, and more of the live ones. */
  lemma SystemBlock(P: seq<Message>, live: seq<Message>) returns (block: seq<Message>, rest: seq<Message>)
    requires AllSystem(P)
    ensures live == block + rest && AllSystem(block) && AllSystem(P + block)
    ensures var n := LeadingSystem(P + live);
            n == |P + block| && (P + live)[..n] == P + block && (P + live)[n..] == rest
  {
    var all := P + live;
    var n := LeadingSystem(all);
    assert forall i :: 0 <= i < |P| ==> all[i] == P[i] && P[i] in P;
    var b := n - |P|;
    block, rest := live[..b], live[b..];
    assert all == (P + block) + rest;
    forall x <- block ensures x.role.System? {
      var i :| 0 <= i < b && block[i] == x;
      assert all[|P| + i] == x;
    }
  }

  /** A cut of the rest of a history is one of the history, if nothing parts at its start. */
  lemma CutOfRest(front: seq<Message>, rest: seq<Message>, k: nat)
    requires k < |rest| && Cut(rest, k) && !Inside(front + rest, |front|)
    ensures !Inside(front + rest, |front| + k)
  {
    var h, r, c := front + rest, |front|, |front| + k;
    forall a | 0 <= a < c ensures !CallsThrough(h, a, c) {
      if a < r { ThroughBorder(h, a, r, c); } else { ThroughRest(front, rest, a, k); }
    }
  }

  lemma ThroughBorder(h: seq<Message>, a: nat, r: nat, c: nat)
    requires a < r <= c < |h|
    ensures CallsThrough(h, a, c) ==> CallsThrough(h, a, r)
  {
  }

  lemma ThroughRest(front: seq<Message>, rest: seq<Message>, a: nat, k: nat)
    requires |front| <= a < |front| + k && k < |rest|
    ensures CallsThrough(front + rest, a, |front| + k) <==> CallsThrough(rest, a - |front|, k)
  {
    var h, r := front + rest, |front|;
    assert forall i :: a - r <= i <= k ==> rest[i] == h[r + i];
    assert forall i :: a <= i <= r + k ==> h[i] == rest[i - r];
  }

  lemma BehindSystem(h: seq<Message>, q: nat, r: nat)
    requires q <= r <= |h| && !Inside(h, q) && forall i :: q <= i < r ==> h[i].role.System?
    ensures !Inside(h, r)
  {
    forall a | q < r && 0 <= a < r && r < |h| ensures !CallsThrough(h, a, r) {
      if a < r - 1 { assert !Contexts.Answers(h[a], h[r - 1]); }
    }
  }

  lemma SplitIsCut(m: Measure, rest: seq<Message>, budget: nat, k: nat)
    requires k in Splits(m, rest, budget)
    ensures Cut(rest, k) && k <= MustKeep(rest)
  {
    assert SplitIn(m, rest, budget, k);
  }

  lemma MustKeepBefore(rest: seq<Message>)
    ensures MustKeep(rest) <= LastGroup(rest)
    ensures LastHuman(rest).Some? ==> MustKeep(rest) <= LastHuman(rest).value
  {}

  lemma LastGroupStarts(rest: seq<Message>)
    requires rest != []
    ensures LastGroup(rest) < |rest|
  {
    var last := |Groups(rest)| - 1;
    OffsetStep(rest, last);
    GroupShape(rest, last);
    OffsetSplit(rest, last + 1);
  }

  /** The last group and the current turn are never archived. */
  lemma SplitKeeps(m: Measure, rest: seq<Message>, budget: nat, k: nat)
    requires k in Splits(m, rest, budget) && rest != []
    ensures Cut(rest, k) && k < |rest|
    ensures LastHuman(rest).Some? ==> k <= LastHuman(rest).value
  {
    SplitIsCut(m, rest, budget, k);
    MustKeepBefore(rest);
    LastGroupStarts(rest);
  }

  lemma NoHumanIn(ms: seq<Message>)
    requires AllSystem(ms)
    ensures LastHuman(ms).None?
  {
    assert forall i :: 0 <= i < |ms| ==> ms[i] in ms;
  }

  lemma NoneAppended(a: seq<Message>, b: seq<Message>)
    ensures LastHuman(a + b).None? <==> LastHuman(a).None? && LastHuman(b).None?
  {
    LastHumanAppended(a, b);
  }

  /** Nothing of the current turn goes. */
  lemma TurnStays(gone: seq<Message>, block: seq<Message>, older: seq<Message>, recent: seq<Message>)
    requires AllSystem(block) && (LastHuman(block + (older + recent)).Some? || LastHuman(gone).None?)
    requires LastHuman(older + recent).Some? ==> |older| <= LastHuman(older + recent).value
    ensures LastHuman(recent).Some? || LastHuman(gone + block + older).None?
  {
    NoHumanIn(block);
    NoneAppended(block, older + recent);
    NoneAppended(gone, block);
    NoneAppended(gone + block, older);
    if LastHuman(older + recent).Some? { LastHumanAppended(older, recent); } else { NoneAppended(older, recent); }
  }

  /** The picked mask after `older` has gone: the system block stays. */
  lemma NewPick(gone: seq<Message>, mask: seq<bool>, block: seq<Message>, older: seq<Message>)
    requires |mask| == |gone|
    ensures var mask' := mask + Same(|block|, true) + Same(|older|, false);
            && Pick(gone + block + older, mask', true) == Pick(gone, mask, true) + block
            && Pick(gone + block + older, mask', false) == Pick(gone, mask, false) + older
  {
    var mb, mo := Same(|block|, true), Same(|older|, false);
    PickAll(block, true);
    PickAll(older, false);
    PickConcat(gone, block, mask, mb, true);
    PickConcat(gone, block, mask, mb, false);
    PickConcat(gone + block, older, mask + mb, mo, true);
    PickConcat(gone + block, older, mask + mb, mo, false);
    assert Pick(gone, mask, true) + block + [] == Pick(gone, mask, true) + block;
    assert Pick(gone, mask, false) + [] == Pick(gone, mask, false);
  }

  lemma CompactCuts(h: seq<Message>, gone: seq<Message>, block: seq<Message>, older: seq<Message>, recent: seq<Message>)
    requires h == gone + (block + (older + recent)) && |gone| !in Parting(h)
    requires AllSystem(block) && Cut(older + recent, |older|) && recent != []
    ensures |gone + block + older| !in Parting(h)
  {
    var front, rest := gone + block, older + recent;
    assert forall i :: |gone| <= i < |front| ==> h[i] == block[i - |gone|] && h[i] in block;
    BehindSystem(h, |gone|, |front|);
    Assoc(gone, block, rest);
    CutOfRest(front, rest, |older|);
    assert |gone + block + older| == |front| + |older|;
  }

  lemma CompactedTracks(h: seq<Message>, s: ContextState, gone: seq<Message>, block: seq<Message>,
          older: seq<Message>, recent: seq<Message>,
                        mask: seq<bool>, s': ContextState)
    requires Tracks(h, s, gone, block + (older + recent), mask)
    requires AllSystem(block) && AllSystem(Pick(gone, mask, true) + block) && recent != []
    requires Cut(older + recent, |older|) && (LastHuman(older + recent).Some? ==>
      |older| <= LastHuman(older + recent).value)
    requires s'.messages == Pick(gone, mask, true) + block + recent && s'.archived == s.archived + |older|
    ensures var gone', mask' := gone + block + older, mask + Same(|block|, true) + Same(|older|, false);
      Tracks(h, s', gone', recent, mask') && Pick(gone', mask', false) == Pick(gone, mask, false) + older
  {
    var gone', mask' := gone + block + older, mask + Same(|block|, true) + Same(|older|, false);
    assert h == gone' + recent by {
      Assoc(gone, block, older + recent);
      Assoc(gone + block, older, recent);
    }
    CompactCuts(h, gone, block, older, recent);
    assert LastHuman(recent).Some? || LastHuman(gone').None? by { TurnStays(gone, block, older, recent); }
    NewPick(gone, mask, block, older);
  }

  /** The `k` messages behind the system block. */
  function CutOut(s: ContextState, k: nat): seq<Message>
    requires LeadingSystem(s.messages) + k <= |s.messages|
  {
    s.messages[LeadingSystem(s.messages)..LeadingSystem(s.messages) + k]
  }

  lemma CutOutOf(s: ContextState, rest: seq<Message>, k: nat)
    requires s.messages[LeadingSystem(s.messages)..] == rest && k <= |rest|
    ensures CutOut(s, k) == rest[..k] && s.messages[LeadingSystem(s.messages) + k..] == rest[k..]
  {
    SliceOfSlice(s.messages, LeadingSystem(s.messages), k);
  }

  lemma CompactTracks(h: seq<Message>, s: ContextState, gone: seq<Message>, live: seq<Message>, mask: seq<bool>,
          k: nat, m: Measure, budget: nat, s': ContextState)
    returns (gone': seq<Message>, live': seq<Message>, mask': seq<bool>)
    requires Tracks(h, s, gone, live, mask) && 0 < k
    requires LeadingSystem(s.messages) + k <= |s.messages|
    requires k in Splits(m, s.messages[LeadingSystem(s.messages)..], budget)
    requires var n := LeadingSystem(s.messages); s'.messages == s.messages[..n] + s.messages[n + k..]
    requires s'.archived == s.archived + k
    ensures Tracks(h, s', gone', live', mask')
    ensures Pick(gone', mask', false) == Pick(gone, mask, false) + CutOut(s, k)
  {
    var n := LeadingSystem(s.messages);
    var block, rest := SystemBlock(Pick(gone, mask, true), live);
    SplitKeeps(m, rest, budget, k);
    var older, recent := rest[..k], rest[k..];
    SplitAt(rest, k);
    CutOutOf(s, rest, k);
    CompactedTracks(h, s, gone, block, older, recent, mask, s');
    gone', live', mask' := gone + block + older, recent, mask + Same(|block|, true) + Same(|older|, false);
  }

  // ---------------------------------------------------------------- every conversation

  ghost predicate Runs(hs: seq<seq<Message>>, ss: seq<ContextState>, es: seq<Event>) {
    && |hs| == |ss| == |es| + 1
    && hs[0] == [] && ss[0].messages == [] && ss[0].archived == 0
    && forall i :: 0 <= i < |es| ==> StepAt(hs, ss, es, i)
  }

  ghost predicate StepAt(hs: seq<seq<Message>>, ss: seq<ContextState>, es: seq<Event>, i: nat)
    requires |hs| == |ss| == |es| + 1 && i < |es|
  {
    Follows(hs[i], ss[i], es[i], hs[i + 1], ss[i + 1])
  }

  lemma ArchivedIs(s: ContextState, u: Update)
    requires Proper(s.messages) && u.Archive? && AllNamed(u.recent) && forall x <- u.recent :: !x.role.Remove?
    ensures Stored(s, u) == ContextState(u.recent, u.summary, s.failures, u.compactions, u.archived)
  {
    ClearedAndReplaced(s.messages, u.recent);
  }

  predicate Archives(r: Prepared) { r.Prepared? && r.update.Archive? }

  /** An archiving call cuts `k` messages behind the system block, at an allowed place. */
  ghost predicate CutsOff(s: ContextState, k: nat, m: Measure, budget: nat, r: Prepared) {
    var n := LeadingSystem(s.messages);
    && Archives(r) && 0 < k && n + k <= |s.messages| && k in Splits(m, s.messages[n..], budget)
    && r.update.recent == s.messages[..n] + s.messages[n + k..] && r.update.archived == s.archived + k
  }

  lemma ArchiveCutsOff(s: ContextState, setup: Setup, r: Prepared) returns (k: nat, m: Measure, budget: nat)
    requires ComesOut(setup, s, r)
    ensures Archives(r) ==> CutsOff(s, k, m, budget, r) && CutOut(s, k) == Older(setup, s)
  {
    k, m, budget := 0, setup.m, 0;
    if Archives(r) {
      ArchiveIs(setup, s, Older(setup, s));
      k, budget := OlderIsCutOut(setup, s);
      CutsOffFrom(s, Older(setup, s), m, budget, r);
    }
  }

  lemma OlderIsCutOut(setup: Setup, s: ContextState) returns (k: nat, budget: nat)
    requires setup.policy.Some?
    ensures k == |Older(setup, s)| && CutOut(s, k) == Older(setup, s)
    ensures k in Splits(setup.m, s.messages[LeadingSystem(s.messages)..], budget)
  {
    k := |Older(setup, s)|;
    budget := Budget(setup.m, s.messages, RecentWindow(setup.policy.value, setup.reserved));
  }

  lemma CutsOffFrom(s: ContextState, older: seq<Message>, m: Measure, budget: nat, r: Prepared)
    requires Archives(r) && older != [] && LeadingSystem(s.messages) + |older| <= |s.messages|
    requires |older| in Splits(m, s.messages[LeadingSystem(s.messages)..], budget)
    requires r.update.recent == Remaining(s.messages, older) && r.update.archived == s.archived + |older|
    ensures CutsOff(s, |older|, m, budget, r)
  {
  }

  lemma PrepareTracks(h: seq<Message>, s: ContextState, gone: seq<Message>, live: seq<Message>, mask: seq<bool>,
                      k: nat, m: Measure, budget: nat, r: Prepared, s': ContextState)
    returns (gone': seq<Message>, live': seq<Message>, mask': seq<bool>)
    requires Tracks(h, s, gone, live, mask) && Settles(s, r, s') && (Archives(r) ==> CutsOff(s, k, m, budget, r))
    ensures Tracks(h, s', gone', live', mask')
    ensures Pick(gone', mask', false) == Pick(gone, mask, false) + if Archives(r) then CutOut(s, k) else []
  {
    gone', live', mask' := gone, live, mask;
    if Archives(r) {
      TracksProper(h, s, gone, live, mask);
      StoredAfter(s, k, r.update);
      gone', live', mask' := CompactTracks(h, s, gone, live, mask, k, m, budget, s');
    } else {
      QuietFollows(s, r, s');
      QuietTracks(h, s, gone, live, mask, s');
      assert Pick(gone, mask, false) + [] == Pick(gone, mask, false);
    }
  }

  lemma TracksProper(h: seq<Message>, s: ContextState, gone: seq<Message>, live: seq<Message>, mask: seq<bool>)
    requires Tracks(h, s, gone, live, mask)
    ensures Proper(s.messages)
  {
    StoredProper(gone, live, mask);
  }

  lemma QuietTracks(h: seq<Message>, s: ContextState, gone: seq<Message>, live: seq<Message>, mask: seq<bool>,
          s': ContextState)
    requires Tracks(h, s, gone, live, mask) && s'.messages == s.messages && s'.archived == s.archived
    ensures Tracks(h, s', gone, live, mask)
  {
  }

  /** A call that archives nothing, a failed one too, leaves every message in place. */
  lemma QuietFollows(s: ContextState, r: Prepared, s': ContextState)
    requires Settles(s, r, s') && !Archives(r)
    ensures s'.messages == s.messages && s'.archived == s.archived && s'.summary == s.summary
  {
  }

  lemma StoredAfter(s: ContextState, k: nat, u: Update)
    requires Proper(s.messages) && LeadingSystem(s.messages) + k <= |s.messages|
    requires var n := LeadingSystem(s.messages); u.Archive? && u.recent == s.messages[..n] + s.messages[n + k..]
    requires AllNamed(u.recent)
    ensures Stored(s, u) == ContextState(u.recent, u.summary, s.failures, u.compactions, u.archived)
  {
    var n := LeadingSystem(s.messages);
    assert forall x <- s.messages[..n] :: x in s.messages;
    assert forall x <- s.messages[n + k..] :: x in s.messages;
    ArchivedIs(s, u);
  }

  /** The messages that an event hands to the summary model for good. */
  ghost function HandedOver(s: ContextState, e: Event): seq<Message> {
    match e
    case Append(_) => []
    case Prepare(setup, r) => if Archives(r) then Older(setup, s) else []
  }

  /** All that was handed over in the first `n` events, in that order. */
  ghost function HandedOverBy(ss: seq<ContextState>, es: seq<Event>, n: nat): seq<Message>
    requires n <= |es| <= |ss|
  {
    if n == 0 then [] else HandedOverBy(ss, es, n - 1) + HandedOver(ss[n - 1], es[n - 1])
  }

  /** An accepted summary was made of just those messages and the summary before. */
  lemma HandedOverIsRolled(s: ContextState, setup: Setup, r: Prepared)
    requires ComesOut(setup, s, r) && Archives(r)
    ensures setup.policy.Some? && setup.model.Some?
    ensures Some(r.update.summary) == NewSummary(setup, s, HandedOver(s, Prepare(setup, r)))
    ensures var p, older := setup.policy.value, HandedOver(s, Prepare(setup, r));
      var batches := Batches(older, p.summaryBatch, setup.size);
      exists sums :: RolledAlong(setup.m, setup.model.value, Strip(s.summary), batches, p.maxSummary, sums) &&
                     r.update.summary == sums[|batches|]
  {
    ArchiveIs(setup, s, Older(setup, s));
    NewSummaryIs(setup, s, HandedOver(s, Prepare(setup, r)));
  }

  lemma NewSummaryIs(setup: Setup, s: ContextState, older: seq<Message>)
    requires setup.policy.Some? && setup.model.Some? && NewSummary(setup, s, older).Some?
    ensures var p := setup.policy.value;
      var batches := Batches(older, p.summaryBatch, setup.size);
      exists sums :: RolledAlong(setup.m, setup.model.value, Strip(s.summary), batches, p.maxSummary, sums) &&
                     NewSummary(setup, s, older) == Some(sums[|batches|])
  {
    var p := setup.policy.value;
    var sums := RolledIs(setup.m, setup.model.value, Strip(s.summary), Batches(older, p.summaryBatch, setup.size),
      p.maxSummary);
  }

  lemma StepTracks(h: seq<Message>, s: ContextState, gone: seq<Message>, live: seq<Message>, mask: seq<bool>, e: Event,
                   h': seq<Message>, s': ContextState)
    returns (gone': seq<Message>, live': seq<Message>, mask': seq<bool>)
    requires Tracks(h, s, gone, live, mask) && Follows(h, s, e, h', s')
    ensures Tracks(h', s', gone', live', mask')
    ensures Pick(gone', mask', false) == Pick(gone, mask, false) + HandedOver(s, e)
  {
    match e {
      case Append(more) =>
        AppendTracks(h, s, gone, live, mask, more, s');
        gone', live', mask' := gone, live + more, mask;
        assert Pick(gone, mask, false) + [] == Pick(gone, mask, false);
      case Prepare(setup, r) =>
        var k, m, budget := ArchiveCutsOff(s, setup, r);
        gone', live', mask' := PrepareTracks(h, s, gone, live, mask, k, m, budget, r, s');
    }
  }

  /** After `n` events: the parts of the history, and what was handed over. */
  ghost predicate TrackedAt(hs: seq<seq<Message>>, ss: seq<ContextState>, es: seq<Event>, n: nat, gone: seq<Message>,
      live: seq<Message>, mask: seq<bool>)
    requires n <= |es| && |hs| == |ss| == |es| + 1
  {
    Tracks(hs[n], ss[n], gone, live, mask) && HandedOverBy(ss, es, n) == Pick(gone, mask, false)
  }

  lemma TrackNext(hs: seq<seq<Message>>, ss: seq<ContextState>, es: seq<Event>, n: nat, gone: seq<Message>,
          live: seq<Message>, mask: seq<bool>)
    returns (gone': seq<Message>, live': seq<Message>, mask': seq<bool>)
    requires Runs(hs, ss, es) && 0 < n <= |es| && TrackedAt(hs, ss, es, n - 1, gone, live, mask)
    ensures TrackedAt(hs, ss, es, n, gone', live', mask')
  {
    assert StepAt(hs, ss, es, n - 1);
    gone', live', mask' := StepTracks(hs[n - 1], ss[n - 1], gone, live, mask, es[n - 1], hs[n], ss[n]);
  }

  lemma {:induction false} RunTracks(hs: seq<seq<Message>>, ss: seq<ContextState>, es: seq<Event>, n: nat)
    returns (gone: seq<Message>, live: seq<Message>, mask: seq<bool>)
    requires Runs(hs, ss, es) && n <= |es|
    ensures TrackedAt(hs, ss, es, n, gone, live, mask)
  {
    gone, live, mask := [], [], [];
    if n > 0 {
      gone, live, mask := RunTracks(hs, ss, es, n - 1);
      gone, live, mask := TrackNext(hs, ss, es, n, gone, live, mask);
    }
  }

  /** The list splits into the one part and the other, each in order. */
  ghost predicate Complementary(h: seq<Message>, kept: seq<Message>, left: seq<Message>) {
    exists mask: seq<bool> :: |mask| == |h| && kept == Pick(h, mask, true) && left == Pick(h, mask, false)
  }

  /** At every point of every conversation the stored messages and those handed to the summary
      model are complementary parts of the full history, in its order, and the counter counts
      the latter, whatever the models and the trimming library did. */
  lemma NothingIsLost(hs: seq<seq<Message>>, ss: seq<ContextState>, es: seq<Event>, i: nat)
    requires Runs(hs, ss, es) && i <= |es|
    ensures Complementary(hs[i], ss[i].messages, HandedOverBy(ss, es, i))
    ensures ss[i].archived == |HandedOverBy(ss, es, i)|
  {
    var gone, live, mask := RunTracks(hs, ss, es, i);
    FullPick(gone, live, mask);
    var all := mask + Same(|live|, true);
    assert |all| == |hs[i]|;
  }

  // ---------------------------------------------------------------- the summary and the counters

  predicate ArchivesIn(e: Event) { e.Prepare? && Archives(e.outcome) }

  predicate FailsIn(e: Event) { e.Prepare? && e.outcome.Prepared? && e.outcome.update.Failure? }

  predicate Counted(s: ContextState, e: Event, s': ContextState) {
    && s'.summary == (if ArchivesIn(e) then e.outcome.update.summary else s.summary)
    && s'.compactions == s.compactions + (if ArchivesIn(e) then 1 else 0)
    && s'.failures == s.failures + (if FailsIn(e) then 1 else 0)
  }

  lemma AppendCounted(h: seq<Message>, s: ContextState, e: Event, h': seq<Message>, s': ContextState)
    requires e.Append? && Follows(h, s, e, h', s')
    ensures Counted(s, e, s')
  {}

  lemma QuietCounted(h: seq<Message>, s: ContextState, e: Event, h': seq<Message>, s': ContextState)
    requires e.Prepare? && !ArchivesIn(e) && Follows(h, s, e, h', s')
    ensures Counted(s, e, s')
  {
    if FailsIn(e) { FailureIs(e.setup, s, Older(e.setup, s)); }
  }

  lemma CutOffStored(s: ContextState, k: nat, m: Measure, budget: nat, r: Prepared, s': ContextState)
    requires Proper(s.messages) && Settles(s, r, s') && CutsOff(s, k, m, budget, r)
    ensures s'.summary == r.update.summary && s'.compactions == r.update.compactions && s'.failures == s.failures
  {
    StoredAfter(s, k, r.update);
  }

  lemma ArchiveCounted(h: seq<Message>, s: ContextState, e: Event, h': seq<Message>, s': ContextState)
    requires Proper(s.messages) && ArchivesIn(e) && Follows(h, s, e, h', s')
    ensures Counted(s, e, s')
  {
    ArchiveStored(s, e.setup, e.outcome, s');
  }

  lemma ArchiveStored(s: ContextState, setup: Setup, r: Prepared, s': ContextState)
    requires Proper(s.messages) && ComesOut(setup, s, r) && Archives(r) && Settles(s, r, s')
    ensures s'.summary == r.update.summary && s'.compactions == s.compactions + 1 && s'.failures == s.failures
  {
    var k, m, budget := ArchiveCutsOff(s, setup, r);
    CutOffStored(s, k, m, budget, r, s');
    OneMoreCompaction(setup, s, r);
  }

  lemma OneMoreCompaction(setup: Setup, s: ContextState, r: Prepared)
    requires ComesOut(setup, s, r) && Archives(r)
    ensures r.update.compactions == s.compactions + 1
  {
    ArchiveIs(setup, s, Older(setup, s));
  }

  lemma StepCounted(h: seq<Message>, s: ContextState, e: Event, h': seq<Message>, s': ContextState)
    requires Proper(s.messages) && Follows(h, s, e, h', s')
    ensures Counted(s, e, s')
  {
    if e.Append? {
      AppendCounted(h, s, e, h', s');
    } else if ArchivesIn(e) {
      ArchiveCounted(h, s, e, h', s');
    } else {
      QuietCounted(h, s, e, h', s');
    }
  }

  lemma ProperAt(hs: seq<seq<Message>>, ss: seq<ContextState>, es: seq<Event>, i: nat)
    requires Runs(hs, ss, es) && i <= |es|
    ensures Proper(ss[i].messages)
  {
    var gone, live, mask := RunTracks(hs, ss, es, i);
    TracksProper(hs[i], ss[i], gone, live, mask);
  }

  lemma RunCounted(hs: seq<seq<Message>>, ss: seq<ContextState>, es: seq<Event>, i: nat)
    requires Runs(hs, ss, es) && i < |es|
    ensures Counted(ss[i], es[i], ss[i + 1])
  {
    ProperAt(hs, ss, es, i);
    assert StepAt(hs, ss, es, i);
    StepCounted(hs[i], ss[i], es[i], hs[i + 1], ss[i + 1]);
  }

  /** The events of a kind among the first `n`. */
  function Those(es: seq<Event>, n: nat, kind: Event -> bool): set<nat>
    requires n <= |es|
  {
    set i: nat | i < n && kind(es[i])
  }

  lemma OneMoreEvent(es: seq<Event>, n: nat, kind: Event -> bool)
    requires 0 < n <= |es|
    ensures |Those(es, n, kind)| == |Those(es, n - 1, kind)| + if kind(es[n - 1]) then 1 else 0
  {
    if kind(es[n - 1]) {
      assert Those(es, n, kind) == Those(es, n - 1, kind) + {n - 1};
    } else {
      assert Those(es, n, kind) == Those(es, n - 1, kind);
    }
  }

  /** Over any conversation the counters count the calls that archived and those that failed to. */
  lemma {:induction false} CallsAreCounted(hs: seq<seq<Message>>, ss: seq<ContextState>, es: seq<Event>, n: nat)
    requires Runs(hs, ss, es) && n <= |es|
    ensures ss[n].compactions == ss[0].compactions + |Those(es, n, ArchivesIn)|
    ensures ss[n].failures == ss[0].failures + |Those(es, n, FailsIn)|
  {
    if n > 0 {
      CallsAreCounted(hs, ss, es, n - 1);
      RunCounted(hs, ss, es, n - 1);
      OneMoreEvent(es, n, ArchivesIn);
      OneMoreEvent(es, n, FailsIn);
    }
  }

  /** The stored summary is that of the last call that archived. */
  lemma {:induction false} SummaryIsLatest(hs: seq<seq<Message>>, ss: seq<ContextState>, es: seq<Event>, i: nat, n: nat)
    requires Runs(hs, ss, es) && i < n <= |es| && ArchivesIn(es[i])
    requires forall j :: i < j < n ==> !ArchivesIn(es[j])
    ensures ss[n].summary == es[i].outcome.update.summary
  {
    if i < n - 1 { SummaryIsLatest(hs, ss, es, i, n - 1); }
    RunCounted(hs, ss, es, n - 1);
  }

  /** A tool result is stored exactly if the call it answers is. */
  lemma CallsKeepTheirResults(hs: seq<seq<Message>>, ss: seq<ContextState>, es: seq<Event>, i: nat, a: nat, c: nat)
    requires Runs(hs, ss, es) && i <= |es| && a < c < |hs[i]| && CallsThrough(hs[i], a, c)
    ensures hs[i][a] in ss[i].messages <==> hs[i][c] in ss[i].messages
  {
    var gone, live, mask := RunTracks(hs, ss, es, i);
    var h, q := hs[i], |gone|;
    assert a < q <= c ==> CallsThrough(h, a, q);
    StoredIfLive(h, ss[i], gone, live, mask, a);
    StoredIfLive(h, ss[i], gone, live, mask, c);
  }

  lemma StoredIfLive(h: seq<Message>, s: ContextState, gone: seq<Message>, live: seq<Message>, mask: seq<bool>, j: nat)
    requires Tracks(h, s, gone, live, mask) && j < |h| && !h[j].role.System?
    ensures h[j] in s.messages <==> j >= |gone|
  {
    if j >= |gone| {
      assert live[j - |gone|] == h[j];
    } else {
      assert forall k :: 0 <= k < |live| ==> live[k] == h[|gone| + k];
    }
  }

  /** No compaction can be seen by loop detection or step counting, whatever comes next. */
  lemma CompactionIsInvisible(hs: seq<seq<Message>>, ss: seq<ContextState>, es: seq<Event>, i: nat,
          more: seq<Message>, maxRepeats: Option<int>)
    requires Runs(hs, ss, es) && i <= |es|
    ensures CurrentTurn(ss[i].messages + more) == CurrentTurn(hs[i] + more)
    ensures LoopIn(ss[i].messages + more, maxRepeats) == LoopIn(hs[i] + more, maxRepeats)
    ensures StepsUsed(ss[i].messages + more) == StepsUsed(hs[i] + more)
  {
    var gone, live, mask := RunTracks(hs, ss, es, i);
    var P := Pick(gone, mask, true);
    NoHumanIn(P);
    LastHumanAppended(P, live);
    LastHumanAppended(gone, live);
    TurnAppended(P, live);
    TurnAppended(gone, live);
    SameTurnSameAnswers(ss[i].messages, hs[i], more, maxRepeats);
  }
}
