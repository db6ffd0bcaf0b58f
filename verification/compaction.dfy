/** Preparing the stored messages for the model: what one call passes on, archives or raises,
    and that archiving settles. */
module Compaction {
  import opened Channels
  import opened Messages
  import opened Contexts
  import opened HardWindow
  import opened Summaries
  import opened Texts
  import opened Lists

  datatype Policy = Policy(highWatermark: int, recentWindow: int, maxSummary: int, hardLimit: int, summaryBatch: int) {
    predicate Valid() {
      && highWatermark > 0 && recentWindow > 0 && maxSummary > 0 && hardLimit > 0 && summaryBatch > 0
      && recentWindow < highWatermark <= hardLimit
      && recentWindow + maxSummary < highWatermark
    }
  }

  type ValidPolicy = p: Policy | p.Valid() witness Policy(10000, 5000, 1000, 50000, 3000)

  /** Everything around one call that is not the stored state. */
  datatype Setup = Setup(m: Measure, trimmer: Trimmer, model: Option<Model>, size: Size,
                         policy: Option<ValidPolicy>, defaultLimit: nat, reserved: int)

  datatype ContextState = ContextState(messages: seq<Message>, summary: string, failures: nat, compactions: nat,
          archived: nat)

  datatype Update = Nothing | Failure(failures: nat) | Archive(recent: seq<Message>, summary: string,
          compactions: nat, archived: nat)

  /** `Raised` stands for an exception. */
  datatype Prepared = Raised | Prepared(window: seq<Message>, update: Update)

  function Watermark(p: ValidPolicy, reserved: int): int {
    if p.highWatermark - reserved >= 1 then p.highWatermark - reserved else 1
  }

  function RecentWindow(p: ValidPolicy, reserved: int): nat {
    var left := Watermark(p, reserved) - p.maxSummary;
    var w := if p.recentWindow <= left then p.recentWindow else left;
    if w >= 1 then w else 1
  }

  function Guarded(t: Trimmed, u: Update): (r: Prepared)
    ensures r.Prepared? ==> r.update == u
  {
    match t case Refused(_) => Raised case Window(ms) => Prepared(ms, u)
  }

  /** The call looks for something to archive. */
  predicate OverWatermark(e: Setup, s: ContextState) {
    e.reserved >= 0 && e.policy.Some? && e.model.Some?
    && Tokens(e.m, Injected(s.messages, Strip(s.summary))) > Watermark(e.policy.value, e.reserved)
  }

  function NewSummary(e: Setup, s: ContextState, older: seq<Message>): Option<string>
    requires e.policy.Some? && e.model.Some?
  {
    if e.policy.value.maxSummary <= e.m(SummaryMessage("")) then None
    else Rolled(e.m, e.model.value, Strip(s.summary), Batches(older, e.policy.value.summaryBatch, e.size),
      e.policy.value.maxSummary)
  }

  function Remaining(ms: seq<Message>, older: seq<Message>): seq<Message>
    requires LeadingSystem(ms) + |older| <= |ms|
  {
    ms[..LeadingSystem(ms)] + ms[LeadingSystem(ms) + |older|..]
  }

  /** The outcome once `summary` is to stand for what was archived. */
  function Archived(e: Setup, s: ContextState, recent: seq<Message>, summary: string, count: nat,
          limit: nat): (r: Prepared)
    ensures r.Prepared? ==> r.update == Archive(recent, summary, s.compactions + 1, s.archived + count)
  {
    var u := Archive(recent, summary, s.compactions + 1, s.archived + count);
    if Tokens(e.m, Injected(recent, summary)) <= limit then Prepared(Injected(recent, summary), u)
    else Guarded(FallBackOf(e.m, recent, summary, limit, e.trimmer), u)
  }

  /** The outcome above the watermark, when `older` is the part to archive. */
  /** What is stored once the old part has been rolled up, or has not. */
  function UpdateOf(e: Setup, s: ContextState, older: seq<Message>): Update
    requires e.policy.Some? && e.model.Some? && LeadingSystem(s.messages) + |older| <= |s.messages|
  {
    if older == [] then Nothing
    else match NewSummary(e, s, older)
         case None => Failure(s.failures + 1)
         case Some(summary) => Archive(Remaining(s.messages, older), summary, s.compactions + 1, s.archived + |older|)
  }

  function ArchivingOf(e: Setup, s: ContextState, older: seq<Message>): (r: Prepared)
    requires e.policy.Some? && e.model.Some? && LeadingSystem(s.messages) + |older| <= |s.messages|
    ensures r.Prepared? ==> r.update == UpdateOf(e, s, older)
  {
    var limit := e.policy.value.hardLimit;
    if older == [] then Guarded(FallBackOf(e.m, s.messages, Strip(s.summary), limit, e.trimmer), Nothing)
    else match NewSummary(e, s, older)
         case None => Guarded(FallBackOf(e.m, s.messages, Strip(s.summary), limit, e.trimmer), Failure(s.failures + 1))
         case Some(summary) => Archived(e, s, Remaining(s.messages, older), summary, |older|, limit)
  }

  function PreparedWith(e: Setup, s: ContextState, older: seq<Message>): (r: Prepared)
    requires LeadingSystem(s.messages) + |older| <= |s.messages|
    ensures r.Prepared? ==> r.update == if OverWatermark(e, s) then UpdateOf(e, s, older) else Nothing
  {
    var previous := Strip(s.summary);
    if e.reserved < 0 then Raised
    else if e.policy.None? || e.model.None? then
      var limit := if e.policy.Some? then e.policy.value.hardLimit else e.defaultLimit;
      Guarded(FallBackOf(e.m, s.messages, previous, limit, e.trimmer), Nothing)
    else if !OverWatermark(e, s) then Prepared(Injected(s.messages, previous), Nothing)
    else ArchivingOf(e, s, older)
  }

  /** The part of the stored messages that a call above the watermark archives. */
  ghost function Older(e: Setup, s: ContextState): (older: seq<Message>)
    ensures LeadingSystem(s.messages) + |older| <= |s.messages|
  {
    if e.policy.None? then [] else OldPart(e.m, s.messages, RecentWindow(e.policy.value, e.reserved))
  }

  ghost function PreparedOf(e: Setup, s: ContextState): Prepared { PreparedWith(e, s, Older(e, s)) }

  // ---------------------------------------------------------------- the outcome, told outright

  /** The call falls back on a hard window, and raises if that is refused. */
  ghost predicate Fell(e: Setup, ms: seq<Message>, summary: string, limit: int, update: Update, r: Prepared) {
    exists t :: FellBackTo(e.m, ms, summary, limit, e.trimmer, t) &&
      r == match t case Refused(_) => Raised case Window(window) => Prepared(window, update)
  }

  /** `summary` is to stand for `count` messages, and `recent` stays. */
  ghost predicate Stores(e: Setup, s: ContextState, recent: seq<Message>, summary: string, count: nat, limit: int,
      r: Prepared)
  {
    exists window, n: nat :: InjectedAt(recent, summary, window, n) &&
      var update := Archive(recent, summary, s.compactions + 1, s.archived + count);
      if Tokens(e.m, window) <= limit then r == Prepared(window, update)
      else Fell(e, recent, summary, limit, update, r)
  }

  ghost predicate Archives(e: Setup, p: ValidPolicy, model: Model, s: ContextState, older: seq<Message>,
      recent: seq<Message>, r: Prepared)
  {
    if older == [] then Fell(e, s.messages, Strip(s.summary), p.hardLimit, Nothing, r)
    else exists rolled ::
      RollsTo(e.m, model, Strip(s.summary), Batches(older, p.summaryBatch, e.size), p.maxSummary, rolled) &&
      if rolled.None? then Fell(e, s.messages, Strip(s.summary), p.hardLimit, Failure(s.failures + 1), r)
      else Stores(e, s, recent, rolled.value, |older|, p.hardLimit, r)
  }

  /** The larger of one and a number. */
  function AtLeastOne(x: int): nat { if x >= 1 then x else 1 }

  /** What is recent has to fit into this: the watermark less the room for a summary, if that is
      less than the policy's own window. */
  function WindowLeft(p: ValidPolicy, reserved: int): nat {
    var left := AtLeastOne(p.highWatermark - reserved) - p.maxSummary;
    AtLeastOne(if p.recentWindow <= left then p.recentWindow else left)
  }

  /** Over the watermark, the old part is archived. */
  ghost predicate CompactsAt(e: Setup, p: ValidPolicy, model: Model, s: ContextState, r: Prepared, older: seq<Message>,
      recent: seq<Message>)
  {
    IsSplit(e.m, s.messages, WindowLeft(p, e.reserved), older, recent) && Archives(e, p, model, s, older, recent, r)
  }

  ghost predicate Compacts(e: Setup, p: ValidPolicy, model: Model, s: ContextState, r: Prepared) {
    exists older, recent :: CompactsAt(e, p, model, s, r, older, recent)
  }

  ghost predicate PreparedRight(e: Setup, s: ContextState, r: Prepared) {
    if e.reserved < 0 then r == Raised
    else if e.policy.None? || e.model.None? then
      Fell(e, s.messages, Strip(s.summary), if e.policy.Some? then e.policy.value.hardLimit else e.defaultLimit,
           Nothing, r)
    else exists current, n: nat :: (
      && InjectedAt(s.messages, Strip(s.summary), current, n)
      && if Tokens(e.m, current) <= AtLeastOne(e.policy.value.highWatermark - e.reserved)
         then r == Prepared(current, Nothing)
         else Compacts(e, e.policy.value, e.model.value, s, r))
  }

  lemma FellIs(e: Setup, ms: seq<Message>, summary: string, limit: int, update: Update)
    ensures Fell(e, ms, summary, limit, update, Guarded(FallBackOf(e.m, ms, summary, limit, e.trimmer), update))
  {
    FallBackIs(e.m, ms, summary, limit, e.trimmer);
  }

  lemma StoresIs(e: Setup, s: ContextState, recent: seq<Message>, summary: string, count: nat, limit: nat)
    ensures Stores(e, s, recent, summary, count, limit, Archived(e, s, recent, summary, count, limit))
  {
    InjectedIs(recent, summary);
    FellIs(e, recent, summary, limit, Archive(recent, summary, s.compactions + 1, s.archived + count));
  }

  lemma NewSummaryRolls(e: Setup, s: ContextState, older: seq<Message>)
    requires e.policy.Some? && e.model.Some?
    ensures var p := e.policy.value;
      RollsTo(e.m, e.model.value, Strip(s.summary), Batches(older, p.summaryBatch, e.size), p.maxSummary,
              NewSummary(e, s, older))
  {
    var p := e.policy.value;
    if p.maxSummary > e.m(SummaryMessage("")) {
      RolledTo(e.m, e.model.value, Strip(s.summary), Batches(older, p.summaryBatch, e.size), p.maxSummary);
    }
  }

  lemma ArchivesIs(e: Setup, s: ContextState, older: seq<Message>)
    requires e.policy.Some? && e.model.Some? && LeadingSystem(s.messages) + |older| <= |s.messages|
    ensures Archives(e, e.policy.value, e.model.value, s, older, Remaining(s.messages, older), ArchivingOf(e, s, older))
  {
    var limit := e.policy.value.hardLimit;
    if older == [] {
      FellIs(e, s.messages, Strip(s.summary), limit, Nothing);
    } else {
      NewSummaryRolls(e, s, older);
      match NewSummary(e, s, older)
      case None => FellIs(e, s.messages, Strip(s.summary), limit, Failure(s.failures + 1));
      case Some(summary) => StoresIs(e, s, Remaining(s.messages, older), summary, |older|, limit);
    }
  }

  lemma WindowIs(p: ValidPolicy, reserved: int)
    ensures RecentWindow(p, reserved) == WindowLeft(p, reserved)
  {}

  lemma OldSplits(m: Measure, ms: seq<Message>, window: nat, older: seq<Message>)
    requires older == OldPart(m, ms, window)
    ensures Between(ms, older, Remaining(ms, older))
    ensures |older| in Splits(m, ms[LeadingSystem(ms)..], Budget(m, ms, window))
  {}

  lemma CompactsIs(e: Setup, s: ContextState, older: seq<Message>)
    requires e.policy.Some? && e.model.Some? && older == Older(e, s)
    ensures Compacts(e, e.policy.value, e.model.value, s, ArchivingOf(e, s, older))
  {
    var n := LeadingSystem(s.messages);
    WindowIs(e.policy.value, e.reserved);
    OldSplits(e.m, s.messages, WindowLeft(e.policy.value, e.reserved), older);
    SplitIs(e.m, s.messages, WindowLeft(e.policy.value, e.reserved), older, Remaining(s.messages, older), n,
            MustKeep(s.messages[n..]), Budget(e.m, s.messages, WindowLeft(e.policy.value, e.reserved)));
    ArchivesIs(e, s, older);
    assert CompactsAt(e, e.policy.value, e.model.value, s, ArchivingOf(e, s, older), older,
                      Remaining(s.messages, older));
  }

  lemma PreparedIs(e: Setup, s: ContextState)
    ensures PreparedRight(e, s, PreparedOf(e, s))
  {
    if e.reserved >= 0 {
      if e.policy.None? || e.model.None? {
        FellIs(e, s.messages, Strip(s.summary),
               if e.policy.Some? then e.policy.value.hardLimit else e.defaultLimit, Nothing);
      } else {
        InjectedIs(s.messages, Strip(s.summary));
        CompactsIs(e, s, Older(e, s));
      }
    }
  }

  method PrepareContext(e: Setup, s: ContextState) returns (r: Prepared)
    ensures r == PreparedOf(e, s)
    ensures PreparedRight(e, s, r)
  {
    PreparedIs(e, s);
    if e.reserved < 0 { return Raised; }
    var previous := Strip(s.summary);
    if e.policy.None? || e.model.None? {
      var limit := if e.policy.Some? then e.policy.value.hardLimit else e.defaultLimit;
      r := GuardedFallBack(e, s.messages, previous, limit, Nothing);
      return;
    }
    var current := InjectSummary(s.messages, previous);
    if Tokens(e.m, current) <= Watermark(e.policy.value, e.reserved) { return Prepared(current, Nothing); }
    var older, recent := SplitOldAndRecent(e.m, s.messages, RecentWindow(e.policy.value, e.reserved));
    BetweenRemains(s.messages, older, recent);
    r := Archiving(e, s, older, recent);
  }

  lemma BetweenRemains(ms: seq<Message>, older: seq<Message>, recent: seq<Message>)
    requires Between(ms, older, recent)
    ensures LeadingSystem(ms) + |older| <= |ms| && recent == Remaining(ms, older)
  {
  }

  /** The part behind the split. */
  method Archiving(e: Setup, s: ContextState, older: seq<Message>, recent: seq<Message>) returns (r: Prepared)
    requires e.policy.Some? && e.model.Some? && LeadingSystem(s.messages) + |older| <= |s.messages| &&
      recent == Remaining(s.messages, older)
    ensures r == ArchivingOf(e, s, older)
  {
    var previous, limit := Strip(s.summary), e.policy.value.hardLimit;
    if older == [] {
      r := GuardedFallBack(e, s.messages, previous, limit, Nothing);
      return;
    }
    var summary := RollOlder(e, s, older);
    if summary.None? {
      r := GuardedFallBack(e, s.messages, previous, limit, Failure(s.failures + 1));
    } else {
      r := StoreArchive(e, s, recent, summary.value, |older|, limit);
    }
  }

  method RollOlder(e: Setup, s: ContextState, older: seq<Message>) returns (summary: Option<string>)
    requires e.policy.Some? && e.model.Some?
    ensures summary == NewSummary(e, s, older)
  {
    summary := RollSummary(e.m, e.model.value, e.size, Strip(s.summary), older, e.policy.value.maxSummary,
      e.policy.value.summaryBatch);
  }

  method GuardedFallBack(e: Setup, ms: seq<Message>, summary: string, limit: int, update: Update)
    returns (r: Prepared)
    ensures r == Guarded(FallBackOf(e.m, ms, summary, limit, e.trimmer), update)
  {
    var window := FallBack(e.m, ms, summary, limit, e.trimmer);
    r := Guarded(window, update);
  }

  method StoreArchive(e: Setup, s: ContextState, recent: seq<Message>, summary: string, count: nat, limit: nat)
    returns (r: Prepared)
    ensures r == Archived(e, s, recent, summary, count, limit)
  {
    var prepared := InjectSummary(recent, summary);
    var update := Archive(recent, summary, s.compactions + 1, s.archived + count);
    if Tokens(e.m, prepared) <= limit { return Prepared(prepared, update); }
    r := GuardedFallBack(e, recent, summary, limit, update);
  }

  // ---------------------------------------------------------------- compaction settles

  lemma SummaryBounded(e: Setup, s: ContextState, older: seq<Message>)
    requires e.policy.Some? && e.model.Some? && older != [] && NewSummary(e, s, older).Some?
    ensures var t := NewSummary(e, s, older).value;
            t != "" && Strip(t) == t && e.m(SummaryMessage(t)) <= e.policy.value.maxSummary
  {
    BatchesKeepRecords(older, e.policy.value.summaryBatch, e.size);
  }

  lemma ArchiveIs(e: Setup, s: ContextState, older: seq<Message>)
    requires LeadingSystem(s.messages) + |older| <= |s.messages|
    requires PreparedWith(e, s, older).Prepared? && PreparedWith(e, s, older).update.Archive?
    ensures OverWatermark(e, s) && older != [] && NewSummary(e, s, older).Some?
    ensures PreparedWith(e, s, older).update ==
            Archive(Remaining(s.messages, older), NewSummary(e, s, older).value, s.compactions + 1,
              s.archived + |older|)
  {}

  lemma FailureIs(e: Setup, s: ContextState, older: seq<Message>)
    requires LeadingSystem(s.messages) + |older| <= |s.messages|
    requires PreparedWith(e, s, older).Prepared? && PreparedWith(e, s, older).update.Failure?
    ensures PreparedWith(e, s, older).update == Failure(s.failures + 1)
  {}

  lemma QuietBelow(e: Setup, t: ContextState)
    requires Strip(t.summary) == t.summary && e.reserved >= 0 && e.policy.Some? && e.model.Some?
    requires Tokens(e.m, t.messages) + e.m(SummaryMessage(t.summary)) <= Watermark(e.policy.value, e.reserved)
    ensures PreparedOf(e, t) == Prepared(Injected(t.messages, t.summary), Nothing)
  {
    InjectedTokens(e.m, t.messages, t.summary);
  }

  /** Right after an archiving call the next one has nothing to do, if the reserved tokens
      leave room for a summary, the system block is smaller than the window, and the part
      that must be kept fits in the rest of it. */
  lemma CompactionSettles(e: Setup, s: ContextState, next: Setup, t: ContextState)
    requires PreparedOf(e, s).Prepared? && PreparedOf(e, s).update.Archive? && e.policy.Some?
    requires Watermark(e.policy.value, e.reserved) > e.policy.value.maxSummary
    requires var n := LeadingSystem(s.messages);
             var system, window := Tokens(e.m, s.messages[..n]), RecentWindow(e.policy.value, e.reserved);
             system < window && Tokens(e.m, s.messages[n..][MustKeep(s.messages[n..])..]) <= window - system
    requires next.m == e.m && next.policy == e.policy && next.reserved == e.reserved && next.model.Some?
    requires t.messages == PreparedOf(e, s).update.recent && t.summary == PreparedOf(e, s).update.summary
    ensures PreparedOf(next, t) == Prepared(Injected(t.messages, t.summary), Nothing)
  {
    ArchiveIs(e, s, Older(e, s));
    RemainingFits(e.m, s.messages, RecentWindow(e.policy.value, e.reserved), Older(e, s));
    SummaryBounded(e, s, Older(e, s));
    QuietBelow(next, t);
  }

  lemma KeptFits(m: Measure, rest: seq<Message>, budget: nat, c: nat)
    requires c in Splits(m, rest, budget) && Tokens(m, rest[MustKeep(rest)..]) <= budget
    ensures c <= |rest| && Tokens(m, rest[c..]) <= budget
  {
  }

  lemma RemainingFits(m: Measure, ms: seq<Message>, window: nat, older: seq<Message>)
    requires LeadingSystem(ms) + |older| <= |ms|
    requires |older| in Splits(m, ms[LeadingSystem(ms)..], Budget(m, ms, window))
    requires Tokens(m, ms[..LeadingSystem(ms)]) < window
    requires var rest := ms[LeadingSystem(ms)..];
      Tokens(m, rest[MustKeep(rest)..]) <= window - Tokens(m, ms[..LeadingSystem(ms)])
    ensures Tokens(m, Remaining(ms, older)) <= window
  {
    var n, k := LeadingSystem(ms), |older|;
    var rest := ms[n..];
    var budget := Budget(m, ms, window);
    assert budget == window - Tokens(m, ms[..n]);
    KeptFits(m, rest, budget, k);
    assert rest[k..] == ms[n + k..] by { SliceOfSlice(ms, n, k); }
    TokensConcat(m, ms[..n], ms[n + k..]);
  }

  // ---------------------------------------------------------------- archiving leaves nothing to archive

  lemma OffsetIn(ms: seq<Message>, k: nat)
    requires k <= |Groups(ms)|
    ensures Offset(ms, k) <= |ms|
  {
    OffsetSplit(ms, k);
  }

  lemma {:induction false} GroupsFrom(ms: seq<Message>, k: nat)
    requires k <= |Groups(ms)|
    ensures Offset(ms, k) <= |ms| && Groups(ms[Offset(ms, k)..]) == Groups(ms)[k..]
    decreases k
  {
    OffsetIn(ms, k);
    if k == 0 {
      assert ms[Offset(ms, 0)..] == ms;
    } else {
      GroupsBehindFirst(ms, k - 1);
      GroupsFrom(ms[GroupLength(ms)..], k - 1);
    }
  }

  lemma GroupsBehindFirst(ms: seq<Message>, k: nat)
    requires k < |Groups(ms)|
    ensures var rest := ms[GroupLength(ms)..];
      && k <= |Groups(rest)| && Offset(rest, k) <= |rest| && Offset(ms, k + 1) <= |ms|
      && ms[Offset(ms, k + 1)..] == rest[Offset(rest, k)..]
      && Groups(ms)[k + 1..] == Groups(rest)[k..]
  {
    var g := GroupLength(ms);
    var rest := ms[g..];
    assert Groups(ms) == [ms[..g]] + Groups(rest);
    BehindFirst([ms[..g]], Groups(rest), k);
    OffsetNext(ms, k);
    OffsetIn(rest, k);
    SliceOfSlice(ms, g, Offset(rest, k));
  }

  lemma LastGroupAlone(ms: seq<Message>)
    requires ms != []
    ensures |Groups(ms[LastGroup(ms)..])| == 1
  {
    GroupsFrom(ms, |Groups(ms)| - 1);
  }

  /** A single group all must be kept of, even without the system message it may be. */
  lemma GroupKept(group: seq<Message>)
    requires |Groups(group)| == 1
    ensures MustKeep(group[LeadingSystem(group)..]) == 0
  {
    var s := LeadingSystem(group);
    if s == 0 {
      assert group[0..] == group && Groups(group)[..0] == [];
      assert LastGroup(group) == 0;
    } else {
      assert group[0].role.System?;
      assert Groups(group) == [group[..1]] + Groups(group[1..]);
      assert group[1..] == [] && group[s..] == [];
    }
  }

  lemma HumanKept(kept: seq<Message>)
    requires LastHuman(kept) == Some(0)
    ensures LeadingSystem(kept) == 0 && MustKeep(kept[0..]) == 0
  {
    assert kept[0..] == kept;
  }

  lemma HumanFirst(ms: seq<Message>, p: nat)
    requires LastHuman(ms) == Some(p)
    ensures LastHuman(ms[p..]) == Some(0)
  {
    var kept := ms[p..];
    assert kept[0] == ms[p];
    assert forall i :: 0 < i < |kept| ==> kept[i] == ms[p + i];
  }

  /** Of a part that must be kept, all must be kept, whatever system messages it starts with. */
  lemma KeptAgain(rest: seq<Message>)
    ensures var kept := rest[MustKeep(rest)..]; MustKeep(kept[LeadingSystem(kept)..]) == 0
  {
    var must := MustKeep(rest);
    if LastHuman(rest) == Some(must) {
      HumanFirst(rest, must);
      HumanKept(rest[must..]);
    } else if rest != [] {
      LastGroupAlone(rest);
      GroupKept(rest[must..]);
    }
  }

  /** The part behind the system block fits as it is, or must all be kept. */
  predicate StaysWhole(m: Measure, tail: seq<Message>, budget: nat) {
    Tokens(m, tail) <= budget || MustKeep(tail) == 0
  }

  lemma ZeroSplits(m: Measure, tail: seq<Message>, budget: nat)
    requires StaysWhole(m, tail, budget)
    ensures 0 in Splits(m, tail, budget)
  {
    assert tail[0..] == tail;
    if Tokens(m, tail) <= budget { SuffixTokens(m, tail, 0, MustKeep(tail)); }
  }

  /** The split left a part that fits, or just what must be kept. */
  predicate FitsOrMust(m: Measure, rest: seq<Message>, budget: nat, k: nat) {
    k <= |rest| && (Tokens(m, rest[k..]) <= budget || k == MustKeep(rest))
  }

  /** The budget shrinks by no more than the system messages that moved to the block. */
  predicate LessBy(budget: nat, more: nat, less: nat) { less + more >= budget || (less == 1 && budget <= 1) }

  /** A part that was kept stays whole behind its own system messages. */
  lemma KeptStaysWhole(m: Measure, rest: seq<Message>, budget: nat, k: nat, kept: seq<Message>, more: nat, less: nat)
    requires FitsOrMust(m, rest, budget, k) && kept == rest[k..]
    requires more == Tokens(m, kept[..LeadingSystem(kept)]) && LessBy(budget, more, less)
    ensures StaysWhole(m, kept[LeadingSystem(kept)..], less)
  {
    var s := LeadingSystem(kept);
    TokensSplit(m, kept, s);
    if Tokens(m, kept) > budget { KeptAgain(rest); }
  }

  function Left(window: nat, system: nat): nat { if window >= system + 1 then window - system else 1 }

  lemma LessLeft(window: nat, system: nat, more: nat)
    ensures LessBy(Left(window, system), more, Left(window, system + more))
  {}

  lemma BudgetIs(m: Measure, ms: seq<Message>, window: nat)
    ensures Budget(m, ms, window) == Left(window, Tokens(m, ms[..LeadingSystem(ms)]))
  {}

  /** The system block and what is left behind it, seen from the whole list. */
  lemma BlockJoined(block: seq<Message>, kept: seq<Message>, r: seq<Message>)
    requires (forall i :: 0 <= i < |block| ==> block[i].role.System?) && r == block + kept
    ensures r[..LeadingSystem(r)] == block + kept[..LeadingSystem(kept)]
    ensures r[LeadingSystem(r)..] == kept[LeadingSystem(kept)..]
  {
    LeadingJoined(block, kept);
    CutBehindFirst(block, kept, LeadingSystem(kept));
  }

  /** What is left of the window behind a block of messages and more of them. */
  function LeftBehind(m: Measure, block: seq<Message>, more: seq<Message>, window: nat): nat {
    Left(window, Tokens(m, block) + Tokens(m, more))
  }

  lemma BudgetJoined(m: Measure, block: seq<Message>, more: seq<Message>, r: seq<Message>, window: nat)
    requires r[..LeadingSystem(r)] == block + more
    ensures Budget(m, r, window) == LeftBehind(m, block, more, window)
  {
    BudgetIs(m, r, window);
    TokensConcat(m, block, more);
  }

  lemma KeptWhole(m: Measure, block: seq<Message>, rest: seq<Message>, window: nat, k: nat, kept: seq<Message>, n: nat)
    requires FitsOrMust(m, rest, Left(window, Tokens(m, block)), k) && kept == rest[k..] && n == LeadingSystem(kept)
    ensures StaysWhole(m, kept[n..], LeftBehind(m, block, kept[..n], window))
  {
    var a, b := Tokens(m, block), Tokens(m, kept[..n]);
    LessLeft(window, a, b);
    KeptStaysWhole(m, rest, Left(window, a), k, kept, b, LeftBehind(m, block, kept[..n], window));
  }

  lemma WholeBehindBlock(m: Measure, block: seq<Message>, kept: seq<Message>, n: nat, r: seq<Message>, l: nat,
          window: nat)
    requires n <= |kept| && l == LeadingSystem(r) && r[..l] == block + kept[..n] && r[l..] == kept[n..]
    requires StaysWhole(m, kept[n..], LeftBehind(m, block, kept[..n], window))
    ensures StaysWhole(m, r[l..], Budget(m, r, window))
  {
    BudgetJoined(m, block, kept[..n], r, window);
    WholeAgain(m, kept[n..], LeftBehind(m, block, kept[..n], window), r[l..], Budget(m, r, window));
  }

  lemma WholeAgain(m: Measure, a: seq<Message>, x: nat, b: seq<Message>, y: nat)
    requires a == b && x == y && StaysWhole(m, a, x)
    ensures StaysWhole(m, b, y)
  {}

  lemma SplitFitsOrMust(m: Measure, rest: seq<Message>, budget: nat, k: nat)
    requires k in Splits(m, rest, budget)
    ensures FitsOrMust(m, rest, budget, k)
  {
    assert SplitIn(m, rest, budget, k);
  }

  lemma TokensSplit(m: Measure, ms: seq<Message>, s: nat)
    requires s <= |ms|
    ensures Tokens(m, ms) == Tokens(m, ms[..s]) + Tokens(m, ms[s..])
  {
    SplitAt(ms, s);
    TokensConcat(m, ms[..s], ms[s..]);
  }

  lemma {:induction false} LeadingIs(ms: seq<Message>, i: nat, n: nat)
    requires i <= n <= |ms| && (forall j :: i <= j < n ==> ms[j].role.System?) && (n < |ms| ==> !ms[n].role.System?)
    ensures LeadingFrom(ms, i) == n
    decreases n - i
  {
    if i < n { LeadingIs(ms, i + 1, n); }
  }

  lemma LeadingJoined(a: seq<Message>, b: seq<Message>)
    requires forall i :: 0 <= i < |a| ==> a[i].role.System?
    ensures LeadingSystem(a + b) == |a| + LeadingSystem(b)
  {
    assert forall i :: |a| <= i < |a + b| ==> (a + b)[i] == b[i - |a|];
    LeadingIs(a + b, 0, |a| + LeadingSystem(b));
  }

  lemma OlderSplits(e: Setup, s: ContextState, older: seq<Message>)
    requires e.policy.Some? && older == Older(e, s)
    ensures var n, window := LeadingSystem(s.messages), RecentWindow(e.policy.value, e.reserved);
      FitsOrMust(e.m, s.messages[n..], Left(window, Tokens(e.m, s.messages[..n])), |older|)
  {
    var n, window := LeadingSystem(s.messages), RecentWindow(e.policy.value, e.reserved);
    BudgetIs(e.m, s.messages, window);
    SplitFitsOrMust(e.m, s.messages[n..], Budget(e.m, s.messages, window), |older|);
  }

  lemma NothingOlder(e: Setup, t: ContextState)
    requires e.policy.Some?
    requires StaysWhole(e.m, t.messages[LeadingSystem(t.messages)..],
                        Budget(e.m, t.messages, RecentWindow(e.policy.value, e.reserved)))
    ensures Older(e, t) == []
  {
    var window := RecentWindow(e.policy.value, e.reserved);
    ZeroSplits(e.m, t.messages[LeadingSystem(t.messages)..], Budget(e.m, t.messages, window));
    OneSplit(e.m, t.messages[LeadingSystem(t.messages)..], Budget(e.m, t.messages, window),
             0, OldCount(e.m, t.messages, window));
  }

  lemma RemainingWhole(e: Setup, s: ContextState, t: ContextState)
    requires e.policy.Some? && t.messages == Remaining(s.messages, Older(e, s))
    ensures StaysWhole(e.m, t.messages[LeadingSystem(t.messages)..],
                       Budget(e.m, t.messages, RecentWindow(e.policy.value, e.reserved)))
  {
    var older, window := Older(e, s), RecentWindow(e.policy.value, e.reserved);
    OlderSplits(e, s, older);
    RestStays(e.m, s.messages, window, |older|, t.messages);
  }

  /** What an archiving call leaves in place must all be kept or fits. */
  lemma RestStays(m: Measure, ms: seq<Message>, window: nat, k: nat, r: seq<Message>)
    requires FitsOrMust(m, ms[LeadingSystem(ms)..], Left(window, Tokens(m, ms[..LeadingSystem(ms)])), k)
    requires r == ms[..LeadingSystem(ms)] + ms[LeadingSystem(ms) + k..]
    ensures StaysWhole(m, r[LeadingSystem(r)..], Budget(m, r, window))
  {
    var n := LeadingSystem(ms);
    var block, rest, kept := ms[..n], ms[n..], ms[n + k..];
    assert kept == rest[k..] by { SliceOfSlice(ms, n, k); }
    KeptWhole(m, block, rest, window, k, kept, LeadingSystem(kept));
    BlockJoined(block, kept, r);
    WholeBehindBlock(m, block, kept, LeadingSystem(kept), r, LeadingSystem(r), window);
  }

  lemma NothingToArchive(e: Setup, t: ContextState)
    requires PreparedWith(e, t, []).Prepared?
    ensures PreparedWith(e, t, []).update == Nothing
  {}

  /** Whatever the summary and the sizes, right after an archiving call the next one with the
      same measure, policy and reserved tokens archives nothing: it raises or updates nothing. */
  lemma NeverArchivesTwice(e: Setup, s: ContextState, next: Setup, t: ContextState)
    requires PreparedOf(e, s).Prepared? && PreparedOf(e, s).update.Archive?
    requires next.m == e.m && next.policy == e.policy && next.reserved == e.reserved
    requires t.messages == PreparedOf(e, s).update.recent
    ensures PreparedOf(next, t).Prepared? ==> PreparedOf(next, t).update == Nothing
  {
    ArchiveIs(e, s, Older(e, s));
    RemainingWhole(e, s, t);
    NothingOlder(next, t);
    if PreparedOf(next, t).Prepared? { NothingToArchive(next, t); }
  }
}
