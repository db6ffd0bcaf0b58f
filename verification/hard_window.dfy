/** The last resort of the context window: a hard limit that holds whatever the trimming
    library returns, and the summary that is put behind the system block. */
module HardWindow {
  import opened Channels
  import opened Messages
  import opened Contexts
  import opened Lists

  datatype Reason = BadLimit | NegativePrefix | PrefixTooLong | NotSystem | PrefixTooBig

  datatype Trimmed = Window(messages: seq<Message>) | Refused(reason: Reason)

  /** The trimming library: any list at all, or `None` for an exception. */
  type Trimmer = (seq<Message>, nat) -> Option<seq<Message>>

  function Refusal(m: Measure, ms: seq<Message>, preserve: int, limit: int): Option<Reason> {
    if limit <= 0 then Some(BadLimit)
    else if preserve < 0 then Some(NegativePrefix)
    else if preserve > |ms| then Some(PrefixTooLong)
    else if exists x <- ms[..preserve] :: !x.role.System? then Some(NotSystem)
    else if Tokens(m, ms[..preserve]) > limit then Some(PrefixTooBig)
    else None
  }

  /** Of the run of system messages at `i`, those that still fit, one by one. */
  function Extras(m: Measure, ms: seq<Message>, i: nat, room: nat): (r: seq<Message>)
    requires i <= |ms|
    ensures Tokens(m, r) <= room
    decreases |ms| - i
  {
    if i == |ms| || !ms[i].role.System? then []
    else if m(ms[i]) <= room then
      var more := Extras(m, ms, i + 1, room - m(ms[i]));
      assert ([ms[i]] + more)[1..] == more;
      [ms[i]] + more
    else Extras(m, ms, i + 1, room)
  }

  /** The newest groups that fit, taken one by one from the end. */
  function FitGroups(m: Measure, gs: seq<seq<Message>>, budget: nat): seq<Message> {
    if gs == [] || Tokens(m, gs[|gs| - 1]) > budget then []
    else FitGroups(m, gs[..|gs| - 1], budget - Tokens(m, gs[|gs| - 1])) + gs[|gs| - 1]
  }

  /** What follows the system messages: all that is left, what the library made of it if
      that fits, or the newest groups. */
  function TailOf(m: Measure, rest: seq<Message>, budget: nat, trimmer: Trimmer): seq<Message> {
    if budget == 0 || rest == [] then []
    else if Tokens(m, rest) <= budget then rest
    else match trimmer(rest, budget)
         case Some(t) => if Tokens(m, t) <= budget then t else FitGroups(m, Groups(rest), budget)
         case None => FitGroups(m, Groups(rest), budget)
  }

  function HeadOf(m: Measure, ms: seq<Message>, preserve: nat, limit: nat): (head: seq<Message>)
    requires preserve <= |ms| && Tokens(m, ms[..preserve]) <= limit
    ensures ms[..preserve] <= head && Tokens(m, head) <= limit
  {
    var extras := Extras(m, ms, preserve, limit - Tokens(m, ms[..preserve]));
    TokensConcat(m, ms[..preserve], extras);
    ms[..preserve] + extras
  }

  function RestOf(ms: seq<Message>, preserve: nat): seq<Message>
    requires preserve <= |ms|
  {
    ms[LeadingFrom(ms, preserve)..]
  }

  function TrimmedOf(m: Measure, ms: seq<Message>, preserve: int, limit: int, trimmer: Trimmer): Trimmed {
    match Refusal(m, ms, preserve, limit)
    case Some(why) => Refused(why)
    case None =>
      var head := HeadOf(m, ms, preserve, limit);
      Window(head + TailOf(m, RestOf(ms, preserve), Room(m, head, limit), trimmer))
  }

  function Room(m: Measure, head: seq<Message>, limit: nat): (room: nat)
    requires Tokens(m, head) <= limit
    ensures Tokens(m, head) + room == limit
  {
    limit - Tokens(m, head)
  }

  method KeepNewestGroups(m: Measure, rest: seq<Message>, budget: nat) returns (tail: seq<Message>)
    ensures tail == FitGroups(m, Groups(rest), budget)
  {
    var groups := AtomicGroups(rest);
    tail := [];
    var used: nat, k := 0, |groups|;
    assert groups[..k] == groups;
    while k > 0
      invariant 0 <= k <= |groups| && 0 <= used <= budget
      invariant FitGroups(m, groups, budget) == FitGroups(m, groups[..k], budget - used) + tail
    {
      var group := groups[k - 1];
      if Tokens(m, group) > budget - used {
        assert FitGroups(m, groups[..k], budget - used) == [];
        break;
      }
      assert groups[..k][..k - 1] == groups[..k - 1];
      k := k - 1;
      used := used + Tokens(m, group);
      Assoc(FitGroups(m, groups[..k], budget - used), group, tail);
      tail := group + tail;
    }
    assert [] + tail == tail;
  }

  method FitExtras(m: Measure, ms: seq<Message>, from: nat, room: nat) returns (extras: seq<Message>, next: nat)
    requires from <= |ms|
    ensures extras == Extras(m, ms, from, room) && next == LeadingFrom(ms, from)
  {
    extras, next := [], from;
    var left: nat := room;
    while next < |ms| && ms[next].role.System?
      invariant 0 <= left && from <= next <= |ms| && LeadingFrom(ms, from) == LeadingFrom(ms, next)
      invariant Extras(m, ms, from, room) == extras + Extras(m, ms, next, left)
    {
      var candidate := ms[next];
      ghost var before := extras;
      if m(candidate) <= left {
        extras, left := extras + [candidate], left - m(candidate);
        Gather(before, candidate, Extras(m, ms, next + 1, left));
      }
      next := next + 1;
    }
    assert extras + [] == extras;
  }

  method FitTail(m: Measure, rest: seq<Message>, budget: nat, trimmer: Trimmer) returns (tail: seq<Message>)
    ensures tail == TailOf(m, rest, budget, trimmer)
  {
    if budget == 0 || |rest| == 0 { return []; }
    if Tokens(m, rest) <= budget { return rest; }
    var trimmed := trimmer(rest, budget);
    if trimmed.Some? && Tokens(m, trimmed.value) <= budget { return trimmed.value; }
    tail := KeepNewestGroups(m, rest, budget);
  }

  // ---------------------------------------------------------------- what the window is

  /** The messages kept of a run of them, one by one: each is kept exactly if it fits behind those
      kept before it. */
  predicate KeptAlong(m: Measure, ms: seq<Message>, from: nat, n: nat, limit: nat, heads: seq<seq<Message>>) {
    && from <= n <= |ms| && |heads| == n - from + 1
    && forall j :: 0 <= j < n - from ==> KeepsAt(m, ms, from, limit, heads, j)
  }

  predicate KeepsAt(m: Measure, ms: seq<Message>, from: nat, limit: nat, heads: seq<seq<Message>>, j: nat)
    requires j + 1 < |heads| && from + j < |ms|
  {
    heads[j + 1] == WithNext(m, heads[j], ms[from + j], limit)
  }

  function WithNext(m: Measure, head: seq<Message>, x: Message, limit: nat): seq<Message> {
    if Tokens(m, head) + m(x) <= limit then head + [x] else head
  }

  /** Behind the head: all that is left if it fits, else the answer of the library if that does,
      else the longest run of whole groups at the end that does. Nothing if there is no room. */
  ghost predicate TailFor(m: Measure, rest: seq<Message>, budget: nat, trimmer: Trimmer, tail: seq<Message>) {
    if budget == 0 then tail == []
    else if Tokens(m, rest) <= budget then tail == rest
    else if trimmer(rest, budget).Some? && Tokens(m, trimmer(rest, budget).value) <= budget
      then Some(tail) == trimmer(rest, budget)
    else exists c: nat :: c <= |rest| && tail == rest[c..] && LongestFit(m, rest, budget, c)
  }

  ghost predicate TailBehind(m: Measure, head: seq<Message>, rest: seq<Message>, limit: nat, trimmer: Trimmer,
      tail: seq<Message>)
  {
    exists room: nat :: Tokens(m, head) + room == limit && TailFor(m, rest, room, trimmer, tail)
  }

  ghost predicate WindowAt(m: Measure, ms: seq<Message>, preserve: nat, limit: nat, trimmer: Trimmer,
      window: seq<Message>, n: nat, heads: seq<seq<Message>>, tail: seq<Message>)
  {
    && SystemRun(ms, preserve, n) && KeptAlong(m, ms, preserve, n, limit, heads)
    && heads[0] == ms[..preserve]
    && var head := heads[n - preserve];
       TailBehind(m, head, ms[n..], limit, trimmer, tail) && window == head + tail
  }

  /** A refusal is for the first of its reasons; a window is a head and a tail as above. */
  ghost predicate TrimmedRight(m: Measure, ms: seq<Message>, preserve: int, limit: int, trimmer: Trimmer, r: Trimmed) {
    if limit <= 0 then r == Refused(BadLimit)
    else if preserve < 0 then r == Refused(NegativePrefix)
    else if preserve > |ms| then r == Refused(PrefixTooLong)
    else if exists i :: 0 <= i < preserve && !ms[i].role.System? then r == Refused(NotSystem)
    else if Tokens(m, ms[..preserve]) > limit then r == Refused(PrefixTooBig)
    else r.Window? && IsWindow(m, ms, preserve, limit, trimmer, r.messages)
  }

  ghost predicate IsWindow(m: Measure, ms: seq<Message>, preserve: nat, limit: nat, trimmer: Trimmer,
      window: seq<Message>)
  {
    exists n: nat, heads, tail :: WindowAt(m, ms, preserve, limit, trimmer, window, n, heads, tail)
  }

  lemma {:induction false} ExtrasAlong(m: Measure, ms: seq<Message>, i: nat, head: seq<Message>, limit: nat)
    returns (heads: seq<seq<Message>>)
    requires i <= |ms| && Tokens(m, head) <= limit
    ensures var n := LeadingFrom(ms, i);
      && KeptAlong(m, ms, i, n, limit, heads) && heads[0] == head
      && heads[n - i] == head + Extras(m, ms, i, limit - Tokens(m, head))
    decreases |ms| - i
  {
    heads := [head];
    if i < |ms| && ms[i].role.System? {
      var next := WithNext(m, head, ms[i], limit);
      TokensConcat(m, head, [ms[i]]);
      TokensOne(m, ms[i]);
      var more := ExtrasAlong(m, ms, i + 1, next, limit);
      Gather(head, ms[i], Extras(m, ms, i + 1, limit - Tokens(m, next)));
      heads := [head] + more;
      AlongMore(m, ms, i, head, limit, more);
    } else {
      assert head + [] == head;
    }
  }

  lemma AlongMore(m: Measure, ms: seq<Message>, i: nat, head: seq<Message>, limit: nat, more: seq<seq<Message>>)
    requires i < |ms| && ms[i].role.System? && KeptAlong(m, ms, i + 1, LeadingFrom(ms, i), limit, more)
    requires more[0] == WithNext(m, head, ms[i], limit)
    ensures KeptAlong(m, ms, i, LeadingFrom(ms, i), limit, [head] + more)
  {
    var n, heads := LeadingFrom(ms, i), [head] + more;
    forall j | 0 <= j < n - i ensures KeepsAt(m, ms, i, limit, heads, j) {
      if j > 0 { assert KeepsAt(m, ms, i + 1, limit, more, j - 1); }
    }
  }

  lemma TailIs(m: Measure, rest: seq<Message>, budget: nat, trimmer: Trimmer)
    ensures TailFor(m, rest, budget, trimmer, TailOf(m, rest, budget, trimmer))
  {
    NewestThatFit(m, rest, budget);
  }

  lemma WindowFrom(m: Measure, ms: seq<Message>, preserve: nat, limit: nat, trimmer: Trimmer, n: nat,
          heads: seq<seq<Message>>, head: seq<Message>, tail: seq<Message>)
    requires SystemRun(ms, preserve, n) && KeptAlong(m, ms, preserve, n, limit, heads) && heads[0] == ms[..preserve]
    requires head == heads[n - preserve] && TailBehind(m, head, ms[n..], limit, trimmer, tail)
    ensures IsWindow(m, ms, preserve, limit, trimmer, head + tail)
  {
    assert WindowAt(m, ms, preserve, limit, trimmer, head + tail, n, heads, tail);
  }

  lemma TailBehindIs(m: Measure, head: seq<Message>, rest: seq<Message>, limit: nat, trimmer: Trimmer, room: nat,
          tail: seq<Message>)
    requires Tokens(m, head) + room == limit && TailFor(m, rest, room, trimmer, tail)
    ensures TailBehind(m, head, rest, limit, trimmer, tail)
  {}

  lemma HeadTailWindow(m: Measure, ms: seq<Message>, preserve: nat, limit: nat, trimmer: Trimmer, head: seq<Message>,
          tail: seq<Message>, n: nat)
    requires preserve <= |ms| && Tokens(m, ms[..preserve]) <= limit && head == HeadOf(m, ms, preserve, limit)
    requires n == LeadingFrom(ms, preserve) && TailBehind(m, head, ms[n..], limit, trimmer, tail)
    ensures IsWindow(m, ms, preserve, limit, trimmer, head + tail)
  {
    var heads := ExtrasAlong(m, ms, preserve, ms[..preserve], limit);
    WindowFrom(m, ms, preserve, limit, trimmer, n, heads, head, tail);
  }

  lemma TrimmedWindow(m: Measure, ms: seq<Message>, preserve: nat, limit: nat, trimmer: Trimmer)
    requires Refusal(m, ms, preserve, limit).None?
    ensures var r := TrimmedOf(m, ms, preserve, limit, trimmer);
      r.Window? && IsWindow(m, ms, preserve, limit, trimmer, r.messages)
  {
    var head, rest := HeadOf(m, ms, preserve, limit), RestOf(ms, preserve);
    var room := Room(m, head, limit);
    TailIs(m, rest, room, trimmer);
    TailBehindIs(m, head, rest, limit, trimmer, room, TailOf(m, rest, room, trimmer));
    HeadTailWindow(m, ms, preserve, limit, trimmer, head, TailOf(m, rest, room, trimmer), LeadingFrom(ms, preserve));
  }

  lemma RefusedFor(m: Measure, ms: seq<Message>, preserve: int, limit: int)
    ensures Refusal(m, ms, preserve, limit) ==
      if limit <= 0 then Some(BadLimit)
      else if preserve < 0 then Some(NegativePrefix)
      else if preserve > |ms| then Some(PrefixTooLong)
      else if exists i :: 0 <= i < preserve && !ms[i].role.System? then Some(NotSystem)
      else if Tokens(m, ms[..preserve]) > limit then Some(PrefixTooBig)
      else None
  {
    if 0 <= preserve <= |ms| {
      assert (exists x <- ms[..preserve] :: !x.role.System?) <==> exists i :: 0 <= i < preserve && !ms[i].role.System?;
    }
  }

  lemma TrimmedIs(m: Measure, ms: seq<Message>, preserve: int, limit: int, trimmer: Trimmer)
    ensures TrimmedRight(m, ms, preserve, limit, trimmer, TrimmedOf(m, ms, preserve, limit, trimmer))
  {
    RefusedFor(m, ms, preserve, limit);
    if Refusal(m, ms, preserve, limit).None? { TrimmedWindow(m, ms, preserve, limit, trimmer); }
  }

  lemma {:induction false} ExtrasWhole(m: Measure, ms: seq<Message>, i: nat, room: nat)
    requires i <= |ms| && Tokens(m, ms[i..]) <= room
    ensures Extras(m, ms, i, room) == ms[i..LeadingFrom(ms, i)]
    decreases |ms| - i
  {
    if i < |ms| && ms[i].role.System? {
      assert ms[i..][0] == ms[i] && ms[i..][1..] == ms[i + 1..];
      ExtrasWhole(m, ms, i + 1, room - m(ms[i]));
      assert [ms[i]] + ms[i + 1..LeadingFrom(ms, i)] == ms[i..LeadingFrom(ms, i)];
    }
  }

  lemma HeadWhole(m: Measure, ms: seq<Message>, preserve: nat, limit: nat)
    requires preserve <= |ms| && Tokens(m, ms) <= limit
    ensures Tokens(m, ms[..preserve]) <= limit && HeadOf(m, ms, preserve, limit) == ms[..LeadingFrom(ms, preserve)]
  {
    SplitAt(ms, preserve);
    TokensConcat(m, ms[..preserve], ms[preserve..]);
    ExtrasWhole(m, ms, preserve, limit - Tokens(m, ms[..preserve]));
    var n := LeadingFrom(ms, preserve);
    assert ms[..preserve] + ms[preserve..n] == ms[..n];
  }

  /** A list within the limit that is not refused comes back unchanged, except that messages which
      count for nothing are dropped when the system messages fill the limit. */
  lemma FittingStays(m: Measure, ms: seq<Message>, preserve: int, limit: int, trimmer: Trimmer, n: nat)
    requires TrimmedOf(m, ms, preserve, limit, trimmer).Window? && Tokens(m, ms) <= limit
    requires 0 <= preserve <= |ms| && SystemRun(ms, preserve, n)
    ensures TrimmedOf(m, ms, preserve, limit, trimmer) == Window(ms) <==> n == |ms| || Tokens(m, ms[..n]) < limit
  {
    HeadWhole(m, ms, preserve, limit);
    assert n == LeadingFrom(ms, preserve);
    SplitAt(ms, n);
    TokensConcat(m, ms[..n], ms[n..]);
    var tail := TailOf(m, ms[n..], Room(m, ms[..n], limit), trimmer);
    assert |ms[..n] + tail| == n + |tail|;
  }

  method TrimLlmInput(m: Measure, messages: seq<Message>, preserve: int, limit: int, trimmer: Trimmer)
    returns (r: Trimmed)
    ensures r == TrimmedOf(m, messages, preserve, limit, trimmer)
    ensures TrimmedRight(m, messages, preserve, limit, trimmer, r)
  {
    r := CheckAndTrim(m, messages, preserve, limit, trimmer);
    TrimmedIs(m, messages, preserve, limit, trimmer);
  }

  method CheckAndTrim(m: Measure, messages: seq<Message>, preserve: int, limit: int, trimmer: Trimmer)
    returns (r: Trimmed)
    ensures r == TrimmedOf(m, messages, preserve, limit, trimmer)
  {
    if limit <= 0 { return Refused(BadLimit); }
    if preserve < 0 { return Refused(NegativePrefix); }
    if preserve > |messages| { return Refused(PrefixTooLong); }
    if exists x <- messages[..preserve] :: !x.role.System? { return Refused(NotSystem); }
    if Tokens(m, messages[..preserve]) > limit { return Refused(PrefixTooBig); }
    var window := HeadAndFittingTail(m, messages, preserve, limit, trimmer);
    r := Window(window);
  }

  method HeadAndFittingTail(m: Measure, messages: seq<Message>, preserve: nat, limit: nat, trimmer: Trimmer)
    returns (window: seq<Message>)
    requires preserve <= |messages| && Tokens(m, messages[..preserve]) <= limit
    ensures var head := HeadOf(m, messages, preserve, limit);
      window == head + TailOf(m, RestOf(messages, preserve), Room(m, head, limit), trimmer)
  {
    var extras, next := FitExtras(m, messages, preserve, limit - Tokens(m, messages[..preserve]));
    var prefix := messages[..preserve] + extras;
    assert prefix == HeadOf(m, messages, preserve, limit);
    var tail := FitTail(m, messages[next..], Room(m, prefix, limit), trimmer);
    window := prefix + tail;
  }

  // ---------------------------------------------------------------- what trimming guarantees

  lemma {:induction false} FitGroupsIs(m: Measure, gs: seq<seq<Message>>, budget: nat) returns (k: nat)
    ensures k <= |gs| && FitGroups(m, gs, budget) == Joined(gs[k..]) && Tokens(m, Joined(gs[k..])) <= budget
    ensures k > 0 ==> Tokens(m, Joined(gs[k - 1..])) > budget
  {
    var n := |gs|;
    k := n;
    if n > 0 {
      var init, last := gs[..n - 1], gs[n - 1];
      JoinedSingle(last);
      if Tokens(m, last) > budget {
        assert gs[n - 1..] == [last];
      } else {
        k := FitGroupsIs(m, init, budget - Tokens(m, last));
        JoinedLast(m, gs, k);
        if k > 0 { JoinedLast(m, gs, k - 1); }
      }
    }
  }

  lemma JoinedLast(m: Measure, gs: seq<seq<Message>>, k: nat)
    requires k < |gs|
    ensures var last := gs[|gs| - 1];
            && Joined(gs[k..]) == Joined(gs[..|gs| - 1][k..]) + last
            && Tokens(m, Joined(gs[k..])) == Tokens(m, Joined(gs[..|gs| - 1][k..])) + Tokens(m, last)
  {
    var init, last := gs[..|gs| - 1], gs[|gs| - 1];
    assert gs[k..] == init[k..] + [last];
    JoinedConcat(init[k..], [last]);
    JoinedSingle(last);
    TokensConcat(m, Joined(init[k..]), last);
  }

  lemma FitsFrom(m: Measure, rest: seq<Message>, budget: nat, k: nat, tail: seq<Message>)
    requires k <= |Groups(rest)| && tail == Joined(Groups(rest)[k..]) && Tokens(m, tail) <= budget
    requires k > 0 ==> Tokens(m, Joined(Groups(rest)[k - 1..])) > budget
    ensures |tail| <= |rest| && tail == rest[|rest| - |tail|..] && LongestFit(m, rest, budget, |rest| - |tail|)
  {
    NothingLongerFits(m, rest, budget, k);
    OffsetCut(rest, k);
    OffsetSplit(rest, k);
    assert |rest| - |tail| == Offset(rest, k);
  }

  /** The fallback is the longest run of whole groups at the end that fits. */
  lemma NewestThatFit(m: Measure, rest: seq<Message>, budget: nat)
    ensures var tail := FitGroups(m, Groups(rest), budget);
            |tail| <= |rest| && tail == rest[|rest| - |tail|..] && LongestFit(m, rest, budget, |rest| - |tail|)
  {
    var k := FitGroupsIs(m, Groups(rest), budget);
    FitsFrom(m, rest, budget, k, FitGroups(m, Groups(rest), budget));
  }

  lemma TailFits(m: Measure, rest: seq<Message>, budget: nat, trimmer: Trimmer)
    ensures Tokens(m, TailOf(m, rest, budget, trimmer)) <= budget
  {
    var k := FitGroupsIs(m, Groups(rest), budget);
  }

  /** A window within the limit that begins with the messages to preserve. */
  predicate Bounded(m: Measure, ms: seq<Message>, preserve: int, limit: int, window: seq<Message>) {
    0 <= preserve <= |ms| && ms[..preserve] <= window && Tokens(m, window) <= limit
  }

  lemma WindowBounded(m: Measure, ms: seq<Message>, preserve: int, limit: int, trimmer: Trimmer)
    requires Refusal(m, ms, preserve, limit).None?
    ensures var r := TrimmedOf(m, ms, preserve, limit, trimmer);
      r.Window? && Bounded(m, ms, preserve, limit, r.messages)
  {
    HeadAndTail(m, ms[..preserve], HeadOf(m, ms, preserve, limit), RestOf(ms, preserve), limit, trimmer);
  }

  /** Whatever the library returns or raises, the input is refused up front or ends up
      within the limit with the wanted prefix intact. */
  lemma TrimmedIsBounded(m: Measure, ms: seq<Message>, preserve: int, limit: int, trimmer: Trimmer)
    ensures var r := TrimmedOf(m, ms, preserve, limit, trimmer);
            && (r.Refused? <==> Refusal(m, ms, preserve, limit).Some?)
            && (r.Window? ==> 0 <= preserve <= |ms| && ms[..preserve] <= r.messages)
            && (r.Window? ==> Tokens(m, r.messages) <= limit)
  {
    if Refusal(m, ms, preserve, limit).None? { WindowBounded(m, ms, preserve, limit, trimmer); }
  }

  lemma HeadAndTail(m: Measure, prefix: seq<Message>, head: seq<Message>, rest: seq<Message>, limit: nat,
          trimmer: Trimmer)
    requires prefix <= head && Tokens(m, head) <= limit
    ensures var all := head + TailOf(m, rest, Room(m, head, limit), trimmer);
      prefix <= all && Tokens(m, all) <= limit
  {
    var tail := TailOf(m, rest, Room(m, head, limit), trimmer);
    TailFits(m, rest, Room(m, head, limit), trimmer);
    TokensConcat(m, head, tail);
    PrefixStays(prefix, head, tail);
  }

  lemma PrefixStays<T>(a: seq<T>, b: seq<T>, c: seq<T>)
    requires a <= b
    ensures a <= b + c
  {
  }

  // ---------------------------------------------------------------- the summary

  function SummaryMessage(summary: string): Message { Message(System, None, summary, [], "") }

  /** Behind the system block, in front of the history. */
  function Injected(ms: seq<Message>, summary: string): seq<Message> {
    var n := LeadingSystem(ms);
    if summary == "" then ms else ms[..n] + [SummaryMessage(summary)] + ms[n..]
  }

  /** The summary stands directly behind the leading system messages, if there is one. */
  predicate InjectedAt(ms: seq<Message>, summary: string, r: seq<Message>, n: nat) {
    SystemRun(ms, 0, n) &&
    r == if summary == "" then ms else ms[..n] + [Message(System, None, summary, [], "")] + ms[n..]
  }

  lemma InjectedIs(ms: seq<Message>, summary: string)
    ensures InjectedAt(ms, summary, Injected(ms, summary), LeadingSystem(ms))
  {}

  method InjectSummary(messages: seq<Message>, summary: string) returns (r: seq<Message>)
    ensures r == Injected(messages, summary)
    ensures exists n: nat :: InjectedAt(messages, summary, r, n)
  {
    InjectedIs(messages, summary);
    if summary == "" { return messages; }
    var leading, at := LeadingBlock(messages);
    r := leading + [SummaryMessage(summary)] + messages[at..];
  }

  lemma InjectedTokens(m: Measure, ms: seq<Message>, summary: string)
    ensures Tokens(m, Injected(ms, summary)) == Tokens(m, ms) + if summary == "" then 0 else m(SummaryMessage(summary))
  {
    var n := LeadingSystem(ms);
    var x := SummaryMessage(summary);
    assert ms == ms[..n] + ms[n..];
    TokensConcat(m, ms[..n], ms[n..]);
    TokensConcat(m, ms[..n], [x]);
    TokensConcat(m, ms[..n] + [x], ms[n..]);
    TokensOne(m, x);
  }

  /** The call that keeps the whole system block, with the summary at its end. */
  function FallBackOf(m: Measure, ms: seq<Message>, summary: string, limit: int, trimmer: Trimmer): Trimmed {
    var all := Injected(ms, summary);
    TrimmedOf(m, all, LeadingSystem(all), limit, trimmer)
  }

  /** The window that a call falls back on: the whole system block, with the summary at its end,
      is the prefix that must stay. */
  ghost predicate FellBackTo(m: Measure, ms: seq<Message>, summary: string, limit: int, trimmer: Trimmer, r: Trimmed) {
    exists n: nat, k: nat, all ::
      InjectedAt(ms, summary, all, n) && SystemRun(all, 0, k) && TrimmedRight(m, all, k, limit, trimmer, r)
  }

  lemma FallBackIs(m: Measure, ms: seq<Message>, summary: string, limit: int, trimmer: Trimmer)
    ensures FellBackTo(m, ms, summary, limit, trimmer, FallBackOf(m, ms, summary, limit, trimmer))
  {
    var all := Injected(ms, summary);
    InjectedIs(ms, summary);
    assert SystemRun(all, 0, LeadingSystem(all));
    TrimmedIs(m, all, LeadingSystem(all), limit, trimmer);
  }

  method FallBack(m: Measure, messages: seq<Message>, summary: string, limit: int, trimmer: Trimmer)
    returns (r: Trimmed)
    ensures r == FallBackOf(m, messages, summary, limit, trimmer)
    ensures FellBackTo(m, messages, summary, limit, trimmer, r)
  {
    FallBackIs(m, messages, summary, limit, trimmer);
    var prepared := InjectSummary(messages, summary);
    var _, count := LeadingBlock(prepared);
    r := TrimLlmInput(m, prepared, count, limit, trimmer);
  }

  /** It is refused exactly when the system block with the summary is too big by itself. */
  lemma FallBackKeepsBlock(m: Measure, ms: seq<Message>, summary: string, limit: nat, trimmer: Trimmer)
    requires limit > 0
    ensures var all, r := Injected(ms, summary), FallBackOf(m, ms, summary, limit, trimmer);
            var block := all[..LeadingSystem(all)];
            && (r.Refused? <==> Tokens(m, block) > limit)
            && (r.Window? ==> block <= r.messages && Tokens(m, r.messages) <= limit)
  {
    var all := Injected(ms, summary);
    TrimmedIsBounded(m, all, LeadingSystem(all), limit, trimmer);
  }
}
