/** The window of chat history given to the model: groups that must not be split, the cut
    between old and recent messages, and the hard limit. */
module Contexts {
  import opened Channels
  import opened Messages
  import opened Lists

  /** The token count of a message; that of a list is the sum. */
  type Measure = Message -> nat

  function Tokens(m: Measure, ms: seq<Message>): nat {
    if ms == [] then 0 else m(ms[0]) + Tokens(m, ms[1..])
  }

  lemma {:induction false} TokensConcat(m: Measure, a: seq<Message>, b: seq<Message>)
    ensures Tokens(m, a + b) == Tokens(m, a) + Tokens(m, b)
  {
    if a == [] {
      assert a + b == b;
    } else {
      assert (a + b)[0] == a[0] && (a + b)[1..] == a[1..] + b;
      TokensConcat(m, a[1..], b);
    }
  }

  lemma TokensOne(m: Measure, x: Message)
    ensures Tokens(m, [x]) == m(x)
  {
    assert [x][1..] == [];
  }

  // ---------------------------------------------------------------- atomic groups

  predicate Holder(m: Message) { m.role.Ai? && m.calls != [] }

  function CallIds(m: Message): set<string> { set c <- m.calls :: c.id }

  predicate Answers(holder: Message, m: Message) { m.role.Tool? && m.answers in CallIds(holder) }

  function Answering(holder: Message, ms: seq<Message>): (n: nat)
    ensures n <= |ms| && forall i :: 0 <= i < n ==> Answers(holder, ms[i])
    ensures n < |ms| ==> !Answers(holder, ms[n])
  {
    if ms == [] || !Answers(holder, ms[0]) then 0 else 1 + Answering(holder, ms[1..])
  }

  function GroupLength(ms: seq<Message>): (n: nat)
    requires ms != []
    ensures 1 <= n <= |ms|
  {
    if Holder(ms[0]) then 1 + Answering(ms[0], ms[1..]) else 1
  }

  function Groups(ms: seq<Message>): (gs: seq<seq<Message>>)
    ensures gs == [] <==> ms == []
    decreases |ms|
  {
    if ms == [] then [] else var g := GroupLength(ms); [ms[..g]] + Groups(ms[g..])
  }

  function Joined(gs: seq<seq<Message>>): seq<Message> {
    if gs == [] then [] else gs[0] + Joined(gs[1..])
  }

  /** Position `c` is between a tool call and one of the results that follow it directly. */
  ghost predicate Inside(ms: seq<Message>, c: nat) {
    exists a :: 0 <= a < c && c < |ms| && CallsThrough(ms, a, c)
  }

  predicate CallsThrough(ms: seq<Message>, a: nat, c: nat)
    requires a < c < |ms|
  {
    Holder(ms[a]) && forall i :: a < i <= c ==> Answers(ms[a], ms[i])
  }

  ghost predicate Cut(ms: seq<Message>, c: nat) { c <= |ms| && !Inside(ms, c) }

  /** The group that starts at `from`, and where the next one starts. */
  method TakeGroup(messages: seq<Message>, from: nat) returns (group: seq<Message>, index: nat)
    requires from < |messages|
    ensures index == from + GroupLength(messages[from..]) && group == messages[from..index]
  {
    var message := messages[from];
    group, index := [message], from + 1;
    ghost var rest := messages[from..];
    assert rest[1..] == messages[from + 1..];
    if message.role.Ai? && message.calls != [] {
      var ids := set c <- message.calls :: c.id;
      while index < |messages| && messages[index].role.Tool?
        invariant from < index <= |messages| && group == messages[from..index]
        invariant Answering(message, messages[from + 1..]) == index - from - 1 + Answering(message, messages[index..])
      {
        if messages[index].answers !in ids { break; }
        assert messages[index..][1..] == messages[index + 1..];
        group := group + [messages[index]];
        index := index + 1;
      }
    }
  }

  method AtomicGroups(messages: seq<Message>) returns (groups: seq<seq<Message>>)
    ensures groups == Groups(messages)
  {
    groups := [];
    var index := 0;
    while index < |messages|
      invariant 0 <= index <= |messages|
      invariant groups + Groups(messages[index..]) == Groups(messages)
    {
      ghost var rest, before := messages[index..], groups;
      var group, next := TakeGroup(messages, index);
      assert group == rest[..GroupLength(rest)] && messages[next..] == rest[GroupLength(rest)..];
      groups, index := groups + [group], next;
      Gather(before, group, Groups(messages[index..]));
    }
    assert messages[0..] == messages && groups + [] == groups;
  }

  lemma {:induction false} JoinedConcat(a: seq<seq<Message>>, b: seq<seq<Message>>)
    ensures Joined(a + b) == Joined(a) + Joined(b)
  {
    if a == [] {
      assert a + b == b;
    } else {
      assert (a + b)[0] == a[0] && (a + b)[1..] == a[1..] + b;
      JoinedConcat(a[1..], b);
      Assoc(a[0], Joined(a[1..]), Joined(b));
    }
  }

  /** The groups, joined, are the messages. */
  lemma {:induction false} GroupsJoin(ms: seq<Message>)
    ensures Joined(Groups(ms)) == ms
    decreases |ms|
  {
    if ms != [] {
      var g := GroupLength(ms);
      GroupsJoin(ms[g..]);
      var gs := Groups(ms);
      assert gs[0] == ms[..g] && gs[1..] == Groups(ms[g..]);
      SplitAt(ms, g);
    }
  }

  /** The position behind the first `k` groups. */
  function Offset(ms: seq<Message>, k: nat): nat
    requires k <= |Groups(ms)|
  {
    |Joined(Groups(ms)[..k])|
  }

  lemma OffsetSplit(ms: seq<Message>, k: nat)
    requires k <= |Groups(ms)|
    ensures Offset(ms, k) <= |ms|
    ensures ms[..Offset(ms, k)] == Joined(Groups(ms)[..k]) && ms[Offset(ms, k)..] == Joined(Groups(ms)[k..])
  {
    var gs := Groups(ms);
    assert gs == gs[..k] + gs[k..];
    JoinedConcat(gs[..k], gs[k..]);
    GroupsJoin(ms);
    var a, b := Joined(gs[..k]), Joined(gs[k..]);
    assert (a + b)[..|a|] == a && (a + b)[|a|..] == b;
  }

  lemma OffsetNext(ms: seq<Message>, k: nat)
    requires ms != [] && k <= |Groups(ms[GroupLength(ms)..])|
    ensures k + 1 <= |Groups(ms)| && Offset(ms, k + 1) == GroupLength(ms) + Offset(ms[GroupLength(ms)..], k)
  {
    var g := GroupLength(ms);
    assert Groups(ms)[..k + 1] == [ms[..g]] + Groups(ms[g..])[..k];
    assert Groups(ms)[..k + 1][1..] == Groups(ms[g..])[..k];
  }

  lemma FirstGroupInside(ms: seq<Message>, c: nat)
    requires ms != [] && 0 < c < GroupLength(ms)
    ensures Inside(ms, c)
  {
    assert forall i :: 0 < i <= c ==> ms[i] == ms[1..][i - 1];
    assert CallsThrough(ms, 0, c);
  }

  /** No call of the first group reaches past its end. */
  lemma GroupEnds(ms: seq<Message>, c: nat)
    requires ms != [] && GroupLength(ms) <= c < |ms|
    ensures forall a :: 0 <= a < GroupLength(ms) ==> !CallsThrough(ms, a, c)
  {
    var g := GroupLength(ms);
    assert ms[g] == ms[1..][g - 1];
    forall a | 0 <= a < g ensures !CallsThrough(ms, a, c) {
      if a == 0 {
        assert Holder(ms[0]) ==> !Answers(ms[0], ms[g]);
      } else {
        assert ms[a] == ms[1..][a - 1];
      }
    }
  }

  lemma InsideRestOut(ms: seq<Message>, g: nat, c: nat)
    requires g <= c && g <= |ms| && Inside(ms[g..], c - g)
    ensures Inside(ms, c)
  {
    var rest := ms[g..];
    var a :| 0 <= a < c - g && c - g < |rest| && CallsThrough(rest, a, c - g);
    assert forall i :: a + g < i <= c ==> ms[i] == rest[i - g];
    assert CallsThrough(ms, a + g, c);
  }

  lemma InsideRestIn(ms: seq<Message>, c: nat)
    requires ms != [] && GroupLength(ms) <= c && Inside(ms, c)
    ensures Inside(ms[GroupLength(ms)..], c - GroupLength(ms))
  {
    var g := GroupLength(ms);
    var rest := ms[g..];
    var a :| 0 <= a < c && c < |ms| && CallsThrough(ms, a, c);
    GroupEnds(ms, c);
    assert a >= g && rest[a - g] == ms[a];
    forall i | a - g < i <= c - g ensures Answers(rest[a - g], rest[i]) { assert rest[i] == ms[i + g]; }
    assert CallsThrough(rest, a - g, c - g);
  }

  /** The positions between groups are exactly those that split no call from its results. */
  lemma {:induction false} CutsAreOffsets(ms: seq<Message>, c: nat)
    ensures Cut(ms, c) <==> IsOffset(ms, c)
    decreases |ms|
  {
    if c == 0 || ms == [] {
      assert Offset(ms, 0) == 0;
      if ms == [] { assert |Groups(ms)| == 0; }
    } else if c < GroupLength(ms) {
      FirstGroupInside(ms, c);
      OffsetsBehind(ms, c);
    } else {
      CutsAreOffsets(ms[GroupLength(ms)..], c - GroupLength(ms));
      CutBehind(ms, GroupLength(ms), c);
      OffsetsBehind(ms, c);
    }
  }

  ghost predicate IsOffset(ms: seq<Message>, c: nat) { exists k :: 0 <= k <= |Groups(ms)| && Offset(ms, k) == c }

  lemma CutBehind(ms: seq<Message>, g: nat, c: nat)
    requires ms != [] && g == GroupLength(ms) && g <= c
    ensures Cut(ms, c) <==> Cut(ms[g..], c - g)
  {
    if Inside(ms, c) { InsideRestIn(ms, c); }
    if c <= |ms| && Inside(ms[g..], c - g) { InsideRestOut(ms, g, c); }
  }

  lemma OffsetsBehind(ms: seq<Message>, c: nat)
    requires ms != [] && c > 0
    ensures IsOffset(ms, c) <==> GroupLength(ms) <= c && IsOffset(ms[GroupLength(ms)..], c - GroupLength(ms))
  {
    assert Offset(ms, 0) == 0;
    var g := GroupLength(ms);
    if k :| 0 < k <= |Groups(ms)| && Offset(ms, k) == c { OffsetNext(ms, k - 1); }
    if g <= c && IsOffset(ms[g..], c - g) {
      var k :| 0 <= k <= |Groups(ms[g..])| && Offset(ms[g..], k) == c - g;
      OffsetNext(ms, k);
    }
  }

  lemma OffsetCut(ms: seq<Message>, k: nat)
    requires k <= |Groups(ms)|
    ensures Cut(ms, Offset(ms, k))
  {
    CutsAreOffsets(ms, Offset(ms, k));
  }

  // ---------------------------------------------------------------- old and recent

  /** The end of the run of system messages that starts at `i`. */
  function LeadingFrom(ms: seq<Message>, i: nat): (n: nat)
    requires i <= |ms|
    ensures i <= n <= |ms| && (forall j :: i <= j < n ==> ms[j].role.System?) && (n < |ms| ==> !ms[n].role.System?)
    decreases |ms| - i
  {
    if i == |ms| || !ms[i].role.System? then i else LeadingFrom(ms, i + 1)
  }

  function LeadingSystem(ms: seq<Message>): (n: nat)
    ensures n <= |ms| && (forall j :: 0 <= j < n ==> ms[j].role.System?) && (n < |ms| ==> !ms[n].role.System?)
  {
    LeadingFrom(ms, 0)
  }

  /** The run of system messages from `from` on ends at `n`. */
  predicate SystemRun(ms: seq<Message>, from: nat, n: nat) {
    && from <= n <= |ms| && (forall j :: from <= j < n ==> ms[j].role.System?) && (n < |ms| ==> !ms[n].role.System?)
  }

  /** The last human message, where the current turn starts. */
  function LastHuman(ms: seq<Message>): (p: Option<nat>)
    ensures p.Some? ==> p.value < |ms| && ms[p.value].role.Human? && forall i :: p.value < i < |ms| ==>
      !ms[i].role.Human?
    ensures p.None? ==> forall i :: 0 <= i < |ms| ==> !ms[i].role.Human?
  {
    if ms == [] then None
    else if ms[|ms| - 1].role.Human? then Some(|ms| - 1)
    else LastHuman(ms[..|ms| - 1])
  }

  function LastGroup(ms: seq<Message>): (c: nat)
    ensures c <= |ms|
  {
    if ms == [] then 0 else OffsetSplit(ms, |Groups(ms)| - 1); Offset(ms, |Groups(ms)| - 1)
  }

  /** Where the part starts that is never archived: the last group, and the current turn. */
  function MustKeep(ms: seq<Message>): (c: nat)
    ensures c <= |ms|
  {
    match LastHuman(ms) case None => LastGroup(ms) case Some(p) => if p < LastGroup(ms) then p else LastGroup(ms)
  }

  /** `c` starts the longest run of whole groups at the end that fits. */
  ghost predicate LongestFit(m: Measure, ms: seq<Message>, budget: nat, c: nat) {
    && Cut(ms, c) && Tokens(m, ms[c..]) <= budget
    && forall d :: 0 <= d < c && Cut(ms, d) ==> Tokens(m, ms[d..]) > budget
  }

  function Budget(m: Measure, ms: seq<Message>, window: nat): nat {
    var system := Tokens(m, ms[..LeadingSystem(ms)]);
    if window >= system + 1 then window - system else 1
  }

  /** `c` leaves what must be kept and, if that fits, as many groups in front of it as fit. */
  ghost predicate SplitIn(m: Measure, rest: seq<Message>, budget: nat, c: nat) {
    var must := MustKeep(rest);
    && Cut(rest, c) && c <= must
    && if Tokens(m, rest[must..]) <= budget then LongestFit(m, rest, budget, c) else c == must
  }

  // the split, told outright

  /** The last group starts at `g`: no later position parts no call from its results. */
  ghost predicate LastGroupAt(rest: seq<Message>, g: nat) {
    if rest == [] then g == 0 else g < |rest| && Cut(rest, g) && forall d :: g < d < |rest| ==> !Cut(rest, d)
  }

  predicate IsLastHuman(rest: seq<Message>, h: nat) {
    h < |rest| && rest[h].role.Human? && forall i :: h < i < |rest| ==> !rest[i].role.Human?
  }

  /** What must be kept starts at the last human message or at the last group, whichever is first. */
  ghost predicate MustKeepAt(rest: seq<Message>, must: nat) {
    exists g: nat :: LastGroupAt(rest, g) && EarlierOf(rest, g, must)
  }

  ghost predicate EarlierOf(rest: seq<Message>, g: nat, must: nat) {
    if forall i :: 0 <= i < |rest| ==> !rest[i].role.Human? then must == g
    else exists h: nat :: IsLastHuman(rest, h) && must == if h < g then h else g
  }

  /** Behind the leading system messages, which stay, the messages in front of `c` are old. What is
      left is the longest run of whole groups that fits into what the system messages leave of the
      window, or what must be kept if that does not fit. */
  ghost predicate SplitRight(m: Measure, ms: seq<Message>, window: nat, older: seq<Message>, recent: seq<Message>,
      n: nat, must: nat, room: nat)
  {
    && SystemRun(ms, 0, n) && Parts(ms, n, older, recent) && RoomLeft(m, ms[..n], window, room)
    && LongestOrLeast(m, ms[n..], room, must, |older|)
  }

  predicate RoomLeft(m: Measure, block: seq<Message>, window: nat, room: nat) {
    if Tokens(m, block) < window then Tokens(m, block) + room == window else room == 1
  }

  ghost predicate LongestOrLeast(m: Measure, rest: seq<Message>, room: nat, must: nat, k: nat) {
    && MustKeepAt(rest, must) && must <= |rest|
    && if Tokens(m, rest[must..]) <= room then LongestFit(m, rest, room, k) else k == must
  }

  predicate Parts(ms: seq<Message>, n: nat, older: seq<Message>, recent: seq<Message>) {
    n + |older| <= |ms| && older == ms[n..n + |older|] && recent == ms[..n] + ms[n + |older|..]
  }

  ghost predicate IsSplit(m: Measure, ms: seq<Message>, window: nat, older: seq<Message>, recent: seq<Message>) {
    exists n: nat, must: nat, room: nat :: SplitRight(m, ms, window, older, recent, n, must, room)
  }

  lemma LastGroupIs(rest: seq<Message>)
    ensures LastGroupAt(rest, LastGroup(rest))
  {
    if rest != [] {
      var last := |Groups(rest)| - 1;
      GroupShape(rest, last);
      OffsetCut(rest, last);
      OffsetSplit(rest, last);
      assert Groups(rest)[last..] == [Groups(rest)[last]];
      JoinedSingle(Groups(rest)[last]);
      forall d | Offset(rest, last) < d < |rest| ensures !Cut(rest, d) { NoLaterCut(rest, d); }
    }
  }

  lemma NoLaterCut(rest: seq<Message>, d: nat)
    requires rest != [] && Offset(rest, |Groups(rest)| - 1) < d < |rest|
    ensures !Cut(rest, d)
  {
    CutsAreOffsets(rest, d);
    if k :| 0 <= k <= |Groups(rest)| && Offset(rest, k) == d {
      if k < |Groups(rest)| { OffsetMonotone(rest, k, |Groups(rest)| - 1); } else { WholeOffset(rest); }
    }
  }

  lemma JoinedSingle(g: seq<Message>)
    ensures Joined([g]) == g
  {
    assert [g][1..] == [];
  }

  lemma WholeOffset(ms: seq<Message>)
    ensures Offset(ms, |Groups(ms)|) == |ms|
  {
    assert Groups(ms)[..|Groups(ms)|] == Groups(ms);
    GroupsJoin(ms);
  }

  lemma MustKeepIs(rest: seq<Message>)
    ensures MustKeepAt(rest, MustKeep(rest))
  {
    LastGroupIs(rest);
    match LastHuman(rest)
    case None =>
    case Some(p) => assert IsLastHuman(rest, p);
  }

  lemma SplitIs(m: Measure, ms: seq<Message>, window: nat, older: seq<Message>, recent: seq<Message>, n: nat,
          must: nat, room: nat)
    requires Parts(ms, n, older, recent) && n == LeadingSystem(ms) && must == MustKeep(ms[n..])
    requires room == Budget(m, ms, window) && |older| in Splits(m, ms[n..], room)
    ensures IsSplit(m, ms, window, older, recent)
  {
    SplitLongest(m, ms[n..], room, must, |older|);
    BudgetIsLeft(m, ms, n, window, room);
    SplitFrom(m, ms, window, older, recent, n, must, room);
  }

  lemma BudgetIsLeft(m: Measure, ms: seq<Message>, n: nat, window: nat, room: nat)
    requires n == LeadingSystem(ms) && room == Budget(m, ms, window)
    ensures SystemRun(ms, 0, n) && RoomLeft(m, ms[..n], window, room)
  {}

  lemma SplitFrom(m: Measure, ms: seq<Message>, window: nat, older: seq<Message>, recent: seq<Message>, n: nat,
          must: nat, room: nat)
    requires SystemRun(ms, 0, n) && Parts(ms, n, older, recent) && RoomLeft(m, ms[..n], window, room)
    requires LongestOrLeast(m, ms[n..], room, must, |older|)
    ensures IsSplit(m, ms, window, older, recent)
  {
    assert SplitRight(m, ms, window, older, recent, n, must, room);
  }

  lemma SplitLongest(m: Measure, rest: seq<Message>, room: nat, must: nat, k: nat)
    requires must == MustKeep(rest) && k in Splits(m, rest, room)
    ensures LongestOrLeast(m, rest, room, must, k)
  {
    MustKeepIs(rest);
    assert SplitIn(m, rest, room, k);
  }

  /** The positions at which a list may be split; there is in fact just one. */
  ghost function Splits(m: Measure, rest: seq<Message>, budget: nat): set<nat> {
    set c: nat | c <= |rest| && SplitIn(m, rest, budget, c)
  }

  /** Two splits are the same. */
  lemma OneSplit(m: Measure, rest: seq<Message>, budget: nat, c: nat, d: nat)
    requires c in Splits(m, rest, budget) && d in Splits(m, rest, budget)
    ensures c == d
  {
    assert Cut(rest, c) && Cut(rest, d);
  }

  lemma {:induction false} GroupShape(ms: seq<Message>, k: nat)
    requires k < |Groups(ms)|
    ensures Groups(ms)[k] != [] && forall i :: 0 < i < |Groups(ms)[k]| ==> Groups(ms)[k][i].role.Tool?
    ensures !Groups(ms)[k][0].role.Ai? ==> |Groups(ms)[k]| == 1
    decreases |ms|
  {
    var g := GroupLength(ms);
    if k == 0 {
      assert forall i :: 0 < i < g ==> ms[..g][i] == ms[1..][i - 1];
    } else {
      assert Groups(ms)[k] == Groups(ms[g..])[k - 1];
      GroupShape(ms[g..], k - 1);
    }
  }

  predicate HasHuman(ms: seq<Message>) { exists x <- ms :: x.role.Human? }

  lemma {:induction false} JoinedNoHuman(gs: seq<seq<Message>>)
    requires forall g <- gs :: !HasHuman(g)
    ensures !HasHuman(Joined(gs))
  {
    if gs != [] {
      assert gs[0] in gs && forall g <- gs[1..] :: g in gs;
      JoinedNoHuman(gs[1..]);
    }
  }

  lemma OffsetStep(ms: seq<Message>, k: nat)
    requires k < |Groups(ms)|
    ensures Offset(ms, k + 1) == Offset(ms, k) + |Groups(ms)[k]|
    ensures Joined(Groups(ms)[k..]) == Groups(ms)[k] + Joined(Groups(ms)[k + 1..])
  {
    var gs := Groups(ms);
    assert gs[..k + 1] == gs[..k] + [gs[k]];
    JoinedConcat(gs[..k], [gs[k]]);
    assert [gs[k]][1..] == [];
    assert gs[k..][1..] == gs[k + 1..];
  }

  lemma {:induction false} OffsetMonotone(ms: seq<Message>, j: nat, k: nat)
    requires j <= k <= |Groups(ms)|
    ensures Offset(ms, j) <= Offset(ms, k) && (j < k ==> Offset(ms, j) < Offset(ms, k))
    decreases k - j
  {
    if j < k {
      OffsetStep(ms, k - 1);
      GroupShape(ms, k - 1);
      OffsetMonotone(ms, j, k - 1);
    }
  }

  /** The last group with a human message starts at the last human message. */
  lemma TurnStart(ms: seq<Message>, k: nat)
    requires k < |Groups(ms)| && HasHuman(Groups(ms)[k]) && forall j :: k < j < |Groups(ms)| ==>
      !HasHuman(Groups(ms)[j])
    ensures LastHuman(ms) == Some(Offset(ms, k))
  {
    var gs, p := Groups(ms), Offset(ms, k);
    GroupShape(ms, k);
    OffsetSplit(ms, k);
    OffsetStep(ms, k);
    LaterNoHuman(gs, k);
    var x: Message :| x in gs[k] && x.role.Human?;
    assert gs[k] == [x];
    LastHumanAt(ms, p, x, Joined(gs[k + 1..]));
  }

  lemma LaterNoHuman(gs: seq<seq<Message>>, k: nat)
    requires k < |gs| && forall j :: k < j < |gs| ==> !HasHuman(gs[j])
    ensures !HasHuman(Joined(gs[k + 1..]))
  {
    var later := gs[k + 1..];
    forall g <- later ensures !HasHuman(g) {
      var j :| 0 <= j < |later| && later[j] == g;
      assert g == gs[k + 1 + j];
    }
    JoinedNoHuman(later);
  }

  lemma LastHumanAt(ms: seq<Message>, p: nat, x: Message, later: seq<Message>)
    requires p <= |ms| && ms[p..] == [x] + later && x.role.Human? && !HasHuman(later)
    ensures LastHuman(ms) == Some(p)
  {
    var tail := ms[p..];
    assert ms[p] == tail[0] == x;
    forall i | p < i < |ms| ensures !ms[i].role.Human? {
      assert ms[i] == tail[i - p] == later[i - p - 1];
      assert ms[i] in later;
    }
  }

  lemma NoTurn(ms: seq<Message>)
    requires forall j :: 0 <= j < |Groups(ms)| ==> !HasHuman(Groups(ms)[j])
    ensures LastHuman(ms) == None
  {
    GroupsJoin(ms);
    forall g <- Groups(ms) ensures !HasHuman(g) {
      var j :| 0 <= j < |Groups(ms)| && Groups(ms)[j] == g;
    }
    JoinedNoHuman(Groups(ms));
    assert forall i :: 0 <= i < |ms| ==> ms[i] in Joined(Groups(ms));
  }

  lemma SuffixTokens(m: Measure, ms: seq<Message>, i: nat, j: nat)
    requires i <= j <= |ms|
    ensures Tokens(m, ms[i..]) >= Tokens(m, ms[j..])
  {
    assert ms[i..] == ms[i..j] + ms[j..];
    TokensConcat(m, ms[i..j], ms[j..]);
  }

  /** Once one more group does not fit, no longer run of whole groups does. */
  lemma NothingLongerFits(m: Measure, ms: seq<Message>, budget: nat, k: nat)
    requires k <= |Groups(ms)|
    requires k > 0 ==> Tokens(m, Joined(Groups(ms)[k - 1..])) > budget
    ensures forall d :: 0 <= d < Offset(ms, k) && Cut(ms, d) ==> Tokens(m, ms[d..]) > budget
  {
    forall d | 0 <= d < Offset(ms, k) && Cut(ms, d) ensures Tokens(m, ms[d..]) > budget {
      CutsAreOffsets(ms, d);
      var j :| 0 <= j <= |Groups(ms)| && Offset(ms, j) == d;
      if j >= k { OffsetMonotone(ms, k, j); }
      OffsetMonotone(ms, j, k - 1);
      OffsetSplit(ms, k - 1);
      SuffixTokens(m, ms, d, Offset(ms, k - 1));
    }
  }

  /** How many groups at the end are kept, from the budget alone: the last one always is. */
  method KeepFrom(m: Measure, ghost ms: seq<Message>, groups: seq<seq<Message>>, budget: nat) returns (keepFrom: nat)
    requires groups == Groups(ms) && groups != []
    ensures keepFrom < |groups|
    ensures keepFrom == |groups| - 1 || Tokens(m, Joined(groups[keepFrom..])) <= budget
    ensures keepFrom > 0 ==> Tokens(m, Joined(groups[keepFrom - 1..])) > budget
  {
    keepFrom := |groups| - 1;
    var kept := Tokens(m, groups[keepFrom]);
    OffsetStep(ms, keepFrom);
    assert groups[keepFrom + 1..] == [] && groups[keepFrom] + [] == groups[keepFrom];
    while keepFrom > 0
      invariant keepFrom < |groups| && kept == Tokens(m, Joined(groups[keepFrom..]))
      invariant keepFrom == |groups| - 1 || kept <= budget
    {
      var candidate := Tokens(m, groups[keepFrom - 1]);
      OffsetStep(ms, keepFrom - 1);
      TokensConcat(m, groups[keepFrom - 1], Joined(groups[keepFrom..]));
      if kept + candidate > budget { break; }
      keepFrom, kept := keepFrom - 1, kept + candidate;
    }
  }

  method TurnFrom(groups: seq<seq<Message>>) returns (from: nat)
    ensures from <= |groups| && (from < |groups| ==> HasHuman(groups[from]))
    ensures forall j :: 0 <= j < |groups| && (j > from || from == |groups|) ==> !HasHuman(groups[j])
  {
    from := |groups|;
    for i := 0 to |groups|
      invariant from < i || from == |groups|
      invariant from < |groups| ==> HasHuman(groups[from])
      invariant forall j :: 0 <= j < i && (j > from || from == |groups|) ==> !HasHuman(groups[j])
    {
      if exists x <- groups[i] :: x.role.Human? { from := i; }
    }
  }

  method LeadingBlock(messages: seq<Message>) returns (leading: seq<Message>, first: nat)
    ensures first == LeadingSystem(messages) && leading == messages[..first]
  {
    leading, first := [], 0;
    while first < |messages| && messages[first].role.System?
      invariant first <= |messages| && leading == messages[..first]
      invariant LeadingSystem(messages) == LeadingFrom(messages, first)
    {
      leading := leading + [messages[first]];
      first := first + 1;
    }
  }

  method SplitGroups(m: Measure, rest: seq<Message>, groups: seq<seq<Message>>, budget: nat)
    returns (older: seq<Message>, tail: seq<Message>)
    requires groups == Groups(rest) && groups != []
    ensures rest == older + tail && |older| in Splits(m, rest, budget)
  {
    var turnFrom := TurnFrom(groups);
    var keepFrom := KeepFrom(m, rest, groups, budget);
    SplitChosen(m, rest, budget, keepFrom, turnFrom);
    if turnFrom < keepFrom { keepFrom := turnFrom; }
    older, tail := Joined(groups[..keepFrom]), Joined(groups[keepFrom..]);
    JoinedParts(rest, keepFrom);
  }

  lemma JoinedParts(ms: seq<Message>, k: nat)
    requires k <= |Groups(ms)|
    ensures ms == Joined(Groups(ms)[..k]) + Joined(Groups(ms)[k..])
  {
    OffsetSplit(ms, k);
  }

  /** The system block stays, `older` stands directly behind it, and the rest stays. */
  predicate Between(ms: seq<Message>, older: seq<Message>, recent: seq<Message>) {
    Parts(ms, LeadingSystem(ms), older, recent)
  }

  lemma BetweenParts(ms: seq<Message>, older: seq<Message>, tail: seq<Message>)
    requires ms[LeadingSystem(ms)..] == older + tail
    ensures Between(ms, older, ms[..LeadingSystem(ms)] + tail)
  {
    var s := LeadingSystem(ms);
    SliceOfSlice(ms, s, |older|);
    assert (older + tail)[..|older|] == older && (older + tail)[|older|..] == tail;
  }

  method SplitOldAndRecent(m: Measure, messages: seq<Message>, window: nat)
    returns (older: seq<Message>, recent: seq<Message>)
    ensures Between(messages, older, recent) && older == OldPart(m, messages, window)
    ensures IsSplit(m, messages, window, older, recent)
  {
    var leading, first := LeadingBlock(messages);
    var rest := messages[first..];
    var groups := AtomicGroups(rest);
    if |groups| <= 1 {
      NothingOld(m, messages, window);
      older, recent := [], messages;
    } else {
      var system := Tokens(m, leading);
      var budget := if window >= system + 1 then window - system else 1;
      assert budget == Budget(m, messages, window);
      var tail;
      older, tail := SplitGroups(m, rest, groups, budget);
      BetweenParts(messages, older, tail);
      recent := leading + tail;
    }
    OldPartIs(m, messages, window, older, recent);
    SplitIs(m, messages, window, older, recent, first, MustKeep(messages[first..]), Budget(m, messages, window));
  }

  lemma OldPartIs(m: Measure, ms: seq<Message>, window: nat, older: seq<Message>, recent: seq<Message>)
    requires Between(ms, older, recent) && |older| in Splits(m, ms[LeadingSystem(ms)..], Budget(m, ms, window))
    ensures older == OldPart(m, ms, window)
  {
    OneSplit(m, ms[LeadingSystem(ms)..], Budget(m, ms, window), |older|, OldCount(m, ms, window));
  }

  lemma NothingOld(m: Measure, ms: seq<Message>, window: nat)
    requires |Groups(ms[LeadingSystem(ms)..])| <= 1
    ensures Between(ms, [], ms) && 0 in Splits(m, ms[LeadingSystem(ms)..], Budget(m, ms, window))
  {
    var n := LeadingSystem(ms);
    assert ms[..n] + ms[n..] == ms;
    FewGroups(m, ms[n..], Budget(m, ms, window));
  }

  lemma FewGroups(m: Measure, rest: seq<Message>, budget: nat)
    requires |Groups(rest)| <= 1
    ensures 0 in Splits(m, rest, budget)
  {
    assert rest != [] ==> Offset(rest, 0) == 0;
    assert rest[0..] == rest;
  }

  lemma MustIs(rest: seq<Message>, turnFrom: nat)
    requires rest != [] && turnFrom <= |Groups(rest)| && (turnFrom < |Groups(rest)| ==>
      HasHuman(Groups(rest)[turnFrom]))
    requires forall j :: 0 <= j < |Groups(rest)| && (j > turnFrom || turnFrom == |Groups(rest)|) ==>
      !HasHuman(Groups(rest)[j])
    ensures var last := |Groups(rest)| - 1; MustKeep(rest) == Offset(rest, if turnFrom < last then turnFrom else last)
  {
    var last := |Groups(rest)| - 1;
    if turnFrom <= last {
      TurnStart(rest, turnFrom);
      OffsetMonotone(rest, turnFrom, last);
    } else {
      NoTurn(rest);
    }
  }

  lemma SplitHere(m: Measure, rest: seq<Message>, budget: nat, keepFrom: nat, turnFrom: nat)
    requires keepFrom < |Groups(rest)| && turnFrom <= |Groups(rest)| &&
      (turnFrom < |Groups(rest)| ==> HasHuman(Groups(rest)[turnFrom]))
    requires forall j :: 0 <= j < |Groups(rest)| && (j > turnFrom || turnFrom == |Groups(rest)|) ==>
      !HasHuman(Groups(rest)[j])
    requires keepFrom == |Groups(rest)| - 1 || Tokens(m, Joined(Groups(rest)[keepFrom..])) <= budget
    requires keepFrom > 0 ==> Tokens(m, Joined(Groups(rest)[keepFrom - 1..])) > budget
    ensures SplitIn(m, rest, budget, Offset(rest, if turnFrom < keepFrom then turnFrom else keepFrom))
  {
    var last := |Groups(rest)| - 1;
    var must := if turnFrom < last then turnFrom else last;
    MustIs(rest, turnFrom);
    OffsetCut(rest, keepFrom);
    OffsetCut(rest, must);
    OffsetSplit(rest, keepFrom);
    OffsetSplit(rest, must);
    NothingLongerFits(m, rest, budget, keepFrom);
    if keepFrom <= must {
      OffsetMonotone(rest, keepFrom, must);
      SuffixTokens(m, rest, Offset(rest, keepFrom), Offset(rest, must));
    } else {
      OffsetMonotone(rest, must, keepFrom);
      assert Tokens(m, rest[Offset(rest, must)..]) > budget;
    }
  }

  lemma SplitChosen(m: Measure, rest: seq<Message>, budget: nat, keepFrom: nat, turnFrom: nat)
    requires keepFrom < |Groups(rest)| && turnFrom <= |Groups(rest)| &&
      (turnFrom < |Groups(rest)| ==> HasHuman(Groups(rest)[turnFrom]))
    requires forall j :: 0 <= j < |Groups(rest)| && (j > turnFrom || turnFrom == |Groups(rest)|) ==>
      !HasHuman(Groups(rest)[j])
    requires keepFrom == |Groups(rest)| - 1 || Tokens(m, Joined(Groups(rest)[keepFrom..])) <= budget
    requires keepFrom > 0 ==> Tokens(m, Joined(Groups(rest)[keepFrom - 1..])) > budget
    ensures Offset(rest, if turnFrom < keepFrom then turnFrom else keepFrom) in Splits(m, rest, budget)
  {
    SplitHere(m, rest, budget, keepFrom, turnFrom);
    OffsetSplit(rest, if turnFrom < keepFrom then turnFrom else keepFrom);
  }

  lemma {:induction false} KeepFromExists(m: Measure, groups: seq<seq<Message>>, budget: nat, k: nat)
    returns (keep: nat)
    requires k < |groups| && (k == |groups| - 1 || Tokens(m, Joined(groups[k..])) <= budget)
    ensures keep < |groups| && (keep == |groups| - 1 || Tokens(m, Joined(groups[keep..])) <= budget)
    ensures keep > 0 ==> Tokens(m, Joined(groups[keep - 1..])) > budget
  {
    keep := k;
    if k > 0 && Tokens(m, Joined(groups[k - 1..])) <= budget { keep := KeepFromExists(m, groups, budget, k - 1); }
  }

  lemma {:induction false} TurnExists(groups: seq<seq<Message>>, k: nat) returns (from: nat)
    requires k <= |groups| && forall j :: k <= j < |groups| ==> !HasHuman(groups[j])
    ensures from <= |groups| && (from < |groups| ==> HasHuman(groups[from]))
    ensures forall j :: 0 <= j < |groups| && (j > from || from == |groups|) ==> !HasHuman(groups[j])
  {
    from := |groups|;
    if k > 0 {
      if HasHuman(groups[k - 1]) { from := k - 1; } else { from := TurnExists(groups, k - 1); }
    }
  }

  lemma SplitExists(m: Measure, rest: seq<Message>, budget: nat)
    ensures Splits(m, rest, budget) != {}
  {
    var groups := Groups(rest);
    if |groups| <= 1 {
      FewGroups(m, rest, budget);
    } else {
      var keepFrom := KeepFromExists(m, groups, budget, |groups| - 1);
      var turnFrom := TurnExists(groups, |groups|);
      SplitChosen(m, rest, budget, keepFrom, turnFrom);
    }
  }

  /** How many messages behind the system block are old. */
  ghost function OldCount(m: Measure, ms: seq<Message>, window: nat): (c: nat)
    ensures c in Splits(m, ms[LeadingSystem(ms)..], Budget(m, ms, window)) && LeadingSystem(ms) + c <= |ms|
  {
    SplitExists(m, ms[LeadingSystem(ms)..], Budget(m, ms, window));
    var c :| c in Splits(m, ms[LeadingSystem(ms)..], Budget(m, ms, window));
    c
  }

  /** The old messages themselves. */
  ghost function OldPart(m: Measure, ms: seq<Message>, window: nat): (older: seq<Message>)
    ensures |older| == OldCount(m, ms, window) && LeadingSystem(ms) + |older| <= |ms|
  {
    ms[LeadingSystem(ms)..LeadingSystem(ms) + OldCount(m, ms, window)]
  }
}
