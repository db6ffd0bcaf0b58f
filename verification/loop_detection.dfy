/** Loop and step detection on the current turn: the messages from the last human one on. */
module LoopDetection {
  import opened Channels
  import opened Messages
  import opened Contexts
  import opened Lists

  /** The calls of one decision, without their order. */
  type Signature = multiset<(string, string)>

  datatype Loop = Loop(signature: Signature, repeats: nat)

  function CurrentTurn(ms: seq<Message>): seq<Message> {
    match LastHuman(ms) case None => [] case Some(p) => ms[p..]
  }

  function SignatureOf(calls: seq<ToolCall>): Signature {
    if calls == [] then multiset{}
    else
      var last := calls[|calls| - 1];
      SignatureOf(calls[..|calls| - 1]) + multiset{(last.name, last.args)}
  }

  /** One signature for each message of an assistant that calls tools. */
  function Signatures(ms: seq<Message>): seq<Signature> {
    if ms == [] then []
    else
      var m := ms[|ms| - 1];
      Signatures(ms[..|ms| - 1]) + if m.role.Ai? && m.calls != [] then [SignatureOf(m.calls)] else []
  }

  /** How often the last signature stands at the end, without a break. */
  function Repeats(sigs: seq<Signature>): (n: nat)
    ensures n <= |sigs| && (sigs != [] ==> n > 0)
    ensures forall i :: |sigs| - n <= i < |sigs| ==> sigs[i] == sigs[|sigs| - 1]
    ensures n < |sigs| ==> sigs[|sigs| - 1 - n] != sigs[|sigs| - 1]
  {
    if sigs == [] then 0
    else if |sigs| > 1 && sigs[|sigs| - 2] == sigs[|sigs| - 1] then 1 + Repeats(sigs[..|sigs| - 1])
    else 1
  }

  /** A loop is at least `maxRepeats` equal decisions in a row at the end of the turn. */
  function LoopIn(ms: seq<Message>, maxRepeats: Option<int>): Option<Loop> {
    var sigs := Signatures(CurrentTurn(ms));
    if maxRepeats.Some? && 0 < maxRepeats.value <= Repeats(sigs) then Some(Loop(sigs[|sigs| - 1], Repeats(sigs)))
      else None
  }

  // ---------------------------------------------------------------- turns and decisions, told outright

  /** What stands from the last human message on, nothing if there is none. */
  predicate TurnFrom(ms: seq<Message>, turn: seq<Message>) {
    if forall i :: 0 <= i < |ms| ==> !ms[i].role.Human? then turn == []
    else |turn| <= |ms| && turn == ms[|ms| - |turn|..] && turn != [] && turn[0].role.Human? &&
         forall i :: 0 < i < |turn| ==> !turn[i].role.Human?
  }

  /** The names and arguments of the calls, as often as they occur and in no order. */
  function CallsMade(m: Message): Signature { multiset(Pairs(m.calls)) }

  function Pairs(calls: seq<ToolCall>): seq<(string, string)> {
    seq(|calls|, i requires 0 <= i < |calls| => (calls[i].name, calls[i].args))
  }

  predicate Decides(m: Message) { m.role.Ai? && m.calls != [] }

  ghost predicate Decisions(turn: seq<Message>, sigs: seq<Signature>) { Picked(turn, Decides, CallsMade, sigs) }

  /** The last `n` decisions are equal. */
  predicate EqualAtEnd(sigs: seq<Signature>, n: int) {
    n <= |sigs| && forall i :: 0 <= i < |sigs| && |sigs| - n <= i ==> sigs[i] == sigs[|sigs| - 1]
  }

  /** A loop is reported exactly if at least `maxRepeats` decisions at the end of the turn are
      equal, with the decision and the number of them. */
  ghost predicate Reports(ms: seq<Message>, maxRepeats: Option<int>, r: Option<Loop>, turn: seq<Message>,
      sigs: seq<Signature>)
  {
    && TurnFrom(ms, turn) && Decisions(turn, sigs)
    && (r.Some? <==> maxRepeats.Some? && maxRepeats.value > 0 && EqualAtEnd(sigs, maxRepeats.value))
    && (r.Some? ==>
         && sigs != [] && r.value.signature == sigs[|sigs| - 1]
         && EqualAtEnd(sigs, r.value.repeats) && !EqualAtEnd(sigs, r.value.repeats + 1))
  }

  lemma TurnIs(ms: seq<Message>)
    ensures TurnFrom(ms, CurrentTurn(ms))
  {
    match LastHuman(ms)
    case None =>
    case Some(p) => assert ms[p..][0] == ms[p];
  }

  lemma {:induction false} SignatureIs(calls: seq<ToolCall>)
    ensures SignatureOf(calls) == multiset(Pairs(calls))
  {
    if calls != [] {
      var n := |calls| - 1;
      SignatureIs(calls[..n]);
      assert Pairs(calls) == Pairs(calls[..n]) + [(calls[n].name, calls[n].args)];
    }
  }

  lemma OneMoreMessage(ms: seq<Message>, x: Message, sigs: seq<Signature>)
    requires Decisions(ms, sigs)
    ensures Decisions(ms + [x], sigs + if Decides(x) then [SignatureOf(x.calls)] else [])
  {
    PickedMore(ms, Decides, CallsMade, sigs, x);
    SignatureIs(x.calls);
    assert sigs + [] == sigs;
  }

  lemma {:induction false} SignaturesAre(ms: seq<Message>)
    ensures Decisions(ms, Signatures(ms))
  {
    if ms == [] {
      PickedNone(Decides, CallsMade);
    } else {
      var before, x := ms[..|ms| - 1], ms[|ms| - 1];
      SignaturesAre(before);
      OneMoreMessage(before, x, Signatures(before));
      LastOff(ms);
    }
  }

  lemma RepeatsAtEnd(sigs: seq<Signature>, n: int)
    ensures EqualAtEnd(sigs, n) <==> n <= Repeats(sigs)
  {
    var k := Repeats(sigs);
    if k < n <= |sigs| { assert sigs[|sigs| - 1 - k] != sigs[|sigs| - 1]; }
  }

  lemma LoopReported(ms: seq<Message>, maxRepeats: Option<int>)
    ensures Reports(ms, maxRepeats, LoopIn(ms, maxRepeats), CurrentTurn(ms), Signatures(CurrentTurn(ms)))
  {
    var sigs := Signatures(CurrentTurn(ms));
    TurnIs(ms);
    SignaturesAre(CurrentTurn(ms));
    RepeatsAtEnd(sigs, Repeats(sigs));
    RepeatsAtEnd(sigs, Repeats(sigs) + 1);
    if maxRepeats.Some? { RepeatsAtEnd(sigs, maxRepeats.value); }
  }

  method TakeCurrentTurn(messages: seq<Message>) returns (turn: seq<Message>)
    ensures turn == CurrentTurn(messages)
    ensures TurnFrom(messages, turn)
  {
    var lastInput := -1;
    for i := 0 to |messages|
      invariant -1 <= lastInput < i
      invariant LastHuman(messages[..i]) == if lastInput >= 0 then Some(lastInput) else None
    {
      assert messages[..i + 1][..i] == messages[..i];
      if messages[i].role.Human? { lastInput := i; }
    }
    assert messages[..|messages|] == messages;
    turn := if lastInput >= 0 then messages[lastInput..] else [];
    TurnIs(messages);
  }

  method ToolSignatures(messages: seq<Message>) returns (sigs: seq<Signature>)
    ensures sigs == Signatures(messages)
  {
    sigs := [];
    for i := 0 to |messages|
      invariant sigs == Signatures(messages[..i])
    {
      assert messages[..i + 1][..i] == messages[..i];
      if messages[i].role.Ai? && |messages[i].calls| > 0 { sigs := sigs + [SignatureOf(messages[i].calls)]; }
    }
    assert messages[..|messages|] == messages;
  }

  method DetectLoop(messages: seq<Message>, maxRepeats: Option<int>) returns (r: Option<Loop>)
    ensures r == LoopIn(messages, maxRepeats)
    ensures exists turn, sigs :: Reports(messages, maxRepeats, r, turn, sigs)
  {
    LoopReported(messages, maxRepeats);
    if maxRepeats.None? || maxRepeats.value <= 0 { return None; }
    var turn := TakeCurrentTurn(messages);
    var sigs := ToolSignatures(turn);
    if |sigs| < maxRepeats.value { return None; }
    var count := CountRepeats(sigs);
    if count >= maxRepeats.value { r := Some(Loop(sigs[|sigs| - 1], count)); } else { r := None; }
  }

  method CountRepeats(sigs: seq<Signature>) returns (count: nat)
    requires sigs != []
    ensures count == Repeats(sigs)
  {
    var last := sigs[|sigs| - 1];
    count := 0;
    while count < |sigs| && sigs[|sigs| - 1 - count] == last
      invariant count <= |sigs| && forall i :: |sigs| - count <= i < |sigs| ==> sigs[i] == last
    {
      count := count + 1;
    }
    var n := Repeats(sigs);
    assert n < |sigs| ==> sigs[|sigs| - 1 - n] != last;
  }

  function StepsUsed(messages: seq<Message>): nat { |Signatures(CurrentTurn(messages))| }

  method CountSteps(messages: seq<Message>) returns (n: nat)
    ensures n == StepsUsed(messages)
    ensures exists turn, sigs :: TurnFrom(messages, turn) && Decisions(turn, sigs) && n == |sigs|
  {
    var turn := TakeCurrentTurn(messages);
    var sigs := ToolSignatures(turn);
    SignaturesAre(turn);
    n := |sigs|;
  }

  lemma {:induction false} LastHumanAppended(ms: seq<Message>, more: seq<Message>)
    ensures LastHuman(ms + more) == match LastHuman(more) case Some(p) => Some(|ms| + p) case None => LastHuman(ms)
  {
    if more == [] {
      assert ms + more == ms;
    } else {
      var n := |more| - 1;
      assert (ms + more)[..|ms| + n] == ms + more[..n] && (ms + more)[|ms| + n] == more[n];
      LastHumanAppended(ms, more[..n]);
    }
  }

  lemma TurnAppended(ms: seq<Message>, more: seq<Message>)
    ensures CurrentTurn(ms + more) == if LastHuman(more).Some? then CurrentTurn(more)
      else if LastHuman(ms).Some? then CurrentTurn(ms) + more else []
  {
    LastHumanAppended(ms, more);
    match LastHuman(more) {
      case Some(p) => BehindFirst(ms, more, p);
      case None => if LastHuman(ms).Some? { FromFirst(ms, more, LastHuman(ms).value); }
    }
  }

  /** Two lists with the same current turn look the same to both detectors, whatever comes. */
  lemma SameTurnSameAnswers(a: seq<Message>, b: seq<Message>, more: seq<Message>, maxRepeats: Option<int>)
    requires CurrentTurn(a) == CurrentTurn(b) && (LastHuman(a).Some? <==> LastHuman(b).Some?)
    ensures CurrentTurn(a + more) == CurrentTurn(b + more)
    ensures LoopIn(a + more, maxRepeats) == LoopIn(b + more, maxRepeats) && StepsUsed(a + more) == StepsUsed(b + more)
  {
    TurnAppended(a, more);
    TurnAppended(b, more);
  }
}
