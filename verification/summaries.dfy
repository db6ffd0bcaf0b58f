/** Rolling the archived messages into the summary: batches for the model, and what of its
    answers is accepted. */
module Summaries {
  import opened Channels
  import opened Messages
  import opened Contexts
  import opened HardWindow
  import opened Texts
  import opened Lists

  const SUMMARY_MARKER := "CONTEXT_SUMMARY_V1"

  /** A message as the model sees it; a long text comes in numbered chunks. */
  datatype Record = Record(source: Message, content: string, chunk: Option<nat>)

  /** The length of a record when it is encoded. */
  type Size = Record -> nat

  /** What the model does with the summary so far and a batch. */
  datatype Response = Failed | Answered(callsTools: bool, text: string)

  type Model = (string, seq<Record>) -> Response

  // ---------------------------------------------------------------- records

  function Chunks(x: Message, text: string, cap: nat, from: nat): seq<Record>
    requires cap > 0
    decreases |text|
  {
    if text == "" then []
    else if |text| <= cap then [Record(x, text, Some(from))]
    else [Record(x, text[..cap], Some(from))] + Chunks(x, text[cap..], cap, from + 1)
  }

  function RecordsOf(x: Message, cap: nat): seq<Record>
    requires cap > 0
  {
    if |x.text| > cap then Chunks(x, x.text, cap, 1) else [Record(x, x.text, None)]
  }

  function AllRecords(ms: seq<Message>, cap: nat): seq<Record>
    requires cap > 0
  {
    if ms == [] then [] else AllRecords(ms[..|ms| - 1], cap) + RecordsOf(ms[|ms| - 1], cap)
  }

  function Contents(rs: seq<Record>): string {
    if rs == [] then "" else rs[0].content + Contents(rs[1..])
  }

  /** Nothing of a text is lost in the chunks, and each is short enough. */
  lemma {:induction false} ChunksKeepText(x: Message, text: string, cap: nat, from: nat)
    requires cap > 0
    ensures Contents(Chunks(x, text, cap, from)) == text
    ensures forall r <- Chunks(x, text, cap, from) :: r.source == x && |r.content| <= cap
    decreases |text|
  {
    if |text| > cap {
      ChunksKeepText(x, text[cap..], cap, from + 1);
      var all := Chunks(x, text, cap, from);
      assert all[1..] == Chunks(x, text[cap..], cap, from + 1);
      assert text[..cap] + text[cap..] == text;
    } else if text != "" {
      assert text + "" == text;
    }
  }

  // ---------------------------------------------------------------- batches

  /** The batches that are closed, and the one being filled with its size. */
  datatype Packing = Packing(closed: seq<seq<Record>>, current: seq<Record>, chars: nat)

  function Pack(p: Packing, r: Record, size: Size, cap: nat): Packing {
    if p.current != [] && p.chars + size(r) > cap then Packing(p.closed + [p.current], [r], size(r))
    else Packing(p.closed, p.current + [r], p.chars + size(r))
  }

  function PackAll(rs: seq<Record>, size: Size, cap: nat): Packing {
    if rs == [] then Packing([], [], 0) else Pack(PackAll(rs[..|rs| - 1], size, cap), rs[|rs| - 1], size, cap)
  }

  function Closed(p: Packing): seq<seq<Record>> {
    if p.current == [] then p.closed else p.closed + [p.current]
  }

  function Batches(ms: seq<Message>, maxTokens: nat, size: Size): seq<seq<Record>>
    requires maxTokens > 0
  {
    Closed(PackAll(AllRecords(ms, maxTokens * 4), size, maxTokens * 4))
  }

  // what records and batches are

  /** A text within the cap is one record; a longer one comes in numbered chunks, all of them
      full but the last. */
  predicate RecordsFor(x: Message, cap: nat, rs: seq<Record>) {
    if |x.text| <= cap then rs == [Record(x, x.text, None)]
    else
      && Contents(rs) == x.text && rs != []
      && (forall j :: 0 <= j < |rs| ==> rs[j].source == x && rs[j].chunk == Some(j + 1))
      && (forall j :: 0 <= j < |rs| - 1 ==> |rs[j].content| == cap)
      && 0 < |rs[|rs| - 1].content| <= cap
  }

  lemma {:induction false} ChunksAre(x: Message, text: string, cap: nat, from: nat)
    requires cap > 0 && text != ""
    ensures var rs := Chunks(x, text, cap, from);
      && rs != [] && (forall j :: 0 <= j < |rs| ==> rs[j].source == x && rs[j].chunk == Some(from + j))
      && (forall j :: 0 <= j < |rs| - 1 ==> |rs[j].content| == cap)
      && 0 < |rs[|rs| - 1].content| <= cap
    decreases |text|
  {
    if |text| > cap { ChunksAre(x, text[cap..], cap, from + 1); }
  }

  lemma RecordsAre(x: Message, cap: nat)
    requires cap > 0
    ensures RecordsFor(x, cap, RecordsOf(x, cap))
  {
    if |x.text| > cap {
      ChunksAre(x, x.text, cap, 1);
      ChunksKeepText(x, x.text, cap, 1);
    }
  }

  predicate EachRecorded(ms: seq<Message>, cap: nat, parts: seq<seq<Record>>) {
    |parts| == |ms| && forall i :: 0 <= i < |ms| ==> RecordsFor(ms[i], cap, parts[i])
  }

  /** The records of the messages, one message behind the other. */
  ghost predicate RecordsInOrder(ms: seq<Message>, cap: nat, rs: seq<Record>) {
    exists parts :: EachRecorded(ms, cap, parts) && rs == Flattened(parts)
  }

  lemma {:induction false} AllRecordsAre(ms: seq<Message>, cap: nat) returns (parts: seq<seq<Record>>)
    requires cap > 0
    ensures EachRecorded(ms, cap, parts) && AllRecords(ms, cap) == Flattened(parts)
  {
    parts := [];
    if ms != [] {
      var n := |ms| - 1;
      var before := AllRecordsAre(ms[..n], cap);
      RecordsAre(ms[n], cap);
      parts := before + [RecordsOf(ms[n], cap)];
      assert parts[..n] == before;
      OneRecordedMore(ms, cap, before, RecordsOf(ms[n], cap));
    }
  }

  lemma OneRecordedMore(ms: seq<Message>, cap: nat, before: seq<seq<Record>>, last: seq<Record>)
    requires ms != [] && EachRecorded(ms[..|ms| - 1], cap, before) && RecordsFor(ms[|ms| - 1], cap, last)
    ensures EachRecorded(ms, cap, before + [last])
  {
    forall i | 0 <= i < |ms| ensures RecordsFor(ms[i], cap, (before + [last])[i]) {
      if i < |ms| - 1 { assert RecordsFor(ms[..|ms| - 1][i], cap, before[i]); }
    }
  }

  /** The first record of the next batch would have made this one too big. */
  predicate ClosedAt(bs: seq<seq<Record>>, size: Size, cap: nat, i: nat)
    requires i + 1 < |bs|
  {
    bs[i + 1] != [] && SizeOf(bs[i], size) + size(bs[i + 1][0]) > cap
  }

  predicate Tight(bs: seq<seq<Record>>, size: Size, cap: nat) {
    forall i :: 0 <= i < |bs| - 1 ==> ClosedAt(bs, size, cap, i)
  }

  lemma PackTight(p: Packing, rs: seq<Record>, r: Record, size: Size, cap: nat)
    requires Holds(p, rs, size, cap) && Tight(p.closed + [p.current], size, cap)
    ensures var q := Pack(p, r, size, cap); Tight(q.closed + [q.current], size, cap)
  {
    var q := Pack(p, r, size, cap);
    var before, after := p.closed + [p.current], q.closed + [q.current];
    forall i | 0 <= i < |after| - 1 ensures ClosedAt(after, size, cap, i) {
      if i < |before| - 1 { assert ClosedAt(before, size, cap, i); }
    }
  }

  lemma {:induction false} PackedTight(rs: seq<Record>, size: Size, cap: nat)
    ensures var p := PackAll(rs, size, cap); Tight(p.closed + [p.current], size, cap)
  {
    if rs != [] {
      var n := |rs| - 1;
      PackedTight(rs[..n], size, cap);
      PackedOnce(rs[..n], size, cap);
      PackTight(PackAll(rs[..n], size, cap), rs[..n], rs[n], size, cap);
    }
  }

  method CollectRecords(messages: seq<Message>, cap: nat) returns (records: seq<Record>)
    requires cap > 0
    ensures records == AllRecords(messages, cap)
  {
    records := [];
    for i := 0 to |messages|
      invariant records == AllRecords(messages[..i], cap)
    {
      assert messages[..i + 1][..i] == messages[..i];
      var rs := SplitMessage(messages[i], cap);
      records := records + rs;
    }
    assert messages[..|messages|] == messages;
  }

  method RecordsToBatches(messages: seq<Message>, maxTokens: nat, size: Size) returns (batches: seq<seq<Record>>)
    requires maxTokens > 0
    ensures batches == Batches(messages, maxTokens, size)
  {
    var cap := maxTokens * 4;
    var records := CollectRecords(messages, cap);
    batches := [];
    var current: seq<Record>, chars: nat := [], 0;
    for i := 0 to |records|
      invariant 0 <= chars && Packing(batches, current, chars) == PackAll(records[..i], size, cap)
    {
      assert records[..i + 1][..i] == records[..i];
      assert PackAll(records[..i + 1], size, cap) == Pack(Packing(batches, current, chars), records[i], size, cap);
      var encoded := size(records[i]);
      if |current| > 0 && chars + encoded > cap {
        batches, current, chars := batches + [current], [records[i]], encoded;
      } else {
        current, chars := current + [records[i]], chars + encoded;
      }
    }
    assert records[..|records|] == records;
    if |current| > 0 { batches := batches + [current]; }
  }

  method SplitMessage(message: Message, cap: nat) returns (rs: seq<Record>)
    requires cap > 0
    ensures rs == RecordsOf(message, cap)
  {
    if |message.text| <= cap { return [Record(message, message.text, None)]; }
    rs := [];
    var offset, n := 0, 1;
    while offset < |message.text|
      invariant 0 <= offset <= |message.text| && n >= 1
      invariant rs + Chunks(message, message.text[offset..], cap, n) == Chunks(message, message.text, cap, 1)
    {
      var to := if offset + cap < |message.text| then offset + cap else |message.text|;
      ghost var left, before := message.text[offset..], rs;
      assert left[..to - offset] == message.text[offset..to] && left[to - offset..] == message.text[to..];
      var chunk := Record(message, message.text[offset..to], Some(n));
      rs := rs + [chunk];
      Gather(before, chunk, Chunks(message, message.text[to..], cap, n + 1));
      assert to == |message.text| ==> message.text[to..] == "" && left[..to - offset] == left;
      offset, n := to, n + 1;
    }
    assert rs + [] == rs;
  }

  function Flattened(bs: seq<seq<Record>>): seq<Record> {
    if bs == [] then [] else Flattened(bs[..|bs| - 1]) + bs[|bs| - 1]
  }

  function SizeOf(rs: seq<Record>, size: Size): nat {
    if rs == [] then 0 else SizeOf(rs[..|rs| - 1], size) + size(rs[|rs| - 1])
  }

  ghost predicate Fits(b: seq<Record>, size: Size, cap: nat) { b != [] && (|b| == 1 || SizeOf(b, size) <= cap) }

  ghost predicate Holds(p: Packing, rs: seq<Record>, size: Size, cap: nat) {
    && Flattened(p.closed) + p.current == rs
    && p.chars == SizeOf(p.current, size)
    && (if rs == [] then p.current == [] else Fits(p.current, size, cap))
    && forall b <- p.closed :: Fits(b, size, cap)
  }

  lemma PackOne(p: Packing, rs: seq<Record>, r: Record, size: Size, cap: nat)
    requires Holds(p, rs, size, cap)
    ensures Holds(Pack(p, r, size, cap), rs + [r], size, cap)
  {
    assert (p.closed + [p.current])[..|p.closed|] == p.closed;
    assert (p.current + [r])[..|p.current|] == p.current;
    assert SizeOf([r][..0], size) == 0 && SizeOf([r], size) == size(r);
    Assoc(Flattened(p.closed), p.current, [r]);
    if p.current == [] { assert Flattened(p.closed) + [] == Flattened(p.closed) && p.current + [r] == [r]; }
  }

  /** Every record is in exactly one batch, in order, and no batch is too big unless a
      single record is. */
  lemma {:induction false} PackedOnce(rs: seq<Record>, size: Size, cap: nat)
    ensures Holds(PackAll(rs, size, cap), rs, size, cap)
  {
    if rs != [] {
      var n := |rs| - 1;
      PackedOnce(rs[..n], size, cap);
      PackOne(PackAll(rs[..n], size, cap), rs[..n], rs[n], size, cap);
      assert rs == rs[..n] + [rs[n]];
    }
  }

  lemma BatchesKeepRecords(ms: seq<Message>, maxTokens: nat, size: Size)
    requires maxTokens > 0
    ensures Flattened(Batches(ms, maxTokens, size)) == AllRecords(ms, maxTokens * 4)
    ensures forall b <- Batches(ms, maxTokens, size) :: Fits(b, size, maxTokens * 4)
    ensures ms != [] ==> Batches(ms, maxTokens, size) != []
    ensures RecordsInOrder(ms, maxTokens * 4, Flattened(Batches(ms, maxTokens, size)))
    ensures Tight(Batches(ms, maxTokens, size), size, maxTokens * 4)
  {
    var parts := AllRecordsAre(ms, maxTokens * 4);
    PackedTight(AllRecords(ms, maxTokens * 4), size, maxTokens * 4);
    var rs := AllRecords(ms, maxTokens * 4);
    var p := PackAll(rs, size, maxTokens * 4);
    PackedOnce(rs, size, maxTokens * 4);
    assert (p.closed + [p.current])[..|p.closed|] == p.closed;
    assert p.current == [] ==> Flattened(p.closed) + p.current == Flattened(p.closed);
  }

  // ---------------------------------------------------------------- accepted summaries

  /** The first line and what is behind it; `None` if there is only one line. */
  function SecondPart(s: string): Option<(string, string)> {
    if s == "" then None
    else if s[0] == '\n' then Some(("", s[1..]))
    else match SecondPart(s[1..]) case None => None case Some(p) => Some(([s[0]] + p.0, p.1))
  }

  function Parsed(m: Measure, response: Response, maxSummary: nat): (r: Option<string>)
    ensures r.Some? ==> r.value != "" && Strip(r.value) == r.value && m(SummaryMessage(r.value)) <= maxSummary
  {
    if response.Failed? || response.callsTools then None
    else match SecondPart(Strip(response.text))
         case None => None
         case Some(p) =>
           var summary := Strip(p.1);
           if Strip(p.0) != SUMMARY_MARKER || summary == "" || m(SummaryMessage(summary)) > maxSummary then None
           else Some(summary)
  }

  /** An answer is accepted as the summary `s` exactly if it calls no tool, its first line is the
      marker, and `s` is what stands behind that line, is not blank, and fits. */
  ghost predicate Accepts(m: Measure, response: Response, maxSummary: nat, s: string) {
    && response.Answered? && !response.callsTools && s != "" && m(SummaryMessage(s)) <= maxSummary
    && exists first, rest :: (
      && Stripped(response.text, first + ['\n'] + rest) && '\n' !in first
      && Stripped(first, "CONTEXT_SUMMARY_V1") && Stripped(rest, s))
  }

  lemma {:induction false} SecondPartIs(text: string)
    ensures SecondPart(text).Some? ==> var (a, b) := SecondPart(text).value; text == a + ['\n'] + b && '\n' !in a
  {
    if text != "" && text[0] != '\n' {
      SecondPartIs(text[1..]);
      if SecondPart(text[1..]).Some? {
        var (a, b) := SecondPart(text[1..]).value;
        assert text == [text[0]] + text[1..] == [text[0]] + a + ['\n'] + b;
      }
    }
  }

  lemma {:induction false} FirstLineIs(a: string, b: string)
    requires '\n' !in a
    ensures SecondPart(a + ['\n'] + b) == Some((a, b))
  {
    var text := a + ['\n'] + b;
    if a == "" {
      assert text[1..] == b;
    } else {
      assert text[0] == a[0] && text[1..] == a[1..] + ['\n'] + b;
      FirstLineIs(a[1..], b);
      assert [a[0]] + a[1..] == a;
    }
  }

  lemma ParsedIsAccepted(m: Measure, response: Response, maxSummary: nat, s: string)
    ensures Parsed(m, response, maxSummary) == Some(s) <==> Accepts(m, response, maxSummary, s)
  {
    if Parsed(m, response, maxSummary) == Some(s) {
      var text := Strip(response.text);
      SecondPartIs(text);
      var (first, rest) := SecondPart(text).value;
      StripIs(response.text);
      StripIs(first);
      StripIs(rest);
    }
    if Accepts(m, response, maxSummary, s) {
      var first, rest :| Stripped(response.text, first + ['\n'] + rest) && '\n' !in first &&
        Stripped(first, "CONTEXT_SUMMARY_V1") && Stripped(rest, s);
      StripIs(response.text);
      OneStrip(response.text, first + ['\n'] + rest, Strip(response.text));
      FirstLineIs(first, rest);
      StripIs(first);
      OneStrip(first, "CONTEXT_SUMMARY_V1", Strip(first));
      StripIs(rest);
      OneStrip(rest, s, Strip(rest));
    }
  }

  /** Summaries that begin with `previous`, each of which is what the model answered for the one
      before it and the next batch. */
  ghost predicate RolledAlong(m: Measure, model: Model, previous: string, batches: seq<seq<Record>>, maxSummary: nat,
      sums: seq<string>)
  {
    && |sums| == |batches| + 1 && sums[0] == previous
    && forall i :: 0 <= i < |batches| ==> Accepts(m, model(sums[i], batches[i]), maxSummary, sums[i + 1])
  }

  /** No answer is accepted for the batch at `k`, after the summaries for those before. */
  ghost predicate SpoiltAt(m: Measure, model: Model, previous: string, batches: seq<seq<Record>>, maxSummary: nat,
      k: nat, sums: seq<string>)
  {
    && k < |batches| && RolledAlong(m, model, previous, batches[..k], maxSummary, sums)
    && forall s :: !Accepts(m, model(sums[k], batches[k]), maxSummary, s)
  }

  /** The summary after all batches; one bad answer spoils it. */
  function Rolled(m: Measure, model: Model, previous: string, batches: seq<seq<Record>>,
          maxSummary: nat): (r: Option<string>)
    ensures r.Some? && batches != [] ==>
      r.value != "" && Strip(r.value) == r.value && m(SummaryMessage(r.value)) <= maxSummary
  {
    if batches == [] then Some(previous)
    else match Rolled(m, model, previous, batches[..|batches| - 1], maxSummary)
         case None => None
         case Some(s) => Parsed(m, model(s, batches[|batches| - 1]), maxSummary)
  }

  /** The last of such summaries over all batches, if there is room for one and each answer is
      accepted; else none. */
  ghost predicate RollsTo(m: Measure, model: Model, previous: string, batches: seq<seq<Record>>, maxSummary: nat,
      r: Option<string>)
  {
    if maxSummary <= m(SummaryMessage("")) then r == None
    else if r.Some? then exists sums ::
      RolledAlong(m, model, previous, batches, maxSummary, sums) && r.value == sums[|batches|]
    else exists k: nat, sums :: SpoiltAt(m, model, previous, batches, maxSummary, k, sums)
  }

  method RollSummary(m: Measure, model: Model, size: Size, previous: string, older: seq<Message>, maxSummary: nat,
          batchTokens: nat)
    returns (r: Option<string>)
    requires batchTokens > 0
    ensures maxSummary <= m(SummaryMessage("")) ==> r == None
    ensures maxSummary > m(SummaryMessage("")) ==> r == Rolled(m, model, previous, Batches(older, batchTokens, size),
      maxSummary)
    ensures RollsTo(m, model, previous, Batches(older, batchTokens, size), maxSummary, r)
    ensures r.Some? && older != [] ==> r.value != "" && m(SummaryMessage(r.value)) <= maxSummary
  {
    if maxSummary <= m(SummaryMessage("")) { return None; }
    var batches := RecordsToBatches(older, batchTokens, size);
    if older != [] { SomeBatches(older, batchTokens, size); }
    r := RollBatches(m, model, previous, batches, maxSummary);
  }

  lemma SomeBatches(ms: seq<Message>, maxTokens: nat, size: Size)
    requires maxTokens > 0 && ms != []
    ensures Batches(ms, maxTokens, size) != []
  {
    BatchesKeepRecords(ms, maxTokens, size);
  }

  method RollBatches(m: Measure, model: Model, previous: string, batches: seq<seq<Record>>, maxSummary: nat)
    returns (r: Option<string>)
    ensures r == Rolled(m, model, previous, batches, maxSummary)
    ensures r.Some? ==> exists sums ::
      RolledAlong(m, model, previous, batches, maxSummary, sums) && r.value == sums[|batches|]
    ensures r.None? ==> exists k: nat, sums :: SpoiltAt(m, model, previous, batches, maxSummary, k, sums)
  {
    var summary := previous;
    ghost var sums := [previous];
    for i := 0 to |batches|
      invariant Rolled(m, model, previous, batches[..i], maxSummary) == Some(summary)
      invariant RolledAlong(m, model, previous, batches[..i], maxSummary, sums) && sums[i] == summary
    {
      assert batches[..i + 1][..i] == batches[..i];
      var parsed := Parsed(m, model(summary, batches[i]), maxSummary);
      if parsed.None? {
        SpoiltBatch(m, model, previous, batches, maxSummary, i + 1);
        Spoils(m, model, previous, batches, maxSummary, i, sums);
        return None;
      }
      RollsOn(m, model, previous, batches, maxSummary, i, sums, parsed.value);
      summary, sums := parsed.value, sums + [parsed.value];
    }
    assert batches[..|batches|] == batches;
    r := Some(summary);
  }

  lemma RollsOn(m: Measure, model: Model, previous: string, batches: seq<seq<Record>>, maxSummary: nat, i: nat,
      sums: seq<string>, s: string)
    requires i < |batches| && RolledAlong(m, model, previous, batches[..i], maxSummary, sums)
    requires Parsed(m, model(sums[i], batches[i]), maxSummary) == Some(s)
    ensures RolledAlong(m, model, previous, batches[..i + 1], maxSummary, sums + [s])
  {
    ParsedIsAccepted(m, model(sums[i], batches[i]), maxSummary, s);
    var before, more := batches[..i], sums + [s];
    forall j | 0 <= j < i + 1 ensures Accepts(m, model(more[j], batches[..i + 1][j]), maxSummary, more[j + 1]) {
      if j < i { assert Accepts(m, model(sums[j], before[j]), maxSummary, sums[j + 1]); }
    }
  }

  lemma Spoils(m: Measure, model: Model, previous: string, batches: seq<seq<Record>>, maxSummary: nat, i: nat,
      sums: seq<string>)
    requires i < |batches| && RolledAlong(m, model, previous, batches[..i], maxSummary, sums)
    requires Parsed(m, model(sums[i], batches[i]), maxSummary).None?
    ensures SpoiltAt(m, model, previous, batches, maxSummary, i, sums)
  {
    forall s ensures !Accepts(m, model(sums[i], batches[i]), maxSummary, s) {
      ParsedIsAccepted(m, model(sums[i], batches[i]), maxSummary, s);
    }
  }

  /** The summary that `Rolled` yields is the last of such summaries. */
  lemma {:induction false} RolledIs(m: Measure, model: Model, previous: string, batches: seq<seq<Record>>,
          maxSummary: nat) returns (sums: seq<string>)
    requires Rolled(m, model, previous, batches, maxSummary).Some?
    ensures RolledAlong(m, model, previous, batches, maxSummary, sums)
    ensures Rolled(m, model, previous, batches, maxSummary) == Some(sums[|batches|])
  {
    sums := [previous];
    if batches != [] {
      var n := |batches| - 1;
      sums := RolledIs(m, model, previous, batches[..n], maxSummary);
      var s := Rolled(m, model, previous, batches, maxSummary).value;
      RollsOn(m, model, previous, batches, maxSummary, n, sums, s);
      assert batches[..n + 1] == batches;
      sums := sums + [s];
    }
  }

  lemma {:induction false} SpoiltIs(m: Measure, model: Model, previous: string, batches: seq<seq<Record>>,
          maxSummary: nat, n: nat) returns (k: nat, sums: seq<string>)
    requires n <= |batches| && Rolled(m, model, previous, batches[..n], maxSummary).None?
    ensures SpoiltAt(m, model, previous, batches, maxSummary, k, sums)
  {
    assert n > 0;
    var before := batches[..n - 1];
    assert batches[..n][..n - 1] == before;
    if Rolled(m, model, previous, before, maxSummary).None? {
      k, sums := SpoiltIs(m, model, previous, batches, maxSummary, n - 1);
    } else {
      k := n - 1;
      sums := RolledIs(m, model, previous, before, maxSummary);
      Spoils(m, model, previous, batches, maxSummary, k, sums);
    }
  }

  lemma RolledTo(m: Measure, model: Model, previous: string, batches: seq<seq<Record>>, maxSummary: nat)
    requires maxSummary > m(SummaryMessage(""))
    ensures RollsTo(m, model, previous, batches, maxSummary, Rolled(m, model, previous, batches, maxSummary))
  {
    if Rolled(m, model, previous, batches, maxSummary).Some? {
      var sums := RolledIs(m, model, previous, batches, maxSummary);
    } else {
      assert batches[..|batches|] == batches;
      var k, sums := SpoiltIs(m, model, previous, batches, maxSummary, |batches|);
    }
  }

  lemma {:induction false} SpoiltBatch(m: Measure, model: Model, previous: string, batches: seq<seq<Record>>,
          maxSummary: nat, k: nat)
    requires k <= |batches| && Rolled(m, model, previous, batches[..k], maxSummary).None?
    ensures Rolled(m, model, previous, batches, maxSummary).None?
    decreases |batches|
  {
    if k == |batches| {
      assert batches[..k] == batches;
    } else {
      assert batches[..|batches| - 1][..k] == batches[..k];
      SpoiltBatch(m, model, previous, batches[..|batches| - 1], maxSummary, k);
    }
  }
}
