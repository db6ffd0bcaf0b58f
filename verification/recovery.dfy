/** Writes put before a crash, and the superstep that starts again from them. */
module Recovery {
  import opened Channels
  import opened TaskOrder
  import opened Supersteps
  import Lists

  type TaskId = string

  const NULL_TASK_ID: TaskId := "00000000-0000-0000-0000-000000000000"

  datatype Pending = Pending(tid: TaskId, channel: ChannelName, value: Value)

  /** A batch of only such writes keeps the last one for each name. */
  predicate Special(c: ChannelName) { c.Control? && (c.control.Error? || c.control.Interrupt? || c.control.Resume?) }

  /** Signals that are not given back to a task. */
  predicate Signal(c: ChannelName) { Special(c) || c == Control(ErrorSourceNode) }

  function LastFor(ws: seq<Write>, c: ChannelName): Value
    requires exists w <- ws :: w.0 == c
  {
    if ws[|ws| - 1].0 == c then ws[|ws| - 1].1
    else
      assert exists w <- ws[..|ws| - 1] :: w.0 == c by {
        var w :| w in ws && w.0 == c;
        assert w in ws[..|ws| - 1];
      }
      LastFor(ws[..|ws| - 1], c)
  }

  function Without(ws: seq<Write>, c: ChannelName): (r: seq<Write>)
    ensures |r| <= |ws| && forall w <- r :: w in ws && w.0 != c
  {
    if ws == [] then [] else (if ws[0].0 == c then [] else [ws[0]]) + Without(ws[1..], c)
  }

  /** One write for each name, where it first occurs, with the value it has last. */
  function LastPerName(ws: seq<Write>): (r: seq<Write>)
    ensures (forall w <- ws :: Special(w.0)) ==> forall w <- r :: Special(w.0)
    ensures r == [] <==> ws == []
    decreases |ws|
  {
    if ws == [] then []
    else
      assert ws[0] in ws;
      [(ws[0].0, LastFor(ws, ws[0].0))] + LastPerName(Without(ws[1..], ws[0].0))
  }

  function Deduplicated(ws: seq<Write>): seq<Write> {
    if forall w <- ws :: Special(w.0) then LastPerName(ws) else ws
  }

  function Tagged(tid: TaskId, ws: seq<Write>): seq<Pending> {
    if ws == [] then [] else [Pending(tid, ws[0].0, ws[0].1)] + Tagged(tid, ws[1..])
  }

  function Kept(pending: seq<Pending>, tid: TaskId): seq<Pending> {
    if pending == [] then [] else KeptOne(pending[0], tid) + Kept(pending[1..], tid)
  }

  function KeptOne(p: Pending, tid: TaskId): seq<Pending> {
    if p.tid != tid || (tid == NULL_TASK_ID && !Special(p.channel)) then [p] else []
  }

  /** New writes of a task replace its old ones; those of no task add up. */
  function Put(pending: seq<Pending>, tid: TaskId, ws: seq<Write>): seq<Pending> {
    if ws == [] then pending else Kept(pending, tid) + Tagged(tid, Deduplicated(ws))
  }

  function WritesOf(pending: seq<Pending>, tid: TaskId): seq<Write> {
    if pending == [] then []
    else (if pending[0].tid == tid then [(pending[0].channel, pending[0].value)] else []) + WritesOf(pending[1..], tid)
  }

  function Visible(ws: seq<Write>): seq<Write> {
    if ws == [] then [] else (if Signal(ws[0].0) then [] else [ws[0]]) + Visible(ws[1..])
  }

  // ---------------------------------------------------------------- the loop's part

  class PregelLoop {
    var pending: seq<Pending>

    constructor (saved: seq<Pending>)
      ensures pending == saved
    {
      pending := saved;
    }

    method PutWrites(tid: TaskId, writes: seq<Write>)
      modifies this
      ensures pending == Put(old(pending), tid, writes)
      ensures writes == [] ==> pending == old(pending)
      ensures writes != [] ==> exists kept, put :: (
        && Lists.Picked(old(pending), p => Stays(p, tid), Lists.Itself, kept)
        && pending == kept + put && PutAs(tid, writes, put))
    {
      if |writes| == 0 { return; }
      var ws := Deduplicated(writes);
      var kept: seq<Pending> := [];
      for i := 0 to |pending|
        invariant pending == old(pending)
        invariant kept == Kept(pending[..i], tid)
      {
        KeptSplit(pending[..i], pending[i], tid);
        assert pending[..i + 1] == pending[..i] + [pending[i]];
        if pending[i].tid != tid || (tid == NULL_TASK_ID && !Special(pending[i].channel)) {
          kept := kept + [pending[i]];
        }
      }
      assert pending[..|pending|] == pending;
      KeptPicked(pending, tid);
      PutsAs(tid, writes);
      pending := kept + Tagged(tid, ws);
    }

    /** Gives every known task the writes that were put for it, except signals. */
    method ReapplyWrites(tasks: map<TaskId, seq<Write>>) returns (restored: map<TaskId, seq<Write>>)
      ensures GivenBack(tasks, restored, pending)
      ensures restored.Keys == tasks.Keys
      ensures forall tid <- tasks :: exists back :: OwnWrites(pending, tid, back) && restored[tid] == tasks[tid] + back
    {
      restored := tasks;
      for i := 0 to |pending|
        invariant GivenBack(tasks, restored, pending[..i])
      {
        var p := pending[i];
        assert pending[..i + 1] == pending[..i] + [p];
        GiveBackOne(tasks, restored, pending[..i], p);
        if !Signal(p.channel) && p.tid in restored {
          restored := restored[p.tid := restored[p.tid] + [(p.channel, p.value)]];
        }
      }
      assert pending[..|pending|] == pending;
      forall tid <- tasks ensures OwnWrites(pending, tid, Visible(WritesOf(pending, tid))) { VisiblePicked(pending,
        tid); }
    }
  }

  /** A task's own writes in the order in which they were put, without those to the four names
      that only signal. */
  ghost predicate OwnWrites(ps: seq<Pending>, tid: TaskId, back: seq<Write>) {
    Lists.Picked(ps, p => IsOwn(p, tid), Shown, back)
  }

  predicate IsOwn(p: Pending, tid: TaskId) {
    && p.tid == tid && p.channel != Control(Error) && p.channel != Control(ErrorSourceNode)
    && p.channel != Control(Interrupt) && p.channel != Control(Resume)
  }

  function Shown(p: Pending): Write { (p.channel, p.value) }

  lemma {:induction false} VisiblePicked(ps: seq<Pending>, tid: TaskId)
    ensures OwnWrites(ps, tid, Visible(WritesOf(ps, tid)))
  {
    var keep := p => IsOwn(p, tid);
    if ps == [] {
      Lists.PickedNone(keep, Shown);
    } else {
      var before, p := ps[..|ps| - 1], ps[|ps| - 1];
      VisiblePicked(before, tid);
      OneMoreOwn(before, p, tid, Visible(WritesOf(before, tid)));
      RestoreSplit(before, p, tid);
      Lists.LastOff(ps);
    }
  }

  lemma OneMoreOwn(ps: seq<Pending>, p: Pending, tid: TaskId, back: seq<Write>)
    requires OwnWrites(ps, tid, back)
    ensures OwnWrites(ps + [p], tid, back + if p.tid == tid && !Signal(p.channel) then [(p.channel, p.value)] else [])
  {
    Lists.PickedMore(ps, p => IsOwn(p, tid), Shown, back, p);
    assert IsOwn(p, tid) <==> p.tid == tid && !Signal(p.channel);
    assert back + [] == back;
  }

  ghost predicate GivenBack(tasks: map<TaskId, seq<Write>>, restored: map<TaskId, seq<Write>>, ps: seq<Pending>) {
    restored.Keys == tasks.Keys && forall tid <- tasks :: restored[tid] == tasks[tid] + Visible(WritesOf(ps, tid))
  }

  lemma GiveBackOne(tasks: map<TaskId, seq<Write>>, restored: map<TaskId, seq<Write>>, ps: seq<Pending>, p: Pending)
    requires GivenBack(tasks, restored, ps)
    ensures GivenBack(tasks, if !Signal(p.channel) && p.tid in restored then
      restored[p.tid := restored[p.tid] + [(p.channel, p.value)]] else restored, ps + [p])
  {
    var w := (p.channel, p.value);
    var after := if !Signal(p.channel) && p.tid in restored then restored[p.tid := restored[p.tid] + [w]] else restored;
    forall tid <- tasks ensures after[tid] == tasks[tid] + Visible(WritesOf(ps + [p], tid)) {
      GivenOne(tasks[tid], ps, p, tid);
    }
  }

  lemma GivenOne(own: seq<Write>, ps: seq<Pending>, p: Pending, tid: TaskId)
    ensures own + Visible(WritesOf(ps + [p], tid)) ==
      if p.tid == tid && !Signal(p.channel) then own + Visible(WritesOf(ps, tid)) + [(p.channel, p.value)]
      else own + Visible(WritesOf(ps, tid))
  {
    RestoreSplit(ps, p, tid);
    Lists.Assoc(own, Visible(WritesOf(ps, tid)), [(p.channel, p.value)]);
    assert Visible(WritesOf(ps, tid)) + [] == Visible(WritesOf(ps, tid));
  }

  lemma {:induction false} KeptSplit(ps: seq<Pending>, p: Pending, tid: TaskId)
    ensures Kept(ps + [p], tid) == Kept(ps, tid) + (if p.tid != tid ||
      (tid == NULL_TASK_ID && !Special(p.channel)) then [p] else [])
  {
    if ps == [] {
      assert [] + [p] == [p] && [p][1..] == [];
    } else {
      assert (ps + [p])[1..] == ps[1..] + [p];
      KeptSplit(ps[1..], p, tid);
    }
  }

  /** An old write stays if it is of another task, or of no task and to a name of a state. */
  predicate Stays(p: Pending, tid: TaskId) {
    p.tid != tid || (tid == NULL_TASK_ID && p.channel != Control(Error) && p.channel != Control(Interrupt) &&
                     p.channel != Control(Resume))
  }

  lemma {:induction false} KeptPicked(ps: seq<Pending>, tid: TaskId)
    ensures Lists.Picked(ps, p => Stays(p, tid), Lists.Itself, Kept(ps, tid))
  {
    var keep := p => Stays(p, tid);
    if ps == [] {
      Lists.PickedNone(keep, Lists.Itself);
    } else {
      var before, p := ps[..|ps| - 1], ps[|ps| - 1];
      KeptPicked(before, tid);
      OneMoreStays(before, p, tid, Kept(before, tid));
      KeptSplit(before, p, tid);
      Lists.LastOff(ps);
    }
  }

  lemma OneMoreStays(ps: seq<Pending>, p: Pending, tid: TaskId, kept: seq<Pending>)
    requires Lists.Picked(ps, p => Stays(p, tid), Lists.Itself, kept)
    ensures Lists.Picked(ps + [p], p => Stays(p, tid), Lists.Itself,
                         kept + if p.tid != tid || (tid == NULL_TASK_ID && !Special(p.channel)) then [p] else [])
  {
    Lists.PickedMore(ps, p => Stays(p, tid), Lists.Itself, kept, p);
    assert kept + [] == kept;
  }

  /** The last write to its name. */
  predicate LastTo(ws: seq<Write>, w: Write) {
    exists k :: 0 <= k < |ws| && ws[k] == w && forall m :: k < m < |ws| ==> ws[m].0 != w.0
  }

  predicate OnePerName(ws: seq<Write>) { forall i, j :: 0 <= i < j < |ws| ==> ws[i].0 != ws[j].0 }

  lemma {:induction false} WithoutKeeps(ws: seq<Write>, c: ChannelName, v: Write)
    requires v in ws && v.0 != c
    ensures v in Without(ws, c)
  {
    if ws[0] != v { WithoutKeeps(ws[1..], c, v); }
  }

  lemma {:induction false} WithoutLast(ws: seq<Write>, c: ChannelName, w: Write)
    requires w.0 != c
    ensures LastTo(Without(ws, c), w) <==> LastTo(ws, w)
  {
    if ws != [] {
      WithoutLast(ws[1..], c, w);
      LastBehind(ws[0], ws[1..], w);
      assert [ws[0]] + ws[1..] == ws;
      LastBehind(ws[0], Without(ws[1..], c), w);
      assert [] + Without(ws[1..], c) == Without(ws[1..], c);
      forall v | v in ws[1..] && v.0 == w.0 ensures v in Without(ws[1..], c) { WithoutKeeps(ws[1..], c, v); }
    }
  }

  lemma LastBehind(x: Write, ws: seq<Write>, w: Write)
    ensures LastTo([x] + ws, w) <==> LastTo(ws, w) || (x == w && forall v <- ws :: v.0 != w.0)
  {
    var all := [x] + ws;
    if k :| 0 <= k < |ws| && ws[k] == w && forall m :: k < m < |ws| ==> ws[m].0 != w.0 {
      assert all[k + 1] == w;
      forall m | k + 1 < m < |all| ensures all[m].0 != w.0 { assert all[m] == ws[m - 1]; }
    }
    if x == w && forall v <- ws :: v.0 != w.0 {
      assert all[0] == w;
      forall m | 0 < m < |all| ensures all[m].0 != w.0 { assert all[m] == ws[m - 1]; }
    }
    if k :| 0 <= k < |all| && all[k] == w && forall m :: k < m < |all| ==> all[m].0 != w.0 {
      if k > 0 {
        assert ws[k - 1] == w;
        forall m | k - 1 < m < |ws| ensures ws[m].0 != w.0 { assert ws[m] == all[m + 1]; }
      } else {
        forall v <- ws ensures v.0 != w.0 {
          var m :| 0 <= m < |ws| && ws[m] == v;
          assert all[m + 1] == v;
        }
      }
    }
  }

  lemma {:induction false} LastForIs(ws: seq<Write>, c: ChannelName, v: Value)
    requires exists w <- ws :: w.0 == c
    ensures LastTo(ws, (c, v)) <==> v == LastFor(ws, c)
  {
    var n := |ws| - 1;
    if ws[n].0 == c {
      assert ws[n] == (c, ws[n].1);
    } else {
      var w :| w in ws && w.0 == c;
      assert w in ws[..n];
      LastForIs(ws[..n], c, v);
      if k :| 0 <= k < n && ws[..n][k] == (c, v) && forall m :: k < m < n ==> ws[..n][m].0 != c {
        assert ws[k] == (c, v);
        forall m | k < m < |ws| ensures ws[m].0 != c { assert m < n ==> ws[m] == ws[..n][m]; }
      }
      if k :| 0 <= k < |ws| && ws[k] == (c, v) && forall m :: k < m < |ws| ==> ws[m].0 != c {
        assert ws[..n][k] == (c, v);
      }
    }
  }

  /** A batch of special names keeps one write for each, the last. */
  lemma {:induction false} LastPerNameIs(ws: seq<Write>, w: Write)
    ensures w in LastPerName(ws) <==> LastTo(ws, w)
    decreases |ws|
  {
    if ws != [] {
      var c := ws[0].0;
      assert ws[0] in ws;
      LastPerNameIs(Without(ws[1..], c), w);
      if w.0 == c {
        LastForIs(ws, c, w.1);
        assert w !in LastPerName(Without(ws[1..], c)) by { NamesStay(Without(ws[1..], c), w); }
      } else {
        WithoutLast(ws[1..], c, w);
        LastBehind(ws[0], ws[1..], w);
        assert [ws[0]] + ws[1..] == ws;
      }
    }
  }

  lemma {:induction false} NamesStay(ws: seq<Write>, w: Write)
    ensures w in LastPerName(ws) ==> exists v <- ws :: v.0 == w.0
    decreases |ws|
  {
    if ws != [] {
      assert ws[0] in ws;
      NamesStay(Without(ws[1..], ws[0].0), w);
    }
  }

  lemma {:induction false} LastPerNameOnce(ws: seq<Write>)
    ensures OnePerName(LastPerName(ws))
    decreases |ws|
  {
    if ws != [] {
      assert ws[0] in ws;
      var rest := LastPerName(Without(ws[1..], ws[0].0));
      LastPerNameOnce(Without(ws[1..], ws[0].0));
      forall j | 0 <= j < |rest| ensures rest[j].0 != ws[0].0 { NamesStay(Without(ws[1..], ws[0].0), rest[j]); }
    }
  }

  /** What is put for a task: its writes, or one for each name if all names are special. */
  ghost predicate PutAs(tid: TaskId, ws: seq<Write>, put: seq<Pending>) {
    && (forall p <- put :: p.tid == tid)
    && GivenAs(ws, WritesOf(put, tid))
  }

  ghost predicate GivenAs(ws: seq<Write>, given: seq<Write>) {
    if forall w <- ws :: w.0 in {Control(Error), Control(Interrupt), Control(Resume)}
    then OnePerName(given) && forall w :: w in given <==> LastTo(ws, w)
    else given == ws
  }

  lemma PutsAs(tid: TaskId, ws: seq<Write>)
    ensures PutAs(tid, ws, Tagged(tid, Deduplicated(ws)))
  {
    TaggedBack(tid, Deduplicated(ws), tid);
    TaggedAll(tid, Deduplicated(ws));
    DeduplicatedIs(ws);
  }

  lemma DeduplicatedIs(ws: seq<Write>)
    ensures GivenAs(ws, Deduplicated(ws))
  {
    LastPerNameOnce(ws);
    forall w ensures w in LastPerName(ws) <==> LastTo(ws, w) { LastPerNameIs(ws, w); }
  }

  lemma {:induction false} TaggedAll(tid: TaskId, ws: seq<Write>)
    ensures forall p <- Tagged(tid, ws) :: p.tid == tid
  {
    if ws != [] { TaggedAll(tid, ws[1..]); }
  }

  lemma {:induction false} WritesOfConcat(a: seq<Pending>, b: seq<Pending>, tid: TaskId)
    ensures WritesOf(a + b, tid) == WritesOf(a, tid) + WritesOf(b, tid)
  {
    if a == [] {
      assert a + b == b;
    } else {
      assert (a + b)[0] == a[0] && (a + b)[1..] == a[1..] + b;
      WritesOfConcat(a[1..], b, tid);
      var head: seq<Write> := if a[0].tid == tid then [(a[0].channel, a[0].value)] else [];
      assert WritesOf(a + b, tid) == head + (WritesOf(a[1..], tid) + WritesOf(b, tid));
      assert head + (WritesOf(a[1..], tid) + WritesOf(b, tid)) == (head + WritesOf(a[1..], tid)) + WritesOf(b, tid);
    }
  }

  lemma {:induction false} VisibleConcat(a: seq<Write>, b: seq<Write>)
    ensures Visible(a + b) == Visible(a) + Visible(b)
  {
    if a == [] {
      assert a + b == b;
    } else {
      assert (a + b)[0] == a[0] && (a + b)[1..] == a[1..] + b;
      VisibleConcat(a[1..], b);
      var head: seq<Write> := if Signal(a[0].0) then [] else [a[0]];
      assert head + (Visible(a[1..]) + Visible(b)) == (head + Visible(a[1..])) + Visible(b);
    }
  }

  lemma RestoreSplit(ps: seq<Pending>, p: Pending, tid: TaskId)
    ensures Visible(WritesOf(ps + [p], tid)) ==
      Visible(WritesOf(ps, tid)) + (if p.tid == tid && !Signal(p.channel) then [(p.channel, p.value)] else [])
  {
    WritesOfConcat(ps, [p], tid);
    assert [p][1..] == [];
    var w: seq<Write> := if p.tid == tid then [(p.channel, p.value)] else [];
    assert WritesOf([p], tid) == w;
    VisibleConcat(WritesOf(ps, tid), w);
    assert |w| == 1 ==> w[1..] == [];
  }

  // ---------------------------------------------------------------- what is left of a superstep

  /** How the runner commits a task. A task that wrote nothing is marked; one that failed has
      what it wrote until then saved together with the error. */
  datatype Event =
    | Succeeded(tid: TaskId)
    | Paused(tid: TaskId, interrupt: Value, resumes: seq<Value>)
    | Failed(tid: TaskId, partial: seq<Write>, error: Value)

  function Marked(ws: seq<Write>): seq<Write> { if ws == [] then [(Control(NoWrites), Null)] else ws }

  function ResumeWrites(vs: seq<Value>): seq<Write> {
    if vs == [] then [] else [(Control(Resume), vs[0])] + ResumeWrites(vs[1..])
  }

  function Committed(e: Event, work: map<TaskId, seq<Write>>): seq<Write> {
    match e
    case Succeeded(tid) => if tid in work then Marked(work[tid]) else []
    case Paused(_, v, resumes) => [(Control(Interrupt), v)] + ResumeWrites(resumes)
    case Failed(_, partial, error) => partial + [(Control(Error), error)]
  }

  function PendingAfter(events: seq<Event>, work: map<TaskId, seq<Write>>): seq<Pending> {
    if events == [] then []
    else
      var e := events[|events| - 1];
      Put(PendingAfter(events[..|events| - 1], work), e.tid, Committed(e, work))
  }

  function LastEvent(events: seq<Event>, tid: TaskId): Option<Event> {
    if events == [] then None
    else if events[|events| - 1].tid == tid then Some(events[|events| - 1])
    else LastEvent(events[..|events| - 1], tid)
  }

  lemma {:induction false} TaggedBack(tid: TaskId, ws: seq<Write>, other: TaskId)
    ensures WritesOf(Tagged(tid, ws), other) == if other == tid then ws else []
  {
    if ws != [] {
      TaggedBack(tid, ws[1..], other);
      assert Tagged(tid, ws)[1..] == Tagged(tid, ws[1..]);
      assert ws == [ws[0]] + ws[1..];
    }
  }

  lemma {:induction false} KeptWrites(ps: seq<Pending>, tid: TaskId, other: TaskId)
    requires tid != NULL_TASK_ID
    ensures WritesOf(Kept(ps, tid), other) == if other == tid then [] else WritesOf(ps, other)
  {
    if ps != [] {
      KeptWrites(ps[1..], tid, other);
      var head := if ps[0].tid != tid then [ps[0]] else [];
      WritesOfConcat(head, Kept(ps[1..], tid), other);
      assert |head| == 1 ==> head[1..] == [];
    }
  }

  lemma PutWrites(ps: seq<Pending>, tid: TaskId, ws: seq<Write>, other: TaskId)
    requires tid != NULL_TASK_ID && ws != []
    ensures WritesOf(Put(ps, tid, ws), other) == if other == tid then Deduplicated(ws) else WritesOf(ps, other)
  {
    WritesOfConcat(Kept(ps, tid), Tagged(tid, Deduplicated(ws)), other);
    KeptWrites(ps, tid, other);
    TaggedBack(tid, Deduplicated(ws), other);
  }

  ghost predicate RealTasks(events: seq<Event>, work: map<TaskId, seq<Write>>) {
    NULL_TASK_ID !in work && forall e <- events :: e.tid in work
  }

  /** Only the last commit of a task is left of it. */
  lemma {:induction false} LastCommitStays(events: seq<Event>, work: map<TaskId, seq<Write>>, tid: TaskId)
    requires RealTasks(events, work)
    ensures WritesOf(PendingAfter(events, work), tid) ==
      match LastEvent(events, tid) case None => [] case Some(e) => Deduplicated(Committed(e, work))
  {
    if events != [] {
      var before, e := events[..|events| - 1], events[|events| - 1];
      LastCommitStays(before, work, tid);
      PutWrites(PendingAfter(before, work), e.tid, Committed(e, work), tid);
    }
  }

  lemma {:induction false} VisibleNone(ws: seq<Write>)
    requires forall w <- ws :: Signal(w.0)
    ensures Visible(ws) == []
  {
    if ws != [] { VisibleNone(ws[1..]); }
  }

  lemma VisibleDeduplicated(ws: seq<Write>)
    ensures Visible(Deduplicated(ws)) == Visible(ws)
  {
    if forall w <- ws :: Special(w.0) {
      VisibleNone(ws);
      VisibleNone(LastPerName(ws));
    }
  }

  lemma {:induction false} ResumesAreSignals(vs: seq<Value>)
    ensures forall w <- ResumeWrites(vs) :: Signal(w.0)
  {
    if vs != [] { ResumesAreSignals(vs[1..]); }
  }

  function Restored(events: seq<Event>, work: map<TaskId, seq<Write>>, tid: TaskId): seq<Write> {
    Visible(WritesOf(PendingAfter(events, work), tid))
  }

  /** What a task is given back: all its visible writes if it succeeded, nothing if it was
      paused or never committed, and its partial writes if it failed. */
  lemma RestoredIs(events: seq<Event>, work: map<TaskId, seq<Write>>, tid: TaskId)
    requires RealTasks(events, work) && tid in work
    ensures Restored(events, work, tid) ==
      match LastEvent(events, tid)
      case None => []
      case Some(Succeeded(_)) => Visible(Marked(work[tid]))
      case Some(Paused(_, _, _)) => []
      case Some(Failed(_, partial, _)) => Visible(partial)
  {
    LastCommitStays(events, work, tid);
    LastEventTid(events, tid);
    match LastEvent(events, tid)
    case None =>
    case Some(e) =>
      VisibleDeduplicated(Committed(e, work));
      match e
      case Succeeded(_) =>
      case Paused(_, v, resumes) =>
        ResumesAreSignals(resumes);
        VisibleNone(Committed(e, work));
      case Failed(_, partial, error) =>
        VisibleConcat(partial, [(Control(Error), error)]);
        VisibleNone([(Control(Error), error)]);
  }

  lemma {:induction false} LastEventTid(events: seq<Event>, tid: TaskId)
    ensures LastEvent(events, tid).Some? ==> LastEvent(events, tid).value.tid == tid
  {
    if events != [] { LastEventTid(events[..|events| - 1], tid); }
  }

  lemma {:induction false} ResumeLast(vs: seq<Value>, w: Write)
    ensures LastTo(ResumeWrites(vs), w) <==> vs != [] && w == (Control(Resume), vs[|vs| - 1])
    ensures |ResumeWrites(vs)| == |vs| && forall x <- ResumeWrites(vs) :: x.0 == Control(Resume)
  {
    if vs != [] {
      ResumeLast(vs[1..], w);
      LastBehind((Control(Resume), vs[0]), ResumeWrites(vs[1..]), w);
      if |vs| > 1 { assert ResumeWrites(vs[1..])[0] in ResumeWrites(vs[1..]); }
    }
  }

  /** Of a paused task its question is left, and the last of the values it was resumed with. */
  lemma PausedKeeps(events: seq<Event>, work: map<TaskId, seq<Write>>, tid: TaskId, question: Value,
          resumes: seq<Value>, w: Write)
    requires RealTasks(events, work) && LastEvent(events, tid) == Some(Paused(tid, question, resumes))
    ensures w in WritesOf(PendingAfter(events, work), tid) <==>
      w == (Control(Interrupt), question) || (resumes != [] && w == (Control(Resume), resumes[|resumes| - 1]))
  {
    LastCommitStays(events, work, tid);
    QuestionAndResume(question, resumes, w);
  }

  lemma QuestionAndResume(question: Value, resumes: seq<Value>, w: Write)
    ensures w in Deduplicated([(Control(Interrupt), question)] + ResumeWrites(resumes)) <==>
      w == (Control(Interrupt), question) || (resumes != [] && w == (Control(Resume), resumes[|resumes| - 1]))
  {
    var ws := [(Control(Interrupt), question)] + ResumeWrites(resumes);
    ResumeLast(resumes, w);
    assert forall x <- ws :: Special(x.0);
    LastPerNameIs(ws, w);
    LastBehind((Control(Interrupt), question), ResumeWrites(resumes), w);
  }

  /** Of a failed one what it wrote to the state is left, and its error behind it. */
  lemma FailedKeeps(events: seq<Event>, work: map<TaskId, seq<Write>>, tid: TaskId, partial: seq<Write>, error: Value)
    requires RealTasks(events, work) && LastEvent(events, tid) == Some(Failed(tid, partial, error))
    requires exists w <- partial :: !w.0.Control?
    ensures WritesOf(PendingAfter(events, work), tid) == partial + [(Control(Error), error)]
  {
    LastCommitStays(events, work, tid);
    var w :| w in partial && !w.0.Control?;
    assert w in partial + [(Control(Error), error)];
  }

  /** The runner skips a task that already has writes and runs the others again. */
  function WritesAfterRestart(events: seq<Event>, work: map<TaskId, seq<Write>>, tid: TaskId): seq<Write>
    requires tid in work
  {
    var restored := Restored(events, work, tid);
    if restored == [] then Marked(work[tid]) else restored
  }

  /** A failed task is run again exactly if it failed before it wrote anything visible. */
  lemma FailedRunsAgain(events: seq<Event>, work: map<TaskId, seq<Write>>, tid: TaskId)
    requires RealTasks(events, work) && tid in work
    requires LastEvent(events, tid).Some? && LastEvent(events, tid).value.Failed?
    ensures Restored(events, work, tid) == [] <==> Visible(LastEvent(events, tid).value.partial) == []
  {
    RestoredIs(events, work, tid);
  }

  // ---------------------------------------------------------------- which tasks run again

  /** Something was written to a name other than the four that only signal. */
  predicate WroteMore(ws: seq<Write>) {
    exists w <- ws ::
      w.0 != Control(Error) && w.0 != Control(ErrorSourceNode) && w.0 != Control(Interrupt) && w.0 != Control(Resume)
  }

  lemma {:induction false} VisibleMore(ws: seq<Write>)
    ensures Visible(ws) != [] <==> WroteMore(ws)
  {
    if ws != [] {
      assert ws[0] in ws && forall w :: w in ws <==> w == ws[0] || w in ws[1..];
      VisibleMore(ws[1..]);
    }
  }

  /** The runner runs the tasks that have no writes once those put before the crash are given
      back: a task that never committed or was paused; one that failed and had written nothing
      but signals; and one that succeeded, if it wrote something, but nothing but signals. */
  lemma RunsAgainExactly(events: seq<Event>, work: map<TaskId, seq<Write>>, tid: TaskId)
    requires RealTasks(events, work) && tid in work
    ensures Restored(events, work, tid) == [] <==>
      match LastEvent(events, tid)
      case None => true
      case Some(Paused(_, _, _)) => true
      case Some(Failed(_, partial, _)) => !WroteMore(partial)
      case Some(Succeeded(_)) => work[tid] != [] && !WroteMore(work[tid])
  {
    RestoredIs(events, work, tid);
    match LastEvent(events, tid)
    case Some(Failed(_, partial, _)) => VisibleMore(partial);
    case Some(Succeeded(_)) => VisibleMore(Marked(work[tid]));
    case _ =>
  }

  /** So a task that succeeded is not run again, also when it wrote nothing at all. */
  lemma SucceededStaysDone(events: seq<Event>, work: map<TaskId, seq<Write>>, tid: TaskId)
    requires RealTasks(events, work) && tid in work && LastEvent(events, tid) == Some(Succeeded(tid))
    requires work[tid] == [] || WroteMore(work[tid])
    ensures Restored(events, work, tid) != []
  {
    RunsAgainExactly(events, work, tid);
  }

  /** But one that was resumed, and then wrote nothing itself, has the resume value among its
      writes: it is not marked, the value is not given back, and the task runs again. */
  lemma ResumedRunsAgain(tid: TaskId, answer: Value)
    requires tid != NULL_TASK_ID
    ensures var work: map<TaskId, seq<Write>> := map[tid := [(Control(Resume), answer)]];
      RealTasks([Succeeded(tid)], work) && Restored([Succeeded(tid)], work, tid) == []
  {
    var work: map<TaskId, seq<Write>> := map[tid := [(Control(Resume), answer)]];
    var events := [Succeeded(tid)];
    assert LastEvent(events, tid) == Some(Succeeded(tid));
    RunsAgainExactly(events, work, tid);
  }

  /** No task has failed, since it last committed, with visible writes. */
  ghost predicate CleanFailures(events: seq<Event>, work: map<TaskId, seq<Write>>) {
    forall tid <- work :: LastEvent(events, tid).Some? && LastEvent(events, tid).value.Failed? ==>
      Visible(LastEvent(events, tid).value.partial) == []
  }

  // ---------------------------------------------------------------- the restarted superstep

  function TaskOf(t: Task, ws: seq<Write>): Task { t.(writes := ws) }

  lemma {:induction false} VisibleValues(ws: seq<Write>, c: ChannelName)
    requires !c.Control?
    ensures Values(Visible(ws), c) == Values(ws, c)
  {
    if ws != [] {
      VisibleValues(ws[1..], c);
      ValuesConcat(if Signal(ws[0].0) then [] else [ws[0]], Visible(ws[1..]), c);
      assert [ws[0]][1..] == [];
    }
  }

  /** Two tasks that differ at most in signals. */
  ghost predicate Alike(t: Task, u: Task) {
    && t.path == u.path && t.name == u.name && t.triggers == u.triggers
    && forall c: ChannelName :: !c.Control? ==> Values(t.writes, c) == Values(u.writes, c)
  }

  ghost predicate AllAlike(a: seq<Task>, b: seq<Task>) {
    |a| == |b| && forall i :: 0 <= i < |a| ==> Alike(a[i], b[i])
  }

  lemma {:induction false} InsertAlike(t: Task, u: Task, a: seq<Task>, b: seq<Task>)
    requires Alike(t, u) && AllAlike(a, b)
    ensures AllAlike(Insert(t, a), Insert(u, b))
  {
    if a != [] {
      assert Alike(a[0], b[0]);
      InsertAlike(t, u, a[1..], b[1..]);
    }
  }

  lemma {:induction false} SortAlike(a: seq<Task>, b: seq<Task>)
    requires AllAlike(a, b)
    ensures AllAlike(Sort(a), Sort(b))
  {
    if a != [] {
      SortAlike(a[1..], b[1..]);
      InsertAlike(a[0], b[0], Sort(a[1..]), Sort(b[1..]));
    }
  }

  lemma {:induction false} AlikeBatches(a: seq<Task>, b: seq<Task>, c: ChannelName)
    requires AllAlike(a, b) && !c.Control?
    ensures Values(AllWrites(a), c) == Values(AllWrites(b), c)
  {
    if a != [] {
      assert Alike(a[0], b[0]);
      AlikeBatches(a[1..], b[1..], c);
      ValuesConcat(a[0].writes, AllWrites(a[1..]), c);
      ValuesConcat(b[0].writes, AllWrites(b[1..]), c);
    }
  }

  ghost predicate Mirrored(a: seq<Task>, b: seq<Task>) {
    forall t <- a :: exists u <- b :: u.name == t.name && u.triggers == t.triggers
  }

  lemma AlikeMirrored(a: seq<Task>, b: seq<Task>)
    requires AllAlike(a, b)
    ensures Mirrored(a, b)
  {
    forall t <- a ensures exists u <- b :: u.name == t.name && u.triggers == t.triggers {
      var i :| 0 <= i < |a| && a[i] == t;
      assert Alike(a[i], b[i]);
      assert b[i] in b;
    }
  }

  lemma MirroredOneWay(a: seq<Task>, b: seq<Task>)
    requires Mirrored(a, b)
    ensures Names(a) <= Names(b) && (Bumps(a) ==> Bumps(b))
    ensures forall c :: ReadBy(a, c) ==> ReadBy(b, c)
    ensures forall n, c :: ReadAs(a, n, c) ==> ReadAs(b, n, c)
  {}

  lemma AlikeReads(a: seq<Task>, b: seq<Task>)
    requires AllAlike(a, b)
    ensures Names(a) <= Names(b) && (Bumps(a) ==> Bumps(b))
    ensures forall c :: ReadBy(a, c) ==> ReadBy(b, c)
    ensures forall n, c :: ReadAs(a, n, c) ==> ReadAs(b, n, c)
  {
    AlikeMirrored(a, b);
    MirroredOneWay(a, b);
  }

  lemma AlikeSameEffects(a: seq<Task>, b: seq<Task>)
    requires AllAlike(a, b)
    ensures SameEffects(a, b)
  {
    AlikeReads(a, b);
    AlikeReads(b, a);
    SameReads(a, b);
    forall c ensures Batch(a, c) == Batch(b, c) {
      if !c.Control? {
        SortAlike(a, b);
        AlikeBatches(Sort(a), Sort(b), c);
      }
    }
  }

  lemma SameReads(a: seq<Task>, b: seq<Task>)
    requires forall n, c :: ReadAs(a, n, c) == ReadAs(b, n, c)
    ensures forall versions, n :: Read(versions, a, n) == Read(versions, b, n)
  {
    forall versions, n ensures Read(versions, a, n) == Read(versions, b, n) {}
  }

  /** The tasks of a superstep with their ids, once with the writes of an undisturbed run,
      once with those after a crash and restart. */
  function Undisturbed(tasks: seq<(TaskId, Task)>, work: map<TaskId, seq<Write>>): seq<Task>
    requires forall x <- tasks :: x.0 in work
  {
    seq(|tasks|, i requires 0 <= i < |tasks| => assert tasks[i] in tasks; TaskOf(tasks[i].1, Marked(work[tasks[i].0])))
  }

  function Restarted(tasks: seq<(TaskId, Task)>, events: seq<Event>, work: map<TaskId, seq<Write>>): seq<Task>
    requires forall x <- tasks :: x.0 in work
  {
    seq(|tasks|, i requires 0 <= i < |tasks| => assert tasks[i] in tasks; TaskOf(tasks[i].1,
      WritesAfterRestart(events, work, tasks[i].0)))
  }

  lemma RestartedAlike(events: seq<Event>, work: map<TaskId, seq<Write>>, tid: TaskId, t: Task)
    requires RealTasks(events, work) && CleanFailures(events, work) && tid in work
    ensures Alike(TaskOf(t, WritesAfterRestart(events, work, tid)), TaskOf(t, Marked(work[tid])))
  {
    AfterRestartIs(events, work, tid);
    forall c: ChannelName | !c.Control? ensures Values(WritesAfterRestart(events, work, tid), c) ==
      Values(Marked(work[tid]), c) {
      VisibleValues(Marked(work[tid]), c);
    }
  }

  lemma AfterRestartIs(events: seq<Event>, work: map<TaskId, seq<Write>>, tid: TaskId)
    requires RealTasks(events, work) && CleanFailures(events, work) && tid in work
    ensures WritesAfterRestart(events, work, tid) in {Marked(work[tid]), Visible(Marked(work[tid]))}
  {
    RestoredIs(events, work, tid);
  }

  /** Whatever the runner had committed when the run was cut off, in any order and for any
      part of the tasks, giving back those writes and running the tasks left without any
      ends the superstep as if nothing had happened, unless a task had failed half-way. */
  lemma RecoveryRefines(st: Store, triggers: set<ChannelName>, tasks: seq<(TaskId, Task)>, events: seq<Event>,
          work: map<TaskId, seq<Write>>)
    requires RealTasks(events, work) && (forall x <- tasks :: x.0 in work)
    requires CleanFailures(events, work)
    ensures ApplyWrites(st, Restarted(tasks, events, work), triggers) ==
      ApplyWrites(st, Undisturbed(tasks, work), triggers)
  {
    var a, b := Restarted(tasks, events, work), Undisturbed(tasks, work);
    forall i | 0 <= i < |tasks| ensures Alike(a[i], b[i]) {
      assert tasks[i] in tasks;
      RestartedAlike(events, work, tasks[i].0, tasks[i].1);
    }
    AlikeSameEffects(a, b);
    SameOutcome(st, a, b, triggers);
  }

  // ---------------------------------------------------------------- exactly when nothing is lost

  /** A store whose one channel holds on to the batch it was given. */
  function Witness(c: ChannelName): Store {
    Store(map[c := Reducer((total: Value, vals: seq<Value>) => Some(List(vals)), Null)], map[], map[])
  }

  lemma WitnessShows(c: ChannelName, tasks: seq<Task>, triggers: set<ChannelName>)
    requires !c.Control?
    ensures var r, batch := ApplyWrites(Witness(c), tasks, triggers), Batch(tasks, c);
      && r.Done? && c in r.store.channels && r.store.channels[c].Reducer?
      && r.store.channels[c].total == if batch == [] then Null else List(batch)
  {
    assert Staged(Witness(c).channels[c], tasks, c).Some?;
    assert !Refuses(Witness(c).channels, tasks);
    ResultAt(Witness(c), tasks, triggers, c);
  }

  /** A superstep with either list of tasks ends the same from every store. */
  ghost predicate SameForAll(a: seq<Task>, b: seq<Task>) {
    forall st, triggers :: ApplyWrites(st, a, triggers) == ApplyWrites(st, b, triggers)
  }

  ghost predicate SameReaders(a: seq<Task>, b: seq<Task>) {
    && Bumps(a) == Bumps(b) && Names(a) == Names(b)
    && (forall c :: ReadBy(a, c) == ReadBy(b, c))
    && (forall n, c :: ReadAs(a, n, c) == ReadAs(b, n, c))
  }

  lemma OtherBatchShows(a: seq<Task>, b: seq<Task>, c: ChannelName)
    requires Batch(a, c) != Batch(b, c)
    ensures !SameForAll(a, b)
  {
    WitnessShows(c, a, {});
    WitnessShows(c, b, {});
    assert ApplyWrites(Witness(c), a, {}) != ApplyWrites(Witness(c), b, {});
  }

  /** Tasks that read the same make no difference to any store exactly if every channel gets
      the same batch from them. */
  lemma SameForAllExactly(a: seq<Task>, b: seq<Task>)
    requires SameReaders(a, b)
    ensures SameForAll(a, b) <==> forall c :: Batch(a, c) == Batch(b, c)
  {
    if forall c :: Batch(a, c) == Batch(b, c) {
      SameReads(a, b);
      forall st, triggers ensures ApplyWrites(st, a, triggers) == ApplyWrites(st, b, triggers) {
        SameOutcome(st, a, b, triggers);
      }
    } else {
      var c :| Batch(a, c) != Batch(b, c);
      OtherBatchShows(a, b, c);
    }
  }

  // how many values a channel gets

  function Count(tasks: seq<Task>, c: ChannelName): nat {
    if tasks == [] then 0 else |Values(tasks[0].writes, c)| + Count(tasks[1..], c)
  }

  lemma {:induction false} CountWrites(tasks: seq<Task>, c: ChannelName)
    ensures |Values(AllWrites(tasks), c)| == Count(tasks, c)
  {
    if tasks != [] {
      CountWrites(tasks[1..], c);
      ValuesConcat(tasks[0].writes, AllWrites(tasks[1..]), c);
    }
  }

  lemma {:induction false} InsertCount(t: Task, s: seq<Task>, c: ChannelName)
    ensures Count(Insert(t, s), c) == |Values(t.writes, c)| + Count(s, c)
  {
    if s == [] || Le(t, s[0]) {
      assert ([t] + s)[1..] == s;
    } else {
      InsertCount(t, s[1..], c);
      assert Insert(t, s)[1..] == Insert(t, s[1..]);
    }
  }

  lemma {:induction false} SortCount(tasks: seq<Task>, c: ChannelName)
    ensures Count(Sort(tasks), c) == Count(tasks, c)
  {
    if tasks != [] {
      SortCount(tasks[1..], c);
      InsertCount(tasks[0], Sort(tasks[1..]), c);
    }
  }

  lemma BatchCount(tasks: seq<Task>, c: ChannelName)
    requires !c.Control?
    ensures |Batch(tasks, c)| == Count(tasks, c)
  {
    CountWrites(Sort(tasks), c);
    SortCount(tasks, c);
  }

  lemma {:induction false} FewerCount(a: seq<Task>, b: seq<Task>, c: ChannelName, i: nat)
    requires |a| == |b| && i <= |a|
    requires forall k :: 0 <= k < |a| ==> |Values(a[k].writes, c)| <= |Values(b[k].writes, c)|
    requires i < |a| ==> |Values(a[i].writes, c)| < |Values(b[i].writes, c)|
    ensures Count(a, c) <= Count(b, c) && (i < |a| ==> Count(a, c) < Count(b, c))
  {
    if a != [] { FewerCount(a[1..], b[1..], c, if i == 0 then |a| - 1 else i - 1); }
  }

  // what a failed task had left to write

  /** Nodes are deterministic: what a task had written when it failed is the start of its work. */
  ghost predicate PartialWork(events: seq<Event>, work: map<TaskId, seq<Write>>) {
    forall tid <- work :: LastEvent(events, tid).Some? && LastEvent(events, tid).value.Failed? ==>
      LastEvent(events, tid).value.partial <= work[tid]
  }

  /** The task failed after a visible write, so that it is taken as done. */
  predicate HalfDone(events: seq<Event>, tid: TaskId) {
    match LastEvent(events, tid)
    case Some(Failed(_, partial, _)) => Visible(partial) != []
    case _ => false
  }

  /** And had nothing left to write to a channel. */
  predicate NothingLost(events: seq<Event>, work: map<TaskId, seq<Write>>, tid: TaskId)
    requires tid in work
  {
    HalfDone(events, tid) ==>
      forall i :: |LastEvent(events, tid).value.partial| <= i < |work[tid]| ==> work[tid][i].0.Control?
  }

  lemma MarkedValues(ws: seq<Write>, c: ChannelName)
    requires !c.Control?
    ensures Values(Marked(ws), c) == Values(ws, c)
  {
    assert [(Control(NoWrites), Null)][1..] == [];
  }

  lemma RestartValues(events: seq<Event>, work: map<TaskId, seq<Write>>, tid: TaskId, c: ChannelName)
    requires RealTasks(events, work) && tid in work && !c.Control?
    ensures Values(WritesAfterRestart(events, work, tid), c) ==
      if HalfDone(events, tid) then Values(LastEvent(events, tid).value.partial, c) else Values(work[tid], c)
  {
    RestoredIs(events, work, tid);
    MarkedValues(work[tid], c);
    VisibleValues(Marked(work[tid]), c);
    if HalfDone(events, tid) { VisibleValues(LastEvent(events, tid).value.partial, c); }
  }

  lemma {:induction false} NoValues(ws: seq<Write>, c: ChannelName)
    requires forall i :: 0 <= i < |ws| ==> ws[i].0 != c
    ensures Values(ws, c) == []
  {
    if ws != [] { NoValues(ws[1..], c); }
  }

  lemma {:induction false} SomeValue(ws: seq<Write>, i: nat)
    requires i < |ws|
    ensures Values(ws, ws[i].0) != []
  {
    if i > 0 { SomeValue(ws[1..], i - 1); }
  }

  lemma RestValues(partial: seq<Write>, whole: seq<Write>, c: ChannelName)
    requires partial <= whole
    ensures Values(whole, c) == Values(partial, c) + Values(whole[|partial|..], c)
  {
    assert whole == partial + whole[|partial|..];
    ValuesConcat(partial, whole[|partial|..], c);
  }

  /** After the restart a channel gets no more values from a task than undisturbed. */
  lemma NoMoreValues(events: seq<Event>, work: map<TaskId, seq<Write>>, tid: TaskId, c: ChannelName)
    requires RealTasks(events, work) && PartialWork(events, work) && tid in work && !c.Control?
    ensures |Values(WritesAfterRestart(events, work, tid), c)| <= |Values(Marked(work[tid]), c)|
    ensures NothingLost(events, work, tid) ==>
      Values(WritesAfterRestart(events, work, tid), c) == Values(Marked(work[tid]), c)
  {
    RestartValues(events, work, tid, c);
    MarkedValues(work[tid], c);
    if HalfDone(events, tid) {
      var partial := LastEvent(events, tid).value.partial;
      RestValues(partial, work[tid], c);
      if NothingLost(events, work, tid) {
        NoValues(work[tid][|partial|..], c);
        assert Values(partial, c) + [] == Values(partial, c);
      }
    }
  }

  lemma LostWrite(partial: seq<Write>, whole: seq<Write>) returns (c: ChannelName)
    requires partial <= whole && exists i :: |partial| <= i < |whole| && !whole[i].0.Control?
    ensures !c.Control? && |Values(partial, c)| < |Values(whole, c)|
  {
    var i :| |partial| <= i < |whole| && !whole[i].0.Control?;
    c := whole[i].0;
    RestValues(partial, whole, c);
    SomeValue(whole[|partial|..], i - |partial|);
  }

  /** A write lost is missing from its channel's values. */
  lemma LostValues(events: seq<Event>, work: map<TaskId, seq<Write>>, tid: TaskId) returns (c: ChannelName)
    requires RealTasks(events, work) && PartialWork(events, work) && tid in work && !NothingLost(events, work, tid)
    ensures !c.Control?
    ensures |Values(WritesAfterRestart(events, work, tid), c)| < |Values(Marked(work[tid]), c)|
  {
    c := LostWrite(LastEvent(events, tid).value.partial, work[tid]);
    RestartValues(events, work, tid, c);
    MarkedValues(work[tid], c);
  }

  lemma SameTasksRead(tasks: seq<(TaskId, Task)>, events: seq<Event>, work: map<TaskId, seq<Write>>)
    requires forall x <- tasks :: x.0 in work
    ensures SameReaders(Restarted(tasks, events, work), Undisturbed(tasks, work))
  {
    var a, b := Restarted(tasks, events, work), Undisturbed(tasks, work);
    forall i | 0 <= i < |tasks| ensures a[i].name == b[i].name && a[i].triggers == b[i].triggers {
      assert tasks[i] in tasks;
    }
    SameShape(a, b);
    SameShape(b, a);
    MirroredOneWay(a, b);
    MirroredOneWay(b, a);
  }

  lemma SameShape(a: seq<Task>, b: seq<Task>)
    requires |a| == |b| && forall i :: 0 <= i < |a| ==> a[i].name == b[i].name && a[i].triggers == b[i].triggers
    ensures Mirrored(a, b)
  {
    forall t <- a ensures exists u <- b :: u.name == t.name && u.triggers == t.triggers {
      var i :| 0 <= i < |a| && a[i] == t;
      assert b[i] in b;
    }
  }

  lemma LosslessIsSame(tasks: seq<(TaskId, Task)>, events: seq<Event>, work: map<TaskId, seq<Write>>)
    requires RealTasks(events, work) && PartialWork(events, work) && (forall x <- tasks :: x.0 in work)
    requires forall x <- tasks :: NothingLost(events, work, x.0)
    ensures SameForAll(Restarted(tasks, events, work), Undisturbed(tasks, work))
  {
    var a, b := Restarted(tasks, events, work), Undisturbed(tasks, work);
    forall i | 0 <= i < |tasks| ensures Alike(a[i], b[i]) {
      assert tasks[i] in tasks;
      forall c: ChannelName | !c.Control? ensures Values(a[i].writes, c) == Values(b[i].writes, c) {
        NoMoreValues(events, work, tasks[i].0, c);
      }
    }
    AlikeSameEffects(a, b);
    forall st, triggers ensures ApplyWrites(st, a, triggers) == ApplyWrites(st, b, triggers) {
      SameOutcome(st, a, b, triggers);
    }
  }

  lemma LossShows(tasks: seq<(TaskId, Task)>, events: seq<Event>, work: map<TaskId, seq<Write>>, i: nat)
    requires RealTasks(events, work) && PartialWork(events, work) && (forall x <- tasks :: x.0 in work)
    requires i < |tasks| && tasks[i] in tasks && !NothingLost(events, work, tasks[i].0)
    ensures !SameForAll(Restarted(tasks, events, work), Undisturbed(tasks, work))
  {
    var a, b := Restarted(tasks, events, work), Undisturbed(tasks, work);
    var c := LostValues(events, work, tasks[i].0);
    forall k | 0 <= k < |a| ensures |Values(a[k].writes, c)| <= |Values(b[k].writes, c)| {
      assert tasks[k] in tasks;
      NoMoreValues(events, work, tasks[k].0, c);
    }
    FewerCount(a, b, c, i);
    BatchCount(a, c);
    BatchCount(b, c);
    OtherBatchShows(a, b, c);
  }

  /** The restarted superstep ends as the undisturbed one from every store, exactly if no task
      failed after a visible write with writes to channels still to come. */
  lemma RecoveryExactly(tasks: seq<(TaskId, Task)>, events: seq<Event>, work: map<TaskId, seq<Write>>)
    requires RealTasks(events, work) && PartialWork(events, work) && (forall x <- tasks :: x.0 in work)
    ensures SameForAll(Restarted(tasks, events, work), Undisturbed(tasks, work)) <==>
      forall x <- tasks :: NothingLost(events, work, x.0)
  {
    if forall x <- tasks :: NothingLost(events, work, x.0) {
      LosslessIsSame(tasks, events, work);
    } else {
      var i :| 0 <= i < |tasks| && !NothingLost(events, work, tasks[i].0);
      LossShows(tasks, events, work, i);
    }
  }

  /** A task that failed after its first write keeps that write and loses the rest: it is
      not run again, although it never succeeded, and the superstep ends differently. */
  lemma HalfDoneTakenAsDone(tid: TaskId, t: Task, key: string, other: string, v: Value, error: Value)
    requires tid != NULL_TASK_ID && key != other
    ensures var work: map<TaskId, seq<Write>> := map[tid := [(State(key), v), (State(other), v)]];
      var events := [Failed(tid, [(State(key), v)], error)];
      && RealTasks(events, work) && !CleanFailures(events, work)
      && WritesAfterRestart(events, work, tid) == [(State(key), v)]
      && !SameForAll(Restarted([(tid, t)], events, work), Undisturbed([(tid, t)], work))
  {
    var work: map<TaskId, seq<Write>> := map[tid := [(State(key), v), (State(other), v)]];
    var partial: seq<Write> := [(State(key), v)];
    var events := [Failed(tid, partial, error)];
    RestoredIs(events, work, tid);
    assert partial[1..] == [];
    assert Visible(partial) == partial;
    assert LastEvent(events, tid) == Some(events[0]);
    assert !work[tid][1].0.Control?;
    RecoveryExactly([(tid, t)], events, work);
    assert [(tid, t)][0] in [(tid, t)];
  }
}
