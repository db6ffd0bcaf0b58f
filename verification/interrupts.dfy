/** Pausing a node at an interrupt and replaying it from the top with the values it was
    resumed with. */
module Interrupts {
  import opened Channels
  import opened Recovery

  /** What a deterministic node does once its interrupts have returned these values. */
  datatype Reply = Ask(question: Value) | Done(output: seq<Write>)

  type Body = seq<Value> -> Reply

  const RESUME: ChannelName := Control(Resume)

  // ---------------------------------------------------------------- saved writes

  function Find(ps: seq<Pending>, tid: TaskId, c: ChannelName): (p: Option<Pending>)
    ensures p.Some? ==> p.value in ps && p.value.tid == tid && p.value.channel == c
    ensures p.None? ==> forall q <- ps :: !(q.tid == tid && q.channel == c)
  {
    if ps == [] then None
    else if ps[0].tid == tid && ps[0].channel == c then Some(ps[0])
    else Find(ps[1..], tid, c)
  }

  /** At `k` stands the first write of the task to the name. */
  predicate FirstAt(ps: seq<Pending>, tid: TaskId, c: ChannelName, k: nat) {
    k < |ps| && ps[k].tid == tid && ps[k].channel == c &&
    forall i :: 0 <= i < k ==> !(ps[i].tid == tid && ps[i].channel == c)
  }

  lemma {:induction false} FindsFirst(ps: seq<Pending>, tid: TaskId, c: ChannelName)
    ensures Find(ps, tid, c).Some? ==> exists k: nat :: FirstAt(ps, tid, c, k) && ps[k] == Find(ps, tid, c).value
  {
    if ps != [] && !(ps[0].tid == tid && ps[0].channel == c) {
      FindsFirst(ps[1..], tid, c);
      if Find(ps, tid, c).Some? {
        var k: nat :| FirstAt(ps[1..], tid, c, k) && ps[1..][k] == Find(ps, tid, c).value;
        forall i | 0 <= i < k + 1 ensures !(ps[i].tid == tid && ps[i].channel == c) {
          assert i > 0 ==> ps[i] == ps[1..][i - 1];
        }
        assert FirstAt(ps, tid, c, k + 1);
      }
    } else if ps != [] {
      assert FirstAt(ps, tid, c, 0);
    }
  }

  /** What a task is given: the values of its first resume write, none without one. */
  ghost predicate Given(ps: seq<Pending>, tid: TaskId, values: seq<Value>) {
    if exists p <- ps :: p.tid == tid && p.channel == Control(Resume) then
      exists k: nat :: FirstAt(ps, tid, Control(Resume), k) &&
        values == if ps[k].value.List? then ps[k].value.items else [ps[k].value]
    else values == []
  }

  lemma GivenAnswers(ps: seq<Pending>, tid: TaskId)
    ensures Given(ps, tid, AnswersOf(ps, tid))
  {
    FindsFirst(ps, tid, RESUME);
  }

  /** The fresh value is that of the first resume write of no task. */
  ghost predicate GivenFresh(ps: seq<Pending>, v: Option<Value>) {
    if v.None? then forall p <- ps :: !IsFresh(p)
    else exists k: nat :: FirstAt(ps, NULL_TASK_ID, Control(Resume), k) && v == Some(ps[k].value)
  }

  lemma FreshIsGiven(ps: seq<Pending>)
    ensures GivenFresh(ps, FreshOf(ps))
  {
    FindsFirst(ps, NULL_TASK_ID, RESUME);
  }

  /** The resume value given to no task in particular. */
  function FreshOf(ps: seq<Pending>): Option<Value> {
    match Find(ps, NULL_TASK_ID, RESUME) case None => None case Some(p) => Some(p.value)
  }

  /** The values a task has been resumed with. */
  function AnswersOf(ps: seq<Pending>, tid: TaskId): seq<Value> {
    match Find(ps, tid, RESUME)
    case None => []
    case Some(p) => if p.value.List? then p.value.items else [p.value]
  }

  /** The saver keeps one value for each task and special name. */
  function Stored(ps: seq<Pending>, tid: TaskId, ws: seq<Write>): seq<Pending> {
    if ws == [] then ps
    else
      var w := ws[|ws| - 1];
      Replaced(Stored(ps, tid, ws[..|ws| - 1]), tid, w.0) + [Pending(tid, w.0, w.1)]
  }

  function Replaced(ps: seq<Pending>, tid: TaskId, c: ChannelName): seq<Pending> {
    if ps == [] then []
    else (if ps[0].tid == tid && ps[0].channel == c then [] else [ps[0]]) + Replaced(ps[1..], tid, c)
  }

  /** Without the first write equal to `p`. */
  function Removed(ps: seq<Pending>, p: Pending): seq<Pending> {
    if ps == [] then [] else if ps[0] == p then ps[1..] else [ps[0]] + Removed(ps[1..], p)
  }

  ghost predicate OneFresh(ps: seq<Pending>) {
    forall i, j :: 0 <= i < j < |ps| && IsFresh(ps[i]) ==> !IsFresh(ps[j])
  }

  predicate IsFresh(p: Pending) { p.tid == NULL_TASK_ID && p.channel == RESUME }

  lemma {:induction false} RemovedAt(ps: seq<Pending>, p: Pending) returns (i: nat)
    requires p in ps
    ensures i < |ps| && ps[i] == p && Removed(ps, p) == ps[..i] + ps[i + 1..]
  {
    if ps[0] == p {
      i := 0;
    } else {
      i := RemovedAt(ps[1..], p);
      i := i + 1;
    }
  }

  lemma {:induction false} RemovedGone(ps: seq<Pending>, p: Pending)
    requires OneFresh(ps) && IsFresh(p)
    ensures p !in Removed(ps, p)
  {
    if ps != [] && ps[0] != p {
      RemovedGone(ps[1..], p);
    } else if ps != [] {
      assert forall q <- ps[1..] :: !IsFresh(q);
    }
  }

  lemma {:induction false} FindConcat(a: seq<Pending>, b: seq<Pending>, tid: TaskId, c: ChannelName)
    ensures Find(a + b, tid, c) == if Find(a, tid, c).Some? then Find(a, tid, c) else Find(b, tid, c)
  {
    if a == [] {
      assert a + b == b;
    } else {
      assert (a + b)[1..] == a[1..] + b;
      FindConcat(a[1..], b, tid, c);
    }
  }

  lemma {:induction false} FindReplaced(ps: seq<Pending>, tid: TaskId, c: ChannelName, other: TaskId, d: ChannelName)
    ensures Find(Replaced(ps, tid, c), other, d) == if other == tid && d == c then None else Find(ps, other, d)
  {
    if ps != [] {
      FindReplaced(ps[1..], tid, c, other, d);
      var head: seq<Pending> := if ps[0].tid == tid && ps[0].channel == c then [] else [ps[0]];
      FindConcat(head, Replaced(ps[1..], tid, c), other, d);
      assert |head| == 1 ==> head[1..] == [];
    }
  }

  lemma FindStoredOne(ps: seq<Pending>, tid: TaskId, w: Write, other: TaskId, d: ChannelName)
    ensures Find(Replaced(ps, tid, w.0) + [Pending(tid, w.0, w.1)], other, d) ==
      if other == tid && d == w.0 then Some(Pending(tid, w.0, w.1)) else Find(ps, other, d)
  {
    var last := [Pending(tid, w.0, w.1)];
    FindConcat(Replaced(ps, tid, w.0), last, other, d);
    FindReplaced(ps, tid, w.0, other, d);
    assert last[1..] == [];
  }

  lemma {:induction false} ReplacedOneFresh(ps: seq<Pending>, tid: TaskId, c: ChannelName)
    requires OneFresh(ps)
    ensures OneFresh(Replaced(ps, tid, c)) && forall q <- Replaced(ps, tid, c) ::
      q in ps && !(q.tid == tid && q.channel == c)
  {
    if ps != [] { ReplacedOneFresh(ps[1..], tid, c); }
  }

  lemma StoredOneFresh(ps: seq<Pending>, tid: TaskId, w: Write)
    requires OneFresh(ps)
    ensures OneFresh(Replaced(ps, tid, w.0) + [Pending(tid, w.0, w.1)])
  {
    ReplacedOneFresh(ps, tid, w.0);
  }

  lemma {:induction false} StoredAll(ps: seq<Pending>, tid: TaskId, ws: seq<Write>)
    requires OneFresh(ps)
    ensures OneFresh(Stored(ps, tid, ws))
  {
    if ws != [] {
      StoredAll(ps, tid, ws[..|ws| - 1]);
      StoredOneFresh(Stored(ps, tid, ws[..|ws| - 1]), tid, ws[|ws| - 1]);
    }
  }

  /** Putting a resume value for no task replaces the old one and touches no other write. */
  lemma {:induction false} FindKept(ps: seq<Pending>, other: TaskId)
    ensures Find(Kept(ps, NULL_TASK_ID), other, RESUME) == if other == NULL_TASK_ID then None
      else Find(ps, other, RESUME)
    ensures forall q <- Kept(ps, NULL_TASK_ID) :: !IsFresh(q)
  {
    if ps != [] {
      FindKept(ps[1..], other);
      FindConcat(KeptOne(ps[0], NULL_TASK_ID), Kept(ps[1..], NULL_TASK_ID), other, RESUME);
      assert KeptOne(ps[0], NULL_TASK_ID) != [] ==> KeptOne(ps[0], NULL_TASK_ID)[1..] == [];
    }
  }

  lemma PutFresh(ps: seq<Pending>, v: Value, tid: TaskId)
    requires tid != NULL_TASK_ID
    ensures var all := Put(ps, NULL_TASK_ID, [(RESUME, v)]);
            FreshOf(all) == Some(v) && AnswersOf(all, tid) == AnswersOf(ps, tid) && OneFresh(all)
  {
    var ws, last := [(RESUME, v)], [Pending(NULL_TASK_ID, RESUME, v)];
    assert ws[1..] == [] && LastPerName(ws) == ws;
    assert Tagged(NULL_TASK_ID, ws) == last && last[1..] == [];
    FindKept(ps, NULL_TASK_ID);
    FindKept(ps, tid);
    FindConcat(Kept(ps, NULL_TASK_ID), last, NULL_TASK_ID, RESUME);
    FindConcat(Kept(ps, NULL_TASK_ID), last, tid, RESUME);
  }

  // ---------------------------------------------------------------- one replay

  /** What the node receives, replayed behind its first `n` interrupts: the values it had
      before, then the fresh one, once. */
  function Replay(node: Body, resume: seq<Value>, given: Option<Value>, n: nat): (got: seq<Value>)
    requires n <= |resume|
    ensures node(got).Ask? ==> |got| >= |resume|
    decreases |resume| - n, if given.Some? then 1 else 0
  {
    if node(resume[..n]).Done? then resume[..n]
    else if n < |resume| then Replay(node, resume, given, n + 1)
    else if given.Some? then Replay(node, resume + [given.value], None, n + 1)
    else resume[..n]
  }

  class Scratchpad {
    const loop: PregelLoop
    const nullResume: Option<Pending>
    var counter: nat
    var resume: seq<Value>
    var sent: seq<Write>

    /** Finds the resume values among the pending writes. */
    constructor (loop: PregelLoop, tid: TaskId)
      requires OneFresh(loop.pending)
      ensures this.loop == loop && Ready() && counter == 0 && sent == []
      ensures resume == AnswersOf(loop.pending, tid) && Fresh() == FreshOf(loop.pending)
      ensures Given(loop.pending, tid, resume) && GivenFresh(loop.pending, Fresh())
    {
      GivenAnswers(loop.pending, tid);
      FreshIsGiven(loop.pending);
      this.loop := loop;
      nullResume := Find(loop.pending, NULL_TASK_ID, RESUME);
      counter, sent := 0, [];
      resume := AnswersOf(loop.pending, tid);
    }

    ghost predicate Ready()
      reads this, loop
    {
      && counter <= |resume| && OneFresh(loop.pending)
      && (nullResume.Some? ==> IsFresh(nullResume.value))
      && (forall w <- sent :: w.0 == RESUME)
      && (counter > 0 ==> sent != [] && sent[|sent| - 1].1 == List(resume))
      && (sent != [] ==> counter > 0)
    }

    function Fresh(): Option<Value>
      reads this, loop
    {
      if nullResume.Some? && nullResume.value in loop.pending then Some(nullResume.value.value) else None
    }

    /** Takes the fresh value out of the pending writes, if it is still there. */
    method GetNullResume(consume: bool) returns (v: Option<Value>)
      requires OneFresh(loop.pending) && (nullResume.Some? ==> IsFresh(nullResume.value))
      modifies loop
      ensures consume ==> v == old(Fresh()) && Fresh() == None && OneFresh(loop.pending)
      ensures consume && v.Some? ==> exists i :: (
        && 0 <= i < |old(loop.pending)| && IsFresh(old(loop.pending)[i]) && v == Some(old(loop.pending)[i].value)
        && loop.pending == old(loop.pending)[..i] + old(loop.pending)[i + 1..])
      ensures consume && v.None? ==> loop.pending == old(loop.pending)
      ensures !consume ==>
        loop.pending == old(loop.pending) && v == match nullResume case None => None case Some(p) => Some(p.value)
    {
      if nullResume.None? { return None; }
      if consume {
        if nullResume.value !in loop.pending { return None; }
        RemovedGone(loop.pending, nullResume.value);
        RemovedOneFresh(loop.pending, nullResume.value);
        ghost var i := RemovedAt(loop.pending, nullResume.value);
        loop.pending := Removed(loop.pending, nullResume.value);
      }
      v := Some(nullResume.value.value);
    }

    /** `None` stands for the pause. */
    method Interrupt() returns (v: Option<Value>)
      requires Ready()
      modifies this, loop
      ensures v.Some? ==> Ready() && counter == old(counter) + 1
      ensures old(counter < |resume|) ==>
        resume == old(resume) && v == Some(resume[old(counter)]) && Fresh() == old(Fresh())
      ensures old(counter == |resume|) && old(Fresh()).Some? ==>
        v == old(Fresh()) && resume == old(resume + [Fresh().value]) && Fresh() == None
      ensures old(counter == |resume|) && old(Fresh()).None? ==> v == None && resume == old(resume) && sent == old(sent)
    {
      var idx := counter;
      counter := counter + 1;
      if resume != [] && idx < |resume| {
        sent := sent + [(RESUME, List(resume))];
        return Some(resume[idx]);
      }
      v := GetNullResume(true);
      if v.Some? {
        assert |resume| == idx;
        resume := resume + [v.value];
        sent := sent + [(RESUME, List(resume))];
      }
    }

    /** Runs the node from the top until it is done or pauses. */
    method Run(node: Body) returns (got: seq<Value>)
      requires Ready() && counter == 0
      modifies this, loop
      ensures got == old(Replay(node, resume, Fresh(), 0))
      ensures forall w <- sent :: w.0 == RESUME
      ensures node(got).Ask? ==> (got == [] <==> sent == []) && (got != [] ==> sent[|sent| - 1].1 == List(got))
    {
      got := [];
      while node(got).Ask?
        invariant Ready() && counter == |got| && got == resume[..counter]
        invariant Replay(node, resume, Fresh(), counter) == old(Replay(node, resume, Fresh(), 0))
        decreases |resume| - counter, if Fresh().Some? then 1 else 0
      {
        ghost var n, list, given := counter, resume, Fresh();
        var v := Interrupt();
        if v.None? {
          assert list[..n] == list;
          return;
        }
        got := got + [v.value];
        assert resume[..counter] == got;
      }
    }
  }

  lemma {:induction false} RemovedOneFresh(ps: seq<Pending>, p: Pending)
    requires OneFresh(ps)
    ensures OneFresh(Removed(ps, p)) && forall q <- Removed(ps, p) :: q in ps
  {
    if ps != [] {
      RemovedOneFresh(ps[1..], p);
      assert IsFresh(ps[0]) ==> forall q <- ps[1..] :: !IsFresh(q);
    }
  }

  // ---------------------------------------------------------------- one invocation

  class Saver {
    var stored: seq<Pending>

    constructor ()
      ensures stored == []
    {
      stored := [];
    }

    method PutWrites(tid: TaskId, ws: seq<Write>)
      requires forall w <- ws :: Special(w.0)
      modifies this
      ensures stored == Stored(old(stored), tid, ws)
    {
      for i := 0 to |ws|
        invariant stored == Stored(old(stored), tid, ws[..i])
      {
        assert ws[..i + 1][..i] == ws[..i];
        stored := Replaced(stored, tid, ws[i].0) + [Pending(tid, ws[i].0, ws[i].1)];
      }
      assert ws[..|ws|] == ws;
    }
  }

  /** The thread between invocations: waiting with these answers and the resume value that is
      still saved, or past the node. */
  datatype Session = Waiting(answers: seq<Value>, saved: Option<Value>) | Finished(received: seq<Value>)

  function After(node: Body, s: Session, input: Option<Value>): Session {
    match s
    case Finished(_) => s
    case Waiting(answers, saved) =>
      var v := if input.Some? then input else saved;
      var got := Replay(node, answers, v, 0);
      if node(got).Done? then Finished(got) else Waiting(got, v)
  }

  function ViewOf(stored: seq<Pending>, tid: TaskId): Session { Waiting(AnswersOf(stored, tid), FreshOf(stored)) }

  lemma {:induction false} LastOfResumes(ws: seq<Write>)
    requires ws != [] && forall w <- ws :: w.0 == RESUME
    ensures LastPerName(ws) == [(RESUME, ws[|ws| - 1].1)]
  {
    assert ws[0] in ws && ws[|ws| - 1] in ws;
    NoOthers(ws[1..], RESUME);
  }

  lemma {:induction false} NoOthers(ws: seq<Write>, c: ChannelName)
    requires forall w <- ws :: w.0 == RESUME
    ensures Without(ws, c) == if c == RESUME then [] else ws
  {
    if ws != [] {
      assert ws[0] in ws && forall w <- ws[1..] :: w in ws;
      NoOthers(ws[1..], c);
    }
  }

  /** A pause saves the question and the latest list of answers. */
  lemma PauseSaved(q: Value, sent: seq<Write>)
    requires forall w <- sent :: w.0 == RESUME
    ensures var ws := [(Control(Interrupt), q)] + sent;
            && (forall w <- ws :: Special(w.0))
            && Deduplicated(ws) == [(Control(Interrupt), q)] +
              (if sent == [] then [] else [(RESUME, sent[|sent| - 1].1)])
  {
    var ws := [(Control(Interrupt), q)] + sent;
    assert ws[1..] == sent;
    NoOthers(sent, Control(Interrupt));
    LastInterrupt(ws);
    if sent != [] { LastOfResumes(sent); }
  }

  lemma {:induction false} LastInterrupt(ws: seq<Write>)
    requires ws != [] && ws[0].0 == Control(Interrupt) && forall w <- ws[1..] :: w.0 == RESUME
    ensures LastFor(ws, Control(Interrupt)) == ws[0].1
  {
    if |ws| > 1 {
      assert ws[|ws| - 1] == ws[1..][|ws| - 2] && ws[|ws| - 1] in ws[1..];
      assert forall w <- ws[..|ws| - 1][1..] :: w in ws[1..];
      LastInterrupt(ws[..|ws| - 1]);
    }
  }

  lemma StoredPause(stored: seq<Pending>, tid: TaskId, q: Value, answer: Option<Value>)
    requires tid != NULL_TASK_ID && OneFresh(stored)
    ensures var ws := [(Control(Interrupt), q)] + (match answer case None => [] case Some(v) => [(RESUME, v)]);
            var all := Stored(stored, tid, ws);
            && OneFresh(all) && FreshOf(all) == FreshOf(stored)
            && AnswersOf(all, tid) == match answer case None => AnswersOf(stored, tid) case Some(v) => if v.List? then
              v.items else [v]
  {
    var w := (Control(Interrupt), q);
    var one := Replaced(stored, tid, w.0) + [Pending(tid, w.0, w.1)];
    assert [w][..0] == [] && Stored(stored, tid, [w]) == one;
    StoredOneFresh(stored, tid, w);
    FindStoredOne(stored, tid, w, tid, RESUME);
    FindStoredOne(stored, tid, w, NULL_TASK_ID, RESUME);
    match answer {
      case None => assert [w] + [] == [w];
      case Some(v) =>
        var r := (RESUME, v);
        assert ([w] + [r])[..1] == [w];
        StoredOneFresh(one, tid, r);
        FindStoredOne(one, tid, r, tid, RESUME);
        FindStoredOne(one, tid, r, NULL_TASK_ID, RESUME);
    }
  }

  lemma StoredFresh(stored: seq<Pending>, v: Value, tid: TaskId)
    requires tid != NULL_TASK_ID && OneFresh(stored)
    ensures var all := Stored(stored, NULL_TASK_ID, [(RESUME, v)]);
            OneFresh(all) && FreshOf(all) == Some(v) && AnswersOf(all, tid) == AnswersOf(stored, tid)
  {
    var w := (RESUME, v);
    assert [w][..0] == [] && Stored(stored, NULL_TASK_ID, [w]) ==
      Replaced(stored, NULL_TASK_ID, RESUME) + [Pending(NULL_TASK_ID, RESUME, v)];
    StoredOneFresh(stored, NULL_TASK_ID, w);
    FindStoredOne(stored, NULL_TASK_ID, w, tid, RESUME);
    FindStoredOne(stored, NULL_TASK_ID, w, NULL_TASK_ID, RESUME);
  }

  /** Loads the saved writes; a new resume value is put and saved under no task. */
  method Begin(saver: Saver, tid: TaskId, input: Option<Value>) returns (loop: PregelLoop)
    requires tid != NULL_TASK_ID && OneFresh(saver.stored)
    modifies saver
    ensures fresh(loop) && OneFresh(loop.pending) && OneFresh(saver.stored)
    ensures FreshOf(loop.pending) == FreshOf(saver.stored) == if input.Some? then input else old(FreshOf(saver.stored))
    ensures AnswersOf(loop.pending, tid) == AnswersOf(saver.stored, tid) == old(AnswersOf(saver.stored, tid))
  {
    loop := new PregelLoop(saver.stored);
    if input.Some? {
      PutFresh(saver.stored, input.value, tid);
      StoredFresh(saver.stored, input.value, tid);
      loop.PutWrites(NULL_TASK_ID, [(RESUME, input.value)]);
      saver.PutWrites(NULL_TASK_ID, [(RESUME, input.value)]);
    }
  }

  /** What the runner commits for a paused task: the question and the answers so far. */
  method Pause(loop: PregelLoop, saver: Saver, tid: TaskId, question: Value, sent: seq<Write>)
    requires tid != NULL_TASK_ID && OneFresh(saver.stored) && forall w <- sent :: w.0 == RESUME
    modifies loop, saver
    ensures OneFresh(saver.stored) && FreshOf(saver.stored) == old(FreshOf(saver.stored))
    ensures sent == [] ==> AnswersOf(saver.stored, tid) == old(AnswersOf(saver.stored, tid))
    ensures sent != [] && sent[|sent| - 1].1.List? ==> AnswersOf(saver.stored, tid) == sent[|sent| - 1].1.items
  {
    var ws := [(Control(Interrupt), question)] + sent;
    PauseSaved(question, sent);
    StoredPause(saver.stored, tid, question, if sent == [] then None else Some(sent[|sent| - 1].1));
    assert [(Control(Interrupt), question)] + [] == [(Control(Interrupt), question)];
    loop.PutWrites(tid, ws);
    saver.PutWrites(tid, Deduplicated(ws));
  }

  /** One invocation of the graph with the node's task pending, `input` being the resume
      value that came with it, if any. Says what the node received. */
  method Invoke(saver: Saver, tid: TaskId, input: Option<Value>, node: Body) returns (got: seq<Value>)
    requires tid != NULL_TASK_ID && OneFresh(saver.stored)
    modifies saver
    ensures OneFresh(saver.stored)
    ensures match old(After(node, ViewOf(saver.stored, tid), input))
            case Finished(vs) => node(got).Done? && got == vs
            case Waiting(vs, v) => node(got).Ask? && got == vs && ViewOf(saver.stored, tid) == Waiting(vs, v)
  {
    ghost var answers := AnswersOf(saver.stored, tid);
    var loop := Begin(saver, tid, input);
    var pad := new Scratchpad(loop, tid);
    got := pad.Run(node);
    if node(got).Ask? {
      assert got == [] ==> answers == [];
      Pause(loop, saver, tid, node(got).question, pad.sent);
    }
  }

  // ---------------------------------------------------------------- whole sessions

  /** The thread after a series of invocations; `None` is one without a resume value. */
  function RunSession(node: Body, inputs: seq<Option<Value>>): Session {
    if inputs == [] then Waiting([], None)
    else After(node, RunSession(node, inputs[..|inputs| - 1]), inputs[|inputs| - 1])
  }

  function Latest(inputs: seq<Option<Value>>): Option<Value> {
    if inputs == [] then None
    else if inputs[|inputs| - 1].Some? then inputs[|inputs| - 1]
    else Latest(inputs[..|inputs| - 1])
  }

  /** What the node should have received: one more value for every invocation, up to the
      point where it stops asking. */
  function Fed(node: Body, inputs: seq<Option<Value>>): seq<Value> {
    if inputs == [] then []
    else
      var vs := Fed(node, inputs[..|inputs| - 1]);
      if node(vs).Done? || Latest(inputs).None? then vs else vs + [Latest(inputs).value]
  }

  ghost predicate Asks(node: Body, vs: seq<Value>, n: nat) {
    n <= |vs| && forall i :: 0 <= i < n ==> node(vs[..i]).Ask?
  }

  lemma {:induction false} ReplayAll(node: Body, vs: seq<Value>, v: Option<Value>, n: nat)
    requires n <= |vs| && Asks(node, vs, |vs|)
    ensures Replay(node, vs, v, n) == if node(vs).Done? || v.None? then vs else vs + [v.value]
    decreases |vs| - n
  {
    assert vs[..|vs|] == vs;
    if n < |vs| {
      ReplayAll(node, vs, v, n + 1);
    } else if v.Some? {
      assert (vs + [v.value])[..n] == vs && (vs + [v.value])[..n + 1] == vs + [v.value];
    }
  }

  /** Replayed from the top after every invocation, the node receives exactly the values of
      `Fed`, in order, and then pauses at the next interrupt or is done. */
  lemma {:induction false} ReplayIsFaithful(node: Body, inputs: seq<Option<Value>>)
    ensures var vs := Fed(node, inputs);
            && Asks(node, vs, |vs|)
            && (inputs != [] && node(vs).Done? ==> RunSession(node, inputs) == Finished(vs))
            && (node(vs).Ask? ==> RunSession(node, inputs) == Waiting(vs, Latest(inputs)))
  {
    if inputs != [] {
      var before := inputs[..|inputs| - 1];
      ReplayIsFaithful(node, before);
      var vs := Fed(node, before);
      var v := Latest(inputs);
      if before == [] || node(vs).Ask? {
        ReplayAll(node, vs, v, 0);
      }
      var all := Fed(node, inputs);
      forall i | 0 <= i < |all| ensures node(all[..i]).Ask? {
        assert all[..i] == if i < |vs| then vs[..i] else vs;
      }
    }
  }

  function Values(inputs: seq<Option<Value>>): seq<Value> {
    if inputs == [] then []
    else Values(inputs[..|inputs| - 1]) + match inputs[|inputs| - 1] case None => [] case Some(v) => [v]
  }

  /** No invocation without a resume value follows one with it. */
  predicate ResumedOnly(inputs: seq<Option<Value>>) {
    forall i, j :: 0 <= i < j < |inputs| && inputs[i].Some? ==> inputs[j].Some?
  }

  lemma {:induction false} LatestFacts(inputs: seq<Option<Value>>)
    ensures Latest(inputs).Some? <==> exists i :: 0 <= i < |inputs| && inputs[i].Some?
    ensures Values(inputs) == [] <==> Latest(inputs).None?
  {
    if inputs != [] {
      var before := inputs[..|inputs| - 1];
      LatestFacts(before);
      if Latest(before).Some? {
        var i :| 0 <= i < |before| && before[i].Some?;
        assert inputs[i].Some?;
      }
    }
  }

  lemma {:induction false} FedCounts(node: Body, inputs: seq<Option<Value>>)
    requires forall i :: 0 <= i < |inputs| ==> node(Fed(node, inputs[..i])).Ask?
    ensures |Values(inputs)| <= |Fed(node, inputs)|
    ensures ResumedOnly(inputs) ==> Fed(node, inputs) == Values(inputs)
    ensures !ResumedOnly(inputs) ==> |Values(inputs)| < |Fed(node, inputs)|
  {
    if inputs != [] {
      var n := |inputs| - 1;
      var before := inputs[..n];
      assert forall i :: 0 <= i < n ==> before[..i] == inputs[..i];
      FedCounts(node, before);
      LatestFacts(before);
      ResumedOnlyMore(inputs);
      assert node(Fed(node, before)).Ask?;
    }
  }

  lemma ResumedOnlyMore(inputs: seq<Option<Value>>)
    requires inputs != []
    ensures var n := |inputs| - 1;
            ResumedOnly(inputs) <==> ResumedOnly(inputs[..n]) && (inputs[n].Some? || Latest(inputs[..n]).None?)
  {
    var n := |inputs| - 1;
    var before := inputs[..n];
    LatestFacts(before);
    assert forall i :: 0 <= i < n ==> before[i] == inputs[i];
    if inputs[n].None? && Latest(before).Some? {
      var i :| 0 <= i < n && before[i].Some?;
      assert inputs[i].Some?;
    }
  }

  /** As long as the node keeps asking it receives each resume value exactly once, in order,
      exactly when no invocation without one comes after: the last value stays saved, and
      such an invocation hands it out again. */
  lemma ConsumedOnceExactly(node: Body, inputs: seq<Option<Value>>)
    requires forall i :: 0 <= i < |inputs| ==> node(Fed(node, inputs[..i])).Ask?
    ensures Fed(node, inputs) == Values(inputs) <==> ResumedOnly(inputs)
  {
    FedCounts(node, inputs);
  }

  /** A first invocation and then one resume after the other: after `k` of them the node
      has received those `k` values, or was done with fewer. */
  lemma {:induction false} ResumesArriveInOrder(node: Body, vs: seq<Value>)
    requires Asks(node, vs, |vs|)
    ensures RunSession(node, [None] + seq(|vs|, i requires 0 <= i < |vs| => Some(vs[i]))) ==
            if node(vs).Done? then Finished(vs) else Waiting(vs, if vs == [] then None else Some(vs[|vs| - 1]))
  {
    var inputs := [None] + seq(|vs|, i requires 0 <= i < |vs| => Some(vs[i]));
    FedResumes(node, vs);
    ReplayIsFaithful(node, inputs);
    if vs == [] { assert inputs[..0] == []; }
  }

  lemma {:induction false} FedResumes(node: Body, vs: seq<Value>)
    requires Asks(node, vs, |vs|)
    ensures Fed(node, [None] + seq(|vs|, i requires 0 <= i < |vs| => Some(vs[i]))) == vs
    ensures vs != [] ==> Latest([None] + seq(|vs|, i requires 0 <= i < |vs| => Some(vs[i]))) == Some(vs[|vs| - 1])
    ensures vs == [] ==> Latest([None] + seq(|vs|, i requires 0 <= i < |vs| => Some(vs[i]))) == None
  {
    var inputs := [None] + seq(|vs|, i requires 0 <= i < |vs| => Some(vs[i]));
    var n := |vs|;
    if n == 0 {
      assert inputs == [None] && inputs[..0] == [];
      assert Latest(inputs[..0]) == None;
    } else {
      var before := vs[..n - 1];
      assert forall i :: 0 <= i < n - 1 ==> before[..i] == vs[..i];
      FedResumes(node, before);
      assert inputs[..n] == [None] + seq(|before|, i requires 0 <= i < |before| => Some(before[i]));
      assert before + [vs[n - 1]] == vs;
    }
  }
}
