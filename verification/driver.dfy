/** The driver's tick: which event starts a turn, on which thread, with which input; and what
    holds of it over every run. */
module Drivers {
  import opened Channels
  import opened PriorityInboxes

  /** What the graph is called with: the value of a resume, or an input made from the event. */
  datatype Input = Continue(value: string) | Fresh(input: string)

  datatype Result = Completed(interrupted: bool) | Raised

  /** An event of the inbox, or one that the idle policy made up. */
  datatype Origin = Inbox(item: Item) | Idle(made: Event)

  function EventOf(o: Origin): Event { match o case Inbox(i) => i.event case Idle(e) => e }

  /** What became of an event. `waiting` says whether its thread was waiting for a resume. */
  datatype Record =
    | Invoked(origin: Origin, thread: string, waiting: bool, input: Input, result: Result)
    | Dropped(origin: Origin, thread: string)
    | Lost(origin: Origin)

  /** The two functions that arrange a turn; `None` stands for an exception. */
  datatype Policy = Policy(decideThread: Event -> Option<string>, makeInput: Event -> Option<string>)

  datatype IdleAnswer = Nothing | Made(event: Event) | IdleRaised

  /** What the world does in one tick: the idle policy's answer and the events that arrive
      meanwhile, and the graph's result. */
  datatype World = World(idle: IdleAnswer, arrivals: seq<Event>, result: Result)

  datatype DriverState = DriverState(items: seq<Item>, next: nat, waiting: set<string>, turns: nat, log: seq<Record>)

  // ---------------------------------------------------------------- one tick

  /** What happens to an event that has been taken. */
  function Handled(p: Policy, waiting: set<string>, o: Origin, result: Result): Record {
    var e := EventOf(o);
    match p.decideThread(e)
    case None => Lost(o)
    case Some(thread) =>
      if thread in waiting then
        if "resume" in e.payload then Invoked(o, thread, true, Continue(e.payload["resume"]), result)
          else Dropped(o, thread)
      else match p.makeInput(e)
           case None => Lost(o)
           case Some(input) => Invoked(o, thread, false, Fresh(input), result)
  }

  function Logged(s: DriverState, r: Record): DriverState {
    var done := r.Invoked? && r.result.Completed?;
    s.(log := s.log + [r],
       turns := s.turns + (if done then 1 else 0),
       waiting := if !done then s.waiting else if r.result.interrupted then s.waiting + {r.thread}
         else s.waiting - {r.thread})
  }

  function Arrived(s: DriverState, es: seq<Event>): DriverState {
    s.(items := s.items + Numbered(es, s.next), next := s.next + |es|)
  }

  function TakeBest(p: Policy, s: DriverState, result: Result): DriverState
    requires s.items != []
  {
    var i := BestAt(s.items);
    Logged(s.(items := Without(s.items, i)), Handled(p, s.waiting, Inbox(s.items[i]), result))
  }

  /** A real event that came in while the policy was asked goes before the policy's own. */
  function Ticked(p: Policy, s: DriverState, w: World): DriverState {
    if s.items != [] then TakeBest(p, s, w.result)
    else
      var t := Arrived(s, w.arrivals);
      if w.idle.IdleRaised? then t
      else if t.items != [] then TakeBest(p, t, w.result)
      else if w.idle.Made? then Logged(t, Handled(p, t.waiting, Idle(w.idle.event), w.result))
      else t
  }

  class Driver {
    const policy: Policy
    const inbox: PriorityInbox
    var waiting: set<string>
    var turns: nat
    ghost var log: seq<Record>

    constructor (policy: Policy, inbox: PriorityInbox)
      ensures this.policy == policy && this.inbox == inbox && View() == DriverState(inbox.items, inbox.next, {}, 0, [])
    {
      this.policy, this.inbox, waiting, turns, log := policy, inbox, {}, 0, [];
    }

    ghost function View(): DriverState
      reads this, inbox
    {
      DriverState(inbox.items, inbox.next, waiting, turns, log)
    }

    method Submit(e: Event)
      modifies inbox
      ensures View() == old(Arrived(View(), [e]))
    {
      inbox.Put(e);
    }

    method Handle(o: Origin, result: Result) returns (r: Record)
      modifies this
      ensures r == old(Handled(policy, waiting, o, result)) && View() == old(Logged(View(), r))
    {
      var event := EventOf(o);
      var thread := policy.decideThread(event);
      var input: Input;
      if thread.None? {
        r := Lost(o);
        log := log + [r];
        return;
      }
      var paused := thread.value in waiting;
      if paused {
        if "resume" !in event.payload {
          r := Dropped(o, thread.value);
          log := log + [r];
          return;
        }
        input := Continue(event.payload["resume"]);
      } else {
        var made := policy.makeInput(event);
        if made.None? {
          r := Lost(o);
          log := log + [r];
          return;
        }
        input := Fresh(made.value);
      }
      r := Invoked(o, thread.value, paused, input, result);
      log := log + [r];
      if result.Completed? {
        waiting := if result.interrupted then waiting + {thread.value} else waiting - {thread.value};
        turns := turns + 1;
      }
    }

    /** What others submit while the driver waits. */
    method Deliver(arrivals: seq<Event>)
      modifies inbox
      ensures inbox.items == old(inbox.items) + Numbered(arrivals, old(inbox.next)) &&
        inbox.next == old(inbox.next) + |arrivals|
    {
      assert inbox.items + [] == inbox.items;
      for i := 0 to |arrivals|
        invariant inbox.items == old(inbox.items) + Numbered(arrivals[..i], old(inbox.next)) &&
          inbox.next == old(inbox.next) + i
      {
        assert arrivals[..i + 1] == arrivals[..i] + [arrivals[i]];
        NumberedMore(arrivals[..i], arrivals[i], old(inbox.next));
        inbox.Put(arrivals[i]);
      }
      assert arrivals[..|arrivals|] == arrivals;
    }

    /** Takes the best event that is there and starts its turn. */
    method TakeOne(result: Result) returns (r: Option<Record>)
      modifies this, inbox
      ensures old(inbox.items) == [] ==> r == None && View() == old(View())
      ensures old(inbox.items) != [] ==> r.Some? && View() == old(TakeBest(policy, View(), result))
    {
      ghost var s := View();
      var item := inbox.Get();
      if item.None? { return None; }
      assert View() == s.(items := Without(s.items, BestAt(s.items)));
      var handled := Handle(Inbox(item.value), result);
      r := Some(handled);
    }

    method RunOnce(w: World) returns (r: Option<Record>)
      modifies this, inbox
      ensures View() == old(Ticked(policy, View(), w))
    {
      ghost var s := View();
      r := TakeOne(w.result);
      if r.Some? { return; }
      Deliver(w.arrivals);
      assert View() == Arrived(s, w.arrivals);
      if w.idle.IdleRaised? { return; }
      r := TakeOne(w.result);
      if r.Some? || w.idle.Nothing? { return; }
      var made := Handle(Idle(w.idle.event), w.result);
      r := Some(made);
    }
  }

  // ---------------------------------------------------------------- every run

  datatype Act = Submit(event: Event) | Tick(world: World)

  function Start(): DriverState { DriverState([], 0, {}, 0, []) }

  function Run(p: Policy, acts: seq<Act>): DriverState {
    if acts == [] then Start()
    else
      var s := Run(p, acts[..|acts| - 1]);
      match acts[|acts| - 1]
      case Submit(e) => Arrived(s, [e])
      case Tick(w) => Ticked(p, s, w)
  }

  predicate Of(r: Record, n: nat) { r.origin.Inbox? && r.origin.item.order == n }

  /** The thread's last completed turn ended in an interrupt. */
  function Interrupted(log: seq<Record>, thread: string): bool {
    if log == [] then false
    else
      var r := log[|log| - 1];
      if r.Invoked? && r.thread == thread && r.result.Completed? then r.result.interrupted
      else Interrupted(log[..|log| - 1], thread)
  }

  function Completions(log: seq<Record>): nat {
    if log == [] then 0
    else Completions(log[..|log| - 1]) + if log[|log| - 1].Invoked? && log[|log| - 1].result.Completed? then 1 else 0
  }

  /** How often event number `n` is in the queue, and in the log. */
  function Queued(items: seq<Item>, n: nat): nat {
    if items == [] then 0 else Queued(items[..|items| - 1], n) + if items[|items| - 1].order == n then 1 else 0
  }

  function Treated(log: seq<Record>, n: nat): nat {
    if log == [] then 0 else Treated(log[..|log| - 1], n) + if Of(log[|log| - 1], n) then 1 else 0
  }

  /** A record is as the rules say, given which threads were waiting before it. */
  predicate Proper(p: Policy, before: seq<Record>, r: Record) {
    var e := EventOf(r.origin);
    match r
    case Lost(_) => p.decideThread(e).None? || (!Interrupted(before, p.decideThread(e).value) && p.makeInput(e).None?)
    case Dropped(_, thread) => p.decideThread(e) == Some(thread) && Interrupted(before, thread) &&
      "resume" !in e.payload
    case Invoked(_, thread, waiting, input, _) =>
      && p.decideThread(e) == Some(thread) && (waiting <==> Interrupted(before, thread))
      && if waiting then "resume" in e.payload && input == Continue(e.payload["resume"])
         else p.makeInput(e).Some? && input == Fresh(p.makeInput(e).value)
  }

  ghost predicate Waits(s: DriverState) { forall t :: t in s.waiting <==> Interrupted(s.log, t) }

  ghost predicate AllProper(p: Policy, log: seq<Record>) { forall i :: 0 <= i < |log| ==> Proper(p, log[..i], log[i]) }

  ghost predicate Counted(s: DriverState) {
    forall n: nat :: Queued(s.items, n) + Treated(s.log, n) == if n < s.next then 1 else 0
  }

  /** Whoever is treated first was there later only with a higher priority. */
  predicate Overtakes(a: Item, b: Item) { b.order < a.order ==> a.event.priority > b.event.priority }

  ghost predicate Ordered(s: DriverState) {
    && (forall i, j :: 0 <= i < j < |s.log| && s.log[i].origin.Inbox? && s.log[j].origin.Inbox? ==>
      Overtakes(s.log[i].origin.item, s.log[j].origin.item))
    && (forall i, k :: 0 <= i < |s.log| && 0 <= k < |s.items| && s.log[i].origin.Inbox? ==>
      Overtakes(s.log[i].origin.item, s.items[k]))
    && (forall i :: 0 <= i < |s.log| && s.log[i].origin.Inbox? ==> s.log[i].origin.item.order < s.next)
    && (forall k :: 0 <= k < |s.items| ==> s.items[k].order < s.next)
  }

  ghost predicate Sound(p: Policy, s: DriverState) {
    Waits(s) && AllProper(p, s.log) && s.turns == Completions(s.log) && Counted(s) && Ordered(s)
  }

  // ---------------------------------------------------------------- counting

  lemma {:induction false} QueuedConcat(a: seq<Item>, b: seq<Item>, n: nat)
    ensures Queued(a + b, n) == Queued(a, n) + Queued(b, n)
  {
    if b == [] {
      assert a + b == a;
    } else {
      assert (a + b)[..|a + b| - 1] == a + b[..|b| - 1] && (a + b)[|a + b| - 1] == b[|b| - 1];
      QueuedConcat(a, b[..|b| - 1], n);
    }
  }

  lemma QueuedWithout(q: seq<Item>, i: nat, n: nat)
    requires i < |q|
    ensures Queued(Without(q, i), n) == Queued(q, n) - if q[i].order == n then 1 else 0
  {
    assert q == q[..i] + ([q[i]] + q[i + 1..]);
    QueuedConcat(q[..i], [q[i]] + q[i + 1..], n);
    QueuedConcat([q[i]], q[i + 1..], n);
    QueuedConcat(q[..i], q[i + 1..], n);
    assert [q[i]][..0] == [] && Queued([q[i]][..0], n) == 0;
    assert Queued([q[i]], n) == if q[i].order == n then 1 else 0;
  }

  lemma {:induction false} QueuedNumbered(es: seq<Event>, from: nat, n: nat)
    ensures Queued(Numbered(es, from), n) == if from <= n < from + |es| then 1 else 0
  {
    if es != [] {
      var k := |es| - 1;
      assert Numbered(es, from)[..k] == Numbered(es[..k], from);
      QueuedNumbered(es[..k], from, n);
    }
  }

  // ---------------------------------------------------------------- arrivals

  lemma ArrivedSound(p: Policy, s: DriverState, es: seq<Event>)
    requires Sound(p, s)
    ensures Sound(p, Arrived(s, es))
  {
    var t := Arrived(s, es);
    forall n: nat ensures Queued(t.items, n) + Treated(t.log, n) == if n < t.next then 1 else 0 {
      QueuedConcat(s.items, Numbered(es, s.next), n);
      QueuedNumbered(es, s.next, n);
      assert Queued(s.items, n) + Treated(s.log, n) == if n < s.next then 1 else 0;
    }
    ArrivedOrdered(s, es);
  }

  lemma ArrivedOrdered(s: DriverState, es: seq<Event>)
    requires Ordered(s)
    ensures Ordered(Arrived(s, es))
  {
    var t := Arrived(s, es);
    forall k | 0 <= k < |t.items| ensures t.items[k].order < t.next &&
      (k >= |s.items| ==> t.items[k].order >= s.next) && (k < |s.items| ==> t.items[k] == s.items[k]) {
      assert t.items[k] == if k < |s.items| then s.items[k] else Numbered(es, s.next)[k - |s.items|];
    }
  }

  // ---------------------------------------------------------------- a treated event

  lemma LoggedOne(s: DriverState, r: Record, t: string)
    ensures var log := s.log + [r];
            && Interrupted(log, t) == (if r.Invoked? && r.thread == t && r.result.Completed? then r.result.interrupted
              else Interrupted(s.log, t))
            && Completions(log) == Completions(s.log) + (if r.Invoked? && r.result.Completed? then 1 else 0)
            && forall n: nat :: Treated(log, n) == Treated(s.log, n) + if Of(r, n) then 1 else 0
  {
    assert (s.log + [r])[..|s.log|] == s.log;
  }

  lemma HandledProper(p: Policy, s: DriverState, o: Origin, result: Result)
    requires Waits(s)
    ensures Proper(p, s.log, Handled(p, s.waiting, o, result)) && Handled(p, s.waiting, o, result).origin == o
  {
    var thread := p.decideThread(EventOf(o));
    assert thread.Some? ==> (thread.value in s.waiting <==> Interrupted(s.log, thread.value));
  }

  lemma ProperMore(p: Policy, log: seq<Record>, r: Record)
    requires AllProper(p, log) && Proper(p, log, r)
    ensures AllProper(p, log + [r])
  {
    var all := log + [r];
    forall i | 0 <= i < |all| ensures Proper(p, all[..i], all[i]) {
      assert all[..i] == if i < |log| then log[..i] else log;
    }
  }

  /** All but the counts and the order of the queue. */
  lemma LoggedSound(p: Policy, s: DriverState, o: Origin, result: Result)
    requires Waits(s) && AllProper(p, s.log) && s.turns == Completions(s.log)
    ensures var t := Logged(s, Handled(p, s.waiting, o, result));
      Waits(t) && AllProper(p, t.log) && t.turns == Completions(t.log)
  {
    var r := Handled(p, s.waiting, o, result);
    HandledProper(p, s, o, result);
    ProperMore(p, s.log, r);
    var t := Logged(s, r);
    forall thread ensures thread in t.waiting <==> Interrupted(t.log, thread) {
      LoggedOne(s, r, thread);
      assert thread in s.waiting <==> Interrupted(s.log, thread);
    }
    LoggedOne(s, r, "");
  }

  lemma IdleOrdered(s: DriverState, r: Record)
    requires Ordered(s) && r.origin.Idle?
    ensures Ordered(Logged(s, r))
  {
    var t := Logged(s, r);
    assert t.log == s.log + [r] && t.items == s.items;
    forall j | 0 <= j < |t.log| && t.log[j].origin.Inbox? ensures j < |s.log| && t.log[j] == s.log[j] {}
  }

  lemma IdleCounted(s: DriverState, r: Record)
    requires Counted(s) && r.origin.Idle?
    ensures Counted(Logged(s, r))
  {
    LoggedOne(s, r, "");
  }

  lemma IdleSound(p: Policy, s: DriverState, e: Event, result: Result)
    requires Sound(p, s)
    ensures Sound(p, Logged(s, Handled(p, s.waiting, Idle(e), result)))
  {
    var r := Handled(p, s.waiting, Idle(e), result);
    HandledProper(p, s, Idle(e), result);
    LoggedSound(p, s, Idle(e), result);
    IdleOrdered(s, r);
    IdleCounted(s, r);
  }

  lemma BestOvertakes(items: seq<Item>, k: nat)
    requires items != [] && k < |items|
    ensures Overtakes(items[BestAt(items)], items[k])
  {
    assert !Before(items[k], items[BestAt(items)]);
  }

  lemma BestOrdered(p: Policy, s: DriverState, result: Result)
    requires Ordered(s) && s.items != [] && Waits(s)
    ensures Ordered(TakeBest(p, s, result))
  {
    var i := BestAt(s.items);
    var x := s.items[i];
    var r := Handled(p, s.waiting, Inbox(x), result);
    HandledProper(p, s, Inbox(x), result);
    var t := TakeBest(p, s, result);
    assert t.log == s.log + [r] && t.items == Without(s.items, i);
    forall k | 0 <= k < |t.items| ensures Overtakes(x, t.items[k]) && t.items[k] in s.items {
      var k' := if k < i then k else k + 1;
      assert t.items[k] == s.items[k'];
      BestOvertakes(s.items, k');
    }
    forall j | 0 <= j < |s.log| && s.log[j].origin.Inbox? ensures Overtakes(s.log[j].origin.item, x) {}
  }

  lemma BestCounted(p: Policy, s: DriverState, result: Result)
    requires Counted(s) && s.items != [] && Waits(s)
    ensures Counted(TakeBest(p, s, result))
  {
    var i := BestAt(s.items);
    var r := Handled(p, s.waiting, Inbox(s.items[i]), result);
    HandledProper(p, s, Inbox(s.items[i]), result);
    var t := TakeBest(p, s, result);
    LoggedOne(s, r, "");
    forall n: nat ensures Queued(t.items, n) + Treated(t.log, n) == if n < t.next then 1 else 0 {
      QueuedWithout(s.items, i, n);
      assert Queued(s.items, n) + Treated(s.log, n) == if n < s.next then 1 else 0;
    }
  }

  lemma BestSound(p: Policy, s: DriverState, result: Result)
    requires Sound(p, s) && s.items != []
    ensures Sound(p, TakeBest(p, s, result))
  {
    var i := BestAt(s.items);
    LoggedSound(p, s.(items := Without(s.items, i)), Inbox(s.items[i]), result);
    BestOrdered(p, s, result);
    BestCounted(p, s, result);
  }

  lemma {:induction false} RunSound(p: Policy, acts: seq<Act>)
    ensures Sound(p, Run(p, acts))
  {
    if acts != [] {
      var s := Run(p, acts[..|acts| - 1]);
      RunSound(p, acts[..|acts| - 1]);
      match acts[|acts| - 1] {
        case Submit(e) => ArrivedSound(p, s, [e]);
        case Tick(w) =>
          if s.items != [] {
            BestSound(p, s, w.result);
          } else {
            ArrivedSound(p, s, w.arrivals);
            var t := Arrived(s, w.arrivals);
            if t.items != [] { BestSound(p, t, w.result); }
              else if w.idle.Made? { IdleSound(p, t, w.idle.event, w.result); }
          }
      }
    }
  }

  // ---------------------------------------------------------------- what follows

  /** A thread whose last completed turn was interrupted is only ever called with the value of
      an explicit resume; any other thread only with an input made from the event. */
  lemma WaitingOnlyResumed(p: Policy, acts: seq<Act>, i: nat)
    requires i < |Run(p, acts).log| && Run(p, acts).log[i].Invoked?
    ensures var log := Run(p, acts).log;
            var e, r := EventOf(log[i].origin), log[i];
            if Interrupted(log[..i], r.thread) then "resume" in e.payload && r.input == Continue(e.payload["resume"])
            else p.makeInput(e).Some? && r.input == Fresh(p.makeInput(e).value)
  {
    RunSound(p, acts);
    assert Proper(p, Run(p, acts).log[..i], Run(p, acts).log[i]);
  }

  /** Every event put into the inbox is there exactly once, or was treated exactly once: one
      turn, or dropped because its thread waits and it is no resume, or lost because a
      function that arranges the turn raised. */
  lemma EveryEventOnce(p: Policy, acts: seq<Act>, n: nat)
    ensures var s := Run(p, acts); Queued(s.items, n) + Treated(s.log, n) == if n < s.next then 1 else 0
    ensures forall i :: 0 <= i < |Run(p, acts).log| ==> Proper(p, Run(p, acts).log[..i], Run(p, acts).log[i])
  {
    RunSound(p, acts);
  }

  /** One more event was treated, and this is where it came from. */
  predicate TreatedOne(s: DriverState, t: DriverState, o: Origin) {
    |t.log| == |s.log| + 1 && t.log[..|s.log|] == s.log && t.log[|s.log|].origin == o
  }

  /** The best of the waiting events was taken out and treated. */
  predicate TookBest(s: DriverState, waiting: seq<Item>, t: DriverState, i: nat) {
    && i < |waiting| && t.items == waiting[..i] + waiting[i + 1..] && TreatedOne(s, t, Inbox(waiting[i]))
    && forall x <- waiting :: x.event.priority < waiting[i].event.priority ||
         (x.event.priority == waiting[i].event.priority && x.order >= waiting[i].order)
  }

  lemma TakesBest(p: Policy, s: DriverState, result: Result)
    requires s.items != []
    ensures TookBest(s, s.items, TakeBest(p, s, result), BestAt(s.items)) && TakeBest(p, s, result).next == s.next
  {
    var i := BestAt(s.items);
    forall x <- s.items
      ensures x.event.priority < s.items[i].event.priority ||
        (x.event.priority == s.items[i].event.priority && x.order >= s.items[i].order)
    {
      var j :| 0 <= j < |s.items| && s.items[j] == x;
      assert !Before(s.items[j], s.items[i]);
    }
  }

  lemma BusyTick(p: Policy, s: DriverState, w: World)
    requires s.items != []
    ensures var t := Ticked(p, s, w); TookBest(s, s.items, t, BestAt(s.items)) && t.next == s.next
  {
    TakesBest(p, s, w.result);
  }

  /** The inbox was empty, and `queued` came in. */
  predicate AfterQuiet(s: DriverState, queued: seq<Item>, idle: IdleAnswer, t: DriverState, i: nat) {
    if queued != [] && !idle.IdleRaised? then TookBest(s, queued, t, i)
    else if queued == [] && idle.Made? then t.items == [] && TreatedOne(s, t, Idle(idle.event))
    else t.items == queued && t.log == s.log && t.turns == s.turns && t.waiting == s.waiting
  }

  lemma QuietTick(p: Policy, s: DriverState, w: World) returns (i: nat)
    requires s.items == []
    ensures var t := Ticked(p, s, w);
      AfterQuiet(s, Numbered(w.arrivals, s.next), w.idle, t, i) && t.next == s.next + |w.arrivals|
  {
    assert Arrived(s, w.arrivals).items == Numbered(w.arrivals, s.next);
    i := 0;
    if w.arrivals != [] && !w.idle.IdleRaised? {
      i := BestAt(Numbered(w.arrivals, s.next));
      ArrivedTick(p, s, w);
    }
  }

  lemma ArrivedTick(p: Policy, s: DriverState, w: World)
    requires s.items == [] && w.arrivals != [] && !w.idle.IdleRaised?
    ensures var queued, t := Numbered(w.arrivals, s.next), Ticked(p, s, w);
      TookBest(s, queued, t, BestAt(queued)) && t.next == s.next + |w.arrivals|
  {
    var a := Arrived(s, w.arrivals);
    assert a.items == Numbered(w.arrivals, s.next);
    TakesBest(p, a, w.result);
    TookFrom(s, a, a.items, Ticked(p, s, w), BestAt(a.items));
  }

  lemma TookFrom(s: DriverState, a: DriverState, waiting: seq<Item>, t: DriverState, i: nat)
    requires TookBest(a, waiting, t, i) && a.log == s.log
    ensures TookBest(s, waiting, t, i)
  {}

  /** One tick: the best event is treated if there is one, and the idle policy was not asked or did
      not raise; else the event that the policy made up, if it made one; else none. */
  lemma TickExactly(p: Policy, s: DriverState, w: World) returns (i: nat)
    ensures var t := Ticked(p, s, w);
      if s.items != [] then TookBest(s, s.items, t, i) && t.next == s.next
      else AfterQuiet(s, Numbered(w.arrivals, s.next), w.idle, t, i) && t.next == s.next + |w.arrivals|
  {
    if s.items != [] {
      i := BestAt(s.items);
      BusyTick(p, s, w);
    } else {
      i := QuietTick(p, s, w);
    }
  }

  /** An event is lost exactly if no thread can be decided on for it, or if that thread is not
      waiting and no input can be made. */
  lemma LostExactly(p: Policy, acts: seq<Act>, i: nat)
    requires i < |Run(p, acts).log|
    ensures var before, r := Run(p, acts).log[..i], Run(p, acts).log[i];
      var e := EventOf(r.origin);
      r.Lost? <==> match p.decideThread(e)
                   case None => true
                   case Some(thread) => !Interrupted(before, thread) && p.makeInput(e).None?
  {
    RunSound(p, acts);
    assert Proper(p, Run(p, acts).log[..i], Run(p, acts).log[i]);
  }

  /** An event that no thread can be decided on for: after one tick it is in no queue, and no
      turn was started for it. */
  lemma SubmittedAndLost(p: Policy, e: Event, w: World)
    requires p.decideThread(e).None?
    ensures var s := Run(p, [Submit(e), Tick(w)]);
      s.items == [] && s.log == [Lost(Inbox(Item(0, e)))] && s.turns == 0
  {
    var acts := [Submit(e), Tick(w)];
    assert acts[..1] == [Submit(e)] && [Submit(e)][..0] == [];
    var s := Arrived(Start(), [e]);
    assert Run(p, [Submit(e)]) == s;
    assert s.items == [Item(0, e)];
    assert Run(p, acts) == Ticked(p, s, w) == TakeBest(p, s, w.result);
    assert Without(s.items, 0) == [];
  }

  /** Of two events of the inbox the later one is treated first only if its priority is
      strictly higher. */
  lemma OnlyPriorityOvertakes(p: Policy, acts: seq<Act>, i: nat, j: nat)
    requires i < j < |Run(p, acts).log| && Run(p, acts).log[i].origin.Inbox? && Run(p, acts).log[j].origin.Inbox?
    ensures var a, b := Run(p, acts).log[i].origin.item, Run(p, acts).log[j].origin.item;
            a.order != b.order && (b.order < a.order ==> a.event.priority > b.event.priority)
  {
    RunSound(p, acts);
    var log := Run(p, acts).log;
    var n := log[i].origin.item.order;
    assert Overtakes(log[i].origin.item, log[j].origin.item);
    assert Queued(Run(p, acts).items, n) + Treated(log, n) == if n < Run(p, acts).next then 1 else 0;
    OnceOnly(log, n, i, j);
  }

  lemma {:induction false} OnceOnly(log: seq<Record>, n: nat, i: nat, j: nat)
    requires i < j < |log| && Of(log[i], n) && Treated(log, n) <= 1
    ensures !Of(log[j], n)
  {
    var k := |log| - 1;
    if j < k { OnceOnly(log[..k], n, i, j); } else { TreatedOnce(log[..k], n, i); }
  }

  lemma {:induction false} TreatedOnce(log: seq<Record>, n: nat, i: nat)
    requires i < |log| && Of(log[i], n)
    ensures Treated(log, n) >= 1
  {
    if i < |log| - 1 { TreatedOnce(log[..|log| - 1], n, i); }
  }

  /** The turn counter counts the completed turns, and the waiting threads are those whose
      last completed turn was interrupted. */
  lemma CountersAreRight(p: Policy, acts: seq<Act>, thread: string)
    ensures Run(p, acts).turns == Completions(Run(p, acts).log)
    ensures thread in Run(p, acts).waiting <==> Interrupted(Run(p, acts).log, thread)
  {
    RunSound(p, acts);
  }
}
