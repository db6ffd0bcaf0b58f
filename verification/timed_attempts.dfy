/** Attempts of a task with a timeout: guarded sends, closing at the timeout, and retries, as
    an interleaving of the threads that take part. */
module TimedAttempts {
  import opened Channels

  /** What ends an attempt by an exception. */
  datatype Error = NodeTimeout | Raised(kind: string)

  datatype RetryPolicy = RetryPolicy(maxAttempts: int, retryOn: Error -> bool)

  /** The first policy that applies. */
  function Matching(policies: seq<RetryPolicy>, e: Error): (r: Option<RetryPolicy>)
    ensures r.Some? ==> r.value in policies && r.value.retryOn(e)
    ensures r.None? ==> forall p <- policies :: !p.retryOn(e)
  {
    if policies == [] then None
    else if policies[0].retryOn(e) then Some(policies[0])
    else Matching(policies[1..], e)
  }

  /** The policy at `k` retries on the error, and none in front of it does. */
  predicate FirstToRetry(policies: seq<RetryPolicy>, e: Error, k: nat) {
    k < |policies| && policies[k].retryOn(e) && forall j :: 0 <= j < k ==> !policies[j].retryOn(e)
  }

  lemma {:induction false} MatchingIsFirst(policies: seq<RetryPolicy>, e: Error, k: nat)
    requires FirstToRetry(policies, e, k)
    ensures Matching(policies, e) == Some(policies[k])
  {
    if k > 0 {
      assert !policies[0].retryOn(e);
      forall j | 0 <= j < k - 1 ensures !policies[1..][j].retryOn(e) { assert policies[1..][j] == policies[j + 1]; }
      MatchingIsFirst(policies[1..], e, k - 1);
    }
  }

  method MatchingPolicy(policies: seq<RetryPolicy>, e: Error) returns (r: Option<RetryPolicy>)
    ensures r == Matching(policies, e)
    ensures r.None? ==> forall p <- policies :: !p.retryOn(e)
    ensures r.Some? ==> exists k: nat :: FirstToRetry(policies, e, k) && r.value == policies[k]
  {
    for i := 0 to |policies|
      invariant Matching(policies, e) == Matching(policies[i..], e)
      invariant forall j :: 0 <= j < i ==> !policies[j].retryOn(e)
    {
      assert policies[i..][0] == policies[i] && policies[i..][1..] == policies[i + 1..];
      assert policies[i].retryOn(e) ==> FirstToRetry(policies, e, i);
      if policies[i].retryOn(e) { return Some(policies[i]); }
    }
    r := None;
  }

  /** Failed tries are counted before the limit is checked. */
  predicate TriesAgain(policies: seq<RetryPolicy>, e: Error, failures: nat) {
    var p := Matching(policies, e);
    p.Some? && failures + 1 < p.value.maxAttempts
  }

  /** The most attempts that any policy allows, and at least one. */
  function MostAttempts(policies: seq<RetryPolicy>): (n: nat)
    ensures n >= 1 && forall p <- policies :: p.maxAttempts <= n
    ensures n == 1 || exists p <- policies :: p.maxAttempts == n
  {
    if policies == [] then 1
    else
      var n := MostAttempts(policies[1..]);
      if policies[0].maxAttempts > n then policies[0].maxAttempts else n
  }

  // ---------------------------------------------------------------- the scope

  class TaskWrites {
    var writes: seq<Write>

    constructor ()
      ensures writes == []
    {
      writes := [];
    }
  }

  /** Each method is one critical section of the scope's lock. */
  class TimedAttemptScope {
    const auto: bool
    var active: bool
    var lastProgress: real

    constructor (auto: bool, now: real)
      ensures active && this.auto == auto && lastProgress == now
    {
      active, this.auto, lastProgress := true, auto, now;
    }

    method Close()
      modifies this`active
      ensures !active
    {
      active := false;
    }

    method GuardedSend(task: TaskWrites, writes: seq<Write>, now: real)
      modifies this`lastProgress, task
      ensures task.writes == old(task.writes) + if active then writes else []
      ensures lastProgress == if active && auto && writes != [] then now else old(lastProgress)
    {
      if active {
        if |writes| > 0 && auto { lastProgress := now; }
        task.writes := task.writes + writes;
      } else {
        assert task.writes + [] == task.writes;
      }
    }

    /** What the idle watchdog does next: stop, raise its timeout, or sleep. */
    method IdleCheck(idle: real, now: real) returns (stopped: bool, remaining: real)
      ensures stopped <==> !active
      ensures !stopped ==> (remaining <= 0.0 <==> now - lastProgress >= idle)
    {
      stopped, remaining := !active, lastProgress + idle - now;
    }
  }

  // ---------------------------------------------------------------- the interleaving

  /** A thread of an attempt that sends writes: it waits for the lock, checks whether the
      scope is still active, adds its writes, and lets go of the lock. */
  datatype Place = Idle | Waiting(ws: seq<Write>) | Checking(ws: seq<Write>) | Adding(ws: seq<Write>) | Leaving

  datatype Sender = Sender(attempt: nat, place: Place)

  datatype Lock = Free | HeldBy(thread: nat) | HeldByCloser

  datatype Scope = Scope(active: bool, lock: Lock)

  datatype Ending = TimedOut | Failed(error: Error) | Succeeded | Commanded(ws: seq<Write>) | Stopped

  /** Where the retry loop is with the current attempt. */
  datatype Phase =
    | Running
    | Ending(why: Ending)
    | Closing(why: Ending)
    | Unlocking(why: Ending)
    | Clearing
    | Closed(why: Ending)
    | Over

  /** Attempts count from 0. Every write remembers, for the proof, the attempt it came from. */
  datatype System = System(scopes: seq<Scope>, senders: map<nat, Sender>, phase: Phase, failures: nat,
                         writes: seq<(nat, Write)>, timedOut: set<nat>)

  datatype Step =
    | Spawn(thread: nat, attempt: nat) | Send(thread: nat, ws: seq<Write>) | Acquire(thread: nat)
    | Check(thread: nat) | Add(thread: nat) | Release(thread: nat)
    | End(why: Ending) | CloseAcquire | CloseSet | CloseRelease | Clear | Decide

  function Initial(): System { System([Scope(true, Free)], map[], Running, 0, [], {}) }

  function Tagged(attempt: nat, ws: seq<Write>): (r: seq<(nat, Write)>)
    ensures |r| == |ws| && forall i :: 0 <= i < |ws| ==> r[i] == (attempt, ws[i])
  {
    seq(|ws|, i requires 0 <= i < |ws| => (attempt, ws[i]))
  }

  function Current(s: System): nat
    requires s.scopes != []
  {
    |s.scopes| - 1
  }

  function SetPlace(s: System, t: nat, p: Place): System
    requires t in s.senders
  {
    s.(senders := s.senders[t := s.senders[t].(place := p)])
  }

  function SetLock(s: System, a: nat, l: Lock): System
    requires a < |s.scopes|
  {
    s.(scopes := s.scopes[a := s.scopes[a].(lock := l)])
  }

  /** A step of a sending thread; `None` when it cannot be taken. */
  function SenderStep(s: System, t: nat, step: Step): Option<System>
    requires t in s.senders && s.senders[t].attempt < |s.scopes|
  {
    var a := s.senders[t].attempt;
    var scope := s.scopes[a];
    match (step, s.senders[t].place)
    case (Send(_, ws), Idle) => Some(SetPlace(s, t, Waiting(ws)))
    case (Acquire(_), Waiting(ws)) =>
      if scope.lock.Free? then Some(SetPlace(SetLock(s, a, HeldBy(t)), t, Checking(ws))) else None
    case (Check(_), Checking(ws)) => Some(SetPlace(s, t, if scope.active then Adding(ws) else Leaving))
    case (Add(_), Adding(ws)) => Some(SetPlace(s.(writes := s.writes + Tagged(a, ws)), t, Leaving))
    case (Release(_), Leaving) => Some(SetPlace(SetLock(s, a, Free), t, Idle))
    case _ => None
  }

  /** After the close: a timeout clears the writes before it is raised; an error is retried
      or not; writers of a command run outside the scope. */
  function Concluded(policies: seq<RetryPolicy>, s: System, why: Ending): System
    requires s.scopes != []
  {
    match why
    case TimedOut => Retried(policies, s, NodeTimeout)
    case Failed(e) => Retried(policies, s, e)
    case Commanded(ws) => s.(phase := Over, writes := s.writes + Tagged(Current(s), ws))
    case Succeeded => s.(phase := Over)
    case Stopped => s.(phase := Over)
  }

  /** Every attempt starts by clearing the writes. */
  function Retried(policies: seq<RetryPolicy>, s: System, e: Error): System {
    if !TriesAgain(policies, e, s.failures) then s.(phase := Over)
    else s.(scopes := s.scopes + [Scope(true, Free)], phase := Running, failures := s.failures + 1, writes := [])
  }

  function LoopStep(policies: seq<RetryPolicy>, s: System, step: Step): Option<System>
    requires s.scopes != []
  {
    var a := Current(s);
    match (step, s.phase)
    case (End(why), Running) => Some(s.(phase := Ending(why)))
    case (CloseAcquire, Ending(why)) =>
      if s.scopes[a].lock.Free? then Some(SetLock(s, a, HeldByCloser).(phase := Closing(why))) else None
    case (CloseSet, Closing(why)) =>
      Some(s.(scopes := s.scopes[a := s.scopes[a].(active := false)], phase := Unlocking(why)))
    case (CloseRelease, Unlocking(why)) =>
      Some(SetLock(s, a, Free).(phase := if why.TimedOut? then Clearing else Closed(why)))
    case (Clear, Clearing) => Some(s.(phase := Closed(TimedOut), writes := [], timedOut := s.timedOut + {a}))
    case (Decide, Closed(why)) => Some(Concluded(policies, s, why))
    case _ => None
  }

  /** Code of any attempt, also of one long over, may spawn threads and send. */
  function Take(policies: seq<RetryPolicy>, s: System, step: Step): Option<System>
    requires s.scopes != [] && forall t <- s.senders :: s.senders[t].attempt < |s.scopes|
  {
    match step
    case Spawn(t, a) => if t in s.senders || a >= |s.scopes| then None
      else Some(s.(senders := s.senders[t := Sender(a, Idle)]))
    case Send(t, _) => if t in s.senders then SenderStep(s, t, step) else None
    case Acquire(t) => if t in s.senders then SenderStep(s, t, step) else None
    case Check(t) => if t in s.senders then SenderStep(s, t, step) else None
    case Add(t) => if t in s.senders then SenderStep(s, t, step) else None
    case Release(t) => if t in s.senders then SenderStep(s, t, step) else None
    case _ => LoopStep(policies, s, step)
  }

  // ---------------------------------------------------------------- critical sections, step by step

  /** Undisturbed, the steps of a sending thread do what `GuardedSend` does under the lock. */
  lemma SendSteps(s: System, t: nat, ws: seq<Write>)
    requires t in s.senders && s.senders[t].attempt < |s.scopes| && s.senders[t].place == Waiting(ws)
    requires s.scopes[s.senders[t].attempt].lock.Free?
    ensures var a := s.senders[t].attempt;
      var acquired := SenderStep(s, t, Acquire(t));
      && acquired.Some?
      && var checked := SenderStep(acquired.value, t, Check(t));
         && checked.Some?
         && var added := if s.scopes[a].active then SenderStep(checked.value, t, Add(t)) else checked;
            && added.Some?
            && SenderStep(added.value, t, Release(t)) ==
                 Some(SetPlace(s, t, Idle).(writes := s.writes + if s.scopes[a].active then Tagged(a, ws) else []))
  {
    var a, scope := s.senders[t].attempt, s.scopes[s.senders[t].attempt];
    var acquired := SenderStep(s, t, Acquire(t)).value;
    var checked := SenderStep(acquired, t, Check(t)).value;
    var added := if scope.active then SenderStep(checked, t, Add(t)).value else checked;
    var released := SenderStep(added, t, Release(t)).value;
    assert added.scopes == s.scopes[a := Scope(scope.active, HeldBy(t))];
    assert released.scopes == s.scopes[a := Scope(scope.active, Free)] == s.scopes;
    assert released.senders == s.senders[t := Sender(a, Idle)];
    assert s.writes + [] == s.writes;
  }

  /** And those of the closer do what `Close` does. */
  lemma CloseSteps(policies: seq<RetryPolicy>, s: System, why: Ending)
    requires s.scopes != [] && s.phase == Ending(why) && s.scopes[Current(s)].lock.Free?
    ensures var a := Current(s);
      var acquired := LoopStep(policies, s, CloseAcquire);
      && acquired.Some? && acquired.value.scopes != []
      && var closed := LoopStep(policies, acquired.value, CloseSet);
         && closed.Some? && closed.value.scopes != []
         && LoopStep(policies, closed.value, CloseRelease) ==
              Some(s.(scopes := s.scopes[a := s.scopes[a].(active := false)],
                      phase := if why.TimedOut? then Clearing else Closed(why)))
  {
    var a := Current(s);
    var held, shut := s.scopes[a].(lock := HeldByCloser), Scope(false, HeldByCloser);
    assert s.scopes[a := held][a := shut][a := Scope(false, Free)] == s.scopes[a := Scope(false, Free)];
  }

  // ---------------------------------------------------------------- the invariant

  predicate Inside(p: Place) { p.Checking? || p.Adding? || p.Leaving? }

  predicate BeforeClose(p: Phase) { p.Running? || p.Ending? || p.Closing? }

  /** A thread between taking and leaving the lock holds it, and so does the closer. */
  ghost predicate LockedRight(s: System) {
    && s.scopes != []
    && (forall t <- s.senders ::
      s.senders[t].attempt < |s.scopes| &&
      (Inside(s.senders[t].place) ==> s.scopes[s.senders[t].attempt].lock == HeldBy(t)))
    && (s.phase.Closing? || s.phase.Unlocking? ==> s.scopes[Current(s)].lock == HeldByCloser)
  }

  /** Only the current scope is ever active, and until it is closed; whoever is about to add
      writes belongs to it. */
  ghost predicate ActiveRight(s: System)
    requires LockedRight(s)
  {
    && (forall a :: 0 <= a < |s.scopes| ==> (s.scopes[a].active <==> a == Current(s) && BeforeClose(s.phase)))
    && (forall t <- s.senders :: s.senders[t].place.Adding? ==> s.scopes[s.senders[t].attempt].active)
  }

  ghost predicate WritesRight(s: System)
    requires LockedRight(s)
  {
    && (forall w <- s.writes :: w.0 == Current(s))
    && (forall a <- s.timedOut :: a <= Current(s))
    && (Current(s) in s.timedOut ==> s.writes == [] && (s.phase == Closed(TimedOut) || s.phase.Over?))
    && (s.phase == Closed(TimedOut) ==> Current(s) in s.timedOut)
    && (!s.phase.Over? ==> s.failures == Current(s))
  }

  ghost predicate Safe(policies: seq<RetryPolicy>, s: System) {
    LockedRight(s) && ActiveRight(s) && WritesRight(s) && |s.scopes| <= MostAttempts(policies)
  }

  /** A thread moves on without touching scopes or writes. */
  lemma MovesOn(policies: seq<RetryPolicy>, s: System, t: nat, p: Place)
    requires Safe(policies, s) && t in s.senders
    requires Inside(p) ==> s.scopes[s.senders[t].attempt].lock == HeldBy(t)
    requires p.Adding? ==> s.scopes[s.senders[t].attempt].active
    ensures Safe(policies, SetPlace(s, t, p))
  {
  }

  lemma LocksSafe(policies: seq<RetryPolicy>, s: System, t: nat)
    requires Safe(policies, s) && t in s.senders && s.scopes[s.senders[t].attempt].lock.Free?
    ensures Safe(policies, SetLock(s, s.senders[t].attempt, HeldBy(t)))
  {
  }

  lemma UnlocksSafe(policies: seq<RetryPolicy>, s: System, t: nat)
    requires Safe(policies, s) && t in s.senders && s.senders[t].place.Leaving?
    ensures Safe(policies, SetPlace(SetLock(s, s.senders[t].attempt, Free), t, Idle))
  {
  }

  lemma AddsSafe(policies: seq<RetryPolicy>, s: System, t: nat, ws: seq<Write>)
    requires Safe(policies, s) && t in s.senders && s.senders[t].place == Adding(ws)
    ensures Safe(policies, s.(writes := s.writes + Tagged(s.senders[t].attempt, ws)))
  {
  }

  lemma SenderSafe(policies: seq<RetryPolicy>, s: System, t: nat, step: Step)
    requires Safe(policies, s) && t in s.senders && SenderStep(s, t, step).Some?
    ensures Safe(policies, SenderStep(s, t, step).value)
  {
    var a := s.senders[t].attempt;
    match (step, s.senders[t].place) {
      case (Send(_, ws), Idle) => MovesOn(policies, s, t, Waiting(ws));
      case (Acquire(_), Waiting(ws)) =>
        LocksSafe(policies, s, t);
        MovesOn(policies, SetLock(s, a, HeldBy(t)), t, Checking(ws));
      case (Check(_), Checking(ws)) => MovesOn(policies, s, t, if s.scopes[a].active then Adding(ws) else Leaving);
      case (Add(_), Adding(ws)) =>
        AddsSafe(policies, s, t, ws);
        MovesOn(policies, s.(writes := s.writes + Tagged(a, ws)), t, Leaving);
      case (Release(_), Leaving) => UnlocksSafe(policies, s, t);
      case _ =>
    }
  }

  lemma ConcludedSafe(policies: seq<RetryPolicy>, s: System, why: Ending)
    requires Safe(policies, s) && s.phase == Closed(why)
    ensures Safe(policies, Concluded(policies, s, why))
  {
  }

  lemma LoopSafe(policies: seq<RetryPolicy>, s: System, step: Step)
    requires Safe(policies, s) && LoopStep(policies, s, step).Some?
    ensures Safe(policies, LoopStep(policies, s, step).value)
  {
    if step.Decide? { ConcludedSafe(policies, s, s.phase.why); }
  }

  lemma TakeSafe(policies: seq<RetryPolicy>, s: System, step: Step)
    requires Safe(policies, s) && Take(policies, s, step).Some?
    ensures Safe(policies, Take(policies, s, step).value)
  {
    match step
    case Spawn(_, _) =>
    case Send(t, _) => SenderSafe(policies, s, t, step);
    case Acquire(t) => SenderSafe(policies, s, t, step);
    case Check(t) => SenderSafe(policies, s, t, step);
    case Add(t) => SenderSafe(policies, s, t, step);
    case Release(t) => SenderSafe(policies, s, t, step);
    case _ => LoopSafe(policies, s, step);
  }

  // ---------------------------------------------------------------- every interleaving

  ghost predicate Interleaving(policies: seq<RetryPolicy>, run: seq<System>, steps: seq<Step>) {
    && |run| == |steps| + 1 && run[0] == Initial()
    && forall i :: 0 <= i < |steps| ==> Happens(policies, run[i], steps[i], run[i + 1])
  }

  ghost predicate Happens(policies: seq<RetryPolicy>, s: System, step: Step, s': System) {
    && s.scopes != [] && (forall t <- s.senders :: s.senders[t].attempt < |s.scopes|)
    && Take(policies, s, step) == Some(s')
  }

  lemma {:induction false} AlwaysSafe(policies: seq<RetryPolicy>, run: seq<System>, steps: seq<Step>, i: nat)
    requires Interleaving(policies, run, steps) && i <= |steps|
    ensures Safe(policies, run[i])
  {
    if i == 0 {
      assert Safe(policies, Initial());
    } else {
      AlwaysSafe(policies, run, steps, i - 1);
      assert Happens(policies, run[i - 1], steps[i - 1], run[i]);
      TakeSafe(policies, run[i - 1], steps[i - 1]);
    }
  }

  lemma StepKeeps(policies: seq<RetryPolicy>, s: System, step: Step)
    requires Safe(policies, s) && Take(policies, s, step).Some?
    ensures var s' := Take(policies, s, step).value;
            && s.timedOut <= s'.timedOut
            && (s.phase.Over? ==> s'.phase.Over? && s'.writes == s.writes && |s'.scopes| == |s.scopes|)
  {
  }

  lemma {:induction false} TimedOutForEver(policies: seq<RetryPolicy>, run: seq<System>, steps: seq<Step>, i: nat,
          j: nat)
    requires Interleaving(policies, run, steps) && i <= j <= |steps|
    ensures run[i].timedOut <= run[j].timedOut
  {
    if i < j {
      TimedOutForEver(policies, run, steps, i, j - 1);
      AlwaysSafe(policies, run, steps, j - 1);
      assert Happens(policies, run[j - 1], steps[j - 1], run[j]);
      StepKeeps(policies, run[j - 1], steps[j - 1]);
    }
  }

  /** From the moment an attempt has been cleared after its timeout no write of it is ever
      there again, in any interleaving of sends, closes and retries. */
  lemma NoWriteAfterTimeout(policies: seq<RetryPolicy>, run: seq<System>, steps: seq<Step>, i: nat, j: nat, a: nat)
    requires Interleaving(policies, run, steps) && i <= j <= |steps| && a in run[i].timedOut
    ensures a in run[j].timedOut && forall w <- run[j].writes :: w.0 != a
  {
    AlwaysSafe(policies, run, steps, j);
    TimedOutForEver(policies, run, steps, i, j);
  }

  /** At any time the writes all come from the latest attempt, and there are never more
      attempts than the most generous policy allows. */
  lemma WritesOfLastAttempt(policies: seq<RetryPolicy>, run: seq<System>, steps: seq<Step>, i: nat)
    requires Interleaving(policies, run, steps) && i <= |steps|
    ensures 1 <= |run[i].scopes| <= MostAttempts(policies)
    ensures forall w <- run[i].writes :: w.0 == |run[i].scopes| - 1
  {
    AlwaysSafe(policies, run, steps, i);
  }

  /** Once the retry loop has ended no thread that is still around can change the writes. */
  lemma {:induction false} OverIsFinal(policies: seq<RetryPolicy>, run: seq<System>, steps: seq<Step>, i: nat, j: nat)
    requires Interleaving(policies, run, steps) && i <= j <= |steps| && run[i].phase.Over?
    ensures run[j].phase.Over? && run[j].writes == run[i].writes
  {
    if i < j {
      OverIsFinal(policies, run, steps, i, j - 1);
      AlwaysSafe(policies, run, steps, j - 1);
      assert Happens(policies, run[j - 1], steps[j - 1], run[j]);
      StepKeeps(policies, run[j - 1], steps[j - 1]);
    }
  }

  // ---------------------------------------------------------------- how the loop ends

  /** No policy retries on the error, or the first that does allows no more attempts than these. */
  ghost predicate GivesUp(policies: seq<RetryPolicy>, e: Error, attempts: nat) {
    || (forall p <- policies :: !p.retryOn(e))
    || exists k: nat :: FirstToRetry(policies, e, k) && policies[k].maxAttempts <= attempts
  }

  lemma {:induction false} SomeFirst(policies: seq<RetryPolicy>, e: Error, n: nat) returns (k: nat)
    requires n <= |policies| && exists j :: 0 <= j < n && policies[j].retryOn(e)
    ensures FirstToRetry(policies, e, k)
  {
    if exists j :: 0 <= j < n - 1 && policies[j].retryOn(e) { k := SomeFirst(policies, e, n - 1); } else { k := n - 1; }
  }

  lemma TriesAgainUnless(policies: seq<RetryPolicy>, e: Error, attempts: nat)
    requires attempts > 0
    ensures TriesAgain(policies, e, attempts - 1) <==> !GivesUp(policies, e, attempts)
  {
    forall k: nat | FirstToRetry(policies, e, k) ensures Matching(policies, e) == Some(policies[k]) {
      MatchingIsFirst(policies, e, k);
    }
    if p :| p in policies && p.retryOn(e) {
      var j :| 0 <= j < |policies| && policies[j] == p;
      var k := SomeFirst(policies, e, |policies|);
    }
  }

  /** The error with which the retry loop goes on after such an end of an attempt. */
  function ErrorOf(why: Ending): Option<Error> {
    match why case TimedOut => Some(NodeTimeout) case Failed(e) => Some(e) case _ => None
  }

  /** In every interleaving: an attempt that failed or timed out is the last exactly if no policy
      retries on its error, or the first one that does allows no more attempts than there were.
      Otherwise a new attempt runs, with an open scope and without writes. */
  lemma DecidesExactly(policies: seq<RetryPolicy>, run: seq<System>, steps: seq<Step>, i: nat, why: Ending)
    requires Interleaving(policies, run, steps) && i < |steps| && steps[i].Decide? && run[i].phase == Closed(why)
    requires ErrorOf(why).Some?
    ensures if GivesUp(policies, ErrorOf(why).value, |run[i].scopes|)
            then run[i + 1] == run[i].(phase := Over)
            else run[i + 1].phase.Running? && run[i + 1].writes == [] &&
                 run[i + 1].scopes == run[i].scopes + [Scope(true, Free)]
  {
    AlwaysSafe(policies, run, steps, i);
    assert Happens(policies, run[i], steps[i], run[i + 1]);
    TriesAgainUnless(policies, ErrorOf(why).value, |run[i].scopes|);
  }

  /** Any other end is final. The writers of a command add their writes, of the last attempt. */
  lemma EndsExactly(policies: seq<RetryPolicy>, run: seq<System>, steps: seq<Step>, i: nat, why: Ending)
    requires Interleaving(policies, run, steps) && i < |steps| && steps[i].Decide? && run[i].phase == Closed(why)
    requires ErrorOf(why).None?
    ensures run[i + 1].phase.Over? && run[i + 1].scopes == run[i].scopes
    ensures |run[i + 1].writes| == |run[i].writes| + if why.Commanded? then |why.ws| else 0
    ensures forall k :: 0 <= k < |run[i].writes| ==> run[i + 1].writes[k] == run[i].writes[k]
    ensures why.Commanded? ==> forall k :: 0 <= k < |why.ws| ==>
      run[i + 1].writes[|run[i].writes| + k] == (|run[i].scopes| - 1, why.ws[k])
  {
    AlwaysSafe(policies, run, steps, i);
    assert Happens(policies, run[i], steps[i], run[i + 1]);
  }

  /** Before a timeout is raised the writes of its attempt have been cleared. */
  lemma TimedOutIsCleared(policies: seq<RetryPolicy>, run: seq<System>, steps: seq<Step>, i: nat)
    requires Interleaving(policies, run, steps) && i <= |steps| && run[i].phase == Closed(TimedOut)
    ensures run[i].writes == [] && |run[i].scopes| - 1 in run[i].timedOut
  {
    AlwaysSafe(policies, run, steps, i);
  }
}
