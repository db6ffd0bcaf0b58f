/** What one call of `apply_writes` does to the channels, their versions and the versions
    each node has seen, stated channel by channel. */
module Supersteps {
  import opened Channels
  import opened TaskOrder

  datatype Store = Store(
    channels: map<ChannelName, Channel>,
    versions: map<ChannelName, nat>,
    seen: map<Node, map<ChannelName, nat>>)

  /** A channel on its way through a superstep: whether its version was bumped, and
      whether it was added to the set of updated channels. */
  datatype Cell = Cell(channel: Channel, bumped: bool, updated: bool)

  datatype Applied = Refused | Done(store: Store, updated: set<ChannelName>)

  // ---------------------------------------------------------------- the parts of a superstep

  /** The values a list of writes holds for a channel, in order. */
  function Values(writes: seq<Write>, c: ChannelName): seq<Value> {
    if writes == [] then []
    else (if writes[0].0 == c then [writes[0].1] else []) + Values(writes[1..], c)
  }

  lemma {:induction false} ValuesConcat(a: seq<Write>, b: seq<Write>, c: ChannelName)
    ensures Values(a + b, c) == Values(a, c) + Values(b, c)
  {
    if a == [] {
      assert a + b == b;
    } else {
      ValuesConcat(a[1..], b, c);
      var head: seq<Value> := if a[0].0 == c then [a[0].1] else [];
      assert (a + b)[0] == a[0] && (a + b)[1..] == a[1..] + b;
      assert Values(a + b, c) == head + (Values(a[1..], c) + Values(b, c));
      assert head + (Values(a[1..], c) + Values(b, c)) == (head + Values(a[1..], c)) + Values(b, c);
    }
  }

  function AllWrites(tasks: seq<Task>): seq<Write> {
    if tasks == [] then [] else tasks[0].writes + AllWrites(tasks[1..])
  }

  function Batch(tasks: seq<Task>, c: ChannelName): seq<Value> {
    if c.Control? then [] else Values(AllWrites(Sort(tasks)), c)
  }

  /** Some task was triggered by the channel. Control names are reserved. */
  predicate ReadBy(tasks: seq<Task>, c: ChannelName) {
    !c.Control? && exists t <- tasks :: c in t.triggers
  }

  /** Writes of the null task alone do not start a new step. */
  predicate Bumps(tasks: seq<Task>) { exists t <- tasks :: t.triggers != {} }

  ghost function Max(s: set<nat>): (m: nat)
    requires s != {}
    ensures m in s && forall x <- s :: x <= m
  {
    var x :| x in s;
    if s == {x} then x
    else
      var y := Max(s - {x});
      assert forall z <- s :: z == x || z in s - {x};
      if x <= y then y else x
  }

  /** One more than the highest version of any channel, and 1 when there is none. */
  ghost function NextVersion(versions: map<ChannelName, nat>): (n: nat)
    ensures n > 0 && forall c <- versions :: versions[c] < n
    ensures n == 1 || exists c <- versions :: n == versions[c] + 1
  {
    if versions == map[] then 1
    else
      var c :| c in versions;
      assert versions[c] in versions.Values;
      assert forall c <- versions :: versions[c] in versions.Values;
      Max(versions.Values) + 1
  }

  function Consumed(ch: Channel, read: bool): Cell {
    if read then Cell(ch.Consume().0, ch.Consume().1, false) else Cell(ch, false, false)
  }

  function Written(cell: Cell, vals: seq<Value>): Option<Cell> {
    if vals == [] then Some(cell)
    else match cell.channel.Update(vals)
         case Rejected => None
         case Accepted(ch, changed) =>
           Some(Cell(ch, cell.bumped || changed, cell.updated || (changed && ch.Available())))
  }

  /** A channel that is available but was not updated is told that a new step began. */
  function Notified(cell: Cell, bump: bool): Cell {
    if !bump || !cell.channel.Available() || cell.updated then cell
    else match cell.channel.Update([])
         case Rejected => cell
         case Accepted(ch, changed) => Cell(ch, cell.bumped || changed, changed && ch.Available())
  }

  function Finished(cell: Cell, last: bool): Cell {
    if !last then cell
    else
      var (ch, changed) := cell.channel.Finish();
      Cell(ch, cell.bumped || changed, cell.updated || (changed && ch.Available()))
  }

  /** A channel just before the run is checked for having finished. */
  function Staged(ch: Channel, tasks: seq<Task>, c: ChannelName): Option<Cell> {
    match Written(Consumed(ch, ReadBy(tasks, c)), Batch(tasks, c))
    case None => None
    case Some(cell) => Some(Notified(cell, Bumps(tasks)))
  }

  predicate Refuses(channels: map<ChannelName, Channel>, tasks: seq<Task>) {
    exists c <- channels :: Staged(channels[c], tasks, c).None?
  }

  /** No updated channel triggers anything, so this may be the last superstep. */
  predicate LooksLast(channels: map<ChannelName, Channel>, tasks: seq<Task>, triggers: set<ChannelName>)
    requires !Refuses(channels, tasks)
  {
    Bumps(tasks) && forall c <- channels :: Staged(channels[c], tasks, c).value.updated ==> c !in triggers
  }

  function Final(channels: map<ChannelName, Channel>, tasks: seq<Task>, triggers: set<ChannelName>,
          c: ChannelName): Cell
    requires !Refuses(channels, tasks) && c in channels
  {
    Finished(Staged(channels[c], tasks, c).value, LooksLast(channels, tasks, triggers))
  }

  // ---------------------------------------------------------------- the whole superstep

  /** What the tasks called `n` have read, at the versions they read. */
  function Read(versions: map<ChannelName, nat>, tasks: seq<Task>, n: Node): map<ChannelName, nat> {
    map c | c in versions && ReadAs(tasks, n, c) :: versions[c]
  }

  /** Some task of the name was triggered by the channel. */
  predicate ReadAs(tasks: seq<Task>, n: Node, c: ChannelName) { exists t <- tasks :: t.name == n && c in t.triggers }

  function SeenBy(seen: map<Node, map<ChannelName, nat>>, n: Node): map<ChannelName, nat> {
    if n in seen then seen[n] else map[]
  }

  function Names(tasks: seq<Task>): set<Node> { set t <- tasks :: t.name }

  function SeenAfter(st: Store, tasks: seq<Task>): map<Node, map<ChannelName, nat>> {
    map n | n in st.seen.Keys + Names(tasks) :: SeenBy(st.seen, n) + Read(st.versions, tasks, n)
  }

  /** A node has seen its triggers, those of all its tasks, at the versions before the step, and
      everything else as before. */
  lemma SeenIs(st: Store, tasks: seq<Task>, n: Node, c: ChannelName)
    ensures var seen := SeenAfter(st, tasks);
      if c in st.versions && exists t <- tasks :: t.name == n && c in t.triggers
      then n in seen && c in seen[n] && seen[n][c] == st.versions[c]
      else if n in st.seen && c in st.seen[n] then n in seen && c in seen[n] && seen[n][c] == st.seen[n][c]
      else n !in seen || c !in seen[n]
  {}

  function BumpedBy(channels: map<ChannelName, Channel>, tasks: seq<Task>, triggers: set<ChannelName>): set<ChannelName>
    requires !Refuses(channels, tasks)
  {
    set c | c in channels && Final(channels, tasks, triggers, c).bumped
  }

  function UpdatedBy(channels: map<ChannelName, Channel>, tasks: seq<Task>,
          triggers: set<ChannelName>): set<ChannelName>
    requires !Refuses(channels, tasks)
  {
    set c | c in channels && Final(channels, tasks, triggers, c).updated
  }

  function ChannelsAfter(channels: map<ChannelName, Channel>, tasks: seq<Task>,
          triggers: set<ChannelName>): map<ChannelName, Channel>
    requires !Refuses(channels, tasks)
  {
    map c | c in channels :: Final(channels, tasks, triggers, c).channel
  }

  function Rebumped(versions: map<ChannelName, nat>, bumped: set<ChannelName>, next: nat): map<ChannelName, nat> {
    map c | c in versions.Keys + bumped :: if c in bumped then next else versions[c]
  }

  ghost function ApplyWrites(st: Store, tasks: seq<Task>, triggers: set<ChannelName>): Applied {
    if Refuses(st.channels, tasks) then Refused
    else
      Done(
        Store(
          ChannelsAfter(st.channels, tasks, triggers),
          Rebumped(st.versions, BumpedBy(st.channels, tasks, triggers), NextVersion(st.versions)),
          SeenAfter(st, tasks)),
        UpdatedBy(st.channels, tasks, triggers))
  }

  /** The outcome read off one channel at a time. */
  lemma ResultAt(st: Store, tasks: seq<Task>, triggers: set<ChannelName>, c: ChannelName)
    requires ApplyWrites(st, tasks, triggers).Done? && c in st.channels
    ensures !Refuses(st.channels, tasks)
    ensures var r := ApplyWrites(st, tasks, triggers);
      var cell := Final(st.channels, tasks, triggers, c);
      && r.store.seen == SeenAfter(st, tasks)
      && c in r.store.channels && r.store.channels[c] == cell.channel
      && (c in r.updated <==> cell.updated)
      && (cell.bumped ==> c in r.store.versions && r.store.versions[c] == NextVersion(st.versions))
      && (!cell.bumped ==> (c in r.store.versions <==> c in st.versions))
      && (!cell.bumped && c in st.versions ==> r.store.versions[c] == st.versions[c])
  {}

  // ---------------------------------------------------------------- what a superstep depends on

  /** Two lists of tasks that a superstep cannot tell apart. */
  ghost predicate SameEffects(a: seq<Task>, b: seq<Task>) {
    && (forall c :: ReadBy(a, c) == ReadBy(b, c))
    && (forall c :: Batch(a, c) == Batch(b, c))
    && Bumps(a) == Bumps(b)
    && Names(a) == Names(b)
    && (forall versions, n :: Read(versions, a, n) == Read(versions, b, n))
  }

  lemma SameStages(channels: map<ChannelName, Channel>, a: seq<Task>, b: seq<Task>)
    requires SameEffects(a, b)
    ensures forall c <- channels :: Staged(channels[c], a, c) == Staged(channels[c], b, c)
    ensures Refuses(channels, a) == Refuses(channels, b)
  {
    forall c <- channels ensures Staged(channels[c], a, c) == Staged(channels[c], b, c) {
      assert ReadBy(a, c) == ReadBy(b, c);
      assert Batch(a, c) == Batch(b, c);
    }
  }

  lemma SameFinals(channels: map<ChannelName, Channel>, a: seq<Task>, b: seq<Task>, triggers: set<ChannelName>)
    requires SameEffects(a, b) && !Refuses(channels, a) && !Refuses(channels, b)
    ensures forall c <- channels :: Final(channels, a, triggers, c) == Final(channels, b, triggers, c)
  {
    SameStages(channels, a, b);
    assert LooksLast(channels, a, triggers) == LooksLast(channels, b, triggers);
  }

  lemma SameOutcome(st: Store, a: seq<Task>, b: seq<Task>, triggers: set<ChannelName>)
    requires SameEffects(a, b)
    ensures ApplyWrites(st, a, triggers) == ApplyWrites(st, b, triggers)
  {
    SameStages(st.channels, a, b);
    if !Refuses(st.channels, a) {
      SameFinals(st.channels, a, b, triggers);
      assert SeenAfter(st, a) == SeenAfter(st, b) by {
        forall n ensures Read(st.versions, a, n) == Read(st.versions, b, n) {}
      }
      assert ChannelsAfter(st.channels, a, triggers) == ChannelsAfter(st.channels, b, triggers);
      assert BumpedBy(st.channels, a, triggers) == BumpedBy(st.channels, b, triggers);
      assert UpdatedBy(st.channels, a, triggers) == UpdatedBy(st.channels, b, triggers);
    }
  }

  lemma SameMembers(a: seq<Task>, b: seq<Task>)
    requires multiset(a) == multiset(b)
    ensures forall t :: t in a <==> t in b
  {
    forall t ensures t in a <==> t in b {
      assert t in a <==> t in multiset(a);
      assert t in b <==> t in multiset(b);
    }
  }

  lemma ReorderedSameEffects(a: seq<Task>, b: seq<Task>)
    requires multiset(a) == multiset(b) && KeysIdentify(a)
    ensures SameEffects(a, b)
  {
    SameMembers(a, b);
    SortIgnoresOrder(a, b);
    SameMembersRead(a, b);
  }

  lemma SameMembersRead(a: seq<Task>, b: seq<Task>)
    requires forall t :: t in a <==> t in b
    ensures Names(a) == Names(b)
    ensures forall versions, n :: Read(versions, a, n) == Read(versions, b, n)
  {
    forall versions, n ensures Read(versions, a, n) == Read(versions, b, n) {
      assert forall c :: ReadAs(a, n, c) == ReadAs(b, n, c);
    }
  }

  /** The tasks of a superstep may be supplied, and may have finished, in any order: as
      long as no two different tasks share a path key, the outcome is the same, channel
      values, versions, seen versions, updated set and refusal included. */
  lemma OrderIrrelevant(st: Store, a: seq<Task>, b: seq<Task>, triggers: set<ChannelName>)
    requires multiset(a) == multiset(b) && KeysIdentify(a)
    ensures ApplyWrites(st, a, triggers) == ApplyWrites(st, b, triggers)
  {
    ReorderedSameEffects(a, b);
    SameOutcome(st, a, b, triggers);
  }
}
