/** Chat messages and the two reducers that merge a batch of them into a list: the general
    one and the one that a delta channel folds with. */
module Messages {
  import opened Channels
  import opened Lists

  datatype Role = Human | Ai | Tool | System | Remove

  datatype ToolCall = ToolCall(id: string, name: string, args: string)

  /** `calls` are the tool calls of an Ai message, `answers` the call a Tool message belongs to. */
  datatype Message = Message(role: Role, id: Option<string>, text: string, calls: seq<ToolCall>, answers: string)

  /** A write is one message or a list of them; only lists are flattened. */
  datatype MessageWrite = One(message: Message) | Many(messages: seq<Message>)

  const REMOVE_ALL := "__remove_all__"

  function RemoveMessage(id: string): Message { Message(Remove, Some(id), "", [], "") }

  predicate DistinctIds(s: seq<Message>) {
    forall i, j :: 0 <= i < j < |s| && s[i].id.Some? ==> s[i].id != s[j].id
  }

  function Flat(writes: seq<MessageWrite>): seq<Message> {
    if writes == [] then []
    else Flat(writes[..|writes| - 1]) + match writes[|writes| - 1] case One(m) => [m] case Many(ms) => ms
  }

  /** The messages of one write: those of a list, or the one. */
  ghost predicate MessagesOf(w: MessageWrite, ms: seq<Message>) {
    (w.One? ==> ms == [w.message]) && (w.Many? ==> ms == w.messages)
  }

  ghost predicate EachOpened(writes: seq<MessageWrite>, parts: seq<seq<Message>>) {
    |parts| == |writes| && forall i :: 0 <= i < |writes| ==> MessagesOf(writes[i], parts[i])
  }

  /** The messages of the writes, one write behind the other. */
  ghost predicate Opened(writes: seq<MessageWrite>, flat: seq<Message>) {
    exists parts :: EachOpened(writes, parts) && Joins(parts, flat)
  }

  lemma {:induction false} FlatOpened(writes: seq<MessageWrite>) returns (parts: seq<seq<Message>>)
    ensures EachOpened(writes, parts) && Joins(parts, Flat(writes))
  {
    if writes == [] {
      parts := [];
      NoneJoins<Message>();
    } else {
      var n := |writes| - 1;
      var part := match writes[n] case One(m) => [m] case Many(ms) => ms;
      var before := FlatOpened(writes[..n]);
      JoinsMore(before, Flat(writes[..n]), part);
      parts := before + [part];
      forall i | 0 <= i < |writes| ensures MessagesOf(writes[i], parts[i]) {
        if i < n { assert MessagesOf(writes[..n][i], before[i]); }
      }
    }
  }

  // ---------------------------------------------------------------- the simple fold

  function Position(s: seq<Message>, id: string): (p: Option<nat>)
    ensures p.Some? ==> p.value < |s| && s[p.value].id == Some(id)
    ensures p.Some? ==> forall i :: 0 <= i < p.value ==> s[i].id != Some(id)
    ensures p.None? ==> forall i :: 0 <= i < |s| ==> s[i].id != Some(id)
  {
    if s == [] then None
    else if s[0].id == Some(id) then Some(0)
    else match Position(s[1..], id)
         case None => None
         case Some(p) => assert forall i :: 0 < i < |s| ==> s[i] == s[1..][i - 1]; Some(p + 1)
  }

  /** One message on a compact list: remove by id, replace in place by id, or append. */
  function Apply(s: seq<Message>, m: Message): seq<Message> {
    if m.id.None? then s + [m]
    else match Position(s, m.id.value)
         case None => if m.role.Remove? then s else s + [m]
         case Some(p) => if m.role.Remove? then s[..p] + s[p + 1..] else s[p := m]
  }

  function ApplyAll(s: seq<Message>, ms: seq<Message>): seq<Message> {
    if ms == [] then s else Apply(ApplyAll(s, ms[..|ms| - 1]), ms[|ms| - 1])
  }

  predicate Unnamed(m: Message) { m.id.None? }

  lemma NamedChanges(s: seq<Message>, p: nat, m: Message, u: seq<Message>)
    requires p < |s| && s[p].id.Some? && m.id.Some? && Picked(s, Unnamed, Itself, u)
    ensures Picked(s[p := m], Unnamed, Itself, u) && Picked(s[..p] + s[p + 1..], Unnamed, Itself, u)
  {
    Surrounded(s, p, m);
    NamedAround(s[..p], s[p], [m], s[p + 1..], u);
    NamedAround(s[..p], s[p], [], s[p + 1..], u);
  }

  lemma Surrounded<T>(s: seq<T>, p: nat, x: T)
    requires p < |s|
    ensures s == s[..p] + [s[p]] + s[p + 1..] && s[p := x] == s[..p] + [x] + s[p + 1..]
    ensures s[..p] + s[p + 1..] == s[..p] + [] + s[p + 1..]
  {}

  lemma NamedAround(a: seq<Message>, x: Message, y: seq<Message>, b: seq<Message>, u: seq<Message>)
    requires x.id.Some? && |y| <= 1 && (forall m <- y :: m.id.Some?) && Picked(a + [x] + b, Unnamed, Itself, u)
    ensures Picked(a + y + b, Unnamed, Itself, u)
  {
    PickedAround(a, [x], y, b, Unnamed, Itself, u);
  }

  lemma NamedKept(s: seq<Message>, m: Message, u: seq<Message>)
    requires m.id.Some? && Picked(s, Unnamed, Itself, u)
    ensures Picked(Apply(s, m), Unnamed, Itself, u)
  {
    var p := Position(s, m.id.value);
    if p.Some? {
      NamedChanges(s, p.value, m, u);
    } else if m.role.Remove? {
      assert Apply(s, m) == s;
    } else {
      assert Apply(s, m) == s + [m];
      PickedMore(s, Unnamed, Itself, u, m);
    }
  }

  lemma UnnamedKept(s: seq<Message>, m: Message, u: seq<Message>)
    requires Picked(s, Unnamed, Itself, u)
    ensures Picked(Apply(s, m), Unnamed, Itself, if Unnamed(m) then u + [m] else u)
  {
    if m.id.Some? {
      NamedKept(s, m, u);
    } else {
      assert Apply(s, m) == s + [m];
      PickedMore(s, Unnamed, Itself, u, m);
    }
  }

  /** Messages without an id are neither replaced nor removed: they stay, and new ones are added. */
  lemma {:induction false} UnnamedStay(s: seq<Message>, ms: seq<Message>, u: seq<Message>) returns (v: seq<Message>)
    requires Picked(s, Unnamed, Itself, u)
    ensures Picked(ms, Unnamed, Itself, v) && Picked(ApplyAll(s, ms), Unnamed, Itself, u + v)
  {
    if ms == [] {
      v := [];
      PickedNone(Unnamed, Itself);
      assert u + [] == u;
    } else {
      var n := |ms| - 1;
      v := UnnamedStay(s, ms[..n], u);
      UnnamedKept(ApplyAll(s, ms[..n]), ms[n], u + v);
      PickedMore(ms[..n], Unnamed, Itself, v, ms[n]);
      LastOff(ms);
      if Unnamed(ms[n]) {
        Assoc(u, v, [ms[n]]);
        v := v + [ms[n]];
      }
    }
  }

  // ---------------------------------------------------------------- holes and an index

  /** The working list, where a removed message leaves a hole, and the slot of each id. */
  datatype Slots = Slots(items: seq<Option<Message>>, index: map<string, nat>)

  function Compact(items: seq<Option<Message>>): seq<Message> {
    if items == [] then []
    else Compact(items[..|items| - 1]) + match items[|items| - 1] case None => [] case Some(m) => [m]
  }

  function IndexOf(s: seq<Message>): (r: map<string, nat>)
    ensures forall id <- r :: r[id] < |s| && s[r[id]].id == Some(id)
    ensures forall i :: 0 <= i < |s| && s[i].id.Some? ==> s[i].id.value in r && i <= r[s[i].id.value]
  {
    if s == [] then map[]
    else
      var n := |s| - 1;
      var rest := IndexOf(s[..n]);
      if s[n].id.Some? then rest[s[n].id.value := n] else rest
  }

  function Whole(s: seq<Message>): (r: seq<Option<Message>>)
    ensures |r| == |s| && forall i :: 0 <= i < |s| ==> r[i] == Some(s[i])
  {
    seq(|s|, i requires 0 <= i < |s| => Some(s[i]))
  }

  function Start(s: seq<Message>): Slots { Slots(Whole(s), IndexOf(s)) }

  predicate InBounds(w: Slots) { forall id <- w.index :: w.index[id] < |w.items| }

  function Put(w: Slots, m: Message): (r: Slots)
    requires InBounds(w)
    ensures InBounds(r)
  {
    if m.id.None? then Slots(w.items + [Some(m)], w.index)
    else
      var id := m.id.value;
      if m.role.Remove? then
        if id in w.index then Slots(w.items[w.index[id] := None], w.index - {id}) else w
      else if id in w.index then Slots(w.items[w.index[id] := Some(m)], w.index)
      else Slots(w.items + [Some(m)], w.index[id := |w.items|])
  }

  function PutAll(w: Slots, ms: seq<Message>): (r: Slots)
    requires InBounds(w)
    ensures InBounds(r)
  {
    if ms == [] then w else Put(PutAll(w, ms[..|ms| - 1]), ms[|ms| - 1])
  }

  function Reduce(s: seq<Message>, ms: seq<Message>): seq<Message> {
    Compact(PutAll(Start(s), ms).items)
  }

  method Flatten(writes: seq<MessageWrite>) returns (flat: seq<Message>)
    ensures flat == Flat(writes)
  {
    flat := [];
    for i := 0 to |writes|
      invariant flat == Flat(writes[..i])
    {
      assert writes[..i + 1][..i] == writes[..i];
      flat := flat + match writes[i] case One(m) => [m] case Many(ms) => ms;
    }
    assert writes[..|writes|] == writes;
  }

  /** The index by id; of two messages with one id the later one is found. */
  method IndexById(state: seq<Message>) returns (index: map<string, nat>)
    ensures index == IndexOf(state)
  {
    index := map[];
    for i := 0 to |state|
      invariant index == IndexOf(state[..i])
    {
      assert state[..i + 1][..i] == state[..i];
      if state[i].id.Some? { index := index[state[i].id.value := i]; }
    }
    assert state[..|state|] == state;
  }

  method WithoutHoles(items: seq<Option<Message>>) returns (out: seq<Message>)
    ensures out == Compact(items)
  {
    out := [];
    for i := 0 to |items|
      invariant out == Compact(items[..i])
    {
      assert items[..i + 1][..i] == items[..i];
      if items[i].Some? { out := out + [items[i].value]; }
    }
    assert items[..|items|] == items;
  }

  /** The reducer as it is run: one pass over all writes with holes and an id index. */
  method MessagesDeltaReducer(state: seq<Message>, writes: seq<MessageWrite>) returns (out: seq<Message>)
    ensures out == Reduce(state, Flat(writes))
    ensures DistinctIds(state) ==> out == ApplyAll(state, Flat(writes)) && DistinctIds(out)
    ensures Opened(writes, Flat(writes))
  {
    ghost var parts := FlatOpened(writes);
    var flat := Flatten(writes);
    var index := IndexById(state);
    var result := Whole(state);
    for i := 0 to |flat|
      invariant forall id <- index :: 0 <= index[id] < |result|
      invariant Slots(result, index) == PutAll(Start(state), flat[..i])
    {
      assert flat[..i + 1][..i] == flat[..i];
      assert PutAll(Start(state), flat[..i + 1]) == Put(Slots(result, index), flat[i]);
      var msg := flat[i];
      if msg.id.None? {
        result := result + [Some(msg)];
      } else if msg.role.Remove? {
        if msg.id.value in index {
          result := result[index[msg.id.value] := None];
          index := index - {msg.id.value};
        }
      } else if msg.id.value in index {
        result := result[index[msg.id.value] := Some(msg)];
      } else {
        index := index[msg.id.value := |result|];
        result := result + [Some(msg)];
      }
    }
    assert flat[..|flat|] == flat;
    out := WithoutHoles(result);
    if DistinctIds(state) { ReduceIsFold(state, flat); }
  }

  // ---------------------------------------------------------------- the reducer refines the fold

  /** Every id stands in one slot, and the index knows which. */
  ghost predicate Indexed(w: Slots) {
    && InBounds(w)
    && (forall id <- w.index :: Holds(w.items, w.index[id], id))
    && (forall j: nat, id :: Holds(w.items, j, id) ==> id in w.index && w.index[id] == j)
  }

  ghost predicate Holds(items: seq<Option<Message>>, j: nat, id: string) {
    j < |items| && items[j].Some? && items[j].value.id == Some(id)
  }

  lemma {:induction false} CompactConcat(a: seq<Option<Message>>, b: seq<Option<Message>>)
    ensures Compact(a + b) == Compact(a) + Compact(b)
  {
    if b == [] {
      assert a + b == a;
    } else {
      var n := |b| - 1;
      assert (a + b)[..|a + b| - 1] == a + b[..n] && (a + b)[|a + b| - 1] == b[n];
      CompactConcat(a, b[..n]);
    }
  }

  lemma CompactOne(x: Option<Message>)
    ensures Compact([x]) == match x case None => [] case Some(m) => [m]
  {
    assert [x][..0] == [];
  }

  lemma CompactParts(a: seq<Option<Message>>, x: Option<Message>, b: seq<Option<Message>>)
    ensures Compact(a + ([x] + b)) == Compact(a) + (match x case None => [] case Some(m) => [m]) + Compact(b)
  {
    CompactConcat(a, [x] + b);
    CompactConcat([x], b);
    CompactOne(x);
    Assoc(Compact(a), Compact([x]), Compact(b));
  }

  lemma CompactAt(items: seq<Option<Message>>, j: nat)
    requires j < |items|
    ensures Compact(items) == Compact(items[..j]) + (match items[j] case None => [] case Some(m) => [m]) +
      Compact(items[j + 1..])
  {
    Around(items, j);
    CompactParts(items[..j], items[j], items[j + 1..]);
  }

  lemma {:induction false} CompactHolds(items: seq<Option<Message>>, id: string)
    requires forall j: nat :: !Holds(items, j, id)
    ensures forall i :: 0 <= i < |Compact(items)| ==> Compact(items)[i].id != Some(id)
  {
    if items != [] {
      var n := |items| - 1;
      forall j: nat ensures !Holds(items[..n], j, id) { assert Holds(items[..n], j, id) ==> Holds(items, j, id); }
      CompactHolds(items[..n], id);
      assert !Holds(items, n, id);
    }
  }

  lemma FirstPosition(a: seq<Message>, m: Message, b: seq<Message>, id: string)
    requires m.id == Some(id) && forall i :: 0 <= i < |a| ==> a[i].id != Some(id)
    ensures Position(a + [m] + b, id) == Some(|a|)
  {
    var s := a + [m] + b;
    assert s[|a|] == m && forall i :: 0 <= i < |a| ==> s[i] == a[i];
  }

  /** The slot of an id is its position in the compact list. */
  lemma PositionOfSlot(w: Slots, id: string)
    requires Indexed(w)
    ensures id !in w.index ==> Position(Compact(w.items), id) == None
    ensures id in w.index ==> Position(Compact(w.items), id) == Some(|Compact(w.items[..w.index[id]])|)
  {
    if id !in w.index {
      CompactHolds(w.items, id);
    } else {
      var j := w.index[id];
      assert Holds(w.items, j, id);
      forall k: nat ensures !Holds(w.items[..j], k, id) { assert Holds(w.items[..j], k, id) ==> Holds(w.items, k, id); }
      CompactHolds(w.items[..j], id);
      CompactAt(w.items, j);
      FirstPosition(Compact(w.items[..j]), w.items[j].value, Compact(w.items[j + 1..]), id);
    }
  }

  lemma PutIndexed(w: Slots, m: Message)
    requires Indexed(w)
    ensures Indexed(Put(w, m))
  {
    var r := Put(w, m);
    forall j: nat, id | Holds(r.items, j, id) ensures id in r.index && r.index[id] == j {
      assert Holds(w.items, j, id) || m.id == Some(id);
    }
    forall id | id in r.index ensures Holds(r.items, r.index[id], id) {
      assert m.id != Some(id) ==> id in w.index && Holds(w.items, w.index[id], id);
    }
  }

  lemma PutApplies(w: Slots, m: Message)
    requires Indexed(w)
    ensures Compact(Put(w, m).items) == Apply(Compact(w.items), m)
  {
    var r := Put(w, m);
    if m.id.None? || (!m.role.Remove? && m.id.value !in w.index) {
      assert r.items[..|r.items| - 1] == w.items;
    }
    if m.id.Some? {
      PositionOfSlot(w, m.id.value);
      if m.id.value in w.index {
        var j := w.index[m.id.value];
        assert Holds(w.items, j, m.id.value);
        CompactAt(w.items, j);
        CompactAt(r.items, j);
        assert r.items[..j] == w.items[..j] && r.items[j + 1..] == w.items[j + 1..];
        Middle(Compact(w.items[..j]), w.items[j].value, m, Compact(w.items[j + 1..]));
      }
    }
  }

  lemma {:induction false} CompactAll(s: seq<Message>)
    ensures Compact(Whole(s)) == s
  {
    if s != [] {
      var n := |s| - 1;
      assert Whole(s)[..n] == Whole(s[..n]);
      CompactAll(s[..n]);
      assert s == s[..n] + [s[n]];
    }
  }

  lemma StartIndexed(s: seq<Message>)
    requires DistinctIds(s)
    ensures Indexed(Start(s))
  {
    var w := Start(s);
    forall j: nat, id | Holds(w.items, j, id) ensures id in w.index && w.index[id] == j {
      assert s[j].id == Some(id);
    }
  }

  lemma {:induction false} PutAllRefines(w: Slots, ms: seq<Message>)
    requires Indexed(w)
    ensures Indexed(PutAll(w, ms)) && Compact(PutAll(w, ms).items) == ApplyAll(Compact(w.items), ms)
  {
    if ms != [] {
      var n := |ms| - 1;
      PutAllRefines(w, ms[..n]);
      PutIndexed(PutAll(w, ms[..n]), ms[n]);
      PutApplies(PutAll(w, ms[..n]), ms[n]);
    }
  }

  lemma {:induction false} CompactDistinct(items: seq<Option<Message>>)
    requires forall i: nat, j: nat, id :: Holds(items, i, id) && Holds(items, j, id) ==> i == j
    ensures DistinctIds(Compact(items))
  {
    if items != [] {
      var n := |items| - 1;
      forall i: nat, j: nat, id | Holds(items[..n], i, id) && Holds(items[..n], j, id) ensures i == j {
        assert Holds(items, i, id) && Holds(items, j, id);
      }
      CompactDistinct(items[..n]);
      if items[n].Some? && items[n].value.id.Some? {
        var id := items[n].value.id.value;
        assert Holds(items, n, id);
        forall j: nat ensures !Holds(items[..n], j, id) { assert Holds(items[..n], j, id) ==> Holds(items, j, id); }
        CompactHolds(items[..n], id);
      }
    }
  }

  /** On a list with distinct ids the reducer is the simple fold, and keeps ids distinct. */
  lemma ReduceIsFold(s: seq<Message>, ms: seq<Message>)
    requires DistinctIds(s)
    ensures Reduce(s, ms) == ApplyAll(s, ms)
    ensures DistinctIds(Reduce(s, ms))
  {
    StartIndexed(s);
    CompactAll(s);
    PutAllRefines(Start(s), ms);
    CompactDistinct(PutAll(Start(s), ms).items);
  }

  // ---------------------------------------------------------------- batching

  lemma {:induction false} ApplyAllConcat(s: seq<Message>, xs: seq<Message>, ys: seq<Message>)
    ensures ApplyAll(s, xs + ys) == ApplyAll(ApplyAll(s, xs), ys)
  {
    if ys == [] {
      assert xs + ys == xs;
    } else {
      var n := |ys| - 1;
      assert (xs + ys)[..|xs + ys| - 1] == xs + ys[..n];
      ApplyAllConcat(s, xs, ys[..n]);
    }
  }

  ghost predicate BatchesAt(s: seq<Message>) {
    forall xs, ys :: Reduce(Reduce(s, xs), ys) == Reduce(s, xs + ys)
  }

  /** Two removals of an id that stands twice: one batch removes one message, two batches two. */
  lemma RepeatedIdBreaks(s: seq<Message>, i: nat, j: nat)
    requires i < j < |s| && s[i].id.Some? && s[i].id == s[j].id
    ensures var x := [RemoveMessage(s[i].id.value)]; |Reduce(Reduce(s, x), x)| < |Reduce(s, x + x)|
  {
    var id := s[i].id.value;
    var m, q := RemoveMessage(id), IndexOf(s)[id];
    OneRemoved(s, q, m);
    TwiceIsOnce(s, m);
    var t := s[..q] + s[q + 1..];
    OtherStays(s, i, q);
    RemovedShortens(t, i, m);
    assert [m] + [m] == [m, m];
  }

  /** Removing an id that some message has makes the list shorter. */
  lemma RemovedShortens(t: seq<Message>, i: nat, m: Message)
    requires i < |t| && m.role.Remove? && m.id.Some? && t[i].id == m.id
    ensures |Reduce(t, [m])| == |t| - 1
  {
    OneRemoved(t, IndexOf(t)[m.id.value], m);
  }

  lemma OtherStays<T>(s: seq<T>, i: nat, q: nat)
    requires i < q < |s|
    ensures |s[..q] + s[q + 1..]| == |s| - 1 && (s[..q] + s[q + 1..])[i] == s[i]
  {
  }

  lemma TwiceIsOnce(s: seq<Message>, m: Message)
    requires m.role.Remove? && m.id.Some? && m.id.value in IndexOf(s)
    ensures Reduce(s, [m, m]) == Reduce(s, [m])
  {
    var w := Start(s);
    assert [m, m][..1] == [m];
    assert PutAll(w, [m][..0]) == w;
    assert PutAll(w, [m]) == Put(w, m);
    assert m.id.value !in Put(w, m).index;
  }

  lemma OneRemoved(s: seq<Message>, q: nat, m: Message)
    requires m.role.Remove? && m.id.Some? && m.id.value in IndexOf(s) && q == IndexOf(s)[m.id.value]
    ensures Reduce(s, [m]) == s[..q] + s[q + 1..]
  {
    var w := Start(s);
    assert PutAll(w, [m][..0]) == w;
    assert PutAll(w, [m]) == Put(w, m);
    CompactWithHole(s, q);
  }

  lemma CompactWithHole(s: seq<Message>, q: nat)
    requires q < |s|
    ensures Compact(Whole(s)[q := None]) == s[..q] + s[q + 1..]
  {
    WholeWithHole(s, q);
    CompactParts(Whole(s[..q]), None, Whole(s[q + 1..]));
    CompactAll(s[..q]);
    CompactAll(s[q + 1..]);
    assert s[..q] + [] == s[..q];
  }

  lemma WholeWithHole(s: seq<Message>, q: nat)
    requires q < |s|
    ensures Whole(s)[q := None] == Whole(s[..q]) + ([None] + Whole(s[q + 1..]))
  {
  }

  /** The reducer is batching-invariant from a list exactly when its ids are distinct. */
  lemma BatchingExactly(s: seq<Message>)
    ensures BatchesAt(s) <==> DistinctIds(s)
  {
    if DistinctIds(s) {
      forall xs, ys ensures Reduce(Reduce(s, xs), ys) == Reduce(s, xs + ys) {
        ReduceIsFold(s, xs);
        ReduceIsFold(Reduce(s, xs), ys);
        ReduceIsFold(s, xs + ys);
        ApplyAllConcat(s, xs, ys);
      }
    } else {
      var i, j :| 0 <= i < j < |s| && s[i].id.Some? && s[i].id == s[j].id;
      RepeatedIdBreaks(s, i, j);
      var x := [RemoveMessage(s[i].id.value)];
      assert Reduce(Reduce(s, x), x) != Reduce(s, x + x);
    }
  }

  lemma {:induction false} FlatConcat(xs: seq<MessageWrite>, ys: seq<MessageWrite>)
    ensures Flat(xs + ys) == Flat(xs) + Flat(ys)
  {
    if ys == [] {
      assert xs + ys == xs;
    } else {
      var n := |ys| - 1;
      assert (xs + ys)[..|xs + ys| - 1] == xs + ys[..n] && (xs + ys)[|xs + ys| - 1] == ys[n];
      FlatConcat(xs, ys[..n]);
      Assoc(Flat(xs), Flat(ys[..n]), match ys[n] case One(m) => [m] case Many(ms) => ms);
    }
  }
}
