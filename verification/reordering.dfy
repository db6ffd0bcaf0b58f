/** In which order the two message reducers leave the messages of a batch that removes some and
    brings them back, and exactly when that is the same order. */
module Reordering {
  import opened Channels
  import opened Messages
  import opened AddedMessages
  import opened Lists

  /** Where an id first came in, counting through the list and then the batch. The general
      reducer keeps that place for it, removed or not. */
  function FirstSlot(left: seq<Message>, right: seq<Message>, id: string): Option<nat> {
    if right == [] then Position(left, id)
    else
      var n := |right| - 1;
      var before, m := FirstSlot(left, right[..n], id), right[n];
      if before.None? && m.id == Some(id) && !m.role.Remove? then Some(|left| + n) else before
  }

  /** Where an id that is still there last came in: the fold puts it at the end then, and
      replaces it in place until it is removed. */
  function LastInsertion(left: seq<Message>, right: seq<Message>, id: string): Option<nat> {
    if right == [] then Position(left, id)
    else
      var n := |right| - 1;
      var before, m := LastInsertion(left, right[..n], id), right[n];
      if m.id != Some(id) then before
      else if m.role.Remove? then None
      else if before.None? then Some(|left| + n)
      else before
  }

  predicate Before(x: Option<nat>, y: Option<nat>) { x.Some? && y.Some? && x.value < y.value }

  /** Of any two ids that survive the batch, the one that first came in earlier also last came
      in earlier. */
  ghost predicate OrdersAgree(left: seq<Message>, right: seq<Message>) {
    forall a, b :: LastInsertion(left, right, a).Some? && LastInsertion(left, right, b).Some? ==>
      (Before(FirstSlot(left, right, a), FirstSlot(left, right, b)) <==>
       Before(LastInsertion(left, right, a), LastInsertion(left, right, b)))
  }

  // ---------------------------------------------------------------- lists in some order

  type Place = string -> Option<nat>

  function Firsts(left: seq<Message>, right: seq<Message>): Place { id => FirstSlot(left, right, id) }

  function Lasts(left: seq<Message>, right: seq<Message>): Place { id => LastInsertion(left, right, id) }

  function At(at: Place, m: Message): Option<nat> { if m.id.Some? then at(m.id.value) else None }

  /** The messages have places, and stand in their order. */
  ghost predicate Rising(s: seq<Message>, at: Place) {
    && (forall i :: 0 <= i < |s| ==> At(at, s[i]).Some?)
    && (forall i, j :: 0 <= i < j < |s| ==> Before(At(at, s[i]), At(at, s[j])))
  }

  lemma RisingPrefix(s: seq<Message>, at: Place, n: nat)
    requires Rising(s, at) && n <= |s|
    ensures Rising(s[..n], at)
  {}

  lemma RisingDistinct(s: seq<Message>, at: Place)
    requires Rising(s, at)
    ensures DistinctIds(s) && AllNamed(s)
  {
    forall i, j | 0 <= i < j < |s| && s[i].id.Some? ensures s[i].id != s[j].id {
      assert Before(At(at, s[i]), At(at, s[j]));
    }
    forall m <- s ensures m.id.Some? {
      var i :| 0 <= i < |s| && s[i] == m;
      assert At(at, s[i]).Some?;
    }
  }

  lemma RisingMore(s: seq<Message>, at: Place, m: Message)
    requires Rising(s, at) && At(at, m).Some? && forall i :: 0 <= i < |s| ==> Before(At(at, s[i]), At(at, m))
    ensures Rising(s + [m], at)
  {}

  /** Only the places of the ids in the list matter. */
  lemma RisingSame(s: seq<Message>, at: Place, t: seq<Message>, to: Place)
    requires Rising(s, at) && |s| == |t| && forall i :: 0 <= i < |s| ==> At(to, t[i]) == At(at, s[i])
    ensures Rising(t, to)
  {
    forall i, j | 0 <= i < j < |t| ensures Before(At(to, t[i]), At(to, t[j])) {
      assert Before(At(at, s[i]), At(at, s[j]));
    }
  }

  lemma RisingWithout(a: seq<Message>, x: Message, b: seq<Message>, at: Place)
    requires Rising(a + ([x] + b), at)
    ensures Rising(a + b, at)
  {
    var s, t := a + ([x] + b), a + b;
    assert forall i :: 0 <= i < |t| ==> t[i] == s[if i < |a| then i else i + 1];
  }

  lemma {:induction false} RisingKept(s: seq<Message>, at: Place, removed: set<string>)
    requires Rising(s, at)
    ensures Rising(Kept(s, removed), at)
    ensures forall m <- Kept(s, removed) :: m in s
  {
    if s != [] {
      var n := |s| - 1;
      RisingPrefix(s, at, n);
      RisingKept(s[..n], at, removed);
      var kept := Kept(s[..n], removed);
      forall i | 0 <= i < |kept| ensures Before(At(at, kept[i]), At(at, s[n])) {
        assert kept[i] in s[..n];
        var j :| 0 <= j < n && s[j] == kept[i];
      }
      RisingMore(kept, at, s[n]);
      assert kept + [] == kept;
    }
  }

  ghost predicate SameMembers(s: seq<Message>, t: seq<Message>) { forall m :: m in s <==> m in t }

  lemma LastIsLatest(s: seq<Message>, at: Place, m: Message)
    requires Rising(s, at) && m in s
    ensures m == s[|s| - 1] || Before(At(at, m), At(at, s[|s| - 1]))
  {
    var i :| 0 <= i < |s| && s[i] == m;
    assert i < |s| - 1 ==> Before(At(at, s[i]), At(at, s[|s| - 1]));
  }

  lemma SameLast(s: seq<Message>, t: seq<Message>, at: Place)
    requires Rising(s, at) && Rising(t, at) && SameMembers(s, t) && s != []
    ensures t != [] && s[|s| - 1] == t[|t| - 1]
  {
    assert s[0] in t;
    LastIsLatest(s, at, t[|t| - 1]);
    LastIsLatest(t, at, s[|s| - 1]);
  }

  lemma LastLeft(s: seq<Message>, at: Place)
    requires Rising(s, at) && s != []
    ensures forall m :: m in s[..|s| - 1] <==> m in s && m != s[|s| - 1]
  {
    var n := |s| - 1;
    forall i | 0 <= i < n ensures s[i] != s[n] { assert Before(At(at, s[i]), At(at, s[n])); }
    forall m | m in s && m != s[n] ensures m in s[..n] {
      var i :| 0 <= i < |s| && s[i] == m;
      assert s[..n][i] == m;
    }
    forall m | m in s[..n] ensures m != s[n] {
      var i :| 0 <= i < n && s[..n][i] == m;
    }
  }

  lemma SomeMember(t: seq<Message>)
    ensures t == [] || exists m :: m in t
  {
    if t != [] { assert t[0] in t; }
  }

  /** Two lists of the same messages in one order are the same list. */
  lemma {:induction false} RisingUnique(s: seq<Message>, t: seq<Message>, at: Place)
    requires Rising(s, at) && Rising(t, at) && SameMembers(s, t)
    ensures s == t
  {
    if s == [] {
      SomeMember(t);
    } else {
      SameLast(s, t, at);
      LastLeft(s, at);
      LastLeft(t, at);
      RisingPrefix(s, at, |s| - 1);
      RisingPrefix(t, at, |t| - 1);
      var x, y := s[..|s| - 1], t[..|t| - 1];
      assert SameMembers(x, y) by {
        forall m ensures m in x <==> m in y { assert m in s <==> m in t; }
      }
      RisingUnique(x, y, at);
      LastOff(s);
      LastOff(t);
    }
  }

  // ---------------------------------------------------------------- the general reducer

  lemma {:induction false} SlotsBounded(left: seq<Message>, right: seq<Message>, id: string)
    ensures var f := FirstSlot(left, right, id); f.Some? ==> f.value < |left| + |right|
    ensures var l := LastInsertion(left, right, id); l.Some? ==> l.value < |left| + |right|
    ensures LastInsertion(left, right, id).Some? ==> FirstSlot(left, right, id).Some?
  {
    if right != [] { SlotsBounded(left, right[..|right| - 1], id); }
  }

  lemma LeftRises(left: seq<Message>, at: Place)
    requires AllNamed(left) && DistinctIds(left) && forall id :: at(id) == Position(left, id)
    ensures Rising(left, at)
  {
    forall i | 0 <= i < |left| ensures At(at, left[i]) == Some(i) {
      assert left[i] in left;
      var p := Position(left, left[i].id.value);
      assert p.Some? && left[p.value].id == left[i].id;
    }
  }

  /** The working list stands in the order in which ids first came in. */
  lemma {:induction false} MergeRises(left: seq<Message>, right: seq<Message>)
    requires AllNamed(left) && AllNamed(right) && DistinctIds(left) && MergeAll(Opening(left), right).Some?
    ensures var w := MergeAll(Opening(left), right).value;
      && Rising(w.messages, Firsts(left, right))
      && forall id :: id in w.index <==> FirstSlot(left, right, id).Some?
  {
    if right == [] {
      LeftRises(left, Firsts(left, right));
      forall id ensures id in Opening(left).index <==> Position(left, id).Some? { LeftKnows(left, id); }
    } else {
      var n := |right| - 1;
      assert right[n] in right && forall m <- right[..n] :: m in right;
      MergeRises(left, right[..n]);
      MergeExact(left, right[..n]);
      MergeOneRises(left, right, MergeAll(Opening(left), right[..n]).value);
    }
  }

  lemma LeftKnows(left: seq<Message>, id: string)
    ensures id in IndexOf(left) <==> Position(left, id).Some?
  {
    if id in IndexOf(left) { assert left[IndexOf(left)[id]].id == Some(id); }
    var p := Position(left, id);
    if p.Some? { assert left[p.value].id == Some(id); }
  }

  lemma MergeOneRises(left: seq<Message>, right: seq<Message>, w: Merging)
    requires right != [] && right[|right| - 1].id.Some? && Exact(w)
    requires Rising(w.messages, Firsts(left, right[..|right| - 1]))
    requires forall id :: id in w.index <==> FirstSlot(left, right[..|right| - 1], id).Some?
    requires MergeOne(w, right[|right| - 1]).Some?
    ensures var v := MergeOne(w, right[|right| - 1]).value;
      && Rising(v.messages, Firsts(left, right))
      && forall id :: id in v.index <==> FirstSlot(left, right, id).Some?
  {
    var n := |right| - 1;
    var m, at, to := right[n], Firsts(left, right[..n]), Firsts(left, right);
    var v := MergeOne(w, m).value;
    forall i | 0 <= i < |w.messages| ensures At(to, w.messages[i]) == At(at, w.messages[i]) {
      assert At(at, w.messages[i]).Some?;
    }
    RisingSame(w.messages, at, w.messages, to);
    if m.id.value in w.index {
      RisingSame(w.messages, to, v.messages, to);
    } else {
      forall i | 0 <= i < |w.messages| ensures Before(At(to, w.messages[i]), At(to, m)) {
        assert At(at, w.messages[i]).Some?;
        SlotsBounded(left, right[..n], w.messages[i].id.value);
      }
      RisingMore(w.messages, to, m);
    }
  }

  // ---------------------------------------------------------------- the fold

  /** The folded list stands in the order in which ids last came in. */
  lemma {:induction false} FoldRises(left: seq<Message>, right: seq<Message>)
    requires AllNamed(left) && AllNamed(right) && DistinctIds(left)
    ensures Rising(ApplyAll(left, right), Lasts(left, right))
    ensures forall id :: Position(ApplyAll(left, right), id).Some? <==> LastInsertion(left, right, id).Some?
  {
    if right == [] {
      LeftRises(left, Lasts(left, right));
    } else {
      var n := |right| - 1;
      assert right[n] in right && forall m <- right[..n] :: m in right;
      FoldRises(left, right[..n]);
      ApplyRises(left, right, ApplyAll(left, right[..n]));
    }
  }

  lemma ApplyRises(left: seq<Message>, right: seq<Message>, s: seq<Message>)
    requires right != [] && right[|right| - 1].id.Some? && Rising(s, Lasts(left, right[..|right| - 1]))
    requires forall id :: Position(s, id).Some? <==> LastInsertion(left, right[..|right| - 1], id).Some?
    ensures var r := Apply(s, right[|right| - 1]);
      && Rising(r, Lasts(left, right))
      && forall id :: Position(r, id).Some? <==> LastInsertion(left, right, id).Some?
  {
    var n := |right| - 1;
    var m, at := right[n], Lasts(left, right[..n]);
    var id := m.id.value;
    RisingDistinct(s, at);
    forall k ensures Position(Apply(s, m), k).Some? <==> LastInsertion(left, right, k).Some? {
      ApplyLookup(s, m, k);
    }
    if m.role.Remove? {
      RemovedRises(left, right, s);
    } else if Position(s, id).Some? {
      ReplacedRises(left, right, s);
    } else {
      AppendedRises(left, right, s);
    }
  }

  lemma OthersStay(left: seq<Message>, right: seq<Message>, x: Message)
    requires right != [] && x.id != right[|right| - 1].id
    ensures At(Lasts(left, right), x) == At(Lasts(left, right[..|right| - 1]), x)
  {}

  lemma RemovedRises(left: seq<Message>, right: seq<Message>, s: seq<Message>)
    requires right != [] && right[|right| - 1].id.Some? && right[|right| - 1].role.Remove?
    requires Rising(s, Lasts(left, right[..|right| - 1])) && DistinctIds(s)
    ensures Rising(Apply(s, right[|right| - 1]), Lasts(left, right))
  {
    var n := |right| - 1;
    var m, at, to := right[n], Lasts(left, right[..n]), Lasts(left, right);
    var r := Apply(s, m);
    match Position(s, m.id.value) {
      case None =>
      case Some(p) =>
        Around(s, p);
        RisingWithout(s[..p], s[p], s[p + 1..], at);
    }
    ApplyDistinct(s, m);
    forall i | 0 <= i < |r| ensures At(to, r[i]) == At(at, r[i]) {
      assert r[i] in r;
      ApplyMembers(s, m, r[i]);
      OthersStay(left, right, r[i]);
    }
    RisingSame(r, at, r, to);
  }

  lemma ReplacedRises(left: seq<Message>, right: seq<Message>, s: seq<Message>)
    requires right != [] && right[|right| - 1].id.Some? && !right[|right| - 1].role.Remove?
    requires Rising(s, Lasts(left, right[..|right| - 1])) && Position(s, right[|right| - 1].id.value).Some?
    ensures Rising(Apply(s, right[|right| - 1]), Lasts(left, right))
  {
    var n := |right| - 1;
    var m, at, to := right[n], Lasts(left, right[..n]), Lasts(left, right);
    var r := Apply(s, m);
    forall i | 0 <= i < |s| ensures At(to, r[i]) == At(at, s[i]) {
      assert r[i].id == s[i].id;
      assert At(at, s[i]).Some?;
      if s[i].id != m.id { OthersStay(left, right, s[i]); }
    }
    RisingSame(s, at, r, to);
  }

  lemma AppendedRises(left: seq<Message>, right: seq<Message>, s: seq<Message>)
    requires right != [] && right[|right| - 1].id.Some? && !right[|right| - 1].role.Remove?
    requires Rising(s, Lasts(left, right[..|right| - 1])) && Position(s, right[|right| - 1].id.value).None?
    requires LastInsertion(left, right[..|right| - 1], right[|right| - 1].id.value).None?
    ensures Rising(Apply(s, right[|right| - 1]), Lasts(left, right))
  {
    var n := |right| - 1;
    var m, at, to := right[n], Lasts(left, right[..n]), Lasts(left, right);
    forall i | 0 <= i < |s|
      ensures At(to, s[i]) == At(at, s[i]) && Before(At(to, s[i]), At(to, m))
    {
      assert At(at, s[i]).Some?;
      OthersStay(left, right, s[i]);
      SlotsBounded(left, right[..n], s[i].id.value);
    }
    RisingSame(s, at, s, to);
    RisingMore(s, to, m);
  }

  // ---------------------------------------------------------------- when the reducers agree

  lemma SameHeld(s: seq<Message>, t: seq<Message>)
    requires DistinctIds(s) && DistinctIds(t) && AllNamed(s) && AllNamed(t)
    requires forall id :: AddedMessages.Lookup(s, id) == AddedMessages.Lookup(t, id)
    ensures SameMembers(s, t)
  {
    forall m ensures m in s <==> m in t {
      if m in s || m in t {
        PositionIs(s, m.id.value);
        PositionIs(t, m.id.value);
      }
    }
  }

  /** Survivors in the one order are survivors in the other. */
  lemma RisesToo(s: seq<Message>, left: seq<Message>, right: seq<Message>)
    requires Rising(s, Firsts(left, right)) && OrdersAgree(left, right)
    requires forall m <- s :: At(Lasts(left, right), m).Some?
    ensures Rising(s, Lasts(left, right))
  {
    var at, to := Firsts(left, right), Lasts(left, right);
    forall i | 0 <= i < |s| ensures At(to, s[i]).Some? { assert s[i] in s; }
    forall i, j | 0 <= i < j < |s| ensures Before(At(to, s[i]), At(to, s[j])) {
      assert Before(At(at, s[i]), At(at, s[j]));
      assert Before(FirstSlot(left, right, s[i].id.value), FirstSlot(left, right, s[j].id.value));
    }
  }

  /** In one list that stands in both orders the orders agree. */
  lemma BothOrders(s: seq<Message>, left: seq<Message>, right: seq<Message>)
    requires Rising(s, Firsts(left, right)) && Rising(s, Lasts(left, right))
    requires forall id :: LastInsertion(left, right, id).Some? ==> Position(s, id).Some?
    ensures OrdersAgree(left, right)
  {
    var at, to := Firsts(left, right), Lasts(left, right);
    forall a, b | LastInsertion(left, right, a).Some? && LastInsertion(left, right, b).Some?
      ensures Before(FirstSlot(left, right, a), FirstSlot(left, right, b)) <==>
              Before(LastInsertion(left, right, a), LastInsertion(left, right, b))
    {
      var i, j := Position(s, a).value, Position(s, b).value;
      assert At(at, s[i]) == FirstSlot(left, right, a) && At(at, s[j]) == FirstSlot(left, right, b);
      assert At(to, s[i]) == LastInsertion(left, right, a) && At(to, s[j]) == LastInsertion(left, right, b);
      if i < j {
        assert Before(At(at, s[i]), At(at, s[j])) && Before(At(to, s[i]), At(to, s[j]));
      } else if j < i {
        assert Before(At(at, s[j]), At(at, s[i])) && Before(At(to, s[j]), At(to, s[i]));
      }
    }
  }

  /** For a batch that names its messages, clears nothing and removes only known ids, the two
      reducers leave one and the same list exactly if the order in which the survivors first
      came in is the order in which they last came in. */
  lemma ReducersAgreeExactly(left: seq<Message>, right: seq<Message>)
    requires AllNamed(left) && AllNamed(right) && DistinctIds(left)
    requires BehindClear(right) == 0 && !exists i: nat :: RemovesUnknown(left, right, i)
    ensures Merge(left, right) == Some(Reduce(left, right)) <==> OrdersAgree(left, right)
  {
    RefusedExactly(left, right);
    ReduceIsFold(left, right);
    MergeRises(left, right);
    FoldRises(left, right);
    var w := MergeAll(Opening(left), right).value;
    var kept, folded := Kept(w.messages, w.removed), ApplyAll(left, right);
    RisingKept(w.messages, Firsts(left, right), w.removed);
    RisingDistinct(kept, Firsts(left, right));
    RisingDistinct(folded, Lasts(left, right));
    forall id ensures AddedMessages.Lookup(kept, id) == AddedMessages.Lookup(folded, id) {
      MergeHoldsNewest(left, right, id);
      FoldHoldsNewest(left, right, id);
    }
    SameHeld(kept, folded);
    if kept == folded {
      BothOrders(kept, left, right);
    } else if OrdersAgree(left, right) {
      AgreedOrders(kept, folded, left, right);
    }
  }

  lemma AgreedOrders(kept: seq<Message>, folded: seq<Message>, left: seq<Message>, right: seq<Message>)
    requires Rising(kept, Firsts(left, right)) && Rising(folded, Lasts(left, right)) && OrdersAgree(left, right)
    requires SameMembers(kept, folded)
    ensures kept == folded
  {
    forall m <- kept ensures At(Lasts(left, right), m).Some? {
      assert m in folded;
      var i :| 0 <= i < |folded| && folded[i] == m;
    }
    RisesToo(kept, left, right);
    RisingUnique(kept, folded, Lasts(left, right));
  }

  lemma TwoPlaces(a: Message, b: Message, id: string)
    requires a.id.Some? && b.id.Some? && a.id != b.id
    ensures Position([a, b], id) == if a.id == Some(id) then Some(0) else if b.id == Some(id) then Some(1) else None
  {
    assert [a, b][0].id == a.id && [a, b][1].id == b.id;
  }

  lemma SlotsBehind(left: seq<Message>, before: seq<Message>, m: Message, id: string)
    ensures FirstSlot(left, before + [m], id) ==
      if FirstSlot(left, before, id).None? && m.id == Some(id) && !m.role.Remove? then Some(|left| + |before|)
      else FirstSlot(left, before, id)
    ensures LastInsertion(left, before + [m], id) ==
      if m.id != Some(id) then LastInsertion(left, before, id)
      else if m.role.Remove? then None
      else if LastInsertion(left, before, id).None? then Some(|left| + |before|)
      else LastInsertion(left, before, id)
  {
    assert (before + [m])[..|before|] == before;
  }

  /** The places of an id when two messages are followed by two more. */
  lemma TwoSlots(a: Message, b: Message, c: Message, d: Message, id: string)
    requires a.id.Some? && b.id.Some? && a.id != b.id && c.role.Remove? && !d.role.Remove?
    ensures var p := if a.id == Some(id) then Some(0) else if b.id == Some(id) then Some(1) else None;
      && FirstSlot([a, b], [c, d], id) == (if p.None? && d.id == Some(id) then Some(3) else p)
      && LastInsertion([a, b], [c, d], id) ==
         if d.id == Some(id) && (p.None? || c.id == Some(id)) then Some(3)
         else if c.id == Some(id) then None else p
  {
    TwoPlaces(a, b, id);
    assert [c, d] == [c] + [d] && [c] == [] + [c];
    SlotsBehind([a, b], [], c, id);
    SlotsBehind([a, b], [c], d, id);
  }

  /** A message that is removed and comes back, with another one behind it: the places differ. */
  lemma ReaddedDisagrees(a: Message, b: Message)
    requires a.id.Some? && b.id.Some? && a.id != b.id && !a.role.Remove?
    ensures !OrdersAgree([a, b], [RemoveMessage(a.id.value), a])
  {
    var left, right := [a, b], [RemoveMessage(a.id.value), a];
    var x, y := a.id.value, b.id.value;
    TwoSlots(a, b, RemoveMessage(x), a, x);
    TwoSlots(a, b, RemoveMessage(x), a, y);
    assert FirstSlot(left, right, x) == Some(0) && FirstSlot(left, right, y) == Some(1);
    assert LastInsertion(left, right, x) == Some(3) && LastInsertion(left, right, y) == Some(1);
    assert !(Before(FirstSlot(left, right, x), FirstSlot(left, right, y)) <==>
             Before(LastInsertion(left, right, x), LastInsertion(left, right, y)));
  }

  /** One that comes back at the end of the list finds its place again. */
  lemma ReaddedAtEndAgrees(a: Message, b: Message)
    requires a.id.Some? && b.id.Some? && a.id != b.id && !b.role.Remove?
    ensures OrdersAgree([a, b], [RemoveMessage(b.id.value), b])
  {
    var left, right := [a, b], [RemoveMessage(b.id.value), b];
    var x, y := a.id.value, b.id.value;
    assert right[..1] == [RemoveMessage(y)] && right[..1][..0] == [];
    forall id
      ensures FirstSlot(left, right, id) == if id == x then Some(0) else if id == y then Some(1) else None
      ensures LastInsertion(left, right, id) == if id == x then Some(0) else if id == y then Some(3) else None
    {
      TwoPlaces(a, b, id);
      assert FirstSlot(left, right[..1], id) == Position(left, id);
      assert LastInsertion(left, right[..1], id) == if id == x then Some(0) else None;
    }
  }
}
