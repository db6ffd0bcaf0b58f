/** The general message reducer, which keeps a removed message's place until the end, and how
    it agrees with the reducer of a delta channel. */
module AddedMessages {
  import opened Channels
  import opened Messages
  import opened Lists

  /** A removal of an id that neither list holds is refused. */
  datatype Result = Merged(messages: seq<Message>) | UnknownRemoval(id: string)

  // ---------------------------------------------------------------- ids

  predicate AllNamed(ms: seq<Message>) { forall m <- ms :: m.id.Some? }

  function Missing(ms: seq<Message>): nat {
    if ms == [] then 0 else Missing(ms[..|ms| - 1]) + if ms[|ms| - 1].id.None? then 1 else 0
  }

  /** Messages without an id draw the next fresh name. */
  function WithIds(ms: seq<Message>, names: nat -> string, from: nat): (r: seq<Message>)
    ensures |r| == |ms|
    ensures AllNamed(r) && forall i :: 0 <= i < |ms| && ms[i].id.Some? ==> r[i] == ms[i]
  {
    if ms == [] then []
    else
      var n := |ms| - 1;
      var rest := WithIds(ms[..n], names, from);
      rest + [if ms[n].id.Some? then ms[n] else ms[n].(id := Some(names(from + Missing(ms[..n]))))]
  }

  /** The places of the messages without an id, each of which draws the next name. */
  predicate Draws(ms: seq<Message>, names: nat -> string, from: nat, r: seq<Message>, at: seq<nat>) {
    && |r| == |ms| && Rising(at)
    && (forall i :: 0 <= i < |ms| && ms[i].id.Some? ==> r[i] == ms[i])
    && (forall i :: 0 <= i < |ms| && ms[i].id.None? ==> i in at)
    && (forall k :: 0 <= k < |at| ==> DrawnAt(ms, names, from, r, at, k))
  }

  /** The message at `at[k]` has none, and gets name number `k`. */
  predicate DrawnAt(ms: seq<Message>, names: nat -> string, from: nat, r: seq<Message>, at: seq<nat>, k: nat)
    requires k < |at| && |r| == |ms|
  {
    at[k] < |ms| && ms[at[k]].id.None? && r[at[k]] == ms[at[k]].(id := Some(names(from + k)))
  }

  lemma {:induction false} WithIdsDraws(ms: seq<Message>, names: nat -> string, from: nat) returns (at: seq<nat>)
    ensures Draws(ms, names, from, WithIds(ms, names, from), at) && |at| == Missing(ms)
  {
    if ms == [] {
      at := [];
    } else {
      var n := |ms| - 1;
      var before := WithIdsDraws(ms[..n], names, from);
      at := if ms[n].id.None? then before + [n] else before;
      DrawsMore(ms, names, from, WithIds(ms, names, from), before);
    }
  }

  lemma DrawsMore(ms: seq<Message>, names: nat -> string, from: nat, r: seq<Message>, before: seq<nat>)
    requires ms != [] && |r| == |ms| && Draws(ms[..|ms| - 1], names, from, r[..|ms| - 1], before)
    requires var n := |ms| - 1;
      r[n] == if ms[n].id.Some? then ms[n] else ms[n].(id := Some(names(from + |before|)))
    ensures Draws(ms, names, from, r, if ms[|ms| - 1].id.None? then before + [|ms| - 1] else before)
  {
    var n := |ms| - 1;
    var at := if ms[n].id.None? then before + [n] else before;
    forall k | 0 <= k < |before| ensures before[k] < n { assert DrawnAt(ms[..n], names, from, r[..n], before, k); }
    forall i | 0 <= i < |ms| && ms[i].id.None? ensures i in at {
      if i < n { assert ms[..n][i].id.None?; }
    }
    forall i | 0 <= i < |ms| && ms[i].id.Some? ensures r[i] == ms[i] {
      if i < n { assert ms[..n][i].id.Some? && r[..n][i] == r[i]; }
    }
    forall k | 0 <= k < |at| ensures DrawnAt(ms, names, from, r, at, k) {
      if k < |before| {
        assert DrawnAt(ms[..n], names, from, r[..n], before, k) && at[k] == before[k];
        assert ms[..n][before[k]] == ms[at[k]] && r[..n][before[k]] == r[at[k]];
      }
    }
  }

  predicate Clears(m: Message) { m.role.Remove? && m.id == Some(REMOVE_ALL) }

  /** The position behind the last remove-all marker, 0 if there is none. */
  function BehindClear(ms: seq<Message>): (k: nat)
    ensures k <= |ms| && (k > 0 ==> Clears(ms[k - 1]))
    ensures forall i :: k <= i < |ms| ==> !Clears(ms[i])
  {
    if ms == [] then 0
    else if Clears(ms[|ms| - 1]) then |ms|
    else BehindClear(ms[..|ms| - 1])
  }

  // ---------------------------------------------------------------- the merge

  /** The list so far, the place of each id in it, and the ids to drop at the end. */
  datatype Merging = Merging(messages: seq<Message>, index: map<string, nat>, removed: set<string>)

  predicate InBounds(w: Merging) {
    AllNamed(w.messages) && forall id <- w.index :: w.index[id] < |w.messages|
  }

  function MergeOne(w: Merging, m: Message): (r: Option<Merging>)
    requires InBounds(w) && m.id.Some?
    ensures r.Some? ==> InBounds(r.value)
  {
    var id := m.id.value;
    if id in w.index then
      if m.role.Remove? then Some(w.(removed := w.removed + {id}))
      else Some(w.(messages := w.messages[w.index[id] := m], removed := w.removed - {id}))
    else if m.role.Remove? then None
    else Some(w.(messages := w.messages + [m], index := w.index[id := |w.messages|]))
  }

  function MergeAll(w: Merging, ms: seq<Message>): (r: Option<Merging>)
    requires InBounds(w) && AllNamed(ms)
    ensures r.Some? ==> InBounds(r.value)
  {
    if ms == [] then Some(w)
    else
      var n := |ms| - 1;
      assert ms[n] in ms && forall m <- ms[..n] :: m in ms;
      match MergeAll(w, ms[..n])
      case None => None
      case Some(v) => MergeOne(v, ms[n])
  }

  function Kept(ms: seq<Message>, removed: set<string>): seq<Message> {
    if ms == [] then []
    else
      var n := |ms| - 1;
      Kept(ms[..n], removed) + if ms[n].id.Some? && ms[n].id.value in removed then [] else [ms[n]]
  }

  function Opening(left: seq<Message>): Merging { Merging(left, IndexOf(left), {}) }

  /** The outcome, once every message has an id. */
  function Merge(left: seq<Message>, right: seq<Message>): Option<seq<Message>>
    requires AllNamed(left) && AllNamed(right)
  {
    if BehindClear(right) > 0 then Some(right[BehindClear(right)..])
    else match MergeAll(Opening(left), right)
         case None => None
         case Some(w) => Some(Kept(w.messages, w.removed))
  }

  predicate Answers(r: Result, merged: Option<seq<Message>>) {
    match merged case Some(s) => r == Merged(s) case None => r.UnknownRemoval?
  }

  lemma MergeCleared(left: seq<Message>, right: seq<Message>)
    requires AllNamed(left) && AllNamed(right) && BehindClear(right) > 0
    ensures Merge(left, right) == Some(right[BehindClear(right)..])
  {
  }

  method AssignIds(ms: seq<Message>, names: nat -> string, from: nat) returns (named: seq<Message>, drawn: nat)
    ensures named == WithIds(ms, names, from) && drawn == from + Missing(ms)
  {
    named, drawn := [], from;
    for i := 0 to |ms|
      invariant named == WithIds(ms[..i], names, from) && drawn == from + Missing(ms[..i])
    {
      assert ms[..i + 1][..i] == ms[..i];
      assert WithIds(ms[..i + 1], names, from) == named + [if ms[i].id.Some? then ms[i]
        else ms[i].(id := Some(names(drawn)))];
      if ms[i].id.None? {
        named, drawn := named + [ms[i].(id := Some(names(drawn)))], drawn + 1;
      } else {
        named := named + [ms[i]];
      }
    }
    assert ms[..|ms|] == ms;
  }

  method FindClear(ms: seq<Message>) returns (clearAt: nat)
    ensures clearAt == BehindClear(ms)
  {
    clearAt := 0;
    for i := 0 to |ms|
      invariant clearAt == BehindClear(ms[..i])
    {
      assert ms[..i + 1][..i] == ms[..i];
      if ms[i].role.Remove? && ms[i].id == Some(REMOVE_ALL) { clearAt := i + 1; }
    }
    assert ms[..|ms|] == ms;
  }

  method DropRemoved(merged: seq<Message>, removed: set<string>) returns (out: seq<Message>)
    requires AllNamed(merged)
    ensures out == Kept(merged, removed)
  {
    out := [];
    for i := 0 to |merged|
      invariant out == Kept(merged[..i], removed)
    {
      assert merged[..i + 1][..i] == merged[..i] && merged[i] in merged;
      if merged[i].id.value !in removed { out := out + [merged[i]]; }
    }
    assert merged[..|merged|] == merged;
  }

  method MergeLists(left: seq<Message>, right: seq<Message>) returns (r: Result)
    requires AllNamed(left) && AllNamed(right) && BehindClear(right) == 0
    ensures Answers(r, Merge(left, right))
    ensures r.UnknownRemoval? ==> exists m <- right :: m.role.Remove? && m.id == Some(r.id)
  {
    var index := IndexById(left);
    var merged, removed: set<string> := left, {};
    for i := 0 to |right|
      invariant forall id <- index :: 0 <= index[id] < |merged|
      invariant InBounds(Merging(merged, index, removed))
      invariant MergeAll(Opening(left), right[..i]) == Some(Merging(merged, index, removed))
    {
      assert right[..i + 1][..i] == right[..i] && right[i] in right;
      var id := right[i].id.value;
      if id in index {
        if right[i].role.Remove? {
          removed := removed + {id};
        } else {
          removed := removed - {id};
          merged := merged[index[id] := right[i]];
        }
      } else if right[i].role.Remove? {
        MergeRefused(Opening(left), right, i + 1);
        return UnknownRemoval(id);
      } else {
        index, merged := index[id := |merged|], merged + [right[i]];
      }
    }
    assert right[..|right|] == right;
    var out := DropRemoved(merged, removed);
    r := Merged(out);
  }

  method AddNamed(left: seq<Message>, right: seq<Message>) returns (r: Result)
    requires AllNamed(left) && AllNamed(right)
    ensures Answers(r, Merge(left, right))
  {
    var clearAt := FindClear(right);
    if clearAt > 0 {
      MergeCleared(left, right);
      r := Merged(right[clearAt..]);
    } else {
      r := MergeLists(left, right);
    }
  }

  method AddMessages(left: seq<Message>, right: seq<Message>, names: nat -> string) returns (r: Result)
    ensures Answers(r, Merge(WithIds(left, names, 0), WithIds(right, names, Missing(left))))
  {
    var lhs, drawn := AssignIds(left, names, 0);
    var rhs, _ := AssignIds(right, names, drawn);
    assert lhs == WithIds(left, names, 0) && rhs == WithIds(right, names, Missing(left));
    r := AddNamed(lhs, rhs);
  }

  lemma {:induction false} MergeRefused(w: Merging, ms: seq<Message>, k: nat)
    requires InBounds(w) && AllNamed(ms) && k <= |ms| && MergeAll(w, ms[..k]).None?
    ensures MergeAll(w, ms).None?
    decreases |ms|
  {
    if k == |ms| {
      assert ms[..k] == ms;
    } else {
      var n := |ms| - 1;
      assert ms[..n][..k] == ms[..k];
      MergeRefused(w, ms[..n], k);
    }
  }

  // ---------------------------------------------------------------- when it is refused

  /** The ids a merge knows: those on the left and those that right messages brought. */
  ghost predicate Known(left: seq<Message>, right: seq<Message>, id: string) {
    (exists m <- left :: m.id == Some(id)) || (exists m <- right :: !m.role.Remove? && m.id == Some(id))
  }

  ghost predicate RemovesUnknown(left: seq<Message>, right: seq<Message>, i: nat) {
    i < |right| && right[i].role.Remove? && right[i].id.Some? && !Known(left, right[..i], right[i].id.value)
  }

  lemma {:induction false} IndexKnows(left: seq<Message>, right: seq<Message>, id: string)
    requires AllNamed(left) && AllNamed(right) && MergeAll(Opening(left), right).Some?
    ensures id in MergeAll(Opening(left), right).value.index <==> Known(left, right, id)
  {
    if right == [] {
      assert forall m :: m in left ==> exists i :: 0 <= i < |left| && left[i] == m;
    } else {
      var n := |right| - 1;
      assert right[n] in right && forall m <- right[..n] :: m in right;
      IndexKnows(left, right[..n], id);
      KnownMore(left, right, id);
    }
  }

  lemma KnownMore(left: seq<Message>, right: seq<Message>, id: string)
    requires right != []
    ensures var n := |right| - 1;
            Known(left, right, id) <==>
              Known(left, right[..n], id) || (!right[n].role.Remove? && right[n].id == Some(id))
  {
    var n := |right| - 1;
    assert right == right[..n] + [right[n]];
    assert forall m :: m in right <==> m in right[..n] || m == right[n];
  }

  /** The merge fails exactly when some removal names an id that is unknown at that point. */
  lemma {:induction false} RefusedExactly(left: seq<Message>, right: seq<Message>)
    requires AllNamed(left) && AllNamed(right)
    ensures MergeAll(Opening(left), right).None? <==> exists i: nat :: RemovesUnknown(left, right, i)
  {
    if right != [] {
      var n := |right| - 1;
      var before := right[..n];
      assert right[n] in right && forall m <- before :: m in right;
      RefusedExactly(left, before);
      forall i: nat ensures i < n ==> (RemovesUnknown(left, right, i) <==> RemovesUnknown(left, before, i)) {
        if i < n { UnknownBefore(left, right, n, i); }
      }
      if MergeAll(Opening(left), before).Some? {
        IndexKnows(left, before, right[n].id.value);
        assert RemovesUnknown(left, right, n) <==> MergeAll(Opening(left), right).None?;
      } else {
        var i: nat :| RemovesUnknown(left, before, i);
        assert RemovesUnknown(left, right, i);
      }
    }
  }

  lemma UnknownBefore(left: seq<Message>, right: seq<Message>, n: nat, i: nat)
    requires i < n <= |right|
    ensures RemovesUnknown(left, right, i) <==> RemovesUnknown(left, right[..n], i)
  {
    assert right[..n][..i] == right[..i];
  }

  // ---------------------------------------------------------------- what is kept

  lemma {:induction false} KeptConcat(a: seq<Message>, b: seq<Message>, removed: set<string>)
    ensures Kept(a + b, removed) == Kept(a, removed) + Kept(b, removed)
  {
    if b == [] {
      assert a + b == a;
    } else {
      var n := |b| - 1;
      var tail := if b[n].id.Some? && b[n].id.value in removed then [] else [b[n]];
      assert (a + b)[..|a + b| - 1] == a + b[..n] && (a + b)[|a + b| - 1] == b[n];
      KeptConcat(a, b[..n], removed);
      Assoc(Kept(a, removed), Kept(b[..n], removed), tail);
    }
  }

  lemma KeptParts(a: seq<Message>, x: Message, b: seq<Message>, removed: set<string>)
    requires x.id.Some?
    ensures Kept(a + ([x] + b), removed) == Kept(a, removed) + (if x.id.value in removed then [] else [x]) +
      Kept(b, removed)
  {
    KeptConcat(a, [x] + b, removed);
    KeptConcat([x], b, removed);
    assert [x][..0] == [];
    assert Kept([x], removed) == if x.id.value in removed then [] else [x];
    Assoc(Kept(a, removed), Kept([x], removed), Kept(b, removed));
  }

  predicate Lacks(ms: seq<Message>, id: string) { forall i :: 0 <= i < |ms| ==> ms[i].id != Some(id) }

  lemma {:induction false} KeptLacks(ms: seq<Message>, removed: set<string>, id: string)
    requires Lacks(ms, id)
    ensures Lacks(Kept(ms, removed), id)
    ensures Kept(ms, removed + {id}) == Kept(ms, removed) == Kept(ms, removed - {id})
  {
    if ms != [] { KeptLacks(ms[..|ms| - 1], removed, id); }
  }

  ghost predicate Exact(w: Merging) {
    && InBounds(w)
    && (forall id <- w.index :: w.messages[w.index[id]].id == Some(id))
    && (forall j, id :: 0 <= j < |w.messages| && w.messages[j].id == Some(id) ==> id in w.index && w.index[id] == j)
    && (forall id <- w.removed :: id in w.index)
  }

  lemma ExactOpening(left: seq<Message>)
    requires AllNamed(left) && DistinctIds(left)
    ensures Exact(Opening(left))
  {
  }

  lemma ExactReplaced(w: Merging, m: Message)
    requires Exact(w) && m.id.Some? && m.id.value in w.index
    ensures Exact(w.(messages := w.messages[w.index[m.id.value] := m], removed := w.removed - {m.id.value}))
  {
    var p := w.index[m.id.value];
    assert forall j :: 0 <= j < |w.messages| ==> w.messages[p := m][j].id == w.messages[j].id;
  }

  lemma ExactAppended(w: Merging, m: Message)
    requires Exact(w) && m.id.Some? && m.id.value !in w.index
    ensures Exact(w.(messages := w.messages + [m], index := w.index[m.id.value := |w.messages|]))
  {}

  lemma ExactMore(w: Merging, m: Message)
    requires Exact(w) && m.id.Some? && MergeOne(w, m).Some?
    ensures Exact(MergeOne(w, m).value)
  {
    if m.role.Remove? {
    } else if m.id.value in w.index {
      ExactReplaced(w, m);
    } else {
      ExactAppended(w, m);
    }
  }

  function Lookup(s: seq<Message>, id: string): Option<Message> {
    match Position(s, id) case None => None case Some(p) => Some(s[p])
  }

  lemma AbsentPosition(s: seq<Message>, id: string)
    requires Lacks(s, id)
    ensures Position(s, id) == None
  {
  }

  /** The list around a known id. */
  lemma Split(w: Merging, id: string) returns (a: seq<Message>, x: Message, b: seq<Message>)
    requires Exact(w) && id in w.index
    ensures w.messages == a + ([x] + b) && |a| == w.index[id] && x.id == Some(id) && Lacks(a, id) && Lacks(b, id)
  {
    var j := w.index[id];
    a, x, b := w.messages[..j], w.messages[j], w.messages[j + 1..];
    Around(w.messages, j);
  }

  lemma KeptPosition(a: seq<Message>, x: Message, b: seq<Message>, removed: set<string>, id: string)
    requires x.id == Some(id) && Lacks(a, id) && Lacks(b, id)
    ensures var s := Kept(a + ([x] + b), removed);
            && (id in removed ==> Position(s, id) == None)
            && (id !in removed ==>
              Position(s, id) == Some(|Kept(a, removed)|) && s == Kept(a, removed) + [x] + Kept(b, removed))
  {
    KeptParts(a, x, b, removed);
    KeptLacks(a, removed, id);
    KeptLacks(b, removed, id);
    if id in removed {
      AbsentPosition(Kept(a, removed) + [] + Kept(b, removed), id);
    } else {
      FirstPosition(Kept(a, removed), x, Kept(b, removed), id);
    }
  }

  lemma KeptLookup(w: Merging, id: string)
    requires Exact(w)
    ensures Lookup(Kept(w.messages, w.removed), id) ==
      if id in w.index && id !in w.removed then Some(w.messages[w.index[id]]) else None
  {
    if id in w.index {
      var a, x, b := Split(w, id);
      KeptPosition(a, x, b, w.removed, id);
    } else {
      assert Lacks(w.messages, id);
      KeptLacks(w.messages, w.removed, id);
      AbsentPosition(Kept(w.messages, w.removed), id);
    }
  }

  /** Removing an id takes its message out of the kept list. */
  lemma KeptWithout(a: seq<Message>, x: Message, b: seq<Message>, removed: set<string>, id: string)
    requires x.id == Some(id) && Lacks(a, id) && Lacks(b, id) && id !in removed
    ensures var s, p := Kept(a + ([x] + b), removed), |Kept(a, removed)|;
      p < |s| && Kept(a + ([x] + b), removed + {id}) == s[..p] + s[p + 1..]
  {
    KeptParts(a, x, b, removed);
    KeptParts(a, x, b, removed + {id});
    KeptLacks(a, removed, id);
    KeptLacks(b, removed, id);
    Middle(Kept(a, removed), x, x, Kept(b, removed));
  }

  lemma KnownRemoved(w: Merging, id: string)
    requires Exact(w) && id in w.index
    ensures var s := Kept(w.messages, w.removed);
      Kept(w.messages, w.removed + {id}) ==
        match Position(s, id) case None => s case Some(p) => s[..p] + s[p + 1..]
  {
    var a, x, b := Split(w, id);
    if id in w.removed {
      KeptPosition(a, x, b, w.removed, id);
      assert w.removed + {id} == w.removed;
    } else {
      KeptAt(a, x, b, w.removed, id);
      KeptWithout(a, x, b, w.removed, id);
    }
  }

  lemma KeptAt(a: seq<Message>, x: Message, b: seq<Message>, removed: set<string>, id: string)
    requires x.id == Some(id) && Lacks(a, id) && Lacks(b, id) && id !in removed
    ensures Position(Kept(a + ([x] + b), removed), id) == Some(|Kept(a, removed)|)
  {
    KeptPosition(a, x, b, removed, id);
  }

  lemma InsideParts<T>(a: seq<T>, x: T, y: T, b: seq<T>)
    ensures (a + ([x] + b))[|a| := y] == a + ([y] + b)
  {
  }

  lemma KnownReplaced(w: Merging, m: Message)
    requires Exact(w) && m.id.Some? && m.id.value in w.index && m.id.value !in w.removed
    ensures var s, p := Kept(w.messages, w.removed), Position(Kept(w.messages, w.removed), m.id.value);
            p.Some? && Kept(w.messages[w.index[m.id.value] := m], w.removed) == s[p.value := m]
  {
    var a, x, b := Split(w, m.id.value);
    KeptPosition(a, x, b, w.removed, m.id.value);
    KeptParts(a, m, b, w.removed);
    InsideParts(a, x, m, b);
    Middle(Kept(a, w.removed), x, m, Kept(b, w.removed));
  }

  lemma UnknownAppended(w: Merging, m: Message)
    requires Exact(w) && m.id.Some? && m.id.value !in w.index
    ensures Position(Kept(w.messages, w.removed), m.id.value) == None
    ensures Kept(w.messages + [m], w.removed) == Kept(w.messages, w.removed) + [m]
  {
    assert Lacks(w.messages, m.id.value);
    KeptLacks(w.messages, w.removed, m.id.value);
    AbsentPosition(Kept(w.messages, w.removed), m.id.value);
    assert (w.messages + [m])[..|w.messages|] == w.messages;
  }

  /** Unless it brings a removed id back, one message does to the kept list what it does in
      the simple fold. */
  lemma MergeOneApplies(w: Merging, m: Message)
    requires Exact(w) && m.id.Some? && MergeOne(w, m).Some?
    requires m.role.Remove? || m.id.value !in w.removed
    ensures var v := MergeOne(w, m).value; Kept(v.messages, v.removed) == Apply(Kept(w.messages, w.removed), m)
  {
    var id := m.id.value;
    if id !in w.index {
      UnknownAppended(w, m);
    } else if m.role.Remove? {
      KnownRemoved(w, id);
    } else {
      KnownReplaced(w, m);
      assert w.removed - {id} == w.removed;
    }
  }

  lemma MergeOneLookup(w: Merging, m: Message, id: string)
    requires Exact(w) && m.id.Some? && MergeOne(w, m).Some?
    ensures var v := MergeOne(w, m).value;
            Lookup(Kept(v.messages, v.removed), id) ==
            if m.id != Some(id) then Lookup(Kept(w.messages, w.removed), id) else if m.role.Remove? then None
              else Some(m)
  {
    ExactMore(w, m);
    KeptLookup(w, id);
    KeptLookup(MergeOne(w, m).value, id);
  }

  // ---------------------------------------------------------------- agreement

  /** No message comes back under an id that was removed earlier in the batch. */
  ghost predicate NoneReadded(ms: seq<Message>) {
    forall i, j :: 0 <= i < j < |ms| && ms[i].role.Remove? && ms[i].id == ms[j].id ==> ms[j].role.Remove?
  }

  lemma {:induction false} MergeExact(left: seq<Message>, right: seq<Message>)
    requires AllNamed(left) && AllNamed(right) && DistinctIds(left) && MergeAll(Opening(left), right).Some?
    ensures Exact(MergeAll(Opening(left), right).value)
    ensures forall id <- MergeAll(Opening(left), right).value.removed ::
      exists i :: 0 <= i < |right| && right[i].role.Remove? && right[i].id == Some(id)
  {
    if right == [] {
      ExactOpening(left);
    } else {
      var n := |right| - 1;
      assert right[n] in right && forall m <- right[..n] :: m in right;
      MergeExact(left, right[..n]);
      var w := MergeAll(Opening(left), right[..n]).value;
      ExactMore(w, right[n]);
      forall id | id in MergeAll(Opening(left), right).value.removed
        ensures exists i :: 0 <= i < |right| && right[i].role.Remove? && right[i].id == Some(id)
      {
        if id in w.removed {
          var i :| 0 <= i < n && right[..n][i].role.Remove? && right[..n][i].id == Some(id);
          assert right[i].role.Remove?;
        } else {
          assert right[n].role.Remove? && right[n].id == Some(id);
        }
      }
    }
  }

  lemma {:induction false} MergeIsFold(left: seq<Message>, right: seq<Message>)
    requires AllNamed(left) && AllNamed(right) && DistinctIds(left) && MergeAll(Opening(left), right).Some?
    requires NoneReadded(right)
    ensures var w := MergeAll(Opening(left), right).value; Kept(w.messages, w.removed) == ApplyAll(left, right)
  {
    if right == [] {
      KeepsAll(left);
    } else {
      var n := |right| - 1;
      assert right[n] in right && forall m <- right[..n] :: m in right;
      MergeIsFold(left, right[..n]);
      MergeExact(left, right[..n]);
      var w := MergeAll(Opening(left), right[..n]).value;
      if right[n].id.value in w.removed {
        var i :| 0 <= i < n && right[..n][i].role.Remove? && right[..n][i].id == right[n].id;
        assert right[i].role.Remove? && right[i].id == right[n].id;
      }
      MergeOneApplies(w, right[n]);
    }
  }

  lemma {:induction false} KeepsAll(ms: seq<Message>)
    ensures Kept(ms, {}) == ms
  {
    if ms != [] {
      var n := |ms| - 1;
      KeepsAll(ms[..n]);
      LastOff(ms);
      assert Kept(ms, {}) == Kept(ms[..n], {}) + [ms[n]];
    }
  }

  /** The two reducers give the same list for a batch that names its messages, clears
      nothing, removes only known ids, and brings none back. */
  lemma ReducersAgree(left: seq<Message>, right: seq<Message>)
    requires AllNamed(left) && AllNamed(right) && DistinctIds(left)
    requires BehindClear(right) == 0 && NoneReadded(right) && !exists i: nat :: RemovesUnknown(left, right, i)
    ensures Merge(left, right) == Some(Reduce(left, right))
  {
    RefusedExactly(left, right);
    MergeIsFold(left, right);
    ReduceIsFold(left, right);
  }

  /** What a list and a batch leave under an id: the last word on it. */
  function Newest(s: seq<Message>, ms: seq<Message>, id: string): Option<Message> {
    if ms == [] then Lookup(s, id)
    else
      var m := ms[|ms| - 1];
      if m.id == Some(id) then (if m.role.Remove? then None else Some(m)) else Newest(s, ms[..|ms| - 1], id)
  }

  lemma {:induction false} MergeHoldsNewest(left: seq<Message>, right: seq<Message>, id: string)
    requires AllNamed(left) && AllNamed(right) && DistinctIds(left) && MergeAll(Opening(left), right).Some?
    ensures var w := MergeAll(Opening(left), right).value;
      Lookup(Kept(w.messages, w.removed), id) == Newest(left, right, id)
  {
    if right == [] {
      KeepsAll(left);
    } else {
      var n := |right| - 1;
      assert right[n] in right && forall m <- right[..n] :: m in right;
      MergeHoldsNewest(left, right[..n], id);
      MergeExact(left, right[..n]);
      MergeOneLookup(MergeAll(Opening(left), right[..n]).value, right[n], id);
    }
  }

  lemma InParts<T>(a: seq<T>, y: seq<T>, b: seq<T>, x: T)
    ensures x in a + y + b <==> x in a || x in y || x in b
  {
  }

  lemma ApplyMembers(s: seq<Message>, m: Message, x: Message)
    requires DistinctIds(s) && m.id.Some?
    ensures x in Apply(s, m) <==> (x in s && x.id != m.id) || (x == m && !m.role.Remove?)
  {
    match Position(s, m.id.value)
    case None =>
    case Some(p) =>
      var a, b := s[..p], s[p + 1..];
      assert s == a + [s[p]] + b;
      InParts(a, [s[p]], b, x);
      InParts(a, [], b, x);
      InParts(a, [m], b, x);
      Middle(a, s[p], m, b);
      assert x in b ==> exists i :: p < i < |s| && s[i] == x;
  }

  lemma ApplyDistinct(s: seq<Message>, m: Message)
    requires DistinctIds(s)
    ensures DistinctIds(Apply(s, m))
  {
    ReduceIsFold(s, [m]);
    assert ApplyAll(s, [m][..0]) == s;
    assert ApplyAll(s, [m]) == Apply(s, m);
  }

  lemma ApplyLookup(s: seq<Message>, m: Message, id: string)
    requires DistinctIds(s)
    ensures Lookup(Apply(s, m), id) ==
      if m.id != Some(id) then Lookup(s, id) else if m.role.Remove? then None else Some(m)
  {
    ApplyDistinct(s, m);
    PositionIs(s, id);
    PositionIs(Apply(s, m), id);
    forall x ensures m.id.Some? ==> (x in Apply(s, m) <==> (x in s && x.id != m.id) || (x == m && !m.role.Remove?)) {
      if m.id.Some? { ApplyMembers(s, m, x); }
    }
    var before, after := Lookup(s, id), Lookup(Apply(s, m), id);
    assert before.Some? ==> before.value in s && before.value.id == Some(id);
    assert after.Some? ==> after.value in Apply(s, m) && after.value.id == Some(id);
  }

  /** With distinct ids a lookup finds exactly the member of that id. */
  lemma PositionIs(s: seq<Message>, id: string)
    requires DistinctIds(s)
    ensures forall m :: Lookup(s, id) == Some(m) <==> m in s && m.id == Some(id)
  {
    forall m | m in s && m.id == Some(id) ensures Lookup(s, id) == Some(m) {
      var i :| 0 <= i < |s| && s[i] == m;
    }
  }

  lemma {:induction false} FoldHoldsNewest(s: seq<Message>, ms: seq<Message>, id: string)
    requires DistinctIds(s)
    ensures Lookup(ApplyAll(s, ms), id) == Newest(s, ms, id) && DistinctIds(ApplyAll(s, ms))
  {
    if ms != [] {
      var n := |ms| - 1;
      FoldHoldsNewest(s, ms[..n], id);
      ApplyDistinct(ApplyAll(s, ms[..n]), ms[n]);
      ApplyLookup(ApplyAll(s, ms[..n]), ms[n], id);
    }
  }

  /** Even when an id comes back both hold the same messages, the newest of every id; only
      the order can differ. */
  lemma ReducersHoldTheSame(left: seq<Message>, right: seq<Message>, id: string)
    requires AllNamed(left) && AllNamed(right) && DistinctIds(left)
    requires BehindClear(right) == 0 && !exists i: nat :: RemovesUnknown(left, right, i)
    ensures Merge(left, right).Some?
    ensures Lookup(Merge(left, right).value, id) == Newest(left, right, id) == Lookup(Reduce(left, right), id)
  {
    RefusedExactly(left, right);
    MergeHoldsNewest(left, right, id);
    FoldHoldsNewest(left, right, id);
    ReduceIsFold(left, right);
  }

  lemma TwoApplied(s: seq<Message>, x: Message, y: Message)
    ensures ApplyAll(s, [x, y]) == Apply(Apply(s, x), y)
  {
    assert ApplyAll(s, [x][..0]) == s;
    assert ApplyAll(s, [x]) == Apply(s, x);
    assert [x, y][..1] == [x];
  }

  lemma TwoMerged(w: Merging, x: Message, y: Message)
    requires InBounds(w) && x.id.Some? && y.id.Some? && MergeOne(w, x).Some?
    ensures MergeAll(w, [x, y]) == MergeOne(MergeOne(w, x).value, y)
  {
    OneMerged(w, x);
    var ms := [x, y];
    assert ms[..1] == [x] && AllNamed(ms);
    assert MergeAll(w, ms) == match MergeAll(w, ms[..1]) case None => None case Some(v) => MergeOne(v, y);
  }

  lemma OneMerged(w: Merging, x: Message)
    requires InBounds(w) && x.id.Some?
    ensures MergeAll(w, [x]) == MergeOne(w, x)
  {
    var ms := [x];
    assert ms[..0] == [] && AllNamed(ms);
    assert MergeAll(w, ms[..0]) == Some(w);
  }

  lemma ReaddedStays(a: Message, b: Message)
    requires a.id.Some? && b.id.Some? && a.id != b.id && !a.role.Remove? && a.id != Some(REMOVE_ALL)
    ensures Merge([a, b], [RemoveMessage(a.id.value), a]) == Some([a, b])
  {
    var id := a.id.value;
    var r, left := RemoveMessage(id), [a, b];
    var batch, w := [r, a], Opening(left);
    assert left[0].id == a.id && left[1].id == b.id;
    assert w.index[id] == 0;
    var v := Merging(left, w.index, {id});
    assert w.removed + {id} == {id} && v.removed - {id} == w.removed;
    assert MergeOne(w, r) == Some(v);
    assert left[0 := a] == left;
    assert MergeOne(v, a) == Some(w);
    TwoMerged(w, r, a);
    assert !Clears(r) && !Clears(a);
    KeepsAll(left);
  }

  lemma ReaddedGoesLast(a: Message, b: Message)
    requires a.id.Some? && b.id.Some? && a.id != b.id && !a.role.Remove?
    ensures ApplyAll([a, b], [RemoveMessage(a.id.value), a]) == [b, a]
  {
    var r := RemoveMessage(a.id.value);
    TwoApplied([a, b], r, a);
    FirstRemoved(a, b, r);
    Unplaced(b, a.id.value);
    assert Apply([b], a) == [b] + [a] == [b, a];
  }

  lemma FirstRemoved(a: Message, b: Message, r: Message)
    requires a.id.Some? && r.id == a.id && r.role.Remove?
    ensures Apply([a, b], r) == [b]
  {
    var s := [a, b];
    assert s[0].id == a.id;
    assert Position(s, a.id.value) == Some(0);
    assert s[..0] + s[1..] == [b];
  }

  lemma Unplaced(b: Message, id: string)
    requires b.id != Some(id)
    ensures Position([b], id) == None
  {
    assert [b][1..] == [];
  }

  /** A message that comes back keeps its old place in one and goes to the end in the other. */
  lemma ReaddedMoves(a: Message, b: Message)
    requires a.id.Some? && b.id.Some? && a.id != b.id && !a.role.Remove? && a.id != Some(REMOVE_ALL)
    ensures var batch := [RemoveMessage(a.id.value), a];
      Merge([a, b], batch) == Some([a, b]) && Reduce([a, b], batch) == [b, a]
  {
    ReaddedStays(a, b);
    ReaddedGoesLast(a, b);
    ReduceIsFold([a, b], [RemoveMessage(a.id.value), a]);
  }

  // ---------------------------------------------------------------- what the state uses

  /** New messages are appended. */
  lemma {:induction false} FreshAreAppended(left: seq<Message>, right: seq<Message>)
    requires AllNamed(left + right) && DistinctIds(left + right) && forall m <- right :: !m.role.Remove?
    ensures Merge(left, right) == Some(left + right)
  {
    AppendedMerge(left, right);
    KeepsAll(left + right);
    assert forall i :: 0 <= i < |right| ==> right[i] in right;
  }

  lemma {:induction false} AppendedMerge(left: seq<Message>, right: seq<Message>)
    requires AllNamed(left) && AllNamed(right) && DistinctIds(left + right) && forall m <- right :: !m.role.Remove?
    ensures MergeAll(Opening(left), right).Some?
    ensures var w := MergeAll(Opening(left), right).value; w.messages == left + right && w.removed == {} && Exact(w)
  {
    if right == [] {
      assert left + right == left;
      ExactOpening(left);
    } else {
      var n := |right| - 1;
      assert right[n] in right && forall m <- right[..n] :: m in right;
      assert (left + right)[..|left| + n] == left + right[..n] && (left + right)[|left| + n] == right[n];
      AppendedMerge(left, right[..n]);
      var w := MergeAll(Opening(left), right[..n]).value;
      assert right[n].id.value !in w.index;
      ExactMore(w, right[n]);
    }
  }

  /** A remove-all marker in front of a list makes that list the whole state. */
  lemma ClearedAndReplaced(left: seq<Message>, ms: seq<Message>)
    requires AllNamed(left) && AllNamed(ms) && forall m <- ms :: !m.role.Remove?
    ensures AllNamed([RemoveMessage(REMOVE_ALL)] + ms) && Merge(left, [RemoveMessage(REMOVE_ALL)] + ms) == Some(ms)
  {
    var right := [RemoveMessage(REMOVE_ALL)] + ms;
    var k := BehindClear(right);
    assert Clears(right[0]);
    assert forall i :: 0 < i < |right| ==> right[i] in ms;
    assert right[1..] == ms;
  }
}
