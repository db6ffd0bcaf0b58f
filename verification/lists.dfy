/** Facts about taking sequences apart and putting them together again. */
module Lists {

  lemma Assoc<T>(a: seq<T>, b: seq<T>, c: seq<T>)
    ensures (a + b) + c == a + (b + c)
  {
  }

  lemma Gather<T>(a: seq<T>, x: T, b: seq<T>)
    ensures (a + [x]) + b == a + ([x] + b)
  {
  }

  lemma SplitAt<T>(s: seq<T>, i: nat)
    requires i <= |s|
    ensures s == s[..i] + s[i..]
  {
  }

  lemma LastOff<T>(s: seq<T>)
    requires s != []
    ensures s == s[..|s| - 1] + [s[|s| - 1]]
  {
    var last := s[|s| - 1];
    assert s[..|s| - 1] + [last] == s;
  }

  lemma Around<T>(s: seq<T>, j: nat)
    requires j < |s|
    ensures s == s[..j] + ([s[j]] + s[j + 1..])
  {
  }

  /** Removing and replacing the element in the middle. */
  lemma Middle<T>(a: seq<T>, x: T, y: T, b: seq<T>)
    ensures var s := a + [x] + b; s[..|a|] + s[|a| + 1..] == a + [] + b && s[|a| := y] == a + [y] + b
  {
  }

  lemma SliceOfSlice<T>(s: seq<T>, a: nat, n: nat)
    requires a + n <= |s|
    ensures s[a..][..n] == s[a..a + n] && s[a..][n..] == s[a + n..]
  {
  }

  lemma BehindFirst<T>(a: seq<T>, b: seq<T>, p: nat)
    requires p <= |b|
    ensures (a + b)[|a| + p..] == b[p..]
  {
  }

  lemma FromFirst<T>(a: seq<T>, b: seq<T>, p: nat)
    requires p <= |a|
    ensures (a + b)[p..] == a[p..] + b
  {
  }

  lemma CutBehindFirst<T>(a: seq<T>, b: seq<T>, p: nat)
    requires p <= |b|
    ensures (a + b)[..|a| + p] == a + b[..p] && (a + b)[|a| + p..] == b[p..]
  {
  }

  // ---------------------------------------------------------------- picking elements

  /** `r` shows the elements at `at`, which are all those to keep, in their order. */
  ghost predicate PickedAt<T, U>(s: seq<T>, keep: T -> bool, show: T -> U, r: seq<U>, at: seq<nat>) {
    && |at| == |r|
    && (forall i :: 0 <= i < |at| ==> at[i] < |s| && keep(s[at[i]]) && r[i] == show(s[at[i]]))
    && (forall i, j :: 0 <= i < j < |at| ==> at[i] < at[j])
    && (forall k :: 0 <= k < |s| && keep(s[k]) ==> k in at)
  }

  function Itself<T>(x: T): T { x }

  ghost predicate Picked<T, U>(s: seq<T>, keep: T -> bool, show: T -> U, r: seq<U>) {
    exists at: seq<nat> :: PickedAt(s, keep, show, r, at)
  }

  lemma PickedNone<T, U>(keep: T -> bool, show: T -> U)
    ensures Picked([], keep, show, [])
  {
    assert PickedAt([], keep, show, [], []);
  }

  lemma PickedMore<T, U>(s: seq<T>, keep: T -> bool, show: T -> U, r: seq<U>, x: T)
    requires Picked(s, keep, show, r)
    ensures Picked(s + [x], keep, show, if keep(x) then r + [show(x)] else r)
  {
    var at: seq<nat> :| PickedAt(s, keep, show, r, at);
    if keep(x) { PickedThis(s, keep, show, r, at, x); } else { PickedOther(s, keep, show, r, at, x); }
  }

  lemma PickedThis<T, U>(s: seq<T>, keep: T -> bool, show: T -> U, r: seq<U>, at: seq<nat>, x: T)
    requires PickedAt(s, keep, show, r, at) && keep(x)
    ensures PickedAt(s + [x], keep, show, r + [show(x)], at + [|s|])
  {
    var all, more := s + [x], at + [|s|];
    forall i | 0 <= i < |more| ensures more[i] < |all| && keep(all[more[i]]) &&
      (r + [show(x)])[i] == show(all[more[i]]) {
      if i < |at| { assert more[i] == at[i]; }
    }
    forall k | 0 <= k < |all| && keep(all[k]) ensures k in more {
      if k < |s| { assert k in at; }
    }
  }

  lemma PickedOther<T, U>(s: seq<T>, keep: T -> bool, show: T -> U, r: seq<U>, at: seq<nat>, x: T)
    requires PickedAt(s, keep, show, r, at) && !keep(x)
    ensures PickedAt(s + [x], keep, show, r, at)
  {
    forall k | 0 <= k < |s + [x]| && keep((s + [x])[k]) ensures k in at {
      assert k < |s| && s[k] == (s + [x])[k];
    }
  }

  lemma PickedPlaces<T, U>(s: seq<T>, keep: T -> bool, show: T -> U, r: seq<U>, at: seq<nat>)
    requires PickedAt(s, keep, show, r, at)
    ensures Rising(at) && forall k: nat :: k in at <==> k < |s| && keep(s[k])
  {
    forall k: nat | k in at ensures k < |s| && keep(s[k]) {
      var i :| 0 <= i < |at| && at[i] == k;
    }
  }

  /** What is picked is determined. */
  lemma OnePick<T, U>(s: seq<T>, keep: T -> bool, show: T -> U, a: seq<U>, b: seq<U>)
    requires Picked(s, keep, show, a) && Picked(s, keep, show, b)
    ensures a == b
  {
    var x: seq<nat> :| PickedAt(s, keep, show, a, x);
    var y: seq<nat> :| PickedAt(s, keep, show, b, y);
    PickedPlaces(s, keep, show, a, x);
    PickedPlaces(s, keep, show, b, y);
    SameRising(x, y);
    forall i | 0 <= i < |a| ensures a[i] == b[i] { assert a[i] == show(s[x[i]]) && b[i] == show(s[y[i]]); }
  }

  predicate Rising(at: seq<nat>) { forall i, j :: 0 <= i < j < |at| ==> at[i] < at[j] }

  lemma {:induction false} SameRising(a: seq<nat>, b: seq<nat>)
    requires Rising(a) && Rising(b) && forall k: nat :: k in a <==> k in b
    ensures a == b
  {
    assert (a != [] ==> a[0] in a) && (b != [] ==> b[0] in b);
    if a != [] && b != [] {
      var n, m := |a| - 1, |b| - 1;
      assert a[n] in b && b[m] in a;
      forall k: nat ensures k in a[..n] <==> k in b[..m] {
        LastRising(a, k);
        LastRising(b, k);
      }
      SameRising(a[..n], b[..m]);
      LastOff(a);
      LastOff(b);
    }
  }

  lemma LastRising(a: seq<nat>, k: nat)
    requires Rising(a) && a != []
    ensures k in a[..|a| - 1] <==> k in a && k != a[|a| - 1]
  {
    if k in a && k != a[|a| - 1] {
      var i :| 0 <= i < |a| && a[i] == k;
      assert a[..|a| - 1][i] == k;
    }
  }

  lemma {:induction false} SomePick<T, U>(s: seq<T>, keep: T -> bool, show: T -> U) returns (r: seq<U>)
    ensures Picked(s, keep, show, r)
  {
    if s == [] {
      r := [];
      PickedNone(keep, show);
    } else {
      var n := |s| - 1;
      var before := SomePick(s[..n], keep, show);
      PickedMore(s[..n], keep, show, before, s[n]);
      LastOff(s);
      r := if keep(s[n]) then before + [show(s[n])] else before;
    }
  }

  lemma {:induction false} PickedConcat<T, U>(a: seq<T>, b: seq<T>, keep: T -> bool, show: T -> U, u: seq<U>)
    returns (v: seq<U>)
    requires Picked(a, keep, show, u)
    ensures Picked(b, keep, show, v) && Picked(a + b, keep, show, u + v)
  {
    if b == [] {
      v := [];
      PickedNone(keep, show);
      assert a + b == a && u + v == u;
    } else {
      var n := |b| - 1;
      var before := PickedConcat(a, b[..n], keep, show, u);
      PickedMore(b[..n], keep, show, before, b[n]);
      PickedMore(a + b[..n], keep, show, u + before, b[n]);
      LastOff(b);
      Assoc(a, b[..n], [b[n]]);
      v := if keep(b[n]) then before + [show(b[n])] else before;
      Assoc(u, before, [show(b[n])]);
    }
  }

  /** An element that is not kept may be replaced by other such ones, or go. */
  lemma PickedAround<T, U>(a: seq<T>, x: seq<T>, y: seq<T>, b: seq<T>, keep: T -> bool, show: T -> U, r: seq<U>)
    requires |x| <= 1 && |y| <= 1 && (forall e <- x :: !keep(e)) && (forall e <- y :: !keep(e))
    requires Picked(a + x + b, keep, show, r)
    ensures Picked(a + y + b, keep, show, r)
  {
    var u := SomePick(a, keep, show);
    PickedUnkept(a, x, keep, show, u);
    PickedUnkept(a, y, keep, show, u);
    var v := PickedConcat(a + x, b, keep, show, u);
    var w := PickedConcat(a + y, b, keep, show, u);
    OnePick(b, keep, show, v, w);
    OnePick(a + x + b, keep, show, r, u + v);
  }

  lemma PickedUnkept<T, U>(a: seq<T>, x: seq<T>, keep: T -> bool, show: T -> U, u: seq<U>)
    requires |x| <= 1 && (forall e <- x :: !keep(e)) && Picked(a, keep, show, u)
    ensures Picked(a + x, keep, show, u)
  {
    if x == [] {
      assert a + x == a;
    } else {
      PickedMore(a, keep, show, u, x[0]);
      assert x == [x[0]];
    }
  }

  // ---------------------------------------------------------------- lists laid end to end

  ghost predicate PartAt<T>(parts: seq<seq<T>>, all: seq<T>, cuts: seq<nat>, i: nat)
    requires i < |parts| && |cuts| == |parts| + 1
  {
    cuts[i] <= cuts[i + 1] <= |all| && parts[i] == all[cuts[i]..cuts[i + 1]]
  }

  /** The parts stand in `all` one behind the other: part `i` ends at `cuts[i + 1]`. */
  ghost predicate JoinsAt<T>(parts: seq<seq<T>>, all: seq<T>, cuts: seq<nat>) {
    && |cuts| == |parts| + 1 && cuts[0] == 0 && cuts[|parts|] == |all|
    && forall i :: 0 <= i < |parts| ==> PartAt(parts, all, cuts, i)
  }

  ghost predicate Joins<T>(parts: seq<seq<T>>, all: seq<T>) { exists cuts: seq<nat> :: JoinsAt(parts, all, cuts) }

  lemma NoneJoins<T>()
    ensures Joins<T>([], [])
  {
    assert JoinsAt<T>([], [], [0]);
  }

  lemma JoinsMore<T>(parts: seq<seq<T>>, all: seq<T>, part: seq<T>)
    requires Joins(parts, all)
    ensures Joins(parts + [part], all + part)
  {
    var cuts: seq<nat> :| JoinsAt(parts, all, cuts);
    var more, longer, ends := parts + [part], all + part, cuts + [|all| + |part|];
    forall i | 0 <= i < |parts| ensures PartAt(more, longer, ends, i) {
      assert PartAt(parts, all, cuts, i);
      assert longer[cuts[i]..cuts[i + 1]] == all[cuts[i]..cuts[i + 1]];
    }
    assert PartAt(more, longer, ends, |parts|) by { assert longer[|all|..|all| + |part|] == part; }
    assert JoinsAt(more, longer, ends);
  }

  lemma {:induction false} CutsRise<T>(parts: seq<seq<T>>, all: seq<T>, cuts: seq<nat>, k: nat)
    requires JoinsAt(parts, all, cuts) && k <= |parts|
    ensures forall i :: 0 <= i <= k ==> cuts[i] <= cuts[k]
  {
    if k > 0 {
      CutsRise(parts, all, cuts, k - 1);
      assert PartAt(parts, all, cuts, k - 1);
    }
  }

  /** Without the last part. */
  lemma JoinsLess<T>(parts: seq<seq<T>>, all: seq<T>)
    requires Joins(parts, all) && parts != []
    ensures var n := |parts| - 1;
      && |parts[n]| <= |all| && all == all[..|all| - |parts[n]|] + parts[n]
      && Joins(parts[..n], all[..|all| - |parts[n]|])
  {
    var n := |parts| - 1;
    var cuts: seq<nat> :| JoinsAt(parts, all, cuts);
    assert PartAt(parts, all, cuts, n);
    CutsRise(parts, all, cuts, n);
    var init, front := all[..cuts[n]], cuts[..n + 1];
    forall i | 0 <= i < n ensures PartAt(parts[..n], init, front, i) {
      assert PartAt(parts, all, cuts, i);
      assert init[cuts[i]..cuts[i + 1]] == all[cuts[i]..cuts[i + 1]];
    }
    assert JoinsAt(parts[..n], init, front);
  }

  lemma {:induction false} OneJoin<T>(parts: seq<seq<T>>, a: seq<T>, b: seq<T>)
    requires Joins(parts, a) && Joins(parts, b)
    ensures a == b
  {
    if parts == [] {
      var x: seq<nat> :| JoinsAt(parts, a, x);
      var y: seq<nat> :| JoinsAt(parts, b, y);
    } else {
      var n := |parts| - 1;
      JoinsLess(parts, a);
      JoinsLess(parts, b);
      OneJoin(parts[..n], a[..|a| - |parts[n]|], b[..|b| - |parts[n]|]);
    }
  }
}
