/** Trimming of strings. */
module Texts {

  /** The characters that count as white space. */
  predicate Blank(c: char) {
    var n := c as int;
    9 <= n <= 13 || 28 <= n <= 32 || n in {133, 160, 5760, 8232, 8233, 8239, 8287, 12288} || 8192 <= n <= 8202
  }

  function Strip(s: string): (r: string)
    ensures r != "" ==> !Blank(r[0]) && !Blank(r[|r| - 1])
    decreases |s|
  {
    if s == "" then ""
    else if Blank(s[0]) then Strip(s[1..])
    else if Blank(s[|s| - 1]) then Strip(s[..|s| - 1])
    else s
  }

  /** `r` stands in `s` between white space, and neither begins nor ends with any. */
  predicate StrippedAt(s: string, r: string, i: nat, j: nat) {
    && i <= j <= |s| && r == s[i..j]
    && (forall k :: 0 <= k < i ==> Blank(s[k])) && (forall k :: j <= k < |s| ==> Blank(s[k]))
    && (r != "" ==> !Blank(s[i]) && !Blank(s[j - 1]))
  }

  ghost predicate Stripped(s: string, r: string) { exists i: nat, j: nat :: StrippedAt(s, r, i, j) }

  lemma BlankInFront(s: string, r: string, i: nat, j: nat)
    requires s != "" && Blank(s[0]) && StrippedAt(s[1..], r, i, j)
    ensures StrippedAt(s, r, i + 1, j + 1)
  {
    var t := s[1..];
    forall k | 0 <= k < i + 1 ensures Blank(s[k]) { assert k > 0 ==> s[k] == t[k - 1]; }
    forall k | j + 1 <= k < |s| ensures Blank(s[k]) { assert s[k] == t[k - 1]; }
    assert t[i..j] == s[i + 1..j + 1];
  }

  lemma BlankBehind(s: string, r: string, i: nat, j: nat)
    requires s != "" && Blank(s[|s| - 1]) && StrippedAt(s[..|s| - 1], r, i, j)
    ensures StrippedAt(s, r, i, j)
  {
    var t := s[..|s| - 1];
    forall k | 0 <= k < i ensures Blank(s[k]) { assert s[k] == t[k]; }
    forall k | j <= k < |s| ensures Blank(s[k]) { assert k < |t| ==> s[k] == t[k]; }
    assert t[i..j] == s[i..j];
  }

  lemma {:induction false} StripIs(s: string)
    ensures Stripped(s, Strip(s))
    decreases |s|
  {
    if s == "" {
      assert StrippedAt(s, "", 0, 0);
    } else if Blank(s[0]) {
      StripIs(s[1..]);
      var i: nat, j: nat :| StrippedAt(s[1..], Strip(s[1..]), i, j);
      BlankInFront(s, Strip(s[1..]), i, j);
    } else if Blank(s[|s| - 1]) {
      StripIs(s[..|s| - 1]);
      var i: nat, j: nat :| StrippedAt(s[..|s| - 1], Strip(s[..|s| - 1]), i, j);
      BlankBehind(s, Strip(s[..|s| - 1]), i, j);
    } else {
      assert StrippedAt(s, s, 0, |s|);
    }
  }

  lemma OneStrip(s: string, a: string, b: string)
    requires Stripped(s, a) && Stripped(s, b)
    ensures a == b
  {
    var i: nat, j: nat :| StrippedAt(s, a, i, j);
    var k: nat, l: nat :| StrippedAt(s, b, k, l);
    if a != "" {
      NotCutOff(s, b, k, l, i);
      NotCutOff(s, b, k, l, j - 1);
    }
    if b != "" {
      NotCutOff(s, a, i, j, k);
      NotCutOff(s, a, i, j, l - 1);
    }
  }

  lemma NotCutOff(s: string, r: string, i: nat, j: nat, at: nat)
    requires StrippedAt(s, r, i, j) && at < |s| && !Blank(s[at])
    ensures i <= at < j
  {}
}
