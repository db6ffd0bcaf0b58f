/** The order in which prepared tasks are applied: pulled nodes by name, then packets by number,
    as long as the numbers have the same width. */
module PacketOrder {
  import opened Channels
  import opened Lists
  import opened TaskOrder

  function Pow10(k: nat): (p: nat)
    ensures p > 0
  {
    if k == 0 then 1 else 10 * Pow10(k - 1)
  }

  predicate AllDigits(s: string) { forall i :: 0 <= i < |s| ==> '0' <= s[i] <= '9' }

  function DigitOf(c: char): nat { if '0' <= c <= '9' then (c - '0') as nat else 0 }

  // ---------------------------------------------------------------- reading digits

  lemma ReadMore(s: string, c: char)
    ensures ReadDigits(s + [c]) == 10 * ReadDigits(s) + DigitOf(c)
  {
    assert (s + [c])[..|s|] == s;
  }

  /** A digit behind which `k` more follow. */
  function Scaled(d: nat, k: nat): nat { if k == 0 then d else 10 * Scaled(d, k - 1) }

  lemma {:induction false} ScaledIs(d: nat, k: nat)
    ensures Scaled(d, k) == d * Pow10(k)
  {
    if k > 0 {
      ScaledIs(d, k - 1);
      OneDigitMore(d, Pow10(k - 1), 0, 0);
    }
  }

  lemma {:induction false} ReadFirst(c: char, s: string)
    ensures ReadDigits([c] + s) == Scaled(DigitOf(c), |s|) + ReadDigits(s)
  {
    if s == "" {
      assert [c] + s == [] + [c];
      ReadMore([], c);
    } else {
      ReadFirst(c, s[..|s| - 1]);
      ReadFirstMore(c, s[..|s| - 1], s[|s| - 1]);
      LastOff(s);
    }
  }

  lemma ReadFirstMore(c: char, s: string, x: char)
    requires ReadDigits([c] + s) == Scaled(DigitOf(c), |s|) + ReadDigits(s)
    ensures ReadDigits([c] + (s + [x])) == Scaled(DigitOf(c), |s + [x]|) + ReadDigits(s + [x])
  {
    Assoc([c], s, [x]);
    ReadMore([c] + s, x);
    ReadMore(s, x);
  }

  lemma OneDigitMore(d: nat, p: nat, x: nat, e: nat)
    ensures 10 * (d * p + x) + e == d * (10 * p) + (10 * x + e)
  {}

  lemma {:induction false} ReadBelow(s: string)
    requires AllDigits(s)
    ensures ReadDigits(s) < Pow10(|s|)
  {
    if s != "" {
      ReadBelow(s[..|s| - 1]);
      LastOff(s);
      ReadMore(s[..|s| - 1], s[|s| - 1]);
    }
  }

  lemma Leading(d: nat, e: nat, p: nat, x: nat, y: nat)
    requires x < p && y < p
    ensures d * p + x <= e * p + y <==> d < e || (d == e && x <= y)
  {
    if d < e {
      Distribute(e, d, p);
    } else if e < d {
      Distribute(d, e, p);
    }
  }

  lemma Distribute(a: nat, b: nat, p: nat)
    requires b < a
    ensures a * p >= b * p + p
  {
    assert a * p == (a - b) * p + b * p;
    assert (a - b) * p >= p by { Larger(a - b, p); }
  }

  lemma Larger(k: nat, p: nat)
    requires k >= 1
    ensures k * p >= p
  {}

  /** Strings of digits of one length are in the order of their numbers. */
  lemma {:induction false} SameWidth(a: string, b: string)
    requires |a| == |b| && AllDigits(a) && AllDigits(b)
    ensures StringLe(a, b) <==> ReadDigits(a) <= ReadDigits(b)
  {
    if a != "" {
      SameWidth(a[1..], b[1..]);
      FirstOrder(a, b);
      FirstDigits(a[0], a[1..], b[0], b[1..]);
      FirstOff(a);
      FirstOff(b);
    }
  }

  lemma FirstOff(s: string)
    requires s != ""
    ensures s == [s[0]] + s[1..]
  {}

  lemma FirstOrder(a: string, b: string)
    requires a != "" && b != "" && '0' <= a[0] <= '9' && '0' <= b[0] <= '9'
    ensures StringLe(a, b) <==>
      DigitOf(a[0]) < DigitOf(b[0]) || (DigitOf(a[0]) == DigitOf(b[0]) && StringLe(a[1..], b[1..]))
  {}

  lemma FirstDigits(x: char, a: string, y: char, b: string)
    requires |a| == |b| && AllDigits(a) && AllDigits(b)
    ensures ReadDigits([x] + a) <= ReadDigits([y] + b) <==>
            DigitOf(x) < DigitOf(y) || (DigitOf(x) == DigitOf(y) && ReadDigits(a) <= ReadDigits(b))
  {
    ReadFirst(x, a);
    ReadFirst(y, b);
    ReadBelow(a);
    ReadBelow(b);
    ScaledIs(DigitOf(x), |a|);
    ScaledIs(DigitOf(y), |a|);
    Leading(DigitOf(x), DigitOf(y), Pow10(|a|), ReadDigits(a), ReadDigits(b));
  }

  lemma {:induction false} ShorterFirst(a: string, b: string)
    requires |a| <= |b|
    ensures StringLe(a, b) <==> StringLe(a, b[..|a|])
  {
    if a != "" {
      ShorterFirst(a[1..], b[1..]);
      assert b[..|a|][1..] == b[1..][..|a| - 1];
    }
  }

  lemma {:induction false} ReadPrefix(s: string, k: nat)
    requires k <= |s| && AllDigits(s)
    ensures ReadDigits(s[..k]) == ReadDigits(s) / Pow10(|s| - k)
    decreases |s|
  {
    if k == |s| {
      assert s[..k] == s;
    } else {
      var n := |s| - 1;
      ReadPrefix(s[..n], k);
      assert s[..n][..k] == s[..k];
      LastOff(s);
      ReadMore(s[..n], s[n]);
      OneDigitLess(ReadDigits(s[..n]), DigitOf(s[n]), ReadDigits(s), n - k, |s| - k);
    }
  }

  lemma OneDigitLess(x: nat, d: nat, y: nat, j: nat, k: nat)
    requires d < 10 && y == 10 * x + d && k == j + 1
    ensures y / Pow10(k) == x / Pow10(j)
  {
    DivideOnce(x, d, Pow10(j));
  }

  lemma DivideOnce(x: nat, d: nat, p: nat)
    requires d < 10 && p > 0
    ensures (10 * x + d) / (10 * p) == x / p
  {
    var q, r := x / p, x % p;
    assert x == q * p + r;
    assert 10 * x + d == q * (10 * p) + (10 * r + d) by { OneDigitMore(q, p, r, d); }
    Quotient(10 * x + d, 10 * p, q, 10 * r + d);
  }

  lemma Quotient(x: nat, p: nat, q: nat, r: nat)
    requires p > 0 && r < p && x == q * p + r
    ensures x / p == q
  {
    var a, b := x / p, x % p;
    assert x == a * p + b;
    if a < q { Distribute(q, a, p); }
    if q < a { Distribute(a, q, p); }
  }

  // ---------------------------------------------------------------- padded numbers

  lemma {:induction false} DigitsWidth(n: nat)
    ensures AllDigits(Digits(n)) && n < Pow10(|Digits(n)|) && |Digits(n)| >= 1
    ensures n >= 10 ==> n >= Pow10(|Digits(n)| - 1)
  {
    if n >= 10 {
      DigitsWidth(n / 10);
      assert |Digits(n)| == |Digits(n / 10)| + 1;
      if n / 10 < 10 { assert |Digits(n / 10)| == 1; }
    }
  }

  lemma PaddedReads(n: nat)
    ensures AllDigits(Padded(n)) && ReadDigits(Padded(n)) == n && |Padded(n)| >= 10
    ensures |Padded(n)| > 10 ==> n >= Pow10(|Padded(n)| - 1)
  {
    var d := Digits(n);
    DigitsWidth(n);
    if |d| < 10 {
      ReadsBack(n, 10 - |d|);
    } else {
      ReadsBack(n, 0);
      assert Zeros(0) + d == d;
    }
  }

  lemma {:induction false} PowGrows(j: nat, k: nat)
    requires j <= k
    ensures Pow10(j) <= Pow10(k)
  {
    if j < k { PowGrows(j, k - 1); }
  }

  lemma WidthGrows(i: nat, j: nat)
    requires i <= j
    ensures |Padded(i)| <= |Padded(j)|
  {
    PaddedReads(i);
    PaddedReads(j);
    ReadBelow(Padded(j));
    if |Padded(i)| > |Padded(j)| { PowGrows(|Padded(j)|, |Padded(i)| - 1); }
  }

  lemma TenPow()
    ensures Pow10(10) == 10000000000
  {
    assert Pow10(5) == 100000;
    assert Pow10(7) == 100 * Pow10(5);
    assert Pow10(10) == 10 * Pow10(9) == 100 * Pow10(8) == 1000 * Pow10(7);
  }

  /** Ten digits are enough below ten to the ten. */
  lemma TenDigits(n: nat)
    requires n < 10000000000
    ensures |Padded(n)| == 10
  {
    PaddedReads(n);
    TenPow();
    if |Padded(n)| > 10 { PowGrows(10, |Padded(n)| - 1); }
  }

  /** Of two numbers the smaller one comes first exactly if it is no larger than the other cut to
      as many digits. */
  lemma NumericExactly(i: nat, j: nat)
    requires i <= j
    ensures |Padded(i)| <= |Padded(j)|
    ensures StringLe(Padded(i), Padded(j)) <==> i <= j / Pow10(|Padded(j)| - |Padded(i)|)
  {
    var a, b := Padded(i), Padded(j);
    WidthGrows(i, j);
    PaddedReads(i);
    PaddedReads(j);
    ShorterFirst(a, b);
    SameWidth(a, b[..|a|]);
    ReadPrefix(b, |a|);
  }

  /** Numbers of up to ten digits are in their order. */
  lemma NumericOrder(i: nat, j: nat)
    requires i < 10000000000 && j < 10000000000
    ensures StringLe(Padded(i), Padded(j)) <==> i <= j
  {
    TenDigits(i);
    TenDigits(j);
    PaddedReads(i);
    PaddedReads(j);
    SameWidth(Padded(i), Padded(j));
  }

  /** The first number of eleven digits comes before the last one of ten. */
  lemma ElevenDigitsFirst(i: nat, j: nat)
    requires i == 9999999999 && j == 10000000000
    ensures !StringLe(Padded(i), Padded(j))
  {
    NumericExactly(i, j);
    TenDigits(i);
    MoreThanTen(j);
    Shrinks(j, |Padded(j)| - 10);
  }

  lemma MoreThanTen(n: nat)
    requires n >= 10000000000
    ensures |Padded(n)| > 10
  {
    PaddedReads(n);
    ReadBelow(Padded(n));
    TenPow();
  }

  lemma Shrinks(x: nat, k: nat)
    requires k >= 1
    ensures x / Pow10(k) <= x / 10
  {
    assert Pow10(1) == 10;
    PowGrows(1, k);
    DivideLess(x, 10, Pow10(k));
  }

  lemma DivideLess(x: nat, p: nat, q: nat)
    requires 0 < p <= q
    ensures x / q <= x / p
  {
    var a, b := x / p, x / q;
    assert x == a * p + x % p && x == b * q + x % q;
    if b > a {
      Distribute(b, a, p);
      Scale(b, p, q);
    }
  }

  lemma Scale(k: nat, p: nat, q: nat)
    requires p <= q
    ensures k * p <= k * q
  {}

  // ---------------------------------------------------------------- prepared tasks

  lemma {:induction false} SameFront(front: string, a: string, b: string)
    ensures StringLe(front + a, front + b) <==> StringLe(a, b)
  {
    if front == "" {
      assert front + a == a && front + b == b;
    } else {
      assert (front + a)[1..] == front[1..] + a && (front + b)[1..] == front[1..] + b;
      SameFront(front[1..], a, b);
    }
  }

  /** A comma behind digits does not change their order. */
  lemma {:induction false} SameBack(a: string, b: string, back: string)
    requires AllDigits(a) && AllDigits(b)
    ensures StringLe(a + [','] + back, b + [','] + back) <==> StringLe(a, b)
  {
    var x, y := a + [','] + back, b + [','] + back;
    if a == "" || b == "" {
      if a == "" && b == "" { StringLeTotal(x, y); }
    } else {
      assert x[1..] == a[1..] + [','] + back && y[1..] == b[1..] + [','] + back;
      SameBack(a[1..], b[1..], back);
    }
  }

  predicate Pulled(t: Task, name: Node) { t.path == [Word("__pregel_pull"), Word(name)] }

  predicate Pushed(t: Task, k: nat) { t.path == [Word("__pregel_push"), Index(k), Index(0)] }

  lemma PulledOrder(t: Task, u: Task, n: Node, k: Node)
    requires Pulled(t, n) && Pulled(u, k)
    ensures Le(t, u) <==> StringLe(n, k)
  {
    PullKey(t, n);
    PullKey(u, k);
    var front := "~" + (PULL + ", ");
    assert Key(t) == front + n && Key(u) == front + k;
    SameFront(front, n, k);
  }

  lemma CommaBehind(front: string, x: string)
    requires front == "~" + (PUSH + ", ")
    ensures "~" + (PUSH + ", " + (x + ", " + Padded(0))) == front + (x + [','] + (" " + Padded(0)))
  {
    var back := Padded(0);
    Assoc("~", PUSH + ", ", x + ", " + back);
    Assoc(x, [','], " " + back);
    Assoc([','], " ", back);
    Assoc(x, ", ", back);
    assert [','] + " " == ", ";
  }

  lemma PushedOrder(t: Task, u: Task, i: nat, j: nat)
    requires Pushed(t, i) && Pushed(u, j)
    ensures Le(t, u) <==> StringLe(Padded(i), Padded(j))
  {
    PushKey(t, i);
    PushKey(u, j);
    PaddedReads(i);
    PaddedReads(j);
    var front, back := "~" + (PUSH + ", "), " " + Padded(0);
    CommaBehind(front, Padded(i));
    CommaBehind(front, Padded(j));
    SameFront(front, Padded(i) + [','] + back, Padded(j) + [','] + back);
    SameBack(Padded(i), Padded(j), back);
  }

  lemma PullSplits(x: string)
    ensures "~" + (PULL + ", " + x) == "~__pregel_pu" + ("ll, " + x)
  {
    Assoc("~__pregel_pu", "ll, ", x);
    Assoc("~", PULL + ", ", x);
    assert "~" + (PULL + ", ") == "~__pregel_pu" + "ll, ";
  }

  lemma PushSplits(x: string)
    ensures "~" + (PUSH + ", " + x) == "~__pregel_pu" + ("sh, " + x)
  {
    Assoc("~__pregel_pu", "sh, ", x);
    Assoc("~", PUSH + ", ", x);
    assert "~" + (PUSH + ", ") == "~__pregel_pu" + "sh, ";
  }

  lemma LowerFirst(a: string, b: string)
    requires a != "" && b != "" && a[0] < b[0]
    ensures StringLe(a, b) && !StringLe(b, a)
  {}

  lemma PullBeforePush(t: Task, u: Task, n: Node, j: nat)
    requires Pulled(t, n) && Pushed(u, j)
    ensures Le(t, u) && !Le(u, t)
  {
    var x := Padded(j) + ", " + Padded(0);
    PullKey(t, n);
    PushKey(u, j);
    PullSplits(n);
    PushSplits(x);
    SameFront("~__pregel_pu", "ll, " + n, "sh, " + x);
    SameFront("~__pregel_pu", "sh, " + x, "ll, " + n);
    LowerFirst("ll, " + n, "sh, " + x);
  }

  /** The writes of pulled nodes are applied first, in the order of their names; then those of the
      packets, in the order of their numbers as long as these have up to ten digits. */
  lemma PreparedOrder(t: Task, u: Task, n: Node, k: Node, i: nat, j: nat)
    ensures Pulled(t, n) && Pulled(u, k) ==> (Le(t, u) <==> StringLe(n, k))
    ensures Pulled(t, n) && Pushed(u, j) ==> Le(t, u) && !Le(u, t)
    ensures Pushed(t, i) && Pushed(u, j) && i < 10000000000 && j < 10000000000 ==> (Le(t, u) <==> i <= j)
  {
    if Pulled(t, n) && Pulled(u, k) { PulledOrder(t, u, n, k); }
    if Pulled(t, n) && Pushed(u, j) { PullBeforePush(t, u, n, j); }
    if Pushed(t, i) && Pushed(u, j) && i < 10000000000 && j < 10000000000 {
      PushedOrder(t, u, i, j);
      NumericOrder(i, j);
    }
  }
}
