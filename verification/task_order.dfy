/** The order in which the writes of a superstep are applied: tasks are sorted by a
    string made from the first three parts of their path. */
module TaskOrder {
  import opened Channels

  datatype PathPart = Word(text: string) | Index(n: nat) | Nested(parts: seq<PathPart>)

  /** A task as `apply_writes` sees it. */
  datatype Task = Task(path: seq<PathPart>, name: Node, triggers: set<ChannelName>, writes: seq<Write>)

  const PULL := "__pregel_pull"
  const PUSH := "__pregel_push"

  // ---------------------------------------------------------------- path strings

  function Digits(n: nat): string {
    if n < 10 then [['0', '1', '2', '3', '4', '5', '6', '7', '8', '9'][n]]
    else Digits(n / 10) + Digits(n % 10)
  }

  function Zeros(n: nat): string { seq(n, _ => '0') }

  /** Ten digits at least, padded with zeros on the left. */
  function Padded(n: nat): string {
    var d := Digits(n);
    if |d| < 10 then Zeros(10 - |d|) + d else d
  }

  function PathString(part: PathPart): string {
    match part
    case Word(s) => s
    case Index(n) => Padded(n)
    case Nested(parts) => "~" + Joined(parts)
  }

  function Joined(parts: seq<PathPart>): string {
    if parts == [] then ""
    else if |parts| == 1 then PathString(parts[0])
    else PathString(parts[0]) + ", " + Joined(parts[1..])
  }

  function Key(t: Task): string {
    PathString(Nested(if |t.path| <= 3 then t.path else t.path[..3]))
  }

  /** Parts of a path behind the third do not matter: such tasks keep the order they came in. */
  lemma LaterPartsIgnored(a: Task, b: Task)
    requires |a.path| >= 3 && |b.path| >= 3 && a.path[..3] == b.path[..3]
    ensures Key(a) == Key(b)
  {
    assert |a.path| == 3 ==> a.path == a.path[..3];
    assert |b.path| == 3 ==> b.path == b.path[..3];
  }

  // ---------------------------------------------------------------- string order

  predicate StringLe(a: string, b: string) {
    a == [] || (b != [] && (a[0] < b[0] || (a[0] == b[0] && StringLe(a[1..], b[1..]))))
  }

  lemma {:induction false} StringLeTotal(a: string, b: string)
    ensures StringLe(a, b) || StringLe(b, a)
    ensures StringLe(a, b) && StringLe(b, a) ==> a == b
  {
    if a != [] && b != [] {
      StringLeTotal(a[1..], b[1..]);
      assert a == [a[0]] + a[1..] && b == [b[0]] + b[1..];
    }
  }

  lemma {:induction false} StringLeTransitive(a: string, b: string, c: string)
    requires StringLe(a, b) && StringLe(b, c)
    ensures StringLe(a, c)
  {
    if a != [] && a[0] == b[0] && b[0] == c[0] {
      StringLeTransitive(a[1..], b[1..], c[1..]);
    }
  }

  predicate Le(t: Task, u: Task) { StringLe(Key(t), Key(u)) }

  // ---------------------------------------------------------------- sorting

  /** A stable sort: a task stays in front of the later ones that have its key. */
  function Sort(tasks: seq<Task>): seq<Task> {
    if tasks == [] then [] else Insert(tasks[0], Sort(tasks[1..]))
  }

  function Insert(t: Task, sorted: seq<Task>): seq<Task> {
    if sorted == [] || Le(t, sorted[0]) then [t] + sorted
    else [sorted[0]] + Insert(t, sorted[1..])
  }

  ghost predicate Sorted(tasks: seq<Task>) {
    forall i, j :: 0 <= i < j < |tasks| ==> Le(tasks[i], tasks[j])
  }

  /** A key identifies its task: no two different tasks share one. */
  ghost predicate KeysIdentify(tasks: seq<Task>) {
    forall t, u :: t in tasks && u in tasks && Key(t) == Key(u) ==> t == u
  }

  lemma {:induction false} InsertAdds(t: Task, s: seq<Task>)
    ensures multiset(Insert(t, s)) == multiset{t} + multiset(s)
  {
    if s != [] && !Le(t, s[0]) {
      InsertAdds(t, s[1..]);
      assert s == [s[0]] + s[1..];
    }
  }

  lemma FirstIsLeast(t: Task, s: seq<Task>)
    requires Sorted(s) && s != [] && Le(t, s[0])
    ensures Sorted([t] + s)
  {
    forall j | 0 <= j < |s| ensures Le(t, s[j]) {
      if j > 0 { StringLeTransitive(Key(t), Key(s[0]), Key(s[j])); }
    }
  }

  lemma {:induction false} InsertSorted(t: Task, s: seq<Task>)
    requires Sorted(s)
    ensures Sorted(Insert(t, s))
  {
    if s == [] {
    } else if Le(t, s[0]) {
      FirstIsLeast(t, s);
    } else {
      InsertSorted(t, s[1..]);
      InsertAdds(t, s[1..]);
      StringLeTotal(Key(t), Key(s[0]));
      var r := Insert(t, s[1..]);
      forall j | 0 <= j < |r| ensures Le(s[0], r[j]) {
        assert r[j] in multiset(r);
        assert r[j] == t || r[j] in s[1..];
      }
    }
  }

  lemma {:induction false} SortSorts(tasks: seq<Task>)
    ensures Sorted(Sort(tasks))
    ensures multiset(Sort(tasks)) == multiset(tasks)
  {
    if tasks != [] {
      SortSorts(tasks[1..]);
      InsertAdds(tasks[0], Sort(tasks[1..]));
      InsertSorted(tasks[0], Sort(tasks[1..]));
      assert tasks == [tasks[0]] + tasks[1..];
    }
  }

  lemma SameHead(a: seq<Task>, b: seq<Task>)
    requires Sorted(a) && Sorted(b) && KeysIdentify(a)
    requires multiset(a) == multiset(b) && a != []
    ensures b != [] && a[0] == b[0]
  {
    assert a[0] in multiset(b);
    assert b[0] in multiset(a);
    StringLeTotal(Key(a[0]), Key(b[0]));
  }

  lemma TailFacts(a: seq<Task>)
    requires a != [] && Sorted(a)
    ensures Sorted(a[1..])
    ensures multiset(a[1..]) == multiset(a) - multiset{a[0]}
    ensures forall t :: t in a[1..] ==> t in a
  {
    var x := a[1..];
    forall i, j | 0 <= i < j < |x| ensures Le(x[i], x[j]) { assert Le(a[i + 1], a[j + 1]); }
    assert a == [a[0]] + x;
  }

  /** When keys identify tasks there is only one sorted arrangement. */
  lemma {:induction false} SortedUnique(a: seq<Task>, b: seq<Task>)
    requires Sorted(a) && Sorted(b) && KeysIdentify(a)
    requires multiset(a) == multiset(b)
    ensures a == b
  {
    if a == [] {
      assert |b| == |multiset(b)| == |multiset(a)|;
    } else {
      SameHead(a, b);
      TailFacts(a);
      TailFacts(b);
      assert KeysIdentify(a[1..]);
      SortedUnique(a[1..], b[1..]);
      assert a == [a[0]] + a[1..] && b == [b[0]] + b[1..];
    }
  }

  lemma SortIgnoresOrder(a: seq<Task>, b: seq<Task>)
    requires multiset(a) == multiset(b) && KeysIdentify(a)
    ensures Sort(a) == Sort(b)
  {
    SortSorts(a);
    SortSorts(b);
    forall t | t in Sort(a) ensures t in a { assert t in multiset(Sort(a)); }
    SortedUnique(Sort(a), Sort(b));
  }

  function WithKey(tasks: seq<Task>, key: string): seq<Task> {
    if tasks == [] then []
    else (if Key(tasks[0]) == key then [tasks[0]] else []) + WithKey(tasks[1..], key)
  }

  lemma {:induction false} InsertStable(t: Task, s: seq<Task>, key: string)
    ensures WithKey(Insert(t, s), key) == WithKey([t] + s, key)
  {
    assert ([t] + s)[1..] == s;
    if s != [] && !Le(t, s[0]) {
      InsertStable(t, s[1..], key);
      assert ([t] + s[1..])[1..] == s[1..];
      StringLeTotal(Key(t), Key(t));
      assert Insert(t, s)[1..] == Insert(t, s[1..]);
    }
  }

  /** Tasks that share a key keep the order in which they were supplied. */
  lemma {:induction false} SortStable(tasks: seq<Task>, key: string)
    ensures WithKey(Sort(tasks), key) == WithKey(tasks, key)
  {
    if tasks != [] {
      InsertStable(tasks[0], Sort(tasks[1..]), key);
      SortStable(tasks[1..], key);
      assert ([tasks[0]] + Sort(tasks[1..]))[1..] == Sort(tasks[1..]);
    }
  }

  // ---------------------------------------------------------------- keys of prepared tasks

  /** The path of a task made for a node, and of one made for the packet at `idx`. The
      packet's path ends in `False`, which the format string prints as the integer 0. */
  function PullPath(name: Node): seq<PathPart> { [Word(PULL), Word(name)] }
  function PushPath(idx: nat): seq<PathPart> { [Word(PUSH), Index(idx), Index(0)] }

  function ReadDigits(s: string): nat {
    if s == [] then 0
    else 10 * ReadDigits(s[..|s| - 1]) + (if '0' <= s[|s| - 1] <= '9' then (s[|s| - 1] - '0') as nat else 0)
  }

  lemma ReadLast(s: string, d: nat)
    requires d < 10
    ensures ReadDigits(s + Digits(d)) == 10 * ReadDigits(s) + d
  {
    assert (s + Digits(d))[..|s|] == s;
  }

  lemma {:induction false} ReadsBack(n: nat, zeros: nat)
    ensures ReadDigits(Zeros(zeros) + Digits(n)) == n
  {
    if n < 10 {
      ReadLast(Zeros(zeros), n);
      ReadZeros(zeros);
    } else {
      assert Zeros(zeros) + (Digits(n / 10) + Digits(n % 10)) == (Zeros(zeros) + Digits(n / 10)) + Digits(n % 10);
      ReadLast(Zeros(zeros) + Digits(n / 10), n % 10);
      ReadsBack(n / 10, zeros);
    }
  }

  lemma {:induction false} ReadZeros(k: nat)
    ensures ReadDigits(Zeros(k)) == 0
  {
    if k > 0 {
      assert Zeros(k)[..k - 1] == Zeros(k - 1);
      ReadZeros(k - 1);
    }
  }

  lemma PaddedInjective(m: nat, n: nat)
    requires Padded(m) == Padded(n)
    ensures m == n
  {
    forall k | k == m || k == n ensures ReadDigits(Padded(k)) == k {
      var d := Digits(k);
      assert Zeros(0) + d == d;
      ReadsBack(k, if |d| < 10 then 10 - |d| else 0);
    }
  }

  lemma SameMiddle(pre: string, a: string, b: string, post: string)
    requires pre + a + post == pre + b + post
    ensures a == b
  {
    assert |a| == |b|;
    assert a == (pre + a + post)[|pre|..|pre| + |a|];
    assert b == (pre + b + post)[|pre|..|pre| + |b|];
  }

  lemma PullKey(t: Task, name: Node)
    requires t.path == PullPath(name)
    ensures Key(t) == "~" + (PULL + ", " + name)
  {
    var p := PullPath(name);
    assert p[1..] == [Word(name)];
    assert Joined([Word(name)]) == name;
    assert Joined(p) == PULL + ", " + name;
  }

  lemma PushKey(t: Task, idx: nat)
    requires t.path == PushPath(idx)
    ensures Key(t) == "~" + (PUSH + ", " + (Padded(idx) + ", " + Padded(0)))
  {
    var p := PushPath(idx);
    assert p[1..] == [Index(idx), Index(0)];
    assert p[1..][1..] == [Index(0)];
    assert Joined([Index(0)]) == Padded(0);
    assert Joined(p[1..]) == Padded(idx) + ", " + Padded(0);
    assert Joined(p) == PUSH + ", " + Joined(p[1..]);
    assert p[..3] == p;
  }

  lemma PullIsNotPush(a: string, b: string)
    ensures "~" + (PULL + ", " + a) != "~" + (PUSH + ", " + b)
  {
    var x, y := "~" + (PULL + ", " + a), "~" + (PUSH + ", " + b);
    assert x[12] == (PULL + ", " + a)[11] == PULL[11] == 'l';
    assert y[12] == (PUSH + ", " + b)[11] == PUSH[11] == 's';
  }

  ghost predicate Prepared(t: Task) {
    || t.path == PullPath(t.name)
    || exists idx: nat :: t.path == PushPath(idx)
  }

  /** Two prepared tasks with one key are for the same node, or for the same packet. */
  lemma PreparedKeysInjective(t: Task, u: Task)
    requires Prepared(t) && Prepared(u) && Key(t) == Key(u)
    ensures t.path == u.path
  {
    if t.path == PullPath(t.name) && u.path == PullPath(u.name) {
      PullKey(t, t.name);
      PullKey(u, u.name);
      assert "~" + (PULL + ", " + t.name) == "~" + (PULL + ", ") + t.name + "";
      assert "~" + (PULL + ", " + u.name) == "~" + (PULL + ", ") + u.name + "";
      SameMiddle("~" + (PULL + ", "), t.name, u.name, "");
    } else if t.path == PullPath(t.name) {
      PullDiffers(t, u);
    } else if u.path == PullPath(u.name) {
      PullDiffers(u, t);
    } else {
      var i: nat, j: nat :| t.path == PushPath(i) && u.path == PushPath(j);
      PushKey(t, i);
      PushKey(u, j);
      PushTextInjective(i, j);
    }
  }

  lemma PullDiffers(t: Task, u: Task)
    requires t.path == PullPath(t.name) && Prepared(u) && u.path != PullPath(u.name)
    ensures Key(t) != Key(u)
  {
    var j: nat :| u.path == PushPath(j);
    PullKey(t, t.name);
    PushKey(u, j);
    PullIsNotPush(t.name, Padded(j) + ", " + Padded(0));
  }

  lemma PushTextInjective(i: nat, j: nat)
    requires "~" + (PUSH + ", " + (Padded(i) + ", " + Padded(0))) ==
      "~" + (PUSH + ", " + (Padded(j) + ", " + Padded(0)))
    ensures i == j
  {
    var pre, p, q := PUSH + ", ", Padded(i), Padded(j);
    var post := ", " + Padded(0);
    forall x: string ensures pre + (x + ", " + Padded(0)) == pre + x + post { assert x + ", " + Padded(0) == x + post; }
    SameMiddle("~", pre + p + post, pre + q + post, "");
    assert pre + p + post == pre + q + post by {
      assert "~" + (pre + p + post) + "" == "~" + (pre + p + post);
      assert "~" + (pre + q + post) + "" == "~" + (pre + q + post);
    }
    SameMiddle(pre, p, q, post);
    PaddedInjective(i, j);
  }
}
