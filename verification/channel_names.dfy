/** The strings that stand for edge channels. `ChannelName` keeps channels apart by
    construction; the strings do so exactly while no two joins into one target fall into the
    same pieces when their names are cut at every '+'. */
module ChannelNames {
  import opened Channels
  import opened CompiledRuns
  import opened Lists
  import opened StateGraphs

  function Plus(starts: seq<Node>): string {
    if starts == [] then ""
    else if |starts| == 1 then starts[0]
    else starts[0] + "+" + Plus(starts[1..])
  }

  function JoinString(starts: seq<Node>, end: Node): string { "join:" + Plus(starts) + ":" + end }

  function EdgeString(c: ChannelName): string
    requires IsEdgeChannel(c)
  {
    match c case Start => "__start__" case BranchTo(n) => "branch:to:" + n case Join(ss, e) => JoinString(ss, e)
  }

  predicate Free(s: string, ch: char) { forall i :: 0 <= i < |s| ==> s[i] != ch }

  function FirstAt(s: string, ch: char): nat {
    if s == [] || s[0] == ch then 0 else 1 + FirstAt(s[1..], ch)
  }

  lemma {:induction false} FirstIsHere(a: string, ch: char, x: string)
    requires Free(a, ch)
    ensures FirstAt(a + [ch] + x, ch) == |a|
  {
    if a != [] {
      assert (a + [ch] + x)[1..] == a[1..] + [ch] + x;
      FirstIsHere(a[1..], ch, x);
    }
  }

  /** What stands in front of the first `ch` is determined. */
  lemma SameHead(a: string, b: string, x: string, y: string, ch: char)
    requires Free(a, ch) && Free(b, ch) && a + [ch] + x == b + [ch] + y
    ensures a == b && x == y
  {
    var s, t := a + [ch] + x, b + [ch] + y;
    FirstIsHere(a, ch, x);
    FirstIsHere(b, ch, y);
    assert a == s[..|a|] && b == t[..|b|];
    assert x == s[|a| + 1..] && y == t[|b| + 1..];
  }

  lemma {:induction false} PlusFree(starts: seq<Node>, ch: char)
    requires ch != '+' && forall n <- starts :: Free(n, ch)
    ensures Free(Plus(starts), ch)
  {
    if starts != [] { assert starts[0] in starts; }
    if |starts| > 1 { PlusFree(starts[1..], ch); }
  }

  // ---------------------------------------------------------------- names cut at every '+'

  function Pieces(s: string): (r: seq<string>)
    ensures r != []
  {
    if s == "" then [""]
    else if s[0] == '+' then [""] + Pieces(s[1..])
    else [[s[0]] + Pieces(s[1..])[0]] + Pieces(s[1..])[1..]
  }

  function AllPieces(names: seq<Node>): seq<string> {
    if names == [] then [] else Pieces(names[0]) + AllPieces(names[1..])
  }

  /** The pieces of a join's sources; without sources its string is that of one empty name. */
  function JoinPieces(starts: seq<Node>): seq<string> { if starts == [] then [""] else AllPieces(starts) }

  lemma {:induction false} PiecesOfTwo(s: string, t: string)
    ensures Pieces(s + "+" + t) == Pieces(s) + Pieces(t)
  {
    var all := s + "+" + t;
    if s == "" {
      assert all[0] == '+' && all[1..] == t;
    } else {
      assert all[0] == s[0] && all[1..] == s[1..] + "+" + t;
      PiecesOfTwo(s[1..], t);
      var r := Pieces(s[1..]);
      assert (r + Pieces(t))[0] == r[0] && (r + Pieces(t))[1..] == r[1..] + Pieces(t);
      if s[0] == '+' {
        Assoc([""], r, Pieces(t));
      } else {
        Assoc([[s[0]] + r[0]], r[1..], Pieces(t));
      }
    }
  }

  lemma {:induction false} PiecesOfPlus(starts: seq<Node>)
    ensures Pieces(Plus(starts)) == JoinPieces(starts)
  {
    if starts == [] {
      assert Pieces("") == [""];
    } else if |starts| == 1 {
      assert AllPieces(starts[1..]) == [];
      assert AllPieces(starts) == Pieces(starts[0]) + [] == Pieces(starts[0]);
    } else {
      PiecesOfPlus(starts[1..]);
      PiecesOfTwo(starts[0], Plus(starts[1..]));
    }
  }

  lemma {:induction false} PlusOfPieces(s: string)
    ensures Plus(Pieces(s)) == s
  {
    if s != "" {
      var r := Pieces(s[1..]);
      PlusOfPieces(s[1..]);
      if s[0] == '+' {
        assert ([""] + r)[1..] == r;
        assert "" + "+" + Plus(r) == s;
      } else {
        PlusPrefixed([s[0]], r);
        assert [s[0]] + s[1..] == s;
      }
    }
  }

  lemma PlusPrefixed(s: string, r: seq<string>)
    requires r != []
    ensures Plus([s + r[0]] + r[1..]) == s + Plus(r)
  {
    var t := [s + r[0]] + r[1..];
    assert t[1..] == r[1..];
    if |r| > 1 { assert (s + r[0]) + "+" + Plus(r[1..]) == s + (r[0] + "+" + Plus(r[1..])); }
  }

  lemma {:induction false} PlusFreePieces(starts: seq<Node>)
    requires forall n <- starts :: Free(n, '+')
    ensures AllPieces(starts) == starts
  {
    if starts != [] {
      assert starts[0] in starts;
      OnePiece(starts[0]);
      PlusFreePieces(starts[1..]);
    }
  }

  lemma {:induction false} OnePiece(s: string)
    requires Free(s, '+')
    ensures Pieces(s) == [s]
  {
    if s != "" {
      OnePiece(s[1..]);
      assert [s[0]] + s[1..] == s;
    }
  }

  // ---------------------------------------------------------------- two joins

  lemma JoinParts(a: seq<Node>, x: Node, b: seq<Node>, y: Node)
    requires (forall n <- a :: Free(n, ':')) && (forall n <- b :: Free(n, ':'))
    ensures JoinString(a, x) == JoinString(b, y) <==> x == y && Plus(a) == Plus(b)
  {
    var p, q := Plus(a) + ":" + x, Plus(b) + ":" + y;
    assert JoinString(a, x) == "join:" + p && JoinString(b, y) == "join:" + q;
    assert p == ("join:" + p)[5..] && q == ("join:" + q)[5..];
    PlusFree(a, ':');
    PlusFree(b, ':');
    if p == q { SameHead(Plus(a), Plus(b), x, y, ':'); }
  }

  lemma SamePieces(a: seq<Node>, b: seq<Node>)
    ensures Plus(a) == Plus(b) <==> JoinPieces(a) == JoinPieces(b)
  {
    PiecesOfPlus(a);
    PiecesOfPlus(b);
    PlusOfPieces(Plus(a));
    PlusOfPieces(Plus(b));
  }

  /** Two joins, with sources or without, have one string exactly if they have one target and
      the same pieces. Node names cannot hold ':', which the builder refuses. */
  lemma JoinStringsExactly(a: seq<Node>, x: Node, b: seq<Node>, y: Node)
    requires (forall n <- a :: Free(n, ':')) && (forall n <- b :: Free(n, ':'))
    ensures JoinString(a, x) == JoinString(b, y) <==> x == y && JoinPieces(a) == JoinPieces(b)
  {
    JoinParts(a, x, b, y);
    SamePieces(a, b);
  }

  /** So joins of at least one source, whose names hold no '+', have strings of their own. */
  lemma JoinStringsDistinct(a: seq<Node>, x: Node, b: seq<Node>, y: Node)
    requires a != [] && b != [] && JoinString(a, x) == JoinString(b, y)
    requires (forall n <- a :: Free(n, '+') && Free(n, ':')) && (forall n <- b :: Free(n, '+') && Free(n, ':'))
    ensures a == b && x == y
  {
    JoinStringsExactly(a, x, b, y);
    PlusFreePieces(a);
    PlusFreePieces(b);
  }

  /** With a '+' in a name two different joins get one channel. */
  lemma PlusCollides(n: Node, m: Node, end: Node)
    ensures [n + "+" + m] != [n, m] && JoinString([n + "+" + m], end) == JoinString([n, m], end)
  {
    PiecesOfTwo(n, m);
    assert [n, m][1..] == [m] && [m][1..] == [] && [n + "+" + m][1..] == [];
    assert AllPieces([m]) == Pieces(m) + [] == Pieces(m);
    assert AllPieces([n + "+" + m]) == Pieces(n + "+" + m) + [] == AllPieces([n, m]);
    SamePieces([n + "+" + m], [n, m]);
    assert |[n + "+" + m]| == 1 && |[n, m]| == 2;
  }

  /** A join without sources shares its string with the one of a source with an empty name. */
  lemma EmptyNameCollides(end: Node)
    ensures JoinString([], end) == JoinString([""], end)
  {
    assert [""][1..] == [];
    assert AllPieces([""]) == [""] + [] == [""];
    SamePieces([], [""]);
  }

  // ---------------------------------------------------------------- the edge channels of a graph

  lemma KindShows(c: ChannelName)
    requires IsEdgeChannel(c)
    ensures EdgeString(c) != ""
    ensures EdgeString(c)[0] == if c.Start? then '_' else if c.BranchTo? then 'b' else 'j'
  {}

  lemma BranchStrings(n: Node, m: Node)
    requires EdgeString(BranchTo(n)) == EdgeString(BranchTo(m))
    ensures n == m
  {
    assert n == ("branch:to:" + n)[10..] && m == ("branch:to:" + m)[10..];
  }

  predicate PlainNames(c: ChannelName) {
    c.Join? ==> c.starts != [] && forall n <- c.starts :: Free(n, '+') && Free(n, ':')
  }

  /** Without '+' and ':' in the sources' names no two edge channels of any kind share a string. */
  lemma EdgeStringsDistinct(c: ChannelName, d: ChannelName)
    requires IsEdgeChannel(c) && IsEdgeChannel(d) && PlainNames(c) && PlainNames(d) && EdgeString(c) == EdgeString(d)
    ensures c == d
  {
    KindShows(c);
    KindShows(d);
    if c.BranchTo? { BranchStrings(c.node, d.node); }
    if c.Join? { JoinStringsDistinct(c.starts, c.end, d.starts, d.end); }
  }

  /** Joins of a graph that lead to one of its nodes. */
  ghost predicate Leads(g: Graph, j: (seq<Node>, Node)) { j in g.joins && j.1 in g.nodes }

  /** No two joins into one node have the same pieces. */
  ghost predicate PiecesDiffer(g: Graph) {
    forall i, j :: Leads(g, i) && Leads(g, j) && i.1 == j.1 && JoinPieces(i.0) == JoinPieces(j.0) ==> i == j
  }

  ghost predicate StringsDiffer(g: Graph) {
    forall c, d :: IsTrigger(g, c) && IsTrigger(g, d) && EdgeString(c) == EdgeString(d) ==> c == d
  }

  lemma NoColon(g: Graph, j: (seq<Node>, Node))
    requires Built(g) && j in g.joins
    ensures forall n <- j.0 :: Free(n, ':')
  {
    forall n <- j.0 ensures Free(n, ':') {
      assert WellSpelled(n);
      forall i | 0 <= i < |n| ensures n[i] != ':' { assert n[i] in n; }
    }
  }

  /** The edge channels of a built graph have strings of their own, each one exactly if no two
      joins into one node have the same pieces. */
  lemma EdgeStringsExactly(g: Graph)
    requires Built(g)
    ensures StringsDiffer(g) <==> PiecesDiffer(g)
  {
    if PiecesDiffer(g) {
      forall c, d | IsTrigger(g, c) && IsTrigger(g, d) && EdgeString(c) == EdgeString(d) ensures c == d {
        SameStrings(g, c, d);
      }
    }
    if StringsDiffer(g) {
      forall i, j | Leads(g, i) && Leads(g, j) && i.1 == j.1 && JoinPieces(i.0) == JoinPieces(j.0) ensures i == j {
        NoColon(g, i);
        NoColon(g, j);
        JoinStringsExactly(i.0, i.1, j.0, j.1);
        assert EdgeString(Join(i.0, i.1)) == EdgeString(Join(j.0, j.1));
        assert Join(i.0, i.1) == Join(j.0, j.1);
      }
    }
  }

  lemma SameStrings(g: Graph, c: ChannelName, d: ChannelName)
    requires Built(g) && PiecesDiffer(g)
    requires IsTrigger(g, c) && IsTrigger(g, d) && EdgeString(c) == EdgeString(d)
    ensures c == d
  {
    KindShows(c);
    KindShows(d);
    if c.BranchTo? { BranchStrings(c.node, d.node); }
    if c.Join? {
      var i, j := (c.starts, c.end), (d.starts, d.end);
      NoColon(g, i);
      NoColon(g, j);
      JoinStringsExactly(c.starts, c.end, d.starts, d.end);
      assert Leads(g, i) && Leads(g, j);
    }
  }
}
