/** The bounded in-memory frame source: a cache that forgets the frames unused for longest. */
module FrameCache {
  import opened Channels
  import opened Texts
  import opened Lists

  datatype VisionFrame = VisionFrame(data: seq<bv8>, mediaType: string)

  /** A frame under its reference; lists of entries are ordered by last use, oldest first. */
  type Entry = (string, VisionFrame)

  datatype Limits = Limits(frames: nat, bytes: nat)

  datatype Outcome = Done | BadRef | BadImage | TooBig | Unknown

  function Bytes(es: seq<Entry>): nat {
    if es == [] then 0 else |es[0].1.data| + Bytes(es[1..])
  }

  predicate Fits(l: Limits, es: seq<Entry>) { |es| <= l.frames && Bytes(es) <= l.bytes }

  predicate Has(es: seq<Entry>, ref: string) { exists e <- es :: e.0 == ref }

  predicate Distinct(es: seq<Entry>) { forall i, j :: 0 <= i < j < |es| ==> es[i].0 != es[j].0 }

  // ---------------------------------------------------------------- the simple model

  function Drop(es: seq<Entry>, ref: string): seq<Entry> {
    if es == [] then [] else (if es[0].0 == ref then [] else [es[0]]) + Drop(es[1..], ref)
  }

  /** Forgets from the front until the rest fits. */
  function Evict(l: Limits, es: seq<Entry>): seq<Entry> {
    if es == [] || Fits(l, es) then es else Evict(l, es[1..])
  }

  function PutIn(l: Limits, es: seq<Entry>, ref: string, f: VisionFrame): seq<Entry> {
    Evict(l, Drop(es, ref) + [(ref, f)])
  }

  function Find(es: seq<Entry>, ref: string): (r: Option<VisionFrame>)
    ensures r.Some? <==> Has(es, ref)
    ensures r.Some? ==> (ref, r.value) in es
  {
    if es == [] then None
    else if es[0].0 == ref then Some(es[0].1)
    else
      assert Has(es, ref) ==> Has(es[1..], ref);
      Find(es[1..], ref)
  }

  function Touch(es: seq<Entry>, ref: string): seq<Entry> {
    match Find(es, ref) case None => es case Some(f) => Drop(es, ref) + [(ref, f)]
  }

  /** The reference as it is looked up, if it is one: 1 to 128 characters, no control ones. */
  function ValidRef(imageRef: string): Option<string> {
    var ref := Strip(imageRef);
    if ref == "" || |ref| > 128 || (exists c <- ref :: c as int < 32) then None else Some(ref)
  }

  /** A reference is taken exactly if, stripped, it has 1 to 128 characters and none below a blank. */
  lemma ValidRefIs(imageRef: string, ref: string)
    ensures ValidRef(imageRef) == Some(ref) <==>
      Stripped(imageRef, ref) && 1 <= |ref| <= 128 && forall i :: 0 <= i < |ref| ==> ref[i] as int >= 32
  {
    StripIs(imageRef);
    if Stripped(imageRef, ref) { OneStrip(imageRef, ref, Strip(imageRef)); }
    var r := Strip(imageRef);
    forall i | 0 <= i < |r| ensures r[i] in r {}
    if c :| c in r && c as int < 32 {
      var i :| 0 <= i < |r| && r[i] == c;
    }
  }

  // ---------------------------------------------------------------- the class

  class MemoryVisionSource {
    const maxFrames: nat
    const maxTotalBytes: nat
    var frames: seq<Entry>
    var totalBytes: int

    constructor (maxFrames: nat, maxTotalBytes: nat)
      requires maxFrames >= 1 && maxTotalBytes >= 1
      ensures Valid() && frames == [] && Bounds() == Limits(maxFrames, maxTotalBytes)
    {
      this.maxFrames, this.maxTotalBytes, frames, totalBytes := maxFrames, maxTotalBytes, [], 0;
    }

    /** Refuses limits below one. */
    static method Create(maxFrames: int, maxTotalBytes: int) returns (r: Option<MemoryVisionSource>)
      ensures r.Some? <==> maxFrames >= 1 && maxTotalBytes >= 1
      ensures r.Some? ==>
        fresh(r.value) && r.value.Valid() && r.value.frames == [] &&
        r.value.Bounds() == Limits(maxFrames, maxTotalBytes)
    {
      if maxFrames < 1 || maxTotalBytes < 1 { return None; }
      var source := new MemoryVisionSource(maxFrames, maxTotalBytes);
      r := Some(source);
    }

    function Bounds(): Limits { Limits(maxFrames, maxTotalBytes) }

    /** The byte count is the sum, both limits hold, no reference stands twice. */
    ghost predicate Valid()
      reads this
    {
      maxFrames >= 1 && maxTotalBytes >= 1 && totalBytes == Bytes(frames) && Fits(Bounds(), frames) && Distinct(frames)
    }

    /** Takes a reference out of the ordered dictionary. */
    method Pop(ref: string) returns (f: Option<VisionFrame>)
      requires Distinct(frames)
      modifies this`frames
      ensures f == old(Find(frames, ref)) && frames == old(Drop(frames, ref))
    {
      var rest: seq<Entry> := [];
      f := None;
      for i := 0 to |frames|
        invariant frames == old(frames)
        invariant rest + Drop(frames[i..], ref) == Drop(frames, ref)
        invariant f == None ==> Find(frames[i..], ref) == Find(frames, ref)
        invariant f.Some? ==> f == Find(frames, ref) && !Has(frames[i..], ref)
      {
        assert frames[i..][0] == frames[i] && frames[i..][1..] == frames[i + 1..];
        if frames[i].0 == ref {
          NotLater(frames, i, ref);
          f := Some(frames[i].1);
        } else {
          Gather(rest, frames[i], Drop(frames[i + 1..], ref));
          rest := rest + [frames[i]];
        }
      }
      assert rest + [] == rest;
      frames := rest;
    }

    /** `normalized` is what decoding and scaling made of the picture, `None` if it was refused. */
    method PutFrame(imageRef: string, normalized: Option<VisionFrame>) returns (r: Outcome)
      requires Valid()
      modifies this
      ensures Valid()
      ensures r == if ValidRef(imageRef).None? then BadRef else if normalized.None? then BadImage
                   else if |normalized.value.data| > maxTotalBytes then TooBig else Done
      ensures frames == if r.Done? then old(PutIn(Bounds(), frames, ValidRef(imageRef).value, normalized.value))
        else old(frames)
    {
      var ref := ValidRef(imageRef);
      if ref.None? { return BadRef; }
      if normalized.None? { return BadImage; }
      var frame := normalized.value;
      if |frame.data| > maxTotalBytes { return TooBig; }
      ghost var before := frames;
      DropFacts(before, ref.value);
      var previous := Pop(ref.value);
      if previous.Some? { totalBytes := totalBytes - |previous.value.data|; }
      frames, totalBytes := frames + [(ref.value, frame)], totalBytes + |frame.data|;
      Appended(Drop(before, ref.value), (ref.value, frame));
      while |frames| > maxFrames || totalBytes > maxTotalBytes
        invariant Evict(Bounds(), frames) == PutIn(Bounds(), before, ref.value, frame)
        invariant totalBytes == Bytes(frames) && Distinct(frames)
        decreases |frames|
      {
        totalBytes := totalBytes - |frames[0].1.data|;
        frames := frames[1..];
      }
      r := Done;
    }

    method GetFrame(imageRef: string) returns (r: Outcome, frame: Option<VisionFrame>)
      requires Valid()
      modifies this
      ensures Valid()
      ensures ValidRef(imageRef).None? ==> r == BadRef && frame == None && frames == old(frames)
      ensures ValidRef(imageRef).Some? ==> frame == old(Find(frames, ValidRef(imageRef).value))
      ensures ValidRef(imageRef).Some? ==>
        r == (if frame.Some? then Done else Unknown) && frames == old(Touch(frames, ValidRef(imageRef).value))
      ensures ValidRef(imageRef).Some? ==> MovedToEnd(old(frames), ValidRef(imageRef).value, frames)
    {
      var ref := ValidRef(imageRef);
      if ref.None? { return BadRef, None; }
      ghost var before := frames;
      DropFacts(before, ref.value);
      TouchedIs(before, ref.value);
      frame := Pop(ref.value);
      if frame.None? { return Unknown, None; }
      frames := frames + [(ref.value, frame.value)];
      Appended(Drop(before, ref.value), (ref.value, frame.value));
      r := Done;
    }
  }

  lemma NotLater(es: seq<Entry>, i: nat, ref: string)
    requires Distinct(es) && i < |es| && es[i].0 == ref
    ensures !Has(es[i + 1..], ref)
  {
    forall e <- es[i + 1..] ensures e.0 != ref {
      var j :| 0 <= j < |es[i + 1..]| && es[i + 1..][j] == e;
      assert es[i + 1 + j] == e;
    }
  }

  lemma {:induction false} DropMembers(es: seq<Entry>, ref: string)
    ensures forall e <- Drop(es, ref) :: e in es && e.0 != ref
    ensures !Has(es, ref) ==> Drop(es, ref) == es
  {
    if es != [] {
      DropMembers(es[1..], ref);
      assert !Has(es, ref) ==> es[0].0 != ref && !Has(es[1..], ref);
      assert es == [es[0]] + es[1..];
    }
  }

  lemma {:induction false} DropDistinct(es: seq<Entry>, ref: string)
    requires Distinct(es)
    ensures Distinct(Drop(es, ref))
  {
    if es != [] {
      DropDistinct(es[1..], ref);
      DropMembers(es[1..], ref);
      assert forall e <- es[1..] :: e.0 != es[0].0;
      if es[0].0 != ref { Prepended(es[0], Drop(es[1..], ref)); }
    }
  }

  lemma Prepended(e: Entry, es: seq<Entry>)
    requires Distinct(es) && !Has(es, e.0)
    ensures Distinct([e] + es)
  {
  }

  lemma {:induction false} DropCounts(es: seq<Entry>, ref: string)
    requires Distinct(es)
    ensures Bytes(es) == Bytes(Drop(es, ref)) + match Find(es, ref) case None => 0 case Some(f) => |f.data|
    ensures |es| == |Drop(es, ref)| + match Find(es, ref) case None => 0 case Some(f) => 1
  {
    if es != [] {
      var rest := es[1..];
      assert forall e <- rest :: e.0 != es[0].0;
      if es[0].0 == ref {
        assert !Has(rest, ref);
        DropMembers(rest, ref);
        assert Drop(es, ref) == [] + Drop(rest, ref) == rest;
      } else {
        DropCounts(rest, ref);
        assert ([es[0]] + Drop(rest, ref))[1..] == Drop(rest, ref);
      }
    }
  }

  lemma DropFacts(es: seq<Entry>, ref: string)
    requires Distinct(es)
    ensures Distinct(Drop(es, ref)) && !Has(Drop(es, ref), ref)
    ensures forall e <- Drop(es, ref) :: e in es
    ensures Find(es, ref).None? ==> Drop(es, ref) == es
    ensures Bytes(es) == Bytes(Drop(es, ref)) + match Find(es, ref) case None => 0 case Some(f) => |f.data|
    ensures |es| == |Drop(es, ref)| + match Find(es, ref) case None => 0 case Some(f) => 1
  {
    DropMembers(es, ref);
    DropDistinct(es, ref);
    DropCounts(es, ref);
  }

  lemma Appended(es: seq<Entry>, e: Entry)
    requires Distinct(es) && !Has(es, e.0)
    ensures Distinct(es + [e]) && Bytes(es + [e]) == Bytes(es) + |e.1.data|
  {
    BytesConcat(es, [e]);
    assert [e][1..] == [];
  }

  lemma {:induction false} BytesConcat(a: seq<Entry>, b: seq<Entry>)
    ensures Bytes(a + b) == Bytes(a) + Bytes(b)
  {
    if a == [] {
      assert a + b == b;
    } else {
      assert (a + b)[0] == a[0] && (a + b)[1..] == a[1..] + b;
      BytesConcat(a[1..], b);
    }
  }

  // ---------------------------------------------------------------- what eviction keeps

  /** The longest run of recently used frames that fits. */
  ghost predicate LongestRecent(l: Limits, es: seq<Entry>, kept: seq<Entry>) {
    && |kept| <= |es| && kept == es[|es| - |kept|..] && Fits(l, kept)
    && forall i :: 0 <= i < |es| - |kept| ==> !Fits(l, es[i..])
  }

  lemma {:induction false} EvictKeepsLongest(l: Limits, es: seq<Entry>)
    ensures LongestRecent(l, es, Evict(l, es))
  {
    if es == [] || Fits(l, es) {
      assert es[0..] == es;
    } else {
      EvictKeepsLongest(l, es[1..]);
      var kept := Evict(l, es[1..]);
      forall i | 0 <= i < |es| - |kept| ensures !Fits(l, es[i..]) {
        if i > 0 { assert es[i..] == es[1..][i - 1..]; } else { assert es[0..] == es; }
      }
      assert es[1..][|es| - 1 - |kept|..] == es[|es| - |kept|..];
    }
  }

  lemma OneFits(l: Limits, x: Entry)
    requires l.frames >= 1 && |x.1.data| <= l.bytes
    ensures Fits(l, [x])
  {
    assert [x][1..] == [];
  }

  /** What is kept is not empty when the last frame alone fits. */
  lemma KeepsLast(l: Limits, es: seq<Entry>, x: Entry, kept: seq<Entry>)
    requires Fits(l, [x]) && LongestRecent(l, es + [x], kept)
    ensures kept != [] && kept[|kept| - 1] == x
  {
    var all := es + [x];
    assert all[|es|..] == [x];
    if kept != [] { assert kept[|kept| - 1] == all[|all| - 1]; }
  }

  /** A put never evicts its own frame, and keeps the longest run that fits. */
  lemma PutKeepsOwn(l: Limits, es: seq<Entry>, ref: string, f: VisionFrame)
    requires l.frames >= 1 && |f.data| <= l.bytes
    ensures var kept := PutIn(l, es, ref, f);
      && kept != [] && kept[|kept| - 1] == (ref, f)
      && LongestRecent(l, Drop(es, ref) + [(ref, f)], kept)
  {
    OneFits(l, (ref, f));
    EvictKeepsLongest(l, Drop(es, ref) + [(ref, f)]);
    KeepsLast(l, Drop(es, ref), (ref, f), PutIn(l, es, ref, f));
  }

  // ---------------------------------------------------------------- every sequence of calls

  datatype Call = Put(ref: string, frame: VisionFrame) | Get(ref: string)

  function Cache(l: Limits, calls: seq<Call>): seq<Entry> {
    if calls == [] then []
    else
      var es := Cache(l, calls[..|calls| - 1]);
      match calls[|calls| - 1]
      case Put(ref, f) => if |f.data| > l.bytes then es else PutIn(l, es, ref, f)
      case Get(ref) => Touch(es, ref)
  }

  /** A cache without limits, in which only what the limited one has can be used. */
  function Everything(l: Limits, calls: seq<Call>): seq<Entry> {
    if calls == [] then []
    else
      var all := Everything(l, calls[..|calls| - 1]);
      match calls[|calls| - 1]
      case Put(ref, f) => if |f.data| > l.bytes then all else Drop(all, ref) + [(ref, f)]
      case Get(ref) => if Has(Cache(l, calls[..|calls| - 1]), ref) then Touch(all, ref) else all
  }

  /** The cache is the recently used end of everything. */
  ghost predicate Recent(l: Limits, all: seq<Entry>, es: seq<Entry>, gone: seq<Entry>) {
    all == gone + es && Distinct(all) && Fits(l, es)
  }

  lemma {:induction false} DropConcat(a: seq<Entry>, b: seq<Entry>, ref: string)
    ensures Drop(a + b, ref) == Drop(a, ref) + Drop(b, ref)
  {
    if a == [] {
      assert a + b == b;
    } else {
      assert (a + b)[0] == a[0] && (a + b)[1..] == a[1..] + b;
      DropConcat(a[1..], b, ref);
    }
  }

  /** In a list without repetition a reference is in one part only. */
  lemma OnePart(gone: seq<Entry>, es: seq<Entry>, ref: string)
    requires Distinct(gone + es)
    ensures Distinct(gone) && Distinct(es) && (Has(es, ref) ==>
      !Has(gone, ref) && Find(gone + es, ref) == Find(es, ref))
  {
    var all := gone + es;
    assert forall i :: 0 <= i < |gone| ==> gone[i] == all[i];
    assert forall i :: 0 <= i < |es| ==> es[i] == all[|gone| + i];
    if Has(es, ref) {
      var e :| e in es && e.0 == ref;
      var j :| 0 <= j < |es| && es[j] == e;
      assert all[|gone| + j].0 == ref;
      FindOnly(all, ref, |gone| + j);
      FindOnly(es, ref, j);
      forall x <- gone ensures x.0 != ref {
        var i :| 0 <= i < |gone| && gone[i] == x;
        assert all[i] == x;
      }
    }
  }

  lemma {:induction false} FindOnly(es: seq<Entry>, ref: string, j: nat)
    requires Distinct(es) && j < |es| && es[j].0 == ref
    ensures Find(es, ref) == Some(es[j].1)
  {
    if j > 0 { FindOnly(es[1..], ref, j - 1); }
  }

  lemma DistinctAppended(all: seq<Entry>, ref: string, f: VisionFrame)
    requires Distinct(all)
    ensures Distinct(Drop(all, ref) + [(ref, f)])
  {
    DropFacts(all, ref);
    Appended(Drop(all, ref), (ref, f));
  }

  /** Moving a frame to the end keeps the count and the bytes. */
  lemma TouchKeeps(es: seq<Entry>, ref: string)
    requires Distinct(es) && Has(es, ref)
    ensures |Touch(es, ref)| == |es| && Bytes(Touch(es, ref)) == Bytes(es)
  {
    DropFacts(es, ref);
    Appended(Drop(es, ref), (ref, Find(es, ref).value));
  }

  /** Frames that did not fit in front of the kept ones do not matter. */
  lemma {:induction false} EvictFront(l: Limits, gone: seq<Entry>, es: seq<Entry>)
    requires gone != [] ==> !Fits(l, [gone[|gone| - 1]] + es)
    ensures Evict(l, gone + es) == Evict(l, es)
  {
    if gone == [] {
      assert gone + es == es;
    } else {
      var last := gone[|gone| - 1];
      assert gone + es == gone[..|gone| - 1] + ([last] + es);
      BytesConcat(gone[..|gone| - 1], [last] + es);
      assert (gone + es)[1..] == gone[1..] + es;
      EvictFront(l, gone[1..], es);
    }
  }

  ghost predicate Tight(l: Limits, gone: seq<Entry>, es: seq<Entry>) {
    gone != [] ==> !Fits(l, [gone[|gone| - 1]] + es)
  }

  /** A front that was too much stays too much when the list behind it does not get smaller. */
  lemma StaysTight(l: Limits, y: Entry, es: seq<Entry>, more: seq<Entry>)
    requires !Fits(l, [y] + es) && |more| >= |es| && Bytes(more) >= Bytes(es)
    ensures !Fits(l, [y] + more)
  {
    BytesConcat([y], es);
    BytesConcat([y], more);
  }

  predicate Elsewhere(e: Entry, ref: string) { e.0 != ref }

  /** The frames under other references, in their order. */
  ghost predicate OthersAre(es: seq<Entry>, ref: string, others: seq<Entry>) {
    Picked(es, (e: Entry) => Elsewhere(e, ref), Itself, others)
  }

  lemma OneMoreOther(es: seq<Entry>, ref: string, others: seq<Entry>, e: Entry)
    requires OthersAre(es, ref, others)
    ensures OthersAre(es + [e], ref, others + if e.0 == ref then [] else [e])
  {
    PickedMore(es, (x: Entry) => Elsewhere(x, ref), Itself, others, e);
    assert others + [] == others;
  }

  lemma {:induction false} DropPicked(es: seq<Entry>, ref: string)
    ensures OthersAre(es, ref, Drop(es, ref))
  {
    if es == [] {
      PickedNone((e: Entry) => Elsewhere(e, ref), Itself);
    } else {
      var before, e := es[..|es| - 1], es[|es| - 1];
      DropPicked(before, ref);
      OneMoreOther(before, ref, Drop(before, ref), e);
      DropOneMore(before, e, ref);
      LastOff(es);
    }
  }

  lemma DropOneMore(es: seq<Entry>, e: Entry, ref: string)
    ensures Drop(es + [e], ref) == Drop(es, ref) + if e.0 == ref then [] else [e]
  {
    DropConcat(es, [e], ref);
    assert [e][1..] == [] && [e] + [] == [e];
  }

  /** The frame that was got is the last of the list, and all others stay in their order. */
  ghost predicate MovedToEnd(es: seq<Entry>, ref: string, now: seq<Entry>) {
    if exists e <- es :: e.0 == ref
    then now != [] && now[|now| - 1] in es && now[|now| - 1].0 == ref &&
         OthersAre(es, ref, now[..|now| - 1])
    else now == es
  }

  lemma TouchedIs(es: seq<Entry>, ref: string)
    ensures MovedToEnd(es, ref, Touch(es, ref))
  {
    DropPicked(es, ref);
    if Has(es, ref) {
      var now := Touch(es, ref);
      assert now[..|now| - 1] == Drop(es, ref);
    }
  }

  lemma {:induction false} DropLast(gone: seq<Entry>, ref: string)
    requires Distinct(gone) && Drop(gone, ref) != []
    ensures gone != []
    ensures gone[|gone| - 1].0 != ref ==> Drop(gone, ref)[|Drop(gone, ref)| - 1] == gone[|gone| - 1]
    ensures gone[|gone| - 1].0 == ref ==> Find(gone, ref) == Some(gone[|gone| - 1].1)
  {
    var n := |gone| - 1;
    assert gone == gone[..n] + [gone[n]];
    DropConcat(gone[..n], [gone[n]], ref);
    assert [gone[n]][1..] == [];
    if gone[n].0 == ref { FindOnly(gone, ref, n); }
  }

  lemma HeldCounts(es: seq<Entry>, ref: string, f: VisionFrame)
    requires Distinct(es)
    ensures var held := Drop(es, ref) + [(ref, f)];
      match Find(es, ref)
      case None => |held| == |es| + 1 && Bytes(held) == Bytes(es) + |f.data|
      case Some(g) => |held| == |es| && Bytes(held) + |g.data| == Bytes(es) + |f.data|
  {
    DropFacts(es, ref);
    Appended(Drop(es, ref), (ref, f));
  }

  /** The newest forgotten frame is not the one that is put. */
  lemma OtherStaysTight(l: Limits, gone: seq<Entry>, es: seq<Entry>, ref: string, f: VisionFrame)
    requires Distinct(gone + es) && Tight(l, gone, es) && gone != [] && gone[|gone| - 1].0 != ref
    requires match Find(gone + es, ref) case None => true case Some(g) => |f.data| >= |g.data|
    ensures !Fits(l, [gone[|gone| - 1]] + (Drop(es, ref) + [(ref, f)]))
  {
    OnePart(gone, es, ref);
    HeldCounts(es, ref, f);
    StaysTight(l, gone[|gone| - 1], es, Drop(es, ref) + [(ref, f)]);
  }

  /** The newest forgotten frame is put again: with it behind the others nothing has shrunk. */
  lemma OwnStaysTight(l: Limits, gone: seq<Entry>, es: seq<Entry>, ref: string, f: VisionFrame, z: Entry)
    requires Distinct(gone + es) && Tight(l, gone, es) && gone != [] && gone[|gone| - 1].0 == ref
    requires |f.data| >= |gone[|gone| - 1].1.data|
    ensures !Fits(l, [z] + (Drop(es, ref) + [(ref, f)]))
  {
    var y, held := gone[|gone| - 1], Drop(es, ref) + [(ref, f)];
    OnePart(gone, es, ref);
    assert y in gone;
    HeldCounts(es, ref, f);
    BytesConcat([y], es);
    BytesConcat([z], held);
    assert [y][1..] == [];
  }

  lemma PutStaysTight(l: Limits, gone: seq<Entry>, es: seq<Entry>, ref: string, f: VisionFrame)
    requires Distinct(gone + es) && Tight(l, gone, es)
    requires match Find(gone + es, ref) case None => true case Some(g) => |f.data| >= |g.data|
    ensures Tight(l, Drop(gone, ref), Drop(es, ref) + [(ref, f)])
  {
    OnePart(gone, es, ref);
    if Drop(gone, ref) != [] {
      DropLast(gone, ref);
      if gone[|gone| - 1].0 != ref {
        OtherStaysTight(l, gone, es, ref, f);
      } else {
        FindOnly(gone + es, ref, |gone| - 1);
        OwnStaysTight(l, gone, es, ref, f, Drop(gone, ref)[|Drop(gone, ref)| - 1]);
      }
    }
  }

  /** No put gives a reference a smaller frame than the last one it had. */
  ghost predicate NeverShrinks(l: Limits, calls: seq<Call>) {
    forall i :: 0 <= i < |calls| && calls[i].Put? ==> Grows(Everything(l, calls[..i]), calls[i])
  }

  predicate Grows(all: seq<Entry>, c: Call)
    requires c.Put?
  {
    match Find(all, c.ref) case None => true case Some(g) => |c.frame.data| >= |g.data|
  }

  /** After any calls the cache is within its limits and is the recently used end of all that
      was ever put. If no reference got a smaller frame it is the longest such end that fits. */
  lemma {:induction false} CacheIsRecent(l: Limits, calls: seq<Call>) returns (gone: seq<Entry>)
    requires l.frames >= 1
    ensures Recent(l, Everything(l, calls), Cache(l, calls), gone)
    ensures NeverShrinks(l, calls) ==> Tight(l, gone, Cache(l, calls))
  {
    gone := [];
    if calls != [] {
      var n := |calls| - 1;
      var before, call := calls[..n], calls[n];
      var all, es := Everything(l, before), Cache(l, before);
      gone := CacheIsRecent(l, before);
      assert forall i :: 0 <= i < n ==> before[..i] == calls[..i];
      assert NeverShrinks(l, calls) ==> NeverShrinks(l, before) && (call.Put? ==> Grows(all, call));
      match call {
        case Put(ref, f) => if |f.data| <= l.bytes { gone := PutRecent(l, gone, es, ref, f, NeverShrinks(l, calls)); }
        case Get(ref) => if Has(es, ref) { GetRecent(l, gone, es, ref, NeverShrinks(l, calls)); }
      }
    }
  }

  /** What eviction takes from the front, and that the last of it did not fit. */
  lemma EvictedFront(l: Limits, es: seq<Entry>) returns (cut: seq<Entry>)
    ensures es == cut + Evict(l, es) && Fits(l, Evict(l, es)) && Tight(l, cut, Evict(l, es))
    ensures cut == [] ==> Evict(l, es) == es
  {
    EvictKeepsLongest(l, es);
    var kept := Evict(l, es);
    var k := |es| - |kept|;
    cut := es[..k];
    SplitAt(es, k);
    if k > 0 { Around(es, k - 1); assert es[k - 1..] == [es[k - 1]] + kept; }
  }

  lemma TightBehind(l: Limits, front: seq<Entry>, cut: seq<Entry>, kept: seq<Entry>)
    requires Tight(l, cut, kept) && (cut == [] ==> Tight(l, front, kept))
    ensures Tight(l, front + cut, kept)
  {
    if cut == [] { assert front + cut == front; }
  }

  lemma PutRecent(l: Limits, gone: seq<Entry>, es: seq<Entry>, ref: string, f: VisionFrame, tight: bool)
    returns (gone': seq<Entry>)
    requires Distinct(gone + es) && Fits(l, es)
    requires tight ==> Tight(l, gone, es) && Grows(gone + es, Put(ref, f))
    ensures Recent(l, Drop(gone + es, ref) + [(ref, f)], PutIn(l, es, ref, f), gone')
    ensures tight ==> Tight(l, gone', PutIn(l, es, ref, f))
  {
    var front, more := Drop(gone, ref), Drop(es, ref) + [(ref, f)];
    DistinctAppended(gone + es, ref, f);
    var cut := EvictedFront(l, more);
    gone' := front + cut;
    PutParts(gone, es, ref, (ref, f), cut, Evict(l, more));
    if tight {
      PutStaysTight(l, gone, es, ref, f);
      TightBehind(l, front, cut, Evict(l, more));
    }
  }

  lemma PutParts(gone: seq<Entry>, es: seq<Entry>, ref: string, x: Entry, cut: seq<Entry>, kept: seq<Entry>)
    requires Drop(es, ref) + [x] == cut + kept
    ensures Drop(gone + es, ref) + [x] == (Drop(gone, ref) + cut) + kept
  {
    DropConcat(gone, es, ref);
    Assoc(Drop(gone, ref), Drop(es, ref), [x]);
    Assoc(Drop(gone, ref), cut, kept);
  }

  lemma GetRecent(l: Limits, gone: seq<Entry>, es: seq<Entry>, ref: string, tight: bool)
    requires Distinct(gone + es) && Fits(l, es) && Has(es, ref)
    requires tight ==> Tight(l, gone, es)
    ensures Recent(l, Touch(gone + es, ref), Touch(es, ref), gone)
    ensures tight ==> Tight(l, gone, Touch(es, ref))
  {
    TouchBehind(gone, es, ref);
    TouchKeeps(es, ref);
    DistinctAppended(gone + es, ref, Find(es, ref).value);
    if tight && gone != [] { StaysTight(l, gone[|gone| - 1], es, Touch(es, ref)); }
  }

  lemma TouchBehind(gone: seq<Entry>, es: seq<Entry>, ref: string)
    requires Distinct(gone + es) && Has(es, ref)
    ensures Distinct(es) && Find(gone + es, ref) == Find(es, ref) && Touch(gone + es, ref) == gone + Touch(es, ref)
  {
    OnePart(gone, es, ref);
    DropConcat(gone, es, ref);
    DropMembers(gone, ref);
    var x := (ref, Find(es, ref).value);
    assert (gone + Drop(es, ref)) + [x] == gone + (Drop(es, ref) + [x]);
  }

  // ---------------------------------------------------------------- the longest end, exactly

  /** Nothing more fits exactly if the newest forgotten frame does not. */
  lemma TightIsLongest(l: Limits, gone: seq<Entry>, es: seq<Entry>)
    requires Fits(l, es)
    ensures LongestRecent(l, gone + es, es) <==> Tight(l, gone, es)
  {
    var all := gone + es;
    assert all[|gone|..] == es;
    if Tight(l, gone, es) {
      EvictFront(l, gone, es);
      EvictKeepsLongest(l, all);
    }
    if gone != [] { assert all[|gone| - 1..] == [gone[|gone| - 1]] + es; }
  }

  /** The frames that a put leaves before it evicts, and those forgotten until then. */
  function Held(es: seq<Entry>, ref: string, f: VisionFrame): seq<Entry> { Drop(es, ref) + [(ref, f)] }

  /** What the put leaves is over the limits, or would be with the newest forgotten frame. */
  predicate NoRoomLeft(l: Limits, gone: seq<Entry>, es: seq<Entry>, ref: string, f: VisionFrame) {
    var front, held := Drop(gone, ref), Held(es, ref, f);
    !Fits(l, held) || front == [] || !Fits(l, [front[|front| - 1]] + held)
  }

  /** After a put the cache is the longest end of everything exactly if the put leaves no room
      for the newest forgotten frame. */
  lemma PutLongestExactly(l: Limits, gone: seq<Entry>, es: seq<Entry>, ref: string, f: VisionFrame)
    ensures LongestRecent(l, Drop(gone + es, ref) + [(ref, f)], PutIn(l, es, ref, f)) <==>
      NoRoomLeft(l, gone, es, ref, f)
  {
    var front, held := Drop(gone, ref), Held(es, ref, f);
    DropConcat(gone, es, ref);
    Assoc(front, Drop(es, ref), [(ref, f)]);
    if Fits(l, held) {
      TightIsLongest(l, front, held);
    } else {
      OverfullKeepsLongest(l, front, held);
    }
  }

  /** When something of the list itself had to go, nothing in front of it can stay. */
  lemma OverfullKeepsLongest(l: Limits, front: seq<Entry>, held: seq<Entry>)
    requires !Fits(l, held)
    ensures LongestRecent(l, front + held, Evict(l, held))
  {
    if front != [] {
      BytesConcat([front[|front| - 1]], held);
      assert Tight(l, front, held);
    }
    EvictFront(l, front, held);
    EvictKeepsLongest(l, front + held);
  }

  lemma TouchLongest(l: Limits, gone: seq<Entry>, es: seq<Entry>, ref: string)
    requires Distinct(gone + es) && Fits(l, es) && Has(es, ref)
    ensures LongestRecent(l, Touch(gone + es, ref), Touch(es, ref)) <==> LongestRecent(l, gone + es, es)
  {
    TouchBehind(gone, es, ref);
    TouchKeeps(es, ref);
    TightIsLongest(l, gone, es);
    TightIsLongest(l, gone, Touch(es, ref));
    SameTight(l, gone, es, Touch(es, ref));
  }

  /** Only the number and the bytes of the kept frames matter. */
  lemma SameTight(l: Limits, gone: seq<Entry>, a: seq<Entry>, b: seq<Entry>)
    requires |a| == |b| && Bytes(a) == Bytes(b)
    ensures Tight(l, gone, a) <==> Tight(l, gone, b)
  {
    if gone != [] {
      BytesConcat([gone[|gone| - 1]], a);
      BytesConcat([gone[|gone| - 1]], b);
    }
  }

  /** The frames that the limits have cost. */
  function Forgotten(l: Limits, calls: seq<Call>): seq<Entry> {
    var all, es := Everything(l, calls), Cache(l, calls);
    if |es| <= |all| then all[..|all| - |es|] else []
  }

  /** The last put that was not refused for its size left no room. */
  predicate LastPutLeftNoRoom(l: Limits, calls: seq<Call>) {
    if calls == [] then true
    else
      var before, call := calls[..|calls| - 1], calls[|calls| - 1];
      if call.Put? && |call.frame.data| <= l.bytes then
        NoRoomLeft(l, Forgotten(l, before), Cache(l, before), call.ref, call.frame)
      else LastPutLeftNoRoom(l, before)
  }

  lemma ForgottenIs(l: Limits, calls: seq<Call>)
    requires l.frames >= 1
    ensures Recent(l, Everything(l, calls), Cache(l, calls), Forgotten(l, calls))
  {
    var gone := CacheIsRecent(l, calls);
    assert (gone + Cache(l, calls))[..|gone|] == gone;
  }

  /** After any calls the cache is the longest recently used end of all that was put that fits,
      exactly if the last put left no room for the newest frame forgotten until then. */
  lemma {:induction false} CacheIsLongestExactly(l: Limits, calls: seq<Call>)
    requires l.frames >= 1
    ensures LongestRecent(l, Everything(l, calls), Cache(l, calls)) <==> LastPutLeftNoRoom(l, calls)
  {
    if calls != [] {
      var n := |calls| - 1;
      var before := calls[..n];
      var es, gone := Cache(l, before), Forgotten(l, before);
      CacheIsLongestExactly(l, before);
      ForgottenIs(l, before);
      match calls[n] {
        case Put(ref, f) => if |f.data| <= l.bytes { PutLongestExactly(l, gone, es, ref, f); }
        case Get(ref) => if Has(es, ref) { TouchLongest(l, gone, es, ref); }
      }
    }
  }

  /** It suffices that no put gives a reference a smaller frame. */
  lemma CacheIsLongest(l: Limits, calls: seq<Call>)
    requires l.frames >= 1 && NeverShrinks(l, calls)
    ensures LongestRecent(l, Everything(l, calls), Cache(l, calls))
  {
    var gone := CacheIsRecent(l, calls);
    TightIsLongest(l, gone, Cache(l, calls));
  }

  /** A smaller frame leaves room that the forgotten ones do not come back to fill. */
  lemma ShrinkingLeavesRoom(a: string, b: string, big: VisionFrame, small: VisionFrame)
    requires a != b && |big.data| == 3 && |small.data| == 1
    ensures var l, calls := Limits(2, 3), [Put(a, small), Put(b, big), Put(b, small)];
      && Cache(l, calls) == [(b, small)] && !LongestRecent(l, Everything(l, calls), Cache(l, calls))
      && !LastPutLeftNoRoom(l, calls)
  {
    var l, none: seq<Call> := Limits(2, 3), [];
    var x, y, z := (a, small), (b, big), (b, small);
    var one, two := none + [Put(a, small)], none + [Put(a, small)] + [Put(b, big)];
    OnePut(l, none, a, small);
    OnePut(l, one, b, big);
    OnePut(l, two, b, small);
    assert two + [Put(b, small)] == [Put(a, small), Put(b, big), Put(b, small)];
    OnlyOne(x);
    OnlyOne(y);
    OnlyOne(z);
    assert [] + [x] == [x] && [] + [z] == [z];
    assert Cache(l, one) == [x] == Everything(l, one);
    assert Drop([x], b) == [x] && [x, y][1..] == [y] && [x] + [y] == [x, y];
    BytesConcat([x], [y]);
    assert Evict(l, [x, y]) == [y];
    assert Cache(l, two) == [y] && Everything(l, two) == [x, y];
    DropConcat([x], [y], b);
    assert Drop([x, y], b) == [x] && [x] + [z] == [x, z];
    BytesConcat([x], [z]);
    assert [x, z][0..] == [x, z];
    CacheIsLongestExactly(l, two + [Put(b, small)]);
  }

  lemma OnePut(l: Limits, calls: seq<Call>, ref: string, f: VisionFrame)
    requires |f.data| <= l.bytes
    ensures Cache(l, calls + [Put(ref, f)]) == PutIn(l, Cache(l, calls), ref, f)
    ensures Everything(l, calls + [Put(ref, f)]) == Drop(Everything(l, calls), ref) + [(ref, f)]
  {
    assert (calls + [Put(ref, f)])[..|calls|] == calls;
  }

  lemma OnlyOne(x: Entry)
    ensures Bytes([x]) == |x.1.data| && forall ref :: Drop([x], ref) == if x.0 == ref then [] else [x]
  {
    assert [x][1..] == [];
  }
}
