/** What a batch of writes leaves in a channel, told from the writes alone. */
module ChannelValues {
  import opened Channels
  import opened Lists

  /** A list stands for its items, anything else for itself. */
  ghost predicate Piece(v: Value, items: seq<Value>) {
    (v.List? ==> items == v.items) && (!v.List? ==> items == [v])
  }

  ghost predicate Pieces(batch: seq<Value>, parts: seq<seq<Value>>) {
    |parts| == |batch| && forall i :: 0 <= i < |batch| ==> Piece(batch[i], parts[i])
  }

  /** The pieces of a batch, one behind the other. */
  ghost predicate Spread(batch: seq<Value>, items: seq<Value>) {
    exists parts :: Pieces(batch, parts) && Joins(parts, items)
  }

  lemma NoneSpread()
    ensures Spread([], [])
  {
    NoneJoins<Value>();
    assert Pieces([], []);
  }

  lemma SpreadMore(batch: seq<Value>, items: seq<Value>, v: Value, piece: seq<Value>)
    requires Spread(batch, items) && Piece(v, piece)
    ensures Spread(batch + [v], items + piece)
  {
    var parts :| Pieces(batch, parts) && Joins(parts, items);
    JoinsMore(parts, items, piece);
    assert Pieces(batch + [v], parts + [piece]);
  }

  /** A batch spreads in one way. */
  lemma OneSpread(batch: seq<Value>, x: seq<Value>, y: seq<Value>)
    requires Spread(batch, x) && Spread(batch, y)
    ensures x == y
  {
    var a :| Pieces(batch, a) && Joins(a, x);
    var b :| Pieces(batch, b) && Joins(b, y);
    assert a == b by {
      forall i | 0 <= i < |batch| ensures a[i] == b[i] { assert Piece(batch[i], a[i]) && Piece(batch[i], b[i]); }
    }
    OneJoin(a, x, y);
  }

  lemma {:induction false} FlattenLast(values: seq<Value>, last: Value)
    ensures Flatten(values + [last]) == Flatten(values) + (if last.List? then last.items else [last])
  {
    if values == [] {
      assert [] + [last] == [last] && [last][1..] == [];
    } else {
      var head := if values[0].List? then values[0].items else [values[0]];
      var tail := if last.List? then last.items else [last];
      assert (values + [last])[0] == values[0] && (values + [last])[1..] == values[1..] + [last];
      FlattenLast(values[1..], last);
      Assoc(head, Flatten(values[1..]), tail);
    }
  }

  lemma {:induction false} FlattenSpreads(batch: seq<Value>)
    ensures Spread(batch, Flatten(batch))
  {
    if batch == [] {
      NoneSpread();
    } else {
      var n := |batch| - 1;
      FlattenSpreads(batch[..n]);
      var piece := if batch[n].List? then batch[n].items else [batch[n]];
      SpreadMore(batch[..n], Flatten(batch[..n]), batch[n], piece);
      FlattenLast(batch[..n], batch[n]);
      LastOff(batch);
    }
  }
}
