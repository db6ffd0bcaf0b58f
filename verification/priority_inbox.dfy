/** The inbox of the driver: the highest priority first, and among equals the earliest. */
module PriorityInboxes {
  import opened Channels
  import Lists

  datatype Event = Event(kind: string, payload: map<string, string>, priority: int)

  /** `order` is the number of events that were put before. */
  datatype Item = Item(order: nat, event: Event)

  predicate Before(a: Item, b: Item) {
    a.event.priority > b.event.priority || (a.event.priority == b.event.priority && a.order < b.order)
  }

  function BestAt(q: seq<Item>): (i: nat)
    requires q != []
    ensures i < |q| && forall j :: 0 <= j < |q| ==> !Before(q[j], q[i])
  {
    var n := |q| - 1;
    if n == 0 then 0
    else
      var i := BestAt(q[..n]);
      assert forall j :: 0 <= j < n ==> q[j] == q[..n][j];
      if Before(q[n], q[i]) then n else i
  }

  function Without(q: seq<Item>, i: nat): (r: seq<Item>)
    requires i < |q|
    ensures |r| == |q| - 1
  {
    q[..i] + q[i + 1..]
  }

  class PriorityInbox {
    var items: seq<Item>
    var next: nat

    constructor ()
      ensures items == [] && next == 0
    {
      items, next := [], 0;
    }

    method Put(event: Event)
      modifies this
      ensures items == old(items) + [Item(old(next), event)] && next == old(next) + 1
    {
      items, next := items + [Item(next, event)], next + 1;
    }

    /** `None` when the wait is over with nothing there. */
    method Get() returns (r: Option<Item>)
      modifies this`items
      ensures old(items) == [] ==> r == None && items == []
      ensures old(items) != [] ==> r == Some(old(items[BestAt(items)])) && items == old(Without(items, BestAt(items)))
      ensures old(items) != [] ==> exists i :: (
        && 0 <= i < |old(items)| && r == Some(old(items)[i]) && items == old(items)[..i] + old(items)[i + 1..]
        && forall x <- old(items) :: x.event.priority < r.value.event.priority ||
             (x.event.priority == r.value.event.priority && x.order >= r.value.order))
    {
      if |items| == 0 { return None; }
      var best := 0;
      for i := 1 to |items|
        invariant items == old(items)
        invariant best < i && best == BestAt(items[..i])
      {
        assert items[..i + 1][..i] == items[..i];
        if Before(items[i], items[best]) { best := i; }
      }
      assert items[..|items|] == items;
      r := Some(items[best]);
      items := items[..best] + items[best + 1..];
    }
  }

  /** A sensor's observations go into the inbox in their order, those that are wanted. */
  method PumpSensor(observations: seq<Event>, inbox: PriorityInbox, wanted: Event -> bool) returns (count: nat)
    modifies inbox
    ensures inbox.items == old(inbox.items) + Numbered(Chosen(observations, wanted), old(inbox.next))
    ensures count == |Chosen(observations, wanted)| && inbox.next == old(inbox.next) + count
    ensures exists chosen ::
      Lists.Picked(observations, wanted, Lists.Itself, chosen) &&
        inbox.items == old(inbox.items + Numbered(chosen, inbox.next))
  {
    count := 0;
    assert inbox.items + [] == inbox.items;
    for i := 0 to |observations|
      invariant inbox.items == old(inbox.items) + Numbered(Chosen(observations[..i], wanted), old(inbox.next))
      invariant count == |Chosen(observations[..i], wanted)| && inbox.next == old(inbox.next) + count
    {
      assert observations[..i + 1][..i] == observations[..i];
      if wanted(observations[i]) {
        NumberedMore(Chosen(observations[..i], wanted), observations[i], old(inbox.next));
        inbox.Put(observations[i]);
        count := count + 1;
      }
    }
    assert observations[..|observations|] == observations;
    ChosenPicked(observations, wanted);
  }

  lemma {:induction false} ChosenPicked(es: seq<Event>, wanted: Event -> bool)
    ensures Lists.Picked(es, wanted, Lists.Itself, Chosen(es, wanted))
  {
    if es == [] {
      Lists.PickedNone(wanted, Lists.Itself);
    } else {
      var before, e := es[..|es| - 1], es[|es| - 1];
      ChosenPicked(before, wanted);
      Lists.PickedMore(before, wanted, Lists.Itself, Chosen(before, wanted), e);
      assert Chosen(before, wanted) + [] == Chosen(before, wanted);
      Lists.LastOff(es);
    }
  }

  function Chosen(es: seq<Event>, wanted: Event -> bool): seq<Event> {
    if es == [] then []
    else Chosen(es[..|es| - 1], wanted) + if wanted(es[|es| - 1]) then [es[|es| - 1]] else []
  }

  function Numbered(es: seq<Event>, from: nat): (r: seq<Item>)
    ensures |r| == |es| && forall i :: 0 <= i < |es| ==> r[i] == Item(from + i, es[i])
  {
    seq(|es|, i requires 0 <= i < |es| => Item(from + i, es[i]))
  }

  lemma NumberedMore(es: seq<Event>, e: Event, from: nat)
    ensures Numbered(es + [e], from) == Numbered(es, from) + [Item(from + |es|, e)]
  {
  }
}
