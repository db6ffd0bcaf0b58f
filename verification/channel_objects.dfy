/** The channels as objects whose fields `update`, `consume` and `finish` change. Each method
    does to its object what the functions of `Channels` say. */
module ChannelObjects {
  import opened Channels
  import opened ChannelValues

  class LastValueChannel {
    var value: Option<Value>

    ghost function View(): Channel reads this { LastValue(value) }

    constructor ()
      ensures View() == LastValue(None)
    {
      value := None;
    }

    method Update(values: seq<Value>) returns (ok: bool, changed: bool)
      modifies this
      ensures ok <==> |values| <= 1
      ensures value == if |values| == 1 then Some(values[0]) else old(value)
      ensures ok ==> (changed <==> values != [])
      ensures if ok then old(View()).Update(values) == Accepted(View(), changed)
              else old(View()).Update(values) == Rejected && View() == old(View())
    {
      if |values| == 0 { return true, false; }
      if |values| != 1 { return false, false; }
      value := Some(values[|values| - 1]);
      return true, true;
    }

    predicate IsAvailable()
      reads this
      ensures IsAvailable() <==> View().Available()
    {
      value.Some?
    }
  }

  class EphemeralChannel {
    var value: Option<Value>
    const guard: bool

    ghost function View(): Channel reads this { Ephemeral(guard, value) }

    constructor (guard: bool)
      ensures View() == Ephemeral(guard, None)
    {
      this.guard, value := guard, None;
    }

    /** An empty batch clears the value. */
    method Update(values: seq<Value>) returns (ok: bool, changed: bool)
      modifies this
      ensures ok <==> !(guard && |values| > 1)
      ensures ok ==> value == if values == [] then None else Some(values[|values| - 1])
      ensures ok ==> (changed <==> values != [] || old(value).Some?)
      ensures if ok then old(View()).Update(values) == Accepted(View(), changed)
              else old(View()).Update(values) == Rejected && View() == old(View())
    {
      if |values| == 0 {
        changed := value.Some?;
        value := None;
        return true, changed;
      }
      if |values| != 1 && guard { return false, false; }
      value := Some(values[|values| - 1]);
      return true, true;
    }

    predicate IsAvailable()
      reads this
      ensures IsAvailable() <==> View().Available()
    {
      value.Some?
    }
  }

  class LastValueAfterFinishChannel {
    var value: Option<Value>
    var finished: bool

    ghost function View(): Channel reads this { LastValueAfterFinish(value, finished) }

    constructor ()
      ensures View() == LastValueAfterFinish(None, false)
    {
      value, finished := None, false;
    }

    method Update(values: seq<Value>) returns (changed: bool)
      modifies this
      ensures value == if values == [] then old(value) else Some(values[|values| - 1])
      ensures finished <==> old(finished) && values == []
      ensures changed <==> values != []
      ensures old(View()).Update(values) == Accepted(View(), changed)
    {
      if |values| == 0 { return false; }
      finished := false;
      value := Some(values[|values| - 1]);
      return true;
    }

    method Consume() returns (changed: bool)
      modifies this
      ensures changed == old(finished) && !finished && value == if old(finished) then None else old(value)
      ensures old(View()).Consume() == (View(), changed)
    {
      if finished {
        finished := false;
        value := None;
        return true;
      }
      return false;
    }

    method Finish() returns (changed: bool)
      modifies this
      ensures value == old(value) && (finished <==> old(finished) || value.Some?)
      ensures changed <==> !old(finished) && value.Some?
      ensures old(View()).Finish() == (View(), changed)
    {
      if !finished && value.Some? {
        finished := true;
        return true;
      }
      return false;
    }

    predicate IsAvailable()
      reads this
      ensures IsAvailable() <==> View().Available()
    {
      value.Some? && finished
    }
  }

  /** The names in front of the first value that is not expected. */
  function KnownPrefix(values: seq<Value>, names: set<Node>): seq<Value> {
    if values == [] || !values[0].Name? || values[0].node !in names then []
    else [values[0]] + KnownPrefix(values[1..], names)
  }

  lemma {:induction false} KnownPrefixFacts(values: seq<Value>, names: set<Node>, i: nat)
    requires i <= |values| && AllKnown(values[..i], names)
    ensures i == |values| ==> KnownPrefix(values, names) == values
    ensures i < |values| && !(values[i].Name? && values[i].node in names) ==> KnownPrefix(values, names) == values[..i]
  {
    if i > 0 {
      assert values[0] in values[..i];
      assert values[1..][..i - 1] == values[..i][1..];
      KnownPrefixFacts(values[1..], names, i - 1);
      assert values == [values[0]] + values[1..];
      assert values[..i] == [values[0]] + values[1..][..i - 1];
    }
  }

  lemma KnownMore(values: seq<Value>, i: nat, names: set<Node>)
    requires i < |values| && AllKnown(values[..i], names) && values[i].Name? && values[i].node in names
    ensures AllKnown(values[..i + 1], names)
    ensures NodesOf(values[..i + 1]) == NodesOf(values[..i]) + {values[i].node}
  {
    assert values[..i + 1] == values[..i] + [values[i]];
  }

  lemma OneMoreName(seen: set<Node>, more: set<Node>, n: Node)
    ensures seen + (more + {n}) == (seen + more) + {n}
    ensures more + {n} <= seen <==> more <= seen && n in seen
    ensures n in seen + more ==> (seen + more) + {n} == seen + more && (more <= seen ==> n in seen)
  {}

  class NamedBarrierChannel {
    const names: set<Node>
    var seen: set<Node>

    ghost function View(): Channel reads this { Barrier(names, seen) }

    constructor (names: set<Node>)
      ensures View() == Barrier(names, {})
    {
      this.names, seen := names, {};
    }

    /** An unexpected value stops the update; the names in front of it have been taken. */
    method Update(values: seq<Value>) returns (ok: bool, changed: bool)
      modifies this
      ensures ok <==> AllKnown(values, names)
      ensures seen == old(seen) + NodesOf(KnownPrefix(values, names))
      ensures ok ==> (changed <==> exists v <- values :: v.Name? && v.node !in old(seen))
      ensures ok ==> old(View()).Update(values) == Accepted(View(), changed)
      ensures !ok ==> old(View()).Update(values) == Rejected
    {
      changed := false;
      for i := 0 to |values|
        invariant AllKnown(values[..i], names)
        invariant seen == old(seen) + NodesOf(values[..i])
        invariant changed <==> !(NodesOf(values[..i]) <= old(seen))
      {
        KnownPrefixFacts(values, names, i);
        if values[i].Name? && values[i].node in names {
          KnownMore(values, i, names);
          OneMoreName(old(seen), NodesOf(values[..i]), values[i].node);
          if values[i].node !in seen {
            seen := seen + {values[i].node};
            changed := true;
          }
        } else {
          assert values[i] in values;
          return false, false;
        }
      }
      assert values[..|values|] == values;
      KnownPrefixFacts(values, names, |values|);
      ok := true;
    }

    method Consume() returns (changed: bool)
      modifies this
      ensures (changed <==> old(seen) == names) && seen == if old(seen) == names then {} else old(seen)
      ensures old(View()).Consume() == (View(), changed)
    {
      if seen == names {
        seen := {};
        return true;
      }
      return false;
    }

    predicate IsAvailable()
      reads this
      ensures IsAvailable() <==> View().Available()
    {
      seen == names
    }
  }

  class NamedBarrierAfterFinishChannel {
    const names: set<Node>
    var seen: set<Node>
    var finished: bool

    ghost function View(): Channel reads this { BarrierAfterFinish(names, seen, finished) }

    constructor (names: set<Node>)
      ensures View() == BarrierAfterFinish(names, {}, false)
    {
      this.names, seen, finished := names, {}, false;
    }

    method Update(values: seq<Value>) returns (ok: bool, changed: bool)
      modifies this
      ensures ok <==> AllKnown(values, names)
      ensures seen == old(seen) + NodesOf(KnownPrefix(values, names)) && finished == old(finished)
      ensures ok ==> (changed <==> exists v <- values :: v.Name? && v.node !in old(seen))
      ensures ok ==> old(View()).Update(values) == Accepted(View(), changed)
      ensures !ok ==> old(View()).Update(values) == Rejected
    {
      changed := false;
      for i := 0 to |values|
        invariant AllKnown(values[..i], names) && finished == old(finished)
        invariant seen == old(seen) + NodesOf(values[..i])
        invariant changed <==> !(NodesOf(values[..i]) <= old(seen))
      {
        KnownPrefixFacts(values, names, i);
        if values[i].Name? && values[i].node in names {
          KnownMore(values, i, names);
          OneMoreName(old(seen), NodesOf(values[..i]), values[i].node);
          if values[i].node !in seen {
            seen := seen + {values[i].node};
            changed := true;
          }
        } else {
          assert values[i] in values;
          return false, false;
        }
      }
      assert values[..|values|] == values;
      KnownPrefixFacts(values, names, |values|);
      ok := true;
    }

    method Consume() returns (changed: bool)
      modifies this
      ensures changed <==> old(finished && seen == names)
      ensures seen == (if changed then {} else old(seen)) && (finished <==> old(finished) && !changed)
      ensures old(View()).Consume() == (View(), changed)
    {
      if finished && seen == names {
        finished := false;
        seen := {};
        return true;
      }
      return false;
    }

    method Finish() returns (changed: bool)
      modifies this
      ensures seen == old(seen) && (finished <==> old(finished) || seen == names)
      ensures changed <==> !old(finished) && seen == names
      ensures old(View()).Finish() == (View(), changed)
    {
      if !finished && seen == names {
        finished := true;
        return true;
      }
      return false;
    }

    predicate IsAvailable()
      reads this
      ensures IsAvailable() <==> View().Available()
    {
      finished && seen == names
    }
  }

  class TopicChannel {
    const accumulate: bool
    var values: seq<Value>

    ghost function View(): Channel reads this { Topic(accumulate, values) }

    constructor (accumulate: bool)
      ensures View() == Topic(accumulate, [])
    {
      this.accumulate, values := accumulate, [];
    }

    method Update(batch: seq<Value>) returns (changed: bool)
      modifies this
      ensures exists items :: (
        && Spread(batch, items) && values == (if accumulate then old(values) else []) + items
        && (changed <==> items != [] || (!accumulate && old(values) != [])))
      ensures old(View()).Update(batch) == Accepted(View(), changed)
    {
      changed := false;
      if !accumulate {
        changed := values != [];
        values := [];
      }
      var flat: seq<Value> := [];
      for i := 0 to |batch|
        invariant flat == Flatten(batch[..i])
        invariant values == if accumulate then old(values) else []
      {
        FlattenLast(batch[..i], batch[i]);
        assert batch[..i + 1] == batch[..i] + [batch[i]];
        flat := flat + if batch[i].List? then batch[i].items else [batch[i]];
      }
      assert batch[..|batch|] == batch;
      if flat != [] {
        changed := true;
        values := values + flat;
      }
      FlattenSpreads(batch);
      assert old(values) + [] == old(values) && [] + flat == flat;
    }

    predicate IsAvailable()
      reads this
      ensures IsAvailable() <==> View().Available()
    {
      values != []
    }
  }
}
