/** The values that travel through a graph, the names of its channels, and what each
    kind of channel does when a superstep updates, consumes or finishes it. */
module Channels {

  datatype Option<+T> = None | Some(value: T)

  type Node = string

  datatype Value =
    | Null
    | Name(node: Node)
    | Text(text: string)
    | List(items: seq<Value>)
    | Send(target: Node, arg: Value)

  /** Writes to these names steer the loop; they never reach a channel. */
  datatype ControlKey = NoWrites | Push | Resume | Interrupt | Return | Error | ErrorSourceNode

  datatype ChannelName =
    | State(key: string)
    | Start
    | BranchTo(node: Node)
    | Join(starts: seq<Node>, end: Node)
    | Tasks
    | Control(control: ControlKey)

  type Write = (ChannelName, Value)

  /** What `update` leaves behind: the channel refuses the batch, or takes it and says
      whether it changed. */
  datatype Outcome = Rejected | Accepted(channel: Channel, changed: bool)

  /** `Reducer` stands for the channels that fold a batch into a defined value; its fold
      refuses a batch with `None`. */
  datatype Channel =
    | LastValue(last: Option<Value>)
    | Ephemeral(guard: bool, held: Option<Value>)
    | LastValueAfterFinish(late: Option<Value>, finished: bool)
    | Barrier(names: set<Node>, seen: set<Node>)
    | BarrierAfterFinish(names: set<Node>, seen: set<Node>, finished: bool)
    | Topic(accumulate: bool, values: seq<Value>)
    | Reducer(fold: (Value, seq<Value>) -> Option<Value>, total: Value)
  {
    predicate Available() {
      match this
      case LastValue(v) => v.Some?
      case Ephemeral(_, v) => v.Some?
      case LastValueAfterFinish(v, f) => v.Some? && f
      case Barrier(names, seen) => seen == names
      case BarrierAfterFinish(names, seen, f) => f && seen == names
      case Topic(_, vs) => vs != []
      case Reducer(_, _) => true
    }

    function Update(vals: seq<Value>): Outcome {
      match this
      case LastValue(_) =>
        if vals == [] then Accepted(this, false)
        else if |vals| != 1 then Rejected
        else Accepted(LastValue(Some(vals[|vals| - 1])), true)
      case Ephemeral(g, v) =>
        if vals == [] then Accepted(Ephemeral(g, None), v.Some?)
        else if |vals| != 1 && g then Rejected
        else Accepted(Ephemeral(g, Some(vals[|vals| - 1])), true)
      case LastValueAfterFinish(_, _) =>
        if vals == [] then Accepted(this, false)
        else Accepted(LastValueAfterFinish(Some(vals[|vals| - 1]), false), true)
      case Barrier(names, seen) =>
        if AllKnown(vals, names) then Accepted(Barrier(names, seen + NodesOf(vals)), !(NodesOf(vals) <= seen))
        else Rejected
      case BarrierAfterFinish(names, seen, f) =>
        if AllKnown(vals, names) then Accepted(BarrierAfterFinish(names, seen + NodesOf(vals), f),
          !(NodesOf(vals) <= seen))
        else Rejected
      case Topic(acc, vs) =>
        var flat := Flatten(vals);
        Accepted(Topic(acc, if acc then vs + flat else flat), (!acc && vs != []) || flat != [])
      case Reducer(fold, total) =>
        if vals == [] then Accepted(this, false)
        else match fold(total, vals)
             case None => Rejected
             case Some(t) => Accepted(Reducer(fold, t), true)
    }

    /** A subscribed task ran. */
    function Consume(): (Channel, bool) {
      match this
      case LastValueAfterFinish(_, f) => if f then (LastValueAfterFinish(None, false), true) else (this, false)
      case Barrier(names, seen) => if seen == names then (Barrier(names, {}), true) else (this, false)
      case BarrierAfterFinish(names, seen, f) =>
        if f && seen == names then (BarrierAfterFinish(names, {}, false), true) else (this, false)
      case _ => (this, false)
    }

    /** The run looks finished. */
    function Finish(): (Channel, bool) {
      match this
      case LastValueAfterFinish(v, f) => if !f && v.Some? then (LastValueAfterFinish(v, true), true) else (this, false)
      case BarrierAfterFinish(names, seen, f) =>
        if !f && seen == names then (BarrierAfterFinish(names, seen, true), true) else (this, false)
      case _ => (this, false)
    }

    /** The channels a deferred node listens to. */
    predicate WaitsForFinish() { LastValueAfterFinish? || BarrierAfterFinish? }
  }

  predicate AllKnown(vals: seq<Value>, names: set<Node>) {
    forall v <- vals :: v.Name? && v.node in names
  }

  function NodesOf(vals: seq<Value>): set<Node> {
    set v <- vals | v.Name? :: v.node
  }

  /** A list in the batch contributes its items, anything else contributes itself. */
  function Flatten(vals: seq<Value>): seq<Value> {
    if vals == [] then []
    else (if vals[0].List? then vals[0].items else [vals[0]]) + Flatten(vals[1..])
  }

  /** Being of one kind, with the same fixed configuration. */
  predicate SameKind(a: Channel, b: Channel) {
    match a
    case LastValue(_) => b.LastValue?
    case Ephemeral(g, _) => b.Ephemeral? && b.guard == g
    case LastValueAfterFinish(_, _) => b.LastValueAfterFinish?
    case Barrier(names, _) => b.Barrier? && b.names == names
    case BarrierAfterFinish(names, _, _) => b.BarrierAfterFinish? && b.names == names
    case Topic(acc, _) => b.Topic? && b.accumulate == acc
    case Reducer(_, _) => b.Reducer?
  }
}
