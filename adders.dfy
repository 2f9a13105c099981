/** Adding elements to a network: one adder per category, which either stores the given
    object or builds a default one from the `id` keyword argument, and the `add_node` /
    `add_link` dispatchers, which first check the shared node or link namespace.

    Keyword arguments other than `id` are not part of this model: an element built from
    keyword arguments carries its class defaults. */
module Adders {
  import opened Wrappers
  import opened ElementStore
  import opened Exceptions
  import opened Elements
  import opened Getters

  const MessagePrefix: string := "A component with the ID \""
  const MessageSuffix: string := "\" already exists in the network."

  /** The message a ComponentExistsException gets when none is given. */
  function DefaultMessage(id: string): (m: string)
    ensures |m| == |MessagePrefix| + |id| + |MessageSuffix|
    ensures m[|MessagePrefix|..|MessagePrefix| + |id|] == id
  {
    MessagePrefix + id + MessageSuffix
  }

  /** The default message names the ID: two IDs never share a message. */
  lemma DefaultMessageNamesId(id1: string, id2: string)
    requires DefaultMessage(id1) == DefaultMessage(id2)
    ensures id1 == id2
  {
    assert |id1| == |id2|;
    assert id1 == DefaultMessage(id1)[|MessagePrefix|..|MessagePrefix| + |id1|];
  }

  /** `ComponentExistsException(id, message)` as written: only a falsy message assigns
      `self.message`; with any other message the attribute is read before it is set and
      constructing the exception itself raises AttributeError. */
  function ComponentExistsAsWritten(id: string, message: Option<string>): (r: Result<Error, Error>)
    ensures r.Ok? <==> message.None? || message.value == ""
    ensures r.Ok? ==> r.value == ComponentExists(id, DefaultMessage(id))
    ensures r.Err? ==> r.error == AttributeError("message")
  {
    if message.None? || message.value == "" then Ok(ComponentExists(id, DefaultMessage(id)))
    else Err(AttributeError("message"))
  }

  /** The exception as evidently intended: a given message is kept, a missing one
      replaced by the default. */
  function NewComponentExists(id: string, message: Option<string>): (e: Error)
    ensures e.ComponentExists? && e.id == id
    ensures message.Some? && message.value != "" ==> e.message == message.value
    ensures message.None? || message.value == "" ==> e.message == DefaultMessage(id)
  {
    if message.None? || message.value == "" then ComponentExists(id, DefaultMessage(id))
    else ComponentExists(id, message.value)
  }

  /** Where the written constructor succeeds, the corrected one builds the same exception;
      an explicit message is where they part. */
  lemma ComponentExistsCorrection(id: string, message: Option<string>)
    ensures ComponentExistsAsWritten(id, message).Ok? ==>
              ComponentExistsAsWritten(id, message).value == NewComponentExists(id, message)
    ensures message.Some? && message.value != "" ==>
              ComponentExistsAsWritten(id, message).Err?
              && NewComponentExists(id, message).message == message.value
  {
  }

  /** Constructing the exception with an explicit message fails as written. */
  lemma ExplicitMessageRaises()
    ensures ComponentExistsAsWritten("J-1", Some("taken")) == Err(AttributeError("message"))
    ensures NewComponentExists("J-1", Some("taken")) == ComponentExists("J-1", "taken")
  {
  }

  /** The ID an adder stores under: the given object's, else the `id` keyword argument. */
  function NodeKey(node: Node?, kwargsId: Option<string>): string
    requires node != null || kwargsId.Some?
    reads node
  {
    if node != null then node.id else kwargsId.value
  }

  function LinkKey(link: Link?, kwargsId: Option<string>): string
    requires link != null || kwargsId.Some?
    reads link
  {
    if link != null then link.id else kwargsId.value
  }

  /** `add_junction`. */
  method AddJunction(network: Network, junction: Node?, checkExists: bool, kwargsId: Option<string>)
      returns (r: Outcome<Error>)
    requires network.Valid()
    modifies network
    ensures network.Valid() && network.Globals() == old(network.Globals())
    ensures junction == null && kwargsId.None? ==>
              r == Fail(KeyError("id")) && network.Snapshot() == old(network.Snapshot())
    ensures junction != null || kwargsId.Some? ==>
      var id := NodeKey(junction, kwargsId);
      if checkExists && id in old(network.junctions.items) then
        r == Fail(ComponentExists(id, DefaultMessage(id))) && network.Snapshot() == old(network.Snapshot())
      else
        && r.Pass? && GetJunction(network, id).Ok?
        && var e := network.junctions.items[id];
        && network.Snapshot() == old(network.Snapshot()).(junctions := Put(old(network.junctions), id, e))
        && (junction != null ==> e == junction)
        && (junction == null ==> fresh(e) && e.id == id && e.NodeDefaults()
                                 && e.data == JunctionData(0.0, None, Some(SingleDemand(0.0))))
  {
    var j: Node;
    if junction == null {
      if kwargsId.None? {
        return Fail(KeyError("id"));
      }
      j := new Node.Junction(kwargsId.value);
    } else {
      j := junction;
    }
    var id := j.id;
    if checkExists && id in network.junctions.items {
      return Fail(ComponentExists(id, DefaultMessage(id)));
    }
    network.junctions := Put(network.junctions, id, j);
    r := Pass;
  }

  /** `add_reservoir`. */
  method AddReservoir(network: Network, reservoir: Node?, checkExists: bool, kwargsId: Option<string>)
      returns (r: Outcome<Error>)
    requires network.Valid()
    modifies network
    ensures network.Valid() && network.Globals() == old(network.Globals())
    ensures reservoir == null && kwargsId.None? ==>
              r == Fail(KeyError("id")) && network.Snapshot() == old(network.Snapshot())
    ensures reservoir != null || kwargsId.Some? ==>
      var id := NodeKey(reservoir, kwargsId);
      if checkExists && id in old(network.reservoirs.items) then
        r == Fail(ComponentExists(id, DefaultMessage(id))) && network.Snapshot() == old(network.Snapshot())
      else
        && r.Pass? && GetReservoir(network, id).Ok?
        && var e := network.reservoirs.items[id];
        && network.Snapshot() == old(network.Snapshot()).(reservoirs := Put(old(network.reservoirs), id, e))
        && (reservoir != null ==> e == reservoir)
        && (reservoir == null ==> fresh(e) && e.id == id && e.NodeDefaults()
                                  && e.data == ReservoirData(Some(0.0), None))
  {
    var v: Node;
    if reservoir == null {
      if kwargsId.None? {
        return Fail(KeyError("id"));
      }
      v := new Node.Reservoir(kwargsId.value);
    } else {
      v := reservoir;
    }
    var id := v.id;
    if checkExists && id in network.reservoirs.items {
      return Fail(ComponentExists(id, DefaultMessage(id)));
    }
    network.reservoirs := Put(network.reservoirs, id, v);
    r := Pass;
  }

  /** `add_tank`. */
  method AddTank(network: Network, tank: Node?, checkExists: bool, kwargsId: Option<string>)
      returns (r: Outcome<Error>)
    requires network.Valid()
    modifies network
    ensures network.Valid() && network.Globals() == old(network.Globals())
    ensures tank == null && kwargsId.None? ==>
              r == Fail(KeyError("id")) && network.Snapshot() == old(network.Snapshot())
    ensures tank != null || kwargsId.Some? ==>
      var id := NodeKey(tank, kwargsId);
      if checkExists && id in old(network.tanks.items) then
        r == Fail(ComponentExists(id, DefaultMessage(id))) && network.Snapshot() == old(network.Snapshot())
      else
        && r.Pass? && GetTank(network, id).Ok?
        && var e := network.tanks.items[id];
        && network.Snapshot() == old(network.Snapshot()).(tanks := Put(old(network.tanks), id, e))
        && (tank != null ==> e == tank)
        && (tank == null ==> fresh(e) && e.id == id && e.NodeDefaults()
                             && e.data == TankData(Some(10.0), Some(0.0), Some(20.0), Some(50.0), Some(0.0),
                                                   None, None, None, "MIXED"))
  {
    var t: Node;
    if tank == null {
      if kwargsId.None? {
        return Fail(KeyError("id"));
      }
      t := new Node.Tank(kwargsId.value);
    } else {
      t := tank;
    }
    var id := t.id;
    if checkExists && id in network.tanks.items {
      return Fail(ComponentExists(id, DefaultMessage(id)));
    }
    network.tanks := Put(network.tanks, id, t);
    r := Pass;
  }

  /** `add_pipe`. */
  method AddPipe(network: Network, pipe: Link?, checkExists: bool, kwargsId: Option<string>)
      returns (r: Outcome<Error>)
    requires network.Valid()
    modifies network
    ensures network.Valid() && network.Globals() == old(network.Globals())
    ensures pipe == null && kwargsId.None? ==>
              r == Fail(KeyError("id")) && network.Snapshot() == old(network.Snapshot())
    ensures pipe != null || kwargsId.Some? ==>
      var id := LinkKey(pipe, kwargsId);
      if checkExists && id in old(network.pipes.items) then
        r == Fail(ComponentExists(id, DefaultMessage(id))) && network.Snapshot() == old(network.Snapshot())
      else
        && r.Pass? && GetPipe(network, id).Ok?
        && var e := network.pipes.items[id];
        && network.Snapshot() == old(network.Snapshot()).(pipes := Put(old(network.pipes), id, e))
        && (pipe != null ==> e == pipe)
        && (pipe == null ==> fresh(e) && e.id == id && e.LinkDefaults()
                             && e.data == PipeData(Some(1000.0), Some(12.0), Some(100.0), Some(0.0), None, None))
  {
    var p: Link;
    if pipe == null {
      if kwargsId.None? {
        return Fail(KeyError("id"));
      }
      p := new Link.Pipe(kwargsId.value);
    } else {
      p := pipe;
    }
    var id := p.id;
    if checkExists && id in network.pipes.items {
      return Fail(ComponentExists(id, DefaultMessage(id)));
    }
    network.pipes := Put(network.pipes, id, p);
    r := Pass;
  }

  /** `add_pump`. */
  method AddPump(network: Network, pump: Link?, checkExists: bool, kwargsId: Option<string>)
      returns (r: Outcome<Error>)
    requires network.Valid()
    modifies network
    ensures network.Valid() && network.Globals() == old(network.Globals())
    ensures pump == null && kwargsId.None? ==>
              r == Fail(KeyError("id")) && network.Snapshot() == old(network.Snapshot())
    ensures pump != null || kwargsId.Some? ==>
      var id := LinkKey(pump, kwargsId);
      if checkExists && id in old(network.pumps.items) then
        r == Fail(ComponentExists(id, DefaultMessage(id))) && network.Snapshot() == old(network.Snapshot())
      else
        && r.Pass? && GetPump(network, id).Ok?
        && var e := network.pumps.items[id];
        && network.Snapshot() == old(network.Snapshot()).(pumps := Put(old(network.pumps), id, e))
        && (pump != null ==> e == pump)
        && (pump == null ==> fresh(e) && e.id == id && e.LinkDefaults() && e.data == PumpData(None, None, None))
  {
    var p: Link;
    if pump == null {
      if kwargsId.None? {
        return Fail(KeyError("id"));
      }
      p := new Link.Pump(kwargsId.value);
    } else {
      p := pump;
    }
    var id := p.id;
    if checkExists && id in network.pumps.items {
      return Fail(ComponentExists(id, DefaultMessage(id)));
    }
    network.pumps := Put(network.pumps, id, p);
    r := Pass;
  }

  /** `add_valve`; a valve built from keyword arguments is a plain Valve. */
  method AddValve(network: Network, valve: Link?, checkExists: bool, kwargsId: Option<string>)
      returns (r: Outcome<Error>)
    requires network.Valid()
    modifies network
    ensures network.Valid() && network.Globals() == old(network.Globals())
    ensures valve == null && kwargsId.None? ==>
              r == Fail(KeyError("id")) && network.Snapshot() == old(network.Snapshot())
    ensures valve != null || kwargsId.Some? ==>
      var id := LinkKey(valve, kwargsId);
      if checkExists && id in old(network.valves.items) then
        r == Fail(ComponentExists(id, DefaultMessage(id))) && network.Snapshot() == old(network.Snapshot())
      else
        && r.Pass? && GetValve(network, id).Ok?
        && var e := network.valves.items[id];
        && network.Snapshot() == old(network.Snapshot()).(valves := Put(old(network.valves), id, e))
        && (valve != null ==> e == valve)
        && (valve == null ==> fresh(e) && e.id == id && e.LinkDefaults()
                              && e.data == ValveData(PlainValve, None, Some(12.0), Some(0.0), Some(SettingValue(0.0))))
  {
    var v: Link;
    if valve == null {
      if kwargsId.None? {
        return Fail(KeyError("id"));
      }
      v := new Link.Valve(kwargsId.value, PlainValve);
    } else {
      v := valve;
    }
    var id := v.id;
    if checkExists && id in network.valves.items {
      return Fail(ComponentExists(id, DefaultMessage(id)));
    }
    network.valves := Put(network.valves, id, v);
    r := Pass;
  }

  /** `add_pattern`: also points the pattern back at the network. */
  method AddPattern(network: Network, pattern: Pattern?, checkExists: bool, kwargsId: Option<string>)
      returns (r: Outcome<Error>)
    requires network.Valid()
    modifies network, pattern
    ensures network.Valid() && network.Globals() == old(network.Globals())
    ensures r.Fail? ==> network.Snapshot() == old(network.Snapshot()) && (pattern != null ==> unchanged(pattern))
    ensures pattern == null && kwargsId.None? ==> r == Fail(KeyError("id"))
    ensures pattern != null || kwargsId.Some? ==>
      var id := if pattern != null then pattern.id else kwargsId.value;
      if checkExists && id in old(network.patterns.items) then
        r == Fail(ComponentExists(id, DefaultMessage(id)))
      else
        && r.Pass? && GetPattern(network, id).Ok?
        && var e := network.patterns.items[id];
        && network.Snapshot() == old(network.Snapshot()).(patterns := Put(old(network.patterns), id, e))
        && e.network == network
        && (pattern != null ==> e == pattern)
        && (pattern == null ==> fresh(e) && e.id == id)
  {
    var p: Pattern;
    if pattern == null {
      if kwargsId.None? {
        return Fail(KeyError("id"));
      }
      p := new Pattern(kwargsId.value);
    } else {
      p := pattern;
    }
    var id := p.id;
    if checkExists && id in network.patterns.items {
      return Fail(ComponentExists(id, DefaultMessage(id)));
    }
    p.network := network;
    network.patterns := Put(network.patterns, id, p);
    r := Pass;
  }

  /** `add_curve`: also points the curve back at the network. */
  method AddCurve(network: Network, curve: Curve?, checkExists: bool, kwargsId: Option<string>)
      returns (r: Outcome<Error>)
    requires network.Valid()
    modifies network, curve
    ensures network.Valid() && network.Globals() == old(network.Globals())
    ensures r.Fail? ==> network.Snapshot() == old(network.Snapshot()) && (curve != null ==> unchanged(curve))
    ensures curve == null && kwargsId.None? ==> r == Fail(KeyError("id"))
    ensures curve != null || kwargsId.Some? ==>
      var id := if curve != null then curve.id else kwargsId.value;
      if checkExists && id in old(network.curves.items) then
        r == Fail(ComponentExists(id, DefaultMessage(id)))
      else
        && r.Pass? && GetCurve(network, id).Ok?
        && var e := network.curves.items[id];
        && network.Snapshot() == old(network.Snapshot()).(curves := Put(old(network.curves), id, e))
        && e.network == network
        && (curve != null ==> e == curve)
        && (curve == null ==> fresh(e) && e.id == id)
  {
    var c: Curve;
    if curve == null {
      if kwargsId.None? {
        return Fail(KeyError("id"));
      }
      c := new Curve(kwargsId.value);
    } else {
      c := curve;
    }
    var id := c.id;
    if checkExists && id in network.curves.items {
      return Fail(ComponentExists(id, DefaultMessage(id)));
    }
    c.network := network;
    network.curves := Put(network.curves, id, c);
    r := Pass;
  }

  /** Any object that can be handed to `add_node` or `add_link`. */
  datatype Component =
    | NodeObject(node: Node)
    | LinkObject(link: Link)
    | PatternObject(pattern: Pattern)
    | CurveObject(curve: Curve)
    | RuleObject(rule: Rule)

  function ComponentId(c: Component): string
    reads if c.NodeObject? then {c.node} else {}, if c.LinkObject? then {c.link} else {}
  {
    match c
    case NodeObject(n) => n.id
    case LinkObject(l) => l.id
    case PatternObject(p) => p.id
    case CurveObject(cv) => cv.id
    case RuleObject(rl) => rl.id
  }

  const NodeTypeMessage: string := "Only Node types (Junction, Tank, Reservoir) can be passed to this function"
  const LinkTypeMessage: string := "Only Link types (Pipe, Pump, Valve) can be passed to this function"

  /** `add_node`: an ID already used by any node is refused whatever `checkExists` says;
      a non-node is refused next; a node goes into the table of its kind. Adding never
      makes two nodes share an ID, and the added node is what `get_node` then finds. */
  method AddNode(network: Network, c: Component, checkExists: bool) returns (r: Outcome<Error>)
    requires network.Valid()
    modifies network
    ensures network.Valid() && network.Globals() == old(network.Globals())
    ensures r.Fail? ==> network.Snapshot() == old(network.Snapshot())
    ensures ComponentId(c) in old(network.NodeIds()) ==>
              r == Fail(ComponentExists(ComponentId(c), DefaultMessage(ComponentId(c))))
    ensures ComponentId(c) !in old(network.NodeIds()) && !c.NodeObject? ==> r == Fail(TypeError(NodeTypeMessage))
    ensures ComponentId(c) !in old(network.NodeIds()) && c.NodeObject? ==>
              && r.Pass?
              && network.NodeTable(c.node.data) == Put(old(network.NodeTable(c.node.data)), c.node.id, c.node)
              && network.UnchangedExceptNodeTable(old(network.Snapshot()), c.node.data)
              && GetNode(network, c.node.id) == Ok(c.node)
    ensures old(network.NamespacesDisjoint()) ==> network.NamespacesDisjoint()
  {
    var id := ComponentId(c);
    if id in network.NodeIds() {
      return Fail(ComponentExists(id, DefaultMessage(id)));
    }
    if !c.NodeObject? {
      return Fail(TypeError(NodeTypeMessage));
    }
    var n := c.node;
    match n.data
    case JunctionData(_, _, _) =>
      r := AddJunction(network, n, checkExists, None);
    case ReservoirData(_, _) =>
      r := AddReservoir(network, n, checkExists, None);
    case TankData(_, _, _, _, _, _, _, _, _) =>
      r := AddTank(network, n, checkExists, None);
  }

  /** `add_link`: the same for pipes, pumps and valves in the link namespace. */
  method AddLink(network: Network, c: Component, checkExists: bool) returns (r: Outcome<Error>)
    requires network.Valid()
    modifies network
    ensures network.Valid() && network.Globals() == old(network.Globals())
    ensures r.Fail? ==> network.Snapshot() == old(network.Snapshot())
    ensures ComponentId(c) in old(network.LinkIds()) ==>
              r == Fail(ComponentExists(ComponentId(c), DefaultMessage(ComponentId(c))))
    ensures ComponentId(c) !in old(network.LinkIds()) && !c.LinkObject? ==> r == Fail(TypeError(LinkTypeMessage))
    ensures ComponentId(c) !in old(network.LinkIds()) && c.LinkObject? ==>
              && r.Pass?
              && network.LinkTable(c.link.data) == Put(old(network.LinkTable(c.link.data)), c.link.id, c.link)
              && network.UnchangedExceptLinkTable(old(network.Snapshot()), c.link.data)
              && GetLink(network, c.link.id) == Ok(c.link)
    ensures old(network.NamespacesDisjoint()) ==> network.NamespacesDisjoint()
  {
    var id := ComponentId(c);
    if id in network.LinkIds() {
      return Fail(ComponentExists(id, DefaultMessage(id)));
    }
    if !c.LinkObject? {
      return Fail(TypeError(LinkTypeMessage));
    }
    var l := c.link;
    match l.data
    case PipeData(_, _, _, _, _, _) =>
      r := AddPipe(network, l, checkExists, None);
    case PumpData(_, _, _) =>
      r := AddPump(network, l, checkExists, None);
    case ValveData(_, _, _, _, _) =>
      r := AddValve(network, l, checkExists, None);
  }
}
