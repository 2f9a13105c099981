/** The exceptions the modelled code raises. */
module Exceptions {
  import opened ElementStore

  datatype Error =
    | ComponentExists(id: string, message: string)   // ComponentExistsException
    | TypeError(message: string)
    | KeyError(key: string)
    | AttributeError(attribute: string)
    | IndexError
    | ValueError(text: string)                       // float() of a malformed token
    | StoreFailure(cause: StoreError)                // lookup or rename in an element store
}

/** The network's elements: nodes (junctions, reservoirs, tanks), links (pipes, pumps,
    valves), the auxiliary patterns, curves and rules, and the network that owns one
    element store per category.

    Python's class hierarchy (Node > Junction, Link > Valve > PRV, ...) becomes one class
    per family with the subclass-specific attributes in a `data` payload whose variant is
    the Python class of the object. Every attribute the writer tests against None is an
    Option here. */
module Elements {
  import opened Wrappers
  import opened ElementStore
  import opened Exceptions

  /** A time pattern. Its id setter is not part of this model, so the id is constant. */
  class Pattern {
    const id: string
    var network: Network?

    constructor (id: string)
      ensures this.id == id && network == null
    {
      this.id := id;
      network := null;
    }
  }

  /** A data curve (pump head, tank volume, GPV head loss, ...). */
  class Curve {
    const id: string
    var network: Network?

    constructor (id: string)
      ensures this.id == id && network == null
    {
      this.id := id;
      network := null;
    }
  }

  /** A rule-based control; only its identity matters to the modelled code. */
  class Rule {
    const id: string

    constructor (id: string)
      ensures this.id == id
    {
      this.id := id;
    }
  }

  /** A junction's demand: one value or a list of values. */
  datatype Demand = SingleDemand(value: real) | DemandList(values: seq<real>)

  /** A junction's demand pattern: one pattern or a list of patterns. */
  datatype DemandPattern = SinglePattern(pattern: Pattern) | PatternList(patterns: seq<Pattern>)

  /** The attributes that only a Junction, a Reservoir or a Tank has. */
  datatype NodeData =
    | JunctionData(emittercoefficient: real, demandpattern: Option<DemandPattern>, demand: Option<Demand>)
    | ReservoirData(head: Option<real>, headpattern: Option<Pattern>)
    | TankData(initlevel: Option<real>, minlevel: Option<real>, maxlevel: Option<real>,
               diam: Option<real>, minvolume: Option<real>, volumecurve: Option<Curve>,
               compartmentvolume: Option<real>, reactiontank: Option<real>, mixingmodel: string)

  /** The Python subclasses of Valve. */
  datatype ValveKind = PlainValve | PRV | TCV | PSV | GPV | PBV | FCV

  /** A valve setting: a number, or a curve for a general purpose valve. */
  datatype ValveSetting = SettingValue(value: real) | SettingCurve(curve: Curve)

  /** A pump's value: a curve or pattern ID, or a number. */
  datatype PumpValue = PumpText(text: string) | PumpNumber(number: real)

  /** The attributes that only a Pipe, a Pump or a Valve has. `valvetype` is an attribute
      the valve writer prints but the Valve class does not declare: None stands for a valve
      on which it was never set, so that reading it raises AttributeError. */
  datatype LinkData =
    | PipeData(length: Option<real>, diameter: Option<real>, roughness: Option<real>,
               minorloss: Option<real>, reactionbulk: Option<real>, reactionwall: Option<real>)
    | PumpData(keyword: Option<string>, value: Option<PumpValue>, setting: Option<real>)
    | ValveData(kind: ValveKind, valvetype: Option<string>, diameter: Option<real>,
                minorloss: Option<real>, valvesetting: Option<ValveSetting>)

  /** Report and time settings; the sections that fill them are not part of this model. */
  datatype Settings = DefaultSettings | SectionSettings(records: seq<seq<string>>)

  /** Every attribute of a node except its two plane coordinates. */
  type NodeAttributes = (string, Option<string>, Network?, Option<real>, real, real, Option<string>,
                         real, Option<seq<Pattern>>, NodeData)

  /** A junction, reservoir or tank. */
  class Node {
    var id: string
    var comment: Option<string>
    var network: Network?
    var xcoordinate: real
    var ycoordinate: real
    var elevation: Option<real>
    var initialquality: real
    var sourcequality: real
    var sourcetype: Option<string>
    var strength: real
    var sourcepattern: Option<seq<Pattern>>
    var data: NodeData

    /** The attribute defaults every node has. */
    ghost predicate NodeDefaults()
      reads this
    {
      && comment == None && network == null
      && xcoordinate == 0.0 && ycoordinate == 0.0 && elevation == Some(0.0)
      && initialquality == 0.0 && sourcequality == 0.0 && sourcetype == None
      && strength == 0.0 && sourcepattern == None
    }

    constructor Junction(id: string)
      ensures this.id == id && NodeDefaults()
      ensures data == JunctionData(0.0, None, Some(SingleDemand(0.0)))
    {
      this.id := id;
      comment, network := None, null;
      xcoordinate, ycoordinate, elevation := 0.0, 0.0, Some(0.0);
      initialquality, sourcequality, sourcetype, strength, sourcepattern := 0.0, 0.0, None, 0.0, None;
      data := JunctionData(0.0, None, Some(SingleDemand(0.0)));
    }

    constructor Reservoir(id: string)
      ensures this.id == id && NodeDefaults()
      ensures data == ReservoirData(Some(0.0), None)
    {
      this.id := id;
      comment, network := None, null;
      xcoordinate, ycoordinate, elevation := 0.0, 0.0, Some(0.0);
      initialquality, sourcequality, sourcetype, strength, sourcepattern := 0.0, 0.0, None, 0.0, None;
      data := ReservoirData(Some(0.0), None);
    }

    constructor Tank(id: string)
      ensures this.id == id && NodeDefaults()
      ensures data == TankData(Some(10.0), Some(0.0), Some(20.0), Some(50.0), Some(0.0), None, None, None, "MIXED")
    {
      this.id := id;
      comment, network := None, null;
      xcoordinate, ycoordinate, elevation := 0.0, 0.0, Some(0.0);
      initialquality, sourcequality, sourcetype, strength, sourcepattern := 0.0, 0.0, None, 0.0, None;
      data := TankData(Some(10.0), Some(0.0), Some(20.0), Some(50.0), Some(0.0), None, None, None, "MIXED");
    }

    /** Every attribute except the two plane coordinates. */
    function OtherAttributes(): NodeAttributes
      reads this
    {
      (id, comment, network, elevation, initialquality, sourcequality, sourcetype, strength, sourcepattern, data)
    }

    /** The `coordinates` property: x, y and elevation. */
    function Coordinates(): (c: (real, real, Option<real>))
      reads this
      ensures c.0 == xcoordinate && c.1 == ycoordinate && c.2 == elevation
    {
      (xcoordinate, ycoordinate, elevation)
    }

    /** Setting `id`: a node attached to a network is first re-keyed in its own category
        table (junctions, reservoirs or tanks); a failed re-key raises and leaves `id` as it
        was. A detached node only changes `id`. */
    method SetId(newId: string) returns (r: Outcome<Error>)
      requires network != null ==> network.Valid()
      modifies this, network
      ensures network == old(network) && data == old(data)
      ensures old(network) == null ==> r.Pass? && id == newId
      ensures old(network) != null ==>
        var res := Rename(old(network.NodeTable(data)), old(id), newId);
        && (res.Err? ==> r == Fail(StoreFailure(res.error)) && id == old(id)
                         && unchanged(network))
        && (res.Ok? ==> r.Pass? && id == newId && network.Valid()
                        && network.NodeTable(data) == res.value
                        && network.UnchangedExceptNodeTable(old(network.Snapshot()), data)
                        && network.Globals() == old(network.Globals()))
      ensures comment == old(comment) && xcoordinate == old(xcoordinate)
      ensures ycoordinate == old(ycoordinate) && elevation == old(elevation)
      ensures initialquality == old(initialquality) && sourcequality == old(sourcequality)
      ensures sourcetype == old(sourcetype) && strength == old(strength)
      ensures sourcepattern == old(sourcepattern)
    {
      if network != null {
        var res := Rename(network.NodeTable(data), id, newId);
        if res.Err? {
          return Fail(StoreFailure(res.error));
        }
        network.SetNodeTable(data, res.value);
      }
      id := newId;
      r := Pass;
    }
  }

  /** A pipe, pump or valve. */
  class Link {
    var id: string
    var comment: Option<string>
    var network: Network?
    var startnode: Node?
    var endnode: Node?
    var status: Option<string>
    var data: LinkData

    /** The attribute defaults every link has. */
    ghost predicate LinkDefaults()
      reads this
    {
      comment == None && network == null && startnode == null && endnode == null
      && status == Some("OPEN")
    }

    constructor Pipe(id: string)
      ensures this.id == id && LinkDefaults()
      ensures data == PipeData(Some(1000.0), Some(12.0), Some(100.0), Some(0.0), None, None)
    {
      this.id := id;
      comment, network, startnode, endnode, status := None, null, null, null, Some("OPEN");
      data := PipeData(Some(1000.0), Some(12.0), Some(100.0), Some(0.0), None, None);
    }

    constructor Pump(id: string)
      ensures this.id == id && LinkDefaults()
      ensures data == PumpData(None, None, None)
    {
      this.id := id;
      comment, network, startnode, endnode, status := None, null, null, null, Some("OPEN");
      data := PumpData(None, None, None);
    }

    /** A valve of the given subclass: all share Valve's attributes and defaults, except
        that a general purpose valve's setting is an optional curve, None by default. */
    constructor Valve(id: string, kind: ValveKind)
      ensures this.id == id && LinkDefaults()
      ensures data == ValveData(kind, None, Some(12.0), Some(0.0),
                                if kind == GPV then None else Some(SettingValue(0.0)))
    {
      this.id := id;
      comment, network, startnode, endnode, status := None, null, null, null, Some("OPEN");
      data := ValveData(kind, None, Some(12.0), Some(0.0),
                        if kind == GPV then None else Some(SettingValue(0.0)));
    }

    /** The `coordinates` property: the start node's coordinates, then the end node's.
        A missing endpoint raises AttributeError. */
    function Coordinates(): (r: Result<((real, real, Option<real>), (real, real, Option<real>)), Error>)
      reads this, startnode, endnode
      ensures r.Ok? <==> startnode != null && endnode != null
      ensures r.Ok? ==> r.value.0 == startnode.Coordinates() && r.value.1 == endnode.Coordinates()
    {
      if startnode == null || endnode == null then Err(AttributeError("xcoordinate"))
      else Ok((startnode.Coordinates(), endnode.Coordinates()))
    }

    /** `revert`: swap the start and end nodes and nothing else. */
    method Revert()
      modifies this
      ensures startnode == old(endnode) && endnode == old(startnode)
      ensures id == old(id) && comment == old(comment) && network == old(network)
      ensures status == old(status) && data == old(data)
    {
      startnode, endnode := endnode, startnode;
    }

    /** Setting `id`: re-key in the link's own category table (pipes, pumps or valves)
        when attached to a network; a failed re-key raises and leaves `id` as it was. */
    method SetId(newId: string) returns (r: Outcome<Error>)
      requires network != null ==> network.Valid()
      modifies this, network
      ensures network == old(network) && data == old(data) && comment == old(comment)
      ensures startnode == old(startnode) && endnode == old(endnode) && status == old(status)
      ensures old(network) == null ==> r.Pass? && id == newId
      ensures old(network) != null ==>
        var res := Rename(old(network.LinkTable(data)), old(id), newId);
        && (res.Err? ==> r == Fail(StoreFailure(res.error)) && id == old(id)
                         && unchanged(network))
        && (res.Ok? ==> r.Pass? && id == newId && network.Valid()
                        && network.LinkTable(data) == res.value
                        && network.UnchangedExceptLinkTable(old(network.Snapshot()), data)
                        && network.Globals() == old(network.Globals()))
    {
      if network != null {
        var res := Rename(network.LinkTable(data), id, newId);
        if res.Err? {
          return Fail(StoreFailure(res.error));
        }
        network.SetLinkTable(data, res.value);
      }
      id := newId;
      r := Pass;
    }
  }

  /** The values of all of a network's element stores, for stating what an operation
      leaves unchanged. */
  datatype Tables = Tables(
    junctions: Store<Node>, reservoirs: Store<Node>, tanks: Store<Node>,
    pipes: Store<Link>, pumps: Store<Link>, valves: Store<Link>,
    patterns: Store<Pattern>, curves: Store<Curve>, rules: Store<Rule>)

  /** A network: one element store per category plus the global settings. The unit
      converter is not part of this model; `conversions` counts how often it ran. */
  class Network {
    var title: Option<string>
    var junctions: Store<Node>
    var reservoirs: Store<Node>
    var tanks: Store<Node>
    var pipes: Store<Link>
    var pumps: Store<Link>
    var valves: Store<Link>
    var patterns: Store<Pattern>
    var curves: Store<Curve>
    var rules: Store<Rule>
    var report: Option<Settings>
    var times: Option<Settings>
    var conversions: nat

    ghost predicate Valid()
      reads this
    {
      && ElementStore.Valid(junctions) && ElementStore.Valid(reservoirs) && ElementStore.Valid(tanks)
      && ElementStore.Valid(pipes) && ElementStore.Valid(pumps) && ElementStore.Valid(valves)
      && ElementStore.Valid(patterns) && ElementStore.Valid(curves) && ElementStore.Valid(rules)
    }

    constructor ()
      ensures Valid() && Snapshot() == Tables(Empty(), Empty(), Empty(), Empty(), Empty(), Empty(), Empty(), Empty(), Empty())
      ensures title == None && report == None && times == None && conversions == 0
    {
      title := None;
      junctions, reservoirs, tanks := Empty(), Empty(), Empty();
      pipes, pumps, valves := Empty(), Empty(), Empty();
      patterns, curves, rules := Empty(), Empty(), Empty();
      report, times := None, None;
      conversions := 0;
    }

    /** The network's attributes other than its element stores. */
    function Globals(): (Option<string>, Option<Settings>, Option<Settings>, nat)
      reads this
    {
      (title, report, times, conversions)
    }

    function Snapshot(): Tables
      reads this
    {
      Tables(junctions, reservoirs, tanks, pipes, pumps, valves, patterns, curves, rules)
    }

    /** The category table a node of this kind belongs in (`_nodes['junctions']`, ...). */
    function NodeTable(d: NodeData): Store<Node>
      reads this
    {
      match d
      case JunctionData(_, _, _) => junctions
      case ReservoirData(_, _) => reservoirs
      case TankData(_, _, _, _, _, _, _, _, _) => tanks
    }

    /** The category table a link of this kind belongs in (`_links['pipes']`, ...). */
    function LinkTable(d: LinkData): Store<Link>
      reads this
    {
      match d
      case PipeData(_, _, _, _, _, _) => pipes
      case PumpData(_, _, _) => pumps
      case ValveData(_, _, _, _, _) => valves
    }

    /** Every table other than the one for nodes of kind `d` equals its value in `t`. */
    ghost predicate UnchangedExceptNodeTable(t: Tables, d: NodeData)
      reads this
    {
      && (!d.JunctionData? ==> junctions == t.junctions)
      && (!d.ReservoirData? ==> reservoirs == t.reservoirs)
      && (!d.TankData? ==> tanks == t.tanks)
      && pipes == t.pipes && pumps == t.pumps && valves == t.valves
      && patterns == t.patterns && curves == t.curves && rules == t.rules
    }

    /** Every table other than the one for links of kind `d` equals its value in `t`. */
    ghost predicate UnchangedExceptLinkTable(t: Tables, d: LinkData)
      reads this
    {
      && junctions == t.junctions && reservoirs == t.reservoirs && tanks == t.tanks
      && (!d.PipeData? ==> pipes == t.pipes)
      && (!d.PumpData? ==> pumps == t.pumps)
      && (!d.ValveData? ==> valves == t.valves)
      && patterns == t.patterns && curves == t.curves && rules == t.rules
    }

    /** The category table of nodes of kind `d` replaced by `t`. */
    method SetNodeTable(d: NodeData, t: Store<Node>)
      requires Valid() && ElementStore.Valid(t)
      modifies this
      ensures Valid() && NodeTable(d) == t
      ensures UnchangedExceptNodeTable(old(Snapshot()), d) && Globals() == old(Globals())
    {
      match d
      case JunctionData(_, _, _) => junctions := t;
      case ReservoirData(_, _) => reservoirs := t;
      case TankData(_, _, _, _, _, _, _, _, _) => tanks := t;
    }

    /** The category table of links of kind `d` replaced by `t`. */
    method SetLinkTable(d: LinkData, t: Store<Link>)
      requires Valid() && ElementStore.Valid(t)
      modifies this
      ensures Valid() && LinkTable(d) == t
      ensures UnchangedExceptLinkTable(old(Snapshot()), d) && Globals() == old(Globals())
    {
      match d
      case PipeData(_, _, _, _, _, _) => pipes := t;
      case PumpData(_, _, _) => pumps := t;
      case ValveData(_, _, _, _, _) => valves := t;
    }

    /** `get_node_ids`: the shared node namespace. */
    function NodeIds(): set<string>
      reads this
    {
      junctions.items.Keys + reservoirs.items.Keys + tanks.items.Keys
    }

    /** `get_link_ids`: the shared link namespace. */
    function LinkIds(): set<string>
      reads this
    {
      pipes.items.Keys + pumps.items.Keys + valves.items.Keys
    }

    /** Every node object held by one of the node tables. */
    function NodeObjects(): set<Node>
      reads this
    {
      junctions.items.Values + reservoirs.items.Values + tanks.items.Values
    }

    /** No ID names two nodes, and no ID names two links: the node tables have pairwise
        disjoint keys, and so do the link tables. */
    ghost predicate NamespacesDisjoint()
      reads this
    {
      && junctions.items.Keys !! reservoirs.items.Keys
      && junctions.items.Keys !! tanks.items.Keys
      && reservoirs.items.Keys !! tanks.items.Keys
      && pipes.items.Keys !! pumps.items.Keys
      && pipes.items.Keys !! valves.items.Keys
      && pumps.items.Keys !! valves.items.Keys
    }
  }
}
