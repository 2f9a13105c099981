/** Lookup of one element by ID, per category table and per namespace. No getter
    changes the network. */
module Getters {
  import opened Wrappers
  import opened ElementStore
  import opened Exceptions
  import opened Elements

  /** One lookup in one table; an absent ID raises NotFound. */
  function Lookup<T>(s: Store<T>, id: string): (r: Result<T, Error>)
    ensures r.Ok? <==> id in s.items
    ensures r.Ok? ==> r.value == s.items[id]
    ensures r.Err? ==> r.error == StoreFailure(NotFound(id))
  {
    match Get(s, id)
    case Some(x) => Ok(x)
    case None => Err(StoreFailure(NotFound(id)))
  }

  function GetJunction(network: Network, id: string): (r: Result<Node, Error>)
    reads network
    ensures r.Ok? <==> id in network.junctions.items
    ensures r.Ok? ==> r.value == network.junctions.items[id]
  {
    Lookup(network.junctions, id)
  }

  function GetTank(network: Network, id: string): (r: Result<Node, Error>)
    reads network
    ensures r.Ok? <==> id in network.tanks.items
    ensures r.Ok? ==> r.value == network.tanks.items[id]
  {
    Lookup(network.tanks, id)
  }

  function GetReservoir(network: Network, id: string): (r: Result<Node, Error>)
    reads network
    ensures r.Ok? <==> id in network.reservoirs.items
    ensures r.Ok? ==> r.value == network.reservoirs.items[id]
  {
    Lookup(network.reservoirs, id)
  }

  function GetPipe(network: Network, id: string): (r: Result<Link, Error>)
    reads network
    ensures r.Ok? <==> id in network.pipes.items
    ensures r.Ok? ==> r.value == network.pipes.items[id]
  {
    Lookup(network.pipes, id)
  }

  function GetPump(network: Network, id: string): (r: Result<Link, Error>)
    reads network
    ensures r.Ok? <==> id in network.pumps.items
    ensures r.Ok? ==> r.value == network.pumps.items[id]
  {
    Lookup(network.pumps, id)
  }

  function GetValve(network: Network, id: string): (r: Result<Link, Error>)
    reads network
    ensures r.Ok? <==> id in network.valves.items
    ensures r.Ok? ==> r.value == network.valves.items[id]
  {
    Lookup(network.valves, id)
  }

  function GetCurve(network: Network, id: string): (r: Result<Curve, Error>)
    reads network
    ensures r.Ok? <==> id in network.curves.items
    ensures r.Ok? ==> r.value == network.curves.items[id]
  {
    Lookup(network.curves, id)
  }

  function GetPattern(network: Network, id: string): (r: Result<Pattern, Error>)
    reads network
    ensures r.Ok? <==> id in network.patterns.items
    ensures r.Ok? ==> r.value == network.patterns.items[id]
  {
    Lookup(network.patterns, id)
  }

  function GetRule(network: Network, id: string): (r: Result<Rule, Error>)
    reads network
    ensures r.Ok? <==> id in network.rules.items
    ensures r.Ok? ==> r.value == network.rules.items[id]
  {
    Lookup(network.rules, id)
  }

  /** The network's combined node collection (`network.nodes`, not part of this model):
      junctions, reservoirs and tanks keyed by ID. Should an ID name nodes in two tables,
      this model lets the junction win over the reservoir and the reservoir over the tank. */
  function AllNodes(network: Network): map<string, Node>
    reads network
  {
    network.tanks.items + network.reservoirs.items + network.junctions.items
  }

  /** The combined link collection (`network.links`): pipes, pumps and valves, with the
      same precedence as for nodes. */
  function AllLinks(network: Network): map<string, Link>
    reads network
  {
    network.valves.items + network.pumps.items + network.pipes.items
  }

  /** `get_node`: any junction, reservoir or tank ID is found, in the table that holds it. */
  function GetNode(network: Network, id: string): (r: Result<Node, Error>)
    reads network
    ensures r.Ok? <==> id in network.NodeIds()
    ensures r.Ok? ==>
      || (id in network.junctions.items && r.value == network.junctions.items[id])
      || (id in network.reservoirs.items && r.value == network.reservoirs.items[id])
      || (id in network.tanks.items && r.value == network.tanks.items[id])
    ensures r.Err? ==> r.error == StoreFailure(NotFound(id))
  {
    if id in AllNodes(network) then Ok(AllNodes(network)[id]) else Err(StoreFailure(NotFound(id)))
  }

  /** `get_link`: any pipe, pump or valve ID is found, in the table that holds it. */
  function GetLink(network: Network, id: string): (r: Result<Link, Error>)
    reads network
    ensures r.Ok? <==> id in network.LinkIds()
    ensures r.Ok? ==>
      || (id in network.pipes.items && r.value == network.pipes.items[id])
      || (id in network.pumps.items && r.value == network.pumps.items[id])
      || (id in network.valves.items && r.value == network.valves.items[id])
    ensures r.Err? ==> r.error == StoreFailure(NotFound(id))
  {
    if id in AllLinks(network) then Ok(AllLinks(network)[id]) else Err(StoreFailure(NotFound(id)))
  }

  /** While no ID names two nodes, `get_node` agrees with the per-kind getter of the
      table that holds the ID. */
  lemma GetNodeAgrees(network: Network, id: string)
    requires network.NamespacesDisjoint()
    ensures id in network.junctions.items ==> GetNode(network, id) == GetJunction(network, id)
    ensures id in network.reservoirs.items ==> GetNode(network, id) == GetReservoir(network, id)
    ensures id in network.tanks.items ==> GetNode(network, id) == GetTank(network, id)
  {
  }

  /** While no ID names two links, `get_link` agrees with the per-kind getter of the
      table that holds the ID. */
  lemma GetLinkAgrees(network: Network, id: string)
    requires network.NamespacesDisjoint()
    ensures id in network.pipes.items ==> GetLink(network, id) == GetPipe(network, id)
    ensures id in network.pumps.items ==> GetLink(network, id) == GetPump(network, id)
    ensures id in network.valves.items ==> GetLink(network, id) == GetValve(network, id)
  {
  }
}
