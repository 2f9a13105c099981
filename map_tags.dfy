/** The readers of the map sections: COORDINATES sets the plane coordinates of the nodes
    it names; VERTICES, LABELS, BACKDROP and TAGS are read as nothing. All five are
    registered at priority 4, after the sections that define nodes. */
module MapTags {
  import opened Wrappers
  import opened ElementStore
  import opened Exceptions
  import opened Elements
  import opened Getters
  import opened Splitter
  import opened Decorators

  /** The plane coordinates of a set of nodes. */
  function CoordsOf(nodes: set<Node>): (c: map<Node, (real, real)>)
    reads nodes
    ensures c.Keys == nodes
  {
    map n | n in nodes :: (n.xcoordinate, n.ycoordinate)
  }

  /** The attributes other than the plane coordinates of the given nodes. */
  function OthersOf(nodes: set<Node>): (c: map<Node, NodeAttributes>)
    reads nodes
    ensures c.Keys == nodes
  {
    map n | n in nodes :: n.OtherAttributes()
  }

  /** Coordinates after some records, and whether reading stopped with an exception. */
  datatype Applied = Applied(coords: map<Node, (real, real)>, outcome: Outcome<Error>)

  /** One COORDINATES record: the node named by the first token (IndexError without one,
      NotFound for an unknown name) gets x from the second token and y from the third,
      each only when present; a token that is no number raises ValueError, after the
      assignments already made. */
  function ApplyRecord(nodes: map<string, Node>, coords: map<Node, (real, real)>, vals: seq<string>,
                       parse: string -> Option<real>): (r: Applied)
    requires nodes.Values <= coords.Keys
    ensures r.coords.Keys == coords.Keys
    ensures |vals| == 0 <==> r.outcome == Fail(IndexError)
    ensures |vals| > 0 && vals[0] !in nodes ==> r == Applied(coords, Fail(StoreFailure(NotFound(vals[0]))))
    ensures forall m | m in coords && (|vals| == 0 || vals[0] !in nodes || m != nodes[vals[0]]) ::
              r.coords[m] == coords[m]
    ensures r.outcome.Pass? <==>
              && |vals| > 0 && vals[0] in nodes
              && (|vals| >= 2 ==> parse(vals[1]).Some? && (|vals| >= 3 ==> parse(vals[2]).Some?))
    ensures |vals| >= 2 && vals[0] in nodes && parse(vals[1]).None? ==>
              r.outcome == Fail(ValueError(vals[1]))
    ensures |vals| >= 3 && vals[0] in nodes && parse(vals[1]).Some? && parse(vals[2]).None? ==>
              r.outcome == Fail(ValueError(vals[2]))
    ensures |vals| > 0 && vals[0] in nodes ==>
              var n := nodes[vals[0]];
              && r.coords[n].0 == (if |vals| >= 2 && parse(vals[1]).Some? then parse(vals[1]).value
                                   else coords[n].0)
              && r.coords[n].1 == (if |vals| >= 3 && parse(vals[1]).Some? && parse(vals[2]).Some?
                                   then parse(vals[2]).value else coords[n].1)
  {
    if |vals| == 0 then Applied(coords, Fail(IndexError))
    else if vals[0] !in nodes then Applied(coords, Fail(StoreFailure(NotFound(vals[0]))))
    else
      var n := nodes[vals[0]];
      if |vals| == 1 then Applied(coords, Pass)
      else match parse(vals[1])
        case None => Applied(coords, Fail(ValueError(vals[1])))
        case Some(x) =>
          var c1 := coords[n := (x, coords[n].1)];
          if |vals| == 2 then Applied(c1, Pass)
          else match parse(vals[2])
            case None => Applied(c1, Fail(ValueError(vals[2])))
            case Some(y) => Applied(c1[n := (x, y)], Pass)
  }

  /** A COORDINATES block read record by record; the first exception ends the reading. */
  function ApplyBlock(nodes: map<string, Node>, coords: map<Node, (real, real)>, block: seq<Record>,
                      parse: string -> Option<real>): (r: Applied)
    requires nodes.Values <= coords.Keys
    ensures r.coords.Keys == coords.Keys
  {
    if block == [] then Applied(coords, Pass)
    else
      var prev := ApplyBlock(nodes, coords, block[..|block| - 1], parse);
      if prev.outcome.Fail? then prev
      else ApplyRecord(nodes, prev.coords, block[|block| - 1].values, parse)
  }

  lemma NodesAreObjects(network: Network)
    ensures AllNodes(network).Values <= network.NodeObjects()
  {
    forall n | n in AllNodes(network).Values ensures n in network.NodeObjects() {
      var k :| k in AllNodes(network) && AllNodes(network)[k] == n;
    }
  }

  /** Once reading has stopped, later records change nothing. */
  lemma {:induction false} FailureStops(nodes: map<string, Node>, coords: map<Node, (real, real)>,
                                        block: seq<Record>, k: nat, parse: string -> Option<real>)
    requires nodes.Values <= coords.Keys && k <= |block|
    requires ApplyBlock(nodes, coords, block[..k], parse).outcome.Fail?
    ensures ApplyBlock(nodes, coords, block, parse) == ApplyBlock(nodes, coords, block[..k], parse)
    decreases |block| - k
  {
    if k < |block| {
      assert block[..k + 1][..k] == block[..k];
      FailureStops(nodes, coords, block, k + 1, parse);
    } else {
      assert block[..k] == block;
    }
  }

  /** The body of `read_coordinates`' loop: one record applied to the nodes. */
  method ApplyCoordinateRecord(network: Network, vals: seq<string>, parse: string -> Option<real>)
      returns (r: Outcome<Error>)
    modifies network.NodeObjects()
    ensures AllNodes(network).Values <= network.NodeObjects()
    ensures var a := ApplyRecord(AllNodes(network), old(CoordsOf(network.NodeObjects())), vals, parse);
      r == a.outcome && CoordsOf(network.NodeObjects()) == a.coords
    ensures forall n :: n in network.NodeObjects() ==> n.OtherAttributes() == old(n.OtherAttributes())
  {
    ghost var objs := network.NodeObjects();
    ghost var others := OthersOf(objs);
    NodesAreObjects(network);
    if |vals| == 0 {
      return Fail(IndexError);
    }
    var j := GetNode(network, vals[0]);
    if j.Err? {
      return Fail(j.error);
    }
    var node := j.value;
    assert node == AllNodes(network)[vals[0]] && node in objs;
    if |vals| > 1 {
      var x := parse(vals[1]);
      if x.None? {
        return Fail(ValueError(vals[1]));
      }
      SetX(node, objs, x.value);
    }
    if |vals| > 2 {
      var y := parse(vals[2]);
      if y.None? {
        return Fail(ValueError(vals[2]));
      }
      SetY(node, objs, y.value);
    }
    r := Pass;
    assert OthersOf(objs) == others;
  }

  /** `node.xcoordinate = x`, seen through the coordinates of all the nodes. */
  method SetX(node: Node, ghost objs: set<Node>, x: real)
    requires node in objs
    modifies node
    ensures CoordsOf(objs) == old(CoordsOf(objs))[node := (x, old(node.ycoordinate))]
    ensures OthersOf(objs) == old(OthersOf(objs))
  {
    node.xcoordinate := x;
  }

  /** `node.ycoordinate = y`, seen through the coordinates of all the nodes. */
  method SetY(node: Node, ghost objs: set<Node>, y: real)
    requires node in objs
    modifies node
    ensures CoordsOf(objs) == old(CoordsOf(objs))[node := (old(node.xcoordinate), y)]
    ensures OthersOf(objs) == old(OthersOf(objs))
  {
    node.ycoordinate := y;
  }

  /** `read_coordinates`: the nodes' plane coordinates become what the records make of
      them, and nothing else of any node changes. */
  method ReadCoordinates(network: Network, block: seq<Record>, parse: string -> Option<real>)
      returns (r: Outcome<Error>)
    modifies network.NodeObjects()
    ensures AllNodes(network).Values <= network.NodeObjects()
    ensures var a := ApplyBlock(AllNodes(network), old(CoordsOf(network.NodeObjects())), block, parse);
      r == a.outcome && CoordsOf(network.NodeObjects()) == a.coords
    ensures forall n :: n in network.NodeObjects() ==> n.OtherAttributes() == old(n.OtherAttributes())
  {
    ghost var objs := network.NodeObjects();
    ghost var c0 := CoordsOf(objs);
    ghost var nodes := AllNodes(network);
    NodesAreObjects(network);
    var i := 0;
    while i < |block|
      invariant 0 <= i <= |block|
      invariant ApplyBlock(nodes, c0, block[..i], parse).outcome == Pass
      invariant CoordsOf(objs) == ApplyBlock(nodes, c0, block[..i], parse).coords
      invariant forall n :: n in objs ==> n.OtherAttributes() == old(n.OtherAttributes())
    {
      assert block[..i + 1][..i] == block[..i];
      assert block[..i + 1][i] == block[i];
      r := ApplyCoordinateRecord(network, block[i].values, parse);
      if r.Fail? {
        FailureStops(nodes, c0, block, i + 1, parse);
        return;
      }
      i := i + 1;
    }
    assert block[..|block|] == block;
    r := Pass;
  }

  /** Tokens after the third play no part. */
  function FirstThree(block: seq<Record>): (r: seq<Record>)
    ensures |r| == |block|
    ensures forall i :: 0 <= i < |r| ==>
      r[i].values == (if |block[i].values| <= 3 then block[i].values else block[i].values[..3])
  {
    seq(|block|, i requires 0 <= i < |block| =>
      Record(if |block[i].values| <= 3 then block[i].values else block[i].values[..3], block[i].comments))
  }

  /** Cutting every record to its first three tokens reads the same. */
  lemma {:induction false} ExtraTokensIgnored(nodes: map<string, Node>, coords: map<Node, (real, real)>,
                                              block: seq<Record>, parse: string -> Option<real>)
    requires nodes.Values <= coords.Keys
    ensures ApplyBlock(nodes, coords, FirstThree(block), parse) == ApplyBlock(nodes, coords, block, parse)
  {
    if block != [] {
      var front := block[..|block| - 1];
      assert FirstThree(block)[..|block| - 1] == FirstThree(front);
      ExtraTokensIgnored(nodes, coords, front, parse);
    }
  }

  /** A record with only a node name changes nothing. */
  lemma NameOnlyChangesNothing(nodes: map<string, Node>, coords: map<Node, (real, real)>, id: string,
                               parse: string -> Option<real>)
    requires nodes.Values <= coords.Keys && id in nodes
    ensures ApplyRecord(nodes, coords, [id], parse) == Applied(coords, Pass)
  {
  }

  /** The last record for a node decides its coordinates. */
  lemma LastRecordWins(nodes: map<string, Node>, coords: map<Node, (real, real)>, pre: seq<Record>,
                       rec: Record, parse: string -> Option<real>)
    requires nodes.Values <= coords.Keys
    requires ApplyBlock(nodes, coords, pre, parse).outcome.Pass?
    requires |rec.values| >= 3 && rec.values[0] in nodes
    requires parse(rec.values[1]).Some? && parse(rec.values[2]).Some?
    ensures ApplyBlock(nodes, coords, pre + [rec], parse).outcome.Pass?
    ensures ApplyBlock(nodes, coords, pre + [rec], parse).coords[nodes[rec.values[0]]]
              == (parse(rec.values[1]).value, parse(rec.values[2]).value)
  {
    ApplyBlockSnoc(nodes, coords, pre, rec, parse);
    RecordSetsBoth(nodes, ApplyBlock(nodes, coords, pre, parse).coords, rec.values, parse);
  }

  /** After records that raised nothing, one more record is applied to their result. */
  lemma ApplyBlockSnoc(nodes: map<string, Node>, coords: map<Node, (real, real)>, pre: seq<Record>,
                       rec: Record, parse: string -> Option<real>)
    requires nodes.Values <= coords.Keys
    requires ApplyBlock(nodes, coords, pre, parse).outcome.Pass?
    ensures ApplyBlock(nodes, coords, pre + [rec], parse)
              == ApplyRecord(nodes, ApplyBlock(nodes, coords, pre, parse).coords, rec.values, parse)
  {
    var block := pre + [rec];
    assert block[..|block| - 1] == pre && block[|block| - 1] == rec;
  }

  /** A record with a known name and two numbers sets both coordinates of that node. */
  lemma RecordSetsBoth(nodes: map<string, Node>, coords: map<Node, (real, real)>, vals: seq<string>,
                       parse: string -> Option<real>)
    requires nodes.Values <= coords.Keys
    requires |vals| >= 3 && vals[0] in nodes
    requires parse(vals[1]).Some? && parse(vals[2]).Some?
    ensures ApplyRecord(nodes, coords, vals, parse).outcome.Pass?
    ensures ApplyRecord(nodes, coords, vals, parse).coords[nodes[vals[0]]]
              == (parse(vals[1]).value, parse(vals[2]).value)
  {
  }

  /** Whether some record of the block names node `n`. */
  predicate Named(nodes: map<string, Node>, block: seq<Record>, n: Node)
  {
    exists i :: 0 <= i < |block| && |block[i].values| > 0 && block[i].values[0] in nodes
                && nodes[block[i].values[0]] == n
  }

  /** A node no record names keeps its coordinates. */
  lemma {:induction false} UnnamedNodesKeepCoords(nodes: map<string, Node>, coords: map<Node, (real, real)>,
                                                  block: seq<Record>, parse: string -> Option<real>, n: Node)
    requires nodes.Values <= coords.Keys && n in coords
    requires !Named(nodes, block, n)
    ensures ApplyBlock(nodes, coords, block, parse).coords[n] == coords[n]
  {
    if block != [] {
      var front := block[..|block| - 1];
      UnnamedNodesKeepCoords(nodes, coords, front, parse, n);
    }
  }

  /** `read_vertices`, `read_labels`, `read_backdrop`, `read_tags`: not implemented by the
      source; they accept any block and change nothing. */
  method ReadVertices(network: Network, block: seq<Record>) returns (r: Outcome<Error>)
    ensures r == Pass
  {
    r := Pass;
  }

  method ReadLabels(network: Network, block: seq<Record>) returns (r: Outcome<Error>)
    ensures r == Pass
  {
    r := Pass;
  }

  method ReadBackdrop(network: Network, block: seq<Record>) returns (r: Outcome<Error>)
    ensures r == Pass
  {
    r := Pass;
  }

  method ReadTags(network: Network, block: seq<Record>) returns (r: Outcome<Error>)
    ensures r == Pass
  {
    r := Pass;
  }

  /** The registrations `@section_reader` gives the five map readers. */
  const Registrations: seq<Registration> := [
    Registration("COORDINATES", "read_coordinates", 4, Some(CoordinatesReader)),
    Registration("VERTICES", "read_vertices", 4, Some(VerticesReader)),
    Registration("LABELS", "read_labels", 4, Some(LabelsReader)),
    Registration("BACKDROP", "read_backdrop", 4, Some(BackdropReader)),
    Registration("TAGS", "read_tags", 4, Some(TagsReader))
  ]
}
