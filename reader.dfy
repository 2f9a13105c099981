/** `read`: an EPANET input file becomes a network. The file is split into blocks, the
    registered section readers run in ascending priority (ties in the order they were
    found) for the sections the file has, missing report and times settings get their
    defaults, and the unit converter runs once.

    Which reader functions exist is found by `list_all_functions_with_decorator`, which
    is not part of this model: the registrations are a parameter. Of the readers, those
    of the map sections are modelled. The readers of the other sections are not part of
    this model: what they make of the title and the report and times settings, and what
    they raise, is a parameter, and they add no element. */
module Reader {
  import opened Wrappers
  import opened ElementStore
  import opened Exceptions
  import opened Elements
  import opened Getters
  import opened Splitter
  import opened Decorators
  import opened MapTags

  // ---------------------------------------------------------------------------
  // `sorted(all_functions, key=lambda x: x.priority)`

  predicate SortedByPriority(s: seq<Registration>)
  {
    forall i, j :: 0 <= i < j < |s| ==> s[i].priority <= s[j].priority
  }

  /** `x` placed before the first registration whose priority is not below its own. */
  function Insert(x: Registration, s: seq<Registration>): (r: seq<Registration>)
    ensures multiset(r) == multiset(s) + multiset{x}
  {
    if s == [] then [x]
    else if x.priority <= s[0].priority then [x] + s
    else
      assert s == [s[0]] + s[1..];
      [s[0]] + Insert(x, s[1..])
  }

  /** A stable sort by priority: each registration is inserted ahead of the later ones of
      equal priority. */
  function SortByPriority(s: seq<Registration>): (r: seq<Registration>)
  {
    if s == [] then [] else Insert(s[0], SortByPriority(s[1..]))
  }

  /** Every registration `Insert` can place below the front of `s` ranks no lower than it. */
  lemma {:induction false} InsertSorted(x: Registration, s: seq<Registration>)
    requires SortedByPriority(s)
    ensures SortedByPriority(Insert(x, s))
    ensures |Insert(x, s)| == |s| + 1
    ensures Insert(x, s)[0] == x || (s != [] && Insert(x, s)[0] == s[0])
  {
    if s == [] {
    } else if x.priority <= s[0].priority {
      ConsSorted(x, s);
    } else {
      SortedTail(s);
      var t := Insert(x, s[1..]);
      InsertSorted(x, s[1..]);
      assert t[0] == x || t[0] == s[1];
      ConsSorted(s[0], t);
    }
  }

  /** A registration that ranks no lower than the front of a sorted list can go in front. */
  lemma ConsSorted(a: Registration, t: seq<Registration>)
    requires SortedByPriority(t) && (t != [] ==> a.priority <= t[0].priority)
    ensures SortedByPriority([a] + t)
  {
    var r := [a] + t;
    forall i, j | 0 <= i < j < |r| ensures r[i].priority <= r[j].priority {
      assert r[j] == t[j - 1];
      if i > 0 {
        assert r[i] == t[i - 1];
      } else if j > 1 {
        assert t[0].priority <= t[j - 1].priority;
      }
    }
  }

  lemma SortedTail(s: seq<Registration>)
    requires s != [] && SortedByPriority(s)
    ensures SortedByPriority(s[1..])
  {
    forall i, j | 0 <= i < j < |s| - 1 ensures s[1..][i].priority <= s[1..][j].priority {
      assert s[1..][i] == s[i + 1] && s[1..][j] == s[j + 1];
    }
  }

  /** The sorted registrations are in ascending priority. */
  lemma {:induction false} SortSorted(s: seq<Registration>)
    ensures SortedByPriority(SortByPriority(s))
    ensures |SortByPriority(s)| == |s|
  {
    if s != [] {
      SortSorted(s[1..]);
      InsertSorted(s[0], SortByPriority(s[1..]));
    }
  }

  /** Sorting loses and adds no registration. */
  lemma {:induction false} SortPermutes(s: seq<Registration>)
    ensures multiset(SortByPriority(s)) == multiset(s)
  {
    if s != [] {
      SortPermutes(s[1..]);
      assert s == [s[0]] + s[1..];
    }
  }

  /** The registrations of one priority, in order. */
  function WithPriority(s: seq<Registration>, p: int): (r: seq<Registration>)
    ensures forall x :: x in r ==> x in s && x.priority == p
  {
    if s == [] then []
    else (if s[0].priority == p then [s[0]] else []) + WithPriority(s[1..], p)
  }

  lemma {:induction false} InsertStable(x: Registration, s: seq<Registration>, p: int)
    ensures WithPriority(Insert(x, s), p)
              == (if x.priority == p then [x] else []) + WithPriority(s, p)
  {
    if s == [] {
      WithPriorityCons(x, [], p);
    } else if x.priority <= s[0].priority {
      WithPriorityCons(x, s, p);
    } else {
      var t := Insert(x, s[1..]);
      assert Insert(x, s) == [s[0]] + t;
      var xs: seq<Registration> := if x.priority == p then [x] else [];
      var ys: seq<Registration> := if s[0].priority == p then [s[0]] else [];
      var rest := WithPriority(s[1..], p);
      InsertStable(x, s[1..], p);
      WithPriorityCons(s[0], t, p);
      WithPriorityCons(s[0], s[1..], p);
      assert s == [s[0]] + s[1..];
      SwapEmpty(xs, ys, rest);
    }
  }

  /** Two lists of which one is empty can be put in either order. */
  lemma SwapEmpty<T>(xs: seq<T>, ys: seq<T>, rest: seq<T>)
    requires xs == [] || ys == []
    ensures ys + (xs + rest) == xs + (ys + rest)
  {
    if xs == [] {
      assert xs + rest == rest;
      assert xs + (ys + rest) == ys + rest;
    } else {
      assert ys + (xs + rest) == xs + rest;
      assert ys + rest == rest;
    }
  }

  /** The registrations of one priority in a list with one more registration in front. */
  lemma WithPriorityCons(y: Registration, t: seq<Registration>, p: int)
    ensures WithPriority([y] + t, p) == (if y.priority == p then [y] else []) + WithPriority(t, p)
  {
    assert ([y] + t)[1..] == t;
  }

  /** The sort is stable: registrations of equal priority keep the order they were found in. */
  lemma {:induction false} SortStable(s: seq<Registration>, p: int)
    ensures WithPriority(SortByPriority(s), p) == WithPriority(s, p)
  {
    if s != [] {
      SortStable(s[1..], p);
      InsertStable(s[0], SortByPriority(s[1..]), p);
    }
  }

  // ---------------------------------------------------------------------------
  // Which readers run

  /** The registrations whose section is one of `keys`, in order. */
  function Present(s: seq<Registration>, keys: set<string>): (r: seq<Registration>)
  {
    if s == [] then []
    else
      var last := s[|s| - 1];
      var front := Present(s[..|s| - 1], keys);
      if last.sectionname in keys then front + [last] else front
  }

  /** The readers `read` calls, in the order it calls them. */
  function Plan(registrations: seq<Registration>, keys: set<string>): seq<Registration>
  {
    Present(SortByPriority(registrations), keys)
  }

  /** Each registration is kept as often as it occurs when its section is present, and
      dropped otherwise. */
  lemma {:induction false} PresentCount(s: seq<Registration>, keys: set<string>, x: Registration)
    ensures multiset(Present(s, keys))[x] == (if x.sectionname in keys then multiset(s)[x] else 0)
  {
    if s != [] {
      assert s == s[..|s| - 1] + [s[|s| - 1]];
      PresentCount(s[..|s| - 1], keys, x);
    }
  }

  /** Only registrations of present sections are kept. */
  lemma {:induction false} PresentMembers(s: seq<Registration>, keys: set<string>)
    ensures forall x :: x in Present(s, keys) ==> x in s && x.sectionname in keys
  {
    if s != [] {
      PresentMembers(s[..|s| - 1], keys);
    }
  }

  /** Leaving registrations out keeps the priority order. */
  lemma {:induction false} PresentSorted(s: seq<Registration>, keys: set<string>)
    requires SortedByPriority(s)
    ensures SortedByPriority(Present(s, keys))
  {
    if s != [] {
      var front := s[..|s| - 1];
      var last := s[|s| - 1];
      assert SortedByPriority(front);
      PresentSorted(front, keys);
      PresentMembers(front, keys);
      if last.sectionname in keys {
        var r := Present(front, keys) + [last];
        forall i, j | 0 <= i < j < |r| ensures r[i].priority <= r[j].priority {
          if j == |r| - 1 {
            assert r[i] in front;
            var k :| 0 <= k < |front| && front[k] == r[i];
            assert s[k] == r[i];
          } else {
            assert r[i] == Present(front, keys)[i] && r[j] == Present(front, keys)[j];
          }
        }
      }
    }
  }

  /** The readers that run on the registrations found so far are the first readers that
      run on all of them. */
  lemma {:induction false} PresentPrefix(s: seq<Registration>, keys: set<string>, i: nat)
    requires i <= |s|
    ensures Present(s[..i], keys) <= Present(s, keys)
    decreases |s| - i
  {
    if i < |s| {
      PresentPrefix(s, keys, i + 1);
      assert s[..i + 1][..i] == s[..i];
    } else {
      assert s[..i] == s;
    }
  }

  /** One more registration is kept exactly when its section is present. */
  lemma PresentSnoc(s: seq<Registration>, keys: set<string>, i: nat)
    requires i < |s|
    ensures Present(s[..i + 1], keys)
              == Present(s[..i], keys) + (if s[i].sectionname in keys then [s[i]] else [])
  {
    assert s[..i + 1][..i] == s[..i] && s[..i + 1][i] == s[i];
  }

  /** What `read` promises of the order of its calls: ascending priority, ties in the
      order found, only sections the file has, and each registration exactly as often as
      it was found when its section is present. */
  lemma PlanProperties(registrations: seq<Registration>, keys: set<string>, x: Registration, p: int)
    ensures SortedByPriority(Plan(registrations, keys))
    ensures forall y :: y in Plan(registrations, keys) ==> y.sectionname in keys
    ensures multiset(Plan(registrations, keys))[x]
              == (if x.sectionname in keys then multiset(registrations)[x] else 0)
    ensures WithPriority(SortByPriority(registrations), p) == WithPriority(registrations, p)
  {
    var sorted := SortByPriority(registrations);
    SortSorted(registrations);
    PresentSorted(sorted, keys);
    PresentMembers(sorted, keys);
    PresentCount(sorted, keys, x);
    SortPermutes(registrations);
    SortStable(registrations, p);
  }

  // ---------------------------------------------------------------------------
  // What the readers do

  /** A network's title, report settings and times settings. */
  datatype Globals = Globals(title: Option<string>, report: Option<Settings>, times: Option<Settings>)

  function GlobalsOf(network: Network): (g: Globals)
    reads network
    ensures g.title == network.title && g.report == network.report && g.times == network.times
  {
    Globals(network.title, network.report, network.times)
  }

  /** What a reader of a section outside this model (JUNCTIONS, PIPES, OPTIONS, REPORT,
      TIMES, ...) makes of the title and settings, given its name, its block and the
      title and settings before the call, and what it raises. */
  datatype Effect = Effect(globals: Globals, outcome: Outcome<Error>)
  type OtherEffect = (string, seq<Record>, Globals) -> Effect

  /** The node coordinates and the globals after some readers, and whether one raised. */
  datatype ReadState = ReadState(coords: map<Node, (real, real)>, globals: Globals, outcome: Outcome<Error>)

  /** One reader called on its block. A registration without a function raises TypeError
      (None is not callable). */
  function HandlerEffect(nodes: map<string, Node>, coords: map<Node, (real, real)>, g: Globals,
                         block: seq<Record>, h: Option<Handler>, parse: string -> Option<real>,
                         other: OtherEffect): (r: ReadState)
    requires nodes.Values <= coords.Keys
    ensures r.coords.Keys == coords.Keys
    ensures h != Some(CoordinatesReader) ==> r.coords == coords
    ensures !(h.Some? && h.value.OtherReader?) ==> r.globals == g
    ensures h.None? ==> r.outcome.Fail?
  {
    match h
    case None => ReadState(coords, g, Fail(TypeError("'NoneType' object is not callable")))
    case Some(CoordinatesReader) =>
      var a := ApplyBlock(nodes, coords, block, parse);
      ReadState(a.coords, g, a.outcome)
    case Some(OtherReader(name)) =>
      var e := other(name, block, g);
      ReadState(coords, e.globals, e.outcome)
    case Some(_) => ReadState(coords, g, Pass)
  }

  /** The readers of the registrations whose section is present called one after the
      other, in order; the first exception ends `read`. */
  function Dispatched(nodes: map<string, Node>, coords: map<Node, (real, real)>, g: Globals,
                      blocks: map<string, seq<Record>>, regs: seq<Registration>,
                      parse: string -> Option<real>, other: OtherEffect): (r: ReadState)
    requires nodes.Values <= coords.Keys
    ensures r.coords.Keys == coords.Keys
  {
    if regs == [] then ReadState(coords, g, Pass)
    else
      var last := regs[|regs| - 1];
      var prev := Dispatched(nodes, coords, g, blocks, regs[..|regs| - 1], parse, other);
      if prev.outcome.Fail? || last.sectionname !in blocks then prev
      else HandlerEffect(nodes, prev.coords, prev.globals, blocks[last.sectionname], last.readerfunction,
                         parse, other)
  }

  /** After readers that raised nothing, the next registration's reader acts on their
      result if its section is present. */
  lemma DispatchedSnoc(nodes: map<string, Node>, coords: map<Node, (real, real)>, g: Globals,
                       blocks: map<string, seq<Record>>, regs: seq<Registration>, i: nat,
                       parse: string -> Option<real>, other: OtherEffect)
    requires nodes.Values <= coords.Keys && i < |regs|
    requires Dispatched(nodes, coords, g, blocks, regs[..i], parse, other).outcome.Pass?
    ensures var prev := Dispatched(nodes, coords, g, blocks, regs[..i], parse, other);
      Dispatched(nodes, coords, g, blocks, regs[..i + 1], parse, other)
        == if regs[i].sectionname in blocks
           then HandlerEffect(nodes, prev.coords, prev.globals, blocks[regs[i].sectionname],
                              regs[i].readerfunction, parse, other)
           else prev
  {
    assert regs[..i + 1][..i] == regs[..i] && regs[..i + 1][i] == regs[i];
  }

  /** Once a reader has raised, the later readers change nothing. */
  lemma {:induction false} DispatchStops(nodes: map<string, Node>, coords: map<Node, (real, real)>, g: Globals,
                                         blocks: map<string, seq<Record>>, regs: seq<Registration>,
                                         k: nat, parse: string -> Option<real>, other: OtherEffect)
    requires nodes.Values <= coords.Keys && k <= |regs|
    requires Dispatched(nodes, coords, g, blocks, regs[..k], parse, other).outcome.Fail?
    ensures Dispatched(nodes, coords, g, blocks, regs, parse, other)
              == Dispatched(nodes, coords, g, blocks, regs[..k], parse, other)
    decreases |regs| - k
  {
    if k < |regs| {
      assert regs[..k + 1][..k] == regs[..k];
      DispatchStops(nodes, coords, g, blocks, regs, k + 1, parse, other);
    } else {
      assert regs[..k] == regs;
    }
  }

  /** Without COORDINATES among the readers, no coordinate changes. */
  lemma {:induction false} NoCoordinatesReaderNoChange(nodes: map<string, Node>, coords: map<Node, (real, real)>,
                                                       g: Globals, blocks: map<string, seq<Record>>,
                                                       regs: seq<Registration>, parse: string -> Option<real>,
                                                       other: OtherEffect)
    requires nodes.Values <= coords.Keys
    requires forall x :: x in regs ==> x.readerfunction != Some(CoordinatesReader)
    ensures Dispatched(nodes, coords, g, blocks, regs, parse, other).coords == coords
  {
    if regs != [] {
      NoCoordinatesReaderNoChange(nodes, coords, g, blocks, regs[..|regs| - 1], parse, other);
    }
  }

  /** Only the readers of the sections outside this model set the title and settings:
      without them, the title and settings stay as they were. */
  lemma {:induction false} MapReadersKeepGlobals(nodes: map<string, Node>, coords: map<Node, (real, real)>,
                                                 g: Globals, blocks: map<string, seq<Record>>,
                                                 regs: seq<Registration>, parse: string -> Option<real>,
                                                 other: OtherEffect)
    requires nodes.Values <= coords.Keys
    requires forall x :: x in regs ==> !(x.readerfunction.Some? && x.readerfunction.value.OtherReader?)
    ensures Dispatched(nodes, coords, g, blocks, regs, parse, other).globals == g
  {
    if regs != [] {
      MapReadersKeepGlobals(nodes, coords, g, blocks, regs[..|regs| - 1], parse, other);
    }
  }

  /** A registration whose section the file lacks is never called: leaving it out
      changes nothing. */
  lemma {:induction false} AbsentSectionsIgnored(nodes: map<string, Node>, coords: map<Node, (real, real)>,
                                                 g: Globals, blocks: map<string, seq<Record>>,
                                                 regs: seq<Registration>, parse: string -> Option<real>,
                                                 other: OtherEffect)
    requires nodes.Values <= coords.Keys
    ensures Dispatched(nodes, coords, g, blocks, Present(regs, blocks.Keys), parse, other)
              == Dispatched(nodes, coords, g, blocks, regs, parse, other)
  {
    if regs != [] {
      var front := regs[..|regs| - 1];
      var last := regs[|regs| - 1];
      AbsentSectionsIgnored(nodes, coords, g, blocks, front, parse, other);
      if last.sectionname in blocks {
        var p := Present(front, blocks.Keys) + [last];
        assert p[..|p| - 1] == Present(front, blocks.Keys);
      }
    }
  }

  /** A reader of a section outside this model sets the title and settings its effect
      gives. */
  method CallOther(network: Network, name: string, block: seq<Record>, other: OtherEffect, ghost objs: set<Node>)
      returns (r: Outcome<Error>)
    modifies network
    ensures var e := other(name, block, old(GlobalsOf(network)));
      r == e.outcome && GlobalsOf(network) == e.globals
    ensures network.Snapshot() == old(network.Snapshot()) && network.conversions == old(network.conversions)
    ensures AllNodes(network) == old(AllNodes(network)) && network.NodeObjects() == old(network.NodeObjects())
    ensures CoordsOf(objs) == old(CoordsOf(objs)) && OthersOf(objs) == old(OthersOf(objs))
  {
    var e := other(name, block, GlobalsOf(network));
    network.title, network.report, network.times := e.globals.title, e.globals.report, e.globals.times;
    r := e.outcome;
  }

  /** One of the readers of the map sections called on the network. */
  method CallMapReader(network: Network, block: seq<Record>, h: Handler, parse: string -> Option<real>)
      returns (r: Outcome<Error>)
    requires !h.OtherReader?
    modifies network.NodeObjects()
    ensures AllNodes(network).Values <= network.NodeObjects()
    ensures var a := HandlerEffect(AllNodes(network), old(CoordsOf(network.NodeObjects())), Globals(None, None, None),
                                   block, Some(h), parse, (_, _, g) => Effect(g, Pass));
      r == a.outcome && CoordsOf(network.NodeObjects()) == a.coords
    ensures forall n :: n in network.NodeObjects() ==> n.OtherAttributes() == old(n.OtherAttributes())
  {
    NodesAreObjects(network);
    if h == CoordinatesReader {
      r := ReadCoordinates(network, block, parse);
    } else {
      r := CallNoOpReader(network, block, h);
    }
  }

  /** One of the map readers that read nothing. */
  method CallNoOpReader(network: Network, block: seq<Record>, h: Handler) returns (r: Outcome<Error>)
    requires !h.OtherReader? && h != CoordinatesReader
    ensures r == Pass
  {
    match h {
      case VerticesReader =>
        r := ReadVertices(network, block);
      case LabelsReader =>
        r := ReadLabels(network, block);
      case BackdropReader =>
        r := ReadBackdrop(network, block);
      case TagsReader =>
        r := ReadTags(network, block);
    }
  }

  /** One reader called on the network. */
  method CallHandler(network: Network, block: seq<Record>, h: Option<Handler>, parse: string -> Option<real>,
                     other: OtherEffect)
      returns (r: Outcome<Error>)
    modifies network, network.NodeObjects()
    ensures network.Snapshot() == old(network.Snapshot()) && network.conversions == old(network.conversions)
    ensures AllNodes(network) == old(AllNodes(network)) && network.NodeObjects() == old(network.NodeObjects())
    ensures AllNodes(network).Values <= network.NodeObjects()
    ensures var a := HandlerEffect(AllNodes(network), old(CoordsOf(network.NodeObjects())), old(GlobalsOf(network)),
                                   block, h, parse, other);
      r == a.outcome && CoordsOf(network.NodeObjects()) == a.coords && GlobalsOf(network) == a.globals
    ensures forall n :: n in network.NodeObjects() ==> n.OtherAttributes() == old(n.OtherAttributes())
  {
    NodesAreObjects(network);
    if h.None? {
      r := Fail(TypeError("'NoneType' object is not callable"));
    } else if h.value.OtherReader? {
      r := CallOther(network, h.value.name, block, other, network.NodeObjects());
    } else {
      r := CallMapReader(network, block, h.value, parse);
    }
  }

  /** What `read` does once the readers are done: a report and times settings with
      their defaults where the network has none after the readers ran, then `convert`,
      the unit converter, which is not part of this model beyond being counted. */
  method Finish(network: Network, ghost nodes: set<Node>)
    modifies network
    ensures network.report == (if old(network.report).None? then Some(DefaultSettings) else old(network.report))
    ensures network.times == (if old(network.times).None? then Some(DefaultSettings) else old(network.times))
    ensures network.conversions == old(network.conversions) + 1
    ensures network.Snapshot() == old(network.Snapshot()) && network.title == old(network.title)
    ensures CoordsOf(nodes) == old(CoordsOf(nodes)) && OthersOf(nodes) == old(OthersOf(nodes))
  {
    if network.report.None? {
      network.report := Some(DefaultSettings);
    }
    if network.times.None? {
      network.times := Some(DefaultSettings);
    }
    network.conversions := network.conversions + 1;
  }

  /** The loop of `read`: the readers of the sorted registrations whose section is
      present, called in order until one raises. `ran` is the readers called, in order. */
  method Dispatch(network: Network, blocks: Store<seq<Record>>, sorted: seq<Registration>,
                  parse: string -> Option<real>, other: OtherEffect)
      returns (r: Outcome<Error>, ran: seq<Registration>)
    modifies network, network.NodeObjects()
    ensures network.Snapshot() == old(network.Snapshot()) && network.conversions == old(network.conversions)
    ensures AllNodes(network) == old(AllNodes(network)) && network.NodeObjects() == old(network.NodeObjects())
    ensures forall n :: n in network.NodeObjects() ==> n.OtherAttributes() == old(n.OtherAttributes())
    ensures AllNodes(network).Values <= network.NodeObjects()
    ensures ran <= Present(sorted, blocks.items.Keys)
    ensures r.Pass? ==> ran == Present(sorted, blocks.items.Keys)
    ensures r.Fail? ==> ran != []
    ensures var a := Dispatched(AllNodes(network), old(CoordsOf(network.NodeObjects())), old(GlobalsOf(network)),
                                blocks.items, sorted, parse, other);
      r == a.outcome && CoordsOf(network.NodeObjects()) == a.coords && GlobalsOf(network) == a.globals
  {
    ghost var objs := network.NodeObjects();
    ghost var c0 := CoordsOf(objs);
    ghost var g0 := GlobalsOf(network);
    ghost var nodes := AllNodes(network);
    ghost var keys := blocks.items.Keys;
    NodesAreObjects(network);
    r := Pass;
    ran := [];
    var i := 0;
    while i < |sorted|
      invariant 0 <= i <= |sorted|
      invariant network.Snapshot() == old(network.Snapshot()) && network.conversions == old(network.conversions)
      invariant AllNodes(network) == nodes && network.NodeObjects() == objs
      invariant ran == Present(sorted[..i], keys)
      invariant r == Pass && Dispatched(nodes, c0, g0, blocks.items, sorted[..i], parse, other).outcome == Pass
      invariant CoordsOf(objs) == Dispatched(nodes, c0, g0, blocks.items, sorted[..i], parse, other).coords
      invariant GlobalsOf(network) == Dispatched(nodes, c0, g0, blocks.items, sorted[..i], parse, other).globals
      invariant forall n :: n in objs ==> n.OtherAttributes() == old(n.OtherAttributes())
    {
      var f := sorted[i];
      PresentSnoc(sorted, keys, i);
      DispatchedSnoc(nodes, c0, g0, blocks.items, sorted, i, parse, other);
      if f.sectionname in blocks.items {
        ran := ran + [f];
        r := CallHandler(network, blocks.items[f.sectionname], f.readerfunction, parse, other);
        if r.Fail? {
          PresentPrefix(sorted, keys, i + 1);
          DispatchStops(nodes, c0, g0, blocks.items, sorted, i + 1, parse, other);
          return;
        }
      }
      i := i + 1;
    }
    assert sorted[..|sorted|] == sorted;
  }

  /** The part of `read` after splitting: the readers of the present sections in priority
      order, then the default report and times where the readers left none, then one
      conversion. An exception from a reader ends it before the defaults and the
      conversion. `ran` is the readers called, in order. */
  method RunReaders(network: Network, blocks: Store<seq<Record>>, registrations: seq<Registration>,
                    parse: string -> Option<real>, other: OtherEffect)
      returns (r: Outcome<Error>, ran: seq<Registration>)
    modifies network, network.NodeObjects()
    ensures network.Snapshot() == old(network.Snapshot())
    ensures forall n :: n in network.NodeObjects() ==> n.OtherAttributes() == old(n.OtherAttributes())
    ensures ran <= Plan(registrations, blocks.items.Keys)
    ensures r.Pass? ==> ran == Plan(registrations, blocks.items.Keys)
    ensures r.Fail? ==> ran != []
    ensures var a := Dispatched(AllNodes(network), old(CoordsOf(network.NodeObjects())), old(GlobalsOf(network)),
                                blocks.items, SortByPriority(registrations), parse, other);
      && r == a.outcome && CoordsOf(network.NodeObjects()) == a.coords
      && network.title == a.globals.title
      && (r.Pass? ==>
           && network.report == (if a.globals.report.None? then Some(DefaultSettings) else a.globals.report)
           && network.times == (if a.globals.times.None? then Some(DefaultSettings) else a.globals.times)
           && network.conversions == old(network.conversions) + 1)
      && (r.Fail? ==>
           && network.report == a.globals.report && network.times == a.globals.times
           && network.conversions == old(network.conversions))
  {
    var sorted := SortByPriority(registrations);
    r, ran := Dispatch(network, blocks, sorted, parse, other);
    if r.Fail? {
      return;
    }
    ghost var nodes := AllNodes(network);
    ghost var objs := network.NodeObjects();
    Finish(network, objs);
    assert AllNodes(network) == nodes && network.NodeObjects() == objs;
  }

  /** `read`: a new network, the file split into blocks, and the readers run on them. */
  method Read(lines: seq<string>, registrations: seq<Registration>, parse: string -> Option<real>,
              other: OtherEffect)
      returns (network: Network, r: Outcome<Error>, ran: seq<Registration>)
    ensures fresh(network) && network.Valid()
    ensures network.Snapshot() == Tables(Empty(), Empty(), Empty(), Empty(), Empty(), Empty(), Empty(), Empty(), Empty())
    ensures ran <= Plan(registrations, SplitLines(lines).blocks.items.Keys)
    ensures r.Pass? ==> ran == Plan(registrations, SplitLines(lines).blocks.items.Keys)
    ensures var a := Dispatched(map[], map[], Globals(None, None, None), SplitLines(lines).blocks.items,
                                SortByPriority(registrations), parse, other);
      && r == a.outcome && network.title == a.globals.title
      && (r.Pass? ==>
           && network.report == (if a.globals.report.None? then Some(DefaultSettings) else a.globals.report)
           && network.times == (if a.globals.times.None? then Some(DefaultSettings) else a.globals.times)
           && network.conversions == 1)
      && (r.Fail? ==>
           && network.report == a.globals.report && network.times == a.globals.times
           && network.conversions == 0)
  {
    network := new Network();
    var blocks := FileSplitter(lines);
    assert AllNodes(network) == map[];
    assert network.NodeObjects() == {};
    r, ran := RunReaders(network, blocks, registrations, parse, other);
  }
}
