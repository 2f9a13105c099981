/** The writers of the title and element sections of an EPANET input file. Each section
    writer prints its `[NAME]` header and a `;` column comment, then one record per
    element of its store in iteration order: the ID, each attribute that is not None in
    the fixed column order, `; <comment>` when there is a comment, and an end of record.
    The emitter section lists the junctions with a positive emitter coefficient.

    The output file is modelled as the sequence of `print` calls made on it. Numbers and
    curves are printed as they are; their formatting is not part of this model. */
module Writer {
  import opened Wrappers
  import opened ElementStore
  import opened Exceptions
  import opened Elements

  /** A value handed to `print`. */
  datatype Item = Text(text: string) | Number(value: real) | CurveItem(curve: Curve)

  /** One `print` call: its items, written separated by single spaces, and its `end`. */
  datatype Printed = Printed(items: seq<Item>, end: string)

  /** The output file, as the `print` calls made on it so far. */
  class TextFile {
    var printed: seq<Printed>

    constructor ()
      ensures printed == []
    {
      printed := [];
    }

    method Print(items: seq<Item>, end: string)
      modifies this
      ensures printed == old(printed) + [Printed(items, end)]
    {
      printed := printed + [Printed(items, end)];
    }
  }

  /** What some writing printed, and whether it ended with an exception. */
  datatype Written = Written(prints: seq<Printed>, outcome: Outcome<Error>)

  /** One column of a record: an attribute to print, an attribute that is None and is
      skipped, or an attribute whose reading raises. */
  datatype Cell = Present(item: Item) | Absent | Raise(error: Error)

  /** The `print('\n', end=' ')` that ends every record. */
  const RecordEnd := Printed([Text("\n")], " ")

  // ---------------------------------------------------------------------------
  // One record

  /** The columns of a record printed in order, up to the first one that raises. */
  function CellPrints(cells: seq<Cell>): (r: Written)
    ensures forall k :: 0 <= k < |r.prints| ==> |r.prints[k].items| == 1 && r.prints[k].end == " "
  {
    if cells == [] then Written([], Pass)
    else
      var prev := CellPrints(cells[..|cells| - 1]);
      if prev.outcome.Fail? then prev
      else match cells[|cells| - 1]
        case Present(x) => Written(prev.prints + [Printed([x], " ")], Pass)
        case Absent => prev
        case Raise(e) => Written(prev.prints, Fail(e))
  }

  function CommentPrints(comment: Option<string>): seq<Printed>
  {
    if comment.Some? then [Printed([Text(";"), Text(comment.value)], " ")] else []
  }

  /** One record: the ID, the columns, and, unless a column raised, the comment and the
      end of record. */
  function Record(id: string, cells: seq<Cell>, comment: Option<string>): (r: Written)
    ensures r.outcome == CellPrints(cells).outcome
    ensures |r.prints| >= 1 && r.prints[0] == Printed([Text(id)], " ")
  {
    var c := CellPrints(cells);
    if c.outcome.Fail? then Written([Printed([Text(id)], " ")] + c.prints, c.outcome)
    else Written([Printed([Text(id)], " ")] + c.prints + CommentPrints(comment) + [RecordEnd], Pass)
  }

  /** The items of the columns that are present, in order. */
  function PresentItems(cells: seq<Cell>): (r: seq<Item>)
    ensures |r| <= |cells|
  {
    if cells == [] then []
    else
      var front := PresentItems(cells[..|cells| - 1]);
      match cells[|cells| - 1]
      case Present(x) => front + [x]
      case _ => front
  }

  /** One `print(x, end=' ')` per item. */
  function ItemPrints(items: seq<Item>): (r: seq<Printed>)
    ensures |r| == |items|
    ensures forall k :: 0 <= k < |r| ==> r[k] == Printed([items[k]], " ")
  {
    seq(|items|, k requires 0 <= k < |items| => Printed([items[k]], " "))
  }

  predicate NoRaise(cells: seq<Cell>)
  {
    forall k :: 0 <= k < |cells| ==> !cells[k].Raise?
  }

  /** Without an attribute that raises, exactly the present attributes are printed, one
      `print` each, in column order; absent ones leave no placeholder. */
  lemma {:induction false} PresentCellsPrinted(cells: seq<Cell>)
    requires NoRaise(cells)
    ensures CellPrints(cells) == Written(ItemPrints(PresentItems(cells)), Pass)
  {
    if cells != [] {
      var front := cells[..|cells| - 1];
      assert NoRaise(front) by {
        forall k | 0 <= k < |front| ensures !front[k].Raise? {
          assert front[k] == cells[k];
        }
      }
      PresentCellsPrinted(front);
      assert !cells[|cells| - 1].Raise?;
      if cells[|cells| - 1].Present? {
        var x := cells[|cells| - 1].item;
        assert ItemPrints(PresentItems(front) + [x]) == ItemPrints(PresentItems(front)) + [Printed([x], " ")];
      }
    }
  }

  /** Once a column has raised, the later columns print nothing. */
  lemma {:induction false} CellsStop(cells: seq<Cell>, k: nat)
    requires k <= |cells| && CellPrints(cells[..k]).outcome.Fail?
    ensures CellPrints(cells) == CellPrints(cells[..k])
    decreases |cells| - k
  {
    if k < |cells| {
      assert cells[..k + 1][..k] == cells[..k];
      CellsStop(cells, k + 1);
    } else {
      assert cells[..k] == cells;
    }
  }

  /** The first attribute that raises ends the record: the attributes before it are
      printed, and neither the later ones nor the comment nor the end of record are. */
  lemma FirstRaiseStops(id: string, cells: seq<Cell>, comment: Option<string>, k: nat)
    requires k < |cells| && cells[k].Raise? && NoRaise(cells[..k])
    ensures Record(id, cells, comment)
              == Written([Printed([Text(id)], " ")] + ItemPrints(PresentItems(cells[..k])), Fail(cells[k].error))
  {
    PresentCellsPrinted(cells[..k]);
    assert cells[..k + 1][..k] == cells[..k] && cells[..k + 1][k] == cells[k];
    CellsStop(cells, k + 1);
  }

  /** What a record prints for its first columns does not depend on the later ones. */
  lemma {:induction false} CellPrintsPrefix(cells: seq<Cell>, k: nat)
    requires k <= |cells|
    ensures CellPrints(cells[..k]).prints <= CellPrints(cells).prints
    decreases |cells| - k
  {
    if k < |cells| {
      assert cells[..k + 1][..k] == cells[..k];
      CellPrintsPrefix(cells, k + 1);
    } else {
      assert cells[..k] == cells;
    }
  }

  /** A record whose columns all print holds the `; <comment>` print exactly when the
      element has a comment, just before the end of record. */
  lemma CommentIffPresent(id: string, cells: seq<Cell>, comment: Option<string>)
    requires CellPrints(cells).outcome.Pass?
    ensures var p := Record(id, cells, comment).prints;
      && p[|p| - 1] == RecordEnd
      && ((exists k :: 0 <= k < |p| && |p[k].items| == 2) <==> comment.Some?)
      && (comment.Some? ==> |p| >= 2 && p[|p| - 2] == Printed([Text(";"), Text(comment.value)], " "))
  {
    var c := CellPrints(cells);
    var p := Record(id, cells, comment).prints;
    assert p == [Printed([Text(id)], " ")] + c.prints + CommentPrints(comment) + [RecordEnd];
    if comment.Some? {
      assert |p[|p| - 2].items| == 2;
    } else {
      forall k | 0 <= k < |p| ensures |p[k].items| != 2 {
        if 1 <= k < |p| - 1 {
          assert p[k] == c.prints[k - 1];
        }
      }
    }
  }

  // ---------------------------------------------------------------------------
  // The records of a section

  /** The records of a section written one after the other; the first exception ends
      the writing. */
  function Concat(ws: seq<Written>): (r: Written)
  {
    if ws == [] then Written([], Pass)
    else
      var prev := Concat(ws[..|ws| - 1]);
      if prev.outcome.Fail? then prev
      else Written(prev.prints + ws[|ws| - 1].prints, ws[|ws| - 1].outcome)
  }

  /** All the prints of the records, in order. */
  function Flatten(ws: seq<Written>): seq<Printed>
  {
    if ws == [] then [] else ws[0].prints + Flatten(ws[1..])
  }

  lemma {:induction false} FlattenSnoc(ws: seq<Written>, w: Written)
    ensures Flatten(ws + [w]) == Flatten(ws) + w.prints
  {
    if ws == [] {
      assert ([] + [w])[1..] == [];
    } else {
      assert (ws + [w])[1..] == ws[1..] + [w];
      FlattenSnoc(ws[1..], w);
    }
  }

  predicate AllPass(ws: seq<Written>)
  {
    forall i :: 0 <= i < |ws| ==> ws[i].outcome.Pass?
  }

  /** When no record raises, the section body is every record in store order. */
  lemma {:induction false} ConcatAllPass(ws: seq<Written>)
    requires AllPass(ws)
    ensures Concat(ws) == Written(Flatten(ws), Pass)
  {
    if ws != [] {
      var front := ws[..|ws| - 1];
      assert AllPass(front) by {
        forall i | 0 <= i < |front| ensures front[i].outcome.Pass? {
          assert front[i] == ws[i];
        }
      }
      ConcatAllPass(front);
      assert ws == front + [ws[|ws| - 1]];
      FlattenSnoc(front, ws[|ws| - 1]);
    }
  }

  lemma {:induction false} ConcatStops(ws: seq<Written>, k: nat)
    requires k <= |ws| && Concat(ws[..k]).outcome.Fail?
    ensures Concat(ws) == Concat(ws[..k])
    decreases |ws| - k
  {
    if k < |ws| {
      assert ws[..k + 1][..k] == ws[..k];
      ConcatStops(ws, k + 1);
    } else {
      assert ws[..k] == ws;
    }
  }

  /** When record `k` is the first to raise, the section body is the records before it in
      full, then what record `k` printed, and ends with its exception. */
  lemma ConcatFirstFailure(ws: seq<Written>, k: nat)
    requires k < |ws| && AllPass(ws[..k]) && ws[k].outcome.Fail?
    ensures Concat(ws) == Written(Flatten(ws[..k]) + ws[k].prints, ws[k].outcome)
  {
    ConcatAllPass(ws[..k]);
    assert ws[..k + 1][..k] == ws[..k] && ws[..k + 1][k] == ws[k];
    ConcatStops(ws, k + 1);
  }

  /** A section: the `[NAME]` header, the column comment, the records, and, unless a
      record raised, the closing `print('\n', end=...)`. */
  function Section(name: string, columns: string, ws: seq<Written>, closing: string): (r: Written)
    ensures r.outcome == Concat(ws).outcome
    ensures |r.prints| >= 2
    ensures r.prints[0] == Printed([Text("[" + name + "]")], "\n") && r.prints[1] == Printed([Text(columns)], "\n")
  {
    var body := Concat(ws);
    Written(Header(name, columns) + body.prints
            + (if body.outcome.Pass? then [Printed([Text("\n")], closing)] else []),
            body.outcome)
  }

  /** The `[NAME]` line and the column comment that open a section. */
  function Header(name: string, columns: string): seq<Printed>
  {
    [Printed([Text("[" + name + "]")], "\n"), Printed([Text(columns)], "\n")]
  }

  // ---------------------------------------------------------------------------
  // The columns of each section

  function NumberCell(x: Option<real>): Cell
  {
    if x.Some? then Present(Number(x.value)) else Absent
  }

  function TextCell(x: Option<string>): Cell
  {
    if x.Some? then Present(Text(x.value)) else Absent
  }

  /** A junction's demand: a list prints its first value, and an empty list raises. */
  function DemandCell(d: Option<Demand>): Cell
  {
    match d
    case None => Absent
    case Some(SingleDemand(v)) => Present(Number(v))
    case Some(DemandList(vs)) => if |vs| == 0 then Raise(IndexError) else Present(Number(vs[0]))
  }

  /** A junction's demand pattern, by ID: a list prints its first pattern's ID. */
  function PatternCell(dp: Option<DemandPattern>): Cell
  {
    match dp
    case None => Absent
    case Some(SinglePattern(p)) => Present(Text(p.id))
    case Some(PatternList(ps)) => if |ps| == 0 then Raise(IndexError) else Present(Text(ps[0].id))
  }

  /** A list-valued demand prints like its first value alone. */
  lemma DemandListFirstOnly(v: real, vs: seq<real>)
    ensures DemandCell(Some(DemandList([v] + vs))) == DemandCell(Some(SingleDemand(v)))
  {
    assert ([v] + vs)[0] == v;
  }

  /** A list-valued demand pattern prints like its first pattern alone. */
  lemma PatternListFirstOnly(p: Pattern, ps: seq<Pattern>)
    ensures PatternCell(Some(PatternList([p] + ps))) == PatternCell(Some(SinglePattern(p)))
  {
    assert ([p] + ps)[0] == p;
  }

  /** An endpoint, printed as the node's ID. */
  function EndpointCell(n: Node?): Cell
    reads n
  {
    if n == null then Absent else Present(Text(n.id))
  }

  datatype NodeSection = JunctionsSection | ReservoirsSection | TanksSection

  function NodeSectionName(s: NodeSection): string
  {
    match s
    case JunctionsSection => "JUNCTIONS"
    case ReservoirsSection => "RESERVOIRS"
    case TanksSection => "TANKS"
  }

  function NodeColumns(s: NodeSection): string
  {
    match s
    case JunctionsSection => ";id elevation demand demandpattern"
    case ReservoirsSection => ";id head pattern"
    case TanksSection => ";id elevation initlevel minlevel maxlevel diam minvolume volumecurve"
  }

  /** The columns a node section prints for a node after its ID. A node of another kind
      in the store raises AttributeError at the first attribute it lacks. */
  function NodeCells(s: NodeSection, n: Node): seq<Cell>
    reads n
  {
    match s
    case JunctionsSection =>
      [NumberCell(n.elevation)] +
      (match n.data
       case JunctionData(_, dp, d) => [DemandCell(d), PatternCell(dp)]
       case _ => [Raise(AttributeError("demand"))])
    case ReservoirsSection =>
      (match n.data
       case ReservoirData(head, hp) => [NumberCell(head), if hp.Some? then Present(Text(hp.value.id)) else Absent]
       case _ => [Raise(AttributeError("head"))])
    case TanksSection =>
      [NumberCell(n.elevation)] +
      (match n.data
       case TankData(il, minl, maxl, diam, minv, vc, _, _, _) =>
         [NumberCell(il), NumberCell(minl), NumberCell(maxl), NumberCell(diam), NumberCell(minv),
          if vc.Some? then Present(CurveItem(vc.value)) else Absent]
       case _ => [Raise(AttributeError("initlevel"))])
  }

  /** A record before it is printed: the element's ID, its columns and its comment. */
  datatype Row = Row(id: string, cells: seq<Cell>, comment: Option<string>)

  lemma AppendAssoc<X>(p: seq<X>, a: seq<X>, b: seq<X>)
    ensures p + a + b == p + (a + b)
  {
  }

  /** What printing each row writes. */
  function Records(rows: seq<Row>): (ws: seq<Written>)
    ensures |ws| == |rows|
  {
    if rows == [] then []
    else
      var last := rows[|rows| - 1];
      Records(rows[..|rows| - 1]) + [Record(last.id, last.cells, last.comment)]
  }

  lemma {:induction false} RecordsAt(rows: seq<Row>, i: nat)
    requires i < |rows|
    ensures Records(rows)[i] == Record(rows[i].id, rows[i].cells, rows[i].comment)
  {
    if i < |rows| - 1 {
      var front := rows[..|rows| - 1];
      RecordsAt(front, i);
    }
  }

  /** One more row written into a section whose records so far all printed. */
  lemma RecordsSnoc(rows: seq<Row>, i: nat)
    requires i < |rows| && Concat(Records(rows[..i])).outcome.Pass?
    ensures var w := Record(rows[i].id, rows[i].cells, rows[i].comment);
      Concat(Records(rows[..i + 1])) == Written(Concat(Records(rows[..i])).prints + w.prints, w.outcome)
  {
    assert rows[..i + 1][..i] == rows[..i] && rows[..i + 1][i] == rows[i];
    var ws := Records(rows[..i + 1]);
    assert ws[..i] == Records(rows[..i]);
  }

  /** Once a record has raised, the later rows write nothing. */
  lemma {:induction false} RecordsStop(rows: seq<Row>, i: nat)
    requires i <= |rows| && Concat(Records(rows[..i])).outcome.Fail?
    ensures Concat(Records(rows)) == Concat(Records(rows[..i]))
    decreases |rows| - i
  {
    if i < |rows| {
      RecordsSnoc2(rows, i);
      RecordsStop(rows, i + 1);
    } else {
      assert rows[..i] == rows;
    }
  }

  lemma RecordsSnoc2(rows: seq<Row>, i: nat)
    requires i < |rows|
    ensures Records(rows[..i + 1]) == Records(rows[..i]) + [Record(rows[i].id, rows[i].cells, rows[i].comment)]
  {
    assert rows[..i + 1][..i] == rows[..i] && rows[..i + 1][i] == rows[i];
  }

  function NodeRows(s: NodeSection, ns: seq<Node>): (rows: seq<Row>)
    reads set n | n in ns
    ensures |rows| == |ns|
    ensures forall i :: 0 <= i < |ns| ==> rows[i] == Row(ns[i].id, NodeCells(s, ns[i]), ns[i].comment)
  {
    seq(|ns|, i requires 0 <= i < |ns| reads set n | n in ns => Row(ns[i].id, NodeCells(s, ns[i]), ns[i].comment))
  }

  /** The nodes a node section prints in full: ones of the section's own kind, with no
      empty demand or demand-pattern list. */
  predicate NodeFits(s: NodeSection, n: Node)
    reads n
  {
    match s
    case JunctionsSection =>
      && n.data.JunctionData?
      && (n.data.demand.Some? && n.data.demand.value.DemandList? ==> |n.data.demand.value.values| > 0)
      && (n.data.demandpattern.Some? && n.data.demandpattern.value.PatternList? ==> |n.data.demandpattern.value.patterns| > 0)
    case ReservoirsSection => n.data.ReservoirData?
    case TanksSection => n.data.TankData?
  }

  /** A node's record raises exactly when the node does not fit its section. */
  lemma NodeRecordRaisesIffMisfit(s: NodeSection, n: Node)
    ensures NoRaise(NodeCells(s, n)) <==> NodeFits(s, n)
  {
    var cells := NodeCells(s, n);
    if !NodeFits(s, n) {
      match s
      case JunctionsSection =>
        if !n.data.JunctionData? {
          assert cells[1].Raise?;
        } else if n.data.demand.Some? && n.data.demand.value.DemandList? && |n.data.demand.value.values| == 0 {
          assert cells[1].Raise?;
        } else {
          assert cells[2].Raise?;
        }
      case ReservoirsSection => assert cells[0].Raise?;
      case TanksSection => assert cells[1].Raise?;
    }
  }

  datatype LinkSection = PipesSection | PumpsSection | ValvesSection

  function LinkSectionName(s: LinkSection): string
  {
    match s
    case PipesSection => "PIPES"
    case PumpsSection => "PUMPS"
    case ValvesSection => "VALVES"
  }

  function LinkColumns(s: LinkSection): string
  {
    match s
    case PipesSection => ";id startnode endnode length diameter roughness minorloss status"
    case PumpsSection => ";id startnode endnode keyword value"
    case ValvesSection => ";id startnode endnode diameter valvetype setting minorloss"
  }

  /** The columns a link section prints for a link after its ID: the endpoints' IDs, then
      the section's attributes. A link of another kind raises AttributeError at the first
      attribute it lacks; so does a valve whose `valvetype` was never set. */
  function LinkCells(s: LinkSection, p: Link): seq<Cell>
    reads p, p.startnode, p.endnode
  {
    [EndpointCell(p.startnode), EndpointCell(p.endnode)] +
    match s
    case PipesSection =>
      (match p.data
       case PipeData(len, diam, rough, minor, _, _) =>
         [NumberCell(len), NumberCell(diam), NumberCell(rough), NumberCell(minor), TextCell(p.status)]
       case _ => [Raise(AttributeError("length"))])
    case PumpsSection =>
      (match p.data
       case PumpData(kw, v, _) =>
         [TextCell(kw),
          match v
          case None => Absent
          case Some(PumpText(t)) => Present(Text(t))
          case Some(PumpNumber(x)) => Present(Number(x))]
       case _ => [Raise(AttributeError("keyword"))])
    case ValvesSection =>
      (match p.data
       case ValveData(_, vt, diam, minor, setting) =>
         [NumberCell(diam),
          if vt.Some? then Present(Text(vt.value)) else Raise(AttributeError("valvetype")),
          match setting
          case None => Absent
          case Some(SettingValue(x)) => Present(Number(x))
          case Some(SettingCurve(c)) => Present(CurveItem(c)),
          NumberCell(minor)]
       case PipeData(_, diam, _, _, _, _) => [NumberCell(diam), Raise(AttributeError("valvetype"))]
       case PumpData(_, _, _) => [Raise(AttributeError("diameter"))])
  }

  function LinkObjects(ps: seq<Link>): set<object>
    reads set p | p in ps
  {
    (set p | p in ps :: p as object)
    + (set p | p in ps && p.startnode != null :: p.startnode as object)
    + (set p | p in ps && p.endnode != null :: p.endnode as object)
  }

  function LinkRows(s: LinkSection, ps: seq<Link>): (rows: seq<Row>)
    reads (set p | p in ps), LinkObjects(ps)
    ensures |rows| == |ps|
    ensures forall i :: 0 <= i < |ps| ==> rows[i] == Row(ps[i].id, LinkCells(s, ps[i]), ps[i].comment)
  {
    seq(|ps|, i requires 0 <= i < |ps| reads (set p | p in ps), LinkObjects(ps) =>
      Row(ps[i].id, LinkCells(s, ps[i]), ps[i].comment))
  }

  /** The links a link section prints in full: ones of the section's own kind, and for
      valves, ones whose `valvetype` is set. */
  predicate LinkFits(s: LinkSection, p: Link)
    reads p
  {
    match s
    case PipesSection => p.data.PipeData?
    case PumpsSection => p.data.PumpData?
    case ValvesSection => p.data.ValveData? && p.data.valvetype.Some?
  }

  /** A link's record raises exactly when the link does not fit its section. */
  lemma LinkRecordRaisesIffMisfit(s: LinkSection, p: Link)
    ensures NoRaise(LinkCells(s, p)) <==> LinkFits(s, p)
  {
    var cells := LinkCells(s, p);
    if !LinkFits(s, p) {
      match s
      case PipesSection => assert cells[2].Raise?;
      case PumpsSection => assert cells[2].Raise?;
      case ValvesSection =>
        if p.data.PumpData? {
          assert cells[2].Raise?;
        } else {
          assert cells[3].Raise?;
        }
    }
  }

  /** A link record starts with the link's ID and its endpoints' IDs, whatever the
      section and whatever follows. */
  lemma LinkRecordNamesEndpoints(s: LinkSection, p: Link)
    requires p.startnode != null && p.endnode != null
    ensures var r := Record(p.id, LinkCells(s, p), p.comment).prints;
      |r| >= 3 && r[..3] == [Printed([Text(p.id)], " "), Printed([Text(p.startnode.id)], " "),
                              Printed([Text(p.endnode.id)], " ")]
  {
    var cells := LinkCells(s, p);
    assert cells[..2] == [Present(Text(p.startnode.id)), Present(Text(p.endnode.id))];
    assert NoRaise(cells[..2]);
    PresentCellsPrinted(cells[..2]);
    assert PresentItems(cells[..2]) == [Text(p.startnode.id), Text(p.endnode.id)] by {
      assert cells[..2][..1] == [Present(Text(p.startnode.id))];
      assert cells[..2][..1][..0] == [];
    }
    CellPrintsPrefix(cells, 2);
  }

  /** Rows whose columns all print make a section that never raises. */
  lemma {:induction false} RowsAllPass(rows: seq<Row>)
    requires forall i :: 0 <= i < |rows| ==> NoRaise(rows[i].cells)
    ensures AllPass(Records(rows))
  {
    forall i | 0 <= i < |rows| ensures Records(rows)[i].outcome.Pass? {
      RecordsAt(rows, i);
      PresentCellsPrinted(rows[i].cells);
    }
  }

  /** When every node fits the section, its writer prints the header, every node's full
      record in store order, and the closing line, and raises nothing. */
  lemma {:induction false} NodeSectionComplete(s: NodeSection, ns: seq<Node>)
    requires forall i :: 0 <= i < |ns| ==> NodeFits(s, ns[i])
    ensures var rows := NodeRows(s, ns);
      Section(NodeSectionName(s), NodeColumns(s), Records(rows), " ")
        == Written(Header(NodeSectionName(s), NodeColumns(s)) + Flatten(Records(rows)) + [Printed([Text("\n")], " ")], Pass)
  {
    var rows := NodeRows(s, ns);
    forall i | 0 <= i < |rows| ensures NoRaise(rows[i].cells) {
      NodeRecordRaisesIffMisfit(s, ns[i]);
    }
    RowsAllPass(rows);
    ConcatAllPass(Records(rows));
  }

  /** When every link fits the section, its writer prints the header, every link's full
      record in store order, and the closing line, and raises nothing. */
  lemma {:induction false} LinkSectionComplete(s: LinkSection, ps: seq<Link>)
    requires forall i :: 0 <= i < |ps| ==> LinkFits(s, ps[i])
    ensures var rows := LinkRows(s, ps);
      Section(LinkSectionName(s), LinkColumns(s), Records(rows), " ")
        == Written(Header(LinkSectionName(s), LinkColumns(s)) + Flatten(Records(rows)) + [Printed([Text("\n")], " ")], Pass)
  {
    var rows := LinkRows(s, ps);
    forall i | 0 <= i < |rows| ensures NoRaise(rows[i].cells) {
      LinkRecordRaisesIffMisfit(s, ps[i]);
    }
    RowsAllPass(rows);
    ConcatAllPass(Records(rows));
  }

  // ---------------------------------------------------------------------------
  // Emitters

  /** What the emitter writer sees of a node: a junction with its coefficient, or a node
      that has no emitter coefficient. */
  datatype EmitterRow = Junction(id: string, coefficient: real) | NotJunction

  function EmitterRows(ns: seq<Node>): (es: seq<EmitterRow>)
    reads set n | n in ns
    ensures |es| == |ns|
    ensures forall i :: 0 <= i < |ns| ==>
      es[i] == if ns[i].data.JunctionData? then Junction(ns[i].id, ns[i].data.emittercoefficient) else NotJunction
  {
    seq(|ns|, i requires 0 <= i < |ns| reads set n | n in ns =>
      if ns[i].data.JunctionData? then Junction(ns[i].id, ns[i].data.emittercoefficient) else NotJunction)
  }

  /** A junction's emitter line: its ID and coefficient when the coefficient is positive,
      nothing otherwise; a node that is no junction raises. */
  function EmitterRecord(e: EmitterRow): Written
  {
    match e
    case Junction(id, ec) =>
      if ec > 0.0 then Written([Printed([Text(id), Number(ec)], "\n")], Pass) else Written([], Pass)
    case NotJunction => Written([], Fail(AttributeError("emittercoefficient")))
  }

  function EmitterRecords(es: seq<EmitterRow>): (ws: seq<Written>)
    ensures |ws| == |es|
    ensures forall i :: 0 <= i < |es| ==> ws[i] == EmitterRecord(es[i])
  {
    seq(|es|, i requires 0 <= i < |es| => EmitterRecord(es[i]))
  }

  /** The emitter lines of the junctions with a positive coefficient, in order. */
  function EmitterLines(ns: seq<Node>): seq<Printed>
    reads set n | n in ns
  {
    if ns == [] then []
    else
      var last := ns[|ns| - 1];
      var front := EmitterLines(ns[..|ns| - 1]);
      if last.data.JunctionData? && last.data.emittercoefficient > 0.0
      then front + [Printed([Text(last.id), Number(last.data.emittercoefficient)], "\n")]
      else front
  }

  predicate AllJunctions(ns: seq<Node>)
    reads set n | n in ns
  {
    forall i :: 0 <= i < |ns| ==> ns[i].data.JunctionData?
  }

  /** When every node is a junction, the emitter section lists exactly the junctions with
      a positive coefficient, as ID and coefficient, in store order. */
  lemma {:induction false} EmittersExactlyPositive(ns: seq<Node>)
    requires AllJunctions(ns)
    ensures Concat(EmitterRecords(EmitterRows(ns))) == Written(EmitterLines(ns), Pass)
  {
    if ns != [] {
      var front := ns[..|ns| - 1];
      assert AllJunctions(front) by {
        forall i | 0 <= i < |front| ensures front[i].data.JunctionData? {
          assert front[i] == ns[i];
        }
      }
      EmittersExactlyPositive(front);
      assert EmitterRecords(EmitterRows(ns))[..|ns| - 1] == EmitterRecords(EmitterRows(front));
    }
  }

  // ---------------------------------------------------------------------------
  // The writers

  /** `write_title`: the header, the title when there is one, and an empty line. */
  function TitleSection(title: Option<string>): (r: seq<Printed>)
    ensures |r| == (if title.Some? then 3 else 2)
    ensures r[0] == Printed([Text("[TITLE]")], "\n") && r[|r| - 1] == Printed([Text("\n")], "\n")
    ensures title.Some? ==> r[1] == Printed([Text(title.value)], "\n")
  {
    [Printed([Text("[TITLE]")], "\n")]
    + (if title.Some? then [Printed([Text(title.value)], "\n")] else [])
    + [Printed([Text("\n")], "\n")]
  }

  method WriteTitle(network: Network, fid: TextFile)
    modifies fid
    ensures fid.printed == old(fid.printed) + TitleSection(network.title)
  {
    fid.Print([Text("[TITLE]")], "\n");
    if network.title.Some? {
      fid.Print([Text(network.title.value)], "\n");
    }
    fid.Print([Text("\n")], "\n");
  }

  /** The body of every section writer's loop: one record printed. The run of
      `if x is not None: print(x, end=' ')` statements is walked as the list of columns. */
  method WriteRecord(fid: TextFile, id: string, cells: seq<Cell>, comment: Option<string>)
      returns (r: Outcome<Error>)
    modifies fid
    ensures fid.printed == old(fid.printed) + Record(id, cells, comment).prints
    ensures r == Record(id, cells, comment).outcome
  {
    fid.Print([Text(id)], " ");
    r := Pass;
    var k := 0;
    while k < |cells|
      invariant 0 <= k <= |cells|
      invariant r == Pass && CellPrints(cells[..k]).outcome == Pass
      invariant fid.printed == old(fid.printed) + [Printed([Text(id)], " ")] + CellPrints(cells[..k]).prints
    {
      assert cells[..k + 1][..k] == cells[..k] && cells[..k + 1][k] == cells[k];
      match cells[k] {
        case Present(x) =>
          fid.Print([x], " ");
        case Absent =>
        case Raise(e) =>
          r := Fail(e);
          CellsStop(cells, k + 1);
          return;
      }
      k := k + 1;
    }
    assert cells[..|cells|] == cells;
    if comment.Some? {
      fid.Print([Text(";"), Text(comment.value)], " ");
    }
    fid.Print([Text("\n")], " ");
  }

  /** Records written one after the other into a section, until one raises. */
  lemma ConcatSnoc(ws: seq<Written>, i: nat)
    requires i < |ws| && Concat(ws[..i]).outcome.Pass?
    ensures Concat(ws[..i + 1]) == Written(Concat(ws[..i]).prints + ws[i].prints, ws[i].outcome)
  {
    assert ws[..i + 1][..i] == ws[..i] && ws[..i + 1][i] == ws[i];
  }

  method WriteHeader(fid: TextFile, name: string, columns: string)
    modifies fid
    ensures fid.printed == old(fid.printed) + Header(name, columns)
  {
    fid.Print([Text("[" + name + "]")], "\n");
    fid.Print([Text(columns)], "\n");
  }

  /** The loop shared by the section writers: each row's record, until one raises. */
  method WriteBody(fid: TextFile, rows: seq<Row>) returns (r: Outcome<Error>)
    modifies fid
    ensures fid.printed == old(fid.printed) + Concat(Records(rows)).prints
    ensures r == Concat(Records(rows)).outcome
  {
    r := Pass;
    var i := 0;
    while i < |rows|
      invariant 0 <= i <= |rows|
      invariant r == Pass && Concat(Records(rows[..i])).outcome == Pass
      invariant fid.printed == old(fid.printed) + Concat(Records(rows[..i])).prints
    {
      RecordsSnoc(rows, i);
      ghost var w := Record(rows[i].id, rows[i].cells, rows[i].comment);
      r := WriteRecord(fid, rows[i].id, rows[i].cells, rows[i].comment);
      AppendAssoc(old(fid.printed), Concat(Records(rows[..i])).prints, w.prints);
      if r.Fail? {
        RecordsStop(rows, i + 1);
        return;
      }
      i := i + 1;
    }
    assert rows[..|rows|] == rows;
  }

  /** A section writer: the header, the records, and the closing print unless a record
      raised. */
  method WriteSection(fid: TextFile, name: string, columns: string, rows: seq<Row>) returns (r: Outcome<Error>)
    modifies fid
    ensures var w := Section(name, columns, Records(rows), " ");
      fid.printed == old(fid.printed) + w.prints && r == w.outcome
  {
    WriteHeader(fid, name, columns);
    r := WriteBody(fid, rows);
    if r.Pass? {
      fid.Print([Text("\n")], " ");
    }
  }

  /** `write_junctions`: the junctions in store order. */
  method WriteJunctions(network: Network, fid: TextFile) returns (r: Outcome<Error>)
    requires network.Valid()
    modifies fid
    ensures var w := Section("JUNCTIONS", ";id elevation demand demandpattern",
                             Records(NodeRows(JunctionsSection, Values(network.junctions))), " ");
      fid.printed == old(fid.printed) + w.prints && r == w.outcome
  {
    var rows := NodeRows(JunctionsSection, Values(network.junctions));
    r := WriteSection(fid, "JUNCTIONS", ";id elevation demand demandpattern", rows);
  }

  /** `write_reservoirs`: the reservoirs in store order. */
  method WriteReservoirs(network: Network, fid: TextFile) returns (r: Outcome<Error>)
    requires network.Valid()
    modifies fid
    ensures var w := Section("RESERVOIRS", ";id head pattern",
                             Records(NodeRows(ReservoirsSection, Values(network.reservoirs))), " ");
      fid.printed == old(fid.printed) + w.prints && r == w.outcome
  {
    var rows := NodeRows(ReservoirsSection, Values(network.reservoirs));
    r := WriteSection(fid, "RESERVOIRS", ";id head pattern", rows);
  }

  /** `write_tanks`: the tanks in store order. */
  method WriteTanks(network: Network, fid: TextFile) returns (r: Outcome<Error>)
    requires network.Valid()
    modifies fid
    ensures var w := Section("TANKS", ";id elevation initlevel minlevel maxlevel diam minvolume volumecurve",
                             Records(NodeRows(TanksSection, Values(network.tanks))), " ");
      fid.printed == old(fid.printed) + w.prints && r == w.outcome
  {
    var rows := NodeRows(TanksSection, Values(network.tanks));
    r := WriteSection(fid, "TANKS", ";id elevation initlevel minlevel maxlevel diam minvolume volumecurve", rows);
  }

  /** `write_pipes`: the pipes in store order. */
  method WritePipes(network: Network, fid: TextFile) returns (r: Outcome<Error>)
    requires network.Valid()
    modifies fid
    ensures var w := Section("PIPES", ";id startnode endnode length diameter roughness minorloss status",
                             Records(LinkRows(PipesSection, Values(network.pipes))), " ");
      fid.printed == old(fid.printed) + w.prints && r == w.outcome
  {
    var links := Values(network.pipes);
    var rows := LinkRows(PipesSection, links);
    r := WriteSection(fid, "PIPES", ";id startnode endnode length diameter roughness minorloss status", rows);
    assert rows == LinkRows(PipesSection, links);
  }

  /** `write_pumps`: the pumps in store order. */
  method WritePumps(network: Network, fid: TextFile) returns (r: Outcome<Error>)
    requires network.Valid()
    modifies fid
    ensures var w := Section("PUMPS", ";id startnode endnode keyword value",
                             Records(LinkRows(PumpsSection, Values(network.pumps))), " ");
      fid.printed == old(fid.printed) + w.prints && r == w.outcome
  {
    var links := Values(network.pumps);
    var rows := LinkRows(PumpsSection, links);
    r := WriteSection(fid, "PUMPS", ";id startnode endnode keyword value", rows);
    assert rows == LinkRows(PumpsSection, links);
  }

  /** `write_valves`: the valves in store order. */
  method WriteValves(network: Network, fid: TextFile) returns (r: Outcome<Error>)
    requires network.Valid()
    modifies fid
    ensures var w := Section("VALVES", ";id startnode endnode diameter valvetype setting minorloss",
                             Records(LinkRows(ValvesSection, Values(network.valves))), " ");
      fid.printed == old(fid.printed) + w.prints && r == w.outcome
  {
    var links := Values(network.valves);
    var rows := LinkRows(ValvesSection, links);
    r := WriteSection(fid, "VALVES", ";id startnode endnode diameter valvetype setting minorloss", rows);
    assert rows == LinkRows(ValvesSection, links);
  }

  /** The emitter writer's loop, over what it sees of each junction. */
  method WriteEmitterBody(fid: TextFile, es: seq<EmitterRow>) returns (r: Outcome<Error>)
    modifies fid
    ensures fid.printed == old(fid.printed) + Concat(EmitterRecords(es)).prints
    ensures r == Concat(EmitterRecords(es)).outcome
  {
    ghost var ws := EmitterRecords(es);
    r := Pass;
    var i := 0;
    while i < |es|
      invariant 0 <= i <= |es|
      invariant r == Pass && Concat(ws[..i]).outcome == Pass
      invariant fid.printed == old(fid.printed) + Concat(ws[..i]).prints
    {
      ConcatSnoc(ws, i);
      match es[i] {
        case Junction(id, ec) =>
          if ec > 0.0 {
            fid.Print([Text(id), Number(ec)], "\n");
          }
        case NotJunction =>
          r := Fail(AttributeError("emittercoefficient"));
          ConcatStops(ws, i + 1);
          return;
      }
      i := i + 1;
    }
    assert ws[..|es|] == ws;
  }

  /** The emitter section, from what the writer sees of each junction. */
  method WriteEmitterSection(fid: TextFile, es: seq<EmitterRow>) returns (r: Outcome<Error>)
    modifies fid
    ensures var w := Section("EMITTERS", ";id emittercoefficient", EmitterRecords(es), "\n");
      fid.printed == old(fid.printed) + w.prints && r == w.outcome
  {
    WriteHeader(fid, "EMITTERS", ";id emittercoefficient");
    r := WriteEmitterBody(fid, es);
    if r.Pass? {
      fid.Print([Text("\n")], "\n");
    }
  }

  /** `write_emitter`: the junctions with a positive emitter coefficient. */
  method WriteEmitter(network: Network, fid: TextFile) returns (r: Outcome<Error>)
    requires network.Valid()
    modifies fid
    ensures var w := Section("EMITTERS", ";id emittercoefficient", EmitterRecords(EmitterRows(Values(network.junctions))), "\n");
      fid.printed == old(fid.printed) + w.prints && r == w.outcome
  {
    var ns := Values(network.junctions);
    var es := EmitterRows(ns);
    r := WriteEmitterSection(fid, es);
    assert es == EmitterRows(ns);
  }

  /** The priorities the writers are registered with: the title first, then the node
      sections, the link sections, and the emitters. */
  const WriterPriorities: seq<(string, int)> := [
    ("TITLE", 0), ("JUNCTIONS", 1), ("RESERVOIRS", 1), ("TANKS", 1),
    ("PIPES", 2), ("PUMPS", 2), ("VALVES", 2), ("EMITTERS", 3)
  ]
}
