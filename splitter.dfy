/** `filesplitter`: the lines of an EPANET input file become named blocks of records.
    Every line is cleaned first (newlines removed, stripped, whitespace runs collapsed);
    an empty line or a `;` comment line is skipped, a `[NAME]` line opens (or reopens,
    emptying it) the block NAME, and any other line is a record of the current block,
    which is TITLE until the first header. */
module Splitter {
  import opened Wrappers
  import opened PyStr
  import opened ElementStore

  /** One record: the values before the first `;`, and the comment after it when the
      line holds exactly one `;`. */
  datatype Record = Record(values: seq<string>, comments: Option<string>)

  /** What a line is, once cleaned. */
  datatype LineKind = Skip | Header(name: string) | Data(record: Record)

  /** `line[1:-1]`: the line without its first and last character (empty for one character). */
  function HeaderName(line: string): (r: string)
    ensures |line| >= 2 ==> |r| == |line| - 2 && forall i :: 0 <= i < |r| ==> r[i] == line[i + 1]
    ensures |line| < 2 ==> r == ""
  {
    if |line| >= 2 then line[1..|line| - 1] else ""
  }

  /** The record of a cleaned line. */
  function RecordOf(line: string): Record
  {
    var pieces := SplitOn(line, ';');
    Record(SplitOn(Strip(pieces[0]), ' '), if |pieces| == 2 then Some(Strip(pieces[1])) else None)
  }

  function Classify(raw: string): LineKind
  {
    var line := Normalize(raw);
    if line == "" || StartsWith(line, ';') then Skip
    else if StartsWith(line, '[') then Header(HeaderName(line))
    else Data(RecordOf(line))
  }

  /** The splitter's state: the current block name and the blocks so far, a dictionary
      that keeps the order in which names first appeared. */
  datatype SplitState = SplitState(current: string, blocks: Store<seq<Record>>)

  ghost predicate StateOk(st: SplitState)
  {
    ElementStore.Valid(st.blocks) && st.current in st.blocks.items
  }

  function Initial(): (st: SplitState)
    ensures StateOk(st)
    ensures st.blocks.order == ["TITLE"] && st.blocks.items == map["TITLE" := []]
  {
    SplitState("TITLE", Put(Empty(), "TITLE", []))
  }

  /** The effect of one input line, once classified. */
  function Step(st: SplitState, k: LineKind): (r: SplitState)
    requires StateOk(st)
    ensures StateOk(r)
  {
    match k
    case Skip => st
    case Header(name) => SplitState(name, Put(st.blocks, name, []))
    case Data(rec) => SplitState(st.current, Put(st.blocks, st.current, st.blocks.items[st.current] + [rec]))
  }

  /** The state after the given classified lines, from a given state. */
  function Run(st: SplitState, ks: seq<LineKind>): (r: SplitState)
    requires StateOk(st)
    ensures StateOk(r)
    decreases |ks|
  {
    if ks == [] then st else Run(Step(st, ks[0]), ks[1..])
  }

  /** Every line, classified. */
  function Kinds(lines: seq<string>): (ks: seq<LineKind>)
    ensures |ks| == |lines|
  {
    if lines == [] then [] else [Classify(lines[0])] + Kinds(lines[1..])
  }

  lemma {:induction false} KindsConcat(a: seq<string>, b: seq<string>)
    ensures Kinds(a + b) == Kinds(a) + Kinds(b)
  {
    if a == [] {
      assert a + b == b;
    } else {
      assert (a + b)[1..] == a[1..] + b;
      KindsConcat(a[1..], b);
    }
  }

  /** The state after the given lines of a file. */
  function SplitLines(lines: seq<string>): (r: SplitState)
    ensures StateOk(r)
  {
    Run(Initial(), Kinds(lines))
  }

  /** The fold takes one more line by one more step. */
  lemma {:induction false} RunSnoc(st: SplitState, ks: seq<LineKind>, k: LineKind)
    requires StateOk(st)
    ensures Run(st, ks + [k]) == Step(Run(st, ks), k)
    decreases |ks|
  {
    if ks == [] {
      assert ([] + [k])[1..] == [];
    } else {
      assert (ks + [k])[1..] == ks[1..] + [k];
      RunSnoc(Step(st, ks[0]), ks[1..], k);
    }
  }

  /** The fold over two stretches of lines is the fold over the second from where the
      first left off. */
  lemma {:induction false} RunConcat(st: SplitState, a: seq<LineKind>, b: seq<LineKind>)
    requires StateOk(st)
    ensures Run(st, a + b) == Run(Run(st, a), b)
    decreases |a|
  {
    if a == [] {
      assert a + b == b;
    } else {
      assert (a + b)[1..] == a[1..] + b;
      RunConcat(Step(st, a[0]), a[1..], b);
    }
  }

  /** One more line takes one more step. */
  lemma SplitLinesSnoc(lines: seq<string>, raw: string)
    ensures SplitLines(lines + [raw]) == Step(SplitLines(lines), Classify(raw))
  {
    var k := Classify(raw);
    assert Kinds([raw]) == [k];
    KindsConcat(lines, [raw]);
    RunSnoc(Initial(), Kinds(lines), k);
  }

  /** The body of the splitter's loop: one line read into the blocks. */
  method SplitLine(blockname: string, blocks: Store<seq<Record>>, raw: string)
      returns (name: string, out: Store<seq<Record>>)
    requires StateOk(SplitState(blockname, blocks))
    ensures SplitState(name, out) == Step(SplitState(blockname, blocks), Classify(raw))
  {
    name, out := blockname, blocks;
    var line := Normalize(raw);
    if line != "" && !StartsWith(line, ';') {
      if StartsWith(line, '[') {
        name := HeaderName(line);
        out := Put(blocks, name, []);
      } else {
        var pieces := SplitOn(line, ';');
        var comments := if |pieces| == 2 then Some(Strip(pieces[1])) else None;
        var vals := Record(SplitOn(Strip(pieces[0]), ' '), comments);
        out := Put(blocks, blockname, blocks.items[blockname] + [vals]);
      }
    }
  }

  /** `filesplitter` on the lines of a file: the blocks the fold above builds. */
  method FileSplitter(lines: seq<string>) returns (blocks: Store<seq<Record>>)
    ensures blocks == SplitLines(lines).blocks
  {
    var blockname := "TITLE";
    blocks := Put(Empty(), blockname, []);
    var i := 0;
    while i < |lines|
      invariant 0 <= i <= |lines|
      invariant SplitState(blockname, blocks) == SplitLines(lines[..i])
    {
      SplitLinesPrefix(lines, i);
      blockname, blocks := SplitLine(blockname, blocks, lines[i]);
      i := i + 1;
    }
    assert lines[..|lines|] == lines;
  }

  /** The fold over one more line of the file. */
  lemma SplitLinesPrefix(lines: seq<string>, i: nat)
    requires i < |lines|
    ensures SplitLines(lines[..i + 1]) == Step(SplitLines(lines[..i]), Classify(lines[i]))
  {
    assert lines[..i + 1] == lines[..i] + [lines[i]];
    SplitLinesSnoc(lines[..i], lines[i]);
  }

  // ---------------------------------------------------------------------------
  // What the blocks hold

  /** The records classified lines contribute, in input order. */
  function RecordsIn(ks: seq<LineKind>): seq<Record>
  {
    if ks == [] then [] else (if ks[0].Data? then [ks[0].record] else []) + RecordsIn(ks[1..])
  }

  /** The records the given lines contribute, in input order. */
  function Records(lines: seq<string>): seq<Record>
  {
    RecordsIn(Kinds(lines))
  }

  predicate NoHeader(lines: seq<string>)
  {
    forall i :: 0 <= i < |lines| ==> !Classify(lines[i]).Header?
  }

  predicate NoHeaderKind(ks: seq<LineKind>)
  {
    forall i :: 0 <= i < |ks| ==> !ks[i].Header?
  }

  /** Blocks are never removed and never reordered: the block order only grows at its end. */
  lemma {:induction false} RunKeepsBlocks(st: SplitState, ks: seq<LineKind>)
    requires StateOk(st)
    ensures st.blocks.order <= Run(st, ks).blocks.order
    decreases |ks|
  {
    if ks != [] {
      RunKeepsBlocks(Step(st, ks[0]), ks[1..]);
    }
  }

  /** There is always a TITLE block, and it is the first block. */
  lemma TitleBlockFirst(lines: seq<string>)
    ensures "TITLE" in SplitLines(lines).blocks.items
    ensures SplitLines(lines).blocks.order[0] == "TITLE"
  {
    RunKeepsBlocks(Initial(), Kinds(lines));
  }

  /** Lines without a header only append their records, in order, to the current block;
      no other block changes and the current block stays current. */
  lemma {:induction false} RecordsAppend(st: SplitState, ks: seq<LineKind>)
    requires StateOk(st) && NoHeaderKind(ks)
    ensures Run(st, ks).current == st.current
    ensures Run(st, ks).blocks.order == st.blocks.order
    ensures Run(st, ks).blocks.items == st.blocks.items[st.current := st.blocks.items[st.current] + RecordsIn(ks)]
    decreases |ks|
  {
    var cur := st.current;
    var m := st.blocks.items;
    var x := m[cur];
    if ks == [] {
      assert x + RecordsIn(ks) == x;
      assert m[cur := x] == m;
    } else {
      var k := ks[0];
      var s1 := Step(st, k);
      NoHeaderTail(ks);
      RecordsAppend(s1, ks[1..]);
      var rest := RecordsIn(ks[1..]);
      if k.Data? {
        var y := x + [k.record];
        assert RecordsIn(ks) == [k.record] + rest;
        assert s1 == SplitState(cur, Store(st.blocks.order, m[cur := y]));
        assert y + rest == x + RecordsIn(ks);
        assert m[cur := y][cur := y + rest] == m[cur := y + rest];
      } else {
        assert s1 == st;
        assert RecordsIn(ks) == rest;
      }
    }
  }

  lemma NoHeaderTail(ks: seq<LineKind>)
    requires ks != [] && NoHeaderKind(ks)
    ensures NoHeaderKind(ks[1..])
  {
    forall i | 0 <= i < |ks| - 1 ensures !ks[1..][i].Header? {
      assert ks[1..][i] == ks[i + 1];
    }
  }

  /** Without a header every record lands in TITLE, in input order, and TITLE is the only block. */
  lemma RecordsBeforeHeader(lines: seq<string>)
    requires NoHeader(lines)
    ensures SplitLines(lines).current == "TITLE"
    ensures SplitLines(lines).blocks.order == ["TITLE"]
    ensures SplitLines(lines).blocks.items == map["TITLE" := Records(lines)]
  {
    NoHeaderKinds(lines);
    RecordsAppend(Initial(), Kinds(lines));
    assert [] + Records(lines) == Records(lines);
  }

  lemma HeaderResetsKinds(kp: seq<LineKind>, name: string, kq: seq<LineKind>)
    requires NoHeaderKind(kq)
    ensures Run(Initial(), kp + [Header(name)] + kq).current == name
    ensures Run(Initial(), kp + [Header(name)] + kq).blocks.items[name] == RecordsIn(kq)
  {
    RunConcat(Initial(), kp + [Header(name)], kq);
    RunSnoc(Initial(), kp, Header(name));
    RecordsAppend(Run(Initial(), kp + [Header(name)]), kq);
  }

  lemma {:induction false} NoHeaderKinds(lines: seq<string>)
    requires NoHeader(lines)
    ensures NoHeaderKind(Kinds(lines))
  {
    if lines != [] {
      assert NoHeader(lines[1..]) by {
        forall i | 0 <= i < |lines| - 1 ensures !Classify(lines[1..][i]).Header? {
          assert lines[1..][i] == lines[i + 1];
        }
      }
      NoHeaderKinds(lines[1..]);
      assert !Classify(lines[0]).Header?;
    }
  }

  /** A header opens its block empty, so after `[NAME]` and header-free lines the block
      NAME holds exactly those lines' records: a repeated header discards the records
      the section had before. */
  lemma HeaderResets(pre: seq<string>, header: string, post: seq<string>, name: string)
    requires Classify(header) == Header(name)
    requires NoHeader(post)
    ensures SplitLines(pre + [header] + post).current == name
    ensures SplitLines(pre + [header] + post).blocks.items[name] == Records(post)
  {
    KindsConcat(pre + [header], post);
    KindsConcat(pre, [header]);
    assert Kinds([header]) == [Header(name)];
    NoHeaderKinds(post);
    HeaderResetsKinds(Kinds(pre), name, Kinds(post));
  }

  /** A skipped line changes nothing. */
  lemma SkipChangesNothing(lines: seq<string>, raw: string)
    requires Normalize(raw) == "" || StartsWith(Normalize(raw), ';')
    ensures SplitLines(lines + [raw]) == SplitLines(lines)
  {
    assert Kinds([raw]) == [Skip] by {
      assert Classify(raw) == Skip;
    }
    KindsConcat(lines, [raw]);
    RunSnoc(Initial(), Kinds(lines), Skip);
  }

  /** Cleaning is done before classifying, so a line and its cleaned form are classified alike. */
  lemma ClassifyAfterCleaning(raw: string)
    ensures Classify(Normalize(raw)) == Classify(raw)
  {
    NormalizeIsNormalized(raw);
    NormalizeFixesNormalized(Normalize(raw));
  }

  /** A prefix of a string with plain spacing has plain spacing. */
  lemma PlainSpacingPrefix(s: string, n: nat)
    requires PlainSpacing(s) && n <= |s|
    ensures PlainSpacing(s[..n])
  {
    var t := s[..n];
    forall i | 0 <= i < |t| - 1 && t[i] == ' ' ensures t[i + 1] != ' ' {
      assert s[i] == ' ';
    }
  }

  /** The values of a cleaned line that is neither empty nor a comment: at least one,
      each non-empty and free of whitespace and of `;`. */
  lemma ValuesShape(line: string)
    requires Normalized(line) && line != [] && line[0] != ';'
    ensures var vals := SplitOn(Strip(SplitOn(line, ';')[0]), ' ');
      forall k :: 0 <= k < |vals| ==> vals[k] != "" && forall x :: x in vals[k] ==> !IsSpace(x) && x != ';'
  {
    SplitOnFirst(line, ';');
    SplitOnPieces(line, ';');
    var p := SplitOn(line, ';')[0];
    assert ';' !in p;
    assert p != [];
    assert p[0] == line[0];
    PlainSpacingPrefix(line, |p|);
    var w := Strip(p);
    assert w != [] && w == p[..|w|];
    PlainSpacingPrefix(p, |w|);
    assert Normalized(w);
    WordsOfNormalized(w);
  }

  /** A record line yields at least one value; every value is non-empty and holds neither
      whitespace nor `;`. The comment is present exactly when the cleaned line holds one `;`,
      and then it is the stripped text after it. */
  lemma RecordShape(raw: string)
    requires Classify(raw).Data?
    ensures var rec := Classify(raw).record;
      && |rec.values| >= 1
      && (forall k :: 0 <= k < |rec.values| ==>
            rec.values[k] != "" && forall x :: x in rec.values[k] ==> !IsSpace(x) && x != ';')
      && (rec.comments.Some? <==> Count(Normalize(raw), ';') == 1)
      && (rec.comments.Some? ==> rec.comments.value == Strip(SplitOn(Normalize(raw), ';')[1]))
  {
    var line := Normalize(raw);
    NormalizeIsNormalized(raw);
    assert Classify(raw) == Data(RecordOf(line));
    assert RecordOf(line).values == SplitOn(Strip(SplitOn(line, ';')[0]), ' ');
    SplitOnCount(line, ';');
    ValuesShape(line);
  }
}
