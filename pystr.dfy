/** The Python `str` operations the section splitter relies on: `isspace`,
    `strip`, `replace`, `re.sub(r'\s+', ' ', ...)`, `startswith` and `split(sep)`. */
module PyStr {

  /** The characters for which Python's `str.isspace` holds (and which `\s` matches
      in a `str` pattern). */
  const Whitespace: set<char> := {
    '\t', '\n', '\U{0B}', '\U{0C}', '\r', '\U{1C}', '\U{1D}', '\U{1E}', '\U{1F}', ' ',
    '\U{85}', '\U{A0}', '\U{1680}', '\U{2000}', '\U{2001}', '\U{2002}', '\U{2003}',
    '\U{2004}', '\U{2005}', '\U{2006}', '\U{2007}', '\U{2008}', '\U{2009}', '\U{200A}',
    '\U{2028}', '\U{2029}', '\U{202F}', '\U{205F}', '\U{3000}'
  }

  predicate IsSpace(c: char) { c in Whitespace }

  predicate StartsWith(s: string, c: char) { |s| > 0 && s[0] == c }

  /** `s.replace(c, '')` */
  function RemoveAll(s: string, c: char): (r: string)
    ensures c !in r
    ensures forall x :: x in r <==> x in s && x != c
    ensures multiset(r) == multiset(s)[c := 0]
    ensures |r| <= |s|
  {
    if s == [] then []
    else
      assert s == [s[0]] + s[1..];
      if s[0] == c then RemoveAll(s[1..], c)
      else [s[0]] + RemoveAll(s[1..], c)
  }

  /** `replace` works piece by piece: the kept characters stay in their order. */
  lemma {:induction false} RemoveAllConcat(a: string, b: string, c: char)
    ensures RemoveAll(a + b, c) == RemoveAll(a, c) + RemoveAll(b, c)
    decreases |a|
  {
    if a == [] {
      assert a + b == b;
    } else {
      var x, t := a[0], a[1..];
      ConsAppend(a, b);
      RemoveAllConcat(t, b, c);
      RemoveAllCons(x, t + b, c);
      RemoveAllCons(x, t, c);
      AppendAssoc(if x == c then [] else [x], RemoveAll(t, c), RemoveAll(b, c));
    }
  }

  lemma RemoveAllCons(x: char, t: string, c: char)
    ensures RemoveAll([x] + t, c) == (if x == c then [] else [x]) + RemoveAll(t, c)
  {
    ConsTail(x, t);
  }

  lemma ConsAppend<T>(a: seq<T>, b: seq<T>)
    requires a != []
    ensures a == [a[0]] + a[1..] && a + b == [a[0]] + (a[1..] + b)
  {
  }

  lemma AppendAssoc<T>(a: seq<T>, b: seq<T>, c: seq<T>)
    ensures a + (b + c) == (a + b) + c
  {
  }

  /** `s.lstrip()` */
  function LStrip(s: string): (r: string)
    ensures |r| <= |s| && r == s[|s| - |r|..]
    ensures r != [] ==> !IsSpace(r[0])
    ensures forall i :: 0 <= i < |s| - |r| ==> IsSpace(s[i])
  {
    if s != [] && IsSpace(s[0]) then
      var r := LStrip(s[1..]);
      TailSuffix(s, r);
      r
    else s
  }

  lemma TailSuffix<T>(s: seq<T>, r: seq<T>)
    requires s != [] && |r| <= |s| - 1 && r == s[1..][|s| - 1 - |r|..]
    ensures r == s[|s| - |r|..]
    ensures forall i | 1 <= i < |s| :: s[1..][i - 1] == s[i]
  {
  }

  /** `s.rstrip()` */
  function RStrip(s: string): (r: string)
    ensures |r| <= |s| && r == s[..|r|]
    ensures r != [] ==> !IsSpace(r[|r| - 1])
    ensures forall i :: |r| <= i < |s| ==> IsSpace(s[i])
  {
    if s != [] && IsSpace(s[|s| - 1]) then RStrip(s[..|s| - 1]) else s
  }

  /** `s.strip()`: `s` without the whitespace at either end. */
  function Strip(s: string): (r: string)
    ensures |r| <= |s|
    ensures r != [] ==> !IsSpace(r[0]) && !IsSpace(r[|r| - 1])
    ensures s != [] && !IsSpace(s[0]) ==> r != [] && r == s[..|r|]
    ensures (forall x :: x in r ==> x in s)
    ensures exists i, j :: TrimmedTo(s, i, j, r)
  {
    var t := LStrip(s);
    var r := RStrip(t);
    TrimmedBetween(s, t, r);
    r
  }

  /** `r` is the part `s[i..j]` of `s`, and only whitespace lies outside it. */
  predicate TrimmedTo(s: string, i: int, j: int, r: string)
  {
    && 0 <= i <= j <= |s| && r == s[i..j]
    && (forall k | 0 <= k < i :: IsSpace(s[k])) && (forall k | j <= k < |s| :: IsSpace(s[k]))
  }

  /**
   * A prefix `r` of a suffix `t` of `s`, with whitespace cut off before `t` and after `r`
   * and none left at either end: `r` is `s` stripped.
   */
  lemma TrimmedBetween(s: string, t: string, r: string)
    requires |t| <= |s| && t == s[|s| - |t|..]
    requires forall k :: 0 <= k < |s| - |t| ==> IsSpace(s[k])
    requires t != [] ==> !IsSpace(t[0])
    requires |r| <= |t| && r == t[..|r|]
    requires forall k :: |r| <= k < |t| ==> IsSpace(t[k])
    requires r != [] ==> !IsSpace(r[|r| - 1])
    ensures |r| <= |s|
    ensures r != [] ==> !IsSpace(r[0]) && !IsSpace(r[|r| - 1])
    ensures s != [] && !IsSpace(s[0]) ==> r != [] && r == s[..|r|]
    ensures forall x :: x in r ==> x in s
    ensures exists i, j :: TrimmedTo(s, i, j, r)
  {
    var i := |s| - |t|;
    var j := i + |r|;
    SuffixSlice(s, i, |r|);
    forall k | j <= k < |s| ensures IsSpace(s[k]) {
      assert s[k] == t[k - i];
    }
    assert TrimmedTo(s, i, j, r);
    if s != [] && !IsSpace(s[0]) {
      assert i == 0;
      assert t == s;
    }
    forall x | x in r ensures x in s {
      var k :| 0 <= k < |r| && r[k] == x;
      assert s[i + k] == x;
    }
  }

  lemma SuffixSlice<T>(s: seq<T>, i: nat, n: nat)
    requires i + n <= |s|
    ensures s[i..][..n] == s[i..i + n]
    ensures forall k | i <= k < |s| :: s[i..][k - i] == s[k]
  {
  }

  /** `re.sub(r'\s+', ' ', s)`: every maximal run of whitespace becomes one space. */
  function Collapse(s: string): (r: string)
    decreases |s|
  {
    if s == [] then []
    else if IsSpace(s[0]) then [' '] + Collapse(LStrip(s[1..]))
    else [s[0]] + Collapse(s[1..])
  }

  /** The characters of `s` that are not whitespace, in order. */
  function NonSpace(s: string): string
  {
    if s == [] then []
    else if IsSpace(s[0]) then NonSpace(s[1..])
    else [s[0]] + NonSpace(s[1..])
  }

  /** The only whitespace is the plain space, never two in a row. */
  predicate PlainSpacing(s: string)
  {
    && (forall i :: 0 <= i < |s| && IsSpace(s[i]) ==> s[i] == ' ')
    && (forall i :: 0 <= i < |s| - 1 && s[i] == ' ' ==> s[i + 1] != ' ')
  }

  /** What a line looks like once the splitter has cleaned it: plain single spaces
      between words and none at either end. */
  predicate Normalized(s: string)
  {
    PlainSpacing(s) && (s != [] ==> s[0] != ' ' && s[|s| - 1] != ' ')
  }

  /** The cleaning the splitter applies to every input line. */
  function Normalize(line: string): string
  {
    Collapse(Strip(RemoveAll(line, '\n')))
  }

  /** `s.split(c)` with an explicit separator: the pieces between occurrences of `c`. */
  function SplitOn(s: string, c: char): (r: seq<string>)
    ensures |r| >= 1
  {
    if s == [] then [""]
    else
      var rest := SplitOn(s[1..], c);
      if s[0] == c then [""] + rest else [[s[0]] + rest[0]] + rest[1..]
  }

  /** `c.join(pieces)` */
  function Join(pieces: seq<string>, c: char): string
  {
    if pieces == [] then ""
    else if |pieces| == 1 then pieces[0]
    else pieces[0] + [c] + Join(pieces[1..], c)
  }

  /** The number of occurrences of `c` in `s`. */
  function Count(s: string, c: char): nat
  {
    if s == [] then 0 else (if s[0] == c then 1 else 0) + Count(s[1..], c)
  }

  // ---------------------------------------------------------------------------
  // What Collapse and Normalize do

  lemma CollapseFirst(s: string)
    requires s != []
    ensures Collapse(s) != [] && (Collapse(s)[0] == ' ' <==> IsSpace(s[0]))
  {
  }

  lemma PlainSpacingCons(x: char, t: string)
    requires PlainSpacing(t)
    requires !IsSpace(x) || (x == ' ' && (t == [] || t[0] != ' '))
    ensures PlainSpacing([x] + t)
  {
    var u := [x] + t;
    forall i | 0 <= i < |u| - 1 && u[i] == ' ' ensures u[i + 1] != ' ' {
      if i > 0 { assert u[i] == t[i - 1] && u[i + 1] == t[i]; }
    }
    forall i | 0 <= i < |u| && IsSpace(u[i]) ensures u[i] == ' ' {
      if i > 0 { assert u[i] == t[i - 1]; }
    }
  }

  lemma {:induction false} CollapseSpacing(s: string)
    ensures PlainSpacing(Collapse(s))
    decreases |s|
  {
    if s == [] {
    } else if IsSpace(s[0]) {
      var t := LStrip(s[1..]);
      CollapseSpacing(t);
      if t != [] { CollapseFirst(t); }
      PlainSpacingCons(' ', Collapse(t));
    } else {
      CollapseSpacing(s[1..]);
      PlainSpacingCons(s[0], Collapse(s[1..]));
    }
  }

  lemma {:induction false} CollapseLast(s: string)
    requires s != [] && !IsSpace(s[|s| - 1])
    ensures Collapse(s) != [] && Collapse(s)[|Collapse(s)| - 1] == s[|s| - 1]
    decreases |s|
  {
    if IsSpace(s[0]) {
      var u := s[1..];
      assert |u| > 0 && u[|u| - 1] == s[|s| - 1];
      var t := LStrip(u);
      assert t != [];
      assert t[|t| - 1] == u[|u| - 1];
      CollapseLast(t);
      var c := Collapse(t);
      assert Collapse(s) == [' '] + c;
    } else if |s| > 1 {
      CollapseLast(s[1..]);
      assert Collapse(s) == [s[0]] + Collapse(s[1..]);
    }
  }

  /** Collapsing whitespace never touches the words. */
  lemma {:induction false} CollapseKeepsWords(s: string)
    ensures NonSpace(Collapse(s)) == NonSpace(s)
    decreases |s|
  {
    if s == [] {
    } else if IsSpace(s[0]) {
      var t := LStrip(s[1..]);
      CollapseKeepsWords(t);
      LStripKeepsWords(s[1..]);
      assert Collapse(s) == [' '] + Collapse(t);
      assert NonSpace([' '] + Collapse(t)) == NonSpace(Collapse(t)) by {
        assert ([' '] + Collapse(t))[1..] == Collapse(t);
      }
    } else {
      CollapseKeepsWords(s[1..]);
      assert ([s[0]] + Collapse(s[1..]))[1..] == Collapse(s[1..]);
    }
  }

  lemma {:induction false} LStripKeepsWords(s: string)
    ensures NonSpace(LStrip(s)) == NonSpace(s)
  {
    if s != [] && IsSpace(s[0]) {
      LStripKeepsWords(s[1..]);
    }
  }

  /** A cleaned line has plain single spaces between words and none at either end. */
  lemma NormalizeIsNormalized(line: string)
    ensures Normalized(Normalize(line))
  {
    var t := Strip(RemoveAll(line, '\n'));
    CollapseSpacing(t);
    if t != [] {
      CollapseFirst(t);
      CollapseLast(t);
    }
  }

  /** Cleaning a line that is already clean changes nothing. */
  lemma {:induction false} NormalizeFixesNormalized(s: string)
    requires Normalized(s)
    ensures Normalize(s) == s
  {
    RemoveAllAbsent(s, '\n');
    StripClean(s);
    CollapsePlain(s);
  }

  lemma {:induction false} RemoveAllAbsent(s: string, c: char)
    requires c !in s
    ensures RemoveAll(s, c) == s
  {
    if s != [] {
      assert s[0] != c;
      RemoveAllAbsent(s[1..], c);
    }
  }

  lemma StripClean(s: string)
    requires s != [] ==> !IsSpace(s[0]) && !IsSpace(s[|s| - 1])
    ensures Strip(s) == s
  {
  }

  lemma {:induction false} CollapsePlain(s: string)
    requires PlainSpacing(s)
    requires s != [] ==> s[0] != ' ' || |s| == 1 || s[1] != ' '
    ensures Collapse(s) == s
    decreases |s|
  {
    if s == [] {
    } else if IsSpace(s[0]) {
      assert s[0] == ' ';
      var rest := s[1..];
      assert rest != [] ==> !IsSpace(rest[0]);
      assert LStrip(rest) == rest;
      CollapsePlain(rest);
    } else {
      CollapsePlain(s[1..]);
    }
  }

  // ---------------------------------------------------------------------------
  // What SplitOn does

  /** There is one piece more than there are separators. */
  lemma {:induction false} SplitOnCount(s: string, c: char)
    ensures |SplitOn(s, c)| == Count(s, c) + 1
  {
    if s != [] {
      SplitOnCount(s[1..], c);
    }
  }

  /** No piece contains the separator, and every character of a piece comes from `s`. */
  lemma {:induction false} SplitOnPieces(s: string, c: char)
    ensures forall k :: 0 <= k < |SplitOn(s, c)| ==>
      c !in SplitOn(s, c)[k] && (forall x :: x in SplitOn(s, c)[k] ==> x in s)
  {
    if s != [] {
      SplitOnPieces(s[1..], c);
      var rest := SplitOn(s[1..], c);
      var r := SplitOn(s, c);
      forall k | 0 <= k < |r|
        ensures c !in r[k] && (forall x :: x in r[k] ==> x in s)
      {
        if s[0] == c {
          if k > 0 { assert r[k] == rest[k - 1]; }
        } else if k == 0 {
          assert r[0] == [s[0]] + rest[0];
        } else {
          assert r[k] == rest[k];
        }
      }
    }
  }

  /** The first piece is the text before the first separator. */
  lemma {:induction false} SplitOnFirst(s: string, c: char)
    ensures |SplitOn(s, c)[0]| <= |s|
    ensures SplitOn(s, c)[0] == s[..|SplitOn(s, c)[0]|]
    ensures |SplitOn(s, c)[0]| < |s| ==> s[|SplitOn(s, c)[0]|] == c
  {
    if s != [] {
      SplitOnFirst(s[1..], c);
    }
  }

  /** Joining the pieces with the separator gives the string back. */
  lemma {:induction false} JoinSplitOn(s: string, c: char)
    ensures Join(SplitOn(s, c), c) == s
  {
    if s != [] {
      JoinSplitOn(s[1..], c);
      var rest := SplitOn(s[1..], c);
      if s[0] == c {
        assert Join([""] + rest, c) == [c] + Join(rest, c);
      } else if |rest| == 1 {
        assert SplitOn(s, c) == [[s[0]] + rest[0]];
      } else {
        var r := SplitOn(s, c);
        assert r[1..] == rest[1..];
        assert Join(r, c) == [s[0]] + rest[0] + [c] + Join(rest[1..], c);
        assert Join(rest, c) == rest[0] + [c] + Join(rest[1..], c);
      }
    }
  }

  /** Splitting a join of separator-free pieces gives the pieces back. */
  lemma {:induction false} SplitOnJoin(pieces: seq<string>, c: char)
    requires |pieces| >= 1
    requires forall k :: 0 <= k < |pieces| ==> c !in pieces[k]
    ensures SplitOn(Join(pieces, c), c) == pieces
    decreases pieces
  {
    if |pieces| == 1 {
      SplitOnFree(pieces[0], c);
    } else {
      SplitOnJoin(pieces[1..], c);
      SplitOnAppend(pieces[0], Join(pieces[1..], c), c);
    }
  }

  lemma {:induction false} SplitOnFree(s: string, c: char)
    requires c !in s
    ensures SplitOn(s, c) == [s]
  {
    if s != [] {
      SplitOnFree(s[1..], c);
      assert [s[0]] + s[1..] == s;
    }
  }

  lemma {:induction false} SplitOnAppend(p: string, t: string, c: char)
    requires c !in p
    ensures SplitOn(p + [c] + t, c) == [p] + SplitOn(t, c)
    decreases |p|
  {
    if p == [] {
      assert [c] + t == p + [c] + t;
      assert ([c] + t)[1..] == t;
    } else {
      assert (p + [c] + t)[1..] == p[1..] + [c] + t;
      SplitOnAppend(p[1..], t, c);
      var rest := SplitOn(p[1..] + [c] + t, c);
      assert rest[0] == p[1..] && rest[1..] == SplitOn(t, c);
      assert [p[0]] + p[1..] == p;
    }
  }

  /** Splitting a clean, non-empty string on spaces yields non-empty words free of whitespace. */
  lemma WordsOfNormalized(s: string)
    requires Normalized(s) && s != []
    ensures forall k :: 0 <= k < |SplitOn(s, ' ')| ==>
      SplitOn(s, ' ')[k] != "" && (forall x :: x in SplitOn(s, ' ')[k] ==> !IsSpace(x) && x in s)
  {
    WordsNonEmpty(s);
    SplitOnPieces(s, ' ');
  }

  lemma {:induction false} WordsNonEmpty(s: string)
    requires PlainSpacing(s) && (s != [] ==> s[|s| - 1] != ' ')
    ensures forall k :: 1 <= k < |SplitOn(s, ' ')| ==> SplitOn(s, ' ')[k] != ""
    ensures s != [] && s[0] != ' ' ==> SplitOn(s, ' ')[0] != ""
  {
    if s != [] {
      var t := s[1..];
      assert PlainSpacing(t) by {
        forall i | 0 <= i < |t| - 1 && t[i] == ' ' ensures t[i + 1] != ' ' {
          assert s[i + 1] == ' ';
        }
      }
      WordsNonEmpty(t);
      if s[0] == ' ' {
        assert t != [] && t[0] != ' ';
      }
    }
  }

  // ---------------------------------------------------------------------------
  // `str.split()`: the words of a string, defined on their own

  /** The leading run of non-whitespace characters of `s`. */
  function TakeWord(s: string): (w: string)
    ensures |w| <= |s| && w == s[..|w|]
    ensures forall x | x in w :: !IsSpace(x)
    ensures |w| < |s| ==> IsSpace(s[|w|])
  {
    if s == [] || IsSpace(s[0]) then [] else [s[0]] + TakeWord(s[1..])
  }

  /** `s.split()` without a separator: the maximal runs of non-whitespace characters of
      `s`, in order. */
  function Words(s: string): seq<string>
    decreases |s|
  {
    var t := LStrip(s);
    if t == [] then []
    else
      var w := TakeWord(t);
      assert w != [];
      [w] + Words(t[|w|..])
  }

  /** Leading whitespace separates no word. */
  lemma WordsLeadingSpace(s: string)
    requires s != [] && IsSpace(s[0])
    ensures Words(s) == Words(s[1..])
  {
    assert LStrip(s) == LStrip(s[1..]);
  }

  /** A non-whitespace character in front joins the first word when that starts the
      string, and is a word of its own otherwise. */
  lemma WordsCons(c: char, t: string)
    requires !IsSpace(c)
    ensures t != [] && !IsSpace(t[0]) ==> Words(t) != [] && Words([c] + t) == [[c] + Words(t)[0]] + Words(t)[1..]
    ensures t == [] || IsSpace(t[0]) ==> Words([c] + t) == [[c]] + Words(t)
  {
    var u := [c] + t;
    assert u[0] == c && u[1..] == t;
    assert LStrip(u) == u;
    assert TakeWord(u) == [c] + TakeWord(t);
    if t != [] && !IsSpace(t[0]) {
      var w := TakeWord(t);
      assert LStrip(t) == t;
      assert u[|[c] + w|..] == t[|w|..];
    } else {
      assert u[1..] == t;
    }
  }

  /** Two strings with the same words whose first characters both are, or both are not,
      whitespace keep the same words with a non-whitespace character in front. */
  lemma WordsConsBoth(c: char, t: string, t': string)
    requires !IsSpace(c) && Words(t) == Words(t')
    requires (t != [] && !IsSpace(t[0])) == (t' != [] && !IsSpace(t'[0]))
    ensures Words([c] + t) == Words([c] + t')
  {
    WordsCons(c, t);
    WordsCons(c, t');
  }

  lemma SnocCons<T>(a: seq<T>, x: T)
    requires a != []
    ensures (a + [x])[0] == a[0] && (a + [x])[1..] == a[1..] + [x]
    ensures a + [x] == [a[0]] + (a[1..] + [x])
  {
  }

  lemma ConsTail<T>(c: T, t: seq<T>)
    ensures ([c] + t)[0] == c && ([c] + t)[1..] == t
  {
  }

  /** Trailing whitespace separates no word. */
  lemma {:induction false} WordsSnocSpace(a: string, x: char)
    requires IsSpace(x)
    ensures Words(a + [x]) == Words(a)
    decreases |a|
  {
    if a == [] {
      assert LStrip([x]) == [];
    } else {
      var u := a + [x];
      SnocCons(a, x);
      WordsSnocSpace(a[1..], x);
      if IsSpace(a[0]) {
        WordsLeadingSpace(u);
        WordsLeadingSpace(a);
      } else {
        ConsParts(a);
        if a[1..] != [] {
          SnocCons(a[1..], x);
        }
        WordsConsBoth(a[0], a[1..] + [x], a[1..]);
      }
    }
  }

  lemma {:induction false} WordsLStrip(s: string)
    ensures Words(LStrip(s)) == Words(s)
  {
    if s != [] && IsSpace(s[0]) {
      WordsLStrip(s[1..]);
      WordsLeadingSpace(s);
    }
  }

  lemma {:induction false} WordsRStrip(s: string)
    ensures Words(RStrip(s)) == Words(s)
    decreases |s|
  {
    if s != [] && IsSpace(s[|s| - 1]) {
      var front := s[..|s| - 1];
      WordsRStrip(front);
      SnocParts(s);
      WordsSnocSpace(front, s[|s| - 1]);
    }
  }

  lemma SnocParts<T>(s: seq<T>)
    requires s != []
    ensures s == s[..|s| - 1] + [s[|s| - 1]]
  {
  }

  lemma ConsParts<T>(s: seq<T>)
    requires s != []
    ensures s == [s[0]] + s[1..]
  {
  }

  /** Collapsing the whitespace runs keeps the words. */
  lemma {:induction false} WordsCollapse(s: string)
    ensures Words(Collapse(s)) == Words(s)
    decreases |s|
  {
    if s == [] {
    } else if IsSpace(s[0]) {
      var t := LStrip(s[1..]);
      WordsCollapse(t);
      WordsLStrip(s[1..]);
      WordsLeadingSpace(s);
      ConsTail(' ', Collapse(t));
      WordsLeadingSpace([' '] + Collapse(t));
    } else {
      var t := s[1..];
      WordsCollapse(t);
      ConsParts(s);
      if t != [] {
        CollapseFirst(t);
        if !IsSpace(t[0]) {
          assert Collapse(t)[0] == t[0];
        }
      }
      WordsConsBoth(s[0], Collapse(t), t);
    }
  }

  lemma PlainSpacingTail(s: string)
    requires PlainSpacing(s) && s != []
    ensures PlainSpacing(s[1..])
  {
    var t := s[1..];
    forall i | 0 <= i < |t| - 1 && t[i] == ' ' ensures t[i + 1] != ' ' {
      assert s[i + 1] == ' ';
    }
  }

  /** On a clean line, splitting on single spaces yields exactly the words. */
  lemma {:induction false} SplitNormalizedIsWords(s: string)
    requires Normalized(s) && s != []
    ensures SplitOn(s, ' ') == Words(s)
    decreases |s|
  {
    var c := s[0];
    var t := s[1..];
    ConsParts(s);
    assert !IsSpace(c);
    WordsCons(c, t);
    SplitOnCons(c, t, ' ');
    if t == [] {
      assert SplitOn(s, ' ') == [[c]] == Words(s);
    } else {
      PlainSpacingTail(s);
      if t[0] != ' ' {
        assert !IsSpace(t[0]);
        SplitNormalizedIsWords(t);
        assert SplitOn(s, ' ') == [[c] + Words(t)[0]] + Words(t)[1..];
      } else {
        SplitAfterSpace(s);
        SplitNormalizedIsWords(s[2..]);
        assert [c] + "" == [c];
        assert SplitOn(s, ' ') == [[c]] + Words(s[2..]);
      }
    }
  }

  lemma SplitOnCons(x: char, t: string, c: char)
    ensures SplitOn([x] + t, c)
              == if x == c then [""] + SplitOn(t, c) else [[x] + SplitOn(t, c)[0]] + SplitOn(t, c)[1..]
  {
    assert ([x] + t)[0] == x && ([x] + t)[1..] == t;
  }

  /** A clean line whose second character is a space: the words after it. */
  lemma SplitAfterSpace(s: string)
    requires Normalized(s) && |s| >= 2 && s[1] == ' '
    ensures Normalized(s[2..]) && s[2..] != []
    ensures SplitOn(s[1..], ' ') == [""] + SplitOn(s[2..], ' ')
    ensures Words(s[1..]) == Words(s[2..])
  {
    var t := s[1..];
    assert t[1..] == s[2..];
    PlainSpacingTail(s);
    PlainSpacingTail(t);
    WordsLeadingSpace(t);
  }

  /** The cleaning keeps the words of a line and makes `split(' ')` find exactly them:
      no piece is empty or holds whitespace, and a blank line is the only one whose
      cleaned form is empty. */
  lemma NormalizeSplitIsWords(line: string)
    ensures Normalize(line) == [] <==> Words(RemoveAll(line, '\n')) == []
    ensures Normalize(line) != [] ==> SplitOn(Normalize(line), ' ') == Words(RemoveAll(line, '\n'))
  {
    var s := RemoveAll(line, '\n');
    WordsLStrip(s);
    WordsRStrip(LStrip(s));
    WordsCollapse(Strip(s));
    var n := Normalize(line);
    NormalizeIsNormalized(line);
    if n != [] {
      SplitNormalizedIsWords(n);
      assert !IsSpace(n[0]) && LStrip(n) == n;
    }
  }

  /** Cleaning a line drops whitespace only. */
  lemma NormalizeKeepsWords(line: string)
    ensures NonSpace(Normalize(line)) == NonSpace(line)
  {
    var s := RemoveAll(line, '\n');
    RemoveNewlinesKeepsWords(line);
    LStripKeepsWords(s);
    RStripKeepsWords(LStrip(s));
    CollapseKeepsWords(Strip(s));
  }

  lemma {:induction false} RemoveNewlinesKeepsWords(s: string)
    ensures NonSpace(RemoveAll(s, '\n')) == NonSpace(s)
  {
    if s != [] {
      RemoveNewlinesKeepsWords(s[1..]);
      if s[0] != '\n' {
        assert ([s[0]] + RemoveAll(s[1..], '\n'))[1..] == RemoveAll(s[1..], '\n');
      }
    }
  }

  lemma {:induction false} NonSpaceSnocSpace(a: string, x: char)
    requires IsSpace(x)
    ensures NonSpace(a + [x]) == NonSpace(a)
    decreases |a|
  {
    if a == [] {
      assert NonSpace([x]) == NonSpace([x][1..]);
    } else {
      assert (a + [x])[0] == a[0] && (a + [x])[1..] == a[1..] + [x];
      NonSpaceSnocSpace(a[1..], x);
    }
  }

  lemma {:induction false} RStripKeepsWords(s: string)
    ensures NonSpace(RStrip(s)) == NonSpace(s)
    decreases |s|
  {
    if s != [] && IsSpace(s[|s| - 1]) {
      var front := s[..|s| - 1];
      RStripKeepsWords(front);
      assert s == front + [s[|s| - 1]];
      NonSpaceSnocSpace(front, s[|s| - 1]);
    }
  }
}
