/** Neighbourhood queries over the pipes of a network, and the list of its sources.
    The pipe classes are dataclasses, which compare by field values; the pipes of a
    network have distinct IDs, so pipes are compared here by identity. The pipe with the
    same ID as the query pipe is excluded by ID. Those dataclasses are also unhashable, so
    `set()` in `getnextneighbor` raises TypeError on any non-empty list of candidates;
    the model deduplicates by identity instead, as the code evidently intends. */
module SpecialGetters {
  import opened ElementStore
  import opened Elements

  // ---------------------------------------------------------------------------
  // getneighbor

  /** Whether a pipe starts or ends at one of the two given nodes. */
  predicate Touches(x: Link, a: Node?, b: Node?)
    reads x
  {
    x.startnode == a || x.startnode == b || x.endnode == a || x.endnode == b
  }

  /** Whether `x` is a neighbour of `pipe`: it shares an endpoint with it and has another
      ID. */
  predicate IsNeighbor(x: Link, pipe: Link)
    reads x, pipe
  {
    Touches(x, pipe.startnode, pipe.endnode) && x.id != pipe.id
  }

  /** `getneighbor`: the pipes that share an endpoint with `pipe`, in store order, except
      any with the same ID as `pipe`. */
  function Neighbors(pipes: seq<Link>, pipe: Link): (r: seq<Link>)
    reads pipe, set x | x in pipes
    ensures forall x | x in r :: x in pipes && IsNeighbor(x, pipe)
    ensures forall x | x in pipes && IsNeighbor(x, pipe) :: x in r
  {
    if pipes == [] then []
    else
      var x := pipes[|pipes| - 1];
      var front := Neighbors(pipes[..|pipes| - 1], pipe);
      assert pipes == pipes[..|pipes| - 1] + [x];
      if IsNeighbor(x, pipe) then front + [x] else front
  }

  /** The neighbours are kept in store order: the neighbours of two runs of pipes, one
      after the other, are the neighbours of the first run followed by those of the
      second. */
  lemma {:induction false} NeighborsAppend(a: seq<Link>, b: seq<Link>, pipe: Link)
    ensures Neighbors(a + b, pipe) == Neighbors(a, pipe) + Neighbors(b, pipe)
  {
    if b != [] {
      var last := b[|b| - 1];
      assert (a + b)[..|a + b| - 1] == a + b[..|b| - 1];
      NeighborsAppend(a, b[..|b| - 1], pipe);
    } else {
      assert a + b == a;
    }
  }

  /** Each pipe occurs among the neighbours as often as in the store when it is a
      neighbour, and not at all otherwise. */
  lemma {:induction false} NeighborsCount(pipes: seq<Link>, pipe: Link, x: Link)
    ensures multiset(Neighbors(pipes, pipe))[x] == if IsNeighbor(x, pipe) then multiset(pipes)[x] else 0
  {
    if pipes != [] {
      var front := pipes[..|pipes| - 1];
      NeighborsCount(front, pipe, x);
      assert pipes == front + [pipes[|pipes| - 1]];
    }
  }

  /** `getneighbor` on a network: over its pipes in store order. */
  function GetNeighbor(network: Network, pipe: Link): (r: seq<Link>)
    requires network.Valid()
    reads network, pipe, set x | x in Values(network.pipes)
    ensures forall x | x in r :: x in Values(network.pipes) && IsNeighbor(x, pipe)
    ensures forall x | x in Values(network.pipes) && IsNeighbor(x, pipe) :: x in r
  {
    Neighbors(Values(network.pipes), pipe)
  }

  // ---------------------------------------------------------------------------
  // The steps of getnextneighbor

  /** The neighbours of each pipe of `ns`, one list after the other (the `+=` loop). */
  function Reached(pipes: seq<Link>, ns: seq<Link>): (r: seq<Link>)
    reads set x | x in pipes, set n | n in ns
    ensures forall x | x in r :: x in pipes
  {
    if ns == [] then []
    else Reached(pipes, ns[..|ns| - 1]) + Neighbors(pipes, ns[|ns| - 1])
  }

  /** The pipes of `s` whose ID is not `id`. */
  function WithoutId(s: seq<Link>, id: string): (r: seq<Link>)
    reads set x | x in s
    ensures forall x | x in r :: x in s && x.id != id
    ensures forall x | x in s && x.id != id :: x in r
  {
    if s == [] then []
    else
      var x := s[|s| - 1];
      var front := WithoutId(s[..|s| - 1], id);
      assert s == s[..|s| - 1] + [x];
      if x.id != id then front + [x] else front
  }

  lemma {:induction false} WithoutIdCount(s: seq<Link>, id: string, x: Link)
    requires x.id != id
    ensures multiset(WithoutId(s, id))[x] == multiset(s)[x]
  {
    if s != [] {
      var front := s[..|s| - 1];
      WithoutIdCount(front, id, x);
      assert s == front + [s[|s| - 1]];
    }
  }

  /** `list.remove`: the first occurrence of `y` removed, if there is one. */
  function RemoveFirst<T(==)>(s: seq<T>, y: T): (r: seq<T>)
    ensures multiset(r) == multiset(s) - multiset{y}
    ensures forall x | x in r :: x in s
  {
    if s == [] then []
    else if s[0] == y then
      assert s == [s[0]] + s[1..];
      s[1..]
    else
      assert s == [s[0]] + s[1..];
      [s[0]] + RemoveFirst(s[1..], y)
  }

  /** The removal loop: for each `y` of `ys` in turn, one occurrence of it removed when
      there is one. */
  function RemoveEachOnce<T(==)>(s: seq<T>, ys: seq<T>): (r: seq<T>)
    ensures forall x | x in r :: x in s
  {
    if ys == [] then s
    else
      var r := RemoveEachOnce(s, ys[..|ys| - 1]);
      if ys[|ys| - 1] in r then RemoveFirst(r, ys[|ys| - 1]) else r
  }

  /** Removing each of `ys` once takes away as many occurrences of each element as `ys`
      holds, and no more than are there. */
  lemma {:induction false} RemoveEachOnceCount<T>(s: seq<T>, ys: seq<T>)
    ensures multiset(RemoveEachOnce(s, ys)) == multiset(s) - multiset(ys)
  {
    if ys != [] {
      var front := ys[..|ys| - 1];
      var y := ys[|ys| - 1];
      RemoveEachOnceCount(s, front);
      assert ys == front + [y];
      var r := RemoveEachOnce(s, front);
      if y !in r {
        assert multiset(r)[y] == 0;
      }
      assert multiset(s) - multiset(front) - multiset{y} == multiset(s) - multiset(ys);
    }
  }

  predicate NoDuplicates<T(==)>(s: seq<T>)
  {
    forall i, j :: 0 <= i < j < |s| ==> s[i] != s[j]
  }

  /** `list(set(...))`: each element once. */
  function Dedup<T(==)>(s: seq<T>): (r: seq<T>)
    ensures forall x | x in r :: x in s
    ensures forall x | x in s :: x in r
    ensures NoDuplicates(r)
  {
    if s == [] then []
    else
      var x := s[|s| - 1];
      var front := Dedup(s[..|s| - 1]);
      assert s == s[..|s| - 1] + [x];
      if x in s[..|s| - 1] then front else front + [x]
  }

  /** Python's order on strings: lexicographic by character. */
  predicate StrLe(a: string, b: string)
  {
    if a == [] then true
    else if b == [] then false
    else if a[0] != b[0] then a[0] < b[0]
    else StrLe(a[1..], b[1..])
  }

  lemma {:induction false} StrLeTotal(a: string, b: string)
    ensures StrLe(a, b) || StrLe(b, a)
  {
    if a != [] && b != [] && a[0] == b[0] {
      StrLeTotal(a[1..], b[1..]);
    }
  }

  predicate SortedById(s: seq<Link>)
    reads set x | x in s
  {
    forall i :: 0 <= i < |s| - 1 ==> StrLe(s[i].id, s[i + 1].id)
  }

  function InsertById(x: Link, s: seq<Link>): (r: seq<Link>)
    reads x, set y | y in s
    ensures multiset(r) == multiset(s) + multiset{x}
    ensures |r| == |s| + 1 && (r[0] == x || (s != [] && r[0] == s[0]))
  {
    if s == [] then [x]
    else if StrLe(x.id, s[0].id) then [x] + s
    else
      assert s == [s[0]] + s[1..];
      [s[0]] + InsertById(x, s[1..])
  }

  /** `sort(key=lambda x: x.id)`. */
  function SortById(s: seq<Link>): (r: seq<Link>)
    reads set x | x in s
    ensures multiset(r) == multiset(s)
  {
    if s == [] then []
    else
      assert s == [s[0]] + s[1..];
      var t := SortById(s[1..]);
      assert forall y | y in t :: y in s by {
        forall y | y in t ensures y in s {
          assert y in multiset(t);
        }
      }
      InsertById(s[0], t)
  }

  lemma {:induction false} InsertByIdSorted(x: Link, s: seq<Link>)
    requires SortedById(s)
    ensures SortedById(InsertById(x, s))
  {
    if s != [] && !StrLe(x.id, s[0].id) {
      StrLeTotal(x.id, s[0].id);
      InsertByIdSorted(x, s[1..]);
    }
  }

  /** The sort yields a list in ID order holding the same pipes. */
  lemma {:induction false} SortByIdSorted(s: seq<Link>)
    ensures SortedById(SortById(s))
  {
    if s != [] {
      SortByIdSorted(s[1..]);
      InsertByIdSorted(s[0], SortById(s[1..]));
    }
  }

  /** Sorting neither adds nor drops duplicates. */
  lemma SortKeepsNoDuplicates(s: seq<Link>)
    requires NoDuplicates(s)
    ensures NoDuplicates(SortById(s))
  {
    var r := SortById(s);
    forall i, j | 0 <= i < j < |r| ensures r[i] != r[j] {
      DistinctCount(s, r[i]);
      if r[i] == r[j] {
        RepeatCount(r, i, j);
      }
    }
  }

  /** An element at two positions occurs at least twice. */
  lemma RepeatCount<T>(r: seq<T>, i: nat, j: nat)
    requires i < j < |r| && r[i] == r[j]
    ensures multiset(r)[r[i]] >= 2
  {
    assert r == r[..j] + [r[j]] + r[j + 1..];
    assert r[i] in r[..j];
  }

  lemma {:induction false} DistinctCount<T>(s: seq<T>, x: T)
    requires NoDuplicates(s)
    ensures multiset(s)[x] <= 1
  {
    if s != [] {
      var front := s[..|s| - 1];
      assert s == front + [s[|s| - 1]];
      assert NoDuplicates(front) by {
        forall i, j | 0 <= i < j < |front| ensures front[i] != front[j] {
          assert front[i] == s[i] && front[j] == s[j];
        }
      }
      DistinctCount(front, x);
      if x == s[|s| - 1] {
        assert x !in front by {
          forall i | 0 <= i < |front| ensures front[i] != x {
            assert front[i] == s[i];
          }
        }
      }
    }
  }

  // ---------------------------------------------------------------------------
  // getnextneighbor

  /** The candidates: the neighbours of every neighbour of `pipe`, except any with
      `pipe`'s ID. */
  function Candidates(pipes: seq<Link>, pipe: Link): (r: seq<Link>)
    reads pipe, set x | x in pipes
    ensures forall x | x in r :: x in pipes
  {
    WithoutId(Reached(pipes, Neighbors(pipes, pipe)), pipe.id)
  }

  /** `getnextneighbor` as written: each direct neighbour removed once from the
      candidates, then each remaining pipe once, in ID order. */
  function NextNeighborsAsWritten(pipes: seq<Link>, pipe: Link): seq<Link>
    reads pipe, set x | x in pipes
  {
    SortById(Dedup(RemoveEachOnce(Candidates(pipes, pipe), Neighbors(pipes, pipe))))
  }

  lemma SortKeepsMembers(s: seq<Link>, x: Link)
    ensures x in SortById(s) <==> x in s
  {
    assert x in SortById(s) <==> x in multiset(SortById(s));
  }

  /** A pipe is in the as-written result exactly when it occurs among the candidates
      more often than among the direct neighbours; it never has `pipe`'s ID. */
  lemma {:induction false} AsWrittenMember(pipes: seq<Link>, pipe: Link, x: Link)
    ensures var c := Candidates(pipes, pipe);
      (x in NextNeighborsAsWritten(pipes, pipe) <==> multiset(c)[x] > multiset(Neighbors(pipes, pipe))[x])
      && (x in NextNeighborsAsWritten(pipes, pipe) ==> x.id != pipe.id)
  {
    var c := Candidates(pipes, pipe);
    var n := Neighbors(pipes, pipe);
    var e := RemoveEachOnce(c, n);
    RemoveEachOnceCount(c, n);
    SortKeepsMembers(Dedup(e), x);
    assert x in e <==> x in multiset(e);
    if x in e {
      assert x in c;
    }
  }

  /** What `getnextneighbor` returns as written: each pipe once, in ID order, never one
      with `pipe`'s ID; and a pipe is returned exactly when it occurs among the candidates
      more often than among the direct neighbours. */
  lemma AsWrittenProperties(pipes: seq<Link>, pipe: Link)
    ensures var r := NextNeighborsAsWritten(pipes, pipe);
      && SortedById(r) && NoDuplicates(r)
      && (forall x :: x in r ==> x.id != pipe.id)
      && (forall x :: x in r <==> multiset(Candidates(pipes, pipe))[x] > multiset(Neighbors(pipes, pipe))[x])
  {
    var d := Dedup(RemoveEachOnce(Candidates(pipes, pipe), Neighbors(pipes, pipe)));
    SortByIdSorted(d);
    SortKeepsNoDuplicates(d);
    forall x {
      AsWrittenMember(pipes, pipe, x);
    }
  }

  /** `getnextneighbor` on a network, step by step as the source does it. */
  method GetNextNeighbor(network: Network, pipe: Link) returns (nnpipes: seq<Link>)
    requires network.Valid()
    ensures nnpipes == NextNeighborsAsWritten(Values(network.pipes), pipe)
  {
    var pipes := Values(network.pipes);
    var npipes := Neighbors(pipes, pipe);
    nnpipes := ExtendByNeighbors(pipes, npipes);
    nnpipes := RemoveNeighborsAndSort(pipes, pipe, npipes, nnpipes);
  }

  /** The rest of `getnextneighbor` once the neighbours of the neighbours are collected:
      the filter on `pipe`'s ID, the removal loop, the dedup and the sort. */
  method RemoveNeighborsAndSort(pipes: seq<Link>, pipe: Link, npipes: seq<Link>, reached: seq<Link>)
      returns (nnpipes: seq<Link>)
    requires npipes == Neighbors(pipes, pipe) && reached == Reached(pipes, npipes)
    ensures nnpipes == NextNeighborsAsWritten(pipes, pipe)
  {
    nnpipes := WithoutId(reached, pipe.id);
    nnpipes := RemoveOnceEach(nnpipes, npipes);
    nnpipes := SortById(Dedup(nnpipes));
  }

  /** The first loop of `getnextneighbor`: the neighbours of each direct neighbour
      appended with `+=`. */
  method ExtendByNeighbors(pipes: seq<Link>, npipes: seq<Link>) returns (nnpipes: seq<Link>)
    ensures nnpipes == Reached(pipes, npipes)
  {
    nnpipes := [];
    var i := 0;
    while i < |npipes|
      invariant 0 <= i <= |npipes|
      invariant nnpipes == Reached(pipes, npipes[..i])
    {
      ReachedPrefix(pipes, npipes, i);
      nnpipes := nnpipes + Neighbors(pipes, npipes[i]);
      i := i + 1;
    }
    assert npipes[..|npipes|] == npipes;
  }

  /** The second loop of `getnextneighbor`: `remove` called for each direct neighbour
      that is still among the candidates. */
  method RemoveOnceEach<T(==)>(candidates: seq<T>, npipes: seq<T>) returns (nnpipes: seq<T>)
    ensures nnpipes == RemoveEachOnce(candidates, npipes)
  {
    nnpipes := candidates;
    var i := 0;
    while i < |npipes|
      invariant 0 <= i <= |npipes|
      invariant nnpipes == RemoveEachOnce(candidates, npipes[..i])
    {
      RemoveEachOncePrefix(candidates, npipes, i);
      if npipes[i] in nnpipes {
        nnpipes := RemoveFirst(nnpipes, npipes[i]);
      }
      i := i + 1;
    }
    assert npipes[..|npipes|] == npipes;
  }

  /** The `+=` loop over one more neighbour. */
  lemma ReachedPrefix(pipes: seq<Link>, ns: seq<Link>, i: nat)
    requires i < |ns|
    ensures Reached(pipes, ns[..i + 1]) == Reached(pipes, ns[..i]) + Neighbors(pipes, ns[i])
  {
    assert ns[..i + 1][..i] == ns[..i];
  }

  /** The removal loop over one more neighbour. */
  lemma RemoveEachOncePrefix<T>(s: seq<T>, ys: seq<T>, i: nat)
    requires i < |ys|
    ensures var r := RemoveEachOnce(s, ys[..i]);
      RemoveEachOnce(s, ys[..i + 1]) == if ys[i] in r then RemoveFirst(r, ys[i]) else r
  {
    assert ys[..i + 1][..i] == ys[..i];
  }

  /** A direct neighbour that is reached through two other neighbours is returned: for
      pipes P1 from A to B, and P2, P3 and P4 leaving B, `getnextneighbor(P1)` holds P2,
      although P2 is a neighbour of P1. */
  lemma DirectNeighborSurvives(pipes: seq<Link>, p1: Link, p2: Link, p3: Link, p4: Link)
    requires pipes == [p1, p2, p3, p4]
    requires p2.startnode == p1.endnode && p3.startnode == p1.endnode && p4.startnode == p1.endnode
    requires p1.id != p2.id && p1.id != p3.id && p1.id != p4.id
    requires p2.id != p3.id && p2.id != p4.id && p3.id != p4.id
    ensures p2 in Neighbors(pipes, p1)
    ensures p2 in NextNeighborsAsWritten(pipes, p1)
  {
    var n: seq<Link> := Neighbors(pipes, p1);
    FourNeighbors(pipes, p1, p2, p3, p4);
    assert multiset(n)[p2] == 1;
    var reached: seq<Link> := Reached(pipes, n);
    ReachedThree(pipes, p2, p3, p4);
    ReachedTwice(pipes, p1, p2, p3, p4);
    WithoutIdCount(reached, p1.id, p2);
    assert multiset(Candidates(pipes, p1))[p2] == 2;
    AsWrittenMember(pipes, p1, p2);
  }

  /** In the example above, the direct neighbours of P1 are P2, P3 and P4. */
  lemma FourNeighbors(pipes: seq<Link>, p1: Link, p2: Link, p3: Link, p4: Link)
    requires pipes == [p1, p2, p3, p4]
    requires p2.startnode == p1.endnode && p3.startnode == p1.endnode && p4.startnode == p1.endnode
    requires p1.id != p2.id && p1.id != p3.id && p1.id != p4.id
    ensures Neighbors(pipes, p1) == [p2, p3, p4]
  {
    assert pipes[..3] == [p1, p2, p3] && [p1, p2, p3][..2] == [p1, p2] && [p1, p2][..1] == [p1];
    assert [p1][..0] == [];
    assert Neighbors([p1], p1) == [];
    assert Neighbors([p1, p2], p1) == [p2];
    assert Neighbors([p1, p2, p3], p1) == [p2, p3];
  }

  /** The neighbours reached from three pipes, one list after the other. */
  lemma ReachedThree(pipes: seq<Link>, a: Link, b: Link, c: Link)
    ensures Reached(pipes, [a, b, c]) == Neighbors(pipes, a) + Neighbors(pipes, b) + Neighbors(pipes, c)
  {
    assert [a, b, c][..2] == [a, b] && [a, b][..1] == [a] && [a][..0] == [];
    assert Reached(pipes, [a]) == Neighbors(pipes, a);
  }

  /** In the example above, P2 is reached through P3 and through P4, and not through itself. */
  lemma ReachedTwice(pipes: seq<Link>, p1: Link, p2: Link, p3: Link, p4: Link)
    requires pipes == [p1, p2, p3, p4]
    requires p2.startnode == p1.endnode && p3.startnode == p1.endnode && p4.startnode == p1.endnode
    requires p1.id != p2.id && p2.id != p3.id && p2.id != p4.id
    ensures multiset(Neighbors(pipes, p2) + Neighbors(pipes, p3) + Neighbors(pipes, p4))[p2] == 2
  {
    assert multiset(pipes)[p2] == 1;
    NeighborsCount(pipes, p2, p2);
    NeighborsCount(pipes, p3, p2);
    NeighborsCount(pipes, p4, p2);
    assert IsNeighbor(p2, p3) && IsNeighbor(p2, p4) && !IsNeighbor(p2, p2);
  }

  /** `getnextneighbor` as intended: the candidates that are not direct neighbours, each
      once, in ID order. */
  function NextNeighbors(pipes: seq<Link>, pipe: Link): seq<Link>
    reads pipe, set x | x in pipes
  {
    var n := Neighbors(pipes, pipe);
    SortById(Dedup(NotIn(Candidates(pipes, pipe), n)))
  }

  /** The elements of `s` that do not occur in `ys`. */
  function NotIn<T(==)>(s: seq<T>, ys: seq<T>): (r: seq<T>)
    ensures forall x | x in r :: x in s && x !in ys
    ensures forall x | x in s && x !in ys :: x in r
  {
    if s == [] then []
    else
      var x := s[|s| - 1];
      assert s == s[..|s| - 1] + [x];
      if x in ys then NotIn(s[..|s| - 1], ys) else NotIn(s[..|s| - 1], ys) + [x]
  }

  /** The intended next neighbours are exactly the neighbours of neighbours that are
      neither `pipe` (by ID) nor one of its direct neighbours; each once, in ID order. */
  lemma NextNeighborsExact(pipes: seq<Link>, pipe: Link)
    ensures var r := NextNeighbors(pipes, pipe);
      && SortedById(r) && NoDuplicates(r)
      && forall x :: x in r <==>
           x in Reached(pipes, Neighbors(pipes, pipe)) && x.id != pipe.id && x !in Neighbors(pipes, pipe)
  {
    var n := Neighbors(pipes, pipe);
    var d := Dedup(NotIn(Candidates(pipes, pipe), n));
    SortByIdSorted(d);
    SortKeepsNoDuplicates(d);
    forall x ensures x in SortById(d) <==> x in d {
      SortKeepsMembers(d, x);
    }
  }

  // ---------------------------------------------------------------------------
  // getsourcelist

  /** `getsourcelist`: the tanks followed by the reservoirs, whichever of them there are. */
  function SourceList(network: Network): (r: seq<Node>)
    requires network.Valid()
    reads network
    ensures r == Values(network.tanks) + Values(network.reservoirs)
  {
    var tanks := Values(network.tanks);
    var reservoirs := Values(network.reservoirs);
    if |tanks| > 0 && |reservoirs| > 0 then tanks + reservoirs
    else if |tanks| > 0 then tanks
    else if |reservoirs| > 0 then reservoirs
    else []
  }
}
