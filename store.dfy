/** The ID-keyed element store that the network keeps for every element category
    (junctions, reservoirs, tanks, pipes, pumps, valves, patterns, curves, rules).
    The store class itself (with its `binary_search` lookup and `_rename`) is not
    part of this model; this module states its behaviour as a Python dictionary
    that remembers insertion order: a sequence of IDs for the order and a map
    from ID to element for the lookup. */
module ElementStore {
  import opened Wrappers

  datatype StoreError = NotFound(id: string) | DuplicateId(id: string)

  datatype Store<T> = Store(order: seq<string>, items: map<string, T>)

  /** The IDs in insertion order, each exactly once, naming exactly the stored elements. */
  ghost predicate Valid<T>(s: Store<T>)
  {
    && (forall i, j :: 0 <= i < j < |s.order| ==> s.order[i] != s.order[j])
    && (forall k :: k in s.items <==> k in s.order)
  }

  function Empty<T>(): (s: Store<T>)
    ensures Valid(s) && s.order == [] && s.items == map[]
  {
    Store([], map[])
  }

  /** Lookup by ID (the store's `binary_search`). */
  function Get<T>(s: Store<T>, id: string): (r: Option<T>)
    ensures r.Some? <==> id in s.items
    ensures r.Some? ==> r.value == s.items[id]
  {
    if id in s.items then Some(s.items[id]) else None
  }

  /** Iteration over the store: its elements in insertion order. */
  function Values<T>(s: Store<T>): (r: seq<T>)
    requires Valid(s)
    ensures |r| == |s.order|
    ensures forall i :: 0 <= i < |r| ==> r[i] == s.items[s.order[i]]
  {
    seq(|s.order|, i requires 0 <= i < |s.order| => s.items[s.order[i]])
  }

  /** `store[id] = x`: an existing ID keeps its position and gets the new element,
      a new ID goes to the end. */
  function Put<T>(s: Store<T>, id: string, x: T): (r: Store<T>)
    requires Valid(s)
    ensures Valid(r)
    ensures Get(r, id) == Some(x)
    ensures forall k :: k != id ==> Get(r, k) == Get(s, k)
    ensures id in s.items ==> r.order == s.order
    ensures id !in s.items ==> r.order == s.order + [id]
  {
    if id in s.items then Store(s.order, s.items[id := x])
    else Store(s.order + [id], s.items[id := x])
  }

  /** Adding an element under a new ID appends it to the iteration. */
  lemma PutNewValues<T>(s: Store<T>, id: string, x: T)
    requires Valid(s) && id !in s.items
    ensures Values(Put(s, id, x)) == Values(s) + [x]
  {
    var r := Put(s, id, x);
    assert id !in s.order;
    forall i | 0 <= i < |s.order| ensures Values(r)[i] == Values(s)[i] {
      assert s.order[i] != id;
    }
  }

  /** The insertion order with `from` replaced by `to` in place. */
  function Replace(order: seq<string>, from: string, to: string): (r: seq<string>)
    ensures |r| == |order|
    ensures forall i :: 0 <= i < |r| ==> r[i] == (if order[i] == from then to else order[i])
  {
    seq(|order|, i requires 0 <= i < |order| => if order[i] == from then to else order[i])
  }

  /** Re-key an element: fails when `from` is absent or `to` names another element;
      otherwise `to` takes `from`'s element and its place in the iteration order. */
  function Rename<T>(s: Store<T>, from: string, to: string): (r: Result<Store<T>, StoreError>)
    requires Valid(s)
    ensures r == Err(NotFound(from)) <==> from !in s.items
    ensures r == Err(DuplicateId(to)) <==> from in s.items && to in s.items && to != from
    ensures r.Ok? ==> Valid(r.value)
    ensures r.Ok? ==> Get(r.value, to) == Get(s, from)
    ensures r.Ok? && to != from ==> Get(r.value, from) == None
    ensures r.Ok? ==> forall k :: k != from && k != to ==> Get(r.value, k) == Get(s, k)
  {
    if from !in s.items then Err(NotFound(from))
    else if to in s.items && to != from then Err(DuplicateId(to))
    else Ok(Store(Replace(s.order, from, to), (s.items - {from})[to := s.items[from]]))
  }

  /** Renaming keeps the iteration: the same elements in the same order, and the
      renamed element sits where `from` was. */
  lemma RenameKeepsIteration<T>(s: Store<T>, from: string, to: string, i: nat)
    requires Valid(s) && Rename(s, from, to).Ok?
    requires i < |s.order| && s.order[i] == from
    ensures Values(Rename(s, from, to).value) == Values(s)
    ensures Rename(s, from, to).value.order[i] == to
  {
    var r := Rename(s, from, to).value;
    forall j | 0 <= j < |s.order| ensures Values(r)[j] == Values(s)[j] {
      assert s.order[j] in s.items;
    }
  }
}
