/**
 * The contents of one joblib cache directory, and what joblib's operations
 * do to them, as functions on values: insert-if-absent (`call_and_shelve`),
 * removal of one entry (`clear`) and shrinking to a byte allowance
 * (`reduce_size`).
 */
module Stores {
  import opened Values

  /** One stored result and the number of bytes it occupies on disk. */
  datatype Item = Item(value: Value, bytes: nat)

  /** No element occurs twice. */
  predicate Distinct<T(==)>(xs: seq<T>) {
    |xs| == 0 || (xs[0] !in xs[1..] && Distinct(xs[1..]))
  }

  lemma {:induction false} DistinctAppend<T>(xs: seq<T>, x: T)
    requires Distinct(xs) && x !in xs
    ensures Distinct(xs + [x])
  {
    if xs != [] {
      assert (xs + [x])[1..] == xs[1..] + [x];
      DistinctAppend(xs[1..], x);
    }
  }

  /** `xs` without `x`, in the same order. */
  function RemoveKey<T(==,!new)>(xs: seq<T>, x: T): (r: seq<T>)
    ensures forall y :: y in r <==> y in xs && y != x
    ensures Distinct(xs) ==> Distinct(r)
  {
    if xs == [] then []
    else if xs[0] == x then RemoveKey(xs[1..], x)
    else
      var rest := RemoveKey(xs[1..], x);
      assert ([xs[0]] + rest)[1..] == rest;
      [xs[0]] + rest
  }

  /**
   * The contents of one cache directory: its entries, and the order in which
   * they were written (the order eviction works through).
   */
  datatype Store = Store(order: seq<CallKey>, entries: map<CallKey, Item>) {
    ghost predicate Valid() {
      Distinct(order) && forall k :: k in entries <==> k in order
    }
  }

  const EMPTY: Store := Store([], map[])

  /** Bytes held by the entries listed in `order`. */
  function Resident(order: seq<CallKey>, entries: map<CallKey, Item>): nat {
    if order == [] then 0
    else (if order[0] in entries then entries[order[0]].bytes else 0) + Resident(order[1..], entries)
  }

  /** The resident size of a store. */
  function Size(s: Store): nat {
    Resident(s.order, s.entries)
  }

  lemma {:induction false} ResidentIgnoresUnlisted(order: seq<CallKey>, entries: map<CallKey, Item>, k: CallKey)
    requires k !in order
    ensures Resident(order, entries - {k}) == Resident(order, entries)
  {
    if order != [] {
      ResidentIgnoresUnlisted(order[1..], entries, k);
    }
  }

  /** `r` keeps only entries of `s`, each unchanged. */
  ghost predicate Retains(r: Store, s: Store) {
    forall k :: k in r.entries ==> k in s.entries && r.entries[k] == s.entries[k]
  }

  /** Deletes the oldest entry; the store shrinks by exactly that entry's bytes. */
  function DropOldest(s: Store): (r: Store)
    requires s.Valid() && s.order != []
    ensures r.Valid() && Retains(r, s)
    ensures s.order[0] !in r.entries && |r.order| < |s.order|
    ensures Size(r) == Size(s) - s.entries[s.order[0]].bytes
  {
    var k := s.order[0];
    ResidentIgnoresUnlisted(s.order[1..], s.entries, k);
    Store(s.order[1..], s.entries - {k})
  }

  /**
   * The eviction `reduce_size(bytes_limit)` performs: afterwards the store is
   * within the limit (or empty, when the limit is negative), it holds only
   * entries it held before, and it has not grown.
   */
  function Evict(s: Store, limit: int): (r: Store)
    requires s.Valid()
    ensures r.Valid() && Retains(r, s)
    ensures Size(r) <= limit || r.entries == map[]
    ensures Size(r) <= Size(s)
    decreases |s.order|
  {
    if Size(s) <= limit then s
    else if s.order == [] then
      assert s.entries.Keys == {};
      s
    else Evict(DropOldest(s), limit)
  }

  /** `call_and_shelve`'s effect on the store: insert `item` under `k` unless `k` is present. */
  function Shelve(s: Store, k: CallKey, item: Item): (r: Store)
    requires s.Valid()
    ensures r.Valid()
    ensures k in r.entries
    ensures k in s.entries ==> r == s
    ensures k !in s.entries ==> r.entries == s.entries[k := item]
  {
    if k in s.entries then s
    else
      DistinctAppend(s.order, k);
      Store(s.order + [k], s.entries[k := item])
  }

  /** `clear_item`'s effect on the store: no entry for `k`, every other entry kept. */
  function Forget(s: Store, k: CallKey): (r: Store)
    requires s.Valid()
    ensures r.Valid()
    ensures r.entries == s.entries - {k}
  {
    Store(RemoveKey(s.order, k), s.entries - {k})
  }
}
