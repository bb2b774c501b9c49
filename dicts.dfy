/** Python's `dict` keeps its keys in insertion order; several behaviours of the
    chat nodes depend on that order (the tie-break of `min`, the order of a
    room listing, the order in which a loop over a dict sends).  A `Dict` is a
    finite map together with the order in which its keys were first inserted. */
module Dicts {

  datatype RawDict<K(==,!new), V> = RawDict(order: seq<K>, entries: map<K, V>)
  {
    /** No key appears twice in `order`, and `order` lists exactly the keys of `entries`. */
    ghost predicate Valid() {
      && Distinct(order)
      && (forall k :: k in entries <==> k in order)
    }
  }

  type Dict<K(==,!new), V> = d: RawDict<K, V> | d.Valid() witness RawDict([], map[])

  ghost predicate Distinct<K>(s: seq<K>) {
    forall i, j :: 0 <= i < j < |s| ==> s[i] != s[j]
  }

  /** `{}` */
  function Empty<K(==,!new), V>(): (d: Dict<K, V>)
    ensures d.entries == map[] && d.order == []
  {
    RawDict([], map[])
  }

  /** `d[k] = v`: a new key goes to the end of the order, an existing key keeps its place. */
  function Put<K(==,!new), V>(d: Dict<K, V>, k: K, v: V): (r: Dict<K, V>)
    ensures r.entries == d.entries[k := v]
    ensures k in d.entries ==> r.order == d.order
    ensures k !in d.entries ==> r.order == d.order + [k]
  {
    if k in d.entries then RawDict(d.order, d.entries[k := v])
    else RawDict(d.order + [k], d.entries[k := v])
  }

  /** `s` with every occurrence of `k` taken out, the rest in the same order. */
  function Without<K(==,!new)>(s: seq<K>, k: K): (r: seq<K>)
    ensures forall x :: x in r <==> x in s && x != k
    ensures Distinct(s) ==> Distinct(r)
  {
    if s == [] then []
    else if s[0] == k then Without(s[1..], k)
    else
      assert Distinct(s) ==> s[0] !in s[1..];
      [s[0]] + Without(s[1..], k)
  }

  /** `del d[k]` and `d.pop(k, None)`; a missing key leaves `d` as it is. */
  function Remove<K(==,!new), V>(d: Dict<K, V>, k: K): (r: Dict<K, V>)
    ensures r.entries == d.entries - {k}
    ensures k !in d.entries ==> r == d
  {
    if k in d.entries then RawDict(Without(d.order, k), d.entries - {k}) else d
  }

  /** `list(d.values())`, in key order. */
  function Values<K(==,!new), V>(d: Dict<K, V>): (vs: seq<V>)
    ensures |vs| == |d.order|
    ensures forall i :: 0 <= i < |d.order| ==> d.order[i] in d.entries && vs[i] == d.entries[d.order[i]]
  {
    seq(|d.order|, i requires 0 <= i < |d.order| => d.entries[d.order[i]])
  }

  /** Applies `f` to every value and keeps the keys and their order. */
  function MapValues<K(==,!new), V>(d: Dict<K, V>, f: K -> V -> V): (r: Dict<K, V>)
    ensures r.order == d.order && r.entries.Keys == d.entries.Keys
    ensures forall k :: k in d.entries ==> r.entries[k] == f(k)(d.entries[k])
  {
    RawDict(d.order, map k | k in d.entries :: f(k)(d.entries[k]))
  }

  /** A sequence with distinct elements is as long as the set of its elements. */
  lemma {:induction false} DistinctCard<K>(s: seq<K>)
    requires Distinct(s)
    ensures |set x | x in s| == |s|
  {
    if s != [] {
      DistinctCard(s[1..]);
      assert (set x | x in s) == {s[0]} + (set x | x in s[1..]);
      assert s[0] !in (set x | x in s[1..]) by {
        forall j | 0 <= j < |s[1..]| ensures s[1..][j] != s[0] {
          assert s[1..][j] == s[j + 1];
        }
      }
    }
  }

  /** The number of keys of a dict is the length of its order. */
  lemma KeyCount<K(!new), V>(d: Dict<K, V>)
    ensures |d.entries.Keys| == |d.order|
  {
    DistinctCard(d.order);
    assert d.entries.Keys == set x | x in d.order;
  }
}
