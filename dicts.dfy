/**
 * Python's `dict`, which remembers the order in which keys were first inserted. The registries
 * and the in-memory episode store iterate their dicts, and that order decides which entry an
 * operation reaches first.
 */
module Dicts {
  import opened Results

  predicate Distinct<K(==)>(s: seq<K>) {
    forall i, j :: 0 <= i < j < |s| ==> s[i] != s[j]
  }

  /** `s` without the occurrences of `k`, the rest in order. */
  function RemoveAll<K(==,!new)>(s: seq<K>, k: K): (r: seq<K>)
    ensures forall x :: x in r <==> x in s && x != k
    ensures Distinct(s) ==> Distinct(r)
  {
    if s == [] then []
    else if s[0] == k then RemoveAll(s[1..], k)
    else
      var rest := RemoveAll(s[1..], k);
      assert Distinct(s) ==> s[0] !in s[1..];
      [s[0]] + rest
  }

  /** Removing a key that occurs once shortens the sequence by one. */
  lemma {:induction false} RemoveAllLength<K(!new)>(s: seq<K>, k: K)
    requires Distinct(s) && k in s
    ensures |RemoveAll(s, k)| == |s| - 1
  {
    if s[0] != k {
      assert Distinct(s[1..]);
      RemoveAllLength(s[1..], k);
    } else {
      assert k !in s[1..];
      RemoveAllAbsent(s[1..], k);
    }
  }

  lemma {:induction false} RemoveAllAbsent<K(!new)>(s: seq<K>, k: K)
    requires k !in s
    ensures RemoveAll(s, k) == s
  {
    if s != [] {
      RemoveAllAbsent(s[1..], k);
      assert s == [s[0]] + s[1..];
    }
  }

  /** A sequence without repeats has as many elements as the set of its elements. */
  lemma {:induction false} DistinctCount<K>(s: seq<K>)
    requires Distinct(s)
    ensures |set x | x in s| == |s|
  {
    if s != [] {
      var t := s[..|s| - 1];
      assert Distinct(t);
      DistinctCount(t);
      assert (set x | x in s) == (set x | x in t) + {s[|s| - 1]};
      assert s[|s| - 1] !in (set x | x in t);
    }
  }

  /** A dict: its keys in insertion order, and what each key maps to. */
  datatype Dict<K(==,!new), V> = Dict(keys: seq<K>, m: map<K, V>) {
    ghost predicate Valid() {
      Distinct(keys) && (forall k :: k in m <==> k in keys)
    }

    /** `len(d)`: the number of keys. */
    function Size(): (n: nat)
      requires Valid()
      ensures n == |m|
    {
      assert m.Keys == set x | x in keys;
      DistinctCount(keys);
      |keys|
    }

    function Get(k: K): (r: Option<V>)
      ensures r.Some? <==> k in m
      ensures r.Some? ==> r.value == m[k]
    {
      if k in m then Some(m[k]) else None
    }

    /** `d[k] = v`: a new key goes last, an existing key keeps its place. */
    function Put(k: K, v: V): (d: Dict<K, V>)
      requires Valid()
      ensures d.Valid()
      ensures d.m == m[k := v]
      ensures k in m ==> d.keys == keys
      ensures k !in m ==> d.keys == keys + [k]
    {
      if k in m then Dict(keys, m[k := v]) else Dict(keys + [k], m[k := v])
    }

    /** `d.pop(k, None)`: the key and its value go, the other keys keep their order. */
    function Remove(k: K): (d: Dict<K, V>)
      requires Valid()
      ensures d.Valid()
      ensures d.m == m - {k}
      ensures d.keys == RemoveAll(keys, k)
    {
      Dict(RemoveAll(keys, k), m - {k})
    }

    /** `list(d.values())`. */
    function Values(): (vs: seq<V>)
      requires Valid()
      ensures |vs| == |keys| && forall i :: 0 <= i < |keys| ==> vs[i] == m[keys[i]]
    {
      seq(|keys|, i requires 0 <= i < |keys| => m[keys[i]])
    }
  }

  function EmptyDict<K(==,!new), V>(): (d: Dict<K, V>)
    ensures d.Valid() && d.m == map[] && d.keys == []
  {
    Dict([], map[])
  }
}
