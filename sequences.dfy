/**
 * Python's `list.sort(key=..., reverse=True)` and the slice `s[:limit]`, which the episodic
 * memory's queries end with.
 */
module Sequences {

  /** A sort key compared as the pair `(major, minor)`, the way Python compares tuples. */
  datatype SortKey = SortKey(major: int, minor: int)

  predicate KeyLe(a: SortKey, b: SortKey) {
    a.major < b.major || (a.major == b.major && a.minor <= b.minor)
  }

  /** Every element ranks at least as high as every element after it. */
  predicate SortedDesc<T>(s: seq<T>, key: T -> SortKey) {
    forall i, j :: 0 <= i < j < |s| ==> KeyLe(key(s[j]), key(s[i]))
  }

  /** A head that ranks at least as high as everything after it extends a descending sequence. */
  lemma ConsSorted<T>(h: T, s: seq<T>, key: T -> SortKey)
    requires SortedDesc(s, key)
    requires forall y :: y in s ==> KeyLe(key(y), key(h))
    ensures SortedDesc([h] + s, key)
  {
    var r := [h] + s;
    forall i, j | 0 <= i < j < |r|
      ensures KeyLe(key(r[j]), key(r[i]))
    {
      assert r[j] == s[j - 1];
      if i > 0 {
        assert r[i] == s[i - 1];
      }
    }
  }

  /** Everything in a descending sequence ranks no higher than its head. */
  lemma BelowHead<T>(s: seq<T>, key: T -> SortKey)
    requires SortedDesc(s, key) && s != []
    ensures forall y :: y in s ==> KeyLe(key(y), key(s[0]))
  {
    forall y | y in s
      ensures KeyLe(key(y), key(s[0]))
    {
      var j :| 0 <= j < |s| && s[j] == y;
      if j > 0 {
        assert KeyLe(key(s[j]), key(s[0]));
      }
    }
  }

  /**
   * `x` placed into a sequence before the first element that ranks no higher, so that it stays
   * ahead of the elements it ties with.
   */
  function Insert<T>(x: T, s: seq<T>, key: T -> SortKey): (r: seq<T>)
    ensures multiset(r) == multiset(s) + multiset{x}
  {
    if s == [] || KeyLe(key(s[0]), key(x)) then [x] + s
    else
      assert s == [s[0]] + s[1..];
      [s[0]] + Insert(x, s[1..], key)
  }

  /** Whatever ranks no higher than `h` still does after `x`, which ranks no higher, joins it. */
  lemma InsertBelow<T>(x: T, s: seq<T>, key: T -> SortKey, h: T)
    requires KeyLe(key(x), key(h)) && forall y :: y in s ==> KeyLe(key(y), key(h))
    ensures forall y :: y in Insert(x, s, key) ==> KeyLe(key(y), key(h))
  {
    forall y | y in Insert(x, s, key)
      ensures KeyLe(key(y), key(h))
    {
      assert y in multiset(Insert(x, s, key));
    }
  }

  lemma {:induction false} InsertSorted<T>(x: T, s: seq<T>, key: T -> SortKey)
    requires SortedDesc(s, key)
    ensures SortedDesc(Insert(x, s, key), key)
  {
    if s == [] {
    } else if KeyLe(key(s[0]), key(x)) {
      BelowHead(s, key);
      ConsSorted(x, s, key);
    } else {
      assert SortedDesc(s[1..], key);
      InsertSorted(x, s[1..], key);
      BelowHead(s, key);
      assert s == [s[0]] + s[1..];
      InsertBelow(x, s[1..], key, s[0]);
      ConsSorted(s[0], Insert(x, s[1..], key), key);
    }
  }

  /**
   * `sorted(s, key=key, reverse=True)`, a permutation of `s` (its order is `SortDescSorted`).
   * Python's sort is stable, and so is this one: each element is inserted ahead of the later
   * elements it ties with.
   */
  function SortDesc<T>(s: seq<T>, key: T -> SortKey): (r: seq<T>)
    ensures multiset(r) == multiset(s)
    ensures |r| == |s|
  {
    if s == [] then []
    else
      var r := Insert(s[0], SortDesc(s[1..], key), key);
      assert s == [s[0]] + s[1..];
      assert |multiset(r)| == |s|;
      r
  }

  lemma {:induction false} SortDescSorted<T>(s: seq<T>, key: T -> SortKey)
    ensures SortedDesc(SortDesc(s, key), key)
  {
    if s != [] {
      SortDescSorted(s[1..], key);
      InsertSorted(s[0], SortDesc(s[1..], key), key);
    }
  }

  /**
   * Sorting keeps a sequence that is already descending as it is, ties included: equal keys are
   * never reordered.
   */
  lemma {:induction false} SortKeepsSorted<T>(s: seq<T>, key: T -> SortKey)
    requires SortedDesc(s, key)
    ensures SortDesc(s, key) == s
  {
    if s != [] {
      assert SortedDesc(s[1..], key);
      SortKeepsSorted(s[1..], key);
      assert s == [s[0]] + s[1..];
      if |s| > 1 {
        assert KeyLe(key(s[1..][0]), key(s[0]));
      }
    }
  }

  /** The elements of `s` whose key is `k`, in their order in `s`. */
  function WithKey<T>(s: seq<T>, key: T -> SortKey, k: SortKey): (r: seq<T>)
    ensures forall y :: y in r ==> y in s && key(y) == k
  {
    if s == [] then [] else (if key(s[0]) == k then [s[0]] else []) + WithKey(s[1..], key, k)
  }

  /** Inserting `x` puts it ahead of every element it ties with, and moves no tied element. */
  lemma {:induction false} InsertWithKey<T>(x: T, s: seq<T>, key: T -> SortKey, k: SortKey)
    ensures WithKey(Insert(x, s, key), key, k) == (if key(x) == k then [x] else []) + WithKey(s, key, k)
  {
    if s == [] || KeyLe(key(s[0]), key(x)) {
      var r := [x] + s;
      assert r[0] == x && r[1..] == s;
    } else {
      InsertWithKey(x, s[1..], key, k);
      var r := [s[0]] + Insert(x, s[1..], key);
      assert r[0] == s[0] && r[1..] == Insert(x, s[1..], key);
      assert key(s[0]) != key(x);
    }
  }

  /**
   * Sorting is stable: the elements that share any one key come out in the order they went in.
   */
  lemma {:induction false} SortDescStable<T>(s: seq<T>, key: T -> SortKey, k: SortKey)
    ensures WithKey(SortDesc(s, key), key, k) == WithKey(s, key, k)
  {
    if s != [] {
      SortDescStable(s[1..], key, k);
      InsertWithKey(s[0], SortDesc(s[1..], key), key, k);
    }
  }

  /** `s[:limit]`: a negative limit drops that many elements from the end. */
  function Prefix<T>(s: seq<T>, limit: int): (r: seq<T>)
    ensures |r| <= |s| && r == s[..|r|]
    ensures limit >= 0 ==> |r| == (if limit < |s| then limit else |s|)
    ensures limit < 0 ==> |r| == (if |s| + limit > 0 then |s| + limit else 0)
  {
    if limit >= 0 then (if limit < |s| then s[..limit] else s)
    else if |s| + limit > 0 then s[..|s| + limit] else []
  }

  /**
   * The first `limit` elements of the sorted `s` are the top-ranked ones: they are descending,
   * nothing of `s` left out ranks above anything kept, and a limit of at least `|s|` keeps all.
   */
  lemma TopRanked<T>(s: seq<T>, key: T -> SortKey, limit: int)
    ensures var kept := Prefix(SortDesc(s, key), limit);
      && SortedDesc(kept, key)
      && (forall e, f :: e in kept && f in s && f !in kept ==> KeyLe(key(f), key(e)))
      && (limit >= |s| ==> multiset(kept) == multiset(s))
  {
    var sorted := SortDesc(s, key);
    SortDescSorted(s, key);
    PrefixSorted(sorted, key, limit);
    KeptOutrankRest(s, key, limit);
  }

  lemma PrefixSorted<T>(sorted: seq<T>, key: T -> SortKey, limit: int)
    requires SortedDesc(sorted, key)
    ensures SortedDesc(Prefix(sorted, limit), key)
  {
    var kept := Prefix(sorted, limit);
    forall i, j | 0 <= i < j < |kept|
      ensures KeyLe(key(kept[j]), key(kept[i]))
    {
      assert kept[i] == sorted[i] && kept[j] == sorted[j];
    }
  }

  lemma KeptOutrankRest<T>(s: seq<T>, key: T -> SortKey, limit: int)
    ensures var kept := Prefix(SortDesc(s, key), limit);
      forall e, f :: e in kept && f in s && f !in kept ==> KeyLe(key(f), key(e))
  {
    var sorted := SortDesc(s, key);
    var kept := Prefix(sorted, limit);
    var rest := sorted[|kept|..];
    SortDescSorted(s, key);
    assert sorted == kept + rest;
    assert multiset(s) == multiset(kept) + multiset(rest);
    forall e, f | e in kept && f in s && f !in kept
      ensures KeyLe(key(f), key(e))
    {
      assert f in multiset(rest) by {
        assert f in multiset(s);
        assert f !in multiset(kept);
      }
      RanksAbove(sorted, key, |kept|, e, f);
    }
  }

  /** In a descending sequence, an element of the first `n` ranks at least as high as one after them. */
  lemma RanksAbove<T>(sorted: seq<T>, key: T -> SortKey, n: nat, e: T, f: T)
    requires SortedDesc(sorted, key) && n <= |sorted|
    requires e in sorted[..n] && f in sorted[n..]
    ensures KeyLe(key(f), key(e))
  {
    var i :| 0 <= i < n && sorted[..n][i] == e;
    var j :| 0 <= j < |sorted| - n && sorted[n..][j] == f;
    assert sorted[i] == e && sorted[n + j] == f;
  }
}
