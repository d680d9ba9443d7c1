/** Python's `sorted(s, key=...)`: a stable sort by a key, ascending under a strict total order
    on keys (`reverse=True` is the same stable sort under the flipped order). */
module Sorting {
  import opened Seqs

  /** `lt` is irreflexive, transitive and total on distinct keys. */
  ghost predicate StrictTotalOrder<K(!new)>(lt: (K, K) -> bool) {
    && (forall a :: !lt(a, a))
    && (forall a, b, c :: lt(a, b) && lt(b, c) ==> lt(a, c))
    && (forall a, b :: a != b ==> lt(a, b) || lt(b, a))
  }

  /** Puts `x` after the leading items whose keys are strictly smaller, before all others. */
  function Insert<T, K>(x: T, s: seq<T>, key: T -> K, lt: (K, K) -> bool): (r: seq<T>)
    ensures |r| == |s| + 1
    ensures multiset(r) == multiset(s) + multiset{x}
  {
    if s == [] then [x]
    else if lt(key(s[0]), key(x)) then
      assert s == [s[0]] + s[1..];
      [s[0]] + Insert(x, s[1..], key, lt)
    else [x] + s
  }

  /** `sorted(s, key=key)` where keys compare with `lt` (insertion sort from the back). */
  function SortBy<T, K>(s: seq<T>, key: T -> K, lt: (K, K) -> bool): (r: seq<T>)
    ensures |r| == |s|
    ensures multiset(r) == multiset(s)
  {
    if s == [] then []
    else
      assert s == [s[0]] + s[1..];
      Insert(s[0], SortBy(s[1..], key, lt), key, lt)
  }

  /** No item has a strictly smaller key than an item before it. */
  ghost predicate SortedBy<T, K>(s: seq<T>, key: T -> K, lt: (K, K) -> bool) {
    forall i, j :: 0 <= i < j < |s| ==> !lt(key(s[j]), key(s[i]))
  }

  /** The test "has key `k`", used to pick out the run of items with equal keys. */
  function HasKey<T, K(==)>(key: T -> K, k: K): T -> bool {
    x => key(x) == k
  }

  /** The items with key `k` appear in the same relative order in both lists. */
  ghost predicate StableFor<T, K(!new)>(r: seq<T>, s: seq<T>, key: T -> K) {
    forall k :: Filter(r, HasKey(key, k)) == Filter(s, HasKey(key, k))
  }

  lemma {:induction false} InsertSorted<T, K(!new)>(x: T, s: seq<T>, key: T -> K, lt: (K, K) -> bool)
    requires StrictTotalOrder(lt)
    requires SortedBy(s, key, lt)
    ensures SortedBy(Insert(x, s, key, lt), key, lt)
  {
    if s != [] && lt(key(s[0]), key(x)) {
      InsertSorted(x, s[1..], key, lt);
      var rest := Insert(x, s[1..], key, lt);
      assert multiset(rest) == multiset(s[1..]) + multiset{x};
      forall j | 0 <= j < |rest| ensures !lt(key(rest[j]), key(s[0])) {
        assert rest[j] in multiset(rest);
        if rest[j] != x {
          assert rest[j] in s[1..];
        }
      }
    }
  }

  /** The sort returns its input ordered by key. */
  lemma {:induction false} SortBySorted<T, K(!new)>(s: seq<T>, key: T -> K, lt: (K, K) -> bool)
    requires StrictTotalOrder(lt)
    ensures SortedBy(SortBy(s, key, lt), key, lt)
  {
    if s != [] {
      SortBySorted(s[1..], key, lt);
      InsertSorted(s[0], SortBy(s[1..], key, lt), key, lt);
    }
  }

  lemma {:induction false} InsertRun<T, K(!new)>(x: T, s: seq<T>, key: T -> K, lt: (K, K) -> bool, k: K)
    requires forall a :: !lt(a, a)
    ensures Filter(Insert(x, s, key, lt), HasKey(key, k))
         == (if key(x) == k then [x] else []) + Filter(s, HasKey(key, k))
  {
    if s != [] {
      if lt(key(s[0]), key(x)) {
        InsertRun(x, s[1..], key, lt, k);
        FilterAppend([s[0]], Insert(x, s[1..], key, lt), HasKey(key, k));
        assert !(key(s[0]) == k && key(x) == k);
      } else {
        FilterAppend([x], s, HasKey(key, k));
      }
    } else {
      FilterAppend([x], s, HasKey(key, k));
    }
  }

  /** The sort is stable: items with equal keys keep their original relative order. */
  lemma {:induction false} SortByStable<T, K(!new)>(s: seq<T>, key: T -> K, lt: (K, K) -> bool)
    requires forall a :: !lt(a, a)
    ensures StableFor(SortBy(s, key, lt), s, key)
  {
    if s != [] {
      SortByStable(s[1..], key, lt);
      forall k ensures Filter(SortBy(s, key, lt), HasKey(key, k)) == Filter(s, HasKey(key, k)) {
        InsertRun(s[0], SortBy(s[1..], key, lt), key, lt, k);
      }
    }
  }

  /** No two items share a key. */
  ghost predicate DistinctKeys<T, K>(s: seq<T>, key: T -> K) {
    forall i, j :: 0 <= i < j < |s| ==> key(s[i]) != key(s[j])
  }

  lemma {:induction false} InsertDistinctKeys<T, K>(x: T, s: seq<T>, key: T -> K, lt: (K, K) -> bool)
    requires DistinctKeys(s, key)
    requires forall i :: 0 <= i < |s| ==> key(s[i]) != key(x)
    ensures DistinctKeys(Insert(x, s, key, lt), key)
  {
    if s != [] && lt(key(s[0]), key(x)) {
      InsertDistinctKeys(x, s[1..], key, lt);
      var rest := Insert(x, s[1..], key, lt);
      forall j | 0 <= j < |rest| ensures key(rest[j]) != key(s[0]) {
        assert rest[j] in multiset(rest);
        if rest[j] != x {
          assert rest[j] in s[1..];
        }
      }
    }
  }

  /** Sorting items whose keys are pairwise different yields strictly increasing keys. */
  lemma {:induction false} SortByStrict<T, K(!new)>(s: seq<T>, key: T -> K, lt: (K, K) -> bool)
    requires StrictTotalOrder(lt)
    requires DistinctKeys(s, key)
    ensures DistinctKeys(SortBy(s, key, lt), key)
    ensures forall i, j :: 0 <= i < j < |s| ==> lt(key(SortBy(s, key, lt)[i]), key(SortBy(s, key, lt)[j]))
  {
    if s != [] {
      SortByStrict(s[1..], key, lt);
      var rest := SortBy(s[1..], key, lt);
      forall i | 0 <= i < |rest| ensures key(rest[i]) != key(s[0]) {
        assert rest[i] in multiset(rest);
        assert rest[i] in s[1..];
      }
      InsertDistinctKeys(s[0], rest, key, lt);
    }
    SortBySorted(s, key, lt);
  }

  /** The first `n` items of a sorted list are no worse than any item after them. */
  lemma TakeIsBest<T, K>(s: seq<T>, n: nat, key: T -> K, lt: (K, K) -> bool)
    requires SortedBy(s, key, lt)
    ensures forall i, j :: 0 <= i < |Take(s, n)| <= j < |s| ==> !lt(key(s[j]), key(Take(s, n)[i]))
  {
  }
}
