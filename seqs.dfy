/** List comprehensions and slices over Python lists, as sequence functions with the facts the
    tools rely on: a comprehension keeps exactly the items its test accepts, in order. */
module Seqs {
  import opened Wrappers

  /** `[x for x in s if p(x)]`. */
  function Filter<T>(s: seq<T>, p: T -> bool): (r: seq<T>)
    ensures |r| <= |s|
  {
    if s == [] then [] else (if p(s[0]) then [s[0]] else []) + Filter(s[1..], p)
  }

  /** The item test of a comprehension whose condition may raise: keep `x` when the test
      answers Some(true). */
  function Accepts<T>(test: T -> Option<bool>): T -> bool {
    x => test(x) == Some(true)
  }

  /** A comprehension whose condition can raise an exception (None): the whole comprehension
      raises as soon as one item does; otherwise it is the plain filter. */
  function Sieve<T>(s: seq<T>, test: T -> Option<bool>): Option<seq<T>> {
    if exists i :: 0 <= i < |s| && test(s[i]).None? then None
    else Some(Filter(s, Accepts(test)))
  }

  /** `s[:n]`. */
  function Take<T>(s: seq<T>, n: nat): (r: seq<T>)
    ensures |r| == if |s| < n then |s| else n
    ensures r == s[..|r|]
  {
    if |s| <= n then s else s[..n]
  }

  /** Applies a step that may raise to every item: None as soon as one item raises, otherwise
      the list of results. */
  function Traverse<T, U>(s: seq<T>, f: T -> Option<U>): (r: Option<seq<U>>)
    ensures r.Some? <==> forall i :: 0 <= i < |s| ==> f(s[i]).Some?
    ensures r.Some? ==> |r.value| == |s| && forall i :: 0 <= i < |s| ==> f(s[i]) == Some(r.value[i])
  {
    if exists i :: 0 <= i < |s| && f(s[i]).None? then None
    else Some(seq(|s|, i requires 0 <= i < |s| => f(s[i]).value))
  }

  /** A report loop (`for item in items: result += line(item)`): formats the items one at a time
      and stops at the first one that raises. */
  method TraverseInOrder<T, U>(s: seq<T>, f: T -> Option<U>) returns (r: Option<seq<U>>)
    ensures r == Traverse(s, f)
  {
    var lines: seq<U> := [];
    for n := 0 to |s|
      invariant |lines| == n && forall l :: 0 <= l < n ==> f(s[l]) == Some(lines[l])
    {
      var line := f(s[n]);
      if line.None? {
        return None;
      }
      lines := lines + [line.value];
    }
    assert lines == seq(|s|, i requires 0 <= i < |s| => f(s[i]).value);
    return Some(lines);
  }

  lemma {:induction false} FilterAppend<T>(a: seq<T>, b: seq<T>, p: T -> bool)
    ensures Filter(a + b, p) == Filter(a, p) + Filter(b, p)
  {
    if a == [] {
      assert a + b == b;
    } else {
      var ab := a + b;
      assert ab[0] == a[0];
      assert ab[1..] == a[1..] + b;
      FilterAppend(a[1..], b, p);
      assert Filter(ab, p) == (if p(a[0]) then [a[0]] else []) + Filter(ab[1..], p);
    }
  }

  /** Soundness and completeness: an item is in the result exactly when it is in the input
      and passes the test. */
  lemma {:induction false} FilterMembers<T>(s: seq<T>, p: T -> bool)
    ensures forall x :: x in Filter(s, p) <==> x in s && p(x)
  {
    if s != [] {
      FilterMembers(s[1..], p);
      assert s == [s[0]] + s[1..];
    }
  }

  /** Completeness with multiplicities: every accepted item is kept as often as it occurs. */
  lemma {:induction false} FilterCounts<T>(s: seq<T>, p: T -> bool)
    ensures forall x :: multiset(Filter(s, p))[x] == if p(x) then multiset(s)[x] else 0
  {
    if s != [] {
      FilterCounts(s[1..], p);
      assert s == [s[0]] + s[1..];
    }
  }

  /** When every item passes, the comprehension returns its input unchanged. */
  lemma {:induction false} FilterKeepsAll<T>(s: seq<T>, p: T -> bool)
    requires forall i :: 0 <= i < |s| ==> p(s[i])
    ensures Filter(s, p) == s
  {
    if s != [] {
      FilterKeepsAll(s[1..], p);
    }
  }

  /** Two tests that agree on every item keep the same items. */
  lemma {:induction false} FilterSameTest<T>(s: seq<T>, p: T -> bool, q: T -> bool)
    requires forall x :: p(x) == q(x)
    ensures Filter(s, p) == Filter(s, q)
  {
    if s != [] {
      FilterSameTest(s[1..], p, q);
    }
  }

  /** Two comprehensions in a row keep the items that pass both tests. */
  lemma {:induction false} FilterTwice<T>(s: seq<T>, p: T -> bool, q: T -> bool, both: T -> bool)
    requires forall x :: both(x) == (p(x) && q(x))
    ensures Filter(Filter(s, p), q) == Filter(s, both)
  {
    if s != [] {
      FilterTwice(s[1..], p, q, both);
      var head := if p(s[0]) then [s[0]] else [];
      FilterAppend(head, Filter(s[1..], p), q);
    }
  }

  /** The indexes of the items that pass `p`, in increasing order. */
  function Positions<T>(s: seq<T>, p: T -> bool): seq<nat> {
    if s == [] then []
    else Positions(s[..|s| - 1], p) + (if p(s[|s| - 1]) then [|s| - 1] else [])
  }

  /** The positions are indexes of accepted items, listed in increasing order. */
  lemma {:induction false} PositionsIncrease<T>(s: seq<T>, p: T -> bool)
    ensures forall k :: 0 <= k < |Positions(s, p)| ==> Positions(s, p)[k] < |s| && p(s[Positions(s, p)[k]])
    ensures forall k, l :: 0 <= k < l < |Positions(s, p)| ==> Positions(s, p)[k] < Positions(s, p)[l]
  {
    if s != [] {
      var init := s[..|s| - 1];
      PositionsIncrease(init, p);
      var front := Positions(init, p);
      forall k | 0 <= k < |front| ensures s[front[k]] == init[front[k]] { }
    }
  }

  /** Every accepted item's index is among the positions. */
  lemma {:induction false} PositionsComplete<T>(s: seq<T>, p: T -> bool)
    ensures forall i :: 0 <= i < |s| && p(s[i]) ==> i in Positions(s, p)
  {
    if s != [] {
      var init := s[..|s| - 1];
      PositionsComplete(init, p);
      forall i | 0 <= i < |s| - 1 && p(s[i]) ensures i in Positions(s, p) {
        assert init[i] == s[i];
      }
    }
  }

  /** The item at each accepted position is the matching item of the filtered list. */
  lemma {:induction false} PositionsPickFilter<T>(s: seq<T>, p: T -> bool)
    ensures |Positions(s, p)| == |Filter(s, p)|
    ensures forall k :: 0 <= k < |Positions(s, p)| ==> Positions(s, p)[k] < |s| && Filter(s, p)[k] == s[Positions(s, p)[k]]
  {
    if s != [] {
      var init, last := s[..|s| - 1], s[|s| - 1];
      PositionsPickFilter(init, p);
      assert s == init + [last];
      FilterAppend(init, [last], p);
      assert Filter([last], p) == (if p(last) then [last] else []) + Filter([], p);
      var front := Positions(init, p);
      forall k | 0 <= k < |front| ensures s[front[k]] == init[front[k]] { }
    }
  }

  /** `ix` embeds `r` into `s` in order: `r` is the subsequence of `s` at increasing indexes `ix`. */
  ghost predicate Embeds<T>(ix: seq<nat>, r: seq<T>, s: seq<T>) {
    && |ix| == |r|
    && (forall k :: 0 <= k < |ix| ==> ix[k] < |s| && r[k] == s[ix[k]])
    && (forall k, l :: 0 <= k < l < |ix| ==> ix[k] < ix[l])
  }

  /** `r` is an order-preserving subsequence of `s`. */
  ghost predicate IsSubsequence<T>(r: seq<T>, s: seq<T>) {
    exists ix :: Embeds(ix, r, s)
  }

  /** A comprehension returns an order-preserving subsequence of its input. */
  lemma FilterIsSubsequence<T>(s: seq<T>, p: T -> bool)
    ensures IsSubsequence(Filter(s, p), s)
  {
    var ix := Positions(s, p);
    PositionsIncrease(s, p);
    PositionsPickFilter(s, p);
    assert Embeds(ix, Filter(s, p), s);
  }
}
