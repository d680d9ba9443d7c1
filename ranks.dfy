/** How Python orders the JSON values used as sort keys. Numbers (ints, floats, bools and the
    `float('inf')` default) compare with numbers, strings with strings by code point; any other
    pairing, and any comparison involving None or a list, raises TypeError. */
module Ranks {
  import opened Wrappers
  import opened Json
  import opened Sorting

  /** A sort key: a finite number, +infinity, a string, or a value Python cannot order. */
  datatype Rank = Finite(x: real) | Infinity | Text(s: string) | Unordered

  /** The sort key of a JSON value. */
  function KeyOf(v: Value): (r: Rank)
    ensures r.Finite? <==> AsNumber(v).Some?
    ensures r.Finite? ==> r.x == AsNumber(v).value
    ensures r.Text? <==> v.Str?
  {
    match v
    case Int(i) => Finite(i as real)
    case Float(x) => Finite(x)
    case Bool(b) => Finite(if b then 1.0 else 0.0)
    case Str(s) => Text(s)
    case _ => Unordered
  }

  /** `a < b` on Python strings: lexicographic by code point, a proper prefix first. */
  predicate StringLess(a: string, b: string) {
    if a == [] then b != []
    else if b == [] then false
    else if a[0] != b[0] then a[0] < b[0]
    else StringLess(a[1..], b[1..])
  }

  lemma {:induction false} StringLessIrreflexive(a: string)
    ensures !StringLess(a, a)
  {
    if a != [] {
      StringLessIrreflexive(a[1..]);
    }
  }

  lemma {:induction false} StringLessTransitive(a: string, b: string, c: string)
    requires StringLess(a, b) && StringLess(b, c)
    ensures StringLess(a, c)
  {
    if a != [] && b != [] && c != [] && a[0] == b[0] && b[0] == c[0] {
      StringLessTransitive(a[1..], b[1..], c[1..]);
    }
  }

  lemma {:induction false} StringLessTotal(a: string, b: string)
    requires a != b
    ensures StringLess(a, b) || StringLess(b, a)
  {
    if a != [] && b != [] && a[0] == b[0] {
      assert a == [a[0]] + a[1..] && b == [b[0]] + b[1..];
      StringLessTotal(a[1..], b[1..]);
    }
  }

  /** Where two keys can both be compared, this is Python's `<` on them; pairings Python
      refuses are put in a fixed order (numbers, infinity, strings, the rest) so that the
      relation is total. */
  predicate RankLess(a: Rank, b: Rank) {
    match (a, b)
    case (Finite(x), Finite(y)) => x < y
    case (Finite(_), _) => true
    case (Infinity, Finite(_)) => false
    case (Infinity, Infinity) => false
    case (Infinity, _) => true
    case (Text(s), Text(t)) => StringLess(s, t)
    case (Text(_), Unordered) => true
    case (Text(_), _) => false
    case (Unordered, _) => false
  }

  /** The order `sorted(..., reverse=True)` sorts by. */
  predicate RankGreater(a: Rank, b: Rank) {
    RankLess(b, a)
  }

  /** Python can compare the two keys without raising. */
  predicate Comparable(a: Rank, b: Rank) {
    ((a.Finite? || a.Infinity?) && (b.Finite? || b.Infinity?)) || (a.Text? && b.Text?)
  }

  /** No two items of `s` have keys Python refuses to compare. A sort raises TypeError exactly
      when this fails: a sort that succeeded has compared every pair of neighbours in its
      output, and a list holding keys of two kinds has a mixed pair of neighbours. */
  predicate AllComparable<T>(s: seq<T>, key: T -> Rank) {
    forall i, j :: 0 <= i < j < |s| ==> Comparable(key(s[i]), key(s[j]))
  }

  /** Python's `a <= b` on two keys: None where it raises TypeError. */
  function LessEq(a: Rank, b: Rank): (r: Option<bool>)
    ensures r.Some? <==> Comparable(a, b)
    ensures a.Finite? && b.Finite? ==> r == Some(a.x <= b.x)
    ensures a.Finite? && b.Infinity? ==> r == Some(true)
    ensures a.Infinity? && b.Finite? ==> r == Some(false)
  {
    if Comparable(a, b) then Some(!RankLess(b, a)) else None
  }

  lemma RankLessIsStrictTotalOrder()
    ensures StrictTotalOrder(RankLess)
  {
    forall a ensures !RankLess(a, a) {
      if a.Text? {
        StringLessIrreflexive(a.s);
      }
    }
    forall a, b, c | RankLess(a, b) && RankLess(b, c) ensures RankLess(a, c) {
      if a.Text? && b.Text? && c.Text? {
        StringLessTransitive(a.s, b.s, c.s);
      }
    }
    forall a, b | a != b ensures RankLess(a, b) || RankLess(b, a) {
      if a.Text? && b.Text? {
        StringLessTotal(a.s, b.s);
      }
    }
  }

  lemma RankGreaterIsStrictTotalOrder()
    ensures StrictTotalOrder(RankGreater)
  {
    RankLessIsStrictTotalOrder();
    assert forall a, b :: RankGreater(a, b) == RankLess(b, a);
  }
}
