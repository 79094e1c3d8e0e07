/**
 * `Array.prototype.sort` with a comparator, as the pages use it. The
 * comparator is given as `le(a, b)`, standing for `compare(a, b) <= 0`.
 * Insertion sort keeps elements that compare equal in input order, which
 * is the stable order the language requires of `sort`.
 */
module Sorting {
  import Seqs

  ghost predicate Total<T(!new)>(le: (T, T) -> bool) {
    forall a, b :: le(a, b) || le(b, a)
  }

  ghost predicate Transitive<T(!new)>(le: (T, T) -> bool) {
    forall a, b, c :: le(a, b) && le(b, c) ==> le(a, c)
  }

  /** Every element is `le` its successor. */
  ghost predicate Sorted<T>(s: seq<T>, le: (T, T) -> bool) {
    forall i :: 0 <= i < |s| - 1 ==> le(s[i], s[i + 1])
  }

  function Insert<T>(x: T, s: seq<T>, le: (T, T) -> bool): (r: seq<T>)
    ensures |r| == |s| + 1 && multiset(r) == multiset(s) + multiset{x}
    ensures r[0] == x || (|s| > 0 && r[0] == s[0])
  {
    if |s| == 0 then [x]
    else if le(x, s[0]) then [x] + s
    else
      assert s == [s[0]] + s[1..];
      [s[0]] + Insert(x, s[1..], le)
  }

  /** The sorted copy: a permutation of the input. */
  function SortBy<T>(s: seq<T>, le: (T, T) -> bool): (r: seq<T>)
    ensures |r| == |s| && multiset(r) == multiset(s)
  {
    if |s| == 0 then []
    else
      assert s == [s[0]] + s[1..];
      Insert(s[0], SortBy(s[1..], le), le)
  }

  lemma {:induction false} InsertSorted<T(!new)>(x: T, s: seq<T>, le: (T, T) -> bool)
    requires Total(le) && Sorted(s, le)
    ensures Sorted(Insert(x, s, le), le)
    decreases |s|
  {
    if |s| > 0 && !le(x, s[0]) {
      InsertSorted(x, s[1..], le);
      var t := Insert(x, s[1..], le);
      assert le(s[0], x);
      assert |s| > 1 ==> le(s[0], s[1]);
      var r := [s[0]] + t;
      forall i | 0 <= i < |r| - 1 ensures le(r[i], r[i + 1]) {
        if i > 0 { assert r[i] == t[i - 1] && r[i + 1] == t[i]; }
      }
    }
  }

  /** With a total comparator the result is in order. */
  lemma {:induction false} SortBySorted<T(!new)>(s: seq<T>, le: (T, T) -> bool)
    requires Total(le)
    ensures Sorted(SortBy(s, le), le)
    decreases |s|
  {
    if |s| > 0 {
      SortBySorted(s[1..], le);
      InsertSorted(s[0], SortBy(s[1..], le), le);
    }
  }

  /** The elements that compare equal to `k`: `le` holds both ways. */
  function TiedWith<T>(le: (T, T) -> bool, k: T): T -> bool {
    y => le(y, k) && le(k, y)
  }

  /**
   * Inserting `x` keeps it before the elements tied with it: it passes only
   * elements it does not precede, and none of those is tied with anything `x` is tied with.
   */
  lemma {:induction false} InsertStable<T(!new)>(x: T, s: seq<T>, le: (T, T) -> bool, k: T)
    requires Transitive(le)
    ensures Seqs.Filter(Insert(x, s, le), TiedWith(le, k)) == Seqs.Filter([x] + s, TiedWith(le, k))
    decreases |s|
  {
    var p := TiedWith(le, k);
    if |s| > 0 && !le(x, s[0]) {
      InsertStable(x, s[1..], le, k);
      var t := Insert(x, s[1..], le);
      assert ([s[0]] + t)[1..] == t;
      assert ([x] + s[1..])[1..] == s[1..];
      assert ([x] + s)[1..] == s;
      assert !(p(x) && p(s[0]));
    }
  }

  /** Stability: the elements tied with any `k` come out in their input order. */
  lemma {:induction false} SortByStable<T(!new)>(s: seq<T>, le: (T, T) -> bool, k: T)
    requires Transitive(le)
    ensures Seqs.Filter(SortBy(s, le), TiedWith(le, k)) == Seqs.Filter(s, TiedWith(le, k))
    decreases |s|
  {
    if |s| > 0 {
      var t := SortBy(s[1..], le);
      SortByStable(s[1..], le, k);
      InsertStable(s[0], t, le, k);
      assert ([s[0]] + t)[1..] == t;
    }
  }

  /** When all elements tie, sorting leaves the sequence as it is. */
  lemma SortByAllTied<T(!new)>(s: seq<T>, le: (T, T) -> bool)
    requires Transitive(le)
    requires forall a, b :: a in s && b in s ==> le(a, b)
    ensures SortBy(s, le) == s
  {
    if |s| > 0 {
      var p := TiedWith(le, s[0]);
      var r := SortBy(s, le);
      SortByStable(s, le, s[0]);
      assert forall y :: y in r ==> y in multiset(s);
      Seqs.FilterAll(s, p);
      Seqs.FilterAll(r, p);
    }
  }

  /** With a transitive comparator, neighbour order gives order between any two positions. */
  lemma {:induction false} SortedPairs<T(!new)>(s: seq<T>, le: (T, T) -> bool, i: nat, j: nat)
    requires Transitive(le) && Sorted(s, le) && i < j < |s|
    ensures le(s[i], s[j])
    decreases j - i
  {
    if i + 1 < j {
      SortedPairs(s, le, i + 1, j);
    }
  }
}

/** `Math.round(part / whole * 100)`, computed exactly on rationals. */
module Percent {

  function RoundPercent(part: nat, whole: nat): nat
    requires whole > 0
  {
    Quotient(200 * part + whole, 2 * whole)
  }

  /** Integer division `n / d` by repeated subtraction. */
  function Quotient(n: nat, d: nat): nat
    requires d > 0
    decreases n
  {
    if n < d then 0 else 1 + Quotient(n - d, d)
  }

  /** The quotient is the largest `q` with `q * d <= n`: it is `n / d`. */
  lemma {:induction false} QuotientBounds(n: nat, d: nat)
    requires d > 0
    ensures d * Quotient(n, d) <= n < d * (Quotient(n, d) + 1)
    ensures Quotient(n, d) == n / d
    decreases n
  {
    var q := Quotient(n, d);
    if n >= d {
      QuotientBounds(n - d, d);
      assert d * q == d + d * Quotient(n - d, d);
    }
    DivUnique(n, d, q);
  }

  /** The result is the integer nearest to 100 * part / whole, halves rounded up. */
  lemma RoundPercentNearest(part: nat, whole: nat)
    requires whole > 0
    ensures var r := RoundPercent(part, whole);
      2 * whole * r <= 200 * part + whole < 2 * whole * (r + 1)
  {
    QuotientBounds(200 * part + whole, 2 * whole);
  }

  lemma {:induction false} RoundPercentAtMost100(part: nat, whole: nat)
    requires 0 < whole && part <= whole
    ensures RoundPercent(part, whole) <= 100
  {
    var r := RoundPercent(part, whole);
    RoundPercentNearest(part, whole);
    assert 2 * whole * r < 2 * whole * 101;
    MulCancel(2 * whole, r, 101);
  }

  lemma {:induction false} RoundPercentWhole(whole: nat)
    requires whole > 0
    ensures RoundPercent(whole, whole) == 100
  {
    RoundPercentNearest(whole, whole);
    var r := RoundPercent(whole, whole);
    assert 2 * whole * r < 2 * whole * 101;
    MulCancel(2 * whole, r, 101);
    assert 2 * whole * 99 < 2 * whole * (r + 1);
    MulCancel(2 * whole, 99, r + 1);
  }

  lemma {:induction false} RoundPercentMonotone(a: nat, b: nat, whole: nat)
    requires 0 < whole && a <= b
    ensures RoundPercent(a, whole) <= RoundPercent(b, whole)
  {
    var ra, rb := RoundPercent(a, whole), RoundPercent(b, whole);
    RoundPercentNearest(a, whole);
    RoundPercentNearest(b, whole);
    assert 2 * whole * ra < 2 * whole * (rb + 1);
    MulCancel(2 * whole, ra, rb + 1);
  }

  lemma MulCancel(k: nat, x: nat, y: nat)
    requires k > 0 && k * x < k * y
    ensures x < y
  {
  }

  lemma DivUnique(n: nat, d: nat, q: nat)
    requires d > 0 && q * d <= n < (q + 1) * d
    ensures n / d == q
  {
    var q' := n / d;
    assert n == d * q' + n % d;
    assert d * q < d * (q' + 1);
    MulCancel(d, q, q' + 1);
    assert d * q' < d * (q + 1);
    MulCancel(d, q', q + 1);
  }
}
