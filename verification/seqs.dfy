/**
 * The array methods the pages lean on: `filter`, counting with `filter(...).length`,
 * and de-duplication in first-appearance order (`[...new Set(xs)]`).
 */
module Seqs {

  /** `s.filter(p)`: the elements satisfying `p`, in their original order. */
  function Filter<T(!new)>(s: seq<T>, p: T -> bool): (r: seq<T>)
    ensures |r| <= |s|
    ensures forall x :: x in r <==> x in s && p(x)
    ensures multiset(r) <= multiset(s)
  {
    if |s| == 0 then []
    else
      var rest := Filter(s[1..], p);
      assert s == [s[0]] + s[1..];
      if p(s[0]) then [s[0]] + rest else rest
  }

  /** `s.filter(p).length`. */
  function Count<T(!new)>(s: seq<T>, p: T -> bool): (n: nat)
    ensures n == |Filter(s, p)|
    ensures n <= |s|
  {
    |Filter(s, p)|
  }

  /** Filtering drops nothing exactly when every element passes. */
  lemma {:induction false} FilterAll<T(!new)>(s: seq<T>, p: T -> bool)
    ensures |Filter(s, p)| == |s| <==> forall i :: 0 <= i < |s| ==> p(s[i])
    ensures Filter(s, p) == s <==> forall i :: 0 <= i < |s| ==> p(s[i])
  {
    if |s| > 0 {
      FilterAll(s[1..], p);
      AllPassCons(s, p);
      if p(s[0]) {
        assert Filter(s, p) == [s[0]] + Filter(s[1..], p);
        assert s == [s[0]] + s[1..];
      } else {
        assert Filter(s, p) == Filter(s[1..], p);
      }
    }
  }

  /** Every element passes exactly when the head and every element of the tail pass. */
  lemma AllPassCons<T>(s: seq<T>, p: T -> bool)
    requires |s| > 0
    ensures (forall i :: 0 <= i < |s| ==> p(s[i])) <==> p(s[0]) && forall i :: 0 <= i < |s| - 1 ==> p(s[1..][i])
  {
    assert forall i :: 1 <= i < |s| ==> s[1..][i - 1] == s[i];
  }

  /** Filtering splits a sequence: what passes and what fails add up to the whole. */
  lemma {:induction false} CountSplit<T(!new)>(s: seq<T>, p: T -> bool)
    ensures Count(s, p) + Count(s, x => !p(x)) == |s|
  {
    if |s| > 0 {
      CountSplit(s[1..], p);
    }
  }

  /** `r` can be obtained from `s` by deleting elements, keeping the order of the rest. */
  ghost predicate Subsequence<T>(r: seq<T>, s: seq<T>)
    decreases |s|
  {
    |r| == 0 || (|s| > 0 && ((r[0] == s[0] && Subsequence(r[1..], s[1..])) || Subsequence(r, s[1..])))
  }

  /** Filtering deletes elements and keeps the order of the rest. */
  lemma {:induction false} FilterSubsequence<T(!new)>(s: seq<T>, p: T -> bool)
    ensures Subsequence(Filter(s, p), s)
  {
    if |s| > 0 {
      FilterSubsequence(s[1..], p);
      if p(s[0]) {
        assert Filter(s, p)[1..] == Filter(s[1..], p);
      }
    }
  }

  /** Counts of two predicates that never hold together add up to at most the length. */
  lemma {:induction false} CountDisjoint<T(!new)>(s: seq<T>, p: T -> bool, q: T -> bool)
    requires forall x :: x in s ==> !(p(x) && q(x))
    ensures Count(s, p) + Count(s, q) <= |s|
  {
    if |s| > 0 {
      assert forall x :: x in s[1..] ==> x in s;
      CountDisjoint(s[1..], p, q);
    }
  }

  predicate NoDuplicates<T(==)>(s: seq<T>) {
    forall i, j :: 0 <= i < j < |s| ==> s[i] != s[j]
  }

  /** `[...new Set(s)]`: each value once, where it first appears. */
  function Distinct<T(==,!new)>(s: seq<T>): (r: seq<T>)
    ensures forall x :: x in r <==> x in s
    ensures NoDuplicates(r)
    ensures |r| <= |s|
    ensures |s| > 0 ==> |r| > 0 && r[0] == s[0]
  {
    DistinctAfter(s, [])
  }

  /** De-duplication of `s` after the values in `seen` have been taken. */
  function DistinctAfter<T(==,!new)>(s: seq<T>, seen: seq<T>): (r: seq<T>)
    ensures forall x :: x in r <==> x in s && x !in seen
    ensures NoDuplicates(r)
    ensures |r| <= |s|
    ensures |s| > 0 && s[0] !in seen ==> |r| > 0 && r[0] == s[0]
  {
    if |s| == 0 then []
    else if s[0] in seen then DistinctAfter(s[1..], seen)
    else
      var rest := DistinctAfter(s[1..], seen + [s[0]]);
      assert s[0] !in rest;
      [s[0]] + rest
  }

  /** Filtering a sequence with one more element at the end. */
  lemma {:induction false} FilterSnoc<T(!new)>(s: seq<T>, x: T, p: T -> bool)
    ensures Filter(s + [x], p) == Filter(s, p) + (if p(x) then [x] else [])
  {
    if |s| == 0 {
      assert s + [x] == [x];
    } else {
      assert (s + [x])[1..] == s[1..] + [x];
      FilterSnoc(s[1..], x, p);
    }
  }

  /** De-duplicating a sequence with one more element at the end: it is kept only if new. */
  lemma {:induction false} DistinctAfterSnoc<T(!new)>(s: seq<T>, x: T, seen: seq<T>)
    ensures DistinctAfter(s + [x], seen) == DistinctAfter(s, seen) + (if x in s || x in seen then [] else [x])
  {
    if |s| == 0 {
      assert s + [x] == [x];
    } else {
      assert (s + [x])[1..] == s[1..] + [x];
      assert x in s <==> x == s[0] || x in s[1..];
      if s[0] in seen {
        DistinctAfterSnoc(s[1..], x, seen);
      } else {
        DistinctAfterSnoc(s[1..], x, seen + [s[0]]);
      }
    }
  }

  /** `Count` is monotone in the predicate. */
  lemma {:induction false} CountMonotone<T(!new)>(s: seq<T>, p: T -> bool, q: T -> bool)
    requires forall x :: x in s && p(x) ==> q(x)
    ensures Count(s, p) <= Count(s, q)
  {
    if |s| > 0 {
      assert forall x :: x in s[1..] ==> x in s;
      CountMonotone(s[1..], p, q);
    }
  }

  /** The keys a sequence of map updates writes. */
  function UpdatedKeys<K, V>(ups: seq<(K, V)>): (r: set<K>)
    ensures forall i :: 0 <= i < |ups| ==> ups[i].0 in r
    ensures forall k :: k in r ==> exists i :: 0 <= i < |ups| && ups[i].0 == k
  {
    if |ups| == 0 then {}
    else
      var rest := UpdatedKeys(ups[1..]);
      assert forall i :: 1 <= i < |ups| ==> ups[1..][i - 1] == ups[i];
      {ups[0].0} + rest
  }

  /** The keys two batches write are the keys either batch writes. */
  lemma {:induction false} UpdatedKeysAppend<K, V>(a: seq<(K, V)>, b: seq<(K, V)>)
    ensures UpdatedKeys(a + b) == UpdatedKeys(a) + UpdatedKeys(b)
    decreases |a|
  {
    if |a| == 0 {
      assert a + b == b;
    } else {
      assert (a + b)[1..] == a[1..] + b;
      UpdatedKeysAppend(a[1..], b);
    }
  }

  /**
   * `setState(prev => ({ ...prev, [k]: v }))` applied for each update in order:
   * a later update of the same key overwrites an earlier one.
   */
  function Assign<K, V>(m: map<K, V>, ups: seq<(K, V)>): (r: map<K, V>)
    ensures r.Keys == m.Keys + UpdatedKeys(ups)
    decreases |ups|
  {
    if |ups| == 0 then m else Assign(m[ups[0].0 := ups[0].1], ups[1..])
  }

  /** Applying two batches of updates is applying their concatenation. */
  lemma {:induction false} AssignAppend<K, V>(m: map<K, V>, a: seq<(K, V)>, b: seq<(K, V)>)
    ensures Assign(m, a + b) == Assign(Assign(m, a), b)
    decreases |a|
  {
    if |a| > 0 {
      assert (a + b)[1..] == a[1..] + b;
      AssignAppend(m[a[0].0 := a[0].1], a[1..], b);
    } else {
      assert a + b == b;
    }
  }

  /** One more update of a prefix is one more map update. */
  lemma AssignStep<K, V>(m: map<K, V>, ups: seq<(K, V)>, i: nat)
    requires i < |ups|
    ensures Assign(m, ups[..i + 1]) == Assign(m, ups[..i])[ups[i].0 := ups[i].1]
  {
    AssignAppend(m, ups[..i], [ups[i]]);
    assert ups[..i + 1] == ups[..i] + [ups[i]];
    assert [ups[i]][1..] == [];
  }

  /** A key no update writes keeps its old value. */
  lemma {:induction false} AssignUntouched<K, V>(m: map<K, V>, ups: seq<(K, V)>, k: K)
    requires k in m && forall j :: 0 <= j < |ups| ==> ups[j].0 != k
    ensures Assign(m, ups)[k] == m[k]
    decreases |ups|
  {
    if |ups| > 0 {
      AssignUntouched(m[ups[0].0 := ups[0].1], ups[1..], k);
    }
  }

  /** A key holds the value of the last update that writes it. */
  lemma {:induction false} AssignLast<K, V>(m: map<K, V>, ups: seq<(K, V)>, i: nat)
    requires i < |ups| && forall j :: i < j < |ups| ==> ups[j].0 != ups[i].0
    ensures Assign(m, ups)[ups[i].0] == ups[i].1
    decreases |ups|
  {
    if i == 0 {
      AssignUntouched(m[ups[0].0 := ups[0].1], ups[1..], ups[0].0);
    } else {
      AssignLast(m[ups[0].0 := ups[0].1], ups[1..], i - 1);
    }
  }
}
