/**
 * The JavaScript array operations the dashboards chain together:
 * `filter`, `new Set(...)`, a stable `sort` by a descending numeric key,
 * `slice(0, n)` and `reduce` into a sum.
 */
module Seqs {

  /** `a` is `b` with some elements removed, the rest in their original order. */
  ghost predicate SubseqOf<T>(a: seq<T>, b: seq<T>)
    decreases |b|
  {
    a == [] || (b != [] && ((a[0] == b[0] && SubseqOf(a[1..], b[1..])) || SubseqOf(a, b[1..])))
  }

  /** `s.filter(p)`. */
  function Filter<T>(s: seq<T>, p: T -> bool): (r: seq<T>)
    ensures |r| <= |s|
    ensures forall x :: x in r ==> x in s && p(x)
    ensures forall x :: x in s && p(x) ==> x in r
    ensures SubseqOf(r, s)
  {
    if s == [] then []
    else if p(s[0]) then [s[0]] + Filter(s[1..], p)
    else Filter(s[1..], p)
  }

  /** When every element passes, `filter` returns the array unchanged. */
  lemma {:induction false} FilterKeepsAll<T>(s: seq<T>, p: T -> bool)
    requires forall x :: x in s ==> p(x)
    ensures Filter(s, p) == s
  {
    if s != [] {
      FilterKeepsAll(s[1..], p);
    }
  }

  /** Filters by predicates that agree on every element give the same result. */
  lemma {:induction false} FilterPointwise<T>(s: seq<T>, p: T -> bool, q: T -> bool)
    requires forall x :: x in s ==> p(x) == q(x)
    ensures Filter(s, p) == Filter(s, q)
  {
    if s != [] {
      FilterPointwise(s[1..], p, q);
    }
  }

  /** Filtering twice with the same predicate is filtering once. */
  lemma FilterIdempotent<T>(s: seq<T>, p: T -> bool)
    ensures Filter(Filter(s, p), p) == Filter(s, p)
  {
    FilterKeepsAll(Filter(s, p), p);
  }

  /** Filtering distributes over concatenation. */
  lemma {:induction false} FilterAppend<T>(a: seq<T>, b: seq<T>, p: T -> bool)
    ensures Filter(a + b, p) == Filter(a, p) + Filter(b, p)
  {
    if a != [] {
      assert (a + b)[0] == a[0];
      assert (a + b)[1..] == a[1..] + b;
      FilterAppend(a[1..], b, p);
      if p(a[0]) {
        assert Filter(a + b, p) == [a[0]] + (Filter(a[1..], p) + Filter(b, p));
      }
    } else {
      assert a + b == b;
    }
  }

  /** No element occurs twice. */
  predicate NoDup<T(==)>(s: seq<T>) {
    forall i, j :: 0 <= i < j < |s| ==> s[i] != s[j]
  }

  /**
   * `[...new Set(s)]`: the elements of `s` without repetitions, each at the
   * place of its first occurrence.
   */
  function Distinct<T(==,!new)>(s: seq<T>): (r: seq<T>)
    ensures forall x :: x in r <==> x in s
    ensures NoDup(r)
    ensures |r| <= |s|
  {
    if s == [] then []
    else
      var d := Distinct(s[..|s| - 1]);
      var x := s[|s| - 1];
      assert forall y :: y in s <==> y in s[..|s| - 1] || y == x by {
        assert s == s[..|s| - 1] + [x];
      }
      if x in d then d else d + [x]
  }

  /** A sequence without repetitions has as many elements as its set. */
  lemma {:induction false} NoDupCardinality<T>(s: seq<T>)
    requires NoDup(s)
    ensures |set x | x in s| == |s|
  {
    if s != [] {
      var init := s[..|s| - 1];
      var last := s[|s| - 1];
      assert NoDup(init);
      NoDupCardinality(init);
      assert s == init + [last];
      assert last !in init;
      assert (set x | x in s) == (set x | x in init) + {last};
    }
  }

  /** `new Set(s).size`: the number of distinct elements of `s`. */
  function CountDistinct<T(==,!new)>(s: seq<T>): (n: nat)
    ensures n == |set x | x in s|
    ensures n <= |s|
  {
    var d := Distinct(s);
    NoDupCardinality(d);
    assert (set x | x in d) == (set x | x in s);
    |d|
  }

  /** Non-increasing by `key`. */
  ghost predicate Descending<T>(s: seq<T>, key: T -> real) {
    forall i, j :: 0 <= i < j < |s| ==> key(s[i]) >= key(s[j])
  }

  lemma DescendingCons<T>(h: T, t: seq<T>, key: T -> real)
    requires Descending(t, key)
    requires forall y :: y in t ==> key(h) >= key(y)
    ensures Descending([h] + t, key)
  {
    var r := [h] + t;
    forall i, j | 0 <= i < j < |r| ensures key(r[i]) >= key(r[j]) {
      assert r[j] == t[j - 1];
      if i > 0 {
        assert r[i] == t[i - 1];
      }
    }
  }

  lemma DescendingTail<T>(s: seq<T>, key: T -> real)
    requires s != [] && Descending(s, key)
    ensures Descending(s[1..], key)
    ensures forall y :: y in s ==> key(s[0]) >= key(y)
    ensures forall y :: y in s[1..] ==> key(s[0]) >= key(y)
  {
    forall i, j | 0 <= i < j < |s[1..]| ensures key(s[1..][i]) >= key(s[1..][j]) {
      assert s[1..][i] == s[i + 1] && s[1..][j] == s[j + 1];
    }
  }

  /**
   * Insert `x` into a sequence sorted by descending `key`, after every element
   * whose key is at least `x`'s: later arrivals go behind equal keys, which
   * keeps the sort stable.
   */
  function InsertDesc<T>(x: T, s: seq<T>, key: T -> real): (r: seq<T>)
    requires Descending(s, key)
    ensures Descending(r, key)
    ensures multiset(r) == multiset(s) + multiset{x}
    ensures |r| == |s| + 1
    ensures forall y :: y in r ==> y == x || y in s
  {
    if s == [] then [x]
    else if key(s[0]) >= key(x) then
      DescendingTail(s, key);
      var rest := InsertDesc(x, s[1..], key);
      assert s == [s[0]] + s[1..];
      DescendingCons(s[0], rest, key);
      [s[0]] + rest
    else
      DescendingCons(x, s, key);
      [x] + s
  }

  /**
   * `s.sort((a, b) => key(b) - key(a))`: ECMAScript's `sort` is stable, and
   * so is this insertion sort, which inserts the elements in input order.
   */
  function SortDesc<T>(s: seq<T>, key: T -> real): (r: seq<T>)
    ensures Descending(r, key)
    ensures multiset(r) == multiset(s)
    ensures |r| == |s|
  {
    if s == [] then []
    else
      assert s == s[..|s| - 1] + [s[|s| - 1]];
      InsertDesc(s[|s| - 1], SortDesc(s[..|s| - 1], key), key)
  }

  /** The elements whose key is `k`. */
  function KeyEquals<T>(key: T -> real, k: real): T -> bool {
    x => key(x) == k
  }

  /** Below a head whose key is less than `k`, no element has key `k`. */
  lemma NoKeyAboveHead<T>(s: seq<T>, key: T -> real, k: real)
    requires s != [] && Descending(s, key) && key(s[0]) < k
    ensures Filter(s, KeyEquals(key, k)) == []
  {
    DescendingTail(s, key);
  }

  lemma FilterCons<T>(h: T, t: seq<T>, p: T -> bool)
    ensures Filter([h] + t, p) == (if p(h) then [h] else []) + Filter(t, p)
  {
    assert ([h] + t)[0] == h && ([h] + t)[1..] == t;
  }

  /** An element in front of two sequences whose filters differ by a suffix keeps that difference. */
  lemma FilterConsSuffix<T>(h: T, a: seq<T>, b: seq<T>, p: T -> bool, suffix: seq<T>)
    requires Filter(a, p) == Filter(b, p) + suffix
    ensures Filter([h] + a, p) == Filter([h] + b, p) + suffix
  {
    FilterCons(h, a, p);
    FilterCons(h, b, p);
    AppendAssoc(if p(h) then [h] else [], Filter(b, p), suffix);
  }

  lemma AppendAssoc<T>(a: seq<T>, b: seq<T>, c: seq<T>)
    ensures a + (b + c) == (a + b) + c
  {
  }

  /**
   * Among elements of one key, `InsertDesc` puts `x` behind those already
   * there, and leaves the others in their order.
   */
  lemma {:induction false} InsertDescKeepsOrder<T>(x: T, s: seq<T>, key: T -> real, k: real)
    requires Descending(s, key)
    ensures Filter(InsertDesc(x, s, key), KeyEquals(key, k))
            == Filter(s, KeyEquals(key, k)) + (if key(x) == k then [x] else [])
  {
    var p := KeyEquals(key, k);
    var fx := if key(x) == k then [x] else [];
    if s == [] {
      FilterCons(x, [], p);
      assert [x] + [] == [x];
    } else if key(s[0]) >= key(x) {
      DescendingTail(s, key);
      InsertDescKeepsOrder(x, s[1..], key, k);
      FilterConsSuffix(s[0], InsertDesc(x, s[1..], key), s[1..], p, fx);
      assert s == [s[0]] + s[1..];
    } else {
      FilterCons(x, s, p);
      if key(x) == k {
        NoKeyAboveHead(s, key, k);
      }
    }
  }

  /**
   * The sort is stable: the elements sharing any one key come out in the
   * order they had in the input.
   */
  lemma {:induction false} SortDescStable<T>(s: seq<T>, key: T -> real, k: real)
    ensures Filter(SortDesc(s, key), KeyEquals(key, k)) == Filter(s, KeyEquals(key, k))
  {
    if s != [] {
      var init, last := s[..|s| - 1], s[|s| - 1];
      SortDescSnoc(s, key);
      SortDescStable(init, key, k);
      InsertDescKeepsOrder(last, SortDesc(init, key), key, k);
      FilterLast(s, KeyEquals(key, k));
      assert KeyEquals(key, k)(last) == (key(last) == k);
    }
  }

  lemma SortDescSnoc<T>(s: seq<T>, key: T -> real)
    requires s != []
    ensures SortDesc(s, key) == InsertDesc(s[|s| - 1], SortDesc(s[..|s| - 1], key), key)
  {
  }

  lemma FilterLast<T>(s: seq<T>, p: T -> bool)
    requires s != []
    ensures Filter(s, p) == Filter(s[..|s| - 1], p) + (if p(s[|s| - 1]) then [s[|s| - 1]] else [])
  {
    var init, x := s[..|s| - 1], s[|s| - 1];
    assert s == init + [x];
    FilterAppend(init, [x], p);
    FilterCons(x, [], p);
    assert [x] + [] == [x];
  }

  /** `s.slice(0, n)`. */
  function Take<T>(s: seq<T>, n: nat): (r: seq<T>)
    ensures |r| == if |s| < n then |s| else n
    ensures r == s[..|r|]
  {
    if |s| < n then s else s[..n]
  }

  /**
   * The top `n` by descending `key`: at most `n` elements, non-increasing,
   * each taken from `s`, and `n` of them when `s` has that many.
   */
  lemma TopDescending<T>(s: seq<T>, key: T -> real, n: nat)
    ensures |Take(SortDesc(s, key), n)| <= n
    ensures Descending(Take(SortDesc(s, key), n), key)
    ensures multiset(Take(SortDesc(s, key), n)) <= multiset(s)
    ensures forall x :: x in Take(SortDesc(s, key), n) ==> x in s
    ensures |s| >= n ==> |Take(SortDesc(s, key), n)| == n
  {
    var sorted := SortDesc(s, key);
    var top := Take(sorted, n);
    assert sorted == top + sorted[|top|..];
    assert multiset(top) <= multiset(s);
    forall x | x in top ensures x in s {
      assert x in multiset(top);
    }
  }

  /** Nothing left out of the top `n` ranks above the last one kept. */
  lemma TopDominates<T>(s: seq<T>, key: T -> real, n: nat)
    requires n > 0
    ensures forall x :: x in s ==>
              x in Take(SortDesc(s, key), n)
              || (|s| >= n && key(x) <= key(Take(SortDesc(s, key), n)[n - 1]))
  {
    var sorted := SortDesc(s, key);
    var top := Take(sorted, n);
    forall x | x in s
      ensures x in top || (|s| >= n && key(x) <= key(top[n - 1]))
    {
      assert x in multiset(sorted);
      var k :| 0 <= k < |sorted| && sorted[k] == x;
      if k < n {
        assert top[k] == x;
      } else {
        assert key(sorted[n - 1]) >= key(sorted[k]);
      }
    }
  }

  /** `s.map(f)`. */
  function Map<A, B>(s: seq<A>, f: A -> B): (r: seq<B>)
    ensures |r| == |s|
    ensures forall i :: 0 <= i < |s| ==> r[i] == f(s[i])
  {
    seq(|s|, i requires 0 <= i < |s| => f(s[i]))
  }

  lemma MapSnoc<A, B>(s: seq<A>, x: A, f: A -> B)
    ensures Map(s + [x], f) == Map(s, f) + [f(x)]
  {
    var m := Map(s + [x], f);
    forall i | 0 <= i < |s| ensures m[i] == f(s[i]) {
      assert (s + [x])[i] == s[i];
    }
    assert m[|s|] == f(x);
  }

  /** Mapping then filtering a sequence with one more element adds at most that element's image at the end. */
  lemma FilterMapSnoc<A, B>(s: seq<A>, x: A, f: A -> B, p: B -> bool)
    ensures Filter(Map(s + [x], f), p) == Filter(Map(s, f), p) + (if p(f(x)) then [f(x)] else [])
  {
    MapSnoc(s, x, f);
    FilterAppend(Map(s, f), [f(x)], p);
  }

  /** `s.reduce((acc, x) => acc + f(x), 0)`. */
  function SumBy<T>(s: seq<T>, f: T -> real): real {
    if s == [] then 0.0 else SumBy(s[..|s| - 1], f) + f(s[|s| - 1])
  }

  /** Sums of pointwise-equal terms are equal. */
  lemma {:induction false} SumByPointwise<T>(s: seq<T>, f: T -> real, g: T -> real)
    requires forall x :: x in s ==> f(x) == g(x)
    ensures SumBy(s, f) == SumBy(s, g)
  {
    if s != [] {
      assert forall x :: x in s[..|s| - 1] ==> x in s;
      SumByPointwise(s[..|s| - 1], f, g);
    }
  }

  lemma {:induction false} SumByAppend<T>(a: seq<T>, b: seq<T>, f: T -> real)
    ensures SumBy(a + b, f) == SumBy(a, f) + SumBy(b, f)
    decreases |b|
  {
    if b != [] {
      assert (a + b)[..|a + b| - 1] == a + b[..|b| - 1];
      assert (a + b)[|a + b| - 1] == b[|b| - 1];
      SumByAppend(a, b[..|b| - 1], f);
    } else {
      assert a + b == a;
    }
  }

  /** A sum over a filtered sequence adds the terms that pass and skips the rest. */
  lemma {:induction false} SumByFilter<T>(s: seq<T>, p: T -> bool, f: T -> real)
    ensures SumBy(Filter(s, p), f) == SumBy(s, x => if p(x) then f(x) else 0.0)
    decreases |s|
  {
    if s != [] {
      var init := s[..|s| - 1];
      var last := s[|s| - 1];
      assert s == init + [last];
      FilterAppend(init, [last], p);
      SumByAppend(Filter(init, p), Filter([last], p), f);
      SumByFilter(init, p, f);
    }
  }
}
