/** Stable sorting by a numeric key, as Python's `sorted(..., reverse=True)`, JavaScript's
 *  `Array.prototype.sort` (stable since ES2019) and the ordered queries of the backend
 *  are used here. Ascending order is descending order of the negated key. */
module Sorting {

  predicate SortedDesc<T>(s: seq<T>, key: T -> real)
  {
    forall i, j :: 0 <= i < j < |s| ==> key(s[i]) >= key(s[j])
  }

  predicate SortedAsc<T>(s: seq<T>, key: T -> real)
  {
    forall i, j :: 0 <= i < j < |s| ==> key(s[i]) <= key(s[j])
  }

  /** Inserts `x` in front of the first element whose key is not larger than its own. */
  function InsertDesc<T>(x: T, s: seq<T>, key: T -> real): (r: seq<T>)
    ensures |r| == |s| + 1
  {
    if s == [] || key(s[0]) <= key(x) then [x] + s
    else [s[0]] + InsertDesc(x, s[1..], key)
  }

  /** Insertion adds `x` and loses nothing. */
  lemma {:induction false} InsertDescPerm<T>(x: T, s: seq<T>, key: T -> real)
    ensures multiset(InsertDesc(x, s, key)) == multiset(s) + multiset{x}
  {
    if s != [] && key(s[0]) > key(x) {
      InsertDescPerm(x, s[1..], key);
      assert s == [s[0]] + s[1..];
    }
  }

  /** Inserting under a bound keeps every key under it. */
  lemma {:induction false} InsertDescBound<T>(x: T, s: seq<T>, key: T -> real, b: real)
    requires key(x) <= b && forall i :: 0 <= i < |s| ==> key(s[i]) <= b
    ensures forall j :: 0 <= j < |InsertDesc(x, s, key)| ==> key(InsertDesc(x, s, key)[j]) <= b
  {
    if s != [] && key(s[0]) > key(x) {
      InsertDescBound(x, s[1..], key, b);
    }
  }

  lemma {:induction false} InsertDescSorted<T>(x: T, s: seq<T>, key: T -> real)
    requires SortedDesc(s, key)
    ensures SortedDesc(InsertDesc(x, s, key), key)
    ensures |s| > 0 && key(x) < key(s[0]) ==> InsertDesc(x, s, key)[0] == s[0]
  {
    if s == [] || key(s[0]) <= key(x) {
    } else {
      var t := InsertDesc(x, s[1..], key);
      InsertDescSorted(x, s[1..], key);
      InsertDescBound(x, s[1..], key, key(s[0]));
      var r := [s[0]] + t;
      assert forall i :: 1 <= i < |r| ==> r[i] == t[i - 1];
    }
  }

  /** Insertion sort: the result is ordered by non-increasing key. */
  function SortDesc<T(==)>(s: seq<T>, key: T -> real): (r: seq<T>)
    ensures |r| == |s|
    ensures multiset(r) == multiset(s)
    ensures SortedDesc(r, key)
  {
    if s == [] then []
    else
      assert s == [s[0]] + s[1..];
      InsertDescSorted(s[0], SortDesc(s[1..], key), key);
      InsertDescPerm(s[0], SortDesc(s[1..], key), key);
      InsertDesc(s[0], SortDesc(s[1..], key), key)
  }

  /** The elements whose key is `k`, in their order in `s`. */
  function WithKey<T>(s: seq<T>, key: T -> real, k: real): seq<T>
  {
    if s == [] then [] else (if key(s[0]) == k then [s[0]] else []) + WithKey(s[1..], key, k)
  }

  lemma {:induction false} InsertDescWithKey<T>(x: T, s: seq<T>, key: T -> real, k: real)
    ensures WithKey(InsertDesc(x, s, key), key, k)
         == (if key(x) == k then [x] else []) + WithKey(s, key, k)
  {
    if s == [] || key(s[0]) <= key(x) {
      Cons(x, s);
    } else {
      InsertDescWithKey(x, s[1..], key, k);
      PassedOver(x, s, key, k);
    }
  }

  /** Inserting behind a head with a larger key keeps the head's entry in front. */
  lemma PassedOver<T>(x: T, s: seq<T>, key: T -> real, k: real)
    requires s != [] && key(s[0]) > key(x)
    requires WithKey(InsertDesc(x, s[1..], key), key, k)
          == (if key(x) == k then [x] else []) + WithKey(s[1..], key, k)
    ensures WithKey(InsertDesc(x, s, key), key, k)
         == (if key(x) == k then [x] else []) + WithKey(s, key, k)
  {
    Cons(s[0], InsertDesc(x, s[1..], key));
    if key(s[0]) == k {
      assert key(x) != k;
    }
  }

  lemma Cons<T>(h: T, t: seq<T>)
    ensures [h] + t != [] && ([h] + t)[0] == h && ([h] + t)[1..] == t
  {
  }

  /** Stability: elements with equal keys keep their relative order. */
  lemma {:induction false} SortDescStable<T>(s: seq<T>, key: T -> real, k: real)
    ensures WithKey(SortDesc(s, key), key, k) == WithKey(s, key, k)
  {
    if s != [] {
      SortDescStable(s[1..], key, k);
      InsertDescWithKey(s[0], SortDesc(s[1..], key), key, k);
    }
  }

  function Negated<T>(key: T -> real): T -> real
  {
    x => -key(x)
  }

  /** Stable ascending sort. */
  function SortAsc<T(==)>(s: seq<T>, key: T -> real): (r: seq<T>)
    ensures |r| == |s|
    ensures multiset(r) == multiset(s)
    ensures SortedAsc(r, key)
  {
    var r := SortDesc(s, Negated(key));
    assert forall i, j :: 0 <= i < j < |r| ==> Negated(key)(r[i]) >= Negated(key)(r[j]);
    r
  }

  /** Python `s[:n]` and SQL `LIMIT n` for n >= 0. */
  function Take<T>(s: seq<T>, n: nat): (r: seq<T>)
    ensures |r| == if n < |s| then n else |s|
    ensures r == s[..|r|]
  {
    if n < |s| then s[..n] else s
  }

  /** The first element of a descending sort has the largest key, and is the first such
   *  element of `s`. */
  lemma {:induction false} SortDescHead<T>(s: seq<T>, key: T -> real)
    requires |s| > 0
    ensures SortDesc(s, key)[0] in s
    ensures forall y :: y in s ==> key(y) <= key(SortDesc(s, key)[0])
    ensures exists i :: 0 <= i < |s| && s[i] == SortDesc(s, key)[0] &&
                        forall j :: 0 <= j < i ==> key(s[j]) < key(s[i])
  {
    var r := SortDesc(s, key);
    assert r[0] in multiset(s);
    forall y | y in s
      ensures key(y) <= key(r[0])
    {
      assert y in multiset(r);
      var j :| 0 <= j < |r| && r[j] == y;
    }
    var k := key(r[0]);
    assert WithKey(r, key, k)[0] == r[0];
    SortDescStable(s, key, k);
    var i := WithKeyHead(s, key, k, r[0]);
    forall j | 0 <= j < i
      ensures key(s[j]) < key(s[i])
    {
      assert s[j] in s;
    }
  }

  /** The first element with key `k` is the one at the first index whose key is `k`. */
  lemma {:induction false} WithKeyHead<T>(s: seq<T>, key: T -> real, k: real, x: T) returns (i: nat)
    requires WithKey(s, key, k) != [] && WithKey(s, key, k)[0] == x
    ensures i < |s| && s[i] == x && key(x) == k
    ensures forall j :: 0 <= j < i ==> key(s[j]) != k
  {
    if key(s[0]) == k {
      i := 0;
    } else {
      var i' := WithKeyHead(s[1..], key, k, x);
      i := i' + 1;
    }
  }

  /** The first `n` of a stable descending sort are drawn from `s`, and nothing left out has
   *  a larger key than anything taken. */
  lemma TakeSortedTop<T>(s: seq<T>, key: T -> real, n: nat)
    ensures var r := Take(SortDesc(s, key), n);
      multiset(r) <= multiset(s)
      && forall x, y :: x in r && y in multiset(s) - multiset(r) ==> key(x) >= key(y)
  {
    var sorted := SortDesc(s, key);
    var r := Take(sorted, n);
    var rest := sorted[|r|..];
    assert sorted == r + rest;
    assert multiset(r) + multiset(rest) == multiset(s);
    assert multiset(s) - multiset(r) == multiset(rest);
    forall x, y | x in r && y in multiset(rest)
      ensures key(x) >= key(y)
    {
      SplitSorted(sorted, key, |r|, x, y);
    }
  }

  lemma SplitSorted<T>(sorted: seq<T>, key: T -> real, k: nat, x: T, y: T)
    requires SortedDesc(sorted, key) && k <= |sorted|
    requires x in sorted[..k] && y in multiset(sorted[k..])
    ensures key(x) >= key(y)
  {
    var i :| 0 <= i < k && sorted[..k][i] == x;
    assert y in sorted[k..];
    var j :| 0 <= j < |sorted| - k && sorted[k..][j] == y;
    assert sorted[i] == x && sorted[k + j] == y;
  }
}
