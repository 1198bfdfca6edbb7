/** Stable sorting by an integer key, as `Array.prototype.sort` and `OrderBy` perform it. */
module Sorting {
  predicate Sorted<T>(xs: seq<T>, key: T -> int) {
    forall i, j :: 0 <= i < j < |xs| ==> key(xs[i]) <= key(xs[j])
  }

  /** Places `x` before the first element whose key is not smaller. */
  function InsertByKey<T>(x: T, xs: seq<T>, key: T -> int): seq<T> {
    if |xs| == 0 || key(x) <= key(xs[0]) then [x] + xs else [xs[0]] + InsertByKey(x, xs[1..], key)
  }

  function Sort<T>(xs: seq<T>, key: T -> int): seq<T> {
    if |xs| == 0 then [] else InsertByKey(xs[0], Sort(xs[1..], key), key)
  }

  lemma {:induction false} InsertPermutes<T>(x: T, xs: seq<T>, key: T -> int)
    ensures multiset(InsertByKey(x, xs, key)) == multiset(xs) + multiset{x}
  {
    if |xs| == 0 || key(x) <= key(xs[0]) {
    } else {
      InsertPermutes(x, xs[1..], key);
      assert xs == [xs[0]] + xs[1..];
    }
  }

  lemma {:induction false} InsertSorted<T>(x: T, xs: seq<T>, key: T -> int)
    requires Sorted(xs, key)
    ensures Sorted(InsertByKey(x, xs, key), key)
  {
    if |xs| == 0 || key(x) <= key(xs[0]) {
    } else {
      InsertSorted(x, xs[1..], key);
      InsertPermutes(x, xs[1..], key);
      var rest := InsertByKey(x, xs[1..], key);
      forall i | 0 <= i < |rest|
        ensures key(xs[0]) <= key(rest[i])
      {
        assert rest[i] in multiset(rest);
        if rest[i] in multiset(xs[1..]) {
          var k :| 0 <= k < |xs| - 1 && xs[1..][k] == rest[i];
          assert xs[k + 1] == rest[i];
        }
      }
    }
  }

  /** The result is ordered and is a permutation of the input. */
  lemma {:induction false} SortCorrect<T>(xs: seq<T>, key: T -> int)
    ensures Sorted(Sort(xs, key), key)
    ensures multiset(Sort(xs, key)) == multiset(xs)
    ensures |Sort(xs, key)| == |xs|
  {
    if |xs| > 0 {
      SortCorrect(xs[1..], key);
      InsertSorted(xs[0], Sort(xs[1..], key), key);
      InsertPermutes(xs[0], Sort(xs[1..], key), key);
      assert xs == [xs[0]] + xs[1..];
    }
    assert |multiset(Sort(xs, key))| == |multiset(xs)|;
  }

  lemma {:induction false} SortMembers<T>(xs: seq<T>, key: T -> int)
    ensures forall x :: x in Sort(xs, key) <==> x in xs
  {
    SortCorrect(xs, key);
    forall x
      ensures x in Sort(xs, key) <==> x in xs
    {
      assert x in Sort(xs, key) <==> x in multiset(Sort(xs, key));
      assert x in xs <==> x in multiset(xs);
    }
  }

  lemma {:induction false} SortOfSorted<T>(xs: seq<T>, key: T -> int)
    requires Sorted(xs, key)
    ensures Sort(xs, key) == xs
  {
    if |xs| > 0 {
      SortOfSorted(xs[1..], key);
      assert xs == [xs[0]] + xs[1..];
    }
  }

  predicate AllDistinct<T(==)>(xs: seq<T>) {
    forall i, j :: 0 <= i < j < |xs| ==> xs[i] != xs[j]
  }

  function Elements<T(!new,==)>(xs: seq<T>): (es: set<T>)
    ensures forall x :: x in es <==> x in xs
    ensures |es| <= |xs|
  {
    if |xs| == 0 then {} else Elements(xs[..|xs| - 1]) + {xs[|xs| - 1]}
  }

  lemma {:induction false} ElementsOfDistinct<T(!new)>(xs: seq<T>)
    requires AllDistinct(xs)
    ensures |Elements(xs)| == |xs|
  {
    if |xs| > 0 {
      ElementsOfDistinct(xs[..|xs| - 1]);
    }
  }

  lemma {:induction false} SubsetIsSmaller<T>(a: set<T>, b: set<T>)
    requires a <= b
    ensures |a| <= |b|
  {
    assert b == a + (b - a);
  }

  /** A list of n elements of a set. */
  lemma {:induction false} ListOf<T>(s: set<T>, n: nat) returns (xs: seq<T>)
    requires n <= |s|
    ensures AllDistinct(xs) && |xs| == n && forall x :: x in xs ==> x in s
  {
    if n == 0 {
      xs := [];
    } else {
      var x :| x in s;
      var rest := ListOf(s - {x}, n - 1);
      xs := rest + [x];
    }
  }

  lemma {:induction false} InsertDistinct<T>(x: T, xs: seq<T>, key: T -> int)
    requires AllDistinct(xs) && x !in xs
    ensures AllDistinct(InsertByKey(x, xs, key))
    ensures forall y :: y in InsertByKey(x, xs, key) <==> y == x || y in xs
  {
    if |xs| > 0 && key(x) > key(xs[0]) {
      var rest := InsertByKey(x, xs[1..], key);
      InsertDistinct(x, xs[1..], key);
      assert xs == [xs[0]] + xs[1..];
      assert forall k :: 0 <= k < |xs| - 1 ==> xs[1..][k] == xs[k + 1];
      assert xs[0] !in xs[1..] && xs[0] !in rest;
    }
  }

  lemma {:induction false} SortDistinct<T>(xs: seq<T>, key: T -> int)
    requires AllDistinct(xs)
    ensures AllDistinct(Sort(xs, key))
  {
    if |xs| > 0 {
      SortDistinct(xs[1..], key);
      SortMembers(xs[1..], key);
      InsertDistinct(xs[0], Sort(xs[1..], key), key);
    }
  }

  lemma {:induction false} InsertConcat<T>(x: T, xs: seq<T>, ys: seq<T>, key: T -> int)
    requires forall y :: y in ys ==> key(x) <= key(y)
    ensures InsertByKey(x, xs + ys, key) == InsertByKey(x, xs, key) + ys
  {
    if |xs| == 0 {
      assert xs + ys == ys;
    } else if key(x) <= key(xs[0]) {
      assert [x] + (xs + ys) == [x] + xs + ys;
    } else {
      assert (xs + ys)[1..] == xs[1..] + ys;
      InsertConcat(x, xs[1..], ys, key);
      assert [xs[0]] + (InsertByKey(x, xs[1..], key) + ys) == [xs[0]] + InsertByKey(x, xs[1..], key) + ys;
    }
  }

  /** Sorting a batch that is split at a key sorts the two parts on their own. */
  lemma {:induction false} SortConcat<T>(xs: seq<T>, ys: seq<T>, key: T -> int)
    requires forall x, y :: x in xs && y in ys ==> key(x) <= key(y)
    ensures Sort(xs + ys, key) == Sort(xs, key) + Sort(ys, key)
  {
    if |xs| == 0 {
      assert xs + ys == ys;
    } else {
      assert (xs + ys)[1..] == xs[1..] + ys;
      SortConcat(xs[1..], ys, key);
      SortCorrect(ys, key);
      forall y | y in Sort(ys, key)
        ensures key(xs[0]) <= key(y)
      {
        assert y in multiset(Sort(ys, key));
        assert xs[0] in xs && y in ys;
      }
      InsertConcat(xs[0], Sort(xs[1..], key), Sort(ys, key), key);
    }
  }
}
