/** Ordering a list by an integer key the way Python's `list.sort(key=…)` and SQL's
    `ORDER BY` do: the result is ordered by the key and holds the same elements. */
module Sorting {

  predicate SortedBy<T>(xs: seq<T>, key: T -> int) {
    forall i, j :: 0 <= i < j < |xs| ==> key(xs[i]) <= key(xs[j])
  }

  /** `x` placed after every element whose key is not larger. */
  function Insert<T>(x: T, xs: seq<T>, key: T -> int): (r: seq<T>)
    ensures multiset(r) == multiset(xs) + multiset{x}
    ensures |r| == |xs| + 1
  {
    if xs == [] then [x]
    else if key(x) < key(xs[0]) then [x] + xs
    else
      assert xs == [xs[0]] + xs[1..];
      [xs[0]] + Insert(x, xs[1..], key)
  }

  /** Inserting into an ordered list keeps it ordered, and every key of the result is at
      least that of `x` or that of the first element. */
  lemma {:induction false} InsertSorted<T>(x: T, xs: seq<T>, key: T -> int)
    requires SortedBy(xs, key)
    ensures SortedBy(Insert(x, xs, key), key)
    ensures forall k :: 0 <= k < |Insert(x, xs, key)| ==>
      key(x) <= key(Insert(x, xs, key)[k]) || (xs != [] && key(xs[0]) <= key(Insert(x, xs, key)[k]))
  {
    if xs == [] {
      assert Insert(x, xs, key) == [x];
    } else if key(x) < key(xs[0]) {
      SortedTail(xs, key);
      SortedCons(x, xs, key);
      assert Insert(x, xs, key) == [x] + xs;
    } else {
      var tail := xs[1..];
      SortedTail(xs, key);
      InsertSorted(x, tail, key);
      var rest := Insert(x, tail, key);
      assert tail != [] ==> key(xs[0]) <= key(tail[0]);
      assert forall k :: 0 <= k < |rest| ==> key(xs[0]) <= key(rest[k]);
      SortedCons(xs[0], rest, key);
      assert Insert(x, xs, key) == [xs[0]] + rest;
    }
  }

  lemma SortedTail<T>(xs: seq<T>, key: T -> int)
    requires SortedBy(xs, key) && xs != []
    ensures SortedBy(xs[1..], key)
    ensures forall k :: 0 <= k < |xs| ==> key(xs[0]) <= key(xs[k])
  {
    forall i, j | 0 <= i < j < |xs[1..]| ensures key(xs[1..][i]) <= key(xs[1..][j]) {
      assert xs[1..][i] == xs[i + 1] && xs[1..][j] == xs[j + 1];
    }
  }

  lemma SortedCons<T>(a: T, rest: seq<T>, key: T -> int)
    requires SortedBy(rest, key)
    requires forall k :: 0 <= k < |rest| ==> key(a) <= key(rest[k])
    ensures SortedBy([a] + rest, key)
  {
    var r := [a] + rest;
    forall i, j | 0 <= i < j < |r| ensures key(r[i]) <= key(r[j]) {
      assert r[j] == rest[j - 1];
      if i > 0 {
        assert r[i] == rest[i - 1];
      }
    }
  }

  /** The elements of `xs` ordered by `key`; elements with equal keys keep their order. */
  function SortBy<T>(xs: seq<T>, key: T -> int): (r: seq<T>)
    ensures SortedBy(r, key)
    ensures multiset(r) == multiset(xs)
    ensures |r| == |xs|
  {
    if xs == [] then []
    else
      var n := |xs| - 1;
      assert xs == xs[..n] + [xs[n]];
      var sorted := SortBy(xs[..n], key);
      InsertSorted(xs[n], sorted, key);
      Insert(xs[n], sorted, key)
  }

  /** Sorting keeps exactly the elements it was given. */
  lemma SortByKeepsElements<T>(xs: seq<T>, key: T -> int, x: T)
    ensures x in SortBy(xs, key) <==> x in xs
  {
    assert x in SortBy(xs, key) <==> x in multiset(SortBy(xs, key));
    assert x in xs <==> x in multiset(xs);
  }

  /** An already ordered list is left as it is. */
  lemma {:induction false} SortBySorted<T>(xs: seq<T>, key: T -> int)
    requires SortedBy(xs, key)
    ensures SortBy(xs, key) == xs
  {
    if xs != [] {
      var n := |xs| - 1;
      assert SortedBy(xs[..n], key);
      SortBySorted(xs[..n], key);
      InsertLast(xs[n], xs[..n], key);
      assert xs[..n] + [xs[n]] == xs;
    }
  }

  /** Inserting an element with the largest key appends it. */
  lemma {:induction false} InsertLast<T>(x: T, xs: seq<T>, key: T -> int)
    requires SortedBy(xs, key)
    requires forall k :: 0 <= k < |xs| ==> key(xs[k]) <= key(x)
    ensures Insert(x, xs, key) == xs + [x]
  {
    if xs != [] {
      assert SortedBy(xs[1..], key);
      InsertLast(x, xs[1..], key);
      assert [xs[0]] + (xs[1..] + [x]) == xs + [x];
    }
  }
}
