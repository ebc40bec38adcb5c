/**
  `[...xs].sort((a, b) => order === 'asc' ? key(a) - key(b) : key(b) - key(a))`.
  `Array.prototype.sort` is stable, so items with equal keys keep their
  relative order. The model is an insertion sort with the same three
  properties: a permutation, ordered by the key, stable.
 */
module Sorting {
  import opened Seqs

  datatype SortOrder = Asc | Desc

  /** The sort button: `prev === 'asc' ? 'desc' : 'asc'`. */
  function Toggle(o: SortOrder): (r: SortOrder)
    ensures r != o
  {
    if o == Asc then Desc else Asc
  }

  lemma ToggleTwice(o: SortOrder)
    ensures Toggle(Toggle(o)) == o
  {
  }

  /** A key `a` may be placed before a key `b` under `o`. */
  predicate Precedes(o: SortOrder, a: int, b: int) {
    if o == Asc then a <= b else a >= b
  }

  ghost predicate SortedBy<T>(xs: seq<T>, key: T -> int, o: SortOrder) {
    forall i, j :: 0 <= i < j < |xs| ==> Precedes(o, key(xs[i]), key(xs[j]))
  }

  /** The items whose key is `k`, in order: stability is about these lists. */
  function WithKey<T(==)>(xs: seq<T>, key: T -> int, k: int): seq<T> {
    Filter(xs, x => key(x) == k)
  }

  /** Inserts `x` before the first item it may precede. */
  function Insert<T>(x: T, xs: seq<T>, key: T -> int, o: SortOrder): (r: seq<T>)
    ensures multiset(r) == multiset(xs) + multiset{x}
  {
    if |xs| == 0 then [x]
    else if Precedes(o, key(x), key(xs[0])) then
      [x] + xs
    else
      assert xs == [xs[0]] + xs[1..];
      [xs[0]] + Insert(x, xs[1..], key, o)
  }

  /** Every item of `xs` may follow a key `k`. */
  ghost predicate AllFollow<T>(xs: seq<T>, key: T -> int, o: SortOrder, k: int) {
    forall i :: 0 <= i < |xs| ==> Precedes(o, k, key(xs[i]))
  }

  /** A sorted list stays sorted behind an item every element may follow. */
  lemma ConsSorted<T>(y: T, xs: seq<T>, key: T -> int, o: SortOrder)
    requires SortedBy(xs, key, o) && AllFollow(xs, key, o, key(y))
    ensures SortedBy([y] + xs, key, o)
  {
    var r := [y] + xs;
    forall i, j | 0 <= i < j < |r|
      ensures Precedes(o, key(r[i]), key(r[j]))
    {
      assert r[j] == xs[j - 1];
      if i > 0 {
        assert r[i] == xs[i - 1];
      }
    }
  }

  lemma FollowCons<T>(y: T, xs: seq<T>, key: T -> int, o: SortOrder, k: int)
    requires AllFollow(xs, key, o, k) && Precedes(o, k, key(y))
    ensures AllFollow([y] + xs, key, o, k)
  {
    forall i | 0 < i < |[y] + xs|
      ensures Precedes(o, k, key(([y] + xs)[i]))
    {
      assert ([y] + xs)[i] == xs[i - 1];
    }
  }

  lemma FollowTail<T>(xs: seq<T>, key: T -> int, o: SortOrder, k: int)
    requires |xs| > 0 && AllFollow(xs, key, o, k)
    ensures AllFollow(xs[1..], key, o, k)
  {
    forall i | 0 <= i < |xs[1..]|
      ensures Precedes(o, k, key(xs[1..][i]))
    {
      assert xs[1..][i] == xs[i + 1];
    }
  }

  /** Inserting an item that may follow `k` into a list that may follow `k` keeps that bound. */
  lemma {:induction false} InsertFollows<T>(x: T, xs: seq<T>, key: T -> int, o: SortOrder, k: int)
    requires AllFollow(xs, key, o, k) && Precedes(o, k, key(x))
    ensures AllFollow(Insert(x, xs, key, o), key, o, k)
  {
    if |xs| == 0 {
      FollowCons(x, xs, key, o, k);
    } else if Precedes(o, key(x), key(xs[0])) {
      FollowCons(x, xs, key, o, k);
    } else {
      FollowTail(xs, key, o, k);
      InsertFollows(x, xs[1..], key, o, k);
      FollowCons(xs[0], Insert(x, xs[1..], key, o), key, o, k);
    }
  }

  /** Inserting into a sorted list keeps it sorted. */
  lemma {:induction false} InsertSorted<T>(x: T, xs: seq<T>, key: T -> int, o: SortOrder)
    requires SortedBy(xs, key, o)
    ensures SortedBy(Insert(x, xs, key, o), key, o)
  {
    if |xs| == 0 {
      assert Insert(x, xs, key, o) == [x];
    } else if Precedes(o, key(x), key(xs[0])) {
      assert AllFollow(xs, key, o, key(x)) by {
        forall i | 0 <= i < |xs|
          ensures Precedes(o, key(x), key(xs[i]))
        {
          if i > 0 {
            assert Precedes(o, key(xs[0]), key(xs[i]));
          }
        }
      }
      ConsSorted(x, xs, key, o);
    } else {
      var tail := xs[1..];
      assert SortedBy(tail, key, o) by {
        forall i, j | 0 <= i < j < |tail|
          ensures Precedes(o, key(tail[i]), key(tail[j]))
        {
          assert tail[i] == xs[i + 1] && tail[j] == xs[j + 1];
        }
      }
      assert AllFollow(tail, key, o, key(xs[0])) by {
        forall i | 0 <= i < |tail|
          ensures Precedes(o, key(xs[0]), key(tail[i]))
        {
          assert tail[i] == xs[i + 1];
        }
      }
      InsertSorted(x, tail, key, o);
      InsertFollows(x, tail, key, o, key(xs[0]));
      ConsSorted(xs[0], Insert(x, tail, key, o), key, o);
    }
  }

  /** The key-class of a list with one more item in front. */
  lemma WithKeyCons<T>(y: T, ys: seq<T>, key: T -> int, k: int)
    ensures WithKey([y] + ys, key, k) == (if key(y) == k then [y] + WithKey(ys, key, k) else WithKey(ys, key, k))
  {
    assert ([y] + ys)[1..] == ys;
  }

  /** Insertion keeps every key-class in order; `x` lands first in its own class. */
  lemma {:induction false} InsertStable<T>(x: T, xs: seq<T>, key: T -> int, o: SortOrder, k: int)
    ensures WithKey(Insert(x, xs, key, o), key, k) ==
            (if key(x) == k then [x] + WithKey(xs, key, k) else WithKey(xs, key, k))
  {
    if |xs| == 0 || Precedes(o, key(x), key(xs[0])) {
      WithKeyCons(x, xs, key, k);
    } else {
      InsertStable(x, xs[1..], key, o, k);
      WithKeyCons(xs[0], Insert(x, xs[1..], key, o), key, k);
      WithKeyCons(xs[0], xs[1..], key, k);
      assert [xs[0]] + xs[1..] == xs;
    }
  }

  /** The stable sort of `xs` by `key` in order `o`. */
  function SortBy<T(==)>(xs: seq<T>, key: T -> int, o: SortOrder): (r: seq<T>)
    ensures multiset(r) == multiset(xs)
    ensures |r| == |xs|
    ensures SortedBy(r, key, o)
  {
    if |xs| == 0 then []
    else
      assert xs == [xs[0]] + xs[1..];
      InsertSorted(xs[0], SortBy(xs[1..], key, o), key, o);
      Insert(xs[0], SortBy(xs[1..], key, o), key, o)
  }

  /** Stability: within each key, the sorted list keeps the original order. */
  lemma {:induction false} SortIsStable<T>(xs: seq<T>, key: T -> int, o: SortOrder, k: int)
    ensures WithKey(SortBy(xs, key, o), key, k) == WithKey(xs, key, k)
  {
    if |xs| > 0 {
      SortIsStable(xs[1..], key, o, k);
      InsertStable(xs[0], SortBy(xs[1..], key, o), key, o, k);
    }
  }
}
