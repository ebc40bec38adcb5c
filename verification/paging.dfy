/**
  Client-side pagination as the list pages write it. The blink lists use a
  0-based page and `slice(p * 3, p * 3 + 3)`; the payments, gift, staking,
  commerce and NFT pages use a 1-based page and
  `slice((p - 1) * size, p * size)` with `Math.ceil(n / size)` pages.
  Neither form clamps the page number.
 */
module Paging {
  import opened Seqs

  /** `Math.ceil(n / size)`. */
  function TotalPages(n: nat, size: nat): (r: nat)
    requires size > 0
    ensures n <= r * size
    ensures r == 0 || (r - 1) * size < n
  {
    (n + size - 1) / size
  }

  /** `xs.slice(p * size, p * size + size)`: the page `p`, counting from 0. */
  function PageFromZero<T>(xs: seq<T>, p: nat, size: nat): (r: seq<T>)
    ensures |r| <= size
    ensures r == [] <==> (size == 0 || p * size >= |xs|)
    ensures p * size < |xs| ==> |r| == Min(size, |xs| - p * size)
    ensures forall i :: 0 <= i < |r| ==> p * size + i < |xs| && r[i] == xs[p * size + i]
  {
    JsSlice(xs, p * size, p * size + size)
  }

  /** `xs.slice((p - 1) * size, p * size)`: the page `p`, counting from 1. */
  function PageFromOne<T>(xs: seq<T>, p: int, size: nat): (r: seq<T>)
    ensures p >= 1 ==> r == PageFromZero(xs, p - 1, size)
  {
    assert (p - 1) * size + size == p * size;
    JsSlice(xs, (p - 1) * size, p * size)
  }

  /** Every page in `1..TotalPages` holds at most `size` items and at least one. */
  lemma PagesInRange<T>(xs: seq<T>, p: int, size: nat)
    requires size > 0 && 1 <= p <= TotalPages(|xs|, size)
    ensures 0 < |PageFromOne(xs, p, size)| <= size
  {
    assert (p - 1) * size <= (TotalPages(|xs|, size) - 1) * size;
  }

  /** A page number past the last page shows nothing: nothing is clamped. */
  lemma PageBeyondLastIsEmpty<T>(xs: seq<T>, p: int, size: nat)
    requires size > 0 && p > TotalPages(|xs|, size)
    ensures PageFromOne(xs, p, size) == []
  {
    assert (p - 1) * size >= TotalPages(|xs|, size) * size;
  }

  /** The pages `1..TotalPages`, in order. */
  function AllPages<T>(xs: seq<T>, size: nat): seq<seq<T>>
    requires size > 0
  {
    seq(TotalPages(|xs|, size), i requires 0 <= i => PageFromOne(xs, i + 1, size))
  }

  /** The first `m` pages, laid end to end, are the first `m * size` items. */
  lemma {:induction false} FirstPagesArePrefix<T>(xs: seq<T>, size: nat, m: nat)
    requires size > 0
    ensures Concat(seq(m, i requires 0 <= i => PageFromZero(xs, i, size))) == xs[..Min(m * size, |xs|)]
  {
    if m > 0 {
      var pages := seq(m, i requires 0 <= i => PageFromZero(xs, i, size));
      var first := seq(m - 1, i requires 0 <= i => PageFromZero(xs, i, size));
      var last := PageFromZero(xs, m - 1, size);
      var lo := Min((m - 1) * size, |xs|);
      var hi := Min(m * size, |xs|);
      assert Concat(pages) == Concat(first) + last by {
        assert pages == first + [last];
        ConcatSnoc(first, last);
      }
      FirstPagesArePrefix(xs, size, m - 1);
      assert last == xs[lo..hi] by {
        LastPageIsSlice(xs, size, m - 1);
      }
      assert xs[..hi] == xs[..lo] + xs[lo..hi];
    }
  }

  /** Page `p` is the slice from `p * size`, both ends cut at the length of the list. */
  lemma LastPageIsSlice<T>(xs: seq<T>, size: nat, p: nat)
    requires size > 0
    ensures PageFromZero(xs, p, size) == xs[Min(p * size, |xs|)..Min(p * size + size, |xs|)]
  {
    var lo := Min(p * size, |xs|);
    var hi := Min(p * size + size, |xs|);
    if p * size < |xs| {
      assert PageFromZero(xs, p, size) == xs[lo..hi];
    }
  }

  /** The pages partition the list: concatenated in order they give it back. */
  lemma PagesPartition<T>(xs: seq<T>, size: nat)
    requires size > 0
    ensures Concat(AllPages(xs, size)) == xs
    ensures forall i :: 0 <= i < |AllPages(xs, size)| ==> |AllPages(xs, size)[i]| <= size
  {
    var n := TotalPages(|xs|, size);
    assert AllPages(xs, size) == seq(n, i requires 0 <= i => PageFromZero(xs, i, size));
    FirstPagesArePrefix(xs, size, n);
    assert xs[..Min(n * size, |xs|)] == xs;
  }
}
