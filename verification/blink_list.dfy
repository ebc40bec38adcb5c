/**
  The list view of the blink pages (the blinkboard overview and the blink
  section component share this code): sort by likes, show one page of three,
  and the "Load More" button.
 */
module BlinkList {
  import opened Seqs
  import opened Paging
  import opened Sorting
  import opened Blinks

  const PageSize: nat := 3

  function Likes(b: Blink): int {
    b.likes
  }

  /** `[...blinks].sort(...)` by likes in `order`: a permutation ordered by likes. */
  function Sorted(blinks: seq<Blink>, order: SortOrder): (r: seq<Blink>)
    ensures |r| == |blinks| && multiset(r) == multiset(blinks)
    ensures SortedBy(r, Likes, order)
  {
    SortBy(blinks, Likes, order)
  }

  /** The sort is stable: blinks with the same number of likes keep their relative order. */
  lemma SortedIsStable(blinks: seq<Blink>, order: SortOrder, likes: int)
    ensures WithKey(Sorted(blinks, order), Likes, likes) == WithKey(blinks, Likes, likes)
  {
    SortIsStable(blinks, Likes, order, likes);
  }

  /**
    A blink with 0 likes put in front of blinks with no negative likes is
    sorted first in ascending order: at worst it ties, and the stable sort
    keeps it ahead of the blinks it ties with.
   */
  lemma ZeroLikesInFrontSortsFirst(nb: Blink, rest: seq<Blink>)
    requires nb.likes == 0
    requires forall i :: 0 <= i < |rest| ==> rest[i].likes >= 0
    ensures Sorted([nb] + rest, Asc)[0] == nb
  {
    var c := [nb] + rest;
    var s := Sorted(c, Asc);
    assert Likes(s[0]) <= 0 by {
      assert nb in multiset(s) by {
        assert c[0] == nb;
      }
      var i :| 0 <= i < |s| && s[i] == nb;
      assert i == 0 || Precedes(Asc, Likes(s[0]), Likes(s[i]));
    }
    assert Likes(s[0]) >= 0 by {
      assert s[0] in multiset(c);
      var i :| 0 <= i < |c| && c[i] == s[0];
      assert i == 0 || c[i] == rest[i - 1];
    }
    SortedIsStable(c, Asc, 0);
    WithKeyCons(nb, rest, Likes, 0);
    assert [s[0]] + s[1..] == s;
    WithKeyCons(s[0], s[1..], Likes, 0);
  }

  /**
    A blink put in front of blinks that all have more likes is sorted last in
    descending order.
   */
  lemma LeastLikedInFrontSortsLast(nb: Blink, rest: seq<Blink>)
    requires forall i :: 0 <= i < |rest| ==> rest[i].likes > nb.likes
    ensures Sorted([nb] + rest, Desc)[|rest|] == nb
  {
    var c := [nb] + rest;
    var s := Sorted(c, Desc);
    var n := |rest|;
    assert Likes(s[n]) <= Likes(nb) by {
      assert nb in multiset(s) by {
        assert c[0] == nb;
      }
      var i :| 0 <= i < |s| && s[i] == nb;
      assert i == n || Precedes(Desc, Likes(s[i]), Likes(s[n]));
    }
    assert forall j :: 0 < j < |c| ==> Likes(c[j]) > Likes(nb) by {
      forall j | 0 < j < |c|
        ensures Likes(c[j]) > Likes(nb)
      {
        assert c[j] == rest[j - 1];
      }
    }
    assert s[n] in multiset(c);
  }

  /** `sorted.slice(page * 3, page * 3 + 3)`: at most three cards, never clamped. */
  function Visible(blinks: seq<Blink>, order: SortOrder, page: nat): (r: seq<Blink>)
    ensures |r| <= PageSize
    ensures r == [] <==> page * PageSize >= |blinks|
    ensures r == Sorted(blinks, order)[Min(page * PageSize, |blinks|)..Min(page * PageSize + PageSize, |blinks|)]
  {
    LastPageIsSlice(Sorted(blinks, order), PageSize, page);
    PageFromZero(Sorted(blinks, order), page, PageSize)
  }

  /** As written: `visibleBlinks.length < sortedBlinks.length`. */
  predicate LoadMoreShownAsWritten(blinks: seq<Blink>, order: SortOrder, page: nat)
    ensures LoadMoreShownAsWritten(blinks, order, page) <==> |blinks| > PageSize || (page > 0 && |blinks| > 0)
  {
    |Visible(blinks, order, page)| < |Sorted(blinks, order)|
  }

  /**
    The button as written is shown on every page, empty ones included, as soon
    as there are more blinks than fit on one page.
   */
  lemma LoadMoreNeverDisappears(blinks: seq<Blink>, order: SortOrder, page: nat)
    requires |blinks| > PageSize
    ensures LoadMoreShownAsWritten(blinks, order, page)
  {
  }

  /** The witness: four blinks, third page — nothing to show, button still there. */
  lemma LoadMoreOnEmptyPage(blinks: seq<Blink>, order: SortOrder)
    requires |blinks| == 4
    ensures Visible(blinks, order, 2) == []
    ensures LoadMoreShownAsWritten(blinks, order, 2)
  {
  }

  /** The intended button: shown exactly when the next page has something on it. */
  predicate LoadMoreShown(blinks: seq<Blink>, page: nat) {
    (page + 1) * PageSize < |blinks|
  }

  lemma LoadMoreShownIffNextPageNonEmpty(blinks: seq<Blink>, order: SortOrder, page: nat)
    ensures LoadMoreShown(blinks, page) <==> Visible(blinks, order, page + 1) != []
  {
  }
}
