/**
  The blinkboard overview page: the blink list with its search box, sort
  button, "Load More" paging and "Create Blink" button, the notification bell
  and the top-five leaderboard. Chart fetching, timers and toasts are not
  part of the state modelled here.
 */
module Blinkboard {
  import opened Text
  import opened Seqs
  import opened Sorting
  import opened Blinks
  import opened BlinkList

  /** The page's React state. Notification ids, numbers on this page, are kept as their decimal strings. */
  datatype Board = Board(
    blinks: seq<Blink>,
    notifications: seq<Notification>,
    currentPage: nat,
    sortOrder: SortOrder,
    searchTerm: string)

  const SeedImage := CardImage

  const InitialBlinks: seq<Blink> := [
    Blink("1", "Underdog Rebel", "A fierce and determined Underdog Blink", SeedImage, 42, 15, 8, 230),
    Blink("2", "Underdog Hero", "An inspiring Underdog Blink that overcomes all odds", SeedImage, 37, 12, 5, 180),
    Blink("3", "Underdog Champion", "A victorious Underdog Blink that defies expectations", SeedImage, 51, 20, 10, 300),
    Blink("4", "BARK Membership", "Exclusive BARK Membership Blink", SeedImage, 100, 45, 30, 500),
    Blink("5", "Peaky Barkers Mascot", "The official CNFT mascot of The Peaky Barkers", SeedImage, 150, 80, 50, 1000),
    Blink("6", "BARK Blink", "A futuristic tech-themed Blink", SeedImage, 45, 18, 7, 250)
  ]

  const InitialNotifications: seq<Notification> := [
    Notification("1", "New follower: Barker", false),
    Notification("2", "Your Blink 'Sparky' is trending!", false),
    Notification("3", "You've earned 15.000 BARK", true)
  ]

  /** First render: page 0, most-liked first, empty search box. */
  const InitialBoard := Board(InitialBlinks, InitialNotifications, 0, Desc, "")

  const CreatedDescription := "A newly created Blink"

  /**
    "Create Blink": a fresh blink numbered after the current list length is
    put in front. The page number, order and search box are left as they are.
   */
  function CreateBlink(b: Board): (r: Board)
    ensures |r.blinks| == |b.blinks| + 1 && r.blinks[1..] == b.blinks
    ensures r.blinks[0].id == NatToString(|b.blinks| + 1)
    ensures r.blinks[0].likes == 0
    ensures r.blinks[0] == Fresh(|b.blinks|, CreatedDescription)
    ensures r == b.(blinks := r.blinks)
  {
    b.(blinks := [Fresh(|b.blinks|, CreatedDescription)] + b.blinks)
  }

  /** The id is the decimal form of a number in `1..bound`. */
  predicate IsNumbered(id: string, bound: nat) {
    exists k: nat :: 1 <= k <= bound && id == NatToString(k)
  }

  /** Every id is the decimal form of a number in `1..bound`. */
  predicate NumberedWithin(blinks: seq<Blink>, bound: nat) {
    forall i :: 0 <= i < |blinks| ==> IsNumbered(blinks[i].id, bound)
  }

  /**
    While every id is at most the list length, creating keeps ids unique: the
    new number `n + 1` is larger than all of them.
   */
  lemma CreateKeepsIdsUnique(b: Board)
    requires UniqueIds(b.blinks) && NumberedWithin(b.blinks, |b.blinks|)
    ensures UniqueIds(CreateBlink(b).blinks)
    ensures NumberedWithin(CreateBlink(b).blinks, |CreateBlink(b).blinks|)
  {
    var n := |b.blinks|;
    var r := CreateBlink(b).blinks;
    assert r == [r[0]] + b.blinks;
    forall j | 0 <= j < n
      ensures b.blinks[j].id != r[0].id
    {
      assert IsNumbered(b.blinks[j].id, n);
      var k: nat :| 1 <= k <= n && b.blinks[j].id == NatToString(k);
      NatToStringInjective(k, n + 1);
    }
    UniqueCons(r[0], b.blinks);
    assert IsNumbered(r[0].id, n + 1);
    NumberedCons(r[0], b.blinks, n + 1);
  }

  /** A blink whose id no other blink has can be put in front without a repeat. */
  lemma UniqueCons(x: Blink, xs: seq<Blink>)
    requires UniqueIds(xs) && forall j :: 0 <= j < |xs| ==> xs[j].id != x.id
    ensures UniqueIds([x] + xs)
  {
    var r := [x] + xs;
    forall i, j | 0 <= i < j < |r|
      ensures r[i].id != r[j].id
    {
      assert r[j] == xs[j - 1];
      if i > 0 {
        assert r[i] == xs[i - 1];
      }
    }
  }

  /** Numbering within a bound survives putting a blink numbered within it in front. */
  lemma NumberedCons(x: Blink, xs: seq<Blink>, bound: nat)
    requires NumberedWithin(xs, bound)
    requires IsNumbered(x.id, bound)
    ensures NumberedWithin([x] + xs, bound)
  {
    var r := [x] + xs;
    forall i | 0 < i < |r|
      ensures IsNumbered(r[i].id, bound)
    {
      assert r[i] == xs[i - 1];
    }
  }

  /**
    Under ascending order a created blink (0 likes) is shown first when no
    blink has negative likes: it ties at worst, and the stable sort keeps it
    ahead of the blinks it ties with because it was put in front.
   */
  lemma CreatedBlinkFirstWhenAscending(b: Board)
    requires forall i :: 0 <= i < |b.blinks| ==> b.blinks[i].likes >= 0
    ensures Sorted(CreateBlink(b).blinks, Asc)[0] == CreateBlink(b).blinks[0]
  {
    assert CreateBlink(b).blinks == [CreateBlink(b).blinks[0]] + b.blinks;
    ZeroLikesInFrontSortsFirst(CreateBlink(b).blinks[0], b.blinks);
  }

  /**
    Under the default descending order a created blink is shown last when
    every other blink has at least one like: the new card lands on the last
    page, not the first.
   */
  lemma CreatedBlinkLastWhenDescending(b: Board)
    requires forall i :: 0 <= i < |b.blinks| ==> b.blinks[i].likes > 0
    ensures Sorted(CreateBlink(b).blinks, Desc)[|b.blinks|] == CreateBlink(b).blinks[0]
  {
    assert CreateBlink(b).blinks == [CreateBlink(b).blinks[0]] + b.blinks;
    LeastLikedInFrontSortsLast(CreateBlink(b).blinks[0], b.blinks);
  }

  /**
    The debounced search: the current list (not the seed) is narrowed to the
    blinks whose name or description contains the term, and the page resets
    to 0.
   */
  function SearchFor(b: Board, term: string): (r: Board)
    ensures IsSubsequence(r.blinks, b.blinks)
    ensures forall x :: x in r.blinks <==> x in b.blinks && Matches(x, term)
    ensures forall x :: multiset(r.blinks)[x] == if Matches(x, term) then multiset(b.blinks)[x] else 0
    ensures r.currentPage == 0 && r.searchTerm == term
    ensures r.notifications == b.notifications && r.sortOrder == b.sortOrder
  {
    SearchKeepsExactlyMatches(b.blinks, term);
    SearchCounts(b.blinks, term);
    b.(blinks := Search(b.blinks, term), currentPage := 0, searchTerm := term)
  }

  /**
    Search only ever narrows: clearing the box afterwards does not bring the
    dropped blinks back, and a second term narrows further.
   */
  lemma ClearingSearchRestoresNothing(b: Board, term: string, next: string)
    ensures SearchFor(SearchFor(b, term), "").blinks == SearchFor(b, term).blinks
    ensures SearchFor(SearchFor(b, term), next).blinks
            == Filter(b.blinks, x => Matches(x, term) && Matches(x, next))
  {
    SearchEmptyKeepsAll(SearchFor(b, term).blinks);
    SearchTwice(b.blinks, term, next);
  }

  /** The cards on screen. */
  function VisibleBlinks(b: Board): seq<Blink> {
    Visible(b.blinks, b.sortOrder, b.currentPage)
  }

  /** "Load More" moves to the next page of three; nothing else changes. */
  function LoadMore(b: Board): (r: Board)
    ensures r.currentPage == b.currentPage + 1
    ensures r == b.(currentPage := r.currentPage)
  {
    b.(currentPage := b.currentPage + 1)
  }

  /**
    Pressing "Load More" replaces the cards on screen with the next three of
    the sorted list; it does not append them.
   */
  lemma LoadMoreShowsNextPage(b: Board)
    ensures forall i :: 0 <= i < |VisibleBlinks(LoadMore(b))| ==>
              VisibleBlinks(LoadMore(b))[i] == Sorted(b.blinks, b.sortOrder)[3 * b.currentPage + 3 + i]
  {
  }

  /** The "Load More" button, offered only when pressing it brings more cards. */
  predicate ShowsLoadMore(b: Board) {
    LoadMoreShown(b.blinks, b.currentPage)
  }

  lemma LoadMoreBringsCards(b: Board)
    ensures ShowsLoadMore(b) <==> VisibleBlinks(LoadMore(b)) != []
  {
    LoadMoreShownIffNextPageNonEmpty(b.blinks, b.sortOrder, b.currentPage);
  }

  /** The sort button flips the order and leaves the list itself alone. */
  function ToggleSort(b: Board): (r: Board)
    ensures r.sortOrder != b.sortOrder
    ensures r == b.(sortOrder := r.sortOrder)
  {
    b.(sortOrder := Toggle(b.sortOrder))
  }

  lemma ToggleSortTwice(b: Board)
    ensures ToggleSort(ToggleSort(b)) == b
  {
    ToggleTwice(b.sortOrder);
  }

  function MarkAllNotificationsAsRead(b: Board): (r: Board)
    ensures !HasUnread(r.notifications)
    ensures |r.notifications| == |b.notifications|
    ensures forall i :: 0 <= i < |r.notifications| ==>
              r.notifications[i].id == b.notifications[i].id && r.notifications[i].message == b.notifications[i].message
    ensures r.notifications == MarkAllRead(b.notifications)
    ensures r == b.(notifications := r.notifications)
  {
    MarkAllReadClearsDot(b.notifications);
    b.(notifications := MarkAllRead(b.notifications))
  }

  /** The leaderboard panel: the first five blinks in list order, not sorted by likes. */
  function Leaderboard(b: Board): (r: seq<Blink>)
    ensures |r| == Min(5, |b.blinks|)
    ensures r == b.blinks[..|r|]
  {
    JsSlice(b.blinks, 0, 5)
  }

  /** The seed numbers its blinks `1..6` without repeats. */
  lemma InitialBlinksNumbered()
    ensures UniqueIds(InitialBlinks) && NumberedWithin(InitialBlinks, 6)
  {
    assert Sequential(InitialBlinks) by {
      assert NatToString(1) == "1" && NatToString(2) == "2" && NatToString(3) == "3";
      assert NatToString(4) == "4" && NatToString(5) == "5" && NatToString(6) == "6";
    }
    SequentialIsUnique(InitialBlinks);
    SequentialIsNumbered(InitialBlinks);
  }

  /** Ids numbered by position are numbered within the list length. */
  lemma SequentialIsNumbered(blinks: seq<Blink>)
    requires Sequential(blinks)
    ensures NumberedWithin(blinks, |blinks|)
  {
    forall i | 0 <= i < |blinks|
      ensures IsNumbered(blinks[i].id, |blinks|)
    {
      var k: nat := i + 1;
      assert 1 <= k <= |blinks| && blinks[i].id == NatToString(k);
    }
  }

  /** The bell shows its dot on first render; after "mark all as read" it does not. */
  lemma InitialBellHasDot()
    ensures HasUnread(InitialBoard.notifications)
    ensures !HasUnread(MarkAllNotificationsAsRead(InitialBoard).notifications)
  {
    assert !InitialBoard.notifications[0].read;
  }
}
