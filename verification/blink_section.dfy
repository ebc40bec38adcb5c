/**
  The "Your Blinks" card component. It has the same list view as the
  blinkboard page, with one difference that matters: its search filters the
  component's constant seed list, not the current list.
 */
module BlinkSection {
  import opened Wrappers
  import opened Text
  import opened Seqs
  import opened Sorting
  import opened Blinks
  import opened BlinkList

  datatype Section = Section(blinks: seq<Blink>, currentPage: nat, sortOrder: SortOrder, searchTerm: string)

  /** The component's seed: a single blink. */
  const InitialBlinks: seq<Blink> := [
    Blink("1", "The Peaky Barkers", "A fierce and determined Underdog Blink collection", CardImage, 42, 15, 8, 230)
  ]

  const InitialSection := Section(InitialBlinks, 0, Desc, "")

  const CreatedDescription := "A newly created Blink ready for customization"

  /** A fresh blink numbered after the current list length goes in front. */
  function CreateBlink(s: Section): (r: Section)
    ensures |r.blinks| == |s.blinks| + 1 && r.blinks[1..] == s.blinks
    ensures r.blinks[0].id == NatToString(|s.blinks| + 1)
    ensures r.blinks[0].description == CreatedDescription
    ensures r.blinks[0] == Fresh(|s.blinks|, CreatedDescription)
    ensures r == s.(blinks := r.blinks)
  {
    s.(blinks := [Fresh(|s.blinks|, CreatedDescription)] + s.blinks)
  }

  /** The debounced search filters the seed list, whatever the current list holds, and resets the page. */
  function SearchFor(s: Section, term: string): (r: Section)
    ensures IsSubsequence(r.blinks, InitialBlinks)
    ensures forall x :: x in r.blinks <==> x in InitialBlinks && Matches(x, term)
    ensures r.currentPage == 0 && r.searchTerm == term && r.sortOrder == s.sortOrder
  {
    SearchKeepsExactlyMatches(InitialBlinks, term);
    s.(blinks := Search(InitialBlinks, term), currentPage := 0, searchTerm := term)
  }

  /**
    Any search discards every created blink: the result depends on the term
    alone, and clearing the box gives back exactly the seed.
   */
  lemma SearchForgetsCreatedBlinks(s: Section, term: string)
    ensures SearchFor(CreateBlink(s), term).blinks == SearchFor(s, term).blinks
    ensures SearchFor(s, "").blinks == InitialBlinks
    ensures Fresh(|s.blinks|, CreatedDescription) !in SearchFor(CreateBlink(s), term).blinks
  {
    SearchEmptyKeepsAll(InitialBlinks);
    assert Fresh(|s.blinks|, CreatedDescription) != InitialBlinks[0];
  }

  function VisibleBlinks(s: Section): seq<Blink> {
    Visible(s.blinks, s.sortOrder, s.currentPage)
  }

  function LoadMore(s: Section): (r: Section)
    ensures r.currentPage == s.currentPage + 1
    ensures r == s.(currentPage := r.currentPage)
  {
    s.(currentPage := s.currentPage + 1)
  }

  /** The "Load More" button, offered only when pressing it brings more cards. */
  predicate ShowsLoadMore(s: Section) {
    LoadMoreShown(s.blinks, s.currentPage)
  }

  lemma LoadMoreBringsCards(s: Section)
    ensures ShowsLoadMore(s) <==> VisibleBlinks(LoadMore(s)) != []
  {
    LoadMoreShownIffNextPageNonEmpty(s.blinks, s.sortOrder, s.currentPage);
  }

  function ToggleSort(s: Section): (r: Section)
    ensures r.sortOrder != s.sortOrder
    ensures r == s.(sortOrder := r.sortOrder)
  {
    s.(sortOrder := Toggle(s.sortOrder))
  }

  /**
    The engagement bar: `(likes + shares + comments) / views * 100`. With no
    views the division is `0 / 0` or `x / 0`, which JavaScript turns into
    `NaN` or `Infinity`; that case is `None` here.
   */
  function EngagementRate(b: Blink): (r: Option<real>)
    ensures r.None? <==> b.views == 0
    ensures r.Some? ==> r.value * (b.views as real) == ((b.likes + b.shares + b.comments) * 100) as real
  {
    if b.views == 0 then None
    else Some(((b.likes + b.shares + b.comments) * 100) as real / b.views as real)
  }

  /** A created blink has no views, so its bar gets no number. */
  lemma CreatedBlinkHasNoEngagementRate(s: Section)
    ensures EngagementRate(CreateBlink(s).blinks[0]).None?
  {
  }

  /** The seed blink's bar: 65 interactions over 230 views. */
  lemma SeedEngagement()
    ensures EngagementRate(InitialBlinks[0]) == Some(6500.0 / 230.0)
  {
  }
}
