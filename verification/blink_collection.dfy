/**
  The blink collection carousel: a local filter over the blinks it is given,
  and the text a card derives from a blink (image fallback, truncated
  description, creator initial and label).
 */
module BlinkCollection {
  import opened Wrappers
  import opened Text
  import opened Seqs
  import opened Blinks

  /** A card's record; prices and dates are left out. */
  datatype CollectionBlink = CollectionBlink(
    id: string,
    title: string,
    description: string,
    image: Option<string>,
    likes: int,
    creator: string,
    creatorAvatar: string)

  predicate CardMatches(b: CollectionBlink, term: string) {
    TextMatches(b.title, b.description, term)
  }

  /**
    The filter effect: a non-empty term keeps the matching cards in order; an
    empty term shows every card.
   */
  function Filtered(blinks: seq<CollectionBlink>, term: string): (r: seq<CollectionBlink>)
    ensures IsSubsequence(r, blinks)
    ensures forall x :: x in r <==> x in blinks && CardMatches(x, term)
    ensures forall x :: multiset(r)[x] == if CardMatches(x, term) then multiset(blinks)[x] else 0
  {
    FilterCounts(blinks, b => CardMatches(b, term));
    if term != "" then Filter(blinks, b => CardMatches(b, term))
    else
      forall b | b in blinks
        ensures CardMatches(b, "")
      {
        EmptyTermMatches(b.title, b.description);
      }
      FilterAll(blinks, b => CardMatches(b, term));
      assert IsSubsequence(blinks, blinks) by { SubsequenceOfSelf(blinks); }
      blinks
  }

  lemma {:induction false} SubsequenceOfSelf(xs: seq<CollectionBlink>)
    ensures IsSubsequence(xs, xs)
  {
    if |xs| > 0 {
      SubsequenceOfSelf(xs[1..]);
    }
  }

  /** The two branches agree: showing everything is what filtering by the empty term does. */
  lemma EmptyBranchIsFiltering(blinks: seq<CollectionBlink>, term: string)
    ensures Filtered(blinks, term) == Filter(blinks, b => CardMatches(b, term))
  {
    if term == "" {
      forall b | b in blinks
        ensures CardMatches(b, term)
      {
        EmptyTermMatches(b.title, b.description);
      }
      FilterAll(blinks, b => CardMatches(b, term));
    }
  }

  const FallbackImage := "https://ucarecdn.com/4bc61874-018e-481b-bc07-c3f93956f7bd/tchest.png/300x200"

  /** `blink.image || fallback`: a missing or empty image shows the treasure-chest picture. */
  function ImageSource(b: CollectionBlink): (r: string)
    ensures r != ""
    ensures b.image.Some? && b.image.value != "" ==> r == b.image.value
    ensures b.image.None? || b.image.value == "" ==> r == FallbackImage
  {
    OrDefault(b.image, FallbackImage)
  }

  const MaxDescription := 100

  /** Descriptions longer than 100 characters show their first 100 and an ellipsis. */
  function Truncate(d: string): (r: string)
    ensures |d| <= MaxDescription ==> r == d
    ensures |d| > MaxDescription ==> |r| == MaxDescription + 3 && r[MaxDescription..] == "..."
    ensures |r| <= MaxDescription + 3 && Min(|d|, MaxDescription) <= |r|
    ensures r[..Min(|d|, MaxDescription)] == d[..Min(|d|, MaxDescription)]
  {
    if |d| > MaxDescription then d[..MaxDescription] + "..." else d
  }

  /**
    Truncating twice is truncating once: a cut text is 103 characters long
    and is cut back to the same 100 characters and ellipsis.
   */
  lemma TruncateIdempotent(d: string)
    ensures Truncate(Truncate(d)) == Truncate(d)
  {
  }

  /**
    A cut can leave a description as it was: 100 characters followed by an
    ellipsis of its own are cut back to themselves.
   */
  lemma TruncateCanLookUncut()
    ensures var d := seq(100, i => 'a') + "..."; Truncate(d) == d
  {
    var d := seq(100, i => 'a') + "...";
    assert d[..MaxDescription] + "..." == d;
  }

  /** The avatar fallback: the creator's first character, or `?` when there is no creator. */
  function AvatarFallback(creator: string): (r: string)
    ensures |r| == 1
    ensures creator == "" ==> r == "?"
    ensures creator != "" ==> r[0] == creator[0]
  {
    if creator != "" then [creator[0]] else "?"
  }

  /** The creator line: the name, or "Unknown Creator". */
  function CreatorLabel(creator: string): (r: string)
    ensures r != ""
    ensures creator != "" ==> r == creator
    ensures creator == "" ==> r == "Unknown Creator"
  {
    if creator != "" then creator else "Unknown Creator"
  }
}
