/**
  The records the list pages share: a blink, a notification, and the
  dashboard payload. The same case-insensitive search and "mark all as
  read" transformation are written out in several pages and in the mock
  API; they are defined once here.
 */
module Blinks {
  import opened Text
  import opened Seqs
  import opened Series
  import opened Wrappers

  /**
    A blink card. Pages that call the display name `title` map it to `name`;
    counters a page's record does not carry are 0.
   */
  datatype Blink = Blink(
    id: string,
    name: string,
    description: string,
    image: string,
    likes: int,
    shares: int,
    comments: int,
    views: int)

  datatype Notification = Notification(id: string, message: string, read: bool)

  /**
    The dashboard payload. `panels` stands for the summary panels (market
    overview, performance, engagement, governance, leaderboard) that no handler
    modelled here reads or writes.
   */
  datatype Dashboard = Dashboard(
    totalBlinks: int,
    balance: int,
    blinkCreationData: seq<Point>,
    blinks: seq<Blink>,
    notifications: seq<Notification>,
    panels: map<string, int>)

  /**
    The search test every page uses: the lower-cased name (or title) or the
    lower-cased description contains the lower-cased term.
   */
  predicate TextMatches(name: string, description: string, term: string) {
    ContainsIgnoreCase(name, term) || ContainsIgnoreCase(description, term)
  }

  /** The empty term matches every record. */
  lemma EmptyTermMatches(name: string, description: string)
    ensures TextMatches(name, description, "")
  {
    ContainsEmpty(Lower(name));
  }

  predicate Matches(b: Blink, term: string) {
    TextMatches(b.name, b.description, term)
  }

  /** Every blink is found by a search for its own name. */
  lemma NameMatchesItself(b: Blink)
    ensures Matches(b, b.name)
  {
    assert StartsWith(Lower(b.name), Lower(b.name));
  }

  /** JavaScript's `value || fallback` for an optional string field: `""` is falsy too. */
  function OrDefault(value: Option<string>, fallback: string): (r: string)
    ensures value == None || value == Some("") ==> r == fallback
    ensures value != None && value != Some("") ==> r == value.value
  {
    match value
    case Some(v) => if v == "" then fallback else v
    case None => fallback
  }

  /** The fields a create form may pass; either may be missing. */
  datatype BlinkInput = BlinkInput(name: Option<string>, description: Option<string>)

  const CardImage := "https://ucarecdn.com/0e15b9d9-1166-495a-8343-227ad749f004/ace.jpeg?height=100&width=100"

  /**
    The blink the page-level "Create Blink" buttons build when the list holds
    `count` blinks: numbered `count + 1`, with zero counters.
   */
  function Fresh(count: nat, description: string): (b: Blink)
    ensures b.id == NatToString(count + 1)
    ensures b.name == "New Blink " + NatToString(count + 1)
    ensures b.likes == 0 && b.shares == 0 && b.comments == 0 && b.views == 0
  {
    Blink(NatToString(count + 1), "New Blink " + NatToString(count + 1), description, CardImage, 0, 0, 0, 0)
  }

  /** No two blinks share an id. */
  predicate UniqueIds(blinks: seq<Blink>) {
    forall i, j :: 0 <= i < j < |blinks| ==> blinks[i].id != blinks[j].id
  }

  /** Blink `i` (from 0) has the id `i + 1`. */
  predicate Sequential(blinks: seq<Blink>) {
    forall i :: 0 <= i < |blinks| ==> blinks[i].id == NatToString(i + 1)
  }

  /** Ids numbered by position are unique. */
  lemma SequentialIsUnique(blinks: seq<Blink>)
    requires Sequential(blinks)
    ensures UniqueIds(blinks)
  {
    forall i, j | 0 <= i < j < |blinks|
      ensures blinks[i].id != blinks[j].id
    {
      NatToStringInjective(i + 1, j + 1);
    }
  }

  /** `blinks.filter(blink => matches(blink, term))`. */
  function Search(blinks: seq<Blink>, term: string): seq<Blink> {
    Filter(blinks, b => Matches(b, term))
  }

  /**
    Search keeps exactly the matching blinks, in their original order, and
    what it drops together with what it keeps is the whole list.
   */
  lemma SearchKeepsExactlyMatches(blinks: seq<Blink>, term: string)
    ensures IsSubsequence(Search(blinks, term), blinks)
    ensures forall b :: b in Search(blinks, term) <==> b in blinks && Matches(b, term)
    ensures multiset(Search(blinks, term)) + multiset(Filter(blinks, b => !Matches(b, term)))
            == multiset(blinks)
  {
    FilterPartitions(blinks, b => Matches(b, term), b => !Matches(b, term));
  }

  /** Search keeps every copy of a matching blink and no copy of any other. */
  lemma SearchCounts(blinks: seq<Blink>, term: string)
    ensures forall x :: multiset(Search(blinks, term))[x] == if Matches(x, term) then multiset(blinks)[x] else 0
  {
    FilterCounts(blinks, b => Matches(b, term));
  }

  /** The empty term matches everything, so searching for it keeps the whole list. */
  lemma SearchEmptyKeepsAll(blinks: seq<Blink>)
    ensures Search(blinks, "") == blinks
  {
    forall b | b in blinks
      ensures Matches(b, "")
    {
      EmptyTermMatches(b.name, b.description);
    }
    FilterAll(blinks, b => Matches(b, ""));
  }

  /** Searching the result of a search again for the same term changes nothing. */
  lemma SearchIdempotent(blinks: seq<Blink>, term: string)
    ensures Search(Search(blinks, term), term) == Search(blinks, term)
  {
    FilterAll(Search(blinks, term), b => Matches(b, term));
  }

  /** Two searches in a row keep what matches both terms, in either order. */
  lemma SearchTwice(blinks: seq<Blink>, first: string, second: string)
    ensures Search(Search(blinks, first), second)
            == Filter(blinks, b => Matches(b, first) && Matches(b, second))
    ensures Search(Search(blinks, first), second) == Search(Search(blinks, second), first)
  {
    var both := b => Matches(b, first) && Matches(b, second);
    FilterFilter(blinks, b => Matches(b, first), b => Matches(b, second), both);
    FilterFilter(blinks, b => Matches(b, second), b => Matches(b, first), both);
  }

  /** `notifications.map(n => ({ ...n, read: true }))`. */
  function MarkAllRead(ns: seq<Notification>): (r: seq<Notification>)
    ensures |r| == |ns|
    ensures forall i :: 0 <= i < |r| ==> r[i].read
    ensures forall i :: 0 <= i < |r| ==> r[i].id == ns[i].id && r[i].message == ns[i].message
  {
    seq(|ns|, i requires 0 <= i < |ns| => ns[i].(read := true))
  }

  /** Marking twice is the same as marking once. */
  lemma MarkAllReadIdempotent(ns: seq<Notification>)
    ensures MarkAllRead(MarkAllRead(ns)) == MarkAllRead(ns)
  {
  }

  /** The red dot on the bell: `notifications.some(n => !n.read)`. */
  predicate HasUnread(ns: seq<Notification>) {
    exists i :: 0 <= i < |ns| && !ns[i].read
  }

  /** After marking everything read the dot disappears; marking changes nothing else. */
  lemma MarkAllReadClearsDot(ns: seq<Notification>)
    ensures !HasUnread(MarkAllRead(ns))
    ensures !HasUnread(ns) ==> MarkAllRead(ns) == ns
  {
  }
}
