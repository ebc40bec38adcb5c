/**
  The in-memory mock backend. Its module-level dashboard object is the
  store: the mock blink array is shared by reference between the store and
  its `blinks` field, so a created blink shows up in later fetches and
  searches. Delays and timestamps are not modelled.
 */
module DummyApi {
  import opened Wrappers
  import opened Text
  import opened Seqs
  import opened Series
  import opened Blinks

  /** The mock blinks: these records carry no image or comment count. */
  const MockBlinks: seq<Blink> := [
    Blink("1", "First Blink", "This is the first blink", "", 10, 5, 0, 100),
    Blink("2", "Second Blink", "This is the second blink", "", 20, 8, 0, 150),
    Blink("3", "Third Blink", "This is the third blink", "", 15, 3, 0, 80)
  ]

  const MockStore := Dashboard(
    100,
    1000,
    [Point("Jan", 10), Point("Feb", 15), Point("Mar", 20)],
    MockBlinks,
    [Notification("1", "New follower", false), Notification("2", "Your blink was liked", true)],
    map["dailyActiveUsers" := 1000, "blinkCreationRate" := 50, "communityInteraction" := 75])

  /** The blink with the given fields that a create call builds when the store holds `count` blinks. */
  function Built(count: nat, input: BlinkInput, name: string, description: string): Blink {
    Blink(NatToString(count + 1), OrDefault(input.name, name), OrDefault(input.description, description), "", 0, 0, 0, 0)
  }

  /**
    `createBlink`: builds a blink numbered after the store's blink count, with
    falsy fields defaulted, appends it to the store and returns it. The total
    count in the dashboard payload is not touched.
   */
  function CreateBlink(store: Dashboard, input: BlinkInput): (r: (Dashboard, Blink))
    ensures r.0.blinks == store.blinks + [r.1]
    ensures r.0 == store.(blinks := r.0.blinks)
    ensures r.1.id == NatToString(|store.blinks| + 1)
    ensures r.1.name == OrDefault(input.name, "New Blink")
    ensures r.1.description == OrDefault(input.description, "New Blink Description")
    ensures r.1.likes == 0 && r.1.shares == 0 && r.1.views == 0
  {
    var b := Built(|store.blinks|, input, "New Blink", "New Blink Description");
    (store.(blinks := store.blinks + [b]), b)
  }

  lemma MockIsSequential()
    ensures Sequential(MockStore.blinks)
  {
    assert NatToString(1) == "1" && NatToString(2) == "2" && NatToString(3) == "3";
  }

  /** Creating keeps the store numbered `1..n`, so ids stay unique. */
  lemma CreateKeepsSequential(store: Dashboard, input: BlinkInput)
    requires Sequential(store.blinks)
    ensures Sequential(CreateBlink(store, input).0.blinks)
    ensures UniqueIds(CreateBlink(store, input).0.blinks)
  {
    var bs := CreateBlink(store, input).0.blinks;
    assert Sequential(bs) by {
      forall i | 0 <= i < |bs|
        ensures bs[i].id == NatToString(i + 1)
      {
        if i < |store.blinks| {
          assert bs[i] == store.blinks[i];
        }
      }
    }
    SequentialIsUnique(bs);
  }

  /** `searchBlinks`: the store's blinks that match, in store order; the store is untouched. */
  function SearchBlinks(store: Dashboard, term: string): (r: seq<Blink>)
    ensures IsSubsequence(r, store.blinks)
    ensures forall x :: x in r <==> x in store.blinks && Matches(x, term)
    ensures forall x :: multiset(r)[x] == if Matches(x, term) then multiset(store.blinks)[x] else 0
  {
    SearchKeepsExactlyMatches(store.blinks, term);
    SearchCounts(store.blinks, term);
    Search(store.blinks, term)
  }

  /** A created blink is found by a later search for its own name, and by the empty search. */
  lemma CreatedBlinkIsSearchable(store: Dashboard, input: BlinkInput)
    ensures CreateBlink(store, input).1 in SearchBlinks(CreateBlink(store, input).0, CreateBlink(store, input).1.name)
    ensures SearchBlinks(CreateBlink(store, input).0, "") == CreateBlink(store, input).0.blinks
  {
    var (s, b) := CreateBlink(store, input);
    assert b in SearchBlinks(s, b.name) by {
      assert b in s.blinks;
      NameMatchesItself(b);
    }
    SearchEmptyKeepsAll(s.blinks);
  }

  /** `markNotificationsAsRead`: every stored notification becomes read; nothing else changes. */
  function MarkNotificationsAsRead(store: Dashboard): (r: Dashboard)
    ensures !HasUnread(r.notifications)
    ensures |r.notifications| == |store.notifications|
    ensures forall i :: 0 <= i < |r.notifications| ==>
              r.notifications[i].id == store.notifications[i].id && r.notifications[i].message == store.notifications[i].message
    ensures r.notifications == MarkAllRead(store.notifications)
    ensures r == store.(notifications := r.notifications)
  {
    MarkAllReadClearsDot(store.notifications);
    store.(notifications := MarkAllRead(store.notifications))
  }

  /**
    `createBlinkFromTemplate`: builds a blink numbered like a create would,
    but stores nothing; the template id is ignored.
   */
  function CreateBlinkFromTemplate(store: Dashboard, templateId: string, input: BlinkInput): (r: Blink)
    ensures r.id == NatToString(|store.blinks| + 1)
    ensures r.name == OrDefault(input.name, "New Blink from Template")
    ensures r.description == OrDefault(input.description, "Description of new blink from template")
    ensures r.likes == 0 && r.shares == 0 && r.views == 0
  {
    Built(|store.blinks|, input, "New Blink from Template", "Description of new blink from template")
  }

  /**
    Since nothing is stored, the next real create stores a blink under the id
    a template blink was already given.
   */
  lemma TemplateIdIsReused(store: Dashboard, templateId: string, custom: BlinkInput, input: BlinkInput)
    ensures CreateBlinkFromTemplate(store, templateId, custom).id
            == CreateBlink(store, input).0.blinks[|store.blinks|].id
  {
  }

  /** The last position of `a` in `xs`, or -1. */
  function LastIndexOf(xs: seq<string>, a: string): (r: int)
    ensures -1 <= r < |xs|
    ensures r >= 0 ==> xs[r] == a
    ensures forall j :: r < j < |xs| ==> xs[j] != a
    ensures r == -1 <==> a !in xs
  {
    if |xs| == 0 then -1
    else if xs[|xs| - 1] == a then |xs| - 1
    else LastIndexOf(xs[..|xs| - 1], a)
  }

  /** The mock price for the address at `index`: `1 + index * 0.1`. */
  function MockPrice(index: nat): real {
    1.0 + (index as real) / 10.0
  }

  /**
    `fetchTokenPrices`: one entry per distinct address; a repeated address
    keeps the price of its last position, since later writes overwrite.
   */
  method FetchTokenPrices(addresses: seq<string>) returns (prices: map<string, real>)
    ensures prices.Keys == set a | a in addresses
    ensures forall a :: a in prices ==> LastIndexOf(addresses, a) >= 0 && prices[a] == MockPrice(LastIndexOf(addresses, a))
  {
    prices := map[];
    var k := 0;
    while k < |addresses|
      invariant 0 <= k <= |addresses|
      invariant prices.Keys == set a | a in addresses[..k]
      invariant forall a :: a in prices ==> LastIndexOf(addresses[..k], a) >= 0 && prices[a] == MockPrice(LastIndexOf(addresses[..k], a))
    {
      assert addresses[..k + 1][..k] == addresses[..k];
      prices := prices[addresses[k] := MockPrice(k)];
      k := k + 1;
    }
    assert addresses[..k] == addresses;
  }
}
