/**
  The root dashboard page. Its data is `null` until the simulated fetch
  resolves, so every handler takes and returns an optional payload. The
  search box drives an effect that rewrites the blink list from the mock
  payload. The effect's dependencies are the debounced term and the payload
  object, compared by identity. Every write of the payload builds a new
  object, so the effect runs again after each of its own runs, after every
  create and after every "mark all as read".
 */
module HomePage {
  import opened Wrappers
  import opened Text
  import opened Seqs
  import opened Series
  import opened Blinks

  /** The mock blinks: `title` is the blink's name; these records carry no image, comments or views. */
  const MockBlinks: seq<Blink> := [
    Blink("1", "Blink 1", "Description 1", "", 100, 50, 0, 0),
    Blink("2", "Blink 2", "Description 2", "", 200, 75, 0, 0),
    Blink("3", "Blink 3", "Description 3", "", 150, 60, 0, 0)
  ]

  const MockNotifications: seq<Notification> := [
    Notification("1", "New follower", false),
    Notification("2", "Your blink was liked", true),
    Notification("3", "New comment on your blink", false)
  ]

  const MockDashboard := Dashboard(
    1234,
    5000,
    [Point("Jan", 100), Point("Feb", 150), Point("Mar", 200), Point("Apr", 180), Point("May", 220), Point("Jun", 250)],
    MockBlinks,
    MockNotifications,
    map["dailyActiveUsers" := 10000, "blinkCreationRate" := 500, "communityInteraction" := 75])

  /** "Refresh Data" and the first load: the payload becomes the mock, whatever it held. */
  function FetchData(data: Option<Dashboard>): (r: Option<Dashboard>)
    ensures r.Some? && r.value.blinks == MockBlinks && r.value.totalBlinks == 1234
  {
    Some(MockDashboard)
  }

  /**
    The search effect: with a non-empty term the list becomes the mock blinks
    that match; with an empty term it is reset to all mock blinks; with no
    payload nothing happens. Only the list changes.
   */
  function SearchEffect(term: string, data: Option<Dashboard>): (r: Option<Dashboard>)
    ensures data.None? <==> r.None?
    ensures r.Some? ==> r.value == data.value.(blinks := r.value.blinks)
    ensures r.Some? ==> IsSubsequence(r.value.blinks, MockBlinks)
    ensures r.Some? ==> forall x :: x in r.value.blinks <==> x in MockBlinks && Matches(x, term)
  {
    SearchKeepsExactlyMatches(MockBlinks, term);
    match data
    case None => None
    case Some(d) =>
      if term != "" then Some(d.(blinks := Search(MockBlinks, term)))
      else
        SearchEmptyKeepsAll(MockBlinks);
        Some(d.(blinks := MockBlinks))
  }

  /**
    Running the effect body again on its own output gives an equal payload.
    This is equality of values only: the page compares the payload by
    identity, and each run writes a new object (see `EffectDue`).
   */
  lemma SearchEffectSettles(term: string, data: Option<Dashboard>)
    ensures SearchEffect(term, SearchEffect(term, data)) == SearchEffect(term, data)
  {
  }

  /**
    "Create Blink": a blink always numbered `"4"` (the mock list's length plus
    one), with falsy title and description replaced by defaults, goes in
    front, and the total count goes up by one. Without a payload nothing
    happens.
   */
  function CreateBlink(data: Option<Dashboard>, input: BlinkInput): (r: Option<Dashboard>)
    ensures data.None? <==> r.None?
    ensures r.Some? ==> |r.value.blinks| == |data.value.blinks| + 1 && r.value.blinks[1..] == data.value.blinks
    ensures r.Some? ==> r.value.blinks[0].id == "4" && r.value.blinks[0].likes == 0
    ensures r.Some? ==>
              r.value.blinks[0] == Blink("4", OrDefault(input.name, "New Blink"), OrDefault(input.description, "New Blink Description"), "", 0, 0, 0, 0)
    ensures r.Some? ==> r.value.totalBlinks == data.value.totalBlinks + 1
    ensures r.Some? ==> r.value == data.value.(blinks := r.value.blinks, totalBlinks := r.value.totalBlinks)
  {
    var created := Blink(
      NatToString(|MockBlinks| + 1),
      OrDefault(input.name, "New Blink"),
      OrDefault(input.description, "New Blink Description"),
      "", 0, 0, 0, 0);
    assert created.id == "4";
    match data
    case None => None
    case Some(d) => Some(d.(blinks := [created] + d.blinks, totalBlinks := d.totalBlinks + 1))
  }

  /** Untitled blinks get the default title; every created blink gets the same id. */
  lemma CreateDefaultsAndIds(d: Dashboard, first: BlinkInput, second: BlinkInput)
    ensures CreateBlink(Some(d), BlinkInput(None, None)).value.blinks[0].name == "New Blink"
    ensures CreateBlink(Some(d), BlinkInput(Some(""), None)).value.blinks[0].name == "New Blink"
    ensures CreateBlink(Some(d), BlinkInput(None, Some(""))).value.blinks[0].description == "New Blink Description"
    ensures CreateBlink(Some(d), BlinkInput(None, None)).value.blinks[0].description == "New Blink Description"
    ensures CreateBlink(CreateBlink(Some(d), first), second).value.blinks[0].id
            == CreateBlink(CreateBlink(Some(d), first), second).value.blinks[1].id
  {
  }

  /**
    The effect body reads the fixed mock list, never the current one. Run on
    a dashboard holding a created blink, it gives the same list as without
    the create. So the created blink is gone (it has no likes; every mock
    blink has at least 100), while the count keeps its increment.
   */
  lemma SearchIgnoresCreatedBlinks(term: string, d: Dashboard, input: BlinkInput)
    ensures SearchEffect(term, CreateBlink(Some(d), input)).value.blinks == SearchEffect(term, Some(d)).value.blinks
    ensures CreateBlink(Some(d), input).value.blinks[0] !in SearchEffect(term, CreateBlink(Some(d), input)).value.blinks
    ensures SearchEffect(term, CreateBlink(Some(d), input)).value.totalBlinks == d.totalBlinks + 1
  {
    var created := CreateBlink(Some(d), input).value.blinks[0];
    assert created.likes == 0;
    assert forall x :: x in MockBlinks ==> x.likes >= 100;
  }

  function MarkAllNotificationsAsRead(data: Option<Dashboard>): (r: Option<Dashboard>)
    ensures data.None? <==> r.None?
    ensures r.Some? ==> !HasUnread(r.value.notifications)
    ensures r.Some? ==> |r.value.notifications| == |data.value.notifications|
    ensures r.Some? ==> forall i :: 0 <= i < |r.value.notifications| ==>
              r.value.notifications[i].id == data.value.notifications[i].id
              && r.value.notifications[i].message == data.value.notifications[i].message
    ensures r.Some? ==> r.value.notifications == MarkAllRead(data.value.notifications)
    ensures r.Some? ==> r.value == data.value.(notifications := r.value.notifications)
  {
    match data
    case None => None
    case Some(d) =>
      MarkAllReadClearsDot(d.notifications);
      Some(d.(notifications := MarkAllRead(d.notifications)))
  }

  /** The effect's dependency values at one run: the term and the payload object's identity. */
  datatype Deps = Deps(term: string, identity: nat)

  /**
    The page between renders. `identity` names the payload object: it is
    renewed by every `setDashboardData` that builds a new object. `ranWith`
    holds the dependencies of the effect's last run.
   */
  datatype Screen = Screen(term: string, data: Option<Dashboard>, identity: nat, ranWith: Option<Deps>)

  /** `setDashboardData(prev => ...)`: a new object literal is a new identity; `null` stays `null`. */
  function SetData(s: Screen, data: Option<Dashboard>): (r: Screen)
    ensures r.data == data && r.term == s.term && r.ranWith == s.ranWith
    ensures r.identity != s.identity <==> data.Some?
  {
    if data.Some? then s.(data := data, identity := s.identity + 1) else s.(data := data)
  }

  /** React runs the effect after a render whose dependencies differ from those of its last run. */
  predicate EffectDue(s: Screen) {
    s.ranWith != Some(Deps(s.term, s.identity))
  }

  /** Identities only grow, so the last run saw the current payload or an older one. */
  predicate Consistent(s: Screen) {
    s.ranWith.Some? ==> s.ranWith.value.identity <= s.identity
  }

  /**
    One run of the effect as written: it records its dependencies, then
    writes the filtered or reset payload when there is one.
   */
  function RunEffect(s: Screen): (r: Screen)
    ensures r.term == s.term && r.data == SearchEffect(s.term, s.data)
    ensures EffectDue(r) <==> s.data.Some?
    ensures Consistent(r)
  {
    var ran := s.(ranWith := Some(Deps(s.term, s.identity)));
    if s.data.Some? then SetData(ran, SearchEffect(s.term, s.data)) else ran
  }

  /**
    `n` effect runs in a row, each triggered by the one before. As written,
    the effect never settles once the payload is loaded: after any number of
    runs it is due again, although the payload's value stopped changing after
    the first run.
   */
  function RunEffectTimes(s: Screen, n: nat): (r: Screen)
    ensures r.term == s.term && (r.data.Some? <==> s.data.Some?)
    ensures n > 0 && s.data.Some? ==> EffectDue(r) && r.data == SearchEffect(s.term, s.data)
    decreases n
  {
    if n == 0 then s
    else
      var p := RunEffectTimes(s, n - 1);
      SearchEffectSettles(s.term, s.data);
      RunEffect(p)
  }

  /** "Create Blink" on the page: a loaded payload is replaced by a new object. */
  function CreateOnScreen(s: Screen, input: BlinkInput): (r: Screen)
    ensures r.data == CreateBlink(s.data, input) && r.term == s.term && r.ranWith == s.ranWith
    ensures s.data.Some? ==> r.identity == s.identity + 1
  {
    SetData(s, CreateBlink(s.data, input))
  }

  /** "Mark all as read" on the page: a loaded payload is replaced by a new object too. */
  function MarkReadOnScreen(s: Screen): (r: Screen)
    ensures r.data == MarkAllNotificationsAsRead(s.data) && r.term == s.term
    ensures s.data.Some? && Consistent(s) ==> EffectDue(r)
    ensures !TermEffectDue(s) ==> !TermEffectDue(r)
  {
    SetData(s, MarkAllNotificationsAsRead(s.data))
  }

  /**
    As written, a create always triggers the effect, even right after it
    ran, and its run drops the created blink while the total keeps its + 1.
   */
  lemma CreatedBlinkVanishesAsWritten(s: Screen, input: BlinkInput)
    requires s.data.Some? && Consistent(s)
    ensures EffectDue(CreateOnScreen(s, input))
    ensures var created := CreateBlink(s.data, input).value.blinks[0];
            var after := RunEffect(CreateOnScreen(s, input)).data.value;
            created !in after.blinks && after.totalBlinks == s.data.value.totalBlinks + 1
  {
    SearchIgnoresCreatedBlinks(s.term, s.data.value, input);
  }

  /** The corrected effect, keyed on the term alone: it is due when the term changed since its last run. */
  predicate TermEffectDue(s: Screen) {
    s.ranWith.None? || s.ranWith.value.term != s.term
  }

  /** One run of the corrected effect; its body is the same. */
  function RunTermEffect(s: Screen): (r: Screen)
    ensures r.term == s.term && r.data == SearchEffect(s.term, s.data)
    ensures !TermEffectDue(r)
  {
    var ran := s.(ranWith := Some(Deps(s.term, s.identity)));
    if s.data.Some? then SetData(ran, SearchEffect(s.term, s.data)) else ran
  }

  /** Typing in the search box (after the debounce): the term changes, nothing else. */
  function TypeTerm(s: Screen, term: string): (r: Screen)
    ensures r == s.(term := term)
    ensures !TermEffectDue(s) ==> (TermEffectDue(r) <==> term != s.term)
  {
    s.(term := term)
  }

  /**
    With the corrected effect, a create does not trigger a search: the
    created blink stays in front of the list until the term changes.
   */
  lemma CreatedBlinkStaysWithTermEffect(s: Screen, input: BlinkInput)
    requires s.data.Some? && !TermEffectDue(s)
    ensures !TermEffectDue(CreateOnScreen(s, input))
    ensures CreateOnScreen(s, input).data.value.blinks[0] == CreateBlink(s.data, input).value.blinks[0]
    ensures CreateOnScreen(s, input).data.value.blinks[1..] == s.data.value.blinks
  {
  }
}
