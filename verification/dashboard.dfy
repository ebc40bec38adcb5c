/**
  The API-backed dashboard page. Every handler awaits a call into the data
  layer; the call's settled outcome is a parameter here. A rejection only
  raises a toast (or sets the error banner for the fetch), so the payload is
  left as it was.
 */
module DashboardPage {
  import opened Wrappers
  import opened Blinks

  datatype View = View(data: Option<Dashboard>, error: Option<string>, isLoading: bool)

  const FetchError := "Failed to fetch dashboard data. Please try again later."

  /** The page before the first fetch settles. */
  const InitialView := View(None, None, true)

  /**
    `fetchData` after its call settles: the payload on success, the error
    banner on failure (the previous payload stays), and loading ends either way.
   */
  function FetchSettled(v: View, response: Outcome<Dashboard>): (r: View)
    ensures !r.isLoading
    ensures response.Resolved? ==> r.data == Some(response.value) && r.error.None?
    ensures response.Rejected? ==> r.data == v.data && r.error == Some(FetchError)
  {
    match response
    case Resolved(d) => View(Some(d), None, false)
    case Rejected => View(v.data, Some(FetchError), false)
  }

  /**
    The search effect. Only a non-empty term sends a request; its results
    replace the list wholesale. An empty term sends nothing and restores nothing.
   */
  function SearchSettled(term: string, d: Dashboard, response: Outcome<seq<Blink>>): (r: Dashboard)
    ensures term == "" || response.Rejected? ==> r == d
    ensures term != "" && response.Resolved? ==> r == d.(blinks := response.value)
  {
    if term != "" && response.Resolved? then d.(blinks := response.value) else d
  }

  /** The created blink returned by the data layer goes in front. */
  function CreateSettled(d: Dashboard, response: Outcome<Blink>): (r: Dashboard)
    ensures response.Rejected? ==> r == d
    ensures response.Resolved? ==> r.blinks == [response.value] + d.blinks && r == d.(blinks := r.blinks)
  {
    match response
    case Resolved(b) => d.(blinks := [b] + d.blinks)
    case Rejected => d
  }

  /** "Mark all as read" only raises a toast here: the notifications stay as they are. */
  function MarkAllNotificationsAsRead(d: Dashboard): (r: Dashboard)
    ensures HasUnread(r.notifications) == HasUnread(d.notifications)
    ensures r == d
  {
    d
  }

  /**
    No failure changes the payload, and after clearing the search box the
    previous results stay on screen.
   */
  lemma FailuresChangeNothing(d: Dashboard, term: string, results: seq<Blink>, v: View)
    ensures SearchSettled(term, d, Rejected) == d
    ensures CreateSettled(d, Rejected) == d
    ensures FetchSettled(v, Rejected).data == v.data
    ensures SearchSettled("", SearchSettled(term, d, Resolved(results)), Resolved(d.blinks)).blinks
            == (if term == "" then d.blinks else results)
  {
  }
}
