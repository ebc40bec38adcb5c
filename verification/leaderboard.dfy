/**
  The community leaderboard card: a simulated fetch of five entries, the
  loading / error / list views, rank badges, change icons and a detail
  dialog for the selected entry.
 */
module Leaderboard {
  import opened Wrappers

  datatype Change = Up | Down | Same

  datatype Entry = Entry(
    id: string,
    name: string,
    avatar: string,
    blinks: int,
    likes: int,
    rank: int,
    change: Change,
    achievements: seq<string>)

  const AvatarBase := "https://api.dicebear.com/6.x/adventurer/svg?seed="

  const MockEntries: seq<Entry> := [
    Entry("1", "Alice", AvatarBase + "Alice", 150, 2800, 1, Up, ["Top Creator", "Trend Setter"]),
    Entry("2", "Bob", AvatarBase + "Bob", 142, 2750, 2, Down, ["Consistent Contributor"]),
    Entry("3", "Charlie", AvatarBase + "Charlie", 138, 2600, 3, Up, ["Rising Star"]),
    Entry("4", "David", AvatarBase + "David", 130, 2450, 4, Same, ["Community Favorite"]),
    Entry("5", "Eva", AvatarBase + "Eva", 125, 2300, 5, Up, ["Innovative Creator"])
  ]

  /** In the mock, ranks run 1..5 in list order and a better rank always has more likes and more blinks. */
  lemma MockRanksFollowLikes()
    ensures forall i :: 0 <= i < |MockEntries| ==> MockEntries[i].rank == i + 1
    ensures forall i, j :: 0 <= i < j < |MockEntries| ==>
              MockEntries[i].likes > MockEntries[j].likes && MockEntries[i].blinks > MockEntries[j].blinks
  {
  }

  datatype State = State(data: seq<Entry>, isLoading: bool, error: Option<string>, selected: Option<Entry>)

  const InitialState := State([], true, None, None)

  const FetchError := "Failed to fetch leaderboard data. Please try again later."

  /** The simulated fetch once it settles: the entries, or the error message. */
  function FetchSettled(s: State, outcome: Outcome<seq<Entry>>): (r: State)
    ensures !r.isLoading && r.selected == s.selected
    ensures outcome.Resolved? ==> r.data == outcome.value && r.error.None?
    ensures outcome.Rejected? ==> r.data == s.data && r.error == Some(FetchError)
  {
    match outcome
    case Resolved(entries) => s.(data := entries, isLoading := false, error := None)
    case Rejected => s.(isLoading := false, error := Some(FetchError))
  }

  datatype View = Skeletons(count: nat) | ErrorPanel(message: string) | List(entries: seq<Entry>)

  /** Loading wins over an error, and an error hides the list whatever it holds. */
  function Render(s: State): (r: View)
    ensures s.isLoading <==> r.Skeletons?
    ensures r.Skeletons? ==> r.count == 5
    ensures r.ErrorPanel? <==> !s.isLoading && s.error.Some?
    ensures r.List? ==> r.entries == s.data
    ensures r.ErrorPanel? ==> r.message == s.error.value
  {
    if s.isLoading then Skeletons(5)
    else if s.error.Some? then ErrorPanel(s.error.value)
    else List(s.data)
  }

  /** As written, "Retry" puts the mock entries back but leaves the error set. */
  function RetryAsWritten(s: State): (r: State)
    ensures r.data == MockEntries && r.error == s.error
    ensures r.isLoading == s.isLoading && r.selected == s.selected
  {
    s.(data := MockEntries)
  }

  /** So on the error panel, "Retry" changes nothing on screen. */
  lemma RetryAsWrittenStaysOnError(s: State)
    requires !s.isLoading && s.error.Some?
    ensures Render(RetryAsWritten(s)) == Render(s)
    ensures Render(RetryAsWritten(FetchSettled(InitialState, Rejected))) == ErrorPanel(FetchError)
  {
  }

  /** "Retry" as the error panel means it: the entries come back and the error is cleared. */
  function Retry(s: State): (r: State)
    ensures r.data == MockEntries && r.error.None?
    ensures r.isLoading == s.isLoading && r.selected == s.selected
  {
    s.(data := MockEntries, error := None)
  }

  lemma RetryShowsList(s: State)
    requires !s.isLoading
    ensures Render(Retry(s)) == List(MockEntries)
  {
  }

  /** Rank badges: gold, silver, bronze for the podium, the brand colour for the rest. */
  function RankBadgeColor(rank: int): (r: string)
    ensures rank == 1 <==> r == "bg-yellow-500"
    ensures rank == 2 <==> r == "bg-gray-400"
    ensures rank == 3 <==> r == "bg-amber-600"
    ensures rank != 1 && rank != 2 && rank != 3 <==> r == "bg-[#D0BFB4]"
  {
    match rank
    case 1 => "bg-yellow-500"
    case 2 => "bg-gray-400"
    case 3 => "bg-amber-600"
    case _ => "bg-[#D0BFB4]"
  }

  datatype Icon = ArrowUp | ArrowDown | Minus

  /** The movement icon and its colour. */
  function ChangeIcon(c: Change): (r: (Icon, string))
    ensures c == Up <==> r == (ArrowUp, "text-green-500")
    ensures c == Down <==> r == (ArrowDown, "text-red-500")
    ensures c == Same <==> r == (Minus, "text-gray-500")
  {
    match c
    case Up => (ArrowUp, "text-green-500")
    case Down => (ArrowDown, "text-red-500")
    case Same => (Minus, "text-gray-500")
  }

  /** Different movements never share an icon. */
  lemma ChangeIconInjective(a: Change, b: Change)
    ensures ChangeIcon(a).0 == ChangeIcon(b).0 ==> a == b
  {
  }

  /** The detail dialog is shown exactly when an entry is selected. */
  predicate DetailShown(s: State) {
    s.selected.Some?
  }

  function Select(s: State, e: Entry): (r: State)
    ensures DetailShown(r) && r.selected.value == e
    ensures Render(r) == Render(s)
  {
    s.(selected := Some(e))
  }

  /** The backdrop and the "Close" button both clear the selection. */
  function Close(s: State): (r: State)
    ensures !DetailShown(r)
    ensures Render(r) == Render(s)
  {
    s.(selected := None)
  }

  /** The avatar fallback: the first character of the name, nothing for an empty name. */
  function Initial(name: string): (r: string)
    ensures |r| <= 1
    ensures name != "" ==> r == [name[0]]
    ensures name == "" ==> r == ""
  {
    if name == "" then "" else [name[0]]
  }
}
