/**
  The gift page: the payments form plus an optional message, and a paged
  list of recent gifts.
 */
module Gift {
  import opened Text
  import opened Amount
  import opened Paging

  datatype GiftRecord = GiftRecord(id: int, recipient: string, amount: real, token: string, date: string)

  const RecentGifts: seq<GiftRecord> := [
    GiftRecord(1, "0x1234...5678", 50.0, "BARK", "2023-05-01"),
    GiftRecord(2, "0x8765...4321", 1.0, "SOL", "2023-04-30"),
    GiftRecord(3, "0x2468...1357", 100.0, "USDC", "2023-04-29"),
    GiftRecord(4, "0x1357...2468", 25.0, "BARK", "2023-04-28"),
    GiftRecord(5, "0x3691...2580", 0.5, "SOL", "2023-04-27")
  ]

  const GiftsPerPage: nat := 3

  datatype Form = Form(recipient: string, amount: string, token: string, message: string, isLoading: bool)

  const InitialForm := Form("", "", "BARK", "", false)

  /** The message plays no part: a gift is valid with or without one. */
  predicate IsFormValid(f: Form)
    ensures IsFormValid(f) <==> f.recipient != "" && IsPositiveAmount(f.amount)
    ensures IsFormValid(f) ==> f.amount[0] != '-'
  {
    PositiveFieldIsParse(f.amount);
    f.recipient != "" && PositiveField(f.amount)
  }

  lemma MessageIsOptional(f: Form, message: string)
    ensures IsFormValid(f.(message := message)) == IsFormValid(f)
  {
  }

  /** After the simulated call settles: recipient, amount and message are cleared, the token is kept. */
  function GiftSettled(f: Form): (r: Form)
    ensures r.recipient == "" && r.amount == "" && r.message == "" && !r.isLoading
    ensures r.token == f.token
  {
    f.(recipient := "", amount := "", message := "", isLoading := false)
  }

  lemma SettledFormIsInvalid(f: Form)
    ensures !IsFormValid(GiftSettled(f))
    ensures !IsFormValid(InitialForm)
  {
  }

  /** The confirmation dialog's message line: the message, or "No message" for an empty one. */
  function MessageShown(message: string): (r: string)
    ensures r != ""
    ensures message != "" ==> r == message
    ensures message == "" ==> r == "No message"
  {
    if message != "" then message else "No message"
  }

  /** A message consisting of white space alone is shown as it is, not replaced. */
  lemma BlankMessageIsShown()
    ensures MessageShown(" ") == " "
    ensures MessageShown(GiftSettled(InitialForm).message) == "No message"
  {
  }

  function GiftPage(page: int): (r: seq<GiftRecord>)
    ensures |r| <= GiftsPerPage
    ensures page >= 1 ==> r == PageFromZero(RecentGifts, page - 1, GiftsPerPage)
  {
    PageFromOne(RecentGifts, page, GiftsPerPage)
  }

  lemma GiftPages()
    ensures TotalPages(|RecentGifts|, GiftsPerPage) == 2
    ensures GiftPage(2) == RecentGifts[3..]
    ensures GiftPage(3) == []
  {
  }
}
