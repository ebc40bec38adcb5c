/**
  The payments page: a send form (recipient, amount, token) and a paged list
  of recent payments.
 */
module Payments {
  import opened Text
  import opened Amount
  import opened Paging

  datatype Payment = Payment(id: int, recipient: string, amount: real, token: string, date: string, status: string)

  const RecentPayments: seq<Payment> := [
    Payment(1, "0x1234...5678", 100.0, "BARK", "2023-05-01", "Completed"),
    Payment(2, "0x8765...4321", 2.0, "SOL", "2023-04-30", "Pending"),
    Payment(3, "0x2468...1357", 50.0, "USDC", "2023-04-29", "Completed"),
    Payment(4, "0x1357...2468", 75.0, "BARK", "2023-04-28", "Completed"),
    Payment(5, "0x3691...2580", 1.5, "SOL", "2023-04-27", "Failed")
  ]

  const PaymentsPerPage: nat := 3

  datatype Form = Form(recipient: string, amount: string, token: string, isLoading: bool)

  const InitialForm := Form("", "", "BARK", false)

  /** The send button is enabled for a non-empty recipient and a positive amount. */
  predicate IsFormValid(f: Form)
    ensures IsFormValid(f) <==> f.recipient != "" && IsPositiveAmount(f.amount)
    ensures IsFormValid(f) ==> f.amount[0] != '-'
  {
    PositiveFieldIsParse(f.amount);
    f.recipient != "" && PositiveField(f.amount)
  }

  /** After the simulated call settles: loading ends, recipient and amount are cleared, the token is kept. */
  function PaymentSettled(f: Form): (r: Form)
    ensures r.recipient == "" && r.amount == "" && !r.isLoading
    ensures r.token == f.token
  {
    f.(recipient := "", amount := "", isLoading := false)
  }

  /** Neither the first render nor a settled send can be submitted again. */
  lemma SettledFormIsInvalid(f: Form)
    ensures !IsFormValid(PaymentSettled(f))
    ensures !IsFormValid(InitialForm)
  {
  }

  /**
    With a recipient filled in, a whole-number amount enables the button
    exactly when it is not zero; a negated one never does; and no amount
    helps without a recipient.
   */
  lemma ValidityOfWholeAmounts(f: Form, n: nat)
    ensures f.recipient != "" ==> (IsFormValid(f.(amount := NatToString(n))) <==> n > 0)
    ensures !IsFormValid(f.(amount := "-" + NatToString(n)))
    ensures f.recipient == "" ==> !IsFormValid(f)
  {
    ParseNatString(n);
    NegatedIsNotPositive(n);
  }

  /** Recent-payments page `page`, counting from 1. */
  function PaymentPage(page: int): (r: seq<Payment>)
    ensures |r| <= PaymentsPerPage
    ensures page >= 1 ==> r == PageFromZero(RecentPayments, page - 1, PaymentsPerPage)
  {
    PageFromOne(RecentPayments, page, PaymentsPerPage)
  }

  /** Five payments make two pages, of three and two. */
  lemma PaymentPages()
    ensures TotalPages(|RecentPayments|, PaymentsPerPage) == 2
    ensures PaymentPage(1) == RecentPayments[..3]
    ensures PaymentPage(2) == RecentPayments[3..]
    ensures PaymentPage(3) == []
  {
  }
}
