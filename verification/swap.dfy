/**
  The swap page: from/to tokens and amounts, a switch button, and the
  validity check of the swap button.
 */
module Swap {
  import opened Text
  import opened Amount

  datatype Form = Form(fromToken: string, toToken: string, fromAmount: string, toAmount: string, isLoading: bool)

  /** First render: BARK to SOL, no amounts. */
  const InitialForm := Form("BARK", "SOL", "", "", false)

  /** Both amounts filled in and a positive "from" amount; the "to" amount is not parsed. */
  predicate IsFormValid(f: Form)
    ensures IsFormValid(f) <==> IsPositiveAmount(f.fromAmount) && f.toAmount != ""
    ensures IsFormValid(f) ==> f.fromAmount[0] != '-'
  {
    PositiveFieldIsParse(f.fromAmount);
    PositiveField(f.fromAmount) && f.toAmount != ""
  }

  /** The switch button exchanges the tokens and the amounts. */
  function SwitchTokens(f: Form): (r: Form)
    ensures r.fromToken == f.toToken && r.toToken == f.fromToken
    ensures r.fromAmount == f.toAmount && r.toAmount == f.fromAmount
    ensures r.isLoading == f.isLoading
  {
    f.(fromToken := f.toToken, toToken := f.fromToken, fromAmount := f.toAmount, toAmount := f.fromAmount)
  }

  /** Switching twice restores the form. */
  lemma SwitchTwice(f: Form)
    ensures SwitchTokens(SwitchTokens(f)) == f
  {
  }

  /**
    Typing in the "from" field also fills the "to" field with the quoted
    amount. `quote` stands for the rendered product `(x * 1.5).toFixed(2)`;
    when the text does not parse the product is `NaN`, rendered `"NaN"`.
   */
  function FromAmountChanged(f: Form, value: string, quote: string): (r: Form)
    ensures r.fromAmount == value
    ensures ParseFloat(value) == NaN ==> r.toAmount == "NaN"
    ensures ParseFloat(value) != NaN ==> r.toAmount == quote
    ensures r.fromToken == f.fromToken && r.toToken == f.toToken
    ensures r == f.(fromAmount := r.fromAmount, toAmount := r.toAmount)
  {
    f.(fromAmount := value, toAmount := if ParseFloat(value) == NaN then "NaN" else quote)
  }

  /**
    Clearing the "from" field leaves `"NaN"` in the "to" field; switching then
    puts `"NaN"` in the "from" field, and the form stays invalid.
   */
  lemma ClearedFieldShowsNaN(f: Form, quote: string)
    ensures FromAmountChanged(f, "", quote).toAmount == "NaN"
    ensures SwitchTokens(FromAmountChanged(f, "", quote)).fromAmount == "NaN"
    ensures !IsFormValid(SwitchTokens(FromAmountChanged(f, "", quote)))
  {
    EmptyIsNotPositive();
    NoLiteralIsNaN("NaN");
  }

  /** After the simulated call settles both amounts are cleared and the tokens are kept. */
  function SwapSettled(f: Form): (r: Form)
    ensures r.fromAmount == "" && r.toAmount == "" && !r.isLoading
    ensures r.fromToken == f.fromToken && r.toToken == f.toToken
  {
    f.(fromAmount := "", toAmount := "", isLoading := false)
  }

  lemma SettledFormIsInvalid(f: Form)
    ensures !IsFormValid(SwapSettled(f))
    ensures !IsFormValid(InitialForm)
  {
  }
}
