/** The input checks of the shared-budget contract: total, side-effect free
    functions returning a result with a fixed message. */
module BudgetValidation {
  import opened Host

  const INVALID_AMOUNT: string := "invalid_amount"
  const INVALID_PERCENTAGE: string := "invalid_percentage"

  /** `validate_amount`: only positive amounts pass. */
  function ValidateAmount(amount: I128): (r: Result<(), string>)
    ensures r.Ok? <==> amount > 0
    ensures r.Err? ==> r.error == INVALID_AMOUNT
  {
    if amount <= 0 then Err(INVALID_AMOUNT) else Ok(())
  }

  /** `validate_percentage`: 0 to 100 pass (the value is unsigned). */
  function ValidatePercentage(percentage: U32): (r: Result<(), string>)
    ensures r.Ok? <==> 0 <= percentage <= 100
    ensures r.Err? ==> r.error == INVALID_PERCENTAGE
  {
    if percentage > 100 then Err(INVALID_PERCENTAGE) else Ok(())
  }

  /** The boundaries: 0 and 100 are valid percentages and 101 is not; 1 is a
      valid amount and 0 and -1 are not. */
  lemma ValidationBoundaries()
    ensures ValidatePercentage(0).Ok? && ValidatePercentage(100).Ok? && ValidatePercentage(101).Err?
    ensures ValidateAmount(1).Ok? && ValidateAmount(0).Err? && ValidateAmount(-1).Err?
  {
  }
}
