/** The two spending windows of the enforcement engine: the daily cap derived
    from the monthly cap, and the all-or-nothing check of one spend against
    both windows. */
module LimitWindows {
  import opened Host
  import opened LimitTypes

  /** The daily cap derived from the monthly cap: nothing for a non-positive
      monthly cap, otherwise a thirtieth of it but never less than 1. */
  function DailyLimit(monthlyLimit: I128): (cap: I128)
    ensures monthlyLimit <= 0 ==> cap == 0
    ensures 0 < monthlyLimit < 30 ==> cap == 1
    ensures monthlyLimit >= 30 ==> 30 * cap <= monthlyLimit < 30 * (cap + 1)
    ensures monthlyLimit > 0 ==> 1 <= cap <= monthlyLimit
  {
    if monthlyLimit <= 0 then 0
    else
      var base := TruncDiv(monthlyLimit, 30);
      if base == 0 then 1 else base
  }

  /** The checks of one spend of `amount` against counters `currentDaily` and
      `currentMonthly`: the new counter values, or the error the call aborts
      with. A counter overflow is reported first, then the daily window, then
      the monthly one. */
  function CheckSpend(currentDaily: I128, currentMonthly: I128, amount: I128, monthlyLimit: I128)
    : (r: Result<(I128, I128), SpendingLimitError>)
    requires amount > 0
    ensures r.Ok? <==>
      currentDaily + amount <= DailyLimit(monthlyLimit) && currentMonthly + amount <= monthlyLimit
    ensures r.Ok? ==> r.value == (currentDaily + amount, currentMonthly + amount)
    ensures r == Err(InvalidBatch) <==>
      currentDaily + amount > I128_MAX || currentMonthly + amount > I128_MAX
    ensures r == Err(DailyLimitExceeded) <==>
      currentDaily + amount <= I128_MAX && currentMonthly + amount <= I128_MAX
      && currentDaily + amount > DailyLimit(monthlyLimit)
    ensures r == Err(MonthlyLimitExceeded) <==>
      currentMonthly + amount <= I128_MAX
      && currentDaily + amount <= DailyLimit(monthlyLimit)
      && currentMonthly + amount > monthlyLimit
  {
    match (CheckedAdd(currentDaily, amount), CheckedAdd(currentMonthly, amount))
    case (None, _) => Err(InvalidBatch)
    case (_, None) => Err(InvalidBatch)
    case (Some(newDaily), Some(newMonthly)) =>
      var dailyOk := newDaily <= DailyLimit(monthlyLimit);
      var monthlyOk := newMonthly <= monthlyLimit;
      if !dailyOk then Err(DailyLimitExceeded)
      else if !monthlyOk then Err(MonthlyLimitExceeded)
      else Ok((newDaily, newMonthly))
  }

  /** Scenario: a monthly cap of 300 gives a daily cap of 10; a spend of 5 is
      accepted and a following spend of 6 on the same day is rejected as a
      daily violation. */
  lemma DailyCapScenario()
    ensures DailyLimit(300) == 10
    ensures CheckSpend(0, 0, 5, 300) == Ok((5, 5))
    ensures CheckSpend(5, 5, 6, 300) == Err(DailyLimitExceeded)
  {
  }
}
