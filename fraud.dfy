/** The fraud check: every checked transaction is added to the user's running
    total for the day, and it is flagged when it is large on its own or when
    it takes that total over the daily maximum. */
module Fraud {
  import opened Host
  import opened LedgerTime

  const ABNORMAL_SIZE: string := "abnormal_size"
  const DAILY_LIMIT: string := "daily_limit"

  datatype FraudConfig = FraudConfig(threshold: I128, maxDaily: I128)

  /** `FraudConfig::default()`, the only configuration the check uses. */
  const DEFAULT_CONFIG: FraudConfig := FraudConfig(10_000, 100_000)

  /** A published fraud alert: the user, the amount and why it was flagged. */
  datatype FraudAlert = FraudAlert(user: Address, amount: I128, reasons: seq<string>)

  /** The reasons a transaction of `amount` that brings the day's total to
      `newTotal` is flagged for, in the order the rules run. */
  function Reasons(config: FraudConfig, amount: int, newTotal: int): (reasons: seq<string>)
    ensures ABNORMAL_SIZE in reasons <==> amount >= config.threshold
    ensures DAILY_LIMIT in reasons <==> newTotal > config.maxDaily
    ensures |reasons| <= 2
    ensures |reasons| == 2 ==> reasons == [ABNORMAL_SIZE, DAILY_LIMIT]
  {
    (if amount >= config.threshold then [ABNORMAL_SIZE] else [])
    + (if newTotal > config.maxDaily then [DAILY_LIMIT] else [])
  }

  class FraudContract {
    /** The `("user_daily", user, day)` running totals. */
    var dailyTotals: map<(Address, U64), I128>
    ghost var alerts: seq<FraudAlert>

    constructor ()
      ensures dailyTotals == map[] && alerts == []
    {
      dailyTotals := map[];
      alerts := [];
    }

    /** The running total of `user` on the day of `now` (0 before any check). */
    function DailyTotal(user: Address, now: U64): I128
      reads this
    {
      var key := (user, DayId(now));
      if key in dailyTotals then dailyTotals[key] else 0
    }

    /** `check_transaction` at ledger time `now`: add `amount` to the day's
        total (flagged or not) and report whether the transaction is flagged,
        publishing an alert with the reasons when it is. The only failure is
        an overflowing total. */
    method CheckTransaction(user: Address, amount: I128, now: U64) returns (r: Result<bool, string>)
      modifies this
      ensures var newTotal := old(DailyTotal(user, now)) + amount;
        && (r.Err? <==> !(I128_MIN <= newTotal <= I128_MAX))
        && (r.Err? ==> r.error == ADD_OVERFLOW && unchanged(this))
        && (r.Ok? ==>
              && r.value == (amount >= DEFAULT_CONFIG.threshold || newTotal > DEFAULT_CONFIG.maxDaily)
              && r.value == (|Reasons(DEFAULT_CONFIG, amount, newTotal)| > 0)
              && dailyTotals == old(dailyTotals)[(user, DayId(now)) := newTotal]
              && alerts == old(alerts)
                 + if r.value then [FraudAlert(user, amount, Reasons(DEFAULT_CONFIG, amount, newTotal))] else [])
    {
      var config := DEFAULT_CONFIG;
      var flagged := false;
      var reasons: seq<string> := [];

      // Rule 1: abnormal size.
      if amount >= config.threshold {
        flagged := true;
        reasons := reasons + [ABNORMAL_SIZE];
      }

      // Rule 2: the day's running total.
      var today := DayId(now);
      var userKey := (user, today);
      var prevTotal := if userKey in dailyTotals then dailyTotals[userKey] else 0;
      if !(I128_MIN <= prevTotal + amount <= I128_MAX) {
        return Err(ADD_OVERFLOW);
      }
      var newTotal: I128 := prevTotal + amount;
      dailyTotals := dailyTotals[userKey := newTotal];
      if newTotal > config.maxDaily {
        flagged := true;
        reasons := reasons + [DAILY_LIMIT];
      }

      assert reasons == Reasons(config, amount, newTotal);
      if flagged {
        alerts := alerts + [FraudAlert(user, amount, reasons)];
      }
      r := Ok(flagged);
    }

    /** `set_config`: accepted and ignored. */
    method SetConfig(admin: Address, threshold: I128, maxDaily: I128)
      ensures unchanged(this)
    {
    }
  }

  /** Scenarios: 20 000 is flagged for its size; 5 000 from a fresh user is
      not flagged and raises no alert; 50 000 then 60 000 on one day, the
      second is flagged for the daily total as well. */
  method FraudScenario(alice: Address, bob: Address, carol: Address, now: U64)
    returns (large: Result<bool, string>, small: Result<bool, string>, second: Result<bool, string>,
             ghost raised: seq<FraudAlert>)
    requires alice != bob && bob != carol && alice != carol
    ensures large == Ok(true) && small == Ok(false) && second == Ok(true)
    ensures |raised| == 3
    ensures raised[0] == FraudAlert(alice, 20_000, [ABNORMAL_SIZE])
    ensures raised[2] == FraudAlert(carol, 60_000, [ABNORMAL_SIZE, DAILY_LIMIT])
  {
    var c := new FraudContract();
    large := c.CheckTransaction(alice, 20_000, now);
    small := c.CheckTransaction(bob, 5_000, now);
    var first := c.CheckTransaction(carol, 50_000, now);
    second := c.CheckTransaction(carol, 60_000, now);
    raised := c.alerts;
  }
}
