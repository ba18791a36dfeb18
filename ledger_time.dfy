/** The periods ledger timestamps are bucketed into: days of 86,400 seconds
    and 30-day months, both counted from timestamp zero. */
module LedgerTime {
  import opened Host

  const SECONDS_PER_DAY: int := 86_400
  /** Thirty days. */
  const SECONDS_PER_MONTH: int := 2_592_000

  /** The day a timestamp falls in: the number of whole days since zero. */
  function DayId(now: U64): (day: U64)
    ensures day * SECONDS_PER_DAY <= now < (day + 1) * SECONDS_PER_DAY
  {
    now / SECONDS_PER_DAY
  }

  /** The 30-day "month" a timestamp falls in. */
  function MonthId(now: U64): (month: U64)
    ensures month * SECONDS_PER_MONTH <= now < (month + 1) * SECONDS_PER_MONTH
  {
    now / SECONDS_PER_MONTH
  }

  /** The 30-day month a day id lies in. */
  function DayMonth(day: U64): U64
  {
    day / 30
  }

  /** Months are made of whole days: the month of a timestamp is the month of
      its day, so every day lies in exactly one month. */
  lemma {:induction false} MonthOfDay(now: U64)
    ensures MonthId(now) == DayMonth(DayId(now))
  {
    var d := DayId(now);
    var m := DayMonth(d);
    var s := d % 30;
    assert d == 30 * m + s && 0 <= s < 30;
    assert m * SECONDS_PER_MONTH <= now < (m + 1) * SECONDS_PER_MONTH by {
      assert d * SECONDS_PER_DAY == m * SECONDS_PER_MONTH + s * SECONDS_PER_DAY;
      assert (d + 1) * SECONDS_PER_DAY <= (m + 1) * SECONDS_PER_MONTH;
    }
  }

  /** Two timestamps of the same day address the same monthly counter. */
  lemma {:induction false} SameDaySameMonth(t1: U64, t2: U64)
    requires DayId(t1) == DayId(t2)
    ensures MonthId(t1) == MonthId(t2)
  {
    MonthOfDay(t1);
    MonthOfDay(t2);
  }
}
