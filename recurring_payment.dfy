/** The recurring-payment contract: numbered payment schedules that anyone may
    execute once due, each execution moving one instalment and rescheduling to
    the first interval boundary after the ledger time. Every failure is a
    plain panic, reported here as its message. */
module RecurringPayments {
  import opened Host

  const AMOUNT_NOT_POSITIVE: string := "Amount must be positive"
  const INTERVAL_NOT_POSITIVE: string := "Interval must be positive"
  const PAYMENT_NOT_FOUND: string := "Payment not found"
  const PAYMENT_NOT_ACTIVE: string := "Payment is not active"
  const TOO_EARLY: string := "Too early for next execution"
  const ALREADY_CANCELED: string := "Payment is already canceled"

  /** One payment schedule. */
  datatype RecurringPayment = RecurringPayment(
    sender: Address,
    recipient: Address,
    token: Address,
    amount: I128,
    interval: U64,
    nextExecution: U64,
    active: bool)

  /** The notifications the contract publishes. */
  datatype RecurEvent =
    | Created(paymentId: U64, sender: Address)
    | Executed(paymentId: U64, amount: I128, nextExecution: U64)
    | Canceled(paymentId: U64, sender: Address)

  /** The k-th interval boundary after `next`. */
  function Boundary(next: int, interval: int, k: int): int
  {
    next + k * interval
  }

  /** The next execution time after an execution at `now` of a payment due at
      `next`, computed as `execute_payment` does it (without the u64 bound,
      which the method checks): one interval on, and if that is not in the
      future, on to the first boundary after `now`. */
  function Reschedule(next: int, interval: int, now: int): (r: int)
    requires 0 < interval && next <= now
    ensures now < r <= now + interval
    ensures exists k :: k >= 1 && r == Boundary(next, interval, k)
  {
    var stepped := next + interval;
    if stepped <= now then
      var intervalsPassed := (now - stepped) / interval;
      CatchUpBounds(now - stepped, interval);
      assert stepped + (intervalsPassed + 1) * interval == Boundary(next, interval, intervalsPassed + 2);
      stepped + (intervalsPassed + 1) * interval
    else
      assert stepped == Boundary(next, interval, 1);
      stepped
  }

  /** The catch-up step of `execute_payment` lands strictly after the gap it
      covers and at most one interval beyond it. */
  lemma {:induction false} CatchUpBounds(gap: nat, interval: int)
    requires 0 < interval
    ensures gap < (gap / interval + 1) * interval <= gap + interval
  {
    var q := gap / interval;
    assert q * interval <= gap < q * interval + interval;
    assert (q + 1) * interval == q * interval + interval;
  }

  /** Multiplying by a positive interval keeps strict order; a helper of
      `RescheduleIsLeast`, not a property of the contract. */
  lemma MulCancel(a: int, c: int, interval: int)
    requires 0 < interval && a * interval < c * interval
    ensures a < c
  {
  }

  /** The rescheduled time is the FIRST boundary after `now`: every boundary
      `next + k * interval` (k >= 1) after `now` is at or beyond it. */
  lemma {:induction false} RescheduleIsLeast(next: int, interval: int, now: int, k: int)
    requires 0 < interval && next <= now
    requires k >= 1 && Boundary(next, interval, k) > now
    ensures Reschedule(next, interval, now) <= Boundary(next, interval, k)
  {
    var r := Reschedule(next, interval, now);
    var j :| j >= 1 && r == Boundary(next, interval, j);
    assert (j - 1) * interval == j * interval - interval;
    MulCancel(j - 1, k, interval);
    assert j <= k;
    assert k * interval - j * interval == (k - j) * interval;
    assert (k - j) * interval >= 0;
  }

  /** Scenarios: a payment starting at 1000 with an hourly interval, executed
      on time, exactly one interval late, and two and a half intervals late. */
  lemma RescheduleScenarios()
    ensures Reschedule(1000, 3600, 1000) == 1000 + 3600
    ensures Reschedule(1000, 3600, 1000 + 3600) == 1000 + 2 * 3600
    ensures Reschedule(1000, 3600, 1000 + 2 * 3600 + 500) == 1000 + 3 * 3600
  {
  }

  class RecurringPaymentContract {
    /** `PaymentCount`: the number of schedules created (0 when absent). */
    var paymentCount: U64
    /** `Payment(id)` records. */
    var payments: map<U64, RecurringPayment>
    /** The token transfers made by successful calls, oldest first. */
    ghost var transfers: seq<Transfer>
    ghost var events: seq<RecurEvent>

    /** Schedules are numbered 1 to `paymentCount`, and each moves a positive
        amount at a positive interval. */
    ghost predicate Valid()
      reads this
    {
      forall id :: id in payments ==>
        && 1 <= id <= paymentCount
        && payments[id].amount > 0
        && payments[id].interval > 0
    }

    constructor ()
      ensures Valid()
      ensures paymentCount == 0 && payments == map[] && transfers == [] && events == []
    {
      paymentCount := 0;
      payments := map[];
      transfers := [];
      events := [];
    }

    /** `create_payment`: store a new active schedule, first due at
        `startTime`, under the next id. */
    method CreatePayment(sender: Address, recipient: Address, token: Address,
                         amount: I128, interval: U64, startTime: U64)
      returns (r: Result<U64, string>)
      requires Valid()
      modifies this
      ensures Valid()
      ensures amount <= 0 ==> r == Err(AMOUNT_NOT_POSITIVE)
      ensures amount > 0 && interval == 0 ==> r == Err(INTERVAL_NOT_POSITIVE)
      ensures amount > 0 && interval > 0 && old(paymentCount) == U64_MAX ==> r == Err(ADD_OVERFLOW)
      ensures r.Err? ==> unchanged(this)
      ensures r.Ok? <==> amount > 0 && interval > 0 && old(paymentCount) < U64_MAX
      ensures transfers == old(transfers)
      ensures r.Ok? ==>
        && r.value == old(paymentCount) + 1 == paymentCount
        && r.value !in old(payments)
        && payments == old(payments)[r.value := RecurringPayment(sender, recipient, token, amount, interval, startTime, true)]
        && events == old(events) + [Created(r.value, sender)]
    {
      if amount <= 0 {
        return Err(AMOUNT_NOT_POSITIVE);
      }
      if interval == 0 {
        return Err(INTERVAL_NOT_POSITIVE);
      }
      if paymentCount == U64_MAX {
        return Err(ADD_OVERFLOW);
      }
      var count := paymentCount + 1;
      var payment := RecurringPayment(sender, recipient, token, amount, interval, startTime, true);
      payments := payments[count := payment];
      paymentCount := count;
      events := events + [Created(count, sender)];
      r := Ok(count);
    }

    /** `execute_payment` at ledger time `now`: one transfer of the
        instalment, then the schedule moves to the first boundary after `now`. */
    method ExecutePayment(paymentId: U64, now: U64) returns (r: Result<(), string>)
      requires Valid()
      modifies this
      ensures Valid()
      ensures paymentCount == old(paymentCount)
      ensures paymentId !in old(payments) ==> r == Err(PAYMENT_NOT_FOUND)
      ensures paymentId in old(payments) && !old(payments)[paymentId].active ==> r == Err(PAYMENT_NOT_ACTIVE)
      ensures (paymentId in old(payments) && old(payments)[paymentId].active
               && now < old(payments)[paymentId].nextExecution) ==> r == Err(TOO_EARLY)
      ensures r.Err? ==> unchanged(this)
      ensures (paymentId in old(payments) && old(payments)[paymentId].active
               && old(payments)[paymentId].nextExecution <= now) ==>
        var p := old(payments)[paymentId];
        var next := Reschedule(p.nextExecution, p.interval, now);
        && (r.Err? <==> next > U64_MAX)
        && (r.Err? ==> r.error == ADD_OVERFLOW)
        && (r.Ok? ==>
              && payments == old(payments)[paymentId := p.(nextExecution := next)]
              && transfers == old(transfers) + [Transfer(p.token, p.sender, p.recipient, p.amount)]
              && events == old(events) + [Executed(paymentId, p.amount, next)])
    {
      if paymentId !in payments {
        return Err(PAYMENT_NOT_FOUND);
      }
      var payment := payments[paymentId];
      if !payment.active {
        return Err(PAYMENT_NOT_ACTIVE);
      }
      var currentTime := now;
      if currentTime < payment.nextExecution {
        return Err(TOO_EARLY);
      }

      // The transfer is made before the schedule is advanced; an overflow
      // below aborts the call and the host undoes the transfer with it.
      var transfersBefore := transfers;
      transfers := transfers + [Transfer(payment.token, payment.sender, payment.recipient, payment.amount)];

      if payment.nextExecution + payment.interval > U64_MAX {
        transfers := transfersBefore;
        return Err(ADD_OVERFLOW);
      }
      var next: U64 := payment.nextExecution + payment.interval;
      if next <= currentTime {
        var intervalsPassed := (currentTime - next) / payment.interval;
        CatchUpBounds(currentTime - next, payment.interval);
        // Cannot overflow: at most (currentTime - next) + interval <= currentTime.
        var catchUp: U64 := (intervalsPassed + 1) * payment.interval;
        if next + catchUp > U64_MAX {
          transfers := transfersBefore;
          return Err(ADD_OVERFLOW);
        }
        next := next + catchUp;
      }
      payment := payment.(nextExecution := next);
      payments := payments[paymentId := payment];
      events := events + [Executed(paymentId, payment.amount, next)];
      r := Ok(());
    }

    /** `cancel_payment`: deactivate an active schedule, nothing else. */
    method CancelPayment(paymentId: U64) returns (r: Result<(), string>)
      requires Valid()
      modifies this
      ensures Valid()
      ensures paymentCount == old(paymentCount) && transfers == old(transfers)
      ensures paymentId !in old(payments) ==> r == Err(PAYMENT_NOT_FOUND)
      ensures paymentId in old(payments) && !old(payments)[paymentId].active ==> r == Err(ALREADY_CANCELED)
      ensures r.Err? ==> unchanged(this)
      ensures r.Ok? <==> paymentId in old(payments) && old(payments)[paymentId].active
      ensures r.Ok? ==>
        && payments == old(payments)[paymentId := old(payments)[paymentId].(active := false)]
        && events == old(events) + [Canceled(paymentId, old(payments)[paymentId].sender)]
    {
      if paymentId !in payments {
        return Err(PAYMENT_NOT_FOUND);
      }
      var payment := payments[paymentId];
      if !payment.active {
        return Err(ALREADY_CANCELED);
      }
      payment := payment.(active := false);
      payments := payments[paymentId := payment];
      events := events + [Canceled(paymentId, payment.sender)];
      r := Ok(());
    }

    /** `get_payment`: the stored schedule, or the not-found panic. */
    function GetPayment(paymentId: U64): (r: Result<RecurringPayment, string>)
      reads this
      requires Valid()
      ensures r.Ok? <==> paymentId in payments
      ensures r.Ok? ==> r.value == payments[paymentId] && r.value.amount > 0 && r.value.interval > 0
      ensures r.Err? ==> r.error == PAYMENT_NOT_FOUND
      ensures paymentId == 0 || paymentId > paymentCount ==> r.Err?
    {
      if paymentId in payments then Ok(payments[paymentId]) else Err(PAYMENT_NOT_FOUND)
    }
  }

  /** Scenario: a schedule of 1000 every hour from 1000, executed on time,
      is due one interval later and is still active; cancelling it then
      deactivates it, and a second cancel and any execution panic. */
  method BasicFlowScenario(sender: Address, recipient: Address, token: Address)
    returns (id: U64, afterExecute: RecurringPayment, secondCancel: Result<(), string>,
             lateExecute: Result<(), string>)
    ensures id == 1
    ensures afterExecute == RecurringPayment(sender, recipient, token, 1000, 3600, 1000 + 3600, true)
    ensures secondCancel == Err(ALREADY_CANCELED)
    ensures lateExecute == Err(PAYMENT_NOT_ACTIVE)
  {
    var c := new RecurringPaymentContract();
    var created := c.CreatePayment(sender, recipient, token, 1000, 3600, 1000);
    id := created.value;
    var executed := c.ExecutePayment(id, 1000);
    assert Reschedule(1000, 3600, 1000) == 1000 + 3600;
    afterExecute := c.GetPayment(id).value;
    var canceled := c.CancelPayment(id);
    secondCancel := c.CancelPayment(id);
    lateExecute := c.ExecutePayment(id, 1000 + 3600);
  }

  /** Scenario: two schedules get ids 1 and 2, and executing or cancelling
      one leaves the other as it was. */
  method IndependentPaymentsScenario(senderA: Address, senderB: Address, recipient: Address, token: Address)
    returns (idA: U64, idB: U64, a: RecurringPayment, b: RecurringPayment)
    ensures idA == 1 && idB == 2
    ensures a.active && a.nextExecution == 1000 + 2 * 3600
    ensures b == RecurringPayment(senderB, recipient, token, 2000, 7200, 2000, false)
  {
    var c := new RecurringPaymentContract();
    var createdA := c.CreatePayment(senderA, recipient, token, 1000, 3600, 1000);
    var createdB := c.CreatePayment(senderB, recipient, token, 2000, 7200, 2000);
    idA, idB := createdA.value, createdB.value;
    var executed := c.ExecutePayment(idA, 5000);
    assert Reschedule(1000, 3600, 5000) == 1000 + 2 * 3600;
    var canceled := c.CancelPayment(idB);
    a, b := c.GetPayment(idA).value, c.GetPayment(idB).value;
  }
}
