/** The spending-limits contract: its storage as fields of one object, the
    admin-gated batch update, the dual-window enforcement and the getters.
    Every public call either returns Ok with its writes made, or Err with the
    storage as it was before the call (the host rolls back an aborted call). */
module SpendingLimits {
  import opened Host
  import opened LimitTypes
  import opened LedgerTime
  import opened LimitWindows
  import opened LimitBatch

  const NOT_INITIALIZED: string := "Contract not initialized"
  const ALREADY_INITIALIZED: string := "Contract already initialized"

  /** A stored period counter; an absent key reads as 0. */
  function CounterOf(counters: map<(Address, U64), I128>, key: (Address, U64)): I128
  {
    if key in counters then counters[key] else 0
  }

  /** Period counters are never negative, and a day's total never exceeds the
      total of the month the day lies in. */
  ghost predicate CountersConsistent(daily: map<(Address, U64), I128>, monthly: map<(Address, U64), I128>)
  {
    && (forall k :: k in monthly ==> monthly[k] >= 0)
    && (forall k {:trigger k in daily} :: k in daily ==>
          && daily[k] >= 0
          && (k.0, DayMonth(k.1)) in monthly
          && daily[k] <= monthly[(k.0, DayMonth(k.1))])
  }

  /** Adding an accepted spend to both windows of its timestamp keeps the
      counters consistent: the day and the month it is added to are the day
      and the month of the same instant. */
  lemma {:induction false} RecordSpendKeepsConsistent(daily: map<(Address, U64), I128>, monthly: map<(Address, U64), I128>,
                                                      user: Address, now: U64, amount: I128)
    requires CountersConsistent(daily, monthly)
    requires amount > 0
    requires CounterOf(daily, (user, DayId(now))) + amount <= I128_MAX
    requires CounterOf(monthly, (user, MonthId(now))) + amount <= I128_MAX
    ensures CountersConsistent(
      daily[(user, DayId(now)) := CounterOf(daily, (user, DayId(now))) + amount],
      monthly[(user, MonthId(now)) := CounterOf(monthly, (user, MonthId(now))) + amount])
  {
    var dayKey, monthKey := (user, DayId(now)), (user, MonthId(now));
    var newDaily := daily[dayKey := CounterOf(daily, dayKey) + amount];
    var newMonthly := monthly[monthKey := CounterOf(monthly, monthKey) + amount];
    MonthOfDay(now);
    assert (dayKey.0, DayMonth(dayKey.1)) == monthKey;
    forall k | k in newDaily
      ensures (k.0, DayMonth(k.1)) in newMonthly && newDaily[k] <= newMonthly[(k.0, DayMonth(k.1))]
    {
      if k != dayKey {
        assert k in daily;
        assert newMonthly[(k.0, DayMonth(k.1))] >= monthly[(k.0, DayMonth(k.1))];
      }
    }
  }

  /** One request of a batch against the transaction's view `limits` of the
      limit storage: its outcome, its limit written when valid, and the
      notifications it publishes. */
  method ApplyRequest(batchId: U64, request: SpendingLimitRequest,
                      validate: SpendingLimitRequest -> Option<ErrorCode>, currentLedger: U64,
                      limits: map<Address, SpendingLimit>)
    returns (item: LimitUpdateResult, stored: map<Address, SpendingLimit>, ghost published: seq<LimitEvent>)
    ensures item == Outcome(request, validate, currentLedger)
    ensures stored == if item.Success? then limits[item.limit.user := item.limit] else limits
    ensures published == ItemEvents(batchId, item)
  {
    stored := limits;
    published := [];
    match validate(request) {
      case None =>
        var limit := SpendingLimit(request.user, request.monthlyLimit, 0, request.category, currentLedger, true);
        stored := stored[request.user := limit];
        published := published + [LimitUpdated(batchId, limit)];
        if request.monthlyLimit >= HIGH_VALUE_LIMIT {
          published := published + [HighValueLimit(batchId, request.user, request.monthlyLimit)];
        }
        item := Success(limit);
      case Some(errorCode) =>
        published := published + [LimitUpdateFailed(batchId, request.user, errorCode)];
        item := Failure(request.user, errorCode);
    }
  }

  /** The per-request loop of a batch over the transaction's view `limits`
      of the limit storage: each request's outcome recorded in order, its
      limit written when valid, its notifications published, and the
      counters and the saturating total kept alongside. */
  method ApplyRequests(batchId: U64, requests: seq<SpendingLimitRequest>,
                       validate: SpendingLimitRequest -> Option<ErrorCode>, ledgerSequence: U32,
                       limits: map<Address, SpendingLimit>)
    returns (results: seq<LimitUpdateResult>, successfulCount: U32, failedCount: U32, totalLimitsValue: I128,
             stored: map<Address, SpendingLimit>, ghost published: seq<LimitEvent>)
    requires |requests| <= U32_MAX
    ensures results == Outcomes(requests, validate, ledgerSequence)
    ensures successfulCount == SuccessCount(results) && failedCount == FailureCount(results)
    ensures totalLimitsValue == TotalValue(results)
    ensures stored == ApplyWrites(limits, results)
    ensures published == BatchEvents(batchId, results)
  {
    var currentLedger: U64 := ledgerSequence;
    stored := limits;
    published := [];
    results := [];
    successfulCount, failedCount, totalLimitsValue := 0, 0, 0;
    for i := 0 to |requests|
      invariant results == Outcomes(requests[..i], validate, currentLedger)
      invariant successfulCount == SuccessCount(results)
      invariant failedCount == FailureCount(results)
      invariant totalLimitsValue == TotalValue(results)
      invariant stored == ApplyWrites(limits, results)
      invariant published == BatchEvents(batchId, results)
    {
      var item;
      ghost var itemEvents;
      item, stored, itemEvents := ApplyRequest(batchId, requests[i], validate, currentLedger, stored);
      published := published + itemEvents;
      if item.Success? {
        totalLimitsValue := AddOrMax(totalLimitsValue, item.limit.monthlyLimit);
        successfulCount := successfulCount + 1;
      } else {
        failedCount := failedCount + 1;
      }
      AppendResult(limits, batchId, results, item);
      OutcomesExtend(requests, i, validate, currentLedger);
      results := results + [item];
    }
    assert requests[..|requests|] == requests;
  }

  /** The loop of a batch followed by the metrics computed from its
      results: the batch result the call returns if it completes, the
      transaction's view of the limit storage the loop leaves, and the
      notifications the loop publishes. */
  method RunBatch(batchId: U64, requests: seq<SpendingLimitRequest>,
                  validate: SpendingLimitRequest -> Option<ErrorCode>, ledgerSequence: U32,
                  limits: map<Address, SpendingLimit>)
    returns (res: BatchLimitResult, stored: map<Address, SpendingLimit>, ghost published: seq<LimitEvent>)
    requires |requests| <= U32_MAX
    ensures res.batchId == batchId && res.totalRequests == |requests|
    ensures res.results == Outcomes(requests, validate, ledgerSequence)
    ensures res.successful == SuccessCount(res.results) && res.failed == FailureCount(res.results)
    ensures res.metrics == BatchLimitMetrics(res.totalRequests, res.successful, res.failed,
                                             TotalValue(res.results),
                                             AverageLimit(TotalValue(res.results), res.successful),
                                             ledgerSequence)
    ensures stored == ApplyWrites(limits, res.results)
    ensures (forall u :: u in limits ==> limits[u].user == u) ==> forall u :: u in stored ==> stored[u].user == u
    ensures published == BatchEvents(batchId, res.results)
  {
    var results, successfulCount, failedCount, totalLimitsValue;
    results, successfulCount, failedCount, totalLimitsValue, stored, published :=
      ApplyRequests(batchId, requests, validate, ledgerSequence, limits);
    var currentLedger: U64 := ledgerSequence;
    var avgLimitAmount := AverageLimit(totalLimitsValue, successfulCount);
    var metrics := BatchLimitMetrics(|requests|, successfulCount, failedCount,
                                     totalLimitsValue, avgLimitAmount, currentLedger);
    if forall u :: u in limits ==> limits[u].user == u {
      ApplyWritesKeyed(limits, results);
    }
    res := BatchLimitResult(batchId, |requests|, successfulCount, failedCount, results, metrics);
  }

  class SpendingLimitsContract {
    /** `MAX_BATCH_SIZE`; its value is not part of this model, only that it
        is a positive u32. */
    const maxBatchSize: nat

    // Instance storage.
    var admin: Option<Address>
    var lastBatchId: U64
    var totalLimitsUpdated: U64
    var totalBatchesProcessed: U64

    // Persistent storage: `SpendingLimit(user)`, `DailySpending(user, day)`
    // and `MonthlySpending(user, month)`.
    var limits: map<Address, SpendingLimit>
    var daily: map<(Address, U64), I128>
    var monthly: map<(Address, U64), I128>

    /** The notifications published by successful calls, oldest first. */
    ghost var events: seq<LimitEvent>

    /** The invariant every call keeps: one batch id per processed batch,
        each limit stored under its own user, and period counters that are
        never negative, a day's total never above its month's total. */
    ghost predicate Valid()
      reads this
    {
      && 0 < maxBatchSize <= U32_MAX
      && totalBatchesProcessed == lastBatchId
      && (forall u :: u in limits ==> limits[u].user == u)
      && CountersConsistent(daily, monthly)
    }

    /** A freshly deployed contract: nothing stored yet. */
    constructor (maxBatchSize: nat)
      requires 0 < maxBatchSize <= U32_MAX
      ensures Valid()
      ensures this.maxBatchSize == maxBatchSize
      ensures admin == None && limits == map[] && daily == map[] && monthly == map[]
      ensures lastBatchId == 0 && totalLimitsUpdated == 0 && totalBatchesProcessed == 0
      ensures events == []
    {
      this.maxBatchSize := maxBatchSize;
      admin := None;
      lastBatchId, totalLimitsUpdated, totalBatchesProcessed := 0, 0, 0;
      limits, daily, monthly := map[], map[], map[];
      events := [];
    }

    method Initialize(newAdmin: Address) returns (r: Result<(), Abort<SpendingLimitError>>)
      requires Valid()
      modifies this
      ensures Valid()
      ensures old(admin).Some? ==> r == Err(HostPanic(ALREADY_INITIALIZED)) && unchanged(this)
      ensures old(admin).None? ==>
        && r == Ok(())
        && admin == Some(newAdmin)
        && lastBatchId == 0 && totalLimitsUpdated == 0 && totalBatchesProcessed == 0
        && limits == old(limits) && daily == old(daily) && monthly == old(monthly)
        && events == old(events)
    {
      if admin.Some? {
        return Err(HostPanic(ALREADY_INITIALIZED));
      }
      admin := Some(newAdmin);
      lastBatchId := 0;
      totalLimitsUpdated := 0;
      totalBatchesProcessed := 0;
      r := Ok(());
    }

    /** `require_admin`: the caller must be the stored admin. */
    function RequireAdmin(caller: Address): (r: Result<(), Abort<SpendingLimitError>>)
      reads this
      ensures r.Ok? <==> admin == Some(caller)
      ensures admin.None? ==> r == Err(HostPanic(NOT_INITIALIZED))
      ensures admin.Some? && admin.value != caller ==> r == Err(ContractError(Unauthorized))
    {
      match admin
      case None => Err(HostPanic(NOT_INITIALIZED))
      case Some(a) => if caller != a then Err(ContractError(Unauthorized)) else Ok(())
    }

    method SetAdmin(currentAdmin: Address, newAdmin: Address) returns (r: Result<(), Abort<SpendingLimitError>>)
      requires Valid()
      modifies this
      ensures Valid()
      ensures r.Err? <==> old(RequireAdmin(currentAdmin)).Err?
      ensures r.Err? ==> r == old(RequireAdmin(currentAdmin)) && unchanged(this)
      ensures r.Ok? ==>
        && admin == Some(newAdmin)
        && lastBatchId == old(lastBatchId) && totalLimitsUpdated == old(totalLimitsUpdated)
        && totalBatchesProcessed == old(totalBatchesProcessed)
        && limits == old(limits) && daily == old(daily) && monthly == old(monthly)
        && events == old(events)
    {
      r := RequireAdmin(currentAdmin);
      if r.Err? {
        return;
      }
      admin := Some(newAdmin);
    }

    function GetAdmin(): (r: Result<Address, Abort<SpendingLimitError>>)
      reads this
      ensures r.Ok? <==> admin.Some?
      ensures r.Ok? ==> RequireAdmin(r.value).Ok?
      ensures r.Err? ==> r.error == HostPanic(NOT_INITIALIZED)
    {
      match admin
      case None => Err(HostPanic(NOT_INITIALIZED))
      case Some(a) => Ok(a)
    }

    /** The stored limit of `user`; a limit is always stored under its own user. */
    function GetSpendingLimit(user: Address): (r: Option<SpendingLimit>)
      reads this
      requires Valid()
      ensures r.Some? <==> user in limits
      ensures r.Some? ==> r.value == limits[user] && r.value.user == user
    {
      if user in limits then Some(limits[user]) else None
    }

    /** The id of the last batch, which is also the number of batches processed. */
    function GetLastBatchId(): (id: U64)
      reads this
      requires Valid()
      ensures id == GetTotalBatchesProcessed()
    {
      lastBatchId
    }

    function GetTotalLimitsUpdated(): U64
      reads this
    {
      totalLimitsUpdated
    }

    function GetTotalBatchesProcessed(): U64
      reads this
    {
      totalBatchesProcessed
    }

    /** Why a batch call aborts in the current state, if it does, in the
        order the code checks: the admin, the size of the batch, then the two
        counter additions that can overflow. */
    ghost function BatchAbort(caller: Address, requests: seq<SpendingLimitRequest>,
                              validate: SpendingLimitRequest -> Option<ErrorCode>, ledgerSequence: U32)
      : Option<Abort<SpendingLimitError>>
      reads this
    {
      if RequireAdmin(caller).Err? then Some(RequireAdmin(caller).error)
      else if |requests| == 0 then Some(ContractError(EmptyBatch))
      else if |requests| > maxBatchSize then Some(ContractError(BatchTooLarge))
      else if lastBatchId == U64_MAX then Some(HostPanic(ADD_OVERFLOW))
      else
        var results := Outcomes(requests, validate, ledgerSequence);
        if totalLimitsUpdated + SuccessCount(results) > U64_MAX then Some(HostPanic(ADD_OVERFLOW))
        else None
    }

    /** `batch_update_spending_limits`: validate and apply each request in
        order, recording one result per request; a rejected request is data,
        not an abort. */
    method BatchUpdateSpendingLimits(caller: Address, requests: seq<SpendingLimitRequest>,
                                     validate: SpendingLimitRequest -> Option<ErrorCode>, ledgerSequence: U32)
      returns (r: Result<BatchLimitResult, Abort<SpendingLimitError>>)
      requires Valid()
      modifies this
      ensures Valid()
      ensures r.Err? <==> old(BatchAbort(caller, requests, validate, ledgerSequence)).Some?
      ensures r.Err? ==>
        && r.error == old(BatchAbort(caller, requests, validate, ledgerSequence)).value
        && admin == old(admin) && limits == old(limits) && daily == old(daily) && monthly == old(monthly)
        && lastBatchId == old(lastBatchId) && totalLimitsUpdated == old(totalLimitsUpdated)
        && totalBatchesProcessed == old(totalBatchesProcessed) && events == old(events)
      ensures r.Ok? ==>
        var res := r.value;
        // one result per request, in input order
        && |requests| == res.totalRequests
        && res.results == Outcomes(requests, validate, ledgerSequence)
        && res.successful == SuccessCount(res.results)
        && res.failed == FailureCount(res.results)
        && res.metrics == BatchLimitMetrics(res.totalRequests, res.successful, res.failed,
                                            TotalValue(res.results),
                                            AverageLimit(TotalValue(res.results), res.successful),
                                            ledgerSequence)
        // the persisted counters
        && res.batchId == old(lastBatchId) + 1 == lastBatchId
        && totalLimitsUpdated == old(totalLimitsUpdated) + res.successful
        && totalBatchesProcessed == old(totalBatchesProcessed) + 1
        // the limit writes, and nothing else
        && limits == ApplyWrites(old(limits), res.results)
        && admin == old(admin) && daily == old(daily) && monthly == old(monthly)
        && events == old(events) + [BatchStarted(res.batchId, res.totalRequests)]
                     + BatchEvents(res.batchId, res.results)
                     + [BatchCompleted(res.batchId, res.successful, res.failed, res.metrics.totalLimitsValue)]
    {
      var authorized := RequireAdmin(caller);
      if authorized.Err? {
        return Err(authorized.error);
      }
      var requestCount := |requests|;
      if requestCount == 0 {
        return Err(ContractError(EmptyBatch));
      }
      if requestCount > maxBatchSize {
        return Err(ContractError(BatchTooLarge));
      }
      if lastBatchId == U64_MAX {
        return Err(HostPanic(ADD_OVERFLOW));
      }
      var batchId: U64 := lastBatchId + 1;

      // The writes of the loop stay in the transaction's view of storage
      // until the call completes; an abort below discards them.
      var res, stored, published := RunBatch(batchId, requests, validate, ledgerSequence, limits);

      if totalLimitsUpdated + res.successful > U64_MAX {
        return Err(HostPanic(ADD_OVERFLOW));
      }
      CommitBatch(res, stored, published);
      r := Ok(res);
    }

    /** The writes of a completed batch: the limit storage the loop left,
        the batch id, both counters and the notifications; the invariant
        holds afterwards because every limit the loop wrote is keyed by its
        own user and the period counters are not touched. */
    method CommitBatch(res: BatchLimitResult, stored: map<Address, SpendingLimit>, ghost published: seq<LimitEvent>)
      requires Valid()
      requires res.batchId == lastBatchId + 1
      requires totalLimitsUpdated + res.successful <= U64_MAX
      requires forall u :: u in stored ==> stored[u].user == u
      modifies this
      ensures Valid()
      ensures limits == stored && lastBatchId == res.batchId
      ensures totalLimitsUpdated == old(totalLimitsUpdated) + res.successful
      ensures totalBatchesProcessed == old(totalBatchesProcessed) + 1
      ensures admin == old(admin) && daily == old(daily) && monthly == old(monthly)
      ensures events == old(events) + [BatchStarted(res.batchId, res.totalRequests)] + published
                        + [BatchCompleted(res.batchId, res.successful, res.failed, res.metrics.totalLimitsValue)]
    {
      limits := stored;
      lastBatchId := res.batchId;
      totalLimitsUpdated := totalLimitsUpdated + res.successful;
      // Cannot overflow: the batch count equals the last batch id, which was below u64::MAX.
      totalBatchesProcessed := totalBatchesProcessed + 1;
      events := events + [BatchStarted(res.batchId, res.totalRequests)] + published
                + [BatchCompleted(res.batchId, res.successful, res.failed, res.metrics.totalLimitsValue)];
    }

    /** `enforce_spending_limit`: accept the spend of `amount` at ledger time
        `now` only if both the daily and the monthly window allow it, and then
        add it to both counters; otherwise abort with nothing written. */
    method EnforceSpendingLimit(user: Address, amount: I128, now: U64)
      returns (r: Result<(), Abort<SpendingLimitError>>)
      requires Valid()
      modifies this
      ensures Valid()
      ensures admin == old(admin) && lastBatchId == old(lastBatchId) && events == old(events)
      ensures totalLimitsUpdated == old(totalLimitsUpdated) && totalBatchesProcessed == old(totalBatchesProcessed)
      ensures amount <= 0 ==> r == Err(ContractError(InvalidAmount))
      ensures r.Err? || !(user in old(limits) && old(limits)[user].isActive) ==>
        limits == old(limits) && daily == old(daily) && monthly == old(monthly)
      ensures amount > 0 && !(user in old(limits) && old(limits)[user].isActive) ==> r == Ok(())
      ensures amount > 0 && user in old(limits) && old(limits)[user].isActive ==>
        var limit := old(limits)[user];
        var dayKey, monthKey := (user, DayId(now)), (user, MonthId(now));
        var currentDaily, currentMonthly := CounterOf(old(daily), dayKey), CounterOf(old(monthly), monthKey);
        var check := CheckSpend(currentDaily, currentMonthly, amount, limit.monthlyLimit);
        && (check.Err? ==> r == Err(ContractError(check.error)))
        && (check.Ok? ==>
              && r == Ok(())
              && daily == old(daily)[dayKey := currentDaily + amount]
              && monthly == old(monthly)[monthKey := currentMonthly + amount]
              && limits == old(limits)[user := limit.(currentSpending := currentMonthly + amount,
                                                      updatedAt := MonthId(now))])
    {
      if amount <= 0 {
        return Err(ContractError(InvalidAmount));
      }
      if user !in limits {
        return Ok(());
      }
      var limit := limits[user];
      if !limit.isActive {
        return Ok(());
      }

      var currentDaily := CounterOf(daily, (user, DayId(now)));
      var currentMonthly := CounterOf(monthly, (user, MonthId(now)));

      // The overflow checks and the two window checks; on a violation the
      // limit-exceeded notification is published and then rolled back with
      // the rest of the call.
      match CheckSpend(currentDaily, currentMonthly, amount, limit.monthlyLimit) {
        case Err(violation) => return Err(ContractError(violation));
        case Ok(_) =>
      }
      RecordSpend(user, now, amount);
      r := Ok(());
    }

    /** The writes of an accepted spend: `amount` added to the user's
        counters for the day and the month of `now`, and the new monthly
        total and month id recorded in the user's limit. The counters stay
        consistent because the day and the month are those of one instant. */
    method RecordSpend(user: Address, now: U64, amount: I128)
      requires Valid()
      requires user in limits && amount > 0
      requires CounterOf(daily, (user, DayId(now))) + amount <= I128_MAX
      requires CounterOf(monthly, (user, MonthId(now))) + amount <= I128_MAX
      modifies this
      ensures Valid()
      ensures var dayKey, monthKey := (user, DayId(now)), (user, MonthId(now));
        var newMonthly := CounterOf(old(monthly), monthKey) + amount;
        && daily == old(daily)[dayKey := CounterOf(old(daily), dayKey) + amount]
        && monthly == old(monthly)[monthKey := newMonthly]
        && limits == old(limits)[user := old(limits)[user].(currentSpending := newMonthly, updatedAt := MonthId(now))]
      ensures admin == old(admin) && lastBatchId == old(lastBatchId) && events == old(events)
      ensures totalLimitsUpdated == old(totalLimitsUpdated) && totalBatchesProcessed == old(totalBatchesProcessed)
    {
      var dailyKey, monthlyKey := (user, DayId(now)), (user, MonthId(now));
      var newDaily := CounterOf(daily, dailyKey) + amount;
      var newMonthly := CounterOf(monthly, monthlyKey) + amount;
      RecordSpendKeepsConsistent(daily, monthly, user, now, amount);
      daily := daily[dailyKey := newDaily];
      monthly := monthly[monthlyKey := newMonthly];
      limits := limits[user := limits[user].(currentSpending := newMonthly, updatedAt := MonthId(now))];
    }
  }

  /** Scenario: after initialisation, two batches run as ids 1 and 2, and a
      caller other than the admin is refused without a batch id being used. */
  method BatchIdScenario(admin: Address, other: Address, request: SpendingLimitRequest,
                         validate: SpendingLimitRequest -> Option<ErrorCode>)
    returns (first: U64, second: U64, refused: Result<BatchLimitResult, Abort<SpendingLimitError>>)
    requires other != admin
    ensures first == 1 && second == 2
    ensures refused == Err(ContractError(Unauthorized))
  {
    var c := new SpendingLimitsContract(10);
    var _ := c.Initialize(admin);
    assert c.BatchAbort(admin, [request], validate, 7) == None;
    var r1 := c.BatchUpdateSpendingLimits(admin, [request], validate, 7);
    first := r1.value.batchId;
    refused := c.BatchUpdateSpendingLimits(other, [request], validate, 8);
    assert c.BatchAbort(admin, [request, request], validate, 9) == None;
    var r2 := c.BatchUpdateSpendingLimits(admin, [request, request], validate, 9);
    second := r2.value.batchId;
  }

  /** Scenario: with no limit configured for a user, any positive spend is
      accepted and nothing is written. */
  method NoLimitScenario(admin: Address, user: Address, amount: I128, now: U64)
    returns (r: Result<(), Abort<SpendingLimitError>>)
    requires amount > 0
    ensures r == Ok(())
  {
    var c := new SpendingLimitsContract(10);
    var _ := c.Initialize(admin);
    r := c.EnforceSpendingLimit(user, amount, now);
  }
}
