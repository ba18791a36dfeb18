/** What one batch update does with its ordered requests, stated as functions
    of the results list: the per-item outcome, the counters, the saturating
    total and truncated mean, the limit writes and the notifications. The
    contract's loop is proved against these in module SpendingLimits. */
module LimitBatch {
  import opened Host
  import opened LimitTypes

  /** The outcome of one request. `validate` is the request validator (its
      body is not part of this model): None accepts the request, Some(code)
      rejects it with that code. */
  function Outcome(request: SpendingLimitRequest, validate: SpendingLimitRequest -> Option<ErrorCode>,
                   ledgerSequence: U64): (r: LimitUpdateResult)
    ensures r.Success? <==> validate(request).None?
    ensures r.Success? ==>
      && r.limit.user == request.user
      && r.limit.monthlyLimit == request.monthlyLimit
      && r.limit.category == request.category
      && r.limit.currentSpending == 0
      && r.limit.updatedAt == ledgerSequence
      && r.limit.isActive
    ensures r.Failure? ==> r.user == request.user && Some(r.error) == validate(request)
  {
    match validate(request)
    case None =>
      Success(SpendingLimit(request.user, request.monthlyLimit, 0, request.category, ledgerSequence, true))
    case Some(code) =>
      Failure(request.user, code)
  }

  /** The outcomes of a batch's requests, in request order. */
  function Outcomes(requests: seq<SpendingLimitRequest>, validate: SpendingLimitRequest -> Option<ErrorCode>,
                    ledgerSequence: U64): (results: seq<LimitUpdateResult>)
    ensures |results| == |requests|
  {
    if requests == [] then []
    else Outcomes(requests[..|requests| - 1], validate, ledgerSequence)
         + [Outcome(requests[|requests| - 1], validate, ledgerSequence)]
  }

  /** One more request processed appends its outcome. */
  lemma OutcomesExtend(requests: seq<SpendingLimitRequest>, i: nat,
                       validate: SpendingLimitRequest -> Option<ErrorCode>, ledgerSequence: U64)
    requires i < |requests|
    ensures Outcomes(requests[..i + 1], validate, ledgerSequence)
      == Outcomes(requests[..i], validate, ledgerSequence) + [Outcome(requests[i], validate, ledgerSequence)]
  {
    assert requests[..i + 1][..i] == requests[..i];
  }

  /** The result at each position is the outcome of the request at that
      position. */
  lemma {:induction false} OutcomesAt(requests: seq<SpendingLimitRequest>,
                                      validate: SpendingLimitRequest -> Option<ErrorCode>, ledgerSequence: U64)
    ensures forall k :: 0 <= k < |requests| ==>
      Outcomes(requests, validate, ledgerSequence)[k] == Outcome(requests[k], validate, ledgerSequence)
  {
    if requests != [] {
      var prefix := requests[..|requests| - 1];
      OutcomesAt(prefix, validate, ledgerSequence);
      forall k | 0 <= k < |requests|
        ensures Outcomes(requests, validate, ledgerSequence)[k] == Outcome(requests[k], validate, ledgerSequence)
      {
        if k < |prefix| {
          assert requests[k] == prefix[k];
        }
      }
    }
  }

  function SuccessCount(results: seq<LimitUpdateResult>): (n: nat)
    ensures n <= |results|
  {
    if results == [] then 0
    else SuccessCount(results[..|results| - 1]) + if results[|results| - 1].Success? then 1 else 0
  }

  function FailureCount(results: seq<LimitUpdateResult>): (n: nat)
    ensures n <= |results|
  {
    if results == [] then 0
    else FailureCount(results[..|results| - 1]) + if results[|results| - 1].Failure? then 1 else 0
  }

  /** Every request is counted exactly once, as a success or as a failure. */
  lemma {:induction false} CountsPartition(results: seq<LimitUpdateResult>)
    ensures SuccessCount(results) + FailureCount(results) == |results|
  {
    if results != [] {
      CountsPartition(results[..|results| - 1]);
    }
  }

  /** The accumulated total of the successful monthly limits, added left to
      right with `checked_add(..).unwrap_or(i128::MAX)`. */
  function TotalValue(results: seq<LimitUpdateResult>): I128
  {
    if results == [] then 0
    else
      var last := results[|results| - 1];
      var before := TotalValue(results[..|results| - 1]);
      if last.Success? then AddOrMax(before, last.limit.monthlyLimit) else before
  }

  /** The exact sum of the successful monthly limits. */
  function LimitSum(results: seq<LimitUpdateResult>): int
  {
    if results == [] then 0
    else
      var last := results[|results| - 1];
      LimitSum(results[..|results| - 1]) + if last.Success? then last.limit.monthlyLimit else 0
  }

  ghost predicate NonNegativeLimits(results: seq<LimitUpdateResult>)
  {
    forall i :: 0 <= i < |results| && results[i].Success? ==> results[i].limit.monthlyLimit >= 0
  }

  /** With non-negative limits (what the validator admits), the reported total
      is the sum of the successful limits clamped at i128::MAX. */
  lemma {:induction false} TotalValueIsClampedSum(results: seq<LimitUpdateResult>)
    requires NonNegativeLimits(results)
    ensures TotalValue(results) == if LimitSum(results) <= I128_MAX then LimitSum(results) else I128_MAX
    ensures TotalValue(results) >= 0
  {
    if results != [] {
      var prefix := results[..|results| - 1];
      assert NonNegativeLimits(prefix) by {
        forall i | 0 <= i < |prefix| && prefix[i].Success?
          ensures prefix[i].limit.monthlyLimit >= 0
        {
          assert prefix[i] == results[i];
        }
      }
      TotalValueIsClampedSum(prefix);
    }
  }

  /** The mean reported in the metrics: Rust's truncating `/`, 0 without successes. */
  function AverageLimit(total: I128, successful: U32): (avg: I128)
    ensures successful == 0 ==> avg == 0
    ensures successful > 0 && total >= 0 ==> avg * successful <= total < (avg + 1) * successful
  {
    if successful > 0 then TruncDiv(total, successful) else 0
  }

  /** The limit map after the writes of `results`, made in order. */
  function ApplyWrites(limits: map<Address, SpendingLimit>, results: seq<LimitUpdateResult>)
    : map<Address, SpendingLimit>
  {
    if results == [] then limits
    else
      var last := results[|results| - 1];
      var before := ApplyWrites(limits, results[..|results| - 1]);
      if last.Success? then before[last.limit.user := last.limit] else before
  }

  /** The limit of the last successful item for `user`, if any. */
  function LastSuccessFor(results: seq<LimitUpdateResult>, user: Address): Option<SpendingLimit>
  {
    if results == [] then None
    else
      var last := results[|results| - 1];
      if last.Success? && last.limit.user == user then Some(last.limit)
      else LastSuccessFor(results[..|results| - 1], user)
  }

  /** A later successful request for a user overwrites an earlier one, failed
      requests write nothing, and users the batch does not succeed for keep
      their stored limit (or stay without one). */
  lemma {:induction false} StoredAfterWrites(limits: map<Address, SpendingLimit>, results: seq<LimitUpdateResult>, user: Address)
    ensures LastSuccessFor(results, user).Some? ==>
      user in ApplyWrites(limits, results) && ApplyWrites(limits, results)[user] == LastSuccessFor(results, user).value
    ensures LastSuccessFor(results, user).None? ==>
      (user in ApplyWrites(limits, results) <==> user in limits)
      && (user in limits ==> ApplyWrites(limits, results)[user] == limits[user])
  {
    if results != [] {
      StoredAfterWrites(limits, results[..|results| - 1], user);
    }
  }

  /** Writes store each limit under its own user, so a map that keys every
      limit by its user still does after the writes. */
  lemma {:induction false} ApplyWritesKeyed(limits: map<Address, SpendingLimit>, results: seq<LimitUpdateResult>)
    requires forall u :: u in limits ==> limits[u].user == u
    ensures forall u :: u in ApplyWrites(limits, results) ==> ApplyWrites(limits, results)[u].user == u
  {
    if results != [] {
      ApplyWritesKeyed(limits, results[..|results| - 1]);
    }
  }

  /** The last success for a user is one of the results, made for that user,
      and no later result succeeds for that user. */
  lemma {:induction false} LastSuccessIsLatest(results: seq<LimitUpdateResult>, user: Address)
    requires LastSuccessFor(results, user).Some?
    ensures exists i :: (0 <= i < |results| && results[i] == Success(LastSuccessFor(results, user).value)
      && (forall j :: i < j < |results| ==> !(results[j].Success? && results[j].limit.user == user)))
    ensures LastSuccessFor(results, user).value.user == user
  {
    var n := |results| - 1;
    var last := results[n];
    if last.Success? && last.limit.user == user {
      assert results[n] == Success(LastSuccessFor(results, user).value);
    } else {
      var prefix := results[..n];
      LastSuccessIsLatest(prefix, user);
      var i :| 0 <= i < |prefix| && prefix[i] == Success(LastSuccessFor(prefix, user).value)
        && (forall j :: i < j < |prefix| ==> !(prefix[j].Success? && prefix[j].limit.user == user));
      assert results[i] == prefix[i];
      forall j | i < j < |results|
        ensures !(results[j].Success? && results[j].limit.user == user)
      {
        if j < n { assert results[j] == prefix[j]; }
      }
    }
  }

  /** The notifications for one item: an update (plus a high-value notice for
      a large limit) or a failure. */
  function ItemEvents(batchId: U64, result: LimitUpdateResult): (events: seq<LimitEvent>)
    ensures result.Failure? ==> events == [LimitUpdateFailed(batchId, result.user, result.error)]
    ensures result.Success? ==> |events| >= 1 && events[0] == LimitUpdated(batchId, result.limit)
    ensures result.Success? ==> |events| == if result.limit.monthlyLimit >= HIGH_VALUE_LIMIT then 2 else 1
    ensures result.Success? ==>
      (HighValueLimit(batchId, result.limit.user, result.limit.monthlyLimit) in events
       <==> result.limit.monthlyLimit >= HIGH_VALUE_LIMIT)
  {
    match result
    case Success(limit) =>
      [LimitUpdated(batchId, limit)]
      + if limit.monthlyLimit >= HIGH_VALUE_LIMIT then [HighValueLimit(batchId, limit.user, limit.monthlyLimit)] else []
    case Failure(user, code) =>
      [LimitUpdateFailed(batchId, user, code)]
  }

  /** The per-item notifications of a batch, in item order. */
  function BatchEvents(batchId: U64, results: seq<LimitUpdateResult>): seq<LimitEvent>
  {
    if results == [] then []
    else BatchEvents(batchId, results[..|results| - 1]) + ItemEvents(batchId, results[|results| - 1])
  }

  /** Appending one result extends every summary of a batch by that result
      alone: the counts, the running total, the writes and the notifications
      of the earlier results are untouched. */
  lemma {:induction false} AppendResult(limits: map<Address, SpendingLimit>, batchId: U64,
                                        results: seq<LimitUpdateResult>, r: LimitUpdateResult)
    ensures SuccessCount(results + [r]) == SuccessCount(results) + if r.Success? then 1 else 0
    ensures FailureCount(results + [r]) == FailureCount(results) + if r.Failure? then 1 else 0
    ensures TotalValue(results + [r]) ==
      if r.Success? then AddOrMax(TotalValue(results), r.limit.monthlyLimit) else TotalValue(results)
    ensures ApplyWrites(limits, results + [r]) ==
      if r.Success? then ApplyWrites(limits, results)[r.limit.user := r.limit] else ApplyWrites(limits, results)
    ensures BatchEvents(batchId, results + [r]) == BatchEvents(batchId, results) + ItemEvents(batchId, r)
  {
    assert (results + [r])[..|results|] == results;
  }

  /** An example validator: it rejects a request whose monthly limit is not
      positive, with code 1, and accepts every other request. */
  function RejectNonPositive(request: SpendingLimitRequest): (r: Option<ErrorCode>)
    ensures r.None? <==> request.monthlyLimit > 0
  {
    if request.monthlyLimit <= 0 then Some(ErrorCode(1)) else None
  }

  /** A validator that rejects every non-positive monthly limit lets only
      positive limits into the results, so the clamped-sum reading of the
      total (`TotalValueIsClampedSum`) applies to every batch it checks. */
  lemma {:induction false} OutcomesNonNegative(requests: seq<SpendingLimitRequest>,
                                               validate: SpendingLimitRequest -> Option<ErrorCode>,
                                               ledgerSequence: U64)
    requires forall q :: validate(q).None? ==> q.monthlyLimit > 0
    ensures NonNegativeLimits(Outcomes(requests, validate, ledgerSequence))
  {
    OutcomesAt(requests, validate, ledgerSequence);
  }

  /** A batch of three requests whose middle one asks for a zero limit,
      checked by `RejectNonPositive`: two successes, one failure carrying the
      validator's code for that request's user, a total of the two accepted
      limits, and the last accepted limit stored for each accepted user. */
  lemma {:induction false} MixedBatchScenario(u1: Address, u2: Address, u3: Address, category: Symbol, ledgerSequence: U64)
    ensures var requests := [SpendingLimitRequest(u1, 100, category), SpendingLimitRequest(u2, 0, category),
                             SpendingLimitRequest(u3, 200, category)];
            var results := Outcomes(requests, RejectNonPositive, ledgerSequence);
            && SuccessCount(results) == 2 && FailureCount(results) == 1
            && results[1] == Failure(u2, ErrorCode(1))
            && TotalValue(results) == 300
            && ApplyWrites(map[], results) == map[u1 := SpendingLimit(u1, 100, 0, category, ledgerSequence, true),
                                                  u3 := SpendingLimit(u3, 200, 0, category, ledgerSequence, true)]
  {
    var q1, q2, q3 := SpendingLimitRequest(u1, 100, category), SpendingLimitRequest(u2, 0, category),
                      SpendingLimitRequest(u3, 200, category);
    var s1 := SpendingLimit(u1, 100, 0, category, ledgerSequence, true);
    var s3 := SpendingLimit(u3, 200, 0, category, ledgerSequence, true);
    var r1, r2, r3 := Success(s1), Failure(u2, ErrorCode(1)), Success(s3);
    assert Outcomes([q1, q2, q3], RejectNonPositive, ledgerSequence) == [r1, r2, r3] by {
      assert [q1, q2, q3][..2] == [q1, q2] && [q1, q2][..1] == [q1] && [q1][..0] == [];
      assert Outcomes([q1], RejectNonPositive, ledgerSequence) == [r1];
      assert Outcomes([q1, q2], RejectNonPositive, ledgerSequence) == [r1, r2];
    }
    assert [r1, r2, r3][..2] == [r1, r2] && [r1, r2][..1] == [r1] && [r1][..0] == [];
    assert SuccessCount([r1, r2, r3]) == 2 && FailureCount([r1, r2, r3]) == 1 by {
      assert SuccessCount([r1, r2]) == 1 && FailureCount([r1, r2]) == 1;
    }
    assert TotalValue([r1, r2, r3]) == 300 by {
      assert TotalValue([r1]) == 100;
      assert TotalValue([r1, r2]) == TotalValue([r1]);
    }
    assert ApplyWrites(map[], [r1, r2, r3]) == map[u1 := s1, u3 := s3] by {
      assert ApplyWrites(map[], [r1]) == map[u1 := s1];
      assert ApplyWrites(map[], [r1, r2]) == ApplyWrites(map[], [r1]);
    }
  }

}
