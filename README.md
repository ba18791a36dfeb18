# Stellar spending contracts in Dafny

This project models six Soroban ledger-state contracts and proves properties about them:

- **Spending limits.** An admin bulk-updates per-user monthly limits in numbered batches. Invalid items fail on their own without aborting the batch. A separate call enforces each spend against a daily window and a 30-day monthly window. The daily cap is derived from the monthly cap.
- **Recurring payments.** Numbered payment schedules that anyone may execute once they are due. After an execution the schedule catches up to the first interval boundary after the ledger time.
- **Delegation allowances.** A delegate spends up to a limit on an owner's behalf. Consumption adds with saturation.
- **Fraud check.** Each user has a running total per day. A transaction is flagged when it is large on its own or when it takes that total over the daily maximum.
- **Timelock storage helpers.** An id counter that aborts on overflow, and the records stored under their ids.
- **Shared budgets.** Pools with members and spending rules. Contributions raise the balance and the total contributed. Members spend from the balance, subject to the rules.

Every contract is a `class` whose fields are its storage:

- Instance and persistent keys become fields of type `map` or counters.
- Every public call is a method that returns `Ok` with its writes made, or `Err` with the storage as it was. A Soroban host rolls back every write of an aborted call, so the model writes state only once every check that can abort has passed; the end state is the same.
- An error is either a contract error code (`panic_with_error!`, or an `Err` return) or a host panic (`panic!`, `expect`, an overflowing `+`). Both are reported in a `Result`.
- The ledger timestamp and sequence number are method parameters.
- Token transfers and published events are appended to ghost logs, so the contracts state which transfers and events a call makes.

Integers are `I128`, `U64` and `U32` subset types. Every overflow that can happen in the source is written out: `checked_add`, `unwrap_or(i128::MAX)`, or a panic. Rust's truncating `/` is `Host.TruncDiv`. The model assumes the contracts are built with overflow checks enabled, as Soroban release profiles are, so an overflowing plain `+` panics.

The loops of the source are `while`/`for` loops proved against specification functions:

- The batch loop (`SpendingLimits.ApplyRequests`) is proved against `LimitBatch.Outcomes`, `SuccessCount`, `FailureCount`, `TotalValue`, `ApplyWrites` and `BatchEvents`. Lemmas in `LimitBatch` then state what those functions mean: counts that partition the results, a clamped sum, last-writer-wins storage, and one outcome per request in order.
- The rule-percentage loop and the member-flag loop of `create_budget` are proved in the same way.
- The rule loop of `enforce_spending_rules` is proved against an existential over the rules.

To verify the project, run this from its directory:

```
dafny verify --resource-limit 2000000 --verification-time-limit 0 --warn-contradictory-assumptions *.dfy
```

## Model

| member | source | states |
|---|---|---|
| Host.CheckedAdd | contracts/spending-limits/src/lib.rs:311-316 | `checked_add`: a value exactly when the sum fits in i128, and then that sum |
| Host.AddOrMax | contracts/spending-limits/src/lib.rs:166-168 | `checked_add(..).unwrap_or(i128::MAX)` with a non-negative addend is the sum saturated at i128::MAX |
| Host.TruncDiv | contracts/spending-limits/src/lib.rs:207-211 | Rust's `/` rounds toward zero: `q*b <= a < (q+1)*b` for `a >= 0`, `(q-1)*b < a <= q*b` for `a < 0` |
| LedgerTime.DayId | contracts/spending-limits/src/lib.rs:298-301 | the day id is the whole number of 86 400-second days before the timestamp |
| LedgerTime.MonthId | contracts/spending-limits/src/lib.rs:298-302 | the month id is the whole number of 30-day months before the timestamp |
| LedgerTime.MonthOfDay | contracts/spending-limits/src/lib.rs:298-302 | a timestamp's month id is its day id divided by 30, so every day lies in exactly one month |
| LedgerTime.SameDaySameMonth | contracts/spending-limits/src/lib.rs:301-306 | two timestamps with the same day key use the same monthly counter |
| LimitWindows.DailyLimit | contracts/spending-limits/src/lib.rs:318-324 | the daily cap is 0 for a non-positive monthly cap, 1 below 30, and otherwise the floor of a thirtieth; a positive monthly cap gives a cap between 1 and the monthly cap |
| LimitWindows.CheckSpend | contracts/spending-limits/src/lib.rs:311-361 | a spend is accepted iff both new totals are within their caps, and then the totals are old + amount; a counter overflow is `InvalidBatch`; the daily violation takes precedence over the monthly one; all three error cases are stated as iffs |
| LimitWindows.DailyCapScenario | contracts/spending-limits/src/lib.rs:318-361 | a 300 monthly cap gives 10 a day; 5 is accepted and then 6 on the same day is a daily violation |
| LimitBatch.Outcome | contracts/spending-limits/src/lib.rs:153-202 | an item succeeds iff the validator accepts it; a success holds the request's user, limit and category, spending 0, `updated_at` = the ledger sequence, and active; a failure holds the user and the validator's code |
| LimitBatch.Outcomes | contracts/spending-limits/src/lib.rs:145-204 | the results list has exactly one entry per request |
| LimitBatch.OutcomesExtend | contracts/spending-limits/src/lib.rs:151-204 | processing one more request appends its outcome and leaves the earlier results as they were |
| LimitBatch.OutcomesAt | contracts/spending-limits/src/lib.rs:151-204 | result k is the outcome of request k, so results keep input order |
| LimitBatch.SuccessCount | contracts/spending-limits/src/lib.rs:146-169 | the success count never exceeds the number of results |
| LimitBatch.FailureCount | contracts/spending-limits/src/lib.rs:147-193 | the failure count never exceeds the number of results |
| LimitBatch.CountsPartition | contracts/spending-limits/src/lib.rs:145-221 | `successful + failed` equals the number of results, so every request is counted once |
| LimitBatch.TotalValueIsClampedSum | contracts/spending-limits/src/lib.rs:166-168 | with non-negative limits, the reported total is the exact sum of the successful limits clamped at i128::MAX, and it is never negative |
| LimitBatch.AverageLimit | contracts/spending-limits/src/lib.rs:207-211 | the mean is 0 without successes; otherwise, for a non-negative total, it is the floor of total / successful |
| LimitBatch.StoredAfterWrites | contracts/spending-limits/src/lib.rs:171-174 | after a batch, a user's stored limit is that of the user's last successful item; users with no success keep their old limit, or still have none |
| LimitBatch.ApplyWritesKeyed | contracts/spending-limits/src/lib.rs:172-174 | the batch writes store every limit under its own user |
| LimitBatch.LastSuccessIsLatest | contracts/spending-limits/src/lib.rs:151-189 | the winning limit is one of the results, made for that user, and no later item succeeds for that user |
| LimitBatch.ItemEvents | contracts/spending-limits/src/lib.rs:176-196 | a failure publishes exactly one failure notice; a success publishes an update first, plus a high-value notice iff the limit is at least 10^16 |
| LimitBatch.AppendResult | contracts/spending-limits/src/lib.rs:151-204 | one more result changes the counts, the saturating total, the writes and the notifications by that result alone |
| LimitBatch.MixedBatchScenario | contracts/spending-limits/src/lib.rs:151-204 | with a validator rejecting non-positive limits, requests for 100, 0 and 200 give 2 successes and 1 failure, the failure carries the second user and the code, the total is 300, and the first and third limits are stored |
| LimitBatch.OutcomesNonNegative | contracts/spending-limits/src/lib.rs:151-168 | when the validator accepts only positive monthly limits, every successful result has a non-negative limit, so the total is the clamped sum (`TotalValueIsClampedSum`) |
| SpendingLimits.RecordSpendKeepsConsistent | contracts/spending-limits/src/lib.rs:301-365 | adding an accepted spend to the counters of one instant keeps every counter non-negative and every day's total at most its month's total |
| SpendingLimits.ApplyRequest | contracts/spending-limits/src/lib.rs:153-202 | one loop step: the item's outcome; its limit written under its user exactly when it succeeds; its notifications |
| SpendingLimits.ApplyRequests | contracts/spending-limits/src/lib.rs:145-204 | the batch loop returns one outcome per request in order, the success and failure counts, the saturating total, the storage after the writes, and the notifications |
| SpendingLimits.RunBatch | contracts/spending-limits/src/lib.rs:145-221 | the loop followed by the metrics: the result carries the batch id, the request count, one outcome per request in order, the success and failure counts, and metrics with the clamped total, the truncated mean and the ledger sequence; the storage view is the writes applied in order, still keyed by user when the old storage was; the notifications are the per-item ones |
| SpendingLimits.SpendingLimitsContract.CommitBatch | contracts/spending-limits/src/lib.rs:223-254 | the writes of a completed batch keep the invariant: the limit storage the loop left, the new batch id, limits-updated + successful, batches + 1, and the start, per-item and completed notifications; admin and period counters unchanged |
| SpendingLimits.SpendingLimitsContract.Initialize | contracts/spending-limits/src/lib.rs:73-86 | panics if an admin is stored; otherwise stores the admin and zeroes the three counters |
| SpendingLimits.SpendingLimitsContract.RequireAdmin | contracts/spending-limits/src/lib.rs:431-441 | Ok iff the caller is the stored admin; the "not initialized" panic without an admin, `Unauthorized` for another caller |
| SpendingLimits.SpendingLimitsContract.SetAdmin | contracts/spending-limits/src/lib.rs:399-404 | only the stored admin may replace the admin, and nothing else changes |
| SpendingLimits.SpendingLimitsContract.GetAdmin | contracts/spending-limits/src/lib.rs:391-396 | returns the admin, which passes `require_admin`; panics when there is none |
| SpendingLimits.SpendingLimitsContract.GetSpendingLimit | contracts/spending-limits/src/lib.rs:384-388 | returns a limit iff one is stored for the user, and it is that user's limit |
| SpendingLimits.SpendingLimitsContract.GetLastBatchId | contracts/spending-limits/src/lib.rs:407-412 | the last batch id always equals the number of batches processed |
| SpendingLimits.SpendingLimitsContract.BatchUpdateSpendingLimits | contracts/spending-limits/src/lib.rs:112-263 | aborts with no writes iff the caller is not the admin, the batch is empty, the batch is too large, or a counter would overflow; otherwise returns one outcome per request in order, with counts and metrics (clamped total, truncated mean, ledger sequence); the batch id is the stored id + 1 and is stored; limits-updated grows by `successful`; batches grows by 1; the limits are the batch writes applied in order; the notifications are start, per item, completed |
| SpendingLimits.SpendingLimitsContract.EnforceSpendingLimit | contracts/spending-limits/src/lib.rs:275-374 | `InvalidAmount` for amount <= 0; no limit stored, or an inactive limit, accepts with no writes; otherwise the outcome of `CheckSpend` on the counters of the timestamp's day and month; on acceptance both counters grow by amount, and the limit's spending and `updated_at` become the new monthly total and the month id; on rejection nothing changes |
| SpendingLimits.SpendingLimitsContract.RecordSpend | contracts/spending-limits/src/lib.rs:362-372 | the writes of an accepted spend keep the invariant: both counters of the timestamp's day and month grow by the amount, the limit records the new monthly total and the month id, and nothing else changes |
| SpendingLimits.BatchIdScenario | contracts/spending-limits/src/lib.rs:118-136 | after initialisation, batches get ids 1 and 2, and a non-admin batch is refused with `Unauthorized` |
| SpendingLimits.NoLimitScenario | contracts/spending-limits/src/lib.rs:281-293 | a user without a configured limit may spend any positive amount |
| RecurringPayments.Reschedule | contracts/recurring-payment/src/lib.rs:98-109 | the next execution lies strictly after now and at most one interval past it, and is a boundary `next + k*interval` with k >= 1 |
| RecurringPayments.CatchUpBounds | contracts/recurring-payment/src/lib.rs:104-109 | the catch-up step `(gap/interval + 1)*interval` lands strictly past the gap and at most one interval past it |
| RecurringPayments.RescheduleIsLeast | contracts/recurring-payment/src/lib.rs:98-109 | the rescheduled time is the FIRST boundary after now: every boundary after now is at least that time |
| RecurringPayments.RescheduleScenarios | tests/recurring_tests.rs:101-159 | on time moves one interval; one full interval late moves two; overdue skips to the next future boundary |
| RecurringPayments.RecurringPaymentContract.CreatePayment | contracts/recurring-payment/src/lib.rs:27-73 | panics on amount <= 0, then on interval 0, then on counter overflow; otherwise stores an active schedule due at `start_time` under `count + 1`, which becomes the count, and publishes `created` |
| RecurringPayments.RecurringPaymentContract.ExecutePayment | contracts/recurring-payment/src/lib.rs:78-123 | panics if the payment is missing, then if it is inactive, then if it is too early, with nothing written; otherwise makes exactly one transfer of the amount from sender to recipient, and moves the schedule to `Reschedule(..)`, aborting iff that leaves u64 |
| RecurringPayments.RecurringPaymentContract.CancelPayment | contracts/recurring-payment/src/lib.rs:129-155 | panics if the payment is missing or already cancelled; otherwise clears only that schedule's `active` flag |
| RecurringPayments.RecurringPaymentContract.GetPayment | contracts/recurring-payment/src/lib.rs:161-166 | returns the stored schedule, which has a positive amount and interval; panics for id 0 or any id above the count |
| RecurringPayments.BasicFlowScenario | tests/recurring_tests.rs:27-78 | id 1; executing on time moves the schedule one interval on; a second cancel and a late execute are refused |
| RecurringPayments.IndependentPaymentsScenario | tests/recurring_tests.rs:290-346 | two schedules get ids 1 and 2; executing one and cancelling the other leave each other untouched |
| Delegations.DelegationContract.SetDelegation | contracts/delegation.rs:33-51 | `InvalidAddress` for self-delegation, then `InvalidAmount` for limit <= 0, with nothing written; otherwise sets the limit and keeps what was already drawn (0 for a new pair) |
| Delegations.DelegationContract.RevokeDelegation | contracts/delegation.rs:54-64 | removes exactly the pair's allowance; publishes only when one existed |
| Delegations.DelegationContract.ConsumeAllowance | contracts/delegation.rs:67-95 | `InvalidAmount`, then `Unauthorized` without an allowance; otherwise the drawn total becomes the saturating sum iff it stays within the limit, else `AmountTooLarge`; an accepted draw never leaves drawn above the limit; nothing changes on an error |
| Delegations.DelegationContract.GetDelegation | contracts/delegation.rs:98-101 | returns the pair's allowance iff one is stored; never for a self-pair |
| Delegations.AllowanceScenario | tests/delegation_tests.rs:10-111 | a 1000 allowance starts with nothing drawn; 500 is drawn; an overspend, a self-delegation and a stranger's draw are refused with codes 4, 1 and 3; after revocation nothing is stored |
| Delegations.LoweredLimitScenario | contracts/delegation.rs:43-47 | lowering the limit below what is drawn is accepted, and then every draw is refused |
| Delegations.SaturatedAllowanceScenario | contracts/delegation.rs:77-83 | with limit i128::MAX the drawn total saturates and further draws are accepted |
| Fraud.Reasons | contracts/fraud.rs:33-48 | "abnormal_size" iff amount >= threshold; "daily_limit" iff the new total > the daily maximum; in that order |
| Fraud.FraudContract.CheckTransaction | contracts/fraud.rs:28-55 | the day's total becomes prev + amount whether or not the transaction is flagged; flagged iff amount >= 10 000 or the new total > 100 000; an alert carrying the reasons is published iff flagged; the only failure is an overflowing total |
| Fraud.FraudContract.SetConfig | contracts/fraud.rs:58-60 | changes nothing |
| Fraud.FraudScenario | tests/fraud_tests.rs:7-49 | 20 000 is flagged for size; 5 000 is not flagged; 50 000 then 60 000 on one day, and the second is flagged for both reasons |
| Timelocks.TimelockStore.NextTimelockId | contracts/timelock.rs:100-114 | returns and stores the counter + 1, which is above every earlier id; at u64::MAX it fails with `InvalidScheduleTime` and nothing is written |
| Timelocks.TimelockStore.SaveTimelock | contracts/timelock.rs:116-120 | stores the record under its own id |
| Timelocks.TimelockStore.GetTimelock | contracts/timelock.rs:122-126 | returns a record iff one is stored under the id, and that record carries the id |
| Timelocks.TimelockStore.UpdateTimelock | contracts/timelock.rs:128-132 | overwrites only the record at `tx.id` |
| Timelocks.SaveGetScenario | contracts/timelock.rs:116-126 | reading back a saved record returns it; an id never saved reads as absent |
| Timelocks.IdScenario | contracts/timelock.rs:100-114 | the first ids are 1 and 2; at u64::MAX the call fails with code 5 |
| BudgetValidation.ValidateAmount | contracts/shared-budgets/src/validation.rs:6-11 | Ok iff the amount is positive, else "invalid_amount" |
| BudgetValidation.ValidatePercentage | contracts/shared-budgets/src/validation.rs:14-19 | Ok iff the percentage is at most 100, else "invalid_percentage" |
| BudgetValidation.ValidationBoundaries | contracts/shared-budgets/src/validation.rs:6-19 | 0 and 100 are valid percentages and 101 is not; 1 is a valid amount and 0 and -1 are not |
| SharedBudgets.AddMembersContents | contracts/shared-budgets/src/lib.rs:130-135 | after the member loop, a flag is set iff it was set before or names a listed member of the budget; other flags are untouched |
| SharedBudgets.NoContributionsBlocks | contracts/shared-budgets/src/lib.rs:419-428 | with nothing contributed, the threshold is 0, so a rule naming the spender without approval blocks every positive spend |
| SharedBudgets.EnforceSpendingRules | contracts/shared-budgets/src/lib.rs:415-431 | `Unauthorized` iff some rule names the spender, is exceeded by the amount, and does not ask for approval |
| SharedBudgets.CheckRulePercentages | contracts/shared-budgets/src/lib.rs:91-96 | Ok iff every rule's percentage passes `validate_percentage`, else `InvalidPercentage` |
| SharedBudgets.FlagMembers | contracts/shared-budgets/src/lib.rs:130-135 | the member loop sets the flag of each listed member, in order |
| SharedBudgets.SharedBudgetContract.Initialize | contracts/shared-budgets/src/lib.rs:60-68 | as written: panics if an admin is stored; otherwise stores the admin and resets both counters to 0, leaving the budgets stored |
| SharedBudgets.SharedBudgetContract.InitializeKeepingCounters | contracts/shared-budgets/src/lib.rs:60-68 | corrected: stores the admin and keeps the counters, preserving the storage invariant |
| SharedBudgets.SharedBudgetContract.RequireAdmin | contracts/shared-budgets/src/lib.rs:434-444 | Ok iff the caller is the stored admin; the "not initialized" panic without an admin, `Unauthorized` for another caller |
| SharedBudgets.SharedBudgetContract.SetAdmin | contracts/shared-budgets/src/lib.rs:391-396 | only the stored admin may replace the admin, and nothing else changes |
| SharedBudgets.SharedBudgetContract.GetAdmin | contracts/shared-budgets/src/lib.rs:383-388 | returns the admin, which passes `require_admin`; panics when there is none |
| SharedBudgets.SharedBudgetContract.CreateBudget | contracts/shared-budgets/src/lib.rs:71-141 | checks in order `TooManyMembers` (> 20), `TooManyRules` (> 10) and `InvalidPercentage` (> 100), with nothing written on an error; otherwise stores an active budget with zero balance and total under a fresh id = counter + 1, stores that counter, flags every listed member, and publishes `budget_created` |
| SharedBudgets.SharedBudgetContract.StoreBudget | contracts/shared-budgets/src/lib.rs:120-138 | the writes of a creation: the budget under a fresh id, the counter, one flag per listed member, the notification |
| SharedBudgets.SharedBudgetContract.FlagsAfterCreation | contracts/shared-budgets/src/lib.rs:130-135 | after creation, every flag still names a listed member of a stored budget, and every new member is flagged |
| SharedBudgets.SharedBudgetContract.ContributeToBudget | contracts/shared-budgets/src/lib.rs:144-206 | checks in order `InvalidAmount`, `BudgetNotFound` and `BudgetNotActive`, with nothing written on an error; otherwise transfers the amount in, raises the balance and the total contributed by it, and records contribution counter + 1; aborts iff an addition overflows |
| SharedBudgets.SharedBudgetContract.CreditBudget | contracts/shared-budgets/src/lib.rs:168-205 | the writes of a contribution, made iff neither the total nor the contribution counter overflows |
| SharedBudgets.SharedBudgetContract.SpendFromBudget | contracts/shared-budgets/src/lib.rs:209-267 | checks in order amount, budget exists, active, member (`MemberNotFound`), balance (`InsufficientBalance`) and rules (`Unauthorized`); Ok iff all pass; on success the balance drops by the amount, the total contributed is kept, and one transfer goes out; `0 <= balance <= total_contributed` is preserved |
| SharedBudgets.SharedBudgetContract.GetBudget | contracts/shared-budgets/src/lib.rs:359-364 | the stored budget, which carries its id and satisfies 0 <= balance <= total contributed; otherwise `BudgetNotFound` |
| SharedBudgets.SharedBudgetContract.IsBudgetMember | contracts/shared-budgets/src/lib.rs:367-372 | true only for a flag that was written, which names a listed member of a stored budget |
| SharedBudgets.SharedBudgetContract.GetContribution | contracts/shared-budgets/src/lib.rs:375-380 | the recorded contribution, for a stored budget and a positive amount; otherwise the code `RuleNotFound` |
| SharedBudgets.SharedBudgetContract.GetTotalBudgetsCreated | contracts/shared-budgets/src/lib.rs:399-404 | every budget id lies between 1 and the count |
| SharedBudgets.SharedBudgetContract.GetTotalContribsProcessed | contracts/shared-budgets/src/lib.rs:407-412 | every contribution id lies between 1 and the count |
| SharedBudgets.CreateBudgetScenario | contracts/shared-budgets/src/test.rs:67-102 | budgets get ids 1 and 2; a new budget is active and empty with the given name, creator and token; the listed members are flagged and a stranger is not |
| SharedBudgets.ContributeScenario | contracts/shared-budgets/src/test.rs:105-135 | contributing 100 000 000 raises the balance and the total alike and is recorded as contribution 1 |
| SharedBudgets.SpendScenario | contracts/shared-budgets/src/test.rs:138-164 | spending 50 000 000 of 100 000 000 leaves a balance of 50 000 000 and keeps the total |
| SharedBudgets.RefusedSpendScenario | contracts/shared-budgets/src/test.rs:271-316 | a non-member is refused with `MemberNotFound`, and an overdraft with `InsufficientBalance` |
| SharedBudgets.RuleScenario | contracts/shared-budgets/src/lib.rs:415-431 | before any contribution, a rule without approval blocks its member; a rule with approval, or one naming someone else, does not |
| SharedBudgets.ReinitializeScenario | contracts/shared-budgets/src/lib.rs:60-68 | as written, after a budget is created before `initialize`, the next id handed out is already taken |
| SharedBudgets.KeptCountersScenario | contracts/shared-budgets/src/lib.rs:60-68 | with the counters kept, creations get ids 1 and 2 and the first budget survives |

## Left out

- Host authorization (`require_auth`) is assumed to pass. The stored-admin check of `require_admin` is modelled.
- Token transfers are foreign calls into the token contract. They are recorded in a ghost log and assumed to succeed. A failed transfer (for example, an insufficient balance) would abort the call; that is not modelled.
- Event payloads and topics are not modelled. Each event is a datatype value in a ghost log.
- The `limit_exceeded` notice of `enforce_spending_limit` is not modelled: it is published just before the call aborts, so the host discards it with the rest of the call.
- The floating-point threshold of `enforce_spending_rules` (`total_contributed as f64 * pct / 100.0`, truncated) is not modelled. It is a function parameter `threshold(total, pct)`; the 0 used when nothing is contributed is modelled.
- `validate_limit_request` and the value of `MAX_BATCH_SIZE` are not part of this model. The validator is a function parameter returning an optional error code. `LimitBatch.RejectNonPositive` is an example validator used by a scenario; it is not the source's validator. The batch size is a positive constant of the contract, at most u32::MAX.
- The spending-limits `types.rs` and `validation.rs` files, and the recurring-payment `types.rs`, are not part of this model. Their records are rebuilt from their uses in the two `lib.rs` files.
- `add_member_to_budget` and the spending-rule code after it (contracts/shared-budgets/src/lib.rs:270-356) are not modelled. The body refers to variables and types that are not defined and does not compile.
- The allocation and rule events (contracts/shared-budgets/src/types.rs:99-129) are not modelled. They belong to that same broken code.
- `expense_incurred` is not modelled as a payload. `spend_from_budget` calls it but `types.rs` does not define it; the model logs an `ExpenseIncurred` value.
- The timelock notification helpers (contracts/timelock.rs:46-97) are not modelled. They only publish, and the schedule, execute and cancel code that calls them is not part of this model.
- contracts/metadata.rs is not part of this model; its size check depends on a serialisation library.
- The upgrade and deployment code and the test files are not modelled. The tests appear only as the scenarios above.
- Separate maps stand in for the `DataKey` variants of each contract. Writing one kind of key therefore never changes another, as distinct keys guarantee on the host.
- The getters `get_total_limits_updated` and `get_total_batches_processed` are plain field reads with no contract. The batch contract states what they return.
- The SpendingLimits.SpendingLimitsContract.EnforceSpendingLimit period counters follow the code: an overflowing counter aborts with `InvalidBatch`, where the written description of the system says it saturates.
- SpendingLimits.SpendingLimitsContract.BatchUpdateSpendingLimits can abort with an overflow panic when the cumulative limits-updated counter would pass u64::MAX, following the code; the written description says the batch never raises once its preconditions pass.
- Writes are made once every check that can abort has passed. In `batch_update_spending_limits`, `execute_payment` and `contribute_to_budget` the source writes or transfers earlier, but an abort rolls those writes back, so the final states agree.
- Delegations.DelegationContract.ConsumeAllowance keeps the source's saturation: with a limit of i128::MAX, an overflowing draw is accepted and leaves the drawn total at i128::MAX. `Delegations.SaturatedAllowanceScenario` shows this.

## Findings

| source | as written | input that shows it | evidently intended | confidence | as-written member | corrected member |
|---|---|---|---|---|---|---|
| contracts/shared-budgets/src/lib.rs:60-68 | `initialize` always sets `TotalBudgetsCreated` and `TotalContributionsProcessed` to 0. `create_budget` and `contribute_to_budget` do not require an admin. | Create a budget on a fresh contract (it gets id 1), then call `initialize`. The next `create_budget` is handed id 1 again and overwrites the first budget. | Initialisation should leave the counters as they are; they already read as 0 on a fresh contract. | medium, not executed | SharedBudgets.ReinitializeScenario | SharedBudgets.KeptCountersScenario |
