/** The data model of the spending-limits contract: the stored limit, the
    requests and results of a batch update, its error codes and the
    notifications it publishes. */
module LimitTypes {
  import opened Host

  /** The contract's error codes (`SpendingLimitError`, numbered 1 to 8). */
  datatype SpendingLimitError =
    | NotInitialized
    | Unauthorized
    | InvalidBatch
    | EmptyBatch
    | BatchTooLarge
    | DailyLimitExceeded
    | MonthlyLimitExceeded
    | InvalidAmount
  {
    /** The number the host reports as `Error(Contract, #n)`. */
    function Code(): U32 {
      match this
      case NotInitialized => 1
      case Unauthorized => 2
      case InvalidBatch => 3
      case EmptyBatch => 4
      case BatchTooLarge => 5
      case DailyLimitExceeded => 6
      case MonthlyLimitExceeded => 7
      case InvalidAmount => 8
    }
  }

  /** A validation failure code for one request of a batch. The validator
      that produces it is not part of this model, so the code is opaque. */
  datatype ErrorCode = ErrorCode(code: U32)

  /** The limit stored for one principal. */
  datatype SpendingLimit = SpendingLimit(
    user: Address,
    monthlyLimit: I128,
    currentSpending: I128,
    category: Symbol,
    updatedAt: U64,
    isActive: bool)

  /** One item of a batch update. */
  datatype SpendingLimitRequest = SpendingLimitRequest(
    user: Address,
    monthlyLimit: I128,
    category: Symbol)

  /** The per-item outcome recorded in a batch result. */
  datatype LimitUpdateResult =
    | Success(limit: SpendingLimit)
    | Failure(user: Address, error: ErrorCode)

  datatype BatchLimitMetrics = BatchLimitMetrics(
    totalRequests: U32,
    successfulUpdates: U32,
    failedUpdates: U32,
    totalLimitsValue: I128,
    avgLimitAmount: I128,
    processedAt: U64)

  datatype BatchLimitResult = BatchLimitResult(
    batchId: U64,
    totalRequests: U32,
    successful: U32,
    failed: U32,
    results: seq<LimitUpdateResult>,
    metrics: BatchLimitMetrics)

  /** A new limit at or above this value also raises a high-value notification. */
  const HIGH_VALUE_LIMIT: int := 10_000_000_000_000_000

  /** The notifications the batch processor publishes. */
  datatype LimitEvent =
    | BatchStarted(batchId: U64, requestCount: U32)
    | LimitUpdated(batchId: U64, limit: SpendingLimit)
    | LimitUpdateFailed(batchId: U64, user: Address, error: ErrorCode)
    | HighValueLimit(batchId: U64, user: Address, monthlyLimit: I128)
    | BatchCompleted(batchId: U64, successful: U32, failed: U32, totalValue: I128)
}
