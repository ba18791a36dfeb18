/** The storage helpers of timelocked transactions: a counter that hands out
    ids, and the records kept under their ids. */
module Timelocks {
  import opened Host

  /** One transaction scheduled for later execution. */
  datatype TimelockedTx = TimelockedTx(
    id: U64,
    from: Address,
    to: Address,
    amount: I128,
    payload: Symbol,
    /** The token contract, or None for the native balance. */
    asset: Option<Address>,
    executeAt: U64,
    createdAt: U64,
    executed: bool,
    canceled: bool,
    executedAt: Option<U64>,
    canceledAt: Option<U64>)

  /** `TimelockError`, numbered 1 to 5. */
  datatype TimelockError = NotFound | AlreadyExecuted | AlreadyCanceled | EarlyExecution | InvalidScheduleTime
  {
    function Code(): U32 {
      match this
      case NotFound => 1
      case AlreadyExecuted => 2
      case AlreadyCanceled => 3
      case EarlyExecution => 4
      case InvalidScheduleTime => 5
    }
  }

  class TimelockStore {
    /** `NextTimelockId`: the last id handed out (0 when absent). */
    var nextTimelockId: U64
    /** `TimelockedTx(id)` records. */
    var timelocks: map<U64, TimelockedTx>

    /** Every record is stored under its own id. */
    ghost predicate Valid()
      reads this
    {
      forall id :: id in timelocks ==> timelocks[id].id == id
    }

    constructor ()
      ensures Valid()
      ensures nextTimelockId == 0 && timelocks == map[]
    {
      nextTimelockId := 0;
      timelocks := map[];
    }

    /** `next_timelock_id`: the stored counter plus one, which is stored;
        at u64::MAX the call aborts and nothing is written. */
    method NextTimelockId() returns (r: Result<U64, TimelockError>)
      requires Valid()
      modifies this
      ensures Valid()
      ensures timelocks == old(timelocks)
      ensures r.Err? <==> old(nextTimelockId) == U64_MAX
      ensures r.Err? ==> r.error == InvalidScheduleTime && nextTimelockId == old(nextTimelockId)
      ensures r.Ok? ==> r.value == old(nextTimelockId) + 1 == nextTimelockId
      // Ids only grow: a new id is above every id handed out before.
      ensures r.Ok? ==> r.value > old(nextTimelockId)
    {
      var current := nextTimelockId;
      if current + 1 > U64_MAX {
        return Err(InvalidScheduleTime);
      }
      var next := current + 1;
      nextTimelockId := next;
      r := Ok(next);
    }

    /** `save_timelock`: store `tx` under its id. */
    method SaveTimelock(tx: TimelockedTx)
      requires Valid()
      modifies this
      ensures Valid()
      ensures timelocks == old(timelocks)[tx.id := tx]
      ensures nextTimelockId == old(nextTimelockId)
    {
      timelocks := timelocks[tx.id := tx];
    }

    /** `get_timelock`: the record stored under `id`, if any. */
    function GetTimelock(id: U64): (r: Option<TimelockedTx>)
      reads this
      requires Valid()
      ensures r.Some? <==> id in timelocks
      ensures r.Some? ==> r.value == timelocks[id] && r.value.id == id
    {
      if id in timelocks then Some(timelocks[id]) else None
    }

    /** `update_timelock`: the same write as `save_timelock`, over the record
        already stored under `tx.id`; no other record changes. */
    method UpdateTimelock(tx: TimelockedTx)
      requires Valid()
      modifies this
      ensures Valid()
      ensures timelocks == old(timelocks)[tx.id := tx]
      ensures forall id :: id in old(timelocks) && id != tx.id ==> id in timelocks && timelocks[id] == old(timelocks)[id]
      ensures nextTimelockId == old(nextTimelockId)
    {
      SaveTimelock(tx);
    }
  }

  /** Round trip: after saving `tx`, reading its id gives `tx` back, and an
      id never saved reads as absent. */
  method SaveGetScenario(tx: TimelockedTx, other: U64) returns (saved: Option<TimelockedTx>, missing: Option<TimelockedTx>)
    requires other != tx.id
    ensures saved == Some(tx)
    ensures missing == None
  {
    var store := new TimelockStore();
    store.SaveTimelock(tx);
    saved := store.GetTimelock(tx.id);
    missing := store.GetTimelock(other);
  }

  /** Scenario: the first two ids are 1 and 2; with the counter at u64::MAX
      the next call fails with `InvalidScheduleTime` (code 5). */
  method IdScenario() returns (first: Result<U64, TimelockError>, second: Result<U64, TimelockError>,
                               exhausted: Result<U64, TimelockError>)
    ensures first == Ok(1) && second == Ok(2)
    ensures exhausted == Err(InvalidScheduleTime) && exhausted.error.Code() == 5
  {
    var store := new TimelockStore();
    first := store.NextTimelockId();
    second := store.NextTimelockId();
    // A long-lived store that has handed out every id below u64::MAX; reaching
    // it through 2^64 - 3 further calls is the same state.
    store.nextTimelockId := U64_MAX;
    exhausted := store.NextTimelockId();
  }
}
