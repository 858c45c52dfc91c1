/**
 The vocabulary of the consumer lock service, shared by its in-memory and its
 PostgreSQL implementation: keys, results, errors, and the client commands.
 Instants and durations are nanoseconds.
 */
module LockTypes {
  import opened Wrappers

  datatype ConsumerKey = ConsumerKey(domain: string, stream: string, consumer: string)

  const LOCK_MINIMUM_TTL: int := 6_000_000_000

  /** How many expired locks one acquisition sweeps at most. */
  const SWEEP_LIMIT: nat := 128

  /** Nine tenths of a TTL, truncated: how long a renewal is guaranteed. */
  function GuaranteePeriod(ttl: int): int {
    ttl * 9 / 10
  }

  datatype LockResult = LockResult(
    acquired: bool, heldBy: string, guaranteeUntil: int, heldUntil: int, position: int)

  datatype LockError =
    | TTLTooLow
    | LockNotHeld
    | LockExpired
    | LockNotFound
    | HeartbeatConflict(target: int, current: int)
    | BackwardPosition(requested: int, current: int)
    | InvalidParameters
    | StreamNotFound

  /** What a client can ask of the lock and position service. */
  datatype Command =
    | TryAcquire(key: ConsumerKey, holder: string, ttl: int)
    | Heartbeat(key: ConsumerKey, holder: string, position: int)
    | Release(key: ConsumerKey, holder: string)
    | SetPosition(key: ConsumerKey, eventID: int)
    | DeletePosition(key: ConsumerKey)
    | Submit(key: ConsumerKey, holder: string)

  datatype Reply =
    | Lease(result: LockResult)
    | Done
    | PositionSet(previous: Option<int>, current: int)
    | Failed(error: LockError)
  {
    predicate Granted() {
      Lease? && result.acquired
    }
  }

  datatype LockReleased = LockReleased(key: ConsumerKey, holder: string)
}
