/**
 The PostgreSQL consumer store: locks and positions as tables, each operation one
 transaction at one instant.
 */
module ConsumerStore {
  import opened Wrappers
  import opened LockTypes

  datatype LockRow = LockRow(
    holder: string, acquiredAt: int, heartbeatAt: int, ttl: int, guaranteeUntil: int, heldUntil: int)

  datatype Tables = Tables(
    now: int,
    streams: set<(string, string)>,
    locks: map<ConsumerKey, LockRow>,
    positions: map<ConsumerKey, int>)

  predicate StreamExists(t: Tables, key: ConsumerKey) {
    (key.domain, key.stream) in t.streams
  }

  predicate Active(t: Tables, key: ConsumerKey) {
    key in t.locks && t.now < t.locks[key].heldUntil
  }

  /** The conflict clause of the acquiring upsert: expired, or already the caller's. */
  predicate MayTake(t: Tables, key: ConsumerKey, holder: string) {
    key in t.locks ==> t.locks[key].heldUntil < t.now || t.locks[key].holder == holder
  }

  function Sweepable(t: Tables, key: ConsumerKey): set<ConsumerKey> {
    set k | k in t.locks && k.domain == key.domain && k.stream == key.stream
            && k.consumer != key.consumer && t.locks[k].heldUntil < t.now
  }

  ghost predicate ValidSweep(t: Tables, key: ConsumerKey, swept: set<ConsumerKey>) {
    swept <= Sweepable(t, key) && |swept| <= SWEEP_LIMIT
  }

  /** As many expired rows as there are, or as the limit allows. */
  ghost predicate ThoroughSweep(t: Tables, key: ConsumerKey, swept: set<ConsumerKey>) {
    ValidSweep(t, key, swept) && (swept == Sweepable(t, key) || |swept| == SWEEP_LIMIT)
  }

  function AcquireTx(t: Tables, key: ConsumerKey, holder: string, ttl: int, swept: set<ConsumerKey>): (Tables, Reply) {
    var guaranteeUntil, heldUntil := t.now + GuaranteePeriod(ttl), t.now + ttl;
    if ttl < LOCK_MINIMUM_TTL then
      (t, Failed(TTLTooLow))
    else if !StreamExists(t, key) then
      (t, Failed(StreamNotFound))
    else if MayTake(t, key, holder) then
      (t.(locks := t.locks[key := LockRow(holder, t.now, t.now, ttl, guaranteeUntil, heldUntil)] - swept),
       Lease(LockResult(true, holder, guaranteeUntil, heldUntil, if key in t.positions then t.positions[key] else 0)))
    else
      (t, Lease(LockResult(false, if Active(t, key) then t.locks[key].holder else "", guaranteeUntil, heldUntil, -1)))
  }

  /** The error for a heartbeat that updated no row. */
  function ResolveLockError(row: Option<LockRow>, holder: string, now: int): LockError {
    match row
    case None => LockNotFound
    case Some(r) =>
      if r.holder != holder then LockNotHeld
      else if r.heldUntil < now then LockExpired
      else LockNotFound
  }

  function RowOf(t: Tables, key: ConsumerKey): Option<LockRow> {
    if key in t.locks then Some(t.locks[key]) else None
  }

  predicate Behind(t: Tables, key: ConsumerKey, position: int) {
    key in t.positions && position < t.positions[key]
  }

  function HeartbeatTx(t: Tables, key: ConsumerKey, holder: string, position: int): (Tables, Reply) {
    if !(Active(t, key) && t.locks[key].holder == holder) then
      (t, Failed(ResolveLockError(RowOf(t, key), holder, t.now)))
    else if Behind(t, key, position) then
      (t, Failed(HeartbeatConflict(position, t.positions[key])))
    else
      var r := t.locks[key];
      (t.(locks := t.locks[key := r.(heartbeatAt := t.now, guaranteeUntil := t.now + GuaranteePeriod(r.ttl),
                                     heldUntil := t.now + r.ttl)],
          positions := t.positions[key := position]),
       Done)
  }

  function ReleaseTx(t: Tables, key: ConsumerKey, holder: string): (Tables, Reply) {
    if key.domain == "" || key.stream == "" || key.consumer == "" || holder == "" then
      (t, Failed(InvalidParameters))
    else if !Active(t, key) then
      (t, Done)
    else if t.locks[key].holder != holder then
      (t, Failed(LockNotHeld))
    else
      (t.(locks := t.locks - {key}), Done)
  }

  function SetPositionTx(t: Tables, key: ConsumerKey, eventID: int): (Tables, Reply) {
    if !StreamExists(t, key) then
      (t, Failed(StreamNotFound))
    else if Behind(t, key, eventID) then
      (t, Failed(BackwardPosition(eventID, t.positions[key])))
    else
      (t.(positions := t.positions[key := eventID]),
       PositionSet(if key in t.positions then Some(t.positions[key]) else None, eventID))
  }

  function Execute(t: Tables, c: Command, swept: set<ConsumerKey>): (Tables, Reply) {
    match c
    case TryAcquire(key, holder, ttl) => AcquireTx(t, key, holder, ttl, swept)
    case Heartbeat(key, holder, position) => HeartbeatTx(t, key, holder, position)
    case Release(key, holder) => ReleaseTx(t, key, holder)
    case SetPosition(key, eventID) => SetPositionTx(t, key, eventID)
    case DeletePosition(key) => (t.(positions := t.positions - {key}), Done)
    case Submit(key, holder) =>
      (t, if Active(t, key) && t.locks[key].holder == holder then Done else Failed(LockNotHeld))
  }

  /** The releases a store command causes, to be announced on the bus. */
  function Releases(t: Tables, c: Command, swept: set<ConsumerKey>): multiset<LockReleased> {
    if c.Release? && Execute(t, c, swept).0 != t then multiset{LockReleased(c.key, c.holder)}
    else if c.TryAcquire? && Execute(t, c, swept).1.Granted() then
      multiset(set k | k in swept && k in t.locks :: LockReleased(k, t.locks[k].holder))
    else multiset{}
  }

  class Store {
    var now: int
    var streams: set<(string, string)>
    var locks: map<ConsumerKey, LockRow>
    var positions: map<ConsumerKey, int>

    function View(): (t: Tables)
      reads this
    {
      Tables(now, streams, locks, positions)
    }

    constructor (start: int, existing: set<(string, string)>)
      ensures View() == Tables(start, existing, map[], map[])
    {
      now, streams, locks, positions := start, existing, map[], map[];
    }

    /** Deletes up to 128 expired rows of the stream, sparing `key`; a failed statement deletes none. */
    method CleanExpiredLocks(key: ConsumerKey, fails: bool) returns (deleted: set<ConsumerKey>)
      modifies this`locks
      ensures if fails then deleted == {} else ThoroughSweep(old(View()), key, deleted)
      ensures locks == old(locks) - deleted
    {
      deleted := {};
      if fails {
        return;
      }
      var todo := Sweepable(View(), key);
      while todo != {} && |deleted| < SWEEP_LIMIT
        invariant deleted + todo == Sweepable(old(View()), key)
        invariant deleted !! todo && |deleted| <= SWEEP_LIMIT
        decreases todo
      {
        var k :| k in todo;
        todo := todo - {k};
        deleted := deleted + {k};
      }
      locks := locks - deleted;
    }

    method TryAcquire(key: ConsumerKey, holder: string, ttl: int, sweepFails: bool)
      returns (reply: Reply, swept: set<ConsumerKey>)
      modifies this`locks
      ensures (View(), reply) == AcquireTx(old(View()), key, holder, ttl, swept)
      ensures ValidSweep(old(View()), key, swept)
      ensures reply.Granted() && !sweepFails ==> ThoroughSweep(old(View()), key, swept)
    {
      swept := {};
      if ttl < LOCK_MINIMUM_TTL {
        return Failed(TTLTooLow), {};
      }
      if (key.domain, key.stream) !in streams {
        return Failed(StreamNotFound), {};
      }
      var guaranteeUntil := now + GuaranteePeriod(ttl);
      var heldUntil := now + ttl;
      if key !in locks || locks[key].heldUntil < now || locks[key].holder == holder {
        var acquired := LockRow(holder, now, now, ttl, guaranteeUntil, heldUntil);
        locks := locks[key := acquired];
        swept := CleanExpiredLocks(key, sweepFails);
        var position := if key in positions then positions[key] else 0;
        reply := Lease(LockResult(true, holder, guaranteeUntil, heldUntil, position));
      } else {
        var currentHolder := "";
        if locks[key].heldUntil > now {
          currentHolder := locks[key].holder;
        }
        reply := Lease(LockResult(false, currentHolder, guaranteeUntil, heldUntil, -1));
      }
    }

    /** Renews the row, then moves the position; a stale position rolls both back. */
    method HeartbeatWithPosition(key: ConsumerKey, holder: string, position: int) returns (reply: Reply)
      modifies this`locks, this`positions
      ensures (View(), reply) == HeartbeatTx(old(View()), key, holder, position)
    {
      var savedLocks := locks;
      var state := if key in locks then Some(locks[key]) else None;
      var updated := false;
      if key in locks && locks[key].holder == holder && locks[key].heldUntil > now {
        var row := locks[key];
        locks := locks[key := row.(heartbeatAt := now, guaranteeUntil := now + GuaranteePeriod(row.ttl),
                                   heldUntil := now + row.ttl)];
        updated := true;
      }
      if !updated {
        return Failed(ResolveLockError(state, holder, now));
      }
      if key in positions && positions[key] > position {
        locks := savedLocks;
        return Failed(HeartbeatConflict(position, positions[key]));
      }
      positions := positions[key := position];
      reply := Done;
    }

    method Release(key: ConsumerKey, holder: string) returns (reply: Reply)
      modifies this`locks
      ensures (View(), reply) == ReleaseTx(old(View()), key, holder)
    {
      if key.domain == "" || key.stream == "" || key.consumer == "" || holder == "" {
        return Failed(InvalidParameters);
      }
      if key !in locks || !(locks[key].heldUntil > now) {
        return Done;
      }
      if locks[key].holder != holder {
        return Failed(LockNotHeld);
      }
      locks := locks - {key};
      reply := Done;
    }

    method SetPosition(key: ConsumerKey, eventID: int) returns (reply: Reply)
      modifies this`positions
      ensures (View(), reply) == SetPositionTx(old(View()), key, eventID)
    {
      if (key.domain, key.stream) !in streams {
        return Failed(StreamNotFound);
      }
      var previous := if key in positions then Some(positions[key]) else None;
      if previous.Some? && !(previous.value <= eventID) {
        return Failed(BackwardPosition(eventID, previous.value));
      }
      positions := positions[key := eventID];
      reply := PositionSet(previous, eventID);
    }
  }
}
