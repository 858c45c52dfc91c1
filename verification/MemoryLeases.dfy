/**
 The in-memory lock and position service as a state machine: one step per
 command performed by the service goroutine, plus the steps of the clock and of
 the expiry timers.

 A lock object keeps its identity across renewals; `epoch` is that identity.
 An expiry timer goes through three stages: it is armed, it fires (and can then
 no longer be stopped), and its function queues an expiry operation.  The timer
 of an acquisition queues generation 0; the timer of a renewal reads the
 generation from its lock object when it queues.
 */
module MemoryLeases {
  import opened Wrappers
  import opened LockTypes

  datatype Lock = Lock(
    holder: string, acquiredAt: int, heartbeatAt: int, ttl: int,
    guaranteeUntil: int, heldUntil: int, epoch: nat, timer: nat)

  datatype Stage = Armed | Fired | Queued(generation: nat)

  datatype Timer = Timer(key: ConsumerKey, epoch: nat, due: int, readsLock: bool, stage: Stage)

  datatype State = State(
    now: int,
    locks: map<ConsumerKey, Lock>,
    generations: map<nat, nat>,
    positions: map<ConsumerKey, int>,
    timers: map<nat, Timer>,
    next: nat)

  function Initial(now: int): State {
    State(now, map[], map[], map[], map[], 0)
  }

  /** How often the lock object `epoch` has been renewed. */
  function Generation(s: State, epoch: nat): nat {
    if epoch in s.generations then s.generations[epoch] else 0
  }

  /** The generation a timer's expiry operation carries, or would carry if queued now. */
  function Carried(s: State, t: Timer): nat {
    match t.stage
    case Queued(g) => g
    case _ => if t.readsLock then Generation(s, t.epoch) else 0
  }

  predicate Held(s: State, key: ConsumerKey) {
    key in s.locks && s.now <= s.locks[key].heldUntil
  }

  predicate HeldBy(s: State, key: ConsumerKey, holder: string) {
    Held(s, key) && s.locks[key].holder == holder
  }

  function StoredPosition(positions: map<ConsumerKey, int>, key: ConsumerKey): int {
    if key in positions then positions[key] else 0
  }

  /** Stopping a timer only takes effect while it is armed. */
  function StopTimers(timers: map<nat, Timer>, ids: set<nat>): map<nat, Timer> {
    map id | id in timers && !(id in ids && timers[id].stage.Armed?) :: timers[id]
  }

  function TimersOf(locks: map<ConsumerKey, Lock>, keys: set<ConsumerKey>): set<nat> {
    set k | k in keys && k in locks :: locks[k].timer
  }

  /** The expired locks an acquisition of `key` may sweep from its stream. */
  function Sweepable(s: State, key: ConsumerKey): set<ConsumerKey> {
    set k | k in s.locks && k.domain == key.domain && k.stream == key.stream
            && k.consumer != key.consumer && s.locks[k].heldUntil < s.now
  }

  /** A sweep takes every expired lock, or as many as the limit allows. */
  ghost predicate ValidSweep(s: State, key: ConsumerKey, swept: set<ConsumerKey>) {
    swept <= Sweepable(s, key) && |swept| <= SWEEP_LIMIT && (swept == Sweepable(s, key) || |swept| == SWEEP_LIMIT)
  }

  predicate Refused(s: State, key: ConsumerKey, holder: string) {
    Held(s, key) && s.locks[key].holder != holder
  }

  function AcquireStep(s: State, key: ConsumerKey, holder: string, ttl: int, swept: set<ConsumerKey>): (State, Reply) {
    if ttl < LOCK_MINIMUM_TTL then
      (s, Failed(TTLTooLow))
    else if Refused(s, key, holder) then
      var l := s.locks[key];
      (s, Lease(LockResult(false, l.holder, l.guaranteeUntil, l.heldUntil, -1)))
    else
      var lock := Lock(holder, s.now, s.now, ttl, s.now + GuaranteePeriod(ttl), s.now + ttl, s.next, s.next);
      var timer := Timer(key, s.next, s.now + ttl, false, Armed);
      (s.(locks := (s.locks - swept)[key := lock],
          timers := StopTimers(s.timers, TimersOf(s.locks, swept))[s.next := timer],
          next := s.next + 1),
       Lease(LockResult(true, holder, lock.guaranteeUntil, lock.heldUntil, StoredPosition(s.positions, key))))
  }

  function HeartbeatStep(s: State, key: ConsumerKey, holder: string, position: int): (State, Reply) {
    if !Held(s, key) then
      (s, Failed(LockExpired))
    else if s.locks[key].holder != holder then
      (s, Failed(LockNotHeld))
    else if key in s.positions && position < s.positions[key] then
      (s, Failed(HeartbeatConflict(position, s.positions[key])))
    else
      var l := s.locks[key];
      var renewed := l.(heartbeatAt := s.now, guaranteeUntil := s.now + GuaranteePeriod(l.ttl),
                        heldUntil := s.now + l.ttl, timer := s.next);
      (s.(locks := s.locks[key := renewed],
          generations := s.generations[l.epoch := Generation(s, l.epoch) + 1],
          positions := s.positions[key := position],
          timers := StopTimers(s.timers, {l.timer})[s.next := Timer(key, l.epoch, s.now + l.ttl, true, Armed)],
          next := s.next + 1),
       Done)
  }

  function ReleaseStep(s: State, key: ConsumerKey, holder: string): (State, Reply) {
    if !Held(s, key) then
      (s, Done)
    else if s.locks[key].holder != holder then
      (s, Failed(LockNotHeld))
    else
      (s.(locks := s.locks - {key}, timers := StopTimers(s.timers, {s.locks[key].timer})), Done)
  }

  function SetPositionStep(s: State, key: ConsumerKey, eventID: int): (State, Reply) {
    if key in s.positions && eventID < s.positions[key] then
      (s, Failed(BackwardPosition(eventID, s.positions[key])))
    else
      (s.(positions := s.positions[key := eventID]),
       PositionSet(if key in s.positions then Some(s.positions[key]) else None, eventID))
  }

  function ClientStep(s: State, c: Command, swept: set<ConsumerKey>): (State, Reply) {
    match c
    case TryAcquire(key, holder, ttl) => AcquireStep(s, key, holder, ttl, swept)
    case Heartbeat(key, holder, position) => HeartbeatStep(s, key, holder, position)
    case Release(key, holder) => ReleaseStep(s, key, holder)
    case SetPosition(key, eventID) => SetPositionStep(s, key, eventID)
    case DeletePosition(key) => (s.(positions := s.positions - {key}), Done)
    case Submit(key, holder) => (s, if HeldBy(s, key, holder) then Done else Failed(LockNotHeld))
  }

  /** One step of the service: a client command, the clock, or a timer. */
  datatype Step =
    | Client(command: Command, swept: set<ConsumerKey>)
    | Advance(to: int)
    | Fire(id: nat)
    | Enqueue(id: nat)
    | Expire(id: nat)

  ghost predicate Enabled(s: State, step: Step) {
    match step
    case Client(c, swept) => c.TryAcquire? ==> ValidSweep(s, c.key, swept)
    case Advance(to) => s.now <= to
    case Fire(id) => id in s.timers && s.timers[id].stage.Armed? && s.timers[id].due <= s.now
    case Enqueue(id) => id in s.timers && s.timers[id].stage.Fired?
    case Expire(id) => id in s.timers && s.timers[id].stage.Queued?
  }

  /** Does the queued operation of timer `id` remove the lock of its consumer? */
  predicate Removes(s: State, id: nat)
    requires id in s.timers
  {
    var t := s.timers[id];
    t.key in s.locks && Generation(s, s.locks[t.key].epoch) == Carried(s, t)
  }

  function ExpireStep(s: State, id: nat): State
    requires id in s.timers
  {
    s.(timers := s.timers - {id},
       locks := if Removes(s, id) then s.locks - {s.timers[id].key} else s.locks)
  }

  function Next(s: State, step: Step): State {
    match step
    case Client(c, swept) => ClientStep(s, c, swept).0
    case Advance(to) => s.(now := to)
    case Fire(id) =>
      if id in s.timers then s.(timers := s.timers[id := s.timers[id].(stage := Fired)]) else s
    case Enqueue(id) =>
      if id in s.timers then
        s.(timers := s.timers[id := s.timers[id].(stage := Queued(Carried(s, s.timers[id])))])
      else s
    case Expire(id) => if id in s.timers then ExpireStep(s, id) else s
  }

  /** The next step of a timer on its way to being performed. */
  function TowardsExpiry(s: State, id: nat): Step
    requires id in s.timers
  {
    var t := s.timers[id];
    if s.now < t.due then Advance(t.due)
    else match t.stage case Armed => Fire(id) case Fired => Enqueue(id) case Queued(_) => Expire(id)
  }

  /** The state after the first `n` steps of a run. */
  function After(s: State, steps: seq<Step>, n: nat): State
    requires n <= |steps|
  {
    if n == 0 then s else Next(After(s, steps, n - 1), steps[n - 1])
  }

  ghost predicate IsRun(s: State, steps: seq<Step>) {
    forall i :: 0 <= i < |steps| ==> Enabled(After(s, steps, i), steps[i])
  }

  /** What every reachable state satisfies about locks, timers and identities. */
  ghost predicate Coherent(s: State) {
    && (forall id :: id in s.timers ==> id < s.next && s.timers[id].epoch < s.next)
    && (forall e :: e in s.generations ==> e < s.next)
    && (forall id :: id in s.timers && !s.timers[id].stage.Armed? ==> s.timers[id].due <= s.now)
    && (forall k :: k in s.locks ==> Guarded(s, k))
    && (forall id, k :: id in s.timers && k in s.locks && s.timers[id].epoch == s.locks[k].epoch ==> s.timers[id].key == k)
  }

  /** A lock's own latest timer is outstanding and carries the lock's generation. */
  ghost predicate Guarded(s: State, k: ConsumerKey)
    requires k in s.locks
  {
    var l := s.locks[k];
    && l.epoch < s.next
    && l.ttl >= LOCK_MINIMUM_TTL
    && l.timer in s.timers
    && s.timers[l.timer].key == k
    && s.timers[l.timer].epoch == l.epoch
    && s.timers[l.timer].due == l.heldUntil
    && Carried(s, s.timers[l.timer]) == Generation(s, l.epoch)
  }
}
