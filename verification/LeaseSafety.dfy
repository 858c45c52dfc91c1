/**
 Lease safety of the in-memory lock service: a lease is exclusive until its latest
 `heldUntil`, over runs of any length, as long as no expiry timer outstanding for its
 consumer can come due with the generation the lock then has.
 */
module LeaseSafety {
  import opened LockTypes
  import opened MemoryLeases
  import opened LeaseRuns

  /** `holder` has `key` through lock object `epoch`, and its time is not up. */
  predicate Leased(s: State, key: ConsumerKey, holder: string, epoch: nat) {
    && key in s.locks
    && s.locks[key].holder == holder
    && s.locks[key].epoch == epoch
    && s.now < s.locks[key].heldUntil
  }

  /** The holder neither releases nor acquires again. */
  predicate Respectful(step: Step, key: ConsumerKey, holder: string) {
    !(&& step.Client? && (step.command.Release? || step.command.TryAcquire?)
      && step.command.key == key && step.command.holder == holder)
  }

  ghost predicate RespectfulRun(s: State, steps: seq<Step>, key: ConsumerKey, holder: string) {
    && IsRun(s, steps)
    && forall i :: 0 <= i < |steps| ==> Respectful(steps[i], key, holder)
  }

  ghost predicate LeasedThrough(s: State, steps: seq<Step>, n: nat, key: ConsumerKey, holder: string, epoch: nat)
    requires n <= |steps|
  {
    forall i :: 0 <= i <= n ==> Leased(After(s, steps, i), key, holder, epoch)
  }

  /** Along the run the lease is lost, if at all, because the clock reached its deadline. */
  ghost predicate LostOnlyToClock(s: State, steps: seq<Step>, key: ConsumerKey, holder: string, epoch: nat) {
    forall n :: 0 <= n < |steps| && LeasedThrough(s, steps, n, key, holder, epoch) && !steps[n].Advance?
      ==> Leased(After(s, steps, n + 1), key, holder, epoch)
  }

  /** A timer of the current lock object that a renewal has replaced but could not stop. */
  predicate Replaced(s: State, key: ConsumerKey, id: nat)
    requires key in s.locks
  {
    id in s.timers && s.timers[id].epoch == s.locks[key].epoch && id != s.locks[key].timer
  }

  /** A replaced timer has come too late once it carries an earlier generation of its lock. */
  predicate Spent(s: State, key: ConsumerKey, id: nat)
    requires key in s.locks && id in s.timers
  {
    Carried(s, s.timers[id]) < Generation(s, s.locks[key].epoch)
  }

  ghost predicate ReplacedSpent(s: State, key: ConsumerKey)
    requires key in s.locks
  {
    forall id :: Replaced(s, key, id) ==> Spent(s, key, id)
  }

  predicate LeftBehind(s: State, key: ConsumerKey, id: nat)
    requires key in s.locks
  {
    id in s.timers && s.timers[id].key == key && s.timers[id].epoch != s.locks[key].epoch
  }

  /**
   The latest deadline a lock due at `heldUntil` can have after `d` more renewals,
   each at least one nanosecond before the deadline it replaces.
   */
  function LatestDeadline(heldUntil: int, ttl: int, d: nat): int
    decreases d
  {
    if d == 0 then heldUntil else LatestDeadline(heldUntil + ttl - 1, ttl, d - 1)
  }

  lemma {:induction false} LatestDeadlineGrows(heldUntil: int, ttl: int, d: nat)
    requires ttl >= 1
    ensures heldUntil <= LatestDeadline(heldUntil, ttl, d)
    decreases d
  {
    if d > 0 {
      LatestDeadlineGrows(heldUntil + ttl - 1, ttl, d - 1);
    }
  }

  lemma {:induction false} LatestDeadlineMonotone(h: int, h': int, ttl: int, d: nat)
    requires h <= h'
    ensures LatestDeadline(h, ttl, d) <= LatestDeadline(h', ttl, d)
    decreases d
  {
    if d > 0 {
      LatestDeadlineMonotone(h + ttl - 1, h' + ttl - 1, ttl, d - 1);
    }
  }

  /** An expiry operation due at `due` with generation `g` cannot hit this lock before its deadline. */
  predicate CannotHit(l: Lock, generation: nat, g: nat, due: int) {
    g < generation || LatestDeadline(l.heldUntil, l.ttl, g - generation) <= due
  }

  /** A timer left behind cannot hit the current lock before its deadline. */
  predicate Harmless(s: State, key: ConsumerKey, id: nat)
    requires key in s.locks && id in s.timers
  {
    CannotHit(s.locks[key], Generation(s, s.locks[key].epoch), Carried(s, s.timers[id]), s.timers[id].due)
  }

  ghost predicate TimersHarmless(s: State, key: ConsumerKey)
    requires key in s.locks
  {
    forall id :: LeftBehind(s, key, id) ==> Harmless(s, key, id)
  }

  ghost predicate SafeLease(s: State, key: ConsumerKey, holder: string, epoch: nat) {
    Coherent(s) && Leased(s, key, holder, epoch) && ReplacedSpent(s, key) && TimersHarmless(s, key)
  }

  /** Acquiring starts a lease on a new lock object that has a single timer. */
  lemma GrantStartsLease(s: State, key: ConsumerKey, holder: string, ttl: int, swept: set<ConsumerKey>)
    requires Coherent(s) && ValidSweep(s, key, swept)
    requires AcquireStep(s, key, holder, ttl, swept).1.Granted()
    ensures
      var s' := AcquireStep(s, key, holder, ttl, swept).0;
      Coherent(s') && Leased(s', key, holder, s.next) && ReplacedSpent(s', key)
  {
    AcquireKeepsCoherent(s, key, holder, ttl, swept);
  }

  /** While a lease lasts, no other holder acquires, renews, releases or submits. */
  lemma OthersAreTurnedAway(s: State, c: Command, swept: set<ConsumerKey>, key: ConsumerKey, holder: string, epoch: nat)
    requires Leased(s, key, holder, epoch)
    requires c.TryAcquire? || c.Heartbeat? || c.Release? || c.Submit?
    requires c.key == key && c.holder != holder
    ensures
      var (s', reply) := ClientStep(s, c, swept);
      s' == s && !reply.Granted() && (!c.TryAcquire? ==> reply == Failed(LockNotHeld))
  {
  }

  lemma RenewalCannotHit(l: Lock, l': Lock, generation: nat, g: nat, due: int)
    requires CannotHit(l, generation, g, due)
    requires l'.ttl == l.ttl && l'.heldUntil < l.heldUntil + l.ttl
    ensures CannotHit(l', generation + 1, g, due)
  {
    if generation + 1 <= g {
      LatestDeadlineMonotone(l'.heldUntil, l.heldUntil + l.ttl - 1, l.ttl, g - generation - 1);
    }
  }

  /** A heartbeat on another consumer's lock is a heartbeat on another lock object. */
  lemma LockObjectsDiffer(s: State, key: ConsumerKey, k: ConsumerKey)
    requires Coherent(s) && key in s.locks && k in s.locks && k != key
    ensures s.locks[k].epoch != s.locks[key].epoch
  {
    assert Guarded(s, key) && Guarded(s, k);
    assert s.timers[s.locks[k].timer].key == k;
  }

  lemma HeartbeatKeepsTimer(s: State, k: ConsumerKey, h: string, position: int, key: ConsumerKey, holder: string, epoch: nat)
    requires SafeLease(s, key, holder, epoch)
    ensures
      var s' := HeartbeatStep(s, k, h, position).0;
      Leased(s', key, holder, epoch) && ReplacedSpent(s', key)
  {
    hide TimersHarmless;
    var s' := HeartbeatStep(s, k, h, position).0;
    if k in s.locks && k != key {
      LockObjectsDiffer(s, key, k);
    }
    assert Guarded(s, key);
    forall id | Replaced(s', key, id)
      ensures Spent(s', key, id)
    {
      assert id in s.timers && s'.timers[id] == s.timers[id];
      assert Replaced(s, key, id) && Spent(s, key, id);
    }
  }

  lemma HeartbeatKeepsHarmless(s: State, k: ConsumerKey, h: string, position: int, key: ConsumerKey, holder: string, epoch: nat)
    requires SafeLease(s, key, holder, epoch)
    requires key in HeartbeatStep(s, k, h, position).0.locks
    ensures TimersHarmless(HeartbeatStep(s, k, h, position).0, key)
  {
    var s' := HeartbeatStep(s, k, h, position).0;
    if s' != s {
      if k != key {
        LockObjectsDiffer(s, key, k);
      }
      forall id | LeftBehind(s', key, id)
        ensures Harmless(s', key, id)
      {
        assert id in s.timers && LeftBehind(s, key, id);
        assert s.timers[id].epoch != s.locks[k].epoch;
        hide Coherent;
        var g := Carried(s, s.timers[id]);
        assert Carried(s', s'.timers[id]) == g;
        assert Harmless(s, key, id);
        if k == key {
          RenewalCannotHit(s.locks[key], s'.locks[key], Generation(s, epoch), g, s.timers[id].due);
        }
      }
    }
  }

  lemma HeartbeatKeepsLease(s: State, k: ConsumerKey, h: string, position: int, key: ConsumerKey, holder: string, epoch: nat)
    requires SafeLease(s, key, holder, epoch)
    ensures SafeLease(HeartbeatStep(s, k, h, position).0, key, holder, epoch)
  {
    hide HeartbeatStep, Coherent, TimersHarmless, ReplacedSpent;
    HeartbeatKeepsCoherent(s, k, h, position);
    HeartbeatKeepsTimer(s, k, h, position, key, holder, epoch);
    HeartbeatKeepsHarmless(s, k, h, position, key, holder, epoch);
  }

  /** What an acquisition does to another consumer's lock and to existing timers. */
  lemma AcquireEffect(s: State, k: ConsumerKey, h: string, ttl: int, swept: set<ConsumerKey>)
    ensures
      var s' := AcquireStep(s, k, h, ttl, swept).0;
      && s'.now == s.now && s'.generations == s.generations
      && (forall other :: other in s.locks && other !in swept && other != k ==> other in s'.locks && s'.locks[other] == s.locks[other])
      && (forall id :: id in s'.timers && id != s.next ==> id in s.timers && s'.timers[id] == s.timers[id])
      && (s.next in s'.timers ==> (s' == s || (s'.timers[s.next].key == k && s'.timers[s.next].epoch == s.next)))
  {
  }

  lemma AcquireKeepsTimers(s: State, k: ConsumerKey, h: string, ttl: int, swept: set<ConsumerKey>,
                           key: ConsumerKey, holder: string, epoch: nat)
    requires SafeLease(s, key, holder, epoch) && ValidSweep(s, k, swept)
    requires !(k == key && h == holder)
    ensures
      var s' := AcquireStep(s, k, h, ttl, swept).0;
      Leased(s', key, holder, epoch) && s'.locks[key] == s.locks[key] && s'.generations == s.generations
    ensures
      var s' := AcquireStep(s, k, h, ttl, swept).0;
      forall id :: id in s'.timers && (s'.timers[id].epoch == epoch || LeftBehind(s', key, id))
        ==> id in s.timers && s'.timers[id] == s.timers[id]
  {
    assert Guarded(s, key) && key !in swept && epoch < s.next;
    if k == key {
      assert AcquireStep(s, k, h, ttl, swept).0 == s;
    }
    AcquireEffect(s, k, h, ttl, swept);
    hide AcquireStep, Coherent, TimersHarmless, ReplacedSpent, ValidSweep;
  }

  lemma AcquireKeepsLease(s: State, k: ConsumerKey, h: string, ttl: int, swept: set<ConsumerKey>,
                          key: ConsumerKey, holder: string, epoch: nat)
    requires SafeLease(s, key, holder, epoch) && ValidSweep(s, k, swept)
    requires !(k == key && h == holder)
    ensures SafeLease(AcquireStep(s, k, h, ttl, swept).0, key, holder, epoch)
  {
    hide AcquireStep, Coherent, ValidSweep;
    var s' := AcquireStep(s, k, h, ttl, swept).0;
    AcquireKeepsCoherent(s, k, h, ttl, swept);
    AcquireKeepsTimers(s, k, h, ttl, swept, key, holder, epoch);
    forall id | Replaced(s', key, id)
      ensures Spent(s', key, id)
    {
      assert Replaced(s, key, id) && Spent(s, key, id);
    }
    forall id | LeftBehind(s', key, id)
      ensures Harmless(s', key, id)
    {
      assert LeftBehind(s, key, id) && Harmless(s, key, id);
    }
  }

  lemma ReleaseKeepsLease(s: State, k: ConsumerKey, h: string, key: ConsumerKey, holder: string, epoch: nat)
    requires SafeLease(s, key, holder, epoch)
    requires !(k == key && h == holder)
    ensures SafeLease(ReleaseStep(s, k, h).0, key, holder, epoch)
  {
    ReleaseKeepsCoherent(s, k, h);
    hide Coherent, SafeLease;
    FewerTimers(s, ReleaseStep(s, k, h).0, key, holder, epoch);
  }

  /** During a safe lease no expiry operation removes the lock. */
  lemma NoExpiryHits(s: State, id: nat, key: ConsumerKey, holder: string, epoch: nat)
    requires SafeLease(s, key, holder, epoch) && id in s.timers && s.timers[id].stage.Queued?
    requires s.timers[id].key == key
    ensures !Removes(s, id)
  {
    assert Guarded(s, key);
    if LeftBehind(s, key, id) {
      assert Harmless(s, key, id);
    } else if id != s.locks[key].timer {
      assert Replaced(s, key, id) && Spent(s, key, id);
    }
  }

  lemma ExpireKeepsLease(s: State, id: nat, key: ConsumerKey, holder: string, epoch: nat)
    requires SafeLease(s, key, holder, epoch) && Enabled(s, Expire(id))
    ensures SafeLease(ExpireStep(s, id), key, holder, epoch)
  {
    var s' := ExpireStep(s, id);
    TimerStepKeepsCoherent(s, Expire(id));
    hide Coherent;
    if s.timers[id].key == key {
      NoExpiryHits(s, id, key, holder, epoch);
    }
    assert s'.locks[key] == s.locks[key] && s'.generations == s.generations;
    assert forall other :: other in s'.timers ==> other in s.timers && s'.timers[other] == s.timers[other];
    FewerTimers(s, s', key, holder, epoch);
  }

  /** Timers going away, and other locks changing, leave a safe lease as it is. */
  lemma FewerTimers(s: State, s': State, key: ConsumerKey, holder: string, epoch: nat)
    requires SafeLease(s, key, holder, epoch) && Coherent(s') && s'.now == s.now
    requires key in s'.locks && s'.locks[key] == s.locks[key] && s'.generations == s.generations
    requires forall id :: id in s'.timers ==> id in s.timers && s'.timers[id] == s.timers[id]
    ensures SafeLease(s', key, holder, epoch)
  {
    hide Coherent;
    TimersUnchanged(s, s', key);
  }

  /** Which timers are harmless depends on what they carry and on the lock, nothing else. */
  lemma TimersUnchanged(s: State, s': State, key: ConsumerKey)
    requires key in s.locks && ReplacedSpent(s, key) && TimersHarmless(s, key)
    requires key in s'.locks && s'.locks[key] == s.locks[key] && s'.generations == s.generations
    requires forall id :: id in s'.timers ==>
               id in s.timers && SameAim(s'.timers[id], s.timers[id]) && Carried(s', s'.timers[id]) == Carried(s, s.timers[id])
    ensures ReplacedSpent(s', key) && TimersHarmless(s', key)
  {
    forall id | Replaced(s', key, id)
      ensures Spent(s', key, id)
    {
      assert Replaced(s, key, id) && Spent(s, key, id);
    }
    forall id | LeftBehind(s', key, id)
      ensures Harmless(s', key, id)
    {
      assert LeftBehind(s, key, id) && Harmless(s, key, id);
    }
  }

  predicate SameAim(t: Timer, u: Timer) {
    t.key == u.key && t.epoch == u.epoch && t.due == u.due
  }

  lemma FireKeepsLease(s: State, step: Step, key: ConsumerKey, holder: string, epoch: nat)
    requires SafeLease(s, key, holder, epoch) && Enabled(s, step)
    requires step.Fire? || step.Enqueue?
    ensures SafeLease(Next(s, step), key, holder, epoch)
  {
    TimerStepKeepsCoherent(s, step);
    StageEffect(s, step);
    hide Coherent, Next, Enabled, Carried;
    TimersUnchanged(s, Next(s, step), key);
  }

  /** Firing and queueing change a timer's stage and nothing it aims at or carries. */
  lemma StageEffect(s: State, step: Step)
    requires Enabled(s, step) && (step.Fire? || step.Enqueue?)
    ensures
      var s' := Next(s, step);
      && s'.now == s.now && s'.locks == s.locks && s'.generations == s.generations
      && (forall id :: id in s'.timers ==>
            && id in s.timers && SameAim(s'.timers[id], s.timers[id]) && Carried(s', s'.timers[id]) == Carried(s, s.timers[id])
            && (s'.timers[id].stage.Armed? ==> s.timers[id].stage.Armed?))
  {
  }

  /** Every respectful step but the clock's keeps a safe lease. */
  lemma StepKeepsLease(s: State, step: Step, key: ConsumerKey, holder: string, epoch: nat)
    requires SafeLease(s, key, holder, epoch) && Enabled(s, step) && Respectful(step, key, holder)
    ensures Leased(Next(s, step), key, holder, epoch) ==> SafeLease(Next(s, step), key, holder, epoch)
    ensures !step.Advance? ==> Leased(Next(s, step), key, holder, epoch)
  {
    var s' := Next(s, step);
    match step
    case Client(c, swept) =>
      match c {
        case TryAcquire(k, h, ttl) => AcquireKeepsLease(s, k, h, ttl, swept, key, holder, epoch);
        case Heartbeat(k, h, position) => HeartbeatKeepsLease(s, k, h, position, key, holder, epoch);
        case Release(k, h) => ReleaseKeepsLease(s, k, h, key, holder, epoch);
        case _ => QuietKeepsLease(s, s', key, holder, epoch);
      }
    case Advance(to) =>
      StepKeepsCoherent(s, step);
      if Leased(s', key, holder, epoch) {
        QuietKeepsLease(s, s', key, holder, epoch);
      }
    case Expire(id) => ExpireKeepsLease(s, id, key, holder, epoch);
    case _ => FireKeepsLease(s, step, key, holder, epoch);
  }

  lemma QuietKeepsLease(s: State, s': State, key: ConsumerKey, holder: string, epoch: nat)
    requires SafeLease(s, key, holder, epoch) && Leased(s', key, holder, epoch)
    requires s' == s.(positions := s'.positions, now := s'.now) && s.now <= s'.now
    ensures SafeLease(s', key, holder, epoch)
  {
    forall k | k in s'.locks
      ensures Guarded(s', k)
    {
      assert Guarded(s, k);
    }
    TimersUnchanged(s, s', key);
  }

  lemma {:induction false} SafeLeaseLasts(s: State, steps: seq<Step>, n: nat, key: ConsumerKey, holder: string, epoch: nat)
    requires SafeLease(s, key, holder, epoch) && RespectfulRun(s, steps, key, holder)
    requires n <= |steps| && LeasedThrough(s, steps, n, key, holder, epoch)
    ensures SafeLease(After(s, steps, n), key, holder, epoch)
  {
    hide SafeLease, Next, Enabled, Leased, Respectful;
    if n > 0 {
      assert Enabled(After(s, steps, n - 1), steps[n - 1]) && Respectful(steps[n - 1], key, holder);
      assert Leased(After(s, steps, n), key, holder, epoch);
      SafeLeaseLasts(s, steps, n - 1, key, holder, epoch);
      StepKeepsLease(After(s, steps, n - 1), steps[n - 1], key, holder, epoch);
    }
  }
}
