/**
 The limits of lease safety, exactly.

 Two kinds of timers can end a lease early.  Acquiring again as the same holder
 replaces the lock without stopping its timer, and generations restart at 0, so a
 timer left behind can come due with the new lock's generation.  And a renewal cannot
 stop a timer that has fired; one that has yet to read its lock's generation will read
 the renewed one.  A lease is secure if and only if there is no such timer.
 */
module LeaseLimits {
  import opened LockTypes
  import opened MemoryLeases
  import opened LeaseRuns
  import opened LeaseSafety

  /** A run along which a leased lock is removed early, by its last step. */
  ghost predicate Breaks(s: State, steps: seq<Step>, key: ConsumerKey, holder: string, epoch: nat) {
    && RespectfulRun(s, steps, key, holder)
    && |steps| > 0
    && LeasedThrough(s, steps, |steps| - 1, key, holder, epoch)
    && !steps[|steps| - 1].Advance?
    && key !in After(s, steps, |steps|).locks
  }

  lemma PrependStep(s: State, step: Step, rest: seq<Step>, i: nat)
    requires i <= |rest|
    ensures After(s, [step] + rest, i + 1) == After(Next(s, step), rest, i)
  {
    AfterConcat(s, [step], rest, i);
    assert After(s, [step], 1) == Next(After(s, [step], 0), step);
  }

  lemma PrependBreakAt(s: State, step: Step, rest: seq<Step>, i: nat, key: ConsumerKey, holder: string, epoch: nat)
    requires Leased(s, key, holder, epoch) && Enabled(s, step) && Respectful(step, key, holder)
    requires Breaks(Next(s, step), rest, key, holder, epoch) && i < |[step] + rest|
    ensures Enabled(After(s, [step] + rest, i), ([step] + rest)[i]) && Respectful(([step] + rest)[i], key, holder)
    ensures Leased(After(s, [step] + rest, i), key, holder, epoch)
  {
    hide Enabled, Next, Leased, Respectful;
    var steps, s' := [step] + rest, Next(s, step);
    if i == 0 {
      assert After(s, steps, 0) == s;
    } else {
      PrependStep(s, step, rest, i - 1);
      assert steps[i] == rest[i - 1];
      assert Enabled(After(s', rest, i - 1), rest[i - 1]) && Respectful(rest[i - 1], key, holder);
      assert Leased(After(s', rest, i - 1), key, holder, epoch);
      hide After;
    }
  }

  lemma PrependBreak(s: State, step: Step, rest: seq<Step>, key: ConsumerKey, holder: string, epoch: nat)
    requires Leased(s, key, holder, epoch) && Enabled(s, step) && Respectful(step, key, holder)
    requires Breaks(Next(s, step), rest, key, holder, epoch)
    ensures Breaks(s, [step] + rest, key, holder, epoch)
  {
    hide Enabled, Next, Leased, Respectful, After;
    var steps := [step] + rest;
    assert steps[|steps| - 1] == rest[|rest| - 1];
    forall i | 0 <= i < |steps|
      ensures Enabled(After(s, steps, i), steps[i]) && Respectful(steps[i], key, holder)
      ensures Leased(After(s, steps, i), key, holder, epoch)
    {
      PrependBreakAt(s, step, rest, i, key, holder, epoch);
    }
    PrependStep(s, step, rest, |rest|);
  }

  /** A timer about to come due with the generation of a leased lock, before its deadline. */
  ghost predicate Aimed(s: State, key: ConsumerKey, holder: string, epoch: nat, id: nat) {
    && Coherent(s) && Leased(s, key, holder, epoch)
    && id in s.timers && s.timers[id].key == key && s.timers[id].due < s.locks[key].heldUntil
    && Carried(s, s.timers[id]) == Generation(s, epoch)
  }

  lemma TimerStepKeepsAim(s: State, key: ConsumerKey, holder: string, epoch: nat, id: nat)
    requires Aimed(s, key, holder, epoch, id)
    ensures Enabled(s, TowardsExpiry(s, id))
    ensures
      var step := TowardsExpiry(s, id);
      if step.Expire? then key !in Next(s, step).locks else Aimed(Next(s, step), key, holder, epoch, id)
  {
    StepKeepsCoherent(s, TowardsExpiry(s, id));
    hide Coherent;
  }

  lemma {:induction false} AimedTimerBreaksLease(s: State, key: ConsumerKey, holder: string, epoch: nat, id: nat)
    returns (steps: seq<Step>)
    requires Aimed(s, key, holder, epoch, id)
    ensures Breaks(s, steps, key, holder, epoch)
    decreases s.timers[id].due > s.now,
              match s.timers[id].stage case Armed => 2 case Fired => 1 case Queued(_) => 0
  {
    var step := TowardsExpiry(s, id);
    TimerStepKeepsAim(s, key, holder, epoch, id);
    if step.Expire? {
      steps := [step];
      assert After(s, steps, 0) == s && After(s, steps, 1) == Next(s, step);
    } else {
      var rest := AimedTimerBreaksLease(Next(s, step), key, holder, epoch, id);
      PrependBreak(s, step, rest, key, holder, epoch);
      steps := [step] + rest;
    }
  }

  /** The current lock, and a timer left behind that can still hit it in time. */
  ghost predicate Endangered(s: State, key: ConsumerKey, holder: string, epoch: nat, id: nat) {
    Coherent(s) && Leased(s, key, holder, epoch) && LeftBehind(s, key, id) && !Harmless(s, key, id)
  }

  function RenewLast(s: State, key: ConsumerKey, holder: string): Step {
    Client(Heartbeat(key, holder, StoredPosition(s.positions, key)), {})
  }

  /** Waiting until the last instant and renewing then. */
  function Waited(s: State, key: ConsumerKey): State
    requires key in s.locks
  {
    s.(now := s.locks[key].heldUntil - 1)
  }

  lemma WaitingKeepsDanger(s: State, key: ConsumerKey, holder: string, epoch: nat, id: nat)
    requires Endangered(s, key, holder, epoch, id)
    ensures Enabled(s, Advance(s.locks[key].heldUntil - 1)) && Next(s, Advance(s.locks[key].heldUntil - 1)) == Waited(s, key)
    ensures Endangered(Waited(s, key), key, holder, epoch, id)
  {
    StepKeepsCoherent(s, Advance(s.locks[key].heldUntil - 1));
    hide Coherent;
  }

  /** What an accepted renewal does to its lock and to a timer of another lock object. */
  lemma RenewalEffect(s: State, key: ConsumerKey, holder: string, position: int, id: nat)
    requires Coherent(s) && HeldBy(s, key, holder) && (key in s.positions ==> s.positions[key] <= position)
    requires id in s.timers && s.timers[id].epoch != s.locks[key].epoch
    ensures
      var s' := HeartbeatStep(s, key, holder, position).0;
      var l := s.locks[key];
      && s'.now == s.now && key in s'.locks
      && s'.locks[key] == l.(heartbeatAt := s.now, guaranteeUntil := s.now + GuaranteePeriod(l.ttl), heldUntil := s.now + l.ttl, timer := s.next)
      && id in s'.timers && s'.timers[id] == s.timers[id] && Carried(s', s'.timers[id]) == Carried(s, s.timers[id])
      && Generation(s', l.epoch) == Generation(s, l.epoch) + 1
  {
    assert Guarded(s, key) && id < s.next;
    hide Coherent;
  }

  lemma LastRenewalKeepsDanger(s: State, key: ConsumerKey, holder: string, epoch: nat, id: nat)
    requires Endangered(s, key, holder, epoch, id) && s.now == s.locks[key].heldUntil - 1
    requires Generation(s, epoch) < Carried(s, s.timers[id])
    ensures
      var s' := HeartbeatStep(s, key, holder, StoredPosition(s.positions, key)).0;
      && Endangered(s', key, holder, epoch, id)
      && Carried(s', s'.timers[id]) == Carried(s, s.timers[id])
      && Generation(s', epoch) == Generation(s, epoch) + 1
  {
    hide HeartbeatStep, Generation, Carried, Coherent;
    HeartbeatKeepsCoherent(s, key, holder, StoredPosition(s.positions, key));
    RenewalEffect(s, key, holder, StoredPosition(s.positions, key), id);
    TtlIsLarge(s, key);
  }

  lemma TtlIsLarge(s: State, key: ConsumerKey)
    requires Coherent(s) && key in s.locks
    ensures s.locks[key].ttl >= LOCK_MINIMUM_TTL
  {
    assert Guarded(s, key);
  }

  /** A timer left behind that is not harmless can end the lease early. */
  lemma {:induction false} HarmfulTimerBreaksLease(s: State, key: ConsumerKey, holder: string, epoch: nat, id: nat)
    returns (steps: seq<Step>)
    requires Endangered(s, key, holder, epoch, id)
    ensures Breaks(s, steps, key, holder, epoch)
    decreases Carried(s, s.timers[id]) - Generation(s, epoch)
  {
    if Carried(s, s.timers[id]) == Generation(s, epoch) {
      steps := AimedTimerBreaksLease(s, key, holder, epoch, id);
    } else {
      hide Coherent, HeartbeatStep, Carried, Generation, Breaks;
      var wait, waited := Advance(s.locks[key].heldUntil - 1), Waited(s, key);
      WaitingKeepsDanger(s, key, holder, epoch, id);
      assert Carried(waited, waited.timers[id]) == Carried(s, s.timers[id]) && Generation(waited, epoch) == Generation(s, epoch) by {
        SameCounts(s, waited, epoch, id);
      }
      LastRenewalKeepsDanger(waited, key, holder, epoch, id);
      var renew := RenewLast(waited, key, holder);
      var rest := HarmfulTimerBreaksLease(Next(waited, renew), key, holder, epoch, id);
      PrependBreak(waited, renew, rest, key, holder, epoch);
      PrependBreak(s, wait, [renew] + rest, key, holder, epoch);
      steps := [wait] + ([renew] + rest);
    }
  }

  lemma SameCounts(s: State, s': State, epoch: nat, id: nat)
    requires s'.generations == s.generations && id in s.timers && id in s'.timers && s'.timers[id] == s.timers[id]
    ensures Carried(s', s'.timers[id]) == Carried(s, s.timers[id]) && Generation(s', epoch) == Generation(s, epoch)
  {
  }

  // Reachable states: what the replaced timers of a lock object can look like.

  /** A replaced timer is not armed any more and carries no generation to come. */
  ghost predicate ReplacedInOrder(s: State, key: ConsumerKey)
    requires key in s.locks
  {
    forall id :: Replaced(s, key, id) ==>
      !s.timers[id].stage.Armed? && Carried(s, s.timers[id]) <= Generation(s, s.locks[key].epoch)
  }

  ghost predicate Orderly(s: State) {
    Coherent(s) && forall k :: k in s.locks ==> ReplacedInOrder(s, k)
  }

  lemma AcquireKeepsOrderly(s: State, key: ConsumerKey, holder: string, ttl: int, swept: set<ConsumerKey>)
    requires Orderly(s) && ValidSweep(s, key, swept)
    ensures Orderly(AcquireStep(s, key, holder, ttl, swept).0)
  {
    var s' := AcquireStep(s, key, holder, ttl, swept).0;
    AcquireKeepsCoherent(s, key, holder, ttl, swept);
    AcquireEffect(s, key, holder, ttl, swept);
    if s' != s {
      forall k | k in s'.locks
        ensures ReplacedInOrder(s', k)
      {
        if k != key {
          assert Guarded(s, k) && ReplacedInOrder(s, k);
          AcquireOtherLock(s, key, holder, ttl, swept, k);
        } else {
          NewLockHasOneTimer(s, key, holder, ttl, swept);
        }
      }
    }
  }

  lemma NewLockHasOneTimer(s: State, key: ConsumerKey, holder: string, ttl: int, swept: set<ConsumerKey>)
    requires Coherent(s) && AcquireStep(s, key, holder, ttl, swept).1.Granted()
    ensures
      var s' := AcquireStep(s, key, holder, ttl, swept).0;
      key in s'.locks && s'.locks[key].epoch == s.next && forall id :: !Replaced(s', key, id)
  {
    AcquireEffect(s, key, holder, ttl, swept);
  }

  lemma AcquireOtherLock(s: State, key: ConsumerKey, holder: string, ttl: int, swept: set<ConsumerKey>, k: ConsumerKey)
    requires Coherent(s) && k in s.locks && Guarded(s, k) && ReplacedInOrder(s, k) && k != key
    requires k in AcquireStep(s, key, holder, ttl, swept).0.locks
    ensures ReplacedInOrder(AcquireStep(s, key, holder, ttl, swept).0, k)
  {
    var s' := AcquireStep(s, key, holder, ttl, swept).0;
    AcquireEffect(s, key, holder, ttl, swept);
    assert s'.locks[k] == s.locks[k];
    hide AcquireStep, Coherent;
    forall id | Replaced(s', k, id)
      ensures !s'.timers[id].stage.Armed? && Carried(s', s'.timers[id]) <= Generation(s', s'.locks[k].epoch)
    {
      assert s.next != s.locks[k].epoch;
      assert Replaced(s, k, id);
    }
  }

  lemma HeartbeatKeepsOrderly(s: State, key: ConsumerKey, holder: string, position: int)
    requires Orderly(s)
    ensures Orderly(HeartbeatStep(s, key, holder, position).0)
  {
    var s' := HeartbeatStep(s, key, holder, position).0;
    HeartbeatKeepsCoherent(s, key, holder, position);
    if s' != s {
      forall k | k in s'.locks
        ensures ReplacedInOrder(s', k)
      {
        assert Guarded(s, k) && ReplacedInOrder(s, k);
        if k != key {
          LockObjectsDiffer(s, key, k);
        }
        HeartbeatKeepsReplaced(s, key, holder, position, k);
      }
    }
  }

  lemma HeartbeatKeepsReplaced(s: State, key: ConsumerKey, holder: string, position: int, k: ConsumerKey)
    requires Coherent(s) && k in s.locks && ReplacedInOrder(s, k) && HeartbeatStep(s, key, holder, position).0 != s
    requires k != key ==> s.locks[k].epoch != s.locks[key].epoch
    ensures
      var s' := HeartbeatStep(s, key, holder, position).0;
      k in s'.locks && ReplacedInOrder(s', k)
  {
    var s' := HeartbeatStep(s, key, holder, position).0;
    assert Guarded(s, k) && Guarded(s, key);
    forall id | Replaced(s', k, id)
      ensures !s'.timers[id].stage.Armed? && Carried(s', s'.timers[id]) <= Generation(s', s'.locks[k].epoch)
    {
      assert id in s.timers && s'.timers[id] == s.timers[id];
      if id != s.locks[k].timer {
        assert Replaced(s, k, id);
      }
    }
  }

  lemma MovingOnKeepsOrderly(s: State, s': State)
    requires Orderly(s) && Coherent(s') && MovedOn(s, s')
    ensures Orderly(s')
  {
    hide Coherent;
    forall k | k in s'.locks
      ensures ReplacedInOrder(s', k)
    {
      assert ReplacedInOrder(s, k);
      forall id | Replaced(s', k, id)
        ensures !s'.timers[id].stage.Armed? && Carried(s', s'.timers[id]) <= Generation(s', s'.locks[k].epoch)
      {
        assert Replaced(s, k, id);
      }
    }
  }

  lemma StepKeepsOrderly(s: State, step: Step)
    requires Orderly(s) && Enabled(s, step)
    ensures Orderly(Next(s, step))
  {
    StepKeepsCoherent(s, step);
    hide Coherent;
    if step.Client? && step.command.TryAcquire? {
      AcquireKeepsOrderly(s, step.command.key, step.command.holder, step.command.ttl, step.swept);
    } else if step.Client? && step.command.Heartbeat? {
      HeartbeatKeepsOrderly(s, step.command.key, step.command.holder, step.command.position);
    } else {
      OtherStepMovesOn(s, step);
      hide Next, MovedOn;
      MovingOnKeepsOrderly(s, Next(s, step));
    }
  }

  /** Locks and timers of the one state are among those of the other, the timers no less advanced. */
  ghost predicate MovedOn(s: State, s': State) {
    && s'.generations == s.generations
    && (forall k :: k in s'.locks ==> k in s.locks && s'.locks[k] == s.locks[k])
    && (forall id :: id in s'.timers ==>
          && id in s.timers && SameAim(s'.timers[id], s.timers[id]) && Carried(s', s'.timers[id]) == Carried(s, s.timers[id])
          && (s'.timers[id].stage.Armed? ==> s.timers[id].stage.Armed?))
  }

  lemma ReleaseMovesOn(s: State, key: ConsumerKey, holder: string)
    ensures MovedOn(s, ReleaseStep(s, key, holder).0)
  {
  }

  lemma ExpiryMovesOn(s: State, id: nat)
    requires id in s.timers
    ensures MovedOn(s, ExpireStep(s, id))
  {
  }

  /** Every step but an acquisition and a heartbeat moves on. */
  lemma OtherStepMovesOn(s: State, step: Step)
    requires Enabled(s, step) && !(step.Client? && (step.command.TryAcquire? || step.command.Heartbeat?))
    ensures MovedOn(s, Next(s, step))
  {
    match step
    case Client(c, _) =>
      if c.Release? {
        hide ReleaseStep, MovedOn;
        ReleaseMovesOn(s, c.key, c.holder);
      }
    case Advance(_) =>
    case Expire(id) =>
      hide ExpireStep, MovedOn;
      ExpiryMovesOn(s, id);
    case _ =>
      StageEffect(s, step);
      hide Next, Carried;
  }

  /** Every state of every run is orderly. */
  lemma {:induction false} RunKeepsOrderly(s: State, steps: seq<Step>, n: nat)
    requires Orderly(s) && IsRun(s, steps) && n <= |steps|
    ensures Orderly(After(s, steps, n))
  {
    hide Orderly, Next, Enabled;
    if n > 0 {
      RunKeepsOrderly(s, steps, n - 1);
      StepKeepsOrderly(After(s, steps, n - 1), steps[n - 1]);
    }
  }

  /** In every continuation the lease is lost only to the clock. */
  ghost predicate Secure(s: State, key: ConsumerKey, holder: string, epoch: nat) {
    forall steps: seq<Step> :: RespectfulRun(s, steps, key, holder) ==> LostOnlyToClock(s, steps, key, holder, epoch)
  }

  /**
   Lease safety: from any reachable state on, every run in which the holder neither
   releases nor acquires again loses the lease only to the clock, if and only if every
   timer left behind by an earlier lock is harmless and every replaced one is spent.
   */
  lemma LeaseSafetyIff(s: State, key: ConsumerKey, holder: string, epoch: nat)
    requires Orderly(s) && Leased(s, key, holder, epoch)
    ensures Secure(s, key, holder, epoch) <==> TimersHarmless(s, key) && ReplacedSpent(s, key)
  {
    if TimersHarmless(s, key) && ReplacedSpent(s, key) {
      forall steps: seq<Step> | RespectfulRun(s, steps, key, holder)
        ensures LostOnlyToClock(s, steps, key, holder, epoch)
      {
        SafeLeaseOutlivesRun(s, steps, key, holder, epoch);
      }
    } else {
      var steps := UnsafeLeaseBreaks(s, key, holder, epoch);
      BreakIsNotClock(s, steps, key, holder, epoch);
    }
  }

  /** A grant starts a secure lease if and only if every timer left behind is harmless to the new lock. */
  lemma GrantIsSecureIff(s: State, key: ConsumerKey, holder: string, ttl: int, swept: set<ConsumerKey>)
    requires Orderly(s) && ValidSweep(s, key, swept)
    requires AcquireStep(s, key, holder, ttl, swept).1.Granted()
    ensures
      var s' := AcquireStep(s, key, holder, ttl, swept).0;
      key in s'.locks && (Secure(s', key, holder, s.next) <==> TimersHarmless(s', key))
  {
    AcquireKeepsOrderly(s, key, holder, ttl, swept);
    GrantStartsLease(s, key, holder, ttl, swept);
    hide Orderly, AcquireStep, ValidSweep, Secure, TimersHarmless, ReplacedSpent;
    LeaseSafetyIff(AcquireStep(s, key, holder, ttl, swept).0, key, holder, s.next);
  }

  lemma SafeLeaseOutlivesRun(s: State, steps: seq<Step>, key: ConsumerKey, holder: string, epoch: nat)
    requires SafeLease(s, key, holder, epoch) && RespectfulRun(s, steps, key, holder)
    ensures LostOnlyToClock(s, steps, key, holder, epoch)
  {
    hide SafeLease;
    forall n | 0 <= n < |steps| && LeasedThrough(s, steps, n, key, holder, epoch) && !steps[n].Advance?
      ensures Leased(After(s, steps, n + 1), key, holder, epoch)
    {
      SafeLeaseLasts(s, steps, n, key, holder, epoch);
      StepKeepsLease(After(s, steps, n), steps[n], key, holder, epoch);
    }
  }

  lemma UnsafeLeaseBreaks(s: State, key: ConsumerKey, holder: string, epoch: nat) returns (steps: seq<Step>)
    requires Orderly(s) && Leased(s, key, holder, epoch) && !(TimersHarmless(s, key) && ReplacedSpent(s, key))
    ensures Breaks(s, steps, key, holder, epoch)
  {
    if !TimersHarmless(s, key) {
      var id :| LeftBehind(s, key, id) && !Harmless(s, key, id);
      steps := HarmfulTimerBreaksLease(s, key, holder, epoch, id);
    } else {
      var id :| Replaced(s, key, id) && !Spent(s, key, id);
      UnspentIsAimed(s, key, holder, epoch, id);
      steps := AimedTimerBreaksLease(s, key, holder, epoch, id);
    }
  }

  lemma UnspentIsAimed(s: State, key: ConsumerKey, holder: string, epoch: nat, id: nat)
    requires Orderly(s) && Leased(s, key, holder, epoch) && Replaced(s, key, id) && !Spent(s, key, id)
    ensures Aimed(s, key, holder, epoch, id)
  {
    assert ReplacedInOrder(s, key) && Guarded(s, key);
  }

  lemma BreakIsNotClock(s: State, steps: seq<Step>, key: ConsumerKey, holder: string, epoch: nat)
    requires Breaks(s, steps, key, holder, epoch)
    ensures RespectfulRun(s, steps, key, holder) && !LostOnlyToClock(s, steps, key, holder, epoch)
  {
    hide After, IsRun, RespectfulRun, LeasedThrough;
    var n := |steps| - 1;
    assert LeasedThrough(s, steps, n, key, holder, epoch);
    assert !Leased(After(s, steps, n + 1), key, holder, epoch);
  }

  /** Acquiring again neither stops nor changes the timer of the lock it replaces. */
  lemma OldTimerStays(s: State, key: ConsumerKey, holder: string, ttl: int, swept: set<ConsumerKey>)
    requires Coherent(s) && ValidSweep(s, key, swept) && HeldBy(s, key, holder) && LOCK_MINIMUM_TTL <= ttl
    ensures
      var s' := AcquireStep(s, key, holder, ttl, swept).0;
      var id := s.locks[key].timer;
      && id in s.timers && s.timers[id].key == key && s.timers[id].epoch < s.next && s.timers[id].due == s.locks[key].heldUntil
      && id in s'.timers && s'.timers[id] == s.timers[id]
  {
    assert Guarded(s, key);
    assert forall k :: k in swept && k in s.locks ==> Guarded(s, k);
    assert s.locks[key].timer < s.next && key !in swept;
    hide Coherent;
    assert s.locks[key].timer !in TimersOf(s.locks, swept);
  }

  lemma OldTimerEndangersNewLease(s: State, key: ConsumerKey, holder: string, ttl: int, swept: set<ConsumerKey>)
    requires Coherent(s) && ValidSweep(s, key, swept) && HeldBy(s, key, holder)
    requires LOCK_MINIMUM_TTL <= ttl && s.locks[key].heldUntil < s.now + ttl
    ensures Endangered(AcquireStep(s, key, holder, ttl, swept).0, key, holder, s.next, s.locks[key].timer)
  {
    var s' := AcquireStep(s, key, holder, ttl, swept).0;
    GrantStartsLease(s, key, holder, ttl, swept);
    OldTimerStays(s, key, holder, ttl, swept);
    assert s'.locks[key].epoch == s.next && s'.locks[key].heldUntil == s.now + ttl && s'.locks[key].ttl == ttl;
    assert Generation(s', s.next) == 0;
    hide Coherent, AcquireStep, ValidSweep, Generation, Carried;
    LatestDeadlineGrows(s'.locks[key].heldUntil, ttl, Carried(s', s'.timers[s.locks[key].timer]));
  }

  /**
   A holder that acquires again before its lock expires, for a later deadline,
   can lose the new lease early: the first lock's timer keeps running and its
   operation removes the second lock.
   */
  lemma ReacquiringEndangersLease(s: State, key: ConsumerKey, holder: string, ttl: int, swept: set<ConsumerKey>)
    returns (steps: seq<Step>)
    requires Coherent(s) && ValidSweep(s, key, swept) && HeldBy(s, key, holder)
    requires LOCK_MINIMUM_TTL <= ttl && s.locks[key].heldUntil < s.now + ttl
    ensures Breaks(AcquireStep(s, key, holder, ttl, swept).0, steps, key, holder, s.next)
  {
    OldTimerEndangersNewLease(s, key, holder, ttl, swept);
    var s' := AcquireStep(s, key, holder, ttl, swept).0;
    steps := HarmfulTimerBreaksLease(s', key, holder, s.next, s.locks[key].timer);
  }

  // Renewals, and the timers they can no longer stop.

  /** A timer of the current lock object. */
  predicate OwnTimer(s: State, key: ConsumerKey, id: nat)
    requires key in s.locks
  {
    id in s.timers && s.timers[id].epoch == s.locks[key].epoch
  }

  /** It has fired, so that nothing stops it, and has yet to read its lock's generation. */
  predicate AboutToRead(t: Timer) {
    t.stage.Fired? && t.readsLock
  }

  predicate Accepts(s: State, key: ConsumerKey, holder: string, position: int) {
    HeldBy(s, key, holder) && (key in s.positions ==> s.positions[key] <= position)
  }

  /** The timer a renewal replaces will still hit the renewed lock if and only if it has fired and not yet read. */
  lemma OldTimerTurnsOnRenewalIff(s: State, key: ConsumerKey, holder: string, position: int)
    requires Coherent(s) && Accepts(s, key, holder, position)
    ensures
      var s', id := HeartbeatStep(s, key, holder, position).0, s.locks[key].timer;
      id in s'.timers && Carried(s', s'.timers[id]) == Generation(s', s.locks[key].epoch) <==> AboutToRead(s.timers[id])
  {
    assert Guarded(s, key);
  }

  /** What a renewal leaves of its lock object's timers. */
  lemma ReplacedByRenewal(s: State, key: ConsumerKey, holder: string, position: int, id: nat)
    requires Orderly(s) && Accepts(s, key, holder, position)
    ensures
      var s' := HeartbeatStep(s, key, holder, position).0;
      && key in s'.locks && s'.locks[key].epoch == s.locks[key].epoch
      && (OwnTimer(s, key, id) && AboutToRead(s.timers[id]) ==> Replaced(s', key, id) && !Spent(s', key, id))
      && (Replaced(s', key, id) ==> OwnTimer(s, key, id) && (Spent(s', key, id) || AboutToRead(s.timers[id])))
  {
    assert Guarded(s, key) && ReplacedInOrder(s, key);
    assert OwnTimer(s, key, id) ==> id < s.next;
    hide Coherent;
    if OwnTimer(s, key, id) && id != s.locks[key].timer {
      assert Replaced(s, key, id);
    }
  }

  /**
   A renewal, at or before its deadline, starts a secure lease if and only if every timer
   left behind is harmless to it and no timer of the lock has fired without having read
   the lock's generation.
   */
  lemma RenewalIsSecureIff(s: State, key: ConsumerKey, holder: string, position: int)
    requires Orderly(s) && Accepts(s, key, holder, position)
    ensures
      var s' := HeartbeatStep(s, key, holder, position).0;
      && key in s'.locks
      && (Secure(s', key, holder, s.locks[key].epoch) <==>
          TimersHarmless(s', key) && forall id :: OwnTimer(s, key, id) ==> !AboutToRead(s.timers[id]))
  {
    var s' := HeartbeatStep(s, key, holder, position).0;
    HeartbeatKeepsOrderly(s, key, holder, position);
    TtlIsLarge(s, key);
    assert Leased(s', key, holder, s.locks[key].epoch);
    hide Orderly, HeartbeatStep, AboutToRead, OwnTimer, Replaced, Spent, Secure, TimersHarmless;
    LeaseSafetyIff(s', key, holder, s.locks[key].epoch);
    forall id
      ensures OwnTimer(s, key, id) && AboutToRead(s.timers[id]) ==> Replaced(s', key, id) && !Spent(s', key, id)
      ensures Replaced(s', key, id) ==> OwnTimer(s, key, id) && (Spent(s', key, id) || AboutToRead(s.timers[id]))
    {
      ReplacedByRenewal(s, key, holder, position, id);
    }
  }

  /**
   A renewal at the very instant of the deadline is accepted, and undone when
   the timer that has already fired reads the renewed generation.
   */
  lemma RenewalAtDeadlineIsUndone(s: State, key: ConsumerKey, holder: string, position: int)
    requires Coherent(s) && Accepts(s, key, holder, position) && s.now == s.locks[key].heldUntil
    requires AboutToRead(s.timers[s.locks[key].timer])
    ensures
      var id := s.locks[key].timer;
      var (renewed, reply) := HeartbeatStep(s, key, holder, position);
      var queued := Next(renewed, Enqueue(id));
      && reply == Done && Leased(renewed, key, holder, s.locks[key].epoch)
      && Enabled(renewed, Enqueue(id)) && Enabled(queued, Expire(id))
      && key !in Next(queued, Expire(id)).locks
  {
    assert Guarded(s, key);
    HeartbeatKeepsCoherent(s, key, holder, position);
  }

  /** The run of a holder that acquires, renews once, and reaches its deadline after the timer fired. */
  function DeadlineSteps(key: ConsumerKey, holder: string, ttl: int): seq<Step> {
    [Client(TryAcquire(key, holder, ttl), {}), Client(Heartbeat(key, holder, 0), {}), Advance(ttl), Fire(1)]
  }

  /** The lock of that run after its renewal, and its states, step by step. */
  function RenewedLock(holder: string, ttl: int): Lock {
    Lock(holder, 0, 0, ttl, GuaranteePeriod(ttl), ttl, 0, 1)
  }

  function DeadlineStates(key: ConsumerKey, holder: string, ttl: int): seq<State> {
    [Initial(0),
     State(0, map[key := RenewedLock(holder, ttl).(timer := 0)], map[], map[], map[0 := Timer(key, 0, ttl, false, Armed)], 1),
     State(0, map[key := RenewedLock(holder, ttl)], map[0 := 1], map[key := 0], map[1 := Timer(key, 0, ttl, true, Armed)], 2),
     State(ttl, map[key := RenewedLock(holder, ttl)], map[0 := 1], map[key := 0], map[1 := Timer(key, 0, ttl, true, Armed)], 2),
     State(ttl, map[key := RenewedLock(holder, ttl)], map[0 := 1], map[key := 0], map[1 := Timer(key, 0, ttl, true, Fired)], 2)]
  }

  lemma DeadlineStep(key: ConsumerKey, holder: string, ttl: int, i: nat)
    requires ttl >= LOCK_MINIMUM_TTL && i < 4
    ensures Enabled(DeadlineStates(key, holder, ttl)[i], DeadlineSteps(key, holder, ttl)[i])
    ensures Next(DeadlineStates(key, holder, ttl)[i], DeadlineSteps(key, holder, ttl)[i]) == DeadlineStates(key, holder, ttl)[i + 1]
  {
    if i == 0 {
      assert Sweepable(Initial(0), key) == {};
    }
  }

  lemma {:induction false} DeadlineRun(key: ConsumerKey, holder: string, ttl: int, n: nat)
    requires ttl >= LOCK_MINIMUM_TTL && n <= 4
    ensures After(Initial(0), DeadlineSteps(key, holder, ttl), n) == DeadlineStates(key, holder, ttl)[n]
  {
    hide Next, Enabled;
    if n > 0 {
      DeadlineRun(key, holder, ttl, n - 1);
      DeadlineStep(key, holder, ttl, n - 1);
    }
  }

  /** A run from an empty service to a state where a renewal is accepted at the deadline and undone. */
  lemma DeadlineIsReached(key: ConsumerKey, holder: string, ttl: int)
    requires ttl >= LOCK_MINIMUM_TTL
    ensures
      var steps := DeadlineSteps(key, holder, ttl);
      var s := After(Initial(0), steps, 4);
      && IsRun(Initial(0), steps)
      && Orderly(s) && Accepts(s, key, holder, 0) && s.now == s.locks[key].heldUntil
      && s.locks[key].timer in s.timers && AboutToRead(s.timers[s.locks[key].timer])
  {
    var steps := DeadlineSteps(key, holder, ttl);
    DeadlineRun(key, holder, ttl, 4);
    assert Orderly(Initial(0));
    hide Next, Enabled, Orderly;
    forall i | 0 <= i < 4
      ensures Enabled(After(Initial(0), steps, i), steps[i])
    {
      DeadlineRun(key, holder, ttl, i);
      DeadlineStep(key, holder, ttl, i);
    }
    RunKeepsOrderly(Initial(0), steps, 4);
  }
}
