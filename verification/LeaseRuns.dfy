/** Every run of the in-memory lock service keeps its locks and timers coherent. */
module LeaseRuns {
  import opened LockTypes
  import opened MemoryLeases

  /** A lock that an acquisition neither takes nor sweeps keeps its guard. */
  lemma AcquireKeepsGuard(s: State, key: ConsumerKey, holder: string, ttl: int, swept: set<ConsumerKey>, k: ConsumerKey)
    requires Coherent(s) && k in s.locks && k != key && k in AcquireStep(s, key, holder, ttl, swept).0.locks
    ensures Guarded(AcquireStep(s, key, holder, ttl, swept).0, k)
  {
    assert Guarded(s, k);
    assert forall other :: other in swept && other in s.locks ==> Guarded(s, other);
    hide Coherent;
  }

  lemma AcquireKeepsCoherent(s: State, key: ConsumerKey, holder: string, ttl: int, swept: set<ConsumerKey>)
    requires Coherent(s) && ValidSweep(s, key, swept)
    ensures Coherent(AcquireStep(s, key, holder, ttl, swept).0)
  {
    hide ValidSweep;
    var s' := AcquireStep(s, key, holder, ttl, swept).0;
    if s' != s {
      forall k | k in s'.locks
        ensures Guarded(s', k)
      {
        if k != key {
          AcquireKeepsGuard(s, key, holder, ttl, swept, k);
        }
      }
      forall id, k | id in s'.timers && k in s'.locks && s'.timers[id].epoch == s'.locks[k].epoch
        ensures s'.timers[id].key == k
      {
        if k != key {
          assert Guarded(s, k);
        }
      }
    }
  }

  /** A renewal gives its lock a new guard and leaves every other lock its own. */
  lemma HeartbeatKeepsGuard(s: State, key: ConsumerKey, holder: string, position: int, k: ConsumerKey)
    requires Coherent(s) && k in s.locks && HeartbeatStep(s, key, holder, position).0 != s
    ensures
      var s' := HeartbeatStep(s, key, holder, position).0;
      k in s'.locks && Guarded(s', k)
  {
    assert Guarded(s, key) && Guarded(s, k);
    if k != key {
      assert s.locks[k].epoch != s.locks[key].epoch by {
        assert s.timers[s.locks[k].timer].key == k;
      }
    }
    hide Coherent;
  }

  lemma HeartbeatKeepsCoherent(s: State, key: ConsumerKey, holder: string, position: int)
    requires Coherent(s)
    ensures Coherent(HeartbeatStep(s, key, holder, position).0)
  {
    var s' := HeartbeatStep(s, key, holder, position).0;
    if s' != s {
      assert Guarded(s, key);
      forall k | k in s'.locks
        ensures Guarded(s', k)
      {
        HeartbeatKeepsGuard(s, key, holder, position, k);
      }
    }
  }

  lemma ReleaseKeepsCoherent(s: State, key: ConsumerKey, holder: string)
    requires Coherent(s)
    ensures Coherent(ReleaseStep(s, key, holder).0)
  {
    var s' := ReleaseStep(s, key, holder).0;
    if s' != s {
      assert Guarded(s, key);
      forall k | k in s'.locks
        ensures Guarded(s', k)
      {
        assert Guarded(s, k);
      }
    }
  }

  /** A timer advancing a stage leaves every lock guarded, by itself or by another. */
  lemma StageKeepsCoherent(s: State, id: nat, stage: Stage)
    requires Coherent(s) && id in s.timers && s.timers[id].due <= s.now
    requires stage == Fired || stage == Queued(Carried(s, s.timers[id]))
    requires s.timers[id].stage.Queued? ==> stage == s.timers[id].stage
    ensures Coherent(s.(timers := s.timers[id := s.timers[id].(stage := stage)]))
  {
    var s' := s.(timers := s.timers[id := s.timers[id].(stage := stage)]);
    forall k | k in s'.locks
      ensures Guarded(s', k)
    {
      assert Guarded(s, k);
    }
  }

  /** The operation of a lock's own timer removes that lock; any other leaves it its timer. */
  lemma ExpiryKeepsCoherent(s: State, id: nat)
    requires Coherent(s) && id in s.timers
    ensures Coherent(ExpireStep(s, id))
  {
    var s' := ExpireStep(s, id);
    forall k | k in s'.locks
      ensures Guarded(s', k)
    {
      assert Guarded(s, k);
    }
  }

  lemma TimerStepKeepsCoherent(s: State, step: Step)
    requires Coherent(s) && Enabled(s, step)
    requires step.Fire? || step.Enqueue? || step.Expire?
    ensures Coherent(Next(s, step))
  {
    match step
    case Fire(id) => StageKeepsCoherent(s, id, Fired);
    case Enqueue(id) => StageKeepsCoherent(s, id, Queued(Carried(s, s.timers[id])));
    case Expire(id) => ExpiryKeepsCoherent(s, id);
  }

  /** One step, whoever takes it, keeps the state coherent. */
  lemma StepKeepsCoherent(s: State, step: Step)
    requires Coherent(s) && Enabled(s, step)
    ensures Coherent(Next(s, step))
  {
    match step
    case Client(c, swept) =>
      match c {
        case TryAcquire(key, holder, ttl) => AcquireKeepsCoherent(s, key, holder, ttl, swept);
        case Heartbeat(key, holder, position) => HeartbeatKeepsCoherent(s, key, holder, position);
        case Release(key, holder) => ReleaseKeepsCoherent(s, key, holder);
        case SetPosition(_, _) => PositionsDoNotMatter(s, Next(s, step));
        case DeletePosition(_) => PositionsDoNotMatter(s, Next(s, step));
        case Submit(_, _) =>
      }
    case Advance(to) =>
      var s' := Next(s, step);
      forall k | k in s'.locks
        ensures Guarded(s', k)
      {
        assert Guarded(s, k);
      }
    case _ => TimerStepKeepsCoherent(s, step);
  }

  lemma PositionsDoNotMatter(s: State, s': State)
    requires Coherent(s) && s' == s.(positions := s'.positions)
    ensures Coherent(s')
  {
    forall k | k in s'.locks
      ensures Guarded(s', k)
    {
      assert Guarded(s, k);
    }
  }

  /** Every state of every run is coherent. */
  lemma {:induction false} RunKeepsCoherent(s: State, steps: seq<Step>, n: nat)
    requires Coherent(s) && IsRun(s, steps) && n <= |steps|
    ensures Coherent(After(s, steps, n))
  {
    if n > 0 {
      RunKeepsCoherent(s, steps, n - 1);
      StepKeepsCoherent(After(s, steps, n - 1), steps[n - 1]);
    }
  }

  /** In particular every state that a new service reaches. */
  lemma NewServiceStaysCoherent(now: int, steps: seq<Step>, n: nat)
    requires IsRun(Initial(now), steps) && n <= |steps|
    ensures Coherent(After(Initial(now), steps, n))
  {
    hide Coherent, IsRun;
    RunKeepsCoherent(Initial(now), steps, n);
  }

  /** Runs compose: what follows a run starts from its last state. */
  lemma {:induction false} AfterConcat(s: State, first: seq<Step>, rest: seq<Step>, n: nat)
    requires n <= |rest|
    ensures After(s, first + rest, |first| + n) == After(After(s, first, |first|), rest, n)
  {
    if n == 0 {
      AfterPrefix(s, first, rest, |first|);
    } else {
      AfterConcat(s, first, rest, n - 1);
    }
  }

  lemma {:induction false} AfterPrefix(s: State, first: seq<Step>, rest: seq<Step>, n: nat)
    requires n <= |first|
    ensures After(s, first + rest, n) == After(s, first, n)
  {
    if n > 0 {
      AfterPrefix(s, first, rest, n - 1);
    }
  }
}
