/** The in-memory transport's lock and position commands, performed in place one at a time. */
module MemoryService {
  import opened Wrappers
  import opened LockTypes
  import opened MemoryLeases

  function Keys(events: seq<LockReleased>): set<ConsumerKey> {
    set e | e in events :: e.key
  }

  /** The events name each swept lock once, with its holder. */
  ghost predicate Reports(locks: map<ConsumerKey, Lock>, swept: set<ConsumerKey>, events: seq<LockReleased>) {
    && swept == Keys(events)
    && |swept| == |events|
    && forall e :: e in events ==> e.key in locks && e.holder == locks[e.key].holder
  }

  /** The locks and timers left after sweeping `swept`. */
  ghost predicate Swept(s: State, swept: set<ConsumerKey>, locks: map<ConsumerKey, Lock>, timers: map<nat, Timer>) {
    locks == s.locks - swept && timers == StopTimers(s.timers, TimersOf(s.locks, swept))
  }

  lemma NothingSwept(s: State)
    ensures Swept(s, {}, s.locks, s.timers) && Reports(s.locks, {}, [])
  {
    assert s.locks - {} == s.locks;
    assert StopTimers(s.timers, TimersOf(s.locks, {})) == s.timers;
  }

  lemma ReportsName(locks: map<ConsumerKey, Lock>, swept: set<ConsumerKey>, events: seq<LockReleased>)
    requires Reports(locks, swept, events)
    ensures swept == Keys(events)
  {
  }

  /** What is swept and what is still to be looked at, on the way through the stream's locks. */
  ghost predicate Sweeping(s: State, key: ConsumerKey, swept: set<ConsumerKey>, todo: set<ConsumerKey>) {
    && todo <= s.locks.Keys && todo !! swept
    && (forall k :: k in todo ==> k.domain == key.domain && k.stream == key.stream)
    && swept <= Sweepable(s, key) <= swept + todo
  }

  lemma SweepBegins(s: State, key: ConsumerKey, todo: set<ConsumerKey>)
    requires todo == set k | k in s.locks && k.domain == key.domain && k.stream == key.stream
    ensures Sweeping(s, key, {}, todo)
  {
  }

  lemma SweepLooks(s: State, key: ConsumerKey, swept: set<ConsumerKey>, todo: set<ConsumerKey>, k: ConsumerKey)
    requires Sweeping(s, key, swept, todo) && k in todo
    ensures k in s.locks && k !in swept && swept <= Sweepable(s, key)
    ensures if k.consumer != key.consumer && s.locks[k].heldUntil < s.now
            then Sweeping(s, key, swept + {k}, todo - {k}) else Sweeping(s, key, swept, todo - {k})
  {
  }

  lemma SweepEnds(s: State, key: ConsumerKey, swept: set<ConsumerKey>, todo: set<ConsumerKey>)
    requires swept <= Sweepable(s, key) && |swept| <= SWEEP_LIMIT
    requires |swept| == SWEEP_LIMIT || (todo == {} && Sweeping(s, key, swept, todo))
    ensures ValidSweep(s, key, swept)
  {
  }

  class Memory {
    var now: int
    var locks: map<ConsumerKey, Lock>
    var generations: map<nat, nat>
    var positions: map<ConsumerKey, int>
    var timers: map<nat, Timer>
    var next: nat

    function View(): (s: State)
      reads this
    {
      State(now, locks, generations, positions, timers, next)
    }

    constructor (start: int)
      ensures View() == Initial(start)
    {
      now, locks, generations, positions, timers, next := start, map[], map[], map[], map[], 0;
    }

    method StopTimer(id: nat)
      modifies this`timers
      ensures timers == StopTimers(old(timers), {id})
    {
      if id in timers && timers[id].stage.Armed? {
        timers := timers - {id};
      }
      assert timers == StopTimers(old(timers), {id});
    }

    method DropLock(ghost s: State, ghost swept: set<ConsumerKey>, k: ConsumerKey, events: seq<LockReleased>)
      returns (events': seq<LockReleased>)
      requires k in s.locks && k !in swept
      requires Swept(s, swept, locks, timers) && Reports(s.locks, swept, events)
      modifies this`locks, this`timers
      ensures Swept(s, swept + {k}, locks, timers) && Reports(s.locks, swept + {k}, events')
    {
      events' := events + [LockReleased(k, locks[k].holder)];
      StopTimer(locks[k].timer);
      locks := locks - {k};
    }

    /** Drops up to 128 expired locks of the stream, in any order, sparing `key` itself. */
    method CleanExpiredLocks(key: ConsumerKey) returns (events: seq<LockReleased>)
      modifies this`locks, this`timers
      ensures ValidSweep(old(View()), key, Keys(events))
      ensures Reports(old(locks), Keys(events), events)
      ensures locks == old(locks) - Keys(events)
      ensures timers == StopTimers(old(timers), TimersOf(old(locks), Keys(events)))
    {
      hide StopTimers, TimersOf, Reports, Keys, Sweepable, Sweeping;
      ghost var s, swept := View(), {};
      events := [];
      var deleted := 0;
      var todo := set k | k in locks && k.domain == key.domain && k.stream == key.stream;
      NothingSwept(s);
      SweepBegins(s, key, todo);
      while todo != {}
        invariant s == old(View()) && now == s.now
        invariant swept <= Sweepable(s, key) && Sweeping(s, key, swept, todo)
        invariant Reports(s.locks, swept, events) && |swept| == deleted <= SWEEP_LIMIT
        invariant Swept(s, swept, locks, timers)
        decreases todo
      {
        var k :| k in todo;
        SweepLooks(s, key, swept, todo, k);
        todo := todo - {k};
        if k.consumer != key.consumer {
          if deleted >= SWEEP_LIMIT {
            break;
          }
          if now > locks[k].heldUntil {
            events := DropLock(s, swept, k, events);
            swept := swept + {k};
            deleted := deleted + 1;
          }
        }
      }
      ReportsName(s.locks, swept, events);
      SweepEnds(s, key, swept, todo);
    }

    method TryAcquire(key: ConsumerKey, holder: string, ttl: int) returns (reply: Reply, expired: seq<LockReleased>)
      modifies this
      ensures (View(), reply) == AcquireStep(old(View()), key, holder, ttl, Keys(expired))
      ensures reply.Granted() ==> ValidSweep(old(View()), key, Keys(expired))
      ensures !reply.Granted() ==> expired == []
    {
      expired := [];
      if ttl < LOCK_MINIMUM_TTL {
        return Failed(TTLTooLow), [];
      }
      if key in locks && !(now > locks[key].heldUntil) && locks[key].holder != holder {
        var existing := locks[key];
        return Lease(LockResult(false, existing.holder, existing.guaranteeUntil, existing.heldUntil, -1)), [];
      }
      expired := CleanExpiredLocks(key);
      var guaranteeUntil := now + GuaranteePeriod(ttl);
      var heldUntil := now + ttl;
      timers := timers[next := Timer(key, next, now + ttl, false, Armed)];
      locks := locks[key := Lock(holder, now, now, ttl, guaranteeUntil, heldUntil, next, next)];
      next := next + 1;
      var position := 0;
      if key in positions {
        position := positions[key];
      }
      reply := Lease(LockResult(true, holder, guaranteeUntil, heldUntil, position));
    }

    method HeartbeatWithPosition(key: ConsumerKey, holder: string, position: int) returns (reply: Reply)
      modifies this
      ensures (View(), reply) == HeartbeatStep(old(View()), key, holder, position)
    {
      if key !in locks || now > locks[key].heldUntil {
        return Failed(LockExpired);
      }
      var existing := locks[key];
      if existing.holder != holder {
        return Failed(LockNotHeld);
      }
      if key in positions && position < positions[key] {
        return Failed(HeartbeatConflict(position, positions[key]));
      }
      existing := existing.(heartbeatAt := now, guaranteeUntil := now + GuaranteePeriod(existing.ttl),
                            heldUntil := now + existing.ttl);
      generations := generations[existing.epoch :=
        (if existing.epoch in generations then generations[existing.epoch] else 0) + 1];
      StopTimer(existing.timer);
      timers := timers[next := Timer(key, existing.epoch, now + existing.ttl, true, Armed)];
      locks := locks[key := existing.(timer := next)];
      next := next + 1;
      positions := positions[key := position];
      reply := Done;
    }

    method Release(key: ConsumerKey, holder: string) returns (reply: Reply, released: bool)
      modifies this
      ensures (View(), reply) == ReleaseStep(old(View()), key, holder)
      ensures released <==> old(HeldBy(View(), key, holder))
    {
      if key !in locks || now > locks[key].heldUntil {
        return Done, false;
      }
      if locks[key].holder != holder {
        return Failed(LockNotHeld), false;
      }
      StopTimer(locks[key].timer);
      locks := locks - {key};
      return Done, true;
    }

    method SetPosition(key: ConsumerKey, eventID: int) returns (reply: Reply)
      modifies this
      ensures (View(), reply) == SetPositionStep(old(View()), key, eventID)
    {
      var previous: Option<int> := None;
      if key in positions {
        if eventID < positions[key] {
          return Failed(BackwardPosition(eventID, positions[key]));
        }
        previous := Some(positions[key]);
      }
      positions := positions[key := eventID];
      reply := PositionSet(previous, eventID);
    }

    /** The lock assertion of a submit. */
    method CheckLock(key: ConsumerKey, holder: string) returns (reply: Reply)
      ensures (View(), reply) == ClientStep(View(), Submit(key, holder), {})
    {
      if key !in locks || now > locks[key].heldUntil || locks[key].holder != holder {
        return Failed(LockNotHeld);
      }
      reply := Done;
    }

    /** A queued expiry operation: announces and removes the lock unless it was renewed since. */
    method PerformExpiry(id: nat) returns (announced: bool)
      requires id in timers && timers[id].stage.Queued?
      modifies this
      ensures View() == ExpireStep(old(View()), id)
      ensures announced <==> old(Removes(View(), id))
    {
      var op := timers[id];
      timers := timers - {id};
      announced := false;
      if op.key in locks {
        var epoch := locks[op.key].epoch;
        var generation := if epoch in generations then generations[epoch] else 0;
        if generation == op.stage.generation {
          locks := locks - {op.key};
          announced := true;
        }
      }
    }
  }
}
