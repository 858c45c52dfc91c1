/**
 Waiting for a consumer lock in memory: subscribe, try, and block until a release
 of the consumer is announced.  An explicit release and a sweep announce after
 the lock is gone, from the caller's goroutine; an expiry operation announces
 and removes in one step of the service.
 */
module LockWaiters {
  import opened LockTypes
  import opened MemoryLeases
  import opened LeaseRuns

  /** A WaitForLock call after its subscription; `signalled` is its one-slot channel. */
  datatype Waiter = Waiter(key: ConsumerKey, holder: string, ttl: int, blocked: bool, signalled: bool)

  /** `owed` counts the announcements whose locks are gone and which are still to be made. */
  datatype World = World(service: State, owed: multiset<ConsumerKey>, waiters: map<nat, Waiter>)

  datatype Event =
    | Service(step: Step)
    | Subscribe(w: nat, key: ConsumerKey, holder: string, ttl: int)
    | Attempt(w: nat, swept: set<ConsumerKey>)
    | Wake(w: nat)
    | Cancel(w: nat)
    | Announce(key: ConsumerKey)

  /** Announcing a release fills the channel of every waiter on that consumer. */
  function Signal(waiters: map<nat, Waiter>, key: ConsumerKey): map<nat, Waiter> {
    map w | w in waiters :: if waiters[w].key == key then waiters[w].(signalled := true) else waiters[w]
  }

  /** The consumers whose locks a service step removes, to be announced by the caller. */
  function AnnouncedLater(s: State, step: Step): multiset<ConsumerKey> {
    if step.Client? && step.command.Release? && HeldBy(s, step.command.key, step.command.holder) then
      multiset{step.command.key}
    else if step.Client? && ClientStep(s, step.command, step.swept).1.Granted() then
      multiset(step.swept)
    else
      multiset{}
  }

  ghost predicate Possible(v: World, e: Event) {
    match e
    case Service(step) => Enabled(v.service, step)
    case Subscribe(w, _, _, _) => w !in v.waiters
    case Attempt(w, swept) =>
      w in v.waiters && !v.waiters[w].blocked && ValidSweep(v.service, v.waiters[w].key, swept)
    case Wake(w) => w in v.waiters && v.waiters[w].blocked && v.waiters[w].signalled
    case Cancel(w) => w in v.waiters
    case Announce(key) => key in v.owed
  }

  function ServiceMoves(v: World, step: Step): World {
    var waiters :=
      if step.Expire? && step.id in v.service.timers && Removes(v.service, step.id) then
        Signal(v.waiters, v.service.timers[step.id].key)
      else v.waiters;
    World(Next(v.service, step), v.owed + AnnouncedLater(v.service, step), waiters)
  }

  function Advanced(v: World, e: Event): World {
    match e
    case Service(step) => ServiceMoves(v, step)
    case Subscribe(w, key, holder, ttl) => v.(waiters := v.waiters[w := Waiter(key, holder, ttl, false, false)])
    case Attempt(w, swept) =>
      if w !in v.waiters then v else
      var a := v.waiters[w];
      var step := Client(TryAcquire(a.key, a.holder, a.ttl), swept);
      var reply := ClientStep(v.service, step.command, swept).1;
      var v' := ServiceMoves(v, step);
      if reply.Lease? && !reply.result.acquired then v'.(waiters := v'.waiters[w := a.(blocked := true)])
      else v'.(waiters := v'.waiters - {w})
    case Wake(w) =>
      if w !in v.waiters then v
      else v.(waiters := v.waiters[w := v.waiters[w].(blocked := false, signalled := false)])
    case Cancel(w) => v.(waiters := v.waiters - {w})
    case Announce(key) => v.(owed := v.owed - multiset{key}, waiters := Signal(v.waiters, key))
  }

  function Through(v: World, events: seq<Event>, n: nat): World
    requires n <= |events|
  {
    if n == 0 then v else Advanced(Through(v, events, n - 1), events[n - 1])
  }

  ghost predicate IsHistory(v: World, events: seq<Event>) {
    forall i :: 0 <= i < |events| ==> Possible(Through(v, events, i), events[i])
  }

  /** The lock is there, and a timer or queued operation of its current generation is outstanding. */
  ghost predicate Watched(s: State, key: ConsumerKey) {
    && key in s.locks
    && exists id :: id in s.timers && s.timers[id].key == key
                    && Carried(s, s.timers[id]) == Generation(s, s.locks[key].epoch)
  }

  /** No waiter is blocked with an empty channel unless something will still signal it. */
  ghost predicate NoLostWakeUp(v: World) {
    forall w :: w in v.waiters && v.waiters[w].blocked && !v.waiters[w].signalled
      ==> Watched(v.service, v.waiters[w].key) || v.waiters[w].key in v.owed
  }

  lemma LockIsWatched(s: State, key: ConsumerKey)
    requires Coherent(s) && key in s.locks
    ensures Watched(s, key)
  {
    assert Guarded(s, key);
    assert s.locks[key].timer in s.timers;
  }

  /** A lock that a service step takes away is announced, at once or later. */
  lemma RemovalIsAnnounced(v: World, step: Step, key: ConsumerKey)
    requires Coherent(v.service) && Enabled(v.service, step)
    requires key in v.service.locks && key !in Next(v.service, step).locks
    ensures key in AnnouncedLater(v.service, step)
            || (step.Expire? && Removes(v.service, step.id) && v.service.timers[step.id].key == key)
  {
    hide StopTimers, TimersOf;
    assert Guarded(v.service, key);
    hide Coherent;
  }

  /** A client step owes one announcement for each lock it removes, and nothing else is ever owed. */
  lemma OwedAreRemovals(s: State, step: Step, key: ConsumerKey)
    requires Enabled(s, step)
    ensures AnnouncedLater(s, step)[key] == if step.Client? && key in s.locks && key !in Next(s, step).locks then 1 else 0
  {
    hide StopTimers, TimersOf;
  }

  /** A channel is filled only by an owed announcement of its consumer, or by the expiry that removes its consumer's lock. */
  lemma SignalHasReason(v: World, e: Event, w: nat)
    requires Possible(v, e) && w in v.waiters && !v.waiters[w].signalled
    requires w in Advanced(v, e).waiters && Advanced(v, e).waiters[w].signalled
    ensures
      var key := v.waiters[w].key;
      || (e == Announce(key) && key in v.owed)
      || (e.Service? && e.step.Expire? && key in v.service.locks && key !in Advanced(v, e).service.locks)
  {
    hide ClientStep;
  }

  /** An attempt is denied, and blocks, exactly when another holder's lock stands; otherwise the waiter is done, with its lock unless its TTL is too low. */
  lemma AttemptMeaning(v: World, w: nat, swept: set<ConsumerKey>)
    requires Possible(v, Attempt(w, swept))
    ensures
      var a, v' := v.waiters[w], Advanced(v, Attempt(w, swept));
      var stands := a.key in v.service.locks && v.service.now <= v.service.locks[a.key].heldUntil;
      var denied := a.ttl >= LOCK_MINIMUM_TTL && stands && v.service.locks[a.key].holder != a.holder;
      && (w in v'.waiters <==> denied)
      && (denied ==> v' == v.(waiters := v.waiters[w := a.(blocked := true)]))
      && (!denied && a.ttl >= LOCK_MINIMUM_TTL ==> HeldBy(v'.service, a.key, a.holder))
      && (forall other :: other in v.waiters && other != w ==> other in v'.waiters && v'.waiters[other] == v.waiters[other])
  {
    hide StopTimers, TimersOf;
  }

  lemma ServiceKeepsWakeUps(v: World, step: Step)
    requires Coherent(v.service) && NoLostWakeUp(v) && Enabled(v.service, step)
    ensures Coherent(ServiceMoves(v, step).service) && NoLostWakeUp(ServiceMoves(v, step))
  {
    var v' := ServiceMoves(v, step);
    StepKeepsCoherent(v.service, step);
    forall w | w in v'.waiters && v'.waiters[w].blocked && !v'.waiters[w].signalled
      ensures Watched(v'.service, v'.waiters[w].key) || v'.waiters[w].key in v'.owed
    {
      var key := v.waiters[w].key;
      if key in v'.service.locks {
        LockIsWatched(v'.service, key);
      } else if key in v.service.locks {
        RemovalIsAnnounced(v, step, key);
      }
    }
  }

  ghost predicate Sound(v: World) {
    Coherent(v.service) && NoLostWakeUp(v)
  }

  lemma AttemptKeepsWakeUps(v: World, w: nat, swept: set<ConsumerKey>)
    requires Sound(v) && Possible(v, Attempt(w, swept))
    ensures Sound(Advanced(v, Attempt(w, swept)))
  {
    hide Coherent, Watched, AnnouncedLater;
    var a := v.waiters[w];
    var step := Client(TryAcquire(a.key, a.holder, a.ttl), swept);
    ServiceKeepsWakeUps(v, step);
    if Refused(v.service, a.key, a.holder) {
      LockIsWatched(v.service, a.key);
    }
  }

  lemma EventKeepsWakeUps(v: World, e: Event)
    requires Sound(v) && Possible(v, e)
    ensures Sound(Advanced(v, e))
  {
    match e
    case Service(step) => ServiceKeepsWakeUps(v, step);
    case Attempt(w, swept) => AttemptKeepsWakeUps(v, w, swept);
    case _ =>
      hide Coherent, Watched, ServiceMoves;
  }

  /** In every history no wake-up is lost. */
  lemma {:induction false} HistoryKeepsWakeUps(v: World, events: seq<Event>, n: nat)
    requires Sound(v) && IsHistory(v, events) && n <= |events|
    ensures Sound(Through(v, events, n))
  {
    hide Advanced, Possible, Sound;
    if n > 0 {
      var u := Through(v, events, n - 1);
      HistoryKeepsWakeUps(v, events, n - 1);
      EventKeepsWakeUps(u, events[n - 1]);
    }
  }

  /** A history that needs no client: only the clock, the timers and owed announcements move. */
  ghost predicate Unaided(events: seq<Event>) {
    forall i :: 0 <= i < |events| ==> events[i].Announce? || (events[i].Service? && !events[i].step.Client?)
  }

  ghost predicate Wakes(v: World, events: seq<Event>, w: nat) {
    && IsHistory(v, events) && Unaided(events)
    && var v' := Through(v, events, |events|);
       w in v'.waiters && v'.waiters[w].blocked && v'.waiters[w].signalled
  }

  lemma {:induction false} PrependEvent(v: World, e: Event, rest: seq<Event>, n: nat)
    requires n <= |rest|
    ensures Through(v, [e] + rest, n + 1) == Through(Advanced(v, e), rest, n)
  {
    hide Advanced;
    if n == 0 {
      assert Through(v, [e] + rest, 0) == v;
    } else {
      PrependEvent(v, e, rest, n - 1);
    }
  }

  lemma PrependWake(v: World, e: Event, rest: seq<Event>, w: nat)
    requires Possible(v, e) && Unaided([e]) && Wakes(Advanced(v, e), rest, w)
    ensures Wakes(v, [e] + rest, w)
  {
    hide Advanced, Possible;
    var events := [e] + rest;
    assert Unaided(events) by {
      assert [e][0] == e;
    }
    PrependEvent(v, e, rest, |rest|);
    forall i | 0 <= i < |events|
      ensures Possible(Through(v, events, i), events[i])
    {
      if i == 0 {
        assert Through(v, events, 0) == v;
      } else {
        PrependEvent(v, e, rest, i - 1);
        assert events[i] == rest[i - 1];
      }
    }
  }

  /** A timer of the lock's current generation on its way to being performed. */
  ghost predicate Approaching(v: World, w: nat, id: nat) {
    && Coherent(v.service)
    && w in v.waiters && v.waiters[w].blocked
    && v.waiters[w].key in v.service.locks
    && id in v.service.timers && v.service.timers[id].key == v.waiters[w].key
    && Carried(v.service, v.service.timers[id]) == Generation(v.service, v.service.locks[v.waiters[w].key].epoch)
  }

  lemma ApproachStep(v: World, w: nat, id: nat)
    requires Approaching(v, w, id)
    ensures
      var e := Service(TowardsExpiry(v.service, id));
      var v' := Advanced(v, e);
      && Possible(v, e)
      && if e.step.Expire? then w in v'.waiters && v'.waiters[w].blocked && v'.waiters[w].signalled
         else Approaching(v', w, id)
  {
    StepKeepsCoherent(v.service, TowardsExpiry(v.service, id));
  }

  lemma {:induction false} ExpiryWakes(v: World, w: nat, id: nat) returns (events: seq<Event>)
    requires Approaching(v, w, id)
    ensures Wakes(v, events, w)
    decreases v.service.timers[id].due > v.service.now,
              match v.service.timers[id].stage case Armed => 2 case Fired => 1 case Queued(_) => 0
  {
    var e := Service(TowardsExpiry(v.service, id));
    ApproachStep(v, w, id);
    if e.step.Expire? {
      PrependWake(v, e, [], w);
      events := [e] + [];
    } else {
      var rest := ExpiryWakes(Advanced(v, e), w, id);
      PrependWake(v, e, rest, w);
      events := [e] + rest;
    }
  }

  /** Whatever clients do next, a blocked waiter can always be woken without them. */
  lemma BlockedWaiterCanBeWoken(v: World, w: nat) returns (events: seq<Event>)
    requires Sound(v) && w in v.waiters && v.waiters[w].blocked
    ensures Wakes(v, events, w)
  {
    var key := v.waiters[w].key;
    if v.waiters[w].signalled {
      events := [];
    } else if Watched(v.service, key) {
      var id :| id in v.service.timers && v.service.timers[id].key == key
                && Carried(v.service, v.service.timers[id]) == Generation(v.service, v.service.locks[key].epoch);
      events := ExpiryWakes(v, w, id);
    } else {
      PrependWake(v, Announce(key), [], w);
      events := [Announce(key)] + [];
    }
  }
}
