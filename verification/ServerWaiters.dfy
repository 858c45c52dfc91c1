/**
 The server's wait for a lock: it tries, subscribes to releases only after it has failed,
 and does not look again before it blocks.  A release announced in between goes unheard,
 and the expiry of a lock is announced by nobody.
 */
module ServerWaiters {
  import opened LockTypes
  import opened ConsumerStore

  datatype Phase = Trying | Denied | Blocked | Over(granted: bool)

  /** The tables, the releases still to be announced, and one waiter with its one-slot channel. */
  datatype World = World(
    store: Tables, owed: multiset<LockReleased>, phase: Phase, signalled: bool)

  datatype Request = Request(key: ConsumerKey, holder: string, ttl: int)

  datatype Input =
    | Attempt(swept: set<ConsumerKey>)
    | Subscribe
    | Announce(released: LockReleased)
    | Other(command: Command, swept: set<ConsumerKey>)
    | Clock(time: int)
    | Cancel

  /** A waiter tries at the start, and again whenever it is woken. */
  ghost predicate Possible(r: Request, v: World, i: Input) {
    match i
    case Attempt(swept) => (v.phase == Trying || (v.phase == Blocked && v.signalled)) && ValidSweep(v.store, r.key, swept)
    case Subscribe => v.phase == Denied
    case Announce(released) => released in v.owed
    case Other(c, swept) => c.TryAcquire? ==> ValidSweep(v.store, c.key, swept)
    case Clock(time) => v.store.now <= time
    case Cancel => true
  }

  function Executed(v: World, c: Command, swept: set<ConsumerKey>): World {
    v.(store := Execute(v.store, c, swept).0, owed := v.owed + Releases(v.store, c, swept))
  }

  function Next(r: Request, v: World, i: Input): World {
    match i
    case Attempt(swept) =>
      var c := TryAcquire(r.key, r.holder, r.ttl);
      var reply := Execute(v.store, c, swept).1;
      Executed(v, c, swept).(
        signalled := false,
        phase := if reply.Lease? && !reply.result.acquired then (if v.phase == Trying then Denied else Blocked)
                 else Over(reply.Granted()))
    case Subscribe => v.(phase := Blocked)
    case Announce(released) =>
      v.(owed := v.owed - multiset{released},
         signalled := v.signalled || (v.phase == Blocked && released.key == r.key))
    case Other(c, swept) => Executed(v, c, swept)
    case Clock(time) => v.(store := v.store.(now := time))
    case Cancel => v.(phase := Over(false))
  }

  ghost predicate Continues(r: Request, v: World, worlds: seq<World>, inputs: seq<Input>) {
    && |worlds| == |inputs| + 1 && worlds[0] == v
    && forall i :: 0 <= i < |inputs| ==> Possible(r, worlds[i], inputs[i]) && worlds[i + 1] == Next(r, worlds[i], inputs[i])
  }

  /** Some release of the consumer's lock is still to be announced. */
  ghost predicate Owed(v: World, key: ConsumerKey) {
    exists released :: released in v.owed && released.key == key
  }

  /** The waiter is blocked, the lock is free, and nothing is on its way to tell it. */
  ghost predicate Unheard(r: Request, v: World) {
    v.phase == Blocked && !v.signalled && r.key !in v.store.locks && !Owed(v, r.key)
  }

  ghost predicate HearsAll(r: Request, v: World) {
    forall worlds: seq<World>, inputs: seq<Input>, n: nat ::
      Continues(r, v, worlds, inputs) && n < |worlds| ==> !Unheard(r, worlds[n])
  }

  /**
   An attempt ends the wait with a lock exactly when no other holder's stands in the way, and then
   the caller has it; it ends it without one exactly when the TTL is too low or the stream missing.  Otherwise the waiter goes on, and nothing has changed but its phase.
   */
  lemma AttemptMeaning(r: Request, v: World, swept: set<ConsumerKey>)
    requires Possible(r, v, Attempt(swept))
    ensures
      var t, v' := v.store, Next(r, v, Attempt(swept));
      var proper := r.ttl >= LOCK_MINIMUM_TTL && StreamExists(t, r.key);
      var free := r.key in t.locks ==> t.locks[r.key].heldUntil < t.now || t.locks[r.key].holder == r.holder;
      && (v'.phase == Over(true) <==> proper && free)
      && (v'.phase == Over(true) ==> Active(v'.store, r.key) && v'.store.locks[r.key].holder == r.holder)
      && (v'.phase == Over(false) <==> !proper)
      && (proper && !free ==> v'.phase == (if v.phase == Trying then Denied else Blocked))
      && (!(proper && free) ==> v'.store == t && v'.owed == v.owed)
      && !v'.signalled
  {
  }

  /** A denied attempt finds the lock there and leaves it. */
  lemma DeniedFindsLock(t: Tables, r: Request, swept: set<ConsumerKey>)
    requires
      var reply := Execute(t, TryAcquire(r.key, r.holder, r.ttl), swept).1;
      reply.Lease? && !reply.result.acquired
    ensures r.key in Execute(t, TryAcquire(r.key, r.holder, r.ttl), swept).0.locks
  {
  }

  ghost predicate Heard(r: Request, v: World) {
    v.phase == Blocked && !v.signalled ==> r.key in v.store.locks || Owed(v, r.key)
  }

  lemma ExecutedKeepsHeard(r: Request, v: World, c: Command, swept: set<ConsumerKey>)
    requires v.phase == Blocked && Heard(r, v) && (c.TryAcquire? ==> ValidSweep(v.store, c.key, swept))
    ensures Heard(r, Executed(v, c, swept))
  {
    var v' := Executed(v, c, swept);
    if !v.signalled {
      if r.key in v.store.locks && r.key !in v'.store.locks {
        assert LockReleased(r.key, v.store.locks[r.key].holder) in v'.owed;
      }
      hide Execute, Releases;
      if Owed(v, r.key) {
        var released :| released in v.owed && released.key == r.key;
        assert released in v'.owed;
      }
    }
  }

  /** A waiter that is past its first attempt and has subscribed, or is done. */
  predicate Subscribed(v: World) {
    v.phase == Blocked || v.phase.Over?
  }

  lemma StepKeepsHeard(r: Request, v: World, i: Input)
    requires Subscribed(v) && Heard(r, v) && Possible(r, v, i)
    ensures Subscribed(Next(r, v, i)) && Heard(r, Next(r, v, i))
  {
    match i
    case Attempt(swept) =>
      var c := TryAcquire(r.key, r.holder, r.ttl);
      var reply := Execute(v.store, c, swept).1;
      if reply.Lease? && !reply.result.acquired {
        DeniedFindsLock(v.store, r, swept);
      }
      hide Execute, Releases;
    case Announce(released) =>
      if v.phase == Blocked && !Next(r, v, i).signalled && Owed(v, r.key) {
        var other :| other in v.owed && other.key == r.key;
        assert other in Next(r, v, i).owed;
      }
    case Other(c, swept) =>
      if v.phase == Blocked {
        ExecutedKeepsHeard(r, v, c, swept);
      }
      hide Execute, Releases;
    case _ =>
      hide Execute, Releases;
  }

  lemma {:induction false} HeardLasts(r: Request, v: World, worlds: seq<World>, inputs: seq<Input>, n: nat)
    requires Subscribed(v) && Heard(r, v) && Continues(r, v, worlds, inputs) && n < |worlds|
    ensures Subscribed(worlds[n]) && Heard(r, worlds[n])
  {
    hide Next, Possible, Heard;
    if n > 0 {
      HeardLasts(r, v, worlds, inputs, n - 1);
      StepKeepsHeard(r, worlds[n - 1], inputs[n - 1]);
    }
  }

  /**
   A waiter that has just subscribed hears of every release from then on, in every continuation,
   if and only if at its subscription the lock is still there or a release still to be announced.
   */
  lemma SubscriptionHearsIff(r: Request, v: World)
    requires v.phase == Blocked && !v.signalled
    ensures HearsAll(r, v) <==> r.key in v.store.locks || Owed(v, r.key)
  {
    if r.key in v.store.locks || Owed(v, r.key) {
      forall worlds: seq<World>, inputs: seq<Input>, n: nat | Continues(r, v, worlds, inputs) && n < |worlds|
        ensures !Unheard(r, worlds[n])
      {
        HeardLasts(r, v, worlds, inputs, n);
      }
    } else {
      assert Continues(r, v, [v], []);
      assert Unheard(r, [v][0]);
    }
  }

  /** The lock is released, and the release announced, between the failed attempt and the subscription. */
  function GapInputs(r: Request, owner: string): seq<Input> {
    [Attempt({}), Other(Release(r.key, owner), {}), Announce(LockReleased(r.key, owner)), Subscribe]
  }

  /** The release and its announcement, to a waiter that has been denied and not yet subscribed. */
  lemma ReleasedInGap(r: Request, owner: string, v: World)
    requires v.phase == Denied && !v.signalled && v.owed == multiset{}
    requires Active(v.store, r.key) && v.store.locks[r.key].holder == owner
    requires r.key.domain != "" && r.key.stream != "" && r.key.consumer != "" && owner != ""
    ensures
      var v1 := Next(r, v, Other(Release(r.key, owner), {}));
      var v2 := Next(r, v1, Announce(LockReleased(r.key, owner)));
      && Possible(r, v1, Announce(LockReleased(r.key, owner)))
      && v2.phase == Denied && !v2.signalled && r.key !in v2.store.locks && v2.owed == multiset{}
  {
    var v1 := Next(r, v, Other(Release(r.key, owner), {}));
    assert r.key in v.store.locks && r.key !in v1.store.locks;
    assert v1.owed == multiset{LockReleased(r.key, owner)};
  }

  /** The run of that race ends with the waiter blocked before a free lock that nobody will tell it of. */
  lemma GapRun(r: Request, owner: string, v: World) returns (worlds: seq<World>)
    requires v.phase == Trying && !v.signalled && v.owed == multiset{}
    requires Active(v.store, r.key) && v.store.locks[r.key].holder == owner && owner != r.holder
    requires r.key.domain != "" && r.key.stream != "" && r.key.consumer != "" && owner != ""
    requires r.ttl >= LOCK_MINIMUM_TTL && StreamExists(v.store, r.key)
    ensures Continues(r, v, worlds, GapInputs(r, owner)) && Unheard(r, worlds[4])
  {
    var inputs := GapInputs(r, owner);
    var v1 := Next(r, v, inputs[0]);
    assert v1.store == v.store && v1.phase == Denied && v1.owed == multiset{} && Possible(r, v, inputs[0]);
    ReleasedInGap(r, owner, v1);
    hide Execute, Releases, Executed;
    var v2 := Next(r, v1, inputs[1]);
    var v3 := Next(r, v2, inputs[2]);
    worlds := [v, v1, v2, v3, Next(r, v3, inputs[3])];
  }

  /** Left alone, such a waiter stays where it is, however much time passes. */
  lemma {:induction false} UnheardStaysBlocked(r: Request, v: World, worlds: seq<World>, inputs: seq<Input>, n: nat)
    requires Unheard(r, v) && Continues(r, v, worlds, inputs) && n < |worlds|
    requires forall i :: 0 <= i < |inputs| ==> !inputs[i].Other? && !inputs[i].Cancel?
    ensures Unheard(r, worlds[n])
  {
    if n > 0 {
      UnheardStaysBlocked(r, v, worlds, inputs, n - 1);
      assert Possible(r, worlds[n - 1], inputs[n - 1]) && worlds[n] == Next(r, worlds[n - 1], inputs[n - 1]);
      hide Execute, Releases;
    }
  }
}
