/**
 The two lock services side by side, over whole runs: the same commands and clock, and
 the in-memory service's own timers.  They give every command the same verdict if and
 only if no timer of the in-memory service can end a live lease early.
 */
module ServiceAgreement {
  import opened LockTypes
  import M = MemoryLeases
  import P = ConsumerStore
  import opened LeaseRuns
  import opened LeaseSafety
  import opened LeaseLimits
  import opened LockSimulation

  datatype Joint =
    | Both(command: Command, memorySwept: set<ConsumerKey>, storeSwept: set<ConsumerKey>)
    | Clock(to: int)
    | Timer(step: M.Step)

  /** A command whose grant, if it is one, leaves only harmless timers behind. */
  ghost predicate LeavesHarmless(m: M.State, c: Command, ms: set<ConsumerKey>) {
    var (m', reply) := M.ClientStep(m, c, ms);
    reply.Granted() && c.key in m'.locks ==> TimersHarmless(m', c.key)
  }

  /** Commands off the deadline of the lock they touch, the clock, and any step of any timer. */
  ghost predicate Allowed(m: M.State, p: P.Tables, j: Joint) {
    match j
    case Both(c, ms, ps) => Comparable(m, p, c, ms, ps) && LeavesHarmless(m, c, ms)
    case Clock(to) => m.now <= to
    case Timer(step) => !step.Client? && !step.Advance? && M.Enabled(m, step)
  }

  function MemoryStep(j: Joint): M.Step {
    match j
    case Both(c, ms, _) => M.Client(c, ms)
    case Clock(to) => M.Advance(to)
    case Timer(step) => step
  }

  function NextPair(m: M.State, p: P.Tables, j: Joint): (M.State, P.Tables) {
    (M.Next(m, MemoryStep(j)),
     match j
     case Both(c, _, ps) => P.Execute(p, c, ps).0
     case Clock(to) => p.(now := to)
     case Timer(_) => p)
  }

  // No expiry is early.

  predicate LiveIn(m: M.State, key: ConsumerKey) {
    key in m.locks && m.now < m.locks[key].heldUntil
  }

  ghost predicate SafeAt(m: M.State, key: ConsumerKey)
    requires key in m.locks
  {
    SafeLease(m, key, m.locks[key].holder, m.locks[key].epoch)
  }

  /** Every live lock is safe from every timer. */
  ghost predicate AllSafe(m: M.State) {
    M.Coherent(m) && forall k :: LiveIn(m, k) ==> SafeAt(m, k)
  }

  /** A lock that is live after a step was live before it, or was granted by it. */
  lemma LiveWasLive(m: M.State, step: M.Step, key: ConsumerKey)
    requires M.Enabled(m, step) && LiveIn(M.Next(m, step), key)
    requires step.Client? && step.command.Heartbeat? && key in m.locks && step.command.key == key ==> m.locks[key].heldUntil != m.now
    ensures LiveIn(m, key) || (step.Client? && step.command.TryAcquire? && step.command.key == key
                               && M.ClientStep(m, step.command, step.swept).1.Granted())
  {
  }

  /** A live lock that a step keeps, other than by granting it anew, is still the same lock. */
  lemma SafeStaysSafe(m: M.State, step: M.Step, key: ConsumerKey)
    requires LiveIn(m, key) && SafeAt(m, key) && M.Enabled(m, step) && LiveIn(M.Next(m, step), key)
    requires !(step.Client? && step.command.TryAcquire? && step.command.key == key
               && M.ClientStep(m, step.command, step.swept).1.Granted())
    ensures SafeAt(M.Next(m, step), key)
  {
    var holder, epoch := m.locks[key].holder, m.locks[key].epoch;
    if Respectful(step, key, holder) {
      hide SafeLease;
      StepKeepsLease(m, step, key, holder, epoch);
      if step.Advance? {
        assert Leased(M.Next(m, step), key, holder, epoch);
      }
    } else {
      assert M.Next(m, step) == m;
    }
  }

  lemma StepKeepsAllSafe(m: M.State, step: M.Step)
    requires AllSafe(m) && M.Enabled(m, step)
    requires step.Client? ==> LeavesHarmless(m, step.command, step.swept)
    requires step.Client? && step.command.key in m.locks ==> m.locks[step.command.key].heldUntil != m.now
    ensures AllSafe(M.Next(m, step))
  {
    var m' := M.Next(m, step);
    StepKeepsCoherent(m, step);
    hide M.Coherent, SafeAt;
    forall k | LiveIn(m', k)
      ensures SafeAt(m', k)
    {
      LiveWasLive(m, step, k);
      if step.Client? && step.command.TryAcquire? && step.command.key == k && M.ClientStep(m, step.command, step.swept).1.Granted() {
        GrantIsSafeAt(m, k, step.command.holder, step.command.ttl, step.swept);
      } else {
        SafeStaysSafe(m, step, k);
      }
    }
  }

  lemma GrantIsSafeAt(m: M.State, key: ConsumerKey, holder: string, ttl: int, swept: set<ConsumerKey>)
    requires M.Coherent(m) && M.ValidSweep(m, key, swept) && LeavesHarmless(m, TryAcquire(key, holder, ttl), swept)
    requires M.AcquireStep(m, key, holder, ttl, swept).1.Granted()
    ensures
      var m' := M.AcquireStep(m, key, holder, ttl, swept).0;
      key in m'.locks && SafeAt(m', key)
  {
    GrantStartsLease(m, key, holder, ttl, swept);
  }

  /** In a safe service an expiry operation that removes a lock does so no earlier than its deadline. */
  lemma NoEarlyExpiry(m: M.State, id: nat)
    requires AllSafe(m) && M.Enabled(m, M.Expire(id)) && M.Removes(m, id)
    ensures m.locks[m.timers[id].key].heldUntil <= m.now
  {
    var key := m.timers[id].key;
    if LiveIn(m, key) {
      assert SafeAt(m, key);
      NoExpiryHits(m, id, key, m.locks[key].holder, m.locks[key].epoch);
    }
  }

  // One step.

  predicate EarlyExpiry(m: M.State, step: M.Step) {
    step.Expire? && step.id in m.timers && M.Removes(m, step.id) && LiveIn(m, m.timers[step.id].key)
  }

  /** After a step of the clock or of a timer the services still agree, if and only if it is no early expiry. */
  lemma TimerAgreesIff(m: M.State, p: P.Tables, j: Joint)
    requires Agree(m, p) && Allowed(m, p, j) && !j.Both?
    ensures Agree(NextPair(m, p, j).0, NextPair(m, p, j).1) <==> !EarlyExpiry(m, MemoryStep(j))
  {
    var (m', p') := NextPair(m, p, j);
    if EarlyExpiry(m, MemoryStep(j)) {
      var key := m.timers[j.step.id].key;
      LeaseIsShared(m, p, key);
      assert key !in LiveLeases(m') && key in StoreLeases(p');
    } else {
      forall k
        ensures k in LiveLeases(m') <==> k in StoreLeases(p')
        ensures k in LiveLeases(m') ==> LiveLeases(m')[k] == StoreLeases(p')[k]
      {
        LeaseIsShared(m, p, k);
      }
      LeasesAgreeAt(m', p');
    }
  }

  lemma StepAgrees(m: M.State, p: P.Tables, j: Joint)
    requires Agree(m, p) && AllSafe(m) && Allowed(m, p, j)
    ensures Agree(NextPair(m, p, j).0, NextPair(m, p, j).1) && AllSafe(NextPair(m, p, j).0)
  {
    hide AllSafe, Agree;
    if j.Both? {
      CommandsAgree(m, p, j.command, j.memorySwept, j.storeSwept);
    } else {
      if EarlyExpiry(m, MemoryStep(j)) {
        NoEarlyExpiry(m, j.step.id);
      }
      TimerAgreesIff(m, p, j);
    }
    StepKeepsAllSafe(m, MemoryStep(j));
  }

  // Whole runs.

  function PairAfter(m: M.State, p: P.Tables, js: seq<Joint>, n: nat): (M.State, P.Tables)
    requires n <= |js|
  {
    if n == 0 then (m, p) else
    var before := PairAfter(m, p, js, n - 1);
    NextPair(before.0, before.1, js[n - 1])
  }

  ghost predicate AllowedRun(m: M.State, p: P.Tables, js: seq<Joint>) {
    forall i :: 0 <= i < |js| ==>
      Allowed(PairAfter(m, p, js, i).0, PairAfter(m, p, js, i).1, js[i])
  }

  /** Over every joint run of a safe service the two agree after each step, and the service stays safe. */
  lemma {:induction false} RunsAgree(m: M.State, p: P.Tables, js: seq<Joint>, n: nat)
    requires Agree(m, p) && AllSafe(m) && AllowedRun(m, p, js) && n <= |js|
    ensures Agree(PairAfter(m, p, js, n).0, PairAfter(m, p, js, n).1) && AllSafe(PairAfter(m, p, js, n).0)
  {
    hide Agree, Allowed, NextPair, AllSafe;
    if n > 0 {
      RunsAgree(m, p, js, n - 1);
      var before := PairAfter(m, p, js, n - 1);
      StepAgrees(before.0, before.1, js[n - 1]);
    }
  }

  /** The n-th step of a joint run, a command, gets the same verdict from both services. */
  ghost predicate Concur(m: M.State, p: P.Tables, js: seq<Joint>, n: nat)
    requires n < |js| && js[n].Both?
  {
    var pair := PairAfter(m, p, js, n);
    SameVerdict(M.ClientStep(pair.0, js[n].command, js[n].memorySwept).1, P.Execute(pair.1, js[n].command, js[n].storeSwept).1)
  }

  /** Every command of every joint run of a safe service gets the same verdict from both services. */
  lemma SameVerdictThroughout(m: M.State, p: P.Tables, js: seq<Joint>, n: nat)
    requires Agree(m, p) && AllSafe(m) && AllowedRun(m, p, js) && n < |js| && js[n].Both?
    ensures Concur(m, p, js, n)
  {
    hide Agree, AllSafe, PairAfter, SameVerdict;
    RunsAgree(m, p, js, n);
    var pair := PairAfter(m, p, js, n);
    CommandsAgree(pair.0, pair.1, js[n].command, js[n].memorySwept, js[n].storeSwept);
  }

  // What an unsafe service leads to.

  /** A joint run whose last step is a command on which the services differ. */
  ghost predicate Parts(m: M.State, p: P.Tables, js: seq<Joint>) {
    js != [] && js[|js| - 1].Both? && !Concur(m, p, js, |js| - 1) && AllowedRun(m, p, js)
  }

  lemma {:induction false} PrependJoint(m: M.State, p: P.Tables, j: Joint, rest: seq<Joint>, n: nat)
    requires n <= |rest|
    ensures PairAfter(m, p, [j] + rest, n + 1) == PairAfter(NextPair(m, p, j).0, NextPair(m, p, j).1, rest, n)
  {
    hide NextPair;
    if n == 0 {
      assert PairAfter(m, p, [j] + rest, 0) == (m, p);
    } else {
      PrependJoint(m, p, j, rest, n - 1);
    }
  }

  lemma PrependAllowed(m: M.State, p: P.Tables, j: Joint, rest: seq<Joint>, i: nat)
    requires Allowed(m, p, j) && AllowedRun(NextPair(m, p, j).0, NextPair(m, p, j).1, rest) && i < |[j] + rest|
    ensures Allowed(PairAfter(m, p, [j] + rest, i).0, PairAfter(m, p, [j] + rest, i).1, ([j] + rest)[i])
  {
    hide NextPair, Allowed;
    if i == 0 {
      assert PairAfter(m, p, [j] + rest, 0) == (m, p);
    } else {
      PrependJoint(m, p, j, rest, i - 1);
      assert ([j] + rest)[i] == rest[i - 1];
      hide PairAfter;
    }
  }

  lemma PrependParting(m: M.State, p: P.Tables, j: Joint, rest: seq<Joint>)
    requires Allowed(m, p, j) && Parts(NextPair(m, p, j).0, NextPair(m, p, j).1, rest)
    ensures Parts(m, p, [j] + rest)
  {
    hide NextPair, Allowed, SameVerdict, PairAfter;
    var js := [j] + rest;
    forall i | 0 <= i < |js|
      ensures Allowed(PairAfter(m, p, js, i).0, PairAfter(m, p, js, i).1, js[i])
    {
      PrependAllowed(m, p, j, rest, i);
    }
    PrependJoint(m, p, j, rest, |rest| - 1);
    assert js[|js| - 1] == rest[|rest| - 1];
  }

  /** Once an early expiry has removed the lock, the owner's next submission parts the services. */
  lemma RemovedLockParts(m: M.State, p: P.Tables, key: ConsumerKey, holder: string) returns (js: seq<Joint>)
    requires key !in m.locks && P.Active(p, key) && p.locks[key].holder == holder
    ensures Parts(m, p, js)
  {
    js := [Both(Submit(key, holder), {}, {})];
    assert PairAfter(m, p, js, 0) == (m, p);
  }

  function TowardsParting(m: M.State, id: nat): Joint
    requires id in m.timers
  {
    var step := M.TowardsExpiry(m, id);
    if step.Advance? then Clock(step.to) else Timer(step)
  }

  lemma {:induction false} AimedTimerParts(m: M.State, p: P.Tables, key: ConsumerKey, holder: string, epoch: nat, id: nat)
    returns (js: seq<Joint>)
    requires Agree(m, p) && Aimed(m, key, holder, epoch, id)
    ensures Parts(m, p, js)
    decreases m.timers[id].due > m.now,
              match m.timers[id].stage case Armed => 2 case Fired => 1 case Queued(_) => 0
  {
    hide Parts, Agree;
    var j := TowardsParting(m, id);
    TimerStepKeepsAim(m, key, holder, epoch, id);
    var (m', p') := NextPair(m, p, j);
    var rest;
    if M.TowardsExpiry(m, id).Expire? {
      LeaseIsShared(m, p, key);
      rest := RemovedLockParts(m', p', key, holder);
    } else {
      TimerAgreesIff(m, p, j);
      rest := AimedTimerParts(m', p', key, holder, epoch, id);
    }
    PrependParting(m, p, j, rest);
    js := [j] + rest;
  }

  lemma RenewalKeepsAgreement(m: M.State, p: P.Tables, key: ConsumerKey, holder: string, epoch: nat)
    requires Agree(m, p) && Leased(m, key, holder, epoch)
    ensures
      var j := Both(Heartbeat(key, holder, M.StoredPosition(m.positions, key)), {}, {});
      Allowed(m, p, j) && Agree(NextPair(m, p, j).0, NextPair(m, p, j).1)
  {
    LeaseIsShared(m, p, key);
    CommandsAgree(m, p, Heartbeat(key, holder, M.StoredPosition(m.positions, key)), {}, {});
  }

  lemma {:induction false} HarmfulTimerParts(m: M.State, p: P.Tables, key: ConsumerKey, holder: string, epoch: nat, id: nat)
    returns (js: seq<Joint>)
    requires Agree(m, p) && Endangered(m, key, holder, epoch, id)
    ensures Parts(m, p, js)
    decreases M.Carried(m, m.timers[id]) - M.Generation(m, epoch)
  {
    if M.Carried(m, m.timers[id]) == M.Generation(m, epoch) {
      js := AimedTimerParts(m, p, key, holder, epoch, id);
    } else {
      hide M.Coherent, M.HeartbeatStep, M.Carried, M.Generation, Parts, Agree;
      var wait, waited := Clock(m.locks[key].heldUntil - 1), Waited(m, key);
      WaitingKeepsDanger(m, key, holder, epoch, id);
      SameCounts(m, waited, epoch, id);
      TimerAgreesIff(m, p, wait);
      var p' := NextPair(m, p, wait).1;
      var renew := Both(Heartbeat(key, holder, M.StoredPosition(waited.positions, key)), {}, {});
      RenewalKeepsAgreement(waited, p', key, holder, epoch);
      LastRenewalKeepsDanger(waited, key, holder, epoch, id);
      var (m2, p2) := NextPair(waited, p', renew);
      var rest := HarmfulTimerParts(m2, p2, key, holder, epoch, id);
      PrependParting(waited, p', renew, rest);
      PrependParting(m, p, wait, [renew] + rest);
      js := [wait] + ([renew] + rest);
    }
  }

  ghost predicate AlwaysConcur(m: M.State, p: P.Tables) {
    forall js: seq<Joint>, n: nat :: AllowedRun(m, p, js) && n < |js| && js[n].Both? ==> Concur(m, p, js, n)
  }

  /**
   From agreeing states, every command of every joint run gets the same verdict from both
   services, if and only if no timer of the in-memory service can end a live lease early.
   */
  lemma AgreementIff(m: M.State, p: P.Tables)
    requires Agree(m, p) && Orderly(m)
    ensures AlwaysConcur(m, p) <==> AllSafe(m)
  {
    hide Agree, AllowedRun, Concur;
    if AllSafe(m) {
      forall js: seq<Joint>, n: nat | AllowedRun(m, p, js) && n < |js| && js[n].Both?
        ensures Concur(m, p, js, n)
      {
        SameVerdictThroughout(m, p, js, n);
      }
    } else {
      var key :| LiveIn(m, key) && !SafeAt(m, key);
      var js := UnsafeLeaseParts(m, p, key);
    }
  }

  lemma UnsafeLeaseParts(m: M.State, p: P.Tables, key: ConsumerKey) returns (js: seq<Joint>)
    requires Agree(m, p) && Orderly(m) && LiveIn(m, key) && !SafeAt(m, key)
    ensures Parts(m, p, js)
  {
    hide Parts, Agree;
    var holder, epoch := m.locks[key].holder, m.locks[key].epoch;
    if !TimersHarmless(m, key) {
      var id :| LeftBehind(m, key, id) && !Harmless(m, key, id);
      js := HarmfulTimerParts(m, p, key, holder, epoch, id);
    } else {
      var id :| Replaced(m, key, id) && !Spent(m, key, id);
      UnspentIsAimed(m, key, holder, epoch, id);
      js := AimedTimerParts(m, p, key, holder, epoch, id);
    }
  }

  /** A holder that acquires again before its deadline, for a later one, can bring the services apart. */
  lemma ReacquiringParts(m: M.State, p: P.Tables, key: ConsumerKey, holder: string, ttl: int, swept: set<ConsumerKey>)
    returns (js: seq<Joint>)
    requires M.Coherent(m) && M.ValidSweep(m, key, swept) && M.HeldBy(m, key, holder)
    requires LOCK_MINIMUM_TTL <= ttl && m.locks[key].heldUntil < m.now + ttl
    requires Agree(M.AcquireStep(m, key, holder, ttl, swept).0, p)
    ensures Parts(M.AcquireStep(m, key, holder, ttl, swept).0, p, js)
  {
    OldTimerEndangersNewLease(m, key, holder, ttl, swept);
    js := HarmfulTimerParts(M.AcquireStep(m, key, holder, ttl, swept).0, p, key, holder, m.next, m.locks[key].timer);
  }

  /** New services, over any streams, give the same verdict throughout every joint run. */
  lemma NewServicesConcur(now: int, streams: set<(string, string)>, js: seq<Joint>, n: nat)
    requires AllowedRun(M.Initial(now), P.Tables(now, streams, map[], map[]), js) && n < |js| && js[n].Both?
    ensures Concur(M.Initial(now), P.Tables(now, streams, map[], map[]), js, n)
  {
    var m, p := M.Initial(now), P.Tables(now, streams, map[], map[]);
    assert Agree(m, p);
    hide Agree, AllSafe, AllowedRun, Concur;
    SameVerdictThroughout(m, p, js, n);
  }
}
