/**
 What the commands of both lock services reach and what their refusals say: a command
 touches its own consumer and at most 128 expired locks beside it, every refusal states its
 exact cause, and an expiry timer that was stopped or performed never acts again.
 */
module LockEffects {
  import opened LockTypes
  import opened LeaseRuns
  import M = MemoryLeases
  import P = ConsumerStore

  predicate SameStream(a: ConsumerKey, b: ConsumerKey) {
    a.domain == b.domain && a.stream == b.stream
  }

  // What a command reaches.

  /** In memory: another consumer keeps position and lock, unless a grant in its stream sweeps the lock, which had expired. */
  lemma MemoryCommandIsLocal(s: M.State, c: Command, swept: set<ConsumerKey>, k: ConsumerKey)
    requires (c.TryAcquire? ==> M.ValidSweep(s, c.key, swept)) && k != c.key
    ensures
      var (s', reply) := M.ClientStep(s, c, swept);
      && s'.now == s.now
      && (k in s'.positions <==> k in s.positions) && (k in s.positions ==> s'.positions[k] == s.positions[k])
      && (k in s'.locks ==> k in s.locks && s'.locks[k] == s.locks[k])
      && (k in s.locks && k !in s'.locks ==> reply.Granted() && SameStream(k, c.key) && s.locks[k].heldUntil < s.now)
  {
    hide M.StopTimers, M.TimersOf;
  }

  /** In PostgreSQL: likewise. */
  lemma StoreCommandIsLocal(t: P.Tables, c: Command, swept: set<ConsumerKey>, k: ConsumerKey)
    requires (c.TryAcquire? ==> P.ValidSweep(t, c.key, swept)) && k != c.key
    ensures
      var (t', reply) := P.Execute(t, c, swept);
      && t'.now == t.now && t'.streams == t.streams
      && (k in t'.positions <==> k in t.positions) && (k in t.positions ==> t'.positions[k] == t.positions[k])
      && (k in t'.locks ==> k in t.locks && t'.locks[k] == t.locks[k])
      && (k in t.locks && k !in t'.locks ==> reply.Granted() && SameStream(k, c.key) && t.locks[k].heldUntil < t.now)
  {
  }

  /** The locks of other consumers of the stream that are expired in `s`, among those given. */
  function ExpiredBeside(s: M.State, locks: set<ConsumerKey>, key: ConsumerKey): set<ConsumerKey> {
    set k | k in locks && k in s.locks && SameStream(k, key) && k.consumer != key.consumer && s.locks[k].heldUntil < s.now
  }

  lemma GrantKeeps(s: M.State, c: Command, swept: set<ConsumerKey>)
    requires c.TryAcquire? && M.ClientStep(s, c, swept).1.Granted()
    ensures M.ClientStep(s, c, swept).0.locks.Keys == s.locks.Keys - swept + {c.key}
  {
    hide M.StopTimers, M.TimersOf;
  }

  lemma SweptAreGone(before: set<ConsumerKey>, after: set<ConsumerKey>, swept: set<ConsumerKey>)
    requires swept <= before && after == before - swept
    ensures |before| - |after| == |swept|
  {
    assert before == after + swept;
  }

  /** A grant in memory drops 128 of the stream's expired locks, or fewer and leaves none. */
  lemma GrantSweeps(s: M.State, c: Command, swept: set<ConsumerKey>)
    requires c.TryAcquire? && M.ValidSweep(s, c.key, swept) && M.ClientStep(s, c, swept).1.Granted()
    ensures
      var s' := M.ClientStep(s, c, swept).0;
      var before, after := ExpiredBeside(s, s.locks.Keys, c.key), ExpiredBeside(s, s'.locks.Keys, c.key);
      |before| - |after| <= 128 && (after != {} ==> |before| - |after| == 128)
  {
    hide M.ClientStep;
    GrantKeeps(s, c, swept);
    var kept := M.ClientStep(s, c, swept).0.locks.Keys;
    var before, after := ExpiredBeside(s, s.locks.Keys, c.key), ExpiredBeside(s, kept, c.key);
    assert before == M.Sweepable(s, c.key) && after == before - swept;
    hide ExpiredBeside, M.Sweepable;
    SweptAreGone(before, after, swept);
  }

  function StoreExpiredBeside(t: P.Tables, locks: set<ConsumerKey>, key: ConsumerKey): set<ConsumerKey> {
    set k | k in locks && k in t.locks && SameStream(k, key) && k.consumer != key.consumer && t.locks[k].heldUntil < t.now
  }

  /** A grant in PostgreSQL drops at most 128 of the stream's expired locks, and unless its sweep fails, 128 or all of them. */
  lemma StoreGrantSweeps(t: P.Tables, c: Command, swept: set<ConsumerKey>)
    requires c.TryAcquire? && P.ValidSweep(t, c.key, swept) && P.Execute(t, c, swept).1.Granted()
    ensures
      var t' := P.Execute(t, c, swept).0;
      var before, after := StoreExpiredBeside(t, t.locks.Keys, c.key), StoreExpiredBeside(t, t'.locks.Keys, c.key);
      |before| - |after| <= 128 && (P.ThoroughSweep(t, c.key, swept) && after != {} ==> |before| - |after| == 128)
  {
    var kept := P.Execute(t, c, swept).0.locks.Keys;
    assert kept == t.locks.Keys + {c.key} - swept by {
      hide P.ValidSweep;
    }
    hide P.Execute;
    var before, after := StoreExpiredBeside(t, t.locks.Keys, c.key), StoreExpiredBeside(t, kept, c.key);
    assert before == P.Sweepable(t, c.key);
    hide P.Sweepable;
    assert after == before - swept;
    hide StoreExpiredBeside;
    SweptAreGone(before, after, swept);
  }

  // What a refusal says.

  /** In memory: each error, exactly when it is given. */
  lemma MemoryRefusals(s: M.State, c: Command, swept: set<ConsumerKey>)
    ensures
      var reply := M.ClientStep(s, c, swept).1;
      var stands := c.key in s.locks && s.now <= s.locks[c.key].heldUntil;
      var mine := stands && s.locks[c.key].holder == (if c.SetPosition? || c.DeletePosition? then "" else c.holder);
      && (reply == Failed(TTLTooLow) <==> c.TryAcquire? && c.ttl < LOCK_MINIMUM_TTL)
      && (reply == Failed(LockExpired) <==> c.Heartbeat? && !stands)
      && (reply == Failed(LockNotHeld) <==>
            ((c.Heartbeat? || c.Release?) && stands && !mine) || (c.Submit? && !mine))
      && (forall target, current :: reply == Failed(HeartbeatConflict(target, current)) <==>
            c.Heartbeat? && mine && c.key in s.positions && target == c.position < s.positions[c.key] == current)
      && (forall requested, current :: reply == Failed(BackwardPosition(requested, current)) <==>
            c.SetPosition? && c.key in s.positions && requested == c.eventID < s.positions[c.key] == current)
      && reply != Failed(LockNotFound) && reply != Failed(InvalidParameters) && reply != Failed(StreamNotFound)
  {
  }

  /** In PostgreSQL: a lock past its deadline is reported expired, one at its deadline not found. */
  lemma StoreRefusals(t: P.Tables, c: Command, swept: set<ConsumerKey>)
    ensures
      var reply := P.Execute(t, c, swept).1;
      var there := c.key in t.locks;
      var stands := there && t.now < t.locks[c.key].heldUntil;
      var named := there && t.locks[c.key].holder == (if c.SetPosition? || c.DeletePosition? then "" else c.holder);
      var proper := c.Release? && c.key.domain != "" && c.key.stream != "" && c.key.consumer != "" && c.holder != "";
      && (reply == Failed(TTLTooLow) <==> c.TryAcquire? && c.ttl < LOCK_MINIMUM_TTL)
      && (reply == Failed(StreamNotFound) <==>
            ((c.TryAcquire? && c.ttl >= LOCK_MINIMUM_TTL) || c.SetPosition?) && !P.StreamExists(t, c.key))
      && (reply == Failed(InvalidParameters) <==> c.Release? && !proper)
      && (reply == Failed(LockExpired) <==> c.Heartbeat? && named && t.locks[c.key].heldUntil < t.now)
      && (reply == Failed(LockNotFound) <==> c.Heartbeat? && (!there || (named && t.locks[c.key].heldUntil == t.now)))
      && (reply == Failed(LockNotHeld) <==>
            (c.Heartbeat? && there && !named) || (proper && stands && !named) || (c.Submit? && !(stands && named)))
      && (forall target, current :: reply == Failed(HeartbeatConflict(target, current)) <==>
            c.Heartbeat? && stands && named && c.key in t.positions && target == c.position < t.positions[c.key] == current)
      && (forall requested, current :: reply == Failed(BackwardPosition(requested, current)) <==>
            c.SetPosition? && P.StreamExists(t, c.key) && c.key in t.positions
            && requested == c.eventID < t.positions[c.key] == current)
  {
  }

  /**
   A denied acquisition: memory reports the lock that stands in the way and its deadlines; the
   store reports the deadlines a grant would have had, and a holder only before the deadline.
   */
  lemma DenialReports(s: M.State, t: P.Tables, key: ConsumerKey, holder: string, ttl: int, ms: set<ConsumerKey>, ps: set<ConsumerKey>)
    ensures
      var (s', reply) := M.AcquireStep(s, key, holder, ttl, ms);
      reply.Lease? && !reply.result.acquired ==>
        && s' == s && key in s.locks && s.locks[key].holder != holder && s.now <= s.locks[key].heldUntil
        && reply.result == LockResult(false, s.locks[key].holder, s.locks[key].guaranteeUntil, s.locks[key].heldUntil, -1)
    ensures
      var (t', reply) := P.AcquireTx(t, key, holder, ttl, ps);
      reply.Lease? && !reply.result.acquired ==>
        && t' == t && key in t.locks && t.locks[key].holder != holder && t.now <= t.locks[key].heldUntil
        && reply.result.heldBy == (if t.now == t.locks[key].heldUntil then "" else t.locks[key].holder)
        && var granted := P.AcquireTx(t.(locks := t.locks - {key}), key, holder, ttl, ps).1;
           && granted.Granted() && reply.result.position == -1
           && reply.result.guaranteeUntil == granted.result.guaranteeUntil && reply.result.heldUntil == granted.result.heldUntil
  {
  }

  // What a grant reports.

  /** The position a command leaves its consumer, when it is accepted. */
  function Left(c: Command, before: int): int {
    match c
    case Heartbeat(_, _, position) => position
    case SetPosition(_, eventID) => eventID
    case DeletePosition(_) => 0
    case _ => before
  }

  /** In both services a grant right after a command reports the position the command left: what it wrote, 0 if it deleted it, or else what a grant before it would have reported. */
  lemma GrantReportsLatest(s: M.State, t: P.Tables, c: Command, sc: set<ConsumerKey>, holder: string, ttl: int, swept: set<ConsumerKey>)
    ensures
      var (s', reply) := M.ClientStep(s, c, sc);
      var after, before := M.AcquireStep(s', c.key, holder, ttl, swept).1, M.AcquireStep(s, c.key, holder, ttl, swept).1;
      !reply.Failed? && after.Granted() && before.Granted() ==> after.result.position == Left(c, before.result.position)
    ensures
      var (t', reply) := P.Execute(t, c, sc);
      var after, before := P.AcquireTx(t', c.key, holder, ttl, swept).1, P.AcquireTx(t, c.key, holder, ttl, swept).1;
      !reply.Failed? && after.Granted() && before.Granted() ==> after.result.position == Left(c, before.result.position)
  {
    hide M.StopTimers, M.TimersOf;
  }

  // Timers that are done with.

  ghost predicate Past(s: M.State, id: nat) {
    id < s.next && id !in s.timers
  }

  lemma StepKeepsPast(s: M.State, step: M.Step, id: nat)
    requires Past(s, id) && M.Enabled(s, step)
    ensures Past(M.Next(s, step), id)
  {
  }

  lemma {:induction false} PastStaysPast(s: M.State, steps: seq<M.Step>, i: nat, j: nat, id: nat)
    requires M.IsRun(s, steps) && i <= j <= |steps| && Past(M.After(s, steps, i), id)
    ensures Past(M.After(s, steps, j), id)
  {
    hide M.Next, M.Enabled, Past;
    if i < j {
      var u := M.After(s, steps, j - 1);
      PastStaysPast(s, steps, i, j - 1, id);
      StepKeepsPast(u, steps[j - 1], id);
    }
  }

  /** This command removes a lock, released or swept by a grant, whose timer is still armed. */
  ghost predicate StopsTimer(s: M.State, step: M.Step, k: ConsumerKey) {
    && step.Client? && k in s.locks && k !in M.ClientStep(s, step.command, step.swept).0.locks
    && s.locks[k].timer in s.timers && s.timers[s.locks[k].timer].stage.Armed?
  }

  lemma StoppedIsPast(s: M.State, step: M.Step, k: ConsumerKey)
    requires M.Coherent(s) && M.Enabled(s, step) && StopsTimer(s, step, k)
    ensures k in s.locks && Past(M.Next(s, step), s.locks[k].timer)
  {
    assert M.Guarded(s, k);
    hide M.Coherent, M.ValidSweep;
  }

  /**
   In every run from a coherent state: once a command has removed a lock whose timer was still
   armed, that timer's operation is never performed.
   */
  lemma StoppedTimerNeverExpires(s: M.State, steps: seq<M.Step>, i: nat, j: nat, k: ConsumerKey)
    requires M.Coherent(s) && M.IsRun(s, steps) && i < j < |steps|
    requires StopsTimer(M.After(s, steps, i), steps[i], k)
    ensures k in M.After(s, steps, i).locks && steps[j] != M.Expire(M.After(s, steps, i).locks[k].timer)
  {
    hide M.Coherent, M.Next, StopsTimer;
    var u := M.After(s, steps, i);
    RunKeepsCoherent(s, steps, i);
    assert M.Enabled(u, steps[i]) && M.Enabled(M.After(s, steps, j), steps[j]);
    StoppedIsPast(u, steps[i], k);
    PastStaysPast(s, steps, i + 1, j, u.locks[k].timer);
  }

  /** In every run no expiry operation is performed twice. */
  lemma ExpiryHappensOnce(s: M.State, steps: seq<M.Step>, i: nat, j: nat, id: nat)
    requires M.Coherent(s) && M.IsRun(s, steps) && i < j < |steps| && steps[i] == M.Expire(id)
    ensures steps[j] != M.Expire(id)
  {
    var u := M.After(s, steps, i);
    RunKeepsCoherent(s, steps, i);
    assert M.Enabled(u, steps[i]) && M.Enabled(M.After(s, steps, j), steps[j]);
    assert Past(M.Next(u, steps[i]), id);
    PastStaysPast(s, steps, i + 1, j, id);
  }
}
