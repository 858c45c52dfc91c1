/**
 A pump on the in-memory transport keeps its lock: when each iteration spends less
 than the TTL beyond its watch, every heartbeat is accepted before the deadline, over
 runs of any length and whatever other clients, the clock and stale timers do.
 */
module LeaseSurvival {
  import opened LockTypes
  import opened MemoryLeases
  import opened LeaseSafety
  import opened PumpLoop

  /** One turn of the loop: its tick, the time the tick waited, and everything else it spent until its heartbeat was performed. */
  datatype Iteration = Iteration(tick: Tick, waited: int, overhead: int)

  function TicksOf(its: seq<Iteration>): seq<Tick> {
    seq(|its|, i requires 0 <= i < |its| => its[i].tick)
  }

  predicate InBudget(it: Iteration, ttl: int) {
    && 0 <= it.waited <= WatchTimeout(ttl)
    && 0 <= it.overhead < ttl - WatchTimeout(ttl)
  }

  predicate IsBeat(step: Step, key: ConsumerKey, holder: string) {
    step.Client? && step.command.Heartbeat? && step.command.key == key && step.command.holder == holder
  }

  function BeatCount(steps: seq<Step>, n: nat, key: ConsumerKey, holder: string): nat
    requires n <= |steps|
  {
    if n == 0 then 0 else BeatCount(steps, n - 1, key, holder) + if IsBeat(steps[n - 1], key, holder) then 1 else 0
  }

  /** When the pump's latest heartbeat was performed, or else its grant. */
  function LastBeat(s: State, steps: seq<Step>, n: nat, key: ConsumerKey, holder: string): int
    requires n <= |steps|
  {
    if n == 0 then s.now
    else if IsBeat(steps[n - 1], key, holder) then After(s, steps, n - 1).now
    else LastBeat(s, steps, n - 1, key, holder)
  }

  /** The position of the loop after its first `k` iterations, when it was granted with `start`. */
  function LoopPosition(start: int, its: seq<Iteration>, k: nat): int
    requires k <= |its|
  {
    Turns(start, TicksOf(its)[..k], AllAccepted).position
  }

  /** The pump neither releases nor acquires while it watches, and nobody else writes its position. */
  predicate LeavesPumpAlone(step: Step, key: ConsumerKey, holder: string) {
    step.Client? ==>
      match step.command
      case Release(k, h) => !(k == key && h == holder)
      case TryAcquire(k, h, _) => !(k == key && h == holder)
      case SetPosition(k, _) => k != key
      case _ => true
  }

  /** The n-th step, if a heartbeat of the pump, ends its next iteration and carries the loop's position. */
  ghost predicate BeatOnTime(s: State, steps: seq<Step>, n: nat, key: ConsumerKey, holder: string, ttl: int, its: seq<Iteration>)
    requires n < |steps|
  {
    IsBeat(steps[n], key, holder) ==>
      var k := BeatCount(steps, n, key, holder);
      && k < |its| && InBudget(its[k], ttl)
      && After(s, steps, n).now == LastBeat(s, steps, n, key, holder) + its[k].waited + its[k].overhead
      && steps[n].command.position == LoopPosition(StoredPosition(s.positions, key), its, k + 1)
  }

  /** The iterations of a pump whose deliveries all lie above its position, beside whatever else the service does. */
  ghost predicate PumpRun(s: State, steps: seq<Step>, key: ConsumerKey, holder: string, ttl: int, its: seq<Iteration>) {
    && IsRun(s, steps) && Rising(StoredPosition(s.positions, key), TicksOf(its))
    && (forall i :: 0 <= i < |steps| ==> LeavesPumpAlone(steps[i], key, holder))
    && (forall i :: 0 <= i < |steps| ==> BeatOnTime(s, steps, i, key, holder, ttl, its))
  }

  /** A safe lease that was renewed at `at` and stores no position beyond `position`. */
  ghost predicate Fresh(s: State, key: ConsumerKey, holder: string, epoch: nat, ttl: int, at: int, position: int) {
    && SafeLease(s, key, holder, epoch)
    && s.locks[key].ttl == ttl && s.locks[key].heldUntil == at + ttl
    && (key in s.positions ==> s.positions[key] <= position)
  }

  lemma OtherStepKeepsFresh(s: State, step: Step, key: ConsumerKey, holder: string, epoch: nat, ttl: int, at: int, position: int)
    requires Fresh(s, key, holder, epoch, ttl, at, position) && Enabled(s, step)
    requires LeavesPumpAlone(step, key, holder) && !IsBeat(step, key, holder)
    requires Next(s, step).now < at + ttl
    ensures Fresh(Next(s, step), key, holder, epoch, ttl, at, position)
  {
    hide Coherent, TimersHarmless, ReplacedSpent, Enabled;
    OtherStepKeepsLock(s, step, key, holder, epoch);
    assert Respectful(step, key, holder);
    StepKeepsLease(s, step, key, holder, epoch);
    ClockRuns(s, step);
    hide Next;
  }

  lemma OtherStepKeepsLock(s: State, step: Step, key: ConsumerKey, holder: string, epoch: nat)
    requires SafeLease(s, key, holder, epoch) && Enabled(s, step)
    requires LeavesPumpAlone(step, key, holder) && !IsBeat(step, key, holder)
    ensures key in Next(s, step).locks && Next(s, step).locks[key] == s.locks[key]
  {
    if step.Expire? && s.timers[step.id].key == key {
      NoExpiryHits(s, step.id, key, holder, epoch);
    }
  }

  lemma BeatKeepsFresh(s: State, step: Step, key: ConsumerKey, holder: string, epoch: nat, ttl: int, at: int, position: int)
    requires Fresh(s, key, holder, epoch, ttl, at, position) && IsBeat(step, key, holder)
    requires position <= step.command.position
    ensures ClientStep(s, step.command, step.swept).1 == Done
    ensures Fresh(Next(s, step), key, holder, epoch, ttl, s.now, step.command.position)
  {
    HeartbeatKeepsLease(s, key, holder, step.command.position, key, holder, epoch);
  }

  lemma ClockRuns(s: State, step: Step)
    requires Enabled(s, step)
    ensures s.now <= Next(s, step).now
  {
  }

  /** Every iteration has its heartbeat, and the positions they carry do not go back. */
  lemma LoopPositionGrows(start: int, its: seq<Iteration>, k: nat)
    requires k < |its| && Rising(start, TicksOf(its))
    ensures LoopPosition(start, its, k) <= LoopPosition(start, its, k + 1)
  {
    var ticks := TicksOf(its);
    RisingPrefix(start, ticks, k);
    RisingPrefix(start, ticks, k + 1);
    OneBeatPerIteration(start, ticks[..k]);
    OneBeatPerIteration(start, ticks[..k + 1]);
    HighestGrows(start, ticks[..k + 1], k);
    assert ticks[..k + 1][..k] == ticks[..k];
  }

  lemma {:induction false} BeatCountBounded(s: State, steps: seq<Step>, n: nat, key: ConsumerKey, holder: string, ttl: int, its: seq<Iteration>)
    requires PumpRun(s, steps, key, holder, ttl, its) && n <= |steps|
    ensures BeatCount(steps, n, key, holder) <= |its|
  {
    hide After, LastBeat, LoopPosition, InBudget;
    if n > 0 {
      BeatCountBounded(s, steps, n - 1, key, holder, ttl, its);
      assert BeatOnTime(s, steps, n - 1, key, holder, ttl, its);
    }
  }

  lemma {:induction false} PumpStaysFresh(s: State, steps: seq<Step>, n: nat, key: ConsumerKey, holder: string, epoch: nat, ttl: int, its: seq<Iteration>)
    requires PumpRun(s, steps, key, holder, ttl, its) && n <= |steps|
    requires Fresh(s, key, holder, epoch, ttl, s.now, StoredPosition(s.positions, key))
    requires After(s, steps, n).now < LastBeat(s, steps, n, key, holder) + ttl
    ensures BeatCount(steps, n, key, holder) <= |its|
    ensures Fresh(After(s, steps, n), key, holder, epoch, ttl, LastBeat(s, steps, n, key, holder),
                  LoopPosition(StoredPosition(s.positions, key), its, BeatCount(steps, n, key, holder)))
  {
    hide Fresh, Next, Enabled, IsBeat, LoopPosition, Rising;
    BeatCountBounded(s, steps, n, key, holder, ttl, its);
    var start := StoredPosition(s.positions, key);
    if n == 0 {
      NoIteration(start, its);
    } else {
      var u, step, k := After(s, steps, n - 1), steps[n - 1], BeatCount(steps, n - 1, key, holder);
      assert Enabled(u, step);
      ClockRuns(u, step);
      assert BeatOnTime(s, steps, n - 1, key, holder, ttl, its);
      PumpStaysFresh(s, steps, n - 1, key, holder, epoch, ttl, its);
      var at := LastBeat(s, steps, n - 1, key, holder);
      if IsBeat(step, key, holder) {
        LoopPositionGrows(start, its, k);
        BeatKeepsFresh(u, step, key, holder, epoch, ttl, at, LoopPosition(start, its, k));
      } else {
        assert LeavesPumpAlone(steps[n - 1], key, holder);
        OtherStepKeepsFresh(u, step, key, holder, epoch, ttl, at, LoopPosition(start, its, k));
      }
    }
  }

  lemma NoIteration(start: int, its: seq<Iteration>)
    ensures LoopPosition(start, its, 0) == start
  {
    assert TicksOf(its)[..0] == [];
  }

  /** A heartbeat of a pump whose lease is fresh at the start finds it fresh, and keeps it so. */
  lemma BeatFindsLeaseFresh(s: State, steps: seq<Step>, n: nat, key: ConsumerKey, holder: string, epoch: nat, ttl: int, its: seq<Iteration>)
    requires Fresh(s, key, holder, epoch, ttl, s.now, StoredPosition(s.positions, key))
    requires PumpRun(s, steps, key, holder, ttl, its) && n < |steps| && IsBeat(steps[n], key, holder)
    ensures
      var u := After(s, steps, n);
      var (u', reply) := ClientStep(u, steps[n].command, steps[n].swept);
      Leased(u, key, holder, epoch) && reply == Done && key in u'.locks && u'.locks[key].heldUntil == u.now + ttl
  {
    assert BeatOnTime(s, steps, n, key, holder, ttl, its);
    hide After, LastBeat, LoopPosition, BeatCount, Rising, PumpRun, SafeLease;
    var start, k := StoredPosition(s.positions, key), BeatCount(steps, n, key, holder);
    PumpStaysFresh(s, steps, n, key, holder, epoch, ttl, its);
    LoopPositionGrows(start, its, k);
    BeatKeepsFresh(After(s, steps, n), steps[n], key, holder, epoch, ttl,
                   LastBeat(s, steps, n, key, holder), LoopPosition(start, its, k));
  }

  lemma GrantIsFresh(s0: State, key: ConsumerKey, holder: string, ttl: int, swept: set<ConsumerKey>)
    requires Coherent(s0) && ValidSweep(s0, key, swept)
    requires AcquireStep(s0, key, holder, ttl, swept).1.Granted()
    requires TimersHarmless(AcquireStep(s0, key, holder, ttl, swept).0, key)
    ensures
      var s := AcquireStep(s0, key, holder, ttl, swept).0;
      Fresh(s, key, holder, s0.next, ttl, s.now, StoredPosition(s.positions, key))
  {
    GrantStartsLease(s0, key, holder, ttl, swept);
    hide Coherent, ValidSweep, TimersHarmless, ReplacedSpent;
  }

  /**
   From a grant to which every timer left behind is harmless: if every iteration of the
   pump stays in its budget, every heartbeat it sends is accepted, strictly before the
   deadline, and restarts the full TTL.
   */
  lemma EveryHeartbeatIsAccepted(
      s0: State, key: ConsumerKey, holder: string, ttl: int, swept: set<ConsumerKey>,
      steps: seq<Step>, its: seq<Iteration>, n: nat)
    requires Coherent(s0) && ValidSweep(s0, key, swept)
    requires AcquireStep(s0, key, holder, ttl, swept).1.Granted()
    requires TimersHarmless(AcquireStep(s0, key, holder, ttl, swept).0, key)
    requires PumpRun(AcquireStep(s0, key, holder, ttl, swept).0, steps, key, holder, ttl, its)
    requires n < |steps| && IsBeat(steps[n], key, holder)
    ensures
      var u := After(AcquireStep(s0, key, holder, ttl, swept).0, steps, n);
      var (u', reply) := ClientStep(u, steps[n].command, steps[n].swept);
      && Leased(u, key, holder, s0.next)
      && reply == Done && key in u'.locks && u'.locks[key].heldUntil == u.now + ttl
  {
    hide AcquireStep, Coherent, ValidSweep, TimersHarmless, PumpRun, Fresh, After, ClientStep;
    GrantIsFresh(s0, key, holder, ttl, swept);
    BeatFindsLeaseFresh(AcquireStep(s0, key, holder, ttl, swept).0, steps, n, key, holder, s0.next, ttl, its);
  }
}
