/**
 Positions are handed from holder to holder: over every run without a deleted
 position a stored position never moves back, and each grant reports at least
 what any earlier holder recorded.
 */
module PositionHandOff {
  import opened LockTypes
  import M = MemoryLeases
  import P = ConsumerStore

  predicate NotBehind(before: map<ConsumerKey, int>, after: map<ConsumerKey, int>) {
    forall k :: k in before ==> k in after && before[k] <= after[k]
  }

  predicate Keeps(c: Command) {
    !c.DeletePosition?
  }

  /** A rejected command, whoever sent it, changes neither locks nor positions. */
  lemma RejectionChangesNothing(m: M.State, p: P.Tables, c: Command, swept: set<ConsumerKey>)
    ensures M.ClientStep(m, c, swept).1.Failed? ==> M.ClientStep(m, c, swept).0 == m
    ensures P.Execute(p, c, swept).1.Failed? ==> P.Execute(p, c, swept).0 == p
  {
  }

  predicate KeepsPositions(step: M.Step) {
    step.Client? ==> Keeps(step.command)
  }

  lemma {:induction false} MemoryPositionsGrow(s: M.State, steps: seq<M.Step>, i: nat, j: nat)
    requires i <= j <= |steps|
    requires forall n :: 0 <= n < |steps| ==> KeepsPositions(steps[n])
    ensures NotBehind(M.After(s, steps, i).positions, M.After(s, steps, j).positions)
  {
    if i < j {
      MemoryPositionsGrow(s, steps, i, j - 1);
    }
  }

  /** In memory: a grant reports no less than any position heartbeated before it. */
  lemma MemoryHandsOff(s: M.State, steps: seq<M.Step>, i: nat, j: nat)
    requires i < j < |steps|
    requires forall n :: 0 <= n < |steps| ==> KeepsPositions(steps[n])
    requires steps[i].Client? && steps[i].command.Heartbeat?
    requires M.ClientStep(M.After(s, steps, i), steps[i].command, steps[i].swept).1 == Done
    requires steps[j].Client? && steps[j].command.TryAcquire? && steps[j].command.key == steps[i].command.key
    requires M.ClientStep(M.After(s, steps, j), steps[j].command, steps[j].swept).1.Granted()
    ensures steps[i].command.position
            <= M.ClientStep(M.After(s, steps, j), steps[j].command, steps[j].swept).1.result.position
  {
    var key := steps[i].command.key;
    assert M.After(s, steps, i + 1).positions[key] == steps[i].command.position;
    MemoryPositionsGrow(s, steps, i + 1, j);
  }

  /** A run of the store: commands, each at the instant it runs. */
  datatype Call = Call(at: int, command: Command, swept: set<ConsumerKey>)

  function Serve(t: P.Tables, calls: seq<Call>, n: nat): P.Tables
    requires n <= |calls|
    decreases n, 0
  {
    if n == 0 then t else P.Execute(At(t, calls, n - 1), calls[n - 1].command, calls[n - 1].swept).0
  }

  /** The tables that call `n` finds, its clock set. */
  function At(t: P.Tables, calls: seq<Call>, n: nat): P.Tables
    requires n < |calls|
    decreases n, 1
  {
    Serve(t, calls, n).(now := calls[n].at)
  }

  function Answer(t: P.Tables, calls: seq<Call>, n: nat): Reply
    requires n < |calls|
  {
    P.Execute(At(t, calls, n), calls[n].command, calls[n].swept).1
  }

  lemma {:induction false} StorePositionsGrow(t: P.Tables, calls: seq<Call>, i: nat, j: nat)
    requires i <= j <= |calls|
    requires forall n :: 0 <= n < |calls| ==> Keeps(calls[n].command)
    ensures NotBehind(Serve(t, calls, i).positions, Serve(t, calls, j).positions)
  {
    if i < j {
      StorePositionsGrow(t, calls, i, j - 1);
      assert Serve(t, calls, j - 1).positions == At(t, calls, j - 1).positions;
    }
  }

  /** In PostgreSQL: likewise, whatever the clock does. */
  lemma StoreHandsOff(t: P.Tables, calls: seq<Call>, i: nat, j: nat)
    requires i < j < |calls|
    requires forall n :: 0 <= n < |calls| ==> Keeps(calls[n].command)
    requires calls[i].command.Heartbeat? && Answer(t, calls, i) == Done
    requires calls[j].command.TryAcquire? && calls[j].command.key == calls[i].command.key
    requires Answer(t, calls, j).Granted()
    ensures calls[i].command.position <= Answer(t, calls, j).result.position
  {
    var key := calls[i].command.key;
    assert Serve(t, calls, i + 1).positions[key] == calls[i].command.position;
    StorePositionsGrow(t, calls, i + 1, j);
    assert Serve(t, calls, j).positions == At(t, calls, j).positions;
  }

  // Locks and positions of the store belong to its streams.

  ghost predicate OfStreams(t: P.Tables) {
    && (forall k :: k in t.locks ==> P.StreamExists(t, k))
    && (forall k :: k in t.positions ==> P.StreamExists(t, k))
  }

  lemma CommandKeepsToStreams(t: P.Tables, c: Command, swept: set<ConsumerKey>)
    requires OfStreams(t)
    ensures OfStreams(P.Execute(t, c, swept).0) && P.Execute(t, c, swept).0.streams == t.streams
  {
  }

  /** At every point of every run of the store, whatever the commands, a lock's and a position's stream exists. */
  lemma {:induction false} StoreKeepsToStreams(t: P.Tables, calls: seq<Call>, n: nat)
    requires OfStreams(t) && n <= |calls|
    ensures OfStreams(Serve(t, calls, n)) && Serve(t, calls, n).streams == t.streams
  {
    if n > 0 {
      hide P.Execute;
      StoreKeepsToStreams(t, calls, n - 1);
      CommandKeepsToStreams(At(t, calls, n - 1), calls[n - 1].command, calls[n - 1].swept);
    }
  }

  /** For a missing stream an acquisition with a TTL long enough, and any set position, is refused as such; no heartbeat renews. */
  lemma MissingStreamIsRefused(t: P.Tables, c: Command, swept: set<ConsumerKey>)
    requires OfStreams(t) && !P.StreamExists(t, c.key)
    ensures c.TryAcquire? && c.ttl >= LOCK_MINIMUM_TTL ==> P.Execute(t, c, swept) == (t, Failed(StreamNotFound))
    ensures c.SetPosition? ==> P.Execute(t, c, swept) == (t, Failed(StreamNotFound))
    ensures c.Heartbeat? ==> P.Execute(t, c, swept) == (t, Failed(LockNotFound))
    ensures c.Submit? ==> P.Execute(t, c, swept) == (t, Failed(LockNotHeld))
  {
  }
}
