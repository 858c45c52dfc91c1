/**
 Waiting for a projection version.  Emitting a change raises the last version under
 a mutex and then reaches the subscribers one by one; a waiter subscribes before it
 first looks, and its channel drops what does not fit in 16 slots.
 */
module VersionWait {

  class Notifier {
    var lastVersion: int
    ghost var emitted: set<int>

    ghost predicate Valid()
      reads this
    {
      Highest(emitted, lastVersion)
    }

    constructor ()
      ensures Valid() && lastVersion == -1 && emitted == {}
    {
      lastVersion := -1;
      emitted := {};
    }

    method Emit(version: int)
      requires Valid() && version >= 0
      modifies this
      ensures Valid() && emitted == old(emitted) + {version}
    {
      if version > lastVersion {
        lastVersion := version;
      }
      emitted := emitted + {version};
    }

    /**
     Waits through `rounds`: the changes emitted before each look at the last version,
     the final round ending with the context.
     */
    method WaitForVersion(target: int, rounds: seq<seq<int>>) returns (reached: bool)
      requires Valid() && forall i :: 0 <= i < |rounds| ==> Versions(rounds[i])
      modifies this
      ensures Valid() && old(emitted) <= emitted
      ensures reached <==> target < 0 || exists v :: v in emitted && v >= target
      ensures !reached ==> forall i, j :: 0 <= i < |rounds| && 0 <= j < |rounds[i]| ==> rounds[i][j] < target
    {
      if lastVersion >= target {
        return true;
      }
      for i := 0 to |rounds|
        invariant Valid() && old(emitted) <= emitted && lastVersion < target
        invariant forall k, j :: 0 <= k < i && 0 <= j < |rounds[k]| ==> rounds[k][j] in emitted
      {
        EmitAll(rounds[i]);
        if lastVersion >= target {
          return true;
        }
      }
      reached := false;
    }

    method EmitAll(versions: seq<int>)
      requires Valid() && Versions(versions)
      modifies this
      ensures Valid() && old(emitted) <= emitted && forall j :: 0 <= j < |versions| ==> versions[j] in emitted
    {
      for j := 0 to |versions|
        invariant Valid() && old(emitted) <= emitted && forall k :: 0 <= k < j ==> versions[k] in emitted
      {
        Emit(versions[j]);
      }
    }
  }

  predicate Versions(s: seq<int>) {
    forall i :: 0 <= i < |s| ==> s[i] >= 0
  }

  /** The last version is the highest one emitted, or -1. */
  ghost predicate Highest(emitted: set<int>, last: int) {
    && (forall v :: v in emitted ==> 0 <= v <= last)
    && (if emitted == {} then last == -1 else last in emitted)
  }

  // Emitters and waiters side by side.

  const CHANNEL_SLOTS: nat := 16

  /** An emit after it raised the version: about to dispatch, or with subscribers left to reach. */
  datatype Emission = Raised(version: int) | Dispatching(version: int, left: set<nat>)

  datatype WaiterPhase = Looking | Blocked | Ended | Returned(reached: bool)

  datatype Waiter = Waiter(target: int, channel: seq<int>, phase: WaiterPhase)

  /** `emitted` records every version so far. */
  datatype World = World(lastVersion: int, emitted: set<int>, emissions: map<nat, Emission>, waiters: map<nat, Waiter>)

  datatype Step =
    | Raise(id: nat, version: int)
    | Begin(id: nat)
    | Reach(id: nat, w: nat)
    | Subscribe(w: nat, target: int)
    | Look(w: nat)
    | Receive(w: nat)
    | EndContext(w: nat)

  predicate Subscribed(v: World, w: nat) {
    w in v.waiters && !v.waiters[w].phase.Returned?
  }

  predicate Enabled(v: World, s: Step) {
    match s
    case Raise(id, version) => id !in v.emissions && version >= 0
    case Begin(id) => id in v.emissions && v.emissions[id].Raised?
    case Reach(id, w) => id in v.emissions && v.emissions[id].Dispatching? && w in v.emissions[id].left
    case Subscribe(w, _) => w !in v.waiters
    case Look(w) => w in v.waiters && (v.waiters[w].phase == Looking || v.waiters[w].phase == Ended)
    case Receive(w) => w in v.waiters && v.waiters[w].phase == Blocked && v.waiters[w].channel != []
    case EndContext(w) => w in v.waiters && v.waiters[w].phase == Blocked
  }

  /** A message that finds the channel full is dropped. */
  function Offered(channel: seq<int>, version: int): seq<int> {
    if |channel| < CHANNEL_SLOTS then channel + [version] else channel
  }

  function Next(v: World, s: Step): World
    requires Enabled(v, s)
  {
    match s
    case Raise(id, version) =>
      v.(lastVersion := if version > v.lastVersion then version else v.lastVersion,
         emitted := v.emitted + {version}, emissions := v.emissions[id := Raised(version)])
    case Begin(id) =>
      v.(emissions := v.emissions[id := Dispatching(v.emissions[id].version, set w | w in v.waiters && Subscribed(v, w))])
    case Reach(id, w) =>
      var e := v.emissions[id];
      var reached := v.(emissions := v.emissions[id := e.(left := e.left - {w})]);
      if !Subscribed(v, w) then reached
      else reached.(waiters := v.waiters[w := v.waiters[w].(channel := Offered(v.waiters[w].channel, e.version))])
    case Subscribe(w, target) => v.(waiters := v.waiters[w := Waiter(target, [], Looking)])
    case Look(w) =>
      var a := v.waiters[w];
      var phase := if v.lastVersion >= a.target then Returned(true)
                   else if a.phase == Ended then Returned(false) else Blocked;
      v.(waiters := v.waiters[w := a.(phase := phase)])
    case Receive(w) =>
      v.(waiters := v.waiters[w := v.waiters[w].(channel := v.waiters[w].channel[1..], phase := Looking)])
    case EndContext(w) => v.(waiters := v.waiters[w := v.waiters[w].(phase := Ended)])
  }

  function Start(): World {
    World(-1, {}, map[], map[])
  }

  ghost predicate IsRun(worlds: seq<World>, steps: seq<Step>) {
    && |worlds| == |steps| + 1
    && worlds[0] == Start()
    && forall i :: 0 <= i < |steps| ==> Enabled(worlds[i], steps[i]) && worlds[i + 1] == Next(worlds[i], steps[i])
  }

  /** An emit under way that will still reach the waiter. */
  predicate WillReach(v: World, id: nat, w: nat) {
    id in v.emissions && (v.emissions[id].Raised? || w in v.emissions[id].left)
  }

  ghost predicate Notified(v: World, w: nat)
    requires w in v.waiters
  {
    v.waiters[w].channel != [] || exists id :: WillReach(v, id, w)
  }

  ghost predicate NoLostWakeUp(v: World) {
    forall w :: w in v.waiters && v.waiters[w].phase == Blocked && v.waiters[w].target <= v.lastVersion ==> Notified(v, w)
  }

  /** A waiter that returned true was right to: its version, or a later one, had been emitted. */
  ghost predicate TruthTold(v: World) {
    forall w :: w in v.waiters && v.waiters[w].phase == Returned(true) && v.waiters[w].target >= 0
      ==> exists x :: x in v.emitted && x >= v.waiters[w].target
  }

  ghost predicate Sound(v: World) {
    Highest(v.emitted, v.lastVersion) && NoLostWakeUp(v) && TruthTold(v)
  }

  lemma OthersStayNotified(v: World, s: Step, w: nat)
    requires Enabled(v, s) && w in v.waiters && Notified(v, w)
    requires w in Next(v, s).waiters && !(s.Receive? && s.w == w) && v.waiters[w].phase == Blocked
    ensures Notified(Next(v, s), w)
  {
    var v' := Next(v, s);
    if v.waiters[w].channel == [] {
      var id :| WillReach(v, id, w);
      if s.Reach? && s.id == id && s.w == w {
        assert v'.waiters[w].channel != [];
      } else {
        assert WillReach(v', id, w);
      }
    }
  }

  lemma StepKeepsWakeUps(v: World, s: Step)
    requires Sound(v) && Enabled(v, s)
    ensures NoLostWakeUp(Next(v, s))
  {
    var v' := Next(v, s);
    forall w | w in v'.waiters && v'.waiters[w].phase == Blocked && v'.waiters[w].target <= v'.lastVersion
      ensures Notified(v', w)
    {
      if v.waiters[w].phase == Blocked {
        if v.waiters[w].target <= v.lastVersion {
          OthersStayNotified(v, s, w);
        } else {
          assert WillReach(v', s.id, w);
        }
      }
    }
  }

  lemma StepKeepsSound(v: World, s: Step)
    requires Sound(v) && Enabled(v, s)
    ensures Sound(Next(v, s))
  {
    StepKeepsWakeUps(v, s);
    hide NoLostWakeUp;
    var v' := Next(v, s);
    if s.Look? && v'.waiters[s.w].phase == Returned(true) && v.waiters[s.w].target >= 0 {
      assert v.lastVersion in v.emitted;
    }
  }

  /** In every run no wake-up is lost, though full channels drop messages, and every true answer is true. */
  lemma {:induction false} RunKeepsSound(worlds: seq<World>, steps: seq<Step>, n: nat)
    requires IsRun(worlds, steps) && n < |worlds|
    ensures Sound(worlds[n])
  {
    if n > 0 {
      hide Enabled, Next, Sound;
      RunKeepsSound(worlds, steps, n - 1);
      StepKeepsSound(worlds[n - 1], steps[n - 1]);
    }
  }

  /** A waiter gives up exactly when its context ended and no version at or above its target had been emitted. */
  lemma FalseOnlyIfNoneEmitted(worlds: seq<World>, steps: seq<Step>, n: nat, w: nat)
    requires IsRun(worlds, steps) && n < |steps| && steps[n] == Look(w) && worlds[n].waiters[w].target >= 0
    ensures worlds[n + 1].waiters[w].phase == Returned(false) <==>
            worlds[n].waiters[w].phase == Ended && forall x :: x in worlds[n].emitted ==> x < worlds[n].waiters[w].target
  {
    RunKeepsSound(worlds, steps, n);
  }

  /** The given steps bring the waiter home with true. */
  ghost predicate BringHome(v: World, steps: seq<Step>, w: nat)
    decreases |steps|
  {
    if steps == [] then w in v.waiters && v.waiters[w].phase == Returned(true)
    else Enabled(v, steps[0]) && BringHome(Next(v, steps[0]), steps[1..], w)
  }

  lemma OneMoreStep(v: World, s: Step, rest: seq<Step>, w: nat)
    requires Enabled(v, s) && BringHome(Next(v, s), rest, w)
    ensures BringHome(v, [s] + rest, w)
  {
    assert ([s] + rest)[1..] == rest;
  }

  lemma ReceivedReturns(v: World, w: nat) returns (steps: seq<Step>)
    requires w in v.waiters && v.waiters[w].phase == Blocked && v.waiters[w].target <= v.lastVersion
    requires v.waiters[w].channel != []
    ensures BringHome(v, steps, w)
  {
    var received := Next(v, Receive(w));
    OneMoreStep(received, Look(w), [], w);
    OneMoreStep(v, Receive(w), [Look(w)] + [], w);
    steps := [Receive(w)] + ([Look(w)] + []);
  }

  lemma ReachedReturns(v: World, id: nat, w: nat) returns (steps: seq<Step>)
    requires w in v.waiters && v.waiters[w].phase == Blocked && v.waiters[w].target <= v.lastVersion
    requires Enabled(v, Reach(id, w))
    ensures BringHome(v, steps, w)
  {
    var rest := ReceivedReturns(Next(v, Reach(id, w)), w);
    OneMoreStep(v, Reach(id, w), rest, w);
    steps := [Reach(id, w)] + rest;
  }

  /** A blocked waiter whose version has been emitted returns without any further emit. */
  lemma ReachedWaiterReturns(v: World, w: nat) returns (steps: seq<Step>)
    requires Sound(v) && w in v.waiters && v.waiters[w].phase == Blocked && v.waiters[w].target <= v.lastVersion
    ensures BringHome(v, steps, w)
  {
    assert Notified(v, w);
    if v.waiters[w].channel != [] {
      steps := ReceivedReturns(v, w);
    } else {
      var id :| WillReach(v, id, w);
      if v.emissions[id].Raised? {
        var rest := ReachedReturns(Next(v, Begin(id)), id, w);
        OneMoreStep(v, Begin(id), rest, w);
        steps := [Begin(id)] + rest;
      } else {
        steps := ReachedReturns(v, id, w);
      }
    }
  }
}
