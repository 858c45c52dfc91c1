/**
 What the pump skips: whatever names it runs under, and however often it loses its
 lock, its resume filter only excludes events whose handler has succeeded or ended with
 the bare error of its tick's deadline, which passes for an idle tick.  And a projection
 is exact when it runs under the consumer's own name and wraps its errors.
 */
module PumpProgress {
  import opened Wrappers
  import opened Queries
  import opened ProjectionStore
  import opened ProjectionRuns

  /** The handler of every matching event up to here has succeeded, or may end with the bare deadline error. */
  ghost predicate AllHandled(p: Projection, log: seq<Event>, handled: set<int>, upTo: int) {
    forall i :: 0 <= i < |log| && p.handles(log[i].kind) && log[i].id <= upTo ==> log[i].id in handled || p.bare(log[i])
  }

  ghost predicate Settled(p: Projection, v: World, id: int) {
    && (id < 0 || exists i :: 0 <= i < |v.log| && id <= v.log[i].id)
    && AllHandled(p, v.log, v.handled, id)
  }

  /** A position of 0 filters nothing. */
  ghost predicate SafeToStore(p: Projection, v: World, position: int) {
    position <= 0 || Settled(p, v, position)
  }

  ghost predicate InHand(p: Projection, v: World, e: Event) {
    e in v.log && AllHandled(p, v.log, v.handled, e.id - 1)
  }

  ghost predicate NothingSkipped(p: Projection, v: World) {
    && (forall i :: 0 <= i < |v.log| ==> v.log[i].id >= 0)
    && Ordered(v.log)
    && SafeToStore(p, v, StoredPosition(v.db.positions, p.holder))
    && (v.pump != Down ==> SafeToStore(p, v, v.pump.position))
    && match v.pump
       case Down => true
       case Watching(_, watched) => Settled(p, v, watched)
       case Handling(e, _) => InHand(p, v, e)
       case Reduced(e, _, _) => InHand(p, v, e)
       case Persisted(e, _) => Settled(p, v, e.id)
  }

  lemma AppendKeepsSettled(p: Projection, v: World, e: Event, id: int)
    requires LastIs(v.log, e.id - 1) && Settled(p, v, id) && e.id >= 0
    ensures Settled(p, v.(log := v.log + [e]), id)
  {
    if id >= 0 {
      var i :| 0 <= i < |v.log| && id <= v.log[i].id;
      assert (v.log + [e])[i] == v.log[i];
    }
  }

  lemma AppendSkipsNothing(p: Projection, v: World, e: Event)
    requires NothingSkipped(p, v) && Enabled(p, v, Append(e))
    ensures NothingSkipped(p, Next(p, v, Append(e)))
  {
    forall id | Settled(p, v, id)
      ensures Settled(p, v.(log := v.log + [e]), id)
    {
      AppendKeepsSettled(p, v, e, id);
    }
  }

  lemma PersistSkipsNothing(p: Projection, v: World)
    requires NothingSkipped(p, v) && Enabled(p, v, Persist)
    ensures NothingSkipped(p, Next(p, v, Persist))
  {
    hide Apply, Acceptable, Ordered, AllHandled;
    var e, v' := v.pump.event, Next(p, v, Persist);
    HandledIsSettled(p, v, e);
    forall id | Settled(p, v, id)
      ensures Settled(p, v.(handled := v.handled + {e.id}), id)
    {
      HandlingMoreKeepsSettled(p, v, e, id);
    }
    forall id
      ensures v'.handled != v.handled ==> (Settled(p, v.(handled := v.handled + {e.id}), id) <==> Settled(p, v', id))
    {
      if v'.handled != v.handled {
        SettledAlike(p, v.(handled := v.handled + {e.id}), v', id);
      }
    }
  }

  lemma BeatSkipsNothing(p: Projection, v: World, accepted: bool, position: int, watched: int)
    requires NothingSkipped(p, v) && SafeToStore(p, v, position) && Settled(p, v, watched)
    ensures NothingSkipped(p, Heartbeat(p, v, accepted, position, watched))
  {
    hide Settled, Ordered;
    var v' := Heartbeat(p, v, accepted, position, watched);
    forall id
      ensures Settled(p, v, id) <==> Settled(p, v', id)
    {
      SettledAlike(p, v, v', id);
    }
  }

  lemma BareIsSettled(p: Projection, v: World, e: Event)
    requires Ordered(v.log) && InHand(p, v, e) && p.bare(e)
    ensures Settled(p, v, e.id)
  {
    var k :| 0 <= k < |v.log| && v.log[k] == e;
    forall i | 0 <= i < |v.log| && p.handles(v.log[i].kind) && v.log[i].id <= e.id
      ensures v.log[i].id in v.handled || p.bare(v.log[i])
    {
      assert v.log[i].id == e.id ==> i == k;
    }
  }

  lemma HandledIsSettled(p: Projection, v: World, e: Event)
    requires InHand(p, v, e)
    ensures Settled(p, v.(handled := v.handled + {e.id}), e.id)
  {
    var k :| 0 <= k < |v.log| && v.log[k] == e;
  }

  lemma HandlingMoreKeepsSettled(p: Projection, v: World, e: Event, id: int)
    requires Settled(p, v, id)
    ensures Settled(p, v.(handled := v.handled + {e.id}), id)
  {
  }

  /** What is settled depends on the log and the handled events alone. */
  lemma SettledAlike(p: Projection, v: World, v': World, id: int)
    requires v'.log == v.log && v'.handled == v.handled
    ensures Settled(p, v, id) <==> Settled(p, v', id)
  {
  }

  lemma DeliverSkipsNothing(p: Projection, v: World, e: Event)
    requires NothingSkipped(p, v) && Enabled(p, v, Deliver(e))
    ensures NothingSkipped(p, Next(p, v, Deliver(e)))
  {
    hide Ordered;
  }

  lemma AcquireSkipsNothing(p: Projection, v: World)
    requires NothingSkipped(p, v) && Enabled(p, v, Acquire)
    ensures NothingSkipped(p, Next(p, v, Acquire))
  {
    hide Ordered;
  }

  lemma TimeUpSkipsOnlyBare(p: Projection, v: World, accepted: bool)
    requires NothingSkipped(p, v) && Enabled(p, v, TimeUp(accepted))
    ensures NothingSkipped(p, Next(p, v, TimeUp(accepted)))
  {
    hide Heartbeat;
    var e := v.pump.event;
    BareIsSettled(p, v, e);
    hide Settled, AllHandled, Ordered;
    BeatSkipsNothing(p, v, accepted, v.pump.position, e.id);
  }

  lemma StepSkipsNothing(p: Projection, v: World, s: Step)
    requires NothingSkipped(p, v) && Enabled(p, v, s)
    ensures NothingSkipped(p, Next(p, v, s))
  {
    match s
    case Append(e) => AppendSkipsNothing(p, v, e);
    case Persist => PersistSkipsNothing(p, v);
    case Advance(accepted) =>
      hide Heartbeat;
      var e := v.pump.event;
      BeatSkipsNothing(p, v, accepted, e.id, e.id);
    case TimeUp(accepted) => TimeUpSkipsOnlyBare(p, v, accepted);
    case IdleBeat(accepted) =>
      hide Heartbeat;
      BeatSkipsNothing(p, v, accepted, v.pump.position, v.pump.watched);
    case Deliver(e) => DeliverSkipsNothing(p, v, e);
    case Acquire => AcquireSkipsNothing(p, v);
    case _ =>
      hide Ordered;
  }

  lemma {:induction false} RunSkipsNothing(p: Projection, worlds: seq<World>, steps: seq<Step>, n: nat)
    requires IsRun(p, worlds, steps) && n < |worlds|
    ensures NothingSkipped(p, worlds[n])
  {
    if n > 0 {
      hide Enabled, Next, NothingSkipped;
      RunSkipsNothing(p, worlds, steps, n - 1);
      StepSkipsNothing(p, worlds[n - 1], steps[n - 1]);
    }
  }

  /** Would a pump that resumed now leave the event out? */
  predicate ExcludedOnResume(p: Projection, v: World, e: Event) {
    var position := StoredPosition(v.db.positions, p.holder);
    position > 0 && e.id <= position
  }

  /** At any point of any run, a matching event that a resuming pump leaves out has been handled, or is one that may time out bare. */
  lemma PumpNeverSkips(p: Projection, worlds: seq<World>, steps: seq<Step>, n: nat, e: Event)
    requires IsRun(p, worlds, steps) && n < |worlds|
    requires e in worlds[n].log && p.handles(e.kind) && ExcludedOnResume(p, worlds[n], e)
    ensures e.id in worlds[n].handled || p.bare(e)
  {
    RunSkipsNothing(p, worlds, steps, n);
    var i :| 0 <= i < |worlds[n].log| && worlds[n].log[i] == e;
  }

  /** The event is lost to every pump that resumes: left out, and its handler never succeeded. */
  predicate Skipped(p: Projection, v: World, e: Event) {
    e in v.log && p.handles(e.kind) && ExcludedOnResume(p, v, e) && e.id !in v.handled
  }

  /** Whatever the projection, no run skips when its handlers end with the bare error only on these events. */
  ghost predicate NeverSkips(bare: Event -> bool) {
    forall p: Projection, worlds: seq<World>, steps: seq<Step>, n: nat, e: Event ::
      p.bare == bare && IsRun(p, worlds, steps) && n < |worlds| ==> !Skipped(p, worlds[n], e)
  }

  /** Two events, the first of which times out bare: the watch goes on with the second. */
  function TimedOutSteps(a: Event, b: Event): seq<Step> {
    [Append(a), Append(b), Acquire, Deliver(a), TimeUp(true), Deliver(b), Reduce, Persist, Advance(true)]
  }

  /** The worlds of that run up to the second delivery. */
  function TimedOutWorlds(p: Projection, a: Event, b: Event): seq<World> {
    var none, log := Database(NO_ENTRIES, map[]), [a, b];
    [Start(), World([a], none, Down, {}), World(log, none, Down, {}), World(log, none, Watching(0, -1), {}),
     World(log, none, Handling(a, 0), {}), World(log, Database(NO_ENTRIES, map[p.holder := 0]), Watching(0, a.id), {})]
  }

  lemma TimedOutStep(p: Projection, a: Event, b: Event, i: nat)
    requires p.bare(a) && a.id >= 0 && b.id == a.id + 1 && (forall kind :: p.handles(kind)) && i < 5
    ensures
      var worlds, steps := TimedOutWorlds(p, a, b), TimedOutSteps(a, b);
      Enabled(p, worlds[i], steps[i]) && worlds[i + 1] == Next(p, worlds[i], steps[i])
  {
    assert [] + [a] == [a] && [a] + [b] == [a, b];
    assert [a, b][0] == a && [a, b][1] == b;
  }

  lemma TimedOutRun(p: Projection, a: Event, b: Event) returns (worlds: seq<World>)
    requires p.bare(a) && a.id >= 0 && b.id == a.id + 1 && (forall kind :: p.handles(kind))
    requires p.reduce(b, NO_ENTRIES).Some? && Acceptable(Effective(p.reduce(b, NO_ENTRIES).value))
    ensures IsRun(p, worlds, TimedOutSteps(a, b)) && worlds[8].log == [a, b] && worlds[9].log == [a, b]
    ensures worlds[8].db.tables == Apply(NO_ENTRIES, Effective(p.reduce(b, NO_ENTRIES).value), b.id)
    ensures StoredPosition(worlds[8].db.positions, p.consumer) == b.id
    ensures StoredPosition(worlds[9].db.positions, p.holder) == b.id && worlds[9].handled == {b.id}
  {
    hide Apply, Acceptable;
    var steps, first := TimedOutSteps(a, b), TimedOutWorlds(p, a, b);
    assert [a, b][0] == a && [a, b][1] == b;
    var v6 := Next(p, first[5], steps[5]);
    var v7 := Next(p, v6, steps[6]);
    var v8 := Next(p, v7, steps[7]);
    var v9 := Next(p, v8, steps[8]);
    worlds := first + [v6, v7, v8, v9];
    forall i | 0 <= i < |steps|
      ensures Enabled(p, worlds[i], steps[i]) && worlds[i + 1] == Next(p, worlds[i], steps[i])
    {
      if i < 5 {
        TimedOutStep(p, a, b, i);
        hide Enabled, Next;
      }
    }
  }

  /** No run skips an event if and only if no handler ends with the bare deadline error. */
  lemma NeverSkipsIff(bare: Event -> bool)
    ensures NeverSkips(bare) <==> forall e: Event :: e.id >= 0 ==> !bare(e)
  {
    if a: Event :| a.id >= 0 && bare(a) {
      var b := Event(a.id + 1, 0, "", "", "", "");
      var p := Projection("", "", (kind: string) => true, (e: Event, t: Tables) => Some(None), bare);
      var worlds := TimedOutRun(p, a, b);
      assert Skipped(p, worlds[9], a);
    } else {
      forall p: Projection, worlds: seq<World>, steps: seq<Step>, n: nat, e: Event |
        p.bare == bare && IsRun(p, worlds, steps) && n < |worlds|
        ensures !Skipped(p, worlds[n], e)
      {
        WrappedIsNotSkipped(p, worlds, steps, n, e);
      }
    }
  }

  lemma WrappedIsNotSkipped(p: Projection, worlds: seq<World>, steps: seq<Step>, n: nat, e: Event)
    requires (forall x: Event :: x.id >= 0 ==> !p.bare(x)) && IsRun(p, worlds, steps) && n < |worlds|
    ensures !Skipped(p, worlds[n], e)
  {
    if Skipped(p, worlds[n], e) {
      RunSkipsNothing(p, worlds, steps, n);
      PumpNeverSkips(p, worlds, steps, n, e);
    }
  }

  // What makes a projection exact.

  ghost predicate ExactAlways(consumer: string, holder: string, bare: Event -> bool) {
    forall p: Projection, worlds: seq<World>, steps: seq<Step>, n: nat ::
      && p.consumer == consumer && p.holder == holder && p.bare == bare
      && IsRun(p, worlds, steps) && n < |worlds| && FromOne(worlds[n].log)
      ==> Exact(p, worlds[n])
  }

  /** Appends a mark to one entity for every event. */
  function Marking(e: Event, t: Tables): Option<Option<Reduction>> {
    var before := if ("tally", "t") in t.single then t.single[("tally", "t")].value else "";
    Some(Some(Reduction([Upsert("tally", ["t"], Some(before + "x"))], [])))
  }

  function Tally(value: string, version: int): Tables {
    Tables(map[("tally", "t") := Entry(value, version)], map[])
  }

  lemma MarkOnce(t: Tables, e: Event)
    ensures
      var r := Marking(e, t).value;
      && Acceptable(Effective(r))
      && Apply(t, Effective(r), e.id) ==
         t.(single := t.single[("tally", "t") := Entry(r.value.upserts[0].value.value, e.id)])
  {
    var us := Marking(e, t).value.value.upserts;
    assert us[..0] == [];
    assert PutAll(t, us, e.id) == Put(t, us[0], e.id);
  }

  /** A cut between the commit and the heartbeat: the event is handled a second time. */
  lemma OtherNameHandlesTwice(consumer: string, holder: string, bare: Event -> bool)
      returns (p: Projection, worlds: seq<World>, steps: seq<Step>)
    requires consumer != holder
    ensures p.consumer == consumer && p.holder == holder && p.bare == bare && IsRun(p, worlds, steps)
    ensures |worlds| == 11 && FromOne(worlds[10].log) && !Exact(p, worlds[10])
  {
    p := Projection(consumer, holder, (kind: string) => true, Marking, bare);
    var e := Event(1, 0, "", "", "", "");
    var once, twice := Database(Tally("x", 1), map[consumer := 1]), Database(Tally("xx", 1), map[consumer := 1]);
    var first := OneRound(p, World([e], Database(NO_ENTRIES, map[]), Down, {}), e);
    var second := OneRound(p, World([e], once, Down, {1}), e);
    steps := [Append(e), Acquire, Deliver(e), Reduce, Persist, Cut, Acquire, Deliver(e), Reduce, Persist];
    worlds := [Start()] + first + second;
    assert first[4].db == once && second[4].db == twice;
    assert Exact(p, worlds[6]) by {
      assert [e][..0] == [];
    }
    assert !Exact(p, worlds[10]);
    forall i | 0 <= i < |steps|
      ensures Enabled(p, worlds[i], steps[i]) && worlds[i + 1] == Next(p, worlds[i], steps[i])
    {
      if 1 <= i < 5 {
        assert steps[i] == Round(e)[i - 1] && worlds[i] == first[i - 1] && worlds[i + 1] == first[i];
      } else if 6 <= i {
        assert steps[i] == Round(e)[i - 6] && worlds[i] == second[i - 6] && worlds[i + 1] == second[i - 5];
      }
    }
  }

  function Round(e: Event): seq<Step> {
    [Acquire, Deliver(e), Reduce, Persist]
  }

  /** One acquisition that gets as far as committing the log's only event. */
  lemma OneRound(p: Projection, v: World, e: Event) returns (worlds: seq<World>)
    requires p.reduce == Marking && p.consumer != p.holder && (forall kind :: p.handles(kind))
    requires v.pump == Down && v.log == [e] && e.id == 1 && p.holder !in v.db.positions
    ensures |worlds| == 5 && worlds[0] == v
    ensures forall i :: 0 <= i < 4 ==> Enabled(p, worlds[i], Round(e)[i]) && worlds[i + 1] == Next(p, worlds[i], Round(e)[i])
    ensures worlds[4].db == PersistTx(v.db, p.consumer, Marking(e, v.db.tables).value, 1)
    ensures worlds[4].log == v.log && worlds[4].handled == v.handled + {1}
    ensures v.db.tables == NO_ENTRIES ==> worlds[4].db.tables == Tally("x", 1)
    ensures v.db.tables == Tally("x", 1) ==> worlds[4].db.tables == Tally("xx", 1)
  {
    hide Apply;
    MarkOnce(v.db.tables, e);
    var v1 := Next(p, v, Acquire);
    var v2 := Next(p, v1, Deliver(e));
    var v3 := Next(p, v2, Reduce);
    worlds := [v, v1, v2, v3, Next(p, v3, Persist)];
    assert "" + "x" == "x" && "x" + "x" == "xx";
    assert v.db.tables == NO_ENTRIES ==> worlds[4].db.tables.single == Tally("x", 1).single;
    assert v.db.tables == Tally("x", 1) ==> worlds[4].db.tables.single == Tally("xx", 1).single;
  }

  /** An event that times out bare is missing from the entities once the next one is in them. */
  lemma BareEventIsMissing(consumer: string, holder: string, bare: Event -> bool, a: Event)
      returns (p: Projection, worlds: seq<World>, steps: seq<Step>)
    requires bare(a) && a.id >= 1
    ensures p.consumer == consumer && p.holder == holder && p.bare == bare && IsRun(p, worlds, steps)
    ensures |worlds| == 10 && FromOne(worlds[8].log) && !Exact(p, worlds[8])
  {
    p := Projection(consumer, holder, (kind: string) => true, Marking, bare);
    var b := Event(a.id + 1, 0, "", "", "", "");
    MarkOnce(NO_ENTRIES, b);
    worlds := TimedOutRun(p, a, b);
    steps := TimedOutSteps(a, b);
    assert worlds[8].db.tables.single == Tally("x", b.id).single by {
      assert "" + "x" == "x";
    }
    BothMarked(p, a, b);
    assert "x" != "xx";
    assert Tally("x", b.id).single[("tally", "t")] != Tally("xx", b.id).single[("tally", "t")];
  }

  lemma BothMarked(p: Projection, a: Event, b: Event)
    requires p.reduce == Marking && (forall kind :: p.handles(kind)) && a.id < b.id
    ensures Fold(p, [a, b], b.id) == Some(Tally("xx", b.id))
  {
    var one := Tally("x", a.id);
    assert "" + "x" == "x" && "x" + "x" == "xx";
    MarkOnce(NO_ENTRIES, a);
    MarkOnce(one, b);
    assert [a, b][..1] == [a] && [a][..0] == [];
    assert Fold(p, [], b.id) == Some(NO_ENTRIES);
    assert HandleOne(p, a, NO_ENTRIES).value.single == one.single;
    assert Fold(p, [a], b.id) == Some(one);
    assert HandleOne(p, b, one).value.single == Tally("xx", b.id).single;
  }

  /**
   Every projection under these names, with these bare errors, stays exact in every run if and
   only if the names are the same and there are none.
   */
  lemma ExactIff(consumer: string, holder: string, bare: Event -> bool)
    ensures ExactAlways(consumer, holder, bare) <==> consumer == holder && WrapsErrors(bare)
  {
    if consumer != holder {
      var p, worlds, steps := OtherNameHandlesTwice(consumer, holder, bare);
    } else if a: Event :| a.id >= 1 && bare(a) {
      var p, worlds, steps := BareEventIsMissing(consumer, holder, bare, a);
    } else {
      forall p: Projection, worlds: seq<World>, steps: seq<Step>, n: nat |
        && p.consumer == consumer && p.holder == holder && p.bare == bare
        && IsRun(p, worlds, steps) && n < |worlds| && FromOne(worlds[n].log)
        ensures Exact(p, worlds[n])
      {
        ProjectionIsExact(p, worlds, steps, n);
      }
    }
  }
}
