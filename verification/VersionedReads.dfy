/**
 Reads of an in-memory projection at a version: what `UntilVersion` may return, and
 which events the store has taken in by then.
 */
module VersionedReads {
  import opened Wrappers
  import opened Queries
  import opened ProjectionStore
  import opened MemoryProjection

  datatype Status = StatusOK | StatusNotFound | StatusTimeout

  datatype Answer = Answer(entity: Option<Entry>, status: Status)

  function Refetched(entity: Option<Entry>): Answer {
    Answer(entity, if entity == None then StatusNotFound else StatusOK)
  }

  /** A first look that already satisfies the wait. */
  predicate AlreadyThere(entity: Option<Entry>, until: int) {
    entity.Some? && entity.value.version >= until
  }

  datatype Handlers = Handlers(handles: string -> bool, reduce: (Event, Entities) -> Option<Reduction>)

  datatype ReaderPhase = Asked | Waiting | Refetching | TimingOut | Answered(answer: Answer, readAt: nat)

  datatype Reader = Reader(kind: string, key: Key, until: int, phase: ReaderPhase)

  /**
   The log, how much of it the pump has been through since it began at `begun`, the
   store, the notifier's last version, and a change persisted but not yet emitted.
   */
  datatype World = World(
    log: seq<Event>, begun: nat, done: nat,
    entities: Entities, lastVersion: int, toEmit: Option<int>,
    readers: map<nat, Reader>)

  datatype Step =
    | Append(event: Event)
    | Skip
    | Persist
    | FailHalfway
    | Emit
    | Ask(r: nat, kind: string, key: Key, until: int)
    | Look(r: nat)
    | Reached(r: nat)
    | GiveUp(r: nat)
    | Fetch(r: nat)

  /** What the pump's handler and the store make of an event. */
  function After(h: Handlers, m: Entities, e: Event): Entities {
    Persisted(m, Effective(h.reduce(e, m)), e.id)
  }

  predicate Enabled(h: Handlers, v: World, s: Step) {
    match s
    case Append(e) => e.id >= 0 && forall i :: 0 <= i < |v.log| ==> v.log[i].id < e.id
    case Skip => v.done < |v.log| && !h.handles(v.log[v.done].kind) && v.toEmit == None
    case Persist =>
      && v.done < |v.log| && h.handles(v.log[v.done].kind) && v.toEmit == None
      && Acceptable(Effective(h.reduce(v.log[v.done], v.entities)))
    case FailHalfway =>
      && v.done < |v.log| && h.handles(v.log[v.done].kind) && v.toEmit == None
      && Halfway(Effective(h.reduce(v.log[v.done], v.entities)))
    case Emit => v.toEmit.Some?
    case Ask(r, _, key, _) => r !in v.readers && ValidKey(key)
    case Look(r) => r in v.readers && v.readers[r].phase == Asked
    case Reached(r) => r in v.readers && v.readers[r].phase == Waiting && v.lastVersion >= v.readers[r].until
    case GiveUp(r) => r in v.readers && v.readers[r].phase == Waiting && v.lastVersion < v.readers[r].until
    case Fetch(r) => r in v.readers && (v.readers[r].phase == Refetching || v.readers[r].phase == TimingOut)
  }

  function Read(v: World, r: nat): Option<Entry>
    requires r in v.readers
  {
    Find(v.entities, v.readers[r].kind, v.readers[r].key)
  }

  function Next(h: Handlers, v: World, s: Step): World
    requires Enabled(h, v, s)
  {
    match s
    case Append(e) => v.(log := v.log + [e])
    case Skip => v.(done := v.done + 1)
    case Persist =>
      v.(done := v.done + 1, entities := After(h, v.entities, v.log[v.done]), toEmit := Some(v.log[v.done].id))
    case FailHalfway => v.(entities := After(h, v.entities, v.log[v.done]))
    case Emit =>
      v.(toEmit := None, lastVersion := if v.toEmit.value > v.lastVersion then v.toEmit.value else v.lastVersion)
    case Ask(r, kind, key, until) => v.(readers := v.readers[r := Reader(kind, key, until, Asked)])
    case Look(r) =>
      var a := v.readers[r];
      v.(readers := v.readers[r := a.(phase :=
        if AlreadyThere(Read(v, r), a.until) then Answered(Answer(Read(v, r), StatusOK), v.done) else Waiting)])
    case Reached(r) => v.(readers := v.readers[r := v.readers[r].(phase := Refetching)])
    case GiveUp(r) => v.(readers := v.readers[r := v.readers[r].(phase := TimingOut)])
    case Fetch(r) =>
      var answer := if v.readers[r].phase == TimingOut then Answer(Read(v, r), StatusTimeout) else Refetched(Read(v, r));
      v.(readers := v.readers[r := v.readers[r].(phase := Answered(answer, v.done))])
  }

  predicate IsStart(v: World) {
    && (forall i :: 0 <= i < |v.log| ==> v.log[i].id >= 0)
    && (forall i, j :: 0 <= i < j < |v.log| ==> v.log[i].id < v.log[j].id)
    && v.begun == v.done <= |v.log| && v.entities == map[] && v.lastVersion == -1 && v.toEmit == None && v.readers == map[]
  }

  ghost predicate IsRun(h: Handlers, worlds: seq<World>, steps: seq<Step>) {
    && |worlds| == |steps| + 1
    && IsStart(worlds[0])
    && forall i :: 0 <= i < |steps| ==> Enabled(h, worlds[i], steps[i]) && worlds[i + 1] == Next(h, worlds[i], steps[i])
  }

  /** The store after the events of `log[first..upTo]`. */
  function StoreAfter(h: Handlers, log: seq<Event>, first: nat, upTo: nat): Entities
    requires first <= upTo <= |log|
    decreases upTo
  {
    if upTo == first then map[]
    else
      var before := StoreAfter(h, log, first, upTo - 1);
      if h.handles(log[upTo - 1].kind) then After(h, before, log[upTo - 1]) else before
  }

  /** An event of at least this ID lies before `upTo`. */
  ghost predicate PastVersion(log: seq<Event>, upTo: nat, version: int) {
    version < 0 || exists i :: 0 <= i < upTo <= |log| && version <= log[i].id
  }

  ghost predicate AnswerHolds(h: Handlers, v: World, r: Reader) {
    r.phase.Answered? ==>
      && v.begun <= r.phase.readAt <= |v.log|
      && r.phase.answer.entity == Find(StoreAfter(h, v.log, v.begun, r.phase.readAt), r.kind, r.key)
      && (r.phase.answer.status == StatusOK ==> r.phase.answer.entity.Some?)
      && (r.phase.answer.status == StatusNotFound ==> r.phase.answer.entity == None)
      && (r.phase.answer.status == StatusOK || r.phase.answer.status == StatusNotFound
          ==> PastVersion(v.log, r.phase.readAt, r.until))
  }

  ghost predicate VersionsPast(v: World) {
    && PastVersion(v.log, v.done, v.lastVersion)
    && (v.toEmit.Some? ==> PastVersion(v.log, v.done, v.toEmit.value))
    && (forall k :: k in v.entities ==> PastVersion(v.log, v.done, v.entities[k].version))
  }

  ghost predicate ReadersHold(h: Handlers, v: World) {
    forall r :: r in v.readers ==>
      AnswerHolds(h, v, v.readers[r]) && (v.readers[r].phase == Refetching ==> PastVersion(v.log, v.done, v.readers[r].until))
  }

  ghost predicate Inv(h: Handlers, v: World) {
    && (forall i :: 0 <= i < |v.log| ==> v.log[i].id >= 0)
    && (forall i, j :: 0 <= i < j < |v.log| ==> v.log[i].id < v.log[j].id)
    && v.begun <= v.done <= |v.log|
    && v.entities == StoreAfter(h, v.log, v.begun, v.done)
    && VersionsPast(v)
    && ReadersHold(h, v)
  }

  lemma {:induction false} StoreIgnoresLater(h: Handlers, log: seq<Event>, e: Event, first: nat, upTo: nat)
    requires first <= upTo <= |log|
    ensures StoreAfter(h, log + [e], first, upTo) == StoreAfter(h, log, first, upTo)
    decreases upTo
  {
    hide After;
    if upTo > first {
      StoreIgnoresLater(h, log, e, first, upTo - 1);
    }
  }

  lemma PastVersionStays(log: seq<Event>, upTo: nat, version: int, log': seq<Event>, upTo': nat)
    requires PastVersion(log, upTo, version) && log <= log' && upTo <= upTo' <= |log'|
    ensures PastVersion(log', upTo', version)
  {
    if version >= 0 {
      var i :| 0 <= i < upTo <= |log| && version <= log[i].id;
      assert log'[i] == log[i];
    }
  }

  lemma AppendKeepsInv(h: Handlers, v: World, e: Event)
    requires Inv(h, v) && Enabled(h, v, Append(e))
    ensures Inv(h, Next(h, v, Append(e)))
  {
    hide After;
    var v' := Next(h, v, Append(e));
    StoreIgnoresLater(h, v.log, e, v.begun, v.done);
    forall upTo: nat, version: int | upTo <= |v.log| && PastVersion(v.log, upTo, version)
      ensures PastVersion(v'.log, upTo, version)
    {
      PastVersionStays(v.log, upTo, version, v'.log, upTo);
    }
    forall r | r in v'.readers
      ensures AnswerHolds(h, v', v'.readers[r])
    {
      assert AnswerHolds(h, v, v.readers[r]);
      if v.readers[r].phase.Answered? {
        StoreIgnoresLater(h, v.log, e, v.begun, v.readers[r].phase.readAt);
      }
    }
  }

  /** The pump moves on: past one more event, handled or not. */
  lemma PumpKeepsInv(h: Handlers, v: World, s: Step)
    requires Inv(h, v) && Enabled(h, v, s) && (s == Skip || s == Persist)
    ensures Inv(h, Next(h, v, s))
  {
    hide Persisted;
    var v' := Next(h, v, s);
    var e := v.log[v.done];
    forall version: int | PastVersion(v.log, v.done, version)
      ensures PastVersion(v.log, v'.done, version)
    {
      PastVersionStays(v.log, v.done, version, v.log, v'.done);
    }
    assert PastVersion(v.log, v'.done, e.id);
    if s == Persist {
      forall k | k in v'.entities
        ensures PastVersion(v.log, v'.done, v'.entities[k].version)
      {
        PersistedVersions(v.entities, Effective(h.reduce(e, v.entities)), e.id, k);
      }
    }
    forall r | r in v'.readers
      ensures AnswerHolds(h, v', v'.readers[r])
    {
      assert AnswerHolds(h, v, v.readers[r]);
    }
  }

  lemma ReaderKeepsInv(h: Handlers, v: World, s: Step)
    requires Inv(h, v) && Enabled(h, v, s)
    requires s.Emit? || s.Ask? || s.Look? || s.Reached? || s.GiveUp? || s.Fetch?
    ensures Inv(h, Next(h, v, s))
  {
    hide StoreAfter;
    var v' := Next(h, v, s);
    forall r | r in v'.readers
      ensures AnswerHolds(h, v', v'.readers[r])
      ensures v'.readers[r].phase == Refetching ==> PastVersion(v'.log, v'.done, v'.readers[r].until)
    {
      if r in v.readers {
        assert AnswerHolds(h, v, v.readers[r]);
      }
      if s == Look(r) && Read(v, r).Some? {
        assert PastVersion(v.log, v.done, Read(v, r).value.version);
      }
    }
  }

  /** No persist among the first `n` steps failed halfway. */
  predicate NoneHalfway(steps: seq<Step>, n: nat)
    requires n <= |steps|
  {
    forall i :: 0 <= i < n ==> steps[i] != FailHalfway
  }

  lemma {:induction false} RunKeepsInv(h: Handlers, worlds: seq<World>, steps: seq<Step>, n: nat)
    requires IsRun(h, worlds, steps) && n < |worlds| && NoneHalfway(steps, n)
    ensures Inv(h, worlds[n])
  {
    if n > 0 {
      hide Enabled, Next, Inv;
      RunKeepsInv(h, worlds, steps, n - 1);
      var v, s := worlds[n - 1], steps[n - 1];
      match s
      case Append(e) => AppendKeepsInv(h, v, e);
      case Skip => PumpKeepsInv(h, v, s);
      case Persist => PumpKeepsInv(h, v, s);
      case _ => ReaderKeepsInv(h, v, s);
    }
  }

  /**
   The answer was read from the store the handlers make of the events so far.  Unless it is a
   time-out, it was read after every event up to the version asked for, and says whether the
   entity is there.
   */
  ghost predicate AnswerRight(h: Handlers, v: World, a: Reader)
    requires a.phase.Answered?
  {
    && v.begun <= a.phase.readAt <= |v.log|
    && a.phase.answer.entity == Find(StoreAfter(h, v.log, v.begun, a.phase.readAt), a.kind, a.key)
    && (a.phase.answer.status == StatusOK ==> a.phase.answer.entity.Some?)
    && (a.phase.answer.status == StatusNotFound ==> a.phase.answer.entity == None)
    && (a.phase.answer.status == StatusOK || a.phase.answer.status == StatusNotFound ==>
          forall i :: 0 <= i < |v.log| && v.log[i].id <= a.until ==> i < a.phase.readAt)
  }

  // When a reader is told that it timed out.

  /** The reader's wait ended among the first `n` steps, before any version it asked for was emitted. */
  ghost predicate GaveUpUnreached(worlds: seq<World>, steps: seq<Step>, n: nat, r: nat, until: int)
    requires n <= |steps| < |worlds|
  {
    exists m :: 0 <= m < n && steps[m] == GiveUp(r) && EmittedBelow(worlds, steps, m, until)
  }

  /** Every version emitted by the first `n` steps is below `until`. */
  ghost predicate EmittedBelow(worlds: seq<World>, steps: seq<Step>, n: nat, until: int)
    requires n <= |steps| < |worlds|
  {
    forall j :: 0 <= j < n && steps[j] == Emit && worlds[j].toEmit.Some? ==> worlds[j].toEmit.value < until
  }

  predicate TimedOut(a: Reader) {
    a.phase == TimingOut || (a.phase.Answered? && a.phase.answer.status == StatusTimeout)
  }

  ghost predicate TimedOutJustly(worlds: seq<World>, steps: seq<Step>, n: nat, r: nat)
    requires n <= |steps| < |worlds|
  {
    r in worlds[n].readers && TimedOut(worlds[n].readers[r]) ==> GaveUpUnreached(worlds, steps, n, r, worlds[n].readers[r].until)
  }

  /** The notifier's last version is at least every version emitted so far. */
  lemma {:induction false} EmittedByLast(h: Handlers, worlds: seq<World>, steps: seq<Step>, n: nat)
    requires IsRun(h, worlds, steps) && n <= |steps|
    ensures EmittedBelow(worlds, steps, n, worlds[n].lastVersion + 1)
  {
    if n > 0 {
      EmittedByLast(h, worlds, steps, n - 1);
      assert Enabled(h, worlds[n - 1], steps[n - 1]) && worlds[n] == Next(h, worlds[n - 1], steps[n - 1]);
      hide IsRun, After;
    }
  }

  /** A reader times out by giving up, which takes a last version below the one it asked for. */
  lemma StepTimesOut(h: Handlers, v: World, s: Step, r: nat)
    requires Enabled(h, v, s) && r in Next(h, v, s).readers && TimedOut(Next(h, v, s).readers[r])
    ensures r in v.readers && v.readers[r].until == Next(h, v, s).readers[r].until
    ensures TimedOut(v.readers[r]) || (s == GiveUp(r) && v.lastVersion < v.readers[r].until)
  {
    hide After;
  }

  /** In every run, whatever the handlers: a time-out is told only to a reader that gave up with no version it asked for emitted. */
  lemma {:induction false} TimeoutsAreJust(h: Handlers, worlds: seq<World>, steps: seq<Step>, n: nat, r: nat)
    requires IsRun(h, worlds, steps) && n <= |steps|
    ensures TimedOutJustly(worlds, steps, n, r)
  {
    if n > 0 && r in worlds[n].readers && TimedOut(worlds[n].readers[r]) {
      var v, s := worlds[n - 1], steps[n - 1];
      assert Enabled(h, v, s) && worlds[n] == Next(h, v, s);
      hide Enabled, Next;
      StepTimesOut(h, v, s, r);
      TimeoutsAreJust(h, worlds, steps, n - 1, r);
      EmittedByLast(h, worlds, steps, n - 1);
    }
  }

  /** As long as no persist has failed halfway, every answer is right. */
  lemma ReadIncludesVersion(h: Handlers, worlds: seq<World>, steps: seq<Step>, n: nat, r: nat)
    requires IsRun(h, worlds, steps) && n < |worlds| && NoneHalfway(steps, n)
    requires r in worlds[n].readers && worlds[n].readers[r].phase.Answered?
    ensures AnswerRight(h, worlds[n], worlds[n].readers[r])
    ensures worlds[n].readers[r].phase.answer.status == StatusTimeout ==>
              GaveUpUnreached(worlds, steps, n, r, worlds[n].readers[r].until)
  {
    hide StoreAfter;
    TimeoutsAreJust(h, worlds, steps, n, r);
    RunKeepsInv(h, worlds, steps, n);
    assert AnswerHolds(h, worlds[n], worlds[n].readers[r]);
  }

  // A persist that fails halfway, and what a reader then sees.

  ghost predicate AlwaysRight(h: Handlers) {
    forall worlds: seq<World>, steps: seq<Step>, n: nat, r: nat ::
      IsRun(h, worlds, steps) && n < |worlds| && r in worlds[n].readers && worlds[n].readers[r].phase.Answered?
      ==> AnswerRight(h, worlds[n], worlds[n].readers[r]) && TimedOutJustly(worlds, steps, n, r)
  }

  ghost predicate NeverHalfway(h: Handlers) {
    forall worlds: seq<World>, steps: seq<Step> :: IsRun(h, worlds, steps) ==> NoneHalfway(steps, |steps|)
  }

  lemma Extend(h: Handlers, worlds: seq<World>, steps: seq<Step>, s: Step)
    requires IsRun(h, worlds, steps) && Enabled(h, worlds[|steps|], s)
    ensures IsRun(h, worlds + [Next(h, worlds[|steps|], s)], steps + [s])
  {
    hide Enabled, Next;
    var worlds', steps' := worlds + [Next(h, worlds[|steps|], s)], steps + [s];
    forall i | 0 <= i < |steps'|
      ensures Enabled(h, worlds'[i], steps'[i]) && worlds'[i + 1] == Next(h, worlds'[i], steps'[i])
    {
      if i < |steps| {
        assert steps'[i] == steps[i] && worlds'[i] == worlds[i] && worlds'[i + 1] == worlds[i + 1];
      }
    }
  }

  lemma Shorten(h: Handlers, worlds: seq<World>, steps: seq<Step>, n: nat)
    requires IsRun(h, worlds, steps) && n <= |steps|
    ensures IsRun(h, worlds[..n + 1], steps[..n])
  {
    hide Enabled, Next, IsStart;
    forall i | 0 <= i < n
      ensures Enabled(h, worlds[..n + 1][i], steps[..n][i]) && worlds[..n + 1][i + 1] == Next(h, worlds[..n + 1][i], steps[..n][i])
    {
      assert steps[..n][i] == steps[i] && worlds[..n + 1][i] == worlds[i] && worlds[..n + 1][i + 1] == worlds[i + 1];
    }
  }

  lemma {:induction false} SomeFresh(taken: set<nat>) returns (r: nat)
    ensures forall x :: x in taken ==> x < r
    decreases |taken|
  {
    if taken == {} {
      r := 0;
    } else {
      var x :| x in taken;
      var below := SomeFresh(taken - {x});
      r := if below <= x then x + 1 else below;
      assert forall y :: y in taken ==> y == x || y in taken - {x};
    }
  }

  /** A reader that looks after the failure is told the half-applied entity, in order and up to date. */
  lemma HalfwayMisleads(h: Handlers, v: World, r: nat) returns (a: Reader)
    requires Inv(h, v) && Enabled(h, v, FailHalfway) && r !in v.readers
    ensures
      var failed := Next(h, v, FailHalfway);
      var ask := Ask(r, a.kind, a.key, a.until);
      && Enabled(h, failed, ask)
      && var asked := Next(h, failed, ask);
         Enabled(h, asked, Look(r)) && Next(h, asked, Look(r)).readers[r] == a && Next(h, asked, Look(r)).log == v.log
         && Next(h, asked, Look(r)).begun == v.begun
    ensures a.phase.Answered? && a.phase.answer.status == StatusOK && !AnswerRight(h, v, a)
  {
    var e := v.log[v.done];
    var reduction := Effective(h.reduce(e, v.entities));
    HalfwayIsVisible(v.entities, reduction, e.id);
    var u := reduction.upserts[EncodedFirst(reduction.upserts) - 1];
    var seen := Some(Entry(u.value.value, e.id));
    a := Reader(u.kind, u.key, e.id, Answered(Answer(seen, StatusOK), v.done));
    hide Persisted, StoreAfter, EncodedFirst;
    var before := Find(v.entities, u.kind, u.key);
    if before.Some? {
      assert PastVersion(v.log, v.done, before.value.version);
    }
    assert before != seen;
  }

  /** After the first persist that fails halfway, a run can go on to a wrong answer. */
  lemma FirstHalfwayMisleads(h: Handlers, worlds: seq<World>, steps: seq<Step>, n: nat)
    returns (worlds': seq<World>, steps': seq<Step>, r: nat)
    requires IsRun(h, worlds, steps) && n < |steps| && steps[n] == FailHalfway && NoneHalfway(steps, n)
    ensures IsRun(h, worlds', steps') && |worlds'| == n + 4 && r in worlds'[n + 3].readers
    ensures worlds'[n + 3].readers[r].phase.Answered? && !AnswerRight(h, worlds'[n + 3], worlds'[n + 3].readers[r])
  {
    var v := worlds[n];
    assert Enabled(h, v, FailHalfway);
    RunKeepsInv(h, worlds, steps, n);
    r := SomeFresh(v.readers.Keys);
    hide Inv, Enabled, Next, IsRun, AnswerRight;
    var a := HalfwayMisleads(h, v, r);
    var ask := Ask(r, a.kind, a.key, a.until);
    Shorten(h, worlds, steps, n);
    worlds', steps' := worlds[..n + 1], steps[..n];
    assert worlds'[n] == v;
    var failed := Next(h, v, FailHalfway);
    var asked := Next(h, failed, ask);
    Extend(h, worlds', steps', FailHalfway);
    worlds', steps' := worlds' + [failed], steps' + [FailHalfway];
    Extend(h, worlds', steps', ask);
    worlds', steps' := worlds' + [asked], steps' + [ask];
    Extend(h, worlds', steps', Look(r));
    worlds', steps' := worlds' + [Next(h, asked, Look(r))], steps' + [Look(r)];
  }

  /** Every answer of every run is right if and only if no persist of any run fails halfway. */
  lemma AlwaysRightIff(h: Handlers)
    ensures AlwaysRight(h) <==> NeverHalfway(h)
  {
    hide AnswerRight, TimedOutJustly, Enabled, Next, IsStart;
    if NeverHalfway(h) {
      forall worlds: seq<World>, steps: seq<Step>, n: nat, r: nat |
        IsRun(h, worlds, steps) && n < |worlds| && r in worlds[n].readers && worlds[n].readers[r].phase.Answered?
        ensures AnswerRight(h, worlds[n], worlds[n].readers[r]) && TimedOutJustly(worlds, steps, n, r)
      {
        TimeoutsAreJust(h, worlds, steps, n, r);
        assert NoneHalfway(steps, |steps|);
        ReadIncludesVersion(h, worlds, steps, n, r);
      }
    } else {
      var worlds: seq<World>, steps: seq<Step> :| IsRun(h, worlds, steps) && !NoneHalfway(steps, |steps|);
      var n := FirstHalfway(steps);
      var worlds', steps', r := FirstHalfwayMisleads(h, worlds, steps, n);
    }
  }

  lemma {:induction false} FirstHalfway(steps: seq<Step>) returns (n: nat)
    requires !NoneHalfway(steps, |steps|)
    ensures n < |steps| && steps[n] == FailHalfway && NoneHalfway(steps, n)
  {
    var last := |steps| - 1;
    if NoneHalfway(steps, last) {
      n := last;
    } else {
      assert !NoneHalfway(steps[..last], last);
      n := FirstHalfway(steps[..last]);
    }
  }

  /** Handlers whose reductions never fail halfway, on any event and any entities. */
  ghost predicate Encodes(h: Handlers) {
    forall e: Event, m: Entities :: !Halfway(Effective(h.reduce(e, m)))
  }

  /** With values that all encode, no persist fails halfway. */
  lemma EncodingNeverHalfway(h: Handlers)
    requires Encodes(h)
    ensures NeverHalfway(h) && AlwaysRight(h)
  {
    forall worlds: seq<World>, steps: seq<Step> | IsRun(h, worlds, steps)
      ensures NoneHalfway(steps, |steps|)
    {
      forall i | 0 <= i < |steps|
        ensures steps[i] != FailHalfway
      {
        assert Enabled(h, worlds[i], steps[i]);
      }
    }
    AlwaysRightIff(h);
  }
}
