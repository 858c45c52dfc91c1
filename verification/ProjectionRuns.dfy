/**
 A pump driving a view projection over the PostgreSQL store, cut and restarted at
 any point.  The pump reads its resume position when it acquires its lock, under
 its holder name; the store records positions under the projection's consumer name.
 The watch hands it the matching events past the resume position in ID order.
 */
module ProjectionRuns {
  import opened Wrappers
  import opened Queries
  import opened ProjectionStore
  import opened PumpLoop

  /**
   A projection: the kinds it handles, what its handlers make of an event and the current
   entities, and the events on which a handler may end with the bare error of its tick's
   deadline.  The handlers of a view wrap every error, so theirs never do.
   */
  datatype Projection = Projection(
    consumer: string, holder: string,
    handles: string -> bool,
    reduce: (Event, Tables) -> Option<Option<Reduction>>,
    bare: Event -> bool)

  datatype PumpState =
    | Down
    | Watching(position: int, watched: int)
    | Handling(event: Event, position: int)
    | Reduced(event: Event, result: Option<Reduction>, position: int)
    | Persisted(event: Event, position: int)

  /** `handled` records the events whose handler has succeeded. */
  datatype World = World(log: seq<Event>, db: Database, pump: PumpState, handled: set<int>)

  function Start(): World {
    World([], Database(NO_ENTRIES, map[]), Down, {})
  }

  datatype Step =
    | Append(event: Event)
    | Acquire
    | Deliver(event: Event)
    | Reduce
    | TimeUp(accepted: bool)
    | Persist
    | Advance(accepted: bool)
    | IdleBeat(accepted: bool)
    | Cut

  predicate LastIs(log: seq<Event>, bound: int) {
    forall i :: 0 <= i < |log| ==> log[i].id <= bound
  }

  /** The next event the watch hands over: the least matching one beyond those it has. */
  predicate NextMatching(p: Projection, log: seq<Event>, watched: int, e: Event) {
    && e in log && p.handles(e.kind) && e.id > watched
    && forall i :: 0 <= i < |log| && p.handles(log[i].kind) && log[i].id > watched ==> e.id <= log[i].id
  }

  predicate Enabled(p: Projection, v: World, s: Step) {
    match s
    case Append(e) => e.id >= 0 && LastIs(v.log, e.id - 1)
    case Acquire => v.pump == Down
    case Deliver(e) => v.pump.Watching? && NextMatching(p, v.log, v.pump.watched, e)
    case Reduce => v.pump.Handling?
    case TimeUp(_) => v.pump.Handling? && p.bare(v.pump.event)
    case Persist => v.pump.Reduced?
    case Advance(_) => v.pump.Persisted?
    case IdleBeat(_) => v.pump.Watching?
    case Cut => true
  }

  /** The lock service's answer, given whether the lock still stands. */
  function BeatOutcome(p: Projection, v: World, accepted: bool, position: int): BeatReply {
    if !accepted then Lost
    else if p.holder in v.db.positions && position < v.db.positions[p.holder] then Conflict(v.db.positions[p.holder])
    else Accepted
  }

  /** After a heartbeat the loop watches on; a bare deadline error passes for an idle tick and brings it here too. */
  function Heartbeat(p: Projection, v: World, accepted: bool, position: int, watched: int): World {
    var reply := BeatOutcome(p, v, accepted, position);
    var stored := if reply == Accepted then v.db.(positions := v.db.positions[p.holder := position]) else v.db;
    match Reconcile(position, reply)
    case None => v.(pump := Down)
    case Some(reconciled) => v.(db := stored, pump := Watching(reconciled, watched))
  }

  function Next(p: Projection, v: World, s: Step): World
    requires Enabled(p, v, s)
  {
    match s
    case Append(e) => v.(log := v.log + [e])
    case Acquire =>
      var position := StoredPosition(v.db.positions, p.holder);
      v.(pump := Watching(position, if position > 0 then position else -1))
    case Deliver(e) => v.(pump := Handling(e, v.pump.position))
    case Reduce =>
      var outcome := p.reduce(v.pump.event, v.db.tables);
      if outcome == None then v.(pump := Down)
      else v.(pump := Reduced(v.pump.event, outcome.value, v.pump.position))
    case TimeUp(accepted) => Heartbeat(p, v, accepted, v.pump.position, v.pump.event.id)
    case Persist =>
      var e := v.pump.event;
      if !Acceptable(Effective(v.pump.result)) then v.(pump := Down)
      else v.(db := PersistTx(v.db, p.consumer, v.pump.result, e.id), pump := Persisted(e, v.pump.position),
              handled := v.handled + {e.id})
    case Advance(accepted) =>
      var e := v.pump.event;
      if e.id <= v.pump.position then v.(pump := Watching(v.pump.position, e.id))
      else Heartbeat(p, v, accepted, e.id, e.id)
    case IdleBeat(accepted) => Heartbeat(p, v, accepted, v.pump.position, v.pump.watched)
    case Cut => v.(pump := Down)
  }

  ghost predicate IsRun(p: Projection, worlds: seq<World>, steps: seq<Step>) {
    && |worlds| == |steps| + 1
    && worlds[0] == Start()
    && forall i :: 0 <= i < |steps| ==> Enabled(p, worlds[i], steps[i]) && worlds[i + 1] == Next(p, worlds[i], steps[i])
  }

  // The reference: the handlers folded over the matching events up to a position.

  function HandleOne(p: Projection, e: Event, t: Tables): Option<Tables> {
    match p.reduce(e, t)
    case None => None
    case Some(r) => if Acceptable(Effective(r)) then Some(Apply(t, Effective(r), e.id)) else None
  }

  function Fold(p: Projection, log: seq<Event>, upTo: int): Option<Tables> {
    if log == [] then Some(NO_ENTRIES)
    else
      var e := log[|log| - 1];
      var before := Fold(p, log[..|log| - 1], upTo);
      if before == None || e.id > upTo || !p.handles(e.kind) then before else HandleOne(p, e, before.value)
  }

  /** The entities are the fold of the handlers over exactly the matching events up to the stored position. */
  predicate Exact(p: Projection, v: World) {
    Fold(p, v.log, StoredPosition(v.db.positions, p.consumer)) == Some(v.db.tables)
  }

  predicate Ordered(log: seq<Event>) {
    forall i, j :: 0 <= i < j < |log| ==> log[i].id < log[j].id
  }

  predicate FromOne(log: seq<Event>) {
    forall i :: 0 <= i < |log| ==> log[i].id >= 1
  }

  predicate StoredIsKnown(log: seq<Event>, stored: int) {
    stored == 0 || exists i :: 0 <= i < |log| && log[i].id == stored
  }

  /** No handler ends with the bare deadline error on any event there can be. */
  ghost predicate WrapsErrors(bare: Event -> bool) {
    forall e: Event :: e.id >= 1 ==> !bare(e)
  }

  /** With one name for both, everything the pump knows is tied to the one stored position. */
  ghost predicate InStep(p: Projection, v: World) {
    var stored := StoredPosition(v.db.positions, p.consumer);
    && Ordered(v.log) && stored >= 0 && StoredIsKnown(v.log, stored)
    && match v.pump
       case Down => true
       case Watching(position, watched) => position == stored && (watched == stored || (watched == -1 && stored == 0))
       case Handling(e, position) => position == stored && NextIs(p, v.log, stored, e)
       case Reduced(e, r, position) =>
         position == stored && NextIs(p, v.log, stored, e) && p.reduce(e, v.db.tables) == Some(r)
       case Persisted(e, position) => stored == e.id && position < stored
  }

  ghost predicate NextIs(p: Projection, log: seq<Event>, stored: int, e: Event) {
    exists k :: 0 <= k < |log| && NextAt(p, log, stored, e, k)
  }

  ghost predicate NextAt(p: Projection, log: seq<Event>, stored: int, e: Event, k: nat)
    requires k < |log|
  {
    && log[k] == e && p.handles(e.kind) && e.id > stored
    && forall i :: 0 <= i < k && p.handles(log[i].kind) ==> log[i].id <= stored
  }

  lemma {:induction false} FoldAtEnd(p: Projection, log: seq<Event>, a: int, b: int)
    requires forall i :: 0 <= i < |log| && p.handles(log[i].kind) ==> log[i].id <= a && log[i].id <= b
    ensures Fold(p, log, a) == Fold(p, log, b)
  {
    if log != [] {
      FoldAtEnd(p, log[..|log| - 1], a, b);
    }
  }

  /** Events beyond the position do not show. */
  lemma {:induction false} FoldIgnoresLater(p: Projection, log: seq<Event>, upTo: int, k: nat)
    requires k <= |log| && forall i :: k <= i < |log| ==> log[i].id > upTo
    ensures Fold(p, log, upTo) == Fold(p, log[..k], upTo)
  {
    if k < |log| {
      FoldIgnoresLater(p, log[..|log| - 1], upTo, k);
      assert log[..|log| - 1][..k] == log[..k];
    } else {
      assert log[..k] == log;
    }
  }

  /** Moving the position to the next matching event adds exactly that event. */
  lemma FoldNext(p: Projection, log: seq<Event>, stored: int, e: Event, k: nat)
    requires Ordered(log) && k < |log| && NextAt(p, log, stored, e, k)
    requires Fold(p, log, stored).Some?
    ensures Fold(p, log, e.id) == HandleOne(p, e, Fold(p, log, stored).value)
  {
    hide HandleOne;
    FoldIgnoresLater(p, log, e.id, k + 1);
    FoldIgnoresLater(p, log, stored, k);
    FoldAtEnd(p, log[..k], stored, e.id);
    assert log[..k + 1][..k] == log[..k];
  }

  lemma AppendKeepsFold(p: Projection, log: seq<Event>, e: Event, stored: int)
    requires e.id > stored
    ensures Fold(p, log + [e], stored) == Fold(p, log, stored)
  {
    hide Fold;
    FoldIgnoresLater(p, log + [e], stored, |log|);
    assert (log + [e])[..|log|] == log;
  }

  lemma AppendKeepsNext(p: Projection, log: seq<Event>, e: Event, stored: int, next: Event)
    requires NextIs(p, log, stored, next)
    ensures NextIs(p, log + [e], stored, next)
  {
    var k :| 0 <= k < |log| && NextAt(p, log, stored, next, k);
    assert NextAt(p, log + [e], stored, next, k);
  }

  lemma AppendKeepsKnown(log: seq<Event>, e: Event, stored: int)
    requires StoredIsKnown(log, stored) && LastIs(log, e.id - 1) && e.id >= 1
    ensures StoredIsKnown(log + [e], stored) && stored < e.id
  {
    if stored != 0 {
      var i :| 0 <= i < |log| && log[i].id == stored;
      assert (log + [e])[i].id == stored;
    }
  }

  lemma AppendKeepsExact(p: Projection, v: World, e: Event)
    requires InStep(p, v) && Exact(p, v) && Enabled(p, v, Append(e)) && e.id >= 1
    ensures InStep(p, Next(p, v, Append(e))) && Exact(p, Next(p, v, Append(e)))
  {
    hide Fold, NextIs, StoredIsKnown;
    var stored := StoredPosition(v.db.positions, p.consumer);
    AppendKeepsKnown(v.log, e, stored);
    AppendKeepsFold(p, v.log, e, stored);
    if v.pump.Handling? || v.pump.Reduced? {
      AppendKeepsNext(p, v.log, e, stored, v.pump.event);
    }
  }

  lemma DeliverKeepsExact(p: Projection, v: World, e: Event)
    requires InStep(p, v) && Exact(p, v) && Enabled(p, v, Deliver(e)) && FromOne(v.log)
    ensures InStep(p, Next(p, v, Deliver(e)))
  {
    hide Fold;
    var stored := StoredPosition(v.db.positions, p.consumer);
    var k :| 0 <= k < |v.log| && v.log[k] == e;
    assert NextAt(p, v.log, stored, e, k);
  }

  lemma PersistKeepsExact(p: Projection, v: World)
    requires InStep(p, v) && Exact(p, v) && v.pump.Reduced?
    ensures InStep(p, Next(p, v, Persist)) && Exact(p, Next(p, v, Persist))
  {
    hide Fold, Apply, Acceptable;
    var stored := StoredPosition(v.db.positions, p.consumer);
    var k :| 0 <= k < |v.log| && NextAt(p, v.log, stored, v.pump.event, k);
    FoldNext(p, v.log, stored, v.pump.event, k);
  }

  lemma StepKeepsExact(p: Projection, v: World, s: Step)
    requires p.holder == p.consumer && WrapsErrors(p.bare) && InStep(p, v) && Exact(p, v) && Enabled(p, v, s)
    requires FromOne(Next(p, v, s).log)
    ensures InStep(p, Next(p, v, s)) && Exact(p, Next(p, v, s))
  {
    hide Fold, Apply, Acceptable;
    match s
    case Append(e) =>
      assert Next(p, v, s).log[|v.log|] == e;
      AppendKeepsExact(p, v, e);
    case Deliver(e) => DeliverKeepsExact(p, v, e);
    case Persist => PersistKeepsExact(p, v);
    case _ =>
  }

  lemma {:induction false} RunKeepsExact(p: Projection, worlds: seq<World>, steps: seq<Step>, n: nat)
    requires p.holder == p.consumer && WrapsErrors(p.bare) && IsRun(p, worlds, steps) && n < |worlds| && FromOne(worlds[n].log)
    ensures InStep(p, worlds[n]) && Exact(p, worlds[n])
  {
    if n > 0 {
      hide InStep, Exact;
      var earlier := worlds[n - 1].log;
      assert earlier == worlds[n].log[..|earlier|];
      hide Enabled, Next;
      RunKeepsExact(p, worlds, steps, n - 1);
      StepKeepsExact(p, worlds[n - 1], steps[n - 1]);
    }
  }

  /**
   Exactly once across crashes: with the pump's holder named like the projection's
   consumer, and handlers that wrap their errors, every state of every run, cut and
   restarted anywhere, is exact.
   */
  lemma ProjectionIsExact(p: Projection, worlds: seq<World>, steps: seq<Step>, n: nat)
    requires p.holder == p.consumer && WrapsErrors(p.bare) && IsRun(p, worlds, steps) && n < |worlds| && FromOne(worlds[n].log)
    ensures Exact(p, worlds[n])
  {
    hide Exact, InStep;
    RunKeepsExact(p, worlds, steps, n);
  }

  // The pump's steps are turns of its watch loop.

  /** A step that ends in a heartbeat, or may, is one turn of the watch loop: an event delivered, or a time-out. */
  lemma StepsAreTurns(p: Projection, v: World, s: Step)
    requires Enabled(p, v, s) && (s.Advance? || s.IdleBeat? || s.TimeUp?)
    ensures
      var tick := if s.Advance? then Delivered(v.pump.event.id) else TimedOut;
      var loop := Turn(Loop(v.pump.position, [], true), tick, (n: nat, at: int) => BeatOutcome(p, v, s.accepted, at));
      var v' := Next(p, v, s);
      && v'.pump == (if loop.running then Watching(loop.position, if s.IdleBeat? then v.pump.watched else v.pump.event.id) else Down)
      && v'.db.tables == v.db.tables
      && v'.db.positions == (if loop.beats != [] && BeatOutcome(p, v, s.accepted, loop.beats[0]) == Accepted
                             then v.db.positions[p.holder := loop.beats[0]] else v.db.positions)
  {
  }

  // Stored positions, under any names.

  predicate NotBehind(before: map<string, int>, after: map<string, int>) {
    forall c :: c in before ==> c in after && before[c] <= after[c]
  }

  lemma StepRaisesPositions(p: Projection, v: World, s: Step)
    requires Enabled(p, v, s)
    ensures NotBehind(v.db.positions, Next(p, v, s).db.positions)
  {
    hide Apply, Acceptable;
  }

  /** Over every run, whatever holder and consumer are called and whatever the handlers do, no stored position decreases. */
  lemma {:induction false} PositionsNeverDrop(p: Projection, worlds: seq<World>, steps: seq<Step>, i: nat, j: nat)
    requires IsRun(p, worlds, steps) && i <= j < |worlds|
    ensures NotBehind(worlds[i].db.positions, worlds[j].db.positions)
  {
    hide Enabled, Next;
    if i < j {
      PositionsNeverDrop(p, worlds, steps, i, j - 1);
      StepRaisesPositions(p, worlds[j - 1], steps[j - 1]);
    }
  }
}
