/**
 Runs of an in-memory watch beside any number of submissions.  The watch is
 registered at some point, its ticks come and go, the replay reads one snapshot
 of the log and may break off, and the channel holds at most 128 unread events.
 */
module WatchRuns {
  import opened Wrappers
  import opened Queries
  import opened MemoryWatch

  const CHANNEL_CAPACITY: nat := 128

  datatype Phase = Idle | Replaying(snapshot: nat, at: nat) | Waiting

  /** `returned` and `considered` record the history: what ticks returned, and how far the log was taken in. */
  datatype World = World(
    log: seq<Event>,
    registered: bool, registeredAt: nat, channel: seq<nat>,
    watch: Watch, phase: Phase,
    returned: seq<Row>, considered: nat)

  function Start(): World {
    World([], false, 0, [], Watch([], -1, false), Idle, [], 0)
  }

  datatype Step =
    | Submit(when: int, kind: string, body: string)
    | Register
    | Tick
    | Replay
    | BreakOff
    | ReplayDone
    | Return
    | Receive
    | Cancel

  predicate Enabled(v: World, s: Step) {
    match s
    case Submit(_, _, _) => v.registered ==> |v.channel| < CHANNEL_CAPACITY
    case Register => !v.registered
    case Tick => v.registered && v.phase == Idle
    case Replay => v.phase.Replaying? && v.phase.at < v.phase.snapshot <= |v.log|
    case BreakOff => v.phase.Replaying?
    case ReplayDone => v.phase.Replaying? && v.phase.at == v.phase.snapshot
    case Return => v.phase == Waiting && v.watch.pending != []
    case Receive => v.phase == Waiting && v.watch.pending == [] && v.channel != [] && v.channel[0] < |v.log|
    case Cancel => v.phase == Waiting && v.watch.pending == []
  }

  function Pop(v: World): World
    requires v.watch.pending != []
  {
    v.(watch := v.watch.(pending := v.watch.pending[1..]), returned := v.returned + [v.watch.pending[0]], phase := Idle)
  }

  function Consider(sub: Contains, q: QueryIn, v: World, id: nat): World
    requires id < |v.log|
  {
    v.(watch := Offer(sub, q, v.watch, v.log[id]),
       considered := if v.considered <= id then id + 1 else v.considered)
  }

  function Next(sub: Contains, q: QueryIn, v: World, s: Step): World
    requires Enabled(v, s)
  {
    match s
    case Submit(when, kind, body) =>
      v.(log := v.log + [Event(|v.log|, when, q.domain, q.stream, kind, body)],
         channel := if v.registered then v.channel + [|v.log|] else v.channel)
    case Register => v.(registered := true, registeredAt := |v.log|)
    case Tick =>
      if v.watch.pending != [] then Pop(v)
      else if v.watch.initDone then v.(phase := Waiting)
      else v.(phase := Replaying(|v.log|, 0))
    case Replay =>
      Consider(sub, q, v, v.phase.at).(phase := v.phase.(at := v.phase.at + 1))
    case BreakOff => v.(phase := Idle)
    case ReplayDone => v.(watch := v.watch.(initDone := true), phase := Waiting)
    case Return => Pop(v)
    case Receive => Consider(sub, q, v, v.channel[0]).(channel := v.channel[1..])
    case Cancel => v.(phase := Idle)
  }

  /** A run: the worlds it goes through and the steps between them. */
  ghost predicate IsRun(sub: Contains, q: QueryIn, worlds: seq<World>, steps: seq<Step>) {
    && |worlds| == |steps| + 1
    && worlds[0] == Start()
    && forall i :: 0 <= i < |steps| ==> Enabled(worlds[i], steps[i]) && worlds[i + 1] == Next(sub, q, worlds[i], steps[i])
  }

  /** The channel holds exactly the latest events, in order, and what it no longer holds was taken in. */
  ghost predicate ChannelInOrder(v: World) {
    && |v.channel| <= |v.log|
    && v.registeredAt <= |v.log| - |v.channel|
    && (forall i :: 0 <= i < |v.channel| ==> v.channel[i] == |v.log| - |v.channel| + i)
    && (v.watch.initDone ==> |v.log| - |v.channel| <= v.considered)
    && (v.registered && !v.watch.initDone ==> |v.log| - |v.channel| == v.registeredAt)
    && (!v.registered ==> v.phase == Idle && v.channel == [] && v.registeredAt == 0 && !v.watch.initDone)
  }

  ghost predicate ReplayInOrder(v: World) {
    && (v.phase.Replaying? ==> v.phase.at <= v.phase.snapshot <= |v.log| && v.phase.at <= v.considered
                               && v.registeredAt <= v.phase.snapshot && !v.watch.initDone)
    && (v.phase == Waiting ==> v.watch.initDone)
  }

  /** Everything taken in so far has been returned or is pending, in order and once. */
  ghost predicate Accounted(sub: Contains, q: QueryIn, v: World) {
    && v.considered <= |v.log|
    && (forall i :: 0 <= i < |v.log| ==> v.log[i].id == i)
    && v.returned + v.watch.pending == Matches(sub, q, v.log[..v.considered])
    && v.watch.lastEvent == LastID(Matches(sub, q, v.log[..v.considered]))
  }

  function LastID(rows: seq<Row>): int {
    if rows == [] then -1 else rows[|rows| - 1].event.id
  }

  ghost predicate Inv(sub: Contains, q: QueryIn, v: World) {
    ChannelInOrder(v) && ReplayInOrder(v) && Accounted(sub, q, v)
  }

  lemma {:induction false} MatchesBounded(sub: Contains, q: QueryIn, log: seq<Event>)
    requires forall i :: 0 <= i < |log| ==> log[i].id == i
    ensures LastID(Matches(sub, q, log)) < |log|
    ensures forall i :: 0 <= i < |log| && FirstOp(sub, q, log[i]).Some? ==> i <= LastID(Matches(sub, q, log))
  {
    hide FirstOp;
    if log != [] {
      MatchesBounded(sub, q, log[..|log| - 1]);
    }
  }

  lemma ConsiderKeepsAccount(sub: Contains, q: QueryIn, v: World, id: nat)
    requires Accounted(sub, q, v) && id <= v.considered && id < |v.log|
    ensures Accounted(sub, q, Consider(sub, q, v, id))
  {
    hide FirstOp, Matches;
    var seen, e := v.log[..v.considered], v.log[id];
    MatchesBounded(sub, q, seen);
    if id == v.considered {
      assert v.log[..id + 1] == seen + [e];
      OneMoreMatch(sub, q, seen, e);
    } else {
      assert seen[id] == e;
    }
  }

  lemma OneMoreMatch(sub: Contains, q: QueryIn, log: seq<Event>, e: Event)
    ensures Matches(sub, q, log + [e]) == Matches(sub, q, log) + Owed(sub, q, e)
  {
    assert (log + [e])[..|log|] == log;
  }

  function Owed(sub: Contains, q: QueryIn, e: Event): seq<Row> {
    match FirstOp(sub, q, e) case None => [] case Some(op) => [Row(e, op)]
  }

  lemma PopKeepsAccount(sub: Contains, q: QueryIn, v: World)
    requires Accounted(sub, q, v) && v.watch.pending != []
    ensures Accounted(sub, q, Pop(v))
  {
    assert Pop(v).returned + Pop(v).watch.pending == v.returned + v.watch.pending;
  }

  lemma StepKeepsAccount(sub: Contains, q: QueryIn, v: World, s: Step)
    requires Inv(sub, q, v) && Enabled(v, s)
    ensures Accounted(sub, q, Next(sub, q, v, s))
  {
    hide Offer, Matches, LastID;
    match s
    case Submit(_, _, _) =>
      assert Next(sub, q, v, s).log[..v.considered] == v.log[..v.considered];
    case Tick =>
      if v.watch.pending != [] {
        PopKeepsAccount(sub, q, v);
      }
    case Return => PopKeepsAccount(sub, q, v);
    case Replay => ConsiderKeepsAccount(sub, q, v, v.phase.at);
    case Receive => ConsiderKeepsAccount(sub, q, v, v.channel[0]);
    case _ =>
  }

  lemma {:induction false} RunKeepsInv(sub: Contains, q: QueryIn, worlds: seq<World>, steps: seq<Step>, n: nat)
    requires IsRun(sub, q, worlds, steps) && n < |worlds|
    ensures Inv(sub, q, worlds[n])
  {
    hide Inv, Enabled, Next;
    if n == 0 {
      StartInv(sub, q);
    } else {
      RunKeepsInv(sub, q, worlds, steps, n - 1);
      StepKeepsInv(sub, q, worlds[n - 1], steps[n - 1]);
    }
  }

  lemma StartInv(sub: Contains, q: QueryIn)
    ensures Inv(sub, q, Start())
  {
  }

  lemma StepKeepsInv(sub: Contains, q: QueryIn, v: World, s: Step)
    requires Inv(sub, q, v) && Enabled(v, s)
    ensures Inv(sub, q, Next(sub, q, v, s))
  {
    StepKeepsAccount(sub, q, v, s);
  }

  /** A tick in its wait with nothing pending and nothing to receive. */
  predicate Blocked(v: World) {
    v.phase == Waiting && v.watch.pending == [] && v.channel == []
  }

  lemma {:induction false} MatchesPrefix(sub: Contains, q: QueryIn, log: seq<Event>, n: nat)
    requires n <= |log|
    ensures Matches(sub, q, log[..n]) <= Matches(sub, q, log)
  {
    hide FirstOp;
    if n < |log| {
      var m := |log| - 1;
      MatchesPrefix(sub, q, log[..m], n);
      assert log[..m][..n] == log[..n];
    } else {
      assert log[..n] == log;
    }
  }

  /**
   At every point of every run the ticks have returned a prefix of the matching
   events, in order and each once, and a tick blocks only when none is left.
   */
  lemma WatchIsExact(sub: Contains, q: QueryIn, worlds: seq<World>, steps: seq<Step>, n: nat)
    requires IsRun(sub, q, worlds, steps) && n < |worlds|
    ensures worlds[n].returned <= Matches(sub, q, worlds[n].log)
    ensures Blocked(worlds[n]) ==> worlds[n].returned == Matches(sub, q, worlds[n].log)
  {
    hide FirstOp;
    var v := worlds[n];
    RunKeepsInv(sub, q, worlds, steps, n);
    MatchesPrefix(sub, q, v.log, v.considered);
    if Blocked(v) {
      assert v.log[..v.considered] == v.log;
      assert v.returned + v.watch.pending == v.returned;
    }
  }

  /** A tick that waits and is not blocked can go on by itself. */
  lemma WaitingMovesOrBlocks(sub: Contains, q: QueryIn, worlds: seq<World>, steps: seq<Step>, n: nat)
    requires IsRun(sub, q, worlds, steps) && n < |worlds|
    requires worlds[n].phase == Waiting && !Blocked(worlds[n])
    ensures Enabled(worlds[n], Return) || Enabled(worlds[n], Receive)
  {
    RunKeepsInv(sub, q, worlds, steps, n);
  }

  /** What is owed: an event is listed exactly when a clause matches it, and IDs strictly increase. */
  lemma {:induction false} MatchesMeaning(sub: Contains, q: QueryIn, log: seq<Event>)
    requires forall i :: 0 <= i < |log| ==> log[i].id == i
    ensures forall r :: r in Matches(sub, q, log) <==> r.event in log && FirstOp(sub, q, r.event) == Some(r.op)
    ensures forall i, j :: 0 <= i < j < |Matches(sub, q, log)| ==>
              Matches(sub, q, log)[i].event.id < Matches(sub, q, log)[j].event.id
  {
    hide FirstOp;
    if log != [] {
      var n := |log| - 1;
      MatchesMeaning(sub, q, log[..n]);
      forall r | r in Matches(sub, q, log[..n])
        ensures r.event.id < n
      {
        assert r.event in log[..n];
      }
      assert log == log[..n] + [log[n]];
    }
  }

  lemma {:induction false} FirstSubsetMeaning(sub: Contains, subsets: seq<SubsetClause>, e: Event)
    ensures FirstSubset(sub, subsets, e).Some? <==> exists i :: 0 <= i < |subsets| && sub(e.body, subsets[i].document)
    ensures FirstSubset(sub, subsets, e).Some? ==>
              exists i :: 0 <= i < |subsets| && subsets[i].op == FirstSubset(sub, subsets, e).value && sub(e.body, subsets[i].document)
  {
    if subsets != [] {
      FirstSubsetMeaning(sub, subsets[1..], e);
      assert forall i :: 0 < i < |subsets| ==> subsets[i] == subsets[1..][i - 1];
    }
  }

  lemma ClauseOpMeaning(sub: Contains, k: KindClause, e: Event)
    ensures ClauseOp(sub, k, e) == None ==> forall op :: !KindAsks(sub, k, e, op)
    ensures ClauseOp(sub, k, e).Some? ==> KindAsks(sub, k, e, ClauseOp(sub, k, e).value)
  {
    FirstSubsetMeaning(sub, k.subsets, e);
  }

  /** The i-th kind clause asks for the event under this op, and no clause before it asks for the event. */
  ghost predicate FirstToAsk(sub: Contains, ks: seq<KindClause>, e: Event, i: nat, op: int)
    requires i < |ks|
  {
    KindAsks(sub, ks[i], e, op) && forall j, other :: 0 <= j < i ==> !KindAsks(sub, ks[j], e, other)
  }

  lemma {:induction false} FirstClauseMeaning(sub: Contains, ks: seq<KindClause>, e: Event)
    ensures FirstClause(sub, ks, e) == None ==> forall i, op :: 0 <= i < |ks| ==> !KindAsks(sub, ks[i], e, op)
    ensures FirstClause(sub, ks, e).Some? ==> exists i :: 0 <= i < |ks| && FirstToAsk(sub, ks, e, i, FirstClause(sub, ks, e).value)
  {
    if ks != [] {
      hide KindAsks, ClauseOp;
      ClauseOpMeaning(sub, ks[0], e);
      FirstClauseMeaning(sub, ks[1..], e);
      assert forall i :: 0 < i < |ks| ==> ks[i] == ks[1..][i - 1];
      if ClauseOp(sub, ks[0], e).Some? {
        assert FirstToAsk(sub, ks, e, 0, ClauseOp(sub, ks[0], e).value);
      } else if FirstClause(sub, ks, e).Some? {
        var op := FirstClause(sub, ks, e).value;
        var i :| 0 <= i < |ks[1..]| && FirstToAsk(sub, ks[1..], e, i, op);
        assert FirstToAsk(sub, ks, e, i + 1, op);
      }
    }
  }

  /** On the clauses: an event is owed exactly when it lies past the cursor, whatever its sign, and a kind clause asks for it; the first one gives the op. */
  lemma FirstOpMeaning(sub: Contains, q: QueryIn, e: Event)
    ensures FirstOp(sub, q, e).Some? <==>
              (q.afterID.Some? ==> q.afterID.value < e.id)
              && exists i, op :: 0 <= i < |q.onKind| && KindAsks(sub, q.onKind[i], e, op)
    ensures FirstOp(sub, q, e).Some? ==>
              exists i :: 0 <= i < |q.onKind| && FirstToAsk(sub, q.onKind, e, i, FirstOp(sub, q, e).value)
  {
    hide KindAsks, FirstClause;
    FirstClauseMeaning(sub, q.onKind, e);
  }

  // The first matching clause, and the operations a server would run for the same query.

  /** The op of the first operation in the list that selects the event. */
  function FirstSelecting(sub: Contains, ops: seq<Operation>, e: Event): Option<int> {
    if ops == [] then None
    else if Selects(sub, ops[0], e) then Some(ops[0].op)
    else FirstSelecting(sub, ops[1..], e)
  }

  lemma {:induction false} FirstSelectingConcat(sub: Contains, a: seq<Operation>, b: seq<Operation>, e: Event)
    ensures FirstSelecting(sub, a + b, e) ==
            if FirstSelecting(sub, a, e).Some? then FirstSelecting(sub, a, e) else FirstSelecting(sub, b, e)
  {
    hide Selects;
    if a == [] {
      assert a + b == b;
    } else {
      FirstSelectingConcat(sub, a[1..], b, e);
      assert (a + b)[1..] == a[1..] + b;
    }
  }

  lemma {:induction false} SubsetsSelect(sub: Contains, q: QueryIn, kind: string, subsets: seq<SubsetClause>, e: Event)
    requires e.domain == q.domain && e.stream == q.stream && e.kind == kind && PastCursor(Cursor(q.afterID), e)
    ensures FirstSelecting(sub, KindClauseOps(q, KindClause(kind, None, subsets)), e) == FirstSubset(sub, subsets, e)
  {
    var ops := KindClauseOps(q, KindClause(kind, None, subsets));
    if subsets != [] {
      SubsetsSelect(sub, q, kind, subsets[1..], e);
      assert ops[1..] == KindClauseOps(q, KindClause(kind, None, subsets[1..]));
    }
  }

  lemma {:induction false} NoneSelects(sub: Contains, ops: seq<Operation>, e: Event)
    requires forall i :: 0 <= i < |ops| ==> !Selects(sub, ops[i], e)
    ensures FirstSelecting(sub, ops, e) == None
  {
    if ops != [] {
      NoneSelects(sub, ops[1..], e);
    }
  }

  lemma ClauseSelects(sub: Contains, q: QueryIn, k: KindClause, e: Event)
    requires e.domain == q.domain && e.stream == q.stream && PastCursor(Cursor(q.afterID), e)
    ensures FirstSelecting(sub, KindClauseOps(q, k), e) == ClauseOp(sub, k, e)
  {
    var ops := KindClauseOps(q, k);
    if k.kind != e.kind {
      NoneSelects(sub, ops, e);
    } else if k.allOp.Some? {
      assert Selects(sub, ops[0], e);
    } else {
      SubsetsSelect(sub, q, k.kind, k.subsets, e);
      assert k == KindClause(k.kind, None, k.subsets);
    }
  }

  lemma {:induction false} ClausesSelect(sub: Contains, q: QueryIn, ks: seq<KindClause>, e: Event)
    requires e.domain == q.domain && e.stream == q.stream && PastCursor(Cursor(q.afterID), e)
    ensures FirstSelecting(sub, KindOps(q, ks), e) == FirstClause(sub, ks, e)
  {
    hide Selects, PastCursor, ClauseOp, FirstSelecting, KindClauseOps;
    if ks == [] {
      NoneSelects(sub, KindOps(q, ks), e);
    } else {
      ClauseSelects(sub, q, ks[0], e);
      ClausesSelect(sub, q, ks[1..], e);
      KindOpsFirst(q, ks);
      FirstSelectingConcat(sub, KindClauseOps(q, ks[0]), KindOps(q, ks[1..]), e);
    }
  }

  lemma {:induction false} KindOpsFirst(q: QueryIn, ks: seq<KindClause>)
    requires ks != []
    ensures KindOps(q, ks) == KindClauseOps(q, ks[0]) + KindOps(q, ks[1..])
  {
    hide KindClauseOps;
    var n := |ks| - 1;
    if n == 0 {
      assert ks[..0] == [] && ks[1..] == [];
    } else {
      assert ks[..n][0] == ks[0] && ks[1..][n - 1] == ks[n];
      KindOpsFirst(q, ks[..n]);
      assert ks[..n][1..] == ks[1..][..n - 1];
    }
  }

  /** From ID 1 up, a watch in memory owes what the stored kind operations select, under the first one's op. */
  lemma WatchSelectsAlike(sub: Contains, q: QueryIn, e: Event)
    requires e.id >= 1 && e.domain == q.domain && e.stream == q.stream
    ensures FirstOp(sub, q, e) == FirstSelecting(sub, KindOps(q, q.onKind), e)
  {
    if Skipped(q, e) {
      KindOpsPastCursor(q, q.onKind);
      NoneSelects(sub, KindOps(q, q.onKind), e);
    } else {
      ClausesSelect(sub, q, q.onKind, e);
    }
  }

  lemma {:induction false} KindOpsPastCursor(q: QueryIn, ks: seq<KindClause>)
    ensures forall o :: o in KindOps(q, ks) ==> (o.EachKind? || o.MatchSubset?) && o.afterID == Cursor(q.afterID)
  {
    if ks != [] {
      KindOpsPastCursor(q, ks[..|ks| - 1]);
    }
  }
}
