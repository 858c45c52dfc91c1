/**
 Runs of a server watch beside commits and dispatches.  A commit appends to the
 table and owes the bus one dispatch; a dispatch fills the watch's signal.  The
 watch registers, seeds its signal, and then waits, queries and delivers in turn.
 The rows of a result may break off anywhere; the watch does not notice.
 */
module ServerWatchRuns {
  import opened Wrappers
  import opened Queries
  import opened ServerWatch

  datatype Phase =
    | Seeding
    | Waiting
    | Querying
    | Delivering(rows: seq<Row>, at: nat, snapshot: nat)
    | Closed

  /** `seen` records how much of the table the last pass queried, `missed` the rows it broke off before. */
  datatype World = World(
    table: seq<Event>, owed: nat, signal: bool, phase: Phase, cursor: int, outbox: Outbox, seen: nat, missed: seq<Row>)

  /** A watch that has just registered, over a table with whatever is stored and under way. */
  predicate IsStart(q: QueryIn, v: World) {
    !v.signal && v.phase == Seeding && v.cursor == Cursor(q.afterID) && v.outbox == Outbox(-1, [])
    && v.seen == 0 && v.missed == []
  }

  datatype Step =
    | Commit(event: Event)
    | Dispatch
    | Seed
    | Wake
    | Query(rows: seq<Row>)
    | Deliver
    | Finish
    | Close

  ghost predicate Enabled(sub: Contains, q: QueryIn, v: World, s: Step) {
    match s
    case Commit(_) => true
    case Dispatch => v.owed > 0
    case Seed => v.phase == Seeding && !v.signal
    case Wake => v.phase == Waiting && v.signal
    case Query(rows) => v.phase == Querying && IsResult(sub, Retargeted(QueryOps(q), v.cursor), v.table, rows)
    case Deliver => v.phase.Delivering? && v.phase.at < |v.phase.rows|
    case Finish => v.phase.Delivering? && v.phase.at <= |v.phase.rows|
    case Close => true
  }

  function Next(v: World, s: Step): World {
    match s
    case Commit(e) => v.(table := v.table + [e], owed := v.owed + 1)
    case Dispatch => v.(owed := if v.owed > 0 then v.owed - 1 else 0, signal := true)
    case Seed => v.(signal := true, phase := Waiting)
    case Wake => v.(signal := false, phase := Querying)
    case Query(rows) => v.(phase := Delivering(rows, 0, |v.table|))
    case Deliver =>
      if v.phase.Delivering? && v.phase.at < |v.phase.rows| then
        v.(outbox := Push(v.outbox, v.phase.rows[v.phase.at]), phase := v.phase.(at := v.phase.at + 1))
      else v
    case Finish =>
      if v.phase.Delivering? && v.phase.at <= |v.phase.rows| then
        v.(cursor := NextCursor(v.cursor, v.phase.rows[..v.phase.at]), seen := v.phase.snapshot,
           missed := v.phase.rows[v.phase.at..], phase := Waiting)
      else v
    case Close => v.(phase := Closed)
  }

  ghost predicate IsRun(sub: Contains, q: QueryIn, worlds: seq<World>, steps: seq<Step>) {
    && |worlds| == |steps| + 1
    && IsStart(q, worlds[0])
    && forall i :: 0 <= i < |steps| ==>
         Enabled(sub, q, worlds[i], steps[i]) && worlds[i + 1] == Next(worlds[i], steps[i])
  }

  /** Some clause of the watch asks for the event. */
  ghost predicate Wanted(sub: Contains, q: QueryIn, e: Event) {
    exists o :: o in QueryOps(q) && Selects(sub, o, e)
  }

  /** A stored event under the op of a clause that asks for it. */
  ghost predicate Genuine(sub: Contains, q: QueryIn, table: seq<Event>, r: Row) {
    r.event in table && exists o :: o in QueryOps(q) && o.op == r.op && Selects(sub, o, r.event)
  }

  /** On the clauses themselves: what is wanted, and under which ops it may be sent. */
  lemma WantedIff(sub: Contains, q: QueryIn, e: Event)
    ensures Wanted(sub, q, e) <==> exists op :: AsksUnder(sub, q, e, op)
  {
    hide QueryOps, Selects, AsksUnder;
    if Wanted(sub, q, e) {
      var o :| o in QueryOps(q) && Selects(sub, o, e);
      OpsSelectIff(sub, q, e, o.op);
    }
    if op :| AsksUnder(sub, q, e, op) {
      OpsSelectIff(sub, q, e, op);
    }
  }

  lemma GenuineIff(sub: Contains, q: QueryIn, table: seq<Event>, r: Row)
    ensures Genuine(sub, q, table, r) <==> r.event in table && AsksUnder(sub, q, r.event, r.op)
  {
    OpsSelectIff(sub, q, r.event, r.op);
  }

  /** A pass at a cursor gets exactly the rows its clauses ask for past that cursor, whatever the query's own cursor was. */
  lemma PassGetsIff(sub: Contains, q: QueryIn, cursor: int, table: seq<Event>, rows: seq<Row>, r: Row)
    requires IsResult(sub, Retargeted(QueryOps(q), cursor), table, rows)
    ensures r in rows <==> r.event in table && AsksUnder(sub, q.(afterID := Some(cursor)), r.event, r.op)
  {
    var q' := q.(afterID := Some(cursor));
    RetargetMovesCursor(q, cursor);
    OpsSelectIff(sub, q', r.event, r.op);
    hide QueryOps, Selects, UnionRows, AsksUnder;
    assert r in rows <==> r in multiset(rows);
    if r in UnionRows(sub, QueryOps(q'), table) {
      UnionRowSound(sub, QueryOps(q'), table, r);
    }
    if r.event in table && exists o :: o in QueryOps(q') && o.op == r.op && Selects(sub, o, r.event) {
      var o :| o in QueryOps(q') && o.op == r.op && Selects(sub, o, r.event);
      UnionRowComplete(sub, QueryOps(q'), table, o, r.event);
    }
  }

  predicate SentInOrder(b: Outbox) {
    && (forall i, j :: 0 <= i < j < |b.sent| ==> b.sent[i].event.id < b.sent[j].event.id)
    && b.lastSent == if b.sent == [] then -1 else b.sent[|b.sent| - 1].event.id
  }

  ghost predicate AllGenuine(sub: Contains, q: QueryIn, table: seq<Event>, rows: seq<Row>) {
    forall i :: 0 <= i < |rows| ==> Genuine(sub, q, table, rows[i])
  }

  // What holds in every run, whatever the order of commits.

  ghost predicate Safe(sub: Contains, q: QueryIn, v: World) {
    && SentInOrder(v.outbox)
    && Cursor(q.afterID) <= v.cursor
    && AllGenuine(sub, q, v.table, v.outbox.sent)
    && AllGenuine(sub, q, v.table, v.missed)
    && (v.phase.Delivering? ==> v.phase.at <= |v.phase.rows| && AllGenuine(sub, q, v.table, v.phase.rows))
  }

  lemma RetargetedSelectsLess(sub: Contains, q: QueryIn, cursor: int, o: Operation, e: Event)
    requires Cursor(q.afterID) <= cursor
    requires o in Retargeted(QueryOps(q), cursor) && Selects(sub, o, e)
    ensures exists o' :: o' in QueryOps(q) && o'.op == o.op && Selects(sub, o', e)
  {
    var ops := QueryOps(q);
    var i :| 0 <= i < |ops| && Retargeted(ops, cursor)[i] == o;
    OpsCursor(q);
    assert ops[i] in ops && Selects(sub, ops[i], e);
  }

  lemma {:induction false} KindOpsCursor(q: QueryIn, ks: seq<KindClause>)
    ensures forall o :: o in KindOps(q, ks) ==> !o.MatchID? && o.afterID == Cursor(q.afterID)
  {
    if ks != [] {
      KindOpsCursor(q, ks[..|ks| - 1]);
    }
  }

  lemma OpsCursor(q: QueryIn)
    ensures forall o :: o in QueryOps(q) ==> o.MatchID? || o.afterID == Cursor(q.afterID)
  {
    KindOpsCursor(q, q.onKind);
  }

  lemma ResultIsGenuine(sub: Contains, q: QueryIn, cursor: int, table: seq<Event>, rows: seq<Row>)
    requires Cursor(q.afterID) <= cursor && IsResult(sub, Retargeted(QueryOps(q), cursor), table, rows)
    ensures AllGenuine(sub, q, table, rows)
  {
    hide Selects, QueryOps, UnionRows;
    var ops := Retargeted(QueryOps(q), cursor);
    forall i | 0 <= i < |rows|
      ensures Genuine(sub, q, table, rows[i])
    {
      var r := rows[i];
      assert r in multiset(rows);
      UnionRowSound(sub, ops, table, r);
      var o :| o in ops && o.op == r.op && Selects(sub, o, r.event);
      RetargetedSelectsLess(sub, q, cursor, o, r.event);
    }
  }

  lemma GenuineInMore(sub: Contains, q: QueryIn, table: seq<Event>, more: seq<Event>, rows: seq<Row>)
    requires AllGenuine(sub, q, table, rows)
    ensures AllGenuine(sub, q, table + more, rows)
  {
    forall i | 0 <= i < |rows|
      ensures Genuine(sub, q, table + more, rows[i])
    {
      assert Genuine(sub, q, table, rows[i]);
    }
  }

  lemma StepKeepsSafe(sub: Contains, q: QueryIn, v: World, s: Step)
    requires Safe(sub, q, v) && Enabled(sub, q, v, s)
    ensures Safe(sub, q, Next(v, s))
  {
    hide Genuine, IsResult;
    match s
    case Commit(e) =>
      GenuineInMore(sub, q, v.table, [e], v.outbox.sent);
      GenuineInMore(sub, q, v.table, [e], v.missed);
      if v.phase.Delivering? {
        GenuineInMore(sub, q, v.table, [e], v.phase.rows);
      }
    case Query(rows) => ResultIsGenuine(sub, q, v.cursor, v.table, rows);
    case _ =>
  }

  lemma {:induction false} RunKeepsSafe(sub: Contains, q: QueryIn, worlds: seq<World>, steps: seq<Step>, n: nat)
    requires IsRun(sub, q, worlds, steps) && n < |worlds|
    ensures Safe(sub, q, worlds[n])
  {
    hide Enabled, Next;
    if n > 0 {
      RunKeepsSafe(sub, q, worlds, steps, n - 1);
      StepKeepsSafe(sub, q, worlds[n - 1], steps[n - 1]);
    }
  }

  /**
   In every run, whatever the order of commits and timestamps: the IDs sent strictly
   increase, and each message is a stored event with the op of a clause asking for it.
   */
  lemma SentStrictlyIncreases(sub: Contains, q: QueryIn, worlds: seq<World>, steps: seq<Step>, n: nat)
    requires IsRun(sub, q, worlds, steps) && n < |worlds|
    ensures
      var sent := worlds[n].outbox.sent;
      && (forall i, j :: 0 <= i < j < |sent| ==> sent[i].event.id < sent[j].event.id)
      && (forall i :: 0 <= i < |sent| ==> Genuine(sub, q, worlds[n].table, sent[i]))
  {
    hide Genuine;
    RunKeepsSafe(sub, q, worlds, steps, n);
  }

  // The cursor keeps up with what was sent.

  /** Where the cursor stands, or would if the pass ended here. */
  function Reached(v: World): int {
    if v.phase.Delivering? && v.phase.at <= |v.phase.rows| then NextCursor(v.cursor, v.phase.rows[..v.phase.at]) else v.cursor
  }

  ghost predicate KeepsUp(v: World) {
    v.phase == Closed || (
      && (v.phase.Delivering? ==> v.phase.at <= |v.phase.rows|)
      && forall i :: 0 <= i < |v.outbox.sent| ==> v.outbox.sent[i].event.id <= Reached(v))
  }

  lemma StepKeepsUp(sub: Contains, q: QueryIn, v: World, s: Step)
    requires KeepsUp(v) && Enabled(sub, q, v, s)
    ensures KeepsUp(Next(v, s))
  {
    hide IsResult;
    if s.Deliver? && v.phase.Delivering? {
      var rows, at := v.phase.rows, v.phase.at;
      assert rows[..at + 1][..at] == rows[..at];
    }
  }

  lemma {:induction false} RunKeepsUp(sub: Contains, q: QueryIn, worlds: seq<World>, steps: seq<Step>, n: nat)
    requires IsRun(sub, q, worlds, steps) && n < |worlds|
    ensures KeepsUp(worlds[n])
  {
    hide Enabled, Next;
    if n > 0 {
      RunKeepsUp(sub, q, worlds, steps, n - 1);
      StepKeepsUp(sub, q, worlds[n - 1], steps[n - 1]);
    }
  }

  /** In every run a pass gets an event that was already sent only under an ID clause, which keeps no cursor. */
  lemma NothingGotTwice(sub: Contains, q: QueryIn, worlds: seq<World>, steps: seq<Step>, n: nat, r: Row, i: nat)
    requires IsRun(sub, q, worlds, steps) && n < |steps| && steps[n].Query? && r in steps[n].rows
    requires i < |worlds[n].outbox.sent| && worlds[n].outbox.sent[i].event == r.event && r.event.id >= 1
    ensures IdClause(r.event.id, r.op) in q.onID
  {
    var v := worlds[n];
    assert Enabled(sub, q, v, steps[n]);
    RunKeepsUp(sub, q, worlds, steps, n);
    PassGetsIff(sub, q, v.cursor, v.table, steps[n].rows, r);
    hide QueryOps, IsResult, Retargeted;
  }

  // What holds when IDs and times follow the order of commits.

  /** The wanted events' IDs and times strictly follow the order in which they were committed. */
  ghost predicate CommittedInOrder(sub: Contains, q: QueryIn, table: seq<Event>) {
    && (forall i :: 0 <= i < |table| ==> table[i].id >= 1)
    && (forall i, j :: 0 <= i < j < |table| && Wanted(sub, q, table[i]) && Wanted(sub, q, table[j])
          ==> table[i].id < table[j].id && table[i].when < table[j].when)
  }

  function Horizon(v: World): nat {
    if v.phase.Delivering? then v.phase.snapshot else v.seen
  }

  predicate IsSent(b: Outbox, e: Event) {
    exists i :: 0 <= i < |b.sent| && b.sent[i].event == e
  }

  ghost predicate SentWithin(b: Outbox, table: seq<Event>) {
    forall i :: 0 <= i < |b.sent| ==> b.sent[i].event in table
  }

  /** No wanted event at or below the last ID sent is missing. */
  ghost predicate NoGaps(sub: Contains, q: QueryIn, b: Outbox, table: seq<Event>) {
    forall i :: 0 <= i < |table| && Wanted(sub, q, table[i]) && table[i].id <= b.lastSent ==> IsSent(b, table[i])
  }

  predicate InRows(rows: seq<Row>, e: Event) {
    exists i :: 0 <= i < |rows| && rows[i].event == e
  }

  /** Every wanted event is at or below the last ID sent, or among the rows the last pass missed. */
  ghost predicate Covered(sub: Contains, q: QueryIn, b: Outbox, table: seq<Event>, missed: seq<Row>) {
    forall i :: 0 <= i < |table| && Wanted(sub, q, table[i]) ==> table[i].id <= b.lastSent || InRows(missed, table[i])
  }

  /** A result lists every wanted event that the cursor leaves in. */
  ghost predicate Lists(sub: Contains, q: QueryIn, cursor: int, table: seq<Event>, rows: seq<Row>) {
    forall k :: 0 <= k < |table| && Wanted(sub, q, table[k]) && (cursor == Cursor(q.afterID) || table[k].id > cursor)
      ==> exists i :: 0 <= i < |rows| && rows[i].event == table[k]
  }

  predicate ByTime(rows: seq<Row>) {
    forall i, j :: 0 <= i < j < |rows| ==> rows[i].event.when <= rows[j].event.when
  }

  ghost predicate DeliveryInOrder(sub: Contains, q: QueryIn, v: World)
    requires v.phase.Delivering?
  {
    && v.phase.at <= |v.phase.rows|
    && v.seen <= v.phase.snapshot <= |v.table|
    && ByTime(v.phase.rows)
    && AllGenuine(sub, q, v.table[..v.phase.snapshot], v.phase.rows)
    && Lists(sub, q, v.cursor, v.table[..v.phase.snapshot], v.phase.rows)
    && forall i :: 0 <= i < v.phase.at ==> v.phase.rows[i].event.id <= v.outbox.lastSent
  }

  /** Anything not yet covered is under way: in a pass, in the signal, or in a dispatch. */
  predicate WakeUpDue(v: World) {
    || v.phase == Seeding || v.phase == Querying
    || Horizon(v) == |v.table|
    || v.signal || v.owed > 0
  }

  ghost predicate Complete(sub: Contains, q: QueryIn, v: World) {
    v.phase == Closed || Progressing(sub, q, v)
  }

  /** The cursor excludes nothing that has not been sent. */
  predicate CursorBehind(q: QueryIn, v: World) {
    v.cursor == Cursor(q.afterID) || v.cursor <= 0 || v.cursor <= v.outbox.lastSent
  }

  ghost predicate Progressing(sub: Contains, q: QueryIn, v: World) {
    && v.seen <= Horizon(v) <= |v.table|
    && SentWithin(v.outbox, v.table[..Horizon(v)])
    && NoGaps(sub, q, v.outbox, v.table[..Horizon(v)])
    && Covered(sub, q, v.outbox, v.table[..v.seen], v.missed)
    && CursorBehind(q, v)
    && (v.phase.Delivering? ==> DeliveryInOrder(sub, q, v))
    && WakeUpDue(v)
  }

  lemma ResultLists(sub: Contains, q: QueryIn, cursor: int, table: seq<Event>, rows: seq<Row>)
    requires Cursor(q.afterID) <= cursor && IsResult(sub, Retargeted(QueryOps(q), cursor), table, rows)
    ensures Lists(sub, q, cursor, table, rows)
  {
    hide QueryOps, UnionRows;
    var ops := Retargeted(QueryOps(q), cursor);
    forall k | 0 <= k < |table| && Wanted(sub, q, table[k]) && (cursor == Cursor(q.afterID) || table[k].id > cursor)
      ensures exists i :: 0 <= i < |rows| && rows[i].event == table[k]
    {
      var e := table[k];
      var o :| o in QueryOps(q) && Selects(sub, o, e);
      OpsCursor(q);
      var i :| 0 <= i < |QueryOps(q)| && QueryOps(q)[i] == o;
      assert ops[i] in ops && Selects(sub, ops[i], e);
      UnionRowComplete(sub, ops, table, ops[i], e);
      assert Row(e, ops[i].op) in multiset(rows);
      var m :| 0 <= m < |rows| && rows[m] == Row(e, ops[i].op);
    }
  }

  /** Looking at the whole table opens no gap: what is new lies above everything sent. */
  lemma QueryLeavesNoGap(sub: Contains, q: QueryIn, v: World)
    requires Safe(sub, q, v) && CommittedInOrder(sub, q, v.table) && v.seen <= |v.table|
    requires SentWithin(v.outbox, v.table[..v.seen]) && NoGaps(sub, q, v.outbox, v.table[..v.seen])
    ensures SentWithin(v.outbox, v.table) && NoGaps(sub, q, v.outbox, v.table)
  {
    hide Wanted, Safe, IsSent, CommittedInOrder;
    var early := v.table[..v.seen];
    forall k | 0 <= k < |v.table| && Wanted(sub, q, v.table[k]) && v.table[k].id <= v.outbox.lastSent
      ensures IsSent(v.outbox, v.table[k])
    {
      if k < v.seen {
        assert early[k] == v.table[k];
      } else {
        LastSentIsEarly(sub, q, v, k);
      }
    }
  }

  lemma DeliveryBegins(sub: Contains, q: QueryIn, v: World, rows: seq<Row>)
    requires v.seen <= |v.table| && SentWithin(v.outbox, v.table) && NoGaps(sub, q, v.outbox, v.table)
    requires Covered(sub, q, v.outbox, v.table[..v.seen], v.missed) && CursorBehind(q, v)
    requires ByTime(rows) && AllGenuine(sub, q, v.table, rows) && Lists(sub, q, v.cursor, v.table, rows)
    ensures Complete(sub, q, Next(v, Query(rows)))
  {
    hide SentWithin, NoGaps, Covered, AllGenuine, Lists, ByTime;
    assert v.table[..|v.table|] == v.table;
  }

  lemma ResultIsByTime(sub: Contains, ops: seq<Operation>, table: seq<Event>, rows: seq<Row>)
    requires IsResult(sub, ops, table, rows)
    ensures ByTime(rows)
  {
    hide UnionRows;
  }

  lemma QueryKeepsComplete(sub: Contains, q: QueryIn, v: World, rows: seq<Row>)
    requires Safe(sub, q, v) && Complete(sub, q, v) && Enabled(sub, q, v, Query(rows))
    requires CommittedInOrder(sub, q, v.table)
    ensures Complete(sub, q, Next(v, Query(rows)))
  {
    hide SentWithin, NoGaps, Covered, CommittedInOrder, IsResult, AllGenuine, Lists, ByTime, QueryOps, Retargeted, SentInOrder, Next;
    ResultIsByTime(sub, Retargeted(QueryOps(q), v.cursor), v.table, rows);
    ResultIsGenuine(sub, q, v.cursor, v.table, rows);
    ResultLists(sub, q, v.cursor, v.table, rows);
    QueryLeavesNoGap(sub, q, v);
    DeliveryBegins(sub, q, v, rows);
  }

  /** What was committed after the covered part has a larger ID than anything sent. */
  lemma LastSentIsEarly(sub: Contains, q: QueryIn, v: World, k: nat)
    requires Safe(sub, q, v) && CommittedInOrder(sub, q, v.table)
    requires v.seen <= k < |v.table| && Wanted(sub, q, v.table[k]) && SentWithin(v.outbox, v.table[..v.seen])
    ensures v.outbox.lastSent < v.table[k].id
  {
    hide Selects, QueryOps;
    var sent := v.outbox.sent;
    if sent != [] {
      var last := sent[|sent| - 1];
      assert Genuine(sub, q, v.table, last) && Wanted(sub, q, last.event);
      var i :| 0 <= i < v.seen && v.table[..v.seen][i] == last.event;
    }
  }

  /** Sending the row in hand leaves no gap below it. */
  lemma DeliverLeavesNoGap(sub: Contains, q: QueryIn, v: World, k: nat)
    requires Complete(sub, q, v) && Enabled(sub, q, v, Deliver) && CommittedInOrder(sub, q, v.table)
    requires k < v.phase.snapshot <= |v.table| && Wanted(sub, q, v.table[k])
    requires v.table[k].id <= Next(v, Deliver).outbox.lastSent
    ensures IsSent(Next(v, Deliver).outbox, v.table[k])
  {
    hide Wanted, Genuine, CommittedInOrder, Covered, SentWithin, ByTime, Lists, AllGenuine;
    var b, b' := v.outbox, Next(v, Deliver).outbox;
    var e := v.table[k];
    assert v.table[..v.phase.snapshot][k] == e;
    if e.id <= b.lastSent {
      var i :| 0 <= i < |b.sent| && b.sent[i].event == e;
      assert b'.sent[i].event == e;
    } else {
      NextInLine(sub, q, v, k);
      assert b'.sent[|b.sent|].event == e;
    }
  }

  lemma DeliverKeepsComplete(sub: Contains, q: QueryIn, v: World)
    requires Safe(sub, q, v) && Complete(sub, q, v) && Enabled(sub, q, v, Deliver)
    requires CommittedInOrder(sub, q, v.table)
    ensures Complete(sub, q, Next(v, Deliver))
  {
    hide Wanted, Genuine, CommittedInOrder, IsSent, Lists;
    var v' := Next(v, Deliver);
    var table := v.table[..v.phase.snapshot];
    GenuineIsStored(sub, q, table, v.phase.rows, v.phase.at);
    forall k | 0 <= k < |table| && Wanted(sub, q, table[k]) && table[k].id <= v'.outbox.lastSent
      ensures IsSent(v'.outbox, table[k])
    {
      assert table[k] == v.table[k];
      DeliverLeavesNoGap(sub, q, v, k);
    }
  }

  lemma GenuineIsStored(sub: Contains, q: QueryIn, table: seq<Event>, rows: seq<Row>, at: nat)
    requires AllGenuine(sub, q, table, rows) && at < |rows|
    ensures rows[at].event in table && Wanted(sub, q, rows[at].event)
  {
    hide QueryOps, Selects;
    assert Genuine(sub, q, table, rows[at]);
  }

  /** The row about to be sent is the wanted event with the least ID above the last one sent. */
  lemma NextInLine(sub: Contains, q: QueryIn, v: World, k: nat)
    requires v.phase.Delivering? && DeliveryInOrder(sub, q, v) && v.phase.at < |v.phase.rows|
    requires CommittedInOrder(sub, q, v.table)
    requires CursorBehind(q, v)
    requires k < v.phase.snapshot && Wanted(sub, q, v.table[k])
    requires v.outbox.lastSent < v.table[k].id <= v.phase.rows[v.phase.at].event.id
    ensures v.table[k] == v.phase.rows[v.phase.at].event
  {
    hide Wanted, Genuine;
    var rows, at, table := v.phase.rows, v.phase.at, v.table[..v.phase.snapshot];
    assert table[k] == v.table[k];
    var i :| 0 <= i < |rows| && rows[i].event == table[k];
    GenuineIsStored(sub, q, table, rows, at);
    var m :| 0 <= m < |table| && table[m] == rows[at].event;
    assert v.table[m] == table[m];
    assert i >= at;
  }

  /** A pass covers what it has sent up to, and leaves the rest of its rows as missed. */
  lemma PassCovers(sub: Contains, q: QueryIn, v: World)
    requires v.phase.Delivering? && DeliveryInOrder(sub, q, v) && CursorBehind(q, v)
    requires forall i :: 0 <= i < |v.table| ==> v.table[i].id >= 1
    ensures Covered(sub, q, v.outbox, v.table[..v.phase.snapshot], v.phase.rows[v.phase.at..])
  {
    hide Wanted, AllGenuine, ByTime;
    var rows, at, table := v.phase.rows, v.phase.at, v.table[..v.phase.snapshot];
    forall k | 0 <= k < |table| && Wanted(sub, q, table[k]) && v.outbox.lastSent < table[k].id
      ensures InRows(rows[at..], table[k])
    {
      assert table[k] == v.table[k];
      var i :| 0 <= i < |rows| && rows[i].event == table[k];
      assert rows[at..][i - at] == rows[i];
    }
  }

  /** The cursor moves to what the pass has delivered, all of it at or below the last ID sent. */
  lemma PassMovesCursor(q: QueryIn, v: World)
    requires v.phase.Delivering? && v.phase.at <= |v.phase.rows| && CursorBehind(q, v)
    requires forall i :: 0 <= i < v.phase.at ==> v.phase.rows[i].event.id <= v.outbox.lastSent
    ensures CursorBehind(q, Next(v, Finish))
  {
    assert forall i :: 0 <= i < v.phase.at ==> v.phase.rows[..v.phase.at][i] == v.phase.rows[i];
  }

  lemma FinishKeepsComplete(sub: Contains, q: QueryIn, v: World)
    requires Safe(sub, q, v) && Complete(sub, q, v) && Enabled(sub, q, v, Finish)
    requires CommittedInOrder(sub, q, v.table)
    ensures Complete(sub, q, Next(v, Finish))
  {
    PassCovers(sub, q, v);
    PassMovesCursor(q, v);
    hide Wanted, Genuine, Covered, NoGaps, SentWithin, Lists, ByTime, CommittedInOrder, AllGenuine, NextCursor, CursorBehind, SentInOrder;
  }

  lemma CommitKeepsComplete(sub: Contains, q: QueryIn, v: World, e: Event)
    requires Complete(sub, q, v)
    ensures Complete(sub, q, Next(v, Commit(e)))
  {
    hide Wanted, Genuine, NoGaps, Covered, SentWithin, AllGenuine, Lists;
    var v' := Next(v, Commit(e));
    if v.phase != Closed {
      assert v'.table[..Horizon(v)] == v.table[..Horizon(v)];
      assert v'.table[..v.seen] == v.table[..v.seen];
    }
  }

  lemma StepKeepsComplete(sub: Contains, q: QueryIn, v: World, s: Step)
    requires Safe(sub, q, v) && Complete(sub, q, v) && Enabled(sub, q, v, s)
    requires CommittedInOrder(sub, q, v.table)
    ensures Complete(sub, q, Next(v, s))
  {
    match s
    case Commit(e) => CommitKeepsComplete(sub, q, v, e);
    case Query(rows) => QueryKeepsComplete(sub, q, v, rows);
    case Deliver => DeliverKeepsComplete(sub, q, v);
    case Finish => FinishKeepsComplete(sub, q, v);
    case _ =>
      hide Wanted, Genuine, NoGaps, Covered, SentWithin, AllGenuine, Lists;
  }

  lemma {:induction false} RunKeepsComplete(sub: Contains, q: QueryIn, worlds: seq<World>, steps: seq<Step>, n: nat)
    requires IsRun(sub, q, worlds, steps) && n < |worlds|
    requires CommittedInOrder(sub, q, worlds[n].table)
    ensures Complete(sub, q, worlds[n])
  {
    if n == 0 {
      hide Wanted;
    } else {
      hide Enabled, Next, Complete, CommittedInOrder, Safe;
      EarlierTable(sub, q, worlds[n - 1], steps[n - 1]);
      RunKeepsComplete(sub, q, worlds, steps, n - 1);
      RunKeepsSafe(sub, q, worlds, steps, n - 1);
      StepKeepsComplete(sub, q, worlds[n - 1], steps[n - 1]);
    }
  }

  lemma EarlierTable(sub: Contains, q: QueryIn, v: World, s: Step)
    requires CommittedInOrder(sub, q, Next(v, s).table)
    ensures CommittedInOrder(sub, q, v.table)
  {
    hide Wanted;
    var table := Next(v, s).table;
    assert forall i :: 0 <= i < |v.table| ==> v.table[i] == table[i];
  }

  predicate OnceAmong(sent: seq<Row>, e: Event) {
    exists i :: 0 <= i < |sent| && sent[i].event == e && forall j :: 0 <= j < |sent| && sent[j].event == e ==> j == i
  }

  /** The loop is blocked in its wait and nothing is on its way to wake it. */
  predicate Quiet(v: World) {
    v.phase == Waiting && !v.signal && v.owed == 0
  }

  /** The last pass broke off before nothing that is still unsent. */
  predicate NothingMissed(v: World) {
    forall i :: 0 <= i < |v.missed| ==> v.missed[i].event.id <= v.outbox.lastSent
  }

  /**
   When IDs and times follow the order of commits, a quiet watch whose last pass missed
   nothing has sent every stored event that any of its clauses asks for, exactly once.
   */
  lemma QuietWatchSentAll(sub: Contains, q: QueryIn, worlds: seq<World>, steps: seq<Step>, n: nat, e: Event)
    requires IsRun(sub, q, worlds, steps) && n < |worlds| && Quiet(worlds[n]) && NothingMissed(worlds[n])
    requires CommittedInOrder(sub, q, worlds[n].table)
    requires e in worlds[n].table && Wanted(sub, q, e)
    ensures OnceAmong(worlds[n].outbox.sent, e)
  {
    hide IsRun, Wanted, Safe, Complete, CommittedInOrder;
    RunKeepsSafe(sub, q, worlds, steps, n);
    RunKeepsComplete(sub, q, worlds, steps, n);
    SentOnce(sub, q, worlds[n], e);
  }

  lemma SentOnce(sub: Contains, q: QueryIn, v: World, e: Event)
    requires Safe(sub, q, v) && Complete(sub, q, v) && Quiet(v) && NothingMissed(v) && e in v.table && Wanted(sub, q, e)
    ensures OnceAmong(v.outbox.sent, e)
  {
    hide Wanted, AllGenuine, SentWithin, IsSent;
    assert v.table[..v.seen] == v.table;
    var k :| 0 <= k < |v.table| && v.table[k] == e;
    assert IsSent(v.outbox, e);
    UniqueWhenSent(v.outbox, e);
  }

  ghost predicate SentAll(sub: Contains, q: QueryIn, v: World) {
    forall k :: 0 <= k < |v.table| && Wanted(sub, q, v.table[k]) ==> IsSent(v.outbox, v.table[k])
  }

  /** And a quiet watch has sent every wanted event if and only if its last pass missed nothing. */
  lemma QuietCompleteIff(sub: Contains, q: QueryIn, worlds: seq<World>, steps: seq<Step>, n: nat)
    requires IsRun(sub, q, worlds, steps) && n < |worlds| && Quiet(worlds[n])
    requires CommittedInOrder(sub, q, worlds[n].table)
    ensures SentAll(sub, q, worlds[n]) <==> NothingMissed(worlds[n])
  {
    hide IsRun, Wanted, CommittedInOrder, IsSent, OnceAmong;
    var v := worlds[n];
    RunKeepsSafe(sub, q, worlds, steps, n);
    if NothingMissed(v) {
      forall k | 0 <= k < |v.table| && Wanted(sub, q, v.table[k])
        ensures IsSent(v.outbox, v.table[k])
      {
        QuietWatchSentAll(sub, q, worlds, steps, n, v.table[k]);
        OnceIsSent(v.outbox, v.table[k]);
      }
    } else if SentAll(sub, q, v) {
      forall i | 0 <= i < |v.missed|
        ensures v.missed[i].event.id <= v.outbox.lastSent
      {
        GenuineIsStored(sub, q, v.table, v.missed, i);
        var k :| 0 <= k < |v.table| && v.table[k] == v.missed[i].event;
        SentIsReached(v.outbox, v.table[k]);
      }
    }
  }

  lemma OnceIsSent(b: Outbox, e: Event)
    requires OnceAmong(b.sent, e)
    ensures IsSent(b, e)
  {
  }

  lemma SentIsReached(b: Outbox, e: Event)
    requires SentInOrder(b) && IsSent(b, e)
    ensures e.id <= b.lastSent
  {
  }

  lemma UniqueWhenSent(b: Outbox, e: Event)
    requires SentInOrder(b) && IsSent(b, e)
    ensures OnceAmong(b.sent, e)
  {
    var i :| 0 <= i < |b.sent| && b.sent[i].event == e;
    assert forall j :: 0 <= j < |b.sent| && b.sent[j].event == e ==> j == i;
  }

  /** Every message is the wanted event with the least ID among those not yet sent. */
  lemma SendsNextWanted(sub: Contains, q: QueryIn, worlds: seq<World>, steps: seq<Step>, n: nat)
    requires IsRun(sub, q, worlds, steps) && n < |steps| && CommittedInOrder(sub, q, worlds[n].table)
    requires worlds[n + 1].outbox != worlds[n].outbox
    ensures
      var v, sent := worlds[n], worlds[n + 1].outbox.sent;
      && |sent| == |v.outbox.sent| + 1
      && IsNextWanted(sub, q, v.table, v.outbox.lastSent, sent[|sent| - 1].event)
  {
    hide Wanted, Genuine, Complete, Safe, CommittedInOrder;
    RunKeepsSafe(sub, q, worlds, steps, n);
    RunKeepsComplete(sub, q, worlds, steps, n);
    assert Enabled(sub, q, worlds[n], steps[n]) && worlds[n + 1] == Next(worlds[n], steps[n]);
    RowIsNextWanted(sub, q, worlds[n]);
  }

  ghost predicate IsNextWanted(sub: Contains, q: QueryIn, table: seq<Event>, lastSent: int, e: Event) {
    && e in table && Wanted(sub, q, e) && lastSent < e.id
    && forall k :: 0 <= k < |table| && Wanted(sub, q, table[k]) && lastSent < table[k].id ==> e.id <= table[k].id
  }

  lemma RowIsNextWanted(sub: Contains, q: QueryIn, v: World)
    requires Complete(sub, q, v) && Enabled(sub, q, v, Deliver) && CommittedInOrder(sub, q, v.table)
    requires v.outbox.lastSent < v.phase.rows[v.phase.at].event.id
    ensures IsNextWanted(sub, q, v.table, v.outbox.lastSent, v.phase.rows[v.phase.at].event)
  {
    hide Wanted, Genuine, NoGaps, Covered, SentWithin;
    var e, table := v.phase.rows[v.phase.at].event, v.table[..v.phase.snapshot];
    GenuineIsStored(sub, q, table, v.phase.rows, v.phase.at);
    var m :| 0 <= m < |table| && table[m] == e;
    assert v.table[m] == e;
    forall k | 0 <= k < |v.table| && Wanted(sub, q, v.table[k]) && v.outbox.lastSent < v.table[k].id
      ensures e.id <= v.table[k].id
    {
      if k < v.phase.snapshot && v.table[k].id < e.id {
        NextInLine(sub, q, v, k);
      }
    }
  }

  // Where the promise ends.

  /** A wanted event at or below the last ID sent that has not been sent never will be. */
  lemma {:induction false} LateCommitIsLost(sub: Contains, q: QueryIn, worlds: seq<World>, steps: seq<Step>, m: nat, n: nat, e: Event)
    requires IsRun(sub, q, worlds, steps) && m <= n < |worlds|
    requires e.id <= worlds[m].outbox.lastSent && !IsSent(worlds[m].outbox, e)
    ensures e.id <= worlds[n].outbox.lastSent && !IsSent(worlds[n].outbox, e)
  {
    hide Enabled;
    if m < n {
      LateCommitIsLost(sub, q, worlds, steps, m, n - 1, e);
      assert worlds[n] == Next(worlds[n - 1], steps[n - 1]);
    }
  }

  /** A dispatch between the registration and the seeding send leaves the watch stuck for good. */
  lemma {:induction false} EarlyDispatchStallsWatch(sub: Contains, q: QueryIn, worlds: seq<World>, steps: seq<Step>, m: nat, n: nat)
    requires IsRun(sub, q, worlds, steps) && m <= n < |worlds|
    requires worlds[m].phase == Seeding && worlds[m].signal
    ensures worlds[n].phase == Closed || (worlds[n].phase == Seeding && worlds[n].signal)
    ensures worlds[n].outbox == worlds[m].outbox
  {
    if m < n {
      EarlyDispatchStallsWatch(sub, q, worlds, steps, m, n - 1);
      assert Enabled(sub, q, worlds[n - 1], steps[n - 1]) && worlds[n] == Next(worlds[n - 1], steps[n - 1]);
    }
  }

  /** A watch still seeding can go on if and only if no dispatch has arrived since it registered. */
  lemma {:induction false} SeedingGoesOnIff(sub: Contains, q: QueryIn, worlds: seq<World>, steps: seq<Step>, n: nat)
    requires IsRun(sub, q, worlds, steps) && n < |worlds| && worlds[n].phase == Seeding
    ensures Enabled(sub, q, worlds[n], Seed) <==> forall i :: 0 <= i < n ==> steps[i] != Dispatch
  {
    if n > 0 {
      assert Enabled(sub, q, worlds[n - 1], steps[n - 1]) && worlds[n] == Next(worlds[n - 1], steps[n - 1]);
      SeedingGoesOnIff(sub, q, worlds, steps, n - 1);
    }
  }

  /** A run in which an event is committed and dispatched before the seeding send: the watch is stuck. */
  lemma StalledRun(sub: Contains, q: QueryIn, e: Event) returns (worlds: seq<World>, steps: seq<Step>)
    ensures IsRun(sub, q, worlds, steps) && |worlds| == 3
    ensures worlds[2].table == [e] && worlds[2].phase == Seeding && worlds[2].signal && worlds[2].owed == 0
  {
    var v := World([], 0, false, Seeding, Cursor(q.afterID), Outbox(-1, []), 0, []);
    steps := [Commit(e), Dispatch];
    worlds := [v, Next(v, Commit(e)), Next(Next(v, Commit(e)), Dispatch)];
    assert [] + [e] == [e];
  }
}
