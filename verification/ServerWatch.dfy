/** The parts of the server's watch loop: its wake-up signal, its result stream and its cursor. */
module ServerWatch {
  import opened Wrappers
  import opened Queries

  /** The wake-up channel of a watch: one slot, filled by the bus, drained by the loop. */
  class RequerySignal {
    var ready: bool
    var subscribed: bool

    /** Registers with the bus before anything is signalled. */
    constructor ()
      ensures subscribed && !ready
    {
      subscribed := true;
      ready := false;
    }

    /** The seeding send needs the slot free; otherwise it blocks. */
    method Seed() returns (sent: bool)
      modifies this
      ensures sent == !old(ready) && ready && subscribed == old(subscribed)
    {
      if ready {
        return false;
      }
      ready := true;
      sent := true;
    }

    /** A signal on a full slot coalesces. */
    method Signal()
      modifies this
      ensures ready && subscribed == old(subscribed)
    {
      ready := true;
    }

    /** Takes the signal if there is one; otherwise the caller blocks. */
    method Wait() returns (woken: bool)
      modifies this
      ensures woken == old(ready) && !ready && subscribed == old(subscribed)
    {
      woken := ready;
      ready := false;
    }

    method Close()
      modifies this
      ensures !subscribed && ready == old(ready)
    {
      if subscribed {
        subscribed := false;
      }
    }
  }

  datatype Outbox = Outbox(lastSent: int, sent: seq<Row>)

  function Push(b: Outbox, r: Row): Outbox {
    if r.event.id <= b.lastSent then b else Outbox(r.event.id, b.sent + [r])
  }

  function PushAll(b: Outbox, rows: seq<Row>): Outbox {
    if rows == [] then b else Push(PushAll(b, rows[..|rows| - 1]), rows[|rows| - 1])
  }

  class ResultStream {
    var lastSentID: int
    var sent: seq<Row>

    constructor ()
      ensures View() == Outbox(-1, [])
    {
      lastSentID := -1;
      sent := [];
    }

    ghost function View(): Outbox
      reads this
    {
      Outbox(lastSentID, sent)
    }

    method PushTranslatorMessage(r: Row)
      modifies this
      ensures View() == Push(old(View()), r)
    {
      if r.event.id <= lastSentID {
        return;
      }
      lastSentID := r.event.id;
      sent := sent + [r];
    }
  }

  /** The largest ID among the rows, and 0 for none. */
  function MaxID(rows: seq<Row>): (max: int)
    ensures max >= 0 && forall i :: 0 <= i < |rows| ==> rows[i].event.id <= max
    ensures max == 0 || exists i :: 0 <= i < |rows| && rows[i].event.id == max
  {
    if rows == [] then 0
    else
      var before := MaxID(rows[..|rows| - 1]);
      if rows[|rows| - 1].event.id > before then rows[|rows| - 1].event.id else before
  }

  method ProcessWatchResults(rows: seq<Row>, stream: ResultStream) returns (lastID: int)
    modifies stream
    ensures stream.View() == PushAll(old(stream.View()), rows)
    ensures lastID == MaxID(rows)
  {
    lastID := 0;
    for i := 0 to |rows|
      invariant stream.View() == PushAll(old(stream.View()), rows[..i])
      invariant lastID == MaxID(rows[..i])
    {
      stream.PushTranslatorMessage(rows[i]);
      assert rows[..i + 1][..i] == rows[..i];
      if rows[i].event.id > lastID {
        lastID := rows[i].event.id;
      }
    }
    assert rows[..|rows|] == rows;
  }

  /** An ID clause keeps no cursor. */
  function UpdateAfterID(o: Operation, id: int): Operation {
    match o
    case EachKind(domain, stream, op, kind, _) => EachKind(domain, stream, op, kind, id)
    case MatchSubset(domain, stream, op, kind, subset, _) => MatchSubset(domain, stream, op, kind, subset, id)
    case MatchID(_, _, _, _) => o
    case AllStreamEvents(domain, stream, op, _) => AllStreamEvents(domain, stream, op, id)
  }

  function Retargeted(ops: seq<Operation>, id: int): seq<Operation> {
    seq(|ops|, i requires 0 <= i < |ops| => UpdateAfterID(ops[i], id))
  }

  lemma {:induction false} RetargetedKinds(q: QueryIn, ks: seq<KindClause>, id: int)
    ensures Retargeted(KindOps(q, ks), id) == KindOps(q.(afterID := Some(id)), ks)
  {
    if ks != [] {
      var n := |ks| - 1;
      RetargetedKinds(q, ks[..n], id);
      assert Retargeted(KindClauseOps(q, ks[n]), id) == KindClauseOps(q.(afterID := Some(id)), ks[n]);
      hide KindClauseOps, UpdateAfterID;
      assert Retargeted(KindOps(q, ks), id) == Retargeted(KindOps(q, ks[..n]), id) + Retargeted(KindClauseOps(q, ks[n]), id);
    }
  }

  /** Moving the cursors of a query's operations gives the operations of the query with its cursor moved. */
  lemma RetargetMovesCursor(q: QueryIn, id: int)
    ensures Retargeted(QueryOps(q), id) == QueryOps(q.(afterID := Some(id)))
  {
    RetargetedKinds(q, q.onKind, id);
    hide KindOps;
    var q' := q.(afterID := Some(id));
    assert Retargeted(QueryOps(q), id)[..|KindOps(q, q.onKind)|] == Retargeted(KindOps(q, q.onKind), id);
    assert |KindOps(q, q.onKind)| == |Retargeted(KindOps(q, q.onKind), id)|;
  }

  method RetargetInPlace(ops: array<Operation>, lastDeliveredID: int)
    modifies ops
    ensures ops[..] == Retargeted(old(ops[..]), lastDeliveredID)
  {
    for i := 0 to ops.Length
      invariant forall k :: 0 <= k < i ==> ops[k] == UpdateAfterID(old(ops[k]), lastDeliveredID)
      invariant forall k :: i <= k < ops.Length ==> ops[k] == old(ops[k])
    {
      ops[i] := UpdateAfterID(ops[i], lastDeliveredID);
    }
  }

  /** A result of the union statement: its rows, by time of occurrence, ties in any order. */
  ghost predicate IsResult(sub: Contains, ops: seq<Operation>, table: seq<Event>, rows: seq<Row>) {
    && multiset(rows) == multiset(UnionRows(sub, ops, table))
    && forall i, j :: 0 <= i < j < |rows| ==> rows[i].event.when <= rows[j].event.when
  }

  /** One pass of the loop after a wake-up: move the cursors, query, deliver, remember the largest ID. */
  method Pass(ops: array<Operation>, stream: ResultStream, lastDeliveredID: int, rows: seq<Row>)
    returns (lastDelivered: int)
    modifies ops, stream
    ensures ops[..] == Retargeted(old(ops[..]), lastDeliveredID)
    ensures stream.View() == PushAll(old(stream.View()), rows)
    ensures lastDelivered == NextCursor(lastDeliveredID, rows)
  {
    RetargetInPlace(ops, lastDeliveredID);
    var lastID := ProcessWatchResults(rows, stream);
    lastDelivered := lastDeliveredID;
    if lastID > lastDelivered {
      lastDelivered := lastID;
    }
  }

  function NextCursor(cursor: int, rows: seq<Row>): int {
    if MaxID(rows) > cursor then MaxID(rows) else cursor
  }
}
