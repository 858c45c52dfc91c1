/** Stored events, the query requests of the wire, and the storage operations they become. */
module Queries {
  import opened Wrappers

  datatype Event = Event(id: int, when: int, domain: string, stream: string, kind: string, body: string)

  /** Does a body contain a subset document?  One predicate stands for every JSON matcher. */
  type Contains = (string, string) -> bool

  // The batch request of the client library.
  datatype KindMatch = KindMatch(op: int, subset: string)
  datatype KindQuery = KindQuery(kind: string, all: Option<int>, matches: seq<KindMatch>)
  datatype IdQuery = IdQuery(op: int, id: int)
  datatype BatchRequest = BatchRequest(onKinds: seq<KindQuery>, onID: seq<IdQuery>, afterID: Option<int>)

  // The request of the gRPC query service.
  datatype SubsetClause = SubsetClause(document: string, op: int)
  datatype KindClause = KindClause(kind: string, allOp: Option<int>, subsets: seq<SubsetClause>)
  datatype IdClause = IdClause(id: int, op: int)
  datatype QueryIn = QueryIn(
    domain: string, stream: string,
    onKind: seq<KindClause>, onID: seq<IdClause>, onEach: Option<int>, afterID: Option<int>)

  datatype Operation =
    | EachKind(domain: string, stream: string, op: int, kind: string, afterID: int)
    | MatchSubset(domain: string, stream: string, op: int, kind: string, subset: string, afterID: int)
    | MatchID(domain: string, stream: string, id: int, op: int)
    | AllStreamEvents(domain: string, stream: string, op: int, afterID: int)

  /** The cursor only filters when it is positive. */
  predicate PastCursor(afterID: int, e: Event) {
    afterID > 0 ==> e.id > afterID
  }

  predicate Selects(sub: Contains, o: Operation, e: Event) {
    && e.domain == o.domain && e.stream == o.stream
    && match o
       case EachKind(_, _, _, kind, after) => e.kind == kind && PastCursor(after, e)
       case MatchSubset(_, _, _, kind, subset, after) => e.kind == kind && sub(e.body, subset) && PastCursor(after, e)
       case MatchID(_, _, id, _) => e.id == id
       case AllStreamEvents(_, _, _, after) => PastCursor(after, e)
  }

  datatype Row = Row(event: Event, op: int)

  function RowsOf(sub: Contains, o: Operation, table: seq<Event>): seq<Row> {
    if table == [] then []
    else RowsOf(sub, o, table[..|table| - 1]) +
         (if Selects(sub, o, table[|table| - 1]) then [Row(table[|table| - 1], o.op)] else [])
  }

  /** UNION ALL of the operations over the events table, before ordering. */
  function UnionRows(sub: Contains, ops: seq<Operation>, table: seq<Event>): seq<Row> {
    if ops == [] then []
    else UnionRows(sub, ops[..|ops| - 1], table) + RowsOf(sub, ops[|ops| - 1], table)
  }

  lemma {:induction false} UnionConcat(sub: Contains, a: seq<Operation>, b: seq<Operation>, table: seq<Event>)
    ensures UnionRows(sub, a + b, table) == UnionRows(sub, a, table) + UnionRows(sub, b, table)
  {
    hide RowsOf;
    if b == [] {
      assert a + b == a;
    } else {
      var n := |b| - 1;
      UnionConcat(sub, a, b[..n], table);
      assert (a + b)[..|a + b| - 1] == a + b[..n];
      assert (a + b)[|a + b| - 1] == b[n];
    }
  }

  /** The union over one more event: its own rows are added, whichever operation they come from. */
  lemma {:induction false} UnionOneMoreEvent(sub: Contains, ops: seq<Operation>, table: seq<Event>, e: Event)
    ensures multiset(UnionRows(sub, ops, table + [e])) ==
            multiset(UnionRows(sub, ops, table)) + multiset(UnionRows(sub, ops, [e]))
  {
    if ops != [] {
      var o := ops[|ops| - 1];
      UnionOneMoreEvent(sub, ops[..|ops| - 1], table, e);
      assert (table + [e])[..|table + [e]| - 1] == table;
      assert RowsOf(sub, o, table + [e]) == RowsOf(sub, o, table) + RowsOf(sub, o, [e]);
    }
  }

  /** A row of the union is an event of the table tagged by an operation that selects it. */
  lemma {:induction false} UnionRowSound(sub: Contains, ops: seq<Operation>, table: seq<Event>, r: Row)
    requires r in UnionRows(sub, ops, table)
    ensures r.event in table && exists o :: o in ops && o.op == r.op && Selects(sub, o, r.event)
  {
    var o := ops[|ops| - 1];
    if r in RowsOf(sub, o, table) {
      RowsOfSound(sub, o, table, r);
      assert o in ops;
    } else {
      UnionRowSound(sub, ops[..|ops| - 1], table, r);
    }
  }

  lemma {:induction false} RowsOfSound(sub: Contains, o: Operation, table: seq<Event>, r: Row)
    requires r in RowsOf(sub, o, table)
    ensures r.event in table && o.op == r.op && Selects(sub, o, r.event)
  {
    var n := |table| - 1;
    if r in RowsOf(sub, o, table[..n]) {
      RowsOfSound(sub, o, table[..n], r);
    }
  }

  /** Every selected event has a row for each operation that selects it. */
  lemma {:induction false} UnionRowComplete(sub: Contains, ops: seq<Operation>, table: seq<Event>, o: Operation, e: Event)
    requires o in ops && e in table && Selects(sub, o, e)
    ensures Row(e, o.op) in UnionRows(sub, ops, table)
  {
    if o == ops[|ops| - 1] {
      RowsOfComplete(sub, o, table, e);
    } else {
      UnionRowComplete(sub, ops[..|ops| - 1], table, o, e);
    }
  }

  lemma {:induction false} RowsOfComplete(sub: Contains, o: Operation, table: seq<Event>, e: Event)
    requires e in table && Selects(sub, o, e)
    ensures Row(e, o.op) in RowsOf(sub, o, table)
  {
    if e != table[|table| - 1] {
      RowsOfComplete(sub, o, table[..|table| - 1], e);
    }
  }

  // Translation of a gRPC query, clause by clause.

  function Cursor(afterID: Option<int>): int {
    if afterID.Some? then afterID.value else 0
  }

  function KindClauseOps(q: QueryIn, k: KindClause): seq<Operation> {
    (if k.allOp.Some? then [EachKind(q.domain, q.stream, k.allOp.value, k.kind, Cursor(q.afterID))] else []) +
    seq(|k.subsets|, i requires 0 <= i < |k.subsets| =>
      MatchSubset(q.domain, q.stream, k.subsets[i].op, k.kind, k.subsets[i].document, Cursor(q.afterID)))
  }

  function KindOps(q: QueryIn, ks: seq<KindClause>): seq<Operation> {
    if ks == [] then [] else KindOps(q, ks[..|ks| - 1]) + KindClauseOps(q, ks[|ks| - 1])
  }

  function IdOps(q: QueryIn, ids: seq<IdClause>): seq<Operation> {
    seq(|ids|, i requires 0 <= i < |ids| => MatchID(q.domain, q.stream, ids[i].id, ids[i].op))
  }

  function QueryOps(q: QueryIn): seq<Operation> {
    KindOps(q, q.onKind) + IdOps(q, q.onID) +
    (if q.onEach.Some? then [AllStreamEvents(q.domain, q.stream, q.onEach.value, Cursor(q.afterID))] else [])
  }

  // What a query asks for, clause by clause, without its operations.

  /** A positive cursor leaves out the events up to it. */
  predicate AfterCursor(q: QueryIn, e: Event) {
    q.afterID.Some? && q.afterID.value > 0 ==> q.afterID.value < e.id
  }

  /** A kind clause asks for the events of its kind whole, or for those that contain a subset. */
  ghost predicate KindAsks(sub: Contains, k: KindClause, e: Event, op: int) {
    && k.kind == e.kind
    && (k.allOp == Some(op) || exists i :: 0 <= i < |k.subsets| && k.subsets[i].op == op && sub(e.body, k.subsets[i].document))
  }

  /** Some clause of the query asks for the event under this op; an ID clause does whatever the cursor. */
  ghost predicate AsksUnder(sub: Contains, q: QueryIn, e: Event, op: int) {
    && e.domain == q.domain && e.stream == q.stream
    && (|| (AfterCursor(q, e) && exists i :: 0 <= i < |q.onKind| && KindAsks(sub, q.onKind[i], e, op))
        || (exists i :: 0 <= i < |q.onID| && q.onID[i] == IdClause(e.id, op))
        || (AfterCursor(q, e) && q.onEach == Some(op)))
  }

  /** Some operation of the list, with this op, selects the event. */
  ghost predicate SelectedUnder(sub: Contains, ops: seq<Operation>, e: Event, op: int) {
    exists i :: 0 <= i < |ops| && ops[i].op == op && Selects(sub, ops[i], e)
  }

  lemma SelectedByEither(sub: Contains, a: seq<Operation>, b: seq<Operation>, e: Event, op: int)
    ensures SelectedUnder(sub, a + b, e, op) <==> SelectedUnder(sub, a, e, op) || SelectedUnder(sub, b, e, op)
  {
    hide Selects;
    if i :| 0 <= i < |a| && a[i].op == op && Selects(sub, a[i], e) {
      assert (a + b)[i] == a[i];
    }
    if i :| 0 <= i < |b| && b[i].op == op && Selects(sub, b[i], e) {
      assert (a + b)[|a| + i] == b[i];
    }
  }

  lemma KindClauseSelects(sub: Contains, q: QueryIn, k: KindClause, e: Event, op: int)
    ensures SelectedUnder(sub, KindClauseOps(q, k), e, op) <==>
            e.domain == q.domain && e.stream == q.stream && AfterCursor(q, e) && KindAsks(sub, k, e, op)
  {
    var ops, first := KindClauseOps(q, k), if k.allOp.Some? then 1 else 0;
    assert |ops| == first + |k.subsets|;
    if e.domain == q.domain && e.stream == q.stream && AfterCursor(q, e) && KindAsks(sub, k, e, op) {
      if k.allOp == Some(op) {
        assert Selects(sub, ops[0], e);
      } else {
        var i :| 0 <= i < |k.subsets| && k.subsets[i].op == op && sub(e.body, k.subsets[i].document);
        assert Selects(sub, ops[first + i], e);
      }
    }
    if i :| 0 <= i < |ops| && ops[i].op == op && Selects(sub, ops[i], e) {
      if i >= first {
        assert sub(e.body, k.subsets[i - first].document);
      }
    }
  }

  lemma {:induction false} KindsSelect(sub: Contains, q: QueryIn, ks: seq<KindClause>, e: Event, op: int)
    ensures SelectedUnder(sub, KindOps(q, ks), e, op) <==>
            e.domain == q.domain && e.stream == q.stream && AfterCursor(q, e)
            && exists i :: 0 <= i < |ks| && KindAsks(sub, ks[i], e, op)
  {
    if ks != [] {
      var n := |ks| - 1;
      hide KindAsks, KindClauseOps, AfterCursor, SelectedUnder;
      KindsSelect(sub, q, ks[..n], e, op);
      KindClauseSelects(sub, q, ks[n], e, op);
      SelectedByEither(sub, KindOps(q, ks[..n]), KindClauseOps(q, ks[n]), e, op);
      if i :| 0 <= i < n && KindAsks(sub, ks[i], e, op) {
        assert KindAsks(sub, ks[..n][i], e, op);
      }
    }
  }

  lemma IdsSelect(sub: Contains, q: QueryIn, ids: seq<IdClause>, e: Event, op: int)
    ensures SelectedUnder(sub, IdOps(q, ids), e, op) <==>
            e.domain == q.domain && e.stream == q.stream && exists i :: 0 <= i < |ids| && ids[i] == IdClause(e.id, op)
  {
    var ops := IdOps(q, ids);
    if i :| 0 <= i < |ids| && ids[i] == IdClause(e.id, op) {
      assert e.domain == q.domain && e.stream == q.stream ==> Selects(sub, ops[i], e);
    }
    if i :| 0 <= i < |ops| && ops[i].op == op && Selects(sub, ops[i], e) {
      assert ids[i] == IdClause(e.id, op);
    }
  }

  /** The operations of a query select an event, under an op, if and only if one of its clauses asks for it under that op. */
  lemma OpsSelectIff(sub: Contains, q: QueryIn, e: Event, op: int)
    ensures (exists o :: o in QueryOps(q) && o.op == op && Selects(sub, o, e)) <==> AsksUnder(sub, q, e, op)
  {
    var kinds, ids := KindOps(q, q.onKind), IdOps(q, q.onID);
    var each := if q.onEach.Some? then [AllStreamEvents(q.domain, q.stream, q.onEach.value, Cursor(q.afterID))] else [];
    KindsSelect(sub, q, q.onKind, e, op);
    IdsSelect(sub, q, q.onID, e, op);
    EachSelects(sub, q, each, e, op);
    hide KindAsks, AfterCursor, Selects, KindOps, IdOps;
    SelectedByEither(sub, kinds, ids, e, op);
    SelectedByEither(sub, kinds + ids, each, e, op);
    var ops := QueryOps(q);
    assert ops == kinds + ids + each;
    if SelectedUnder(sub, ops, e, op) {
      var i :| 0 <= i < |ops| && ops[i].op == op && Selects(sub, ops[i], e);
      assert ops[i] in ops;
    }
    if o :| o in ops && o.op == op && Selects(sub, o, e) {
      var i :| 0 <= i < |ops| && ops[i] == o;
    }
  }

  lemma EachSelects(sub: Contains, q: QueryIn, each: seq<Operation>, e: Event, op: int)
    requires each == if q.onEach.Some? then [AllStreamEvents(q.domain, q.stream, q.onEach.value, Cursor(q.afterID))] else []
    ensures SelectedUnder(sub, each, e, op) <==>
            e.domain == q.domain && e.stream == q.stream && AfterCursor(q, e) && q.onEach == Some(op)
  {
    if e.domain == q.domain && e.stream == q.stream && AfterCursor(q, e) && q.onEach == Some(op) {
      assert Selects(sub, each[0], e);
    }
  }

  method BuildQueryOps(q: QueryIn) returns (ops: seq<Operation>, empty: bool)
    ensures empty <==> QueryOps(q) == []
    ensures ops == QueryOps(q)
  {
    ops := [];
    var afterID := 0;
    if q.afterID.Some? {
      afterID := q.afterID.value;
    }
    for i := 0 to |q.onKind|
      invariant ops == KindOps(q, q.onKind[..i])
    {
      ops := BuildKindOps(q, q.onKind[i], afterID, ops);
      assert q.onKind[..i + 1][..i] == q.onKind[..i];
    }
    assert q.onKind[..|q.onKind|] == q.onKind;
    for i := 0 to |q.onID|
      invariant ops == KindOps(q, q.onKind) + IdOps(q, q.onID)[..i]
    {
      ops := ops + [MatchID(q.domain, q.stream, q.onID[i].id, q.onID[i].op)];
    }
    if q.onEach.Some? {
      ops := ops + [AllStreamEvents(q.domain, q.stream, q.onEach.value, afterID)];
    }
    empty := |ops| == 0;
  }

  method BuildKindOps(q: QueryIn, k: KindClause, afterID: int, before: seq<Operation>) returns (ops: seq<Operation>)
    requires afterID == Cursor(q.afterID)
    ensures ops == before + KindClauseOps(q, k)
  {
    ops := before;
    if k.allOp.Some? {
      ops := ops + [EachKind(q.domain, q.stream, k.allOp.value, k.kind, afterID)];
    }
    ghost var all, first := KindClauseOps(q, k), if k.allOp.Some? then 1 else 0;
    assert |all| == first + |k.subsets|;
    for j := 0 to |k.subsets|
      invariant ops == before + all[..first + j]
    {
      assert all[..first + j + 1] == all[..first + j] + [all[first + j]];
      ops := ops + [MatchSubset(q.domain, q.stream, k.subsets[j].op, k.kind, k.subsets[j].document, afterID)];
    }
  }
}
