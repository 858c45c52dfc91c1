/**
 Batch queries keep their meaning: the HTTP and the gRPC paths build the same
 storage operations, and their rows are those the in-memory transport computes
 directly, exactly when no ID clause names a stored event at or before the cursor.
 */
module BatchTranslation {
  import opened Wrappers
  import opened Queries

  // The HTTP path.

  function KindQueryOps(domain: string, stream: string, after: int, k: KindQuery): seq<Operation> {
    (if k.all.Some? then [EachKind(domain, stream, k.all.value, k.kind, after)] else []) +
    seq(|k.matches|, i requires 0 <= i < |k.matches| =>
      MatchSubset(domain, stream, k.matches[i].op, k.kind, k.matches[i].subset, after))
  }

  function KindQueriesOps(domain: string, stream: string, after: int, ks: seq<KindQuery>): seq<Operation> {
    if ks == [] then []
    else KindQueriesOps(domain, stream, after, ks[..|ks| - 1]) + KindQueryOps(domain, stream, after, ks[|ks| - 1])
  }

  function IdQueryOps(domain: string, stream: string, ids: seq<IdQuery>): seq<Operation> {
    seq(|ids|, i requires 0 <= i < |ids| => MatchID(domain, stream, ids[i].id, ids[i].op))
  }

  function BatchOps(domain: string, stream: string, r: BatchRequest): seq<Operation> {
    KindQueriesOps(domain, stream, Cursor(r.afterID), r.onKinds) + IdQueryOps(domain, stream, r.onID)
  }

  method TranslateBatchR2(domain: string, stream: string, r: BatchRequest) returns (output: seq<Operation>)
    ensures output == BatchOps(domain, stream, r)
  {
    output := [];
    var afterID := 0;
    if r.afterID.Some? {
      afterID := r.afterID.value;
    }
    for i := 0 to |r.onKinds|
      invariant output == KindQueriesOps(domain, stream, afterID, r.onKinds[..i])
    {
      output := TranslateKind(domain, stream, afterID, r.onKinds[i], output);
      assert r.onKinds[..i + 1][..i] == r.onKinds[..i];
    }
    assert r.onKinds[..|r.onKinds|] == r.onKinds;
    for i := 0 to |r.onID|
      invariant output == KindQueriesOps(domain, stream, afterID, r.onKinds) + IdQueryOps(domain, stream, r.onID)[..i]
    {
      output := output + [MatchID(domain, stream, r.onID[i].id, r.onID[i].op)];
    }
  }

  method TranslateKind(domain: string, stream: string, afterID: int, k: KindQuery, before: seq<Operation>)
    returns (output: seq<Operation>)
    ensures output == before + KindQueryOps(domain, stream, afterID, k)
  {
    output := before;
    if k.all.Some? {
      output := output + [EachKind(domain, stream, k.all.value, k.kind, afterID)];
    }
    for j := 0 to |k.matches|
      invariant output == before + KindQueryOps(domain, stream, afterID, k)[..(if k.all.Some? then 1 else 0) + j]
    {
      output := output + [MatchSubset(domain, stream, k.matches[j].op, k.kind, k.matches[j].subset, afterID)];
    }
  }

  // The gRPC path.

  function ToKindClause(k: KindQuery): KindClause {
    KindClause(k.kind, k.all,
      seq(|k.matches|, i requires 0 <= i < |k.matches| => SubsetClause(k.matches[i].subset, k.matches[i].op)))
  }

  function ToQueryIn(domain: string, stream: string, r: BatchRequest): QueryIn {
    QueryIn(domain, stream,
      seq(|r.onKinds|, i requires 0 <= i < |r.onKinds| => ToKindClause(r.onKinds[i])),
      seq(|r.onID|, i requires 0 <= i < |r.onID| => IdClause(r.onID[i].id, r.onID[i].op)),
      None, r.afterID)
  }

  predicate Empty(r: BatchRequest) {
    |r.onKinds| == 0 && |r.onID| == 0
  }

  method BuildBatchR2Request(domain: string, stream: string, r: BatchRequest) returns (q: Option<QueryIn>)
    ensures q == if Empty(r) then None else Some(ToQueryIn(domain, stream, r))
  {
    if |r.onKinds| == 0 && |r.onID| == 0 {
      return None;
    }
    var onKind: seq<KindClause> := [];
    for i := 0 to |r.onKinds|
      invariant onKind == ToQueryIn(domain, stream, r).onKind[..i]
    {
      var k := r.onKinds[i];
      var subsets: seq<SubsetClause> := [];
      for j := 0 to |k.matches|
        invariant subsets == ToKindClause(k).subsets[..j]
      {
        subsets := subsets + [SubsetClause(k.matches[j].subset, k.matches[j].op)];
      }
      assert subsets == ToKindClause(k).subsets;
      onKind := onKind + [KindClause(k.kind, k.all, subsets)];
    }
    var onID: seq<IdClause> := [];
    for i := 0 to |r.onID|
      invariant onID == ToQueryIn(domain, stream, r).onID[..i]
    {
      onID := onID + [IdClause(r.onID[i].id, r.onID[i].op)];
    }
    assert onKind == ToQueryIn(domain, stream, r).onKind && onID == ToQueryIn(domain, stream, r).onID;
    q := Some(QueryIn(domain, stream, onKind, onID, None, r.afterID));
  }

  lemma {:induction false} KindOpsAgree(q: QueryIn, ks: seq<KindQuery>, clauses: seq<KindClause>)
    requires |clauses| == |ks| && forall i :: 0 <= i < |ks| ==> clauses[i] == ToKindClause(ks[i])
    ensures KindOps(q, clauses) == KindQueriesOps(q.domain, q.stream, Cursor(q.afterID), ks)
  {
    if ks != [] {
      var n := |ks| - 1;
      KindOpsAgree(q, ks[..n], clauses[..n]);
    }
  }

  /** A request sent over gRPC is translated to the operations it has over HTTP. */
  lemma TranslatorsAgree(domain: string, stream: string, r: BatchRequest)
    ensures QueryOps(ToQueryIn(domain, stream, r)) == BatchOps(domain, stream, r)
  {
    var q := ToQueryIn(domain, stream, r);
    KindOpsAgree(q, r.onKinds, q.onKind);
    assert IdOps(q, q.onID) == IdQueryOps(domain, stream, r.onID);
  }

  // The in-memory interpreter.

  function MatchRows(sub: Contains, ms: seq<KindMatch>, e: Event): seq<Row> {
    if ms == [] then []
    else MatchRows(sub, ms[..|ms| - 1], e) +
         (if sub(e.body, ms[|ms| - 1].subset) then [Row(e, ms[|ms| - 1].op)] else [])
  }

  function KindRows(sub: Contains, ks: seq<KindQuery>, e: Event): seq<Row> {
    if ks == [] then []
    else
      var k := ks[|ks| - 1];
      KindRows(sub, ks[..|ks| - 1], e) +
      (if k.kind != e.kind then []
       else (if k.all.Some? then [Row(e, k.all.value)] else []) + MatchRows(sub, k.matches, e))
  }

  function IdRows(ids: seq<IdQuery>, e: Event): seq<Row> {
    if ids == [] then []
    else IdRows(ids[..|ids| - 1], e) + (if ids[|ids| - 1].id == e.id then [Row(e, ids[|ids| - 1].op)] else [])
  }

  /** The dispatches of one event: nothing at or before the cursor. */
  function EventRows(sub: Contains, r: BatchRequest, e: Event): seq<Row> {
    if r.afterID.Some? && e.id <= r.afterID.value then []
    else KindRows(sub, r.onKinds, e) + IdRows(r.onID, e)
  }

  function MemoryRows(sub: Contains, r: BatchRequest, packets: seq<Event>): seq<Row> {
    if packets == [] then []
    else MemoryRows(sub, r, packets[..|packets| - 1]) + EventRows(sub, r, packets[|packets| - 1])
  }

  method QueryBatchR2(sub: Contains, r: BatchRequest, packets: seq<Event>) returns (results: seq<Row>)
    ensures results == MemoryRows(sub, r, packets)
  {
    hide KindRows, IdRows, MemoryRows;
    results := [];
    NoPackets(sub, r, packets);
    for i := 0 to |packets|
      invariant results == MemoryRows(sub, r, packets[..i])
    {
      var e := packets[i];
      if !(r.afterID.Some? && e.id <= r.afterID.value) {
        results := ProcessKinds(sub, r.onKinds, e, results);
        results := ProcessIDs(r.onID, e, results);
      }
      RowsOfOneMore(sub, r, packets, i);
    }
    assert packets[..|packets|] == packets;
  }

  lemma NoPackets(sub: Contains, r: BatchRequest, packets: seq<Event>)
    ensures MemoryRows(sub, r, packets[..0]) == []
  {
  }

  lemma RowsOfOneMore(sub: Contains, r: BatchRequest, packets: seq<Event>, i: nat)
    requires i < |packets|
    ensures MemoryRows(sub, r, packets[..i + 1]) == MemoryRows(sub, r, packets[..i]) + EventRows(sub, r, packets[i])
  {
    hide EventRows;
    assert packets[..i + 1][..i] == packets[..i];
  }

  method ProcessKinds(sub: Contains, ks: seq<KindQuery>, e: Event, before: seq<Row>) returns (results: seq<Row>)
    ensures results == before + KindRows(sub, ks, e)
  {
    results := before;
    for i := 0 to |ks|
      invariant results == before + KindRows(sub, ks[..i], e)
    {
      var k := ks[i];
      assert ks[..i + 1][..i] == ks[..i];
      if k.kind == e.kind {
        if k.all.Some? {
          results := results + [Row(e, k.all.value)];
        }
        ghost var start := results;
        for j := 0 to |k.matches|
          invariant results == start + MatchRows(sub, k.matches[..j], e)
        {
          assert k.matches[..j + 1][..j] == k.matches[..j];
          if sub(e.body, k.matches[j].subset) {
            results := results + [Row(e, k.matches[j].op)];
          }
        }
        assert k.matches[..|k.matches|] == k.matches;
      }
    }
    assert ks[..|ks|] == ks;
  }

  method ProcessIDs(ids: seq<IdQuery>, e: Event, before: seq<Row>) returns (results: seq<Row>)
    ensures results == before + IdRows(ids, e)
  {
    results := before;
    for i := 0 to |ids|
      invariant results == before + IdRows(ids[..i], e)
    {
      assert ids[..i + 1][..i] == ids[..i];
      if ids[i].id == e.id {
        results := results + [Row(e, ids[i].op)];
      }
    }
    assert ids[..|ids|] == ids;
  }

  // The two agree.

  function StreamEvents(domain: string, stream: string, table: seq<Event>): seq<Event> {
    if table == [] then []
    else
      var e := table[|table| - 1];
      StreamEvents(domain, stream, table[..|table| - 1]) + (if e.domain == domain && e.stream == stream then [e] else [])
  }

  /** Some ID clause asks for `e`, which lies at or before the cursor. */
  predicate NamedBehindCursor(r: BatchRequest, e: Event) {
    && r.afterID.Some? && e.id <= r.afterID.value
    && exists i :: 0 <= i < |r.onID| && r.onID[i].id == e.id
  }

  lemma {:induction false} MatchesOfOneEvent(sub: Contains, domain: string, stream: string, after: int, k: KindQuery, ms: seq<KindMatch>, e: Event)
    requires e.domain == domain && e.stream == stream && e.kind == k.kind && PastCursor(after, e)
    ensures UnionRows(sub, KindQueryOps(domain, stream, after, k.(all := None, matches := ms)), [e]) == MatchRows(sub, ms, e)
  {
    var ops := KindQueryOps(domain, stream, after, k.(all := None, matches := ms));
    if ms != [] {
      var n := |ms| - 1;
      MatchesOfOneEvent(sub, domain, stream, after, k, ms[..n], e);
      assert ops[..n] == KindQueryOps(domain, stream, after, k.(all := None, matches := ms[..n]));
      OneEvent(sub, ops[n], e);
    }
  }

  lemma OneEvent(sub: Contains, o: Operation, e: Event)
    ensures RowsOf(sub, o, [e]) == if Selects(sub, o, e) then [Row(e, o.op)] else []
  {
    assert RowsOf(sub, o, [e][..0]) == [];
  }

  lemma {:induction false} Unselected(sub: Contains, ops: seq<Operation>, e: Event)
    requires forall o :: o in ops ==> !Selects(sub, o, e)
    ensures UnionRows(sub, ops, [e]) == []
  {
    if ops != [] {
      Unselected(sub, ops[..|ops| - 1], e);
      OneEvent(sub, ops[|ops| - 1], e);
    }
  }

  lemma {:induction false} KindOfOneEvent(sub: Contains, domain: string, stream: string, after: int, k: KindQuery, e: Event)
    requires e.domain == domain && e.stream == stream && PastCursor(after, e)
    ensures UnionRows(sub, KindQueryOps(domain, stream, after, k), [e]) == KindRows(sub, [k], e)
  {
    var ops := KindQueryOps(domain, stream, after, k);
    assert [k][..0] == [];
    if k.kind != e.kind {
      Unselected(sub, ops, e);
    } else {
      var all := if k.all.Some? then [EachKind(domain, stream, k.all.value, k.kind, after)] else [];
      var rest := KindQueryOps(domain, stream, after, k.(all := None));
      assert ops == all + rest;
      UnionConcat(sub, all, rest, [e]);
      MatchesOfOneEvent(sub, domain, stream, after, k, k.matches, e);
      if k.all.Some? {
        OneEvent(sub, all[0], e);
        assert UnionRows(sub, all[..0], [e]) == [];
      }
    }
  }

  lemma {:induction false} KindsOfOneEvent(sub: Contains, domain: string, stream: string, after: int, ks: seq<KindQuery>, e: Event)
    requires e.domain == domain && e.stream == stream && PastCursor(after, e)
    ensures UnionRows(sub, KindQueriesOps(domain, stream, after, ks), [e]) == KindRows(sub, ks, e)
  {
    if ks == [] {
      assert KindQueriesOps(domain, stream, after, ks) == [];
    } else {
      var n := |ks| - 1;
      LastKindQuery(sub, domain, stream, after, ks, e);
      hide UnionRows, KindRows, KindQueriesOps, KindQueryOps, PastCursor;
      KindsOfOneEvent(sub, domain, stream, after, ks[..n], e);
      UnionConcat(sub, KindQueriesOps(domain, stream, after, ks[..n]), KindQueryOps(domain, stream, after, ks[n]), [e]);
      KindOfOneEvent(sub, domain, stream, after, ks[n], e);
    }
  }

  lemma LastKindQuery(sub: Contains, domain: string, stream: string, after: int, ks: seq<KindQuery>, e: Event)
    requires ks != []
    ensures
      var rest, k := ks[..|ks| - 1], ks[|ks| - 1];
      && KindQueriesOps(domain, stream, after, ks) == KindQueriesOps(domain, stream, after, rest) + KindQueryOps(domain, stream, after, k)
      && KindRows(sub, ks, e) == KindRows(sub, rest, e) + KindRows(sub, [k], e)
  {
    hide MatchRows, KindQueryOps;
    var k := ks[|ks| - 1];
    assert [k][..0] == [] && KindRows(sub, [], e) == [];
  }

  lemma {:induction false} IdsOfOneEvent(sub: Contains, domain: string, stream: string, ids: seq<IdQuery>, e: Event)
    requires e.domain == domain && e.stream == stream
    ensures UnionRows(sub, IdQueryOps(domain, stream, ids), [e]) == IdRows(ids, e)
  {
    var ops := IdQueryOps(domain, stream, ids);
    if ids != [] {
      var n := |ids| - 1;
      IdsOfOneEvent(sub, domain, stream, ids[..n], e);
      assert ops[..n] == IdQueryOps(domain, stream, ids[..n]);
      OneEvent(sub, ops[n], e);
    }
  }

  lemma {:induction false} NamedHasRow(ids: seq<IdQuery>, e: Event)
    ensures IdRows(ids, e) != [] <==> exists i :: 0 <= i < |ids| && ids[i].id == e.id
  {
    if ids != [] {
      var n := |ids| - 1;
      NamedHasRow(ids[..n], e);
      if ids[n].id == e.id {
      } else if i :| 0 <= i < |ids| && ids[i].id == e.id {
        assert ids[..n][i].id == e.id;
      }
    }
  }

  /** All kind operations lie past the cursor, so an event behind it matches by ID only. */
  lemma {:induction false} KindsBehindCursor(sub: Contains, domain: string, stream: string, after: int, ks: seq<KindQuery>, e: Event)
    requires !PastCursor(after, e)
    ensures UnionRows(sub, KindQueriesOps(domain, stream, after, ks), [e]) == []
  {
    if ks != [] {
      var n := |ks| - 1;
      KindsBehindCursor(sub, domain, stream, after, ks[..n], e);
      UnionConcat(sub, KindQueriesOps(domain, stream, after, ks[..n]), KindQueryOps(domain, stream, after, ks[n]), [e]);
      Unselected(sub, KindQueryOps(domain, stream, after, ks[n]), e);
    }
  }

  /** The operations over one stored event: the interpreter's dispatches, plus ID matches it skips. */
  lemma OneStoredEvent(sub: Contains, domain: string, stream: string, r: BatchRequest, e: Event)
    requires e.id >= 1 && e.domain == domain && e.stream == stream
    ensures !NamedBehindCursor(r, e) ==> UnionRows(sub, BatchOps(domain, stream, r), [e]) == EventRows(sub, r, e)
    ensures NamedBehindCursor(r, e) ==> |UnionRows(sub, BatchOps(domain, stream, r), [e])| > |EventRows(sub, r, e)|
  {
    var after := Cursor(r.afterID);
    UnionConcat(sub, KindQueriesOps(domain, stream, after, r.onKinds), IdQueryOps(domain, stream, r.onID), [e]);
    IdsOfOneEvent(sub, domain, stream, r.onID, e);
    NamedHasRow(r.onID, e);
    if r.afterID.Some? && e.id <= r.afterID.value {
      KindsBehindCursor(sub, domain, stream, after, r.onKinds, e);
    } else {
      KindsOfOneEvent(sub, domain, stream, after, r.onKinds, e);
    }
  }

  lemma ForeignEvent(sub: Contains, domain: string, stream: string, r: BatchRequest, e: Event)
    requires e.domain != domain || e.stream != stream
    ensures UnionRows(sub, BatchOps(domain, stream, r), [e]) == []
  {
    ForeignOps(domain, stream, Cursor(r.afterID), r.onKinds);
    Unselected(sub, BatchOps(domain, stream, r), e);
  }

  lemma {:induction false} ForeignOps(domain: string, stream: string, after: int, ks: seq<KindQuery>)
    ensures forall o :: o in KindQueriesOps(domain, stream, after, ks) ==> o.domain == domain && o.stream == stream
  {
    if ks != [] {
      ForeignOps(domain, stream, after, ks[..|ks| - 1]);
    }
  }

  ghost predicate AnyNamedBehindCursor(r: BatchRequest, packets: seq<Event>) {
    exists i :: 0 <= i < |packets| && NamedBehindCursor(r, packets[i])
  }

  /** The stored rows are the computed ones, or strictly more of them. */
  ghost predicate Compared(stored: seq<Row>, computed: seq<Row>, differ: bool) {
    if differ then |stored| > |computed| else multiset(stored) == multiset(computed)
  }

  lemma ComparedOneMore(stored: seq<Row>, computed: seq<Row>, differ: bool, stored1: seq<Row>, computed1: seq<Row>, differ1: bool, whole: seq<Row>)
    requires Compared(stored, computed, differ) && Compared(stored1, computed1, differ1)
    requires multiset(whole) == multiset(stored) + multiset(stored1)
    ensures Compared(whole, computed + computed1, differ || differ1)
  {
    SameSize(whole, stored, stored1);
    if !differ {
      SameSize(stored, computed, []);
    }
    if !differ1 {
      SameSize(stored1, computed1, []);
    }
  }

  lemma MemoryRowsLast(sub: Contains, r: BatchRequest, packets: seq<Event>, e: Event)
    ensures MemoryRows(sub, r, packets + [e]) == MemoryRows(sub, r, packets) + EventRows(sub, r, e)
  {
    hide EventRows;
    assert (packets + [e])[..|packets|] == packets;
  }

  /** One more stored event keeps the comparison, whether it is the stream's or another's. */
  lemma ComparedWithLast(sub: Contains, domain: string, stream: string, r: BatchRequest, table: seq<Event>, e: Event)
    requires e.id >= 1
    requires
      var packets := StreamEvents(domain, stream, table);
      Compared(UnionRows(sub, BatchOps(domain, stream, r), table), MemoryRows(sub, r, packets), AnyNamedBehindCursor(r, packets))
    ensures
      var packets := StreamEvents(domain, stream, table + [e]);
      Compared(UnionRows(sub, BatchOps(domain, stream, r), table + [e]), MemoryRows(sub, r, packets), AnyNamedBehindCursor(r, packets))
  {
    var ops, packets := BatchOps(domain, stream, r), StreamEvents(domain, stream, table);
    UnionOneMoreEvent(sub, ops, table, e);
    if e.domain == domain && e.stream == stream {
      OneStoredEvent(sub, domain, stream, r, e);
      assert Compared(UnionRows(sub, ops, [e]), EventRows(sub, r, e), NamedBehindCursor(r, e));
      MemoryRowsLast(sub, r, packets, e);
      OneMorePacket(r, packets, e);
      hide UnionRows, MemoryRows, EventRows, BatchOps, NamedBehindCursor, AnyNamedBehindCursor, Compared, StreamEvents;
      ComparedOneMore(UnionRows(sub, ops, table), MemoryRows(sub, r, packets), AnyNamedBehindCursor(r, packets),
                      UnionRows(sub, ops, [e]), EventRows(sub, r, e), NamedBehindCursor(r, e), UnionRows(sub, ops, table + [e]));
    } else {
      ForeignEvent(sub, domain, stream, r, e);
      hide UnionRows, MemoryRows, BatchOps, AnyNamedBehindCursor, StreamEvents;
      assert packets + [] == packets && MemoryRows(sub, r, packets) + [] == MemoryRows(sub, r, packets);
      ComparedOneMore(UnionRows(sub, ops, table), MemoryRows(sub, r, packets), AnyNamedBehindCursor(r, packets),
                      [], [], false, UnionRows(sub, ops, table + [e]));
    }
  }

  lemma {:induction false} BatchRowsCompared(sub: Contains, domain: string, stream: string, r: BatchRequest, table: seq<Event>)
    requires forall e :: e in table ==> e.id >= 1
    ensures
      var packets := StreamEvents(domain, stream, table);
      Compared(UnionRows(sub, BatchOps(domain, stream, r), table), MemoryRows(sub, r, packets), AnyNamedBehindCursor(r, packets))
  {
    hide BatchOps, UnionRows, MemoryRows, AnyNamedBehindCursor, Compared, StreamEvents;
    if table == [] {
      NothingCompared(sub, domain, stream, r);
    } else {
      var n := |table| - 1;
      BatchRowsCompared(sub, domain, stream, r, table[..n]);
      ComparedWithLast(sub, domain, stream, r, table[..n], table[n]);
      assert table == table[..n] + [table[n]];
    }
  }

  lemma NothingCompared(sub: Contains, domain: string, stream: string, r: BatchRequest)
    ensures
      var packets := StreamEvents(domain, stream, []);
      Compared(UnionRows(sub, BatchOps(domain, stream, r), []), MemoryRows(sub, r, packets), AnyNamedBehindCursor(r, packets))
  {
    hide BatchOps, NamedBehindCursor;
    EmptyTable(sub, BatchOps(domain, stream, r));
  }

  lemma OneMorePacket(r: BatchRequest, packets: seq<Event>, e: Event)
    ensures AnyNamedBehindCursor(r, packets + [e]) <==> AnyNamedBehindCursor(r, packets) || NamedBehindCursor(r, e)
  {
    hide NamedBehindCursor;
    var more := packets + [e];
    assert more[|packets|] == e;
    if i :| 0 <= i < |packets| && NamedBehindCursor(r, packets[i]) {
      assert more[i] == packets[i];
    }
  }

  lemma SameSize(whole: seq<Row>, a: seq<Row>, b: seq<Row>)
    requires multiset(whole) == multiset(a) + multiset(b)
    ensures |whole| == |a| + |b|
  {
    assert |multiset(whole)| == |whole| && |multiset(a)| == |a| && |multiset(b)| == |b|;
  }

  lemma {:induction false} EmptyTable(sub: Contains, ops: seq<Operation>)
    ensures UnionRows(sub, ops, []) == []
  {
    if ops != [] {
      EmptyTable(sub, ops[..|ops| - 1]);
    }
  }

  /**
   For event IDs from 1 up, the stored operations return the same dispatches, with
   multiplicity, as the in-memory interpreter, if and only if no ID clause names an
   event of the stream at or before the cursor.
   */
  lemma BatchMeaningIff(sub: Contains, domain: string, stream: string, r: BatchRequest, table: seq<Event>)
    requires forall e :: e in table ==> e.id >= 1
    ensures multiset(UnionRows(sub, BatchOps(domain, stream, r), table)) ==
            multiset(MemoryRows(sub, r, StreamEvents(domain, stream, table)))
            <==>
            !AnyNamedBehindCursor(r, StreamEvents(domain, stream, table))
  {
    BatchRowsCompared(sub, domain, stream, r, table);
    var stored := UnionRows(sub, BatchOps(domain, stream, r), table);
    var computed := MemoryRows(sub, r, StreamEvents(domain, stream, table));
    if multiset(stored) == multiset(computed) {
      SameSize(stored, computed, []);
    }
  }
}
