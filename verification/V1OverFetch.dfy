/**
 The gRPC path of a first-API query: it asks for whole kinds where it cannot express
 an equality, and filters what comes back.  The outcome is the local filter's.
 */
module V1OverFetch {
  import opened Wrappers
  import opened Queries
  import opened SqlText
  import opened V1Query
  import opened V1Reading
  import opened BatchTranslation

  const TARGET_OP: int := 42

  /** A constraint with an equality list, even an empty one, is fetched whole. */
  function WireClause(c: KindConstraint, index: nat): KindClause {
    if c.eq.Some? then KindClause(c.kind, Some(TARGET_OP), [])
    else if c.subset.Some? then KindClause(c.kind, None, [SubsetClause(c.subset.value, index)])
    else KindClause(c.kind, Some(TARGET_OP), [])
  }

  function WireClauses(cs: seq<KindConstraint>): seq<KindClause> {
    seq(|cs|, i requires 0 <= i < |cs| => WireClause(cs[i], i))
  }

  function WireRequest(domain: string, stream: string, q: WireQuery): QueryIn {
    QueryIn(domain, stream, WireClauses(q.kinds), [], None, None)
  }

  predicate Exact(cs: seq<KindConstraint>) {
    forall i :: 0 <= i < |cs| ==> cs[i].eq.None?
  }

  method BuildQueryRequest(domain: string, stream: string, q: WireQuery) returns (request: QueryIn, filtered: bool)
    ensures request == WireRequest(domain, stream, q)
    ensures filtered <==> Exact(q.kinds)
  {
    var onKind: seq<KindClause> := [];
    filtered := true;
    for index := 0 to |q.kinds|
      invariant onKind == WireClauses(q.kinds)[..index]
      invariant filtered <==> Exact(q.kinds[..index])
    {
      var c := q.kinds[index];
      if c.eq.Some? {
        filtered := false;
        onKind := onKind + [KindClause(c.kind, Some(TARGET_OP), [])];
      } else {
        var subsets: seq<SubsetClause> := [];
        if c.subset.Some? {
          subsets := [SubsetClause(c.subset.value, index)];
        }
        var allOp := None;
        if c.subset.None? {
          allOp := Some(TARGET_OP);
        }
        onKind := onKind + [KindClause(c.kind, allOp, subsets)];
      }
    }
    assert q.kinds[..|q.kinds|] == q.kinds && onKind == WireClauses(q.kinds);
    request := QueryIn(domain, stream, onKind, [], None, None);
  }

  function EventsOf(rows: seq<Row>): seq<Event> {
    seq(|rows|, i requires 0 <= i < |rows| => rows[i].event)
  }

  function Passing(m: Matchers, q: WireQuery, es: seq<Event>): seq<Event> {
    if es == [] then []
    else Passing(m, q, es[..|es| - 1]) + (if Filter(m, q, es[|es| - 1]) then [es[|es| - 1]] else [])
  }

  /** What the client ends up with: filtered again unless the request was exact. */
  function Outcome(m: Matchers, q: WireQuery, fetched: seq<Event>): seq<Event> {
    if Exact(q.kinds) then fetched else Passing(m, q, fetched)
  }

  method Perform(m: Matchers, q: WireQuery, fetched: seq<Event>, filtered: bool) returns (matching: seq<Event>)
    requires filtered <==> Exact(q.kinds)
    ensures matching == Outcome(m, q, fetched)
  {
    if filtered {
      return fetched;
    }
    matching := [];
    for i := 0 to |fetched|
      invariant matching == Passing(m, q, fetched[..i])
    {
      assert fetched[..i + 1][..i] == fetched[..i];
      if Filter(m, q, fetched[i]) {
        matching := matching + [fetched[i]];
      }
    }
    assert fetched[..|fetched|] == fetched;
  }

  /** The rows one constraint fetches of one event of the stream. */
  function Fetched(m: Matchers, c: KindConstraint, index: nat, e: Event): seq<Row> {
    if c.kind != e.kind then []
    else if c.eq.Some? || c.subset.None? then [Row(e, TARGET_OP)]
    else if m.contains(e.body, c.subset.value) then [Row(e, index)]
    else []
  }

  lemma FetchOne(m: Matchers, r: QueryIn, c: KindConstraint, index: nat, e: Event)
    requires r.afterID == None && e.domain == r.domain && e.stream == r.stream
    ensures UnionRows(m.contains, KindClauseOps(r, WireClause(c, index)), [e]) == Fetched(m, c, index, e)
  {
    var ops := KindClauseOps(r, WireClause(c, index));
    assert |ops| == 1;
    assert UnionRows(m.contains, ops[..0], [e]) == [];
    OneEvent(m.contains, ops[0], e);
  }

  lemma LastConstraintOps(r: QueryIn, cs: seq<KindConstraint>)
    requires cs != []
    ensures
      var n := |cs| - 1;
      KindOps(r, WireClauses(cs)) == KindOps(r, WireClauses(cs[..n])) + KindClauseOps(r, WireClause(cs[n], n))
  {
    hide KindClauseOps;
    assert WireClauses(cs)[..|cs| - 1] == WireClauses(cs[..|cs| - 1]);
  }

  /** What an event of the stream is fetched as: once, by the constraint found for it. */
  ghost predicate FetchedAs(m: Matchers, cs: seq<KindConstraint>, e: Event, rows: seq<Row>) {
    match FindMatchingConstraint(e.kind, cs)
    case None => rows == []
    case Some(c) => exists i :: 0 <= i < |cs| && cs[i] == c && rows == Fetched(m, c, i, e)
  }

  lemma FetchedByOneMore(m: Matchers, cs: seq<KindConstraint>, e: Event, rows: seq<Row>)
    requires cs != [] && DistinctKinds(cs) && FetchedAs(m, cs[..|cs| - 1], e, rows)
    ensures FetchedAs(m, cs, e, rows + Fetched(m, cs[|cs| - 1], |cs| - 1, e))
  {
    var n := |cs| - 1;
    FindLast(e.kind, cs);
    if FindMatchingConstraint(e.kind, cs[..n]).Some? {
      var c := FindMatchingConstraint(e.kind, cs[..n]).value;
      FoundHasKind(e.kind, cs[..n]);
      hide FindMatchingConstraint;
      var i :| 0 <= i < n && cs[..n][i] == c && rows == Fetched(m, c, i, e);
      assert cs[i] == c && cs[n].kind != e.kind;
    }
  }

  lemma {:induction false} FetchAll(m: Matchers, r: QueryIn, cs: seq<KindConstraint>, e: Event)
    requires r.afterID == None && e.domain == r.domain && e.stream == r.stream
    requires DistinctKinds(cs)
    ensures FetchedAs(m, cs, e, UnionRows(m.contains, KindOps(r, WireClauses(cs)), [e]))
  {
    if cs == [] {
      assert KindOps(r, WireClauses(cs)) == [];
    } else {
      hide UnionRows, KindOps, KindClauseOps, FetchedAs, Fetched, WireClauses;
      var n := |cs| - 1;
      FetchAll(m, r, cs[..n], e);
      LastConstraintOps(r, cs);
      UnionConcat(m.contains, KindOps(r, WireClauses(cs[..n])), KindClauseOps(r, WireClause(cs[n], n)), [e]);
      FetchOne(m, r, cs[n], n, e);
      FetchedByOneMore(m, cs, e, UnionRows(m.contains, KindOps(r, WireClauses(cs[..n])), [e]));
    }
  }

  lemma {:induction false} FoundHasKind(kind: string, cs: seq<KindConstraint>)
    requires FindMatchingConstraint(kind, cs).Some?
    ensures FindMatchingConstraint(kind, cs).value.kind == kind
  {
    if cs[0].kind != kind {
      FoundHasKind(kind, cs[1..]);
    }
  }

  lemma {:induction false} FindLast(kind: string, cs: seq<KindConstraint>)
    requires cs != []
    ensures
      var n := |cs| - 1;
      FindMatchingConstraint(kind, cs) ==
      if FindMatchingConstraint(kind, cs[..n]).Some? then FindMatchingConstraint(kind, cs[..n])
      else if cs[n].kind == kind then Some(cs[n]) else None
  {
    var n := |cs| - 1;
    if n > 0 {
      FindLast(kind, cs[1..]);
      assert cs[1..][..n - 1] == cs[..n][1..];
    }
  }

  /** No constraint is sent as an empty subset document; one with an equality list is not sent as a subset at all. */
  predicate SentSubsetsNonEmpty(cs: seq<KindConstraint>) {
    forall i :: 0 <= i < |cs| ==> cs[i].eq.None? ==> cs[i].subset != Some("")
  }

  /** One event of the stream: fetched at most once, and kept exactly when the filter passes it. */
  lemma OwnOutcome(m: Matchers, r: QueryIn, q: WireQuery, e: Event)
    requires r == WireRequest(e.domain, e.stream, q)
    requires q.kinds != [] && q.afterID == None && DistinctKinds(q.kinds) && SentSubsetsNonEmpty(q.kinds)
    ensures Outcome(m, q, EventsOf(UnionRows(m.contains, KindOps(r, r.onKind), [e]))) ==
            if Filter(m, q, e) then [e] else []
  {
    hide UnionRows, KindOps, DistinctKinds;
    FetchAll(m, r, q.kinds, e);
    PassingOneMore(m, q, [], e);
    if FindMatchingConstraint(e.kind, q.kinds).Some? {
      var c := FindMatchingConstraint(e.kind, q.kinds).value;
      FoundHasKind(e.kind, q.kinds);
      var i :| 0 <= i < |q.kinds| && q.kinds[i] == c
               && UnionRows(m.contains, KindOps(r, r.onKind), [e]) == Fetched(m, c, i, e);
      assert EventsOf([Row(e, TARGET_OP)]) == [e] && EventsOf([Row(e, i)]) == [e];
    }
  }

  lemma OneOutcome(m: Matchers, domain: string, stream: string, q: WireQuery, e: Event)
    requires q.kinds != [] && q.afterID == None && DistinctKinds(q.kinds) && SentSubsetsNonEmpty(q.kinds)
    ensures
      var r := WireRequest(domain, stream, q);
      Outcome(m, q, EventsOf(UnionRows(m.contains, QueryOps(r), [e]))) ==
      if e.domain == domain && e.stream == stream && Filter(m, q, e) then [e] else []
  {
    hide UnionRows, KindOps, Filter;
    var r := WireRequest(domain, stream, q);
    assert QueryOps(r) == KindOps(r, r.onKind);
    if e.domain == domain && e.stream == stream {
      OwnOutcome(m, r, q, e);
    } else {
      RequestOpsNameStream(r, r.onKind);
      Unselected(m.contains, KindOps(r, r.onKind), e);
      NothingFetched(m, q);
    }
  }

  lemma {:induction false} RequestOpsNameStream(r: QueryIn, ks: seq<KindClause>)
    ensures forall o :: o in KindOps(r, ks) ==> o.domain == r.domain && o.stream == r.stream
  {
    if ks != [] {
      RequestOpsNameStream(r, ks[..|ks| - 1]);
    }
  }

  lemma {:induction false} PassingMultiset(m: Matchers, q: WireQuery, es: seq<Event>, e: Event)
    ensures multiset(Passing(m, q, es))[e] == if Filter(m, q, e) then multiset(es)[e] else 0
  {
    if es != [] {
      PassingMultiset(m, q, es[..|es| - 1], e);
      assert es == es[..|es| - 1] + [es[|es| - 1]];
    }
  }

  lemma OutcomeConcat(m: Matchers, q: WireQuery, whole: seq<Event>, a: seq<Event>, b: seq<Event>)
    requires multiset(whole) == multiset(a) + multiset(b)
    ensures multiset(Outcome(m, q, whole)) == multiset(Outcome(m, q, a)) + multiset(Outcome(m, q, b))
  {
    forall e
      ensures multiset(Passing(m, q, whole))[e] == (multiset(Passing(m, q, a)) + multiset(Passing(m, q, b)))[e]
    {
      PassingMultiset(m, q, whole, e);
      PassingMultiset(m, q, a, e);
      PassingMultiset(m, q, b, e);
    }
  }

  lemma {:induction false} FetchedOneMore(m: Matchers, ops: seq<Operation>, table: seq<Event>, e: Event)
    ensures multiset(EventsOf(UnionRows(m.contains, ops, table + [e]))) ==
            multiset(EventsOf(UnionRows(m.contains, ops, table))) + multiset(EventsOf(UnionRows(m.contains, ops, [e])))
  {
    hide Selects;
    if ops != [] {
      var rest, o := ops[..|ops| - 1], ops[|ops| - 1];
      FetchedOneMore(m, rest, table, e);
      RowsOneMore(m, o, table, e);
      EventsConcat(UnionRows(m.contains, rest, table + [e]), RowsOf(m.contains, o, table + [e]));
      EventsConcat(UnionRows(m.contains, rest, table), RowsOf(m.contains, o, table));
      EventsConcat(UnionRows(m.contains, rest, [e]), RowsOf(m.contains, o, [e]));
      EventsConcat(RowsOf(m.contains, o, table), RowsOf(m.contains, o, [e]));
    }
  }

  lemma RowsOneMore(m: Matchers, o: Operation, table: seq<Event>, e: Event)
    ensures RowsOf(m.contains, o, table + [e]) == RowsOf(m.contains, o, table) + RowsOf(m.contains, o, [e])
  {
    assert (table + [e])[..|table + [e]| - 1] == table;
    assert RowsOf(m.contains, o, [e][..0]) == [];
  }

  lemma EventsConcat(a: seq<Row>, b: seq<Row>)
    ensures EventsOf(a + b) == EventsOf(a) + EventsOf(b)
  {
  }

  lemma NothingFetched(m: Matchers, q: WireQuery)
    ensures Outcome(m, q, EventsOf([])) == [] && Passing(m, q, []) == []
  {
  }

  lemma PassingOneMore(m: Matchers, q: WireQuery, es: seq<Event>, e: Event)
    ensures Passing(m, q, es + [e]) == Passing(m, q, es) + (if Filter(m, q, e) then [e] else [])
  {
    assert (es + [e])[..|es|] == es;
  }

  /** Fetching over gRPC and filtering afterwards yields the stream's events that pass the filter, each once. */
  lemma {:induction false} OverFetchIsFilter(m: Matchers, domain: string, stream: string, q: WireQuery, table: seq<Event>)
    requires q.kinds != [] && q.afterID == None && DistinctKinds(q.kinds) && SentSubsetsNonEmpty(q.kinds)
    ensures
      var fetched := EventsOf(UnionRows(m.contains, QueryOps(WireRequest(domain, stream, q)), table));
      multiset(Outcome(m, q, fetched)) == multiset(Passing(m, q, StreamEvents(domain, stream, table)))
  {
    hide Filter, QueryOps, UnionRows, Outcome, Passing, EventsOf, WireRequest, SentSubsetsNonEmpty, DistinctKinds;
    var ops := QueryOps(WireRequest(domain, stream, q));
    if table == [] {
      EmptyTable(m.contains, ops);
      NothingFetched(m, q);
    } else {
      var n := |table| - 1;
      var e := table[n];
      var packets := StreamEvents(domain, stream, table[..n]);
      assert table == table[..n] + [e];
      OverFetchIsFilter(m, domain, stream, q, table[..n]);
      FetchedOneMore(m, ops, table[..n], e);
      OutcomeConcat(m, q, EventsOf(UnionRows(m.contains, ops, table)), EventsOf(UnionRows(m.contains, ops, table[..n])),
                    EventsOf(UnionRows(m.contains, ops, [e])));
      OneOutcome(m, domain, stream, q, e);
      PassingOneMore(m, q, packets, e);
      if e.domain == domain && e.stream == stream {
        assert StreamEvents(domain, stream, table) == packets + [e];
      } else {
        assert StreamEvents(domain, stream, table) == packets;
      }
    }
  }

  /** What a query gets over gRPC: nothing but an error when its request asks for nothing. */
  function GrpcAnswer(m: Matchers, domain: string, stream: string, q: WireQuery, table: seq<Event>): Option<seq<Event>> {
    var ops := QueryOps(WireRequest(domain, stream, q));
    if ops == [] then None else Some(Outcome(m, q, EventsOf(UnionRows(m.contains, ops, table))))
  }

  /** A request asks for nothing exactly when the query names no kind. */
  lemma EmptyRequestIff(domain: string, stream: string, q: WireQuery)
    ensures QueryOps(WireRequest(domain, stream, q)) == [] <==> q.kinds == []
  {
    var r := WireRequest(domain, stream, q);
    if q.kinds != [] {
      var n := |q.kinds| - 1;
      assert r.onKind[|r.onKind| - 1] == WireClause(q.kinds[n], n);
    }
  }

  /**
   A query of the first API gets over gRPC the stream's events that pass its filter, each once,
   if and only if it names a kind.  Without one it is refused there, while the filter passes everything.
   */
  lemma OverFetchIff(m: Matchers, domain: string, stream: string, q: WireQuery, table: seq<Event>)
    requires q.afterID == None && DistinctKinds(q.kinds) && SentSubsetsNonEmpty(q.kinds)
    ensures
      var answer := GrpcAnswer(m, domain, stream, q, table);
      answer.Some? && multiset(answer.value) == multiset(Passing(m, q, StreamEvents(domain, stream, table))) <==> q.kinds != []
  {
    hide QueryOps, UnionRows, Passing, Outcome, EventsOf, StreamEvents;
    EmptyRequestIff(domain, stream, q);
    if q.kinds != [] {
      OverFetchIsFilter(m, domain, stream, q, table);
    }
  }

  /** The filter of a query without kinds passes every event of the stream. */
  lemma {:induction false} NoKindsPassAll(m: Matchers, q: WireQuery, es: seq<Event>)
    requires q.kinds == [] && q.afterID == None
    ensures Passing(m, q, es) == es
  {
    if es != [] {
      NoKindsPassAll(m, q, es[..|es| - 1]);
    }
  }
}
