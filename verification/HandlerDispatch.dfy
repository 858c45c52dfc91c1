/**
 Handler dispatch, end to end: a built query numbers its handlers densely, and a
 batch over the in-memory transport calls each clause's handler once for each
 event that matches the clause, and for no other.
 */
module HandlerDispatch {
  import opened Wrappers
  import opened Queries
  import opened BatchTranslation

  /** A handler, by identity. */
  type Handler = int

  datatype MatchedKind = MatchedKind(processor: Option<Handler>, subset: string)
  datatype KindBuilder = KindBuilder(kind: string, each: Option<Handler>, matched: seq<MatchedKind>)
  datatype IdBuilder = IdBuilder(id: int, on: Handler)
  datatype Query = Query(kinds: seq<KindBuilder>, ids: seq<IdBuilder>, afterID: Option<int>)

  datatype Call = Call(handler: Handler, event: Event)

  // What a query asks for, clause by clause.

  function MatchedCalls(sub: Contains, ms: seq<MatchedKind>, e: Event): seq<Call> {
    if ms == [] then []
    else
      var m := ms[|ms| - 1];
      MatchedCalls(sub, ms[..|ms| - 1], e) +
      (if m.processor.Some? && sub(e.body, m.subset) then [Call(m.processor.value, e)] else [])
  }

  function KindCalls(sub: Contains, ks: seq<KindBuilder>, e: Event): seq<Call> {
    if ks == [] then []
    else
      var k := ks[|ks| - 1];
      KindCalls(sub, ks[..|ks| - 1], e) +
      (if k.kind != e.kind then []
       else (if k.each.Some? then [Call(k.each.value, e)] else []) + MatchedCalls(sub, k.matched, e))
  }

  function IdCalls(ids: seq<IdBuilder>, e: Event): seq<Call> {
    if ids == [] then []
    else IdCalls(ids[..|ids| - 1], e) + (if ids[|ids| - 1].id == e.id then [Call(ids[|ids| - 1].on, e)] else [])
  }

  function ExpectedCalls(sub: Contains, q: Query, packets: seq<Event>): seq<Call> {
    if packets == [] then []
    else
      var e := packets[|packets| - 1];
      ExpectedCalls(sub, q, packets[..|packets| - 1]) +
      (if q.afterID.Some? && e.id <= q.afterID.value then [] else KindCalls(sub, q.kinds, e) + IdCalls(q.ids, e))
  }

  // Building the request registers the handlers.

  /** The registry grows by the handlers of the clause; its operation numbers are their indices. */
  datatype Built = Built(registered: seq<Handler>, request: BatchRequest)

  function CallsOf(registered: seq<Handler>, rows: seq<Row>): seq<Call>
    requires forall i :: 0 <= i < |rows| ==> 0 <= rows[i].op < |registered|
  {
    seq(|rows|, i requires 0 <= i < |rows| => Call(registered[rows[i].op], rows[i].event))
  }

  predicate Registered(registered: seq<Handler>, rows: seq<Row>) {
    forall i :: 0 <= i < |rows| ==> 0 <= rows[i].op < |registered|
  }

  /** The rows resolve, through the registry, to the calls. */
  predicate Resolves(registered: seq<Handler>, rows: seq<Row>, calls: seq<Call>) {
    Registered(registered, rows) && CallsOf(registered, rows) == calls
  }

  lemma ResolvesMore(registered: seq<Handler>, more: seq<Handler>, rows: seq<Row>, calls: seq<Call>)
    requires Resolves(registered, rows, calls)
    ensures Resolves(registered + more, rows, calls)
  {
  }

  lemma ResolvesConcat(registered: seq<Handler>, rows: seq<Row>, calls: seq<Call>, rows': seq<Row>, calls': seq<Call>)
    requires Resolves(registered, rows, calls) && Resolves(registered, rows', calls')
    ensures Resolves(registered, rows + rows', calls + calls')
  {
    var all := rows + rows';
    assert Registered(registered, all);
    assert CallsOf(registered, all) == CallsOf(registered, rows) + CallsOf(registered, rows');
  }

  /** The operations a request names, in the order it lists them. */
  function MatchOps(ms: seq<KindMatch>): seq<int> {
    seq(|ms|, i requires 0 <= i < |ms| => ms[i].op)
  }

  function ListedOps(ks: seq<KindQuery>, ids: seq<IdQuery>): seq<int> {
    if ids != [] then ListedOps(ks, ids[..|ids| - 1]) + [ids[|ids| - 1].op]
    else if ks != [] then
      var k := ks[|ks| - 1];
      ListedOps(ks[..|ks| - 1], []) + (if k.all.Some? then [k.all.value] else []) + MatchOps(k.matches)
    else []
  }

  /** The listed operations are 0, 1, 2, ..., one per registered handler. */
  predicate Dense(ops: seq<int>, registered: seq<Handler>) {
    |ops| == |registered| && forall i :: 0 <= i < |ops| ==> ops[i] == i
  }

  class Registry {
    var registered: seq<Handler>

    constructor ()
      ensures registered == []
    {
      registered := [];
    }

    method Register(processor: Handler) returns (id: int)
      modifies this
      ensures id == |old(registered)| && registered == old(registered) + [processor]
    {
      id := |registered|;
      registered := registered + [processor];
    }

    /** Registers the clause's subset handlers; clauses without a handler are dropped. */
    method PrepareMatches(sub: Contains, matched: seq<MatchedKind>) returns (matches: seq<KindMatch>)
      modifies this
      ensures old(registered) <= registered
      ensures |registered| == |old(registered)| + |matches|
      ensures forall i :: 0 <= i < |matches| ==> matches[i].op == |old(registered)| + i
      ensures forall e :: Resolves(registered, MatchRows(sub, matches, e), MatchedCalls(sub, matched, e))
    {
      matches := [];
      for i := 0 to |matched|
        invariant old(registered) <= registered
        invariant |registered| == |old(registered)| + |matches|
        invariant forall j :: 0 <= j < |matches| ==> matches[j].op == |old(registered)| + j
        invariant forall e :: Resolves(registered, MatchRows(sub, matches, e), MatchedCalls(sub, matched[..i], e))
      {
        var m := matched[i];
        ghost var registered0, matches0 := registered, matches;
        if m.processor.Some? {
          var op := Register(m.processor.value);
          matches := matches + [KindMatch(op, m.subset)];
        }
        hide Resolves, MatchRows, MatchedCalls;
        forall e
          ensures Resolves(registered, MatchRows(sub, matches, e), MatchedCalls(sub, matched[..i + 1], e))
        {
          ResolvesOneMoreMatch(sub, registered0, matches0, matched, i, e);
        }
      }
      assert matched[..|matched|] == matched;
    }

    method PrepareKind(sub: Contains, k: KindBuilder) returns (wire: KindQuery)
      modifies this
      ensures old(registered) <= registered
      ensures Numbered(wire, |old(registered)|, |registered|)
      ensures wire.kind == k.kind
      ensures forall e :: Resolves(registered, OneKindRows(sub, wire, e), OneKindCalls(sub, k, e))
    {
      var all: Option<int> := None;
      if k.each.Some? {
        var op := Register(k.each.value);
        all := Some(op);
      }
      ghost var registered0 := registered;
      var matches := PrepareMatches(sub, k.matched);
      wire := KindQuery(k.kind, all, matches);
      forall e
        ensures Resolves(registered, OneKindRows(sub, wire, e), OneKindCalls(sub, k, e))
      {
        if k.each.Some? {
          assert Resolves(registered, [Row(e, all.value)], [Call(k.each.value, e)]);
          ResolvesConcat(registered, [Row(e, all.value)], [Call(k.each.value, e)],
                         MatchRows(sub, matches, e), MatchedCalls(sub, k.matched, e));
        } else {
          assert [] + MatchRows(sub, matches, e) == MatchRows(sub, matches, e);
          assert [] + MatchedCalls(sub, k.matched, e) == MatchedCalls(sub, k.matched, e);
        }
      }
    }

    method PrepareKinds(sub: Contains, kinds: seq<KindBuilder>) returns (onKinds: seq<KindQuery>)
      requires registered == []
      modifies this
      ensures Dense(ListedOps(onKinds, []), registered)
      ensures forall e :: Resolves(registered, KindRows(sub, onKinds, e), KindCalls(sub, kinds, e))
    {
      onKinds := [];
      for i := 0 to |kinds|
        invariant Dense(ListedOps(onKinds, []), registered)
        invariant forall e :: Resolves(registered, KindRows(sub, onKinds, e), KindCalls(sub, kinds[..i], e))
      {
        ghost var registered0, onKinds0 := registered, onKinds;
        var wire := PrepareKind(sub, kinds[i]);
        onKinds := onKinds + [wire];
        assert kinds[..i + 1][..i] == kinds[..i] && onKinds[..|onKinds0|] == onKinds0;
        DenseOneMoreKind(onKinds0, wire, registered0, registered);
        forall e
          ensures Resolves(registered, KindRows(sub, onKinds, e), KindCalls(sub, kinds[..i + 1], e))
        {
          assert registered == registered0 + registered[|registered0|..];
          ResolvesMore(registered0, registered[|registered0|..], KindRows(sub, onKinds0, e), KindCalls(sub, kinds[..i], e));
          ResolvesConcat(registered, KindRows(sub, onKinds0, e), KindCalls(sub, kinds[..i], e),
                         OneKindRows(sub, wire, e), OneKindCalls(sub, kinds[i], e));
        }
      }
      assert kinds[..|kinds|] == kinds;
    }

    method PrepareIds(ids: seq<IdBuilder>, ghost onKinds: seq<KindQuery>) returns (onID: seq<IdQuery>)
      requires Dense(ListedOps(onKinds, []), registered)
      modifies this
      ensures old(registered) <= registered
      ensures Dense(ListedOps(onKinds, onID), registered)
      ensures forall e :: Resolves(registered, IdRows(onID, e), IdCalls(ids, e))
    {
      onID := [];
      for i := 0 to |ids|
        invariant old(registered) <= registered
        invariant Dense(ListedOps(onKinds, onID), registered)
        invariant forall e :: Resolves(registered, IdRows(onID, e), IdCalls(ids[..i], e))
      {
        ghost var registered0, onID0 := registered, onID;
        var op := Register(ids[i].on);
        onID := onID + [IdQuery(op, ids[i].id)];
        hide Resolves, IdRows, IdCalls, Dense, ListedOps;
        forall e
          ensures Resolves(registered, IdRows(onID, e), IdCalls(ids[..i + 1], e))
        {
          ResolvesOneMoreId(registered0, onID0, ids, i, e);
        }
      }
      assert ids[..|ids|] == ids;
    }
  }

  lemma ResolvesOneMoreId(registered: seq<Handler>, onID: seq<IdQuery>, ids: seq<IdBuilder>, i: nat, e: Event)
    requires i < |ids| && Resolves(registered, IdRows(onID, e), IdCalls(ids[..i], e))
    ensures Resolves(registered + [ids[i].on], IdRows(onID + [IdQuery(|registered|, ids[i].id)], e), IdCalls(ids[..i + 1], e))
  {
    var op, h, more := |registered|, ids[i].on, onID + [IdQuery(|registered|, ids[i].id)];
    assert ids[..i + 1][..i] == ids[..i] && more[..|onID|] == onID;
    ResolvesMore(registered, [h], IdRows(onID, e), IdCalls(ids[..i], e));
    ResolvesConcat(registered + [h], IdRows(onID, e), IdCalls(ids[..i], e), [Row(e, op)], [Call(h, e)]);
    hide Resolves;
  }

  /** One more subset clause: without a handler it changes nothing, with one it resolves to its call. */
  lemma ResolvesOneMoreMatch(sub: Contains, registered: seq<Handler>, matches: seq<KindMatch>, matched: seq<MatchedKind>, i: nat, e: Event)
    requires i < |matched| && Resolves(registered, MatchRows(sub, matches, e), MatchedCalls(sub, matched[..i], e))
    ensures
      var m := matched[i];
      if m.processor.None? then Resolves(registered, MatchRows(sub, matches, e), MatchedCalls(sub, matched[..i + 1], e))
      else Resolves(registered + [m.processor.value], MatchRows(sub, matches + [KindMatch(|registered|, m.subset)], e),
                    MatchedCalls(sub, matched[..i + 1], e))
  {
    var m := matched[i];
    assert matched[..i + 1][..i] == matched[..i];
    if m.processor.Some? {
      var op, h, more := |registered|, m.processor.value, matches + [KindMatch(|registered|, m.subset)];
      assert more[..|matches|] == matches;
      ResolvesMore(registered, [h], MatchRows(sub, matches, e), MatchedCalls(sub, matched[..i], e));
      ResolvesConcat(registered + [h], MatchRows(sub, matches, e), MatchedCalls(sub, matched[..i], e), [Row(e, op)], [Call(h, e)]);
      hide Resolves;
      assert MatchRows(sub, matches, e) + [] == MatchRows(sub, matches, e);
    }
  }

  function OneKindRows(sub: Contains, k: KindQuery, e: Event): seq<Row> {
    if k.kind != e.kind then []
    else (if k.all.Some? then [Row(e, k.all.value)] else []) + MatchRows(sub, k.matches, e)
  }

  function OneKindCalls(sub: Contains, k: KindBuilder, e: Event): seq<Call> {
    if k.kind != e.kind then []
    else (if k.each.Some? then [Call(k.each.value, e)] else []) + MatchedCalls(sub, k.matched, e)
  }

  /** The clause's operations are numbered from `first` up to, not including, `next`. */
  predicate Numbered(k: KindQuery, first: int, next: int) {
    var ops := (if k.all.Some? then [k.all.value] else []) + MatchOps(k.matches);
    |ops| == next - first && forall i :: 0 <= i < |ops| ==> ops[i] == first + i
  }

  lemma DenseOneMoreKind(ks: seq<KindQuery>, k: KindQuery, registered: seq<Handler>, registered': seq<Handler>)
    requires Dense(ListedOps(ks, []), registered) && Numbered(k, |registered|, |registered'|)
    ensures Dense(ListedOps(ks + [k], []), registered')
  {
    assert (ks + [k])[..|ks|] == ks;
    var ops := (if k.all.Some? then [k.all.value] else []) + MatchOps(k.matches);
    assert ListedOps(ks + [k], []) == ListedOps(ks, []) + ops;
  }

  /** The handler registry and request of a query: operation numbers are dense and resolve to the clauses. */
  method BuildBatchRequest(sub: Contains, q: Query) returns (built: Built)
    ensures Dense(ListedOps(built.request.onKinds, built.request.onID), built.registered)
    ensures built.request.afterID == q.afterID
    ensures forall e :: Resolves(built.registered, KindRows(sub, built.request.onKinds, e), KindCalls(sub, q.kinds, e))
    ensures forall e :: Resolves(built.registered, IdRows(built.request.onID, e), IdCalls(q.ids, e))
  {
    var registry := new Registry();
    var onKinds := registry.PrepareKinds(sub, q.kinds);
    ghost var registered0 := registry.registered;
    var onID := registry.PrepareIds(q.ids, onKinds);
    forall e
      ensures Resolves(registry.registered, KindRows(sub, onKinds, e), KindCalls(sub, q.kinds, e))
    {
      assert registry.registered == registered0 + registry.registered[|registered0|..];
      ResolvesMore(registered0, registry.registered[|registered0|..], KindRows(sub, onKinds, e), KindCalls(sub, q.kinds, e));
    }
    built := Built(registry.registered, BatchRequest(onKinds, onID, q.afterID));
  }

  /** Calls the handler each result names; `fails` reports a result without one. */
  method ProcessBatchResults(registered: seq<Handler>, results: seq<Row>) returns (calls: seq<Call>, fails: bool)
    ensures fails <==> !Registered(registered, results)
    ensures !fails ==> calls == CallsOf(registered, results)
  {
    calls := [];
    for i := 0 to |results|
      invariant Registered(registered, results[..i]) && calls == CallsOf(registered, results[..i])
    {
      var op := results[i].op;
      if op < 0 || op >= |registered| {
        return calls, true;
      }
      calls := calls + [Call(registered[op], results[i].event)];
    }
    assert results[..|results|] == results;
    fails := false;
  }

  lemma {:induction false} PacketsResolve(sub: Contains, q: Query, built: Built, packets: seq<Event>)
    requires built.request.afterID == q.afterID
    requires forall e :: Resolves(built.registered, KindRows(sub, built.request.onKinds, e), KindCalls(sub, q.kinds, e))
    requires forall e :: Resolves(built.registered, IdRows(built.request.onID, e), IdCalls(q.ids, e))
    ensures Resolves(built.registered, MemoryRows(sub, built.request, packets), ExpectedCalls(sub, q, packets))
  {
    if packets != [] {
      hide Resolves, KindRows, KindCalls, IdRows, IdCalls;
      var n := |packets| - 1;
      var e := packets[n];
      PacketsResolve(sub, q, built, packets[..n]);
      if q.afterID.Some? && e.id <= q.afterID.value {
        assert MemoryRows(sub, built.request, packets) == MemoryRows(sub, built.request, packets[..n]);
        assert ExpectedCalls(sub, q, packets) == ExpectedCalls(sub, q, packets[..n]);
      } else {
        ResolvesConcat(built.registered, KindRows(sub, built.request.onKinds, e), KindCalls(sub, q.kinds, e),
                       IdRows(built.request.onID, e), IdCalls(q.ids, e));
        ResolvesConcat(built.registered, MemoryRows(sub, built.request, packets[..n]), ExpectedCalls(sub, q, packets[..n]),
                       EventRows(sub, built.request, e), KindCalls(sub, q.kinds, e) + IdCalls(q.ids, e));
      }
    }
  }

  /** One batch: exactly the expected calls, in order, and never an unregistered operation. */
  method StreamBatch(sub: Contains, q: Query, packets: seq<Event>) returns (calls: seq<Call>, fails: bool)
    ensures !fails
    ensures calls == ExpectedCalls(sub, q, packets)
  {
    var built := BuildBatchRequest(sub, q);
    PacketsResolve(sub, q, built, packets);
    if Empty(built.request) {
      EmptyAsksNothing(sub, built, q, packets);
      return [], false;
    }
    var results := QueryBatchR2(sub, built.request, packets);
    calls, fails := ProcessBatchResults(built.registered, results);
  }

  lemma {:induction false} EmptyAsksNothing(sub: Contains, built: Built, q: Query, packets: seq<Event>)
    requires Empty(built.request)
    requires Resolves(built.registered, MemoryRows(sub, built.request, packets), ExpectedCalls(sub, q, packets))
    ensures ExpectedCalls(sub, q, packets) == []
  {
    EmptyHasNoRows(sub, built.request, packets);
  }

  lemma {:induction false} EmptyHasNoRows(sub: Contains, r: BatchRequest, packets: seq<Event>)
    requires Empty(r)
    ensures MemoryRows(sub, r, packets) == []
  {
    if packets != [] {
      EmptyHasNoRows(sub, r, packets[..|packets| - 1]);
    }
  }

  // Counting calls, clause by clause.

  /** One clause of a query with its handler. */
  datatype Clause =
    | OnEach(kind: string, handler: Handler)
    | OnSubset(kind: string, subset: string, handler: Handler)
    | OnEvent(id: int, handler: Handler)

  /** Does the clause ask for the event? */
  predicate Asks(sub: Contains, c: Clause, e: Event) {
    match c
    case OnEach(kind, _) => e.kind == kind
    case OnSubset(kind, subset, _) => e.kind == kind && sub(e.body, subset)
    case OnEvent(id, _) => e.id == id
  }

  function MatchedClauses(kind: string, ms: seq<MatchedKind>): seq<Clause> {
    if ms == [] then []
    else
      var m := ms[|ms| - 1];
      MatchedClauses(kind, ms[..|ms| - 1]) + (if m.processor.Some? then [OnSubset(kind, m.subset, m.processor.value)] else [])
  }

  function KindClauses(ks: seq<KindBuilder>): seq<Clause> {
    if ks == [] then []
    else
      var k := ks[|ks| - 1];
      KindClauses(ks[..|ks| - 1]) +
      ((if k.each.Some? then [OnEach(k.kind, k.each.value)] else []) + MatchedClauses(k.kind, k.matched))
  }

  function IdClauses(ids: seq<IdBuilder>): seq<Clause> {
    seq(|ids|, i requires 0 <= i < |ids| => OnEvent(ids[i].id, ids[i].on))
  }

  /** The clauses of a query that have a handler, in order. */
  function Clauses(q: Query): seq<Clause> {
    KindClauses(q.kinds) + IdClauses(q.ids)
  }

  function CallsFor(sub: Contains, cs: seq<Clause>, e: Event): seq<Call> {
    if cs == [] then []
    else
      var c := cs[|cs| - 1];
      CallsFor(sub, cs[..|cs| - 1], e) + (if Asks(sub, c, e) then [Call(c.handler, e)] else [])
  }

  lemma {:induction false} CallsForConcat(sub: Contains, a: seq<Clause>, b: seq<Clause>, e: Event)
    ensures CallsFor(sub, a + b, e) == CallsFor(sub, a, e) + CallsFor(sub, b, e)
  {
    hide Asks;
    if b == [] {
      assert a + b == a;
    } else {
      var n := |b| - 1;
      CallsForConcat(sub, a, b[..n], e);
      assert (a + b)[..|a + b| - 1] == a + b[..n] && (a + b)[|a + b| - 1] == b[n];
    }
  }

  lemma {:induction false} MatchedCallsByClause(sub: Contains, kind: string, ms: seq<MatchedKind>, e: Event)
    ensures CallsFor(sub, MatchedClauses(kind, ms), e) == if e.kind == kind then MatchedCalls(sub, ms, e) else []
  {
    if ms != [] {
      var n := |ms| - 1;
      MatchedCallsByClause(sub, kind, ms[..n], e);
      if ms[n].processor.Some? {
        var c := OnSubset(kind, ms[n].subset, ms[n].processor.value);
        CallsForConcat(sub, MatchedClauses(kind, ms[..n]), [c], e);
        OneCall(sub, c, e);
      } else {
        assert MatchedClauses(kind, ms) == MatchedClauses(kind, ms[..n]);
        assert MatchedCalls(sub, ms, e) == MatchedCalls(sub, ms[..n], e);
      }
    }
  }

  lemma OneCall(sub: Contains, c: Clause, e: Event)
    ensures CallsFor(sub, [c], e) == if Asks(sub, c, e) then [Call(c.handler, e)] else []
  {
    assert [c][..0] == [];
  }

  lemma {:induction false} KindCallsByClause(sub: Contains, ks: seq<KindBuilder>, e: Event)
    ensures CallsFor(sub, KindClauses(ks), e) == KindCalls(sub, ks, e)
  {
    hide CallsFor, MatchedCalls, MatchedClauses;
    if ks == [] {
      NoClauses(sub, e);
    } else {
      var n := |ks| - 1;
      var k := ks[n];
      var each, matched := if k.each.Some? then [OnEach(k.kind, k.each.value)] else [], MatchedClauses(k.kind, k.matched);
      KindCallsByClause(sub, ks[..n], e);
      CallsForConcat(sub, KindClauses(ks[..n]), each + matched, e);
      CallsForConcat(sub, each, matched, e);
      MatchedCallsByClause(sub, k.kind, k.matched, e);
      NoClauses(sub, e);
      if k.each.Some? {
        OneCall(sub, each[0], e);
      }
    }
  }

  lemma NoClauses(sub: Contains, e: Event)
    ensures CallsFor(sub, [], e) == []
  {
  }

  lemma {:induction false} IdCallsByClause(sub: Contains, ids: seq<IdBuilder>, e: Event)
    ensures CallsFor(sub, IdClauses(ids), e) == IdCalls(ids, e)
  {
    if ids != [] {
      IdCallsByClause(sub, ids[..|ids| - 1], e);
      assert IdClauses(ids)[..|ids| - 1] == IdClauses(ids[..|ids| - 1]);
    }
  }

  predicate DistinctHandlers(cs: seq<Clause>) {
    forall i, j :: 0 <= i < j < |cs| ==> cs[i].handler != cs[j].handler
  }

  predicate HasHandler(cs: seq<Clause>, h: Handler) {
    exists i :: 0 <= i < |cs| && cs[i].handler == h
  }

  /** No clause, no call; and a call is about the event at hand. */
  lemma {:induction false} UncalledHandler(sub: Contains, cs: seq<Clause>, e: Event, call: Call)
    requires !HasHandler(cs, call.handler) || call.event != e
    ensures multiset(CallsFor(sub, cs, e))[call] == 0
  {
    if cs != [] {
      hide Asks, CallsFor;
      var n := |cs| - 1;
      assert !HasHandler(cs[..n], call.handler) || call.event != e by {
        if HasHandler(cs[..n], call.handler) {
          var i :| 0 <= i < n && cs[..n][i].handler == call.handler;
          assert cs[i].handler == call.handler;
        }
      }
      UncalledHandler(sub, cs[..n], e, call);
    }
  }

  lemma {:induction false} OneEventCount(sub: Contains, cs: seq<Clause>, i: nat, e: Event)
    requires DistinctHandlers(cs) && i < |cs|
    ensures multiset(CallsFor(sub, cs, e))[Call(cs[i].handler, e)] == if Asks(sub, cs[i], e) then 1 else 0
  {
    var n := |cs| - 1;
    assert i < n ==> cs[i].handler != cs[n].handler;
    hide Asks, HasHandler, DistinctHandlers, CallsFor;
    if i < n {
      assert cs[..n][i] == cs[i];
      OneEventCount(sub, cs[..n], i, e);
    } else {
      UncalledHandler(sub, cs[..n], e, Call(cs[i].handler, e));
    }
  }

  predicate PastAfter(q: Query, e: Event) {
    !(q.afterID.Some? && e.id <= q.afterID.value)
  }

  lemma EventCalls(sub: Contains, q: Query, e: Event)
    ensures KindCalls(sub, q.kinds, e) + IdCalls(q.ids, e) == CallsFor(sub, Clauses(q), e)
  {
    hide KindCalls, IdCalls, CallsFor;
    KindCallsByClause(sub, q.kinds, e);
    IdCallsByClause(sub, q.ids, e);
    CallsForConcat(sub, KindClauses(q.kinds), IdClauses(q.ids), e);
  }

  /**
   With distinct handlers, the calls of a clause's handler with an event are as many as the
   event's occurrences when the clause asks for it past the cursor, and none otherwise.
   */
  lemma {:induction false} CallsPerClauseAndEvent(sub: Contains, q: Query, packets: seq<Event>, i: nat, e: Event)
    requires DistinctHandlers(Clauses(q)) && i < |Clauses(q)|
    ensures multiset(ExpectedCalls(sub, q, packets))[Call(Clauses(q)[i].handler, e)] ==
            if PastAfter(q, e) && Asks(sub, Clauses(q)[i], e) then multiset(packets)[e] else 0
  {
    hide Asks, Clauses, CallsFor, KindCalls, IdCalls;
    if packets != [] {
      var n := |packets| - 1;
      var cs, last := Clauses(q), packets[n];
      CallsPerClauseAndEvent(sub, q, packets[..n], i, e);
      assert packets == packets[..n] + [last];
      EventCalls(sub, q, last);
      if last == e {
        OneEventCount(sub, cs, i, e);
      } else {
        UncalledHandler(sub, cs, last, Call(cs[i].handler, e));
      }
    }
  }

  /** A handler of no clause is never called. */
  lemma {:induction false} NoOtherCalls(sub: Contains, q: Query, packets: seq<Event>, call: Call)
    requires !HasHandler(Clauses(q), call.handler)
    ensures multiset(ExpectedCalls(sub, q, packets))[call] == 0
  {
    hide Clauses, CallsFor, KindCalls, IdCalls;
    if packets != [] {
      NoOtherCalls(sub, q, packets[..|packets| - 1], call);
      EventCalls(sub, q, packets[|packets| - 1]);
      UncalledHandler(sub, Clauses(q), packets[|packets| - 1], call);
    }
  }
}
