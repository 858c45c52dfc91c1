/**
 What the server's watch hands a pump: with commits in order, each message is the next
 matching event beyond those it has, which is the delivery step of the pump's runs.
 */
module PumpDelivery {
  import opened Wrappers
  import opened Queries
  import opened BatchTranslation
  import P = ProjectionRuns
  import opened ServerWatchRuns

  /** The query of a pump: every handled kind whole, past its resume position when that is positive. */
  function PumpQuery(kinds: seq<string>, domain: string, stream: string, position: int): QueryIn {
    QueryIn(domain, stream, seq(|kinds|, i requires 0 <= i < |kinds| => KindClause(kinds[i], Some(i), [])), [], None,
      if position > 0 then Some(position) else None)
  }

  /** Where a pump that resumes at `position` starts watching. */
  function ResumeAt(position: int): int {
    if position > 0 then position else -1
  }

  lemma {:induction false} WholeKindOps(q: QueryIn, ks: seq<KindClause>)
    requires forall i :: 0 <= i < |ks| ==> ks[i].allOp.Some? && ks[i].subsets == []
    ensures |KindOps(q, ks)| == |ks|
    ensures forall i :: 0 <= i < |ks| ==>
              KindOps(q, ks)[i] == EachKind(q.domain, q.stream, ks[i].allOp.value, ks[i].kind, Cursor(q.afterID))
  {
    if ks != [] {
      var n := |ks| - 1;
      WholeKindOps(q, ks[..n]);
      assert KindClauseOps(q, ks[n]) == [EachKind(q.domain, q.stream, ks[n].allOp.value, ks[n].kind, Cursor(q.afterID))];
    }
  }

  /** A pump wants exactly the stream's events of its kinds past its position. */
  lemma PumpWants(sub: Contains, kinds: seq<string>, domain: string, stream: string, position: int, e: Event)
    ensures Wanted(sub, PumpQuery(kinds, domain, stream, position), e) <==>
            e.domain == domain && e.stream == stream && e.kind in kinds && (position > 0 ==> e.id > position)
  {
    var q := PumpQuery(kinds, domain, stream, position);
    WholeKindOps(q, q.onKind);
    var ops := KindOps(q, q.onKind);
    assert QueryOps(q) == ops;
    hide KindOps, QueryOps;
    if e.domain == domain && e.stream == stream && e.kind in kinds && (position > 0 ==> e.id > position) {
      var i :| 0 <= i < |kinds| && kinds[i] == e.kind;
      assert ops[i] in ops && Selects(sub, ops[i], e);
    }
    if Wanted(sub, q, e) {
      var o :| o in ops && Selects(sub, o, e);
      var i :| 0 <= i < |ops| && ops[i] == o;
      assert kinds[i] in kinds;
    }
  }

  lemma {:induction false} StreamEventsMember(domain: string, stream: string, table: seq<Event>, e: Event)
    ensures e in StreamEvents(domain, stream, table) <==> e in table && e.domain == domain && e.stream == stream
  {
    if table != [] {
      var n := |table| - 1;
      StreamEventsMember(domain, stream, table[..n], e);
      assert table == table[..n] + [table[n]];
    }
  }

  /** What the watch has handed over so far: everything up to here. */
  function Watched(position: int, lastSent: int): int {
    if lastSent > ResumeAt(position) then lastSent else ResumeAt(position)
  }

  lemma NextWantedIsNextMatching(
      sub: Contains, p: P.Projection, kinds: seq<string>, domain: string, stream: string, position: int,
      table: seq<Event>, lastSent: int, e: Event)
    requires forall kind :: p.handles(kind) <==> kind in kinds
    requires forall i :: 0 <= i < |table| ==> table[i].id >= 1
    requires IsNextWanted(sub, PumpQuery(kinds, domain, stream, position), table, lastSent, e)
    ensures P.NextMatching(p, StreamEvents(domain, stream, table), Watched(position, lastSent), e)
  {
    hide Wanted;
    var log := StreamEvents(domain, stream, table);
    PumpWants(sub, kinds, domain, stream, position, e);
    StreamEventsMember(domain, stream, table, e);
    var k :| 0 <= k < |table| && table[k] == e;
    forall i | 0 <= i < |log| && p.handles(log[i].kind) && log[i].id > Watched(position, lastSent)
      ensures e.id <= log[i].id
    {
      StreamEventsMember(domain, stream, table, log[i]);
      PumpWants(sub, kinds, domain, stream, position, log[i]);
      var j :| 0 <= j < |table| && table[j] == log[i];
    }
  }

  /**
   In every run of the server's watch for a pump's query, with the wanted events committed in
   order, each message is a delivery the pump's own run admits: the next matching event of the
   stream beyond what the watch has handed over.
   */
  lemma ServerDeliversNextMatching(
      sub: Contains, p: P.Projection, kinds: seq<string>, domain: string, stream: string, position: int,
      worlds: seq<World>, steps: seq<Step>, n: nat, v: P.World)
    requires forall kind :: p.handles(kind) <==> kind in kinds
    requires IsRun(sub, PumpQuery(kinds, domain, stream, position), worlds, steps) && n < |steps|
    requires CommittedInOrder(sub, PumpQuery(kinds, domain, stream, position), worlds[n].table)
    requires worlds[n + 1].outbox != worlds[n].outbox
    requires v.log == StreamEvents(domain, stream, worlds[n].table)
    requires v.pump.Watching? && v.pump.watched == Watched(position, worlds[n].outbox.lastSent)
    ensures
      var sent := worlds[n + 1].outbox.sent;
      sent != [] && P.Enabled(p, v, P.Deliver(sent[|sent| - 1].event))
  {
    var q := PumpQuery(kinds, domain, stream, position);
    var sent := worlds[n + 1].outbox.sent;
    hide IsRun, StreamEvents, Wanted, P.NextMatching, PumpQuery;
    SendsNextWanted(sub, q, worlds, steps, n);
    NextWantedIsNextMatching(sub, p, kinds, domain, stream, position, worlds[n].table, worlds[n].outbox.lastSent, sent[|sent| - 1].event);
  }
}
