/**
 The in-memory watch: it registers for new events, replays the stored ones, then
 follows the channel its registration feeds.  Replay and channel overlap; the
 watch remembers the last event it took in.
 */
module MemoryWatch {
  import opened Wrappers
  import opened Queries

  // Which events a watch selects, and with which op.

  function FirstSubset(sub: Contains, subsets: seq<SubsetClause>, e: Event): Option<int> {
    if subsets == [] then None
    else if sub(e.body, subsets[0].document) then Some(subsets[0].op)
    else FirstSubset(sub, subsets[1..], e)
  }

  function ClauseOp(sub: Contains, k: KindClause, e: Event): Option<int> {
    if k.kind != e.kind then None
    else if k.allOp.Some? then k.allOp
    else FirstSubset(sub, k.subsets, e)
  }

  function FirstClause(sub: Contains, ks: seq<KindClause>, e: Event): Option<int> {
    if ks == [] then None
    else if ClauseOp(sub, ks[0], e).Some? then ClauseOp(sub, ks[0], e)
    else FirstClause(sub, ks[1..], e)
  }

  predicate Skipped(q: QueryIn, e: Event) {
    q.afterID.Some? && e.id <= q.afterID.value
  }

  /** The op of the first clause that matches an event past the cursor. */
  function FirstOp(sub: Contains, q: QueryIn, e: Event): Option<int> {
    if Skipped(q, e) then None else FirstClause(sub, q.onKind, e)
  }

  /** The rows a watch owes for a log: the matching events in order, each once. */
  function Matches(sub: Contains, q: QueryIn, log: seq<Event>): seq<Row> {
    if log == [] then []
    else
      var e := log[|log| - 1];
      Matches(sub, q, log[..|log| - 1]) +
      (match FirstOp(sub, q, e) case None => [] case Some(op) => [Row(e, op)])
  }

  datatype Watch = Watch(pending: seq<Row>, lastEvent: int, initDone: bool)

  /** What a watch does with an event it is shown. */
  function Offer(sub: Contains, q: QueryIn, w: Watch, e: Event): Watch {
    match FirstOp(sub, q, e)
    case None => w
    case Some(op) =>
      if e.id <= w.lastEvent then w else w.(pending := w.pending + [Row(e, op)], lastEvent := e.id)
  }

  function OfferAll(sub: Contains, q: QueryIn, w: Watch, es: seq<Event>): Watch {
    if es == [] then w else Offer(sub, q, OfferAll(sub, q, w, es[..|es| - 1]), es[|es| - 1])
  }

  class MemoryWatch {
    const sub: Contains
    const query: QueryIn
    var pending: seq<Row>
    var lastEvent: int
    var initDone: bool

    constructor (sub: Contains, query: QueryIn)
      ensures this.sub == sub && this.query == query && View() == Watch([], -1, false)
    {
      this.sub := sub;
      this.query := query;
      pending := [];
      lastEvent := -1;
      initDone := false;
    }

    ghost function View(): Watch
      reads this
    {
      Watch(pending, lastEvent, initDone)
    }

    method Enqueue(op: int, e: Event)
      modifies this
      ensures View() == if e.id <= old(lastEvent) then old(View())
                        else Watch(old(pending) + [Row(e, op)], e.id, old(initDone))
    {
      if e.id <= lastEvent {
        return;
      }
      lastEvent := e.id;
      pending := pending + [Row(e, op)];
    }

    method Pop() returns (out: Option<Row>)
      modifies this
      ensures old(pending) == [] ==> out == None && View() == old(View())
      ensures old(pending) != [] ==> out == Some(old(pending)[0]) && View() == old(View()).(pending := old(pending)[1..])
    {
      if |pending| == 0 {
        return None;
      }
      out := Some(pending[0]);
      pending := pending[1..];
    }

    /** What one clause sends for one event; after the first, the sends fall to the duplicate check. */
    ghost function Sent(w: Watch, op: Option<int>, e: Event): Watch {
      if op == None || e.id <= w.lastEvent then w
      else w.(pending := w.pending + [Row(e, op.value)], lastEvent := e.id)
    }

    method ProcessOnKind(k: KindClause, e: Event)
      requires k.kind == e.kind
      modifies this
      ensures View() == Sent(old(View()), ClauseOp(sub, k, e), e)
    {
      if k.allOp.Some? {
        Enqueue(k.allOp.value, e);
      }
      ghost var start := View();
      for i := 0 to |k.subsets|
        invariant Sent(View(), FirstSubset(sub, k.subsets[i..], e), e) == Sent(start, FirstSubset(sub, k.subsets, e), e)
        invariant k.allOp.Some? ==> View() == start
      {
        ProcessMatch(k.subsets[i], e);
        assert k.subsets[i..][1..] == k.subsets[i + 1..];
      }
    }

    method ProcessMatch(s: SubsetClause, e: Event)
      modifies this
      ensures View() == Sent(old(View()), if sub(e.body, s.document) then Some(s.op) else None, e)
    {
      if sub(e.body, s.document) {
        Enqueue(s.op, e);
      }
    }

    /** Showing an event to every clause takes it in at most once, under its first matching op. */
    method Filter(e: Event)
      modifies this
      ensures View() == Offer(sub, query, old(View()), e)
    {
      if query.afterID.Some? && e.id <= query.afterID.value {
        return;
      }
      for i := 0 to |query.onKind|
        invariant Sent(View(), FirstClause(sub, query.onKind[i..], e), e)
                  == Sent(old(View()), FirstClause(sub, query.onKind, e), e)
      {
        assert query.onKind[i..][1..] == query.onKind[i + 1..];
        if query.onKind[i].kind == e.kind {
          ProcessOnKind(query.onKind[i], e);
        }
      }
    }

    /** Replays the stored events; an error leaves what was taken in before it, and the replay undone. */
    method ProcessInitEvents(all: seq<Event>, failAt: Option<nat>) returns (ok: bool)
      modifies this
      ensures old(initDone) ==> ok && View() == old(View())
      ensures !old(initDone) ==>
        && ok == (failAt == None || failAt.value >= |all|)
        && View() == if ok then OfferAll(sub, query, old(View()), all).(initDone := true)
                     else OfferAll(sub, query, old(View()), all[..failAt.value])
    {
      if initDone {
        return true;
      }
      for i := 0 to |all|
        invariant View() == OfferAll(sub, query, old(View()), all[..i]) && !initDone
        invariant failAt.Some? ==> i <= failAt.value
      {
        if failAt == Some(i) {
          return false;
        }
        Filter(all[i]);
        assert all[..i + 1][..i] == all[..i];
      }
      assert all[..|all|] == all;
      initDone := true;
      ok := true;
    }

    /** Follows the channel until something can be returned, or the channel runs dry. */
    method WaitForEvents(feed: seq<Event>) returns (out: Option<Row>, used: nat)
      modifies this
      ensures used <= |feed|
      ensures forall i :: 0 <= i < used ==> OfferAll(sub, query, old(View()), feed[..i]).pending == []
      ensures
        var w := OfferAll(sub, query, old(View()), feed[..used]);
        if w.pending == [] then out == None && used == |feed| && View() == w
        else out == Some(w.pending[0]) && View() == w.(pending := w.pending[1..])
    {
      used := 0;
      while true
        invariant used <= |feed|
        invariant View() == OfferAll(sub, query, old(View()), feed[..used])
        invariant forall i :: 0 <= i < used ==> OfferAll(sub, query, old(View()), feed[..i]).pending == []
        decreases |feed| - used
      {
        out := Pop();
        if out.Some? {
          return;
        }
        if used == |feed| {
          return;
        }
        Filter(feed[used]);
        assert feed[..used + 1][..used] == feed[..used];
        used := used + 1;
      }
    }
  }
}
