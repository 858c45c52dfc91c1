/**
 Which tables a server watch is sure to deliver in full.  The order of commits and the
 order of times both matter: for each way of breaking them there is a run that ends
 quiet with a wanted event unsent.
 */
module WatchCommits {
  import opened Queries
  import opened ServerWatch
  import opened ServerWatchRuns
  import opened WatchOrder

  /** Stored events have IDs from 1 up, no two the same. */
  predicate ProperIDs(table: seq<Event>) {
    && (forall i :: 0 <= i < |table| ==> table[i].id >= 1)
    && forall i, j :: 0 <= i < j < |table| ==> table[i].id != table[j].id
  }

  /** Every run that ends quiet over the table, its last pass having missed nothing, has sent every wanted event. */
  ghost predicate AlwaysComplete(sub: Contains, q: QueryIn, table: seq<Event>) {
    forall worlds: seq<World>, steps: seq<Step>, n: nat ::
      IsRun(sub, q, worlds, steps) && n < |worlds| && Quiet(worlds[n]) && NothingMissed(worlds[n]) && worlds[n].table == table
      ==> SentAll(sub, q, worlds[n])
  }

  // Building runs.

  function Last(worlds: seq<World>): World
    requires worlds != []
  {
    worlds[|worlds| - 1]
  }

  lemma Take(sub: Contains, q: QueryIn, worlds: seq<World>, steps: seq<Step>, s: Step)
    returns (worlds': seq<World>, steps': seq<Step>)
    requires IsRun(sub, q, worlds, steps) && Enabled(sub, q, Last(worlds), s)
    ensures worlds' != [] && IsRun(sub, q, worlds', steps') && worlds <= worlds' && Last(worlds') == Next(Last(worlds), s)
  {
    hide Enabled, Next;
    worlds', steps' := worlds + [Next(Last(worlds), s)], steps + [s];
    forall i | 0 <= i < |steps'|
      ensures Enabled(sub, q, worlds'[i], steps'[i]) && worlds'[i + 1] == Next(worlds'[i], steps'[i])
    {
      if i < |steps| {
        assert steps'[i] == steps[i] && worlds'[i] == worlds[i] && worlds'[i + 1] == worlds[i + 1];
      }
    }
  }

  lemma {:induction false} DeliverAll(sub: Contains, q: QueryIn, worlds: seq<World>, steps: seq<Step>, b: Outbox)
    returns (worlds': seq<World>, steps': seq<Step>)
    requires IsRun(sub, q, worlds, steps) && Last(worlds).phase.Delivering?
    requires Last(worlds).phase.at <= |Last(worlds).phase.rows|
    requires Last(worlds).outbox == PushAll(b, Last(worlds).phase.rows[..Last(worlds).phase.at])
    ensures worlds' != [] && IsRun(sub, q, worlds', steps') && worlds <= worlds'
    ensures
      var v, rows := Last(worlds), Last(worlds).phase.rows;
      Last(worlds') == v.(outbox := PushAll(b, rows), phase := v.phase.(at := |rows|))
    decreases |Last(worlds).phase.rows| - Last(worlds).phase.at
  {
    var v := Last(worlds);
    var rows, at := v.phase.rows, v.phase.at;
    if at == |rows| {
      assert rows[..at] == rows;
      worlds', steps' := worlds, steps;
    } else {
      worlds', steps' := Take(sub, q, worlds, steps, Deliver);
      assert rows[..at + 1][..at] == rows[..at];
      hide IsRun;
      worlds', steps' := DeliverAll(sub, q, worlds', steps', b);
    }
  }

  /** A whole pass of a waiting watch with a signal, over a given result. */
  lemma OnePass(sub: Contains, q: QueryIn, worlds: seq<World>, steps: seq<Step>, rows: seq<Row>)
    returns (worlds': seq<World>, steps': seq<Step>)
    requires IsRun(sub, q, worlds, steps) && Last(worlds).phase == Waiting && Last(worlds).signal
    requires IsResult(sub, Retargeted(QueryOps(q), Last(worlds).cursor), Last(worlds).table, rows)
    ensures worlds' != [] && IsRun(sub, q, worlds', steps') && worlds <= worlds'
    ensures
      var v := Last(worlds);
      Last(worlds') == v.(signal := false, cursor := NextCursor(v.cursor, rows), outbox := PushAll(v.outbox, rows), seen := |v.table|, missed := [])
  {
    var v := Last(worlds);
    hide IsRun, IsResult, PushAll;
    worlds', steps' := Take(sub, q, worlds, steps, Wake);
    worlds', steps' := Take(sub, q, worlds', steps', Query(rows));
    worlds', steps' := DeliverAll(sub, q, worlds', steps', v.outbox);
    assert rows[..|rows|] == rows && rows[|rows|..] == [];
    worlds', steps' := Take(sub, q, worlds', steps', Finish);
  }

  lemma {:induction false} CommitAll(sub: Contains, q: QueryIn, worlds: seq<World>, steps: seq<Step>, more: seq<Event>)
    returns (worlds': seq<World>, steps': seq<Step>)
    requires IsRun(sub, q, worlds, steps)
    ensures worlds' != [] && IsRun(sub, q, worlds', steps') && worlds <= worlds'
    ensures
      var v := Last(worlds);
      Last(worlds') == v.(table := v.table + more, owed := v.owed + |more|)
    decreases |more|
  {
    if more == [] {
      assert Last(worlds).table + more == Last(worlds).table;
      worlds', steps' := worlds, steps;
    } else {
      worlds', steps' := Take(sub, q, worlds, steps, Commit(more[0]));
      assert Last(worlds).table + [more[0]] + more[1..] == Last(worlds).table + more;
      hide IsRun;
      worlds', steps' := CommitAll(sub, q, worlds', steps', more[1..]);
    }
  }

  lemma {:induction false} DispatchAll(sub: Contains, q: QueryIn, worlds: seq<World>, steps: seq<Step>)
    returns (worlds': seq<World>, steps': seq<Step>)
    requires IsRun(sub, q, worlds, steps)
    ensures worlds' != [] && IsRun(sub, q, worlds', steps') && worlds <= worlds'
    ensures
      var v := Last(worlds);
      Last(worlds') == v.(owed := 0, signal := v.signal || v.owed > 0)
    decreases Last(worlds).owed
  {
    if Last(worlds).owed == 0 {
      worlds', steps' := worlds, steps;
    } else {
      worlds', steps' := Take(sub, q, worlds, steps, Dispatch);
      hide IsRun;
      worlds', steps' := DispatchAll(sub, q, worlds', steps');
    }
  }

  /** Registering over a table and seeding. */
  lemma Begin(sub: Contains, q: QueryIn, table: seq<Event>) returns (worlds: seq<World>, steps: seq<Step>)
    ensures worlds != [] && IsRun(sub, q, worlds, steps)
    ensures Last(worlds) == World(table, 0, true, Waiting, Cursor(q.afterID), Outbox(-1, []), 0, [])
  {
    var v := World(table, 0, false, Seeding, Cursor(q.afterID), Outbox(-1, []), 0, []);
    assert IsRun(sub, q, [v], []);
    worlds, steps := Take(sub, q, [v], [], Seed);
  }

  /** There is always a result. */
  lemma SomeResult(sub: Contains, ops: seq<Operation>, table: seq<Event>) returns (rows: seq<Row>)
    ensures IsResult(sub, ops, table, rows)
  {
    hide UnionRows;
    rows := Arrange(UnionRows(sub, ops, table));
  }

  lemma {:induction false} PushedIsReached(b: Outbox, rows: seq<Row>, i: nat)
    requires i < |rows|
    ensures rows[i].event.id <= PushAll(b, rows).lastSent
  {
    var n := |rows| - 1;
    if i < n {
      assert rows[..n][i] == rows[i];
      PushedIsReached(b, rows[..n], i);
    }
  }

  // A commit below what has been sent.

  /** Served once over the first part of a table, a watch has sent up to any wanted event of it. */
  lemma ServedOnce(sub: Contains, q: QueryIn, table: seq<Event>, i: nat) returns (worlds: seq<World>, steps: seq<Step>)
    requires i < |table| && Wanted(sub, q, table[i])
    ensures worlds != [] && IsRun(sub, q, worlds, steps)
    ensures
      var v := Last(worlds);
      && v.table == table && v.phase == Waiting && v.owed == 0 && !v.signal && table[i].id <= v.outbox.lastSent
  {
    hide IsRun, Wanted, PushAll, IsResult;
    var rows := SomeResult(sub, Retargeted(QueryOps(q), Cursor(q.afterID)), table);
    worlds, steps := Begin(sub, q, table);
    worlds, steps := OnePass(sub, q, worlds, steps, rows);
    ResultLists(sub, q, Cursor(q.afterID), table, rows);
    var r :| 0 <= r < |rows| && rows[r].event == table[i];
    PushedIsReached(Outbox(-1, []), rows, r);
  }

  /** The rest of the table is committed and dispatched, and the watch served again. */
  lemma ServedAgain(sub: Contains, q: QueryIn, worlds: seq<World>, steps: seq<Step>, more: seq<Event>)
    returns (worlds': seq<World>, steps': seq<Step>)
    requires IsRun(sub, q, worlds, steps) && more != []
    requires Last(worlds).phase == Waiting && Last(worlds).owed == 0
    ensures worlds' != [] && IsRun(sub, q, worlds', steps') && worlds <= worlds'
    ensures Quiet(Last(worlds')) && NothingMissed(Last(worlds')) && Last(worlds').table == Last(worlds).table + more
  {
    assert worlds != [];
    hide IsRun, IsResult;
    worlds', steps' := CommitAll(sub, q, worlds, steps, more);
    worlds', steps' := DispatchAll(sub, q, worlds', steps');
    var v := Last(worlds');
    var rows := SomeResult(sub, Retargeted(QueryOps(q), v.cursor), v.table);
    worlds', steps' := OnePass(sub, q, worlds', steps', rows);
  }

  lemma LateCommitRun(sub: Contains, q: QueryIn, table: seq<Event>, i: nat, j: nat) returns (worlds: seq<World>, steps: seq<Step>)
    requires ProperIDs(table) && i < j < |table| && Wanted(sub, q, table[i]) && Wanted(sub, q, table[j])
    requires table[j].id < table[i].id
    ensures worlds != [] && IsRun(sub, q, worlds, steps) && Quiet(Last(worlds)) && NothingMissed(Last(worlds)) && Last(worlds).table == table
    ensures !IsSent(Last(worlds).outbox, table[j])
  {
    hide IsRun, Wanted, IsSent;
    var first, more := table[..i + 1], table[i + 1..];
    var early, before := ServedOnce(sub, q, first, i);
    UncommittedIsUnsent(sub, q, early, before, table, i, j);
    worlds, steps := ServedAgain(sub, q, early, before, more);
    assert first + more == table;
    LateCommitIsLost(sub, q, worlds, steps, |early| - 1, |worlds| - 1, table[j]);
  }

  lemma UncommittedIsUnsent(sub: Contains, q: QueryIn, worlds: seq<World>, steps: seq<Step>, table: seq<Event>, i: nat, j: nat)
    requires IsRun(sub, q, worlds, steps) && ProperIDs(table) && i < j < |table| && Last(worlds).table == table[..i + 1]
    ensures !IsSent(Last(worlds).outbox, table[j])
  {
    var v := Last(worlds);
    hide IsRun, Selects, QueryOps;
    RunKeepsSafe(sub, q, worlds, steps, |worlds| - 1);
    forall r | 0 <= r < |v.outbox.sent|
      ensures v.outbox.sent[r].event != table[j]
    {
      assert Genuine(sub, q, v.table, v.outbox.sent[r]);
      var k :| 0 <= k < |v.table| && v.table[k] == v.outbox.sent[r].event;
      assert v.table[k] == table[k] && table[k].id != table[j].id;
    }
  }

  // Times that do not follow the IDs.

  lemma RetargetedAtStart(q: QueryIn)
    ensures Retargeted(QueryOps(q), Cursor(q.afterID)) == QueryOps(q)
  {
    OpsCursor(q);
    hide QueryOps;
    assert forall i :: 0 <= i < |QueryOps(q)| ==> QueryOps(q)[i] in QueryOps(q);
  }

  lemma WantedIsChosen(sub: Contains, q: QueryIn, e: Event)
    ensures Wanted(sub, q, e) <==> Chosen(sub, QueryOps(q), e)
  {
    hide QueryOps, Selects;
    if Wanted(sub, q, e) {
      var o :| o in QueryOps(q) && Selects(sub, o, e);
      var i :| 0 <= i < |QueryOps(q)| && QueryOps(q)[i] == o;
    }
  }

  lemma DisorderRun(sub: Contains, q: QueryIn, table: seq<Event>, i: nat, j: nat) returns (worlds: seq<World>, steps: seq<Step>)
    requires ProperIDs(table) && i < |table| && j < |table| && Wanted(sub, q, table[i]) && Wanted(sub, q, table[j])
    requires table[i].id < table[j].id && table[j].when <= table[i].when
    ensures worlds != [] && IsRun(sub, q, worlds, steps) && Quiet(Last(worlds)) && NothingMissed(Last(worlds)) && Last(worlds).table == table
    ensures !SentAll(sub, q, Last(worlds))
  {
    hide IsRun, Wanted, Chosen, QueryOps, PushAll, IsResult;
    WantedIsChosen(sub, q, table[i]);
    WantedIsChosen(sub, q, table[j]);
    RetargetedAtStart(q);
    var rows := DisorderLosesOne(sub, QueryOps(q), table, i, j);
    worlds, steps := Begin(sub, q, table);
    worlds, steps := OnePass(sub, q, worlds, steps, rows);
    var v := Last(worlds);
    var k :| 0 <= k < |table| && Chosen(sub, QueryOps(q), table[k])
             && !exists r :: 0 <= r < |v.outbox.sent| && v.outbox.sent[r].event == table[k];
    WantedIsChosen(sub, q, table[k]);
    assert !IsSent(v.outbox, table[k]);
  }

  /**
   For a table of proper IDs: every run that ends quiet over it, its last pass having missed
   nothing, has sent every wanted event, if and only if the wanted events' IDs and times
   strictly follow the order of commits.
   */
  lemma CompleteIffCommittedInOrder(sub: Contains, q: QueryIn, table: seq<Event>)
    requires ProperIDs(table)
    ensures AlwaysComplete(sub, q, table) <==> CommittedInOrder(sub, q, table)
  {
    hide IsRun, Wanted, IsSent;
    if CommittedInOrder(sub, q, table) {
      forall worlds: seq<World>, steps: seq<Step>, n: nat |
        IsRun(sub, q, worlds, steps) && n < |worlds| && Quiet(worlds[n]) && NothingMissed(worlds[n]) && worlds[n].table == table
        ensures SentAll(sub, q, worlds[n])
      {
        QuietCompleteIff(sub, q, worlds, steps, n);
      }
    } else {
      var worlds, steps := OutOfOrderRun(sub, q, table);
      assert worlds[|worlds| - 1] == Last(worlds);
    }
  }

  lemma OutOfOrderRun(sub: Contains, q: QueryIn, table: seq<Event>) returns (worlds: seq<World>, steps: seq<Step>)
    requires ProperIDs(table) && !CommittedInOrder(sub, q, table)
    ensures worlds != [] && IsRun(sub, q, worlds, steps) && Quiet(Last(worlds)) && NothingMissed(Last(worlds)) && Last(worlds).table == table
    ensures !SentAll(sub, q, Last(worlds))
  {
    hide IsRun, Wanted, IsSent;
    var i, j :| 0 <= i < j < |table| && Wanted(sub, q, table[i]) && Wanted(sub, q, table[j])
                && !(table[i].id < table[j].id && table[i].when < table[j].when);
    assert table[i].id != table[j].id;
    if table[j].id < table[i].id {
      worlds, steps := LateCommitRun(sub, q, table, i, j);
    } else {
      worlds, steps := DisorderRun(sub, q, table, i, j);
    }
  }

  // A result that breaks off.

  /** For every wanted event of a table, a run in which the one result breaks off before its first row. */
  lemma BrokenOffRun(sub: Contains, q: QueryIn, table: seq<Event>, i: nat) returns (worlds: seq<World>, steps: seq<Step>)
    requires i < |table| && Wanted(sub, q, table[i])
    ensures worlds != [] && IsRun(sub, q, worlds, steps) && Quiet(Last(worlds)) && Last(worlds).table == table
    ensures !IsSent(Last(worlds).outbox, table[i])
  {
    hide IsRun, Wanted, IsResult;
    var rows := SomeResult(sub, Retargeted(QueryOps(q), Cursor(q.afterID)), table);
    worlds, steps := Begin(sub, q, table);
    worlds, steps := Take(sub, q, worlds, steps, Wake);
    worlds, steps := Take(sub, q, worlds, steps, Query(rows));
    worlds, steps := Take(sub, q, worlds, steps, Finish);
  }
}
