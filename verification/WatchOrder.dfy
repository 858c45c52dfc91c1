/**
 Why a watch needs timestamps that follow IDs: its result stream drops every row
 below the last ID sent, while results come ordered by time alone.
 */
module WatchOrder {
  import opened Queries
  import opened ServerWatch

  predicate Chosen(sub: Contains, ops: seq<Operation>, e: Event) {
    exists i :: 0 <= i < |ops| && Selects(sub, ops[i], e)
  }

  ghost predicate SendsAll(sub: Contains, ops: seq<Operation>, table: seq<Event>, rows: seq<Row>) {
    forall k :: 0 <= k < |table| && Chosen(sub, ops, table[k]) ==>
      exists i :: 0 <= i < |PushAll(Outbox(-1, []), rows).sent| && PushAll(Outbox(-1, []), rows).sent[i].event == table[k]
  }

  /** Events are told apart by IDs from 1 up. */
  predicate DistinctIDs(table: seq<Event>) {
    && (forall i :: 0 <= i < |table| ==> table[i].id >= 1)
    && forall i, j :: 0 <= i < |table| && 0 <= j < |table| && table[i].id == table[j].id ==> table[i] == table[j]
  }

  /** Among the chosen events, a larger ID means a strictly later time. */
  predicate TimesFollowIDs(sub: Contains, ops: seq<Operation>, table: seq<Event>) {
    forall i, j :: 0 <= i < |table| && 0 <= j < |table| && table[i].id < table[j].id
                   && Chosen(sub, ops, table[i]) && Chosen(sub, ops, table[j])
      ==> table[i].when < table[j].when
  }

  ghost predicate RowsAreChosen(sub: Contains, ops: seq<Operation>, table: seq<Event>, rows: seq<Row>) {
    forall i :: 0 <= i < |rows| ==> rows[i].event in table && Chosen(sub, ops, rows[i].event)
  }

  ghost predicate ChosenAreRows(sub: Contains, ops: seq<Operation>, table: seq<Event>, rows: seq<Row>) {
    forall k :: 0 <= k < |table| && Chosen(sub, ops, table[k]) ==> exists i :: 0 <= i < |rows| && rows[i].event == table[k]
  }

  lemma ResultRows(sub: Contains, ops: seq<Operation>, table: seq<Event>, rows: seq<Row>)
    requires multiset(rows) == multiset(UnionRows(sub, ops, table))
    ensures RowsAreChosen(sub, ops, table, rows) && ChosenAreRows(sub, ops, table, rows)
  {
    hide UnionRows, Selects;
    forall i | 0 <= i < |rows|
      ensures rows[i].event in table && Chosen(sub, ops, rows[i].event)
    {
      assert rows[i] in multiset(rows);
      UnionRowSound(sub, ops, table, rows[i]);
      var o :| o in ops && o.op == rows[i].op && Selects(sub, o, rows[i].event);
      var m :| 0 <= m < |ops| && ops[m] == o;
    }
    forall k | 0 <= k < |table| && Chosen(sub, ops, table[k])
      ensures exists i :: 0 <= i < |rows| && rows[i].event == table[k]
    {
      var m :| 0 <= m < |ops| && Selects(sub, ops[m], table[k]);
      UnionRowComplete(sub, ops, table, ops[m], table[k]);
      assert Row(table[k], ops[m].op) in multiset(rows);
      var i :| 0 <= i < |rows| && rows[i] == Row(table[k], ops[m].op);
    }
  }

  // Rows in ID order are all sent.

  predicate ByID(rows: seq<Row>) {
    forall i, j :: 0 <= i < j < |rows| ==> rows[i].event.id <= rows[j].event.id
  }

  predicate Holds(sent: seq<Row>, e: Event) {
    exists i :: 0 <= i < |sent| && sent[i].event == e
  }

  lemma {:induction false} InOrderRowsAreSent(rows: seq<Row>)
    requires ByID(rows) && forall i :: 0 <= i < |rows| ==> rows[i].event.id >= 0
    requires forall i, j :: 0 <= i < |rows| && 0 <= j < |rows| && rows[i].event.id == rows[j].event.id ==> rows[i].event == rows[j].event
    ensures
      var b := PushAll(Outbox(-1, []), rows);
      && b.lastSent == (if rows == [] then -1 else rows[|rows| - 1].event.id)
      && forall i :: 0 <= i < |rows| ==> Holds(b.sent, rows[i].event)
  {
    if rows != [] {
      var n := |rows| - 1;
      InOrderRowsAreSent(rows[..n]);
      var b := PushAll(Outbox(-1, []), rows[..n]);
      var b' := Push(b, rows[n]);
      forall i | 0 <= i < |rows|
        ensures Holds(b'.sent, rows[i].event)
      {
        if i < n {
          assert rows[..n][i] == rows[i];
          var k :| 0 <= k < |b.sent| && b.sent[k].event == rows[i].event;
          assert b'.sent[k].event == rows[i].event;
        } else if b' != b {
          assert b'.sent[|b.sent|].event == rows[n].event;
        } else {
          assert rows[..n][n - 1] == rows[n - 1] && Holds(b.sent, rows[n - 1].event);
        }
      }
    }
  }

  // A row after one with a larger ID is dropped.

  lemma {:induction false} OvertakenIsDropped(rows: seq<Row>, e: Event, at: nat)
    requires at < |rows| && rows[at].event.id > e.id
    requires forall i :: 0 <= i < at ==> rows[i].event != e
    ensures PushAll(Outbox(-1, []), rows).lastSent >= rows[at].event.id
    ensures !Holds(PushAll(Outbox(-1, []), rows).sent, e)
  {
    var n := |rows| - 1;
    if n == at {
      NeverOffered(rows[..n], e);
    } else {
      assert rows[..n][at] == rows[at];
      OvertakenIsDropped(rows[..n], e, at);
    }
  }

  lemma {:induction false} NeverOffered(rows: seq<Row>, e: Event)
    requires forall i :: 0 <= i < |rows| ==> rows[i].event != e
    ensures !Holds(PushAll(Outbox(-1, []), rows).sent, e)
  {
    if rows != [] {
      NeverOffered(rows[..|rows| - 1], e);
    }
  }

  // The order a database may choose: by time, larger IDs first among equals.

  predicate Before(a: Row, b: Row) {
    a.event.when < b.event.when || (a.event.when == b.event.when && a.event.id >= b.event.id)
  }

  predicate Arranged(rows: seq<Row>) {
    forall i, j :: 0 <= i < j < |rows| ==> Before(rows[i], rows[j])
  }

  function Insert(rows: seq<Row>, r: Row): (out: seq<Row>)
    requires Arranged(rows)
    ensures Arranged(out) && multiset(out) == multiset(rows) + multiset{r}
  {
    if rows == [] then [r]
    else
      var n := |rows| - 1;
      if Before(rows[n], r) then rows + [r]
      else
        var front := Insert(rows[..n], r);
        assert rows == rows[..n] + [rows[n]];
        FrontBefore(front, rows, r);
        front + [rows[n]]
  }

  lemma FrontBefore(front: seq<Row>, rows: seq<Row>, r: Row)
    requires Arranged(rows) && rows != [] && !Before(rows[|rows| - 1], r)
    requires multiset(front) == multiset(rows[..|rows| - 1]) + multiset{r}
    ensures forall i :: 0 <= i < |front| ==> Before(front[i], rows[|rows| - 1])
  {
    var n := |rows| - 1;
    forall i | 0 <= i < |front|
      ensures Before(front[i], rows[n])
    {
      assert front[i] in multiset(front);
      if front[i] != r {
        assert front[i] in rows[..n];
        var k :| 0 <= k < n && rows[k] == front[i];
      }
    }
  }

  function Arrange(rows: seq<Row>): (out: seq<Row>)
    ensures Arranged(out) && multiset(out) == multiset(rows)
  {
    if rows == [] then []
    else
      assert rows == rows[..|rows| - 1] + [rows[|rows| - 1]];
      Insert(Arrange(rows[..|rows| - 1]), rows[|rows| - 1])
  }

  ghost predicate AlwaysSendsAll(sub: Contains, ops: seq<Operation>, table: seq<Event>) {
    forall rows :: IsResult(sub, ops, table, rows) ==> SendsAll(sub, ops, table, rows)
  }

  lemma OrderedTimesSendAll(sub: Contains, ops: seq<Operation>, table: seq<Event>, rows: seq<Row>)
    requires DistinctIDs(table) && TimesFollowIDs(sub, ops, table) && IsResult(sub, ops, table, rows)
    ensures SendsAll(sub, ops, table, rows)
  {
    hide Chosen, UnionRows;
    ResultRows(sub, ops, table, rows);
    forall i, j | 0 <= i < j < |rows|
      ensures rows[i].event.id <= rows[j].event.id
    {
      var a :| 0 <= a < |table| && table[a] == rows[i].event;
      var b :| 0 <= b < |table| && table[b] == rows[j].event;
    }
    InOrderRowsAreSent(rows);
    forall k | 0 <= k < |table| && Chosen(sub, ops, table[k])
      ensures exists i :: 0 <= i < |PushAll(Outbox(-1, []), rows).sent| && PushAll(Outbox(-1, []), rows).sent[i].event == table[k]
    {
      var i :| 0 <= i < |rows| && rows[i].event == table[k];
      assert Holds(PushAll(Outbox(-1, []), rows).sent, rows[i].event);
    }
  }

  lemma DisorderLosesOne(sub: Contains, ops: seq<Operation>, table: seq<Event>, a: nat, b: nat) returns (rows: seq<Row>)
    requires DistinctIDs(table) && a < |table| && b < |table|
    requires Chosen(sub, ops, table[a]) && Chosen(sub, ops, table[b])
    requires table[a].id < table[b].id && table[b].when <= table[a].when
    ensures IsResult(sub, ops, table, rows) && !SendsAll(sub, ops, table, rows)
  {
    hide Chosen, UnionRows;
    rows := Arrange(UnionRows(sub, ops, table));
    ResultRows(sub, ops, table, rows);
    var at :| 0 <= at < |rows| && rows[at].event == table[b];
    OvertakenIsDropped(rows, table[a], at);
  }

  /**
   A fresh watch is sure to send every chosen event of a table, whatever order its
   database gives to equal times, if and only if larger IDs have strictly later times.
   */
  lemma FreshWatchCompleteIff(sub: Contains, ops: seq<Operation>, table: seq<Event>)
    requires DistinctIDs(table)
    ensures AlwaysSendsAll(sub, ops, table) <==> TimesFollowIDs(sub, ops, table)
  {
    hide Chosen, IsResult, SendsAll;
    if !TimesFollowIDs(sub, ops, table) {
      var i, j :| 0 <= i < |table| && 0 <= j < |table| && Chosen(sub, ops, table[i]) && Chosen(sub, ops, table[j])
                  && table[i].id < table[j].id && table[j].when <= table[i].when;
      var rows := DisorderLosesOne(sub, ops, table, i, j);
    } else {
      forall rows | IsResult(sub, ops, table, rows)
        ensures SendsAll(sub, ops, table, rows)
      {
        OrderedTimesSendAll(sub, ops, table, rows);
      }
    }
  }
}
