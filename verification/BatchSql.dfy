/**
 The one statement a list of operations is executed as: UNION ALL of one SELECT per
 operation.  Read back with its arguments, it has one branch per operation, and each
 branch selects what its operation selects.
 */
module BatchSql {
  import opened Wrappers
  import opened Queries
  import opened SqlText

  /** One comparison of a WHERE clause: `word argument`. */
  datatype Clause = Clause(w: Word, a: Arg)

  function CursorClauses(afterID: int): seq<Clause> {
    if afterID > 0 then [Clause(IdGreater, Number(afterID))] else []
  }

  /** What an operation asks beyond its application. */
  function MoreClauses(o: Operation): seq<Clause> {
    [Clause(StreamEq, Text(o.stream))] +
    match o
    case EachKind(_, _, _, kind, after) => [Clause(KindEq, Text(kind))] + CursorClauses(after)
    case MatchSubset(_, _, _, kind, subset, after) =>
      [Clause(KindEq, Text(kind)), Clause(ContainsWord, Document(subset))] + CursorClauses(after)
    case MatchID(_, _, id, _) => [Clause(IdEq, Number(id))]
    case AllStreamEvents(_, _, _, after) => CursorClauses(after)
  }

  function ClauseItems(cs: seq<Clause>): seq<Item> {
    if cs == [] then [] else [W(AndWord), W(cs[0].w), Bind(cs[0].a)] + ClauseItems(cs[1..])
  }

  function OpHead(o: Operation): seq<Item> {
    [W(SelectOp(o.op)), W(Where), W(AppEq), Bind(Text(o.domain))]
  }

  function OpItems(o: Operation): seq<Item> {
    OpHead(o) + ClauseItems(MoreClauses(o))
  }

  /** The operations after the first, each behind UNION ALL. */
  function MoreOpsItems(ops: seq<Operation>): seq<Item> {
    if ops == [] then [] else [W(UnionAll)] + (OpItems(ops[0]) + MoreOpsItems(ops[1..]))
  }

  function StatementItems(ops: seq<Operation>): seq<Item>
    requires ops != []
  {
    [W(SelectFrom)] + (OpItems(ops[0]) + (MoreOpsItems(ops[1..]) + END))
  }

  method AppendClauses(q: SQLQuery, cs: seq<Clause>, ghost items: seq<Item>)
    requires q.Shows(items)
    modifies q
    ensures q.Shows(items + ClauseItems(cs))
  {
    hide Tokens, ArgsOf;
    ghost var shown := items;
    for i := 0 to |cs|
      invariant shown + ClauseItems(cs[i..]) == items + ClauseItems(cs)
      invariant q.Shows(shown)
    {
      assert cs[i..][1..] == cs[i + 1..];
      q.AppendBound([AndWord, cs[i].w], cs[i].a, shown);
      shown := shown + (Words([AndWord, cs[i].w]) + [Bind(cs[i].a)]);
    }
    assert shown + [] == shown;
  }

  /** An operation writes its own SELECT, with a cursor comparison only for a positive cursor. */
  method AppendOperation(q: SQLQuery, o: Operation, ghost items: seq<Item>)
    requires q.Shows(items)
    modifies q
    ensures q.Shows(items + OpItems(o))
  {
    hide Tokens, ArgsOf, ClauseItems;
    q.AppendBound([SelectOp(o.op), Where, AppEq], Text(o.domain), items);
    var clauses := [Clause(StreamEq, Text(o.stream))];
    var afterID := 0;
    match o {
      case EachKind(_, _, _, kind, after) =>
        clauses, afterID := clauses + [Clause(KindEq, Text(kind))], after;
      case MatchSubset(_, _, _, kind, subset, after) =>
        clauses, afterID := clauses + [Clause(KindEq, Text(kind)), Clause(ContainsWord, Document(subset))], after;
      case MatchID(_, _, id, _) =>
        clauses := clauses + [Clause(IdEq, Number(id))];
      case AllStreamEvents(_, _, _, after) =>
        afterID := after;
    }
    if afterID > 0 {
      clauses := clauses + [Clause(IdGreater, Number(afterID))];
    }
    assert clauses == MoreClauses(o);
    assert Words([SelectOp(o.op), Where, AppEq]) + [Bind(Text(o.domain))] == OpHead(o);
    AppendClauses(q, clauses, items + OpHead(o));
    assert items + OpHead(o) + ClauseItems(clauses) == items + OpItems(o);
  }

  const END: seq<Item> := [W(AsUnion), W(OrderByWhen)]

  /** The text shown so far lacks only the operations from `i` on, and the end. */
  ghost predicate ToCome(ops: seq<Operation>, i: nat, shown: seq<Item>)
    requires ops != [] && i <= |ops|
  {
    shown + (MoreOpsItems(ops[i..]) + END) == StatementItems(ops)
  }

  lemma OneMoreShown(ops: seq<Operation>, i: nat, shown: seq<Item>)
    requires i < |ops|
    requires if i == 0 then shown == [W(SelectFrom)] else ToCome(ops, i, shown)
    ensures ToCome(ops, i + 1, (if i == 0 then shown else shown + [W(UnionAll)]) + OpItems(ops[i]))
  {
    hide OpItems;
    var items, more := OpItems(ops[i]), MoreOpsItems(ops[i + 1..]);
    if i == 0 {
      assert shown + items + (more + END) == [W(SelectFrom)] + (items + (more + END));
    } else {
      assert ops[i..][1..] == ops[i + 1..];
      assert shown + [W(UnionAll)] + items + (more + END) == shown + ([W(UnionAll)] + (items + more) + END);
    }
  }

  /** The statement of a list of operations; an empty list is refused. */
  method Statement(ops: seq<Operation>) returns (q: SQLQuery, refused: bool)
    ensures fresh(q)
    ensures refused <==> ops == []
    ensures !refused ==> q.Shows(StatementItems(ops))
  {
    q := new SQLQuery();
    if |ops| == 0 {
      return q, true;
    }
    refused := false;
    q.AppendWords([SelectFrom], []);
    hide OpItems, Tokens, ArgsOf;
    ghost var shown: seq<Item> := [] + Words([SelectFrom]);
    assert shown == [W(SelectFrom)];
    var first := true;
    assert Words([UnionAll]) == [W(UnionAll)];
    for i := 0 to |ops|
      invariant first == (i == 0)
      invariant i == 0 ==> shown == [W(SelectFrom)]
      invariant i > 0 ==> ToCome(ops, i, shown)
      invariant q.Shows(shown)
    {
      OneMoreShown(ops, i, shown);
      if first {
        first := false;
      } else {
        q.AppendWords([UnionAll], shown);
        shown := shown + [W(UnionAll)];
      }
      AppendOperation(q, ops[i], shown);
      shown := shown + OpItems(ops[i]);
    }
    q.AppendWords([AsUnion, OrderByWhen], shown);
    assert shown + Words([AsUnion, OrderByWhen]) == shown + ([] + END);
  }

  // Reading the statement back.

  datatype Branch = Branch(op: int, cond: Cond)

  function ClauseCond(c: Clause): Cond {
    match c.w
    case StreamEq => StreamIs(c.a)
    case KindEq => KindIs(c.a)
    case IdEq => IdIs(c.a)
    case IdGreater => IdAfter(c.a)
    case _ => Has(c.a)
  }

  function Conjunction(c: Cond, cs: seq<Clause>): Cond
    decreases |cs|
  {
    if cs == [] then c else Conjunction(And(c, ClauseCond(cs[0])), cs[1..])
  }

  function OpCond(o: Operation): Cond {
    Conjunction(AppIs(Text(o.domain)), MoreClauses(o))
  }

  predicate Readable(cs: seq<Clause>) {
    forall i :: 0 <= i < |cs| ==> cs[i].w in {StreamEq, KindEq, IdEq, IdGreater, ContainsWord}
  }

  /** One SELECT: its operation number and its condition. */
  function ReadSelect(ts: seq<Item>, i: nat): (r: Option<(Branch, int)>)
    ensures r.Some? ==> i < r.value.1 <= |ts|
  {
    if i < |ts| && ts[i].W? && ts[i].w.SelectOp? && Is(ts, i + 1, Where) then
      match ParseOr(ts, i + 2)
      case None => None
      case Some((c, j)) => Some((Branch(ts[i].w.op, c), j))
    else None
  }

  /** The rest of the statement: UNION ALL and a SELECT, again and again, then its end. */
  function ReadUnion(ts: seq<Item>, i: nat, branches: seq<Branch>): Option<seq<Branch>>
    decreases |ts| - i
  {
    if Is(ts, i, UnionAll) then
      match ReadSelect(ts, i + 1)
      case None => None
      case Some((b, j)) => ReadUnion(ts, j, branches + [b])
    else if Is(ts, i, AsUnion) && Is(ts, i + 1, OrderByWhen) && i + 2 == |ts| then Some(branches)
    else None
  }

  function ReadStatement(ts: seq<Item>): Option<seq<Branch>> {
    if !Is(ts, 0, SelectFrom) then None
    else
      match ReadSelect(ts, 1)
      case None => None
      case Some((b, j)) => ReadUnion(ts, j, [b])
  }

  lemma ReadClause(ts: seq<Item>, i: nat, c: Clause)
    requires i + 2 <= |ts| && ts[i] == W(c.w) && ts[i + 1] == Bind(c.a)
    requires c.w in {StreamEq, KindEq, IdEq, IdGreater, ContainsWord}
    ensures ParseAtom(ts, i) == Some((ClauseCond(c), i + 2))
  {
  }

  lemma {:induction false} ReadClauses(ts: seq<Item>, c: Cond, i: nat, cs: seq<Clause>)
    requires At(ts, i, ClauseItems(cs)) && Readable(cs)
    ensures AndTail(ts, c, i) == AndTail(ts, Conjunction(c, cs), i + |ClauseItems(cs)|)
    decreases |cs|
  {
    hide At;
    if cs != [] {
      var head := [W(AndWord), W(cs[0].w), Bind(cs[0].a)];
      AtConcat(ts, i, head, ClauseItems(cs[1..]));
      ItemAt(ts, i, head, 0);
      ItemAt(ts, i, head, 1);
      ItemAt(ts, i, head, 2);
      assert cs[0].w in {StreamEq, KindEq, IdEq, IdGreater, ContainsWord};
      ReadClause(ts, i + 1, cs[0]);
      hide ParseAtom;
      ReadClauses(ts, And(c, ClauseCond(cs[0])), i + 3, cs[1..]);
    }
  }

  lemma ReadableClauses(o: Operation)
    ensures Readable(MoreClauses(o))
  {
  }

  lemma ReadOperation(ts: seq<Item>, i: nat, o: Operation)
    requires At(ts, i, OpItems(o))
    requires !Is(ts, i + |OpItems(o)|, AndWord) && !Is(ts, i + |OpItems(o)|, OrWord)
    ensures ReadSelect(ts, i) == Some((Branch(o.op, OpCond(o)), i + |OpItems(o)|))
  {
    var head, j := OpHead(o), i + |OpItems(o)|;
    hide At, MoreClauses, ClauseItems;
    AtConcat(ts, i, head, ClauseItems(MoreClauses(o)));
    ItemAt(ts, i, head, 0);
    ItemAt(ts, i, head, 1);
    ItemAt(ts, i, head, 2);
    ItemAt(ts, i, head, 3);
    ReadableClauses(o);
    assert ParseAtom(ts, i + 2) == Some((AppIs(Text(o.domain)), i + 4));
    ReadClauses(ts, AppIs(Text(o.domain)), i + 4, MoreClauses(o));
    assert AndTail(ts, OpCond(o), j) == Some((OpCond(o), j));
    assert ParseAnd(ts, i + 2) == Some((OpCond(o), j));
    assert ParseOr(ts, i + 2) == Some((OpCond(o), j));
  }

  function BranchesOf(ops: seq<Operation>): seq<Branch> {
    seq(|ops|, i requires 0 <= i < |ops| => Branch(ops[i].op, OpCond(ops[i])))
  }

  lemma {:induction false} ReadMoreOperations(ts: seq<Item>, i: nat, ops: seq<Operation>, branches: seq<Branch>)
    requires At(ts, i, MoreOpsItems(ops) + [W(AsUnion), W(OrderByWhen)])
    requires |ts| == i + |MoreOpsItems(ops)| + 2
    ensures ReadUnion(ts, i, branches) == Some(branches + BranchesOf(ops))
    ensures !Is(ts, i, AndWord) && !Is(ts, i, OrWord)
    decreases |ops|
  {
    hide OpItems, OpCond, ReadSelect, At;
    var end := [W(AsUnion), W(OrderByWhen)];
    if ops == [] {
      assert MoreOpsItems(ops) + end == end;
      ItemAt(ts, i, end, 0);
      ItemAt(ts, i, end, 1);
      assert branches + BranchesOf(ops) == branches;
    } else {
      var items, more := OpItems(ops[0]), MoreOpsItems(ops[1..]);
      assert MoreOpsItems(ops) + end == [W(UnionAll)] + (items + (more + end));
      AtConcat(ts, i, [W(UnionAll)], items + (more + end));
      AtConcat(ts, i + 1, items, more + end);
      ItemAt(ts, i, [W(UnionAll)], 0);
      var b := Branch(ops[0].op, OpCond(ops[0]));
      ReadMoreOperations(ts, i + 1 + |items|, ops[1..], branches + [b]);
      ReadOperation(ts, i + 1, ops[0]);
      assert branches + [b] + BranchesOf(ops[1..]) == branches + BranchesOf(ops);
    }
  }

  lemma {:induction false} ConjunctionHolds(m: Matchers, c: Cond, cs: seq<Clause>, e: Event)
    ensures Holds(m, Conjunction(c, cs), e) <==>
            Holds(m, c, e) && forall i :: 0 <= i < |cs| ==> Holds(m, ClauseCond(cs[i]), e)
    decreases |cs|
  {
    if cs != [] {
      ConjunctionHolds(m, And(c, ClauseCond(cs[0])), cs[1..], e);
      assert forall i :: 0 <= i < |cs[1..]| ==> cs[1..][i] == cs[i + 1];
      assert forall i :: 0 < i < |cs| ==> cs[i] == cs[1..][i - 1];
    }
  }

  /** A branch's condition is its operation's selection. */
  lemma OpCondSelects(m: Matchers, o: Operation, e: Event)
    ensures Holds(m, OpCond(o), e) <==> Selects(m.contains, o, e)
  {
    hide Conjunction, MoreClauses;
    var cs := MoreClauses(o);
    ConjunctionHolds(m, AppIs(Text(o.domain)), cs, e);
    if e.domain == o.domain {
      ClausesSelect(m, o, e);
    }
  }

  lemma ClausesSelect(m: Matchers, o: Operation, e: Event)
    requires e.domain == o.domain
    ensures (forall i :: 0 <= i < |MoreClauses(o)| ==> Holds(m, ClauseCond(MoreClauses(o)[i]), e)) <==> Selects(m.contains, o, e)
  {
    var cs := MoreClauses(o);
    assert cs[0] == Clause(StreamEq, Text(o.stream));
    match o
    case EachKind(_, _, _, kind, after) =>
      assert cs[1] == Clause(KindEq, Text(kind));
      assert after > 0 ==> cs[2] == Clause(IdGreater, Number(after));
    case MatchSubset(_, _, _, kind, subset, after) =>
      assert cs[1] == Clause(KindEq, Text(kind)) && cs[2] == Clause(ContainsWord, Document(subset));
      assert after > 0 ==> cs[3] == Clause(IdGreater, Number(after));
    case MatchID(_, _, id, _) =>
      assert cs[1] == Clause(IdEq, Number(id));
    case AllStreamEvents(_, _, _, after) =>
      assert after > 0 ==> cs[1] == Clause(IdGreater, Number(after));
  }

  /**
   For every nonempty list of operations, the statement with its holes filled reads
   as one branch per operation, in order, with the operation's number and selection.
   */
  lemma StatementReads(m: Matchers, ops: seq<Operation>, dml: seq<Token>, args: seq<Arg>)
    requires ops != [] && dml == Tokens(StatementItems(ops), 0) && args == ArgsOf(StatementItems(ops))
    ensures Fill(dml, args).Some?
    ensures
      var read := ReadStatement(Fill(dml, args).value);
      && read.Some? && |read.value| == |ops|
      && forall i :: 0 <= i < |ops| ==>
           read.value[i].op == ops[i].op && forall e :: Holds(m, read.value[i].cond, e) <==> Selects(m.contains, ops[i], e)
  {
    var ts := StatementItems(ops);
    FillRestores(ts, 0, args);
    StatementBranches(ops);
    forall i, e | 0 <= i < |ops|
      ensures Holds(m, BranchesOf(ops)[i].cond, e) <==> Selects(m.contains, ops[i], e)
    {
      OpCondSelects(m, ops[i], e);
    }
  }

  /** Where the parts of a statement stand. */
  lemma StatementLayout(ops: seq<Operation>)
    requires ops != []
    ensures
      var ts, n := StatementItems(ops), |OpItems(ops[0])|;
      && At(ts, 0, [W(SelectFrom)]) && At(ts, 1, OpItems(ops[0]))
      && At(ts, 1 + n, MoreOpsItems(ops[1..]) + [W(AsUnion), W(OrderByWhen)])
      && |ts| == 1 + n + |MoreOpsItems(ops[1..])| + 2
  {
    hide OpItems, MoreOpsItems;
    var ts, items := StatementItems(ops), OpItems(ops[0]);
    var end := MoreOpsItems(ops[1..]) + [W(AsUnion), W(OrderByWhen)];
    assert ts == [W(SelectFrom)] + (items + end);
    AtConcat(ts, 0, [W(SelectFrom)], items + end);
    AtConcat(ts, 1, items, end);
  }

  lemma StatementBranches(ops: seq<Operation>)
    requires ops != []
    ensures ReadStatement(StatementItems(ops)) == Some(BranchesOf(ops))
  {
    hide OpItems, OpCond, ReadSelect, MoreOpsItems, At, StatementItems, ReadUnion, BranchesOf;
    var ts, n := StatementItems(ops), |OpItems(ops[0])|;
    StatementLayout(ops);
    ItemAt(ts, 0, [W(SelectFrom)], 0);
    var b := Branch(ops[0].op, OpCond(ops[0]));
    ReadMoreOperations(ts, 1 + n, ops[1..], [b]);
    ReadOperation(ts, 1, ops[0]);
    BranchesFirst(ops);
  }

  lemma BranchesFirst(ops: seq<Operation>)
    requires ops != []
    ensures BranchesOf(ops) == [Branch(ops[0].op, OpCond(ops[0]))] + BranchesOf(ops[1..])
  {
  }
}
