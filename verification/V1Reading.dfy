/**
 Reading the generated SQL back: it is well formed exactly when every equality
 matcher has one value, and it then selects what the local filter selects.
 */
module V1Reading {
  import opened Wrappers
  import opened Queries
  import opened SqlText
  import opened V1Query

  predicate SingleValued(xs: seq<Matcher>) {
    forall i :: 0 <= i < |xs| ==> |xs[i].values| == 1
  }

  predicate WellFormed(cs: seq<KindConstraint>) {
    forall i :: 0 <= i < |cs| ==> SingleValued(Eqs(cs[i]))
  }

  // The conditions the text stands for.

  function EqCond(x: Matcher): Cond
    requires |x.values| == 1
  {
    PathIn(Path(x.property), [Text(x.values[0])])
  }

  function Conj(c: Cond, xs: seq<Matcher>): Cond
    requires SingleValued(xs)
    decreases |xs|
  {
    if xs == [] then c else Conj(And(c, EqCond(xs[0])), xs[1..])
  }

  function ConstraintCond(c: KindConstraint): Cond
    requires SingleValued(Eqs(c))
  {
    var all := Conj(KindIs(Text(c.kind)), Eqs(c));
    if HasSubset(c) then And(all, Has(Document(c.subset.value))) else all
  }

  function Disj(d: Cond, cs: seq<KindConstraint>): Cond
    requires WellFormed(cs)
    decreases |cs|
  {
    if cs == [] then d else Disj(Or(d, ConstraintCond(cs[0])), cs[1..])
  }

  function QueryCond(app: string, stream: string, q: WireQuery): Cond
    requires WellFormed(q.kinds)
  {
    var c := And(AppIs(Text(app)), StreamIs(Text(stream)));
    var d := if q.afterID.Some? then And(c, IdAfter(Number(q.afterID.value))) else c;
    if q.kinds == [] then d else And(d, Disj(ConstraintCond(q.kinds[0]), q.kinds[1..]))
  }

  // The reader finds them.

  lemma ReadEq(ts: seq<Item>, i: nat, x: Matcher)
    requires At(ts, i, EqItems(x))
    ensures Is(ts, i, AndWord)
    ensures ParseAtom(ts, i + 1) == if |x.values| == 1 then Some((EqCond(x), i + |EqItems(x)|)) else None
  {
    var items := EqItems(x);
    assert items[0] == W(AndWord) && items[1] == W(PathOf) && items[2] == Bind(Path(x.property));
    assert items[3] == W(InWord) && items[4] == W(Open);
    assert ts[i + 1] == items[1] && ts[i + 2] == items[2] && ts[i + 3] == items[3] && ts[i + 4] == items[4];
    if |x.values| == 0 {
      assert items[5] == W(Close) && ts[i + 5] == items[5];
    } else {
      assert items[5] == Bind(Text(x.values[0])) && ts[i + 5] == items[5];
      assert ts[i + 6] == items[6];
      if |x.values| == 1 {
        assert items[6] == W(Close);
      } else {
        assert items[6] == Bind(Text(x.values[1]));
      }
    }
  }

  lemma {:induction false} ReadEqs(ts: seq<Item>, c: Cond, i: nat, xs: seq<Matcher>)
    requires At(ts, i, EqsItems(xs))
    ensures AndTail(ts, c, i) == if SingleValued(xs) then AndTail(ts, Conj(c, xs), i + |EqsItems(xs)|) else None
    decreases |xs|
  {
    hide At, EqItems, ParseAtom;
    if xs != [] {
      AtConcat(ts, i, EqItems(xs[0]), EqsItems(xs[1..]));
      ReadEq(ts, i, xs[0]);
      if |xs[0].values| == 1 {
        ReadEqs(ts, And(c, EqCond(xs[0])), i + |EqItems(xs[0])|, xs[1..]);
        assert SingleValued(xs) <==> SingleValued(xs[1..]);
      }
    }
  }

  lemma ReadSubset(ts: seq<Item>, c: Cond, i: nat, k: KindConstraint)
    requires At(ts, i, SubsetItems(k) + [W(Close)])
    ensures
      var d := if HasSubset(k) then And(c, Has(Document(k.subset.value))) else c;
      AndTail(ts, c, i) == Some((d, i + |SubsetItems(k)|)) && Is(ts, i + |SubsetItems(k)|, Close)
  {
    AtConcat(ts, i, SubsetItems(k), [W(Close)]);
    var j := i + |SubsetItems(k)|;
    assert ts[j] == [W(Close)][0];
    if HasSubset(k) {
      assert ts[i] == W(AndWord) && ts[i + 1] == W(ContainsWord) && ts[i + 2] == Bind(Document(k.subset.value)) by {
        assert SubsetItems(k)[0] == W(AndWord);
        assert SubsetItems(k)[1] == W(ContainsWord);
        assert SubsetItems(k)[2] == Bind(Document(k.subset.value));
      }
      assert ParseAtom(ts, i + 1) == Some((Has(Document(k.subset.value)), i + 3));
      var d := And(c, Has(Document(k.subset.value)));
      assert AndTail(ts, d, i + 3) == Some((d, i + 3));
    }
  }

  lemma ReadConstraint(ts: seq<Item>, i: nat, k: KindConstraint)
    requires At(ts, i, ConstraintItems(k))
    ensures ParseAtom(ts, i) ==
            if SingleValued(Eqs(k)) then Some((ConstraintCond(k), i + |ConstraintItems(k)|)) else None
  {
    var head, eqs, end := [W(Open), W(KindEq), Bind(Text(k.kind))], EqsItems(Eqs(k)), SubsetItems(k) + [W(Close)];
    hide At, EqsItems, Conj, SubsetItems, AndTail;
    AtConcat(ts, i, head, eqs + end);
    AtConcat(ts, i + 3, eqs, end);
    ItemAt(ts, i, head, 0);
    ItemAt(ts, i, head, 1);
    ItemAt(ts, i, head, 2);
    assert ParseAtom(ts, i + 1) == Some((KindIs(Text(k.kind)), i + 3));
    ReadEqs(ts, KindIs(Text(k.kind)), i + 3, Eqs(k));
    if SingleValued(Eqs(k)) {
      ReadSubset(ts, Conj(KindIs(Text(k.kind)), Eqs(k)), i + 3 + |eqs|, k);
      var j := i + 3 + |eqs| + |SubsetItems(k)|;
      assert ParseAnd(ts, i + 1) == Some((ConstraintCond(k), j));
      assert ParseOr(ts, i + 1) == Some((ConstraintCond(k), j));
    } else {
      assert ParseAnd(ts, i + 1) == None;
      assert ParseOr(ts, i + 1) == None;
    }
  }

  /** OR and a parenthesised condition that no AND follows. */
  lemma OneAlternative(ts: seq<Item>, d: Cond, i: nat)
    requires Is(ts, i, OrWord)
    ensures ParseAtom(ts, i + 1) == None ==> OrTail(ts, d, i) == None
    ensures
      var p := ParseAtom(ts, i + 1);
      p.Some? && !Is(ts, p.value.1, AndWord) ==> OrTail(ts, d, i) == OrTail(ts, Or(d, p.value.0), p.value.1)
  {
    hide ParseAtom;
    var p := ParseAtom(ts, i + 1);
    if p == None {
      assert ParseAnd(ts, i + 1) == None;
    } else if !Is(ts, p.value.1, AndWord) {
      assert AndTail(ts, p.value.0, p.value.1) == p;
      assert ParseAnd(ts, i + 1) == p;
    }
  }

  lemma NoAlternative(ts: seq<Item>, d: Cond, i: nat)
    requires i <= |ts| && !Is(ts, i, OrWord)
    ensures OrTail(ts, d, i) == Some((d, i))
  {
  }

  lemma FirstAndRest(cs: seq<KindConstraint>)
    requires cs != []
    ensures WellFormed(cs) <==> SingleValued(Eqs(cs[0])) && WellFormed(cs[1..])
  {
    hide SingleValued;
    assert cs == [cs[0]] + cs[1..];
  }

  lemma MoreItemsSplit(cs: seq<KindConstraint>)
    requires cs != []
    ensures
      var items, more := ConstraintItems(cs[0]), MoreConstraintsItems(cs[1..]);
      && MoreConstraintsItems(cs) + [W(Close)] == [W(OrWord)] + (items + (more + [W(Close)]))
      && |MoreConstraintsItems(cs)| == 1 + |items| + |more|
  {
    hide ConstraintItems;
  }

  lemma {:induction false} ReadMoreConstraints(ts: seq<Item>, d: Cond, i: nat, cs: seq<KindConstraint>)
    requires At(ts, i, MoreConstraintsItems(cs) + [W(Close)])
    ensures OrTail(ts, d, i) == if WellFormed(cs) then Some((Disj(d, cs), i + |MoreConstraintsItems(cs)|)) else None
    ensures Is(ts, i + |MoreConstraintsItems(cs)|, Close)
    ensures !Is(ts, i, AndWord)
    decreases |cs|
  {
    hide ConstraintItems, ConstraintCond, ParseAtom, At, OrTail, ParseAnd, AndTail, SingleValued;
    AtConcat(ts, i, MoreConstraintsItems(cs), [W(Close)]);
    ItemAt(ts, i + |MoreConstraintsItems(cs)|, [W(Close)], 0);
    if cs == [] {
      NoAlternative(ts, d, i);
    } else {
      var items, more := ConstraintItems(cs[0]), MoreConstraintsItems(cs[1..]);
      MoreItemsSplit(cs);
      FirstAndRest(cs);
      hide WellFormed, MoreConstraintsItems;
      AtConcat(ts, i, [W(OrWord)], items + (more + [W(Close)]));
      AtConcat(ts, i + 1, items, more + [W(Close)]);
      ItemAt(ts, i, [W(OrWord)], 0);
      ReadConstraint(ts, i + 1, cs[0]);
      if SingleValued(Eqs(cs[0])) {
        ReadMoreConstraints(ts, Or(d, ConstraintCond(cs[0])), i + 1 + |items|, cs[1..]);
      }
      OneAlternative(ts, d, i);
    }
  }

  /** A parenthesis around alternatives, the first of which no AND follows. */
  lemma Parenthesised(ts: seq<Item>, i: nat)
    requires Is(ts, i, Open)
    ensures ParseAtom(ts, i + 1) == None ==> ParseAtom(ts, i) == None
    ensures
      var p := ParseAtom(ts, i + 1);
      p.Some? && !Is(ts, p.value.1, AndWord) ==>
        var r := OrTail(ts, p.value.0, p.value.1);
        ParseAtom(ts, i) == if r.Some? && Is(ts, r.value.1, Close) then Some((r.value.0, r.value.1 + 1)) else None
  {
    hide OrTail;
    var p := ParseAtom(ts, i + 1);
    if p == None {
      assert ParseAnd(ts, i + 1) == None;
      assert ParseOr(ts, i + 1) == None;
    } else if !Is(ts, p.value.1, AndWord) {
      assert AndTail(ts, p.value.0, p.value.1) == p;
      assert ParseAnd(ts, i + 1) == p;
      assert ParseOr(ts, i + 1) == OrTail(ts, p.value.0, p.value.1);
    }
  }

  /** Where the parts of the constraints stand. */
  lemma ConstraintsLayout(ts: seq<Item>, i: nat, cs: seq<KindConstraint>)
    requires cs != [] && At(ts, i, ConstraintsItems(cs))
    ensures Is(ts, i, AndWord) && Is(ts, i + 1, Open)
    ensures
      var n := |ConstraintItems(cs[0])|;
      && At(ts, i + 2, ConstraintItems(cs[0])) && At(ts, i + 2 + n, MoreConstraintsItems(cs[1..]) + [W(Close)])
      && |ConstraintsItems(cs)| == 2 + n + |MoreConstraintsItems(cs[1..])| + 1
  {
    hide ConstraintItems, MoreConstraintsItems, At;
    var head, items, more := [W(AndWord), W(Open)], ConstraintItems(cs[0]), MoreConstraintsItems(cs[1..]);
    assert ConstraintsItems(cs) == head + (items + (more + [W(Close)]));
    hide ConstraintsItems;
    ThreeParts(ts, i, head, items, more + [W(Close)]);
    ItemAt(ts, i, head, 0);
    ItemAt(ts, i, head, 1);
  }

  lemma ThreeParts(ts: seq<Item>, i: nat, a: seq<Item>, b: seq<Item>, c: seq<Item>)
    requires At(ts, i, a + (b + c))
    ensures At(ts, i, a) && At(ts, i + |a|, b) && At(ts, i + |a| + |b|, c)
  {
    hide At;
    AtConcat(ts, i, a, b + c);
    AtConcat(ts, i + |a|, b, c);
  }

  lemma ReadConstraints(ts: seq<Item>, i: nat, cs: seq<KindConstraint>)
    requires cs != [] && At(ts, i, ConstraintsItems(cs))
    ensures Is(ts, i, AndWord)
    ensures ParseAtom(ts, i + 1) ==
            if WellFormed(cs) then Some((Disj(ConstraintCond(cs[0]), cs[1..]), i + |ConstraintsItems(cs)|)) else None
  {
    hide ConstraintItems, ConstraintsItems, ConstraintCond, Disj, At, MoreConstraintsItems, WellFormed, SingleValued, OrTail, ParseAtom;
    FirstAndRest(cs);
    ConstraintsLayout(ts, i, cs);
    ReadConstraint(ts, i + 2, cs[0]);
    if SingleValued(Eqs(cs[0])) {
      ReadMoreConstraints(ts, ConstraintCond(cs[0]), i + 2 + |ConstraintItems(cs[0])|, cs[1..]);
    }
    Parenthesised(ts, i + 1);
  }

  /** A whole query: SELECT ... WHERE condition ORDER BY when_occurred, nothing left over. */
  function ReadQuery(ts: seq<Item>): Option<Cond> {
    if |ts| < 2 || !ts[0].W? || !ts[0].w.Select? || !Is(ts, 1, Where) then None
    else
      match ParseOr(ts, 2)
      case None => None
      case Some((c, j)) => if Is(ts, j, OrderByWhen) && j + 1 == |ts| then Some(c) else None
  }

  lemma ReadStream(ts: seq<Item>, i: nat, app: string, stream: string)
    requires At(ts, i, StreamItems(app, stream))
    ensures ParseAtom(ts, i) == Some((And(AppIs(Text(app)), StreamIs(Text(stream))), i + 7))
  {
    var items := StreamItems(app, stream);
    assert ts[i] == items[0] && ts[i + 1] == items[1] && ts[i + 2] == items[2] && ts[i + 3] == items[3];
    assert ts[i + 4] == items[4] && ts[i + 5] == items[5] && ts[i + 6] == items[6];
    var app', both := AppIs(Text(app)), And(AppIs(Text(app)), StreamIs(Text(stream)));
    assert ParseAtom(ts, i + 1) == Some((app', i + 3));
    assert ParseAtom(ts, i + 4) == Some((StreamIs(Text(stream)), i + 6));
    assert AndTail(ts, both, i + 6) == Some((both, i + 6));
    assert AndTail(ts, app', i + 3) == Some((both, i + 6));
    assert ParseOr(ts, i + 1) == Some((both, i + 6));
  }

  lemma ReadCursor(ts: seq<Item>, i: nat, q: WireQuery, c: Cond)
    requires At(ts, i, CursorItems(q))
    ensures AndTail(ts, c, i) ==
            AndTail(ts, if q.afterID.Some? then And(c, IdAfter(Number(q.afterID.value))) else c, i + |CursorItems(q)|)
  {
    if q.afterID.Some? {
      var items := CursorItems(q);
      assert ts[i] == items[0] && ts[i + 1] == items[1] && ts[i + 2] == items[2];
      assert ParseAtom(ts, i + 1) == Some((IdAfter(Number(q.afterID.value)), i + 3));
    }
  }

  lemma ReadKinds(ts: seq<Item>, i: nat, cs: seq<KindConstraint>, c: Cond)
    requires At(ts, i, ConstraintsItems(cs) + [W(OrderByWhen)])
    ensures AndTail(ts, c, i) ==
            if !WellFormed(cs) then None
            else Some((if cs == [] then c else And(c, Disj(ConstraintCond(cs[0]), cs[1..])), i + |ConstraintsItems(cs)|))
    ensures Is(ts, i + |ConstraintsItems(cs)|, OrderByWhen)
  {
    hide Disj, ConstraintCond, ParseAtom;
    AtConcat(ts, i, ConstraintsItems(cs), [W(OrderByWhen)]);
    var j := i + |ConstraintsItems(cs)|;
    assert ts[j] == [W(OrderByWhen)][0];
    if cs != [] {
      ReadConstraints(ts, i, cs);
      if WellFormed(cs) {
        var d := And(c, Disj(ConstraintCond(cs[0]), cs[1..]));
        assert AndTail(ts, d, j) == Some((d, j));
      }
    }
  }

  lemma Layout(app: string, stream: string, q: WireQuery, withEvent: bool)
    ensures
      var ts := QueryItems(app, stream, q, withEvent);
      var i := 9 + |CursorItems(q)|;
      && ts[0] == W(Select(withEvent)) && ts[1] == W(Where)
      && At(ts, 2, StreamItems(app, stream)) && At(ts, 9, CursorItems(q))
      && At(ts, i, ConstraintsItems(q.kinds) + [W(OrderByWhen)])
      && |ts| == i + |ConstraintsItems(q.kinds)| + 1
  {
    hide ConstraintsItems;
    var ts := QueryItems(app, stream, q, withEvent);
    var end := ConstraintsItems(q.kinds) + [W(OrderByWhen)];
    var head := [W(Select(withEvent)), W(Where)];
    assert At(ts, 0, head + (StreamItems(app, stream) + (CursorItems(q) + end)));
    AtConcat(ts, 0, head, StreamItems(app, stream) + (CursorItems(q) + end));
    AtConcat(ts, 2, StreamItems(app, stream), CursorItems(q) + end);
    AtConcat(ts, 9, CursorItems(q), end);
  }

  /**
   The generated text reads as the intended condition if and only if every matcher
   has exactly one value; otherwise it is not SQL, for want of commas or of a value.
   */
  lemma GeneratedTextReads(app: string, stream: string, q: WireQuery, withEvent: bool)
    ensures ReadQuery(QueryItems(app, stream, q, withEvent)) ==
            if WellFormed(q.kinds) then Some(QueryCond(app, stream, q)) else None
  {
    hide ConstraintsItems, ParseAtom, Disj, ConstraintCond, QueryItems, At, WellFormed;
    var ts := QueryItems(app, stream, q, withEvent);
    Layout(app, stream, q, withEvent);
    ReadStream(ts, 2, app, stream);
    var c := And(AppIs(Text(app)), StreamIs(Text(stream)));
    ReadCursor(ts, 9, q, c);
    var d := if q.afterID.Some? then And(c, IdAfter(Number(q.afterID.value))) else c;
    ReadKinds(ts, 9 + |CursorItems(q)|, q.kinds, d);
    assert ParseAnd(ts, 2) == AndTail(ts, c, 9);
    assert ParseOr(ts, 2) == ParseAnd(ts, 2);
  }

  // What the condition selects.

  predicate ConstraintHolds(m: Matchers, c: KindConstraint, e: Event) {
    e.kind == c.kind && EqsHold(m, Eqs(c), e) && SubsetHolds(m, c, e)
  }

  lemma {:induction false} ConjHolds(m: Matchers, c: Cond, xs: seq<Matcher>, e: Event)
    requires SingleValued(xs)
    ensures Holds(m, Conj(c, xs), e) <==> Holds(m, c, e) && EqsHold(m, xs, e)
    decreases |xs|
  {
    if xs != [] {
      var x := xs[0];
      ConjHolds(m, And(c, EqCond(x)), xs[1..], e);
      assert Holds(m, EqCond(x), e) <==> EqHolds(m, x, e) by {
        assert EqCond(x).values[0] == Text(x.values[0]);
      }
      assert EqsHold(m, xs, e) <==> EqHolds(m, x, e) && EqsHold(m, xs[1..], e);
    }
  }

  lemma ConstraintCondHolds(m: Matchers, c: KindConstraint, e: Event)
    requires SingleValued(Eqs(c))
    ensures Holds(m, ConstraintCond(c), e) <==> ConstraintHolds(m, c, e)
  {
    ConjHolds(m, KindIs(Text(c.kind)), Eqs(c), e);
  }

  lemma {:induction false} DisjHolds(m: Matchers, d: Cond, cs: seq<KindConstraint>, e: Event)
    requires WellFormed(cs)
    ensures Holds(m, Disj(d, cs), e) <==> Holds(m, d, e) || exists i :: 0 <= i < |cs| && ConstraintHolds(m, cs[i], e)
    decreases |cs|
  {
    if cs != [] {
      ConstraintCondHolds(m, cs[0], e);
      DisjHolds(m, Or(d, ConstraintCond(cs[0])), cs[1..], e);
      if i :| 0 <= i < |cs| && ConstraintHolds(m, cs[i], e) {
        assert i == 0 || cs[1..][i - 1] == cs[i];
      }
    }
  }

  predicate DistinctKinds(cs: seq<KindConstraint>) {
    forall i, j :: 0 <= i < j < |cs| ==> cs[i].kind != cs[j].kind
  }

  /** Among distinct kinds, some constraint holds exactly when the one found for the event does. */
  lemma {:induction false} FoundConstraintDecides(m: Matchers, cs: seq<KindConstraint>, e: Event)
    requires DistinctKinds(cs)
    ensures (exists i :: 0 <= i < |cs| && ConstraintHolds(m, cs[i], e)) <==>
            var found := FindMatchingConstraint(e.kind, cs);
            found.Some? && EqsHold(m, Eqs(found.value), e) && SubsetHolds(m, found.value, e)
  {
    if cs != [] {
      FoundConstraintDecides(m, cs[1..], e);
      if i :| 0 <= i < |cs| && ConstraintHolds(m, cs[i], e) {
        assert i == 0 || cs[1..][i - 1] == cs[i];
      }
      if i :| 0 <= i < |cs[1..]| && ConstraintHolds(m, cs[1..][i], e) {
        assert cs[i + 1] == cs[1..][i];
      }
    }
  }

  /** The condition selects the stream's events that pass the local filter. */
  lemma ConditionIsFilter(m: Matchers, app: string, stream: string, q: WireQuery, e: Event)
    requires WellFormed(q.kinds) && DistinctKinds(q.kinds)
    ensures Holds(m, QueryCond(app, stream, q), e) <==> e.domain == app && e.stream == stream && Filter(m, q, e)
  {
    hide Disj, ConstraintCond, ConstraintHolds, EqsHold, SubsetHolds;
    FoundConstraintDecides(m, q.kinds, e);
    var c := And(AppIs(Text(app)), StreamIs(Text(stream)));
    assert Holds(m, c, e) <==> e.domain == app && e.stream == stream;
    var cursor := if q.afterID.Some? then And(c, IdAfter(Number(q.afterID.value))) else c;
    assert Holds(m, cursor, e) <==> Holds(m, c, e) && !(q.afterID.Some? && e.id <= q.afterID.value);
    if q.kinds != [] {
      var d := ConstraintCond(q.kinds[0]);
      ConstraintCondHolds(m, q.kinds[0], e);
      DisjHolds(m, d, q.kinds[1..], e);
      if i :| 0 <= i < |q.kinds| && ConstraintHolds(m, q.kinds[i], e) {
        assert i == 0 || q.kinds[1..][i - 1] == q.kinds[i];
      }
      if i :| 0 <= i < |q.kinds[1..]| && ConstraintHolds(m, q.kinds[1..][i], e) {
        assert q.kinds[i + 1] == q.kinds[1..][i];
      }
    }
  }

  /**
   From builder to rows: what the builder leaves behind, its holes filled with its
   arguments and read as SQL, selects exactly what the local filter selects.
   */
  lemma TranslationSelectsFiltered(m: Matchers, app: string, stream: string, q: WireQuery, withEvent: bool,
                                   dml: seq<Token>, args: seq<Arg>, e: Event)
    requires dml == Tokens(QueryItems(app, stream, q, withEvent), 0)
    requires args == ArgsOf(QueryItems(app, stream, q, withEvent))
    requires DistinctKinds(q.kinds)
    ensures Fill(dml, args).Some?
    ensures
      var read := ReadQuery(Fill(dml, args).value);
      if WellFormed(q.kinds)
      then read.Some? && (Holds(m, read.value, e) <==> e.domain == app && e.stream == stream && Filter(m, q, e))
      else read == None
  {
    hide Filter, QueryCond;
    FillRestores(QueryItems(app, stream, q, withEvent), 0, args);
    GeneratedTextReads(app, stream, q, withEvent);
    if WellFormed(q.kinds) {
      ConditionIsFilter(m, app, stream, q, e);
    }
  }
}
