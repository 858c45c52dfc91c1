/**
 Queries of the first API: the local filter they are measured by, and the SQL text and
 arguments their builder writes.
 */
module V1Query {
  import opened Wrappers
  import opened Queries
  import opened SqlText

  datatype Matcher = Matcher(property: seq<string>, values: seq<string>)

  /** `eq` and `subset` are None where the wire has null. */
  datatype KindConstraint = KindConstraint(kind: string, eq: Option<seq<Matcher>>, subset: Option<string>)

  datatype WireQuery = WireQuery(kinds: seq<KindConstraint>, afterID: Option<int>)

  function Eqs(c: KindConstraint): seq<Matcher> {
    if c.eq.Some? then c.eq.value else []
  }

  predicate HasSubset(c: KindConstraint) {
    c.subset.Some? && c.subset.value != ""
  }

  // The local filter.

  predicate EqHolds(m: Matchers, x: Matcher, e: Event) {
    |x.values| > 0 && m.property(e.body, x.property, x.values[0])
  }

  predicate EqsHold(m: Matchers, eqs: seq<Matcher>, e: Event) {
    forall i :: 0 <= i < |eqs| ==> EqHolds(m, eqs[i], e)
  }

  predicate SubsetHolds(m: Matchers, c: KindConstraint, e: Event) {
    HasSubset(c) ==> m.contains(e.body, c.subset.value)
  }

  function FindMatchingConstraint(kind: string, cs: seq<KindConstraint>): Option<KindConstraint> {
    if cs == [] then None
    else if cs[0].kind == kind then Some(cs[0])
    else FindMatchingConstraint(kind, cs[1..])
  }

  predicate Filter(m: Matchers, q: WireQuery, e: Event) {
    if q.afterID.Some? && e.id <= q.afterID.value then false
    else if |q.kinds| == 0 then true
    else
      match FindMatchingConstraint(e.kind, q.kinds)
      case None => false
      case Some(c) => EqsHold(m, Eqs(c), e) && SubsetHolds(m, c, e)
  }

  // The SQL text.

  function ValueItems(vs: seq<string>): seq<Item> {
    seq(|vs|, i requires 0 <= i < |vs| => Bind(Text(vs[i])))
  }

  /** One equality matcher.  The values of its IN list follow one another without commas. */
  function EqItems(x: Matcher): seq<Item> {
    [W(AndWord), W(PathOf), Bind(Path(x.property)), W(InWord), W(Open)] + ValueItems(x.values) + [W(Close)]
  }

  function EqsItems(xs: seq<Matcher>): seq<Item> {
    if xs == [] then [] else EqItems(xs[0]) + EqsItems(xs[1..])
  }

  function SubsetItems(c: KindConstraint): seq<Item> {
    if HasSubset(c) then [W(AndWord), W(ContainsWord), Bind(Document(c.subset.value))] else []
  }

  function ConstraintItems(c: KindConstraint): seq<Item> {
    [W(Open), W(KindEq), Bind(Text(c.kind))] + (EqsItems(Eqs(c)) + (SubsetItems(c) + [W(Close)]))
  }

  /** The constraints, each but the first after an OR. */
  function MoreConstraintsItems(cs: seq<KindConstraint>): seq<Item> {
    if cs == [] then [] else [W(OrWord)] + (ConstraintItems(cs[0]) + MoreConstraintsItems(cs[1..]))
  }

  function ConstraintsItems(cs: seq<KindConstraint>): seq<Item> {
    if cs == [] then []
    else [W(AndWord), W(Open)] + (ConstraintItems(cs[0]) + (MoreConstraintsItems(cs[1..]) + [W(Close)]))
  }

  function CursorItems(q: WireQuery): seq<Item> {
    if q.afterID.Some? then [W(AndWord), W(IdGreater), Bind(Number(q.afterID.value))] else []
  }

  function StreamItems(app: string, stream: string): seq<Item> {
    [W(Open), W(AppEq), Bind(Text(app)), W(AndWord), W(StreamEq), Bind(Text(stream)), W(Close)]
  }

  function QueryItems(app: string, stream: string, q: WireQuery, withEvent: bool): seq<Item> {
    [W(Select(withEvent)), W(Where)] +
    (StreamItems(app, stream) + (CursorItems(q) + (ConstraintsItems(q.kinds) + [W(OrderByWhen)])))
  }

  // The builder writes exactly that text and those arguments.

  method TranslateValues(out: SQLQuery, vs: seq<string>, ghost items: seq<Item>)
    requires out.Shows(items)
    modifies out
    ensures out.Shows(items + ValueItems(vs))
  {
    hide Tokens, ArgsOf, ValueItems;
    NoValues(vs, items);
    for i := 0 to |vs|
      invariant out.Shows(items + ValueItems(vs[..i]))
    {
      out.AppendBound([], Text(vs[i]), items + ValueItems(vs[..i]));
      OneMoreValue(vs, i, items);
    }
    assert vs[..|vs|] == vs;
  }

  lemma NoValues(vs: seq<string>, items: seq<Item>)
    ensures items + ValueItems(vs[..0]) == items
  {
  }

  lemma OneMoreValue(vs: seq<string>, i: nat, items: seq<Item>)
    requires i < |vs|
    ensures items + ValueItems(vs[..i]) + (Words([]) + [Bind(Text(vs[i]))]) == items + ValueItems(vs[..i + 1])
  {
    assert ValueItems(vs[..i + 1]) == ValueItems(vs[..i]) + [Bind(Text(vs[i]))];
    assert Words([]) + [Bind(Text(vs[i]))] == [Bind(Text(vs[i]))];
  }

  method TranslateEq(out: SQLQuery, x: Matcher, ghost items: seq<Item>)
    requires out.Shows(items)
    modifies out
    ensures out.Shows(items + EqItems(x))
  {
    hide Tokens, ArgsOf;
    out.AppendWords([AndWord], items);
    ghost var shown := items + Words([AndWord]);
    out.AppendBound([PathOf], Path(x.property), shown);
    shown := shown + (Words([PathOf]) + [Bind(Path(x.property))]);
    out.AppendWords([InWord, Open], shown);
    shown := shown + Words([InWord, Open]);
    TranslateValues(out, x.values, shown);
    shown := shown + ValueItems(x.values);
    out.AppendWords([Close], shown);
    assert shown + Words([Close]) == items + EqItems(x);
  }

  method TranslateKindConstraint(out: SQLQuery, c: KindConstraint, ghost items: seq<Item>)
    requires out.Shows(items)
    modifies out
    ensures out.Shows(items + ConstraintItems(c))
  {
    hide EqsItems, Tokens, ArgsOf, SubsetItems;
    out.AppendBound([Open, KindEq], Text(c.kind), items);
    ghost var shown := items + (Words([Open, KindEq]) + [Bind(Text(c.kind))]);
    var eqs := Eqs(c);
    shown := TranslateEqs(out, eqs, shown);
    TranslateSubset(out, c, shown);
    shown := shown + SubsetItems(c);
    out.AppendWords([Close], shown);
    assert Words([Close]) == [W(Close)] && Words([Open, KindEq]) == [W(Open), W(KindEq)];
    assert shown + Words([Close]) == items + ConstraintItems(c);
  }

  method TranslateSubset(out: SQLQuery, c: KindConstraint, ghost items: seq<Item>)
    requires out.Shows(items)
    modifies out
    ensures out.Shows(items + SubsetItems(c))
  {
    assert items + [] == items;
    if HasSubset(c) {
      out.AppendWords([AndWord], items);
      out.AppendBound([ContainsWord], Document(c.subset.value), items + Words([AndWord]));
      assert items + Words([AndWord]) + (Words([ContainsWord]) + [Bind(Document(c.subset.value))]) == items + SubsetItems(c);
    }
  }

  method TranslateEqs(out: SQLQuery, eqs: seq<Matcher>, ghost items: seq<Item>) returns (ghost shown: seq<Item>)
    requires out.Shows(items)
    modifies out
    ensures shown == items + EqsItems(eqs) && out.Shows(shown)
  {
    hide Tokens, ArgsOf, EqItems;
    shown := items;
    for i := 0 to |eqs|
      invariant shown + EqsItems(eqs[i..]) == items + EqsItems(eqs)
      invariant out.Shows(shown)
    {
      assert eqs[i..][1..] == eqs[i + 1..];
      TranslateEq(out, eqs[i], shown);
      shown := shown + EqItems(eqs[i]);
    }
  }

  method TranslateConstraints(out: SQLQuery, cs: seq<KindConstraint>, ghost items: seq<Item>)
    requires out.Shows(items)
    modifies out
    ensures out.Shows(items + ConstraintsItems(cs))
  {
    hide Tokens, ArgsOf, ConstraintItems, MoreConstraintsItems, ConstraintsItems;
    ghost var shown := items;
    var joiner := [AndWord, Open];
    for i := 0 to |cs|
      invariant i == 0 ==> shown == items
      invariant i > 0 ==> shown + (MoreConstraintsItems(cs[i..]) + [W(Close)]) == items + ConstraintsItems(cs)
      invariant joiner == if i == 0 then [AndWord, Open] else [OrWord]
      invariant out.Shows(shown)
    {
      out.AppendWords(joiner, shown);
      TranslateKindConstraint(out, cs[i], shown + Words(joiner));
      OneMoreConstraint(cs, i, items, shown);
      shown := shown + Words(joiner) + ConstraintItems(cs[i]);
      joiner := [OrWord];
    }
    LastConstraint(cs, items, shown);
    if |cs| > 0 {
      out.AppendWords([Close], shown);
    }
  }

  lemma OneMoreConstraint(cs: seq<KindConstraint>, i: nat, items: seq<Item>, shown: seq<Item>)
    requires i < |cs|
    requires i == 0 ==> shown == items
    requires i > 0 ==> shown + (MoreConstraintsItems(cs[i..]) + [W(Close)]) == items + ConstraintsItems(cs)
    ensures
      var joiner := if i == 0 then [AndWord, Open] else [OrWord];
      shown + Words(joiner) + ConstraintItems(cs[i]) + (MoreConstraintsItems(cs[i + 1..]) + [W(Close)])
      == items + ConstraintsItems(cs)
  {
    hide ConstraintItems;
    var one, rest, end := ConstraintItems(cs[i]), MoreConstraintsItems(cs[i + 1..]), [W(Close)];
    if i == 0 {
      assert Words([AndWord, Open]) == [W(AndWord), W(Open)] && cs[0..] == cs;
      assert ConstraintsItems(cs) == [W(AndWord), W(Open)] + (one + (rest + end));
      hide *;
      Regroup(shown, [W(AndWord), W(Open)], one, rest, end);
    } else {
      assert Words([OrWord]) == [W(OrWord)] && cs[i..][1..] == cs[i + 1..] && cs[i..][0] == cs[i];
      assert MoreConstraintsItems(cs[i..]) == [W(OrWord)] + (one + rest);
      hide *;
      Regroup(shown, [W(OrWord)], one, rest, end);
    }
  }

  lemma LastConstraint(cs: seq<KindConstraint>, items: seq<Item>, shown: seq<Item>)
    requires cs == [] ==> shown == items
    requires cs != [] ==> shown + (MoreConstraintsItems(cs[|cs|..]) + [W(Close)]) == items + ConstraintsItems(cs)
    ensures items + ConstraintsItems(cs) == if cs == [] then shown else shown + Words([Close])
  {
    hide ConstraintItems;
    assert Words([Close]) == [W(Close)];
    assert MoreConstraintsItems(cs[|cs|..]) + [W(Close)] == [W(Close)];
  }

  method TranslateQuery(app: string, stream: string, q: WireQuery, withEvent: bool) returns (out: SQLQuery)
    ensures fresh(out)
    ensures out.Shows(QueryItems(app, stream, q, withEvent))
  {
    hide Tokens, ArgsOf, ConstraintsItems, StreamItems;
    out := new SQLQuery();
    out.Append([Fixed(Select(withEvent))]);
    out.Append([Fixed(Where), Fixed(Open), Fixed(AppEq), Hole(1), Fixed(AndWord), Fixed(StreamEq), Hole(2), Fixed(Close)]);
    var h := out.Hole(Text(app));
    h := out.Hole(Text(stream));
    ghost var head := [W(Select(withEvent)), W(Where)] + StreamItems(app, stream);
    HeadText(app, stream, withEvent);
    TranslateCursor(out, q, head);
    ghost var shown := head + CursorItems(q);
    TranslateConstraints(out, q.kinds, shown);
    out.AppendWords([OrderByWhen], shown + ConstraintsItems(q.kinds));
    WholeText(app, stream, q, withEvent);
  }

  method TranslateCursor(out: SQLQuery, q: WireQuery, ghost items: seq<Item>)
    requires out.Shows(items)
    modifies out
    ensures out.Shows(items + CursorItems(q))
  {
    hide Tokens, ArgsOf;
    assert items + [] == items;
    if q.afterID.Some? {
      out.AppendBound([AndWord, IdGreater], Number(q.afterID.value), items);
      assert Words([AndWord, IdGreater]) + [Bind(Number(q.afterID.value))] == CursorItems(q);
    }
  }

  lemma WholeText(app: string, stream: string, q: WireQuery, withEvent: bool)
    ensures [W(Select(withEvent)), W(Where)] + StreamItems(app, stream) + CursorItems(q) + ConstraintsItems(q.kinds) + Words([OrderByWhen])
            == QueryItems(app, stream, q, withEvent)
  {
    hide ConstraintsItems, CursorItems, StreamItems;
    assert Words([OrderByWhen]) == [W(OrderByWhen)];
  }

  /** The opening of the text names its two holes before they are made. */
  lemma HeadText(app: string, stream: string, withEvent: bool)
    ensures
      var head := [W(Select(withEvent)), W(Where)] + StreamItems(app, stream);
      && ArgsOf(head) == [Text(app), Text(stream)]
      && Tokens(head, 0) == [Fixed(Select(withEvent)), Fixed(Where), Fixed(Open), Fixed(AppEq), Hole(1),
                             Fixed(AndWord), Fixed(StreamEq), Hole(2), Fixed(Close)]
  {
    var a := Words([Select(withEvent), Where, Open, AppEq]);
    var b := Words([AndWord, StreamEq]);
    var c := Words([Close]);
    var head := [W(Select(withEvent)), W(Where)] + StreamItems(app, stream);
    assert head == a + ([Bind(Text(app))] + (b + ([Bind(Text(stream))] + c)));
    WordsText([Select(withEvent), Where, Open, AppEq], 0);
    WordsText([AndWord, StreamEq], 1);
    WordsText([Close], 2);
    TokensConcat(a, [Bind(Text(app))] + (b + ([Bind(Text(stream))] + c)), 0);
    TokensConcat([Bind(Text(app))], b + ([Bind(Text(stream))] + c), 0);
    TokensConcat(b, [Bind(Text(stream))] + c, 1);
    TokensConcat([Bind(Text(stream))], c, 1);
    ArgsConcat(a, [Bind(Text(app))] + (b + ([Bind(Text(stream))] + c)));
    ArgsConcat([Bind(Text(app))], b + ([Bind(Text(stream))] + c));
    ArgsConcat(b, [Bind(Text(stream))] + c);
    ArgsConcat([Bind(Text(stream))], c);
  }
}
