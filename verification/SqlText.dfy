/**
 The SQL the query builders write, as words and numbered holes with arguments bound
 to them, and a reader for it: the boolean expressions of a WHERE clause, with AND
 binding tighter than OR, parentheses, and comma-separated IN lists.
 */
module SqlText {
  import opened Wrappers
  import opened Queries

  /** The fixed fragments of the generated text. */
  datatype Word =
    | Select(withEvent: bool) | SelectOp(op: int) | SelectFrom | UnionAll | AsUnion | OrderByWhen
    | Where | Open | Close | Comma | AndWord | OrWord
    | AppEq | StreamEq | KindEq | IdEq | IdGreater | PathOf | InWord | ContainsWord

  datatype Arg = Text(s: string) | Number(n: int) | Path(p: seq<string>) | Document(d: string)

  datatype Token = Fixed(w: Word) | Hole(n: nat)

  /** What a text means once its holes are filled. */
  datatype Item = W(w: Word) | Bind(a: Arg)

  function ArgsOf(items: seq<Item>): seq<Arg> {
    if items == [] then []
    else ArgsOf(items[..|items| - 1]) + (if items[|items| - 1].Bind? then [items[|items| - 1].a] else [])
  }

  /** The text of the items: bindings become holes, numbered in order after `n`. */
  function Tokens(items: seq<Item>, n: nat): seq<Token> {
    if items == [] then []
    else
      var k := |items| - 1;
      Tokens(items[..k], n) +
      [match items[k] case W(w) => Fixed(w) case Bind(_) => Hole(n + |ArgsOf(items[..k])| + 1)]
  }

  lemma {:induction false} ArgsConcat(a: seq<Item>, b: seq<Item>)
    ensures ArgsOf(a + b) == ArgsOf(a) + ArgsOf(b)
  {
    if b == [] {
      assert a + b == a;
    } else {
      var k := |b| - 1;
      ArgsConcat(a, b[..k]);
      assert (a + b)[..|a + b| - 1] == a + b[..k] && (a + b)[|a + b| - 1] == b[k];
    }
  }

  lemma {:induction false} TokensConcat(a: seq<Item>, b: seq<Item>, n: nat)
    ensures Tokens(a + b, n) == Tokens(a, n) + Tokens(b, n + |ArgsOf(a)|)
  {
    if b == [] {
      assert a + b == a;
    } else {
      var k := |b| - 1;
      TokensConcat(a, b[..k], n);
      ArgsConcat(a, b[..k]);
      assert (a + b)[..|a + b| - 1] == a + b[..k] && (a + b)[|a + b| - 1] == b[k];
    }
  }

  // Holes.

  function Holes(ts: seq<Token>): seq<nat> {
    if ts == [] then []
    else Holes(ts[..|ts| - 1]) + (if ts[|ts| - 1].Hole? then [ts[|ts| - 1].n] else [])
  }

  /** Read left to right, the holes of a text are numbered one by one after `n`, one per argument. */
  lemma {:induction false} HolesInOrder(items: seq<Item>, n: nat)
    ensures Holes(Tokens(items, n)) == seq(|ArgsOf(items)|, i => n + i + 1)
  {
    if items != [] {
      var k := |items| - 1;
      HolesInOrder(items[..k], n);
      assert Tokens(items, n)[..|Tokens(items, n)| - 1] == Tokens(items[..k], n);
    }
  }

  /** Filling the holes of a text with the arguments they name; no text names an argument it lacks. */
  function Fill(ts: seq<Token>, args: seq<Arg>): Option<seq<Item>> {
    if ts == [] then Some([])
    else
      match Fill(ts[..|ts| - 1], args)
      case None => None
      case Some(items) =>
        match ts[|ts| - 1]
        case Fixed(w) => Some(items + [W(w)])
        case Hole(n) => if 1 <= n <= |args| then Some(items + [Bind(args[n - 1])]) else None
  }

  /** From hole `n` on, the arguments start with those of the items. */
  predicate Supplied(items: seq<Item>, n: nat, args: seq<Arg>) {
    n + |ArgsOf(items)| <= |args| && forall i :: 0 <= i < |ArgsOf(items)| ==> args[n + i] == ArgsOf(items)[i]
  }

  lemma SuppliedPrefix(items: seq<Item>, n: nat, args: seq<Arg>)
    requires items != [] && Supplied(items, n, args)
    ensures
      var rest, last := items[..|items| - 1], items[|items| - 1];
      Supplied(rest, n, args) && (last.Bind? ==> n + |ArgsOf(rest)| < |args| && args[n + |ArgsOf(rest)|] == last.a)
  {
    var rest, last := items[..|items| - 1], items[|items| - 1];
    var tail := if last.Bind? then [last.a] else [];
    assert ArgsOf(items) == ArgsOf(rest) + tail;
    assert forall i :: 0 <= i < |ArgsOf(rest)| ==> ArgsOf(rest)[i] == ArgsOf(items)[i];
    if last.Bind? {
      assert ArgsOf(items)[|ArgsOf(rest)|] == last.a;
    }
  }

  /** The token an item becomes behind others. */
  function TokenOf(items: seq<Item>, n: nat, item: Item): Token {
    match item case W(w) => Fixed(w) case Bind(_) => Token.Hole(n + |ArgsOf(items)| + 1)
  }

  lemma TokensLast(items: seq<Item>, n: nat)
    requires items != []
    ensures Tokens(items, n) == Tokens(items[..|items| - 1], n) + [TokenOf(items[..|items| - 1], n, items[|items| - 1])]
  {
  }

  /** Each hole binds the argument its own clause supplied: filling the text gives back the items. */
  lemma {:induction false} FillRestores(items: seq<Item>, n: nat, args: seq<Arg>)
    requires Supplied(items, n, args)
    ensures Fill(Tokens(items, n), args) == Some(items)
  {
    if items == [] {
      assert Tokens(items, n) == [];
    } else {
      hide Supplied, Fill, ArgsOf, Tokens;
      var k := |items| - 1;
      SuppliedPrefix(items, n, args);
      FillRestores(items[..k], n, args);
      TokensLast(items, n);
      assert items[..k] + [items[k]] == items;
    }
  }

  /** The query builder: text and arguments grow together; a hole is numbered when it is made. */
  class SQLQuery {
    var DML: seq<Token>
    var Args: seq<Arg>

    constructor ()
      ensures DML == [] && Args == []
    {
      DML, Args := [], [];
    }

    ghost predicate Shows(items: seq<Item>)
      reads this
    {
      DML == Tokens(items, 0) && Args == ArgsOf(items)
    }

    method Append(dml: seq<Token>)
      modifies this`DML
      ensures DML == old(DML) + dml
    {
      DML := DML + dml;
    }

    method Hole(what: Arg) returns (hole: Token)
      modifies this`Args
      ensures Args == old(Args) + [what] && hole == Token.Hole(|Args|)
    {
      Args := Args + [what];
      hole := Token.Hole(|Args|);
    }

    /** Words, then a fresh hole, as in `e.id > $3`. */
    method AppendBound(words: seq<Word>, what: Arg, ghost items: seq<Item>)
      requires Shows(items)
      modifies this
      ensures Shows(items + (Words(words) + [Bind(what)]))
    {
      var hole := Hole(what);
      Append(seq(|words|, i requires 0 <= i < |words| => Fixed(words[i])) + [hole]);
      ghost var more := Words(words) + [Bind(what)];
      TokensConcat(items, more, 0);
      ArgsConcat(items, more);
      TokensConcat(Words(words), [Bind(what)], |ArgsOf(items)|);
      ArgsConcat(Words(words), [Bind(what)]);
      WordsText(words, |ArgsOf(items)|);
      assert ArgsOf([Bind(what)][..0]) == [] && Tokens([Bind(what)][..0], |ArgsOf(items)|) == [];
    }

    method AppendWords(words: seq<Word>, ghost items: seq<Item>)
      requires Shows(items)
      modifies this`DML
      ensures Shows(items + Words(words))
    {
      Append(seq(|words|, i requires 0 <= i < |words| => Fixed(words[i])));
      TokensConcat(items, Words(words), 0);
      ArgsConcat(items, Words(words));
      WordsText(words, |ArgsOf(items)|);
    }
  }

  function Words(words: seq<Word>): seq<Item> {
    seq(|words|, i requires 0 <= i < |words| => W(words[i]))
  }

  lemma {:induction false} WordsText(words: seq<Word>, n: nat)
    ensures ArgsOf(Words(words)) == []
    ensures Tokens(Words(words), n) == seq(|words|, i requires 0 <= i < |words| => Fixed(words[i]))
  {
    if words != [] {
      var k := |words| - 1;
      WordsText(words[..k], n);
      assert Words(words)[..k] == Words(words[..k]);
    }
  }

  // Reading a condition.

  datatype Cond =
    | AppIs(a: Arg) | StreamIs(a: Arg) | KindIs(a: Arg) | IdIs(a: Arg) | IdAfter(a: Arg)
    | PathIn(path: Arg, values: seq<Arg>) | Has(a: Arg)
    | And(l: Cond, r: Cond) | Or(l: Cond, r: Cond)

  type Parsed = Option<(Cond, int)>

  predicate Is(ts: seq<Item>, i: nat, w: Word) {
    i < |ts| && ts[i] == W(w)
  }

  predicate IsBound(ts: seq<Item>, i: nat) {
    i < |ts| && ts[i].Bind?
  }

  function ParseOr(ts: seq<Item>, i: nat): (r: Parsed)
    ensures r.Some? ==> i < r.value.1 <= |ts|
    decreases |ts| - i, 3
  {
    match ParseAnd(ts, i)
    case None => None
    case Some((c, j)) => OrTail(ts, c, j)
  }

  function OrTail(ts: seq<Item>, c: Cond, i: nat): (r: Parsed)
    requires i <= |ts|
    ensures r.Some? ==> i <= r.value.1 <= |ts|
    decreases |ts| - i, 0
  {
    if !Is(ts, i, OrWord) then Some((c, i)) else
    match ParseAnd(ts, i + 1)
    case None => None
    case Some((d, j)) => OrTail(ts, Or(c, d), j)
  }

  function ParseAnd(ts: seq<Item>, i: nat): (r: Parsed)
    ensures r.Some? ==> i < r.value.1 <= |ts|
    decreases |ts| - i, 2
  {
    match ParseAtom(ts, i)
    case None => None
    case Some((c, j)) => AndTail(ts, c, j)
  }

  function AndTail(ts: seq<Item>, c: Cond, i: nat): (r: Parsed)
    requires i <= |ts|
    ensures r.Some? ==> i <= r.value.1 <= |ts|
    decreases |ts| - i, 0
  {
    if !Is(ts, i, AndWord) then Some((c, i)) else
    match ParseAtom(ts, i + 1)
    case None => None
    case Some((d, j)) => AndTail(ts, And(c, d), j)
  }

  function ParseAtom(ts: seq<Item>, i: nat): (r: Parsed)
    ensures r.Some? ==> i < r.value.1 <= |ts|
    decreases |ts| - i, 1
  {
    if Is(ts, i, Open) then
      match ParseOr(ts, i + 1)
      case None => None
      case Some((c, j)) => if Is(ts, j, Close) then Some((c, j + 1)) else None
    else if i >= |ts| || !ts[i].W? || !IsBound(ts, i + 1) then None
    else
      var a := ts[i + 1].a;
      match ts[i].w
      case AppEq => Some((AppIs(a), i + 2))
      case StreamEq => Some((StreamIs(a), i + 2))
      case KindEq => Some((KindIs(a), i + 2))
      case IdEq => Some((IdIs(a), i + 2))
      case IdGreater => Some((IdAfter(a), i + 2))
      case ContainsWord => Some((Has(a), i + 2))
      case PathOf =>
        if Is(ts, i + 2, InWord) && Is(ts, i + 3, Open) && IsBound(ts, i + 4) then
          ParseList(ts, a, [ts[i + 4].a], i + 5)
        else None
      case _ => None
  }

  /** The rest of an IN list: comma, value, ... up to the closing parenthesis. */
  function ParseList(ts: seq<Item>, path: Arg, values: seq<Arg>, i: nat): (r: Parsed)
    ensures r.Some? ==> i < r.value.1 <= |ts|
    decreases |ts| - i, 0
  {
    if Is(ts, i, Close) then Some((PathIn(path, values), i + 1))
    else if Is(ts, i, Comma) && IsBound(ts, i + 1) then ParseList(ts, path, values + [ts[i + 1].a], i + 2)
    else None
  }

  /** How a stored event's properties and documents compare with bound arguments. */
  datatype Matchers = Matchers(property: (string, seq<string>, string) -> bool, contains: Contains)

  predicate PropertyIs(m: Matchers, body: string, path: Arg, value: Arg) {
    path.Path? && value.Text? && m.property(body, path.p, value.s)
  }

  predicate Holds(m: Matchers, c: Cond, e: Event) {
    match c
    case AppIs(a) => a == Text(e.domain)
    case StreamIs(a) => a == Text(e.stream)
    case KindIs(a) => a == Text(e.kind)
    case IdIs(a) => a == Number(e.id)
    case IdAfter(a) => a.Number? && a.n < e.id
    case PathIn(path, values) => exists i :: 0 <= i < |values| && PropertyIs(m, e.body, path, values[i])
    case Has(a) => a.Document? && m.contains(e.body, a.d)
    case And(l, r) => Holds(m, l, e) && Holds(m, r, e)
    case Or(l, r) => Holds(m, l, e) || Holds(m, r, e)
  }

  /** The fragment stands at position `i` of the text. */
  predicate At(ts: seq<Item>, i: nat, fragment: seq<Item>) {
    i + |fragment| <= |ts| && forall k :: 0 <= k < |fragment| ==> ts[i + k] == fragment[k]
  }

  lemma AtConcat(ts: seq<Item>, i: nat, a: seq<Item>, b: seq<Item>)
    requires At(ts, i, a + b)
    ensures At(ts, i, a) && At(ts, i + |a|, b)
  {
    forall k | 0 <= k < |b|
      ensures ts[i + |a| + k] == b[k]
    {
      assert (a + b)[|a| + k] == b[k];
    }
    forall k | 0 <= k < |a|
      ensures ts[i + k] == a[k]
    {
      assert (a + b)[k] == a[k];
    }
  }

  /** The items of a fragment where it stands. */
  lemma ItemAt(ts: seq<Item>, i: nat, fragment: seq<Item>, k: nat)
    requires At(ts, i, fragment) && k < |fragment|
    ensures i + |fragment| <= |ts| && ts[i + k] == fragment[k]
  {
  }

  /** Text put together in a different order is the same text. */
  lemma Regroup(a: seq<Item>, b: seq<Item>, c: seq<Item>, d: seq<Item>, e: seq<Item>)
    ensures a + b + c + (d + e) == a + (b + (c + (d + e)))
    ensures a + (b + (c + d) + e) == a + (b + (c + (d + e)))
  {
  }
}
