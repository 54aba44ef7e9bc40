/**
  Source spans: which stretch of the SQL text the reduce actions of parse.c record for an expression.

  A span should run from the start of the first token of an expression to the end of its last.  It does, for
  every derivation, unless the text of the expression ends with the argument list of a table-valued function.
 */
module ExprSpan {

  /** Tokens are known by where they lie in the text. */
  datatype Token = Token(z: nat, n: nat)

  function End(t: Token): nat { t.z + t.n }

  datatype Option<T> = None | Some(value: T)

  /** An argument list: LP exprlist RP */
  datatype Args = Args(lp: Token, inner: seq<Token>, rp: Token)

  /** Derivations of expr, one constructor for each way to compute the span.  What spans ignore is kept as tokens. */
  datatype Expr =
    | Leaf(t: Token)                                                    // rules 151-153, 156-159, 164
    | Paren(lp: Token, e: Expr, rp: Token)                              // rule 150
    // rules 154, 155, 161-163, 165, 192, 195, 196, 247, 248
    | Enclosed(first: Token, inner: seq<Token>, last: Token)
    | Prefix(op: Token, e: Expr)                                        // rules 182-185
    | Postfix(e: Expr, ops: seq<Token>, last: Token)                    // rules 160, 178, 179
    | Binary(l: Expr, ops: seq<Token>, r: Expr)                         // rules 166-173, 176, 180, 181
    | Ternary(l: Expr, ops: seq<Token>, m: Expr, op: Token, r: Expr)    // rules 177, 188
    | InParens(e: Expr, ops: seq<Token>, args: Args)                    // rules 191, 193
    | InTable(e: Expr, ops: seq<Token>, nm: Token, dbnm: Option<(Token, Token)>, list: Option<Args>)  // rule 194

  // ---------------------------------------------------------------- the text

  function ArgsYield(a: Args): (y: seq<Token>)
    ensures |y| > 0
  {
    [a.lp] + a.inner + [a.rp]
  }

  /** nm dbnm: a name, or a schema, a dot and a name. */
  function NameYield(nm: Token, dbnm: Option<(Token, Token)>): (y: seq<Token>)
    ensures |y| > 0
  {
    [nm] + if dbnm.Some? then [dbnm.value.0, dbnm.value.1] else []
  }

  /** The tokens of an expression. */
  function Yield(e: Expr): (y: seq<Token>)
    ensures |y| > 0
  {
    match e
    case Leaf(t) => [t]
    case Paren(lp, a, rp) => [lp] + Yield(a) + [rp]
    case Enclosed(first, inner, last) => [first] + inner + [last]
    case Prefix(op, a) => [op] + Yield(a)
    case Postfix(a, ops, last) => Yield(a) + ops + [last]
    case Binary(l, ops, r) => Yield(l) + ops + Yield(r)
    case Ternary(l, ops, m, op, r) => Yield(l) + ops + Yield(m) + [op] + Yield(r)
    case InParens(a, ops, args) => Yield(a) + ops + ArgsYield(args)
    case InTable(a, ops, nm, dbnm, list) =>
      Yield(a) + ops + NameYield(nm, dbnm) + if list.Some? then ArgsYield(list.value) else []
  }

  /** Tokens lie one after the other in the text, none of them empty and none at address zero. */
  predicate LaidOut(y: seq<Token>) {
    && (forall i :: 0 <= i < |y| ==> y[i].z > 0 && y[i].n > 0)
    && (forall i, j :: 0 <= i < j < |y| ==> End(y[i]) <= y[j].z)
  }

  // ---------------------------------------------------------------- the spans

  datatype Span = Span(zStart: nat, zEnd: nat)

  /** The span that the actions leave for an expression. */
  function SpanOf(e: Expr): Span {
    match e
    case Leaf(t) => Span(t.z, End(t))
    case Paren(lp, _, rp) => Span(lp.z, End(rp))
    case Enclosed(first, _, last) => Span(first.z, End(last))
    case Prefix(op, a) => Span(op.z, SpanOf(a).zEnd)
    case Postfix(a, _, last) => SpanOf(a).(zEnd := End(last))
    case Binary(l, _, r) => SpanOf(l).(zEnd := SpanOf(r).zEnd)
    case Ternary(l, _, _, _, r) => SpanOf(l).(zEnd := SpanOf(r).zEnd)
    case InParens(a, _, args) => SpanOf(a).(zEnd := End(args.rp))
    case InTable(a, _, nm, dbnm, _) => SpanOf(a).(zEnd := if dbnm.Some? then End(dbnm.value.1) else End(nm))
  }

  /** The rightmost path through the derivation ends in a table name with an argument list. */
  predicate EndsInTableArgs(e: Expr) {
    match e
    case Prefix(_, a) => EndsInTableArgs(a)
    case Binary(_, _, r) => EndsInTableArgs(r)
    case Ternary(_, _, _, _, r) => EndsInTableArgs(r)
    case InTable(_, _, _, _, list) => list.Some?
    case _ => false
  }

  /** How many tokens at the end the span leaves out. */
  function Dropped(e: Expr): nat {
    match e
    case Prefix(_, a) => Dropped(a)
    case Binary(_, _, r) => Dropped(r)
    case Ternary(_, _, _, _, r) => Dropped(r)
    case InTable(_, _, _, _, Some(args)) => |ArgsYield(args)|
    case _ => 0
  }

  /** A span from the first of these tokens to the last but d. */
  predicate Covers(s: Span, y: seq<Token>, d: nat) {
    d < |y| && s.zStart == y[0].z && s.zEnd == End(y[|y| - 1 - d])
  }

  lemma CoversEnclosed(first: Token, inner: seq<Token>, last: Token)
    ensures Covers(Span(first.z, End(last)), [first] + inner + [last], 0)
  {
  }

  lemma CoversPrefixed(op: Token, s: Span, y: seq<Token>, d: nat)
    requires Covers(s, y, d)
    ensures Covers(Span(op.z, s.zEnd), [op] + y, d)
  {
    assert ([op] + y)[|y| - d] == y[|y| - 1 - d];
  }

  lemma CoversJoined(s: Span, y: seq<Token>, d: nat, ops: seq<Token>, t: Span, z: seq<Token>, c: nat)
    requires Covers(s, y, d) && Covers(t, z, c)
    ensures Covers(s.(zEnd := t.zEnd), y + ops + z, c)
  {
    assert (y + ops + z)[|y + ops| + (|z| - 1 - c)] == z[|z| - 1 - c];
  }

  /** The tokens that follow the operand of rule 194: the name ends its span, the argument list is dropped. */
  lemma CoversName(nm: Token, dbnm: Option<(Token, Token)>, list: Option<Args>)
    ensures var z := NameYield(nm, dbnm) + if list.Some? then ArgsYield(list.value) else [];
      Covers(Span(nm.z, if dbnm.Some? then End(dbnm.value.1) else End(nm)), z,
        if list.Some? then |ArgsYield(list.value)| else 0)
  {
  }

  /** The start is exact, and the end is that of the last token that is not dropped: no layout is needed for this. */
  lemma {:induction false} SpanCoversKeptTokens(e: Expr)
    ensures Covers(SpanOf(e), Yield(e), Dropped(e)) && (Dropped(e) > 0 <==> EndsInTableArgs(e))
  {
    hide Covers, ArgsYield, NameYield;
    match e
    case Leaf(t) => CoversLeaf(t);
    case Paren(lp, a, rp) => CoversEnclosed(lp, Yield(a), rp);
    case Enclosed(first, inner, last) => CoversEnclosed(first, inner, last);
    case Prefix(op, a) =>
      SpanCoversKeptTokens(a);
      CoversPrefixed(op, SpanOf(a), Yield(a), Dropped(a));
    case Postfix(a, ops, last) =>
      SpanCoversKeptTokens(a);
      CoversLeaf(last);
      CoversJoined(SpanOf(a), Yield(a), Dropped(a), ops, Span(last.z, End(last)), [last], 0);
    case Binary(l, ops, r) =>
      SpanCoversKeptTokens(l);
      SpanCoversKeptTokens(r);
      CoversJoined(SpanOf(l), Yield(l), Dropped(l), ops, SpanOf(r), Yield(r), Dropped(r));
    case Ternary(l, ops, m, op, r) =>
      SpanCoversKeptTokens(l);
      SpanCoversKeptTokens(r);
      var between := ops + Yield(m) + [op];
      assert Yield(e) == Yield(l) + between + Yield(r);
      CoversJoined(SpanOf(l), Yield(l), Dropped(l), between, SpanOf(r), Yield(r), Dropped(r));
    case InParens(a, ops, args) =>
      SpanCoversKeptTokens(a);
      CoversArgs(args);
      CoversJoined(SpanOf(a), Yield(a), Dropped(a), ops, Span(args.lp.z, End(args.rp)), ArgsYield(args), 0);
    case InTable(a, ops, nm, dbnm, list) =>
      SpanCoversKeptTokens(a);
      CoversName(nm, dbnm, list);
      var z := NameYield(nm, dbnm) + if list.Some? then ArgsYield(list.value) else [];
      assert Yield(e) == Yield(a) + ops + z;
      CoversJoined(SpanOf(a), Yield(a), Dropped(a), ops,
        Span(nm.z, if dbnm.Some? then End(dbnm.value.1) else End(nm)), z, Dropped(e));
  }

  lemma CoversLeaf(t: Token)
    ensures Covers(Span(t.z, End(t)), [t], 0)
  {
  }

  lemma CoversArgs(a: Args)
    ensures Covers(Span(a.lp.z, End(a.rp)), ArgsYield(a), 0)
  {
  }

  /** In a text, the end is exact if and only if the expression does not end in table arguments. */
  lemma SpanIsExactIff(e: Expr)
    requires LaidOut(Yield(e))
    ensures SpanOf(e).zStart == Yield(e)[0].z
    ensures SpanOf(e).zEnd == End(Yield(e)[|Yield(e)| - 1]) <==> !EndsInTableArgs(e)
    ensures SpanOf(e).zStart < SpanOf(e).zEnd <= End(Yield(e)[|Yield(e)| - 1])
  {
    hide Yield, SpanOf, Dropped, EndsInTableArgs;
    SpanCoversKeptTokens(e);
    var y := Yield(e);
    var last, kept := |y| - 1, |y| - 1 - Dropped(e);
    assert kept > 0 ==> End(y[0]) <= y[kept].z;
    assert kept < last ==> End(y[kept]) <= y[last].z;
  }

  /** Closing the expression off, by parentheses or any trailing token, makes the end exact again. */
  lemma ClosingMakesExact(e: Expr, lp: Token, rp: Token)
    ensures var p := Paren(lp, e, rp); SpanOf(p) == Span(Yield(p)[0].z, End(Yield(p)[|Yield(p)| - 1]))
    ensures var p := Postfix(e, [], rp); SpanOf(p) == Span(Yield(p)[0].z, End(Yield(p)[|Yield(p)| - 1]))
  {
    SpanCoversKeptTokens(Paren(lp, e, rp));
    SpanCoversKeptTokens(Postfix(e, [], rp));
  }
}
