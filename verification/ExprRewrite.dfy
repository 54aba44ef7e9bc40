/**
  Expression rewriting: the reduce actions of parse.c for AND, IN, IS, BETWEEN and CASE do not build what was
  written, but trees that should have the same value.

  The value of the source follows ISO/IEC 9075:1992 (8.3 BETWEEN, 8.4 IN, 8.6 NULL, 6.9 CASE), with the empty IN
  list and IS on two operands as SQLite adds them.  The value of a built tree follows what the code generator
  makes of each node.
 */
module ExprRewrite {

  datatype Option<T> = None | Some(value: T)

  // ---------------------------------------------------------------- three-valued logic

  /** Values other than NULL are known by number; 0 is false, all others are true. */
  datatype Value = Null | V(k: int)

  function Bool(b: bool): Value { if b then V(1) else V(0) }

  predicate IsTrue(v: Value) { v.V? && v.k != 0 }

  predicate IsFalse(v: Value) { v.V? && v.k == 0 }

  function Not3(a: Value): Value {
    if a.Null? then Null else Bool(IsFalse(a))
  }

  function And3(a: Value, b: Value): Value {
    if IsFalse(a) || IsFalse(b) then Bool(false) else if IsTrue(a) && IsTrue(b) then Bool(true) else Null
  }

  function Or3(a: Value, b: Value): Value {
    if IsTrue(a) || IsTrue(b) then Bool(true) else if IsFalse(a) && IsFalse(b) then Bool(false) else Null
  }

  datatype Order = Lt | Le | Gt | Ge

  /** Columns, sub-selects of one column, the collation's equality and order, and all other operators. */
  datatype Env = Env(
    col: nat -> Value,
    rows: nat -> seq<Value>,
    eq: (int, int) -> bool,
    cmp: (Order, int, int) -> bool,
    apply: (nat, seq<Value>) -> Value)
  {
    function Col(n: nat): Value { col(n) }

    function Rows(q: nat): seq<Value> { rows(q) }

    function Apply(f: nat, vs: seq<Value>): Value { apply(f, vs) }

    predicate Equal(a: int, b: int) { eq(a, b) }

    predicate Ordered(op: Order, a: int, b: int) { cmp(op, a, b) }
  }

  function Eq3(env: Env, a: Value, b: Value): Value {
    if a.Null? || b.Null? then Null else Bool(env.Equal(a.k, b.k))
  }

  function Ne3(env: Env, a: Value, b: Value): Value {
    if a.Null? || b.Null? then Null else Bool(!env.Equal(a.k, b.k))
  }

  function Order3(env: Env, op: Order, a: Value, b: Value): Value {
    if a.Null? || b.Null? then Null else Bool(env.Ordered(op, a.k, b.k))
  }

  /** SQLITE_NULLEQ: NULL is the same as NULL and as nothing else. */
  predicate Same(env: Env, a: Value, b: Value) {
    if a.Null? || b.Null? then a == b else env.Equal(a.k, b.k)
  }

  function Negated(a: Value): Value {
    if a.Null? then Null else V(-a.k)
  }

  // ---------------------------------------------------------------- NULL as a truth value not known

  function Number(b: bool): int { if b then 1 else 0 }

  /** What the value can turn out to be as a condition: NULL can be either. */
  predicate CanBe(v: Value, b: bool) {
    v.Null? || (b <==> v.k != 0)
  }

  lemma SomethingCanBe(v: Value)
    ensures CanBe(v, true) || CanBe(v, false)
    ensures v.Null? <==> CanBe(v, true) && CanBe(v, false)
  {
  }

  /** AND is decided exactly if it comes out the same whatever its NULL operands are, and is NULL otherwise. */
  lemma AndIsDecidedIff(a: Value, b: Value, c: bool)
    ensures And3(a, b) == V(Number(c)) <==> forall p, q :: CanBe(a, p) && CanBe(b, q) ==> (p && q) == c
    ensures And3(a, b) in {V(0), V(1), Null}
  {
    SomethingCanBe(a);
    SomethingCanBe(b);
    assert forall p, q :: CanBe(a, p) && CanBe(b, q) ==> CanBe(And3(a, b), p && q);
  }

  lemma OrIsDecidedIff(a: Value, b: Value, c: bool)
    ensures Or3(a, b) == V(Number(c)) <==> forall p, q :: CanBe(a, p) && CanBe(b, q) ==> (p || q) == c
    ensures Or3(a, b) in {V(0), V(1), Null}
  {
    SomethingCanBe(a);
    SomethingCanBe(b);
    assert forall p, q :: CanBe(a, p) && CanBe(b, q) ==> CanBe(Or3(a, b), p || q);
  }

  lemma NotIsDecidedIff(a: Value, c: bool)
    ensures Not3(a) == V(Number(c)) <==> forall p :: CanBe(a, p) ==> !p == c
    ensures Not3(a) in {V(0), V(1), Null}
  {
    SomethingCanBe(a);
  }

  /** A comparison is NULL exactly if an operand is; IS never is, and takes two NULLs for the same. */
  lemma ComparisonIsNullIff(env: Env, op: Order, a: Value, b: Value)
    ensures Eq3(env, a, b) == Null <==> a == Null || b == Null
    ensures Ne3(env, a, b) == Not3(Eq3(env, a, b))
    ensures Order3(env, op, a, b) == Null <==> a == Null || b == Null
    ensures a != Null && b != Null ==>
      Eq3(env, a, b) == V(Number(env.eq(a.k, b.k))) && Order3(env, op, a, b) == V(Number(env.cmp(op, a.k, b.k)))
    ensures Same(env, a, b) <==> (a == Null && b == Null) || Eq3(env, a, b) == V(1)
    ensures Negated(a) == Null <==> a == Null
    ensures a != Null ==> Negated(a).k + a.k == 0
  {
  }

  // ---------------------------------------------------------------- source text

  /** case_exprlist */
  datatype Whens = NoMore | When(test: Surface, result: Surface, rest: Whens)

  /** An expression as written.  `clean` on AND: no error had been reported when the rule was reduced. */
  datatype Surface =
    | Column(n: nat)
    | NullLiteral
    | Integer(i: nat)
    | Paren(e: Surface)
    | Not(e: Surface)
    | Plus(e: Surface)
    | Minus(e: Surface)
    | And(l: Surface, r: Surface, clean: bool)
    | Or(l: Surface, r: Surface)
    | Equal(l: Surface, r: Surface)
    | NotEqual(l: Surface, r: Surface)
    | Ordered(order: Order, l: Surface, r: Surface)
    | Apply(f: nat, args: seq<Surface>)
    | In(negated: bool, e: Surface, list: seq<Surface>)
    | InSelect(negated: bool, e: Surface, q: nat)
    | Between(negated: bool, e: Surface, lo: Surface, hi: Surface)
    | IsNull(e: Surface)
    | NotNull(e: Surface)
    | Is(negated: bool, l: Surface, r: Surface)
    | Case(operand: Option<Surface>, whens: Whens, otherwise: Option<Surface>)

  /** x IN (y1, ..., yn): x = y1 OR ... OR x = yn, false for the empty list. */
  function AnyEqual(env: Env, x: Value, ys: seq<Value>): Value {
    if |ys| == 0 then Bool(false) else Or3(Eq3(env, x, ys[0]), AnyEqual(env, x, ys[1..]))
  }

  function Negate(negated: bool, v: Value): Value {
    if negated then Not3(v) else v
  }

  /** The value of the source text. */
  function Meaning(s: Surface, env: Env): Value
    decreases s
  {
    match s
    case Column(n) => env.Col(n)
    case NullLiteral => Null
    case Integer(i) => V(i)
    case Paren(e) => Meaning(e, env)
    case Not(e) => Not3(Meaning(e, env))
    case Plus(e) => Meaning(e, env)
    case Minus(e) => Negated(Meaning(e, env))
    case And(l, r, _) => And3(Meaning(l, env), Meaning(r, env))
    case Or(l, r) => Or3(Meaning(l, env), Meaning(r, env))
    case Equal(l, r) => Eq3(env, Meaning(l, env), Meaning(r, env))
    case NotEqual(l, r) => Ne3(env, Meaning(l, env), Meaning(r, env))
    case Ordered(op, l, r) => Order3(env, op, Meaning(l, env), Meaning(r, env))
    case Apply(f, args) => env.Apply(f, Meanings(args, env))
    case In(negated, e, list) => Negate(negated, AnyEqual(env, Meaning(e, env), Meanings(list, env)))
    case InSelect(negated, e, q) => Negate(negated, AnyEqual(env, Meaning(e, env), env.Rows(q)))
    case Between(negated, e, lo, hi) =>
      var x := Meaning(e, env);
      Negate(negated, And3(Order3(env, Ge, x, Meaning(lo, env)), Order3(env, Le, x, Meaning(hi, env))))
    case IsNull(e) => Bool(Meaning(e, env).Null?)
    case NotNull(e) => Bool(!Meaning(e, env).Null?)
    case Is(negated, l, r) => Bool(Same(env, Meaning(l, env), Meaning(r, env)) != negated)
    case Case(operand, whens, otherwise) =>
      var last := if otherwise.Some? then Meaning(otherwise.value, env) else Null;
      if operand.Some? then FirstEqual(Meaning(operand.value, env), whens, last, env)
      else FirstTrue(whens, last, env)
  }

  function Meanings(list: seq<Surface>, env: Env): (vs: seq<Value>)
    ensures |vs| == |list|
    decreases list
  {
    if |list| == 0 then [] else [Meaning(list[0], env)] + Meanings(list[1..], env)
  }

  /** Searched CASE: the result of the first WHEN that is true. */
  function FirstTrue(whens: Whens, last: Value, env: Env): Value
    decreases whens
  {
    match whens
    case NoMore => last
    case When(test, result, rest) =>
      if IsTrue(Meaning(test, env)) then Meaning(result, env) else FirstTrue(rest, last, env)
  }

  /** Simple CASE: the result of the first WHEN equal to the operand. */
  function FirstEqual(x: Value, whens: Whens, last: Value, env: Env): Value
    decreases whens
  {
    match whens
    case NoMore => last
    case When(test, result, rest) =>
      if IsTrue(Eq3(env, x, Meaning(test, env))) then Meaning(result, env)
      else FirstEqual(x, rest, last, env)
  }

  // ---------------------------------------------------------------- what the standard says the forms stand for

  /** Each WHEN of a simple CASE as the comparison it stands for. */
  function Searched(x: Surface, whens: Whens): Whens {
    match whens
    case NoMore => NoMore
    case When(test, result, rest) => When(Equal(x, test), result, Searched(x, rest))
  }

  lemma {:induction false} SimpleIsSearched(x: Surface, whens: Whens, last: Value, env: Env)
    ensures FirstEqual(Meaning(x, env), whens, last, env) == FirstTrue(Searched(x, whens), last, env)
    decreases whens
  {
    hide Eq3;
    if whens.When? {
      SimpleIsSearched(x, whens.rest, last, env);
    }
  }

  /** CASE x WHEN t THEN r ... stands for CASE WHEN x = t THEN r ... */
  lemma CaseLaw(x: Surface, whens: Whens, otherwise: Option<Surface>, env: Env)
    ensures Meaning(Case(Some(x), whens, otherwise), env) == Meaning(Case(None, Searched(x, whens), otherwise), env)
  {
    hide FirstTrue, FirstEqual;
    SimpleIsSearched(x, whens, if otherwise.Some? then Meaning(otherwise.value, env) else Null, env);
  }

  /** CASE WHEN t THEN r ... is r if t is certainly true, and otherwise what the rest is. */
  lemma WhenLaw(test: Surface, result: Surface, rest: Whens, otherwise: Option<Surface>, env: Env)
    ensures Meaning(Case(None, When(test, result, rest), otherwise), env) ==
      if CanBe(Meaning(test, env), false) then Meaning(Case(None, rest, otherwise), env) else Meaning(result, env)
    ensures Meaning(Case(None, NoMore, otherwise), env) ==
      if otherwise.Some? then Meaning(otherwise.value, env) else Null
  {
  }

  /** x BETWEEN lo AND hi stands for x >= lo AND x <= hi. */
  lemma BetweenLaw(e: Surface, lo: Surface, hi: Surface, clean: bool, env: Env)
    ensures Meaning(Between(false, e, lo, hi), env) == Meaning(And(Ordered(Ge, e, lo), Ordered(Le, e, hi), clean), env)
    ensures Meaning(Between(true, e, lo, hi), env) == Meaning(Not(Between(false, e, lo, hi)), env)
  {
    hide And3, Order3, Not3;
  }

  /** The negated forms stand for NOT. */
  lemma NotInLaw(e: Surface, list: seq<Surface>, q: nat, env: Env)
    ensures Meaning(In(true, e, list), env) == Meaning(Not(In(false, e, list)), env)
    ensures Meaning(InSelect(true, e, q), env) == Meaning(Not(InSelect(false, e, q)), env)
  {
    hide AnyEqual, Not3, Meanings;
  }

  lemma NotEqualLaw(l: Surface, r: Surface, env: Env)
    ensures Meaning(NotEqual(l, r), env) == Meaning(Not(Equal(l, r)), env)
    ensures Meaning(Is(true, l, r), env) == Meaning(Not(Is(false, l, r)), env)
  {
    var a, b := Meaning(l, env), Meaning(r, env);
    ComparisonIsNullIff(env, Lt, a, b);
  }

  lemma IsNullLaw(e: Surface, env: Env)
    ensures Meaning(IsNull(e), env) == Meaning(Is(false, e, NullLiteral), env)
    ensures Meaning(NotNull(e), env) == Meaning(Not(IsNull(e)), env)
  {
  }

  /** x IN (y, ...) stands for x = y OR x IN (...), and nothing is in the empty list. */
  lemma InLaw(e: Surface, list: seq<Surface>, env: Env)
    ensures |list| == 0 ==> Meaning(In(false, e, list), env) == V(0)
    ensures |list| > 0 ==>
      Meaning(In(false, e, list), env) == Meaning(Or(Equal(e, list[0]), In(false, e, list[1..])), env)
  {
    hide Or3, Eq3;
    if |list| > 0 {
      assert Meanings(list, env)[1..] == Meanings(list[1..], env);
    }
  }

  /** x IN (SELECT ...) is the disjunction over the rows of the sub-select. */
  lemma RowsLaw(e: Surface, q: nat, env: Env)
    ensures Meaning(InSelect(false, e, q), env) == AnyEqual(env, Meaning(e, env), env.rows(q))
    ensures env.rows(q) == [] ==> Meaning(InSelect(false, e, q), env) == V(0)
  {
  }

  lemma LeafLaw(n: nat, f: nat, args: seq<Surface>, env: Env)
    ensures Meaning(Column(n), env) == env.col(n) && Meaning(Integer(n), env) == V(n)
    ensures Meaning(NullLiteral, env) == Null && Meaning(Apply(f, args), env) == env.apply(f, Meanings(args, env))
  {
  }

  // ---------------------------------------------------------------- built trees

  /** Expr nodes, named after their operators.  IN and BETWEEN keep their lists in x.pList. */
  datatype Expr =
    | TkColumn(n: nat)
    | TkNull
    | TkInteger(i: nat)
    | TkNot(e: Expr)
    | TkUPlus(e: Expr)
    | TkUMinus(e: Expr)
    | TkAnd(l: Expr, r: Expr)
    | TkOr(l: Expr, r: Expr)
    | TkEq(l: Expr, r: Expr)
    | TkNe(l: Expr, r: Expr)
    | TkOrder(order: Order, l: Expr, r: Expr)
    | TkFunction(f: nat, args: seq<Expr>)
    | TkIn(e: Expr, list: seq<Expr>)
    | TkInSelect(e: Expr, q: nat)
    | TkBetween(e: Expr, list: seq<Expr>)
    | TkIsNull(e: Expr)
    | TkNotNull(e: Expr)
    | TkIs(l: Expr, r: Expr)
    | TkIsNot(l: Expr, r: Expr)
    | TkCase(operand: Option<Expr>, list: seq<Expr>)

  /** The comparisons of a TK_IN list, then the check for NULL in the collected BitAnd. */
  function SearchList(env: Env, x: Value, ys: seq<Value>): Value {
    if exists i :: 0 <= i < |ys| && IsTrue(Eq3(env, x, ys[i])) then Bool(true)
    else if x.Null? || Null in ys then Null
    else Bool(false)
  }

  /** TK_IN over a sub-select: an empty one is false even for NULL on the left. */
  function SearchRows(env: Env, x: Value, ys: seq<Value>): Value {
    if x.Null? then (if |ys| == 0 then Bool(false) else Null)
    else SearchList(env, x, ys)
  }

  /** TK_CASE: tests and results alternate, and an odd one out is the ELSE. */
  function CaseValue(env: Env, x: Option<Value>, vs: seq<Value>): Value {
    if |vs| == 0 then Null
    else if |vs| == 1 then vs[0]
    else if IsTrue(if x.Some? then Eq3(env, x.value, vs[0]) else vs[0]) then vs[1]
    else CaseValue(env, x, vs[2..])
  }

  /** The value the code generator computes for a tree. */
  function Eval(e: Expr, env: Env): Value
    decreases e
  {
    match e
    case TkColumn(n) => env.Col(n)
    case TkNull => Null
    case TkInteger(i) => V(i)
    case TkNot(a) => Not3(Eval(a, env))
    case TkUPlus(a) => Eval(a, env)
    case TkUMinus(a) => Negated(Eval(a, env))
    case TkAnd(l, r) => And3(Eval(l, env), Eval(r, env))
    case TkOr(l, r) => Or3(Eval(l, env), Eval(r, env))
    case TkEq(l, r) => Eq3(env, Eval(l, env), Eval(r, env))
    case TkNe(l, r) => Ne3(env, Eval(l, env), Eval(r, env))
    case TkOrder(op, l, r) => Order3(env, op, Eval(l, env), Eval(r, env))
    case TkFunction(f, args) => env.Apply(f, Evals(args, env))
    case TkIn(a, list) => SearchList(env, Eval(a, env), Evals(list, env))
    case TkInSelect(a, q) => SearchRows(env, Eval(a, env), env.Rows(q))
    case TkBetween(a, list) =>
      var x, vs := Eval(a, env), Evals(list, env);
      if |vs| == 2 then And3(Order3(env, Ge, x, vs[0]), Order3(env, Le, x, vs[1])) else Null
    case TkIsNull(a) => Bool(Eval(a, env).Null?)
    case TkNotNull(a) => Bool(!Eval(a, env).Null?)
    case TkIs(l, r) => Bool(Same(env, Eval(l, env), Eval(r, env)))
    case TkIsNot(l, r) => Bool(!Same(env, Eval(l, env), Eval(r, env)))
    case TkCase(operand, list) =>
      CaseValue(env, if operand.Some? then Some(Eval(operand.value, env)) else None, Evals(list, env))
  }

  function Evals(list: seq<Expr>, env: Env): (vs: seq<Value>)
    ensures |vs| == |list|
    decreases list
  {
    if |list| == 0 then [] else [Eval(list[0], env)] + Evals(list[1..], env)
  }

  // ---------------------------------------------------------------- the reduce actions

  const MAX_INT := 0x7FFF_FFFF

  /** sqlite3ExprIsInteger: a literal of 32 bits, under any signs. */
  function IsInteger(e: Expr): Option<int> {
    match e
    case TkInteger(i) => if i <= MAX_INT then Some(i) else None
    case TkUPlus(a) => IsInteger(a)
    case TkUMinus(a) => (match IsInteger(a) case Some(v) => Some(-v) case None => None)
    case _ => None
  }

  /** sqlite3ExprAnd, used while no error has been reported: a constant zero swallows the other operand. */
  function ExprAnd(l: Expr, r: Expr): Expr {
    if IsInteger(l) == Some(0) || IsInteger(r) == Some(0) then TkInteger(0) else TkAnd(l, r)
  }

  function ExprNot(doNot: bool, e: Expr): Expr {
    if doNot then TkNot(e) else e
  }

  /** binaryToUnaryIfNull on IS and IS NOT: a right operand that is the literal NULL makes the test unary. */
  function IsOrUnary(negated: bool, l: Expr, r: Expr): Expr {
    if r.TkNull? then (if negated then TkNotNull(l) else TkIsNull(l))
    else if negated then TkIsNot(l, r) else TkIs(l, r)
  }

  /** expr ::= expr in_op LP exprlist RP: none, one and many items are built differently. */
  function InList(negated: bool, l: Expr, list: seq<Expr>): Expr {
    if |list| == 0 then TkInteger(if negated then 1 else 0)
    else if |list| == 1 then (if negated then TkNe(l, list[0]) else TkEq(l, list[0]))
    else ExprNot(negated, TkIn(l, list))
  }

  /** The tree built for an expression. */
  function Build(s: Surface): Expr
    decreases s
  {
    match s
    case Column(n) => TkColumn(n)
    case NullLiteral => TkNull
    case Integer(i) => TkInteger(i)
    case Paren(e) => Build(e)
    case Not(e) => TkNot(Build(e))
    case Plus(e) => TkUPlus(Build(e))
    case Minus(e) => TkUMinus(Build(e))
    case And(l, r, clean) => if clean then ExprAnd(Build(l), Build(r)) else TkAnd(Build(l), Build(r))
    case Or(l, r) => TkOr(Build(l), Build(r))
    case Equal(l, r) => TkEq(Build(l), Build(r))
    case NotEqual(l, r) => TkNe(Build(l), Build(r))
    case Ordered(op, l, r) => TkOrder(op, Build(l), Build(r))
    case Apply(f, args) => TkFunction(f, Builds(args))
    case In(negated, e, list) => InList(negated, Build(e), Builds(list))
    case InSelect(negated, e, q) => ExprNot(negated, TkInSelect(Build(e), q))
    case Between(negated, e, lo, hi) => ExprNot(negated, TkBetween(Build(e), [Build(lo), Build(hi)]))
    case IsNull(e) => TkIsNull(Build(e))
    case NotNull(e) => TkNotNull(Build(e))
    case Is(negated, l, r) => IsOrUnary(negated, Build(l), Build(r))
    case Case(operand, whens, otherwise) =>
      TkCase(
        if operand.Some? then Some(Build(operand.value)) else None,
        BuildWhens(whens) + if otherwise.Some? then [Build(otherwise.value)] else [])
  }

  function Builds(list: seq<Surface>): (es: seq<Expr>)
    ensures |es| == |list|
    decreases list
  {
    if |list| == 0 then [] else [Build(list[0])] + Builds(list[1..])
  }

  function BuildWhens(whens: Whens): seq<Expr>
    decreases whens
  {
    match whens
    case NoMore => []
    case When(test, result, rest) => [Build(test), Build(result)] + BuildWhens(rest)
  }

  // ---------------------------------------------------------------- IN

  /** Searching a list gives the disjunction of its comparisons unless the list is empty and the operand NULL. */
  lemma {:induction false} SearchIsAnyEqual(env: Env, x: Value, ys: seq<Value>)
    ensures SearchList(env, x, ys) == AnyEqual(env, x, ys) <==> |ys| > 0 || x.V?
    ensures |ys| > 0 || x.V? ==> SearchList(env, x, ys) == AnyEqual(env, x, ys)
  {
    if |ys| > 0 {
      assert ys == [ys[0]] + ys[1..];
      SearchIsAnyEqual(env, x, ys[1..]);
      SearchOneMore(env, x, ys);
      if |ys| == 1 {
        assert AnyEqual(env, x, ys[1..]) == Bool(false);
      }
    }
  }

  lemma SearchOneMore(env: Env, x: Value, ys: seq<Value>)
    requires |ys| > 0
    ensures IsTrue(SearchList(env, x, ys)) <==> IsTrue(Eq3(env, x, ys[0])) || IsTrue(SearchList(env, x, ys[1..]))
    ensures IsFalse(SearchList(env, x, ys)) <==>
      IsFalse(Eq3(env, x, ys[0])) && (|ys| == 1 || IsFalse(SearchList(env, x, ys[1..])))
  {
    var rest := ys[1..];
    if i :| 0 <= i < |ys| && IsTrue(Eq3(env, x, ys[i])) {
      assert i > 0 ==> rest[i - 1] == ys[i];
    }
    if i :| 0 <= i < |rest| && IsTrue(Eq3(env, x, rest[i])) {
      assert ys[i + 1] == rest[i];
    }
    assert Null in ys <==> ys[0] == Null || Null in rest;
  }

  /** Searching a sub-select gives the disjunction for every operand. */
  lemma {:induction false} RowsAreAnyEqual(env: Env, x: Value, ys: seq<Value>)
    ensures SearchRows(env, x, ys) == AnyEqual(env, x, ys)
  {
    SearchIsAnyEqual(env, x, ys);
  }

  // ---------------------------------------------------------------- values of single nodes

  lemma LeafValues(i: nat, env: Env)
    ensures Eval(TkNull, env) == Null && Eval(TkInteger(i), env) == V(i)
  {
  }

  lemma UnaryValues(e: Expr, env: Env, v: Value)
    requires Eval(e, env) == v
    ensures Eval(TkNot(e), env) == Not3(v)
    ensures Eval(TkIsNull(e), env) == Bool(v.Null?)
    ensures Eval(TkNotNull(e), env) == Bool(!v.Null?)
  {
    hide Bool, Not3;
  }

  lemma SignValues(e: Expr, env: Env, v: Value)
    requires Eval(e, env) == v
    ensures Eval(TkUPlus(e), env) == v && Eval(TkUMinus(e), env) == Negated(v)
  {
    hide Negated;
  }

  lemma LogicValues(l: Expr, r: Expr, env: Env, v: Value, w: Value)
    requires Eval(l, env) == v && Eval(r, env) == w
    ensures Eval(TkAnd(l, r), env) == And3(v, w) && Eval(TkOr(l, r), env) == Or3(v, w)
  {
    hide And3, Or3;
  }

  lemma EqualityValues(l: Expr, r: Expr, env: Env, v: Value, w: Value)
    requires Eval(l, env) == v && Eval(r, env) == w
    ensures Eval(TkEq(l, r), env) == Eq3(env, v, w) && Eval(TkNe(l, r), env) == Ne3(env, v, w)
  {
    hide Eq3, Ne3;
  }

  lemma IsValues(l: Expr, r: Expr, env: Env, v: Value, w: Value)
    requires Eval(l, env) == v && Eval(r, env) == w
    ensures Eval(TkIs(l, r), env) == Bool(Same(env, v, w)) && Eval(TkIsNot(l, r), env) == Bool(!Same(env, v, w))
  {
    hide Same, Bool;
  }

  lemma OrderValue(op: Order, l: Expr, r: Expr, env: Env, v: Value, w: Value)
    requires Eval(l, env) == v && Eval(r, env) == w
    ensures Eval(TkOrder(op, l, r), env) == Order3(env, op, v, w)
  {
    hide Order3;
  }

  lemma InSelectValue(e: Expr, q: nat, env: Env, v: Value)
    requires Eval(e, env) == v
    ensures Eval(TkInSelect(e, q), env) == SearchRows(env, v, env.Rows(q))
  {
    hide SearchRows;
  }

  lemma InValue(e: Expr, list: seq<Expr>, env: Env)
    ensures Eval(TkIn(e, list), env) == SearchList(env, Eval(e, env), Evals(list, env))
  {
    hide SearchList, Evals;
  }

  lemma BetweenValue(e: Expr, lo: Expr, hi: Expr, env: Env)
    ensures Eval(TkBetween(e, [lo, hi]), env) == And3(
      Order3(env, Ge, Eval(e, env), Eval(lo, env)), Order3(env, Le, Eval(e, env), Eval(hi, env)))
  {
    hide And3, Order3;
    EvalsOfTwo(lo, hi, env);
  }

  lemma EvalsOfTwo(a: Expr, b: Expr, env: Env)
    ensures Evals([a, b], env) == [Eval(a, env), Eval(b, env)]
  {
    hide Eval;
    assert [a, b][1..] == [b];
  }

  lemma EvalsOfNone(list: seq<Expr>, env: Env)
    requires |list| == 0
    ensures Evals(list, env) == []
  {
  }

  lemma EvalsOfOne(list: seq<Expr>, env: Env)
    requires |list| == 1
    ensures Evals(list, env) == [Eval(list[0], env)]
  {
    hide Eval;
  }

  /** No comparison is left to decide an empty list, so only the rewritten constant is right for every operand. */
  lemma EmptyListNeedsItsConstant(env: Env, x: Value)
    ensures SearchList(env, x, []) == AnyEqual(env, x, []) <==> x.V?
    ensures forall e: Expr, negated :: Eval(InList(negated, e, []), env) == Negate(negated, AnyEqual(env, x, []))
  {
  }

  /** The three ways to build IN all have the value of the disjunction. */
  lemma InListMeans(env: Env, negated: bool, l: Expr, list: seq<Expr>)
    ensures Eval(InList(negated, l, list), env) == Negate(negated, AnyEqual(env, Eval(l, env), Evals(list, env)))
  {
    hide Eval, Evals, SearchList, Eq3, Ne3;
    var x, ys := Eval(l, env), Evals(list, env);
    if |list| == 0 {
      EvalsOfNone(list, env);
      LeafValues(if negated then 1 else 0, env);
    } else if |list| == 1 {
      EvalsOfOne(list, env);
      EqualityValues(l, list[0], env, x, ys[0]);
      OneComparison(env, x, ys);
    } else {
      SearchIsAnyEqual(env, x, ys);
      InValue(l, list, env);
      UnaryValues(TkIn(l, list), env, SearchList(env, x, ys));
    }
  }

  lemma OneComparison(env: Env, x: Value, ys: seq<Value>)
    requires |ys| == 1
    ensures AnyEqual(env, x, ys) == Eq3(env, x, ys[0]) && Not3(AnyEqual(env, x, ys)) == Ne3(env, x, ys[0])
  {
    assert AnyEqual(env, x, ys[1..]) == Bool(false);
  }

  // ---------------------------------------------------------------- AND and IS

  lemma {:induction false} IntegersEvaluate(e: Expr, env: Env)
    requires IsInteger(e).Some?
    ensures Eval(e, env) == V(IsInteger(e).value)
  {
    match e
    case TkUPlus(a) => IntegersEvaluate(a, env);
    case TkUMinus(a) => IntegersEvaluate(a, env);
    case _ =>
  }

  /** A dropped operand cannot change the value, not even to NULL. */
  lemma ExprAndMeans(l: Expr, r: Expr, env: Env)
    ensures Eval(ExprAnd(l, r), env) == And3(Eval(l, env), Eval(r, env))
  {
    hide Eval, IsInteger;
    LeafValues(0, env);
    LogicValues(l, r, env, Eval(l, env), Eval(r, env));
    if IsInteger(l) == Some(0) {
      IntegersEvaluate(l, env);
    } else if IsInteger(r) == Some(0) {
      IntegersEvaluate(r, env);
    }
  }

  lemma IsOrUnaryMeans(negated: bool, l: Expr, r: Expr, env: Env)
    ensures Eval(IsOrUnary(negated, l, r), env) == Bool(Same(env, Eval(l, env), Eval(r, env)) != negated)
  {
    hide Eval;
    LeafValues(0, env);
    UnaryValues(l, env, Eval(l, env));
    IsValues(l, r, env, Eval(l, env), Eval(r, env));
  }

  // ---------------------------------------------------------------- what is never built

  /** The literal 0, under any signs. */
  predicate IsZero(e: Expr) {
    match e
    case TkInteger(i) => i == 0
    case TkUPlus(a) => IsZero(a)
    case TkUMinus(a) => IsZero(a)
    case _ => false
  }

  lemma {:induction false} ZeroIff(e: Expr)
    ensures IsInteger(e) == Some(0) <==> IsZero(e)
  {
    match e
    case TkUPlus(a) => ZeroIff(a);
    case TkUMinus(a) => ZeroIff(a);
    case _ =>
  }

  /** No AND with a constant zero, no IS with the literal NULL on the right, and no IN list to search that is short. */
  predicate Normal(e: Expr)
    decreases e
  {
    match e
    case TkColumn(_) | TkNull | TkInteger(_) => true
    case TkNot(a) => Normal(a)
    case TkUPlus(a) => Normal(a)
    case TkUMinus(a) => Normal(a)
    case TkIsNull(a) => Normal(a)
    case TkNotNull(a) => Normal(a)
    case TkInSelect(a, _) => Normal(a)
    case TkAnd(l, r) => !IsZero(l) && !IsZero(r) && Normal(l) && Normal(r)
    case TkIs(l, r) => !r.TkNull? && Normal(l) && Normal(r)
    case TkIsNot(l, r) => !r.TkNull? && Normal(l) && Normal(r)
    case TkOr(l, r) => Normal(l) && Normal(r)
    case TkEq(l, r) => Normal(l) && Normal(r)
    case TkNe(l, r) => Normal(l) && Normal(r)
    case TkOrder(_, l, r) => Normal(l) && Normal(r)
    case TkFunction(_, args) => NormalAll(args)
    case TkIn(a, list) => |list| > 1 && Normal(a) && NormalAll(list)
    case TkBetween(a, list) => |list| == 2 && Normal(a) && NormalAll(list)
    case TkCase(operand, list) => (operand.Some? ==> Normal(operand.value)) && NormalAll(list)
  }

  predicate NormalAll(list: seq<Expr>)
    decreases list
  {
    forall i :: 0 <= i < |list| ==> Normal(list[i])
  }

  /** Every AND was reduced before any error had been reported. */
  predicate Clean(s: Surface)
    decreases s
  {
    match s
    case Column(_) | NullLiteral | Integer(_) => true
    case Paren(e) => Clean(e)
    case Not(e) => Clean(e)
    case Plus(e) => Clean(e)
    case Minus(e) => Clean(e)
    case IsNull(e) => Clean(e)
    case NotNull(e) => Clean(e)
    case InSelect(_, e, _) => Clean(e)
    case And(l, r, clean) => clean && Clean(l) && Clean(r)
    case Or(l, r) => Clean(l) && Clean(r)
    case Equal(l, r) => Clean(l) && Clean(r)
    case NotEqual(l, r) => Clean(l) && Clean(r)
    case Ordered(_, l, r) => Clean(l) && Clean(r)
    case Is(_, l, r) => Clean(l) && Clean(r)
    case Apply(_, args) => forall i :: 0 <= i < |args| ==> Clean(args[i])
    case In(_, e, list) => Clean(e) && forall i :: 0 <= i < |list| ==> Clean(list[i])
    case Between(_, e, lo, hi) => Clean(e) && Clean(lo) && Clean(hi)
    case Case(operand, whens, otherwise) =>
      && (operand.Some? ==> Clean(operand.value)) && CleanWhens(whens) && (otherwise.Some? ==> Clean(otherwise.value))
  }

  predicate CleanWhens(whens: Whens)
    decreases whens
  {
    whens.When? ==> Clean(whens.test) && Clean(whens.result) && CleanWhens(whens.rest)
  }

  lemma NormalAllConcat(a: seq<Expr>, b: seq<Expr>)
    requires NormalAll(a) && NormalAll(b)
    ensures NormalAll(a + b)
  {
    hide Normal;
  }

  lemma AndIsNormal(l: Expr, r: Expr)
    requires Normal(l) && Normal(r)
    ensures Normal(ExprAnd(l, r))
  {
    hide IsInteger;
    ZeroIff(l);
    ZeroIff(r);
  }

  lemma InIsNormal(negated: bool, e: Expr, list: seq<Expr>)
    requires Normal(e) && NormalAll(list)
    ensures Normal(InList(negated, e, list))
  {
  }

  lemma BetweenIsNormal(negated: bool, e: Expr, lo: Expr, hi: Expr)
    requires Normal(e) && Normal(lo) && Normal(hi)
    ensures Normal(ExprNot(negated, TkBetween(e, [lo, hi])))
  {
  }

  lemma IsIsNormal(negated: bool, l: Expr, r: Expr)
    requires Normal(l) && Normal(r)
    ensures Normal(IsOrUnary(negated, l, r))
  {
  }

  lemma OneIsNormal(e: Expr)
    requires Normal(e)
    ensures NormalAll([e])
  {
  }

  lemma NoneIsNormal()
    ensures NormalAll([])
  {
  }

  /** The tree built for s is normal if s is clean. */
  predicate Cleared(s: Surface) {
    Clean(s) ==> Normal(Build(s))
  }

  lemma LeavesCleared(n: nat)
    ensures Cleared(Column(n)) && Cleared(NullLiteral) && Cleared(Integer(n))
  {
  }

  lemma UnaryCleared(e: Surface)
    requires Cleared(e)
    ensures Cleared(Paren(e)) && Cleared(Not(e)) && Cleared(Plus(e)) && Cleared(Minus(e))
  {
  }

  lemma TestsCleared(e: Surface)
    requires Cleared(e)
    ensures Cleared(IsNull(e)) && Cleared(NotNull(e))
  {
  }

  lemma InSelectCleared(negated: bool, e: Surface, q: nat)
    requires Cleared(e)
    ensures Cleared(InSelect(negated, e, q))
  {
  }

  lemma AndCleared(l: Surface, r: Surface, clean: bool)
    requires Cleared(l) && Cleared(r)
    ensures Cleared(And(l, r, clean))
  {
    hide Normal, ExprAnd;
    if Clean(And(l, r, clean)) {
      AndIsNormal(Build(l), Build(r));
    }
  }

  lemma EqualityCleared(l: Surface, r: Surface)
    requires Cleared(l) && Cleared(r)
    ensures Cleared(Equal(l, r)) && Cleared(NotEqual(l, r))
  {
  }

  lemma BinaryCleared(op: Order, l: Surface, r: Surface)
    requires Cleared(l) && Cleared(r)
    ensures Cleared(Or(l, r)) && Cleared(Ordered(op, l, r))
  {
  }

  lemma IsCleared(negated: bool, l: Surface, r: Surface)
    requires Cleared(l) && Cleared(r)
    ensures Cleared(Is(negated, l, r))
  {
    hide Normal, IsOrUnary;
    if Clean(Is(negated, l, r)) {
      IsIsNormal(negated, Build(l), Build(r));
    }
  }

  predicate AllCleared(list: seq<Surface>) {
    forall i :: 0 <= i < |list| ==> Cleared(list[i])
  }

  lemma {:induction false} BuildsNormal(list: seq<Surface>)
    requires AllCleared(list) && forall i :: 0 <= i < |list| ==> Clean(list[i])
    ensures NormalAll(Builds(list))
    decreases list
  {
    hide Clean, Normal, NormalAll, Build;
    if |list| > 0 {
      assert Cleared(list[0]);
      BuildsNormal(list[1..]);
      OneIsNormal(Build(list[0]));
      NormalAllConcat([Build(list[0])], Builds(list[1..]));
    } else {
      NoneIsNormal();
    }
  }

  lemma ListsCleared(negated: bool, e: Surface, f: nat, list: seq<Surface>)
    requires Cleared(e) && AllCleared(list)
    ensures Cleared(Apply(f, list)) && Cleared(In(negated, e, list))
  {
    hide NormalAll, InList, Builds;
    if forall i :: 0 <= i < |list| ==> Clean(list[i]) {
      BuildsNormal(list);
      if Clean(e) {
        InIsNormal(negated, Build(e), Builds(list));
      }
    }
  }

  lemma BetweenCleared(negated: bool, e: Surface, lo: Surface, hi: Surface)
    requires Cleared(e) && Cleared(lo) && Cleared(hi)
    ensures Cleared(Between(negated, e, lo, hi))
  {
    hide Normal;
    if Clean(Between(negated, e, lo, hi)) {
      BetweenIsNormal(negated, Build(e), Build(lo), Build(hi));
    }
  }

  predicate WhensCleared(whens: Whens) {
    CleanWhens(whens) ==> NormalAll(BuildWhens(whens))
  }

  lemma NoWhensCleared()
    ensures WhensCleared(NoMore)
  {
  }

  lemma WhenCleared(test: Surface, result: Surface, rest: Whens)
    requires Cleared(test) && Cleared(result) && WhensCleared(rest)
    ensures WhensCleared(When(test, result, rest))
  {
    hide Clean, Normal, NormalAll, Build;
    if CleanWhens(When(test, result, rest)) {
      OneIsNormal(Build(test));
      OneIsNormal(Build(result));
      NormalAllConcat([Build(test)], [Build(result)]);
      assert [Build(test)] + [Build(result)] == [Build(test), Build(result)];
      NormalAllConcat([Build(test), Build(result)], BuildWhens(rest));
    }
  }

  lemma CaseCleared(operand: Option<Surface>, whens: Whens, otherwise: Option<Surface>)
    requires operand.Some? ==> Cleared(operand.value)
    requires otherwise.Some? ==> Cleared(otherwise.value)
    requires WhensCleared(whens)
    ensures Cleared(Case(operand, whens, otherwise))
  {
    hide NormalAll, BuildWhens, CleanWhens;
    if Clean(Case(operand, whens, otherwise)) {
      if otherwise.Some? {
        OneIsNormal(Build(otherwise.value));
      } else {
        NoneIsNormal();
      }
      NormalAllConcat(BuildWhens(whens), ElseOf(otherwise));
    }
  }

  lemma {:induction false} EverythingCleared(s: Surface)
    ensures Cleared(s)
    decreases s
  {
    hide Cleared, WhensCleared;
    match s
    case Column(n) => LeavesCleared(n);
    case NullLiteral => LeavesCleared(0);
    case Integer(i) => LeavesCleared(i);
    case Paren(e) => EverythingCleared(e); UnaryCleared(e);
    case Not(e) => EverythingCleared(e); UnaryCleared(e);
    case Plus(e) => EverythingCleared(e); UnaryCleared(e);
    case Minus(e) => EverythingCleared(e); UnaryCleared(e);
    case IsNull(e) => EverythingCleared(e); TestsCleared(e);
    case NotNull(e) => EverythingCleared(e); TestsCleared(e);
    case InSelect(negated, e, q) => EverythingCleared(e); InSelectCleared(negated, e, q);
    case And(l, r, clean) => EverythingCleared(l); EverythingCleared(r); AndCleared(l, r, clean);
    case Or(l, r) => EverythingCleared(l); EverythingCleared(r); BinaryCleared(Lt, l, r);
    case Equal(l, r) => EverythingCleared(l); EverythingCleared(r); EqualityCleared(l, r);
    case NotEqual(l, r) => EverythingCleared(l); EverythingCleared(r); EqualityCleared(l, r);
    case Ordered(op, l, r) => EverythingCleared(l); EverythingCleared(r); BinaryCleared(op, l, r);
    case Is(negated, l, r) => EverythingCleared(l); EverythingCleared(r); IsCleared(negated, l, r);
    case Apply(f, args) => ListCleared(args); LeavesCleared(0); ListsCleared(false, NullLiteral, f, args);
    case In(negated, e, list) => EverythingCleared(e); ListCleared(list); ListsCleared(negated, e, 0, list);
    case Between(negated, e, lo, hi) =>
      EverythingCleared(e);
      EverythingCleared(lo);
      EverythingCleared(hi);
      BetweenCleared(negated, e, lo, hi);
    case Case(operand, whens, otherwise) =>
      if operand.Some? {
        EverythingCleared(operand.value);
      }
      if otherwise.Some? {
        EverythingCleared(otherwise.value);
      }
      AllWhensCleared(whens);
      CaseCleared(operand, whens, otherwise);
  }

  lemma {:induction false} ListCleared(list: seq<Surface>)
    ensures AllCleared(list)
    decreases list
  {
    hide Cleared;
    forall i | 0 <= i < |list|
      ensures Cleared(list[i])
    {
      EverythingCleared(list[i]);
    }
  }

  lemma {:induction false} AllWhensCleared(whens: Whens)
    ensures WhensCleared(whens)
    decreases whens
  {
    hide Cleared, WhensCleared;
    match whens
    case NoMore => NoWhensCleared();
    case When(test, result, rest) =>
      EverythingCleared(test);
      EverythingCleared(result);
      AllWhensCleared(rest);
      WhenCleared(test, result, rest);
  }

  /** From clean source the rewriting leaves nothing of what it is there to remove. */
  lemma NothingIsLeft(s: Surface)
    requires Clean(s)
    ensures Normal(Build(s))
  {
    EverythingCleared(s);
  }

  // ---------------------------------------------------------------- one rule at a time

  /** The tree built for s has its value. */
  predicate Kept(s: Surface, env: Env) {
    Eval(Build(s), env) == Meaning(s, env)
  }

  lemma LeavesKept(n: nat, env: Env)
    ensures Kept(Column(n), env) && Kept(NullLiteral, env) && Kept(Integer(n), env)
  {
  }

  lemma UnaryKept(e: Surface, env: Env)
    requires Kept(e, env)
    ensures Kept(Paren(e), env) && Kept(Not(e), env) && Kept(Plus(e), env) && Kept(Minus(e), env)
    ensures Kept(IsNull(e), env) && Kept(NotNull(e), env)
  {
    hide Eval;
    UnaryValues(Build(e), env, Meaning(e, env));
    SignValues(Build(e), env, Meaning(e, env));
  }

  lemma LogicKept(l: Surface, r: Surface, clean: bool, env: Env)
    requires Kept(l, env) && Kept(r, env)
    ensures Kept(And(l, r, clean), env) && Kept(Or(l, r), env)
  {
    hide Eval, And3, Or3, ExprAnd;
    LogicValues(Build(l), Build(r), env, Meaning(l, env), Meaning(r, env));
    ExprAndMeans(Build(l), Build(r), env);
  }

  lemma ComparisonKept(l: Surface, r: Surface, env: Env)
    requires Kept(l, env) && Kept(r, env)
    ensures Kept(Equal(l, r), env) && Kept(NotEqual(l, r), env)
  {
    hide Eval, Eq3, Ne3;
    EqualityValues(Build(l), Build(r), env, Meaning(l, env), Meaning(r, env));
  }

  lemma OrderKept(op: Order, l: Surface, r: Surface, env: Env)
    requires Kept(l, env) && Kept(r, env)
    ensures Kept(Ordered(op, l, r), env)
  {
    hide Eval, Order3;
    OrderValue(op, Build(l), Build(r), env, Meaning(l, env), Meaning(r, env));
  }

  lemma ApplyKept(f: nat, args: seq<Surface>, env: Env)
    requires Evals(Builds(args), env) == Meanings(args, env)
    ensures Kept(Apply(f, args), env)
  {
    hide Evals, Builds, Meanings;
  }

  lemma InKept(negated: bool, e: Surface, list: seq<Surface>, env: Env)
    requires Kept(e, env) && Evals(Builds(list), env) == Meanings(list, env)
    ensures Kept(In(negated, e, list), env)
  {
    hide Eval, Evals, Builds, Meanings, AnyEqual, InList;
    InListMeans(env, negated, Build(e), Builds(list));
  }

  lemma InSelectKept(negated: bool, e: Surface, q: nat, env: Env)
    requires Kept(e, env)
    ensures Kept(InSelect(negated, e, q), env)
  {
    hide Eval, AnyEqual, SearchRows;
    InSelectValue(Build(e), q, env, Meaning(e, env));
    UnaryValues(TkInSelect(Build(e), q), env, SearchRows(env, Meaning(e, env), env.Rows(q)));
    RowsAreAnyEqual(env, Meaning(e, env), env.Rows(q));
  }

  lemma BetweenKept(negated: bool, e: Surface, lo: Surface, hi: Surface, env: Env)
    requires Kept(e, env) && Kept(lo, env) && Kept(hi, env)
    ensures Kept(Between(negated, e, lo, hi), env)
  {
    hide Eval, And3, Order3;
    BetweenValue(Build(e), Build(lo), Build(hi), env);
    var between := TkBetween(Build(e), [Build(lo), Build(hi)]);
    UnaryValues(between, env, Eval(between, env));
  }

  lemma IsKept(negated: bool, l: Surface, r: Surface, env: Env)
    requires Kept(l, env) && Kept(r, env)
    ensures Kept(Is(negated, l, r), env)
  {
    hide Eval, Same, IsOrUnary;
    IsOrUnaryMeans(negated, Build(l), Build(r), env);
  }

  /** What a list of tests and results selects, followed by at most one more expression. */
  ghost predicate WhensKept(x: Option<Value>, whens: Whens, tail: seq<Expr>, env: Env) {
    |tail| <= 1 ==>
      var last := if |tail| == 1 then Eval(tail[0], env) else Null;
      CaseValue(env, x, Evals(BuildWhens(whens) + tail, env))
      == if x.Some? then FirstEqual(x.value, whens, last, env) else FirstTrue(whens, last, env)
  }

  lemma NoWhensKept(x: Option<Value>, tail: seq<Expr>, env: Env)
    ensures WhensKept(x, NoMore, tail, env)
  {
    hide Eval;
    assert BuildWhens(NoMore) + tail == tail;
    if |tail| == 1 {
      EvalsOfOne(tail, env);
    } else if |tail| == 0 {
      EvalsOfNone(tail, env);
    }
  }

  lemma WhenKept(x: Option<Value>, test: Surface, result: Surface, more: Whens, tail: seq<Expr>, env: Env)
    requires Kept(test, env) && Kept(result, env) && WhensKept(x, more, tail, env)
    ensures WhensKept(x, When(test, result, more), tail, env)
  {
    hide Eval, Meaning, Build, Evals, Eq3;
    var rest := BuildWhens(more) + tail;
    assert BuildWhens(When(test, result, more)) + tail == [Build(test), Build(result)] + rest;
    TwoMore(Build(test), Build(result), rest, env);
    assert ([Meaning(test, env), Meaning(result, env)] + Evals(rest, env))[2..] == Evals(rest, env);
  }

  lemma TwoMore(a: Expr, b: Expr, rest: seq<Expr>, env: Env)
    ensures Evals([a, b] + rest, env) == [Eval(a, env), Eval(b, env)] + Evals(rest, env)
  {
    hide Eval;
    assert ([a, b] + rest)[1..] == [b] + rest;
    assert ([b] + rest)[1..] == rest;
  }

  function ElseOf(otherwise: Option<Surface>): seq<Expr> {
    if otherwise.Some? then [Build(otherwise.value)] else []
  }

  lemma CaseKept(operand: Option<Surface>, whens: Whens, otherwise: Option<Surface>, env: Env)
    requires operand.Some? ==> Kept(operand.value, env)
    requires otherwise.Some? ==> Kept(otherwise.value, env)
    requires WhensKept(if operand.Some? then Some(Meaning(operand.value, env)) else None, whens, ElseOf(otherwise), env)
    ensures Kept(Case(operand, whens, otherwise), env)
  {
    hide Evals, BuildWhens, FirstEqual, FirstTrue, CaseValue;
  }

  // ---------------------------------------------------------------- every expression

  /** Rewriting keeps the value of every expression, NULL included. */
  lemma {:induction false} RewritingPreservesMeaning(s: Surface, env: Env)
    ensures Eval(Build(s), env) == Meaning(s, env)
    decreases s
  {
    assert Kept(s, env) by {
      EverythingKept(s, env);
    }
  }

  lemma {:induction false} EverythingKept(s: Surface, env: Env)
    ensures Kept(s, env)
    decreases s
  {
    hide Kept, WhensKept, Evals, Builds, Meanings;
    match s
    case Column(n) => LeavesKept(n, env);
    case NullLiteral => LeavesKept(0, env);
    case Integer(i) => LeavesKept(i, env);
    case Paren(e) => EverythingKept(e, env); UnaryKept(e, env);
    case Not(e) => EverythingKept(e, env); UnaryKept(e, env);
    case Plus(e) => EverythingKept(e, env); UnaryKept(e, env);
    case Minus(e) => EverythingKept(e, env); UnaryKept(e, env);
    case IsNull(e) => EverythingKept(e, env); UnaryKept(e, env);
    case NotNull(e) => EverythingKept(e, env); UnaryKept(e, env);
    case And(l, r, clean) => EverythingKept(l, env); EverythingKept(r, env); LogicKept(l, r, clean, env);
    case Or(l, r) => EverythingKept(l, env); EverythingKept(r, env); LogicKept(l, r, true, env);
    case Equal(l, r) => EverythingKept(l, env); EverythingKept(r, env); ComparisonKept(l, r, env);
    case NotEqual(l, r) => EverythingKept(l, env); EverythingKept(r, env); ComparisonKept(l, r, env);
    case Ordered(op, l, r) => EverythingKept(l, env); EverythingKept(r, env); OrderKept(op, l, r, env);
    case Is(negated, l, r) => EverythingKept(l, env); EverythingKept(r, env); IsKept(negated, l, r, env);
    case Apply(f, args) => ListKept(args, env); ApplyKept(f, args, env);
    case In(negated, e, list) => EverythingKept(e, env); ListKept(list, env); InKept(negated, e, list, env);
    case InSelect(negated, e, q) => EverythingKept(e, env); InSelectKept(negated, e, q, env);
    case Between(negated, e, lo, hi) =>
      EverythingKept(e, env);
      EverythingKept(lo, env);
      EverythingKept(hi, env);
      BetweenKept(negated, e, lo, hi, env);
    case Case(operand, whens, otherwise) =>
      if operand.Some? {
        EverythingKept(operand.value, env);
      }
      if otherwise.Some? {
        EverythingKept(otherwise.value, env);
      }
      AllWhensKept(if operand.Some? then Some(Meaning(operand.value, env)) else None, whens, ElseOf(otherwise), env);
      CaseKept(operand, whens, otherwise, env);
  }

  lemma {:induction false} ListKept(list: seq<Surface>, env: Env)
    ensures Evals(Builds(list), env) == Meanings(list, env)
    decreases list
  {
    if |list| > 0 {
      EverythingKept(list[0], env);
      ListKept(list[1..], env);
      assert Builds(list)[1..] == Builds(list[1..]);
    }
  }

  lemma {:induction false} AllWhensKept(x: Option<Value>, whens: Whens, tail: seq<Expr>, env: Env)
    ensures WhensKept(x, whens, tail, env)
    decreases whens
  {
    hide WhensKept, Kept;
    match whens
    case NoMore => NoWhensKept(x, tail, env);
    case When(test, result, more) =>
      EverythingKept(test, env);
      EverythingKept(result, env);
      AllWhensKept(x, more, tail, env);
      WhenKept(x, test, result, more, tail, env);
  }
}
