/**
  The span helpers of parse.c as they work on the parser stack.

  A stack slot is a union: a token (z, n) lies over the first two words of an expression span (pExpr, zStart,
  zEnd).  A word is wider than the length of a token, which is its lower part; what is above it was never
  written.  The actions often write a span into the very slot whose token they still read, so the order of the
  writes matters.
 */
module SpanSlots {
  import opened ExprSpan

  // One more than the longest token
  const WIDTH: nat := 0x1_0000_0000

  /** The words of a slot: z or pExpr, n or zStart, zEnd. */
  class Slot {
    var w0: nat
    var w1: nat
    var w2: nat

    /** A slot that holds a token, with anything beside it. */
    constructor (t: Token, high: nat, w2: nat)
      requires t.n < WIDTH
      ensures HasToken(t)
    {
      w0, w1, this.w2 := t.z, t.n + high * WIDTH, w2;
    }

    /** The length of the token in the slot: the lower part of the second word. */
    function N(): nat
      reads this
    {
      w1 % WIDTH
    }

    predicate HasToken(t: Token)
      reads this
    {
      w0 == t.z && N() == t.n
    }

    predicate HasSpan(s: Span)
      reads this
    {
      w1 == s.zStart && w2 == s.zEnd
    }
  }

  /** spanSet: right unless the end token lies in the slot that is written. */
  method SpanSet(pOut: Slot, pStart: Slot, pEnd: Slot)
    modifies pOut
    ensures pOut.w0 == old(pOut.w0) && pOut.w1 == old(pStart.w0)
    ensures pOut.w2 == old(pEnd.w0) + if pOut == pEnd then old(pStart.w0) % WIDTH else old(pEnd.N())
  {
    pOut.w1 := pStart.w0;
    pOut.w2 := pEnd.w0 + pEnd.N();
  }

  /** spanExpr: the token is passed by value, so its slot may be the output. */
  method SpanExpr(pOut: Slot, t: Token, p: nat)
    modifies pOut
    ensures pOut.w0 == p && pOut.HasSpan(Span(t.z, End(t)))
  {
    pOut.w0 := p;
    pOut.w1 := t.z;
    pOut.w2 := t.z + t.n;
  }

  /** spanBinaryExpr: the left operand is also the output. */
  method SpanBinaryExpr(pLeft: Slot, pRight: Slot, p: nat)
    modifies pLeft
    ensures pLeft.w0 == p && pLeft.w1 == old(pLeft.w1) && pLeft.w2 == old(pRight.w2)
  {
    pLeft.w0 := p;
    pLeft.w2 := pRight.w2;
  }

  /** spanUnaryPostfix */
  method SpanUnaryPostfix(pOperand: Slot, pPostOp: Slot, p: nat)
    requires pOperand != pPostOp
    modifies pOperand
    ensures pOperand.w0 == p && pOperand.w1 == old(pOperand.w1) && pOperand.w2 == old(pPostOp.w0 + pPostOp.N())
  {
    pOperand.w0 := p;
    pOperand.w2 := pPostOp.w0 + pPostOp.N();
  }

  /** spanUnaryPrefix: the slot of the operator is the output, and its token is read before it is overwritten. */
  method SpanUnaryPrefix(pOut: Slot, pOperand: Slot, pPreOp: Slot, p: nat)
    modifies pOut
    ensures pOut.w0 == p && pOut.w1 == old(pPreOp.w0) && pOut.w2 == old(pOperand.w2)
  {
    pOut.w1 := pPreOp.w0;
    pOut.w0 := p;
    pOut.w2 := pOperand.w2;
  }

  /** No token of the text lies at the null address, and every length fits. */
  predicate HasText(y: seq<Token>) {
    forall t :: t in y ==> t.z > 0 && t.n < WIDTH
  }

  /** The slot of dbnm: the null token if there is no schema. */
  method ShiftDbnm(dbnm: Option<(Token, Token)>, junk: nat) returns (s: Slot)
    requires dbnm.Some? ==> dbnm.value.1.n < WIDTH
    ensures fresh(s) && s.HasToken(if dbnm.Some? then dbnm.value.1 else Token(0, 0))
  {
    s := new Slot(if dbnm.Some? then dbnm.value.1 else Token(0, 0), junk, junk);
  }

  /**
    The reductions for an expression, operands first; p stands for the address of every tree that is built, junk for
    what a slot held before.
   */
  method Reduce(e: Expr, p: nat, junk: nat) returns (s: Slot)
    requires HasText(Yield(e))
    ensures fresh(s) && s.HasSpan(SpanOf(e))
    decreases e
  {
    match e
    case Leaf(t) =>
      s := new Slot(t, junk, junk);
      SpanExpr(s, Token(s.w0, s.N()), p);
    case Paren(lp, a, rp) =>
      s := new Slot(lp, junk, junk);
      var operand := Reduce(a, p, junk);
      var close := new Slot(rp, junk, junk);
      SpanSet(s, s, close);
      s.w0 := operand.w0;
    case Enclosed(first, _, last) =>
      s := new Slot(first, junk, junk);
      var close := new Slot(last, junk, junk);
      SpanSet(s, s, close);
      s.w0 := p;
    case Prefix(op, a) =>
      s := new Slot(op, junk, junk);
      var operand := Reduce(a, p, junk);
      SpanUnaryPrefix(s, operand, s, p);
    case Postfix(a, ops, last) =>
      s := Reduce(a, p, junk);
      var op := new Slot(last, junk, junk);
      SpanUnaryPostfix(s, op, p);
    case Binary(l, ops, r) =>
      s := Reduce(l, p, junk);
      var right := Reduce(r, p, junk);
      SpanBinaryExpr(s, right, p);
    case Ternary(l, ops, m, op, r) =>
      s := Reduce(l, p, junk);
      var right := Reduce(r, p, junk);
      s.w0 := p;
      s.w2 := right.w2;
    case InParens(a, ops, args) =>
      s := Reduce(a, p, junk);
      var close := new Slot(args.rp, junk, junk);
      s.w0 := p;
      s.w2 := close.w0 + close.N();
    case InTable(a, ops, nm, dbnm, list) =>
      s := Reduce(a, p, junk);
      var name := new Slot(nm, junk, junk);
      var schema := ShiftDbnm(dbnm, junk);
      if dbnm.Some? {
        SchemaIsNotNull(e);
      }
      s.w0 := p;
      s.w2 := if schema.w0 != 0 then schema.w0 + schema.N() else name.w0 + name.N();
  }

  /** A name that is present has a text, so the test for a null dbnm is right. */
  lemma SchemaIsNotNull(e: Expr)
    requires e.InTable? && HasText(Yield(e)) && e.dbnm.Some?
    ensures e.dbnm.value.1.z > 0
  {
    assert e.dbnm.value.1 in NameYield(e.nm, e.dbnm);
  }
}
