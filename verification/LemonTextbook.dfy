/**
  The textbook driver, and that the delayed SHIFTREDUCE encoding refines it.

  The textbook driver carries out the reduction of a shift-reduce at once.  Only acceptance waits for
  the next token in both, as it does in any driver that is told of the end of its input by a token.
 */
module LemonTextbook {
  import opened LemonTables
  import opened LemonGrammar
  import opened LemonStack
  import opened LemonDriver

  /** The pending reduction on top, if there is one that does not accept, is due. */
  predicate Due(m: Automaton, stk: Stack)
    requires Valid(m) && Inv(m, stk)
  {
    IsPending(m, Top(stk).stateno) &&
    (PendingIsPossible(m, stk); GotoAction(m, stk, Top(stk).stateno - m.t.MinReduce()) != m.t.AcceptAction())
  }

  lemma PendingIsPossible(m: Automaton, stk: Stack)
    requires Valid(m) && Inv(m, stk) && IsPending(m, Top(stk).stateno)
    ensures var r := Top(stk).stateno - m.t.MinReduce();
            m.g[r].rhs != [] && CanReduce(m, stk, r, Budget(m, Top(stk).stateno, 0), 0)
  {
  }

  datatype Flushed = Flushed(stk: Stack, ev: seq<Event>)

  function FlushStep(m: Automaton, stk: Stack): (Stack, Event)
    requires Valid(m) && Inv(m, stk) && Due(m, stk)
  {
    PendingIsPossible(m, stk);
    var r := Top(stk).stateno - m.t.MinReduce();
    (Below(m, stk, r) + [Reduct(m, stk, r)], Reduce(r, Handle(m, stk, r), Reduct(m, stk, r)))
  }

  lemma FlushStepKeepsInv(m: Automaton, stk: Stack, a: nat)
    requires Valid(m) && Inv(m, stk) && Due(m, stk) && a < m.t.nTerminal
    ensures Inv(m, FlushStep(m, stk).0) && Measure(m, FlushStep(m, stk).0, a) < Measure(m, stk, a)
  {
    PendingIsPossible(m, stk);
    var r := Top(stk).stateno - m.t.MinReduce();
    assert CanReduce(m, stk, r, Budget(m, Top(stk).stateno, a), a);
    ReduceInv(m, stk, r, Budget(m, Top(stk).stateno, a), a);
    ReduceLowersMeasure(m, stk, r, a);
  }

  /** Carries out the reductions that are due, one after the other. */
  function Flush(m: Automaton, stk: Stack): (f: Flushed)
    requires Valid(m) && Inv(m, stk)
    ensures f.stk != [] && Inv(m, f.stk) && !Due(m, f.stk)
    decreases Measure(m, stk, 0)
  {
    if Due(m, stk) then
      FlushStepKeepsInv(m, stk, 0);
      var (next, e) := FlushStep(m, stk);
      var rest := Flush(m, next);
      Flushed(rest.stk, [e] + rest.ev)
    else Flushed(stk, [])
  }

  lemma {:induction false} FlushLowers(m: Automaton, stk: Stack, a: nat)
    requires Valid(m) && Inv(m, stk) && a < m.t.nTerminal
    ensures Measure(m, Flush(m, stk).stk, a) <= Measure(m, stk, a)
    decreases Measure(m, stk, a)
  {
    if Due(m, stk) {
      FlushStepKeepsInv(m, stk, a);
      FlushLowers(m, FlushStep(m, stk).0, a);
    }
  }

  function FlushLive(m: Automaton, stk: Stack): (f: Flushed)
    requires Valid(m) && Live(m, stk)
    ensures (f.stk == [] <==> stk == []) && Live(m, f.stk) && (f.stk != [] ==> !Due(m, f.stk))
  {
    if stk == [] then Flushed(stk, []) else Flush(m, stk)
  }

  /** What the textbook driver adds to an outcome: the reductions now due. */
  function ThenFlush(m: Automaton, o: Out): (f: Out)
    requires Valid(m) && Live(m, o.stk)
    ensures Live(m, f.stk) && (f.stk != [] ==> !Due(m, f.stk))
  {
    var f := FlushLive(m, o.stk);
    Out(f.stk, o.room, o.ev + f.ev)
  }

  /** The textbook driver: after every move of the stack all due reductions are made before anything else. */
  function Textbook(m: Automaton, room: Room, stk: Stack, tok: Token): (o: Out)
    requires Valid(m) && Inv(m, stk) && !Due(m, stk) && IsToken(m, tok)
    ensures Live(m, o.stk) && (o.stk != [] ==> !Due(m, o.stk))
    decreases Measure(m, stk, tok.major)
  {
    StepKeepsInv(m, room, stk, tok);
    match OneStep(m, room, stk, tok)
    case Done(o) => ThenFlush(m, o)
    case Next(room', stk', e) =>
      FlushLowers(m, stk', tok.major);
      var f := Flush(m, stk');
      After([e] + f.ev, Textbook(m, room', f.stk, tok))
  }

  function TextbookAll(m: Automaton, room: Room, stk: Stack, toks: seq<Token>): (o: Out)
    requires Valid(m) && Live(m, stk) && (stk != [] ==> !Due(m, stk)) && AreTokens(m, toks)
    ensures Live(m, o.stk)
    decreases |toks|
  {
    if toks == [] || stk == [] then Out(stk, room, [])
    else
      var one := Textbook(m, room, stk, toks[0]);
      After(one.ev, TextbookAll(m, one.room, one.stk, toks[1..]))
  }

  /** A due reduction is what the delayed driver does first, whatever the token. */
  lemma DueGoesFirst(m: Automaton, room: Room, stk: Stack, tok: Token)
    requires Valid(m) && Inv(m, stk) && Due(m, stk) && IsToken(m, tok)
    ensures OneStep(m, room, stk, tok) == Next(room, FlushStep(m, stk).0, FlushStep(m, stk).1)
  {
    PendingIsPossible(m, stk);
  }

  /** The delayed outcome `d`, once flushed, is the textbook outcome `t` preceded by `before`. */
  ghost predicate Agrees(m: Automaton, d: Out, before: seq<Event>, t: Out)
    requires Valid(m) && Live(m, d.stk)
  {
    ThenFlush(m, d) == After(before, t)
  }

  /**
    One call: the delayed driver makes the same shifts, reductions and reports in the same order as the
    textbook driver started from the flushed stack, and leaves the same stack once flushed.
   */
  lemma {:induction false} FeedRefinesTextbook(m: Automaton, room: Room, stk: Stack, tok: Token)
    requires Valid(m) && Inv(m, stk) && IsToken(m, tok)
    ensures var f := Flush(m, stk);
            Agrees(m, Feed(m, room, stk, tok), f.ev, Textbook(m, room, f.stk, tok))
    decreases Measure(m, stk, tok.major)
  {
    hide OneStep, Inv, FlushStep, Due;
    StepKeepsInv(m, room, stk, tok);
    var f := Flush(m, stk);
    if Due(m, stk) {
      DueGoesFirst(m, room, stk, tok);
      FlushStepKeepsInv(m, stk, 0);
      var (next, e) := FlushStep(m, stk);
      FeedRefinesTextbook(m, room, next, tok);
      var d, g := Feed(m, room, next, tok), Flush(m, next);
      PrependAgrees(m, [e], d, g.ev, Textbook(m, room, g.stk, tok));
    } else {
      match OneStep(m, room, stk, tok) {
        case Done(o) =>
          assert f.ev + ThenFlush(m, o).ev == ThenFlush(m, o).ev;
        case Next(room', stk', e) =>
          FeedRefinesTextbook(m, room', stk', tok);
          var d, g := Feed(m, room', stk', tok), Flush(m, stk');
          var t := Textbook(m, room', g.stk, tok);
          PrependAgrees(m, [e], d, g.ev, t);
          assert After([e] + g.ev, t) == After(f.ev, After([e] + g.ev, t));
      }
    }
  }

  lemma PrependAgrees(m: Automaton, ev: seq<Event>, d: Out, before: seq<Event>, t: Out)
    requires Valid(m) && Live(m, d.stk) && Agrees(m, d, before, t)
    ensures Agrees(m, After(ev, d), ev + before, t)
  {
    var f := FlushLive(m, d.stk);
    assert (ev + d.ev) + f.ev == ev + (d.ev + f.ev);
    assert ev + (before + t.ev) == (ev + before) + t.ev;
  }

  /** Whole token streams: the same shifts, reductions and reports, and the same stack after flushing. */
  lemma {:induction false} RunRefinesTextbook(m: Automaton, room: Room, stk: Stack, toks: seq<Token>)
    requires Valid(m) && Live(m, stk) && AreTokens(m, toks)
    ensures var f := FlushLive(m, stk);
            Agrees(m, FeedAll(m, room, stk, toks), f.ev, TextbookAll(m, room, f.stk, toks))
    decreases |toks|
  {
    hide Feed, Textbook, Inv, Due;
    var f := FlushLive(m, stk);
    if toks == [] || stk == [] {
      assert [] + f.ev == f.ev + [];
    } else {
      FeedRefinesTextbook(m, room, stk, toks[0]);
      var d, t := Feed(m, room, stk, toks[0]), Textbook(m, room, f.stk, toks[0]);
      RunRefinesTextbook(m, d.room, d.stk, toks[1..]);
      var g := FlushLive(m, d.stk);
      var ds, ts := FeedAll(m, d.room, d.stk, toks[1..]), TextbookAll(m, t.room, t.stk, toks[1..]);
      PrependAgrees(m, d.ev, ds, g.ev, ts);
      AfterConcat(f.ev, t.ev, ts);
    }
  }

  /** From a fresh parser nothing is due, so the textbook run starts where the delayed one does. */
  lemma FreshRunRefinesTextbook(m: Automaton, room: Room, bottom: Entry, toks: seq<Token>)
    requires Valid(m) && IsBottom(bottom) && AreTokens(m, toks)
    ensures Inv(m, [bottom]) && !Due(m, [bottom])
    ensures ThenFlush(m, FreshRun(m, room, bottom, toks)) == TextbookAll(m, room, [bottom], toks)
  {
    InitialInv(m, bottom);
    RunRefinesTextbook(m, room, [bottom], toks);
    assert FlushLive(m, [bottom]) == Flushed([bottom], []);
    var t := TextbookAll(m, room, [bottom], toks);
    assert [] + t.ev == t.ev;
  }
}
