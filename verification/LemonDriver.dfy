/**
  The driver as a function: what one call of sqlite3Parser does to the stack, and what it reports.

  One definition serves the fixed stack, the stack grown by realloc and an unbounded one: they differ
  only in the room they are given.
 */
module LemonDriver {
  import opened LemonTables
  import opened LemonGrammar
  import opened LemonStack

  /** Room for entries: unlimited, or `cap` slots and the outcomes of the allocations to come. */
  datatype Room = Unbounded | Bounded(cap: nat, allocs: seq<bool>)

  /** What the driver does that can be seen from outside, plus each single move of the stack. */
  datatype Event =
    | Shift(entry: Entry)
    | Reduce(rule: nat, popped: Stack, pushed: Entry)
    | Accept(rule: nat, popped: Stack, value: Tree)
    | SyntaxError(tok: Token)       // reported, the token discarded
    | Destroy(entry: Entry)         // yy_pop_parser_stack
    | Skip(entry: Entry)            // stepped over by the yytos-- of yyStackOverflow
    | Overflow                      // "parser stack overflow" reported

  datatype Out = Out(stk: Stack, room: Room, ev: seq<Event>)

  /** Room for one more entry above `height` entries; the flag is false when yyGrowStack fails. */
  function Reserve(room: Room, height: nat): (bool, Room) {
    match room
    case Unbounded => (true, Unbounded)
    case Bounded(cap, allocs) =>
      if height < cap then (true, room)
      else if allocs == [] then (false, room)
      else if allocs[0] then (true, Bounded(2 * cap + 100, allocs[1..]))
      else (false, Bounded(cap, allocs[1..]))
  }

  /** Everything above the bottom is popped and destroyed, from the top. */
  function Unwind(stk: Stack): seq<Event> {
    if |stk| <= 1 then [] else [Destroy(Top(stk))] + Unwind(stk[..|stk| - 1])
  }

  /**
    yyStackOverflow.  A shift has already moved yytos up, so its yytos-- merely undoes that.  A rule with
    an empty right-hand side has not, so there the top entry is stepped over: it is never destroyed,
    and if it is the bottom entry itself, yytos ends below the stack, which is the empty sequence here.
   */
  function OverflowShift(stk: Stack, room: Room): Out
    requires stk != []
  {
    Out([stk[0]], room, Unwind(stk) + [Overflow])
  }

  function OverflowReduce(stk: Stack, room: Room): Out
    requires stk != []
  {
    Out(if |stk| == 1 then [] else [stk[0]], room, [Skip(Top(stk))] + Unwind(stk[..|stk| - 1]) + [Overflow])
  }

  predicate IsToken(m: Automaton, tok: Token) { tok.major < m.t.nTerminal }

  predicate AreTokens(m: Automaton, toks: seq<Token>) {
    forall i :: 0 <= i < |toks| ==> IsToken(m, toks[i])
  }

  /** A stack a call may start from or leave behind: yytos may have run below it. */
  predicate Live(m: Automaton, stk: Stack)
    requires Shaped(m)
  {
    stk != [] ==> Inv(m, stk)
  }

  function ShiftEntry(m: Automaton, act: nat, tok: Token): Entry {
    Entry(StateNo(m.t, act), tok.major, Leaf(tok))
  }

  /** One iteration of the do-while loop: the call is done, or a reduction was made and the loop goes on. */
  datatype Step = Done(out: Out) | Next(room: Room, stk: Stack, ev: Event)

  function ShiftStep(m: Automaton, room: Room, stk: Stack, tok: Token, act: nat): Step
    requires stk != []
  {
    var (ok, room') := Reserve(room, |stk|);
    if ok then Done(Out(stk + [ShiftEntry(m, act, tok)], room', [Shift(ShiftEntry(m, act, tok))]))
    else Done(OverflowShift(stk, room'))
  }

  /** yy_reduce: the room for an empty right-hand side is checked first, then the handle is replaced. */
  function ReduceStep(m: Automaton, room: Room, stk: Stack, r: nat): Step
    requires Shaped(m) && r < |m.g| && |m.g[r].rhs| < |stk|
    requires GotoDefined(m.t, Top(Below(m, stk, r)).stateno, m.g[r].lhs)
  {
    var (ok, room') := if m.g[r].rhs == [] then Reserve(room, |stk|) else (true, room);
    if !ok then Done(OverflowReduce(stk, room'))
    else if GotoAction(m, stk, r) == m.t.AcceptAction() then
      Done(Out(Below(m, stk, r), room', [Accept(r, Handle(m, stk, r), Node(r, Values(Handle(m, stk, r))))]))
    else
      Next(room', Below(m, stk, r) + [Reduct(m, stk, r)], Reduce(r, Handle(m, stk, r), Reduct(m, stk, r)))
  }

  function OneStep(m: Automaton, room: Room, stk: Stack, tok: Token): Step
    requires Valid(m) && Inv(m, stk) && IsToken(m, tok)
  {
    var act := NextAction(m, stk, tok.major);
    if act <= m.t.MaxShiftReduce() then ShiftStep(m, room, stk, tok, act)
    else if act <= m.t.MaxReduce() then
      NextReduceIsPossible(m, stk, tok.major);
      ReduceStep(m, room, stk, act - m.t.MinReduce())
    else Done(Out(stk, room, [SyntaxError(tok)]))
  }

  /** The three branches of the loop body. */
  datatype Branch = ToShift(act: nat) | ToReduce(rule: nat) | ToRefuse

  function BranchTaken(m: Automaton, stk: Stack, tok: Token): Branch
    requires Valid(m) && Inv(m, stk) && IsToken(m, tok)
  {
    var act := NextAction(m, stk, tok.major);
    if act <= m.t.MaxShiftReduce() then ToShift(act)
    else if act <= m.t.MaxReduce() then ToReduce(act - m.t.MinReduce())
    else ToRefuse
  }

  /** Which branch the loop takes, with what its callees need, and nothing else about the tables. */
  lemma BranchOf(m: Automaton, room: Room, stk: Stack, tok: Token) returns (b: Branch)
    requires Valid(m) && Inv(m, stk) && IsToken(m, tok)
    ensures Shaped(m) && stk != [] && b == BranchTaken(m, stk, tok)
    ensures match b
            case ToShift(act) => OneStep(m, room, stk, tok) == ShiftStep(m, room, stk, tok, act)
            case ToReduce(r) =>
              && r < |m.g| && |m.g[r].rhs| < |stk|
              && GotoDefined(m.t, Top(Below(m, stk, r)).stateno, m.g[r].lhs)
              && OneStep(m, room, stk, tok) == ReduceStep(m, room, stk, r)
            case ToRefuse => OneStep(m, room, stk, tok) == Done(Out(stk, room, [SyntaxError(tok)]))
  {
    hide ShiftStep, ReduceStep;
    var act := NextAction(m, stk, tok.major);
    if act <= m.t.MaxShiftReduce() {
      b := ToShift(act);
    } else if act <= m.t.MaxReduce() {
      NextReduceIsPossible(m, stk, tok.major);
      b := ToReduce(act - m.t.MinReduce());
    } else {
      b := ToRefuse;
    }
  }

  lemma ShiftInv(m: Automaton, stk: Stack, tok: Token, act: nat)
    requires Valid(m) && Inv(m, stk) && IsToken(m, tok)
    requires act == NextAction(m, stk, tok.major) <= m.t.MaxShiftReduce()
    ensures IsState(m, Top(stk).stateno) && act == FindAction(m.t, Top(stk).stateno, tok.major)
    ensures EdgeOk(m, Top(stk).stateno, ReadAs(m.t, Top(stk).stateno, tok.major), act)
    ensures Inv(m, stk + [ShiftEntry(m, act, tok)])
  {
    var s := Top(stk).stateno;
    assert TokenOk(m, s, tok.major);
    ReadAsIsLegal(m.t, s, tok.major);
    PushInv(m, stk, ReadAs(m.t, s, tok.major), act, ShiftEntry(m, act, tok));
  }

  lemma ReduceStepKeepsInv(m: Automaton, room: Room, stk: Stack, r: nat, a: nat)
    requires Valid(m) && Inv(m, stk) && CanReduce(m, stk, r, Budget(m, Top(stk).stateno, a), a)
    ensures match ReduceStep(m, room, stk, r)
            case Done(o) => Live(m, o.stk)
            case Next(_, stk', _) => Inv(m, stk') && Measure(m, stk', a) < Measure(m, stk, a)
  {
    assert IsBottom(stk[0]);
    InitialInv(m, stk[0]);
    ReduceInv(m, stk, r, Budget(m, Top(stk).stateno, a), a);
    if GotoAction(m, stk, r) != m.t.AcceptAction() {
      ReduceLowersMeasure(m, stk, r, a);
    }
  }

  /** Every iteration keeps the invariant, and one that goes on lowers the measure. */
  lemma StepKeepsInv(m: Automaton, room: Room, stk: Stack, tok: Token)
    requires Valid(m) && Inv(m, stk) && IsToken(m, tok)
    ensures match OneStep(m, room, stk, tok)
            case Done(o) => Live(m, o.stk)
            case Next(_, stk', _) => Inv(m, stk') && Measure(m, stk', tok.major) < Measure(m, stk, tok.major)
  {
    hide ReduceStep, Measure;
    var act := NextAction(m, stk, tok.major);
    if act <= m.t.MaxShiftReduce() {
      ShiftInv(m, stk, tok, act);
      InitialInv(m, stk[0]);
    } else if act <= m.t.MaxReduce() {
      NextReduceIsPossible(m, stk, tok.major);
      ReduceStepKeepsInv(m, room, stk, act - m.t.MinReduce(), tok.major);
    }
  }

  /** An outcome after more events that came before it. */
  function After(ev: seq<Event>, o: Out): Out {
    Out(o.stk, o.room, ev + o.ev)
  }

  lemma AfterConcat(ev1: seq<Event>, ev2: seq<Event>, o: Out)
    ensures After(ev1, After(ev2, o)) == After(ev1 + ev2, o)
  {
    assert ev1 + (ev2 + o.ev) == (ev1 + ev2) + o.ev;
  }

  /** One call of sqlite3Parser: reductions until the token is shifted, refused, or ends the parse. */
  function Feed(m: Automaton, room: Room, stk: Stack, tok: Token): (o: Out)
    requires Valid(m) && Inv(m, stk) && IsToken(m, tok)
    ensures Live(m, o.stk)
    decreases Measure(m, stk, tok.major)
  {
    StepKeepsInv(m, room, stk, tok);
    match OneStep(m, room, stk, tok)
    case Done(o) => o
    case Next(room', stk', e) => After([e], Feed(m, room', stk', tok))
  }

  /** A token stream, one call per token; a stack that ran below its bottom is never used again. */
  function FeedAll(m: Automaton, room: Room, stk: Stack, toks: seq<Token>): (o: Out)
    requires Valid(m) && Live(m, stk) && AreTokens(m, toks)
    ensures Live(m, o.stk)
    decreases |toks|
  {
    if toks == [] || stk == [] then Out(stk, room, [])
    else
      var one := Feed(m, room, stk, toks[0]);
      After(one.ev, FeedAll(m, one.room, one.stk, toks[1..]))
  }

  /** A token stream given to a freshly allocated parser. */
  function FreshRun(m: Automaton, room: Room, bottom: Entry, toks: seq<Token>): (o: Out)
    requires Valid(m) && IsBottom(bottom) && AreTokens(m, toks)
    ensures Live(m, o.stk)
  {
    InitialInv(m, bottom);
    FeedAll(m, room, [bottom], toks)
  }

  /** A stream fed in two parts. */
  lemma {:induction false} FeedAllConcat(m: Automaton, room: Room, stk: Stack, a: seq<Token>, b: seq<Token>)
    requires Valid(m) && Live(m, stk) && AreTokens(m, a) && AreTokens(m, b)
    ensures AreTokens(m, a + b)
    ensures var first := FeedAll(m, room, stk, a);
            FeedAll(m, room, stk, a + b) == After(first.ev, FeedAll(m, first.room, first.stk, b))
    decreases |a|
  {
    hide Feed, Inv, Valid;
    if a == [] {
      assert a + b == b;
    } else if stk != [] {
      var one := Feed(m, room, stk, a[0]);
      FeedAllConcat(m, one.room, one.stk, a[1..], b);
      assert (a + b)[0] == a[0] && (a + b)[1..] == a[1..] + b;
      var first := FeedAll(m, one.room, one.stk, a[1..]);
      AfterConcat(one.ev, first.ev, FeedAll(m, first.room, first.stk, b));
    }
  }
}
