/**
  Accounting over whole runs: every entry pushed leaves exactly once, the height follows from the
  events, and after a reset the stack is as freshly allocated.
 */
module LemonConservation {
  import opened LemonTables
  import opened LemonGrammar
  import opened LemonStack
  import opened LemonDriver

  // ---------------------------------------------------------------- entries

  /**
    The total weight of a stack's entries.  Accounts are kept for an arbitrary weighting of entries; the
    weighting that is 1 on one entry and 0 elsewhere counts that entry.
   */
  function Total(w: Entry -> nat, stk: Stack): nat {
    if stk == [] then 0 else Total(w, stk[..|stk| - 1]) + w(Top(stk))
  }

  lemma {:induction false} TotalConcat(w: Entry -> nat, a: Stack, b: Stack)
    ensures Total(w, a + b) == Total(w, a) + Total(w, b)
    decreases |b|
  {
    if b == [] {
      assert a + b == a;
    } else {
      assert (a + b)[..|a + b| - 1] == a + b[..|b| - 1];
      TotalConcat(w, a, b[..|b| - 1]);
    }
  }

  lemma TotalSingle(w: Entry -> nat, e: Entry)
    ensures Total(w, [e]) == w(e)
  {
    assert [e][..0] == [];
  }

  /** What was pushed, taken up into values, destroyed, and stepped over. */
  datatype Account = Account(pushed: nat, consumed: nat, destroyed: nat, skipped: nat)
  {
    function Left(): nat { consumed + destroyed + skipped }
  }

  function Sum(a: Account, b: Account): Account {
    Account(a.pushed + b.pushed, a.consumed + b.consumed, a.destroyed + b.destroyed, a.skipped + b.skipped)
  }

  function TallyOne(w: Entry -> nat, e: Event): Account {
    match e
    case Shift(entry) => Account(w(entry), 0, 0, 0)
    case Reduce(_, popped, pushed) => Account(w(pushed), Total(w, popped), 0, 0)
    case Accept(_, popped, _) => Account(0, Total(w, popped), 0, 0)
    case Destroy(entry) => Account(0, 0, w(entry), 0)
    case Skip(entry) => Account(0, 0, 0, w(entry))
    case _ => Account(0, 0, 0, 0)
  }

  function Tally(w: Entry -> nat, ev: seq<Event>): Account {
    if ev == [] then Account(0, 0, 0, 0) else Sum(TallyOne(w, ev[0]), Tally(w, ev[1..]))
  }

  lemma TallyEmpty(w: Entry -> nat, ev: seq<Event>)
    requires |ev| == 0
    ensures Tally(w, ev) == Account(0, 0, 0, 0)
  {
  }

  lemma {:induction false} TallyConcat(w: Entry -> nat, a: seq<Event>, b: seq<Event>)
    ensures Tally(w, a + b) == Sum(Tally(w, a), Tally(w, b))
    decreases |a|
  {
    if a == [] {
      assert a + b == b;
    } else {
      assert (a + b)[0] == a[0] && (a + b)[1..] == a[1..] + b;
      TallyConcat(w, a[1..], b);
    }
  }

  lemma TallySingle(w: Entry -> nat, e: Event)
    ensures Tally(w, [e]) == TallyOne(w, e)
  {
    assert [e][1..] == [];
  }

  /** Between two stacks entries came and went as the events say. */
  predicate Balanced(w: Entry -> nat, before: Stack, ev: seq<Event>, now: Stack) {
    Total(w, before) + Tally(w, ev).pushed == Tally(w, ev).Left() + Total(w, now)
  }

  /** Unwinding a stack of this bottom destroys all the rest and does nothing else. */
  predicate UnwindsTo(w: Entry -> nat, bottom: Entry, t: Account, total: nat) {
    t.Left() == t.destroyed && t.pushed == 0 && t.destroyed + w(bottom) == total
  }

  lemma {:induction false} UnwindAccounts(w: Entry -> nat, stk: Stack)
    requires |stk| > 0
    ensures UnwindsTo(w, stk[0], Tally(w, Unwind(stk)), Total(w, stk))
    decreases |stk|
  {
    hide Tally;
    if |stk| == 1 {
      TotalSingle(w, stk[0]);
      assert stk == [stk[0]];
      TallyEmpty(w, Unwind(stk));
    } else {
      var low := stk[..|stk| - 1];
      UnwindAccounts(w, low);
      TallySingle(w, Destroy(Top(stk)));
      TallyConcat(w, [Destroy(Top(stk))], Unwind(low));
    }
  }

  lemma OverflowShiftAccounts(w: Entry -> nat, stk: Stack, room: Room)
    requires stk != []
    ensures Balanced(w, stk, OverflowShift(stk, room).ev, OverflowShift(stk, room).stk)
  {
    hide Unwind, Tally, Total;
    UnwindAccounts(w, stk);
    TallyConcat(w, Unwind(stk), [Overflow]);
    TallySingle(w, Overflow);
    TotalSingle(w, stk[0]);
  }

  /** The events of an overflow that steps over entry e and then unwinds `low`. */
  lemma SkipAccounts(w: Entry -> nat, low: Stack, e: Entry)
    ensures var t := Tally(w, [Skip(e)] + Unwind(low) + [Overflow]);
            t == Sum(Account(0, 0, 0, w(e)), Tally(w, Unwind(low)))
    ensures Total(w, low + [e]) == Total(w, low) + w(e)
  {
    hide Unwind, Tally, Total;
    TallySingle(w, Overflow);
    TallySingle(w, Skip(e));
    TallyConcat(w, [Skip(e)], Unwind(low));
    TallyConcat(w, [Skip(e)] + Unwind(low), [Overflow]);
    TotalConcat(w, low, [e]);
    TotalSingle(w, e);
  }

  lemma OverflowReduceAccounts(w: Entry -> nat, stk: Stack, room: Room)
    requires |stk| > 0
    ensures Balanced(w, stk, OverflowReduce(stk, room).ev, OverflowReduce(stk, room).stk)
  {
    hide Unwind, Tally, Total;
    var low := stk[..|stk| - 1];
    SkipAccounts(w, low, Top(stk));
    assert stk == low + [Top(stk)];
    if |low| > 0 {
      UnwindAccounts(w, low);
      TotalSingle(w, stk[0]);
    } else {
      NothingToUnwind(w, low);
    }
  }

  lemma ReduceAccounts(w: Entry -> nat, m: Automaton, room: Room, stk: Stack, r: nat)
    requires Shaped(m) && r < |m.g| && |m.g[r].rhs| < |stk|
    requires GotoDefined(m.t, Top(Below(m, stk, r)).stateno, m.g[r].lhs)
    ensures match ReduceStep(m, room, stk, r)
            case Done(o) => Balanced(w, stk, o.ev, o.stk)
            case Next(_, stk', e) => Balanced(w, stk, [e], stk')
  {
    hide Balanced, Shaped;
    OverflowReduceAccounts(w, stk, Reserve(room, |stk|).1);
    HandleAccounts(w, Below(m, stk, r), Handle(m, stk, r), r, Reduct(m, stk, r), Node(r, Values(Handle(m, stk, r))));
    assert stk == Below(m, stk, r) + Handle(m, stk, r);
  }

  lemma HandleAccounts(w: Entry -> nat, low: Stack, handle: Stack, r: nat, e: Entry, v: Tree)
    ensures Balanced(w, low + handle, [Reduce(r, handle, e)], low + [e])
    ensures Balanced(w, low + handle, [Accept(r, handle, v)], low)
  {
    TotalConcat(w, low, handle);
    TotalConcat(w, low, [e]);
    TotalSingle(w, e);
    TallySingle(w, Accept(r, handle, v));
    TallySingle(w, Reduce(r, handle, e));
  }

  lemma ShiftAccounts(w: Entry -> nat, m: Automaton, room: Room, stk: Stack, tok: Token, act: nat)
    requires stk != []
    ensures var s := ShiftStep(m, room, stk, tok, act); s.Done? && Balanced(w, stk, s.out.ev, s.out.stk)
  {
    hide Tally, Total, OverflowShift;
    var e := ShiftEntry(m, act, tok);
    OverflowShiftAccounts(w, stk, Reserve(room, |stk|).1);
    TotalConcat(w, stk, [e]);
    TotalSingle(w, e);
    TallySingle(w, Shift(e));
  }

  lemma ErrorAccounts(w: Entry -> nat, stk: Stack, tok: Token)
    ensures Balanced(w, stk, [SyntaxError(tok)], stk)
  {
    hide Tally, Total;
    TallySingle(w, SyntaxError(tok));
  }

  lemma StepAccounts(w: Entry -> nat, m: Automaton, room: Room, stk: Stack, tok: Token)
    requires Valid(m) && Inv(m, stk) && IsToken(m, tok)
    ensures match OneStep(m, room, stk, tok)
            case Done(o) => Balanced(w, stk, o.ev, o.stk)
            case Next(_, stk', e) => Balanced(w, stk, [e], stk')
  {
    hide OneStep, Inv, ShiftStep, ReduceStep, Balanced;
    var b := BranchOf(m, room, stk, tok);
    match b
    case ToShift(act) => ShiftAccounts(w, m, room, stk, tok, act);
    case ToReduce(r) => ReduceAccounts(w, m, room, stk, r);
    case ToRefuse => ErrorAccounts(w, stk, tok);
  }

  lemma BalancedConcat(w: Entry -> nat, a: Stack, ev1: seq<Event>, b: Stack, ev2: seq<Event>, c: Stack)
    requires Balanced(w, a, ev1, b) && Balanced(w, b, ev2, c)
    ensures Balanced(w, a, ev1 + ev2, c)
  {
    TallyConcat(w, ev1, ev2);
  }

  lemma NothingBalanced(w: Entry -> nat, stk: Stack, ev: seq<Event>)
    requires |ev| == 0
    ensures Balanced(w, stk, ev, stk)
  {
    hide Tally;
    TallyEmpty(w, ev);
  }

  lemma {:induction false} FeedConserves(w: Entry -> nat, m: Automaton, room: Room, stk: Stack, tok: Token)
    requires Valid(m) && Inv(m, stk) && IsToken(m, tok)
    ensures Balanced(w, stk, Feed(m, room, stk, tok).ev, Feed(m, room, stk, tok).stk)
    decreases Measure(m, stk, tok.major)
  {
    hide OneStep, Inv, Balanced;
    StepKeepsInv(m, room, stk, tok);
    StepAccounts(w, m, room, stk, tok);
    match OneStep(m, room, stk, tok)
    case Done(_) =>
    case Next(room', stk', e) =>
      FeedConserves(w, m, room', stk', tok);
      var o := Feed(m, room', stk', tok);
      BalancedConcat(w, stk, [e], stk', o.ev, o.stk);
  }

  lemma {:induction false} RunConserves(w: Entry -> nat, m: Automaton, room: Room, stk: Stack, toks: seq<Token>)
    requires Valid(m) && Live(m, stk) && AreTokens(m, toks)
    ensures Balanced(w, stk, FeedAll(m, room, stk, toks).ev, FeedAll(m, room, stk, toks).stk)
    decreases |toks|
  {
    hide Feed, Inv, Balanced;
    if toks != [] && stk != [] {
      var one := Feed(m, room, stk, toks[0]);
      FeedConserves(w, m, room, stk, toks[0]);
      RunConserves(w, m, one.room, one.stk, toks[1..]);
      var o := FeedAll(m, one.room, one.stk, toks[1..]);
      BalancedConcat(w, stk, one.ev, one.stk, o.ev, o.stk);
    } else {
      NothingBalanced(w, stk, FeedAll(m, room, stk, toks).ev);
    }
  }

  /** The events of a parser's whole life: parse, then sqlite3ParserFree. */
  function Lifetime(m: Automaton, room: Room, bottom: Entry, toks: seq<Token>): seq<Event>
    requires Valid(m) && IsBottom(bottom) && AreTokens(m, toks)
  {
    var o := FreshRun(m, room, bottom, toks);
    o.ev + Unwind(o.stk)
  }

  /**
    From allocation to sqlite3ParserFree every entry leaves exactly once: into a value, through its
    destructor, or stepped over by yyStackOverflow.  The bottom entry stays, unless it is the one that
    was stepped over.
   */
  lemma EveryEntryLeavesOnce(w: Entry -> nat, m: Automaton, room: Room, bottom: Entry, toks: seq<Token>)
    requires Valid(m) && IsBottom(bottom) && AreTokens(m, toks)
    ensures var life := Tally(w, Lifetime(m, room, bottom, toks));
            life.consumed + life.destroyed + life.skipped ==
            life.pushed + (if FreshRun(m, room, bottom, toks).stk == [] then w(bottom) else 0)
  {
    hide Feed, Inv, FeedAll, Unwind, Tally, Total;
    InitialInv(m, bottom);
    TotalSingle(w, bottom);
    var o := FreshRun(m, room, bottom, toks);
    RunConserves(w, m, room, [bottom], toks);
    TallyConcat(w, o.ev, Unwind(o.stk));
    if |o.stk| > 0 {
      BottomStays(m, room, [bottom], toks);
      UnwindAccounts(w, o.stk);
    } else {
      NothingToUnwind(w, o.stk);
    }
  }

  lemma NothingToUnwind(w: Entry -> nat, stk: Stack)
    requires |stk| == 0
    ensures |Unwind(stk)| == 0 && Tally(w, Unwind(stk)) == Account(0, 0, 0, 0) && Total(w, stk) == 0
  {
    hide Tally;
    TallyEmpty(w, Unwind(stk));
  }

  // ---------------------------------------------------------------- the bottom and resets

  lemma ReduceKeepsBottom(m: Automaton, room: Room, stk: Stack, r: nat)
    requires Shaped(m) && r < |m.g| && |m.g[r].rhs| < |stk|
    requires GotoDefined(m.t, Top(Below(m, stk, r)).stateno, m.g[r].lhs)
    ensures match ReduceStep(m, room, stk, r)
            case Done(o) => o.stk != [] ==> o.stk[0] == stk[0]
            case Next(_, stk', _) => |stk'| >= 2 && stk'[0] == stk[0]
  {
  }

  lemma StepKeepsBottom(m: Automaton, room: Room, stk: Stack, tok: Token)
    requires Valid(m) && Inv(m, stk) && IsToken(m, tok)
    ensures match OneStep(m, room, stk, tok)
            case Done(o) => o.stk != [] ==> o.stk[0] == stk[0]
            case Next(_, stk', _) => |stk'| >= 2 && stk'[0] == stk[0]
  {
    hide OneStep, Inv, ReduceStep;
    var b := BranchOf(m, room, stk, tok);
    if b.ToReduce? {
      ReduceKeepsBottom(m, room, stk, b.rule);
    }
  }

  lemma {:induction false} FeedKeepsBottom(m: Automaton, room: Room, stk: Stack, tok: Token)
    requires Valid(m) && Inv(m, stk) && IsToken(m, tok)
    ensures var o := Feed(m, room, stk, tok); o.stk != [] ==> o.stk[0] == stk[0]
    decreases Measure(m, stk, tok.major)
  {
    hide OneStep, Inv;
    StepKeepsInv(m, room, stk, tok);
    StepKeepsBottom(m, room, stk, tok);
    match OneStep(m, room, stk, tok)
    case Done(_) =>
    case Next(room', stk', _) => FeedKeepsBottom(m, room', stk', tok);
  }

  /** The bottom entry is never overwritten. */
  lemma {:induction false} BottomStays(m: Automaton, room: Room, stk: Stack, toks: seq<Token>)
    requires Valid(m) && Live(m, stk) && AreTokens(m, toks)
    ensures var o := FeedAll(m, room, stk, toks); o.stk != [] ==> stk != [] && o.stk[0] == stk[0]
    decreases |toks|
  {
    hide Feed, Inv;
    if toks != [] && stk != [] {
      FeedKeepsBottom(m, room, stk, toks[0]);
      var one := Feed(m, room, stk, toks[0]);
      BottomStays(m, one.room, one.stk, toks[1..]);
    }
  }

  /** The one way below the bottom: an empty reduction on the bare bottom entry with no room for its left-hand side. */
  predicate Underflows(m: Automaton, room: Room, stk: Stack, tok: Token)
    requires Valid(m) && Inv(m, stk) && IsToken(m, tok)
  {
    var act := NextAction(m, stk, tok.major);
    && |stk| == 1
    && IsPending(m, act) && m.g[act - m.t.MinReduce()].rhs == []
    && !Reserve(room, 1).0
  }

  lemma {:induction false} UnderflowIff(m: Automaton, room: Room, stk: Stack, tok: Token)
    requires Valid(m) && Inv(m, stk) && IsToken(m, tok)
    ensures Feed(m, room, stk, tok).stk == [] <==> Underflows(m, room, stk, tok)
    decreases Measure(m, stk, tok.major)
  {
    StepKeepsInv(m, room, stk, tok);
    StepKeepsBottom(m, room, stk, tok);
    StepUnderflow(m, room, stk, tok);
    match OneStep(m, room, stk, tok)
    case Done(_) =>
    case Next(room', stk', _) => UnderflowIff(m, room', stk', tok);
  }

  lemma ReduceUnderflow(m: Automaton, room: Room, stk: Stack, r: nat)
    requires Shaped(m) && r < |m.g| && |m.g[r].rhs| < |stk|
    requires GotoDefined(m.t, Top(Below(m, stk, r)).stateno, m.g[r].lhs)
    ensures var s := ReduceStep(m, room, stk, r);
            (s.Done? && s.out.stk == []) <==> (|stk| == 1 && m.g[r].rhs == [] && !Reserve(room, 1).0)
  {
  }

  lemma StepUnderflow(m: Automaton, room: Room, stk: Stack, tok: Token)
    requires Valid(m) && Inv(m, stk) && IsToken(m, tok)
    ensures var s := OneStep(m, room, stk, tok); (s.Done? && s.out.stk == []) <==> Underflows(m, room, stk, tok)
  {
    hide ReduceStep;
    var act := NextAction(m, stk, tok.major);
    if m.t.MaxShiftReduce() < act <= m.t.MaxReduce() {
      NextReduceIsPossible(m, stk, tok.major);
      ReduceUnderflow(m, room, stk, act - m.t.MinReduce());
    }
  }

  /** Two slots suffice to stay above the bottom for good. */
  predicate RoomForTwo(room: Room) { room.Bounded? ==> room.cap >= 2 }

  lemma {:induction false} NeverUnderflows(m: Automaton, room: Room, stk: Stack, toks: seq<Token>)
    requires Valid(m) && Live(m, stk) && stk != [] && AreTokens(m, toks) && RoomForTwo(room)
    ensures FeedAll(m, room, stk, toks).stk != []
    decreases |toks|
  {
    hide Feed, Inv;
    if toks != [] {
      UnderflowIff(m, room, stk, toks[0]);
      FeedKeepsRoom(m, room, stk, toks[0]);
      var one := Feed(m, room, stk, toks[0]);
      NeverUnderflows(m, one.room, one.stk, toks[1..]);
    }
  }

  predicate RoomGrew(room: Room, room': Room) {
    match room
    case Unbounded => room' == Unbounded
    case Bounded(cap, allocs) => room'.Bounded? && cap <= room'.cap && (allocs == [] ==> room' == room)
  }

  lemma StepKeepsRoom(m: Automaton, room: Room, stk: Stack, tok: Token)
    requires Valid(m) && Inv(m, stk) && IsToken(m, tok)
    ensures match OneStep(m, room, stk, tok)
            case Done(o) => RoomGrew(room, o.room)
            case Next(room', _, _) => RoomGrew(room, room')
  {
    hide OneStep, Inv;
    var b := BranchOf(m, room, stk, tok);
  }

  lemma {:induction false} FeedKeepsRoom(m: Automaton, room: Room, stk: Stack, tok: Token)
    requires Valid(m) && Inv(m, stk) && IsToken(m, tok)
    ensures RoomGrew(room, Feed(m, room, stk, tok).room)
    decreases Measure(m, stk, tok.major)
  {
    hide OneStep, Inv;
    StepKeepsInv(m, room, stk, tok);
    StepKeepsRoom(m, room, stk, tok);
    match OneStep(m, room, stk, tok)
    case Done(_) =>
    case Next(room', stk', _) => FeedKeepsRoom(m, room', stk', tok);
  }

  lemma {:induction false} RunKeepsRoom(m: Automaton, room: Room, stk: Stack, toks: seq<Token>)
    requires Valid(m) && Live(m, stk) && AreTokens(m, toks)
    ensures RoomGrew(room, FeedAll(m, room, stk, toks).room)
    decreases |toks|
  {
    hide Feed, Inv;
    if toks != [] && stk != [] {
      var one := Feed(m, room, stk, toks[0]);
      FeedKeepsRoom(m, room, stk, toks[0]);
      RunKeepsRoom(m, one.room, one.stk, toks[1..]);
    }
  }

  predicate Resets(e: Event) { e.Accept? || e.Overflow? }

  /** Only the last event resets the stack, and then nothing stays above the bottom. */
  predicate ResetsLast(stk: Stack, o: Out)
    requires stk != []
  {
    forall i :: 0 <= i < |o.ev| && Resets(o.ev[i]) ==> i == |o.ev| - 1 && (o.stk == [] || o.stk == [stk[0]])
  }

  /** An accept or an overflow ends the call with nothing above the bottom. */
  lemma {:induction false} ResetIsBare(m: Automaton, room: Room, stk: Stack, tok: Token)
    requires Valid(m) && Inv(m, stk) && IsToken(m, tok)
    ensures ResetsLast(stk, Feed(m, room, stk, tok))
    decreases Measure(m, stk, tok.major)
  {
    hide OneStep, Inv;
    StepKeepsInv(m, room, stk, tok);
    StepKeepsBottom(m, room, stk, tok);
    StepResets(m, room, stk, tok);
    match OneStep(m, room, stk, tok)
    case Done(_) =>
    case Next(room', stk', _) => ResetIsBare(m, room', stk', tok);
  }

  lemma {:induction false} UnwindOnlyDestroys(stk: Stack)
    ensures forall i :: 0 <= i < |Unwind(stk)| ==> Unwind(stk)[i].Destroy?
    decreases |stk|
  {
    if |stk| > 1 {
      UnwindOnlyDestroys(stk[..|stk| - 1]);
    }
  }

  lemma OverflowResetsLast(stk: Stack, room: Room)
    requires stk != []
    ensures ResetsLast(stk, OverflowShift(stk, room)) && ResetsLast(stk, OverflowReduce(stk, room))
  {
    UnwindOnlyDestroys(stk);
    UnwindOnlyDestroys(stk[..|stk| - 1]);
  }

  lemma StepResets(m: Automaton, room: Room, stk: Stack, tok: Token)
    requires Valid(m) && Inv(m, stk) && IsToken(m, tok)
    ensures var s := OneStep(m, room, stk, tok);
            if s.Done? then ResetsLast(stk, s.out) else !Resets(s.ev)
  {
    hide OneStep, Inv, OverflowShift, ReduceStep;
    var b := BranchOf(m, room, stk, tok);
    OverflowResetsLast(stk, Reserve(room, |stk|).1);
    if b.ToReduce? {
      AcceptIsBare(m, stk, tok, b.rule);
      ReduceResets(m, room, stk, b.rule);
    }
  }

  lemma AcceptIsBare(m: Automaton, stk: Stack, tok: Token, r: nat)
    requires Valid(m) && Inv(m, stk) && IsToken(m, tok) && NextAction(m, stk, tok.major) == m.t.MinReduce() + r
    requires r < |m.g|
    ensures |m.g[r].rhs| < |stk| && GotoDefined(m.t, Top(Below(m, stk, r)).stateno, m.g[r].lhs)
    ensures GotoAction(m, stk, r) == m.t.AcceptAction() ==> Below(m, stk, r) == [stk[0]]
  {
    NextReduceIsPossible(m, stk, tok.major);
    ReduceInv(m, stk, r, Budget(m, Top(stk).stateno, tok.major), tok.major);
  }

  lemma ReduceResets(m: Automaton, room: Room, stk: Stack, r: nat)
    requires Shaped(m) && r < |m.g| && |m.g[r].rhs| < |stk|
    requires GotoDefined(m.t, Top(Below(m, stk, r)).stateno, m.g[r].lhs)
    requires GotoAction(m, stk, r) == m.t.AcceptAction() ==> Below(m, stk, r) == [stk[0]]
    ensures var s := ReduceStep(m, room, stk, r);
            if s.Done? then ResetsLast(stk, s.out) else !Resets(s.ev)
  {
    hide OverflowReduce, Shaped;
    OverflowResetsLast(stk, Reserve(room, |stk|).1);
  }

  /**
    A second input, on any kind of stack: if the first left the bare bottom, it runs exactly as on a fresh parser
    with the stack as it has become.
   */
  lemma SecondParseIsFresh(m: Automaton, room: Room, bottom: Entry, a: seq<Token>, b: seq<Token>)
    requires Valid(m) && IsBottom(bottom) && AreTokens(m, a) && AreTokens(m, b)
    requires |FreshRun(m, room, bottom, a).stk| == 1
    ensures AreTokens(m, a + b)
    ensures var first := FreshRun(m, room, bottom, a);
            FreshRun(m, room, bottom, a + b) == After(first.ev, FreshRun(m, first.room, bottom, b))
  {
    hide Feed, FeedAll;
    InitialInv(m, bottom);
    FeedAllConcat(m, room, [bottom], a, b);
    BottomStays(m, room, [bottom], a);
    var first := FeedAll(m, room, [bottom], a);
    assert first.stk == [bottom];
  }

  /** A fixed stack is as it was, so there the second run is that of a newly allocated parser. */
  lemma FixedStackStays(m: Automaton, cap: nat, bottom: Entry, toks: seq<Token>)
    requires Valid(m) && IsBottom(bottom) && AreTokens(m, toks)
    ensures FreshRun(m, Bounded(cap, []), bottom, toks).room == Bounded(cap, [])
  {
    hide FeedAll;
    InitialInv(m, bottom);
    RunKeepsRoom(m, Bounded(cap, []), [bottom], toks);
  }

  // ---------------------------------------------------------------- tokens

  /** The call's token is disposed of: shifted, refused, or spent on an accept or an overflow. */
  predicate Settles(e: Event) { e.Shift? || e.SyntaxError? || e.Accept? || e.Overflow? }

  predicate IsFateOf(tok: Token, e: Event) {
    match e
    case Shift(entry) => entry.minor == Leaf(tok) && entry.major == tok.major
    case SyntaxError(refused) => refused == tok
    case Accept(_, _, _) => true
    case Overflow => true
    case _ => false
  }

  /** The last event of a call, and no other, is the fate of its token. */
  predicate CallShape(tok: Token, ev: seq<Event>) {
    && |ev| > 0
    && (forall i :: 0 <= i < |ev| - 1 ==> !Settles(ev[i]))
    && IsFateOf(tok, ev[|ev| - 1])
  }

  lemma OverflowShape(stk: Stack, room: Room, tok: Token)
    requires stk != []
    ensures CallShape(tok, OverflowShift(stk, room).ev) && CallShape(tok, OverflowReduce(stk, room).ev)
  {
    UnwindOnlyDestroys(stk);
    UnwindOnlyDestroys(stk[..|stk| - 1]);
  }

  lemma StepShape(m: Automaton, room: Room, stk: Stack, tok: Token)
    requires Valid(m) && Inv(m, stk) && IsToken(m, tok)
    ensures var s := OneStep(m, room, stk, tok);
            if s.Done? then CallShape(tok, s.out.ev) else s.ev.Reduce?
  {
    hide OneStep, Inv, OverflowShift, OverflowReduce;
    var b := BranchOf(m, room, stk, tok);
    OverflowShape(stk, Reserve(room, |stk|).1, tok);
  }

  lemma {:induction false} FeedShape(m: Automaton, room: Room, stk: Stack, tok: Token)
    requires Valid(m) && Inv(m, stk) && IsToken(m, tok)
    ensures CallShape(tok, Feed(m, room, stk, tok).ev)
    decreases Measure(m, stk, tok.major)
  {
    hide OneStep, Inv;
    StepKeepsInv(m, room, stk, tok);
    StepShape(m, room, stk, tok);
    match OneStep(m, room, stk, tok)
    case Done(_) =>
    case Next(room', stk', e) => FeedShape(m, room', stk', tok);
  }

  /** The fates in a run, in order. */
  function Fates(ev: seq<Event>): seq<Event>
    decreases |ev|
  {
    if ev == [] then [] else (if Settles(ev[0]) then [ev[0]] else []) + Fates(ev[1..])
  }

  lemma {:induction false} FatesConcat(a: seq<Event>, b: seq<Event>)
    ensures Fates(a + b) == Fates(a) + Fates(b)
    decreases |a|
  {
    hide Settles;
    if |a| == 0 {
      assert a + b == b;
    } else {
      assert (a + b)[0] == a[0] && (a + b)[1..] == a[1..] + b;
      FatesConcat(a[1..], b);
    }
  }

  lemma {:induction false} FatesOfCall(tok: Token, ev: seq<Event>)
    requires CallShape(tok, ev)
    ensures Fates(ev) == [ev[|ev| - 1]]
    decreases |ev|
  {
    if |ev| > 1 {
      assert !Settles(ev[0]);
      FatesOfCall(tok, ev[1..]);
    } else {
      assert ev[1..] == [];
    }
  }

  /** The i-th fate is that of the i-th token. */
  predicate AreFatesOf(toks: seq<Token>, fates: seq<Event>) {
    |fates| <= |toks| && forall i :: 0 <= i < |fates| ==> IsFateOf(toks[i], fates[i])
  }

  lemma FatesOfMore(tok: Token, toks: seq<Token>, fate: Event, fates: seq<Event>)
    requires IsFateOf(tok, fate) && AreFatesOf(toks, fates)
    ensures AreFatesOf([tok] + toks, [fate] + fates)
  {
    hide IsFateOf;
  }

  /**
    Every token fed has exactly one fate: it is shifted with its own code and text, refused with a report that names
    it, or spent on an accept or an overflow.  None is lost, doubled or taken out of turn, on any stream.
   */
  lemma {:induction false} EveryTokenHasOneFate(m: Automaton, room: Room, stk: Stack, toks: seq<Token>)
    requires Valid(m) && Live(m, stk) && AreTokens(m, toks)
    ensures var o := FeedAll(m, room, stk, toks);
            AreFatesOf(toks, Fates(o.ev)) && (o.stk != [] ==> |Fates(o.ev)| == |toks|)
    decreases |toks|
  {
    hide Feed, Inv, IsFateOf, Settles, Fates, AreFatesOf;
    if |toks| == 0 || |stk| == 0 {
      NoFates(toks, FeedAll(m, room, stk, toks).ev);
    } else {
      var one := Feed(m, room, stk, toks[0]);
      FeedShape(m, room, stk, toks[0]);
      FatesOfCall(toks[0], one.ev);
      EveryTokenHasOneFate(m, one.room, one.stk, toks[1..]);
      var rest := FeedAll(m, one.room, one.stk, toks[1..]).ev;
      FatesConcat(one.ev, rest);
      FatesOfMore(toks[0], toks[1..], one.ev[|one.ev| - 1], Fates(rest));
      assert [toks[0]] + toks[1..] == toks;
    }
  }

  lemma NoFates(toks: seq<Token>, ev: seq<Event>)
    requires |ev| == 0
    ensures AreFatesOf(toks, Fates(ev)) && |Fates(ev)| == 0
  {
  }

  // ---------------------------------------------------------------- height

  function Nrhs(m: Automaton, r: nat): int {
    if r < m.t.NRule() then m.t.rules[r].nrhs else 0
  }

  /** What an event adds to the height, by rule sizes alone. */
  function Delta(m: Automaton, e: Event): int {
    match e
    case Shift(_) => 1
    case Reduce(r, _, _) => 1 - Nrhs(m, r)
    case Accept(r, _, _) => -Nrhs(m, r)
    case _ => 0
  }

  function Net(m: Automaton, ev: seq<Event>): int {
    if ev == [] then 0 else Delta(m, ev[0]) + Net(m, ev[1..])
  }

  predicate NoOverflow(ev: seq<Event>) {
    forall i :: 0 <= i < |ev| ==> !ev[i].Overflow?
  }

  lemma {:induction false} NetConcat(m: Automaton, a: seq<Event>, b: seq<Event>)
    ensures Net(m, a + b) == Net(m, a) + Net(m, b)
    decreases |a|
  {
    if a == [] {
      assert a + b == b;
    } else {
      assert (a + b)[0] == a[0] && (a + b)[1..] == a[1..] + b;
      NetConcat(m, a[1..], b);
    }
  }

  lemma OverflowReports(stk: Stack, room: Room)
    requires stk != []
    ensures !NoOverflow(OverflowShift(stk, room).ev) && !NoOverflow(OverflowReduce(stk, room).ev)
  {
    var o := OverflowShift(stk, room);
    assert o.ev[|o.ev| - 1] == Overflow;
    var q := OverflowReduce(stk, room);
    assert q.ev[|q.ev| - 1] == Overflow;
  }

  lemma ReduceHeight(m: Automaton, room: Room, stk: Stack, r: nat)
    requires Shaped(m) && r < |m.g| && |m.g[r].rhs| < |stk|
    requires GotoDefined(m.t, Top(Below(m, stk, r)).stateno, m.g[r].lhs)
    ensures var s := ReduceStep(m, room, stk, r);
            if s.Done? then NoOverflow(s.out.ev) ==> |s.out.stk| == |stk| + Net(m, s.out.ev)
            else |s.stk| == |stk| + Delta(m, s.ev)
  {
    OverflowReports(stk, Reserve(room, |stk|).1);
    var v := Accept(r, Handle(m, stk, r), Node(r, Values(Handle(m, stk, r))));
    assert [v][1..] == [];
  }

  lemma StepHeight(m: Automaton, room: Room, stk: Stack, tok: Token)
    requires Valid(m) && Inv(m, stk) && IsToken(m, tok)
    ensures var s := OneStep(m, room, stk, tok);
            if s.Done? then NoOverflow(s.out.ev) ==> |s.out.stk| == |stk| + Net(m, s.out.ev)
            else |s.stk| == |stk| + Delta(m, s.ev)
  {
    hide OneStep, Inv, ReduceStep, NoOverflow;
    var b := BranchOf(m, room, stk, tok);
    OverflowReports(stk, Reserve(room, |stk|).1);
    if b.ToReduce? {
      ReduceHeight(m, room, stk, b.rule);
    }
  }

  lemma {:induction false} FeedHeight(m: Automaton, room: Room, stk: Stack, tok: Token)
    requires Valid(m) && Inv(m, stk) && IsToken(m, tok)
    ensures var o := Feed(m, room, stk, tok); NoOverflow(o.ev) ==> |o.stk| == |stk| + Net(m, o.ev)
    decreases Measure(m, stk, tok.major)
  {
    hide OneStep, Inv;
    StepKeepsInv(m, room, stk, tok);
    StepHeight(m, room, stk, tok);
    match OneStep(m, room, stk, tok)
    case Done(_) =>
    case Next(room', stk', e) =>
      FeedHeight(m, room', stk', tok);
      var ev := Feed(m, room', stk', tok).ev;
      assert ([e] + ev)[1..] == ev;
      if NoOverflow([e] + ev) {
        assert forall i :: 0 <= i < |ev| ==> ev[i] == ([e] + ev)[i + 1];
      }
  }

  /** Without overflow the height is what shifts add and reductions take. */
  lemma {:induction false} RunHeight(m: Automaton, room: Room, stk: Stack, toks: seq<Token>)
    requires Valid(m) && Live(m, stk) && AreTokens(m, toks)
    ensures var o := FeedAll(m, room, stk, toks); NoOverflow(o.ev) ==> |o.stk| == |stk| + Net(m, o.ev)
    decreases |toks|
  {
    hide Feed, Inv;
    if toks != [] && stk != [] {
      var one := Feed(m, room, stk, toks[0]);
      FeedHeight(m, room, stk, toks[0]);
      RunHeight(m, one.room, one.stk, toks[1..]);
      var ev := FeedAll(m, one.room, one.stk, toks[1..]).ev;
      NetConcat(m, one.ev, ev);
      if NoOverflow(one.ev + ev) {
        assert forall i :: 0 <= i < |one.ev| ==> one.ev[i] == (one.ev + ev)[i];
        assert forall i :: 0 <= i < |ev| ==> ev[i] == (one.ev + ev)[|one.ev| + i];
      }
    }
  }
}
