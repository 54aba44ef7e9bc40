/**
  What every run of the driver keeps: the tokens it holds, the entries it owns, the height of its
  stack, and the number of reductions a token can cause.
 */
module LemonSound {
  import opened LemonTables
  import opened LemonGrammar
  import opened LemonStack
  import opened LemonDriver

  // ---------------------------------------------------------------- sound acceptance

  /** The tokens under the entries above the bottom. */
  function Held(stk: Stack): seq<Token> {
    if stk == [] then [] else YieldAll(Values(stk[1..]))
  }

  function TrackOne(w: seq<Token>, e: Event): seq<Token> {
    match e
    case Shift(entry) => w + Yield(entry.minor)
    case Accept(_, _, _) => []
    case Overflow => []
    case _ => w
  }

  /** The tokens shifted since the last reset, given those held before the events. */
  function Track(w: seq<Token>, ev: seq<Event>): seq<Token>
    decreases |ev|
  {
    if ev == [] then w else Track(TrackOne(w, ev[0]), ev[1..])
  }

  /** Each accepted value is a tree of the start symbol over exactly the tokens shifted since the last reset. */
  ghost predicate AcceptsAreDerivations(m: Automaton, w: seq<Token>, ev: seq<Event>)
    requires Shaped(m)
  {
    forall i :: 0 <= i < |ev| && ev[i].Accept? ==>
      Derives(m, ev[i].value, {m.c.start}) && Yield(ev[i].value) == Track(w, ev[..i])
  }

  lemma {:induction false} TrackConcat(w: seq<Token>, a: seq<Event>, b: seq<Event>)
    ensures Track(w, a + b) == Track(Track(w, a), b)
    decreases |a|
  {
    if a == [] {
      assert a + b == b;
    } else {
      assert (a + b)[0] == a[0] && (a + b)[1..] == a[1..] + b;
      TrackConcat(TrackOne(w, a[0]), a[1..], b);
    }
  }

  lemma AcceptsConcat(m: Automaton, w: seq<Token>, a: seq<Event>, b: seq<Event>)
    requires Shaped(m)
    requires AcceptsAreDerivations(m, w, a) && AcceptsAreDerivations(m, Track(w, a), b)
    ensures AcceptsAreDerivations(m, w, a + b)
  {
    forall i | 0 <= i < |a + b| && (a + b)[i].Accept?
      ensures Derives(m, (a + b)[i].value, {m.c.start})
      ensures Yield((a + b)[i].value) == Track(w, (a + b)[..i])
    {
      if i < |a| {
        assert (a + b)[..i] == a[..i];
      } else {
        assert (a + b)[..i] == a + b[..i - |a|];
        TrackConcat(w, a, b[..i - |a|]);
      }
    }
  }

  lemma HeldOfPush(stk: Stack, e: Entry)
    requires stk != []
    ensures Held(stk + [e]) == Held(stk) + Yield(e.minor)
  {
    assert Values((stk + [e])[1..]) == Values(stk[1..]) + [e.minor];
    YieldAllConcat(Values(stk[1..]), [e.minor]);
    YieldAllSingle(e.minor);
  }

  lemma HeldOfReduce(stk: Stack, k: nat, r: nat)
    requires k < |stk|
    ensures Held(stk) == Held(stk[..|stk| - k]) + Yield(Node(r, Values(stk[|stk| - k..])))
  {
    var low, top := stk[..|stk| - k], stk[|stk| - k..];
    assert Values(stk[1..]) == Values(low[1..]) + Values(top);
    YieldAllConcat(Values(low[1..]), Values(top));
  }

  lemma {:induction false} TrackOfUnwind(w: seq<Token>, stk: Stack, last: seq<Event>)
    ensures Track(w, Unwind(stk) + last) == Track(w, last)
    ensures forall i :: 0 <= i < |Unwind(stk)| ==> Unwind(stk)[i].Destroy?
    decreases |stk|
  {
    if |stk| <= 1 {
      assert Unwind(stk) + last == last;
    } else {
      var rest := Unwind(stk[..|stk| - 1]);
      TrackOfUnwind(w, stk[..|stk| - 1], last);
      assert Unwind(stk) + last == [Destroy(Top(stk))] + (rest + last);
      TrackConcat(w, [Destroy(Top(stk))], rest + last);
    }
  }

  lemma OverflowForgets(w: seq<Token>, stk: Stack, room: Room)
    requires stk != []
    ensures Track(w, OverflowShift(stk, room).ev) == [] == Track(w, OverflowReduce(stk, room).ev)
    ensures forall i :: 0 <= i < |OverflowShift(stk, room).ev| ==> !OverflowShift(stk, room).ev[i].Accept?
    ensures forall i :: 0 <= i < |OverflowReduce(stk, room).ev| ==> !OverflowReduce(stk, room).ev[i].Accept?
  {
    TrackOfUnwind(w, stk, [Overflow]);
    var low := stk[..|stk| - 1];
    TrackOfUnwind(w, low, [Overflow]);
    assert OverflowReduce(stk, room).ev == [Skip(Top(stk))] + (Unwind(low) + [Overflow]);
    TrackConcat(w, [Skip(Top(stk))], Unwind(low) + [Overflow]);
  }

  lemma ShiftIsSound(m: Automaton, room: Room, stk: Stack, tok: Token, act: nat)
    requires Shaped(m) && stk != []
    ensures var s := ShiftStep(m, room, stk, tok, act);
            s.Done? && Held(s.out.stk) == Track(Held(stk), s.out.ev) && AcceptsAreDerivations(m, Held(stk), s.out.ev)
  {
    OverflowForgets(Held(stk), stk, Reserve(room, |stk|).1);
    HeldOfPush(stk, ShiftEntry(m, act, tok));
  }

  lemma StepIsSound(m: Automaton, room: Room, stk: Stack, tok: Token)
    requires Valid(m) && Inv(m, stk) && IsToken(m, tok)
    ensures match OneStep(m, room, stk, tok)
            case Done(o) => Held(o.stk) == Track(Held(stk), o.ev) && AcceptsAreDerivations(m, Held(stk), o.ev)
            case Next(_, stk', e) => e.Reduce? && Held(stk') == Held(stk)
  {
    hide ShiftStep, ReduceStep, Track, Held;
    var act := NextAction(m, stk, tok.major);
    if act <= m.t.MaxShiftReduce() {
      ShiftIsSound(m, room, stk, tok, act);
    } else if act <= m.t.MaxReduce() {
      var r := act - m.t.MinReduce();
      NextReduceIsPossible(m, stk, tok.major);
      ReduceIsSound(m, room, stk, r, Budget(m, Top(stk).stateno, tok.major), tok.major);
    } else {
      TrackOfError(Held(stk), tok);
    }
  }

  lemma TrackOfError(w: seq<Token>, tok: Token)
    ensures Track(w, [SyntaxError(tok)]) == w
  {
    assert [SyntaxError(tok)][1..] == [];
  }

  lemma ReduceIsSound(m: Automaton, room: Room, stk: Stack, r: nat, avail: nat, a: nat)
    requires Valid(m) && Inv(m, stk) && CanReduce(m, stk, r, avail, a)
    ensures match ReduceStep(m, room, stk, r)
            case Done(o) => Held(o.stk) == Track(Held(stk), o.ev) && AcceptsAreDerivations(m, Held(stk), o.ev)
            case Next(_, stk', e) => e.Reduce? && Held(stk') == Held(stk)
  {
    hide Inv, Track, Held, AcceptsAreDerivations;
    ReduceInv(m, stk, r, avail, a);
    HeldOfReduce(stk, |m.g[r].rhs|, r);
    var (ok, room') := if m.g[r].rhs == [] then Reserve(room, |stk|) else (true, room);
    if !ok {
      OverflowIsSound(m, stk, room');
    } else if GotoAction(m, stk, r) == m.t.AcceptAction() {
      HandleDerives(m, stk, r, avail, a);
      AcceptIsSound(m, stk, r, [Accept(r, Handle(m, stk, r), Node(r, Values(Handle(m, stk, r))))]);
    } else {
      HeldOfPush(Below(m, stk, r), Reduct(m, stk, r));
    }
  }

  lemma OverflowIsSound(m: Automaton, stk: Stack, room: Room)
    requires Shaped(m) && stk != []
    ensures var o := OverflowReduce(stk, room);
            Held(o.stk) == Track(Held(stk), o.ev) && AcceptsAreDerivations(m, Held(stk), o.ev)
  {
    OverflowForgets(Held(stk), stk, room);
    assert [stk[0]][1..] == [];
  }

  /** One call: reductions, shifts, syntax errors and resets all keep the tokens and the derivations straight. */
  lemma {:induction false} FeedIsSound(m: Automaton, room: Room, stk: Stack, tok: Token)
    requires Valid(m) && Inv(m, stk) && IsToken(m, tok)
    ensures var o := Feed(m, room, stk, tok);
            Held(o.stk) == Track(Held(stk), o.ev) && AcceptsAreDerivations(m, Held(stk), o.ev)
    decreases Measure(m, stk, tok.major)
  {
    hide OneStep, Inv;
    StepKeepsInv(m, room, stk, tok);
    StepIsSound(m, room, stk, tok);
    match OneStep(m, room, stk, tok)
    case Done(_) =>
    case Next(room', stk', e) =>
      FeedIsSound(m, room', stk', tok);
      PrependReduce(m, Held(stk), e, Feed(m, room', stk', tok).ev);
  }

  lemma PrependReduce(m: Automaton, w: seq<Token>, first: Event, rest: seq<Event>)
    requires Shaped(m) && first.Reduce? && AcceptsAreDerivations(m, w, rest)
    ensures Track(w, [first] + rest) == Track(w, rest) && AcceptsAreDerivations(m, w, [first] + rest)
  {
    TrackConcat(w, [first], rest);
    AcceptsConcat(m, w, [first], rest);
  }

  lemma AcceptIsSound(m: Automaton, stk: Stack, r: nat, ev: seq<Event>)
    requires Shaped(m) && r < |m.g| && |m.g[r].rhs| < |stk| && Below(m, stk, r) == [stk[0]]
    requires m.g[r].lhs == m.c.start && Derives(m, Node(r, Values(Handle(m, stk, r))), {m.c.start})
    requires Held(stk) == Held(Below(m, stk, r)) + Yield(Node(r, Values(Handle(m, stk, r))))
    requires ev == [Accept(r, Handle(m, stk, r), Node(r, Values(Handle(m, stk, r))))]
    ensures Track(Held(stk), ev) == Held([stk[0]]) && AcceptsAreDerivations(m, Held(stk), ev)
  {
    assert [stk[0]][1..] == [] && Held([stk[0]]) == [];
    assert ev[..0] == [] && Track(Held(stk), ev[..0]) == Held(stk);
    assert ev[1..] == [];
  }

  /**
    Sound acceptance, for whole runs from any reachable stack: at every point the tokens under the
    stack are those shifted since the last reset, and every accepted value is a parse tree of the
    start symbol for them.
   */
  lemma {:induction false} RunIsSound(m: Automaton, room: Room, stk: Stack, toks: seq<Token>)
    requires Valid(m) && Live(m, stk) && AreTokens(m, toks)
    ensures var o := FeedAll(m, room, stk, toks);
            Held(o.stk) == Track(Held(stk), o.ev) && AcceptsAreDerivations(m, Held(stk), o.ev)
    decreases |toks|
  {
    hide Feed, Inv;
    if toks != [] && stk != [] {
      var one := Feed(m, room, stk, toks[0]);
      FeedIsSound(m, room, stk, toks[0]);
      RunIsSound(m, one.room, one.stk, toks[1..]);
      var rest := FeedAll(m, one.room, one.stk, toks[1..]);
      TrackConcat(Held(stk), one.ev, rest.ev);
      AcceptsConcat(m, Held(stk), one.ev, rest.ev);
    }
  }

  // ---------------------------------------------------------------- reductions per token

  function Reductions(ev: seq<Event>): nat {
    if ev == [] then 0 else (if ev[0].Reduce? || ev[0].Accept? then 1 else 0) + Reductions(ev[1..])
  }

  lemma {:induction false} NoReductionsInUnwind(stk: Stack, last: seq<Event>)
    ensures Reductions(Unwind(stk) + last) == Reductions(last)
    decreases |stk|
  {
    if |stk| <= 1 {
      assert Unwind(stk) + last == last;
    } else {
      NoReductionsInUnwind(stk[..|stk| - 1], last);
      assert Unwind(stk) + last == [Destroy(Top(stk))] + (Unwind(stk[..|stk| - 1]) + last);
    }
  }

  lemma StepReductions(m: Automaton, room: Room, stk: Stack, tok: Token)
    requires Valid(m) && Inv(m, stk) && IsToken(m, tok)
    ensures var s := OneStep(m, room, stk, tok); s.Done? ==> Reductions(s.out.ev) <= 1
  {
    NoReductionsInUnwind(stk, [Overflow]);
    NoReductionsInUnwind(stk[..|stk| - 1], [Overflow]);
    var room' := Reserve(room, |stk|).1;
    assert OverflowReduce(stk, room').ev == [Skip(Top(stk))] + (Unwind(stk[..|stk| - 1]) + [Overflow]);
  }

  /** The measure bounds the reductions of one call; at most one more can accept. */
  lemma {:induction false} ReductionsAreBounded(m: Automaton, room: Room, stk: Stack, tok: Token)
    requires Valid(m) && Inv(m, stk) && IsToken(m, tok)
    ensures Reductions(Feed(m, room, stk, tok).ev) <= Measure(m, stk, tok.major) + 1
    decreases Measure(m, stk, tok.major)
  {
    hide OneStep, Inv;
    StepKeepsInv(m, room, stk, tok);
    StepReductions(m, room, stk, tok);
    match OneStep(m, room, stk, tok)
    case Done(_) =>
    case Next(room', stk', e) =>
      ReductionsAreBounded(m, room', stk', tok);
      assert ([e] + Feed(m, room', stk', tok).ev)[1..] == Feed(m, room', stk', tok).ev;
  }
}
