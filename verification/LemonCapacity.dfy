/**
  The fixed and the growable stack against an unbounded push-down: both do what the unbounded one does
  until the first overflow check fires, and it is decided exactly when that happens.
 */
module LemonCapacity {
  import opened LemonTables
  import opened LemonGrammar
  import opened LemonStack
  import opened LemonDriver
  import opened LemonConservation

  /** Events that only an overflow causes. */
  predicate Disturbs(e: Event) { e.Destroy? || e.Skip? || e.Overflow? }

  predicate Calm(ev: seq<Event>) {
    forall i :: 0 <= i < |ev| ==> !Disturbs(ev[i])
  }

  /** The events before the first overflow check fires. */
  function Undisturbed(ev: seq<Event>): seq<Event> {
    if ev == [] || Disturbs(ev[0]) then [] else [ev[0]] + Undisturbed(ev[1..])
  }

  lemma {:induction false} UndisturbedConcat(a: seq<Event>, b: seq<Event>)
    ensures Calm(a) ==> Undisturbed(a + b) == a + Undisturbed(b)
    ensures !Calm(a) ==> Undisturbed(a + b) == Undisturbed(a)
    ensures Calm(a + b) <==> Calm(a) && Calm(b)
    decreases |a|
  {
    assert Calm(a + b) <==> Calm(a) && Calm(b) by {
      assert forall i :: 0 <= i < |a| ==> (a + b)[i] == a[i];
      assert forall i :: 0 <= i < |b| ==> (a + b)[|a| + i] == b[i];
    }
    if a == [] {
      assert a + b == b;
    } else if !Disturbs(a[0]) {
      assert (a + b)[0] == a[0] && (a + b)[1..] == a[1..] + b;
      UndisturbedConcat(a[1..], b);
      assert Calm(a) <==> Calm(a[1..]) by {
        assert forall i :: 1 <= i < |a| ==> a[i] == a[1..][i - 1];
      }
    }
  }

  /** The bounded outcome `o` is the unbounded one `u`, or it is cut short by an overflow. */
  predicate AgreesUntilOverflow(o: Out, u: Out) {
    if Calm(o.ev) then o.stk == u.stk && o.ev == u.ev
    else Undisturbed(o.ev) <= u.ev
  }

  /** How the same iteration compares with and without bounds. */
  predicate StepsAgree(b: Step, u: Step) {
    match (b, u)
    case (Next(_, stk, e), Next(_, stk', e')) => stk == stk' && e == e' && !Disturbs(e)
    case (Done(o), Done(o')) => (o.stk == o'.stk && o.ev == o'.ev && Calm(o.ev)) || (o.ev != [] && Disturbs(o.ev[0]))
    case (Done(o), Next(_, _, _)) => o.ev != [] && Disturbs(o.ev[0])
    case _ => false
  }

  lemma OverflowDisturbs(stk: Stack, room: Room)
    requires stk != []
    ensures OverflowShift(stk, room).ev != [] && Disturbs(OverflowShift(stk, room).ev[0])
    ensures OverflowReduce(stk, room).ev != [] && Disturbs(OverflowReduce(stk, room).ev[0])
  {
  }

  lemma StepAgrees(m: Automaton, room: Room, stk: Stack, tok: Token)
    requires Valid(m) && Inv(m, stk) && IsToken(m, tok)
    ensures StepsAgree(OneStep(m, room, stk, tok), OneStep(m, Unbounded, stk, tok))
  {
    hide OneStep, Inv, ReduceStep, OverflowShift, BranchTaken;
    var b := BranchOf(m, room, stk, tok);
    var u := BranchOf(m, Unbounded, stk, tok);
    OverflowDisturbs(stk, Reserve(room, |stk|).1);
    if b.ToReduce? {
      ReduceAgrees(m, room, stk, b.rule);
    }
  }

  lemma ReduceAgrees(m: Automaton, room: Room, stk: Stack, r: nat)
    requires Shaped(m) && r < |m.g| && |m.g[r].rhs| < |stk|
    requires GotoDefined(m.t, Top(Below(m, stk, r)).stateno, m.g[r].lhs)
    ensures StepsAgree(ReduceStep(m, room, stk, r), ReduceStep(m, Unbounded, stk, r))
  {
    OverflowDisturbs(stk, Reserve(room, |stk|).1);
  }

  lemma PrependStepAgrees(e: Event, o: Out, u: Out)
    requires AgreesUntilOverflow(o, u) && !Disturbs(e)
    ensures AgreesUntilOverflow(After([e], o), After([e], u))
  {
    UndisturbedConcat([e], o.ev);
  }

  lemma {:induction false} FeedAgrees(m: Automaton, room: Room, stk: Stack, tok: Token)
    requires Valid(m) && Inv(m, stk) && IsToken(m, tok)
    ensures AgreesUntilOverflow(Feed(m, room, stk, tok), Feed(m, Unbounded, stk, tok))
    decreases Measure(m, stk, tok.major)
  {
    hide OneStep, Inv, AgreesUntilOverflow;
    StepKeepsInv(m, room, stk, tok);
    StepKeepsInv(m, Unbounded, stk, tok);
    StepAgrees(m, room, stk, tok);
    var b, u := OneStep(m, room, stk, tok), OneStep(m, Unbounded, stk, tok);
    StepKeepsRoom(m, Unbounded, stk, tok);
    match b
    case Done(o) => DoneAgrees(o, Feed(m, Unbounded, stk, tok));
    case Next(room', stk', e) =>
      FeedAgrees(m, room', stk', tok);
      PrependStepAgrees(e, Feed(m, room', stk', tok), Feed(m, Unbounded, stk', tok));
  }

  lemma DoneAgrees(o: Out, u: Out)
    requires (o.stk == u.stk && o.ev == u.ev && Calm(o.ev)) || (o.ev != [] && Disturbs(o.ev[0]))
    ensures AgreesUntilOverflow(o, u)
  {
  }

  /** An unbounded stack never overflows, so it never loses its bottom either. */
  lemma UnboundedIsCalm(m: Automaton, stk: Stack, tok: Token)
    requires Valid(m) && Inv(m, stk) && IsToken(m, tok)
    ensures var u := Feed(m, Unbounded, stk, tok); Calm(u.ev) && u.stk != [] && u.room == Unbounded
  {
    UnderflowIff(m, Unbounded, stk, tok);
    FeedKeepsRoom(m, Unbounded, stk, tok);
    UnboundedEvents(m, stk, tok);
  }

  lemma {:induction false} UnboundedEvents(m: Automaton, stk: Stack, tok: Token)
    requires Valid(m) && Inv(m, stk) && IsToken(m, tok)
    ensures Calm(Feed(m, Unbounded, stk, tok).ev)
    decreases Measure(m, stk, tok.major)
  {
    hide OneStep, Inv;
    StepKeepsInv(m, Unbounded, stk, tok);
    StepKeepsRoom(m, Unbounded, stk, tok);
    UnboundedStep(m, stk, tok);
    match OneStep(m, Unbounded, stk, tok)
    case Done(_) =>
    case Next(room', stk', e) =>
      UnboundedEvents(m, stk', tok);
      UndisturbedConcat([e], Feed(m, Unbounded, stk', tok).ev);
  }

  lemma UnboundedStep(m: Automaton, stk: Stack, tok: Token)
    requires Valid(m) && Inv(m, stk) && IsToken(m, tok)
    ensures var s := OneStep(m, Unbounded, stk, tok);
            if s.Done? then |s.out.ev| == 1 && !Disturbs(s.out.ev[0]) else !Disturbs(s.ev)
  {
    hide OneStep, Inv;
    var b := BranchOf(m, Unbounded, stk, tok);
  }

  /** Whole streams, fixed or growable: as unbounded until the first overflow check fires. */
  lemma {:induction false} RunAgrees(m: Automaton, room: Room, stk: Stack, toks: seq<Token>)
    requires Valid(m) && Live(m, stk) && AreTokens(m, toks)
    ensures AgreesUntilOverflow(FeedAll(m, room, stk, toks), FeedAll(m, Unbounded, stk, toks))
    decreases |toks|
  {
    hide Feed, Inv;
    if toks != [] && stk != [] {
      var o, u := Feed(m, room, stk, toks[0]), Feed(m, Unbounded, stk, toks[0]);
      FeedAgrees(m, room, stk, toks[0]);
      UnboundedIsCalm(m, stk, toks[0]);
      var os, us := FeedAll(m, o.room, o.stk, toks[1..]), FeedAll(m, u.room, u.stk, toks[1..]);
      if Calm(o.ev) {
        RunAgrees(m, o.room, o.stk, toks[1..]);
      }
      JoinAgrees(o, os, u, us);
    }
  }

  lemma JoinAgrees(o: Out, os: Out, u: Out, us: Out)
    requires AgreesUntilOverflow(o, u) && (Calm(o.ev) ==> AgreesUntilOverflow(os, us))
    ensures AgreesUntilOverflow(After(o.ev, os), After(u.ev, us))
  {
    UndisturbedConcat(o.ev, os.ev);
    if !Calm(o.ev) {
      assert u.ev <= u.ev + us.ev;
    }
  }

  // ---------------------------------------------------------------- when a bounded stack overflows

  /** The slots that a stack can come to have: a failed allocation ends the growing. */
  function GrownCap(room: Room): nat
    requires room.Bounded?
    decreases |room.allocs|
  {
    if |room.allocs| == 0 || !room.allocs[0] then room.cap
    else GrownCap(Bounded(2 * room.cap + 100, room.allocs[1..]))
  }

  lemma {:induction false} GrownCapIsMore(room: Room)
    requires room.Bounded?
    ensures room.cap <= GrownCap(room)
    decreases |room.allocs|
  {
    if |room.allocs| > 0 && room.allocs[0] {
      GrownCapIsMore(Bounded(2 * room.cap + 100, room.allocs[1..]));
    }
  }

  /** One more entry can be had exactly if the grown stack has room for it, and asking changes nothing about that. */
  lemma ReserveIff(room: Room, height: nat)
    requires room.Bounded? && height <= room.cap
    ensures var (ok, room') := Reserve(room, height);
            && (ok <==> height + 1 <= GrownCap(room))
            && (ok ==> room'.Bounded? && height + 1 <= room'.cap && GrownCap(room') == GrownCap(room))
  {
    GrownCapIsMore(room);
    if height == room.cap && |room.allocs| > 0 && room.allocs[0] {
      GrownCapIsMore(Bounded(2 * room.cap + 100, room.allocs[1..]));
    }
  }

  /** The height an event asks for when it happens at height h. */
  function Need(m: Automaton, e: Event, h: int): int {
    match e
    case Shift(_) => h + 1
    case Reduce(r, _, _) => if Nrhs(m, r) == 0 then h + 1 else h
    case Accept(r, _, _) => if Nrhs(m, r) == 0 then h + 1 else h
    case _ => h
  }

  /** Events starting at height h never ask for more than cap. */
  predicate FitsIn(m: Automaton, h: int, ev: seq<Event>, cap: nat)
    decreases |ev|
  {
    ev == [] || (Need(m, ev[0], h) <= cap && FitsIn(m, h + Delta(m, ev[0]), ev[1..], cap))
  }

  /** The events before the first that asks for more. */
  function Fitting(m: Automaton, h: int, ev: seq<Event>, cap: nat): seq<Event>
    decreases |ev|
  {
    if ev == [] || Need(m, ev[0], h) > cap then []
    else [ev[0]] + Fitting(m, h + Delta(m, ev[0]), ev[1..], cap)
  }

  lemma {:induction false} FitsConcat(m: Automaton, h: int, a: seq<Event>, b: seq<Event>, cap: nat)
    ensures FitsIn(m, h, a + b, cap) <==> FitsIn(m, h, a, cap) && FitsIn(m, h + Net(m, a), b, cap)
    decreases |a|
  {
    if a == [] {
      assert a + b == b;
    } else {
      assert (a + b)[0] == a[0] && (a + b)[1..] == a[1..] + b;
      FitsConcat(m, h + Delta(m, a[0]), a[1..], b, cap);
    }
  }

  lemma {:induction false} FittingConcat(m: Automaton, h: int, a: seq<Event>, b: seq<Event>, cap: nat)
    ensures Fitting(m, h, a + b, cap)
         == if FitsIn(m, h, a, cap) then a + Fitting(m, h + Net(m, a), b, cap) else Fitting(m, h, a, cap)
    decreases |a|
  {
    hide Need, Delta;
    if a == [] {
      assert a + b == b;
    } else {
      assert (a + b)[0] == a[0] && (a + b)[1..] == a[1..] + b;
      FittingConcat(m, h + Delta(m, a[0]), a[1..], b, cap);
    }
  }

  lemma FitsSingle(m: Automaton, h: int, e: Event, cap: nat)
    ensures FitsIn(m, h, [e], cap) <==> Need(m, e, h) <= cap
    ensures Fitting(m, h, [e], cap) == if Need(m, e, h) <= cap then [e] else []
  {
    assert [e][1..] == [];
  }

  /** More room lets more of the same events happen. */
  lemma {:induction false} FittingGrows(m: Automaton, h: int, ev: seq<Event>, cap: nat, more: nat)
    requires cap <= more
    ensures Fitting(m, h, ev, cap) <= Fitting(m, h, ev, more) <= ev
    ensures FitsIn(m, h, ev, cap) <==> Fitting(m, h, ev, cap) == ev
    decreases |ev|
  {
    if ev != [] {
      FittingGrows(m, h + Delta(m, ev[0]), ev[1..], cap, more);
      assert ev == [ev[0]] + ev[1..];
    }
  }

  /** The event of an iteration that is not cut short. */
  function EventOf(s: Step): Event {
    if s.Next? then s.ev else if s.out.ev == [] then Overflow else s.out.ev[0]
  }

  /** An iteration in a room where the unbounded one is `u`: cut short, or with as much to grow as before. */
  predicate StepFitsIn(m: Automaton, room: Room, h: nat, s: Step, u: Step)
    requires room.Bounded?
  {
    if Need(m, EventOf(u), h) <= GrownCap(room) then
      match s
      case Next(room', stk, _) => room'.Bounded? && |stk| <= room'.cap && GrownCap(room') == GrownCap(room)
      case Done(o) => Calm(o.ev) && o.room.Bounded? && |o.stk| <= o.room.cap && GrownCap(o.room) == GrownCap(room)
    else
      s.Done? && s.out.ev != [] && Disturbs(s.out.ev[0])
  }

  lemma ReduceFits(m: Automaton, room: Room, stk: Stack, r: nat)
    requires Shaped(m) && r < |m.g| && |m.g[r].rhs| < |stk| && room.Bounded? && |stk| <= room.cap
    requires GotoDefined(m.t, Top(Below(m, stk, r)).stateno, m.g[r].lhs)
    ensures StepFitsIn(m, room, |stk|, ReduceStep(m, room, stk, r), ReduceStep(m, Unbounded, stk, r))
  {
    hide GrownCap, Reserve, OverflowReduce;
    OverflowDisturbs(stk, Reserve(room, |stk|).1);
    ReserveIff(room, |stk|);
    ReserveUnbounded(|stk|);
    GrownCapIsMore(room);
  }

  lemma ReserveUnbounded(height: nat)
    ensures Reserve(Unbounded, height) == (true, Unbounded)
  {
  }

  lemma ShiftFits(m: Automaton, room: Room, stk: Stack, tok: Token, act: nat)
    requires room.Bounded? && 0 < |stk| <= room.cap
    ensures StepFitsIn(m, room, |stk|, ShiftStep(m, room, stk, tok, act), ShiftStep(m, Unbounded, stk, tok, act))
  {
    hide GrownCap, Reserve, OverflowShift;
    OverflowDisturbs(stk, Reserve(room, |stk|).1);
    ReserveIff(room, |stk|);
    ReserveUnbounded(|stk|);
  }

  /** One iteration on a bounded stack is cut short exactly if the unbounded one asks for more than it can grow to. */
  lemma StepFits(m: Automaton, room: Room, stk: Stack, tok: Token)
    requires Valid(m) && Inv(m, stk) && IsToken(m, tok) && room.Bounded? && |stk| <= room.cap
    ensures StepFitsIn(m, room, |stk|, OneStep(m, room, stk, tok), OneStep(m, Unbounded, stk, tok))
  {
    hide OneStep, Inv, ShiftStep, ReduceStep, BranchTaken, GrownCap;
    var b := BranchOf(m, room, stk, tok);
    var u := BranchOf(m, Unbounded, stk, tok);
    match b
    case ToShift(act) => ShiftFits(m, room, stk, tok, act);
    case ToReduce(r) => ReduceFits(m, room, stk, r);
    case ToRefuse => GrownCapIsMore(room);
  }

  /** A run in a room where the unbounded run is `u`: its events until an overflow are those that fit. */
  predicate RunFitsIn(m: Automaton, room: Room, h: nat, o: Out, u: Out)
    requires room.Bounded?
  {
    && (Calm(o.ev) <==> FitsIn(m, h, u.ev, GrownCap(room)))
    && Undisturbed(o.ev) == Fitting(m, h, u.ev, GrownCap(room))
    && (Calm(o.ev) ==> o.room.Bounded? && |o.stk| <= o.room.cap && GrownCap(o.room) == GrownCap(room))
  }

  lemma UndisturbedSingle(e: Event)
    ensures Calm([e]) <==> !Disturbs(e)
    ensures Undisturbed([e]) == if Disturbs(e) then [] else [e]
  {
    assert [e][0] == e && [e][1..] == [];
  }

  lemma FirstDisturbs(ev: seq<Event>)
    requires ev != [] && Disturbs(ev[0])
    ensures !Calm(ev) && Undisturbed(ev) == []
  {
  }

  /** A call that is done in one iteration. */
  lemma DoneFits(m: Automaton, room: Room, stk: Stack, s: Step, u: Step)
    requires room.Bounded? && |stk| <= room.cap && s.Done? && StepFitsIn(m, room, |stk|, s, u) && StepsAgree(s, u)
    requires u.Done? ==> u.out.ev == [EventOf(u)] && !Disturbs(EventOf(u))
    ensures u.Done? ==> RunFitsIn(m, room, |stk|, s.out, u.out)
    ensures u.Next? ==> !Calm(s.out.ev) && Undisturbed(s.out.ev) == [] && Need(m, u.ev, |stk|) > GrownCap(room)
  {
    hide GrownCap, Need, Calm, Undisturbed, FitsIn, Fitting, Disturbs;
    var e := EventOf(u);
    FitsSingle(m, |stk|, e, GrownCap(room));
    UndisturbedSingle(e);
    if s.out.ev != [] && Disturbs(s.out.ev[0]) {
      FirstDisturbs(s.out.ev);
    }
  }

  /** A call that goes on after a reduction. */
  lemma NextFits(m: Automaton, room: Room, room': Room, h: nat, h': nat, e: Event, o: Out, u: Out)
    requires room.Bounded? && room'.Bounded? && GrownCap(room') == GrownCap(room) && RunFitsIn(m, room', h', o, u)
    requires Need(m, e, h) <= GrownCap(room) && h' == h + Delta(m, e) && !Disturbs(e)
    ensures RunFitsIn(m, room, h, After([e], o), After([e], u))
  {
    hide GrownCap, Need, FitsIn, Fitting, Calm, Undisturbed;
    FitsSingle(m, h, e, GrownCap(room));
    FitsConcat(m, h, [e], u.ev, GrownCap(room));
    FittingConcat(m, h, [e], u.ev, GrownCap(room));
    assert Net(m, [e]) == Delta(m, e) by { assert [e][1..] == []; }
    UndisturbedSingle(e);
    UndisturbedConcat([e], o.ev);
  }

  lemma CutShort(m: Automaton, room: Room, h: nat, e: Event, o: Out, u: Out)
    requires room.Bounded? && Need(m, e, h) > GrownCap(room) && !Calm(o.ev) && Undisturbed(o.ev) == []
    ensures RunFitsIn(m, room, h, o, After([e], u))
  {
    hide GrownCap, Need, FitsIn, Fitting, Calm, Undisturbed;
    FitsSingle(m, h, e, GrownCap(room));
    FitsConcat(m, h, [e], u.ev, GrownCap(room));
    FittingConcat(m, h, [e], u.ev, GrownCap(room));
  }

  lemma {:induction false} FeedFits(m: Automaton, room: Room, stk: Stack, tok: Token)
    requires Valid(m) && Inv(m, stk) && IsToken(m, tok) && room.Bounded? && |stk| <= room.cap
    ensures RunFitsIn(m, room, |stk|, Feed(m, room, stk, tok), Feed(m, Unbounded, stk, tok))
    decreases Measure(m, stk, tok.major)
  {
    hide OneStep, Inv, RunFitsIn, GrownCap, Need, Calm, Undisturbed, Disturbs;
    StepKeepsInv(m, room, stk, tok);
    StepKeepsInv(m, Unbounded, stk, tok);
    StepAgrees(m, room, stk, tok);
    StepFits(m, room, stk, tok);
    StepKeepsRoom(m, Unbounded, stk, tok);
    StepHeight(m, Unbounded, stk, tok);
    UnboundedStep(m, stk, tok);
    var s, u := OneStep(m, room, stk, tok), OneStep(m, Unbounded, stk, tok);
    if s.Done? {
      DoneFits(m, room, stk, s, u);
      if u.Next? {
        CutShort(m, room, |stk|, u.ev, s.out, Feed(m, Unbounded, u.stk, tok));
      }
    } else {
      FeedFits(m, s.room, s.stk, tok);
      NextFits(m, room, s.room, |stk|, |s.stk|, s.ev, Feed(m, s.room, s.stk, tok), Feed(m, Unbounded, s.stk, tok));
    }
  }

  /**
    Fixed or growable, a bounded stack runs without overflow if and only if the unbounded push-down never asks for
    more than it can grow to: a push onto a full stack, or an empty reduction there.  Until then the events are
    exactly those that fit.
   */
  lemma {:induction false} RunFits(m: Automaton, room: Room, stk: Stack, toks: seq<Token>)
    requires Valid(m) && Inv(m, stk) && AreTokens(m, toks) && room.Bounded? && |stk| <= room.cap
    ensures RunFitsIn(m, room, |stk|, FeedAll(m, room, stk, toks), FeedAll(m, Unbounded, stk, toks))
    decreases |toks|
  {
    hide Feed, FitsIn, Fitting, Calm, Undisturbed, Net, GrownCap;
    if toks == [] {
      NothingToFit(m, |stk|, FeedAll(m, Unbounded, stk, toks).ev, GrownCap(room));
      NothingToFit(m, |stk|, FeedAll(m, room, stk, toks).ev, GrownCap(room));
    } else {
      var o, u := Feed(m, room, stk, toks[0]), Feed(m, Unbounded, stk, toks[0]);
      FeedFits(m, room, stk, toks[0]);
      FeedAgrees(m, room, stk, toks[0]);
      UnboundedIsCalm(m, stk, toks[0]);
      FeedHeight(m, Unbounded, stk, toks[0]);
      CalmHasNoOverflow(u.ev);
      var os, us := FeedAll(m, o.room, o.stk, toks[1..]), FeedAll(m, u.room, u.stk, toks[1..]);
      UndisturbedConcat(o.ev, os.ev);
      FitsConcat(m, |stk|, u.ev, us.ev, GrownCap(room));
      FittingConcat(m, |stk|, u.ev, us.ev, GrownCap(room));
      if Calm(o.ev) {
        RunFits(m, o.room, o.stk, toks[1..]);
        UndisturbedCalm(o.ev);
      }
    }
  }

  lemma {:induction false} UndisturbedCalm(ev: seq<Event>)
    requires Calm(ev)
    ensures Undisturbed(ev) == ev
    decreases |ev|
  {
    if ev != [] {
      assert forall i :: 0 <= i < |ev| - 1 ==> ev[1..][i] == ev[i + 1];
      UndisturbedCalm(ev[1..]);
      assert ev == [ev[0]] + ev[1..];
    }
  }

  /** With more room the same happens, and longer: a stack that was grown before is as good as a fresh one. */
  lemma MoreRoomAgrees(m: Automaton, room: Room, more: Room, bottom: Entry, toks: seq<Token>)
    requires Valid(m) && IsBottom(bottom) && AreTokens(m, toks)
    requires room.Bounded? && more.Bounded? && 0 < room.cap && 0 < more.cap && GrownCap(room) <= GrownCap(more)
    ensures var o, p := FreshRun(m, room, bottom, toks), FreshRun(m, more, bottom, toks);
            && Undisturbed(o.ev) <= Undisturbed(p.ev)
            && (Calm(o.ev) ==> o.ev == p.ev && o.stk == p.stk)
  {
    hide FeedAll, Inv, GrownCap, Calm, Undisturbed, Fitting, FitsIn;
    InitialInv(m, bottom);
    RunFits(m, room, [bottom], toks);
    RunFits(m, more, [bottom], toks);
    RunAgrees(m, room, [bottom], toks);
    RunAgrees(m, more, [bottom], toks);
    var u := FeedAll(m, Unbounded, [bottom], toks);
    FittingGrows(m, 1, u.ev, GrownCap(room), GrownCap(more));
    FittingGrows(m, 1, u.ev, GrownCap(more), GrownCap(more));
  }

  lemma NothingToFit(m: Automaton, h: int, ev: seq<Event>, cap: nat)
    requires |ev| == 0
    ensures Calm(ev) && FitsIn(m, h, ev, cap) && Undisturbed(ev) == [] == Fitting(m, h, ev, cap)
  {
  }

  lemma CalmHasNoOverflow(ev: seq<Event>)
    requires Calm(ev)
    ensures NoOverflow(ev)
  {
  }

  // ---------------------------------------------------------------- growing while allocation succeeds

  /** A bounded stack makes exactly the unbounded run if and only if that run fits in what it can grow to. */
  lemma RunGrows(m: Automaton, room: Room, stk: Stack, toks: seq<Token>)
    requires Valid(m) && Inv(m, stk) && AreTokens(m, toks) && room.Bounded? && |stk| <= room.cap
    ensures var o, u := FeedAll(m, room, stk, toks), FeedAll(m, Unbounded, stk, toks);
            o.ev == u.ev && o.stk == u.stk <==> FitsIn(m, |stk|, u.ev, GrownCap(room))
  {
    hide FeedAll, Inv, GrownCap, Calm, FitsIn;
    RunFits(m, room, stk, toks);
    RunAgrees(m, room, stk, toks);
    UnboundedRunIsCalm(m, stk, toks);
  }

  lemma {:induction false} UnboundedRunIsCalm(m: Automaton, stk: Stack, toks: seq<Token>)
    requires Valid(m) && Inv(m, stk) && AreTokens(m, toks)
    ensures Calm(FeedAll(m, Unbounded, stk, toks).ev)
    decreases |toks|
  {
    hide Feed, Inv;
    if toks != [] {
      var u := Feed(m, Unbounded, stk, toks[0]);
      UnboundedIsCalm(m, stk, toks[0]);
      UnboundedRunIsCalm(m, u.stk, toks[1..]);
      UndisturbedConcat(u.ev, FeedAll(m, u.room, u.stk, toks[1..]).ev);
    }
  }

  /** As many successful allocations as there are events always suffice. */
  lemma EnoughSuccesses(m: Automaton, h: int, ev: seq<Event>, room: Room)
    requires room.Bounded? && h <= room.cap && |ev| <= |room.allocs|
    requires forall i :: 0 <= i < |ev| ==> room.allocs[i]
    ensures FitsIn(m, h, ev, GrownCap(room))
  {
    SuccessesAdd(room, |ev|);
    ShortRunsFit(m, h, ev, GrownCap(room));
  }

  lemma {:induction false} SuccessesAdd(room: Room, n: nat)
    requires room.Bounded? && n <= |room.allocs| && forall i :: 0 <= i < n ==> room.allocs[i]
    ensures room.cap + n <= GrownCap(room)
    decreases n
  {
    if n == 0 {
      GrownCapIsMore(room);
    } else {
      SuccessesAdd(Bounded(2 * room.cap + 100, room.allocs[1..]), n - 1);
    }
  }

  lemma {:induction false} ShortRunsFit(m: Automaton, h: int, ev: seq<Event>, cap: nat)
    requires h + |ev| <= cap
    ensures FitsIn(m, h, ev, cap)
    decreases |ev|
  {
    if ev != [] {
      ShortRunsFit(m, h + Delta(m, ev[0]), ev[1..], cap);
    }
  }
}
