/**
  The parser object: an array of entries with yytos moving over it, as sqlite3Parser and its helpers
  update them.  Every method is proved against the driver function of LemonDriver.
 */
module LemonParser {
  import opened LemonTables
  import opened LemonGrammar
  import opened LemonStack
  import opened LemonDriver
  import opened LemonSound

  lemma OverflowEvents(log: seq<Event>, stk: Stack, room: Room)
    requires |stk| > 0
    ensures (log + [Skip(Top(stk))]) + (Unwind(stk[..|stk| - 1]) + [Overflow]) == log + OverflowReduce(stk, room).ev
  {
  }

  class Parser {
    const t: Tables
    ghost const m: Automaton

    // YYSTACKDEPTH <= 0: the stack is grown by yyGrowStack
    const dynamic: bool

    // the outcomes of the allocations that yyGrowStack will ask for
    var allocs: seq<bool>
    var yystack: array<Entry>

    // index of the top entry; -1 after the bottom entry was stepped over
    var yytos: int

    // everything the parser did and reported
    ghost var log: seq<Event>

    ghost function Contents(): Stack
      requires -1 <= yytos < yystack.Length
      reads this, yystack
    {
      yystack[..yytos + 1]
    }

    ghost function Space(): Room
      reads this
    {
      Bounded(yystack.Length, if dynamic then allocs else [])
    }

    /** The tables are valid and the entries in bounds. */
    ghost predicate Formed()
      reads this
    {
      && LemonGrammar.Valid(m) && m.t == t
      && -1 <= yytos < yystack.Length
    }

    /**
      The object invariant: the stack has its shape, holds exactly the tokens shifted since the last
      reset, and everything ever accepted was a derivation from the start symbol.
     */
    ghost predicate Valid()
      reads this, yystack
    {
      && Formed()
      && Live(m, Contents())
      && Held(Contents()) == Track([], log)
      && AcceptsAreDerivations(m, [], log)
    }

    /** sqlite3ParserAlloc with YYSTACKDEPTH == depth, or with a stack to be grown when depth is 0. */
    constructor (tables: Tables, ghost automaton: Automaton, depth: nat, allocs: seq<bool>)
      requires LemonGrammar.Valid(automaton) && automaton.t == tables
      ensures Valid() && fresh(yystack) && m == automaton && dynamic == (depth == 0)
      ensures Contents() == [BOTTOM] && log == []
      ensures depth > 0 ==> yystack.Length == depth
      ensures depth == 0 ==> yystack.Length == if allocs != [] && allocs[0] then 100 else 1
      ensures this.allocs == if depth == 0 && allocs != [] then allocs[1..] else allocs
    {
      t, m, dynamic, log, yytos := tables, automaton, depth == 0, [], 0;
      if depth > 0 {
        this.allocs := allocs;
        yystack := new Entry[depth](_ => BOTTOM);
      } else {
        this.allocs := if allocs == [] then [] else allocs[1..];
        yystack := new Entry[if allocs != [] && allocs[0] then 100 else 1](_ => BOTTOM);
      }
      new;
      yystack[yytos] := BOTTOM;
      InitialInv(m, BOTTOM);
      assert Contents() == [BOTTOM];
      FreshIsSound(m);
    }

    /** yyGrowStack: twice the size and 100 more, with contents and top index kept. */
    method GrowStack() returns (failed: bool)
      requires 0 <= yytos <= yystack.Length
      modifies this`allocs, this`yystack
      ensures failed == (old(allocs) == [] || !old(allocs)[0])
      ensures allocs == if old(allocs) == [] then [] else old(allocs)[1..]
      ensures failed ==> yystack == old(yystack)
      ensures !failed ==> fresh(yystack) && yystack.Length == 2 * old(yystack).Length + 100
                          && yystack[..old(yystack).Length] == old(yystack[..])
    {
      failed := allocs == [] || !allocs[0];
      allocs := if allocs == [] then [] else allocs[1..];
      if !failed {
        var oldStack := yystack;
        var newSize := yystack.Length * 2 + 100;
        var grown := new Entry[newSize](i => BOTTOM);
        forall i | 0 <= i < oldStack.Length {
          grown[i] := oldStack[i];
        }
        yystack := grown;
      }
    }

    /** yy_pop_parser_stack */
    method PopParserStack()
      requires 1 <= yytos < yystack.Length
      modifies this`yytos, this`log
      ensures yytos == old(yytos) - 1
      ensures log == old(log) + [Destroy(yystack[old(yytos)])]
    {
      log := log + [Destroy(yystack[yytos])];
      yytos := yytos - 1;
    }

    /** yyStackOverflow: whatever lies below the index it is entered with is popped, bar the bottom. */
    method StackOverflow()
      requires 0 <= yytos <= yystack.Length
      modifies this`yytos, this`log
      ensures yytos == if old(yytos) == 0 then -1 else 0
      ensures log == old(log) + (Unwind(yystack[..old(yytos)]) + [Overflow])
    {
      ghost var all := Unwind(yystack[..yytos]);
      yytos := yytos - 1;
      while yytos > 0
        invariant -1 <= yytos < yystack.Length && (yytos == -1 <==> old(yytos) == 0)
        invariant log + Unwind(yystack[..yytos + 1]) == old(log) + all
      {
        UnwindTop(yystack[..yytos + 1]);
        assert yystack[..yytos + 1][..yytos] == yystack[..yytos];
        PopParserStack();
      }
      assert log + Unwind(yystack[..yytos + 1]) == log;
      assert old(log) + (all + [Overflow]) == (old(log) + all) + [Overflow];
      log := log + [Overflow];
    }

    /** yy_find_shift_action */
    method FindShiftAction(lookahead: nat) returns (act: nat)
      requires Formed() && yytos >= 0 && Inv(m, Contents()) && lookahead < t.nTerminal
      ensures act == NextAction(m, Contents(), lookahead)
    {
      var stateno := yystack[yytos].stateno;
      assert Top(Contents()) == yystack[yytos];
      if stateno >= t.MinReduce() {
        return stateno;
      }
      var la: nat := lookahead;
      while true
        invariant FindAction(t, stateno, la) == FindAction(t, stateno, lookahead)
        decreases if FallbackOf(t, la) != 0 then 1 else 0
      {
        var i := t.shiftOfst[stateno] + la;
        if i < 0 || i >= t.Count() || t.lookahead[i] != la {
          if la < |t.fallback| && t.fallback[la] != 0 {
            la := t.fallback[la];
            continue;
          }
          var j := i - la + t.wildcard;
          if (t.shiftMin + t.wildcard < 0 ==> j >= 0) && (t.shiftMax + t.wildcard >= t.Count() ==> j < t.Count())
             && t.lookahead[j] == t.wildcard && la > 0 {
            return t.action[j];
          }
          return t.deflt[stateno];
        }
        return t.action[i];
      }
    }

    /** yy_shift */
    method Shift(newState: nat, major: nat, tok: Token)
      requires Formed() && yytos >= 0 && major == tok.major
      modifies this`allocs, this`yystack, this`yytos, this`log, yystack
      ensures Formed() && (yystack == old(yystack) || fresh(yystack))
      ensures var o := ShiftStep(m, old(Space()), old(Contents()), tok, newState).out;
              Contents() == o.stk && Space() == o.room && log == old(log) + o.ev
    {
      ghost var before := Contents();
      yytos := yytos + 1;
      if yytos >= yystack.Length {
        var failed := true;
        if dynamic {
          failed := GrowStack();
        }
        if failed {
          assert yystack[..yytos] == before;
          StackOverflow();
          assert Contents() == [before[0]];
          return;
        }
      }
      assert yystack[..yytos] == before;
      var stateno := if newState >= t.NState() then newState + (t.MinReduce() - t.minShiftReduce) else newState;
      yystack[yytos] := Entry(stateno, major, Leaf(tok));
      log := log + [Event.Shift(ShiftEntry(m, newState, tok))];
      assert Contents() == before + [ShiftEntry(m, newState, tok)];
    }

    /** The check at the head of yy_reduce: an empty right-hand side needs a slot for the left-hand side. */
    method CheckEmptyRule() returns (overflowed: bool)
      requires Formed() && yytos >= 0
      modifies this`allocs, this`yystack, this`yytos, this`log
      ensures Formed() && (yystack == old(yystack) || fresh(yystack))
      ensures overflowed == !Reserve(old(Space()), |old(Contents())|).0
      ensures Space() == Reserve(old(Space()), |old(Contents())|).1
      ensures overflowed ==> var o := OverflowReduce(old(Contents()), Space());
                             Contents() == o.stk && log == old(log) + o.ev
      ensures !overflowed ==> Contents() == old(Contents()) && log == old(log) && yytos < yystack.Length - 1
    {
      hide Unwind, Live, Inv, Valid;
      ghost var before := Contents();
      overflowed := false;
      if yytos >= yystack.Length - 1 {
        overflowed := true;
        if dynamic {
          overflowed := GrowStack();
        }
        if overflowed {
          log := log + [Skip(yystack[yytos])];
          assert yystack[..yytos] == before[..|before| - 1];
          StackOverflow();
          assert Contents() == if |before| == 1 then [] else [before[0]];
          OverflowEvents(old(log), before, Space());
        }
      }
    }

    /** Rule `rule` has its handle on the stack and a goto below it. */
    ghost predicate Reducible(rule: nat)
      requires Formed()
      reads this, yystack
    {
      && rule < |m.g| && |m.g[rule].rhs| < |Contents()|
      && GotoDefined(t, Top(Below(m, Contents(), rule)).stateno, m.g[rule].lhs)
      && (GotoAction(m, Contents(), rule) <= t.MaxShiftReduce() || GotoAction(m, Contents(), rule) == t.AcceptAction())
    }

    /** The rest of yy_reduce: the reduce action's value, and the goto that replaces the handle. */
    method ReplaceHandle(rule: nat)
      requires Formed() && Reducible(rule) && (m.g[rule].rhs == [] ==> yytos < yystack.Length - 1)
      modifies this`yytos, this`log, yystack
      ensures Formed()
      ensures if GotoAction(m, old(Contents()), rule) == t.AcceptAction() then
                var handle := Handle(m, old(Contents()), rule);
                Contents() == Below(m, old(Contents()), rule)
                && log == old(log) + [Event.Accept(rule, handle, Node(rule, Values(handle)))]
              else
                var e := Reduct(m, old(Contents()), rule);
                Contents() == Below(m, old(Contents()), rule) + [e]
                && log == old(log) + [Event.Reduce(rule, Handle(m, old(Contents()), rule), e)]
    {
      ghost var before := Contents();
      var lhs, size := t.rules[rule].lhs, t.rules[rule].nrhs;
      assert size == |m.g[rule].rhs| && lhs == m.g[rule].lhs;
      var kids := Values(yystack[yytos - size + 1..yytos + 1]);
      assert yystack[yytos - size + 1..yytos + 1] == Handle(m, before, rule);
      assert Top(Below(m, before, rule)) == yystack[yytos - size];
      var act := FindReduceAction(t, yystack[yytos - size].stateno, lhs);
      if act <= t.MaxShiftReduce() {
        if act >= t.NState() {
          act := act + (t.MinReduce() - t.minShiftReduce);
        }
        yytos := yytos - size + 1;
        yystack[yytos] := Entry(act, lhs, Node(rule, kids));
        log := log + [Event.Reduce(rule, Handle(m, before, rule), Reduct(m, before, rule))];
        assert Contents() == Below(m, before, rule) + [Reduct(m, before, rule)];
      } else {
        yytos := yytos - size;
        log := log + [Event.Accept(rule, Handle(m, before, rule), Node(rule, kids))];
        assert Contents() == Below(m, before, rule);
      }
    }

    /** yy_reduce */
    method Reduce(rule: nat)
      requires Formed() && Reducible(rule)
      modifies this`allocs, this`yystack, this`yytos, this`log, yystack
      ensures Formed() && (yystack == old(yystack) || fresh(yystack))
      ensures match ReduceStep(m, old(Space()), old(Contents()), rule)
              case Done(o) => Contents() == o.stk && Space() == o.room && log == old(log) + o.ev
              case Next(room, stk, e) => Contents() == stk && Space() == room && log == old(log) + [e]
    {
      if t.rules[rule].nrhs == 0 {
        var overflowed := CheckEmptyRule();
        if overflowed {
          return;
        }
      }
      ReplaceHandle(rule);
    }

    /** The object invariant follows from the driver function's results. */
    ghost method Establish(before: seq<Event>, room: Room, stk: Stack, tok: Token)
      requires Formed() && stk != [] && Inv(m, stk) && IsToken(m, tok)
      requires Held(stk) == Track([], before) && AcceptsAreDerivations(m, [], before)
      requires Out(Contents(), Space(), log) == After(before, Feed(m, room, stk, tok))
      ensures Valid()
    {
      hide Inv, Track, Held, AcceptsAreDerivations;
      var o := Feed(m, room, stk, tok);
      FeedIsSound(m, room, stk, tok);
      TrackConcat([], before, o.ev);
      AcceptsConcat(m, [], before, o.ev);
    }

    /** The state and the log after an iteration that started from these. */
    ghost predicate Stepped(s: Step, before: seq<Event>)
      requires Formed()
      reads this, yystack
    {
      match s
      case Done(o) => Contents() == o.stk && Space() == o.room && log == before + o.ev
      case Next(room, stk, e) => Contents() == stk && Space() == room && log == before + [e]
    }

    /** The body of sqlite3Parser's loop: `again` is the loop's condition. */
    method Iterate(tok: Token) returns (again: bool)
      requires Formed() && yytos >= 0 && Inv(m, Contents()) && tok.major < t.nTerminal
      modifies this`allocs, this`yystack, this`yytos, this`log, yystack
      ensures Formed() && (yystack == old(yystack) || fresh(yystack))
      ensures Stepped(OneStep(m, old(Space()), old(Contents()), tok), old(log))
      ensures again == OneStep(m, old(Space()), old(Contents()), tok).Next?
    {
      hide ShiftStep, ReduceStep, Inv;
      ghost var room, stk := Space(), Contents();
      ghost var branch := BranchOf(m, room, stk, tok);
      var major := tok.major;
      var act := FindShiftAction(major);
      if act <= t.MaxShiftReduce() {
        Shift(act, major, tok);
        major := t.noCode;
        assert OneStep(m, room, stk, tok) == ShiftStep(m, room, stk, tok, act);
      } else if act <= t.MaxReduce() {
        GotosAreActions(m, stk, act - t.MinReduce(), tok);
        Reduce(act - t.MinReduce());
        ReduceLeaves(m, room, stk, act - t.MinReduce());
      } else {
        log := log + [Event.SyntaxError(tok)];
        major := t.noCode;
      }
      again := major != t.noCode && yytos > 0;
      ShiftIsDone(m, room, stk, tok, act);
    }

    /**
      sqlite3Parser.  One token is fed: the stack, the space and everything reported are those of the
      driver function, and the object invariant holds again.
     */
    method Parse(tok: Token)
      requires Valid() && yytos >= 0 && tok.major < t.nTerminal
      modifies this`allocs, this`yystack, this`yytos, this`log, yystack
      ensures Valid() && (yystack == old(yystack) || fresh(yystack))
      ensures Out(Contents(), Space(), log) == After(old(log), Feed(m, old(Space()), old(Contents()), tok))
    {
      hide OneStep, Held, Track, AcceptsAreDerivations;
      ghost var whole := After(log, Feed(m, Space(), Contents(), tok));
      var again := true;
      while again
        invariant Formed() && (yystack == old(yystack) || fresh(yystack))
        invariant again ==> yytos >= 0 && Inv(m, Contents())
                            && After(log, Feed(m, Space(), Contents(), tok)) == whole
        invariant !again ==> Out(Contents(), Space(), log) == whole
        decreases again, if again then Measure(m, Contents(), tok.major) else 0
      {
        ghost var room, stk, seen := Space(), Contents(), log;
        StepKeepsInv(m, room, stk, tok);
        again := Iterate(tok);
        if again {
          AfterConcat(seen, [OneStep(m, room, stk, tok).ev], Feed(m, Space(), Contents(), tok));
        }
      }
      Establish(old(log), old(Space()), old(Contents()), tok);
    }

    /** sqlite3ParserFree, as far as the stack goes. */
    method Free()
      requires Formed()
      modifies this`yytos, this`log
      ensures yytos <= 0 && log == old(log) + Unwind(old(Contents()))
    {
      ghost var all := Unwind(Contents());
      while yytos > 0
        invariant -1 <= yytos < yystack.Length
        invariant log + Unwind(yystack[..yytos + 1]) == old(log) + all
      {
        UnwindTop(yystack[..yytos + 1]);
        assert yystack[..yytos + 1][..yytos] == yystack[..yytos];
        PopParserStack();
      }
      assert log + Unwind(yystack[..yytos + 1]) == log;
    }
  }

  /** A reduction that accepts or overflows leaves nothing above the bottom; any other leaves something. */
  lemma ReduceLeaves(m: Automaton, room: Room, stk: Stack, r: nat)
    requires Shaped(m) && r < |m.g| && |m.g[r].rhs| < |stk|
    requires GotoDefined(m.t, Top(Below(m, stk, r)).stateno, m.g[r].lhs)
    requires GotoAction(m, stk, r) == m.t.AcceptAction() ==> Below(m, stk, r) == [stk[0]]
    ensures match ReduceStep(m, room, stk, r)
            case Done(o) => |o.stk| <= 1
            case Next(_, stk', _) => |stk'| >= 2
  {
  }

  lemma GotosAreActions(m: Automaton, stk: Stack, r: nat, tok: Token)
    requires Valid(m) && Inv(m, stk) && IsToken(m, tok) && NextAction(m, stk, tok.major) == m.t.MinReduce() + r
    requires r < |m.g|
    ensures |m.g[r].rhs| < |stk| && GotoDefined(m.t, Top(Below(m, stk, r)).stateno, m.g[r].lhs)
    ensures GotoAction(m, stk, r) <= m.t.MaxShiftReduce() || GotoAction(m, stk, r) == m.t.AcceptAction()
    ensures GotoAction(m, stk, r) == m.t.AcceptAction() ==> Below(m, stk, r) == [stk[0]]
  {
    NextReduceIsPossible(m, stk, tok.major);
    ReduceInv(m, stk, r, Budget(m, Top(stk).stateno, tok.major), tok.major);
  }

  lemma ShiftIsDone(m: Automaton, room: Room, stk: Stack, tok: Token, act: nat)
    requires stk != []
    ensures ShiftStep(m, room, stk, tok, act).Done?
  {
  }

  lemma FreshIsSound(m: Automaton)
    requires Shaped(m)
    ensures Held([BOTTOM]) == Track([], []) && AcceptsAreDerivations(m, [], [])
  {
    assert [BOTTOM][1..] == [];
  }

  lemma UnwindTop(stk: Stack)
    requires |stk| > 1
    ensures Unwind(stk) == [Destroy(Top(stk))] + Unwind(stk[..|stk| - 1])
  {
  }
}
