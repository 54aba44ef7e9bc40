/**
  A small automaton with every feature of the driver and of its tables, so that nothing proved of valid and complete
  automata is empty: a state that has only its default, taken for an empty rule, shift-reduces over a token, the
  wildcard and a nonterminal, a fallback, a multi-terminal, a unit rule that was optimized out, an operator made
  left-associative by precedence, a goto that accepts, and rows packed into one table without a free slot.

    input ::= list.   list ::= list item.   list ::= .   item ::= expr SEMI.   item ::= SEMI ANY.
    expr ::= expr PLUS|MINUS expr.   expr ::= term. (optimized out)   term ::= ID.
 */
module LemonToy {
  import opened LemonTables
  import opened LemonGrammar
  import opened LemonStack
  import opened LemonDriver
  import opened LemonConservation
  import opened LemonComplete
  import opened LemonLanguage
  import opened LemonElided

  // $ 0, SEMI 1, ID 2, PLUS 3, MINUS 4, KW 5 (falls back to ID), ANY 6 (the wildcard),
  // input 7, list 8, item 9, expr 10, term 11
  const TABLES := Tables(
    7, 12, 6, 10, -2, 12, 15, -3,
    [18, 2, 17, 13, 14, 4, 4, 11,  3,  3, 27, 1, 15, 15, 17],
    [ 0, 1,  2,  1,  6, 3, 4,  9, 10, 11,  7, 8, 10, 11,  2],
    [15, 0, -2, 2, 12],
    [3, -2, -3, -3, 2],
    [20, 26, 26, 26, 26],
    [0, 0, 0, 0, 0, 2],
    [RuleInfo(7, 1), RuleInfo(8, 2), RuleInfo(8, 0), RuleInfo(9, 2), RuleInfo(9, 2), RuleInfo(10, 3),
     RuleInfo(10, 1), RuleInfo(11, 1)])

  /** The grammar as written, with rule 6 optimized out. */
  const WRITTEN := Written(
    [Production(7, [{8}]), Production(8, [{8}, {9}]), Production(8, []), Production(9, [{10}, {1}]),
     Production(9, [{1}, {6}]), Production(10, [{10}, {3, 4}, {10}]), Production(10, [{11}]), Production(11, [{2}])],
    {6})

  const GRAMMAR :=
    [Production(7, [{8}]), Production(8, [{8}, {9}]), Production(8, []), Production(9, [{10, 11}, {1}]),
     Production(9, [{1}, {6}]), Production(10, [{10, 11}, {3, 4}, {10, 11}]), Production(10, [{11}]),
     Production(11, [{2}])]

  const CERT := Cert(
    7,
    [[], [Hist({8}, {0})], [Hist({1}, {1}), Hist({8}, {0})], [Hist({10, 11}, {1}), Hist({8}, {0})],
     [Hist({3, 4}, {3}), Hist({10, 11}, {1}), Hist({8}, {0})]],
    [0, 0, 0, 0, 0, 0, 0, 0, 0, 0, 0, 0],
    [[1, 1, 1, 1, 1, 1, 1], [0, 0, 0, 0, 0, 0, 0], [0, 0, 0, 0, 0, 0, 0], [0, 0, 0, 0, 0, 0, 0],
     [0, 0, 0, 0, 0, 0, 0]],
    [0, 1, 0, 2, 2, 1, 0, 2])

  const TOY := Automaton(GRAMMAR, TABLES, CERT)

  lemma ToyIsWellFormed()
    ensures TABLES.WellFormed()
  {
  }

  lemma RulesAreShaped()
    ensures RulesShaped(TOY)
  {
  }

  lemma HistoriesAreShaped()
    ensures HistoriesShaped(TOY)
  {
  }

  lemma ToyIsShaped()
    ensures Shaped(TOY)
  {
    hide TABLES.WellFormed, RulesShaped, HistoriesShaped;
    ToyIsWellFormed();
    RulesAreShaped();
    HistoriesAreShaped();
  }

  // ---------------------------------------------------------------- the packed table

  const MATRIX := Sparse(
    map[(1, 0) := 18, (1, 1) := 2, (1, 2) := 17, (2, 6) := 14, (3, 1) := 13, (3, 3) := 4, (3, 4) := 4, (4, 2) := 17],
    map[(0, 7) := 27, (0, 8) := 1, (1, 9) := 11, (1, 10) := 3, (1, 11) := 3, (4, 10) := 15, (4, 11) := 15])

  lemma SlotOfCell(s: nat, p: nat)
    requires p < 15 && s < 5
    requires || (TABLES.shiftOfst[s] + TABLES.lookahead[p] == p && (s, TABLES.lookahead[p]) in MATRIX.shift)
             || (TABLES.reduceOfst[s] + TABLES.lookahead[p] == p && (s, TABLES.lookahead[p]) in MATRIX.goto_)
    ensures TABLES.WellFormed() && StampedSlot(TABLES, MATRIX, p)
  {
    ToyIsWellFormed();
  }

  lemma ShiftCellIsStamped(s: nat, x: nat)
    requires (s, x) in MATRIX.shift
    ensures TABLES.WellFormed() && ShiftCellStamped(TABLES, MATRIX, s, x)
  {
    hide TABLES.WellFormed;
    ToyIsWellFormed();
  }

  lemma ShiftCellsAreStamped()
    ensures TABLES.WellFormed()
    ensures forall s: nat, x: nat {:trigger ShiftCellStamped(TABLES, MATRIX, s, x)} ::
              (s, x) in MATRIX.shift ==> ShiftCellStamped(TABLES, MATRIX, s, x)
  {
    hide ShiftCellStamped, TABLES.WellFormed;
    ToyIsWellFormed();
    forall s: nat, x: nat | (s, x) in MATRIX.shift
      ensures ShiftCellStamped(TABLES, MATRIX, s, x)
    {
      ShiftCellIsStamped(s, x);
    }
  }

  lemma GotoCellsAreStamped()
    ensures TABLES.WellFormed()
    ensures forall s: nat, x: nat {:trigger GotoCellStamped(TABLES, MATRIX, s, x)} ::
              (s, x) in MATRIX.goto_ ==> GotoCellStamped(TABLES, MATRIX, s, x)
  {
    ToyIsWellFormed();
  }

  /** The state whose cell each slot is. */
  const OWNER: seq<nat> := [1, 1, 1, 3, 2, 3, 3, 1, 1, 1, 0, 0, 4, 4, 4]

  lemma SlotIsStamped(p: nat)
    requires p < 15
    ensures TABLES.WellFormed() && StampedSlot(TABLES, MATRIX, p)
  {
    hide StampedSlot, TABLES.WellFormed;
    SlotOfCell(OWNER[p], p);
  }

  lemma RowsAgree()
    ensures TABLES.WellFormed() && ShiftRowsAgree(TABLES, MATRIX) && GotoRowsAgree(TABLES, MATRIX)
  {
    ToyIsWellFormed();
    assert forall s, u :: 0 <= s < 5 && 0 <= u < 5 && TABLES.shiftOfst[s] == TABLES.shiftOfst[u] ==> s == u;
    assert forall s, u :: 0 <= s < 5 && 0 <= u < 5 && TABLES.reduceOfst[s] == TABLES.reduceOfst[u] ==>
      s == u || (s in {2, 3} && u in {2, 3});
  }

  /** The fifteen slots of the packed table are the fifteen cells of the matrix, and state 0 has only its default. */
  lemma ToyIsPacked()
    ensures TABLES.WellFormed() && TABLES.DefaultOnly(0) && Stamped(TABLES, MATRIX)
    ensures ShiftRowsAgree(TABLES, MATRIX) && GotoRowsAgree(TABLES, MATRIX)
  {
    hide StampedSlot, ShiftCellStamped, GotoCellStamped, ShiftRowsAgree, GotoRowsAgree;
    ShiftCellsAreStamped();
    GotoCellsAreStamped();
    RowsAgree();
    forall p | 0 <= p < 15
      ensures StampedSlot(TABLES, MATRIX, p)
    {
      SlotIsStamped(p);
    }
  }

  // ---------------------------------------------------------------- the actions

  lemma Hits(s: nat, a: nat)
    requires s < 5 && a < 7
    ensures TABLES.WellFormed() && (Hit(TABLES, s, a) <==> (s, a) in MATRIX.shift)
    ensures Hit(TABLES, s, a) ==> TABLES.action[TABLES.shiftOfst[s] + a] == MATRIX.shift[(s, a)]
  {
    hide Stamped, ShiftExact, ShiftRowsAgree, TABLES.WellFormed;
    ToyIsPacked();
    ShiftExactIff(TABLES, MATRIX);
    HitReadsCell(TABLES, MATRIX, s, a);
  }

  lemma WildHits(s: nat, a: nat)
    requires s < 5 && a < 7
    ensures TABLES.WellFormed() && (WildHit(TABLES, s, a) <==> s == 2 && a > 0)
  {
    ToyIsWellFormed();
    Hits(s, 6);
  }

  lemma StartActions(a: nat)
    requires a < 7
    ensures TABLES.WellFormed() && FindAction(TABLES, 0, a) == 20
  {
    hide Hit, WildHit, TABLES.WellFormed;
    Hits(0, a);
    WildHits(0, a);
    if a == 5 {
      StartActions(2);
    }
  }

  lemma ListActions(a: nat)
    requires a < 7
    ensures TABLES.WellFormed()
    ensures FindAction(TABLES, 1, a)
         == if a == 0 then 18 else if a == 1 then 2 else if a == 2 || a == 5 then 17 else 26
  {
    hide Hit, WildHit, TABLES.WellFormed;
    Hits(1, a);
    WildHits(1, a);
    if a == 5 {
      ListActions(2);
    }
  }

  lemma ListReads(a: nat)
    requires a < 7
    ensures TABLES.WellFormed() && ReadAs(TABLES, 1, a) == if a == 5 then 2 else a
  {
    hide Hit, WildHit, TABLES.WellFormed;
    Hits(1, a);
    WildHits(1, a);
    if a == 5 {
      ListReads(2);
    }
  }

  lemma SemiActions(a: nat)
    requires a < 7
    ensures TABLES.WellFormed() && FindAction(TABLES, 2, a) == if a == 0 then 26 else 14
    ensures a > 0 ==> ReadAs(TABLES, 2, a) == 6
  {
    hide Hit, WildHit, TABLES.WellFormed;
    Hits(2, a);
    Hits(2, 6);
    WildHits(2, a);
    if a == 5 {
      SemiActions(2);
    }
  }

  lemma ExprActions(a: nat)
    requires a < 7
    ensures TABLES.WellFormed()
    ensures FindAction(TABLES, 3, a) == if a == 1 then 13 else if a == 3 || a == 4 then 4 else 26
    ensures a in {1, 3, 4} ==> ReadAs(TABLES, 3, a) == a
  {
    hide Hit, WildHit, TABLES.WellFormed;
    Hits(3, a);
    WildHits(3, a);
    if a == 5 {
      ExprActions(2);
    }
  }

  lemma OperandActions(a: nat)
    requires a < 7
    ensures TABLES.WellFormed() && FindAction(TABLES, 4, a) == if a == 2 || a == 5 then 17 else 26
    ensures a == 2 || a == 5 ==> ReadAs(TABLES, 4, a) == 2
  {
    hide Hit, WildHit, TABLES.WellFormed;
    Hits(4, a);
    WildHits(4, a);
    if a == 5 {
      OperandActions(2);
    }
  }

  lemma Gotos(s: nat, x: nat)
    requires s < 5 && 7 <= x < 12
    ensures TABLES.WellFormed()
    ensures GotoDefined(TABLES, s, x) <==> (s, x) in MATRIX.goto_
    ensures (s, x) in MATRIX.goto_ ==> FindReduceAction(TABLES, s, x) == MATRIX.goto_[(s, x)]
  {
    ToyIsPacked();
    GotoExactIff(TABLES, MATRIX);
    if (s, x) in MATRIX.goto_ {
      PackedGotoEqualsSparse(TABLES, MATRIX, s, x);
    }
  }

  lemma {:induction false} ZeroLeast(weight: seq<nat>, xs: set<nat>, k: nat)
    requires k <= |weight| && forall i :: 0 <= i < |weight| ==> weight[i] == 0
    ensures Least(weight, xs, k) == 0
  {
    if k > 0 {
      ZeroLeast(weight, xs, k - 1);
    }
  }

  lemma NoWeight(xs: set<nat>)
    ensures Shaped(TOY) && Weight(TOY, xs) == 0
  {
    ToyIsShaped();
    ZeroLeast(CERT.weight, xs, 12);
  }

  lemma {:induction false} NoWeights(xss: seq<set<nat>>)
    ensures Shaped(TOY) && Weights(TOY, xss) == 0
    decreases |xss|
  {
    hide Shaped, Weight;
    ToyIsShaped();
    if |xss| > 0 {
      NoWeights(xss[..|xss| - 1]);
      NoWeight(xss[|xss| - 1]);
    }
  }

  /** Reductions cost only budget: the symbols weigh nothing. */
  lemma LowersByBudget(b: nat, r: nat, avail: nat, a: nat)
    requires Shaped(TOY) && r < 8 && GotoDefined(TABLES, b, GRAMMAR[r].lhs)
    requires var act := FindReduceAction(TABLES, b, GRAMMAR[r].lhs);
      act == 27 || Budget(TOY, StateNo(TABLES, act), a) < avail
    ensures Lowers(TOY, b, r, avail, a)
  {
    hide Weight, Weights;
    NoWeights(GRAMMAR[r].rhs);
    NoWeight(Syms(TOY, StateNo(TABLES, FindReduceAction(TABLES, b, GRAMMAR[r].lhs))));
  }

  // ---------------------------------------------------------------- validity

  lemma PendingItem()
    ensures Shaped(TOY) && PendingOk(TOY, 1, 9, 1)
  {
    hide GotoDefined, FindReduceAction, Lowers;
    ToyIsShaped();
    Gotos(0, 8);
    forall a | 0 <= a < 7
      ensures Lowers(TOY, 0, 1, 1, a)
    {
      LowersByBudget(0, 1, 1, a);
    }
  }

  lemma PendingSemi()
    ensures Shaped(TOY) && PendingOk(TOY, 3, 1, 3)
  {
    hide GotoDefined, FindReduceAction, Lowers;
    ToyIsShaped();
    Gotos(1, 9);
    forall a | 0 <= a < 7
      ensures Lowers(TOY, 1, 3, 2, a)
    {
      LowersByBudget(1, 3, 2, a);
    }
  }

  lemma PendingAny()
    ensures Shaped(TOY) && PendingOk(TOY, 2, 6, 4)
  {
    hide GotoDefined, FindReduceAction, Lowers;
    ToyIsShaped();
    Gotos(1, 9);
    forall a | 0 <= a < 7
      ensures Lowers(TOY, 1, 4, 2, a)
    {
      LowersByBudget(1, 4, 2, a);
    }
  }

  lemma PendingOperand(x: nat)
    requires x == 10 || x == 11
    ensures Shaped(TOY) && PendingOk(TOY, 4, x, 5)
  {
    hide GotoDefined, FindReduceAction, Lowers;
    ToyIsShaped();
    Gotos(1, 10);
    forall a | 0 <= a < 7
      ensures Lowers(TOY, 1, 5, 1, a)
    {
      LowersByBudget(1, 5, 1, a);
    }
  }

  lemma PendingTerm(s: nat)
    requires s == 1 || s == 4
    ensures Shaped(TOY) && PendingOk(TOY, s, 2, 7)
  {
    hide GotoDefined, FindReduceAction, Lowers;
    ToyIsShaped();
    Gotos(s, 11);
    forall a | 0 <= a < 7
      ensures Lowers(TOY, s, 7, 2, a)
    {
      LowersByBudget(s, 7, 2, a);
    }
  }

  lemma StateEdges()
    ensures Shaped(TOY) && Extends(TOY, 0, 8, 1) && Extends(TOY, 1, 1, 2)
    ensures Extends(TOY, 1, 10, 3) && Extends(TOY, 1, 11, 3) && Extends(TOY, 3, 3, 4) && Extends(TOY, 3, 4, 4)
  {
    ToyIsShaped();
  }

  lemma StartTokens(a: nat)
    requires a < 7
    ensures Shaped(TOY) && TokenOk(TOY, 0, a)
  {
    hide FindAction, GotoDefined, FindReduceAction, Lowers;
    ToyIsShaped();
    StartActions(a);
    Gotos(0, 8);
    LowersByBudget(0, 2, 1, a);
    assert ReduceOk(TOY, 0, 2, a);
  }

  lemma ListTokens(a: nat)
    requires a < 7
    ensures Shaped(TOY) && TokenOk(TOY, 1, a)
  {
    hide FindAction, ReadAs, GotoDefined, FindReduceAction, Lowers, PendingOk, Extends;
    ToyIsShaped();
    ListActions(a);
    ListReads(a);
    StateEdges();
    PendingTerm(1);
    Gotos(0, 7);
    LowersByBudget(0, 0, 0, 0);
  }

  lemma OtherTokens(s: nat, a: nat)
    requires 2 <= s < 5 && a < 7
    ensures Shaped(TOY) && TokenOk(TOY, s, a)
  {
    hide FindAction, ReadAs, PendingOk, Extends;
    ToyIsShaped();
    SemiActions(a);
    ExprActions(a);
    OperandActions(a);
    StateEdges();
    PendingAny();
    PendingSemi();
    PendingTerm(4);
  }

  lemma GotoIsOk(s: nat, x: nat)
    requires s < 5 && 7 <= x < 12
    ensures Shaped(TOY) && GotoOk(TOY, s, x)
  {
    hide GotoDefined, FindReduceAction, PendingOk, Extends;
    ToyIsShaped();
    Gotos(s, x);
    StateEdges();
    PendingItem();
    PendingOperand(10);
    PendingOperand(11);
  }

  lemma ToyIsValid()
    ensures Valid(TOY)
  {
    hide TokenOk, GotoOk, Shaped;
    ToyIsShaped();
    forall s, a | 0 <= s < 5 && 0 <= a < 7
      ensures TokenOk(TOY, s, a)
    {
      if s == 0 {
        StartTokens(a);
      } else if s == 1 {
        ListTokens(a);
      } else {
        OtherTokens(s, a);
      }
    }
    forall s, x | 0 <= s < 5 && 7 <= x < 12
      ensures GotoOk(TOY, s, x)
    {
      GotoIsOk(s, x);
    }
  }

  // ---------------------------------------------------------------- completeness

  /**
    The kinds: each rule that the driver makes, with what precedence leaves it.  The right operand of kind 5 is a
    term, so the operator groups to the left; ID is also read from KW, and ANY from every token.
   */
  const KINDS := [
    Kind(0, [Slot({}, {1, 2})]),
    Kind(1, [Slot({}, {1, 2}), Slot({}, {3, 4})]),
    Kind(2, []),
    Kind(3, [Slot({}, {5, 6}), Slot({1}, {})]),
    Kind(4, [Slot({1}, {}), Slot({1, 2, 3, 4, 5, 6}, {})]),
    Kind(5, [Slot({}, {5, 6}), Slot({3, 4}, {}), Slot({}, {6})]),
    Kind(7, [Slot({2, 5}, {})])]

  const ITEMS := Items(
    KINDS, {0}, {0, 2},
    [{1, 2, 5}, {1, 2, 5}, {}, {2, 5}, {1}, {2, 5}, {2, 5}],
    [{Item(0, 0, 0),
      Item(1, 0, 0), Item(1, 0, 1), Item(1, 0, 2), Item(1, 0, 5),
      Item(2, 0, 0), Item(2, 0, 1), Item(2, 0, 2), Item(2, 0, 5)},
     {Item(0, 1, 0),
      Item(1, 1, 0), Item(1, 1, 1), Item(1, 1, 2), Item(1, 1, 5),
      Item(3, 0, 0), Item(3, 0, 1), Item(3, 0, 2), Item(3, 0, 5),
      Item(4, 0, 0), Item(4, 0, 1), Item(4, 0, 2), Item(4, 0, 5),
      Item(5, 0, 1), Item(5, 0, 3), Item(5, 0, 4), Item(6, 0, 1), Item(6, 0, 3), Item(6, 0, 4)},
     {Item(4, 1, 0), Item(4, 1, 1), Item(4, 1, 2), Item(4, 1, 5)},
     {Item(3, 1, 0), Item(3, 1, 1), Item(3, 1, 2), Item(3, 1, 5),
      Item(5, 1, 1), Item(5, 1, 3), Item(5, 1, 4)},
     {Item(5, 2, 1), Item(5, 2, 3), Item(5, 2, 4), Item(6, 0, 1), Item(6, 0, 3), Item(6, 0, 4)}])

  /** What follows an item, and what follows an operand. */
  predicate FollowsItem(a: nat) { a in {0, 1, 2, 5} }
  predicate FollowsOperand(a: nat) { a in {1, 3, 4} }

  /** The nonterminal that each kind makes. */
  const MADE: seq<nat> := [7, 8, 8, 9, 9, 10, 11]

  lemma KindMakes(k: nat)
    requires k < 7
    ensures KINDS[k].rule < 8 && GRAMMAR[KINDS[k].rule].lhs == MADE[k]
  {
  }

  lemma NodeSlotIsOk(kinds: set<nat>, xs: set<nat>)
    requires forall k <- kinds :: k < 7 && MADE[k] in xs
    ensures Shaped(TOY) && SlotOk(TOY, ITEMS, Slot({}, kinds), xs)
  {
    hide Shaped;
    ToyIsShaped();
    forall k | k in kinds
      ensures KINDS[k].rule < 8 && GRAMMAR[KINDS[k].rule].lhs in xs
    {
      KindMakes(k);
    }
  }

  lemma ToyReads(a: nat)
    requires a < 7
    ensures Reads(TABLES, a, a) && (a == 5 ==> Reads(TABLES, a, 2)) && (a > 0 ==> Reads(TABLES, a, 6))
  {
  }

  lemma TokenSlotIsOk(tokens: set<nat>, x: nat)
    requires forall a <- tokens :: a < 7 && (a == x || x == 6 || (a == 5 && x == 2)) && a > 0
    ensures Shaped(TOY) && SlotOk(TOY, ITEMS, Slot(tokens, {}), {x})
  {
    hide Reads, Shaped;
    ToyIsShaped();
    forall a | a in tokens
      ensures x < 7 && Reads(TABLES, a, x)
    {
      ToyReads(a);
    }
  }

  lemma OperatorSlotIsOk()
    ensures Shaped(TOY) && SlotOk(TOY, ITEMS, Slot({3, 4}, {}), {3, 4})
  {
    hide Reads, Shaped;
    ToyIsShaped();
    ToyReads(3);
    ToyReads(4);
  }

  lemma ToyKindsAreOk(k: nat)
    requires k < 7
    ensures Shaped(TOY) && KindOk(TOY, ITEMS, KINDS[k])
  {
    hide SlotOk, Shaped;
    ToyIsShaped();
    if k <= 1 {
      NodeSlotIsOk({1, 2}, {8});
      NodeSlotIsOk({3, 4}, {9});
    } else if k == 3 {
      NodeSlotIsOk({5, 6}, {10, 11});
      TokenSlotIsOk({1}, 1);
    } else if k == 4 {
      TokenSlotIsOk({1}, 1);
      TokenSlotIsOk({1, 2, 3, 4, 5, 6}, 6);
    } else if k == 5 {
      NodeSlotIsOk({5, 6}, {10, 11});
      OperatorSlotIsOk();
      NodeSlotIsOk({6}, {10, 11});
    } else if k == 6 {
      TokenSlotIsOk({2, 5}, 2);
    }
  }

  lemma NothingFollows(slots: seq<Slot>, la: nat, a: nat)
    requires |slots| == 0
    ensures !InFirstOf(ITEMS, slots, a) && AllEmpty(ITEMS, slots)
    ensures InFirstWith(ITEMS, slots, la, a) <==> a == la
  {
  }

  lemma SlotFollows(slots: seq<Slot>, la: nat, a: nat)
    requires |slots| > 0 && !CanBeEmpty(ITEMS, slots[0])
    ensures InFirstOf(ITEMS, slots, a) <==> InFirst(ITEMS, slots[0], a)
    ensures InFirstWith(ITEMS, slots, la, a) <==> InFirst(ITEMS, slots[0], a)
    ensures !AllEmpty(ITEMS, slots)
  {
  }

  lemma FirstsOfSlots(a: nat)
    ensures InFirst(ITEMS, Slot({}, {1, 2}), a) <==> a in {1, 2, 5}
    ensures InFirst(ITEMS, Slot({}, {3, 4}), a) <==> a in {1, 2, 5}
    ensures InFirst(ITEMS, Slot({}, {5, 6}), a) <==> a in {2, 5}
    ensures CanBeEmpty(ITEMS, Slot({}, {1, 2})) && !CanBeEmpty(ITEMS, Slot({}, {3, 4}))
    ensures !CanBeEmpty(ITEMS, Slot({}, {5, 6}))
  {
  }

  lemma ToyFirstIsClosed(k: nat)
    requires k < 7
    ensures KindFirst(TOY, ITEMS, k)
  {
    hide InFirst, CanBeEmpty, InFirstOf;
    var slots := KINDS[k].slots;
    forall a | 0 <= a < 7 && InFirstOf(ITEMS, slots, a)
      ensures a in ITEMS.first[k]
    {
      FirstOfSlots(k, a);
    }
    EmptySlots(k);
  }

  lemma EmptySlots(k: nat)
    requires k < 7
    ensures AllEmpty(ITEMS, KINDS[k].slots) ==> k in ITEMS.nullable
  {
    FirstsOfSlots(0);
    if AllEmpty(ITEMS, KINDS[k].slots) && |KINDS[k].slots| > 0 {
      assert CanBeEmpty(ITEMS, KINDS[k].slots[0]);
      assert |KINDS[k].slots| > 1 ==> CanBeEmpty(ITEMS, KINDS[k].slots[1]);
    }
  }

  lemma FirstOfSlots(k: nat, a: nat)
    requires k < 7 && InFirstOf(ITEMS, KINDS[k].slots, a)
    ensures a in ITEMS.first[k]
  {
    hide CanBeEmpty, InFirst;
    var slots := KINDS[k].slots;
    FirstsOfSlots(a);
    if k <= 1 {
      var rest := slots[1..];
      assert InFirstOf(ITEMS, rest, a) || a in {1, 2, 5};
      if k == 1 {
        assert rest[0] == Slot({}, {3, 4});
        SlotFollows(rest, 0, a);
      } else {
        NothingFollows(rest, 0, a);
      }
    } else if k == 2 {
      NothingFollows(slots, 0, a);
    } else {
      TokenSlots(a);
      SlotFollows(slots, 0, a);
    }
  }

  lemma TokenSlots(a: nat)
    ensures !CanBeEmpty(ITEMS, Slot({1}, {})) && (InFirst(ITEMS, Slot({1}, {}), a) <==> a == 1)
    ensures !CanBeEmpty(ITEMS, Slot({2, 5}, {})) && (InFirst(ITEMS, Slot({2, 5}, {}), a) <==> a in {2, 5})
    ensures !CanBeEmpty(ITEMS, Slot({3, 4}, {})) && (InFirst(ITEMS, Slot({3, 4}, {}), a) <==> a in {3, 4})
  {
  }

  /** The tokens that the items after a kind are closed for. */
  lemma Follows(k: nat, i: nat, la: nat, a: nat)
    requires k < 7 && i < |KINDS[k].slots|
    ensures InFirstWith(ITEMS, KINDS[k].slots[i + 1..], la, a) ==>
      || (i + 1 == |KINDS[k].slots| && a == la)
      || (k == 1 && i == 0 && FollowsItem(a))
      || (k == 3 && i == 0 && a == 1)
      || (k == 4 && i == 0)
      || (k == 5 && i == 0 && FollowsOperand(a))
      || (k == 5 && i == 1)
  {
    hide CanBeEmpty, InFirst, InFirstOf, InFirstWith;
    var rest := KINDS[k].slots[i + 1..];
    FirstsOfSlots(a);
    TokenSlots(a);
    if i + 1 == |KINDS[k].slots| {
      NothingFollows(rest, la, a);
    } else {
      assert rest[0] == KINDS[k].slots[i + 1];
      if (k == 1 || k == 3 || k == 5) && i == 0 {
        SlotFollows(rest, la, a);
      }
    }
  }

  // One lemma for each kind and place of the dot.

  lemma KindGoes(s: nat, it: Item, k: nat)
    requires s < 5 && it.kind < 7 && k < 7 && it.dot < |KINDS[it.kind].slots|
    requires var x := GRAMMAR[KINDS[k].rule].lhs;
      (s, x) in MATRIX.goto_ && MATRIX.goto_[(s, x)] != 27 && Shaped(TOY)
      && Advances(TOY, ITEMS, it, MATRIX.goto_[(s, x)])
    requires forall b :: 0 <= b < 7 && InFirstWith(ITEMS, KINDS[it.kind].slots[it.dot + 1..], it.la, b) ==>
      Item(k, 0, b) in ITEMS.sets[s]
    ensures Shaped(TOY) && KindAdvances(TOY, ITEMS, s, it, k)
  {
    hide GotoDefined, FindReduceAction, InFirstWith, Advances, Shaped;
    Gotos(s, GRAMMAR[KINDS[k].rule].lhs);
  }

  lemma StartItems(it: Item)
    requires it.kind <= 1 && it.dot == 0 && (if it.kind == 0 then it.la == 0 else FollowsItem(it.la))
    ensures Shaped(TOY) && ItemOk(TOY, ITEMS, 0, it)
  {
    hide FindAction, InFirstWith, KindAdvances, Shaped;
    ToyIsShaped();
    forall b | 0 <= b < 7 && InFirstWith(ITEMS, KINDS[it.kind].slots[1..], it.la, b)
      ensures FollowsItem(b)
    {
      Follows(it.kind, 0, it.la, b);
    }
    KindGoes(0, it, 1);
    KindGoes(0, it, 2);
  }

  lemma CompletedItems(s: nat, it: Item)
    requires (s == 0 && it.kind == 2 && it.dot == 0 && FollowsItem(it.la)) || (s == 1 && it == Item(0, 1, 0))
    ensures Shaped(TOY) && ItemOk(TOY, ITEMS, s, it)
  {
    hide FindAction, Shaped;
    ToyIsShaped();
    StartActions(it.la);
    ListActions(0);
  }

  lemma MoreItems(it: Item)
    requires it.kind == 1 && it.dot == 1 && FollowsItem(it.la)
    ensures Shaped(TOY) && ItemOk(TOY, ITEMS, 1, it)
  {
    hide FindAction, InFirstWith, KindAdvances, Shaped;
    ToyIsShaped();
    forall b | 0 <= b < 7 && InFirstWith(ITEMS, KINDS[1].slots[2..], it.la, b)
      ensures FollowsItem(b)
    {
      Follows(1, 1, it.la, b);
    }
    KindGoes(1, it, 3);
    KindGoes(1, it, 4);
  }

  lemma OperandItems(it: Item)
    requires it.dot == 0 && ((it.kind == 3 && FollowsItem(it.la)) || (it.kind == 5 && FollowsOperand(it.la)))
    ensures Shaped(TOY) && ItemOk(TOY, ITEMS, 1, it)
  {
    hide FindAction, InFirstWith, KindAdvances, Shaped;
    ToyIsShaped();
    forall b | 0 <= b < 7 && InFirstWith(ITEMS, KINDS[it.kind].slots[1..], it.la, b)
      ensures FollowsOperand(b)
    {
      Follows(it.kind, 0, it.la, b);
    }
    KindGoes(1, it, 5);
    KindGoes(1, it, 6);
  }

  lemma RightOperandItems(it: Item)
    requires it.kind == 5 && it.dot == 2 && FollowsOperand(it.la)
    ensures Shaped(TOY) && ItemOk(TOY, ITEMS, 4, it)
  {
    hide FindAction, InFirstWith, KindAdvances, Shaped;
    ToyIsShaped();
    forall b | 0 <= b < 7 && InFirstWith(ITEMS, KINDS[5].slots[3..], it.la, b)
      ensures FollowsOperand(b)
    {
      Follows(5, 2, it.la, b);
    }
    KindGoes(4, it, 6);
  }

  /** Items that expect a token. */
  lemma TokenItems(s: nat, it: Item)
    requires s < 5 && it.kind < 7 && it.dot < |KINDS[it.kind].slots| && it.la < 7
    requires KINDS[it.kind].slots[it.dot].kinds == {} && Shaped(TOY)
    requires forall a <- KINDS[it.kind].slots[it.dot].tokens :: TokenAdvances(TOY, ITEMS, s, it, a)
    ensures ItemOk(TOY, ITEMS, s, it)
  {
    hide TokenAdvances, Shaped;
  }

  lemma TermItems(s: nat, it: Item)
    requires (s == 1 || s == 4) && it.kind == 6 && it.dot == 0 && FollowsOperand(it.la)
    ensures Shaped(TOY) && ItemOk(TOY, ITEMS, s, it)
  {
    hide FindAction, Shaped;
    ToyIsShaped();
    forall a | a in {2, 5}
      ensures TokenAdvances(TOY, ITEMS, s, it, a)
    {
      ListActions(a);
    ListReads(a);
      OperandActions(a);
    }
    TokenItems(s, it);
  }

  lemma SemiItems(s: nat, it: Item)
    requires it.kind == 4 && ((s == 1 && it.dot == 0) || (s == 2 && it.dot == 1)) && FollowsItem(it.la)
    ensures Shaped(TOY) && ItemOk(TOY, ITEMS, s, it)
  {
    hide FindAction, Shaped;
    ToyIsShaped();
    forall a | a in KINDS[4].slots[it.dot].tokens
      ensures TokenAdvances(TOY, ITEMS, s, it, a)
    {
      ListActions(a);
    ListReads(a);
      SemiActions(a);
    }
    TokenItems(s, it);
  }

  lemma ExprItems(it: Item)
    requires it.dot == 1 && ((it.kind == 3 && FollowsItem(it.la)) || (it.kind == 5 && FollowsOperand(it.la)))
    ensures Shaped(TOY) && ItemOk(TOY, ITEMS, 3, it)
  {
    hide FindAction, Shaped;
    ToyIsShaped();
    forall a | a in KINDS[it.kind].slots[1].tokens
      ensures TokenAdvances(TOY, ITEMS, 3, it, a)
    {
      ExprActions(a);
    }
    TokenItems(3, it);
  }

  lemma StateItems(s: nat, it: Item)
    requires s < 5 && it in ITEMS.sets[s]
    ensures Shaped(TOY) && ItemOk(TOY, ITEMS, s, it)
  {
    hide ItemOk, Shaped;
    if s == 0 {
      if it.kind == 2 {
        CompletedItems(0, it);
      } else {
        StartItems(it);
      }
    } else if s == 1 {
      if it.kind == 0 {
        CompletedItems(1, it);
      } else if it.kind == 1 {
        MoreItems(it);
      } else if it.kind == 4 {
        SemiItems(1, it);
      } else if it.kind == 6 {
        TermItems(1, it);
      } else {
        OperandItems(it);
      }
    } else if s == 2 {
      SemiItems(2, it);
    } else if s == 3 {
      ExprItems(it);
    } else if it.kind == 6 {
      TermItems(4, it);
    } else {
      RightOperandItems(it);
    }
  }

  lemma ToyIsComplete()
    ensures Shaped(TOY) && Complete(TOY, ITEMS)
  {
    hide ItemOk, KindOk, KindFirst, GotoDefined, FindReduceAction, Shaped;
    ToyIsShaped();
    Gotos(0, 7);
    forall k | 0 <= k < 7
      ensures KindOk(TOY, ITEMS, KINDS[k]) && KindFirst(TOY, ITEMS, k)
    {
      ToyKindsAreOk(k);
      ToyFirstIsClosed(k);
    }
    forall s | 0 <= s < 5
      ensures ItemsOk(TOY, ITEMS, s)
    {
      forall it | it in ITEMS.sets[s]
        ensures ItemOk(TOY, ITEMS, s, it)
      {
        StateItems(s, it);
      }
    }
  }

  // ---------------------------------------------------------------- precedence loses no input

  predicate IsExpr(tree: Tree) { IsKind(ITEMS, tree, 5) || IsKind(ITEMS, tree, 6) }

  lemma ReadsOfToy(a: nat, x: nat)
    requires a < 7 && x < 7 && Reads(TABLES, a, x)
    ensures x == 1 ==> a == 1
    ensures x == 2 ==> a in {2, 5}
    ensures x == 3 || x == 4 ==> a == x
    ensures x == 6 ==> a in {1, 2, 3, 4, 5, 6}
  {
  }

  /** A leaf for one of these terminals. */
  lemma LeafOf(tree: Tree, xs: set<nat>)
    requires Derives(TOY, tree, xs) && forall x <- xs :: x < 7
    ensures tree.Leaf? && tree.tok.major < 7
    ensures exists x <- xs :: x < 7 && Reads(TABLES, tree.tok.major, x)
  {
  }

  lemma RulesOfExpr(tree: Tree)
    requires Derives(TOY, tree, {10, 11})
    ensures tree.Node? && tree.rule in {5, 6, 7} && |tree.kids| == |GRAMMAR[tree.rule].rhs|
    ensures forall i :: 0 <= i < |tree.kids| ==> Derives(TOY, tree.kids[i], GRAMMAR[tree.rule].rhs[i])
  {
  }

  lemma TermIsKind(tree: Tree)
    requires Derives(TOY, tree, {10, 11}) && tree.Node? && tree.rule == 7
    ensures IsKind(ITEMS, tree, 6)
  {
    LeafOf(tree.kids[0], {2});
    ReadsOfToy(tree.kids[0].tok.major, 2);
  }

  /** An operator and one more operand, regrouped to the left. */
  lemma {:induction false} Grafted(l: Tree, op: Tree, r: Tree) returns (u: Tree)
    requires IsExpr(l) && Derives(TOY, op, {3, 4}) && Derives(TOY, r, {10, 11})
    ensures IsExpr(u) && Yield(u) == Yield(l) + Yield(op) + Yield(r)
    decreases r
  {
    hide IsExpr, IsKind, Derives, Yield;
    RulesOfExpr(r);
    if r.rule == 7 {
      TermIsKind(r);
      u := LeftAssociated(l, op, r);
    } else if r.rule == 6 {
      UnitIsExpr(r);
      u := Grafted(l, op, r.kids[0]);
    } else {
      assert r.kids == [r.kids[0], r.kids[1], r.kids[2]];
      var left := Grafted(l, op, r.kids[0]);
      u := Grafted(left, r.kids[1], r.kids[2]);
      YieldOfThree(5, r.kids[0], r.kids[1], r.kids[2]);
      assert Yield(u) == Yield(l) + Yield(op) + (Yield(r.kids[0]) + Yield(r.kids[1]) + Yield(r.kids[2]));
    }
  }

  lemma UnitIsExpr(tree: Tree)
    requires Derives(TOY, tree, {10, 11}) && tree.Node? && tree.rule == 6
    ensures |tree.kids| == 1 && Derives(TOY, tree.kids[0], {10, 11}) && Yield(tree) == Yield(tree.kids[0])
  {
    DerivesFromMore(TOY, tree.kids[0], {11}, {10, 11});
    assert tree.kids == [tree.kids[0]];
    YieldAllSingle(tree.kids[0]);
  }

  lemma OperatorLeaf(op: Tree)
    requires Derives(TOY, op, {3, 4})
    ensures op.Leaf? && op.tok.major in {3, 4}
  {
    LeafOf(op, {3, 4});
    var x :| x in {3, 4} && Reads(TABLES, op.tok.major, x);
    ReadsOfToy(op.tok.major, x);
  }

  lemma LeftAssociated(l: Tree, op: Tree, r: Tree) returns (u: Tree)
    requires IsExpr(l) && Derives(TOY, op, {3, 4}) && IsKind(ITEMS, r, 6)
    ensures IsExpr(u) && Yield(u) == Yield(l) + Yield(op) + Yield(r)
  {
    u := Node(5, [l, op, r]);
    OperatorLeaf(op);
    assert Admits(ITEMS, l, Slot({}, {5, 6})) && Admits(ITEMS, op, Slot({3, 4}, {})) && Admits(ITEMS, r, Slot({}, {6}));
    assert IsKind(ITEMS, u, 5);
    YieldOfThree(5, l, op, r);
  }

  lemma YieldOfThree(r: nat, a: Tree, b: Tree, c: Tree)
    ensures Yield(Node(r, [a, b, c])) == Yield(a) + Yield(b) + Yield(c)
  {
    assert [a, b, c] == [a] + ([b] + [c]);
    YieldAllConcat([a], [b] + [c]);
    YieldAllConcat([b], [c]);
    YieldAllSingle(a);
    YieldAllSingle(b);
    YieldAllSingle(c);
  }

  lemma YieldOfTwo(r: nat, a: Tree, b: Tree)
    ensures Yield(Node(r, [a, b])) == Yield(a) + Yield(b)
  {
    assert [a, b] == [a] + [b];
    YieldAllConcat([a], [b]);
    YieldAllSingle(a);
    YieldAllSingle(b);
  }

  lemma {:induction false} AdmittedExpr(tree: Tree) returns (u: Tree)
    requires Derives(TOY, tree, {10, 11})
    ensures IsExpr(u) && Yield(u) == Yield(tree)
    decreases tree
  {
    RulesOfExpr(tree);
    if tree.rule == 7 {
      TermIsKind(tree);
      u := tree;
    } else if tree.rule == 6 {
      UnitIsExpr(tree);
      u := AdmittedExpr(tree.kids[0]);
    } else {
      assert tree.kids == [tree.kids[0], tree.kids[1], tree.kids[2]];
      var l := AdmittedExpr(tree.kids[0]);
      u := Grafted(l, tree.kids[1], tree.kids[2]);
      YieldOfThree(5, tree.kids[0], tree.kids[1], tree.kids[2]);
    }
  }

  lemma AdmittedItem(tree: Tree) returns (u: Tree)
    requires Derives(TOY, tree, {9})
    ensures Admits(ITEMS, u, Slot({}, {3, 4})) && Yield(u) == Yield(tree)
  {
    assert tree.Node? && tree.rule in {3, 4};
    var a, b := tree.kids[0], tree.kids[1];
    assert tree.kids == [a, b];
    YieldOfTwo(tree.rule, a, b);
    if tree.rule == 3 {
      LeafOf(b, {1});
      ReadsOfToy(b.tok.major, 1);
      var e := AdmittedExpr(a);
      u := Node(3, [e, b]);
      YieldOfTwo(3, e, b);
      assert Admits(ITEMS, e, Slot({}, {5, 6})) && Admits(ITEMS, b, Slot({1}, {}));
      assert IsKind(ITEMS, u, 3);
    } else {
      LeafOf(a, {1});
      ReadsOfToy(a.tok.major, 1);
      LeafOf(b, {6});
      ReadsOfToy(b.tok.major, 6);
      u := tree;
      assert IsKind(ITEMS, u, 4);
    }
  }

  lemma {:induction false} AdmittedList(tree: Tree) returns (u: Tree)
    requires Derives(TOY, tree, {8})
    ensures Admits(ITEMS, u, Slot({}, {1, 2})) && Yield(u) == Yield(tree)
    decreases tree
  {
    assert tree.Node? && tree.rule in {1, 2};
    if tree.rule == 2 {
      u := tree;
      assert IsKind(ITEMS, u, 2);
    } else {
      var a, b := tree.kids[0], tree.kids[1];
      assert tree.kids == [a, b];
      var l := AdmittedList(a);
      var i := AdmittedItem(b);
      u := Node(1, [l, i]);
      YieldOfTwo(1, a, b);
      YieldOfTwo(1, l, i);
      assert IsKind(ITEMS, u, 1);
    }
  }

  lemma ToyCovers()
    ensures Covers(TOY, ITEMS)
  {
    forall tree: Tree | Derives(TOY, tree, {7}) && tree.Node?
      ensures HasInputTree(ITEMS, Yield(tree))
    {
      assert tree.rule == 0 && tree.kids == [tree.kids[0]];
      var l := AdmittedList(tree.kids[0]);
      var u := Node(0, [l]);
      YieldAllSingle(l);
      YieldAllSingle(tree.kids[0]);
      assert IsKind(ITEMS, u, 0);
      assert IsInput(ITEMS, u) && Yield(u) == Yield(tree);
    }
  }

  /** The grammar itself is ambiguous: one input with two trees. */
  lemma ToyIsAmbiguous(t: Token, op: Token)
    requires t.major == 2 && op.major == 3
    ensures var x := Node(7, [Leaf(t)]);
      var left := Node(5, [Node(5, [x, Leaf(op), x]), Leaf(op), x]);
      var right := Node(5, [x, Leaf(op), Node(5, [x, Leaf(op), x])]);
      && Derives(TOY, left, {10}) && Derives(TOY, right, {10}) && left != right
      && Yield(left) == Yield(right)
  {
    var x, o := Node(7, [Leaf(t)]), Leaf(op);
    var pair := Node(5, [x, o, x]);
    assert Reads(TABLES, 2, 2) && Reads(TABLES, 3, 3);
    assert Derives(TOY, Leaf(t), {2}) && Derives(TOY, o, {3, 4});
    assert Derives(TOY, x, {10, 11});
    assert Derives(TOY, pair, {10, 11});
    YieldOfThree(5, x, o, x);
    YieldOfThree(5, pair, o, x);
    YieldOfThree(5, x, o, pair);
  }

  // ---------------------------------------------------------------- the optimized-out rule

  lemma {:induction false} ToyLeads(x: nat, y: nat, n: nat)
    ensures Leads(WRITTEN, x, y, n) ==> x == y || (x == 10 && y == 11)
    decreases n
  {
    if n > 0 && Leads(WRITTEN, x, y, n) {
      var r: nat, z: nat :| Unit(WRITTEN, r, x, z) && Leads(WRITTEN, z, y, n - 1);
      assert x == 10 && z == 11;
      ToyLeads(z, y, n - 1);
    }
  }

  lemma ToyReaches(x: nat, y: nat)
    ensures Reaches(WRITTEN, x, y) <==> x == y || (x == 10 && y == 11)
  {
    if n: nat :| Leads(WRITTEN, x, y, n) {
      ToyLeads(x, y, n);
    }
    ReachesItself(WRITTEN, y);
    if x == 10 && y == 11 {
      assert Unit(WRITTEN, 6, 10, 11);
      ReachesOver(WRITTEN, 6, 10, 11, 11);
    }
  }

  lemma ToySpreads(xs: set<nat>, ys: set<nat>)
    requires ys == xs + if 10 in xs then {11} else {}
    ensures Spreads(WRITTEN, xs, ys)
  {
    hide Reaches;
    forall y: nat
      ensures y in ys <==> exists x <- xs :: Reaches(WRITTEN, x, y)
    {
      ToyReaches(y, y);
      ToyReaches(10, y);
      forall x | x in xs
        ensures Reaches(WRITTEN, x, y) <==> x == y || (x == 10 && y == 11)
      {
        ToyReaches(x, y);
      }
    }
  }

  lemma ToyElides()
    ensures Elides(TOY, WRITTEN) && StartStays(TOY, WRITTEN)
  {
    hide Spreads, Reaches;
    forall r | 0 <= r < 8
      ensures RuleElides(TOY, WRITTEN, r)
    {
      forall i | 0 <= i < |GRAMMAR[r].rhs|
        ensures Spreads(WRITTEN, WRITTEN.rules[r].rhs[i], GRAMMAR[r].rhs[i])
      {
        ToySpreads(WRITTEN.rules[r].rhs[i], GRAMMAR[r].rhs[i]);
      }
    }
    forall y: nat | Reaches(WRITTEN, 7, y)
      ensures y == 7
    {
      ToyReaches(7, y);
    }
  }

  // ---------------------------------------------------------------- the theorems at work

  /** The toy driver accepts exactly what the toy grammar derives as it is written, ambiguous as that is. */
  lemma ToyAcceptsItsLanguage(toks: seq<Token>)
    requires Valid(TOY) && AreTokens(TOY, toks)
    ensures AreTokens(TOY, toks + [Token(0, "")])
    ensures WhollyAccepted(FreshRun(TOY, Unbounded, BOTTOM, toks + [Token(0, "")])) <==>
              DerivesInput(AsWritten(TOY, WRITTEN), toks)
  {
    hide Valid, Complete, Covers, Elides, StartStays;
    ToyIsComplete();
    ToyCovers();
    ToyElides();
    AcceptsTheWrittenLanguage(TOY, WRITTEN, ITEMS, BOTTOM, toks, Token(0, ""));
  }

  /** With YYSTACKDEPTH 1 the very first token makes yytos run below the stack. */
  lemma DepthOneUnderflows(tok: Token)
    requires Valid(TOY) && tok.major < 7
    ensures Inv(TOY, [BOTTOM]) && Feed(TOY, Bounded(1, []), [BOTTOM], tok).stk == []
  {
    hide Feed, Inv, Valid, FindAction;
    InitialInv(TOY, BOTTOM);
    StartActions(tok.major);
    UnderflowIff(TOY, Bounded(1, []), [BOTTOM], tok);
  }
}
