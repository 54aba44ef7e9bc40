/**
  The generated tables of the push-down automaton and the two lookups over them.

  The action table is a comb: the rows of all states are laid over one another in `action`, a row
  starting at its offset, and `lookahead` records for each slot the symbol that owns it.  This module
  states the lookups as the driver performs them and relates them to the sparse matrix the comb packs.
 */
module LemonTables {

  /** One element of yyRuleInfo. */
  datatype RuleInfo = RuleInfo(lhs: nat, nrhs: nat)

  datatype Tables = Tables(
    nTerminal: nat,          // terminals are 0..nTerminal-1, nonterminals nTerminal..noCode-1
    noCode: nat,             // YYNOCODE: the code of no symbol
    wildcard: nat,           // YYWILDCARD
    minShiftReduce: nat,     // YY_MIN_SHIFTREDUCE
    shiftMin: int,           // YY_SHIFT_MIN
    shiftMax: int,           // YY_SHIFT_MAX
    shiftUseDflt: int,       // YY_SHIFT_USE_DFLT: the offset of a state that has only its default
    reduceUseDflt: int,      // YY_REDUCE_USE_DFLT: the offset of a state without gotos
    action: seq<nat>,        // yy_action
    lookahead: seq<nat>,     // yy_lookahead
    shiftOfst: seq<int>,     // yy_shift_ofst
    reduceOfst: seq<int>,    // yy_reduce_ofst
    deflt: seq<nat>,         // yy_default
    fallback: seq<nat>,      // yyFallback
    rules: seq<RuleInfo>)    // yyRuleInfo
  {
    // The control constants, laid out as lemon lays them out: shifts, shift-reduces, reduces, then
    // the error, accept and no-op codes.
    function NState(): nat { |shiftOfst| }
    function NRule(): nat { |rules| }
    function MaxShiftReduce(): int { minShiftReduce + NRule() - 1 }
    function MinReduce(): nat { minShiftReduce + NRule() }
    function MaxReduce(): int { MinReduce() + NRule() - 1 }
    function ErrorAction(): nat { MinReduce() + NRule() }
    function AcceptAction(): nat { ErrorAction() + 1 }
    function Count(): nat { |action| }

    /** A state whose row is empty is given an offset at which no probe can hit. */
    predicate DefaultOnly(s: nat)
      requires s < NState()
    {
      shiftOfst[s] == shiftUseDflt
    }

    /** The bound tests of the wildcard probe, as the preprocessor keeps them or compiles them out. */
    predicate LowerTest() { shiftMin + wildcard < 0 }
    predicate UpperTest() { shiftMax + wildcard >= Count() }

    /** What the driver takes for granted about its tables, mostly in its own assertions. */
    predicate WellFormed() {
      && Generated()
      && ((exists s :: 0 <= s < NState() && DefaultOnly(s)) ==> UpperTest())
    }

    /** All of that but for the bounds of the wildcard probe. */
    predicate Generated() {
      && 0 < nTerminal <= noCode
      && 0 < wildcard < nTerminal
      && 0 < NState() <= minShiftReduce
      && 0 < NRule()
      && |lookahead| == |action|
      && |deflt| == NState()
      && |reduceOfst| <= NState()
      && Count() <= shiftUseDflt
      && (forall s :: 0 <= s < NState() ==> DefaultOnly(s) || shiftMin <= shiftOfst[s] <= shiftMax)
      && (forall s :: 0 <= s < NState() ==> MinReduce() <= deflt[s] <= ErrorAction())
      && (|fallback| > 0 ==> fallback[0] == 0)  // the end-of-input token has no fallback
      && (forall a :: 0 <= a < |fallback| && fallback[a] != 0 ==>
            fallback[a] < |fallback| && fallback[a] < nTerminal && fallback[fallback[a]] == 0)
      && (forall r :: 0 <= r < NRule() ==> nTerminal <= rules[r].lhs < noCode)
    }
  }

  /** The fallback of token `a`, 0 when it has none. */
  function FallbackOf(t: Tables, a: nat): nat {
    if a < |t.fallback| then t.fallback[a] else 0
  }

  /** The slot of (s, a) belongs to a. */
  predicate Hit(t: Tables, s: nat, a: nat)
    requires t.WellFormed() && s < t.NState()
  {
    var i := t.shiftOfst[s] + a;
    0 <= i < t.Count() && t.lookahead[i] == a
  }

  /** The tests that are compiled in keep the wildcard probe of this row inside the table. */
  predicate ProbeInRange(t: Tables, s: nat)
    requires t.Generated() && s < t.NState()
  {
    var j := t.shiftOfst[s] + t.wildcard;
    (t.LowerTest() && j < 0) || (t.UpperTest() && j >= t.Count()) || 0 <= j < t.Count()
  }

  /**
    The lower test is never missed.  The upper test is missed exactly by rows that have only their default: if
    there is one, the test must be compiled in.
   */
  lemma ProbesInRangeIff(t: Tables)
    requires t.Generated()
    ensures t.WellFormed() <==> forall s :: 0 <= s < t.NState() ==> ProbeInRange(t, s)
  {
    if t.WellFormed() {
      forall s | 0 <= s < t.NState()
        ensures ProbeInRange(t, s)
      {
        assert t.DefaultOnly(s) || t.shiftOfst[s] <= t.shiftMax;
      }
    } else {
      var s :| 0 <= s < t.NState() && t.DefaultOnly(s);
      assert !ProbeInRange(t, s);
    }
  }

  /**
    The wildcard test.  Either bound test is compiled out when the extreme offsets already imply it,
    so the index is shown to be in range from the offsets alone.
   */
  predicate WildHit(t: Tables, s: nat, a: nat)
    requires t.WellFormed() && s < t.NState()
  {
    var j := t.shiftOfst[s] + t.wildcard;
    && (t.LowerTest() ==> 0 <= j)
    && (t.UpperTest() ==> j < t.Count())
    && t.lookahead[j] == t.wildcard
    && a > 0
  }

  /** The action of state s on token a: the fixed point of yy_find_shift_action's loop. */
  function FindAction(t: Tables, s: nat, a: nat): nat
    requires t.WellFormed() && s < t.NState()
    decreases if FallbackOf(t, a) != 0 then 1 else 0
  {
    if Hit(t, s, a) then t.action[t.shiftOfst[s] + a]
    else if FallbackOf(t, a) != 0 then FindAction(t, s, FallbackOf(t, a))
    else if WildHit(t, s, a) then t.action[t.shiftOfst[s] + t.wildcard]
    else t.deflt[s]
  }

  /** The terminal as which FindAction reads token a: itself, its fallback or the wildcard. */
  function ReadAs(t: Tables, s: nat, a: nat): nat
    requires t.WellFormed() && s < t.NState()
    decreases if FallbackOf(t, a) != 0 then 1 else 0
  {
    if Hit(t, s, a) then a
    else if FallbackOf(t, a) != 0 then ReadAs(t, s, FallbackOf(t, a))
    else if WildHit(t, s, a) then t.wildcard
    else a
  }

  /** Token a may stand where the grammar has terminal x. */
  predicate Reads(t: Tables, a: nat, x: nat) {
    a == x || (x != 0 && FallbackOf(t, a) == x) || (x == t.wildcard && a > 0)
  }

  lemma ReadAsIsLegal(t: Tables, s: nat, a: nat)
    requires t.WellFormed() && s < t.NState() && a < t.nTerminal
    ensures Reads(t, a, ReadAs(t, s, a)) && ReadAs(t, s, a) < t.nTerminal
  {
    var f := FallbackOf(t, a);
    if !Hit(t, s, a) && f != 0 {
      assert FallbackOf(t, f) == 0;
      assert ReadAs(t, s, f) == f || ReadAs(t, s, f) == t.wildcard;
    }
  }

  /**
    An entry of yyFallback is followed wherever the state has no cell for the token itself, and wherever the grammar
    has its fallback the token may stand.
   */
  lemma FallbackIsFollowed(t: Tables, s: nat, a: nat)
    requires t.WellFormed() && s < t.NState() && a < |t.fallback| && t.fallback[a] != 0
    ensures Reads(t, a, t.fallback[a])
    ensures var i := t.shiftOfst[s] + a;
            (0 <= i < t.Count() && t.lookahead[i] == a)
            || (FindAction(t, s, a) == FindAction(t, s, t.fallback[a])
                && ReadAs(t, s, a) == ReadAs(t, s, t.fallback[a]))
  {
  }

  /** A token without an entry is itself or, if it is not the end of input, the wildcard, and nothing else. */
  lemma OnlyEntriesFallBack(t: Tables, s: nat, a: nat, x: nat)
    requires t.WellFormed() && s < t.NState() && (a >= |t.fallback| || t.fallback[a] == 0)
    ensures Reads(t, a, x) <==> x == a || (x == t.wildcard && a > 0)
    ensures ReadAs(t, s, a) == a || (ReadAs(t, s, a) == t.wildcard && a > 0)
  {
  }

  /** The slot of (s, x) belongs to nonterminal x: what yy_find_reduce_action asserts. */
  predicate GotoDefined(t: Tables, s: nat, x: nat)
    requires t.WellFormed()
  {
    && s < |t.reduceOfst| && t.reduceOfst[s] != t.reduceUseDflt
    && 0 <= t.reduceOfst[s] + x < t.Count()
    && t.lookahead[t.reduceOfst[s] + x] == x
  }

  /** In a state without gotos none is defined, and elsewhere at most the slots that name x. */
  lemma NoGotoByDefault(t: Tables, s: nat, x: nat)
    requires t.WellFormed() && s < |t.reduceOfst|
    ensures t.reduceOfst[s] == t.reduceUseDflt ==> !GotoDefined(t, s, x)
    ensures GotoDefined(t, s, x) ==> exists p :: 0 <= p < t.Count() && t.lookahead[p] == x && p - x == t.reduceOfst[s]
  {
    if GotoDefined(t, s, x) {
      assert t.lookahead[t.reduceOfst[s] + x] == x;
    }
  }

  function FindReduceAction(t: Tables, s: nat, x: nat): nat
    requires t.WellFormed() && GotoDefined(t, s, x)
  {
    t.action[t.reduceOfst[s] + x]
  }

  // ---------------------------------------------------------------- the sparse matrix

  /** The action matrix before packing: only the cells that hold something. */
  datatype Sparse = Sparse(shift: map<(nat, nat), nat>, goto_: map<(nat, nat), nat>)

  ghost predicate ShiftCellStamped(t: Tables, m: Sparse, s: nat, x: nat)
    requires t.WellFormed() && (s, x) in m.shift
  {
    && s < t.NState() && x < t.nTerminal
    && 0 <= t.shiftOfst[s] + x < t.Count()
    && t.lookahead[t.shiftOfst[s] + x] == x
    && t.action[t.shiftOfst[s] + x] == m.shift[(s, x)]
  }

  ghost predicate GotoCellStamped(t: Tables, m: Sparse, s: nat, x: nat)
    requires t.WellFormed() && (s, x) in m.goto_
  {
    && s < |t.reduceOfst| && t.reduceOfst[s] != t.reduceUseDflt && t.nTerminal <= x < t.noCode
    && 0 <= t.reduceOfst[s] + x < t.Count()
    && t.lookahead[t.reduceOfst[s] + x] == x
    && t.action[t.reduceOfst[s] + x] == m.goto_[(s, x)]
  }

  /** Every cell is stamped at offset + symbol, and every owned slot was stamped by some cell. */
  ghost predicate Stamped(t: Tables, m: Sparse)
    requires t.WellFormed()
  {
    && (forall s: nat, x: nat {:trigger ShiftCellStamped(t, m, s, x)} ::
          (s, x) in m.shift ==> ShiftCellStamped(t, m, s, x))
    && (forall s: nat, x: nat {:trigger GotoCellStamped(t, m, s, x)} ::
          (s, x) in m.goto_ ==> GotoCellStamped(t, m, s, x))
    && (forall p {:trigger StampedSlot(t, m, p)} ::
          0 <= p < t.Count() && t.lookahead[p] < t.noCode ==> StampedSlot(t, m, p))
  }

  ghost predicate StampedSlot(t: Tables, m: Sparse, p: nat)
    requires t.WellFormed() && p < t.Count()
  {
    var x := t.lookahead[p];
    || (exists s: nat :: s < t.NState() && t.shiftOfst[s] + x == p && (s, x) in m.shift)
    || (exists s: nat :: s < |t.reduceOfst| && t.reduceOfst[s] + x == p && (s, x) in m.goto_)
  }

  /** Terminal rows that start at the same offset have the same cells. */
  ghost predicate ShiftRowsAgree(t: Tables, m: Sparse)
    requires t.WellFormed()
  {
    forall s: nat, u: nat, x: nat {:trigger (s, x) in m.shift, (u, x) in m.shift} ::
      s < t.NState() && u < t.NState() && t.shiftOfst[s] == t.shiftOfst[u] && (s, x) in m.shift
      ==> (u, x) in m.shift
  }

  /** Nonterminal rows that start at the same offset have the same cells. */
  ghost predicate GotoRowsAgree(t: Tables, m: Sparse)
    requires t.WellFormed()
  {
    forall s: nat, u: nat, x: nat {:trigger (s, x) in m.goto_, (u, x) in m.goto_} ::
      s < |t.reduceOfst| && u < |t.reduceOfst| && t.reduceOfst[s] == t.reduceOfst[u] && (s, x) in m.goto_
      ==> (u, x) in m.goto_
  }

  /** A probe finds a terminal cell exactly where the matrix has one. */
  ghost predicate ShiftExact(t: Tables, m: Sparse)
    requires t.WellFormed()
  {
    forall s: nat, x: nat :: s < t.NState() && x < t.nTerminal ==> (Hit(t, s, x) <==> (s, x) in m.shift)
  }

  ghost predicate GotoExact(t: Tables, m: Sparse)
    requires t.WellFormed()
  {
    forall s: nat, x: nat :: s < |t.reduceOfst| && t.nTerminal <= x < t.noCode ==>
      (GotoDefined(t, s, x) <==> (s, x) in m.goto_)
  }

  lemma ShiftAgreeingIsExact(t: Tables, m: Sparse)
    requires t.WellFormed() && Stamped(t, m) && ShiftRowsAgree(t, m)
    ensures ShiftExact(t, m)
  {
    forall s: nat, x: nat | s < t.NState() && x < t.nTerminal
      ensures Hit(t, s, x) <==> (s, x) in m.shift
    {
      assert (s, x) in m.shift ==> ShiftCellStamped(t, m, s, x);
      if Hit(t, s, x) {
        OwnerOfShiftSlot(t, m, s, x);
      }
    }
  }

  lemma ShiftCellShared(t: Tables, m: Sparse, s: nat, u: nat, x: nat)
    requires t.WellFormed() && Stamped(t, m) && ShiftExact(t, m)
    requires s < t.NState() && u < t.NState() && t.shiftOfst[s] == t.shiftOfst[u] && (s, x) in m.shift
    ensures (u, x) in m.shift
  {
    assert ShiftCellStamped(t, m, s, x);
    assert Hit(t, s, x) && Hit(t, u, x);
  }

  lemma ShiftExactIsAgreeing(t: Tables, m: Sparse)
    requires t.WellFormed() && Stamped(t, m) && ShiftExact(t, m)
    ensures ShiftRowsAgree(t, m)
  {
    hide Stamped, ShiftExact;
    forall s: nat, u: nat, x: nat
      | s < t.NState() && u < t.NState() && t.shiftOfst[s] == t.shiftOfst[u] && (s, x) in m.shift
      ensures (u, x) in m.shift
    {
      ShiftCellShared(t, m, s, u, x);
    }
  }

  /**
    Terminal and nonterminal rows may overlap in any way: probing for terminals is exact if and only
    if terminal rows that share an offset agree.
   */
  lemma ShiftExactIff(t: Tables, m: Sparse)
    requires t.WellFormed() && Stamped(t, m)
    ensures ShiftExact(t, m) <==> ShiftRowsAgree(t, m)
  {
    if ShiftRowsAgree(t, m) {
      ShiftAgreeingIsExact(t, m);
    } else if ShiftExact(t, m) {
      ShiftExactIsAgreeing(t, m);
    }
  }

  lemma OwnerOfShiftSlot(t: Tables, m: Sparse, s: nat, x: nat)
    requires t.WellFormed() && Stamped(t, m) && ShiftRowsAgree(t, m)
    requires s < t.NState() && x < t.nTerminal && Hit(t, s, x)
    ensures (s, x) in m.shift
  {
    var p := t.shiftOfst[s] + x;
    assert StampedSlot(t, m, p);
    assert forall u: nat :: (u, x) in m.goto_ ==> GotoCellStamped(t, m, u, x);
    var u: nat :| u < t.NState() && t.shiftOfst[u] + x == p && (u, x) in m.shift;
  }

  lemma GotoAgreeingIsExact(t: Tables, m: Sparse)
    requires t.WellFormed() && Stamped(t, m) && GotoRowsAgree(t, m)
    ensures GotoExact(t, m)
  {
    forall s: nat, x: nat | s < |t.reduceOfst| && t.nTerminal <= x < t.noCode
      ensures GotoDefined(t, s, x) <==> (s, x) in m.goto_
    {
      assert (s, x) in m.goto_ ==> GotoCellStamped(t, m, s, x);
      if GotoDefined(t, s, x) {
        OwnerOfGotoSlot(t, m, s, x);
      }
    }
  }

  lemma GotoCellShared(t: Tables, m: Sparse, s: nat, u: nat, x: nat)
    requires t.WellFormed() && Stamped(t, m) && GotoExact(t, m)
    requires s < |t.reduceOfst| && u < |t.reduceOfst| && t.reduceOfst[s] == t.reduceOfst[u] && (s, x) in m.goto_
    ensures (u, x) in m.goto_
  {
    assert GotoCellStamped(t, m, s, x);
    assert GotoDefined(t, s, x) && GotoDefined(t, u, x);
  }

  lemma GotoExactIsAgreeing(t: Tables, m: Sparse)
    requires t.WellFormed() && Stamped(t, m) && GotoExact(t, m)
    ensures GotoRowsAgree(t, m)
  {
    hide Stamped, GotoExact;
    forall s: nat, u: nat, x: nat
      | s < |t.reduceOfst| && u < |t.reduceOfst| && t.reduceOfst[s] == t.reduceOfst[u] && (s, x) in m.goto_
      ensures (u, x) in m.goto_
    {
      GotoCellShared(t, m, s, u, x);
    }
  }

  lemma GotoExactIff(t: Tables, m: Sparse)
    requires t.WellFormed() && Stamped(t, m)
    ensures GotoExact(t, m) <==> GotoRowsAgree(t, m)
  {
    if GotoRowsAgree(t, m) {
      GotoAgreeingIsExact(t, m);
    } else if GotoExact(t, m) {
      GotoExactIsAgreeing(t, m);
    }
  }

  lemma OwnerOfGotoSlot(t: Tables, m: Sparse, s: nat, x: nat)
    requires t.WellFormed() && Stamped(t, m) && GotoRowsAgree(t, m)
    requires t.nTerminal <= x < t.noCode && GotoDefined(t, s, x)
    ensures (s, x) in m.goto_
  {
    var p := t.reduceOfst[s] + x;
    assert StampedSlot(t, m, p);
    assert forall u: nat :: (u, x) in m.shift ==> ShiftCellStamped(t, m, u, x);
    var u: nat :| u < |t.reduceOfst| && t.reduceOfst[u] + x == p && (u, x) in m.goto_;
  }

  /** What the matrix says for a token: its own cell, else its fallback's, else the wildcard's, else the default. */
  ghost function SparseAction(t: Tables, m: Sparse, s: nat, a: nat): nat
    requires t.WellFormed() && s < t.NState()
  {
    if (s, a) in m.shift then m.shift[(s, a)]
    else if a < |t.fallback| && t.fallback[a] != 0 && (s, t.fallback[a]) in m.shift then m.shift[(s, t.fallback[a])]
    else if a > 0 && (s, t.wildcard) in m.shift then m.shift[(s, t.wildcard)]
    else t.deflt[s]
  }

  lemma HitReadsCell(t: Tables, m: Sparse, s: nat, x: nat)
    requires t.WellFormed() && Stamped(t, m) && ShiftExact(t, m) && s < t.NState() && x < t.nTerminal
    ensures Hit(t, s, x) <==> (s, x) in m.shift
    ensures Hit(t, s, x) ==> t.action[t.shiftOfst[s] + x] == m.shift[(s, x)]
  {
    assert (s, x) in m.shift ==> ShiftCellStamped(t, m, s, x);
  }

  /** The shift lookup over the comb returns what the matrix says. */
  lemma PackedEqualsSparse(t: Tables, m: Sparse, s: nat, a: nat)
    requires t.WellFormed() && Stamped(t, m) && ShiftRowsAgree(t, m)
    requires s < t.NState() && a < t.nTerminal
    ensures FindAction(t, s, a) == SparseAction(t, m, s, a)
  {
    hide Stamped, ShiftExact, ShiftRowsAgree;
    ShiftExactIff(t, m);
    HitReadsCell(t, m, s, a);
    HitReadsCell(t, m, s, t.wildcard);
    var f := FallbackOf(t, a);
    if !Hit(t, s, a) && f != 0 {
      assert FallbackOf(t, f) == 0;
      HitReadsCell(t, m, s, f);
    }
  }

  /** So does the goto lookup. */
  lemma PackedGotoEqualsSparse(t: Tables, m: Sparse, s: nat, x: nat)
    requires t.WellFormed() && Stamped(t, m) && (s, x) in m.goto_
    ensures GotoDefined(t, s, x) && FindReduceAction(t, s, x) == m.goto_[(s, x)]
  {
    assert GotoCellStamped(t, m, s, x);
  }
}
