/**
  Soundness and completeness together: with an unbounded stack the driver accepts exactly the
  language of the grammar.
 */
module LemonLanguage {
  import opened LemonTables
  import opened LemonGrammar
  import opened LemonStack
  import opened LemonDriver
  import opened LemonSound
  import opened LemonConservation
  import opened LemonComplete

  /** Every input that derives has a tree that the annotation admits: telling trees apart has lost no input. */
  ghost predicate Covers(m: Automaton, d: Items) {
    forall tree: Tree :: Derives(m, tree, {m.c.start}) && tree.Node? ==> HasInputTree(d, Yield(tree))
  }

  ghost predicate HasInputTree(d: Items, toks: seq<Token>) {
    exists tree: Tree :: IsInput(d, tree) && Yield(tree) == toks
  }

  /** The input was taken without a report and ended in an accept. */
  predicate WhollyAccepted(o: Out) {
    o.ev != [] && o.ev[|o.ev| - 1].Accept? && OnlyMoves(o.ev[..|o.ev| - 1])
  }

  // ---------------------------------------------------------------- annotations that admit everything

  /** The slot admits every token and every rule that the grammar does. */
  predicate FullSlot(m: Automaton, d: Items, slot: Slot, xs: set<nat>) {
    && (forall a, x :: 0 <= a < m.t.nTerminal && 0 <= x < m.t.nTerminal && x in xs && Reads(m.t, a, x) ==>
          a in slot.tokens)
    && (forall r :: 0 <= r < |m.g| && m.g[r].lhs in xs ==> r in slot.kinds)
  }

  predicate FullKind(m: Automaton, d: Items, r: nat)
    requires r < |m.g|
  {
    && r < |d.kinds| && d.kinds[r].rule == r && |d.kinds[r].slots| == |m.g[r].rhs|
    && forall i :: 0 <= i < |m.g[r].rhs| ==> FullSlot(m, d, d.kinds[r].slots[i], m.g[r].rhs[i])
  }

  /** One kind for each rule, which admits everything. */
  predicate AdmitsEverything(m: Automaton, d: Items) {
    && (forall r :: 0 <= r < |m.g| ==> FullKind(m, d, r))
    && (forall r :: 0 <= r < |m.g| && m.g[r].lhs == m.c.start ==> r in d.starts)
  }

  lemma {:induction false} EveryTreeIsAdmitted(m: Automaton, d: Items, tree: Tree, slot: Slot, xs: set<nat>)
    requires AdmitsEverything(m, d) && FullSlot(m, d, slot, xs) && Derives(m, tree, xs)
    ensures Admits(d, tree, slot)
    decreases tree, 1
  {
    hide AdmitsEverything, FullKind;
    if tree.Node? {
      NodeIsOfItsRule(m, d, tree, xs);
      assert tree.rule in slot.kinds;
    }
  }

  lemma {:induction false} NodeIsOfItsRule(m: Automaton, d: Items, tree: Tree, xs: set<nat>)
    requires AdmitsEverything(m, d) && tree.Node? && Derives(m, tree, xs)
    ensures IsKind(d, tree, tree.rule)
    decreases tree, 0
  {
    hide FullSlot;
    assert FullKind(m, d, tree.rule);
    forall i | 0 <= i < |tree.kids|
      ensures Admits(d, tree.kids[i], d.kinds[tree.rule].slots[i])
    {
      EveryTreeIsAdmitted(m, d, tree.kids[i], d.kinds[tree.rule].slots[i], m.g[tree.rule].rhs[i]);
    }
  }

  lemma EverythingCovers(m: Automaton, d: Items)
    requires AdmitsEverything(m, d)
    ensures Covers(m, d)
  {
    forall tree: Tree | Derives(m, tree, {m.c.start}) && tree.Node?
      ensures HasInputTree(d, Yield(tree))
    {
      NodeIsOfItsRule(m, d, tree, {m.c.start});
      assert IsInput(d, tree);
    }
  }

  /**
    An annotation that admits everything exists only for grammars that are unambiguous by themselves; operators that
    are told apart by precedence need kinds of their own.
   */
  lemma EverythingIsUnambiguous(m: Automaton, d: Items, one: Tree, two: Tree)
    requires Valid(m) && Complete(m, d) && AdmitsEverything(m, d)
    requires one.Node? && two.Node? && Derives(m, one, {m.c.start}) && Derives(m, two, {m.c.start})
    requires Yield(one) == Yield(two)
    ensures one == two
  {
    hide Valid, Complete, AdmitsEverything, Derives, IsKind;
    NodeIsOfItsRule(m, d, one, {m.c.start});
    NodeIsOfItsRule(m, d, two, {m.c.start});
    StartIsStart(m, d, one);
    StartIsStart(m, d, two);
    Unambiguous(m, d, one, two);
  }

  lemma StartIsStart(m: Automaton, d: Items, tree: Tree)
    requires AdmitsEverything(m, d) && tree.Node? && Derives(m, tree, {m.c.start})
    ensures tree.rule in d.starts
  {
  }

  // ---------------------------------------------------------------- what is taken has been shifted

  lemma {:induction false} TrackOfQuiet(w: seq<Token>, ev: seq<Event>)
    requires OnlyMoves(ev) && forall i :: 0 <= i < |ev| ==> !Settles(ev[i])
    ensures Track(w, ev) == w
    decreases |ev|
  {
    if ev != [] {
      TrackOfQuiet(w, ev[1..]);
    }
  }

  /** A call that only moves has shifted its token. */
  lemma TrackOfCall(w: seq<Token>, tok: Token, ev: seq<Event>)
    requires CallShape(tok, ev) && OnlyMoves(ev)
    ensures Track(w, ev) == if ev[|ev| - 1].Shift? then w + [tok] else w
  {
    var n := |ev| - 1;
    assert ev == ev[..n] + [ev[n]];
    TrackOfQuiet(w, ev[..n]);
    TrackConcat(w, ev[..n], [ev[n]]);
    assert [ev[n]][1..] == [];
  }

  /** A stream on which the driver only moves has been shifted token by token. */
  lemma {:induction false} TrackOfStream(m: Automaton, stk: Stack, w: seq<Token>, toks: seq<Token>)
    requires Valid(m) && Live(m, stk) && stk != [] && AreTokens(m, toks)
    requires OnlyMoves(FeedAll(m, Unbounded, stk, toks).ev)
    ensures Track(w, FeedAll(m, Unbounded, stk, toks).ev) == w + toks
    decreases |toks|
  {
    hide Feed, Inv;
    if toks == [] {
      assert w + toks == w;
    } else {
      var one := Feed(m, Unbounded, stk, toks[0]);
      var rest := FeedAll(m, one.room, one.stk, toks[1..]);
      OnlyMovesConcat(one.ev, rest.ev);
      FeedShape(m, Unbounded, stk, toks[0]);
      TrackOfCall(w, toks[0], one.ev);
      FeedKeepsRoom(m, Unbounded, stk, toks[0]);
      UnderflowIff(m, Unbounded, stk, toks[0]);
      TrackOfStream(m, one.stk, w + [toks[0]], toks[1..]);
      TrackConcat(w, one.ev, rest.ev);
      assert (w + [toks[0]]) + toks[1..] == w + toks;
    }
  }

  /** The end token is fed to the stack that the input left. */
  lemma LastCall(m: Automaton, bottom: Entry, toks: seq<Token>, end: Token)
    requires Valid(m) && IsBottom(bottom) && AreTokens(m, toks + [end]) && AreTokens(m, toks) && IsToken(m, end)
    ensures var first := FreshRun(m, Unbounded, bottom, toks);
      && first.stk != [] && Inv(m, first.stk)
      && FreshRun(m, Unbounded, bottom, toks + [end]).ev == first.ev + Feed(m, first.room, first.stk, end).ev
  {
    hide Feed, IsToken;
    InitialInv(m, bottom);
    FeedAllConcat(m, Unbounded, [bottom], toks, [end]);
    NeverUnderflows(m, Unbounded, [bottom], toks);
    assert [end][1..] == [];
  }

  lemma MovesBeforeLast(a: seq<Event>, b: seq<Event>, tok: Token)
    requires CallShape(tok, b) && a + b != [] && OnlyMoves((a + b)[..|a + b| - 1])
    ensures OnlyMoves(a) && OnlyMoves(b[..|b| - 1]) && (a + b)[..|a + b| - 1] == a + b[..|b| - 1]
    ensures forall i :: 0 <= i < |b| - 1 ==> !Settles(b[i])
  {
    assert (a + b)[..|a + b| - 1] == a + b[..|b| - 1];
    OnlyMovesConcat(a, b[..|b| - 1]);
  }

  /** Up to its accept, a wholly accepted input has been shifted token by token. */
  lemma ShiftedBeforeAccept(m: Automaton, bottom: Entry, toks: seq<Token>, end: Token)
    requires Valid(m) && IsBottom(bottom) && AreTokens(m, toks + [end]) && AreTokens(m, toks) && IsToken(m, end)
    requires WhollyAccepted(FreshRun(m, Unbounded, bottom, toks + [end]))
    ensures var ev := FreshRun(m, Unbounded, bottom, toks + [end]).ev; Track([], ev[..|ev| - 1]) == toks
  {
    hide Feed, FeedAll, Inv, Track, CallShape, Settles, OnlyMoves;
    LastCall(m, bottom, toks, end);
    var first := FreshRun(m, Unbounded, bottom, toks);
    var second := Feed(m, first.room, first.stk, end);
    FeedShape(m, first.room, first.stk, end);
    MovesBeforeLast(first.ev, second.ev, end);
    InitialInv(m, bottom);
    TrackOfStream(m, [bottom], [], toks);
    assert [] + toks == toks;
    TrackConcat([], first.ev, second.ev[..|second.ev| - 1]);
    TrackOfQuiet(toks, second.ev[..|second.ev| - 1]);
  }

  /** What a wholly accepted input's accept carries is a tree for exactly that input. */
  lemma AcceptedTree(m: Automaton, bottom: Entry, toks: seq<Token>, end: Token) returns (tree: Tree)
    requires Valid(m) && IsBottom(bottom) && AreTokens(m, toks + [end]) && AreTokens(m, toks) && IsToken(m, end)
    requires WhollyAccepted(FreshRun(m, Unbounded, bottom, toks + [end]))
    ensures Derives(m, tree, {m.c.start}) && Yield(tree) == toks
  {
    hide Feed, FeedAll, Inv, Track;
    InitialInv(m, bottom);
    var ev := FreshRun(m, Unbounded, bottom, toks + [end]).ev;
    tree := ev[|ev| - 1].value;
    NothingHeld(bottom);
    RunIsSound(m, Unbounded, [bottom], toks + [end]);
    ShiftedBeforeAccept(m, bottom, toks, end);
  }

  lemma NothingHeld(bottom: Entry)
    ensures Held([bottom]) == []
  {
    assert [bottom][1..] == [];
  }

  /** The tree that an accepted input gets is the only one that the annotation admits, if there is one. */
  lemma AcceptsWithItsTree(m: Automaton, d: Items, bottom: Entry, tree: Tree, end: Token)
    requires Valid(m) && Complete(m, d) && IsBottom(bottom) && IsInput(d, tree) && end.major == 0
    ensures AreTokens(m, Yield(tree) + [end])
    ensures var o := FreshRun(m, Unbounded, bottom, Yield(tree) + [end]);
            WhollyAccepted(o) && o.ev[|o.ev| - 1].value == tree
  {
    hide Complete, Valid, IsInput, FreshRun;
    EveryTreeIsParsed(m, d, Unbounded, bottom, tree, end);
  }

  /**
    The driver accepts an input wholly if and only if the input derives from the start symbol, also when precedence
    has decided between several derivations.
   */
  lemma AcceptsExactlyTheLanguage(m: Automaton, d: Items, bottom: Entry, toks: seq<Token>, end: Token)
    requires Valid(m) && Complete(m, d) && Covers(m, d)
    requires IsBottom(bottom) && AreTokens(m, toks) && end.major == 0
    ensures AreTokens(m, toks + [end])
    ensures WhollyAccepted(FreshRun(m, Unbounded, bottom, toks + [end])) <==>
              exists tree: Tree :: tree.Node? && Derives(m, tree, {m.c.start}) && Yield(tree) == toks
  {
    hide FreshRun, FeedAll, Inv, Complete, IsInput;
    assert AreTokens(m, toks + [end]);
    if WhollyAccepted(FreshRun(m, Unbounded, bottom, toks + [end])) {
      var tree := AcceptedTree(m, bottom, toks, end);
      StartIsNode(m, tree);
    }
    if tree: Tree :| tree.Node? && Derives(m, tree, {m.c.start}) && Yield(tree) == toks {
      var admitted: Tree :| IsInput(d, admitted) && Yield(admitted) == toks;
      AcceptsWithItsTree(m, d, bottom, admitted, end);
    }
  }

  lemma StartIsNode(m: Automaton, tree: Tree)
    requires Shaped(m) && Derives(m, tree, {m.c.start})
    ensures tree.Node?
  {
  }

  /** And the tree it is accepted with is the one that the annotation admits: precedence is respected. */
  lemma AcceptsOnlyAdmittedTrees(m: Automaton, d: Items, bottom: Entry, toks: seq<Token>, end: Token)
    requires Valid(m) && Complete(m, d) && Covers(m, d)
    requires IsBottom(bottom) && AreTokens(m, toks) && AreTokens(m, toks + [end]) && end.major == 0
    requires WhollyAccepted(FreshRun(m, Unbounded, bottom, toks + [end]))
    ensures var ev := FreshRun(m, Unbounded, bottom, toks + [end]).ev; IsInput(d, ev[|ev| - 1].value)
  {
    hide FreshRun, Inv, Complete, IsInput;
    var tree := AcceptedTree(m, bottom, toks, end);
    StartIsNode(m, tree);
    var admitted: Tree :| IsInput(d, admitted) && Yield(admitted) == toks;
    AcceptsWithItsTree(m, d, bottom, admitted, end);
  }
}
