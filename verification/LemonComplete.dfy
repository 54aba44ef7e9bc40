/**
  Completeness: tables annotated with closed LR(1) item sets reproduce every parse tree of a refined grammar.

  A grammar is often ambiguous by itself and made unambiguous by the precedence of its operators, and a token read by
  fallback or as the wildcard may be meant in some places only.  The annotation therefore names kinds: a kind is a
  rule with what may stand at each position, which tokens as leaves and which kinds as inner nodes.  One kind for
  each rule that admits everything gives back the grammar itself; kinds that tell operands apart give exactly the
  trees that precedence and associativity leave.  Lookaheads are tokens as the tokenizer delivers them, so the
  annotation can only be closed if no fallback or wildcard entry overrules a reduction that one of the trees needs.
 */
module LemonComplete {
  import opened LemonTables
  import opened LemonGrammar
  import opened LemonStack
  import opened LemonDriver

  /** What may stand at a position: tokens, by their codes, and inner nodes, by their kinds. */
  datatype Slot = Slot(tokens: set<nat>, kinds: set<nat>)

  datatype Kind = Kind(rule: nat, slots: seq<Slot>)

  datatype Item = Item(kind: nat, dot: nat, la: nat)

  /** The kinds, those of whole inputs, what each derives first, and the item set of each state. */
  datatype Items = Items(
    kinds: seq<Kind>, starts: set<nat>, nullable: set<nat>, first: seq<set<nat>>, sets: seq<set<Item>>)

  // ---------------------------------------------------------------- trees of a kind

  /** The slot admits nothing that the grammar does not. */
  predicate SlotOk(m: Automaton, d: Items, slot: Slot, xs: set<nat>) {
    && (forall a <- slot.tokens :: a < m.t.nTerminal && exists x <- xs :: x < m.t.nTerminal && Reads(m.t, a, x))
    && (forall k <- slot.kinds :: k < |d.kinds| && d.kinds[k].rule < |m.g| && m.g[d.kinds[k].rule].lhs in xs)
  }

  predicate KindOk(m: Automaton, d: Items, k: Kind) {
    && k.rule < |m.g| && |k.slots| == |m.g[k.rule].rhs|
    && forall i :: 0 <= i < |k.slots| ==> SlotOk(m, d, k.slots[i], m.g[k.rule].rhs[i])
  }

  /** The tree may stand in the slot. */
  predicate Admits(d: Items, tree: Tree, slot: Slot)
    decreases tree, 1
  {
    match tree
    case Leaf(tok) => tok.major in slot.tokens
    case Node(_, _) => exists k <- slot.kinds :: IsKind(d, tree, k)
  }

  /** The node is of the kind: it has its rule, and its kids stand in its slots. */
  predicate IsKind(d: Items, tree: Tree, k: nat)
    decreases tree, 0
  {
    && tree.Node? && k < |d.kinds| && tree.rule == d.kinds[k].rule && |tree.kids| == |d.kinds[k].slots|
    && forall i :: 0 <= i < |tree.kids| ==> Admits(d, tree.kids[i], d.kinds[k].slots[i])
  }

  predicate AdmitAll(d: Items, trees: seq<Tree>, slots: seq<Slot>) {
    |trees| == |slots| && forall i :: 0 <= i < |trees| ==> Admits(d, trees[i], slots[i])
  }

  /** A tree for a whole input. */
  predicate IsInput(d: Items, tree: Tree) {
    exists k <- d.starts :: IsKind(d, tree, k)
  }

  /** What is admitted derives by the grammar. */
  lemma {:induction false} AdmittedDerives(m: Automaton, d: Items, tree: Tree, slot: Slot, xs: set<nat>)
    requires Shaped(m) && Complete(m, d) && SlotOk(m, d, slot, xs) && Admits(d, tree, slot)
    ensures Derives(m, tree, xs)
    decreases tree
  {
    hide Complete, Shaped;
    if tree.Node? {
      var k :| k in slot.kinds && IsKind(d, tree, k);
      KindOfComplete(m, d, k);
      forall i | 0 <= i < |tree.kids|
        ensures Derives(m, tree.kids[i], m.g[tree.rule].rhs[i])
      {
        AdmittedDerives(m, d, tree.kids[i], d.kinds[k].slots[i], m.g[tree.rule].rhs[i]);
      }
    }
  }

  // ---------------------------------------------------------------- FIRST

  /** The tokens that can come first in what stands in a slot. */
  predicate InFirst(d: Items, slot: Slot, a: nat) {
    a in slot.tokens || exists k <- slot.kinds :: k < |d.first| && a in d.first[k]
  }

  predicate CanBeEmpty(d: Items, slot: Slot) {
    exists k <- slot.kinds :: k in d.nullable
  }

  /** The tokens that can come first in what stands in these slots. */
  predicate InFirstOf(d: Items, slots: seq<Slot>, a: nat) {
    slots != [] && (InFirst(d, slots[0], a) || (CanBeEmpty(d, slots[0]) && InFirstOf(d, slots[1..], a)))
  }

  predicate AllEmpty(d: Items, slots: seq<Slot>) {
    forall i :: 0 <= i < |slots| ==> CanBeEmpty(d, slots[i])
  }

  /** The tokens that can come first when the slots are followed by la. */
  predicate InFirstWith(d: Items, slots: seq<Slot>, la: nat, a: nat) {
    InFirstOf(d, slots, a) || (a == la && AllEmpty(d, slots))
  }

  predicate FirstClosed(m: Automaton, d: Items) {
    && |d.first| == |d.kinds|
    && forall k :: 0 <= k < |d.kinds| ==> KindFirst(m, d, k)
  }

  predicate KindFirst(m: Automaton, d: Items, k: nat)
    requires |d.first| == |d.kinds| && k < |d.kinds|
  {
    && (AllEmpty(d, d.kinds[k].slots) ==> k in d.nullable)
    && forall a :: 0 <= a < m.t.nTerminal && InFirstOf(d, d.kinds[k].slots, a) ==> a in d.first[k]
  }

  // ---------------------------------------------------------------- item sets

  /** Doing act moves the dot of the item over its next symbol. */
  predicate Advances(m: Automaton, d: Items, it: Item, act: nat)
    requires Shaped(m) && |d.sets| == m.t.NState() && it.kind < |d.kinds|
  {
    if act < m.t.NState() then Item(it.kind, it.dot + 1, it.la) in d.sets[act]
    else act == m.t.minShiftReduce + d.kinds[it.kind].rule && it.dot + 1 == |d.kinds[it.kind].slots|
  }

  /** A token of the slot after the dot is shifted, whatever it is read as. */
  predicate TokenAdvances(m: Automaton, d: Items, s: nat, it: Item, a: nat)
    requires Shaped(m) && |d.sets| == m.t.NState() && IsState(m, s) && it.kind < |d.kinds|
  {
    FindAction(m.t, s, a) <= m.t.MaxShiftReduce() && Advances(m, d, it, FindAction(m.t, s, a))
  }

  /** A node of kind k is expected after the dot: its goto is there, and its own items are. */
  predicate KindAdvances(m: Automaton, d: Items, s: nat, it: Item, k: nat)
    requires Shaped(m) && |d.sets| == m.t.NState() && IsState(m, s) && it.kind < |d.kinds|
  {
    && k < |d.kinds| && d.kinds[k].rule < |m.g| && it.dot < |d.kinds[it.kind].slots|
    && var x := m.g[d.kinds[k].rule].lhs;
    && GotoDefined(m.t, s, x) && FindReduceAction(m.t, s, x) != m.t.AcceptAction()
    && Advances(m, d, it, FindReduceAction(m.t, s, x))
    && forall b :: 0 <= b < m.t.nTerminal && InFirstWith(d, d.kinds[it.kind].slots[it.dot + 1..], it.la, b) ==>
         Item(k, 0, b) in d.sets[s]
  }

  predicate ItemOk(m: Automaton, d: Items, s: nat, it: Item)
    requires Shaped(m) && |d.sets| == m.t.NState() && IsState(m, s)
  {
    && it.kind < |d.kinds| && it.dot <= |d.kinds[it.kind].slots| && it.la < m.t.nTerminal
    && if it.dot == |d.kinds[it.kind].slots| then
         FindAction(m.t, s, it.la) == m.t.MinReduce() + d.kinds[it.kind].rule
       else
         var slot := d.kinds[it.kind].slots[it.dot];
         && (forall a <- slot.tokens :: TokenAdvances(m, d, s, it, a))
         && (forall k <- slot.kinds :: KindAdvances(m, d, s, it, k))
  }

  predicate ItemsOk(m: Automaton, d: Items, s: nat)
    requires Shaped(m) && |d.sets| == m.t.NState() && IsState(m, s)
  {
    forall it <- d.sets[s] :: ItemOk(m, d, s, it)
  }

  /** A kind of whole inputs starts in state 0 and is followed by the end of input. */
  predicate StartOk(m: Automaton, d: Items, k: nat)
    requires |d.sets| > 0
  {
    k < |d.kinds| && d.kinds[k].rule < |m.g| && m.g[d.kinds[k].rule].lhs == m.c.start && Item(k, 0, 0) in d.sets[0]
  }

  /** The decidable completeness of an annotated automaton. */
  predicate Complete(m: Automaton, d: Items)
    requires Shaped(m)
  {
    && |d.sets| == m.t.NState()
    && (forall k :: 0 <= k < |d.kinds| ==> KindOk(m, d, d.kinds[k]))
    && FirstClosed(m, d)
    && (forall k <- d.starts :: StartOk(m, d, k))
    && GotoDefined(m.t, 0, m.c.start) && FindReduceAction(m.t, 0, m.c.start) == m.t.AcceptAction()
    && forall s :: 0 <= s < m.t.NState() ==> ItemsOk(m, d, s)
  }

  lemma ItemOfState(m: Automaton, d: Items, s: nat, it: Item)
    requires Shaped(m) && Complete(m, d) && IsState(m, s) && it in d.sets[s]
    ensures |d.sets| == m.t.NState() && ItemOk(m, d, s, it)
  {
    assert ItemsOk(m, d, s);
  }

  lemma KindOfComplete(m: Automaton, d: Items, k: nat)
    requires Shaped(m) && Complete(m, d) && k < |d.kinds|
    ensures |d.sets| == m.t.NState() && KindOk(m, d, d.kinds[k])
  {
  }

  // ---------------------------------------------------------------- FIRST covers yields

  /** What a tree in a slot begins with. */
  predicate StartsIn(d: Items, slot: Slot, y: seq<Token>) {
    if y == [] then CanBeEmpty(d, slot) else InFirst(d, slot, y[0].major)
  }

  lemma {:induction false} FirstOfTree(m: Automaton, d: Items, tree: Tree, slot: Slot, xs: set<nat>)
    requires Shaped(m) && Complete(m, d) && SlotOk(m, d, slot, xs) && Admits(d, tree, slot)
    ensures AreTokens(m, Yield(tree)) && StartsIn(d, slot, Yield(tree))
    decreases tree, 0
  {
    hide Complete, Shaped;
    match tree
    case Leaf(tok) =>
    case Node(r, kids) =>
      var k :| k in slot.kinds && IsKind(d, tree, k);
      KindOfComplete(m, d, k);
      FirstOfTrees(m, d, kids, d.kinds[k].slots, m.g[r].rhs);
      FirstOfKind(m, d, k, YieldAll(kids));
  }

  predicate SlotsOk(m: Automaton, d: Items, slots: seq<Slot>, xss: seq<set<nat>>) {
    |slots| == |xss| && forall i :: 0 <= i < |slots| ==> SlotOk(m, d, slots[i], xss[i])
  }

  /** What the trees in these slots begin with. */
  predicate AllStartIn(d: Items, slots: seq<Slot>, y: seq<Token>) {
    if y == [] then AllEmpty(d, slots) else InFirstOf(d, slots, y[0].major)
  }

  lemma FirstOfKind(m: Automaton, d: Items, k: nat, y: seq<Token>)
    requires Shaped(m) && Complete(m, d) && k < |d.kinds| && AreTokens(m, y) && AllStartIn(d, d.kinds[k].slots, y)
    ensures if y == [] then k in d.nullable else k < |d.first| && y[0].major in d.first[k]
  {
    hide InFirstOf, AllEmpty, ItemsOk, KindOk;
    assert KindFirst(m, d, k);
  }

  lemma {:induction false} FirstOfTrees(m: Automaton, d: Items, trees: seq<Tree>, slots: seq<Slot>, xss: seq<set<nat>>)
    requires Shaped(m) && Complete(m, d) && SlotsOk(m, d, slots, xss) && AdmitAll(d, trees, slots)
    ensures AreTokens(m, YieldAll(trees)) && AllStartIn(d, slots, YieldAll(trees))
    decreases trees, 1
  {
    hide Complete, Shaped, Admits, InFirst, SlotOk, CanBeEmpty;
    if trees != [] {
      FirstOfTree(m, d, trees[0], slots[0], xss[0]);
      FirstOfTrees(m, d, trees[1..], slots[1..], xss[1..]);
      if YieldAll(trees) == [] {
        assert forall i :: 1 <= i < |slots| ==> slots[i] == slots[1..][i - 1];
      }
    }
  }

  /** The token after the dot's symbol is among those that the item's closure is for. */
  lemma FirstOfRest(m: Automaton, d: Items, trees: seq<Tree>, slots: seq<Slot>, xss: seq<set<nat>>, rest: seq<Token>)
    requires Shaped(m) && Complete(m, d) && SlotsOk(m, d, slots, xss) && AdmitAll(d, trees, slots)
    requires AreTokens(m, rest) && rest != []
    ensures AreTokens(m, YieldAll(trees) + rest)
    ensures InFirstWith(d, slots, rest[0].major, (YieldAll(trees) + rest)[0].major)
  {
    FirstOfTrees(m, d, trees, slots, xss);
  }

  // ---------------------------------------------------------------- what a tree asks for and leaves behind

  function Max(a: nat, b: nat): nat { if a < b then b else a }

  /** The entries a tree needs above those already there. */
  function Depth(tree: Tree): nat
    decreases tree, 0
  {
    match tree
    case Leaf(_) => 1
    case Node(_, kids) => Max(1, DepthAll(kids))
  }

  function DepthAll(trees: seq<Tree>): nat
    decreases trees, 1
  {
    if trees == [] then 0 else Max(Depth(trees[0]), 1 + DepthAll(trees[1..]))
  }

  predicate HasRoom(room: Room, n: nat) {
    room.Unbounded? || n <= room.cap
  }

  /** The rules of a tree, children before parents and from left to right. */
  function PostOrder(tree: Tree): seq<nat>
    decreases tree, 0
  {
    match tree
    case Leaf(_) => []
    case Node(r, kids) => PostOrderAll(kids) + [r]
  }

  function PostOrderAll(trees: seq<Tree>): seq<nat>
    decreases trees, 1
  {
    if trees == [] then [] else PostOrder(trees[0]) + PostOrderAll(trees[1..])
  }

  function RulesOf(ev: seq<Event>): seq<nat> {
    if ev == [] then []
    else (if ev[0].Reduce? || ev[0].Accept? then [ev[0].rule] else []) + RulesOf(ev[1..])
  }

  /** Nothing but shifts and reductions. */
  predicate OnlyMoves(ev: seq<Event>) {
    forall i :: 0 <= i < |ev| ==> ev[i].Shift? || ev[i].Reduce?
  }

  lemma RulesOfNone(ev: seq<Event>)
    requires |ev| == 0
    ensures RulesOf(ev) == []
  {
  }

  lemma RulesOfSome(ev: seq<Event>)
    requires |ev| > 0
    ensures RulesOf(ev) == (if ev[0].Reduce? || ev[0].Accept? then [ev[0].rule] else []) + RulesOf(ev[1..])
  {
  }

  lemma {:induction false} RulesConcat(a: seq<Event>, b: seq<Event>)
    ensures RulesOf(a + b) == RulesOf(a) + RulesOf(b)
    decreases |a|
  {
    hide RulesOf;
    if |a| == 0 {
      RulesOfNone(a);
      assert a + b == b;
    } else {
      RulesOfSome(a);
      RulesOfSome(a + b);
      assert (a + b)[0] == a[0] && (a + b)[1..] == a[1..] + b;
      RulesConcat(a[1..], b);
    }
  }

  lemma RulesSingle(e: Event)
    ensures RulesOf([e]) == if e.Reduce? || e.Accept? then [e.rule] else []
  {
    assert [e][1..] == [];
  }

  // ---------------------------------------------------------------- the simulation

  /** The top of the stack has the item, or has its last symbol with the reduction pending. */
  predicate AtItem(m: Automaton, d: Items, stk: Stack, it: Item)
    requires Shaped(m) && |d.sets| == m.t.NState() && stk != [] && it.kind < |d.kinds|
  {
    var k := Top(stk).stateno;
    if k < m.t.NState() then it in d.sets[k]
    else k == m.t.MinReduce() + d.kinds[it.kind].rule && it.dot == |d.kinds[it.kind].slots|
  }

  lemma PushReachesItem(m: Automaton, d: Items, stk: Stack, it: Item, act: nat, e: Entry)
    requires Shaped(m) && |d.sets| == m.t.NState() && it.kind < |d.kinds|
    requires Advances(m, d, it, act) && e.stateno == StateNo(m.t, act)
    ensures AtItem(m, d, stk + [e], Item(it.kind, it.dot + 1, it.la))
  {
  }

  /** The stack expects what the slot after the dot admits. */
  predicate Expects(m: Automaton, d: Items, stk: Stack, it: Item)
    requires Shaped(m)
  {
    && |d.sets| == m.t.NState() && stk != [] && IsState(m, Top(stk).stateno)
    && it in d.sets[Top(stk).stateno] && it.kind < |d.kinds| && it.dot < |d.kinds[it.kind].slots|
  }

  /** What shifting a token of the slot after the dot does. */
  lemma ShiftToken(m: Automaton, d: Items, room: Room, stk: Stack, it: Item, tok: Token, rest: seq<Token>)
      returns (e: Entry, ev: seq<Event>)
    requires Valid(m) && Complete(m, d) && Inv(m, stk) && Expects(m, d, stk, it)
    requires tok.major in d.kinds[it.kind].slots[it.dot].tokens && IsToken(m, tok)
    requires AreTokens(m, rest) && HasRoom(room, |stk| + 1)
    ensures AreTokens(m, [tok] + rest) && Inv(m, stk + [e]) && e.minor == Leaf(tok)
    ensures AtItem(m, d, stk + [e], Item(it.kind, it.dot + 1, it.la))
    ensures FeedAll(m, room, stk, [tok] + rest) == After(ev, FeedAll(m, room, stk + [e], rest))
    ensures ev == [Shift(e)]
  {
    hide Complete, Inv;
    var s := Top(stk).stateno;
    ItemOfState(m, d, s, it);
    assert TokenAdvances(m, d, s, it, tok.major);
    var act := FindAction(m.t, s, tok.major);
    ShiftInv(m, stk, tok, act);
    e, ev := ShiftEntry(m, act, tok), [Shift(ShiftEntry(m, act, tok))];
    PushReachesItem(m, d, stk, it, act, e);
    assert Feed(m, room, stk, tok) == Out(stk + [e], room, ev);
    assert ([tok] + rest)[1..] == rest;
  }

  /** A handle whose goto from below does not accept is replaced in one iteration that needs no token. */
  lemma HandleStep(m: Automaton, room: Room, stk: Stack, es: Stack, q: nat, tok: Token) returns (e: Entry)
    requires Valid(m) && stk != [] && Inv(m, stk + es) && IsToken(m, tok)
    requires q < |m.g| && |es| == |m.g[q].rhs| && NextAction(m, stk + es, tok.major) == m.t.MinReduce() + q
    requires GotoDefined(m.t, Top(stk).stateno, m.g[q].lhs)
    requires FindReduceAction(m.t, Top(stk).stateno, m.g[q].lhs) != m.t.AcceptAction()
    requires HasRoom(room, |stk| + 1)
    ensures Inv(m, stk + [e]) && e.minor == Node(q, Values(es))
    ensures e.stateno == StateNo(m.t, FindReduceAction(m.t, Top(stk).stateno, m.g[q].lhs))
    ensures OneStep(m, room, stk + es, tok) == Next(room, stk + [e], Reduce(q, es, e))
  {
    hide Inv, OneStep, CanReduce;
    var up := stk + es;
    assert Below(m, up, q) == stk && Handle(m, up, q) == es;
    NextReduceIsPossible(m, up, tok.major);
    ReduceInv(m, up, q, Budget(m, Top(up).stateno, tok.major), tok.major);
    e := Reduct(m, up, q);
    var b := BranchOf(m, room, up, tok);
    ReserveForReduct(room, up, es);
  }

  /** An empty handle leaves the stack with the room that its left-hand side needs. */
  lemma ReserveForReduct(room: Room, up: Stack, es: Stack)
    requires |es| <= |up| && HasRoom(room, |up| - |es| + 1)
    ensures |es| == 0 ==> Reserve(room, |up|) == (true, room)
  {
  }

  /** An iteration that goes on, within a stream. */
  lemma StepInStream(m: Automaton, room: Room, stk: Stack, rest: seq<Token>, stk': Stack, e: Event)
    requires Valid(m) && Inv(m, stk) && AreTokens(m, rest) && rest != []
    requires OneStep(m, room, stk, rest[0]) == Next(room, stk', e)
    ensures Inv(m, stk')
    ensures FeedAll(m, room, stk, rest) == After([e], FeedAll(m, room, stk', rest))
  {
    hide OneStep;
    StepKeepsInv(m, room, stk, rest[0]);
    var one := Feed(m, room, stk', rest[0]);
    AfterConcat([e], one.ev, FeedAll(m, one.room, one.stk, rest[1..]));
  }

  /** What the reduction of a completed node of the expected kind does. */
  lemma ReduceHandle(m: Automaton, d: Items, room: Room, stk: Stack, es: Stack, it: Item, k: nat, rest: seq<Token>)
      returns (e: Entry, ev: seq<Event>)
    requires Valid(m) && Complete(m, d) && Expects(m, d, stk, it)
    requires k in d.kinds[it.kind].slots[it.dot].kinds && k < |d.kinds| && |es| == |d.kinds[k].slots|
    requires Inv(m, stk + es) && AreTokens(m, rest) && rest != []
    requires AtItem(m, d, stk + es, Item(k, |d.kinds[k].slots|, rest[0].major))
    requires HasRoom(room, |stk| + 1)
    ensures Inv(m, stk + [e]) && e.minor == Node(d.kinds[k].rule, Values(es))
    ensures AtItem(m, d, stk + [e], Item(it.kind, it.dot + 1, it.la))
    ensures FeedAll(m, room, stk + es, rest) == After(ev, FeedAll(m, room, stk + [e], rest))
    ensures ev == [Reduce(d.kinds[k].rule, es, e)]
  {
    hide OneStep, Inv, FeedAll, NextAction, Complete, AtItem, Advances;
    var q := d.kinds[k].rule;
    KindOfComplete(m, d, k);
    ReduceIsNext(m, d, stk + es, k, rest[0].major);
    ItemOfState(m, d, Top(stk).stateno, it);
    assert KindAdvances(m, d, Top(stk).stateno, it, k);
    e := HandleStep(m, room, stk, es, q, rest[0]);
    ev := [Reduce(q, es, e)];
    PushReachesItem(m, d, stk, it, FindReduceAction(m.t, Top(stk).stateno, m.g[q].lhs), e);
    StepInStream(m, room, stk + es, rest, stk + [e], ev[0]);
  }

  lemma ReduceIsNext(m: Automaton, d: Items, up: Stack, k: nat, a: nat)
    requires Valid(m) && Complete(m, d) && Inv(m, up) && k < |d.kinds| && a < m.t.nTerminal
    requires AtItem(m, d, up, Item(k, |d.kinds[k].slots|, a))
    ensures NextAction(m, up, a) == m.t.MinReduce() + d.kinds[k].rule
  {
    hide Complete;
    var s := Top(up).stateno;
    if s < m.t.NState() {
      ItemOfState(m, d, s, Item(k, |d.kinds[k].slots|, a));
    }
  }

  // ---------------------------------------------------------------- trees

  /**
    From a stack that expects what a slot admits, the tokens of such a tree are shifted and the tree's reductions made
    in post-order, until one entry with the tree as its value is pushed and the dot has moved over the slot.
   */
  lemma ParseSymbol(m: Automaton, d: Items, room: Room, stk: Stack, it: Item, tree: Tree, rest: seq<Token>)
      returns (e: Entry, ev: seq<Event>)
    requires Valid(m) && Complete(m, d) && Inv(m, stk) && Expects(m, d, stk, it)
    requires Admits(d, tree, d.kinds[it.kind].slots[it.dot])
    requires AreTokens(m, Yield(tree)) && AreTokens(m, rest) && rest != []
    requires InFirstWith(d, d.kinds[it.kind].slots[it.dot + 1..], it.la, rest[0].major)
    requires HasRoom(room, |stk| + Depth(tree))
    ensures AreTokens(m, Yield(tree) + rest)
    ensures Inv(m, stk + [e]) && e.minor == tree
    ensures AtItem(m, d, stk + [e], Item(it.kind, it.dot + 1, it.la))
    ensures FeedAll(m, room, stk, Yield(tree) + rest) == After(ev, FeedAll(m, room, stk + [e], rest))
    ensures OnlyMoves(ev) && RulesOf(ev) == PostOrder(tree)
    decreases tree, 0
  {
    hide Inv, FeedAll, Complete, RulesOf, InFirstWith;
    match tree
    case Leaf(tok) =>
      assert Yield(tree)[0] == tok;
      e, ev := ShiftToken(m, d, room, stk, it, tok, rest);
      RulesSingle(ev[0]);
    case Node(q, kids) =>
      var k :| k in d.kinds[it.kind].slots[it.dot].kinds && IsKind(d, tree, k);
      var a := rest[0].major;
      KindIsClosed(m, d, Top(stk).stateno, it, k, a);
      KindOfComplete(m, d, k);
      var es, ev1 := ParseKids(m, d, room, stk, k, 0, a, kids, rest);
      assert |es| == |Values(es)|;
      var ev2;
      e, ev2 := ReduceHandle(m, d, room, stk, es, it, k, rest);
      ev := ev1 + ev2;
      AfterConcat(ev1, ev2, FeedAll(m, room, stk + [e], rest));
      RulesConcat(ev1, ev2);
      RulesSingle(ev2[0]);
      OnlyMovesConcat(ev1, ev2);
  }

  lemma KindIsClosed(m: Automaton, d: Items, s: nat, it: Item, k: nat, a: nat)
    requires Shaped(m) && Complete(m, d) && IsState(m, s) && |d.sets| == m.t.NState() && it in d.sets[s]
    requires it.kind < |d.kinds| && it.dot < |d.kinds[it.kind].slots| && k in d.kinds[it.kind].slots[it.dot].kinds
    requires a < m.t.nTerminal && InFirstWith(d, d.kinds[it.kind].slots[it.dot + 1..], it.la, a)
    ensures Item(k, 0, a) in d.sets[s]
  {
    hide Complete, InFirstWith;
    ItemOfState(m, d, s, it);
    assert KindAdvances(m, d, s, it, k);
  }

  /** The same for the remaining kids of a node, one after the other. */
  lemma ParseKids(m: Automaton, d: Items, room: Room, stk: Stack, k: nat, i: nat, la: nat, kids: seq<Tree>,
                  rest: seq<Token>)
      returns (es: Stack, ev: seq<Event>)
    requires Valid(m) && Complete(m, d) && Inv(m, stk) && stk != [] && |d.sets| == m.t.NState()
    requires k < |d.kinds| && i <= |d.kinds[k].slots| && AdmitAll(d, kids, d.kinds[k].slots[i..])
    requires AtItem(m, d, stk, Item(k, i, la))
    requires AreTokens(m, rest) && rest != [] && rest[0].major == la
    requires HasRoom(room, |stk| + DepthAll(kids))
    ensures AreTokens(m, YieldAll(kids) + rest)
    ensures Inv(m, stk + es) && Values(es) == kids
    ensures AtItem(m, d, stk + es, Item(k, |d.kinds[k].slots|, la))
    ensures FeedAll(m, room, stk, YieldAll(kids) + rest) == After(ev, FeedAll(m, room, stk + es, rest))
    ensures OnlyMoves(ev) && RulesOf(ev) == PostOrderAll(kids)
    decreases kids, 1
  {
    hide Inv, FeedAll, Complete, RulesOf, Admits, InFirstWith, AtItem, Expects;
    hide Yield, YieldAll, PostOrder, PostOrderAll, Depth, DepthAll;
    if kids == [] {
      es, ev := [], [];
      NoKids(kids);
      assert stk + es == stk && YieldAll(kids) + rest == rest && |d.kinds[k].slots[i..]| == 0;
      RulesOfNone(ev);
    } else {
      FirstKid(kids);
      var slots := d.kinds[k].slots[i..];
      assert slots[0] == d.kinds[k].slots[i] && slots[1..] == d.kinds[k].slots[i + 1..];
      KidsAreTokens(m, d, k, i, kids, rest);
      InsideItem(m, d, stk, Item(k, i, la));
      var tail := YieldAll(kids[1..]) + rest;
      var e, ev1 := ParseSymbol(m, d, room, stk, Item(k, i, la), kids[0], tail);
      assert YieldAll(kids) + rest == Yield(kids[0]) + tail;
      var es2, ev2 := ParseKids(m, d, room, stk + [e], k, i + 1, la, kids[1..], rest);
      es, ev := [e] + es2, ev1 + ev2;
      RunsJoin(m, room, stk, e, es2, ev1, ev2, YieldAll(kids) + rest, tail, rest);
    }
  }

  lemma NoKids(kids: seq<Tree>)
    requires |kids| == 0
    ensures YieldAll(kids) == [] && PostOrderAll(kids) == [] && DepthAll(kids) == 0
  {
  }

  lemma FirstKid(kids: seq<Tree>)
    requires |kids| > 0
    ensures YieldAll(kids) == Yield(kids[0]) + YieldAll(kids[1..])
    ensures PostOrderAll(kids) == PostOrder(kids[0]) + PostOrderAll(kids[1..])
    ensures Depth(kids[0]) <= DepthAll(kids) && 1 + DepthAll(kids[1..]) <= DepthAll(kids)
  {
  }

  /** One entry and its events, then more entries and theirs. */
  lemma RunsJoin(m: Automaton, room: Room, stk: Stack, e: Entry, es: Stack, ev1: seq<Event>, ev2: seq<Event>,
                 toks: seq<Token>, tail: seq<Token>, rest: seq<Token>)
    requires Valid(m) && Inv(m, stk) && Inv(m, stk + [e]) && Inv(m, stk + [e] + es)
    requires AreTokens(m, toks) && AreTokens(m, tail) && AreTokens(m, rest)
    requires FeedAll(m, room, stk, toks) == After(ev1, FeedAll(m, room, stk + [e], tail)) && OnlyMoves(ev1)
    requires FeedAll(m, room, stk + [e], tail) == After(ev2, FeedAll(m, room, stk + [e] + es, rest)) && OnlyMoves(ev2)
    ensures stk + [e] + es == stk + ([e] + es) && Values([e] + es) == [e.minor] + Values(es)
    ensures FeedAll(m, room, stk, toks) == After(ev1 + ev2, FeedAll(m, room, stk + ([e] + es), rest))
    ensures OnlyMoves(ev1 + ev2) && RulesOf(ev1 + ev2) == RulesOf(ev1) + RulesOf(ev2)
  {
    hide Inv, FeedAll, OnlyMoves, RulesOf;
    assert stk + [e] + es == stk + ([e] + es);
    AfterConcat(ev1, ev2, FeedAll(m, room, stk + ([e] + es), rest));
    RulesConcat(ev1, ev2);
    OnlyMovesConcat(ev1, ev2);
  }

  lemma OnlyMovesConcat(a: seq<Event>, b: seq<Event>)
    ensures OnlyMoves(a + b) <==> OnlyMoves(a) && OnlyMoves(b)
  {
    assert forall i :: 0 <= i < |a| ==> (a + b)[i] == a[i];
    assert forall i :: 0 <= i < |b| ==> (a + b)[|a| + i] == b[i];
  }

  /** Before the end of its production an item is in the set of the state on top. */
  lemma InsideItem(m: Automaton, d: Items, stk: Stack, it: Item)
    requires Shaped(m) && |d.sets| == m.t.NState() && stk != [] && it.kind < |d.kinds|
    requires AtItem(m, d, stk, it) && it.dot < |d.kinds[it.kind].slots|
    ensures Expects(m, d, stk, it)
  {
  }

  /** The first remaining kid has a yield of tokens, and what follows it begins with a token of the closure. */
  lemma KidsAreTokens(m: Automaton, d: Items, k: nat, i: nat, kids: seq<Tree>, rest: seq<Token>)
    requires Shaped(m) && Complete(m, d) && k < |d.kinds| && i < |d.kinds[k].slots|
    requires AdmitAll(d, kids, d.kinds[k].slots[i..]) && AreTokens(m, rest) && rest != []
    ensures AreTokens(m, Yield(kids[0])) && AreTokens(m, YieldAll(kids[1..]) + rest)
    ensures InFirstWith(d, d.kinds[k].slots[i + 1..], rest[0].major, (YieldAll(kids[1..]) + rest)[0].major)
    ensures Admits(d, kids[0], d.kinds[k].slots[i]) && AdmitAll(d, kids[1..], d.kinds[k].slots[i + 1..])
  {
    hide Complete, InFirstWith, Admits;
    KindOfComplete(m, d, k);
    var slots, xss := d.kinds[k].slots, m.g[d.kinds[k].rule].rhs;
    assert slots[i..][0] == slots[i] && slots[i..][1..] == slots[i + 1..];
    FirstOfTree(m, d, kids[0], slots[i], xss[i]);
    FirstOfRest(m, d, kids[1..], slots[i + 1..], xss[i + 1..], rest);
  }

  // ---------------------------------------------------------------- whole inputs

  /** The events of a parse that accepts the tree: nothing but moves, in the tree's post-order, then the accept. */
  predicate Accepts(o: Out, tree: Tree) {
    && o.ev != []
    && o.ev[|o.ev| - 1].Accept? && o.ev[|o.ev| - 1].value == tree
    && OnlyMoves(o.ev[..|o.ev| - 1])
    && RulesOf(o.ev) == PostOrder(tree)
  }

  /** Once the handle of a whole input is on the bare bottom, any end token accepts. */
  lemma AcceptHandle(m: Automaton, d: Items, room: Room, bottom: Entry, es: Stack, k: nat, end: Token)
    requires Valid(m) && Complete(m, d) && IsBottom(bottom) && Inv(m, [bottom] + es) && end.major == 0
    requires k in d.starts && k < |d.kinds| && |es| == |d.kinds[k].slots|
    requires |d.sets| == m.t.NState() && AtItem(m, d, [bottom] + es, Item(k, |d.kinds[k].slots|, 0)) && HasRoom(room, 2)
    ensures FeedAll(m, room, [bottom] + es, [end])
         == Out([bottom], room, [Accept(d.kinds[k].rule, es, Node(d.kinds[k].rule, Values(es)))])
  {
    hide AtItem, Complete, Inv, OneStep;
    AcceptStep(m, d, room, bottom, es, k, end);
    assert [end][1..] == [];
  }

  lemma AcceptStep(m: Automaton, d: Items, room: Room, bottom: Entry, es: Stack, k: nat, end: Token)
    requires Valid(m) && Complete(m, d) && IsBottom(bottom) && Inv(m, [bottom] + es) && end.major == 0
    requires k in d.starts && k < |d.kinds| && |es| == |d.kinds[k].slots|
    requires |d.sets| == m.t.NState() && AtItem(m, d, [bottom] + es, Item(k, |d.kinds[k].slots|, 0)) && HasRoom(room, 2)
    ensures OneStep(m, room, [bottom] + es, end)
         == Done(Out([bottom], room, [Accept(d.kinds[k].rule, es, Node(d.kinds[k].rule, Values(es)))]))
  {
    hide Complete, AtItem, Inv, OneStep, CanReduce;
    var up, q := [bottom] + es, d.kinds[k].rule;
    KindOfComplete(m, d, k);
    StartOfComplete(m, d, k);
    ReduceIsNext(m, d, up, k, 0);
    assert Below(m, up, q) == [bottom] && Handle(m, up, q) == es;
    var b := BranchOf(m, room, up, end);
    ReserveForReduct(room, up, es);
  }

  lemma StartOfComplete(m: Automaton, d: Items, k: nat)
    requires Shaped(m) && Complete(m, d) && k in d.starts
    ensures |d.sets| == m.t.NState() && StartOk(m, d, k)
    ensures GotoDefined(m.t, 0, m.c.start) && FindReduceAction(m.t, 0, m.c.start) == m.t.AcceptAction()
  {
  }

  /**
    Completeness: every tree of a whole input that fits the stack is reproduced from its tokens and an end token, by
    its own reductions in post-order, and leaves the parser as allocated.
   */
  lemma EveryTreeIsParsed(m: Automaton, d: Items, room: Room, bottom: Entry, tree: Tree, end: Token)
    requires Valid(m) && Complete(m, d) && IsBottom(bottom)
    requires IsInput(d, tree) && end.major == 0
    requires HasRoom(room, 1 + Depth(tree))
    ensures AreTokens(m, Yield(tree) + [end])
    ensures var o := FreshRun(m, room, bottom, Yield(tree) + [end]);
            o.stk == [bottom] && o.room == room && Accepts(o, tree)
  {
    hide Inv, FeedAll, Complete, RulesOf, Admits;
    var k :| k in d.starts && IsKind(d, tree, k);
    InitialInv(m, bottom);
    StartOfComplete(m, d, k);
    assert d.kinds[k].slots[0..] == d.kinds[k].slots;
    var es, ev := ParseKids(m, d, room, [bottom], k, 0, 0, tree.kids, [end]);
    assert |es| == |Values(es)|;
    AcceptHandle(m, d, room, bottom, es, k, end);
    var last := Accept(tree.rule, es, tree);
    RulesConcat(ev, [last]);
    RulesSingle(last);
    assert (ev + [last])[..|ev|] == ev;
  }

  /** So no two different trees of whole inputs have the same tokens. */
  lemma Unambiguous(m: Automaton, d: Items, one: Tree, two: Tree)
    requires Valid(m) && Complete(m, d)
    requires IsInput(d, one) && IsInput(d, two) && Yield(one) == Yield(two)
    ensures one == two
  {
    hide Complete, Valid, IsInput;
    var end := Token(0, "");
    EveryTreeIsParsed(m, d, Unbounded, BOTTOM, one, end);
    EveryTreeIsParsed(m, d, Unbounded, BOTTOM, two, end);
  }
}
