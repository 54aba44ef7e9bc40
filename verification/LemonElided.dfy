/**
  Unit rules that were optimized out.  The grammar as written has rules A ::= B that the generator removed: where the
  automaton would reduce by one it goes straight on, so that no node of such a rule is ever built.  The grammar that
  the driver follows lists B wherever A stands; here it is shown to derive the same inputs as the one written.
 */
module LemonElided {
  import opened LemonTables
  import opened LemonGrammar
  import opened LemonStack
  import opened LemonDriver
  import opened LemonComplete
  import opened LemonLanguage

  /** The rules as written, and the numbers of those that were optimized out. */
  datatype Written = Written(rules: seq<Production>, elided: set<nat>)

  predicate IsUnit(w: Written, r: nat) {
    r < |w.rules| && |w.rules[r].rhs| == 1
  }

  predicate WrittenOk(w: Written) {
    forall r <- w.elided :: IsUnit(w, r)
  }

  /** One elided rule leads from x to y. */
  predicate Unit(w: Written, r: nat, x: nat, y: nat) {
    r in w.elided && IsUnit(w, r) && w.rules[r].lhs == x && y in w.rules[r].rhs[0]
  }

  /** A chain of n elided rules leads from x to y. */
  ghost predicate Leads(w: Written, x: nat, y: nat, n: nat)
    decreases n
  {
    if n == 0 then x == y
    else exists r: nat, z: nat :: Unit(w, r, x, z) && Leads(w, z, y, n - 1)
  }

  ghost predicate Reaches(w: Written, x: nat, y: nat) {
    exists n: nat :: Leads(w, x, y, n)
  }

  /** Exactly what elided rules lead to from xs. */
  ghost predicate Spreads(w: Written, xs: set<nat>, ys: set<nat>) {
    forall y: nat :: y in ys <==> exists x <- xs :: Reaches(w, x, y)
  }

  /** The grammar that the driver follows for the one written. */
  ghost predicate Elides(m: Automaton, w: Written) {
    && WrittenOk(w) && |m.g| == |w.rules|
    && forall r :: 0 <= r < |m.g| ==> RuleElides(m, w, r)
  }

  ghost predicate RuleElides(m: Automaton, w: Written, r: nat)
    requires r < |m.g| == |w.rules|
  {
    && m.g[r].lhs == w.rules[r].lhs && |m.g[r].rhs| == |w.rules[r].rhs|
    && forall i :: 0 <= i < |m.g[r].rhs| ==> Spreads(w, w.rules[r].rhs[i], m.g[r].rhs[i])
  }

  /** The automaton with the grammar as written: only what derives from it is of interest. */
  function AsWritten(m: Automaton, w: Written): Automaton {
    m.(g := w.rules)
  }

  lemma ReachesItself(w: Written, x: nat)
    ensures Reaches(w, x, x)
  {
    assert Leads(w, x, x, 0);
  }

  lemma ReachesOver(w: Written, r: nat, x: nat, z: nat, y: nat)
    requires Unit(w, r, x, z) && Reaches(w, z, y)
    ensures Reaches(w, x, y)
  {
    var n: nat :| Leads(w, z, y, n);
    assert Leads(w, x, y, n + 1);
  }

  // ---------------------------------------------------------------- taking unit nodes out

  function Erase(w: Written, tree: Tree): Tree
    decreases tree, 0
  {
    match tree
    case Leaf(_) => tree
    case Node(r, kids) => if r in w.elided && |kids| == 1 then Erase(w, kids[0]) else Node(r, EraseAll(w, kids))
  }

  function EraseAll(w: Written, trees: seq<Tree>): (es: seq<Tree>)
    ensures |es| == |trees| && forall i :: 0 <= i < |trees| ==> es[i] == Erase(w, trees[i])
    decreases trees, 1
  {
    if trees == [] then [] else [Erase(w, trees[0])] + EraseAll(w, trees[1..])
  }

  lemma {:induction false} ErasedYield(w: Written, tree: Tree)
    ensures Yield(Erase(w, tree)) == Yield(tree)
    decreases tree, 0
  {
    match tree
    case Leaf(_) =>
    case Node(r, kids) =>
      if r in w.elided && |kids| == 1 {
        ErasedYield(w, kids[0]);
        assert kids == [kids[0]];
        YieldAllSingle(kids[0]);
      } else {
        ErasedYields(w, kids);
      }
  }

  lemma {:induction false} ErasedYields(w: Written, trees: seq<Tree>)
    ensures YieldAll(EraseAll(w, trees)) == YieldAll(trees)
    decreases trees, 1
  {
    if trees != [] {
      ErasedYield(w, trees[0]);
      ErasedYields(w, trees[1..]);
      assert EraseAll(w, trees)[1..] == EraseAll(w, trees[1..]);
    }
  }

  /** A tree of the written grammar without its unit nodes is a tree of the grammar that the driver follows. */
  lemma {:induction false} ErasedDerives(m: Automaton, w: Written, tree: Tree, xs: set<nat>, ys: set<nat>)
    requires Elides(m, w) && Derives(AsWritten(m, w), tree, xs)
    requires forall x, y :: x in xs && Reaches(w, x, y) ==> y in ys
    ensures Derives(m, Erase(w, tree), ys)
    decreases tree
  {
    hide Reaches;
    match tree
    case Leaf(tok) =>
      var x :| x in xs && x < m.t.nTerminal && Reads(m.t, tok.major, x);
      ReachesItself(w, x);
    case Node(r, kids) =>
      assert RuleElides(m, w, r);
      if r in w.elided {
        assert IsUnit(w, r);
        forall x, y | x in w.rules[r].rhs[0] && Reaches(w, x, y)
          ensures y in ys
        {
          assert Unit(w, r, w.rules[r].lhs, x);
          ReachesOver(w, r, w.rules[r].lhs, x, y);
        }
        ErasedDerives(m, w, kids[0], w.rules[r].rhs[0], ys);
      } else {
        ReachesItself(w, w.rules[r].lhs);
        forall i | 0 <= i < |kids|
          ensures Derives(m, Erase(w, kids[i]), m.g[r].rhs[i])
        {
          assert Spreads(w, w.rules[r].rhs[i], m.g[r].rhs[i]);
          ErasedDerives(m, w, kids[i], w.rules[r].rhs[i], m.g[r].rhs[i]);
        }
      }
  }

  // ---------------------------------------------------------------- putting unit nodes back

  /** Under a chain of unit nodes the tree derives from where the chain begins. */
  lemma {:induction false} Wrapped(m: Automaton, w: Written, tree: Tree, x: nat, y: nat, n: nat) returns (u: Tree)
    requires Elides(m, w) && Leads(w, x, y, n) && Derives(AsWritten(m, w), tree, {y})
    ensures Derives(AsWritten(m, w), u, {x}) && Yield(u) == Yield(tree)
    decreases n
  {
    if n == 0 {
      u := tree;
    } else {
      var r: nat, z: nat :| Unit(w, r, x, z) && Leads(w, z, y, n - 1);
      var inner := Wrapped(m, w, tree, z, y, n - 1);
      DerivesFromMore(AsWritten(m, w), inner, {z}, w.rules[r].rhs[0]);
      u := Node(r, [inner]);
      YieldAllSingle(inner);
    }
  }

  /** A tree of the grammar that the driver follows is, up to unit nodes, one of the written grammar. */
  lemma {:induction false} RestoredDerives(m: Automaton, w: Written, tree: Tree, xs: set<nat>, ys: set<nat>)
      returns (u: Tree)
    requires Elides(m, w) && Derives(m, tree, ys)
    requires forall y :: y in ys ==> exists x <- xs :: Reaches(w, x, y)
    ensures Derives(AsWritten(m, w), u, xs) && Yield(u) == Yield(tree)
    decreases tree, 0
  {
    hide Reaches;
    var y: nat;
    var inner: Tree;
    match tree {
      case Leaf(tok) =>
        y :| y in ys && y < m.t.nTerminal && Reads(m.t, tok.major, y);
        inner := tree;
      case Node(r, kids) =>
        assert RuleElides(m, w, r);
        var us := RestoredDeriveAll(m, w, kids, w.rules[r].rhs, m.g[r].rhs);
        y, inner := m.g[r].lhs, Node(r, us);
    }
    var x: nat :| x in xs && Reaches(w, x, y);
    var n := ChainLength(w, x, y);
    u := Wrapped(m, w, inner, x, y, n);
    DerivesFromMore(AsWritten(m, w), u, {x}, xs);
  }

  lemma ChainLength(w: Written, x: nat, y: nat) returns (n: nat)
    requires Reaches(w, x, y)
    ensures Leads(w, x, y, n)
  {
    n :| Leads(w, x, y, n);
  }

  lemma {:induction false} RestoredDeriveAll(m: Automaton, w: Written, trees: seq<Tree>, xss: seq<set<nat>>,
                                             yss: seq<set<nat>>) returns (us: seq<Tree>)
    requires Elides(m, w) && |trees| == |xss| == |yss|
    requires forall i :: 0 <= i < |trees| ==> Derives(m, trees[i], yss[i]) && Spreads(w, xss[i], yss[i])
    ensures |us| == |trees| && YieldAll(us) == YieldAll(trees)
    ensures forall i :: 0 <= i < |us| ==> Derives(AsWritten(m, w), us[i], xss[i])
    decreases trees, 1
  {
    if trees == [] {
      us := [];
    } else {
      var u := RestoredDerives(m, w, trees[0], xss[0], yss[0]);
      var rest := RestoredDeriveAll(m, w, trees[1..], xss[1..], yss[1..]);
      us := [u] + rest;
    }
  }

  // ---------------------------------------------------------------- the language as written

  /** No elided rule leads away from the start symbol. */
  ghost predicate StartStays(m: Automaton, w: Written) {
    forall y: nat :: Reaches(w, m.c.start, y) ==> y == m.c.start
  }

  ghost predicate DerivesInput(m: Automaton, toks: seq<Token>) {
    exists tree: Tree :: Derives(m, tree, {m.c.start}) && Yield(tree) == toks
  }

  /** Eliding rules changes no input: the two grammars derive the same. */
  lemma SameLanguage(m: Automaton, w: Written, toks: seq<Token>)
    requires Elides(m, w) && StartStays(m, w)
    ensures DerivesInput(m, toks) <==> DerivesInput(AsWritten(m, w), toks)
  {
    ReachesItself(w, m.c.start);
    if tree: Tree :| Derives(m, tree, {m.c.start}) && Yield(tree) == toks {
      var u := RestoredDerives(m, w, tree, {m.c.start}, {m.c.start});
      assert Derives(AsWritten(m, w), u, {AsWritten(m, w).c.start}) && Yield(u) == toks;
    }
    if tree: Tree :| Derives(AsWritten(m, w), tree, {m.c.start}) && Yield(tree) == toks {
      ErasedDerives(m, w, tree, {m.c.start}, {m.c.start});
      ErasedYield(w, tree);
      assert Yield(Erase(w, tree)) == toks;
    }
  }

  /** The driver accepts exactly what the grammar derives as it was written. */
  lemma AcceptsTheWrittenLanguage(m: Automaton, w: Written, d: Items, bottom: Entry, toks: seq<Token>, end: Token)
    requires Valid(m) && Complete(m, d) && Covers(m, d) && Elides(m, w) && StartStays(m, w)
    requires IsBottom(bottom) && AreTokens(m, toks) && end.major == 0
    ensures AreTokens(m, toks + [end])
    ensures WhollyAccepted(FreshRun(m, Unbounded, bottom, toks + [end])) <==> DerivesInput(AsWritten(m, w), toks)
  {
    hide Complete, Elides, StartStays, FreshRun;
    AcceptsExactlyTheLanguage(m, d, bottom, toks, end);
    SameLanguage(m, w, toks);
    forall tree: Tree | Derives(m, tree, {m.c.start})
      ensures tree.Node?
    {
      StartIsNode(m, tree);
    }
  }
}
