/**
  Grammars, parse trees, and the certificate under which the tables are a sound automaton.

  The semantic value of a symbol is modelled as the tree of reduce actions that computed it, so
  that any particular choice of reduce actions is a function of what is modelled here.
 */
module LemonGrammar {
  import opened LemonTables

  datatype Token = Token(major: nat, text: string)

  /**
    A rule.  At each position of the right-hand side stand the codes that the automaton accepts there: one symbol,
    all terminals of a multi-terminal such as EQ|NE, and with a nonterminal A also every B for which the unit rule
    A ::= B was optimized out, since then the automaton goes the same way over B as over A.
   */
  datatype Production = Production(lhs: nat, rhs: seq<set<nat>>)

  datatype Tree = Leaf(tok: Token) | Node(rule: nat, kids: seq<Tree>)

  /** Left-to-right tokens of a tree, and of a sequence of trees. */
  function Yield(tree: Tree): seq<Token>
    decreases tree, 0
  {
    match tree
    case Leaf(tok) => [tok]
    case Node(_, kids) => YieldAll(kids)
  }

  function YieldAll(trees: seq<Tree>): seq<Token>
    decreases trees, 1
  {
    if trees == [] then [] else Yield(trees[0]) + YieldAll(trees[1..])
  }

  lemma {:induction false} YieldAllConcat(a: seq<Tree>, b: seq<Tree>)
    ensures YieldAll(a + b) == YieldAll(a) + YieldAll(b)
    decreases |a|
  {
    if a == [] {
      assert a + b == b;
    } else {
      assert (a + b)[0] == a[0] && (a + b)[1..] == a[1..] + b;
      YieldAllConcat(a[1..], b);
    }
  }

  lemma YieldAllSingle(tree: Tree)
    ensures YieldAll([tree]) == Yield(tree)
  {
    assert [tree][1..] == [];
  }

  // ---------------------------------------------------------------- certificate

  /** What is known about one entry below the top: the symbols it can stand for and the states under it. */
  datatype Hist = Hist(syms: set<nat>, preds: set<nat>)

  /**
    `past[s]` describes the entries from the top downwards whenever state s is on top.
    `weight` (per symbol), `budget` (per state and token) and `pend` (per rule) bound the reductions.
   */
  datatype Cert = Cert(start: nat, past: seq<seq<Hist>>, weight: seq<nat>, budget: seq<seq<nat>>, pend: seq<nat>)

  datatype Automaton = Automaton(g: seq<Production>, t: Tables, c: Cert)

  /** Shapes only: lengths and ranges. */
  predicate Shaped(m: Automaton) {
    m.t.WellFormed() && RulesShaped(m) && HistoriesShaped(m) && MeasuresShaped(m)
  }

  predicate RulesShaped(m: Automaton) {
    && |m.g| == m.t.NRule()
    && (forall r :: 0 <= r < |m.g| ==> m.g[r].lhs == m.t.rules[r].lhs && |m.g[r].rhs| == m.t.rules[r].nrhs)
    && (forall r :: 0 <= r < |m.g| ==>
          forall i :: 0 <= i < |m.g[r].rhs| ==> forall x <- m.g[r].rhs[i] :: x < m.t.noCode)
    && m.t.nTerminal <= m.c.start < m.t.noCode
  }

  predicate HistoriesShaped(m: Automaton) {
    && |m.c.past| == m.t.NState() > 0
    && m.c.past[0] == []
    && (forall s :: 0 <= s < |m.c.past| ==>
          forall j :: 0 <= j < |m.c.past[s]| ==> forall x <- m.c.past[s][j].syms :: x < m.t.noCode)
  }

  predicate MeasuresShaped(m: Automaton) {
    && |m.c.weight| == m.t.noCode
    && |m.c.budget| == m.t.NState()
    && (forall s :: 0 <= s < |m.c.budget| ==> |m.c.budget[s]| == m.t.nTerminal)
    && |m.c.pend| == m.t.NRule()
  }

  predicate IsState(m: Automaton, k: nat) { k < m.t.NState() }
  predicate IsPending(m: Automaton, k: nat) { m.t.MinReduce() <= k <= m.t.MaxReduce() }

  /** The stateno stored for a shift or shift-reduce action. */
  function StateNo(t: Tables, act: nat): nat {
    if act >= t.NState() then act + (t.MinReduce() - t.minShiftReduce) else act
  }

  /** The symbols that an entry with this stateno can stand for. */
  function Syms(m: Automaton, k: nat): (xs: set<nat>)
    requires Shaped(m)
    ensures forall x <- xs :: x < m.t.noCode
  {
    if k < m.t.NState() then
      if m.c.past[k] == [] then {} else m.c.past[k][0].syms
    else if IsPending(m, k) && m.g[k - m.t.MinReduce()].rhs != [] then
      var rhs := m.g[k - m.t.MinReduce()].rhs;
      rhs[|rhs| - 1]
    else {}
  }

  /** The smallest weight of the symbols below k in xs, 0 if there are none. */
  function Least(weight: seq<nat>, xs: set<nat>, k: nat): nat
    requires k <= |weight|
  {
    if k == 0 then 0
    else
      var rest := Least(weight, xs, k - 1);
      if k - 1 !in xs then rest
      else if (exists x <- xs :: x < k - 1) && rest <= weight[k - 1] then rest
      else weight[k - 1]
  }

  lemma {:induction false} LeastIsAttained(weight: seq<nat>, xs: set<nat>, k: nat) returns (x: nat)
    requires k <= |weight| && exists y <- xs :: y < k
    ensures x in xs && x < k && Least(weight, xs, k) == weight[x]
  {
    if exists y <- xs :: y < k - 1 {
      x := LeastIsAttained(weight, xs, k - 1);
      if k - 1 in xs && weight[k - 1] < weight[x] {
        x := k - 1;
      }
    } else {
      x := k - 1;
    }
  }

  lemma {:induction false} LeastIsLeast(weight: seq<nat>, xs: set<nat>, k: nat, x: nat)
    requires x in xs && x < k <= |weight|
    ensures Least(weight, xs, k) <= weight[x]
  {
    if x < k - 1 {
      LeastIsLeast(weight, xs, k - 1, x);
    }
  }

  /** Fewer symbols weigh no less. */
  lemma LeastOfSubset(weight: seq<nat>, xs: set<nat>, ys: set<nat>)
    requires xs <= ys && exists x <- xs :: x < |weight|
    ensures Least(weight, ys, |weight|) <= Least(weight, xs, |weight|)
  {
    var x := LeastIsAttained(weight, xs, |weight|);
    LeastIsLeast(weight, ys, |weight|, x);
  }

  /** The weight of an entry whose symbol is one of these. */
  function Weight(m: Automaton, xs: set<nat>): nat
    requires Shaped(m)
  {
    Least(m.c.weight, xs, m.t.noCode)
  }

  /** The reductions still affordable with stateno k on top and token a ahead. */
  function Budget(m: Automaton, k: nat, a: nat): nat
    requires Shaped(m)
  {
    if k < m.t.NState() then (if a < m.t.nTerminal then m.c.budget[k][a] else 0)
    else if IsPending(m, k) then m.c.pend[k - m.t.MinReduce()]
    else 0
  }

  function Weights(m: Automaton, xss: seq<set<nat>>): nat
    requires Shaped(m)
  {
    if xss == [] then 0 else Weights(m, xss[..|xss| - 1]) + Weight(m, xss[|xss| - 1])
  }

  /** The history of s ends in symbols that may stand at these positions. */
  predicate HistoryEnds(m: Automaton, s: nat, xs: seq<set<nat>>)
    requires Shaped(m) && IsState(m, s)
  {
    |xs| <= |m.c.past[s]| && forall j :: 0 <= j < |xs| ==> m.c.past[s][j].syms <= xs[|xs| - 1 - j]
  }

  /** The states that can lie n entries below a top state s. */
  function Bases(m: Automaton, s: nat, n: nat): set<nat>
    requires Shaped(m) && IsState(m, s) && n <= |m.c.past[s]|
  {
    if n == 0 then {s} else m.c.past[s][n - 1].preds
  }

  /** Reducing by r over base b, with `avail` to spend besides the popped entries, costs something. */
  predicate Lowers(m: Automaton, b: nat, r: nat, avail: nat, a: nat)
    requires Shaped(m) && r < |m.g| && GotoDefined(m.t, b, m.g[r].lhs)
  {
    var act := FindReduceAction(m.t, b, m.g[r].lhs);
    act == m.t.AcceptAction() ||
    Weight(m, Syms(m, StateNo(m.t, act))) + Budget(m, StateNo(m.t, act), a) < Weights(m, m.g[r].rhs) + avail
  }

  /** State s may reduce by r when token a is ahead. */
  predicate ReduceOk(m: Automaton, s: nat, r: nat, a: nat)
    requires Shaped(m) && IsState(m, s)
  {
    && r < |m.g|
    && HistoryEnds(m, s, m.g[r].rhs)
    && forall b <- Bases(m, s, |m.g[r].rhs|) ::
         GotoDefined(m.t, b, m.g[r].lhs) && Lowers(m, b, r, Budget(m, s, a), a)
  }

  /** Pushing x on state s may leave the reduction by r pending. */
  predicate PendingOk(m: Automaton, s: nat, x: nat, r: nat)
    requires Shaped(m) && IsState(m, s)
  {
    && r < |m.g|
    && var rhs := m.g[r].rhs;
    && rhs != [] && x in rhs[|rhs| - 1]
    && HistoryEnds(m, s, rhs[..|rhs| - 1])
    && forall b <- Bases(m, s, |rhs| - 1) ::
         && GotoDefined(m.t, b, m.g[r].lhs)
         && forall a :: 0 <= a < m.t.nTerminal ==> Lowers(m, b, r, m.c.pend[r], a)
  }

  /** State k's history is that of s with x pushed on it. */
  predicate Extends(m: Automaton, s: nat, x: nat, k: nat)
    requires Shaped(m) && IsState(m, s) && IsState(m, k)
  {
    var p, q := m.c.past[s], m.c.past[k];
    && k != 0
    && 1 <= |q| <= |p| + 1
    && x in q[0].syms && s in q[0].preds
    && forall j :: 1 <= j < |q| ==> p[j - 1].syms <= q[j].syms && p[j - 1].preds <= q[j].preds
  }

  /** The automaton may go from s over symbol x to what action act denotes. */
  predicate EdgeOk(m: Automaton, s: nat, x: nat, act: nat)
    requires Shaped(m) && IsState(m, s)
  {
    if act < m.t.NState() then Extends(m, s, x, act)
    else m.t.minShiftReduce <= act <= m.t.MaxShiftReduce() && PendingOk(m, s, x, act - m.t.minShiftReduce)
  }

  predicate TokenOk(m: Automaton, s: nat, a: nat)
    requires Shaped(m) && IsState(m, s)
  {
    var act := FindAction(m.t, s, a);
    if act <= m.t.MaxShiftReduce() then EdgeOk(m, s, ReadAs(m.t, s, a), act)
    else if act <= m.t.MaxReduce() then ReduceOk(m, s, act - m.t.MinReduce(), a)
    else act == m.t.ErrorAction()
  }

  predicate GotoOk(m: Automaton, s: nat, x: nat)
    requires Shaped(m) && IsState(m, s)
  {
    GotoDefined(m.t, s, x) ==>
      var act := FindReduceAction(m.t, s, x);
      if act == m.t.AcceptAction() then s == 0 && x == m.c.start else EdgeOk(m, s, x, act)
  }

  /** The decidable validity of an automaton. */
  predicate Valid(m: Automaton) {
    && Shaped(m)
    && (forall s, a :: 0 <= s < m.t.NState() && 0 <= a < m.t.nTerminal ==> TokenOk(m, s, a))
    && (forall s, x :: 0 <= s < m.t.NState() && m.t.nTerminal <= x < m.t.noCode ==> GotoOk(m, s, x))
  }

  // ---------------------------------------------------------------- derivations

  /**
    The tree derives from one of the symbols xs: inner nodes follow the grammar, leaves are tokens that read as a
    terminal of xs.
   */
  predicate Derives(m: Automaton, tree: Tree, xs: set<nat>)
    decreases tree
  {
    match tree
    case Leaf(tok) => tok.major < m.t.nTerminal && exists x <- xs :: x < m.t.nTerminal && Reads(m.t, tok.major, x)
    case Node(r, kids) =>
      && r < |m.g| && m.g[r].lhs in xs && |kids| == |m.g[r].rhs|
      && forall i :: 0 <= i < |kids| ==> Derives(m, kids[i], m.g[r].rhs[i])
  }

  lemma DerivesFromMore(m: Automaton, tree: Tree, xs: set<nat>, ys: set<nat>)
    requires Derives(m, tree, xs) && xs <= ys
    ensures Derives(m, tree, ys)
  {
  }

  /** The code stored as `major` for a value. */
  function MajorOf(m: Automaton, tree: Tree): nat {
    match tree
    case Leaf(tok) => tok.major
    case Node(r, _) => if r < |m.g| then m.g[r].lhs else 0
  }
}
