/**
  The push-down stack and the invariant of every stack a valid automaton can reach.
 */
module LemonStack {
  import opened LemonTables
  import opened LemonGrammar

  /** yyStackEntry: `stateno` is a state, or on top possibly the reduction still to be made. */
  datatype Entry = Entry(stateno: nat, major: nat, minor: Tree)

  type Stack = seq<Entry>

  function Top(stk: Stack): Entry
    requires stk != []
  {
    stk[|stk| - 1]
  }

  function Values(stk: Stack): seq<Tree> {
    seq(|stk|, i requires 0 <= i < |stk| => stk[i].minor)
  }

  /** The entry below the stack proper, as sqlite3ParserAlloc leaves it. */
  predicate IsBottom(e: Entry) { e.stateno == 0 && e.major == 0 }

  const BOTTOM := Entry(0, 0, Leaf(Token(0, "")))

  /** The top |rhs| entries stand for rhs, and something lies below them. */
  predicate RhsOnTop(m: Automaton, stk: Stack, rhs: seq<set<nat>>)
    requires Shaped(m)
  {
    |rhs| < |stk| && forall i :: 0 <= i < |rhs| ==> Syms(m, stk[|stk| - |rhs| + i].stateno) <= rhs[i]
  }

  /** Reducing by r is possible: its handle is on top and the state below has a goto for it. */
  predicate CanReduce(m: Automaton, stk: Stack, r: nat, avail: nat, a: nat)
    requires Shaped(m)
  {
    && r < |m.g|
    && RhsOnTop(m, stk, m.g[r].rhs)
    && var b := stk[|stk| - 1 - |m.g[r].rhs|].stateno;
    && IsState(m, b) && GotoDefined(m.t, b, m.g[r].lhs) && Lowers(m, b, r, avail, a)
  }

  /** What h says of the entry j below entry i, and of the one under that. */
  predicate HistoryPoint(m: Automaton, stk: Stack, i: nat, j: nat, h: Hist)
    requires Shaped(m) && i < |stk|
  {
    j < i && Syms(m, stk[i - j].stateno) <= h.syms && stk[i - j - 1].stateno in h.preds
  }

  /** The certificate's history of entry i holds of the entries from i downwards. */
  predicate HistoryAt(m: Automaton, stk: Stack, i: nat)
    requires Shaped(m) && i < |stk| && IsState(m, stk[i].stateno)
  {
    forall j :: 0 <= j < |m.c.past[stk[i].stateno]| ==> HistoryPoint(m, stk, i, j, m.c.past[stk[i].stateno][j])
  }

  /** The value of an entry derives from one of the entry's symbols and is of the kind `major` says. */
  predicate EntryOk(m: Automaton, e: Entry)
    requires Shaped(m)
  {
    && e.stateno != 0
    && Derives(m, e.minor, Syms(m, e.stateno))
    && MajorOf(m, e.minor) == e.major
  }

  /** The pending reduction on top pops something and can be made whatever token comes next. */
  predicate PendingReady(m: Automaton, stk: Stack)
    requires Shaped(m) && stk != [] && IsPending(m, Top(stk).stateno)
  {
    var r := Top(stk).stateno - m.t.MinReduce();
    && m.g[r].rhs != []
    && forall a :: 0 <= a < m.t.nTerminal ==> CanReduce(m, stk, r, m.c.pend[r], a)
  }

  /** The stack-shape invariant. */
  predicate Inv(m: Automaton, stk: Stack)
    requires Shaped(m)
  {
    && stk != [] && IsBottom(stk[0])
    && (forall i :: 0 <= i < |stk| - 1 ==> IsState(m, stk[i].stateno))
    && (IsState(m, Top(stk).stateno) || (IsPending(m, Top(stk).stateno) && PendingReady(m, stk)))
    && (forall i {:trigger HistoryAt(m, stk, i)} ::
      0 <= i < |stk| && IsState(m, stk[i].stateno) ==> HistoryAt(m, stk, i))
    && (forall i :: 1 <= i < |stk| ==> EntryOk(m, stk[i]))
  }

  lemma InitialInv(m: Automaton, bottom: Entry)
    requires Valid(m) && IsBottom(bottom)
    ensures Inv(m, [bottom])
  {
    assert HistoryAt(m, [bottom], 0);
  }

  lemma HistoryShared(m: Automaton, a: Stack, b: Stack, i: nat)
    requires Shaped(m) && i < |a| && i < |b| && a[..i + 1] == b[..i + 1]
    requires IsState(m, a[i].stateno) && HistoryAt(m, a, i)
    ensures a[i] == b[i] && HistoryAt(m, b, i)
  {
    assert forall k :: 0 <= k <= i ==> a[k] == a[..i + 1][k] == b[k];
    var h := m.c.past[a[i].stateno];
    forall j | 0 <= j < |h|
      ensures HistoryPoint(m, b, i, j, h[j])
    {
      assert HistoryPoint(m, a, i, j, h[j]);
    }
  }

  lemma PrefixInv(m: Automaton, stk: Stack, k: nat)
    requires Shaped(m) && Inv(m, stk) && 1 <= k <= |stk| && IsState(m, stk[k - 1].stateno)
    ensures Inv(m, stk[..k])
  {
    forall i | 0 <= i < k && IsState(m, stk[..k][i].stateno)
      ensures HistoryAt(m, stk[..k], i)
    {
      assert HistoryAt(m, stk, i);
      assert stk[..k][..i + 1] == stk[..i + 1];
      HistoryShared(m, stk, stk[..k], i);
    }
  }

  lemma EdgeSymbol(m: Automaton, s: nat, x: nat, act: nat)
    requires Shaped(m) && IsState(m, s) && EdgeOk(m, s, x, act)
    ensures x in Syms(m, StateNo(m.t, act)) && StateNo(m.t, act) != 0
  {
  }

  lemma HistoriesKept(m: Automaton, stk: Stack, e: Entry)
    requires Shaped(m) && Inv(m, stk)
    ensures forall i {:trigger HistoryAt(m, stk + [e], i)} :: 0 <= i < |stk| && IsState(m, stk[i].stateno) ==>
              HistoryAt(m, stk + [e], i)
  {
    forall i | 0 <= i < |stk| && IsState(m, stk[i].stateno)
      ensures HistoryAt(m, stk + [e], i)
    {
      assert HistoryAt(m, stk, i);
      assert (stk + [e])[..i + 1] == stk[..i + 1];
      HistoryShared(m, stk, stk + [e], i);
    }
  }

  lemma HistoryExtended(m: Automaton, stk: Stack, x: nat, e: Entry)
    requires Shaped(m) && stk != [] && IsState(m, Top(stk).stateno) && HistoryAt(m, stk, |stk| - 1)
    requires IsState(m, e.stateno) && Extends(m, Top(stk).stateno, x, e.stateno)
    ensures HistoryAt(m, stk + [e], |stk|)
  {
    var up, n := stk + [e], |stk|;
    var p, q := m.c.past[Top(stk).stateno], m.c.past[e.stateno];
    forall j | 0 <= j < |q|
      ensures HistoryPoint(m, up, n, j, q[j])
    {
      if j >= 1 {
        var k := j - 1;
        assert p[k].syms <= q[j].syms && p[k].preds <= q[j].preds;
        assert HistoryPoint(m, stk, n - 1, k, p[k]);
        assert up[n - j] == stk[n - 1 - k] && up[n - j - 1] == stk[n - 1 - k - 1];
      }
    }
  }

  /** Pushing along an edge that leads to a state. */
  lemma PushStateInv(m: Automaton, stk: Stack, x: nat, e: Entry)
    requires Shaped(m) && Inv(m, stk) && IsState(m, Top(stk).stateno)
    requires IsState(m, e.stateno) && Extends(m, Top(stk).stateno, x, e.stateno)
    requires EntryOk(m, e)
    ensures Inv(m, stk + [e])
  {
    assert HistoryAt(m, stk, |stk| - 1);
    HistoryExtended(m, stk, x, e);
    HistoriesKept(m, stk, e);
  }

  lemma HistoryGivesRhs(m: Automaton, stk: Stack, rhs: seq<set<nat>>)
    requires Shaped(m) && Inv(m, stk) && IsState(m, Top(stk).stateno)
    requires HistoryEnds(m, Top(stk).stateno, rhs)
    ensures RhsOnTop(m, stk, rhs)
    ensures IsState(m, stk[|stk| - 1 - |rhs|].stateno)
    ensures stk[|stk| - 1 - |rhs|].stateno in Bases(m, Top(stk).stateno, |rhs|)
  {
    var n := |stk| - 1;
    var h := m.c.past[Top(stk).stateno];
    assert HistoryAt(m, stk, n);
    if rhs != [] {
      assert HistoryPoint(m, stk, n, |rhs| - 1, h[|rhs| - 1]);
    }
    forall i | 0 <= i < |rhs|
      ensures Syms(m, stk[|stk| - |rhs| + i].stateno) <= rhs[i]
    {
      var j := |rhs| - 1 - i;
      assert HistoryPoint(m, stk, n, j, h[j]);
      assert h[j].syms <= rhs[|rhs| - 1 - j];
      assert n - j == |stk| - |rhs| + i;
    }
  }

  lemma RhsCompleted(m: Automaton, stk: Stack, rhs: seq<set<nat>>, e: Entry)
    requires Shaped(m) && rhs != [] && RhsOnTop(m, stk, rhs[..|rhs| - 1])
    requires Syms(m, e.stateno) <= rhs[|rhs| - 1]
    ensures RhsOnTop(m, stk + [e], rhs)
  {
    var up, n := stk + [e], |rhs| - 1;
    forall i | 0 <= i < |rhs|
      ensures Syms(m, up[|up| - |rhs| + i].stateno) <= rhs[i]
    {
      if i < n {
        assert up[|up| - |rhs| + i] == stk[|stk| - n + i];
        assert rhs[..n][i] == rhs[i];
      }
    }
  }

  lemma PushPendingReady(m: Automaton, stk: Stack, s: nat, x: nat, e: Entry, r: nat)
    requires Shaped(m) && IsState(m, s) && PendingOk(m, s, x, r) && e.stateno == m.t.MinReduce() + r
    requires RhsOnTop(m, stk, m.g[r].rhs[..|m.g[r].rhs| - 1])
    requires IsState(m, stk[|stk| - |m.g[r].rhs|].stateno)
    requires stk[|stk| - |m.g[r].rhs|].stateno in Bases(m, s, |m.g[r].rhs| - 1)
    ensures PendingReady(m, stk + [e])
  {
    var up := stk + [e];
    RhsCompleted(m, stk, m.g[r].rhs, e);
    var b := stk[|stk| - |m.g[r].rhs|].stateno;
    assert up[|up| - 1 - |m.g[r].rhs|].stateno == b;
    forall a | 0 <= a < m.t.nTerminal
      ensures CanReduce(m, up, r, m.c.pend[r], a)
    {
    }
  }

  /** Pushing along an edge that leaves a reduction pending. */
  lemma PushPendingInv(m: Automaton, stk: Stack, x: nat, e: Entry)
    requires Shaped(m) && Inv(m, stk) && IsState(m, Top(stk).stateno)
    requires IsPending(m, e.stateno) && PendingOk(m, Top(stk).stateno, x, e.stateno - m.t.MinReduce())
    requires EntryOk(m, e)
    ensures Inv(m, stk + [e])
  {
    hide PendingReady, HistoryAt, EntryOk, RhsOnTop;
    var r := e.stateno - m.t.MinReduce();
    HistoryGivesRhs(m, stk, m.g[r].rhs[..|m.g[r].rhs| - 1]);
    PushPendingReady(m, stk, Top(stk).stateno, x, e, r);
    HistoriesKept(m, stk, e);
  }

  lemma PushInv(m: Automaton, stk: Stack, x: nat, act: nat, e: Entry)
    requires Shaped(m) && Inv(m, stk) && IsState(m, Top(stk).stateno)
    requires EdgeOk(m, Top(stk).stateno, x, act)
    requires e.stateno == StateNo(m.t, act) && Derives(m, e.minor, {x}) && MajorOf(m, e.minor) == e.major
    ensures Inv(m, stk + [e])
  {
    EdgeSymbol(m, Top(stk).stateno, x, act);
    DerivesFromMore(m, e.minor, {x}, Syms(m, e.stateno));
    if act < m.t.NState() {
      PushStateInv(m, stk, x, e);
    } else {
      PushPendingInv(m, stk, x, e);
    }
  }

  // ---------------------------------------------------------------- one reduction

  /** The action the driver finds: a pending reduction goes before any look at the token. */
  function NextAction(m: Automaton, stk: Stack, a: nat): nat
    requires Shaped(m) && stk != []
    requires IsState(m, Top(stk).stateno) || IsPending(m, Top(stk).stateno)
  {
    if Top(stk).stateno >= m.t.MinReduce() then Top(stk).stateno else FindAction(m.t, Top(stk).stateno, a)
  }

  /** Every reduction the driver is told to make is possible. */
  lemma NextReduceIsPossible(m: Automaton, stk: Stack, a: nat)
    requires Valid(m) && Inv(m, stk) && a < m.t.nTerminal
    requires IsPending(m, NextAction(m, stk, a))
    ensures CanReduce(m, stk, NextAction(m, stk, a) - m.t.MinReduce(), Budget(m, Top(stk).stateno, a), a)
  {
    var s := Top(stk).stateno;
    if IsState(m, s) {
      assert TokenOk(m, s, a);
      HistoryGivesRhs(m, stk, m.g[NextAction(m, stk, a) - m.t.MinReduce()].rhs);
    }
  }

  function Handle(m: Automaton, stk: Stack, r: nat): Stack
    requires r < |m.g| && |m.g[r].rhs| < |stk|
  {
    stk[|stk| - |m.g[r].rhs|..]
  }

  function Below(m: Automaton, stk: Stack, r: nat): Stack
    requires r < |m.g| && |m.g[r].rhs| < |stk|
  {
    stk[..|stk| - |m.g[r].rhs|]
  }

  /** The action found for the left-hand side in the state uncovered by the handle. */
  function GotoAction(m: Automaton, stk: Stack, r: nat): nat
    requires Shaped(m) && r < |m.g| && |m.g[r].rhs| < |stk|
    requires GotoDefined(m.t, Top(Below(m, stk, r)).stateno, m.g[r].lhs)
  {
    FindReduceAction(m.t, Top(Below(m, stk, r)).stateno, m.g[r].lhs)
  }

  /** The entry that replaces the handle. */
  function Reduct(m: Automaton, stk: Stack, r: nat): Entry
    requires Shaped(m) && r < |m.g| && |m.g[r].rhs| < |stk|
    requires GotoDefined(m.t, Top(Below(m, stk, r)).stateno, m.g[r].lhs)
  {
    Entry(StateNo(m.t, GotoAction(m, stk, r)), m.g[r].lhs, Node(r, Values(Handle(m, stk, r))))
  }

  lemma HandleDerives(m: Automaton, stk: Stack, r: nat, avail: nat, a: nat)
    requires Shaped(m) && Inv(m, stk) && CanReduce(m, stk, r, avail, a)
    ensures Derives(m, Node(r, Values(Handle(m, stk, r))), {m.g[r].lhs})
  {
    var kids := Values(Handle(m, stk, r));
    var n := |m.g[r].rhs|;
    forall i | 0 <= i < n
      ensures Derives(m, kids[i], m.g[r].rhs[i])
    {
      var e := stk[|stk| - n + i];
      assert EntryOk(m, e);
      DerivesFromMore(m, e.minor, Syms(m, e.stateno), m.g[r].rhs[i]);
    }
  }

  /** A reduction keeps the invariant; an accepting one uncovers the bottom. */
  lemma ReduceInv(m: Automaton, stk: Stack, r: nat, avail: nat, a: nat)
    requires Valid(m) && Inv(m, stk) && CanReduce(m, stk, r, avail, a)
    ensures GotoAction(m, stk, r) == m.t.AcceptAction() ==>
              Below(m, stk, r) == [stk[0]] && m.g[r].lhs == m.c.start
    ensures GotoAction(m, stk, r) != m.t.AcceptAction() ==>
              && GotoAction(m, stk, r) <= m.t.MaxShiftReduce()
              && Inv(m, Below(m, stk, r) + [Reduct(m, stk, r)])
  {
    var low := Below(m, stk, r);
    var b := Top(low).stateno;
    PrefixInv(m, stk, |low|);
    HandleDerives(m, stk, r, avail, a);
    assert GotoOk(m, b, m.g[r].lhs);
    if GotoAction(m, stk, r) == m.t.AcceptAction() {
      assert |low| > 1 ==> EntryOk(m, Top(low));
    } else {
      PushInv(m, low, m.g[r].lhs, GotoAction(m, stk, r), Reduct(m, stk, r));
    }
  }

  // ---------------------------------------------------------------- the measure of reductions

  /** The weights of all entries above the bottom. */
  function Spend(m: Automaton, stk: Stack): nat
    requires Shaped(m)
  {
    if |stk| <= 1 then 0 else Spend(m, stk[..|stk| - 1]) + Weight(m, Syms(m, Top(stk).stateno))
  }

  /** Bounds the reductions that token a can still cause. */
  function Measure(m: Automaton, stk: Stack, a: nat): nat
    requires Shaped(m) && stk != []
  {
    Spend(m, stk) + Budget(m, Top(stk).stateno, a)
  }

  lemma EntryHasSymbol(m: Automaton, e: Entry)
    requires Shaped(m) && EntryOk(m, e)
    ensures exists x <- Syms(m, e.stateno) :: x < m.t.noCode
  {
  }

  /** A handle weighs at least what its right-hand side does. */
  lemma {:induction false} SpendOfHandle(m: Automaton, stk: Stack, rhs: seq<set<nat>>)
    requires Shaped(m) && RhsOnTop(m, stk, rhs) && forall i :: 1 <= i < |stk| ==> EntryOk(m, stk[i])
    ensures Spend(m, stk) >= Spend(m, stk[..|stk| - |rhs|]) + Weights(m, rhs)
    decreases |rhs|
  {
    hide Weight, EntryOk, Syms;
    if rhs == [] {
      assert stk[..|stk|] == stk;
    } else {
      var less, short := stk[..|stk| - 1], rhs[..|rhs| - 1];
      assert Top(stk) == stk[|stk| - |rhs| + (|rhs| - 1)];
      EntryHasSymbol(m, Top(stk));
      WeightOfSubset(m, Syms(m, Top(stk).stateno), rhs[|rhs| - 1]);
      forall i | 0 <= i < |short|
        ensures Syms(m, less[|less| - |short| + i].stateno) <= short[i]
      {
        assert less[|less| - |short| + i] == stk[|stk| - |rhs| + i];
      }
      SpendOfHandle(m, less, short);
      assert less[..|less| - |short|] == stk[..|stk| - |rhs|];
    }
  }

  lemma WeightOfSubset(m: Automaton, xs: set<nat>, ys: set<nat>)
    requires Shaped(m) && xs <= ys && exists x <- xs :: x < m.t.noCode
    ensures Weight(m, ys) <= Weight(m, xs)
  {
    LeastOfSubset(m.c.weight, xs, ys);
  }

  lemma ReduceLowersMeasure(m: Automaton, stk: Stack, r: nat, a: nat)
    requires Valid(m) && Inv(m, stk)
    requires CanReduce(m, stk, r, Budget(m, Top(stk).stateno, a), a)
    requires GotoAction(m, stk, r) != m.t.AcceptAction()
    ensures Measure(m, Below(m, stk, r) + [Reduct(m, stk, r)], a) < Measure(m, stk, a)
  {
    var low, e := Below(m, stk, r), Reduct(m, stk, r);
    SpendOfHandle(m, stk, m.g[r].rhs);
    assert GotoOk(m, Top(low).stateno, m.g[r].lhs);
    EdgeSymbol(m, Top(low).stateno, m.g[r].lhs, GotoAction(m, stk, r));
    assert (low + [e])[..|low|] == low;
  }
}
