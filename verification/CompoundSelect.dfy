/**
  Compound SELECT and VALUES: what the reduce actions of parse.c build for them, as values.

  A compound is kept as a chain of SELECT nodes, newest first, each naming the operator that joins it to
  everything older.  Reading the chain from its oldest node must give the left-associated meaning of the
  source text, on bags of rows.
 */
module CompoundSelect {

  /** A row of column values. */
  type Tuple = seq<int>

  /** The rows that each plain SELECT yields. */
  type Database = nat -> multiset<Tuple>

  /** TK_SELECT for a node with nothing before it, else the operator. */
  datatype Op = Select | All | Union | Except | Intersect

  // ---------------------------------------------------------------- source text

  /** oneselect: a plain SELECT or a VALUES clause with at least one row. */
  datatype One = Query(q: nat) | Values(rows: seq<Tuple>)

  /** selectnowith: the grammar is left-recursive, so compounds group to the left. */
  datatype Source = Single(one: One) | Compound(left: Source, op: Op, right: One)

  predicate OneOk(o: One) {
    o.Values? ==> |o.rows| > 0
  }

  predicate SourceOk(s: Source) {
    match s
    case Single(o) => OneOk(o)
    case Compound(l, op, o) => SourceOk(l) && op != Select && OneOk(o)
  }

  function Distinct(a: multiset<Tuple>): (d: multiset<Tuple>)
    ensures forall r :: d[r] == if r in a then 1 else 0
  {
    multiset(set r | r in a)
  }

  /** The set operators on bags: only UNION ALL keeps duplicates. */
  function Combine(op: Op, a: multiset<Tuple>, b: multiset<Tuple>): multiset<Tuple>
    requires op != Select
  {
    match op
    case All => a + b
    case Union => Distinct(a + b)
    case Except => Distinct(a) - Distinct(b)
    case Intersect => Distinct(a) * Distinct(b)
  }

  function OneMeaning(o: One, db: Database): multiset<Tuple> {
    match o
    case Query(q) => db(q)
    case Values(rows) => multiset(rows)
  }

  function SourceMeaning(s: Source, db: Database): multiset<Tuple>
    requires SourceOk(s)
  {
    match s
    case Single(o) => OneMeaning(o, db)
    case Compound(l, op, o) => Combine(op, SourceMeaning(l, db), OneMeaning(o, db))
  }

  /** The terms that count against SQLITE_LIMIT_COMPOUND_SELECT: the rows of a leading VALUES count one by one. */
  function SourceTerms(s: Source): nat {
    match s
    case Single(Query(_)) => 1
    case Single(Values(rows)) => |rows|
    case Compound(l, _, _) => SourceTerms(l) + 1
  }

  /** Some operator of the source is not UNION ALL. */
  predicate HasSetOperator(s: Source) {
    match s
    case Single(_) => false
    case Compound(l, op, _) => op != All || HasSetOperator(l)
  }

  /** What the set operators do to each row: bags add up under UNION ALL, the others leave no duplicates. */
  lemma CombineCounts(op: Op, a: multiset<Tuple>, b: multiset<Tuple>, r: Tuple)
    requires op != Select
    ensures op == All ==> Combine(op, a, b)[r] == a[r] + b[r]
    ensures op == Union ==> Combine(op, a, b)[r] == if a[r] > 0 || b[r] > 0 then 1 else 0
    ensures op == Except ==> Combine(op, a, b)[r] == if a[r] > 0 && b[r] == 0 then 1 else 0
    ensures op == Intersect ==> Combine(op, a, b)[r] == if a[r] > 0 && b[r] > 0 then 1 else 0
  {
  }

  /** The operators of a source, from the left. */
  function Operators(s: Source): seq<Op> {
    if s.Single? then [] else Operators(s.left) + [s.op]
  }

  /** How often a row comes from the parts of a source, whatever joins them. */
  function Occurrences(s: Source, db: Database, r: Tuple): nat {
    match s
    case Single(o) => OneMeaning(o, db)[r]
    case Compound(l, _, o) => Occurrences(l, db, r) + OneMeaning(o, db)[r]
  }

  predicate AllAll(ops: seq<Op>) {
    forall i :: 0 <= i < |ops| ==> ops[i] == All
  }

  lemma OneMoreOperator(ops: seq<Op>, op: Op)
    ensures AllAll(ops + [op]) <==> AllAll(ops) && op == All
  {
    var more := ops + [op];
    assert more[|ops|] == op && forall i :: 0 <= i < |ops| ==> more[i] == ops[i];
  }

  lemma {:induction false} SetOperatorIff(s: Source)
    requires SourceOk(s)
    ensures HasSetOperator(s) <==> !AllAll(Operators(s))
  {
    if s.Compound? {
      SetOperatorIff(s.left);
      OneMoreOperator(Operators(s.left), s.op);
    }
  }

  /** Without an operator other than UNION ALL no row is lost and none is merged. */
  lemma {:induction false} NothingMerges(s: Source, db: Database, r: Tuple)
    requires SourceOk(s) && !HasSetOperator(s)
    ensures SourceMeaning(s, db)[r] == Occurrences(s, db, r)
  {
    if s.Compound? {
      NothingMerges(s.left, db, r);
      CombineCounts(s.op, SourceMeaning(s.left, db), OneMeaning(s.right, db), r);
    }
  }

  // ---------------------------------------------------------------- chains of nodes

  /** SF_Values, SF_MultiValue and SF_Compound. */
  datatype Flags = Flags(values: bool, multiValue: bool, compound: bool)

  /** What one node yields by itself; From is SELECT * over a sub-select. */
  datatype Core = Query(q: nat) | Row(row: Tuple) | From(sub: Term)

  /** A chain, newest node first. */
  datatype Term = None | Term(prior: Term, op: Op, flags: Flags, core: Core)

  function Length(t: Term): nat {
    if t.None? then 0 else 1 + Length(t.prior)
  }

  /** Exactly the oldest node of each chain is a plain SELECT, and no sub-select is empty. */
  predicate WellFormed(t: Term) {
    t.Term? ==>
      && WellFormed(t.prior)
      && (t.op == Select <==> t.prior.None?)
      && (t.core.From? ==> t.core.sub.Term? && WellFormed(t.core.sub))
  }

  function CoreMeaning(c: Core, db: Database): multiset<Tuple>
    requires c.From? ==> c.sub.Term? && WellFormed(c.sub)
  {
    match c
    case Query(q) => db(q)
    case Row(row) => multiset{row}
    case From(sub) => Meaning(sub, db)
  }

  /** The chain folded from its oldest node by each node's operator. */
  function Meaning(t: Term, db: Database): multiset<Tuple>
    requires t.Term? && WellFormed(t)
  {
    if t.prior.None? then CoreMeaning(t.core, db)
    else Combine(t.op, Meaning(t.prior, db), CoreMeaning(t.core, db))
  }

  function ClearMultiValue(t: Term): Term {
    if t.None? then t else t.(flags := t.flags.(multiValue := false))
  }

  function MarkCompound(t: Term): Term {
    if t.None? then t else t.(prior := MarkCompound(t.prior), flags := t.flags.(compound := true))
  }

  /** The flags after parserDoubleLinkSelect: only a chain of two nodes or more is touched. */
  function Linked(t: Term): Term {
    if t.Term? && t.prior.Term? then MarkCompound(t) else t
  }

  /** parserDoubleLinkSelect reports too many terms. */
  predicate TooMany(t: Term, limit: int) {
    t.Term? && t.prior.Term? && !t.flags.multiValue && limit > 0 && Length(t) > limit
  }

  // ---------------------------------------------------------------- the reduce actions

  const NO_FLAGS := Flags(false, false, false)

  /** values ::= VALUES LP nexprlist RP */
  function FirstRow(row: Tuple): Term {
    Term(None, Select, NO_FLAGS.(values := true), Row(row))
  }

  /** values ::= values COMMA LP exprlist RP */
  function NextRow(left: Term, row: Tuple): Term {
    Term(ClearMultiValue(left), All, Flags(true, true, false), Row(row))
  }

  /** A right operand that is itself a chain becomes the FROM term of a new node. */
  function Wrapped(right: Term): Term
    requires right.Term?
  {
    if right.prior.Term? then Term(None, Select, NO_FLAGS, From(Linked(right))) else right
  }

  /** selectnowith ::= selectnowith multiselect_op oneselect */
  function Joined(left: Term, op: Op, right: Term): Term
    requires right.Term?
  {
    var r := Wrapped(right);
    Term(ClearMultiValue(left), op, r.flags.(multiValue := false), r.core)
  }

  function BuiltRows(rows: seq<Tuple>): Term
    requires |rows| > 0
  {
    if |rows| == 1 then FirstRow(rows[0]) else NextRow(BuiltRows(rows[..|rows| - 1]), rows[|rows| - 1])
  }

  function BuiltOne(o: One): (t: Term)
    requires OneOk(o)
    ensures t.Term?
  {
    match o
    case Query(q) => Term(None, Select, NO_FLAGS, Core.Query(q))
    case Values(rows) => BuiltRows(rows)
  }

  /** The chain when `select ::= with selectnowith` is about to be reduced. */
  function Built(s: Source): Term
    requires SourceOk(s)
  {
    match s
    case Single(o) => BuiltOne(o)
    case Compound(l, op, o) => Joined(Built(l), op, BuiltOne(o))
  }

  // ---------------------------------------------------------------- flags do not change the meaning

  lemma ClearKeepsMeaning(t: Term, db: Database)
    requires t.Term? && WellFormed(t)
    ensures WellFormed(ClearMultiValue(t)) && Meaning(ClearMultiValue(t), db) == Meaning(t, db)
    ensures Length(ClearMultiValue(t)) == Length(t)
  {
  }

  lemma {:induction false} MarkKeepsMeaning(t: Term, db: Database)
    requires t.Term? && WellFormed(t)
    ensures WellFormed(MarkCompound(t)) && Meaning(MarkCompound(t), db) == Meaning(t, db)
    ensures Length(MarkCompound(t)) == Length(t)
  {
    if t.prior.Term? {
      MarkKeepsMeaning(t.prior, db);
    }
  }

  /** Linking changes no meaning and no length. */
  lemma LinkKeepsMeaning(t: Term, db: Database)
    requires t.Term? && WellFormed(t)
    ensures WellFormed(Linked(t)) && Meaning(Linked(t), db) == Meaning(t, db) && Length(Linked(t)) == Length(t)
  {
    MarkKeepsMeaning(t, db);
  }

  // ---------------------------------------------------------------- VALUES

  /** The rows of a VALUES clause, one node each; the head is marked as soon as there are two. */
  lemma {:induction false} RowsAreBuilt(rows: seq<Tuple>, db: Database)
    requires |rows| > 0
    ensures WellFormed(BuiltRows(rows)) && Meaning(BuiltRows(rows), db) == multiset(rows)
    ensures Length(BuiltRows(rows)) == |rows|
    ensures BuiltRows(rows).flags.multiValue <==> |rows| > 1
    ensures BuiltRows(rows).prior.Term? <==> |rows| > 1
  {
    var n := |rows| - 1;
    assert rows == rows[..n] + [rows[n]];
    if n > 0 {
      RowsAreBuilt(rows[..n], db);
      ClearKeepsMeaning(BuiltRows(rows[..n]), db);
    }
  }

  lemma OneIsBuilt(o: One, db: Database)
    requires OneOk(o)
    ensures WellFormed(BuiltOne(o)) && Meaning(BuiltOne(o), db) == OneMeaning(o, db)
    ensures Length(BuiltOne(o)) == SourceTerms(Single(o))
    ensures BuiltOne(o).flags.multiValue <==> BuiltOne(o).prior.Term?
  {
    if o.Values? {
      RowsAreBuilt(o.rows, db);
    }
  }

  // ---------------------------------------------------------------- whole compounds

  lemma WrapKeepsMeaning(t: Term, db: Database)
    requires t.Term? && WellFormed(t)
    ensures WellFormed(Wrapped(t)) && Wrapped(t).prior.None? && Meaning(Wrapped(t), db) == Meaning(t, db)
  {
    LinkKeepsMeaning(t, db);
  }

  /** One more operator: the right operand is taken whole, whatever chain it was. */
  lemma JoinMeans(left: Term, op: Op, right: Term, db: Database)
    requires left.Term? && right.Term? && WellFormed(left) && WellFormed(right) && op != Select
    ensures WellFormed(Joined(left, op, right)) && Length(Joined(left, op, right)) == Length(left) + 1
    ensures !Joined(left, op, right).flags.multiValue && !Joined(left, op, right).prior.flags.multiValue
    ensures Meaning(Joined(left, op, right), db) == Combine(op, Meaning(left, db), Meaning(right, db))
  {
    ClearKeepsMeaning(left, db);
    WrapKeepsMeaning(right, db);
  }

  lemma {:induction false} CompoundIsBuilt(s: Source, db: Database)
    requires SourceOk(s)
    ensures Built(s).Term? && WellFormed(Built(s)) && Meaning(Built(s), db) == SourceMeaning(s, db)
    ensures Length(Built(s)) == SourceTerms(s)
    ensures Built(s).flags.multiValue <==> s.Single? && s.one.Values? && |s.one.rows| > 1
  {
    match s
    case Single(o) =>
      OneIsBuilt(o, db);
      if o.Values? {
        RowsAreBuilt(o.rows, db);
      }
    case Compound(l, op, o) =>
      CompoundIsBuilt(l, db);
      OneIsBuilt(o, db);
      JoinMeans(Built(l), op, BuiltOne(o), db);
  }

  /** The finished chain means what the source means. */
  lemma CompoundMeaningIsPreserved(s: Source, db: Database)
    requires SourceOk(s)
    ensures Built(s).Term? && WellFormed(Linked(Built(s))) && Linked(Built(s)).Term?
    ensures Meaning(Linked(Built(s)), db) == SourceMeaning(s, db)
  {
    CompoundIsBuilt(s, db);
    LinkKeepsMeaning(Built(s), db);
  }

  // ---------------------------------------------------------------- what the flags say

  /** A chain of rows from VALUES, joined by UNION ALL: what SF_MultiValue promises to multiSelectValues. */
  predicate AllRows(t: Term) {
    t.Term? ==>
      t.core.Row? && t.flags.values && t.op == (if t.prior.None? then Select else All) && AllRows(t.prior)
  }

  /** The rows of a chain, oldest first. */
  function RowsOf(t: Term): seq<Tuple> {
    if t.None? then [] else RowsOf(t.prior) + if t.core.Row? then [t.core.row] else []
  }

  /**
    SF_Values on exactly the rows; SF_MultiValue on newest nodes only, and only on chains of rows; and inside, where
    all is finished, such chains and nothing else.
   */
  predicate FlagsStarted(t: Term, newest: bool)
    decreases t, 1
  {
    t.Term? ==>
      && (t.flags.values <==> t.core.Row?)
      && (t.flags.multiValue ==> newest && t.prior.Term? && AllRows(t))
      && (t.core.From? ==> t.core.sub.Term? && t.core.sub.flags.multiValue && FlagsFinished(t.core.sub))
      && FlagsStarted(t.prior, false)
  }

  /** SF_Compound on every node of a chain of two or more, and not on a single node. */
  predicate CompoundOn(t: Term, on: bool) {
    t.Term? ==> t.flags.compound == on && CompoundOn(t.prior, on)
  }

  /** The flags of a chain that is done with. */
  predicate FlagsFinished(t: Term)
    decreases t, 2
  {
    FlagsStarted(t, true) && CompoundOn(t, t.Term? && t.prior.Term?)
  }

  lemma {:induction false} MarkedFlags(t: Term, newest: bool)
    requires FlagsStarted(t, newest)
    ensures FlagsStarted(MarkCompound(t), newest) && CompoundOn(MarkCompound(t), true)
    ensures AllRows(t) ==> AllRows(MarkCompound(t))
    ensures RowsOf(MarkCompound(t)) == RowsOf(t)
    ensures t.Term? <==> MarkCompound(t).Term?
  {
    hide FlagsFinished;
    if t.Term? {
      MarkedFlags(t.prior, false);
    }
  }

  lemma LinkedFlags(t: Term)
    requires FlagsStarted(t, true) && CompoundOn(t, false)
    ensures FlagsFinished(Linked(t)) && RowsOf(Linked(t)) == RowsOf(t)
  {
    MarkedFlags(t, true);
    if t.Term? {
      MarkedFlags(t.prior, false);
    }
  }

  lemma ClearedFlags(t: Term)
    requires FlagsStarted(t, true) && CompoundOn(t, false)
    ensures FlagsStarted(ClearMultiValue(t), false) && CompoundOn(ClearMultiValue(t), false)
    ensures AllRows(t) ==> AllRows(ClearMultiValue(t))
    ensures RowsOf(ClearMultiValue(t)) == RowsOf(t)
  {
  }

  lemma NextRowFlags(t: Term, row: Tuple)
    requires t.Term? && AllRows(t) && FlagsStarted(t, true) && CompoundOn(t, false)
    ensures var u := NextRow(t, row);
      AllRows(u) && FlagsStarted(u, true) && CompoundOn(u, false) && RowsOf(u) == RowsOf(t) + [row]
  {
    ClearedFlags(t);
  }

  /** The rows of a VALUES clause stay in order, and the flags of its chain are as multiSelectValues expects them. */
  lemma {:induction false} RowsInOrder(rows: seq<Tuple>)
    requires |rows| > 0
    ensures RowsOf(BuiltRows(rows)) == rows && AllRows(BuiltRows(rows))
    ensures FlagsStarted(BuiltRows(rows), true) && CompoundOn(BuiltRows(rows), false)
  {
    var n := |rows| - 1;
    if n == 0 {
      assert rows == [rows[0]];
    } else {
      hide FlagsStarted, CompoundOn, AllRows, RowsOf, NextRow;
      RowsInOrder(rows[..n]);
      NextRowFlags(BuiltRows(rows[..n]), rows[n]);
      assert rows == rows[..n] + [rows[n]];
    }
  }

  lemma WrappedFlags(t: Term)
    requires t.Term? && FlagsStarted(t, true) && CompoundOn(t, false) && (t.prior.Term? ==> t.flags.multiValue)
    ensures var r := Wrapped(t);
      && r.prior.None? && FlagsStarted(r.(flags := r.flags.(multiValue := false)), false) && !r.flags.compound
  {
    hide FlagsFinished;
    LinkedFlags(t);
    if t.prior.Term? {
      MarkedFlags(t.prior, false);
    }
  }

  lemma JoinedFlags(left: Term, op: Op, right: Term)
    requires right.Term? && FlagsStarted(left, true) && CompoundOn(left, false)
    requires FlagsStarted(right, true) && CompoundOn(right, false) && (right.prior.Term? ==> right.flags.multiValue)
    ensures FlagsStarted(Joined(left, op, right), true) && CompoundOn(Joined(left, op, right), false)
  {
    hide FlagsFinished;
    ClearedFlags(left);
    WrappedFlags(right);
  }

  lemma OneFlags(o: One)
    requires OneOk(o)
    ensures FlagsStarted(BuiltOne(o), true) && CompoundOn(BuiltOne(o), false)
  {
    if o.Values? {
      RowsInOrder(o.rows);
    }
  }

  lemma {:induction false} StartedFlags(s: Source)
    requires SourceOk(s)
    ensures FlagsStarted(Built(s), true) && CompoundOn(Built(s), false)
  {
    hide FlagsStarted, CompoundOn;
    match s
    case Single(o) => OneFlags(o);
    case Compound(l, op, o) =>
      StartedFlags(l);
      OneFlags(o);
      OneIsBuilt(o, q => multiset{});
      JoinedFlags(Built(l), op, BuiltOne(o));
  }

  /** In a finished compound every flag at every depth says what it should. */
  lemma FlagsAreRight(s: Source)
    requires SourceOk(s)
    ensures FlagsFinished(Linked(Built(s)))
    ensures s.Single? && s.one.Values? ==> RowsOf(Linked(Built(s))) == s.one.rows
  {
    StartedFlags(s);
    LinkedFlags(Built(s));
    if s.Single? && s.one.Values? {
      RowsInOrder(s.one.rows);
    }
  }

  // ---------------------------------------------------------------- the term limit

  /** The limit bites on exactly the compounds with a set operator and too many terms. */
  lemma LimitIsEnforced(s: Source, limit: int)
    requires SourceOk(s)
    ensures TooMany(Built(s), limit) <==> s.Compound? && limit > 0 && SourceTerms(s) > limit
  {
    CompoundIsBuilt(s, q => multiset{});
    if s.Compound? {
      AtLeastOneTerm(s.left);
    }
  }

  lemma {:induction false} AtLeastOneTerm(s: Source)
    requires SourceOk(s)
    ensures Built(s).Term? && SourceTerms(s) >= 1
  {
    match s
    case Single(_) =>
    case Compound(l, _, _) => AtLeastOneTerm(l);
  }

  /** A right operand never exceeds it, however many rows it has. */
  lemma RightOperandHasNoLimit(o: One, limit: int)
    requires OneOk(o)
    ensures !TooMany(BuiltOne(o), limit)
  {
    OneIsBuilt(o, q => multiset{});
  }

  /** Without the wrapper node the older rows of a right operand would be lost. */
  lemma OverwritingLosesRows()
    ensures var right := BuiltRows([[2], [3]]);
      var overwritten := Term(FirstRow([1]), Union, right.flags, right.core);
      var meant := Compound(Single(Values([[1]])), Union, Values([[2], [3]]));
      [2] in SourceMeaning(meant, q => multiset{}) && [2] !in Meaning(overwritten, q => multiset{})
  {
    var db: Database := q => multiset{};
    var right := BuiltRows([[2], [3]]);
    assert right.core == Row([3]);
    var overwritten := Term(FirstRow([1]), Union, right.flags, right.core);
    assert Meaning(overwritten, db) == Distinct(multiset{[1]} + multiset{[3]});
  }
}
