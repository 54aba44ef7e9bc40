/**
  The reduce actions for compound SELECT and VALUES as they are carried out: SELECT nodes on the heap whose
  pPrior, pNext, op and selFlags are overwritten in place.  Each action is proved against its counterpart on
  values in CompoundSelect.
 */
module SelectBuilder {
  import opened CompoundSelect

  /** The FROM clause of a node that wraps a chain holds a pointer to it. */
  datatype Body = Plain(q: nat) | Row(row: Tuple) | From(sub: Select)

  class Select {
    var op: Op
    var pPrior: Select?
    var pNext: Select?
    var selFlags: Flags
    const body: Body

    /** sqlite3SelectNew */
    constructor (body: Body, selFlags: Flags)
      ensures this.body == body && this.selFlags == selFlags
      ensures op == Op.Select && pPrior == null && pNext == null
    {
      this.body, this.selFlags := body, selFlags;
      op, pPrior, pNext := Op.Select, null, null;
    }
  }

  /** What the actions change in the parsing context and its connection. */
  class Parse {
    const mxSelect: int
    var hasCompound: bool
    var nErr: nat

    // how many more nodes can be made before memory runs out; it stays so, as db->mallocFailed does
    var memory: nat
    var mallocFailed: bool

    // the nodes ever made, and those freed again
    ghost var made: set<Select>
    ghost var freed: set<Select>

    constructor (mxSelect: int, memory: nat)
      ensures this.mxSelect == mxSelect && this.memory == memory && !hasCompound && nErr == 0 && !mallocFailed
      ensures Ok() && Live() == {}
    {
      this.mxSelect, hasCompound, nErr, this.memory, mallocFailed := mxSelect, false, 0, memory, false;
      made, freed := {}, {};
    }

    ghost predicate Ok()
      reads this
    {
      freed <= made
    }

    /** The nodes that are not yet freed. */
    ghost function Live(): set<Select>
      reads this
    {
      made - freed
    }

    /** sqlite3DbFree: no node is freed twice. */
    method DbFree(p: Select)
      requires Ok() && p in Live()
      modifies this`freed
      ensures Ok() && Live() == old(Live()) - {p}
    {
      freed := freed + {p};
    }
  }

  // ---------------------------------------------------------------- what a pointer leads to

  /** The nodes behind a pointer: p first, then what its pPrior leads to, and what its FROM leads to. */
  datatype Chain = Nil | Cell(p: Select, prior: Chain, sub: Chain)

  function Nodes(c: Chain): set<Select> {
    if c.Nil? then {} else {c.p} + Nodes(c.prior) + Nodes(c.sub)
  }

  /** The nodes on the pPrior path. */
  function Spine(c: Chain): seq<Select> {
    if c.Nil? then [] else [c.p] + Spine(c.prior)
  }

  /** The fields of a node that say what it means; pNext is kept apart. */
  datatype Fields = Fields(op: Op, pPrior: Select?, selFlags: Flags)

  type Memory = map<Select, Fields>

  function Read(n: Select): Fields
    reads n
  {
    Fields(n.op, n.pPrior, n.selFlags)
  }

  ghost function Now(s: set<Select>): Memory
    reads s
  {
    map n | n in s :: Read(n)
  }

  /** In this memory the pointer leads to exactly these nodes, and no node is reached twice. */
  ghost predicate Holds(c: Chain, head: Select?, m: Memory) {
    match c
    case Nil => head == null
    case Cell(p, prior, sub) =>
      && head == p && p in m && Holds(prior, m[p].pPrior, m)
      && (if p.body.From? then sub.Cell? && Holds(sub, p.body.sub, m) else sub.Nil?)
      && p !in Nodes(prior) && p !in Nodes(sub) && Nodes(prior) !! Nodes(sub)
  }

  /** The chain as a value. */
  ghost function View(c: Chain, head: Select?, m: Memory): Term
    requires Holds(c, head, m)
    decreases c
  {
    match c
    case Nil => Term.None
    case Cell(p, prior, sub) =>
      Term(View(prior, m[p].pPrior, m), m[p].op, m[p].selFlags,
        match p.body
        case Plain(q) => Core.Query(q)
        case Row(row) => Core.Row(row)
        case From(s) => Core.From(View(sub, s, m)))
  }

  /** The pointer leads to these nodes. */
  ghost predicate Reaches(c: Chain, head: Select?)
    reads Nodes(c)
  {
    Holds(c, head, Now(Nodes(c)))
  }

  /** The pNext of each node. */
  ghost function Nexts(s: set<Select>): map<Select, Select?>
    reads s
  {
    map n | n in s :: n.pNext
  }

  /** By these pNext pointers each node leads to the one before it, and the first to none. */
  ghost predicate LinkedBack(s: seq<Select>, nx: map<Select, Select?>) {
    && (forall n :: n in s ==> n in nx)
    && forall i {:trigger nx[s[i]]} :: 0 <= i < |s| ==> nx[s[i]] == if i == 0 then null else s[i - 1]
  }

  /** A chain of two nodes or more is doubly linked, and so is every one inside it. */
  ghost predicate AllLinked(c: Chain, nx: map<Select, Select?>)
    decreases c, 1
  {
    (|Spine(c)| > 1 ==> LinkedBack(Spine(c), nx)) && SubsLinked(c, nx)
  }

  /** Every chain of two nodes or more in a FROM clause is doubly linked, at any depth. */
  ghost predicate SubsLinked(c: Chain, nx: map<Select, Select?>)
    decreases c, 0
  {
    c.Cell? ==> SubsLinked(c.prior, nx) && AllLinked(c.sub, nx)
  }

  /**
    The pointer leads to these nodes and stands for this value, and the chains inside, which are finished, are doubly
    linked.
   */
  ghost predicate Is(c: Chain, head: Select?, t: Term)
    reads Nodes(c)
  {
    Reaches(c, head) && View(c, head, Now(Nodes(c))) == t && SubsLinked(c, Nexts(Nodes(c)))
  }

  /** A chain that is done with: doubly linked at every depth. */
  ghost predicate Finished(c: Chain, head: Select?, t: Term)
    reads Nodes(c)
  {
    Is(c, head, t) && AllLinked(c, Nexts(Nodes(c)))
  }

  /** What the node yields by itself; a FROM clause holds a finished chain. */
  ghost predicate BodyIs(body: Body, sub: Chain, core: Core)
    reads Nodes(sub)
  {
    match body
    case Plain(q) => sub == Nil && core == Core.Query(q)
    case Row(row) => sub == Nil && core == Core.Row(row)
    case From(s) => core.From? && Finished(sub, s, core.sub)
  }

  /** Walking pNext from any node undoes pPrior, and nothing follows the newest. */
  ghost predicate DoublyLinked(s: seq<Select>)
    reads s
  {
    forall i {:trigger s[i].pNext} :: 0 <= i < |s| ==> s[i].pNext == if i == 0 then null else s[i - 1]
  }

  lemma {:induction false} SpineIsReached(c: Chain)
    ensures forall n :: n in Spine(c) ==> n in Nodes(c)
  {
    if c.Cell? {
      SpineIsReached(c.prior);
    }
  }

  /** Following pPrior from the head runs through these nodes and ends. */
  ghost predicate IsPath(s: seq<Select>, head: Select?, m: Memory) {
    && head == (if |s| == 0 then null else s[0])
    && (forall i :: 0 <= i < |s| ==> s[i] in m)
    && (forall i {:trigger m[s[i]]} :: 0 <= i < |s| ==> m[s[i]].pPrior == if i + 1 < |s| then s[i + 1] else null)
    && (forall i, j :: 0 <= i < j < |s| ==> s[i] != s[j])
  }

  lemma PathExtends(p: Select, rest: seq<Select>, m: Memory)
    requires p in m && p !in rest && IsPath(rest, m[p].pPrior, m)
    ensures IsPath([p] + rest, p, m)
  {
    var s := [p] + rest;
    forall i | 0 <= i < |s|
      ensures s[i] in m && m[s[i]].pPrior == if i + 1 < |s| then s[i + 1] else null
    {
      if i > 0 {
        assert s[i] == rest[i - 1];
      }
    }
    forall i, j | 0 <= i < j < |s|
      ensures s[i] != s[j]
    {
      assert s[j] == rest[j - 1] && rest[j - 1] in rest;
      assert i > 0 ==> s[i] == rest[i - 1];
    }
  }

  lemma {:induction false} SpineIsPath(c: Chain, head: Select?, m: Memory)
    requires Holds(c, head, m)
    ensures IsPath(Spine(c), head, m) && |Spine(c)| == Length(View(c, head, m))
  {
    hide IsPath;
    if c.Nil? {
      EmptyPath(m);
    } else {
      SpineIsPath(c.prior, m[c.p].pPrior, m);
      SpineIsReached(c.prior);
      PathExtends(c.p, Spine(c.prior), m);
    }
  }

  lemma EmptyPath(m: Memory)
    ensures IsPath([], null, m)
  {
  }

  /** Only the nodes of a chain matter to it. */
  lemma {:induction false} OnlyNodesMatter(c: Chain, head: Select?, m: Memory, k: Memory)
    requires Holds(c, head, m) && (forall n :: n in Nodes(c) ==> n in k && n in m && k[n] == m[n])
    ensures Holds(c, head, k) && View(c, head, k) == View(c, head, m)
    decreases c
  {
    if c.Cell? {
      OnlyNodesMatter(c.prior, m[c.p].pPrior, m, k);
      if c.p.body.From? {
        OnlyNodesMatter(c.sub, c.p.body.sub, m, k);
      }
    }
  }

  /** Only the nodes of a chain matter to how it is linked. */
  lemma {:induction false} SameLinks(c: Chain, nx: map<Select, Select?>, mx: map<Select, Select?>)
    requires forall n :: n in Nodes(c) && n in nx ==> n in mx && mx[n] == nx[n]
    ensures SubsLinked(c, nx) ==> SubsLinked(c, mx)
    ensures AllLinked(c, nx) ==> AllLinked(c, mx)
    decreases c
  {
    hide LinkedBack;
    SameBack(c, nx, mx);
    if c.Cell? {
      SameLinks(c.prior, nx, mx);
      SameLinks(c.sub, nx, mx);
    }
  }

  lemma SameBack(c: Chain, nx: map<Select, Select?>, mx: map<Select, Select?>)
    requires forall n :: n in Nodes(c) && n in nx ==> n in mx && mx[n] == nx[n]
    ensures LinkedBack(Spine(c), nx) ==> LinkedBack(Spine(c), mx)
  {
    hide Nodes, Spine;
    SpineIsReached(c);
    var s := Spine(c);
    if LinkedBack(s, nx) {
      forall i | 0 <= i < |s|
        ensures s[i] in mx && mx[s[i]] == if i == 0 then null else s[i - 1]
      {
        assert s[i] in nx && mx[s[i]] == nx[s[i]];
      }
    }
  }

  lemma {:induction false} OnTheirOwn(c: Chain, nx: map<Select, Select?>)
    requires forall n :: n in Nodes(c) && n in nx ==> nx[n] == n.pNext
    ensures SubsLinked(c, nx) ==> SubsLinked(c, Nexts(Nodes(c)))
    ensures AllLinked(c, nx) ==> AllLinked(c, Nexts(Nodes(c)))
  {
    SameLinks(c, nx, Nexts(Nodes(c)));
  }

  /** And only those inside it matter to what is inside. */
  lemma {:induction false} SpineIsFree(c: Chain, head: Select?, m: Memory, nx: map<Select, Select?>,
                                       mx: map<Select, Select?>)
    requires Holds(c, head, m) && SubsLinked(c, nx)
    requires forall n :: n in Nodes(c) && n !in Spine(c) && n in nx ==> n in mx && mx[n] == nx[n]
    ensures SubsLinked(c, mx)
    decreases c
  {
    hide AllLinked;
    if c.Cell? {
      SpineIsReached(c.prior);
      SpineIsFree(c.prior, m[c.p].pPrior, m, nx, mx);
      SameLinks(c.sub, nx, mx);
    }
  }

  /** A node, the chain before it and what is in its FROM clause make a chain. */
  lemma TopIs(p: Select, c: Chain, sub: Chain, t: Term, core: Core)
    requires Is(c, p.pPrior, t) && BodyIs(p.body, sub, core)
    requires p !in Nodes(c) && p !in Nodes(sub) && Nodes(c) !! Nodes(sub)
    ensures var d := Cell(p, c, sub);
      Nodes(d) == {p} + Nodes(c) + Nodes(sub) && Is(d, p, Term(t, p.op, p.selFlags, core))
  {
    hide SubsLinked;
    var d := Cell(p, c, sub);
    TopIsLinked(p, c, sub, core);
    OnlyNodesMatter(c, p.pPrior, Now(Nodes(c)), Now(Nodes(d)));
    if p.body.From? {
      OnlyNodesMatter(sub, p.body.sub, Now(Nodes(sub)), Now(Nodes(d)));
    }
  }

  lemma TopIsLinked(p: Select, c: Chain, sub: Chain, core: Core)
    requires SubsLinked(c, Nexts(Nodes(c))) && BodyIs(p.body, sub, core)
    ensures SubsLinked(Cell(p, c, sub), Nexts(Nodes(Cell(p, c, sub))))
  {
    var nx := Nexts(Nodes(Cell(p, c, sub)));
    SameLinks(c, Nexts(Nodes(c)), nx);
    SameLinks(sub, Nexts(Nodes(sub)), nx);
    NothingToLink(nx);
  }

  lemma NothingToLink(nx: map<Select, Select?>)
    ensures AllLinked(Nil, nx) && SubsLinked(Nil, nx)
  {
  }

  /** And every chain is made so. */
  lemma PartsAre(d: Chain, p: Select, u: Term)
    requires Is(d, p, u)
    ensures d.Cell? && d.p == p && u.Term? && p.op == u.op && p.selFlags == u.flags
    ensures Is(d.prior, p.pPrior, u.prior) && BodyIs(p.body, d.sub, u.core)
    ensures Nodes(d) == {p} + Nodes(d.prior) + Nodes(d.sub)
    ensures p !in Nodes(d.prior) && p !in Nodes(d.sub) && Nodes(d.prior) !! Nodes(d.sub)
  {
    hide SubsLinked, AllLinked;
    PartsAreLinked(d);
    OnlyNodesMatter(d.prior, p.pPrior, Now(Nodes(d)), Now(Nodes(d.prior)));
    if p.body.From? {
      OnlyNodesMatter(d.sub, p.body.sub, Now(Nodes(d)), Now(Nodes(d.sub)));
    }
  }

  lemma PartsAreLinked(d: Chain)
    requires d.Cell? && SubsLinked(d, Nexts(Nodes(d)))
    ensures SubsLinked(d.prior, Nexts(Nodes(d.prior))) && AllLinked(d.sub, Nexts(Nodes(d.sub)))
    ensures SubsLinked(d.sub, Nexts(Nodes(d.sub)))
  {
    OnTheirOwn(d.prior, Nexts(Nodes(d)));
    OnTheirOwn(d.sub, Nexts(Nodes(d)));
  }

  lemma EmptyIs(c: Chain, head: Select?, t: Term)
    requires Is(c, head, t)
    ensures head == null <==> c == Nil
    ensures head == null <==> t == None
  {
  }

  lemma NothingIsNone()
    ensures Is(Nil, null, None) && Nodes(Nil) == {}
  {
  }

  lemma NowAllLinked(c: Chain)
    requires SubsLinked(c, Nexts(Nodes(c))) && (|Spine(c)| > 1 ==> DoublyLinked(Spine(c)))
    ensures AllLinked(c, Nexts(Nodes(c)))
  {
    SpineIsReached(c);
  }

  function SetCompound(f: Fields): Fields {
    f.(selFlags := f.selFlags.(compound := true))
  }

  /** Memory k has SF_Compound set on this node, and the rest as in m. */
  predicate Marked(n: Select, m: Memory, k: Memory) {
    n in m && n in k && k[n] == SetCompound(m[n])
  }

  /** Setting SF_Compound along the spine changes the value in just that. */
  lemma {:induction false} MarkedSpine(c: Chain, head: Select?, m: Memory, k: Memory)
    requires Holds(c, head, m) && (forall n :: n in Spine(c) ==> Marked(n, m, k))
    requires forall n :: n in Nodes(c) && n !in Spine(c) ==> n in m && n in k && k[n] == m[n]
    ensures Holds(c, head, k) && View(c, head, k) == MarkCompound(View(c, head, m))
    decreases c
  {
    if c.Cell? {
      assert c.p in Spine(c) && Marked(c.p, m, k);
      SpineIsReached(c.prior);
      MarkedSpine(c.prior, m[c.p].pPrior, m, k);
      if c.p.body.From? {
        OnlyNodesMatter(c.sub, c.p.body.sub, m, k);
      }
    }
  }

  lemma HeadOf(c: Chain, p: Select, t: Term)
    requires Is(c, p, t)
    ensures p in Nodes(c) && t.Term? && p.op == t.op && p.selFlags == t.flags
    ensures p.pPrior == null <==> t.prior == None
    ensures p.pPrior == null <==> c.prior == Nil
  {
    hide Is, BodyIs;
    PartsAre(c, p, t);
    EmptyIs(c.prior, p.pPrior, t.prior);
  }

  // ---------------------------------------------------------------- parserDoubleLinkSelect

  /** The loop: pNext is made the inverse of pPrior along the chain, whose nodes are counted. */
  method LinkBack(p: Select, ghost spine: seq<Select>, ghost m: Memory) returns (cnt: nat)
    requires IsPath(spine, p, m) && forall n :: n in spine ==> n in m && Read(n) == m[n]
    modifies spine
    ensures cnt == |spine| && DoublyLinked(spine)
    ensures forall n :: n in spine ==> n in m && Read(n) == SetCompound(m[n])
  {
    var pNext: Select? := null;
    var pLoop: Select? := p;
    cnt := 0;
    while pLoop != null
      invariant 0 <= cnt <= |spine|
      invariant pLoop == if cnt < |spine| then spine[cnt] else null
      invariant pNext == if cnt > 0 then spine[cnt - 1] else null
      invariant forall i {:trigger spine[i].pNext} :: 0 <= i < cnt ==>
        spine[i].pNext == if i == 0 then null else spine[i - 1]
      invariant forall i :: 0 <= i < cnt ==> Read(spine[i]) == SetCompound(m[spine[i]])
      invariant forall i :: cnt <= i < |spine| ==> Read(spine[i]) == m[spine[i]]
      decreases |spine| - cnt
    {
      assert Read(pLoop).pPrior == m[pLoop].pPrior;
      pLoop.pNext := pNext;
      pLoop.selFlags := pLoop.selFlags.(compound := true);
      assert Read(pLoop) == SetCompound(m[pLoop]);
      pNext, pLoop, cnt := pLoop, pLoop.pPrior, cnt + 1;
    }
  }

  lemma IsMeans(c: Chain, p: Select?, t: Term)
    requires Is(c, p, t)
    ensures Holds(c, p, Now(Nodes(c))) && View(c, p, Now(Nodes(c))) == t && SubsLinked(c, Nexts(Nodes(c)))
  {
  }

  /** What the loop leaves: m and nx are the memory and the pNext pointers before. */
  lemma SpineIsMarked(c: Chain, p: Select, t: Term, m: Memory, nx: map<Select, Select?>)
    requires Holds(c, p, m) && View(c, p, m) == t && SubsLinked(c, nx)
    requires forall n :: n in Spine(c) ==> n in m && Read(n) == SetCompound(m[n])
    requires forall n :: n in Nodes(c) && n !in Spine(c) ==> n in m && Read(n) == m[n] && n in nx && n.pNext == nx[n]
    ensures Is(c, p, MarkCompound(t))
  {
    hide SubsLinked, Holds, View;
    SpineIsReached(c);
    MarkedSpine(c, p, m, Now(Nodes(c)));
    SpineIsFree(c, p, m, nx, Nexts(Nodes(c)));
  }

  /** parserDoubleLinkSelect: a chain of two nodes or more is doubly linked and checked for length. */
  method DoubleLinkSelect(parse: Parse, p: Select, ghost c: Chain, ghost t: Term, ghost repr: set<Select>)
    requires Is(c, p, t) && repr == Nodes(c)
    modifies parse`nErr, repr
    ensures Is(c, p, Linked(t))
    ensures p.pPrior != null ==> DoublyLinked(Spine(c))
    ensures forall n :: n in repr && (p.pPrior == null || n !in Spine(c)) ==> unchanged(n)
    ensures parse.nErr == old(parse.nErr) + if TooMany(t, parse.mxSelect) then 1 else 0
  {
    hide IsPath, Spine, Nodes, SubsLinked, Holds, View, Is;
    ghost var m, nx := Now(repr), Nexts(repr);
    ghost var spine := Spine(c);
    IsMeans(c, p, t);
    SpineIsPath(c, p, m);
    SpineIsReached(c);
    HeadOf(c, p, t);
    if p.pPrior != null {
      var cnt := LinkBack(p, spine, m);
      SpineIsMarked(c, p, t, m, nx);
      if !p.selFlags.multiValue && parse.mxSelect > 0 && cnt > parse.mxSelect {
        parse.nErr := parse.nErr + 1;
      }
    }
  }

  // ---------------------------------------------------------------- the reduce actions

  lemma Parts(c: Chain, head: Select?)
    requires Reaches(c, head)
    ensures if head == null then c == Nil && Nodes(c) == {} else
      && c.Cell? && c.p == head && Reaches(c.prior, head.pPrior)
      && (if head.body.From? then Reaches(c.sub, head.body.sub) else c.sub == Nil && Nodes(c.sub) == {})
      && Nodes(c) == {head} + Nodes(c.sub) + Nodes(c.prior)
      && head !in Nodes(c.sub) && head !in Nodes(c.prior) && Nodes(c.sub) !! Nodes(c.prior)
  {
    if head != null {
      OnlyNodesMatter(c.prior, head.pPrior, Now(Nodes(c)), Now(Nodes(c.prior)));
      if head.body.From? {
        OnlyNodesMatter(c.sub, head.body.sub, Now(Nodes(c)), Now(Nodes(c.sub)));
      }
    }
  }

  /** sqlite3SelectDelete: frees every node that the pointer leads to, once. */
  method SelectDelete(parse: Parse, p: Select?, ghost c: Chain)
    requires parse.Ok() && Nodes(c) <= parse.Live() && Reaches(c, p)
    modifies parse`freed
    ensures parse.Ok() && parse.Live() == old(parse.Live()) - Nodes(c)
    decreases c
  {
    hide Reaches, Nodes;
    var q := p;
    ghost var d := c;
    while q != null
      invariant parse.Ok() && (d == c || d < c) && Nodes(d) <= Nodes(c) && Reaches(d, q)
      invariant parse.Live() == old(parse.Live()) - (Nodes(c) - Nodes(d))
      decreases d
    {
      Parts(d, q);
      var pPrior := q.pPrior;
      match q.body {
        case From(sub) => SelectDelete(parse, sub, d.sub);
        case _ =>
      }
      parse.DbFree(q);
      q, d := pPrior, d.prior;
    }
    Parts(d, q);
  }

  /** sqlite3SelectNew: null when memory has run out, and then what would have gone into the node is freed. */
  method SelectNew(parse: Parse, body: Body, selFlags: Flags, ghost sub: Chain) returns (p: Select?)
    requires parse.Ok() && Nodes(sub) <= parse.Live()
    requires if body.From? then Reaches(sub, body.sub) else sub.Nil?
    modifies parse`memory, parse`mallocFailed, parse`made, parse`freed
    ensures parse.Ok() && (p != null <==> old(parse.memory) > 0)
    ensures p != null ==> fresh(p) && p.body == body
    ensures p != null ==> Read(p) == Fields(Op.Select, null, selFlags) && p.pNext == null
    ensures p != null ==> parse.memory == old(parse.memory) - 1 && parse.mallocFailed == old(parse.mallocFailed)
                          && parse.Live() == old(parse.Live()) + {p}
    ensures p == null ==> parse.memory == 0 && parse.mallocFailed && parse.Live() == old(parse.Live()) - Nodes(sub)
  {
    p := null;
    if parse.memory > 0 {
      p := new Select(body, selFlags);
      parse.memory := parse.memory - 1;
      parse.made := parse.made + {p};
    } else {
      parse.mallocFailed := true;
      match body {
        case From(s) => SelectDelete(parse, s, sub);
        case _ =>
      }
    }
  }

  /** values ::= VALUES LP nexprlist RP */
  method ReduceFirstRow(parse: Parse, row: Tuple) returns (p: Select?, ghost c: Chain)
    requires parse.Ok()
    modifies parse`memory, parse`mallocFailed, parse`made, parse`freed
    ensures parse.Ok() && (p != null <==> old(parse.memory) > 0)
    ensures p != null ==> Nodes(c) == {p} && fresh(p) && Is(c, p, FirstRow(row))
    ensures p != null ==> parse.memory == old(parse.memory) - 1 && parse.mallocFailed == old(parse.mallocFailed)
    ensures p == null ==> c == Nil && parse.memory == 0 && parse.mallocFailed
    ensures parse.Live() == old(parse.Live()) + Nodes(c)
  {
    hide Is, Nodes;
    NothingIsNone();
    p := SelectNew(parse, Body.Row(row), NO_FLAGS.(values := true), Nil);
    c := Nil;
    if p != null {
      c := Cell(p, Nil, Nil);
      TopIs(p, Nil, Nil, None, Core.Row(row));
    }
  }

  /** if( ALWAYS(pLeft) ) pLeft->selFlags &= ~SF_MultiValue */
  method ClearLeft(pLeft: Select?, ghost c: Chain, ghost t: Term, ghost repr: set<Select>)
    requires Is(c, pLeft, t) && repr == Nodes(c)
    modifies repr
    ensures Is(c, pLeft, ClearMultiValue(t))
  {
    hide Is, BodyIs, Nodes;
    EmptyIs(c, pLeft, t);
    if pLeft != null {
      PartsAre(c, pLeft, t);
      pLeft.selFlags := pLeft.selFlags.(multiValue := false);
      TopIs(pLeft, c.prior, c.sub, t.prior, t.core);
    }
  }

  /** values ::= values COMMA LP exprlist RP: without memory the rows so far are kept. */
  method ReduceNextRow(parse: Parse, pLeft: Select?, row: Tuple,
        ghost c: Chain, ghost t: Term, ghost repr: set<Select>)
      returns (p: Select?, ghost d: Chain)
    requires Is(c, pLeft, t) && repr == Nodes(c) && parse.Ok() && repr <= parse.Live()
    modifies parse`memory, parse`mallocFailed, parse`made, parse`freed, repr
    ensures parse.Ok() && parse.Live() == old(parse.Live()) - repr + Nodes(d)
    ensures old(parse.memory) > 0 ==>
      && p != null && fresh(p) && Nodes(d) == repr + {p} && Is(d, p, NextRow(t, row))
      && parse.memory == old(parse.memory) - 1 && parse.mallocFailed == old(parse.mallocFailed)
    ensures old(parse.memory) == 0 ==>
      p == pLeft && d == c && Is(c, p, ClearMultiValue(t)) && parse.memory == 0 && parse.mallocFailed
  {
    hide Is, Nodes;
    NothingIsNone();
    var pRight := SelectNew(parse, Body.Row(row), Flags(true, true, false), Nil);
    ClearLeft(pLeft, c, t, repr);
    if pRight != null {
      pRight.op := Op.All;
      pRight.pPrior := pLeft;
      p, d := pRight, Cell(pRight, c, Nil);
      TopIs(p, c, Nil, ClearMultiValue(t), Core.Row(row));
    } else {
      p, d := pLeft, c;
    }
  }

  /** A right operand that is a chain is doubly linked and becomes the FROM clause of a new node. */
  method WrapRight(parse: Parse, pRhs: Select, ghost c: Chain, ghost t: Term, ghost repr: set<Select>)
      returns (p: Select?, ghost d: Chain)
    requires Is(c, pRhs, t) && t.Term? && repr == Nodes(c) && parse.Ok() && repr <= parse.Live()
    modifies parse`nErr, parse`memory, parse`mallocFailed, parse`made, parse`freed, repr
    ensures parse.Ok() && parse.Live() == old(parse.Live()) - repr + Nodes(d)
    ensures old(parse.memory) > 0 || t.prior.None? ==>
      && p != null && p.pPrior == null && Is(d, p, Wrapped(t)) && d.Cell? && d.prior.Nil?
      && Nodes(d) == repr + (if t.prior.Term? then {p} else {}) && (if t.prior.Term? then fresh(p) else p == pRhs)
      && parse.memory == old(parse.memory) - (if t.prior.Term? then 1 else 0)
      && parse.mallocFailed == old(parse.mallocFailed)
    ensures old(parse.memory) == 0 && t.prior.Term? ==>
      p == null && d == Nil && parse.memory == 0 && parse.mallocFailed
    ensures parse.nErr == old(parse.nErr) + if TooMany(t, parse.mxSelect) then 1 else 0
  {
    hide Is, Nodes, Linked, Reaches, AllLinked;
    d := Nil;
    NothingIsNone();
    HeadOf(c, pRhs, t);
    if pRhs.pPrior != null {
      DoubleLinkSelect(parse, pRhs, c, t, repr);
      NowFinished(c, pRhs, Linked(t));
      p := SelectNew(parse, Body.From(pRhs), NO_FLAGS, c);
      if p != null {
        d := Cell(p, Nil, c);
        TopIs(p, Nil, c, None, Core.From(Linked(t)));
      }
    } else {
      p, d := pRhs, c;
    }
  }

  lemma NowFinished(c: Chain, p: Select, t: Term)
    requires Is(c, p, t) && DoublyLinked(Spine(c))
    ensures Finished(c, p, t) && Reaches(c, p)
  {
    NowAllLinked(c);
  }

  /** selectnowith ::= selectnowith multiselect_op oneselect: the whole left operand goes under the right one. */
  method ReduceCompound(parse: Parse, pLhs: Select?, op: Op, pRhs: Select?,
        ghost c: Chain, ghost t: Term, ghost leftRepr: set<Select>,
        ghost r: Chain, ghost u: Term, ghost rightRepr: set<Select>)
      returns (p: Select?, ghost d: Chain)
    requires Is(c, pLhs, t) && leftRepr == Nodes(c) && Is(r, pRhs, u) && rightRepr == Nodes(r)
    requires leftRepr !! rightRepr && parse.Ok() && leftRepr + rightRepr <= parse.Live()
    modifies parse, leftRepr, rightRepr
    ensures parse.Ok() && parse.Live() == old(parse.Live()) - leftRepr - rightRepr + Nodes(d)
    ensures u.Term? && (old(parse.memory) > 0 || u.prior.None?) ==>
      && p != null && Is(d, p, Joined(t, op, u))
      && Nodes(d) == leftRepr + rightRepr + (if u.prior.Term? then {p} else {})
      && (if u.prior.Term? then fresh(p) else p == pRhs)
      && parse.hasCompound == (old(parse.hasCompound) || op != All)
      && parse.memory == old(parse.memory) - (if u.prior.Term? then 1 else 0)
      && parse.mallocFailed == old(parse.mallocFailed)
    ensures u.None? || (old(parse.memory) == 0 && u.prior.Term?) ==>
      p == null && d == Nil && parse.hasCompound == old(parse.hasCompound) && parse.memory == old(parse.memory)
    ensures parse.mallocFailed == (old(parse.mallocFailed) || (u.Term? && u.prior.Term? && old(parse.memory) == 0))
    ensures parse.nErr == old(parse.nErr) + if TooMany(u, parse.mxSelect) then 1 else 0
  {
    hide Is, Nodes, Linked, Reaches;
    p, d := null, Nil;
    NothingIsNone();
    EmptyIs(r, pRhs, u);
    ghost var e := Nil;
    if pRhs != null {
      HeadOf(r, pRhs, u);
      p, e := WrapRight(parse, pRhs, r, u, rightRepr);
    }
    if p != null {
      p, d := PutUnder(parse, pLhs, op, p, c, t, leftRepr, e, Wrapped(u), Nodes(e));
    } else {
      IsReaches(c, pLhs, t);
      SelectDelete(parse, pLhs, c);
    }
  }

  lemma IsReaches(c: Chain, p: Select?, t: Term)
    requires Is(c, p, t)
    ensures Reaches(c, p)
  {
  }

  /** The node becomes the newest of the left chain. */
  method PutUnder(parse: Parse, pLhs: Select?, op: Op, pRhs: Select,
        ghost c: Chain, ghost t: Term, ghost leftRepr: set<Select>,
        ghost e: Chain, ghost u: Term, ghost rightRepr: set<Select>)
      returns (p: Select, ghost d: Chain)
    requires Is(c, pLhs, t) && leftRepr == Nodes(c) && Is(e, pRhs, u) && rightRepr == Nodes(e)
    requires leftRepr !! rightRepr && e.Cell? && e.prior.Nil? && u.Term?
    modifies parse`hasCompound, leftRepr, pRhs
    ensures p == pRhs && Nodes(d) == leftRepr + rightRepr
    ensures Is(d, p, Term(ClearMultiValue(t), op, u.flags.(multiValue := false), u.core))
    ensures parse.hasCompound == (old(parse.hasCompound) || op != All)
  {
    hide Is, BodyIs, Nodes;
    PartsAre(e, pRhs, u);
    NothingIsNone();
    p, d := pRhs, Cell(pRhs, c, e.sub);
    p.op := op;
    p.pPrior := pLhs;
    ClearLeft(pLhs, c, t, leftRepr);
    p.selFlags := p.selFlags.(multiValue := false);
    if op != All {
      parse.hasCompound := true;
    }
    TopIs(p, c, e.sub, ClearMultiValue(t), u.core);
  }

  lemma LinkedLength(t: Term)
    ensures Length(Linked(t)) == Length(t) && (Linked(t).Term? <==> t.Term?)
    ensures t.Term? ==> (Linked(t).prior == None <==> t.prior == None) && (Length(t) > 1 <==> t.prior.Term?)
  {
    if t.Term? {
      MarkedLength(t);
      assert t.prior.Term? ==> MarkCompound(t.prior).Term?;
    }
  }

  lemma {:induction false} MarkedLength(t: Term)
    ensures Length(MarkCompound(t)) == Length(t)
  {
    if t.Term? {
      MarkedLength(t.prior);
    }
  }

  /** select ::= with selectnowith */
  method ReduceSelect(parse: Parse, p: Select?, ghost c: Chain, ghost t: Term, ghost repr: set<Select>)
    requires Is(c, p, t) && repr == Nodes(c)
    modifies parse`nErr, repr
    ensures Finished(c, p, Linked(t)) && (Length(t) > 1 ==> DoublyLinked(Spine(c)))
    ensures parse.nErr == old(parse.nErr) + if TooMany(t, parse.mxSelect) then 1 else 0
  {
    hide Is, Nodes, Linked, AllLinked, DoublyLinked;
    LinkedLength(t);
    EmptyIs(c, p, t);
    if p != null {
      DoubleLinkSelect(parse, p, c, t, repr);
      HeadOf(c, p, Linked(t));
    }
    SpineLength(c, p, Linked(t));
    IsFinished(c, p, Linked(t));
  }

  lemma SpineLength(c: Chain, p: Select?, t: Term)
    requires Is(c, p, t)
    ensures |Spine(c)| == Length(t)
  {
    SpineIsPath(c, p, Now(Nodes(c)));
  }

  lemma IsFinished(c: Chain, p: Select?, t: Term)
    requires Is(c, p, t) && (|Spine(c)| > 1 ==> DoublyLinked(Spine(c)))
    ensures Finished(c, p, t)
  {
    NowAllLinked(c);
  }

  // ---------------------------------------------------------------- all reductions of a source text

  /** How many nodes a source text takes. */
  function OneNeeds(o: One): nat {
    match o
    case Query(_) => 1
    case Values(rows) => |rows|
  }

  function Needs(s: Source): nat {
    match s
    case Single(o) => OneNeeds(o)
    case Compound(l, _, o) => Needs(l) + OneNeeds(o) + if OneNeeds(o) > 1 then 1 else 0
  }

  /** The outcome of reductions that need n nodes, started with this much memory. */
  ghost predicate Ran(parse: Parse, n: nat, memory: nat, failed: bool)
    reads parse
  {
    && parse.memory == (if n <= memory then memory - n else 0)
    && parse.mallocFailed == (failed || memory < n)
  }

  method ParseRows(parse: Parse, rows: seq<Tuple>) returns (p: Select?, ghost c: Chain, ghost t: Term)
    requires |rows| > 0 && parse.Ok()
    modifies parse`memory, parse`mallocFailed, parse`made, parse`freed
    ensures parse.Ok() && parse.Live() == old(parse.Live()) + Nodes(c) && fresh(Nodes(c))
    ensures Is(c, p, t) && (|rows| <= old(parse.memory) ==> t == BuiltRows(rows))
    ensures Ran(parse, |rows|, old(parse.memory), old(parse.mallocFailed))
  {
    hide Is, Nodes;
    p, c := ReduceFirstRow(parse, rows[0]);
    NothingIsNone();
    t := if p == null then None else FirstRow(rows[0]);
    var i := 1;
    assert rows[..1] == [rows[0]];
    while i < |rows|
      invariant 1 <= i <= |rows| && parse.Ok() && parse.Live() == old(parse.Live()) + Nodes(c) && fresh(Nodes(c))
      invariant Is(c, p, t) && (i <= old(parse.memory) ==> t == BuiltRows(rows[..i]))
      invariant Ran(parse, i, old(parse.memory), old(parse.mallocFailed))
    {
      assert rows[..i + 1][..i] == rows[..i];
      ghost var grown := parse.memory > 0;
      p, c := ReduceNextRow(parse, p, rows[i], c, t, Nodes(c));
      t := if grown then NextRow(t, rows[i]) else ClearMultiValue(t);
      i := i + 1;
    }
    assert rows[..i] == rows;
  }

  method ParseOne(parse: Parse, o: One) returns (p: Select?, ghost c: Chain, ghost t: Term)
    requires OneOk(o) && parse.Ok()
    modifies parse`memory, parse`mallocFailed, parse`made, parse`freed
    ensures parse.Ok() && parse.Live() == old(parse.Live()) + Nodes(c) && fresh(Nodes(c))
    ensures Is(c, p, t) && (OneNeeds(o) <= old(parse.memory) ==> t == BuiltOne(o))
    ensures Ran(parse, OneNeeds(o), old(parse.memory), old(parse.mallocFailed))
  {
    hide Is, Nodes;
    match o
    case Query(q) =>
      NothingIsNone();
      p := SelectNew(parse, Plain(q), NO_FLAGS, Nil);
      c, t := Nil, None;
      if p != null {
        c, t := Cell(p, Nil, Nil), BuiltOne(o);
        TopIs(p, Nil, Nil, None, Core.Query(q));
      }
    case Values(rows) =>
      p, c, t := ParseRows(parse, rows);
  }

  /** Left operand, right operand, join: the order in which an LALR parser reduces them. */
  method ParseCompound(parse: Parse, s: Source) returns (p: Select?, ghost c: Chain, ghost t: Term)
    requires SourceOk(s) && parse.Ok()
    modifies parse
    ensures parse.Ok() && parse.Live() == old(parse.Live()) + Nodes(c) && fresh(Nodes(c))
    ensures Is(c, p, t) && Ran(parse, Needs(s), old(parse.memory), old(parse.mallocFailed))
    ensures Needs(s) <= old(parse.memory) ==>
      && t == Built(s) && parse.hasCompound == (old(parse.hasCompound) || HasSetOperator(s))
      && parse.nErr == old(parse.nErr)
    decreases s
  {
    hide Is, Nodes, Joined, TooMany;
    match s
    case Single(o) =>
      p, c, t := ParseOne(parse, o);
    case Compound(l, op, o) =>
      var left, lc, lt := ParseCompound(parse, l);
      var right, rc, rt := ParseOne(parse, o);
      RightOperandHasNoLimit(o, parse.mxSelect);
      OneIsChain(o);
      ghost var joins := rt.Term? && (parse.memory > 0 || rt.prior.None?);
      p, c := ReduceCompound(parse, left, op, right, lc, lt, Nodes(lc), rc, rt, Nodes(rc));
      NothingIsNone();
      t := if joins then Joined(lt, op, rt) else None;
  }

  /** The operand is a chain, and is wrapped, when it takes more than one node. */
  lemma OneIsChain(o: One)
    requires OneOk(o)
    ensures BuiltOne(o).Term? && (BuiltOne(o).prior.Term? <==> OneNeeds(o) > 1)
  {
    if o.Values? {
      RowsAreBuilt(o.rows, q => multiset{});
    }
  }

  /**
    Any source text with any amount of memory.  Enough memory: the chain on the heap means what the source means, is
    walked both ways, and too many terms are reported for exactly the long compounds with an explicit operator.  Too
    little: that is known afterwards.  In either case every node ever made is in the result or was freed once.
   */
  method ParseSelect(parse: Parse, s: Source) returns (p: Select?, ghost c: Chain)
    requires SourceOk(s) && parse.Ok()
    modifies parse
    ensures parse.Ok() && parse.Live() == old(parse.Live()) + Nodes(c) && fresh(Nodes(c))
    ensures exists t :: Finished(c, p, t) && (Length(t) > 1 ==> DoublyLinked(Spine(c)))
    ensures parse.mallocFailed == (old(parse.mallocFailed) || old(parse.memory) < Needs(s))
    ensures Needs(s) <= old(parse.memory) ==>
      && p != null && Finished(c, p, Linked(Built(s))) && Linked(Built(s)).Term? && WellFormed(Linked(Built(s)))
      && (forall db :: Meaning(Linked(Built(s)), db) == SourceMeaning(s, db))
      && (SourceTerms(s) > 1 ==> DoublyLinked(Spine(c)))
      && parse.hasCompound == (old(parse.hasCompound) || HasSetOperator(s))
      && parse.nErr == old(parse.nErr)
         + if s.Compound? && parse.mxSelect > 0 && SourceTerms(s) > parse.mxSelect then 1 else 0
  {
    hide Is, Nodes, AllLinked, DoublyLinked, TooMany, Linked;
    ghost var t;
    p, c, t := ParseCompound(parse, s);
    CompoundIsBuilt(s, q => multiset{});
    LimitIsEnforced(s, parse.mxSelect);
    ReduceSelect(parse, p, c, t, Nodes(c));
    LinkedLength(t);
    EmptyIs(c, p, Linked(t));
    assert Finished(c, p, Linked(t)) && (Length(Linked(t)) > 1 ==> DoublyLinked(Spine(c)));
    CompoundMeaningIsPreserved(s, q => multiset{});
    forall db: Database
      ensures Meaning(Linked(Built(s)), db) == SourceMeaning(s, db)
    {
      CompoundMeaningIsPreserved(s, db);
    }
  }
}
