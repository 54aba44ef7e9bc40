/**
  The field iterator of pb_common.c: pb_field_iter_begin, pb_field_iter_next and pb_field_iter_find.
 */
module PbIterator {
  import opened PbLayout

  /** A descriptor array ends with the first zero tag. */
  predicate Terminated(fields: seq<Field>) {
    && fields != [] && fields[|fields| - 1].tag == 0
    && forall k :: 0 <= k < |fields| - 1 ==> fields[k].tag != 0
  }

  /** The positions an iterator can take: the fields, or the terminator of an empty message. */
  function Positions(fields: seq<Field>): nat
    requires Terminated(fields)
  {
    if |fields| == 1 then 1 else |fields| - 1
  }

  /** The position j steps after `from`, in cyclic order. */
  function Cyclic(from: nat, j: nat, n: nat): nat
    requires from < n && j <= n
  {
    if from + j < n then from + j else from + j - n
  }

  /** What pb_field_iter_find looks for. */
  predicate Wanted(f: Field, tag: nat) {
    f.tag == tag && LType(f) != LTYPE_EXTENSION
  }

  /** The first wanted field in cyclic order from `from` is j steps away. */
  predicate FirstWanted(fields: seq<Field>, from: nat, j: nat, tag: nat)
    requires Terminated(fields) && from < Positions(fields) && j < Positions(fields)
  {
    && Wanted(fields[Cyclic(from, j, Positions(fields))], tag)
    && forall i :: 0 <= i < j ==> !Wanted(fields[Cyclic(from, i, Positions(fields))], tag)
  }

  /** Where an iterator pointed. */
  datatype Sight = Sight(pos: nat, pData: int, pSize: int)

  ghost function SightOf(p: Platform, fields: seq<Field>, dest: int, k: nat): Sight
    requires k < |fields|
  {
    Sight(k, DataAt(p, fields, dest, k), SizeAt(p, fields, dest, k))
  }

  ghost predicate SeenOnce(x: Sight, seen: seq<Sight>) {
    exists j :: 0 <= j < |seen| && seen[j] == x && forall i :: 0 <= i < |seen| && seen[i] == x ==> i == j
  }

  ghost predicate OneFalse(answers: seq<bool>) {
    exists j :: 0 <= j < |answers| && !answers[j] && forall i :: 0 <= i < |answers| && !answers[i] ==> i == j
  }

  /** What the calls of pb_field_iter_next from a position on have answered, and where they were made. */
  ghost predicate Tour(p: Platform, fields: seq<Field>, dest: int, from: nat, seen: seq<Sight>, answers: seq<bool>)
    requires Terminated(fields) && from < Positions(fields)
  {
    var n := Positions(fields);
    && |seen| == |answers| <= n
    && (forall i :: 0 <= i < |seen| ==> seen[i] == SightOf(p, fields, dest, Cyclic(from, i, n)))
    && (forall i :: 0 <= i < |answers| ==> (answers[i] <==> Cyclic(from, i, n) + 1 < n))
  }

  lemma TourStarts(p: Platform, fields: seq<Field>, dest: int, from: nat)
    requires Terminated(fields) && from < Positions(fields)
    ensures Tour(p, fields, dest, from, [], []) && Cyclic(from, 0, Positions(fields)) == from
  {
  }

  lemma TourGoesOn(
    p: Platform, fields: seq<Field>, dest: int, from: nat, seen: seq<Sight>, answers: seq<bool>, at: nat, more: bool)
    requires Terminated(fields) && from < Positions(fields) && |answers| < Positions(fields)
    requires Tour(p, fields, dest, from, seen, answers) && at == Cyclic(from, |answers|, Positions(fields))
    requires more <==> at + 1 < Positions(fields)
    ensures Tour(p, fields, dest, from, seen + [SightOf(p, fields, dest, at)], answers + [more])
    ensures Cyclic(from, |answers| + 1, Positions(fields)) == Cyclic(at, 1, Positions(fields))
  {
  }

  lemma TourWrapsOnce(p: Platform, fields: seq<Field>, dest: int, from: nat, seen: seq<Sight>, answers: seq<bool>)
    requires Terminated(fields) && from < Positions(fields) && |answers| == Positions(fields)
    requires Tour(p, fields, dest, from, seen, answers)
    ensures OneFalse(answers)
  {
    hide SightOf;
    var n := Positions(fields);
    assert !answers[n - 1 - from];
    assert forall i :: 0 <= i < n && !answers[i] ==> i == n - 1 - from;
  }

  lemma TourSeesOnce(
    p: Platform, fields: seq<Field>, dest: int, from: nat, seen: seq<Sight>, answers: seq<bool>, k: nat)
    requires Terminated(fields) && from < Positions(fields) && |answers| == Positions(fields)
    requires Tour(p, fields, dest, from, seen, answers) && k < Positions(fields)
    ensures |seen| == |answers| && SeenOnce(SightOf(p, fields, dest, k), seen)
  {
    hide DataAt, SizeAt;
    var n := Positions(fields);
    var j := if k >= from then k - from else k + n - from;
    assert Cyclic(from, j, n) == k && seen[j] == SightOf(p, fields, dest, k);
    forall i | 0 <= i < n && seen[i] == SightOf(p, fields, dest, k)
      ensures i == j
    {
      assert seen[i].pos == Cyclic(from, i, n);
    }
  }

  /** A whole tour sees every field once, wraps once, and ends where it began. */
  lemma TourIsWhole(p: Platform, fields: seq<Field>, dest: int, from: nat, seen: seq<Sight>, answers: seq<bool>)
    requires Terminated(fields) && from < Positions(fields) && |answers| == Positions(fields)
    requires Tour(p, fields, dest, from, seen, answers)
    ensures Cyclic(from, |answers|, Positions(fields)) == from && OneFalse(answers) && |seen| == |answers|
    ensures forall k :: 0 <= k < |seen| ==> SeenOnce(SightOf(p, fields, dest, k), seen)
  {
    hide Tour, SeenOnce, OneFalse, SightOf;
    TourWrapsOnce(p, fields, dest, from, seen, answers);
    forall k: nat | k < Positions(fields)
      ensures |seen| == |answers| && SeenOnce(SightOf(p, fields, dest, k), seen)
    {
      TourSeesOnce(p, fields, dest, from, seen, answers, k);
    }
    TourSeesOnce(p, fields, dest, from, seen, answers, 0);
  }

  class FieldIter {
    const p: Platform
    var start: seq<Field>
    var pos: nat
    var requiredFieldIndex: nat
    var destStruct: int
    var pData: int
    var pSize: int

    /** Everything but the message and its address is a function of the position. */
    ghost predicate Valid()
      reads this
    {
      && p.Ok() && Terminated(start)
      && pos < Positions(start)
      && requiredFieldIndex == RequiredBefore(start, pos)
      && pData == DataAt(p, start, destStruct, pos)
      && pSize == SizeAt(p, start, destStruct, pos)
    }

    constructor (platform: Platform)
      requires platform.Ok()
      ensures p == platform
    {
      p, start, pos, requiredFieldIndex, destStruct, pData, pSize := platform, [], 0, 0, 0, 0, 0;
    }

    /** pb_field_iter_begin */
    method Begin(fields: seq<Field>, dest: int) returns (nonempty: bool)
      requires p.Ok() && Terminated(fields)
      modifies this
      ensures Valid() && start == fields && destStruct == dest && pos == 0
      ensures nonempty <==> |fields| > 1
    {
      start := fields;
      pos := 0;
      requiredFieldIndex := 0;
      destStruct := dest;
      pData := destStruct + start[pos].dataOffset;
      pSize := pData + start[pos].sizeOffset;
      return start[pos].tag != 0;
    }

    /** pb_field_iter_next: one step in cyclic order, false when it wraps. */
    method Next() returns (more: bool)
      requires Valid()
      modifies this
      ensures Valid() && start == old(start) && destStruct == old(destStruct)
      ensures pos == Cyclic(old(pos), 1, Positions(start))
      ensures more <==> old(pos) + 1 < Positions(start)
    {
      var prev := start[pos];
      if prev.tag == 0 {
        return false;
      }
      pos := pos + 1;
      if start[pos].tag == 0 {
        var _ := Begin(start, destStruct);
        return false;
      }
      var prevSize := prev.dataSize;
      if HType(prev) == HTYPE_ONEOF && HType(start[pos]) == HTYPE_ONEOF && start[pos].dataOffset == p.SizeMax() {
        return true;
      } else if AType(prev) == ATYPE_STATIC && HType(prev) == HTYPE_REPEATED {
        prevSize := prevSize * prev.arraySize;
      } else if AType(prev) == ATYPE_POINTER {
        prevSize := p.pointerSize;
      }
      if HType(prev) == HTYPE_REQUIRED {
        requiredFieldIndex := requiredFieldIndex + 1;
      }
      pData := pData + prevSize + start[pos].dataOffset;
      pSize := pData + start[pos].sizeOffset;
      return true;
    }

    /**
      pb_field_iter_next called as often as there are fields: the iterator is back as it was, exactly one call
      has answered false, and every field was seen once, at its addresses.
     */
    method FullCycle() returns (answers: seq<bool>, seen: seq<Sight>)
      requires Valid()
      modifies this
      ensures Valid() && start == old(start) && destStruct == old(destStruct)
      ensures pos == old(pos) && pData == old(pData) && pSize == old(pSize)
              && requiredFieldIndex == old(requiredFieldIndex)
      ensures |answers| == Positions(start) && OneFalse(answers)
      ensures |seen| == Positions(start)
      ensures forall k :: 0 <= k < |seen| ==> SeenOnce(SightOf(p, start, destStruct, k), seen)
    {
      hide Tour, Cyclic, DataAt, SizeAt, RequiredBefore;
      ghost var from := pos;
      answers, seen := [], [];
      TourStarts(p, start, destStruct, from);
      while |answers| < Positions(start)
        invariant Valid() && start == old(start) && destStruct == old(destStruct)
        invariant Tour(p, start, destStruct, from, seen, answers)
        invariant |answers| <= Positions(start) && pos == Cyclic(from, |answers|, Positions(start))
      {
        ghost var at := pos;
        var here := Sight(pos, pData, pSize);
        var more := Next();
        TourGoesOn(p, start, destStruct, from, seen, answers, at, more);
        seen := seen + [here];
        answers := answers + [more];
      }
      TourIsWhole(p, start, destStruct, from, seen, answers);
    }

    /**
      pb_field_iter_find: stops at the first wanted field in cyclic order, starting with the present one;
      when there is none, the iterator is as it was.
     */
    method Find(tag: nat) returns (found: bool)
      requires Valid()
      modifies this
      ensures Valid() && start == old(start) && destStruct == old(destStruct)
      ensures found <==> exists k :: 0 <= k < Positions(start) && Wanted(start[k], tag)
      ensures found ==> exists j :: 0 <= j < Positions(start) && pos == Cyclic(old(pos), j, Positions(start))
                                    && FirstWanted(start, old(pos), j, tag)
      ensures !found ==> pos == old(pos) && pData == old(pData) && pSize == old(pSize)
                         && requiredFieldIndex == old(requiredFieldIndex)
    {
      var begin := pos;
      ghost var n, j := Positions(start), 0;
      while true
        invariant Valid() && start == old(start) && destStruct == old(destStruct)
        invariant 0 <= j < n && pos == Cyclic(begin, j, n)
        invariant forall i :: 0 <= i < j ==> !Wanted(start[Cyclic(begin, i, n)], tag)
        decreases n - j
      {
        if start[pos].tag == tag && LType(start[pos]) != LTYPE_EXTENSION {
          assert FirstWanted(start, begin, j, tag);
          return true;
        }
        var _ := Next();
        j := j + 1;
        if pos == begin {
          break;
        }
      }
      assert j == n;
      forall k | 0 <= k < n
        ensures !Wanted(start[k], tag)
      {
        var i := if k >= begin then k - begin else k + n - begin;
        assert k == Cyclic(begin, i, n);
      }
      return false;
    }
  }

  // ---------------------------------------------------------------- over encoded messages

  lemma EncodedIsTerminated(p: Platform, ms: seq<Member>)
    requires Layout(p, ms)
    ensures Terminated(Encode(p, ms)) && (ms != [] ==> Positions(Encode(p, ms)) == |ms|)
    ensures forall k :: 0 <= k < |ms| ==> Encode(p, ms)[k].tag == ms[k].tag
  {
    forall k | 0 <= k < |ms|
      ensures Encode(p, ms)[k].tag == ms[k].tag
    {
      assert MemberOk(p, ms[k]);
    }
  }

  function RequiredMembers(ms: seq<Member>): nat {
    if ms == [] then 0 else RequiredMembers(ms[..|ms| - 1]) + (if ms[|ms| - 1].rule.Required? then 1 else 0)
  }

  lemma {:induction false} RequiredAreCounted(p: Platform, ms: seq<Member>, k: nat)
    requires Layout(p, ms) && k <= |ms|
    ensures RequiredBefore(Encode(p, ms), k) == RequiredMembers(ms[..k])
    decreases k
  {
    if k > 0 {
      RequiredAreCounted(p, ms, k - 1);
      assert ms[..k][..k - 1] == ms[..k - 1];
      assert Encode(p, ms)[k - 1] == Encoded(p, ms, k - 1);
      TypeBitsDecode(p, ms[k - 1]);
    }
  }

  /**
    A valid iterator over an encoded message whose deltas fit points at the true addresses of the
    member it is at and of that member's has_, _count or which_ variable, and has counted the required
    members before it.
   */
  lemma IteratorIsTrue(it: FieldIter, ms: seq<Member>)
    requires Layout(it.p, ms) && ms != [] && it.start == Encode(it.p, ms) && it.Valid()
    requires forall k :: 0 <= k < |ms| ==> DeltasFit(it.p, ms, k)
    ensures it.pos < |ms|
    ensures it.pData == it.destStruct + ms[it.pos].offset
    ensures it.pSize == it.destStruct + AuxAddress(ms[it.pos])
    ensures var m := ms[it.pos];
      && (m.rule.Oneof? ==> it.pSize == it.destStruct + m.aux)                             // which_
      && (m.rule.Optional? && m.alloc.Static? ==> it.pSize == it.destStruct + m.aux)       // has_
      && (m.rule.Repeated? && !m.alloc.Callback? ==> it.pSize == it.destStruct + m.aux)    // _count
      && (m.rule.Required? || m.rule.Singular? || m.rule.FixedCount? ==> it.pSize == it.pData)
      && (m.alloc.Callback? || (m.rule.Optional? && m.alloc.Pointer?) ==> it.pSize == it.pData)
    ensures it.requiredFieldIndex == RequiredMembers(ms[..it.pos])
  {
    EncodedIsTerminated(it.p, ms);
    RoundTripIff(it.p, ms, it.destStruct);
    assert Exact(it.p, ms, it.destStruct, it.pos);
    RequiredAreCounted(it.p, ms, it.pos);
  }

  // ---------------------------------------------------------------- finding a member of a message

  /** The member has the tag and is no extension pseudo-field. */
  predicate HasTag(m: Member, tag: nat) {
    m.tag == tag && m.ftype != Extension
  }

  /** Member k is the first with the tag, in cyclic order from `from`. */
  predicate IsFirstWithTag(ms: seq<Member>, from: nat, k: nat, tag: nat)
    requires from < |ms| && k < |ms|
  {
    && HasTag(ms[k], tag)
    && forall i :: 0 <= i < |ms| && HasTag(ms[i], tag) ==> Steps(from, k, |ms|) <= Steps(from, i, |ms|)
  }

  /** How many calls of pb_field_iter_next lead from one position to another. */
  function Steps(from: nat, to: nat, n: nat): nat
    requires from < n && to < n
  {
    if from <= to then to - from else n - from + to
  }

  lemma StepsLead(from: nat, to: nat, n: nat)
    requires from < n && to < n
    ensures Steps(from, to, n) < n && Cyclic(from, Steps(from, to, n), n) == to
    ensures forall j :: 0 <= j < n && Cyclic(from, j, n) == to ==> j == Steps(from, to, n)
  {
  }

  lemma WantedIsMember(p: Platform, ms: seq<Member>, k: nat, tag: nat)
    requires Layout(p, ms) && k < |ms|
    ensures Wanted(Encode(p, ms)[k], tag) <==> HasTag(ms[k], tag)
  {
    assert Encode(p, ms)[k] == Encoded(p, ms, k);
    assert MemberOk(p, ms[k]);
    TypeBitsDecode(p, ms[k]);
  }

  lemma FirstWantedIsFirst(p: Platform, ms: seq<Member>, from: nat, j: nat, tag: nat)
    requires Layout(p, ms) && from < |ms| && j < |ms|
    requires Terminated(Encode(p, ms)) && Positions(Encode(p, ms)) == |ms|
    requires FirstWanted(Encode(p, ms), from, j, tag)
    ensures IsFirstWithTag(ms, from, Cyclic(from, j, |ms|), tag)
  {
    var n := |ms|;
    var k := Cyclic(from, j, n);
    WantedIsMember(p, ms, k, tag);
    StepsLead(from, k, n);
    forall i | 0 <= i < n && HasTag(ms[i], tag)
      ensures Steps(from, k, n) <= Steps(from, i, n)
    {
      WantedIsMember(p, ms, i, tag);
      StepsLead(from, i, n);
    }
  }

  /**
    pb_field_iter_find on the descriptors of a message: it succeeds if and only if the message has a member with the
    tag that is no extension, and then the iterator is at the first of them, at its true address if the deltas fit.
   */
  method FindMember(it: FieldIter, ghost ms: seq<Member>, tag: nat) returns (found: bool)
    requires it.Valid() && Layout(it.p, ms) && it.start == Encode(it.p, ms) && tag > 0
    modifies it
    ensures it.Valid() && it.start == old(it.start) && it.destStruct == old(it.destStruct)
    ensures found <==> exists k :: 0 <= k < |ms| && HasTag(ms[k], tag)
    ensures found ==> it.pos < |ms| && old(it.pos) < |ms| && IsFirstWithTag(ms, old(it.pos), it.pos, tag)
    ensures found && (forall k :: 0 <= k < |ms| ==> DeltasFit(it.p, ms, k)) ==>
      it.pData == it.destStruct + ms[it.pos].offset && it.pSize == it.destStruct + AuxAddress(ms[it.pos])
    ensures !found ==> it.pos == old(it.pos) && it.pData == old(it.pData) && it.pSize == old(it.pSize)
  {
    hide Encode, Layout, FirstWanted, IsFirstWithTag, HasTag, Wanted, DeltasFit, AuxAddress;
    ghost var from := it.pos;
    EncodedIsTerminated(it.p, ms);
    found := it.Find(tag);
    FoundIff(it.p, ms, tag);
    if found {
      SomethingFound(it.p, ms, tag);
      ghost var j :| 0 <= j < |ms| && it.pos == Cyclic(from, j, |ms|) && FirstWanted(it.start, from, j, tag);
      FirstWantedIsFirst(it.p, ms, from, j, tag);
      if forall k :: 0 <= k < |ms| ==> DeltasFit(it.p, ms, k) {
        IteratorIsTrue(it, ms);
      }
    }
  }

  lemma FoundIff(p: Platform, ms: seq<Member>, tag: nat)
    requires Layout(p, ms) && Terminated(Encode(p, ms)) && tag > 0
    ensures (exists k :: 0 <= k < Positions(Encode(p, ms)) && Wanted(Encode(p, ms)[k], tag)) <==>
            exists k :: 0 <= k < |ms| && HasTag(ms[k], tag)
  {
    forall k | 0 <= k < |ms|
      ensures Wanted(Encode(p, ms)[k], tag) <==> HasTag(ms[k], tag)
    {
      WantedIsMember(p, ms, k, tag);
    }
    if |ms| > 0 {
      EncodedIsTerminated(p, ms);
    } else {
      assert Encode(p, ms) == [LAST_FIELD];
    }
  }

  lemma SomethingFound(p: Platform, ms: seq<Member>, tag: nat)
    requires exists k :: 0 <= k < |ms| && HasTag(ms[k], tag)
    ensures |ms| > 0
  {
  }
}
