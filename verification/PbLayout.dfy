/**
  The message layouts of nanopb: how the descriptor macros of pb.h encode the members of a struct as
  deltas in narrow integers, and exactly when the addresses decoded from them are the true ones.
 */
module PbLayout {

  // ---------------------------------------------------------------- descriptors

  const LTYPE_VARINT: bv8 := 0x00
  const LTYPE_UVARINT: bv8 := 0x01
  const LTYPE_SVARINT: bv8 := 0x02
  const LTYPE_FIXED32: bv8 := 0x03
  const LTYPE_FIXED64: bv8 := 0x04
  const LTYPE_BYTES: bv8 := 0x05
  const LTYPE_STRING: bv8 := 0x06
  const LTYPE_SUBMESSAGE: bv8 := 0x07
  const LTYPE_EXTENSION: bv8 := 0x08
  const LTYPE_FIXED_LENGTH_BYTES: bv8 := 0x09
  const LTYPE_MASK: bv8 := 0x0F

  const HTYPE_REQUIRED: bv8 := 0x00
  const HTYPE_OPTIONAL: bv8 := 0x10
  const HTYPE_REPEATED: bv8 := 0x20
  const HTYPE_ONEOF: bv8 := 0x30
  const HTYPE_MASK: bv8 := 0x30

  const ATYPE_STATIC: bv8 := 0x00
  const ATYPE_POINTER: bv8 := 0x80
  const ATYPE_CALLBACK: bv8 := 0x40
  const ATYPE_MASK: bv8 := 0xC0

  /** pb_field_t without its ptr. */
  datatype Field = Field(tag: nat, typ: bv8, dataOffset: nat, sizeOffset: int, dataSize: nat, arraySize: nat)

  function LType(f: Field): bv8 { f.typ & LTYPE_MASK }
  function HType(f: Field): bv8 { f.typ & HTYPE_MASK }
  function AType(f: Field): bv8 { f.typ & ATYPE_MASK }

  /** The platform: the number of values of pb_size_t, and the size of a pointer. */
  datatype Platform = Platform(modulus: nat, pointerSize: nat)
  {
    /** PB_FIELD_32BIT, PB_FIELD_16BIT or neither. */
    predicate Ok() {
      modulus in {0x100, 0x1_0000, 0x1_0000_0000} && pointerSize > 0
    }

    function SizeMax(): int { modulus - 1 }

    /** Conversion to pb_size_t. */
    function Narrow(x: int): nat
      requires Ok()
    {
      x % modulus
    }

    /** Conversion to pb_ssize_t. */
    function NarrowSigned(x: int): int
      requires Ok()
    {
      (x + modulus / 2) % modulus - modulus / 2
    }

    predicate Fits(x: int) { 0 <= x < modulus }
    predicate FitsSigned(x: int) { -(modulus / 2) <= x < modulus - modulus / 2 }
  }

  lemma NarrowIsExact(p: Platform, x: int)
    requires p.Ok()
    ensures 0 <= x ==> p.Narrow(x) <= x
    ensures p.Narrow(x) == x <==> p.Fits(x)
    ensures p.NarrowSigned(x) == x <==> p.FitsSigned(x)
  {
    if p.modulus == 0x100 {
    } else if p.modulus == 0x1_0000 {
    } else {
      assert p.modulus == 0x1_0000_0000;
    }
  }

  // ---------------------------------------------------------------- the decoder's arithmetic

  /** What the iterator adds for a field it leaves behind. */
  function Advance(p: Platform, f: Field): nat {
    if AType(f) == ATYPE_STATIC && HType(f) == HTYPE_REPEATED then f.dataSize * f.arraySize
    else if AType(f) == ATYPE_POINTER then p.pointerSize
    else f.dataSize
  }

  /** The pointers stay where they are when going from `prev` to `cur`. */
  predicate InsideUnion(p: Platform, prev: Field, cur: Field) {
    HType(prev) == HTYPE_ONEOF && HType(cur) == HTYPE_ONEOF && cur.dataOffset == p.SizeMax()
  }

  /** pData at position k, for a struct at address base. */
  function DataAt(p: Platform, fields: seq<Field>, base: int, k: nat): int
    requires k < |fields|
  {
    if k == 0 then base + fields[0].dataOffset
    else if InsideUnion(p, fields[k - 1], fields[k]) then DataAt(p, fields, base, k - 1)
    else DataAt(p, fields, base, k - 1) + Advance(p, fields[k - 1]) + fields[k].dataOffset
  }

  /** pSize at position k. */
  function SizeAt(p: Platform, fields: seq<Field>, base: int, k: nat): int
    requires k < |fields|
  {
    if k > 0 && InsideUnion(p, fields[k - 1], fields[k]) then SizeAt(p, fields, base, k - 1)
    else DataAt(p, fields, base, k) + fields[k].sizeOffset
  }

  /** The number of required fields strictly before position k. */
  function RequiredBefore(fields: seq<Field>, k: nat): nat
    requires k <= |fields|
  {
    if k == 0 then 0
    else RequiredBefore(fields, k - 1) + (if HType(fields[k - 1]) == HTYPE_REQUIRED then 1 else 0)
  }

  // ---------------------------------------------------------------- layouts and their encoding

  /** The field types of the protocol buffer language that descriptors can name. */
  datatype FieldType =
    | Bool | Int32 | Int64 | Enum | UInt32 | UInt64 | UEnum | SInt32 | SInt64
    | Fixed32 | SFixed32 | Float | Fixed64 | SFixed64 | Double
    | Bytes | String | Message | Extension | FixedLengthBytes

  /** PB_LTYPE_MAP_<type> */
  function LTypeOf(t: FieldType): bv8 {
    match t
    case Bool | Int32 | Int64 | Enum => LTYPE_VARINT
    case UInt32 | UInt64 | UEnum => LTYPE_UVARINT
    case SInt32 | SInt64 => LTYPE_SVARINT
    case Fixed32 | SFixed32 | Float => LTYPE_FIXED32
    case Fixed64 | SFixed64 | Double => LTYPE_FIXED64
    case Bytes => LTYPE_BYTES
    case String => LTYPE_STRING
    case Message => LTYPE_SUBMESSAGE
    case Extension => LTYPE_EXTENSION
    case FixedLengthBytes => LTYPE_FIXED_LENGTH_BYTES
  }

  datatype Rule = Required | Optional | Singular | Repeated | FixedCount | Oneof(union_: nat)
  datatype Allocation = Static | Pointer | Callback

  /**
    A member of a message struct: where it lies, the bytes it takes there, the size of one entry (or
    of what it points to), and where its has_, _count or which_ variable lies.
   */
  datatype Member = Member(tag: nat, ftype: FieldType, rule: Rule, alloc: Allocation,
                           offset: nat, size: nat, entry: nat, aux: nat)

  predicate IsArray(m: Member) { m.alloc.Static? && (m.rule.Repeated? || m.rule.FixedCount?) }

  /** The macros that store the delta of a has_, _count or which_ variable. */
  predicate HasAux(m: Member) {
    || (m.rule.Optional? && m.alloc.Static?)
    || (m.rule.Repeated? && !m.alloc.Callback?)
    || m.rule.Oneof?
  }

  function AuxAddress(m: Member): nat { if HasAux(m) then m.aux else m.offset }

  function TypeBits(m: Member): bv8 {
    (match m.alloc
     case Static => ATYPE_STATIC
     case Pointer => ATYPE_POINTER
     case Callback => ATYPE_CALLBACK)
    | (match m.rule
       case Required => HTYPE_REQUIRED
       case Optional => HTYPE_OPTIONAL
       case Singular => HTYPE_OPTIONAL
       case Repeated => HTYPE_REPEATED
       case FixedCount => HTYPE_REPEATED
       case Oneof(_) => HTYPE_ONEOF)
    | LTypeOf(m.ftype)
  }

  /** Later members of the union that the member before belongs to. */
  predicate SameUnion(prev: Member, cur: Member) {
    prev.rule.Oneof? && cur.rule.Oneof? && prev.rule.union_ == cur.rule.union_
  }

  /** PB_DATAOFFSET_FIRST, PB_DATAOFFSET_UNION and PB_DATAOFFSET_OTHER, before narrowing. */
  function WideDataOffset(p: Platform, ms: seq<Member>, k: nat): int
    requires k < |ms|
  {
    if k == 0 then ms[0].offset
    else if SameUnion(ms[k - 1], ms[k]) then p.SizeMax()
    else ms[k].offset - ms[k - 1].offset - ms[k - 1].size
  }

  function EntryCount(m: Member): nat
    requires m.entry > 0
  {
    m.size / m.entry
  }

  /** The initialiser that the PB_<rule>_<allocation> macro of member k expands to. */
  function Encoded(p: Platform, ms: seq<Member>, k: nat): Field
    requires p.Ok() && k < |ms| && ms[k].entry > 0
  {
    var m := ms[k];
    Field(
      m.tag,
      TypeBits(m),
      p.Narrow(WideDataOffset(p, ms, k)),
      p.NarrowSigned(if HasAux(m) then m.aux - m.offset else 0),
      p.Narrow(if IsArray(m) || m.alloc.Pointer? then m.entry else m.size),
      p.Narrow(if IsArray(m) then EntryCount(m) else 0))
  }

  const LAST_FIELD := Field(0, 0, 0, 0, 0, 0)

  /** The descriptor array of a message. */
  function Encode(p: Platform, ms: seq<Member>): seq<Field>
    requires p.Ok() && forall k :: 0 <= k < |ms| ==> ms[k].entry > 0
  {
    seq(|ms|, k requires 0 <= k < |ms| => Encoded(p, ms, k)) + [LAST_FIELD]
  }

  /** What the macros exist for, and what the size of a member is. */
  predicate MemberOk(p: Platform, m: Member) {
    && 0 < m.tag < p.modulus
    && m.size > 0 && m.entry > 0
    && (m.rule.FixedCount? ==> m.alloc.Static?)
    && (m.rule.Oneof? ==> !m.alloc.Callback?)
    && (IsArray(m) ==> m.size == m.entry * EntryCount(m))
    && (m.alloc.Pointer? ==> m.size == p.pointerSize)
  }

  /** Members of a union lie at one address and share their which_ variable; all others follow each other. */
  predicate Follows(prev: Member, cur: Member) {
    if SameUnion(prev, cur) then cur.offset == prev.offset && cur.aux == prev.aux
    else prev.offset + prev.size <= cur.offset
  }

  /** A struct laid out by a C compiler in the order of the descriptors. */
  predicate Layout(p: Platform, ms: seq<Member>) {
    && p.Ok()
    && (forall k :: 0 <= k < |ms| ==> MemberOk(p, ms[k]))
    && (forall k :: 0 < k < |ms| ==> Follows(ms[k - 1], ms[k]))
  }

  // ---------------------------------------------------------------- exactness

  /** The iterator's pointers at member k are the member's true addresses. */
  predicate Exact(p: Platform, ms: seq<Member>, base: int, k: nat)
    requires Layout(p, ms) && k < |ms|
  {
    && DataAt(p, Encode(p, ms), base, k) == base + ms[k].offset
    && SizeAt(p, Encode(p, ms), base, k) == base + AuxAddress(ms[k])
  }

  /** The sizes from which the iterator computes what member m takes up survive narrowing. */
  predicate SizesFit(p: Platform, m: Member)
    requires m.entry > 0
  {
    if m.alloc.Pointer? then true
    else if IsArray(m) then p.Fits(m.entry) && p.Fits(EntryCount(m))
    else p.Fits(m.size)
  }

  /** The deltas stored for member k survive narrowing, and none between two unions looks like the sentinel. */
  predicate DeltasFit(p: Platform, ms: seq<Member>, k: nat)
    requires Layout(p, ms) && k < |ms|
  {
    if k > 0 && SameUnion(ms[k - 1], ms[k]) then true
    else
      && p.Fits(WideDataOffset(p, ms, k))
      && (HasAux(ms[k]) ==> p.FitsSigned(ms[k].aux - ms[k].offset))
      && (k > 0 ==> SizesFit(p, ms[k - 1]))
      && (k > 0 && ms[k - 1].rule.Oneof? && ms[k].rule.Oneof? ==> WideDataOffset(p, ms, k) != p.SizeMax())
  }

  function RuleNumber(r: Rule): nat {
    match r
    case Required => 0
    case Optional | Singular => 1
    case Repeated | FixedCount => 2
    case Oneof(_) => 3
  }

  function AllocationNumber(a: Allocation): nat {
    match a
    case Static => 0
    case Callback => 1
    case Pointer => 2
  }

  /** The type byte by its value: four bits for the field type, two for the rule, two for the allocation. */
  lemma TypeByte(m: Member)
    ensures TypeBits(m) as nat == LTypeOf(m.ftype) as nat + 0x10 * RuleNumber(m.rule) + 0x40 * AllocationNumber(m.alloc)
    ensures LTypeOf(m.ftype) <= LTYPE_FIXED64 <==> m.ftype !in {Bytes, String, Message, Extension, FixedLengthBytes}
  {
  }

  /** Field types are coded alike exactly if they are coded the same way on the wire. */
  lemma TypesToldApartIff(a: FieldType, b: FieldType)
    ensures LTypeOf(a) == LTypeOf(b) <==>
      || a == b || (a in SIGNED && b in SIGNED) || (a in UNSIGNED && b in UNSIGNED) || (a in ZIGZAG && b in ZIGZAG)
      || (a in FOUR_BYTES && b in FOUR_BYTES) || (a in EIGHT_BYTES && b in EIGHT_BYTES)
  {
  }

  const SIGNED := {Bool, Int32, Int64, Enum}
  const UNSIGNED := {UInt32, UInt64, UEnum}
  const ZIGZAG := {SInt32, SInt64}
  const FOUR_BYTES := {Fixed32, SFixed32, Float}
  const EIGHT_BYTES := {Fixed64, SFixed64, Double}

  lemma TypeBitsDecode(p: Platform, m: Member)
    requires MemberOk(p, m)
    ensures TypeBits(m) & ATYPE_MASK ==
              match m.alloc {
                case Static => ATYPE_STATIC
                case Pointer => ATYPE_POINTER
                case Callback => ATYPE_CALLBACK
              }
    ensures (TypeBits(m) & HTYPE_MASK == HTYPE_ONEOF) <==> m.rule.Oneof?
    ensures (TypeBits(m) & HTYPE_MASK == HTYPE_REPEATED) <==> m.rule.Repeated? || m.rule.FixedCount?
    ensures (TypeBits(m) & HTYPE_MASK == HTYPE_REQUIRED) <==> m.rule.Required?
    ensures TypeBits(m) & LTYPE_MASK == LTypeOf(m.ftype)
    ensures (TypeBits(m) & LTYPE_MASK == LTYPE_EXTENSION) <==> m.ftype == Extension
  {
  }

  lemma {:induction false} ProductGrows(x: nat, y: nat, c: nat)
    requires x <= y
    ensures x * c <= y * c
    ensures x < y && c > 0 ==> x * c < y * c
  {
    if c > 0 {
      ProductGrows(x, y, c - 1);
      assert x * c == x * (c - 1) + x;
      assert y * c == y * (c - 1) + y;
    }
  }

  lemma ProductOfPositives(x: nat, y: nat)
    requires 0 < x && 0 < y
    ensures 0 < x * y
  {
    ProductGrows(0, x, y);
  }

  /** With neither factor larger, the product is the same only if both factors are. */
  lemma ProductIsExact(e: nat, c: nat, e': nat, c': nat)
    requires 0 < e && 0 < c && e' <= e && c' <= c
    ensures e' * c' <= e * c
    ensures e' * c' == e * c <==> e' == e && c' == c
  {
    ProductGrows(e', e, c');
    ProductGrows(c', c, e);
    ProductOfPositives(e, c);
    assert e * c' == c' * e && e * c == c * e;
  }

  /** What the iterator takes a member to occupy is at most its size, and is its size exactly if the sizes fit. */
  lemma AdvanceIsExact(p: Platform, ms: seq<Member>, k: nat)
    requires Layout(p, ms) && k < |ms|
    ensures Advance(p, Encoded(p, ms, k)) <= ms[k].size
    ensures Advance(p, Encoded(p, ms, k)) == ms[k].size <==> SizesFit(p, ms[k])
  {
    var m := ms[k];
    TypeBitsDecode(p, m);
    NarrowIsExact(p, m.entry);
    NarrowIsExact(p, m.size);
    if IsArray(m) {
      NarrowIsExact(p, EntryCount(m));
      assert EntryCount(m) > 0;
      ProductIsExact(m.entry, EntryCount(m), p.Narrow(m.entry), p.Narrow(EntryCount(m)));
    }
  }

  /** The capacity that the decoder checks against is that of the array, and the size of an entry is its size. */
  lemma DescriptorSizesIff(p: Platform, ms: seq<Member>, k: nat)
    requires Layout(p, ms) && k < |ms|
    ensures var f, m := Encode(p, ms)[k], ms[k];
      && (IsArray(m) ==> (f.arraySize == EntryCount(m) <==> p.Fits(EntryCount(m))))
      && (IsArray(m) || m.alloc.Pointer? ==> (f.dataSize == m.entry <==> p.Fits(m.entry)))
      && (!IsArray(m) && !m.alloc.Pointer? ==> (f.dataSize == m.size <==> p.Fits(m.size)))
      && (!IsArray(m) ==> f.arraySize == 0)
  {
    var m := ms[k];
    assert Encode(p, ms)[k] == Encoded(p, ms, k);
    NarrowIsExact(p, m.entry);
    NarrowIsExact(p, m.size);
    NarrowIsExact(p, 0);
    NarrowIsExact(p, EntryCount(m));
  }

  /**
    The decoder finds the entries of a static array by counting up to array_size in steps of data_size.  If the
    member's sizes fit, every entry found that way is one of the array's and lies inside the member.
   */
  lemma EntriesLieInside(p: Platform, ms: seq<Member>, base: int, k: nat, i: nat)
    requires Layout(p, ms) && k < |ms| && IsArray(ms[k]) && SizesFit(p, ms[k]) && Exact(p, ms, base, k)
    requires i < Encode(p, ms)[k].arraySize
    ensures var f, m := Encode(p, ms)[k], ms[k];
      var item := DataAt(p, Encode(p, ms), base, k) + f.dataSize * i;
      && item == base + m.offset + m.entry * i
      && base + m.offset <= item && item + m.entry <= base + m.offset + m.size
  {
    hide DataAt;
    DescriptorSizesIff(p, ms, k);
    ProductGrows(i + 1, EntryCount(ms[k]), ms[k].entry);
    EntryAfter(ms[k].entry, EntryCount(ms[k]), i);
    assert MemberOk(p, ms[k]);
  }

  lemma EntryAfter(entry: nat, count: nat, i: nat)
    ensures entry * i >= 0 && (i + 1) * entry == entry * i + entry && count * entry == entry * count
  {
  }

  lemma UnionStep(p: Platform, ms: seq<Member>, k: nat)
    requires Layout(p, ms) && 0 < k < |ms|
    ensures InsideUnion(p, Encoded(p, ms, k - 1), Encoded(p, ms, k)) <==>
              ms[k - 1].rule.Oneof? && ms[k].rule.Oneof? && p.Narrow(WideDataOffset(p, ms, k)) == p.SizeMax()
    ensures SameUnion(ms[k - 1], ms[k]) ==> p.Narrow(WideDataOffset(p, ms, k)) == p.SizeMax()
  {
    TypeBitsDecode(p, ms[k - 1]);
    TypeBitsDecode(p, ms[k]);
    NarrowIsExact(p, p.SizeMax());
  }

  /** Given true addresses so far, the next ones are true exactly if its deltas fit. */
  lemma StepIsExact(p: Platform, ms: seq<Member>, base: int, k: nat)
    requires Layout(p, ms) && 0 < k < |ms| && Exact(p, ms, base, k - 1)
    ensures Exact(p, ms, base, k) <==> DeltasFit(p, ms, k)
  {
    var fields := Encode(p, ms);
    assert fields[k - 1] == Encoded(p, ms, k - 1) && fields[k] == Encoded(p, ms, k);
    var delta := WideDataOffset(p, ms, k);
    UnionStep(p, ms, k);
    AdvanceIsExact(p, ms, k - 1);
    NarrowIsExact(p, delta);
    AuxIsExact(p, ms, k);
    assert Follows(ms[k - 1], ms[k]);
    if SameUnion(ms[k - 1], ms[k]) {
      assert Exact(p, ms, base, k);
    } else if InsideUnion(p, fields[k - 1], fields[k]) {
      assert DataAt(p, fields, base, k) == base + ms[k - 1].offset < base + ms[k].offset;
    } else {
      assert DataAt(p, fields, base, k) == base + ms[k].offset <==>
             SizesFit(p, ms[k - 1]) && p.Fits(delta);
    }
  }

  lemma AuxIsExact(p: Platform, ms: seq<Member>, k: nat)
    requires Layout(p, ms) && k < |ms|
    ensures ms[k].offset + Encoded(p, ms, k).sizeOffset == AuxAddress(ms[k]) <==>
              (HasAux(ms[k]) ==> p.FitsSigned(ms[k].aux - ms[k].offset))
  {
    NarrowIsExact(p, ms[k].aux - ms[k].offset);
    NarrowIsExact(p, 0);
  }

  lemma FirstIsExact(p: Platform, ms: seq<Member>, base: int)
    requires Layout(p, ms) && ms != []
    ensures Exact(p, ms, base, 0) <==> DeltasFit(p, ms, 0)
  {
    assert Encode(p, ms)[0] == Encoded(p, ms, 0);
    NarrowIsExact(p, ms[0].offset);
    AuxIsExact(p, ms, 0);
  }

  /**
    The round trip, exactly: up to any member, the decoded addresses are all true if and only if the
    deltas of all members up to it fit.
   */
  lemma {:induction false} PrefixIsExact(p: Platform, ms: seq<Member>, base: int, n: nat)
    requires Layout(p, ms) && n <= |ms|
    ensures (forall k :: 0 <= k < n ==> Exact(p, ms, base, k)) <==> (forall k :: 0 <= k < n ==> DeltasFit(p, ms, k))
  {
    if n == 1 {
      FirstIsExact(p, ms, base);
    } else if n > 1 {
      PrefixIsExact(p, ms, base, n - 1);
      if forall k :: 0 <= k < n - 1 ==> Exact(p, ms, base, k) {
        StepIsExact(p, ms, base, n - 1);
      }
    }
  }

  lemma RoundTripIff(p: Platform, ms: seq<Member>, base: int)
    requires Layout(p, ms)
    ensures (forall k :: 0 <= k < |ms| ==> Exact(p, ms, base, k)) <==>
            (forall k :: 0 <= k < |ms| ==> DeltasFit(p, ms, k))
  {
    PrefixIsExact(p, ms, base, |ms|);
  }

  // ---------------------------------------------------------------- where it fails

  /** Descriptors of 8 bits: a member of 300 bytes is taken to have 44, and the one after it is missed. */
  lemma LargeMemberIsLost(base: int)
    ensures var p := Platform(0x100, 4);
      var ms := [Member(1, Int32, Required, Static, 0, 300, 300, 0), Member(2, Int32, Required, Static, 300, 4, 4, 0)];
      Layout(p, ms) && p.Fits(WideDataOffset(p, ms, 1)) && !Exact(p, ms, base, 1)
  {
    var p := Platform(0x100, 4);
    var ms := [Member(1, Int32, Required, Static, 0, 300, 300, 0), Member(2, Int32, Required, Static, 300, 4, 4, 0)];
    FirstIsExact(p, ms, base);
    StepIsExact(p, ms, base, 1);
  }

  /** A gap of PB_SIZE_MAX bytes between two unions fits, but reads as two members of one union. */
  lemma GapLooksLikeUnion(base: int)
    ensures var p := Platform(0x100, 4);
      var ms := [Member(1, Int32, Oneof(0), Static, 4, 1, 1, 0), Member(2, Int32, Oneof(1), Static, 260, 1, 1, 256)];
      && Layout(p, ms) && p.Fits(WideDataOffset(p, ms, 1)) && SizesFit(p, ms[0])
      && DataAt(p, Encode(p, ms), base, 1) == base + 4
  {
    var p := Platform(0x100, 4);
    var ms := [Member(1, Int32, Oneof(0), Static, 4, 1, 1, 0), Member(2, Int32, Oneof(1), Static, 260, 1, 1, 256)];
    FirstIsExact(p, ms, base);
    UnionStep(p, ms, 1);
    assert Encode(p, ms)[0] == Encoded(p, ms, 0) && Encode(p, ms)[1] == Encoded(p, ms, 1);
  }
}
