/**
  What the proof about the tables of keywordhash.h needs of each keyword: where its text lies, how it hangs on
  its chain, and how it differs from the keywords after it there.  The checks go a few keywords at a time.
 */
module SqlKeywordFacts {
  import opened SqlKeywordTables

  // The bucket of each keyword
  const BUCKET_0: seq<nat> := [40, 16, 74, 62, 62, 41, 73, 69, 34, 86, 78, 14, 31]
  const BUCKET_1: seq<nat> := [90, 16, 44, 56, 96, 23, 123, 105, 31, 60, 54, 64, 79]
  const BUCKET_2: seq<nat> := [18, 73, 117, 124, 88, 99, 51, 76, 26, 114, 2, 28, 91]
  const BUCKET_3: seq<nat> := [110, 103, 13, 20, 51, 5, 105, 126, 43, 8, 97, 112, 97]
  const BUCKET_4: seq<nat> := [59, 20, 74, 126, 72, 120, 111, 70, 124, 104, 120, 121, 28]
  const BUCKET_5: seq<nat> := [37, 47, 58, 40, 37, 38, 48, 47, 3, 103, 0, 10, 15]
  const BUCKET_6: seq<nat> := [45, 102, 94, 8, 28, 106, 19, 119, 98, 88, 97, 44, 76]
  const BUCKET_7: seq<nat> := [86, 32, 109, 85, 65, 87, 89, 81, 78, 48, 45, 53, 69]
  const BUCKET_8: seq<nat> := [1, 69, 89, 92, 89, 63, 98, 21, 103, 112, 29, 18, 2]
  const BUCKET_9: seq<nat> := [47, 28, 101, 26, 58, 71, 68]

  function BucketRow(r: nat): (row: seq<nat>)
    requires r < 10
    ensures |row| == if r == 9 then 7 else 13
  {
    match r
    case 0 => BUCKET_0
    case 1 => BUCKET_1
    case 2 => BUCKET_2
    case 3 => BUCKET_3
    case 4 => BUCKET_4
    case 5 => BUCKET_5
    case 6 => BUCKET_6
    case 7 => BUCKET_7
    case 8 => BUCKET_8
    case _ => BUCKET_9
  }

  function BucketAt(k: nat): nat
    requires k < 124
  {
    BucketRow(k / 13)[k % 13]
  }

  // One more than the keyword before it on its chain, 0 for the first
  const PREV_0: seq<nat> := [69, 15, 55, 5, 0, 0, 28, 104, 0, 92, 100, 0, 22]
  const PREV_1: seq<nat> := [0, 0, 90, 0, 0, 0, 0, 46, 0, 0, 0, 0, 0]
  const PREV_2: seq<nat> := [116, 0, 0, 61, 88, 0, 44, 91, 121, 0, 117, 65, 0]
  const PREV_3: seq<nat> := [0, 75, 0, 54, 0, 0, 0, 56, 0, 82, 52, 114, 89]
  const PREV_4: seq<nat> := [0, 0, 0, 0, 0, 63, 0, 0, 0, 0, 0, 0, 83]
  const PREV_5: seq<nat> := [70, 73, 122, 0, 0, 0, 101, 118, 0, 113, 0, 0, 0]
  const PREV_6: seq<nat> := [102, 0, 0, 0, 119, 0, 0, 0, 111, 0, 0, 0, 0]
  const PREV_7: seq<nat> := [0, 0, 0, 0, 0, 0, 107, 0, 0, 0, 0, 0, 106]
  const PREV_8: seq<nat> := [0, 0, 109, 0, 0, 0, 0, 0, 0, 0, 0, 0, 0]
  const PREV_9: seq<nat> := [0, 0, 0, 0, 0, 0, 0]

  function PrevRow(r: nat): (row: seq<nat>)
    requires r < 10
    ensures |row| == if r == 9 then 7 else 13
  {
    match r
    case 0 => PREV_0
    case 1 => PREV_1
    case 2 => PREV_2
    case 3 => PREV_3
    case 4 => PREV_4
    case 5 => PREV_5
    case 6 => PREV_6
    case 7 => PREV_7
    case 8 => PREV_8
    case _ => PREV_9
  }

  function PrevAt(k: nat): nat
    requires k < 124
  {
    PrevRow(k / 13)[k % 13]
  }

  /** A place where keyword k differs from the one keyword of its length further down its chain. */
  function Place(k: nat): nat {
    match k
    case 14 => 2
    case 55 => 1
    case 60 => 1
    case 69 => 1
    case 87 => 1
    case 88 => 2
    case 89 => 1
    case 100 => 8
    case 108 => 1
    case 113 => 1
    case _ => 0
  }

  // ---------------------------------------------------------------- texts

  /** The character c places after the start of row a, row b coming after it. */
  function Cell(a: string, b: string, c: nat): char {
    if c < |a| then a[c] else if c - |a| < |b| then b[c - |a|] else ' '
  }

  /** The rows spell the name from place c on. */
  predicate Spells(a: string, b: string, c: nat, name: string) {
    forall j :: 0 <= j < |name| ==> Cell(a, b, c + j) == name[j]
  }

  /** The text at keyword k's offset is its name. */
  ghost predicate TextOk(k: nat)
    requires k < 124
  {
    && LenAt(k) == |NameAt(k)| && 2 <= LenAt(k) && OffsetAt(k) + LenAt(k) <= 553
    && forall j :: 0 <= j < LenAt(k) ==> TextAt(OffsetAt(k) + j) == NameAt(k)[j]
  }

  /** Entry k of the tables. */
  ghost predicate Entry(k: nat, name: string, len: nat, offset: nat)
    requires k < 124
  {
    NameAt(k) == name && LenAt(k) == len && OffsetAt(k) == offset
  }

  ghost predicate RowIs(r: nat, row: string)
    requires r < 31
  {
    TextRow(r) == row
  }

  lemma CellIsText(r: nat, c: nat)
    requires r < 30 && c < 36 && 18 * r + c < 553
    ensures Cell(TextRow(r), TextRow(r + 1), c) == TextAt(18 * r + c)
  {
    hide TextRow;
    if c < 18 {
      assert (18 * r + c) / 18 == r && (18 * r + c) % 18 == c;
    } else {
      assert (18 * r + c) / 18 == r + 1 && (18 * r + c) % 18 == c - 18;
    }
  }

  lemma TextFromRows(k: nat, r: nat, c: nat, a: string, b: string, name: string)
    requires k < 124 && r < 30 && 2 <= |name| && c + |name| <= 36 && 18 * r + c + |name| <= 553
    requires RowIs(r, a) && RowIs(r + 1, b) && Entry(k, name, |name|, 18 * r + c) && Spells(a, b, c, name)
    ensures TextOk(k)
  {
    hide TextAt, NameAt, LenAt, OffsetAt, TextRow, Cell;
    forall j | 0 <= j < |name|
      ensures TextAt(OffsetAt(k) + j) == name[j]
    {
      assert Cell(a, b, c + j) == name[j];
      CellIsText(r, c + j);
    }
  }

  lemma Spelled0()
    ensures Spells(TEXT_0, TEXT_1, 0, "REINDEX") && Spells(TEXT_0, TEXT_1, 2, "INDEXED")
      && Spells(TEXT_0, TEXT_1, 2, "INDEX") && Spells(TEXT_0, TEXT_1, 8, "DESC")
  {
  }

  lemma Entries0()
    ensures Entry(0, "REINDEX", 7, 0) && Entry(1, "INDEXED", 7, 2) && Entry(2, "INDEX", 5, 2)
      && Entry(3, "DESC", 4, 8) && RowIs(0, TEXT_0) && RowIs(1, TEXT_1)
  {
  }

  lemma Text0()
    ensures TextOk(0) && TextOk(1) && TextOk(2) && TextOk(3)
  {
    hide TextOk, Spells, Entry, RowIs;
    Spelled0(); Entries0();
    TextFromRows(0, 0, 0, TEXT_0, TEXT_1, "REINDEX"); TextFromRows(1, 0, 2, TEXT_0, TEXT_1, "INDEXED");
    TextFromRows(2, 0, 2, TEXT_0, TEXT_1, "INDEX"); TextFromRows(3, 0, 8, TEXT_0, TEXT_1, "DESC");
  }

  lemma Spelled1()
    ensures Spells(TEXT_0, TEXT_1, 9, "ESCAPE") && Spells(TEXT_0, TEXT_1, 14, "EACH")
      && Spells(TEXT_0, TEXT_1, 16, "CHECK") && Spells(TEXT_1, TEXT_2, 2, "KEY")
  {
  }

  lemma Entries1()
    ensures Entry(4, "ESCAPE", 6, 9) && Entry(5, "EACH", 4, 14) && Entry(6, "CHECK", 5, 16)
      && Entry(7, "KEY", 3, 20) && RowIs(0, TEXT_0) && RowIs(1, TEXT_1) && RowIs(2, TEXT_2)
  {
  }

  lemma Text1()
    ensures TextOk(4) && TextOk(5) && TextOk(6) && TextOk(7)
  {
    hide TextOk, Spells, Entry, RowIs;
    Spelled1(); Entries1();
    TextFromRows(4, 0, 9, TEXT_0, TEXT_1, "ESCAPE"); TextFromRows(5, 0, 14, TEXT_0, TEXT_1, "EACH");
    TextFromRows(6, 0, 16, TEXT_0, TEXT_1, "CHECK"); TextFromRows(7, 1, 2, TEXT_1, TEXT_2, "KEY");
  }

  lemma Spelled2()
    ensures Spells(TEXT_1, TEXT_2, 5, "BEFORE") && Spells(TEXT_1, TEXT_2, 7, "FOREIGN")
      && Spells(TEXT_1, TEXT_2, 7, "FOR") && Spells(TEXT_1, TEXT_2, 11, "IGNORE")
  {
  }

  lemma Entries2()
    ensures Entry(8, "BEFORE", 6, 23) && Entry(9, "FOREIGN", 7, 25) && Entry(10, "FOR", 3, 25)
      && Entry(11, "IGNORE", 6, 29) && RowIs(1, TEXT_1) && RowIs(2, TEXT_2)
  {
  }

  lemma Text2()
    ensures TextOk(8) && TextOk(9) && TextOk(10) && TextOk(11)
  {
    hide TextOk, Spells, Entry, RowIs;
    Spelled2(); Entries2();
    TextFromRows(8, 1, 5, TEXT_1, TEXT_2, "BEFORE"); TextFromRows(9, 1, 7, TEXT_1, TEXT_2, "FOREIGN");
    TextFromRows(10, 1, 7, TEXT_1, TEXT_2, "FOR"); TextFromRows(11, 1, 11, TEXT_1, TEXT_2, "IGNORE");
  }

  lemma Spelled3()
    ensures Spells(TEXT_1, TEXT_2, 15, "REGEXP") && Spells(TEXT_2, TEXT_3, 0, "EXPLAIN")
      && Spells(TEXT_2, TEXT_3, 5, "INSTEAD") && Spells(TEXT_2, TEXT_3, 10, "ADD")
  {
  }

  lemma Entries3()
    ensures Entry(12, "REGEXP", 6, 33) && Entry(13, "EXPLAIN", 7, 36) && Entry(14, "INSTEAD", 7, 41)
      && Entry(15, "ADD", 3, 46) && RowIs(1, TEXT_1) && RowIs(2, TEXT_2) && RowIs(3, TEXT_3)
  {
  }

  lemma Text3()
    ensures TextOk(12) && TextOk(13) && TextOk(14) && TextOk(15)
  {
    hide TextOk, Spells, Entry, RowIs;
    Spelled3(); Entries3();
    TextFromRows(12, 1, 15, TEXT_1, TEXT_2, "REGEXP"); TextFromRows(13, 2, 0, TEXT_2, TEXT_3, "EXPLAIN");
    TextFromRows(14, 2, 5, TEXT_2, TEXT_3, "INSTEAD"); TextFromRows(15, 2, 10, TEXT_2, TEXT_3, "ADD");
  }

  lemma Spelled4()
    ensures Spells(TEXT_2, TEXT_3, 12, "DATABASE") && Spells(TEXT_2, TEXT_3, 17, "AS")
      && Spells(TEXT_3, TEXT_4, 0, "SELECT") && Spells(TEXT_3, TEXT_4, 5, "TABLE")
  {
  }

  lemma Entries4()
    ensures Entry(16, "DATABASE", 8, 48) && Entry(17, "AS", 2, 53) && Entry(18, "SELECT", 6, 54)
      && Entry(19, "TABLE", 5, 59) && RowIs(2, TEXT_2) && RowIs(3, TEXT_3) && RowIs(4, TEXT_4)
  {
  }

  lemma Text4()
    ensures TextOk(16) && TextOk(17) && TextOk(18) && TextOk(19)
  {
    hide TextOk, Spells, Entry, RowIs;
    Spelled4(); Entries4();
    TextFromRows(16, 2, 12, TEXT_2, TEXT_3, "DATABASE"); TextFromRows(17, 2, 17, TEXT_2, TEXT_3, "AS");
    TextFromRows(18, 3, 0, TEXT_3, TEXT_4, "SELECT"); TextFromRows(19, 3, 5, TEXT_3, TEXT_4, "TABLE");
  }

  lemma Spelled5()
    ensures Spells(TEXT_3, TEXT_4, 8, "LEFT") && Spells(TEXT_3, TEXT_4, 11, "THEN")
      && Spells(TEXT_3, TEXT_4, 13, "END") && Spells(TEXT_3, TEXT_4, 15, "DEFERRABLE")
  {
  }

  lemma Entries5()
    ensures Entry(20, "LEFT", 4, 62) && Entry(21, "THEN", 4, 65) && Entry(22, "END", 3, 67)
      && Entry(23, "DEFERRABLE", 10, 69) && RowIs(3, TEXT_3) && RowIs(4, TEXT_4)
  {
  }

  lemma Text5()
    ensures TextOk(20) && TextOk(21) && TextOk(22) && TextOk(23)
  {
    hide TextOk, Spells, Entry, RowIs;
    Spelled5(); Entries5();
    TextFromRows(20, 3, 8, TEXT_3, TEXT_4, "LEFT"); TextFromRows(21, 3, 11, TEXT_3, TEXT_4, "THEN");
    TextFromRows(22, 3, 13, TEXT_3, TEXT_4, "END"); TextFromRows(23, 3, 15, TEXT_3, TEXT_4, "DEFERRABLE");
  }

  lemma Spelled6()
    ensures Spells(TEXT_4, TEXT_5, 6, "ELSE") && Spells(TEXT_4, TEXT_5, 9, "EXCEPT")
      && Spells(TEXT_4, TEXT_5, 14, "TRANSACTION") && Spells(TEXT_5, TEXT_6, 1, "ACTION")
  {
  }

  lemma Entries6()
    ensures Entry(24, "ELSE", 4, 78) && Entry(25, "EXCEPT", 6, 81) && Entry(26, "TRANSACTION", 11, 86)
      && Entry(27, "ACTION", 6, 91) && RowIs(4, TEXT_4) && RowIs(5, TEXT_5) && RowIs(6, TEXT_6)
  {
  }

  lemma Text6()
    ensures TextOk(24) && TextOk(25) && TextOk(26) && TextOk(27)
  {
    hide TextOk, Spells, Entry, RowIs;
    Spelled6(); Entries6();
    TextFromRows(24, 4, 6, TEXT_4, TEXT_5, "ELSE"); TextFromRows(25, 4, 9, TEXT_4, TEXT_5, "EXCEPT");
    TextFromRows(26, 4, 14, TEXT_4, TEXT_5, "TRANSACTION"); TextFromRows(27, 5, 1, TEXT_5, TEXT_6, "ACTION");
  }

  lemma Spelled7()
    ensures Spells(TEXT_5, TEXT_6, 5, "ON") && Spells(TEXT_5, TEXT_6, 6, "NATURAL")
      && Spells(TEXT_5, TEXT_6, 11, "ALTER") && Spells(TEXT_5, TEXT_6, 15, "RAISE")
  {
  }

  lemma Entries7()
    ensures Entry(28, "ON", 2, 95) && Entry(29, "NATURAL", 7, 96) && Entry(30, "ALTER", 5, 101)
      && Entry(31, "RAISE", 5, 105) && RowIs(5, TEXT_5) && RowIs(6, TEXT_6)
  {
  }

  lemma Text7()
    ensures TextOk(28) && TextOk(29) && TextOk(30) && TextOk(31)
  {
    hide TextOk, Spells, Entry, RowIs;
    Spelled7(); Entries7();
    TextFromRows(28, 5, 5, TEXT_5, TEXT_6, "ON"); TextFromRows(29, 5, 6, TEXT_5, TEXT_6, "NATURAL");
    TextFromRows(30, 5, 11, TEXT_5, TEXT_6, "ALTER"); TextFromRows(31, 5, 15, TEXT_5, TEXT_6, "RAISE");
  }

  lemma Spelled8()
    ensures Spells(TEXT_6, TEXT_7, 1, "EXCLUSIVE") && Spells(TEXT_6, TEXT_7, 9, "EXISTS")
      && Spells(TEXT_6, TEXT_7, 14, "SAVEPOINT") && Spells(TEXT_7, TEXT_8, 2, "INTERSECT")
  {
  }

  lemma Entries8()
    ensures Entry(32, "EXCLUSIVE", 9, 109) && Entry(33, "EXISTS", 6, 117) && Entry(34, "SAVEPOINT", 9, 122)
      && Entry(35, "INTERSECT", 9, 128) && RowIs(6, TEXT_6) && RowIs(7, TEXT_7) && RowIs(8, TEXT_8)
  {
  }

  lemma Text8()
    ensures TextOk(32) && TextOk(33) && TextOk(34) && TextOk(35)
  {
    hide TextOk, Spells, Entry, RowIs;
    Spelled8(); Entries8();
    TextFromRows(32, 6, 1, TEXT_6, TEXT_7, "EXCLUSIVE"); TextFromRows(33, 6, 9, TEXT_6, TEXT_7, "EXISTS");
    TextFromRows(34, 6, 14, TEXT_6, TEXT_7, "SAVEPOINT"); TextFromRows(35, 7, 2, TEXT_7, TEXT_8, "INTERSECT");
  }

  lemma Spelled9()
    ensures Spells(TEXT_7, TEXT_8, 10, "TRIGGER") && Spells(TEXT_7, TEXT_8, 16, "REFERENCES")
      && Spells(TEXT_8, TEXT_9, 8, "CONSTRAINT") && Spells(TEXT_8, TEXT_9, 15, "INTO")
  {
  }

  lemma Entries9()
    ensures Entry(36, "TRIGGER", 7, 136) && Entry(37, "REFERENCES", 10, 142) && Entry(38, "CONSTRAINT", 10, 152)
      && Entry(39, "INTO", 4, 159) && RowIs(7, TEXT_7) && RowIs(8, TEXT_8) && RowIs(9, TEXT_9)
  {
  }

  lemma Text9()
    ensures TextOk(36) && TextOk(37) && TextOk(38) && TextOk(39)
  {
    hide TextOk, Spells, Entry, RowIs;
    Spelled9(); Entries9();
    TextFromRows(36, 7, 10, TEXT_7, TEXT_8, "TRIGGER"); TextFromRows(37, 7, 16, TEXT_7, TEXT_8, "REFERENCES");
    TextFromRows(38, 8, 8, TEXT_8, TEXT_9, "CONSTRAINT"); TextFromRows(39, 8, 15, TEXT_8, TEXT_9, "INTO");
  }

  lemma Spelled10()
    ensures Spells(TEXT_9, TEXT_10, 0, "OFFSET") && Spells(TEXT_9, TEXT_10, 0, "OF")
      && Spells(TEXT_9, TEXT_10, 3, "SET") && Spells(TEXT_9, TEXT_10, 5, "TEMPORARY")
  {
  }

  lemma Entries10()
    ensures Entry(40, "OFFSET", 6, 162) && Entry(41, "OF", 2, 162) && Entry(42, "SET", 3, 165)
      && Entry(43, "TEMPORARY", 9, 167) && RowIs(9, TEXT_9) && RowIs(10, TEXT_10)
  {
  }

  lemma Text10()
    ensures TextOk(40) && TextOk(41) && TextOk(42) && TextOk(43)
  {
    hide TextOk, Spells, Entry, RowIs;
    Spelled10(); Entries10();
    TextFromRows(40, 9, 0, TEXT_9, TEXT_10, "OFFSET"); TextFromRows(41, 9, 0, TEXT_9, TEXT_10, "OF");
    TextFromRows(42, 9, 3, TEXT_9, TEXT_10, "SET"); TextFromRows(43, 9, 5, TEXT_9, TEXT_10, "TEMPORARY");
  }

  lemma Spelled11()
    ensures Spells(TEXT_9, TEXT_10, 5, "TEMP") && Spells(TEXT_9, TEXT_10, 9, "OR")
      && Spells(TEXT_9, TEXT_10, 14, "UNIQUE") && Spells(TEXT_9, TEXT_10, 17, "QUERY")
  {
  }

  lemma Entries11()
    ensures Entry(44, "TEMP", 4, 167) && Entry(45, "OR", 2, 171) && Entry(46, "UNIQUE", 6, 176)
      && Entry(47, "QUERY", 5, 179) && RowIs(9, TEXT_9) && RowIs(10, TEXT_10)
  {
  }

  lemma Text11()
    ensures TextOk(44) && TextOk(45) && TextOk(46) && TextOk(47)
  {
    hide TextOk, Spells, Entry, RowIs;
    Spelled11(); Entries11();
    TextFromRows(44, 9, 5, TEXT_9, TEXT_10, "TEMP"); TextFromRows(45, 9, 9, TEXT_9, TEXT_10, "OR");
    TextFromRows(46, 9, 14, TEXT_9, TEXT_10, "UNIQUE"); TextFromRows(47, 9, 17, TEXT_9, TEXT_10, "QUERY");
  }

  lemma Spelled12()
    ensures Spells(TEXT_10, TEXT_11, 4, "WITHOUT") && Spells(TEXT_10, TEXT_11, 4, "WITH")
      && Spells(TEXT_10, TEXT_11, 8, "OUTER") && Spells(TEXT_10, TEXT_11, 12, "RELEASE")
  {
  }

  lemma Entries12()
    ensures Entry(48, "WITHOUT", 7, 184) && Entry(49, "WITH", 4, 184) && Entry(50, "OUTER", 5, 188)
      && Entry(51, "RELEASE", 7, 192) && RowIs(10, TEXT_10) && RowIs(11, TEXT_11)
  {
  }

  lemma Text12()
    ensures TextOk(48) && TextOk(49) && TextOk(50) && TextOk(51)
  {
    hide TextOk, Spells, Entry, RowIs;
    Spelled12(); Entries12();
    TextFromRows(48, 10, 4, TEXT_10, TEXT_11, "WITHOUT"); TextFromRows(49, 10, 4, TEXT_10, TEXT_11, "WITH");
    TextFromRows(50, 10, 8, TEXT_10, TEXT_11, "OUTER"); TextFromRows(51, 10, 12, TEXT_10, TEXT_11, "RELEASE");
  }

  lemma Spelled13()
    ensures Spells(TEXT_11, TEXT_12, 1, "ATTACH") && Spells(TEXT_11, TEXT_12, 6, "HAVING")
      && Spells(TEXT_11, TEXT_12, 11, "GROUP") && Spells(TEXT_11, TEXT_12, 14, "UPDATE")
  {
  }

  lemma Entries13()
    ensures Entry(52, "ATTACH", 6, 199) && Entry(53, "HAVING", 6, 204) && Entry(54, "GROUP", 5, 209)
      && Entry(55, "UPDATE", 6, 212) && RowIs(11, TEXT_11) && RowIs(12, TEXT_12)
  {
  }

  lemma Text13()
    ensures TextOk(52) && TextOk(53) && TextOk(54) && TextOk(55)
  {
    hide TextOk, Spells, Entry, RowIs;
    Spelled13(); Entries13();
    TextFromRows(52, 11, 1, TEXT_11, TEXT_12, "ATTACH"); TextFromRows(53, 11, 6, TEXT_11, TEXT_12, "HAVING");
    TextFromRows(54, 11, 11, TEXT_11, TEXT_12, "GROUP"); TextFromRows(55, 11, 14, TEXT_11, TEXT_12, "UPDATE");
  }

  lemma Spelled14()
    ensures Spells(TEXT_12, TEXT_13, 2, "BEGIN") && Spells(TEXT_12, TEXT_13, 5, "INNER")
      && Spells(TEXT_12, TEXT_13, 9, "RECURSIVE") && Spells(TEXT_13, TEXT_14, 0, "BETWEEN")
  {
  }

  lemma Entries14()
    ensures Entry(56, "BEGIN", 5, 218) && Entry(57, "INNER", 5, 221) && Entry(58, "RECURSIVE", 9, 225)
      && Entry(59, "BETWEEN", 7, 234) && RowIs(12, TEXT_12) && RowIs(13, TEXT_13) && RowIs(14, TEXT_14)
  {
  }

  lemma Text14()
    ensures TextOk(56) && TextOk(57) && TextOk(58) && TextOk(59)
  {
    hide TextOk, Spells, Entry, RowIs;
    Spelled14(); Entries14();
    TextFromRows(56, 12, 2, TEXT_12, TEXT_13, "BEGIN"); TextFromRows(57, 12, 5, TEXT_12, TEXT_13, "INNER");
    TextFromRows(58, 12, 9, TEXT_12, TEXT_13, "RECURSIVE");
    TextFromRows(59, 13, 0, TEXT_13, TEXT_14, "BETWEEN");
  }

  lemma Spelled15()
    ensures Spells(TEXT_13, TEXT_14, 6, "NOTNULL") && Spells(TEXT_13, TEXT_14, 6, "NOT")
      && Spells(TEXT_13, TEXT_14, 6, "NO") && Spells(TEXT_13, TEXT_14, 9, "NULL")
  {
  }

  lemma Entries15()
    ensures Entry(60, "NOTNULL", 7, 240) && Entry(61, "NOT", 3, 240) && Entry(62, "NO", 2, 240)
      && Entry(63, "NULL", 4, 243) && RowIs(13, TEXT_13) && RowIs(14, TEXT_14)
  {
  }

  lemma Text15()
    ensures TextOk(60) && TextOk(61) && TextOk(62) && TextOk(63)
  {
    hide TextOk, Spells, Entry, RowIs;
    Spelled15(); Entries15();
    TextFromRows(60, 13, 6, TEXT_13, TEXT_14, "NOTNULL"); TextFromRows(61, 13, 6, TEXT_13, TEXT_14, "NOT");
    TextFromRows(62, 13, 6, TEXT_13, TEXT_14, "NO"); TextFromRows(63, 13, 9, TEXT_13, TEXT_14, "NULL");
  }

  lemma Spelled16()
    ensures Spells(TEXT_13, TEXT_14, 12, "LIKE") && Spells(TEXT_13, TEXT_14, 16, "CASCADE")
      && Spells(TEXT_13, TEXT_14, 17, "ASC") && Spells(TEXT_14, TEXT_15, 3, "DELETE")
  {
  }

  lemma Entries16()
    ensures Entry(64, "LIKE", 4, 246) && Entry(65, "CASCADE", 7, 250) && Entry(66, "ASC", 3, 251)
      && Entry(67, "DELETE", 6, 255) && RowIs(13, TEXT_13) && RowIs(14, TEXT_14) && RowIs(15, TEXT_15)
  {
  }

  lemma Text16()
    ensures TextOk(64) && TextOk(65) && TextOk(66) && TextOk(67)
  {
    hide TextOk, Spells, Entry, RowIs;
    Spelled16(); Entries16();
    TextFromRows(64, 13, 12, TEXT_13, TEXT_14, "LIKE"); TextFromRows(65, 13, 16, TEXT_13, TEXT_14, "CASCADE");
    TextFromRows(66, 13, 17, TEXT_13, TEXT_14, "ASC"); TextFromRows(67, 14, 3, TEXT_14, TEXT_15, "DELETE");
  }

  lemma Spelled17()
    ensures Spells(TEXT_14, TEXT_15, 9, "CASE") && Spells(TEXT_14, TEXT_15, 13, "COLLATE")
      && Spells(TEXT_15, TEXT_16, 2, "CREATE") && Spells(TEXT_15, TEXT_16, 8, "CURRENT_DATE")
  {
  }

  lemma Entries17()
    ensures Entry(68, "CASE", 4, 261) && Entry(69, "COLLATE", 7, 265) && Entry(70, "CREATE", 6, 272)
      && Entry(71, "CURRENT_DATE", 12, 278) && RowIs(14, TEXT_14) && RowIs(15, TEXT_15) && RowIs(16, TEXT_16)
  {
  }

  lemma Text17()
    ensures TextOk(68) && TextOk(69) && TextOk(70) && TextOk(71)
  {
    hide TextOk, Spells, Entry, RowIs;
    Spelled17(); Entries17();
    TextFromRows(68, 14, 9, TEXT_14, TEXT_15, "CASE"); TextFromRows(69, 14, 13, TEXT_14, TEXT_15, "COLLATE");
    TextFromRows(70, 15, 2, TEXT_15, TEXT_16, "CREATE");
    TextFromRows(71, 15, 8, TEXT_15, TEXT_16, "CURRENT_DATE");
  }

  lemma Spelled18()
    ensures Spells(TEXT_16, TEXT_17, 2, "DETACH") && Spells(TEXT_16, TEXT_17, 8, "IMMEDIATE")
      && Spells(TEXT_16, TEXT_17, 17, "JOIN") && Spells(TEXT_17, TEXT_18, 1, "INSERT")
  {
  }

  lemma Entries18()
    ensures Entry(72, "DETACH", 6, 290) && Entry(73, "IMMEDIATE", 9, 296) && Entry(74, "JOIN", 4, 305)
      && Entry(75, "INSERT", 6, 307) && RowIs(16, TEXT_16) && RowIs(17, TEXT_17) && RowIs(18, TEXT_18)
  {
  }

  lemma Text18()
    ensures TextOk(72) && TextOk(73) && TextOk(74) && TextOk(75)
  {
    hide TextOk, Spells, Entry, RowIs;
    Spelled18(); Entries18();
    TextFromRows(72, 16, 2, TEXT_16, TEXT_17, "DETACH"); TextFromRows(73, 16, 8, TEXT_16, TEXT_17, "IMMEDIATE");
    TextFromRows(74, 16, 17, TEXT_16, TEXT_17, "JOIN"); TextFromRows(75, 17, 1, TEXT_17, TEXT_18, "INSERT");
  }

  lemma Spelled19()
    ensures Spells(TEXT_17, TEXT_18, 7, "MATCH") && Spells(TEXT_17, TEXT_18, 12, "PLAN")
      && Spells(TEXT_17, TEXT_18, 14, "ANALYZE") && Spells(TEXT_18, TEXT_19, 3, "PRAGMA")
  {
  }

  lemma Entries19()
    ensures Entry(76, "MATCH", 5, 313) && Entry(77, "PLAN", 4, 318) && Entry(78, "ANALYZE", 7, 320)
      && Entry(79, "PRAGMA", 6, 327) && RowIs(17, TEXT_17) && RowIs(18, TEXT_18) && RowIs(19, TEXT_19)
  {
  }

  lemma Text19()
    ensures TextOk(76) && TextOk(77) && TextOk(78) && TextOk(79)
  {
    hide TextOk, Spells, Entry, RowIs;
    Spelled19(); Entries19();
    TextFromRows(76, 17, 7, TEXT_17, TEXT_18, "MATCH"); TextFromRows(77, 17, 12, TEXT_17, TEXT_18, "PLAN");
    TextFromRows(78, 17, 14, TEXT_17, TEXT_18, "ANALYZE"); TextFromRows(79, 18, 3, TEXT_18, TEXT_19, "PRAGMA");
  }

  lemma Spelled20()
    ensures Spells(TEXT_18, TEXT_19, 8, "ABORT") && Spells(TEXT_18, TEXT_19, 13, "VALUES")
      && Spells(TEXT_19, TEXT_20, 1, "VIRTUAL") && Spells(TEXT_19, TEXT_20, 7, "LIMIT")
  {
  }

  lemma Entries20()
    ensures Entry(80, "ABORT", 5, 332) && Entry(81, "VALUES", 6, 337) && Entry(82, "VIRTUAL", 7, 343)
      && Entry(83, "LIMIT", 5, 349) && RowIs(18, TEXT_18) && RowIs(19, TEXT_19) && RowIs(20, TEXT_20)
  {
  }

  lemma Text20()
    ensures TextOk(80) && TextOk(81) && TextOk(82) && TextOk(83)
  {
    hide TextOk, Spells, Entry, RowIs;
    Spelled20(); Entries20();
    TextFromRows(80, 18, 8, TEXT_18, TEXT_19, "ABORT"); TextFromRows(81, 18, 13, TEXT_18, TEXT_19, "VALUES");
    TextFromRows(82, 19, 1, TEXT_19, TEXT_20, "VIRTUAL"); TextFromRows(83, 19, 7, TEXT_19, TEXT_20, "LIMIT");
  }

  lemma Spelled21()
    ensures Spells(TEXT_19, TEXT_20, 12, "WHEN") && Spells(TEXT_19, TEXT_20, 16, "WHERE")
      && Spells(TEXT_20, TEXT_21, 1, "RENAME") && Spells(TEXT_20, TEXT_21, 7, "AFTER")
  {
  }

  lemma Entries21()
    ensures Entry(84, "WHEN", 4, 354) && Entry(85, "WHERE", 5, 358) && Entry(86, "RENAME", 6, 361)
      && Entry(87, "AFTER", 5, 367) && RowIs(19, TEXT_19) && RowIs(20, TEXT_20) && RowIs(21, TEXT_21)
  {
  }

  lemma Text21()
    ensures TextOk(84) && TextOk(85) && TextOk(86) && TextOk(87)
  {
    hide TextOk, Spells, Entry, RowIs;
    Spelled21(); Entries21();
    TextFromRows(84, 19, 12, TEXT_19, TEXT_20, "WHEN"); TextFromRows(85, 19, 16, TEXT_19, TEXT_20, "WHERE");
    TextFromRows(86, 20, 1, TEXT_20, TEXT_21, "RENAME"); TextFromRows(87, 20, 7, TEXT_20, TEXT_21, "AFTER");
  }

  lemma Spelled22()
    ensures Spells(TEXT_20, TEXT_21, 11, "REPLACE") && Spells(TEXT_21, TEXT_22, 0, "AND")
      && Spells(TEXT_21, TEXT_22, 2, "DEFAULT") && Spells(TEXT_21, TEXT_22, 9, "AUTOINCREMENT")
  {
  }

  lemma Entries22()
    ensures Entry(88, "REPLACE", 7, 371) && Entry(89, "AND", 3, 378) && Entry(90, "DEFAULT", 7, 380)
      && Entry(91, "AUTOINCREMENT", 13, 387) && RowIs(20, TEXT_20) && RowIs(21, TEXT_21) && RowIs(22, TEXT_22)
  {
  }

  lemma Text22()
    ensures TextOk(88) && TextOk(89) && TextOk(90) && TextOk(91)
  {
    hide TextOk, Spells, Entry, RowIs;
    Spelled22(); Entries22();
    TextFromRows(88, 20, 11, TEXT_20, TEXT_21, "REPLACE"); TextFromRows(89, 21, 0, TEXT_21, TEXT_22, "AND");
    TextFromRows(90, 21, 2, TEXT_21, TEXT_22, "DEFAULT");
    TextFromRows(91, 21, 9, TEXT_21, TEXT_22, "AUTOINCREMENT");
  }

  lemma Spelled23()
    ensures Spells(TEXT_21, TEXT_22, 11, "TO") && Spells(TEXT_21, TEXT_22, 13, "IN")
      && Spells(TEXT_22, TEXT_23, 4, "CAST") && Spells(TEXT_22, TEXT_23, 8, "COLUMN")
  {
  }

  lemma Entries23()
    ensures Entry(92, "TO", 2, 389) && Entry(93, "IN", 2, 391) && Entry(94, "CAST", 4, 400)
      && Entry(95, "COLUMN", 6, 404) && RowIs(21, TEXT_21) && RowIs(22, TEXT_22) && RowIs(23, TEXT_23)
  {
  }

  lemma Text23()
    ensures TextOk(92) && TextOk(93) && TextOk(94) && TextOk(95)
  {
    hide TextOk, Spells, Entry, RowIs;
    Spelled23(); Entries23();
    TextFromRows(92, 21, 11, TEXT_21, TEXT_22, "TO"); TextFromRows(93, 21, 13, TEXT_21, TEXT_22, "IN");
    TextFromRows(94, 22, 4, TEXT_22, TEXT_23, "CAST"); TextFromRows(95, 22, 8, TEXT_22, TEXT_23, "COLUMN");
  }

  lemma Spelled24()
    ensures Spells(TEXT_22, TEXT_23, 14, "COMMIT") && Spells(TEXT_23, TEXT_24, 2, "CONFLICT")
      && Spells(TEXT_23, TEXT_24, 10, "CROSS") && Spells(TEXT_23, TEXT_24, 15, "CURRENT_TIMESTAMP")
  {
  }

  lemma Entries24()
    ensures Entry(96, "COMMIT", 6, 410) && Entry(97, "CONFLICT", 8, 416) && Entry(98, "CROSS", 5, 424)
      && Entry(99, "CURRENT_TIMESTAMP", 17, 429) && RowIs(22, TEXT_22) && RowIs(23, TEXT_23) && RowIs(24, TEXT_24)
  {
  }

  lemma Text24()
    ensures TextOk(96) && TextOk(97) && TextOk(98) && TextOk(99)
  {
    hide TextOk, Spells, Entry, RowIs;
    Spelled24(); Entries24();
    TextFromRows(96, 22, 14, TEXT_22, TEXT_23, "COMMIT"); TextFromRows(97, 23, 2, TEXT_23, TEXT_24, "CONFLICT");
    TextFromRows(98, 23, 10, TEXT_23, TEXT_24, "CROSS");
    TextFromRows(99, 23, 15, TEXT_23, TEXT_24, "CURRENT_TIMESTAMP");
  }

  lemma Spelled25()
    ensures Spells(TEXT_23, TEXT_24, 15, "CURRENT_TIME") && Spells(TEXT_24, TEXT_25, 13, "PRIMARY")
      && Spells(TEXT_25, TEXT_26, 2, "DEFERRED") && Spells(TEXT_25, TEXT_26, 9, "DISTINCT")
  {
  }

  lemma Entries25()
    ensures Entry(100, "CURRENT_TIME", 12, 429) && Entry(101, "PRIMARY", 7, 445) && Entry(102, "DEFERRED", 8, 452)
      && Entry(103, "DISTINCT", 8, 459) && RowIs(23, TEXT_23) && RowIs(24, TEXT_24) && RowIs(25, TEXT_25)
      && RowIs(26, TEXT_26)
  {
  }

  lemma Text25()
    ensures TextOk(100) && TextOk(101) && TextOk(102) && TextOk(103)
  {
    hide TextOk, Spells, Entry, RowIs;
    Spelled25(); Entries25();
    TextFromRows(100, 23, 15, TEXT_23, TEXT_24, "CURRENT_TIME");
    TextFromRows(101, 24, 13, TEXT_24, TEXT_25, "PRIMARY");
    TextFromRows(102, 25, 2, TEXT_25, TEXT_26, "DEFERRED");
    TextFromRows(103, 25, 9, TEXT_25, TEXT_26, "DISTINCT");
  }

  lemma Spelled26()
    ensures Spells(TEXT_25, TEXT_26, 10, "IS") && Spells(TEXT_25, TEXT_26, 17, "DROP")
      && Spells(TEXT_26, TEXT_27, 3, "FAIL") && Spells(TEXT_26, TEXT_27, 7, "FROM")
  {
  }

  lemma Entries26()
    ensures Entry(104, "IS", 2, 460) && Entry(105, "DROP", 4, 467) && Entry(106, "FAIL", 4, 471)
      && Entry(107, "FROM", 4, 475) && RowIs(25, TEXT_25) && RowIs(26, TEXT_26) && RowIs(27, TEXT_27)
  {
  }

  lemma Text26()
    ensures TextOk(104) && TextOk(105) && TextOk(106) && TextOk(107)
  {
    hide TextOk, Spells, Entry, RowIs;
    Spelled26(); Entries26();
    TextFromRows(104, 25, 10, TEXT_25, TEXT_26, "IS"); TextFromRows(105, 25, 17, TEXT_25, TEXT_26, "DROP");
    TextFromRows(106, 26, 3, TEXT_26, TEXT_27, "FAIL"); TextFromRows(107, 26, 7, TEXT_26, TEXT_27, "FROM");
  }

  lemma Spelled27()
    ensures Spells(TEXT_26, TEXT_27, 11, "FULL") && Spells(TEXT_26, TEXT_27, 15, "GLOB")
      && Spells(TEXT_27, TEXT_28, 0, "BY") && Spells(TEXT_27, TEXT_28, 2, "IF")
  {
  }

  lemma Entries27()
    ensures Entry(108, "FULL", 4, 479) && Entry(109, "GLOB", 4, 483) && Entry(110, "BY", 2, 486)
      && Entry(111, "IF", 2, 488) && RowIs(26, TEXT_26) && RowIs(27, TEXT_27) && RowIs(28, TEXT_28)
  {
  }

  lemma Text27()
    ensures TextOk(108) && TextOk(109) && TextOk(110) && TextOk(111)
  {
    hide TextOk, Spells, Entry, RowIs;
    Spelled27(); Entries27();
    TextFromRows(108, 26, 11, TEXT_26, TEXT_27, "FULL"); TextFromRows(109, 26, 15, TEXT_26, TEXT_27, "GLOB");
    TextFromRows(110, 27, 0, TEXT_27, TEXT_28, "BY"); TextFromRows(111, 27, 2, TEXT_27, TEXT_28, "IF");
  }

  lemma Spelled28()
    ensures Spells(TEXT_27, TEXT_28, 4, "ISNULL") && Spells(TEXT_27, TEXT_28, 10, "ORDER")
      && Spells(TEXT_27, TEXT_28, 14, "RESTRICT") && Spells(TEXT_28, TEXT_29, 4, "RIGHT")
  {
  }

  lemma Entries28()
    ensures Entry(112, "ISNULL", 6, 490) && Entry(113, "ORDER", 5, 496) && Entry(114, "RESTRICT", 8, 500)
      && Entry(115, "RIGHT", 5, 508) && RowIs(27, TEXT_27) && RowIs(28, TEXT_28) && RowIs(29, TEXT_29)
  {
  }

  lemma Text28()
    ensures TextOk(112) && TextOk(113) && TextOk(114) && TextOk(115)
  {
    hide TextOk, Spells, Entry, RowIs;
    Spelled28(); Entries28();
    TextFromRows(112, 27, 4, TEXT_27, TEXT_28, "ISNULL"); TextFromRows(113, 27, 10, TEXT_27, TEXT_28, "ORDER");
    TextFromRows(114, 27, 14, TEXT_27, TEXT_28, "RESTRICT");
    TextFromRows(115, 28, 4, TEXT_28, TEXT_29, "RIGHT");
  }

  lemma Spelled29()
    ensures Spells(TEXT_28, TEXT_29, 9, "ROLLBACK") && Spells(TEXT_28, TEXT_29, 17, "ROW")
      && Spells(TEXT_29, TEXT_30, 2, "UNION") && Spells(TEXT_29, TEXT_30, 7, "USING")
  {
  }

  lemma Entries29()
    ensures Entry(116, "ROLLBACK", 8, 513) && Entry(117, "ROW", 3, 521) && Entry(118, "UNION", 5, 524)
      && Entry(119, "USING", 5, 529) && RowIs(28, TEXT_28) && RowIs(29, TEXT_29) && RowIs(30, TEXT_30)
  {
  }

  lemma Text29()
    ensures TextOk(116) && TextOk(117) && TextOk(118) && TextOk(119)
  {
    hide TextOk, Spells, Entry, RowIs;
    Spelled29(); Entries29();
    TextFromRows(116, 28, 9, TEXT_28, TEXT_29, "ROLLBACK"); TextFromRows(117, 28, 17, TEXT_28, TEXT_29, "ROW");
    TextFromRows(118, 29, 2, TEXT_29, TEXT_30, "UNION"); TextFromRows(119, 29, 7, TEXT_29, TEXT_30, "USING");
  }

  lemma Spelled30()
    ensures Spells(TEXT_29, TEXT_30, 12, "VACUUM") && Spells(TEXT_29, TEXT_30, 18, "VIEW")
      && Spells(TEXT_29, TEXT_30, 22, "INITIALLY") && Spells(TEXT_29, TEXT_30, 27, "ALL")
  {
  }

  lemma Entries30()
    ensures Entry(120, "VACUUM", 6, 534) && Entry(121, "VIEW", 4, 540) && Entry(122, "INITIALLY", 9, 544)
      && Entry(123, "ALL", 3, 549) && RowIs(29, TEXT_29) && RowIs(30, TEXT_30)
  {
  }

  lemma Text30()
    ensures TextOk(120) && TextOk(121) && TextOk(122) && TextOk(123)
  {
    hide TextOk, Spells, Entry, RowIs;
    Spelled30(); Entries30();
    TextFromRows(120, 29, 12, TEXT_29, TEXT_30, "VACUUM"); TextFromRows(121, 29, 18, TEXT_29, TEXT_30, "VIEW");
    TextFromRows(122, 29, 22, TEXT_29, TEXT_30, "INITIALLY");
    TextFromRows(123, 29, 27, TEXT_29, TEXT_30, "ALL");
  }

  lemma Texts(k: nat)
    requires k < 124
    ensures TextOk(k)
  {
    hide *;
    if
    case 0 <= k <= 3 => Text0(); assert k == 0 || k == 1 || k == 2 || k == 3;
    case 4 <= k <= 7 => Text1(); assert k == 4 || k == 5 || k == 6 || k == 7;
    case 8 <= k <= 11 => Text2(); assert k == 8 || k == 9 || k == 10 || k == 11;
    case 12 <= k <= 15 => Text3(); assert k == 12 || k == 13 || k == 14 || k == 15;
    case 16 <= k <= 19 => Text4(); assert k == 16 || k == 17 || k == 18 || k == 19;
    case 20 <= k <= 23 => Text5(); assert k == 20 || k == 21 || k == 22 || k == 23;
    case 24 <= k <= 27 => Text6(); assert k == 24 || k == 25 || k == 26 || k == 27;
    case 28 <= k <= 31 => Text7(); assert k == 28 || k == 29 || k == 30 || k == 31;
    case 32 <= k <= 35 => Text8(); assert k == 32 || k == 33 || k == 34 || k == 35;
    case 36 <= k <= 39 => Text9(); assert k == 36 || k == 37 || k == 38 || k == 39;
    case 40 <= k <= 43 => Text10(); assert k == 40 || k == 41 || k == 42 || k == 43;
    case 44 <= k <= 47 => Text11(); assert k == 44 || k == 45 || k == 46 || k == 47;
    case 48 <= k <= 51 => Text12(); assert k == 48 || k == 49 || k == 50 || k == 51;
    case 52 <= k <= 55 => Text13(); assert k == 52 || k == 53 || k == 54 || k == 55;
    case 56 <= k <= 59 => Text14(); assert k == 56 || k == 57 || k == 58 || k == 59;
    case 60 <= k <= 63 => Text15(); assert k == 60 || k == 61 || k == 62 || k == 63;
    case 64 <= k <= 67 => Text16(); assert k == 64 || k == 65 || k == 66 || k == 67;
    case 68 <= k <= 71 => Text17(); assert k == 68 || k == 69 || k == 70 || k == 71;
    case 72 <= k <= 75 => Text18(); assert k == 72 || k == 73 || k == 74 || k == 75;
    case 76 <= k <= 79 => Text19(); assert k == 76 || k == 77 || k == 78 || k == 79;
    case 80 <= k <= 83 => Text20(); assert k == 80 || k == 81 || k == 82 || k == 83;
    case 84 <= k <= 87 => Text21(); assert k == 84 || k == 85 || k == 86 || k == 87;
    case 88 <= k <= 91 => Text22(); assert k == 88 || k == 89 || k == 90 || k == 91;
    case 92 <= k <= 95 => Text23(); assert k == 92 || k == 93 || k == 94 || k == 95;
    case 96 <= k <= 99 => Text24(); assert k == 96 || k == 97 || k == 98 || k == 99;
    case 100 <= k <= 103 => Text25(); assert k == 100 || k == 101 || k == 102 || k == 103;
    case 104 <= k <= 107 => Text26(); assert k == 104 || k == 105 || k == 106 || k == 107;
    case 108 <= k <= 111 => Text27(); assert k == 108 || k == 109 || k == 110 || k == 111;
    case 112 <= k <= 115 => Text28(); assert k == 112 || k == 113 || k == 114 || k == 115;
    case 116 <= k <= 119 => Text29(); assert k == 116 || k == 117 || k == 118 || k == 119;
    case 120 <= k <= 123 => Text30(); assert k == 120 || k == 121 || k == 122 || k == 123;
  }

  /** Keyword k is first on the chain of its bucket, or the one before it there links to it. */
  predicate LinkOk(k: nat)
    requires k < 124
  {
    && BucketAt(k) < 127 && NextAt(k) <= k
    && (if PrevAt(k) == 0 then HashAt(BucketAt(k)) == k + 1
        else k + 1 < PrevAt(k) <= 124 && NextAt(PrevAt(k) - 1) == k + 1 && BucketAt(PrevAt(k) - 1) == BucketAt(k))
  }

  lemma FirstInBucket(k: nat, bucket: nat)
    requires k < 124 && bucket < 127 && BucketAt(k) == bucket && PrevAt(k) == 0 && HashAt(bucket) == k + 1
    requires NextAt(k) <= k
    ensures LinkOk(k)
  {
  }

  lemma LinkedFrom(k: nat, bucket: nat, p: nat)
    requires k < p < 124 && bucket < 127 && BucketAt(k) == bucket == BucketAt(p)
    requires PrevAt(k) == p + 1 && NextAt(p) == k + 1 && NextAt(k) <= k
    ensures LinkOk(k)
  {
  }

  lemma Link0()
    ensures LinkOk(0) && LinkOk(1) && LinkOk(2) && LinkOk(3) && LinkOk(4) && LinkOk(5)
  {
    hide LinkOk;
    LinkedFrom(0, 40, 68); LinkedFrom(1, 16, 14); LinkedFrom(2, 74, 54); LinkedFrom(3, 62, 4);
    FirstInBucket(4, 62); FirstInBucket(5, 41);
  }

  lemma Link1()
    ensures LinkOk(6) && LinkOk(7) && LinkOk(8) && LinkOk(9) && LinkOk(10) && LinkOk(11)
  {
    hide LinkOk;
    LinkedFrom(6, 73, 27); LinkedFrom(7, 69, 103); FirstInBucket(8, 34); LinkedFrom(9, 86, 91);
    LinkedFrom(10, 78, 99); FirstInBucket(11, 14);
  }

  lemma Link2()
    ensures LinkOk(12) && LinkOk(13) && LinkOk(14) && LinkOk(15) && LinkOk(16) && LinkOk(17)
  {
    hide LinkOk;
    LinkedFrom(12, 31, 21); FirstInBucket(13, 90); FirstInBucket(14, 16); LinkedFrom(15, 44, 89);
    FirstInBucket(16, 56); FirstInBucket(17, 96);
  }

  lemma Link3()
    ensures LinkOk(18) && LinkOk(19) && LinkOk(20) && LinkOk(21) && LinkOk(22) && LinkOk(23)
  {
    hide LinkOk;
    FirstInBucket(18, 23); FirstInBucket(19, 123); LinkedFrom(20, 105, 45); FirstInBucket(21, 31);
    FirstInBucket(22, 60); FirstInBucket(23, 54);
  }

  lemma Link4()
    ensures LinkOk(24) && LinkOk(25) && LinkOk(26) && LinkOk(27) && LinkOk(28) && LinkOk(29)
  {
    hide LinkOk;
    FirstInBucket(24, 64); FirstInBucket(25, 79); LinkedFrom(26, 18, 115); FirstInBucket(27, 73);
    FirstInBucket(28, 117); LinkedFrom(29, 124, 60);
  }

  lemma Link5()
    ensures LinkOk(30) && LinkOk(31) && LinkOk(32) && LinkOk(33) && LinkOk(34) && LinkOk(35)
  {
    hide LinkOk;
    LinkedFrom(30, 88, 87); FirstInBucket(31, 99); LinkedFrom(32, 51, 43); LinkedFrom(33, 76, 90);
    LinkedFrom(34, 26, 120); FirstInBucket(35, 114);
  }

  lemma Link6()
    ensures LinkOk(36) && LinkOk(37) && LinkOk(38) && LinkOk(39) && LinkOk(40) && LinkOk(41)
  {
    hide LinkOk;
    LinkedFrom(36, 2, 116); LinkedFrom(37, 28, 64); FirstInBucket(38, 91); FirstInBucket(39, 110);
    LinkedFrom(40, 103, 74); FirstInBucket(41, 13);
  }

  lemma Link7()
    ensures LinkOk(42) && LinkOk(43) && LinkOk(44) && LinkOk(45) && LinkOk(46) && LinkOk(47)
  {
    hide LinkOk;
    LinkedFrom(42, 20, 53); FirstInBucket(43, 51); FirstInBucket(44, 5); FirstInBucket(45, 105);
    LinkedFrom(46, 126, 55); FirstInBucket(47, 43);
  }

  lemma Link8()
    ensures LinkOk(48) && LinkOk(49) && LinkOk(50) && LinkOk(51) && LinkOk(52) && LinkOk(53)
  {
    hide LinkOk;
    LinkedFrom(48, 8, 81); LinkedFrom(49, 97, 51); LinkedFrom(50, 112, 113); LinkedFrom(51, 97, 88);
    FirstInBucket(52, 59); FirstInBucket(53, 20);
  }

  lemma Link9()
    ensures LinkOk(54) && LinkOk(55) && LinkOk(56) && LinkOk(57) && LinkOk(58) && LinkOk(59)
  {
    hide LinkOk;
    FirstInBucket(54, 74); FirstInBucket(55, 126); FirstInBucket(56, 72); LinkedFrom(57, 120, 62);
    FirstInBucket(58, 111); FirstInBucket(59, 70);
  }

  lemma Link10()
    ensures LinkOk(60) && LinkOk(61) && LinkOk(62) && LinkOk(63) && LinkOk(64) && LinkOk(65)
  {
    hide LinkOk;
    FirstInBucket(60, 124); FirstInBucket(61, 104); FirstInBucket(62, 120); FirstInBucket(63, 121);
    LinkedFrom(64, 28, 82); LinkedFrom(65, 37, 69);
  }

  lemma Link11()
    ensures LinkOk(66) && LinkOk(67) && LinkOk(68) && LinkOk(69) && LinkOk(70) && LinkOk(71)
  {
    hide LinkOk;
    LinkedFrom(66, 47, 72); LinkedFrom(67, 58, 121); FirstInBucket(68, 40); FirstInBucket(69, 37);
    FirstInBucket(70, 38); LinkedFrom(71, 48, 100);
  }

  lemma Link12()
    ensures LinkOk(72) && LinkOk(73) && LinkOk(74) && LinkOk(75) && LinkOk(76) && LinkOk(77)
  {
    hide LinkOk;
    LinkedFrom(72, 47, 117); FirstInBucket(73, 3); LinkedFrom(74, 103, 112); FirstInBucket(75, 0);
    FirstInBucket(76, 10); FirstInBucket(77, 15);
  }

  lemma Link13()
    ensures LinkOk(78) && LinkOk(79) && LinkOk(80) && LinkOk(81) && LinkOk(82) && LinkOk(83)
  {
    hide LinkOk;
    LinkedFrom(78, 45, 101); FirstInBucket(79, 102); FirstInBucket(80, 94); FirstInBucket(81, 8);
    LinkedFrom(82, 28, 118); FirstInBucket(83, 106);
  }

  lemma Link14()
    ensures LinkOk(84) && LinkOk(85) && LinkOk(86) && LinkOk(87) && LinkOk(88) && LinkOk(89)
  {
    hide LinkOk;
    FirstInBucket(84, 19); FirstInBucket(85, 119); LinkedFrom(86, 98, 110); FirstInBucket(87, 88);
    FirstInBucket(88, 97); FirstInBucket(89, 44);
  }

  lemma Link15()
    ensures LinkOk(90) && LinkOk(91) && LinkOk(92) && LinkOk(93) && LinkOk(94) && LinkOk(95)
  {
    hide LinkOk;
    FirstInBucket(90, 76); FirstInBucket(91, 86); FirstInBucket(92, 32); FirstInBucket(93, 109);
    FirstInBucket(94, 85); FirstInBucket(95, 65);
  }

  lemma Link16()
    ensures LinkOk(96) && LinkOk(97) && LinkOk(98) && LinkOk(99) && LinkOk(100) && LinkOk(101)
  {
    hide LinkOk;
    FirstInBucket(96, 87); LinkedFrom(97, 89, 106); FirstInBucket(98, 81); FirstInBucket(99, 78);
    FirstInBucket(100, 48); FirstInBucket(101, 45);
  }

  lemma Link17()
    ensures LinkOk(102) && LinkOk(103) && LinkOk(104) && LinkOk(105) && LinkOk(106) && LinkOk(107)
  {
    hide LinkOk;
    FirstInBucket(102, 53); LinkedFrom(103, 69, 105); FirstInBucket(104, 1); FirstInBucket(105, 69);
    LinkedFrom(106, 89, 108); FirstInBucket(107, 92);
  }

  lemma Link18()
    ensures LinkOk(108) && LinkOk(109) && LinkOk(110) && LinkOk(111) && LinkOk(112) && LinkOk(113)
  {
    hide LinkOk;
    FirstInBucket(108, 89); FirstInBucket(109, 63); FirstInBucket(110, 98); FirstInBucket(111, 21);
    FirstInBucket(112, 103); FirstInBucket(113, 112);
  }

  lemma Link19()
    ensures LinkOk(114) && LinkOk(115) && LinkOk(116) && LinkOk(117) && LinkOk(118) && LinkOk(119)
  {
    hide LinkOk;
    FirstInBucket(114, 29); FirstInBucket(115, 18); FirstInBucket(116, 2); FirstInBucket(117, 47);
    FirstInBucket(118, 28); FirstInBucket(119, 101);
  }

  lemma Link20()
    ensures LinkOk(120) && LinkOk(121) && LinkOk(122) && LinkOk(123)
  {
    hide LinkOk;
    FirstInBucket(120, 26); FirstInBucket(121, 58); FirstInBucket(122, 71); FirstInBucket(123, 68);
  }

  lemma Links(k: nat)
    requires k < 124
    ensures LinkOk(k)
  {
    hide *;
    if
    case 0 <= k <= 5 => Link0(); assert k == 0 || k == 1 || k == 2 || k == 3 || k == 4 || k == 5;
    case 6 <= k <= 11 => Link1(); assert k == 6 || k == 7 || k == 8 || k == 9 || k == 10 || k == 11;
    case 12 <= k <= 17 => Link2(); assert k == 12 || k == 13 || k == 14 || k == 15 || k == 16 || k == 17;
    case 18 <= k <= 23 => Link3(); assert k == 18 || k == 19 || k == 20 || k == 21 || k == 22 || k == 23;
    case 24 <= k <= 29 => Link4(); assert k == 24 || k == 25 || k == 26 || k == 27 || k == 28 || k == 29;
    case 30 <= k <= 35 => Link5(); assert k == 30 || k == 31 || k == 32 || k == 33 || k == 34 || k == 35;
    case 36 <= k <= 41 => Link6(); assert k == 36 || k == 37 || k == 38 || k == 39 || k == 40 || k == 41;
    case 42 <= k <= 47 => Link7(); assert k == 42 || k == 43 || k == 44 || k == 45 || k == 46 || k == 47;
    case 48 <= k <= 53 => Link8(); assert k == 48 || k == 49 || k == 50 || k == 51 || k == 52 || k == 53;
    case 54 <= k <= 59 => Link9(); assert k == 54 || k == 55 || k == 56 || k == 57 || k == 58 || k == 59;
    case 60 <= k <= 65 => Link10(); assert k == 60 || k == 61 || k == 62 || k == 63 || k == 64 || k == 65;
    case 66 <= k <= 71 => Link11(); assert k == 66 || k == 67 || k == 68 || k == 69 || k == 70 || k == 71;
    case 72 <= k <= 77 => Link12(); assert k == 72 || k == 73 || k == 74 || k == 75 || k == 76 || k == 77;
    case 78 <= k <= 83 => Link13(); assert k == 78 || k == 79 || k == 80 || k == 81 || k == 82 || k == 83;
    case 84 <= k <= 89 => Link14(); assert k == 84 || k == 85 || k == 86 || k == 87 || k == 88 || k == 89;
    case 90 <= k <= 95 => Link15(); assert k == 90 || k == 91 || k == 92 || k == 93 || k == 94 || k == 95;
    case 96 <= k <= 101 => Link16(); assert k == 96 || k == 97 || k == 98 || k == 99 || k == 100 || k == 101;
    case 102 <= k <= 107 => Link17(); assert k == 102 || k == 103 || k == 104 || k == 105 || k == 106 || k == 107;
    case 108 <= k <= 113 => Link18(); assert k == 108 || k == 109 || k == 110 || k == 111 || k == 112 || k == 113;
    case 114 <= k <= 119 => Link19(); assert k == 114 || k == 115 || k == 116 || k == 117 || k == 118 || k == 119;
    case 120 <= k <= 123 => Link20(); assert k == 120 || k == 121 || k == 122 || k == 123;
  }

  /** Keywords k and i are spelled differently: by length, or at the recorded place. */
  predicate Unlike(k: nat, i: nat)
    requires k < 124 && i < 124
  {
    |NameAt(k)| != |NameAt(i)| || (Place(k) < |NameAt(k)| && NameAt(k)[Place(k)] != NameAt(i)[Place(k)])
  }

  /** None of the keywords on a chain is spelled as keyword k. */
  predicate UnlikeAll(link: nat, k: nat)
    requires link <= 124 && k < 124
    decreases link
  {
    link == 0 || (Unlike(k, link - 1) && NextAt(link - 1) < link && UnlikeAll(NextAt(link - 1), k))
  }

  lemma UnlikeNone(k: nat)
    requires k < 124
    ensures UnlikeAll(0, k)
  {
  }

  lemma UnlikeOneMore(k: nat, i: nat)
    requires k < 124 && i < 124 && Unlike(k, i) && NextAt(i) <= i && UnlikeAll(NextAt(i), k)
    ensures UnlikeAll(i + 1, k)
  {
  }

  predicate RestOk(k: nat)
    requires k < 124
  {
    NextAt(k) <= 124 && UnlikeAll(NextAt(k), k)
  }

  lemma LastOfChain(k: nat)
    requires k < 124 && NextAt(k) == 0
    ensures RestOk(k)
  {
    UnlikeNone(k);
  }

  lemma OneAfter(k: nat, i: nat)
    requires k < 124 && i < 124 && NextAt(k) == i + 1 && NextAt(i) == 0 && Unlike(k, i)
    ensures RestOk(k)
  {
    hide Unlike, NextAt;
    UnlikeNone(k);
    UnlikeOneMore(k, i);
  }

  lemma TwoAfter(k: nat, i: nat, j: nat)
    requires k < 124 && j < i < 124 && NextAt(k) == i + 1 && NextAt(i) == j + 1 && NextAt(j) == 0
    requires Unlike(k, i) && Unlike(k, j)
    ensures RestOk(k)
  {
    hide Unlike, NextAt;
    UnlikeNone(k);
    UnlikeOneMore(k, j);
    UnlikeOneMore(k, i);
  }

  lemma ThreeAfter(k: nat, i: nat, j: nat, l: nat)
    requires k < 124 && l < j < i < 124 && NextAt(k) == i + 1 && NextAt(i) == j + 1 && NextAt(j) == l + 1
    requires NextAt(l) == 0 && Unlike(k, i) && Unlike(k, j) && Unlike(k, l)
    ensures RestOk(k)
  {
    hide Unlike, NextAt;
    UnlikeNone(k);
    UnlikeOneMore(k, l);
    UnlikeOneMore(k, j);
    UnlikeOneMore(k, i);
  }

  lemma Rest0()
    ensures RestOk(4) && RestOk(14) && RestOk(21)
  {
    hide RestOk, UnlikeAll;
    OneAfter(4, 3); OneAfter(14, 1); OneAfter(21, 12);
  }

  lemma Rest1()
    ensures RestOk(27) && RestOk(43) && RestOk(45)
  {
    hide RestOk, UnlikeAll;
    OneAfter(27, 6); OneAfter(43, 32); OneAfter(45, 20);
  }

  lemma Rest2()
    ensures RestOk(51) && RestOk(53) && RestOk(54)
  {
    hide RestOk, UnlikeAll;
    OneAfter(51, 49); OneAfter(53, 42); OneAfter(54, 2);
  }

  lemma Rest3()
    ensures RestOk(55) && RestOk(60) && RestOk(62)
  {
    hide RestOk, UnlikeAll;
    OneAfter(55, 46); OneAfter(60, 29); OneAfter(62, 57);
  }

  lemma Rest4()
    ensures RestOk(64) && RestOk(68) && RestOk(69)
  {
    hide RestOk, UnlikeAll;
    OneAfter(64, 37); OneAfter(68, 0); OneAfter(69, 65);
  }

  lemma Rest5()
    ensures RestOk(72) && RestOk(74) && RestOk(81)
  {
    hide RestOk, UnlikeAll;
    OneAfter(72, 66); OneAfter(74, 40); OneAfter(81, 48);
  }

  lemma Rest6()
    ensures RestOk(82) && RestOk(87) && RestOk(88)
  {
    hide RestOk, UnlikeAll;
    TwoAfter(82, 64, 37); OneAfter(87, 30); TwoAfter(88, 51, 49);
  }

  lemma Rest7()
    ensures RestOk(89) && RestOk(90) && RestOk(91)
  {
    hide RestOk, UnlikeAll;
    OneAfter(89, 15); OneAfter(90, 33); OneAfter(91, 9);
  }

  lemma Rest8()
    ensures RestOk(99) && RestOk(100) && RestOk(101)
  {
    hide RestOk, UnlikeAll;
    OneAfter(99, 10); OneAfter(100, 71); OneAfter(101, 78);
  }

  lemma Rest9()
    ensures RestOk(103) && RestOk(105) && RestOk(106)
  {
    hide RestOk, UnlikeAll;
    OneAfter(103, 7); TwoAfter(105, 103, 7); OneAfter(106, 97);
  }

  lemma Rest10()
    ensures RestOk(108) && RestOk(110) && RestOk(112)
  {
    hide RestOk, UnlikeAll;
    TwoAfter(108, 106, 97); OneAfter(110, 86); TwoAfter(112, 74, 40);
  }

  lemma Rest11()
    ensures RestOk(113) && RestOk(115) && RestOk(116)
  {
    hide RestOk, UnlikeAll;
    OneAfter(113, 50); OneAfter(115, 26); OneAfter(116, 36);
  }

  lemma Rest12()
    ensures RestOk(117) && RestOk(118) && RestOk(120)
  {
    hide RestOk, UnlikeAll;
    TwoAfter(117, 72, 66); ThreeAfter(118, 82, 64, 37); OneAfter(120, 34);
  }

  lemma Rest13()
    ensures RestOk(121)
  {
    hide RestOk, UnlikeAll;
    OneAfter(121, 67);
  }

  /** The keywords that another one follows on its chain. */
  const FOLLOWED: set<nat> := {
    4, 14, 21, 27, 43, 45, 51, 53, 54, 55, 60, 62, 64, 68, 69, 72, 74, 81, 82, 87, 88, 89, 90, 91, 99, 100, 101,
    103, 105, 106, 108, 110, 112, 113, 115, 116, 117, 118, 120, 121
  }

  lemma OnlyTheseHaveNext(k: nat)
    requires k < 124 && NextAt(k) != 0
    ensures k in FOLLOWED
  {
    var r, c := k / 13, k % 13;
    NextRowNonzero(r, c);
    assert k == 13 * r + c;
  }

  lemma NextRowNonzero(r: nat, c: nat)
    requires r < 10 && c < |NextRow(r)| && NextRow(r)[c] != 0
    ensures 13 * r + c in FOLLOWED
  {
  }

  lemma Rests(k: nat)
    requires k < 124
    ensures RestOk(k)
  {
    hide RestOk, UnlikeAll, NextRow;
    if NextAt(k) == 0 {
      LastOfChain(k);
    } else {
      OnlyTheseHaveNext(k);
      Rest0();
      Rest1();
      Rest2();
      Rest3();
      Rest4();
      Rest5();
      Rest6();
      Rest7();
      Rest8();
      Rest9();
      Rest10();
      Rest11();
      Rest12();
      Rest13();
    }
  }

  lemma RowsInRange(k: nat)
    requires k < 127
    ensures HashAt(k) <= 124
  {
    HashRowInRange(k / 13, k % 13);
  }

  lemma HashRowInRange(r: nat, c: nat)
    requires r < 10 && c < |HashRow(r)|
    ensures HashRow(r)[c] <= 124
  {
  }

  /** The text consists of capitals and underscores. */
  predicate IsKeywordChar(c: char) { 'A' <= c <= 'Z' || c == '_' }

  lemma TextIsLetters(k: nat)
    requires k < 553
    ensures IsKeywordChar(TextAt(k))
  {
    TextRowIsLetters(k / 18, k % 18);
  }

  lemma TextRowIsLetters(r: nat, c: nat)
    requires r < 31 && c < |TextRow(r)|
    ensures IsKeywordChar(TextRow(r)[c])
  {
    hide TextRow;
    if r < 8 {
      UpperRowsAreLetters(r, c);
    } else if r < 16 {
      UpperMiddleRowsAreLetters(r, c);
    } else if r < 24 {
      LowerMiddleRowsAreLetters(r, c);
    } else {
      LowerRowsAreLetters(r, c);
    }
  }

  lemma UpperRowsAreLetters(r: nat, c: nat)
    requires r < 8 && c < |TextRow(r)|
    ensures IsKeywordChar(TextRow(r)[c])
  {
  }

  lemma UpperMiddleRowsAreLetters(r: nat, c: nat)
    requires 8 <= r < 16 && c < |TextRow(r)|
    ensures IsKeywordChar(TextRow(r)[c])
  {
  }

  lemma LowerMiddleRowsAreLetters(r: nat, c: nat)
    requires 16 <= r < 24 && c < |TextRow(r)|
    ensures IsKeywordChar(TextRow(r)[c])
  {
  }

  lemma LowerRowsAreLetters(r: nat, c: nat)
    requires 24 <= r < 31 && c < |TextRow(r)|
    ensures IsKeywordChar(TextRow(r)[c])
  {
  }
}
