/**
  The buckets of the 124 keywords: the hash of keywordhash.h, worked out on machine words.
 */
module SqlKeywordBuckets {
  import opened KeywordSearch
  import opened SqlKeywordFacts
  import opened SqlKeywordTables

  /** The machine word of a lower-case letter. */
  function LetterWord(c: char): bv32 {
    match c
    case 'a' => 0x61 case 'b' => 0x62 case 'c' => 0x63 case 'd' => 0x64 case 'e' => 0x65 case 'f' => 0x66
    case 'g' => 0x67 case 'h' => 0x68 case 'i' => 0x69 case 'j' => 0x6A case 'k' => 0x6B case 'l' => 0x6C
    case 'm' => 0x6D case 'n' => 0x6E case 'o' => 0x6F case 'p' => 0x70 case 'q' => 0x71 case 'r' => 0x72
    case 's' => 0x73 case 't' => 0x74 case 'u' => 0x75 case 'v' => 0x76 case 'w' => 0x77 case 'x' => 0x78
    case 'y' => 0x79 case _ => 0x7A
  }

  /** The machine word of a keyword's length. */
  function LengthWord(n: nat): bv32 {
    match n
    case 2 => 2 case 3 => 3 case 4 => 4 case 5 => 5 case 6 => 6 case 7 => 7 case 8 => 8 case 9 => 9
    case 10 => 10 case 11 => 11 case 12 => 12 case 13 => 13 case _ => 17
  }

  lemma LettersFromA(c: char)
    requires 'a' <= c <= 'c'
    ensures (c as int) as bv32 == LetterWord(c)
  {
  }

  lemma LettersFromD(c: char)
    requires 'd' <= c <= 'f'
    ensures (c as int) as bv32 == LetterWord(c)
  {
  }

  lemma LettersFromG(c: char)
    requires 'g' <= c <= 'i'
    ensures (c as int) as bv32 == LetterWord(c)
  {
  }

  lemma LettersFromJ(c: char)
    requires 'j' <= c <= 'l'
    ensures (c as int) as bv32 == LetterWord(c)
  {
  }

  lemma LettersFromM(c: char)
    requires 'm' <= c <= 'o'
    ensures (c as int) as bv32 == LetterWord(c)
  {
  }

  lemma LettersFromP(c: char)
    requires 'p' <= c <= 'r'
    ensures (c as int) as bv32 == LetterWord(c)
  {
  }

  lemma LettersFromS(c: char)
    requires 's' <= c <= 'u'
    ensures (c as int) as bv32 == LetterWord(c)
  {
  }

  lemma LettersFromV(c: char)
    requires 'v' <= c <= 'x'
    ensures (c as int) as bv32 == LetterWord(c)
  {
  }

  lemma LettersFromY(c: char)
    requires 'y' <= c <= 'z'
    ensures (c as int) as bv32 == LetterWord(c)
  {
  }

  lemma LetterWordIsExact(c: char)
    requires 'a' <= c <= 'z'
    ensures (c as int) as bv32 == LetterWord(c)
  {
    hide LetterWord;
    if c <= 'c' {
      LettersFromA(c);
    } else if c <= 'f' {
      LettersFromD(c);
    } else if c <= 'i' {
      LettersFromG(c);
    } else if c <= 'l' {
      LettersFromJ(c);
    } else if c <= 'o' {
      LettersFromM(c);
    } else if c <= 'r' {
      LettersFromP(c);
    } else if c <= 'u' {
      LettersFromS(c);
    } else if c <= 'x' {
      LettersFromV(c);
    } else {
      LettersFromY(c);
    }
  }

  lemma ShortLengthIsExact(n: nat)
    requires 2 <= n <= 7
    ensures n as bv32 == LengthWord(n)
  {
  }

  lemma LongLengthIsExact(n: nat)
    requires 8 <= n <= 13 || n == 17
    ensures n as bv32 == LengthWord(n)
  {
  }

  function WordBucket(first: char, last: char, n: nat): nat {
    (HashBits(LetterWord(CharMap(first)), LetterWord(CharMap(last)), LengthWord(n)) as nat) % BUCKETS
  }

  lemma WordBucketIsHash(first: char, last: char, n: nat)
    requires IsUpper(first) && IsUpper(last) && (2 <= n <= 13 || n == 17)
    ensures Hash(first, last, n) == WordBucket(first, last, n)
  {
    hide HashBits;
    LetterWordIsExact(CharMap(first));
    LetterWordIsExact(CharMap(last));
    if n <= 7 {
      ShortLengthIsExact(n);
    } else {
      LongLengthIsExact(n);
    }
  }

  predicate HashOk(k: nat)
    requires k < 124
  {
    var name := NameAt(k);
    && (2 <= |name| <= 13 || |name| == 17)
    && IsUpper(name[0]) && IsUpper(name[|name| - 1])
    && WordBucket(name[0], name[|name| - 1], |name|) == BucketAt(k)
  }

  lemma HashFromName(k: nat, name: string, bucket: nat)
    requires k < 124 && (2 <= |name| <= 13 || |name| == 17) && IsUpper(name[0]) && IsUpper(name[|name| - 1])
    requires NameAt(k) == name && BucketAt(k) == bucket
    requires WordBucket(name[0], name[|name| - 1], |name|) == bucket
    ensures HashOk(k)
  {
  }

  lemma Hash0()
    ensures HashOk(0) && HashOk(1) && HashOk(2) && HashOk(3)
  {
    hide HashOk, NameAt;
    Entries0();
    HashFromName(0, "REINDEX", 40); HashFromName(1, "INDEXED", 16); HashFromName(2, "INDEX", 74);
    HashFromName(3, "DESC", 62);
  }

  lemma Hash1()
    ensures HashOk(4) && HashOk(5) && HashOk(6) && HashOk(7)
  {
    hide HashOk, NameAt;
    Entries1();
    HashFromName(4, "ESCAPE", 62); HashFromName(5, "EACH", 41); HashFromName(6, "CHECK", 73);
    HashFromName(7, "KEY", 69);
  }

  lemma Hash2()
    ensures HashOk(8) && HashOk(9) && HashOk(10) && HashOk(11)
  {
    hide HashOk, NameAt;
    Entries2();
    HashFromName(8, "BEFORE", 34); HashFromName(9, "FOREIGN", 86); HashFromName(10, "FOR", 78);
    HashFromName(11, "IGNORE", 14);
  }

  lemma Hash3()
    ensures HashOk(12) && HashOk(13) && HashOk(14) && HashOk(15)
  {
    hide HashOk, NameAt;
    Entries3();
    HashFromName(12, "REGEXP", 31); HashFromName(13, "EXPLAIN", 90); HashFromName(14, "INSTEAD", 16);
    HashFromName(15, "ADD", 44);
  }

  lemma Hash4()
    ensures HashOk(16) && HashOk(17) && HashOk(18) && HashOk(19)
  {
    hide HashOk, NameAt;
    Entries4();
    HashFromName(16, "DATABASE", 56); HashFromName(17, "AS", 96); HashFromName(18, "SELECT", 23);
    HashFromName(19, "TABLE", 123);
  }

  lemma Hash5()
    ensures HashOk(20) && HashOk(21) && HashOk(22) && HashOk(23)
  {
    hide HashOk, NameAt;
    Entries5();
    HashFromName(20, "LEFT", 105); HashFromName(21, "THEN", 31); HashFromName(22, "END", 60);
    HashFromName(23, "DEFERRABLE", 54);
  }

  lemma Hash6()
    ensures HashOk(24) && HashOk(25) && HashOk(26) && HashOk(27)
  {
    hide HashOk, NameAt;
    Entries6();
    HashFromName(24, "ELSE", 64); HashFromName(25, "EXCEPT", 79); HashFromName(26, "TRANSACTION", 18);
    HashFromName(27, "ACTION", 73);
  }

  lemma Hash7()
    ensures HashOk(28) && HashOk(29) && HashOk(30) && HashOk(31)
  {
    hide HashOk, NameAt;
    Entries7();
    HashFromName(28, "ON", 117); HashFromName(29, "NATURAL", 124); HashFromName(30, "ALTER", 88);
    HashFromName(31, "RAISE", 99);
  }

  lemma Hash8()
    ensures HashOk(32) && HashOk(33) && HashOk(34) && HashOk(35)
  {
    hide HashOk, NameAt;
    Entries8();
    HashFromName(32, "EXCLUSIVE", 51); HashFromName(33, "EXISTS", 76); HashFromName(34, "SAVEPOINT", 26);
    HashFromName(35, "INTERSECT", 114);
  }

  lemma Hash9()
    ensures HashOk(36) && HashOk(37) && HashOk(38) && HashOk(39)
  {
    hide HashOk, NameAt;
    Entries9();
    HashFromName(36, "TRIGGER", 2); HashFromName(37, "REFERENCES", 28); HashFromName(38, "CONSTRAINT", 91);
    HashFromName(39, "INTO", 110);
  }

  lemma Hash10()
    ensures HashOk(40) && HashOk(41) && HashOk(42) && HashOk(43)
  {
    hide HashOk, NameAt;
    Entries10();
    HashFromName(40, "OFFSET", 103); HashFromName(41, "OF", 13); HashFromName(42, "SET", 20);
    HashFromName(43, "TEMPORARY", 51);
  }

  lemma Hash11()
    ensures HashOk(44) && HashOk(45) && HashOk(46) && HashOk(47)
  {
    hide HashOk, NameAt;
    Entries11();
    HashFromName(44, "TEMP", 5); HashFromName(45, "OR", 105); HashFromName(46, "UNIQUE", 126);
    HashFromName(47, "QUERY", 43);
  }

  lemma Hash12()
    ensures HashOk(48) && HashOk(49) && HashOk(50) && HashOk(51)
  {
    hide HashOk, NameAt;
    Entries12();
    HashFromName(48, "WITHOUT", 8); HashFromName(49, "WITH", 97); HashFromName(50, "OUTER", 112);
    HashFromName(51, "RELEASE", 97);
  }

  lemma Hash13()
    ensures HashOk(52) && HashOk(53) && HashOk(54) && HashOk(55)
  {
    hide HashOk, NameAt;
    Entries13();
    HashFromName(52, "ATTACH", 59); HashFromName(53, "HAVING", 20); HashFromName(54, "GROUP", 74);
    HashFromName(55, "UPDATE", 126);
  }

  lemma Hash14()
    ensures HashOk(56) && HashOk(57) && HashOk(58) && HashOk(59)
  {
    hide HashOk, NameAt;
    Entries14();
    HashFromName(56, "BEGIN", 72); HashFromName(57, "INNER", 120); HashFromName(58, "RECURSIVE", 111);
    HashFromName(59, "BETWEEN", 70);
  }

  lemma Hash15()
    ensures HashOk(60) && HashOk(61) && HashOk(62) && HashOk(63)
  {
    hide HashOk, NameAt;
    Entries15();
    HashFromName(60, "NOTNULL", 124); HashFromName(61, "NOT", 104); HashFromName(62, "NO", 120);
    HashFromName(63, "NULL", 121);
  }

  lemma Hash16()
    ensures HashOk(64) && HashOk(65) && HashOk(66) && HashOk(67)
  {
    hide HashOk, NameAt;
    Entries16();
    HashFromName(64, "LIKE", 28); HashFromName(65, "CASCADE", 37); HashFromName(66, "ASC", 47);
    HashFromName(67, "DELETE", 58);
  }

  lemma Hash17()
    ensures HashOk(68) && HashOk(69) && HashOk(70) && HashOk(71)
  {
    hide HashOk, NameAt;
    Entries17();
    HashFromName(68, "CASE", 40); HashFromName(69, "COLLATE", 37); HashFromName(70, "CREATE", 38);
    HashFromName(71, "CURRENT_DATE", 48);
  }

  lemma Hash18()
    ensures HashOk(72) && HashOk(73) && HashOk(74) && HashOk(75)
  {
    hide HashOk, NameAt;
    Entries18();
    HashFromName(72, "DETACH", 47); HashFromName(73, "IMMEDIATE", 3); HashFromName(74, "JOIN", 103);
    HashFromName(75, "INSERT", 0);
  }

  lemma Hash19()
    ensures HashOk(76) && HashOk(77) && HashOk(78) && HashOk(79)
  {
    hide HashOk, NameAt;
    Entries19();
    HashFromName(76, "MATCH", 10); HashFromName(77, "PLAN", 15); HashFromName(78, "ANALYZE", 45);
    HashFromName(79, "PRAGMA", 102);
  }

  lemma Hash20()
    ensures HashOk(80) && HashOk(81) && HashOk(82) && HashOk(83)
  {
    hide HashOk, NameAt;
    Entries20();
    HashFromName(80, "ABORT", 94); HashFromName(81, "VALUES", 8); HashFromName(82, "VIRTUAL", 28);
    HashFromName(83, "LIMIT", 106);
  }

  lemma Hash21()
    ensures HashOk(84) && HashOk(85) && HashOk(86) && HashOk(87)
  {
    hide HashOk, NameAt;
    Entries21();
    HashFromName(84, "WHEN", 19); HashFromName(85, "WHERE", 119); HashFromName(86, "RENAME", 98);
    HashFromName(87, "AFTER", 88);
  }

  lemma Hash22()
    ensures HashOk(88) && HashOk(89) && HashOk(90) && HashOk(91)
  {
    hide HashOk, NameAt;
    Entries22();
    HashFromName(88, "REPLACE", 97); HashFromName(89, "AND", 44); HashFromName(90, "DEFAULT", 76);
    HashFromName(91, "AUTOINCREMENT", 86);
  }

  lemma Hash23()
    ensures HashOk(92) && HashOk(93) && HashOk(94) && HashOk(95)
  {
    hide HashOk, NameAt;
    Entries23();
    HashFromName(92, "TO", 32); HashFromName(93, "IN", 109); HashFromName(94, "CAST", 85);
    HashFromName(95, "COLUMN", 65);
  }

  lemma Hash24()
    ensures HashOk(96) && HashOk(97) && HashOk(98) && HashOk(99)
  {
    hide HashOk, NameAt;
    Entries24();
    HashFromName(96, "COMMIT", 87); HashFromName(97, "CONFLICT", 89); HashFromName(98, "CROSS", 81);
    HashFromName(99, "CURRENT_TIMESTAMP", 78);
  }

  lemma Hash25()
    ensures HashOk(100) && HashOk(101) && HashOk(102) && HashOk(103)
  {
    hide HashOk, NameAt;
    Entries25();
    HashFromName(100, "CURRENT_TIME", 48); HashFromName(101, "PRIMARY", 45); HashFromName(102, "DEFERRED", 53);
    HashFromName(103, "DISTINCT", 69);
  }

  lemma Hash26()
    ensures HashOk(104) && HashOk(105) && HashOk(106) && HashOk(107)
  {
    hide HashOk, NameAt;
    Entries26();
    HashFromName(104, "IS", 1); HashFromName(105, "DROP", 69); HashFromName(106, "FAIL", 89);
    HashFromName(107, "FROM", 92);
  }

  lemma Hash27()
    ensures HashOk(108) && HashOk(109) && HashOk(110) && HashOk(111)
  {
    hide HashOk, NameAt;
    Entries27();
    HashFromName(108, "FULL", 89); HashFromName(109, "GLOB", 63); HashFromName(110, "BY", 98);
    HashFromName(111, "IF", 21);
  }

  lemma Hash28()
    ensures HashOk(112) && HashOk(113) && HashOk(114) && HashOk(115)
  {
    hide HashOk, NameAt;
    Entries28();
    HashFromName(112, "ISNULL", 103); HashFromName(113, "ORDER", 112); HashFromName(114, "RESTRICT", 29);
    HashFromName(115, "RIGHT", 18);
  }

  lemma Hash29()
    ensures HashOk(116) && HashOk(117) && HashOk(118) && HashOk(119)
  {
    hide HashOk, NameAt;
    Entries29();
    HashFromName(116, "ROLLBACK", 2); HashFromName(117, "ROW", 47); HashFromName(118, "UNION", 28);
    HashFromName(119, "USING", 101);
  }

  lemma Hash30()
    ensures HashOk(120) && HashOk(121) && HashOk(122) && HashOk(123)
  {
    hide HashOk, NameAt;
    Entries30();
    HashFromName(120, "VACUUM", 26); HashFromName(121, "VIEW", 58); HashFromName(122, "INITIALLY", 71);
    HashFromName(123, "ALL", 68);
  }

  lemma Hashes(k: nat)
    requires k < 124
    ensures HashOk(k)
  {
    hide *;
    if
    case 0 <= k <= 3 => Hash0(); assert k == 0 || k == 1 || k == 2 || k == 3;
    case 4 <= k <= 7 => Hash1(); assert k == 4 || k == 5 || k == 6 || k == 7;
    case 8 <= k <= 11 => Hash2(); assert k == 8 || k == 9 || k == 10 || k == 11;
    case 12 <= k <= 15 => Hash3(); assert k == 12 || k == 13 || k == 14 || k == 15;
    case 16 <= k <= 19 => Hash4(); assert k == 16 || k == 17 || k == 18 || k == 19;
    case 20 <= k <= 23 => Hash5(); assert k == 20 || k == 21 || k == 22 || k == 23;
    case 24 <= k <= 27 => Hash6(); assert k == 24 || k == 25 || k == 26 || k == 27;
    case 28 <= k <= 31 => Hash7(); assert k == 28 || k == 29 || k == 30 || k == 31;
    case 32 <= k <= 35 => Hash8(); assert k == 32 || k == 33 || k == 34 || k == 35;
    case 36 <= k <= 39 => Hash9(); assert k == 36 || k == 37 || k == 38 || k == 39;
    case 40 <= k <= 43 => Hash10(); assert k == 40 || k == 41 || k == 42 || k == 43;
    case 44 <= k <= 47 => Hash11(); assert k == 44 || k == 45 || k == 46 || k == 47;
    case 48 <= k <= 51 => Hash12(); assert k == 48 || k == 49 || k == 50 || k == 51;
    case 52 <= k <= 55 => Hash13(); assert k == 52 || k == 53 || k == 54 || k == 55;
    case 56 <= k <= 59 => Hash14(); assert k == 56 || k == 57 || k == 58 || k == 59;
    case 60 <= k <= 63 => Hash15(); assert k == 60 || k == 61 || k == 62 || k == 63;
    case 64 <= k <= 67 => Hash16(); assert k == 64 || k == 65 || k == 66 || k == 67;
    case 68 <= k <= 71 => Hash17(); assert k == 68 || k == 69 || k == 70 || k == 71;
    case 72 <= k <= 75 => Hash18(); assert k == 72 || k == 73 || k == 74 || k == 75;
    case 76 <= k <= 79 => Hash19(); assert k == 76 || k == 77 || k == 78 || k == 79;
    case 80 <= k <= 83 => Hash20(); assert k == 80 || k == 81 || k == 82 || k == 83;
    case 84 <= k <= 87 => Hash21(); assert k == 84 || k == 85 || k == 86 || k == 87;
    case 88 <= k <= 91 => Hash22(); assert k == 88 || k == 89 || k == 90 || k == 91;
    case 92 <= k <= 95 => Hash23(); assert k == 92 || k == 93 || k == 94 || k == 95;
    case 96 <= k <= 99 => Hash24(); assert k == 96 || k == 97 || k == 98 || k == 99;
    case 100 <= k <= 103 => Hash25(); assert k == 100 || k == 101 || k == 102 || k == 103;
    case 104 <= k <= 107 => Hash26(); assert k == 104 || k == 105 || k == 106 || k == 107;
    case 108 <= k <= 111 => Hash27(); assert k == 108 || k == 109 || k == 110 || k == 111;
    case 112 <= k <= 115 => Hash28(); assert k == 112 || k == 113 || k == 114 || k == 115;
    case 116 <= k <= 119 => Hash29(); assert k == 116 || k == 117 || k == 118 || k == 119;
    case 120 <= k <= 123 => Hash30(); assert k == 120 || k == 121 || k == 122 || k == 123;
  }
}
