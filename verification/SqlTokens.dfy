/**
  The words of the terminals: the names that the parser's trace has for token codes, a table of their own in the
  source, agree with the codes that the recogniser returns for the keywords.
 */
module SqlTokens {
  import opened SqlKeywordTables

  // yyTokenName, as far as terminals go
  const TOKENS_0: seq<string> := ["$", "SEMI", "EXPLAIN", "QUERY", "PLAN", "BEGIN"]
  const TOKENS_1: seq<string> := ["TRANSACTION", "DEFERRED", "IMMEDIATE", "EXCLUSIVE", "COMMIT", "END"]
  const TOKENS_2: seq<string> := ["ROLLBACK", "SAVEPOINT", "RELEASE", "TO", "TABLE", "CREATE"]
  const TOKENS_3: seq<string> := ["IF", "NOT", "EXISTS", "TEMP", "LP", "RP"]
  const TOKENS_4: seq<string> := ["AS", "WITHOUT", "COMMA", "OR", "AND", "IS"]
  const TOKENS_5: seq<string> := ["MATCH", "LIKE_KW", "BETWEEN", "IN", "ISNULL", "NOTNULL"]
  const TOKENS_6: seq<string> := ["NE", "EQ", "GT", "LE", "LT", "GE"]
  const TOKENS_7: seq<string> := ["ESCAPE", "BITAND", "BITOR", "LSHIFT", "RSHIFT", "PLUS"]
  const TOKENS_8: seq<string> := ["MINUS", "STAR", "SLASH", "REM", "CONCAT", "COLLATE"]
  const TOKENS_9: seq<string> := ["BITNOT", "ID", "INDEXED", "ABORT", "ACTION", "AFTER"]
  const TOKENS_10: seq<string> := ["ANALYZE", "ASC", "ATTACH", "BEFORE", "BY", "CASCADE"]
  const TOKENS_11: seq<string> := ["CAST", "COLUMNKW", "CONFLICT", "DATABASE", "DESC", "DETACH"]
  const TOKENS_12: seq<string> := ["EACH", "FAIL", "FOR", "IGNORE", "INITIALLY", "INSTEAD"]
  const TOKENS_13: seq<string> := ["NO", "KEY", "OF", "OFFSET", "PRAGMA", "RAISE"]
  const TOKENS_14: seq<string> := ["RECURSIVE", "REPLACE", "RESTRICT", "ROW", "TRIGGER", "VACUUM"]
  const TOKENS_15: seq<string> := ["VIEW", "VIRTUAL", "WITH", "REINDEX", "RENAME", "CTIME_KW"]
  const TOKENS_16: seq<string> := ["ANY", "STRING", "JOIN_KW", "CONSTRAINT", "DEFAULT", "NULL"]
  const TOKENS_17: seq<string> := ["PRIMARY", "UNIQUE", "CHECK", "REFERENCES", "AUTOINCR", "ON"]
  const TOKENS_18: seq<string> := ["INSERT", "DELETE", "UPDATE", "SET", "DEFERRABLE", "FOREIGN"]
  const TOKENS_19: seq<string> := ["DROP", "UNION", "ALL", "EXCEPT", "INTERSECT", "SELECT"]
  const TOKENS_20: seq<string> := ["VALUES", "DISTINCT", "DOT", "FROM", "JOIN", "USING"]
  const TOKENS_21: seq<string> := ["ORDER", "GROUP", "HAVING", "LIMIT", "WHERE", "INTO"]
  const TOKENS_22: seq<string> := ["FLOAT", "BLOB", "INTEGER", "VARIABLE", "CASE", "WHEN"]
  const TOKENS_23: seq<string> := ["THEN", "ELSE", "INDEX", "ALTER", "ADD"]

  function TokenRow(r: nat): (row: seq<string>)
    requires r < 24
    ensures |row| == if r == 23 then 5 else 6
  {
    match r
    case 0 => TOKENS_0
    case 1 => TOKENS_1
    case 2 => TOKENS_2
    case 3 => TOKENS_3
    case 4 => TOKENS_4
    case 5 => TOKENS_5
    case 6 => TOKENS_6
    case 7 => TOKENS_7
    case 8 => TOKENS_8
    case 9 => TOKENS_9
    case 10 => TOKENS_10
    case 11 => TOKENS_11
    case 12 => TOKENS_12
    case 13 => TOKENS_13
    case 14 => TOKENS_14
    case 15 => TOKENS_15
    case 16 => TOKENS_16
    case 17 => TOKENS_17
    case 18 => TOKENS_18
    case 19 => TOKENS_19
    case 20 => TOKENS_20
    case 21 => TOKENS_21
    case 22 => TOKENS_22
    case _ => TOKENS_23
  }

  const TERMINALS := 143

  function TokenName(code: nat): string
    requires code < TERMINALS
  {
    TokenRow(code / 6)[code % 6]
  }

  // The words of the terminals that stand for several, or for one that is longer than their names
  const JOIN_WORDS: seq<string> := ["LEFT", "NATURAL", "OUTER", "INNER", "CROSS", "FULL", "RIGHT"]
  const LIKE_WORDS: seq<string> := ["REGEXP", "LIKE", "GLOB"]
  const TIME_WORDS: seq<string> := ["CURRENT_DATE", "CURRENT_TIMESTAMP", "CURRENT_TIME"]
  const TEMP_WORDS: seq<string> := ["TEMPORARY", "TEMP"]

  /** The word is one of the terminal with this name. */
  predicate IsWordOf(word: string, token: string) {
    if token == "JOIN_KW" then word in JOIN_WORDS
    else if token == "LIKE_KW" then word in LIKE_WORDS
    else if token == "CTIME_KW" then word in TIME_WORDS
    else if token == "TEMP" then word in TEMP_WORDS
    else if token == "AUTOINCR" then word == "AUTOINCREMENT"
    else if token == "COLUMNKW" then word == "COLUMN"
    else word == token
  }

  /** The code of keyword k is that of the terminal that its name is a word of. */
  ghost predicate CodeOk(k: nat)
    requires k < 124
  {
    CodeAt(k) < TERMINALS && IsWordOf(NameAt(k), TokenName(CodeAt(k)))
  }

  lemma IdIsNoKeyword()
    ensures TK_ID < TERMINALS && TokenName(TK_ID) == "ID"
  {
  }

  // ---------------------------------------------------------------- five keywords at a time

  lemma Codes0()
    ensures CodeOk(0) && CodeOk(1) && CodeOk(2) && CodeOk(3) && CodeOk(4)
  {
  }

  lemma Codes1()
    ensures CodeOk(5) && CodeOk(6) && CodeOk(7) && CodeOk(8) && CodeOk(9)
  {
  }

  lemma Codes2()
    ensures CodeOk(10) && CodeOk(11) && CodeOk(12) && CodeOk(13) && CodeOk(14)
  {
  }

  lemma Codes3()
    ensures CodeOk(15) && CodeOk(16) && CodeOk(17) && CodeOk(18) && CodeOk(19)
  {
  }

  lemma Codes4()
    ensures CodeOk(20) && CodeOk(21) && CodeOk(22) && CodeOk(23) && CodeOk(24)
  {
  }

  lemma Codes5()
    ensures CodeOk(25) && CodeOk(26) && CodeOk(27) && CodeOk(28) && CodeOk(29)
  {
  }

  lemma Codes6()
    ensures CodeOk(30) && CodeOk(31) && CodeOk(32) && CodeOk(33) && CodeOk(34)
  {
  }

  lemma Codes7()
    ensures CodeOk(35) && CodeOk(36) && CodeOk(37) && CodeOk(38) && CodeOk(39)
  {
  }

  lemma Codes8()
    ensures CodeOk(40) && CodeOk(41) && CodeOk(42) && CodeOk(43) && CodeOk(44)
  {
  }

  lemma Codes9()
    ensures CodeOk(45) && CodeOk(46) && CodeOk(47) && CodeOk(48) && CodeOk(49)
  {
  }

  lemma Codes10()
    ensures CodeOk(50) && CodeOk(51) && CodeOk(52) && CodeOk(53) && CodeOk(54)
  {
  }

  lemma Codes11()
    ensures CodeOk(55) && CodeOk(56) && CodeOk(57) && CodeOk(58) && CodeOk(59)
  {
  }

  lemma Codes12()
    ensures CodeOk(60) && CodeOk(61) && CodeOk(62) && CodeOk(63) && CodeOk(64)
  {
  }

  lemma Codes13()
    ensures CodeOk(65) && CodeOk(66) && CodeOk(67) && CodeOk(68) && CodeOk(69)
  {
  }

  lemma Codes14()
    ensures CodeOk(70) && CodeOk(71) && CodeOk(72) && CodeOk(73) && CodeOk(74)
  {
  }

  lemma Codes15()
    ensures CodeOk(75) && CodeOk(76) && CodeOk(77) && CodeOk(78) && CodeOk(79)
  {
  }

  lemma Codes16()
    ensures CodeOk(80) && CodeOk(81) && CodeOk(82) && CodeOk(83) && CodeOk(84)
  {
  }

  lemma Codes17()
    ensures CodeOk(85) && CodeOk(86) && CodeOk(87) && CodeOk(88) && CodeOk(89)
  {
  }

  lemma Codes18()
    ensures CodeOk(90) && CodeOk(91) && CodeOk(92) && CodeOk(93) && CodeOk(94)
  {
  }

  lemma Codes19()
    ensures CodeOk(95) && CodeOk(96) && CodeOk(97) && CodeOk(98) && CodeOk(99)
  {
  }

  lemma Codes20()
    ensures CodeOk(100) && CodeOk(101) && CodeOk(102) && CodeOk(103) && CodeOk(104)
  {
  }

  lemma Codes21()
    ensures CodeOk(105) && CodeOk(106) && CodeOk(107) && CodeOk(108) && CodeOk(109)
  {
  }

  lemma Codes22()
    ensures CodeOk(110) && CodeOk(111) && CodeOk(112) && CodeOk(113) && CodeOk(114)
  {
  }

  lemma Codes23()
    ensures CodeOk(115) && CodeOk(116) && CodeOk(117) && CodeOk(118) && CodeOk(119)
  {
  }

  lemma Codes24()
    ensures CodeOk(120) && CodeOk(121) && CodeOk(122) && CodeOk(123)
  {
  }

  /** Every keyword has the code of its terminal. */
  lemma Codes(k: nat)
    requires k < 124
    ensures CodeOk(k)
  {
    hide CodeOk;
    match k / 5
    case 0 => Codes0();
    case 1 => Codes1();
    case 2 => Codes2();
    case 3 => Codes3();
    case 4 => Codes4();
    case 5 => Codes5();
    case 6 => Codes6();
    case 7 => Codes7();
    case 8 => Codes8();
    case 9 => Codes9();
    case 10 => Codes10();
    case 11 => Codes11();
    case 12 => Codes12();
    case 13 => Codes13();
    case 14 => Codes14();
    case 15 => Codes15();
    case 16 => Codes16();
    case 17 => Codes17();
    case 18 => Codes18();
    case 19 => Codes19();
    case 20 => Codes20();
    case 21 => Codes21();
    case 22 => Codes22();
    case 23 => Codes23();
    case _ => Codes24();
  }
}
