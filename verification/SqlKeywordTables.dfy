/**
  The tables of keywordhash.h, in the rows in which that file has them, and the keywords by name.
 */
module SqlKeywordTables {
  // token codes (parse.h)
  const TK_EXPLAIN := 2
  const TK_QUERY := 3
  const TK_PLAN := 4
  const TK_BEGIN := 5
  const TK_TRANSACTION := 6
  const TK_DEFERRED := 7
  const TK_IMMEDIATE := 8
  const TK_EXCLUSIVE := 9
  const TK_COMMIT := 10
  const TK_END := 11
  const TK_ROLLBACK := 12
  const TK_SAVEPOINT := 13
  const TK_RELEASE := 14
  const TK_TO := 15
  const TK_TABLE := 16
  const TK_CREATE := 17
  const TK_IF := 18
  const TK_NOT := 19
  const TK_EXISTS := 20
  const TK_TEMP := 21
  const TK_AS := 24
  const TK_WITHOUT := 25
  const TK_OR := 27
  const TK_AND := 28
  const TK_IS := 29
  const TK_MATCH := 30
  const TK_LIKE_KW := 31
  const TK_BETWEEN := 32
  const TK_IN := 33
  const TK_ISNULL := 34
  const TK_NOTNULL := 35
  const TK_ESCAPE := 42
  const TK_COLLATE := 53
  const TK_ID := 55
  const TK_INDEXED := 56
  const TK_ABORT := 57
  const TK_ACTION := 58
  const TK_AFTER := 59
  const TK_ANALYZE := 60
  const TK_ASC := 61
  const TK_ATTACH := 62
  const TK_BEFORE := 63
  const TK_BY := 64
  const TK_CASCADE := 65
  const TK_CAST := 66
  const TK_COLUMNKW := 67
  const TK_CONFLICT := 68
  const TK_DATABASE := 69
  const TK_DESC := 70
  const TK_DETACH := 71
  const TK_EACH := 72
  const TK_FAIL := 73
  const TK_FOR := 74
  const TK_IGNORE := 75
  const TK_INITIALLY := 76
  const TK_INSTEAD := 77
  const TK_NO := 78
  const TK_KEY := 79
  const TK_OF := 80
  const TK_OFFSET := 81
  const TK_PRAGMA := 82
  const TK_RAISE := 83
  const TK_RECURSIVE := 84
  const TK_REPLACE := 85
  const TK_RESTRICT := 86
  const TK_ROW := 87
  const TK_TRIGGER := 88
  const TK_VACUUM := 89
  const TK_VIEW := 90
  const TK_VIRTUAL := 91
  const TK_WITH := 92
  const TK_REINDEX := 93
  const TK_RENAME := 94
  const TK_CTIME_KW := 95
  const TK_JOIN_KW := 98
  const TK_CONSTRAINT := 99
  const TK_DEFAULT := 100
  const TK_NULL := 101
  const TK_PRIMARY := 102
  const TK_UNIQUE := 103
  const TK_CHECK := 104
  const TK_REFERENCES := 105
  const TK_AUTOINCR := 106
  const TK_ON := 107
  const TK_INSERT := 108
  const TK_DELETE := 109
  const TK_UPDATE := 110
  const TK_SET := 111
  const TK_DEFERRABLE := 112
  const TK_FOREIGN := 113
  const TK_DROP := 114
  const TK_UNION := 115
  const TK_ALL := 116
  const TK_EXCEPT := 117
  const TK_INTERSECT := 118
  const TK_SELECT := 119
  const TK_VALUES := 120
  const TK_DISTINCT := 121
  const TK_FROM := 123
  const TK_JOIN := 124
  const TK_USING := 125
  const TK_ORDER := 126
  const TK_GROUP := 127
  const TK_HAVING := 128
  const TK_LIMIT := 129
  const TK_WHERE := 130
  const TK_INTO := 131
  const TK_CASE := 136
  const TK_WHEN := 137
  const TK_THEN := 138
  const TK_ELSE := 139
  const TK_INDEX := 140
  const TK_ALTER := 141
  const TK_ADD := 142

  // zText: the keywords, overlapping
  const TEXT_0: string := "REINDEXEDESCAPEACH"
  const TEXT_1: string := "ECKEYBEFOREIGNOREG"
  const TEXT_2: string := "EXPLAINSTEADDATABA"
  const TEXT_3: string := "SELECTABLEFTHENDEF"
  const TEXT_4: string := "ERRABLELSEXCEPTRAN"
  const TEXT_5: string := "SACTIONATURALTERAI"
  const TEXT_6: string := "SEXCLUSIVEXISTSAVE"
  const TEXT_7: string := "POINTERSECTRIGGERE"
  const TEXT_8: string := "FERENCESCONSTRAINT"
  const TEXT_9: string := "OFFSETEMPORARYUNIQ"
  const TEXT_10: string := "UERYWITHOUTERELEAS"
  const TEXT_11: string := "EATTACHAVINGROUPDA"
  const TEXT_12: string := "TEBEGINNERECURSIVE"
  const TEXT_13: string := "BETWEENOTNULLIKECA"
  const TEXT_14: string := "SCADELETECASECOLLA"
  const TEXT_15: string := "TECREATECURRENT_DA"
  const TEXT_16: string := "TEDETACHIMMEDIATEJ"
  const TEXT_17: string := "OINSERTMATCHPLANAL"
  const TEXT_18: string := "YZEPRAGMABORTVALUE"
  const TEXT_19: string := "SVIRTUALIMITWHENWH"
  const TEXT_20: string := "ERENAMEAFTEREPLACE"
  const TEXT_21: string := "ANDEFAULTAUTOINCRE"
  const TEXT_22: string := "MENTCASTCOLUMNCOMM"
  const TEXT_23: string := "ITCONFLICTCROSSCUR"
  const TEXT_24: string := "RENT_TIMESTAMPRIMA"
  const TEXT_25: string := "RYDEFERREDISTINCTD"
  const TEXT_26: string := "ROPFAILFROMFULLGLO"
  const TEXT_27: string := "BYIFISNULLORDEREST"
  const TEXT_28: string := "RICTRIGHTROLLBACKR"
  const TEXT_29: string := "OWUNIONUSINGVACUUM"
  const TEXT_30: string := "VIEWINITIALLY"

  function TextRow(r: nat): (row: string)
    requires r < 31
    ensures |row| == if r == 30 then 13 else 18
  {
    match r
    case 0 => TEXT_0
    case 1 => TEXT_1
    case 2 => TEXT_2
    case 3 => TEXT_3
    case 4 => TEXT_4
    case 5 => TEXT_5
    case 6 => TEXT_6
    case 7 => TEXT_7
    case 8 => TEXT_8
    case 9 => TEXT_9
    case 10 => TEXT_10
    case 11 => TEXT_11
    case 12 => TEXT_12
    case 13 => TEXT_13
    case 14 => TEXT_14
    case 15 => TEXT_15
    case 16 => TEXT_16
    case 17 => TEXT_17
    case 18 => TEXT_18
    case 19 => TEXT_19
    case 20 => TEXT_20
    case 21 => TEXT_21
    case 22 => TEXT_22
    case 23 => TEXT_23
    case 24 => TEXT_24
    case 25 => TEXT_25
    case 26 => TEXT_26
    case 27 => TEXT_27
    case 28 => TEXT_28
    case 29 => TEXT_29
    case _ => TEXT_30
  }

  function TextAt(k: nat): char
    requires k < 553
  {
    TextRow(k / 18)[k % 18]
  }

  // aHash
  const HASH_0: seq<nat> := [76, 105, 117, 74, 0, 45, 0, 0, 82, 0, 77, 0, 0]
  const HASH_1: seq<nat> := [42, 12, 78, 15, 0, 116, 85, 54, 112, 0, 19, 0, 0]
  const HASH_2: seq<nat> := [121, 0, 119, 115, 0, 22, 93, 0, 9, 0, 0, 70, 71]
  const HASH_3: seq<nat> := [0, 69, 6, 0, 48, 90, 102, 0, 118, 101, 0, 0, 44]
  const HASH_4: seq<nat> := [0, 103, 24, 0, 17, 0, 122, 53, 23, 0, 5, 110, 25]
  const HASH_5: seq<nat> := [96, 0, 0, 124, 106, 60, 123, 57, 28, 55, 0, 91, 0]
  const HASH_6: seq<nat> := [100, 26, 0, 99, 0, 0, 0, 95, 92, 97, 88, 109, 14]
  const HASH_7: seq<nat> := [39, 108, 0, 81, 0, 18, 89, 111, 32, 0, 120, 80, 113]
  const HASH_8: seq<nat> := [62, 46, 84, 0, 0, 94, 40, 59, 114, 0, 36, 0, 0]
  const HASH_9: seq<nat> := [29, 0, 86, 63, 64, 0, 20, 61, 0, 56]

  function HashRow(r: nat): (row: seq<nat>)
    requires r < 10
    ensures |row| == if r == 9 then 10 else 13
  {
    match r
    case 0 => HASH_0
    case 1 => HASH_1
    case 2 => HASH_2
    case 3 => HASH_3
    case 4 => HASH_4
    case 5 => HASH_5
    case 6 => HASH_6
    case 7 => HASH_7
    case 8 => HASH_8
    case _ => HASH_9
  }

  function HashAt(k: nat): nat
    requires k < 127
  {
    HashRow(k / 13)[k % 13]
  }

  // aNext
  const NEXT_0: seq<nat> := [0, 0, 0, 0, 4, 0, 0, 0, 0, 0, 0, 0, 0]
  const NEXT_1: seq<nat> := [0, 2, 0, 0, 0, 0, 0, 0, 13, 0, 0, 0, 0]
  const NEXT_2: seq<nat> := [0, 7, 0, 0, 0, 0, 0, 0, 0, 0, 0, 0, 0]
  const NEXT_3: seq<nat> := [0, 0, 0, 0, 33, 0, 21, 0, 0, 0, 0, 0, 50]
  const NEXT_4: seq<nat> := [0, 43, 3, 47, 0, 0, 0, 0, 30, 0, 58, 0, 38]
  const NEXT_5: seq<nat> := [0, 0, 0, 1, 66, 0, 0, 67, 0, 41, 0, 0, 0]
  const NEXT_6: seq<nat> := [0, 0, 0, 49, 65, 0, 0, 0, 0, 31, 52, 16, 34]
  const NEXT_7: seq<nat> := [10, 0, 0, 0, 0, 0, 0, 0, 11, 72, 79, 0, 8]
  const NEXT_8: seq<nat> := [0, 104, 98, 0, 107, 0, 87, 0, 75, 51, 0, 27, 37]
  const NEXT_9: seq<nat> := [73, 83, 0, 35, 68, 0, 0]

  function NextRow(r: nat): (row: seq<nat>)
    requires r < 10
    ensures |row| == if r == 9 then 7 else 13
  {
    match r
    case 0 => NEXT_0
    case 1 => NEXT_1
    case 2 => NEXT_2
    case 3 => NEXT_3
    case 4 => NEXT_4
    case 5 => NEXT_5
    case 6 => NEXT_6
    case 7 => NEXT_7
    case 8 => NEXT_8
    case _ => NEXT_9
  }

  function NextAt(k: nat): nat
    requires k < 124
  {
    NextRow(k / 13)[k % 13]
  }

  // aLen
  const LEN_0: seq<nat> := [7, 7, 5, 4, 6, 4, 5, 3, 6, 7, 3, 6, 6]
  const LEN_1: seq<nat> := [7, 7, 3, 8, 2, 6, 5, 4, 4, 3, 10, 4, 6]
  const LEN_2: seq<nat> := [11, 6, 2, 7, 5, 5, 9, 6, 9, 9, 7, 10, 10]
  const LEN_3: seq<nat> := [4, 6, 2, 3, 9, 4, 2, 6, 5, 7, 4, 5, 7]
  const LEN_4: seq<nat> := [6, 6, 5, 6, 5, 5, 9, 7, 7, 3, 2, 4, 4]
  const LEN_5: seq<nat> := [7, 3, 6, 4, 7, 6, 12, 6, 9, 4, 6, 5, 4]
  const LEN_6: seq<nat> := [7, 6, 5, 6, 7, 5, 4, 5, 6, 5, 7, 3, 7]
  const LEN_7: seq<nat> := [13, 2, 2, 4, 6, 6, 8, 5, 17, 12, 7, 8, 8]
  const LEN_8: seq<nat> := [2, 4, 4, 4, 4, 4, 2, 2, 6, 5, 8, 5, 8]
  const LEN_9: seq<nat> := [3, 5, 5, 6, 4, 9, 3]

  function LenRow(r: nat): (row: seq<nat>)
    requires r < 10
    ensures |row| == if r == 9 then 7 else 13
  {
    match r
    case 0 => LEN_0
    case 1 => LEN_1
    case 2 => LEN_2
    case 3 => LEN_3
    case 4 => LEN_4
    case 5 => LEN_5
    case 6 => LEN_6
    case 7 => LEN_7
    case 8 => LEN_8
    case _ => LEN_9
  }

  function LenAt(k: nat): nat
    requires k < 124
  {
    LenRow(k / 13)[k % 13]
  }

  // aOffset
  const OFFSET_0: seq<nat> := [0, 2, 2, 8, 9, 14, 16, 20, 23, 25, 25, 29, 33]
  const OFFSET_1: seq<nat> := [36, 41, 46, 48, 53, 54, 59, 62, 65, 67, 69, 78, 81]
  const OFFSET_2: seq<nat> := [86, 91, 95, 96, 101, 105, 109, 117, 122, 128, 136, 142, 152]
  const OFFSET_3: seq<nat> := [159, 162, 162, 165, 167, 167, 171, 176, 179, 184, 184, 188, 192]
  const OFFSET_4: seq<nat> := [199, 204, 209, 212, 218, 221, 225, 234, 240, 240, 240, 243, 246]
  const OFFSET_5: seq<nat> := [250, 251, 255, 261, 265, 272, 278, 290, 296, 305, 307, 313, 318]
  const OFFSET_6: seq<nat> := [320, 327, 332, 337, 343, 349, 354, 358, 361, 367, 371, 378, 380]
  const OFFSET_7: seq<nat> := [387, 389, 391, 400, 404, 410, 416, 424, 429, 429, 445, 452, 459]
  const OFFSET_8: seq<nat> := [460, 467, 471, 475, 479, 483, 486, 488, 490, 496, 500, 508, 513]
  const OFFSET_9: seq<nat> := [521, 524, 529, 534, 540, 544, 549]

  function OffsetRow(r: nat): (row: seq<nat>)
    requires r < 10
    ensures |row| == if r == 9 then 7 else 13
  {
    match r
    case 0 => OFFSET_0
    case 1 => OFFSET_1
    case 2 => OFFSET_2
    case 3 => OFFSET_3
    case 4 => OFFSET_4
    case 5 => OFFSET_5
    case 6 => OFFSET_6
    case 7 => OFFSET_7
    case 8 => OFFSET_8
    case _ => OFFSET_9
  }

  function OffsetAt(k: nat): nat
    requires k < 124
  {
    OffsetRow(k / 13)[k % 13]
  }

  // aCode
  const CODE_0: seq<nat> := [TK_REINDEX, TK_INDEXED, TK_INDEX, TK_DESC, TK_ESCAPE]
  const CODE_1: seq<nat> := [TK_EACH, TK_CHECK, TK_KEY, TK_BEFORE, TK_FOREIGN]
  const CODE_2: seq<nat> := [TK_FOR, TK_IGNORE, TK_LIKE_KW, TK_EXPLAIN, TK_INSTEAD]
  const CODE_3: seq<nat> := [TK_ADD, TK_DATABASE, TK_AS, TK_SELECT, TK_TABLE]
  const CODE_4: seq<nat> := [TK_JOIN_KW, TK_THEN, TK_END, TK_DEFERRABLE, TK_ELSE]
  const CODE_5: seq<nat> := [TK_EXCEPT, TK_TRANSACTION, TK_ACTION, TK_ON, TK_JOIN_KW]
  const CODE_6: seq<nat> := [TK_ALTER, TK_RAISE, TK_EXCLUSIVE, TK_EXISTS, TK_SAVEPOINT]
  const CODE_7: seq<nat> := [TK_INTERSECT, TK_TRIGGER, TK_REFERENCES, TK_CONSTRAINT, TK_INTO]
  const CODE_8: seq<nat> := [TK_OFFSET, TK_OF, TK_SET, TK_TEMP, TK_TEMP]
  const CODE_9: seq<nat> := [TK_OR, TK_UNIQUE, TK_QUERY, TK_WITHOUT, TK_WITH]
  const CODE_10: seq<nat> := [TK_JOIN_KW, TK_RELEASE, TK_ATTACH, TK_HAVING, TK_GROUP]
  const CODE_11: seq<nat> := [TK_UPDATE, TK_BEGIN, TK_JOIN_KW, TK_RECURSIVE, TK_BETWEEN]
  const CODE_12: seq<nat> := [TK_NOTNULL, TK_NOT, TK_NO, TK_NULL, TK_LIKE_KW]
  const CODE_13: seq<nat> := [TK_CASCADE, TK_ASC, TK_DELETE, TK_CASE, TK_COLLATE]
  const CODE_14: seq<nat> := [TK_CREATE, TK_CTIME_KW, TK_DETACH, TK_IMMEDIATE, TK_JOIN]
  const CODE_15: seq<nat> := [TK_INSERT, TK_MATCH, TK_PLAN, TK_ANALYZE, TK_PRAGMA]
  const CODE_16: seq<nat> := [TK_ABORT, TK_VALUES, TK_VIRTUAL, TK_LIMIT, TK_WHEN]
  const CODE_17: seq<nat> := [TK_WHERE, TK_RENAME, TK_AFTER, TK_REPLACE, TK_AND]
  const CODE_18: seq<nat> := [TK_DEFAULT, TK_AUTOINCR, TK_TO, TK_IN, TK_CAST]
  const CODE_19: seq<nat> := [TK_COLUMNKW, TK_COMMIT, TK_CONFLICT, TK_JOIN_KW, TK_CTIME_KW]
  const CODE_20: seq<nat> := [TK_CTIME_KW, TK_PRIMARY, TK_DEFERRED, TK_DISTINCT, TK_IS]
  const CODE_21: seq<nat> := [TK_DROP, TK_FAIL, TK_FROM, TK_JOIN_KW, TK_LIKE_KW]
  const CODE_22: seq<nat> := [TK_BY, TK_IF, TK_ISNULL, TK_ORDER, TK_RESTRICT]
  const CODE_23: seq<nat> := [TK_JOIN_KW, TK_ROLLBACK, TK_ROW, TK_UNION, TK_USING]
  const CODE_24: seq<nat> := [TK_VACUUM, TK_VIEW, TK_INITIALLY, TK_ALL]

  function CodeRow(r: nat): (row: seq<nat>)
    requires r < 25
    ensures |row| == if r == 24 then 4 else 5
  {
    match r
    case 0 => CODE_0
    case 1 => CODE_1
    case 2 => CODE_2
    case 3 => CODE_3
    case 4 => CODE_4
    case 5 => CODE_5
    case 6 => CODE_6
    case 7 => CODE_7
    case 8 => CODE_8
    case 9 => CODE_9
    case 10 => CODE_10
    case 11 => CODE_11
    case 12 => CODE_12
    case 13 => CODE_13
    case 14 => CODE_14
    case 15 => CODE_15
    case 16 => CODE_16
    case 17 => CODE_17
    case 18 => CODE_18
    case 19 => CODE_19
    case 20 => CODE_20
    case 21 => CODE_21
    case 22 => CODE_22
    case 23 => CODE_23
    case _ => CODE_24
  }

  function CodeAt(k: nat): nat
    requires k < 124
  {
    CodeRow(k / 5)[k % 5]
  }

  // The keywords by name, in the order of their indices
  const NAME_0: seq<string> := ["REINDEX", "INDEXED", "INDEX", "DESC", "ESCAPE"]
  const NAME_1: seq<string> := ["EACH", "CHECK", "KEY", "BEFORE", "FOREIGN"]
  const NAME_2: seq<string> := ["FOR", "IGNORE", "REGEXP", "EXPLAIN", "INSTEAD"]
  const NAME_3: seq<string> := ["ADD", "DATABASE", "AS", "SELECT", "TABLE"]
  const NAME_4: seq<string> := ["LEFT", "THEN", "END", "DEFERRABLE", "ELSE"]
  const NAME_5: seq<string> := ["EXCEPT", "TRANSACTION", "ACTION", "ON", "NATURAL"]
  const NAME_6: seq<string> := ["ALTER", "RAISE", "EXCLUSIVE", "EXISTS", "SAVEPOINT"]
  const NAME_7: seq<string> := ["INTERSECT", "TRIGGER", "REFERENCES", "CONSTRAINT", "INTO"]
  const NAME_8: seq<string> := ["OFFSET", "OF", "SET", "TEMPORARY", "TEMP"]
  const NAME_9: seq<string> := ["OR", "UNIQUE", "QUERY", "WITHOUT", "WITH"]
  const NAME_10: seq<string> := ["OUTER", "RELEASE", "ATTACH", "HAVING", "GROUP"]
  const NAME_11: seq<string> := ["UPDATE", "BEGIN", "INNER", "RECURSIVE", "BETWEEN"]
  const NAME_12: seq<string> := ["NOTNULL", "NOT", "NO", "NULL", "LIKE"]
  const NAME_13: seq<string> := ["CASCADE", "ASC", "DELETE", "CASE", "COLLATE"]
  const NAME_14: seq<string> := ["CREATE", "CURRENT_DATE", "DETACH", "IMMEDIATE", "JOIN"]
  const NAME_15: seq<string> := ["INSERT", "MATCH", "PLAN", "ANALYZE", "PRAGMA"]
  const NAME_16: seq<string> := ["ABORT", "VALUES", "VIRTUAL", "LIMIT", "WHEN"]
  const NAME_17: seq<string> := ["WHERE", "RENAME", "AFTER", "REPLACE", "AND"]
  const NAME_18: seq<string> := ["DEFAULT", "AUTOINCREMENT", "TO", "IN", "CAST"]
  const NAME_19: seq<string> := ["COLUMN", "COMMIT", "CONFLICT", "CROSS", "CURRENT_TIMESTAMP"]
  const NAME_20: seq<string> := ["CURRENT_TIME", "PRIMARY", "DEFERRED", "DISTINCT", "IS"]
  const NAME_21: seq<string> := ["DROP", "FAIL", "FROM", "FULL", "GLOB"]
  const NAME_22: seq<string> := ["BY", "IF", "ISNULL", "ORDER", "RESTRICT"]
  const NAME_23: seq<string> := ["RIGHT", "ROLLBACK", "ROW", "UNION", "USING"]
  const NAME_24: seq<string> := ["VACUUM", "VIEW", "INITIALLY", "ALL"]

  function NameRow(r: nat): (row: seq<string>)
    requires r < 25
    ensures |row| == if r == 24 then 4 else 5
  {
    match r
    case 0 => NAME_0
    case 1 => NAME_1
    case 2 => NAME_2
    case 3 => NAME_3
    case 4 => NAME_4
    case 5 => NAME_5
    case 6 => NAME_6
    case 7 => NAME_7
    case 8 => NAME_8
    case 9 => NAME_9
    case 10 => NAME_10
    case 11 => NAME_11
    case 12 => NAME_12
    case 13 => NAME_13
    case 14 => NAME_14
    case 15 => NAME_15
    case 16 => NAME_16
    case 17 => NAME_17
    case 18 => NAME_18
    case 19 => NAME_19
    case 20 => NAME_20
    case 21 => NAME_21
    case 22 => NAME_22
    case 23 => NAME_23
    case _ => NAME_24
  }

  function NameAt(k: nat): string
    requires k < 124
  {
    NameRow(k / 5)[k % 5]
  }
}
