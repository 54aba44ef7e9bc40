/**
  sqlite3KeywordCode: with the tables of keywordhash.h the recogniser knows exactly the 124 SQL keywords.
 */
module SqlKeywords {
  import opened KeywordSearch
  import opened SqlKeywordBuckets
  import opened SqlKeywordFacts
  import opened SqlKeywordTables
  import opened SqlTokens

  const SQL := Tables(
    seq(553, k requires 0 <= k < 553 => TextAt(k)),
    seq(127, k requires 0 <= k < 127 => HashAt(k)),
    seq(124, k requires 0 <= k < 124 => NextAt(k)),
    seq(124, k requires 0 <= k < 124 => LenAt(k)),
    seq(124, k requires 0 <= k < 124 => OffsetAt(k)),
    seq(124, k requires 0 <= k < 124 => CodeAt(k)))

  lemma SqlIsWellFormed()
    ensures WellFormed(SQL)
  {
    hide TextAt, HashAt, NextAt, LenAt, OffsetAt, CodeAt, NameAt, LinkOk;
    forall h | 0 <= h < 127
      ensures SQL.hash[h] <= 124
    {
      RowsInRange(h);
    }
    forall k | 0 <= k < 124
      ensures SQL.next[k] <= k && 2 <= SQL.len[k] < 0x8000_0000 && SQL.offset[k] + SQL.len[k] <= 553
    {
      Texts(k);
      NextIsBelow(k);
    }
    forall j | 0 <= j < 553
      ensures IsByte(SQL.text[j])
    {
      TextIsLetters(j);
    }
  }

  lemma NextIsBelow(k: nat)
    requires k < 124
    ensures NextAt(k) <= k
  {
    Links(k);
  }

  lemma ByteOfName(k: nat, j: nat)
    requires k < 124 && j < LenAt(k)
    ensures WellFormed(SQL) && LenAt(k) == |NameAt(k)| && KeywordByte(SQL, k, j) == NameAt(k)[j]
  {
    hide TextAt, NameAt, LenAt, OffsetAt;
    SqlIsWellFormed();
    Texts(k);
  }

  lemma BucketOfName(k: nat)
    requires k < 124
    ensures WellFormed(SQL) && BucketOf(SQL, k) == BucketAt(k)
    ensures IsUpper(KeywordByte(SQL, k, 0)) && IsUpper(KeywordByte(SQL, k, SQL.len[k] - 1))
  {
    hide Hash, WordBucket, NameAt, LenAt, BucketAt;
    Texts(k);
    Hashes(k);
    ByteOfName(k, 0);
    ByteOfName(k, LenAt(k) - 1);
    WordBucketIsHash(NameAt(k)[0], NameAt(k)[LenAt(k) - 1], LenAt(k));
  }

  lemma {:induction false} ChainExtends(t: Tables, link: nat, p: nat, k: nat)
    requires WellFormed(t) && link <= t.Count() && OnChain(t, link, p) && p < t.Count() && t.next[p] == k + 1
    ensures OnChain(t, link, k)
    decreases link
  {
    if link - 1 != p {
      ChainExtends(t, t.next[link - 1], p, k);
    } else {
      assert OnChain(t, t.next[p], k);
    }
  }

  lemma {:induction false} KeywordIsOnChain(k: nat, head: nat)
    requires k < 124 && WellFormed(SQL) && BucketAt(k) < 127 && head == HashAt(BucketAt(k)) && head <= 124
    ensures OnChain(SQL, head, k)
    decreases 124 - k
  {
    hide HashAt, BucketAt, NextAt, PrevAt, WellFormed;
    Links(k);
    if PrevAt(k) == 0 {
      HeadIsOnChain(k);
    } else {
      var p := PrevAt(k) - 1;
      KeywordIsOnChain(p, head);
      NextOfSql(p);
      ChainExtends(SQL, head, p, k);
    }
  }

  lemma HeadIsOnChain(k: nat)
    requires k < 124 && WellFormed(SQL)
    ensures OnChain(SQL, k + 1, k)
  {
  }

  lemma NextOfSql(p: nat)
    requires p < 124
    ensures SQL.Count() == 124 && SQL.next[p] == NextAt(p)
  {
  }

  lemma UnlikeMeans(k: nat, i: nat)
    requires k < 124 && i < 124 && Unlike(k, i)
    ensures WellFormed(SQL) && !SameText(SQL, k, i)
  {
    hide NameAt, LenAt, Place;
    SqlIsWellFormed();
    Texts(k);
    Texts(i);
    if |NameAt(k)| == |NameAt(i)| {
      ByteOfName(k, Place(k));
      ByteOfName(i, Place(k));
    }
  }

  lemma {:induction false} UnlikeAllMeans(link: nat, k: nat)
    requires link <= 124 && k < 124 && UnlikeAll(link, k)
    ensures WellFormed(SQL) && NoneSpelledAs(SQL, link, k)
    decreases link
  {
    hide NextAt, Unlike;
    SqlIsWellFormed();
    if link > 0 {
      UnlikeMeans(k, link - 1);
      UnlikeAllMeans(NextAt(link - 1), k);
    }
  }

  /** The shipped tables satisfy every invariant of the recogniser. */
  lemma SqlIsValid()
    ensures Valid(SQL)
  {
    hide WellFormed, IsUpper, OnChain, NoneSpelledAs, BucketOf, HashAt, BucketAt, NextAt, RestOk;
    SqlIsWellFormed();
    forall k | 0 <= k < 124
      ensures KeywordOk(SQL, k)
    {
      SqlKeywordOk(k);
    }
  }

  lemma SqlKeywordOk(k: nat)
    requires k < 124
    ensures WellFormed(SQL) && KeywordOk(SQL, k)
  {
    hide OnChain, NoneSpelledAs, BucketOf, HashAt, BucketAt, NextAt, UnlikeAll;
    SqlIsWellFormed();
    BucketOfName(k);
    Links(k);
    RowsInRange(BucketAt(k));
    KeywordIsOnChain(k, HashAt(BucketAt(k)));
    Rests(k);
    UnlikeAllMeans(NextAt(k), k);
  }

  /** The byte string is the name, up to the fold. */
  predicate IsSpelling(z: seq<char>, name: string)
    requires AreBytes(z)
  {
    |z| == |name| && forall j :: 0 <= j < |z| ==> Fold(z[j]) == name[j]
  }

  lemma MatchIsSpelling(z: seq<char>, k: nat)
    requires AreBytes(z) && k < 124
    ensures WellFormed(SQL) && (Matches(SQL, z, k) <==> IsSpelling(z, NameAt(k)))
  {
    hide NameAt, LenAt;
    SqlIsWellFormed();
    Texts(k);
    forall j | 0 <= j < LenAt(k)
      ensures KeywordByte(SQL, k, j) == NameAt(k)[j]
    {
      ByteOfName(k, j);
    }
  }

  /** No two of the names are the same, even up to the fold. */
  lemma NamesAreDistinct(z: seq<char>, k: nat, i: nat)
    requires AreBytes(z) && k < 124 && i < 124 && IsSpelling(z, NameAt(k)) && IsSpelling(z, NameAt(i))
    ensures k == i
  {
    hide NameAt, WellFormed, Matches;
    SqlIsValid();
    MatchIsSpelling(z, k);
    MatchIsSpelling(z, i);
    MatchIsUnique(SQL, z, k, i);
  }

  /**
    sqlite3KeywordCode: the code of the keyword that z spells, which is that of the terminal it is a word of, and the
    code of the terminal ID if it spells none.
   */
  method Sqlite3KeywordCode(z: seq<char>) returns (id: nat)
    requires AreBytes(z) && |z| < 0x8000_0000
    ensures id < TERMINALS
    ensures forall k :: 0 <= k < 124 && IsSpelling(z, NameAt(k)) ==>
      id == CodeAt(k) && IsWordOf(NameAt(k), TokenName(id))
    ensures (forall k :: 0 <= k < 124 ==> !IsSpelling(z, NameAt(k))) ==> id == TK_ID && TokenName(id) == "ID"
  {
    hide NameAt, CodeAt, WellFormed, Matches, IsSpelling, TokenName, IsWordOf;
    SqlIsValid();
    IdIsNoKeyword();
    var n;
    n, id := KeywordCode(SQL, z, TK_ID);
    forall k | 0 <= k < 124 && IsSpelling(z, NameAt(k))
      ensures id == CodeAt(k) && id < TERMINALS && IsWordOf(NameAt(k), TokenName(id))
    {
      MatchIsSpelling(z, k);
      ScanFinds(SQL, z, 0, k, TK_ID);
      Codes(k);
    }
    if forall k :: 0 <= k < 124 ==> !IsSpelling(z, NameAt(k)) {
      forall k | 0 <= k < 124
        ensures !Matches(SQL, z, k)
      {
        MatchIsSpelling(z, k);
      }
      ScanFails(SQL, z, 0, TK_ID);
    }
  }

  // ---------------------------------------------------------------- the fold and letter case

  /** Equal up to the case of ASCII letters. */
  predicate EqualButForCase(z: seq<char>, name: string) {
    |z| == |name| && forall j :: 0 <= j < |z| ==> CharMap(z[j]) == CharMap(name[j])
  }

  lemma FoldedByte(c: char, k: char)
    requires IsByte(c) && IsKeywordChar(k)
    ensures Fold(c) == k <==> CharMap(c) == CharMap(k) || (k == '_' && c == '\U{7F}')
  {
  }

  lemma NameIsLetters(k: nat, j: nat)
    requires k < 124 && j < |NameAt(k)|
    ensures IsKeywordChar(NameAt(k)[j])
  {
    hide NameAt, TextAt, LenAt, OffsetAt;
    Texts(k);
    TextIsLetters(OffsetAt(k) + j);
  }

  /**
    Every keyword is recognised in any case.  What else is recognised differs from a keyword in just this: byte
    0x7F stands for an underscore.
   */
  lemma SpellingIsCaselessIff(z: seq<char>, k: nat)
    requires AreBytes(z) && k < 124
    ensures EqualButForCase(z, NameAt(k)) ==> IsSpelling(z, NameAt(k))
    ensures IsSpelling(z, NameAt(k)) ==> (EqualButForCase(z, NameAt(k)) <==> '\U{7F}' !in z)
  {
    hide NameAt, Fold, CharMap;
    var name := NameAt(k);
    if |z| == |name| {
      forall j | 0 <= j < |z|
        ensures Fold(z[j]) == name[j] <==> CharMap(z[j]) == CharMap(name[j]) || (name[j] == '_' && z[j] == '\U{7F}')
        ensures z[j] == '\U{7F}' ==> CharMap(z[j]) != CharMap(name[j])
      {
        NameIsLetters(k, j);
        FoldedByte(z[j], name[j]);
        DeleteIsNoLetter(name[j]);
      }
    }
  }

  lemma DeleteIsNoLetter(k: char)
    requires IsKeywordChar(k)
    ensures CharMap('\U{7F}') != CharMap(k)
  {
  }

  /** For instance CURRENT, 0x7F, DATE reads as CURRENT_DATE. */
  lemma DeleteReadsAsUnderscore(z: seq<char>)
    requires z == "CURRENT" + ['\U{7F}'] + "DATE"
    ensures AreBytes(z) && IsSpelling(z, "CURRENT_DATE") && !EqualButForCase(z, "CURRENT_DATE")
  {
    assert z[7] == '\U{7F}' && "CURRENT_DATE"[7] == '_';
  }
}
