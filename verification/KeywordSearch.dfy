/**
  The keyword recogniser of keywordhash.h for arbitrary tables: a chained hash over a compressed text
  in which keywords overlap.  It is proved to agree with a plain scan of the keywords.
 */
module KeywordSearch {

  /** zText, aHash, aNext, aLen, aOffset and aCode.  Chain links are one more than an index; 0 ends a chain. */
  datatype Tables = Tables(
    text: seq<char>, hash: seq<nat>, next: seq<nat>, len: seq<nat>, offset: seq<nat>, code: seq<nat>)
  {
    function Count(): nat { |next| }
  }

  const BUCKETS := 127

  predicate IsByte(c: char) { c as int < 256 }

  predicate AreBytes(z: seq<char>) {
    forall j :: 0 <= j < |z| ==> IsByte(z[j])
  }

  predicate IsUpper(c: char) { 'A' <= c <= 'Z' }

  /** c & ~0x20 */
  function Fold(c: char): char
    requires IsByte(c)
  {
    if (c as int / 32) % 2 == 1 then (c as int - 32) as char else c
  }

  /** charMap: upper case to lower case, all other bytes unchanged. */
  function CharMap(c: char): char {
    if IsUpper(c) then (c as int + 32) as char else c
  }

  /** The hash before the remainder, from the mapped first and last bytes and the length, as machine words. */
  function HashBits(a: bv32, b: bv32, n: bv32): bv32 {
    (a * 4) ^ (b * 3) ^ n
  }

  /** Two mapped bytes and a length to a bucket. */
  function Bucket(a: char, b: char, n: nat): (h: nat)
    requires IsByte(a) && IsByte(b) && n < 0x8000_0000
    ensures h < BUCKETS
  {
    (HashBits((a as int) as bv32, (b as int) as bv32, n as bv32) as nat) % BUCKETS
  }

  function Hash(first: char, last: char, n: nat): nat
    requires IsByte(first) && IsByte(last) && n < 0x8000_0000
    ensures Hash(first, last, n) < BUCKETS
  {
    Bucket(CharMap(first), CharMap(last), n)
  }

  predicate WellFormed(t: Tables) {
    && |t.hash| == BUCKETS
    && |t.len| == |t.offset| == |t.code| == t.Count() < 0x8000_0000
    && (forall h :: 0 <= h < BUCKETS ==> t.hash[h] <= t.Count())
    && (forall k :: 0 <= k < t.Count() ==> t.next[k] <= k)
    && (forall k :: 0 <= k < t.Count() ==> 2 <= t.len[k] < 0x8000_0000 && t.offset[k] + t.len[k] <= |t.text|)
    && AreBytes(t.text)
  }

  /** Byte j of keyword k. */
  function KeywordByte(t: Tables, k: nat, j: nat): char
    requires WellFormed(t) && k < t.Count() && j < t.len[k]
  {
    t.text[t.offset[k] + j]
  }

  /** Keyword k is on the chain that starts with this link. */
  predicate OnChain(t: Tables, link: nat, k: nat)
    requires WellFormed(t) && link <= t.Count()
    decreases link
  {
    link > 0 && (link - 1 == k || OnChain(t, t.next[link - 1], k))
  }

  predicate SameText(t: Tables, k: nat, i: nat)
    requires WellFormed(t) && k < t.Count() && i < t.Count()
  {
    t.len[k] == t.len[i] && forall j :: 0 <= j < t.len[k] ==> KeywordByte(t, k, j) == KeywordByte(t, i, j)
  }

  /** No keyword on this chain is spelled as keyword k. */
  predicate NoneSpelledAs(t: Tables, link: nat, k: nat)
    requires WellFormed(t) && link <= t.Count() && k < t.Count()
    decreases link
  {
    link == 0 || (!SameText(t, k, link - 1) && NoneSpelledAs(t, t.next[link - 1], k))
  }

  function BucketOf(t: Tables, k: nat): nat
    requires WellFormed(t) && k < t.Count()
    ensures BucketOf(t, k) < BUCKETS
  {
    Hash(KeywordByte(t, k, 0), KeywordByte(t, k, t.len[k] - 1), t.len[k])
  }

  /** Keyword k begins and ends with a capital, is on the chain of its bucket, and none after it is spelled alike. */
  predicate KeywordOk(t: Tables, k: nat)
    requires WellFormed(t) && k < t.Count()
  {
    && IsUpper(KeywordByte(t, k, 0)) && IsUpper(KeywordByte(t, k, t.len[k] - 1))
    && OnChain(t, t.hash[BucketOf(t, k)], k)
    && NoneSpelledAs(t, t.next[k], k)
  }

  predicate Valid(t: Tables) {
    WellFormed(t) && forall k :: 0 <= k < t.Count() ==> KeywordOk(t, k)
  }

  // ---------------------------------------------------------------- the reference

  /** Byte string z is keyword k up to the fold. */
  predicate Matches(t: Tables, z: seq<char>, k: nat)
    requires WellFormed(t) && k < t.Count() && AreBytes(z)
  {
    t.len[k] == |z| && forall j :: 0 <= j < |z| ==> Fold(z[j]) == KeywordByte(t, k, j)
  }

  /** A plain scan from keyword k on. */
  function Scan(t: Tables, z: seq<char>, k: nat, otherwise: nat): nat
    requires WellFormed(t) && k <= t.Count() && AreBytes(z)
    decreases t.Count() - k
  {
    if k == t.Count() then otherwise
    else if Matches(t, z, k) then t.code[k]
    else Scan(t, z, k + 1, otherwise)
  }

  // ---------------------------------------------------------------- chains and hashes

  lemma FoldDecidesCharMap(c: char, upper: char)
    requires IsByte(c) && IsUpper(upper) && Fold(c) == upper
    ensures CharMap(c) == CharMap(upper)
  {
  }

  /** A matching string falls into its keyword's bucket. */
  lemma MatchHasBucket(t: Tables, z: seq<char>, k: nat)
    requires Valid(t) && AreBytes(z) && k < t.Count() && Matches(t, z, k)
    ensures |z| < 0x8000_0000 && Hash(z[0], z[|z| - 1], |z|) == BucketOf(t, k)
  {
    hide Bucket, HashBits, OnChain, NoneSpelledAs;
    assert KeywordOk(t, k);
    FoldDecidesCharMap(z[0], KeywordByte(t, k, 0));
    FoldDecidesCharMap(z[|z| - 1], KeywordByte(t, k, |z| - 1));
  }

  lemma {:induction false} ChainIsLinear(t: Tables, link: nat, k: nat, i: nat)
    requires WellFormed(t) && link <= t.Count() && k < t.Count() && i < t.Count()
    requires OnChain(t, link, k) && OnChain(t, link, i)
    ensures k == i || OnChain(t, t.next[k], i) || OnChain(t, t.next[i], k)
    decreases link
  {
    if link - 1 != k && link - 1 != i {
      ChainIsLinear(t, t.next[link - 1], k, i);
    }
  }

  lemma {:induction false} NotSpelledBelow(t: Tables, link: nat, k: nat, i: nat)
    requires WellFormed(t) && link <= t.Count() && k < t.Count() && i < t.Count()
    requires NoneSpelledAs(t, link, k) && OnChain(t, link, i)
    ensures !SameText(t, k, i)
    decreases link
  {
    if link - 1 != i {
      NotSpelledBelow(t, t.next[link - 1], k, i);
    }
  }

  /** At most one keyword matches a string. */
  lemma MatchIsUnique(t: Tables, z: seq<char>, k: nat, i: nat)
    requires Valid(t) && AreBytes(z) && k < t.Count() && i < t.Count()
    requires Matches(t, z, k) && Matches(t, z, i)
    ensures k == i
  {
    MatchHasBucket(t, z, k);
    MatchHasBucket(t, z, i);
    assert KeywordOk(t, k) && KeywordOk(t, i);
    ChainIsLinear(t, t.hash[BucketOf(t, k)], k, i);
    if OnChain(t, t.next[k], i) {
      NotSpelledBelow(t, t.next[k], k, i);
    } else if OnChain(t, t.next[i], k) {
      NotSpelledBelow(t, t.next[i], i, k);
    }
  }

  lemma {:induction false} ScanFinds(t: Tables, z: seq<char>, from: nat, k: nat, otherwise: nat)
    requires Valid(t) && AreBytes(z) && from <= k < t.Count() && Matches(t, z, k)
    ensures Scan(t, z, from, otherwise) == t.code[k]
    decreases k - from
  {
    if Matches(t, z, from) {
      MatchIsUnique(t, z, from, k);
    } else {
      ScanFinds(t, z, from + 1, k, otherwise);
    }
  }

  lemma {:induction false} ScanFails(t: Tables, z: seq<char>, from: nat, otherwise: nat)
    requires WellFormed(t) && AreBytes(z) && from <= t.Count()
    requires forall k :: from <= k < t.Count() ==> !Matches(t, z, k)
    ensures Scan(t, z, from, otherwise) == otherwise
    decreases t.Count() - from
  {
    if from < t.Count() {
      ScanFails(t, z, from + 1, otherwise);
    }
  }

  // ---------------------------------------------------------------- the recogniser

  /** keywordCode: the length, and the type, which changes only if a keyword is found. */
  method KeywordCode(t: Tables, z: seq<char>, oldType: nat) returns (n: nat, typ: nat)
    requires Valid(t) && AreBytes(z) && |z| < 0x8000_0000
    ensures n == |z| && typ == Scan(t, z, 0, oldType)
  {
    hide Bucket, HashBits, Hash, NoneSpelledAs;
    n, typ := |z|, oldType;
    if n >= 2 {
      var i: int := t.hash[Hash(z[0], z[n - 1], n)] as int - 1;
      forall k | 0 <= k < t.Count() && Matches(t, z, k)
        ensures OnChain(t, i + 1, k)
      {
        MatchHasBucket(t, z, k);
        assert KeywordOk(t, k);
      }
      while i >= 0
        invariant -1 <= i < t.Count() && typ == oldType
        invariant forall k :: 0 <= k < t.Count() && Matches(t, z, k) ==> OnChain(t, i + 1, k)
        decreases i
      {
        if t.len[i] != n {
          i := t.next[i] as int - 1;
          continue;
        }
        var j := 0;
        while j < n && Fold(z[j]) == t.text[t.offset[i] + j]
          invariant 0 <= j <= n
          invariant forall l :: 0 <= l < j ==> Fold(z[l]) == KeywordByte(t, i, l)
        {
          j := j + 1;
        }
        if j < n {
          assert Fold(z[j]) != KeywordByte(t, i, j);
          i := t.next[i] as int - 1;
          continue;
        }
        assert Matches(t, z, i);
        ScanFinds(t, z, 0, i, oldType);
        typ := t.code[i];
        return;
      }
    }
    ScanFails(t, z, 0, oldType);
  }
}
