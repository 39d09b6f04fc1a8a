/**
 * The block key and the proof-of-work search, on values. `sha1` and the JSON
 * encoding of a transaction are foreign calls; the model keeps them as
 * arbitrary functions bundled in `Primitives`, so every property below holds
 * whatever those functions compute.
 */
module Hashing {
  import opened Wrappers
  import opened Fees
  import opened Decimal

  /** Swift's `Int` on the 64-bit platforms the ledger runs on. */
  const INT64_MIN: int := -0x8000_0000_0000_0000
  const INT64_MAX: int := 0x7fff_ffff_ffff_ffff
  type Int64 = x: int | INT64_MIN <= x <= INT64_MAX

  /** The two foreign calls: `String.sha1()` and `Transaction.asString()` (JSON of the fields, "" on failure). */
  datatype Primitives = Primitives(sha1: string -> string, encode: TxRecord -> string)

  /** The proof-of-work target: the hash text starts with two zero characters. */
  const Difficulty: string := "00"

  /** The previous hash given to the first block of a chain: sixteen zeros. */
  const GenesisPreviousHash: string := "0000000000000000"

  /** `hasPrefix`: the first |prefix| characters of s are those of prefix. */
  predicate HasPrefix(s: string, prefix: string): (b: bool)
    ensures b <==> |prefix| <= |s| && forall i :: 0 <= i < |prefix| ==> s[i] == prefix[i]
  {
    |prefix| <= |s| && s[..|prefix|] == prefix
  }

  /** Everything a block's key depends on other than its nonce. */
  datatype Candidate = Candidate(index: int, previousHash: string, records: seq<TxRecord>)

  /** The left fold `reduce("") { $0 + $1.asString() }` over a block's transactions. */
  function TransactionsInfo(records: seq<TxRecord>, encode: TxRecord -> string): (info: string)
    ensures records == [] ==> info == ""
    ensures |records| == 1 ==> info == encode(records[0])
  {
    if records == [] then ""
    else TransactionsInfo(records[..|records| - 1], encode) + encode(records[|records| - 1])
  }

  /** The fold is a homomorphism: the info of two runs of transactions is the concatenation of their infos. */
  lemma {:induction false} TransactionsInfoAppend(a: seq<TxRecord>, b: seq<TxRecord>, encode: TxRecord -> string)
    ensures TransactionsInfo(a + b, encode) == TransactionsInfo(a, encode) + TransactionsInfo(b, encode)
    decreases |b|
  {
    if b != [] {
      var last := b[|b| - 1];
      var front := b[..|b| - 1];
      assert (a + b)[..|a + b| - 1] == a + front;
      assert (a + b)[|a + b| - 1] == last;
      TransactionsInfoAppend(a, front, encode);
      calc {
        TransactionsInfo(a + b, encode);
        TransactionsInfo(a + front, encode) + encode(last);
        TransactionsInfo(a, encode) + TransactionsInfo(front, encode) + encode(last);
        TransactionsInfo(a, encode) + TransactionsInfo(b, encode);
      }
    } else {
      assert a + b == a;
    }
  }

  /** The block key: index, previous hash, nonce, then every transaction's encoding in order. */
  function BlockKey(c: Candidate, nonce: int, encode: TxRecord -> string): (key: string)
    ensures HasPrefix(key, IntString(c.index) + c.previousHash + IntString(nonce))
    ensures var info := TransactionsInfo(c.records, encode);
      |info| <= |key| && key[|key| - |info|..] == info
  {
    var header := IntString(c.index) + c.previousHash + IntString(nonce);
    var info := TransactionsInfo(c.records, encode);
    assert (header + info)[..|header|] == header && (header + info)[|header|..] == info;
    header + info
  }

  /** Adding a transaction to a block appends its encoding to the block's key and changes nothing before it. */
  lemma KeyAppend(c: Candidate, nonce: int, r: TxRecord, encode: TxRecord -> string)
    ensures BlockKey(c.(records := c.records + [r]), nonce, encode) == BlockKey(c, nonce, encode) + encode(r)
  {
    TransactionsInfoAppend(c.records, [r], encode);
  }

  /** The key begins with the decimal index. */
  lemma KeyStartsWithIndex(c: Candidate, nonce: int, encode: TxRecord -> string)
    ensures HasPrefix(BlockKey(c, nonce, encode), IntString(c.index))
  {
    var key := BlockKey(c, nonce, encode);
    assert key == IntString(c.index) + (c.previousHash + IntString(nonce) + TransactionsInfo(c.records, encode));
  }

  /** The hash of the candidate's key at every nonce: what the mining loop inspects. */
  function KeyHashes(c: Candidate, p: Primitives): int -> string
  {
    k => p.sha1(BlockKey(c, k, p.encode))
  }

  /** The hash at `nonce` meets the difficulty target. */
  predicate Solves(hashes: int -> string, nonce: int)
  {
    HasPrefix(hashes(nonce), Difficulty)
  }

  /**
   * The outcome of the mining loop started at `nonce`: the least nonce at or above
   * it whose hash meets the target, or None when every nonce up to Int.max fails
   * (where Swift's `nonce += 1` traps on overflow).
   */
  function SearchNonce(hashes: int -> string, nonce: Int64): (r: Option<Int64>)
    ensures r.Some? ==> nonce <= r.value && Solves(hashes, r.value)
    ensures r.Some? ==> forall k :: nonce <= k < r.value ==> !Solves(hashes, k)
    ensures r.None? ==> forall k :: nonce <= k <= INT64_MAX ==> !Solves(hashes, k)
    decreases INT64_MAX - nonce
  {
    if Solves(hashes, nonce) then Some(nonce)
    else if nonce == INT64_MAX then None
    else SearchNonce(hashes, nonce + 1)
  }

  /** Any solving nonce at or above the start bounds the one the search finds. */
  lemma SearchNonceLeast(hashes: int -> string, nonce: Int64, m: int)
    requires nonce <= m <= INT64_MAX && Solves(hashes, m)
    ensures SearchNonce(hashes, nonce).Some? && SearchNonce(hashes, nonce).value <= m
  {
  }

  /** What the mining loop returns. */
  datatype Sealing = Sealed(hash: string) | NonceOverflow

  /** The result of the mining loop started at `nonce`: the first hash that meets the target. */
  function Seal(hashes: int -> string, nonce: Int64): (r: Sealing)
    ensures r.Sealed? <==> SearchNonce(hashes, nonce).Some?
    ensures r.Sealed? ==> HasPrefix(r.hash, Difficulty) && r.hash == hashes(SearchNonce(hashes, nonce).value)
  {
    match SearchNonce(hashes, nonce)
    case Some(n) => Sealed(hashes(n))
    case None => NonceOverflow
  }

  /** The nonce the mining loop stops at: the solving one, or Int.max where the increment traps. */
  function FinalNonce(hashes: int -> string, nonce: Int64): (n: Int64)
    ensures nonce <= n
    ensures SearchNonce(hashes, nonce).Some? ==> n == SearchNonce(hashes, nonce).value
    ensures SearchNonce(hashes, nonce).None? ==> n == INT64_MAX
  {
    match SearchNonce(hashes, nonce)
    case Some(n) => n
    case None => INT64_MAX
  }

  /**
   * The stored hash is fixed before the fee contracts run, so it need not be the
   * hash of the block's final key: with sha1 as "00" + text and an encoding that
   * shows whether a fee was charged, the two hashes differ.
   */
  lemma StoredHashGoesStale(c: Candidate, nonce: int, r: TxRecord)
    requires r.fee == 0.0 && r.amount > 0.0
    ensures var p := Primitives((s: string) => "00" + s, (t: TxRecord) => if t.fee == 0.0 then "unpaid" else "paid");
      Solves(KeyHashes(c, p), nonce) &&
      p.sha1(BlockKey(c.(records := c.records + [r]), nonce, p.encode))
        != p.sha1(BlockKey(c.(records := c.records + [ApplyFee(r)]), nonce, p.encode))
  {
    var p := Primitives((s: string) => "00" + s, (t: TxRecord) => if t.fee == 0.0 then "unpaid" else "paid");
    KeyAppend(c, nonce, r, p.encode);
    KeyAppend(c, nonce, ApplyFee(r), p.encode);
    assert ApplyFee(r).fee != 0.0;
    var before := p.sha1(BlockKey(c.(records := c.records + [r]), nonce, p.encode));
    var after := p.sha1(BlockKey(c.(records := c.records + [ApplyFee(r)]), nonce, p.encode));
    assert |before| == |after| + 2;
    assert ("00" + BlockKey(c, nonce, p.encode))[..2] == "00";
  }
}
