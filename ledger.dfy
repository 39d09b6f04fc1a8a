/**
 * The ledger's objects as the playground has them: transactions, blocks and the
 * chain are reference objects updated in place. A smart contract rewrites the
 * caller's own transaction objects, and a block keeps references to them.
 */
module Ledger {
  import opened Wrappers
  import opened Fees
  import opened Hashing
  import opened Chain
  import opened Decimal

  /** A transfer. `from`, `to` and `kind` are only set here; `amount` and `fee` are rewritten by contracts. */
  class Transaction {
    var from: string
    var to: string
    var amount: real
    var fee: real
    var kind: TransactionType

    constructor (from: string, to: string, amount: real, kind: TransactionType)
      ensures Record() == TxRecord(from, to, amount, 0.0, kind)
    {
      this.from := from;
      this.to := to;
      this.amount := amount;
      this.fee := 0.0;
      this.kind := kind;
    }

    /** The current field values, the input of `asString`. */
    function Record(): TxRecord
      reads this
    {
      TxRecord(from, to, amount, fee, kind)
    }
  }

  /** The current field values of each transaction object, in order. */
  function RecordsOf(ts: seq<Transaction>): (rs: seq<TxRecord>)
    reads ts
    ensures |rs| == |ts|
    ensures forall i :: 0 <= i < |ts| ==> rs[i] == ts[i].Record()
  {
    if ts == [] then [] else RecordsOf(ts[..|ts| - 1]) + [ts[|ts| - 1].Record()]
  }

  /** The one smart contract: the domestic/international fee schedule. */
  class FeeContract {
    constructor ()
    {
    }

    method Apply(transaction: Transaction)
      modifies transaction
      ensures transaction.Record() == ApplyFee(old(transaction.Record()))
    {
      var rate := 0.0;
      match transaction.kind {
        case Domestic => rate := 0.02;
        case International => rate := 0.05;
      }
      transaction.fee := transaction.amount * rate;
      transaction.amount := transaction.amount - transaction.fee;
    }

    /** One contract over a block's transactions in order; an object listed m times gets m runs. */
    method ApplyToEach(txs: seq<Transaction>)
      modifies txs
      ensures RecordsOf(txs) == RunsEach(old(RecordsOf(txs)), Counts(txs))
    {
      ghost var start := RecordsOf(txs);
      for j := 0 to |txs|
        invariant forall k :: 0 <= k < |txs| ==>
          txs[k].Record() == ApplyFeeTimes(start[k], Occurrences(txs[..j], txs[k]))
      {
        ghost var before := RecordsOf(txs);
        Apply(txs[j]);
        forall k | 0 <= k < |txs|
          ensures txs[k].Record() == ApplyFeeTimes(start[k], Occurrences(txs[..j + 1], txs[k]))
        {
          var hit := txs[j] == txs[k];
          assert txs[k].Record() == if hit then ApplyFee(before[k]) else before[k];
          OccurrencesPrefix(txs, j, txs[k]);
          ApplyFeeStep(start[k], before[k], txs[k].Record(), Occurrences(txs[..j], txs[k]), hit);
        }
      }
      assert txs[..|txs|] == txs;
    }
  }

  class Block {
    var index: int
    var previousHash: string
    /** `String!`: None until the block is sealed. */
    var hash: Option<string>
    var nonce: Int64
    var transactions: seq<Transaction>

    constructor ()
      ensures index == 0 && previousHash == "" && hash == None && nonce == 0 && transactions == []
    {
      index := 0;
      previousHash := "";
      hash := None;
      nonce := 0;
      transactions := [];
    }

    /** The fields the chain links by. */
    function Header(): Header
      reads this`index, this`previousHash, this`hash
    {
      Chain.Header(index, previousHash, hash)
    }

    /** What the key depends on besides the nonce. */
    function Content(): Candidate
      reads this`index, this`previousHash, this`transactions, transactions
    {
      Candidate(index, previousHash, RecordsOf(transactions))
    }

    /** The text that is hashed, recomputed from the current fields on every use. */
    function Key(encode: TxRecord -> string): (key: string)
      reads this, transactions
      ensures HasPrefix(key, IntString(index) + previousHash + IntString(nonce))
      ensures var info := TransactionsInfo(RecordsOf(transactions), encode);
        |info| <= |key| && key[|key| - |info|..] == info
    {
      BlockKey(Content(), nonce, encode)
    }

    method AddTransaction(transaction: Transaction)
      modifies this`transactions
      ensures transactions == old(transactions) + [transaction]
    {
      transactions := transactions + [transaction];
    }
  }

  /**
   * `HashGenerator.generateHash`: raise the block's nonce one at a time until the
   * hash of its key starts with "00". The result and the final nonce are those of
   * `SearchNonce` from the initial nonce; nothing but the nonce changes.
   */
  method GenerateHash(block: Block, p: Primitives) returns (r: Sealing)
    modifies block`nonce
    ensures block.nonce == FinalNonce(KeyHashes(block.Content(), p), old(block.nonce))
    ensures r == Seal(KeyHashes(block.Content(), p), old(block.nonce))
    ensures r.Sealed? ==> r.hash == p.sha1(block.Key(p.encode))
  {
    ghost var c := block.Content();
    ghost var hashes := KeyHashes(c, p);
    var hash := p.sha1(block.Key(p.encode));
    while !HasPrefix(hash, Difficulty)
      invariant old(block.nonce) <= block.nonce
      invariant block.Content() == c
      invariant hash == hashes(block.nonce)
      invariant SearchNonce(hashes, block.nonce) == SearchNonce(hashes, old(block.nonce))
      decreases INT64_MAX - block.nonce
    {
      assert !Solves(hashes, block.nonce);
      if block.nonce == INT64_MAX {
        // `block.nonce += 1` traps on overflow here
        return NonceOverflow;
      }
      assert SearchNonce(hashes, block.nonce) == SearchNonce(hashes, block.nonce + 1);
      block.nonce := block.nonce + 1;
      hash := p.sha1(block.Key(p.encode));
    }
    r := Sealed(hash);
  }

  /**
   * The header of `b` is what mining candidate `c` from nonce `start` gives: its
   * position and link are those of `c`, its nonce is where the search stopped,
   * `ok` says whether a hash was found, and if so it is the stored hash.
   */
  ghost predicate MinedAs(b: Block, c: Candidate, start: Int64, p: Primitives, ok: bool)
    reads b
  {
    var hashes := KeyHashes(c, p);
    b.index == c.index && b.previousHash == c.previousHash &&
    b.nonce == FinalNonce(hashes, start) &&
    ok == Seal(hashes, start).Sealed? &&
    (ok ==> b.hash == Some(Seal(hashes, start).hash))
  }

  /** A block mined from its own current content stores the hash of its current key. */
  lemma MinedHashIsKeyHash(b: Block, start: Int64, p: Primitives)
    requires MinedAs(b, b.Content(), start, p, true)
    ensures b.hash == Some(p.sha1(b.Key(p.encode)))
    ensures HasPrefix(b.hash.value, Difficulty)
  {
  }

  /**
   * `block.hash = HashGenerator().generateHash(for: block)`: mine, then store the
   * hash. On overflow the model stops with `ok` false and the hash untouched.
   */
  method Mine(block: Block, p: Primitives) returns (ok: bool)
    modifies block`nonce, block`hash
    ensures block.Content() == old(block.Content())
    ensures MinedAs(block, old(block.Content()), old(block.nonce), p, ok)
    ensures !ok ==> block.hash == old(block.hash)
  {
    ghost var c := block.Content();
    var sealing := GenerateHash(block, p);
    if sealing.NonceOverflow? {
      // Swift traps inside the mining loop: nothing after this runs
      return false;
    }
    block.hash := Some(sealing.hash);
    assert block.Content() == c;
    ok := true;
  }

  /** A new block holding the given transactions, in order, with the default fields. */
  method BlockWith(transactions: seq<Transaction>) returns (block: Block)
    ensures fresh(block)
    ensures block.transactions == transactions
    ensures block.index == 0 && block.previousHash == "" && block.nonce == 0 && block.hash == None
  {
    block := new Block();
    for i := 0 to |transactions|
      invariant block.transactions == transactions[..i]
      invariant block.index == 0 && block.previousHash == "" && block.nonce == 0 && block.hash == None
    {
      block.AddTransaction(transactions[i]);
    }
    assert transactions[..|transactions|] == transactions;
  }

  /** The header fields of each block object, in order. */
  function HeadersOf(bs: seq<Block>): (hs: seq<Header>)
    reads bs
    ensures |hs| == |bs|
    ensures forall i :: 0 <= i < |bs| ==> hs[i] == bs[i].Header()
  {
    if bs == [] then [] else HeadersOf(bs[..|bs| - 1]) + [bs[|bs| - 1].Header()]
  }

  class Blockchain {
    var blocks: seq<Block>
    const smartContracts: seq<FeeContract>
    /** The sha1 and JSON encoder the chain is built with. */
    const primitives: Primitives

    /** The chain invariant, on the blocks' current header fields. */
    ghost predicate Linked()
      reads this, blocks
    {
      ChainLinked(HeadersOf(blocks))
    }

    /** `init(genesisBlock:)`: one fee contract, then `addBlock(genesisBlock)`. */
    constructor (genesisBlock: Block, p: Primitives)
      modifies genesisBlock, genesisBlock.transactions
      ensures primitives == p && |smartContracts| == 1
      ensures genesisBlock.transactions == old(genesisBlock.transactions)
      ensures MinedAs(genesisBlock, old(genesisBlock.Content()).(previousHash := GenesisPreviousHash),
        old(genesisBlock.nonce), p, |blocks| == 1)
      ensures blocks == [] || blocks == [genesisBlock]
      ensures |blocks| == 1 ==>
        RecordsOf(genesisBlock.transactions) == RunsEach(old(RecordsOf(genesisBlock.transactions)), Counts(genesisBlock.transactions))
      ensures |blocks| == 1 && genesisBlock.index == 0 ==> Linked()
    {
      ghost var content := genesisBlock.Content();
      ghost var start := genesisBlock.nonce;
      ghost var txs := genesisBlock.transactions;
      ghost var before := RecordsOf(txs);
      blocks := [];
      var contract := new FeeContract();
      smartContracts := [contract];
      primitives := p;
      new;
      assert genesisBlock.Content() == content && RecordsOf(txs) == before;
      var ok := AddBlock(genesisBlock);
      assert MinedAs(genesisBlock, content.(previousHash := GenesisPreviousHash), start, p, ok);
      if ok {
        RoundsEachOne(before, Counts(txs));
      }
    }

    /**
     * Runs every contract, contract by contract, over every transaction in order.
     * A transaction object listed m times receives m runs of each contract.
     */
    method RunSmartContracts(txs: seq<Transaction>)
      modifies txs
      ensures RecordsOf(txs) == RoundsEach(old(RecordsOf(txs)), |smartContracts|, Counts(txs))
      ensures HeadersOf(blocks) == old(HeadersOf(blocks))
    {
      ghost var before := RecordsOf(txs);
      ghost var counts := Counts(txs);
      RoundsEachZero(before, counts);
      for i := 0 to |smartContracts|
        invariant RecordsOf(txs) == RoundsEach(before, i, counts)
      {
        smartContracts[i].ApplyToEach(txs);
        RoundsEachStep(before, i, counts);
      }
    }

    /**
     * `addBlock`: on an empty chain the block gets the sentinel previous hash and is
     * sealed; then the contracts run over its transactions (after sealing, so the
     * stored hash is that of the key before the fees); then it is appended. No
     * linkage check is made. The model stops where Swift would trap, with `ok` false.
     */
    method AddBlock(block: Block) returns (ok: bool)
      modifies this, block, block.transactions
      ensures block.transactions == old(block.transactions)
      ensures old(|blocks|) > 0 ==> ok && block.Header() == old(block.Header()) && block.nonce == old(block.nonce)
      ensures old(|blocks|) == 0 ==>
        MinedAs(block, old(block.Content()).(previousHash := GenesisPreviousHash), old(block.nonce), primitives, ok)
      ensures ok ==> blocks == old(blocks) + [block]
      ensures ok ==>
        RecordsOf(block.transactions) ==
        RoundsEach(old(RecordsOf(block.transactions)), |smartContracts|, Counts(block.transactions))
      ensures !ok ==> blocks == old(blocks) && block.hash == old(block.hash)
      ensures !ok ==> RecordsOf(block.transactions) == old(RecordsOf(block.transactions))
      ensures old(Linked() && Fits(HeadersOf(blocks), block.Header())) ==> Linked()
      ensures ok && old(|blocks|) == 0 && block.index == 0 ==> Linked()
    {
      ghost var records := RecordsOf(block.transactions);
      ghost var genesis := block.Content().(previousHash := GenesisPreviousHash);
      ghost var start := block.nonce;
      if |blocks| == 0 {
        ok := SealGenesis(block);
        if !ok {
          assert RecordsOf(block.transactions) == records;
          return;
        }
      }
      ok := true;
      ghost var mined := MinedAs(block, genesis, start, primitives, ok);
      assert RecordsOf(block.transactions) == records;
      RunContractsAndAppend(block);
      assert mined == MinedAs(block, genesis, start, primitives, ok);
    }

    /** The genesis branch of `addBlock`: the sentinel previous hash, then mining. */
    method SealGenesis(block: Block) returns (ok: bool)
      modifies block`previousHash, block`nonce, block`hash
      ensures MinedAs(block, old(block.Content()).(previousHash := GenesisPreviousHash), old(block.nonce), primitives, ok)
      ensures !ok ==> block.hash == old(block.hash)
    {
      ghost var genesis := block.Content().(previousHash := GenesisPreviousHash);
      block.previousHash := GenesisPreviousHash;
      assert block.Content() == genesis;
      ok := Mine(block, primitives);
    }

    /** The rest of `addBlock`: run the contracts over the block's transactions, then append it. */
    method RunContractsAndAppend(block: Block)
      modifies this`blocks, block.transactions
      ensures blocks == old(blocks) + [block]
      ensures RecordsOf(block.transactions) ==
        RoundsEach(old(RecordsOf(block.transactions)), |smartContracts|, Counts(block.transactions))
      ensures old(Linked() && Fits(HeadersOf(blocks), block.Header())) ==> Linked()
      ensures old(|blocks|) == 0 && IsGenesis(block.Header()) ==> Linked()
    {
      ghost var header := block.Header();
      RunSmartContracts(block.transactions);
      assert block.Header() == header;
      Append(block);
    }

    /**
     * The last step of `addBlock`: append the block. The chain stays linked when the
     * block fits its end, and a genesis block starts a linked chain.
     */
    method Append(block: Block)
      modifies this`blocks
      ensures blocks == old(blocks) + [block]
      ensures HeadersOf(blocks) == old(HeadersOf(blocks)) + [block.Header()]
      ensures RecordsOf(block.transactions) == old(RecordsOf(block.transactions))
      ensures old(Linked() && Fits(HeadersOf(blocks), block.Header())) ==> Linked()
      ensures old(|blocks|) == 0 && IsGenesis(block.Header()) ==> Linked()
    {
      ghost var headers := HeadersOf(blocks);
      ghost var header := block.Header();
      blocks := blocks + [block];
      assert HeadersOf(blocks) == headers + [header];
      if |headers| == 0 {
        assert HeadersOf(blocks) == [header];
        GenesisLinked(header);
      } else if ChainLinked(headers) && Fits(headers, header) {
        ChainLinkedAppend(headers, header);
      }
    }

    /** `getPreviousBlock`: the last block, if any. */
    function PreviousBlock(): (r: Option<Block>)
      reads this
      ensures r.None? <==> |blocks| == 0
      ensures r.Some? ==> r.value == blocks[|blocks| - 1]
    {
      if |blocks| == 0 then None else Some(blocks[|blocks| - 1])
    }

    /**
     * `getNextBlock`: a fresh block with the given transactions, positioned after
     * the last block and linked to its hash, sealed from nonce 0. The chain and
     * the transactions are not changed.
     */
    method GetNextBlock(transactions: seq<Transaction>) returns (r: Option<Block>)
      requires |blocks| > 0
      requires blocks[|blocks| - 1].hash.Some?
      ensures var c := Candidate(|blocks|, blocks[|blocks| - 1].hash.value, RecordsOf(transactions));
        (r.Some? <==> Seal(KeyHashes(c, primitives), 0).Sealed?) &&
        (r.Some? ==>
          fresh(r.value) && r.value.transactions == transactions && r.value.Content() == c &&
          MinedAs(r.value, c, 0, primitives, true))
      ensures r.Some? ==> Fits(HeadersOf(blocks), r.value.Header())
    {
      ghost var c := Candidate(|blocks|, blocks[|blocks| - 1].hash.value, RecordsOf(transactions));
      ghost var headers := HeadersOf(blocks);
      var block := BlockWith(transactions);
      var previousBlock := PreviousBlock().value;
      block.index := |blocks|;
      block.previousHash := previousBlock.hash.value;
      assert block.Content() == c;
      var ok := Mine(block, primitives);
      assert RecordsOf(transactions) == c.records && HeadersOf(blocks) == headers;
      if !ok {
        return None;
      }
      r := Some(block);
    }
  }

  /** How many times each element of s occurs in s. */
  function Counts<T(==)>(s: seq<T>): (ns: seq<nat>)
    ensures |ns| == |s|
    ensures forall k :: 0 <= k < |s| ==> ns[k] == Occurrences(s, s[k])
  {
    seq(|s|, k requires 0 <= k < |s| => Occurrences(s, s[k]))
  }

  /** How many times x occurs in s. */
  function Occurrences<T(==)>(s: seq<T>, x: T): nat
  {
    if s == [] then 0
    else Occurrences(s[..|s| - 1], x) + (if s[|s| - 1] == x then 1 else 0)
  }

  /** Extending a prefix by one element counts that element once more. */
  lemma OccurrencesPrefix<T>(s: seq<T>, j: nat, x: T)
    requires j < |s|
    ensures Occurrences(s[..j + 1], x) == Occurrences(s[..j], x) + if s[j] == x then 1 else 0
  {
    assert s[..j + 1][..j] == s[..j];
  }

  /** Two distinct objects listed once each are counted once each. */
  lemma CountsOfPair<T>(a: T, b: T)
    requires a != b
    ensures Counts([a, b]) == [1, 1]
  {
    assert [a, b][..1] == [a];
    assert [a][..0] == [];
    assert Occurrences([a], a) == Occurrences([], a) + 1;
    assert Occurrences([a], b) == Occurrences([], b);
    var ns := Counts([a, b]);
    assert ns[0] == 1 && ns[1] == 1;
  }

  /** In a list without repetitions every element occurs once. */
  lemma {:induction false} OccurrencesOfDistinct<T>(s: seq<T>, k: nat)
    requires forall i, j :: 0 <= i < j < |s| ==> s[i] != s[j]
    requires k < |s|
    ensures Occurrences(s, s[k]) == 1
  {
    var last := |s| - 1;
    var front := s[..last];
    if k == last {
      NotInOccurrences(front, s[k]);
    } else {
      OccurrencesOfDistinct(front, k);
    }
  }

  lemma {:induction false} NotInOccurrences<T>(s: seq<T>, x: T)
    requires x !in s
    ensures Occurrences(s, x) == 0
  {
    if s != [] {
      NotInOccurrences(s[..|s| - 1], x);
    }
  }
}
