/**
 * The playground's own run: a default genesis block starts the chain, then a
 * block with a 20 domestic and a 10 international transfer is mined and added.
 */
module Playground {
  import opened Wrappers
  import opened Fees
  import opened Hashing
  import opened Ledger

  /** What the genesis block is mined from: a default block with the sentinel previous hash. */
  function GenesisCandidate(): Candidate
  {
    Candidate(0, GenesisPreviousHash, [])
  }

  /** The two transfers as they are created, before any fee. */
  function DemoRecords(): seq<TxRecord>
  {
    [TxRecord("x1", "x2", 20.0, 0.0, Domestic), TxRecord("x3", "x4", 10.0, 0.0, International)]
  }

  /** What the second block is mined from, given the hash the genesis block was sealed with. */
  function NextCandidate(genesisHash: string): Candidate
  {
    Candidate(1, genesisHash, DemoRecords())
  }

  /** The hash the genesis block is sealed with, when mining it succeeds. */
  function GenesisSeal(p: Primitives): Sealing
  {
    Seal(KeyHashes(GenesisCandidate(), p), 0)
  }

  /** `Blockchain(genesisBlock: Block())`: a chain holding one linked genesis block, or nothing on overflow. */
  method StartChain(p: Primitives) returns (chain: Blockchain, ok: bool)
    ensures fresh(chain) && chain.primitives == p && |chain.smartContracts| == 1
    ensures ok <==> GenesisSeal(p).Sealed?
    ensures ok ==> |chain.blocks| == 1 && chain.Linked() && chain.blocks[0].hash == Some(GenesisSeal(p).hash)
  {
    var genesisBlock := new Block();
    assert genesisBlock.Content().(previousHash := GenesisPreviousHash) == GenesisCandidate();
    chain := new Blockchain(genesisBlock, p);
    ok := |chain.blocks| == 1;
  }

  /** The transfers after one run of the fee contract each. */
  function DemoCharged(): seq<TxRecord>
  {
    [TxRecord("x1", "x2", 19.6, 0.4, Domestic), TxRecord("x3", "x4", 9.5, 0.5, International)]
  }

  /** One contract over two distinct transfers charges 0.4 of the 20 domestic and 0.5 of the 10 international. */
  lemma DemoFees()
    ensures RoundsEach(DemoRecords(), 1, [1, 1]) == DemoCharged()
  {
    RoundsEachOne(DemoRecords(), [1, 1]);
    ApplyFeeOnce(DemoRecords()[0]);
    ApplyFeeOnce(DemoRecords()[1]);
    FeeExamples("x1", "x2");
    FeeExamples("x3", "x4");
  }

  /**
   * `getNextBlock(transactions: [transaction1, transaction2])` and `addBlock` on a
   * chain of one linked block sealed with hash h: the chain grows to two linked
   * blocks and each transfer pays its fee, or mining overflows and nothing changes.
   */
  method AddTransfers(chain: Blockchain, t1: Transaction, t2: Transaction, h: string) returns (ok: bool)
    requires |chain.blocks| == 1 && chain.Linked() && chain.blocks[0].hash == Some(h)
    requires |chain.smartContracts| == 1
    requires t1 != t2 && [t1.Record(), t2.Record()] == DemoRecords()
    modifies chain, t1, t2
    ensures ok <==> Seal(KeyHashes(NextCandidate(h), chain.primitives), 0).Sealed?
    ensures ok ==> |chain.blocks| == 2 && chain.Linked() && [t1.Record(), t2.Record()] == DemoCharged()
  {
    var txs := [t1, t2];
    assert RecordsOf(txs) == DemoRecords();
    var next := chain.GetNextBlock(txs);
    if next.None? {
      return false;
    }
    CountsOfPair(t1, t2);
    ok := chain.AddBlock(next.value);
    DemoFees();
    assert RecordsOf(txs) == [t1.Record(), t2.Record()];
  }

  /**
   * The run succeeds exactly when both blocks can be mined; then the chain has two
   * linked blocks and each transfer has paid its fee once: 0.4 of the 20 domestic,
   * 0.5 of the 10 international.
   */
  method Demo(p: Primitives) returns (chain: Blockchain, t1: Transaction, t2: Transaction, ok: bool)
    ensures ok <==>
      GenesisSeal(p).Sealed? && Seal(KeyHashes(NextCandidate(GenesisSeal(p).hash), p), 0).Sealed?
    ensures ok ==>
      |chain.blocks| == 2 && chain.Linked() &&
      t1.Record() == TxRecord("x1", "x2", 19.6, 0.4, Domestic) &&
      t2.Record() == TxRecord("x3", "x4", 9.5, 0.5, International)
  {
    t1 := new Transaction("x1", "x2", 20.0, Domestic);
    t2 := new Transaction("x3", "x4", 10.0, International);
    var started;
    chain, started := StartChain(p);
    if !started {
      return chain, t1, t2, false;
    }
    ok := AddTransfers(chain, t1, t2, GenesisSeal(p).hash);
  }
}
