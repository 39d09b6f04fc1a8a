# BlockchainCore: a Dafny model of the playground ledger

BlockchainCore is a small proof-of-work ledger written as a Swift playground. It has four kinds of object:

- A **Transaction** is a transfer from one party to another, with an amount, a fee and a kind (domestic or international).
- A **Block** holds a position (`index`), the hash of its predecessor, its own hash, a `nonce` and a list of transactions. Its `key` is index, previous hash, nonce and the JSON text of every transaction, concatenated.
  - Mining raises the nonce until the SHA-1 of the key starts with `"00"`.
- The **smart contract** charges a fee of 2% on domestic and 5% on international transfers. It does this by rewriting the transaction object in place.
- The **Blockchain** keeps the blocks and one contract.
  - `addBlock` seals a genesis block, runs the contracts over the block's transactions and appends the block.
  - `getNextBlock` builds and mines the block that follows the last one.

The model keeps the source's form. Transactions, blocks and the chain are Dafny classes whose methods update their fields. Mining is a `while` loop. The contracts run as `for` loops over the caller's own transaction objects.

Each method is proved against functions on values:

- **`Fees`**: the fee schedule on transaction records, including repeated runs and their closed form.
- **`Decimal`**: Swift's `String(Int)`.
- **`Hashing`**: the block key and the nonce search. `sha1` and the JSON encoder are arbitrary functions passed in as `Primitives`, so every result holds whatever they compute.
- **`Chain`**: the linkage invariant on block headers.

The class methods live in `Ledger`. `Playground` replays the playground's own run.

Some places where the code's order of effects is easy to misread:

- `addBlock` runs the contracts **after** the genesis block is sealed. Likewise `getNextBlock` mines before `addBlock` charges fees. So a block's stored hash is that of its key before the fees were taken, and it need not be the hash of the block's current key (`Hashing.StoredHashGoesStale`).
- `addBlock` checks nothing about a non-genesis block. The chain stays linked only when the block fits the end of the chain, which is what `getNextBlock` produces.
- A transaction object listed k times in a block is charged k times per contract.

## Model

| member | source | states |
|---|---|---|
| `Fees.Rate` | BlockchainCore.playground/Contents.swift:11-17 | the fee rate is strictly between 0 and 1: 2% domestic, 5% international |
| `Fees.ApplyFee` | BlockchainCore.playground/Contents.swift:10-20 | one contract run changes only amount and fee; sender, receiver and kind are kept |
| `Fees.ApplyFeeRate` | BlockchainCore.playground/Contents.swift:18 | the fee charged is the amount before the run times the kind's rate |
| `Fees.ApplyFeeSplits` | BlockchainCore.playground/Contents.swift:18-19 | the new amount plus the fee is the old amount; a non-negative amount gives 0 <= fee <= new amount |
| `Fees.ApplyFeeTimes` | BlockchainCore.playground/Contents.swift:104-108 | n runs keep sender, receiver and kind, and zero runs change nothing |
| `Fees.ApplyFeeTimesClosedForm` | BlockchainCore.playground/Contents.swift:104-108 | after n runs the amount is the original amount times (1 - rate)^n |
| `Fees.ApplyFeeTimesLastFee` | BlockchainCore.playground/Contents.swift:104-108 | after n > 0 runs the fee field holds only the last run's fee, the rate times the amount left after n - 1 runs |
| `Fees.ApplyFeeTimesAdd` | BlockchainCore.playground/Contents.swift:104-108 | a runs followed by b runs are a + b runs |
| `Fees.RoundsAreRuns` | BlockchainCore.playground/Contents.swift:104-108 | i contracts, each charging a transaction listed m times, charge it i * m times |
| `Fees.FeeExamples` | BlockchainCore.playground/Contents.swift:137-138 | one run on 20 domestic leaves 19.6 with fee 0.4; on 10 international it leaves 9.5 with fee 0.5 |
| `Decimal.NatStringShape` | BlockchainCore.playground/Contents.swift:74 | the decimal text of a natural number is a non-empty run of digits with no leading zero |
| `Decimal.IntString` | BlockchainCore.playground/Contents.swift:74 | `String(Int)`: a non-empty text that starts with '-' exactly when the integer is negative |
| `Decimal.IntStringRoundTrip` | BlockchainCore.playground/Contents.swift:74 | parsing the decimal text of an index or nonce gives back the integer |
| `Decimal.IntStringInjective` | BlockchainCore.playground/Contents.swift:74 | distinct integers have distinct decimal texts |
| `Hashing.HasPrefix` | BlockchainCore.playground/Contents.swift:28 | `hasPrefix`: holds exactly when the text is at least as long as the prefix and agrees with it at every position of the prefix |
| `Hashing.TransactionsInfo` | BlockchainCore.playground/Contents.swift:73 | the `reduce` of transaction encodings: empty for no transactions, the one encoding for a single transaction |
| `Hashing.BlockKey` | BlockchainCore.playground/Contents.swift:72-75 | index text, previous hash, nonce text, then every transaction's encoding, in that order: the key starts with the first three and ends with the fourth |
| `Hashing.TransactionsInfoAppend` | BlockchainCore.playground/Contents.swift:73 | the fold of transaction encodings over a concatenation is the concatenation of the folds |
| `Hashing.KeyAppend` | BlockchainCore.playground/Contents.swift:72-80 | adding a transaction appends exactly its encoding to the block key |
| `Hashing.KeyStartsWithIndex` | BlockchainCore.playground/Contents.swift:74 | the key starts with the decimal text of the block index |
| `Hashing.SearchNonce` | BlockchainCore.playground/Contents.swift:28-32 | the nonce found is the least one at or above the start whose hash starts with "00"; None means every nonce up to Int.max fails |
| `Hashing.SearchNonceLeast` | BlockchainCore.playground/Contents.swift:28-32 | if any nonce up to Int.max solves, the search succeeds at or below it |
| `Hashing.Seal` | BlockchainCore.playground/Contents.swift:24-34 | mining returns a hash exactly when the search succeeds; that hash meets the target and is the hash at the found nonce |
| `Hashing.FinalNonce` | BlockchainCore.playground/Contents.swift:28-29 | the nonce never goes down; it ends at the found nonce, or at Int.max where the increment overflows |
| `Hashing.StoredHashGoesStale` | BlockchainCore.playground/Contents.swift:97-108 | there are sha1 and encoder functions for which a hash meeting the target differs from the hash of the same key once a fee is charged |
| `Chain.GenesisLinked` | BlockchainCore.playground/Contents.swift:99-102 | a single header forms a linked chain exactly when it is at position 0, has the sentinel previous hash and is sealed |
| `Chain.ChainLinkedAppend` | BlockchainCore.playground/Contents.swift:119-121 | appending a sealed header at the next position that names the last hash keeps the chain linked |
| `Ledger.Transaction.constructor` | BlockchainCore.playground/Contents.swift:48-53 | a new transaction has the given fields and a zero fee |
| `Ledger.RecordsOf` | BlockchainCore.playground/Contents.swift:73 | the records are the transactions' current fields, one per transaction and in order |
| `Ledger.FeeContract.Apply` | BlockchainCore.playground/Contents.swift:10-20 | the transaction's new fields are one fee run on its old fields |
| `Ledger.FeeContract.ApplyToEach` | BlockchainCore.playground/Contents.swift:105-107 | each transaction object gets as many runs as the number of times it is listed |
| `Ledger.Block.constructor` | BlockchainCore.playground/Contents.swift:65-70 | a new block has index 0, an empty previous hash, no hash, nonce 0 and no transactions |
| `Ledger.Block.Key` | BlockchainCore.playground/Contents.swift:72-75 | the key recomputed from the block's current fields: it starts with the current index text, previous hash and nonce text, and ends with the encodings of the transactions' current fields |
| `Ledger.Block.AddTransaction` | BlockchainCore.playground/Contents.swift:78-80 | the block's transactions are the old ones with the new one appended |
| `Ledger.GenerateHash` | BlockchainCore.playground/Contents.swift:24-34 | the loop ends at the nonce the search finds, returns the hash of the key at that nonce, and changes nothing else |
| `Ledger.Mine` | BlockchainCore.playground/Contents.swift:121 | the block's content is unchanged, its nonce is where the search stopped, and it stores the mined hash when mining succeeds |
| `Ledger.MinedHashIsKeyHash` | BlockchainCore.playground/Contents.swift:121 | a block mined from its current content stores the sha1 of its current key, which meets the target |
| `Ledger.BlockWith` | BlockchainCore.playground/Contents.swift:114-115 | a fresh default block that holds exactly the given transactions in order |
| `Ledger.HeadersOf` | BlockchainCore.playground/Contents.swift:86 | the headers are the blocks' current index, previous hash and hash, one per block and in order |
| `Ledger.Blockchain.constructor` | BlockchainCore.playground/Contents.swift:87-92 | the chain has one contract; the genesis block is mined from the sentinel previous hash; if mining succeeds, it is the only block and it has been charged once per listing; a genesis at index 0 gives a linked chain |
| `Ledger.Blockchain.RunSmartContracts` | BlockchainCore.playground/Contents.swift:104-108 | every transaction gets, for each contract, as many runs as the number of times it is listed; the chain's headers are unchanged |
| `Ledger.Blockchain.AddBlock` | BlockchainCore.playground/Contents.swift:97-111 | on an empty chain the block is mined from the sentinel; on a non-empty chain its header is untouched; on success it is appended and charged; on overflow nothing is appended or charged; the chain stays linked when the block fits |
| `Ledger.Blockchain.SealGenesis` | BlockchainCore.playground/Contents.swift:99-102 | the block is mined from its content with the sentinel previous hash |
| `Ledger.Blockchain.RunContractsAndAppend` | BlockchainCore.playground/Contents.swift:104-110 | the block's transactions are charged by every contract, then the block is appended, keeping the chain linked when it fits |
| `Ledger.Blockchain.Append` | BlockchainCore.playground/Contents.swift:110 | the block and its header are appended, nothing is charged, and a fitting block or a genesis block leaves the chain linked |
| `Ledger.Blockchain.PreviousBlock` | BlockchainCore.playground/Contents.swift:125-127 | None exactly when the chain is empty, otherwise the last block |
| `Ledger.Blockchain.GetNextBlock` | BlockchainCore.playground/Contents.swift:113-123 | a block is returned exactly when mining the candidate at the next index, linked to the last hash, succeeds from nonce 0; it is fresh, holds the given transactions, and fits the end of the chain |
| `Playground.StartChain` | BlockchainCore.playground/Contents.swift:133-134 | a chain started from a default block has one linked block sealed with the genesis hash, exactly when mining the genesis candidate succeeds |
| `Playground.DemoFees` | BlockchainCore.playground/Contents.swift:137-140 | one contract over the two demo transfers leaves 19.6/0.4 and 9.5/0.5 |
| `Playground.AddTransfers` | BlockchainCore.playground/Contents.swift:137-140 | on a one-block linked chain the next block is added exactly when its mining succeeds; then the chain has two linked blocks and both transfers are charged once |
| `Playground.Demo` | BlockchainCore.playground/Contents.swift:133-140 | the playground run succeeds exactly when both blocks can be mined; then the chain has two linked blocks and the transfers hold 19.6/0.4 and 9.5/0.5 |

## Left out

- `sha1` and `JSONEncoder` are foreign calls. They are parameters of type `Primitives`, so nothing is assumed about what they compute. `Codable` and the JSON dump of the chain at the end of the playground are not modelled.
- `print` calls, including the one inside the mining loop, are left out.
- Fees.ApplyFee: amounts are exact reals, not IEEE doubles. Rounding in `amount * fee` and `amount -= fee` is not modelled, so for example 20 × 0.02 is exactly 0.4 here.
- Ledger.GenerateHash: Swift's `nonce += 1` traps at `Int.max`. This trap is modelled as a `NonceOverflow` result, which callers turn into `ok == false` or `None` instead of a crash. Otherwise the loop always ends, because the nonce cannot pass `Int.max`.
- Ledger.Blockchain.GetNextBlock: `fatalError` on an empty chain and the implicit unwrap of the last block's `hash: String!` are crashes in the source. Here they are preconditions: the chain is non-empty and its last block is sealed.
- Ledger.Blockchain.AddBlock: it states what happens to the block's own transactions. It does not state what happens to other blocks that share those transaction objects, which are charged too.
- Block `index` is an unbounded integer. Swift's `blocks.count` cannot overflow in practice.
- The `SmartContract` protocol has one implementation. It is modelled as the one class `FeeContract`.
- Playground.Demo creates the two transactions before the genesis block; the playground creates them after it. Neither order touches the other objects, so the results are the same.
- The code reports no errors: `addBlock` checks nothing and returns nothing, and `getNextBlock` crashes on an empty chain.
- Hashing.HasPrefix: the prefix test compares character by character, while Swift's `hasPrefix` compares grapheme clusters. The two agree on the ASCII hex text that sha1 returns, but not on every string a `sha1` parameter could return.
