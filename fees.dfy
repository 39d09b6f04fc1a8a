/**
 * The fee schedule of the ledger's one smart contract, on transaction values.
 * A `TxRecord` is the snapshot of a `Transaction` object's fields; the class in
 * module Ledger rewrites its fields in place exactly as `ApplyFee` says.
 */
module Fees {

  /** The closed set of transaction kinds. */
  datatype TransactionType = Domestic | International

  /** The field values of a transaction at one moment: from, to, amount, fee, type. */
  datatype TxRecord = TxRecord(from: string, to: string, amount: real, fee: real, kind: TransactionType)

  /** The fee rate of each kind: 2% domestic, 5% international. */
  function Rate(kind: TransactionType): (rate: real)
    ensures 0.0 < rate < 1.0
  {
    match kind
    case Domestic => 0.02
    case International => 0.05
  }

  /**
   * One run of the fee contract: the fee becomes the kind's share of the amount
   * and is taken out of the amount. Only `amount` and `fee` change, the amount is
   * split between what the receiver keeps and the fee, and a non-negative amount
   * stays non-negative with a fee no larger than what is left.
   */
  function ApplyFee(r: TxRecord): (r': TxRecord)
    ensures r'.from == r.from && r'.to == r.to && r'.kind == r.kind
  {
    r.(fee := r.amount * Rate(r.kind), amount := r.amount - r.amount * Rate(r.kind))
  }

  /** The fee one run charges is the kind's rate applied to the amount before the run. */
  lemma ApplyFeeRate(r: TxRecord)
    ensures ApplyFee(r).fee == r.amount * Rate(r.kind)
  {
  }

  /**
   * One run splits the amount between what the receiver keeps and the fee, and a
   * non-negative amount stays non-negative with a fee no larger than what is left.
   */
  lemma ApplyFeeSplits(r: TxRecord)
    ensures ApplyFee(r).amount + ApplyFee(r).fee == r.amount
    ensures r.amount >= 0.0 ==> 0.0 <= ApplyFee(r).fee <= ApplyFee(r).amount
  {
  }

  /** x to the n-th power. */
  function Pow(x: real, n: nat): real
  {
    if n == 0 then 1.0 else x * Pow(x, n - 1)
  }

  /** The fee contract run `n` times over the same transaction. */
  function ApplyFeeTimes(r: TxRecord, n: nat): (r': TxRecord)
    ensures r'.from == r.from && r'.to == r.to && r'.kind == r.kind
    ensures n == 0 ==> r' == r
  {
    if n == 0 then r else ApplyFee(ApplyFeeTimes(r, n - 1))
  }

  /** A record that has had n runs and then one more run or none has had n + 1 or n runs. */
  lemma ApplyFeeStep(r: TxRecord, prev: TxRecord, cur: TxRecord, n: nat, hit: bool)
    requires prev == ApplyFeeTimes(r, n)
    requires cur == if hit then ApplyFee(prev) else prev
    ensures cur == ApplyFeeTimes(r, n + if hit then 1 else 0)
  {
  }

  /** Closed form of repeated runs: each run keeps the fraction 1 - rate of the amount. */
  lemma {:induction false} ApplyFeeTimesClosedForm(r: TxRecord, n: nat)
    ensures ApplyFeeTimes(r, n).amount == r.amount * Pow(1.0 - Rate(r.kind), n)
  {
    if n > 0 {
      ApplyFeeTimesClosedForm(r, n - 1);
      var prev := ApplyFeeTimes(r, n - 1);
      ApplyFeeKeeps(prev);
      ScaleStep(prev.amount, r.amount, 1.0 - Rate(r.kind), n);
    }
  }

  /** One run keeps the fraction 1 - rate of the amount. */
  lemma ApplyFeeKeeps(r: TxRecord)
    ensures ApplyFee(r).amount == r.amount * (1.0 - Rate(r.kind))
  {
  }

  /** If x is a * q^(n-1), then x * q is a * q^n. */
  lemma ScaleStep(x: real, a: real, q: real, n: nat)
    requires n > 0 && x == a * Pow(q, n - 1)
    ensures x * q == a * Pow(q, n)
  {
    calc {
      x * q;
      (a * Pow(q, n - 1)) * q;
      a * (q * Pow(q, n - 1));
    }
  }

  /** The fee left on a transaction after n > 0 runs is the rate taken from the amount before the last run. */
  lemma ApplyFeeTimesLastFee(r: TxRecord, n: nat)
    requires n > 0
    ensures ApplyFeeTimes(r, n).fee == Rate(r.kind) * (r.amount * Pow(1.0 - Rate(r.kind), n - 1))
  {
    ApplyFeeTimesClosedForm(r, n - 1);
    var prev := ApplyFeeTimes(r, n - 1);
    ApplyFeeRate(prev);
    assert ApplyFeeTimes(r, n).fee == prev.amount * Rate(r.kind);
  }

  /** Runs compose: a runs followed by b runs are a + b runs. */
  lemma {:induction false} ApplyFeeTimesAdd(r: TxRecord, a: nat, b: nat)
    ensures ApplyFeeTimes(ApplyFeeTimes(r, a), b) == ApplyFeeTimes(r, a + b)
    decreases b
  {
    if b > 0 {
      ApplyFeeTimesAdd(r, a, b - 1);
    }
  }

  /** i rounds of m runs each: what i contracts do to a transaction listed m times. */
  function Rounds(r: TxRecord, i: nat, m: nat): TxRecord
  {
    if i == 0 then r else ApplyFeeTimes(Rounds(r, i - 1, m), m)
  }

  /** i rounds of m runs are i * m runs. */
  lemma {:induction false} RoundsAreRuns(r: TxRecord, i: nat, m: nat)
    ensures Rounds(r, i, m) == ApplyFeeTimes(r, i * m)
  {
    if i > 0 {
      var a := (i - 1) * m;
      RoundsAreRuns(r, i - 1, m);
      ApplyFeeTimesAdd(r, a, m);
      RoundsAdd(i - 1, m);
    }
  }

  lemma RoundsAdd(i: nat, m: nat)
    ensures i * m + m == (i + 1) * m
  {
  }

  /** Each record run as many times as its count says. */
  function RunsEach(rs: seq<TxRecord>, ns: seq<nat>): seq<TxRecord>
    requires |rs| == |ns|
  {
    seq(|rs|, k requires 0 <= k < |rs| => ApplyFeeTimes(rs[k], ns[k]))
  }

  /** Each record given `rounds` rounds of as many runs per round as its count says. */
  function RoundsEach(rs: seq<TxRecord>, rounds: nat, ns: seq<nat>): seq<TxRecord>
    requires |rs| == |ns|
  {
    seq(|rs|, k requires 0 <= k < |rs| => Rounds(rs[k], rounds, ns[k]))
  }

  /** No rounds leave every record as it was. */
  lemma RoundsEachZero(rs: seq<TxRecord>, ns: seq<nat>)
    requires |rs| == |ns|
    ensures RoundsEach(rs, 0, ns) == rs
  {
  }

  /** A round of runs after i rounds is round i + 1. */
  lemma RoundsEachStep(rs: seq<TxRecord>, i: nat, ns: seq<nat>)
    requires |rs| == |ns|
    ensures RunsEach(RoundsEach(rs, i, ns), ns) == RoundsEach(rs, i + 1, ns)
  {
  }

  /** A single round is one run per count. */
  lemma RoundsEachOne(rs: seq<TxRecord>, ns: seq<nat>)
    requires |rs| == |ns|
    ensures RoundsEach(rs, 1, ns) == RunsEach(rs, ns)
  {
    forall k | 0 <= k < |rs|
      ensures Rounds(rs[k], 1, ns[k]) == ApplyFeeTimes(rs[k], ns[k])
    {
      assert Rounds(rs[k], 0, ns[k]) == rs[k];
    }
  }

  /** A single run is what the fee contract does once. */
  lemma {:induction false} ApplyFeeOnce(r: TxRecord)
    ensures ApplyFeeTimes(r, 1) == ApplyFee(r)
  {
    assert ApplyFeeTimes(r, 0) == r;
  }

  /** The two amounts the ledger's demo transfers: 20 domestic and 10 international. */
  lemma FeeExamples(from: string, to: string)
    ensures ApplyFee(TxRecord(from, to, 20.0, 0.0, Domestic)) == TxRecord(from, to, 19.6, 0.4, Domestic)
    ensures ApplyFee(TxRecord(from, to, 10.0, 0.0, International)) == TxRecord(from, to, 9.5, 0.5, International)
  {
  }
}
