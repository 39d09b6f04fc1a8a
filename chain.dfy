/**
 * The linkage of a chain, on the header fields of its blocks: position, previous
 * hash and sealed hash. The ledger class keeps its blocks as objects and states
 * its invariant through the headers they show.
 */
module Chain {
  import opened Wrappers
  import opened Hashing

  datatype Header = Header(index: int, previousHash: string, hash: Option<string>)

  /** The header is sealed with a hash that meets the difficulty target. */
  predicate IsSealed(h: Header)
  {
    h.hash.Some? && HasPrefix(h.hash.value, Difficulty)
  }

  /**
   * Positions are indices, every block is sealed, the first names the sentinel as
   * its previous hash and every later one names its predecessor's hash.
   */
  ghost predicate ChainLinked(hs: seq<Header>)
  {
    (|hs| > 0 ==> hs[0].previousHash == GenesisPreviousHash) &&
    (forall i :: 0 <= i < |hs| ==> hs[i].index == i && IsSealed(hs[i])) &&
    (forall i :: 1 <= i < |hs| ==> Some(hs[i].previousHash) == hs[i - 1].hash)
  }

  /** `h` is a sealed header that belongs right after the last one of the non-empty `hs`. */
  predicate Fits(hs: seq<Header>, h: Header)
  {
    |hs| > 0 && h.index == |hs| && Some(h.previousHash) == hs[|hs| - 1].hash && IsSealed(h)
  }

  /** A header that can start a chain: position 0, the sentinel as previous hash, sealed. */
  predicate IsGenesis(h: Header)
  {
    h.index == 0 && h.previousHash == GenesisPreviousHash && IsSealed(h)
  }

  /** A genesis header alone forms a linked chain, and it is the only header that does. */
  lemma GenesisLinked(h: Header)
    ensures ChainLinked([h]) <==> IsGenesis(h)
  {
  }

  /** Appending a header that fits keeps the chain linked. */
  lemma ChainLinkedAppend(hs: seq<Header>, h: Header)
    requires ChainLinked(hs) && Fits(hs, h)
    ensures ChainLinked(hs + [h])
  {
    var hs' := hs + [h];
    forall i | 1 <= i < |hs'|
      ensures Some(hs'[i].previousHash) == hs'[i - 1].hash
    {
      if i < |hs| {
        assert hs'[i - 1] == hs[i - 1] && hs'[i] == hs[i];
      }
    }
  }
}
