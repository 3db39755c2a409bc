// The main result about runs, for the constants of the source: genesis block, difficulty bound and initial offering.
module SourceNode {
  import opened Bytes
  import opened Wrappers
  import opened Hashes
  import opened Ledger
  import opened Blocks
  import opened BlockTree
  import opened Acceptance
  import opened NodeInvariant
  import opened Concurrency

  /** No two of the blocks have the same hash, and none hashes to zero. */
  ghost predicate Distinguished(headerHash: Header -> H256, w: iset<Block>) {
    && (forall a, b :: a in w && b in w && headerHash(a.header) == headerHash(b.header) ==> a == b)
    && (forall a :: a in w ==> headerHash(a.header) != ZERO)
  }

  lemma SourceHypotheses(p: Params, w: iset<Block>)
    requires p.genesis == Genesis() && Genesis() in w && Distinguished(p.headerHash, w)
    ensures Hypotheses(p, w)
  {
  }

  /** A block as a node of the source holds it: proof of work met as a 256-bit number, and a state with all coins. */
  ghost predicate SourceEntry(p: Params, sh: Shared, h: H256) {
    && WellFormed(p, sh.chain) && h in sh.chain.blocks && h in sh.states
    && (h != p.GenesisHash() ==> FromBe(h.bytes) <= FromBe(Difficulty().bytes))
    && Total(sh.states[h]) == 1_000_000
    && Replay(map[p.founder := Account(0, 1_000_000)], BranchTxs(p, sh.chain, h)) == Some(sh.states[h])
  }

  /** Every block that a node of the source holds, at any moment of any run, is one that met the difficulty, and its
      state distributes the 1,000,000 coins as the payments of its branch do. */
  lemma SourceLedger(headerHash: Header -> H256, txHash: SignedTransaction -> H256, txSize: SignedTransaction -> nat,
                     hashTwo: (H256, H256) -> H256, verify: (Transaction, seq<byte>, seq<byte>) -> bool,
                     founder: Address, w: iset<Block>, n: nat, run: seq<System>, k: nat, h: H256)
    requires Genesis() in w && Distinguished(headerHash, w)
    requires IsRun(SourceParams(headerHash, txHash, txSize, hashTwo, verify, founder), w, n, run) && k < |run|
    requires h in run[k].shared.chain.blocks
    ensures SourceEntry(SourceParams(headerHash, txHash, txSize, hashTwo, verify, founder), run[k].shared, h)
  {
    var p, sh := SourceParams(headerHash, txHash, txSize, hashTwo, verify, founder), run[k].shared;
    SourceHypotheses(p, w);
    LedgerRefinement(p, w, n, run, k);
    RunKeepsInv(p, w, n, run, k);
    assert ChainEntryOk(p, w, sh, h) && Placed(p, sh.chain, h);
    AtMostIsTotalOrder(h, Difficulty(), h);
  }
}
