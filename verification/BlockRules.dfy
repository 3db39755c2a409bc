// When a block gets in, in terms of numbers and sums, and what that makes of the stored states.
module BlockRules {
  import opened Bytes
  import opened Hashes
  import opened Ledger
  import opened LedgerSums
  import opened Blocks
  import opened BlockTree
  import opened Acceptance
  import opened NodeInvariant
  import opened HandlerRuns

  /** Proof of work as numbers, every signature verified, and every transaction funded with the next nonce. */
  ghost predicate FollowsRules(p: Params, l: Accounts, b: Block) {
    && FromBe(p.Hash(b).bytes) <= FromBe(p.difficulty.bytes)
    && (forall tx :: tx in b.transactions ==> p.verify(tx.transaction, tx.publicKey, tx.signature))
    && AllFunded(l, b.transactions)
  }

  lemma ScreenedIff(p: Params, b: Block)
    ensures Screened(p, b) <==>
              && FromBe(p.Hash(b).bytes) <= FromBe(p.difficulty.bytes)
              && forall tx :: tx in b.transactions ==> p.verify(tx.transaction, tx.publicKey, tx.signature)
  {
    AtMostIsTotalOrder(p.Hash(b), p.difficulty, p.difficulty);
    if Screened(p, b) {
      forall tx | tx in b.transactions ensures p.verify(tx.transaction, tx.publicKey, tx.signature) {
        var i :| 0 <= i < |b.transactions| && b.transactions[i] == tx;
        assert p.Verified(b.transactions[i]);
      }
    }
  }

  lemma RulesIff(p: Params, w: iset<Block>, sh: Shared, b: Block)
    requires NodeInv(p, w, sh) && b.Parent() in sh.chain.blocks
    ensures b.Parent() in sh.states && Total(sh.states[b.Parent()]) == OFFERING
    ensures FollowsRules(p, sh.states[b.Parent()], b)
       <==> Screened(p, b) && Replay(sh.states[b.Parent()], b.transactions).Some?
  {
    StateConserves(p, w, sh, b.Parent());
    ScreenedIff(p, b);
    ReplayIff(sh.states[b.Parent()], b.transactions);
  }

  /** A block sent alone gets in exactly when it was there, or its parent is and it follows the rules on its state. */
  lemma SingleBlockAcceptedIff(p: Params, w: iset<Block>, sh: Shared, b: Block)
    requires Hypotheses(p, w) && NodeInv(p, w, sh) && b in w
    ensures p.Hash(b) in Finish(p, sh, Opening(sh, [b])).0.chain.blocks <==>
              || p.Hash(b) in sh.chain.blocks
              || (&& b.Parent() in sh.chain.blocks && b.Parent() in sh.states
                  && FollowsRules(p, sh.states[b.Parent()], b))
  {
    SingleBlockReplays(p, w, sh, b);
    if b.Parent() in sh.chain.blocks {
      RulesIff(p, w, sh, b);
    }
  }

  /** Every block of the chain but genesis follows the rules on its parent's state, and its state is their sum. */
  lemma HeldBlockFollowsRules(p: Params, w: iset<Block>, sh: Shared, h: H256)
    requires NodeInv(p, w, sh) && h in sh.chain.blocks && h != p.GenesisHash()
    ensures var b := sh.chain.blocks[h];
            && b.Parent() in sh.chain.blocks && b.Parent() in sh.states && h in sh.states
            && FollowsRules(p, sh.states[b.Parent()], b)
            && Summed(sh.states[b.Parent()], b.transactions, sh.states[h])
  {
    var b := sh.chain.blocks[h];
    assert ChainEntryOk(p, w, sh, h) && Placed(p, sh.chain, h);
    assert StateEntryOk(p, sh, b);
    RulesIff(p, w, sh, b);
    ReplaySums(sh.states[b.Parent()], b.transactions);
  }

  /** The balances of a stored state are the offering, plus what the branch paid each account, less what it spent. */
  lemma StateIsSummed(p: Params, w: iset<Block>, sh: Shared, h: H256)
    requires NodeInv(p, w, sh) && h in sh.chain.blocks
    ensures h in sh.states
    ensures var start, txs := map[p.founder := Account(0, 1_000_000)], BranchTxs(p, sh.chain, h);
            AllFunded(start, txs) && Summed(start, txs, sh.states[h])
  {
    var start, txs := InitialOffering(p.founder), BranchTxs(p, sh.chain, h);
    OfferingTotal(p.founder);
    StateIsBranchReplay(p, w, sh, h);
    ReplayIff(start, txs);
    ReplaySums(start, txs);
  }
}
