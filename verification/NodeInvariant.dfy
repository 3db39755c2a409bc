// What holds of the shared structures at every moment, and what each step of the Blocks handler keeps.
module NodeInvariant {
  import opened Wrappers
  import opened Hashes
  import opened Ledger
  import opened Blocks
  import opened BlockTree
  import opened Mempools
  import opened Acceptance

  ghost predicate ChainEntryOk(p: Params, w: iset<Block>, sh: Shared, h: H256) {
    && h in sh.chain.blocks && sh.chain.blocks[h] in w && h in sh.states
    && (h != p.GenesisHash() ==> Screened(p, sh.chain.blocks[h]))
  }

  /** The state stored for a block is its replay on the state of its parent, which is in the chain. */
  ghost predicate StateEntryOk(p: Params, sh: Shared, b: Block) {
    && p.Hash(b) in sh.states && b.Parent() in sh.chain.blocks && b.Parent() in sh.states
    && Replay(sh.states[b.Parent()], b.transactions) == Some(sh.states[p.Hash(b)])
  }

  /**
   Every block of the chain was screened and has a state; every stored state, also of a mined block still on its
   way to the chain, is the replay of its block; genesis has the initial offering; pending transactions verify.
   */
  ghost predicate NodeInv(p: Params, w: iset<Block>, sh: Shared) {
    && WellFormed(p, sh.chain) && Known(sh.chain, w)
    && (forall h {:trigger ChainEntryOk(p, w, sh, h)} :: h in sh.chain.blocks ==> ChainEntryOk(p, w, sh, h))
    && p.GenesisHash() in sh.states && sh.states[p.GenesisHash()] == InitialOffering(p.founder)
    && (forall b {:trigger StateEntryOk(p, sh, b)} ::
          b in w && b != p.genesis && p.Hash(b) in sh.states ==> StateEntryOk(p, sh, b))
    && PoolOk(p, sh.pool)
  }

  ghost predicate MapGrows<K(!new), V(!new)>(m: map<K, V>, m': map<K, V>) {
    forall k :: k in m ==> k in m' && m'[k] == m[k]
  }

  /** Blocks and states are only ever added, and the tip does not fall. */
  ghost predicate Grows(sh: Shared, sh': Shared) {
    && MapGrows(sh.chain.blocks, sh'.chain.blocks)
    && MapGrows(sh.states, sh'.states)
    && TipHeight(sh.chain) <= TipHeight(sh'.chain)
  }

  // ----- the two ways a state and a block get in

  /** A state may be stored before its block is inserted, as the miner does. */
  lemma PublishKeeps(p: Params, w: iset<Block>, sh: Shared, b: Block, state: Accounts)
    requires Hypotheses(p, w) && NodeInv(p, w, sh) && b in w && Extends(p, sh.chain, b)
    requires b.Parent() in sh.states && Replay(sh.states[b.Parent()], b.transactions) == Some(state)
    ensures NodeInv(p, w, Published(p, sh, b, state)) && Grows(sh, Published(p, sh, b, state))
  {
    var h, sh' := p.Hash(b), Published(p, sh, b, state);
    if h in sh.states {
      assert StateEntryOk(p, sh, b);
      assert sh'.states == sh.states;
      assert sh' == sh;
    } else {
      forall k | k in sh'.chain.blocks ensures ChainEntryOk(p, w, sh', k) {
        assert ChainEntryOk(p, w, sh, k);
      }
      forall c | c in w && c != p.genesis && p.Hash(c) in sh'.states ensures StateEntryOk(p, sh', c) {
        if p.Hash(c) == h {
          SameHashSameBlock(p, w, b, c);
        } else {
          assert StateEntryOk(p, sh, c);
        }
      }
    }
  }

  lemma InsertedTree(p: Params, w: iset<Block>, t: Tree, b: Block)
    requires Hypotheses(p, w) && b in w && Extends(p, t, b)
    requires WellFormed(p, t) && Known(t, w)
    ensures var t' := Inserted(p, t, b);
            && WellFormed(p, t') && Known(t', w)
            && t'.blocks == t.blocks[p.Hash(b) := b] && MapGrows(t.blocks, t'.blocks)
            && TipHeight(t) <= TipHeight(t')
  {
    InsertKeepsWellFormed(p, w, t, b);
    TipNeverFalls(p, w, t, b);
    if p.Hash(b) in t.blocks {
      ReinsertionIsIdle(p, w, t, b);
    }
  }

  lemma LinkKeeps(p: Params, w: iset<Block>, sh: Shared, b: Block)
    requires Hypotheses(p, w) && NodeInv(p, w, sh) && b in w && Extends(p, sh.chain, b)
    requires Screened(p, b) && p.Hash(b) in sh.states
    ensures NodeInv(p, w, Linked(p, sh, b)) && Grows(sh, Linked(p, sh, b))
    ensures Linked(p, sh, b).chain.blocks == sh.chain.blocks[p.Hash(b) := b]
  {
    var sh' := Linked(p, sh, b);
    InsertedTree(p, w, sh.chain, b);
    forall k | k in sh'.chain.blocks ensures ChainEntryOk(p, w, sh', k) {
      if k != p.Hash(b) {
        assert ChainEntryOk(p, w, sh, k);
      }
    }
    forall c | c in w && c != p.genesis && p.Hash(c) in sh'.states ensures StateEntryOk(p, sh', c) {
      assert StateEntryOk(p, sh, c);
    }
  }

  /** Storing the replayed state of a screened block and inserting the block. */
  lemma AcceptKeeps(p: Params, w: iset<Block>, sh: Shared, b: Block, state: Accounts)
    requires Hypotheses(p, w) && NodeInv(p, w, sh) && b in w && Extends(p, sh.chain, b) && Screened(p, b)
    requires b.Parent() in sh.states && Replay(sh.states[b.Parent()], b.transactions) == Some(state)
    ensures var sh' := Linked(p, Published(p, sh, b, state), b);
            && NodeInv(p, w, sh') && Grows(sh, sh')
            && sh'.chain.blocks == sh.chain.blocks[p.Hash(b) := b]
            && sh'.states == sh.states[p.Hash(b) := state]
  {
    PublishKeeps(p, w, sh, b, state);
    LinkKeeps(p, w, Published(p, sh, b, state), b);
  }

  /** Accepting a block a second time, as the orphan loop may after an early exit, changes nothing. */
  lemma ReacceptanceIsIdle(p: Params, w: iset<Block>, sh: Shared, b: Block, state: Accounts)
    requires Hypotheses(p, w) && NodeInv(p, w, sh) && b in w && b != p.genesis && p.Hash(b) in sh.chain.blocks
    requires b.Parent() in sh.states && Replay(sh.states[b.Parent()], b.transactions) == Some(state)
    ensures Linked(p, Published(p, sh, b, state), b) == sh
  {
    assert ChainEntryOk(p, w, sh, p.Hash(b)) && StateEntryOk(p, sh, b);
    ReinsertionIsIdle(p, w, sh.chain, b);
    assert sh.states[p.Hash(b) := state] == sh.states;
  }

  lemma PoolChangeKeeps(p: Params, w: iset<Block>, sh: Shared, pool: Pool)
    requires NodeInv(p, w, sh) && PoolOk(p, pool)
    ensures NodeInv(p, w, sh.(pool := pool)) && Grows(sh, sh.(pool := pool))
  {
    var sh' := sh.(pool := pool);
    forall k | k in sh'.chain.blocks ensures ChainEntryOk(p, w, sh', k) {
      assert ChainEntryOk(p, w, sh, k);
    }
    forall c | c in w && c != p.genesis && p.Hash(c) in sh'.states ensures StateEntryOk(p, sh', c) {
      assert StateEntryOk(p, sh, c);
    }
  }

  lemma PurgeKeeps(p: Params, w: iset<Block>, sh: Shared, txs: seq<SignedTransaction>)
    requires NodeInv(p, w, sh)
    ensures NodeInv(p, w, Purged(p, sh, txs)) && Grows(sh, Purged(p, sh, txs))
  {
    RemovedAllKeeps(p, sh.pool, txs);
    PoolChangeKeeps(p, w, sh, RemovedAll(p, sh.pool, txs));
  }

  /** The node at start: genesis with the initial offering, as main sets it up. */
  function Start(p: Params): Shared {
    Shared(Root(p), map[p.GenesisHash() := InitialOffering(p.founder)], Pool(map[], {}))
  }

  lemma StartOk(p: Params, w: iset<Block>)
    requires Hypotheses(p, w)
    ensures NodeInv(p, w, Start(p))
  {
    var sh := Start(p);
    RootIsWellFormed(p, w);
    assert ChainEntryOk(p, w, sh, p.GenesisHash());
    forall b | b in w && b != p.genesis ensures p.Hash(b) !in sh.states {
      if p.Hash(b) == p.GenesisHash() {
        SameHashSameBlock(p, w, b, p.genesis);
      }
    }
  }

  // ----- what the invariant means for a stored state

  /** The state of a block is the replay of its whole branch from the initial offering. */
  lemma {:induction false} StateIsBranchReplay(p: Params, w: iset<Block>, sh: Shared, h: H256)
    requires NodeInv(p, w, sh) && h in sh.chain.blocks
    ensures h in sh.states
    ensures Replay(InitialOffering(p.founder), BranchTxs(p, sh.chain, h)) == Some(sh.states[h])
    decreases sh.chain.heights[h]
  {
    assert ChainEntryOk(p, w, sh, h) && Placed(p, sh.chain, h);
    if h != p.GenesisHash() {
      var b := sh.chain.blocks[h];
      assert StateEntryOk(p, sh, b);
      StateIsBranchReplay(p, w, sh, b.Parent());
      ReplayConcat(InitialOffering(p.founder), BranchTxs(p, sh.chain, b.Parent()), b.transactions);
    }
  }

  /** Every stored state of a chain block holds exactly the initial offering, and nonces count transactions. */
  lemma StateConserves(p: Params, w: iset<Block>, sh: Shared, h: H256)
    requires NodeInv(p, w, sh) && h in sh.chain.blocks
    ensures h in sh.states && Total(sh.states[h]) == OFFERING
    ensures forall a :: var sent := Sent(BranchTxs(p, sh.chain, h), a);
                        CountsUp(0, sent) && AccountOf(sh.states[h], a).nonce == |sent| % LIMIT32
  {
    var l, txs := InitialOffering(p.founder), BranchTxs(p, sh.chain, h);
    StateIsBranchReplay(p, w, sh, h);
    OfferingTotal(p.founder);
    ReplayConserves(l, txs);
    forall a ensures CountsUp(0, Sent(txs, a)) && AccountOf(sh.states[h], a).nonce == |Sent(txs, a)| % LIMIT32 {
      NoncesCountUp(l, txs, a);
    }
  }

  /** A transfer accepted anywhere in a replay on a stored state, by validator or miner, wraps no balance. */
  lemma NoBalanceWraps(p: Params, w: iset<Block>, sh: Shared, h: H256, txs: seq<SignedTransaction>, t: Transaction)
    requires NodeInv(p, w, sh) && h in sh.chain.blocks && h in sh.states
    requires Replay(sh.states[h], txs).Some? && Acceptable(Replay(sh.states[h], txs).value, t)
    ensures var l := Replay(sh.states[h], txs).value;
            && Total(l) == OFFERING
            && t.value <= AccountOf(l, t.sender).balance
            && AccountOf(Debited(l, t), t.receiver).balance + t.value < LIMIT32
            && Total(Applied(l, t)) == OFFERING
  {
    var l := Replay(sh.states[h], txs).value;
    StateConserves(p, w, sh, h);
    ReplayConserves(sh.states[h], txs);
    TransferIsExact(l, t);
    TotalUpdate(l, t.sender, AccountOf(Debited(l, t), t.sender));
    BalanceBelowTotal(Debited(l, t), t.receiver);
  }

  /** No transaction occurs twice on a branch whose senders have each sent at most 2^32. */
  lemma NoReplayOnBranch(p: Params, w: iset<Block>, sh: Shared, h: H256, i: nat, j: nat)
    requires NodeInv(p, w, sh) && h in sh.chain.blocks && i < j < |BranchTxs(p, sh.chain, h)|
    requires var txs := BranchTxs(p, sh.chain, h); |Sent(txs, txs[i].transaction.sender)| <= LIMIT32
    ensures var txs := BranchTxs(p, sh.chain, h); txs[i].transaction != txs[j].transaction
  {
    StateIsBranchReplay(p, w, sh, h);
    NoTransactionTwice(InitialOffering(p.founder), BranchTxs(p, sh.chain, h), i, j);
  }

  /** Two nodes agree on the state of every block that both hold. */
  lemma {:induction false} StatesAgree(p: Params, w: iset<Block>, a: Shared, b: Shared, h: H256)
    requires Hypotheses(p, w) && NodeInv(p, w, a) && NodeInv(p, w, b)
    requires h in a.chain.blocks && h in b.chain.blocks
    ensures a.chain.blocks[h] == b.chain.blocks[h]
    ensures h in a.states && h in b.states && a.states[h] == b.states[h]
    decreases a.chain.heights[h]
  {
    assert ChainEntryOk(p, w, a, h) && ChainEntryOk(p, w, b, h);
    assert Placed(p, a.chain, h) && Placed(p, b.chain, h);
    SameHashSameBlock(p, w, a.chain.blocks[h], b.chain.blocks[h]);
    if h != p.GenesisHash() {
      var c := a.chain.blocks[h];
      assert StateEntryOk(p, a, c) && StateEntryOk(p, b, c);
      StatesAgree(p, w, a, b, c.Parent());
    }
  }
}
