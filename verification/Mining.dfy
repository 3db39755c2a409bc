// One turn of the miner loop, src/miner/mod.rs:206-334, and the miner-worker, src/miner/worker.rs:42-72.
module Mining {
  import opened Wrappers
  import opened Bytes
  import opened Hashes
  import opened Ledger
  import opened Blocks
  import opened BlockTree
  import opened Mempools
  import opened Acceptance
  import opened NodeInvariant
  import opened HandlerRuns
  import opened NetworkWorker
  import Merkle

  const BLOCK_LIMIT: nat := 4000

  /** The transactions taken so far, the state they lead to, their size, and the mempool as pruned on the way. */
  datatype Draft = Draft(state: Accounts, size: nat, chosen: seq<SignedTransaction>, pool: Pool)

  /** The selection loop over the pending transactions in the order in which the map happens to list them. */
  function Filled(p: Params, order: seq<SignedTransaction>, d: Draft): Draft
    decreases |order|
  {
    if order == [] then d
    else if d.size + p.txSize(order[0]) > BLOCK_LIMIT then d
    else Filled(p, order[1..], Considered(p, order[0], d))
  }

  /** One transaction: applied when acceptable, else skipped and perhaps evicted (nonce compared with balance). */
  function Considered(p: Params, tx: SignedTransaction, d: Draft): Draft {
    var t := tx.transaction;
    if !Acceptable(d.state, t) then
      if t.accountNonce < AccountOf(d.state, t.sender).balance then d.(pool := Removed(d.pool, p.txHash(tx))) else d
    else Draft(Applied(d.state, t), d.size + p.txSize(tx), d.chosen + [tx], d.pool)
  }

  function EmptyDraft(state: Accounts, pool: Pool): Draft {
    Draft(state, 0, [], pool)
  }

  /** The loop after a block is found; it panics at a pending transaction whose sender has no account. */
  function Cleaned(p: Params, order: seq<SignedTransaction>, state: Accounts, pool: Pool): (Pool, bool)
    decreases |order|
  {
    if order == [] then (pool, true)
    else
      var t := order[0].transaction;
      if t.sender !in state then (pool, false)
      else
        var account := state[t.sender];
        var stale := (t.value > account.balance || t.accountNonce != Add32(account.nonce, 1))
                     && t.accountNonce < account.balance;
        Cleaned(p, order[1..], state, if stale then Removed(pool, p.txHash(order[0])) else pool)
  }

  function MerkleRoot(p: Params, txs: seq<SignedTransaction>): H256 {
    Merkle.TreeOf(p.hashTwo, Merkle.LeavesOf(txs, p.txHash)).root
  }

  function Mined(p: Params, parent: H256, txs: seq<SignedTransaction>, nonce: u32, timestamp: nat): Block {
    Block(Header(parent, nonce, p.difficulty, timestamp, MerkleRoot(p, txs)), txs)
  }

  /** The order lists every pending transaction once. */
  ghost predicate Enumerates(p: Params, pool: Pool, order: seq<SignedTransaction>) {
    && (forall i :: 0 <= i < |order| ==>
          p.txHash(order[i]) in pool.pending && pool.pending[p.txHash(order[i])] == order[i])
    && (forall i, j :: 0 <= i < j < |order| ==> order[i] != order[j])
    && (forall h :: h in pool.pending ==> pool.pending[h] in order)
  }

  lemma EnumeratesCons(p: Params, pool: Pool, h: H256, rest: seq<SignedTransaction>)
    requires PoolOk(p, pool) && h in pool.pending && Enumerates(p, Removed(pool, h), rest)
    ensures Enumerates(p, pool, [pool.pending[h]] + rest)
  {
    var tx, order := pool.pending[h], [pool.pending[h]] + rest;
    assert tx !in rest;
    forall k | k in pool.pending ensures pool.pending[k] in order {
      assert k != h ==> Removed(pool, h).pending[k] in rest;
    }
  }

  /** There is a listing of any mempool that files transactions under their hashes. */
  lemma {:induction false} ListingExists(p: Params, pool: Pool) returns (order: seq<SignedTransaction>)
    requires PoolOk(p, pool)
    ensures Enumerates(p, pool, order)
    decreases |pool.pending|
  {
    order := [];
    if pool.pending != map[] {
      var h :| h in pool.pending;
      var rest := ListingExists(p, Removed(pool, h));
      EnumeratesCons(p, pool, h, rest);
      order := [pool.pending[h]] + rest;
    }
  }

  datatype Outcome = NoState | NotFound | Sent | Panicked

  class Miner {
    const p: Params
    const blockchain: Blockchain
    const mempool: Mempool
    const blockState: BlockState
    var finishedBlocks: seq<Block>

    ghost predicate Valid()
      reads blockchain
    {
      blockchain.p == p && mempool.p == p && blockchain.Valid()
    }

    ghost function View(): Shared
      reads blockchain, mempool, blockState
    {
      Shared(blockchain.View(), blockState.blockStateMap, mempool.View())
    }

    constructor (blockchain: Blockchain, mempool: Mempool, blockState: BlockState)
      requires blockchain.Valid() && mempool.p == blockchain.p
      ensures Valid() && finishedBlocks == []
      ensures this.blockchain == blockchain && this.mempool == mempool && this.blockState == blockState
    {
      this.p := blockchain.p;
      this.blockchain, this.mempool, this.blockState := blockchain, mempool, blockState;
      finishedBlocks := [];
    }

    /** A listing of the pending transactions in some order, as iterating over a clone of the map gives. */
    method AnyOrder() returns (order: seq<SignedTransaction>)
      requires Valid() && PoolOk(p, mempool.View())
      ensures Enumerates(p, mempool.View(), order)
    {
      order := [];
      var rest := mempool.transactionMap.Keys;
      while rest != {}
        invariant rest <= mempool.transactionMap.Keys
        invariant forall i :: 0 <= i < |order| ==>
                    var h := p.txHash(order[i]);
                    h in mempool.transactionMap && mempool.transactionMap[h] == order[i] && h !in rest
        invariant forall i, j :: 0 <= i < j < |order| ==> order[i] != order[j]
        invariant forall h :: h in mempool.transactionMap && h !in rest ==> mempool.transactionMap[h] in order
      {
        var h :| h in rest;
        rest := rest - {h};
        order := order + [mempool.transactionMap[h]];
      }
    }

    method SelectTransactions(order: seq<SignedTransaction>, state: Accounts)
      returns (transactions: seq<SignedTransaction>, tipState: Accounts)
      requires Valid()
      modifies mempool
      ensures var d := Filled(p, order, EmptyDraft(state, old(mempool.View())));
              transactions == d.chosen && tipState == d.state && mempool.View() == d.pool
    {
      transactions, tipState := [], state;
      var currentSize: nat := 0;
      ghost var goal := Filled(p, order, EmptyDraft(state, mempool.View()));
      assert order[0..] == order;
      for i := 0 to |order|
        invariant Filled(p, order[i..], Draft(tipState, currentSize, transactions, mempool.View())) == goal
      {
        assert order[i..][1..] == order[i + 1..];
        var tx := order[i];
        if currentSize + p.txSize(tx) > BLOCK_LIMIT {
          break;
        }
        var t := tx.transaction;
        var senderState := if t.sender in tipState then tipState[t.sender] else Account(0, 0);
        if t.value > senderState.balance || t.accountNonce != Add32(senderState.nonce, 1) {
          if t.accountNonce < senderState.balance {
            mempool.Remove(p.txHash(tx));
          }
          continue;
        }
        tipState := tipState[t.sender := Account(Add32(senderState.nonce, 1), Sub32(senderState.balance, t.value))];
        var receiverState := if t.receiver in tipState then tipState[t.receiver] else Account(0, 0);
        tipState := tipState[t.receiver := Account(receiverState.nonce, Add32(receiverState.balance, t.value))];
        currentSize := currentSize + p.txSize(tx);
        transactions := transactions + [tx];
      }
    }

    method CleanUp(order: seq<SignedTransaction>, state: Accounts) returns (ok: bool)
      requires Valid()
      modifies mempool
      ensures (mempool.View(), ok) == Cleaned(p, order, state, old(mempool.View()))
    {
      assert order[0..] == order;
      for i := 0 to |order|
        invariant Cleaned(p, order[i..], state, mempool.View()) == Cleaned(p, order, state, old(mempool.View()))
      {
        assert order[i..][1..] == order[i + 1..];
        var t := order[i].transaction;
        if t.sender !in state {
          return false;
        }
        var senderState := state[t.sender];
        if t.value > senderState.balance || t.accountNonce != Add32(senderState.nonce, 1) {
          if t.accountNonce < senderState.balance {
            mempool.Remove(p.txHash(order[i]));
          }
        }
      }
      return true;
    }

    /** One turn of the loop in the running state, with the clock and the random nonce as parameters. */
    method MineOnce(nonce: u32, timestamp: nat)
      returns (outcome: Outcome, order: seq<SignedTransaction>, order': seq<SignedTransaction>)
      requires Valid() && PoolOk(p, mempool.View())
      modifies this, mempool, blockState
      ensures Valid()
      ensures MineResult(p, old(View()), View(), nonce, timestamp, outcome, order, order')
      ensures finishedBlocks == if outcome == Sent
                then old(finishedBlocks) + [Assembled(p, old(View()), order, nonce, timestamp)]
                else old(finishedBlocks)
    {
      order, order' := [], [];
      var parent := blockchain.tip;
      if parent !in blockState.blockStateMap {
        return NoState, order, order';
      }
      var tipState := blockState.blockStateMap[parent];
      order := AnyOrder();
      FilledFacts(p, order, EmptyDraft(tipState, mempool.View()));
      var transactions;
      transactions, tipState := SelectTransactions(order, tipState);
      var merkleTree := Merkle.New(p.hashTwo, transactions, p.txHash);
      var block := Block(Header(parent, nonce, p.difficulty, timestamp, merkleTree.root), transactions);
      if !AtMost(p.Hash(block), p.difficulty) {
        return NotFound, order, order';
      }
      RemovedAllKeeps(p, mempool.View(), transactions);
      mempool.RemoveAll(transactions);
      blockState.blockStateMap := blockState.blockStateMap[p.Hash(block) := tipState];
      order' := AnyOrder();
      var ok := CleanUp(order', tipState);
      if !ok {
        return Panicked, order, order';
      }
      finishedBlocks := finishedBlocks + [block];
      return Sent, order, order';
    }
  }

  function DraftFor(p: Params, sh: Shared, order: seq<SignedTransaction>): Draft
    requires sh.chain.tip in sh.states
  {
    Filled(p, order, EmptyDraft(sh.states[sh.chain.tip], sh.pool))
  }

  /** The block the miner assembles from a listing of the mempool. */
  function Assembled(p: Params, sh: Shared, order: seq<SignedTransaction>, nonce: u32, timestamp: nat): Block
    requires sh.chain.tip in sh.states
  {
    Mined(p, sh.chain.tip, DraftFor(p, sh, order).chosen, nonce, timestamp)
  }

  /** How one turn of the miner changes the shared structures, case by case. */
  ghost predicate MineResult(p: Params, sh: Shared, sh': Shared, nonce: u32, timestamp: nat, outcome: Outcome,
                             order: seq<SignedTransaction>, order': seq<SignedTransaction>) {
    if sh.chain.tip !in sh.states then outcome == NoState && sh' == sh
    else
      var d := DraftFor(p, sh, order);
      var b := Assembled(p, sh, order, nonce, timestamp);
      Enumerates(p, sh.pool, order) &&
      if !AtMost(p.Hash(b), p.difficulty) then outcome == NotFound && sh' == sh.(pool := d.pool)
      else
        var pool := RemovedAll(p, d.pool, b.transactions);
        var (pool', ok) := Cleaned(p, order', d.state, pool);
        && Enumerates(p, pool, order')
        && outcome == (if ok then Sent else Panicked)
        && sh' == Shared(sh.chain, sh.states[p.Hash(b) := d.state], pool')
  }

  // ----- the miner-worker

  /** A finished block is inserted only on the current tip, and only once. */
  function Delivered(p: Params, t: Tree, b: Block): Tree {
    if t.tip != b.Parent() || p.Hash(b) in t.blocks then t else Inserted(p, t, b)
  }

  class MinerWorker {
    const p: Params
    const blockchain: Blockchain

    constructor (blockchain: Blockchain)
      ensures this.blockchain == blockchain && p == blockchain.p
    {
      this.p, this.blockchain := blockchain.p, blockchain;
    }

    /** The result is the announcement, and whether the server is told to update. */
    method Deliver(block: Block) returns (toAll: Option<Message>, update: bool)
      requires blockchain.Valid() && blockchain.p == p
      modifies blockchain
      ensures blockchain.Valid() && blockchain.View() == Delivered(p, old(blockchain.View()), block)
      ensures toAll == if update then Some(NewBlockHashes([p.Hash(block)])) else None
      ensures update <==> old(blockchain.View()) != blockchain.View()
    {
      if blockchain.tip != block.Parent() {
        return None, false;
      }
      if p.Hash(block) in blockchain.blocks {
        return None, false;
      }
      blockchain.Insert(block);
      assert p.Hash(block) in blockchain.blocks;
      return Some(NewBlockHashes([p.Hash(block)])), true;
    }
  }

  // ----- what the selection achieves

  function SizeOf(p: Params, txs: seq<SignedTransaction>): nat {
    if txs == [] then 0 else SizeOf(p, txs[..|txs| - 1]) + p.txSize(txs[|txs| - 1])
  }

  /** The draft is a replay of its transactions, which come from the listing, and fits the block limit. */
  ghost predicate DraftOk(p: Params, start: Accounts, pool: Pool, d: Draft) {
    && Replay(start, d.chosen) == Some(d.state)
    && d.size == SizeOf(p, d.chosen) <= BLOCK_LIMIT
    && (forall tx :: tx in d.chosen ==> p.txHash(tx) in pool.pending && pool.pending[p.txHash(tx)] == tx)
  }

  lemma ReplayOneMore(start: Accounts, chosen: seq<SignedTransaction>, state: Accounts, tx: SignedTransaction)
    requires Replay(start, chosen) == Some(state) && Acceptable(state, tx.transaction)
    ensures Replay(start, chosen + [tx]) == Some(Applied(state, tx.transaction))
  {
    ReplayConcat(start, chosen, [tx]);
    assert [tx][1..] == [];
  }

  lemma SizeOneMore(p: Params, chosen: seq<SignedTransaction>, tx: SignedTransaction)
    ensures SizeOf(p, chosen + [tx]) == SizeOf(p, chosen) + p.txSize(tx)
  {
    assert (chosen + [tx])[..|chosen|] == chosen;
  }

  lemma ConsideredOk(p: Params, start: Accounts, pool: Pool, tx: SignedTransaction, d: Draft)
    requires DraftOk(p, start, pool, d) && d.size + p.txSize(tx) <= BLOCK_LIMIT
    requires p.txHash(tx) in pool.pending && pool.pending[p.txHash(tx)] == tx
    ensures DraftOk(p, start, pool, Considered(p, tx, d))
  {
    if Acceptable(d.state, tx.transaction) {
      ReplayOneMore(start, d.chosen, d.state, tx);
      SizeOneMore(p, d.chosen, tx);
    }
  }

  lemma {:induction false} FilledOk(p: Params, start: Accounts, pool: Pool, order: seq<SignedTransaction>, d: Draft)
    requires DraftOk(p, start, pool, d)
    requires forall tx :: tx in order ==> p.txHash(tx) in pool.pending && pool.pending[p.txHash(tx)] == tx
    ensures DraftOk(p, start, pool, Filled(p, order, d))
    decreases |order|
  {
    if order != [] && d.size + p.txSize(order[0]) <= BLOCK_LIMIT {
      assert order[0] in order;
      ConsideredOk(p, start, pool, order[0], d);
      FilledOk(p, start, pool, order[1..], Considered(p, order[0], d));
    }
  }

  lemma {:induction false} FilledFacts(p: Params, order: seq<SignedTransaction>, d: Draft)
    requires PoolOk(p, d.pool)
    ensures PoolOk(p, Filled(p, order, d).pool)
    decreases |order|
  {
    if order != [] && d.size + p.txSize(order[0]) <= BLOCK_LIMIT {
      FilledFacts(p, order[1..], Considered(p, order[0], d));
    }
  }

  /** The clean-up goes through exactly when every pending sender has an account in the new state. */
  lemma {:induction false} CleanedIff(p: Params, order: seq<SignedTransaction>, state: Accounts, pool: Pool)
    requires PoolOk(p, pool)
    ensures Cleaned(p, order, state, pool).1 <==> forall tx :: tx in order ==> tx.transaction.sender in state
    ensures PoolOk(p, Cleaned(p, order, state, pool).0)
    decreases |order|
  {
    if order != [] {
      assert forall tx :: tx in order <==> tx == order[0] || tx in order[1..];
      var t := order[0].transaction;
      if t.sender in state {
        CleanedIff(p, order[1..], state, Removed(pool, p.txHash(order[0])));
        CleanedIff(p, order[1..], state, pool);
      }
    }
  }

  /**
   Whatever order the mempool is listed in, the assembled block passes the validator on its parent: signatures,
   replay, and the state reached is the one the miner stores. Its transactions fit the block limit.
   */
  lemma MinerBlockIsValid(p: Params, w: iset<Block>, sh: Shared, parent: H256,
                          order: seq<SignedTransaction>, nonce: u32, timestamp: nat)
    requires NodeInv(p, w, sh) && parent in sh.chain.blocks && parent in sh.states
    requires forall tx :: tx in order ==> p.txHash(tx) in sh.pool.pending && sh.pool.pending[p.txHash(tx)] == tx
    ensures var d := Filled(p, order, EmptyDraft(sh.states[parent], sh.pool));
            var b := Mined(p, parent, d.chosen, nonce, timestamp);
            && Extends(p, sh.chain, b) && AllVerified(p, b.transactions)
            && Replay(sh.states[parent], b.transactions) == Some(d.state)
            && SizeOf(p, b.transactions) <= BLOCK_LIMIT
            && PoolOk(p, d.pool)
  {
    var d0 := EmptyDraft(sh.states[parent], sh.pool);
    FilledOk(p, sh.states[parent], sh.pool, order, d0);
    FilledFacts(p, order, d0);
  }

  /** In a node that keeps the invariant the stored state of a held block follows from its parent's state. */
  lemma HeldState(p: Params, w: iset<Block>, sh: Shared, sh': Shared, b: Block, state: Accounts)
    requires Hypotheses(p, w) && NodeInv(p, w, sh) && NodeInv(p, w, sh') && Grows(sh, sh')
    requires b in w && b != p.genesis && p.Hash(b) in sh'.chain.blocks
    requires b.Parent() in sh.states && Replay(sh.states[b.Parent()], b.transactions) == Some(state)
    ensures p.Hash(b) in sh'.states && sh'.states[p.Hash(b)] == state && sh'.chain.blocks[p.Hash(b)] == b
  {
    assert ChainEntryOk(p, w, sh', p.Hash(b)) && Placed(p, sh'.chain, p.Hash(b));
    SameHashSameBlock(p, w, b, sh'.chain.blocks[p.Hash(b)]);
    assert StateEntryOk(p, sh', b);
  }

  /** A block that is ready for a node is accepted by it, alone in a message, with the state it replays to. */
  lemma ReadyBlockAccepted(p: Params, w: iset<Block>, sh: Shared, b: Block, state: Accounts)
    requires Hypotheses(p, w) && NodeInv(p, w, sh) && b in w && Extends(p, sh.chain, b) && Screened(p, b)
    requires b.Parent() in sh.states && Replay(sh.states[b.Parent()], b.transactions) == Some(state)
    ensures var (sh', j') := Finish(p, sh, Opening(sh, [b]));
            && j'.Fetch? && NodeInv(p, w, sh')
            && p.Hash(b) in sh'.chain.blocks && sh'.chain.blocks[p.Hash(b)] == b
            && p.Hash(b) in sh'.states && sh'.states[p.Hash(b)] == state
  {
    var r := Finish(p, sh, Opening(sh, [b]));
    SingleBlockReplays(p, w, sh, b);
    HandlerIsSound(p, w, sh, [b]);
    HeldState(p, w, sh, r.0, b, state);
  }

  /** Any node that holds the parent accepts a mined block, and ends with the state the miner computed. */
  lemma MinedBlockAcceptedByPeer(p: Params, w: iset<Block>, sh: Shared, peer: Shared, parent: H256,
                                 order: seq<SignedTransaction>, nonce: u32, timestamp: nat)
    requires Hypotheses(p, w) && NodeInv(p, w, sh) && NodeInv(p, w, peer)
    requires parent in sh.chain.blocks && parent in sh.states && parent in peer.chain.blocks
    requires forall tx :: tx in order ==> p.txHash(tx) in sh.pool.pending && sh.pool.pending[p.txHash(tx)] == tx
    requires var d := Filled(p, order, EmptyDraft(sh.states[parent], sh.pool));
             var b := Mined(p, parent, d.chosen, nonce, timestamp);
             b in w && AtMost(p.Hash(b), p.difficulty)
    ensures var d := Filled(p, order, EmptyDraft(sh.states[parent], sh.pool));
            var b := Mined(p, parent, d.chosen, nonce, timestamp);
            var (peer', j') := Finish(p, peer, Opening(peer, [b]));
            && j'.Fetch? && NodeInv(p, w, peer')
            && p.Hash(b) in peer'.chain.blocks && peer'.chain.blocks[p.Hash(b)] == b
            && p.Hash(b) in peer'.states && peer'.states[p.Hash(b)] == d.state
  {
    var d := Filled(p, order, EmptyDraft(sh.states[parent], sh.pool));
    var b := Mined(p, parent, d.chosen, nonce, timestamp);
    MinerBlockIsValid(p, w, sh, parent, order, nonce, timestamp);
    StatesAgree(p, w, sh, peer, parent);
    ReadyBlockAccepted(p, w, peer, b, d.state);
  }

  /** A delivery that changes the tree makes the new block the tip, one longer than the longest chain before. */
  lemma DeliveryExtendsLongestChain(p: Params, w: iset<Block>, sh: Shared, b: Block)
    requires Hypotheses(p, w) && NodeInv(p, w, sh) && b in w && b != p.genesis
    requires Screened(p, b) && p.Hash(b) in sh.states
    ensures var sh' := sh.(chain := Delivered(p, sh.chain, b));
            && NodeInv(p, w, sh') && Grows(sh, sh')
            && if sh.chain.tip == b.Parent() && p.Hash(b) !in sh.chain.blocks
               then
                 && sh'.chain.tip == p.Hash(b)
                 && TipHeight(sh'.chain) == TipHeight(sh.chain) + 1
                 && Branch(p, sh'.chain, sh'.chain.tip) == Branch(p, sh.chain, sh.chain.tip) + [p.Hash(b)]
               else sh' == sh
  {
    var t, t' := sh.chain, Delivered(p, sh.chain, b);
    if t.tip != b.Parent() || p.Hash(b) in t.blocks {
      assert sh.(chain := t') == sh;
    } else {
      LinkKeeps(p, w, sh, b);
      TipNeverFalls(p, w, t, b);
      BranchPersists(p, t, t', t.tip);
      assert Placed(p, t', p.Hash(b));
      assert p.Hash(b) != p.GenesisHash();
    }
  }

  lemma {:induction false} BranchPersists(p: Params, t: Tree, t': Tree, h: H256)
    requires WellFormed(p, t) && WellFormed(p, t') && MapGrows(t.blocks, t'.blocks) && h in t.blocks
    ensures h in t'.blocks && Branch(p, t', h) == Branch(p, t, h)
    decreases t.heights[h]
  {
    assert Placed(p, t, h) && Placed(p, t', h);
    if h != p.GenesisHash() {
      BranchPersists(p, t, t', t.blocks[h].Parent());
    }
  }
}
