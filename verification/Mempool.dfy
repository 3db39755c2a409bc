// The Mempool of src/miner/mod.rs:42-73.
module Mempools {
  import opened Hashes
  import opened Ledger
  import opened Blocks

  /** Pending transactions by hash, and the hashes of all transactions ever added. */
  datatype Pool = Pool(pending: map<H256, SignedTransaction>, seen: set<H256>)

  function Added(p: Params, pool: Pool, tx: SignedTransaction): Pool {
    var h := p.txHash(tx);
    if h in pool.seen then pool else Pool(pool.pending[h := tx], pool.seen + {h})
  }

  function Removed(pool: Pool, h: H256): Pool {
    pool.(pending := pool.pending - {h})
  }

  function RemovedAll(p: Params, pool: Pool, txs: seq<SignedTransaction>): Pool
    decreases |txs|
  {
    if txs == [] then pool else RemovedAll(p, Removed(pool, p.txHash(txs[0])), txs[1..])
  }

  /** The received transactions that verify are added, in order. */
  function Received(p: Params, pool: Pool, txs: seq<SignedTransaction>): Pool
    decreases |txs|
  {
    if txs == [] then pool
    else Received(p, if p.Verified(txs[0]) then Added(p, pool, txs[0]) else pool, txs[1..])
  }

  /** Every pending transaction is filed under its hash, was recorded as seen, and verifies. */
  ghost predicate PoolOk(p: Params, pool: Pool) {
    forall h :: h in pool.pending ==>
      h in pool.seen && p.txHash(pool.pending[h]) == h && p.Verified(pool.pending[h])
  }

  class Mempool {
    const p: Params
    var transactionMap: map<H256, SignedTransaction>
    var transactionSet: set<H256>

    ghost function View(): Pool
      reads this
    {
      Pool(transactionMap, transactionSet)
    }

    constructor (p: Params)
      ensures this.p == p && View() == Pool(map[], {}) && PoolOk(p, View())
    {
      this.p := p;
      transactionMap, transactionSet := map[], {};
    }

    method Insert(transaction: SignedTransaction)
      modifies this
      ensures View() == Added(p, old(View()), transaction)
    {
      if p.txHash(transaction) in transactionSet {
        return;
      }
      transactionMap := transactionMap[p.txHash(transaction) := transaction];
      transactionSet := transactionSet + {p.txHash(transaction)};
    }

    method Remove(transactionHash: H256)
      modifies this
      ensures View() == Removed(old(View()), transactionHash)
    {
      if transactionHash in transactionMap {
        transactionMap := transactionMap - {transactionHash};
      } else {
        assert transactionMap - {transactionHash} == transactionMap;
      }
    }

    /** The loop that removes the transactions of an accepted block. */
    method RemoveAll(txs: seq<SignedTransaction>)
      modifies this
      ensures View() == RemovedAll(p, old(View()), txs)
    {
      assert txs[0..] == txs;
      for i := 0 to |txs|
        invariant RemovedAll(p, View(), txs[i..]) == RemovedAll(p, old(View()), txs)
      {
        assert txs[i..][1..] == txs[i + 1..];
        Remove(p.txHash(txs[i]));
      }
    }
  }

  function TxHashes(p: Params, txs: seq<SignedTransaction>): set<H256> {
    set tx | tx in txs :: p.txHash(tx)
  }

  /** Removing a block's transactions takes exactly them out of the pending ones, and forgets none as seen. */
  lemma {:induction false} RemovedAllIs(p: Params, pool: Pool, txs: seq<SignedTransaction>)
    ensures RemovedAll(p, pool, txs) == Pool(pool.pending - TxHashes(p, txs), pool.seen)
    decreases |txs|
  {
    if txs == [] {
      assert pool.pending - {} == pool.pending;
    } else {
      var h := p.txHash(txs[0]);
      RemovedAllIs(p, Removed(pool, h), txs[1..]);
      assert forall tx :: tx in txs <==> tx == txs[0] || tx in txs[1..];
      assert TxHashes(p, txs) == {h} + TxHashes(p, txs[1..]);
      assert pool.pending - {h} - TxHashes(p, txs[1..]) == pool.pending - TxHashes(p, txs);
    }
  }

  lemma RemovedAllKeeps(p: Params, pool: Pool, txs: seq<SignedTransaction>)
    requires PoolOk(p, pool)
    ensures PoolOk(p, RemovedAll(p, pool, txs))
  {
    RemovedAllIs(p, pool, txs);
  }

  /** Only transactions that verify get in, and every transaction seen once is never pending again. */
  lemma {:induction false} ReceivedKeeps(p: Params, pool: Pool, txs: seq<SignedTransaction>)
    requires PoolOk(p, pool)
    ensures var pool' := Received(p, pool, txs);
            && PoolOk(p, pool')
            && pool.seen <= pool'.seen
            && (forall h :: h in pool'.pending && h in pool.seen ==> h in pool.pending)
            && (forall tx :: tx in txs && p.Verified(tx) ==> p.txHash(tx) in pool'.seen)
    decreases |txs|
  {
    if txs != [] {
      var next := if p.Verified(txs[0]) then Added(p, pool, txs[0]) else pool;
      ReceivedKeeps(p, next, txs[1..]);
      forall tx | tx in txs && p.Verified(tx) ensures p.txHash(tx) in Received(p, pool, txs).seen {
        assert tx == txs[0] || tx in txs[1..];
      }
    }
  }

  /** Place i has a transaction that verifies and is the first verifying one with its hash. */
  ghost predicate FirstWithHash(p: Params, txs: seq<SignedTransaction>, i: nat)
    requires i < |txs|
  {
    && p.Verified(txs[i])
    && forall j :: 0 <= j < i && p.Verified(txs[j]) ==> p.txHash(txs[j]) != p.txHash(txs[i])
  }

  ghost predicate Offers(p: Params, txs: seq<SignedTransaction>, h: H256) {
    exists i :: 0 <= i < |txs| && p.Verified(txs[i]) && p.txHash(txs[i]) == h
  }

  /** What a mempool is after a list was received: nothing lost, and of the unseen verifying ones the first each. */
  ghost predicate Joined(p: Params, pool: Pool, txs: seq<SignedTransaction>, pool': Pool) {
    && (forall h :: h in pool'.seen <==> h in pool.seen || Offers(p, txs, h))
    && (forall h :: h in pool'.pending <==> h in pool.pending || (h !in pool.seen && Offers(p, txs, h)))
    && (forall h :: h in pool.pending ==> h in pool'.pending && pool'.pending[h] == pool.pending[h])
    && (forall i: nat :: i < |txs| && FirstWithHash(p, txs, i) && p.txHash(txs[i]) !in pool.seen ==>
          p.txHash(txs[i]) in pool'.pending && pool'.pending[p.txHash(txs[i])] == txs[i])
  }

  lemma OffersCons(p: Params, txs: seq<SignedTransaction>, h: H256)
    requires txs != []
    ensures Offers(p, txs, h) <==> (p.Verified(txs[0]) && p.txHash(txs[0]) == h) || Offers(p, txs[1..], h)
  {
    if Offers(p, txs, h) {
      var i :| 0 <= i < |txs| && p.Verified(txs[i]) && p.txHash(txs[i]) == h;
      assert i > 0 ==> txs[1..][i - 1] == txs[i];
    }
    if Offers(p, txs[1..], h) {
      var i :| 0 <= i < |txs[1..]| && p.Verified(txs[1..][i]) && p.txHash(txs[1..][i]) == h;
      assert txs[i + 1] == txs[1..][i];
    }
  }

  lemma FirstCons(p: Params, txs: seq<SignedTransaction>, i: nat)
    requires 0 < i < |txs| && FirstWithHash(p, txs, i)
    ensures FirstWithHash(p, txs[1..], i - 1)
    ensures p.Verified(txs[0]) ==> p.txHash(txs[0]) != p.txHash(txs[i])
  {
    forall j | 0 <= j < i - 1 && p.Verified(txs[1..][j]) ensures p.txHash(txs[1..][j]) != p.txHash(txs[1..][i - 1]) {
      assert txs[1..][j] == txs[j + 1];
    }
  }

  lemma JoinedCons(p: Params, pool: Pool, txs: seq<SignedTransaction>, pool': Pool)
    requires PoolOk(p, pool) && txs != []
    requires var next := if p.Verified(txs[0]) then Added(p, pool, txs[0]) else pool; Joined(p, next, txs[1..], pool')
    ensures Joined(p, pool, txs, pool')
  {
    forall h ensures Offers(p, txs, h) <==> (p.Verified(txs[0]) && p.txHash(txs[0]) == h) || Offers(p, txs[1..], h) {
      OffersCons(p, txs, h);
    }
    forall i: nat | i < |txs| && FirstWithHash(p, txs, i) && p.txHash(txs[i]) !in pool.seen
      ensures p.txHash(txs[i]) in pool'.pending && pool'.pending[p.txHash(txs[i])] == txs[i]
    {
      if i > 0 {
        FirstCons(p, txs, i);
        assert txs[1..][i - 1] == txs[i];
      }
    }
  }

  /** Receiving a list leaves exactly what it should pending, and exactly what it should seen. */
  lemma {:induction false} ReceivedIs(p: Params, pool: Pool, txs: seq<SignedTransaction>)
    requires PoolOk(p, pool)
    ensures Joined(p, pool, txs, Received(p, pool, txs))
    decreases |txs|
  {
    if txs != [] {
      var next := if p.Verified(txs[0]) then Added(p, pool, txs[0]) else pool;
      ReceivedIs(p, next, txs[1..]);
      JoinedCons(p, pool, txs, Received(p, pool, txs));
    }
  }
}
