// The miner's choices said by positions in the listing of the mempool: what it takes, where it stops, what leaves the
// mempool, and what its block commits to.
module Selection {
  import opened Bytes
  import opened Positions
  import opened Wrappers
  import opened Hashes
  import opened Ledger
  import opened Blocks
  import opened Mempools
  import opened Mining
  import Merkle

  // ----- the selection

  /** How many of the positions lie below i. */
  function Below(ks: seq<nat>, i: nat): (m: nat)
    ensures m <= |ks|
  {
    if ks == [] then 0 else if ks[|ks| - 1] < i then |ks| else Below(ks[..|ks| - 1], i)
  }

  lemma {:induction false} BelowIs(ks: seq<nat>, n: nat, i: nat)
    requires Increasing(ks, n)
    ensures forall j :: 0 <= j < |ks| ==> (ks[j] < i <==> j < Below(ks, i))
    decreases |ks|
  {
    if ks != [] && ks[|ks| - 1] >= i {
      BelowIs(ks[..|ks| - 1], n, i);
    }
  }

  /** The transactions taken from before position i. */
  function TakenBefore(chosen: seq<SignedTransaction>, ks: seq<nat>, i: nat): seq<SignedTransaction>
    requires |chosen| == |ks|
  {
    chosen[..Below(ks, i)]
  }

  predicate TooBig(p: Params, chosen: seq<SignedTransaction>, tx: SignedTransaction) {
    SizeOf(p, chosen) + p.txSize(tx) > 4000
  }

  /** Position i was looked at with room for its transaction, taken exactly if it replays after those taken before. */
  ghost predicate RightAt(p: Params, order: seq<SignedTransaction>, start: Accounts,
                          chosen: seq<SignedTransaction>, ks: seq<nat>, i: nat)
    requires i < |order| && |chosen| == |ks|
  {
    var before := TakenBefore(chosen, ks, i);
    !TooBig(p, before, order[i]) && (i in ks <==> Replay(start, before + [order[i]]).Some?)
  }

  /** The first n of the listing were looked at, and those at the positions ks were taken. */
  ghost predicate Chosen(p: Params, order: seq<SignedTransaction>, start: Accounts,
                         chosen: seq<SignedTransaction>, n: nat, ks: seq<nat>) {
    && n <= |order| && |chosen| == |ks| && Increasing(ks, n)
    && (forall j :: 0 <= j < |ks| ==> chosen[j] == order[ks[j]])
    && (forall i: nat :: i < n ==> RightAt(p, order, start, chosen, ks, i))
  }

  /** Position i was skipped and is evicted by the test of the source, which compares a nonce with a balance. */
  ghost predicate EvictedAt(order: seq<SignedTransaction>, start: Accounts,
                            chosen: seq<SignedTransaction>, ks: seq<nat>, i: nat)
    requires i < |order| && |chosen| == |ks|
  {
    && i !in ks
    && match Replay(start, TakenBefore(chosen, ks, i))
       case None => false
       case Some(state) =>
         order[i].transaction.accountNonce < AccountOf(state, order[i].transaction.sender).balance
  }

  ghost predicate EvictedAmong(p: Params, order: seq<SignedTransaction>, start: Accounts,
                               chosen: seq<SignedTransaction>, ks: seq<nat>, n: nat, h: H256)
    requires n <= |order| && |chosen| == |ks|
  {
    exists i: nat :: i < n && EvictedAt(order, start, chosen, ks, i) && p.txHash(order[i]) == h
  }

  /** The mempool lost exactly the evicted transactions. */
  ghost predicate PoolLost(p: Params, order: seq<SignedTransaction>, start: Accounts, pool: Pool,
                           chosen: seq<SignedTransaction>, n: nat, ks: seq<nat>, pool': Pool)
    requires n <= |order| && |chosen| == |ks|
  {
    && pool'.seen == pool.seen
    && (forall h :: h in pool'.pending <==> h in pool.pending && !EvictedAmong(p, order, start, chosen, ks, n, h))
    && (forall h :: h in pool'.pending ==> pool'.pending[h] == pool.pending[h])
  }

  lemma BeforeKept(chosen: seq<SignedTransaction>, ks: seq<nat>, n: nat, i: nat, tx: SignedTransaction)
    requires |chosen| == |ks| && Increasing(ks, n) && i <= n
    ensures TakenBefore(chosen + [tx], ks + [n], i) == TakenBefore(chosen, ks, i)
  {
    assert (ks + [n])[..|ks|] == ks;
    assert (chosen + [tx])[..Below(ks, i)] == chosen[..Below(ks, i)];
  }

  lemma BeforeAll(chosen: seq<SignedTransaction>, ks: seq<nat>, n: nat)
    requires |chosen| == |ks| && Increasing(ks, n)
    ensures TakenBefore(chosen, ks, n) == chosen
  {
    BelowIs(ks, n, n);
    if ks != [] {
      assert ks[|ks| - 1] < n;
    }
    assert chosen[..|chosen|] == chosen;
  }

  lemma ReplayOneMoreIff(start: Accounts, chosen: seq<SignedTransaction>, state: Accounts, tx: SignedTransaction)
    requires Replay(start, chosen) == Some(state)
    ensures Replay(start, chosen + [tx]).Some? <==> Acceptable(state, tx.transaction)
  {
    ReplayConcat(start, chosen, [tx]);
    assert [tx][1..] == [];
  }

  /** What holds after the first n of the listing. */
  ghost predicate SoFar(p: Params, order: seq<SignedTransaction>, start: Accounts, pool: Pool,
                        d: Draft, n: nat, ks: seq<nat>) {
    && Chosen(p, order, start, d.chosen, n, ks)
    && PoolLost(p, order, start, pool, d.chosen, n, ks, d.pool)
    && Replay(start, d.chosen) == Some(d.state) && d.size == SizeOf(p, d.chosen)
  }

  lemma ChosenTakes(p: Params, order: seq<SignedTransaction>, start: Accounts, chosen: seq<SignedTransaction>,
                    state: Accounts, n: nat, ks: seq<nat>)
    requires Chosen(p, order, start, chosen, n, ks) && Replay(start, chosen) == Some(state) && n < |order|
    requires !TooBig(p, chosen, order[n]) && Acceptable(state, order[n].transaction)
    ensures Chosen(p, order, start, chosen + [order[n]], n + 1, ks + [n])
  {
    var chosen', ks' := chosen + [order[n]], ks + [n];
    TakenAt(p, order, start, chosen, state, n, ks);
    forall i: nat | i < n ensures RightAt(p, order, start, chosen', ks', i) {
      assert RightAt(p, order, start, chosen, ks, i);
      BeforeKept(chosen, ks, n, i, order[n]);
    }
  }

  lemma TakenAt(p: Params, order: seq<SignedTransaction>, start: Accounts, chosen: seq<SignedTransaction>,
                state: Accounts, n: nat, ks: seq<nat>)
    requires |chosen| == |ks| && Increasing(ks, n) && Replay(start, chosen) == Some(state) && n < |order|
    requires !TooBig(p, chosen, order[n]) && Acceptable(state, order[n].transaction)
    ensures RightAt(p, order, start, chosen + [order[n]], ks + [n], n)
  {
    ReplayOneMoreIff(start, chosen, state, order[n]);
    BeforeAll(chosen, ks, n);
    BeforeKept(chosen, ks, n, n, order[n]);
  }

  lemma ChosenSkips(p: Params, order: seq<SignedTransaction>, start: Accounts, chosen: seq<SignedTransaction>,
                    state: Accounts, n: nat, ks: seq<nat>)
    requires Chosen(p, order, start, chosen, n, ks) && Replay(start, chosen) == Some(state) && n < |order|
    requires !TooBig(p, chosen, order[n]) && !Acceptable(state, order[n].transaction)
    ensures Chosen(p, order, start, chosen, n + 1, ks)
  {
    ReplayOneMoreIff(start, chosen, state, order[n]);
    BeforeAll(chosen, ks, n);
    assert RightAt(p, order, start, chosen, ks, n);
  }

  lemma LostTakes(p: Params, order: seq<SignedTransaction>, start: Accounts, pool: Pool,
                  chosen: seq<SignedTransaction>, n: nat, ks: seq<nat>, pool': Pool)
    requires n < |order| && |chosen| == |ks| && Increasing(ks, n)
    requires PoolLost(p, order, start, pool, chosen, n, ks, pool')
    ensures PoolLost(p, order, start, pool, chosen + [order[n]], n + 1, ks + [n], pool')
  {
    forall i: nat | i < n
      ensures EvictedAt(order, start, chosen + [order[n]], ks + [n], i) <==> EvictedAt(order, start, chosen, ks, i)
    {
      BeforeKept(chosen, ks, n, i, order[n]);
    }
    assert !EvictedAt(order, start, chosen + [order[n]], ks + [n], n);
    forall h ensures EvictedAmong(p, order, start, chosen + [order[n]], ks + [n], n + 1, h)
                <==> EvictedAmong(p, order, start, chosen, ks, n, h) {
    }
  }

  lemma AmongOneMore(p: Params, order: seq<SignedTransaction>, start: Accounts,
                     chosen: seq<SignedTransaction>, ks: seq<nat>, n: nat, h: H256)
    requires n < |order| && |chosen| == |ks|
    ensures EvictedAmong(p, order, start, chosen, ks, n + 1, h)
       <==> EvictedAmong(p, order, start, chosen, ks, n, h)
            || (EvictedAt(order, start, chosen, ks, n) && p.txHash(order[n]) == h)
  {
  }

  lemma SkippedEvicted(order: seq<SignedTransaction>, start: Accounts, chosen: seq<SignedTransaction>,
                       state: Accounts, n: nat, ks: seq<nat>)
    requires n < |order| && |chosen| == |ks| && Increasing(ks, n) && Replay(start, chosen) == Some(state)
    ensures EvictedAt(order, start, chosen, ks, n)
       <==> order[n].transaction.accountNonce < AccountOf(state, order[n].transaction.sender).balance
  {
    BeforeAll(chosen, ks, n);
  }

  lemma LostSkips(p: Params, order: seq<SignedTransaction>, start: Accounts, pool: Pool,
                  chosen: seq<SignedTransaction>, state: Accounts, n: nat, ks: seq<nat>, pool': Pool)
    requires n < |order| && |chosen| == |ks| && Increasing(ks, n) && Replay(start, chosen) == Some(state)
    requires PoolLost(p, order, start, pool, chosen, n, ks, pool')
    ensures var t := order[n].transaction;
            PoolLost(p, order, start, pool, chosen, n + 1, ks,
                     if t.accountNonce < AccountOf(state, t.sender).balance then Removed(pool', p.txHash(order[n]))
                     else pool')
  {
    SkippedEvicted(order, start, chosen, state, n, ks);
    LostOneMore(p, order, start, pool, chosen, n, ks, pool');
  }

  lemma LostOneMore(p: Params, order: seq<SignedTransaction>, start: Accounts, pool: Pool,
                    chosen: seq<SignedTransaction>, n: nat, ks: seq<nat>, pool': Pool)
    requires n < |order| && |chosen| == |ks| && PoolLost(p, order, start, pool, chosen, n, ks, pool')
    ensures PoolLost(p, order, start, pool, chosen, n + 1, ks,
                     if EvictedAt(order, start, chosen, ks, n) then Removed(pool', p.txHash(order[n])) else pool')
  {
    var evicted, g := EvictedAt(order, start, chosen, ks, n), p.txHash(order[n]);
    var after := if evicted then Removed(pool', g) else pool';
    forall h ensures h in after.pending
                <==> h in pool.pending && !EvictedAmong(p, order, start, chosen, ks, n + 1, h) {
      AmongOneMore(p, order, start, chosen, ks, n, h);
      assert h in after.pending <==> h in pool'.pending && !(evicted && h == g);
    }
  }

  lemma OneLooked(p: Params, order: seq<SignedTransaction>, start: Accounts, pool: Pool, d: Draft, n: nat, ks: seq<nat>)
    returns (ks': seq<nat>)
    requires SoFar(p, order, start, pool, d, n, ks) && n < |order| && d.size + p.txSize(order[n]) <= BLOCK_LIMIT
    ensures SoFar(p, order, start, pool, Considered(p, order[n], d), n + 1, ks')
  {
    if Acceptable(d.state, order[n].transaction) {
      ks' := ks + [n];
      ChosenTakes(p, order, start, d.chosen, d.state, n, ks);
      LostTakes(p, order, start, pool, d.chosen, n, ks, d.pool);
      ReplayOneMore(start, d.chosen, d.state, order[n]);
      SizeOneMore(p, d.chosen, order[n]);
    } else {
      ks' := ks;
      ChosenSkips(p, order, start, d.chosen, d.state, n, ks);
      LostSkips(p, order, start, pool, d.chosen, d.state, n, ks, d.pool);
    }
  }

  lemma FilledStep(p: Params, order: seq<SignedTransaction>, n: nat, d: Draft)
    requires n < |order| && d.size + p.txSize(order[n]) <= BLOCK_LIMIT
    ensures Filled(p, order[n..], d) == Filled(p, order[n + 1..], Considered(p, order[n], d))
  {
    assert order[n..][1..] == order[n + 1..];
  }

  ghost predicate Ended(p: Params, order: seq<SignedTransaction>, start: Accounts, pool: Pool,
                        d: Draft, n: nat, ks: seq<nat>) {
    SoFar(p, order, start, pool, d, n, ks) && (n == |order| || TooBig(p, d.chosen, order[n]))
  }

  lemma FilledEnds(p: Params, order: seq<SignedTransaction>, start: Accounts, pool: Pool,
                   d: Draft, n: nat, ks: seq<nat>)
    requires n <= |order| && SoFar(p, order, start, pool, d, n, ks)
    requires n == |order| || d.size + p.txSize(order[n]) > BLOCK_LIMIT
    ensures Filled(p, order[n..], d) == d && Ended(p, order, start, pool, d, n, ks)
  {
  }

  lemma {:induction false} FilledFrom(p: Params, order: seq<SignedTransaction>, start: Accounts, pool: Pool,
                                      d: Draft, n: nat, ks: seq<nat>) returns (n': nat, ks': seq<nat>)
    requires n <= |order| && SoFar(p, order, start, pool, d, n, ks)
    ensures Ended(p, order, start, pool, Filled(p, order[n..], d), n', ks')
    decreases |order| - n
  {
    if n == |order| || d.size + p.txSize(order[n]) > BLOCK_LIMIT {
      n', ks' := n, ks;
      FilledEnds(p, order, start, pool, d, n, ks);
    } else {
      var ks1 := OneLooked(p, order, start, pool, d, n, ks);
      FilledStep(p, order, n, d);
      n', ks' := FilledFrom(p, order, start, pool, Considered(p, order[n], d), n + 1, ks1);
    }
  }

  /**
   The selection by positions: the listing is looked at up to its end, or to the first transaction for which there is no
   room after those taken; a transaction looked at is taken exactly if it replays after those taken before it; the
   mempool loses exactly what was evicted.
   */
  lemma SelectionIs(p: Params, order: seq<SignedTransaction>, start: Accounts, pool: Pool)
    returns (n: nat, ks: seq<nat>)
    ensures var d := Filled(p, order, EmptyDraft(start, pool));
            && Chosen(p, order, start, d.chosen, n, ks)
            && (n == |order| || TooBig(p, d.chosen, order[n]))
            && PoolLost(p, order, start, pool, d.chosen, n, ks, d.pool)
  {
    assert order[0..] == order;
    n, ks := FilledFrom(p, order, start, pool, EmptyDraft(start, pool), 0, []);
  }

  // ----- the clean-up

  /** The test of the clean-up at position i, when the sender has an account. */
  predicate StaleAt(order: seq<SignedTransaction>, state: Accounts, i: nat)
    requires i < |order|
  {
    var t := order[i].transaction;
    && t.sender in state
    && (t.value > state[t.sender].balance || t.accountNonce != (state[t.sender].nonce + 1) % LIMIT32)
    && t.accountNonce < state[t.sender].balance
  }

  ghost predicate StaleAmong(p: Params, order: seq<SignedTransaction>, state: Accounts, n: nat, h: H256)
    requires n <= |order|
  {
    exists i: nat :: i < n && StaleAt(order, state, i) && p.txHash(order[i]) == h
  }

  /** The mempool after the first n of the listing were looked at. */
  ghost predicate Swept(p: Params, order: seq<SignedTransaction>, state: Accounts, n: nat, pool: Pool, pool': Pool)
    requires n <= |order|
  {
    && pool'.seen == pool.seen
    && (forall h :: h in pool'.pending <==> h in pool.pending && !StaleAmong(p, order, state, n, h))
    && (forall h :: h in pool'.pending ==> pool'.pending[h] == pool.pending[h])
  }

  lemma SweptOne(p: Params, order: seq<SignedTransaction>, state: Accounts, n: nat, pool: Pool, pool': Pool)
    requires n < |order| && Swept(p, order, state, n, pool, pool')
    ensures Swept(p, order, state, n + 1, pool,
                  if StaleAt(order, state, n) then Removed(pool', p.txHash(order[n])) else pool')
  {
    forall h ensures StaleAmong(p, order, state, n + 1, h)
                <==> StaleAmong(p, order, state, n, h) || (StaleAt(order, state, n) && p.txHash(order[n]) == h) {
    }
  }

  lemma CleanedStep(p: Params, order: seq<SignedTransaction>, state: Accounts, n: nat, pool: Pool)
    requires n < |order| && order[n].transaction.sender in state
    ensures Cleaned(p, order[n..], state, pool)
         == Cleaned(p, order[n + 1..], state,
                    if StaleAt(order, state, n) then Removed(pool, p.txHash(order[n])) else pool)
  {
    assert order[n..][1..] == order[n + 1..];
  }

  lemma {:induction false} CleanedFrom(p: Params, order: seq<SignedTransaction>, state: Accounts, n: nat,
                                       pool: Pool, pool': Pool) returns (n': nat)
    requires n <= |order| && Swept(p, order, state, n, pool, pool')
    ensures n <= n' <= |order| && (forall i :: n <= i < n' ==> order[i].transaction.sender in state)
    ensures var r := Cleaned(p, order[n..], state, pool');
            && Swept(p, order, state, n', pool, r.0) && (r.1 <==> n' == |order|)
            && (n' < |order| ==> order[n'].transaction.sender !in state)
    decreases |order| - n
  {
    n' := n;
    if n < |order| && order[n].transaction.sender in state {
      var next := if StaleAt(order, state, n) then Removed(pool', p.txHash(order[n])) else pool';
      SweptOne(p, order, state, n, pool, pool');
      CleanedStep(p, order, state, n, pool');
      n' := CleanedFrom(p, order, state, n + 1, pool, next);
    }
  }

  /** The clean-up goes through the listing up to a sender without an account, and removes exactly the stale ones. */
  lemma CleanedIs(p: Params, order: seq<SignedTransaction>, state: Accounts, pool: Pool) returns (n: nat)
    ensures n <= |order| && (forall i :: 0 <= i < n ==> order[i].transaction.sender in state)
    ensures n < |order| ==> order[n].transaction.sender !in state
    ensures var (pool', ok) := Cleaned(p, order, state, pool);
            Swept(p, order, state, n, pool, pool') && (ok <==> n == |order|)
  {
    assert order[0..] == order;
    n := CleanedFrom(p, order, state, 0, pool, pool);
  }

  // ----- what a mined block commits to

  /** A mined block is what it says, and each of its transactions has a proof that leads to the root in its header. */
  lemma MinedRootHasProofs(p: Params, parent: H256, txs: seq<SignedTransaction>, nonce: u32, timestamp: nat, i: nat)
    requires i < |txs|
    ensures var b, leaves := Mined(p, parent, txs, nonce, timestamp), Merkle.LeavesOf(txs, p.txHash);
            var path := Merkle.SiblingPath(p.hashTwo, leaves, i);
            && b.transactions == txs && b.Parent() == parent && b.header.difficulty == p.difficulty
            && b.header.nonce == nonce && b.header.timestamp == timestamp
            && |path| == Merkle.CeilLog2(|txs|)
            && Merkle.Folded(p.hashTwo, p.txHash(txs[i]), path, i) == b.header.merkleRoot
  {
    var leaves := Merkle.LeavesOf(txs, p.txHash);
    Merkle.SiblingPathLength(p.hashTwo, leaves, i);
    Merkle.Completeness(p.hashTwo, leaves, i);
  }

  /** Without a collision two blocks mined with equally many transactions have one root only for the same hashes. */
  lemma MinedRootBinds(p: Params, parent: H256, txs: seq<SignedTransaction>, txs': seq<SignedTransaction>,
                       nonce: u32, timestamp: nat)
    requires |txs| == |txs'| > 0
    requires Merkle.CollisionFree(p.hashTwo, Merkle.TreePairs(p.hashTwo, Merkle.LeavesOf(txs, p.txHash))
                                             + Merkle.TreePairs(p.hashTwo, Merkle.LeavesOf(txs', p.txHash)))
    ensures Mined(p, parent, txs, nonce, timestamp).header.merkleRoot
         == Mined(p, parent, txs', nonce, timestamp).header.merkleRoot
       <==> forall i :: 0 <= i < |txs| ==> p.txHash(txs[i]) == p.txHash(txs'[i])
  {
    var xs, ys := Merkle.LeavesOf(txs, p.txHash), Merkle.LeavesOf(txs', p.txHash);
    Merkle.RootBinding(p.hashTwo, xs, ys);
    if forall i :: 0 <= i < |txs| ==> p.txHash(txs[i]) == p.txHash(txs'[i]) {
      assert xs == ys;
    }
    if xs == ys {
      forall i | 0 <= i < |txs| ensures p.txHash(txs[i]) == p.txHash(txs'[i]) {
        assert xs[i] == ys[i];
      }
    }
  }
}
