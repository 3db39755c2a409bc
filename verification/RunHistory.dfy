// What relates two moments of a run: when the tip came in, what a handler found when it took the lock, and what became
// of a transaction.
module RunHistory {
  import opened Wrappers
  import opened Hashes
  import opened Ledger
  import opened Blocks
  import opened BlockTree
  import opened Mempools
  import opened Acceptance
  import opened JobInvariant
  import opened Mining
  import opened Selection
  import opened Concurrency

  // ----- the tip

  /** The tree stays, or one block is inserted below a block that it holds. */
  ghost predicate OneInsertion(p: Params, w: iset<Block>, t: Tree, t': Tree) {
    t' == t || exists b :: b in w && Extends(p, t, b) && t' == Inserted(p, t, b)
  }

  lemma HandlerInserts(p: Params, w: iset<Block>, sh: Shared, j: Job)
    requires JobOk(p, w, sh, j) && Running(j)
    ensures OneInsertion(p, w, sh.chain, JobStep(p, sh, j).0.chain)
  {
    match j
    case Store(d, b, _) => assert Extends(p, sh.chain, b);
    case StoreOrphan(d, _, rest, _, _) => assert Extends(p, sh.chain, rest[0]);
    case _ =>
  }

  lemma DeliveryInserts(p: Params, w: iset<Block>, s: System, s': System)
    requires SystemInv(p, w, s) && DeliverMined(p, s, s')
    ensures OneInsertion(p, w, s.shared.chain, s'.shared.chain)
  {
    assert s.channel[0] in s.channel && Pending(p, w, s.shared, s.channel[0]);
  }

  /** A step of the system inserts one block at most, and below a block that is there. */
  lemma NextInsertsOne(p: Params, w: iset<Block>, s: System, s': System)
    requires SystemInv(p, w, s) && Next(p, w, s, s')
    ensures OneInsertion(p, w, s.shared.chain, s'.shared.chain)
  {
    if i: nat :| AdvanceHandler(p, s, s', i) {
      HandlerInserts(p, w, s.shared, s.workers[i].value);
    } else if DeliverMined(p, s, s') {
      DeliveryInserts(p, w, s, s');
    } else {
      assert s'.shared.chain == s.shared.chain;
    }
  }

  /** If any of the early blocks is among the highest, the tip is an early block. */
  ghost predicate TipAmong(t: Tree, early: set<H256>) {
    forall h :: h in early && h in t.heights && t.heights[h] == TipHeight(t) ==> t.tip in early
  }

  lemma InsertionKeepsTipAmong(p: Params, w: iset<Block>, t: Tree, b: Block, early: set<H256>)
    requires Hypotheses(p, w) && WellFormed(p, t) && Known(t, w) && b in w && Extends(p, t, b)
    requires early <= t.blocks.Keys && TipAmong(t, early)
    ensures TipAmong(Inserted(p, t, b), early)
  {
    var t' := Inserted(p, t, b);
    TipNeverFalls(p, w, t, b);
    forall h | h in early && t'.heights[h] == TipHeight(t') ensures t'.tip in early {
      assert Placed(p, t, h);
    }
  }

  lemma StepKeepsTipAmong(p: Params, w: iset<Block>, run: seq<System>, k: nat, early: set<H256>)
    requires Hypotheses(p, w) && Steps(p, w, run) && InvAlong(p, w, run) && k + 1 < |run|
    requires early <= run[k].shared.chain.blocks.Keys && TipAmong(run[k].shared.chain, early)
    ensures TipAmong(run[k + 1].shared.chain, early)
  {
    var t, t' := run[k].shared.chain, run[k + 1].shared.chain;
    assert SystemInv(p, w, run[k]) && StepFrom(p, w, run, k);
    NextInsertsOne(p, w, run[k], run[k + 1]);
    if t' != t {
      var b :| b in w && Extends(p, t, b) && t' == Inserted(p, t, b);
      InsertionKeepsTipAmong(p, w, t, b, early);
    }
  }

  lemma {:induction false} TipStaysAmong(p: Params, w: iset<Block>, run: seq<System>, l: nat, k: nat)
    requires Hypotheses(p, w) && Steps(p, w, run) && InvAlong(p, w, run) && l <= k < |run|
    ensures TipAmong(run[k].shared.chain, run[l].shared.chain.blocks.Keys)
    decreases k
  {
    if k == l {
      assert SystemInv(p, w, run[l]);
    } else {
      TipStaysAmong(p, w, run, l, k - 1);
      StepsOnlyGrow(p, w, run, l, k - 1);
      StepKeepsTipAmong(p, w, run, k - 1, run[l].shared.chain.blocks.Keys);
    }
  }

  /**
   The tip was inserted first among the blocks that are now the highest: when any of them was in the chain, the tip
   was too. As a step inserts one block at most, this gives the order of insertion.
   */
  lemma TipOfRun(p: Params, w: iset<Block>, n: nat, run: seq<System>, l: nat, k: nat)
    requires Hypotheses(p, w) && IsRun(p, w, n, run) && l <= k < |run|
    ensures var (was, now) := (run[l].shared.chain, run[k].shared.chain);
            forall h :: h in was.blocks && h in now.heights && now.heights[h] == TipHeight(now)
              ==> now.tip in was.blocks
    ensures run[l].shared.chain.blocks.Keys <= run[k].shared.chain.heights.Keys
  {
    InitialOk(p, w, n);
    StepsKeepInvAlong(p, w, run);
    TipStaysAmong(p, w, run, l, k);
    StepsOnlyGrow(p, w, run, l, k);
    assert SystemInv(p, w, run[k]);
  }

  // ----- what a handler found

  /** Worker i took the chain lock at moment l for the message that it still handles at moment k. */
  ghost predicate TookLock(run: seq<System>, i: nat, l: nat, k: nat)
    requires k < |run| && i < |run[k].workers| && run[k].workers[i].Some?
  {
    var d := run[k].workers[i].value.d;
    && 0 < l <= k && run[l - 1].owner.None? && run[l].owner == Some(i)
    && i < |run[l].workers| && run[l].workers[i] == Some(Opening(run[l].shared, d.msg))
    && d.base == run[l].shared.chain.blocks.Keys
  }

  /** The handler of worker i goes on with its message and record, or it has just taken the lock. */
  ghost predicate GoesOn(s: System, s': System, i: nat)
    requires i < |s'.workers| && s'.workers[i].Some?
  {
    && |s.workers| == |s'.workers|
    && var d := s'.workers[i].value.d;
       match s.workers[i]
       case Some(j) => d.msg == j.d.msg && d.base == j.d.base
       case None => s.owner.None? && s'.owner == Some(i) && s'.workers[i] == Some(Opening(s'.shared, d.msg))
  }

  lemma AdvanceGoesOn(p: Params, w: iset<Block>, s: System, s': System, k: nat, i: nat)
    requires Hypotheses(p, w) && SystemInv(p, w, s) && AdvanceHandler(p, s, s', k)
    requires i < |s'.workers| && s'.workers[i].Some?
    ensures GoesOn(s, s', i)
  {
    JobStepKeeps(p, w, s.shared, s.workers[k].value);
  }

  lemma StartGoesOn(p: Params, w: iset<Block>, s: System, s': System, k: nat, blocks: seq<Block>, i: nat)
    requires StartHandler(p, w, s, s', k, blocks) && i < |s'.workers| && s'.workers[i].Some?
    ensures GoesOn(s, s', i)
  {
  }

  /** A step leaves the message and the record of a handler, or is the one that starts it. */
  lemma NextGoesOn(p: Params, w: iset<Block>, s: System, s': System, i: nat)
    requires Hypotheses(p, w) && SystemInv(p, w, s) && Next(p, w, s, s')
    requires i < |s'.workers| && s'.workers[i].Some?
    ensures GoesOn(s, s', i)
  {
    if k: nat :| AdvanceHandler(p, s, s', k) {
      AdvanceGoesOn(p, w, s, s', k, i);
    } else if k: nat, blocks :| StartHandler(p, w, s, s', k, blocks) {
      StartGoesOn(p, w, s, s', k, blocks, i);
    } else if s'.workers != s.workers {
      var k: nat :| EndHandler(s, s', k);
    }
  }

  lemma TookLockBefore(p: Params, w: iset<Block>, run: seq<System>, i: nat, k: nat) returns (started: bool)
    requires Hypotheses(p, w) && Steps(p, w, run) && InvAlong(p, w, run) && k + 1 < |run|
    requires i < |run[k + 1].workers| && run[k + 1].workers[i].Some?
    ensures started ==> TookLock(run, i, k + 1, k + 1)
    ensures !started ==>
              && i < |run[k].workers| && run[k].workers[i].Some?
              && forall l :: TookLock(run, i, l, k) ==> TookLock(run, i, l, k + 1)
  {
    assert SystemInv(p, w, run[k]) && StepFrom(p, w, run, k);
    NextGoesOn(p, w, run[k], run[k + 1], i);
    started := run[k].workers[i].None?;
  }

  lemma {:induction false} HandlerTookLock(p: Params, w: iset<Block>, run: seq<System>, i: nat, k: nat) returns (l: nat)
    requires Hypotheses(p, w) && Steps(p, w, run) && InvAlong(p, w, run) && k < |run|
    requires forall j :: 0 <= j < |run[0].workers| ==> run[0].workers[j].None?
    requires i < |run[k].workers| && run[k].workers[i].Some?
    ensures TookLock(run, i, l, k)
    decreases k
  {
    var started := TookLockBefore(p, w, run, i, k - 1);
    if started {
      l := k;
    } else {
      l := HandlerTookLock(p, w, run, i, k - 1);
    }
  }

  /**
   What a handler will announce was not in the chain at the moment l when it took the lock, and is in the chain now;
   all blocks that came in since are from its message.
   */
  lemma AnnouncedHashesAreHeld(p: Params, w: iset<Block>, n: nat, run: seq<System>, k: nat, i: nat) returns (l: nat)
    requires Hypotheses(p, w) && IsRun(p, w, n, run) && k < |run|
    requires i < |run[k].workers| && run[k].workers[i].Some?
    ensures TookLock(run, i, l, k) && run[k].owner == Some(i)
    ensures var (was, now, d) := (run[l].shared.chain.blocks, run[k].shared.chain.blocks, run[k].workers[i].value.d);
            && (forall h :: h in d.broadcast ==> h !in was && h in now)
            && (forall h :: h in now && h !in was ==> now[h] in d.msg)
  {
    InitialOk(p, w, n);
    StepsKeepInvAlong(p, w, run);
    l := HandlerTookLock(p, w, run, i, k);
    assert SystemInv(p, w, run[k]);
    assert JobOk(p, w, run[k].shared, run[k].workers[i].value);
  }

  // ----- what becomes of a transaction

  /** No hash is forgotten as seen, and what was seen is pending only if it was, and unchanged. */
  ghost predicate NoneBack(pool: Pool, pool': Pool) {
    && pool.seen <= pool'.seen
    && forall h :: h in pool'.pending && h in pool.seen ==> h in pool.pending && pool'.pending[h] == pool.pending[h]
  }

  lemma NoneBackTwice(a: Pool, b: Pool, c: Pool)
    requires NoneBack(a, b) && NoneBack(b, c)
    ensures NoneBack(a, c)
  {
  }

  lemma {:induction false} FilledNoneBack(p: Params, order: seq<SignedTransaction>, d: Draft)
    ensures NoneBack(d.pool, Filled(p, order, d).pool)
    decreases |order|
  {
    if order != [] && d.size + p.txSize(order[0]) <= BLOCK_LIMIT {
      FilledNoneBack(p, order[1..], Considered(p, order[0], d));
    }
  }

  lemma {:induction false} CleanedNoneBack(p: Params, order: seq<SignedTransaction>, state: Accounts, pool: Pool)
    ensures NoneBack(pool, Cleaned(p, order, state, pool).0)
    decreases |order|
  {
    if order != [] {
      CleanedNoneBack(p, order[1..], state, pool);
      CleanedNoneBack(p, order[1..], state, Removed(pool, p.txHash(order[0])));
    }
  }

  lemma HandlerNoneBack(p: Params, sh: Shared, j: Job)
    requires Running(j)
    ensures NoneBack(sh.pool, JobStep(p, sh, j).0.pool)
  {
    match j
    case Purge(_, b) => RemovedAllIs(p, sh.pool, b.transactions);
    case PurgeOrphan(_, parent, _, _) => RemovedAllIs(p, sh.pool, parent.transactions);
    case _ =>
  }

  lemma SealNoneBack(p: Params, order: seq<SignedTransaction>, d: Draft)
    ensures NoneBack(d.pool, Filled(p, order, d).pool)
    ensures NoneBack(d.pool, RemovedAll(p, Filled(p, order, d).pool, Filled(p, order, d).chosen))
  {
    FilledNoneBack(p, order, d);
    RemovedAllIs(p, Filled(p, order, d).pool, Filled(p, order, d).chosen);
  }

  lemma MinerNoneBack(p: Params, w: iset<Block>, s: System, s': System)
    requires MinerNext(p, w, s, s')
    ensures NoneBack(s.shared.pool, s'.shared.pool)
  {
    if order, nonce, timestamp :| MinerSeal(p, w, s, s', order, nonce, timestamp) {
      SealNoneBack(p, order, EmptyDraft(s.miner.state, s.shared.pool));
    } else if order :| MinerPublish(p, s, s', order) {
      CleanedNoneBack(p, order, s.miner.state, s.shared.pool);
    }
  }

  lemma NextNoneBack(p: Params, w: iset<Block>, s: System, s': System)
    requires SystemInv(p, w, s) && Next(p, w, s, s')
    ensures NoneBack(s.shared.pool, s'.shared.pool)
  {
    if i: nat :| AdvanceHandler(p, s, s', i) {
      HandlerNoneBack(p, s.shared, s.workers[i].value);
    } else if txs :| ReceiveTransactions(p, s, s', txs) {
      ReceivedIs(p, s.shared.pool, txs);
    } else if MinerNext(p, w, s, s') {
      MinerNoneBack(p, w, s, s');
    }
  }

  lemma OneStepNoneBack(p: Params, w: iset<Block>, run: seq<System>, k: nat)
    requires Steps(p, w, run) && InvAlong(p, w, run) && k + 1 < |run|
    ensures NoneBack(run[k].shared.pool, run[k + 1].shared.pool)
  {
    assert SystemInv(p, w, run[k]) && StepFrom(p, w, run, k);
    NextNoneBack(p, w, run[k], run[k + 1]);
  }

  lemma {:induction false} StepsNoneBack(p: Params, w: iset<Block>, run: seq<System>, k: nat, l: nat)
    requires Steps(p, w, run) && InvAlong(p, w, run) && k <= l < |run|
    ensures NoneBack(run[k].shared.pool, run[l].shared.pool)
    decreases l
  {
    if k < l {
      StepsNoneBack(p, w, run, k, l - 1);
      OneStepNoneBack(p, w, run, l - 1);
      NoneBackTwice(run[k].shared.pool, run[l - 1].shared.pool, run[l].shared.pool);
    }
  }

  /** Along a run a transaction that was seen stays seen, and once it is no longer pending it never is again. */
  lemma TransactionsOfRun(p: Params, w: iset<Block>, n: nat, run: seq<System>, k: nat, l: nat, h: H256)
    requires Hypotheses(p, w) && IsRun(p, w, n, run) && k <= l < |run| && h in run[k].shared.pool.seen
    ensures h in run[l].shared.pool.seen
    ensures h !in run[k].shared.pool.pending ==> h !in run[l].shared.pool.pending
  {
    InitialOk(p, w, n);
    StepsKeepInvAlong(p, w, run);
    StepsNoneBack(p, w, run, k, l);
  }

  // ----- what takes a pending transaction away

  /** A handler purges the transactions of a block that holds it. */
  ghost predicate PurgeTakes(p: Params, s: System, s': System, h: H256) {
    exists i: nat :: AdvanceHandler(p, s, s', i) && PurgesHash(p, s.workers[i].value, h)
  }

  predicate PurgesHash(p: Params, j: Job, h: H256) {
    match j
    case Purge(_, b) => h in TxHashes(p, b.transactions)
    case PurgeOrphan(_, parent, _, _) => h in TxHashes(p, parent.transactions)
    case _ => false
  }

  /** The miner chooses it for its block, or its selection evicts it. */
  ghost predicate SealTakes(p: Params, w: iset<Block>, s: System, s': System, h: H256) {
    exists order, nonce, timestamp ::
      MinerSeal(p, w, s, s', order, nonce, timestamp) && SelectionTakes(p, order, s.miner.state, s.shared.pool, h)
  }

  ghost predicate SelectionTakes(p: Params, order: seq<SignedTransaction>, start: Accounts, pool: Pool, h: H256) {
    var chosen := Filled(p, order, EmptyDraft(start, pool)).chosen;
    h in TxHashes(p, chosen) || exists n, ks :: Evicts(p, order, start, chosen, n, ks, h)
  }

  ghost predicate Evicts(p: Params, order: seq<SignedTransaction>, start: Accounts,
                         chosen: seq<SignedTransaction>, n: nat, ks: seq<nat>, h: H256) {
    Chosen(p, order, start, chosen, n, ks) && EvictedAmong(p, order, start, chosen, ks, n, h)
  }

  /** The clean-up after a block was sealed finds it stale. */
  ghost predicate PublishTakes(p: Params, s: System, s': System, h: H256) {
    exists order :: MinerPublish(p, s, s', order) && StaleAmong(p, order, s.miner.state, |order|, h)
  }

  ghost predicate Takes(p: Params, w: iset<Block>, s: System, s': System, h: H256) {
    PurgeTakes(p, s, s', h) || SealTakes(p, w, s, s', h) || PublishTakes(p, s, s', h)
  }

  lemma HandlerTakes(p: Params, s: System, s': System, i: nat, h: H256)
    requires AdvanceHandler(p, s, s', i) && h in s.shared.pool.pending && h !in s'.shared.pool.pending
    ensures PurgeTakes(p, s, s', h)
  {
    match s.workers[i].value
    case Purge(_, b) => RemovedAllIs(p, s.shared.pool, b.transactions);
    case PurgeOrphan(_, parent, _, _) => RemovedAllIs(p, s.shared.pool, parent.transactions);
    case _ =>
  }

  lemma SelectionTook(p: Params, order: seq<SignedTransaction>, start: Accounts, pool: Pool, h: H256)
    requires h in pool.pending
    requires var d := Filled(p, order, EmptyDraft(start, pool));
             h !in d.pool.pending || h !in RemovedAll(p, d.pool, d.chosen).pending
    ensures SelectionTakes(p, order, start, pool, h)
  {
    var d := Filled(p, order, EmptyDraft(start, pool));
    var n, ks := SelectionIs(p, order, start, pool);
    RemovedAllIs(p, d.pool, d.chosen);
    if h !in d.pool.pending {
      assert Evicts(p, order, start, d.chosen, n, ks, h);
    }
  }

  lemma MinerTakes(p: Params, w: iset<Block>, s: System, s': System, h: H256)
    requires MinerNext(p, w, s, s') && h in s.shared.pool.pending && h !in s'.shared.pool.pending
    ensures Takes(p, w, s, s', h)
  {
    if order, nonce, timestamp :| MinerSeal(p, w, s, s', order, nonce, timestamp) {
      SelectionTook(p, order, s.miner.state, s.shared.pool, h);
    } else {
      var order :| MinerPublish(p, s, s', order);
      var n := CleanedIs(p, order, s.miner.state, s.shared.pool);
      var i: nat :| i < n && StaleAt(order, s.miner.state, i) && p.txHash(order[i]) == h;
      assert StaleAmong(p, order, s.miner.state, |order|, h);
    }
  }

  /** A step takes a transaction away only as a purge, by the miner's selection, or by its clean-up. */
  lemma TakenOnlyBy(p: Params, w: iset<Block>, s: System, s': System, h: H256)
    requires SystemInv(p, w, s) && Next(p, w, s, s')
    requires h in s.shared.pool.pending && h !in s'.shared.pool.pending
    ensures Takes(p, w, s, s', h)
  {
    if i: nat :| AdvanceHandler(p, s, s', i) {
      HandlerTakes(p, s, s', i, h);
    } else if txs :| ReceiveTransactions(p, s, s', txs) {
      ReceivedIs(p, s.shared.pool, txs);
    } else if MinerNext(p, w, s, s') {
      MinerTakes(p, w, s, s', h);
    }
  }

  ghost predicate TakesAt(p: Params, w: iset<Block>, run: seq<System>, m: nat, h: H256)
    requires m + 1 < |run|
  {
    Takes(p, w, run[m], run[m + 1], h)
  }

  lemma StaysOneStep(p: Params, w: iset<Block>, run: seq<System>, m: nat, h: H256)
    requires Steps(p, w, run) && InvAlong(p, w, run) && m + 1 < |run| && !TakesAt(p, w, run, m, h)
    requires h in run[m].shared.pool.pending
    ensures h in run[m + 1].shared.pool.pending
  {
    assert SystemInv(p, w, run[m]) && StepFrom(p, w, run, m);
    if h !in run[m + 1].shared.pool.pending {
      TakenOnlyBy(p, w, run[m], run[m + 1], h);
    }
  }

  lemma {:induction false} StaysPending(p: Params, w: iset<Block>, run: seq<System>, k: nat, l: nat, h: H256)
    requires Steps(p, w, run) && InvAlong(p, w, run) && k <= l < |run| && h in run[k].shared.pool.pending
    requires forall m {:trigger TakesAt(p, w, run, m, h)} :: k <= m < l ==> !TakesAt(p, w, run, m, h)
    ensures h in run[l].shared.pool.pending
    decreases l
  {
    if k < l {
      StaysPending(p, w, run, k, l - 1, h);
      assert !TakesAt(p, w, run, l - 1, h);
      StaysOneStep(p, w, run, l - 1, h);
    }
  }

  /** Along a run a pending transaction stays as it is until a purge, the miner's selection or its clean-up takes it. */
  lemma PendingOfRun(p: Params, w: iset<Block>, n: nat, run: seq<System>, k: nat, l: nat, h: H256)
    requires Hypotheses(p, w) && IsRun(p, w, n, run) && k <= l < |run| && h in run[k].shared.pool.pending
    requires forall m {:trigger TakesAt(p, w, run, m, h)} :: k <= m < l ==> !TakesAt(p, w, run, m, h)
    ensures h in run[l].shared.pool.pending && run[l].shared.pool.pending[h] == run[k].shared.pool.pending[h]
  {
    InitialOk(p, w, n);
    StepsKeepInvAlong(p, w, run);
    StaysPending(p, w, run, k, l, h);
    StepsNoneBack(p, w, run, k, l);
    assert SystemInv(p, w, run[k]);
  }
}
