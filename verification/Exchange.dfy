// When an exchange between two nodes can be brought to its end, and when a panic of the miner prevents it.
module Exchange {
  import opened Wrappers
  import opened Hashes
  import opened Ledger
  import opened Blocks
  import opened Mempools
  import opened Acceptance
  import opened NodeInvariant
  import opened JobInvariant
  import opened NetworkWorker
  import opened Mining
  import opened Concurrency
  import opened Sync
  import opened Turns

  // ----- runs from one state to another

  ghost predicate RunBetween(p: Params, w: iset<Block>, s: System, t: System, run: seq<System>) {
    run != [] && run[0] == s && run[|run| - 1] == t && Steps(p, w, run)
  }

  ghost predicate Leads(p: Params, w: iset<Block>, s: System, t: System) {
    exists run :: RunBetween(p, w, s, t, run)
  }

  lemma LeadsNowhere(p: Params, w: iset<Block>, s: System)
    ensures Leads(p, w, s, s)
  {
    assert RunBetween(p, w, s, s, [s]);
  }

  lemma LeadsByStep(p: Params, w: iset<Block>, s: System, t: System)
    requires Next(p, w, s, t)
    ensures Leads(p, w, s, t)
  {
    assert Steps(p, w, [t]);
    Prepend(p, w, s, [t]);
    assert RunBetween(p, w, s, t, [s] + [t]);
  }

  lemma {:induction false} PrependRun(p: Params, w: iset<Block>, s: System, t: System, u: System,
                                      run: seq<System>, rest: seq<System>)
    requires RunBetween(p, w, s, t, run) && RunBetween(p, w, t, u, rest)
    ensures Leads(p, w, s, u)
    decreases |run|
  {
    if |run| == 1 {
      assert RunBetween(p, w, s, u, rest);
    } else {
      var n := |run| - 2;
      var front := run[..n + 1];
      assert StepFrom(p, w, run, n);
      forall k: nat {:trigger StepFrom(p, w, front, k)} | k + 1 < |front| ensures StepFrom(p, w, front, k) {
        assert StepFrom(p, w, run, k);
      }
      Prepend(p, w, run[n], rest);
      PrependRun(p, w, s, run[n], u, front, [run[n]] + rest);
    }
  }

  lemma LeadsOn(p: Params, w: iset<Block>, s: System, t: System, u: System)
    requires Leads(p, w, s, t) && Leads(p, w, t, u)
    ensures Leads(p, w, s, u)
  {
    var run :| RunBetween(p, w, s, t, run);
    var rest :| RunBetween(p, w, t, u, rest);
    PrependRun(p, w, s, t, u, run, rest);
  }

  lemma LeadsKeeps(p: Params, w: iset<Block>, s: System, t: System)
    requires Hypotheses(p, w) && SystemInv(p, w, s) && Leads(p, w, s, t)
    ensures StepKept(p, w, s, t)
  {
    var run :| RunBetween(p, w, s, t, run);
    RunKeeps(p, w, run);
  }

  lemma RunKeeps(p: Params, w: iset<Block>, run: seq<System>)
    requires Hypotheses(p, w) && run != [] && Steps(p, w, run) && SystemInv(p, w, run[0])
    ensures StepKept(p, w, run[0], run[|run| - 1])
  {
    StepsKeepInv(p, w, run, |run| - 1);
    StepsKeepInvAlong(p, w, run);
    GrowAlong(p, w, run, |run| - 1);
  }

  // ----- what the miner may do to the locks

  /** Some pending transaction of the state that a sealed block leads to has a sender without an account. */
  ghost predicate Stranger(pool: Pool, state: Accounts) {
    exists h :: h in pool.pending && pool.pending[h].transaction.sender !in state
  }

  /** The miner has panicked in its clean-up or is about to: it has sealed a block and some sender has no account. */
  ghost predicate Doomed(s: System) {
    s.miner.Stopped? || (s.miner.Sealed? && Stranger(s.shared.pool, s.miner.state))
  }

  lemma PublishOutcome(p: Params, s: System, s': System, order: seq<SignedTransaction>)
    requires MinerPublish(p, s, s', order) && PoolOk(p, s.shared.pool)
    ensures Stranger(s.shared.pool, s.miner.state) <==> s'.miner.Stopped?
    ensures s'.miner.Stopped? || s'.miner.Idle?
    ensures s'.miner.Stopped? ==> s'.channel == s.channel
  {
    var pool, state := s.shared.pool, s.miner.state;
    CleanedIff(p, order, state, pool);
    if Stranger(pool, state) {
      var h :| h in pool.pending && pool.pending[h].transaction.sender !in state;
      assert pool.pending[h] in order;
    }
    if tx :| tx in order && tx.transaction.sender !in state {
      assert p.txHash(tx) in pool.pending && pool.pending[p.txHash(tx)] == tx;
    }
  }

  /** A miner that is not doomed can be brought to let go of the mempool lock. */
  lemma MinerLetsGo(p: Params, w: iset<Block>, s: System) returns (t: System)
    requires SystemInv(p, w, s) && !Doomed(s)
    ensures Leads(p, w, s, t) && PoolFree(t) && t.owner == s.owner && t.workers == s.workers
  {
    if s.miner.Sealed? {
      var order := ListingExists(p, s.shared.pool);
      var (pool, ok) := Cleaned(p, order, s.miner.state, s.shared.pool);
      t := s.(shared := Published(p, s.shared, s.miner.block, s.miner.state).(pool := pool),
              miner := if ok then Idle else Stopped,
              channel := if ok then s.channel + [s.miner.block] else s.channel);
      assert MinerPublish(p, s, t, order);
      PublishOutcome(p, s, t, order);
      LeadsByStep(p, w, s, t);
    } else {
      t := s;
      LeadsNowhere(p, w, s);
    }
  }

  /** A handler that has the locks it needs can be brought to its end. */
  lemma HandlerEnds(p: Params, w: iset<Block>, s: System, i: nat) returns (last: System, t: System)
    requires Hypotheses(p, w) && SystemInv(p, w, s) && PoolFree(s) && s.owner == Some(i)
    ensures exists run :: RunBetween(p, w, s, last, run) && Handling(run, i)
    ensures Busy(last, i) && last.workers[i].value.Fetch? && last.workers[i].value.d.todo == []
    ensures Leads(p, w, s, t) && t == last.(workers := last.workers[i := None], owner := None)
    ensures PoolFree(t) && |t.workers| == |s.workers|
  {
    var j := s.workers[i].value;
    assert JobOk(p, w, s.shared, j);
    var run := HandlerAlone(p, w, s, i, j);
    last := run[|run| - 1];
    assert RunBetween(p, w, s, last, run);
    assert Leads(p, w, s, last);
    LeadsKeeps(p, w, s, last);
    assert JobOk(p, w, last.shared, last.workers[i].value);
    t := last.(workers := last.workers[i := None], owner := None);
    assert EndHandler(last, t, i);
    LeadsByStep(p, w, last, t);
    LeadsOn(p, w, s, last, t);
  }

  /** From a state that is not doomed all locks can become free. */
  lemma LocksGetFree(p: Params, w: iset<Block>, s: System) returns (t: System)
    requires Hypotheses(p, w) && SystemInv(p, w, s) && !Doomed(s)
    ensures Leads(p, w, s, t) && StepKept(p, w, s, t)
    ensures PoolFree(t) && t.owner.None? && |t.workers| == |s.workers|
  {
    t := MinerLetsGo(p, w, s);
    LeadsKeeps(p, w, s, t);
    if t.owner.Some? {
      var s1 := t;
      var last;
      last, t := HandlerEnds(p, w, s1, s1.owner.value);
      LeadsOn(p, w, s, s1, t);
      LeadsKeeps(p, w, s, t);
    }
  }

  // ----- completing an exchange

  function Answer(a': Shared, b: Shared, hashes: seq<H256>): seq<Block> {
    Held(a'.chain.blocks, Missing(b.chain.blocks, hashes))
  }

  /** The receiver has every announced block with the announcer's state, and its chain lock is free again. */
  ghost predicate Done(a: Shared, t: System, hashes: seq<H256>) {
    t.owner.None? && forall h :: h in hashes ==> SameEntry(a, t.shared, h)
  }

  function Handed(s: System, i: nat, blocks: seq<Block>): System
    requires i < |s.workers|
  {
    s.(workers := s.workers[i := Some(Opening(s.shared, blocks))], owner := Some(i))
  }

  /** What two nodes have gone through before the answer arrives: announcement, request, growth on both sides. */
  ghost predicate Asked(p: Params, w: iset<Block>, a: Shared, a': Shared, b: Shared, hashes: seq<H256>, s: System) {
    && NodeInv(p, w, a) && NodeInv(p, w, a') && Grows(a, a') && Announcement(p, a, b.chain.blocks.Keys, hashes)
    && SystemInv(p, w, s) && Grows(b, s.shared)
  }

  ghost predicate TwoRuns(p: Params, w: iset<Block>, m: nat, runA: seq<System>, n: nat, runB: seq<System>) {
    IsRun(p, w, m, runA) && IsRun(p, w, n, runB)
  }

  lemma Later(p: Params, w: iset<Block>, n: nat, run: seq<System>, k: nat, l: nat)
    requires Hypotheses(p, w) && IsRun(p, w, n, run) && k <= l < |run|
    ensures SystemInv(p, w, run[k]) && SystemInv(p, w, run[l]) && Grows(run[k].shared, run[l].shared)
  {
    RunKeepsInv(p, w, n, run, k);
    RunKeepsInv(p, w, n, run, l);
    InitialOk(p, w, n);
    StepsKeepInvAlong(p, w, run);
    StepsOnlyGrow(p, w, run, k, l);
  }

  /** Two running nodes: a announces at one moment and answers at a later one, b asks and goes on. */
  lemma RunningNodesAsk(p: Params, w: iset<Block>, m: nat, runA: seq<System>, ka: nat, ka': nat,
                        n: nat, runB: seq<System>, kb: nat, k: nat, hashes: seq<H256>)
    requires Hypotheses(p, w) && TwoRuns(p, w, m, runA, n, runB)
    requires ka <= ka' < |runA| && kb <= k < |runB|
    requires Announcement(p, runA[ka].shared, runB[kb].shared.chain.blocks.Keys, hashes)
    ensures Asked(p, w, runA[ka].shared, runA[ka'].shared, runB[kb].shared, hashes, runB[k])
  {
    Later(p, w, m, runA, ka, ka');
    Later(p, w, n, runB, kb, k);
  }

  lemma Slice(p: Params, w: iset<Block>, run: seq<System>, start: nat, end: nat)
    requires Steps(p, w, run) && start <= end < |run|
    ensures Steps(p, w, run[start..end + 1])
  {
    var part := run[start..end + 1];
    forall k: nat {:trigger StepFrom(p, w, part, k)} | k + 1 < |part| ensures StepFrom(p, w, part, k) {
      assert StepFrom(p, w, run, start + k);
    }
  }

  /** Worker i handles the given message from start to end of the run, and has then looked at every block of it. */
  ghost predicate HandlesFromTo(run: seq<System>, i: nat, start: nat, end: nat, message: seq<Block>) {
    && start <= end < |run|
    && (forall k {:trigger Busy(run[k], i)} :: start <= k <= end ==> Busy(run[k], i))
    && Busy(run[start], i) && Busy(run[end], i)
    && run[start].workers[i].value == Opening(run[start].shared, message)
    && AtHead(run[end].workers[i].value) && run[end].workers[i].value.d.todo == []
  }

  lemma HandlingSlice(p: Params, w: iset<Block>, run: seq<System>, i: nat, start: nat, end: nat, message: seq<Block>)
    returns (part: seq<System>)
    requires Steps(p, w, run) && HandlesFromTo(run, i, start, end, message)
    ensures RunBetween(p, w, run[start], run[end], part) && Handling(part, i)
  {
    part := run[start..end + 1];
    Slice(p, w, run, start, end);
    forall k: nat {:trigger Busy(part[k], i)} | k < |part| ensures Busy(part[k], i) {
      assert Busy(run[start + k], i);
    }
  }

  lemma AnswerHandledWithin(p: Params, w: iset<Block>, a: Shared, a': Shared, b: Shared, hashes: seq<H256>,
                            run: seq<System>, i: nat, start: nat, end: nat)
    requires Hypotheses(p, w) && Steps(p, w, run) && start <= end < |run|
    requires Asked(p, w, a, a', b, hashes, run[start]) && HandlesFromTo(run, i, start, end, Answer(a', b, hashes))
    ensures forall h :: h in hashes ==> SameEntry(a, run[end].shared, h)
  {
    var part := HandlingSlice(p, w, run, i, start, end, Answer(a', b, hashes));
    Synchronised(p, w, a, a', b, hashes, part, i);
  }

  /**
   Two nodes that run from the start, each in any interleaving of its threads. A announces hashes to B, B asks, A
   answers later, and a worker of B handles the answer, later again. Then B holds every announced block, with the
   state that A has for it.
   */
  lemma NodesSynchronise(p: Params, w: iset<Block>, m: nat, runA: seq<System>, ka: nat, ka': nat,
                         n: nat, runB: seq<System>, kb: nat, hashes: seq<H256>, i: nat, start: nat, end: nat)
    requires Hypotheses(p, w) && TwoRuns(p, w, m, runA, n, runB)
    requires ka <= ka' < |runA| && kb <= start <= end < |runB|
    requires Announcement(p, runA[ka].shared, runB[kb].shared.chain.blocks.Keys, hashes)
    requires HandlesFromTo(runB, i, start, end, Answer(runA[ka'].shared, runB[kb].shared, hashes))
    ensures forall h :: h in hashes ==> SameEntry(runA[ka].shared, runB[end].shared, h)
  {
    RunningNodesAsk(p, w, m, runA, ka, ka', n, runB, kb, start, hashes);
    AnswerHandledWithin(p, w, runA[ka].shared, runA[ka'].shared, runB[kb].shared, hashes, runB, i, start, end);
  }

  lemma AnswerArrives(p: Params, w: iset<Block>, a: Shared, a': Shared, b: Shared,
                      hashes: seq<H256>, s: System, i: nat)
    requires Asked(p, w, a, a', b, hashes, s) && i < |s.workers| && s.owner.None?
    ensures var s1 := Handed(s, i, Answer(a', b, hashes));
            StartHandler(p, w, s, s1, i, Answer(a', b, hashes)) && Next(p, w, s, s1) && SystemInv(p, w, s1)
  {
    var sent := Answer(a', b, hashes);
    var s1 := Handed(s, i, sent);
    ReplyIsInOrder(p, w, a, a', b, b.chain.blocks.Keys, b.chain.blocks.Keys, hashes);
    assert StartHandler(p, w, s, s1, i, sent);
    StartHandlerKeeps(p, w, s, s1, i, sent);
  }

  lemma AnswerIsHandled(p: Params, w: iset<Block>, a: Shared, a': Shared, b: Shared,
                        hashes: seq<H256>, s: System, i: nat) returns (t: System)
    requires Hypotheses(p, w) && Asked(p, w, a, a', b, hashes, s)
    requires i < |s.workers| && s.owner.None? && PoolFree(s)
    ensures Leads(p, w, Handed(s, i, Answer(a', b, hashes)), t) && Done(a, t, hashes)
  {
    var s1 := Handed(s, i, Answer(a', b, hashes));
    AnswerArrives(p, w, a, a', b, hashes, s, i);
    var last;
    last, t := HandlerEnds(p, w, s1, i);
    var run :| RunBetween(p, w, s1, last, run) && Handling(run, i);
    Synchronised(p, w, a, a', b, hashes, run, i);
  }

  /**
   Whatever the receiver has become since it asked, if its miner is not doomed the exchange can be brought to its
   end: all locks get free, worker i handles the answer, and the node then has every announced block.
   */
  lemma ExchangeCompletes(p: Params, w: iset<Block>, a: Shared, a': Shared, b: Shared,
                          hashes: seq<H256>, s: System, i: nat) returns (s1: System, t: System)
    requires Hypotheses(p, w) && Asked(p, w, a, a', b, hashes, s)
    requires i < |s.workers| && !Doomed(s)
    ensures Leads(p, w, s, s1) && i < |s1.workers|
    ensures StartHandler(p, w, s1, Handed(s1, i, Answer(a', b, hashes)), i, Answer(a', b, hashes))
    ensures Leads(p, w, Handed(s1, i, Answer(a', b, hashes)), t) && Leads(p, w, s, t)
    ensures Done(a, t, hashes)
  {
    s1 := LocksGetFree(p, w, s);
    GrowsTwice(b, s.shared, s1.shared);
    assert Asked(p, w, a, a', b, hashes, s1);
    AnswerArrives(p, w, a, a', b, hashes, s1, i);
    t := AnswerIsHandled(p, w, a, a', b, hashes, s1, i);
    var s2 := Handed(s1, i, Answer(a', b, hashes));
    LeadsByStep(p, w, s1, s2);
    LeadsOn(p, w, s, s1, s2);
    LeadsOn(p, w, s, s2, t);
  }

  // ----- what a doomed miner prevents

  /** A handler that waits for the mempool lock, and keeps the chain lock meanwhile. */
  ghost predicate Waits(s: System) {
    && s.owner.Some? && s.owner.value < |s.workers| && s.workers[s.owner.value].Some?
    && NeedsPool(s.workers[s.owner.value].value)
  }

  ghost predicate Comes(p: Params, s0: System, h: H256) {
    h in s0.shared.chain.blocks || exists c :: c in s0.channel && p.Hash(c) == h
  }

  /** Since s0 the chain took in only mined blocks that were already on their way, or a handler is stuck for ever. */
  ghost predicate Stuck(p: Params, s0: System, s: System) {
    && Doomed(s)
    && (forall c :: c in s.channel ==> c in s0.channel)
    && (Waits(s) || forall h :: h in s.shared.chain.blocks ==> Comes(p, s0, h))
  }

  lemma HandlerStuck(p: Params, w: iset<Block>, s0: System, s: System, s': System, i: nat)
    requires SystemInv(p, w, s) && Stuck(p, s0, s) && AdvanceHandler(p, s, s', i)
    ensures Stuck(p, s0, s')
  {
    var j := s.workers[i].value;
    assert !NeedsPool(j);
    if j.Store? || j.StoreOrphan? {
      assert Waits(s');
    } else {
      assert s'.shared == s.shared;
    }
  }

  lemma WorkersStuck(p: Params, w: iset<Block>, s0: System, s: System, s': System)
    requires SystemInv(p, w, s) && Stuck(p, s0, s) && WorkerNext(p, w, s, s')
    ensures Stuck(p, s0, s')
  {
    if i :| AdvanceHandler(p, s, s', i) {
      HandlerStuck(p, w, s0, s, s', i);
    }
  }

  lemma MinerStuck(p: Params, w: iset<Block>, s0: System, s: System, s': System)
    requires SystemInv(p, w, s) && Stuck(p, s0, s) && MinerNext(p, w, s, s')
    ensures Stuck(p, s0, s')
  {
    if order :| MinerPublish(p, s, s', order) {
      PublishOutcome(p, s, s', order);
    } else {
      assert DeliverMined(p, s, s');
      assert s.channel[0] in s.channel && s.channel[0] in s0.channel;
      forall h | h in s'.shared.chain.blocks && h !in s.shared.chain.blocks ensures Comes(p, s0, h) {
        assert h == p.Hash(s.channel[0]);
      }
    }
  }

  lemma StepStuck(p: Params, w: iset<Block>, s0: System, run: seq<System>, k: nat)
    requires Steps(p, w, run) && k + 1 < |run| && SystemInv(p, w, run[k]) && Stuck(p, s0, run[k])
    ensures Stuck(p, s0, run[k + 1])
  {
    var s, s' := run[k], run[k + 1];
    assert StepFrom(p, w, run, k);
    if WorkerNext(p, w, s, s') {
      WorkersStuck(p, w, s0, s, s');
    } else {
      MinerStuck(p, w, s0, s, s');
    }
  }

  lemma {:induction false} StaysStuck(p: Params, w: iset<Block>, s0: System, run: seq<System>, k: nat)
    requires Steps(p, w, run) && InvAlong(p, w, run) && k < |run| && Stuck(p, s0, run[0])
    ensures Stuck(p, s0, run[k])
    decreases k
  {
    if k > 0 {
      StaysStuck(p, w, s0, run, k - 1);
      assert SystemInv(p, w, run[k - 1]);
      StepStuck(p, w, s0, run, k - 1);
    }
  }

  /**
   Once the miner is doomed, the chain can be found with its lock free only while it holds what it held, and mined
   blocks that were already on their way.
   */
  lemma DoomedStalls(p: Params, w: iset<Block>, s: System, t: System)
    requires Hypotheses(p, w) && SystemInv(p, w, s) && Doomed(s) && Leads(p, w, s, t)
    ensures Doomed(t)
    ensures t.owner.None? ==> forall h :: h in t.shared.chain.blocks ==> Comes(p, s, h)
  {
    var run :| RunBetween(p, w, s, t, run);
    StepsKeepInvAlong(p, w, run);
    assert Stuck(p, s, s);
    StaysStuck(p, w, s, run, |run| - 1);
  }

  /**
   An exchange that has a block to bring, neither held nor mined and on its way, can be completed exactly when the
   miner is not doomed. A caller sees that from the miner's place, the mempool and the state of the sealed block.
   */
  lemma ExchangeCompletesIff(p: Params, w: iset<Block>, a: Shared, a': Shared, b: Shared,
                             hashes: seq<H256>, s: System, h: H256)
    requires Hypotheses(p, w) && Asked(p, w, a, a', b, hashes, s)
    requires s.workers != [] && h in hashes && !Comes(p, s, h)
    ensures (exists t :: Leads(p, w, s, t) && Done(a, t, hashes)) <==> !Doomed(s)
  {
    if Doomed(s) {
      forall t | Leads(p, w, s, t) ensures !Done(a, t, hashes) {
        DoomedStalls(p, w, s, t);
      }
    } else {
      var s1, t := ExchangeCompletes(p, w, a, a', b, hashes, s, 0);
    }
  }
}
