// All threads of one node as a step system: any number of network workers, the miner and the miner-worker, each
// step a stretch of code between two lock acquisitions of the source.
module Concurrency {
  import opened Bytes
  import opened Wrappers
  import opened Hashes
  import opened Ledger
  import opened Blocks
  import opened BlockTree
  import opened Mempools
  import opened Acceptance
  import opened NodeInvariant
  import opened JobInvariant
  import opened HandlerRuns
  import opened Mining

  /**
   The miner between its lock acquisitions: it has read the tip, then the state of that block, then holds the
   mempool lock with a block that meets the difficulty. When the clean-up panics it stops for good, and the locks of
   the mempool and the block states, which it then holds, are poisoned.
   */
  datatype MinerPc =
    | Idle
    | Chose(parent: H256)
    | Loaded(parent: H256, state: Accounts)
    | Sealed(block: Block, state: Accounts)
    | Stopped

  /** A worker without a job waits for a message; the owner holds the blockchain lock while it handles Blocks. */
  datatype System = System(shared: Shared, workers: seq<Option<Job>>, owner: Option<nat>,
                           miner: MinerPc, channel: seq<Block>)

  function Initial(p: Params, n: nat): System {
    System(Start(p), seq(n, _ => None), None, Idle, [])
  }

  /**
   The mempool lock can be taken unless a sealed block keeps it or it is poisoned. A thread that asks for a poisoned
   lock panics and does nothing more, and when it held the blockchain lock poisons that too: it keeps its place here
   for ever, and the locks it holds.
   */
  predicate PoolFree(s: System) {
    !s.miner.Sealed? && !s.miner.Stopped?
  }

  predicate StatesFree(s: System) {
    !s.miner.Stopped?
  }

  // ----- the steps

  ghost predicate StartHandler(p: Params, w: iset<Block>, s: System, s': System, i: nat, blocks: seq<Block>) {
    && i < |s.workers| && s.workers[i].None? && s.owner.None?
    && (forall b :: b in blocks ==> b in w)
    && s' == s.(workers := s.workers[i := Some(Opening(s.shared, blocks))], owner := Some(i))
  }

  /** One step of a running handler, once the lock it needs for it is free. */
  ghost predicate AdvanceHandler(p: Params, s: System, s': System, i: nat) {
    && i < |s.workers| && s.owner == Some(i) && s.workers[i].Some? && Running(s.workers[i].value)
    && (NeedsPool(s.workers[i].value) ==> PoolFree(s))
    && (NeedsStates(p, s.shared, s.workers[i].value) ==> StatesFree(s))
    && var (sh', j') := JobStep(p, s.shared, s.workers[i].value);
       s' == s.(shared := sh', workers := s.workers[i := Some(j')])
  }

  ghost predicate EndHandler(s: System, s': System, i: nat) {
    && i < |s.workers| && s.owner == Some(i) && s.workers[i].Some?
    && s.workers[i].value.Fetch? && s.workers[i].value.d.todo == []
    && s' == s.(workers := s.workers[i := None], owner := None)
  }

  /** A Transactions message, or the generator adding one transaction that it signed. */
  ghost predicate ReceiveTransactions(p: Params, s: System, s': System, txs: seq<SignedTransaction>) {
    && PoolFree(s)
    && s' == s.(shared := s.shared.(pool := Received(p, s.shared.pool, txs)))
  }

  ghost predicate MinerChoose(s: System, s': System) {
    s.miner.Idle? && s.owner.None? && s' == s.(miner := Chose(s.shared.chain.tip))
  }

  ghost predicate MinerLoad(s: System, s': System) {
    && s.miner.Chose?
    && s' == s.(miner := if s.miner.parent in s.shared.states
                         then Loaded(s.miner.parent, s.shared.states[s.miner.parent]) else Idle)
  }

  ghost predicate MinerSeal(p: Params, w: iset<Block>, s: System, s': System,
                            order: seq<SignedTransaction>, nonce: u32, timestamp: nat) {
    && s.miner.Loaded? && Enumerates(p, s.shared.pool, order)
    && var d := Filled(p, order, EmptyDraft(s.miner.state, s.shared.pool));
       var b := Mined(p, s.miner.parent, d.chosen, nonce, timestamp);
       if AtMost(p.Hash(b), p.difficulty) then
         b in w && s' == s.(shared := s.shared.(pool := RemovedAll(p, d.pool, d.chosen)), miner := Sealed(b, d.state))
       else s' == s.(shared := s.shared.(pool := d.pool), miner := Idle)
  }

  ghost predicate MinerPublish(p: Params, s: System, s': System, order: seq<SignedTransaction>) {
    && s.miner.Sealed? && Enumerates(p, s.shared.pool, order)
    && var (pool, ok) := Cleaned(p, order, s.miner.state, s.shared.pool);
       s' == s.(shared := Published(p, s.shared, s.miner.block, s.miner.state).(pool := pool),
                miner := if ok then Idle else Stopped,
                channel := if ok then s.channel + [s.miner.block] else s.channel)
  }

  /** The miner-worker takes one finished block, under the blockchain lock. */
  ghost predicate DeliverMined(p: Params, s: System, s': System) {
    && s.channel != [] && s.owner.None?
    && s' == s.(shared := s.shared.(chain := Delivered(p, s.shared.chain, s.channel[0])), channel := s.channel[1..])
  }

  ghost predicate WorkerNext(p: Params, w: iset<Block>, s: System, s': System) {
    || (exists i, blocks :: StartHandler(p, w, s, s', i, blocks))
    || (exists i :: AdvanceHandler(p, s, s', i))
    || (exists i :: EndHandler(s, s', i))
    || (exists txs :: ReceiveTransactions(p, s, s', txs))
  }

  ghost predicate MinerNext(p: Params, w: iset<Block>, s: System, s': System) {
    || MinerChoose(s, s')
    || MinerLoad(s, s')
    || (exists order, nonce, timestamp :: MinerSeal(p, w, s, s', order, nonce, timestamp))
    || (exists order :: MinerPublish(p, s, s', order))
    || DeliverMined(p, s, s')
  }

  ghost predicate Next(p: Params, w: iset<Block>, s: System, s': System) {
    WorkerNext(p, w, s, s') || MinerNext(p, w, s, s')
  }

  // ----- the invariant

  /** A mined block on its way: valid on its parent, which is in the chain. */
  ghost predicate Pending(p: Params, w: iset<Block>, sh: Shared, b: Block) {
    b in w && Extends(p, sh.chain, b) && Screened(p, b) && b.Parent() in sh.states
  }

  ghost predicate MinerOk(p: Params, w: iset<Block>, sh: Shared, m: MinerPc) {
    match m
    case Idle => true
    case Stopped => true
    case Chose(parent) => parent in sh.chain.blocks
    case Loaded(parent, state) =>
      parent in sh.chain.blocks && parent in sh.states && sh.states[parent] == state
    case Sealed(b, state) =>
      Pending(p, w, sh, b) && Replay(sh.states[b.Parent()], b.transactions) == Some(state)
  }

  ghost predicate ChannelOk(p: Params, w: iset<Block>, sh: Shared, channel: seq<Block>) {
    forall b :: b in channel ==> Pending(p, w, sh, b) && p.Hash(b) in sh.states
  }

  ghost predicate WorkersOk(p: Params, w: iset<Block>, s: System) {
    && (forall i :: 0 <= i < |s.workers| && s.workers[i].Some? ==>
          s.owner == Some(i) && JobOk(p, w, s.shared, s.workers[i].value))
    && (s.owner.Some? ==> s.owner.value < |s.workers| && s.workers[s.owner.value].Some?)
  }

  ghost predicate SystemInv(p: Params, w: iset<Block>, s: System) {
    && NodeInv(p, w, s.shared) && WorkersOk(p, w, s)
    && MinerOk(p, w, s.shared, s.miner) && ChannelOk(p, w, s.shared, s.channel)
  }

  lemma InitialOk(p: Params, w: iset<Block>, n: nat)
    requires Hypotheses(p, w)
    ensures SystemInv(p, w, Initial(p, n))
  {
    StartOk(p, w);
  }

  /** What the miner and the channel hold stays right while blocks and states are only added. */
  lemma MinerStable(p: Params, w: iset<Block>, sh: Shared, sh': Shared, m: MinerPc, channel: seq<Block>)
    requires MinerOk(p, w, sh, m) && ChannelOk(p, w, sh, channel) && Grows(sh, sh')
    ensures MinerOk(p, w, sh', m) && ChannelOk(p, w, sh', channel)
  {
    forall b | b in channel ensures Pending(p, w, sh', b) && p.Hash(b) in sh'.states {
      assert Pending(p, w, sh, b);
    }
  }

  /** A running handler is not disturbed by steps that leave the chain alone. */
  lemma WorkersStable(p: Params, w: iset<Block>, s: System, s': System)
    requires WorkersOk(p, w, s) && s'.workers == s.workers && s'.owner == s.owner
    requires s.owner.None? || s'.shared.chain == s.shared.chain
    requires Grows(s.shared, s'.shared)
    ensures WorkersOk(p, w, s')
  {
    forall i | 0 <= i < |s.workers| && s.workers[i].Some?
      ensures s'.owner == Some(i) && JobOk(p, w, s'.shared, s.workers[i].value)
    {
      JobStable(p, w, s.shared, s'.shared, s.workers[i].value);
    }
  }

  /** What a step must keep: the invariant, and everything in the chain and the state map. */
  ghost predicate StepKept(p: Params, w: iset<Block>, s: System, s': System) {
    SystemInv(p, w, s') && Grows(s.shared, s'.shared)
  }

  lemma StartHandlerKeeps(p: Params, w: iset<Block>, s: System, s': System, i: nat, blocks: seq<Block>)
    requires SystemInv(p, w, s) && StartHandler(p, w, s, s', i, blocks)
    ensures StepKept(p, w, s, s')
  {
    OpeningOk(p, w, s.shared, blocks);
  }

  lemma AdvanceHandlerKeeps(p: Params, w: iset<Block>, s: System, s': System, i: nat)
    requires Hypotheses(p, w) && SystemInv(p, w, s) && AdvanceHandler(p, s, s', i)
    ensures StepKept(p, w, s, s')
  {
    JobStepKeeps(p, w, s.shared, s.workers[i].value);
    MinerStable(p, w, s.shared, s'.shared, s.miner, s.channel);
  }

  lemma EndHandlerKeeps(p: Params, w: iset<Block>, s: System, s': System, i: nat)
    requires SystemInv(p, w, s) && EndHandler(s, s', i)
    ensures StepKept(p, w, s, s')
  {
  }

  lemma PoolStepKeeps(p: Params, w: iset<Block>, s: System, s': System, pool: Pool)
    requires SystemInv(p, w, s) && PoolOk(p, pool)
    requires s'.shared == s.shared.(pool := pool) && s'.workers == s.workers && s'.owner == s.owner
    requires s'.channel == s.channel && (MinerOk(p, w, s.shared, s.miner) ==> MinerOk(p, w, s.shared, s'.miner))
    ensures StepKept(p, w, s, s')
  {
    PoolChangeKeeps(p, w, s.shared, pool);
    WorkersStable(p, w, s, s');
    MinerStable(p, w, s.shared, s'.shared, s'.miner, s.channel);
  }

  lemma MinerReadsKeep(p: Params, w: iset<Block>, s: System, s': System)
    requires SystemInv(p, w, s) && (MinerChoose(s, s') || MinerLoad(s, s'))
    ensures StepKept(p, w, s, s')
  {
    assert s.shared == s.shared.(pool := s.shared.pool);
    PoolStepKeeps(p, w, s, s', s.shared.pool);
  }

  /** Sealing: a stale snapshot is still the state of its block, so the assembled block is valid on its parent. */
  lemma MinerSealKeeps(p: Params, w: iset<Block>, s: System, s': System,
                       order: seq<SignedTransaction>, nonce: u32, timestamp: nat)
    requires SystemInv(p, w, s) && MinerSeal(p, w, s, s', order, nonce, timestamp)
    ensures StepKept(p, w, s, s')
  {
    var d := Filled(p, order, EmptyDraft(s.miner.state, s.shared.pool));
    MinerBlockIsValid(p, w, s.shared, s.miner.parent, order, nonce, timestamp);
    RemovedAllKeeps(p, d.pool, d.chosen);
    PoolStepKeeps(p, w, s, s', s'.shared.pool);
  }

  lemma MinerPublishKeeps(p: Params, w: iset<Block>, s: System, s': System, order: seq<SignedTransaction>)
    requires Hypotheses(p, w) && SystemInv(p, w, s) && MinerPublish(p, s, s', order)
    ensures StepKept(p, w, s, s')
  {
    var b, state := s.miner.block, s.miner.state;
    var sh1 := Published(p, s.shared, b, state);
    PublishKeeps(p, w, s.shared, b, state);
    CleanedIff(p, order, state, s.shared.pool);
    PoolChangeKeeps(p, w, sh1, s'.shared.pool);
    WorkersStable(p, w, s, s');
    MinerStable(p, w, s.shared, s'.shared, s.miner, s.channel);
    assert Pending(p, w, s'.shared, b) && p.Hash(b) in s'.shared.states;
  }

  /** A delivered block that goes in becomes the tip, one above the old tip. */
  lemma DeliverKeeps(p: Params, w: iset<Block>, s: System, s': System)
    requires Hypotheses(p, w) && SystemInv(p, w, s) && DeliverMined(p, s, s')
    ensures StepKept(p, w, s, s')
    ensures s'.shared.chain != s.shared.chain ==>
              && s'.shared.chain.tip == p.Hash(s.channel[0])
              && TipHeight(s'.shared.chain) == TipHeight(s.shared.chain) + 1
  {
    assert s.channel[0] in s.channel && Pending(p, w, s.shared, s.channel[0]);
    DeliveryExtendsLongestChain(p, w, s.shared, s.channel[0]);
    WorkersStable(p, w, s, s');
    MinerStable(p, w, s.shared, s'.shared, s.miner, s.channel);
  }

  lemma WorkerNextKeeps(p: Params, w: iset<Block>, s: System, s': System)
    requires Hypotheses(p, w) && SystemInv(p, w, s) && WorkerNext(p, w, s, s')
    ensures StepKept(p, w, s, s')
  {
    if i, blocks :| StartHandler(p, w, s, s', i, blocks) {
      StartHandlerKeeps(p, w, s, s', i, blocks);
    } else if i :| AdvanceHandler(p, s, s', i) {
      AdvanceHandlerKeeps(p, w, s, s', i);
    } else if i :| EndHandler(s, s', i) {
      EndHandlerKeeps(p, w, s, s', i);
    } else {
      var txs :| ReceiveTransactions(p, s, s', txs);
      ReceivedKeeps(p, s.shared.pool, txs);
      PoolStepKeeps(p, w, s, s', Received(p, s.shared.pool, txs));
    }
  }

  lemma MinerNextKeeps(p: Params, w: iset<Block>, s: System, s': System)
    requires Hypotheses(p, w) && SystemInv(p, w, s) && MinerNext(p, w, s, s')
    ensures StepKept(p, w, s, s')
  {
    if MinerChoose(s, s') || MinerLoad(s, s') {
      MinerReadsKeep(p, w, s, s');
    } else if order, nonce, timestamp :| MinerSeal(p, w, s, s', order, nonce, timestamp) {
      MinerSealKeeps(p, w, s, s', order, nonce, timestamp);
    } else if order :| MinerPublish(p, s, s', order) {
      MinerPublishKeeps(p, w, s, s', order);
    } else {
      DeliverKeeps(p, w, s, s');
    }
  }

  lemma NextKeeps(p: Params, w: iset<Block>, s: System, s': System)
    requires Hypotheses(p, w) && SystemInv(p, w, s) && Next(p, w, s, s')
    ensures StepKept(p, w, s, s')
  {
    if WorkerNext(p, w, s, s') {
      WorkerNextKeeps(p, w, s, s');
    } else {
      MinerNextKeeps(p, w, s, s');
    }
  }

  // ----- whole runs

  ghost predicate StepFrom(p: Params, w: iset<Block>, run: seq<System>, k: nat)
    requires k + 1 < |run|
  {
    Next(p, w, run[k], run[k + 1])
  }

  ghost predicate Steps(p: Params, w: iset<Block>, run: seq<System>) {
    forall k: nat {:trigger StepFrom(p, w, run, k)} :: k + 1 < |run| ==> StepFrom(p, w, run, k)
  }

  ghost predicate IsRun(p: Params, w: iset<Block>, n: nat, run: seq<System>) {
    run != [] && run[0] == Initial(p, n) && Steps(p, w, run)
  }

  lemma StepAt(p: Params, w: iset<Block>, run: seq<System>, k: nat)
    requires Hypotheses(p, w) && Steps(p, w, run) && k + 1 < |run| && SystemInv(p, w, run[k])
    ensures StepKept(p, w, run[k], run[k + 1])
  {
    assert StepFrom(p, w, run, k);
    NextKeeps(p, w, run[k], run[k + 1]);
  }

  /** The invariant holds in every state of the run. */
  ghost predicate InvAlong(p: Params, w: iset<Block>, run: seq<System>) {
    forall k: nat {:trigger SystemInv(p, w, run[k])} :: k < |run| ==> SystemInv(p, w, run[k])
  }

  lemma {:induction false} StepsKeepInv(p: Params, w: iset<Block>, run: seq<System>, k: nat)
    requires Hypotheses(p, w) && Steps(p, w, run) && k < |run| && SystemInv(p, w, run[0])
    ensures SystemInv(p, w, run[k])
    decreases k
  {
    if k > 0 {
      StepsKeepInv(p, w, run, k - 1);
      StepAt(p, w, run, k - 1);
    }
  }

  /** A run that starts in the invariant stays in it. */
  lemma StepsKeepInvAlong(p: Params, w: iset<Block>, run: seq<System>)
    requires Hypotheses(p, w) && Steps(p, w, run) && run != [] && SystemInv(p, w, run[0])
    ensures InvAlong(p, w, run)
  {
    forall k: nat | k < |run| ensures SystemInv(p, w, run[k]) {
      StepsKeepInv(p, w, run, k);
    }
  }

  lemma RunKeepsInv(p: Params, w: iset<Block>, n: nat, run: seq<System>, k: nat)
    requires Hypotheses(p, w) && IsRun(p, w, n, run) && k < |run|
    ensures SystemInv(p, w, run[k])
  {
    InitialOk(p, w, n);
    StepsKeepInv(p, w, run, k);
  }

  /**
   In every reachable state of every interleaving, each block of the chain has its state stored, that state is the
   replay of its whole branch from the initial offering and holds all the coins, and no handler has crashed on a
   missing state.
   */
  lemma LedgerRefinement(p: Params, w: iset<Block>, n: nat, run: seq<System>, k: nat)
    requires Hypotheses(p, w) && IsRun(p, w, n, run) && k < |run|
    ensures var sh := run[k].shared;
            WellFormed(p, sh.chain) &&
            forall h :: h in sh.chain.blocks ==>
              && h in sh.states
              && Replay(InitialOffering(p.founder), BranchTxs(p, sh.chain, h)) == Some(sh.states[h])
              && Total(sh.states[h]) == OFFERING
    ensures forall i :: 0 <= i < |run[k].workers| && run[k].workers[i].Some? ==> !run[k].workers[i].value.Crashed?
  {
    RunKeepsInv(p, w, n, run, k);
    var sh := run[k].shared;
    forall h | h in sh.chain.blocks
      ensures h in sh.states && Total(sh.states[h]) == OFFERING
      ensures Replay(InitialOffering(p.founder), BranchTxs(p, sh.chain, h)) == Some(sh.states[h])
    {
      StateIsBranchReplay(p, w, sh, h);
      StateConserves(p, w, sh, h);
    }
  }

  lemma GrowsTwice(a: Shared, b: Shared, c: Shared)
    requires Grows(a, b) && Grows(b, c)
    ensures Grows(a, c)
  {
  }

  lemma GrowsAt(p: Params, w: iset<Block>, run: seq<System>, k: nat)
    requires Hypotheses(p, w) && Steps(p, w, run) && k + 1 < |run| && InvAlong(p, w, run)
    ensures Grows(run[k].shared, run[k + 1].shared)
  {
    assert SystemInv(p, w, run[k]);
    StepAt(p, w, run, k);
  }

  /** Along a run stored blocks and states never change or vanish, and the tip's height never falls. */
  lemma {:induction false} StepsOnlyGrow(p: Params, w: iset<Block>, run: seq<System>, k: nat, l: nat)
    requires Hypotheses(p, w) && Steps(p, w, run) && k <= l < |run| && InvAlong(p, w, run)
    ensures Grows(run[k].shared, run[l].shared)
    decreases l
  {
    if k < l {
      StepsOnlyGrow(p, w, run, k, l - 1);
      GrowsAt(p, w, run, l - 1);
      GrowsTwice(run[k].shared, run[l - 1].shared, run[l].shared);
    }
  }
}
