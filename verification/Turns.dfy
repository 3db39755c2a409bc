// The sequential methods and the step system agree: a handler or a miner turn that nothing interrupts is a run
// of the system.
module Turns {
  import opened Bytes
  import opened Wrappers
  import opened Hashes
  import opened Ledger
  import opened Blocks
  import opened Mempools
  import opened Acceptance
  import opened HandlerRuns
  import opened Mining
  import opened Concurrency
  import opened Sync

  lemma Prepend(p: Params, w: iset<Block>, s: System, run: seq<System>)
    requires run != [] && Steps(p, w, run) && Next(p, w, s, run[0])
    ensures Steps(p, w, [s] + run)
  {
    var run' := [s] + run;
    forall k: nat | k + 1 < |run'| ensures StepFrom(p, w, run', k) {
      if k > 0 {
        assert StepFrom(p, w, run, k - 1);
        assert run'[k] == run[k - 1] && run'[k + 1] == run[k];
      }
    }
  }

  lemma HandlingCons(p: Params, w: iset<Block>, s: System, rest: seq<System>, i: nat) returns (run: seq<System>)
    requires rest != [] && Steps(p, w, rest) && Next(p, w, s, rest[0])
    requires Busy(s, i) && Handling(rest, i)
    ensures run != [] && run[0] == s && Steps(p, w, run) && Handling(run, i) && run[|run| - 1] == rest[|rest| - 1]
  {
    run := [s] + rest;
    Prepend(p, w, s, rest);
    forall k: nat | k < |run| ensures Busy(run[k], i) {
      if k > 0 {
        assert Busy(rest[k - 1], i) && run[k] == rest[k - 1];
      }
    }
  }

  /** The end of a handler that continues from any of its places. */
  function FinishFrom(p: Params, sh: Shared, j: Job): (Shared, Job)
    requires Shaped(j)
  {
    var (sh', j') := Settle(p, sh, j);
    Finish(p, sh', j')
  }

  lemma StepTowardsFinish(p: Params, sh: Shared, j: Job)
    requires Running(j)
    ensures var (sh', j') := JobStep(p, sh, j); Shaped(j') && FinishFrom(p, sh, j) == FinishFrom(p, sh', j')
  {
    if j.Fetch? {
      FinishTurn(p, sh, j.d);
    } else {
      SettleStep(p, sh, j);
    }
  }

  lemma StaysAtEnd(p: Params, sh: Shared, j: Job)
    requires Shaped(j) && !Running(j)
    ensures FinishFrom(p, sh, j) == (sh, j)
  {
  }

  lemma AtOnce(p: Params, w: iset<Block>, s: System, i: nat) returns (run: seq<System>)
    requires Busy(s, i)
    ensures run == [s] && Steps(p, w, run) && Handling(run, i)
  {
    run := [s];
  }

  /** Nearer to the end: fewer blocks to look at, or the same ones and lower in the loops. */
  ghost predicate Nearer(j': Job, j: Job) {
    || Ahead(j') < Ahead(j)
    || (Ahead(j') == Ahead(j) && Lower(j', j))
  }

  function Ahead(j: Job): nat {
    2 * |j.d.todo| + (if AtHead(j) then 0 else 1)
  }

  lemma StepIsNearer(p: Params, sh: Shared, j: Job)
    requires Running(j)
    ensures Nearer(JobStep(p, sh, j).1, j)
  {
    if !j.Fetch? {
      StepLowers(p, sh, j);
    }
  }

  /** One step of the only running handler. */
  lemma AloneStep(p: Params, w: iset<Block>, s: System, i: nat) returns (s': System)
    requires i < |s.workers| && s.owner == Some(i) && s.workers[i].Some? && Running(s.workers[i].value)
    requires PoolFree(s)
    ensures Next(p, w, s, s') && |s'.workers| == |s.workers| && s'.workers[i].Some?
    ensures s'.owner == s.owner && s'.miner == s.miner && s'.channel == s.channel
    ensures var (j, j') := (s.workers[i].value, s'.workers[i].value);
            && Shaped(j') && Nearer(j', j)
            && FinishFrom(p, s.shared, j) == FinishFrom(p, s'.shared, j')
  {
    var j := s.workers[i].value;
    var r := JobStep(p, s.shared, j);
    StepTowardsFinish(p, s.shared, j);
    StepIsNearer(p, s.shared, j);
    s' := s.(shared := r.0, workers := s.workers[i := Some(r.1)]);
    assert AdvanceHandler(p, s, s', i);
  }

  /**
   Left alone, while the mempool lock is free, a handler reaches its end, and with the outcome that the method
   HandleBlocks computes.
   */
  lemma {:induction false} HandlerAlone(p: Params, w: iset<Block>, s: System, i: nat, j: Job) returns (run: seq<System>)
    requires i < |s.workers| && s.owner == Some(i) && s.workers[i] == Some(j) && Shaped(j)
    requires PoolFree(s)
    ensures run != [] && run[0] == s && Steps(p, w, run) && Handling(run, i)
    ensures var last := run[|run| - 1];
            && |last.workers| == |s.workers| && last.workers[i].Some? && last.owner == Some(i)
            && last.miner == s.miner && last.channel == s.channel
            && (last.shared, last.workers[i].value) == FinishFrom(p, s.shared, j)
    decreases Ahead(j), Phase(j), Buffered(j), |j.d.stack|, Rank(j)
  {
    if Running(j) {
      var s' := AloneStep(p, w, s, i);
      var rest := HandlerAlone(p, w, s', i, s'.workers[i].value);
      run := HandlingCons(p, w, s, rest, i);
    } else {
      StaysAtEnd(p, s.shared, j);
      run := AtOnce(p, w, s, i);
    }
  }

  /** One uninterrupted turn of the miner, as the method MineOnce describes it, is a run of at most four steps. */
  lemma MinerTurnAlone(p: Params, w: iset<Block>, s: System, sh': Shared, nonce: u32, timestamp: nat,
                       outcome: Outcome, order: seq<SignedTransaction>, order': seq<SignedTransaction>)
    returns (run: seq<System>)
    requires s.miner.Idle? && s.owner.None?
    requires MineResult(p, s.shared, sh', nonce, timestamp, outcome, order, order')
    requires s.shared.chain.tip in s.shared.states ==> Assembled(p, s.shared, order, nonce, timestamp) in w
    ensures run != [] && run[0] == s && Steps(p, w, run)
    ensures var last := run[|run| - 1];
            && last.shared == sh'
            && last.miner == (if outcome == Panicked then Stopped else Idle)
            && last.channel == if outcome == Sent
                 then s.channel + [Assembled(p, s.shared, order, nonce, timestamp)] else s.channel
  {
    var tip := s.shared.chain.tip;
    var s1 := s.(miner := Chose(tip));
    assert MinerChoose(s, s1);
    if tip !in s.shared.states {
      assert MinerLoad(s1, s);
      run := [s];
      assert Steps(p, w, run);
      return;
    }
    var s2 := s.(miner := Loaded(tip, s.shared.states[tip]));
    assert MinerLoad(s1, s2);
    var tail := SealAlone(p, w, s2, sh', nonce, timestamp, outcome, order, order', s);
    run := PrependTwo(p, w, s, s1, tail);
  }

  lemma PrependTwo(p: Params, w: iset<Block>, s: System, s1: System, tail: seq<System>) returns (run: seq<System>)
    requires tail != [] && Steps(p, w, tail) && Next(p, w, s, s1) && Next(p, w, s1, tail[0])
    ensures run != [] && run[0] == s && Steps(p, w, run) && run[|run| - 1] == tail[|tail| - 1]
  {
    Prepend(p, w, s1, tail);
    Prepend(p, w, s, [s1] + tail);
    run := [s] + ([s1] + tail);
  }

  lemma SealAlone(p: Params, w: iset<Block>, s: System, sh': Shared, nonce: u32, timestamp: nat,
                  outcome: Outcome, order: seq<SignedTransaction>, order': seq<SignedTransaction>, s0: System)
    returns (run: seq<System>)
    requires s0.shared.chain.tip in s0.shared.states
    requires s == s0.(miner := Loaded(s0.shared.chain.tip, s0.shared.states[s0.shared.chain.tip]))
    requires MineResult(p, s0.shared, sh', nonce, timestamp, outcome, order, order')
    requires Assembled(p, s0.shared, order, nonce, timestamp) in w
    ensures run != [] && run[0] == s && Steps(p, w, run)
    ensures var last := run[|run| - 1];
            && last.shared == sh'
            && last.miner == (if outcome == Panicked then Stopped else Idle)
            && last.channel == if outcome == Sent
                 then s0.channel + [Assembled(p, s0.shared, order, nonce, timestamp)] else s0.channel
  {
    var d, b := DraftFor(p, s0.shared, order), Assembled(p, s0.shared, order, nonce, timestamp);
    if !AtMost(p.Hash(b), p.difficulty) {
      var s1 := s.(shared := s.shared.(pool := d.pool), miner := Idle);
      assert MinerSeal(p, w, s, s1, order, nonce, timestamp);
      assert Steps(p, w, [s1]);
      Prepend(p, w, s, [s1]);
      run := [s] + [s1];
    } else {
      var pool := RemovedAll(p, d.pool, d.chosen);
      var s1 := s.(shared := s.shared.(pool := pool), miner := Sealed(b, d.state));
      assert MinerSeal(p, w, s, s1, order, nonce, timestamp);
      var r := Cleaned(p, order', d.state, pool);
      var s2 := s1.(shared := Published(p, s1.shared, b, d.state).(pool := r.0),
                    miner := if r.1 then Idle else Stopped,
                    channel := if r.1 then s1.channel + [b] else s1.channel);
      assert MinerPublish(p, s1, s2, order');
      assert Steps(p, w, [s2]);
      Prepend(p, w, s1, [s2]);
      Prepend(p, w, s, [s1] + [s2]);
      run := [s] + ([s1] + [s2]);
    }
  }
}
