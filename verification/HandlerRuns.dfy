// Whole runs of the Blocks handler: soundness and termination for every message, and when a block gets in.
module HandlerRuns {
  import opened Wrappers
  import opened Hashes
  import opened Ledger
  import opened Blocks
  import opened BlockTree
  import opened Mempools
  import opened Acceptance
  import opened NodeInvariant
  import opened JobInvariant

  lemma SettleStep(p: Params, sh: Shared, j: Job)
    requires Shaped(j) && !AtHead(j)
    ensures var (sh', j') := JobStep(p, sh, j); Shaped(j') && Settle(p, sh, j) == Settle(p, sh', j')
  {
  }

  lemma KeptTwice(p: Params, w: iset<Block>, sh: Shared, j: Job, r: (Shared, Job), r': (Shared, Job))
    requires Kept(p, w, sh, j, r) && Kept(p, w, r.0, r.1, r')
    ensures Kept(p, w, sh, j, r')
  {
  }

  /** The order in which the loops of the handler terminate: phase, buffer size, stack size, place in the pass. */
  ghost predicate Lower(j': Job, j: Job) {
    || Phase(j') < Phase(j)
    || (Phase(j') == Phase(j) && Buffered(j') < Buffered(j))
    || (Phase(j') == Phase(j) && Buffered(j') == Buffered(j) && |j'.d.stack| < |j.d.stack|)
    || (Phase(j') == Phase(j) && Buffered(j') == Buffered(j) && |j'.d.stack| == |j.d.stack| && Rank(j') < Rank(j))
  }

  lemma StepLowers(p: Params, sh: Shared, j: Job)
    requires Shaped(j) && !AtHead(j)
    ensures Lower(JobStep(p, sh, j).1, j)
  {
  }

  lemma OneStep(p: Params, w: iset<Block>, sh: Shared, j: Job) returns (sh': Shared, j': Job)
    requires Hypotheses(p, w) && NodeInv(p, w, sh) && JobOk(p, w, sh, j) && !AtHead(j)
    ensures (sh', j') == JobStep(p, sh, j) && Kept(p, w, sh, j, (sh', j')) && Lower(j', j)
    ensures Shaped(j') && Settle(p, sh, j) == Settle(p, sh', j')
  {
    var r := JobStep(p, sh, j);
    sh', j' := r.0, r.1;
    JobStepKeeps(p, w, sh, j);
    StepLowers(p, sh, j);
    SettleStep(p, sh, j);
  }

  lemma {:induction false} SettleKeeps(p: Params, w: iset<Block>, sh: Shared, j: Job)
    requires Hypotheses(p, w) && NodeInv(p, w, sh) && JobOk(p, w, sh, j)
    ensures Kept(p, w, sh, j, Settle(p, sh, j))
    decreases Phase(j), Buffered(j), |j.d.stack|, Rank(j)
  {
    if !AtHead(j) {
      var sh', j' := OneStep(p, w, sh, j);
      SettleKeeps(p, w, sh', j');
      KeptTwice(p, w, sh, j, (sh', j'), Settle(p, sh, j));
    }
  }

  lemma FinishTurn(p: Params, sh: Shared, d: Desk)
    requires d.todo != []
    ensures var (sh', j') := JobStep(p, sh, Fetch(d));
            var (sh'', j'') := Settle(p, sh', j');
            Finish(p, sh, Fetch(d)) == Finish(p, sh'', j'')
  {
  }

  lemma TurnKeeps(p: Params, w: iset<Block>, sh: Shared, j: Job)
    requires Hypotheses(p, w) && NodeInv(p, w, sh) && JobOk(p, w, sh, j) && j.Fetch? && j.d.todo != []
    ensures var (sh1, j1) := JobStep(p, sh, j); Kept(p, w, sh, j, Settle(p, sh1, j1))
  {
    var r := JobStep(p, sh, j);
    JobStepKeeps(p, w, sh, j);
    SettleKeeps(p, w, r.0, r.1);
    KeptTwice(p, w, sh, j, r, Settle(p, r.0, r.1));
  }

  /** One turn of the loop over the message. */
  lemma OneTurn(p: Params, w: iset<Block>, sh: Shared, j: Job) returns (sh': Shared, j': Job)
    requires Hypotheses(p, w) && NodeInv(p, w, sh) && JobOk(p, w, sh, j) && j.Fetch? && j.d.todo != []
    ensures Kept(p, w, sh, j, (sh', j')) && j'.Fetch? && |j'.d.todo| < |j.d.todo|
    ensures (sh', j') == Settle(p, JobStep(p, sh, j).0, JobStep(p, sh, j).1)
    ensures Finish(p, sh, j) == Finish(p, sh', j')
  {
    var r := JobStep(p, sh, j);
    var r' := Settle(p, r.0, r.1);
    sh', j' := r'.0, r'.1;
    TurnKeeps(p, w, sh, j);
    FinishTurn(p, sh, j.d);
  }

  lemma {:induction false} FinishKeeps(p: Params, w: iset<Block>, sh: Shared, j: Job)
    requires Hypotheses(p, w) && NodeInv(p, w, sh) && JobOk(p, w, sh, j) && j.Fetch?
    ensures Kept(p, w, sh, j, Finish(p, sh, j))
    decreases |j.d.todo|
  {
    if j.d.todo != [] {
      var sh', j' := OneTurn(p, w, sh, j);
      FinishKeeps(p, w, sh', j');
      KeptTwice(p, w, sh, j, (sh', j'), Finish(p, sh', j'));
    }
  }

  // ----- induction over a run

  ghost predicate Fit(p: Params, w: iset<Block>, sh: Shared, j: Job) {
    NodeInv(p, w, sh) && JobOk(p, w, sh, j)
  }

  /** Every step of a handler keeps the property i. */
  ghost predicate StepsKeep(p: Params, w: iset<Block>, i: (Shared, Job) -> bool) {
    forall sh, j :: Fit(p, w, sh, j) && Running(j) && i(sh, j) ==> i(JobStep(p, sh, j).0, JobStep(p, sh, j).1)
  }

  lemma {:induction false} SettleInduction(p: Params, w: iset<Block>, i: (Shared, Job) -> bool, sh: Shared, j: Job)
    requires Hypotheses(p, w) && Fit(p, w, sh, j) && StepsKeep(p, w, i) && i(sh, j)
    ensures i(Settle(p, sh, j).0, Settle(p, sh, j).1)
    decreases Phase(j), Buffered(j), |j.d.stack|, Rank(j)
  {
    if !AtHead(j) {
      var sh', j' := OneStep(p, w, sh, j);
      SettleInduction(p, w, i, sh', j');
    }
  }

  /** What holds at the start and is kept by every step holds at the end of the handler. */
  lemma {:induction false} FinishInduction(p: Params, w: iset<Block>, i: (Shared, Job) -> bool, sh: Shared, j: Job)
    requires Hypotheses(p, w) && Fit(p, w, sh, j) && j.Fetch? && StepsKeep(p, w, i) && i(sh, j)
    ensures i(Finish(p, sh, j).0, Finish(p, sh, j).1)
    decreases |j.d.todo|
  {
    if j.d.todo != [] {
      var (sh1, j1) := JobStep(p, sh, j);
      var sh', j' := OneTurn(p, w, sh, j);
      JobStepKeeps(p, w, sh, j);
      SettleInduction(p, w, i, sh1, j1);
      FinishInduction(p, w, i, sh', j');
    }
  }

  lemma OpeningOk(p: Params, w: iset<Block>, sh: Shared, blocks: seq<Block>)
    requires forall b :: b in blocks ==> b in w
    ensures JobOk(p, w, sh, Opening(sh, blocks))
  {
  }

  /**
   For any list of blocks the handler ends without a failed lookup. It only adds; each added block comes from
   the message, was screened, has its parent in the chain and its replayed state stored; it announces only hashes
   that were absent before and are held after, and asks only for parents that were absent.
   */
  lemma HandlerIsSound(p: Params, w: iset<Block>, sh: Shared, blocks: seq<Block>)
    requires Hypotheses(p, w) && NodeInv(p, w, sh) && forall b :: b in blocks ==> b in w
    ensures var (sh', j') := Finish(p, sh, Opening(sh, blocks));
            && j'.Fetch? && j'.d.todo == []
            && NodeInv(p, w, sh') && Grows(sh, sh')
            && (forall h :: h in sh'.chain.blocks && h !in sh.chain.blocks ==>
                  sh'.chain.blocks[h] in blocks && Screened(p, sh'.chain.blocks[h])
                  && StateEntryOk(p, sh', sh'.chain.blocks[h]))
            && (forall h :: h in j'.d.broadcast ==> h !in sh.chain.blocks && h in sh'.chain.blocks)
            && (forall h :: h in j'.d.parents ==> h !in sh.chain.blocks)
  {
    var j := Opening(sh, blocks);
    OpeningOk(p, w, sh, blocks);
    FinishKeeps(p, w, sh, j);
    var (sh', j') := Finish(p, sh, j);
    forall h | h in sh'.chain.blocks && h !in sh.chain.blocks
      ensures sh'.chain.blocks[h] in blocks && Screened(p, sh'.chain.blocks[h])
      ensures StateEntryOk(p, sh', sh'.chain.blocks[h])
    {
      NewEntry(p, w, sh', j'.d, h);
    }
  }

  lemma NewEntry(p: Params, w: iset<Block>, sh: Shared, d: Desk, h: H256)
    requires NodeInv(p, w, sh) && DeskOk(p, w, sh, d) && h in sh.chain.blocks && h !in d.base
    requires p.GenesisHash() in d.base
    ensures sh.chain.blocks[h] in d.msg && Screened(p, sh.chain.blocks[h])
    ensures StateEntryOk(p, sh, sh.chain.blocks[h])
  {
    assert ChainEntryOk(p, w, sh, h) && Placed(p, sh.chain, h);
    assert sh.chain.blocks[h] != p.genesis;
    assert StateEntryOk(p, sh, sh.chain.blocks[h]);
  }

  // ----- the orphan loop

  ghost predicate NoChild(p: Params, s: seq<Block>, parent: Block) {
    forall o :: o in s ==> o.Parent() != p.Hash(parent)
  }

  lemma {:induction false} PassQuiet(p: Params, sh: Shared, d: Desk,
                                     parent: Block, rest: seq<Block>, keep: seq<Block>)
    requires NoChild(p, rest, parent)
    ensures Settle(p, sh, Pass(d, parent, rest, keep)) == Settle(p, sh, Drain(d.(orphans := keep + rest)))
    decreases |rest|
  {
    if rest == [] {
      SettleStep(p, sh, Pass(d, parent, rest, keep));
      assert keep + rest == keep;
    } else {
      assert rest[0] in rest;
      PassOther(p, sh, d, parent, rest, keep);
      PassQuiet(p, sh, d, parent, rest[1..], keep + [rest[0]]);
      assert keep + [rest[0]] + rest[1..] == keep + rest;
    }
  }

  /** Without children of the blocks on the stack the loop only empties the stack. */
  lemma {:induction false} DrainQuiet(p: Params, sh: Shared, d: Desk)
    requires forall b :: b in d.stack ==> NoChild(p, d.orphans, b)
    ensures Settle(p, sh, Drain(d)) == (sh, Fetch(d.(stack := [])))
    decreases |d.stack|
  {
    SettleStep(p, sh, Drain(d));
    if d.stack != [] {
      var top, d' := d.stack[|d.stack| - 1], d.(stack := d.stack[..|d.stack| - 1]);
      assert top in d.stack;
      PassQuiet(p, sh, d', top, d.orphans, []);
      assert [] + d.orphans == d.orphans && d'.(orphans := d.orphans) == d';
      DrainQuiet(p, sh, d');
    }
  }

  /** A new block with its parent in the chain, while no orphan waits. */
  lemma StoreSettles(p: Params, sh: Shared, d: Desk, b: Block, state: Accounts)
    requires d.stack == [] && d.orphans == []
    ensures var sh' := Purged(p, Linked(p, Published(p, sh, b, state), b), b.transactions);
            Settle(p, sh, Store(d, b, state)) == (sh', Fetch(d.(broadcast := d.broadcast + [p.Hash(b)])))
  {
    var sh1 := Linked(p, Published(p, sh, b, state), b);
    var sh2 := Purged(p, sh1, b.transactions);
    var d' := d.(broadcast := d.broadcast + [p.Hash(b)], stack := d.stack + [b]);
    SettleStep(p, sh, Store(d, b, state));
    SettleStep(p, sh1, Purge(d, b));
    DrainQuiet(p, sh2, d');
    assert d'.(stack := []) == d.(broadcast := d.broadcast + [p.Hash(b)]);
  }

  /** One block alone gets in exactly when it was there, or passes every check with its parent in the chain. */
  lemma SingleBlockReplays(p: Params, w: iset<Block>, sh: Shared, b: Block)
    requires Hypotheses(p, w) && NodeInv(p, w, sh) && b in w
    ensures var (sh', j') := Finish(p, sh, Opening(sh, [b]));
            p.Hash(b) in sh'.chain.blocks <==>
              || p.Hash(b) in sh.chain.blocks
              || (&& Screened(p, b) && b.Parent() in sh.chain.blocks && b.Parent() in sh.states
                  && Replay(sh.states[b.Parent()], b.transactions).Some?)
  {
    var d := Opening(sh, [b]).d;
    var d' := d.(todo := []);
    assert d.todo[1..] == [];
    FinishTurn(p, sh, d);
    if p.Hash(b) !in sh.chain.blocks && Screened(p, b) {
      if b.Parent() in sh.chain.blocks {
        assert ChainEntryOk(p, w, sh, b.Parent());
        var r := Replay(sh.states[b.Parent()], b.transactions);
        if r.Some? {
          StoreSettles(p, sh, d', b, r.value);
        }
      } else {
        DrainQuiet(p, sh, d'.(orphans := d'.orphans + [b], parents := d'.parents + [b.Parent()]));
      }
    }
  }

  // ----- a pass that finds a child

  predicate IsChild(p: Params, parent: Block, o: Block) {
    o.Parent() == p.Hash(parent)
  }

  function Announced(p: Params, d: Desk, parent: Block): Desk {
    d.(broadcast := d.broadcast + [p.Hash(parent)], stack := d.stack + [parent])
  }

  /** The three machine steps that adopt one child. */
  lemma PassChild(p: Params, sh: Shared, d: Desk, parent: Block, rest: seq<Block>, keep: seq<Block>, child: Accounts)
    requires rest != [] && IsChild(p, parent, rest[0]) && p.Hash(parent) in sh.states
    requires Replay(sh.states[p.Hash(parent)], rest[0].transactions) == Some(child)
    ensures var sh' := Purged(p, Linked(p, Published(p, sh, rest[0], child), rest[0]), parent.transactions);
            Settle(p, sh, Pass(d, parent, rest, keep)) ==
            Settle(p, sh', Pass(Announced(p, d, parent), parent, rest[1..], keep))
  {
    var sh1 := Linked(p, Published(p, sh, rest[0], child), rest[0]);
    SettleStep(p, sh, Pass(d, parent, rest, keep));
    SettleStep(p, sh, StoreOrphan(d, parent, rest, keep, child));
    SettleStep(p, sh1, PurgeOrphan(d, parent, rest, keep));
  }

  lemma PassOther(p: Params, sh: Shared, d: Desk, parent: Block, rest: seq<Block>, keep: seq<Block>)
    requires rest != [] && !IsChild(p, parent, rest[0])
    ensures Settle(p, sh, Pass(d, parent, rest, keep)) == Settle(p, sh, Pass(d, parent, rest[1..], keep + [rest[0]]))
  {
    SettleStep(p, sh, Pass(d, parent, rest, keep));
  }

  // ----- what acceptance does to the mempool

  /** A block accepted with its parent in the chain leaves none of its transactions pending. */
  lemma AcceptedBlockIsPurged(p: Params, w: iset<Block>, sh: Shared, b: Block)
    requires Hypotheses(p, w) && NodeInv(p, w, sh) && b in w && p.Hash(b) !in sh.chain.blocks
    ensures var (sh', j') := Finish(p, sh, Opening(sh, [b]));
            p.Hash(b) in sh'.chain.blocks ==>
              sh'.pool.pending == sh.pool.pending - TxHashes(p, b.transactions)
  {
    var d := Opening(sh, [b]).d;
    var d' := d.(todo := []);
    assert d.todo[1..] == [];
    FinishTurn(p, sh, d);
    SingleBlockReplays(p, w, sh, b);
    if p.Hash(b) in Finish(p, sh, Opening(sh, [b])).0.chain.blocks {
      StoreSettles(p, sh, d', b, Replay(sh.states[b.Parent()], b.transactions).value);
      RemovedAllIs(p, sh.pool, b.transactions);
    }
  }
}
