// What each step of the Blocks handler keeps, whatever the message holds and whatever else stores states
// between its steps.
module JobInvariant {
  import opened Wrappers
  import opened Ledger
  import opened Blocks
  import opened Acceptance
  import opened NodeInvariant

  /** A block of the message, new to the chain when the lock was taken, that passed the checks needing no parent. */
  ghost predicate Candidate(p: Params, w: iset<Block>, d: Desk, b: Block) {
    b in w && b in d.msg && b != p.genesis && Screened(p, b) && p.Hash(b) !in d.base
  }

  /** A block that this handler run put into the chain. */
  ghost predicate Recent(p: Params, sh: Shared, d: Desk, b: Block) {
    p.Hash(b) !in d.base && p.Hash(b) in sh.chain.blocks && sh.chain.blocks[p.Hash(b)] == b
  }

  ghost predicate DeskOk(p: Params, w: iset<Block>, sh: Shared, d: Desk) {
    && (forall b :: b in d.todo ==> b in w && b in d.msg)
    && (forall b :: b in d.orphans ==> Candidate(p, w, d, b))
    && (forall b :: b in d.stack ==> Recent(p, sh, d, b))
    && (forall h :: h in d.broadcast ==> h !in d.base && h in sh.chain.blocks)
    && (forall h :: h in d.parents ==> h !in d.base)
    && d.base <= sh.chain.blocks.Keys
    && (forall h :: h in sh.chain.blocks ==> h in d.base || sh.chain.blocks[h] in d.msg)
  }

  ghost predicate PassOk(p: Params, w: iset<Block>, sh: Shared, d: Desk,
                         parent: Block, rest: seq<Block>, keep: seq<Block>) {
    && Recent(p, sh, d, parent)
    && (forall b :: b in rest ==> Candidate(p, w, d, b))
    && (forall b :: b in keep ==> Candidate(p, w, d, b))
  }

  /** A block about to be stored: its parent is in the chain and the state in hand is its replay. */
  ghost predicate Ready(p: Params, w: iset<Block>, sh: Shared, d: Desk, b: Block, state: Accounts) {
    && Candidate(p, w, d, b) && b.Parent() in sh.chain.blocks && b.Parent() in sh.states
    && Replay(sh.states[b.Parent()], b.transactions) == Some(state)
  }

  ghost predicate JobOk(p: Params, w: iset<Block>, sh: Shared, j: Job) {
    && Shaped(j) && DeskOk(p, w, sh, j.d)
    && match j
       case Fetch(_) => true
       case Drain(_) => true
       case Store(d, b, state) => Ready(p, w, sh, d, b, state)
       case Purge(d, b) => Recent(p, sh, d, b)
       case Pass(d, parent, rest, keep) => PassOk(p, w, sh, d, parent, rest, keep)
       case StoreOrphan(d, parent, rest, keep, state) =>
         PassOk(p, w, sh, d, parent, rest, keep) && Ready(p, w, sh, d, rest[0], state)
       case PurgeOrphan(d, parent, rest, keep) => PassOk(p, w, sh, d, parent, rest, keep)
       case Crashed(_) => false
  }

  // ----- stability

  lemma DeskStable(p: Params, w: iset<Block>, sh: Shared, sh': Shared, d: Desk)
    requires DeskOk(p, w, sh, d) && MapGrows(sh.chain.blocks, sh'.chain.blocks)
    requires forall h :: h in sh'.chain.blocks ==> h in sh.chain.blocks || sh'.chain.blocks[h] in d.msg
    ensures DeskOk(p, w, sh', d)
  {
    forall b | b in d.stack ensures Recent(p, sh', d, b) {
      assert Recent(p, sh, d, b);
    }
    forall h | h in sh'.chain.blocks ensures h in d.base || sh'.chain.blocks[h] in d.msg {
      if h in sh.chain.blocks {
        assert sh'.chain.blocks[h] == sh.chain.blocks[h];
      }
    }
  }

  /** While a handler holds the blockchain lock, states and mempool may change around it. */
  lemma JobStable(p: Params, w: iset<Block>, sh: Shared, sh': Shared, j: Job)
    requires JobOk(p, w, sh, j) && sh'.chain == sh.chain && MapGrows(sh.states, sh'.states)
    ensures JobOk(p, w, sh', j)
  {
    DeskStable(p, w, sh, sh', j.d);
    match j
    case Store(d, b, state) => assert Ready(p, w, sh, d, b, state);
    case StoreOrphan(d, parent, rest, keep, state) => assert Ready(p, w, sh, d, rest[0], state);
    case _ =>
  }

  // ----- the steps

  lemma FetchedOk(p: Params, w: iset<Block>, sh: Shared, d: Desk, b: Block)
    requires NodeInv(p, w, sh) && DeskOk(p, w, sh, d) && b in w && b in d.msg
    ensures JobOk(p, w, sh, Fetched(p, sh, d, b))
  {
    if p.Hash(b) !in sh.chain.blocks && Screened(p, b) {
      assert b != p.genesis;
      assert Candidate(p, w, d, b);
      if b.Parent() in sh.chain.blocks {
        assert ChainEntryOk(p, w, sh, b.Parent());
      } else {
        var d' := d.(orphans := d.orphans + [b], parents := d.parents + [b.Parent()]);
        assert forall c :: c in d.orphans ==> Candidate(p, w, d', c);
        assert forall c :: c in d.stack ==> Recent(p, sh, d, c) && Recent(p, sh, d', c);
        assert DeskOk(p, w, sh, d');
      }
    }
  }

  lemma DrainOk(p: Params, w: iset<Block>, sh: Shared, d: Desk)
    requires DeskOk(p, w, sh, d)
    ensures JobOk(p, w, sh, JobStep(p, sh, Drain(d)).1)
  {
    if d.stack != [] {
      var top, d' := d.stack[|d.stack| - 1], d.(stack := d.stack[..|d.stack| - 1]);
      assert top in d.stack && Recent(p, sh, d, top);
      assert forall c :: c in d'.stack ==> c in d.stack && Recent(p, sh, d, c) && Recent(p, sh, d', c);
      assert forall c :: c in d.orphans ==> Candidate(p, w, d, c) && Candidate(p, w, d', c);
      assert DeskOk(p, w, sh, d');
    }
  }

  lemma PassedOk(p: Params, w: iset<Block>, sh: Shared, d: Desk,
                 parent: Block, rest: seq<Block>, keep: seq<Block>)
    requires NodeInv(p, w, sh) && DeskOk(p, w, sh, d) && PassOk(p, w, sh, d, parent, rest, keep)
    ensures JobOk(p, w, sh, Passed(p, sh, d, parent, rest, keep))
  {
    if rest == [] {
      var d' := d.(orphans := keep);
      assert forall c :: c in keep ==> Candidate(p, w, d, c) && Candidate(p, w, d', c);
      assert forall c :: c in d.stack ==> Recent(p, sh, d, c) && Recent(p, sh, d', c);
      assert DeskOk(p, w, sh, d');
    } else {
      assert rest[0] in rest && Candidate(p, w, d, rest[0]);
      assert ChainEntryOk(p, w, sh, p.Hash(parent));
    }
  }

  /** After an insertion the inserted block is the only new one in the chain. */
  lemma AcceptedDesk(p: Params, w: iset<Block>, sh: Shared, d: Desk, b: Block, state: Accounts)
    requires Hypotheses(p, w) && NodeInv(p, w, sh) && DeskOk(p, w, sh, d) && Ready(p, w, sh, d, b, state)
    ensures var sh' := Linked(p, Published(p, sh, b, state), b);
            NodeInv(p, w, sh') && Grows(sh, sh') && DeskOk(p, w, sh', d) && Recent(p, sh', d, b)
  {
    AcceptKeeps(p, w, sh, b, state);
    DeskStable(p, w, sh, Linked(p, Published(p, sh, b, state), b), d);
  }

  /** Announcing a block and putting it on the stack. */
  lemma PushedOk(p: Params, w: iset<Block>, sh: Shared, d: Desk, b: Block)
    requires DeskOk(p, w, sh, d) && Recent(p, sh, d, b)
    ensures DeskOk(p, w, sh, d.(broadcast := d.broadcast + [p.Hash(b)], stack := d.stack + [b]))
  {
    var d' := d.(broadcast := d.broadcast + [p.Hash(b)], stack := d.stack + [b]);
    assert forall c :: c in d'.stack ==> (c in d.stack || c == b) && Recent(p, sh, d, c) && Recent(p, sh, d', c);
    assert forall c :: c in d.orphans ==> Candidate(p, w, d, c) && Candidate(p, w, d', c);
  }

  /** A purge touches neither the chain nor the states. */
  lemma PurgedDesk(p: Params, w: iset<Block>, sh: Shared, d: Desk, b: Block)
    requires NodeInv(p, w, sh) && DeskOk(p, w, sh, d) && Recent(p, sh, d, b)
    ensures var sh' := Purged(p, sh, b.transactions);
            && NodeInv(p, w, sh') && Grows(sh, sh')
            && DeskOk(p, w, sh', d.(broadcast := d.broadcast + [p.Hash(b)], stack := d.stack + [b]))
  {
    var sh' := Purged(p, sh, b.transactions);
    PurgeKeeps(p, w, sh, b.transactions);
    DeskStable(p, w, sh, sh', d);
    PushedOk(p, w, sh', d, b);
  }

  lemma PassStable(p: Params, w: iset<Block>, sh: Shared, sh': Shared, d: Desk, d': Desk,
                   parent: Block, rest: seq<Block>, keep: seq<Block>)
    requires PassOk(p, w, sh, d, parent, rest, keep) && MapGrows(sh.chain.blocks, sh'.chain.blocks)
    requires d'.msg == d.msg && d'.base == d.base && rest != []
    ensures PassOk(p, w, sh', d', parent, rest, keep) && PassOk(p, w, sh', d', parent, rest[1..], keep)
  {
    forall b | b in rest ensures Candidate(p, w, d', b) {
      assert Candidate(p, w, d, b);
    }
    forall b | b in keep ensures Candidate(p, w, d', b) {
      assert Candidate(p, w, d, b);
    }
  }

  ghost predicate Kept(p: Params, w: iset<Block>, sh: Shared, j: Job, r: (Shared, Job)) {
    && NodeInv(p, w, r.0) && Grows(sh, r.0) && JobOk(p, w, r.0, r.1)
    && r.1.d.msg == j.d.msg && r.1.d.base == j.d.base
  }

  lemma FetchKeeps(p: Params, w: iset<Block>, sh: Shared, d: Desk)
    requires NodeInv(p, w, sh) && DeskOk(p, w, sh, d) && d.todo != []
    ensures Kept(p, w, sh, Fetch(d), JobStep(p, sh, Fetch(d)))
  {
    var d' := d.(todo := d.todo[1..]);
    assert d.todo[0] in d.todo;
    assert forall c :: c in d.stack ==> Recent(p, sh, d, c) && Recent(p, sh, d', c);
    assert forall c :: c in d.orphans ==> Candidate(p, w, d, c) && Candidate(p, w, d', c);
    FetchedOk(p, w, sh, d', d.todo[0]);
  }

  lemma StoreOrphanKeeps(p: Params, w: iset<Block>, sh: Shared, j: Job)
    requires Hypotheses(p, w) && NodeInv(p, w, sh) && JobOk(p, w, sh, j) && j.StoreOrphan?
    ensures Kept(p, w, sh, j, JobStep(p, sh, j))
  {
    AcceptedDesk(p, w, sh, j.d, j.rest[0], j.state);
    PassStable(p, w, sh, JobStep(p, sh, j).0, j.d, j.d, j.parent, j.rest, j.keep);
  }

  lemma PurgeOrphanKeeps(p: Params, w: iset<Block>, sh: Shared, j: Job)
    requires NodeInv(p, w, sh) && JobOk(p, w, sh, j) && j.PurgeOrphan?
    ensures Kept(p, w, sh, j, JobStep(p, sh, j))
  {
    PurgedDesk(p, w, sh, j.d, j.parent);
    var (sh', j') := JobStep(p, sh, j);
    PassStable(p, w, sh, sh', j.d, j'.d, j.parent, j.rest, j.keep);
  }

  lemma StoreKeeps(p: Params, w: iset<Block>, sh: Shared, j: Job)
    requires Hypotheses(p, w) && NodeInv(p, w, sh) && JobOk(p, w, sh, j) && j.Store?
    ensures Kept(p, w, sh, j, JobStep(p, sh, j))
  {
    AcceptedDesk(p, w, sh, j.d, j.block, j.state);
  }

  lemma PurgeStepKeeps(p: Params, w: iset<Block>, sh: Shared, j: Job)
    requires NodeInv(p, w, sh) && JobOk(p, w, sh, j) && j.Purge?
    ensures Kept(p, w, sh, j, JobStep(p, sh, j))
  {
    PurgedDesk(p, w, sh, j.d, j.block);
  }

  lemma LoopStepKeeps(p: Params, w: iset<Block>, sh: Shared, j: Job)
    requires NodeInv(p, w, sh) && JobOk(p, w, sh, j) && (j.Drain? || j.Pass?)
    ensures Kept(p, w, sh, j, JobStep(p, sh, j))
  {
    match j
    case Drain(d) => DrainOk(p, w, sh, d);
    case Pass(d, parent, rest, keep) => PassedOk(p, w, sh, d, parent, rest, keep);
  }

  /** The step of the main theorem: any step of the handler keeps the node invariant and only adds. */
  lemma JobStepKeeps(p: Params, w: iset<Block>, sh: Shared, j: Job)
    requires Hypotheses(p, w) && NodeInv(p, w, sh) && JobOk(p, w, sh, j) && Running(j)
    ensures Kept(p, w, sh, j, JobStep(p, sh, j))
  {
    match j
    case Fetch(d) => FetchKeeps(p, w, sh, d);
    case Store(_, _, _) => StoreKeeps(p, w, sh, j);
    case Purge(_, _) => PurgeStepKeeps(p, w, sh, j);
    case Drain(_) => LoopStepKeeps(p, w, sh, j);
    case Pass(_, _, _, _) => LoopStepKeeps(p, w, sh, j);
    case StoreOrphan(_, _, _, _, _) => StoreOrphanKeeps(p, w, sh, j);
    case PurgeOrphan(_, _, _, _) => PurgeOrphanKeeps(p, w, sh, j);
  }
}
