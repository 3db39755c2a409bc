// The Blocks message of src/network/worker.rs:139-255 as a machine: one step per stretch of code between two
// uses of the block-state or mempool lock. The blockchain lock is held from the first step to the last.
module Acceptance {
  import opened Hashes
  import opened Ledger
  import opened Blocks
  import opened BlockTree
  import opened Mempools

  /** The three structures behind locks: block tree, state per block, mempool. */
  datatype Shared = Shared(chain: Tree, states: map<H256, Accounts>, pool: Pool)

  /**
   The local variables of the handler: blocks of the message not yet looked at, hashes to announce, parents to
   ask for, the stack process_blocks and the orphan buffer. The fields msg and base only record the message and
   the hashes in the chain when the lock was taken.
   */
  datatype Desk = Desk(msg: seq<Block>, base: set<H256>, todo: seq<Block>,
                       broadcast: seq<H256>, parents: seq<H256>, stack: seq<Block>, orphans: seq<Block>)

  datatype Job =
    | Fetch(d: Desk)                                     // head of the loop over the message
    | Store(d: Desk, block: Block, state: Accounts)      // replayed on its parent: about to store and insert
    | Purge(d: Desk, block: Block)                       // inserted: about to purge the mempool
    | Drain(d: Desk)                                     // head of the loop over the stack
    | Pass(d: Desk, parent: Block, rest: seq<Block>, keep: seq<Block>)   // in the loop over the orphans
    | StoreOrphan(d: Desk, parent: Block, rest: seq<Block>, keep: seq<Block>, state: Accounts)
    | PurgeOrphan(d: Desk, parent: Block, rest: seq<Block>, keep: seq<Block>)
    | Crashed(d: Desk)                                   // a state lookup failed and the thread panicked

  predicate AllVerified(p: Params, txs: seq<SignedTransaction>) {
    forall i :: 0 <= i < |txs| ==> p.Verified(txs[i])
  }

  /** Proof of work and signatures, the checks that need no parent. */
  predicate Screened(p: Params, b: Block) {
    AtMost(p.Hash(b), p.difficulty) && AllVerified(p, b.transactions)
  }

  function Published(p: Params, sh: Shared, b: Block, state: Accounts): Shared {
    sh.(states := sh.states[p.Hash(b) := state])
  }

  function Linked(p: Params, sh: Shared, b: Block): Shared {
    sh.(chain := Inserted(p, sh.chain, b))
  }

  function Purged(p: Params, sh: Shared, txs: seq<SignedTransaction>): Shared {
    sh.(pool := RemovedAll(p, sh.pool, txs))
  }

  function Opening(sh: Shared, blocks: seq<Block>): Job {
    Fetch(Desk(blocks, sh.chain.blocks.Keys, blocks, [], [], [], []))
  }

  /** Looking at the next block of the message. */
  function Fetched(p: Params, sh: Shared, d: Desk, b: Block): Job {
    if p.Hash(b) in sh.chain.blocks then Fetch(d)
    else if !Screened(p, b) then Fetch(d)
    else if b.Parent() in sh.chain.blocks then
      if b.Parent() !in sh.states then Crashed(d)
      else match Replay(sh.states[b.Parent()], b.transactions)
        case None => Fetch(d)
        case Some(state) => Store(d, b, state)
    else Drain(d.(orphans := d.orphans + [b], parents := d.parents + [b.Parent()]))
  }

  /** Looking at the next orphan; a child that does not replay ends work on the current block of the message. */
  function Passed(p: Params, sh: Shared, d: Desk, parent: Block, rest: seq<Block>, keep: seq<Block>): Job {
    if rest == [] then Drain(d.(orphans := keep))
    else if rest[0].Parent() != p.Hash(parent) then Pass(d, parent, rest[1..], keep + [rest[0]])
    else if p.Hash(parent) !in sh.states then Crashed(d)
    else match Replay(sh.states[p.Hash(parent)], rest[0].transactions)
      case None => Fetch(d)
      case Some(state) => StoreOrphan(d, parent, rest, keep, state)
  }

  predicate Shaped(j: Job) {
    match j
    case StoreOrphan(_, _, rest, _, _) => rest != []
    case PurgeOrphan(_, _, rest, _) => rest != []
    case _ => true
  }

  predicate Running(j: Job) {
    Shaped(j) && !j.Crashed? && (j.Fetch? ==> j.d.todo != [])
  }

  function JobStep(p: Params, sh: Shared, j: Job): (r: (Shared, Job))
    requires Running(j)
  {
    match j
    case Fetch(d) => (sh, Fetched(p, sh, d.(todo := d.todo[1..]), d.todo[0]))
    case Store(d, b, state) => (Linked(p, Published(p, sh, b, state), b), Purge(d, b))
    case Purge(d, b) =>
      (Purged(p, sh, b.transactions), Drain(d.(broadcast := d.broadcast + [p.Hash(b)], stack := d.stack + [b])))
    case Drain(d) =>
      if d.stack == [] then (sh, Fetch(d))
      else
        var top := d.stack[|d.stack| - 1];
        (sh, Pass(d.(stack := d.stack[..|d.stack| - 1]), top, d.orphans, []))
    case Pass(d, parent, rest, keep) => (sh, Passed(p, sh, d, parent, rest, keep))
    case StoreOrphan(d, parent, rest, keep, state) =>
      (Linked(p, Published(p, sh, rest[0], state), rest[0]), PurgeOrphan(d, parent, rest, keep))
    case PurgeOrphan(d, parent, rest, keep) =>
      (Purged(p, sh, parent.transactions),
       Pass(d.(broadcast := d.broadcast + [p.Hash(parent)], stack := d.stack + [parent]), parent, rest[1..], keep))
  }

  /** Whether the next step takes the lock of the block states: a parent's state is looked up, or a state stored. */
  predicate NeedsStates(p: Params, sh: Shared, j: Job) {
    match j
    case Fetch(d) =>
      d.todo != [] && p.Hash(d.todo[0]) !in sh.chain.blocks && Screened(p, d.todo[0])
      && d.todo[0].Parent() in sh.chain.blocks
    case Store(_, _, _) => true
    case Pass(_, parent, rest, _) => rest != [] && rest[0].Parent() == p.Hash(parent)
    case StoreOrphan(_, _, _, _, _) => true
    case _ => false
  }

  /** Whether the next step takes the mempool lock. */
  predicate NeedsPool(j: Job) {
    j.Purge? || j.PurgeOrphan?
  }

  // ----- running the machine alone

  function Phase(j: Job): nat {
    match j
    case Store(_, _, _) => 3
    case Purge(_, _) => 2
    case Fetch(_) => 0
    case Crashed(_) => 0
    case _ => 1
  }

  function Buffered(j: Job): nat {
    match j
    case Pass(_, _, rest, keep) => |rest| + |keep|
    case StoreOrphan(_, _, rest, keep, _) => |rest| + |keep|
    case PurgeOrphan(_, _, rest, keep) => |rest| + |keep|
    case _ => |j.d.orphans|
  }

  function Rank(j: Job): nat {
    match j
    case Pass(_, _, rest, _) => 3 * |rest| + 1
    case StoreOrphan(_, _, rest, _, _) => 3 * |rest|
    case PurgeOrphan(_, _, rest, _) => if rest == [] then 0 else 3 * |rest| - 1
    case _ => 0
  }

  predicate AtHead(j: Job) {
    j.Fetch? || j.Crashed?
  }

  /** Runs until the next block of the message is due; the orphan loop shrinks the buffer, or else the stack. */
  function Settle(p: Params, sh: Shared, j: Job): (r: (Shared, Job))
    requires Shaped(j)
    ensures AtHead(r.1) && r.1.d.todo == j.d.todo
    decreases Phase(j), Buffered(j), |j.d.stack|, Rank(j)
  {
    if AtHead(j) then (sh, j)
    else
      var (sh', j') := JobStep(p, sh, j);
      Settle(p, sh', j')
  }

  /** Runs the handler to its end. */
  function Finish(p: Params, sh: Shared, j: Job): (r: (Shared, Job))
    requires AtHead(j)
    ensures r.1.Crashed? || (r.1.Fetch? && r.1.d.todo == [])
    decreases |j.d.todo|
  {
    if j.Crashed? || j.d.todo == [] then (sh, j)
    else
      var (sh', j') := JobStep(p, sh, j);
      var (sh'', j'') := Settle(p, sh', j');
      Finish(p, sh'', j'')
  }
}
