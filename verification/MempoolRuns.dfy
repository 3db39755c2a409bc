// What a whole Blocks message does to the mempool, and which of the accepted blocks are announced.
module MempoolRuns {
  import opened Hashes
  import opened Ledger
  import opened Blocks
  import opened BlockTree
  import opened Mempools
  import opened Acceptance
  import opened NodeInvariant
  import opened JobInvariant
  import opened HandlerRuns

  // ----- the mempool during a run of the handler

  /** The hashes of the transactions of the blocks held under the given hashes. */
  function TxsUnder(p: Params, sh: Shared, hashes: seq<H256>): set<H256> {
    set h, tx | h in hashes && h in sh.chain.blocks && tx in sh.chain.blocks[h].transactions :: p.txHash(tx)
  }

  lemma TxsUnderSnoc(p: Params, sh: Shared, hashes: seq<H256>, b: Block)
    requires p.Hash(b) in sh.chain.blocks && sh.chain.blocks[p.Hash(b)] == b
    ensures TxsUnder(p, sh, hashes + [p.Hash(b)]) == TxsUnder(p, sh, hashes) + TxHashes(p, b.transactions)
  {
  }

  lemma TxsUnderGrows(p: Params, sh: Shared, sh': Shared, hashes: seq<H256>)
    requires MapGrows(sh.chain.blocks, sh'.chain.blocks) && forall h :: h in hashes ==> h in sh.chain.blocks
    ensures TxsUnder(p, sh', hashes) == TxsUnder(p, sh, hashes)
  {
  }

  /** Every block in the hand of the orphan loop was announced before. */
  ghost predicate LoopAnnounced(p: Params, j: Job) {
    && (forall b :: b in j.d.stack ==> p.Hash(b) in j.d.broadcast)
    && match j
       case Pass(d, parent, _, _) => p.Hash(parent) in d.broadcast
       case StoreOrphan(d, parent, _, _, _) => p.Hash(parent) in d.broadcast
       case PurgeOrphan(d, parent, _, _) => p.Hash(parent) in d.broadcast
       case _ => true
  }

  /** The mempool is the one of the start without the transactions of the announced blocks. */
  ghost predicate PoolBooks(p: Params, pool: Pool, sh: Shared, j: Job) {
    && LoopAnnounced(p, j)
    && sh.pool == Pool(pool.pending - TxsUnder(p, sh, j.d.broadcast), pool.seen)
  }

  lemma PurgeBooks(p: Params, pool: Pool, sh: Shared, hashes: seq<H256>, b: Block)
    requires sh.pool == Pool(pool.pending - TxsUnder(p, sh, hashes), pool.seen)
    requires p.Hash(b) in sh.chain.blocks && sh.chain.blocks[p.Hash(b)] == b
    requires forall h :: h in hashes ==> h in sh.chain.blocks
    ensures var sh' := Purged(p, sh, b.transactions);
            sh'.pool == Pool(pool.pending - TxsUnder(p, sh', hashes + [p.Hash(b)]), pool.seen)
  {
    var sh' := Purged(p, sh, b.transactions);
    RemovedAllIs(p, sh.pool, b.transactions);
    TxsUnderSnoc(p, sh', hashes, b);
    TxsUnderGrows(p, sh, sh', hashes);
    assert pool.pending - TxsUnder(p, sh, hashes) - TxHashes(p, b.transactions)
        == pool.pending - (TxsUnder(p, sh, hashes) + TxHashes(p, b.transactions));
  }

  lemma LoopStep(p: Params, w: iset<Block>, sh: Shared, j: Job)
    requires JobOk(p, w, sh, j) && Running(j) && LoopAnnounced(p, j)
    ensures LoopAnnounced(p, JobStep(p, sh, j).1)
  {
  }

  lemma QuietStep(p: Params, sh: Shared, j: Job)
    requires Running(j) && !NeedsPool(j)
    ensures JobStep(p, sh, j).0.pool == sh.pool && JobStep(p, sh, j).1.d.broadcast == j.d.broadcast
  {
  }

  lemma PurgeStep(p: Params, w: iset<Block>, pool: Pool, sh: Shared, j: Job)
    requires JobOk(p, w, sh, j) && NeedsPool(j)
    requires sh.pool == Pool(pool.pending - TxsUnder(p, sh, j.d.broadcast), pool.seen)
    ensures var (sh', j') := JobStep(p, sh, j);
            sh'.pool == Pool(pool.pending - TxsUnder(p, sh', j'.d.broadcast), pool.seen)
  {
    PurgeBooks(p, pool, sh, j.d.broadcast, if j.Purge? then j.block else j.parent);
  }

  lemma PoolStep(p: Params, w: iset<Block>, pool: Pool, sh: Shared, j: Job)
    requires Hypotheses(p, w) && NodeInv(p, w, sh) && JobOk(p, w, sh, j) && Running(j)
    requires PoolBooks(p, pool, sh, j)
    ensures PoolBooks(p, pool, JobStep(p, sh, j).0, JobStep(p, sh, j).1)
  {
    LoopStep(p, w, sh, j);
    if NeedsPool(j) {
      PurgeStep(p, w, pool, sh, j);
    } else {
      JobStepKeeps(p, w, sh, j);
      QuietStep(p, sh, j);
      TxsUnderGrows(p, sh, JobStep(p, sh, j).0, j.d.broadcast);
    }
  }

  // ----- the order of the message

  ghost predicate DistinctHashes(p: Params, msg: seq<Block>) {
    forall i, k :: 0 <= i < k < |msg| ==> p.Hash(msg[i]) != p.Hash(msg[k])
  }

  /** The message has c at place k, and its parent at the earlier place i. */
  ghost predicate Follows(p: Params, msg: seq<Block>, c: Block, i: int, k: int) {
    0 <= i < k < |msg| && msg[k] == c && p.Hash(msg[i]) == c.Parent()
  }

  /** The parent of c is among the given hashes or stands before c in the message. */
  ghost predicate Early(p: Params, base: set<H256>, msg: seq<Block>, c: Block) {
    c.Parent() in base || exists i, k :: Follows(p, msg, c, i, k)
  }

  /** The part of the message that was looked at. */
  function Seen(d: Desk): seq<Block> {
    if |d.todo| <= |d.msg| then d.msg[..|d.msg| - |d.todo|] else []
  }

  /** Orphans come from the part looked at, and those with an announced parent stand before it. */
  ghost predicate OrphanOrder(p: Params, d: Desk, s: seq<Block>) {
    forall o :: o in s ==> o in Seen(d) && (o.Parent() in d.broadcast ==> !Early(p, d.base, d.msg, o))
  }

  /** Every block that this run accepted, but for the one in hand, was announced or stands before its parent. */
  ghost predicate Sorted(p: Params, sh: Shared, d: Desk, hand: set<H256>) {
    forall h :: h in sh.chain.blocks && h !in d.base ==>
      h in d.broadcast || h in hand || !Early(p, d.base, d.msg, sh.chain.blocks[h])
  }

  ghost predicate DeskOrder(p: Params, sh: Shared, d: Desk) {
    && |d.todo| <= |d.msg| && d.todo == d.msg[|d.msg| - |d.todo|..]
    && (forall h :: h in sh.chain.blocks && h !in d.base ==> sh.chain.blocks[h] in Seen(d))
    && (forall h :: h in d.broadcast ==> h in sh.chain.blocks && Early(p, d.base, d.msg, sh.chain.blocks[h]))
    && OrphanOrder(p, d, d.orphans)
  }

  /** The block that was looked at last: its parent came before it, and no orphan stands after it. */
  ghost predicate InHand(p: Params, d: Desk, b: Block) {
    && |d.todo| < |d.msg| && d.msg[|d.msg| - |d.todo| - 1] == b && Early(p, d.base, d.msg, b)
    && forall o :: o in d.orphans ==> o in d.msg[..|d.msg| - |d.todo| - 1]
  }

  ghost predicate OrderBooks(p: Params, sh: Shared, j: Job) {
    && DeskOrder(p, sh, j.d)
    && Sorted(p, sh, j.d, if j.Purge? then {p.Hash(j.block)} else {})
    && match j
       case Store(d, b, _) => InHand(p, d, b)
       case Purge(d, b) => InHand(p, d, b)
       case Pass(d, parent, rest, keep) => OrphanOrder(p, d, rest) && OrphanOrder(p, d, keep)
       case StoreOrphan(d, parent, rest, keep, _) =>
         OrphanOrder(p, d, rest) && OrphanOrder(p, d, keep) && rest != [] && rest[0].Parent() == p.Hash(parent)
       case PurgeOrphan(d, parent, rest, keep) => OrphanOrder(p, d, rest) && OrphanOrder(p, d, keep)
       case _ => true
  }

  lemma SeenGrows(d: Desk)
    requires d.todo != [] && |d.todo| <= |d.msg| && d.todo == d.msg[|d.msg| - |d.todo|..]
    ensures var d' := d.(todo := d.todo[1..]);
            && Seen(d') == Seen(d) + [d.todo[0]] && d'.todo == d'.msg[|d'.msg| - |d'.todo|..]
            && d.msg[|d.msg| - |d'.todo| - 1] == d.todo[0] && Seen(d) == d.msg[..|d.msg| - |d'.todo| - 1]
  {
  }

  /** A block whose parent is in the chain when it is looked at stands after its parent. */
  lemma LookedAtEarly(p: Params, w: iset<Block>, sh: Shared, d: Desk)
    requires NodeInv(p, w, sh) && DeskOrder(p, sh, d) && d.todo != [] && d.todo[0].Parent() in sh.chain.blocks
    ensures Early(p, d.base, d.msg, d.todo[0])
  {
    var b, n := d.todo[0], |d.msg| - |d.todo|;
    if b.Parent() !in d.base {
      var a := sh.chain.blocks[b.Parent()];
      assert Placed(p, sh.chain, b.Parent());
      var i :| 0 <= i < n && d.msg[i] == a;
      assert Follows(p, d.msg, b, i, n);
    }
  }

  lemma LookedAt(p: Params, sh: Shared, d: Desk)
    requires DeskOrder(p, sh, d) && Sorted(p, sh, d, {}) && d.todo != []
    ensures var d' := d.(todo := d.todo[1..]); DeskOrder(p, sh, d') && Sorted(p, sh, d', {})
  {
    SeenGrows(d);
  }

  lemma BufferedOrder(p: Params, sh: Shared, d: Desk, b: Block)
    requires DeskOrder(p, sh, d) && Sorted(p, sh, d, {}) && b in Seen(d) && b.Parent() !in sh.chain.blocks
    ensures var d' := d.(orphans := d.orphans + [b], parents := d.parents + [b.Parent()]);
            DeskOrder(p, sh, d') && Sorted(p, sh, d', {})
  {
  }

  lemma TakenInHand(p: Params, w: iset<Block>, sh: Shared, d: Desk)
    requires NodeInv(p, w, sh) && DeskOrder(p, sh, d) && d.todo != [] && d.todo[0].Parent() in sh.chain.blocks
    ensures InHand(p, d.(todo := d.todo[1..]), d.todo[0])
  {
    SeenGrows(d);
    LookedAtEarly(p, w, sh, d);
  }

  lemma FetchOrder(p: Params, w: iset<Block>, sh: Shared, d: Desk)
    requires NodeInv(p, w, sh) && d.todo != [] && OrderBooks(p, sh, Fetch(d))
    ensures OrderBooks(p, sh, JobStep(p, sh, Fetch(d)).1)
  {
    var b, d' := d.todo[0], d.(todo := d.todo[1..]);
    LookedAt(p, sh, d);
    if b.Parent() in sh.chain.blocks {
      TakenInHand(p, w, sh, d);
    } else {
      SeenGrows(d);
      BufferedOrder(p, sh, d', b);
    }
  }

  /** Inserting a block of the part looked at. */
  lemma InsertedOrder(p: Params, sh: Shared, sh': Shared, d: Desk, b: Block, hand: set<H256>)
    requires DeskOrder(p, sh, d) && Sorted(p, sh, d, {}) && b in Seen(d)
    requires sh'.chain.blocks == sh.chain.blocks[p.Hash(b) := b] && MapGrows(sh.chain.blocks, sh'.chain.blocks)
    requires p.Hash(b) in hand || !Early(p, d.base, d.msg, b)
    ensures DeskOrder(p, sh', d) && Sorted(p, sh', d, hand)
  {
    assert forall h :: h in sh'.chain.blocks ==> h in sh.chain.blocks || h == p.Hash(b);
  }

  lemma StoreOrder(p: Params, w: iset<Block>, sh: Shared, j: Job)
    requires Hypotheses(p, w) && NodeInv(p, w, sh) && JobOk(p, w, sh, j) && j.Store? && OrderBooks(p, sh, j)
    ensures OrderBooks(p, JobStep(p, sh, j).0, JobStep(p, sh, j).1)
  {
    AcceptKeeps(p, w, sh, j.block, j.state);
    InsertedOrder(p, sh, JobStep(p, sh, j).0, j.d, j.block, {p.Hash(j.block)});
  }

  lemma StoreOrphanOrder(p: Params, w: iset<Block>, sh: Shared, j: Job)
    requires Hypotheses(p, w) && NodeInv(p, w, sh) && JobOk(p, w, sh, j) && j.StoreOrphan?
    requires OrderBooks(p, sh, j) && LoopAnnounced(p, j)
    ensures OrderBooks(p, JobStep(p, sh, j).0, JobStep(p, sh, j).1)
  {
    AcceptKeeps(p, w, sh, j.rest[0], j.state);
    assert j.rest[0] in j.rest;
    InsertedOrder(p, sh, JobStep(p, sh, j).0, j.d, j.rest[0], {});
  }

  /** Orphans that wait for b stand before it in the message. */
  lemma OrphansStandBefore(p: Params, d: Desk, b: Block, o: Block)
    requires DistinctHashes(p, d.msg) && InHand(p, d, b) && o in d.orphans
    requires o.Parent() == p.Hash(b) && p.Hash(b) !in d.base
    ensures !Early(p, d.base, d.msg, o)
  {
    var n := |d.msg| - |d.todo| - 1;
    var m :| 0 <= m < n && d.msg[m] == o;
    forall i, k ensures !Follows(p, d.msg, o, i, k) {
      if 0 <= i < k < |d.msg| && d.msg[k] == o {
        assert k == m;
      }
    }
  }

  /** Announcing a held block that stands after its parent and after the orphans that wait for it. */
  lemma AnnouncedOrder(p: Params, sh: Shared, d: Desk, b: Block, hand: set<H256>)
    requires DeskOrder(p, sh, d) && Sorted(p, sh, d, hand) && hand <= {p.Hash(b)}
    requires p.Hash(b) in sh.chain.blocks && Early(p, d.base, d.msg, sh.chain.blocks[p.Hash(b)])
    requires forall o :: o in d.orphans && o.Parent() == p.Hash(b) ==> !Early(p, d.base, d.msg, o)
    ensures DeskOrder(p, sh, Announced(p, d, b)) && Sorted(p, sh, Announced(p, d, b), {})
  {
  }

  lemma PurgeOrder(p: Params, w: iset<Block>, sh: Shared, j: Job)
    requires JobOk(p, w, sh, j) && j.Purge? && OrderBooks(p, sh, j) && DistinctHashes(p, j.d.msg)
    ensures OrderBooks(p, JobStep(p, sh, j).0, JobStep(p, sh, j).1)
  {
    forall o | o in j.d.orphans && o.Parent() == p.Hash(j.block) ensures !Early(p, j.d.base, j.d.msg, o) {
      OrphansStandBefore(p, j.d, j.block, o);
    }
    AnnouncedOrder(p, sh, j.d, j.block, {p.Hash(j.block)});
  }

  /** Announcing a block once more changes nothing. */
  lemma RepeatedOrder(p: Params, sh: Shared, d: Desk, b: Block, s: seq<Block>)
    requires p.Hash(b) in d.broadcast
    ensures DeskOrder(p, sh, d) ==> DeskOrder(p, sh, Announced(p, d, b))
    ensures Sorted(p, sh, d, {}) ==> Sorted(p, sh, Announced(p, d, b), {})
    ensures OrphanOrder(p, d, s) ==> OrphanOrder(p, Announced(p, d, b), s)
  {
    assert forall h :: h in Announced(p, d, b).broadcast <==> h in d.broadcast;
  }

  lemma TailOrder(p: Params, d: Desk, s: seq<Block>)
    requires OrphanOrder(p, d, s) && s != []
    ensures OrphanOrder(p, d, s[1..])
  {
    assert forall o :: o in s[1..] ==> o in s;
  }

  lemma PurgeOrphanOrder(p: Params, w: iset<Block>, sh: Shared, j: Job)
    requires JobOk(p, w, sh, j) && j.PurgeOrphan? && OrderBooks(p, sh, j) && LoopAnnounced(p, j)
    ensures OrderBooks(p, JobStep(p, sh, j).0, JobStep(p, sh, j).1)
  {
    TailOrder(p, j.d, j.rest);
    RepeatedOrder(p, sh, j.d, j.parent, j.rest[1..]);
    RepeatedOrder(p, sh, j.d, j.parent, j.keep);
  }

  lemma DrainOrder(p: Params, sh: Shared, j: Job)
    requires j.Drain? && OrderBooks(p, sh, j)
    ensures OrderBooks(p, sh, JobStep(p, sh, j).1)
  {
  }

  /** One pass through the buffer: an orphan is kept, and at the end the kept ones are the buffer. */
  lemma KeptOrder(p: Params, sh: Shared, d: Desk, rest: seq<Block>, keep: seq<Block>)
    requires DeskOrder(p, sh, d) && OrphanOrder(p, d, rest) && OrphanOrder(p, d, keep)
    ensures rest == [] ==> DeskOrder(p, sh, d.(orphans := keep))
    ensures rest != [] ==> OrphanOrder(p, d, rest[1..]) && OrphanOrder(p, d, keep + [rest[0]])
  {
    if rest != [] {
      TailOrder(p, d, rest);
      assert rest[0] in rest;
    }
  }

  lemma PassOrder(p: Params, sh: Shared, j: Job)
    requires j.Pass? && OrderBooks(p, sh, j)
    ensures OrderBooks(p, sh, JobStep(p, sh, j).1)
  {
    KeptOrder(p, sh, j.d, j.rest, j.keep);
  }

  lemma OrderStep(p: Params, w: iset<Block>, sh: Shared, j: Job)
    requires Hypotheses(p, w) && NodeInv(p, w, sh) && JobOk(p, w, sh, j) && Running(j)
    requires OrderBooks(p, sh, j) && LoopAnnounced(p, j) && DistinctHashes(p, j.d.msg)
    ensures OrderBooks(p, JobStep(p, sh, j).0, JobStep(p, sh, j).1)
  {
    match j
    case Fetch(d) => FetchOrder(p, w, sh, d);
    case Store(_, _, _) => StoreOrder(p, w, sh, j);
    case Purge(_, _) => PurgeOrder(p, w, sh, j);
    case StoreOrphan(_, _, _, _, _) => StoreOrphanOrder(p, w, sh, j);
    case PurgeOrphan(_, _, _, _) => PurgeOrphanOrder(p, w, sh, j);
    case Drain(_) => DrainOrder(p, sh, j);
    case Pass(_, _, _, _) => PassOrder(p, sh, j);
  }

  // ----- whole runs

  /** What holds of mempool and announcements at every moment of a run that starts with the given mempool. */
  ghost predicate Books(p: Params, pool: Pool, sh: Shared, j: Job) {
    PoolBooks(p, pool, sh, j) && (DistinctHashes(p, j.d.msg) ==> OrderBooks(p, sh, j))
  }

  lemma BooksStep(p: Params, w: iset<Block>, pool: Pool, sh: Shared, j: Job)
    requires Hypotheses(p, w) && NodeInv(p, w, sh) && JobOk(p, w, sh, j) && Running(j) && Books(p, pool, sh, j)
    ensures Books(p, pool, JobStep(p, sh, j).0, JobStep(p, sh, j).1)
  {
    JobStepKeeps(p, w, sh, j);
    PoolStep(p, w, pool, sh, j);
    if DistinctHashes(p, j.d.msg) {
      OrderStep(p, w, sh, j);
    }
  }

  lemma OpeningBooks(p: Params, sh: Shared, blocks: seq<Block>)
    ensures Books(p, sh.pool, sh, Opening(sh, blocks))
  {
    assert sh.pool.pending - {} == sh.pool.pending;
    assert TxsUnder(p, sh, []) == {};
  }

  lemma MessageBooks(p: Params, w: iset<Block>, sh: Shared, blocks: seq<Block>)
    requires Hypotheses(p, w) && NodeInv(p, w, sh) && forall b :: b in blocks ==> b in w
    ensures var (sh', j') := Finish(p, sh, Opening(sh, blocks));
            Books(p, sh.pool, sh', j') && j'.d.msg == blocks && j'.d.base == sh.chain.blocks.Keys
  {
    var j, i := Opening(sh, blocks), (s: Shared, k: Job) => Books(p, sh.pool, s, k);
    OpeningOk(p, w, sh, blocks);
    OpeningBooks(p, sh, blocks);
    forall s, k | Fit(p, w, s, k) && Running(k) && i(s, k) ensures i(JobStep(p, s, k).0, JobStep(p, s, k).1) {
      BooksStep(p, w, sh.pool, s, k);
    }
    FinishInduction(p, w, i, sh, j);
    FinishKeeps(p, w, sh, j);
  }

  // ----- what a message leaves pending

  /** Whatever the message: the mempool loses exactly the transactions of the announced blocks, and forgets none. */
  lemma MempoolAfterMessage(p: Params, w: iset<Block>, sh: Shared, blocks: seq<Block>)
    requires Hypotheses(p, w) && NodeInv(p, w, sh) && forall b :: b in blocks ==> b in w
    ensures var (sh', j') := Finish(p, sh, Opening(sh, blocks));
            sh'.pool == Pool(sh.pool.pending - TxsUnder(p, sh', j'.d.broadcast), sh.pool.seen)
  {
    MessageBooks(p, w, sh, blocks);
  }

  ghost predicate New(sh: Shared, sh': Shared, h: H256) {
    h in sh'.chain.blocks && h !in sh.chain.blocks
  }

  /** Without repeats an accepted block is announced exactly when its parent was held or stands before it. */
  lemma AnnouncedIff(p: Params, w: iset<Block>, sh: Shared, blocks: seq<Block>, h: H256)
    requires Hypotheses(p, w) && NodeInv(p, w, sh) && (forall b :: b in blocks ==> b in w) && DistinctHashes(p, blocks)
    requires New(sh, Finish(p, sh, Opening(sh, blocks)).0, h)
    ensures var (sh', j') := Finish(p, sh, Opening(sh, blocks));
            h in j'.d.broadcast <==> Early(p, sh.chain.blocks.Keys, blocks, sh'.chain.blocks[h])
  {
    MessageBooks(p, w, sh, blocks);
  }

  /** No accepted block has a transaction that is still pending. */
  ghost predicate NothingLeft(p: Params, sh: Shared, sh': Shared) {
    forall h, tx :: New(sh, sh', h) && tx in sh'.chain.blocks[h].transactions ==> p.txHash(tx) !in sh'.pool.pending
  }

  /** For every message: nothing is left exactly when pending transactions of accepted blocks are in announced ones. */
  lemma NothingLeftIffAnnounced(p: Params, w: iset<Block>, sh: Shared, blocks: seq<Block>)
    requires Hypotheses(p, w) && NodeInv(p, w, sh) && forall b :: b in blocks ==> b in w
    ensures var (sh', j') := Finish(p, sh, Opening(sh, blocks));
            NothingLeft(p, sh, sh') <==>
              forall h, tx :: New(sh, sh', h) && tx in sh'.chain.blocks[h].transactions
                ==> p.txHash(tx) !in sh.pool.pending || p.txHash(tx) in TxsUnder(p, sh', j'.d.broadcast)
  {
    MempoolAfterMessage(p, w, sh, blocks);
  }

  /** A transaction is in an accepted block whose parent was held or stands before it. */
  ghost predicate InEarlyBlock(p: Params, sh: Shared, sh': Shared, blocks: seq<Block>, tx: SignedTransaction) {
    exists h :: New(sh, sh', h) && Early(p, sh.chain.blocks.Keys, blocks, sh'.chain.blocks[h])
             && p.txHash(tx) in TxHashes(p, sh'.chain.blocks[h].transactions)
  }

  /** Each pending transaction of an accepted block that stands before its parent is in one that does not. */
  ghost predicate LateCovered(p: Params, sh: Shared, sh': Shared, blocks: seq<Block>) {
    forall h, tx :: New(sh, sh', h) && tx in sh'.chain.blocks[h].transactions && p.txHash(tx) in sh.pool.pending
      ==> Early(p, sh.chain.blocks.Keys, blocks, sh'.chain.blocks[h]) || InEarlyBlock(p, sh, sh', blocks, tx)
  }

  /** A transaction of an accepted block was purged exactly when it is in an announced block. */
  lemma PurgedIff(p: Params, w: iset<Block>, sh: Shared, blocks: seq<Block>, tx: SignedTransaction)
    requires Hypotheses(p, w) && NodeInv(p, w, sh) && (forall b :: b in blocks ==> b in w) && DistinctHashes(p, blocks)
    ensures var (sh', j') := Finish(p, sh, Opening(sh, blocks));
            p.txHash(tx) in TxsUnder(p, sh', j'.d.broadcast) <==> InEarlyBlock(p, sh, sh', blocks, tx)
  {
    var (sh', j') := Finish(p, sh, Opening(sh, blocks));
    HandlerIsSound(p, w, sh, blocks);
    MessageBooks(p, w, sh, blocks);
    if p.txHash(tx) in TxsUnder(p, sh', j'.d.broadcast) {
      var h, tx' :| h in j'.d.broadcast && h in sh'.chain.blocks && tx' in sh'.chain.blocks[h].transactions
                 && p.txHash(tx') == p.txHash(tx);
      assert New(sh, sh', h);
      assert p.txHash(tx) in TxHashes(p, sh'.chain.blocks[h].transactions);
    }
    if InEarlyBlock(p, sh, sh', blocks, tx) {
      var h :| New(sh, sh', h) && Early(p, sh.chain.blocks.Keys, blocks, sh'.chain.blocks[h])
            && p.txHash(tx) in TxHashes(p, sh'.chain.blocks[h].transactions);
      assert h in j'.d.broadcast;
    }
  }

  /**
   For a message without repeats, accepted blocks leave none of their transactions pending exactly when each pending
   transaction of an accepted block that stands before its parent is also in one that does not.
   */
  lemma NothingLeftIff(p: Params, w: iset<Block>, sh: Shared, blocks: seq<Block>)
    requires Hypotheses(p, w) && NodeInv(p, w, sh) && (forall b :: b in blocks ==> b in w) && DistinctHashes(p, blocks)
    ensures var sh' := Finish(p, sh, Opening(sh, blocks)).0;
            NothingLeft(p, sh, sh') <==> LateCovered(p, sh, sh', blocks)
  {
    var (sh', j') := Finish(p, sh, Opening(sh, blocks));
    MempoolAfterMessage(p, w, sh, blocks);
    forall tx ensures p.txHash(tx) in sh'.pool.pending
                 <==> p.txHash(tx) in sh.pool.pending && !InEarlyBlock(p, sh, sh', blocks, tx) {
      PurgedIff(p, w, sh, blocks, tx);
    }
    if NothingLeft(p, sh, sh') {
      assert LateCovered(p, sh, sh', blocks);
    }
    if LateCovered(p, sh, sh', blocks) {
      forall h, tx | New(sh, sh', h) && tx in sh'.chain.blocks[h].transactions
        ensures p.txHash(tx) !in sh'.pool.pending
      {
        if Early(p, sh.chain.blocks.Keys, blocks, sh'.chain.blocks[h]) {
          assert p.txHash(tx) in TxHashes(p, sh'.chain.blocks[h].transactions);
          assert InEarlyBlock(p, sh, sh', blocks, tx);
        }
      }
    }
  }

  /** A message that lists parents first always leaves nothing of its accepted blocks pending. */
  lemma ParentsFirstLeavesNothing(p: Params, w: iset<Block>, sh: Shared, blocks: seq<Block>)
    requires Hypotheses(p, w) && NodeInv(p, w, sh) && (forall b :: b in blocks ==> b in w) && DistinctHashes(p, blocks)
    requires forall k :: 0 <= k < |blocks| ==>
               || blocks[k].Parent() in sh.chain.blocks
               || exists i :: 0 <= i < k && p.Hash(blocks[i]) == blocks[k].Parent()
    ensures NothingLeft(p, sh, Finish(p, sh, Opening(sh, blocks)).0)
  {
    var sh' := Finish(p, sh, Opening(sh, blocks)).0;
    HandlerIsSound(p, w, sh, blocks);
    forall b | b in blocks ensures Early(p, sh.chain.blocks.Keys, blocks, b) {
      var k :| 0 <= k < |blocks| && blocks[k] == b;
      if b.Parent() !in sh.chain.blocks {
        var i :| 0 <= i < k && p.Hash(blocks[i]) == b.Parent();
        assert Follows(p, blocks, b, i, k);
      }
    }
    NothingLeftIff(p, w, sh, blocks);
  }
}
