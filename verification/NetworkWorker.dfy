// The message handlers of src/network/worker.rs, over the shared objects they lock.
module NetworkWorker {
  import opened Wrappers
  import opened Bytes
  import opened Hashes
  import opened Ledger
  import opened Blocks
  import opened BlockTree
  import opened Mempools
  import opened Acceptance
  import opened HandlerRuns

  /** The messages about blocks and transactions; Ping and Pong carry nothing the node keeps. */
  datatype Message =
    | NewBlockHashes(hashes: seq<H256>)
    | GetBlocks(hashes: seq<H256>)
    | SomeBlocks(blocks: seq<Block>)
    | NewTransactionHashes(hashes: seq<H256>)
    | GetTransactions(hashes: seq<H256>)
    | Transactions(txs: seq<SignedTransaction>)

  /** The hashes that are not keys of m, in order. */
  function Missing<V>(m: map<H256, V>, hashes: seq<H256>): seq<H256> {
    if hashes == [] then []
    else if hashes[0] in m then Missing(m, hashes[1..])
    else [hashes[0]] + Missing(m, hashes[1..])
  }

  /** What m holds under the hashes, in order, unknown hashes left out. */
  function Held<V>(m: map<H256, V>, hashes: seq<H256>): seq<V> {
    if hashes == [] then []
    else if hashes[0] in m then [m[hashes[0]]] + Held(m, hashes[1..])
    else Held(m, hashes[1..])
  }

  /** The hashes of the transactions that verify, in order. */
  function VerifiedHashes(p: Params, txs: seq<SignedTransaction>): seq<H256> {
    if txs == [] then []
    else if p.Verified(txs[0]) then [p.txHash(txs[0])] + VerifiedHashes(p, txs[1..])
    else VerifiedHashes(p, txs[1..])
  }

  method MissingOf<V>(m: map<H256, V>, hashes: seq<H256>) returns (missing: seq<H256>)
    ensures missing == Missing(m, hashes)
  {
    missing := [];
    assert hashes[0..] == hashes;
    for i := 0 to |hashes|
      invariant missing + Missing(m, hashes[i..]) == Missing(m, hashes)
    {
      assert hashes[i..][1..] == hashes[i + 1..];
      if hashes[i] !in m {
        AppendShift(missing, hashes[i], Missing(m, hashes[i + 1..]));
        missing := missing + [hashes[i]];
      }
    }
  }

  method HeldOf<V>(m: map<H256, V>, hashes: seq<H256>) returns (held: seq<V>)
    ensures held == Held(m, hashes)
  {
    held := [];
    assert hashes[0..] == hashes;
    for i := 0 to |hashes|
      invariant held + Held(m, hashes[i..]) == Held(m, hashes)
    {
      assert hashes[i..][1..] == hashes[i + 1..];
      if hashes[i] in m {
        AppendShift(held, m[hashes[i]], Held(m, hashes[i + 1..]));
        held := held + [m[hashes[i]]];
      }
    }
  }

  /** The state of each block, as BlockState keeps it. */
  class BlockState {
    var blockStateMap: map<H256, Accounts>

    constructor (blockStateMap: map<H256, Accounts>)
      ensures this.blockStateMap == blockStateMap
    {
      this.blockStateMap := blockStateMap;
    }
  }

  class Worker {
    const p: Params
    const blockchain: Blockchain
    const mempool: Mempool
    const blockState: BlockState

    ghost predicate Valid()
      reads blockchain
    {
      blockchain.p == p && mempool.p == p && blockchain.Valid()
    }

    ghost function View(): Shared
      reads blockchain, mempool, blockState
    {
      Shared(blockchain.View(), blockState.blockStateMap, mempool.View())
    }

    constructor (blockchain: Blockchain, mempool: Mempool, blockState: BlockState)
      requires blockchain.Valid() && mempool.p == blockchain.p
      ensures Valid() && this.blockchain == blockchain && this.mempool == mempool && this.blockState == blockState
    {
      this.p := blockchain.p;
      this.blockchain, this.mempool, this.blockState := blockchain, mempool, blockState;
    }

    method HandleNewBlockHashes(blockHashes: seq<H256>) returns (toPeer: Option<Message>)
      ensures var missing := Missing(blockchain.blocks, blockHashes);
              toPeer == if missing == [] then None else Some(GetBlocks(missing))
    {
      var missing := MissingOf(blockchain.blocks, blockHashes);
      toPeer := if |missing| != 0 then Some(GetBlocks(missing)) else None;
    }

    method HandleGetBlocks(blocks: seq<H256>) returns (toPeer: Option<Message>)
      ensures var held := Held(blockchain.blocks, blocks);
              toPeer == if held == [] then None else Some(SomeBlocks(held))
    {
      var held := HeldOf(blockchain.blocks, blocks);
      toPeer := if |held| != 0 then Some(SomeBlocks(held)) else None;
    }

    method HandleNewTransactionHashes(txHashes: seq<H256>) returns (toPeer: Option<Message>)
      ensures var missing := Missing(map h | h in mempool.transactionSet :: true, txHashes);
              toPeer == if missing == [] then None else Some(GetTransactions(missing))
    {
      var missing := MissingOf(map h | h in mempool.transactionSet :: true, txHashes);
      toPeer := if |missing| != 0 then Some(GetTransactions(missing)) else None;
    }

    method HandleGetTransactions(transactions: seq<H256>) returns (toPeer: Option<Message>)
      ensures var held := Held(mempool.transactionMap, transactions);
              toPeer == if held == [] then None else Some(Transactions(held))
    {
      var held := HeldOf(mempool.transactionMap, transactions);
      toPeer := if |held| != 0 then Some(Transactions(held)) else None;
    }

    method HandleTransactions(txs: seq<SignedTransaction>) returns (toAll: Option<Message>)
      requires Valid()
      modifies mempool
      ensures Valid()
      ensures mempool.View() == Received(p, old(mempool.View()), txs)
      ensures var hashes := VerifiedHashes(p, txs);
              toAll == if hashes == [] then None else Some(NewTransactionHashes(hashes))
    {
      var hashes := [];
      assert txs[0..] == txs;
      for i := 0 to |txs|
        invariant Received(p, mempool.View(), txs[i..]) == Received(p, old(mempool.View()), txs)
        invariant hashes + VerifiedHashes(p, txs[i..]) == VerifiedHashes(p, txs)
      {
        assert txs[i..][1..] == txs[i + 1..];
        if p.verify(txs[i].transaction, txs[i].publicKey, txs[i].signature) {
          AppendShift(hashes, p.txHash(txs[i]), VerifiedHashes(p, txs[i + 1..]));
          hashes := hashes + [p.txHash(txs[i])];
          mempool.Insert(txs[i]);
        }
      }
      assert hashes + [] == hashes;
      toAll := if |hashes| != 0 then Some(NewTransactionHashes(hashes)) else None;
    }

    /** The signature loop: whether no transaction of the block fails to verify. */
    method SignaturesOk(txs: seq<SignedTransaction>) returns (ok: bool)
      ensures ok <==> AllVerified(p, txs)
    {
      for i := 0 to |txs|
        invariant forall k :: 0 <= k < i ==> p.Verified(txs[k])
      {
        if !p.verify(txs[i].transaction, txs[i].publicKey, txs[i].signature) {
          return false;
        }
      }
      return true;
    }

    /** Storing a state, inserting its block and purging the mempool, each under its own lock. */
    method Accept(block: Block, state: Accounts, purged: seq<SignedTransaction>)
      requires Valid()
      modifies blockchain, mempool, blockState
      ensures Valid()
      ensures View() == Purged(p, Linked(p, Published(p, old(View()), block, state), block), purged)
    {
      blockState.blockStateMap := blockState.blockStateMap[p.Hash(block) := state];
      blockchain.Insert(block);
      mempool.RemoveAll(purged);
    }

    /** The loop over the orphan buffer for one block taken from the stack. */
    method PassOrphans(d0: Desk, parent: Block) returns (job: Job)
      requires Valid()
      modifies blockchain, mempool, blockState
      ensures Valid()
      ensures AtHead(job) || job.Drain?
      ensures Settle(p, old(View()), Pass(d0, parent, d0.orphans, [])) == Settle(p, View(), job)
      ensures job.Drain? ==>
                || |job.d.orphans| < |d0.orphans|
                || (|job.d.orphans| == |d0.orphans| && |job.d.stack| == |d0.stack|)
    {
      var d, keep := d0, [];
      ghost var goal := Settle(p, View(), Pass(d0, parent, d0.orphans, []));
      assert d0.orphans[0..] == d0.orphans;
      for k := 0 to |d0.orphans|
        invariant Valid() && |keep| <= k && (|keep| == k ==> |d.stack| == |d0.stack|)
        invariant Settle(p, View(), Pass(d, parent, d0.orphans[k..], keep)) == goal
      {
        var orphan := d0.orphans[k];
        ghost var rest := d0.orphans[k..];
        assert rest[1..] == d0.orphans[k + 1..];
        if orphan.Parent() == p.Hash(parent) {
          ChildCases(p, View(), d, parent, rest, keep);
          if p.Hash(parent) !in blockState.blockStateMap {
            return Crashed(d);
          }
          var ok, state := ReplayLoop(blockState.blockStateMap[p.Hash(parent)], orphan.transactions);
          if !ok {
            return Fetch(d);
          }
          Accept(orphan, state, parent.transactions);
          assert Settle(p, View(), Pass(Announced(p, d, parent), parent, rest[1..], keep)) == goal;
          d := d.(broadcast := d.broadcast + [p.Hash(parent)], stack := d.stack + [parent]);
        } else {
          PassOther(p, View(), d, parent, rest, keep);
          keep := keep + [orphan];
        }
      }
      SettleStep(p, View(), Pass(d, parent, [], keep));
      return Drain(d.(orphans := keep));
    }

    /** The loop over the stack of blocks whose children may be waiting. */
    method DrainOrphans(d0: Desk) returns (job: Job)
      requires Valid()
      modifies blockchain, mempool, blockState
      ensures Valid() && AtHead(job)
      ensures (View(), job) == Settle(p, old(View()), Drain(d0))
    {
      var d := d0;
      ghost var goal := Settle(p, View(), Drain(d));
      while d.stack != []
        invariant Valid()
        invariant Settle(p, View(), Drain(d)) == goal
        decreases |d.orphans|, |d.stack|
      {
        SettleStep(p, View(), Drain(d));
        var block := d.stack[|d.stack| - 1];
        d := d.(stack := d.stack[..|d.stack| - 1]);
        job := PassOrphans(d, block);
        if AtHead(job) {
          return;
        }
        d := job.d;
      }
      SettleStep(p, View(), Drain(d));
      return Fetch(d);
    }

    /** One turn of the loop over the message; a return is the source's continue to the next block. */
    method ProcessBlock(d: Desk, block: Block) returns (job: Job)
      requires Valid()
      modifies blockchain, mempool, blockState
      ensures Valid() && AtHead(job)
      ensures (View(), job) == Settle(p, old(View()), Fetched(p, old(View()), d, block))
    {
      if p.Hash(block) in blockchain.blocks {
        return Fetch(d);
      }
      if !AtMost(p.Hash(block), p.difficulty) {
        return Fetch(d);
      }
      var signed := SignaturesOk(block.transactions);
      if !signed {
        return Fetch(d);
      }
      var parentHash := block.Parent();
      var desk := d;
      if parentHash in blockchain.blocks {
        if parentHash !in blockState.blockStateMap {
          return Crashed(d);
        }
        var ok, state := ReplayLoop(blockState.blockStateMap[parentHash], block.transactions);
        if !ok {
          return Fetch(d);
        }
        StoreSteps(p, View(), d, block, state);
        Accept(block, state, block.transactions);
        desk := desk.(broadcast := desk.broadcast + [p.Hash(block)], stack := desk.stack + [block]);
      } else {
        desk := desk.(orphans := desk.orphans + [block], parents := desk.parents + [parentHash]);
      }
      job := DrainOrphans(desk);
    }

    /** The handler of a Blocks message: what it does is the run of the machine on the shared structures. */
    method HandleBlocks(blocks: seq<Block>)
      returns (end: Job, toPeer: Option<Message>, toAll: Option<Message>)
      requires Valid()
      modifies blockchain, mempool, blockState
      ensures Valid()
      ensures (View(), end) == Finish(p, old(View()), Opening(old(View()), blocks))
      ensures end.Fetch? ==>
                && toPeer == (if end.d.parents == [] then None else Some(GetBlocks(end.d.parents)))
                && toAll == (if end.d.broadcast == [] then None else Some(NewBlockHashes(end.d.broadcast)))
    {
      toPeer, toAll := None, None;
      var d := Desk(blocks, blockchain.blocks.Keys, blocks, [], [], [], []);
      ghost var goal := Finish(p, View(), Fetch(d));
      while d.todo != []
        invariant Valid()
        invariant Finish(p, View(), Fetch(d)) == goal
        decreases |d.todo|
      {
        FinishTurn(p, View(), d);
        var block := d.todo[0];
        end := ProcessBlock(d.(todo := d.todo[1..]), block);
        if end.Crashed? {
          return;
        }
        d := end.d;
      }
      end := Fetch(d);
      if |d.parents| != 0 {
        toPeer := Some(GetBlocks(d.parents));
      }
      if |d.broadcast| != 0 {
        toAll := Some(NewBlockHashes(d.broadcast));
      }
    }
  }

  /** What the machine does with a child: a crash, the end of the work on the block, or its adoption. */
  lemma ChildCases(p: Params, sh: Shared, d: Desk, parent: Block, rest: seq<Block>, keep: seq<Block>)
    requires rest != [] && IsChild(p, parent, rest[0])
    ensures p.Hash(parent) !in sh.states ==> Settle(p, sh, Pass(d, parent, rest, keep)) == (sh, Crashed(d))
    ensures p.Hash(parent) in sh.states ==>
              match Replay(sh.states[p.Hash(parent)], rest[0].transactions)
              case None => Settle(p, sh, Pass(d, parent, rest, keep)) == (sh, Fetch(d))
              case Some(child) =>
                var sh' := Purged(p, Linked(p, Published(p, sh, rest[0], child), rest[0]), parent.transactions);
                Settle(p, sh, Pass(d, parent, rest, keep)) ==
                Settle(p, sh', Pass(Announced(p, d, parent), parent, rest[1..], keep))
  {
    SettleStep(p, sh, Pass(d, parent, rest, keep));
    if p.Hash(parent) in sh.states && Replay(sh.states[p.Hash(parent)], rest[0].transactions).Some? {
      PassChild(p, sh, d, parent, rest, keep, Replay(sh.states[p.Hash(parent)], rest[0].transactions).value);
    }
  }

  /** The two machine steps that put a new block in. */
  lemma StoreSteps(p: Params, sh: Shared, d: Desk, b: Block, state: Accounts)
    ensures var sh' := Purged(p, Linked(p, Published(p, sh, b, state), b), b.transactions);
            Settle(p, sh, Store(d, b, state)) == Settle(p, sh', Drain(Announced(p, d, b)))
  {
    SettleStep(p, sh, Store(d, b, state));
    SettleStep(p, Linked(p, Published(p, sh, b, state), b), Purge(d, b));
  }

  /** A filtered list has exactly the wanted elements. */
  lemma {:induction false} MissingIsFilter<V>(m: map<H256, V>, hashes: seq<H256>, h: H256)
    ensures h in Missing(m, hashes) <==> h in hashes && h !in m
    decreases |hashes|
  {
    if hashes != [] {
      MissingIsFilter(m, hashes[1..], h);
      assert h in hashes <==> h == hashes[0] || h in hashes[1..];
    }
  }
}
