# A verified model of the blockchain node

This project models the account-based blockchain node in `src/` and proves what it keeps. The node has three shared
structures, each behind a mutex: a tree of blocks with a tip, the ledger state after each block, and a mempool. Network
workers, a miner and a miner-worker change them concurrently.

| file | what it models |
|---|---|
| `Bytes.dfy`, `Hashes.dfy` | big-endian numbers; 256-bit hashes and their order |
| `Frames.dfy` | the length-prefixed frame writer and reader of a peer connection |
| `Merkle.dfy` | Merkle trees, membership proofs and their check |
| `Positions.dfy` | positions in a list, for saying what was picked from it |
| `Ledger.dfy`, `LedgerSums.dfy` | transactions, the ledger step, replay, conservation and nonces; the same by sums over the list |
| `BlockTree.dfy` | blocks, the block tree and its tip (module `Blocks` holds the block types and the hypotheses) |
| `Mempool.dfy` | pending and seen transactions |
| `Acceptance.dfy` | the handler of a Blocks message as a machine, one step per use of the states or mempool lock |
| `NodeInvariant.dfy`, `JobInvariant.dfy` | the invariant of the shared structures and what each handler step keeps |
| `HandlerRuns.dfy`, `OrphanRuns.dfy`, `MempoolRuns.dfy` | whole runs of the handler; what its orphan loop achieves; what a message does to the mempool |
| `BlockRules.dfy` | when a block gets in, in terms of numbers and sums |
| `Forecast.dfy` | which blocks of a message get in, said without the handler |
| `NetworkWorker.dfy` | the message handlers as methods on shared objects, proved equal to the machine |
| `Mining.dfy` | one turn of the miner, the miner-worker |
| `Replies.dfy`, `Selection.dfy` | what a worker answers and announces, and what the miner takes, by positions |
| `Concurrency.dfy` | all threads of a node as a step system, every interleaving |
| `Locks.dfy`, `LockSteps.dfy` | the lock order and deadlock freedom; the step system seen through its locks, progress |
| `Sync.dfy` | two nodes exchanging announcements and blocks |
| `RunHistory.dfy` | what relates two moments of a run: the tip, the lock of a handler, the mempool |
| `Turns.dfy` | an uninterrupted handler or miner turn is a run of the step system |
| `Exchange.dfy` | two running nodes, and exactly when an exchange can be completed |
| `SourceNode.dfy`, `Examples.dfy` | the result on runs for the constants of the source; two concrete runs |

## How to read it

Functions that change nothing are Dafny functions. Code that updates state is a class or a method with its loops, and
each method is proved equal to a function of the old state (`Inserted`, `Replay`, `Filled`, `Finish`, ...), about which
the lemmas speak. `NetworkWorker.Worker.HandleBlocks` computes `Acceptance.Finish`, the run of a machine whose single
step is `Acceptance.JobStep`. `Concurrency` interleaves the same `JobStep` with all other threads, so what a step keeps
is proved once and holds in sequence and in every interleaving.

Rust features appear as follows: `continue 'block` is a return from the method that handles one block;
`Option::unwrap` on a missing state is the machine state `Crashed`; a thread that asks for a poisoned lock takes no
further step and keeps its locks; arithmetic on `u32` wraps at 2^32 as in a release build (a debug build panics
instead); the local variables of the Blocks handler are one record, `Desk`, with two extra fields that only record the
message and the hashes present when the lock was taken.

## Hypotheses

- `Blocks.Params` holds the library functions as uninterpreted function values: the header hash, the transaction hash
  and size, `hash_two`, and signature verification. It also holds the genesis block and the difficulty bound, so the
  theorems hold for every choice of these; `SourceParams` gives the constants of the source.
- `Blocks.Hypotheses(p, w)`: among the blocks `w` that occur, no two have the same hash and none hashes to the parent
  named by genesis (all zeros). A block hash covers the header only, and a received block's Merkle root is not
  recomputed, so "same hash, same transactions" is an assumption and not something the code checks.
- Merkle lemmas assume no collision only among the pairs that building and checking hash (`CollisionFree`).
- Transactions the generator signs verify, so the generator appears as the receipt of one transaction that verifies.

## What the code does that one may not expect

- The orphan loop pushes and announces the parent again instead of the adopted orphan (`src/network/worker.rs:233-237`).
  It adopts the direct children of a newly accepted block and stops there (`OrphanRuns.OrphanPass`), and it purges the
  parent's transactions from the mempool and not the orphan's. Whatever the message, the mempool loses exactly the
  transactions of the announced blocks (`MempoolRuns.MempoolAfterMessage`). "An accepted block leaves none of its
  transactions pending" is therefore false, as `Examples.AcceptedBlockLeftPending` shows. Without repeated blocks an
  accepted block is announced if and only if its parent was held or stands before it in the message
  (`MempoolRuns.AnnouncedIff`), so nothing is left pending if and only if each pending transaction of an accepted block
  that stands before its parent is also in one that does not (`MempoolRuns.NothingLeftIff`; from the message and the
  start state alone, `Forecast.NothingLeftIffForeseen`). A message that lists parents first always has that
  (`MempoolRuns.ParentsFirstLeavesNothing`).
- The orphan buffer lives for one message (`src/network/worker.rs:145`). When a block and its parent come in two
  messages, in that order, the block is forgotten and the handler does not ask for it again; only a later announcement
  would bring it (`OrphanRuns.OrphansForgotten`).
- A child that does not replay ends the work on the current block of the message (`src/network/worker.rs:218`). The
  children before it in the buffer are in, those after it are not looked at. The buffer stays as it was, adopted orphans
  included; the parent was popped from the stack, and one copy of it stands there for each child adopted
  (`OrphanRuns.OrphanPassStops`). So orphans that were already inserted can be inserted again, which changes nothing
  (`NodeInvariant.ReacceptanceIsIdle`), and all buffered children get in if and only if all replay
  (`OrphanRuns.ChildrenGetInIff`).
- The miner's clean-up panics, holding two locks, exactly when some pending transaction's sender has no account in the
  new state (`Mining.CleanedIff`). One verifying transaction from an address without an account is enough
  (`Examples.DoomIsReachable`). The locks of the mempool and the block states are poisoned from then on, and a handler
  that asks for one of them panics with the blockchain lock in hand. An exchange that has a block to bring can be
  completed if and only if the miner is not in, or on its way into, that state and the node has a worker thread left
  (`Exchange.ExchangeCompletesIff` requires one).
- `verify` does not look at the length of a Merkle proof. A proof of m elements is accepted exactly for the node m layers
  below the root that the low m bits of the index name (`Merkle.ShortProofIff`), so the root is accepted with an empty
  proof at every index in range; for proofs longer than the tree is high see `Merkle.LongProofIff`.
- A Merkle root does not determine the number of leaves (`Merkle.OddListPadded`); `Merkle.SameHeightIff` and
  `Merkle.RootsEqualIff` say exactly which lists share a root.
- A message of 2^32 bytes or more is framed with a wrong length; the frame round trip holds exactly for lists without
  one (`Frames.RoundTripIff`).

## Model

| member | source | states |
|---|---|---|
| `Hashes.CmpIsNumeric` | src/types/hash.rs:92-104 | comparing high then low 128-bit halves is comparing the big-endian 256-bit numbers |
| `Hashes.CmpIsLexicographic` | src/types/hash.rs:92-104 | and it is the lexicographic order of the 32 bytes |
| `Hashes.AtMostIsTotalOrder` | src/types/hash.rs:106-110 | the `<=` of the difficulty test is a total order on 256-bit numbers whose equality is byte equality |
| `Hashes.HalfFitsU128` | src/types/hash.rs:94-97 | each half read by `from_be_bytes` fits in u128 |
| `Frames.WriteFrames` | src/network/server.rs:193-220 | the writer's loop emits the concatenation of the frames, length cast to u32 included |
| `Frames.FrameBytes` | src/network/server.rs:193-220 | a frame is the length in four bytes, the highest first, and the message |
| `Frames.ReadFrame` | src/network/server.rs:160-185 | one turn over the reused buffers succeeds exactly when header and payload are there, and yields the payload |
| `Frames.ReadFrames` | src/network/server.rs:154-186 | with one size buffer and one growing message buffer the reader yields exactly the complete frames of the stream |
| `Frames.RoundTripIff` | src/network/server.rs:154-220 | decoding the written bytes gives the messages back if and only if each is shorter than 2^32 bytes |
| `Frames.TruncatedRoundTrip` | src/network/server.rs:160-186 | a stream cut anywhere yields a prefix of the messages: exactly those whose frames arrived whole |
| `Merkle.New` | src/types/merkle.rs:14-66 | the layer-by-layer builder makes the tree of the leaf hashes, empty and single-leaf cases included |
| `Merkle.NextLayer` | src/types/merkle.rs:44-54 | padding an odd layer and hashing it two by two gives the layer above |
| `Merkle.Proof` | src/types/merkle.rs:72-93 | the prover collects the sibling path, rebuilding the padding from unpadded layers; empty for a bad index |
| `Merkle.Verify` | src/types/merkle.rs:99-119 | accepts exactly when the index is in range and folding the proof along the index bits gives the root |
| `Merkle.LayerWidths` | src/types/merkle.rs:42-58 | the builder makes ceil(log2 n) + 1 layers, the last a single node |
| `Merkle.LayersAreNodes` | src/types/merkle.rs:42-60 | the stored layers are the nodes of a top-down recursive tree padded at each level |
| `Merkle.RootIsTopNode` | src/types/merkle.rs:60-69 | the root is the single top node of that tree |
| `Merkle.WidthIsCeiling` | src/types/merkle.rs:43-57 | layer k over n leaves has n / 2^k nodes, rounded up |
| `Merkle.BuiltTree` | src/types/merkle.rs:14-66 | the parts of a built tree: leaves, every layer node by node, and the top node as root; the default root and no layers for no data |
| `Merkle.CeilLog2IsLeast` | src/types/merkle.rs:42-58 | the height is the least k with n <= 2^k |
| `Merkle.SiblingPathLength` | src/types/merkle.rs:80-91 | a proof has exactly height-many elements |
| `Merkle.Completeness` | src/types/merkle.rs:72-119 | every proof the tree gives is accepted, and checking it hashes only pairs of the tree |
| `Merkle.Soundness` | src/types/merkle.rs:99-119 | without a collision among the hashed pairs, an accepted proof of full height has the true leaf and is the tree's own proof |
| `Merkle.FoldsToRootIff` | src/types/merkle.rs:99-119 | without a collision, a proof of full height leads from a datum to the root at any index exactly for the leaf that the low bits name, with its own path |
| `Merkle.ShortProofIff` | src/types/merkle.rs:99-119 | a proof of m elements, at most the height, leads to the root exactly for the node m layers below it that the low m bits name, with the path from there |
| `Merkle.LongProofIff` | src/types/merkle.rs:99-119 | a longer proof leads to the root exactly when its front leads to the leaf that the remaining index names and the rest is that leaf's path |
| `Merkle.NamesItself` | src/types/merkle.rs:103-117 | an index below the number of leaves names its own leaf |
| `Merkle.AcceptedIffLeaf` | src/types/merkle.rs:99-119 | a datum has such an accepted proof at an index if and only if it is the leaf there |
| `Merkle.RootBinding` | src/types/merkle.rs:43-60 | for lists of equal length, equal roots if and only if equal leaves |
| `Merkle.SameHeightIff` | src/types/merkle.rs:43-60 | without a collision, lists of equal height share a root if and only if padding completes them to the same row of 2^height leaves |
| `Merkle.RootsEqualIff` | src/types/merkle.rs:43-60 | and lists of any two heights if and only if the lower one completes to the same row as that layer of the higher one |
| `Merkle.SpreadDeterminesRoot` | src/types/merkle.rs:43-60 | lists that complete to the same row share a root whatever the hash function |
| `Merkle.RaisedIsLayer` | src/types/merkle.rs:42-58 | the list k layers up is layer k of the stored tree |
| `Merkle.OddListPadded` | src/types/merkle.rs:44-47 | an odd list longer than one has the root of the list with its last element repeated |
| `Ledger.ReplayLoop` | src/network/worker.rs:164-185 | the validator's loop, rejecting at the first bad transaction, computes the replay on the parent's state |
| `Ledger.ReplayConcat` | src/network/worker.rs:165-185 | replaying two lists in a row is replaying their concatenation |
| `Ledger.TransferIsExact` | src/network/worker.rs:173-184 | while the total fits in u32 a transfer moves exactly its value between any two parties (also to oneself), counts one nonce, and creates accounts as needed |
| `Ledger.ReplayConserves` | src/network/worker.rs:165-185 | replay keeps the sum of all balances |
| `LedgerSums.ReplayIff` | src/network/worker.rs:165-185 | while the total fits in u32, a list is accepted if and only if each transaction spends at most its sender's starting balance, plus what the earlier ones paid it, less what it spent in them, and carries the next nonce |
| `LedgerSums.ReplaySums` | src/network/worker.rs:165-185 | and then it leads to exactly those balances and nonces, with an account for every party |
| `Ledger.OfferingTotal` | src/types/transaction.rs:39-48 | the initial offering sums to 1,000,000 |
| `Ledger.NoncesCountUp` | src/network/worker.rs:173-177 | each sender's transactions in a replay carry consecutive nonces modulo 2^32, and the state ends with the count |
| `Ledger.NoTransactionTwice` | src/network/worker.rs:173-177 | no transaction occurs twice in a replay unless its sender sent more than 2^32 |
| `BlockTree.Blockchain.constructor` | src/blockchain/mod.rs:18-54 | a new chain holds genesis alone, at height 0, as the tip |
| `BlockTree.Blockchain.Insert` | src/blockchain/mod.rs:57-81 | the whole new tree: block filed under its hash, one above its parent, tip moved only to a strictly higher block |
| `BlockTree.Blockchain.AllBlocksInLongestChain` | src/blockchain/mod.rs:89-101 | the backwards walk terminates and, reversed, is the branch from genesis to the tip |
| `BlockTree.BranchIsPath` | src/blockchain/mod.rs:89-101 | a branch is duplicate-free, parent-linked, from genesis to its end, with height + 1 blocks |
| `BlockTree.HeightBelowBlockCount` | src/blockchain/mod.rs:69-74 | a height is below the number of blocks, so u64 heights do not overflow |
| `BlockTree.ReinsertionIsIdle` | src/blockchain/mod.rs:57-81 | inserting a block again changes nothing |
| `BlockTree.InsertKeepsWellFormed` | src/blockchain/mod.rs:57-81 | an insertion below a known parent keeps the tree well-formed with a tip of maximal height |
| `BlockTree.TipNeverFalls` | src/blockchain/mod.rs:76-80 | the tip's height never falls, and the tip moves exactly when the height grows |
| `BlockTree.GrownIsWellFormed` | src/blockchain/mod.rs:18-81 | after any parent-before-child insertions the tree holds exactly genesis and those blocks |
| `BlockTree.OrderIndependence` | src/blockchain/mod.rs:57-81 | two parent-before-child insertion sequences over the same blocks, repeats allowed, give equal blocks, heights and tip height, and the same tip when the tallest block is unique |
| `BlockTree.TipIsEarliestHighest` | src/blockchain/mod.rs:76-80 | the tip is the earliest inserted among the blocks of maximal height |
| `Mempools.Mempool.Insert` | src/miner/mod.rs:58-65 | a transaction gets in only if its hash was never seen |
| `Mempools.Mempool.Remove` | src/miner/mod.rs:68-72 | removal takes out the pending entry and keeps the hash as seen |
| `Mempools.Mempool.RemoveAll` | src/network/worker.rs:188-191 | the purge loop removes every transaction of a block |
| `Mempools.RemovedAllIs` | src/network/worker.rs:188-191 | exactly the block's transactions leave the pending ones, and none is forgotten as seen |
| `Mempools.ReceivedKeeps` | src/network/worker.rs:256-264 | only verifying transactions become pending, all of them are recorded, and none seen before is admitted again |
| `Mempools.ReceivedIs` | src/network/worker.rs:256-264 | after a list was received exactly these are pending: all that were, unchanged, and for each unseen hash of a verifying transaction the first one with it; and seen gains exactly the hashes of the verifying ones |
| `NodeInvariant.StartOk` | src/main.rs:49-71 | the invariant holds of a new node with the initial offering as genesis state |
| `NodeInvariant.PublishKeeps` | src/miner/mod.rs:313-316 | storing the state of a block not yet inserted keeps the invariant and changes no stored state |
| `NodeInvariant.AcceptKeeps` | src/network/worker.rs:186-187 | storing a replayed state and inserting its screened block keeps the invariant and only adds |
| `NodeInvariant.ReacceptanceIsIdle` | src/network/worker.rs:230-231 | accepting a block a second time changes neither tree nor states |
| `NodeInvariant.PurgeKeeps` | src/network/worker.rs:188-191 | purging keeps the invariant |
| `NodeInvariant.StateIsBranchReplay` | src/network/worker.rs:164-186 | the state of a block is the replay of its whole branch from the initial offering |
| `NodeInvariant.StateConserves` | src/network/worker.rs:165-185 | every stored state sums to 1,000,000, and each account's nonce is the number of transactions it sent on the branch, themselves numbered 1, 2, ... |
| `NodeInvariant.NoBalanceWraps` | src/miner/mod.rs:255-281 | no transfer accepted in a replay on a stored state, by validator or miner, underflows or overflows u32 |
| `NodeInvariant.NoReplayOnBranch` | src/network/worker.rs:173-177 | no transaction occurs twice on a branch |
| `NodeInvariant.StatesAgree` | src/network/worker.rs:164-186 | two nodes agree on block and state for every hash both hold |
| `Acceptance.Settle` | src/network/worker.rs:201-245 | the orphan loop ends, by buffer size then stack size, and leaves the rest of the message as it was |
| `Acceptance.Finish` | src/network/worker.rs:146-247 | the handler ends for every message: crashed, or with no block left to look at |
| `JobInvariant.JobStepKeeps` | src/network/worker.rs:146-245 | any step of the handler keeps the node invariant and the handler's own, and only adds blocks and states |
| `JobInvariant.JobStable` | src/network/worker.rs:142-186 | a running handler is not disturbed by states stored and mempool changes around it |
| `HandlerRuns.HandlerIsSound` | src/network/worker.rs:139-255 | for any list of blocks: no failed lookup; added blocks come from the message, met the difficulty, have verified signatures, a present parent and their replayed state; announced hashes were absent before and are held after |
| `BlockRules.SingleBlockAcceptedIff` | src/network/worker.rs:147-198 | a block sent alone gets in if and only if it was there, or its parent is and, on the parent's state, it meets the difficulty as a number, has all signatures verified, and has each transaction covered by what its sender then has, with the next nonce |
| `BlockRules.HeldBlockFollowsRules` | src/network/worker.rs:147-198 | every held block but genesis follows these rules on its parent's state, and its state is that state plus the sums of its transactions |
| `BlockRules.StateIsSummed` | src/network/worker.rs:164-186 | each balance of a stored state is the initial offering, plus what the branch paid the account, less what it spent there |
| `HandlerRuns.AcceptedBlockIsPurged` | src/network/worker.rs:188-191 | exactly the accepted block's transactions leave the mempool |
| `OrphanRuns.OrphanPass` | src/network/worker.rs:200-245 | when all buffered children of a new block replay, exactly they get in with their states, the stack ends empty, and the other orphans stay in order |
| `OrphanRuns.OrphanPassStops` | src/network/worker.rs:200-245 | when a child does not replay, exactly the children before the first such one get in; the buffer is unchanged, and stack and announcements gain the parent once for each of them |
| `OrphanRuns.ChildrenGetInIff` | src/network/worker.rs:204-241 | after the orphan loop all buffered children are in the chain if and only if all of them replay |
| `OrphanRuns.OrphansThenParent` | src/network/worker.rs:139-245 | a whole message of waiting blocks and then a good block: it gets in with its state, only its children follow, every orphan's parent is asked for, the mempool loses exactly its transactions, and the children get in if and only if all replay |
| `OrphanRuns.OrphanTransactionsStay` | src/network/worker.rs:232-237 | the message of an orphan and its parent: both get in, the parent is asked for once and announced twice, and a pending transaction of the orphan stays pending if and only if the parent does not hold it |
| `OrphanRuns.OrphansForgotten` | src/network/worker.rs:139-255 | the same blocks in two messages, orphans first: the parent gets in, no orphan does, and nothing asks for them again |
| `MempoolRuns.MempoolAfterMessage` | src/network/worker.rs:188-235 | for every message, the mempool loses exactly the transactions of the announced blocks and forgets none as seen |
| `MempoolRuns.NothingLeftIffAnnounced` | src/network/worker.rs:188-235 | for every message, no accepted block has a transaction left pending if and only if their pending transactions are all in announced blocks |
| `MempoolRuns.AnnouncedIff` | src/network/worker.rs:192-236 | in a message without repeats an accepted block is announced if and only if its parent was held or stands before it |
| `MempoolRuns.NothingLeftIff` | src/network/worker.rs:188-235 | in such a message nothing is left pending if and only if each pending transaction of an accepted block that stands before its parent is in one that does not |
| `MempoolRuns.ParentsFirstLeavesNothing` | src/network/worker.rs:188-192 | a message without repeats that lists parents first leaves nothing of its accepted blocks pending |
| `Forecast.OutcomeIsForeseen` | src/network/worker.rs:139-255 | for every message, with orphans, bad blocks and repeats in any order, the blocks held after it and their states are those of a forecast from the message and the states held before, which has no stack, no filtered buffer and no early exit |
| `Forecast.GetsInIff` | src/network/worker.rs:139-255 | a block gets in if and only if it is in the message, was not held, and is in the forecast |
| `Forecast.RequestIsForeseen` | src/network/worker.rs:199-251 | the parents asked for are those of the blocks that the forecast leaves waiting, in order and with repeats |
| `Forecast.NothingLeftIffForeseen` | src/network/worker.rs:188-235 | the condition of `NothingLeftIff` in terms of the message and the start state alone |
| `Examples.AcceptedBlockLeftPending` | src/network/worker.rs:232-235 | a concrete message after which an accepted block's transaction is still pending |
| `NetworkWorker.Worker.HandleNewBlockHashes` | src/network/worker.rs:89-100 | asks for exactly the unknown hashes, in order, and for nothing when none is unknown |
| `NetworkWorker.Worker.HandleGetBlocks` | src/network/worker.rs:113-125 | answers with exactly the known blocks, in the order asked |
| `NetworkWorker.Worker.HandleNewTransactionHashes` | src/network/worker.rs:101-112 | asks for exactly the transactions never seen |
| `NetworkWorker.Worker.HandleGetTransactions` | src/network/worker.rs:126-138 | answers with exactly the pending transactions asked for |
| `NetworkWorker.Worker.HandleTransactions` | src/network/worker.rs:256-269 | the verifying transactions go to the mempool in order and are announced |
| `NetworkWorker.Worker.PassOrphans` | src/network/worker.rs:204-241 | the loop over the buffer, early exits included, is the machine's pass, and shrinks the buffer or leaves buffer and stack size |
| `NetworkWorker.Worker.DrainOrphans` | src/network/worker.rs:200-245 | the loop over the stack is the machine's drain |
| `NetworkWorker.Worker.ProcessBlock` | src/network/worker.rs:146-246 | one turn of the loop over the message is the machine's run to the next block |
| `NetworkWorker.Worker.HandleBlocks` | src/network/worker.rs:139-255 | the method's shared state, replies and announcements are those of the machine's run |
| `NetworkWorker.MissingIsFilter` | src/network/worker.rs:92-96 | a hash is asked for if and only if it was announced and is unknown |
| `Replies.MissingByPositions` | src/network/worker.rs:92-96 | a request has one entry for each place of an unknown hash in the announcement, in order |
| `Replies.HeldByPositions` | src/network/worker.rs:116-121 | an answer has one entry for each place of a known hash in the request, in order |
| `Replies.AnnouncedByPositions` | src/network/worker.rs:256-269 | a Transactions message is announced by the hashes of its verifying transactions, one for each and in order, all of them seen afterwards |
| `Replies.RequestByPositions` | src/network/worker.rs:199-251 | for every Blocks message the reply asks for the parents of the blocks that had to wait, one for each and in order, and for nothing else; there is no reply if and only if none had to wait |
| `Replies.TurnOfBlock` | src/network/worker.rs:146-198 | at its turn in any message a block gets in if it is new, its parent is there and the rules hold on the parent's state; otherwise the held blocks stay as they are |
| `Mining.Miner.SelectTransactions` | src/miner/mod.rs:235-287 | the selection loop with its size limit, skips and evictions, for the given listing of the mempool |
| `Mining.Miner.CleanUp` | src/miner/mod.rs:321-330 | the clean-up loop, its panic included |
| `Mining.Miner.MineOnce` | src/miner/mod.rs:206-334 | one turn of the loop: no state, not found, sent or panicked, with the whole new shared state and channel in each case |
| `Mining.MinerWorker.Deliver` | src/miner/worker.rs:42-71 | a finished block goes in only on the current tip and only once, and only then is it announced and the server told to update |
| `Mining.FilledOk` | src/miner/mod.rs:239-287 | for every listing order the chosen transactions are pending ones, replay to the miner's state, and fit in 4000 bytes |
| `Selection.SelectionIs` | src/miner/mod.rs:239-287 | by positions and replay: the listing is looked at up to its end or the first transaction without room in 4000 bytes; one looked at is taken if and only if it replays after those taken before it; the mempool loses exactly the skipped ones that the eviction test hits |
| `Selection.CleanedIs` | src/miner/mod.rs:322-330 | the clean-up looks at the listing up to a sender without an account and removes exactly the stale ones it looked at |
| `Selection.MinedRootHasProofs` | src/miner/mod.rs:288-304 | a mined block has the header fields it was given, and each of its transactions a proof that leads to its Merkle root |
| `Selection.MinedRootBinds` | src/miner/mod.rs:289-297 | without a collision, blocks mined with equally many transactions share a root if and only if the hashes agree |
| `Mining.ListingExists` | src/miner/mod.rs:239 | every mempool has a listing of its transactions, each once |
| `Mining.CleanedIff` | src/miner/mod.rs:322-330 | the clean-up goes through if and only if every pending sender has an account in the new state |
| `Mining.MinerBlockIsValid` | src/miner/mod.rs:239-305 | the assembled block passes the validator on its parent and ends in the state the miner stores |
| `Mining.MinedBlockAcceptedByPeer` | src/miner/mod.rs:289-316 | any node holding the parent accepts the mined block and stores the miner's state for it |
| `Mining.DeliveryExtendsLongestChain` | src/miner/worker.rs:50-65 | a delivered block that goes in becomes the tip and extends the longest chain by one; otherwise nothing changes |
| `Concurrency.AdvanceHandlerKeeps` | src/network/worker.rs:142-245 | a handler step keeps the invariant of all threads |
| `Concurrency.MinerSealKeeps` | src/miner/mod.rs:206-311 | a block assembled from a stale snapshot is still valid on its parent |
| `Concurrency.MinerPublishKeeps` | src/miner/mod.rs:313-333 | storing the state of an undelivered block and sending it keeps the invariant, beside a running handler |
| `Concurrency.DeliverKeeps` | src/miner/worker.rs:50-65 | delivery keeps the invariant and makes an inserted block the tip, one above the old tip |
| `Concurrency.NextKeeps` | src/network/worker.rs:71-273 | every step of every thread keeps the invariant and only adds blocks and states |
| `Concurrency.LedgerRefinement` | src/network/worker.rs:164-187 | in every reachable state of every interleaving each chain block has its state, which is its branch replayed from the initial offering and sums to 1,000,000, and no handler has failed a lookup |
| `Concurrency.StepsOnlyGrow` | src/blockchain/mod.rs:57-81 | along a run no stored block or state changes or vanishes, and the tip's height never falls |
| `RunHistory.NextInsertsOne` | src/blockchain/mod.rs:57-66 | a step of any thread inserts one block at most, and below a block that is there |
| `RunHistory.TipOfRun` | src/blockchain/mod.rs:76-80 | along a run, whenever any of the blocks that are now the highest was in the chain, the present tip was in it too: the tip is the one inserted first |
| `RunHistory.AnnouncedHashesAreHeld` | src/network/worker.rs:142-254 | for a handler at work there is the moment of the run when it took the chain lock; what it will announce was not in the chain then and is now, and all that came in since is from its message |
| `RunHistory.TransactionsOfRun` | src/miner/mod.rs:58-72 | along a run a transaction once seen stays seen, and once no longer pending it never is again |
| `RunHistory.TakenOnlyBy` | src/miner/mod.rs:68-72 | a step takes a pending transaction away only as the purge of a block that holds it, by the miner's selection, or by its clean-up |
| `RunHistory.PendingOfRun` | src/miner/mod.rs:58-72 | along a run a pending transaction stays, unchanged, until one of these takes it |
| `Turns.HandlerAlone` | src/network/worker.rs:142-254 | left alone, while the miner neither keeps the mempool lock nor has panicked, a handler reaches its end with the outcome of `HandleBlocks`, as a run of the step system |
| `Turns.StepIsNearer` | src/network/worker.rs:146-245 | each step of a handler brings it nearer to its end, whatever happens between its steps |
| `Turns.MinerTurnAlone` | src/miner/mod.rs:206-334 | an uninterrupted miner turn, in each outcome, is a run of the step system |
| `Locks.AsksUpwards` | src/network/worker.rs:142-232 | every lock is asked for above all locks held, in the order blockchain, mempool, block states |
| `Locks.RunKeepsLockInv` | src/miner/mod.rs:206-315 | in every reachable state each lock has at most one holder |
| `Locks.DeadlockFree` | src/api/mod.rs:211-225 | in the lock table, where no thread panics, while a thread waits for a held lock, some thread holding a lock can move |
| `LockSteps.GuardsAreLocks` | src/miner/mod.rs:228-315 | the conditions on the steps of the node are that the lock asked for is free, a poisoned lock counting as held for ever |
| `LockSteps.AdvanceInLocks` | src/network/worker.rs:164-232 | each handler step is a path of its own thread alone in the lock table, through the place where it holds the lock it needs |
| `LockSteps.StepInLocks` | src/miner/mod.rs:206-315 | the same for the steps of all threads |
| `LockSteps.RunIsLockRun` | src/network/worker.rs:142-232 | every run of the step system is traced by one run of the lock table through the places of its states, each step of the system a stretch by the one thread that makes it, through the place where it holds its lock |
| `LockSteps.StatesLockIff` | src/network/worker.rs:164-230 | a handler step takes the lock of the block states if and only if it reads or changes them |
| `LockSteps.Progress` | src/miner/mod.rs:228-334 | until the miner panics, a sealed block can be published, and otherwise a running handler can go on |
| `Sync.ReplyIsInOrder` | src/network/worker.rs:89-125 | the answer to the request for missing blocks lists blocks parents first |
| `Sync.StepOnTrack` | src/network/worker.rs:146-198 | a handler working through blocks another node holds, parents first, never rejects or orphans one |
| `Sync.StaysOnTrack` | src/network/worker.rs:146-198 | and stays so in every interleaving with the other threads of its node |
| `Sync.Synchronised` | src/network/worker.rs:89-198 | after announcement, request, answer and handling, both nodes grown in between, the receiver holds every announced block with the announcer's state |
| `Exchange.NodesSynchronise` | src/network/worker.rs:89-198 | the same for two nodes that run from the start, each in any interleaving of its threads |
| `Exchange.LocksGetFree` | src/miner/mod.rs:228-334 | from any state whose miner has not panicked and is not about to, all locks can become free |
| `Exchange.ExchangeCompletes` | src/network/worker.rs:89-198 | from any such state, also with the chain lock held or a block sealed, there is a run in which a worker handles the answer and the node ends synchronised |
| `Exchange.DoomedStalls` | src/miner/mod.rs:322-330 | once the miner has panicked or is about to, the chain lock is found free only while the chain holds what it held and mined blocks already on their way |
| `Exchange.ExchangeCompletesIff` | src/miner/mod.rs:322-330 | at a node with a live worker, an exchange with a block to bring can be completed if and only if the miner has not panicked and no sealed block meets a pending sender without an account |
| `Examples.DoomIsReachable` | src/miner/mod.rs:322-324 | a concrete run from the start into a state in which the miner is about to panic |
| `SourceNode.SourceLedger` | src/blockchain/mod.rs:18-54 | with the constants of the source, at any moment of any run, each held block but genesis met the difficulty as a number and has the replayed state that sums to 1,000,000 |

## Left out

- SHA-256, Ed25519, bincode and serde: uninterpreted functions under the hypotheses above.
- Sockets, executors, peer handles, connection control and the bounded channels between them: replies and announcements
  are values returned by the handlers.
- HTTP API, command line, logging and address formatting: user interface; the API appears only with its locks.
- The clock, random nonces, sleeping, and how likely or soon a block is found: parameters of a miner turn.
- The miner's control signals (paused, running, shut down): they only decide whether a turn happens; in `Concurrency` a
  turn may start at any time.
- The transaction generator beyond adding a transaction that verifies.
- Ping and Pong: they touch no shared structure.
- `NetworkWorker.Worker.HandleBlocks`, `Mining.Miner.MineOnce`: the methods take their locks as never poisoned; what a
  poisoned lock does to a handler is in `Concurrency` and `Exchange`.
- `Locks.DeadlockFree`: the lock table has no panics; `LockSteps.Progress` and `Exchange.ExchangeCompletesIff` say what
  holds with them.
- `u64` heights and the `u128` timestamp: natural numbers; `BlockTree.HeightBelowBlockCount` bounds the heights.
- Evicted transactions: the tests that decide eviction compare a nonce with a balance (src/miner/mod.rs:257,
  src/miner/mod.rs:326); `Selection` states what they evict as they stand, and nothing is claimed about its sense.
- A full orphan cascade, a check of the header's difficulty field, of the Merkle root of a received block, or of the
  public key against the sender's address: the code performs none of them.
- `Merkle.Soundness`: speaks of proofs of the tree's height, because the check itself does not look at the length;
  `Merkle.ShortProofIff` and `Merkle.LongProofIff` treat the other lengths.
- `MempoolRuns.AnnouncedIff`, `MempoolRuns.NothingLeftIff`: are about messages without repeated blocks; with repeats the
  announcement of a block also depends on which of its siblings replay, and `MempoolRuns.NothingLeftIffAnnounced` holds.
- Decoding of messages: a payload that does not decode ends the worker's thread (src/network/worker.rs:80); the workers
  of the model stay alive.
- `Ledger.NoTransactionTwice`: bounds the transactions of one sender by 2^32, where nonces wrap.
