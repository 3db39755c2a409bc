// The lock discipline of all threads: the order blockchain, mempool, block states, and what follows from it.
module Locks {
  import opened Wrappers

  datatype Lock = ChainLock | PoolLock | StatesLock

  function Rank(l: Lock): nat {
    match l
    case ChainLock => 0
    case PoolLock => 1
    case StatesLock => 2
  }

  /** Where a thread stands between two lock operations. */
  datatype Pc =
    | Outside        // no lock
    | ReadsChain     // network/worker.rs:91,115; miner/mod.rs:206; miner/worker.rs:50; api/mod.rs:145,151
    | ReadsPool      // network/worker.rs:103,128,258; generator/generator.rs:144
    | ReadsStates    // miner/mod.rs:213; generator/generator.rs:89
    | InBlocks       // network/worker.rs:142, kept to the end of the message
    | BlocksLooksUp  // network/worker.rs:164,208
    | BlocksStores   // network/worker.rs:186,230
    | BlocksPurges   // network/worker.rs:188,232
    | Selects        // miner/mod.rs:228, kept to the end of the turn
    | Publishes      // miner/mod.rs:315
    | InApiState     // api/mod.rs:211
    | ApiLooksUp     // api/mod.rs:225

  function Held(pc: Pc): set<Lock> {
    match pc
    case Outside => {}
    case ReadsChain => {ChainLock}
    case ReadsPool => {PoolLock}
    case ReadsStates => {StatesLock}
    case InBlocks => {ChainLock}
    case BlocksLooksUp => {ChainLock, StatesLock}
    case BlocksStores => {ChainLock, StatesLock}
    case BlocksPurges => {ChainLock, PoolLock}
    case Selects => {PoolLock}
    case Publishes => {PoolLock, StatesLock}
    case InApiState => {ChainLock}
    case ApiLooksUp => {ChainLock, StatesLock}
  }

  /** The lock that a thread asks for at pc in order to get to next. */
  function Asks(pc: Pc, next: Pc): Option<Lock> {
    match (pc, next)
    case (Outside, ReadsChain) => Some(ChainLock)
    case (Outside, ReadsPool) => Some(PoolLock)
    case (Outside, ReadsStates) => Some(StatesLock)
    case (Outside, InBlocks) => Some(ChainLock)
    case (InBlocks, BlocksLooksUp) => Some(StatesLock)
    case (InBlocks, BlocksStores) => Some(StatesLock)
    case (InBlocks, BlocksPurges) => Some(PoolLock)
    case (Outside, Selects) => Some(PoolLock)
    case (Selects, Publishes) => Some(StatesLock)
    case (Outside, InApiState) => Some(ChainLock)
    case (InApiState, ApiLooksUp) => Some(StatesLock)
    case _ => None
  }

  /** Where a thread gets when a guard goes out of scope. */
  predicate Releases(pc: Pc, next: Pc) {
    match pc
    case Outside => false
    case BlocksLooksUp => next == InBlocks
    case BlocksStores => next == InBlocks
    case BlocksPurges => next == InBlocks
    case Publishes => next == Selects
    case ApiLooksUp => next == InApiState
    case _ => next == Outside
  }

  /** A thread at a place in its code, perhaps blocked on the way to the next place. */
  datatype Thread = Thread(pc: Pc, want: Option<Pc>)

  ghost predicate Free(s: seq<Thread>, l: Lock) {
    forall i :: 0 <= i < |s| ==> l !in Held(s[i].pc)
  }

  ghost predicate Request(s: seq<Thread>, s': seq<Thread>, i: nat, next: Pc) {
    && i < |s| && s[i].want.None? && Asks(s[i].pc, next).Some?
    && s' == s[i := Thread(s[i].pc, Some(next))]
  }

  ghost predicate Grant(s: seq<Thread>, s': seq<Thread>, i: nat) {
    && i < |s| && s[i].want.Some? && Asks(s[i].pc, s[i].want.value).Some?
    && Free(s, Asks(s[i].pc, s[i].want.value).value)
    && s' == s[i := Thread(s[i].want.value, None)]
  }

  ghost predicate Release(s: seq<Thread>, s': seq<Thread>, i: nat, next: Pc) {
    i < |s| && s[i].want.None? && Releases(s[i].pc, next) && s' == s[i := Thread(next, None)]
  }

  ghost predicate ThreadStep(s: seq<Thread>, s': seq<Thread>, i: nat) {
    Grant(s, s', i) || exists next :: Request(s, s', i, next) || Release(s, s', i, next)
  }

  // ----- the discipline

  /** A lock asked for ranks above every lock held, and getting it adds just that lock. */
  lemma AsksUpwards(pc: Pc, next: Pc)
    requires Asks(pc, next).Some?
    ensures var l := Asks(pc, next).value;
            && (forall m :: m in Held(pc) ==> Rank(m) < Rank(l))
            && Held(next) == Held(pc) + {l}
  {
  }

  lemma ReleasesDown(pc: Pc, next: Pc)
    requires Releases(pc, next)
    ensures Held(next) < Held(pc)
  {
    assert forall l: Lock :: l in Held(next) ==> l in Held(pc);
    var dropped := if pc == BlocksPurges then PoolLock
                   else if StatesLock in Held(pc) then StatesLock
                   else if ChainLock in Held(pc) then ChainLock
                   else PoolLock;
    assert dropped in Held(pc) && dropped !in Held(next);
  }

  /** At most one thread holds a lock, and a blocked thread waits for a lock its code asks for. */
  ghost predicate LockInv(s: seq<Thread>) {
    && (forall i, j :: 0 <= i < j < |s| ==> Held(s[i].pc) !! Held(s[j].pc))
    && (forall i :: 0 <= i < |s| && s[i].want.Some? ==> Asks(s[i].pc, s[i].want.value).Some?)
  }

  lemma StepKeepsLockInv(s: seq<Thread>, s': seq<Thread>, i: nat)
    requires LockInv(s) && ThreadStep(s, s', i)
    ensures LockInv(s')
  {
    if Grant(s, s', i) {
      AsksUpwards(s[i].pc, s[i].want.value);
    } else {
      var next :| Request(s, s', i, next) || Release(s, s', i, next);
      if Release(s, s', i, next) {
        ReleasesDown(s[i].pc, next);
      }
    }
  }

  /** A thread that holds a lock and is not blocked has a next step. */
  lemma HolderHasNext(s: seq<Thread>, j: nat)
    requires j < |s| && s[j].want.None? && Held(s[j].pc) != {}
    ensures exists s' :: ThreadStep(s, s', j)
  {
    var next := match s[j].pc
      case BlocksLooksUp => InBlocks
      case BlocksStores => InBlocks
      case BlocksPurges => InBlocks
      case Publishes => Selects
      case ApiLooksUp => InApiState
      case _ => Outside;
    assert Releases(s[j].pc, next);
    var s' := s[j := Thread(next, None)];
    assert Release(s, s', j, next);
    assert ThreadStep(s, s', j);
  }

  ghost predicate HolderMoves(s: seq<Thread>, j: nat) {
    j < |s| && Held(s[j].pc) != {} && exists s' :: ThreadStep(s, s', j)
  }

  /** Some holder of a lock ranked at least as high as a held lock can move. */
  lemma {:induction false} SomeHolderMoves(s: seq<Thread>, l: Lock) returns (j: nat)
    requires LockInv(s) && !Free(s, l)
    ensures HolderMoves(s, j)
    decreases 2 - Rank(l)
  {
    j :| j < |s| && l in Held(s[j].pc);
    if s[j].want.None? {
      HolderHasNext(s, j);
    } else {
      var next := s[j].want.value;
      var wanted := Asks(s[j].pc, next).value;
      AsksUpwards(s[j].pc, next);
      if Free(s, wanted) {
        var s' := s[j := Thread(next, None)];
        assert Grant(s, s', j);
        assert ThreadStep(s, s', j);
      } else {
        j := SomeHolderMoves(s, wanted);
      }
    }
  }

  ghost predicate LockRun(run: seq<seq<Thread>>) {
    && run != [] && (forall i :: 0 <= i < |run[0]| ==> run[0][i] == Thread(Outside, None))
    && (forall k: nat {:trigger Stepped(run, k)} :: k + 1 < |run| ==> Stepped(run, k))
  }

  ghost predicate SomeStep(s: seq<Thread>, s': seq<Thread>) {
    exists i :: ThreadStep(s, s', i)
  }

  ghost predicate Stepped(run: seq<seq<Thread>>, k: nat)
    requires k + 1 < |run|
  {
    SomeStep(run[k], run[k + 1])
  }

  lemma {:induction false} RunKeepsLockInv(run: seq<seq<Thread>>, k: nat)
    requires LockRun(run) && k < |run|
    ensures LockInv(run[k])
    decreases k
  {
    if k > 0 {
      RunKeepsLockInv(run, k - 1);
      assert Stepped(run, k - 1);
      var i :| ThreadStep(run[k - 1], run[k], i);
      StepKeepsLockInv(run[k - 1], run[k], i);
    }
  }

  /** In every reachable state a lock has one holder at most, and while any thread waits for a held lock, some
      thread that holds a lock can move: there is no deadlock. */
  lemma DeadlockFree(run: seq<seq<Thread>>, k: nat, i: nat)
    requires LockRun(run) && k < |run| && i < |run[k]|
    requires run[k][i].want.Some? && Asks(run[k][i].pc, run[k][i].want.value).Some?
    requires !Free(run[k], Asks(run[k][i].pc, run[k][i].want.value).value)
    ensures LockInv(run[k]) && exists j :: HolderMoves(run[k], j)
  {
    RunKeepsLockInv(run, k);
    var j := SomeHolderMoves(run[k], Asks(run[k][i].pc, run[k][i].want.value).value);
  }
}
