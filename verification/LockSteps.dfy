// The step system seen through its locks: each step of Concurrency is a run of the lock table of Locks, and while a
// handler runs or a sealed block is in hand, one of the two can go on.
module LockSteps {
  import opened Bytes
  import opened Wrappers
  import opened Hashes
  import opened Ledger
  import opened Blocks
  import opened Mempools
  import opened Acceptance
  import opened JobInvariant
  import opened Mining
  import opened Concurrency
  import opened Locks

  // ----- what a step of a handler touches

  /** The step reads or changes the block states: on other states it does something else. */
  ghost predicate TouchesStates(p: Params, sh: Shared, j: Job)
    requires Running(j)
  {
    exists m :: StatesMatter(p, sh, j, m)
  }

  ghost predicate StatesMatter(p: Params, sh: Shared, j: Job, m: map<H256, Accounts>)
    requires Running(j)
  {
    var r := JobStep(p, sh, j);
    JobStep(p, sh.(states := m), j) != (r.0.(states := m), r.1)
  }

  /** A handler takes the lock of the block states for a step exactly if the step touches them. */
  lemma StatesLockIff(p: Params, sh: Shared, j: Job)
    requires Running(j)
    ensures NeedsStates(p, sh, j) <==> TouchesStates(p, sh, j)
  {
    if NeedsStates(p, sh, j) {
      match j
      case Fetch(d) => LookupMatters(p, sh, j, d.todo[0].Parent());
      case Pass(d, parent, _, _) => LookupMatters(p, sh, j, p.Hash(parent));
      case Store(_, b, _) => StoringMatters(p, sh, j, b);
      case StoreOrphan(_, _, rest, _, _) => StoringMatters(p, sh, j, rest[0]);
    }
  }

  lemma StoringMatters(p: Params, sh: Shared, j: Job, b: Block)
    requires Running(j) && ((j.Store? && b == j.block) || (j.StoreOrphan? && b == j.rest[0]))
    ensures TouchesStates(p, sh, j)
  {
    assert p.Hash(b) in JobStep(p, sh.(states := map[]), j).0.states;
    assert StatesMatter(p, sh, j, map[]);
  }

  lemma LookupMatters(p: Params, sh: Shared, j: Job, h: H256)
    requires Running(j) && NeedsStates(p, sh, j)
    requires (j.Fetch? && h == j.d.todo[0].Parent()) || (j.Pass? && h == p.Hash(j.parent))
    ensures TouchesStates(p, sh, j)
  {
    var m: map<H256, Accounts> := if h in sh.states then map[] else map[h := map[]];
    assert StatesMatter(p, sh, j, m);
  }

  /** A step without the mempool lock goes the same way whatever the mempool, and leaves it. */
  lemma PoolLockCovers(p: Params, sh: Shared, j: Job, pool: Pool)
    requires Running(j) && !NeedsPool(j)
    ensures var r := JobStep(p, sh, j); JobStep(p, sh.(pool := pool), j) == (r.0.(pool := pool), r.1)
  {
  }

  // ----- where the threads of a node stand

  /** A poisoned lock is as good as held for ever by the thread that panicked. */
  function MinerPlace(m: MinerPc): Pc {
    match m
    case Sealed(_, _) => Selects
    case Stopped => Publishes
    case _ => Outside
  }

  /** The network workers, then the miner, the miner-worker and the generator. */
  function Places(s: System): (places: seq<Thread>)
    ensures |places| == |s.workers| + 3
    ensures forall i :: 0 <= i < |s.workers| ==>
              places[i] == Thread(if s.workers[i].Some? then InBlocks else Outside, None)
    ensures places[|s.workers|] == Thread(MinerPlace(s.miner), None)
    ensures places[|s.workers| + 1] == Thread(Outside, None) && places[|s.workers| + 2] == Thread(Outside, None)
  {
    seq(|s.workers|, i requires 0 <= i < |s.workers| =>
          Thread(if s.workers[i].Some? then InBlocks else Outside, None))
    + [Thread(MinerPlace(s.miner), None), Thread(Outside, None), Thread(Outside, None)]
  }

  /** The conditions under which Concurrency lets a step happen are that the lock in question is free. */
  lemma GuardsAreLocks(p: Params, w: iset<Block>, s: System)
    requires WorkersOk(p, w, s)
    ensures Free(Places(s), ChainLock) <==> s.owner.None?
    ensures Free(Places(s), PoolLock) <==> PoolFree(s)
    ensures Free(Places(s), StatesLock) <==> StatesFree(s)
    ensures LockInv(Places(s))
  {
    var places, n := Places(s), |s.workers|;
    if s.owner.Some? {
      assert ChainLock in Held(places[s.owner.value].pc);
    }
    assert places[n].pc == MinerPlace(s.miner);
  }

  // ----- paths of one thread

  ghost predicate StepBy(i: nat, run: seq<seq<Thread>>, k: nat)
    requires k + 1 < |run|
  {
    ThreadStep(run[k], run[k + 1], i)
  }

  /** Thread i alone goes from s to t. */
  ghost predicate PathBetween(i: nat, s: seq<Thread>, t: seq<Thread>, run: seq<seq<Thread>>) {
    && run != [] && run[0] == s && run[|run| - 1] == t
    && (forall k: nat {:trigger StepBy(i, run, k)} :: k + 1 < |run| ==> StepBy(i, run, k))
  }

  ghost predicate Reaches(i: nat, s: seq<Thread>, t: seq<Thread>) {
    exists run :: PathBetween(i, s, t, run)
  }

  lemma PathGlue(i: nat, s: seq<Thread>, t: seq<Thread>, u: seq<Thread>,
                 run: seq<seq<Thread>>, rest: seq<seq<Thread>>)
    requires PathBetween(i, s, t, run) && PathBetween(i, t, u, rest)
    ensures PathBetween(i, s, u, run + rest[1..])
  {
    var whole, n := run + rest[1..], |run|;
    forall k: nat {:trigger StepBy(i, whole, k)} | k + 1 < |whole| ensures StepBy(i, whole, k) {
      if k + 1 < n {
        assert StepBy(i, run, k);
      } else {
        assert StepBy(i, rest, k + 1 - n);
        assert whole[k + 1] == rest[k + 2 - n] && whole[k] == rest[k + 1 - n];
      }
    }
  }

  lemma ReachesOn(i: nat, s: seq<Thread>, t: seq<Thread>, u: seq<Thread>)
    requires Reaches(i, s, t) && Reaches(i, t, u)
    ensures Reaches(i, s, u)
  {
    var run :| PathBetween(i, s, t, run);
    var rest :| PathBetween(i, t, u, rest);
    PathGlue(i, s, t, u, run, rest);
  }

  lemma StaysPut(i: nat, s: seq<Thread>)
    ensures Reaches(i, s, s)
  {
    assert PathBetween(i, s, s, [s]);
  }

  lemma OneLockStep(s: seq<Thread>, t: seq<Thread>, i: nat)
    requires ThreadStep(s, t, i)
    ensures Reaches(i, s, t)
  {
    var run := [s, t];
    assert StepBy(i, run, 0);
    assert PathBetween(i, s, t, run);
  }

  /** Asking for a free lock and getting it. */
  lemma Acquires(s: seq<Thread>, i: nat, next: Pc)
    requires i < |s| && s[i].want.None? && Asks(s[i].pc, next).Some? && Free(s, Asks(s[i].pc, next).value)
    ensures Reaches(i, s, s[i := Thread(next, None)])
  {
    var asking := s[i := Thread(s[i].pc, Some(next))];
    var t := s[i := Thread(next, None)];
    assert Request(s, asking, i, next);
    OneLockStep(s, asking, i);
    assert Free(asking, Asks(s[i].pc, next).value);
    assert asking[i := Thread(next, None)] == t;
    assert Grant(asking, t, i);
    OneLockStep(asking, t, i);
    ReachesOn(i, s, asking, t);
  }

  lemma LetsGo(s: seq<Thread>, i: nat, next: Pc)
    requires i < |s| && s[i].want.None? && Releases(s[i].pc, next)
    ensures Reaches(i, s, s[i := Thread(next, None)])
  {
    var t := s[i := Thread(next, None)];
    assert Release(s, t, i, next);
    OneLockStep(s, t, i);
  }

  /** A path of thread i from s to t, through the given place of its code if there is one. */
  ghost predicate Stretch(i: nat, place: Option<Pc>, s: seq<Thread>, t: seq<Thread>, path: seq<seq<Thread>>) {
    && PathBetween(i, s, t, path)
    && (place.Some? ==> i < |s| && s[i := Thread(place.value, None)] in path)
  }

  ghost predicate Via(i: nat, place: Option<Pc>, s: seq<Thread>, t: seq<Thread>) {
    exists path :: Stretch(i, place, s, t, path)
  }

  lemma GoesVia(i: nat, place: Pc, s: seq<Thread>, t: seq<Thread>)
    requires i < |s|
    requires Reaches(i, s, s[i := Thread(place, None)]) && Reaches(i, s[i := Thread(place, None)], t)
    ensures Via(i, Some(place), s, t)
  {
    var there := s[i := Thread(place, None)];
    var run :| PathBetween(i, s, there, run);
    var rest :| PathBetween(i, there, t, rest);
    var whole := run + rest[1..];
    PathGlue(i, s, there, t, run, rest);
    assert whole[|run| - 1] == there;
    assert Stretch(i, Some(place), s, t, whole);
  }

  lemma GoesStraight(i: nat, s: seq<Thread>, t: seq<Thread>)
    requires Reaches(i, s, t)
    ensures Via(i, None, s, t)
  {
    var run :| PathBetween(i, s, t, run);
    assert Stretch(i, None, s, t, run);
  }

  /** Taking one more lock and giving it back. */
  lemma Visits(s: seq<Thread>, i: nat, place: Pc)
    requires i < |s| && s[i].want.None? && Asks(s[i].pc, place).Some? && Free(s, Asks(s[i].pc, place).value)
    requires Releases(place, s[i].pc)
    ensures Via(i, Some(place), s, s)
  {
    var there := s[i := Thread(place, None)];
    Acquires(s, i, place);
    LetsGo(there, i, s[i].pc);
    assert there[i := Thread(s[i].pc, None)] == s;
    GoesVia(i, place, s, s);
  }

  /** Taking a lock and keeping it. */
  lemma Stays(s: seq<Thread>, i: nat, place: Pc)
    requires i < |s| && s[i].want.None? && Asks(s[i].pc, place).Some? && Free(s, Asks(s[i].pc, place).value)
    ensures Via(i, Some(place), s, s[i := Thread(place, None)])
  {
    Acquires(s, i, place);
    StaysPut(i, s[i := Thread(place, None)]);
    GoesVia(i, place, s, s[i := Thread(place, None)]);
  }

  // ----- who acts, and where in its code

  /** Where the next step of a handler holds the lock it takes, if it takes one. */
  function HandlerPlace(p: Params, sh: Shared, j: Job): Option<Pc> {
    if NeedsPool(j) then Some(BlocksPurges)
    else if NeedsStates(p, sh, j) then Some(if j.Store? || j.StoreOrphan? then BlocksStores else BlocksLooksUp)
    else None
  }

  ghost predicate WorkerActs(p: Params, w: iset<Block>, s: System, s': System, i: nat, place: Option<Pc>) {
    || (place == Some(InBlocks) && exists blocks :: StartHandler(p, w, s, s', i, blocks))
    || (AdvanceHandler(p, s, s', i) && place == HandlerPlace(p, s.shared, s.workers[i].value))
    || (place == None && EndHandler(s, s', i))
  }

  ghost predicate MinerActs(p: Params, w: iset<Block>, s: System, s': System, place: Option<Pc>) {
    || (place == Some(ReadsChain) && MinerChoose(s, s'))
    || (place == Some(ReadsStates) && MinerLoad(s, s'))
    || (place == Some(Selects) && exists order, nonce, timestamp :: MinerSeal(p, w, s, s', order, nonce, timestamp))
    || (place == Some(Publishes) && exists order :: MinerPublish(p, s, s', order))
  }

  /** The step from s to s' is one of thread i, and goes through the given place of its code. */
  ghost predicate Acts(p: Params, w: iset<Block>, s: System, s': System, i: nat, place: Option<Pc>) {
    var n := |s.workers|;
    if i < n then WorkerActs(p, w, s, s', i, place)
    else if i == n then MinerActs(p, w, s, s', place)
    else if i == n + 1 then place == Some(ReadsChain) && DeliverMined(p, s, s')
    else i == n + 2 && place == Some(ReadsPool) && exists txs :: ReceiveTransactions(p, s, s', txs)
  }

  lemma StartInLocks(p: Params, w: iset<Block>, s: System, s': System, i: nat, blocks: seq<Block>)
    requires WorkersOk(p, w, s) && StartHandler(p, w, s, s', i, blocks)
    ensures Via(i, Some(InBlocks), Places(s), Places(s'))
  {
    GuardsAreLocks(p, w, s);
    Stays(Places(s), i, InBlocks);
    assert Places(s') == Places(s)[i := Thread(InBlocks, None)];
  }

  lemma VisitInBlocks(p: Params, w: iset<Block>, s: System, i: nat, place: Pc)
    requires WorkersOk(p, w, s) && i < |s.workers| && s.workers[i].Some?
    requires || (place == BlocksPurges && PoolFree(s))
             || ((place == BlocksStores || place == BlocksLooksUp) && StatesFree(s))
    ensures Via(i, Some(place), Places(s), Places(s))
  {
    GuardsAreLocks(p, w, s);
    Visits(Places(s), i, place);
  }

  /** A handler's step goes through the place in its code where it holds the locks it needs. */
  lemma AdvanceInLocks(p: Params, w: iset<Block>, s: System, s': System, i: nat)
    requires WorkersOk(p, w, s) && AdvanceHandler(p, s, s', i)
    ensures Via(i, HandlerPlace(p, s.shared, s.workers[i].value), Places(s), Places(s'))
  {
    var place := HandlerPlace(p, s.shared, s.workers[i].value);
    assert Places(s') == Places(s);
    if place.Some? {
      VisitInBlocks(p, w, s, i, place.value);
    } else {
      StaysPut(i, Places(s));
      GoesStraight(i, Places(s), Places(s));
    }
  }

  lemma EndInLocks(p: Params, w: iset<Block>, s: System, s': System, i: nat)
    requires WorkersOk(p, w, s) && EndHandler(s, s', i)
    ensures Via(i, None, Places(s), Places(s'))
  {
    LetsGo(Places(s), i, Outside);
    assert Places(s') == Places(s)[i := Thread(Outside, None)];
    GoesStraight(i, Places(s), Places(s'));
  }

  lemma WorkerInLocks(p: Params, w: iset<Block>, s: System, s': System, i: nat, place: Option<Pc>)
    requires WorkersOk(p, w, s) && WorkerActs(p, w, s, s', i, place)
    ensures Via(i, place, Places(s), Places(s'))
  {
    if AdvanceHandler(p, s, s', i) && place == HandlerPlace(p, s.shared, s.workers[i].value) {
      AdvanceInLocks(p, w, s, s', i);
    } else if place == None && EndHandler(s, s', i) {
      EndInLocks(p, w, s, s', i);
    } else {
      var blocks :| StartHandler(p, w, s, s', i, blocks);
      StartInLocks(p, w, s, s', i, blocks);
    }
  }

  lemma ReceiveInLocks(p: Params, w: iset<Block>, s: System, s': System, txs: seq<SignedTransaction>)
    requires WorkersOk(p, w, s) && ReceiveTransactions(p, s, s', txs)
    ensures Via(|s.workers| + 2, Some(ReadsPool), Places(s), Places(s'))
  {
    GuardsAreLocks(p, w, s);
    Visits(Places(s), |s.workers| + 2, ReadsPool);
    assert Places(s') == Places(s);
  }

  lemma DeliverInLocks(p: Params, w: iset<Block>, s: System, s': System)
    requires WorkersOk(p, w, s) && DeliverMined(p, s, s')
    ensures Via(|s.workers| + 1, Some(ReadsChain), Places(s), Places(s'))
  {
    GuardsAreLocks(p, w, s);
    Visits(Places(s), |s.workers| + 1, ReadsChain);
    assert Places(s') == Places(s);
  }

  lemma MinerReadsInLocks(p: Params, w: iset<Block>, s: System, s': System)
    requires WorkersOk(p, w, s)
    ensures MinerChoose(s, s') ==> Via(|s.workers|, Some(ReadsChain), Places(s), Places(s'))
    ensures MinerLoad(s, s') ==> Via(|s.workers|, Some(ReadsStates), Places(s), Places(s'))
  {
    GuardsAreLocks(p, w, s);
    if MinerChoose(s, s') {
      assert Places(s') == Places(s);
      Visits(Places(s), |s.workers|, ReadsChain);
    }
    if MinerLoad(s, s') {
      assert Places(s') == Places(s);
      Visits(Places(s), |s.workers|, ReadsStates);
    }
  }

  lemma SealInLocks(p: Params, w: iset<Block>, s: System, s': System,
                    order: seq<SignedTransaction>, nonce: u32, timestamp: nat)
    requires WorkersOk(p, w, s) && MinerSeal(p, w, s, s', order, nonce, timestamp)
    ensures Via(|s.workers|, Some(Selects), Places(s), Places(s'))
  {
    var n := |s.workers|;
    GuardsAreLocks(p, w, s);
    if s'.miner.Sealed? {
      Stays(Places(s), n, Selects);
      assert Places(s') == Places(s)[n := Thread(Selects, None)];
    } else {
      Visits(Places(s), n, Selects);
      assert Places(s') == Places(s);
    }
  }

  lemma PublishInLocks(p: Params, w: iset<Block>, s: System, s': System, order: seq<SignedTransaction>)
    requires WorkersOk(p, w, s) && MinerPublish(p, s, s', order)
    ensures Via(|s.workers|, Some(Publishes), Places(s), Places(s'))
  {
    var n := |s.workers|;
    GuardsAreLocks(p, w, s);
    var there := Places(s)[n := Thread(Publishes, None)];
    if s'.miner.Stopped? {
      Stays(Places(s), n, Publishes);
      assert Places(s') == there;
    } else {
      var back := there[n := Thread(Selects, None)];
      Acquires(Places(s), n, Publishes);
      LetsGo(there, n, Selects);
      LetsGo(back, n, Outside);
      ReachesOn(n, there, back, back[n := Thread(Outside, None)]);
      assert Places(s') == back[n := Thread(Outside, None)];
      GoesVia(n, Publishes, Places(s), Places(s'));
    }
  }

  lemma MinerInLocks(p: Params, w: iset<Block>, s: System, s': System, place: Option<Pc>)
    requires WorkersOk(p, w, s) && MinerActs(p, w, s, s', place)
    ensures Via(|s.workers|, place, Places(s), Places(s'))
  {
    MinerReadsInLocks(p, w, s, s');
    if place == Some(Selects) {
      var order, nonce, timestamp :| MinerSeal(p, w, s, s', order, nonce, timestamp);
      SealInLocks(p, w, s, s', order, nonce, timestamp);
    } else if place == Some(Publishes) {
      var order :| MinerPublish(p, s, s', order);
      PublishInLocks(p, w, s, s', order);
    }
  }

  // ----- steps and runs

  /** A step of thread i is, seen through the locks, a path of thread i alone through the place in its code. */
  lemma StepInLocks(p: Params, w: iset<Block>, s: System, s': System, i: nat, place: Option<Pc>)
    requires WorkersOk(p, w, s) && Acts(p, w, s, s', i, place)
    ensures Via(i, place, Places(s), Places(s'))
  {
    var n := |s.workers|;
    if i < n {
      WorkerInLocks(p, w, s, s', i, place);
    } else if i == n {
      MinerInLocks(p, w, s, s', place);
    } else if i == n + 1 {
      DeliverInLocks(p, w, s, s');
    } else {
      var txs :| ReceiveTransactions(p, s, s', txs);
      ReceiveInLocks(p, w, s, s', txs);
    }
  }

  /** Every step of the system is the step of some thread. */
  lemma SomeoneActs(p: Params, w: iset<Block>, s: System, s': System) returns (i: nat, place: Option<Pc>)
    requires Next(p, w, s, s')
    ensures Acts(p, w, s, s', i, place)
  {
    var n := |s.workers|;
    if k: nat, blocks :| StartHandler(p, w, s, s', k, blocks) {
      i, place := k, Some(InBlocks);
    } else if k: nat :| AdvanceHandler(p, s, s', k) {
      i, place := k, HandlerPlace(p, s.shared, s.workers[k].value);
    } else if k: nat :| EndHandler(s, s', k) {
      i, place := k, None;
    } else if txs :| ReceiveTransactions(p, s, s', txs) {
      i, place := n + 2, Some(ReadsPool);
    } else if DeliverMined(p, s, s') {
      i, place := n + 1, Some(ReadsChain);
    } else {
      i := n;
      place := MinerActsSomewhere(p, w, s, s');
    }
  }

  lemma MinerActsSomewhere(p: Params, w: iset<Block>, s: System, s': System) returns (place: Option<Pc>)
    requires MinerNext(p, w, s, s') && !DeliverMined(p, s, s')
    ensures MinerActs(p, w, s, s', place)
  {
    if MinerChoose(s, s') {
      place := Some(ReadsChain);
    } else if MinerLoad(s, s') {
      place := Some(ReadsStates);
    } else if order, nonce, timestamp :| MinerSeal(p, w, s, s', order, nonce, timestamp) {
      place := Some(Selects);
    } else {
      place := Some(Publishes);
    }
  }

  /** The step is one of thread i, and the path is what thread i does for it. */
  ghost predicate ActsAlong(p: Params, w: iset<Block>, s: System, s': System, i: nat, place: Option<Pc>,
                            path: seq<seq<Thread>>) {
    Acts(p, w, s, s', i, place) && Stretch(i, place, Places(s), Places(s'), path)
  }

  ghost predicate SomeoneAlong(p: Params, w: iset<Block>, s: System, s': System, path: seq<seq<Thread>>) {
    exists i, place :: ActsAlong(p, w, s, s', i, place, path)
  }

  /** Between its marks j and j + 1 the lock run is the path of the one thread whose step the system makes there. */
  ghost predicate StretchAt(p: Params, w: iset<Block>, run: seq<System>,
                            locks: seq<seq<Thread>>, marks: seq<nat>, j: nat)
    requires j + 1 < |run| && j + 1 < |marks|
  {
    && marks[j] <= marks[j + 1] < |locks|
    && SomeoneAlong(p, w, run[j], run[j + 1], locks[marks[j]..marks[j + 1] + 1])
  }

  /** The lock run traces the first k steps of the run, with a mark where each of them ends. */
  ghost predicate Traces(p: Params, w: iset<Block>, run: seq<System>, k: nat,
                          locks: seq<seq<Thread>>, marks: seq<nat>)
    requires k < |run|
  {
    && |marks| == k + 1 && marks[0] == 0 && LockRun(locks) && locks[0] == Places(run[0])
    && marks[k] == |locks| - 1 && locks[marks[k]] == Places(run[k])
    && forall j: nat {:trigger StretchAt(p, w, run, locks, marks, j)} :: j < k ==> StretchAt(p, w, run, locks, marks, j)
  }

  lemma LockRunOn(i: nat, s: seq<Thread>, t: seq<Thread>, locks: seq<seq<Thread>>, path: seq<seq<Thread>>)
    requires LockRun(locks) && locks[|locks| - 1] == s && PathBetween(i, s, t, path)
    ensures LockRun(locks + path[1..]) && (locks + path[1..])[|locks| + |path| - 2] == t
  {
    var whole, n := locks + path[1..], |locks|;
    forall k: nat {:trigger Stepped(whole, k)} | k + 1 < |whole| ensures Stepped(whole, k) {
      if k + 1 < n {
        assert Stepped(locks, k);
      } else {
        assert StepBy(i, path, k + 1 - n);
        assert whole[k + 1] == path[k + 2 - n] && whole[k] == path[k + 1 - n];
      }
    }
  }

  lemma StretchKept(p: Params, w: iset<Block>, run: seq<System>, locks: seq<seq<Thread>>, marks: seq<nat>,
                    more: seq<seq<Thread>>, mark: nat, j: nat)
    requires j + 1 < |run| && j + 1 < |marks| && StretchAt(p, w, run, locks, marks, j)
    ensures StretchAt(p, w, run, locks + more, marks + [mark], j)
  {
    var marks', locks' := marks + [mark], locks + more;
    assert marks'[j] == marks[j] && marks'[j + 1] == marks[j + 1];
    assert locks'[marks[j]..marks[j + 1] + 1] == locks[marks[j]..marks[j + 1] + 1];
  }

  lemma StretchAdded(p: Params, w: iset<Block>, run: seq<System>, locks: seq<seq<Thread>>, marks: seq<nat>,
                     path: seq<seq<Thread>>, i: nat, place: Option<Pc>, k: nat)
    requires k + 1 < |run| && |marks| == k + 1 && locks != [] && marks[k] == |locks| - 1
    requires locks[|locks| - 1] == Places(run[k]) && ActsAlong(p, w, run[k], run[k + 1], i, place, path)
    ensures StretchAt(p, w, run, locks + path[1..], marks + [|locks| + |path| - 2], k)
  {
    var locks', marks' := locks + path[1..], marks + [|locks| + |path| - 2];
    assert SomeoneAlong(p, w, run[k], run[k + 1], path);
    assert locks'[marks'[k]..marks'[k + 1] + 1] == path;
  }

  lemma TracesOn(p: Params, w: iset<Block>, run: seq<System>, k: nat, locks: seq<seq<Thread>>, marks: seq<nat>,
                  path: seq<seq<Thread>>, i: nat, place: Option<Pc>)
    requires k + 1 < |run| && Traces(p, w, run, k, locks, marks)
    requires ActsAlong(p, w, run[k], run[k + 1], i, place, path)
    ensures Traces(p, w, run, k + 1, locks + path[1..], marks + [|locks| + |path| - 2])
  {
    var locks', marks' := locks + path[1..], marks + [|locks| + |path| - 2];
    LockRunOn(i, Places(run[k]), Places(run[k + 1]), locks, path);
    forall j: nat {:trigger StretchAt(p, w, run, locks', marks', j)} | j < k + 1
      ensures StretchAt(p, w, run, locks', marks', j)
    {
      if j < k {
        StretchKept(p, w, run, locks, marks, path[1..], |locks| + |path| - 2, j);
      } else {
        StretchAdded(p, w, run, locks, marks, path, i, place, k);
      }
    }
  }

  lemma ActingThread(p: Params, w: iset<Block>, run: seq<System>, k: nat)
    returns (i: nat, place: Option<Pc>, path: seq<seq<Thread>>)
    requires Steps(p, w, run) && InvAlong(p, w, run) && k + 1 < |run|
    ensures ActsAlong(p, w, run[k], run[k + 1], i, place, path)
  {
    assert SystemInv(p, w, run[k]) && StepFrom(p, w, run, k);
    i, place := SomeoneActs(p, w, run[k], run[k + 1]);
    StepInLocks(p, w, run[k], run[k + 1], i, place);
    path :| Stretch(i, place, Places(run[k]), Places(run[k + 1]), path);
  }

  lemma {:induction false} RunTraced(p: Params, w: iset<Block>, run: seq<System>, k: nat)
    returns (locks: seq<seq<Thread>>, marks: seq<nat>)
    requires Steps(p, w, run) && InvAlong(p, w, run) && k < |run|
    requires forall i :: 0 <= i < |Places(run[0])| ==> Places(run[0])[i] == Thread(Outside, None)
    ensures Traces(p, w, run, k, locks, marks)
    decreases k
  {
    if k == 0 {
      locks, marks := [Places(run[0])], [0];
    } else {
      locks, marks := RunTraced(p, w, run, k - 1);
      var i, place, path := ActingThread(p, w, run, k - 1);
      TracesOn(p, w, run, k - 1, locks, marks, path, i, place);
      locks, marks := locks + path[1..], marks + [|locks| + |path| - 2];
    }
  }

  /**
   Every run of the step system is traced by a run of the lock table through the places of its states, in which each
   step of the system is a stretch of steps by the one thread that makes it, through the place where it holds the lock
   it needs.
   */
  lemma RunIsLockRun(p: Params, w: iset<Block>, n: nat, run: seq<System>)
    returns (locks: seq<seq<Thread>>, marks: seq<nat>)
    requires Hypotheses(p, w) && IsRun(p, w, n, run)
    ensures Traces(p, w, run, |run| - 1, locks, marks)
  {
    InitialOk(p, w, n);
    StepsKeepInvAlong(p, w, run);
    locks, marks := RunTraced(p, w, run, |run| - 1);
  }

  // ----- progress

  ghost predicate HandlerCanGo(p: Params, s: System) {
    s.owner.Some? && exists s' :: AdvanceHandler(p, s, s', s.owner.value) || EndHandler(s, s', s.owner.value)
  }

  ghost predicate MinerCanPublish(p: Params, s: System) {
    exists s', order :: MinerPublish(p, s, s', order)
  }

  lemma SealedCanPublish(p: Params, s: System)
    requires s.miner.Sealed? && PoolOk(p, s.shared.pool)
    ensures MinerCanPublish(p, s)
  {
    var order := ListingExists(p, s.shared.pool);
    var (pool, ok) := Cleaned(p, order, s.miner.state, s.shared.pool);
    var s' := s.(shared := Published(p, s.shared, s.miner.block, s.miner.state).(pool := pool),
                 miner := if ok then Idle else Stopped,
                 channel := if ok then s.channel + [s.miner.block] else s.channel);
    assert MinerPublish(p, s, s', order);
  }

  lemma HandlerGoes(p: Params, w: iset<Block>, s: System)
    requires SystemInv(p, w, s) && s.owner.Some?
    requires NeedsPool(s.workers[s.owner.value].value) ==> PoolFree(s)
    requires NeedsStates(p, s.shared, s.workers[s.owner.value].value) ==> StatesFree(s)
    ensures HandlerCanGo(p, s)
  {
    var i := s.owner.value;
    var j := s.workers[i].value;
    assert JobOk(p, w, s.shared, j);
    if Running(j) {
      var (sh', j') := JobStep(p, s.shared, j);
      var s' := s.(shared := sh', workers := s.workers[i := Some(j')]);
      assert AdvanceHandler(p, s, s', i);
    } else {
      var s' := s.(workers := s.workers[i := None], owner := None);
      assert EndHandler(s, s', i);
    }
  }

  /** As long as the miner has not panicked, a running handler or the miner with its sealed block can go on. */
  lemma Progress(p: Params, w: iset<Block>, s: System)
    requires SystemInv(p, w, s) && !s.miner.Stopped? && (s.owner.Some? || s.miner.Sealed?)
    ensures if s.miner.Sealed? then MinerCanPublish(p, s) else HandlerCanGo(p, s)
  {
    if s.miner.Sealed? {
      SealedCanPublish(p, s);
    } else {
      HandlerGoes(p, w, s);
    }
  }
}
