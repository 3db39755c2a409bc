// Two nodes: one announces block hashes, the other asks for the missing ones, receives the blocks and handles
// them while other threads of its node go on.
module Sync {
  import opened Wrappers
  import opened Hashes
  import opened Ledger
  import opened Blocks
  import opened BlockTree
  import opened Acceptance
  import opened NodeInvariant
  import opened JobInvariant
  import opened NetworkWorker
  import opened Concurrency

  /** Each block names genesis' place, a known hash or an earlier block of the list as its parent. */
  ghost predicate ParentsKnown(p: Params, known: set<H256>, todo: seq<Block>)
    decreases |todo|
  {
    todo != [] ==>
      && (todo[0] == p.genesis || todo[0].Parent() in known)
      && ParentsKnown(p, known + {p.Hash(todo[0])}, todo[1..])
  }

  lemma {:induction false} MoreKnown(p: Params, known: set<H256>, known': set<H256>, todo: seq<Block>)
    requires ParentsKnown(p, known, todo) && known <= known'
    ensures ParentsKnown(p, known', todo)
    decreases |todo|
  {
    if todo != [] {
      MoreKnown(p, known + {p.Hash(todo[0])}, known' + {p.Hash(todo[0])}, todo[1..]);
    }
  }

  ghost predicate HeldBy(p: Params, a: Shared, b: Block) {
    p.Hash(b) in a.chain.blocks && a.chain.blocks[p.Hash(b)] == b
  }

  /** Every block of the message is in the chain, still to come, or in hand. */
  ghost predicate Handled(p: Params, sh: Shared, d: Desk, hand: set<Block>) {
    forall b :: b in d.msg ==> p.Hash(b) in sh.chain.blocks || b in d.todo || b in hand
  }

  /** A handler working through blocks that node a holds, sent parents first: no orphan, no rejection. */
  ghost predicate OnTrack(p: Params, a: Shared, sh: Shared, j: Job) {
    var d := j.d;
    && (forall b :: b in d.todo ==> HeldBy(p, a, b))
    && d.orphans == []
    && match j
       case Store(_, b, _) =>
         ParentsKnown(p, sh.chain.blocks.Keys + {p.Hash(b)}, d.todo) && Handled(p, sh, d, {b})
       case Fetch(_) => ParentsKnown(p, sh.chain.blocks.Keys, d.todo) && Handled(p, sh, d, {})
       case Purge(_, _) => ParentsKnown(p, sh.chain.blocks.Keys, d.todo) && Handled(p, sh, d, {})
       case Drain(_) => ParentsKnown(p, sh.chain.blocks.Keys, d.todo) && Handled(p, sh, d, {})
       case Pass(_, _, rest, keep) =>
         ParentsKnown(p, sh.chain.blocks.Keys, d.todo) && Handled(p, sh, d, {}) && rest == [] && keep == []
       case _ => false
  }

  /** A block that another node holds is stored here as soon as its parent is here. */
  lemma HeldBlockReplays(p: Params, w: iset<Block>, a: Shared, sh: Shared, b: Block)
    requires Hypotheses(p, w) && NodeInv(p, w, a) && NodeInv(p, w, sh) && HeldBy(p, a, b)
    requires b != p.genesis && b.Parent() in sh.chain.blocks
    ensures Screened(p, b) && b.Parent() in sh.states
    ensures Replay(sh.states[b.Parent()], b.transactions).Some?
  {
    assert ChainEntryOk(p, w, a, p.Hash(b)) && Placed(p, a.chain, p.Hash(b));
    if p.Hash(b) == p.GenesisHash() {
      SameHashSameBlock(p, w, b, p.genesis);
    }
    assert StateEntryOk(p, a, b);
    StatesAgree(p, w, a, sh, b.Parent());
  }

  lemma FetchOnTrack(p: Params, w: iset<Block>, a: Shared, sh: Shared, d: Desk)
    requires Hypotheses(p, w) && NodeInv(p, w, a) && NodeInv(p, w, sh) && d.todo != []
    requires OnTrack(p, a, sh, Fetch(d))
    ensures OnTrack(p, a, sh, JobStep(p, sh, Fetch(d)).1)
  {
    var b, d' := d.todo[0], d.(todo := d.todo[1..]);
    assert b in d.todo && HeldBy(p, a, b);
    assert forall c :: c in d.todo <==> c == b || c in d'.todo;
    if p.Hash(b) in sh.chain.blocks {
      assert sh.chain.blocks.Keys + {p.Hash(b)} == sh.chain.blocks.Keys;
    } else {
      assert b != p.genesis;
      HeldBlockReplays(p, w, a, sh, b);
    }
  }

  lemma StoredOnTrack(p: Params, a: Shared, sh: Shared, sh': Shared, d: Desk, b: Block, state: Accounts)
    requires OnTrack(p, a, sh, Store(d, b, state)) && sh'.chain.blocks == sh.chain.blocks[p.Hash(b) := b]
    ensures OnTrack(p, a, sh', Purge(d, b))
  {
    assert sh'.chain.blocks.Keys == sh.chain.blocks.Keys + {p.Hash(b)};
  }

  lemma StoreOnTrack(p: Params, w: iset<Block>, a: Shared, sh: Shared, j: Job)
    requires Hypotheses(p, w) && NodeInv(p, w, sh) && JobOk(p, w, sh, j) && j.Store? && OnTrack(p, a, sh, j)
    ensures OnTrack(p, a, JobStep(p, sh, j).0, JobStep(p, sh, j).1)
  {
    AcceptKeeps(p, w, sh, j.block, j.state);
    StoredOnTrack(p, a, sh, JobStep(p, sh, j).0, j.d, j.block, j.state);
  }

  lemma StepOnTrack(p: Params, w: iset<Block>, a: Shared, sh: Shared, j: Job)
    requires Hypotheses(p, w) && NodeInv(p, w, a) && NodeInv(p, w, sh) && JobOk(p, w, sh, j)
    requires Running(j) && OnTrack(p, a, sh, j)
    ensures OnTrack(p, a, JobStep(p, sh, j).0, JobStep(p, sh, j).1)
  {
    match j
    case Fetch(d) => FetchOnTrack(p, w, a, sh, d);
    case Store(_, _, _) => StoreOnTrack(p, w, a, sh, j);
    case _ =>
  }

  // ----- in every interleaving

  /** While worker i handles a message, a step of the system is a step of its handler or leaves it and the chain. */
  lemma OtherStepsSpareHandler(p: Params, w: iset<Block>, s: System, s': System, i: nat)
    requires SystemInv(p, w, s) && Next(p, w, s, s')
    requires Busy(s, i) && Busy(s', i)
    ensures AdvanceHandler(p, s, s', i) || (s'.workers[i] == s.workers[i] && s'.shared.chain == s.shared.chain)
  {
    assert s.owner == Some(i);
  }

  ghost predicate Busy(s: System, i: nat) {
    i < |s.workers| && s.workers[i].Some?
  }

  ghost predicate Handling(run: seq<System>, i: nat) {
    forall k: nat {:trigger Busy(run[k], i)} :: k < |run| ==> Busy(run[k], i)
  }

  /** Worker i handles the given message and is on track. */
  ghost predicate BusyOnTrack(p: Params, a: Shared, msg: seq<Block>, s: System, i: nat) {
    Busy(s, i) && s.workers[i].value.d.msg == msg && OnTrack(p, a, s.shared, s.workers[i].value)
  }

  lemma AdvanceOnTrack(p: Params, w: iset<Block>, a: Shared, sh: Shared, j: Job)
    requires Hypotheses(p, w) && NodeInv(p, w, a) && NodeInv(p, w, sh) && JobOk(p, w, sh, j)
    requires Running(j) && OnTrack(p, a, sh, j)
    ensures var (sh', j') := JobStep(p, sh, j); OnTrack(p, a, sh', j') && j'.d.msg == j.d.msg
  {
    JobStepKeeps(p, w, sh, j);
    StepOnTrack(p, w, a, sh, j);
  }

  lemma NextOnTrack(p: Params, w: iset<Block>, a: Shared, msg: seq<Block>, s: System, s': System, i: nat)
    requires Hypotheses(p, w) && NodeInv(p, w, a) && SystemInv(p, w, s) && Next(p, w, s, s')
    requires BusyOnTrack(p, a, msg, s, i) && Busy(s', i)
    ensures BusyOnTrack(p, a, msg, s', i)
  {
    OtherStepsSpareHandler(p, w, s, s', i);
    if AdvanceHandler(p, s, s', i) {
      AdvanceOnTrack(p, w, a, s.shared, s.workers[i].value);
    } else {
      SameChainOnTrack(p, a, s.shared, s'.shared, s.workers[i].value);
    }
  }

  lemma SameChainOnTrack(p: Params, a: Shared, sh: Shared, sh': Shared, j: Job)
    requires OnTrack(p, a, sh, j) && sh'.chain == sh.chain
    ensures OnTrack(p, a, sh', j)
  {
  }

  lemma {:induction false} StaysOnTrack(p: Params, w: iset<Block>, a: Shared, msg: seq<Block>,
                                        run: seq<System>, i: nat, k: nat)
    requires Hypotheses(p, w) && NodeInv(p, w, a)
    requires Steps(p, w, run) && k < |run| && InvAlong(p, w, run) && Handling(run, i)
    requires BusyOnTrack(p, a, msg, run[0], i)
    ensures BusyOnTrack(p, a, msg, run[k], i)
    decreases k
  {
    if k > 0 {
      StaysOnTrack(p, w, a, msg, run, i, k - 1);
      OneMoreOnTrack(p, w, a, msg, run, i, k - 1);
    }
  }

  lemma OneMoreOnTrack(p: Params, w: iset<Block>, a: Shared, msg: seq<Block>, run: seq<System>, i: nat, k: nat)
    requires Hypotheses(p, w) && NodeInv(p, w, a)
    requires Steps(p, w, run) && k + 1 < |run| && InvAlong(p, w, run) && Handling(run, i)
    requires BusyOnTrack(p, a, msg, run[k], i)
    ensures BusyOnTrack(p, a, msg, run[k + 1], i)
  {
    assert StepFrom(p, w, run, k) && SystemInv(p, w, run[k]) && Busy(run[k + 1], i);
    NextOnTrack(p, w, a, msg, run[k], run[k + 1], i);
  }

  // ----- the exchange

  /** The announced hashes are held by a, each with its parent known or announced before. */
  ghost predicate Announcement(p: Params, a: Shared, known: set<H256>, hashes: seq<H256>)
    decreases |hashes|
  {
    hashes != [] ==>
      && hashes[0] in a.chain.blocks
      && (hashes[0] == p.GenesisHash() || a.chain.blocks[hashes[0]].Parent() in known)
      && Announcement(p, a, known + {hashes[0]}, hashes[1..])
  }

  /** What a answers to the request of b is a list of blocks that b can take in order. */
  lemma {:induction false} ReplyIsInOrder(p: Params, w: iset<Block>, a: Shared, a': Shared, b: Shared,
                                          known: set<H256>, known': set<H256>, hashes: seq<H256>)
    requires NodeInv(p, w, a) && NodeInv(p, w, a') && Grows(a, a')
    requires Announcement(p, a, known, hashes) && known <= known' && b.chain.blocks.Keys <= known'
    ensures var sent := Held(a'.chain.blocks, Missing(b.chain.blocks, hashes));
            && ParentsKnown(p, known', sent)
            && (forall c :: c in sent ==> c in w && HeldBy(p, a', c))
            && (forall h :: h in hashes ==> h in b.chain.blocks || (h in a'.chain.blocks && a'.chain.blocks[h] in sent))
    decreases |hashes|
  {
    if hashes != [] {
      var h, rest := hashes[0], hashes[1..];
      assert forall g :: g in hashes <==> g == h || g in rest;
      assert Placed(p, a'.chain, h) && ChainEntryOk(p, w, a', h);
      if h in b.chain.blocks {
        ReplyIsInOrder(p, w, a, a', b, known + {h}, known', rest);
      } else {
        ReplyIsInOrder(p, w, a, a', b, known + {h}, known' + {h}, rest);
        var tail := Held(a'.chain.blocks, Missing(b.chain.blocks, rest));
        HeldCons(a'.chain.blocks, h, Missing(b.chain.blocks, rest));
        assert ([a'.chain.blocks[h]] + tail)[1..] == tail;
      }
    }
  }

  lemma HeldCons<V>(m: map<H256, V>, h: H256, hashes: seq<H256>)
    requires h in m
    ensures Held(m, [h] + hashes) == [m[h]] + Held(m, hashes)
  {
    assert ([h] + hashes)[1..] == hashes;
  }

  lemma OpeningOnTrack(p: Params, a: Shared, sh: Shared, sent: seq<Block>)
    requires ParentsKnown(p, sh.chain.blocks.Keys, sent) && forall c :: c in sent ==> HeldBy(p, a, c)
    ensures OnTrack(p, a, sh, Opening(sh, sent))
  {
  }

  /** The message that answers b's request has been handled: b's node has every announced hash. */
  lemma HandledToTheEnd(p: Params, w: iset<Block>, a': Shared, b: Shared, sent: seq<Block>,
                        hashes: seq<H256>, sh: Shared, j: Job)
    requires OnTrack(p, a', sh, j) && AtHead(j) && j.d.todo == [] && j.d.msg == sent
    requires MapGrows(b.chain.blocks, sh.chain.blocks) && WellFormed(p, a'.chain)
    requires Covers(a', b, sent, hashes)
    ensures forall h :: h in hashes ==> h in sh.chain.blocks
  {
    EndOnTrack(p, a', sh, j);
    forall h | h in hashes && h !in b.chain.blocks ensures h in sh.chain.blocks {
      assert a'.chain.blocks[h] in sent;
      assert Placed(p, a'.chain, h);
    }
  }

  /** The two nodes then have the same block and the same state under every announced hash. */
  lemma SameEntries(p: Params, w: iset<Block>, a: Shared, sh: Shared, known: set<H256>, hashes: seq<H256>)
    requires Hypotheses(p, w) && NodeInv(p, w, a) && NodeInv(p, w, sh)
    requires Announcement(p, a, known, hashes) && forall h :: h in hashes ==> h in sh.chain.blocks
    ensures forall h :: h in hashes ==> SameEntry(a, sh, h)
  {
    forall h | h in hashes ensures SameEntry(a, sh, h) {
      AnnouncedIsHeld(p, a, known, hashes, h);
      StatesAgree(p, w, a, sh, h);
    }
  }

  ghost predicate SameEntry(a: Shared, b: Shared, h: H256) {
    && h in a.chain.blocks && h in b.chain.blocks && b.chain.blocks[h] == a.chain.blocks[h]
    && h in a.states && h in b.states && b.states[h] == a.states[h]
  }

  lemma SynchronisedAlong(p: Params, w: iset<Block>, a: Shared, a': Shared, b: Shared,
                          hashes: seq<H256>, run: seq<System>, i: nat)
    requires Hypotheses(p, w) && NodeInv(p, w, a) && NodeInv(p, w, a') && Grows(a, a')
    requires Announcement(p, a, b.chain.blocks.Keys, hashes)
    requires run != [] && Steps(p, w, run) && InvAlong(p, w, run) && Handling(run, i)
    requires Grows(b, run[0].shared)
    requires Busy(run[0], i)
          && run[0].workers[i].value == Opening(run[0].shared, Held(a'.chain.blocks, Missing(b.chain.blocks, hashes)))
    requires var last := run[|run| - 1];
             Busy(last, i) && AtHead(last.workers[i].value) && last.workers[i].value.d.todo == []
    ensures forall h :: h in hashes ==> SameEntry(a, run[|run| - 1].shared, h)
  {
    var sent, n := Held(a'.chain.blocks, Missing(b.chain.blocks, hashes)), |run| - 1;
    ReplyOnTrack(p, w, a, a', b, run[0].shared, hashes);
    StaysOnTrack(p, w, a', sent, run, i, n);
    GrowAlong(p, w, run, n);
    GrowsTwice(b, run[0].shared, run[n].shared);
    assert SystemInv(p, w, run[n]);
    EndOfExchange(p, w, a, a', b, sent, hashes, run[n].shared, run[n].workers[i].value);
  }

  lemma ReplyOnTrack(p: Params, w: iset<Block>, a: Shared, a': Shared, b: Shared, sh: Shared, hashes: seq<H256>)
    requires NodeInv(p, w, a) && NodeInv(p, w, a') && Grows(a, a') && Grows(b, sh)
    requires Announcement(p, a, b.chain.blocks.Keys, hashes)
    ensures var sent := Held(a'.chain.blocks, Missing(b.chain.blocks, hashes));
            && OnTrack(p, a', sh, Opening(sh, sent)) && Opening(sh, sent).d.msg == sent
            && Covers(a', b, sent, hashes)
  {
    var sent := Held(a'.chain.blocks, Missing(b.chain.blocks, hashes));
    ReplyIsInOrder(p, w, a, a', b, b.chain.blocks.Keys, sh.chain.blocks.Keys, hashes);
    OpeningOnTrack(p, a', sh, sent);
  }

  /** Every announced hash is at b or among the blocks sent. */
  ghost predicate Covers(a': Shared, b: Shared, sent: seq<Block>, hashes: seq<H256>) {
    forall h :: h in hashes ==> h in b.chain.blocks || (h in a'.chain.blocks && a'.chain.blocks[h] in sent)
  }

  lemma EndOfExchange(p: Params, w: iset<Block>, a: Shared, a': Shared, b: Shared, sent: seq<Block>,
                      hashes: seq<H256>, sh: Shared, j: Job)
    requires Hypotheses(p, w) && NodeInv(p, w, a) && NodeInv(p, w, sh) && WellFormed(p, a'.chain)
    requires Announcement(p, a, b.chain.blocks.Keys, hashes) && Covers(a', b, sent, hashes) && Grows(b, sh)
    requires OnTrack(p, a', sh, j) && AtHead(j) && j.d.todo == [] && j.d.msg == sent
    ensures forall h :: h in hashes ==> SameEntry(a, sh, h)
  {
    HandledToTheEnd(p, w, a', b, sent, hashes, sh, j);
    SameEntries(p, w, a, sh, b.chain.blocks.Keys, hashes);
  }

  lemma GrowAlong(p: Params, w: iset<Block>, run: seq<System>, n: nat)
    requires Hypotheses(p, w) && n < |run| && Steps(p, w, run) && InvAlong(p, w, run)
    ensures Grows(run[0].shared, run[n].shared)
  {
    StepsOnlyGrow(p, w, run, 0, n);
  }

  /**
   Synchronisation. Node a announces hashes in parent-first order to node b; b asks for what it misses; a, grown
   to a' by then, answers; worker i of b, grown further by then, handles the answer to its end in any interleaving
   with the other threads of b. Then b holds every announced block, and its state as a has it.
   */
  lemma Synchronised(p: Params, w: iset<Block>, a: Shared, a': Shared, b: Shared,
                     hashes: seq<H256>, run: seq<System>, i: nat)
    requires Hypotheses(p, w) && NodeInv(p, w, a) && NodeInv(p, w, a') && Grows(a, a')
    requires Announcement(p, a, b.chain.blocks.Keys, hashes)
    requires run != [] && Steps(p, w, run) && SystemInv(p, w, run[0]) && Handling(run, i)
    requires Grows(b, run[0].shared)
    requires Busy(run[0], i)
          && run[0].workers[i].value == Opening(run[0].shared, Held(a'.chain.blocks, Missing(b.chain.blocks, hashes)))
    requires var last := run[|run| - 1];
             Busy(last, i) && AtHead(last.workers[i].value) && last.workers[i].value.d.todo == []
    ensures forall h :: h in hashes ==> SameEntry(a, run[|run| - 1].shared, h)
  {
    StepsKeepInvAlong(p, w, run);
    SynchronisedAlong(p, w, a, a', b, hashes, run, i);
  }

  lemma EndOnTrack(p: Params, a: Shared, sh: Shared, j: Job)
    requires OnTrack(p, a, sh, j) && AtHead(j) && j.d.todo == []
    ensures forall b :: b in j.d.msg ==> p.Hash(b) in sh.chain.blocks
  {
    assert Handled(p, sh, j.d, {});
  }

  lemma {:induction false} AnnouncedIsHeld(p: Params, a: Shared, known: set<H256>, hashes: seq<H256>, h: H256)
    requires Announcement(p, a, known, hashes) && h in hashes
    ensures h in a.chain.blocks
    decreases |hashes|
  {
    if h != hashes[0] {
      AnnouncedIsHeld(p, a, known + {hashes[0]}, hashes[1..], h);
    }
  }
}
