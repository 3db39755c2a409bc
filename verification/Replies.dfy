// What a worker answers and announces, by positions in the message: which elements, in which order, how often; and when
// a block of a message gets in at its turn.
module Replies {
  import opened Positions
  import opened Hashes
  import opened Ledger
  import opened Blocks
  import opened Mempools
  import opened Acceptance
  import opened NodeInvariant
  import opened BlockRules
  import opened HandlerRuns
  import opened Forecast
  import opened NetworkWorker

  // ----- requests for what is missing, and answers

  lemma {:induction false} MissingSnoc<V>(m: map<H256, V>, hashes: seq<H256>, h: H256)
    ensures Missing(m, hashes + [h]) == if h in m then Missing(m, hashes) else Missing(m, hashes) + [h]
    decreases |hashes|
  {
    if hashes == [] {
      assert [] + [h] == [h] && [h][1..] == [];
    } else {
      assert (hashes + [h])[1..] == hashes[1..] + [h];
      MissingSnoc(m, hashes[1..], h);
    }
  }

  /** The request lists the unknown hashes of the announcement: one entry for each place of one, in order. */
  lemma MissingByPositions<V>(m: map<H256, V>, hashes: seq<H256>) returns (ks: seq<nat>)
    ensures Increasing(ks, |hashes|) && |Missing(m, hashes)| == |ks|
    ensures forall j :: 0 <= j < |ks| ==> Missing(m, hashes)[j] == hashes[ks[j]]
    ensures forall k: nat :: k < |hashes| ==> (k in ks <==> hashes[k] !in m)
  {
    var marked := (k: nat) => k < |hashes| && hashes[k] !in m;
    var right := (k: nat, h: H256) => k < |hashes| && h == hashes[k];
    var part := (n: nat) => if n <= |hashes| then Missing(m, hashes[..n]) else [];
    forall k: nat {:trigger PartOn(marked, right, part, k)} | k < |hashes| ensures PartOn(marked, right, part, k) {
      assert hashes[..k + 1] == hashes[..k] + [hashes[k]];
      MissingSnoc(m, hashes[..k], hashes[k]);
    }
    ks := PartPicks(|hashes|, marked, right, part);
    assert hashes[..|hashes|] == hashes;
  }

  lemma {:induction false} HeldSnoc<V>(m: map<H256, V>, hashes: seq<H256>, h: H256)
    ensures Held(m, hashes + [h]) == if h in m then Held(m, hashes) + [m[h]] else Held(m, hashes)
    decreases |hashes|
  {
    if hashes == [] {
      assert [] + [h] == [h] && [h][1..] == [];
    } else {
      assert (hashes + [h])[1..] == hashes[1..] + [h];
      HeldSnoc(m, hashes[1..], h);
    }
  }

  /** The answer lists what is held under the hashes asked for: one entry for each place of a known one, in order. */
  lemma HeldByPositions<V(!new)>(m: map<H256, V>, hashes: seq<H256>) returns (ks: seq<nat>)
    ensures Increasing(ks, |hashes|) && |Held(m, hashes)| == |ks|
    ensures forall j :: 0 <= j < |ks| ==> hashes[ks[j]] in m && Held(m, hashes)[j] == m[hashes[ks[j]]]
    ensures forall k: nat :: k < |hashes| ==> (k in ks <==> hashes[k] in m)
  {
    var marked := (k: nat) => k < |hashes| && hashes[k] in m;
    var right := (k: nat, v: V) => k < |hashes| && hashes[k] in m && v == m[hashes[k]];
    var part := (n: nat) => if n <= |hashes| then Held(m, hashes[..n]) else [];
    forall k: nat {:trigger PartOn(marked, right, part, k)} | k < |hashes| ensures PartOn(marked, right, part, k) {
      assert hashes[..k + 1] == hashes[..k] + [hashes[k]];
      HeldSnoc(m, hashes[..k], hashes[k]);
    }
    ks := PartPicks(|hashes|, marked, right, part);
    assert hashes[..|hashes|] == hashes;
  }

  // ----- announced transactions

  lemma {:induction false} VerifiedSnoc(p: Params, txs: seq<SignedTransaction>, tx: SignedTransaction)
    ensures VerifiedHashes(p, txs + [tx])
         == if p.Verified(tx) then VerifiedHashes(p, txs) + [p.txHash(tx)] else VerifiedHashes(p, txs)
    decreases |txs|
  {
    if txs == [] {
      assert [] + [tx] == [tx] && [tx][1..] == [];
    } else {
      assert (txs + [tx])[1..] == txs[1..] + [tx];
      VerifiedSnoc(p, txs[1..], tx);
    }
  }

  lemma VerifiedByPositions(p: Params, txs: seq<SignedTransaction>) returns (ks: seq<nat>)
    ensures Increasing(ks, |txs|) && |VerifiedHashes(p, txs)| == |ks|
    ensures forall j :: 0 <= j < |ks| ==> VerifiedHashes(p, txs)[j] == p.txHash(txs[ks[j]])
    ensures forall k: nat :: k < |txs| ==> (k in ks <==> p.Verified(txs[k]))
  {
    var marked := (k: nat) => k < |txs| && p.Verified(txs[k]);
    var right := (k: nat, h: H256) => k < |txs| && h == p.txHash(txs[k]);
    var part := (n: nat) => if n <= |txs| then VerifiedHashes(p, txs[..n]) else [];
    forall k: nat {:trigger PartOn(marked, right, part, k)} | k < |txs| ensures PartOn(marked, right, part, k) {
      assert txs[..k + 1] == txs[..k] + [txs[k]];
      VerifiedSnoc(p, txs[..k], txs[k]);
    }
    ks := PartPicks(|txs|, marked, right, part);
    assert txs[..|txs|] == txs;
  }

  /**
   A Transactions message is announced by the hashes of its verifying transactions, one for each and in order, and every
   announced hash is one that the mempool has seen afterwards.
   */
  lemma AnnouncedByPositions(p: Params, pool: Pool, txs: seq<SignedTransaction>) returns (ks: seq<nat>)
    requires PoolOk(p, pool)
    ensures Increasing(ks, |txs|) && |VerifiedHashes(p, txs)| == |ks|
    ensures forall j :: 0 <= j < |ks| ==> VerifiedHashes(p, txs)[j] == p.txHash(txs[ks[j]])
    ensures forall k: nat :: k < |txs| ==>
              (k in ks <==> p.verify(txs[k].transaction, txs[k].publicKey, txs[k].signature))
    ensures forall h :: h in VerifiedHashes(p, txs) ==> h in Received(p, pool, txs).seen
  {
    ks := VerifiedByPositions(p, txs);
    ReceivedIs(p, pool, txs);
    forall h | h in VerifiedHashes(p, txs) ensures Offers(p, txs, h) {
      var j :| 0 <= j < |ks| && VerifiedHashes(p, txs)[j] == h;
      assert ks[j] in ks && p.Verified(txs[ks[j]]);
    }
  }

  // ----- the parents that a Blocks message makes a worker ask for

  /** The blocks held when the handler has looked at the first k of the message. */
  ghost function HeldAfter(p: Params, sh: Shared, blocks: seq<Block>, k: nat): map<H256, Block>
    requires k <= |blocks|
  {
    Finish(p, sh, Opening(sh, blocks[..k])).0.chain.blocks
  }

  /** Block k is new when it is looked at, passes the checks that need no parent, and its parent is not there. */
  ghost predicate WaitsAt(p: Params, sh: Shared, blocks: seq<Block>, k: nat)
    requires k < |blocks|
  {
    && p.Hash(blocks[k]) !in HeldAfter(p, sh, blocks, k) && Screened(p, blocks[k])
    && blocks[k].Parent() !in HeldAfter(p, sh, blocks, k)
  }

  lemma WaitingSnoc(p: Params, w: iset<Block>, sh: Shared, blocks: seq<Block>, k: nat)
    requires Hypotheses(p, w) && NodeInv(p, w, sh) && (forall b :: b in blocks ==> b in w) && k < |blocks|
    ensures var before := WaitingAfter(p, sh, blocks, k);
            WaitingAfter(p, sh, blocks, k + 1) == if WaitsAt(p, sh, blocks, k) then before + [blocks[k]] else before
  {
    var front := blocks[..k + 1];
    assert front[..|front| - 1] == blocks[..k] && front[|front| - 1] == blocks[k];
    OutcomeIsForeseen(p, w, sh, blocks[..k]);
  }

  ghost function WaitingAfter(p: Params, sh: Shared, blocks: seq<Block>, k: nat): seq<Block> {
    if k <= |blocks| then Foreseen(p, Outlook(HeldStates(sh), []), blocks[..k]).waiting else []
  }

  /** The parts are the blocks waiting after each place, and the flags say where one comes to wait. */
  ghost predicate Waited(p: Params, sh: Shared, blocks: seq<Block>, flags: seq<bool>, parts: seq<seq<Block>>) {
    && |flags| == |blocks| && |parts| == |blocks| + 1
    && (forall k :: 0 <= k < |blocks| ==> (flags[k] <==> WaitsAt(p, sh, blocks, k)))
    && (forall k :: 0 <= k <= |blocks| ==> parts[k] == WaitingAfter(p, sh, blocks, k))
  }

  lemma WaitedExists(p: Params, sh: Shared, blocks: seq<Block>) returns (flags: seq<bool>, parts: seq<seq<Block>>)
    ensures Waited(p, sh, blocks, flags, parts)
  {
    flags := seq(|blocks|, k requires 0 <= k < |blocks| => WaitsAt(p, sh, blocks, k));
    parts := seq(|blocks| + 1, k requires 0 <= k <= |blocks| => WaitingAfter(p, sh, blocks, k));
  }

  lemma WaitedStep(p: Params, w: iset<Block>, sh: Shared, blocks: seq<Block>,
                   flags: seq<bool>, parts: seq<seq<Block>>, k: nat)
    requires Hypotheses(p, w) && NodeInv(p, w, sh) && (forall b :: b in blocks ==> b in w) && k < |blocks|
    requires Waited(p, sh, blocks, flags, parts)
    ensures parts[k + 1] == if flags[k] then parts[k] + [blocks[k]] else parts[k]
  {
    WaitingSnoc(p, w, sh, blocks, k);
  }

  lemma WaitedStart(p: Params, sh: Shared, blocks: seq<Block>)
    ensures WaitingAfter(p, sh, blocks, 0) == []
  {
    assert blocks[..0] == [];
  }

  lemma WaitingByPositions(p: Params, w: iset<Block>, sh: Shared, blocks: seq<Block>) returns (ks: seq<nat>)
    requires Hypotheses(p, w) && NodeInv(p, w, sh) && forall b :: b in blocks ==> b in w
    ensures var waiting := WaitingAfter(p, sh, blocks, |blocks|);
            && Increasing(ks, |blocks|) && |waiting| == |ks|
            && (forall j :: 0 <= j < |ks| ==> waiting[j] == blocks[ks[j]])
            && (forall k: nat :: k < |blocks| ==> (k in ks <==> WaitsAt(p, sh, blocks, k)))
  {
    var flags, parts := WaitedExists(p, sh, blocks);
    WaitedStart(p, sh, blocks);
    forall k | 0 <= k < |blocks| ensures parts[k + 1] == if flags[k] then parts[k] + [blocks[k]] else parts[k] {
      WaitedStep(p, w, sh, blocks, flags, parts, k);
    }
    ks := FlaggedPicks(blocks, flags, parts);
  }

  /**
   For every message: the reply asks for the parents of the blocks that had to wait, one for each and in order, and for
   nothing else; so not for a block that was rejected, and there is no reply exactly when no block had to wait.
   */
  lemma RequestByPositions(p: Params, w: iset<Block>, sh: Shared, blocks: seq<Block>) returns (ks: seq<nat>)
    requires Hypotheses(p, w) && NodeInv(p, w, sh) && forall b :: b in blocks ==> b in w
    ensures var parents := Finish(p, sh, Opening(sh, blocks)).1.d.parents;
            && Increasing(ks, |blocks|) && |parents| == |ks|
            && (forall j :: 0 <= j < |ks| ==> parents[j] == blocks[ks[j]].Parent())
            && (forall k: nat :: k < |blocks| ==> (k in ks <==> WaitsAt(p, sh, blocks, k)))
            && (parents == [] <==> forall k: nat :: k < |blocks| ==> !WaitsAt(p, sh, blocks, k))
  {
    assert blocks[..|blocks|] == blocks;
    RequestIsForeseen(p, w, sh, blocks);
    ks := WaitingByPositions(p, w, sh, blocks);
    if ks != [] {
      assert ks[0] in ks && WaitsAt(p, sh, blocks, ks[0]);
    }
  }

  // ----- the turn of a block

  lemma {:induction false} WithKidsKeeps(p: Params, held: map<H256, Accounts>, state: Accounts, kids: seq<Block>)
    ensures held.Keys <= WithKids(p, held, state, kids).Keys
    decreases |kids|
  {
    if kids != [] && Replay(state, kids[0].transactions).Some? {
      WithKidsKeeps(p, held[p.Hash(kids[0]) := Replay(state, kids[0].transactions).value], state, kids[1..]);
    }
  }

  ghost function StatesAfter(p: Params, sh: Shared, blocks: seq<Block>, k: nat): map<H256, Accounts>
    requires k <= |blocks|
  {
    Finish(p, sh, Opening(sh, blocks[..k])).0.states
  }

  /** At its turn block k is new, its parent is held, and it follows the rules on the parent's state. */
  ghost predicate AcceptedAt(p: Params, sh: Shared, blocks: seq<Block>, k: nat)
    requires k < |blocks|
  {
    var (b, held, states) := (blocks[k], HeldAfter(p, sh, blocks, k), StatesAfter(p, sh, blocks, k));
    p.Hash(b) !in held && b.Parent() in held && b.Parent() in states && FollowsRules(p, states[b.Parent()], b)
  }

  lemma LookedTurn(p: Params, w: iset<Block>, o: Outlook, sh: Shared, b: Block)
    requires NodeInv(p, w, sh) && o.held == HeldStates(sh)
    ensures var accepted := p.Hash(b) !in sh.chain.blocks && b.Parent() in sh.chain.blocks && b.Parent() in sh.states
                            && FollowsRules(p, sh.states[b.Parent()], b);
            && (accepted ==> o.held.Keys + {p.Hash(b)} <= Looked(p, o, b).held.Keys)
            && (!accepted ==> Looked(p, o, b).held == o.held)
  {
    SameKeys(p, w, sh);
    if b.Parent() in sh.chain.blocks {
      RulesIff(p, w, sh, b);
      var r := Replay(sh.states[b.Parent()], b.transactions);
      if r.Some? {
        WithKidsKeeps(p, o.held[p.Hash(b) := r.value], r.value, KidsOf(p.Hash(b), o.waiting));
      }
    }
  }

  lemma NodeAfter(p: Params, w: iset<Block>, sh: Shared, blocks: seq<Block>, k: nat)
    requires Hypotheses(p, w) && NodeInv(p, w, sh) && (forall b :: b in blocks ==> b in w) && k <= |blocks|
    ensures var sh' := Finish(p, sh, Opening(sh, blocks[..k])).0;
            && NodeInv(p, w, sh') && HeldStates(sh') == ForeseenStates(p, sh, blocks[..k])
            && sh'.chain.blocks.Keys == HeldStates(sh').Keys
  {
    HandlerIsSound(p, w, sh, blocks[..k]);
    OutcomeIsForeseen(p, w, sh, blocks[..k]);
  }

  /**
   The turn of block k in any message: if it is new, with its parent there and the rules followed on the parent's state,
   it gets in, with whatever waited for it; otherwise the blocks held stay as they are.
   */
  lemma TurnOfBlock(p: Params, w: iset<Block>, sh: Shared, blocks: seq<Block>, k: nat)
    requires Hypotheses(p, w) && NodeInv(p, w, sh) && (forall b :: b in blocks ==> b in w) && k < |blocks|
    ensures var (was, now) := (HeldAfter(p, sh, blocks, k).Keys, HeldAfter(p, sh, blocks, k + 1).Keys);
            if AcceptedAt(p, sh, blocks, k) then was + {p.Hash(blocks[k])} <= now else now == was
  {
    var front := blocks[..k + 1];
    assert front[..|front| - 1] == blocks[..k] && front[|front| - 1] == blocks[k];
    NodeAfter(p, w, sh, blocks, k);
    NodeAfter(p, w, sh, blocks, k + 1);
    LookedTurn(p, w, Foreseen(p, Outlook(HeldStates(sh), []), blocks[..k]),
               Finish(p, sh, Opening(sh, blocks[..k])).0, blocks[k]);
  }
}
