// Which blocks of a message get in, said without the handler: a forecast from the message and the states held before,
// with no stack and no buffer that is filtered, and the proof that the handler meets it for every message.
module Forecast {
  import opened Wrappers
  import opened Hashes
  import opened Ledger
  import opened Blocks
  import opened BlockTree
  import opened Mempools
  import opened Acceptance
  import opened NodeInvariant
  import opened JobInvariant
  import opened HandlerRuns
  import opened OrphanRuns
  import opened MempoolRuns

  // ----- the forecast

  /** The states of the blocks held, and the blocks that had no parent when they were looked at, in order. */
  datatype Outlook = Outlook(held: map<H256, Accounts>, waiting: seq<Block>)

  function KidsOf(parent: H256, s: seq<Block>): seq<Block> {
    if s == [] then [] else (if s[0].Parent() == parent then [s[0]] else []) + KidsOf(parent, s[1..])
  }

  /** The blocks are taken in order as long as they replay on the state of their parent. */
  function WithKids(p: Params, held: map<H256, Accounts>, state: Accounts, kids: seq<Block>): map<H256, Accounts>
    decreases |kids|
  {
    if kids == [] then held
    else match Replay(state, kids[0].transactions)
      case None => held
      case Some(child) => WithKids(p, held[p.Hash(kids[0]) := child], state, kids[1..])
  }

  /** One more block: in with the blocks that wait for it, or rejected, or left waiting. */
  function Looked(p: Params, o: Outlook, b: Block): Outlook {
    if p.Hash(b) in o.held || !Screened(p, b) then o
    else if b.Parent() !in o.held then Outlook(o.held, o.waiting + [b])
    else match Replay(o.held[b.Parent()], b.transactions)
      case None => o
      case Some(state) =>
        Outlook(WithKids(p, o.held[p.Hash(b) := state], state, KidsOf(p.Hash(b), o.waiting)), o.waiting)
  }

  function Foreseen(p: Params, o: Outlook, blocks: seq<Block>): Outlook
    decreases |blocks|
  {
    if blocks == [] then o else Looked(p, Foreseen(p, o, blocks[..|blocks| - 1]), blocks[|blocks| - 1])
  }

  function HeldStates(sh: Shared): map<H256, Accounts> {
    map h | h in sh.chain.blocks && h in sh.states :: sh.states[h]
  }

  /** What a message will leave in the chain, with its states. */
  function ForeseenStates(p: Params, sh: Shared, blocks: seq<Block>): map<H256, Accounts> {
    Foreseen(p, Outlook(HeldStates(sh), []), blocks).held
  }

  // ----- children in a list

  lemma {:induction false} KidsConcat(parent: H256, xs: seq<Block>, ys: seq<Block>)
    ensures KidsOf(parent, xs + ys) == KidsOf(parent, xs) + KidsOf(parent, ys)
    decreases |xs|
  {
    if xs == [] {
      assert xs + ys == ys;
    } else {
      assert (xs + ys)[1..] == xs[1..] + ys;
      KidsConcat(parent, xs[1..], ys);
    }
  }

  lemma KidsSnoc(parent: H256, s: seq<Block>, b: Block)
    ensures KidsOf(parent, s + [b]) == if b.Parent() == parent then KidsOf(parent, s) + [b] else KidsOf(parent, s)
  {
    KidsConcat(parent, s, [b]);
    assert [b][1..] == [];
  }

  lemma {:induction false} KidsAre(parent: H256, s: seq<Block>)
    ensures forall o :: o in KidsOf(parent, s) <==> o in s && o.Parent() == parent
  {
    if s != [] {
      KidsAre(parent, s[1..]);
      assert forall o :: o in s <==> o == s[0] || o in s[1..];
    }
  }

  // ----- taking children a second time

  /** The children up to the first that does not replay are held, with the states they replay to. */
  ghost predicate Settled(p: Params, held: map<H256, Accounts>, state: Accounts, kids: seq<Block>)
    decreases |kids|
  {
    kids != [] ==>
      match Replay(state, kids[0].transactions)
      case None => true
      case Some(child) =>
        p.Hash(kids[0]) in held && held[p.Hash(kids[0])] == child && Settled(p, held, state, kids[1..])
  }

  lemma {:induction false} SettledIdle(p: Params, held: map<H256, Accounts>, state: Accounts, kids: seq<Block>)
    requires Settled(p, held, state, kids)
    ensures WithKids(p, held, state, kids) == held
    decreases |kids|
  {
    if kids != [] && Replay(state, kids[0].transactions).Some? {
      var h := p.Hash(kids[0]);
      assert held[h := held[h]] == held;
      SettledIdle(p, held, state, kids[1..]);
    }
  }

  lemma {:induction false} SettledGrows(p: Params, held: map<H256, Accounts>, held': map<H256, Accounts>,
                                        state: Accounts, kids: seq<Block>)
    requires Settled(p, held, state, kids) && MapGrows(held, held')
    ensures Settled(p, held', state, kids)
    decreases |kids|
  {
    if kids != [] && Replay(state, kids[0].transactions).Some? {
      SettledGrows(p, held, held', state, kids[1..]);
    }
  }

  /** What is held of the children is what they replay to. */
  ghost predicate Consistent(p: Params, w: iset<Block>, held: map<H256, Accounts>, state: Accounts, kids: seq<Block>) {
    forall o :: o in kids ==>
      o in w && (p.Hash(o) in held ==> Replay(state, o.transactions) == Some(held[p.Hash(o)]))
  }

  lemma ConsistentOn(p: Params, w: iset<Block>, held: map<H256, Accounts>, state: Accounts, kids: seq<Block>,
                     child: Accounts)
    requires Hypotheses(p, w) && Consistent(p, w, held, state, kids) && kids != []
    requires Replay(state, kids[0].transactions) == Some(child)
    ensures Consistent(p, w, held[p.Hash(kids[0]) := child], state, kids[1..])
    ensures MapGrows(held, held[p.Hash(kids[0]) := child])
  {
    assert kids[0] in kids;
    forall o | o in kids[1..] && p.Hash(o) == p.Hash(kids[0]) ensures o == kids[0] {
      assert o in kids;
      SameHashSameBlock(p, w, o, kids[0]);
    }
    assert forall o :: o in kids[1..] ==> o in kids;
  }

  lemma {:induction false} WithKidsSettles(p: Params, w: iset<Block>, held: map<H256, Accounts>,
                                           state: Accounts, kids: seq<Block>)
    requires Hypotheses(p, w) && Consistent(p, w, held, state, kids)
    ensures MapGrows(held, WithKids(p, held, state, kids))
    ensures Settled(p, WithKids(p, held, state, kids), state, kids)
    decreases |kids|
  {
    if kids != [] && Replay(state, kids[0].transactions).Some? {
      var child := Replay(state, kids[0].transactions).value;
      ConsistentOn(p, w, held, state, kids, child);
      WithKidsSettles(p, w, held[p.Hash(kids[0]) := child], state, kids[1..]);
    }
  }

  // ----- the handler on its way to the outcome

  /** Passing over the waiting children of b again would change nothing. */
  ghost predicate Exhausted(p: Params, held: map<H256, Accounts>, s: seq<Block>, b: Block) {
    p.Hash(b) in held && Settled(p, held, held[p.Hash(b)], KidsOf(p.Hash(b), s))
  }

  /** Taking the waiting children of b among s leads to the states foreseen. */
  ghost predicate Completes(p: Params, now: map<H256, Accounts>, held: map<H256, Accounts>, s: seq<Block>, b: Block) {
    p.Hash(b) in now && WithKids(p, now, now[p.Hash(b)], KidsOf(p.Hash(b), s)) == held
  }

  /** In a pass for parent, what is kept and what is left hold the same children of others as the buffer. */
  ghost predicate Sifted(p: Params, parent: Block, orphans: seq<Block>, rest: seq<Block>, keep: seq<Block>) {
    && KidsOf(p.Hash(parent), keep) == []
    && forall h :: h != p.Hash(parent) ==> KidsOf(h, keep + rest) == KidsOf(h, orphans)
  }

  /**
   The parents of the waiting blocks were asked for; the buffer has the waiting children of every block that is not
   held; the stack has nothing left to do.
   */
  ghost predicate Buffer(p: Params, o: Outlook, d: Desk) {
    && d.parents == Parents(o.waiting)
    && (forall h :: h !in o.held ==> KidsOf(h, d.orphans) == KidsOf(h, o.waiting))
    && (forall b :: b in d.stack ==> Exhausted(p, o.held, d.orphans, b))
  }

  ghost predicate OnCourse(p: Params, o: Outlook, now: map<H256, Accounts>, j: Job) {
    && Buffer(p, o, j.d)
    && match j
       case Fetch(d) => now == o.held
       case Store(d, b, state) =>
         && Completes(p, now[p.Hash(b) := state], o.held, d.orphans, b) && Exhausted(p, o.held, d.orphans, b)
       case Purge(d, b) => Completes(p, now, o.held, d.orphans, b) && Exhausted(p, o.held, d.orphans, b)
       case Drain(d) =>
         if d.stack == [] then now == o.held else Completes(p, now, o.held, d.orphans, d.stack[|d.stack| - 1])
       case Pass(d, parent, rest, keep) =>
         && Completes(p, now, o.held, rest, parent) && Exhausted(p, o.held, d.orphans, parent)
         && Sifted(p, parent, d.orphans, rest, keep)
       case StoreOrphan(d, parent, rest, keep, state) =>
         && rest != [] && Completes(p, now, o.held, rest, parent) && Exhausted(p, o.held, d.orphans, parent)
         && Sifted(p, parent, d.orphans, rest, keep) && IsChild(p, parent, rest[0])
         && Replay(now[p.Hash(parent)], rest[0].transactions) == Some(state)
       case PurgeOrphan(d, parent, rest, keep) =>
         && rest != [] && Completes(p, now, o.held, rest[1..], parent) && Exhausted(p, o.held, d.orphans, parent)
         && Sifted(p, parent, d.orphans, rest, keep) && IsChild(p, parent, rest[0])
       case Crashed(_) => false
  }

  ghost predicate InOrder(d: Desk) {
    |d.todo| <= |d.msg| && d.todo == d.msg[|d.msg| - |d.todo|..]
  }

  ghost predicate Tracked(p: Params, start: Outlook, sh: Shared, j: Job) {
    Shaped(j) && InOrder(j.d) && OnCourse(p, Foreseen(p, start, Seen(j.d)), HeldStates(sh), j)
  }

  // ----- the step that looks at a block

  lemma KidsAreNew(p: Params, w: iset<Block>, sh: Shared, b: Block, s: seq<Block>)
    requires Hypotheses(p, w) && NodeInv(p, w, sh) && p.Hash(b) !in sh.chain.blocks
    requires forall o :: o in s ==> o in w && o != p.genesis
    ensures forall o :: o in KidsOf(p.Hash(b), s) ==> o in w && p.Hash(o) !in sh.chain.blocks
  {
    KidsAre(p.Hash(b), s);
    forall o | o in KidsOf(p.Hash(b), s) ensures p.Hash(o) !in sh.chain.blocks {
      if p.Hash(o) in sh.chain.blocks {
        assert ChainEntryOk(p, w, sh, p.Hash(o)) && Placed(p, sh.chain, p.Hash(o));
        SameHashSameBlock(p, w, sh.chain.blocks[p.Hash(o)], o);
      }
    }
  }

  lemma BufferGrows(p: Params, o: Outlook, o': Outlook, d: Desk)
    requires Buffer(p, o, d) && MapGrows(o.held, o'.held) && o'.waiting == o.waiting
    ensures Buffer(p, o', d)
  {
    forall b | b in d.stack ensures Exhausted(p, o'.held, d.orphans, b) {
      assert Exhausted(p, o.held, d.orphans, b);
      SettledGrows(p, o.held, o'.held, o.held[p.Hash(b)], KidsOf(p.Hash(b), d.orphans));
    }
  }

  /** The children of a new block that wait are taken consistently: none is held, and b itself is not one of them. */
  lemma KidsAreConsistent(p: Params, w: iset<Block>, sh: Shared, held: map<H256, Accounts>, b: Block,
                          state: Accounts, s: seq<Block>)
    requires Hypotheses(p, w) && NodeInv(p, w, sh) && b in w && held == HeldStates(sh)
    requires p.Hash(b) !in sh.chain.blocks && b.Parent() in sh.chain.blocks
    requires forall c :: c in s ==> c in w && c != p.genesis
    ensures Consistent(p, w, held[p.Hash(b) := state], state, KidsOf(p.Hash(b), s))
    ensures p.Hash(b) !in held && MapGrows(held, held[p.Hash(b) := state])
  {
    KidsAreNew(p, w, sh, b, s);
    KidsAre(p.Hash(b), s);
    forall c | c in KidsOf(p.Hash(b), s) ensures c in w && p.Hash(c) !in held[p.Hash(b) := state] {
      if p.Hash(c) == p.Hash(b) {
        SameHashSameBlock(p, w, c, b);
      }
    }
  }

  /** A block accepted at once brings in the children that wait for it, in the forecast and in the buffer. */
  lemma AcceptedOnCourse(p: Params, w: iset<Block>, sh: Shared, o: Outlook, d: Desk, b: Block, state: Accounts)
    requires Hypotheses(p, w) && NodeInv(p, w, sh) && b in w
    requires forall c :: c in d.orphans ==> c in w && c != p.genesis
    requires Buffer(p, o, d) && o.held == HeldStates(sh)
    requires p.Hash(b) !in sh.chain.blocks && b.Parent() in sh.chain.blocks
    ensures var kids := KidsOf(p.Hash(b), o.waiting);
            var o' := Outlook(WithKids(p, o.held[p.Hash(b) := state], state, kids), o.waiting);
            OnCourse(p, o', o.held, Store(d, b, state))
  {
    var kids, now := KidsOf(p.Hash(b), d.orphans), o.held[p.Hash(b) := state];
    var o' := Outlook(WithKids(p, now, state, kids), o.waiting);
    KidsAreConsistent(p, w, sh, o.held, b, state, d.orphans);
    WithKidsSettles(p, w, now, state, kids);
    GrowsOn(o.held, now, o'.held);
    BufferGrows(p, o, o', d);
  }

  lemma GrowsOn(a: map<H256, Accounts>, b: map<H256, Accounts>, c: map<H256, Accounts>)
    requires MapGrows(a, b) && MapGrows(b, c)
    ensures MapGrows(a, c)
  {
  }

  lemma BufferSnoc(p: Params, o: Outlook, d: Desk, b: Block)
    requires Buffer(p, o, d) && b.Parent() !in o.held
    ensures Buffer(p, Outlook(o.held, o.waiting + [b]),
                   d.(orphans := d.orphans + [b], parents := d.parents + [b.Parent()]))
  {
    var d' := d.(orphans := d.orphans + [b], parents := d.parents + [b.Parent()]);
    assert Parents(o.waiting + [b]) == Parents(o.waiting) + [b.Parent()];
    forall h | h !in o.held ensures KidsOf(h, d'.orphans) == KidsOf(h, o.waiting + [b]) {
      KidsSnoc(h, d.orphans, b);
      KidsSnoc(h, o.waiting, b);
    }
    forall c | c in d'.stack ensures Exhausted(p, o.held, d'.orphans, c) {
      assert Exhausted(p, o.held, d.orphans, c);
      KidsSnoc(p.Hash(c), d.orphans, b);
    }
  }

  /** With nothing left to do for the blocks on the stack the orphan loop is at the states foreseen. */
  lemma DrainOnCourse(p: Params, o: Outlook, d: Desk)
    requires Buffer(p, o, d)
    ensures OnCourse(p, o, o.held, Drain(d))
  {
    if d.stack != [] {
      var top := d.stack[|d.stack| - 1];
      assert top in d.stack && Exhausted(p, o.held, d.orphans, top);
      SettledIdle(p, o.held, o.held[p.Hash(top)], KidsOf(p.Hash(top), d.orphans));
    }
  }

  lemma SameKeys(p: Params, w: iset<Block>, sh: Shared)
    requires NodeInv(p, w, sh)
    ensures forall h :: h in sh.chain.blocks <==> h in HeldStates(sh)
    ensures forall h :: h in sh.chain.blocks ==> h in sh.states && HeldStates(sh)[h] == sh.states[h]
  {
    forall h | h in sh.chain.blocks ensures h in sh.states {
      assert ChainEntryOk(p, w, sh, h);
    }
  }

  lemma FetchOnCourse(p: Params, w: iset<Block>, sh: Shared, o: Outlook, d: Desk, b: Block)
    requires Hypotheses(p, w) && NodeInv(p, w, sh) && b in w
    requires forall c :: c in d.orphans ==> c in w && c != p.genesis
    requires Buffer(p, o, d) && o.held == HeldStates(sh)
    ensures OnCourse(p, Looked(p, o, b), HeldStates(sh), Fetched(p, sh, d, b))
  {
    SameKeys(p, w, sh);
    if p.Hash(b) !in sh.chain.blocks && Screened(p, b) {
      if b.Parent() in sh.chain.blocks {
        var r := Replay(sh.states[b.Parent()], b.transactions);
        if r.Some? {
          AcceptedOnCourse(p, w, sh, o, d, b, r.value);
        }
      } else {
        BufferSnoc(p, o, d, b);
        DrainOnCourse(p, Outlook(o.held, o.waiting + [b]),
                      d.(orphans := d.orphans + [b], parents := d.parents + [b.Parent()]));
      }
    }
  }

  lemma ForeseenSnoc(p: Params, start: Outlook, d: Desk)
    requires InOrder(d) && d.todo != []
    ensures var d' := d.(todo := d.todo[1..]);
            InOrder(d') && Foreseen(p, start, Seen(d')) == Looked(p, Foreseen(p, start, Seen(d)), d.todo[0])
  {
    var d' := d.(todo := d.todo[1..]);
    assert Seen(d') == Seen(d) + [d.todo[0]];
    assert Seen(d')[..|Seen(d')| - 1] == Seen(d);
  }

  lemma FetchTracked(p: Params, w: iset<Block>, start: Outlook, sh: Shared, d: Desk)
    requires Hypotheses(p, w) && NodeInv(p, w, sh) && DeskOk(p, w, sh, d) && d.todo != []
    requires Tracked(p, start, sh, Fetch(d))
    ensures Tracked(p, start, sh, JobStep(p, sh, Fetch(d)).1)
  {
    var o, d', b := Foreseen(p, start, Seen(d)), d.(todo := d.todo[1..]), d.todo[0];
    ForeseenSnoc(p, start, d);
    assert b in d.todo;
    forall c | c in d.orphans ensures c in w && c != p.genesis {
      assert Candidate(p, w, d, c);
    }
    FetchOnCourse(p, w, sh, o, d', b);
    SameProgress(p, sh, d', b);
    StillTracked(p, start, Looked(p, o, b), d', sh, Fetched(p, sh, d', b));
  }

  lemma SameProgress(p: Params, sh: Shared, d: Desk, b: Block)
    ensures var j := Fetched(p, sh, d, b); Shaped(j) && j.d.msg == d.msg && j.d.todo == d.todo
  {
  }

  // ----- the other steps

  lemma StatesAfter(sh: Shared, sh': Shared, h: H256, b: Block, state: Accounts)
    requires sh'.chain.blocks == sh.chain.blocks[h := b] && sh'.states == sh.states[h := state]
    ensures HeldStates(sh') == HeldStates(sh)[h := state]
  {
    var now, after := HeldStates(sh)[h := state], HeldStates(sh');
    assert forall k :: k in after <==> k in now;
  }

  lemma LinkedStates(p: Params, w: iset<Block>, sh: Shared, b: Block, state: Accounts)
    requires Hypotheses(p, w) && NodeInv(p, w, sh) && b in w && Extends(p, sh.chain, b) && Screened(p, b)
    requires b.Parent() in sh.states && Replay(sh.states[b.Parent()], b.transactions) == Some(state)
    ensures var sh' := Linked(p, Published(p, sh, b, state), b);
            HeldStates(sh') == HeldStates(sh)[p.Hash(b) := state] && MapGrows(HeldStates(sh), HeldStates(sh'))
  {
    var sh' := Linked(p, Published(p, sh, b, state), b);
    AcceptKeeps(p, w, sh, b, state);
    StatesAfter(sh, sh', p.Hash(b), b, state);
    forall h | h in HeldStates(sh) ensures h in HeldStates(sh') && HeldStates(sh')[h] == HeldStates(sh)[h] {
      assert sh'.states[h] == sh.states[h];
    }
  }

  lemma StoreOnCourse(p: Params, w: iset<Block>, o: Outlook, sh: Shared, j: Job)
    requires Hypotheses(p, w) && NodeInv(p, w, sh) && JobOk(p, w, sh, j) && j.Store?
    requires OnCourse(p, o, HeldStates(sh), j)
    ensures OnCourse(p, o, HeldStates(JobStep(p, sh, j).0), JobStep(p, sh, j).1)
  {
    LinkedStates(p, w, sh, j.block, j.state);
  }

  lemma PushedOnCourse(p: Params, o: Outlook, d: Desk, b: Block)
    requires Buffer(p, o, d) && Exhausted(p, o.held, d.orphans, b)
    ensures Buffer(p, o, Announced(p, d, b))
  {
  }

  lemma PurgeOnCourse(p: Params, o: Outlook, sh: Shared, j: Job)
    requires j.Purge? && OnCourse(p, o, HeldStates(sh), j)
    ensures OnCourse(p, o, HeldStates(JobStep(p, sh, j).0), JobStep(p, sh, j).1)
  {
    PushedOnCourse(p, o, j.d, j.block);
  }

  lemma DrainStepOnCourse(p: Params, o: Outlook, sh: Shared, j: Job)
    requires j.Drain? && OnCourse(p, o, HeldStates(sh), j)
    ensures OnCourse(p, o, HeldStates(sh), JobStep(p, sh, j).1)
  {
    if j.d.stack != [] {
      var top := j.d.stack[|j.d.stack| - 1];
      assert top in j.d.stack && Exhausted(p, o.held, j.d.orphans, top);
      assert [] + j.d.orphans == j.d.orphans;
    }
  }

  lemma KeptBuffer(p: Params, o: Outlook, d: Desk, parent: Block, keep: seq<Block>)
    requires Buffer(p, o, d) && p.Hash(parent) in o.held && Sifted(p, parent, d.orphans, [], keep)
    ensures Buffer(p, o, d.(orphans := keep))
  {
    assert keep + [] == keep;
    forall b | b in d.stack ensures Exhausted(p, o.held, keep, b) {
      assert Exhausted(p, o.held, d.orphans, b);
      assert p.Hash(b) != p.Hash(parent) ==> KidsOf(p.Hash(b), keep) == KidsOf(p.Hash(b), d.orphans);
    }
  }

  lemma KidsMoved(parent: H256, keep: seq<Block>, rest: seq<Block>)
    requires rest != []
    ensures KidsOf(parent, keep + [rest[0]] + rest[1..]) == KidsOf(parent, keep + rest)
  {
    assert keep + [rest[0]] + rest[1..] == keep + rest;
  }

  lemma KidsDropped(parent: H256, keep: seq<Block>, rest: seq<Block>)
    requires rest != [] && rest[0].Parent() != parent
    ensures KidsOf(parent, rest[1..]) == KidsOf(parent, rest)
    ensures KidsOf(parent, keep + rest[1..]) == KidsOf(parent, keep + rest)
  {
    KidsConcat(parent, keep, rest);
    KidsConcat(parent, keep, rest[1..]);
  }

  lemma KidsTaken(parent: H256, rest: seq<Block>)
    requires rest != [] && rest[0].Parent() == parent
    ensures KidsOf(parent, rest) == [rest[0]] + KidsOf(parent, rest[1..])
  {
  }

  lemma SiftedOther(p: Params, parent: Block, orphans: seq<Block>, rest: seq<Block>, keep: seq<Block>)
    requires Sifted(p, parent, orphans, rest, keep) && rest != [] && !IsChild(p, parent, rest[0])
    ensures Sifted(p, parent, orphans, rest[1..], keep + [rest[0]])
    ensures KidsOf(p.Hash(parent), rest) == KidsOf(p.Hash(parent), rest[1..])
  {
    KidsSnoc(p.Hash(parent), keep, rest[0]);
    KidsDropped(p.Hash(parent), keep, rest);
    forall h | h != p.Hash(parent) ensures KidsOf(h, keep + [rest[0]] + rest[1..]) == KidsOf(h, orphans) {
      KidsMoved(h, keep, rest);
    }
  }

  lemma SiftedChild(p: Params, parent: Block, orphans: seq<Block>, rest: seq<Block>, keep: seq<Block>)
    requires Sifted(p, parent, orphans, rest, keep) && rest != [] && IsChild(p, parent, rest[0])
    ensures Sifted(p, parent, orphans, rest[1..], keep)
    ensures KidsOf(p.Hash(parent), rest) == [rest[0]] + KidsOf(p.Hash(parent), rest[1..])
  {
    KidsTaken(p.Hash(parent), rest);
    forall h | h != p.Hash(parent) ensures KidsOf(h, keep + rest[1..]) == KidsOf(h, orphans) {
      KidsDropped(h, keep, rest);
    }
  }

  lemma PassOnCourse(p: Params, w: iset<Block>, o: Outlook, sh: Shared, j: Job)
    requires NodeInv(p, w, sh) && j.Pass? && OnCourse(p, o, HeldStates(sh), j)
    ensures OnCourse(p, o, HeldStates(sh), JobStep(p, sh, j).1)
  {
    var rest, parent := j.rest, j.parent;
    SameKeys(p, w, sh);
    if rest == [] {
      KeptBuffer(p, o, j.d, parent, j.keep);
      DrainOnCourse(p, o, j.d.(orphans := j.keep));
    } else if IsChild(p, parent, rest[0]) {
      SiftedChild(p, parent, j.d.orphans, rest, j.keep);
    } else {
      SiftedOther(p, parent, j.d.orphans, rest, j.keep);
    }
  }

  lemma StoreOrphanOnCourse(p: Params, w: iset<Block>, o: Outlook, sh: Shared, j: Job)
    requires Hypotheses(p, w) && NodeInv(p, w, sh) && JobOk(p, w, sh, j) && j.StoreOrphan?
    requires OnCourse(p, o, HeldStates(sh), j)
    ensures OnCourse(p, o, HeldStates(JobStep(p, sh, j).0), JobStep(p, sh, j).1)
  {
    LinkedStates(p, w, sh, j.rest[0], j.state);
    SiftedChild(p, j.parent, j.d.orphans, j.rest, j.keep);
  }

  lemma PurgeOrphanOnCourse(p: Params, o: Outlook, sh: Shared, j: Job)
    requires Shaped(j) && j.PurgeOrphan? && OnCourse(p, o, HeldStates(sh), j)
    ensures OnCourse(p, o, HeldStates(JobStep(p, sh, j).0), JobStep(p, sh, j).1)
  {
    PushedOnCourse(p, o, j.d, j.parent);
    SiftedChild(p, j.parent, j.d.orphans, j.rest, j.keep);
  }

  lemma StepOnCourse(p: Params, w: iset<Block>, o: Outlook, sh: Shared, j: Job)
    requires Hypotheses(p, w) && NodeInv(p, w, sh) && JobOk(p, w, sh, j) && !AtHead(j)
    requires OnCourse(p, o, HeldStates(sh), j)
    ensures OnCourse(p, o, HeldStates(JobStep(p, sh, j).0), JobStep(p, sh, j).1)
  {
    match j
    case Store(_, _, _) => StoreOnCourse(p, w, o, sh, j);
    case Purge(_, _) => PurgeOnCourse(p, o, sh, j);
    case Drain(_) => DrainStepOnCourse(p, o, sh, j);
    case Pass(_, _, _, _) => PassOnCourse(p, w, o, sh, j);
    case StoreOrphan(_, _, _, _, _) => StoreOrphanOnCourse(p, w, o, sh, j);
    case PurgeOrphan(_, _, _, _) => PurgeOrphanOnCourse(p, o, sh, j);
  }

  lemma SameBlockInHand(p: Params, sh: Shared, j: Job)
    requires Shaped(j) && !AtHead(j)
    ensures var j' := JobStep(p, sh, j).1; Shaped(j') && j'.d.msg == j.d.msg && j'.d.todo == j.d.todo
  {
  }

  lemma StillTracked(p: Params, start: Outlook, o: Outlook, d: Desk, sh': Shared, j': Job)
    requires InOrder(d) && o == Foreseen(p, start, Seen(d)) && OnCourse(p, o, HeldStates(sh'), j')
    requires Shaped(j') && j'.d.msg == d.msg && j'.d.todo == d.todo
    ensures Tracked(p, start, sh', j')
  {
    assert Seen(j'.d) == Seen(d);
  }

  lemma LoopTracked(p: Params, w: iset<Block>, start: Outlook, o: Outlook, sh: Shared, j: Job)
    requires Hypotheses(p, w) && NodeInv(p, w, sh) && JobOk(p, w, sh, j) && !AtHead(j) && InOrder(j.d)
    requires o == Foreseen(p, start, Seen(j.d)) && OnCourse(p, o, HeldStates(sh), j)
    ensures Tracked(p, start, JobStep(p, sh, j).0, JobStep(p, sh, j).1)
  {
    var r := JobStep(p, sh, j);
    StepOnCourse(p, w, o, sh, j);
    SameBlockInHand(p, sh, j);
    StillTracked(p, start, o, j.d, r.0, r.1);
  }

  lemma StepTracked(p: Params, w: iset<Block>, start: Outlook, sh: Shared, j: Job)
    requires Hypotheses(p, w) && NodeInv(p, w, sh) && JobOk(p, w, sh, j) && Running(j) && Tracked(p, start, sh, j)
    ensures Tracked(p, start, JobStep(p, sh, j).0, JobStep(p, sh, j).1)
  {
    if j.Fetch? {
      FetchTracked(p, w, start, sh, j.d);
    } else {
      LoopTracked(p, w, start, Foreseen(p, start, Seen(j.d)), sh, j);
    }
  }

  // ----- whole messages

  /**
   Whatever the message, with orphans, bad blocks and repeats in any order: the blocks held after it, and their states,
   are those of the forecast.
   */
  lemma OutcomeIsForeseen(p: Params, w: iset<Block>, sh: Shared, blocks: seq<Block>)
    requires Hypotheses(p, w) && NodeInv(p, w, sh) && forall b :: b in blocks ==> b in w
    ensures var sh' := Finish(p, sh, Opening(sh, blocks)).0;
            && HeldStates(sh') == ForeseenStates(p, sh, blocks)
            && forall h :: h in sh'.chain.blocks <==> h in ForeseenStates(p, sh, blocks)
  {
    MessageEnds(p, w, sh, blocks);
    FinishKeeps(p, w, sh, Opening(sh, blocks));
    SameKeys(p, w, Finish(p, sh, Opening(sh, blocks)).0);
  }

  /** The parents asked for are those of the blocks left waiting, in order and with repeats. */
  lemma RequestIsForeseen(p: Params, w: iset<Block>, sh: Shared, blocks: seq<Block>)
    requires Hypotheses(p, w) && NodeInv(p, w, sh) && forall b :: b in blocks ==> b in w
    ensures Finish(p, sh, Opening(sh, blocks)).1.d.parents
         == Parents(Foreseen(p, Outlook(HeldStates(sh), []), blocks).waiting)
  {
    MessageEnds(p, w, sh, blocks);
  }

  lemma MessageEnds(p: Params, w: iset<Block>, sh: Shared, blocks: seq<Block>)
    requires Hypotheses(p, w) && NodeInv(p, w, sh) && forall b :: b in blocks ==> b in w
    ensures JobOk(p, w, sh, Opening(sh, blocks))
    ensures var (sh', j') := Finish(p, sh, Opening(sh, blocks));
            OnCourse(p, Foreseen(p, Outlook(HeldStates(sh), []), blocks), HeldStates(sh'), j') && j'.Fetch?
  {
    var j' := Finish(p, sh, Opening(sh, blocks)).1;
    MessageTracked(p, w, sh, blocks);
    FinishKeeps(p, w, sh, Opening(sh, blocks));
    assert Seen(j'.d) == blocks;
  }

  lemma MessageTracked(p: Params, w: iset<Block>, sh: Shared, blocks: seq<Block>)
    requires Hypotheses(p, w) && NodeInv(p, w, sh) && forall b :: b in blocks ==> b in w
    ensures JobOk(p, w, sh, Opening(sh, blocks))
    ensures var (sh', j') := Finish(p, sh, Opening(sh, blocks));
            Tracked(p, Outlook(HeldStates(sh), []), sh', j')
  {
    var start, j := Outlook(HeldStates(sh), []), Opening(sh, blocks);
    var i := (s: Shared, k: Job) => Tracked(p, start, s, k);
    OpeningOk(p, w, sh, blocks);
    assert Seen(j.d) == [];
    forall s, k | Fit(p, w, s, k) && Running(k) && i(s, k) ensures i(JobStep(p, s, k).0, JobStep(p, s, k).1) {
      StepTracked(p, w, start, s, k);
    }
    FinishInduction(p, w, i, sh, j);
  }

  /** The block is in the message, is not held, and gets in. */
  ghost predicate GetsIn(p: Params, sh: Shared, blocks: seq<Block>, c: Block) {
    c in blocks && p.Hash(c) !in sh.chain.blocks && p.Hash(c) in ForeseenStates(p, sh, blocks)
  }

  lemma GetsInIff(p: Params, w: iset<Block>, sh: Shared, blocks: seq<Block>, c: Block)
    requires Hypotheses(p, w) && NodeInv(p, w, sh) && (forall b :: b in blocks ==> b in w) && c in w
    ensures var sh' := Finish(p, sh, Opening(sh, blocks)).0;
            GetsIn(p, sh, blocks, c) <==> New(sh, sh', p.Hash(c)) && sh'.chain.blocks[p.Hash(c)] == c
  {
    var sh' := Finish(p, sh, Opening(sh, blocks)).0;
    OutcomeIsForeseen(p, w, sh, blocks);
    HandlerIsSound(p, w, sh, blocks);
    if p.Hash(c) in sh'.chain.blocks {
      assert ChainEntryOk(p, w, sh', p.Hash(c)) && Placed(p, sh'.chain, p.Hash(c));
      SameHashSameBlock(p, w, sh'.chain.blocks[p.Hash(c)], c);
    }
  }

  /** A transaction is in a block that gets in and stands after its parent. */
  ghost predicate InEarlyOne(p: Params, sh: Shared, blocks: seq<Block>, tx: SignedTransaction) {
    exists c :: GetsIn(p, sh, blocks, c) && Early(p, sh.chain.blocks.Keys, blocks, c)
             && p.txHash(tx) in TxHashes(p, c.transactions)
  }

  /** Said of message and start alone: pending transactions of blocks that get in are in such as stand after theirs. */
  ghost predicate AllInEarlyOnes(p: Params, sh: Shared, blocks: seq<Block>) {
    forall c, tx :: GetsIn(p, sh, blocks, c) && tx in c.transactions && p.txHash(tx) in sh.pool.pending ==>
      InEarlyOne(p, sh, blocks, tx)
  }

  lemma InEarlyIff(p: Params, w: iset<Block>, sh: Shared, blocks: seq<Block>, tx: SignedTransaction)
    requires Hypotheses(p, w) && NodeInv(p, w, sh) && forall b :: b in blocks ==> b in w
    ensures InEarlyOne(p, sh, blocks, tx)
       <==> InEarlyBlock(p, sh, Finish(p, sh, Opening(sh, blocks)).0, blocks, tx)
  {
    var sh' := Finish(p, sh, Opening(sh, blocks)).0;
    HandlerIsSound(p, w, sh, blocks);
    if InEarlyOne(p, sh, blocks, tx) {
      var c :| GetsIn(p, sh, blocks, c) && Early(p, sh.chain.blocks.Keys, blocks, c)
            && p.txHash(tx) in TxHashes(p, c.transactions);
      GetsInIff(p, w, sh, blocks, c);
    }
    if InEarlyBlock(p, sh, sh', blocks, tx) {
      var h :| New(sh, sh', h) && Early(p, sh.chain.blocks.Keys, blocks, sh'.chain.blocks[h])
            && p.txHash(tx) in TxHashes(p, sh'.chain.blocks[h].transactions);
      assert ChainEntryOk(p, w, sh', h) && Placed(p, sh'.chain, h);
      GetsInIff(p, w, sh, blocks, sh'.chain.blocks[h]);
    }
  }

  lemma StillPendingIff(p: Params, w: iset<Block>, sh: Shared, blocks: seq<Block>, tx: SignedTransaction)
    requires Hypotheses(p, w) && NodeInv(p, w, sh) && (forall b :: b in blocks ==> b in w) && DistinctHashes(p, blocks)
    ensures p.txHash(tx) in Finish(p, sh, Opening(sh, blocks)).0.pool.pending
       <==> p.txHash(tx) in sh.pool.pending && !InEarlyOne(p, sh, blocks, tx)
  {
    MempoolAfterMessage(p, w, sh, blocks);
    PurgedIff(p, w, sh, blocks, tx);
    InEarlyIff(p, w, sh, blocks, tx);
  }

  lemma ForeseenLeavesNothing(p: Params, w: iset<Block>, sh: Shared, blocks: seq<Block>)
    requires Hypotheses(p, w) && NodeInv(p, w, sh) && (forall b :: b in blocks ==> b in w) && DistinctHashes(p, blocks)
    requires AllInEarlyOnes(p, sh, blocks)
    ensures NothingLeft(p, sh, Finish(p, sh, Opening(sh, blocks)).0)
  {
    var sh' := Finish(p, sh, Opening(sh, blocks)).0;
    HandlerIsSound(p, w, sh, blocks);
    forall h, tx | New(sh, sh', h) && tx in sh'.chain.blocks[h].transactions
      ensures p.txHash(tx) !in sh'.pool.pending
    {
      assert ChainEntryOk(p, w, sh', h) && Placed(p, sh'.chain, h);
      GetsInIff(p, w, sh, blocks, sh'.chain.blocks[h]);
      StillPendingIff(p, w, sh, blocks, tx);
    }
  }

  /** No block that gets in leaves a transaction pending: the condition, from the message and the start alone. */
  lemma NothingLeftIffForeseen(p: Params, w: iset<Block>, sh: Shared, blocks: seq<Block>)
    requires Hypotheses(p, w) && NodeInv(p, w, sh) && (forall b :: b in blocks ==> b in w) && DistinctHashes(p, blocks)
    ensures NothingLeft(p, sh, Finish(p, sh, Opening(sh, blocks)).0) <==> AllInEarlyOnes(p, sh, blocks)
  {
    if AllInEarlyOnes(p, sh, blocks) {
      ForeseenLeavesNothing(p, w, sh, blocks);
    }
    if NothingLeft(p, sh, Finish(p, sh, Opening(sh, blocks)).0) {
      forall c, tx | GetsIn(p, sh, blocks, c) && tx in c.transactions && p.txHash(tx) in sh.pool.pending
        ensures InEarlyOne(p, sh, blocks, tx)
      {
        GetsInIff(p, w, sh, blocks, c);
        StillPendingIff(p, w, sh, blocks, tx);
      }
    }
  }
}
