// What the orphan loop of the Blocks handler achieves, from its start and for whole messages.
module OrphanRuns {
  import opened Wrappers
  import opened Hashes
  import opened Ledger
  import opened Blocks
  import opened Mempools
  import opened Acceptance
  import opened NodeInvariant
  import opened JobInvariant
  import opened HandlerRuns

  // ----- a pass that finds children

  /** The orphans that are not children of parent, in order. */
  function Others(p: Params, parent: Block, s: seq<Block>): seq<Block> {
    if s == [] then []
    else (if IsChild(p, parent, s[0]) then [] else [s[0]]) + Others(p, parent, s[1..])
  }

  function ChildCount(p: Params, parent: Block, s: seq<Block>): nat {
    if s == [] then 0 else (if IsChild(p, parent, s[0]) then 1 else 0) + ChildCount(p, parent, s[1..])
  }

  function Copies<T>(n: nat, x: T): (s: seq<T>)
    ensures |s| == n && forall i :: 0 <= i < n ==> s[i] == x
  {
    if n == 0 then [] else [x] + Copies(n - 1, x)
  }

  /** Every child of parent among the orphans replays on the state. */
  ghost predicate ChildrenReplay(p: Params, parent: Block, state: Accounts, s: seq<Block>) {
    forall o :: o in s && IsChild(p, parent, o) ==> Replay(state, o.transactions).Some?
  }

  /** One orphan stored and inserted, and its parent's transactions purged. */
  function AfterAdoption(p: Params, sh: Shared, parent: Block, o: Block, child: Accounts): Shared {
    Purged(p, Linked(p, Published(p, sh, o, child), o), parent.transactions)
  }

  /** All children of parent among s are stored and inserted, in order. */
  function Adopted(p: Params, sh: Shared, parent: Block, state: Accounts, s: seq<Block>): Shared
    decreases |s|
  {
    if s == [] then sh
    else match Replay(state, s[0].transactions)
      case Some(child) =>
        if IsChild(p, parent, s[0]) then
          Adopted(p, AfterAdoption(p, sh, parent, s[0], child), parent, state, s[1..])
        else Adopted(p, sh, parent, state, s[1..])
      case None => Adopted(p, sh, parent, state, s[1..])
  }

  /** What one adoption leaves for the next: the invariant and the state of the parent. */
  lemma AdoptOne(p: Params, w: iset<Block>, sh: Shared, parent: Block, o: Block, child: Accounts)
    requires Hypotheses(p, w) && NodeInv(p, w, sh) && o in w && o != p.genesis && Screened(p, o)
    requires IsChild(p, parent, o) && p.Hash(parent) in sh.chain.blocks && p.Hash(parent) in sh.states
    requires Replay(sh.states[p.Hash(parent)], o.transactions) == Some(child)
    ensures var sh' := AfterAdoption(p, sh, parent, o, child);
            && NodeInv(p, w, sh') && Grows(sh, sh')
            && sh'.chain.blocks == sh.chain.blocks[p.Hash(o) := o]
            && p.Hash(o) in sh'.states && sh'.states[p.Hash(o)] == child
  {
    AcceptKeeps(p, w, sh, o, child);
    PurgeKeeps(p, w, Linked(p, Published(p, sh, o, child), o), parent.transactions);
  }

  ghost predicate Adoptable(p: Params, w: iset<Block>, s: seq<Block>) {
    forall o :: o in s ==> o in w && o != p.genesis && Screened(p, o)
  }

  /** What adopting the children of parent among s achieves. */
  ghost predicate AdoptedAll(p: Params, w: iset<Block>, sh: Shared, sh': Shared,
                             parent: Block, state: Accounts, s: seq<Block>) {
    && NodeInv(p, w, sh') && Grows(sh, sh')
    && (forall o :: o in s && IsChild(p, parent, o) ==>
          && p.Hash(o) in sh'.chain.blocks && p.Hash(o) in sh'.states
          && Replay(state, o.transactions) == Some(sh'.states[p.Hash(o)]))
    && (forall h :: h in sh'.chain.blocks && h !in sh.chain.blocks ==>
          sh'.chain.blocks[h] in s && IsChild(p, parent, sh'.chain.blocks[h]))
  }

  lemma AdoptedCons(p: Params, w: iset<Block>, sh: Shared, sh': Shared, sh'': Shared,
                    parent: Block, state: Accounts, s: seq<Block>)
    requires s != [] && Grows(sh, sh') && AdoptedAll(p, w, sh', sh'', parent, state, s[1..])
    requires IsChild(p, parent, s[0]) ==>
               && p.Hash(s[0]) in sh'.states && Replay(state, s[0].transactions) == Some(sh'.states[p.Hash(s[0])])
               && sh'.chain.blocks == sh.chain.blocks[p.Hash(s[0]) := s[0]]
    requires !IsChild(p, parent, s[0]) ==> sh' == sh
    ensures AdoptedAll(p, w, sh, sh'', parent, state, s)
  {
    forall o | o in s && IsChild(p, parent, o)
      ensures p.Hash(o) in sh''.chain.blocks && p.Hash(o) in sh''.states
      ensures Replay(state, o.transactions) == Some(sh''.states[p.Hash(o)])
    {
      if o != s[0] {
        assert o in s[1..];
      }
    }
    forall h | h in sh''.chain.blocks && h !in sh.chain.blocks
      ensures sh''.chain.blocks[h] in s && IsChild(p, parent, sh''.chain.blocks[h])
    {
      if h in sh'.chain.blocks {
        assert sh''.chain.blocks[h] == s[0];
      } else {
        assert sh''.chain.blocks[h] in s[1..];
      }
    }
  }

  lemma {:induction false} AdoptedOk(p: Params, w: iset<Block>, sh: Shared, parent: Block, s: seq<Block>)
    requires Hypotheses(p, w) && NodeInv(p, w, sh) && Adoptable(p, w, s)
    requires p.Hash(parent) in sh.chain.blocks && p.Hash(parent) in sh.states
    requires ChildrenReplay(p, parent, sh.states[p.Hash(parent)], s)
    ensures var state := sh.states[p.Hash(parent)];
            AdoptedAll(p, w, sh, Adopted(p, sh, parent, state, s), parent, state, s)
    decreases |s|
  {
    if s != [] {
      var o, state := s[0], sh.states[p.Hash(parent)];
      assert o in s;
      if IsChild(p, parent, o) {
        var child := Replay(state, o.transactions).value;
        var sh' := AfterAdoption(p, sh, parent, o, child);
        AdoptOne(p, w, sh, parent, o, child);
        AdoptedOk(p, w, sh', parent, s[1..]);
        AdoptedCons(p, w, sh, sh', Adopted(p, sh', parent, state, s[1..]), parent, state, s);
      } else {
        SkipAdopted(p, sh, parent, state, s);
        AdoptedOk(p, w, sh, parent, s[1..]);
        AdoptedCons(p, w, sh, sh, Adopted(p, sh, parent, state, s[1..]), parent, state, s);
      }
    }
  }

  lemma SkipAdopted(p: Params, sh: Shared, parent: Block, state: Accounts, s: seq<Block>)
    requires s != [] && !IsChild(p, parent, s[0])
    ensures Adopted(p, sh, parent, state, s) == Adopted(p, sh, parent, state, s[1..])
  {
  }

  /** The local variables after the adoption of n children. */
  function Repeated(p: Params, d: Desk, parent: Block, n: nat): Desk {
    d.(broadcast := d.broadcast + Copies(n, p.Hash(parent)), stack := d.stack + Copies(n, parent))
  }

  lemma RepeatedNone(p: Params, d: Desk, parent: Block)
    ensures Repeated(p, d, parent, 0) == d
  {
    assert d.broadcast + [] == d.broadcast && d.stack + [] == d.stack;
  }

  lemma RepeatedOnce(p: Params, d: Desk, parent: Block, n: nat)
    ensures Repeated(p, Announced(p, d, parent), parent, n)
         == Repeated(p, d, parent, n + 1)
  {
    CopiesCons(d.broadcast, n, p.Hash(parent));
    CopiesCons(d.stack, n, parent);
  }

  lemma CopiesCons<T>(s: seq<T>, n: nat, x: T)
    ensures s + [x] + Copies(n, x) == s + Copies(n + 1, x)
  {
    assert Copies(n + 1, x) == [x] + Copies(n, x);
  }

  /** The pass over xs + ys gets to ys with the children among xs adopted. */
  ghost predicate Passes(p: Params, sh: Shared, d: Desk, parent: Block, state: Accounts,
                         xs: seq<Block>, ys: seq<Block>, keep: seq<Block>) {
    Settle(p, sh, Pass(d, parent, xs + ys, keep)) ==
    Settle(p, Adopted(p, sh, parent, state, xs), PassedOver(p, d, parent, xs, ys, keep))
  }

  /** The pass when it has adopted the children among xs and kept the others. */
  function PassedOver(p: Params, d: Desk, parent: Block, xs: seq<Block>, ys: seq<Block>, keep: seq<Block>): Job {
    Pass(Repeated(p, d, parent, ChildCount(p, parent, xs)), parent, ys, keep + Others(p, parent, xs))
  }

  lemma PassedOverChild(p: Params, d: Desk, parent: Block, xs: seq<Block>, ys: seq<Block>, keep: seq<Block>)
    requires xs != [] && IsChild(p, parent, xs[0])
    ensures PassedOver(p, Announced(p, d, parent), parent, xs[1..], ys, keep) == PassedOver(p, d, parent, xs, ys, keep)
  {
    RepeatedOnce(p, d, parent, ChildCount(p, parent, xs[1..]));
    FamilyCons(p, parent, xs);
  }

  lemma PassedOverOther(p: Params, d: Desk, parent: Block, xs: seq<Block>, ys: seq<Block>, keep: seq<Block>)
    requires xs != [] && !IsChild(p, parent, xs[0])
    ensures PassedOver(p, d, parent, xs[1..], ys, keep + [xs[0]]) == PassedOver(p, d, parent, xs, ys, keep)
  {
    FamilyCons(p, parent, xs);
    assert keep + [xs[0]] + Others(p, parent, xs[1..]) == keep + ([xs[0]] + Others(p, parent, xs[1..]));
  }

  lemma AdoptedChild(p: Params, sh: Shared, parent: Block, state: Accounts, xs: seq<Block>, child: Accounts)
    requires xs != [] && IsChild(p, parent, xs[0]) && Replay(state, xs[0].transactions) == Some(child)
    ensures Adopted(p, sh, parent, state, xs)
         == Adopted(p, AfterAdoption(p, sh, parent, xs[0], child), parent, state, xs[1..])
  {
  }

  lemma FamilyCons(p: Params, parent: Block, xs: seq<Block>)
    requires xs != []
    ensures IsChild(p, parent, xs[0]) ==>
              && Others(p, parent, xs) == Others(p, parent, xs[1..])
              && ChildCount(p, parent, xs) == ChildCount(p, parent, xs[1..]) + 1
    ensures !IsChild(p, parent, xs[0]) ==>
              && Others(p, parent, xs) == [xs[0]] + Others(p, parent, xs[1..])
              && ChildCount(p, parent, xs) == ChildCount(p, parent, xs[1..])
  {
  }

  lemma PassesChild(p: Params, sh: Shared, d: Desk, parent: Block, state: Accounts,
                    xs: seq<Block>, ys: seq<Block>, keep: seq<Block>, child: Accounts)
    requires xs != [] && IsChild(p, parent, xs[0]) && p.Hash(parent) in sh.states
    requires sh.states[p.Hash(parent)] == state && Replay(state, xs[0].transactions) == Some(child)
    requires Passes(p, AfterAdoption(p, sh, parent, xs[0], child), Announced(p, d, parent),
                    parent, state, xs[1..], ys, keep)
    ensures Passes(p, sh, d, parent, state, xs, ys, keep)
  {
    var rest := xs + ys;
    assert rest[0] == xs[0] && rest[1..] == xs[1..] + ys;
    PassChild(p, sh, d, parent, rest, keep, child);
    PassedOverChild(p, d, parent, xs, ys, keep);
    AdoptedChild(p, sh, parent, state, xs, child);
  }

  lemma PassesOther(p: Params, sh: Shared, d: Desk, parent: Block, state: Accounts,
                    xs: seq<Block>, ys: seq<Block>, keep: seq<Block>)
    requires xs != [] && !IsChild(p, parent, xs[0])
    requires Passes(p, sh, d, parent, state, xs[1..], ys, keep + [xs[0]])
    ensures Passes(p, sh, d, parent, state, xs, ys, keep)
  {
    var rest := xs + ys;
    assert rest[0] == xs[0] && rest[1..] == xs[1..] + ys;
    PassOther(p, sh, d, parent, rest, keep);
    SkipAdopted(p, sh, parent, state, xs);
    PassedOverOther(p, d, parent, xs, ys, keep);
  }

  /** The machine's pass goes through any part of the buffer in which every child replays, adopting the children. */
  lemma {:induction false} PassPrefix(p: Params, w: iset<Block>, sh: Shared, d: Desk,
                                      parent: Block, xs: seq<Block>, ys: seq<Block>, keep: seq<Block>)
    requires Hypotheses(p, w) && NodeInv(p, w, sh) && Adoptable(p, w, xs)
    requires p.Hash(parent) in sh.chain.blocks && p.Hash(parent) in sh.states
    requires ChildrenReplay(p, parent, sh.states[p.Hash(parent)], xs)
    ensures Passes(p, sh, d, parent, sh.states[p.Hash(parent)], xs, ys, keep)
    decreases |xs|
  {
    if xs == [] {
      RepeatedNone(p, d, parent);
      assert xs + ys == ys && keep + [] == keep;
    } else {
      var o, state := xs[0], sh.states[p.Hash(parent)];
      assert o in xs;
      if IsChild(p, parent, o) {
        var child := Replay(state, o.transactions).value;
        AdoptOne(p, w, sh, parent, o, child);
        PassPrefix(p, w, AfterAdoption(p, sh, parent, o, child), Announced(p, d, parent), parent, xs[1..], ys, keep);
        PassesChild(p, sh, d, parent, state, xs, ys, keep, child);
      } else {
        PassPrefix(p, w, sh, d, parent, xs[1..], ys, keep + [o]);
        PassesOther(p, sh, d, parent, state, xs, ys, keep);
      }
    }
  }

  lemma {:induction false} OthersHaveNoChild(p: Params, parent: Block, s: seq<Block>)
    ensures NoChild(p, Others(p, parent, s), parent)
    ensures forall o :: o in Others(p, parent, s) <==> o in s && !IsChild(p, parent, o)
  {
    if s != [] {
      OthersHaveNoChild(p, parent, s[1..]);
      assert forall o :: o in s <==> o == s[0] || o in s[1..];
    }
  }

  lemma DrainOfOne(p: Params, sh: Shared, d: Desk, b: Block)
    requires d.stack == [b]
    ensures Settle(p, sh, Drain(d)) == Settle(p, sh, Pass(d.(stack := []), b, d.orphans, []))
  {
    assert d.stack[..0] == [];
    SettleStep(p, sh, Drain(d));
  }

  /** A part of the buffer at which the pass stops: nothing is left, or a child that does not replay. */
  ghost predicate StopsAt(p: Params, b: Block, state: Accounts, ys: seq<Block>) {
    ys != [] ==> IsChild(p, b, ys[0]) && Replay(state, ys[0].transactions).None?
  }

  /** The buffer up to the first child that does not replay, and the rest. */
  ghost predicate Cut(p: Params, b: Block, state: Accounts, orphans: seq<Block>, xs: seq<Block>, ys: seq<Block>) {
    orphans == xs + ys && ChildrenReplay(p, b, state, xs) && StopsAt(p, b, state, ys)
  }

  lemma {:induction false} CutExists(p: Params, b: Block, state: Accounts, orphans: seq<Block>)
    returns (xs: seq<Block>, ys: seq<Block>)
    ensures Cut(p, b, state, orphans, xs, ys)
    ensures ys == [] <==> ChildrenReplay(p, b, state, orphans)
    decreases |orphans|
  {
    if orphans == [] || StopsAt(p, b, state, orphans) {
      xs, ys := [], orphans;
    } else {
      xs, ys := CutExists(p, b, state, orphans[1..]);
      xs := [orphans[0]] + xs;
      assert forall o :: o in orphans <==> o == orphans[0] || o in orphans[1..];
    }
  }

  /** After a full pass the copies of b on the stack find no more children. */
  lemma CopiesDrain(p: Params, sh: Shared, d: Desk, b: Block, n: nat, orphans: seq<Block>)
    requires d.stack == [] && NoChild(p, orphans, b)
    ensures Settle(p, sh, Drain(Repeated(p, d, b, n).(orphans := orphans)))
         == (sh, Fetch(d.(orphans := orphans, broadcast := d.broadcast + Copies(n, p.Hash(b)))))
  {
    DrainQuiet(p, sh, Repeated(p, d, b, n).(orphans := orphans));
  }

  /** The local variables after the orphan loop for b: a full pass, or one that stopped at a bad child. */
  function AfterLoop(p: Params, d: Desk, b: Block, xs: seq<Block>, ys: seq<Block>): Desk {
    var n := ChildCount(p, b, xs);
    d.(broadcast := d.broadcast + Copies(n, p.Hash(b)),
       stack := if ys == [] then [] else Copies(n, b),
       orphans := if ys == [] then Others(p, b, xs) else d.orphans)
  }

  lemma OrphansAdoptable(p: Params, w: iset<Block>, sh: Shared, d: Desk, b: Block, xs: seq<Block>, ys: seq<Block>)
    requires JobOk(p, w, sh, Drain(d)) && d.stack == [b] && d.orphans == xs + ys
    ensures p.Hash(b) in sh.chain.blocks && Adoptable(p, w, xs)
  {
    assert b in d.stack && Recent(p, sh, d, b);
    forall o | o in xs ensures o in w && o != p.genesis && Screened(p, o) {
      assert o in d.orphans && Candidate(p, w, d, o);
    }
  }

  /** The machine's whole orphan loop for one accepted block is the adoption of the children before the cut. */
  lemma DrainAdopts(p: Params, w: iset<Block>, sh: Shared, d: Desk, b: Block, xs: seq<Block>, ys: seq<Block>)
    requires Hypotheses(p, w) && NodeInv(p, w, sh) && JobOk(p, w, sh, Drain(d)) && d.stack == [b]
    requires p.Hash(b) in sh.states && Cut(p, b, sh.states[p.Hash(b)], d.orphans, xs, ys)
    ensures Settle(p, sh, Drain(d)) ==
            (Adopted(p, sh, b, sh.states[p.Hash(b)], xs), Fetch(AfterLoop(p, d, b, xs, ys)))
  {
    var d0, n, state := d.(stack := []), ChildCount(p, b, xs), sh.states[p.Hash(b)];
    OrphansAdoptable(p, w, sh, d, b, xs, ys);
    DrainOfOne(p, sh, d, b);
    PassPrefix(p, w, sh, d0, b, xs, ys, []);
    assert [] + Others(p, b, xs) == Others(p, b, xs) && [] + Copies(n, b) == Copies(n, b);
    AdoptedOk(p, w, sh, b, xs);
    PassEnds(p, Adopted(p, sh, b, state, xs), d0, b, n, state, xs, ys);
  }

  lemma PassEnds(p: Params, sh: Shared, d0: Desk, b: Block, n: nat, state: Accounts, xs: seq<Block>, ys: seq<Block>)
    requires d0.stack == [] && p.Hash(b) in sh.states && sh.states[p.Hash(b)] == state && StopsAt(p, b, state, ys)
    ensures Settle(p, sh, Pass(Repeated(p, d0, b, n), b, ys, Others(p, b, xs))) ==
            (sh, Fetch(if ys == []
                       then d0.(orphans := Others(p, b, xs), broadcast := d0.broadcast + Copies(n, p.Hash(b)))
                       else Repeated(p, d0, b, n)))
  {
    SettleStep(p, sh, Pass(Repeated(p, d0, b, n), b, ys, Others(p, b, xs)));
    if ys == [] {
      OthersHaveNoChild(p, b, xs);
      CopiesDrain(p, sh, d0, b, n, Others(p, b, xs));
    }
  }

  /**
   The orphan pass after accepting b, when every buffered child of b replays on b's state: all the children, and
   nothing else, get into the chain with their replayed states, the stack ends empty, and the buffer keeps the
   other orphans in order. The announcements repeat b itself, once for each child.
   */
  lemma OrphanPass(p: Params, w: iset<Block>, sh: Shared, d: Desk, b: Block)
    requires Hypotheses(p, w) && NodeInv(p, w, sh) && JobOk(p, w, sh, Drain(d)) && d.stack == [b]
    requires p.Hash(b) in sh.states && ChildrenReplay(p, b, sh.states[p.Hash(b)], d.orphans)
    ensures var (sh', j') := Settle(p, sh, Drain(d));
            && AdoptedAll(p, w, sh, sh', b, sh.states[p.Hash(b)], d.orphans)
            && j' == Fetch(d.(stack := [], orphans := Others(p, b, d.orphans),
                              broadcast := d.broadcast + Copies(ChildCount(p, b, d.orphans), p.Hash(b))))
  {
    assert d.orphans + [] == d.orphans;
    OrphansAdoptable(p, w, sh, d, b, d.orphans, []);
    DrainAdopts(p, w, sh, d, b, d.orphans, []);
    AdoptedOk(p, w, sh, b, d.orphans);
  }

  /**
   The same when the child o does not replay and all children before it do: the children before o get in, and
   nothing else. The loop stops at once: the buffer stays as it was, adopted orphans included, and the stack and the
   announcements hold b once for each child before o.
   */
  lemma OrphanPassStops(p: Params, w: iset<Block>, sh: Shared, d: Desk, b: Block,
                        xs: seq<Block>, o: Block, ys: seq<Block>)
    requires Hypotheses(p, w) && NodeInv(p, w, sh) && JobOk(p, w, sh, Drain(d)) && d.stack == [b]
    requires p.Hash(b) in sh.states && d.orphans == xs + [o] + ys
    requires ChildrenReplay(p, b, sh.states[p.Hash(b)], xs)
    requires IsChild(p, b, o) && Replay(sh.states[p.Hash(b)], o.transactions).None?
    ensures var (sh', j') := Settle(p, sh, Drain(d));
            var n := ChildCount(p, b, xs);
            && AdoptedAll(p, w, sh, sh', b, sh.states[p.Hash(b)], xs)
            && sh' == Adopted(p, sh, b, sh.states[p.Hash(b)], xs)
            && j' == Fetch(d.(stack := Copies(n, b), broadcast := d.broadcast + Copies(n, p.Hash(b))))
  {
    var rest := [o] + ys;
    StoppedCut(p, b, sh.states[p.Hash(b)], d.orphans, xs, o, ys);
    DrainAdopts(p, w, sh, d, b, xs, rest);
    PrefixAdopted(p, w, sh, d, b, xs, rest);
  }

  lemma StoppedCut(p: Params, b: Block, state: Accounts, orphans: seq<Block>, xs: seq<Block>, o: Block, ys: seq<Block>)
    requires orphans == xs + [o] + ys && ChildrenReplay(p, b, state, xs)
    requires IsChild(p, b, o) && Replay(state, o.transactions).None?
    ensures Cut(p, b, state, orphans, xs, [o] + ys)
  {
    assert xs + ([o] + ys) == orphans;
  }

  lemma PrefixAdopted(p: Params, w: iset<Block>, sh: Shared, d: Desk, b: Block, xs: seq<Block>, ys: seq<Block>)
    requires Hypotheses(p, w) && NodeInv(p, w, sh) && JobOk(p, w, sh, Drain(d)) && d.stack == [b]
    requires p.Hash(b) in sh.states && d.orphans == xs + ys && ChildrenReplay(p, b, sh.states[p.Hash(b)], xs)
    ensures var state := sh.states[p.Hash(b)];
            AdoptedAll(p, w, sh, Adopted(p, sh, b, state, xs), b, state, xs)
  {
    OrphansAdoptable(p, w, sh, d, b, xs, ys);
    AdoptedOk(p, w, sh, b, xs);
  }

  ghost predicate ChildrenIn(p: Params, sh: Shared, b: Block, s: seq<Block>) {
    forall o :: o in s && IsChild(p, b, o) ==> p.Hash(o) in sh.chain.blocks
  }

  /** A child in the chain replays on its parent's state. */
  lemma ChildInReplays(p: Params, w: iset<Block>, sh: Shared, b: Block, o: Block)
    requires Hypotheses(p, w) && NodeInv(p, w, sh) && o in w && o != p.genesis && IsChild(p, b, o)
    requires p.Hash(o) in sh.chain.blocks && p.Hash(b) in sh.states
    ensures Replay(sh.states[p.Hash(b)], o.transactions).Some?
  {
    assert ChainEntryOk(p, w, sh, p.Hash(o)) && StateEntryOk(p, sh, o);
  }

  /** All buffered children of b are in the chain after the orphan loop if and only if all of them replay. */
  lemma ChildrenGetInIff(p: Params, w: iset<Block>, sh: Shared, d: Desk, b: Block)
    requires Hypotheses(p, w) && NodeInv(p, w, sh) && JobOk(p, w, sh, Drain(d)) && d.stack == [b]
    requires p.Hash(b) in sh.states
    ensures ChildrenIn(p, Settle(p, sh, Drain(d)).0, b, d.orphans)
       <==> ChildrenReplay(p, b, sh.states[p.Hash(b)], d.orphans)
  {
    var sh' := Settle(p, sh, Drain(d)).0;
    SettleKeeps(p, w, sh, Drain(d));
    if ChildrenReplay(p, b, sh.states[p.Hash(b)], d.orphans) {
      OrphanPass(p, w, sh, d, b);
    }
    if ChildrenIn(p, sh', b, d.orphans) {
      forall o | o in d.orphans && IsChild(p, b, o) ensures Replay(sh.states[p.Hash(b)], o.transactions).Some? {
        assert Candidate(p, w, d, o);
        ChildInReplays(p, w, sh', b, o);
      }
    }
  }

  // ----- what adoption does to the mempool

  /** Adopting orphans purges the transactions of their parent, not their own. */
  lemma {:induction false} AdoptionPurgesParent(p: Params, sh: Shared, parent: Block, state: Accounts, s: seq<Block>)
    requires ChildrenReplay(p, parent, state, s)
    ensures Adopted(p, sh, parent, state, s).pool
         == if ChildCount(p, parent, s) == 0 then sh.pool else RemovedAll(p, sh.pool, parent.transactions)
    decreases |s|
  {
    if s != [] {
      assert s[0] in s;
      if IsChild(p, parent, s[0]) {
        var child := Replay(state, s[0].transactions).value;
        var sh' := AfterAdoption(p, sh, parent, s[0], child);
        AdoptionPurgesParent(p, sh', parent, state, s[1..]);
        RemovedAllIs(p, sh.pool, parent.transactions);
        RemovedAllIs(p, sh'.pool, parent.transactions);
        assert sh'.pool.pending - TxHashes(p, parent.transactions) == sh'.pool.pending;
      } else {
        SkipAdopted(p, sh, parent, state, s);
        AdoptionPurgesParent(p, sh, parent, state, s[1..]);
      }
    }
  }

  // ----- whole messages: orphans first, then their parent

  /** A block that the handler can only keep as an orphan: new, screened, with its parent not in the chain. */
  ghost predicate Homeless(p: Params, sh: Shared, o: Block) {
    p.Hash(o) !in sh.chain.blocks && Screened(p, o) && o.Parent() !in sh.chain.blocks
  }

  /** A block that the handler accepts at once. */
  ghost predicate AcceptedAtOnce(p: Params, sh: Shared, b: Block, state: Accounts) {
    && p.Hash(b) !in sh.chain.blocks && Screened(p, b) && b.Parent() in sh.chain.blocks && b.Parent() in sh.states
    && Replay(sh.states[b.Parent()], b.transactions) == Some(state)
  }

  function Parents(os: seq<Block>): (hs: seq<H256>)
    ensures |hs| == |os| && forall i :: 0 <= i < |os| ==> hs[i] == os[i].Parent()
  {
    seq(|os|, i requires 0 <= i < |os| => os[i].Parent())
  }

  function Waiting(d: Desk, os: seq<Block>, rest: seq<Block>): Desk {
    d.(todo := rest, orphans := d.orphans + os, parents := d.parents + Parents(os))
  }

  lemma OneWaits(p: Params, sh: Shared, d: Desk, o: Block, rest: seq<Block>)
    requires d.todo == [o] + rest && d.stack == [] && Homeless(p, sh, o)
    ensures Finish(p, sh, Fetch(d)) == Finish(p, sh, Fetch(Waiting(d, [o], rest)))
  {
    var d' := Waiting(d, [o], rest);
    assert d.todo[0] == o && d.todo[1..] == rest;
    FinishTurn(p, sh, d);
    DrainQuiet(p, sh, d');
    assert Parents([o]) == [o.Parent()] && d'.(stack := []) == d';
  }

  lemma WaitingCons(d: Desk, os: seq<Block>, rest: seq<Block>)
    requires os != []
    ensures Waiting(Waiting(d, os[..1], os[1..] + rest), os[1..], rest) == Waiting(d, os, rest)
  {
    assert d.orphans + os[..1] + os[1..] == d.orphans + os;
    assert d.parents + Parents(os[..1]) + Parents(os[1..]) == d.parents + Parents(os);
  }

  /** Homeless blocks at the front of the message all go to the buffer, and their parents are asked for. */
  lemma {:induction false} OrphansWait(p: Params, sh: Shared, d: Desk, os: seq<Block>, rest: seq<Block>)
    requires d.todo == os + rest && d.stack == [] && forall o :: o in os ==> Homeless(p, sh, o)
    ensures Finish(p, sh, Fetch(d)) == Finish(p, sh, Fetch(Waiting(d, os, rest)))
    decreases |os|
  {
    if os == [] {
      assert Waiting(d, os, rest) == d by {
        assert os + rest == rest && d.orphans + [] == d.orphans && d.parents + [] == d.parents;
      }
    } else {
      assert Homeless(p, sh, os[0]) && os[..1] == [os[0]];
      assert d.todo == [os[0]] + (os[1..] + rest);
      OneWaits(p, sh, d, os[0], os[1..] + rest);
      OrphansWait(p, sh, Waiting(d, [os[0]], os[1..] + rest), os[1..], rest);
      WaitingCons(d, os, rest);
    }
  }

  lemma WaitingOk(p: Params, w: iset<Block>, sh: Shared, os: seq<Block>, b: Block)
    requires NodeInv(p, w, sh) && b in w && forall o :: o in os ==> o in w && Homeless(p, sh, o)
    ensures JobOk(p, w, sh, Fetch(Waiting(Opening(sh, os + [b]).d, os, [b])))
  {
    var d := Waiting(Opening(sh, os + [b]).d, os, [b]);
    assert d.orphans == os && d.parents == Parents(os);
    WaitingFresh(p, w, sh, os, d);
  }

  lemma WaitingFresh(p: Params, w: iset<Block>, sh: Shared, os: seq<Block>, d: Desk)
    requires NodeInv(p, w, sh) && d.base == sh.chain.blocks.Keys
    requires forall o :: o in os ==> o in w && o in d.msg && Homeless(p, sh, o)
    ensures forall o :: o in os ==> Candidate(p, w, d, o)
    ensures forall h :: h in Parents(os) ==> h !in d.base
  {
    forall h | h in Parents(os) ensures h !in d.base {
      var i :| 0 <= i < |os| && h == os[i].Parent();
      assert Homeless(p, sh, os[i]);
    }
  }

  /** Accepting b, up to the start of the orphan loop. */
  function Accepted(p: Params, sh: Shared, b: Block, state: Accounts): Shared {
    Purged(p, Linked(p, Published(p, sh, b, state), b), b.transactions)
  }

  lemma AcceptedToDrain(p: Params, w: iset<Block>, sh: Shared, d: Desk, b: Block, state: Accounts)
    requires Hypotheses(p, w) && NodeInv(p, w, sh) && JobOk(p, w, sh, Fetch(d)) && d.todo == [b]
    requires AcceptedAtOnce(p, sh, b, state)
    ensures var (sh2, d2) := (Accepted(p, sh, b, state), Announced(p, d.(todo := []), b));
            && NodeInv(p, w, sh2) && JobOk(p, w, sh2, Drain(d2))
            && p.Hash(b) in sh2.chain.blocks && p.Hash(b) in sh2.states && sh2.states[p.Hash(b)] == state
            && sh2.chain.blocks == sh.chain.blocks[p.Hash(b) := b]
            && Finish(p, sh, Fetch(d)) == Finish(p, Settle(p, sh2, Drain(d2)).0, Settle(p, sh2, Drain(d2)).1)
  {
    var d1, sh1 := d.(todo := []), Linked(p, Published(p, sh, b, state), b);
    assert d.todo[1..] == [];
    FinishTurn(p, sh, d);
    JobStepKeeps(p, w, sh, Fetch(d));
    AcceptKeeps(p, w, sh, b, state);
    StoreToDrain(p, w, sh, d1, b, state);
  }

  lemma StoreToDrain(p: Params, w: iset<Block>, sh: Shared, d: Desk, b: Block, state: Accounts)
    requires Hypotheses(p, w) && NodeInv(p, w, sh) && JobOk(p, w, sh, Store(d, b, state))
    ensures var (sh2, j2) := (Accepted(p, sh, b, state), Drain(Announced(p, d, b)));
            && NodeInv(p, w, sh2) && JobOk(p, w, sh2, j2)
            && Settle(p, sh, Store(d, b, state)) == Settle(p, sh2, j2)
  {
    var sh1 := Linked(p, Published(p, sh, b, state), b);
    JobStepKeeps(p, w, sh, Store(d, b, state));
    SettleStep(p, sh, Store(d, b, state));
    JobStepKeeps(p, w, sh1, Purge(d, b));
    SettleStep(p, sh1, Purge(d, b));
  }

  /** What a message of orphans followed by b leaves, where the orphan loop for b stops after xs. */
  ghost predicate MessageDone(p: Params, w: iset<Block>, sh: Shared, r: (Shared, Job), os: seq<Block>, b: Block,
                              state: Accounts, xs: seq<Block>, ys: seq<Block>) {
    && r.0 == Adopted(p, Accepted(p, sh, b, state), b, state, xs)
    && r.1 == Fetch(AfterLoop(p, LoopDesk(p, sh, os, b), b, xs, ys))
    && AdoptedAll(p, w, Accepted(p, sh, b, state), r.0, b, state, xs)
  }

  /** The only new blocks are b and children of b among the orphans. */
  ghost predicate OnlyFamilyAdded(p: Params, sh: Shared, sh': Shared, os: seq<Block>, b: Block) {
    forall h :: h in sh'.chain.blocks && h !in sh.chain.blocks ==>
      h == p.Hash(b) || (sh'.chain.blocks[h] in os && IsChild(p, b, sh'.chain.blocks[h]))
  }

  /** The desk when the orphan loop for b begins. */
  function LoopDesk(p: Params, sh: Shared, os: seq<Block>, b: Block): Desk {
    Announced(p, Waiting(Opening(sh, os + [b]).d, os, []), b)
  }

  lemma MessageWaits(p: Params, w: iset<Block>, sh: Shared, os: seq<Block>, b: Block) returns (d: Desk)
    requires NodeInv(p, w, sh) && b in w && forall o :: o in os ==> o in w && Homeless(p, sh, o)
    ensures JobOk(p, w, sh, Fetch(d)) && d.todo == [b] && Announced(p, d.(todo := []), b) == LoopDesk(p, sh, os, b)
    ensures LoopDesk(p, sh, os, b).orphans == os && LoopDesk(p, sh, os, b).stack == [b]
    ensures Finish(p, sh, Opening(sh, os + [b])) == Finish(p, sh, Fetch(d))
  {
    var d0 := Opening(sh, os + [b]).d;
    d := Waiting(d0, os, [b]);
    OrphansWait(p, sh, d0, os, [b]);
    WaitingOk(p, w, sh, os, b);
    assert [] + os == os && [] + [b] == [b];
  }

  lemma MessageToDrain(p: Params, w: iset<Block>, sh: Shared, os: seq<Block>, b: Block, state: Accounts)
    requires Hypotheses(p, w) && NodeInv(p, w, sh) && b in w && AcceptedAtOnce(p, sh, b, state)
    requires forall o :: o in os ==> o in w && Homeless(p, sh, o)
    ensures var (sh2, d2) := (Accepted(p, sh, b, state), LoopDesk(p, sh, os, b));
            && NodeInv(p, w, sh2) && JobOk(p, w, sh2, Drain(d2)) && d2.orphans == os && d2.stack == [b]
            && p.Hash(b) in sh2.chain.blocks && p.Hash(b) in sh2.states && sh2.states[p.Hash(b)] == state
            && var r := Settle(p, sh2, Drain(d2));
               Finish(p, sh, Opening(sh, os + [b])) == Finish(p, r.0, r.1)
  {
    var d := MessageWaits(p, w, sh, os, b);
    AcceptedToDrain(p, w, sh, d, b, state);
  }

  lemma OrphansThenBlock(p: Params, w: iset<Block>, sh: Shared, os: seq<Block>, b: Block, state: Accounts,
                         xs: seq<Block>, ys: seq<Block>)
    requires Hypotheses(p, w) && NodeInv(p, w, sh) && b in w && AcceptedAtOnce(p, sh, b, state)
    requires forall o :: o in os ==> o in w && Homeless(p, sh, o)
    requires Cut(p, b, state, os, xs, ys)
    ensures MessageDone(p, w, sh, Finish(p, sh, Opening(sh, os + [b])), os, b, state, xs, ys)
  {
    var sh2, d2 := Accepted(p, sh, b, state), LoopDesk(p, sh, os, b);
    MessageToDrain(p, w, sh, os, b, state);
    DrainAdopts(p, w, sh2, d2, b, xs, ys);
    OrphansAdoptable(p, w, sh2, d2, b, xs, ys);
    AdoptedOk(p, w, sh2, b, xs);
  }

  /** What a message of waiting blocks os followed by the acceptable block b leaves. */
  ghost predicate FamilyOutcome(p: Params, sh: Shared, r: (Shared, Job), os: seq<Block>, b: Block, state: Accounts) {
    var (sh', j') := r;
    && p.Hash(b) in sh'.chain.blocks && p.Hash(b) in sh'.states && sh'.states[p.Hash(b)] == state
    && OnlyFamilyAdded(p, sh, sh', os, b)
    && j'.d.parents == Parents(os)
    && sh'.pool == Pool(sh.pool.pending - TxHashes(p, b.transactions), sh.pool.seen)
    && (ChildrenIn(p, sh', b, os) <==> ChildrenReplay(p, b, state, os))
    && (ChildrenReplay(p, b, state, os) ==> j'.d.broadcast == Copies(1 + ChildCount(p, b, os), p.Hash(b)))
  }

  /**
   A message of blocks that must wait, followed by the acceptable block b. Whatever the orphans hold: b gets in with
   its state and nothing but children of b follows, every orphan's parent is asked for, and the mempool loses exactly
   b's transactions. The children of b get in exactly when all of them replay, and then b is announced once for itself
   and once more for each child.
   */
  lemma OrphansThenParent(p: Params, w: iset<Block>, sh: Shared, os: seq<Block>, b: Block, state: Accounts)
    requires Hypotheses(p, w) && NodeInv(p, w, sh) && b in w && AcceptedAtOnce(p, sh, b, state)
    requires forall o :: o in os ==> o in w && Homeless(p, sh, o)
    ensures FamilyOutcome(p, sh, Finish(p, sh, Opening(sh, os + [b])), os, b, state)
  {
    var xs, ys := CutExists(p, b, state, os);
    OrphansThenBlock(p, w, sh, os, b, state, xs, ys);
    MessageBlock(p, w, sh, os, b, state, xs, ys);
    MessageChildren(p, w, sh, os, b, state, xs, ys);
    MessagePool(p, sh, b, state, xs);
    MessageDesk(p, sh, os, b, xs, ys);
  }

  lemma MessageDesk(p: Params, sh: Shared, os: seq<Block>, b: Block, xs: seq<Block>, ys: seq<Block>)
    requires os == xs + ys
    ensures var d := LoopDesk(p, sh, os, b);
            && AfterLoop(p, d, b, xs, ys).parents == Parents(os)
            && (ys == [] ==> AfterLoop(p, d, b, xs, ys).broadcast == Copies(1 + ChildCount(p, b, os), p.Hash(b)))
  {
    assert [] + Parents(os) == Parents(os);
    if ys == [] {
      assert xs == os;
      CopiesCons([], ChildCount(p, b, os), p.Hash(b));
    }
  }

  lemma MessageBlock(p: Params, w: iset<Block>, sh: Shared, os: seq<Block>, b: Block, state: Accounts,
                     xs: seq<Block>, ys: seq<Block>)
    requires os == xs + ys
    requires Hypotheses(p, w) && NodeInv(p, w, sh) && b in w && AcceptedAtOnce(p, sh, b, state)
    requires MessageDone(p, w, sh, Finish(p, sh, Opening(sh, os + [b])), os, b, state, xs, ys)
    ensures var sh' := Finish(p, sh, Opening(sh, os + [b])).0;
            && p.Hash(b) in sh'.chain.blocks && p.Hash(b) in sh'.states && sh'.states[p.Hash(b)] == state
            && OnlyFamilyAdded(p, sh, sh', os, b)
  {
    AcceptKeeps(p, w, sh, b, state);
    var sh2 := Accepted(p, sh, b, state);
    assert sh2.chain.blocks == sh.chain.blocks[p.Hash(b) := b] && p.Hash(b) in sh2.states;
  }

  lemma MessagePool(p: Params, sh: Shared, b: Block, state: Accounts, xs: seq<Block>)
    requires ChildrenReplay(p, b, state, xs)
    ensures Adopted(p, Accepted(p, sh, b, state), b, state, xs).pool
         == Pool(sh.pool.pending - TxHashes(p, b.transactions), sh.pool.seen)
  {
    var sh2 := Accepted(p, sh, b, state);
    AdoptionPurgesParent(p, sh2, b, state, xs);
    RemovedAllIs(p, sh.pool, b.transactions);
    RemovedAllIs(p, sh2.pool, b.transactions);
    assert sh2.pool.pending - TxHashes(p, b.transactions) == sh2.pool.pending;
  }

  lemma MessageChildren(p: Params, w: iset<Block>, sh: Shared, os: seq<Block>, b: Block, state: Accounts,
                        xs: seq<Block>, ys: seq<Block>)
    requires Hypotheses(p, w) && os == xs + ys && (ys == [] <==> ChildrenReplay(p, b, state, os))
    requires forall o :: o in os ==> o in w && Homeless(p, sh, o)
    requires p.GenesisHash() in sh.chain.blocks
    requires var r := Finish(p, sh, Opening(sh, os + [b]));
             && MessageDone(p, w, sh, r, os, b, state, xs, ys)
             && p.Hash(b) in r.0.states && r.0.states[p.Hash(b)] == state
    ensures ChildrenIn(p, Finish(p, sh, Opening(sh, os + [b])).0, b, os) <==> ChildrenReplay(p, b, state, os)
  {
    var sh' := Finish(p, sh, Opening(sh, os + [b])).0;
    if ChildrenIn(p, sh', b, os) {
      forall o | o in os && IsChild(p, b, o) ensures Replay(state, o.transactions).Some? {
        assert Homeless(p, sh, o) && o != p.genesis;
        ChildInReplays(p, w, sh', b, o);
      }
    }
    if ys == [] {
      assert xs + [] == os;
    }
  }

  /**
   The same blocks in two messages. The orphans of the first are forgotten with it: the node only asks for their
   parents. When b then comes alone it gets in, but none of the orphans does, and nothing asks for them again.
   */
  lemma OrphansForgotten(p: Params, w: iset<Block>, sh: Shared, os: seq<Block>, b: Block, state: Accounts)
    requires Hypotheses(p, w) && NodeInv(p, w, sh) && b in w && AcceptedAtOnce(p, sh, b, state)
    requires forall o :: o in os ==> o in w && Homeless(p, sh, o)
    ensures var (sh1, j1) := Finish(p, sh, Opening(sh, os));
            var (sh2, j2) := Finish(p, sh1, Opening(sh1, [b]));
            && sh1 == sh && j1.d.parents == Parents(os) && j1.d.broadcast == []
            && p.Hash(b) in sh2.chain.blocks && (forall o :: o in os ==> p.Hash(o) !in sh2.chain.blocks)
            && j2.d.parents == [] && j2.d.broadcast == [p.Hash(b)]
  {
    var d := Opening(sh, os).d;
    assert os + [] == os && [] + Parents(os) == Parents(os);
    OrphansWait(p, sh, d, os, []);
    assert [] + [b] == [b];
    OrphansThenParent(p, w, sh, [], b, state);
    OutcomeOfOne(p, sh, Finish(p, sh, Opening(sh, [b])), b, state);
    forall o | o in os ensures p.Hash(o) !in Finish(p, sh, Opening(sh, [b])).0.chain.blocks {
      assert Homeless(p, sh, o);
      if p.Hash(o) == p.Hash(b) {
        SameHashSameBlock(p, w, o, b);
      }
    }
  }

  lemma OutcomeOfOne(p: Params, sh: Shared, r: (Shared, Job), b: Block, state: Accounts)
    requires FamilyOutcome(p, sh, r, [], b, state)
    ensures p.Hash(b) in r.0.chain.blocks && r.1.d.parents == [] && r.1.d.broadcast == [p.Hash(b)]
    ensures forall h :: h in r.0.chain.blocks && h !in sh.chain.blocks ==> h == p.Hash(b)
  {
    assert ChildrenReplay(p, b, state, []) && ChildCount(p, b, []) == 0;
    assert Copies(1, p.Hash(b)) == [p.Hash(b)];
  }

  ghost predicate PairOutcome(p: Params, sh: Shared, r: (Shared, Job), o: Block, b: Block) {
    var (sh', j') := r;
    && p.Hash(b) in sh'.chain.blocks && p.Hash(o) in sh'.chain.blocks
    && j'.d.parents == [p.Hash(b)] && j'.d.broadcast == [p.Hash(b), p.Hash(b)]
    && sh'.pool == Pool(sh.pool.pending - TxHashes(p, b.transactions), sh.pool.seen)
    && forall tx :: tx in o.transactions && p.txHash(tx) in sh.pool.pending ==>
         (p.txHash(tx) in sh'.pool.pending <==> p.txHash(tx) !in TxHashes(p, b.transactions))
  }

  /**
   The message [o, b] with o a child of b: both blocks get in, b is asked for although it came with the
   message, and b is announced twice, o never. A pending transaction of o stays pending unless b holds it too.
   */
  lemma OrphanTransactionsStay(p: Params, w: iset<Block>, sh: Shared, o: Block, b: Block, state: Accounts)
    requires Hypotheses(p, w) && NodeInv(p, w, sh) && b in w && AcceptedAtOnce(p, sh, b, state)
    requires o in w && IsChild(p, b, o) && p.Hash(o) !in sh.chain.blocks && Screened(p, o)
    requires Replay(state, o.transactions).Some?
    ensures PairOutcome(p, sh, Finish(p, sh, Opening(sh, [o, b])), o, b)
  {
    assert [o] + [b] == [o, b] && Homeless(p, sh, o);
    OrphansThenParent(p, w, sh, [o], b, state);
    OutcomeOfPair(p, sh, Finish(p, sh, Opening(sh, [o, b])), o, b, state);
  }

  lemma OutcomeOfPair(p: Params, sh: Shared, r: (Shared, Job), o: Block, b: Block, state: Accounts)
    requires IsChild(p, b, o) && Replay(state, o.transactions).Some? && FamilyOutcome(p, sh, r, [o], b, state)
    ensures PairOutcome(p, sh, r, o, b)
  {
    assert [o][1..] == [] && ChildCount(p, b, [o]) == 1 && o in [o];
    assert ChildrenReplay(p, b, state, [o]) && Parents([o]) == [p.Hash(b)];
    assert Copies(1, p.Hash(b)) == [p.Hash(b)] && Copies(2, p.Hash(b)) == [p.Hash(b), p.Hash(b)];
  }
}
