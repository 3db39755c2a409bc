// src/types/block.rs and src/blockchain/mod.rs: blocks, their hashes, and the tree of blocks with its tip.
module Blocks {
  import opened Bytes
  import opened Hashes
  import opened Ledger

  datatype Header = Header(parent: H256, nonce: u32, difficulty: H256, timestamp: nat, merkleRoot: H256)

  datatype Block = Block(header: Header, transactions: seq<SignedTransaction>)
  {
    function Parent(): H256 { header.parent }
  }

  /** What the node computes with library code, and the constants it is built with. */
  datatype Params = Params(
    headerHash: Header -> H256,
    txHash: SignedTransaction -> H256,
    txSize: SignedTransaction -> nat,
    hashTwo: (H256, H256) -> H256,
    verify: (Transaction, seq<byte>, seq<byte>) -> bool,
    founder: Address,
    genesis: Block,
    difficulty: H256)
  {
    /** The hash of a block is the hash of its header alone. */
    function Hash(b: Block): H256 { headerHash(b.header) }

    predicate Verified(tx: SignedTransaction) { verify(tx.transaction, tx.publicKey, tx.signature) }

    function GenesisHash(): H256 { Hash(genesis) }
  }

  /** The constants of the source: the difficulty bound and the genesis block built by Blockchain::new. */
  function Difficulty(): H256 {
    H256([0, 1, 150, 1, 1, 1, 1, 1, 1, 1, 1, 1, 1, 1, 1, 1, 1, 1, 1, 1, 1, 1, 1, 1, 1, 1, 1, 1, 1, 1, 1, 1])
  }

  function Genesis(): Block {
    Block(Header(ZERO, 0, Difficulty(), 0, ZERO), [])
  }

  /** The parameters of a real node; the theorems hold for every genesis block and bound. */
  function SourceParams(headerHash: Header -> H256, txHash: SignedTransaction -> H256,
                        txSize: SignedTransaction -> nat, hashTwo: (H256, H256) -> H256,
                        verify: (Transaction, seq<byte>, seq<byte>) -> bool, founder: Address): Params {
    Params(headerHash, txHash, txSize, hashTwo, verify, founder, Genesis(), Difficulty())
  }

  /**
   The hypotheses on the blocks w that occur: no two share a hash, and none hashes to the parent that genesis
   names (all zeros in the source). The hash covers the header only, so "same hash, same block" includes the
   transactions. The genesis block has no transactions.
   */
  ghost predicate Hypotheses(p: Params, w: iset<Block>) {
    && p.genesis in w && p.genesis.transactions == []
    && (forall a, b {:trigger Collide(p, a, b)} :: a in w && b in w && Collide(p, a, b) ==> a == b)
    && (forall a :: a in w ==> p.Hash(a) != p.genesis.Parent())
  }

  ghost predicate Collide(p: Params, a: Block, b: Block) {
    p.Hash(a) == p.Hash(b)
  }

  lemma SameHashSameBlock(p: Params, w: iset<Block>, a: Block, b: Block)
    requires Hypotheses(p, w) && a in w && b in w && p.Hash(a) == p.Hash(b)
    ensures a == b
  {
    assert Collide(p, a, b);
  }
}

module BlockTree {
  import opened Hashes
  import opened Ledger
  import opened Blocks

  datatype Tree = Tree(blocks: map<H256, Block>, tip: H256, heights: map<H256, nat>)

  function TipHeight(t: Tree): nat {
    if t.tip in t.heights then t.heights[t.tip] else 0
  }

  function Root(p: Params): Tree {
    Tree(map[p.GenesisHash() := p.genesis], p.GenesisHash(), map[p.GenesisHash() := 0])
  }

  function NewHeight(t: Tree, b: Block): nat {
    (if b.Parent() in t.heights then t.heights[b.Parent()] else 0) + 1
  }

  /** The tree after Blockchain::insert: a strictly higher block becomes the tip. */
  function Inserted(p: Params, t: Tree, b: Block): Tree {
    var h := p.Hash(b);
    var t' := Tree(t.blocks[h := b], t.tip, t.heights[h := NewHeight(t, b)]);
    if NewHeight(t, b) > TipHeight(t') then t'.(tip := h) else t'
  }

  class Blockchain {
    const p: Params
    var blocks: map<H256, Block>
    var tip: H256
    var heights: map<H256, nat>

    ghost function View(): Tree
      reads this
    {
      Tree(blocks, tip, heights)
    }

    ghost predicate Valid()
      reads this
    {
      tip in heights
    }

    constructor (p: Params)
      ensures this.p == p && Valid() && View() == Root(p)
    {
      this.p := p;
      blocks := map[p.Hash(p.genesis) := p.genesis];
      tip := p.Hash(p.genesis);
      heights := map[p.Hash(p.genesis) := 0];
    }

    method Insert(block: Block)
      requires Valid()
      modifies this
      ensures Valid() && View() == Inserted(p, old(View()), block)
    {
      var blockHash := p.Hash(block);
      var parentHash := block.Parent();
      var parentHeight := if parentHash in heights then heights[parentHash] else 0;
      var newBlockHeight := parentHeight + 1;
      blocks := blocks[blockHash := block];
      heights := heights[blockHash := newBlockHeight];
      var currentTipHeight := heights[tip];
      if newBlockHeight > currentTipHeight {
        tip := blockHash;
      }
    }

    /** The hashes from genesis to the tip, found by walking back from the tip. */
    method AllBlocksInLongestChain() returns (chain: seq<H256>)
      requires WellFormed(p, View())
      ensures chain == Branch(p, View(), tip)
    {
      chain := [];
      var current := tip;
      while current in blocks
        invariant current in blocks ==> Branch(p, View(), tip) == Branch(p, View(), current) + Reverse(chain)
        invariant current !in blocks ==> Branch(p, View(), tip) == Reverse(chain)
        decreases if current in blocks then 1 + heights[current] else 0
      {
        assert Placed(p, View(), current);
        ReverseSnoc(chain, current);
        BranchSnoc(p, View(), current, Reverse(chain));
        chain := chain + [current];
        current := blocks[current].Parent();
      }
      chain := Reverse(chain);
    }
  }

  function Reverse<T>(s: seq<T>): seq<T> {
    if s == [] then [] else Reverse(s[1..]) + [s[0]]
  }

  lemma {:induction false} ReverseSnoc<T>(s: seq<T>, x: T)
    ensures Reverse(s + [x]) == [x] + Reverse(s)
  {
    if s == [] {
      assert [] + [x] == [x];
    } else {
      assert (s + [x])[1..] == s[1..] + [x];
      ReverseSnoc(s[1..], x);
    }
  }

  // ----- well-formed trees

  /** The block stored under h has that hash, sits one above its parent, and is no higher than the tip. */
  ghost predicate Placed(p: Params, t: Tree, h: H256) {
    && h in t.blocks && h in t.heights && p.Hash(t.blocks[h]) == h
    && t.heights[h] <= TipHeight(t)
    && (h != p.GenesisHash() ==>
          && t.blocks[h].Parent() in t.blocks && t.blocks[h].Parent() in t.heights
          && t.heights[h] == t.heights[t.blocks[h].Parent()] + 1)
  }

  ghost predicate WellFormed(p: Params, t: Tree) {
    var g := p.GenesisHash();
    && t.blocks.Keys == t.heights.Keys
    && p.genesis.Parent() !in t.blocks
    && g in t.blocks && t.blocks[g] == p.genesis && t.heights[g] == 0
    && t.tip in t.blocks
    && (forall h {:trigger Placed(p, t, h)} :: h in t.blocks ==> Placed(p, t, h))
  }

  /** A block that may be inserted: not genesis, its parent already there. */
  ghost predicate Extends(p: Params, t: Tree, b: Block) {
    b != p.genesis && b.Parent() in t.blocks
  }

  ghost predicate Known(t: Tree, w: iset<Block>) {
    forall h :: h in t.blocks ==> t.blocks[h] in w
  }

  /** Inserting a block that is already there changes nothing. */
  lemma ReinsertionIsIdle(p: Params, w: iset<Block>, t: Tree, b: Block)
    requires Hypotheses(p, w) && WellFormed(p, t) && Known(t, w) && b in w && Extends(p, t, b)
    requires p.Hash(b) in t.blocks
    ensures t.blocks[p.Hash(b)] == b && Inserted(p, t, b) == t
  {
    var h := p.Hash(b);
    assert Placed(p, t, h);
    SameHashSameBlock(p, w, t.blocks[h], b);
    assert t.blocks[h := b] == t.blocks;
    assert t.heights[h := NewHeight(t, b)] == t.heights;
  }

  lemma InsertKeepsWellFormed(p: Params, w: iset<Block>, t: Tree, b: Block)
    requires Hypotheses(p, w) && WellFormed(p, t) && Known(t, w) && b in w && Extends(p, t, b)
    ensures WellFormed(p, Inserted(p, t, b)) && Known(Inserted(p, t, b), w)
    ensures p.Hash(b) != p.GenesisHash()
  {
    var h, t' := p.Hash(b), Inserted(p, t, b);
    if h == p.GenesisHash() {
      SameHashSameBlock(p, w, b, p.genesis);
    }
    if h in t.blocks {
      ReinsertionIsIdle(p, w, t, b);
    } else {
      forall k | k in t'.blocks ensures Placed(p, t', k) {
        StillPlaced(p, t, b, k);
      }
    }
  }

  lemma StillPlaced(p: Params, t: Tree, b: Block, k: H256)
    requires WellFormed(p, t) && Extends(p, t, b) && p.Hash(b) !in t.blocks
    requires k == p.Hash(b) || k in t.blocks
    ensures Placed(p, Inserted(p, t, b), k)
  {
    assert Placed(p, t, t.tip);
    assert Placed(p, t, b.Parent());
    if k != p.Hash(b) {
      assert Placed(p, t, k);
    }
  }

  /** An insertion never lowers the tip, and moves it only to a strictly higher block. */
  lemma TipNeverFalls(p: Params, w: iset<Block>, t: Tree, b: Block)
    requires Hypotheses(p, w) && WellFormed(p, t) && Known(t, w) && b in w && Extends(p, t, b)
    ensures var t' := Inserted(p, t, b);
            && TipHeight(t') >= TipHeight(t)
            && (t'.tip != t.tip <==> TipHeight(t') > TipHeight(t))
            && (t'.tip != t.tip ==> t'.tip == p.Hash(b) && TipHeight(t') == TipHeight(t) + 1)
            && (forall h :: h in t.heights ==> h in t'.heights && t'.heights[h] == t.heights[h])
  {
    if p.Hash(b) in t.blocks {
      ReinsertionIsIdle(p, w, t, b);
    } else {
      assert Placed(p, t, b.Parent());
      assert Placed(p, t, t.tip);
    }
  }

  // ----- branches

  /** The hashes on the path from genesis to h. */
  ghost function Branch(p: Params, t: Tree, h: H256): seq<H256>
    requires WellFormed(p, t) && h in t.blocks
    decreases t.heights[h]
  {
    assert Placed(p, t, h);
    if h == p.GenesisHash() then [h] else Branch(p, t, t.blocks[h].Parent()) + [h]
  }

  lemma BranchSnoc(p: Params, t: Tree, h: H256, after: seq<H256>)
    requires WellFormed(p, t) && h in t.blocks
    ensures h == p.GenesisHash() ==> Branch(p, t, h) + after == [h] + after
    ensures h != p.GenesisHash() ==>
              && Placed(p, t, h)
              && Branch(p, t, h) + after == Branch(p, t, t.blocks[h].Parent()) + ([h] + after)
  {
    assert Placed(p, t, h);
  }

  /** A branch is duplicate-free, parent-linked, starts at genesis, ends at h and has height(h) + 1 blocks. */
  lemma {:induction false} BranchIsPath(p: Params, t: Tree, h: H256)
    requires WellFormed(p, t) && h in t.blocks
    ensures var branch := Branch(p, t, h);
            && |branch| == t.heights[h] + 1
            && branch[0] == p.GenesisHash() && branch[|branch| - 1] == h
            && (forall i :: 0 <= i < |branch| ==> branch[i] in t.blocks && t.heights[branch[i]] == i)
            && (forall i :: 0 < i < |branch| ==> t.blocks[branch[i]].Parent() == branch[i - 1])
            && (forall i, j :: 0 <= i < j < |branch| ==> branch[i] != branch[j])
    decreases t.heights[h]
  {
    assert Placed(p, t, h);
    if h != p.GenesisHash() {
      BranchIsPath(p, t, t.blocks[h].Parent());
    }
  }

  lemma {:induction false} DistinctCount<T>(s: seq<T>, m: set<T>)
    requires forall i :: 0 <= i < |s| ==> s[i] in m
    requires forall i, j :: 0 <= i < j < |s| ==> s[i] != s[j]
    ensures |s| <= |m|
    decreases |s|
  {
    if s != [] {
      DistinctCount(s[1..], m - {s[0]});
    }
  }

  /** A height is below the number of blocks, so u64 heights do not overflow. */
  lemma HeightBelowBlockCount(p: Params, t: Tree, h: H256)
    requires WellFormed(p, t) && h in t.blocks
    ensures t.heights[h] < |t.blocks|
  {
    BranchIsPath(p, t, h);
    DistinctCount(Branch(p, t, h), t.blocks.Keys);
  }

  /** The transactions on the path from genesis to h, in order. */
  ghost function BranchTxs(p: Params, t: Tree, h: H256): seq<SignedTransaction>
    requires WellFormed(p, t) && h in t.blocks
    decreases t.heights[h]
  {
    assert Placed(p, t, h);
    if h == p.GenesisHash() then [] else BranchTxs(p, t, t.blocks[h].Parent()) + t.blocks[h].transactions
  }

  // ----- trees grown by insertion

  /** The tree after inserting the blocks of a log, in order, into a new chain. */
  function Grown(p: Params, log: seq<Block>): Tree
    decreases |log|
  {
    if log == [] then Root(p) else Inserted(p, Grown(p, log[..|log| - 1]), log[|log| - 1])
  }

  ghost predicate ParentSeen(p: Params, log: seq<Block>, b: Block) {
    b.Parent() == p.GenesisHash() || exists c :: c in log && p.Hash(c) == b.Parent()
  }

  /** Each block of the log has its parent at genesis or earlier in the log. */
  ghost predicate ParentFirst(p: Params, w: iset<Block>, log: seq<Block>)
    decreases |log|
  {
    log != [] ==>
      var log', b := log[..|log| - 1], log[|log| - 1];
      b in w && b != p.genesis && ParentSeen(p, log', b) && ParentFirst(p, w, log')
  }

  /** The tree grown from a log is well-formed and holds exactly genesis and the blocks of the log. */
  ghost predicate Holds(p: Params, t: Tree, log: seq<Block>) {
    && (forall b :: b in log ==> p.Hash(b) in t.blocks && t.blocks[p.Hash(b)] == b)
    && (forall h :: h in t.blocks && h != p.GenesisHash() ==> t.blocks[h] in log)
  }

  lemma RootIsWellFormed(p: Params, w: iset<Block>)
    requires Hypotheses(p, w)
    ensures WellFormed(p, Root(p)) && Known(Root(p), w)
  {
    assert forall h :: h in Root(p).blocks ==> Placed(p, Root(p), h);
  }

  lemma {:induction false} GrownIsWellFormed(p: Params, w: iset<Block>, log: seq<Block>)
    requires Hypotheses(p, w) && ParentFirst(p, w, log)
    ensures WellFormed(p, Grown(p, log)) && Known(Grown(p, log), w) && Holds(p, Grown(p, log), log)
    decreases |log|
  {
    if log == [] {
      RootIsWellFormed(p, w);
    } else {
      var log', b := log[..|log| - 1], log[|log| - 1];
      GrownIsWellFormed(p, w, log');
      OneMore(p, w, Grown(p, log'), log', b);
      assert log == log' + [b];
    }
  }

  lemma OneMore(p: Params, w: iset<Block>, t: Tree, log: seq<Block>, b: Block)
    requires Hypotheses(p, w) && WellFormed(p, t) && Known(t, w) && Holds(p, t, log)
    requires b in w && b != p.genesis && ParentSeen(p, log, b)
    ensures Extends(p, t, b)
    ensures var t' := Inserted(p, t, b); WellFormed(p, t') && Known(t', w) && Holds(p, t', log + [b])
  {
    InsertKeepsWellFormed(p, w, t, b);
    HoldsOneMore(p, w, t, log, b);
  }

  lemma HoldsOneMore(p: Params, w: iset<Block>, t: Tree, log: seq<Block>, b: Block)
    requires Hypotheses(p, w) && WellFormed(p, t) && Known(t, w) && b in w && Extends(p, t, b)
    requires Holds(p, t, log)
    ensures Holds(p, Inserted(p, t, b), log + [b])
  {
    var t', log' := Inserted(p, t, b), log + [b];
    forall c | c in log' ensures p.Hash(c) in t'.blocks && t'.blocks[p.Hash(c)] == c {
      if c != b && p.Hash(c) == p.Hash(b) {
        assert c in log && t.blocks[p.Hash(c)] == c;
        SameHashSameBlock(p, w, c, b);
      }
    }
    forall h | h in t'.blocks && h != p.GenesisHash() ensures t'.blocks[h] in log' {
      if h != p.Hash(b) {
        assert t.blocks[h] in log;
      }
    }
  }

  lemma {:induction false} HeightsDetermined(p: Params, t: Tree, u: Tree, h: H256)
    requires WellFormed(p, t) && WellFormed(p, u) && t.blocks == u.blocks && h in t.blocks
    ensures t.heights[h] == u.heights[h]
    decreases t.heights[h]
  {
    assert Placed(p, t, h) && Placed(p, u, h);
    if h != p.GenesisHash() {
      HeightsDetermined(p, t, u, t.blocks[h].Parent());
    }
  }

  lemma HeldElsewhere(p: Params, t: Tree, u: Tree, log1: seq<Block>, log2: seq<Block>, h: H256)
    requires WellFormed(p, t) && Holds(p, t, log1) && WellFormed(p, u) && Holds(p, u, log2)
    requires forall b :: b in log1 ==> b in log2
    requires h in t.blocks
    ensures h in u.blocks && t.blocks[h] == u.blocks[h]
  {
    assert Placed(p, t, h);
    if h != p.GenesisHash() {
      assert t.blocks[h] in log2;
    }
  }

  lemma SameLogSameTree(p: Params, t: Tree, u: Tree, log1: seq<Block>, log2: seq<Block>)
    requires WellFormed(p, t) && Holds(p, t, log1) && WellFormed(p, u) && Holds(p, u, log2)
    requires forall b :: b in log1 <==> b in log2
    ensures t.blocks == u.blocks && t.heights == u.heights
  {
    forall h | h in t.blocks || h in u.blocks
      ensures h in t.blocks && h in u.blocks && t.blocks[h] == u.blocks[h]
    {
      if h in t.blocks {
        HeldElsewhere(p, t, u, log1, log2, h);
      } else {
        HeldElsewhere(p, u, t, log2, log1, h);
      }
    }
    assert t.blocks == u.blocks;
    forall h | h in t.heights ensures t.heights[h] == u.heights[h] {
      HeightsDetermined(p, t, u, h);
    }
    assert t.heights == u.heights;
  }

  /** The order of parent-before-child insertions does not matter, repeats included. */
  lemma OrderIndependence(p: Params, w: iset<Block>, log1: seq<Block>, log2: seq<Block>)
    requires Hypotheses(p, w) && ParentFirst(p, w, log1) && ParentFirst(p, w, log2)
    requires forall b :: b in log1 <==> b in log2
    ensures var (t, u) := (Grown(p, log1), Grown(p, log2));
            && t.blocks == u.blocks && t.heights == u.heights && TipHeight(t) == TipHeight(u)
            && ((forall h :: h in t.heights && t.heights[h] == TipHeight(t) ==> h == t.tip) ==> t.tip == u.tip)
  {
    var (t, u) := (Grown(p, log1), Grown(p, log2));
    GrownIsWellFormed(p, w, log1);
    GrownIsWellFormed(p, w, log2);
    SameLogSameTree(p, t, u, log1, log2);
    assert Placed(p, t, u.tip) && Placed(p, u, t.tip);
  }

  /** The block at position i of the run: genesis first, then the log. */
  function Nth(p: Params, log: seq<Block>, i: nat): Block
    requires i <= |log|
  {
    if i == 0 then p.genesis else log[i - 1]
  }

  /** Position i of the run holds the tip, and every earlier block is strictly lower. */
  ghost predicate EarliestHighest(p: Params, t: Tree, log: seq<Block>, i: nat) {
    && i <= |log| && p.Hash(Nth(p, log, i)) == t.tip
    && (forall j :: 0 <= j <= |log| ==>
          var h := p.Hash(Nth(p, log, j));
          h in t.heights && t.heights[h] <= TipHeight(t) && (j < i ==> t.heights[h] < TipHeight(t)))
  }

  /** The tip is the earliest inserted among the blocks of maximal height. */
  lemma TipIsEarliestHighest(p: Params, w: iset<Block>, log: seq<Block>)
    requires Hypotheses(p, w) && ParentFirst(p, w, log)
    ensures exists i: nat :: EarliestHighest(p, Grown(p, log), log, i)
  {
    var i := TipPlace(p, w, log);
  }

  lemma {:induction false} TipPlace(p: Params, w: iset<Block>, log: seq<Block>) returns (i: nat)
    requires Hypotheses(p, w) && ParentFirst(p, w, log)
    ensures EarliestHighest(p, Grown(p, log), log, i)
    decreases |log|
  {
    if log == [] {
      i := 0;
      GenesisIsEarliestHighest(p);
    } else {
      var log', b := log[..|log| - 1], log[|log| - 1];
      i := TipPlace(p, w, log');
      GrownIsWellFormed(p, w, log');
      i := TipPositionStep(p, w, Grown(p, log'), log', b, i);
      assert log' + [b] == log;
    }
  }

  lemma GenesisIsEarliestHighest(p: Params)
    ensures EarliestHighest(p, Root(p), [], 0)
  {
  }

  lemma TipPositionStep(p: Params, w: iset<Block>, t: Tree, log: seq<Block>, b: Block, i: nat) returns (k: nat)
    requires Hypotheses(p, w) && WellFormed(p, t) && Known(t, w) && Holds(p, t, log)
    requires b in w && b != p.genesis && ParentSeen(p, log, b)
    requires EarliestHighest(p, t, log, i)
    ensures EarliestHighest(p, Inserted(p, t, b), log + [b], k)
  {
    var t' := Inserted(p, t, b);
    TipNeverFalls(p, w, t, b);
    InsertKeepsWellFormed(p, w, t, b);
    assert Placed(p, t', p.Hash(b));
    k := if t'.tip == t.tip then i else |log| + 1;
    TipPosition(p, t, t', log, b, i, k);
  }

  lemma TipPosition(p: Params, t: Tree, t': Tree, log: seq<Block>, b: Block, i: nat, k: nat)
    requires EarliestHighest(p, t, log, i)
    requires forall h :: h in t.heights ==> h in t'.heights && t'.heights[h] == t.heights[h]
    requires p.Hash(b) in t'.heights && t'.heights[p.Hash(b)] <= TipHeight(t')
    requires if t'.tip == t.tip then k == i && TipHeight(t') == TipHeight(t)
             else k == |log| + 1 && t'.tip == p.Hash(b) && TipHeight(t') > TipHeight(t)
    ensures EarliestHighest(p, t', log + [b], k)
  {
    var log' := log + [b];
    forall j | 0 <= j <= |log'|
      ensures var h := p.Hash(Nth(p, log', j));
              h in t'.heights && t'.heights[h] <= TipHeight(t') && (j < k ==> t'.heights[h] < TipHeight(t'))
    {
      NthPrefix(p, log, b, j);
    }
    NthPrefix(p, log, b, k);
  }

  lemma NthPrefix(p: Params, log: seq<Block>, b: Block, j: nat)
    requires j <= |log| + 1
    ensures Nth(p, log + [b], j) == if j <= |log| then Nth(p, log, j) else b
  {
  }
}
