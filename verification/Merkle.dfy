// src/types/merkle.rs: building a Merkle tree, proving membership and checking a proof.
// The function hash_two is a parameter f. What binds a root to its leaves is that no two different pairs, among
// those that the building and the checking actually hash, have the same hash.
module Merkle {
  import opened Bytes
  import opened Hashes

  type HashTwo = (H256, H256) -> H256

  datatype MerkleTree = MerkleTree(leaves: seq<H256>, root: H256, tree: seq<seq<H256>>)

  type Pair = (H256, H256)

  function HashOf(f: HashTwo, x: Pair): H256 {
    f(x.0, x.1)
  }

  ghost predicate Collide(f: HashTwo, x: Pair, y: Pair) {
    HashOf(f, x) == HashOf(f, y)
  }

  /** No two different pairs of the set have the same hash. */
  ghost predicate CollisionFree(f: HashTwo, s: set<Pair>) {
    forall x, y {:trigger Collide(f, x, y)} :: x in s && y in s && Collide(f, x, y) ==> x == y
  }

  // ----- what the tree is

  /** Position i of the layer above: a node hashed with its right neighbour, or with itself when it has none. */
  function Parent(f: HashTwo, layer: seq<H256>, i: nat): H256
    requires 2 * i < |layer|
  {
    f(layer[2 * i], if 2 * i + 1 < |layer| then layer[2 * i + 1] else layer[2 * i])
  }

  function Up(f: HashTwo, layer: seq<H256>): (up: seq<H256>)
    ensures |up| == (|layer| + 1) / 2
    ensures forall i :: 0 <= i < |up| ==> up[i] == Parent(f, layer, i)
  {
    seq((|layer| + 1) / 2, i requires 0 <= i < (|layer| + 1) / 2 => Parent(f, layer, i))
  }

  function Layers(f: HashTwo, leaves: seq<H256>): (layers: seq<seq<H256>>)
    requires leaves != []
    ensures layers != [] && layers[0] == leaves
    decreases |leaves|
  {
    if |leaves| == 1 then [leaves] else [leaves] + Layers(f, Up(f, leaves))
  }

  function RootOf(f: HashTwo, leaves: seq<H256>): H256
    requires leaves != []
    decreases |leaves|
  {
    if |leaves| == 1 then leaves[0] else RootOf(f, Up(f, leaves))
  }

  function CeilLog2(n: nat): nat
    requires n > 0
  {
    if n == 1 then 0 else 1 + CeilLog2((n + 1) / 2)
  }

  function Pow2(k: nat): (p: nat)
    ensures p > 0
  {
    if k == 0 then 1 else 2 * Pow2(k - 1)
  }

  /** The number of nodes in layer k of a tree over n leaves. */
  function Width(n: nat, k: nat): (w: nat)
    requires n > 0
    ensures w > 0
  {
    if k == 0 then n else (Width(n, k - 1) + 1) / 2
  }

  function RightChild(width: nat, i: nat): (j: nat)
    requires 2 * i < width
    ensures j < width
  {
    if 2 * i + 1 < width then 2 * i + 1 else width - 1
  }

  /** Node i of layer k, defined top-down: a missing right child is the last node of the layer below. */
  function NodeAt(f: HashTwo, leaves: seq<H256>, k: nat, i: nat): H256
    requires leaves != [] && i < Width(|leaves|, k)
    decreases k
  {
    if k == 0 then leaves[i]
    else
      f(NodeAt(f, leaves, k - 1, 2 * i), NodeAt(f, leaves, k - 1, RightChild(Width(|leaves|, k - 1), i)))
  }

  // ----- proofs of membership

  /** The hash beside position i in a layer; the node itself when padding stands there. */
  function Sibling(layer: seq<H256>, i: nat): H256
    requires i < |layer|
  {
    var j := if i % 2 == 0 then i + 1 else i - 1;
    if j < |layer| then layer[j] else layer[i]
  }

  function SiblingPath(f: HashTwo, leaves: seq<H256>, i: nat): seq<H256>
    requires i < |leaves|
    decreases |leaves|
  {
    if |leaves| == 1 then [] else [Sibling(leaves, i)] + SiblingPath(f, Up(f, leaves), i / 2)
  }

  /** The hash reached from a datum by combining it with a proof along the bits of i. */
  function Folded(f: HashTwo, datum: H256, proof: seq<H256>, i: nat): H256
    decreases |proof|
  {
    if proof == [] then datum
    else Folded(f, if i % 2 == 0 then f(datum, proof[0]) else f(proof[0], datum), proof[1..], i / 2)
  }

  // ----- the pairs that are hashed

  /** The pair hashed into position i of the layer above. */
  function PairAt(layer: seq<H256>, i: nat): Pair
    requires 2 * i < |layer|
  {
    (layer[2 * i], if 2 * i + 1 < |layer| then layer[2 * i + 1] else layer[2 * i])
  }

  /** All pairs hashed to build the tree. */
  function TreePairs(f: HashTwo, leaves: seq<H256>): set<Pair>
    requires leaves != []
    decreases |leaves|
  {
    if |leaves| == 1 then {}
    else (set i | 0 <= i < (|leaves| + 1) / 2 :: PairAt(leaves, i)) + TreePairs(f, Up(f, leaves))
  }

  /** The pair that a verifier at position i hashes from its current hash and the next element of the proof. */
  function Combined(datum: H256, sibling: H256, i: nat): Pair {
    if i % 2 == 0 then (datum, sibling) else (sibling, datum)
  }

  /** All pairs hashed to check a proof. */
  function ProofPairs(f: HashTwo, datum: H256, proof: seq<H256>, i: nat): set<Pair>
    decreases |proof|
  {
    if proof == [] then {}
    else
      var x := Combined(datum, proof[0], i);
      {x} + ProofPairs(f, HashOf(f, x), proof[1..], i / 2)
  }

  // ----- the code

  function LeavesOf<T>(data: seq<T>, hash: T -> H256): (leaves: seq<H256>)
    ensures |leaves| == |data| && forall i :: 0 <= i < |data| ==> leaves[i] == hash(data[i])
  {
    seq(|data|, i requires 0 <= i < |data| => hash(data[i]))
  }

  function TreeOf(f: HashTwo, leaves: seq<H256>): MerkleTree {
    if leaves == [] then MerkleTree([], ZERO, [])
    else MerkleTree(leaves, RootOf(f, leaves), Layers(f, leaves))
  }

  /** One turn of the builder: pads an odd layer, then hashes it two by two. */
  method NextLayer(f: HashTwo, layer: seq<H256>) returns (nextLayer: seq<H256>)
    requires layer != []
    ensures nextLayer == Up(f, layer)
  {
    var padded := layer;
    if |padded| % 2 != 0 {
      padded := padded + [padded[|padded| - 1]];
    }
    nextLayer := [];
    for i := 0 to |padded| / 2
      invariant nextLayer == Up(f, layer)[..i]
    {
      nextLayer := nextLayer + [f(padded[2 * i], padded[2 * i + 1])];
    }
  }

  method New<T>(f: HashTwo, data: seq<T>, hash: T -> H256) returns (t: MerkleTree)
    ensures t == TreeOf(f, LeavesOf(data, hash))
  {
    if data == [] {
      return MerkleTree([], ZERO, []);
    }
    var leaves := LeavesOf(data, hash);
    if |leaves| == 1 {
      return MerkleTree(leaves, leaves[0], [leaves]);
    }
    ghost var first := leaves;
    var tree := [leaves];
    while |leaves| > 1
      invariant leaves != [] && tree != [] && tree[0] == first && tree[|tree| - 1] == leaves
      invariant tree[..|tree| - 1] + Layers(f, leaves) == Layers(f, first)
      invariant RootOf(f, leaves) == RootOf(f, first)
    {
      AppendShift(tree[..|tree| - 1], leaves, Layers(f, Up(f, leaves)));
      assert tree == tree[..|tree| - 1] + [leaves];
      var nextLayer := NextLayer(f, leaves);
      tree := tree + [nextLayer];
      leaves := nextLayer;
    }
    assert tree == tree[..|tree| - 1] + [leaves];
    return MerkleTree(tree[0], leaves[0], tree);
  }

  /** Each layer but the last has more than one node, and the next layer is built from it. */
  lemma {:induction false} LayerAbove(f: HashTwo, leaves: seq<H256>, k: nat)
    requires leaves != [] && k < |Layers(f, leaves)|
    ensures k + 1 < |Layers(f, leaves)| ==>
              |Layers(f, leaves)[k]| > 1 && Layers(f, leaves)[k + 1] == Up(f, Layers(f, leaves)[k])
    ensures k + 1 == |Layers(f, leaves)| ==> |Layers(f, leaves)[k]| == 1
    decreases k
  {
    if k > 0 {
      LayerAbove(f, Up(f, leaves), k - 1);
    }
  }

  ghost predicate Linked(f: HashTwo, tree: seq<seq<H256>>) {
    && tree != [] && |tree[|tree| - 1]| == 1
    && forall k :: 0 <= k < |tree| - 1 ==> |tree[k]| > 1 && tree[k + 1] == Up(f, tree[k])
  }

  lemma LayersLinked(f: HashTwo, leaves: seq<H256>)
    requires leaves != []
    ensures Linked(f, Layers(f, leaves))
  {
    var tree := Layers(f, leaves);
    LayerAbove(f, leaves, |tree| - 1);
    forall k | 0 <= k < |tree| - 1 ensures |tree[k]| > 1 && tree[k + 1] == Up(f, tree[k]) {
      LayerAbove(f, leaves, k);
    }
  }

  method Proof(f: HashTwo, t: MerkleTree, index: nat) returns (proof: seq<H256>)
    requires t == TreeOf(f, t.leaves)
    ensures proof == if index < |t.leaves| then SiblingPath(f, t.leaves, index) else []
  {
    if index >= |t.leaves| {
      return [];
    }
    LayersLinked(f, t.leaves);
    proof := ProofFrom(f, t.tree, index);
  }

  /** The loop of the prover over the layers below the root. */
  method ProofFrom(f: HashTwo, tree: seq<seq<H256>>, index: nat) returns (proof: seq<H256>)
    requires Linked(f, tree) && index < |tree[0]|
    ensures proof == SiblingPath(f, tree[0], index)
  {
    proof := [];
    var idx: nat := index;
    for k := 0 to |tree| - 1
      invariant idx < |tree[k]|
      invariant proof + SiblingPath(f, tree[k], idx) == SiblingPath(f, tree[0], index)
    {
      var layer := tree[k];
      PathUnfold(f, layer, idx);
      AppendShift(proof, Sibling(layer, idx), SiblingPath(f, tree[k + 1], idx / 2));
      var siblingIdx := if idx % 2 == 0 then idx + 1 else idx - 1;
      if siblingIdx < |layer| {
        proof := proof + [layer[siblingIdx]];
      } else {
        proof := proof + [layer[idx]];
      }
      idx := idx / 2;
    }
  }

  lemma PathUnfold(f: HashTwo, leaves: seq<H256>, i: nat)
    requires i < |leaves| && |leaves| > 1
    ensures SiblingPath(f, leaves, i) == [Sibling(leaves, i)] + SiblingPath(f, Up(f, leaves), i / 2)
  {
  }

  method Verify(f: HashTwo, root: H256, datum: H256, proof: seq<H256>, index: nat, leafSize: nat) returns (ok: bool)
    ensures ok <==> index < leafSize && Folded(f, datum, proof, index) == root
  {
    if index >= leafSize {
      return false;
    }
    var current := datum;
    var idx := index;
    for k := 0 to |proof|
      invariant Folded(f, current, proof[k..], idx) == Folded(f, datum, proof, index)
    {
      assert proof[k..][0] == proof[k] && proof[k..][1..] == proof[k + 1..];
      if idx % 2 == 0 {
        current := f(current, proof[k]);
      } else {
        current := f(proof[k], current);
      }
      idx := idx / 2;
    }
    return current == root;
  }

  // ----- shape of the tree

  lemma {:induction false} WidthShift(n: nat, k: nat)
    requires n > 0
    ensures Width((n + 1) / 2, k) == Width(n, k + 1)
  {
    if k > 0 {
      WidthShift(n, k - 1);
    }
  }

  lemma {:induction false} NodeShift(f: HashTwo, leaves: seq<H256>, k: nat, i: nat)
    requires leaves != [] && i < Width(|leaves|, k + 1)
    ensures i < Width(|Up(f, leaves)|, k)
    ensures NodeAt(f, Up(f, leaves), k, i) == NodeAt(f, leaves, k + 1, i)
    decreases k
  {
    var up := Up(f, leaves);
    WidthShift(|leaves|, k);
    if k == 0 {
      FirstNodes(f, leaves, i);
    } else {
      WidthShift(|leaves|, k - 1);
      var w := Width(|up|, k - 1);
      assert w == Width(|leaves|, k);
      assert 2 * i < w;
      NodeShift(f, leaves, k - 1, 2 * i);
      NodeShift(f, leaves, k - 1, RightChild(w, i));
      NodeUnfold(f, up, k, i);
      NodeUnfold(f, leaves, k + 1, i);
    }
  }

  lemma FirstNodes(f: HashTwo, leaves: seq<H256>, i: nat)
    requires leaves != [] && i < Width(|leaves|, 1)
    ensures NodeAt(f, leaves, 1, i) == Up(f, leaves)[i]
  {
    NodeUnfold(f, leaves, 1, i);
    assert Up(f, leaves)[i] == Parent(f, leaves, i);
  }

  lemma NodeUnfold(f: HashTwo, leaves: seq<H256>, k: nat, i: nat)
    requires leaves != [] && k > 0 && i < Width(|leaves|, k)
    ensures NodeAt(f, leaves, k, i)
         == f(NodeAt(f, leaves, k - 1, 2 * i), NodeAt(f, leaves, k - 1, RightChild(Width(|leaves|, k - 1), i)))
  {
  }

  /** The iterative builder makes CeilLog2(n) + 1 layers, the last of them a single node. */
  lemma {:induction false} LayerWidths(f: HashTwo, leaves: seq<H256>)
    requires leaves != []
    ensures |Layers(f, leaves)| == CeilLog2(|leaves|) + 1
    ensures forall k :: 0 <= k <= CeilLog2(|leaves|) ==> |Layers(f, leaves)[k]| == Width(|leaves|, k)
    ensures Width(|leaves|, CeilLog2(|leaves|)) == 1
    decreases |leaves|
  {
    if |leaves| > 1 {
      var up := Up(f, leaves);
      LayerWidths(f, up);
      WidthShift(|leaves|, CeilLog2(|up|));
      forall k | 0 <= k <= CeilLog2(|leaves|) ensures |Layers(f, leaves)[k]| == Width(|leaves|, k) {
        if k > 0 {
          assert Layers(f, leaves)[k] == Layers(f, up)[k - 1];
          WidthShift(|leaves|, k - 1);
        }
      }
    }
  }

  /** The iterative layers hold the nodes of the top-down padded tree. */
  lemma {:induction false} LayersAreNodes(f: HashTwo, leaves: seq<H256>, k: nat, i: nat)
    requires leaves != [] && k <= CeilLog2(|leaves|) && i < Width(|leaves|, k)
    ensures |Layers(f, leaves)| == CeilLog2(|leaves|) + 1 && |Layers(f, leaves)[k]| == Width(|leaves|, k)
    ensures Layers(f, leaves)[k][i] == NodeAt(f, leaves, k, i)
    decreases k
  {
    LayerWidths(f, leaves);
    if k > 0 {
      var up := Up(f, leaves);
      NodeShift(f, leaves, k - 1, i);
      LayersAreNodes(f, up, k - 1, i);
      assert Layers(f, leaves)[k] == Layers(f, up)[k - 1];
    }
  }

  /** The root is the single top node of the padded tree. */
  lemma {:induction false} RootIsTopNode(f: HashTwo, leaves: seq<H256>)
    requires leaves != []
    ensures Width(|leaves|, CeilLog2(|leaves|)) == 1
    ensures RootOf(f, leaves) == NodeAt(f, leaves, CeilLog2(|leaves|), 0)
    decreases |leaves|
  {
    LayerWidths(f, leaves);
    if |leaves| > 1 {
      RootIsTopNode(f, Up(f, leaves));
      NodeShift(f, leaves, CeilLog2(|leaves|) - 1, 0);
      RootUnfold(f, leaves);
    }
  }

  /** What the builder makes: the leaves, all nodes of the padded tree layer by layer, and the top node as the root. */
  lemma BuiltTree(f: HashTwo, leaves: seq<H256>)
    ensures var t, h := TreeOf(f, leaves), if leaves == [] then 0 else CeilLog2(|leaves|);
            && t.leaves == leaves
            && (leaves == [] ==> t.root == ZERO && t.tree == [])
            && (leaves != [] ==>
                  && |t.tree| == h + 1 && t.tree[0] == leaves
                  && Width(|leaves|, h) == 1 && t.root == NodeAt(f, leaves, h, 0)
                  && (forall k, i :: 0 <= k <= h && 0 <= i < Width(|leaves|, k) ==>
                        |t.tree[k]| == Width(|leaves|, k) && t.tree[k][i] == NodeAt(f, leaves, k, i)))
  {
    if leaves != [] {
      RootIsTopNode(f, leaves);
      LayerWidths(f, leaves);
      forall k: nat, i: nat | k <= CeilLog2(|leaves|) && i < Width(|leaves|, k)
        ensures Layers(f, leaves)[k][i] == NodeAt(f, leaves, k, i)
      {
        LayersAreNodes(f, leaves, k, i);
      }
    }
  }

  /** Layer k of a tree over n leaves has n / 2^k nodes, rounded up. */
  lemma {:induction false} WidthIsCeiling(n: nat, k: nat)
    requires n > 0
    ensures (Width(n, k) - 1) * Pow2(k) < n <= Width(n, k) * Pow2(k)
  {
    if k > 0 {
      WidthIsCeiling(n, k - 1);
      HalvedBound(n, Width(n, k - 1), Pow2(k - 1));
    }
  }

  lemma HalvedBound(n: nat, w: nat, p: nat)
    requires w > 0 && (w - 1) * p < n <= w * p
    ensures ((w + 1) / 2 - 1) * (2 * p) < n <= ((w + 1) / 2) * (2 * p)
  {
    var h := (w + 1) / 2;
    MulMono(2 * h - 2, w - 1, p);
    MulMono(w, 2 * h, p);
    assert (h - 1) * (2 * p) == (2 * h - 2) * p;
    assert h * (2 * p) == (2 * h) * p;
  }

  lemma MulMono(x: int, y: int, p: nat)
    requires x <= y
    ensures x * p <= y * p
  {
  }

  /** The height is the least k with n <= 2^k. */
  lemma {:induction false} CeilLog2IsLeast(n: nat)
    requires n > 0
    ensures n <= Pow2(CeilLog2(n))
    ensures forall k :: 0 <= k < CeilLog2(n) ==> Pow2(k) < n
  {
    if n > 1 {
      var m := (n + 1) / 2;
      CeilLog2IsLeast(m);
      forall k | 0 <= k < CeilLog2(n) ensures Pow2(k) < n {
        if k > 0 {
          assert Pow2(k - 1) < m;
        }
      }
    }
  }

  // ----- what proofs establish

  lemma {:induction false} SiblingPathLength(f: HashTwo, leaves: seq<H256>, i: nat)
    requires i < |leaves|
    ensures |SiblingPath(f, leaves, i)| == CeilLog2(|leaves|)
    decreases |leaves|
  {
    if |leaves| > 1 {
      SiblingPathLength(f, Up(f, leaves), i / 2);
    }
  }

  /** The verifier's pair for a node and its true sibling is the pair that was hashed into the node above. */
  lemma StepUp(f: HashTwo, layer: seq<H256>, i: nat)
    requires i < |layer|
    ensures i / 2 < |Up(f, layer)|
    ensures Combined(layer[i], Sibling(layer, i), i) == PairAt(layer, i / 2)
    ensures Up(f, layer)[i / 2] == HashOf(f, PairAt(layer, i / 2))
  {
    assert Up(f, layer)[i / 2] == Parent(f, layer, i / 2);
    if i % 2 == 0 {
      assert 2 * (i / 2) == i;
    } else {
      assert 2 * (i / 2) + 1 == i;
    }
  }

  lemma FoldUnfold(f: HashTwo, datum: H256, proof: seq<H256>, i: nat)
    requires proof != []
    ensures Folded(f, datum, proof, i) == Folded(f, HashOf(f, Combined(datum, proof[0], i)), proof[1..], i / 2)
  {
  }

  /** Every proof the tree gives leads from the leaf to the root, and checking it hashes only pairs of the tree. */
  lemma {:induction false} Completeness(f: HashTwo, leaves: seq<H256>, i: nat)
    requires i < |leaves|
    ensures Folded(f, leaves[i], SiblingPath(f, leaves, i), i) == RootOf(f, leaves)
    ensures ProofPairs(f, leaves[i], SiblingPath(f, leaves, i), i) <= TreePairs(f, leaves)
    decreases |leaves|
  {
    if |leaves| > 1 {
      var path := SiblingPath(f, leaves, i);
      StepUp(f, leaves, i);
      FoldUnfold(f, leaves[i], path, i);
      Completeness(f, Up(f, leaves), i / 2);
      assert path[1..] == SiblingPath(f, Up(f, leaves), i / 2);
      assert PairAt(leaves, i / 2) in TreePairs(f, leaves);
    }
  }

  lemma FewerPairs(f: HashTwo, s: set<Pair>, t: set<Pair>)
    requires CollisionFree(f, t) && s <= t
    ensures CollisionFree(f, s)
  {
  }

  /**
   A proof of full height that leads to the root starts from that leaf and is that leaf's proof, unless two
   different pairs, hashed in the tree or in the check, collide.
   */
  lemma Soundness(f: HashTwo, leaves: seq<H256>, datum: H256, proof: seq<H256>, i: nat)
    requires i < |leaves| && |proof| == CeilLog2(|leaves|)
    requires CollisionFree(f, TreePairs(f, leaves) + ProofPairs(f, datum, proof, i))
    requires Folded(f, datum, proof, i) == RootOf(f, leaves)
    ensures datum == leaves[i] && proof == SiblingPath(f, leaves, i)
  {
    NamesItself(|leaves|, i);
    FoldsToRootIff(f, leaves, datum, proof, i);
  }

  /** While no pairs collide, a datum has an accepted proof of full height exactly when it is the leaf there. */
  lemma AcceptedIffLeaf(f: HashTwo, leaves: seq<H256>, datum: H256, i: nat)
    requires i < |leaves| && CollisionFree(f, TreePairs(f, leaves))
    ensures datum == leaves[i] <==>
            exists proof: seq<H256> ::
              && |proof| == CeilLog2(|leaves|) && Folded(f, datum, proof, i) == RootOf(f, leaves)
              && CollisionFree(f, TreePairs(f, leaves) + ProofPairs(f, datum, proof, i))
  {
    if datum == leaves[i] {
      var path := SiblingPath(f, leaves, i);
      SiblingPathLength(f, leaves, i);
      Completeness(f, leaves, i);
      assert TreePairs(f, leaves) + ProofPairs(f, datum, path, i) == TreePairs(f, leaves);
    }
    forall proof: seq<H256> |
      && |proof| == CeilLog2(|leaves|) && Folded(f, datum, proof, i) == RootOf(f, leaves)
      && CollisionFree(f, TreePairs(f, leaves) + ProofPairs(f, datum, proof, i))
      ensures datum == leaves[i]
    {
      Soundness(f, leaves, datum, proof, i);
    }
  }

  /** The root determines all the leaves of a list of known length, unless pairs of the two trees collide. */
  lemma {:induction false} RootBinding(f: HashTwo, xs: seq<H256>, ys: seq<H256>)
    requires |xs| == |ys| > 0
    requires CollisionFree(f, TreePairs(f, xs) + TreePairs(f, ys))
    ensures RootOf(f, xs) == RootOf(f, ys) <==> xs == ys
    decreases |xs|
  {
    if |xs| > 1 && RootOf(f, xs) == RootOf(f, ys) {
      var ux, uy := Up(f, xs), Up(f, ys);
      FewerPairs(f, TreePairs(f, ux) + TreePairs(f, uy), TreePairs(f, xs) + TreePairs(f, ys));
      RootUnfold(f, xs);
      RootUnfold(f, ys);
      RootBinding(f, ux, uy);
      forall i | 0 <= i < |xs| ensures xs[i] == ys[i] {
        SameLeaf(f, xs, ys, i);
      }
    }
  }

  lemma SameLeaf(f: HashTwo, xs: seq<H256>, ys: seq<H256>, i: nat)
    requires |xs| == |ys| > 1 && i < |xs| && Up(f, xs) == Up(f, ys)
    requires CollisionFree(f, TreePairs(f, xs) + TreePairs(f, ys))
    ensures xs[i] == ys[i]
  {
    StepUp(f, xs, i);
    StepUp(f, ys, i);
    assert PairAt(xs, i / 2) in TreePairs(f, xs) && PairAt(ys, i / 2) in TreePairs(f, ys);
    assert Collide(f, PairAt(xs, i / 2), PairAt(ys, i / 2));
  }

  // ----- which lists share a root

  /** The leaf that stands at place j of the bottom row once padding has made the tree over n leaves complete. */
  function Place(n: nat, j: nat): (i: nat)
    requires n > 0 && j < Pow2(CeilLog2(n))
    ensures i < n
    decreases n
  {
    if n == 1 then 0
    else
      var i := Place((n + 1) / 2, j / 2);
      if j % 2 == 0 then 2 * i else RightChild(n, i)
  }

  /** The leaves as padding at every level repeats them, 2^height in all. */
  function Spread(xs: seq<H256>): (row: seq<H256>)
    requires xs != []
    ensures |row| == Pow2(CeilLog2(|xs|))
    ensures forall j :: 0 <= j < |row| ==> row[j] == xs[Place(|xs|, j)]
  {
    seq(Pow2(CeilLog2(|xs|)), j requires 0 <= j < Pow2(CeilLog2(|xs|)) => xs[Place(|xs|, j)])
  }

  lemma PlacesOfPair(n: nat, m: nat)
    requires n > 1 && m < Pow2(CeilLog2((n + 1) / 2))
    ensures 2 * m + 1 < Pow2(CeilLog2(n))
    ensures var i := Place((n + 1) / 2, m);
            2 * i < n && Place(n, 2 * m) == 2 * i && Place(n, 2 * m + 1) == RightChild(n, i)
  {
    assert (2 * m + 1) / 2 == m;
  }

  lemma SpreadLength(f: HashTwo, xs: seq<H256>)
    requires |xs| > 1
    ensures |Spread(xs)| == 2 * |Spread(Up(f, xs))|
  {
  }

  lemma SpreadAbove(f: HashTwo, xs: seq<H256>, m: nat)
    requires |xs| > 1 && m < |Spread(Up(f, xs))|
    ensures Spread(Up(f, xs))[m] == HashOf(f, PairAt(xs, Place(|Up(f, xs)|, m)))
  {
    var i := Place(|Up(f, xs)|, m);
    assert Up(f, xs)[i] == Parent(f, xs, i);
  }

  lemma SpreadBelow(xs: seq<H256>, m: nat)
    requires |xs| > 1 && m < Pow2(CeilLog2((|xs| + 1) / 2))
    ensures 2 * m + 1 < |Spread(xs)|
    ensures var i := Place((|xs| + 1) / 2, m);
            2 * i < |xs| && PairAt(xs, i) == (Spread(xs)[2 * m], Spread(xs)[2 * m + 1])
  {
    var n, i, row := |xs|, Place((|xs| + 1) / 2, m), Spread(xs);
    PlacesOfPair(n, m);
    assert row[2 * m] == xs[2 * i] && row[2 * m + 1] == xs[RightChild(n, i)];
  }

  /** Two neighbours of the complete bottom row are the pair hashed into the place above them. */
  lemma SpreadPair(f: HashTwo, xs: seq<H256>, m: nat)
    requires |xs| > 1 && m < |Spread(Up(f, xs))|
    ensures 2 * m + 1 < |Spread(xs)|
    ensures var i := Place(|Up(f, xs)|, m);
            && PairAt(xs, i) == (Spread(xs)[2 * m], Spread(xs)[2 * m + 1])
            && Spread(Up(f, xs))[m] == HashOf(f, PairAt(xs, i))
  {
    SpreadBelow(xs, m);
    SpreadAbove(f, xs, m);
  }

  lemma SpreadUp(f: HashTwo, xs: seq<H256>, ys: seq<H256>)
    requires |xs| > 1 && |ys| > 1 && Spread(xs) == Spread(ys)
    ensures Spread(Up(f, xs)) == Spread(Up(f, ys))
  {
    var ux, uy := Spread(Up(f, xs)), Spread(Up(f, ys));
    SpreadLength(f, xs);
    SpreadLength(f, ys);
    forall m | 0 <= m < |ux| ensures ux[m] == uy[m] {
      SpreadPair(f, xs, m);
      SpreadPair(f, ys, m);
    }
  }

  /** Places m of the rows above agree only if the pairs below do. */
  lemma SamePairs(f: HashTwo, xs: seq<H256>, ys: seq<H256>, m: nat)
    requires |xs| > 1 && |ys| > 1 && m < |Spread(Up(f, xs))| && m < |Spread(Up(f, ys))|
    requires Spread(Up(f, xs))[m] == Spread(Up(f, ys))[m]
    requires CollisionFree(f, TreePairs(f, xs) + TreePairs(f, ys))
    ensures 2 * m + 1 < |Spread(xs)| && 2 * m + 1 < |Spread(ys)|
    ensures Spread(xs)[2 * m] == Spread(ys)[2 * m] && Spread(xs)[2 * m + 1] == Spread(ys)[2 * m + 1]
  {
    SpreadPair(f, xs, m);
    SpreadPair(f, ys, m);
    var x, y := PairAt(xs, Place(|Up(f, xs)|, m)), PairAt(ys, Place(|Up(f, ys)|, m));
    assert x in TreePairs(f, xs) && y in TreePairs(f, ys);
    assert Collide(f, x, y);
  }

  lemma SameRows(s: seq<H256>, t: seq<H256>, n: nat)
    requires |s| == |t| == 2 * n
    requires forall m :: 0 <= m < n ==> s[2 * m] == t[2 * m] && s[2 * m + 1] == t[2 * m + 1]
    ensures s == t
  {
    forall j | 0 <= j < 2 * n ensures s[j] == t[j] {
      assert j == 2 * (j / 2) || j == 2 * (j / 2) + 1;
    }
  }

  lemma SpreadDown(f: HashTwo, xs: seq<H256>, ys: seq<H256>)
    requires |xs| > 1 && |ys| > 1 && Spread(Up(f, xs)) == Spread(Up(f, ys))
    requires CollisionFree(f, TreePairs(f, xs) + TreePairs(f, ys))
    ensures Spread(xs) == Spread(ys)
  {
    var n := |Spread(Up(f, xs))|;
    var s, t := Spread(xs), Spread(ys);
    SpreadLength(f, xs);
    SpreadLength(f, ys);
    forall m | 0 <= m < n ensures s[2 * m] == t[2 * m] && s[2 * m + 1] == t[2 * m + 1] {
      SamePairs(f, xs, ys, m);
    }
    SameRows(s, t, n);
  }

  /** Lists that padding completes to the same row have the same root, whatever the hash function. */
  lemma {:induction false} SpreadDeterminesRoot(f: HashTwo, xs: seq<H256>, ys: seq<H256>)
    requires xs != [] && ys != [] && CeilLog2(|xs|) == CeilLog2(|ys|) && Spread(xs) == Spread(ys)
    ensures RootOf(f, xs) == RootOf(f, ys)
    decreases |xs|
  {
    if |xs| == 1 {
      assert xs[0] == Spread(xs)[0] == Spread(ys)[0] == ys[0];
    } else {
      SpreadUp(f, xs, ys);
      SpreadDeterminesRoot(f, Up(f, xs), Up(f, ys));
      RootUnfold(f, xs);
      RootUnfold(f, ys);
    }
  }

  lemma {:induction false} RootDeterminesSpread(f: HashTwo, xs: seq<H256>, ys: seq<H256>)
    requires xs != [] && ys != [] && CeilLog2(|xs|) == CeilLog2(|ys|) && RootOf(f, xs) == RootOf(f, ys)
    requires CollisionFree(f, TreePairs(f, xs) + TreePairs(f, ys))
    ensures Spread(xs) == Spread(ys)
    decreases |xs|
  {
    if |xs| > 1 {
      var ux, uy := Up(f, xs), Up(f, ys);
      FewerPairs(f, TreePairs(f, ux) + TreePairs(f, uy), TreePairs(f, xs) + TreePairs(f, ys));
      RootUnfold(f, xs);
      RootUnfold(f, ys);
      RootDeterminesSpread(f, ux, uy);
      SpreadDown(f, xs, ys);
    }
  }

  /** Lists of equal height have the same root exactly when padding completes them to the same row. */
  lemma SameHeightIff(f: HashTwo, xs: seq<H256>, ys: seq<H256>)
    requires xs != [] && ys != [] && CeilLog2(|xs|) == CeilLog2(|ys|)
    requires CollisionFree(f, TreePairs(f, xs) + TreePairs(f, ys))
    ensures RootOf(f, xs) == RootOf(f, ys) <==> Spread(xs) == Spread(ys)
  {
    if Spread(xs) == Spread(ys) {
      SpreadDeterminesRoot(f, xs, ys);
    }
    if RootOf(f, xs) == RootOf(f, ys) {
      RootDeterminesSpread(f, xs, ys);
    }
  }

  /** The list k layers up. */
  function Raised(f: HashTwo, xs: seq<H256>, k: nat): (layer: seq<H256>)
    requires xs != [] && k <= CeilLog2(|xs|)
    ensures layer != [] && CeilLog2(|layer|) == CeilLog2(|xs|) - k
    decreases k
  {
    if k == 0 then xs else Raised(f, Up(f, xs), k - 1)
  }

  lemma {:induction false} RaisedKeepsRoot(f: HashTwo, xs: seq<H256>, k: nat)
    requires xs != [] && k <= CeilLog2(|xs|)
    ensures RootOf(f, Raised(f, xs, k)) == RootOf(f, xs)
    ensures TreePairs(f, Raised(f, xs, k)) <= TreePairs(f, xs)
    decreases k
  {
    if k > 0 {
      RootUnfold(f, xs);
      RaisedKeepsRoot(f, Up(f, xs), k - 1);
    }
  }

  lemma {:induction false} RaisedIsLayer(f: HashTwo, xs: seq<H256>, k: nat)
    requires xs != [] && k <= CeilLog2(|xs|)
    ensures k < |Layers(f, xs)| && Layers(f, xs)[k] == Raised(f, xs, k)
    decreases k
  {
    if k > 0 {
      RaisedIsLayer(f, Up(f, xs), k - 1);
      assert Layers(f, xs) == [xs] + Layers(f, Up(f, xs));
    }
  }

  /**
   Two lists, the first no higher than the second, have the same root exactly when the first, completed by padding,
   is the completed layer of the same height in the second, unless pairs of the two trees collide.
   */
  lemma RootsEqualIff(f: HashTwo, xs: seq<H256>, ys: seq<H256>)
    requires xs != [] && ys != [] && CeilLog2(|xs|) <= CeilLog2(|ys|)
    requires CollisionFree(f, TreePairs(f, xs) + TreePairs(f, ys))
    ensures var k := CeilLog2(|ys|) - CeilLog2(|xs|);
            RootOf(f, xs) == RootOf(f, ys) <==> Spread(xs) == Spread(Raised(f, ys, k))
  {
    var k := CeilLog2(|ys|) - CeilLog2(|xs|);
    RaisedKeepsRoot(f, ys, k);
    FewerPairs(f, TreePairs(f, xs) + TreePairs(f, Raised(f, ys, k)), TreePairs(f, xs) + TreePairs(f, ys));
    SameHeightIff(f, xs, Raised(f, ys, k));
  }

  // ----- proofs of any length

  /** The index after m steps of the check: without its low m bits. */
  function High(i: nat, m: nat): nat
    decreases m
  {
    if m == 0 then i else High(i / 2, m - 1)
  }

  /** The number that the low m bits of the index make. */
  function Low(i: nat, m: nat): (r: nat)
    ensures r < Pow2(m)
    decreases m
  {
    if m == 0 then 0 else 2 * Low(i / 2, m - 1) + i % 2
  }

  lemma {:induction false} HighAndLow(i: nat, m: nat)
    ensures i == High(i, m) * Pow2(m) + Low(i, m)
    decreases m
  {
    if m > 0 {
      HighAndLow(i / 2, m - 1);
      Doubled(High(i / 2, m - 1), Pow2(m - 1));
    }
  }

  lemma Doubled(x: nat, y: nat)
    ensures x * (2 * y) == 2 * (x * y)
  {
  }

  lemma FoldConcat(f: HashTwo, datum: H256, xs: seq<H256>, ys: seq<H256>, i: nat)
    ensures Folded(f, datum, xs + ys, i) == Folded(f, Folded(f, datum, xs, i), ys, High(i, |xs|))
    ensures ProofPairs(f, Folded(f, datum, xs, i), ys, High(i, |xs|)) <= ProofPairs(f, datum, xs + ys, i)
    decreases |xs|
  {
    if xs == [] {
      assert xs + ys == ys;
    } else {
      var next := HashOf(f, Combined(datum, xs[0], i));
      assert (xs + ys)[1..] == xs[1..] + ys;
      FoldConcat(f, next, xs[1..], ys, i / 2);
    }
  }

  /** The leaf at the place that the low bits of i name. */
  function Named(n: nat, i: nat): (k: nat)
    requires n > 0
    ensures k < n
  {
    Place(n, Low(i, CeilLog2(n)))
  }

  lemma NamedUp(n: nat, i: nat)
    requires n > 1
    ensures var u := Named((n + 1) / 2, i / 2);
            2 * u < n && Named(n, i) == if i % 2 == 0 then 2 * u else RightChild(n, u)
  {
    var m := CeilLog2((n + 1) / 2);
    assert Low(i, m + 1) == 2 * Low(i / 2, m) + i % 2;
  }

  /** Below the number of leaves an index names its own leaf. */
  lemma {:induction false} NamesItself(n: nat, i: nat)
    requires i < n
    ensures Named(n, i) == i
    decreases n
  {
    if n > 1 {
      NamesItself((n + 1) / 2, i / 2);
      NamedUp(n, i);
    }
  }

  /** A step of the check at any index hashes the pair above the named leaf, if it starts there with its sibling. */
  lemma NamedPair(layer: seq<H256>, x: H256, y: H256, i: nat)
    requires |layer| > 1
    ensures var k, u := Named(|layer|, i), Named((|layer| + 1) / 2, i / 2);
            && k / 2 == u && 2 * u < |layer|
            && (Combined(x, y, i) == PairAt(layer, u) <==> x == layer[k] && y == Sibling(layer, k))
  {
    NamedUp(|layer|, i);
  }

  /** A proof of exactly the height, at any index: accepted exactly for the named leaf with its own proof. */
  lemma {:induction false} FoldsToRootIff(f: HashTwo, leaves: seq<H256>, datum: H256, proof: seq<H256>, i: nat)
    requires leaves != [] && |proof| == CeilLog2(|leaves|)
    requires CollisionFree(f, TreePairs(f, leaves) + ProofPairs(f, datum, proof, i))
    ensures var k := Named(|leaves|, i);
            Folded(f, datum, proof, i) == RootOf(f, leaves)
            <==> datum == leaves[k] && proof == SiblingPath(f, leaves, k)
    decreases |leaves|
  {
    if |leaves| > 1 {
      var x, up := Combined(datum, proof[0], i), Up(f, leaves);
      var next, u := HashOf(f, x), Named(|up|, i / 2);
      FoldUnfold(f, datum, proof, i);
      RootUnfold(f, leaves);
      FewerPairs(f, TreePairs(f, up) + ProofPairs(f, next, proof[1..], i / 2),
                 TreePairs(f, leaves) + ProofPairs(f, datum, proof, i));
      FoldsToRootIff(f, up, next, proof[1..], i / 2);
      NamedPair(leaves, datum, proof[0], i);
      assert up[u] == HashOf(f, PairAt(leaves, u)) by { assert up[u] == Parent(f, leaves, u); }
      assert PairAt(leaves, u) in TreePairs(f, leaves) && x in ProofPairs(f, datum, proof, i);
      assert Collide(f, x, PairAt(leaves, u)) <==> next == up[u];
      assert proof == [proof[0]] + proof[1..];
    }
  }

  /**
   A proof of m elements, no longer than the height, leads to the root exactly when the datum is the node m layers below
   the root that the low m bits of i name, and the proof is the path from there.
   */
  lemma ShortProofIff(f: HashTwo, leaves: seq<H256>, datum: H256, proof: seq<H256>, i: nat)
    requires leaves != [] && |proof| <= CeilLog2(|leaves|)
    requires CollisionFree(f, TreePairs(f, leaves) + ProofPairs(f, datum, proof, i))
    ensures var layer := Raised(f, leaves, CeilLog2(|leaves|) - |proof|);
            var place := Low(i, |proof|);
            && place < |Spread(layer)|
            && (Folded(f, datum, proof, i) == RootOf(f, leaves) <==>
                  && datum == Spread(layer)[place]
                  && proof == SiblingPath(f, layer, Place(|layer|, place)))
  {
    var k := CeilLog2(|leaves|) - |proof|;
    RaisedKeepsRoot(f, leaves, k);
    FewerPairs(f, TreePairs(f, Raised(f, leaves, k)) + ProofPairs(f, datum, proof, i),
               TreePairs(f, leaves) + ProofPairs(f, datum, proof, i));
    FoldsToRootIff(f, Raised(f, leaves, k), datum, proof, i);
  }

  /** A longer proof leads to the root exactly when its first part leads to a leaf, whose proof the rest is. */
  lemma LongProofIff(f: HashTwo, leaves: seq<H256>, datum: H256, front: seq<H256>, rest: seq<H256>, i: nat)
    requires leaves != [] && |rest| == CeilLog2(|leaves|)
    requires CollisionFree(f, TreePairs(f, leaves) + ProofPairs(f, datum, front + rest, i))
    ensures var k := Named(|leaves|, High(i, |front|));
            Folded(f, datum, front + rest, i) == RootOf(f, leaves)
            <==> Folded(f, datum, front, i) == leaves[k] && rest == SiblingPath(f, leaves, k)
  {
    var reached := Folded(f, datum, front, i);
    FoldConcat(f, datum, front, rest, i);
    FewerPairs(f, TreePairs(f, leaves) + ProofPairs(f, reached, rest, High(i, |front|)),
               TreePairs(f, leaves) + ProofPairs(f, datum, front + rest, i));
    FoldsToRootIff(f, leaves, reached, rest, High(i, |front|));
  }

  /** Over an odd number of leaves, one more leaf stands only where the last one was repeated. */
  lemma PlaceWithOneMore(n: nat, j: nat)
    requires n > 1 && n % 2 == 1 && j < Pow2(CeilLog2(n))
    ensures CeilLog2(n + 1) == CeilLog2(n)
    ensures Place(n + 1, j) == Place(n, j) || (Place(n + 1, j) == n && Place(n, j) == n - 1)
  {
    var i := Place((n + 1) / 2, j / 2);
    assert (n + 2) / 2 == (n + 1) / 2;
    assert Place(n + 1, j) == if j % 2 == 0 then 2 * i else RightChild(n + 1, i);
  }

  lemma SpreadPadded(xs: seq<H256>)
    requires |xs| > 1 && |xs| % 2 == 1
    ensures var padded := xs + [xs[|xs| - 1]];
            CeilLog2(|padded|) == CeilLog2(|xs|) && Spread(padded) == Spread(xs)
  {
    var n := |xs|;
    var padded := xs + [xs[n - 1]];
    var row, row' := Spread(xs), Spread(padded);
    PlaceWithOneMore(n, 0);
    forall j | 0 <= j < |row| ensures row[j] == row'[j] {
      PlaceWithOneMore(n, j);
    }
  }

  /** So the length matters: repeating the last element of an odd list keeps the root. */
  lemma OddListPadded(f: HashTwo, xs: seq<H256>)
    requires |xs| > 1 && |xs| % 2 == 1
    ensures RootOf(f, xs) == RootOf(f, xs + [xs[|xs| - 1]])
  {
    SpreadPadded(xs);
    SpreadDeterminesRoot(f, xs, xs + [xs[|xs| - 1]]);
  }

  lemma RootUnfold(f: HashTwo, xs: seq<H256>)
    requires |xs| > 1
    ensures RootOf(f, xs) == RootOf(f, Up(f, xs))
  {
  }
}
