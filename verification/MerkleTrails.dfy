/**
 Building proofs from linked nodes (crypto/merkle/proof.go): the tree is built bottom up, each
 node is linked to its parent and its sibling when its subtree is joined, and a proof is read
 off by walking from a leaf to the root.
 */
module MerkleTrails {
  import opened Prelude
  import opened MerkleTree
  import opened MerkleProof

  class ProofNode {
    const hash: Bytes
    var parent: ProofNode?
    var left: ProofNode?   // left sibling
    var right: ProofNode?  // right sibling

    constructor (hash: Bytes)
      ensures this.hash == hash && IsRoot()
    {
      this.hash := hash;
      parent, left, right := null, null, null;
    }

    ghost predicate IsRoot()
      reads this
    {
      parent == null && left == null && right == null
    }

    /** The node is a child of `up`, and its only sibling has the hash `aunt`. */
    ghost predicate HangsFrom(up: ProofNode, aunt: Bytes)
      reads this
    {
      && parent == up
      && (left == null || right == null)
      && (left != null ==> left.hash == aunt)
      && (left == null ==> right != null && right.hash == aunt)
    }

    /** The hashes of the siblings met on the way to the root. */
    method FlattenAunts(ghost trail: seq<ProofNode>, ghost aunts: seq<Bytes>, ghost root: ProofNode, ghost nodes: set<ProofNode>)
      returns (innerHashes: seq<Bytes>)
      requires IsTrail(trail, aunts, root, nodes) && trail[0] == this && root.IsRoot()
      ensures innerHashes == aunts
    {
      innerHashes := [];
      var spn: ProofNode? := this;
      ghost var i := 0;
      while spn != null
        invariant 0 <= i <= |trail|
        invariant spn == if i < |trail| then trail[i] else null
        invariant innerHashes == aunts[..if i < |aunts| then i else |aunts|]
        decreases |trail| - i
      {
        if spn.left != null {
          innerHashes := innerHashes + [spn.left.hash];
        } else if spn.right != null {
          innerHashes := innerHashes + [spn.right.hash];
        }
        spn := spn.parent;
        i := i + 1;
      }
    }
  }

  /** The nodes from a leaf to the root, each of them hanging from the next one. */
  ghost predicate IsTrail(trail: seq<ProofNode>, aunts: seq<Bytes>, root: ProofNode, nodes: set<ProofNode>)
    reads nodes
  {
    && |trail| == |aunts| + 1
    && trail[|aunts|] == root
    && (forall i :: 0 <= i < |trail| ==> trail[i] in nodes)
    && forall i :: 0 <= i < |aunts| ==> trail[i].HangsFrom(trail[i + 1], aunts[i])
  }

  ghost predicate AreTrails(trails: seq<seq<ProofNode>>, aunts: seq<seq<Bytes>>, root: ProofNode, nodes: set<ProofNode>)
    reads nodes
  {
    && root in nodes
    && root.IsRoot()
    && |trails| == |aunts|
    && forall t :: 0 <= t < |trails| ==> IsTrail(trails[t], aunts[t], root, nodes)
  }

  ghost function EachWith<T>(lists: seq<seq<T>>, x: T): (r: seq<seq<T>>)
    ensures |r| == |lists|
    ensures forall i :: 0 <= i < |lists| ==> r[i] == lists[i] + [x]
  {
    seq(|lists|, i requires 0 <= i < |lists| => lists[i] + [x])
  }

  ghost function AuditPaths(h: Digest, items: seq<Bytes>): (r: seq<seq<Bytes>>)
    ensures |r| == |items|
    ensures forall i :: 0 <= i < |items| ==> r[i] == AuditPath(h, items, i)
  {
    seq(|items|, i requires 0 <= i < |items| => AuditPath(h, items, i))
  }

  /** The leaves are those of the halves; each half's paths end in the root of the other half. */
  lemma {:induction false} TreeSplit(h: Digest, items: seq<Bytes>)
    requires |items| >= 2
    ensures var k := SplitPoint(|items|);
            AuditPaths(h, items) == EachWith(AuditPaths(h, items[..k]), Root(h, items[k..]))
                                  + EachWith(AuditPaths(h, items[k..]), Root(h, items[..k]))
    ensures var k := SplitPoint(|items|);
            Leaves(h, items) == Leaves(h, items[..k]) + Leaves(h, items[k..])
  {
    var k := SplitPoint(|items|);
    assert Leaves(h, items) == Leaves(h, items[..k]) + Leaves(h, items[k..]);
    var split := EachWith(AuditPaths(h, items[..k]), Root(h, items[k..]))
               + EachWith(AuditPaths(h, items[k..]), Root(h, items[..k]));
    forall i | 0 <= i < |items|
      ensures AuditPaths(h, items)[i] == split[i]
    {
      AuditPathStep(h, items, i);
    }
  }

  /** Links two roots below a new one; every trail of the two halves grows by that node. */
  method Link(leftRoot: ProofNode, rightRoot: ProofNode, root: ProofNode,
              ghost lefts: seq<seq<ProofNode>>, ghost leftAunts: seq<seq<Bytes>>, ghost leftNodes: set<ProofNode>,
              ghost rights: seq<seq<ProofNode>>, ghost rightAunts: seq<seq<Bytes>>, ghost rightNodes: set<ProofNode>)
    requires AreTrails(lefts, leftAunts, leftRoot, leftNodes) && AreTrails(rights, rightAunts, rightRoot, rightNodes)
    requires leftNodes !! rightNodes !! {root}
    requires root.IsRoot()
    modifies leftRoot, rightRoot
    ensures AreTrails(EachWith(lefts, root) + EachWith(rights, root),
                      EachWith(leftAunts, rightRoot.hash) + EachWith(rightAunts, leftRoot.hash),
                      root, leftNodes + rightNodes + {root})
  {
    leftRoot.parent := root;
    leftRoot.right := rightRoot;
    rightRoot.parent := root;
    rightRoot.left := leftRoot;
    ghost var nodes := leftNodes + rightNodes + {root};
    forall t | 0 <= t < |lefts|
      ensures IsTrail(lefts[t] + [root], leftAunts[t] + [rightRoot.hash], root, nodes)
    {
      assert old(IsTrail(lefts[t], leftAunts[t], leftRoot, leftNodes));
    }
    forall t | 0 <= t < |rights|
      ensures IsTrail(rights[t] + [root], rightAunts[t] + [leftRoot.hash], root, nodes)
    {
      assert old(IsTrail(rights[t], rightAunts[t], rightRoot, rightNodes));
    }
  }

  /** The i-th trail starts in the node of the i-th leaf. */
  ghost predicate StartAtLeaves(trails: seq<ProofNode>, paths: seq<seq<ProofNode>>, leaves: seq<Bytes>) {
    && |trails| == |paths| == |leaves|
    && forall t :: 0 <= t < |trails| ==> |paths[t]| > 0 && paths[t][0] == trails[t] && trails[t].hash == leaves[t]
  }

  lemma {:induction false} StartsJoin(lefts: seq<ProofNode>, leftPaths: seq<seq<ProofNode>>, leftLeaves: seq<Bytes>,
                                      rights: seq<ProofNode>, rightPaths: seq<seq<ProofNode>>, rightLeaves: seq<Bytes>,
                                      root: ProofNode)
    requires StartAtLeaves(lefts, leftPaths, leftLeaves) && StartAtLeaves(rights, rightPaths, rightLeaves)
    ensures StartAtLeaves(lefts + rights, EachWith(leftPaths, root) + EachWith(rightPaths, root), leftLeaves + rightLeaves)
  {
  }

  /** The linked tree over the items, with the trail of each item along its audit path. */
  method TrailsFromByteSlices(h: Digest, items: seq<Bytes>)
    returns (trails: seq<ProofNode>, root: ProofNode, ghost paths: seq<seq<ProofNode>>, ghost nodes: set<ProofNode>)
    ensures fresh(nodes)
    ensures AreTrails(paths, AuditPaths(h, items), root, nodes)
    ensures root.hash == Root(h, items)
    ensures StartAtLeaves(trails, paths, Leaves(h, items))
    decreases |items|
  {
    if |items| == 0 {
      root := new ProofNode(EmptyHash(h));
      trails, paths, nodes := [], [], {root};
    } else if |items| == 1 {
      root := new ProofNode(LeafHash(h, items[0]));
      trails, paths, nodes := [root], [[root]], {root};
    } else {
      var k := SplitPoint(|items|);
      var lefts, leftRoot, leftPaths, leftNodes := TrailsFromByteSlices(h, items[..k]);
      var rights, rightRoot, rightPaths, rightNodes := TrailsFromByteSlices(h, items[k..]);
      root := new ProofNode(InnerHash(h, leftRoot.hash, rightRoot.hash));
      ghost var leftAunts, rightAunts := AuditPaths(h, items[..k]), AuditPaths(h, items[k..]);
      Link(leftRoot, rightRoot, root, leftPaths, leftAunts, leftNodes, rightPaths, rightAunts, rightNodes);
      trails := lefts + rights;
      paths, nodes := EachWith(leftPaths, root) + EachWith(rightPaths, root), leftNodes + rightNodes + {root};
      TreeSplit(h, items);
      StartsJoin(lefts, leftPaths, Leaves(h, items[..k]), rights, rightPaths, Leaves(h, items[k..]), root);
    }
  }

  /** The walks over the linked nodes yield the audit paths of section 2.1.1 of RFC 6962. */
  method ProofsFromByteSlices(h: Digest, items: seq<Bytes>) returns (rootHash: Bytes, proofs: seq<Proof>)
    ensures rootHash == Root(h, items)
    ensures |proofs| == |items|
    ensures forall i :: 0 <= i < |items| ==> proofs[i] == ProofFor(h, items, i)
  {
    hide AuditPath, Root;
    var trails, root, paths, nodes := TrailsFromByteSlices(h, items);
    ghost var aunts := AuditPaths(h, items);
    rootHash := root.hash;
    proofs := [];
    for i := 0 to |items|
      invariant AreTrails(paths, aunts, root, nodes)
      invariant |proofs| == i
      invariant forall j :: 0 <= j < i ==> proofs[j] == Proof(|items|, j, trails[j].hash, aunts[j])
    {
      assert IsTrail(paths[i], aunts[i], root, nodes);
      var innerHashes := trails[i].FlattenAunts(paths[i], aunts[i], root, nodes);
      proofs := proofs + [Proof(|items|, i, trails[i].hash, innerHashes)];
    }
  }
}
