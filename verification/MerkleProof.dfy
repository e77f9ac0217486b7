/**
 Merkle audit paths (crypto/merkle/proof.go), after section 2.1.1 of RFC 6962.

 No digest of fixed size is injective, so the theorems below do not assume one. They say what
 an accepted proof means when the finitely many strings that were actually hashed, by the
 builder of the tree and by the verifier, hold no two with the same digest.
 */
module MerkleProof {
  import opened Prelude
  import opened MerkleTree

  const MAX_AUNTS := 100

  datatype Proof = Proof(total: int, index: int, leafHash: Bytes, aunts: seq<Bytes>)

  datatype Verdict = Accepted | NegativeTotal | NegativeIndex | WrongLeafHash | WrongRootHash

  /** The root that a leaf hash and its aunts lead to; None where the source returns nil. */
  function ComputeHashFromAunts(h: Digest, index: int, total: int, leafHash: Bytes, aunts: seq<Bytes>)
    : (r: Option<Bytes>)
    decreases |aunts|
  {
    if index >= total || index < 0 || total <= 0 then None
    else if total == 1 then
      if |aunts| != 0 then None else Some(leafHash)
    else if |aunts| == 0 then None
    else
      var numLeft := SplitPoint(total);
      var last := |aunts| - 1;
      if index < numLeft then
        match ComputeHashFromAunts(h, index, numLeft, leafHash, aunts[..last])
        case None => None
        case Some(left) => Some(InnerHash(h, left, aunts[last]))
      else
        match ComputeHashFromAunts(h, index - numLeft, total - numLeft, leafHash, aunts[..last])
        case None => None
        case Some(right) => Some(InnerHash(h, aunts[last], right))
  }

  /** bytes.Equal takes nil for the empty string, so a nil root compares as []. */
  function Verify(h: Digest, p: Proof, rootHash: Bytes, leaf: Bytes): Verdict {
    if p.total < 0 then NegativeTotal
    else if p.index < 0 then NegativeIndex
    else if p.leafHash != LeafHash(h, leaf) then WrongLeafHash
    else
      var computed := match ComputeHashFromAunts(h, p.index, p.total, p.leafHash, p.aunts)
                      case None => []
                      case Some(r) => r;
      if computed != rootHash then WrongRootHash else Accepted
  }

  predicate ValidateBasic(p: Proof) {
    && p.total >= 0
    && p.index >= 0
    && |p.leafHash| == DIGEST_SIZE
    && |p.aunts| <= MAX_AUNTS
    && forall i :: 0 <= i < |p.aunts| ==> |p.aunts[i]| == DIGEST_SIZE
  }

  /** The reason for a refusal is the first check that fails. */
  lemma {:induction false} RefusedFor(h: Digest, p: Proof, rootHash: Bytes, leaf: Bytes)
    ensures Verify(h, p, rootHash, leaf) == NegativeTotal <==> p.total < 0
    ensures Verify(h, p, rootHash, leaf) == NegativeIndex <==> p.total >= 0 && p.index < 0
    ensures Verify(h, p, rootHash, leaf) == WrongLeafHash <==> p.total >= 0 && p.index >= 0 && p.leafHash != h([0] + leaf)
  {
  }

  datatype BasicError = TotalNegative | IndexNegative | LeafHashSize | TooManyAunts | AuntSize(i: nat)

  /** Basic validation, check by check; of aunts of a wrong size the first one is reported. */
  method CheckBasic(p: Proof) returns (error: Option<BasicError>)
    ensures error == None <==> ValidateBasic(p)
    ensures error == Some(TotalNegative) <==> p.total < 0
    ensures error == Some(IndexNegative) <==> p.total >= 0 && p.index < 0
    ensures error == Some(LeafHashSize) <==> p.total >= 0 && p.index >= 0 && |p.leafHash| != DIGEST_SIZE
    ensures error == Some(TooManyAunts) <==>
            p.total >= 0 && p.index >= 0 && |p.leafHash| == DIGEST_SIZE && |p.aunts| > MAX_AUNTS
    ensures error.Some? && error.value.AuntSize? ==>
              && |p.aunts| <= MAX_AUNTS && error.value.i < |p.aunts| && |p.aunts[error.value.i]| != DIGEST_SIZE
              && forall j :: 0 <= j < error.value.i ==> |p.aunts[j]| == DIGEST_SIZE
  {
    if p.total < 0 {
      return Some(TotalNegative);
    }
    if p.index < 0 {
      return Some(IndexNegative);
    }
    if |p.leafHash| != DIGEST_SIZE {
      return Some(LeafHashSize);
    }
    if |p.aunts| > MAX_AUNTS {
      return Some(TooManyAunts);
    }
    for i := 0 to |p.aunts|
      invariant forall j :: 0 <= j < i ==> |p.aunts[j]| == DIGEST_SIZE
    {
      if |p.aunts[i]| != DIGEST_SIZE {
        return Some(AuntSize(i));
      }
    }
    return None;
  }

  // ----- Reference definition: the audit path of section 2.1.1 of RFC 6962

  function AuditPath(h: Digest, items: seq<Bytes>, i: nat): seq<Bytes>
    requires i < |items|
    decreases |items|
  {
    if |items| == 1 then []
    else
      var k := SplitPoint(|items|);
      if i < k then AuditPath(h, items[..k], i) + [Root(h, items[k..])]
      else AuditPath(h, items[k..], i - k) + [Root(h, items[..k])]
  }

  /** The proof the builder promises for item i. */
  function ProofFor(h: Digest, items: seq<Bytes>, i: nat): Proof
    requires i < |items|
  {
    Proof(|items|, i, LeafHash(h, items[i]), AuditPath(h, items, i))
  }

  // ----- Completeness

  /** The position and the item count one level below, on the side the index lies on. */
  ghost function Below(index: nat, total: nat): (r: (nat, nat))
    requires index < total && total >= 2
    ensures r.0 < r.1 < total
  {
    var k := SplitPoint(total);
    if index < k then (index, k) else (index - k, total - k)
  }

  /** What is hashed where a subtree on the side of the index meets its aunt. */
  ghost function Joined(index: nat, total: nat, subtree: Bytes, aunt: Bytes): Bytes
    requires total >= 1
  {
    [1] + if index < SplitPoint(total) then subtree + aunt else aunt + subtree
  }

  /** One level of the walk, with the aunt of that level set apart. */
  lemma {:induction false} ComputeStep(h: Digest, index: nat, total: nat, leafHash: Bytes, below: seq<Bytes>, aunt: Bytes)
    requires index < total && total >= 2
    ensures ComputeHashFromAunts(h, index, total, leafHash, below + [aunt]) ==
            var (i, n) := Below(index, total);
            match ComputeHashFromAunts(h, i, n, leafHash, below)
            case None => None
            case Some(x) => Some(h(Joined(index, total, x, aunt)))
  {
    hide SplitPoint;
    assert (below + [aunt])[..|below|] == below;
  }

  /** The audit path of an item is that within its half, and then the root of the other half. */
  lemma {:induction false} AuditPathStep(h: Digest, items: seq<Bytes>, index: nat)
    requires index < |items| && |items| >= 2
    ensures var k := SplitPoint(|items|);
            var (i, n) := Below(index, |items|);
            var side := if index < k then items[..k] else items[k..];
            && n == |side|
            && side[i] == items[index]
            && AuditPath(h, items, index) == AuditPath(h, side, i) + [Root(h, if index < k then items[k..] else items[..k])]
  {
    hide SplitPoint, Root;
  }

  lemma {:induction false} RootJoins(h: Digest, items: seq<Bytes>, index: nat)
    requires index < |items| && |items| >= 2
    ensures var k := SplitPoint(|items|);
            var (mine, other) := if index < k then (items[..k], items[k..]) else (items[k..], items[..k]);
            Root(h, items) == h(Joined(index, |items|, Root(h, mine), Root(h, other)))
  {
    hide SplitPoint;
  }

  lemma {:induction false} AuditPathComputesRoot(h: Digest, items: seq<Bytes>, i: nat)
    requires i < |items|
    ensures ComputeHashFromAunts(h, i, |items|, LeafHash(h, items[i]), AuditPath(h, items, i)) == Some(Root(h, items))
    decreases |items|
  {
    if |items| >= 2 {
      hide ComputeHashFromAunts, AuditPath, Root, SplitPoint, Joined;
      var k := SplitPoint(|items|);
      var (mine, other) := if i < k then (items[..k], items[k..]) else (items[k..], items[..k]);
      var (j, n) := Below(i, |items|);
      AuditPathStep(h, items, i);
      RootJoins(h, items, i);
      AuditPathComputesRoot(h, mine, j);
      ComputeStep(h, i, |items|, LeafHash(h, items[i]), AuditPath(h, mine, j), Root(h, other));
    }
  }

  lemma {:induction false} SplitFits(n: nat, e: nat)
    requires 2 <= n <= Pow2(e)
    ensures e >= 1 && SplitPoint(n) <= Pow2(e - 1)
  {
    var k := SplitPoint(n);
    var d: nat :| k == Pow2(d);
    if d >= e {
      Pow2Monotonic(e, d);
    }
    Pow2Monotonic(d, e - 1);
  }

  /** No more aunts than the logarithm of the item count, rounded up. */
  lemma {:induction false} AuditPathLength(h: Digest, items: seq<Bytes>, i: nat, e: nat)
    requires i < |items| <= Pow2(e)
    ensures |AuditPath(h, items, i)| <= e
    decreases e
  {
    hide Pow2, SplitPoint, Root;
    if |items| == 1 {
      assert AuditPath(h, items, i) == [];
    } else {
      hide AuditPath;
      SplitFits(|items|, e);
      var k := SplitPoint(|items|);
      var mine := if i < k then items[..k] else items[k..];
      AuditPathStep(h, items, i);
      AuditPathLength(h, mine, Below(i, |items|).0, e - 1);
    }
  }

  lemma {:induction false} AuditPathSizes(h: Digest, items: seq<Bytes>, i: nat)
    requires FixedSize(h) && i < |items|
    ensures forall j :: 0 <= j < |AuditPath(h, items, i)| ==> |AuditPath(h, items, i)[j]| == DIGEST_SIZE
    decreases |items|
  {
    if |items| >= 2 {
      hide AuditPath, Root, SplitPoint, FixedSize;
      var k := SplitPoint(|items|);
      var (mine, other) := if i < k then (items[..k], items[k..]) else (items[k..], items[..k]);
      AuditPathStep(h, items, i);
      RootSize(h, other);
      AuditPathSizes(h, mine, Below(i, |items|).0);
    }
  }

  /** Every built proof is accepted, and passes basic validation for any int64 item count. */
  lemma {:induction false} BuiltProofVerifies(h: Digest, items: seq<Bytes>, i: nat)
    requires FixedSize(h) && i < |items|
    ensures Verify(h, ProofFor(h, items, i), Root(h, items), items[i]) == Accepted
    ensures |items| < Pow2(63) ==> ValidateBasic(ProofFor(h, items, i))
    ensures |AuditPath(h, items, i)| <= BitLen(|items| - 1)
  {
    AuditPathComputesRoot(h, items, i);
    AuditPathSizes(h, items, i);
    AuditPathLength(h, items, i, BitLen(|items| - 1));
    if |items| < Pow2(63) {
      AuditPathLength(h, items, i, 63);
    }
  }

  // ----- Soundness

  ghost predicate CollisionFree(h: Digest, hashed: set<Bytes>) {
    forall x, y :: x in hashed && y in hashed && h(x) == h(y) ==> x == y
  }

  /** The strings hashed while the root of items is built. */
  ghost function HashedByTree(h: Digest, items: seq<Bytes>): set<Bytes> {
    if |items| == 0 then {[]}
    else if |items| == 1 then {[0] + items[0]}
    else
      var k := SplitPoint(|items|);
      {[1] + (Root(h, items[..k]) + Root(h, items[k..]))}
      + HashedByTree(h, items[..k]) + HashedByTree(h, items[k..])
  }

  /** The strings hashed while a proof of leaf is verified. */
  ghost function HashedByVerifier(h: Digest, index: int, total: int, leaf: Bytes, aunts: seq<Bytes>): (r: set<Bytes>)
    ensures [0] + leaf in r
    decreases |aunts|
  {
    if index >= total || index < 0 || total <= 1 || |aunts| == 0 then {[0] + leaf}
    else
      var last := |aunts| - 1;
      var (i, n) := Below(index, total);
      HashedByVerifier(h, i, n, leaf, aunts[..last])
      + match ComputeHashFromAunts(h, i, n, LeafHash(h, leaf), aunts[..last])
        case None => {}
        case Some(x) => {Joined(index, total, x, aunts[last])}
  }

  lemma {:induction false} ComputedSize(h: Digest, index: int, total: int, leafHash: Bytes, aunts: seq<Bytes>)
    requires FixedSize(h) && |leafHash| == DIGEST_SIZE
    ensures var r := ComputeHashFromAunts(h, index, total, leafHash, aunts); r.Some? ==> |r.value| == DIGEST_SIZE
  {
  }

  /** The last string hashed for the root of a list, with its digest. */
  lemma {:induction false} TreeTop(h: Digest, items: seq<Bytes>) returns (top: Bytes)
    ensures top in HashedByTree(h, items) && h(top) == Root(h, items)
    ensures |items| == 0 ==> top == []
    ensures |items| > 0 ==> |top| > 0 && top[0] == if |items| == 1 then 0 else 1
    ensures |items| == 1 ==> top == [0] + items[0]
    ensures |items| >= 2 ==> top == [1] + (Root(h, items[..SplitPoint(|items|)]) + Root(h, items[SplitPoint(|items|)..]))
  {
    if |items| == 0 {
      top := [];
    } else if |items| == 1 {
      top := [0] + items[0];
    } else {
      var k := SplitPoint(|items|);
      top := [1] + (Root(h, items[..k]) + Root(h, items[k..]));
    }
  }

  lemma {:induction false} ConcatParts(a: Bytes, b: Bytes, c: Bytes, d: Bytes)
    requires [1] + (a + b) == [1] + (c + d)
    requires |a| == |c| || |b| == |d|
    ensures a == c && b == d
  {
    var s, t := [1] + (a + b), [1] + (c + d);
    assert s[1..] == a + b && t[1..] == c + d;
    assert |a| == |c|;
    assert a == (a + b)[..|a|] && c == (c + d)[..|a|];
    assert b == (a + b)[|a|..] && d == (c + d)[|a|..];
  }

  /** A walk that is over at once ends in the only item of a one-item list. */
  lemma {:induction false} LeafSound(h: Digest, items: seq<Bytes>, leaf: Bytes)
    requires LeafHash(h, leaf) == Root(h, items)
    requires CollisionFree(h, HashedByTree(h, items) + {[0] + leaf})
    ensures items == [leaf]
  {
    var top := TreeTop(h, items);
    assert top == [0] + leaf;
    assert leaf == top[1..] && items[0] == top[1..];
  }

  /** A walk that goes on splits the list as the tree does. */
  lemma {:induction false} StepSound(h: Digest, items: seq<Bytes>, index: nat, total: nat, x: Bytes, aunt: Bytes)
    requires FixedSize(h) && total >= 1 && |x| == DIGEST_SIZE
    requires h(Joined(index, total, x, aunt)) == Root(h, items)
    requires CollisionFree(h, HashedByTree(h, items) + {Joined(index, total, x, aunt)})
    ensures |items| >= 2
    ensures var k := SplitPoint(|items|);
            var left := index < SplitPoint(total);
            && x == Root(h, if left then items[..k] else items[k..])
            && aunt == Root(h, if left then items[k..] else items[..k])
  {
    var top := TreeTop(h, items);
    assert top == Joined(index, total, x, aunt);
    assert top[0] == 1;
    var k := SplitPoint(|items|);
    var left := index < SplitPoint(total);
    RootSize(h, items[..k]);
    RootSize(h, items[k..]);
    ConcatParts(if left then x else aunt, if left then aunt else x, Root(h, items[..k]), Root(h, items[k..]));
  }

  /** One level of an accepted walk: the rest of it is an accepted walk in one half of the list. */
  lemma {:induction false} WalkSound(h: Digest, items: seq<Bytes>, index: int, total: int, leaf: Bytes, aunts: seq<Bytes>)
    returns (side: seq<Bytes>, below: seq<Bytes>, aunt: Bytes)
    requires FixedSize(h) && total != 1
    requires ComputeHashFromAunts(h, index, total, LeafHash(h, leaf), aunts) == Some(Root(h, items))
    requires CollisionFree(h, HashedByTree(h, items) + HashedByVerifier(h, index, total, leaf, aunts))
    ensures 0 <= index < total && |items| >= 2 && aunts == below + [aunt]
    ensures var (k, left) := (SplitPoint(|items|), index < SplitPoint(total));
            && side == (if left then items[..k] else items[k..])
            && aunt == Root(h, if left then items[k..] else items[..k])
    ensures var (i, n) := Below(index, total);
            && ComputeHashFromAunts(h, i, n, LeafHash(h, leaf), below) == Some(Root(h, side))
            && CollisionFree(h, HashedByTree(h, side) + HashedByVerifier(h, i, n, leaf, below))
  {
    below, aunt := aunts[..|aunts| - 1], aunts[|aunts| - 1];
    assert aunts == below + [aunt];
    var (i, n) := Below(index, total);
    ComputeStep(h, index, total, LeafHash(h, leaf), below, aunt);
    ComputedSize(h, i, n, LeafHash(h, leaf), below);
    var x := ComputeHashFromAunts(h, i, n, LeafHash(h, leaf), below).value;
    assert HashedByVerifier(h, index, total, leaf, aunts)
        == HashedByVerifier(h, i, n, leaf, below) + {Joined(index, total, x, aunt)};
    StepSound(h, items, index, total, x, aunt);
    var k := SplitPoint(|items|);
    side := if index < SplitPoint(total) then items[..k] else items[k..];
    assert HashedByTree(h, side) <= HashedByTree(h, items);
  }

  /** An accepted path is a path of the tree: it ends in one of its items. */
  lemma {:induction false} PathSound(h: Digest, items: seq<Bytes>, index: int, total: int, leaf: Bytes, aunts: seq<Bytes>)
    requires FixedSize(h)
    requires ComputeHashFromAunts(h, index, total, LeafHash(h, leaf), aunts) == Some(Root(h, items))
    requires CollisionFree(h, HashedByTree(h, items) + HashedByVerifier(h, index, total, leaf, aunts))
    ensures leaf in items
    ensures total == |items| ==> items[index] == leaf && aunts == AuditPath(h, items, index)
    decreases |aunts|
  {
    if total == 1 {
      LeafSound(h, items, leaf);
    } else {
      var side, below, aunt := WalkSound(h, items, index, total, leaf, aunts);
      var (i, n) := Below(index, total);
      PathSound(h, side, i, n, leaf, below);
      forall j | 0 <= j < |side|
        ensures side[j] in items
      {
      }
      if total == |items| {
        AuditPathStep(h, items, index);
      }
    }
  }

  /** What acceptance means, for arbitrary aunts and a claimed total that may be wrong. */
  lemma {:induction false} AcceptedLeafIsListed(h: Digest, items: seq<Bytes>, p: Proof, leaf: Bytes)
    requires FixedSize(h)
    requires CollisionFree(h, HashedByTree(h, items) + HashedByVerifier(h, p.index, p.total, leaf, p.aunts))
    requires Verify(h, p, Root(h, items), leaf) == Accepted
    ensures leaf in items
  {
    RootSize(h, items);
    PathSound(h, items, p.index, p.total, leaf, p.aunts);
  }

  /** With the right total, the verifier accepts the audit path of the item at the index and nothing else. */
  lemma {:induction false} AcceptedIffAuditPath(h: Digest, items: seq<Bytes>, p: Proof, leaf: Bytes)
    requires FixedSize(h)
    requires CollisionFree(h, HashedByTree(h, items) + HashedByVerifier(h, p.index, p.total, leaf, p.aunts))
    requires p.total == |items|
    ensures Verify(h, p, Root(h, items), leaf) == Accepted <==>
            0 <= p.index < |items| && items[p.index] == leaf && p == ProofFor(h, items, p.index)
  {
    RootSize(h, items);
    if Verify(h, p, Root(h, items), leaf) == Accepted {
      PathSound(h, items, p.index, p.total, leaf, p.aunts);
    }
    if 0 <= p.index < |items| && items[p.index] == leaf && p == ProofFor(h, items, p.index) {
      AuditPathComputesRoot(h, items, p.index);
    }
  }

  /** How many aunts a walk takes: the depth of the item in a tree of that many items. */
  function Depth(index: nat, total: nat): nat
    requires index < total
    decreases total
  {
    if total == 1 then 0
    else
      var k := SplitPoint(total);
      1 + if index < k then Depth(index, k) else Depth(index - k, total - k)
  }

  /** The walk fails exactly when the position is not in the tree or the aunts do not number its depth. */
  lemma {:induction false} WalkFailsIff(h: Digest, index: int, total: int, leafHash: Bytes, aunts: seq<Bytes>)
    ensures ComputeHashFromAunts(h, index, total, leafHash, aunts) == None <==>
            !(0 <= index < total) || |aunts| != Depth(index, total)
    decreases |aunts|
  {
    hide SplitPoint;
    if 0 <= index < total && total >= 2 && |aunts| > 0 {
      var k := SplitPoint(total);
      if index < k {
        WalkFailsIff(h, index, k, leafHash, aunts[..|aunts| - 1]);
      } else {
        WalkFailsIff(h, index - k, total - k, leafHash, aunts[..|aunts| - 1]);
      }
    }
  }

  /** Against the empty root hash the verifier accepts exactly the proofs of the wrong length or position. */
  lemma {:induction false} EmptyRootAcceptsUnusableProofs(h: Digest, p: Proof, leaf: Bytes)
    requires FixedSize(h)
    ensures Verify(h, p, [], leaf) == Accepted <==>
            && p.total >= 0 && p.index >= 0 && p.leafHash == LeafHash(h, leaf)
            && (p.index >= p.total || |p.aunts| != Depth(p.index, p.total))
  {
    hide ComputeHashFromAunts, Depth;
    WalkFailsIff(h, p.index, p.total, p.leafHash, p.aunts);
    if p.leafHash == LeafHash(h, leaf) {
      ComputedSize(h, p.index, p.total, p.leafHash, p.aunts);
    }
  }

  /** For instance, a proof that claims an empty list is accepted for any leaf. */
  lemma {:induction false} EmptyRootAcceptsAnyLeaf(h: Digest, leaf: Bytes)
    requires FixedSize(h)
    ensures Verify(h, Proof(0, 0, LeafHash(h, leaf), []), [], leaf) == Accepted
  {
    EmptyRootAcceptsUnusableProofs(h, Proof(0, 0, LeafHash(h, leaf), []), leaf);
  }

  lemma {:induction false} EqualHalves(a: seq<Bytes>, b: seq<Bytes>, j: nat, k: nat)
    requires j <= |a| && k <= |b|
    requires a[..j] == b[..k] && a[j..] == b[k..]
    ensures a == b
  {
    assert a == a[..j] + a[j..];
    assert b == b[..k] + b[k..];
  }

  /** The root binds the list: two lists of whatever lengths with one root are one list. */
  lemma {:induction false} RootBindsList(h: Digest, a: seq<Bytes>, b: seq<Bytes>)
    requires FixedSize(h)
    requires CollisionFree(h, HashedByTree(h, a) + HashedByTree(h, b))
    requires Root(h, a) == Root(h, b)
    ensures a == b
    decreases |a|
  {
    var s := TreeTop(h, a);
    var t := TreeTop(h, b);
    assert s == t;
    if |a| <= 1 || |b| <= 1 {
      if |a| == 1 {
        assert a[0] == s[1..] && b[0] == t[1..];
      }
    } else {
      var j, k := SplitPoint(|a|), SplitPoint(|b|);
      RootSize(h, a[..j]);
      RootSize(h, b[..k]);
      ConcatParts(Root(h, a[..j]), Root(h, a[j..]), Root(h, b[..k]), Root(h, b[k..]));
      RootBindsList(h, a[..j], b[..k]);
      RootBindsList(h, a[j..], b[k..]);
      EqualHalves(a, b, j, k);
    }
  }
}
