/**
 Merkle tree hashing (crypto/merkle/hash.go and crypto/merkle/tree.go), after section 2.1
 of RFC 6962.

 The digest function is foreign code, so it is a parameter `h` of everything here.
 */
module MerkleTree {
  import opened Prelude

  type Digest = Bytes -> Bytes

  const DIGEST_SIZE := 32

  ghost predicate FixedSize(h: Digest) {
    forall x :: |h(x)| == DIGEST_SIZE
  }

  function EmptyHash(h: Digest): Bytes {
    h([])
  }

  function LeafHash(h: Digest, leaf: Bytes): Bytes {
    h([0] + leaf)
  }

  function InnerHash(h: Digest, left: Bytes, right: Bytes): Bytes {
    h([1] + (left + right))
  }

  // ----- The split point

  function Pow2(e: nat): (p: nat)
    ensures p >= 1
  {
    if e == 0 then 1 else 2 * Pow2(e - 1)
  }

  ghost predicate IsPowerOf2(k: nat) {
    exists e: nat :: k == Pow2(e)
  }

  /** The number of bits needed to write n, as bits.Len computes it. */
  function BitLen(n: nat): (b: nat)
    ensures n == 0 <==> b == 0
    ensures n > 0 ==> Pow2(b - 1) <= n < Pow2(b)
  {
    if n == 0 then 0 else 1 + BitLen(n / 2)
  }

  /** The largest power of two below length; 0 for length 1, as the shift leaves it. */
  function SplitPoint(length: nat): (k: nat)
    requires length >= 1
    ensures length >= 2 ==> 1 <= k < length <= 2 * k && IsPowerOf2(k)
  {
    var k := Pow2(BitLen(length) - 1);
    if k == length then k / 2 else k
  }

  lemma {:induction false} Pow2Monotonic(a: nat, b: nat)
    requires a <= b
    ensures Pow2(a) <= Pow2(b)
    decreases b
  {
    if a < b {
      Pow2Monotonic(a, b - 1);
    }
  }

  lemma {:induction false} SplitPointUnique(length: nat, k: nat)
    requires length >= 2 && IsPowerOf2(k) && k < length <= 2 * k
    ensures k == SplitPoint(length)
  {
    var s := SplitPoint(length);
    var d: nat :| k == Pow2(d);
    var e: nat :| s == Pow2(e);
    if d < e {
      Pow2Monotonic(d + 1, e);
    } else if e < d {
      Pow2Monotonic(e + 1, d);
    }
  }

  /** Halving a level halves its split point. */
  lemma {:induction false} SplitPointHalves(length: nat)
    requires length >= 3
    ensures SplitPoint(length) == 2 * SplitPoint((length + 1) / 2)
  {
    var k := SplitPoint(length);
    var e: nat :| k == Pow2(e);
    assert e > 0;
    assert k == 2 * Pow2(e - 1);
    SplitPointUnique((length + 1) / 2, Pow2(e - 1));
  }

  // ----- The recursive hash

  function Root(h: Digest, items: seq<Bytes>): Bytes {
    if |items| == 0 then EmptyHash(h)
    else if |items| == 1 then LeafHash(h, items[0])
    else
      var k := SplitPoint(|items|);
      InnerHash(h, Root(h, items[..k]), Root(h, items[k..]))
  }

  lemma RootSize(h: Digest, items: seq<Bytes>)
    requires FixedSize(h)
    ensures |Root(h, items)| == DIGEST_SIZE
  {
  }

  // ----- The bottom-up hash

  function Leaves(h: Digest, items: seq<Bytes>): (r: seq<Bytes>)
    ensures |r| == |items|
    ensures forall i :: 0 <= i < |items| ==> r[i] == LeafHash(h, items[i])
  {
    seq(|items|, i requires 0 <= i < |items| => LeafHash(h, items[i]))
  }

  /** The recursive hash of a level whose entries are hashed already. */
  ghost function RootOfLevel(h: Digest, level: seq<Bytes>): Bytes {
    if |level| == 0 then EmptyHash(h)
    else if |level| == 1 then level[0]
    else
      var k := SplitPoint(|level|);
      InnerHash(h, RootOfLevel(h, level[..k]), RootOfLevel(h, level[k..]))
  }

  /** One bottom-up pass: neighbours are joined, a last odd one is promoted unchanged. */
  ghost function Paired(h: Digest, level: seq<Bytes>): (r: seq<Bytes>)
    ensures |r| == (|level| + 1) / 2
  {
    if |level| < 2 then level
    else [InnerHash(h, level[0], level[1])] + Paired(h, level[2..])
  }

  lemma {:induction false} RootIsRootOfLeaves(h: Digest, items: seq<Bytes>)
    ensures Root(h, items) == RootOfLevel(h, Leaves(h, items))
    decreases |items|
  {
    if |items| >= 2 {
      var k := SplitPoint(|items|);
      assert Leaves(h, items)[..k] == Leaves(h, items[..k]);
      assert Leaves(h, items)[k..] == Leaves(h, items[k..]);
      RootIsRootOfLeaves(h, items[..k]);
      RootIsRootOfLeaves(h, items[k..]);
    }
  }

  lemma {:induction false} PairedConcat(h: Digest, a: seq<Bytes>, b: seq<Bytes>)
    requires |a| % 2 == 0
    ensures Paired(h, a + b) == Paired(h, a) + Paired(h, b)
    decreases |a|
  {
    if |a| == 0 {
      assert a + b == b;
    } else {
      assert (a + b)[2..] == a[2..] + b;
      PairedConcat(h, a[2..], b);
    }
  }

  /** A pass that joins neighbours commutes with splitting at a power of two. */
  lemma {:induction false} PairedKeepsRoot(h: Digest, level: seq<Bytes>)
    ensures RootOfLevel(h, Paired(h, level)) == RootOfLevel(h, level)
    decreases |level|
  {
    if |level| == 2 {
      assert SplitPoint(2) == 1;
      assert level[..1] == [level[0]] && level[1..] == [level[1]];
      assert Paired(h, level) == [InnerHash(h, level[0], level[1])];
    } else if |level| >= 3 {
      var k := SplitPoint(|level|);
      var a, b := level[..k], level[k..];
      SplitPointHalves(|level|);
      assert level == a + b;
      PairedConcat(h, a, b);
      PairedKeepsRoot(h, a);
      PairedKeepsRoot(h, b);
      var p := Paired(h, level);
      assert SplitPoint(|p|) == |Paired(h, a)|;
      assert p[..|Paired(h, a)|] == Paired(h, a);
      assert p[|Paired(h, a)|..] == Paired(h, b);
    }
  }

  /** Peeling the last pair (or the promoted last entry) off a pass. */
  lemma {:induction false} PairedPrefix(h: Digest, level: seq<Bytes>, rp: nat)
    requires rp % 2 == 0 && rp < |level|
    ensures rp + 1 < |level| ==>
              Paired(h, level[..rp + 2]) == Paired(h, level[..rp]) + [InnerHash(h, level[rp], level[rp + 1])]
    ensures rp + 1 == |level| ==> Paired(h, level) == Paired(h, level[..rp]) + [level[rp]]
  {
    if rp + 1 < |level| {
      var pair := level[rp..rp + 2];
      assert level[..rp + 2] == level[..rp] + pair;
      PairedConcat(h, level[..rp], pair);
      assert Paired(h, pair) == [InnerHash(h, pair[0], pair[1])] + Paired(h, pair[2..]);
    } else {
      assert level == level[..rp] + [level[rp]];
      PairedConcat(h, level[..rp], [level[rp]]);
    }
  }

  /** One pass over the first size entries, written over the entries it has read. */
  method PairInPlace(h: Digest, items: array<Bytes>, size: nat) returns (wp: nat)
    requires size <= items.Length
    modifies items
    ensures wp == (size + 1) / 2
    ensures items[..wp] == Paired(h, old(items[..size]))
  {
    hide Paired, InnerHash;
    ghost var level := items[..size];
    var rp := 0;
    wp := 0;
    while rp < size
      invariant rp <= size && wp == (rp + 1) / 2
      invariant rp % 2 == 0 || rp == size
      invariant items[..wp] == Paired(h, level[..rp])
      // the write position never overtakes an entry that is still to be read
      invariant forall i :: rp <= i < size ==> items[i] == level[i]
    {
      PairedPrefix(h, level, rp);
      ghost var done := items[..wp];
      if rp + 1 < size {
        items[wp] := InnerHash(h, items[rp], items[rp + 1]);
        rp := rp + 2;
      } else {
        assert level[..rp + 1] == level;
        items[wp] := items[rp];
        rp := rp + 1;
      }
      assert items[..wp + 1] == done + [items[wp]];
      wp := wp + 1;
    }
    assert level[..size] == level;
  }

  /** The in-place hash returns the recursive root of every input. */
  method HashIteratively(h: Digest, input: seq<Bytes>) returns (root: Bytes)
    ensures root == Root(h, input)
  {
    var items := new Bytes[|input|];
    for i := 0 to |input|
      invariant forall j :: 0 <= j < i ==> items[j] == LeafHash(h, input[j])
    {
      items[i] := LeafHash(h, input[i]);
    }
    var size: nat := items.Length;
    RootIsRootOfLeaves(h, input);
    assert items[..size] == Leaves(h, input);
    while size > 1
      invariant size <= items.Length
      invariant RootOfLevel(h, items[..size]) == Root(h, input)
    {
      PairedKeepsRoot(h, items[..size]);
      size := PairInPlace(h, items, size);
    }
    if size == 0 {
      root := EmptyHash(h);
    } else {
      root := items[0];
    }
  }
}
