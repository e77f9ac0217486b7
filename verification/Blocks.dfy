/**
 Microblocks, payloads and proposals (blockchain/block.go). A hash and a node are numbers that
 are only compared; the transactions of a microblock are counted, not listed.
 */
module Blocks {
  import opened Prelude

  type Hash = nat

  datatype MicroBlock = MicroBlock(hash: Hash, group: int, txns: nat, time: int, fake: bool, sender: NodeId, committedNo: int)

  /** What a leader takes from its mempool: microblocks, who acknowledged each, and their sizes. */
  datatype Payload = Payload(mbs: seq<MicroBlock>, ackNodes: seq<set<NodeId>>, txNums: seq<nat>)

  /** What is broadcast of a payload. */
  datatype Proposal = Proposal(hashes: seq<Hash>, groups: seq<int>, ackNodes: seq<set<NodeId>>, times: seq<int>, txNums: seq<nat>) {
    /** A follower indexes all lists by the position of a hash. */
    predicate Aligned() {
      |groups| == |times| == |txNums| == |hashes|
    }
  }

  function HashesOf(mbs: seq<MicroBlock>): (r: seq<Hash>)
    ensures |r| == |mbs| && forall i :: 0 <= i < |mbs| ==> r[i] == mbs[i].hash
  {
    seq(|mbs|, i requires 0 <= i < |mbs| => mbs[i].hash)
  }

  function GroupList(mbs: seq<MicroBlock>): (r: seq<int>)
    ensures |r| == |mbs| && forall i :: 0 <= i < |mbs| ==> r[i] == mbs[i].group
  {
    seq(|mbs|, i requires 0 <= i < |mbs| => mbs[i].group)
  }

  function TimeList(mbs: seq<MicroBlock>): (r: seq<int>)
    ensures |r| == |mbs| && forall i :: 0 <= i < |mbs| ==> r[i] == mbs[i].time
  {
    seq(|mbs|, i requires 0 <= i < |mbs| => mbs[i].time)
  }

  function Propose(p: Payload): Proposal {
    Proposal(HashesOf(p.mbs), GroupList(p.mbs), p.ackNodes, TimeList(p.mbs), p.txNums)
  }

  /** The lists of a proposal, as loops over the microblocks. */
  method GenerateLists(mbs: seq<MicroBlock>) returns (hashes: seq<Hash>, groups: seq<int>, times: seq<int>)
    ensures hashes == HashesOf(mbs) && groups == GroupList(mbs) && times == TimeList(mbs)
  {
    hashes, groups, times := [], [], [];
    for i := 0 to |mbs|
      invariant hashes == HashesOf(mbs[..i])
    {
      hashes := hashes + [mbs[i].hash];
    }
    for i := 0 to |mbs|
      invariant groups == GroupList(mbs[..i])
    {
      groups := groups + [mbs[i].group];
    }
    for i := 0 to |mbs|
      invariant times == TimeList(mbs[..i])
    {
      times := times + [mbs[i].time];
    }
    assert mbs[..|mbs|] == mbs;
  }

  method BuildProposal(p: Payload) returns (r: Proposal)
    ensures r == Propose(p)
  {
    var hashes, groups, times := GenerateLists(p.mbs);
    r := Proposal(hashes, groups, p.ackNodes, times, p.txNums);
  }
}
