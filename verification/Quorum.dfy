/** Collecting votes into certificates (blockchain/quorum.go). */
module Quorums {
  import opened Prelude
  import opened Chain

  datatype Vote = Vote(view: View, voter: NodeId, blockId: Id, sig: nat)

  type Votes = map<Id, map<NodeId, Vote>>

  function VotersOf(votes: Votes, id: Id): set<NodeId> {
    if id in votes then votes[id].Keys else {}
  }

  /** The signatures of the voters of a block. */
  function SigsOf(votes: Votes, id: Id): set<Signature> {
    set p | p in VotersOf(votes, id) :: Signature(p, votes[id][p].sig)
  }

  predicate SuperMajority(total: nat, votes: Votes, id: Id) {
    |VotersOf(votes, id)| > total * 2 / 3
  }

  function Recorded(votes: Votes, vote: Vote): Votes {
    var of: map<NodeId, Vote> := if vote.blockId in votes then votes[vote.blockId] else map[];
    votes[vote.blockId := of[vote.voter := vote]]
  }

  /** Counts a vote; the one that completes a super majority yields the certificate. */
  function AddVote(total: nat, votes: Votes, vote: Vote): (Votes, Option<QC>) {
    if SuperMajority(total, votes, vote.blockId) then (votes, None)
    else
      var votes' := Recorded(votes, vote);
      (votes', if SuperMajority(total, votes', vote.blockId)
               then Some(QC(0, vote.view, vote.blockId, SigsOf(votes', vote.blockId))) else None)
  }

  lemma {:induction false} VotersSign(votes: Votes, id: Id, qc: QC)
    requires qc.sigs == SigsOf(votes, id)
    ensures qc.Signers() == VotersOf(votes, id)
  {
    forall p | p in VotersOf(votes, id)
      ensures p in qc.Signers()
    {
      assert Signature(p, votes[id][p].sig) in qc.sigs;
    }
  }

  // ----- Runs

  /** A vote is counted, or a commit forgets the votes of the blocks it commits. */
  datatype Act = Cast(vote: Vote) | Forget(ids: set<Id>)

  function Perform(total: nat, acts: seq<Act>): (r: (Votes, seq<Option<QC>>))
    ensures |r.1| == |acts|
  {
    if acts == [] then (map[], [])
    else
      var (votes, out) := Perform(total, acts[..|acts| - 1]);
      match acts[|acts| - 1]
      case Cast(vote) => var (votes', qc) := AddVote(total, votes, vote); (votes', out + [qc])
      case Forget(ids) => (votes - ids, out + [None])
  }

  /** The certificate that an act yields. */
  function Yields(total: nat, acts: seq<Act>, i: nat): Option<QC>
    requires i < |acts|
  {
    Perform(total, acts[..i + 1]).1[i]
  }

  ghost predicate Forgets(a: Act, id: Id) {
    a.Forget? && id in a.ids
  }

  /** The votes of a block were forgotten after one act and before another. */
  ghost predicate ForgottenBetween(acts: seq<Act>, i: int, j: nat, id: Id)
    requires i < j <= |acts|
  {
    exists k :: 0 <= k && i < k < j && Forgets(acts[k], id)
  }

  ghost predicate StillCounts(acts: seq<Act>, i: nat, id: Id)
    requires i < |acts|
  {
    acts[i].Cast? && acts[i].vote.blockId == id && !ForgottenBetween(acts, i, |acts|, id)
  }

  /** Who voted for a block since its votes were last forgotten. */
  ghost function VotersSince(acts: seq<Act>, id: Id): set<NodeId> {
    set i | 0 <= i < |acts| && StillCounts(acts, i, id) :: acts[i].vote.voter
  }

  lemma {:induction false} StillCountsAppend(acts: seq<Act>, a: Act, i: nat, id: Id)
    requires i < |acts|
    ensures StillCounts(acts + [a], i, id) <==> StillCounts(acts, i, id) && !Forgets(a, id)
  {
    var all := acts + [a];
    assert forall k :: 0 <= k < |acts| ==> all[k] == acts[k];
    assert all[|acts|] == a;
    if ForgottenBetween(acts, i, |acts|, id) {
      var k :| i < k < |acts| && Forgets(acts[k], id);
      assert Forgets(all[k], id);
    }
    if Forgets(a, id) {
      assert Forgets(all[|acts|], id);
    }
  }

  lemma {:induction false} VotersSinceAppend(acts: seq<Act>, a: Act, id: Id)
    ensures VotersSince(acts + [a], id) ==
            match a
            case Cast(v) => VotersSince(acts, id) + (if v.blockId == id then {v.voter} else {})
            case Forget(ids) => if id in ids then {} else VotersSince(acts, id)
  {
    hide ForgottenBetween;
    var all := acts + [a];
    assert forall k :: 0 <= k < |acts| ==> all[k] == acts[k];
    forall i | 0 <= i < |acts|
      ensures StillCounts(all, i, id) <==> StillCounts(acts, i, id) && !Forgets(a, id)
    {
      StillCountsAppend(acts, a, i, id);
    }
    LastCounts(acts, a, id);
    forall x | x in VotersSince(acts, id) && !Forgets(a, id)
      ensures x in VotersSince(all, id)
    {
      var i :| 0 <= i < |acts| && StillCounts(acts, i, id) && acts[i].vote.voter == x;
      assert StillCounts(all, i, id) && all[i].vote.voter == x;
    }
    forall x | x in VotersSince(all, id)
      ensures !Forgets(a, id) && (x in VotersSince(acts, id) || (a.Cast? && a.vote.blockId == id && x == a.vote.voter))
    {
      var i :| 0 <= i < |all| && StillCounts(all, i, id) && all[i].vote.voter == x;
      if i < |acts| {
        assert StillCounts(acts, i, id);
      }
    }
  }

  lemma {:induction false} LastCounts(acts: seq<Act>, a: Act, id: Id)
    ensures StillCounts(acts + [a], |acts|, id) <==> a.Cast? && a.vote.blockId == id
  {
  }

  lemma {:induction false} PerformAppend(total: nat, acts: seq<Act>, a: Act)
    ensures Perform(total, acts + [a]) ==
            var (votes, out) := Perform(total, acts);
            match a
            case Cast(vote) => (AddVote(total, votes, vote).0, out + [AddVote(total, votes, vote).1])
            case Forget(ids) => (votes - ids, out + [None])
  {
    assert (acts + [a])[..|acts|] == acts;
  }

  /** The record holds the voters of the run, up to the vote that completed the majority. */
  lemma {:induction false} RecordOfVotes(total: nat, acts: seq<Act>, id: Id)
    ensures VotersOf(Perform(total, acts).0, id) <= VotersSince(acts, id)
    ensures || SuperMajority(total, Perform(total, acts).0, id)
            || VotersOf(Perform(total, acts).0, id) == VotersSince(acts, id)
    decreases |acts|
  {
    if acts != [] {
      var front, a := acts[..|acts| - 1], acts[|acts| - 1];
      assert acts == front + [a];
      RecordOfVotes(total, front, id);
      VotersSinceAppend(front, a, id);
      PerformAppend(total, front, a);
      hide Perform, VotersSince;
      RecordStep(total, Perform(total, front).0, a, id);
    }
  }

  /** What one act makes of the record of a block. */
  lemma {:induction false} RecordStep(total: nat, votes: Votes, a: Act, id: Id)
    ensures a.Cast? ==>
              VotersOf(AddVote(total, votes, a.vote).0, id) ==
                if a.vote.blockId == id && !SuperMajority(total, votes, id) then VotersOf(votes, id) + {a.vote.voter}
                else VotersOf(votes, id)
    ensures a.Forget? ==> VotersOf(votes - a.ids, id) == if id in a.ids then {} else VotersOf(votes, id)
  {
  }

  /** The vote takes the voters of its block since they were last forgotten over two thirds. */
  ghost predicate Crosses(total: nat, acts: seq<Act>, i: nat)
    requires i < |acts| && acts[i].Cast?
  {
    var id := acts[i].vote.blockId;
    |VotersSince(acts[..i], id)| <= total * 2 / 3 < |VotersSince(acts[..i + 1], id)|
  }

  /**
   Over every run of votes and commits, a certificate for a block appears with exactly the vote that
   brings its distinct voters over two thirds, and its signers are all of those voters.
   */
  lemma {:induction false} CertificateAtMajority(total: nat, acts: seq<Act>, i: nat)
    requires i < |acts| && acts[i].Cast?
    ensures var (qc, v) := (Yields(total, acts, i), acts[i].vote);
            && (qc.Some? <==> Crosses(total, acts, i))
            && (qc.Some? ==> qc.value.Signers() == VotersSince(acts[..i + 1], v.blockId)
                             && qc.value.blockId == v.blockId && qc.value.view == v.view)
  {
    hide Perform, VotersSince;
    var front, a, id := acts[..i], acts[i], acts[i].vote.blockId;
    assert acts[..i + 1] == front + [a];
    PerformAppend(total, front, a);
    RecordOfVotes(total, front, id);
    VotersSinceAppend(front, a, id);
    var votes := Perform(total, front).0;
    if SuperMajority(total, votes, id) {
      SubsetSize(VotersOf(votes, id), VotersSince(front, id));
    } else {
      assert VotersOf(Recorded(votes, a.vote), id) == VotersSince(front + [a], id);
      VotersSign(Recorded(votes, a.vote), id, QC(0, a.vote.view, id, SigsOf(Recorded(votes, a.vote), id)));
    }
  }

  /** The last vote of its voter for a block, since the votes of the block were forgotten. */
  ghost predicate LastVote(acts: seq<Act>, k: nat, id: Id)
    requires k < |acts|
  {
    && StillCounts(acts, k, id)
    && forall j :: k < j < |acts| && StillCounts(acts, j, id) ==> acts[j].vote.voter != acts[k].vote.voter
  }

  lemma {:induction false} LastVoteBefore(acts: seq<Act>, a: Act, k: nat, id: Id)
    requires k < |acts| && LastVote(acts + [a], k, id)
    ensures LastVote(acts, k, id) && !Forgets(a, id)
    ensures a.Cast? && a.vote.blockId == id ==> a.vote.voter != acts[k].vote.voter
  {
    hide StillCounts;
    var all := acts + [a];
    LastCounts(acts, a, id);
    forall j | k <= j < |acts|
      ensures all[j] == acts[j] && (StillCounts(all, j, id) <==> StillCounts(acts, j, id) && !Forgets(a, id))
    {
      StillCountsAppend(acts, a, j, id);
    }
    assert CastVoteOf(acts, k, id) by { CountsIsCast(acts, k, id); }
    assert a.Cast? && a.vote.blockId == id ==> StillCounts(all, |acts|, id);
  }

  ghost predicate CastVoteOf(acts: seq<Act>, k: nat, id: Id)
    requires k < |acts|
  {
    acts[k].Cast? && acts[k].vote.blockId == id
  }

  lemma {:induction false} CountsIsCast(acts: seq<Act>, k: nat, id: Id)
    requires k < |acts| && StillCounts(acts, k, id)
    ensures CastVoteOf(acts, k, id)
  {
  }

  /** While there is no majority, the record holds the last vote of each voter. */
  lemma {:induction false} RecordKeepsLast(total: nat, acts: seq<Act>, id: Id, k: nat)
    requires k < |acts| && LastVote(acts, k, id) && !SuperMajority(total, Perform(total, acts).0, id)
    ensures var votes := Perform(total, acts).0;
            && CastVoteOf(acts, k, id) && id in votes && acts[k].vote.voter in votes[id]
            && votes[id][acts[k].vote.voter] == acts[k].vote
    decreases |acts|
  {
    var front, a := acts[..|acts| - 1], acts[|acts| - 1];
    assert acts == front + [a];
    CountsIsCast(acts, k, id);
    PerformAppend(total, front, a);
    hide Perform, StillCounts;
    var votes := Perform(total, front).0;
    if k < |front| {
      LastVoteBefore(front, a, k, id);
      NoMajorityBefore(total, votes, a, id);
      RecordKeepsLast(total, front, id, k);
    } else {
      NoMajorityBefore(total, votes, a, id);
    }
  }

  lemma {:induction false} NoMajorityBefore(total: nat, votes: Votes, a: Act, id: Id)
    ensures a.Cast? && !SuperMajority(total, AddVote(total, votes, a.vote).0, id) ==>
              && !SuperMajority(total, votes, id)
              && (a.vote.blockId == id ==> AddVote(total, votes, a.vote).0 == Recorded(votes, a.vote))
    ensures a.Forget? && !Forgets(a, id) && !SuperMajority(total, votes - a.ids, id) ==> !SuperMajority(total, votes, id)
  {
    if a.Cast? {
      SubsetSize(VotersOf(votes, id), VotersOf(Recorded(votes, a.vote), id));
    }
  }

  /** A certificate holds, for each of its signers, the signature of the last vote of that signer, and no other. */
  lemma {:induction false} CertificateSignatures(total: nat, acts: seq<Act>, i: nat, k: nat)
    requires i < |acts| && acts[i].Cast? && Yields(total, acts, i).Some?
    requires k <= i && LastVote(acts[..i + 1], k, acts[i].vote.blockId)
    ensures var qc := Yields(total, acts, i).value;
            && acts[k].Cast? && Signature(acts[k].vote.voter, acts[k].vote.sig) in qc.sigs
            && forall s, t :: s in qc.sigs && t in qc.sigs && s.signer == t.signer ==> s == t
  {
    hide Perform, LastVote;
    var front, a, id := acts[..i], acts[i], acts[i].vote.blockId;
    assert acts[..i + 1] == front + [a];
    PerformAppend(total, front, a);
    var votes := Perform(total, front).0;
    if k < i {
      assert front[k] == acts[k];
      LastVoteBefore(front, a, k, id);
      RecordKeepsLast(total, front, id, k);
    }
    var after := Recorded(votes, a.vote);
    assert acts[k].vote.voter in after[id] && after[id][acts[k].vote.voter] == acts[k].vote;
  }

  /** Voters are only lost when the votes of the block are forgotten. */
  lemma {:induction false} VotersKept(acts: seq<Act>, i: nat, j: nat, id: Id)
    requires i < j <= |acts| && !ForgottenBetween(acts, i, j, id)
    ensures VotersSince(acts[..i + 1], id) <= VotersSince(acts[..j], id)
    decreases j
  {
    if i + 1 < j {
      var front, a := acts[..j - 1], acts[j - 1];
      assert acts[..j] == front + [a];
      VotersSinceAppend(front, a, id);
      hide VotersSince;
      VotersKept(acts, i, j - 1, id);
    }
  }

  /**
   A block that got a certificate gets another one exactly when its votes were forgotten in between
   and its voters since then go over two thirds again.
   */
  lemma {:induction false} SecondCertificateIff(total: nat, acts: seq<Act>, i: nat, j: nat)
    requires i < j < |acts| && acts[i].Cast? && acts[j].Cast? && acts[i].vote.blockId == acts[j].vote.blockId
    requires Yields(total, acts, i).Some?
    ensures Yields(total, acts, j).Some? <==>
            ForgottenBetween(acts, i, j, acts[i].vote.blockId) && Crosses(total, acts, j)
  {
    hide VotersSince, Yields;
    var id := acts[i].vote.blockId;
    CertificateAtMajority(total, acts, i);
    CertificateAtMajority(total, acts, j);
    if !ForgottenBetween(acts, i, j, id) {
      VotersKept(acts, i, j, id);
      SubsetSize(VotersSince(acts[..i + 1], id), VotersSince(acts[..j], id));
    }
  }

  lemma {:induction false} TwiceParts(acts: seq<Act>, a: Act)
    requires acts != []
    ensures var (n, twice) := (|acts|, acts + [a] + acts);
            && |twice| == 2 * n + 1 && twice[2 * n] == acts[n - 1]
            && acts[..n - 1 + 1] == acts && twice[..2 * n + 1] == twice && twice[..2 * n] == acts + [a] + acts[..n - 1]
  {
  }

  /** It does happen: once a commit forgets the votes of a block, the same votes certify it again. */
  lemma {:induction false} ForgottenIsCertifiedAgain(total: nat, acts: seq<Act>, id: Id)
    requires acts != [] && forall i :: 0 <= i < |acts| ==> acts[i].Cast? && acts[i].vote.blockId == id
    requires Yields(total, acts, |acts| - 1).Some?
    ensures Yields(total, acts + [Forget({id})] + acts, 2 * |acts|).Some?
  {
    hide VotersSince, Yields;
    var n, twice := |acts|, acts + [Forget({id})] + acts;
    TwiceParts(acts, Forget({id}));
    CertificateAtMajority(total, acts, n - 1);
    CertificateAtMajority(total, twice, 2 * n);
    VotersAnew(acts, acts[..n - 1], id);
    VotersAnew(acts, acts, id);
  }

  lemma {:induction false} VotersAnew(past: seq<Act>, acts: seq<Act>, id: Id)
    ensures VotersSince(past + [Forget({id})] + acts, id) == VotersSince(acts, id)
    decreases |acts|
  {
    if acts == [] {
      assert past + [Forget({id})] + [] == past + [Forget({id})];
      VotersSinceAppend(past, Forget({id}), id);
    } else {
      var front, a := acts[..|acts| - 1], acts[|acts| - 1];
      assert acts == front + [a] && past + [Forget({id})] + acts == past + [Forget({id})] + front + [a];
      hide VotersSince;
      VotersAnew(past, front, id);
      VotersSinceAppend(front, a, id);
      VotersSinceAppend(past + [Forget({id})] + front, a, id);
    }
  }

  // ----- The record that is updated in place

  function Elements(s: seq<Signature>): set<Signature> {
    set x | x in s
  }

  class Quorum {
    const total: nat
    var votes: Votes

    constructor (total: nat)
      ensures this.total == total && votes == map[]
    {
      this.total := total;
      votes := map[];
    }

    method Add(vote: Vote) returns (qc: Option<QC>)
      modifies this
      ensures (votes, qc) == AddVote(total, old(votes), vote)
    {
      if SuperMajority(total, votes, vote.blockId) {
        return None;
      }
      if vote.blockId !in votes {
        votes := votes[vote.blockId := map[]];
      }
      var of: map<NodeId, Vote> := votes[vote.blockId];
      votes := votes[vote.blockId := of[vote.voter := vote]];
      assert votes == Recorded(old(votes), vote);
      if SuperMajority(total, votes, vote.blockId) {
        var sigs := GetSigs(vote.blockId);
        return Some(QC(0, vote.view, vote.blockId, Elements(sigs)));
      }
      return None;
    }

    /** The signatures of the voters of a block, in the order the map gives them. */
    method GetSigs(id: Id) returns (sigs: seq<Signature>)
      ensures NoDuplicates(sigs) && Elements(sigs) == SigsOf(votes, id)
    {
      sigs := [];
      if id !in votes {
        return;
      }
      var left := votes[id].Keys;
      ghost var done: set<NodeId> := {};
      while left != {}
        invariant left + done == votes[id].Keys && left * done == {} && NoDuplicates(sigs)
        invariant Elements(sigs) == set p | p in done :: Signature(p, votes[id][p].sig)
      {
        var voter :| voter in left;
        var s := Signature(voter, votes[id][voter].sig);
        assert Elements(sigs + [s]) == Elements(sigs) + {s};
        assert s !in Elements(sigs);
        left, done := left - {voter}, done + {voter};
        sigs := sigs + [s];
      }
    }
  }
}
