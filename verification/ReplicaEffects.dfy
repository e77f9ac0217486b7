/**
 What the handlers of a replica leave behind, case by case (hotstuff/hotstuff.go): what becomes of a block,
 what a vote does to the record of votes, and what becomes of a certificate that waits for its block.
 */
module ReplicaEffects {
  import opened Prelude
  import opened Chain
  import opened Quorums
  import opened Replicas
  import opened ReplicaSafety
  import opened ReplicaAccept

  // ----- Blocks

  /** What becomes of a block, in terms of what is known before it is handled. */
  ghost function VerdictOn(env: Env, r: Replica, b: Block): Verdict {
    if b.view > r.curView + 1 then Early
    else if b.qc.None? then NoQC
    else if b.view < ViewThen(env, r, b) then Stale
    else if !env.isLeader(b.proposer, b.view) then WrongLeader
    else if Votable(env, r, b) then Accepted
    else if ParentOf(Left(env, r, b).full, b.id).None? then Undecided
    else NotSafe
  }

  /**
   A block that is refused has its certificate followed, one that is not voted for is stored as well, and one
   that is voted for has the vote counted too, if the replica leads the next view.
   */
  lemma {:induction false} HandledEffect(env: Env, r: Replica, b: Block)
    requires Inv(r)
    ensures HandleBlock(env, r, b).1 == VerdictOn(env, r, b)
    ensures var h := HandleBlock(env, r, b).0;
            match VerdictOn(env, r, b)
            case Early => h == r.(bufferedBlocks := r.bufferedBlocks[b.view - 1 := b])
            case NoQC => h == r
            case Stale => h == FollowQC(env, r, b)
            case WrongLeader => h == FollowQC(env, r, b)
            case Undecided => h == Judged(env, r, b)
            case NotSafe => h == Judged(env, r, b)
            case Accepted => h == CastVote(env, Judged(env, r, b), b)
  {
    hide FollowQC, AddBlock, CastVote, LogFits, ViewThen, Left, LockThen, EntersThen, HighThen, ParentOf;
    if b.qc.Some? {
      assert FollowQC(env, r, b).curView == ViewThen(env, r, b) by { FollowEffect(env, r, b); }
      JudgedState(env, r, b);
    }
  }

  // ----- Votes

  /** A vote counts: it is signed or the replica's own, and its block has no majority yet. */
  ghost predicate VoteCounts(env: Env, r: Replica, vote: Vote) {
    (vote.voter == env.me || Signed(env, vote)) && |VotersOf(r.votes, vote.blockId)| <= env.n * 2 / 3
  }

  /** The record with one more vote, which replaces an earlier one of the same voter. */
  ghost predicate RecordsVote(before: Votes, after: Votes, vote: Vote) {
    && after.Keys == before.Keys + {vote.blockId}
    && (forall id :: id in before && id != vote.blockId ==> after[id] == before[id])
    && after[vote.blockId].Keys == VotersOf(before, vote.blockId) + {vote.voter}
    && after[vote.blockId][vote.voter] == vote
    && (forall p :: p in after[vote.blockId] && p != vote.voter ==> after[vote.blockId][p] == before[vote.blockId][p])
  }

  /** A certificate that this replica builds with a vote, from the votes on record. */
  ghost predicate Builds(env: Env, votes: Votes, vote: Vote, qc: QC) {
    && qc.leader == env.me && qc.view == vote.view && qc.blockId == vote.blockId && vote.blockId in votes
    && qc.Signers() == votes[vote.blockId].Keys
    && (forall s :: s in qc.sigs ==> s.signer in votes[vote.blockId] && s.sig == votes[vote.blockId][s.signer].sig)
  }

  /**
   A vote that counts is recorded. With the one that completes a majority a certificate is built, which is
   processed if its block is stored and waits for the block otherwise. A vote that does not count changes nothing.
   */
  lemma {:induction false} VoteEffect(env: Env, r: Replica, vote: Vote)
    ensures !VoteCounts(env, r, vote) ==> ProcessVote(env, r, vote) == r
    ensures VoteCounts(env, r, vote) ==>
              exists votes :: RecordsVote(r.votes, votes, vote) &&
                if |VotersOf(r.votes, vote.blockId) + {vote.voter}| <= env.n * 2 / 3 then
                  ProcessVote(env, r, vote) == r.(votes := votes)
                else
                  exists qc :: Builds(env, votes, vote, qc) && ProcessVote(env, r, vote) ==
                    if vote.blockId in r.forest.full then ProcessCertificate(env, r.(votes := votes), qc)
                    else r.(votes := votes, bufferedQCs := r.bufferedQCs[vote.blockId := qc])
  {
    hide ProcessCertificate, RecordsVote, Builds, Recorded, SigsOf, Signed;
    if VoteCounts(env, r, vote) {
      var votes := Recorded(r.votes, vote);
      var qc := QC(env.me, vote.view, vote.blockId, SigsOf(votes, vote.blockId));
      VoteRecorded(r.votes, vote);
      BuiltOfVotes(env, r.votes, vote, qc);
      assert RecordsVote(r.votes, votes, vote) && Builds(env, votes, vote, qc);
    }
  }

  lemma {:induction false} BuiltOfVotes(env: Env, before: Votes, vote: Vote, qc: QC)
    requires qc == QC(env.me, vote.view, vote.blockId, SigsOf(Recorded(before, vote), vote.blockId))
    ensures Builds(env, Recorded(before, vote), vote, qc)
  {
    VotersSign(Recorded(before, vote), vote.blockId, qc);
  }

  /** The replica's own vote stays on record if it leads the next view and the vote completes no majority, and only then. */
  lemma {:induction false} OwnVoteOnRecord(env: Env, r: Replica, b: Block)
    requires env.me !in VotersOf(r.votes, b.id) && |VotersOf(r.votes, b.id) + {env.me}| <= env.n * 2 / 3
    ensures var q := CastVote(env, r, b);
            && (env.me in VotersOf(q.votes, b.id) <==> env.leaderFor(b.view + 1) == env.me)
            && (env.me in VotersOf(q.votes, b.id) ==> q.votes[b.id][env.me] == Vote(b.view, env.me, b.id, env.sign(b.id)))
            && q == r.(log := q.log, votes := q.votes)
  {
    hide ProcessVote;
    var cast := r.(log := r.log + [Voted(b, r.preferredView, r.forest.full)]);
    SubsetSize(VotersOf(r.votes, b.id), VotersOf(r.votes, b.id) + {env.me});
    VoteEffect(env, cast, OwnVote(env, b));
  }

  lemma {:induction false} VoteRecorded(votes: Votes, vote: Vote)
    ensures RecordsVote(votes, Recorded(votes, vote), vote)
    ensures VotersOf(Recorded(votes, vote), vote.blockId) == VotersOf(votes, vote.blockId) + {vote.voter}
  {
  }

  // ----- Certificates that wait

  /**
   A certificate that waits for a block leaves the buffer when the block is filed. It takes effect if it is
   current, passes, and does not need the parent of the block or finds it stored; otherwise it is lost.
   */
  lemma {:induction false} WaitingTakesEffectIff(env: Env, r: Replica, b: Block)
    requires Inv(r) && b.qc.Some? && Waiting(env, r, b).Some?
    ensures var (a, w) := (Judged(env, r, b), Waiting(env, r, b).value);
            && b.id !in a.bufferedQCs
            && (a.curView == w.view + 1 <==>
                TakesEffect(env, r, b) || ViewThen(env, r, b) == w.view + 1)
            && (!TakesEffect(env, r, b) ==> a.curView == ViewThen(env, r, b) && a.preferredView == LockFollowed(env, r, b))
  {
    hide FollowQC, AddBlock, LogFits, Judged;
    JudgedState(env, r, b);
  }
}
