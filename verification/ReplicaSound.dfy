/**
 Conditions on what arrives under which the commits of a replica meet every demand (hotstuff/hotstuff.go,
 blockchain/quorum.go): if certificates that arrive do, and votes state the view of their block and are
 signed even if they name the replica itself as voter, then so do the certificates that it builds.
 */
module ReplicaSound {
  import opened Chain
  import opened Quorums
  import opened Replicas
  import opened ReplicaSafety
  import opened ReplicaCommits

  /** A certificate that may commit meets every demand. */
  ghost predicate SoundQC(env: Env, blocks: Blocks, qc: QC) {
    qc.view >= 3 ==> forall d :: Meets(d, env, blocks, qc)
  }

  ghost predicate SoundBlock(env: Env, blocks: Blocks, b: Block) {
    b.qc.Some? ==> SoundQC(env, blocks, b.qc.value) && ViewIn(blocks, b.id) == b.view && Signed(env, OwnVote(env, b))
  }

  /** A vote that is counted is signed, and states the view of its block. */
  ghost predicate SoundBallot(env: Env, blocks: Blocks, vote: Vote) {
    vote.voter == env.me || Signed(env, vote) ==> Signed(env, vote) && vote.view == ViewIn(blocks, vote.blockId)
  }

  ghost predicate VotesCheck(env: Env, votes: Votes) {
    forall id, p :: id in votes && p in votes[id] ==> env.checks(p, id, votes[id][p].sig)
  }

  ghost predicate CommitsSound(env: Env, blocks: Blocks, log: seq<Output>) {
    forall d :: CommitsMeet(d, env, blocks, log)
  }

  ghost predicate Sound(env: Env, blocks: Blocks, r: Replica) {
    && VotesCheck(env, r.votes) && CommitsSound(env, blocks, r.log) && SoundQC(env, blocks, r.highQC)
    && (forall id :: id in r.bufferedQCs ==> SoundQC(env, blocks, r.bufferedQCs[id]))
    && (forall v :: v in r.bufferedBlocks ==> SoundBlock(env, blocks, r.bufferedBlocks[v]))
  }

  lemma {:induction false} CertificateCommitsSound(env: Env, blocks: Blocks, r: Replica, qc: QC)
    requires CommitsSound(env, blocks, r.log) && SoundQC(env, blocks, qc)
    ensures CommitsSound(env, blocks, ProcessCertificate(env, r, qc).log)
  {
    hide ProcessCertificate, CommitsMeet, Meets, InLine;
    forall d {
      CertificateMeetsIff(d, env, blocks, r, qc);
    }
  }

  lemma {:induction false} CertificateVotes(env: Env, r: Replica, qc: QC)
    requires VotesCheck(env, r.votes)
    ensures VotesCheck(env, ProcessCertificate(env, r, qc).votes)
  {
    hide UpdatePreferred, CommitRule, CommitPath, Pruned, Passes;
  }

  lemma {:induction false} CertificateSound(env: Env, blocks: Blocks, r: Replica, qc: QC)
    requires Sound(env, blocks, r) && SoundQC(env, blocks, qc)
    ensures Sound(env, blocks, ProcessCertificate(env, r, qc))
  {
    hide ProcessCertificate, SoundQC, SoundBlock, VotesCheck, CommitsSound;
    CertificateCommitsSound(env, blocks, r, qc);
    CertificateVotes(env, r, qc);
    CertificateKeepsBuffer(env, r, qc);
  }

  // ----- Votes

  lemma {:induction false} SigsCheck(env: Env, votes: Votes, id: Id, qc: QC)
    requires VotesCheck(env, votes) && qc.blockId == id && qc.sigs == SigsOf(votes, id)
    ensures Verified(env, qc)
  {
  }

  lemma {:induction false} RecordedChecks(env: Env, votes: Votes, vote: Vote)
    requires VotesCheck(env, votes) && Signed(env, vote)
    ensures VotesCheck(env, Recorded(votes, vote))
  {
  }

  /** Counting a sound vote builds only certificates that meet every demand. */
  lemma {:induction false} BuiltIsSound(env: Env, blocks: Blocks, votes: Votes, vote: Vote)
    requires VotesCheck(env, votes) && Signed(env, vote) && vote.view == ViewIn(blocks, vote.blockId)
    ensures VotesCheck(env, AddVote(env.n, votes, vote).0)
    ensures var built := AddVote(env.n, votes, vote).1;
            built.Some? ==> SoundQC(env, blocks, built.value.(leader := env.me))
  {
    hide VotesCheck, Recorded, SigsOf, VotersOf, Verified;
    var (after, built) := AddVote(env.n, votes, vote);
    RecordedChecks(env, votes, vote);
    if built.Some? {
      var qc := built.value.(leader := env.me);
      SigsCheck(env, after, vote.blockId, qc);
      VotersSign(after, vote.blockId, qc);
    }
  }

  lemma {:induction false} VoteSound(env: Env, blocks: Blocks, r: Replica, vote: Vote)
    requires Sound(env, blocks, r) && SoundBallot(env, blocks, vote)
    ensures Sound(env, blocks, ProcessVote(env, r, vote))
  {
    hide ProcessCertificate, AddVote, VotesCheck, CommitsSound, SoundQC, SoundBlock;
    if vote.voter == env.me || Signed(env, vote) {
      BuiltIsSound(env, blocks, r.votes, vote);
      var (votes, built) := AddVote(env.n, r.votes, vote);
      if built.Some? {
        CertificateSound(env, blocks, r.(votes := votes), built.value.(leader := env.me));
      }
    }
  }

  lemma {:induction false} CastVoteSound(env: Env, blocks: Blocks, r: Replica, b: Block)
    requires Sound(env, blocks, r) && ViewIn(blocks, b.id) == b.view && Signed(env, OwnVote(env, b))
    ensures Sound(env, blocks, CastVote(env, r, b))
  {
    hide ProcessVote, VotesCheck, SoundQC, CommitsMeet, ViewIn;
    var vote := Voted(b, r.preferredView, r.forest.full);
    forall d {
      MeetAppend(d, env, blocks, r.log, vote);
    }
    VoteSound(env, blocks, r.(log := r.log + [vote]), OwnVote(env, b));
  }

  // ----- Blocks

  lemma {:induction false} AddBlockSound(env: Env, blocks: Blocks, r: Replica, b: Block)
    requires Sound(env, blocks, r) && b.qc.Some?
    ensures Sound(env, blocks, AddBlock(env, r, b))
  {
    hide ProcessCertificate, WithVertex, VotesCheck, CommitsSound, SoundQC, SoundBlock;
    var added := r.(forest := WithVertex(r.forest, b));
    if b.id in added.bufferedQCs {
      CertificateSound(env, blocks, added, added.bufferedQCs[b.id]);
    }
  }

  lemma {:induction false} HandleSound(env: Env, blocks: Blocks, r: Replica, b: Block)
    requires Sound(env, blocks, r) && SoundBlock(env, blocks, b)
    ensures Sound(env, blocks, HandleBlock(env, r, b).0)
  {
    hide ProcessCertificate, AddBlock, CastVote, VotingRule, VotesCheck, CommitsSound, SoundQC, ViewIn;
    if b.view <= r.curView + 1 && b.qc.Some? {
      CertificateSound(env, blocks, WithHighQC(r, b.qc.value), b.qc.value);
      var f := FollowQC(env, r, b);
      AddBlockSound(env, blocks, f, b);
      CastVoteSound(env, blocks, AddBlock(env, f, b), b);
    }
  }

  lemma {:induction false} ProcessBlockSound(env: Env, blocks: Blocks, r: Replica, b: Block)
    requires Sound(env, blocks, r) && SoundBlock(env, blocks, b) && Aligned(r.bufferedBlocks)
    ensures Sound(env, blocks, ProcessBlock(env, r, b))
    decreases KeysFrom(r.bufferedBlocks, b.view)
  {
    hide HandleBlock, VotesCheck, CommitsSound, SoundQC, SoundBlock;
    HandleSound(env, blocks, r, b);
    var (h, verdict) := HandleBlock(env, r, b);
    if verdict == Accepted && b.view in h.bufferedBlocks {
      BufferedBlocksDescend(env, r, b);
      ProcessBlockSound(env, blocks, h, h.bufferedBlocks[b.view]);
    }
  }

  // ----- Runs

  lemma {:induction false} TmoSound(env: Env, blocks: Blocks, r: Replica, t: Timeout)
    requires Sound(env, blocks, r) && SoundQC(env, blocks, t.highQC)
    ensures Sound(env, blocks, ProcessRemoteTmo(env, r, t))
  {
    hide ProcessCertificate, AddTimeout, VotesCheck, CommitsSound, SoundQC, SoundBlock;
    CertificateSound(env, blocks, r, t.highQC);
  }

  ghost predicate SoundEvent(env: Env, blocks: Blocks, e: Event) {
    match e
    case BlockArrives(b) => SoundBlock(env, blocks, b)
    case VoteArrives(v) => SoundBallot(env, blocks, v)
    case TmoArrives(t) => SoundQC(env, blocks, t.highQC)
    case TimerFires(_) => true
  }

  lemma {:induction false} NextSound(env: Env, blocks: Blocks, r: Replica, e: Event)
    requires Sound(env, blocks, r) && SoundEvent(env, blocks, e) && Aligned(r.bufferedBlocks)
    ensures Sound(env, blocks, Next(env, r, e))
  {
    hide ProcessBlock, ProcessVote, ProcessRemoteTmo, VotesCheck, CommitsSound, SoundQC, SoundBlock, SoundBallot;
    match e
    case BlockArrives(b) => ProcessBlockSound(env, blocks, r, b);
    case VoteArrives(v) => VoteSound(env, blocks, r, v);
    case TmoArrives(t) => TmoSound(env, blocks, r, t);
    case TimerFires(view) =>
      var a := AdvanceView(r, view);
      TmoSound(env, blocks, a, Timeout(view + 1, env.me, a.highQC));
  }

  /** Over every run of sound arrivals, every commit meets every demand. */
  lemma {:induction false} RunSound(env: Env, blocks: Blocks, es: seq<Event>)
    requires forall i :: 0 <= i < |es| ==> SoundEvent(env, blocks, es[i])
    ensures Sound(env, blocks, Run(env, es)) && forall d :: RunMeets(d, env, blocks, es)
    decreases |es|
  {
    RunStaysSound(env, blocks, es);
    hide RunMeets, Run, VotesCheck, CommitsMeet, SoundQC, SoundBlock, SoundEvent;
    forall d
      ensures RunMeets(d, env, blocks, es)
    {
      RunMeetsIff(d, env, blocks, es);
    }
  }

  lemma {:induction false} RunStaysSound(env: Env, blocks: Blocks, es: seq<Event>)
    requires forall i :: 0 <= i < |es| ==> SoundEvent(env, blocks, es[i])
    ensures Sound(env, blocks, Run(env, es))
    decreases |es|
  {
    if es != [] {
      hide Next, Sound, SoundEvent;
      RunStaysSound(env, blocks, es[..|es| - 1]);
      NextSound(env, blocks, Run(env, es[..|es| - 1]), es[|es| - 1]);
    }
  }
}
