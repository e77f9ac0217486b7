/**
 The certificates that commits rest on (hotstuff/hotstuff.go, crypto/sign.go). Agreement needs each of them
 to be signed, by enough replicas, and to state the view of its block. The handlers ask for none of this:
 one that names the replica as its builder is not checked, signatures are not counted, and the view is not
 what is signed. Here are the exact conditions, on each certificate when it is processed.
 */
module ReplicaCommits {
  import opened Chain
  import opened Quorums
  import opened Replicas
  import opened ReplicaSafety

  /** The view of the block of an id; that of genesis is 0. */
  ghost function ViewIn(blocks: Blocks, id: Id): View {
    if id in blocks then blocks[id].view else 0
  }

  /** Every signature checks; more than two thirds signed; the view is that of the certified block. */
  datatype Demand = AllSigned | ManySigned | OwnView

  ghost predicate Meets(d: Demand, env: Env, blocks: Blocks, qc: QC) {
    match d
    case AllSigned => Verified(env, qc)
    case ManySigned => |qc.Signers()| > env.n * 2 / 3
    case OwnView => qc.view == ViewIn(blocks, qc.blockId)
  }

  ghost predicate CommitsMeet(d: Demand, env: Env, blocks: Blocks, log: seq<Output>) {
    forall i :: 0 <= i < |log| && log[i].Committed? ==> Meets(d, env, blocks, log[i].qc)
  }

  // ----- One certificate

  /** What a certificate must meet for its commit to be in order, in terms of what is known before. */
  ghost predicate CertificateMeets(d: Demand, env: Env, blocks: Blocks, r: Replica, qc: QC) {
    Commits(env, r, qc) ==> Meets(d, env, blocks, qc)
  }

  lemma {:induction false} MeetAppend(d: Demand, env: Env, blocks: Blocks, log: seq<Output>, o: Output)
    ensures CommitsMeet(d, env, blocks, log + [o]) <==>
            CommitsMeet(d, env, blocks, log) && (o.Committed? ==> Meets(d, env, blocks, o.qc))
  {
    hide Meets;
    var all := log + [o];
    assert all[|log|] == o && forall i :: 0 <= i < |log| ==> all[i] == log[i];
  }

  /** Processing a certificate keeps a demand if, and only if, it meets it or does not commit. */
  lemma {:induction false} CertificateMeetsIff(d: Demand, env: Env, blocks: Blocks, r: Replica, qc: QC)
    ensures CommitsMeet(d, env, blocks, ProcessCertificate(env, r, qc).log) <==>
            CommitsMeet(d, env, blocks, r.log) && CertificateMeets(d, env, blocks, r, qc)
  {
    CommitsIff(env, r, qc);
    hide ProcessCertificate, Meets, CommitsMeet, CommitPath, Pruned, InLine, Passes;
    if Commits(env, r, qc) {
      var b0, b1, b2 :| InLine(r.forest.full, qc, b0, b1, b2);
      MeetAppend(d, env, blocks, r.log, Committed(b0, CommitPath(r.forest.full, r.forest.lowest, b0), qc, r.forest.full));
    }
  }

  // ----- The handlers

  ghost predicate VoteMeets(d: Demand, env: Env, blocks: Blocks, r: Replica, vote: Vote) {
    var built := AddVote(env.n, r.votes, vote).1;
    (vote.voter == env.me || Signed(env, vote)) && built.Some? && vote.blockId in r.forest.full ==>
      CertificateMeets(d, env, blocks, r, built.value.(leader := env.me))
  }

  lemma {:induction false} VoteMeetsIff(d: Demand, env: Env, blocks: Blocks, r: Replica, vote: Vote)
    ensures CommitsMeet(d, env, blocks, ProcessVote(env, r, vote).log) <==>
            CommitsMeet(d, env, blocks, r.log) && VoteMeets(d, env, blocks, r, vote)
  {
    hide ProcessCertificate, Meets, CommitsMeet;
    var (votes, built) := AddVote(env.n, r.votes, vote);
    if built.Some? {
      CertificateMeetsIff(d, env, blocks, r.(votes := votes), built.value.(leader := env.me));
    }
  }

  ghost predicate CastMeets(d: Demand, env: Env, blocks: Blocks, r: Replica, b: Block) {
    env.leaderFor(b.view + 1) == env.me ==> VoteMeets(d, env, blocks, r, OwnVote(env, b))
  }

  lemma {:induction false} CastMeetsIff(d: Demand, env: Env, blocks: Blocks, r: Replica, b: Block)
    ensures CommitsMeet(d, env, blocks, CastVote(env, r, b).log) <==>
            CommitsMeet(d, env, blocks, r.log) && CastMeets(d, env, blocks, r, b)
  {
    hide ProcessVote, Meets, CommitsMeet, AddVote, Commits;
    var vote := Voted(b, r.preferredView, r.forest.full);
    MeetAppend(d, env, blocks, r.log, vote);
    var cast := r.(log := r.log + [vote]);
    VoteMeetsIff(d, env, blocks, cast, OwnVote(env, b));
    LogAside(d, env, blocks, r, cast, OwnVote(env, b));
  }

  lemma {:induction false} LogAside(d: Demand, env: Env, blocks: Blocks, r: Replica, q: Replica, vote: Vote)
    requires q == r.(log := q.log)
    ensures VoteMeets(d, env, blocks, r, vote) <==> VoteMeets(d, env, blocks, q, vote)
  {
  }

  ghost predicate FilingMeets(d: Demand, env: Env, blocks: Blocks, r: Replica, b: Block)
    requires b.qc.Some?
  {
    b.id in r.bufferedQCs ==> CertificateMeets(d, env, blocks, r.(forest := WithVertex(r.forest, b)), r.bufferedQCs[b.id])
  }

  lemma {:induction false} FilingMeetsIff(d: Demand, env: Env, blocks: Blocks, r: Replica, b: Block)
    requires b.qc.Some?
    ensures CommitsMeet(d, env, blocks, AddBlock(env, r, b).log) <==>
            CommitsMeet(d, env, blocks, r.log) && FilingMeets(d, env, blocks, r, b)
  {
    hide ProcessCertificate, Meets, CommitsMeet, CertificateMeets, WithVertex;
    if b.id in r.bufferedQCs {
      CertificateMeetsIff(d, env, blocks, r.(forest := WithVertex(r.forest, b)), r.bufferedQCs[b.id]);
    }
  }

  /** The certificates that a block brings, waits for and completes each meet the demand when their turn comes. */
  ghost predicate HandlingMeets(d: Demand, env: Env, blocks: Blocks, r: Replica, b: Block) {
    b.view <= r.curView + 1 && b.qc.Some? ==>
      && (b.proposer != env.me ==> CertificateMeets(d, env, blocks, r, b.qc.value))
      && var f := FollowQC(env, r, b);
         b.view >= f.curView && env.isLeader(b.proposer, b.view) ==>
           && FilingMeets(d, env, blocks, f, b)
           && (HandleBlock(env, r, b).1 == Accepted ==> CastMeets(d, env, blocks, AddBlock(env, f, b), b))
  }

  lemma {:induction false} HandlingMeetsIff(d: Demand, env: Env, blocks: Blocks, r: Replica, b: Block)
    ensures CommitsMeet(d, env, blocks, HandleBlock(env, r, b).0.log) <==>
            CommitsMeet(d, env, blocks, r.log) && HandlingMeets(d, env, blocks, r, b)
  {
    hide ProcessCertificate, AddBlock, CastVote, VotingRule, Meets, CommitsMeet, FilingMeets, CastMeets, Commits;
    if b.view <= r.curView + 1 && b.qc.Some? {
      var high := WithHighQC(r, b.qc.value);
      CertificateMeetsIff(d, env, blocks, high, b.qc.value);
      assert Commits(env, high, b.qc.value) <==> Commits(env, r, b.qc.value) by { HighAside(env, r, b.qc.value); }
      var f := FollowQC(env, r, b);
      FilingMeetsIff(d, env, blocks, f, b);
      CastMeetsIff(d, env, blocks, AddBlock(env, f, b), b);
    }
  }

  lemma {:induction false} HighAside(env: Env, r: Replica, qc: QC)
    ensures Commits(env, WithHighQC(r, qc), qc) <==> Commits(env, r, qc)
  {
    hide InLine, SeemConsecutive, Passes;
  }

  ghost predicate ProcessingMeets(d: Demand, env: Env, blocks: Blocks, r: Replica, b: Block)
    requires Aligned(r.bufferedBlocks)
    decreases KeysFrom(r.bufferedBlocks, b.view)
  {
    && HandlingMeets(d, env, blocks, r, b)
    && var (h, verdict) := HandleBlock(env, r, b);
       if verdict != Accepted || b.view !in h.bufferedBlocks then true
       else
         BufferedBlocksDescend(env, r, b);
         ProcessingMeets(d, env, blocks, h, h.bufferedBlocks[b.view])
  }

  lemma {:induction false} ProcessingMeetsIff(d: Demand, env: Env, blocks: Blocks, r: Replica, b: Block)
    requires Aligned(r.bufferedBlocks)
    ensures CommitsMeet(d, env, blocks, ProcessBlock(env, r, b).log) <==>
            CommitsMeet(d, env, blocks, r.log) && ProcessingMeets(d, env, blocks, r, b)
    decreases KeysFrom(r.bufferedBlocks, b.view)
  {
    hide HandleBlock, CommitsMeet, HandlingMeets;
    HandlingMeetsIff(d, env, blocks, r, b);
    var (h, verdict) := HandleBlock(env, r, b);
    if verdict == Accepted && b.view in h.bufferedBlocks {
      BufferedBlocksDescend(env, r, b);
      ProcessingMeetsIff(d, env, blocks, h, h.bufferedBlocks[b.view]);
    }
  }

  // ----- Over whole runs

  ghost predicate NextMeets(d: Demand, env: Env, blocks: Blocks, r: Replica, e: Event)
    requires Aligned(r.bufferedBlocks)
  {
    match e
    case BlockArrives(b) => ProcessingMeets(d, env, blocks, r, b)
    case VoteArrives(v) => VoteMeets(d, env, blocks, r, v)
    case TmoArrives(t) => CertificateMeets(d, env, blocks, r, t.highQC)
    case TimerFires(view) => CertificateMeets(d, env, blocks, AdvanceView(r, view), r.highQC)
  }

  lemma {:induction false} NextMeetsIff(d: Demand, env: Env, blocks: Blocks, r: Replica, e: Event)
    requires Aligned(r.bufferedBlocks)
    ensures CommitsMeet(d, env, blocks, Next(env, r, e).log) <==>
            CommitsMeet(d, env, blocks, r.log) && NextMeets(d, env, blocks, r, e)
  {
    hide ProcessBlock, ProcessVote, ProcessCertificate, CommitsMeet, CertificateMeets, ProcessingMeets, VoteMeets, AddTimeout;
    match e
    case BlockArrives(b) => ProcessingMeetsIff(d, env, blocks, r, b);
    case VoteArrives(v) => VoteMeetsIff(d, env, blocks, r, v);
    case TmoArrives(t) => CertificateMeetsIff(d, env, blocks, r, t.highQC);
    case TimerFires(view) =>
      var a := AdvanceView(r, view);
      CertificateMeetsIff(d, env, blocks, a, a.highQC);
  }

  ghost predicate RunMeets(d: Demand, env: Env, blocks: Blocks, es: seq<Event>) {
    es == [] ||
    var (before, e) := (es[..|es| - 1], es[|es| - 1]);
    RunMeets(d, env, blocks, before) && NextMeets(d, env, blocks, Run(env, before), e)
  }

  /** Over every run the commits meet a demand if, and only if, every certificate that commits met it at that time. */
  lemma {:induction false} RunMeetsIff(d: Demand, env: Env, blocks: Blocks, es: seq<Event>)
    ensures CommitsMeet(d, env, blocks, Run(env, es).log) <==> RunMeets(d, env, blocks, es)
    decreases |es|
  {
    if es != [] {
      hide Next, CommitsMeet, NextMeets;
      RunMeetsIff(d, env, blocks, es[..|es| - 1]);
      NextMeetsIff(d, env, blocks, Run(env, es[..|es| - 1]), es[|es| - 1]);
    }
  }
}
