/**
 What a replica stores and puts out comes from what arrived (hotstuff/hotstuff.go): whatever is true of
 every block that arrives is true of every stored block, of every block voted for, and of every forest
 that a vote or a commit rested on.
 */
module ReplicaKnown {
  import opened Prelude
  import opened Chain
  import opened Quorums
  import opened Replicas
  import opened ReplicaSafety

  ghost predicate All(ok: Block -> bool, full: Blocks) {
    forall id :: id in full ==> full[id].id == id && ok(full[id])
  }

  /** A block without a certificate is refused, and may be any. */
  ghost predicate Known(ok: Block -> bool, b: Block) {
    b.qc.Some? ==> ok(b)
  }

  ghost predicate LogKnown(ok: Block -> bool, log: seq<Output>) {
    forall i :: 0 <= i < |log| ==>
      All(ok, log[i].full) && (log[i].Voted? ==> ok(log[i].block) && log[i].block.qc.Some?)
  }

  ghost predicate AllKnown(ok: Block -> bool, r: Replica) {
    && All(ok, r.forest.full) && LogKnown(ok, r.log)
    && forall v :: v in r.bufferedBlocks ==> Known(ok, r.bufferedBlocks[v])
  }

  lemma {:induction false} CommitKnown(ok: Block -> bool, r: Replica, qc: QC)
    requires AllKnown(ok, r)
    ensures AllKnown(ok, CommitBy(r, qc))
  {
    hide CommitRule, CommitPath, IdsOf, LevelsFrom;
  }

  lemma {:induction false} CertificateKnown(ok: Block -> bool, env: Env, r: Replica, qc: QC)
    requires AllKnown(ok, r)
    ensures AllKnown(ok, ProcessCertificate(env, r, qc))
  {
    hide CommitBy, UpdatePreferred, All, LogKnown;
    var preferred := UpdatePreferred(r.forest.full, r.preferredView, qc);
    if preferred.Some? {
      CommitKnown(ok, Locked(r, qc, preferred.value), qc);
    }
  }

  lemma {:induction false} VoteKnown(ok: Block -> bool, env: Env, r: Replica, vote: Vote)
    requires AllKnown(ok, r)
    ensures AllKnown(ok, ProcessVote(env, r, vote))
  {
    hide ProcessCertificate, All, LogKnown;
    var (votes, built) := AddVote(env.n, r.votes, vote);
    if built.Some? {
      CertificateKnown(ok, env, r.(votes := votes), built.value.(leader := env.me));
    }
  }

  lemma {:induction false} AddBlockKnown(ok: Block -> bool, env: Env, r: Replica, b: Block)
    requires AllKnown(ok, r) && Known(ok, b) && b.qc.Some?
    ensures AllKnown(ok, AddBlock(env, r, b))
  {
    hide ProcessCertificate, LogKnown;
    var added := r.(forest := WithVertex(r.forest, b));
    if b.id in added.bufferedQCs {
      CertificateKnown(ok, env, added, added.bufferedQCs[b.id]);
    }
  }

  lemma {:induction false} CastVoteKnown(ok: Block -> bool, env: Env, r: Replica, b: Block)
    requires AllKnown(ok, r) && Known(ok, b) && b.qc.Some?
    ensures AllKnown(ok, CastVote(env, r, b))
  {
    hide ProcessVote, All;
    VoteKnown(ok, env, r.(log := r.log + [Voted(b, r.preferredView, r.forest.full)]), OwnVote(env, b));
  }

  lemma {:induction false} HandleKnown(ok: Block -> bool, env: Env, r: Replica, b: Block)
    requires AllKnown(ok, r) && Known(ok, b)
    ensures AllKnown(ok, HandleBlock(env, r, b).0)
  {
    hide ProcessCertificate, AddBlock, CastVote, VotingRule, All, LogKnown, Known;
    if b.view <= r.curView + 1 && b.qc.Some? {
      CertificateKnown(ok, env, WithHighQC(r, b.qc.value), b.qc.value);
      var f := FollowQC(env, r, b);
      AddBlockKnown(ok, env, f, b);
      CastVoteKnown(ok, env, AddBlock(env, f, b), b);
    }
  }

  lemma {:induction false} ProcessBlockKnown(ok: Block -> bool, env: Env, r: Replica, b: Block)
    requires AllKnown(ok, r) && Known(ok, b) && Aligned(r.bufferedBlocks)
    ensures AllKnown(ok, ProcessBlock(env, r, b))
    decreases KeysFrom(r.bufferedBlocks, b.view)
  {
    hide HandleBlock, All, LogKnown, Known;
    HandleKnown(ok, env, r, b);
    var (h, verdict) := HandleBlock(env, r, b);
    if verdict == Accepted && b.view in h.bufferedBlocks {
      BufferedBlocksDescend(env, r, b);
      ProcessBlockKnown(ok, env, h, h.bufferedBlocks[b.view]);
    }
  }

  lemma {:induction false} TmoKnown(ok: Block -> bool, env: Env, r: Replica, t: Timeout)
    requires AllKnown(ok, r)
    ensures AllKnown(ok, ProcessRemoteTmo(env, r, t))
  {
    hide ProcessCertificate, AddTimeout, All, LogKnown, Known;
    CertificateKnown(ok, env, r, t.highQC);
  }

  ghost predicate KnownEvent(ok: Block -> bool, e: Event) {
    e.BlockArrives? ==> Known(ok, e.block)
  }

  lemma {:induction false} NextKnown(ok: Block -> bool, env: Env, r: Replica, e: Event)
    requires AllKnown(ok, r) && Aligned(r.bufferedBlocks) && KnownEvent(ok, e)
    ensures AllKnown(ok, Next(env, r, e))
  {
    hide ProcessBlock, ProcessVote, ProcessRemoteTmo, All, LogKnown, Known;
    match e
    case BlockArrives(b) => ProcessBlockKnown(ok, env, r, b);
    case VoteArrives(v) => VoteKnown(ok, env, r, v);
    case TmoArrives(t) => TmoKnown(ok, env, r, t);
    case TimerFires(view) =>
      var a := AdvanceView(r, view);
      TmoKnown(ok, env, a, Timeout(view + 1, env.me, a.highQC));
  }

  ghost predicate KnownEvents(ok: Block -> bool, es: seq<Event>) {
    forall i :: 0 <= i < |es| ==> KnownEvent(ok, es[i])
  }

  /** Over every run, what is true of the blocks that arrive is true of all that is stored and put out. */
  lemma {:induction false} RunKnown(ok: Block -> bool, env: Env, es: seq<Event>)
    requires KnownEvents(ok, es)
    ensures AllKnown(ok, Run(env, es))
    decreases |es|
  {
    if es != [] {
      hide Next, AllKnown;
      RunKnown(ok, env, es[..|es| - 1]);
      NextKnown(ok, env, Run(env, es[..|es| - 1]), es[|es| - 1]);
    }
  }

  // ----- Blocks whose views belong to the ids

  ghost function LevelsFit(levelOf: Id -> View): Block -> bool {
    (b: Block) => LevelConsistent(levelOf, b)
  }

  /** A certificate for a block of view 2 or less commits nothing: its parent has view 1 at most. */
  lemma {:induction false} LowBlockHasNoChain(levelOf: Id -> View, full: Blocks, qc: QC)
    requires All(LevelsFit(levelOf), full) && levelOf(qc.blockId) <= 2 && qc.view >= 3
    ensures CommitRule(full, qc) == None
  {
    if ParentOf(full, qc.blockId).Some? {
      assert LevelConsistent(levelOf, full[qc.blockId]);
      assert LevelConsistent(levelOf, full[full[qc.blockId].prevId]);
    }
  }

  /** If views belong to ids, then after a commit every vote is for a block whose parent is above the committed one. */
  lemma {:induction false} RunRespectsCommits(levelOf: Id -> View, env: Env, es: seq<Event>)
    requires KnownEvents(LevelsFit(levelOf), es)
    ensures var log := Run(env, es).log;
            forall i, j :: 0 <= i < j < |log| && log[i].Committed? && log[j].Voted? ==> ParentAbove(log[j], log[i].block.view)
  {
    hide Run, LocksGrow, VotesBelow, Placed, PathsFit, LastCommitted, CommitRule;
    RunKnown(LevelsFit(levelOf), env, es);
    RunLocked(env, es);
    var log := Run(env, es).log;
    forall i, j | 0 <= i < j < |log| && log[i].Committed? && log[j].Voted?
      ensures log[j].block.view > 2
    {
      if log[j].block.view <= 2 {
        assert FollowsCommitRule(log[i]) && LevelConsistent(levelOf, log[j].block);
        LowBlockHasNoChain(levelOf, log[i].full, log[i].qc);
      }
    }
  }
}
