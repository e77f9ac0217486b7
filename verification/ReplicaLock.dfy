/**
 The lock of a replica never shuts out its own proposals (hotstuff/hotstuff.go): while certificates
 carry the view of the block they certify, the preferred view stays below the highest certificate,
 and a proposal extends that one.
 */
module ReplicaLock {
  import opened Prelude
  import opened Chain
  import opened Quorums
  import opened Replicas
  import opened ReplicaSafety
  import opened ReplicaAccept

  ghost predicate Genuine(levelOf: Id -> View, qc: QC) {
    qc.view == levelOf(qc.blockId)
  }

  ghost predicate GenuineBlock(levelOf: Id -> View, b: Block) {
    b.qc.Some? ==> WellBuilt(levelOf, b)
  }

  ghost predicate BuffersGenuine(levelOf: Id -> View, r: Replica) {
    && (forall id :: id in r.bufferedQCs ==> Genuine(levelOf, r.bufferedQCs[id]))
    && (forall v :: v in r.bufferedBlocks ==> GenuineBlock(levelOf, r.bufferedBlocks[v]))
  }

  ghost predicate LockBelow(levelOf: Id -> View, r: Replica) {
    && AllConsistent(levelOf, r.forest.full) && BuffersGenuine(levelOf, r)
    && Genuine(levelOf, r.highQC) && (r.preferredView == 0 || r.preferredView < r.highQC.view)
  }

  lemma {:induction false} PreferredBelow(levelOf: Id -> View, full: Blocks, preferred: View, qc: QC)
    requires AllConsistent(levelOf, full) && Genuine(levelOf, qc) && UpdatePreferred(full, preferred, qc).Some?
    ensures UpdatePreferred(full, preferred, qc).value == preferred || UpdatePreferred(full, preferred, qc).value < qc.view
  {
    if qc.view > 2 {
      assert LevelConsistent(levelOf, full[qc.blockId]);
      assert LevelConsistent(levelOf, full[full[qc.blockId].prevId]);
    }
  }

  lemma {:induction false} CommitLocks(levelOf: Id -> View, r: Replica, qc: QC)
    requires LockBelow(levelOf, r)
    ensures LockBelow(levelOf, CommitBy(r, qc))
  {
    hide CommitRule, CommitPath, IdsOf;
  }

  lemma {:induction false} CertificateLocks(levelOf: Id -> View, env: Env, r: Replica, qc: QC)
    requires LockBelow(levelOf, r) && Genuine(levelOf, qc)
    ensures LockBelow(levelOf, ProcessCertificate(env, r, qc))
  {
    hide UpdatePreferred, CommitBy;
    var preferred := UpdatePreferred(r.forest.full, r.preferredView, qc);
    if preferred.Some? {
      PreferredBelow(levelOf, r.forest.full, r.preferredView, qc);
      if qc.view >= r.curView {
        CommitLocks(levelOf, Locked(r, qc, preferred.value), qc);
      }
    }
  }

  lemma {:induction false} VoteLocks(levelOf: Id -> View, env: Env, r: Replica, vote: Vote)
    requires LockBelow(levelOf, r) && vote.view == levelOf(vote.blockId)
    ensures LockBelow(levelOf, ProcessVote(env, r, vote))
  {
    hide ProcessCertificate, AllConsistent, GenuineBlock;
    var (votes, built) := AddVote(env.n, r.votes, vote);
    if built.Some? {
      CertificateLocks(levelOf, env, r.(votes := votes), built.value.(leader := env.me));
    }
  }

  lemma {:induction false} AddBlockLocks(levelOf: Id -> View, env: Env, r: Replica, b: Block)
    requires LockBelow(levelOf, r) && LevelConsistent(levelOf, b)
    ensures LockBelow(levelOf, AddBlock(env, r, b))
  {
    hide ProcessCertificate;
    var added := r.(forest := WithVertex(r.forest, b));
    if b.id in added.bufferedQCs {
      CertificateLocks(levelOf, env, added, added.bufferedQCs[b.id]);
    }
  }

  lemma {:induction false} CastVoteLocks(levelOf: Id -> View, env: Env, r: Replica, b: Block)
    requires LockBelow(levelOf, r) && LevelConsistent(levelOf, b)
    ensures LockBelow(levelOf, CastVote(env, r, b))
  {
    hide ProcessVote;
    VoteLocks(levelOf, env, r.(log := r.log + [Voted(b, r.preferredView, r.forest.full)]), OwnVote(env, b));
  }

  lemma {:induction false} HandleLocks(levelOf: Id -> View, env: Env, r: Replica, b: Block)
    requires LockBelow(levelOf, r) && GenuineBlock(levelOf, b)
    ensures LockBelow(levelOf, HandleBlock(env, r, b).0)
  {
    hide ProcessCertificate, AddBlock, CastVote, VotingRule;
    if b.view <= r.curView + 1 && b.qc.Some? {
      CertificateLocks(levelOf, env, WithHighQC(r, b.qc.value), b.qc.value);
      var f := FollowQC(env, r, b);
      AddBlockLocks(levelOf, env, f, b);
      CastVoteLocks(levelOf, env, AddBlock(env, f, b), b);
    }
  }

  lemma {:induction false} ProcessBlockLocks(levelOf: Id -> View, env: Env, r: Replica, b: Block)
    requires LockBelow(levelOf, r) && GenuineBlock(levelOf, b) && Aligned(r.bufferedBlocks)
    ensures LockBelow(levelOf, ProcessBlock(env, r, b))
    decreases KeysFrom(r.bufferedBlocks, b.view)
  {
    hide HandleBlock, GenuineBlock;
    HandleLocks(levelOf, env, r, b);
    var (h, verdict) := HandleBlock(env, r, b);
    if verdict == Accepted && b.view in h.bufferedBlocks {
      BufferedBlocksDescend(env, r, b);
      ProcessBlockLocks(levelOf, env, h, h.bufferedBlocks[b.view]);
    }
  }

  lemma {:induction false} TmoLocks(levelOf: Id -> View, env: Env, r: Replica, t: Timeout)
    requires LockBelow(levelOf, r) && Genuine(levelOf, t.highQC)
    ensures LockBelow(levelOf, ProcessRemoteTmo(env, r, t))
  {
    hide ProcessCertificate, AddTimeout, AllConsistent, BuffersGenuine;
    CertificateLocks(levelOf, env, r, t.highQC);
    var c := ProcessCertificate(env, r, t.highQC);
    OtherFieldsAside(levelOf, c, CountTmo(env, c, t));
  }

  lemma {:induction false} OtherFieldsAside(levelOf: Id -> View, a: Replica, b: Replica)
    requires LockBelow(levelOf, a) && b == a.(curView := b.curView, timeouts := b.timeouts)
    ensures LockBelow(levelOf, b)
  {
  }

  ghost predicate GenuineEvent(levelOf: Id -> View, e: Event) {
    match e
    case BlockArrives(b) => GenuineBlock(levelOf, b)
    case VoteArrives(v) => v.view == levelOf(v.blockId)
    case TmoArrives(t) => Genuine(levelOf, t.highQC)
    case TimerFires(_) => true
  }

  lemma {:induction false} NextLocks(levelOf: Id -> View, env: Env, r: Replica, e: Event)
    requires LockBelow(levelOf, r) && Aligned(r.bufferedBlocks) && GenuineEvent(levelOf, e)
    ensures LockBelow(levelOf, Next(env, r, e))
  {
    hide ProcessBlock, ProcessVote, ProcessRemoteTmo, AllConsistent, BuffersGenuine;
    match e
    case BlockArrives(b) => ProcessBlockLocks(levelOf, env, r, b);
    case VoteArrives(v) => VoteLocks(levelOf, env, r, v);
    case TmoArrives(t) => TmoLocks(levelOf, env, r, t);
    case TimerFires(view) =>
      var a := AdvanceView(r, view);
      OtherFieldsAside(levelOf, r, a);
      TmoLocks(levelOf, env, a, Timeout(view + 1, env.me, a.highQC));
  }

  lemma {:induction false} RunLocks(levelOf: Id -> View, env: Env, es: seq<Event>)
    requires levelOf(GENESIS) == 0 && forall i :: 0 <= i < |es| ==> GenuineEvent(levelOf, es[i])
    ensures LockBelow(levelOf, Run(env, es))
    decreases |es|
  {
    if es != [] {
      hide Next, LockBelow, GenuineEvent;
      RunLocks(levelOf, env, es[..|es| - 1]);
      NextLocks(levelOf, env, Run(env, es[..|es| - 1]), es[|es| - 1]);
    }
  }

  /** Over every run, a stored block that extends the highest certificate is safe to vote for. */
  lemma {:induction false} OwnProposalIsSafe(levelOf: Id -> View, env: Env, es: seq<Event>, b: Block)
    requires levelOf(GENESIS) == 0 && forall i :: 0 <= i < |es| ==> GenuineEvent(levelOf, es[i])
    requires var r := Run(env, es);
             && b.id in r.forest.full && r.forest.full[b.id] == b
             && b.prevId == r.highQC.blockId && b.prevId in r.forest.full
    ensures VotingRule(Run(env, es).forest.full, 0, Run(env, es).preferredView, b) == Some(true)
  {
    hide Run;
    RunLocks(levelOf, env, es);
    var full := Run(env, es).forest.full;
    assert LevelConsistent(levelOf, b) && LevelConsistent(levelOf, full[b.prevId]);
  }
}
