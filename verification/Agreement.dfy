/**
 Agreement between replicas: the blocks that honest replicas commit by the three-chain rule lie on one
 chain (hotstuff/hotstuff.go, blockchain/quorum.go, crypto/sign.go). Of what is not checked here it takes
 that honest replicas sign only what they vote for, and that an identifier belongs to one block. The rest
 of the hypotheses are the exact conditions, on each block and certificate when it was handled, under
 which the votes and commits of the honest replicas obey the rules. Faulty replicas may do anything else.
 */
module Agreement {
  import opened Prelude
  import opened Chain
  import opened Replicas
  import opened ReplicaSafety
  import opened ReplicaAccept
  import opened ReplicaKnown
  import opened ReplicaCommits
  import opened ReplicaVotes
  import opened Systems

  /** A vote for a known block with a certificate for its parent, of the parent's view, that was applied to the lock. */
  ghost predicate SoundVote(sys: System, v: Output)
    requires v.Voted?
  {
    && MemberOf(sys.blocks)(v.block) && All(MemberOf(sys.blocks), v.full) && LockApplied(v)
    && v.block.qc.value.blockId == v.block.prevId && ViewIn(sys.blocks, v.block.prevId) < v.block.view
    && (v.block.prevId in sys.blocks ==>
          v.block.qc.value.view == ViewIn(sys.blocks, v.block.prevId) && Certified(sys, v.block.prevId))
  }

  ghost predicate ViewsIncrease(log: seq<Output>) {
    forall i, j :: 0 <= i < j < |log| && log[i].Voted? && log[j].Voted? ==> log[i].block.view < log[j].block.view
  }

  ghost predicate VotesSound(sys: System, log: seq<Output>) {
    forall i :: 0 <= i < |log| && log[i].Voted? ==> SoundVote(sys, log[i])
  }

  ghost predicate RulesFollowed(log: seq<Output>) {
    LocksGrow(log) && forall i :: 0 <= i < |log| && log[i].Voted? ==> FollowsRule(log[i])
  }

  ghost predicate FewFaulty(sys: System) {
    sys.nodes != {} && sys.faulty <= sys.nodes && |sys.faulty| <= (|sys.nodes| - 1) / 3
  }

  ghost predicate Behaved(sys: System) {
    && FewFaulty(sys) && SoundIds(sys.blocks)
    && forall p :: Honest(sys, p) && p in sys.logs ==>
         ViewsIncrease(sys.logs[p]) && VotesSound(sys, sys.logs[p]) && RulesFollowed(sys.logs[p])
  }

  // ----- Quorums

  /** Two quorums share an honest replica. */
  lemma {:induction false} QuorumsMeet(sys: System, a: set<NodeId>, b: set<NodeId>) returns (p: NodeId)
    requires FewFaulty(sys) && a <= sys.nodes && b <= sys.nodes
    requires |a| > |sys.nodes| * 2 / 3 && |b| > |sys.nodes| * 2 / 3
    ensures p in a && p in b && Honest(sys, p)
  {
    OverlapSize(a, b, sys.nodes);
    if a * b <= sys.faulty {
      SubsetSize(a * b, sys.faulty);
      assert false;
    }
    p :| p in a * b && p !in sys.faulty;
  }

  /** An honest replica that voted for both of two certified blocks, and its votes. */
  lemma {:induction false} CommonVoter(sys: System, a: Id, b: Id) returns (p: NodeId, i: nat, j: nat)
    requires FewFaulty(sys) && Certified(sys, a) && Certified(sys, b)
    ensures Honest(sys, p) && p in sys.logs && i < |sys.logs[p]| && j < |sys.logs[p]|
    ensures sys.logs[p][i].Voted? && sys.logs[p][i].block.id == a
    ensures sys.logs[p][j].Voted? && sys.logs[p][j].block.id == b
  {
    var s :| Quorate(sys, s, a);
    var t :| Quorate(sys, t, b);
    p := QuorumsMeet(sys, s, t);
    i :| 0 <= i < |sys.logs[p]| && sys.logs[p][i].Voted? && sys.logs[p][i].block.id == a;
    j :| 0 <= j < |sys.logs[p]| && sys.logs[p][j].Voted? && sys.logs[p][j].block.id == b;
  }

  /** A certified block is known, is not of view 0, lies above its parent, and its parent is certified. */
  lemma {:induction false} CertifiedParent(sys: System, id: Id)
    requires Behaved(sys) && Certified(sys, id)
    ensures id in sys.blocks && sys.blocks[id].view > ViewIn(sys.blocks, sys.blocks[id].prevId)
    ensures sys.blocks[id].prevId in sys.blocks ==> Certified(sys, sys.blocks[id].prevId)
  {
    hide Certified;
    var p, i, j := CommonVoter(sys, id, id);
    assert SoundVote(sys, sys.logs[p][i]);
  }

  /** One view has at most one certified block. */
  lemma {:induction false} OneCertifiedPerView(sys: System, a: Id, b: Id)
    requires Behaved(sys) && Certified(sys, a) && Certified(sys, b) && ViewIn(sys.blocks, a) == ViewIn(sys.blocks, b)
    ensures a == b
  {
    hide Certified;
    var p, i, j := CommonVoter(sys, a, b);
    var log := sys.logs[p];
    assert SoundVote(sys, log[i]) && SoundVote(sys, log[j]);
    assert i == j;
  }

  // ----- Commits

  /** A commit whose certificate is genuine. */
  ghost predicate SoundCommit(sys: System, c: Output)
    requires c.Committed?
  {
    && FollowsCommitRule(c) && All(MemberOf(sys.blocks), c.full)
    && Certified(sys, c.qc.blockId) && c.qc.view == ViewIn(sys.blocks, c.qc.blockId)
  }

  /** Three certified blocks in consecutive views, each the parent of the next. */
  ghost predicate ThreeChain(sys: System, b0: Block, b1: Block, b2: Block) {
    && (forall b :: b in [b0, b1, b2] ==> b.id in sys.blocks && sys.blocks[b.id] == b && Certified(sys, b.id))
    && b1.prevId == b0.id && b2.prevId == b1.id && b1.view == b0.view + 1 && b2.view == b0.view + 2
  }

  lemma {:induction false} CommitIsThreeChain(sys: System, c: Output) returns (b1: Block, b2: Block)
    requires Behaved(sys) && c.Committed? && SoundCommit(sys, c)
    ensures ThreeChain(sys, c.block, b1, b2)
  {
    hide Certified, VotesSound, ViewsIncrease, RulesFollowed;
    b2 := c.full[c.qc.blockId];
    b1 := c.full[b2.prevId];
    CertifiedParent(sys, b2.id);
    CertifiedParent(sys, b1.id);
  }

  /** A vote for the last of three consecutive blocks locks the voter at the first one's view. */
  lemma {:induction false} VoteLocks(sys: System, b0: Block, b1: Block, b2: Block, v: Output)
    requires ThreeChain(sys, b0, b1, b2) && v.Voted? && v.block == b2 && SoundVote(sys, v)
    ensures v.preferred >= b0.view || b0.view <= 1
  {
    hide Certified;
    assert b0 in [b0, b1, b2] && b1 in [b0, b1, b2];
  }

  /** A locked voter accepts only blocks whose parent is not below the lock; genesis is no stored block. */
  lemma {:induction false} LockedParent(sys: System, v: Output, lock: View)
    requires Behaved(sys) && v.Voted? && SoundVote(sys, v) && FollowsRule(v) && v.block.view > 2
    requires v.preferred >= lock || lock <= 1
    ensures v.block.prevId in sys.blocks && lock <= sys.blocks[v.block.prevId].view < v.block.view
    ensures Certified(sys, v.block.prevId)
  {
    hide Certified, VotesSound, ViewsIncrease, RulesFollowed;
    CertifiedParent(sys, v.block.prevId);
  }

  /** The parent of a later certified block is certified and not below the first of three consecutive blocks. */
  lemma {:induction false} ParentNotBelow(sys: System, b0: Block, b1: Block, b2: Block, c: Block)
    requires Behaved(sys) && ThreeChain(sys, b0, b1, b2)
    requires c.id in sys.blocks && sys.blocks[c.id] == c && Certified(sys, c.id) && c.view > b2.view
    ensures c.prevId in sys.blocks && b0.view <= sys.blocks[c.prevId].view < c.view && Certified(sys, c.prevId)
  {
    hide Certified;
    assert b2 in [b0, b1, b2];
    var p, i, j := CommonVoter(sys, b2.id, c.id);
    var log := sys.logs[p];
    assert SoundVote(sys, log[i]) && SoundVote(sys, log[j]) && FollowsRule(log[j]);
    assert i < j;
    VoteLocks(sys, b0, b1, b2, log[i]);
    LockedParent(sys, log[j], b0.view);
  }

  /** Every certified block that is not below a committed one descends from it. */
  lemma {:induction false} CertifiedDescends(sys: System, b0: Block, b1: Block, b2: Block, c: Block)
    requires Behaved(sys) && ThreeChain(sys, b0, b1, b2)
    requires c.id in sys.blocks && sys.blocks[c.id] == c && Certified(sys, c.id) && c.view >= b0.view
    ensures b0 in Lineage(sys.blocks, c)
    decreases c.view
  {
    hide Certified;
    if c.view <= b2.view {
      NearDescends(sys, b0, b1, b2, c);
    } else {
      ParentNotBelow(sys, b0, b1, b2, c);
      var d := sys.blocks[c.prevId];
      CertifiedDescends(sys, b0, b1, b2, d);
      assert Lineage(sys.blocks, c) == [c] + Lineage(sys.blocks, d);
    }
  }

  lemma {:induction false} NearDescends(sys: System, b0: Block, b1: Block, b2: Block, c: Block)
    requires Behaved(sys) && ThreeChain(sys, b0, b1, b2)
    requires c.id in sys.blocks && sys.blocks[c.id] == c && Certified(sys, c.id) && b0.view <= c.view <= b2.view
    ensures b0 in Lineage(sys.blocks, c)
  {
    hide Certified;
    var b := if c.view == b0.view then b0 else if c.view == b1.view then b1 else b2;
    assert b in [b0, b1, b2] && b1 in [b0, b1, b2] && b0 in [b0, b1, b2];
    OneCertifiedPerView(sys, c.id, b.id);
    assert b0 in Lineage(sys.blocks, b0);
    assert Lineage(sys.blocks, b1) == [b1] + Lineage(sys.blocks, b0);
    assert Lineage(sys.blocks, b2) == [b2] + Lineage(sys.blocks, b1);
  }

  /** Any two commits lie on one chain. */
  lemma {:induction false} CommitsAgree(sys: System, c: Output, d: Output)
    requires Behaved(sys) && c.Committed? && d.Committed?
    requires SoundCommit(sys, c) && SoundCommit(sys, d)
    ensures if c.block.view <= d.block.view then c.block in Lineage(sys.blocks, d.block)
            else d.block in Lineage(sys.blocks, c.block)
  {
    hide Certified, Behaved, SoundCommit;
    var c1, c2 := CommitIsThreeChain(sys, c);
    var d1, d2 := CommitIsThreeChain(sys, d);
    assert c.block in [c.block, c1, c2] && d.block in [d.block, d1, d2];
    if c.block.view <= d.block.view {
      CertifiedDescends(sys, c.block, c1, c2, d.block);
    } else {
      CertifiedDescends(sys, d.block, d1, d2, c.block);
    }
  }

  // ----- Logs of the handlers

  /** Where the vote at a place in a log is among the votes of the log. */
  lemma {:induction false} VoteAt(log: seq<Output>, i: nat)
    requires i < |log| && log[i].Voted?
    ensures |VotesOf(log[..i])| < |VotesOf(log)| && VotesOf(log)[|VotesOf(log[..i])|] == log[i]
    decreases |log|
  {
    var front := log[..|log| - 1];
    if i < |front| {
      assert front[..i] == log[..i];
      VoteAt(front, i);
    } else {
      assert log[..i] == front;
    }
  }

  lemma {:induction false} VotesInOrder(log: seq<Output>, i: nat, j: nat)
    requires i < j < |log| && log[i].Voted?
    ensures |VotesOf(log[..i])| < |VotesOf(log[..j])|
  {
    assert log[..j][..i] == log[..i] && log[..j][i] == log[i];
    VoteAt(log[..j], i);
  }

  lemma {:induction false} UpwardsIncrease(env: Env, blocks: Blocks, log: seq<Output>)
    requires Obeys(VoteUpwards, env, blocks, VotesOf(log))
    ensures ViewsIncrease(log)
  {
    hide VotesOf;
    forall i, j | 0 <= i < j < |log| && log[i].Voted? && log[j].Voted?
      ensures log[i].block.view < log[j].block.view
    {
      VoteAt(log, i);
      VoteAt(log, j);
      VotesInOrder(log, i, j);
    }
  }

  /** The rules for votes that agreement needs; a replica may vote twice in no view, as its votes go upwards. */
  ghost predicate Needed(rule: Rule) {
    !rule.VoteOnce?
  }

  /** An honest replica: sound signatures, known blocks, and a run in which the rules and demands are met. */
  ghost predicate Member(sys: System, env: Env, es: seq<Event>) {
    && SoundSignatures(sys, env) && sys.logs[env.me] == Run(env, es).log && KnownEvents(MemberOf(sys.blocks), es)
    && (forall rule :: Needed(rule) ==> RunAllows(rule, env, sys.blocks, es))
    && (forall d :: RunMeets(d, env, sys.blocks, es))
  }

  /** Good signatures of more than two thirds certify a block. */
  lemma {:induction false} SignedIsCertified(sys: System, env: Env, qc: QC)
    requires SoundSignatures(sys, env)
    requires Meets(AllSigned, env, sys.blocks, qc) && Meets(ManySigned, env, sys.blocks, qc)
    ensures Certified(sys, qc.blockId)
  {
    hide Backs;
    forall p | p in qc.Signers()
      ensures Backs(sys, p, qc.blockId)
    {
      var s :| s in qc.sigs && s.signer == p;
    }
    assert Quorate(sys, qc.Signers(), qc.blockId);
  }

  lemma {:induction false} VotesObey(sys: System, env: Env, es: seq<Event>, rule: Rule)
    requires Member(sys, env, es) && Needed(rule)
    ensures Obeys(rule, env, sys.blocks, VotesOf(sys.logs[env.me]))
  {
    hide Run, VotesOf, RunAllows, Obeys, SoundSignatures;
    RunObeysIff(rule, env, sys.blocks, es);
  }

  lemma {:induction false} VoteInOrder(sys: System, env: Env, es: seq<Event>, i: nat, rule: Rule)
    requires Member(sys, env, es) && i < |sys.logs[env.me]| && sys.logs[env.me][i].Voted?
    requires rule.VoteParent? || rule.VoteAbove? || rule.VoteCertified?
    ensures sys.logs[env.me][i].block.qc.Some? && InOrder(rule, env, sys.blocks, sys.logs[env.me][i].block)
  {
    hide VotesOf, InOrder, Run, RunAllows, RunMeets, KnownEvents, Backs;
    VotesObey(sys, env, es, rule);
    VoteAt(sys.logs[env.me], i);
  }

  lemma {:induction false} VoteIsLocked(sys: System, env: Env, es: seq<Event>, i: nat)
    requires Member(sys, env, es) && i < |sys.logs[env.me]| && sys.logs[env.me][i].Voted?
    ensures LockApplied(sys.logs[env.me][i])
  {
    hide VotesOf, LockApplied, Run, RunAllows, RunMeets, KnownEvents, Backs;
    VotesObey(sys, env, es, VoteLocked);
    VoteAt(sys.logs[env.me], i);
  }

  lemma {:induction false} VoteIsSound(sys: System, env: Env, es: seq<Event>, i: nat)
    requires SoundIds(sys.blocks) && Member(sys, env, es) && i < |sys.logs[env.me]| && sys.logs[env.me][i].Voted?
    ensures SoundVote(sys, sys.logs[env.me][i])
  {
    hide Run, RunAllows, RunMeets, Certified, LockApplied, Verified, KnownEvents, Backs, All;
    RunKnown(MemberOf(sys.blocks), env, es);
    VoteIsLocked(sys, env, es, i);
    VoteInOrder(sys, env, es, i, VoteParent);
    VoteInOrder(sys, env, es, i, VoteAbove);
    VoteInOrder(sys, env, es, i, VoteCertified(AllSigned));
    VoteInOrder(sys, env, es, i, VoteCertified(ManySigned));
    VoteInOrder(sys, env, es, i, VoteCertified(OwnView));
    var v := sys.logs[env.me][i];
    if v.block.prevId in sys.blocks {
      SignedIsCertified(sys, env, v.block.qc.value);
    }
  }

  lemma {:induction false} CommitIsSound(sys: System, env: Env, es: seq<Event>, i: nat)
    requires Member(sys, env, es) && i < |sys.logs[env.me]| && sys.logs[env.me][i].Committed?
    ensures SoundCommit(sys, sys.logs[env.me][i])
  {
    var log := sys.logs[env.me];
    RunLocked(env, es);
    RunKnown(MemberOf(sys.blocks), env, es);
    hide Run, RunAllows, RunMeets, Certified, Meets;
    forall d
      ensures Meets(d, env, sys.blocks, log[i].qc)
    {
      RunMeetsIff(d, env, sys.blocks, es);
    }
    SignedIsCertified(sys, env, log[i].qc);
    ViewIsMet(env, sys.blocks, log[i].qc);
  }

  lemma {:induction false} ViewIsMet(env: Env, blocks: Blocks, qc: QC)
    requires Meets(OwnView, env, blocks, qc)
    ensures qc.view == ViewIn(blocks, qc.blockId)
  {
  }

  /** What the handlers make of such a run is what the argument needs of a log. */
  lemma {:induction false} MemberBehaves(sys: System, env: Env, es: seq<Event>)
    requires SoundIds(sys.blocks) && Member(sys, env, es)
    ensures var log := sys.logs[env.me];
            && ViewsIncrease(log) && VotesSound(sys, log) && RulesFollowed(log)
            && forall i :: 0 <= i < |log| && log[i].Committed? ==> SoundCommit(sys, log[i])
  {
    var log := sys.logs[env.me];
    RunLocked(env, es);
    hide Run, VotesOf, RunAllows, RunMeets, Obeys, SoundVote, SoundCommit, SoundSignatures, KnownEvents;
    VotesObey(sys, env, es, VoteUpwards);
    UpwardsIncrease(env, sys.blocks, log);
    hide Member;
    forall i | 0 <= i < |log| && log[i].Voted?
      ensures SoundVote(sys, log[i])
    {
      VoteIsSound(sys, env, es, i);
    }
    forall i | 0 <= i < |log| && log[i].Committed?
      ensures SoundCommit(sys, log[i])
    {
      CommitIsSound(sys, env, es, i);
    }
  }

  /** Every honest replica runs the handlers, in a run as above. */
  ghost predicate Members(sys: System, envs: map<NodeId, Env>, events: map<NodeId, seq<Event>>) {
    forall p :: Honest(sys, p) ==>
      p in envs && p in events && p in sys.logs && envs[p].me == p && Member(sys, envs[p], events[p])
  }

  lemma {:induction false} MembersBehave(sys: System, envs: map<NodeId, Env>, events: map<NodeId, seq<Event>>)
    requires FewFaulty(sys) && SoundIds(sys.blocks) && Members(sys, envs, events)
    ensures Behaved(sys)
    ensures forall p, i :: Honest(sys, p) && 0 <= i < |sys.logs[p]| && sys.logs[p][i].Committed? ==>
              SoundCommit(sys, sys.logs[p][i])
  {
    hide Member, SoundIds, SoundCommit, ViewsIncrease, VotesSound, RulesFollowed;
    forall p | Honest(sys, p)
      ensures ViewsIncrease(sys.logs[p]) && VotesSound(sys, sys.logs[p]) && RulesFollowed(sys.logs[p])
      ensures forall i :: 0 <= i < |sys.logs[p]| && sys.logs[p][i].Committed? ==> SoundCommit(sys, sys.logs[p][i])
    {
      MemberBehaves(sys, envs[p], events[p]);
    }
  }

  /**
   Agreement: in any runs of the handlers at the honest replicas that meet the conditions above, with at
   most a third of the replicas faulty, whatever any two honest replicas commit lies on one chain.
   */
  lemma {:induction false} HonestCommitsAgree(sys: System, envs: map<NodeId, Env>, events: map<NodeId, seq<Event>>,
                                              p: NodeId, q: NodeId, i: nat, j: nat)
    requires FewFaulty(sys) && SoundIds(sys.blocks) && Members(sys, envs, events)
    requires Honest(sys, p) && i < |sys.logs[p]| && sys.logs[p][i].Committed?
    requires Honest(sys, q) && j < |sys.logs[q]| && sys.logs[q][j].Committed?
    ensures var b, c := sys.logs[p][i].block, sys.logs[q][j].block;
            if b.view <= c.view then b in Lineage(sys.blocks, c) else c in Lineage(sys.blocks, b)
  {
    hide Behaved, SoundCommit, Lineage;
    MembersBehave(sys, envs, events);
    CommitsAgree(sys, sys.logs[p][i], sys.logs[q][j]);
  }
}
