/**
 The votes a replica casts over a run (hotstuff/hotstuff.go). Agreement needs votes in increasing views,
 each for a block whose certificate is for its parent, was applied to the lock and is good. The handlers
 enforce none of this: the last voted view is consulted and never recorded, a certificate older than the
 current view is skipped, one that fails verification only is not acted on, and it is not compared with the
 parent. Here are the exact conditions, for every block and every run.
 */
module ReplicaVotes {
  import opened Chain
  import opened Quorums
  import opened Replicas
  import opened ReplicaSafety
  import opened ReplicaAccept
  import opened ReplicaCommits

  /** The votes in a log, in order. */
  ghost function VotesOf(log: seq<Output>): (r: seq<Output>)
    ensures forall i :: 0 <= i < |r| ==> r[i].Voted?
  {
    if log == [] then []
    else
      var last := log[|log| - 1];
      VotesOf(log[..|log| - 1]) + if last.Voted? then [last] else []
  }

  lemma {:induction false} VotesOfStep(log: seq<Output>, o: Output)
    ensures VotesOf(log + [o]) == VotesOf(log) + if o.Voted? then [o] else []
  {
    assert (log + [o])[..|log|] == log;
  }

  lemma {:induction false} CommitCastsNoVote(r: Replica, qc: QC, b: Block)
    ensures VotesOf(Commit(r, qc, b).log) == VotesOf(r.log)
  {
    hide CommitPath, Pruned, IdsOf, VotesOf;
    VotesOfStep(r.log, Committed(b, CommitPath(r.forest.full, r.forest.lowest, b), qc, r.forest.full));
  }

  lemma {:induction false} CertificateCastsNoVote(env: Env, r: Replica, qc: QC)
    ensures VotesOf(ProcessCertificate(env, r, qc).log) == VotesOf(r.log)
  {
    hide UpdatePreferred, CommitRule, Commit, VotesOf;
    var preferred := UpdatePreferred(r.forest.full, r.preferredView, qc);
    if preferred.Some? && CommitRule(r.forest.full, qc).Some? {
      CommitCastsNoVote(Locked(r, qc, preferred.value), qc, CommitRule(r.forest.full, qc).value);
    }
  }

  lemma {:induction false} CountingCastsNoVote(env: Env, r: Replica, vote: Vote)
    ensures VotesOf(ProcessVote(env, r, vote).log) == VotesOf(r.log)
  {
    hide ProcessCertificate, VotesOf;
    var (votes, built) := AddVote(env.n, r.votes, vote);
    if built.Some? {
      CertificateCastsNoVote(env, r.(votes := votes), built.value.(leader := env.me));
    }
  }

  lemma {:induction false} VoteIsCast(env: Env, r: Replica, b: Block)
    ensures VotesOf(CastVote(env, r, b).log) == VotesOf(r.log) + [Voted(b, r.preferredView, r.forest.full)]
  {
    hide ProcessVote, VotesOf;
    var vote := Voted(b, r.preferredView, r.forest.full);
    VotesOfStep(r.log, vote);
    CountingCastsNoVote(env, r.(log := r.log + [vote]), OwnVote(env, b));
  }

  lemma {:induction false} AddingCastsNoVote(env: Env, r: Replica, b: Block)
    requires b.qc.Some?
    ensures VotesOf(AddBlock(env, r, b).log) == VotesOf(r.log)
  {
    hide ProcessCertificate, WithVertex, VotesOf;
    if b.id in r.bufferedQCs {
      CertificateCastsNoVote(env, r.(forest := WithVertex(r.forest, b)), r.bufferedQCs[b.id]);
    }
  }

  /** The vote for a block, with the lock and the forest it is judged by. */
  ghost function VoteFor(env: Env, r: Replica, b: Block): Output
    requires b.qc.Some?
  {
    Voted(b, Judged(env, r, b).preferredView, Judged(env, r, b).forest.full)
  }

  /** Exactly the accepted blocks are voted for. */
  lemma {:induction false} AcceptedIsVoted(env: Env, r: Replica, b: Block)
    ensures HandleBlock(env, r, b).1 == Accepted ==> b.qc.Some?
    ensures VotesOf(HandleBlock(env, r, b).0.log) ==
            VotesOf(r.log) + if HandleBlock(env, r, b).1 == Accepted then [VoteFor(env, r, b)] else []
  {
    hide ProcessCertificate, AddBlock, CastVote, VotingRule, VotesOf;
    if b.qc.Some? {
      CertificateCastsNoVote(env, WithHighQC(r, b.qc.value), b.qc.value);
      var f := FollowQC(env, r, b);
      AddingCastsNoVote(env, f, b);
      VoteIsCast(env, AddBlock(env, f, b), b);
    }
  }

  // ----- Rules for votes, and when a block lets them be kept

  /**
   At most one vote in a view; votes in increasing views; and votes for blocks whose certificate was applied
   to the lock, is for the parent, states a lower view than the block, and, unless it is for genesis, meets a
   demand on certificates.
   */
  datatype Rule = VoteOnce | VoteUpwards | VoteLocked | VoteParent | VoteAbove | VoteCertified(demand: Demand)

  /** What a rule asks of the certificate in a block, all by itself. */
  ghost predicate InOrder(rule: Rule, env: Env, blocks: Blocks, b: Block)
    requires b.qc.Some?
  {
    var qc := b.qc.value;
    match rule
    case VoteParent => qc.blockId == b.prevId
    case VoteAbove => qc.view < b.view
    case VoteCertified(d) => qc.blockId == GENESIS || Meets(d, env, blocks, qc)
    case _ => true
  }

  ghost predicate Obeys(rule: Rule, env: Env, blocks: Blocks, votes: seq<Output>)
    requires forall i :: 0 <= i < |votes| ==> votes[i].Voted?
  {
    match rule
    case VoteOnce => forall i, j :: 0 <= i < j < |votes| ==> votes[i].block.view != votes[j].block.view
    case VoteUpwards => forall i, j :: 0 <= i < j < |votes| ==> votes[i].block.view < votes[j].block.view
    case VoteLocked => forall i :: 0 <= i < |votes| ==> LockApplied(votes[i])
    case _ => forall i :: 0 <= i < |votes| ==> votes[i].block.qc.Some? && InOrder(rule, env, blocks, votes[i].block)
  }

  /** What a votable block must meet for its vote to obey a rule, in terms of what was known before. */
  ghost predicate Allows(rule: Rule, env: Env, blocks: Blocks, r: Replica, b: Block) {
    Votable(env, r, b) ==>
      match rule
      case VoteOnce => forall i :: 0 <= i < |VotesOf(r.log)| ==> VotesOf(r.log)[i].block.view != b.view
      case VoteUpwards => forall i :: 0 <= i < |VotesOf(r.log)| ==> VotesOf(r.log)[i].block.view < b.view
      case VoteLocked => LockKnown(env, r, b)
      case _ => InOrder(rule, env, blocks, b)
  }

  lemma {:induction false} ObeysAppend(rule: Rule, env: Env, blocks: Blocks, votes: seq<Output>, v: Output)
    requires (forall i :: 0 <= i < |votes| ==> votes[i].Voted?) && v.Voted?
    ensures Obeys(rule, env, blocks, votes + [v]) <==>
            Obeys(rule, env, blocks, votes) &&
            match rule
            case VoteOnce => forall i :: 0 <= i < |votes| ==> votes[i].block.view != v.block.view
            case VoteUpwards => forall i :: 0 <= i < |votes| ==> votes[i].block.view < v.block.view
            case VoteLocked => LockApplied(v)
            case _ => v.block.qc.Some? && InOrder(rule, env, blocks, v.block)
  {
    hide LockApplied, InOrder;
    var all := votes + [v];
    assert all[|votes|] == v;
    assert forall i :: 0 <= i < |votes| ==> all[i] == votes[i];
  }

  /** Handling a block keeps a rule if, and only if, the block allows it. */
  lemma {:induction false} HandlingObeysIff(rule: Rule, env: Env, blocks: Blocks, r: Replica, b: Block)
    requires Inv(r)
    ensures Obeys(rule, env, blocks, VotesOf(HandleBlock(env, r, b).0.log)) <==>
            Obeys(rule, env, blocks, VotesOf(r.log)) && Allows(rule, env, blocks, r, b)
  {
    hide HandleBlock, VotesOf, Inv, Obeys, LockApplied, LockKnown, Judged, InOrder, Left, LockThen, ViewThen;
    AcceptedIsVoted(env, r, b);
    assert VotesOf(r.log) + [] == VotesOf(r.log);
    AcceptedIff(env, r, b);
    if Votable(env, r, b) {
      LockAppliedIff(env, r, b);
      ObeysAppend(rule, env, blocks, VotesOf(r.log), VoteFor(env, r, b));
    }
  }

  // ----- Over whole runs

  /** The block, and every buffered one that is handled after it, allows the rule. */
  ghost predicate AllAllow(rule: Rule, env: Env, blocks: Blocks, r: Replica, b: Block)
    requires Aligned(r.bufferedBlocks)
    decreases KeysFrom(r.bufferedBlocks, b.view)
  {
    && Allows(rule, env, blocks, r, b)
    && var (h, verdict) := HandleBlock(env, r, b);
       if verdict != Accepted || b.view !in h.bufferedBlocks then true
       else
         BufferedBlocksDescend(env, r, b);
         AllAllow(rule, env, blocks, h, h.bufferedBlocks[b.view])
  }

  ghost predicate RunAllows(rule: Rule, env: Env, blocks: Blocks, es: seq<Event>) {
    es == [] ||
    var (before, e) := (es[..|es| - 1], es[|es| - 1]);
    RunAllows(rule, env, blocks, before) && (e.BlockArrives? ==> AllAllow(rule, env, blocks, Run(env, before), e.block))
  }

  lemma {:induction false} ProcessingObeysIff(rule: Rule, env: Env, blocks: Blocks, r: Replica, b: Block)
    requires Inv(r)
    ensures Obeys(rule, env, blocks, VotesOf(ProcessBlock(env, r, b).log)) <==>
            Obeys(rule, env, blocks, VotesOf(r.log)) && AllAllow(rule, env, blocks, r, b)
    decreases KeysFrom(r.bufferedBlocks, b.view)
  {
    hide HandleBlock, VotesOf, Obeys, Allows, LogFits, Placed;
    HandlingObeysIff(rule, env, blocks, r, b);
    var (h, verdict) := HandleBlock(env, r, b);
    if verdict == Accepted && b.view in h.bufferedBlocks {
      BufferedBlocksDescend(env, r, b);
      HandleKeeps(env, r, b);
      ProcessingObeysIff(rule, env, blocks, h, h.bufferedBlocks[b.view]);
    }
  }

  lemma {:induction false} OthersCastNoVote(env: Env, r: Replica, e: Event)
    requires Aligned(r.bufferedBlocks) && !e.BlockArrives?
    ensures VotesOf(Next(env, r, e).log) == VotesOf(r.log) && Next(env, r, e).bufferedBlocks == r.bufferedBlocks
  {
    hide ProcessVote, ProcessCertificate, VotesOf;
    match e
    case VoteArrives(v) =>
      CountingKeepsBuffer(env, r, v);
      CountingCastsNoVote(env, r, v);
    case TmoArrives(t) =>
      CertificateKeepsBuffer(env, r, t.highQC);
      CertificateCastsNoVote(env, r, t.highQC);
    case TimerFires(view) =>
      var a := AdvanceView(r, view);
      CertificateKeepsBuffer(env, a, a.highQC);
      CertificateCastsNoVote(env, a, a.highQC);
  }

  /** Over every run the votes obey a rule if, and only if, every block allowed it when it was handled. */
  lemma {:induction false} RunObeysIff(rule: Rule, env: Env, blocks: Blocks, es: seq<Event>)
    ensures Obeys(rule, env, blocks, VotesOf(Run(env, es).log)) <==> RunAllows(rule, env, blocks, es)
    decreases |es|
  {
    if es != [] {
      hide VotesOf, Obeys, AllAllow, Inv;
      var before, e := es[..|es| - 1], es[|es| - 1];
      RunObeysIff(rule, env, blocks, before);
      RunKeeps(env, before);
      if e.BlockArrives? {
        hide ProcessBlock;
        ProcessingObeysIff(rule, env, blocks, Run(env, before), e.block);
      } else {
        hide Next;
        OthersCastNoVote(env, Run(env, before), e);
      }
    }
  }
}
