/**
 Runs of a replica that break the rules which agreement needs (hotstuff/hotstuff.go, crypto/sign.go). Votes:
 two in one view, votes that go back in views, one whose certificate was not applied to the lock, and ones
 for blocks whose certificate is not signed, not by enough, not for the parent, or states a wrong view.
 Commits: by certificates that are not signed, not by enough, or state another view than their block has.
 */
module ReplicaRuns {
  import opened Prelude
  import opened Chain
  import opened Replicas
  import opened ReplicaSafety
  import opened ReplicaAccept
  import opened ReplicaCommits
  import opened ReplicaVotes
  import opened ReplicaBuffers

  /** Every proposer leads, and votes go to other replicas. */
  ghost predicate Friendly(env: Env) {
    env.n >= 3 && (forall p, v :: env.isLeader(p, v)) && forall v :: env.leaderFor(v) != env.me
  }

  /** Nothing is locked or committed yet, and no certificate waits. */
  ghost predicate Settled(r: Replica, view: View, full: Blocks) {
    && r.curView == view && r.highQC.view <= view && r.preferredView == 0 && r.lastVotedView == 0
    && r.forest.lowest == 0 && r.forest.full == full
    && r.bufferedQCs == map[] && (forall v :: v in r.timeouts ==> v <= view)
  }

  /** And no block was kept. */
  ghost predicate Quiet(r: Replica, view: View, full: Blocks) {
    Settled(r, view, full) && r.bufferedBlocks == map[]
  }

  /** A block from another replica, at the view or the next one, whose certificate locks nothing. */
  ghost predicate Simple(env: Env, view: View, full: Blocks, b: Block) {
    && b.qc.Some? && Passes(env, b.qc.value) && b.proposer != env.me && b.id !in full
    && view <= b.view <= view + 1 && b.qc.value.view < b.view && (b.qc.value.view <= 2 || b.qc.value.view < view)
    && (b.view > 2 ==> b.prevId in full && b.prevId != b.id)
  }

  function Later(view: View, qc: QC): View {
    if qc.view < view then view else qc.view + 1
  }

  lemma {:induction false} SimpleFollowed(env: Env, r: Replica, full: Blocks, b: Block)
    requires Friendly(env) && Settled(r, r.curView, full) && Simple(env, r.curView, full, b)
    ensures FollowQC(env, r, b) == WithHighQC(r, b.qc.value).(curView := Later(r.curView, b.qc.value))
  {
    hide CommitRule;
  }

  lemma {:induction false} SimpleAccepted(env: Env, r: Replica, full: Blocks, b: Block)
    requires Friendly(env) && Settled(r, r.curView, full) && Simple(env, r.curView, full, b)
    ensures HandleBlock(env, r, b).1 == Accepted && HandleBlock(env, r, b).0.bufferedBlocks == r.bufferedBlocks
    ensures Settled(HandleBlock(env, r, b).0, Later(r.curView, b.qc.value), full[b.id := b])
  {
    SimpleFollowed(env, r, full, b);
    hide FollowQC, ProcessCertificate;
    var f := FollowQC(env, r, b);
    assert f.forest.full == full && f.forest.lowest == 0;
    var a := AddBlock(env, f, b);
    assert a.forest.full == full[b.id := b];
    assert VotingRule(a.forest.full, 0, 0, b) == Some(true);
    hide AddBlock;
  }

  lemma {:induction false} QuietTimer(env: Env, r: Replica, full: Blocks, view: View)
    requires env.n >= 3 && Quiet(r, view, full)
    ensures Quiet(ProcessLocalTmo(env, r, view), view + 1, full) && ProcessLocalTmo(env, r, view).log == r.log
  {
    hide Commit, CommitRule;
    var a := AdvanceView(r, view);
    assert ProcessCertificate(env, a, a.highQC) == a;
    assert view + 1 !in a.timeouts && |{env.me}| == 1;
    var t := Timeout(view + 1, env.me, a.highQC);
    var none: set<NodeId> := {};
    assert none + {t.node} == {t.node};
  }

  // ----- Step by step

  ghost predicate ChildOf(levelOf: Id -> View, env: Env, b: Block, parent: Id, view: View) {
    WellBuilt(levelOf, b) && Passes(env, b.qc.value) && b.prevId == parent && b.view == view && b.proposer != env.me
  }

  /** A simple block arrives, and none waits for it: the run goes on, with one more vote. */
  lemma {:induction false} SettledStep(env: Env, es: seq<Event>, view: View, full: Blocks, b: Block)
    requires Friendly(env) && Settled(Run(env, es), view, full) && Simple(env, view, full, b)
    requires b.view !in Run(env, es).bufferedBlocks
    ensures Settled(Run(env, es + [BlockArrives(b)]), Later(view, b.qc.value), full[b.id := b])
    ensures Run(env, es + [BlockArrives(b)]).bufferedBlocks == Run(env, es).bufferedBlocks
    ensures var (before, after) := (VotesOf(Run(env, es).log), VotesOf(Run(env, es + [BlockArrives(b)]).log));
            |after| == |before| + 1 && after[..|before|] == before && after[|before|].block == b
  {
    RunStep(env, es, BlockArrives(b));
    hide Run, VotesOf, HandleBlock, Judged;
    SimpleAccepted(env, Run(env, es), full, b);
    AcceptedIsVoted(env, Run(env, es), b);
  }

  /** A simple block arrives: the run goes on quietly, with one more vote. */
  lemma {:induction false} BlockStep(env: Env, es: seq<Event>, view: View, full: Blocks, b: Block)
    requires Friendly(env) && Quiet(Run(env, es), view, full) && Simple(env, view, full, b)
    ensures Quiet(Run(env, es + [BlockArrives(b)]), Later(view, b.qc.value), full[b.id := b])
    ensures var (before, after) := (VotesOf(Run(env, es).log), VotesOf(Run(env, es + [BlockArrives(b)]).log));
            |after| == |before| + 1 && after[..|before|] == before && after[|before|].block == b
  {
    hide Run, VotesOf;
    SettledStep(env, es, view, full, b);
  }

  lemma {:induction false} TimerStep(env: Env, es: seq<Event>, view: View, full: Blocks)
    requires env.n >= 3 && Quiet(Run(env, es), view, full)
    ensures Quiet(Run(env, es + [TimerFires(view)]), view + 1, full)
    ensures VotesOf(Run(env, es + [TimerFires(view)]).log) == VotesOf(Run(env, es).log)
  {
    RunStep(env, es, TimerFires(view));
    hide Run, VotesOf, ProcessLocalTmo;
    QuietTimer(env, Run(env, es), full, view);
  }

  lemma {:induction false} StartsQuiet(env: Env)
    ensures Quiet(Run(env, []), 0, map[]) && VotesOf(Run(env, []).log) == []
  {
  }

  ghost predicate FirstTwo(levelOf: Id -> View, env: Env, b1: Block, b2: Block) {
    ChildOf(levelOf, env, b1, b1.prevId, 1) && ChildOf(levelOf, env, b2, b1.id, 2)
  }

  /** Blocks of views 1 and 2 arrive in order. */
  lemma {:induction false} TwoBlocks(levelOf: Id -> View, env: Env, b1: Block, b2: Block)
    requires Friendly(env) && FirstTwo(levelOf, env, b1, b2)
    ensures Quiet(Run(env, [BlockArrives(b1), BlockArrives(b2)]), 2, map[b1.id := b1, b2.id := b2])
    ensures var votes := VotesOf(Run(env, [BlockArrives(b1), BlockArrives(b2)]).log);
            |votes| == 2 && votes[0].block == b1 && votes[1].block == b2
  {
    hide Run, VotesOf;
    StartsQuiet(env);
    BlockStep(env, [], 0, map[], b1);
    assert [] + [BlockArrives(b1)] == [BlockArrives(b1)];
    BlockStep(env, [BlockArrives(b1)], 1, map[b1.id := b1], b2);
    assert [BlockArrives(b1)] + [BlockArrives(b2)] == [BlockArrives(b1), BlockArrives(b2)];
    var none: Blocks := map[];
    assert none[b1.id := b1] == map[b1.id := b1] && map[b1.id := b1][b2.id := b2] == map[b1.id := b1, b2.id := b2];
  }

  /** A simple block is votable when its turn comes. */
  lemma {:induction false} SimpleVotable(env: Env, es: seq<Event>, view: View, full: Blocks, b: Block)
    requires Friendly(env) && Quiet(Run(env, es), view, full) && Simple(env, view, full, b)
    ensures Votable(env, Run(env, es), b)
  {
    hide Run, HandleBlock, Votable, ProcessBlock;
    RunKeeps(env, es);
    SimpleAccepted(env, Run(env, es), full, b);
    AcceptedIff(env, Run(env, es), b);
  }

  /** If the last block of a run does not allow a rule, the votes of the run break it. */
  lemma {:induction false} LastBlockBreaks(rule: Rule, env: Env, blocks: Blocks, es: seq<Event>, b: Block)
    requires !Allows(rule, env, blocks, Run(env, es), b)
    ensures !Obeys(rule, env, blocks, VotesOf(Run(env, es + [BlockArrives(b)]).log))
  {
    hide Run, VotesOf, Obeys, Allows;
    var all := es + [BlockArrives(b)];
    assert all[..|all| - 1] == es && all[|all| - 1] == BlockArrives(b);
    RunObeysIff(rule, env, blocks, all);
  }

  /** If the certificate in the last timeout of a run commits and does not meet a demand, the commits of the run break it. */
  lemma {:induction false} LastTmoBreaks(d: Demand, env: Env, blocks: Blocks, es: seq<Event>, t: Timeout)
    requires !CertificateMeets(d, env, blocks, Run(env, es), t.highQC)
    ensures !CommitsMeet(d, env, blocks, Run(env, es + [TmoArrives(t)]).log)
  {
    hide Run, CommitsMeet, CertificateMeets;
    var all := es + [TmoArrives(t)];
    assert all[..|all| - 1] == es && all[|all| - 1] == TmoArrives(t);
    RunMeetsIff(d, env, blocks, all);
  }

  // ----- Votes in the wrong order, or with the wrong lock

  /** Two votes in one view: the leader proposes two blocks of view 1, and both get a vote. */
  lemma {:induction false} DoubleVote(levelOf: Id -> View, env: Env, blocks: Blocks, a: Block, b: Block)
    requires Friendly(env) && a.id != b.id
    requires ChildOf(levelOf, env, a, a.prevId, 1) && ChildOf(levelOf, env, b, b.prevId, 1)
    ensures !Obeys(VoteOnce, env, blocks, VotesOf(Run(env, [BlockArrives(a), BlockArrives(b)]).log))
  {
    hide Run, VotesOf, Obeys, Votable, Passes;
    StartsQuiet(env);
    BlockStep(env, [], 0, map[], a);
    var es := [BlockArrives(a)];
    assert [] + [BlockArrives(a)] == es && es + [BlockArrives(b)] == [BlockArrives(a), BlockArrives(b)];
    var votes := VotesOf(Run(env, es).log);
    assert votes[|votes| - 1].block == a;
    SimpleVotable(env, es, 1, map[][a.id := a], b);
    assert !Allows(VoteOnce, env, blocks, Run(env, es), b);
    LastBlockBreaks(VoteOnce, env, blocks, es, b);
  }

  /**
   Votes that go back: after a timeout in view 2, a block of view 4 and then one of view 3 arrive, both on
   the block of view 2. No view is proposed twice.
   */
  lemma {:induction false} VotesGoBack(levelOf: Id -> View, env: Env, blocks: Blocks,
                                       b1: Block, b2: Block, b3: Block, b4: Block)
    requires Friendly(env) && FirstTwo(levelOf, env, b1, b2)
    requires ChildOf(levelOf, env, b3, b2.id, 3) && ChildOf(levelOf, env, b4, b2.id, 4)
    ensures var es := [BlockArrives(b1), BlockArrives(b2), TimerFires(2), BlockArrives(b4), BlockArrives(b3)];
            !Obeys(VoteUpwards, env, blocks, VotesOf(Run(env, es).log))
  {
    hide Run, VotesOf, Obeys, Votable, Passes;
    var es := FourthBlock(levelOf, env, b1, b2, b4);
    var votes := VotesOf(Run(env, es).log);
    SimpleVotable(env, es, 3, map[b1.id := b1, b2.id := b2][b4.id := b4], b3);
    assert !Allows(VoteUpwards, env, blocks, Run(env, es), b3);
    LastBlockBreaks(VoteUpwards, env, blocks, es, b3);
    assert es + [BlockArrives(b3)]
        == [BlockArrives(b1), BlockArrives(b2), TimerFires(2), BlockArrives(b4), BlockArrives(b3)];
  }

  /** After a timeout in view 2, a block of view 4 arrives on the block of view 2. */
  lemma {:induction false} FourthBlock(levelOf: Id -> View, env: Env, b1: Block, b2: Block, b4: Block)
    returns (es: seq<Event>)
    requires Friendly(env) && FirstTwo(levelOf, env, b1, b2) && ChildOf(levelOf, env, b4, b2.id, 4)
    ensures es == [BlockArrives(b1), BlockArrives(b2), TimerFires(2), BlockArrives(b4)]
    ensures Quiet(Run(env, es), 3, map[b1.id := b1, b2.id := b2][b4.id := b4])
    ensures var votes := VotesOf(Run(env, es).log); |votes| > 0 && votes[|votes| - 1].block == b4
  {
    hide Run, VotesOf, Passes;
    TwoBlocks(levelOf, env, b1, b2);
    var full := map[b1.id := b1, b2.id := b2];
    var two := [BlockArrives(b1), BlockArrives(b2)];
    TimerStep(env, two, 2, full);
    BlockStep(env, two + [TimerFires(2)], 3, full, b4);
    es := two + [TimerFires(2)] + [BlockArrives(b4)];
  }

  /** A third block arrives in order. */
  lemma {:induction false} ThreeBlocks(levelOf: Id -> View, env: Env, b1: Block, b2: Block, b3: Block)
    returns (es: seq<Event>)
    requires Friendly(env) && FirstTwo(levelOf, env, b1, b2) && ChildOf(levelOf, env, b3, b2.id, 3)
    ensures es == [BlockArrives(b1), BlockArrives(b2), BlockArrives(b3)]
    ensures Quiet(Run(env, es), 3, map[b1.id := b1, b2.id := b2][b3.id := b3])
  {
    hide Run, VotesOf, Passes;
    TwoBlocks(levelOf, env, b1, b2);
    BlockStep(env, [BlockArrives(b1), BlockArrives(b2)], 2, map[b1.id := b1, b2.id := b2], b3);
    es := [BlockArrives(b1), BlockArrives(b2)] + [BlockArrives(b3)];
  }

  /**
   A lock that is not applied: after a timeout in view 3, the block of view 4 gets a vote although its
   certificate, of view 3, is skipped and the lock stays at 0.
   */
  lemma {:induction false} LockSkipped(levelOf: Id -> View, env: Env, blocks: Blocks,
                                       b1: Block, b2: Block, b3: Block, b4: Block)
    requires Friendly(env) && FirstTwo(levelOf, env, b1, b2)
    requires ChildOf(levelOf, env, b3, b2.id, 3) && ChildOf(levelOf, env, b4, b3.id, 4)
    ensures var es := [BlockArrives(b1), BlockArrives(b2), BlockArrives(b3), TimerFires(3), BlockArrives(b4)];
            !Obeys(VoteLocked, env, blocks, VotesOf(Run(env, es).log))
  {
    hide Run, VotesOf, Obeys, Votable, Passes;
    var three := ThreeBlocks(levelOf, env, b1, b2, b3);
    var full := map[b1.id := b1, b2.id := b2][b3.id := b3];
    TimerStep(env, three, 3, full);
    var es := three + [TimerFires(3)];
    SimpleVotable(env, es, 4, full, b4);
    SkippedIsUnknown(env, Run(env, es), full, b4);
    LastBlockBreaks(VoteLocked, env, blocks, es, b4);
    assert es + [BlockArrives(b4)]
        == [BlockArrives(b1), BlockArrives(b2), BlockArrives(b3), TimerFires(3), BlockArrives(b4)];
  }

  /** A certificate older than the view, whose block and parent are stored, leaves the lock at 0. */
  lemma {:induction false} SkippedIsUnknown(env: Env, r: Replica, full: Blocks, b: Block)
    requires Quiet(r, r.curView, full) && b.qc.Some? && 2 < b.qc.value.view < r.curView && b.id !in full
    requires b.qc.value.blockId in full && full[b.qc.value.blockId].prevId in full
    requires full[full[b.qc.value.blockId].prevId].view > 0
    ensures !LockKnown(env, r, b)
  {
    hide Passes;
    assert !Followed(env, r, b) && Waiting(env, r, b) == None;
    assert Left(env, r, b).full == full[b.id := b];
  }

  // ----- Blocks that come early

  /** Blocks of views 3, 1 and 2 arrive in that order: the first is kept, and gets its vote after the others. */
  lemma {:induction false} EarlyBlockIsVoted(levelOf: Id -> View, env: Env, b1: Block, b2: Block, b3: Block)
    requires Friendly(env) && FirstTwo(levelOf, env, b1, b2) && ChildOf(levelOf, env, b3, b2.id, 3)
    ensures var r := Run(env, [BlockArrives(b3), BlockArrives(b1), BlockArrives(b2)]);
            var votes := VotesOf(r.log);
            |votes| == 3 && votes[0].block == b1 && votes[1].block == b2 && votes[2].block == b3 && r.bufferedBlocks == map[]
  {
    hide Run, VotesOf, Simple, FirstTwo, ChildOf, Friendly, ProcessBlock, Later;
    ChainIsSimple(levelOf, env, b1, b2, b3);
    var two := EarlyAndFirst(env, b1, b3);
    RunStep(env, two, BlockArrives(b2));
    LastTwo(env, Run(env, two), map[][b1.id := b1], b2, b3);
    assert two + [BlockArrives(b2)] == [BlockArrives(b3), BlockArrives(b1), BlockArrives(b2)];
  }

  lemma {:induction false} EarlyAndFirst(env: Env, b1: Block, b3: Block) returns (es: seq<Event>)
    requires Friendly(env) && Simple(env, 0, map[], b1) && b1.view == 1 && b3.view == 3
    ensures es == [BlockArrives(b3), BlockArrives(b1)] && Settled(Run(env, es), Later(0, b1.qc.value), map[][b1.id := b1])
    ensures Run(env, es).bufferedBlocks == map[2 := b3]
    ensures |VotesOf(Run(env, es).log)| == 1 && VotesOf(Run(env, es).log)[0].block == b1
  {
    hide Run, VotesOf, Simple, Friendly, Later;
    StartsQuiet(env);
    EarlyStep(env, [], b3);
    var one := [] + [BlockArrives(b3)];
    SettledStep(env, one, 0, map[], b1);
    es := one + [BlockArrives(b1)];
  }

  lemma {:induction false} ChainIsSimple(levelOf: Id -> View, env: Env, b1: Block, b2: Block, b3: Block)
    requires FirstTwo(levelOf, env, b1, b2) && ChildOf(levelOf, env, b3, b2.id, 3)
    ensures b1.view == 1 && b2.view == 2 && b3.view == 3 && b1.qc.Some? && b2.qc.Some?
    ensures Simple(env, 0, map[], b1) && Later(0, b1.qc.value) == 1
    ensures Simple(env, 1, map[][b1.id := b1], b2) && Later(1, b2.qc.value) == 2
    ensures Simple(env, 2, map[][b1.id := b1][b2.id := b2], b3)
  {
    hide Passes;
  }

  /** An early block arrives: it is kept, and nothing else changes. */
  lemma {:induction false} EarlyStep(env: Env, es: seq<Event>, b: Block)
    requires b.view > Run(env, es).curView + 1 && Run(env, es).bufferedBlocks == map[]
    ensures Run(env, es + [BlockArrives(b)]) == Run(env, es).(bufferedBlocks := map[b.view - 1 := b])
  {
    RunStep(env, es, BlockArrives(b));
    hide Run, ProcessBlock;
    EarlyIsKept(env, Run(env, es), b);
  }

  /** A simple block, and the block that waits for it. */
  lemma {:induction false} LastTwo(env: Env, r: Replica, full: Blocks, a: Block, b: Block)
    requires Friendly(env) && Settled(r, r.curView, full) && Simple(env, r.curView, full, a)
    requires r.bufferedBlocks == map[a.view := b] && b.view == a.view + 1
    requires Simple(env, Later(r.curView, a.qc.value), full[a.id := a], b)
    ensures ProcessBlock(env, r, a).bufferedBlocks == map[]
    ensures var (before, after) := (VotesOf(r.log), VotesOf(ProcessBlock(env, r, a).log));
            && |after| == |before| + 2 && after[..|before|] == before
            && after[|before|].block == a && after[|before| + 1].block == b
  {
    hide VotesOf, HandleBlock, Simple, Friendly, Judged;
    SimpleAccepted(env, r, full, a);
    var h := HandleBlock(env, r, a).0;
    SimpleAccepted(env, h, full[a.id := a], b);
    AcceptedIsVoted(env, r, a);
    AcceptedIsVoted(env, h, b);
    assert b.view !in HandleBlock(env, h, b).0.bufferedBlocks;
  }

  /**
   A block that is lost: after a timeout in view 2, a block of view 5 is kept. The block of view 4 gets a vote
   in view 3; the kept one is early still, is kept under the same key again, and the key is deleted.
   */
  lemma {:induction false} EarlyBlockIsLost(levelOf: Id -> View, env: Env, b1: Block, b2: Block, b4: Block, b5: Block)
    requires Friendly(env) && FirstTwo(levelOf, env, b1, b2) && ChildOf(levelOf, env, b4, b2.id, 4) && b5.view == 5
    ensures var r := Run(env, [BlockArrives(b1), BlockArrives(b2), TimerFires(2), BlockArrives(b5), BlockArrives(b4)]);
            r.bufferedBlocks == map[] && forall i :: 0 <= i < |VotesOf(r.log)| ==> VotesOf(r.log)[i].block != b5
  {
    hide Run, VotesOf, Passes, ProcessBlock;
    var two := [BlockArrives(b1), BlockArrives(b2)];
    var full := map[b1.id := b1, b2.id := b2];
    TwoBlocks(levelOf, env, b1, b2);
    TimerStep(env, two, 2, full);
    var es := two + [TimerFires(2)];
    EarlyStep(env, es, b5);
    var r := Run(env, es + [BlockArrives(b5)]);
    RunStep(env, es + [BlockArrives(b5)], BlockArrives(b4));
    DroppedAfter(env, r, full, b4, b5);
    assert es + [BlockArrives(b5)] + [BlockArrives(b4)]
        == [BlockArrives(b1), BlockArrives(b2), TimerFires(2), BlockArrives(b5), BlockArrives(b4)];
  }

  /** A simple block that leaves the view where it was; the block that waits for it is dropped. */
  lemma {:induction false} DroppedAfter(env: Env, r: Replica, full: Blocks, a: Block, b: Block)
    requires Friendly(env) && Settled(r, r.curView, full) && Simple(env, r.curView, full, a)
    requires r.bufferedBlocks == map[a.view := b] && b.view == a.view + 1
    requires a.view == r.curView + 1 && a.qc.value.view < r.curView
    ensures ProcessBlock(env, r, a).bufferedBlocks == map[]
    ensures var (before, after) := (VotesOf(r.log), VotesOf(ProcessBlock(env, r, a).log));
            |after| == |before| + 1 && after[..|before|] == before && after[|before|].block == a
  {
    hide VotesOf, HandleBlock, Simple, Friendly, Judged;
    SimpleAccepted(env, r, full, a);
    AcceptedIsVoted(env, r, a);
    var h := HandleBlock(env, r, a).0;
    BufferedBlocksDescend(env, r, a);
    EarlyIsKept(env, h, b);
  }

  // ----- A certificate that comes early

  /** A certificate of view 3 comes before its block, and the block before its parent. */
  ghost predicate Orphan(env: Env, b: Block, t: Timeout) {
    && b.qc.Some? && b.view == 3 && b.qc.value.view == 2 && Passes(env, b.qc.value)
    && b.proposer != env.me && b.prevId != b.id
    && t.view < 2 && t.highQC.view == 3 && t.highQC.blockId == b.id && Passes(env, t.highQC)
  }

  /** The certificate is kept for the block, and lost when the block is filed: the view stays at 3. */
  lemma {:induction false} CertificateIsLost(env: Env, b: Block, t: Timeout)
    requires Friendly(env) && Orphan(env, b, t)
    ensures var es := [TimerFires(0), TimerFires(1), TmoArrives(t)];
            && b.id in Run(env, es).bufferedQCs && Run(env, es).bufferedQCs[b.id] == t.highQC
            && Run(env, es + [BlockArrives(b)]).bufferedQCs == map[] && Run(env, es + [BlockArrives(b)]).curView == 3
  {
    hide Run, VotesOf, Passes;
    StartsQuiet(env);
    TimerStep(env, [], 0, map[]);
    TimerStep(env, [] + [TimerFires(0)], 1, map[]);
    var two := [] + [TimerFires(0)] + [TimerFires(1)];
    RunStep(env, two, TmoArrives(t));
    WaitsForBlock(env, Run(env, two), b, t);
    RunStep(env, two + [TmoArrives(t)], BlockArrives(b));
    LostWhenFiled(env, Run(env, two), b, t.highQC);
    assert two + [TmoArrives(t)] == [TimerFires(0), TimerFires(1), TmoArrives(t)];
  }

  lemma {:induction false} WaitsForBlock(env: Env, r: Replica, b: Block, t: Timeout)
    requires Quiet(r, 2, map[]) && Orphan(env, b, t)
    ensures ProcessRemoteTmo(env, r, t) == r.(bufferedQCs := map[b.id := t.highQC])
  {
    hide CommitBy, Passes;
    assert ProcessCertificate(env, r, t.highQC) == BufferQC(r, t.highQC);
  }

  lemma {:induction false} LostWhenFiled(env: Env, r: Replica, b: Block, qc: QC)
    requires Friendly(env) && Quiet(r, 2, map[])
    requires b.qc.Some? && b.view == 3 && b.qc.value.view == 2 && Passes(env, b.qc.value)
    requires b.proposer != env.me && b.prevId != b.id && qc.view == 3 && qc.blockId == b.id && Passes(env, qc)
    ensures var q := ProcessBlock(env, r.(bufferedQCs := map[b.id := qc]), b);
            q.bufferedQCs == map[] && q.curView == 3
  {
    hide CommitBy, Passes, CastVote;
    var w := r.(bufferedQCs := map[b.id := qc]);
    var f := FollowQC(env, w, b);
    assert f == WithHighQC(w, b.qc.value).(curView := 3);
    var added := f.(forest := WithVertex(f.forest, b));
    assert added.forest.full == map[b.id := b];
    assert ProcessCertificate(env, added, qc) == BufferQC(added, qc);
    assert AddBlock(env, f, b) == added.(bufferedQCs := map[]);
    hide AddBlock, FollowQC;
  }

  // ----- Votes for blocks with a wrong certificate

  /** A certificate that fails verification: the block that carries it gets a vote all the same. */
  lemma {:induction false} UnverifiedIsVoted(env: Env, blocks: Blocks, b: Block)
    requires env.n >= 3 && env.isLeader(b.proposer, 2) && b.view == 2
    requires b.qc.Some? && b.qc.value.view == 1 && b.qc.value.blockId != GENESIS && b.qc.value.leader != env.me
    requires !Verified(env, b.qc.value)
    ensures !Obeys(VoteCertified(AllSigned), env, blocks, VotesOf(Run(env, [TimerFires(0), BlockArrives(b)]).log))
  {
    hide Run, VotesOf, Obeys, Verified;
    StartsQuiet(env);
    TimerStep(env, [], 0, map[]);
    var es := [TimerFires(0)];
    assert [] + es == es && es + [BlockArrives(b)] == [TimerFires(0), BlockArrives(b)];
    assert Votable(env, Run(env, es), b) && !Allows(VoteCertified(AllSigned), env, blocks, Run(env, es), b);
    LastBlockBreaks(VoteCertified(AllSigned), env, blocks, es, b);
  }

  /** A certificate that nobody signed passes, and the block that carries it gets a vote. */
  lemma {:induction false} UnsignedIsVoted(env: Env, blocks: Blocks, b: Block)
    requires Friendly(env) && b.view == 2 && b.proposer != env.me
    requires b.qc.Some? && b.qc.value.view == 1 && b.qc.value.blockId != GENESIS && b.qc.value.sigs == {}
    ensures !Obeys(VoteCertified(ManySigned), env, blocks, VotesOf(Run(env, [TimerFires(0), BlockArrives(b)]).log))
  {
    hide Run, VotesOf, Obeys, Votable;
    StartsQuiet(env);
    TimerStep(env, [], 0, map[]);
    var es := [TimerFires(0)];
    assert [] + es == es && es + [BlockArrives(b)] == [TimerFires(0), BlockArrives(b)];
    SimpleVotable(env, es, 1, map[], b);
    assert b.qc.value.Signers() == {};
    assert !Allows(VoteCertified(ManySigned), env, blocks, Run(env, es), b);
    LastBlockBreaks(VoteCertified(ManySigned), env, blocks, es, b);
  }

  /** A block of view 3 on the block of view 2, with some certificate from before that view. */
  ghost predicate OddChild(env: Env, b1: Block, b2: Block, b3: Block) {
    && b3.view == 3 && b3.prevId == b2.id && b3.proposer != env.me && b3.id != b1.id && b3.id != b2.id
    && b3.qc.Some? && Passes(env, b3.qc.value) && b3.qc.value.view < 2
  }

  /** It breaks every rule that its certificate is not in order for. */
  lemma {:induction false} OddChildIsVoted(rule: Rule, levelOf: Id -> View, env: Env, blocks: Blocks,
                                           b1: Block, b2: Block, b3: Block)
    requires Friendly(env) && FirstTwo(levelOf, env, b1, b2) && OddChild(env, b1, b2, b3)
    requires rule.VoteParent? || rule.VoteAbove? || rule.VoteCertified?
    requires !InOrder(rule, env, blocks, b3)
    ensures !Obeys(rule, env, blocks, VotesOf(Run(env, [BlockArrives(b1), BlockArrives(b2), BlockArrives(b3)]).log))
  {
    hide Run, VotesOf, Obeys, Votable, Passes, InOrder;
    TwoBlocks(levelOf, env, b1, b2);
    var es := [BlockArrives(b1), BlockArrives(b2)];
    SimpleVotable(env, es, 2, map[b1.id := b1, b2.id := b2], b3);
    LastBlockBreaks(rule, env, blocks, es, b3);
    assert es + [BlockArrives(b3)] == [BlockArrives(b1), BlockArrives(b2), BlockArrives(b3)];
  }

  /** A certificate that is not for the parent: that of genesis will do for a block of view 3. */
  lemma {:induction false} OtherParentIsVoted(levelOf: Id -> View, env: Env, blocks: Blocks, b1: Block, b2: Block, b3: Block)
    requires Friendly(env) && FirstTwo(levelOf, env, b1, b2) && OddChild(env, b1, b2, b3)
    requires b3.qc.value.blockId == GENESIS != b2.id
    ensures !Obeys(VoteParent, env, blocks, VotesOf(Run(env, [BlockArrives(b1), BlockArrives(b2), BlockArrives(b3)]).log))
  {
    hide Run, VotesOf, Obeys, Passes;
    OddChildIsVoted(VoteParent, levelOf, env, blocks, b1, b2, b3);
  }

  /** A certificate for the parent that states another view than the parent has. */
  lemma {:induction false} RelabelledIsVoted(levelOf: Id -> View, env: Env, blocks: Blocks, b1: Block, b2: Block, b3: Block)
    requires Friendly(env) && FirstTwo(levelOf, env, b1, b2) && OddChild(env, b1, b2, b3)
    requires b3.qc.value.blockId == b2.id != GENESIS && b2.id in blocks && blocks[b2.id] == b2
    ensures var es := [BlockArrives(b1), BlockArrives(b2), BlockArrives(b3)];
            !Obeys(VoteCertified(OwnView), env, blocks, VotesOf(Run(env, es).log))
  {
    hide Run, VotesOf, Obeys, Passes;
    OddChildIsVoted(VoteCertified(OwnView), levelOf, env, blocks, b1, b2, b3);
  }

  /** A certificate of a later view than the block: in a block that names the replica as proposer it is not looked at. */
  lemma {:induction false} LaterCertificateIsVoted(env: Env, blocks: Blocks, b: Block)
    requires env.isLeader(env.me, 1) && b.view == 1 && b.proposer == env.me && b.qc.Some? && b.qc.value.view >= 1
    ensures !Obeys(VoteAbove, env, blocks, VotesOf(Run(env, [BlockArrives(b)]).log))
  {
    hide VotesOf, Obeys, Passes;
    assert Votable(env, Run(env, []), b) && !Allows(VoteAbove, env, blocks, Run(env, []), b);
    assert [] + [BlockArrives(b)] == [BlockArrives(b)];
    LastBlockBreaks(VoteAbove, env, blocks, [], b);
  }

  // ----- Commits by a wrong certificate

  /** A certificate for the last of three blocks in line, which seem consecutive to it, commits the first. */
  lemma {:induction false} LineIsCommitted(env: Env, r: Replica, full: Blocks, qc: QC, b1: Block, b2: Block, b3: Block)
    requires Quiet(r, 3, full) && qc.view == 3 && Passes(env, qc)
    requires InLine(full, qc, b1, b2, b3) && b1.view == 1 && b2.view == 2
    ensures Commits(env, r, qc)
  {
    hide InLine, Passes;
    assert SeemConsecutive(qc, b1, b2);
  }

  /** A commit without a single signature: three blocks in order, and a certificate that nobody signed. */
  lemma {:induction false} UnsignedCommits(levelOf: Id -> View, env: Env, blocks: Blocks,
                                           b1: Block, b2: Block, b3: Block, t: Timeout)
    requires Friendly(env) && FirstTwo(levelOf, env, b1, b2) && ChildOf(levelOf, env, b3, b2.id, 3)
    requires t.highQC.view == 3 && t.highQC.blockId == b3.id && t.highQC.sigs == {}
    ensures var es := [BlockArrives(b1), BlockArrives(b2), BlockArrives(b3), TmoArrives(t)];
            !CommitsMeet(ManySigned, env, blocks, Run(env, es).log)
  {
    hide Run, CommitsMeet, Quiet;
    var es := ThreeBlocks(levelOf, env, b1, b2, b3);
    LineIsCommitted(env, Run(env, es), map[b1.id := b1, b2.id := b2][b3.id := b3], t.highQC, b1, b2, b3);
    assert t.highQC.Signers() == {};
    LastTmoBreaks(ManySigned, env, blocks, es, t);
    assert es + [TmoArrives(t)] == [BlockArrives(b1), BlockArrives(b2), BlockArrives(b3), TmoArrives(t)];
  }

  /** A commit on a signature that does not check: the certificate names the replica itself as its builder. */
  lemma {:induction false} UnverifiedCommits(levelOf: Id -> View, env: Env, blocks: Blocks,
                                             b1: Block, b2: Block, b3: Block, t: Timeout)
    requires Friendly(env) && FirstTwo(levelOf, env, b1, b2) && ChildOf(levelOf, env, b3, b2.id, 3)
    requires t.highQC.view == 3 && t.highQC.blockId == b3.id && t.highQC.leader == env.me && !Verified(env, t.highQC)
    ensures var es := [BlockArrives(b1), BlockArrives(b2), BlockArrives(b3), TmoArrives(t)];
            !CommitsMeet(AllSigned, env, blocks, Run(env, es).log)
  {
    hide Run, CommitsMeet, Quiet, Verified;
    var es := ThreeBlocks(levelOf, env, b1, b2, b3);
    LineIsCommitted(env, Run(env, es), map[b1.id := b1, b2.id := b2][b3.id := b3], t.highQC, b1, b2, b3);
    LastTmoBreaks(AllSigned, env, blocks, es, t);
    assert es + [TmoArrives(t)] == [BlockArrives(b1), BlockArrives(b2), BlockArrives(b3), TmoArrives(t)];
  }

  /**
   A commit of blocks that are not consecutive: their views are 1, 2 and 4, and the certificate for the last
   one states view 3. The signatures do not cover the view, so they may all be good and enough.
   */
  lemma {:induction false} RelabelledCommits(levelOf: Id -> View, env: Env, blocks: Blocks,
                                             b1: Block, b2: Block, b4: Block, t: Timeout)
    requires Friendly(env) && FirstTwo(levelOf, env, b1, b2) && ChildOf(levelOf, env, b4, b2.id, 4)
    requires t.highQC.view == 3 && t.highQC.blockId == b4.id && Passes(env, t.highQC)
    requires b4.id in blocks && blocks[b4.id] == b4
    ensures var es := [BlockArrives(b1), BlockArrives(b2), TimerFires(2), BlockArrives(b4)];
            && Commits(env, Run(env, es), t.highQC) && InLine(Run(env, es).forest.full, t.highQC, b1, b2, b4)
            && !Consecutive(b1, b2, b4) && !CommitsMeet(OwnView, env, blocks, Run(env, es + [TmoArrives(t)]).log)
  {
    hide Run, CommitsMeet, VotesOf, Passes;
    var es := FourthBlock(levelOf, env, b1, b2, b4);
    LineIsCommitted(env, Run(env, es), map[b1.id := b1, b2.id := b2][b4.id := b4], t.highQC, b1, b2, b4);
    hide Quiet;
    LastTmoBreaks(OwnView, env, blocks, es, t);
  }

  // ----- What comes of it

  /** The last thing a replica put out was the commit of a block. */
  ghost predicate JustCommitted(log: seq<Output>, b: Block) {
    |log| > 0 && log[|log| - 1].Committed? && log[|log| - 1].block == b
  }

  lemma {:induction false} TmoCommits(env: Env, es: seq<Event>, t: Timeout, b1: Block, b2: Block, b3: Block)
    requires Commits(env, Run(env, es), t.highQC) && InLine(Run(env, es).forest.full, t.highQC, b1, b2, b3)
    ensures JustCommitted(Run(env, es + [TmoArrives(t)]).log, b1)
  {
    RunStep(env, es, TmoArrives(t));
    hide Run, ProcessCertificate, AddTimeout, Commits, InLine, CommitPath;
    CommitsIff(env, Run(env, es), t.highQC);
  }

  /** Three blocks in order, and a certificate for the last one that nobody signed. */
  ghost predicate Fork(levelOf: Id -> View, env: Env, b1: Block, b2: Block, b3: Block, t: Timeout) {
    && Friendly(env) && FirstTwo(levelOf, env, b1, b2) && ChildOf(levelOf, env, b3, b2.id, 3)
    && t.highQC.view == 3 && t.highQC.blockId == b3.id && t.highQC.sigs == {}
  }

  lemma {:induction false} ForkIsCommitted(levelOf: Id -> View, env: Env, b1: Block, b2: Block, b3: Block, t: Timeout)
    requires Fork(levelOf, env, b1, b2, b3, t)
    ensures JustCommitted(Run(env, [BlockArrives(b1), BlockArrives(b2), BlockArrives(b3), TmoArrives(t)]).log, b1)
  {
    hide Run;
    var es := ThreeBlocks(levelOf, env, b1, b2, b3);
    LineIsCommitted(env, Run(env, es), map[b1.id := b1, b2.id := b2][b3.id := b3], t.highQC, b1, b2, b3);
    TmoCommits(env, es, t, b1, b2, b3);
    assert es + [TmoArrives(t)] == [BlockArrives(b1), BlockArrives(b2), BlockArrives(b3), TmoArrives(t)];
  }

  /** Disagreement: two replicas that are given two forks, each with a certificate that nobody signed, commit both. */
  lemma {:induction false} UnsignedForksSplit(levelOf: Id -> View, p: Env, q: Env, blocks: Blocks,
                                              a1: Block, a2: Block, a3: Block, t: Timeout,
                                              b1: Block, b2: Block, b3: Block, u: Timeout)
    requires Fork(levelOf, p, a1, a2, a3, t) && Fork(levelOf, q, b1, b2, b3, u) && a1 != b1
    requires forall id :: id in blocks ==> blocks[id].id == id
    ensures JustCommitted(Run(p, [BlockArrives(a1), BlockArrives(a2), BlockArrives(a3), TmoArrives(t)]).log, a1)
    ensures JustCommitted(Run(q, [BlockArrives(b1), BlockArrives(b2), BlockArrives(b3), TmoArrives(u)]).log, b1)
    ensures a1 !in Lineage(blocks, b1) && b1 !in Lineage(blocks, a1)
  {
    hide Run, Lineage;
    ForkIsCommitted(levelOf, p, a1, a2, a3, t);
    ForkIsCommitted(levelOf, q, b1, b2, b3, u);
    LineageLinked(blocks, a1);
    LineageLinked(blocks, b1);
    assert a1.view == b1.view == 1;
  }
}
