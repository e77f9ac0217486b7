/**
 The hypotheses of agreement can be met, and commits reached under them (hotstuff/hotstuff.go): four
 replicas, one of them faulty. Replica 0 proposes three blocks and builds a certificate for each from its
 own vote and those of 1 and 2; these two get them with the next block. All three commit the first block.
 */
module AgreementExample {
  import opened Prelude
  import opened Chain
  import opened Quorums
  import opened Replicas
  import opened ReplicaSafety
  import opened ReplicaAccept
  import opened ReplicaKnown
  import opened ReplicaForest
  import opened ReplicaCommits
  import opened ReplicaVotes
  import opened ReplicaArrivals
  import opened ReplicaRuns
  import opened ReplicaSound
  import opened Systems
  import opened Agreement

  ghost function Level(id: Id): View {
    id
  }

  /** Replica 0 leads every view. The signatures that check are those of the votes that are cast below. */
  ghost function EnvOf(p: NodeId): Env {
    Env(p, 4, _ => 0, (_, _) => true, (q, id, _) => q <= 2 && 1 <= id && (id <= 3 || (id == 4 && q >= 1)), _ => 0)
  }

  /** The certificate of the block of a view, and the block that extends the one before it. */
  ghost function Cert(view: View): QC {
    QC(0, view, view, if view == 0 then {} else {Signature(0, 0), Signature(1, 0), Signature(2, 0)})
  }

  ghost function Own(view: nat): Block
    requires view >= 1
  {
    Block(view, view, view - 1, 0, Some(Cert(view - 1)))
  }

  ghost function OwnUpTo(view: View): Blocks {
    map i: Id | 1 <= i <= view :: Own(i)
  }

  ghost function Ballot(view: View, voter: NodeId): Vote {
    Vote(view, voter, view, 0)
  }

  // ----- What arrives is sound

  ghost predicate IsOwn(b: Block) {
    1 <= b.id <= 4 && b == Own(b.id)
  }

  ghost function OneOfThem(): Block -> bool {
    (b: Block) => IsOwn(b)
  }

  lemma {:induction false} CertSound(p: NodeId, view: View)
    requires view <= 3
    ensures forall d :: view >= 1 ==> Meets(d, EnvOf(p), OwnUpTo(4), Cert(view))
    ensures Passes(EnvOf(p), Cert(view))
  {
    if view >= 1 {
      var s := Cert(view).Signers();
      assert Signature(0, 0) in Cert(view).sigs && Signature(1, 0) in Cert(view).sigs && Signature(2, 0) in Cert(view).sigs;
      assert s == {0, 1, 2};
      assert Verified(EnvOf(p), Cert(view));
    }
  }

  lemma {:induction false} OwnSound(p: NodeId, view: nat)
    requires 1 <= view <= 4 && p <= 2 && (p == 0 ==> view <= 3)
    ensures SoundBlock(EnvOf(p), OwnUpTo(4), Own(view)) && IsOwn(Own(view)) && WellBuilt(Level, Own(view))
    ensures ChildOf(Level, EnvOf(p), Own(view), view - 1, view) || p == 0
  {
    hide Meets, Passes;
    CertSound(p, view - 1);
    OwnIsNamed(p, view);
    hide EnvOf, Cert, OwnUpTo;
  }

  lemma {:induction false} OwnIsNamed(p: NodeId, view: nat)
    requires 1 <= view <= 4 && p <= 2 && (p == 0 ==> view <= 3)
    ensures ViewIn(OwnUpTo(4), view) == view && Signed(EnvOf(p), OwnVote(EnvOf(p), Own(view))) && EnvOf(p).me == p
    ensures IsOwn(Own(view)) && WellBuilt(Level, Own(view)) && Own(view).qc == Some(Cert(view - 1))
    ensures Cert(view - 1).view == view - 1
  {
  }

  /** What an honest replica gets: these blocks, and votes for them. */
  ghost predicate Fair(p: NodeId, e: Event) {
    match e
    case BlockArrives(b) => IsOwn(b) && (p == 0 ==> b.id <= 3)
    case VoteArrives(v) => exists view, q: NodeId :: 1 <= view <= 3 && q <= 2 && v == Ballot(view, q)
    case _ => false
  }

  lemma {:induction false} FairIsSound(p: NodeId, es: seq<Event>)
    requires p <= 2 && forall i :: 0 <= i < |es| ==> Fair(p, es[i])
    ensures KnownEvents(OneOfThem(), es) && KnownEvents(MemberOf(OwnUpTo(4)), es) && KnownEvents(LevelsFit(Level), es)
    ensures forall d :: RunMeets(d, EnvOf(p), OwnUpTo(4), es)
  {
    hide RunMeets, SoundBlock, Run, Sound, LevelConsistent;
    forall i | 0 <= i < |es|
      ensures SoundEvent(EnvOf(p), OwnUpTo(4), es[i]) && KnownEvent(OneOfThem(), es[i])
      ensures KnownEvent(MemberOf(OwnUpTo(4)), es[i]) && KnownEvent(LevelsFit(Level), es[i])
    {
      assert Fair(p, es[i]);
      if es[i].BlockArrives? {
        OwnSound(p, es[i].block.id);
      }
    }
    RunSound(EnvOf(p), OwnUpTo(4), es);
  }

  /** The certificates in these blocks are in order. */
  lemma {:induction false} CertificatesAllowed(p: NodeId, es: seq<Event>, rule: Rule)
    requires p <= 2 && forall i :: 0 <= i < |es| ==> Fair(p, es[i])
    requires rule.VoteParent? || rule.VoteAbove? || rule.VoteCertified?
    ensures RunAllows(rule, EnvOf(p), OwnUpTo(4), es)
  {
    hide Run, RunAllows, RunMeets, Meets;
    FairIsSound(p, es);
    RunKnown(OneOfThem(), EnvOf(p), es);
    RunObeysIff(rule, EnvOf(p), OwnUpTo(4), es);
    var log := Run(EnvOf(p), es).log;
    forall i | 0 <= i < |VotesOf(log)|
      ensures VotesOf(log)[i].block.qc.Some? && InOrder(rule, EnvOf(p), OwnUpTo(4), VotesOf(log)[i].block)
    {
      var j := VoteInLog(log, i);
      CertSound(p, log[j].block.id - 1);
    }
  }

  lemma {:induction false} VoteInLog(log: seq<Output>, i: nat) returns (j: nat)
    requires i < |VotesOf(log)|
    ensures j < |log| && log[j] == VotesOf(log)[i]
    decreases |log|
  {
    var front := log[..|log| - 1];
    if i < |VotesOf(front)| {
      j := VoteInLog(front, i);
    } else {
      j := |log| - 1;
    }
  }

  /** A vote for a block of view 3 or less rests on an applied certificate, as that has view 2 or less. */
  lemma {:induction false} LowVoteApplied(v: Output)
    requires v.Voted? && IsOwn(v.block) && v.block.id <= 3
    ensures LockApplied(v)
  {
  }

  // ----- The two that follow

  ghost function Following(): seq<Event> {
    [BlockArrives(Own(1)), BlockArrives(Own(2)), BlockArrives(Own(3)), BlockArrives(Own(4))]
  }

  lemma {:induction false} VotedLater(env: Env, es: seq<Event>, k: nat, id: Id)
    requires k <= |es| && VotedFor(Run(env, es[..k]).log, id)
    ensures VotedFor(Run(env, es).log, id)
  {
    hide Run;
    RunGrows(env, es, k);
    var i :| 0 <= i < |Run(env, es[..k]).log| && Run(env, es[..k]).log[i].Voted? && Run(env, es[..k]).log[i].block.id == id;
    assert Run(env, es).log[i] == Run(env, es[..k]).log[i];
  }

  /** A simple block arrives and is voted for. */
  lemma {:induction false} FollowStep(p: NodeId, view: nat)
    requires 1 <= p <= 2 && 1 <= view <= 3 && Quiet(Run(EnvOf(p), Following()[..view - 1]), view - 1, OwnUpTo(view - 1))
    ensures Quiet(Run(EnvOf(p), Following()[..view]), view, OwnUpTo(view))
    ensures VotedFor(Run(EnvOf(p), Following()[..view]).log, view)
  {
    NextFollows(view);
    var es := Following()[..view - 1];
    hide Run, VotesOf, Following, Passes, Quiet, Simple, Friendly, EnvOf, OwnUpTo, Cert;
    OwnIsSimple(p, view);
    BlockStep(EnvOf(p), es, view - 1, OwnUpTo(view - 1), Own(view));
    var log := Run(EnvOf(p), es + [BlockArrives(Own(view))]).log;
    var j := VoteInLog(log, |VotesOf(log)| - 1);
  }

  lemma {:induction false} NextFollows(view: nat)
    requires 1 <= view <= 4
    ensures |Following()| == 4 && Following()[..view - 1] + [BlockArrives(Own(view))] == Following()[..view]
  {
  }

  lemma {:induction false} OwnIsSimple(p: NodeId, view: nat)
    requires 1 <= p <= 2 && 1 <= view <= 3
    ensures Friendly(EnvOf(p)) && Simple(EnvOf(p), view - 1, OwnUpTo(view - 1), Own(view))
    ensures OwnUpTo(view - 1)[view := Own(view)] == OwnUpTo(view) && Later(view - 1, Cert(view - 1)) == view
  {
    hide Passes;
    CertSound(p, view - 1);
  }

  lemma {:induction false} FollowThree(p: NodeId)
    requires 1 <= p <= 2
    ensures Quiet(Run(EnvOf(p), Following()[..3]), 3, OwnUpTo(3))
    ensures forall id :: 1 <= id <= 3 ==> VotedFor(Run(EnvOf(p), Following()).log, id)
  {
    hide Run, VotedFor, Quiet;
    StartsQuiet(EnvOf(p));
    assert Following()[..0] == [] && OwnUpTo(0) == map[];
    FollowStep(p, 1);
    FollowStep(p, 2);
    FollowStep(p, 3);
    forall id: nat | 1 <= id <= 3
      ensures VotedFor(Run(EnvOf(p), Following()).log, id)
    {
      VotedLater(EnvOf(p), Following(), id, id);
    }
  }

  lemma {:induction false} FollowersAreFair(p: NodeId)
    requires 1 <= p <= 2
    ensures forall i :: 0 <= i < 4 ==> Fair(p, Following()[i])
    ensures forall i :: 0 <= i < 3 ==> Fair(p, Following()[..3][i])
  {
  }

  /** The fourth block is plain, and brings the certificate that locks and commits. */
  lemma {:induction false} FourthIsPlain(p: NodeId)
    requires 1 <= p <= 2
    ensures Plain(Level, Run(EnvOf(p), Following()[..3]), Own(4))
  {
    hide Run, Quiet, VotedFor;
    FollowersAreFair(p);
    FairIsSound(p, Following()[..3]);
    RunLevelled(Level, EnvOf(p), Following()[..3]);
    RunKeeps(EnvOf(p), Following()[..3]);
    OwnSound(p, 4);
    FollowThree(p);
    assert Own(4).id !in Run(EnvOf(p), Following()[..3]).forest.full by { NotStored(p); }
  }

  lemma {:induction false} NotStored(p: NodeId)
    requires 1 <= p <= 2
    ensures 4 !in Run(EnvOf(p), Following()[..3]).forest.full
  {
    hide Run, VotedFor;
    FollowThree(p);
  }

  lemma {:induction false} FourthIsVoted(p: NodeId)
    requires 1 <= p <= 2
    ensures var (env, r, b) := (EnvOf(p), Run(EnvOf(p), Following()[..3]), Own(4));
            HandleBlock(env, r, b).1 == Accepted && LockApplied(VoteFor(env, r, b)) && Commits(env, r, Cert(3))
  {
    var env, r, b := EnvOf(p), Run(EnvOf(p), Following()[..3]), Own(4);
    FollowThree(p);
    FourthIsPlain(p);
    CertSound(p, 3);
    hide Run, HandleBlock, Judged, Plain, LockApplied, VotedFor, EnvOf, Following, Passes;
    assert r.forest.full == OwnUpTo(3) && r.curView == 3 && r.preferredView == 0 && r.forest.lowest == 0;
    assert PlainlyVotable(env, r, b) by { EveryoneLeads(p); }
    PlainAcceptedIff(Level, env, r, b);
    assert PlainlyLocked(env, r, b) by { EveryoneLeads(p); }
    PlainLockAppliedIff(Level, env, r, b);
    assert InLine(r.forest.full, Cert(3), Own(1), Own(2), Own(3));
    assert SeemConsecutive(Cert(3), Own(1), Own(2));
  }

  lemma {:induction false} EveryoneLeads(p: NodeId)
    ensures EnvOf(p).isLeader(0, 4) && EnvOf(p).me == p
  {
  }

  lemma {:induction false} FourVotes(p: NodeId)
    requires 1 <= p <= 2
    ensures var (env, r) := (EnvOf(p), Run(EnvOf(p), Following()[..3]));
            VotesOf(Run(env, Following()).log) == VotesOf(r.log) + [VoteFor(env, r, Own(4))]
  {
    var env, es, b := EnvOf(p), Following()[..3], Own(4);
    assert es + [BlockArrives(b)] == Following();
    hide Run, HandleBlock, Judged, EnvOf, Following, VotesOf, Commits, LockApplied;
    FourthIsVoted(p);
    RunStep(env, es, BlockArrives(b));
    AcceptedIsVoted(env, Run(env, es), b);
    OnlyThisOne(p, env, Run(env, es), b);
  }

  lemma {:induction false} FollowerLocks(p: NodeId)
    requires 1 <= p <= 2
    ensures RunAllows(VoteLocked, EnvOf(p), OwnUpTo(4), Following())
    ensures VotedFor(Run(EnvOf(p), Following()).log, 4)
  {
    var env, es := EnvOf(p), Following()[..3];
    hide Run, HandleBlock, Judged, EnvOf, Following, VotesOf, Commits, LockApplied, OwnUpTo;
    var r, log := Run(env, es), Run(env, Following()).log;
    FourthIsVoted(p);
    FourVotes(p);
    ThreeLocked(p, env, r);
    ObeysAppend(VoteLocked, env, OwnUpTo(4), VotesOf(r.log), VoteFor(env, r, Own(4)));
    RunObeysIff(VoteLocked, env, OwnUpTo(4), Following());
    var j := VoteInLog(log, |VotesOf(log)| - 1);
  }

  lemma {:induction false} OnlyThisOne(p: NodeId, env: Env, r: Replica, b: Block)
    requires 1 <= p <= 2 && env == EnvOf(p) && r == Run(env, Following()[..3]) && b == Own(4)
    ensures ProcessBlock(env, r, b) == HandleBlock(env, r, b).0
  {
    FollowThree(p);
    hide Run, HandleBlock, VotedFor, EnvOf, Following;
    HandlingKeepsBuffer(env, r, b);
    FourthIsVoted(p);
  }

  lemma {:induction false} ThreeLocked(p: NodeId, env: Env, r: Replica)
    requires 1 <= p <= 2 && env == EnvOf(p) && r == Run(env, Following()[..3])
    ensures forall i :: 0 <= i < |VotesOf(r.log)| ==> LockApplied(VotesOf(r.log)[i])
  {
    hide Run, VotesOf, LockApplied, EnvOf, RunMeets;
    var early := (b: Block) => IsOwn(b) && b.id <= 3;
    assert KnownEvents(early, Following()[..3]);
    RunKnown(early, env, Following()[..3]);
    forall i | 0 <= i < |VotesOf(r.log)|
      ensures LockApplied(VotesOf(r.log)[i])
    {
      var j := VoteInLog(r.log, i);
      LowVoteApplied(r.log[j]);
    }
  }

  /** A follower commits the first block. */
  lemma {:induction false} FollowerCommits(p: NodeId)
    requires 1 <= p <= 2
    ensures exists i :: 0 <= i < |Run(EnvOf(p), Following()).log| && Run(EnvOf(p), Following()).log[i].Committed?
  {
    var env, es, b := EnvOf(p), Following()[..3], Own(4);
    assert es + [BlockArrives(b)] == Following();
    FourthIsVoted(p);
    hide Run, HandleBlock, EnvOf, Following, LockApplied, Commits;
    RunStep(env, es, BlockArrives(b));
    var r := Run(env, es);
    OnlyThisOne(p, env, r, b);
    CommitIsKept(p, env, r, b);
  }

  lemma {:induction false} CommitIsKept(p: NodeId, env: Env, r: Replica, b: Block)
    requires 1 <= p <= 2 && env == EnvOf(p) && b == Own(4) && Commits(env, r, Cert(3)) && b.view <= r.curView + 1
    ensures exists i :: 0 <= i < |HandleBlock(env, r, b).0.log| && HandleBlock(env, r, b).0.log[i].Committed?
  {
    hide ProcessCertificate, AddBlock, CastVote, VotingRule, InLine, Passes;
    var high := WithHighQC(r, Cert(3));
    HighAside(env, r, Cert(3));
    CommitsIff(env, high, Cert(3));
    var f := FollowQC(env, r, b);
    CertificateCommits(env, high, Cert(3));
    AddBlockGrows(env, f, b);
    CastVoteGrows(env, AddBlock(env, f, b), b);
    assert f.log[|r.log|].Committed?;
    assert HandleBlock(env, r, b).0.log[|r.log|] == f.log[|r.log|];
  }

  // ----- The one that leads

  /** The leader has certified its blocks up to a view and committed none. */
  ghost predicate Ready(r: Replica, view: View) {
    && r.curView == (if view == 0 then 0 else view + 1) && r.highQC.view == view
    && r.preferredView == 0 && r.lastVotedView == 0 && r.forest.lowest == 0
    && r.bufferedQCs == map[] && r.bufferedBlocks == map[]
    && r.forest.full == OwnUpTo(view)
    && forall id :: id in r.votes ==> id <= view
  }

  /** Its next block is stored and voted for. */
  ghost function Proposed(r: Replica, view: View): Replica
    requires view >= 1
  {
    var f := WithVertex(r.forest, Own(view));
    r.(forest := f, log := r.log + [Voted(Own(view), 0, f.full)], votes := Recorded(r.votes, Ballot(view, 0)))
  }

  lemma {:induction false} OwnFull(f: Forest, view: View)
    requires view >= 1 && f.lowest == 0 && f.full == OwnUpTo(view - 1)
    ensures WithVertex(f, Own(view)).full == OwnUpTo(view) && WithVertex(f, Own(view)).lowest == 0
  {
    assert WithVertex(f, Own(view)).full == f.full[view := Own(view)];
  }

  lemma {:induction false} FirstBallot(votes: Votes, view: View)
    requires view !in votes
    ensures AddVote(4, votes, Ballot(view, 0)) == (Recorded(votes, Ballot(view, 0)), None)
    ensures VotersOf(Recorded(votes, Ballot(view, 0)), view) == {0}
  {
    assert VotersOf(Recorded(votes, Ballot(view, 0)), view) == {0};
  }

  lemma {:induction false} SecondBallot(votes: Votes, view: View)
    requires VotersOf(votes, view) == {0}
    ensures AddVote(4, votes, Ballot(view, 1)) == (Recorded(votes, Ballot(view, 1)), None)
    ensures VotersOf(Recorded(votes, Ballot(view, 1)), view) == {0, 1}
  {
    assert VotersOf(Recorded(votes, Ballot(view, 1)), view) == {0, 1};
  }

  lemma {:induction false} LeaderBlock(r: Replica, view: View)
    requires 1 <= view <= 3 && Ready(r, view - 1)
    ensures ProcessBlock(EnvOf(0), r, Own(view)) == Proposed(r, view)
  {
    hide ProcessCertificate, WithVertex, AddVote, Recorded;
    var env, b := EnvOf(0), Own(view);
    OwnFull(r.forest, view);
    FirstBallot(r.votes, view);
    var a := r.(forest := WithVertex(r.forest, b));
    assert FollowQC(env, r, b) == r;
    assert AddBlock(env, r, b) == a;
    assert VotingRule(a.forest.full, 0, 0, b) == Some(true);
    assert CastVote(env, a, b) == Proposed(r, view);
  }

  /** All three votes are in. */
  ghost function Supported(r: Replica, view: View): Replica
    requires view >= 1
  {
    var q := Proposed(r, view);
    q.(votes := Recorded(Recorded(q.votes, Ballot(view, 1)), Ballot(view, 2)))
  }

  ghost function AllSigs(): set<Signature> {
    {Signature(0, 0), Signature(1, 0), Signature(2, 0)}
  }

  lemma {:induction false} ThirdBallot(votes: Votes, view: View)
    requires view !in votes
    ensures var two := Recorded(Recorded(votes, Ballot(view, 0)), Ballot(view, 1));
            && |VotersOf(two, view)| == 2
            && AddVote(4, two, Ballot(view, 2)) == (Recorded(two, Ballot(view, 2)), Some(QC(0, view, view, AllSigs())))
  {
    var two := Recorded(Recorded(votes, Ballot(view, 0)), Ballot(view, 1));
    var three := Recorded(two, Ballot(view, 2));
    assert VotersOf(two, view) == {0, 1} && VotersOf(three, view) == {0, 1, 2};
    assert three[view] == map[0 := Ballot(view, 0), 1 := Ballot(view, 1), 2 := Ballot(view, 2)];
    var sigs := SigsOf(three, view);
    forall q | q in {0, 1, 2}
      ensures Signature(q, 0) in sigs
    {
      assert q in VotersOf(three, view) && three[view][q].sig == 0;
    }
    assert sigs == AllSigs();
  }

  lemma {:induction false} LeaderVotes(r: Replica, view: View)
    requires 1 <= view <= 3 && Ready(r, view - 1)
    ensures var (env, q) := (EnvOf(0), Proposed(r, view));
            ProcessVote(env, ProcessVote(env, q, Ballot(view, 1)), Ballot(view, 2))
            == ProcessCertificate(env, Supported(r, view), Cert(view))
  {
    hide ProcessCertificate, WithVertex, AddVote, Recorded;
    OwnFull(r.forest, view);
    var q := Proposed(r, view);
    FirstBallot(r.votes, view);
    SecondBallot(q.votes, view);
    ThirdBallot(r.votes, view);
    assert view in q.forest.full;
  }

  /** The three events of a view. */
  ghost function Round(view: nat): seq<Event>
    requires view >= 1
  {
    [BlockArrives(Own(view)), VoteArrives(Ballot(view, 1)), VoteArrives(Ballot(view, 2))]
  }

  lemma {:induction false} RoundEnds(es: seq<Event>, view: nat)
    requires 1 <= view <= 3 && Ready(Run(EnvOf(0), es), view - 1)
    ensures var r := Run(EnvOf(0), es);
            Run(EnvOf(0), es + Round(view)) == ProcessCertificate(EnvOf(0), Supported(r, view), Cert(view))
  {
    hide Run, ProcessBlock, ProcessVote, ProcessCertificate, Ready, EnvOf, Supported, Proposed, Own, Ballot;
    var env, r := EnvOf(0), Run(EnvOf(0), es);
    LeaderBlock(r, view);
    LeaderVotes(r, view);
    BlockAndVotes(env, es, Own(view), Ballot(view, 1), Ballot(view, 2));
  }

  lemma {:induction false} BlockAndVotes(env: Env, es: seq<Event>, b: Block, v: Vote, w: Vote)
    ensures Run(env, es + [BlockArrives(b), VoteArrives(v), VoteArrives(w)])
         == ProcessVote(env, ProcessVote(env, ProcessBlock(env, Run(env, es), b), v), w)
  {
    hide Run, ProcessBlock, ProcessVote;
    var e1, e2, e3 := BlockArrives(b), VoteArrives(v), VoteArrives(w);
    RunStep(env, es, e1);
    RunStep(env, es + [e1], e2);
    RunStep(env, es + [e1] + [e2], e3);
    assert es + [e1] + [e2] + [e3] == es + [e1, e2, e3];
  }

  lemma {:induction false} LowCertificate(r: Replica, view: View)
    requires 1 <= view <= 2 && r.curView <= view && r.highQC.view < view
    ensures ProcessCertificate(EnvOf(0), r, Cert(view)) == r.(curView := view + 1, highQC := Cert(view))
  {
    hide CommitBy, Verified;
  }

  /** After a view the leader is ready for the next one, and has voted. */
  lemma {:induction false} RoundIsReady(es: seq<Event>, view: nat)
    requires 1 <= view <= 2 && Ready(Run(EnvOf(0), es), view - 1)
    ensures Ready(Run(EnvOf(0), es + Round(view)), view)
  {
    hide Run, ProcessCertificate, EnvOf, WithVertex;
    var r := Run(EnvOf(0), es);
    RoundEnds(es, view);
    OwnFull(r.forest, view);
    LowCertificate(Supported(r, view), view);
  }

  lemma {:induction false} RoundVotes(es: seq<Event>, view: nat)
    requires 1 <= view <= 3 && Ready(Run(EnvOf(0), es), view - 1)
    ensures VotedFor(Run(EnvOf(0), es + Round(view)).log, view)
  {
    hide Run, ProcessCertificate, EnvOf, WithVertex, Ready;
    var r := Run(EnvOf(0), es);
    RoundEnds(es, view);
    var s := Supported(r, view);
    CertificateGrows(EnvOf(0), s, Cert(view));
    assert s.log[|r.log|].Voted? && s.log[|r.log|].block.id == view;
    assert Run(EnvOf(0), es + Round(view)).log[|r.log|] == s.log[|r.log|];
  }

  ghost function Leading(): seq<Event> {
    Round(1) + Round(2) + Round(3)
  }

  lemma {:induction false} LeaderReady()
    ensures Ready(Run(EnvOf(0), []), 0) && Ready(Run(EnvOf(0), Round(1)), 1) && Ready(Run(EnvOf(0), Round(1) + Round(2)), 2)
  {
    assert OwnUpTo(0) == map[];
    assert Ready(Run(EnvOf(0), []), 0);
    hide Run, Ready;
    assert [] + Round(1) == Round(1);
    RoundIsReady([], 1);
    RoundIsReady(Round(1), 2);
  }

  lemma {:induction false} LeaderVoted()
    ensures forall id :: 1 <= id <= 3 ==> VotedFor(Run(EnvOf(0), Leading()).log, id)
  {
    hide Run, Ready, VotedFor;
    LeaderReady();
    assert [] + Round(1) == Round(1);
    RoundVotes([], 1);
    RoundVotes(Round(1), 2);
    RoundVotes(Round(1) + Round(2), 3);
    assert Leading()[..3] == Round(1) && Leading()[..6] == Round(1) + Round(2);
    VotedLater(EnvOf(0), Leading(), 3, 1);
    VotedLater(EnvOf(0), Leading(), 6, 2);
  }

  /** The leader commits the first block, too. */
  lemma {:induction false} LeaderCommits()
    ensures exists i :: 0 <= i < |Run(EnvOf(0), Leading()).log| && Run(EnvOf(0), Leading()).log[i].Committed?
  {
    hide Run, ProcessCertificate, WithVertex, Passes, Recorded;
    var env, es := EnvOf(0), Round(1) + Round(2);
    LeaderReady();
    var r := Run(env, es);
    RoundEnds(es, 3);
    OwnFull(r.forest, 3);
    CertSound(0, 3);
    var s := Supported(r, 3);
    assert InLine(s.forest.full, Cert(3), Own(1), Own(2), Own(3)) && SeemConsecutive(Cert(3), Own(1), Own(2));
    assert Commits(env, s, Cert(3));
    CommitsIff(env, s, Cert(3));
    assert Run(env, Leading()).log[|s.log|].Committed?;
  }

  lemma {:induction false} LeaderIsFair()
    ensures forall i :: 0 <= i < |Leading()| ==> Fair(0, Leading()[i])
  {
    forall view: nat, i | 1 <= view <= 3 && 0 <= i < 3
      ensures Fair(0, Round(view)[i])
    {
      assert Ballot(view, 1) == Ballot(view, 1) && Ballot(view, 2) == Ballot(view, 2);
    }
  }

  lemma {:induction false} LeaderLocks()
    ensures RunAllows(VoteLocked, EnvOf(0), OwnUpTo(4), Leading())
  {
    hide Run, VotesOf, LockApplied, EnvOf, RunMeets;
    var env, es := EnvOf(0), Leading();
    LeaderIsFair();
    var early := (b: Block) => IsOwn(b) && b.id <= 3;
    forall i | 0 <= i < |es|
      ensures KnownEvent(early, es[i])
    {
      assert Fair(0, es[i]);
    }
    RunKnown(early, env, es);
    RunObeysIff(VoteLocked, env, OwnUpTo(4), es);
    var log := Run(env, es).log;
    forall i | 0 <= i < |VotesOf(log)|
      ensures LockApplied(VotesOf(log)[i])
    {
      var j := VoteInLog(log, i);
      LowVoteApplied(log[j]);
    }
  }

  // ----- All together

  ghost function EventsOf(p: NodeId): seq<Event> {
    if p == 0 then Leading() else Following()
  }

  ghost function Four(): System {
    System({0, 1, 2, 3}, {3}, OwnUpTo(4), map p: NodeId | p in {0, 1, 2} :: Run(EnvOf(p), EventsOf(p)).log)
  }

  lemma {:induction false} SignersVoted(p: NodeId)
    requires p <= 2
    ensures SoundSignatures(Four(), EnvOf(p))
  {
    hide Run, VotedFor, Leading, Following, OwnUpTo;
    LeaderVoted();
    forall q: NodeId | 1 <= q <= 2
      ensures forall id :: 1 <= id <= 4 ==> VotedFor(Run(EnvOf(q), Following()).log, id)
    {
      FollowThree(q);
      FollowerLocks(q);
    }
    assert |{0, 1, 2, 3}| == 4;
  }

  lemma {:induction false} ArriveUpwards(p: NodeId)
    ensures ViewsArriveUpwards(EventsOf(p))
  {
  }

  lemma {:induction false} RulesAllowed(p: NodeId, rule: Rule)
    requires p <= 2 && Needed(rule)
    ensures RunAllows(rule, EnvOf(p), OwnUpTo(4), EventsOf(p))
  {
    hide Run, RunAllows, RunMeets, VotesOf, Leading, Following, EnvOf, OwnUpTo;
    if rule == VoteUpwards {
      ArriveUpwards(p);
      RunVotesUpwards(EnvOf(p), OwnUpTo(4), EventsOf(p));
      RunObeysIff(VoteUpwards, EnvOf(p), OwnUpTo(4), EventsOf(p));
    } else if rule == VoteLocked {
      if p == 0 {
        LeaderLocks();
      } else {
        FollowerLocks(p);
      }
    } else {
      AllFair(p);
      CertificatesAllowed(p, EventsOf(p), rule);
    }
  }

  lemma {:induction false} AllFair(p: NodeId)
    requires p <= 2
    ensures forall i :: 0 <= i < |EventsOf(p)| ==> Fair(p, EventsOf(p)[i])
  {
    LeaderIsFair();
    if p != 0 {
      FollowersAreFair(p);
    }
  }

  lemma {:induction false} EachIsMember(p: NodeId)
    requires p <= 2
    ensures Member(Four(), EnvOf(p), EventsOf(p))
  {
    hide Run, RunAllows, RunMeets, EnvOf, OwnUpTo, EventsOf, SoundSignatures, KnownEvents, Fair;
    SignersVoted(p);
    AllFair(p);
    FairIsSound(p, EventsOf(p));
    forall rule | Needed(rule)
      ensures RunAllows(rule, EnvOf(p), OwnUpTo(4), EventsOf(p))
    {
      RulesAllowed(p, rule);
    }
    NamedSo(p);
  }

  lemma {:induction false} NamedSo(p: NodeId)
    ensures EnvOf(p).me == p
  {
  }

  ghost predicate CommitsSome(log: seq<Output>) {
    exists i :: 0 <= i < |log| && log[i].Committed?
  }

  /** All hypotheses of agreement hold of this system, and every honest replica in it commits. */
  lemma {:induction false} HypothesesCanBeMet()
    ensures FewFaulty(Four()) && SoundIds(Four().blocks) && Four().faulty != {}
    ensures Members(Four(), map p: NodeId | p in {0, 1, 2} :: EnvOf(p), map p: NodeId | p in {0, 1, 2} :: EventsOf(p))
    ensures forall p :: Honest(Four(), p) ==> CommitsSome(Four().logs[p])
  {
    hide Run, Member, EventsOf, EnvOf;
    forall p: NodeId | p in {0, 1, 2}
      ensures Member(Four(), EnvOf(p), EventsOf(p)) && CommitsSome(Run(EnvOf(p), EventsOf(p)).log) && EnvOf(p).me == p
    {
      EachIsMember(p);
      NamedSo(p);
      EachCommits(p);
    }
    assert |{0, 1, 2, 3}| == 4;
  }

  lemma {:induction false} EachCommits(p: NodeId)
    requires p <= 2
    ensures CommitsSome(Run(EnvOf(p), EventsOf(p)).log)
  {
    hide Run, Leading, Following;
    if p == 0 {
      LeaderCommits();
    } else {
      FollowerCommits(p);
    }
  }
}
