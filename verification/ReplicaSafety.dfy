/**
 What holds over every run of a replica: views, lock and committed level only grow, and a commit
 binds every later vote (hotstuff/hotstuff.go, pacemaker/pacemaker.go).
 */
module ReplicaSafety {
  import opened Prelude
  import opened Chain
  import opened Quorums
  import opened Replicas

  // ----- What every handler keeps

  /** A vote was within the voting rule. */
  ghost predicate FollowsRule(v: Output)
    requires v.Voted?
  {
    VotingRule(v.full, 0, v.preferred, v.block) == Some(true)
  }

  /** The parent of the block voted for is above a view. */
  ghost predicate ParentAbove(v: Output, view: View)
    requires v.Voted?
  {
    ParentOf(v.full, v.block.id).Some? && ParentOf(v.full, v.block.id).value.view > view
  }

  /** A commit was within the commit rule. */
  ghost predicate FollowsCommitRule(c: Output)
    requires c.Committed?
  {
    c.qc.view >= 3 && CommitRule(c.full, c.qc) == Some(c.block)
  }

  ghost predicate CommitsBelow(log: seq<Output>, r: Replica) {
    forall i :: 0 <= i < |log| && log[i].Committed? ==>
      log[i].block.view <= r.forest.lowest < r.preferredView && r.curView >= 4 && FollowsCommitRule(log[i])
  }

  ghost predicate VotesBelow(log: seq<Output>, preferred: View) {
    forall i :: 0 <= i < |log| && log[i].Voted? ==> log[i].preferred <= preferred && FollowsRule(log[i])
  }

  /** The commit is the very last output, and was made by a certificate for this block. */
  ghost predicate CommittedFor(log: seq<Output>, i: nat, id: Id)
    requires i < |log| && log[i].Committed?
  {
    i == |log| - 1 && log[i].qc.blockId == id
  }

  /**
   A vote that comes after a commit is for a block whose parent is above the committed one. At views up
   to 2 parents are not looked at: then the vote is for the block whose waiting certificate just committed.
   */
  ghost predicate VotesRespectCommits(log: seq<Output>) {
    forall i, j :: 0 <= i < j < |log| && log[i].Committed? && log[j].Voted? ==>
      if log[j].block.view > 2 then ParentAbove(log[j], log[i].block.view) else CommittedFor(log[..j], i, log[j].block.id)
  }

  ghost predicate LocksGrow(log: seq<Output>) {
    forall i, j :: 0 <= i < j < |log| && log[i].Voted? && log[j].Voted? ==> log[i].preferred <= log[j].preferred
  }

  /** The view of the block that was committed last. */
  ghost function LastCommitted(log: seq<Output>): View {
    if log == [] then 0
    else if log[|log| - 1].Committed? then log[|log| - 1].block.view
    else LastCommitted(log[..|log| - 1])
  }

  /** A commit took the stored ancestors of its block, down to the block that was committed before. */
  ghost predicate PathsFit(log: seq<Output>) {
    forall i :: 0 <= i < |log| && log[i].Committed? ==>
      && LastCommitted(log[..i]) <= log[i].block.view
      && log[i].path == CommitPath(log[i].full, LastCommitted(log[..i]), log[i].block)
  }

  lemma {:induction false} PathsFitAppend(log: seq<Output>, o: Output)
    requires PathsFit(log)
    requires o.Committed? ==> LastCommitted(log) <= o.block.view && o.path == CommitPath(o.full, LastCommitted(log), o.block)
    ensures PathsFit(log + [o]) && LastCommitted(log + [o]) == if o.Committed? then o.block.view else LastCommitted(log)
  {
    hide CommitPath;
    var all := log + [o];
    assert all[..|log|] == log && all[|log|] == o;
    forall i | 0 <= i < |log|
      ensures all[i] == log[i] && all[..i] == log[..i]
    {
    }
  }

  ghost predicate LogFits(r: Replica) {
    && PathsFit(r.log) && r.forest.lowest == LastCommitted(r.log)
    && CommitsBelow(r.log, r) && VotesBelow(r.log, r.preferredView)
    && VotesRespectCommits(r.log) && LocksGrow(r.log)
  }

  ghost predicate BuffersFit(r: Replica) {
    (forall id :: id in r.bufferedQCs ==> r.bufferedQCs[id].blockId == id) && Aligned(r.bufferedBlocks)
  }

  ghost predicate Inv(r: Replica) {
    && Placed(r.forest)
    && BuffersFit(r)
    && r.lastVotedView == 0
    && (r.forest.lowest == 0 || (r.forest.lowest < r.preferredView && r.forest.lowest + 3 <= r.curView))
    && LogFits(r)
  }

  ghost predicate Keeps(a: Replica, b: Replica) {
    Inv(b) && b.bufferedBlocks == a.bufferedBlocks
  }

  // ----- Certificates

  lemma {:induction false} LockKeeps(r: Replica, qc: QC, preferred: View)
    requires Inv(r) && preferred >= r.preferredView && qc.view >= r.curView
    ensures Keeps(r, Locked(r, qc, preferred)) && Locked(r, qc, preferred).log == r.log
    ensures Locked(r, qc, preferred).forest == r.forest && Locked(r, qc, preferred).curView == qc.view + 1
    ensures Locked(r, qc, preferred).preferredView == preferred
  {
  }

  lemma {:induction false} CommitKeeps(r: Replica, qc: QC, b: Block)
    requires Inv(r) && b.view < r.preferredView && r.curView >= 4 && b.view + 3 <= r.curView
    requires qc.view >= 3 && CommitRule(r.forest.full, qc) == Some(b)
    ensures Keeps(r, Commit(r, qc, b))
  {
    hide CommitRule, CommitPath, IdsOf, PathsFit, LastCommitted;
    if b.view >= r.forest.lowest {
      var c := Commit(r, qc, b);
      PathsFitAppend(r.log, Committed(b, CommitPath(r.forest.full, r.forest.lowest, b), qc, r.forest.full));
      assert c.log[..|r.log|] == r.log;
    }
  }

  lemma {:induction false} CommitRuleViews(full: Blocks, qc: QC)
    requires CommitRule(full, qc).Some?
    ensures ParentOf(full, qc.blockId).Some?
    ensures CommitRule(full, qc).value.view + 1 == ParentOf(full, qc.blockId).value.view
    ensures ParentOf(full, qc.blockId).value.view + 1 == qc.view
  {
  }

  lemma {:induction false} CertificateKeeps(env: Env, r: Replica, qc: QC)
    requires Inv(r)
    ensures Keeps(r, ProcessCertificate(env, r, qc))
  {
    hide Locked, Commit, CommitRule, Inv;
    if qc.view >= r.curView && Passes(env, qc) {
      match UpdatePreferred(r.forest.full, r.preferredView, qc)
      case None => BufferQCKeeps(r, qc);
      case Some(preferred) =>
        LockKeeps(r, qc, preferred);
        var l := Locked(r, qc, preferred);
        if qc.view >= 3 && CommitRule(l.forest.full, qc).Some? {
          CommitRuleViews(l.forest.full, qc);
          CommitKeeps(l, qc, CommitRule(l.forest.full, qc).value);
        }
    }
  }

  lemma {:induction false} BufferQCKeeps(r: Replica, qc: QC)
    requires Inv(r)
    ensures Keeps(r, BufferQC(r, qc))
  {
  }

  // ----- Votes

  lemma {:induction false} ProcessVoteKeeps(env: Env, r: Replica, vote: Vote)
    requires Inv(r)
    ensures Keeps(r, ProcessVote(env, r, vote))
  {
    hide ProcessCertificate;
    var (votes, built) := AddVote(env.n, r.votes, vote);
    var counted := r.(votes := votes);
    VotesAside(r, votes);
    if built.Some? {
      hide Inv;
      var qc := built.value.(leader := env.me);
      BufferQCKeeps(counted, qc);
      CertificateKeeps(env, counted, qc);
    }
  }

  lemma {:induction false} VotesAside(r: Replica, votes: Votes)
    requires Inv(r)
    ensures Keeps(r, r.(votes := votes))
  {
  }

  /** What may have been committed before a vote for a block of view 2 or less. */
  ghost predicate OnlyCommittedFor(log: seq<Output>, id: Id) {
    forall i :: 0 <= i < |log| && log[i].Committed? ==> CommittedFor(log, i, id)
  }

  /** A vote within the rule keeps the log in order. */
  lemma {:induction false} VoteKeeps(env: Env, r: Replica, b: Block)
    requires Inv(r) && VotingRule(r.forest.full, 0, r.preferredView, b) == Some(true)
    requires b.view <= 2 ==> OnlyCommittedFor(r.log, b.id)
    ensures Keeps(r, CastVote(env, r, b))
  {
    hide ProcessVote;
    var cast := r.(log := r.log + [Voted(b, r.preferredView, r.forest.full)]);
    LoggedVoteKeeps(r, b);
    ProcessVoteKeeps(env, cast, OwnVote(env, b));
  }

  lemma {:induction false} LoggedVoteKeeps(r: Replica, b: Block)
    requires Inv(r) && VotingRule(r.forest.full, 0, r.preferredView, b) == Some(true)
    requires b.view <= 2 ==> OnlyCommittedFor(r.log, b.id)
    ensures Keeps(r, r.(log := r.log + [Voted(b, r.preferredView, r.forest.full)]))
  {
    hide PathsFit, LastCommitted;
    var cast := r.(log := r.log + [Voted(b, r.preferredView, r.forest.full)]);
    PathsFitAppend(r.log, Voted(b, r.preferredView, r.forest.full));
    assert cast.log[..|r.log|] == r.log;
    assert forall i :: 0 <= i < |r.log| ==> cast.log[i] == r.log[i];
  }

  // ----- Blocks

  lemma {:induction false} FilingKeeps(r: Replica, b: Block)
    requires Inv(r) && b.qc.Some?
    ensures Keeps(r, r.(forest := WithVertex(r.forest, b)))
  {
  }

  lemma {:induction false} UnbufferKeeps(r: Replica, id: Id)
    requires Inv(r)
    ensures Keeps(r, r.(bufferedQCs := r.bufferedQCs - {id}))
  {
  }

  /** A certificate adds at most one output to the log, the commit that it makes. */
  ghost predicate CommitsBy(a: Replica, b: Replica, id: Id) {
    || b.log == a.log
    || (|b.log| == |a.log| + 1 && b.log[..|a.log|] == a.log && b.log[|a.log|].Committed? && b.log[|a.log|].qc.blockId == id)
  }

  lemma {:induction false} CertificateCommits(env: Env, r: Replica, qc: QC)
    ensures CommitsBy(r, ProcessCertificate(env, r, qc), qc.blockId)
  {
    hide UpdatePreferred, CommitRule, CommitPath, Pruned, IdsOf;
  }

  lemma {:induction false} AddBlockKeeps(env: Env, r: Replica, b: Block)
    requires Inv(r) && b.qc.Some?
    ensures Keeps(r, AddBlock(env, r, b)) && CommitsBy(r, AddBlock(env, r, b), b.id)
  {
    hide ProcessCertificate, WithVertex, LogFits;
    var added := r.(forest := WithVertex(r.forest, b));
    FilingKeeps(r, b);
    if b.id in added.bufferedQCs {
      var qc := added.bufferedQCs[b.id];
      CertificateKeeps(env, added, qc);
      CertificateCommits(env, added, qc);
      UnbufferKeeps(ProcessCertificate(env, added, qc), b.id);
    }
  }

  lemma {:induction false} FollowKeeps(env: Env, r: Replica, b: Block)
    requires Inv(r) && b.qc.Some?
    ensures Keeps(r, FollowQC(env, r, b))
  {
    hide ProcessCertificate;
    var high := WithHighQC(r, b.qc.value);
    HighQCKeeps(r, b.qc.value);
    CertificateKeeps(env, high, b.qc.value);
  }

  lemma {:induction false} HighQCKeeps(r: Replica, qc: QC)
    requires Inv(r)
    ensures Keeps(r, WithHighQC(r, qc))
  {
  }

  lemma {:induction false} HandleKeeps(env: Env, r: Replica, b: Block)
    requires Inv(r)
    ensures Inv(HandleBlock(env, r, b).0)
  {
    hide FollowQC, AddBlock, CastVote, LogFits, Placed, BuffersFit, VotingRule;
    if b.view > r.curView + 1 {
      EarlyKeeps(r, b);
    } else if b.qc.Some? {
      FollowKeeps(env, r, b);
      var f := FollowQC(env, r, b);
      if b.view >= f.curView && env.isLeader(b.proposer, b.view) {
        JudgeKeeps(env, f, b);
      }
    }
  }

  lemma {:induction false} EarlyKeeps(r: Replica, b: Block)
    requires Inv(r) && b.view > 0
    ensures Inv(r.(bufferedBlocks := r.bufferedBlocks[b.view - 1 := b]))
  {
  }

  /** The vote is judged after the block is filed. */
  lemma {:induction false} JudgeKeeps(env: Env, f: Replica, b: Block)
    requires Inv(f) && b.qc.Some? && b.view >= f.curView
    ensures var a := AddBlock(env, f, b);
            && Keeps(f, a) && a.lastVotedView == 0
            && (VotingRule(a.forest.full, 0, a.preferredView, b) == Some(true) ==> Keeps(f, CastVote(env, a, b)))
  {
    hide AddBlock, CastVote, VotingRule, VotesRespectCommits, VotesBelow, LocksGrow;
    AddBlockKeeps(env, f, b);
    var a := AddBlock(env, f, b);
    if VotingRule(a.forest.full, 0, a.preferredView, b) == Some(true) {
      assert b.view <= 2 ==> OnlyCommittedFor(a.log, b.id);
      VoteKeeps(env, a, b);
    }
  }

  lemma {:induction false} ProcessBlockKeeps(env: Env, r: Replica, b: Block)
    requires Inv(r)
    ensures Inv(ProcessBlock(env, r, b))
    decreases KeysFrom(r.bufferedBlocks, b.view)
  {
    hide HandleBlock, LogFits;
    HandleKeeps(env, r, b);
    var (h, verdict) := HandleBlock(env, r, b);
    if verdict == Accepted && b.view in h.bufferedBlocks {
      BufferedBlocksDescend(env, r, b);
      ProcessBlockKeeps(env, h, h.bufferedBlocks[b.view]);
      UnbufferBlockKeeps(ProcessBlock(env, h, h.bufferedBlocks[b.view]), b.view);
    }
  }

  lemma {:induction false} UnbufferBlockKeeps(r: Replica, v: View)
    requires Inv(r)
    ensures Inv(r.(bufferedBlocks := r.bufferedBlocks - {v}))
  {
  }

  // ----- Timeouts

  lemma {:induction false} AdvanceKeeps(r: Replica, view: View)
    requires Inv(r)
    ensures Keeps(r, AdvanceView(r, view))
  {
  }

  lemma {:induction false} RemoteTmoKeeps(env: Env, r: Replica, t: Timeout)
    requires Inv(r)
    ensures Keeps(r, ProcessRemoteTmo(env, r, t))
  {
    hide ProcessCertificate, AdvanceView, AddTimeout;
    CertificateKeeps(env, r, t.highQC);
    var c := ProcessCertificate(env, r, t.highQC);
    var timeouts := AddTimeout(env.n, c.timeouts, t).0;
    TimeoutsAside(c, timeouts);
    AdvanceKeeps(c.(timeouts := timeouts), t.view);
  }

  lemma {:induction false} TimeoutsAside(r: Replica, timeouts: map<View, set<NodeId>>)
    requires Inv(r)
    ensures Keeps(r, r.(timeouts := timeouts))
  {
  }

  lemma {:induction false} LocalTmoKeeps(env: Env, r: Replica, view: View)
    requires Inv(r)
    ensures Keeps(r, ProcessLocalTmo(env, r, view))
  {
    hide ProcessRemoteTmo, AdvanceView, Inv;
    AdvanceKeeps(r, view);
    var a := AdvanceView(r, view);
    RemoteTmoKeeps(env, a, Timeout(view + 1, env.me, a.highQC));
  }

  // ----- Runs

  datatype Event = BlockArrives(block: Block) | VoteArrives(vote: Vote) | TmoArrives(tmo: Timeout) | TimerFires(view: View)

  function Next(env: Env, r: Replica, e: Event): Replica
    requires Aligned(r.bufferedBlocks)
  {
    match e
    case BlockArrives(b) => ProcessBlock(env, r, b)
    case VoteArrives(v) => ProcessVote(env, r, v)
    case TmoArrives(t) => ProcessRemoteTmo(env, r, t)
    case TimerFires(view) => ProcessLocalTmo(env, r, view)
  }

  /** The replica after these events, the last one last. */
  function Run(env: Env, es: seq<Event>): (r: Replica)
    ensures Aligned(r.bufferedBlocks)
  {
    if es == [] then NEW_REPLICA
    else
      var r := Run(env, es[..|es| - 1]);
      NextAligned(env, r, es[|es| - 1]);
      Next(env, r, es[|es| - 1])
  }

  lemma {:induction false} RunStep(env: Env, es: seq<Event>, e: Event)
    ensures Run(env, es + [e]) == Next(env, Run(env, es), e)
  {
    assert (es + [e])[..|es|] == es;
  }

  lemma {:induction false} BlockAligned(env: Env, r: Replica, b: Block)
    requires Aligned(r.bufferedBlocks)
    ensures Aligned(ProcessBlock(env, r, b).bufferedBlocks)
    decreases KeysFrom(r.bufferedBlocks, b.view)
  {
    HandlingKeepsBuffer(env, r, b);
    var (h, verdict) := HandleBlock(env, r, b);
    hide FollowQC, AddBlock, CastVote, VotingRule;
    if verdict == Accepted && b.view in h.bufferedBlocks {
      hide HandleBlock;
      BufferedBlocksDescend(env, r, b);
      BlockAligned(env, h, h.bufferedBlocks[b.view]);
    }
  }

  lemma {:induction false} NextAligned(env: Env, r: Replica, e: Event)
    requires Aligned(r.bufferedBlocks)
    ensures Aligned(Next(env, r, e).bufferedBlocks)
  {
    hide ProcessBlock, ProcessVote, ProcessCertificate;
    match e
    case BlockArrives(b) => BlockAligned(env, r, b);
    case VoteArrives(v) => CountingKeepsBuffer(env, r, v);
    case TmoArrives(t) => CertificateKeepsBuffer(env, r, t.highQC);
    case TimerFires(view) =>
      var a := AdvanceView(r, view);
      CertificateKeepsBuffer(env, a, a.highQC);
  }

  lemma {:induction false} NextKeeps(env: Env, r: Replica, e: Event)
    requires Inv(r)
    ensures Inv(Next(env, r, e))
  {
    hide ProcessBlock, ProcessVote, ProcessRemoteTmo, ProcessLocalTmo, LogFits;
    match e
    case BlockArrives(b) => ProcessBlockKeeps(env, r, b);
    case VoteArrives(v) => ProcessVoteKeeps(env, r, v);
    case TmoArrives(t) => RemoteTmoKeeps(env, r, t);
    case TimerFires(view) => LocalTmoKeeps(env, r, view);
  }

  lemma {:induction false} RunKeeps(env: Env, es: seq<Event>)
    ensures Inv(Run(env, es))
    decreases |es|
  {
    if es != [] {
      hide Next;
      RunKeeps(env, es[..|es| - 1]);
      NextKeeps(env, Run(env, es[..|es| - 1]), es[|es| - 1]);
    }
  }

  /**
   Over every run, whatever arrives: the lowest level is 0 or below the preferred view, and after a commit
   every vote above view 2 is for a block whose parent is above the committed block.
   */
  lemma {:induction false} RunLocked(env: Env, es: seq<Event>)
    ensures var r := Run(env, es);
            && (r.forest.lowest == 0 || (r.forest.lowest < r.preferredView && r.forest.lowest + 3 <= r.curView))
            && VotesRespectCommits(r.log) && LocksGrow(r.log) && VotesBelow(r.log, r.preferredView) && CommitsBelow(r.log, r)
            && PathsFit(r.log) && r.forest.lowest == LastCommitted(r.log)
  {
    RunKeeps(env, es);
  }

  // ----- What only grows, whatever arrives

  /** Views, the lowest level and the log only grow. */
  ghost predicate Grows(a: Replica, b: Replica) {
    && a.curView <= b.curView && a.preferredView <= b.preferredView && a.highQC.view <= b.highQC.view
    && a.forest.lowest <= b.forest.lowest && a.log <= b.log
  }

  lemma {:induction false} CommitGrows(r: Replica, qc: QC)
    ensures Grows(r, CommitBy(r, qc))
  {
    hide CommitRule, CommitPath, IdsOf;
  }

  lemma {:induction false} CertificateGrows(env: Env, r: Replica, qc: QC)
    ensures Grows(r, ProcessCertificate(env, r, qc))
  {
    hide CommitBy;
    var preferred := UpdatePreferred(r.forest.full, r.preferredView, qc);
    if preferred.Some? && qc.view >= r.curView {
      CommitGrows(Locked(r, qc, preferred.value), qc);
    }
  }

  lemma {:induction false} VoteGrows(env: Env, r: Replica, vote: Vote)
    ensures Grows(r, ProcessVote(env, r, vote))
  {
    hide ProcessCertificate;
    var (votes, built) := AddVote(env.n, r.votes, vote);
    if built.Some? {
      CertificateGrows(env, r.(votes := votes), built.value.(leader := env.me));
    }
  }

  lemma {:induction false} CastVoteGrows(env: Env, r: Replica, b: Block)
    ensures Grows(r, CastVote(env, r, b))
  {
    hide ProcessVote;
    VoteGrows(env, r.(log := r.log + [Voted(b, r.preferredView, r.forest.full)]), OwnVote(env, b));
  }

  lemma {:induction false} AddBlockGrows(env: Env, r: Replica, b: Block)
    requires b.qc.Some?
    ensures Grows(r, AddBlock(env, r, b))
  {
    hide ProcessCertificate;
    var added := r.(forest := WithVertex(r.forest, b));
    if b.id in added.bufferedQCs {
      CertificateGrows(env, added, added.bufferedQCs[b.id]);
    }
  }

  lemma {:induction false} HandleGrows(env: Env, r: Replica, b: Block)
    ensures Grows(r, HandleBlock(env, r, b).0)
  {
    hide ProcessCertificate, AddBlock, CastVote, VotingRule;
    if b.view <= r.curView + 1 && b.qc.Some? {
      CertificateGrows(env, WithHighQC(r, b.qc.value), b.qc.value);
      var f := FollowQC(env, r, b);
      AddBlockGrows(env, f, b);
      CastVoteGrows(env, AddBlock(env, f, b), b);
    }
  }

  lemma {:induction false} ProcessBlockGrows(env: Env, r: Replica, b: Block)
    requires Aligned(r.bufferedBlocks)
    ensures Grows(r, ProcessBlock(env, r, b))
    decreases KeysFrom(r.bufferedBlocks, b.view)
  {
    hide HandleBlock;
    HandleGrows(env, r, b);
    var (h, verdict) := HandleBlock(env, r, b);
    if verdict == Accepted && b.view in h.bufferedBlocks {
      BufferedBlocksDescend(env, r, b);
      ProcessBlockGrows(env, h, h.bufferedBlocks[b.view]);
    }
  }

  lemma {:induction false} TmoGrows(env: Env, r: Replica, t: Timeout)
    ensures Grows(r, ProcessRemoteTmo(env, r, t))
  {
    hide ProcessCertificate, AddTimeout;
    CertificateGrows(env, r, t.highQC);
  }

  lemma {:induction false} NextGrows(env: Env, r: Replica, e: Event)
    requires Aligned(r.bufferedBlocks)
    ensures Grows(r, Next(env, r, e))
  {
    hide ProcessBlock, ProcessVote, ProcessRemoteTmo;
    match e
    case BlockArrives(b) => ProcessBlockGrows(env, r, b);
    case VoteArrives(v) => VoteGrows(env, r, v);
    case TmoArrives(t) => TmoGrows(env, r, t);
    case TimerFires(view) =>
      var a := AdvanceView(r, view);
      TmoGrows(env, a, Timeout(view + 1, env.me, a.highQC));
  }

  /** Over every run the current, preferred and highest certified views and the lowest level never decrease. */
  lemma {:induction false} RunGrows(env: Env, es: seq<Event>, k: nat)
    requires k <= |es|
    ensures Grows(Run(env, es[..k]), Run(env, es))
    decreases |es|
  {
    hide Next;
    if k < |es| {
      var before := es[..|es| - 1];
      assert before[..k] == es[..k];
      RunGrows(env, before, k);
      NextGrows(env, Run(env, before), es[|es| - 1]);
    } else {
      assert es[..k] == es;
    }
  }

  // ----- When a replica commits

  /** Three stored blocks, each the parent of the next; the certificate is for the last one. */
  ghost predicate InLine(full: Blocks, qc: QC, b0: Block, b1: Block, b2: Block) {
    && qc.blockId in full && full[qc.blockId] == b2 && b2.prevId in full && full[b2.prevId] == b1
    && b1.id in full && full[b1.id].prevId in full && full[full[b1.id].prevId] == b0
  }

  ghost predicate Consecutive(b0: Block, b1: Block, b2: Block) {
    b1.view == b0.view + 1 && b2.view == b0.view + 2
  }

  /** What the commit rule asks of the views: of the last block it takes the view that the certificate states. */
  ghost predicate SeemConsecutive(qc: QC, b0: Block, b1: Block) {
    b1.view == b0.view + 1 && qc.view == b0.view + 2
  }

  /** When processing a certificate commits, in terms of what is known before. */
  ghost predicate Commits(env: Env, r: Replica, qc: QC) {
    && qc.view >= r.curView && qc.view >= 3 && Passes(env, qc)
    && exists b0, b1, b2 :: InLine(r.forest.full, qc, b0, b1, b2) && SeemConsecutive(qc, b0, b1) && b0.view >= r.forest.lowest
  }

  /** A certificate commits exactly when it is current, passes, and is for the last of three blocks that seem consecutive. */
  lemma {:induction false} CommitsIff(env: Env, r: Replica, qc: QC)
    ensures ProcessCertificate(env, r, qc).log != r.log <==> Commits(env, r, qc)
    ensures forall b0, b1, b2 ::
              InLine(r.forest.full, qc, b0, b1, b2) && Commits(env, r, qc) ==>
                var (q, path) := (ProcessCertificate(env, r, qc), CommitPath(r.forest.full, r.forest.lowest, b0));
                && SeemConsecutive(qc, b0, b1) && q.forest == Pruned(r.forest, b0.view) && q.votes == r.votes - IdsOf(path)
                && q.log == r.log + [Committed(b0, path, qc, r.forest.full)]
    ensures !Commits(env, r, qc) ==>
              ProcessCertificate(env, r, qc).forest == r.forest && ProcessCertificate(env, r, qc).votes == r.votes
  {
    hide CommitPath, Pruned, IdsOf, InLine, CommitRule, UpdatePreferred, ProcessCertificate, Passes;
    var full := r.forest.full;
    CommitsByRule(env, r, qc);
    forall b0, b1, b2 | InLine(full, qc, b0, b1, b2)
      ensures CommitRule(full, qc) == if SeemConsecutive(qc, b0, b1) then Some(b0) else None
      ensures UpdatePreferred(full, r.preferredView, qc).Some?
    {
      LineCommits(full, qc, b0, b1, b2, r.preferredView);
    }
    if CommitRule(full, qc).Some? {
      var b1, b2 := RuleIsLine(full, qc);
      assert InLine(full, qc, CommitRule(full, qc).value, b1, b2);
    }
  }

  lemma {:induction false} CommitsByRule(env: Env, r: Replica, qc: QC)
    ensures var (q, rule) := (ProcessCertificate(env, r, qc), CommitRule(r.forest.full, qc));
            if && qc.view >= r.curView && qc.view >= 3 && Passes(env, qc) && rule.Some? && rule.value.view >= r.forest.lowest
               && UpdatePreferred(r.forest.full, r.preferredView, qc).Some?
            then
              var path := CommitPath(r.forest.full, r.forest.lowest, rule.value);
              && q.forest == Pruned(r.forest, rule.value.view) && q.votes == r.votes - IdsOf(path)
              && q.log == r.log + [Committed(rule.value, path, qc, r.forest.full)] != r.log
            else q.log == r.log && q.forest == r.forest && q.votes == r.votes
  {
    hide CommitPath, Pruned, IdsOf, CommitRule, UpdatePreferred, Passes;
  }

  lemma {:induction false} LineCommits(full: Blocks, qc: QC, b0: Block, b1: Block, b2: Block, preferred: View)
    requires InLine(full, qc, b0, b1, b2)
    ensures CommitRule(full, qc) == if SeemConsecutive(qc, b0, b1) then Some(b0) else None
    ensures UpdatePreferred(full, preferred, qc).Some?
  {
  }

  lemma {:induction false} RuleIsLine(full: Blocks, qc: QC) returns (b1: Block, b2: Block)
    requires CommitRule(full, qc).Some?
    ensures InLine(full, qc, CommitRule(full, qc).value, b1, b2) && SeemConsecutive(qc, CommitRule(full, qc).value, b1)
  {
    b2 := full[qc.blockId];
    b1 := full[b2.prevId];
  }

  /** The blocks of a commit are consecutive if, and only if, the certificate states the view of the block that it is for. */
  lemma {:induction false} ConsecutiveIff(env: Env, r: Replica, qc: QC, b0: Block, b1: Block, b2: Block)
    requires Commits(env, r, qc) && InLine(r.forest.full, qc, b0, b1, b2)
    ensures Consecutive(b0, b1, b2) <==> qc.view == b2.view
  {
    CommitsIff(env, r, qc);
  }
}
