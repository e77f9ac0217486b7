/**
 When a replica votes, and with which lock, in terms of what it knows before it handles the block
 (hotstuff/hotstuff.go), for every block and every state. A certificate in a block that is older than the
 current view is skipped, so a vote may be cast before that certificate was applied to the preferred view.
 */
module ReplicaAccept {
  import opened Prelude
  import opened Chain
  import opened Replicas
  import opened ReplicaSafety

  /** A certificate that a replica acts on: not older than its view, and built here or verified. */
  ghost predicate Current(env: Env, view: View, qc: QC) {
    qc.view >= view && Passes(env, qc)
  }

  // ----- What a certificate changes

  function Raised(preferred: View, parent: Option<Block>): View {
    if parent.Some? && parent.value.view > preferred then parent.value.view else preferred
  }

  function Higher(a: QC, b: QC): QC {
    if b.view > a.view then b else a
  }

  /** The level below which a current certificate prunes. */
  ghost function Cut(f: Forest, qc: QC): View {
    match CommitRule(f.full, qc)
    case None => f.lowest
    case Some(b) => if qc.view >= 3 && b.view >= f.lowest then b.view else f.lowest
  }

  lemma {:induction false} CommitEffect(r: Replica, qc: QC)
    requires Placed(r.forest) && qc.view >= 3
    ensures var c := CommitBy(r, qc);
            && c.preferredView == r.preferredView && c.curView == r.curView && c.bufferedQCs == r.bufferedQCs
            && c.lastVotedView == r.lastVotedView && c.forest == Pruned(r.forest, Cut(r.forest, qc)) && c.highQC == r.highQC
  {
    hide CommitRule, CommitPath, IdsOf, Pruned, Placed;
    PrunedAtLowest(r.forest);
  }

  lemma {:induction false} CertificateEffect(env: Env, r: Replica, qc: QC)
    requires Placed(r.forest)
    ensures var (q, parent) := (ProcessCertificate(env, r, qc), ParentOf(r.forest.full, qc.blockId));
            var current := Current(env, r.curView, qc);
            && q.preferredView == (if current && qc.view > 2 then Raised(r.preferredView, parent) else r.preferredView)
            && q.curView == (if current && (qc.view <= 2 || parent.Some?) then qc.view + 1 else r.curView)
            && q.bufferedQCs == (if current && qc.view > 2 && parent.None? then r.bufferedQCs[qc.blockId := qc]
                                 else r.bufferedQCs)
            && q.forest == (if current then Pruned(r.forest, Cut(r.forest, qc)) else r.forest)
            && q.highQC == (if current && (qc.view <= 2 || parent.Some?) then Higher(r.highQC, qc) else r.highQC)
            && q.lastVotedView == r.lastVotedView
  {
    NothingCut(r.forest, qc);
    hide CommitBy, ParentOf, Pruned, Placed, Cut, Passes;
    PrunedAtLowest(r.forest);
    var preferred := UpdatePreferred(r.forest.full, r.preferredView, qc);
    if preferred.Some? && qc.view >= 3 {
      CommitEffect(Locked(r, qc, preferred.value), qc);
    }
  }

  lemma {:induction false} NothingCut(f: Forest, qc: QC)
    ensures qc.view <= 2 || ParentOf(f.full, qc.blockId).None? ==> Cut(f, qc) == f.lowest
  {
  }

  // ----- The state in which a vote is judged

  /** The certificate in the block is applied before the block is judged. */
  ghost predicate Followed(env: Env, r: Replica, b: Block)
    requires b.qc.Some?
  {
    b.proposer != env.me && Current(env, r.curView, b.qc.value)
  }

  /** The block with the certificate is stored, and so is its parent. */
  ghost predicate Resolved(r: Replica, qc: QC) {
    ParentOf(r.forest.full, qc.blockId).Some?
  }

  /** The current view when the block is judged. */
  ghost function ViewThen(env: Env, r: Replica, b: Block): View
    requires b.qc.Some?
  {
    var qc := b.qc.value;
    if Followed(env, r, b) && (qc.view <= 2 || Resolved(r, qc)) then qc.view + 1 else r.curView
  }

  /** The forest with the block in it. */
  ghost function Filed(env: Env, r: Replica, b: Block): Forest
    requires b.qc.Some?
  {
    WithVertex(if Followed(env, r, b) then Pruned(r.forest, Cut(r.forest, b.qc.value)) else r.forest, b)
  }

  /** The certificate that waits for the block; it may have come with it. */
  ghost function Waiting(env: Env, r: Replica, b: Block): Option<QC>
    requires b.qc.Some?
  {
    var qc := b.qc.value;
    if Followed(env, r, b) && qc.view > 2 && !Resolved(r, qc) && qc.blockId == b.id then Some(qc)
    else if b.id in r.bufferedQCs then Some(r.bufferedQCs[b.id])
    else None
  }

  /** A certificate waits for the block, and is applied when the block is filed. */
  ghost predicate Applied(env: Env, r: Replica, b: Block)
    requires b.qc.Some?
  {
    Waiting(env, r, b).Some? && Current(env, ViewThen(env, r, b), Waiting(env, r, b).value)
  }

  /** The forest that is left when the block is judged. */
  ghost function Left(env: Env, r: Replica, b: Block): Forest
    requires b.qc.Some?
  {
    var f := Filed(env, r, b);
    if Applied(env, r, b) then Pruned(f, Cut(f, Waiting(env, r, b).value)) else f
  }

  /** The preferred view once the certificate in the block was followed. */
  ghost function LockFollowed(env: Env, r: Replica, b: Block): View
    requires b.qc.Some?
  {
    var qc := b.qc.value;
    if Followed(env, r, b) && qc.view > 2 then Raised(r.preferredView, ParentOf(r.forest.full, qc.blockId))
    else r.preferredView
  }

  /** The preferred view when the block is judged. */
  ghost function LockThen(env: Env, r: Replica, b: Block): View
    requires b.qc.Some?
  {
    var lock := LockFollowed(env, r, b);
    if Applied(env, r, b) && Waiting(env, r, b).value.view > 2 then Raised(lock, ParentOf(Filed(env, r, b).full, b.id))
    else lock
  }

  /** The waiting certificate takes effect: the parent of the block is stored, or not needed. */
  ghost predicate TakesEffect(env: Env, r: Replica, b: Block)
    requires b.qc.Some?
  {
    Applied(env, r, b) && (Waiting(env, r, b).value.view <= 2 || ParentOf(Filed(env, r, b).full, b.id).Some?)
  }

  /** The current view and the highest certificate once the block is filed. */
  ghost function EntersThen(env: Env, r: Replica, b: Block): View
    requires b.qc.Some?
  {
    if TakesEffect(env, r, b) then Waiting(env, r, b).value.view + 1 else ViewThen(env, r, b)
  }

  ghost function HighThen(env: Env, r: Replica, b: Block): QC
    requires b.qc.Some?
  {
    var high := Higher(r.highQC, b.qc.value);
    if TakesEffect(env, r, b) then Higher(high, Waiting(env, r, b).value) else high
  }

  lemma {:induction false} FollowEffect(env: Env, r: Replica, b: Block)
    requires Inv(r) && b.qc.Some?
    ensures var f := FollowQC(env, r, b);
            && f.preferredView == LockFollowed(env, r, b) && f.curView == ViewThen(env, r, b) && f.lastVotedView == 0
            && WithVertex(f.forest, b) == Filed(env, r, b) && f.highQC == Higher(r.highQC, b.qc.value)
            && (if b.id in f.bufferedQCs then Some(f.bufferedQCs[b.id]) else None) == Waiting(env, r, b)
  {
    hide ProcessCertificate, ParentOf, WithVertex, Pruned, Cut, LogFits, Passes, Raised;
    CertificateEffect(env, WithHighQC(r, b.qc.value), b.qc.value);
  }

  /** The state in which the vote for a block is judged. */
  function Judged(env: Env, r: Replica, b: Block): Replica
    requires b.qc.Some?
  {
    AddBlock(env, FollowQC(env, r, b), b)
  }

  lemma {:induction false} JudgedState(env: Env, r: Replica, b: Block)
    requires Inv(r) && b.qc.Some?
    ensures var a := Judged(env, r, b);
            && a.forest == Left(env, r, b) && a.preferredView == LockThen(env, r, b) && a.lastVotedView == 0
            && a.curView == EntersThen(env, r, b) && a.highQC == HighThen(env, r, b) && b.id !in a.bufferedQCs
  {
    hide FollowQC, ProcessCertificate, WithVertex, LogFits, Cut, Pruned, ParentOf;
    hide Followed, Waiting, Filed, LockFollowed, ViewThen;
    FollowEffect(env, r, b);
    FollowKeeps(env, r, b);
    var f := FollowQC(env, r, b);
    FilingKeeps(f, b);
    if b.id in f.bufferedQCs {
      CertificateEffect(env, f.(forest := WithVertex(f.forest, b)), f.bufferedQCs[b.id]);
    }
  }

  // ----- When a block gets a vote

  /** What a block must meet to be voted for. Earlier votes play no part in it. */
  ghost predicate Votable(env: Env, r: Replica, b: Block) {
    && b.qc.Some? && ViewThen(env, r, b) <= b.view <= r.curView + 1 && env.isLeader(b.proposer, b.view)
    && (b.view <= 2 || (var parent := ParentOf(Left(env, r, b).full, b.id);
                        parent.Some? && parent.value.view >= LockThen(env, r, b)))
  }

  /** A block gets a vote if, and only if, it is votable before it is handled. */
  lemma {:induction false} AcceptedIff(env: Env, r: Replica, b: Block)
    requires Inv(r)
    ensures HandleBlock(env, r, b).1 == Accepted <==> Votable(env, r, b)
  {
    hide FollowQC, AddBlock, CastVote, LogFits, ViewThen, Left, LockThen, ParentOf;
    if b.qc.Some? {
      assert FollowQC(env, r, b).curView == ViewThen(env, r, b) by { FollowEffect(env, r, b); }
      JudgedState(env, r, b);
    }
  }

  // ----- With which lock

  /** The certificate in the block voted for was applied to the lock. */
  ghost predicate LockApplied(v: Output)
    requires v.Voted?
  {
    v.block.qc.Some? && UpdatePreferred(v.full, v.preferred, v.block.qc.value) == Some(v.preferred)
  }

  /** What must be known before a votable block arrives for its certificate to be applied to the lock. */
  ghost predicate LockKnown(env: Env, r: Replica, b: Block)
    requires b.qc.Some?
  {
    || b.qc.value.view <= 2
    || var locked := ParentOf(Left(env, r, b).full, b.qc.value.blockId);
       locked.Some? && locked.value.view <= LockThen(env, r, b)
  }

  /** The vote for a block rests on an applied certificate if, and only if, this was known before. */
  lemma {:induction false} LockAppliedIff(env: Env, r: Replica, b: Block)
    requires Inv(r) && b.qc.Some?
    ensures var a := Judged(env, r, b);
            LockApplied(Voted(b, a.preferredView, a.forest.full)) <==> LockKnown(env, r, b)
  {
    hide Judged, LogFits, Left, LockThen, ParentOf;
    JudgedState(env, r, b);
  }

  // ----- Blocks as leaders build them

  /** The certificate of a block is for its parent, and its views belong to the ids. */
  ghost predicate WellBuilt(levelOf: Id -> View, b: Block) {
    LevelConsistent(levelOf, b) && b.qc.value.blockId == b.prevId
  }

  /** No other block of that id is stored. */
  ghost predicate Fits(full: Blocks, b: Block) {
    b.id in full ==> full[b.id] == b
  }

  /** The parent of a block, and its parent, are stored in both or in neither. */
  ghost predicate SameParents(f: Forest, g: Forest, b: Block) {
    && (b.prevId in f.full <==> b.prevId in g.full)
    && (b.prevId in f.full ==>
          f.full[b.prevId] == g.full[b.prevId] && ParentOf(f.full, b.prevId) == ParentOf(g.full, b.prevId))
  }

  lemma {:induction false} CutKeepsParents(levelOf: Id -> View, f: Forest, qc: QC, b: Block)
    requires Levelled(levelOf, f) && WellBuilt(levelOf, b)
    requires qc.blockId == b.prevId || (qc.blockId == b.id && b.id in f.full && f.full[b.id] == b)
    ensures var g := Pruned(f, Cut(f, qc));
            && Levelled(levelOf, g) && SameParents(f, g, b) && (Fits(f.full, b) ==> Fits(g.full, b))
            && (qc.blockId == b.id ==> b.id in g.full)
  {
    PrunedAtLowest(f);
    if Cut(f, qc) != f.lowest {
      hide CommitRule;
      CommitRuleViews(f.full, qc);
      var p := f.full[f.full[qc.blockId].prevId];
      assert LevelConsistent(levelOf, f.full[qc.blockId]) && LevelConsistent(levelOf, p);
      if b.prevId in f.full && f.full[b.prevId].prevId in f.full {
        assert LevelConsistent(levelOf, f.full[b.prevId]) && LevelConsistent(levelOf, f.full[f.full[b.prevId].prevId]);
      }
    }
  }

  lemma {:induction false} FilingKeepsParents(levelOf: Id -> View, f: Forest, b: Block)
    requires Levelled(levelOf, f) && WellBuilt(levelOf, b) && Fits(f.full, b) && b.view >= f.lowest
    ensures var g := WithVertex(f, b);
            Levelled(levelOf, g) && SameParents(f, g, b) && g.full == f.full[b.id := b]
  {
    assert b.prevId != b.id;
    if b.prevId in f.full {
      assert LevelConsistent(levelOf, f.full[b.prevId]);
    }
  }

  /** A block that comes to a forest in which views belong to ids. */
  ghost predicate Plain(levelOf: Id -> View, r: Replica, b: Block) {
    Inv(r) && Levelled(levelOf, r.forest) && WellBuilt(levelOf, b) && Fits(r.forest.full, b)
  }

  lemma {:induction false} CutBelow(f: Forest, qc: QC)
    ensures Cut(f, qc) == f.lowest || Cut(f, qc) + 2 == qc.view
  {
    hide CommitRule;
    if CommitRule(f.full, qc).Some? {
      CommitRuleViews(f.full, qc);
    }
  }

  lemma {:induction false} FiledParents(levelOf: Id -> View, env: Env, r: Replica, b: Block)
    requires Plain(levelOf, r, b) && r.curView <= b.view
    ensures var f := Filed(env, r, b);
            Levelled(levelOf, f) && SameParents(r.forest, f, b) && b.id in f.full && f.full[b.id] == b
  {
    hide Levelled, Cut, LogFits, SameParents, Passes, WithVertex;
    if Followed(env, r, b) {
      CutKeepsParents(levelOf, r.forest, b.qc.value, b);
      CutBelow(r.forest, b.qc.value);
      var f := Pruned(r.forest, Cut(r.forest, b.qc.value));
      FilingKeepsParents(levelOf, f, b);
      ParentsThrough(r.forest, f, WithVertex(f, b), b);
    } else {
      FilingKeepsParents(levelOf, r.forest, b);
    }
  }

  lemma {:induction false} ParentsThrough(f: Forest, g: Forest, h: Forest, b: Block)
    requires SameParents(f, g, b) && SameParents(g, h, b)
    ensures SameParents(f, h, b)
  {
  }

  /** Parent and grandparent of a plain block are not pruned before it is judged. */
  lemma {:induction false} LeftParents(levelOf: Id -> View, env: Env, r: Replica, b: Block)
    requires Plain(levelOf, r, b) && r.curView <= b.view
    ensures SameParents(r.forest, Left(env, r, b), b) && b.id in Left(env, r, b).full && Left(env, r, b).full[b.id] == b
  {
    hide Levelled, Cut, LogFits, SameParents, Filed, Followed, ViewThen;
    FiledParents(levelOf, env, r, b);
    var f := Filed(env, r, b);
    if Applied(env, r, b) {
      CutKeepsParents(levelOf, f, Waiting(env, r, b).value, b);
      ParentsThrough(r.forest, f, Left(env, r, b), b);
    }
  }

  /** Before a plain block arrives, only this matters: its view, its leader, and its parent above the lock. */
  ghost predicate PlainlyVotable(env: Env, r: Replica, b: Block) {
    && r.curView <= b.view <= r.curView + 1 && env.isLeader(b.proposer, b.view)
    && (b.view <= 2 || (b.prevId in r.forest.full && r.forest.full[b.prevId].view >= r.preferredView))
  }

  /** The lock that a block is judged by, compared with the view of its parent and grandparent. */
  lemma {:induction false} PlainLock(levelOf: Id -> View, env: Env, r: Replica, b: Block)
    requires Plain(levelOf, r, b) && r.curView <= b.view && b.prevId in r.forest.full
    ensures var (p, grandParent) := (r.forest.full[b.prevId], ParentOf(r.forest.full, b.prevId));
            var followed := LockFollowed(env, r, b);
            && LockThen(env, r, b) ==
               (if Applied(env, r, b) && Waiting(env, r, b).value.view > 2 then Raised(followed, Some(p)) else followed)
            && followed ==
               (if Followed(env, r, b) && b.qc.value.view > 2 then Raised(r.preferredView, grandParent) else r.preferredView)
            && (grandParent.Some? ==> grandParent.value.view < p.view)
  {
    FiledParents(levelOf, env, r, b);
    hide Followed, Applied, Waiting, Filed, LogFits;
    if ParentOf(r.forest.full, b.prevId).Some? {
      assert LevelConsistent(levelOf, r.forest.full[b.prevId]);
      assert LevelConsistent(levelOf, r.forest.full[r.forest.full[b.prevId].prevId]);
    }
  }

  /** A plain block gets a vote if, and only if, it is plainly votable. */
  lemma {:induction false} PlainAcceptedIff(levelOf: Id -> View, env: Env, r: Replica, b: Block)
    requires Plain(levelOf, r, b)
    ensures HandleBlock(env, r, b).1 == Accepted <==> PlainlyVotable(env, r, b)
  {
    AcceptedIff(env, r, b);
    hide HandleBlock, Left, LockThen, LockFollowed, LogFits, Applied, Waiting, Levelled, Passes, Resolved;
    if r.curView <= b.view {
      LeftParents(levelOf, env, r, b);
      if b.prevId in r.forest.full {
        PlainLock(levelOf, env, r, b);
      }
    }
  }

  /** A certificate that waited for the block is applied when the block is filed. */
  ghost predicate Waited(env: Env, r: Replica, b: Block) {
    b.id in r.bufferedQCs && r.bufferedQCs[b.id].view > 2 && Current(env, r.curView, r.bufferedQCs[b.id])
  }

  ghost predicate PlainlyLocked(env: Env, r: Replica, b: Block)
    requires b.qc.Some?
  {
    || b.qc.value.view <= 2
    || var grandParent := ParentOf(r.forest.full, b.prevId);
       grandParent.Some? && (grandParent.value.view <= r.preferredView || Followed(env, r, b) || Waited(env, r, b))
  }

  /** The vote for a plain block rests on an applied certificate if, and only if, this was known before. */
  lemma {:induction false} PlainLockAppliedIff(levelOf: Id -> View, env: Env, r: Replica, b: Block)
    requires Plain(levelOf, r, b) && PlainlyVotable(env, r, b)
    ensures var a := Judged(env, r, b);
            LockApplied(Voted(b, a.preferredView, a.forest.full)) <==> PlainlyLocked(env, r, b)
  {
    LockAppliedIff(env, r, b);
    LeftParents(levelOf, env, r, b);
    hide Judged, Left, LockThen, LockFollowed, LogFits, Levelled, Passes, LockApplied;
    if b.prevId in r.forest.full {
      PlainLock(levelOf, env, r, b);
    }
  }
}
