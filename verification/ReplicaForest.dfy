/**
 The forest of a replica is one that the containers on the heap can hold (hotstuff/hotstuff.go,
 blockchain/leveled_forrest.go). If, besides, the ids a replica meets have distinct levels, then in every
 run its forest has one container per level, and the walk of a pruning does not fail.
 */
module ReplicaForest {
  import opened Prelude
  import opened Chain
  import opened Quorums
  import opened LevelledForests
  import opened ForestForks
  import opened Replicas
  import opened ReplicaSafety
  import opened ReplicaKnown

  ghost predicate DistinctLevels(levelOf: Id -> View, ids: set<Id>) {
    forall a, b :: a in ids && b in ids && levelOf(a) == levelOf(b) ==> a == b
  }

  /** A shape of containers for these ids that stands for the forest and meets what the methods ask. */
  ghost predicate Stands(levelOf: Id -> View, ids: set<Id>, s: Shape, f: Forest) {
    && WellFormed(levelOf, s, f.lowest) && ViewOf(s, f.lowest) == f && s.nodes.Keys <= ids
    && (DistinctLevels(levelOf, ids) ==> OnePerLevel(s))
  }

  ghost predicate OnHeap(levelOf: Id -> View, ids: set<Id>, f: Forest) {
    exists s :: Stands(levelOf, ids, s, f)
  }

  /** With distinct levels there is one container per level. */
  lemma {:induction false} OneContainerPerLevel(levelOf: Id -> View, ids: set<Id>, s: Shape, lowest: View)
    requires DistinctLevels(levelOf, ids) && WellFormed(levelOf, s, lowest) && s.nodes.Keys <= ids
    ensures OnePerLevel(s)
  {
    forall l | l in s.index
      ensures |s.index[l]| <= 1
    {
      SameLevelSameId(levelOf, ids, s, lowest, l);
      assert NoDuplicates(s.index[l]);
    }
  }

  lemma {:induction false} SameLevelSameId(levelOf: Id -> View, ids: set<Id>, s: Shape, lowest: View, l: View)
    requires DistinctLevels(levelOf, ids) && Indexed(levelOf, s, lowest) && s.nodes.Keys <= ids && l in s.index
    ensures |s.index[l]| >= 2 ==> s.index[l][0] == s.index[l][1]
  {
    if |s.index[l]| >= 2 {
      var a, b := s.index[l][0], s.index[l][1];
      hide NoDuplicates;
      assert a in s.index[l] && b in s.index[l];
      assert a in s.nodes.Keys && b in s.nodes.Keys;
      assert levelOf(a) == l == levelOf(b);
    }
  }

  ghost predicate Expected(levelOf: Id -> View, ids: set<Id>, b: Block) {
    b.qc.Some? ==> LevelConsistent(levelOf, b) && b.id in ids && b.prevId in ids
  }

  lemma {:induction false} AddedKeys(s: Shape, lowest: View, b: Block)
    requires b.qc.Some?
    ensures Added(s, lowest, b).nodes.Keys <= s.nodes.Keys + {b.id, b.prevId}
  {
  }

  /** Adding a block to such a forest is what the method on the heap does. */
  lemma {:induction false} AddOnHeap(levelOf: Id -> View, ids: set<Id>, f: Forest, b: Block)
    requires OnHeap(levelOf, ids, f) && Expected(levelOf, ids, b) && b.qc.Some?
    ensures OnHeap(levelOf, ids, WithVertex(f, b))
  {
    hide WellFormed, OnePerLevel, ViewOf, DistinctLevels, Added, WithVertex;
    var s :| Stands(levelOf, ids, s, f);
    var t := Added(s, f.lowest, b);
    AddedWellFormed(levelOf, s, f.lowest, b);
    AddedView(s, f.lowest, b);
    AddedKeys(s, f.lowest, b);
    if DistinctLevels(levelOf, ids) {
      OneContainerPerLevel(levelOf, ids, t, f.lowest);
    }
    LowestKept(f, b);
    assert Stands(levelOf, ids, t, WithVertex(f, b));
  }

  lemma {:induction false} LowestKept(f: Forest, b: Block)
    requires b.qc.Some?
    ensures WithVertex(f, b).lowest == f.lowest
  {
  }

  /** So is pruning it below a stored block: its level was not pruned, and with distinct levels the walk is possible. */
  lemma {:induction false} PruneOnHeap(levelOf: Id -> View, ids: set<Id>, f: Forest, b: Block)
    requires OnHeap(levelOf, ids, f) && b.id in f.full && f.full[b.id] == b
    ensures OnHeap(levelOf, ids, Pruned(f, b.view)) && b.view >= f.lowest
    ensures DistinctLevels(levelOf, ids) ==> exists s :: Stands(levelOf, ids, s, f) && CanWalk(s, b.view)
  {
    hide WellFormed, OnePerLevel, LevelsOf, BlocksOf, PrunedShape, Pruned;
    hide CanWalk, Partitioned, Listed, NoDuplicates, DistinctLevels;
    var s :| Stands(levelOf, ids, s, f);
    var t := PrunedShape(s, b.view);
    LowestBound(levelOf, s, f.lowest, b);
    if DistinctLevels(levelOf, ids) {
      CommitPartition(levelOf, s, f.lowest, b);
      PrunedOne(s, b.view);
    }
    PrunedWellFormed(levelOf, s, f.lowest, b.view);
    PrunedView(s, f.lowest, b.view);
    PrunedKeys(s, b.view);
    PrunedLowest(f, b.view);
    assert Stands(levelOf, ids, t, Pruned(f, b.view));
  }

  lemma {:induction false} PrunedOne(s: Shape, level: View)
    requires OnePerLevel(s)
    ensures OnePerLevel(PrunedShape(s, level))
  {
  }

  lemma {:induction false} PrunedKeys(s: Shape, level: View)
    ensures PrunedShape(s, level).nodes.Keys <= s.nodes.Keys
  {
  }

  lemma {:induction false} PrunedLowest(f: Forest, level: View)
    ensures Pruned(f, level).lowest == level
  {
  }

  // ----- Over runs

  ghost predicate Tracked(levelOf: Id -> View, ids: set<Id>, r: Replica) {
    && OnHeap(levelOf, ids, r.forest) && AllConsistent(levelOf, r.forest.full)
    && forall v :: v in r.bufferedBlocks ==> Expected(levelOf, ids, r.bufferedBlocks[v])
  }

  lemma {:induction false} CommitRuleStored(levelOf: Id -> View, full: Blocks, qc: QC)
    requires AllConsistent(levelOf, full) && CommitRule(full, qc).Some?
    ensures var b := CommitRule(full, qc).value; b.id in full && full[b.id] == b
  {
  }

  lemma {:induction false} CommitTracked(levelOf: Id -> View, ids: set<Id>, r: Replica, qc: QC)
    requires Tracked(levelOf, ids, r)
    ensures Tracked(levelOf, ids, CommitBy(r, qc))
  {
    hide CommitRule, CommitPath, IdsOf, OnHeap;
    if CommitRule(r.forest.full, qc).Some? {
      CommitRuleStored(levelOf, r.forest.full, qc);
      PruneOnHeap(levelOf, ids, r.forest, CommitRule(r.forest.full, qc).value);
    }
  }

  lemma {:induction false} CertificateTracked(levelOf: Id -> View, ids: set<Id>, env: Env, r: Replica, qc: QC)
    requires Tracked(levelOf, ids, r)
    ensures Tracked(levelOf, ids, ProcessCertificate(env, r, qc))
  {
    hide CommitBy, UpdatePreferred, OnHeap, AllConsistent;
    var preferred := UpdatePreferred(r.forest.full, r.preferredView, qc);
    if preferred.Some? {
      CommitTracked(levelOf, ids, Locked(r, qc, preferred.value), qc);
    }
  }

  lemma {:induction false} VoteTracked(levelOf: Id -> View, ids: set<Id>, env: Env, r: Replica, vote: Vote)
    requires Tracked(levelOf, ids, r)
    ensures Tracked(levelOf, ids, ProcessVote(env, r, vote))
  {
    hide ProcessCertificate, OnHeap, AllConsistent;
    var (votes, built) := AddVote(env.n, r.votes, vote);
    if built.Some? {
      CertificateTracked(levelOf, ids, env, r.(votes := votes), built.value.(leader := env.me));
    }
  }

  lemma {:induction false} AddBlockTracked(levelOf: Id -> View, ids: set<Id>, env: Env, r: Replica, b: Block)
    requires Tracked(levelOf, ids, r) && Expected(levelOf, ids, b) && b.qc.Some?
    ensures Tracked(levelOf, ids, AddBlock(env, r, b))
  {
    hide ProcessCertificate, OnHeap;
    var added := r.(forest := WithVertex(r.forest, b));
    AddOnHeap(levelOf, ids, r.forest, b);
    if b.id in added.bufferedQCs {
      CertificateTracked(levelOf, ids, env, added, added.bufferedQCs[b.id]);
    }
  }

  lemma {:induction false} HandleTracked(levelOf: Id -> View, ids: set<Id>, env: Env, r: Replica, b: Block)
    requires Tracked(levelOf, ids, r) && Expected(levelOf, ids, b)
    ensures Tracked(levelOf, ids, HandleBlock(env, r, b).0)
  {
    hide ProcessCertificate, AddBlock, ProcessVote, VotingRule, OnHeap, AllConsistent, Expected;
    if b.view <= r.curView + 1 && b.qc.Some? {
      CertificateTracked(levelOf, ids, env, WithHighQC(r, b.qc.value), b.qc.value);
      var f := FollowQC(env, r, b);
      AddBlockTracked(levelOf, ids, env, f, b);
      var a := AddBlock(env, f, b);
      VoteTracked(levelOf, ids, env, a.(log := a.log + [Voted(b, a.preferredView, a.forest.full)]), OwnVote(env, b));
    }
  }

  lemma {:induction false} ProcessBlockTracked(levelOf: Id -> View, ids: set<Id>, env: Env, r: Replica, b: Block)
    requires Tracked(levelOf, ids, r) && Expected(levelOf, ids, b) && Aligned(r.bufferedBlocks)
    ensures Tracked(levelOf, ids, ProcessBlock(env, r, b))
    decreases KeysFrom(r.bufferedBlocks, b.view)
  {
    hide HandleBlock, OnHeap, AllConsistent, Expected;
    HandleTracked(levelOf, ids, env, r, b);
    var (h, verdict) := HandleBlock(env, r, b);
    if verdict == Accepted && b.view in h.bufferedBlocks {
      BufferedBlocksDescend(env, r, b);
      ProcessBlockTracked(levelOf, ids, env, h, h.bufferedBlocks[b.view]);
    }
  }

  lemma {:induction false} TmoTracked(levelOf: Id -> View, ids: set<Id>, env: Env, r: Replica, t: Timeout)
    requires Tracked(levelOf, ids, r)
    ensures Tracked(levelOf, ids, ProcessRemoteTmo(env, r, t))
  {
    hide ProcessCertificate, AddTimeout, OnHeap, AllConsistent, Expected;
    CertificateTracked(levelOf, ids, env, r, t.highQC);
  }

  lemma {:induction false} NextTracked(levelOf: Id -> View, ids: set<Id>, env: Env, r: Replica, e: Event)
    requires Tracked(levelOf, ids, r) && Aligned(r.bufferedBlocks)
    requires e.BlockArrives? ==> Expected(levelOf, ids, e.block)
    ensures Tracked(levelOf, ids, Next(env, r, e))
  {
    hide ProcessBlock, ProcessVote, ProcessRemoteTmo, OnHeap, AllConsistent, Expected;
    match e
    case BlockArrives(b) => ProcessBlockTracked(levelOf, ids, env, r, b);
    case VoteArrives(v) => VoteTracked(levelOf, ids, env, r, v);
    case TmoArrives(t) => TmoTracked(levelOf, ids, env, r, t);
    case TimerFires(view) =>
      var a := AdvanceView(r, view);
      TmoTracked(levelOf, ids, env, a, Timeout(view + 1, env.me, a.highQC));
  }

  lemma {:induction false} EmptyOnHeap(levelOf: Id -> View, ids: set<Id>)
    ensures OnHeap(levelOf, ids, NO_FOREST)
  {
    assert Stands(levelOf, ids, Shape(map[], map[]), NO_FOREST);
  }

  /** Over every run the forest is one that the heap can hold, with one container per level if levels are distinct. */
  lemma {:induction false} RunOnHeap(levelOf: Id -> View, ids: set<Id>, env: Env, es: seq<Event>)
    requires forall i :: 0 <= i < |es| && es[i].BlockArrives? ==> Expected(levelOf, ids, es[i].block)
    ensures Tracked(levelOf, ids, Run(env, es))
    decreases |es|
  {
    if es == [] {
      EmptyOnHeap(levelOf, ids);
    } else {
      hide Next, Tracked, Expected;
      RunOnHeap(levelOf, ids, env, es[..|es| - 1]);
      NextTracked(levelOf, ids, env, Run(env, es[..|es| - 1]), es[|es| - 1]);
    }
  }

  // ----- Views that belong to ids

  ghost function IdsIn(es: seq<Event>): set<Id> {
    (set i | 0 <= i < |es| && es[i].BlockArrives? :: es[i].block.id) +
    (set i | 0 <= i < |es| && es[i].BlockArrives? :: es[i].block.prevId)
  }

  lemma {:induction false} ShapeLevelled(levelOf: Id -> View, s: Shape, lowest: View)
    requires WellFormed(levelOf, s, lowest)
    ensures Levelled(levelOf, ViewOf(s, lowest))
  {
    hide ChildrenListed, ParentsKnown, LevelConsistent;
    var f := ViewOf(s, lowest);
    assert AllConsistent(levelOf, f.full) by { hide IndexesAgree; }
    assert Placed(f);
  }

  lemma {:induction false} OnHeapLevelled(levelOf: Id -> View, ids: set<Id>, f: Forest)
    requires OnHeap(levelOf, ids, f)
    ensures Levelled(levelOf, f)
  {
    hide WellFormed, ViewOf, Levelled, DistinctLevels, OnePerLevel;
    var s :| Stands(levelOf, ids, s, f);
    ShapeLevelled(levelOf, s, f.lowest);
  }

  /** Over every run of blocks whose views belong to their ids, so do the levels of the forest. */
  lemma {:induction false} RunLevelled(levelOf: Id -> View, env: Env, es: seq<Event>)
    requires KnownEvents(LevelsFit(levelOf), es)
    ensures Levelled(levelOf, Run(env, es).forest)
  {
    hide Run, OnHeap, LevelConsistent;
    forall i | 0 <= i < |es| && es[i].BlockArrives?
      ensures Expected(levelOf, IdsIn(es), es[i].block)
    {
      assert KnownEvent(LevelsFit(levelOf), es[i]);
    }
    RunOnHeap(levelOf, IdsIn(es), env, es);
    OnHeapLevelled(levelOf, IdsIn(es), Run(env, es).forest);
  }
}
