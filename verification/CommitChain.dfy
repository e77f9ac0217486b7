/**
 The blocks that an honest replica commits, one after the other (hotstuff/hotstuff.go,
 blockchain/blockchain.go). A commit takes the stored ancestors of its block. So what is committed in all
 is one chain exactly when no path stops short of the block that was committed before it.
 */
module CommitChains {
  import opened Prelude
  import opened Chain
  import opened Replicas
  import opened ReplicaSafety
  import opened ReplicaKnown
  import opened Systems
  import opened Agreement
  import BlockChains

  /** All blocks that a log commits, oldest first. */
  ghost function BlocksOf(log: seq<Output>): seq<Block> {
    if log == [] then []
    else
      var last := log[|log| - 1];
      BlocksOf(log[..|log| - 1]) + if last.Committed? then BlockChains.OldestFirst(last.path) else []
  }

  /** The block that a log committed last. */
  ghost function LastBlock(log: seq<Output>): Option<Block> {
    if log == [] then None
    else if log[|log| - 1].Committed? then Some(log[|log| - 1].block)
    else LastBlock(log[..|log| - 1])
  }

  /** The oldest block of a path has its parent stored, or is a child of the block that was committed before. */
  ghost predicate Reaches(log: seq<Output>, i: nat)
    requires i < |log| && log[i].Committed?
  {
    var path, last := log[i].path, LastBlock(log[..i]);
    path == [] || last.None? || path[|path| - 1].prevId in log[i].full || path[|path| - 1].prevId == last.value.id
  }

  ghost predicate NoGap(log: seq<Output>) {
    forall i :: 0 <= i < |log| && log[i].Committed? ==> Reaches(log, i)
  }

  // ----- Where a path ends

  /** The ancestors of a certified block lie each below its child. */
  lemma {:induction false} CertifiedDescending(sys: System, b: Block)
    requires Behaved(sys) && MemberOf(sys.blocks)(b) && Certified(sys, b.id)
    ensures Descending(sys.blocks, b)
    decreases b.view
  {
    hide Certified, VotesSound, ViewsIncrease, RulesFollowed, FewFaulty;
    CertifiedParent(sys, b.id);
    if b.prevId in sys.blocks {
      CertifiedDescending(sys, sys.blocks[b.prevId]);
    }
  }

  /** An ancestor that is not below the block is the block itself. */
  lemma {:induction false} TopOfLine(blocks: Blocks, b: Block, a: Block)
    requires (forall id :: id in blocks ==> blocks[id].id == id) && a in Lineage(blocks, b) && a.view >= b.view
    ensures a == b
  {
    hide Lineage;
    LineageLinked(blocks, b);
    var line := Lineage(blocks, b);
    var i :| 0 <= i < |line| && line[i] == a;
    assert i == 0;
  }

  /** A path whose oldest block has a stored parent ends with a child of the ancestor at the lowest level. */
  lemma {:induction false} PathReaches(blocks: Blocks, full: Blocks, b: Block, last: Block)
    requires SoundIds(blocks) && All(MemberOf(blocks), full) && Descending(blocks, b)
    requires last in Lineage(blocks, b) && last.view < b.view
    ensures var path := CommitPath(full, last.view, b);
            |path| > 0 && (path[|path| - 1].prevId in full ==> path[|path| - 1].prevId == last.id)
    decreases b.view
  {
    FewerDescend(blocks, full, b);
    PathUnfolds(full, last.view, b);
    hide CommitPath;
    if b.prevId in full {
      var p := blocks[b.prevId];
      assert full[b.prevId] == p;
      assert Lineage(blocks, b) == [b] + Lineage(blocks, p);
      if p.view > last.view {
        PathReaches(blocks, full, p, last);
      } else {
        TopOfLine(blocks, p, last);
        FewerDescend(blocks, full, p);
        PathUnfolds(full, last.view, p);
      }
    }
  }

  // ----- One more commit

  ghost predicate AllSound(sys: System, log: seq<Output>) {
    forall i :: 0 <= i < |log| && log[i].Committed? ==> SoundCommit(sys, log[i])
  }

  /** The committed blocks end with the block that was committed last, of a view that is not 0. */
  ghost predicate Ends(blocks: seq<Block>, last: Option<Block>, view: View) {
    match last
    case None => blocks == [] && view == 0
    case Some(b) => blocks != [] && blocks[|blocks| - 1] == b && b.view == view > 0
  }

  lemma {:induction false} PrefixIsChain(a: seq<Block>, b: seq<Block>)
    requires BlockChains.IsChain(a + b)
    ensures BlockChains.IsChain(a)
  {
    assert forall i :: 0 <= i < |a| ==> (a + b)[i] == a[i];
  }

  /** A path of a certified block is a chain that ends with the block. */
  lemma {:induction false} PathIsChain(sys: System, c: Output, lowest: View)
    requires Behaved(sys) && c.Committed? && SoundCommit(sys, c) && lowest < c.block.view
    requires c.path == CommitPath(c.full, lowest, c.block)
    ensures var up := BlockChains.OldestFirst(c.path);
            BlockChains.IsChain(up) && up != [] && up[|up| - 1] == c.block && up[0].view > lowest
  {
    hide Certified, VotesSound, ViewsIncrease, RulesFollowed, FewFaulty, CommitPath;
    var b1, b2 := CommitIsThreeChain(sys, c);
    assert c.block in [c.block, b1, b2];
    CertifiedDescending(sys, c.block);
    FewerDescend(sys.blocks, c.full, c.block);
    BlockChains.CommitPathLinked(c.full, lowest, c.block);
  }

  /** A commit of a higher block continues the chain if, and only if, its path reaches the block before. */
  lemma {:induction false} LaterCommit(sys: System, blocks: seq<Block>, last: Block, lastCommit: Output, c: Output)
    requires Behaved(sys) && c.Committed? && SoundCommit(sys, c) && lastCommit.Committed? && SoundCommit(sys, lastCommit)
    requires lastCommit.block == last && Ends(blocks, Some(last), last.view) && last.view < c.block.view
    requires c.path == CommitPath(c.full, last.view, c.block)
    ensures |c.path| > 0
    ensures BlockChains.IsChain(blocks + BlockChains.OldestFirst(c.path)) <==>
            && BlockChains.IsChain(blocks)
            && (c.path[|c.path| - 1].prevId in c.full || c.path[|c.path| - 1].prevId == last.id)
  {
    hide Certified, VotesSound, ViewsIncrease, RulesFollowed, FewFaulty;
    hide CommitPath, Lineage, FollowsCommitRule, BlockChains.IsChain;
    var up := BlockChains.OldestFirst(c.path);
    PathIsChain(sys, c, last.view);
    CommitsAgree(sys, lastCommit, c);
    CommittedDescends(sys, c);
    PathReaches(sys.blocks, c.full, c.block, last);
    if BlockChains.IsChain(blocks) {
      BlockChains.JoinedChain(blocks, up);
    } else if BlockChains.IsChain(blocks + up) {
      PrefixIsChain(blocks, up);
    }
  }

  lemma {:induction false} CommittedDescends(sys: System, c: Output)
    requires Behaved(sys) && c.Committed? && SoundCommit(sys, c)
    ensures Descending(sys.blocks, c.block) && c.block.view > 0 && MemberOf(sys.blocks)(c.block)
  {
    hide Certified, VotesSound, ViewsIncrease, RulesFollowed, FewFaulty;
    var b1, b2 := CommitIsThreeChain(sys, c);
    assert c.block in [c.block, b1, b2];
    CertifiedDescending(sys, c.block);
    CertifiedParent(sys, c.block.id);
  }

  /** The commit that a log made last. */
  lemma {:induction false} LastCommit(log: seq<Output>) returns (i: nat)
    requires LastBlock(log).Some?
    ensures i < |log| && log[i].Committed? && log[i].block == LastBlock(log).value
    decreases |log|
  {
    if log[|log| - 1].Committed? {
      i := |log| - 1;
    } else {
      i := LastCommit(log[..|log| - 1]);
    }
  }

  // ----- Whole logs

  /** A commit is put after a log. */
  lemma {:induction false} CommitContinues(sys: System, front: seq<Output>, c: Output)
    requires Behaved(sys) && AllSound(sys, front) && c.Committed? && SoundCommit(sys, c)
    requires Ends(BlocksOf(front), LastBlock(front), LastCommitted(front)) && LastCommitted(front) <= c.block.view
    requires c.path == CommitPath(c.full, LastCommitted(front), c.block)
    ensures Ends(BlocksOf(front) + BlockChains.OldestFirst(c.path), Some(c.block), c.block.view)
    ensures BlockChains.IsChain(BlocksOf(front) + BlockChains.OldestFirst(c.path)) <==>
            && BlockChains.IsChain(BlocksOf(front))
            && (|| c.path == [] || LastBlock(front).None? || c.path[|c.path| - 1].prevId in c.full
                || c.path[|c.path| - 1].prevId == LastBlock(front).value.id)
  {
    hide Behaved, SoundCommit, CommitPath, BlocksOf, LastBlock, LastCommitted, BlockChains.IsChain, Lineage;
    var blocks, up := BlocksOf(front), BlockChains.OldestFirst(c.path);
    CommittedDescends(sys, c);
    if LastBlock(front).None? {
      PathIsChain(sys, c, 0);
      assert blocks + up == up;
      NothingIsChain();
    } else {
      var i := LastCommit(front);
      var last := LastBlock(front).value;
      if last.view < c.block.view {
        PathIsChain(sys, c, last.view);
        LaterCommit(sys, blocks, last, front[i], c);
      } else {
        SameCommit(sys, front[i], c);
        assert blocks + up == blocks;
      }
    }
  }

  lemma {:induction false} NothingIsChain()
    ensures BlockChains.IsChain([])
  {
  }

  /** A second commit at the same view is of the same block, and takes nothing. */
  lemma {:induction false} SameCommit(sys: System, a: Output, c: Output)
    requires Behaved(sys) && a.Committed? && SoundCommit(sys, a) && c.Committed? && SoundCommit(sys, c)
    requires a.block.view == c.block.view
    ensures a.block == c.block && CommitPath(c.full, c.block.view, c.block) == []
  {
    hide Behaved, SoundCommit, Lineage;
    CommitsAgree(sys, a, c);
    IdsOwn(sys);
    TopOfLine(sys.blocks, c.block, a.block);
  }

  lemma {:induction false} IdsOwn(sys: System)
    requires Behaved(sys)
    ensures forall id :: id in sys.blocks ==> sys.blocks[id].id == id
  {
  }

  lemma {:induction false} NoGapAppend(log: seq<Output>, o: Output)
    ensures NoGap(log + [o]) <==> NoGap(log) && (o.Committed? ==> Reaches(log + [o], |log|))
  {
    hide LastBlock;
    var all := log + [o];
    assert all[|log|] == o && all[..|log|] == log;
    forall i | 0 <= i < |log|
      ensures all[i] == log[i] && all[..i] == log[..i]
    {
    }
    assert forall i :: 0 <= i < |log| && log[i].Committed? ==> (Reaches(all, i) <==> Reaches(log, i));
  }

  lemma {:induction false} ChainUpTo(sys: System, log: seq<Output>)
    requires Behaved(sys) && AllSound(sys, log) && PathsFit(log)
    ensures Ends(BlocksOf(log), LastBlock(log), LastCommitted(log))
    ensures BlockChains.IsChain(BlocksOf(log)) <==> NoGap(log)
    decreases |log|
  {
    if log != [] {
      var front, c := log[..|log| - 1], log[|log| - 1];
      assert log == front + [c];
      assert AllSound(sys, front);
      assert PathsFit(front) by { PathsFitPrefix(log, |log| - 1); }
      hide Behaved, SoundCommit, CommitPath, BlockChains.IsChain, NoGap, AllSound;
      ChainUpTo(sys, front);
      NoGapAppend(front, c);
      if c.Committed? {
        CommitContinues(sys, front, c);
      } else {
        assert BlocksOf(front) + [] == BlocksOf(front);
      }
    }
  }

  lemma {:induction false} PathsFitPrefix(log: seq<Output>, k: nat)
    requires PathsFit(log) && k <= |log|
    ensures PathsFit(log[..k])
  {
    hide CommitPath, LastCommitted;
    forall i | 0 <= i < k
      ensures log[..k][i] == log[i] && log[..k][..i] == log[..i]
    {
    }
  }

  /**
   Over every run of an honest replica, under the hypotheses of agreement: all that it commits is one chain
   if, and only if, the path of every commit reaches the block that was committed before it.
   */
  lemma {:induction false} HonestCommitsFormChain(sys: System, envs: map<NodeId, Env>,
                                                  events: map<NodeId, seq<Event>>, p: NodeId)
    requires FewFaulty(sys) && SoundIds(sys.blocks) && Members(sys, envs, events) && Honest(sys, p)
    ensures BlockChains.IsChain(BlocksOf(sys.logs[p])) <==> NoGap(sys.logs[p])
  {
    assert PathsFit(sys.logs[p]) by {
      hide Run, CommitPath, LastCommitted;
      RunLocked(envs[p], events[p]);
    }
    hide Members, Behaved, SoundCommit, PathsFit, BlockChains.IsChain, NoGap;
    MembersBehave(sys, envs, events);
    ChainUpTo(sys, sys.logs[p]);
  }
}
