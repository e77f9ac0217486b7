/**
 Which blocks a pruning lists as forked (blockchain/leveled_forrest.go). A commit should split what it
 prunes into committed and forked blocks. It does so exactly when no other block shares a level with an
 ancestor of the committed one: levels, and not blocks, are taken for committed.
 */
module ForestForks {
  import opened Prelude
  import opened Chain
  import opened LevelledForests

  // ----- What is listed

  /** The stored blocks from `lowest` up to and without `level` that are not on these levels. */
  ghost predicate IsForked(blocks: Blocks, lowest: View, level: View, committed: set<View>, b: Block) {
    b.id in blocks && blocks[b.id] == b && lowest <= b.view < level && b.view > 1 && b.view !in committed
  }

  lemma {:induction false} FullAtHas(nodes: Nodes, ids: seq<Id>, b: Block)
    ensures b in FullAt(nodes, ids) <==> exists i :: 0 <= i < |ids| && ids[i] in nodes && nodes[ids[i]].vertex == Some(b)
    decreases |ids|
  {
    if ids != [] {
      var front, last := ids[..|ids| - 1], ids[|ids| - 1];
      FullAtHas(nodes, front, b);
      assert b in FullAt(nodes, ids) <==> b in FullAt(nodes, front) || (last in nodes && nodes[last].vertex == Some(b));
      if i :| 0 <= i < |front| && front[i] in nodes && nodes[front[i]].vertex == Some(b) {
        assert ids[i] == front[i];
      }
    }
  }

  /** A level lists its stored blocks. */
  lemma {:induction false} LevelHas(levelOf: Id -> View, s: Shape, lowest: View, l: View, b: Block)
    requires WellFormed(levelOf, s, lowest)
    ensures b in FullAt(s.nodes, ListAt(s.index, l)) <==>
            b.id in BlocksOf(s.nodes) && BlocksOf(s.nodes)[b.id] == b && b.view == l
  {
    var ids := ListAt(s.index, l);
    FullAtHas(s.nodes, ids, b);
    if i :| 0 <= i < |ids| && ids[i] in s.nodes && s.nodes[ids[i]].vertex == Some(b) {
      assert ids[i] in s.index[l];
      FiledAtItsLevel(levelOf, s, lowest, ids[i]);
    }
    if b.id in BlocksOf(s.nodes) && BlocksOf(s.nodes)[b.id] == b && b.view == l {
      FiledAtItsLevel(levelOf, s, lowest, b.id);
      assert b.id in s.index[l];
    }
  }

  /** What is listed as forked, whatever the shape of the forest. */
  lemma {:induction false} ForkedUpToHas(levelOf: Id -> View, s: Shape, lowest: View, level: View, committed: set<View>, b: Block)
    requires WellFormed(levelOf, s, lowest) && lowest <= level
    ensures b in ForkedUpTo(s, lowest, level, committed) <==> IsForked(BlocksOf(s.nodes), lowest, level, committed, b)
    decreases level
  {
    hide WellFormed, BlocksOf, FullAt, ListAt;
    if lowest < level {
      ForkedUpToHas(levelOf, s, lowest, level - 1, committed, b);
      LevelHas(levelOf, s, lowest, level - 1, b);
      var front := ForkedUpTo(s, lowest, level - 1, committed);
      var more := if level - 1 in committed || level - 1 <= 1 then [] else FullAt(s.nodes, ListAt(s.index, level - 1));
      assert b in front + more <==> b in front || b in more;
    }
  }

  lemma {:induction false} FullAtOnce(levelOf: Id -> View, nodes: Nodes, ids: seq<Id>)
    requires BlocksFiled(levelOf, nodes) && NoDuplicates(ids)
    ensures NoDuplicates(FullAt(nodes, ids))
    decreases |ids|
  {
    if ids != [] {
      var front, last := ids[..|ids| - 1], ids[|ids| - 1];
      FullAtOnce(levelOf, nodes, front);
      if last in nodes && nodes[last].vertex.Some? {
        var b := nodes[last].vertex.value;
        FullAtHas(nodes, front, b);
        assert b !in FullAt(nodes, front);
        AppendOnce(FullAt(nodes, front), [b]);
      } else {
        assert FullAt(nodes, front) + [] == FullAt(nodes, front);
      }
    }
  }

  lemma {:induction false} AppendOnce(a: seq<Block>, b: seq<Block>)
    requires NoDuplicates(a) && NoDuplicates(b) && forall x :: x in b ==> x !in a
    ensures NoDuplicates(a + b)
  {
    var all := a + b;
    forall i, j | 0 <= i < j < |all|
      ensures all[i] != all[j]
    {
      if i < |a| <= j {
        assert all[i] in a && all[j] in b;
      }
    }
  }

  /** No block is listed twice. */
  lemma {:induction false} ForkedOnce(levelOf: Id -> View, s: Shape, lowest: View, level: View, committed: set<View>)
    requires WellFormed(levelOf, s, lowest) && lowest <= level
    ensures NoDuplicates(ForkedUpTo(s, lowest, level, committed))
    decreases level
  {
    hide WellFormed, FullAt, ListAt, NoDuplicates;
    NothingOnce();
    if lowest < level {
      var l: View := level - 1;
      ForkedOnce(levelOf, s, lowest, l, committed);
      LevelListedOnce(levelOf, s, lowest, l, committed);
      var front := ForkedUpTo(s, lowest, l, committed);
      var more := if l in committed || l <= 1 then [] else FullAt(s.nodes, ListAt(s.index, l));
      AppendOnce(front, more);
    }
  }

  /** A level lists no block twice, and none that was listed before. */
  lemma {:induction false} LevelListedOnce(levelOf: Id -> View, s: Shape, lowest: View, l: View, committed: set<View>)
    requires WellFormed(levelOf, s, lowest) && lowest <= l
    ensures NoDuplicates(FullAt(s.nodes, ListAt(s.index, l)))
    ensures forall x :: x in FullAt(s.nodes, ListAt(s.index, l)) ==> x !in ForkedUpTo(s, lowest, l, committed)
  {
    FullAtOnce(levelOf, s.nodes, ListAt(s.index, l));
    hide WellFormed, BlocksOf, FullAt, ListAt, NoDuplicates, ForkedUpTo;
    forall x | x in FullAt(s.nodes, ListAt(s.index, l))
      ensures x !in ForkedUpTo(s, lowest, l, committed)
    {
      LevelHas(levelOf, s, lowest, l, x);
      ForkedUpToHas(levelOf, s, lowest, l, committed, x);
    }
  }

  lemma {:induction false} NothingOnce()
    ensures NoDuplicates<Block>([])
  {
  }

  // ----- The levels that are taken for committed

  /** The block and its ancestors are each the first of their level, as the walk expects. */
  ghost predicate PathFirst(s: Shape, b: Block)
    decreases b.view
  {
    b.view <= 1 || (BlockAt(s, b.view) == Some(b) &&
                    var blocks := BlocksOf(s.nodes);
                    b.prevId in blocks && blocks[b.prevId].view < b.view ==> PathFirst(s, blocks[b.prevId]))
  }

  /** Then the walk meets the block's ancestors, and takes their levels for committed. */
  lemma {:induction false} PathFirstWalks(levelOf: Id -> View, s: Shape, lowest: View, b: Block)
    requires WellFormed(levelOf, s, lowest) && PathFirst(s, b)
    requires b.id in BlocksOf(s.nodes) && BlocksOf(s.nodes)[b.id] == b
    ensures CanWalk(s, b.view) && WalkLevels(s, b.view) == AncestorLevels(BlocksOf(s.nodes), b)
    decreases b.view
  {
    var blocks := BlocksOf(s.nodes);
    hide BlockAt, Indexed, ChildrenListed, ParentsKnown;
    if b.view > 1 && b.prevId in blocks {
      var p := blocks[b.prevId];
      assert LevelConsistent(levelOf, b) && LevelConsistent(levelOf, p);
      PathFirstWalks(levelOf, s, lowest, p);
    }
  }

  ghost predicate OnePerLevel(s: Shape) {
    forall l :: l in s.index ==> |s.index[l]| <= 1
  }

  /** With one container per level, a stored block is the one of its level. */
  lemma {:induction false} StoredAtItsLevel(levelOf: Id -> View, s: Shape, lowest: View, id: Id)
    requires WellFormed(levelOf, s, lowest) && OnePerLevel(s) && id in BlocksOf(s.nodes)
    ensures var b := BlocksOf(s.nodes)[id]; b.id == id && b.view >= lowest && BlockAt(s, b.view) == Some(b)
  {
    assert id in s.index[s.nodes[id].level];
  }

  lemma {:induction false} OneIsFirst(levelOf: Id -> View, s: Shape, lowest: View, b: Block)
    requires WellFormed(levelOf, s, lowest) && OnePerLevel(s)
    requires b.id in BlocksOf(s.nodes) && BlocksOf(s.nodes)[b.id] == b
    ensures PathFirst(s, b)
    decreases b.view
  {
    StoredAtItsLevel(levelOf, s, lowest, b.id);
    hide WellFormed, OnePerLevel, BlockAt;
    if b.prevId in BlocksOf(s.nodes) && BlocksOf(s.nodes)[b.prevId].view < b.view {
      StoredAtItsLevel(levelOf, s, lowest, b.prevId);
      OneIsFirst(levelOf, s, lowest, BlocksOf(s.nodes)[b.prevId]);
    }
  }

  // ----- Committed or forked

  /** A stored block that pruning below the target removes, above level 1. */
  ghost predicate Removed(blocks: Blocks, target: Block, b: Block) {
    b.id in blocks && blocks[b.id] == b && 1 < b.view < target.view
  }

  /** A removed block is an ancestor of the target or is listed, and not both. */
  ghost predicate Partitioned(blocks: Blocks, target: Block, forked: seq<Block>) {
    forall b :: Removed(blocks, target, b) ==> (b in Lineage(blocks, target) <==> b !in forked)
  }

  /** No removed block shares the level of an ancestor of the target. */
  ghost predicate AloneOnPath(blocks: Blocks, target: Block) {
    forall a, b :: Removed(blocks, target, b) && a in Lineage(blocks, target) && a.view == b.view ==> a == b
  }

  /** What the commit of a target lists. */
  ghost function Listed(s: Shape, lowest: View, target: Block): seq<Block>
    requires lowest <= target.view
  {
    ForkedUpTo(s, lowest, target.view, WalkLevels(s, target.view))
  }

  /**
   In every forest: a commit splits what it prunes into committed and forked blocks if, and only if, the
   removed blocks on the levels that the walk meets are the target's ancestors.
   */
  lemma {:induction false} PartitionIffWalked(levelOf: Id -> View, s: Shape, lowest: View, target: Block)
    requires WellFormed(levelOf, s, lowest) && lowest <= target.view
    ensures var blocks := BlocksOf(s.nodes);
            Partitioned(blocks, target, Listed(s, lowest, target)) <==>
            forall b :: Removed(blocks, target, b) ==> (b in Lineage(blocks, target) <==> b.view in WalkLevels(s, target.view))
  {
    var blocks := BlocksOf(s.nodes);
    hide WellFormed, Lineage, WalkLevels, ForkedUpTo, BlocksOf;
    forall b | Removed(blocks, target, b)
      ensures b in Listed(s, lowest, target) <==> b.view !in WalkLevels(s, target.view)
    {
      LowestBound(levelOf, s, lowest, b);
      ForkedUpToHas(levelOf, s, lowest, target.view, WalkLevels(s, target.view), b);
    }
  }

  /** A removed block is not listed exactly when an ancestor of the target has its level. */
  lemma {:induction false} UnlistedIff(levelOf: Id -> View, s: Shape, lowest: View, target: Block, b: Block)
    requires WellFormed(levelOf, s, lowest) && PathFirst(s, target) && lowest <= target.view
    requires target.id in BlocksOf(s.nodes) && BlocksOf(s.nodes)[target.id] == target
    requires Removed(BlocksOf(s.nodes), target, b)
    ensures b !in Listed(s, lowest, target) <==>
            exists a :: a in Lineage(BlocksOf(s.nodes), target) && a.view == b.view
  {
    var blocks := BlocksOf(s.nodes);
    LowestBound(levelOf, s, lowest, b);
    hide WellFormed, PathFirst, BlocksOf, Lineage, AncestorLevels, WalkLevels, ForkedUpTo;
    PathFirstWalks(levelOf, s, lowest, target);
    ForkedUpToHas(levelOf, s, lowest, target.view, WalkLevels(s, target.view), b);
    AncestorLevelsAreLineage(blocks, target, b.view);
    var line := Lineage(blocks, target);
    if a :| a in line && a.view == b.view {
      var i :| 0 <= i < |line| && line[i] == a;
      assert i > 0;
    }
  }

  lemma {:induction false} LowestBound(levelOf: Id -> View, s: Shape, lowest: View, b: Block)
    requires WellFormed(levelOf, s, lowest) && b.id in BlocksOf(s.nodes) && BlocksOf(s.nodes)[b.id] == b
    ensures b.view >= lowest
  {
    FiledAtItsLevel(levelOf, s, lowest, b.id);
  }

  /**
   A commit splits what it prunes into committed and forked blocks if, and only if, no removed block
   shares a level with an ancestor of the committed one.
   */
  lemma {:induction false} PartitionIff(levelOf: Id -> View, s: Shape, lowest: View, target: Block)
    requires WellFormed(levelOf, s, lowest) && PathFirst(s, target) && lowest <= target.view
    requires target.id in BlocksOf(s.nodes) && BlocksOf(s.nodes)[target.id] == target
    ensures Partitioned(BlocksOf(s.nodes), target, Listed(s, lowest, target)) <==> AloneOnPath(BlocksOf(s.nodes), target)
  {
    var blocks, listed := BlocksOf(s.nodes), Listed(s, lowest, target);
    var line := Lineage(blocks, target);
    LineageLinked(blocks, target);
    hide WellFormed, PathFirst, Lineage, Listed, BlocksOf;
    forall b | Removed(blocks, target, b)
      ensures b !in listed <==> exists a :: a in line && a.view == b.view
    {
      UnlistedIff(levelOf, s, lowest, target, b);
    }
    forall a, b | a in line && b in line && a.view == b.view
      ensures a == b
    {
      SameViewInLine(line, a, b);
    }
  }

  lemma {:induction false} SameViewInLine(line: seq<Block>, a: Block, b: Block)
    requires Linked(line) && a in line && b in line && a.view == b.view
    ensures a == b
  {
    var i :| 0 <= i < |line| && line[i] == a;
    var j :| 0 <= j < |line| && line[j] == b;
    ViewsFall(line, i, j);
    ViewsFall(line, j, i);
  }

  lemma {:induction false} ViewsFall(line: seq<Block>, i: nat, j: nat)
    requires Linked(line) && i < |line| && j < |line|
    ensures i < j ==> line[i].view > line[j].view
    decreases j
  {
    if i < j {
      ViewsFall(line, i, j - 1);
      assert line[j - 1].view > line[j - 1 + 1].view;
    }
  }

  /** Otherwise blocks get lost: one that shares a level with an ancestor is neither committed nor listed. */
  lemma {:induction false} SharedLevelIsLost(levelOf: Id -> View, s: Shape, lowest: View, target: Block, a: Block, b: Block)
    requires WellFormed(levelOf, s, lowest) && PathFirst(s, target) && lowest <= target.view
    requires target.id in BlocksOf(s.nodes) && BlocksOf(s.nodes)[target.id] == target
    requires Removed(BlocksOf(s.nodes), target, b)
    requires a in Lineage(BlocksOf(s.nodes), target) && a.view == b.view && a != b
    ensures b !in Lineage(BlocksOf(s.nodes), target) && b !in Listed(s, lowest, target)
  {
    LineageLinked(BlocksOf(s.nodes), target);
    hide WellFormed, PathFirst, Lineage, Listed, BlocksOf;
    UnlistedIff(levelOf, s, lowest, target, b);
    if b in Lineage(BlocksOf(s.nodes), target) {
      SameViewInLine(Lineage(BlocksOf(s.nodes), target), a, b);
    }
  }

  /** With one container per level, a commit is possible and splits what it prunes, each block listed once. */
  lemma {:induction false} CommitPartition(levelOf: Id -> View, s: Shape, lowest: View, target: Block)
    requires WellFormed(levelOf, s, lowest) && OnePerLevel(s)
    requires target.id in BlocksOf(s.nodes) && BlocksOf(s.nodes)[target.id] == target
    ensures CanWalk(s, target.view) && lowest <= target.view
    ensures Partitioned(BlocksOf(s.nodes), target, Listed(s, lowest, target)) && NoDuplicates(Listed(s, lowest, target))
  {
    var blocks := BlocksOf(s.nodes);
    StoredAtItsLevel(levelOf, s, lowest, target.id);
    LineageLinked(blocks, target);
    hide WellFormed, OnePerLevel, PathFirst, Lineage, BlocksOf, ForkedUpTo, Partitioned;
    OneIsFirst(levelOf, s, lowest, target);
    PathFirstWalks(levelOf, s, lowest, target);
    ForkedOnce(levelOf, s, lowest, target.view, WalkLevels(s, target.view));
    forall a, b | Removed(blocks, target, b) && a in Lineage(blocks, target) && a.view == b.view
      ensures a == b
    {
      var line := Lineage(blocks, target);
      var i :| 0 <= i < |line| && line[i] == a;
      assert i > 0;
      StoredAtItsLevel(levelOf, s, lowest, a.id);
      StoredAtItsLevel(levelOf, s, lowest, b.id);
    }
    PartitionIff(levelOf, s, lowest, target);
  }
}
