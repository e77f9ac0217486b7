/**
 Blocks that name their parent, and the part of a block forest that a replica can see
 (blockchain/vertex.go, blockchain/container.go, blockchain/leveled_forrest.go), as values.
 Views are not negative, so a view and its level are the same number.
 */
module Chain {
  import opened Prelude

  type Id = nat

  type View = nat

  /** The identifier that the first certificate of all is for; no block has it. */
  const GENESIS: Id := 0

  /** Who signed, and the signature. */
  datatype Signature = Signature(signer: NodeId, sig: nat)

  /**
   A certificate. Its two lists, signatures and signers, are a set of pairs: nothing depends on their
   order, and nothing counts them.
   */
  datatype QC = QC(leader: NodeId, view: View, blockId: Id, sigs: set<Signature>) {
    function Signers(): set<NodeId> {
      set s | s in sigs :: s.signer
    }
  }

  datatype Block = Block(id: Id, view: View, prevId: Id, proposer: NodeId, qc: Option<QC>) {
    /** The view of the parent, as the block's certificate states it. */
    function ParentView(): View
      requires qc.Some?
    {
      qc.value.view
    }
  }

  /** The blocks that are stored, by id. */
  type Blocks = map<Id, Block>

  function ParentOf(blocks: Blocks, id: Id): Option<Block> {
    if id in blocks && blocks[id].prevId in blocks then Some(blocks[blocks[id].prevId]) else None
  }

  // ----- Levels

  /** Ids determine views: a block has the view of its id, and states the view of its parent's id. */
  ghost predicate LevelConsistent(levelOf: Id -> View, b: Block) {
    && b.qc.Some?
    && b.view == levelOf(b.id)
    && b.ParentView() == levelOf(b.prevId)
    && b.ParentView() < b.view
  }

  ghost predicate AllConsistent(levelOf: Id -> View, blocks: Blocks) {
    forall id :: id in blocks ==> blocks[id].id == id && LevelConsistent(levelOf, blocks[id])
  }

  // ----- Ancestors

  /** The block and its stored ancestors, newest first. */
  function Lineage(blocks: Blocks, b: Block): (r: seq<Block>)
    ensures |r| >= 1 && r[0] == b
    decreases b.view
  {
    if b.prevId in blocks && blocks[b.prevId].view < b.view then [b] + Lineage(blocks, blocks[b.prevId]) else [b]
  }

  /**
   The block and its stored ancestors down to, and without, the level that was committed last. No block
   comes up twice, as an identifier is a hash of the block with its parent's identifier.
   */
  function CommitPath(blocks: Blocks, lowest: View, b: Block): (r: seq<Block>)
    decreases blocks.Keys
  {
    if b.view <= lowest then []
    else if b.prevId in blocks then [b] + CommitPath(blocks - {b.prevId}, lowest, blocks[b.prevId])
    else [b]
  }

  /** A stored block lies below its stored children. */
  ghost predicate ParentsBelow(blocks: Blocks) {
    && (forall id :: id in blocks ==> blocks[id].id == id)
    && (forall id :: id in blocks && blocks[id].prevId in blocks ==> blocks[blocks[id].prevId].view < blocks[id].view)
  }

  lemma {:induction false} ConsistentParentsBelow(levelOf: Id -> View, blocks: Blocks)
    requires AllConsistent(levelOf, blocks)
    ensures ParentsBelow(blocks)
  {
    forall id | id in blocks && blocks[id].prevId in blocks
      ensures blocks[blocks[id].prevId].view < blocks[id].view
    {
      assert LevelConsistent(levelOf, blocks[id]) && LevelConsistent(levelOf, blocks[blocks[id].prevId]);
    }
  }

  /** Every stored ancestor of a block lies below its child. */
  ghost predicate Descending(blocks: Blocks, b: Block)
    decreases b.view
  {
    b.prevId in blocks ==> blocks[b.prevId].view < b.view && Descending(blocks, blocks[b.prevId])
  }

  lemma {:induction false} BelowDescends(blocks: Blocks, b: Block)
    requires ParentsBelow(blocks) && (b.prevId in blocks ==> blocks[b.prevId].view < b.view)
    ensures Descending(blocks, b)
    decreases b.view
  {
    if b.prevId in blocks {
      BelowDescends(blocks, blocks[b.prevId]);
    }
  }

  lemma {:induction false} FewerDescend(blocks: Blocks, fewer: Blocks, b: Block)
    requires Descending(blocks, b) && forall id :: id in fewer ==> id in blocks && fewer[id] == blocks[id]
    ensures Descending(fewer, b)
    decreases b.view
  {
    if b.prevId in fewer {
      FewerDescend(blocks, fewer, blocks[b.prevId]);
    }
  }

  /** Blocks that are not below a block do not matter for its path. */
  lemma {:induction false} PathWithout(blocks: Blocks, x: Id, lowest: View, b: Block)
    requires Descending(blocks, b) && x in blocks && blocks[x].view >= b.view
    ensures CommitPath(blocks - {x}, lowest, b) == CommitPath(blocks, lowest, b)
    decreases blocks.Keys
  {
    if b.view > lowest && b.prevId in blocks {
      assert blocks - {x} - {b.prevId} == blocks - {b.prevId} - {x};
      FewerDescend(blocks, blocks - {b.prevId}, blocks[b.prevId]);
      PathWithout(blocks - {b.prevId}, x, lowest, blocks[b.prevId]);
    }
  }

  /** Where ancestors lie below their children, a path goes on with the path of the parent. */
  lemma {:induction false} PathUnfolds(blocks: Blocks, lowest: View, b: Block)
    requires Descending(blocks, b)
    ensures CommitPath(blocks, lowest, b) ==
            if b.view <= lowest then []
            else if b.prevId in blocks then [b] + CommitPath(blocks, lowest, blocks[b.prevId])
            else [b]
  {
    if b.view > lowest && b.prevId in blocks {
      PathWithout(blocks, b.prevId, lowest, blocks[b.prevId]);
    }
  }

  function IdsOf(path: seq<Block>): set<Id> {
    set i | 0 <= i < |path| :: path[i].id
  }

  /** Newest first, each block the child of the next one. */
  ghost predicate Linked(path: seq<Block>) {
    forall i :: 0 <= i < |path| - 1 ==> path[i].prevId == path[i + 1].id && path[i].view > path[i + 1].view
  }

  lemma {:induction false} LineageLinked(blocks: Blocks, b: Block)
    requires forall id :: id in blocks ==> blocks[id].id == id
    ensures Linked(Lineage(blocks, b))
    ensures forall i :: 0 < i < |Lineage(blocks, b)| ==>
              Lineage(blocks, b)[i].view < b.view && Lineage(blocks, b)[i].id in blocks
              && blocks[Lineage(blocks, b)[i].id] == Lineage(blocks, b)[i]
    decreases b.view
  {
    if b.prevId in blocks && blocks[b.prevId].view < b.view {
      LineageLinked(blocks, blocks[b.prevId]);
    }
  }

  /** The commit path is the lineage cut off at the level that was committed last. */
  lemma {:induction false} CommitPathIsLineage(blocks: Blocks, lowest: View, b: Block)
    requires Descending(blocks, b) && forall id :: id in blocks ==> blocks[id].id == id
    ensures CommitPath(blocks, lowest, b) <= Lineage(blocks, b)
    ensures forall i :: 0 <= i < |Lineage(blocks, b)| ==>
              (i < |CommitPath(blocks, lowest, b)| <==> Lineage(blocks, b)[i].view > lowest)
    decreases b.view
  {
    LineageLinked(blocks, b);
    PathUnfolds(blocks, lowest, b);
    hide CommitPath;
    if b.view > lowest && b.prevId in blocks {
      CommitPathIsLineage(blocks, lowest, blocks[b.prevId]);
    }
  }

  // ----- The forest as a value

  /** What a forest holds: the level of every container, and the blocks of the full ones. */
  datatype Forest = Forest(lowest: View, levels: map<Id, View>, full: Blocks)

  const NO_FOREST := Forest(0, map[], map[])

  /** Adds a block, and an empty container for its parent unless that lies below the lowest level. */
  function WithVertex(f: Forest, b: Block): Forest
    requires b.qc.Some?
  {
    if b.view < f.lowest || b.id in f.full then f
    else
      var levels := if b.id in f.levels then f.levels else f.levels[b.id := b.view];
      Forest(f.lowest,
             if levels[b.id] <= f.lowest || b.ParentView() < f.lowest || b.prevId in levels then levels
             else levels[b.prevId := b.ParentView()],
             f.full[b.id := b])
  }

  function LevelsFrom(levels: map<Id, View>, level: View): map<Id, View> {
    map id | id in levels && levels[id] >= level :: levels[id]
  }

  /** The blocks whose containers lie at or above a level, whatever view the blocks state. */
  function BlocksFrom(f: Forest, level: View): Blocks {
    map id | id in f.full && id in f.levels && f.levels[id] >= level :: f.full[id]
  }

  function Pruned(f: Forest, level: View): Forest {
    Forest(level, LevelsFrom(f.levels, level), BlocksFrom(f, level))
  }

  /** Every block is filed under its id, in a container, and none lies below the lowest level. */
  ghost predicate Placed(f: Forest) {
    && (forall id :: id in f.full ==> f.full[id].id == id && id in f.levels)
    && (forall id :: id in f.levels ==> f.levels[id] >= f.lowest)
  }

  /** Blocks and containers have the levels that belong to their ids. */
  ghost predicate Levelled(levelOf: Id -> View, f: Forest) {
    AllConsistent(levelOf, f.full) && Placed(f) && forall id :: id in f.levels ==> f.levels[id] == levelOf(id)
  }

  lemma {:induction false} PrunedAtLowest(f: Forest)
    requires Placed(f)
    ensures Pruned(f, f.lowest) == f
  {
    assert LevelsFrom(f.levels, f.lowest) == f.levels;
    assert BlocksFrom(f, f.lowest) == f.full;
  }

  /** The views of the stored ancestors, as far as they are followed when forks are sought. */
  ghost function AncestorLevels(blocks: Blocks, b: Block): set<View>
    decreases b.view
  {
    if b.view > 1 && b.prevId in blocks && blocks[b.prevId].view < b.view then
      {blocks[b.prevId].view} + AncestorLevels(blocks, blocks[b.prevId])
    else {}
  }

  lemma {:induction false} AncestorLevelsAreLineage(blocks: Blocks, b: Block, level: View)
    requires level > 1
    ensures level in AncestorLevels(blocks, b) <==>
            exists i :: 0 < i < |Lineage(blocks, b)| && Lineage(blocks, b)[i].view == level
    decreases b.view
  {
    var line := Lineage(blocks, b);
    if b.prevId in blocks && blocks[b.prevId].view < b.view {
      var p := blocks[b.prevId];
      var up := Lineage(blocks, p);
      assert line == [b] + up;
      AncestorLevelsAreLineage(blocks, p, level);
      assert forall i :: 0 <= i < |up| ==> line[i + 1] == up[i];
      if i :| 0 < i < |up| && up[i].view == level {
        assert line[i + 1].view == level;
      }
      if i :| 0 < i < |line| && line[i].view == level {
        assert up[i - 1].view == level;
        LevelsBelow(blocks, p, i - 1);
      }
      if p.view == level {
        assert line[1].view == level;
      }
    }
  }

  lemma {:induction false} LevelsBelow(blocks: Blocks, b: Block, i: nat)
    requires i < |Lineage(blocks, b)|
    ensures Lineage(blocks, b)[i].view <= b.view
    decreases b.view
  {
    if i > 0 {
      LevelsBelow(blocks, blocks[b.prevId], i - 1);
    }
  }
}
