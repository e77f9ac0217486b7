/**
 Every run of additions and prunings of a block forest (blockchain/leveled_forrest.go): both indexes
 stay in step whatever is added, and every container that was ever created is either held or was pruned.
 The runs at the end show what can go wrong: a list that leads to a pruned container, a walk that fails
 at the level of a stored block, and a block that a pruning loses.
 */
module ForestRuns {
  import opened Prelude
  import opened Chain
  import opened LevelledForests
  import opened ForestForks

  datatype Step = Add(block: Block) | Prune(level: View)

  /** A forest, and how many containers were created and pruned so far. */
  datatype Census = Census(shape: Shape, lowest: View, created: nat, pruned: nat)

  const NO_CENSUS := Census(Shape(map[], map[]), 0, 0, 0)

  ghost function CreatedBy(s: Shape, id: Id): nat {
    if id in s.nodes then 0 else 1
  }

  /** The containers that an addition creates: its own, and its parent's. */
  ghost function Created(s: Shape, lowest: View, b: Block): nat
    requires b.qc.Some?
  {
    if b.view < lowest then 0
    else
      var known := WithContainer(s, b.id, b.view);
      CreatedBy(s, b.id) +
      if known.nodes[b.id].vertex.Some? || known.nodes[b.id].level <= lowest || b.ParentView() < lowest then 0
      else CreatedBy(known, b.prevId)
  }

  /** The containers that a pruning loop counts, level by level. */
  ghost function CountedFrom(index: Index, lowest: View, level: View): nat
    requires lowest <= level
    decreases level
  {
    if lowest == level then 0 else CountedFrom(index, lowest, level - 1) + |ListAt(index, level - 1)|
  }

  /** A block is read through its certificate, so it must have one. */
  ghost predicate CanStep(s: Step) {
    s.Add? ==> s.block.qc.Some?
  }

  ghost function After(c: Census, s: Step): Census
    requires CanStep(s)
  {
    match s
    case Add(b) => Census(Added(c.shape, c.lowest, b), c.lowest, c.created + Created(c.shape, c.lowest, b), c.pruned)
    case Prune(level) =>
      if level < c.lowest then c
      else Census(PrunedShape(c.shape, level), level, c.created, c.pruned + CountedFrom(c.shape.index, c.lowest, level))
  }

  ghost function Run(ss: seq<Step>): Census
    requires forall i :: 0 <= i < |ss| ==> CanStep(ss[i])
  {
    if ss == [] then NO_CENSUS
    else
      assert CanStep(ss[|ss| - 1]);
      After(Run(ss[..|ss| - 1]), ss[|ss| - 1])
  }

  // ----- Counting

  lemma {:induction false} ContainerCounts(s: Shape, id: Id, level: View)
    ensures |WithContainer(s, id, level).nodes.Keys| == |s.nodes.Keys| + CreatedBy(s, id)
  {
    if id !in s.nodes {
      assert WithContainer(s, id, level).nodes.Keys == s.nodes.Keys + {id};
    }
  }

  lemma {:induction false} AdditionCounts(s: Shape, lowest: View, b: Block)
    requires b.qc.Some?
    ensures |Added(s, lowest, b).nodes.Keys| == |s.nodes.Keys| + Created(s, lowest, b)
  {
    var known := WithContainer(s, b.id, b.view);
    ContainerCounts(s, b.id, b.view);
    var filled := WithBlock(known, b);
    assert filled.nodes.Keys == known.nodes.Keys;
    var parented := WithContainer(filled, b.prevId, b.ParentView());
    ContainerCounts(filled, b.prevId, b.ParentView());
    assert WithChild(parented, b.prevId, b.id).nodes.Keys == parented.nodes.Keys;
  }

  /** Pruning removes exactly the containers that its loop counts. */
  lemma {:induction false} PruningCounts(s: Shape, lowest: View, level: View)
    requires IndexesAgree(s, lowest) && lowest <= level
    ensures |PrunedShape(s, level).nodes.Keys| == |s.nodes.Keys| - CountedFrom(s.index, lowest, level)
    decreases level
  {
    hide PrunedShape, IndexesAgree, ListAt, FullAt;
    if lowest == level {
      PrunedNothing(s, lowest);
    } else {
      PruningCounts(s, lowest, level - 1);
      TurnCounts(s, lowest, level - 1);
    }
  }

  /** Over every run, whatever was added: the indexes agree, and created containers are held or were pruned. */
  lemma {:induction false} RunKeeps(ss: seq<Step>)
    requires forall i :: 0 <= i < |ss| ==> CanStep(ss[i])
    ensures IndexesAgree(Run(ss).shape, Run(ss).lowest) && Run(ss).created == |Run(ss).shape.nodes.Keys| + Run(ss).pruned
    decreases |ss|
  {
    if ss != [] {
      hide IndexesAgree, Added, PrunedShape, Created, CountedFrom;
      RunKeeps(ss[..|ss| - 1]);
      var c := Run(ss[..|ss| - 1]);
      match ss[|ss| - 1]
      case Add(b) =>
        AddedAgrees(c.shape, c.lowest, b);
        AdditionCounts(c.shape, c.lowest, b);
      case Prune(level) =>
        if level >= c.lowest {
          PrunedAgrees(c.shape, c.lowest, level);
          PruningCounts(c.shape, c.lowest, level);
        }
    }
  }

  ghost predicate Consistent(levelOf: Id -> View, s: Step) {
    s.Add? ==> LevelConsistent(levelOf, s.block)
  }

  /** Over every run of blocks that have the levels of their ids, the forest is well-formed. */
  lemma {:induction false} RunWellFormed(levelOf: Id -> View, ss: seq<Step>)
    requires forall i :: 0 <= i < |ss| ==> Consistent(levelOf, ss[i]) && CanStep(ss[i])
    ensures WellFormed(levelOf, Run(ss).shape, Run(ss).lowest)
    decreases |ss|
  {
    if ss != [] {
      hide WellFormed, Added, PrunedShape, Created, CountedFrom;
      RunWellFormed(levelOf, ss[..|ss| - 1]);
      var c := Run(ss[..|ss| - 1]);
      assert Consistent(levelOf, ss[|ss| - 1]);
      match ss[|ss| - 1]
      case Add(b) => AddedWellFormed(levelOf, c.shape, c.lowest, b);
      case Prune(level) =>
        if level >= c.lowest {
          PrunedWellFormed(levelOf, c.shape, c.lowest, level);
        }
    }
  }

  // ----- What an addition leaves alone

  /** The first container of a level stays the first. */
  lemma {:induction false} FirstStays(s: Shape, lowest: View, b: Block, l: View)
    requires b.qc.Some? && ListAt(s.index, l) != []
    ensures ListAt(Added(s, lowest, b).index, l) != [] && ListAt(Added(s, lowest, b).index, l)[0] == ListAt(s.index, l)[0]
  {
  }

  /** Other containers keep level and block, and at most two are new. */
  lemma {:induction false} OthersStay(s: Shape, lowest: View, b: Block)
    requires b.qc.Some?
    ensures var nodes := Added(s, lowest, b).nodes;
            && (forall id :: id in s.nodes ==> id in nodes && nodes[id].level == s.nodes[id].level)
            && (forall id :: id in s.nodes && id != b.id ==> nodes[id].vertex == s.nodes[id].vertex)
            && (forall id :: id in nodes ==> id in s.nodes || id == b.id || id == b.prevId)
            && (forall id :: id in nodes && id != b.id && id !in s.nodes ==> nodes[id].vertex.None?)
  {
    if b.view >= lowest {
      var known := WithContainer(s, b.id, b.view);
      if known.nodes[b.id].vertex.None? {
        var filled := WithBlock(known, b);
        hide WithBlock;
        assert Added(s, lowest, b) == Registered(filled, lowest, b);
      }
    }
  }

  /** A block that is added to a forest without its containers. */
  ghost predicate NewTo(s: Shape, b: Block) {
    b.qc.Some? && b.id !in s.nodes && b.id != b.prevId && b.view > 0
  }

  lemma {:induction false} NewBlock(s: Shape, b: Block)
    requires NewTo(s, b)
    ensures var t := Added(s, 0, b);
            && b.id in t.nodes && t.nodes[b.id].vertex == Some(b) && t.nodes[b.id].level == b.view
            && b.prevId in t.nodes && b.id in t.nodes[b.prevId].children
            && (b.prevId !in s.nodes ==> t.nodes[b.prevId].level == b.ParentView() && t.nodes[b.prevId].vertex.None?)
            && (ListAt(s.index, b.view) == [] ==> ListAt(t.index, b.view) != [] && ListAt(t.index, b.view)[0] == b.id)
            && (ListAt(s.index, b.ParentView()) == [] && b.ParentView() != b.view && b.prevId !in s.nodes ==>
                  ListAt(t.index, b.ParentView()) == [b.prevId])
  {
    var t := Added(s, 0, b);
    var list := t.nodes[b.prevId].children;
    assert list[|list| - 1] == b.id;
  }

  lemma {:induction false} NewBlockStored(s: Shape, b: Block)
    requires NewTo(s, b)
    ensures BlocksOf(Added(s, 0, b).nodes) == BlocksOf(s.nodes)[b.id := b]
  {
    hide Added;
    AddedView(s, 0, b);
  }

  lemma {:induction false} TwoSteps(a: Step, b: Step)
    requires CanStep(a) && CanStep(b)
    ensures Run([a]) == After(NO_CENSUS, a) && Run([a, b]) == After(Run([a]), b)
  {
    assert [a][..0] == [] && [a, b][..1] == [a];
  }

  lemma {:induction false} ThirdStep(a: Step, b: Step, c: Step)
    requires CanStep(a) && CanStep(b) && CanStep(c)
    ensures Run([a, b, c]) == After(Run([a, b]), c)
  {
    assert [a, b, c][..2] == [a, b];
  }

  // ----- What can go wrong

  /** Two blocks: the parent of the lower one is stated to lie at or above the higher one. */
  ghost predicate Inverted(c: Block, a: Block) {
    && c.qc.Some? && a.qc.Some? && 0 < a.view < c.view <= a.ParentView()
    && NoDuplicates([c.id, c.prevId, a.id, a.prevId])
  }

  lemma {:induction false} InvertedAdded(c: Block, a: Block)
    requires Inverted(c, a)
    ensures var s := Run([Add(c), Add(a)]).shape;
            && Run([Add(c), Add(a)]).lowest == 0 && CanWalk(s, c.view)
            && a.id in s.nodes && s.nodes[a.id].level == a.view
            && a.prevId in s.nodes && s.nodes[a.prevId].level == a.ParentView() && a.id in s.nodes[a.prevId].children
  {
    var none := Shape(map[], map[]);
    var ids := [c.id, c.prevId, a.id, a.prevId];
    assert ids[0] != ids[1] && ids[0] != ids[2] && ids[0] != ids[3];
    assert ids[1] != ids[2] && ids[1] != ids[3] && ids[2] != ids[3];
    TwoSteps(Add(c), Add(a));
    var one := Added(none, 0, c);
    var two := Added(one, 0, a);
    NewBlock(none, c);
    OthersStay(none, 0, c);
    NewBlock(one, a);
    OthersStay(one, 0, a);
    FirstStays(one, 0, a, c.view);
    hide Added, Run;
    assert BlockAt(two, c.view) == Some(c);
    assert StoredParent(two, c.view) == None;
  }

  /** A children list that leads to a pruned container: a pruning takes the child, and leaves the parent. */
  lemma {:induction false} ListLeadsNowhere(c: Block, a: Block)
    requires Inverted(c, a)
    ensures var ss := [Add(c), Add(a), Prune(c.view)];
            CanWalk(Run([Add(c), Add(a)]).shape, c.view) && !Closed(Run(ss).shape.nodes)
  {
    InvertedAdded(c, a);
    ThirdStep(Add(c), Add(a), Prune(c.view));
    hide Run, CountedFrom, CanWalk;
    var s := Run([Add(c), Add(a)]).shape;
    var kept := PrunedShape(s, c.view).nodes;
    assert a.prevId in kept && a.id in kept[a.prevId].children && a.id !in kept;
  }

  /** A block of view 3 whose parent is not known yet, and another block of the parent's view. */
  ghost predicate Stepparent(levelOf: Id -> View, t: Block, x: Block) {
    && LevelConsistent(levelOf, t) && LevelConsistent(levelOf, x)
    && t.view == 3 && x.view == 2 == t.ParentView() && x.id != t.prevId
  }

  /** A walk that fails at the level of a stored block, which cannot be committed then. */
  lemma {:induction false} WalkFails(levelOf: Id -> View, t: Block, x: Block)
    requires Stepparent(levelOf, t, x)
    ensures var s := Run([Add(t), Add(x)]).shape;
            x.id in BlocksOf(s.nodes) && BlocksOf(s.nodes)[x.id] == x && !CanWalk(s, x.view)
  {
    var none := Shape(map[], map[]);
    TwoSteps(Add(t), Add(x));
    var one := Added(none, 0, t);
    NewBlock(none, t);
    OthersStay(none, 0, t);
    NewBlock(one, x);
    OthersStay(one, 0, x);
    FirstStays(one, 0, x, 2);
    hide Added, Run;
    assert BlockAt(Added(one, 0, x), 2) == None;
  }

  /** Two blocks of view 2, and one of view 3 on the first. */
  ghost predicate Rivals(levelOf: Id -> View, a: Block, x: Block, t: Block) {
    && LevelConsistent(levelOf, a) && LevelConsistent(levelOf, x) && LevelConsistent(levelOf, t)
    && a.view == x.view == 2 && a.id != x.id && t.view == 3 && t.prevId == a.id
  }

  lemma {:induction false} FirstRivals(levelOf: Id -> View, a: Block, x: Block, t: Block)
    requires Rivals(levelOf, a, x, t)
    ensures var s := Added(Added(Shape(map[], map[]), 0, a), 0, x);
            && BlocksOf(s.nodes) == map[a.id := a, x.id := x] && t.id !in s.nodes && a.id in s.nodes
            && ListAt(s.index, 2) != [] && ListAt(s.index, 2)[0] == a.id && ListAt(s.index, 3) == []
  {
    hide Added, BlocksOf;
    var none := Shape(map[], map[]);
    var one := Added(none, 0, a);
    NewBlock(none, a);
    NewBlockStored(none, a);
    OthersStay(none, 0, a);
    NewBlockStored(one, x);
    OthersStay(one, 0, x);
    NoneAtThree(levelOf, a, x);
    FirstStays(one, 0, x, 2);
    NothingStored();
    assert map[][a.id := a][x.id := x] == map[a.id := a, x.id := x];
  }

  lemma {:induction false} NothingStored()
    ensures BlocksOf(map[]) == map[]
  {
  }

  lemma {:induction false} ThirdRival(s: Shape, a: Block, t: Block)
    requires NewTo(s, t) && t.view == 3 && a.view == 2 && t.prevId == a.id && a.id in s.nodes
    requires a.id in BlocksOf(s.nodes) && BlocksOf(s.nodes)[a.id] == a
    requires ListAt(s.index, 2) != [] && ListAt(s.index, 2)[0] == a.id && ListAt(s.index, 3) == []
    ensures var u := Added(s, 0, t);
            BlocksOf(u.nodes) == BlocksOf(s.nodes)[t.id := t] && BlockAt(u, 2) == Some(a) && BlockAt(u, 3) == Some(t)
  {
    hide Added;
    NewBlock(s, t);
    NewBlockStored(s, t);
    OthersStay(s, 0, t);
    FirstStays(s, 0, t, 2);
  }

  lemma {:induction false} RivalsAdded(levelOf: Id -> View, a: Block, x: Block, t: Block)
    requires Rivals(levelOf, a, x, t)
    ensures var s := Run([Add(a), Add(x), Add(t)]).shape;
            && Run([Add(a), Add(x), Add(t)]).lowest == 0
            && BlocksOf(s.nodes) == map[a.id := a, x.id := x, t.id := t]
            && BlockAt(s, 2) == Some(a) && BlockAt(s, 3) == Some(t)
  {
    TwoSteps(Add(a), Add(x));
    ThirdStep(Add(a), Add(x), Add(t));
    hide Added, Run, BlockAt, ListAt, Created;
    FirstRivals(levelOf, a, x, t);
    ThirdRival(Added(Added(Shape(map[], map[]), 0, a), 0, x), a, t);
    assert map[a.id := a, x.id := x][t.id := t] == map[a.id := a, x.id := x, t.id := t];
  }

  lemma {:induction false} NoneAtThree(levelOf: Id -> View, a: Block, x: Block)
    requires LevelConsistent(levelOf, a) && LevelConsistent(levelOf, x) && a.view == x.view == 2
    ensures ListAt(Added(Added(Shape(map[], map[]), 0, a), 0, x).index, 3) == []
  {
  }

  /** A pruning that loses a block: the second one of view 2 is neither committed nor listed as forked. */
  lemma {:induction false} BlockIsLost(levelOf: Id -> View, a: Block, x: Block, t: Block)
    requires Rivals(levelOf, a, x, t)
    ensures var s := Run([Add(a), Add(x), Add(t)]).shape;
            && WellFormed(levelOf, s, 0) && CanWalk(s, t.view) && Removed(BlocksOf(s.nodes), t, x)
            && x !in Lineage(BlocksOf(s.nodes), t) && x !in Listed(s, 0, t)
  {
    hide Run, WellFormed, BlockAt, PathFirst, Lineage, Listed, CanWalk, WalkLevels, LevelConsistent, BlocksOf;
    var ss := [Add(a), Add(x), Add(t)];
    RivalsAdded(levelOf, a, x, t);
    assert forall i :: 0 <= i < |ss| ==> Consistent(levelOf, ss[i]) && CanStep(ss[i]) by { RivalSteps(levelOf, a, x, t); }
    RunWellFormed(levelOf, ss);
    var s := Run(ss).shape;
    RivalsFirst(levelOf, s, a, x, t);
    PathFirstWalks(levelOf, s, 0, t);
    SharedLevelIsLost(levelOf, s, 0, t, a, x);
  }

  lemma {:induction false} RivalSteps(levelOf: Id -> View, a: Block, x: Block, t: Block)
    requires Rivals(levelOf, a, x, t)
    ensures forall s :: s in [Add(a), Add(x), Add(t)] ==> Consistent(levelOf, s) && CanStep(s)
  {
  }

  lemma {:induction false} RivalsFirst(levelOf: Id -> View, s: Shape, a: Block, x: Block, t: Block)
    requires Rivals(levelOf, a, x, t) && BlocksOf(s.nodes) == map[a.id := a, x.id := x, t.id := t]
    requires BlockAt(s, 2) == Some(a) && BlockAt(s, 3) == Some(t)
    ensures PathFirst(s, t) && a in Lineage(BlocksOf(s.nodes), t) && Removed(BlocksOf(s.nodes), t, x)
  {
    hide BlockAt;
    var blocks := BlocksOf(s.nodes);
    hide BlocksOf;
    assert PathFirst(s, a);
    assert Lineage(blocks, t) == [t] + Lineage(blocks, a);
  }
}
