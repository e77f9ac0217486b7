/**
 The block forest (blockchain/leveled_forrest.go): containers are found by id and by level,
 point to the containers of their children, and are pruned level by level.
 */
module LevelledForests {
  import opened Prelude
  import opened Chain

  // ----- The shape of a forest, with ids in the place of pointers

  /** A container is full when its block is known, and empty while only children of it are. */
  datatype Node = Node(level: View, children: seq<Id>, vertex: Option<Block>)

  type Nodes = map<Id, Node>

  type Index = map<View, seq<Id>>

  datatype Shape = Shape(nodes: Nodes, index: Index)

  /** The id map and the level index hold the same containers, each once, none below the bound. */
  ghost predicate IndexesAgree(s: Shape, lowest: View) {
    && (forall id :: id in s.nodes ==>
          s.nodes[id].level >= lowest && s.nodes[id].level in s.index && id in s.index[s.nodes[id].level])
    && (forall l :: l in s.index ==> l >= lowest && NoDuplicates(s.index[l]))
    && (forall l, id :: l in s.index && id in s.index[l] ==> id in s.nodes && s.nodes[id].level == l)
  }

  /** The containers also have the levels that belong to their ids. */
  ghost predicate Indexed(levelOf: Id -> View, s: Shape, lowest: View) {
    IndexesAgree(s, lowest) && forall id :: id in s.nodes ==> s.nodes[id].level == levelOf(id)
  }

  ghost predicate BlocksFiled(levelOf: Id -> View, nodes: Nodes) {
    forall id :: id in nodes && nodes[id].vertex.Some? ==>
      nodes[id].vertex.value.id == id && LevelConsistent(levelOf, nodes[id].vertex.value)
  }

  /** A children list holds no one twice, and only full containers that name it as parent. */
  ghost predicate ChildrenListed(nodes: Nodes) {
    && (forall id :: id in nodes ==> NoDuplicates(nodes[id].children))
    && (forall id, c :: id in nodes && c in nodes[id].children ==>
          c in nodes && nodes[c].vertex.Some? && nodes[c].vertex.value.prevId == id)
  }

  /** A full container whose parent is not below the bound is listed by its parent. */
  ghost predicate ParentKnown(nodes: Nodes, lowest: View, id: Id)
    requires id in nodes
  {
    match nodes[id].vertex
    case None => true
    case Some(b) => b.qc.Some? && b.ParentView() >= lowest ==> b.prevId in nodes && id in nodes[b.prevId].children
  }

  ghost predicate ParentsKnown(nodes: Nodes, lowest: View) {
    forall id :: id in nodes ==> ParentKnown(nodes, lowest, id)
  }

  ghost predicate WellFormed(levelOf: Id -> View, s: Shape, lowest: View) {
    && Indexed(levelOf, s, lowest)
    && BlocksFiled(levelOf, s.nodes)
    && ChildrenListed(s.nodes)
    && ParentsKnown(s.nodes, lowest)
  }

  ghost function LevelsOf(nodes: Nodes): map<Id, View> {
    map id | id in nodes :: nodes[id].level
  }

  ghost function BlocksOf(nodes: Nodes): Blocks {
    map id | id in nodes && nodes[id].vertex.Some? :: nodes[id].vertex.value
  }

  ghost function ViewOf(s: Shape, lowest: View): Forest {
    Forest(lowest, LevelsOf(s.nodes), BlocksOf(s.nodes))
  }

  // ----- Adding

  ghost function ListAt(index: Index, level: View): seq<Id> {
    if level in index then index[level] else []
  }

  ghost function WithContainer(s: Shape, id: Id, level: View): (r: Shape)
    ensures id in r.nodes
  {
    if id in s.nodes then s
    else Shape(s.nodes[id := Node(level, [], None)], s.index[level := ListAt(s.index, level) + [id]])
  }

  ghost function WithBlock(s: Shape, b: Block): Shape
    requires b.id in s.nodes
  {
    s.(nodes := s.nodes[b.id := s.nodes[b.id].(vertex := Some(b))])
  }

  ghost function WithChild(s: Shape, parent: Id, child: Id): Shape
    requires parent in s.nodes
  {
    s.(nodes := s.nodes[parent := s.nodes[parent].(children := s.nodes[parent].children + [child])])
  }

  ghost function Registered(s: Shape, lowest: View, b: Block): Shape
    requires b.qc.Some? && b.id in s.nodes
  {
    if s.nodes[b.id].level <= lowest || b.ParentView() < lowest then s
    else WithChild(WithContainer(s, b.prevId, b.ParentView()), b.prevId, b.id)
  }

  ghost function Added(s: Shape, lowest: View, b: Block): Shape
    requires b.qc.Some?
  {
    if b.view < lowest then s
    else
      var known := WithContainer(s, b.id, b.view);
      if known.nodes[b.id].vertex.Some? then known else Registered(WithBlock(known, b), lowest, b)
  }

  lemma {:induction false} ListGrows(index: Index, level: View, id: Id)
    requires id !in ListAt(index, level)
    ensures var grown := index[level := ListAt(index, level) + [id]];
            && (forall l, x :: l in grown && x in grown[l] <==> (l == level && x == id) || (l in index && x in index[l]))
            && (NoDuplicates(ListAt(index, level)) ==> NoDuplicates(grown[level]))
  {
    var list := ListAt(index, level);
    assert (list + [id])[|list|] == id;
    assert forall x :: x in list + [id] <==> x in list || x == id;
  }

  lemma {:induction false} ContainerAgrees(s: Shape, lowest: View, id: Id, level: View)
    requires IndexesAgree(s, lowest) && level >= lowest
    ensures IndexesAgree(WithContainer(s, id, level), lowest)
  {
    if id !in s.nodes {
      ListGrows(s.index, level, id);
    }
  }

  lemma {:induction false} ContainerIndexed(levelOf: Id -> View, s: Shape, lowest: View, id: Id)
    requires Indexed(levelOf, s, lowest) && levelOf(id) >= lowest
    ensures Indexed(levelOf, WithContainer(s, id, levelOf(id)), lowest)
  {
    ContainerAgrees(s, lowest, id, levelOf(id));
  }

  lemma {:induction false} SameLevelsAgree(s: Shape, t: Shape, lowest: View)
    requires IndexesAgree(s, lowest) && t.index == s.index
    requires s.nodes.Keys == t.nodes.Keys && forall id :: id in s.nodes ==> s.nodes[id].level == t.nodes[id].level
    ensures IndexesAgree(t, lowest)
  {
  }

  /** An addition keeps the two indexes in step, whatever levels the block states. */
  lemma {:induction false} AddedAgrees(s: Shape, lowest: View, b: Block)
    requires IndexesAgree(s, lowest) && b.qc.Some?
    ensures IndexesAgree(Added(s, lowest, b), lowest)
  {
    hide IndexesAgree;
    if b.view >= lowest {
      ContainerAgrees(s, lowest, b.id, b.view);
      var known := WithContainer(s, b.id, b.view);
      if known.nodes[b.id].vertex.None? {
        var filled := WithBlock(known, b);
        SameLevelsAgree(known, filled, lowest);
        if filled.nodes[b.id].level > lowest && b.ParentView() >= lowest {
          ContainerAgrees(filled, lowest, b.prevId, b.ParentView());
          var parented := WithContainer(filled, b.prevId, b.ParentView());
          SameLevelsAgree(parented, WithChild(parented, b.prevId, b.id), lowest);
        }
      }
    }
  }

  /** Everything is filed and listed, except that the parent of one container may not know it yet. */
  ghost predicate FiledBut(levelOf: Id -> View, nodes: Nodes, lowest: View, except: Id) {
    && BlocksFiled(levelOf, nodes)
    && ChildrenListed(nodes)
    && (forall id :: id in nodes && id != except ==> ParentKnown(nodes, lowest, id))
    && (forall id :: id in nodes ==> except !in nodes[id].children)
  }

  /** A new empty container changes no block and no list. */
  lemma {:induction false} ContainerFiled(levelOf: Id -> View, s: Shape, lowest: View, except: Id, id: Id, level: View)
    requires FiledBut(levelOf, s.nodes, lowest, except)
    ensures FiledBut(levelOf, WithContainer(s, id, level).nodes, lowest, except)
  {
    var grown := WithContainer(s, id, level).nodes;
    forall x | x in grown && x != except
      ensures ParentKnown(grown, lowest, x)
    {
      assert x in s.nodes ==> ParentKnown(s.nodes, lowest, x);
    }
  }

  lemma {:induction false} ContainerView(s: Shape, lowest: View, id: Id, level: View)
    ensures ViewOf(WithContainer(s, id, level), lowest)
         == if id in s.nodes then ViewOf(s, lowest) else ViewOf(s, lowest).(levels := LevelsOf(s.nodes)[id := level])
  {
    var grown := WithContainer(s, id, level).nodes;
    assert BlocksOf(grown) == BlocksOf(s.nodes);
    assert id !in s.nodes ==> LevelsOf(grown) == LevelsOf(s.nodes)[id := level];
  }

  /** An empty container is no one's child. */
  lemma {:induction false} EmptyIsNoChild(levelOf: Id -> View, nodes: Nodes, lowest: View, id: Id)
    requires BlocksFiled(levelOf, nodes) && ChildrenListed(nodes) && ParentsKnown(nodes, lowest)
    requires id in nodes ==> nodes[id].vertex.None?
    ensures FiledBut(levelOf, nodes, lowest, id)
  {
  }

  lemma {:induction false} BlockFiled(levelOf: Id -> View, nodes: Nodes, lowest: View, b: Block, filled: Nodes)
    requires FiledBut(levelOf, nodes, lowest, b.id) && LevelConsistent(levelOf, b)
    requires b.id in nodes && nodes[b.id].vertex.None? && filled == nodes[b.id := nodes[b.id].(vertex := Some(b))]
    ensures FiledBut(levelOf, filled, lowest, b.id)
  {
    forall x | x in filled && x != b.id
      ensures ParentKnown(filled, lowest, x)
    {
      assert ParentKnown(nodes, lowest, x);
    }
  }

  lemma {:induction false} BlockView(s: Shape, lowest: View, b: Block)
    requires b.id in s.nodes
    ensures ViewOf(WithBlock(s, b), lowest) == ViewOf(s, lowest).(full := BlocksOf(s.nodes)[b.id := b])
  {
    var filled := WithBlock(s, b).nodes;
    assert BlocksOf(filled) == BlocksOf(s.nodes)[b.id := b];
    assert LevelsOf(filled) == LevelsOf(s.nodes);
  }

  /** Once its parent lists it, the last container is filed too. */
  lemma {:induction false} ChildListed(nodes: Nodes, b: Block, listed: Nodes)
    requires ChildrenListed(nodes) && b.prevId in nodes && b.id !in nodes[b.prevId].children
    requires b.id in nodes && nodes[b.id].vertex == Some(b)
    requires listed == nodes[b.prevId := nodes[b.prevId].(children := nodes[b.prevId].children + [b.id])]
    ensures ChildrenListed(listed)
  {
    assert forall id, c :: id in listed && c in listed[id].children ==>
             (id == b.prevId && c == b.id) || c in nodes[id].children;
  }

  lemma {:induction false} ChildFiled(levelOf: Id -> View, nodes: Nodes, lowest: View, b: Block, listed: Nodes)
    requires FiledBut(levelOf, nodes, lowest, b.id)
    requires b.id in nodes && nodes[b.id].vertex == Some(b) && b.prevId in nodes
    requires listed == nodes[b.prevId := nodes[b.prevId].(children := nodes[b.prevId].children + [b.id])]
    ensures BlocksFiled(levelOf, listed) && ParentsKnown(listed, lowest)
  {
    var list := listed[b.prevId].children;
    assert list[|list| - 1] == b.id;
    forall x | x in listed
      ensures ParentKnown(listed, lowest, x)
    {
      if x != b.id {
        assert ParentKnown(nodes, lowest, x);
      }
    }
  }

  lemma {:induction false} ChildView(s: Shape, lowest: View, parent: Id, child: Id)
    requires parent in s.nodes
    ensures ViewOf(WithChild(s, parent, child), lowest) == ViewOf(s, lowest)
  {
    var listed := WithChild(s, parent, child).nodes;
    assert BlocksOf(listed) == BlocksOf(s.nodes);
    assert LevelsOf(listed) == LevelsOf(s.nodes);
  }

  lemma {:induction false} ListedWellFormed(levelOf: Id -> View, s: Shape, lowest: View, b: Block)
    requires Indexed(levelOf, s, lowest) && FiledBut(levelOf, s.nodes, lowest, b.id)
    requires b.id in s.nodes && s.nodes[b.id].vertex == Some(b) && b.prevId in s.nodes
    ensures WellFormed(levelOf, WithChild(s, b.prevId, b.id), lowest)
  {
    var listed := WithChild(s, b.prevId, b.id);
    ChildListed(s.nodes, b, listed.nodes);
    ChildFiled(levelOf, s.nodes, lowest, b, listed.nodes);
    SameLevelsIndexed(levelOf, s, listed, lowest);
  }

  lemma {:induction false} RegisteredWellFormed(levelOf: Id -> View, s: Shape, lowest: View, b: Block)
    requires Indexed(levelOf, s, lowest) && FiledBut(levelOf, s.nodes, lowest, b.id) && LevelConsistent(levelOf, b)
    requires b.id in s.nodes && s.nodes[b.id].vertex == Some(b)
    ensures WellFormed(levelOf, Registered(s, lowest, b), lowest)
  {
    if b.ParentView() >= lowest {
      ContainerIndexed(levelOf, s, lowest, b.prevId);
      ContainerFiled(levelOf, s, lowest, b.id, b.prevId, b.ParentView());
      ListedWellFormed(levelOf, WithContainer(s, b.prevId, b.ParentView()), lowest, b);
    } else {
      assert ParentKnown(s.nodes, lowest, b.id);
    }
  }

  lemma {:induction false} SameLevelsIndexed(levelOf: Id -> View, s: Shape, t: Shape, lowest: View)
    requires Indexed(levelOf, s, lowest) && t.index == s.index
    requires s.nodes.Keys == t.nodes.Keys && forall id :: id in s.nodes ==> s.nodes[id].level == t.nodes[id].level
    ensures Indexed(levelOf, t, lowest)
  {
    hide IndexesAgree;
    SameLevelsAgree(s, t, lowest);
  }

  lemma {:induction false} FiledWellFormed(levelOf: Id -> View, s: Shape, lowest: View, b: Block)
    requires Indexed(levelOf, s, lowest) && FiledBut(levelOf, s.nodes, lowest, b.id) && LevelConsistent(levelOf, b)
    requires b.id in s.nodes && s.nodes[b.id].vertex.None?
    ensures WellFormed(levelOf, Registered(WithBlock(s, b), lowest, b), lowest)
  {
    var filled := WithBlock(s, b);
    BlockFiled(levelOf, s.nodes, lowest, b, filled.nodes);
    SameLevelsIndexed(levelOf, s, filled, lowest);
    RegisteredWellFormed(levelOf, filled, lowest, b);
  }

  lemma {:induction false} AddedWellFormed(levelOf: Id -> View, s: Shape, lowest: View, b: Block)
    requires WellFormed(levelOf, s, lowest) && LevelConsistent(levelOf, b)
    ensures WellFormed(levelOf, Added(s, lowest, b), lowest)
  {
    if b.view >= lowest && !(b.id in s.nodes && s.nodes[b.id].vertex.Some?) {
      EmptyIsNoChild(levelOf, s.nodes, lowest, b.id);
      ContainerIndexed(levelOf, s, lowest, b.id);
      ContainerFiled(levelOf, s, lowest, b.id, b.id, b.view);
      FiledWellFormed(levelOf, WithContainer(s, b.id, b.view), lowest, b);
    }
  }

  /** The block lies below the lowest level, or a block of its id is filed. */
  ghost predicate Ignored(s: Shape, lowest: View, b: Block) {
    b.view < lowest || (b.id in s.nodes && s.nodes[b.id].vertex.Some?)
  }

  /** An addition keeps a forest well-formed if, and only if, it is ignored or has the levels of its ids. */
  lemma {:induction false} AddedWellFormedIff(levelOf: Id -> View, s: Shape, lowest: View, b: Block)
    requires WellFormed(levelOf, s, lowest) && b.qc.Some?
    ensures WellFormed(levelOf, Added(s, lowest, b), lowest) <==> Ignored(s, lowest, b) || LevelConsistent(levelOf, b)
  {
    if LevelConsistent(levelOf, b) {
      AddedWellFormed(levelOf, s, lowest, b);
    } else if !Ignored(s, lowest, b) {
      FiledBlock(s, lowest, b);
    }
  }

  lemma {:induction false} FiledBlock(s: Shape, lowest: View, b: Block)
    requires b.qc.Some? && !Ignored(s, lowest, b)
    ensures b.id in Added(s, lowest, b).nodes && Added(s, lowest, b).nodes[b.id].vertex == Some(b)
  {
  }

  lemma {:induction false} RegisteredView(s: Shape, lowest: View, b: Block)
    requires b.qc.Some? && b.id in s.nodes
    ensures ViewOf(Registered(s, lowest, b), lowest) ==
            if s.nodes[b.id].level <= lowest || b.ParentView() < lowest || b.prevId in s.nodes then ViewOf(s, lowest)
            else ViewOf(s, lowest).(levels := LevelsOf(s.nodes)[b.prevId := b.ParentView()])
  {
    ContainerView(s, lowest, b.prevId, b.ParentView());
    ChildView(WithContainer(s, b.prevId, b.ParentView()), lowest, b.prevId, b.id);
  }

  lemma {:induction false} AddedView(s: Shape, lowest: View, b: Block)
    requires b.qc.Some?
    ensures ViewOf(Added(s, lowest, b), lowest) == WithVertex(ViewOf(s, lowest), b)
  {
    if b.view >= lowest {
      var known := WithContainer(s, b.id, b.view);
      ContainerView(s, lowest, b.id, b.view);
      if known.nodes[b.id].vertex.None? {
        BlockView(known, lowest, b);
        RegisteredView(WithBlock(known, b), lowest, b);
      }
    }
  }

  // ----- Pruning

  ghost function PrunedShape(s: Shape, level: View): Shape {
    Shape(map id | id in s.nodes && s.nodes[id].level >= level :: s.nodes[id],
          map l | l in s.index && l >= level :: s.index[l])
  }

  lemma {:induction false} PrunedAgrees(s: Shape, lowest: View, level: View)
    requires IndexesAgree(s, lowest) && level >= lowest
    ensures IndexesAgree(PrunedShape(s, level), level)
  {
  }

  /** A child lies above its parent, so no list of a container that stays loses anyone. */
  lemma {:induction false} ChildrenAbove(levelOf: Id -> View, s: Shape, lowest: View, id: Id, c: Id)
    requires WellFormed(levelOf, s, lowest) && id in s.nodes && c in s.nodes[id].children
    ensures c in s.nodes && s.nodes[c].level > s.nodes[id].level
  {
    assert s.nodes[c].vertex.value.ParentView() == levelOf(id);
  }

  lemma {:induction false} PrunedWellFormed(levelOf: Id -> View, s: Shape, lowest: View, level: View)
    requires WellFormed(levelOf, s, lowest) && level >= lowest
    ensures WellFormed(levelOf, PrunedShape(s, level), level)
  {
    hide IndexesAgree, ChildrenListed, ParentsKnown, LevelConsistent;
    PrunedAgrees(s, lowest, level);
    PrunedListed(levelOf, s, lowest, level);
    PrunedParents(levelOf, s, lowest, level);
  }

  lemma {:induction false} PrunedParents(levelOf: Id -> View, s: Shape, lowest: View, level: View)
    requires WellFormed(levelOf, s, lowest) && level >= lowest
    ensures ParentsKnown(PrunedShape(s, level).nodes, level)
  {
    hide IndexesAgree, ChildrenListed;
    var kept := PrunedShape(s, level).nodes;
    forall id | id in kept
      ensures ParentKnown(kept, level, id)
    {
      assert ParentKnown(s.nodes, lowest, id);
      assert kept[id].vertex.Some? ==> LevelConsistent(levelOf, kept[id].vertex.value);
    }
  }

  lemma {:induction false} PrunedListed(levelOf: Id -> View, s: Shape, lowest: View, level: View)
    requires WellFormed(levelOf, s, lowest)
    ensures ChildrenListed(PrunedShape(s, level).nodes)
  {
    hide IndexesAgree, BlocksFiled, ParentsKnown;
    var kept := PrunedShape(s, level).nodes;
    forall id, c | id in kept && c in kept[id].children
      ensures c in kept
    {
      ChildrenAbove(levelOf, s, lowest, id, c);
    }
  }

  lemma {:induction false} FiledAtItsLevel(levelOf: Id -> View, s: Shape, lowest: View, id: Id)
    requires WellFormed(levelOf, s, lowest) && id in s.nodes && s.nodes[id].vertex.Some?
    ensures s.nodes[id].vertex.value.view == s.nodes[id].level
  {
  }

  lemma {:induction false} PrunedView(s: Shape, lowest: View, level: View)
    ensures ViewOf(PrunedShape(s, level), level) == Pruned(ViewOf(s, lowest), level)
  {
    assert BlocksOf(PrunedShape(s, level).nodes) == BlocksFrom(ViewOf(s, lowest), level);
    assert LevelsOf(PrunedShape(s, level).nodes) == LevelsFrom(LevelsOf(s.nodes), level);
  }

  // ----- Lists that lead to pruned containers

  /** Every children list leads to containers that are held. */
  ghost predicate Closed(nodes: Nodes) {
    forall id, c :: id in nodes && c in nodes[id].children ==> c in nodes
  }

  /** No container lies below one that lists it. */
  ghost predicate Rising(nodes: Nodes) {
    forall id, c :: id in nodes && c in nodes[id].children && c in nodes ==> nodes[id].level <= nodes[c].level
  }

  /** A pruning leaves no list that leads to a pruned container if, and only if, it parts no container from its list. */
  lemma {:induction false} PrunedClosedIff(s: Shape, level: View)
    requires Closed(s.nodes)
    ensures Closed(PrunedShape(s, level).nodes) <==>
            forall id, c :: id in s.nodes && c in s.nodes[id].children && s.nodes[c].level < level ==>
              s.nodes[id].level < level
  {
    var kept := PrunedShape(s, level).nodes;
    assert forall id :: id in kept <==> id in s.nodes && s.nodes[id].level >= level;
    assert forall id :: id in kept ==> kept[id] == s.nodes[id];
  }

  /** No pruning can do so if, and only if, no container lies below one that lists it. */
  lemma {:induction false} PruningsClosedIff(s: Shape, lowest: View)
    requires IndexesAgree(s, lowest) && Closed(s.nodes)
    ensures (forall level :: level >= lowest ==> Closed(PrunedShape(s, level).nodes)) <==> Rising(s.nodes)
  {
    forall level {
      PrunedClosedIff(s, level);
    }
    hide PrunedShape, Closed;
    if !Rising(s.nodes) {
      var id, c :| id in s.nodes && c in s.nodes[id].children && c in s.nodes && s.nodes[id].level > s.nodes[c].level;
      assert !Closed(PrunedShape(s, s.nodes[id].level).nodes);
    }
  }

  /** The level of a container, or the one that it would get. */
  ghost function LevelIn(nodes: Nodes, id: Id, level: View): View {
    if id in nodes then nodes[id].level else level
  }

  /** An addition lists the block under its parent, and the parent does not lie above it. */
  ghost predicate Rises(nodes: Nodes, b: Block)
    requires b.qc.Some?
  {
    b.id == b.prevId || LevelIn(nodes, b.prevId, b.ParentView()) <= LevelIn(nodes, b.id, b.view)
  }

  /** An addition keeps that if, and only if, the block is not listed, or does not lie below its parent. */
  lemma {:induction false} AddedRisingIff(s: Shape, lowest: View, b: Block)
    requires b.qc.Some? && Closed(s.nodes) && Rising(s.nodes)
    ensures Closed(Added(s, lowest, b).nodes)
    ensures Rising(Added(s, lowest, b).nodes) <==>
            || Ignored(s, lowest, b) || LevelIn(s.nodes, b.id, b.view) <= lowest || b.ParentView() < lowest
            || Rises(s.nodes, b)
  {
    hide Closed, Rising;
    if b.view >= lowest {
      var known := WithContainer(s, b.id, b.view);
      EmptyRising(s, b.id, b.view);
      if known.nodes[b.id].vertex.None? {
        var filled := WithBlock(known, b);
        SameListsRising(known.nodes, filled.nodes);
        if filled.nodes[b.id].level > lowest && b.ParentView() >= lowest {
          var parented := WithContainer(filled, b.prevId, b.ParentView());
          EmptyRising(filled, b.prevId, b.ParentView());
          ListedRising(parented, b.prevId, b.id);
        }
      }
    }
  }

  lemma {:induction false} EmptyRising(s: Shape, id: Id, level: View)
    requires Closed(s.nodes)
    ensures Closed(WithContainer(s, id, level).nodes) && (Rising(WithContainer(s, id, level).nodes) <==> Rising(s.nodes))
  {
    var grown := WithContainer(s, id, level).nodes;
    assert forall x :: x in s.nodes ==> x in grown && grown[x] == s.nodes[x];
  }

  lemma {:induction false} SameListsRising(a: Nodes, b: Nodes)
    requires a.Keys == b.Keys && forall id :: id in a ==> a[id].level == b[id].level && a[id].children == b[id].children
    ensures (Closed(a) <==> Closed(b)) && (Rising(a) <==> Rising(b))
  {
  }

  lemma {:induction false} ListedRising(s: Shape, parent: Id, child: Id)
    requires parent in s.nodes && child in s.nodes && Closed(s.nodes) && Rising(s.nodes)
    ensures Closed(WithChild(s, parent, child).nodes)
    ensures Rising(WithChild(s, parent, child).nodes) <==> s.nodes[parent].level <= s.nodes[child].level
  {
    var listed := WithChild(s, parent, child).nodes;
    var list := s.nodes[parent].children + [child];
    assert list[|list| - 1] == child && child in listed[parent].children;
    forall id, c | id in listed && c in listed[id].children
      ensures id in s.nodes && (c in s.nodes[id].children || (id == parent && c == child))
    {
      assert id == parent ==> c in list;
    }
    forall id, c | id in s.nodes && c in s.nodes[id].children
      ensures c in listed[id].children
    {
    }
  }

  ghost function Members(ids: seq<Id>): set<Id> {
    set i | 0 <= i < |ids| :: ids[i]
  }

  ghost function IdsAt(s: Shape, l: View): set<Id> {
    Members(ListAt(s.index, l))
  }

  /** Dropping the containers of a level leaves these, and their lists lead only to containers that stay. */
  ghost predicate Leaves(s: Shape, l: View, kept: Shape) {
    && kept.nodes == s.nodes - IdsAt(s, l)
    && kept.index == s.index - {l}
    && (forall id, c :: id in kept.nodes && c in kept.nodes[id].children ==> c in kept.nodes)
    && (forall k, id :: k in kept.index && id in kept.index[k] ==> id in kept.nodes)
  }

  lemma {:induction false} LowestLevelLeaves(levelOf: Id -> View, s: Shape, l: View)
    requires WellFormed(levelOf, s, l)
    ensures Leaves(s, l, PrunedShape(s, l + 1))
  {
    var kept := PrunedShape(s, l + 1);
    forall id, c | id in kept.nodes && c in kept.nodes[id].children
      ensures c in kept.nodes
    {
      ChildrenAbove(levelOf, s, l, id, c);
    }
    hide BlocksFiled, ChildrenListed, ParentsKnown;
    LevelDropped(s, l);
  }

  /** Without the lowest level, the two indexes are left with what lies above it. */
  lemma {:induction false} LevelDropped(s: Shape, l: View)
    requires IndexesAgree(s, l)
    ensures var kept := PrunedShape(s, l + 1); kept.nodes == s.nodes - IdsAt(s, l) && kept.index == s.index - {l}
  {
    var kept := PrunedShape(s, l + 1);
    var list := ListAt(s.index, l);
    assert forall id :: id in s.nodes ==> (s.nodes[id].level == l <==> id in list);
    assert kept.nodes == s.nodes - IdsAt(s, l);
    assert kept.index == s.index - {l};
  }

  // ----- The walk up, and the forks

  /** The block of the first container of a level. */
  ghost function BlockAt(s: Shape, level: View): Option<Block> {
    var list := ListAt(s.index, level);
    if list != [] && list[0] in s.nodes then s.nodes[list[0]].vertex else None
  }

  lemma {:induction false} BlockAtIsStored(levelOf: Id -> View, s: Shape, lowest: View, level: View)
    requires WellFormed(levelOf, s, lowest) && BlockAt(s, level).Some?
    ensures var b := BlockAt(s, level).value; b.id in BlocksOf(s.nodes) && BlocksOf(s.nodes)[b.id] == b && b.view == level
  {
    assert ListAt(s.index, level)[0] in s.index[level];
  }

  /** The stored parent of the block of the first container of a level. */
  ghost function StoredParent(s: Shape, level: View): Option<Block>
    requires BlockAt(s, level).Some?
  {
    var prevId := BlockAt(s, level).value.prevId;
    if prevId in BlocksOf(s.nodes) then Some(BlocksOf(s.nodes)[prevId]) else None
  }

  /** The walk from a level up meets no empty container; it looks at the first one of each level. */
  ghost predicate CanWalk(s: Shape, level: View)
    decreases level
  {
    level <= 1 || (BlockAt(s, level).Some? &&
                   match StoredParent(s, level)
                   case None => true
                   case Some(p) => p.view < level ==> CanWalk(s, p.view))
  }

  /** The levels that the walk takes for committed. */
  ghost function WalkLevels(s: Shape, level: View): set<View>
    decreases level
  {
    if level <= 1 || BlockAt(s, level).None? then {}
    else
      match StoredParent(s, level)
      case None => {}
      case Some(p) => {p.view} + if p.view < level then WalkLevels(s, p.view) else {}
  }

  lemma {:induction false} WalkStep(levelOf: Id -> View, s: Shape, lowest: View, level: View)
    requires WellFormed(levelOf, s, lowest) && level > 1
    ensures BlockAt(s, level).None? ==> !CanWalk(s, level)
    ensures BlockAt(s, level).Some? ==>
              match StoredParent(s, level)
              case None => CanWalk(s, level) && WalkLevels(s, level) == {}
              case Some(p) => && lowest <= p.view < level && (CanWalk(s, level) <==> CanWalk(s, p.view))
                              && WalkLevels(s, level) == {p.view} + WalkLevels(s, p.view)
  {
    if BlockAt(s, level).Some? {
      BlockAtIsStored(levelOf, s, lowest, level);
      if StoredParent(s, level).Some? {
        FiledAtItsLevel(levelOf, s, lowest, StoredParent(s, level).value.id);
        assert LevelConsistent(levelOf, BlockAt(s, level).value) && LevelConsistent(levelOf, StoredParent(s, level).value);
      }
    }
  }

  lemma {:induction false} WalkEnds(s: Shape, level: View)
    ensures level <= 1 ==> WalkLevels(s, level) == {} && CanWalk(s, level)
  {
  }

  /** The blocks of the listed containers that are full. */
  ghost function FullAt(nodes: Nodes, ids: seq<Id>): seq<Block> {
    if ids == [] then []
    else
      var last := ids[|ids| - 1];
      FullAt(nodes, ids[..|ids| - 1]) +
      if last in nodes && nodes[last].vertex.Some? then [nodes[last].vertex.value] else []
  }

  /** What the pruning loop lists as forked before it reaches a level. */
  ghost function ForkedUpTo(s: Shape, lowest: View, level: View, committed: set<View>): seq<Block>
    requires lowest <= level
    decreases level
  {
    if lowest == level then []
    else
      ForkedUpTo(s, lowest, level - 1, committed) +
      if level - 1 in committed || level - 1 <= 1 then [] else FullAt(s.nodes, ListAt(s.index, level - 1))
  }

  lemma {:induction false} NothingForked(s: Shape, lowest: View, committed: set<View>)
    ensures ForkedUpTo(s, lowest, lowest, committed) == []
  {
  }

  /** Pruning below a level leaves the level itself alone. */
  lemma {:induction false} LevelIsLeft(s: Shape, lowest: View, l: View)
    requires IndexesAgree(s, lowest)
    ensures var t := PrunedShape(s, l);
            ListAt(t.index, l) == ListAt(s.index, l) && FullAt(t.nodes, ListAt(t.index, l)) == FullAt(s.nodes, ListAt(s.index, l))
  {
    var t, list := PrunedShape(s, l), ListAt(s.index, l);
    assert forall id :: id in list ==> id in s.nodes && s.nodes[id].level == l;
    SameFull(s.nodes, t.nodes, list);
  }

  lemma {:induction false} SameFull(a: Nodes, b: Nodes, ids: seq<Id>)
    requires forall id :: id in ids ==> id in a && id in b && a[id] == b[id]
    ensures FullAt(a, ids) == FullAt(b, ids)
    decreases |ids|
  {
    if ids != [] {
      SameFull(a, b, ids[..|ids| - 1]);
    }
  }

  lemma {:induction false} MembersCount(ids: seq<Id>)
    requires NoDuplicates(ids)
    ensures |Members(ids)| == |ids|
    decreases |ids|
  {
    if ids != [] {
      var front := ids[..|ids| - 1];
      MembersCount(front);
      assert Members(ids) == Members(front) + {ids[|ids| - 1]};
    } else {
      assert Members(ids) == {};
    }
  }

  lemma {:induction false} DroppedCount(nodes: set<Id>, ids: seq<Id>)
    requires NoDuplicates(ids) && Members(ids) <= nodes
    ensures |nodes - Members(ids)| == |nodes| - |ids|
  {
    MembersCount(ids);
  }

  // ----- The containers themselves

  class VertexContainer {
    const id: Id
    const level: View
    var children: seq<VertexContainer>
    var vertex: Option<Block>

    constructor (id: Id, level: View)
      ensures this.id == id && this.level == level && children == [] && vertex == None
    {
      this.id, this.level := id, level;
      children, vertex := [], None;
    }
  }

  type Containers = map<Id, VertexContainer>

  /** These pointers lead to the containers of these ids. */
  ghost predicate PointTo(vertices: Containers, pointers: seq<VertexContainer>, ids: seq<Id>) {
    && |pointers| == |ids|
    && forall i :: 0 <= i < |ids| ==> ids[i] in vertices && pointers[i] == vertices[ids[i]]
  }

  ghost predicate Holds(vertices: Containers, c: VertexContainer, id: Id, node: Node)
    reads c
  {
    c.id == id && c.level == node.level && c.vertex == node.vertex && PointTo(vertices, c.children, node.children)
  }

  /** The containers have this shape, and no pointer leads out of the forest. */
  ghost predicate HaveShape(vertices: Containers, atLevel: map<View, seq<VertexContainer>>, s: Shape)
    reads vertices.Values
  {
    && vertices.Keys == s.nodes.Keys
    && (forall id :: id in vertices ==> Holds(vertices, vertices[id], id, s.nodes[id]))
    && atLevel.Keys == s.index.Keys
    && (forall l :: l in s.index ==> PointTo(vertices, atLevel[l], s.index[l]))
  }

  lemma {:induction false} KeptHaveShape(vertices: Containers, atLevel: map<View, seq<VertexContainer>>, s: Shape,
                                         l: View, kept: Shape)
    requires HaveShape(vertices, atLevel, s) && Leaves(s, l, kept)
    ensures HaveShape(vertices - IdsAt(s, l), atLevel - {l}, kept)
  {
    var left := vertices - IdsAt(s, l);
    forall id | id in left
      ensures Holds(left, left[id], id, kept.nodes[id])
    {
      assert Holds(vertices, vertices[id], id, s.nodes[id]);
    }
    forall k | k in kept.index
      ensures PointTo(left, atLevel[k], kept.index[k])
    {
      assert PointTo(vertices, atLevel[k], s.index[k]);
    }
  }

  lemma {:induction false} GrownHaveShape(vertices: Containers, atLevel: map<View, seq<VertexContainer>>, s: Shape,
                                          c: VertexContainer, list: seq<VertexContainer>)
    requires HaveShape(vertices, atLevel, s) && c.id !in s.nodes && c.children == [] && c.vertex == None
    requires list == if c.level in atLevel then atLevel[c.level] else []
    ensures HaveShape(vertices[c.id := c], atLevel[c.level := list + [c]], WithContainer(s, c.id, c.level))
  {
    var grown, t := vertices[c.id := c], WithContainer(s, c.id, c.level);
    forall x | x in grown
      ensures Holds(grown, grown[x], x, t.nodes[x])
    {
      assert x in vertices ==> Holds(vertices, vertices[x], x, s.nodes[x]);
    }
    forall l | l in t.index
      ensures PointTo(grown, atLevel[c.level := list + [c]][l], t.index[l])
    {
      assert l in s.index ==> PointTo(vertices, atLevel[l], s.index[l]);
    }
  }

  /** What became of a pruning or a commit: it was refused, it failed while walking up, or it was carried out. */
  datatype Outcome = Refused | Panics | Done

  class LevelledForest {
    /** The level that belongs to each id, whether or not it was added yet. */
    ghost const levelOf: Id -> View
    var vertices: Containers
    var verticesAtLevel: map<View, seq<VertexContainer>>
    var lowestLevel: View
    ghost var shape: Shape

    constructor (ghost levelOf: Id -> View)
      ensures Valid() && Now() == NO_FOREST && this.levelOf == levelOf && vertices == map[]
    {
      this.levelOf := levelOf;
      vertices, verticesAtLevel, lowestLevel := map[], map[], 0;
      shape := Shape(map[], map[]);
    }

    ghost predicate Represents()
      reads this, vertices.Values
    {
      HaveShape(vertices, verticesAtLevel, shape)
    }

    ghost predicate Valid()
      reads this, vertices.Values
    {
      Represents() && WellFormed(levelOf, shape, lowestLevel)
    }

    ghost function Now(): Forest
      reads this
    {
      ViewOf(shape, lowestLevel)
    }

    /** How many containers there are. */
    ghost function Size(): nat
      reads this
    {
      |shape.nodes.Keys|
    }

    function GetVertex(id: Id): (v: Option<Block>)
      requires Represents()
      reads this, vertices.Values
      ensures v == if id in Now().full then Some(Now().full[id]) else None
    {
      if id !in vertices || vertices[id].vertex.None? then None else vertices[id].vertex
    }

    method GetOrCreateVertexContainer(id: Id, level: View) returns (c: VertexContainer)
      requires Represents()
      modifies this
      ensures Represents() && lowestLevel == old(lowestLevel)
      ensures shape == WithContainer(old(shape), id, level)
      ensures id in vertices && vertices[id] == c && old(vertices.Keys) <= vertices.Keys
      ensures forall x :: x in old(vertices) ==> vertices[x] == old(vertices[x])
      ensures fresh(vertices.Values - old(vertices.Values))
    {
      if id in vertices {
        return vertices[id];
      }
      c := new VertexContainer(id, level);
      var vtcs := if level in verticesAtLevel then verticesAtLevel[level] else [];
      GrownHaveShape(vertices, verticesAtLevel, shape, c, vtcs);
      hide HaveShape;
      vertices := vertices[id := c];
      verticesAtLevel := verticesAtLevel[level := vtcs + [c]];
      shape := WithContainer(shape, id, level);
    }

    method SetVertex(c: VertexContainer, b: Block)
      requires Represents() && b.id in vertices && vertices[b.id] == c
      modifies c`vertex, this`shape
      ensures Represents() && shape == WithBlock(old(shape), b)
    {
      c.vertex := Some(b);
      shape := WithBlock(shape, b);
      forall x | x in vertices
        ensures Holds(vertices, vertices[x], x, shape.nodes[x])
      {
        assert old(Holds(vertices, vertices[x], x, shape.nodes[x]));
      }
    }

    method AppendChild(parentId: Id, parent: VertexContainer, childId: Id, child: VertexContainer)
      requires Represents()
      requires parentId in vertices && vertices[parentId] == parent && childId in vertices && vertices[childId] == child
      modifies parent`children, this`shape
      ensures Represents() && shape == WithChild(old(shape), parentId, childId)
    {
      parent.children := parent.children + [child];
      shape := WithChild(shape, parentId, childId);
      forall x | x in vertices
        ensures Holds(vertices, vertices[x], x, shape.nodes[x])
      {
        assert old(Holds(vertices, vertices[x], x, shape.nodes[x]));
      }
    }

    method RegisterWithParent(container: VertexContainer, b: Block)
      requires Represents() && b.qc.Some?
      requires b.id in vertices && vertices[b.id] == container && b.id in shape.nodes
      modifies this, vertices.Values
      ensures Represents() && lowestLevel == old(lowestLevel)
      ensures shape == Registered(old(shape), lowestLevel, b)
      ensures fresh(vertices.Values - old(vertices.Values))
    {
      hide HaveShape;
      ContainerHolds(b.id);
      if container.level <= lowestLevel || b.ParentView() < lowestLevel {
        return;
      }
      var parent := GetOrCreateVertexContainer(b.prevId, b.ParentView());
      AppendChild(b.prevId, parent, b.id, container);
    }

    lemma ContainerHolds(id: Id)
      requires Represents() && id in vertices
      ensures id in shape.nodes
      ensures vertices[id].level == shape.nodes[id].level && vertices[id].vertex == shape.nodes[id].vertex
    {
      assert Holds(vertices, vertices[id], id, shape.nodes[id]);
    }

    method FileVertex(b: Block)
      requires Represents() && b.qc.Some?
      modifies this, vertices.Values
      ensures Represents() && lowestLevel == old(lowestLevel)
      ensures shape == Added(old(shape), lowestLevel, b)
      ensures fresh(vertices.Values - old(vertices.Values))
    {
      hide HaveShape, Registered;
      if b.view < lowestLevel {
        return;
      }
      var container := GetOrCreateVertexContainer(b.id, b.view);
      ContainerHolds(b.id);
      if container.vertex.Some? {
        return;
      }
      FillContainer(container, b);
    }

    method FillContainer(container: VertexContainer, b: Block)
      requires Represents() && b.qc.Some?
      requires b.id in vertices && vertices[b.id] == container && b.id in shape.nodes
      modifies this, vertices.Values
      ensures Represents() && lowestLevel == old(lowestLevel)
      ensures shape == Registered(WithBlock(old(shape), b), lowestLevel, b)
      ensures fresh(vertices.Values - old(vertices.Values))
    {
      SetVertex(container, b);
      RegisterWithParent(container, b);
    }

    /**
     Files a block, unless its level was pruned or it is filed already. A well-formed forest stays so
     exactly if the block is ignored or has the levels of its ids; the source leaves that to its callers.
     */
    method AddVertex(b: Block)
      requires Represents() && b.qc.Some?
      modifies this, vertices.Values
      ensures Represents() && Now() == WithVertex(old(Now()), b)
      ensures shape == Added(old(shape), lowestLevel, b) && lowestLevel == old(lowestLevel)
      ensures old(Valid()) ==> (Valid() <==> Ignored(old(shape), lowestLevel, b) || LevelConsistent(levelOf, b))
      ensures fresh(vertices.Values - old(vertices.Values))
    {
      hide HaveShape, WellFormed, Added, Ignored, LevelConsistent, ViewOf;
      if WellFormed(levelOf, shape, lowestLevel) {
        AddedWellFormedIff(levelOf, shape, lowestLevel, b);
      }
      AddedView(shape, lowestLevel, b);
      FileVertex(b);
    }

    // ----- Pruning

    /** No container was added or exchanged. */
    twostate predicate OnlyShrinks()
      reads this
    {
      forall id :: id in vertices ==> id in old(vertices) && vertices[id] == old(vertices)[id]
    }

    /** Deletes the listed containers from the id map. */
    method DeleteListed(list: seq<VertexContainer>, ghost ids: seq<Id>)
      requires Represents() && PointTo(vertices, list, ids)
      modifies this`vertices
      ensures vertices == old(vertices) - Members(ids)
    {
      for j := 0 to |list|
        invariant vertices == old(vertices) - Members(ids[..j])
      {
        assert Members(ids[..j + 1]) == Members(ids[..j]) + {ids[j]};
        assert old(Holds(vertices, list[j], ids[j], shape.nodes[ids[j]]));
        vertices := vertices - {list[j].id};
      }
      assert ids[..|ids|] == ids;
    }

    /** Removes a level from both indexes. */
    method DropLevel(l: View, ghost kept: Shape)
      requires Represents() && Leaves(shape, l, kept)
      modifies this`vertices, this`verticesAtLevel, this`shape
      ensures Represents() && shape == kept
      ensures OnlyShrinks()
    {
      KeptHaveShape(vertices, verticesAtLevel, shape, l, kept);
      if l in verticesAtLevel {
        DeleteListed(verticesAtLevel[l], shape.index[l]);
        verticesAtLevel := verticesAtLevel - {l};
      } else {
        assert Members([]) == {};
        assert vertices == vertices - {} && verticesAtLevel == verticesAtLevel - {l};
      }
      shape := kept;
    }

    /** The block of the first container of a level; the source fails where there is none. */
    function FirstAt(level: View): (b: Option<Block>)
      requires Represents() && IndexesAgree(shape, lowestLevel)
      reads this, vertices.Values
      ensures b == BlockAt(shape, level)
    {
      if level !in verticesAtLevel then None
      else
        assert PointTo(vertices, verticesAtLevel[level], shape.index[level]);
        if verticesAtLevel[level] == [] then None
        else
          assert Holds(vertices, vertices[shape.index[level][0]], shape.index[level][0], shape.nodes[shape.index[level][0]]);
          verticesAtLevel[level][0].vertex
    }

    /** Finds the levels to be taken for committed by walking up. It fails at a level without a first block. */
    method FindCommittedLevels(level: View) returns (committed: set<View>, ok: bool)
      requires Valid() && level >= lowestLevel
      ensures ok <==> CanWalk(shape, level)
      ensures ok ==> committed == WalkLevels(shape, level)
    {
      hide HaveShape, IndexesAgree, BlocksFiled, ChildrenListed, ParentsKnown, BlockAt, WalkLevels, CanWalk;
      committed := {};
      var l: View := level;
      while l >= lowestLevel && l > 1
        invariant l >= lowestLevel && (CanWalk(shape, level) <==> CanWalk(shape, l))
        invariant WalkLevels(shape, level) == committed + WalkLevels(shape, l)
        decreases l
      {
        WalkStep(levelOf, shape, lowestLevel, l);
        var first := FirstAt(l);
        if first.None? {
          return committed, false;
        }
        match GetVertex(first.value.prevId) {
          case None =>
            return committed, true;
          case Some(parentVertex) =>
            committed := committed + {parentVertex.view};
            l := parentVertex.view;
        }
      }
      WalkEnds(shape, l);
      ok := true;
    }

    /** The full containers of a level, in the order of the list, and how many there are in all. */
    method CollectAt(level: View) returns (found: seq<Block>, count: nat)
      requires Represents()
      ensures found == FullAt(shape.nodes, ListAt(shape.index, level)) && count == |ListAt(shape.index, level)|
    {
      found, count := [], 0;
      if level in verticesAtLevel {
        ghost var ids := shape.index[level];
        assert PointTo(vertices, verticesAtLevel[level], ids);
        while count < |verticesAtLevel[level]|
          invariant count <= |ids| && found == FullAt(shape.nodes, ids[..count])
        {
          ContainerHolds(ids[count]);
          assert ids[..count + 1][..count] == ids[..count];
          if verticesAtLevel[level][count].vertex.Some? {
            found := found + [verticesAtLevel[level][count].vertex.value];
          }
          count := count + 1;
        }
        assert ids[..|ids|] == ids;
      }
    }

    /** What is left of a forest when everything below a level is gone. */
    ghost predicate PrunedTo(level: View, was: Shape, lowest: View)
      reads this, vertices.Values
    {
      Represents() && WellFormed(levelOf, was, lowest) && lowest <= level && shape == PrunedShape(was, level)
    }

    /** One turn of the pruning loop: the lowest level is searched for forks and dropped. */
    method PruneLevel(l: View, ghost was: Shape, ghost lowest: View, committed: set<View>, forked: seq<Block>)
      returns (grown: seq<Block>, count: nat)
      requires PrunedTo(l, was, lowest) && forked == ForkedUpTo(was, lowest, l, committed)
      modifies this`vertices, this`verticesAtLevel, this`shape
      ensures PrunedTo(l + 1, was, lowest) && OnlyShrinks()
      ensures Size() == old(Size()) - count
      ensures grown == ForkedUpTo(was, lowest, l + 1, committed)
    {
      hide HaveShape, WellFormed, PrunedShape, FullAt, Leaves;
      var at: seq<Block>;
      at, count := CollectAt(l);
      grown := forked;
      if l !in committed && l > 1 {
        grown := grown + at;
      }
      LevelTurn(levelOf, was, lowest, l);
      DropLevel(l, PrunedShape(shape, l + 1));
    }

    method PruneLevels(lowest: View, level: View, ghost was: Shape, committed: set<View>)
      returns (forked: seq<Block>, pruned: nat)
      requires PrunedTo(lowest, was, lowest) && lowest <= level
      modifies this`vertices, this`verticesAtLevel, this`shape
      ensures PrunedTo(level, was, lowest) && OnlyShrinks()
      ensures Size() == old(Size()) - pruned
      ensures forked == ForkedUpTo(was, lowest, level, committed)
    {
      hide ForkedUpTo, PrunedTo;
      NothingForked(was, lowest, committed);
      forked, pruned := [], 0;
      var l := lowest;
      while l < level
        invariant l <= level && PrunedTo(l, was, lowest) && OnlyShrinks()
        invariant Size() == old(Size()) - pruned
        invariant forked == ForkedUpTo(was, lowest, l, committed)
      {
        var count;
        forked, count := PruneLevel(l, was, lowest, committed, forked);
        pruned := pruned + count;
        l := l + 1;
      }
    }

    method SetLowest(level: View)
      requires Represents()
      modifies this`lowestLevel
      ensures Represents() && lowestLevel == level
    {
      lowestLevel := level;
    }

    /** Removes everything below a level, and lists the full containers off the levels the walk meets. */
    method PruneUpToLevel(level: View) returns (forked: seq<Block>, pruned: nat, outcome: Outcome)
      requires Valid()
      modifies this`vertices, this`verticesAtLevel, this`shape, this`lowestLevel
      ensures Valid() && OnlyShrinks()
      ensures outcome == if level < old(lowestLevel) then Refused else if CanWalk(old(shape), level) then Done else Panics
      ensures outcome != Done ==> unchanged(this) && forked == [] && pruned == 0
      ensures outcome == Done ==> Now() == Pruned(old(Now()), level) && shape == PrunedShape(old(shape), level)
      ensures outcome == Done ==> Size() == old(Size()) - pruned
      ensures outcome == Done ==> forked == ForkedUpTo(old(shape), old(lowestLevel), level, WalkLevels(old(shape), level))
    {
      hide HaveShape, WellFormed, PrunedShape, ForkedUpTo, WalkLevels, CanWalk, Pruned, ViewOf;
      if level < lowestLevel {
        return [], 0, Refused;
      }
      var committed, ok := FindCommittedLevels(level);
      if !ok {
        return [], 0, Panics;
      }
      PrunedWellFormed(levelOf, shape, lowestLevel, level);
      PrunedView(shape, lowestLevel, level);
      forked, pruned := RaiseLowest(level, committed);
      return forked, pruned, Done;
    }

    method RaiseLowest(level: View, committed: set<View>) returns (forked: seq<Block>, pruned: nat)
      requires Valid() && level >= lowestLevel
      modifies this`vertices, this`verticesAtLevel, this`shape, this`lowestLevel
      ensures lowestLevel == level && Represents() && shape == PrunedShape(old(shape), level) && OnlyShrinks()
      ensures Size() == old(Size()) - pruned
      ensures forked == ForkedUpTo(old(shape), old(lowestLevel), level, committed)
    {
      hide HaveShape, WellFormed, PrunedShape, ForkedUpTo;
      var lowest := lowestLevel;
      NothingBelow(levelOf, shape, lowest);
      SetLowest(level);
      forked, pruned := PruneLevels(lowest, level, shape, committed);
    }
  }

  /** Nothing lies below the lowest level. */
  lemma {:induction false} PrunedNothing(s: Shape, lowest: View)
    requires IndexesAgree(s, lowest)
    ensures PrunedShape(s, lowest) == s
  {
    assert PrunedShape(s, lowest).nodes == s.nodes && PrunedShape(s, lowest).index == s.index;
  }

  lemma {:induction false} NothingBelow(levelOf: Id -> View, s: Shape, lowest: View)
    requires WellFormed(levelOf, s, lowest)
    ensures PrunedShape(s, lowest) == s
  {
    hide IndexesAgree;
    PrunedNothing(s, lowest);
  }

  lemma {:induction false} PrunedTwice(s: Shape, l: View)
    ensures PrunedShape(PrunedShape(s, l), l + 1) == PrunedShape(s, l + 1)
  {
    assert PrunedShape(PrunedShape(s, l), l + 1).nodes == PrunedShape(s, l + 1).nodes;
    assert PrunedShape(PrunedShape(s, l), l + 1).index == PrunedShape(s, l + 1).index;
  }

  lemma {:induction false} ListFits(s: Shape, l: View)
    requires IndexesAgree(s, l)
    ensures NoDuplicates(ListAt(s.index, l)) && Members(ListAt(s.index, l)) <= s.nodes.Keys
  {
  }

  /** Dropping the lowest level leaves as many containers less as it lists. */
  lemma {:induction false} LevelCounts(s: Shape, l: View)
    requires IndexesAgree(s, l)
    ensures |PrunedShape(s, l + 1).nodes.Keys| == |s.nodes.Keys| - |ListAt(s.index, l)|
  {
    hide PrunedShape, IndexesAgree, ListAt, Members, NoDuplicates;
    LevelDropped(s, l);
    ListFits(s, l);
    DroppedCount(s.nodes.Keys, ListAt(s.index, l));
    assert PrunedShape(s, l + 1).nodes.Keys == s.nodes.Keys - Members(ListAt(s.index, l));
  }

  /** One turn of the pruning loop counts the containers that it drops. */
  lemma {:induction false} TurnCounts(was: Shape, lowest: View, l: View)
    requires IndexesAgree(was, lowest) && lowest <= l
    ensures var s := PrunedShape(was, l);
            && PrunedShape(s, l + 1) == PrunedShape(was, l + 1) && ListAt(s.index, l) == ListAt(was.index, l)
            && |PrunedShape(s, l + 1).nodes.Keys| == |s.nodes.Keys| - |ListAt(s.index, l)|
            && FullAt(s.nodes, ListAt(s.index, l)) == FullAt(was.nodes, ListAt(was.index, l))
  {
    hide IndexesAgree, PrunedShape, ListAt, FullAt;
    LevelIsLeft(was, lowest, l);
    PrunedAgrees(was, lowest, l);
    PrunedTwice(was, l);
    LevelCounts(PrunedShape(was, l), l);
  }

  /** What the pruning loop needs for one turn. */
  lemma {:induction false} LevelTurn(levelOf: Id -> View, was: Shape, lowest: View, l: View)
    requires WellFormed(levelOf, was, lowest) && lowest <= l
    ensures var s := PrunedShape(was, l);
            && PrunedShape(s, l + 1) == PrunedShape(was, l + 1) && Leaves(s, l, PrunedShape(s, l + 1))
            && ListAt(s.index, l) == ListAt(was.index, l)
            && |PrunedShape(s, l + 1).nodes.Keys| == |s.nodes.Keys| - |ListAt(s.index, l)|
            && FullAt(s.nodes, ListAt(s.index, l)) == FullAt(was.nodes, ListAt(was.index, l))
  {
    TurnCounts(was, lowest, l);
    hide WellFormed, PrunedShape, ListAt, Leaves, FullAt;
    PrunedWellFormed(levelOf, was, lowest, l);
    LowestLevelLeaves(levelOf, PrunedShape(was, l), l);
  }
}
