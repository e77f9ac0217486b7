/**
 Committing blocks (blockchain/blockchain.go): a commit returns the block and its ancestors down
 to the last committed level, forgets their votes, and prunes the forest below the block.
 */
module BlockChains {
  import opened Prelude
  import opened Chain
  import opened Quorums
  import opened LevelledForests

  function Intervals(view: View, path: seq<Block>): int {
    if path == [] then 0 else Intervals(view, path[..|path| - 1]) + (view - path[|path| - 1].view)
  }

  ghost function ViewsOf(path: seq<Block>): int {
    if path == [] then 0 else path[0].view + ViewsOf(path[1..])
  }

  /** The views that the blocks of a path waited: the view of the commit for each, less their own. */
  lemma {:induction false} IntervalsAre(view: View, path: seq<Block>)
    ensures Intervals(view, path) == |path| * view - ViewsOf(path)
    decreases |path|
  {
    if path != [] {
      var front, last := path[..|path| - 1], path[|path| - 1];
      IntervalsAre(view, front);
      ViewsAppend(front, last);
      assert path == front + [last] && |path| * view == |front| * view + view;
    }
  }

  lemma {:induction false} ViewsAppend(path: seq<Block>, b: Block)
    ensures ViewsOf(path + [b]) == ViewsOf(path) + b.view
    decreases |path|
  {
    if path == [] {
      assert path + [b] == [b] && [b][1..] == [];
    } else {
      assert (path + [b])[1..] == path[1..] + [b];
      ViewsAppend(path[1..], b);
    }
  }

  ghost predicate OnePerView(blocks: Blocks) {
    forall a, b :: a in blocks && b in blocks && blocks[a].view == blocks[b].view ==> a == b
  }

  // ----- Successive commits

  /** A forest with the blocks that were committed from it, oldest first. */
  datatype Ledger = Ledger(forest: Forest, log: seq<Block>)

  ghost function OldestFirst(path: seq<Block>): (r: seq<Block>)
    ensures |r| == |path| && forall i :: 0 <= i < |path| ==> r[i] == path[|path| - 1 - i]
  {
    seq(|path|, i requires 0 <= i < |path| => path[|path| - 1 - i])
  }

  ghost function Committed(l: Ledger, b: Block): Ledger {
    Ledger(Pruned(l.forest, b.view), l.log + OldestFirst(CommitPath(l.forest.full, l.forest.lowest, b)))
  }

  /** Each block is the child of the one before it, at a higher view. */
  ghost predicate IsChain(log: seq<Block>) {
    forall i :: 0 <= i < |log| - 1 ==> log[i + 1].prevId == log[i].id && log[i].view < log[i + 1].view
  }

  ghost predicate InStep(levelOf: Id -> View, l: Ledger) {
    && Levelled(levelOf, l.forest)
    && IsChain(l.log)
    && (l.log == [] ==> l.forest.lowest == 0)
    && (l.log != [] ==>
          var last := l.log[|l.log| - 1];
          last.view == l.forest.lowest && last.id in l.forest.full && l.forest.full[last.id] == last)
  }

  /** The block that was committed last is an ancestor of this one. */
  ghost predicate Extends(l: Ledger, b: Block) {
    l.log == [] || l.log[|l.log| - 1] in Lineage(l.forest.full, b)
  }

  lemma {:induction false} CommitPathLinked(blocks: Blocks, lowest: View, b: Block)
    requires Descending(blocks, b) && forall id :: id in blocks ==> blocks[id].id == id
    ensures IsChain(OldestFirst(CommitPath(blocks, lowest, b)))
    ensures b.view > lowest ==> |CommitPath(blocks, lowest, b)| > 0 && CommitPath(blocks, lowest, b)[0] == b
    ensures forall i :: 0 <= i < |CommitPath(blocks, lowest, b)| ==> CommitPath(blocks, lowest, b)[i].view > lowest
  {
    CommitPathIsLineage(blocks, lowest, b);
    LineageLinked(blocks, b);
    var path, line := CommitPath(blocks, lowest, b), Lineage(blocks, b);
    assert forall i :: 0 <= i < |path| ==> path[i] == line[i];
  }

  lemma {:induction false} ConsistentDescends(levelOf: Id -> View, blocks: Blocks, b: Block)
    requires AllConsistent(levelOf, blocks) && b.id in blocks && blocks[b.id] == b
    ensures Descending(blocks, b)
  {
    ConsistentParentsBelow(levelOf, blocks);
    BelowDescends(blocks, b);
  }

  /** Where the path of a commit ends: right above the last committed block if that is an ancestor. */
  lemma {:induction false} PathEnds(levelOf: Id -> View, f: Forest, b: Block, last: Block)
    requires Levelled(levelOf, f) && last.id in f.full && f.full[last.id] == last && last.view == f.lowest
    requires b.id in f.full && f.full[b.id] == b && b.view > f.lowest
    ensures var path := CommitPath(f.full, f.lowest, b);
            |path| > 0 && (last in Lineage(f.full, b) <==> path[|path| - 1].prevId == last.id)
    decreases b.view
  {
    var line := Lineage(f.full, b);
    ConsistentDescends(levelOf, f.full, b);
    PathUnfolds(f.full, f.lowest, b);
    hide CommitPath;
    assert LevelConsistent(levelOf, b);
    if b.prevId in f.full {
      var p := f.full[b.prevId];
      assert LevelConsistent(levelOf, p);
      assert line == [b] + Lineage(f.full, p);
      assert last in line <==> last in Lineage(f.full, p);
      if p.view > f.lowest {
        PathEnds(levelOf, f, p, last);
      } else {
        PathUnfolds(f.full, f.lowest, p);
        assert CommitPath(f.full, f.lowest, b) == [b] + [];
        LineageLinked(f.full, p);
        assert last in Lineage(f.full, p) ==> last == p;
      }
    } else {
      assert line == [b] && CommitPath(f.full, f.lowest, b) == [b];
    }
  }

  lemma {:induction false} JoinedChain(a: seq<Block>, b: seq<Block>)
    requires IsChain(a) && IsChain(b) && a != [] && b != []
    ensures IsChain(a + b) <==> b[0].prevId == a[|a| - 1].id && a[|a| - 1].view < b[0].view
  {
    var c := a + b;
    assert c[|a| - 1] == a[|a| - 1] && c[|a|] == b[0];
    if b[0].prevId == a[|a| - 1].id && a[|a| - 1].view < b[0].view {
      forall i | 0 <= i < |c| - 1
        ensures c[i + 1].prevId == c[i].id && c[i].view < c[i + 1].view
      {
        if i >= |a| {
          assert c[i] == b[i - |a|] && c[i + 1] == b[i - |a| + 1];
        }
      }
    }
  }

  /** A commit continues the committed chain if, and only if, the block descends from the last committed one. */
  lemma {:induction false} CommitExtendsChain(levelOf: Id -> View, l: Ledger, b: Block)
    requires InStep(levelOf, l) && OnePerView(l.forest.full)
    requires b.id in l.forest.full && l.forest.full[b.id] == b
    ensures InStep(levelOf, Committed(l, b)) <==> Extends(l, b)
  {
    hide Pruned, CommitPath, Lineage, IsChain, OnePerView, LevelConsistent;
    var f := l.forest;
    PrunedSound(levelOf, f, b);
    StoredViews(levelOf, f, b);
    if b.view == f.lowest {
      RecommitIsNoOp(levelOf, l, b);
      SameViewSameBlock(f.full, l.log[|l.log| - 1], b);
    } else {
      AppendedChain(levelOf, l, b);
    }
  }

  lemma {:induction false} StoredViews(levelOf: Id -> View, f: Forest, b: Block)
    requires Levelled(levelOf, f) && b.id in f.full && f.full[b.id] == b
    ensures b.view > 0 && b.view >= f.lowest
  {
    assert LevelConsistent(levelOf, b);
  }

  lemma {:induction false} PrunedSound(levelOf: Id -> View, f: Forest, b: Block)
    requires Levelled(levelOf, f) && b.id in f.full && f.full[b.id] == b
    ensures var p := Pruned(f, b.view); Levelled(levelOf, p) && p.lowest == b.view && b.id in p.full && p.full[b.id] == b
  {
  }

  lemma {:induction false} SameViewSameBlock(blocks: Blocks, a: Block, b: Block)
    requires OnePerView(blocks) && a.id in blocks && blocks[a.id] == a && b.id in blocks && blocks[b.id] == b
    requires a.view == b.view
    ensures a == b && a in Lineage(blocks, b)
  {
    assert Lineage(blocks, b)[0] == b;
  }

  /** The commit path, put after the log. */
  lemma {:induction false} AppendedChain(levelOf: Id -> View, l: Ledger, b: Block)
    requires InStep(levelOf, l) && b.id in l.forest.full && l.forest.full[b.id] == b && b.view > l.forest.lowest
    ensures var log := Committed(l, b).log;
            log != [] && log[|log| - 1] == b && (IsChain(log) <==> Extends(l, b))
  {
    var f := l.forest;
    var up := OldestFirst(CommitPath(f.full, f.lowest, b));
    ConsistentDescends(levelOf, f.full, b);
    hide CommitPath, Pruned, Lineage;
    CommitPathLinked(f.full, f.lowest, b);
    if l.log == [] {
      assert l.log + up == up;
    } else {
      hide IsChain;
      PathEnds(levelOf, f, b, l.log[|l.log| - 1]);
      JoinedChain(l.log, up);
    }
  }

  /** Committing the last committed block again commits nothing and leaves the forest as it is. */
  lemma {:induction false} RecommitIsNoOp(levelOf: Id -> View, l: Ledger, b: Block)
    requires InStep(levelOf, l) && b.view == l.forest.lowest
    ensures Committed(l, b) == l
  {
    PrunedAtLowest(l.forest);
    assert l.log + [] == l.log;
  }

  // ----- Runs

  datatype Step = Add(block: Block) | Commit(id: Id)

  ghost predicate CanStep(levelOf: Id -> View, l: Ledger, s: Step) {
    match s
    case Add(b) => LevelConsistent(levelOf, b)
    case Commit(id) => id in l.forest.full && OnePerView(l.forest.full) && Extends(l, l.forest.full[id])
  }

  ghost function After(l: Ledger, s: Step): Ledger
    requires s.Add? ==> s.block.qc.Some?
    requires s.Commit? ==> s.id in l.forest.full
  {
    match s
    case Add(b) => l.(forest := WithVertex(l.forest, b))
    case Commit(id) => Committed(l, l.forest.full[id])
  }

  ghost predicate CanRun(levelOf: Id -> View, l: Ledger, ss: seq<Step>)
    decreases |ss|
  {
    ss == [] || (CanStep(levelOf, l, ss[0]) && CanRun(levelOf, After(l, ss[0]), ss[1..]))
  }

  ghost function Run(levelOf: Id -> View, l: Ledger, ss: seq<Step>): Ledger
    requires CanRun(levelOf, l, ss)
    decreases |ss|
  {
    if ss == [] then l else Run(levelOf, After(l, ss[0]), ss[1..])
  }

  lemma {:induction false} AddInStep(levelOf: Id -> View, l: Ledger, b: Block)
    requires InStep(levelOf, l) && LevelConsistent(levelOf, b)
    ensures InStep(levelOf, l.(forest := WithVertex(l.forest, b)))
  {
  }

  /** Over every run whose commits each descend from the one before, the commits are one growing chain. */
  lemma {:induction false} CommitsFormOneChain(levelOf: Id -> View, l: Ledger, ss: seq<Step>)
    requires InStep(levelOf, l) && CanRun(levelOf, l, ss)
    ensures var last := Run(levelOf, l, ss);
            && InStep(levelOf, last) && l.log <= last.log
            && forall i, j :: 0 <= i < j < |last.log| ==> last.log[i].view < last.log[j].view
    decreases |ss|
  {
    if ss == [] {
      ChainIncreases(l.log);
    } else {
      match ss[0] {
        case Add(b) => AddInStep(levelOf, l, b);
        case Commit(id) => CommitExtendsChain(levelOf, l, l.forest.full[id]);
      }
      CommitsFormOneChain(levelOf, After(l, ss[0]), ss[1..]);
    }
  }

  lemma {:induction false} ChainIncreases(log: seq<Block>)
    requires IsChain(log)
    ensures forall i, j :: 0 <= i < j < |log| ==> log[i].view < log[j].view
    decreases |log|
  {
    if |log| > 1 {
      ChainIncreases(log[..|log| - 1]);
      var k := |log| - 1;
      assert log[k].view > log[k - 1].view;
      assert forall i :: 0 <= i < k ==> log[..k][i] == log[i];
    }
  }

  // ----- A commit that breaks the chain

  /** Two blocks of different views on a parent that is not stored. */
  ghost predicate Siblings(levelOf: Id -> View, a: Block, b: Block) {
    && LevelConsistent(levelOf, a) && LevelConsistent(levelOf, b)
    && a.prevId == b.prevId && levelOf(a.prevId) == 0 && a.view < b.view
  }

  lemma {:induction false} AddedTo(f: Forest, b: Block)
    requires f.lowest == 0 && b.qc.Some? && b.id !in f.full
    ensures WithVertex(f, b).full == f.full[b.id := b] && WithVertex(f, b).lowest == 0
  {
  }

  /** Both are added and the lower one is committed, each step within the rules. */
  lemma {:induction false} SiblingCommitted(levelOf: Id -> View, a: Block, b: Block)
    requires Siblings(levelOf, a, b)
    ensures var ss := [Add(a), Add(b), Commit(a.id)];
            && CanRun(levelOf, Ledger(NO_FOREST, []), ss)
            && var l := Run(levelOf, Ledger(NO_FOREST, []), ss);
               && l.log == [a] && l.forest.lowest == a.view && l.forest.full == map[a.id := a, b.id := b]
  {
    var start := Ledger(NO_FOREST, []);
    var one := start.(forest := WithVertex(NO_FOREST, a));
    var two := one.(forest := WithVertex(one.forest, b));
    AddedTo(NO_FOREST, a);
    AddedTo(one.forest, b);
    hide WithVertex;
    assert two.forest.full == map[a.id := a, b.id := b];
    var three := Committed(two, a);
    LonePath(two.forest.full, 0, a);
    assert three.log == [a];
    assert three.forest.full == two.forest.full;
    hide Pruned, CommitPath;
    var ss := [Add(a), Add(b), Commit(a.id)];
    assert ss[1..] == [Add(b), Commit(a.id)] && ss[1..][1..] == [Commit(a.id)] && ss[1..][1..][1..] == [];
    assert After(start, Add(a)) == one && After(one, Add(b)) == two && After(two, Commit(a.id)) == three;
    assert CanRun(levelOf, two, [Commit(a.id)]);
    assert CanRun(levelOf, one, [Add(b), Commit(a.id)]);
    assert Run(levelOf, three, []) == three;
    assert Run(levelOf, two, [Commit(a.id)]) == three;
    assert Run(levelOf, one, [Add(b), Commit(a.id)]) == three;
  }

  lemma {:induction false} LonePath(blocks: Blocks, lowest: View, b: Block)
    requires b.prevId !in blocks && b.view > lowest
    ensures CommitPath(blocks, lowest, b) == [b] && OldestFirst([b]) == [b]
  {
  }

  /** Then a commit of the other one leaves blocks that are no chain. */
  lemma {:induction false} SiblingBreaksChain(levelOf: Id -> View, a: Block, b: Block)
    requires Siblings(levelOf, a, b)
    ensures var ss := [Add(a), Add(b), Commit(a.id)];
            && CanRun(levelOf, Ledger(NO_FOREST, []), ss)
            && var l := Run(levelOf, Ledger(NO_FOREST, []), ss);
               && InStep(levelOf, l) && b.id in l.forest.full && l.forest.full[b.id] == b
               && !Extends(l, b) && !IsChain(Committed(l, b).log)
  {
    var ss := [Add(a), Add(b), Commit(a.id)];
    SiblingCommitted(levelOf, a, b);
    hide CanRun, Run, Pruned, WithVertex;
    CommitsFormOneChain(levelOf, Ledger(NO_FOREST, []), ss);
    var l := Run(levelOf, Ledger(NO_FOREST, []), ss);
    LonePath(l.forest.full, l.forest.lowest, b);
    var log := Committed(l, b).log;
    assert log == [a, b];
    assert log[1].prevId != log[0].id;
    assert Lineage(l.forest.full, b) == [b];
  }

  // ----- The chain a replica keeps

  lemma {:induction false} FiledConsistently(levelOf: Id -> View, s: Shape, lowest: View)
    requires WellFormed(levelOf, s, lowest)
    ensures ParentsBelow(BlocksOf(s.nodes))
  {
    ConsistentParentsBelow(levelOf, BlocksOf(s.nodes));
  }

  /** What the commit loop keeps of the votes, and the views the blocks so far waited. */
  ghost predicate Tallied(before: Votes, view: View, path: seq<Block>, votes: Votes, intervals: int) {
    votes == before - IdsOf(path) && intervals == Intervals(view, path)
  }

  lemma {:induction false} TallyStarts(before: Votes, view: View)
    ensures Tallied(before, view, [], before, 0)
  {
    assert before - IdsOf([]) == before;
  }

  lemma {:induction false} TallyStep(before: Votes, view: View, path: seq<Block>, votes: Votes, intervals: int, b: Block)
    requires Tallied(before, view, path, votes, intervals)
    ensures Tallied(before, view, path + [b], votes - {b.id}, intervals + (view - b.view))
  {
    var more := path + [b];
    assert more[..|path|] == path && more[|path|] == b;
    assert IdsOf(more) == IdsOf(path) + {b.id} by {
      assert forall i :: 0 <= i < |path| ==> more[i] == path[i];
    }
  }

  /** One turn of the commit loop. */
  lemma {:induction false} PathStep(blocks: Blocks, lowest: View, b: Block, done: seq<Block>)
    requires b.view > lowest && ParentsBelow(blocks) && b.id in blocks && blocks[b.id] == b
    ensures b.prevId in blocks ==> blocks[b.prevId].view < b.view && blocks[b.prevId].id == b.prevId
    ensures done + CommitPath(blocks, lowest, b) == done + [b] +
            if b.prevId in blocks then CommitPath(blocks, lowest, blocks[b.prevId]) else []
  {
    BelowDescends(blocks, b);
    PathUnfolds(blocks, lowest, b);
  }

  /** What is measured: the last committed view, committed blocks and the views they waited. */
  datatype Counters = Counters(highest: View, committed: int, intervals: int)

  function Counted(c: Counters, target: Block, intervals: int, committed: nat): Counters {
    Counters(target.view, c.committed + committed, c.intervals + intervals)
  }

  ghost predicate Within(now: Containers, was: Containers) {
    forall id :: id in now ==> id in was && now[id] == was[id]
  }

  class BlockChain {
    const forest: LevelledForest
    const quorum: Quorum
    var counters: Counters

    constructor (n: nat, ghost levelOf: Id -> View)
      ensures fresh(forest) && fresh(quorum) && quorum.total == n && quorum.votes == map[]
      ensures forest.Valid() && forest.Now() == NO_FOREST && forest.levelOf == levelOf
    {
      forest := new LevelledForest(levelOf);
      quorum := new Quorum(n);
      counters := Counters(0, 0, 0);
    }

    method AddBlock(block: Block)
      requires forest.Represents() && block.qc.Some?
      modifies forest, forest.vertices.Values
      ensures forest.Represents() && forest.Now() == WithVertex(old(forest.Now()), block)
      ensures old(forest.Valid()) ==>
                (forest.Valid() <==>
                 Ignored(old(forest.shape), forest.lowestLevel, block) || LevelConsistent(forest.levelOf, block))
      ensures fresh(forest.vertices.Values - old(forest.vertices.Values))
    {
      forest.AddVertex(block);
    }

    function GetParentBlock(id: Id): (p: Option<Block>)
      requires forest.Represents()
      reads forest, forest.vertices.Values
      ensures p == ParentOf(forest.Now().full, id)
    {
      match forest.GetVertex(id)
      case None => None
      case Some(block) => forest.GetVertex(block.prevId)
    }

    /** Walks from a block up to the last committed level. */
    method CollectCommitted(target: Block, view: View, ghost was: Forest)
      returns (committed: seq<Block>, votes: Votes, intervals: int)
      requires forest.Represents() && was == forest.Now() && ParentsBelow(was.full)
      requires target.id in was.full && was.full[target.id] == target
      ensures committed == CommitPath(was.full, was.lowest, target)
      ensures Tallied(quorum.votes, view, committed, votes, intervals)
    {
      hide Tallied, ParentsBelow, HaveShape;
      TallyStarts(quorum.votes, view);
      committed, votes, intervals := [], quorum.votes, 0;
      var block := target;
      while block.view > forest.lowestLevel
        invariant block.id in was.full && was.full[block.id] == block
        invariant CommitPath(was.full, was.lowest, target) == committed + CommitPath(was.full, was.lowest, block)
        invariant Tallied(quorum.votes, view, committed, votes, intervals)
        decreases block.view
      {
        PathStep(was.full, was.lowest, block, committed);
        TallyStep(quorum.votes, view, committed, votes, intervals, block);
        committed := committed + [block];
        votes := votes - {block.id};
        intervals := intervals + (view - block.view);
        match forest.GetVertex(block.prevId) {
          case None =>
            break;
          case Some(parent) =>
            block := parent;
        }
      }
    }

    /** Writes votes and counters, which the forest does not depend on. */
    method RecordCommit(votes: Votes, counted: Counters)
      modifies this`counters, quorum`votes
      ensures forest.Valid() == old(forest.Valid())
      ensures quorum.votes == votes && counters == counted
    {
      quorum.votes := votes;
      counters := counted;
    }

    /** Prunes the forest below a stored block. A stored block is not below the lowest level, so this is not refused. */
    method PruneBelow(target: Block, ghost was: Forest) returns (forked: seq<Block>, pruned: nat, outcome: Outcome)
      requires forest.Valid() && was == forest.Now()
      requires target.id in was.full && was.full[target.id] == target && target.view >= forest.lowestLevel
      modifies forest
      ensures forest.Valid() && Within(forest.vertices, old(forest.vertices))
      ensures outcome == if CanWalk(old(forest.shape), target.view) then Done else Panics
      ensures outcome == Panics ==> unchanged(forest) && forked == [] && pruned == 0
      ensures outcome == Done ==>
                && forest.Now() == Pruned(was, target.view)
                && forked == ForkedUpTo(old(forest.shape), was.lowest, target.view, WalkLevels(old(forest.shape), target.view))
      ensures forest.Size() == old(forest.Size()) - pruned
    {
      hide HaveShape, WellFormed, CanWalk, WalkLevels, ForkedUpTo, Pruned;
      forked, pruned, outcome := forest.PruneUpToLevel(target.view);
    }

    method CommitStored(target: Block, view: View, ghost was: Forest)
      returns (committed: seq<Block>, forked: seq<Block>, pruned: nat, outcome: Outcome)
      requires forest.Valid() && was == forest.Now()
      requires target.id in was.full && was.full[target.id] == target && target.view >= forest.lowestLevel
      requires ParentsBelow(was.full)
      modifies this`counters, quorum`votes, forest
      ensures forest.Valid() && Within(forest.vertices, old(forest.vertices))
      ensures committed == CommitPath(was.full, was.lowest, target)
      ensures counters == Counted(old(counters), target, Intervals(view, committed), |committed|)
      ensures quorum.votes == old(quorum.votes) - IdsOf(committed)
      ensures outcome == if CanWalk(old(forest.shape), target.view) then Done else Panics
      ensures outcome == Panics ==> unchanged(forest) && forked == [] && pruned == 0
      ensures outcome == Done ==>
                && forest.Now() == Pruned(was, target.view)
                && forked == ForkedUpTo(old(forest.shape), was.lowest, target.view, WalkLevels(old(forest.shape), target.view))
      ensures forest.Size() == old(forest.Size()) - pruned
    {
      hide HaveShape, WellFormed, CanWalk, WalkLevels, ForkedUpTo, Pruned, ParentsBelow, CommitPath;
      var votes, intervals;
      committed, votes, intervals := CollectCommitted(target, view, was);
      RecordCommit(votes, Counted(counters, target, intervals, |committed|));
      forked, pruned, outcome := PruneBelow(target, was);
    }

    /**
     Commits a stored block with its ancestors, newest first, and prunes everything below it. Where the
     walk up fails, the votes are forgotten and the counters raised, and the forest is left as it was.
     */
    method CommitBlock(id: Id, view: View)
      returns (committed: seq<Block>, forked: seq<Block>, pruned: nat, outcome: Outcome)
      requires forest.Valid()
      modifies this`counters, quorum`votes, forest
      ensures forest.Valid() && Within(forest.vertices, old(forest.vertices))
      ensures outcome == Refused <==> id !in old(forest.Now()).full
      ensures outcome == Refused ==> unchanged(this) && unchanged(quorum) && committed == []
      ensures outcome != Refused ==>
                var was, s, target := old(forest.Now()), old(forest.shape), old(forest.Now()).full[id];
                && outcome == (if CanWalk(s, target.view) then Done else Panics)
                && target.view >= was.lowest && committed == CommitPath(was.full, was.lowest, target)
                && counters.highest == target.view && counters.committed == old(counters.committed) + |committed|
                && counters.intervals == old(counters.intervals) + |committed| * view - ViewsOf(committed)
                && (outcome == Done ==>
                      && forest.Now() == Pruned(was, target.view)
                      && forked == ForkedUpTo(s, was.lowest, target.view, WalkLevels(s, target.view)))
      ensures outcome != Done ==> unchanged(forest) && forked == []
      ensures quorum.votes == old(quorum.votes) - IdsOf(committed)
      ensures forest.Size() == old(forest.Size()) - pruned
    {
      match forest.GetVertex(id) {
        case None =>
          return [], [], 0, Refused;
        case Some(target) =>
          FiledConsistently(forest.levelOf, forest.shape, forest.lowestLevel);
          FiledAtItsLevel(forest.levelOf, forest.shape, forest.lowestLevel, id);
          hide HaveShape, WellFormed, CanWalk, WalkLevels, ForkedUpTo, Pruned, ParentsBelow, CommitPath;
          committed, forked, pruned, outcome := CommitStored(target, view, forest.Now());
          IntervalsAre(view, committed);
      }
    }
  }
}
