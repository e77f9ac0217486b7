/**
 What becomes of a block that comes early (hotstuff/hotstuff.go): it is kept, and handled right after the
 block of the view before it gets a vote. Unless the replica has not entered that view then: the block is
 kept again under the same key, and that key is deleted.
 */
module ReplicaBuffers {
  import opened Chain
  import opened Replicas
  import opened ReplicaSafety
  import opened ReplicaAccept
  import opened ReplicaVotes

  /** Between two states, a vote for a block was cast. */
  ghost predicate VotedSince(a: Replica, q: Replica, b: Block) {
    exists i :: |VotesOf(a.log)| <= i < |VotesOf(q.log)| && VotesOf(q.log)[i].block == b
  }

  /** Between two states, a vote in a view was cast. */
  ghost predicate VotedInSince(a: Replica, q: Replica, view: View) {
    exists i :: |VotesOf(a.log)| <= i < |VotesOf(q.log)| && VotesOf(q.log)[i].block.view == view
  }

  /** An early block is kept, and changes nothing else. */
  lemma {:induction false} EarlyIsKept(env: Env, r: Replica, b: Block)
    requires Aligned(r.bufferedBlocks) && b.view > r.curView + 1
    ensures ProcessBlock(env, r, b) == r.(bufferedBlocks := r.bufferedBlocks[b.view - 1 := b])
  {
    hide FollowQC, AddBlock, CastVote, VotingRule;
  }

  lemma {:induction false} ProcessingAddsVotes(env: Env, r: Replica, b: Block)
    requires Aligned(r.bufferedBlocks)
    ensures VotesOf(r.log) <= VotesOf(HandleBlock(env, r, b).0.log) <= VotesOf(ProcessBlock(env, r, b).log)
    decreases KeysFrom(r.bufferedBlocks, b.view)
  {
    hide HandleBlock, VotesOf, VoteFor;
    AcceptedIsVoted(env, r, b);
    var (h, verdict) := HandleBlock(env, r, b);
    if verdict == Accepted && b.view in h.bufferedBlocks {
      BufferedBlocksDescend(env, r, b);
      ProcessingAddsVotes(env, h, h.bufferedBlocks[b.view]);
    }
  }

  /** Processing a block casts a vote for it if, and only if, it is votable before. */
  lemma {:induction false} ProcessedIffVotable(env: Env, r: Replica, b: Block)
    requires Inv(r)
    ensures VotedSince(r, ProcessBlock(env, r, b), b) <==> Votable(env, r, b)
  {
    hide HandleBlock, VotesOf, Votable, LogFits, Placed;
    AcceptedIsVoted(env, r, b);
    AcceptedIff(env, r, b);
    ProcessingAddsVotes(env, r, b);
    var (h, verdict) := HandleBlock(env, r, b);
    if verdict == Accepted {
      assert VotesOf(h.log)[|VotesOf(r.log)|].block == b;
      assert VotesOf(ProcessBlock(env, r, b).log)[|VotesOf(r.log)|].block == b;
    }
  }

  /** A block comes early, and then the block of the view before it is accepted. */
  ghost predicate Awaited(env: Env, r: Replica, b: Block, a: Block)
    requires Aligned(r.bufferedBlocks)
  {
    && b.view > r.curView + 1 && a.view + 1 == b.view
    && HandleBlock(env, r.(bufferedBlocks := r.bufferedBlocks[b.view - 1 := b]), a).1 == Accepted
  }

  lemma {:induction false} AwaitedIsNext(env: Env, r: Replica, b: Block, a: Block)
    requires Inv(r) && Awaited(env, r, b, a)
    ensures var e := ProcessBlock(env, r, b);
            && Inv(e) && HandleBlock(env, e, a).1 == Accepted
            && var h := HandleBlock(env, e, a).0;
               && Inv(h) && a.view in h.bufferedBlocks && h.bufferedBlocks[a.view] == b
               && ProcessBlock(env, e, a) ==
                  ProcessBlock(env, h, b).(bufferedBlocks := ProcessBlock(env, h, b).bufferedBlocks - {a.view})
  {
    hide HandleBlock, LogFits, Placed;
    EarlyIsKept(env, r, b);
    var e := ProcessBlock(env, r, b);
    ProcessBlockKeeps(env, r, b);
    HandleKeeps(env, e, a);
    HandlingKeepsBuffer(env, e, a);
  }

  /** Then the early block gets a vote if, and only if, it is votable when its turn comes. */
  lemma {:induction false} EarlyIsHandled(env: Env, r: Replica, b: Block, a: Block)
    requires Inv(r) && Awaited(env, r, b, a)
    ensures var e := ProcessBlock(env, r, b);
            var h := HandleBlock(env, e, a).0;
            && (VotedSince(h, ProcessBlock(env, e, a), b) <==> Votable(env, h, b))
            && a.view !in ProcessBlock(env, e, a).bufferedBlocks
  {
    hide HandleBlock, ProcessBlock, LogFits, Placed, Votable, VotesOf;
    AwaitedIsNext(env, r, b, a);
    var h := HandleBlock(env, ProcessBlock(env, r, b), a).0;
    ProcessedIffVotable(env, h, b);
  }

  /** It is lost, neither handled nor kept, if, and only if, the replica has not entered the view of the block before it. */
  lemma {:induction false} EarlyIsLostIff(env: Env, r: Replica, b: Block, a: Block)
    requires Inv(r) && Awaited(env, r, b, a)
    ensures var e := ProcessBlock(env, r, b);
            var h := HandleBlock(env, e, a).0;
            && (HandleBlock(env, h, b).1 == Early <==> h.curView < a.view)
            && (h.curView < a.view ==> ProcessBlock(env, e, a) == h.(bufferedBlocks := h.bufferedBlocks - {a.view}))
  {
    hide FollowQC, AddBlock, CastVote, VotingRule, LogFits, Placed;
    AwaitedIsNext(env, r, b, a);
    var h := HandleBlock(env, ProcessBlock(env, r, b), a).0;
    hide ProcessBlock;
    if h.curView < a.view {
      EarlyIsKept(env, h, b);
      assert h.bufferedBlocks[a.view := b] - {a.view} == h.bufferedBlocks - {a.view};
    }
  }

  // ----- Over whole runs

  /** What is kept under a key is still there, or a vote was cast in that view; it may be replaced by a block of this view. */
  ghost predicate KeptOrTurned(a: Replica, q: Replica, v: View, view: int) {
    || VotedInSince(a, q, v)
    || (v in a.bufferedBlocks && v in q.bufferedBlocks && (q.bufferedBlocks[v] == a.bufferedBlocks[v] || v + 1 == view))
  }

  lemma {:induction false} AcceptedVotesIn(env: Env, r: Replica, b: Block)
    requires HandleBlock(env, r, b).1 == Accepted
    ensures VotedInSince(r, HandleBlock(env, r, b).0, b.view)
  {
    hide HandleBlock, VotesOf;
    AcceptedIsVoted(env, r, b);
    assert VotesOf(HandleBlock(env, r, b).0.log)[|VotesOf(r.log)|].block.view == b.view;
  }

  lemma {:induction false} VotedInThrough(a: Replica, h: Replica, q: Replica, v: View)
    requires VotesOf(a.log) <= VotesOf(h.log) <= VotesOf(q.log)
    ensures VotedInSince(a, h, v) || VotedInSince(h, q, v) ==> VotedInSince(a, q, v)
  {
    hide VotesOf;
    if i :| |VotesOf(a.log)| <= i < |VotesOf(h.log)| && VotesOf(h.log)[i].block.view == v {
      assert VotesOf(q.log)[i].block.view == v;
    }
  }

  lemma {:induction false} ProcessingKeepsOthers(env: Env, r: Replica, b: Block, v: View)
    requires Aligned(r.bufferedBlocks) && v in r.bufferedBlocks
    ensures KeptOrTurned(r, ProcessBlock(env, r, b), v, b.view)
    decreases KeysFrom(r.bufferedBlocks, b.view)
  {
    var (h, verdict) := HandleBlock(env, r, b);
    var q := ProcessBlock(env, r, b);
    HandlingKeepsBuffer(env, r, b);
    ProcessingAddsVotes(env, r, b);
    hide FollowQC, AddBlock, CastVote, VotingRule, VotesOf;
    if verdict == Accepted {
      AcceptedVotesIn(env, r, b);
      VotedInThrough(r, h, q, v);
      if b.view in h.bufferedBlocks {
        BufferedBlocksDescend(env, r, b);
        hide HandleBlock;
        var next := ProcessBlock(env, h, h.bufferedBlocks[b.view]);
        ProcessingKeepsOthers(env, h, h.bufferedBlocks[b.view], v);
        assert q.log == next.log;
      }
    }
  }

  lemma {:induction false} NextKeepsOthers(env: Env, r: Replica, e: Event, v: View)
    requires Aligned(r.bufferedBlocks) && v in r.bufferedBlocks
    ensures KeptOrTurned(r, Next(env, r, e), v, if e.BlockArrives? then e.block.view else -1)
    ensures VotesOf(r.log) <= VotesOf(Next(env, r, e).log)
  {
    hide VotesOf;
    if e.BlockArrives? {
      hide ProcessBlock, HandleBlock;
      ProcessingKeepsOthers(env, r, e.block, v);
      ProcessingAddsVotes(env, r, e.block);
    } else {
      hide Next;
      OthersCastNoVote(env, r, e);
    }
  }

  /** No event brings another block of the view. */
  ghost predicate NotReplaced(es: seq<Event>, view: View) {
    forall i :: 0 <= i < |es| && es[i].BlockArrives? ==> es[i].block.view != view
  }

  /** Over every run, a kept block stays until a vote is cast in the view before its own, or another of its view comes. */
  lemma {:induction false} RunKeepsEarly(env: Env, es: seq<Event>, k: nat, v: View)
    requires k <= |es| && v in Run(env, es[..k]).bufferedBlocks && NotReplaced(es[k..], v + 1)
    ensures VotesOf(Run(env, es[..k]).log) <= VotesOf(Run(env, es).log)
    ensures VotedInSince(Run(env, es[..k]), Run(env, es), v) ||
            (v in Run(env, es).bufferedBlocks && Run(env, es).bufferedBlocks[v] == Run(env, es[..k]).bufferedBlocks[v])
    decreases |es|
  {
    if k == |es| {
      assert es[..k] == es;
    } else {
      hide Next, VotesOf;
      var before, e := es[..|es| - 1], es[|es| - 1];
      assert before[..k] == es[..k] && es[k..][|es| - 1 - k] == e;
      assert forall i :: 0 <= i < |before[k..]| ==> before[k..][i] == es[k..][i];
      RunKeepsEarly(env, before, k, v);
      var a, r := Run(env, es[..k]), Run(env, before);
      if v in r.bufferedBlocks {
        NextKeepsOthers(env, r, e, v);
        VotedInThrough(a, r, Next(env, r, e), v);
      } else {
        NextAddsVotes(env, r, e);
        VotedInThrough(a, r, Next(env, r, e), v);
      }
    }
  }

  lemma {:induction false} NextAddsVotes(env: Env, r: Replica, e: Event)
    requires Aligned(r.bufferedBlocks)
    ensures VotesOf(r.log) <= VotesOf(Next(env, r, e).log)
  {
    hide VotesOf;
    if e.BlockArrives? {
      hide ProcessBlock, HandleBlock;
      ProcessingAddsVotes(env, r, e.block);
    } else {
      hide Next;
      OthersCastNoVote(env, r, e);
    }
  }
}
