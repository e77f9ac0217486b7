/**
 Conditions on what arrives that make the votes of a replica obey the rules (hotstuff/hotstuff.go): if no
 view is proposed twice it votes once in each view, and if blocks arrive in increasing views its votes do.
 */
module ReplicaArrivals {
  import opened Prelude
  import opened Chain
  import opened Replicas
  import opened ReplicaSafety
  import opened ReplicaAccept
  import opened ReplicaVotes

  /** The views voted in, in order. */
  ghost function VotedViews(log: seq<Output>): seq<View> {
    seq(|VotesOf(log)|, i requires 0 <= i < |VotesOf(log)| => VotesOf(log)[i].block.view)
  }

  lemma {:induction false} AcceptedViews(env: Env, r: Replica, b: Block)
    ensures VotedViews(HandleBlock(env, r, b).0.log) ==
            VotedViews(r.log) + if HandleBlock(env, r, b).1 == Accepted then [b.view] else []
  {
    hide HandleBlock, VotesOf, Judged;
    AcceptedIsVoted(env, r, b);
  }

  ghost predicate OneVotePerView(log: seq<Output>) {
    NoDuplicates(VotedViews(log))
  }

  /** No buffered block was voted for, other than those of the views in hand. */
  ghost predicate Unvoted(r: Replica, inHand: set<View>) {
    forall v :: v in r.bufferedBlocks ==> v + 1 in inHand || v + 1 !in VotedViews(r.log)
  }

  /** The votes that handling a block may add. */
  ghost predicate VotesFrom(a: Replica, b: Replica, view: View) {
    && (forall x :: x in VotedViews(b.log) ==> x in VotedViews(a.log) || x == view || x - 1 in a.bufferedBlocks)
    && (forall v :: v in b.bufferedBlocks ==> v in a.bufferedBlocks || (v + 1 == view && b.log == a.log))
  }

  lemma {:induction false} HandleVotesOnce(env: Env, r: Replica, b: Block, inHand: set<View>)
    requires Aligned(r.bufferedBlocks) && OneVotePerView(r.log) && Unvoted(r, inHand)
    requires b.view in inHand && b.view !in VotedViews(r.log)
    ensures var (h, verdict) := HandleBlock(env, r, b);
            && OneVotePerView(h.log) && Unvoted(h, inHand) && VotesFrom(r, h, b.view)
            && VotedViews(h.log) == VotedViews(r.log) + if verdict == Accepted then [b.view] else []
  {
    AcceptedViews(env, r, b);
    HandlingKeepsBuffer(env, r, b);
    hide FollowQC, AddBlock, CastVote, VotingRule, VotedViews;
  }

  lemma {:induction false} BlockVotesOnce(env: Env, r: Replica, b: Block, inHand: set<View>)
    requires Aligned(r.bufferedBlocks) && OneVotePerView(r.log) && Unvoted(r, inHand)
    requires b.view in inHand && b.view !in VotedViews(r.log) && forall x :: x in inHand ==> x <= b.view
    ensures var q := ProcessBlock(env, r, b);
            OneVotePerView(q.log) && Unvoted(q, inHand) && VotesFrom(r, q, b.view)
    decreases KeysFrom(r.bufferedBlocks, b.view)
  {
    hide HandleBlock, VotedViews, OneVotePerView, Unvoted, VotesFrom;
    HandleVotesOnce(env, r, b, inHand);
    var (h, verdict) := HandleBlock(env, r, b);
    if verdict == Accepted && b.view in h.bufferedBlocks {
      BufferedBlocksDescend(env, r, b);
      HandlingKeepsBuffer(env, r, b);
      var next := h.bufferedBlocks[b.view];
      NextUnvoted(r, h, b.view, inHand);
      BlockVotesOnce(env, h, next, inHand + {b.view + 1});
      DropVoted(r, h, ProcessBlock(env, h, next), b.view, inHand);
    }
  }

  lemma {:induction false} NextUnvoted(r: Replica, h: Replica, view: View, inHand: set<View>)
    requires view in r.bufferedBlocks && h.bufferedBlocks == r.bufferedBlocks && view + 1 !in inHand
    requires Unvoted(r, inHand) && Unvoted(h, inHand) && VotedViews(h.log) == VotedViews(r.log) + [view]
    ensures Unvoted(h, inHand + {view + 1}) && view + 1 !in VotedViews(h.log)
  {
    hide VotedViews;
  }

  /** When the buffered block of the next view was handled and is dropped. */
  lemma {:induction false} DropVoted(r: Replica, h: Replica, q: Replica, view: View, inHand: set<View>)
    requires view in r.bufferedBlocks && h.bufferedBlocks == r.bufferedBlocks && VotesFrom(r, h, view)
    requires Unvoted(q, inHand + {view + 1}) && VotesFrom(h, q, view + 1)
    ensures var d := q.(bufferedBlocks := q.bufferedBlocks - {view});
            Unvoted(d, inHand) && VotesFrom(r, d, view)
  {
    hide VotedViews;
  }

  // ----- Views that are proposed once

  ghost predicate DistinctViews(es: seq<Event>) {
    forall i, j :: 0 <= i < j < |es| && es[i].BlockArrives? && es[j].BlockArrives? ==> es[i].block.view != es[j].block.view
  }

  ghost predicate Delivered(es: seq<Event>, view: View) {
    exists i :: 0 <= i < |es| && es[i].BlockArrives? && es[i].block.view == view
  }

  /** Votes and buffered blocks come from delivered blocks. */
  ghost predicate FromDelivered(es: seq<Event>, r: Replica) {
    && (forall x :: x in VotedViews(r.log) ==> Delivered(es, x))
    && (forall v :: v in r.bufferedBlocks ==> Delivered(es, v + 1))
  }

  lemma {:induction false} OthersAddNoView(env: Env, r: Replica, e: Event)
    requires Aligned(r.bufferedBlocks) && !e.BlockArrives?
    ensures VotedViews(Next(env, r, e).log) == VotedViews(r.log) && Next(env, r, e).bufferedBlocks == r.bufferedBlocks
  {
    hide Next, VotesOf;
    OthersCastNoVote(env, r, e);
  }

  lemma {:induction false} DeliveredStep(es: seq<Event>, e: Event, view: View)
    ensures Delivered(es + [e], view) <==> Delivered(es, view) || (e.BlockArrives? && e.block.view == view)
  {
    var more := es + [e];
    if i :| 0 <= i < |es| && es[i].BlockArrives? && es[i].block.view == view {
      assert more[i] == es[i];
    }
    assert more[|es|] == e;
  }

  lemma {:induction false} NewBlockVotesOnce(env: Env, es: seq<Event>, r: Replica, b: Block)
    requires Aligned(r.bufferedBlocks) && OneVotePerView(r.log) && Unvoted(r, {}) && FromDelivered(es, r)
    requires !Delivered(es, b.view)
    ensures var q := ProcessBlock(env, r, b);
            OneVotePerView(q.log) && Unvoted(q, {}) && FromDelivered(es + [BlockArrives(b)], q)
  {
    hide ProcessBlock, VotedViews, Delivered;
    forall view {
      DeliveredStep(es, BlockArrives(b), view);
    }
    BlockVotesOnce(env, r, b, {b.view});
  }

  lemma {:induction false} RunAddsEachViewOnce(env: Env, es: seq<Event>)
    requires DistinctViews(es)
    ensures OneVotePerView(Run(env, es).log) && Unvoted(Run(env, es), {}) && FromDelivered(es, Run(env, es))
    decreases |es|
  {
    if es != [] {
      hide Next, VotedViews, Delivered;
      var before, e := es[..|es| - 1], es[|es| - 1];
      assert es == before + [e];
      RunAddsEachViewOnce(env, before);
      forall view {
        DeliveredStep(before, e, view);
      }
      if e.BlockArrives? {
        NewBlockVotesOnce(env, before, Run(env, before), e.block);
      } else {
        OthersAddNoView(env, Run(env, before), e);
      }
    }
  }

  /** Over every run in which no view is proposed twice, the replica votes at most once in each view. */
  lemma {:induction false} RunVotesOnce(env: Env, blocks: Blocks, es: seq<Event>)
    requires DistinctViews(es)
    ensures Obeys(VoteOnce, env, blocks, VotesOf(Run(env, es).log))
  {
    RunAddsEachViewOnce(env, es);
    hide Run, VotesOf;
    var votes, views := VotesOf(Run(env, es).log), VotedViews(Run(env, es).log);
    assert forall i :: 0 <= i < |votes| ==> views[i] == votes[i].block.view;
  }

  // ----- Blocks that arrive in increasing views

  ghost predicate ViewsArriveUpwards(es: seq<Event>) {
    forall i, j :: 0 <= i < j < |es| && es[i].BlockArrives? && es[j].BlockArrives? ==> es[i].block.view < es[j].block.view
  }

  /** Nothing voted for or buffered has the view or a higher one. */
  ghost predicate AllBelow(r: Replica, view: View) {
    (forall x :: x in VotedViews(r.log) ==> x < view) && (forall v :: v in r.bufferedBlocks ==> v + 1 < view)
  }

  ghost predicate Upwards(views: seq<View>) {
    forall i, j :: 0 <= i < j < |views| ==> views[i] < views[j]
  }

  lemma {:induction false} HigherBlock(env: Env, r: Replica, b: Block)
    requires Aligned(r.bufferedBlocks) && Upwards(VotedViews(r.log)) && AllBelow(r, b.view)
    ensures Upwards(VotedViews(ProcessBlock(env, r, b).log)) && AllBelow(ProcessBlock(env, r, b), b.view + 1)
  {
    AcceptedViews(env, r, b);
    HandlingKeepsBuffer(env, r, b);
    UpwardsAppend(VotedViews(r.log), b.view);
    assert VotedViews(r.log) + [] == VotedViews(r.log);
    hide FollowQC, AddBlock, CastVote, VotingRule, VotedViews;
  }

  lemma {:induction false} UpwardsAppend(views: seq<View>, view: View)
    requires Upwards(views) && forall x :: x in views ==> x < view
    ensures Upwards(views + [view])
  {
    var all := views + [view];
    assert forall i :: 0 <= i < |views| ==> all[i] == views[i] && all[i] in views;
  }

  lemma {:induction false} BelowLater(r: Replica, low: View, high: View)
    requires AllBelow(r, low) && low <= high
    ensures AllBelow(r, high)
  {
    hide VotedViews;
  }

  ghost function NextView(es: seq<Event>): View {
    if es == [] then 0
    else if es[|es| - 1].BlockArrives? then es[|es| - 1].block.view + 1
    else NextView(es[..|es| - 1])
  }

  lemma {:induction false} NextViewArrives(es: seq<Event>, b: Block)
    requires ViewsArriveUpwards(es + [BlockArrives(b)])
    ensures NextView(es) <= b.view
    decreases |es|
  {
    if es != [] {
      var before, e := es[..|es| - 1], es[|es| - 1];
      var all, less := es + [BlockArrives(b)], before + [BlockArrives(b)];
      assert all[|es|] == BlockArrives(b) && forall i :: 0 <= i < |es| ==> all[i] == es[i];
      if e.BlockArrives? {
        assert all[|es| - 1] == e;
      } else {
        assert forall i :: 0 <= i < |before| ==> less[i] == es[i];
        NextViewArrives(before, b);
      }
    }
  }

  lemma {:induction false} RunGoesUpwards(env: Env, es: seq<Event>)
    requires ViewsArriveUpwards(es)
    ensures Upwards(VotedViews(Run(env, es).log)) && AllBelow(Run(env, es), NextView(es))
    decreases |es|
  {
    if es != [] {
      hide VotedViews, AllBelow, Upwards;
      var before, e := es[..|es| - 1], es[|es| - 1];
      RunGoesUpwards(env, before);
      if e.BlockArrives? {
        hide ProcessBlock;
        assert before + [BlockArrives(e.block)] == es;
        NextViewArrives(before, e.block);
        BelowLater(Run(env, before), NextView(before), e.block.view);
        HigherBlock(env, Run(env, before), e.block);
      } else {
        hide Next;
        OthersAddNoView(env, Run(env, before), e);
        SameBelow(Run(env, before), Next(env, Run(env, before), e), NextView(before));
      }
    }
  }

  lemma {:induction false} SameBelow(a: Replica, b: Replica, view: View)
    requires AllBelow(a, view) && VotedViews(b.log) == VotedViews(a.log) && b.bufferedBlocks == a.bufferedBlocks
    ensures AllBelow(b, view)
  {
    hide VotedViews;
  }

  /** Over every run in which blocks arrive in increasing views, the votes go upwards. */
  lemma {:induction false} RunVotesUpwards(env: Env, blocks: Blocks, es: seq<Event>)
    requires ViewsArriveUpwards(es)
    ensures Obeys(VoteUpwards, env, blocks, VotesOf(Run(env, es).log))
  {
    RunGoesUpwards(env, es);
    hide Run, VotesOf;
    var votes, views := VotesOf(Run(env, es).log), VotedViews(Run(env, es).log);
    assert forall i :: 0 <= i < |votes| ==> views[i] == votes[i].block.view;
  }
}
