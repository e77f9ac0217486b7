/**
 The acknowledgement mempool (mempool/ackmem.go): a microblock is pending until enough acks or
 a stable message for it arrive, is then queued, and leaves the queue when this node proposes it
 or when another node's proposal names it. Signatures and transport are left out.
 */
module AckMem {
  import opened Prelude
  import opened Blocks

  datatype Settings = Settings(threshold: int, bsize: int, grouped: bool, myGroups: set<int>)

  datatype Ack = Ack(from: NodeId, hash: Hash, outGroup: bool)

  datatype Stable = Stable(hash: Hash, group: int, txNums: nat, ackInGroup: set<NodeId>)

  datatype Pending = Pending(mb: MicroBlock, ackNum: int, ackInGroup: set<NodeId>)

  /** The last two fields record what left the queue, and how; the source does not keep them. */
  datatype Pool = Pool(
    queue: seq<MicroBlock>,
    known: map<Hash, MicroBlock>,
    pending: map<Hash, Pending>,
    ackBuffer: map<Hash, set<NodeId>>,
    stableIds: set<Hash>,
    stableInfo: map<Hash, Stable>,
    totalStable: nat,
    proposed: seq<Hash>,
    dropped: seq<Hash>)

  const EMPTY := Pool([], map[], map[], map[], {}, map[], 0, [], [])

  // ----- The handlers

  function Buffered(s: Pool, h: Hash): set<NodeId> {
    if h in s.ackBuffer then s.ackBuffer[h] else {}
  }

  function Push(s: Pool, mb: MicroBlock): Pool {
    s.(queue := s.queue + [mb], stableIds := s.stableIds + {mb.hash}, totalStable := s.totalStable + 1)
  }

  /** A microblock arrives. A shell that stood in for it is replaced; an ack may have come before it. */
  function AfterArrival(c: Settings, s: Pool, mb: MicroBlock): Pool {
    if mb.hash in s.known then
      if s.known[mb.hash].fake then s.(known := s.known[mb.hash := mb]) else s
    else
      var own := if mb.group in c.myGroups then {mb.sender} else {};
      var s1 := s.(known := s.known[mb.hash := mb]);
      var pm := Pending(mb, 1 + |Buffered(s, mb.hash)|, own + Buffered(s, mb.hash));
      if mb.hash in s.ackBuffer && pm.ackNum >= c.threshold then
        if mb.hash in s.stableIds then s1
        else Push(s1, mb).(pending := s1.pending - {mb.hash})
      else s1.(pending := s1.pending[mb.hash := pm])
  }

  /** An ack arrives; the replica drops it if its microblock is stable already. */
  function AfterAck(c: Settings, s: Pool, ack: Ack): Pool {
    if ack.hash in s.stableIds then s
    else if ack.hash in s.pending then
      var p := s.pending[ack.hash];
      var counts := !c.grouped || !ack.outGroup;
      var p' := if counts then p.(ackNum := p.ackNum + 1, ackInGroup := p.ackInGroup + {ack.from}) else p;
      if p'.ackNum >= c.threshold && p'.mb.hash !in s.stableIds then
        Push(s, p'.mb).(pending := s.pending - {ack.hash},
                        stableInfo := s.stableInfo[p'.mb.hash := Stable(p'.mb.hash, p'.mb.group, p'.mb.txns, p'.ackInGroup)])
      else s.(pending := s.pending[ack.hash := p'])
    else if !ack.outGroup then s.(ackBuffer := s.ackBuffer[ack.hash := Buffered(s, ack.hash) + {ack.from}])
    else s
  }

  /** The shell queued for a microblock that is stable elsewhere and unknown here. */
  function Shell(st: Stable): MicroBlock {
    MicroBlock(st.hash, st.group, st.txNums, 0, true, 0, 0)
  }

  function AfterStable(s: Pool, st: Stable): Pool {
    if st.hash in s.stableIds then s
    else
      var s1 := s.(stableInfo := s.stableInfo[st.hash := st]);
      var s2 := if st.hash in s.pending then Push(s1, s.pending[st.hash].mb).(pending := s.pending - {st.hash}) else s1;
      if st.hash in s.known then s2
      else Push(s2, Shell(st)).(known := s.known[st.hash := Shell(st)])
  }

  function AfterResent(s: Pool, mb: MicroBlock): Pool {
    s.(known := s.known[mb.hash := mb])
  }

  function BatchSize(c: Settings, length: nat): (n: nat)
    ensures n <= length && (n < length ==> n >= c.bsize)
    ensures if c.bsize >= 0 then n <= c.bsize else n == 0
  {
    if length < c.bsize then length else if c.bsize < 0 then 0 else c.bsize
  }

  function AckNodesOf(s: Pool, mbs: seq<MicroBlock>): (r: seq<set<NodeId>>)
    ensures |r| == |mbs|
  {
    seq(|mbs|, i requires 0 <= i < |mbs| =>
      if mbs[i].hash in s.stableInfo then s.stableInfo[mbs[i].hash].ackInGroup else {})
  }

  function TxNumsOf(mbs: seq<MicroBlock>): (r: seq<nat>)
    ensures |r| == |mbs| && forall i :: 0 <= i < |mbs| ==> r[i] == mbs[i].txns
  {
    seq(|mbs|, i requires 0 <= i < |mbs| => mbs[i].txns)
  }

  /** In group mode the queue is sorted first, by a sort that need not be stable: any such order may come out. */
  ghost predicate CanSortTo(c: Settings, queue: seq<MicroBlock>, order: seq<MicroBlock>) {
    if c.grouped then multiset(order) == multiset(queue) && SortedByGroup(order) else order == queue
  }

  ghost predicate SortedByGroup(mbs: seq<MicroBlock>) {
    forall i, j :: 0 <= i < j < |mbs| ==> mbs[i].group <= mbs[j].group
  }

  function TakePayload(c: Settings, s: Pool, order: seq<MicroBlock>): (Pool, Payload) {
    var n := BatchSize(c, |order|);
    var mbs := order[..n];
    (s.(queue := order[n..], proposed := s.proposed + HashesOf(mbs)), Payload(mbs, AckNodesOf(s, mbs), TxNumsOf(mbs)))
  }

  function RemoveFirst(queue: seq<MicroBlock>, h: Hash): seq<MicroBlock> {
    if queue == [] then []
    else if queue[0].hash == h then queue[1..]
    else [queue[0]] + RemoveFirst(queue[1..], h)
  }

  /** What the block gets for the i-th hash of a proposal: the known microblock, or a shell. */
  function FetchedAt(s: Pool, p: Proposal, i: nat): MicroBlock
    requires p.Aligned() && i < |p.hashes|
  {
    if p.hashes[i] in s.known then s.known[p.hashes[i]]
    else MicroBlock(p.hashes[i], p.groups[i], p.txNums[i], p.times[i], true, 0, 0)
  }

  function Forget(s: Pool, h: Hash): Pool {
    s.(pending := s.pending - {h}, queue := RemoveFirst(s.queue, h),
       dropped := if h in HashesOf(s.queue) then s.dropped + [h] else s.dropped)
  }

  /** Handles the first n hashes of a proposal. */
  function FetchUpTo(s: Pool, p: Proposal, n: nat): (r: (Pool, seq<MicroBlock>))
    requires p.Aligned() && n <= |p.hashes|
    ensures |r.1| == n
  {
    if n == 0 then (s, [])
    else
      var (s', mbs) := FetchUpTo(s, p, n - 1);
      (Forget(s', p.hashes[n - 1]), mbs + [FetchedAt(s', p, n - 1)])
  }

  function Fetch(s: Pool, p: Proposal): (Pool, seq<MicroBlock>)
    requires p.Aligned()
  {
    FetchUpTo(s, p, |p.hashes|)
  }

  // ----- Runs

  datatype Event =
    | Arrive(mb: MicroBlock)
    | Acked(ack: Ack)
    | StableSeen(st: Stable)
    | Resent(mb: MicroBlock)
    | ProposeOwn(order: seq<MicroBlock>)
    | ProposalSeen(p: Proposal)

  ghost predicate Possible(c: Settings, s: Pool, e: Event) {
    match e
    case ProposeOwn(order) => CanSortTo(c, s.queue, order)
    case ProposalSeen(p) => p.Aligned()
    case _ => true
  }

  function Next(c: Settings, s: Pool, e: Event): Pool
    requires e.ProposalSeen? ==> e.p.Aligned()
  {
    match e
    case Arrive(mb) => AfterArrival(c, s, mb)
    case Acked(ack) => AfterAck(c, s, ack)
    case StableSeen(st) => AfterStable(s, st)
    case Resent(mb) => AfterResent(s, mb)
    case ProposeOwn(order) => TakePayload(c, s, order).0
    case ProposalSeen(p) => Fetch(s, p).0
  }

  ghost predicate CanRun(c: Settings, s: Pool, es: seq<Event>)
    decreases |es|
  {
    es == [] || (Possible(c, s, es[0]) && CanRun(c, Next(c, s, es[0]), es[1..]))
  }

  ghost function Run(c: Settings, s: Pool, es: seq<Event>): Pool
    requires CanRun(c, s, es)
    decreases |es|
  {
    if es == [] then s else Run(c, Next(c, s, es[0]), es[1..])
  }

  // ----- The lifecycle of a microblock

  /** Each stable microblock is in one place: queued, proposed by this node, or dropped for another's proposal. */
  ghost predicate Accounted(s: Pool) {
    multiset(s.stableIds) == multiset(HashesOf(s.queue)) + multiset(s.proposed) + multiset(s.dropped)
  }

  ghost predicate KeyedByHash(s: Pool) {
    && (forall h :: h in s.known ==> s.known[h].hash == h)
    && (forall h :: h in s.pending ==> s.pending[h].mb.hash == h)
  }

  ghost predicate Lifecycle(s: Pool) {
    && KeyedByHash(s)
    && s.pending.Keys <= s.known.Keys
    && s.pending.Keys !! s.stableIds
    && s.stableIds <= s.known.Keys
    && s.totalStable == |s.stableIds|
    && Accounted(s)
  }

  lemma {:induction false} PushKeeps(s: Pool, mb: MicroBlock)
    requires Lifecycle(s) && mb.hash in s.known && mb.hash !in s.stableIds
    ensures Lifecycle(Push(s, mb).(pending := s.pending - {mb.hash}))
  {
    assert HashesOf(s.queue + [mb]) == HashesOf(s.queue) + [mb.hash];
    assert multiset(s.stableIds + {mb.hash}) == multiset(s.stableIds) + multiset{mb.hash};
  }

  lemma {:induction false} LearnKeeps(s: Pool, mb: MicroBlock)
    requires Lifecycle(s)
    ensures Lifecycle(s.(known := s.known[mb.hash := mb]))
  {
  }

  lemma {:induction false} WaitKeeps(s: Pool, p: Pending)
    requires Lifecycle(s) && p.mb.hash in s.known && p.mb.hash !in s.stableIds
    ensures Lifecycle(s.(pending := s.pending[p.mb.hash := p]))
  {
  }

  lemma {:induction false} AddMicroblockKeeps(c: Settings, s: Pool, mb: MicroBlock)
    requires Lifecycle(s)
    ensures Lifecycle(AfterArrival(c, s, mb))
  {
    LearnKeeps(s, mb);
    if mb.hash !in s.known {
      var s1 := s.(known := s.known[mb.hash := mb]);
      var s2 := AfterArrival(c, s, mb);
      if mb.hash in s2.pending {
        WaitKeeps(s1, s2.pending[mb.hash]);
      } else {
        PushKeeps(s1, mb);
      }
    }
  }

  lemma {:induction false} AddAckKeeps(c: Settings, s: Pool, ack: Ack)
    requires Lifecycle(s)
    ensures Lifecycle(AfterAck(c, s, ack))
  {
    if ack.hash !in s.stableIds && ack.hash in s.pending {
      var target := AfterAck(c, s, ack);
      if ack.hash in target.pending {
        WaitKeeps(s, target.pending[ack.hash]);
      } else {
        PushKeeps(s, s.pending[ack.hash].mb);
      }
    }
  }

  lemma {:induction false} AddStableKeeps(s: Pool, st: Stable)
    requires Lifecycle(s)
    ensures Lifecycle(AfterStable(s, st))
  {
    if st.hash in s.pending {
      PushKeeps(s, s.pending[st.hash].mb);
    } else if st.hash !in s.known {
      PushKeeps(s.(known := s.known[st.hash := Shell(st)]), Shell(st));
      assert s.pending - {st.hash} == s.pending;
    }
  }

  lemma {:induction false} WithoutHashes(a: seq<MicroBlock>, i: nat)
    requires i < |a|
    ensures multiset(a) == multiset(Without(a, i)) + multiset{a[i]}
    ensures multiset(HashesOf(a)) == multiset(HashesOf(Without(a, i))) + multiset{a[i].hash}
  {
    WithoutCounts(a, i);
    WithoutCounts(HashesOf(a), i);
    assert HashesOf(Without(a, i)) == Without(HashesOf(a), i);
  }

  /** A permutation of microblocks permutes their hashes. */
  lemma {:induction false} PermutedHashes(a: seq<MicroBlock>, b: seq<MicroBlock>)
    requires multiset(a) == multiset(b)
    ensures multiset(HashesOf(a)) == multiset(HashesOf(b))
    decreases |a|
  {
    if a == [] {
      assert |multiset(b)| == 0;
    } else {
      assert a[0] in multiset(b);
      var j :| 0 <= j < |b| && b[j] == a[0];
      var a', b' := Without(a, 0), Without(b, j);
      WithoutHashes(a, 0);
      WithoutHashes(b, j);
      assert multiset(a') == multiset(a) - multiset{a[0]} && multiset(b') == multiset(b) - multiset{b[j]};
      PermutedHashes(a', b');
    }
  }

  lemma {:induction false} GeneratePayloadKeeps(c: Settings, s: Pool, order: seq<MicroBlock>)
    requires Lifecycle(s) && CanSortTo(c, s.queue, order)
    ensures Lifecycle(TakePayload(c, s, order).0)
  {
    hide SortedByGroup, AckNodesOf, TxNumsOf, HashesOf, BatchSize;
    PermutedHashes(order, s.queue);
    TakenAndLeft(order, BatchSize(c, |order|));
  }

  lemma {:induction false} TakenAndLeft(order: seq<MicroBlock>, n: nat)
    requires n <= |order|
    ensures multiset(HashesOf(order)) == multiset(HashesOf(order[..n])) + multiset(HashesOf(order[n..]))
  {
    assert HashesOf(order) == HashesOf(order[..n]) + HashesOf(order[n..]);
  }

  lemma {:induction false} FirstHash(mb: MicroBlock, rest: seq<MicroBlock>)
    ensures HashesOf([mb] + rest) == [mb.hash] + HashesOf(rest)
  {
  }

  lemma {:induction false} RemoveFirstHashes(queue: seq<MicroBlock>, h: Hash)
    ensures multiset(HashesOf(queue)) ==
            multiset(HashesOf(RemoveFirst(queue, h))) + if h in HashesOf(queue) then multiset{h} else multiset{}
    decreases |queue|
  {
    if queue != [] {
      var rest := queue[1..];
      FirstHash(queue[0], rest);
      assert queue == [queue[0]] + rest;
      hide HashesOf;
      if queue[0].hash != h {
        RemoveFirstHashes(rest, h);
        FirstHash(queue[0], RemoveFirst(rest, h));
      }
    }
  }

  lemma {:induction false} ForgetKeeps(s: Pool, h: Hash)
    requires Lifecycle(s)
    ensures Lifecycle(Forget(s, h))
  {
    RemoveFirstHashes(s.queue, h);
  }

  lemma {:induction false} FetchKeeps(s: Pool, p: Proposal, n: nat)
    requires Lifecycle(s) && p.Aligned() && n <= |p.hashes|
    ensures Lifecycle(FetchUpTo(s, p, n).0)
    decreases n
  {
    if n > 0 {
      FetchKeeps(s, p, n - 1);
      ForgetKeeps(FetchUpTo(s, p, n - 1).0, p.hashes[n - 1]);
    }
  }

  lemma {:induction false} NextKeeps(c: Settings, s: Pool, e: Event)
    requires Lifecycle(s) && Possible(c, s, e)
    ensures Lifecycle(Next(c, s, e))
  {
    match e {
      case Arrive(mb) => AddMicroblockKeeps(c, s, mb);
      case Acked(ack) => AddAckKeeps(c, s, ack);
      case StableSeen(st) => AddStableKeeps(s, st);
      case Resent(mb) =>
      case ProposeOwn(order) => GeneratePayloadKeeps(c, s, order);
      case ProposalSeen(p) => FetchKeeps(s, p, |p.hashes|);
    }
  }

  lemma {:induction false} RunKeeps(c: Settings, s: Pool, es: seq<Event>)
    requires Lifecycle(s) && CanRun(c, s, es)
    ensures Lifecycle(Run(c, s, es))
    decreases |es|
  {
    if es != [] {
      NextKeeps(c, s, es[0]);
      RunKeeps(c, Next(c, s, es[0]), es[1..]);
    }
  }

  /** Over every run from the empty mempool: nothing is queued twice, and no payload repeats a hash. */
  lemma {:induction false} ProposedAtMostOnce(c: Settings, es: seq<Event>, h: Hash)
    requires CanRun(c, EMPTY, es)
    ensures var s := Run(c, EMPTY, es);
            && Lifecycle(s)
            && multiset(s.proposed)[h] + multiset(s.dropped)[h] + multiset(HashesOf(s.queue))[h]
               == (if h in s.stableIds then 1 else 0)
  {
    RunKeeps(c, EMPTY, es);
    var s := Run(c, EMPTY, es);
    assert multiset(s.stableIds)[h] == if h in s.stableIds then 1 else 0;
  }

  // ----- Fetched microblocks are not proposed again

  /** Known here, and neither pending nor queued: nothing makes such a microblock stable or proposes it. */
  ghost predicate Finished(s: Pool, h: Hash) {
    h in s.known && h !in s.pending && h !in HashesOf(s.queue)
  }

  lemma {:induction false} RemoveFirstIn(queue: seq<MicroBlock>, h: Hash, x: Hash)
    requires x in HashesOf(RemoveFirst(queue, h))
    ensures x in HashesOf(queue)
  {
    RemoveFirstHashes(queue, h);
    assert x in multiset(HashesOf(queue));
  }

  lemma {:induction false} FetchStaysFinished(s: Pool, p: Proposal, n: nat, h: Hash)
    requires p.Aligned() && n <= |p.hashes| && Finished(s, h)
    ensures Finished(FetchUpTo(s, p, n).0, h)
    decreases n
  {
    if n > 0 {
      FetchStaysFinished(s, p, n - 1, h);
      var before := FetchUpTo(s, p, n - 1).0;
      if h in HashesOf(RemoveFirst(before.queue, p.hashes[n - 1])) {
        RemoveFirstIn(before.queue, p.hashes[n - 1], h);
      }
    }
  }

  lemma {:induction false} PushedHashes(queue: seq<MicroBlock>, mb: MicroBlock)
    ensures HashesOf(queue + [mb]) == HashesOf(queue) + [mb.hash]
  {
  }

  lemma {:induction false} AddStableStaysFinished(s: Pool, st: Stable, h: Hash)
    requires KeyedByHash(s) && Finished(s, h)
    ensures Finished(AfterStable(s, st), h)
  {
    var q1 := s.queue;
    if st.hash in s.pending {
      PushedHashes(s.queue, s.pending[st.hash].mb);
      q1 := s.queue + [s.pending[st.hash].mb];
    }
    PushedHashes(q1, Shell(st));
  }

  lemma {:induction false} PayloadStaysFinished(c: Settings, s: Pool, order: seq<MicroBlock>, h: Hash)
    requires CanSortTo(c, s.queue, order) && Finished(s, h)
    ensures Finished(TakePayload(c, s, order).0, h)
    ensures h !in HashesOf(TakePayload(c, s, order).1.mbs)
  {
    PermutedHashes(order, s.queue);
    assert h !in multiset(HashesOf(s.queue));
    assert h !in HashesOf(order);
    var n := BatchSize(c, |order|);
    assert HashesOf(order) == HashesOf(order[..n]) + HashesOf(order[n..]);
  }

  lemma {:induction false} NextStaysFinished(c: Settings, s: Pool, e: Event, h: Hash)
    requires Possible(c, s, e) && KeyedByHash(s) && Finished(s, h)
    ensures Finished(Next(c, s, e), h)
    ensures e.ProposeOwn? ==> h !in HashesOf(TakePayload(c, s, e.order).1.mbs)
  {
    match e {
      case Arrive(mb) => PushedHashes(s.queue, mb);
      case Acked(ack) =>
        if ack.hash in s.pending {
          PushedHashes(s.queue, s.pending[ack.hash].mb);
        }
      case StableSeen(st) => AddStableStaysFinished(s, st, h);
      case Resent(mb) =>
      case ProposeOwn(order) => PayloadStaysFinished(c, s, order, h);
      case ProposalSeen(p) => FetchStaysFinished(s, p, |p.hashes|, h);
    }
  }

  /** Whether some payload of a run names h. */
  ghost predicate Proposes(c: Settings, s: Pool, es: seq<Event>, h: Hash)
    requires CanRun(c, s, es)
    decreases |es|
  {
    es != [] && (|| (es[0].ProposeOwn? && h in HashesOf(TakePayload(c, s, es[0].order).1.mbs))
                 || Proposes(c, Next(c, s, es[0]), es[1..], h))
  }

  lemma {:induction false} FinishedIsNeverProposed(c: Settings, s: Pool, es: seq<Event>, h: Hash)
    requires CanRun(c, s, es) && Lifecycle(s) && Finished(s, h)
    ensures !Proposes(c, s, es, h)
    decreases |es|
  {
    if es != [] {
      NextStaysFinished(c, s, es[0], h);
      NextKeeps(c, s, es[0]);
      FinishedIsNeverProposed(c, Next(c, s, es[0]), es[1..], h);
    }
  }

  // ----- What a fetch does

  /** The block has one microblock for each hash, in order, and no hash of it stays pending or queued. */
  lemma {:induction false} FetchResult(s: Pool, p: Proposal, n: nat)
    requires Lifecycle(s) && p.Aligned() && n <= |p.hashes|
    ensures var (s', mbs) := FetchUpTo(s, p, n);
            && s'.known == s.known
            && (forall i :: 0 <= i < n ==> mbs[i] == FetchedAt(s, p, i) && mbs[i].hash == p.hashes[i])
            && (forall i :: 0 <= i < n ==> p.hashes[i] !in s'.pending && p.hashes[i] !in HashesOf(s'.queue))
    decreases n
  {
    if n > 0 {
      hide Lifecycle, RemoveFirst, HashesOf;
      FetchResult(s, p, n - 1);
      FetchKeeps(s, p, n - 1);
      var (s1, mbs1) := FetchUpTo(s, p, n - 1);
      var h := p.hashes[n - 1];
      RemovedForGood(s1, h);
      FetchedHash(s, p, n - 1);
      forall i | 0 <= i < n - 1
        ensures p.hashes[i] !in HashesOf(RemoveFirst(s1.queue, h))
      {
        if p.hashes[i] in HashesOf(RemoveFirst(s1.queue, h)) {
          RemoveFirstIn(s1.queue, h, p.hashes[i]);
        }
      }
    }
  }

  lemma {:induction false} FetchedHash(s: Pool, p: Proposal, i: nat)
    requires Lifecycle(s) && p.Aligned() && i < |p.hashes|
    ensures FetchedAt(s, p, i).hash == p.hashes[i]
  {
  }

  lemma {:induction false} RemovedForGood(s: Pool, h: Hash)
    requires Lifecycle(s)
    ensures h !in HashesOf(RemoveFirst(s.queue, h))
  {
    RemoveFirstHashes(s.queue, h);
    assert multiset(s.stableIds)[h] <= 1;
    assert multiset(HashesOf(s.queue))[h] <= 1;
    assert multiset(HashesOf(RemoveFirst(s.queue, h)))[h] == 0;
  }

  /** What a leader proposes arrives whole at every follower, whatever the follower holds. */
  lemma {:induction false} ProposalRoundTrip(c: Settings, leader: Pool, order: seq<MicroBlock>, follower: Pool)
    requires CanSortTo(c, leader.queue, order) && Lifecycle(follower)
    ensures var payload := TakePayload(c, leader, order).1;
            var p := Propose(payload);
            && p.Aligned() && |p.ackNodes| == |p.hashes| == |payload.mbs| && payload.mbs <= order
            && (forall i :: 0 <= i < |p.hashes| ==>
                  && p.txNums[i] == payload.mbs[i].txns
                  && p.ackNodes[i] ==
                     if p.hashes[i] in leader.stableInfo then leader.stableInfo[p.hashes[i]].ackInGroup else {})
            && var (after, block) := Fetch(follower, p);
               && HashesOf(block) == p.hashes == HashesOf(payload.mbs)
               && (forall i :: 0 <= i < |block| ==> block[i].hash !in after.pending && block[i].hash !in HashesOf(after.queue))
               && (forall i :: 0 <= i < |block| && block[i].hash in follower.known ==>
                     block[i] == follower.known[block[i].hash])
               && (forall i :: 0 <= i < |block| && block[i].hash !in follower.known ==>
                     && block[i].fake
                     && block[i].group == payload.mbs[i].group
                     && block[i].txns == payload.mbs[i].txns
                     && block[i].time == payload.mbs[i].time)
  {
    var p := Propose(TakePayload(c, leader, order).1);
    FetchResult(follower, p, |p.hashes|);
  }

  // ----- Which fetched microblocks can still be proposed

  function Insert(mb: MicroBlock, mbs: seq<MicroBlock>): (r: seq<MicroBlock>)
    ensures multiset(r) == multiset(mbs) + multiset{mb}
  {
    if mbs == [] then [mb]
    else if mb.group <= mbs[0].group then [mb] + mbs
    else assert mbs == [mbs[0]] + mbs[1..]; [mbs[0]] + Insert(mb, mbs[1..])
  }

  /** One way to sort by group. */
  function Sorted(mbs: seq<MicroBlock>): (r: seq<MicroBlock>)
    ensures multiset(r) == multiset(mbs)
  {
    if mbs == [] then [] else assert mbs == [mbs[0]] + mbs[1..]; Insert(mbs[0], Sorted(mbs[1..]))
  }

  lemma {:induction false} InsertSorts(mb: MicroBlock, mbs: seq<MicroBlock>)
    requires SortedByGroup(mbs)
    ensures SortedByGroup(Insert(mb, mbs))
    decreases |mbs|
  {
    if mbs != [] && mbs[0].group < mb.group {
      var rest := Insert(mb, mbs[1..]);
      InsertSorts(mb, mbs[1..]);
      forall i | 0 <= i < |rest|
        ensures mbs[0].group <= rest[i].group
      {
        assert rest[i] in multiset(rest);
        assert rest[i] == mb || rest[i] in mbs[1..];
      }
    }
  }

  lemma {:induction false} SortedSorts(mbs: seq<MicroBlock>)
    ensures SortedByGroup(Sorted(mbs))
    decreases |mbs|
  {
    if mbs != [] {
      SortedSorts(mbs[1..]);
      InsertSorts(mbs[0], Sorted(mbs[1..]));
    }
  }

  /** A payload takes a queued microblock or at least shortens the queue before it. */
  lemma {:induction false} ProposeOnce(c: Settings, s: Pool, h: Hash) returns (order: seq<MicroBlock>)
    requires c.bsize >= 1 && h in HashesOf(s.queue)
    ensures CanSortTo(c, s.queue, order)
    ensures var (s', payload) := TakePayload(c, s, order);
            h in HashesOf(payload.mbs) || (h in HashesOf(s'.queue) && |s'.queue| < |s.queue|)
  {
    SortedSorts(s.queue);
    order := if c.grouped then Sorted(s.queue) else s.queue;
    assert |order| == |s.queue| by {
      assert |multiset(order)| == |multiset(s.queue)|;
    }
    assert h in HashesOf(order) by {
      PermutedHashes(order, s.queue);
      assert h in multiset(HashesOf(order));
    }
    EitherPart(order, BatchSize(c, |order|), h);
  }

  lemma {:induction false} EitherPart(mbs: seq<MicroBlock>, n: nat, h: Hash)
    requires n <= |mbs| && h in HashesOf(mbs)
    ensures h in HashesOf(mbs[..n]) || h in HashesOf(mbs[n..])
  {
    assert HashesOf(mbs) == HashesOf(mbs[..n]) + HashesOf(mbs[n..]);
  }

  /** With room for at least one microblock in a payload, whatever is queued can be proposed in time. */
  lemma {:induction false} QueuedCanBeProposed(c: Settings, s: Pool, h: Hash) returns (es: seq<Event>)
    requires c.bsize >= 1 && h in HashesOf(s.queue)
    ensures CanRun(c, s, es) && Proposes(c, s, es, h)
    decreases |s.queue|
  {
    var order := ProposeOnce(c, s, h);
    var e := ProposeOwn(order);
    var rest := [];
    if h !in HashesOf(TakePayload(c, s, order).1.mbs) {
      rest := QueuedCanBeProposed(c, Next(c, s, e), h);
    }
    es := [e] + rest;
    assert es[1..] == rest;
  }

  ghost predicate NeverProposed(c: Settings, s: Pool, h: Hash) {
    forall es :: CanRun(c, s, es) ==> !Proposes(c, s, es, h)
  }

  /** A fetched microblock is never proposed here afterwards if, and only if, it was known here. */
  lemma {:induction false} NeverProposedIffKnown(c: Settings, s: Pool, p: Proposal, h: Hash)
    requires Lifecycle(s) && p.Aligned() && h in p.hashes && c.bsize >= 1
    ensures NeverProposed(c, Fetch(s, p).0, h) <==> h in s.known
  {
    var s' := Fetch(s, p).0;
    FetchKeeps(s, p, |p.hashes|);
    FetchResult(s, p, |p.hashes|);
    if h in s.known {
      forall es | CanRun(c, s', es)
        ensures !Proposes(c, s', es, h)
      {
        FinishedIsNeverProposed(c, s', es, h);
      }
    } else {
      var es := UnknownCanBeProposed(c, s', h);
    }
  }

  lemma {:induction false} UnknownCanBeProposed(c: Settings, s: Pool, h: Hash) returns (es: seq<Event>)
    requires c.bsize >= 1 && h !in s.known && h !in s.stableIds
    ensures CanRun(c, s, es) && Proposes(c, s, es, h)
  {
    var e := StableSeen(Stable(h, 0, 0, {}));
    var s1 := Next(c, s, e);
    assert s1.queue[|s1.queue| - 1] == Shell(e.st);
    assert HashesOf(s1.queue)[|s1.queue| - 1] == h;
    var rest := QueuedCanBeProposed(c, s1, h);
    es := [e] + rest;
    assert es[1..] == rest;
  }

  // ----- What makes a microblock stable

  /** The acks for h among the events that this mode counts. */
  ghost function AckCount(c: Settings, seen: seq<Event>, h: Hash): nat {
    if seen == [] then 0
    else
      var e := seen[|seen| - 1];
      AckCount(c, seen[..|seen| - 1], h)
      + if e.Acked? && e.ack.hash == h && (!c.grouped || !e.ack.outGroup) then 1 else 0
  }

  ghost predicate StableIn(seen: seq<Event>, h: Hash) {
    exists i :: 0 <= i < |seen| && seen[i].StableSeen? && seen[i].st.hash == h
  }

  /** Being stable, pending or expected is backed by the messages seen so far. */
  ghost predicate Backed(c: Settings, s: Pool, h: Hash, stableSeen: bool, acks: nat) {
    && (h in s.stableIds ==> stableSeen || 1 + acks >= c.threshold)
    && (h in s.pending ==> s.pending[h].ackNum <= 1 + acks)
    && (h !in s.known ==> |Buffered(s, h)| <= acks)
  }

  lemma {:induction false} SeenGrows(c: Settings, seen: seq<Event>, e: Event, h: Hash)
    ensures AckCount(c, seen + [e], h) == AckCount(c, seen, h)
              + if e.Acked? && e.ack.hash == h && (!c.grouped || !e.ack.outGroup) then 1 else 0
    ensures StableIn(seen, h) ==> StableIn(seen + [e], h)
    ensures e.StableSeen? && e.st.hash == h ==> StableIn(seen + [e], h)
  {
    assert (seen + [e])[..|seen|] == seen;
    if StableIn(seen, h) {
      var i :| 0 <= i < |seen| && seen[i].StableSeen? && seen[i].st.hash == h;
      assert (seen + [e])[i] == seen[i];
    }
    assert (seen + [e])[|seen|] == e;
  }

  lemma {:induction false} TakeFrame(c: Settings, s: Pool, order: seq<MicroBlock>)
    requires CanSortTo(c, s.queue, order)
    ensures var s' := TakePayload(c, s, order).0; s' == s.(queue := s'.queue, proposed := s'.proposed)
  {
  }

  lemma {:induction false} FetchFrame(s: Pool, p: Proposal, n: nat)
    requires p.Aligned() && n <= |p.hashes|
    ensures var s' := FetchUpTo(s, p, n).0;
            && s'.known == s.known && s'.stableIds == s.stableIds && s'.ackBuffer == s.ackBuffer
            && (forall h :: h in s'.pending ==> h in s.pending && s'.pending[h] == s.pending[h])
    decreases n
  {
    if n > 0 {
      FetchFrame(s, p, n - 1);
    }
  }

  lemma {:induction false} ArrivalBacked(c: Settings, s: Pool, mb: MicroBlock, h: Hash, stableSeen: bool, acks: nat)
    requires KeyedByHash(s) && Backed(c, s, h, stableSeen, acks)
    ensures Backed(c, AfterArrival(c, s, mb), h, stableSeen, acks)
  {
    if mb.hash != h {
      assert h in AfterArrival(c, s, mb).pending ==> AfterArrival(c, s, mb).pending[h] == s.pending[h];
    }
  }

  lemma {:induction false} OtherAckBacked(c: Settings, s: Pool, ack: Ack, h: Hash, stableSeen: bool, acks: nat)
    requires KeyedByHash(s) && ack.hash != h && Backed(c, s, h, stableSeen, acks)
    ensures Backed(c, AfterAck(c, s, ack), h, stableSeen, acks)
  {
  }

  lemma {:induction false} AckBacked(c: Settings, s: Pool, ack: Ack, h: Hash, stableSeen: bool, acks: nat)
    requires KeyedByHash(s) && s.pending.Keys <= s.known.Keys && Backed(c, s, h, stableSeen, acks)
    ensures Backed(c, AfterAck(c, s, ack), h, stableSeen,
                   acks + if ack.hash == h && (!c.grouped || !ack.outGroup) then 1 else 0)
  {
    if ack.hash == h {
      assert |Buffered(s, h) + {ack.from}| <= |Buffered(s, h)| + 1;
    } else {
      OtherAckBacked(c, s, ack, h, stableSeen, acks);
    }
  }

  lemma {:induction false} NextBacked(c: Settings, s: Pool, seen: seq<Event>, e: Event, h: Hash)
    requires Lifecycle(s) && Possible(c, s, e) && Backed(c, s, h, StableIn(seen, h), AckCount(c, seen, h))
    ensures Backed(c, Next(c, s, e), h, StableIn(seen + [e], h), AckCount(c, seen + [e], h))
  {
    hide AfterArrival, AfterAck, FetchUpTo, TakePayload, StableIn, AckCount, CanSortTo;
    SeenGrows(c, seen, e, h);
    match e {
      case Arrive(mb) => ArrivalBacked(c, s, mb, h, StableIn(seen, h), AckCount(c, seen, h));
      case Acked(ack) => AckBacked(c, s, ack, h, StableIn(seen, h), AckCount(c, seen, h));
      case StableSeen(st) =>
      case Resent(mb) =>
      case ProposeOwn(order) => TakeFrame(c, s, order);
      case ProposalSeen(p) => FetchFrame(s, p, |p.hashes|);
    }
  }

  lemma {:induction false} RunBacked(c: Settings, s: Pool, seen: seq<Event>, es: seq<Event>, h: Hash)
    requires Lifecycle(s) && CanRun(c, s, es) && Backed(c, s, h, StableIn(seen, h), AckCount(c, seen, h))
    ensures Backed(c, Run(c, s, es), h, StableIn(seen + es, h), AckCount(c, seen + es, h))
    decreases |es|
  {
    if es == [] {
      assert seen + es == seen;
    } else {
      NextKeeps(c, s, es[0]);
      NextBacked(c, s, seen, es[0], h);
      RunBacked(c, Next(c, s, es[0]), seen + [es[0]], es[1..], h);
      assert seen + [es[0]] + es[1..] == seen + es;
    }
  }

  /** Nothing becomes stable without a stable message or enough ack messages; the sender counts as one. */
  lemma {:induction false} StableNeedsAcks(c: Settings, es: seq<Event>, h: Hash)
    requires CanRun(c, EMPTY, es) && h in Run(c, EMPTY, es).stableIds
    ensures StableIn(es, h) || 1 + AckCount(c, es, h) >= c.threshold
  {
    RunBacked(c, EMPTY, [], es, h);
    assert [] + es == es;
  }

  // ----- The mempool that is updated in place

  class Mempool {
    const settings: Settings
    var stableMicroblocks: seq<MicroBlock>
    var microblockMap: map<Hash, MicroBlock>
    var pendingMicroblocks: map<Hash, Pending>
    var ackBuffer: map<Hash, set<NodeId>>
    var stableMBs: set<Hash>
    var stableBuffer: map<Hash, Stable>
    var totalStableMbs: nat
    ghost var proposed: seq<Hash>
    ghost var dropped: seq<Hash>

    constructor (settings: Settings)
      ensures this.settings == settings && Now() == EMPTY
    {
      this.settings := settings;
      stableMicroblocks, microblockMap, pendingMicroblocks, ackBuffer := [], map[], map[], map[];
      stableMBs, stableBuffer, totalStableMbs, proposed, dropped := {}, map[], 0, [], [];
    }

    ghost function Now(): Pool
      reads this
    {
      Pool(stableMicroblocks, microblockMap, pendingMicroblocks, ackBuffer, stableMBs, stableBuffer, totalStableMbs,
           proposed, dropped)
    }

    method PushStable(mb: MicroBlock)
      modifies this
      ensures Now() == Push(old(Now()), mb)
    {
      stableMicroblocks := stableMicroblocks + [mb];
      stableMBs := stableMBs + {mb.hash};
      totalStableMbs := totalStableMbs + 1;
    }

    method AddMicroblock(mb: MicroBlock)
      modifies this
      ensures Now() == AfterArrival(settings, old(Now()), mb)
    {
      if mb.hash in microblockMap && !microblockMap[mb.hash].fake {
        return;
      }
      if mb.hash in microblockMap {
        microblockMap := microblockMap[mb.hash := mb];
        return;
      }
      var ackNum := 1;
      var ackInGroup := if mb.group in settings.myGroups then {mb.sender} else {};
      microblockMap := microblockMap[mb.hash := mb];
      if mb.hash in ackBuffer {
        ackNum, ackInGroup := CountBuffered(ackBuffer[mb.hash], ackInGroup);
        if ackNum >= settings.threshold {
          if mb.hash !in stableMBs {
            PushStable(mb);
            pendingMicroblocks := pendingMicroblocks - {mb.hash};
          }
          return;
        }
      } else {
        assert ackInGroup + Buffered(Now(), mb.hash) == ackInGroup;
      }
      pendingMicroblocks := pendingMicroblocks[mb.hash := Pending(mb, ackNum, ackInGroup)];
    }

    /** Counts the acks that came before their microblock, and the sender. */
    static method CountBuffered(buffer: set<NodeId>, own: set<NodeId>) returns (ackNum: int, ackInGroup: set<NodeId>)
      ensures ackNum == 1 + |buffer| && ackInGroup == own + buffer
    {
      ackNum, ackInGroup := 1, own;
      var left := buffer;
      while left != {}
        invariant left <= buffer
        invariant ackNum == 1 + |buffer| - |left|
        invariant ackInGroup == own + (buffer - left)
      {
        var id :| id in left;
        left := left - {id};
        ackNum := ackNum + 1;
        ackInGroup := ackInGroup + {id};
      }
    }

    method ProcessAck(ack: Ack)
      modifies this
      ensures Now() == AfterAck(settings, old(Now()), ack)
    {
      if ack.hash in stableMBs {
        return;
      }
      if ack.hash in pendingMicroblocks {
        var target := pendingMicroblocks[ack.hash];
        if !settings.grouped || !ack.outGroup {
          target := target.(ackNum := target.ackNum + 1, ackInGroup := target.ackInGroup + {ack.from});
        }
        if target.ackNum >= settings.threshold && target.mb.hash !in stableMBs {
          PushStable(target.mb);
          pendingMicroblocks := pendingMicroblocks - {ack.hash};
          stableBuffer := stableBuffer[target.mb.hash :=
              Stable(target.mb.hash, target.mb.group, target.mb.txns, target.ackInGroup)];
        } else {
          pendingMicroblocks := pendingMicroblocks[ack.hash := target];
        }
      } else if !ack.outGroup {
        if ack.hash in ackBuffer {
          ackBuffer := ackBuffer[ack.hash := ackBuffer[ack.hash] + {ack.from}];
        } else {
          assert Buffered(Now(), ack.hash) + {ack.from} == {ack.from};
          ackBuffer := ackBuffer[ack.hash := {ack.from}];
        }
      }
    }

    method AddStable(stable: Stable)
      modifies this
      ensures Now() == AfterStable(old(Now()), stable)
    {
      if stable.hash in stableMBs {
        return;
      }
      stableBuffer := stableBuffer[stable.hash := stable];
      if stable.hash in pendingMicroblocks {
        PushStable(pendingMicroblocks[stable.hash].mb);
        pendingMicroblocks := pendingMicroblocks - {stable.hash};
      }
      if stable.hash !in microblockMap {
        var mb := MicroBlock(stable.hash, stable.group, stable.txNums, 0, true, 0, 0);
        microblockMap := microblockMap[mb.hash := mb];
        PushStable(mb);
      }
    }

    method HandleMissingStableMb(mb: MicroBlock)
      modifies this
      ensures Now() == AfterResent(old(Now()), mb)
    {
      microblockMap := microblockMap[mb.hash := mb];
    }

    /** Returns the payload; the ghost result is the order the sort produced. */
    method GeneratePayload() returns (payload: Payload, ghost order: seq<MicroBlock>)
      modifies this
      ensures CanSortTo(settings, old(stableMicroblocks), order)
      ensures (Now(), payload) == TakePayload(settings, old(Now()), order)
    {
      hide Sorted, SortedByGroup;
      if settings.grouped {
        SortedSorts(stableMicroblocks);
        stableMicroblocks := Sorted(stableMicroblocks);
      }
      order := stableMicroblocks;
      var batchSize := if |stableMicroblocks| >= settings.bsize then settings.bsize else |stableMicroblocks|;
      var mbs, ackNodes, txNums := [], [], [];
      ghost var sorted := Now();
      while |mbs| < batchSize
        invariant |mbs| <= BatchSize(settings, |order|)
        invariant mbs == order[..|mbs|]
        invariant ackNodes == AckNodesOf(sorted, mbs) && txNums == TxNumsOf(mbs)
        invariant Now() == sorted.(queue := order[|mbs|..])
      {
        var mb := stableMicroblocks[0];
        stableMicroblocks := stableMicroblocks[1..];
        mbs := mbs + [mb];
        ackNodes := ackNodes + [if mb.hash in stableBuffer then stableBuffer[mb.hash].ackInGroup else {}];
        txNums := txNums + [mb.txns];
      }
      proposed := proposed + HashesOf(mbs);
      payload := Payload(mbs, ackNodes, txNums);
    }

    /** Removes the first queued microblock of that hash. */
    method RemoveQueued(h: Hash)
      modifies this
      ensures Now() == old(Now()).(queue := RemoveFirst(old(stableMicroblocks), h))
    {
      ghost var queue := stableMicroblocks;
      for i := 0 to |stableMicroblocks|
        invariant stableMicroblocks == queue && Now() == old(Now())
        invariant RemoveFirst(queue, h) == queue[..i] + RemoveFirst(queue[i..], h)
      {
        assert queue[i..][1..] == queue[i + 1..];
        if stableMicroblocks[i].hash == h {
          stableMicroblocks := stableMicroblocks[..i] + stableMicroblocks[i + 1..];
          return;
        }
        assert queue[..i] + ([queue[i]] + RemoveFirst(queue[i + 1..], h)) == queue[..i + 1] + RemoveFirst(queue[i + 1..], h);
      }
      assert queue[..|queue|] == queue;
    }

    method FetchMB(p: Proposal) returns (mbs: seq<MicroBlock>)
      requires p.Aligned()
      modifies this
      ensures (Now(), mbs) == Fetch(old(Now()), p)
    {
      mbs := [];
      for i := 0 to |p.hashes|
        invariant (Now(), mbs) == FetchUpTo(old(Now()), p, i)
      {
        var id := p.hashes[i];
        ghost var before := Now();
        pendingMicroblocks := pendingMicroblocks - {id};
        RemoveQueued(id);
        dropped := if id in HashesOf(before.queue) then dropped + [id] else dropped;
        if id in microblockMap {
          mbs := mbs + [microblockMap[id]];
        } else {
          mbs := mbs + [MicroBlock(id, p.groups[i], p.txNums[i], p.times[i], true, 0, 0)];
        }
      }
    }
  }
}
