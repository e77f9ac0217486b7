/**
 When a microblock becomes stable (mempool/ackmem.go), told by what was heard of it: its arrival, the acks
 that came before and those that came after. What is kept of a pending microblock is exactly that, and it
 becomes stable with exactly the message that brings the voices to the threshold.
 */
module AckVoices {
  import opened Prelude
  import opened Blocks
  import opened AckMem

  /** What was heard of a microblock: its arrival, who acknowledged it before, and who did after, in order. */
  datatype Voices = Voices(arrived: Option<MicroBlock>, early: set<NodeId>, late: seq<NodeId>)

  ghost function HeardNext(c: Settings, v: Voices, e: Event, h: Hash): Voices {
    match e
    case Arrive(mb) => if mb.hash == h && v.arrived.None? then v.(arrived := Some(mb)) else v
    case Acked(ack) =>
      if ack.hash != h then v
      else if v.arrived.None? then if ack.outGroup then v else v.(early := v.early + {ack.from})
      else if c.grouped && ack.outGroup then v
      else v.(late := v.late + [ack.from])
    case _ => v
  }

  ghost function Heard(c: Settings, seen: seq<Event>, h: Hash): Voices {
    if seen == [] then Voices(None, {}, [])
    else HeardNext(c, Heard(c, seen[..|seen| - 1], h), seen[|seen| - 1], h)
  }

  /** The sender counts as one, an early ack once for each node, a late one each time. */
  ghost function Number(v: Voices): nat {
    1 + |v.early| + |v.late|
  }

  ghost function Members(s: seq<NodeId>): set<NodeId> {
    set x | x in s
  }

  /** The nodes that are recorded as acknowledging, the sender only if the microblock is of an own group. */
  ghost function Names(c: Settings, v: Voices): set<NodeId>
    requires v.arrived.Some?
  {
    (if v.arrived.value.group in c.myGroups then {v.arrived.value.sender} else {}) + v.early + Members(v.late)
  }

  /** What the mempool keeps of a microblock that is pending or unknown is what was heard of it. */
  ghost predicate Tallied(c: Settings, s: Pool, h: Hash, v: Voices) {
    && (h in s.pending ==>
          && v.arrived == Some(s.pending[h].mb)
          && s.pending[h].ackNum == Number(v) && s.pending[h].ackInGroup == Names(c, v))
    && (h !in s.known ==>
          v.arrived.None? && v.late == [] && v.early == Buffered(s, h) && (h in s.ackBuffer <==> v.early != {}))
  }

  // ----- One event

  /** What is kept of this microblock did not change, or it is pending no more. */
  lemma {:induction false} StillTallied(c: Settings, s: Pool, s': Pool, h: Hash, v: Voices)
    requires Tallied(c, s, h, v)
    requires h in s'.pending ==> h in s.pending && s'.pending[h] == s.pending[h]
    requires h in s.known ==> h in s'.known
    requires h in s.ackBuffer <==> h in s'.ackBuffer
    requires h in s.ackBuffer ==> s'.ackBuffer[h] == s.ackBuffer[h]
    ensures Tallied(c, s', h, v)
  {
    hide Names, Number;
  }

  lemma {:induction false} FirstNames(c: Settings, mb: MicroBlock, early: set<NodeId>)
    ensures var v := Voices(Some(mb), early, []);
            Number(v) == 1 + |early| && Names(c, v) == (if mb.group in c.myGroups then {mb.sender} else {}) + early
  {
    assert Members([]) == {};
  }

  lemma {:induction false} MoreNames(c: Settings, v: Voices, x: NodeId)
    requires v.arrived.Some?
    ensures var w := v.(late := v.late + [x]); Number(w) == Number(v) + 1 && Names(c, w) == Names(c, v) + {x}
  {
    assert Members(v.late + [x]) == Members(v.late) + {x};
  }

  lemma {:induction false} ArrivalTallied(c: Settings, s: Pool, mb: MicroBlock, h: Hash, v: Voices)
    requires Lifecycle(s) && Tallied(c, s, h, v)
    ensures Tallied(c, AfterArrival(c, s, mb), h, HeardNext(c, v, Arrive(mb), h))
  {
    hide Tallied, Lifecycle, AfterArrival;
    if mb.hash != h {
      OtherArrival(c, s, mb, h);
      StillTallied(c, s, AfterArrival(c, s, mb), h, v);
    } else if h in s.known {
      KnownArrival(c, s, mb, v);
    } else {
      NewArrival(c, s, mb, v);
    }
  }

  lemma {:induction false} OtherArrival(c: Settings, s: Pool, mb: MicroBlock, h: Hash)
    requires mb.hash != h
    ensures var s' := AfterArrival(c, s, mb);
            && (h in s.known ==> h in s'.known) && s'.ackBuffer == s.ackBuffer
            && (h in s'.pending ==> h in s.pending && s'.pending[h] == s.pending[h])
  {
    hide Buffered;
  }

  lemma {:induction false} NewArrival(c: Settings, s: Pool, mb: MicroBlock, v: Voices)
    requires Lifecycle(s) && mb.hash !in s.known && Tallied(c, s, mb.hash, v)
    ensures Tallied(c, AfterArrival(c, s, mb), mb.hash, HeardNext(c, v, Arrive(mb), mb.hash))
  {
    FirstNames(c, mb, v.early);
    hide Names, Number, Accounted;
    assert v.(arrived := Some(mb)) == Voices(Some(mb), v.early, []);
  }

  lemma {:induction false} KnownArrival(c: Settings, s: Pool, mb: MicroBlock, v: Voices)
    requires Lifecycle(s) && mb.hash in s.known && Tallied(c, s, mb.hash, v)
    ensures Tallied(c, AfterArrival(c, s, mb), mb.hash, HeardNext(c, v, Arrive(mb), mb.hash))
  {
    hide Names, Number, Accounted;
  }

  lemma {:induction false} PendingAck(c: Settings, s: Pool, ack: Ack, v: Voices)
    requires Lifecycle(s) && ack.hash in s.pending && Tallied(c, s, ack.hash, v)
    ensures Tallied(c, AfterAck(c, s, ack), ack.hash, HeardNext(c, v, Acked(ack), ack.hash))
  {
    hide Names, Number, Accounted, Buffered;
    MoreNames(c, v, ack.from);
  }

  lemma {:induction false} EarlyAck(c: Settings, s: Pool, ack: Ack, v: Voices)
    requires Lifecycle(s) && ack.hash !in s.pending && Tallied(c, s, ack.hash, v)
    ensures Tallied(c, AfterAck(c, s, ack), ack.hash, HeardNext(c, v, Acked(ack), ack.hash))
  {
    hide Names, Number, Accounted;
  }

  lemma {:induction false} OtherAck(c: Settings, s: Pool, ack: Ack, h: Hash)
    requires ack.hash != h
    ensures var s' := AfterAck(c, s, ack);
            && s'.known == s.known && (h in s'.pending ==> h in s.pending && s'.pending[h] == s.pending[h])
            && (h in s.ackBuffer <==> h in s'.ackBuffer) && (h in s.ackBuffer ==> s'.ackBuffer[h] == s.ackBuffer[h])
  {
    hide Buffered;
  }

  lemma {:induction false} AckTallied(c: Settings, s: Pool, ack: Ack, h: Hash, v: Voices)
    requires Lifecycle(s) && Tallied(c, s, h, v)
    ensures Tallied(c, AfterAck(c, s, ack), h, HeardNext(c, v, Acked(ack), h))
  {
    hide Tallied, Lifecycle, AfterAck;
    if ack.hash != h {
      OtherAck(c, s, ack, h);
      StillTallied(c, s, AfterAck(c, s, ack), h, v);
    } else if h in s.pending {
      PendingAck(c, s, ack, v);
    } else {
      EarlyAck(c, s, ack, v);
    }
  }

  lemma {:induction false} NextTallied(c: Settings, s: Pool, e: Event, h: Hash, v: Voices)
    requires Lifecycle(s) && Possible(c, s, e) && Tallied(c, s, h, v)
    ensures Tallied(c, Next(c, s, e), h, HeardNext(c, v, e, h))
  {
    hide AfterArrival, AfterAck, AfterStable, FetchUpTo, TakePayload, CanSortTo, Lifecycle, Tallied;
    match e
    case Arrive(mb) => ArrivalTallied(c, s, mb, h, v);
    case Acked(ack) => AckTallied(c, s, ack, h, v);
    case StableSeen(st) =>
      MessageFrame(s, st, h);
      StillTallied(c, s, AfterStable(s, st), h, v);
    case Resent(mb) => StillTallied(c, s, AfterResent(s, mb), h, v);
    case ProposeOwn(order) =>
      TakeFrame(c, s, order);
      StillTallied(c, s, TakePayload(c, s, order).0, h, v);
    case ProposalSeen(p) =>
      FetchFrame(s, p, |p.hashes|);
      StillTallied(c, s, FetchUpTo(s, p, |p.hashes|).0, h, v);
  }

  lemma {:induction false} MessageFrame(s: Pool, st: Stable, h: Hash)
    ensures var s' := AfterStable(s, st);
            && (h in s.known ==> h in s'.known) && s'.ackBuffer == s.ackBuffer
            && (h in s'.pending ==> h in s.pending && s'.pending[h] == s.pending[h])
  {
  }

  // ----- Over whole runs

  lemma {:induction false} RunAppend(c: Settings, s: Pool, es: seq<Event>, e: Event)
    ensures CanRun(c, s, es + [e]) <==> CanRun(c, s, es) && Possible(c, Run(c, s, es), e)
    ensures CanRun(c, s, es + [e]) ==> Run(c, s, es + [e]) == Next(c, Run(c, s, es), e)
    decreases |es|
  {
    hide Next;
    if es == [] {
      assert es + [e] == [e] && [e][1..] == [];
    } else {
      assert (es + [e])[1..] == es[1..] + [e];
      if Possible(c, s, es[0]) {
        RunAppend(c, Next(c, s, es[0]), es[1..], e);
      }
    }
  }

  lemma {:induction false} HeardAppend(c: Settings, seen: seq<Event>, e: Event, h: Hash)
    ensures Heard(c, seen + [e], h) == HeardNext(c, Heard(c, seen, h), e, h)
  {
    assert (seen + [e])[..|seen|] == seen;
  }

  /** Over every run, what is kept of a microblock that is pending or unknown is what was heard of it. */
  lemma {:induction false} RunTallied(c: Settings, es: seq<Event>, h: Hash)
    requires CanRun(c, EMPTY, es)
    ensures Lifecycle(Run(c, EMPTY, es)) && Tallied(c, Run(c, EMPTY, es), h, Heard(c, es, h))
    decreases |es|
  {
    if es != [] {
      var before, e := es[..|es| - 1], es[|es| - 1];
      assert es == before + [e];
      RunAppend(c, EMPTY, before, e);
      hide Lifecycle, Tallied, Run, CanRun, Next, Possible, HeardNext;
      RunTallied(c, before, h);
      NextKeeps(c, Run(c, EMPTY, before), e);
      NextTallied(c, Run(c, EMPTY, before), e, h, Heard(c, before, h));
    }
  }

  // ----- Becoming stable

  /** An event makes a microblock stable that was not, in terms of what was heard of it with that event. */
  ghost predicate MakesStable(c: Settings, s: Pool, e: Event, h: Hash, v: Voices) {
    match e
    case Acked(ack) => ack.hash == h && h in s.pending && Number(v) >= c.threshold
    case Arrive(mb) => mb.hash == h && h !in s.known && v.early != {} && Number(v) >= c.threshold
    case StableSeen(st) => st.hash == h && (h in s.pending || h !in s.known)
    case _ => false
  }

  /** Then it goes to the end of the queue as it arrived, or as a shell, and what is known of its acks is noted. */
  ghost predicate GoesStable(c: Settings, s: Pool, s': Pool, e: Event, h: Hash, v: Voices)
    requires MakesStable(c, s, e, h, v)
  {
    match e
    case Acked(_) =>
      && v.arrived.Some? && s'.queue == s.queue + [v.arrived.value] && h !in s'.pending && h in s'.stableInfo
      && s'.stableInfo[h] == Stable(h, v.arrived.value.group, v.arrived.value.txns, Names(c, v))
    case Arrive(mb) => s'.queue == s.queue + [mb] && h !in s'.pending
    case StableSeen(st) =>
      && |s'.queue| == |s.queue| + 1 && s'.queue[..|s.queue|] == s.queue
      && (var last := s'.queue[|s.queue|];
          if h in s.pending then v.arrived == Some(last)
          else last.fake && last.hash == h && last.group == st.group && last.txns == st.txNums)
      && h !in s'.pending && h in s'.stableInfo && s'.stableInfo[h] == st
  }

  lemma {:induction false} FetchKeepsStable(s: Pool, p: Proposal)
    requires p.Aligned()
    ensures Fetch(s, p).0.stableIds == s.stableIds
  {
    hide FetchUpTo;
    FetchFrame(s, p, |p.hashes|);
  }

  lemma {:induction false} ArrivalMakesStable(c: Settings, s: Pool, mb: MicroBlock, h: Hash, v: Voices)
    requires Lifecycle(s) && h !in s.stableIds && Tallied(c, s, h, v)
    ensures var (w, e, s') := (HeardNext(c, v, Arrive(mb), h), Arrive(mb), AfterArrival(c, s, mb));
            && (h in s'.stableIds <==> MakesStable(c, s, e, h, w))
            && (MakesStable(c, s, e, h, w) ==> GoesStable(c, s, s', e, h, w))
  {
    hide Accounted, Names;
  }

  lemma {:induction false} AckMakesStable(c: Settings, s: Pool, ack: Ack, h: Hash, v: Voices)
    requires Lifecycle(s) && h !in s.stableIds && Tallied(c, s, h, v)
    ensures var (w, e, s') := (HeardNext(c, v, Acked(ack), h), Acked(ack), AfterAck(c, s, ack));
            && (h in s'.stableIds <==> MakesStable(c, s, e, h, w))
            && (MakesStable(c, s, e, h, w) ==> GoesStable(c, s, s', e, h, w))
  {
    hide Accounted, Names, Number;
    if ack.hash == h && h in s.pending {
      MoreNames(c, v, ack.from);
    } else {
      NoOtherStable(c, s, ack, h);
    }
  }

  lemma {:induction false} NoOtherStable(c: Settings, s: Pool, ack: Ack, h: Hash)
    requires KeyedByHash(s) && !(ack.hash == h && h in s.pending)
    ensures h in AfterAck(c, s, ack).stableIds <==> h in s.stableIds
  {
    hide Buffered;
  }

  lemma {:induction false} MessageMakesStable(c: Settings, s: Pool, st: Stable, h: Hash, v: Voices)
    requires Lifecycle(s) && h !in s.stableIds && Tallied(c, s, h, v)
    ensures var (e, s') := (StableSeen(st), AfterStable(s, st));
            && (h in s'.stableIds <==> MakesStable(c, s, e, h, v))
            && (MakesStable(c, s, e, h, v) ==> GoesStable(c, s, s', e, h, v))
  {
    hide Accounted, Names, Number;
  }

  lemma {:induction false} StepMakesStable(c: Settings, s: Pool, e: Event, h: Hash, v: Voices)
    requires Lifecycle(s) && Possible(c, s, e) && h !in s.stableIds && Tallied(c, s, h, v)
    ensures var w := HeardNext(c, v, e, h);
            && (h in Next(c, s, e).stableIds <==> MakesStable(c, s, e, h, w))
            && (MakesStable(c, s, e, h, w) ==> GoesStable(c, s, Next(c, s, e), e, h, w))
  {
    hide Lifecycle, Tallied, AfterArrival, AfterAck, AfterStable, Fetch, CanSortTo, TakePayload, GoesStable;
    match e
    case Arrive(mb) => ArrivalMakesStable(c, s, mb, h, v);
    case Acked(ack) => AckMakesStable(c, s, ack, h, v);
    case StableSeen(st) => MessageMakesStable(c, s, st, h, v);
    case Resent(mb) =>
    case ProposeOwn(order) => TakeFrame(c, s, order);
    case ProposalSeen(p) => FetchKeepsStable(s, p);
  }

  /**
   Over every run, a microblock becomes stable with exactly these messages: an ack of a pending one, or the
   arrival of one that was acknowledged before, that brings the voices to the threshold, or a stable message.
   */
  lemma {:induction false} BecomesStableIff(c: Settings, es: seq<Event>, e: Event, h: Hash)
    requires CanRun(c, EMPTY, es + [e]) && CanRun(c, EMPTY, es) && h !in Run(c, EMPTY, es).stableIds
    ensures var (s, s', v) := (Run(c, EMPTY, es), Run(c, EMPTY, es + [e]), Heard(c, es + [e], h));
            && (h in s'.stableIds <==> MakesStable(c, s, e, h, v))
            && (MakesStable(c, s, e, h, v) ==> GoesStable(c, s, s', e, h, v))
  {
    RunAppend(c, EMPTY, es, e);
    HeardAppend(c, es, e, h);
    RunTallied(c, es, h);
    hide Run, CanRun, Next, Possible, Lifecycle, Tallied, HeardNext, MakesStable, GoesStable;
    StepMakesStable(c, Run(c, EMPTY, es), e, h, Heard(c, es, h));
  }

  // ----- Pending microblocks lack voices

  ghost predicate PendingBelow(c: Settings, s: Pool) {
    forall h :: h in s.pending ==> s.pending[h].ackNum < c.threshold
  }

  lemma {:induction false} NextBelow(c: Settings, s: Pool, e: Event)
    requires Lifecycle(s) && Possible(c, s, e) && PendingBelow(c, s) && c.threshold >= 2
    requires forall h :: h in s.ackBuffer && h !in s.known ==> s.ackBuffer[h] != {}
    ensures PendingBelow(c, Next(c, s, e))
  {
    hide AfterArrival, AfterAck, AfterStable, FetchUpTo, CanSortTo, TakePayload, Lifecycle;
    match e
    case Arrive(mb) => ArrivalBelow(c, s, mb);
    case Acked(ack) => AckBelow(c, s, ack);
    case StableSeen(st) =>
      forall h {
        MessageFrame(s, st, h);
      }
    case Resent(mb) =>
    case ProposeOwn(order) => TakeFrame(c, s, order);
    case ProposalSeen(p) => FetchFrame(s, p, |p.hashes|);
  }

  lemma {:induction false} ArrivalBelow(c: Settings, s: Pool, mb: MicroBlock)
    requires PendingBelow(c, s) && c.threshold >= 2 && forall h :: h in s.ackBuffer && h !in s.known ==> s.ackBuffer[h] != {}
    ensures PendingBelow(c, AfterArrival(c, s, mb))
  {
  }

  lemma {:induction false} AckBelow(c: Settings, s: Pool, ack: Ack)
    requires Lifecycle(s) && PendingBelow(c, s)
    ensures PendingBelow(c, AfterAck(c, s, ack))
  {
    hide Accounted, Buffered;
  }

  lemma {:induction false} RunBelow(c: Settings, es: seq<Event>)
    requires CanRun(c, EMPTY, es) && c.threshold >= 2
    ensures PendingBelow(c, Run(c, EMPTY, es))
    decreases |es|
  {
    if es != [] {
      var before, e := es[..|es| - 1], es[|es| - 1];
      assert es == before + [e];
      RunAppend(c, EMPTY, before, e);
      hide Run, CanRun, Next, Possible, Lifecycle, PendingBelow;
      RunBelow(c, before);
      var s := Run(c, EMPTY, before);
      forall h
        ensures h in s.ackBuffer && h !in s.known ==> s.ackBuffer[h] != {}
      {
        RunTallied(c, before, h);
      }
      RunKeeps(c, EMPTY, before);
      NextBelow(c, s, e);
    }
  }

  ghost predicate AlwaysBelow(c: Settings) {
    forall es :: CanRun(c, EMPTY, es) ==> PendingBelow(c, Run(c, EMPTY, es))
  }

  /** No pending microblock ever has enough voices if, and only if, the threshold is more than its sender. */
  lemma {:induction false} AlwaysBelowIff(c: Settings)
    ensures AlwaysBelow(c) <==> c.threshold >= 2
  {
    hide PendingBelow, Run, CanRun;
    if c.threshold >= 2 {
      forall es | CanRun(c, EMPTY, es)
        ensures PendingBelow(c, Run(c, EMPTY, es))
      {
        RunBelow(c, es);
      }
    } else {
      LoneArrival(c);
    }
  }

  lemma {:induction false} LoneArrival(c: Settings)
    requires c.threshold <= 1
    ensures var es := [Arrive(MicroBlock(0, 0, 0, 0, false, 0, 0))];
            CanRun(c, EMPTY, es) && !PendingBelow(c, Run(c, EMPTY, es))
  {
    var mb := MicroBlock(0, 0, 0, 0, false, 0, 0);
    var es := [Arrive(mb)];
    assert es[1..] == [];
    assert CanRun(c, Next(c, EMPTY, es[0]), []);
    assert Run(c, EMPTY, es) == Next(c, EMPTY, es[0]);
    assert 0 in Run(c, EMPTY, es).pending;
  }
}
