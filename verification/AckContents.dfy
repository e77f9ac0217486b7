/**
 What the acknowledgement mempool holds (mempool/ackmem.go): which microblock is known under a hash, what a
 proposal takes out of the queue and out of the pending ones, and whose acks a payload names.
 */
module AckContents {
  import opened Prelude
  import opened Blocks
  import opened AckMem
  import opened AckVoices

  // ----- What is known

  /** The microblock under a hash: a shell until a real one comes, then that one unless another is sent on request. */
  ghost function Latest(seen: seq<Event>, h: Hash): Option<MicroBlock> {
    if seen == [] then None
    else LatestNext(Latest(seen[..|seen| - 1], h), seen[|seen| - 1], h)
  }

  ghost function LatestNext(known: Option<MicroBlock>, e: Event, h: Hash): Option<MicroBlock> {
    match e
    case Arrive(mb) => if mb.hash == h && (known.None? || known.value.fake) then Some(mb) else known
    case StableSeen(st) => if st.hash == h && known.None? then Some(Shell(st)) else known
    case Resent(mb) => if mb.hash == h then Some(mb) else known
    case _ => known
  }

  ghost function KnownAs(s: Pool, h: Hash): Option<MicroBlock> {
    if h in s.known then Some(s.known[h]) else None
  }

  lemma {:induction false} NextKnown(c: Settings, s: Pool, e: Event, h: Hash)
    requires Lifecycle(s) && Possible(c, s, e)
    ensures KnownAs(Next(c, s, e), h) == LatestNext(KnownAs(s, h), e, h)
  {
    hide Accounted, FetchUpTo, CanSortTo, TakePayload;
    match e
    case Arrive(mb) =>
    case Acked(ack) =>
    case StableSeen(st) =>
    case Resent(mb) =>
    case ProposeOwn(order) => TakeFrame(c, s, order);
    case ProposalSeen(p) => FetchFrame(s, p, |p.hashes|);
  }

  /** Over every run, what is known under a hash depends on the messages about it alone. */
  lemma {:induction false} RunKnows(c: Settings, es: seq<Event>, h: Hash)
    requires CanRun(c, EMPTY, es)
    ensures KnownAs(Run(c, EMPTY, es), h) == Latest(es, h)
    decreases |es|
  {
    if es != [] {
      var before, e := es[..|es| - 1], es[|es| - 1];
      assert es == before + [e];
      RunAppend(c, EMPTY, before, e);
      hide Lifecycle, Run, CanRun, Next, Possible, LatestNext, KnownAs;
      RunKnows(c, before, h);
      RunKeeps(c, EMPTY, before);
      NextKnown(c, Run(c, EMPTY, before), e, h);
    }
  }

  /** The microblock of a hash came, from its sender or on request. */
  ghost predicate Came(seen: seq<Event>, h: Hash) {
    exists i :: 0 <= i < |seen| && (seen[i].Arrive? || seen[i].Resent?) && seen[i].mb.hash == h
  }

  /** Where only real microblocks come, a shell stands in for exactly those that are stable elsewhere and did not come. */
  lemma {:induction false} ShellIff(seen: seq<Event>, h: Hash)
    requires forall i :: 0 <= i < |seen| && (seen[i].Arrive? || seen[i].Resent?) ==> !seen[i].mb.fake
    ensures Latest(seen, h).None? <==> !Came(seen, h) && !StableIn(seen, h)
    ensures Latest(seen, h).Some? ==> (Latest(seen, h).value.fake <==> !Came(seen, h))
    decreases |seen|
  {
    if seen != [] {
      var front, e := seen[..|seen| - 1], seen[|seen| - 1];
      assert forall i :: 0 <= i < |front| ==> front[i] == seen[i];
      ShellIff(front, h);
      if i :| 0 <= i < |seen| && (seen[i].Arrive? || seen[i].Resent?) && seen[i].mb.hash == h {
        assert i < |front| ==> front[i] == seen[i];
      }
      if i :| 0 <= i < |seen| && seen[i].StableSeen? && seen[i].st.hash == h {
        assert i < |front| ==> front[i] == seen[i];
      }
      assert seen[|seen| - 1] == e;
    }
  }

  // ----- What a proposal of another node takes

  ghost function Remaining(queue: seq<MicroBlock>, gone: set<Hash>): seq<MicroBlock> {
    if queue == [] then []
    else (if queue[0].hash in gone then [] else [queue[0]]) + Remaining(queue[1..], gone)
  }

  ghost function FirstOf(hashes: seq<Hash>, n: nat): set<Hash>
    requires n <= |hashes|
  {
    set i | 0 <= i < n :: hashes[i]
  }

  lemma {:induction false} NoneTaken(queue: seq<MicroBlock>, gone: set<Hash>)
    requires forall i :: 0 <= i < |queue| ==> queue[i].hash !in gone
    ensures Remaining(queue, gone) == queue
    decreases |queue|
  {
    if queue != [] {
      NoneTaken(queue[1..], gone);
    }
  }

  lemma {:induction false} TakenTwice(queue: seq<MicroBlock>, a: set<Hash>, b: set<Hash>)
    ensures Remaining(Remaining(queue, a), b) == Remaining(queue, a + b)
    decreases |queue|
  {
    if queue != [] {
      TakenTwice(queue[1..], a, b);
      if queue[0].hash !in a {
        assert ([queue[0]] + Remaining(queue[1..], a))[1..] == Remaining(queue[1..], a);
      } else {
        assert [] + Remaining(queue[1..], a) == Remaining(queue[1..], a);
      }
    }
  }

  /** In a queue without repeats, removing the first of a hash removes all of it. */
  lemma {:induction false} RemoveFirstTakesAll(queue: seq<MicroBlock>, h: Hash)
    requires forall i, j :: 0 <= i < j < |queue| ==> queue[i].hash != queue[j].hash
    ensures RemoveFirst(queue, h) == Remaining(queue, {h})
    decreases |queue|
  {
    if queue != [] {
      if queue[0].hash == h {
        NoneTaken(queue[1..], {h});
        assert [] + queue[1..] == queue[1..];
      } else {
        RemoveFirstTakesAll(queue[1..], h);
      }
    }
  }

  lemma {:induction false} NoRepeats(s: Pool)
    requires Lifecycle(s)
    ensures forall i, j :: 0 <= i < j < |s.queue| ==> s.queue[i].hash != s.queue[j].hash
  {
    forall i, j | 0 <= i < j < |s.queue|
      ensures s.queue[i].hash != s.queue[j].hash
    {
      var hashes, h := HashesOf(s.queue), s.queue[i].hash;
      assert multiset(hashes)[h] <= multiset(s.stableIds)[h] <= 1;
      if s.queue[j].hash == h {
        TwiceCounted(hashes, i, j);
        assert false;
      }
    }
  }

  lemma {:induction false} TwiceCounted(hashes: seq<Hash>, i: nat, j: nat)
    requires i < j < |hashes| && hashes[i] == hashes[j]
    ensures multiset(hashes)[hashes[i]] >= 2
  {
    assert hashes == hashes[..j] + hashes[j..];
    assert hashes[i] in hashes[..j] && hashes[i] in hashes[j..];
  }

  /** A fetch takes exactly the proposed hashes out of the pending microblocks and the queue, which keeps its order. */
  lemma {:induction false} FetchTakes(s: Pool, p: Proposal, n: nat)
    requires Lifecycle(s) && p.Aligned() && n <= |p.hashes|
    ensures var s' := FetchUpTo(s, p, n).0;
            && s'.pending == s.pending - FirstOf(p.hashes, n) && s'.queue == Remaining(s.queue, FirstOf(p.hashes, n))
            && s' == s.(pending := s'.pending, queue := s'.queue, dropped := s'.dropped)
    decreases n
  {
    hide Lifecycle, RemoveFirst, Remaining;
    if n == 0 {
      assert FirstOf(p.hashes, 0) == {} && s.pending - {} == s.pending;
      NoneTaken(s.queue, {});
    } else {
      FetchTakes(s, p, n - 1);
      FetchKeeps(s, p, n - 1);
      var s1, h := FetchUpTo(s, p, n - 1).0, p.hashes[n - 1];
      NoRepeats(s1);
      RemoveFirstTakesAll(s1.queue, h);
      TakenTwice(s.queue, FirstOf(p.hashes, n - 1), {h});
      assert FirstOf(p.hashes, n) == FirstOf(p.hashes, n - 1) + {h};
      assert s.pending - FirstOf(p.hashes, n - 1) - {h} == s.pending - FirstOf(p.hashes, n);
    }
  }

  // ----- Whose acks a payload names

  /** What was noted of the acks of a stable microblock stays. */
  lemma {:induction false} InfoStays(c: Settings, s: Pool, e: Event, h: Hash)
    requires Lifecycle(s) && Possible(c, s, e) && h in s.stableIds
    ensures var s' := Next(c, s, e);
            (h in s'.stableInfo <==> h in s.stableInfo) && (h in s.stableInfo ==> s'.stableInfo[h] == s.stableInfo[h])
  {
    hide Accounted;
    if !e.Acked? && !e.StableSeen? {
      hide Next, Lifecycle, Possible;
      OthersNoteNothing(c, s, e);
    }
  }

  /** A stable message of this run, or the acks that were heard up to some event of it. */
  ghost predicate Noted(c: Settings, es: seq<Event>, info: Stable) {
    exists k :: 0 <= k < |es| && NotedAt(c, es, k, info)
  }

  ghost predicate NotedAt(c: Settings, es: seq<Event>, k: nat, info: Stable)
    requires k < |es|
  {
    match es[k]
    case StableSeen(st) => info == st
    case Acked(ack) =>
      var v := Heard(c, es[..k + 1], info.hash);
      ack.hash == info.hash && v.arrived.Some?
      && info == Stable(info.hash, v.arrived.value.group, v.arrived.value.txns, Names(c, v))
    case _ => false
  }

  lemma {:induction false} NotedLater(c: Settings, es: seq<Event>, e: Event, info: Stable)
    requires Noted(c, es, info)
    ensures Noted(c, es + [e], info)
  {
    var k :| 0 <= k < |es| && NotedAt(c, es, k, info);
    assert (es + [e])[k] == es[k] && (es + [e])[..k + 1] == es[..k + 1];
    assert NotedAt(c, es + [e], k, info);
  }

  lemma {:induction false} NewNote(c: Settings, es: seq<Event>, s: Pool, e: Event, h: Hash)
    requires Lifecycle(s) && Possible(c, s, e) && Tallied(c, s, h, Heard(c, es, h))
    requires h in Next(c, s, e).stableInfo && !(h in s.stableInfo && s.stableInfo[h] == Next(c, s, e).stableInfo[h])
    ensures Next(c, s, e).stableInfo[h].hash == h && Noted(c, es + [e], Next(c, s, e).stableInfo[h])
  {
    var all, info := es + [e], Next(c, s, e).stableInfo[h];
    assert all[|es|] == e && all[..|es| + 1] == all;
    HeardAppend(c, es, e, h);
    NoteIs(c, s, e, h, Heard(c, es, h));
    assert NotedAt(c, all, |es|, info);
  }

  lemma {:induction false} AckNote(c: Settings, s: Pool, ack: Ack, h: Hash, v: Voices)
    requires Lifecycle(s) && Tallied(c, s, h, v)
    requires h in AfterAck(c, s, ack).stableInfo
    requires !(h in s.stableInfo && s.stableInfo[h] == AfterAck(c, s, ack).stableInfo[h])
    ensures var (info, w) := (AfterAck(c, s, ack).stableInfo[h], HeardNext(c, v, Acked(ack), h));
            && info.hash == h && ack.hash == h && w.arrived.Some?
            && info == Stable(h, w.arrived.value.group, w.arrived.value.txns, Names(c, w))
  {
    assert ack.hash == h && h in s.pending && h !in s.stableIds;
    MoreNames(c, v, ack.from);
    hide Accounted, Names, Number;
  }

  lemma {:induction false} NoteIs(c: Settings, s: Pool, e: Event, h: Hash, v: Voices)
    requires Lifecycle(s) && Possible(c, s, e) && Tallied(c, s, h, v)
    requires h in Next(c, s, e).stableInfo && !(h in s.stableInfo && s.stableInfo[h] == Next(c, s, e).stableInfo[h])
    ensures var (info, w) := (Next(c, s, e).stableInfo[h], HeardNext(c, v, e, h));
            && info.hash == h
            && match e
               case StableSeen(st) => info == st
               case Acked(ack) => ack.hash == h && w.arrived.Some?
                                  && info == Stable(h, w.arrived.value.group, w.arrived.value.txns, Names(c, w))
               case _ => false
  {
    hide AfterArrival, AfterAck, AfterStable, Fetch, CanSortTo, TakePayload, Lifecycle, Tallied, HeardNext, Names;
    match e
    case Acked(ack) => AckNote(c, s, ack, h, v);
    case StableSeen(st) => MessageNote(s, st, h);
    case _ => OthersNoteNothing(c, s, e);
  }

  lemma {:induction false} MessageNote(s: Pool, st: Stable, h: Hash)
    requires h in AfterStable(s, st).stableInfo
    requires !(h in s.stableInfo && s.stableInfo[h] == AfterStable(s, st).stableInfo[h])
    ensures h == st.hash && AfterStable(s, st).stableInfo[h] == st
  {
  }

  lemma {:induction false} OthersNoteNothing(c: Settings, s: Pool, e: Event)
    requires Lifecycle(s) && Possible(c, s, e) && !e.Acked? && !e.StableSeen?
    ensures Next(c, s, e).stableInfo == s.stableInfo
  {
    hide Lifecycle, AfterArrival, FetchUpTo, CanSortTo, TakePayload, Remaining, FirstOf;
    match e
    case Arrive(mb) => ArrivalNotesNothing(c, s, mb);
    case Resent(mb) =>
    case ProposeOwn(order) => TakeFrame(c, s, order);
    case ProposalSeen(p) => FetchTakes(s, p, |p.hashes|);
  }

  lemma {:induction false} ArrivalNotesNothing(c: Settings, s: Pool, mb: MicroBlock)
    ensures AfterArrival(c, s, mb).stableInfo == s.stableInfo
  {
    hide Buffered;
  }

  /** Over every run, what is noted of acks comes from a stable message or is who was heard acknowledging. */
  lemma {:induction false} RunNotes(c: Settings, es: seq<Event>, h: Hash)
    requires CanRun(c, EMPTY, es) && h in Run(c, EMPTY, es).stableInfo
    ensures Run(c, EMPTY, es).stableInfo[h].hash == h && Noted(c, es, Run(c, EMPTY, es).stableInfo[h])
    decreases |es|
  {
    if es != [] {
      var before, e := es[..|es| - 1], es[|es| - 1];
      assert es == before + [e];
      RunAppend(c, EMPTY, before, e);
      hide Lifecycle, Run, CanRun, Next, Possible, Noted, Tallied;
      var s := Run(c, EMPTY, before);
      RunTallied(c, before, h);
      if h in s.stableInfo && s.stableInfo[h] == Next(c, s, e).stableInfo[h] {
        RunNotes(c, before, h);
        NotedLater(c, before, e, s.stableInfo[h]);
      } else {
        NewNote(c, before, s, e, h);
      }
    }
  }
}
