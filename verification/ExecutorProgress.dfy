/**
 What the cooperative executor gets done (execute/execute.go, replica/replica.go): in both modes an entry that
 can be executed here does not wait at the head of the queue, results and deliveries retire exactly what is
 reported enough, and a microblock that was missing takes the place of its shell.
 */
module ExecutorProgress {
  import opened Prelude
  import opened Blocks
  import opened CoopExecutor

  // ----- Nothing executable waits

  /** The queue is empty, or its head is a shell or, in cooperative mode, of a group that others execute. */
  ghost predicate HeadWaits(m: Mode, s: State) {
    s.queue == [] || s.queue[0].fake || (m.grouped && s.queue[0].group !in m.myGroups)
  }

  lemma {:induction false} ReadyRuns(m: Mode, s: State)
    ensures HeadWaits(m, RunReady(m, s))
  {
  }

  /** Over every run in both modes, the queue is empty or its head cannot be executed here. */
  lemma {:induction false} RunHeadWaits(m: Mode, es: seq<Event>)
    ensures HeadWaits(m, Run(m, START, es).exec)
    decreases |es|
  {
    if es != [] {
      hide Next, HeadWaits;
      RunHeadWaits(m, es[..|es| - 1]);
      NextHeadWaits(m, Run(m, START, es[..|es| - 1]), es[|es| - 1]);
    }
  }

  lemma {:induction false} CountingWaits(m: Mode, s: State, done: Reports)
    requires HeadWaits(m, s)
    ensures HeadWaits(m, s.(done := done))
  {
  }

  lemma {:induction false} NextHeadWaits(m: Mode, w: World, e: Event)
    requires HeadWaits(m, w.exec)
    ensures HeadWaits(m, Next(m, w, e).exec)
  {
    hide RunReady, RetireReported, WithReport, Number, HeadWaits, ThroughQuorate, ThroughNumber, HighestQuorate, Replaced;
    match e
    case Commit(mbs) =>
      var queued := w.exec.(queue := w.exec.queue + Number(w.numbering, mbs).1);
      ReadyRuns(m, queued);
      ReadyRuns(m, RetireReported(queued, ThroughQuorate(m, w.exec.done, queued.queue)));
    case Result(node, no) =>
      var counted := w.exec.(done := WithReport(w.exec.done, node, no));
      CountingWaits(m, w.exec, counted.done);
      ReadyRuns(m, RetireReported(counted, ThroughNumber(HighestQuorate(m, counted.done, no), counted.queue)));
    case Miss(mb) => ReadyRuns(m, w.exec.(queue := Replaced(w.exec.queue, mb)));
  }

  // ----- What is delivered

  /** The microblocks whose hashes are new, each at its first place. */
  ghost function Fresh(seen: set<Hash>, mbs: seq<MicroBlock>): seq<MicroBlock>
    decreases |mbs|
  {
    if mbs == [] then []
    else (if mbs[0].hash in seen then [] else [mbs[0]]) + Fresh(seen + {mbs[0].hash}, mbs[1..])
  }

  lemma {:induction false} FreshAppend(seen: set<Hash>, mbs: seq<MicroBlock>, mb: MicroBlock)
    ensures Fresh(seen, mbs + [mb]) ==
            Fresh(seen, mbs) + if mb.hash in seen || mb.hash in HashesOf(mbs) then [] else [mb]
    decreases |mbs|
  {
    if mbs == [] {
      assert mbs + [mb] == [mb] && [mb][1..] == [];
    } else {
      assert (mbs + [mb])[1..] == mbs[1..] + [mb];
      FreshAppend(seen + {mbs[0].hash}, mbs[1..], mb);
      assert HashesOf(mbs) == [mbs[0].hash] + HashesOf(mbs[1..]);
    }
  }

  /** Numbering delivers exactly the new microblocks, in their order and as they are but for the number. */
  lemma {:induction false} DeliversFresh(n: Numbering, mbs: seq<MicroBlock>)
    ensures var (n', deliver) := Number(n, mbs);
            && |deliver| == |Fresh(n.seen, mbs)| && n'.last == n.last + |deliver|
            && (forall i :: 0 <= i < |deliver| ==> deliver[i] == Fresh(n.seen, mbs)[i].(committedNo := n.last + i + 1))
    decreases |mbs|
  {
    if mbs != [] {
      var front, mb := mbs[..|mbs| - 1], mbs[|mbs| - 1];
      assert mbs == front + [mb];
      DeliversFresh(n, front);
      NumberedInTurn(n, front);
      FreshAppend(n.seen, front, mb);
      hide Fresh;
      SeenHashes(front, mb.hash);
    }
  }

  lemma {:induction false} SeenHashes(mbs: seq<MicroBlock>, h: Hash)
    ensures h in HashesOf(mbs) <==> h in set i | 0 <= i < |mbs| :: mbs[i].hash
  {
  }

  // ----- Which entries there are

  /** Entries keep their place and content, but for a shell whose microblock arrives; delivered ones come after them. */
  ghost predicate EntriesKept(w: World, w': World, e: Event)
    requires |w.delivered| == |w.exec.retired| + |w.exec.queue|
  {
    && |w'.delivered| == |w'.exec.retired| + |w'.exec.queue| && w.delivered <= w'.delivered
    && (forall i :: 0 <= i < |w.exec.retired| ==> i < |w'.exec.retired| && w'.exec.retired[i] == w.exec.retired[i])
    && (forall i :: |w.exec.retired| <= i < |w.delivered| ==>
          Entry(w', i) == if e.Miss? && Entry(w, i).fake && Entry(w, i).hash == e.mb.hash then e.mb else Entry(w, i))
    && (forall i :: |w.delivered| <= i < |w'.delivered| ==> Entry(w', i) == w'.delivered[i])
  }

  /** Entries are moved from the queue to the retired ones, and nothing else happens to them. */
  ghost predicate Moved(a: State, b: State) {
    && |a.retired| <= |b.retired| && |a.retired| + |a.queue| == |b.retired| + |b.queue|
    && b.retired[..|a.retired|] == a.retired
    && (forall i :: |a.retired| <= i < |b.retired| ==> b.retired[i].mb == a.queue[i - |a.retired|])
    && (forall i :: 0 <= i < |b.queue| ==> b.queue[i] == a.queue[i + |b.retired| - |a.retired|])
  }

  lemma {:induction false} ReadyMoves(m: Mode, s: State)
    ensures Moved(s, RunReady(m, s))
  {
  }

  lemma {:induction false} ReportedMoves(m: Mode, s: State, k: nat)
    requires k <= |s.queue|
    ensures Moved(s, RunReady(m, RetireReported(s, k)))
  {
  }

  lemma {:induction false} MovedEntries(w: World, w': World, a: State, e: Event)
    requires |w.delivered| == |w.exec.retired| + |w.exec.queue| && w.delivered <= w'.delivered && Moved(a, w'.exec)
    requires a.retired == w.exec.retired && |a.queue| == |w.exec.queue| + |w'.delivered| - |w.delivered|
    requires forall i :: 0 <= i < |w.exec.queue| ==>
               a.queue[i] == if e.Miss? && Blocked(w.exec.queue[i], e.mb) then e.mb else w.exec.queue[i]
    requires forall i :: |w.exec.queue| <= i < |a.queue| ==> a.queue[i] == w'.delivered[i + |a.retired|]
    ensures EntriesKept(w, w', e)
  {
    forall i | 0 <= i < |w'.delivered|
      ensures i >= |a.retired| ==> Entry(w', i) == a.queue[i - |a.retired|]
    {
    }
  }

  lemma {:induction false} NextKeepsEntries(m: Mode, w: World, e: Event)
    requires |w.delivered| == |w.exec.retired| + |w.exec.queue|
    ensures EntriesKept(w, Next(m, w, e), e)
  {
    hide RunReady, RetireReported, WithReport, Number, EntriesKept, Moved;
    var w' := Next(m, w, e);
    match e
    case Commit(mbs) =>
      var queued := w.exec.(queue := w.exec.queue + Number(w.numbering, mbs).1);
      ReadyMoves(m, queued);
      ReportedMoves(m, queued, ThroughQuorate(m, w.exec.done, queued.queue));
      MovedEntries(w, w', queued, e);
    case Result(node, no) =>
      var counted := w.exec.(done := WithReport(w.exec.done, node, no));
      StaysMoved(counted);
      ReportedMoves(m, counted, ThroughNumber(HighestQuorate(m, counted.done, no), counted.queue));
      MovedEntries(w, w', counted, e);
    case Miss(mb) =>
      var replaced := w.exec.(queue := Replaced(w.exec.queue, mb));
      StaysMoved(w.exec);
      ReadyMoves(m, replaced);
      if exists i :: 0 <= i < |w.exec.queue| && Blocked(w.exec.queue[i], mb) {
        MovedEntries(w, w', replaced, e);
      } else {
        MovedEntries(w, w', w.exec, e);
      }
  }

  lemma {:induction false} StaysMoved(s: State)
    ensures Moved(s, s)
  {
  }

  /** Over every run, each event keeps the entries in that way. */
  lemma {:induction false} RunKeepsEntries(m: Mode, es: seq<Event>, e: Event)
    ensures var w := Run(m, START, es);
            |w.delivered| == |w.exec.retired| + |w.exec.queue| && EntriesKept(w, Next(m, w, e), e)
    decreases |es|
  {
    hide Next, EntriesKept;
    if es != [] {
      RunKeepsEntries(m, es[..|es| - 1], es[|es| - 1]);
      KeptCount(Run(m, START, es[..|es| - 1]), Run(m, START, es), es[|es| - 1]);
    }
    NextKeepsEntries(m, Run(m, START, es), e);
  }

  lemma {:induction false} KeptCount(w: World, w': World, e: Event)
    requires |w.delivered| == |w.exec.retired| + |w.exec.queue| && EntriesKept(w, w', e)
    ensures |w'.delivered| == |w'.exec.retired| + |w'.exec.queue|
  {
  }

  // ----- What retires

  /** Of the entries that leave the queue, those before a place leave as reported, and the others as executed. */
  ghost predicate RetiresThrough(w: World, w': World, through: int) {
    && |w.exec.retired| <= |w'.exec.retired| && through <= |w'.exec.retired|
    && forall i :: |w.exec.retired| <= i < |w'.exec.retired| ==> (w'.exec.retired[i].Reported? <==> i < through)
  }

  lemma {:induction false} RetiredFirst(m: Mode, s: State, k: nat)
    requires k <= |s.queue|
    ensures var q := RunReady(m, RetireReported(s, k));
            && |s.retired| + k <= |q.retired|
            && forall i :: |s.retired| <= i < |q.retired| ==> (q.retired[i].Reported? <==> i < |s.retired| + k)
  {
  }

  /** A result retires as reported exactly the entries up to the greatest quorate number it covers, if that was delivered. */
  lemma {:induction false} ResultRetires(m: Mode, w: World, node: NodeId, no: int)
    requires Safe(m, w) && HeadWaits(m, w.exec)
    ensures var w' := Next(m, w, Result(node, no));
            var high := HighestQuorate(m, w'.exec.done, no);
            && (forall i :: i >= 1 ==> ReportersOf(w'.exec.done, i) == ReportersFrom(w.reports + {(node, no)}, i))
            && RetiresThrough(w, w', if high <= |w.delivered| then high else 0)
  {
    hide RunReady, RetireReported, WithReport, ThroughNumber, HighestQuorate, ReportersFrom, TxnsOf;
    ResultCounted(m, w, node, no);
    ResultSteps(m, w, node, no);
    var counted := w.(exec := w.exec.(done := WithReport(w.exec.done, node, no)), reports := w.reports + {(node, no)});
    var high := HighestQuorate(m, counted.exec.done, no);
    if high != 0 {
      var k := ThroughNumber(high, w.exec.queue);
      ThroughIs(w, high);
      RetiredFirst(m, counted.exec, k);
      assert RunReady(m, RetireReported(counted.exec, k)).done == counted.exec.done by { DoneStays(m, counted.exec, k); }
      if k == 0 {
        NothingLeaves(m, counted.exec);
      }
    }
  }

  lemma {:induction false} DoneStays(m: Mode, s: State, k: nat)
    requires k <= |s.queue|
    ensures RunReady(m, RetireReported(s, k)).done == s.done
  {
  }

  lemma {:induction false} NothingLeaves(m: Mode, s: State)
    requires HeadWaits(m, s)
    ensures RunReady(m, RetireReported(s, 0)).retired == s.retired
  {
    assert s.queue[0..] == s.queue && AllReported([]) == [] && AllExecuted([]) == [];
    assert ReadyPrefix(m, s.queue) == 0;
  }

  /** In a queue in delivery order, the entries through a number are those up to its place. */
  lemma {:induction false} ThroughIs(w: World, no: int)
    requires InDeliveryOrder(w) && no >= 1
    ensures ThroughNumber(no, w.exec.queue) ==
            if |w.exec.retired| < no <= |w.delivered| then no - |w.exec.retired| else 0
  {
    var k := ThroughNumber(no, w.exec.queue);
    if k > 0 {
      QueueNumber(w, k - 1);
    }
    if |w.exec.retired| < no <= |w.delivered| {
      QueueNumber(w, no - |w.exec.retired| - 1);
    }
  }

  /** A delivery retires as reported exactly the entries up to the last quorate one, and in plain mode none. */
  lemma {:induction false} DeliveryRetires(m: Mode, w: World, mbs: seq<MicroBlock>)
    requires Safe(m, w)
    ensures var w' := Next(m, w, Commit(mbs));
            && (!m.grouped ==> RetiresThrough(w, w', 0))
            && (m.grouped ==> exists last :: RetiresThrough(w, w', last) && LastQuorate(m, w, w', last))
  {
    hide RunReady, RetireReported, ThroughQuorate, ReportersFrom, ReportersOf, TxnsOf, Number;
    var (n, deliver) := Number(w.numbering, mbs);
    NumberedInTurn(w.numbering, mbs);
    QueueSafe(m, w, n, deliver);
    var queued := World(w.exec.(queue := w.exec.queue + deliver), n, w.delivered + deliver, w.reports);
    var k := ThroughQuorate(m, w.exec.done, queued.exec.queue);
    RetiredFirst(m, queued.exec, if m.grouped then k else 0);
    if m.grouped {
      var last := if k == 0 then 0 else |w.exec.retired| + k;
      forall i | 0 <= i < |queued.exec.queue|
        ensures queued.exec.queue[i].committedNo == |w.exec.retired| + i + 1
      {
        QueueNumber(queued, i);
      }
      var w' := Next(m, w, Commit(mbs));
      forall no | |w.exec.retired| < no <= |w'.delivered| && Quorate(m, w.exec.done, no)
        ensures no <= last
      {
        assert queued.exec.queue[no - |w.exec.retired| - 1].committedNo == no;
      }
      assert LastQuorate(m, w, w', last);
      assert RetiresThrough(w, w', last);
    } else {
      RetireNone(queued.exec);
    }
  }

  lemma {:induction false} RetireNone(s: State)
    ensures RetireReported(s, 0) == s
  {
    assert s.queue[0..] == s.queue && s.retired + AllReported([]) == s.retired;
  }

  /** The number of the last entry that is not retired before and is quorate, or 0. */
  ghost predicate LastQuorate(m: Mode, w: World, w': World, last: int) {
    && (last == 0 || (|w.exec.retired| < last <= |w'.delivered| && Quorate(m, w.exec.done, last)))
    && forall no :: |w.exec.retired| < no <= |w'.delivered| && Quorate(m, w.exec.done, no) ==> no <= last
  }
}
