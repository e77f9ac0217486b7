/**
 What a wrong number does to the cooperative executor (execute/execute.go). A microblock that was missing is
 put in the place of its entry with the number it carries. If that is lower than the number of the entry,
 reports of the lower number can retire the entry, which nobody reported. Here is exactly when.
 */
module ExecutorNumbers {
  import opened Prelude
  import opened Blocks
  import opened CoopExecutor

  /** The number that an entry of the queue was delivered under. */
  ghost function OwnNumber(w: World, i: nat): nat {
    |w.exec.retired| + i + 1
  }

  /** An entry was retired as reported, and fewer than a quorum reported its own number or a later one. */
  ghost predicate Unreported(m: Mode, w: World) {
    exists i :: 0 <= i < |w.exec.retired| && w.exec.retired[i].Reported? && |ReportersFrom(w.reports, i + 1)| < m.quorum
  }

  /** Deliveries and results only. */
  ghost predicate Calm(es: seq<Event>) {
    forall i :: 0 <= i < |es| ==> !es[i].Miss?
  }

  /** An entry whose number could retire it too early. */
  ghost predicate Harmful(m: Mode, w: World, i: nat)
    requires i < |w.exec.queue|
  {
    1 <= w.exec.queue[i].committedNo < OwnNumber(w, i) && |ReportersFrom(w.reports, OwnNumber(w, i))| < m.quorum
  }

  ghost predicate Harmless(m: Mode, w: World) {
    && ReportsCounted(w) && (forall no :: no < 1 ==> ReportersOf(w.exec.done, no) == {})
    && w.numbering.last == |w.exec.retired| + |w.exec.queue| && !Unreported(m, w)
    && forall i :: 0 <= i < |w.exec.queue| ==> !Harmful(m, w, i)
  }

  // ----- A harmless queue stays harmless

  lemma {:induction false} FewerReportLater(reports: set<(NodeId, int)>, no: int, later: int)
    requires no <= later
    ensures ReportersFrom(reports, later) <= ReportersFrom(reports, no)
    ensures |ReportersFrom(reports, later)| <= |ReportersFrom(reports, no)|
  {
    assert ReportersFrom(reports, later) <= ReportersFrom(reports, no);
    SubsetSize(ReportersFrom(reports, later), ReportersFrom(reports, no));
  }

  /** What is retired through a quorate entry was reported, under its own number. */
  lemma {:induction false} QuorateIsReported(m: Mode, w: World, k: nat)
    requires Harmless(m, w) && m.quorum >= 1 && 0 < k <= |w.exec.queue|
    requires Quorate(m, w.exec.done, w.exec.queue[k - 1].committedNo)
    ensures |ReportersFrom(w.reports, OwnNumber(w, k - 1))| >= m.quorum
  {
    var no := w.exec.queue[k - 1].committedNo;
    assert no >= 1;
    assert !Harmful(m, w, k - 1);
    if no >= OwnNumber(w, k - 1) {
      FewerReportLater(w.reports, OwnNumber(w, k - 1), no);
    }
  }

  lemma {:induction false} RetireHarmless(m: Mode, w: World, k: nat)
    requires Harmless(m, w) && m.quorum >= 1 && k <= |w.exec.queue|
    requires k > 0 ==> Quorate(m, w.exec.done, w.exec.queue[k - 1].committedNo)
    ensures Harmless(m, w.(exec := RetireReported(w.exec, k)))
  {
    hide ReportersFrom, ReportersOf, Quorate;
    var w' := w.(exec := RetireReported(w.exec, k));
    var n := |w.exec.retired|;
    if k > 0 {
      assert |ReportersFrom(w.reports, OwnNumber(w, k - 1))| >= m.quorum by { QuorateIsReported(m, w, k); }
    }
    forall i | 0 <= i < |w'.exec.retired| && w'.exec.retired[i].Reported?
      ensures |ReportersFrom(w.reports, i + 1)| >= m.quorum
    {
      if i < n {
        assert w'.exec.retired[i] == w.exec.retired[i];
      } else {
        FewerReportLater(w.reports, i + 1, OwnNumber(w, k - 1));
      }
    }
    forall i | 0 <= i < |w'.exec.queue|
      ensures !Harmful(m, w', i)
    {
      assert w'.exec.queue[i] == w.exec.queue[i + k] && !Harmful(m, w, i + k);
    }
  }

  lemma {:induction false} RunReadyHarmless(m: Mode, w: World)
    requires Harmless(m, w)
    ensures Harmless(m, w.(exec := RunReady(m, w.exec)))
  {
    hide ReportersFrom, ReportersOf;
    var w' := w.(exec := RunReady(m, w.exec));
    var k := ReadyPrefix(m, w.exec.queue);
    forall i | 0 <= i < |w'.exec.retired| && w'.exec.retired[i].Reported?
      ensures |ReportersFrom(w.reports, i + 1)| >= m.quorum
    {
      assert i < |w.exec.retired| && w'.exec.retired[i] == w.exec.retired[i];
    }
    forall i | 0 <= i < |w'.exec.queue|
      ensures !Harmful(m, w', i)
    {
      assert w'.exec.queue[i] == w.exec.queue[i + k] && !Harmful(m, w, i + k);
    }
  }

  lemma {:induction false} DeliveryHarmless(m: Mode, w: World, n: Numbering, deliver: seq<MicroBlock>)
    requires Harmless(m, w) && n.last == w.numbering.last + |deliver|
    requires forall i :: 0 <= i < |deliver| ==> deliver[i].committedNo == w.numbering.last + i + 1
    ensures Harmless(m, World(w.exec.(queue := w.exec.queue + deliver), n, w.delivered + deliver, w.reports))
  {
    hide ReportersFrom, ReportersOf;
    var w' := World(w.exec.(queue := w.exec.queue + deliver), n, w.delivered + deliver, w.reports);
    forall i | 0 <= i < |w'.exec.queue|
      ensures !Harmful(m, w', i)
    {
      if i < |w.exec.queue| {
        assert w'.exec.queue[i] == w.exec.queue[i] && !Harmful(m, w, i);
      }
    }
  }

  lemma {:induction false} CountingHarmless(m: Mode, w: World, node: NodeId, no: int)
    requires Harmless(m, w)
    ensures Harmless(m, w.(exec := w.exec.(done := WithReport(w.exec.done, node, no)), reports := w.reports + {(node, no)}))
  {
    hide WithReport, ReportersFrom, ReportersOf;
    var w' := w.(exec := w.exec.(done := WithReport(w.exec.done, node, no)), reports := w.reports + {(node, no)});
    forall i: int
      ensures ReportersOf(w'.exec.done, i) == ReportersOf(w.exec.done, i) + (if 1 <= i <= no then {node} else {})
      ensures ReportersFrom(w'.reports, i) == ReportersFrom(w.reports, i) + (if no >= i then {node} else {})
      ensures |ReportersFrom(w'.reports, i)| >= |ReportersFrom(w.reports, i)|
    {
      WithReportAt(w.exec.done, node, no, i);
      ReportersGrow(w.reports, node, no, i);
      SubsetSize(ReportersFrom(w.reports, i), ReportersFrom(w'.reports, i));
    }
    forall i | 0 <= i < |w'.exec.queue|
      ensures !Harmful(m, w', i)
    {
      assert !Harmful(m, w, i);
    }
  }

  lemma {:induction false} NextHarmless(m: Mode, w: World, e: Event)
    requires Harmless(m, w) && m.quorum >= 1 && !e.Miss?
    ensures Harmless(m, Next(m, w, e))
  {
    hide Harmless, RunReady, WithReport, HighestQuorate, ThroughNumber, ThroughQuorate, Number;
    match e
    case Commit(mbs) =>
      var (n, deliver) := Number(w.numbering, mbs);
      NumberedInTurn(w.numbering, mbs);
      DeliveryHarmless(m, w, n, deliver);
      var queued := World(w.exec.(queue := w.exec.queue + deliver), n, w.delivered + deliver, w.reports);
      var k := ThroughQuorate(m, w.exec.done, queued.exec.queue);
      var left := if m.grouped then queued.(exec := RetireReported(queued.exec, k)) else queued;
      if m.grouped {
        RetireHarmless(m, queued, k);
      }
      RunReadyHarmless(m, left);
    case Result(node, no) =>
      CountingHarmless(m, w, node, no);
      ResultSteps(m, w, node, no);
      var counted := w.(exec := w.exec.(done := WithReport(w.exec.done, node, no)), reports := w.reports + {(node, no)});
      var high := HighestQuorate(m, counted.exec.done, no);
      if high != 0 {
        var k := ThroughNumber(high, counted.exec.queue);
        RetireHarmless(m, counted, k);
        RunReadyHarmless(m, counted.(exec := RetireReported(counted.exec, k)));
      }
  }

  lemma {:induction false} CalmRunHarmless(m: Mode, w: World, es: seq<Event>)
    requires Harmless(m, w) && m.quorum >= 1 && Calm(es)
    ensures Harmless(m, Run(m, w, es))
    decreases |es|
  {
    if es != [] {
      hide Harmless, Next;
      CalmRunHarmless(m, w, es[..|es| - 1]);
      NextHarmless(m, Run(m, w, es[..|es| - 1]), es[|es| - 1]);
    }
  }

  // ----- A harmful entry can be retired too early

  /** One entry may do harm; the others have their own numbers, none is reported yet, and the first is not executed here. */
  ghost predicate Poised(m: Mode, w: World, j: nat) {
    && ReportsCounted(w) && j < |w.exec.queue| && Harmful(m, w, j) && !m.Executable(w.exec.queue[0])
    && (forall i :: 0 <= i < |w.exec.queue| && i != j ==> w.exec.queue[i].committedNo == OwnNumber(w, i))
    && (forall i :: 0 <= i < |w.exec.queue| ==> |ReportersFrom(w.reports, OwnNumber(w, i))| < m.quorum)
  }

  lemma {:induction false} FreshNode(nodes: set<NodeId>) returns (x: NodeId)
    ensures forall y :: y in nodes ==> y < x
  {
    if nodes == {} {
      x := 0;
    } else {
      var y :| y in nodes;
      var above := FreshNode(nodes - {y});
      x := if y < above then above else y + 1;
      assert forall z :: z in nodes ==> z == y || z in nodes - {y};
    }
  }

  /** A node that did not report a number, but each lower one that more nodes reported. */
  lemma {:induction false} NextReporter(reports: set<(NodeId, int)>, no: nat, k: nat) returns (x: NodeId)
    requires k < no && forall i :: k < i <= no ==> ReportersFrom(reports, i) == ReportersFrom(reports, no)
    ensures x !in ReportersFrom(reports, no)
    ensures forall i :: 1 <= i <= no ==>
              x in ReportersFrom(reports, i) || ReportersFrom(reports, i) == ReportersFrom(reports, no)
    decreases k
  {
    hide ReportersFrom;
    if k == 0 {
      x := FreshNode(ReportersFrom(reports, no));
    } else if ReportersFrom(reports, k) == ReportersFrom(reports, no) {
      x := NextReporter(reports, no, k - 1);
    } else {
      FewerReportLater(reports, k, no);
      x :| x in ReportersFrom(reports, k) && x !in ReportersFrom(reports, no);
      forall i | 1 <= i <= k
        ensures x in ReportersFrom(reports, i)
      {
        FewerReportLater(reports, i, k);
      }
    }
  }

  ghost function Counted(w: World, node: NodeId, no: int): World {
    w.(exec := w.exec.(done := WithReport(w.exec.done, node, no)), reports := w.reports + {(node, no)})
  }

  lemma {:induction false} CountedReports(w: World, node: NodeId, no: int)
    requires ReportsCounted(w)
    ensures ReportsCounted(Counted(w, node, no))
    ensures forall i ::
              ReportersFrom(Counted(w, node, no).reports, i) == ReportersFrom(w.reports, i) + if no >= i then {node} else {}
  {
    hide WithReport, ReportersFrom, ReportersOf;
    var w' := Counted(w, node, no);
    forall i: int
      ensures ReportersOf(w'.exec.done, i) == ReportersOf(w.exec.done, i) + (if 1 <= i <= no then {node} else {})
      ensures ReportersFrom(w'.reports, i) == ReportersFrom(w.reports, i) + (if no >= i then {node} else {})
    {
      WithReportAt(w.exec.done, node, no, i);
      ReportersGrow(w.reports, node, no, i);
    }
  }

  lemma {:induction false} RetiredAt(m: Mode, s: State, k: nat, j: nat)
    requires j < k <= |s.queue|
    ensures var retired := RunReady(m, RetireReported(s, k)).retired;
            |s.retired| + j < |retired| && retired[|s.retired| + j] == Reported(s.queue[j])
  {
  }

  /** Once the number of the entry is quorate, the entry is retired on reports of that number. */
  lemma {:induction false} Strike(m: Mode, w: World, j: nat, x: NodeId)
    requires Poised(m, w, j)
    requires |ReportersFrom(Counted(w, x, w.exec.queue[j].committedNo).reports, w.exec.queue[j].committedNo)| >= m.quorum
    ensures Unreported(m, Next(m, w, Result(x, w.exec.queue[j].committedNo)))
  {
    hide WithReport, ReportersFrom, ReportersOf, Next, RunReady, RetireReported, HighestQuorate, ThroughNumber;
    var no := w.exec.queue[j].committedNo;
    var counted := Counted(w, x, no);
    CountedReports(w, x, no);
    ResultSteps(m, w, x, no);
    assert Quorate(m, counted.exec.done, no);
    RetiredAt(m, counted.exec, ThroughNumber(no, w.exec.queue), j);
    var at := |w.exec.retired| + j;
    assert ReportersFrom(counted.reports, at + 1) == ReportersFrom(w.reports, at + 1);
  }

  /** A number that is not reported enough stays so, up to the moment when the entry's number is. */
  lemma {:induction false} StaysBelow(m: Mode, w: World, x: NodeId, no: nat, own: nat)
    requires ReportsCounted(w) && |ReportersFrom(Counted(w, x, no).reports, no)| < m.quorum
    requires 1 <= own && |ReportersFrom(w.reports, own)| < m.quorum
    requires own <= no ==> x in ReportersFrom(w.reports, own) || ReportersFrom(w.reports, own) == ReportersFrom(w.reports, no)
    ensures |ReportersFrom(Counted(w, x, no).reports, own)| < m.quorum
  {
    hide WithReport, ReportersFrom, ReportersOf;
    CountedReports(w, x, no);
    if own <= no && x in ReportersFrom(w.reports, own) {
      assert ReportersFrom(w.reports, own) + {x} == ReportersFrom(w.reports, own);
    }
  }

  lemma {:induction false} StillPoised(m: Mode, w: World, j: nat, x: NodeId)
    requires Poised(m, w, j) && var no := w.exec.queue[j].committedNo;
             && |ReportersFrom(Counted(w, x, no).reports, no)| < m.quorum
             && forall i :: 1 <= i <= no ==>
                  x in ReportersFrom(w.reports, i) || ReportersFrom(w.reports, i) == ReportersFrom(w.reports, no)
    ensures Poised(m, Counted(w, x, w.exec.queue[j].committedNo), j)
  {
    hide WithReport, ReportersFrom, ReportersOf, Mode.Executable, ReportsCounted;
    var no := w.exec.queue[j].committedNo;
    var counted := Counted(w, x, no);
    assert ReportsCounted(counted) by { CountedReports(w, x, no); }
    forall i | 0 <= i < |w.exec.queue|
      ensures |ReportersFrom(counted.reports, OwnNumber(w, i))| < m.quorum
    {
      StaysBelow(m, w, x, no, OwnNumber(w, i));
    }
  }

  /** Until then, a report from the right node changes nothing but the count. */
  lemma {:induction false} Hold(m: Mode, w: World, j: nat, x: NodeId)
    requires Poised(m, w, j) && Poised(m, Counted(w, x, w.exec.queue[j].committedNo), j)
    requires |ReportersFrom(Counted(w, x, w.exec.queue[j].committedNo).reports, w.exec.queue[j].committedNo)| < m.quorum
    ensures Next(m, w, Result(x, w.exec.queue[j].committedNo)) == Counted(w, x, w.exec.queue[j].committedNo)
  {
    hide WithReport, ReportersFrom, Next, ReportsCounted, Harmful, HighestQuorate, ThroughNumber, RunReady, RetireReported;
    var no := w.exec.queue[j].committedNo;
    ResultSteps(m, w, x, no);
    NothingRetired(m, Counted(w, x, no), j, no);
  }

  lemma {:induction false} NothingRetired(m: Mode, counted: World, j: nat, no: int)
    requires Poised(m, counted, j) && counted.exec.queue[j].committedNo == no
    requires |ReportersFrom(counted.reports, no)| < m.quorum
    ensures var high := HighestQuorate(m, counted.exec.done, no);
            high != 0 ==>
              var left := RetireReported(counted.exec, ThroughNumber(high, counted.exec.queue));
              left == counted.exec && RunReady(m, left) == left
  {
    hide ReportersFrom;
    var high := HighestQuorate(m, counted.exec.done, no);
    if high != 0 {
      forall i | 0 <= i < |counted.exec.queue|
        ensures counted.exec.queue[i].committedNo != high
      {
        assert Quorate(m, counted.exec.done, high);
      }
      assert ThroughNumber(high, counted.exec.queue) == 0;
      assert AllReported([]) == [] && counted.exec.retired + [] == counted.exec.retired;
      assert ReadyPrefix(m, counted.exec.queue) == 0;
      assert AllExecuted([]) == [];
    }
  }

  lemma {:induction false} RunAfter(m: Mode, w: World, e: Event, es: seq<Event>)
    ensures Run(m, w, [e] + es) == Run(m, Next(m, w, e), es)
    decreases |es|
  {
    hide Next;
    var all := [e] + es;
    if es == [] {
      assert all[..0] == [] && all == [e];
    } else {
      assert all[..|all| - 1] == [e] + es[..|es| - 1];
      RunAfter(m, w, e, es[..|es| - 1]);
    }
  }

  /** Reports of the entry's number, from the right nodes in turn, retire it. */
  lemma {:induction false} Ambush(m: Mode, w: World, j: nat) returns (es: seq<Event>)
    requires Poised(m, w, j)
    ensures Calm(es) && Unreported(m, Run(m, w, es))
    decreases var left := m.quorum - |ReportersFrom(w.reports, w.exec.queue[j].committedNo)|; if left > 0 then left else 0
  {
    hide Next, Unreported, ReportersFrom, WithReport;
    var no := w.exec.queue[j].committedNo;
    var x := NextReporter(w.reports, no, no - 1);
    var e := Result(x, no);
    CountedReports(w, x, no);
    if |ReportersFrom(Counted(w, x, no).reports, no)| >= m.quorum {
      Strike(m, w, j, x);
      RunAfter(m, w, e, []);
      es := [e] + [];
    } else {
      StillPoised(m, w, j, x);
      Hold(m, w, j, x);
      var rest := Ambush(m, Counted(w, x, no), j);
      RunAfter(m, w, e, rest);
      es := [e] + rest;
    }
  }

  // ----- A microblock that is sent again

  /**
   The microblock takes the place of an entry that is not executed at once, under a number that is lower
   than the entry's own, which is not quorate yet.
   */
  ghost predicate Harms(m: Mode, w: World, mb: MicroBlock) {
    exists i :: 0 <= i < |w.exec.queue| && Blocked(w.exec.queue[i], mb)
                && 1 <= mb.committedNo < w.exec.queue[i].committedNo && !Quorate(m, w.exec.done, w.exec.queue[i].committedNo)
                && i >= ReadyPrefix(m, Replaced(w.exec.queue, mb))
  }

  lemma {:induction false} CountsFromOne(m: Mode, w: World, es: seq<Event>)
    requires forall no :: no < 1 ==> ReportersOf(w.exec.done, no) == {}
    ensures forall no :: no < 1 ==> ReportersOf(Run(m, w, es).exec.done, no) == {}
    decreases |es|
  {
    if es != [] {
      hide ReportersOf, WithReport, HighestQuorate, ThroughNumber, ThroughQuorate, Number, ReadyPrefix, TxnsOf, Replaced;
      CountsFromOne(m, w, es[..|es| - 1]);
      var v, e := Run(m, w, es[..|es| - 1]), es[|es| - 1];
      if e.Result? {
        forall no | no < 1
          ensures ReportersOf(WithReport(v.exec.done, e.node, e.no), no) == {}
        {
          WithReportAt(v.exec.done, e.node, e.no, no);
        }
      }
    }
  }

  /** What a missing microblock that arrives leaves behind. */
  lemma {:induction false} AfterMissIs(m: Mode, w: World, mb: MicroBlock)
    ensures var (w', k) := (Next(m, w, Miss(mb)), ReadyPrefix(m, Replaced(w.exec.queue, mb)));
            if exists i :: 0 <= i < |w.exec.queue| && Blocked(w.exec.queue[i], mb) then
              && w' == w.(exec := w'.exec) && w'.exec.done == w.exec.done && w'.exec.queue == Replaced(w.exec.queue, mb)[k..]
              && w'.exec.retired == w.exec.retired + AllExecuted(Replaced(w.exec.queue, mb)[..k])
            else w' == w
  {
  }

  /** At most one entry waits for a microblock. */
  lemma {:induction false} OneBlocked(w: World, mb: MicroBlock, i: nat, j: nat)
    requires InDeliveryOrder(w) && i < |w.exec.queue| && j < |w.exec.queue|
    requires Blocked(w.exec.queue[i], mb) && Blocked(w.exec.queue[j], mb)
    ensures i == j
  {
    var n := |w.exec.retired|;
    assert Entry(w, n + i) == w.exec.queue[i] && Entry(w, n + j) == w.exec.queue[j];
    assert w.delivered[n + i].hash == w.delivered[n + j].hash;
  }

  lemma {:induction false} HarmsIsPoised(m: Mode, w: World, mb: MicroBlock) returns (j: nat)
    requires Safe(m, w) && NotStalled(m, w) && m.grouped && Harms(m, w, mb)
    ensures Poised(m, Next(m, w, Miss(mb)), j)
  {
    hide Next, Poised, Safe, NotStalled;
    var i :| 0 <= i < |w.exec.queue| && Blocked(w.exec.queue[i], mb)
             && 1 <= mb.committedNo < w.exec.queue[i].committedNo && !Quorate(m, w.exec.done, w.exec.queue[i].committedNo)
             && i >= ReadyPrefix(m, Replaced(w.exec.queue, mb));
    hide Quorate, Replaced, ReadyPrefix;
    PoisedAt(m, w, mb, i);
    j := i - ReadyPrefix(m, Replaced(w.exec.queue, mb));
  }

  lemma {:induction false} PoisedAt(m: Mode, w: World, mb: MicroBlock, i: nat)
    requires Safe(m, w) && NotStalled(m, w) && m.grouped && i < |w.exec.queue| && Blocked(w.exec.queue[i], mb)
    requires 1 <= mb.committedNo < w.exec.queue[i].committedNo && !Quorate(m, w.exec.done, w.exec.queue[i].committedNo)
    requires i >= ReadyPrefix(m, Replaced(w.exec.queue, mb))
    ensures Poised(m, Next(m, w, Miss(mb)), i - ReadyPrefix(m, Replaced(w.exec.queue, mb)))
  {
    hide Next, ReportersFrom, Safe, NotStalled, Quorate, Mode.Executable, InDeliveryOrder, Replaced, AllExecuted, ReadyPrefix;
    assert ReportsCounted(w) && InDeliveryOrder(w) by { ReportsAreCounted(m, w); }
    AfterMissIs(m, w, mb);
    var w', k := Next(m, w, Miss(mb)), ReadyPrefix(m, Replaced(w.exec.queue, mb));
    forall x | 0 <= x < |w'.exec.queue|
      ensures w'.exec.queue[x].committedNo == if x + k == i then mb.committedNo else OwnNumber(w', x)
      ensures |ReportersFrom(w.reports, OwnNumber(w', x))| < m.quorum
    {
      OthersKeepNumber(m, w, mb, i, x + k);
    }
    OthersKeepNumber(m, w, mb, i, i);
  }

  lemma {:induction false} ReportsAreCounted(m: Mode, w: World)
    requires Safe(m, w)
    ensures ReportsCounted(w) && InDeliveryOrder(w)
  {
  }

  lemma {:induction false} OthersKeepNumber(m: Mode, w: World, mb: MicroBlock, i: nat, x: nat)
    requires Safe(m, w) && NotStalled(m, w) && m.grouped && i < |w.exec.queue| && x < |w.exec.queue|
    requires Blocked(w.exec.queue[i], mb) && !Quorate(m, w.exec.done, w.exec.queue[i].committedNo)
    ensures Replaced(w.exec.queue, mb)[x].committedNo == if x == i then mb.committedNo else OwnNumber(w, x)
    ensures w.exec.queue[x].committedNo == OwnNumber(w, x) && |ReportersFrom(w.reports, OwnNumber(w, x))| < m.quorum
  {
    hide ReportersFrom;
    QueueNumber(w, x);
    NoneQuorate(m, w, i, x);
    if Blocked(w.exec.queue[x], mb) {
      OneBlocked(w, mb, x, i);
    }
  }

  /** In a queue that is not stalled, if one entry is not quorate then none is. */
  lemma {:induction false} NoneQuorate(m: Mode, w: World, i: nat, x: nat)
    requires Safe(m, w) && NotStalled(m, w) && m.grouped && i < |w.exec.queue| && x < |w.exec.queue|
    requires !Quorate(m, w.exec.done, w.exec.queue[i].committedNo)
    ensures |ReportersFrom(w.reports, w.exec.queue[x].committedNo)| < m.quorum
  {
    hide ReportersFrom;
    QueueNumber(w, i);
    QueueNumber(w, x);
    if Quorate(m, w.exec.done, w.exec.queue[x].committedNo) {
      QuorateIsPrefix(m, w, w.exec.queue[i].committedNo, w.numbering.last + 1);
    }
  }

  lemma {:induction false} SafeIsHarmless(m: Mode, w: World)
    requires Safe(m, w) && forall no :: no < 1 ==> ReportersOf(w.exec.done, no) == {}
    ensures Harmless(m, w)
  {
    hide ReportersFrom, ReportersOf, Mode.Executable;
    forall i | 0 <= i < |w.exec.retired| && w.exec.retired[i].Reported?
      ensures |ReportersFrom(w.reports, i + 1)| >= m.quorum
    {
      assert Entry(w, i) == w.exec.retired[i].mb && Justified(m, w, w.exec.retired[i]);
    }
    forall i | 0 <= i < |w.exec.queue|
      ensures !Harmful(m, w, i)
    {
      QueueNumber(w, i);
    }
  }

  lemma {:induction false} OthersAreHarmless(m: Mode, w: World, mb: MicroBlock)
    requires Safe(m, w) && (forall no :: no < 1 ==> ReportersOf(w.exec.done, no) == {}) && !Harms(m, w, mb)
    ensures Harmless(m, Next(m, w, Miss(mb)))
  {
    hide Next, ReportersFrom, ReportersOf, Safe, Harms, Quorate, InDeliveryOrder, ReadyPrefix, AllExecuted, Blocked;
    SafeIsHarmless(m, w);
    AfterMissIs(m, w, mb);
    var w', k := Next(m, w, Miss(mb)), ReadyPrefix(m, Replaced(w.exec.queue, mb));
    if w' != w {
      forall x | 0 <= x < |w'.exec.queue|
        ensures !Harmful(m, w', x)
      {
        SmallerThanOwn(m, w, mb, x + k);
      }
      forall i | 0 <= i < |w'.exec.retired| && w'.exec.retired[i].Reported?
        ensures |ReportersFrom(w.reports, i + 1)| >= m.quorum
      {
        assert i < |w.exec.retired| && w'.exec.retired[i] == w.exec.retired[i];
      }
    }
  }

  lemma {:induction false} SmallerThanOwn(m: Mode, w: World, mb: MicroBlock, i: nat)
    requires Safe(m, w) && !Harms(m, w, mb) && ReadyPrefix(m, Replaced(w.exec.queue, mb)) <= i < |w.exec.queue|
    ensures 1 <= Replaced(w.exec.queue, mb)[i].committedNo < OwnNumber(w, i) ==>
              |ReportersFrom(w.reports, OwnNumber(w, i))| >= m.quorum
  {
    hide ReportersFrom;
    QueueNumber(w, i);
  }

  /** Deliveries and results after a microblock that is sent again can retire an entry that was not reported. */
  ghost predicate CanGoWrong(m: Mode, w: World, mb: MicroBlock) {
    exists later :: Calm(later) && Unreported(m, Run(m, Next(m, w, Miss(mb)), later))
  }

  /**
   After every run that kept numbers: in cooperative mode this can happen if, and only if, the microblock
   harms; in plain mode, only if it does.
   */
  lemma {:induction false} UnreportedIffHarms(m: Mode, es: seq<Event>, mb: MicroBlock)
    requires m.quorum >= 1 && AllKeepNumbers(m, START, es)
    ensures CanGoWrong(m, Run(m, START, es), mb) ==> Harms(m, Run(m, START, es), mb)
    ensures m.grouped && Harms(m, Run(m, START, es), mb) ==> CanGoWrong(m, Run(m, START, es), mb)
  {
    hide Next, Unreported, Harms, Safe, NotStalled;
    var w := Run(m, START, es);
    RunSafe(m, es);
    RunNotStalled(m, es);
    CountsFromOne(m, START, es);
    hide Run;
    if !Harms(m, w, mb) {
      OthersAreHarmless(m, w, mb);
      forall later | Calm(later)
        ensures !Unreported(m, Run(m, Next(m, w, Miss(mb)), later))
      {
        CalmRunHarmless(m, Next(m, w, Miss(mb)), later);
      }
    } else if m.grouped {
      var j := HarmsIsPoised(m, w, mb);
      var later := Ambush(m, Next(m, w, Miss(mb)), j);
    }
  }
}
