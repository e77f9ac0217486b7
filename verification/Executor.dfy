/**
 The cooperative executor (execute/execute.go) and the numbering of what it is given
 (replica/replica.go): committed microblocks are numbered and queued; an entry leaves the
 queue when it is executed here, or when enough nodes reported the result of it or of a later
 one. Signatures of results are left out, so a set of nodes stands for a map to signatures.
 */
module CoopExecutor {
  import opened Prelude
  import opened Blocks

  /** Which entries this node executes, and how many reports replace executing one. */
  datatype Mode = Mode(grouped: bool, myGroups: set<int>, quorum: int) {
    predicate Executable(mb: MicroBlock) {
      !mb.fake && (grouped ==> mb.group in myGroups)
    }
  }

  type Reports = map<int, set<NodeId>>

  function ReportersOf(done: Reports, no: int): set<NodeId> {
    if no in done then done[no] else {}
  }

  predicate Quorate(m: Mode, done: Reports, no: int) {
    |ReportersOf(done, no)| >= m.quorum
  }

  datatype Retirement = Executed(mb: MicroBlock) | Reported(mb: MicroBlock)

  datatype State = State(queue: seq<MicroBlock>, done: Reports, txns: nat, retired: seq<Retirement>)

  // ----- What the loops of the source compute

  /** The length of the longest prefix whose entries are all executable. */
  function ReadyPrefix(m: Mode, queue: seq<MicroBlock>): (k: nat)
    ensures k <= |queue|
    ensures forall i :: 0 <= i < k ==> m.Executable(queue[i])
    ensures k < |queue| ==> !m.Executable(queue[k])
  {
    if queue == [] || !m.Executable(queue[0]) then 0 else 1 + ReadyPrefix(m, queue[1..])
  }

  /** The length of the shortest prefix that holds all quorate entries. */
  function ThroughQuorate(m: Mode, done: Reports, queue: seq<MicroBlock>): (k: nat)
    ensures k <= |queue|
    ensures k > 0 ==> Quorate(m, done, queue[k - 1].committedNo)
    ensures forall i :: k <= i < |queue| ==> !Quorate(m, done, queue[i].committedNo)
  {
    var last := |queue| - 1;
    if queue == [] then 0
    else if Quorate(m, done, queue[last].committedNo) then |queue|
    else ThroughQuorate(m, done, queue[..last])
  }

  /** The length of the shortest prefix that holds all entries of that number. */
  function ThroughNumber(no: int, queue: seq<MicroBlock>): (k: nat)
    ensures k <= |queue|
    ensures k > 0 ==> queue[k - 1].committedNo == no
    ensures forall i :: k <= i < |queue| ==> queue[i].committedNo != no
  {
    var last := |queue| - 1;
    if queue == [] then 0
    else if queue[last].committedNo == no then |queue|
    else ThroughNumber(no, queue[..last])
  }

  /** The greatest quorate number from 1 to no, or 0. */
  function HighestQuorate(m: Mode, done: Reports, no: int): (high: int)
    ensures high == 0 || (1 <= high <= no && Quorate(m, done, high))
    ensures forall i :: 1 <= i <= no && Quorate(m, done, i) ==> i <= high
    decreases if no < 0 then 0 else no
  {
    if no < 1 then 0
    else if Quorate(m, done, no) then no
    else HighestQuorate(m, done, no - 1)
  }

  /** A result counts for its own microblock and for all that precede it. */
  function WithReport(done: Reports, node: NodeId, no: int): Reports
    decreases if no < 0 then 0 else no
  {
    if no < 1 then done else WithReport(done, node, no - 1)[no := ReportersOf(done, no) + {node}]
  }

  lemma {:induction false} WithReportAt(done: Reports, node: NodeId, no: int, i: int)
    ensures ReportersOf(WithReport(done, node, no), i) == ReportersOf(done, i) + if 1 <= i <= no then {node} else {}
    decreases if no < 0 then 0 else no
  {
    if no >= 1 {
      WithReportAt(done, node, no - 1, i);
    }
  }

  function TxnsOf(mbs: seq<MicroBlock>): nat {
    if mbs == [] then 0 else TxnsOf(mbs[..|mbs| - 1]) + mbs[|mbs| - 1].txns
  }

  function AllExecuted(mbs: seq<MicroBlock>): (r: seq<Retirement>)
    ensures |r| == |mbs| && forall i :: 0 <= i < |mbs| ==> r[i] == Executed(mbs[i])
  {
    seq(|mbs|, i requires 0 <= i < |mbs| => Executed(mbs[i]))
  }

  function AllReported(mbs: seq<MicroBlock>): (r: seq<Retirement>)
    ensures |r| == |mbs| && forall i :: 0 <= i < |mbs| ==> r[i] == Reported(mbs[i])
  {
    seq(|mbs|, i requires 0 <= i < |mbs| => Reported(mbs[i]))
  }

  // ----- The handlers

  function RunReady(m: Mode, s: State): State {
    var k := ReadyPrefix(m, s.queue);
    State(s.queue[k..], s.done, s.txns + TxnsOf(s.queue[..k]), s.retired + AllExecuted(s.queue[..k]))
  }

  function RetireReported(s: State, k: nat): State
    requires k <= |s.queue|
  {
    State(s.queue[k..], s.done, s.txns + TxnsOf(s.queue[..k]), s.retired + AllReported(s.queue[..k]))
  }

  function AfterDelivery(m: Mode, s: State, mbs: seq<MicroBlock>): State {
    var queued := s.(queue := s.queue + mbs);
    RunReady(m,
      if m.grouped then
        RetireReported(queued, ThroughQuorate(m, s.done, queued.queue))
      else queued)
  }

  function AfterResult(m: Mode, s: State, node: NodeId, no: int): State {
    var counted := s.(done := WithReport(s.done, node, no));
    var high := HighestQuorate(m, counted.done, no);
    if high == 0 then counted
    else RunReady(m, RetireReported(counted, ThroughNumber(high, counted.queue)))
  }

  predicate Blocked(entry: MicroBlock, mb: MicroBlock) {
    entry.hash == mb.hash && entry.fake
  }

  function Replaced(queue: seq<MicroBlock>, mb: MicroBlock): (r: seq<MicroBlock>)
    ensures |r| == |queue|
    ensures forall i :: 0 <= i < |queue| ==> r[i] == if Blocked(queue[i], mb) then mb else queue[i]
  {
    seq(|queue|, i requires 0 <= i < |queue| => if Blocked(queue[i], mb) then mb else queue[i])
  }

  function AfterMiss(m: Mode, s: State, mb: MicroBlock): State {
    if exists i :: 0 <= i < |s.queue| && Blocked(s.queue[i], mb) then
      RunReady(m, s.(queue := Replaced(s.queue, mb)))
    else s
  }

  // ----- Numbering what was committed

  /** What the replica remembers of earlier commits: the hashes, and the last number given. */
  datatype Numbering = Numbering(seen: set<Hash>, last: nat)

  /** New microblocks are numbered on from the last one; repeated ones are skipped. */
  function Number(n: Numbering, mbs: seq<MicroBlock>): (r: (Numbering, seq<MicroBlock>)) {
    if mbs == [] then (n, [])
    else
      var (n', deliver) := Number(n, mbs[..|mbs| - 1]);
      var mb := mbs[|mbs| - 1];
      if mb.hash in n'.seen then (n', deliver)
      else (Numbering(n'.seen + {mb.hash}, n'.last + 1), deliver + [mb.(committedNo := n'.last + 1)])
  }

  // ----- Runs

  datatype Event =
    | Commit(mbs: seq<MicroBlock>)
    | Result(node: NodeId, no: int)
    | Miss(mb: MicroBlock)

  /** The executor together with what happened so far. */
  datatype World = World(exec: State, numbering: Numbering, delivered: seq<MicroBlock>, reports: set<(NodeId, int)>)

  const START := World(State([], map[], 0, []), Numbering({}, 0), [], {})

  function Next(m: Mode, w: World, e: Event): World {
    match e
    case Commit(mbs) =>
      var (n, deliver) := Number(w.numbering, mbs);
      World(AfterDelivery(m, w.exec, deliver), n, w.delivered + deliver, w.reports)
    case Result(node, no) =>
      w.(exec := AfterResult(m, w.exec, node, no), reports := w.reports + {(node, no)})
    case Miss(mb) =>
      w.(exec := AfterMiss(m, w.exec, mb))
  }

  /** A microblock that is sent again carries the number of the entry it replaces. */
  predicate KeepsNumber(w: World, e: Event) {
    e.Miss? ==> forall i :: 0 <= i < |w.exec.queue| && Blocked(w.exec.queue[i], e.mb) ==>
                  w.exec.queue[i].committedNo == e.mb.committedNo
  }

  function Run(m: Mode, w: World, es: seq<Event>): World {
    if es == [] then w else Next(m, Run(m, w, es[..|es| - 1]), es[|es| - 1])
  }

  predicate AllKeepNumbers(m: Mode, w: World, es: seq<Event>) {
    es == [] || (AllKeepNumbers(m, w, es[..|es| - 1]) && KeepsNumber(Run(m, w, es[..|es| - 1]), es[|es| - 1]))
  }

  // ----- Safety

  ghost function MbsOf(rs: seq<Retirement>): (r: seq<MicroBlock>)
    ensures |r| == |rs| && forall i :: 0 <= i < |rs| ==> r[i] == rs[i].mb
  {
    seq(|rs|, i requires 0 <= i < |rs| => rs[i].mb)
  }

  lemma {:induction false} TxnsAdd(a: seq<MicroBlock>, b: seq<MicroBlock>)
    ensures TxnsOf(a + b) == TxnsOf(a) + TxnsOf(b)
    decreases |b|
  {
    if b == [] {
      assert a + b == a;
    } else {
      assert (a + b)[..|a + b| - 1] == a + b[..|b| - 1];
      TxnsAdd(a, b[..|b| - 1]);
    }
  }

  /** The nodes that reported a result of number no or a later one. */
  ghost function ReportersFrom(reports: set<(NodeId, int)>, no: int): set<NodeId> {
    set r | r in reports && r.1 >= no :: r.0
  }

  ghost predicate ReportsCounted(w: World) {
    forall no :: no >= 1 ==> ReportersOf(w.exec.done, no) == ReportersFrom(w.reports, no)
  }

  /** Retired and queued entries are the delivered ones, in order and each once. */
  ghost function Entry(w: World, i: nat): MicroBlock
    requires i < |w.exec.retired| + |w.exec.queue|
  {
    if i < |w.exec.retired| then w.exec.retired[i].mb else w.exec.queue[i - |w.exec.retired|]
  }

  ghost predicate InDeliveryOrder(w: World) {
    && |w.delivered| == |w.exec.retired| + |w.exec.queue| == w.numbering.last
    && (forall i :: 0 <= i < |w.delivered| ==> w.delivered[i].committedNo == i + 1 && w.delivered[i].hash in w.numbering.seen)
    && (forall i, j :: 0 <= i < j < |w.delivered| ==> w.delivered[i].hash != w.delivered[j].hash)
    && (forall i :: 0 <= i < |w.delivered| ==>
          Entry(w, i).hash == w.delivered[i].hash && Entry(w, i).committedNo == i + 1)
  }

  /** An entry was executed here, or a quorum reported a result at or after it. */
  ghost predicate Justified(m: Mode, w: World, r: Retirement) {
    match r
    case Executed(mb) => !mb.fake && (m.grouped ==> mb.group in m.myGroups)
    case Reported(mb) => |ReportersFrom(w.reports, mb.committedNo)| >= m.quorum
  }

  ghost predicate Safe(m: Mode, w: World) {
    && ReportsCounted(w)
    && InDeliveryOrder(w)
    && w.exec.txns == TxnsOf(MbsOf(w.exec.retired))
    && (forall i :: 0 <= i < |w.exec.retired| ==> Justified(m, w, w.exec.retired[i]))
  }

  /** Reports of a later number count for an earlier one, so the quorate numbers are a prefix. */
  lemma {:induction false} QuorateIsPrefix(m: Mode, w: World, no: int, later: int)
    requires ReportsCounted(w) && 1 <= no <= later
    ensures ReportersOf(w.exec.done, later) <= ReportersOf(w.exec.done, no)
    ensures Quorate(m, w.exec.done, later) ==> Quorate(m, w.exec.done, no)
  {
    assert ReportersFrom(w.reports, later) <= ReportersFrom(w.reports, no);
    SubsetSize(ReportersOf(w.exec.done, later), ReportersOf(w.exec.done, no));
  }

  /** Moving the first k entries from the queue to the retired ones keeps a world safe. */
  lemma {:induction false} RetireSafe(m: Mode, w: World, w': World, rs: seq<Retirement>)
    requires Safe(m, w) && |rs| <= |w.exec.queue|
    requires w' == w.(exec := w'.exec) && w'.exec.done == w.exec.done
    requires w'.exec.queue == w.exec.queue[|rs|..] && w'.exec.retired == w.exec.retired + rs
    requires forall i :: 0 <= i < |rs| ==> rs[i].mb == w.exec.queue[i] && Justified(m, w, rs[i])
    requires w'.exec.txns == w.exec.txns + TxnsOf(w.exec.queue[..|rs|])
    ensures Safe(m, w')
  {
    assert MbsOf(w'.exec.retired) == MbsOf(w.exec.retired) + w.exec.queue[..|rs|];
    TxnsAdd(MbsOf(w.exec.retired), w.exec.queue[..|rs|]);
    forall i | 0 <= i < |w.delivered|
      ensures Entry(w', i) == Entry(w, i)
    {
    }
  }

  lemma {:induction false} RunReadySafe(m: Mode, w: World)
    requires Safe(m, w)
    ensures Safe(m, w.(exec := RunReady(m, w.exec)))
  {
    var k := ReadyPrefix(m, w.exec.queue);
    RetireSafe(m, w, w.(exec := RunReady(m, w.exec)), AllExecuted(w.exec.queue[..k]));
  }

  lemma {:induction false} RetireReportedSafe(m: Mode, w: World, k: nat)
    requires Safe(m, w) && k <= |w.exec.queue|
    requires k > 0 ==> Quorate(m, w.exec.done, w.exec.queue[k - 1].committedNo)
    ensures Safe(m, w.(exec := RetireReported(w.exec, k)))
  {
    var rs := AllReported(w.exec.queue[..k]);
    forall i | 0 <= i < k
      ensures Justified(m, w, rs[i])
    {
      var n := |w.exec.retired|;
      assert Entry(w, n + i) == w.exec.queue[i] && Entry(w, n + k - 1) == w.exec.queue[k - 1];
      QuorateIsPrefix(m, w, n + i + 1, n + k);
    }
    RetireSafe(m, w, w.(exec := RetireReported(w.exec, k)), rs);
  }

  /** What numbering delivers: the next numbers in turn, and no hash that was delivered before. */
  lemma {:induction false} NumberedInTurn(n: Numbering, mbs: seq<MicroBlock>)
    ensures var (n', deliver) := Number(n, mbs);
            && n'.last == n.last + |deliver|
            && n.seen <= n'.seen
            && (forall i :: 0 <= i < |deliver| ==> deliver[i].committedNo == n.last + i + 1)
            && (forall i :: 0 <= i < |deliver| ==> deliver[i].hash in n'.seen && deliver[i].hash !in n.seen)
            && (forall i, j :: 0 <= i < j < |deliver| ==> deliver[i].hash != deliver[j].hash)
            && n'.seen == n.seen + set i | 0 <= i < |mbs| :: mbs[i].hash
    decreases |mbs|
  {
    if mbs != [] {
      var front := mbs[..|mbs| - 1];
      NumberedInTurn(n, front);
      assert (set i | 0 <= i < |mbs| :: mbs[i].hash) == (set i | 0 <= i < |front| :: front[i].hash) + {mbs[|mbs| - 1].hash};
    }
  }

  lemma {:induction false} QueueSafe(m: Mode, w: World, n: Numbering, deliver: seq<MicroBlock>)
    requires Safe(m, w) && n.last == w.numbering.last + |deliver| && w.numbering.seen <= n.seen
    requires forall i :: 0 <= i < |deliver| ==> deliver[i].committedNo == w.numbering.last + i + 1
    requires forall i :: 0 <= i < |deliver| ==> deliver[i].hash in n.seen && deliver[i].hash !in w.numbering.seen
    requires forall i, j :: 0 <= i < j < |deliver| ==> deliver[i].hash != deliver[j].hash
    ensures Safe(m, World(w.exec.(queue := w.exec.queue + deliver), n, w.delivered + deliver, w.reports))
  {
    var queued := World(w.exec.(queue := w.exec.queue + deliver), n, w.delivered + deliver, w.reports);
    forall i | 0 <= i < |queued.delivered|
      ensures Entry(queued, i) == if i < |w.delivered| then Entry(w, i) else deliver[i - |w.delivered|]
    {
    }
    forall i | 0 <= i < |w.exec.retired|
      ensures Justified(m, queued, w.exec.retired[i])
    {
      assert Justified(m, w, w.exec.retired[i]);
    }
  }

  lemma {:induction false} CommitSafe(m: Mode, w: World, mbs: seq<MicroBlock>)
    requires Safe(m, w)
    ensures Safe(m, Next(m, w, Commit(mbs)))
  {
    var (n, deliver) := Number(w.numbering, mbs);
    NumberedInTurn(w.numbering, mbs);
    QueueSafe(m, w, n, deliver);
    var queued := World(w.exec.(queue := w.exec.queue + deliver), n, w.delivered + deliver, w.reports);
    if m.grouped {
      var k := ThroughQuorate(m, w.exec.done, queued.exec.queue);
      RetireReportedSafe(m, queued, k);
      RunReadySafe(m, queued.(exec := RetireReported(queued.exec, k)));
    } else {
      RunReadySafe(m, queued);
    }
  }

  lemma {:induction false} ReportersGrow(reports: set<(NodeId, int)>, node: NodeId, no: int, i: int)
    ensures ReportersFrom(reports + {(node, no)}, i) == ReportersFrom(reports, i) + if no >= i then {node} else {}
  {
    var grown := reports + {(node, no)};
    assert (node, no) in grown;
    forall r | r in reports
      ensures r in grown
    {
    }
  }

  lemma {:induction false} ResultCounted(m: Mode, w: World, node: NodeId, no: int)
    requires Safe(m, w)
    ensures Safe(m, w.(exec := w.exec.(done := WithReport(w.exec.done, node, no)), reports := w.reports + {(node, no)}))
  {
    var w' := w.(exec := w.exec.(done := WithReport(w.exec.done, node, no)), reports := w.reports + {(node, no)});
    forall i | i >= 1
      ensures ReportersOf(w'.exec.done, i) == ReportersFrom(w'.reports, i)
    {
      ReportersGrow(w.reports, node, no, i);
      WithReportAt(w.exec.done, node, no, i);
    }
    forall i | 0 <= i < |w.exec.retired|
      ensures Justified(m, w', w.exec.retired[i])
    {
      assert Justified(m, w, w.exec.retired[i]);
      var from := w.exec.retired[i].mb.committedNo;
      ReportersGrow(w.reports, node, no, from);
      SubsetSize(ReportersFrom(w.reports, from), ReportersFrom(w'.reports, from));
    }
    forall i | 0 <= i < |w.delivered|
      ensures Entry(w', i) == Entry(w, i)
    {
    }
  }

  lemma {:induction false} ResultSafe(m: Mode, w: World, node: NodeId, no: int)
    requires Safe(m, w)
    ensures Safe(m, Next(m, w, Result(node, no)))
  {
    ResultCounted(m, w, node, no);
    var counted := w.(exec := w.exec.(done := WithReport(w.exec.done, node, no)), reports := w.reports + {(node, no)});
    var high := HighestQuorate(m, counted.exec.done, no);
    if high != 0 {
      var k := ThroughNumber(high, counted.exec.queue);
      RetireReportedSafe(m, counted, k);
      RunReadySafe(m, counted.(exec := RetireReported(counted.exec, k)));
    }
  }

  lemma {:induction false} MissSafe(m: Mode, w: World, mb: MicroBlock)
    requires Safe(m, w) && KeepsNumber(w, Miss(mb))
    ensures Safe(m, Next(m, w, Miss(mb)))
  {
    var w' := w.(exec := w.exec.(queue := Replaced(w.exec.queue, mb)));
    forall i | 0 <= i < |w.delivered|
      ensures Entry(w', i).hash == Entry(w, i).hash && Entry(w', i).committedNo == Entry(w, i).committedNo
    {
    }
    RunReadySafe(m, w');
  }

  lemma {:induction false} RunReadyKeepsEntry(m: Mode, w: World, i: nat)
    requires i < |w.exec.retired| + |w.exec.queue|
    ensures var w' := w.(exec := RunReady(m, w.exec));
            i < |w'.exec.retired| + |w'.exec.queue| && Entry(w', i) == Entry(w, i)
  {
  }

  lemma {:induction false} WrongNumberBreaksOrder(m: Mode, w: World, mb: MicroBlock, i: nat)
    requires InDeliveryOrder(w) && i < |w.exec.queue|
    requires Blocked(w.exec.queue[i], mb) && w.exec.queue[i].committedNo != mb.committedNo
    ensures !InDeliveryOrder(Next(m, w, Miss(mb)))
  {
    var at := |w.exec.retired| + i;
    var replaced := w.(exec := w.exec.(queue := Replaced(w.exec.queue, mb)));
    assert Next(m, w, Miss(mb)) == replaced.(exec := RunReady(m, replaced.exec));
    RunReadyKeepsEntry(m, replaced, at);
    assert Entry(w, at) == w.exec.queue[i] && Entry(replaced, at) == mb;
  }

  /** In a safe world, a microblock that is sent again keeps it safe only with the right number. */
  lemma {:induction false} MissSafeIffNumberKept(m: Mode, w: World, mb: MicroBlock)
    requires Safe(m, w)
    ensures Safe(m, Next(m, w, Miss(mb))) <==> KeepsNumber(w, Miss(mb))
  {
    if KeepsNumber(w, Miss(mb)) {
      MissSafe(m, w, mb);
    } else {
      var i :| 0 <= i < |w.exec.queue| && Blocked(w.exec.queue[i], mb) && w.exec.queue[i].committedNo != mb.committedNo;
      WrongNumberBreaksOrder(m, w, mb, i);
    }
  }

  /** Over every run from the start, in grouped and in plain mode. */
  lemma {:induction false} RunSafe(m: Mode, es: seq<Event>)
    requires AllKeepNumbers(m, START, es)
    ensures Safe(m, Run(m, START, es))
    decreases |es|
  {
    if es == [] {
      assert forall no :: ReportersFrom({}, no) == {};
    } else {
      var front, e := es[..|es| - 1], es[|es| - 1];
      RunSafe(m, front);
      var w := Run(m, START, front);
      match e {
        case Commit(mbs) => CommitSafe(m, w, mbs);
        case Result(node, no) => ResultSafe(m, w, node, no);
        case Miss(mb) => MissSafe(m, w, mb);
      }
    }
  }

  /**
   Without that hypothesis an entry can leave the queue on no report of it: the second entry is
   replaced by one that carries the number 1, and a single report of number 1 then retires both.
   */
  lemma {:induction false} WrongNumberRetiresUnreported()
    ensures var m := Mode(true, {}, 1);
            var es := [Commit([MicroBlock(10, 0, 0, 0, false, 0, 0), MicroBlock(20, 0, 0, 0, true, 0, 0)]),
                       Miss(MicroBlock(20, 0, 0, 0, false, 0, 1)), Result(5, 1)];
            var w := Run(m, START, es);
            && |w.delivered| == 2 && w.delivered[1].committedNo == 2
            && w.exec.queue == [] && |w.exec.retired| == 2 && w.exec.retired[1].Reported?
            && ReportersFrom(w.reports, 2) == {}
  {
    var m := Mode(true, {}, 1);
    var a, b := MicroBlock(10, 0, 0, 0, false, 0, 0), MicroBlock(20, 0, 0, 0, true, 0, 0);
    var a1, b2, b1 := a.(committedNo := 1), b.(committedNo := 2), MicroBlock(20, 0, 0, 0, false, 0, 1);
    var w1 := World(State([a1, b2], map[], 0, []), Numbering({10, 20}, 2), [a1, b2], {});
    var w2 := w1.(exec := State([a1, b1], map[], 0, []));
    hide Next, Run, ReportersFrom;
    TwoAreQueued(m, a, b);
    SecondIsReplaced(m, w1, a1, b2, b1);
    OneReportRetiresBoth(m, w2, a1, b1);
    RunOfThree(m, Commit([a, b]), Miss(b1), Result(5, 1));
  }

  lemma {:induction false} TwoAreQueued(m: Mode, a: MicroBlock, b: MicroBlock)
    requires m.grouped && m.myGroups == {} && m.quorum == 1 && a.hash != b.hash
    ensures var (a1, b2) := (a.(committedNo := 1), b.(committedNo := 2));
            Next(m, START, Commit([a, b]))
            == World(State([a1, b2], map[], 0, []), Numbering({a.hash, b.hash}, 2), [a1, b2], {})
  {
    TwoNumbered(a, b);
    hide Number;
    var queue := [a.(committedNo := 1), b.(committedNo := 2)];
    assert ThroughQuorate(m, map[], queue) == 0 && ReadyPrefix(m, queue) == 0;
  }

  lemma {:induction false} SecondIsReplaced(m: Mode, w: World, a: MicroBlock, b: MicroBlock, again: MicroBlock)
    requires m.grouped && m.myGroups == {} && w.exec == State([a, b], map[], 0, [])
    requires a.hash != b.hash && Blocked(b, again)
    ensures Next(m, w, Miss(again)) == w.(exec := State([a, again], map[], 0, []))
  {
    assert Blocked(w.exec.queue[1], again);
    assert Replaced([a, b], again) == [a, again];
    assert ReadyPrefix(m, [a, again]) == 0;
  }

  lemma {:induction false} OneReportRetiresBoth(m: Mode, w: World, a: MicroBlock, b: MicroBlock)
    requires m.quorum == 1 && a.committedNo == b.committedNo == 1
    requires w.exec == State([a, b], map[], 0, []) && w.reports == {}
    ensures var w' := Next(m, w, Result(5, 1));
            && w'.delivered == w.delivered && w'.exec.queue == [] && w'.exec.retired == [Reported(a), Reported(b)]
            && ReportersFrom(w'.reports, 2) == {}
  {
    var counted := w.exec.(done := WithReport(map[], 5, 1));
    WithReportAt(map[], 5, 1, 1);
    assert ReportersOf(counted.done, 1) == {5};
    assert HighestQuorate(m, counted.done, 1) == 1;
    assert ThroughNumber(1, [a, b]) == 2;
    var left := RetireReported(counted, 2);
    assert left.queue == [] && left.retired == [Reported(a), Reported(b)];
    assert ReadyPrefix(m, left.queue) == 0;
    assert w.reports + {(5, 1)} == {(5, 1)};
  }

  lemma {:induction false} TwoNumbered(a: MicroBlock, b: MicroBlock)
    requires a.hash != b.hash
    ensures Number(Numbering({}, 0), [a, b]) ==
            (Numbering({a.hash, b.hash}, 2), [a.(committedNo := 1), b.(committedNo := 2)])
  {
    var n := Numbering({}, 0);
    var a1, b2 := a.(committedNo := 1), b.(committedNo := 2);
    NumberAppend(n, [], a);
    assert [] + [a] == [a] && n.seen + {a.hash} == {a.hash} && [] + [a1] == [a1];
    assert Number(n, [a]) == (Numbering({a.hash}, 1), [a1]);
    NumberAppend(n, [a], b);
    assert [a] + [b] == [a, b] && {a.hash} + {b.hash} == {a.hash, b.hash} && [a1] + [b2] == [a1, b2];
  }

  lemma {:induction false} NumberAppend(n: Numbering, mbs: seq<MicroBlock>, mb: MicroBlock)
    ensures Number(n, mbs + [mb]) ==
            var (n', deliver) := Number(n, mbs);
            if mb.hash in n'.seen then (n', deliver)
            else (Numbering(n'.seen + {mb.hash}, n'.last + 1), deliver + [mb.(committedNo := n'.last + 1)])
  {
    assert (mbs + [mb])[..|mbs|] == mbs;
  }

  lemma {:induction false} RunOfThree(m: Mode, e1: Event, e2: Event, e3: Event)
    ensures Run(m, START, [e1, e2, e3]) == Next(m, Next(m, Next(m, START, e1), e2), e3)
  {
    assert [e1, e2, e3][..2] == [e1, e2] && [e1, e2][..1] == [e1] && [e1][..0] == [];
    assert Run(m, START, [e1]) == Next(m, START, e1);
    assert Run(m, START, [e1, e2]) == Next(m, Next(m, START, e1), e2);
  }

  // ----- Progress

  /** A quorate entry stays queued only while a quorum is ahead of all that was delivered. */
  ghost predicate NoneStalled(m: Mode, done: Reports, last: int, queue: seq<MicroBlock>) {
    forall i :: 0 <= i < |queue| && Quorate(m, done, queue[i].committedNo) ==> Quorate(m, done, last + 1)
  }

  ghost predicate NotStalled(m: Mode, w: World) {
    m.grouped ==> NoneStalled(m, w.exec.done, w.numbering.last, w.exec.queue)
  }

  lemma {:induction false} SuffixNotStalled(m: Mode, done: Reports, last: int, queue: seq<MicroBlock>, k: nat)
    requires k <= |queue|
    requires forall i :: k <= i < |queue| && Quorate(m, done, queue[i].committedNo) ==> Quorate(m, done, last + 1)
    ensures NoneStalled(m, done, last, queue[k..])
  {
    assert forall i :: 0 <= i < |queue[k..]| ==> queue[k..][i] == queue[i + k];
  }

  lemma {:induction false} RunReadyNotStalled(m: Mode, w: World)
    requires NotStalled(m, w)
    ensures NotStalled(m, w.(exec := RunReady(m, w.exec)))
  {
    if m.grouped {
      SuffixNotStalled(m, w.exec.done, w.numbering.last, w.exec.queue, ReadyPrefix(m, w.exec.queue));
    }
  }

  lemma {:induction false} CommitNotStalled(m: Mode, w: World, mbs: seq<MicroBlock>)
    ensures NotStalled(m, Next(m, w, Commit(mbs)))
  {
    if m.grouped {
      var (n, deliver) := Number(w.numbering, mbs);
      var queued := w.exec.(queue := w.exec.queue + deliver);
      var k := ThroughQuorate(m, w.exec.done, queued.queue);
      RunReadyNotStalled(m, World(RetireReported(queued, k), n, w.delivered + deliver, w.reports));
    }
  }

  lemma {:induction false} MissNotStalled(m: Mode, w: World, mb: MicroBlock)
    requires NotStalled(m, w) && KeepsNumber(w, Miss(mb))
    ensures NotStalled(m, Next(m, w, Miss(mb)))
  {
    var replaced := w.(exec := w.exec.(queue := Replaced(w.exec.queue, mb)));
    forall i | 0 <= i < |w.exec.queue|
      ensures replaced.exec.queue[i].committedNo == w.exec.queue[i].committedNo
    {
    }
    RunReadyNotStalled(m, replaced);
  }

  lemma {:induction false} QueueNumber(w: World, i: nat)
    requires InDeliveryOrder(w) && i < |w.exec.queue|
    ensures w.exec.queue[i].committedNo == |w.exec.retired| + i + 1 <= w.numbering.last
  {
    assert Entry(w, |w.exec.retired| + i) == w.exec.queue[i];
  }

  /** A quorate entry that a result covers is retired by it, unless a quorum is ahead of all that was delivered. */
  lemma {:induction false} CoveredIsRetired(m: Mode, w: World, no: int, i: nat)
    requires ReportsCounted(w) && InDeliveryOrder(w)
    requires i < |w.exec.queue| && w.exec.queue[i].committedNo <= no
    requires Quorate(m, w.exec.done, w.exec.queue[i].committedNo)
    requires !Quorate(m, w.exec.done, w.numbering.last + 1)
    ensures var high := HighestQuorate(m, w.exec.done, no); high != 0 && i < ThroughNumber(high, w.exec.queue)
  {
    var high := HighestQuorate(m, w.exec.done, no);
    QueueNumber(w, i);
    assert high <= w.numbering.last by {
      if high > w.numbering.last {
        QuorateIsPrefix(m, w, w.numbering.last + 1, high);
      }
    }
    QueueNumber(w, high - |w.exec.retired| - 1);
  }

  /** A number that a result makes quorate is covered by the result; no number stops being quorate. */
  lemma {:induction false} CountedQuorate(m: Mode, done: Reports, node: NodeId, no: int, n: int)
    requires n >= 1
    ensures Quorate(m, done, n) ==> Quorate(m, WithReport(done, node, no), n)
    ensures Quorate(m, WithReport(done, node, no), n) ==> n <= no || Quorate(m, done, n)
  {
    hide WithReport;
    WithReportAt(done, node, no, n);
    SubsetSize(ReportersOf(done, n), ReportersOf(WithReport(done, node, no), n));
  }

  /** After a result is counted, an entry that is left is not stalled. */
  lemma {:induction false} LeftNotStalled(m: Mode, w: World, counted: World, node: NodeId, no: int, i: nat)
    requires NotStalled(m, w) && m.grouped
    requires ReportsCounted(counted) && InDeliveryOrder(counted)
    requires counted.numbering == w.numbering && counted.exec.queue == w.exec.queue
    requires counted.exec.done == WithReport(w.exec.done, node, no)
    requires i < |w.exec.queue| && Quorate(m, counted.exec.done, w.exec.queue[i].committedNo)
    ensures var high := HighestQuorate(m, counted.exec.done, no);
            || Quorate(m, counted.exec.done, w.numbering.last + 1)
            || (high != 0 && i < ThroughNumber(high, w.exec.queue))
  {
    hide WithReport, HighestQuorate, ThroughNumber, ReportsCounted, InDeliveryOrder, Quorate;
    QueueNumber(counted, i);
    CountedQuorate(m, w.exec.done, node, no, w.numbering.last + 1);
    CountedQuorate(m, w.exec.done, node, no, w.exec.queue[i].committedNo);
    if !Quorate(m, counted.exec.done, w.numbering.last + 1) {
      CoveredIsRetired(m, counted, no, i);
    }
  }

  /** What handling a result makes of the world: it is counted, and then entries may retire. */
  lemma {:induction false} ResultSteps(m: Mode, w: World, node: NodeId, no: int)
    ensures var counted := w.(exec := w.exec.(done := WithReport(w.exec.done, node, no)), reports := w.reports + {(node, no)});
            var high := HighestQuorate(m, counted.exec.done, no);
            var left := counted.(exec := RetireReported(counted.exec, ThroughNumber(high, w.exec.queue)));
            Next(m, w, Result(node, no)) == if high == 0 then counted else left.(exec := RunReady(m, left.exec))
  {
    hide WithReport, HighestQuorate, ThroughNumber, RunReady, RetireReported;
  }

  lemma {:induction false} CountedNotStalled(m: Mode, w: World, counted: World, node: NodeId, no: int)
    requires NotStalled(m, w)
    requires counted == w.(exec := w.exec.(done := WithReport(w.exec.done, node, no)), reports := w.reports + {(node, no)})
    requires ReportsCounted(counted) && InDeliveryOrder(counted)
    ensures NotStalled(m, Next(m, w, Result(node, no)))
  {
    hide WithReport, HighestQuorate, ThroughNumber, RunReady, Next, ReportsCounted, InDeliveryOrder, Quorate;
    ResultSteps(m, w, node, no);
    var high := HighestQuorate(m, counted.exec.done, no);
    var k := if high == 0 then 0 else ThroughNumber(high, w.exec.queue);
    if m.grouped {
      forall i | k <= i < |w.exec.queue| && Quorate(m, counted.exec.done, w.exec.queue[i].committedNo)
        ensures Quorate(m, counted.exec.done, w.numbering.last + 1)
      {
        LeftNotStalled(m, w, counted, node, no, i);
      }
      if high != 0 {
        SuffixNotStalled(m, counted.exec.done, w.numbering.last, w.exec.queue, k);
        RunReadyNotStalled(m, counted.(exec := RetireReported(counted.exec, k)));
      }
    }
  }

  lemma {:induction false} ResultNotStalled(m: Mode, w: World, node: NodeId, no: int)
    requires Safe(m, w) && NotStalled(m, w)
    ensures NotStalled(m, Next(m, w, Result(node, no)))
  {
    ResultCounted(m, w, node, no);
    CountedNotStalled(m, w, w.(exec := w.exec.(done := WithReport(w.exec.done, node, no)),
                               reports := w.reports + {(node, no)}), node, no);
  }

  lemma {:induction false} RunNotStalled(m: Mode, es: seq<Event>)
    requires AllKeepNumbers(m, START, es)
    ensures NotStalled(m, Run(m, START, es))
    decreases |es|
  {
    if es != [] {
      var front, e := es[..|es| - 1], es[|es| - 1];
      RunSafe(m, front);
      RunNotStalled(m, front);
      var w := Run(m, START, front);
      match e {
        case Commit(mbs) => CommitNotStalled(m, w, mbs);
        case Result(node, no) => ResultNotStalled(m, w, node, no);
        case Miss(mb) => MissNotStalled(m, w, mb);
      }
    }
  }

  // ----- The executor that is updated in place

  lemma {:induction false} ReadyPrefixIs(m: Mode, queue: seq<MicroBlock>, k: nat)
    requires k <= |queue| && (forall i :: 0 <= i < k ==> m.Executable(queue[i]))
    requires k < |queue| ==> !m.Executable(queue[k])
    ensures k == ReadyPrefix(m, queue)
  {
    var r := ReadyPrefix(m, queue);
    assert !(r < k) && !(k < r);
  }

  lemma {:induction false} OneMore(queue: seq<MicroBlock>, i: nat)
    requires i < |queue|
    ensures TxnsOf(queue[..i + 1]) == TxnsOf(queue[..i]) + queue[i].txns
    ensures AllExecuted(queue[..i + 1]) == AllExecuted(queue[..i]) + [Executed(queue[i])]
    ensures AllReported(queue[..i + 1]) == AllReported(queue[..i]) + [Reported(queue[i])]
  {
    assert queue[..i + 1][..i] == queue[..i];
  }

  class Executor {
    const mode: Mode
    var mbs: seq<MicroBlock>
    var done: Reports
    var executedTxs: nat
    ghost var retired: seq<Retirement>

    constructor (mode: Mode)
      ensures this.mode == mode && Now() == START.exec
    {
      this.mode := mode;
      mbs, done, executedTxs, retired := [], map[], 0, [];
    }

    ghost function Now(): State
      reads this
    {
      State(mbs, done, executedTxs, retired)
    }

    /** Executes entries from the head of the queue until one is not executable here. */
    method ExecuteThread()
      modifies this
      ensures Now() == RunReady(mode, old(Now()))
    {
      var queue := mbs;
      var successNum := 0;
      while successNum < |queue|
        invariant 0 <= successNum <= |queue|
        invariant mbs == if mode.grouped then queue else queue[successNum..]
        invariant done == old(done)
        invariant forall i :: 0 <= i < successNum ==> mode.Executable(queue[i])
        invariant executedTxs == old(executedTxs) + TxnsOf(queue[..successNum])
        invariant retired == old(retired) + AllExecuted(queue[..successNum])
      {
        var mb := queue[successNum];
        if mb.fake || (mode.grouped && mb.group !in mode.myGroups) {
          break;
        }
        OneMore(queue, successNum);
        executedTxs := executedTxs + mb.txns;
        retired := retired + [Executed(mb)];
        successNum := successNum + 1;
        if !mode.grouped {
          mbs := mbs[1..];
        }
      }
      ReadyPrefixIs(mode, queue, successNum);
      mbs := queue[successNum..];
    }

    /** Drops the first k entries; others executed them. */
    method DropReported(k: nat)
      requires k <= |mbs|
      modifies this
      ensures Now() == RetireReported(old(Now()), k)
    {
      ghost var queue := mbs;
      for i := 0 to k
        invariant mbs == queue[i..] && done == old(done)
        invariant executedTxs == old(executedTxs) + TxnsOf(queue[..i])
        invariant retired == old(retired) + AllReported(queue[..i])
      {
        OneMore(queue, i);
        executedTxs := executedTxs + mbs[0].txns;
        retired := retired + [Reported(mbs[0])];
        mbs := mbs[1..];
      }
    }

    method AddMbToExecute(mb: seq<MicroBlock>)
      modifies this
      ensures Now() == AfterDelivery(mode, old(Now()), mb)
    {
      mbs := mbs + mb;
      if mode.grouped {
        var doneIndex := -1;
        for index := 0 to |mbs|
          invariant -1 <= doneIndex < index
          invariant doneIndex + 1 == ThroughQuorate(mode, done, mbs[..index])
        {
          assert mbs[..index + 1][..index] == mbs[..index];
          if Quorate(mode, done, mbs[index].committedNo) {
            doneIndex := index;
          }
        }
        assert mbs[..|mbs|] == mbs;
        DropReported(doneIndex + 1);
      }
      ExecuteThread();
    }

    method MbReady(commitNo: int)
      modifies this
      ensures Now() == RunReady(mode, RetireReported(old(Now()), ThroughNumber(commitNo, old(mbs))))
    {
      var endIndex := -1;
      for index := 0 to |mbs|
        invariant -1 <= endIndex < index
        invariant endIndex + 1 == ThroughNumber(commitNo, mbs[..index])
      {
        assert mbs[..index + 1][..index] == mbs[..index];
        if mbs[index].committedNo == commitNo {
          endIndex := index;
        }
      }
      assert mbs[..|mbs|] == mbs;
      DropReported(endIndex + 1);
      ExecuteThread();
    }

    method HandleResult(node: NodeId, no: int)
      modifies this
      ensures Now() == AfterResult(mode, old(Now()), node, no)
    {
      var highDoneIndex := 0;
      var i := 1;
      while i <= no
        invariant i <= no + 1 || i == 1
        invariant done == WithReport(old(done), node, i - 1)
        invariant mbs == old(mbs) && executedTxs == old(executedTxs) && retired == old(retired)
        invariant highDoneIndex == HighestQuorate(mode, done, i - 1)
      {
        ReportStep(mode, old(done), node, i);
        done := done[i := ReportersOf(done, i) + {node}];
        if |done[i]| >= mode.quorum {
          highDoneIndex := i;
        }
        i := i + 1;
      }
      if highDoneIndex != 0 {
        MbReady(highDoneIndex);
      }
    }

    method HandleMiss(mb: MicroBlock)
      modifies this
      ensures Now() == AfterMiss(mode, old(Now()), mb)
    {
      var found := false;
      for i := 0 to |mbs|
        invariant |mbs| == |old(mbs)| && done == old(done) && executedTxs == old(executedTxs) && retired == old(retired)
        invariant forall j :: 0 <= j < |mbs| ==> mbs[j] == if j < i then Replaced(old(mbs), mb)[j] else old(mbs)[j]
        invariant found <==> exists j :: 0 <= j < i && Blocked(old(mbs)[j], mb)
      {
        if mbs[i].hash == mb.hash && mbs[i].fake {
          mbs := mbs[i := mb];
          found := true;
        }
      }
      assert mbs == Replaced(old(mbs), mb);
      if found {
        ExecuteThread();
      }
    }
  }

  lemma {:induction false} SameReports(m: Mode, a: Reports, b: Reports, no: int)
    requires forall i :: 1 <= i <= no ==> ReportersOf(a, i) == ReportersOf(b, i)
    ensures HighestQuorate(m, a, no) == HighestQuorate(m, b, no)
    decreases if no < 0 then 0 else no
  {
    if no >= 1 {
      assert ReportersOf(a, no) == ReportersOf(b, no);
      SameReports(m, a, b, no - 1);
    }
  }

  /** What one turn of the counting loop makes of the reports and of the greatest quorate number. */
  lemma {:induction false} ReportStep(m: Mode, start: Reports, node: NodeId, i: nat)
    requires i >= 1
    ensures var before, after := WithReport(start, node, i - 1), WithReport(start, node, i);
            && after == before[i := ReportersOf(before, i) + {node}]
            && HighestQuorate(m, after, i) == if Quorate(m, after, i) then i else HighestQuorate(m, before, i - 1)
  {
    var before, after := WithReport(start, node, i - 1), WithReport(start, node, i);
    WithReportAt(start, node, i - 1, i);
    assert ReportersOf(before, i) == ReportersOf(start, i);
    SameReports(m, before, after, i - 1);
  }

  /** The part of the replica that numbers committed microblocks. */
  class Deliverer {
    var committedMb: set<Hash>
    var commitMbNo: nat

    constructor ()
      ensures Now() == START.numbering
    {
      committedMb, commitMbNo := {}, 0;
    }

    ghost function Now(): Numbering
      reads this
    {
      Numbering(committedMb, commitMbNo)
    }

    method ProcessCommittedBlock(mbs: seq<MicroBlock>) returns (deliver: seq<MicroBlock>)
      modifies this
      ensures (Now(), deliver) == Number(old(Now()), mbs)
    {
      deliver := [];
      for i := 0 to |mbs|
        invariant (Now(), deliver) == Number(old(Now()), mbs[..i])
      {
        assert mbs[..i + 1][..i] == mbs[..i];
        var mb := mbs[i];
        if mb.hash !in committedMb {
          committedMb := committedMb + {mb.hash};
          commitMbNo := commitMbNo + 1;
          deliver := deliver + [mb.(committedNo := commitMbNo)];
        }
      }
      assert mbs[..|mbs|] == mbs;
    }
  }
}
