/**
 When timeouts end a view (pacemaker/timeoutController.go, hotstuff/hotstuff.go): exactly with the message
 that takes the senders for the view above two thirds, and the view after it is entered then.
 */
module ReplicaTimeouts {
  import opened Prelude
  import opened Chain
  import opened Replicas
  import opened ReplicaSafety

  /** The timeout message that an event brings, and the state in which the certificate in it was followed. */
  ghost function Message(env: Env, r: Replica, e: Event): Timeout
    requires e.TmoArrives? || e.TimerFires?
  {
    if e.TmoArrives? then e.tmo else Timeout(e.view + 1, env.me, AdvanceView(r, e.view).highQC)
  }

  ghost function Followed(env: Env, r: Replica, e: Event): Replica
    requires e.TmoArrives? || e.TimerFires?
  {
    if e.TmoArrives? then ProcessCertificate(env, r, e.tmo.highQC)
    else ProcessCertificate(env, AdvanceView(r, e.view), AdvanceView(r, e.view).highQC)
  }

  /** An event brings a timeout for a view that is not over yet. */
  ghost predicate Counts(env: Env, r: Replica, e: Event, v: View) {
    (e.TmoArrives? || e.TimerFires?) && Message(env, r, e).view == v && Followed(env, r, e).curView <= v
  }

  /** Who sent timeouts for a view before it was over. */
  ghost function Senders(env: Env, es: seq<Event>, v: View): set<NodeId> {
    if es == [] then {}
    else
      var r, e := Run(env, es[..|es| - 1]), es[|es| - 1];
      Senders(env, es[..|es| - 1], v) + if Counts(env, r, e, v) then {Message(env, r, e).node} else {}
  }

  ghost predicate Majority(env: Env, nodes: set<NodeId>) {
    |nodes| > env.n * 2 / 3
  }

  ghost function RecordedFor(r: Replica, v: View): set<NodeId> {
    if v in r.timeouts then r.timeouts[v] else {}
  }

  // ----- What one event does

  lemma {:induction false} ProcessingKeepsTimeouts(env: Env, r: Replica, b: Block)
    requires Aligned(r.bufferedBlocks)
    ensures ProcessBlock(env, r, b).timeouts == r.timeouts
    decreases KeysFrom(r.bufferedBlocks, b.view)
  {
    hide HandleBlock;
    HandlingKeepsBuffer(env, r, b);
    var (h, verdict) := HandleBlock(env, r, b);
    if verdict == Accepted && b.view in h.bufferedBlocks {
      BufferedBlocksDescend(env, r, b);
      ProcessingKeepsTimeouts(env, h, h.bufferedBlocks[b.view]);
    }
  }

  /** A message is recorded, unless a majority was; the one that completes a majority ends the view. */
  lemma {:induction false} CountingEndsView(env: Env, r: Replica, t: Timeout)
    ensures var c := CountTmo(env, r, t);
            var nodes := RecordedFor(r, t.view);
            && (forall v :: RecordedFor(c, v) ==
                  RecordedFor(r, v) + if t.view == v && r.curView <= v && !Majority(env, nodes) then {t.node} else {})
            && c.curView ==
               if r.curView <= t.view && !Majority(env, nodes) && Majority(env, nodes + {t.node}) then t.view + 1 else r.curView
  {
    hide AddTimeout, Majority;
    TimeoutAdded(env, r, t);
  }

  lemma {:induction false} TimeoutAdded(env: Env, r: Replica, t: Timeout)
    ensures var ((timeouts, built), nodes) := (AddTimeout(env.n, r.timeouts, t), RecordedFor(r, t.view));
            && (forall v :: RecordedFor(r.(timeouts := timeouts), v) ==
                  RecordedFor(r, v) + if t.view == v && !Majority(env, nodes) then {t.node} else {})
            && (built <==> !Majority(env, nodes) && Majority(env, nodes + {t.node}))
  {
  }

  lemma {:induction false} MessageCounted(env: Env, r: Replica, e: Event)
    requires Aligned(r.bufferedBlocks) && (e.TmoArrives? || e.TimerFires?)
    ensures Next(env, r, e) == CountTmo(env, Followed(env, r, e), Message(env, r, e))
    ensures Followed(env, r, e).timeouts == r.timeouts && r.curView <= Followed(env, r, e).curView
  {
    hide ProcessCertificate, CountTmo;
    if e.TmoArrives? {
      CertificateKeepsBuffer(env, r, e.tmo.highQC);
      CertificateGrows(env, r, e.tmo.highQC);
    } else {
      var a := AdvanceView(r, e.view);
      CertificateKeepsBuffer(env, a, a.highQC);
      CertificateGrows(env, a, a.highQC);
    }
  }

  lemma {:induction false} OthersKeepTimeouts(env: Env, r: Replica, e: Event)
    requires Aligned(r.bufferedBlocks) && (e.BlockArrives? || e.VoteArrives?)
    ensures Next(env, r, e).timeouts == r.timeouts
  {
    hide ProcessBlock, ProcessVote;
    match e
    case BlockArrives(b) => ProcessingKeepsTimeouts(env, r, b);
    case VoteArrives(v) => CountingKeepsBuffer(env, r, v);
  }

  // ----- Over whole runs

  /** Over every run, what is recorded for a view is who sent timeouts for it, and a majority has ended the view. */
  lemma {:induction false} RunRecords(env: Env, es: seq<Event>, v: View)
    ensures RecordedFor(Run(env, es), v) == Senders(env, es, v)
    ensures Majority(env, Senders(env, es, v)) ==> Run(env, es).curView > v
    decreases |es|
  {
    if es != [] {
      hide Next, Followed, Message;
      var before, e := es[..|es| - 1], es[|es| - 1];
      var r := Run(env, before);
      RunRecords(env, before, v);
      NextGrows(env, r, e);
      if e.TmoArrives? || e.TimerFires? {
        hide CountTmo;
        MessageCounted(env, r, e);
        CountingEndsView(env, Followed(env, r, e), Message(env, r, e));
      } else {
        OthersKeepTimeouts(env, r, e);
      }
    }
  }

  /**
   Over every run, a timeout for a view that is not over ends it if, and only if, it takes the distinct
   senders for the view above two thirds; then the replica enters the view after.
   */
  lemma {:induction false} ViewEndsAtMajority(env: Env, es: seq<Event>, e: Event, v: View)
    requires Counts(env, Run(env, es), e, v)
    ensures Senders(env, es + [e], v) == Senders(env, es, v) + {Message(env, Run(env, es), e).node}
    ensures !Majority(env, Senders(env, es, v))
    ensures Run(env, es + [e]).curView ==
            if Majority(env, Senders(env, es + [e], v)) then v + 1 else Followed(env, Run(env, es), e).curView
  {
    var r := Run(env, es);
    assert (es + [e])[..|es|] == es;
    RunRecords(env, es, v);
    RunStep(env, es, e);
    hide Next, Followed, Message, Run, CountTmo;
    MessageCounted(env, r, e);
    CountingEndsView(env, Followed(env, r, e), Message(env, r, e));
  }

  /** The timer of the current view counts as a timeout of the replica itself for the next one. */
  lemma {:induction false} OwnTimerCounts(env: Env, r: Replica, view: View)
    requires view >= r.curView
    ensures AdvanceView(r, view).curView == view + 1
    ensures r.highQC.view <= view ==>
              Counts(env, r, TimerFires(view), view + 1) && Message(env, r, TimerFires(view)).node == env.me
  {
    hide CommitBy;
  }
}
