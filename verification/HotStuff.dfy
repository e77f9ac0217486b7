/**
 One replica of the chained HotStuff protocol (hotstuff/hotstuff.go, pacemaker/pacemaker.go): the
 handlers for blocks, votes and timeouts as steps of a state machine. Every handler is atomic. What
 a replica knows of others is a parameter: who leads a view, and which single signatures check.
 */
module Replicas {
  import opened Prelude
  import opened Chain
  import opened Quorums

  /** `checks` says whether a signature on an identifier is that of a signer; `sign` is how the replica signs. */
  datatype Env = Env(me: NodeId, n: nat, leaderFor: View -> NodeId, isLeader: (NodeId, View) -> bool,
                     checks: (NodeId, Id, nat) -> bool, sign: Id -> nat)

  datatype Timeout = Timeout(view: View, node: NodeId, highQC: QC)

  /** What a replica lets others see: a vote or a commit, with what it rested on. */
  datatype Output =
    | Voted(block: Block, preferred: View, full: Blocks)
    | Committed(block: Block, path: seq<Block>, qc: QC, full: Blocks)

  datatype Replica = Replica(
    curView: View,
    lastVotedView: View,
    preferredView: View,
    highQC: QC,
    forest: Forest,
    votes: Votes,
    bufferedQCs: map<Id, QC>,
    bufferedBlocks: map<View, Block>,
    timeouts: map<View, set<NodeId>>,
    log: seq<Output>)

  const NEW_REPLICA := Replica(0, 0, 0, QC(0, 0, 0, {}), NO_FOREST, map[], map[], map[], map[], [])

  // ----- Signatures

  /** Every signature in a certificate checks. How many there are is not asked, nor which view it states. */
  predicate Verified(env: Env, qc: QC) {
    forall s :: s in qc.sigs ==> env.checks(s.signer, qc.blockId, s.sig)
  }

  /** A certificate passes if it names this replica as its builder, or is verified. */
  predicate Passes(env: Env, qc: QC) {
    qc.leader == env.me || Verified(env, qc)
  }

  predicate Signed(env: Env, vote: Vote) {
    env.checks(vote.voter, vote.blockId, vote.sig)
  }

  function OwnVote(env: Env, b: Block): Vote {
    Vote(b.view, env.me, b.id, env.sign(b.id))
  }

  // ----- Rules

  /** Whether to vote for a block, or None if that cannot be decided. */
  function VotingRule(full: Blocks, lastVoted: View, preferred: View, b: Block): Option<bool> {
    if b.view <= 2 then Some(true)
    else
      match ParentOf(full, b.id)
      case None => None
      case Some(parent) => Some(b.view > lastVoted && parent.view >= preferred)
  }

  /** The block that a certificate commits: the tail of three blocks in consecutive views. */
  function CommitRule(full: Blocks, qc: QC): Option<Block> {
    match ParentOf(full, qc.blockId)
    case None => None
    case Some(parent) =>
      match ParentOf(full, parent.id)
      case None => None
      case Some(grandParent) =>
        if grandParent.view + 1 == parent.view && parent.view + 1 == qc.view then Some(grandParent) else None
  }

  /** The preferred view after a certificate, or None if it cannot be determined. */
  function UpdatePreferred(full: Blocks, preferred: View, qc: QC): Option<View> {
    if qc.view <= 2 then Some(preferred)
    else
      match ParentOf(full, qc.blockId)
      case None => None
      case Some(parent) => Some(if parent.view > preferred then parent.view else preferred)
  }

  // ----- Certificates

  function WithHighQC(r: Replica, qc: QC): Replica {
    if qc.view > r.highQC.view then r.(highQC := qc) else r
  }

  function AdvanceView(r: Replica, view: View): Replica {
    if view < r.curView then r else r.(curView := view + 1)
  }

  function BufferQC(r: Replica, qc: QC): Replica {
    r.(bufferedQCs := r.bufferedQCs[qc.blockId := qc])
  }

  function Commit(r: Replica, qc: QC, b: Block): Replica {
    if b.view < r.forest.lowest then r
    else
      var path := CommitPath(r.forest.full, r.forest.lowest, b);
      r.(forest := Pruned(r.forest, b.view),
         votes := r.votes - IdsOf(path),
         log := r.log + [Committed(b, path, qc, r.forest.full)])
  }

  function CommitBy(r: Replica, qc: QC): Replica {
    match CommitRule(r.forest.full, qc)
    case None => r
    case Some(b) => Commit(r, qc, b)
  }

  function Locked(r: Replica, qc: QC, preferred: View): Replica {
    WithHighQC(AdvanceView(r.(preferredView := preferred), qc.view), qc)
  }

  function ProcessCertificate(env: Env, r: Replica, qc: QC): Replica {
    if qc.view < r.curView || !Passes(env, qc) then r
    else
      match UpdatePreferred(r.forest.full, r.preferredView, qc)
      case None => BufferQC(r, qc)
      case Some(preferred) =>
        if qc.view < 3 then Locked(r, qc, preferred) else CommitBy(Locked(r, qc, preferred), qc)
  }

  // ----- Votes

  function Counted(env: Env, r: Replica, vote: Vote): Replica {
    var (votes, built) := AddVote(env.n, r.votes, vote);
    var counted := r.(votes := votes);
    if built.None? then counted
    else
      var qc := built.value.(leader := env.me);
      if qc.blockId in r.forest.full then ProcessCertificate(env, counted, qc) else BufferQC(counted, qc)
  }

  function ProcessVote(env: Env, r: Replica, vote: Vote): Replica {
    if vote.voter != env.me && !Signed(env, vote) then r else Counted(env, r, vote)
  }

  // ----- Timeouts

  /** Counts a timeout; the one that completes a super majority lets the view end. */
  function AddTimeout(n: nat, timeouts: map<View, set<NodeId>>, t: Timeout): (map<View, set<NodeId>>, bool) {
    var nodes: set<NodeId> := if t.view in timeouts then timeouts[t.view] else {};
    if |nodes| > n * 2 / 3 then (timeouts, false)
    else (timeouts[t.view := nodes + {t.node}], |nodes + {t.node}| > n * 2 / 3)
  }

  function CountTmo(env: Env, r: Replica, t: Timeout): Replica {
    if t.view < r.curView then r
    else
      var (timeouts, built) := AddTimeout(env.n, r.timeouts, t);
      var counted := r.(timeouts := timeouts);
      if built then AdvanceView(counted, t.view) else counted
  }

  function ProcessRemoteTmo(env: Env, r: Replica, t: Timeout): Replica {
    CountTmo(env, ProcessCertificate(env, r, t.highQC), t)
  }

  function ProcessLocalTmo(env: Env, r: Replica, view: View): Replica {
    var advanced := AdvanceView(r, view);
    ProcessRemoteTmo(env, advanced, Timeout(view + 1, env.me, advanced.highQC))
  }

  // ----- Blocks

  /** Files a block that is neither early nor stale, and then the certificate that waited for it. */
  function AddBlock(env: Env, r: Replica, b: Block): Replica
    requires b.qc.Some?
  {
    var added := r.(forest := WithVertex(r.forest, b));
    if b.id !in added.bufferedQCs then added
    else
      var certified := ProcessCertificate(env, added, added.bufferedQCs[b.id]);
      certified.(bufferedQCs := certified.bufferedQCs - {b.id})
  }

  function CastVote(env: Env, r: Replica, b: Block): Replica {
    var cast := r.(log := r.log + [Voted(b, r.preferredView, r.forest.full)]);
    if env.leaderFor(b.view + 1) == env.me then ProcessVote(env, cast, OwnVote(env, b)) else cast
  }

  /** Follows the certificate of a block, before the block itself is judged. */
  function FollowQC(env: Env, r: Replica, b: Block): Replica
    requires b.qc.Some?
  {
    var high := WithHighQC(r, b.qc.value);
    if b.proposer != env.me then ProcessCertificate(env, high, b.qc.value) else high
  }

  datatype Verdict = Early | NoQC | Stale | WrongLeader | Undecided | NotSafe | Accepted

  /** Handles one block, and says what became of it. */
  function HandleBlock(env: Env, r: Replica, b: Block): (Replica, Verdict) {
    if b.view > r.curView + 1 then (r.(bufferedBlocks := r.bufferedBlocks[b.view - 1 := b]), Early)
    else if b.qc.None? then (r, NoQC)
    else
      var f := FollowQC(env, r, b);
      if b.view < f.curView then (f, Stale)
      else if !env.isLeader(b.proposer, b.view) then (f, WrongLeader)
      else
        var a := AddBlock(env, f, b);
        match VotingRule(a.forest.full, a.lastVotedView, a.preferredView, b)
        case None => (a, Undecided)
        case Some(safe) => if safe then (CastVote(env, a, b), Accepted) else (a, NotSafe)
  }

  /** Every buffered block is kept under the view before its own. */
  ghost predicate Aligned(buffered: map<View, Block>) {
    forall v :: v in buffered ==> buffered[v].view == v + 1
  }

  ghost function KeysFrom(buffered: map<View, Block>, view: View): set<View> {
    set v | v in buffered && v >= view
  }

  /** Handles a block, and after it the buffered block of the next view. */
  function ProcessBlock(env: Env, r: Replica, b: Block): Replica
    requires Aligned(r.bufferedBlocks)
    decreases KeysFrom(r.bufferedBlocks, b.view)
  {
    var (h, verdict) := HandleBlock(env, r, b);
    if verdict != Accepted || b.view !in h.bufferedBlocks then h
    else
      BufferedBlocksDescend(env, r, b);
      var next := ProcessBlock(env, h, h.bufferedBlocks[b.view]);
      next.(bufferedBlocks := next.bufferedBlocks - {b.view})
  }

  lemma {:induction false} CommitKeepsBuffer(r: Replica, qc: QC)
    ensures var c := CommitBy(r, qc);
            && c.bufferedBlocks == r.bufferedBlocks && c.bufferedQCs == r.bufferedQCs && c.highQC == r.highQC
            && c.timeouts == r.timeouts
  {
    hide CommitRule, CommitPath, Pruned, IdsOf;
  }

  /** No block is buffered, and of certificates at most the one that is processed. */
  lemma {:induction false} CertificateKeepsBuffer(env: Env, r: Replica, qc: QC)
    ensures var q := ProcessCertificate(env, r, qc);
            && q.bufferedBlocks == r.bufferedBlocks && q.timeouts == r.timeouts && (q.highQC == r.highQC || q.highQC == qc)
            && (q.bufferedQCs == r.bufferedQCs || q.bufferedQCs == r.bufferedQCs[qc.blockId := qc])
  {
    hide UpdatePreferred, CommitBy, Passes;
    var preferred := UpdatePreferred(r.forest.full, r.preferredView, qc);
    if preferred.Some? {
      CommitKeepsBuffer(Locked(r, qc, preferred.value), qc);
    }
  }

  lemma {:induction false} CountingKeepsBuffer(env: Env, r: Replica, vote: Vote)
    ensures var q := ProcessVote(env, r, vote); q.bufferedBlocks == r.bufferedBlocks && q.timeouts == r.timeouts
  {
    hide ProcessCertificate;
    var (votes, built) := AddVote(env.n, r.votes, vote);
    if built.Some? {
      CertificateKeepsBuffer(env, r.(votes := votes), built.value.(leader := env.me));
    }
  }

  lemma {:induction false} VoteKeepsBuffer(env: Env, r: Replica, b: Block)
    ensures var q := CastVote(env, r, b); q.bufferedBlocks == r.bufferedBlocks && q.timeouts == r.timeouts
  {
    hide ProcessVote;
    CountingKeepsBuffer(env, r.(log := r.log + [Voted(b, r.preferredView, r.forest.full)]), OwnVote(env, b));
  }

  lemma {:induction false} AddingKeepsBuffer(env: Env, r: Replica, b: Block)
    requires b.qc.Some?
    ensures var q := AddBlock(env, r, b); q.bufferedBlocks == r.bufferedBlocks && q.timeouts == r.timeouts
  {
    hide ProcessCertificate, WithVertex;
    if b.id in r.bufferedQCs {
      CertificateKeepsBuffer(env, r.(forest := WithVertex(r.forest, b)), r.bufferedQCs[b.id]);
    }
  }

  /** Only an early block changes what is buffered, and no block changes the timeouts. */
  lemma {:induction false} HandlingKeepsBuffer(env: Env, r: Replica, b: Block)
    ensures HandleBlock(env, r, b).1 != Early ==> HandleBlock(env, r, b).0.bufferedBlocks == r.bufferedBlocks
    ensures HandleBlock(env, r, b).0.timeouts == r.timeouts
  {
    hide ProcessCertificate, AddBlock, CastVote, VotingRule;
    if b.qc.Some? {
      CertificateKeepsBuffer(env, WithHighQC(r, b.qc.value), b.qc.value);
      var f := FollowQC(env, r, b);
      AddingKeepsBuffer(env, f, b);
      VoteKeepsBuffer(env, AddBlock(env, f, b), b);
    }
  }

  /** The next block is one view higher, and fewer buffered blocks are left at or above its view. */
  lemma {:induction false} BufferedBlocksDescend(env: Env, r: Replica, b: Block)
    requires Aligned(r.bufferedBlocks)
    requires HandleBlock(env, r, b).1 == Accepted && b.view in HandleBlock(env, r, b).0.bufferedBlocks
    ensures var h := HandleBlock(env, r, b).0;
            && Aligned(h.bufferedBlocks) && h.bufferedBlocks[b.view].view == b.view + 1
            && KeysFrom(h.bufferedBlocks, b.view + 1) < KeysFrom(r.bufferedBlocks, b.view)
  {
    HandlingKeepsBuffer(env, r, b);
    hide HandleBlock;
    assert b.view in KeysFrom(r.bufferedBlocks, b.view);
  }

  // ----- The handlers

  class HotStuff {
    const env: Env
    var curView: View
    var lastVotedView: View
    var preferredView: View
    var highQC: QC
    var forest: Forest
    var votes: Votes
    var bufferedQCs: map<Id, QC>
    var bufferedBlocks: map<View, Block>
    var timeouts: map<View, set<NodeId>>
    var log: seq<Output>

    constructor (env: Env)
      ensures this.env == env && Now() == NEW_REPLICA
    {
      this.env := env;
      curView, lastVotedView, preferredView, highQC := 0, 0, 0, QC(0, 0, 0, {});
      forest, votes, bufferedQCs, bufferedBlocks, timeouts, log := NO_FOREST, map[], map[], map[], map[], [];
    }

    ghost function Now(): Replica
      reads this
    {
      Replica(curView, lastVotedView, preferredView, highQC, forest, votes, bufferedQCs, bufferedBlocks, timeouts, log)
    }

    method RaiseHighQC(qc: QC)
      modifies this`highQC
      ensures Now() == WithHighQC(old(Now()), qc)
    {
      if qc.view > highQC.view {
        highQC := qc;
      }
    }

    method EnterViewAfter(view: View)
      modifies this`curView
      ensures Now() == AdvanceView(old(Now()), view)
    {
      if view >= curView {
        curView := view + 1;
      }
    }

    method RaisePreferredView(qc: QC) returns (ok: bool)
      modifies this`preferredView
      ensures var p := UpdatePreferred(forest.full, old(preferredView), qc);
              ok == p.Some? && preferredView == if ok then p.value else old(preferredView)
    {
      if qc.view <= 2 {
        return true;
      }
      match ParentOf(forest.full, qc.blockId) {
        case None =>
          return false;
        case Some(parent) =>
          if parent.view > preferredView {
            preferredView := parent.view;
          }
          return true;
      }
    }

    method CommitThrough(qc: QC, b: Block)
      modifies this`forest, this`votes, this`log
      ensures Now() == Commit(old(Now()), qc, b)
    {
      if b.view >= forest.lowest {
        var path := CommitPath(forest.full, forest.lowest, b);
        votes := votes - IdsOf(path);
        log := log + [Committed(b, path, qc, forest.full)];
        forest := Pruned(forest, b.view);
      }
    }

    /** Checks one signature after the other. */
    method VerifyQuorumSignature(qc: QC) returns (ok: bool)
      ensures ok <==> Verified(env, qc)
    {
      var left := qc.sigs;
      while left != {}
        invariant left <= qc.sigs
        invariant forall s :: s in qc.sigs && s !in left ==> env.checks(s.signer, qc.blockId, s.sig)
      {
        var s :| s in left;
        if !env.checks(s.signer, qc.blockId, s.sig) {
          return false;
        }
        left := left - {s};
      }
      return true;
    }

    method HandleCertificate(qc: QC)
      modifies this
      ensures Now() == ProcessCertificate(env, old(Now()), qc)
    {
      hide Commit, CommitRule;
      if qc.view < curView {
        return;
      }
      if qc.leader != env.me {
        var verified := VerifyQuorumSignature(qc);
        if !verified {
          return;
        }
      }
      var ok := RaisePreferredView(qc);
      if !ok {
        bufferedQCs := bufferedQCs[qc.blockId := qc];
        return;
      }
      EnterViewAfter(qc.view);
      RaiseHighQC(qc);
      if qc.view >= 3 {
        match CommitRule(forest.full, qc) {
          case None =>
          case Some(block) =>
            CommitThrough(qc, block);
        }
      }
    }

    method HandleVote(vote: Vote)
      modifies this
      ensures Now() == ProcessVote(env, old(Now()), vote)
    {
      hide ProcessCertificate;
      if vote.voter != env.me && !Signed(env, vote) {
        return;
      }
      var (counted, built) := AddVote(env.n, votes, vote);
      votes := counted;
      match built {
        case None =>
        case Some(unsigned) =>
          var qc := unsigned.(leader := env.me);
          if qc.blockId in forest.full {
            HandleCertificate(qc);
          } else {
            bufferedQCs := bufferedQCs[qc.blockId := qc];
          }
      }
    }

    method CountTimeout(t: Timeout) returns (built: bool)
      modifies this`timeouts
      ensures (timeouts, built) == AddTimeout(env.n, old(timeouts), t)
    {
      if t.view in timeouts && |timeouts[t.view]| > env.n * 2 / 3 {
        return false;
      }
      if t.view !in timeouts {
        timeouts := timeouts[t.view := {}];
      }
      timeouts := timeouts[t.view := timeouts[t.view] + {t.node}];
      assert timeouts == AddTimeout(env.n, old(timeouts), t).0;
      built := |timeouts[t.view]| > env.n * 2 / 3;
    }

    method HandleRemoteTmo(t: Timeout)
      modifies this
      ensures Now() == ProcessRemoteTmo(env, old(Now()), t)
    {
      hide ProcessCertificate;
      HandleCertificate(t.highQC);
      if t.view >= curView {
        var built := CountTimeout(t);
        if built {
          EnterViewAfter(t.view);
        }
      }
    }

    method HandleLocalTmo(view: View)
      modifies this
      ensures Now() == ProcessLocalTmo(env, old(Now()), view)
    {
      hide ProcessRemoteTmo;
      EnterViewAfter(view);
      HandleRemoteTmo(Timeout(view + 1, env.me, highQC));
    }

    method FileBlock(b: Block)
      requires b.qc.Some?
      modifies this
      ensures Now() == AddBlock(env, old(Now()), b)
    {
      hide ProcessCertificate, WithVertex;
      forest := WithVertex(forest, b);
      if b.id in bufferedQCs {
        HandleCertificate(bufferedQCs[b.id]);
        bufferedQCs := bufferedQCs - {b.id};
      }
    }

    method SendVote(b: Block)
      modifies this
      ensures Now() == CastVote(env, old(Now()), b)
    {
      hide ProcessVote;
      log := log + [Voted(b, preferredView, forest.full)];
      if env.leaderFor(b.view + 1) == env.me {
        HandleVote(OwnVote(env, b));
      }
    }

    /** A block up to the vote for it. */
    method ReceiveBlock(b: Block) returns (verdict: Verdict)
      modifies this
      ensures (Now(), verdict) == HandleBlock(env, old(Now()), b)
    {
      hide ProcessCertificate, AddBlock, CastVote, VotingRule;
      if b.view > curView + 1 {
        bufferedBlocks := bufferedBlocks[b.view - 1 := b];
        return Early;
      }
      if b.qc.None? {
        return NoQC;
      }
      RaiseHighQC(b.qc.value);
      if b.proposer != env.me {
        HandleCertificate(b.qc.value);
      }
      if b.view < curView {
        return Stale;
      }
      if !env.isLeader(b.proposer, b.view) {
        return WrongLeader;
      }
      FileBlock(b);
      match VotingRule(forest.full, lastVotedView, preferredView, b) {
        case None =>
          return Undecided;
        case Some(safe) =>
          if !safe {
            return NotSafe;
          }
          SendVote(b);
          return Accepted;
      }
    }

    method HandleProposal(b: Block)
      requires Aligned(bufferedBlocks)
      modifies this
      ensures Now() == ProcessBlock(env, old(Now()), b)
      decreases KeysFrom(bufferedBlocks, b.view)
    {
      hide HandleBlock;
      ghost var was := Now();
      var verdict := ReceiveBlock(b);
      if verdict == Accepted && b.view in bufferedBlocks {
        BufferedBlocksDescend(env, was, b);
        HandleProposal(bufferedBlocks[b.view]);
        bufferedBlocks := bufferedBlocks - {b.view};
      }
    }
  }
}
