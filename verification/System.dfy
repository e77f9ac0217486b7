/** Replicas that run together: who is faulty, which blocks exist, and what the honest ones put out. */
module Systems {
  import opened Prelude
  import opened Chain
  import opened Replicas

  datatype System = System(nodes: set<NodeId>, faulty: set<NodeId>, blocks: Blocks, logs: map<NodeId, seq<Output>>)

  ghost predicate Honest(sys: System, p: NodeId) {
    p in sys.nodes && p !in sys.faulty
  }

  ghost predicate VotedFor(log: seq<Output>, id: Id) {
    exists i :: 0 <= i < |log| && log[i].Voted? && log[i].block.id == id
  }

  /** An honest replica backs the blocks it voted for, a faulty one any. */
  ghost predicate Backs(sys: System, p: NodeId, id: Id) {
    p in sys.nodes && (p !in sys.faulty ==> p in sys.logs && VotedFor(sys.logs[p], id))
  }

  /** More than two thirds of the replicas back a block. */
  ghost predicate Quorate(sys: System, backers: set<NodeId>, id: Id) {
    |backers| > |sys.nodes| * 2 / 3 && forall p :: p in backers ==> Backs(sys, p, id)
  }

  ghost predicate Certified(sys: System, id: Id) {
    exists backers :: Quorate(sys, backers, id)
  }

  /**
   What is taken of signatures, for an honest replica that knows how many there are: one that checks is by
   a member, and an honest member signs only the identifiers of blocks that it votes for.
   */
  ghost predicate SoundSignatures(sys: System, env: Env) {
    && Honest(sys, env.me) && env.me in sys.logs && env.n == |sys.nodes|
    && forall p, id, sig :: env.checks(p, id, sig) ==> Backs(sys, p, id)
  }

  /** What identifiers are taken for: a block has its own, and genesis is no block. */
  ghost predicate SoundIds(blocks: Blocks) {
    GENESIS !in blocks && forall id :: id in blocks ==> blocks[id].id == id
  }

  /** The block that exists under its id. */
  ghost function MemberOf(blocks: Blocks): Block -> bool {
    (b: Block) => b.id in blocks && blocks[b.id] == b
  }
}
