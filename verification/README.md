# Verified model of a mempool, HotStuff replica and Merkle proofs

This project models the hard core of a Byzantine fault tolerant replica written in Go, and proves
properties of the model with Dafny 4.11. `dafny verify dfyconfig.toml` checks all of it.

The pattern is the same everywhere. A handler or algorithm is given as a pure function on values, the
theorems are about those functions, over every input or every run, and code that updates state in place is
a class or a loop whose methods are proved equal to them.

- **Merkle trees** (`MerkleTree`, `MerkleProof`, `MerkleTrails`): the recursive hash, the in-place
  bottom-up hash, the pointer-built proofs and the verifier. The digest is a parameter with a fixed length.
  It is never assumed to be injective: soundness asks only that no two of the finitely many strings that are
  hashed in the case at hand collide.
- **Key paths** (`KeyPath`): writing and reading paths of hexadecimal and percent-encoded keys.
- **Token bucket** (`TokenBucket`): lazy refill, debt, waiting and release times.
- **Ack mempool** (`AckMem`, `AckVoices`, `AckContents`, `Reordering`, `Blocks`): microblocks from arrival to proposal and
  fetch, and exactly which acks make one stable.
- **Cooperative executor** (`CoopExecutor` in `Executor.dfy`, `ExecutorProgress`, `ExecutorNumbers`): a queue that is
  retired by local execution or by a quorum of results.
- **Block forest and chain** (`Chain`, `LevelledForests`, `ForestForks`, `ForestRuns`, `BlockChains`, `Quorums`):
  containers with two indexes on the heap, commits, pruning, votes and certificates.
- **HotStuff** (`Replicas` in `HotStuff.dfy`, and the modules named after replicas): the handlers of one replica, what
  its runs keep, exactly when it votes, with which lock, when it commits and when timeouts end a view, what becomes of
  what comes early, which rules for votes and commits it breaks and exactly when, and that its forest is one the heap
  can hold.
- **Agreement** (`Systems`, `Agreement`, `CommitChains`, `AgreementExample`): replicas that run together and keep those
  rules commit one chain.

Where a property turned out not to hold of the code, there is the input that breaks it and the exact
condition under which it holds:

| property | breaking input | holds if and only if |
|---|---|---|
| key paths round trip | `KeyPath.MarkedNameIsMisread` | `KeyPath.RoundTrip` |
| a proof that cannot be evaluated is refused | `MerkleProof.EmptyRootAcceptsAnyLeaf` | `MerkleProof.EmptyRootAcceptsUnusableProofs` |
| what others proposed is not proposed again | `AckMem.UnknownCanBeProposed` | `AckMem.NeverProposedIffKnown` |
| nothing retires unreported | `CoopExecutor.WrongNumberRetiresUnreported` | `ExecutorNumbers.UnreportedIffHarms` |
| children lists lead to containers that are held | `ForestRuns.ListLeadsNowhere` | `LevelledForests.PruningsClosedIff`, `LevelledForests.AddedRisingIff` |
| a stored block can be committed | `ForestRuns.WalkFails` | `LevelledForests.LevelledForest.PruneUpToLevel` |
| pruned blocks are committed or listed | `ForestRuns.BlockIsLost` | `ForestForks.PartitionIffWalked` |
| commits form one chain | `BlockChains.SiblingBreaksChain` | `BlockChains.CommitExtendsChain` |
| no pending microblock has enough acks | `AckVoices.LoneArrival` | `AckVoices.AlwaysBelowIff` |
| one certificate per block | `Quorums.ForgottenIsCertifiedAgain` | `Quorums.SecondCertificateIff` |
| a block that comes early is handled | `ReplicaRuns.EarlyBlockIsLost` | `ReplicaBuffers.EarlyIsLostIff` |
| a certificate that comes early takes effect | `ReplicaRuns.CertificateIsLost` | `ReplicaEffects.WaitingTakesEffectIff` |
| one vote per view | `ReplicaRuns.DoubleVote` | `ReplicaVotes.RunObeysIff` |
| votes in increasing views | `ReplicaRuns.VotesGoBack` | `ReplicaVotes.RunObeysIff` |
| votes with the lock applied | `ReplicaRuns.LockSkipped` | `ReplicaVotes.RunObeysIff` |
| votes for blocks with a certificate that is signed | `ReplicaRuns.UnverifiedIsVoted` | `ReplicaVotes.RunObeysIff` |
| ... by more than two thirds | `ReplicaRuns.UnsignedIsVoted` | `ReplicaVotes.RunObeysIff` |
| ... for the parent | `ReplicaRuns.OtherParentIsVoted` | `ReplicaVotes.RunObeysIff` |
| ... of the view of its block | `ReplicaRuns.RelabelledIsVoted` | `ReplicaVotes.RunObeysIff` |
| ... of a lower view than the block | `ReplicaRuns.LaterCertificateIsVoted` | `ReplicaVotes.RunObeysIff` |
| commits by a certificate that is signed | `ReplicaRuns.UnverifiedCommits` | `ReplicaCommits.RunMeetsIff` |
| ... by more than two thirds | `ReplicaRuns.UnsignedCommits` | `ReplicaCommits.RunMeetsIff` |
| ... of the view of its block | `ReplicaRuns.RelabelledCommits` | `ReplicaCommits.RunMeetsIff` |
| commits are of consecutive blocks | `ReplicaRuns.RelabelledCommits` | `ReplicaSafety.ConsecutiveIff` |

Without the rules on certificates agreement fails: `ReplicaRuns.UnsignedForksSplit`.

Code and documentation disagree in one place that matters: `AddVertex` is documented as doing nothing at or
below the pruning level (blockchain/leveled_forrest.go:147-151) and in fact files vertices at that level
(line 153). The model follows the code.

## Model

| member | source | states |
|---|---|---|
| `MerkleTree.SplitPoint` | crypto/merkle/tree.go:95-106 | the largest power of two below the length, by the bit trick of the source |
| `MerkleTree.SplitPointUnique` | crypto/merkle/tree.go:95-106 | no other power of two lies in the half-open upper half of the length |
| `MerkleTree.SplitPointHalves` | crypto/merkle/tree.go:62-106 | halving a level, odd entry promoted, halves its split point |
| `MerkleTree.PairedKeepsRoot` | crypto/merkle/tree.go:62-92 | pairing a whole level, with the odd entry promoted, leaves the recursive root of the level unchanged |
| `MerkleTree.RootIsRootOfLeaves` | crypto/merkle/tree.go:9-21 | the recursive root of the items is the root of the level of their leaf hashes |
| `MerkleTree.PairInPlace` | crypto/merkle/tree.go:72-91 | one pass over the array, writing behind the reads, leaves the paired level in its front part |
| `MerkleTree.HashIteratively` | crypto/merkle/tree.go:62-92 | for every list, the in-place bottom-up hash returns the root that the recursive definition (section 2.1 of RFC 6962) gives |
| `MerkleProof.AuditPathComputesRoot` | crypto/merkle/proof.go:151-181 | folding the audit path of section 2.1.1 of RFC 6962 over a leaf gives the root of the list |
| `MerkleProof.AuditPathLength` | crypto/merkle/proof.go:98-117 | a list of at most 2^e items needs at most e aunts |
| `MerkleProof.BuiltProofVerifies` | crypto/merkle/proof.go:35-117 | every built proof is accepted, its aunts number at most the bits of n - 1, and for every int64 size it passes basic validation |
| `MerkleProof.WalkSound` | crypto/merkle/proof.go:151-181 | one level of an accepted walk continues as an accepted walk in the half of the list that the index lies in |
| `MerkleProof.AcceptedLeafIsListed` | crypto/merkle/proof.go:52-78 | for any aunts, index and claimed total, an accepted leaf is in the list; collision freedom is asked only of the strings really hashed |
| `MerkleProof.AcceptedIffAuditPath` | crypto/merkle/proof.go:52-78 | with the right total, the verifier accepts if and only if the leaf is the item at the index and the aunts are its audit path |
| `MerkleProof.WalkFailsIff` | crypto/merkle/proof.go:151-181 | the walk yields nil if and only if the index is not below the total or the aunts do not number the depth of the item |
| `MerkleProof.EmptyRootAcceptsUnusableProofs` | crypto/merkle/proof.go:52-68 | against an empty root hash the verifier accepts exactly the proofs of such an index or number of aunts |
| `MerkleProof.EmptyRootAcceptsAnyLeaf` | crypto/merkle/proof.go:52-68 | the plainest one: index 0 of 0 items, without aunts, is accepted for every leaf |
| `MerkleProof.RefusedFor` | crypto/merkle/proof.go:52-68 | a refusal names the first check that fails: total, index, leaf hash |
| `MerkleProof.CheckBasic` | crypto/merkle/proof.go:98-117 | basic validation refuses exactly a negative total or index, a leaf hash or aunt of a wrong size, or more than 100 aunts, and reports the first of these, and of aunts the first one |
| `MerkleProof.RootBindsList` | crypto/merkle/hash.go:14-26 | two lists of any lengths with one root are the same list |
| `MerkleTrails.ProofNode.FlattenAunts` | crypto/merkle/proof.go:197-212 | walking Parent, Left and Right pointers from a leaf collects exactly the hashes its trail stands for |
| `MerkleTrails.TrailsFromByteSlices` | crypto/merkle/proof.go:216-236 | the linked nodes are the trails of the audit paths of all items, and the returned root node carries the root |
| `MerkleTrails.ProofsFromByteSlices` | crypto/merkle/proof.go:35-48 | the builder returns the root and, for each index, the proof with the audit path of that item |
| `KeyPath.WritePath` | crypto/merkle/proof_key_path.go:70-83 | the loop writes the text of the path, key by key |
| `KeyPath.ReadPath` | crypto/merkle/proof_key_path.go:87-110 | the loop reads the keys of a text, or fails as a whole |
| `KeyPath.KeyText` | crypto/merkle/proof_key_path.go:70-83 | the text of a path is, key by key, a slash and the name in percent-encoding, or a slash, the mark x: and its digits |
| `KeyPath.HexSpelt` | crypto/merkle/proof_key_path.go:77 | hexadecimal text has, in place order, the digits 0-9 and A-F of the upper and the lower half of each byte |
| `KeyPath.HexNumber` | crypto/merkle/proof_key_path.go:77 | the digits write in base 16 the number that the bytes write in base 256 |
| `KeyPath.DigitsRead` | crypto/merkle/proof_key_path.go:96 | exactly the digits 0-9, A-F and a-f are read, each as its value |
| `KeyPath.HexReadIff` | crypto/merkle/proof_key_path.go:96 | hexadecimal text is read as these bytes if and only if it has two digits for each, in place order |
| `KeyPath.EscapeOne` | crypto/merkle/proof_key_path.go:75 | exactly letters, digits and the marks -._~$&+:=@ are left as they are; any other byte becomes a percent sign and its two digits |
| `KeyPath.EscapeAppend` | crypto/merkle/proof_key_path.go:75 | percent-encoding is byte by byte |
| `KeyPath.UnescapeIff` | crypto/merkle/proof_key_path.go:102 | percent-encoded text is read as these bytes if and only if it spells each as itself, or as a percent sign and its two digits |
| `KeyPath.HexRoundTrip` | crypto/merkle/proof_key_path.go:76-77 | hexadecimal decoding undoes encoding |
| `KeyPath.EscapeRoundTrip` | crypto/merkle/proof_key_path.go:74-75 | percent-decoding (section 2.1 of RFC 3986) undoes encoding, and an encoded name holds no slash |
| `KeyPath.PartRoundTrip` | crypto/merkle/proof_key_path.go:70-110 | one key comes back if and only if it is not a percent-encoded name that starts with the hexadecimal mark |
| `KeyPath.DecodedPartByPart` | crypto/merkle/proof_key_path.go:93-109 | the parts decode to a list of keys if and only if each part decodes to its key |
| `KeyPath.RoundTrip` | crypto/merkle/proof_key_path.go:66-110 | reading a written path gives back its keys, byte for byte and in order, if and only if the path is non-empty and no percent-encoded name starts with the mark |
| `KeyPath.MarkedNameIsMisread` | crypto/merkle/proof_key_path.go:95-101 | the failing family: such a name of hexadecimal digits comes back as other bytes |
| `TokenBucket.LazyRefillIsTickByTick` | limiter/ratelimit.go:312-323 | one adjustment over any gap equals adding the quantum and clamping once per tick |
| `TokenBucket.AdjustmentsCompose` | limiter/ratelimit.go:312-323 | adjusting in two stages equals adjusting at once |
| `TokenBucket.WaitIsLeast` | limiter/ratelimit.go:275-301 | a granted wait ends at the first tick at which its tokens exist, and a refused request would have had to wait longer than allowed |
| `TokenBucket.TakesFromRefill` | limiter/ratelimit.go:275-303 | a request that may wait takes its tokens from what a refill on every tick gives, waits only if that is too little, and takes nothing if it is refused |
| `TokenBucket.AvailableIsTaken` | limiter/ratelimit.go:229-243 | a request for what there is gets what it asks for or leaves nothing; what it gets and what is left are together what a refill on every tick gives |
| `TokenBucket.StepAccounts` | limiter/ratelimit.go:229-301 | a request takes what it was granted and nothing more, and never overfills the bucket |
| `TokenBucket.RateBound` | limiter/ratelimit.go:229-323 | over every run with a non-decreasing clock, tokens taken up to a granted request are at most what was there plus quantum times the ticks until its release |
| `TokenBucket.ReleasesInOrder` | limiter/ratelimit.go:275-301 | a later taker is never released before an earlier one |
| `TokenBucket.RefusedIsInvisible` | limiter/ratelimit.go:212-301 | after a refused request, whatever follows is granted as if it had not been made |
| `TokenBucket.Bucket.constructor` | limiter/ratelimit.go:143-165 | a new bucket is full at tick 0 |
| `TokenBucket.Bucket.AdjustAvailableTokens` | limiter/ratelimit.go:312-323 | the fields after an adjustment are those of the specification |
| `TokenBucket.Bucket.TakeMaxDuration` | limiter/ratelimit.go:212-301 | fields, wait and verdict are those of the specification, for debt, rounding and refusal alike |
| `TokenBucket.Bucket.TakeAvailable` | limiter/ratelimit.go:221-242 | fields and tokens taken are those of the specification |
| `TokenBucket.Bucket.Available` | limiter/ratelimit.go:250-261 | returns what a refill on every tick since the last adjustment gives |
| `AckMem.RunKeeps` | mempool/ackmem.go:139-415 | every interleaving of the handlers keeps: pending hashes are known and not stable, each stable hash was queued once, the counter counts the stable hashes |
| `AckMem.ProposedAtMostOnce` | mempool/ackmem.go:139-553 | over every run, a hash is proposed, dropped by a fetch or still queued exactly once if it is stable, and never otherwise |
| `AckMem.FetchResult` | mempool/ackmem.go:504-553 | fetching yields one microblock for each proposed hash, in order, and leaves none of the hashes pending or queued |
| `AckMem.ProposalRoundTrip` | blockchain/block.go:92-151 | what a leader proposes from any state arrives at any follower with the same hashes in order; entries missing there get the proposed group, count and time |
| `AckMem.FinishedIsNeverProposed` | mempool/ackmem.go:139-415 | a microblock that is known, not pending and not queued is proposed in no continuation |
| `AckMem.NeverProposedIffKnown` | mempool/ackmem.go:504-553 | after a fetch, a proposed hash is never proposed by this node again if and only if it was known here |
| `AckMem.UnknownCanBeProposed` | mempool/ackmem.go:284-334 | a hash that is not known is proposed in some continuation, once a stable message for it arrives |
| `AckMem.QueuedCanBeProposed` | mempool/ackmem.go:344-415 | whatever is queued is proposed in some continuation |
| `AckMem.StableNeedsAcks` | mempool/ackmem.go:206-282 | over every run, nothing becomes stable without a stable message or enough ack messages; messages, not distinct nodes, are counted |
| `AckVoices.RunTallied` | mempool/ackmem.go:139-282 | over every run, the count and the list of acks of a pending microblock are its sender, each node that acked before it came, and every counted ack since, duplicates included in the count |
| `AckVoices.BecomesStableIff` | mempool/ackmem.go:139-334 | over every run, a microblock becomes stable with exactly the ack, or the arrival after acks, that brings these to the threshold, or a stable message for a pending or unknown one; it then goes to the end of the queue, and the nodes that acked it are noted |
| `AckVoices.AlwaysBelowIff` | mempool/ackmem.go:187-241 | no pending microblock ever has as many acks as the threshold if and only if the threshold is at least 2 |
| `AckContents.RunKnows` | mempool/ackmem.go:139-157 | over every run, what is known under a hash depends on the messages about it alone: a shell until the microblock comes, then the first one that came, unless another is sent on request |
| `AckContents.ShellIff` | mempool/ackmem.go:304-333 | where only real microblocks come, a shell stands in for exactly those that are stable elsewhere and did not come |
| `AckContents.FetchTakes` | mempool/ackmem.go:504-557 | a proposal takes exactly its hashes out of the pending microblocks and out of the queue, which keeps its order |
| `AckContents.InfoStays` | mempool/ackmem.go:257-292 | what is noted of the acks of a stable microblock stays |
| `AckContents.RunNotes` | mempool/ackmem.go:231-292 | over every run, what is noted of acks, and goes into payloads, is a stable message or the nodes that were heard acknowledging |
| `AckMem.Mempool.AddMicroblock` | mempool/ackmem.go:139-203 | the fields after a microblock arrives are those of the specification |
| `AckMem.Mempool.ProcessAck` | mempool/ackmem.go:206-282 | the same for an ack, buffered or counted, with the transition to stable |
| `AckMem.Mempool.AddStable` | mempool/ackmem.go:284-334 | the same for a stable message, known or not |
| `AckMem.Mempool.HandleMissingStableMb` | mempool/ackmem.go:336-340 | the same for a microblock that was sent again |
| `AckMem.Mempool.GeneratePayload` | mempool/ackmem.go:344-415 | the payload is the front of a sorted permutation of the queue in group mode and of the queue otherwise, and the queue keeps the rest |
| `AckMem.Mempool.FetchMB` | mempool/ackmem.go:504-553 | the fetched microblocks and the new fields are those of the specification |
| `Blocks.GenerateLists` | blockchain/block.go:120-151 | the three loops collect hash, group and time of each microblock in order |
| `Blocks.BuildProposal` | blockchain/block.go:92-105 | the proposal carries those lists with the payload's ack nodes and transaction counts |
| `Reordering.PayloadHasFewestChanges` | mempool/ackmem.go:354-412 | in group mode, no order of the proposed microblocks has fewer adjacent group changes, namely distinct groups minus one |
| `CoopExecutor.QuorateIsPrefix` | execute/execute.go:194-220 | a result counts for all earlier numbers, so the quorate numbers are a prefix |
| `CoopExecutor.RunSafe` | execute/execute.go:88-276 | over every run in both modes: retired and queued entries are the delivered ones in order and each once, nothing is retired without local execution or a quorum of reports at or after it, and transaction counts add up |
| `CoopExecutor.MissSafeIffNumberKept` | execute/execute.go:232-248 | a microblock that is sent again keeps all of this, numbers in delivery order included, if and only if it carries the number of the entry it replaces |
| `ExecutorNumbers.UnreportedIffHarms` | execute/execute.go:194-276 | after every run that kept numbers, deliveries and results can go on to retire an entry without a quorum of reports of its own number or a later one if and only if the microblock sent again has a number from 1 up to and without the entry's own, which is not quorate yet, and the entry is not executed at once; a higher number, or 0, never does (in plain mode the same condition is necessary) |
| `ExecutorNumbers.CalmRunHarmless` | execute/execute.go:88-276 | while no queued entry has such a number, nothing is retired unreported over any run of deliveries and results |
| `CoopExecutor.WrongNumberRetiresUnreported` | execute/execute.go:232-276 | a run in which a wrong number retires an entry that no one reported |
| `CoopExecutor.RunNotStalled` | execute/execute.go:88-276 | over every run in grouped mode, a quorate entry stays queued only while reports run ahead of everything delivered |
| `ExecutorProgress.RunHeadWaits` | execute/execute.go:88-276 | over every run in both modes the queue is empty or its head is a shell or, in cooperative mode, of a group that others execute |
| `ExecutorProgress.DeliversFresh` | replica/replica.go:831-862 | what is delivered is exactly the microblocks with new hashes, each at its first place and as it is but for the number |
| `ExecutorProgress.RunKeepsEntries` | execute/execute.go:88-276 | over every run entries keep their place and content, but for a shell that its microblock replaces; new ones come after them |
| `ExecutorProgress.ResultRetires` | execute/execute.go:194-276 | a result counts for its number and all below, and retires as reported exactly the entries up to the greatest quorate number not above it, if that was delivered |
| `ExecutorProgress.DeliveryRetires` | execute/execute.go:88-116 | a delivery retires as reported exactly the entries up to the last quorate one in cooperative mode, and none in plain mode |
| `CoopExecutor.Executor.ExecuteThread` | execute/execute.go:118-191 | executes exactly the longest executable prefix of the queue |
| `CoopExecutor.Executor.AddMbToExecute` | execute/execute.go:88-116 | the fields after a delivery are those of the specification |
| `CoopExecutor.Executor.MbReady` | execute/execute.go:251-276 | drops everything through the last entry with the number, and executes on |
| `CoopExecutor.Executor.HandleResult` | execute/execute.go:194-220 | counts a result for every number up to its own, and retires through the greatest quorate one |
| `CoopExecutor.Executor.HandleMiss` | execute/execute.go:232-248 | replaces every blocked copy of the microblock, and executes on if there was one |
| `CoopExecutor.Deliverer.ProcessCommittedBlock` | replica/replica.go:831-862 | delivers each hash once, numbered from 1 without gaps |
| `LevelledForests.AddedWellFormed` | blockchain/leveled_forrest.go:152-200 | adding a level-consistent vertex keeps both indexes equal and every children list free of duplicates and strangers |
| `LevelledForests.AddedAgrees` | blockchain/leveled_forrest.go:152-200 | whatever levels a vertex states, an addition leaves the id map and the level index with the same containers, each once, none below the bound |
| `LevelledForests.AddedWellFormedIff` | blockchain/leveled_forrest.go:147-164 | with the levels of the ids fixed, the forest stays well-formed in those terms if and only if the addition is ignored or states them |
| `LevelledForests.PruningsClosedIff` | blockchain/leveled_forrest.go:71-85 | no pruning leaves a children list that leads to a pruned container if and only if no container lies below one that lists it |
| `LevelledForests.AddedRisingIff` | blockchain/leveled_forrest.go:152-182 | an addition keeps that if and only if the vertex is ignored, not listed, or its container does not lie below its parent's |
| `ForestRuns.ListLeadsNowhere` | blockchain/leveled_forrest.go:51-200 | the failing family: a vertex that states a parent at or above a higher vertex; a pruning at the higher one takes the child and leaves the parent's list |
| `LevelledForests.PrunedWellFormed` | blockchain/leveled_forrest.go:71-85 | pruning keeps that: no list of a container that stays leads to a pruned one |
| `LevelledForests.LevelledForest.GetVertex` | blockchain/leveled_forrest.go:102-108 | finds the full vertex of an id, and none for an empty container |
| `LevelledForests.LevelledForest.GetOrCreateVertexContainer` | blockchain/leveled_forrest.go:188-200 | files a new container in the id map and at the end of its level, or returns the one that is there |
| `LevelledForests.LevelledForest.RegisterWithParent` | blockchain/leveled_forrest.go:166-182 | appends a container to its parent's children unless that lies below the lowest level |
| `LevelledForests.LevelledForest.AddVertex` | blockchain/leveled_forrest.go:152-164 | files any vertex as the specification does, unless its level was pruned or it is there already |
| `LevelledForests.LevelledForest.PruneUpToLevel` | blockchain/leveled_forrest.go:51-87 | with any number of containers per level: removes exactly what is below the level from both indexes, counts it, and lists the full vertices above level 1 off the levels that the walk over first containers meets; it is refused if and only if the level was pruned before, and panics without effect if and only if the walk meets a level whose first container is missing or empty |
| `ForestRuns.AdditionCounts` | blockchain/leveled_forrest.go:152-200 | an addition creates as many containers as its two lookups miss |
| `ForestRuns.PruningCounts` | blockchain/leveled_forrest.go:71-85 | pruning removes as many containers as its loop counts |
| `ForestRuns.RunKeeps` | blockchain/leveled_forrest.go:51-200 | over every run of additions and prunings, whatever is added, both indexes hold the same containers and the containers ever created are those held plus those pruned |
| `ForestRuns.RunWellFormed` | blockchain/leveled_forrest.go:51-200 | over every run of vertices with the levels of their ids the children lists are right, too |
| `ForestRuns.WalkFails` | blockchain/leveled_forrest.go:60-70 | a vertex of view 3 before its parent, and another one of the parent's view: the walk fails at the level of that stored block |
| `ForestRuns.BlockIsLost` | blockchain/leveled_forrest.go:60-82 | two blocks of view 2 and one of view 3 on the first: a commit of the last one neither commits nor lists the second |
| `Chain.CommitPathIsLineage` | blockchain/blockchain.go:78-91 | the blocks a commit walks over are the ancestors of the block that lie above the last committed level |
| `ForestForks.ForkedUpToHas` | blockchain/leveled_forrest.go:71-85 | in any well-formed forest the forked list holds exactly the pruned full vertices above level 1 whose level the walk did not meet |
| `ForestForks.ForkedOnce` | blockchain/leveled_forrest.go:71-85 | no block is listed twice |
| `ForestForks.PartitionIffWalked` | blockchain/leveled_forrest.go:51-87 | in every well-formed forest, a commit splits what it prunes into ancestors and forked blocks if and only if the pruned blocks on the levels that the walk meets are exactly the ancestors |
| `ForestForks.PartitionIff` | blockchain/leveled_forrest.go:51-87 | where the ancestors are first on their levels, this comes to no other pruned block sharing a level with an ancestor |
| `ForestForks.SharedLevelIsLost` | blockchain/leveled_forrest.go:60-82 | the failing family: a block that shares a level with an ancestor is neither committed nor listed |
| `ForestForks.CommitPartition` | blockchain/leveled_forrest.go:51-87 | with one vertex per level the walk is possible, the split holds and each forked block is listed once |
| `BlockChains.CommitExtendsChain` | blockchain/blockchain.go:70-99 | a commit continues the committed blocks as one parent-linked chain of increasing views if and only if the block descends from the last committed one |
| `BlockChains.SiblingBreaksChain` | blockchain/blockchain.go:70-99 | the failing family: two blocks on one parent are added and the lower one is committed; a commit of the other leaves no chain |
| `BlockChains.CommitsFormOneChain` | blockchain/blockchain.go:70-99 | over every run of such additions and commits the committed blocks are one growing chain without repeats |
| `BlockChains.RecommitIsNoOp` | blockchain/blockchain.go:70-99 | committing the block at the lowest level again commits nothing and leaves the forest as it is |
| `BlockChains.IntervalsAre` | blockchain/blockchain.go:85 | the views counted for a commit are the view of the commit for each block, less the views of the blocks |
| `BlockChains.BlockChain.AddBlock` | blockchain/blockchain.go:31-34 | adds the block to the forest |
| `BlockChains.BlockChain.GetParentBlock` | blockchain/blockchain.go:48-59 | the stored parent of a stored block, or none |
| `BlockChains.BlockChain.CollectCommitted` | blockchain/blockchain.go:77-91 | the loop yields the commit path, forgets the votes of its blocks, and sums the views they waited |
| `BlockChains.BlockChain.CommitBlock` | blockchain/blockchain.go:70-99 | with any number of containers per level: returns the commit path newest first and the forked list of the pruning, forgets the votes of the path, counts it and prunes below the block; refused without effect if and only if the block is not stored; if the walk panics, votes and counters have changed and the forest has not |
| `Quorums.RecordOfVotes` | blockchain/quorum.go:89-118 | over every run of votes and commits, the record of a block holds the distinct voters since a commit last forgot them, up to the vote that completed the majority |
| `Quorums.CertificateAtMajority` | blockchain/quorum.go:89-118 | over every such run, a vote yields a certificate if and only if it takes those voters above two thirds, and the certificate names them |
| `Quorums.CertificateSignatures` | blockchain/quorum.go:125-138 | the certificate holds, for each of them, the signature of the last vote, and no other |
| `Quorums.SecondCertificateIff` | blockchain/blockchain.go:80-83 | a block that got a certificate gets another if and only if its votes were forgotten in between and its voters since go above two thirds again |
| `Quorums.ForgottenIsCertifiedAgain` | blockchain/blockchain.go:80-83 | that happens: after its votes are forgotten, the same votes certify a block again |
| `Quorums.Quorum.Add` | blockchain/quorum.go:89-118 | the nested vote map and the certificate are those of the specification |
| `Quorums.Quorum.GetSigs` | blockchain/quorum.go:125-138 | lists the signature of every voter of the block once |
| `Replicas.BufferedBlocksDescend` | hotstuff/hotstuff.go:55-121 | each nested call handles a block one view higher, with strictly fewer buffered blocks at or above its view, so handling a block ends |
| `Replicas.HotStuff.VerifyQuorumSignature` | crypto/sign.go:107-120 | checks one signature after the other: true if and only if every one checks, so also if there is none |
| `Replicas.HotStuff.HandleCertificate` | hotstuff/hotstuff.go:234-277 | the fields after a certificate are those of the specification: stale, forged, buffered, locking and committing cases |
| `Replicas.HotStuff.RaisePreferredView` | hotstuff/hotstuff.go:316-332 | raises the preferred view to that of the certified block's parent, or fails if that is not stored |
| `Replicas.HotStuff.RaiseHighQC` | hotstuff/hotstuff.go:226-232 | keeps the certificate of the higher view |
| `Replicas.HotStuff.EnterViewAfter` | pacemaker/pacemaker.go:32-40 | enters the next view unless it was passed |
| `Replicas.HotStuff.HandleVote` | hotstuff/hotstuff.go:123-149 | the fields after a vote are those of the specification |
| `Replicas.HotStuff.CountTimeout` | pacemaker/timeoutController.go:22-39 | records the sender under the view, and reports the timeout that first takes the senders above two thirds |
| `Replicas.HotStuff.HandleRemoteTmo` | hotstuff/hotstuff.go:151-160 | the same for a timeout message, with the certificate it carries and the majority it may complete |
| `Replicas.HotStuff.HandleLocalTmo` | hotstuff/hotstuff.go:162-171 | the same for the replica's own timer |
| `Replicas.HotStuff.ReceiveBlock` | hotstuff/hotstuff.go:55-114 | the same for a block up to the vote for it, with what became of it |
| `Replicas.HotStuff.HandleProposal` | hotstuff/hotstuff.go:55-121 | the same for a block and the buffered blocks that follow it |
| `ReplicaSafety.CertificateKeeps` | hotstuff/hotstuff.go:234-306 | a certificate keeps the replica invariant and moves nothing back |
| `ReplicaSafety.ProcessBlockKeeps` | hotstuff/hotstuff.go:55-121 | so does a block, with everything buffered behind it |
| `ReplicaSafety.CommitsIff` | hotstuff/hotstuff.go:234-306 | a certificate commits if and only if it is current, passes, has view 3 or more and is for the last of three stored blocks in line, of which the first two are in consecutive views and the view that the certificate states comes next; it then commits the first of them, with its path, and prunes below it |
| `ReplicaSafety.ConsecutiveIff` | hotstuff/hotstuff.go:302 | the three blocks of a commit are in consecutive views if and only if the certificate states the view of the block it is for |
| `ReplicaSafety.RunGrows` | hotstuff/hotstuff.go:55-332 | over every run the current view, the preferred view, the highest certificate's view and the lowest level never decrease, and outputs are never taken back |
| `ReplicaSafety.RunLocked` | hotstuff/hotstuff.go:55-332 | over every run, whatever arrives: the lowest level is the view of the last commit, and 0 or below the preferred view; every commit was within the commit rule and takes the stored ancestors down to the commit before; every vote was within the voting rule; after a commit at view k every vote above view 2 is for a block whose parent view exceeds k, and a vote up to view 2 is for the block whose waiting certificate just committed |
| `ReplicaKnown.RunRespectsCommits` | hotstuff/hotstuff.go:55-332 | if the views of arriving blocks belong to their ids, then after a commit at view k every vote is for a block whose parent view exceeds k |
| `ReplicaAccept.CertificateEffect` | hotstuff/hotstuff.go:234-332 | what a certificate does to the lock, the view, the buffer and the forest, case by case |
| `ReplicaAccept.AcceptedIff` | hotstuff/hotstuff.go:55-114 | for every block and state: a block gets a vote if and only if, before it is handled, its view is the next one at most and not below the view that its certificate leads to, its proposer leads, and it has view 2 or less or a parent that prunings by its own and by a waiting certificate leave stored and that is not below the lock they lead to |
| `ReplicaAccept.LockAppliedIff` | hotstuff/hotstuff.go:234-332 | for every block and state: its vote has its certificate applied to the lock if and only if that has view 2 or less, or those prunings leave the certified block and its parent stored and the parent is not above that lock |
| `ReplicaAccept.PlainAcceptedIff` | hotstuff/hotstuff.go:55-114 | for blocks as leaders build them this comes to: current or next view, leading proposer, and view 2 or less or a stored parent not below the lock; certificate and earlier votes play no part |
| `ReplicaAccept.PlainLockAppliedIff` | hotstuff/hotstuff.go:234-332 | and this to: view 2 or less, or the grandparent stored and the lock there already, or the certificate current, good and another's, or one that waited for the block |
| `ReplicaEffects.HandledEffect` | hotstuff/hotstuff.go:55-114 | for every block and state: which of seven things becomes of the block, in terms of what is known before, and what each leaves: a refused block has its certificate followed, one without a vote is stored as well, one with a vote has the vote sent |
| `ReplicaEffects.OwnVoteOnRecord` | hotstuff/hotstuff.go:104-114 | the replica's own vote, for the block and its view, goes on record if and only if it leads the next view |
| `ReplicaEffects.VoteEffect` | hotstuff/hotstuff.go:123-149 | a vote that is signed or own, for a block without a majority, is recorded; the one that completes a majority builds a certificate of the recorded votes, which is processed if the block is stored and waits for it otherwise |
| `ReplicaEffects.WaitingTakesEffectIff` | hotstuff/hotstuff.go:87-93 | a certificate that waits for a block leaves the buffer when the block is filed, and takes effect if and only if it is current, passes, and has view 2 or less or the parent of the block is stored; otherwise it is lost |
| `ReplicaBuffers.EarlyIsHandled` | hotstuff/hotstuff.go:64-121 | a block that comes early is kept, and gets a vote right after the block of the view before is accepted if and only if it is votable then |
| `ReplicaBuffers.EarlyIsLostIff` | hotstuff/hotstuff.go:64-121 | it is dropped there, neither handled nor kept, if and only if the replica has not entered the view of the block before it |
| `ReplicaBuffers.RunKeepsEarly` | hotstuff/hotstuff.go:64-121 | over every run a kept block stays until a vote is cast in the view before its own, or another block of its view comes early |
| `ReplicaTimeouts.RunRecords` | pacemaker/timeoutController.go:22-39 | over every run what is recorded for a view is who sent timeouts for it before it was over, own timer included, and a majority has ended the view |
| `ReplicaTimeouts.ViewEndsAtMajority` | hotstuff/hotstuff.go:151-171 | over every run a timeout ends its view if and only if it takes the distinct senders above two thirds, and the next view is entered then |
| `ReplicaTimeouts.OwnTimerCounts` | hotstuff/hotstuff.go:162-171 | the timer of the current view enters the next one and counts as a timeout of the replica for it |
| `ReplicaKnown.RunKnown` | hotstuff/hotstuff.go:55-332 | over every run, what is true of the blocks that arrive is true of everything stored, voted for or committed from |
| `ReplicaVotes.AcceptedIsVoted` | hotstuff/hotstuff.go:95-114 | handling a block casts exactly one vote if it is accepted and none otherwise, with the lock and forest it was judged by |
| `ReplicaVotes.HandlingObeysIff` | hotstuff/hotstuff.go:55-121 | for each rule (one vote per view; increasing views; certificate applied to the lock, for the parent, of a lower view than the block, all signed, signed by enough, of its block's view) and every block and state: handling the block keeps the rule if and only if what was known before allows it |
| `ReplicaVotes.RunObeysIff` | hotstuff/hotstuff.go:55-121 | over every run, whatever arrives, the votes obey such a rule if and only if every block, buffered ones included, allowed it when it was handled |
| `ReplicaCommits.CertificateMeetsIff` | hotstuff/hotstuff.go:234-277 | for each demand (all signed, signed by enough, of its block's view) and every certificate and state: processing the certificate keeps commits within the demand if and only if it meets it or does not commit |
| `ReplicaCommits.RunMeetsIff` | hotstuff/hotstuff.go:55-277 | over every run, whatever arrives, all commits rest on certificates that meet such a demand if and only if every certificate that could commit met it when it was processed |
| `ReplicaSound.BuiltIsSound` | blockchain/quorum.go:89-138 | counting votes that are signed and state the view of their block builds only certificates that meet every demand |
| `ReplicaSound.RunSound` | hotstuff/hotstuff.go:123-277 | over every run in which that holds of the votes that count, own-named ones included, and arriving certificates of view 3 or more meet the demands, all commits do |
| `ReplicaRuns.DoubleVote` | hotstuff/hotstuff.go:279-314 | two proposals of view 1 from the leader both get a vote |
| `ReplicaRuns.VotesGoBack` | hotstuff/hotstuff.go:64-114 | after a timeout in view 2, blocks of views 4 and 3 that arrive in that order both get a vote |
| `ReplicaRuns.LockSkipped` | hotstuff/hotstuff.go:236-238 | after a timeout in view 3, the block of view 4 gets a vote although its certificate is skipped and the lock stays at 0 |
| `ReplicaRuns.EarlyBlockIsVoted` | hotstuff/hotstuff.go:64-121 | blocks of views 3, 1 and 2 that arrive in that order get votes in the order 1, 2, 3 |
| `ReplicaRuns.EarlyBlockIsLost` | hotstuff/hotstuff.go:115-119 | after a timeout in view 2, an early block of view 5 is lost when the block of view 4 gets a vote |
| `ReplicaRuns.CertificateIsLost` | hotstuff/hotstuff.go:87-93 | a certificate of view 3 that comes before its block is lost when the block comes before its parent |
| `ReplicaRuns.UnverifiedIsVoted` | hotstuff/hotstuff.go:75-114 | a block whose certificate fails verification gets a vote |
| `ReplicaRuns.UnsignedIsVoted` | crypto/sign.go:107-120 | so does one whose certificate nobody signed |
| `ReplicaRuns.OtherParentIsVoted` | hotstuff/hotstuff.go:70-114 | so does a block of view 3 that carries the certificate of genesis |
| `ReplicaRuns.RelabelledIsVoted` | hotstuff/hotstuff.go:70-114 | so does one whose certificate is for its parent and states another view |
| `ReplicaRuns.LaterCertificateIsVoted` | hotstuff/hotstuff.go:75-78 | so does one that names the replica as proposer and carries a certificate of a view that is not below its own |
| `ReplicaRuns.UnsignedCommits` | crypto/sign.go:107-120 | blocks of views 1 to 3 and a timeout with a certificate that nobody signed: a commit |
| `ReplicaRuns.UnverifiedCommits` | hotstuff/hotstuff.go:239-245 | the same with a signature that does not check, in a certificate that names the replica as its builder |
| `ReplicaRuns.RelabelledCommits` | hotstuff/hotstuff.go:293-306 | blocks of views 1, 2 and 4 and a certificate for the last that states view 3: the first is committed, and the blocks are not consecutive |
| `ReplicaRuns.UnsignedForksSplit` | hotstuff/hotstuff.go:234-306 | two replicas that get two forks in that way commit blocks of which neither is an ancestor of the other |
| `ReplicaArrivals.RunVotesOnce` | hotstuff/hotstuff.go:55-121 | if no view is proposed twice, a replica votes at most once in each view, buffered blocks included |
| `ReplicaArrivals.RunVotesUpwards` | hotstuff/hotstuff.go:55-121 | if blocks arrive in increasing views, votes are cast in increasing views |
| `ReplicaForest.PruneOnHeap` | blockchain/leveled_forrest.go:51-87 | when a replica prunes below a stored block, the containers on the heap hold the result; if the ids it meets have distinct levels, the walk does not fail |
| `ReplicaForest.RunOnHeap` | hotstuff/hotstuff.go:55-332 | over every run of blocks whose views belong to their ids, the forest of the replica is one that well-formed containers hold, with one per level if levels are distinct |
| `ReplicaLock.RunLocks` | hotstuff/hotstuff.go:226-332 | over every run with genuine certificates the preferred view is 0 or below the view of the highest certificate |
| `ReplicaLock.OwnProposalIsSafe` | hotstuff/hotstuff.go:173-190 | a stored block that extends the highest certificate always passes the replica's own voting rule |
| `Agreement.QuorumsMeet` | blockchain/quorum.go:116-118 | with at most floor((n - 1) / 3) faulty replicas, two sets of more than floor(2n / 3) share an honest one |
| `Agreement.OneCertifiedPerView` | blockchain/quorum.go:89-118 | one view has at most one certified block |
| `Agreement.ParentNotBelow` | hotstuff/hotstuff.go:279-332 | the parent of a later certified block is certified and not below the first of three consecutive certified blocks |
| `Agreement.CertifiedDescends` | hotstuff/hotstuff.go:279-332 | every certified block that is not below a committed one descends from it |
| `Agreement.CommitsAgree` | hotstuff/hotstuff.go:293-306 | any two blocks within the commit rule lie on one chain |
| `Agreement.SignedIsCertified` | crypto/sign.go:107-120 | good signatures of more than two thirds on an identifier are votes of as many replicas for its block, the faulty ones apart |
| `Agreement.MemberBehaves` | hotstuff/hotstuff.go:55-332 | from the conditions on a run of an honest replica follow increasing votes, locks, rules and certificates of everything it puts out |
| `Agreement.HonestCommitsAgree` | hotstuff/hotstuff.go:55-332 | agreement: in any runs of the handlers at the honest replicas that meet the exact conditions for seven rules on votes and three on commits, with at most a third of the replicas faulty, any two blocks that honest replicas commit lie on one chain; of signatures it takes only that honest replicas sign what they vote for |
| `CommitChains.HonestCommitsFormChain` | blockchain/blockchain.go:70-99 | under the same hypotheses all that an honest replica commits, path after path, is one parent-linked chain if and only if the oldest block of each path has its parent stored or is a child of the block committed before |
| `AgreementExample.HypothesesCanBeMet` | hotstuff/hotstuff.go:55-332 | four replicas, one of them faulty, meet all these hypotheses: one builds certificates from the votes of three, two get them with the next blocks, and all three commit |

## Left out

- The protocols streamlet, lbft, tchs and fasthotstuff, which the replica does not start.
- The sampling branch of the executor (execute/execute.go:151-178): it skips entries in the middle of the queue and
  drops a prefix by count, so what is proved of the other two branches does not apply to it.
- The naive and timed mempools, and `RemoveMicroblock` and `FillProposal*` of the ack mempool, which the replica does
  not call or which repeat easier versions of what is modelled.
- The priority queue, database, transaction pool, election and group assignment: easy members only.
- Hashing, signatures and encodings: parameters. Whether one signature on an identifier checks is for the environment
  to say; what is made of single checks is modelled. The two lists of a certificate are a set of pairs, as nothing
  depends on their order or counts repeats; a list of signatures shorter than that of signers, or a signer without a
  key, makes the source panic and is not modelled.
- Byzantine strategies of a replica: they inject faults. In the agreement theorem faulty replicas are not modelled;
  what they send is limited only by the conditions on the runs of the honest ones.
- Sockets, configuration, logging and measurement. Mutexes and channels: each handler is one step.
- `NewBucketWithRate` and `Rate` (floating point), and overflow of int64 in the limiter: its integers are unbounded.
- `VerifyVertex` (blockchain/leveled_forrest.go:204-284), which adding a block does not call.
- TokenBucket.Bucket.TakeMaxDuration: `Take` is the case of the largest duration; the clock is a parameter that does
  not go back.
- AckMem.Mempool.AddMicroblock: microblocks are values, so a later change of a shared microblock is not seen by another
  holder; transactions are counted rather than listed, and ack signatures are dropped.
- AckMem.Mempool.GeneratePayload: sorting is any sorted permutation, as the library sort is not stable.
- AckMem.ProposalRoundTrip: a pending block is always complete, because the missing map handed to it is empty.
- CoopExecutor.RunSafe: asks that a microblock that is sent again carries the number of the entry it replaces.
- ExecutorNumbers.UnreportedIffHarms: in plain mode the condition is shown to be necessary and not sufficient: there a
  quorate entry may stay queued, and be retired with others before the harmful one is.
- LevelledForests.LevelledForest.AddVertex: asks for a certificate in the block, without which the source fails.
- LevelledForests.LevelledForest.PruneUpToLevel: asks that the forest is well-formed, which the source asks of its
  callers; the check of a parent below the lowest level cannot fail then and is not modelled.
- BlockChains.BlockChain.CommitBlock: the number of pruned containers is returned and not summed in a counter; the loop
  keeps the votes and the sum in local variables until it ends; views are not negative.
- Replicas.HotStuff.HandleCertificate: the replica holds its forest and votes as values, and does not report forked
  blocks; that the objects on the heap change like these values is what the classes `LevelledForest`, `BlockChain` and
  `Quorum` are proved to do, and `ReplicaForest.RunOnHeap` that they can.
- Replicas.BufferedBlocksDescend: every handler returns; a pruning whose walk fails ends the program in the source, and
  is modelled in `LevelledForests` and `BlockChains` only.
- ReplicaLock.RunLocks: asks that certificates state the view of their block and are for the parent of the block that
  carries them, as leaders build them; that is sufficient, and no exact condition is given.
- ReplicaLock.OwnProposalIsSafe: the same.
- ReplicaForest.RunOnHeap: asks that the views of blocks belong to their ids, without which the containers need not be
  well-formed.
- ReplicaArrivals.RunVotesOnce: distinct proposed views are sufficient, not necessary; the exact condition is that of
  `ReplicaVotes.RunObeysIff`.
- ReplicaArrivals.RunVotesUpwards: the same for increasing arrivals.
- Agreement.HonestCommitsAgree: asks for the exact conditions of `ReplicaVotes.RunObeysIff` and
  `ReplicaCommits.RunMeetsIff`, which the handlers do not enforce (hotstuff/hotstuff.go:70-78, 236-245 and 308,
  crypto/sign.go:107-120); that a run that breaks one of them ends in disagreement is shown for one of them only.
  It also asks for two things that the source does not check. An identifier belongs to one block: it is a hash of the
  block (blockchain/block.go:217-227), but a receiver does not compute it again. And an honest replica signs only
  identifiers of blocks that it votes for: proposals (line 226) and acknowledgements (blockchain/quorum.go:54) are
  signed in the same way as votes.
- CommitChains.HonestCommitsFormChain: the same.
