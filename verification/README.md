# Consensus protocols: a Dafny model

The project models the protocol cores of a framework of Byzantine fault tolerant consensus protocols and
proves their safety. Each protocol is a set of functions from the state of one replica to its next state,
one per handler, with the same branches and errors as the code; a system is a map of correct replicas,
what they have sent, and an adversary that speaks for at most f of n = 3f+1 peers. Results are about all
runs: messages are delivered in any order, repeatedly or never. Where the code updates fields, the same
handlers are written a second time as methods of a class, with the code's loops, and proved to compute
those functions, so that the results hold of the imperative form as well. Of these methods the table lists
those with loops, recursion or many branches; the others are in the same classes.

| files | what they hold |
|---|---|
| `Quorums`, `Sequences` | peers, quorum intersection; one fact about reordered sequences |
| `HotStuffBlocks`, `HotStuffNode`, `HotStuffReplica` | chained HotStuff: block tree, handlers as functions, handlers as methods |
| `HotStuffSafety`, `HotStuffRuns`, `HotStuffSystem`, `HotStuffLeaf`, `HotStuffProgress`, `HotStuffLimits` | vote history and lock lemma, what handlers keep, runs and results, the highest certified block, votes counted and blocks proposed, what fails with weaker proposals |
| `Slots`, `SlotAgreement`, `SlotCommits` | one PBFT slot, agreement on it and the quorums of its statuses, shared by both layers of DQPBFT and by Dispel's broadcast |
| `DqNode`, `DqExec`, `DqOrdering`, `DqReplication`, `DqRuns`, `DqSystem`, `DqCommits`, `DqProgress`, `DqStatus`, `DqLimits`, `DqReplica` | DQPBFT: handlers, delivery loop, the two layers, runs and results, commit quorums, what is not put off, what an unrestricted run can lose, the failing run, methods |
| `DispelBinary`, `DispelLocal`, `DispelAgreement`, `DispelTimers`, `DispelPasses`, `DispelLimits` | DBFT: one instance, its local invariant, runs and results, timers and thresholds, what a pass leads to, the failing run |
| `DispelNode`, `DispelCounters`, `DispelRuns`, `DispelSystem`, `DispelReadies`, `DispelFirstVote`, `DispelProgress`, `DispelCommands`, `DispelGate`, `DispelReplica` | Dispel: whole replicas, counters and gate, runs and results, the quorums of finished broadcasts, the vote that starts consensus, what is not put off, the commands delivered, the run that opens the gate too early, methods |
| `DuoNode`, `DuoPaths`, `DuoQuorums`, `DuoReplica` | DuoBFT with pending signature callbacks: the two paths, the quorums behind them, methods |
| `PbftSelection`, `PbftDominance`, `PbftOrder` | PBFT's choice of instances for a new view |
| `PrimeFrontier`, `PrimeNode`, `PrimeExec`, `PrimeRuns`, `PrimeSystem`, `PrimeCommands`, `PrimeQuorums`, `PrimeSummaries`, `PrimeLimits`, `PrimeTwoCommands`, `PrimeFaultyLeader`, `PrimeReplica` | Prime: the frontier, handlers as functions, execution, what a replica keeps whatever it receives, runs and results, the commands executed, the quorums of ordering slots, what leaders order, the failing runs, methods |
| `Hybster`, `ReqBuf`, `Varints`, `Codec` | Hybster's view transition, the request buffer, the protobuf encoding |

## Assumptions

- Hashes are injective: a digest is the thing it digests, or junk. Signatures are facts about their signer. A
  panic, a fatal log line or a nil dereference ends the replica; what its handler was about to sign is not sent.
- HotStuff: the height guard, the certificate check and the vote of one proposal are one step, although the
  check runs in a dispatcher. Heights and the place of the certified block are hypotheses on proposals, in a
  weak form for safety and a strict form for execution; `propose` meets both. Messages a replica sends itself
  travel like others, and a queued proposal or vote is one that is delivered again later. Each signer has a key of
  its own; the repository's signer.go builds in one key pair for all, and verifies neither the map key nor the
  Signer field of an entry against the signature. The sender of a proposal is not compared with its Proposer, so
  the adversary may send proposals in any peer's name.
- DQPBFT: nothing beyond f for the order; for agreement on an instance either that a request takes an id on which
  its replica has not voted, or that pre-prepares come from the owner of their id. The code checks neither.
- Dispel: the channel delivers one Aux message per sender and round, and one estimate per sender, round and value;
  correct senders are proved to keep to it. A restart is called sound if it proposes a value that some pass of the
  Aux guards of its round has left. Where one decided instance has no broadcast, exec either waits or fails on a nil
  pointer, depending on Go's map order; the model waits if another decided broadcast is unfinished and fails
  otherwise.
- DuoBFT: a message of another view ends the replica and is not modelled, so certificates are indexed by sender.
- Prime: the executed order is compared in runs whose prepares and commits carry no matrix, as correct replicas send
  them; everything about one replica holds whatever it receives. A matrix is a value: rows are
  not shared with the summaries they were read from. The view of the ordering layer is fixed.
- The request buffer's index counts without the 32-bit wrap-around, which more than two thousand million waiting
  adders would need. Go's lock may delay readers further than the model does.
- The codec works on slices shorter than 2^63 bytes; an absent and an empty byte slice are the same.

## Where the code does not do what it is for

- DQPBFT: `onPrePrepare` does not compare the sender with the owner of the InstanceID, and `onRequest` overwrites the
  log. An owner can so vote twice, and correct replicas can commit different hashes for one InstanceID
  (DqLimits.OwnerVotesTwice; DqStatus.OneBallotIff and LayerOutlivesIff say when a request does no harm). The same
  overwriting is the only way in which an instance moves back in status (DqStatus.FallsIff).
- Dispel: a late Aux message of an earlier round re-evaluates that round and overwrites the estimate of the round of
  the decision, which a restart then proposes. Correct replicas can so decide differently
  (DispelLimits.DecisionsDiffer; DispelAgreement.LateAuxIff says when a message overwrites, SteadyDecisionsAgree what
  to ask of each step).
- Dispel: broadcast and consensus messages for ids outside the peers are accepted and counted, so the gate of `exec`
  can open while no peer at all is decided (DispelGate.DeliveredUndecided).
- HotStuff: `update` sets bExec without a test; with weakly well-formed proposals it falls back and a command is
  executed again (HotStuffLimits.WeakProposalsExecuteTwice: one block that is not strictly well-formed is enough).
- PBFT: `verifyA1` lets entries for other indices speak against an entry, so an index that everybody has prepared can
  stay a hole, and two commands prepared in one view for two indices block each other and the new view; `verifyA2`
  counts entries, for whatever index, and not senders; the selected entry depends on map order, so a correct new view
  can be refused (PbftOrder.OrderMatters).
- Prime: `onPORequest` does not compare the sender with the replica of the InstanceID, and `onRequest` overwrites the
  log. A replica can so vote twice under an id of its own, and correct replicas can acknowledge different commands for
  it (PrimeTwoCommands.TwoCommands; PrimeCommands.CommandsAgree holds for every id under which its replica, if correct,
  has voted once, and OwnedSayOnce says where it does).
- Prime: a slot made by a prepare or a commit keeps the matrix that came with it, and `updateOCommand` compares only the
  rows that it holds. A faulty peer can so give a correct replica a shorter matrix than the leader ordered
  (PrimeLimits.PlantedMatrix; PrimeSystem.HeldMatrixIff says when).
- Prime: a pre-prepare that is refused for its digest leaves its matrix in the slot. A faulty leader can so make a
  replica vote for one matrix and keep the beginning of it, for every f of at least 1; the executed order is the same
  everywhere if and only if the leader is correct (PrimeFaultyLeader.TotalOrderIff).
- Hybster: `sort.Slice` is not stable, so which of two prepares of one order survives is not determined.

## Model

| member | source | states |
|---|---|---|
| Quorums.QuorumIntersection | protocols/dqpbft/quorum.go:41-59 | two sets of 2f+1 among 3f+1 peers, at most f of them faulty, share a correct peer |
| HotStuffReplica.BuildQuorumCert | protocols/chainhotstuff/signer.go:55-72 | the loop builds a certificate or refuses it exactly as the fold over the votes does |
| HotStuffNode.CertContents | protocols/chainhotstuff/signer.go:55-72 | a certificate is built if and only if all votes are for the block and no signer occurs twice, and it then holds exactly the votes' signatures |
| HotStuffReplica.CheckQuorumCert | protocols/chainhotstuff/signer.go:74-107 | true if and only if the certificate is the genesis one or at least a quorum of distinct signers has a valid signature |
| HotStuffRuns.VerifiedMeansCertified | protocols/chainhotstuff/signer.go:74-107 | a certificate that passes stands for 2f+1 distinct peers, whose correct members have voted for the block |
| HotStuffRuns.VotesCertify | protocols/chainhotstuff/block.go:215-235 | the certificate that a leader builds from 2f+1 verified votes verifies everywhere and certifies its block |
| HotStuffReplica.Replica.DoBeat | protocols/chainhotstuff/pacemaker.go:41-54 | the leader of the next height proposes once per height of bLeaf; nobody else changes anything |
| HotStuffRuns.ProposeKeeps | protocols/chainhotstuff/block.go:65 | what propose builds is strictly well-formed: height one above its parent, and the parent is the certified block |
| HotStuffReplica.Replica.IsSafe | protocols/chainhotstuff/block.go:109-127 | the walk over the store decides the two safe-to-vote tests |
| HotStuffReplica.Replica.HandlePropose | protocols/chainhotstuff/block.go:78-170 | the whole new state after a proposal, with the leader test, the height guard, the certificate check, the vote and the update |
| HotStuffRuns.AcceptsMeansVoteOK | protocols/chainhotstuff/block.go:109-127 | every accepted proposal meets the voting rule that safety rests on: it extends the lock, or its certified block is higher than the lock |
| HotStuffReplica.Replica.DoUpdate | protocols/chainhotstuff/block.go:257-288 | lock, three-chain test, commit and bExec, as one state change |
| HotStuffReplica.Replica.DoCommit | protocols/chainhotstuff/block.go:319-331 | the recursion executes what CommitCmds lists, parent first |
| HotStuffReplica.Replica.HandleVote | protocols/chainhotstuff/block.go:172-235 | votes for a stored, newer block are appended as they come, repeated ones too; at the quorum they become a certificate, or a repetition ends the replica |
| HotStuffReplica.Replica.HandleNewView | protocols/chainhotstuff/newview.go:27-69 | 2f+1 new-view messages of distinct peers for one view make the leader beat |
| HotStuffSafety.CertifiedUnique | protocols/chainhotstuff/block.go:89-92 | at most one block is certified at each height, because no correct replica votes twice at a height |
| HotStuffSafety.LockLemma | protocols/chainhotstuff/block.go:108-127 | once a three-chain down to a block is certified, every certified block at or above that block's height equals or extends it |
| HotStuffSafety.DecidableOnOneBranch | protocols/chainhotstuff/block.go:257-288 | any two blocks that have become decidable are on one branch, the higher one above the lower one |
| HotStuffSystem.StepKeeps | protocols/chainhotstuff/block.go:78-288 | every delivery, request and adversary step keeps the whole invariant of votes, locks, stores and messages |
| HotStuffSystem.Safety | protocols/chainhotstuff/block.go:108-288 | in every run with at most f faulty peers and weakly well-formed proposals, any two blocks committed by correct replicas lie on one branch |
| HotStuffSystem.LocksOnlyRise | protocols/chainhotstuff/block.go:272-275 | in every step no correct replica's lock loses height, and the lock is a certified block |
| HotStuffLeaf.VoteSees | protocols/chainhotstuff/block.go:257-265 | a vote leaves bLeaf at the higher of what it was and the block that the proposal certifies, with highQC for it |
| HotStuffLeaf.QuorumSees | protocols/chainhotstuff/block.go:215-235 | so do the votes that make a certificate, for the block voted for |
| HotStuffLeaf.QuorumProposes | protocols/chainhotstuff/block.go:215-235 | and the leader of the next height then proposes on it: one higher, with the new certificate and the first queued command |
| HotStuffLeaf.NewViewSees | protocols/chainhotstuff/newview.go:45-49 | so does a new-view message whose certificate is valid, and no other |
| HotStuffLeaf.LeafOnlyRises | protocols/chainhotstuff/block.go:237-255 | in every step of every run bLeaf loses no height, is certified, and highQC is for it |
| HotStuffLeaf.LeafIsHighest | protocols/chainhotstuff/block.go:237-255 | in every run no stored block certifies anything above bLeaf, nor is the lock above it |
| HotStuffProgress.VoteCounts | protocols/chainhotstuff/block.go:172-221 | a valid vote short of a quorum is added to those for its block, and no vote that is still of use is forgotten |
| HotStuffProgress.VoteIgnored | protocols/chainhotstuff/block.go:188-212 | a vote for an unknown or passed block changes nothing, a forged one ends the replica |
| HotStuffProgress.VotesRaiseLeaf | protocols/chainhotstuff/block.go:172-255 | 2f+1 votes of different peers make their block bLeaf, with a certificate of exactly these signers, and make the leader of the next height propose on it unless it has |
| HotStuffProgress.VotesIff | protocols/chainhotstuff/block.go:78-151 | a proposal is voted for if and only if its certificate is for a stored block above the lock or it extends the lock through stored blocks; which others are ignored and which end the replica |
| HotStuffProgress.NewViewProposes | protocols/chainhotstuff/newview.go:27-69 | the reports of 2f+1 peers for one height make the next leader propose, fewer do not, and no report is forgotten before bLeaf passes its height |
| HotStuffProgress.NewViewNeedsCertificate | protocols/chainhotstuff/newview.go:42-49 | a new-view message without a certificate ends the replica |
| HotStuffProgress.RequestQueues | protocols/chainhotstuff/request.go:5-9 | a request is queued behind the others and proposed as soon as a proposal is due |
| HotStuffProgress.ProposalsRise | protocols/chainhotstuff/pacemaker.go:41-54 | whatever a replica receives, the heights that it proposes rise strictly: one block per height at most |
| HotStuffProgress.FirstProposal | protocols/chainhotstuff/block.go:55-76 | at first the leader of height 1 has proposed a block on genesis, and nobody else anything |
| HotStuffProgress.LeadersRotate | protocols/chainhotstuff/pacemaker.go:56-58 | each height is led by the successor of the leader before, from replica 0 at genesis |
| HotStuffSystem.CommitCompletesPath | protocols/chainhotstuff/block.go:319-331 | from an executed ancestor, commit runs exactly the commands above it on the path, in order |
| HotStuffSystem.Execution | protocols/chainhotstuff/block.go:282-331 | in every strict run a correct replica has executed exactly the non-empty commands on the path from genesis to bExec, and of two correct replicas one has executed a prefix of the other |
| HotStuffSystem.ExecutedOnlyRises | protocols/chainhotstuff/block.go:282-286 | in every step of a strict run bExec stays or strictly rises and executed commands are only appended |
| HotStuffLimits.WeakProposalsExecuteTwice | protocols/chainhotstuff/block.go:282-286 | a run of the system with one faulty peer of four and one block that is not strictly well-formed: bExec falls back, and three strict blocks later commands are executed a second time |
| HotStuffLimits.StrictIff | protocols/chainhotstuff/block.go:65 | of the blocks of that run all but the sixth are strictly well-formed |
| HotStuffLimits.DecisionKeepsPathIff | protocols/chainhotstuff/block.go:282-286 | a decision keeps the executed commands equal to the path to bExec if and only if it does not fall back over a command |
| Slots.Log | protocols/dqpbft/quorum.go:24-39 | a message is accepted if and only if its view is not lower than any before and its sender is new in that view; nothing else changes |
| Slots.PrePrepareSlotOK | protocols/dqpbft/cinstance.go:59-106 | a pre-prepare gets through only where the replica has cast nothing, so the unconditional status assignment never falls; the hash is set, the payload kept |
| Slots.PrepareSlotOK | protocols/dqpbft/cinstance.go:108-136 | a prepare adds one entry, keeps the hash once set, and never lowers the status |
| Slots.CommitSlotOK | protocols/dqpbft/cinstance.go:139-156 | a commit leaves the prepare certificate, the payload and a set hash alone |
| SlotCommits.PrePrepareIff | protocols/dqpbft/cinstance.go:59-107 | a pre-prepare prepares a slot if and only if more than 2f entries then agree, and commits it if and only if more than 2f commits do |
| SlotCommits.PrepareIff | protocols/dqpbft/cinstance.go:109-137 | so does a prepare |
| SlotCommits.CommitIff | protocols/dqpbft/cinstance.go:139-156 | a commit takes a prepared slot to committed if and only if, with it, more than 2f entries equal it |
| SlotAgreement.Agreement | protocols/dqpbft/quorum.go:41-59 | two correct replicas that have prepared one slot hold the same hash |
| SlotAgreement.PreparedPayload | protocols/dqpbft/oinstance.go:127-182 | where replicas follow the slot's leader, a prepared slot's hash is that of its payload |
| DqExec.CompleteIffDistinct | protocols/dqpbft/exec.go:28-43 | a ready batch is delivered to its end if and only if its ids are distinct |
| DqExec.ReachedReady | protocols/dqpbft/exec.go:28-43 | the ids that the delivery loop reaches are distinct and have their commands |
| DqExec.DeliverAllAppends | protocols/dqpbft/exec.go:28-43 | what the delivery loop appends, and that it fails exactly when it does not reach the end of the batch |
| DqExec.TakeAllRetires | protocols/dqpbft/exec.go:28-43 | exactly the instances reached become executed and lose their command |
| DqExec.ExecSpec | protocols/dqpbft/exec.go:9-47 | exec keeps delivered equal to the concatenated batches of the slots passed, and stops only where the next slot cannot be delivered |
| DqOrdering.SendCRequestKeepsO | protocols/dqpbft/oinstance.go:73-125 | a leader orders a batch under an index on which it has not voted, and keeps the ordering invariant |
| DqOrdering.OPrePrepareStep | protocols/dqpbft/oinstance.go:127-182 | an ordering pre-prepare of the leader yields a backed slot that follows the leader, with the batch its hash stands for |
| DqOrdering.OPrepareStep | protocols/dqpbft/oinstance.go:184-217 | an ordering prepare keeps the ordering invariant of its slot |
| DqOrdering.OCommitStep | protocols/dqpbft/oinstance.go:220-237 | an ordering commit keeps the ordering invariant of its slot |
| DqReplication.ExecKeepsC | protocols/dqpbft/exec.go:9-47 | delivery keeps the replication invariant: delivered ids are executed, distinct, and carry the command their hash stands for |
| DqRuns.OnPrePrepareGood | protocols/dqpbft/cinstance.go:59-106 | a replication pre-prepare keeps both layers' invariants and lets no slot fall |
| DqRuns.OnRequestGood | protocols/dqpbft/request.go:8-51 | a request on an id the replica has not voted on keeps both invariants and lets no slot fall |
| DqSystem.StatusMonotone | protocols/dqpbft/cinstance.go:77-105 | in every step no ordering slot moves back in status, and no instance does where ids are fresh or owned |
| DqStatus.FallsIff | protocols/dqpbft/cinstance.go:77-105 | in any run at all, a step moves an instance of a replica back if and only if it is a request at that replica whose next id is already prepared or beyond |
| DqStatus.RequestFallsIff | protocols/dqpbft/request.go:11-31 | onRequest moves an instance back, at the ordering leader too, if and only if the id it takes is already prepared or beyond |
| DqSystem.OrderingAgreement | protocols/dqpbft/oinstance.go:127-237 | in every run, also with a faulty leader, correct replicas that have prepared one ordering slot hold the same hash and the same batch |
| DqCommits.OrderingCommitted | protocols/dqpbft/oinstance.go:220-237 | in any run a committed ordering slot has more than 2f equal commits for its digest |
| DqCommits.InstanceCommitted | protocols/dqpbft/cinstance.go:139-156 | so has a committed instance; without the assumption on runs the commits may have no digest |
| DqProgress.NothingHeldBack | protocols/dqpbft/exec.go:9-47 | in any run a live replica has delivered all it can: the next ordering slot is not committed, or an id of its batch is not committed with its command |
| DqProgress.CollectsIff | protocols/dqpbft/oinstance.go:60-124 | an id more for the leader is buffered behind the others, and the buffer is ordered as the next slot if and only if it fills a batch |
| DqProgress.TimerOrders | protocols/dqpbft/oinstance.go:73-124 | the batch timer orders what the leader has buffered, however little, as the next slot |
| DqProgress.NeedsCommand | protocols/dqpbft/cinstance.go:59-65 | a pre-prepare without a command ends the replica, once the leader has noted its id |
| DqProgress.BufferAndTally | protocols/dqpbft/exec.go:39-42 | in any run the leader's buffer is below the batch size, and nextDeliver counts each owner's deliveries |
| DqSystem.TotalOrder | protocols/dqpbft/exec.go:9-47 | in every run whatever, of two correct replicas one has delivered a prefix of the InstanceIDs of the other |
| DqSystem.InstanceAgreement | protocols/dqpbft/cinstance.go:46-155 | correct replicas that have prepared one InstanceID hold the same hash, where requests take fresh ids or pre-prepares come from owners |
| DqSystem.DeliveredOnce | protocols/dqpbft/exec.go:28-43 | no InstanceID is delivered twice, under the same condition |
| DqSystem.CommandsAgree | protocols/dqpbft/exec.go:36-41 | where pre-prepares come from owners, correct replicas deliver equal commands at equal positions |
| DqLimits.OwnerVotesTwice | protocols/dqpbft/request.go:11-42 | per-instance agreement fails in an unrestricted run: two correct replicas commit different hashes for one InstanceID |
| DqStatus.OneBallotIff | protocols/dqpbft/request.go:11-42 | a request leaves the replica with one ballot on its id if and only if it had cast none, or the same one |
| DqStatus.LayerOutlivesIff | protocols/dqpbft/request.go:11-42 | the invariant that agreement rests on outlives a request if and only if no correct replica holds another ballot of the requester on the id |
| DqReplica.CountMajority | protocols/dqpbft/quorum.go:41-59 | the counting loop decides whether more than 2f logged messages are equal to the given one |
| DqReplica.RunPrePrepare | protocols/dqpbft/cinstance.go:59-106 | the step-by-step pre-prepare computes the slot function, with every halt |
| DqReplica.RunPrepare | protocols/dqpbft/cinstance.go:108-136 | the same for a prepare |
| DqReplica.RunCommit | protocols/dqpbft/cinstance.go:139-156 | the same for a commit |
| DqReplica.Replica.RunExec | protocols/dqpbft/exec.go:9-47 | the loop with its cursor is the recursive exec; it terminates on the committed slots left |
| DispelLocal.OnEstimateKeeps | protocols/dispel/dbft.go:136-168 | an estimate, echo and candidate step keeps what one replica knows: each supported value is its own proposal or has f+1 senders |
| DispelLocal.AfterAuxKeeps | protocols/dispel/dbft.go:307-357 | a pass is recorded with a quorum of senders, and a decision is a pass that saw one value of the round's parity |
| DispelLocal.RestartKeeps | protocols/dispel/dbft.go:200-208 | a restart proposes a known value; a sound one the value of a pass |
| DispelAgreement.Justification | protocols/dispel/dbft.go:97-168 | a value is in a correct replica's binValues only if a correct replica introduced it in that round |
| DispelAgreement.SendsOnce | protocols/dispel/dbft.go:117-131 | where a correct replica sends an estimate or an Aux message it has not sent one before, and its Aux set is unique and not empty |
| DispelAgreement.Convergence | protocols/dispel/dbft.go:307-357 | once v is decided in a round, every pass of that round's Aux guards, early or late, leaves the estimate v |
| DispelAgreement.Binary | protocols/dispel/dbft.go:97-133 | correct replicas only propose 0 and 1, whatever faulty ones send |
| DispelAgreement.Persists | protocols/dispel/dbft.go:330-355 | with sound restarts, unanimity of a round carries over to all later ones |
| DispelAgreement.DecisionsAgree | protocols/dispel/dbft.go:307-357 | with sound restarts no two correct replicas decide differently, in whatever rounds |
| DispelAgreement.SteadyRunsSound | protocols/dispel/dbft.go:202-207 | restarts are sound in a run each of whose steps leaves the estimate of the decided round at the decided value and restarts no other round |
| DispelAgreement.SteadyDecisionsAgree | protocols/dispel/dbft.go:307-357 | so in such a run no two correct replicas decide differently |
| DispelAgreement.DecisionValid | protocols/dispel/dbft.go:307-357 | with sound restarts a decided value was proposed by a correct replica in round 1 |
| DispelLimits.DecisionsDiffer | protocols/dispel/dbft.go:202-207 | without that condition agreement fails: a run with one faulty replica of four in which correct replicas decide 0 and 1 |
| DispelLimits.LateAux | protocols/dispel/dbft.go:335-355 | the step that breaks it: a late Aux message of an earlier round overwrites the estimate of the decided round |
| DispelAgreement.LateAuxIff | protocols/dispel/dbft.go:307-357 | in every reachable state an Aux message changes the estimate of the decided round away from the decided value if and only if it belongs to the round before, the guards pass, and the values passed give another estimate |
| DispelTimers.NoEstimateInVain | protocols/dispel/dbft.go:154-167 | in every run with f > 0, a value received from f+1 peers has been sent along and one received from 2f+1 is a candidate, although the thresholds are tested for equality |
| DispelTimers.AloneInVain | protocols/dispel/dbft.go:117-132 | with f = 0 they are not: the replica's own estimate is the 2f+1st and makes no candidate |
| DispelTimers.EstimateCounts | protocols/dispel/dbft.go:154-167 | an estimate is echoed if it is the f+1st, and makes its value a candidate if and only if it is the 2f+1st |
| DispelTimers.AuxInTime | protocols/dispel/dbft.go:193-278 | in every run the first candidate sets the timer, and the Aux message is out if and only if it has expired, except on a vote for a finished broadcast |
| DispelPasses.AuxCounts | protocols/dispel/dbft.go:298-327 | an Aux message makes a round pass if and only if the replica has sent its own, the senders are then more than 2f, and all values seen are candidates |
| DispelPasses.PassDecides | protocols/dispel/dbft.go:329-343 | a pass leaves the one value seen, or the round's parity, as the estimate, and decides if and only if that parity alone was seen and nothing was decided |
| DispelPasses.PassGoesOn | protocols/dispel/dbft.go:345-356 | after a pass the replica stops two rounds after its decision, waits in the round of it for both values, and proposes its estimate for the next round otherwise |
| DispelPasses.CandidateEndsWait | protocols/dispel/dbft.go:202-208 | a replica that waits proposes its estimate when the second value becomes a candidate |
| DispelCounters.OnRbKeeps | protocols/dispel/rb.go:67-183 | a broadcast message keeps rbDoneCount equal to the finished broadcasts and consDoneCount to the decided instances |
| DispelCounters.OnConsKeeps | protocols/dispel/dbft.go:136-304 | so does a consensus message, for whatever peer and round |
| DispelCounters.ExecKeeps | protocols/dispel/exec.go:5-41 | so does exec; each delivered epoch rests on 3f+1 decided instances and on finished broadcasts |
| DispelCounters.GateMeansAllDecided | protocols/dispel/exec.go:8 | the open gate means that all peers have decided if and only if no instance of a non-peer has |
| DispelGate.DeliveredUndecided | protocols/dispel/exec.go:5-41 | a run with one faulty replica of four in which the gate opens and the epoch is delivered although no peer's instance has decided |
| DispelCounters.GateMeansReadied | protocols/dispel/exec.go:8 | the open gate means that the threshold of broadcasts has finished |
| DispelSystem.BroadcastAgreement | protocols/dispel/rb.go:67-183 | in every run, correct replicas that have sent Ready for, or finished, one broadcast hold the same hash |
| DispelSystem.CountersExact | protocols/dispel/rb.go:102-111 | in every reachable state both counters are exact |
| DispelReadies.BroadcastFinished | protocols/dispel/rb.go:157-183 | in every run a finished broadcast has more than 2f equal Readies for its hash |
| DispelFirstVote.TryStartVotes | protocols/dispel/dbft.go:63-82 | at the threshold every peer's live instance gets its first vote: 1, as a candidate and in an Aux, if the broadcast has finished, and the estimate 0 and no new 1 otherwise |
| DispelFirstVote.RBDoneVotes | protocols/dispel/dbft.go:84-95 | after the threshold a broadcast that finishes is voted 1, as a candidate and in an Aux |
| DispelFirstVote.VotesOneForFinished | protocols/dispel/dbft.go:63-95 | in every run the first votes are 0 and 1, none is given before the threshold, and 1 only where the broadcast has finished |
| DispelFirstVote.FinishedHaveVote | protocols/dispel/dbft.go:63-95 | in every run from the threshold on every peer's live instance has a first vote, and 1 is one where the broadcast has finished |
| DispelProgress.NothingHeldBack | protocols/dispel/exec.go:5-23 | in every run, where the gate of a live replica is open, an instance decided 1 has a broadcast that is begun and not finished |
| DispelProgress.DeliverAsks | protocols/dispel/exec.go:25-39 | an epoch delivers exactly the commands decided 1, and an own command decided 0, and nothing else, is asked for again |
| DispelProgress.FinishedAsks | protocols/dispel/rb.go:185-195 | so is one whose broadcast finishes after its instance has decided 0, unless exec has asked |
| DispelProgress.NeedsEpoch | protocols/dispel/dbft.go:136-146 | a consensus message of an unknown epoch ends the replica, any other reaches its instance, whatever exec does after it |
| DispelProgress.NeedsCommand | protocols/dispel/rb.go:67-70 | a Send without a command ends the replica |
| DispelSystem.EpochsAgree | protocols/dispel/exec.go:5-41 | with sound restarts and decisions of peers only, correct replicas that have delivered an epoch have delivered the same broadcasts with the same hashes |
| DispelCommands.CommandsAgree | protocols/dispel/exec.go:5-41 | they have delivered equal commands too, for every broadcast but their own |
| DispelReplica.UnionOf | protocols/dispel/dbft.go:318-321 | the loop computes the union of the Aux sets |
| DispelReplica.Instance.OnBVBroadcast | protocols/dispel/dbft.go:136-168 | the whole new state of an estimate, with both thresholds tested by equality |
| DispelReplica.Instance.AfterSendReceiveAux | protocols/dispel/dbft.go:307-357 | guards, estimate, decision and continuation, as one state change |
| DispelReplica.Replica.RunExec | protocols/dispel/exec.go:5-41 | the loop over epochs is the recursive exec, with its returns and its nil dereferences |
| DispelReplica.Replica.TryStartConsensus | protocols/dispel/dbft.go:63-82 | at the threshold every peer's instance is proposed, 1 for finished broadcasts and 0 for the others |
| DispelReplica.Replica.HandleBroadcast | protocols/dispel/rb.go:67-183 | the whole new state of a Send, Echo or Ready, with everything that finishing a broadcast sets off |
| DuoPaths.PathInclusion | protocols/duobft/instance.go:74-258 | after any interleaving, PreCommitted implies TCommitted and execute does not exceed tExecute |
| DuoPaths.OutputOrder | protocols/duobft/instance.go:221-258 | each path puts out, in strictly rising index order, exactly its own commands of the indices its cursor has passed |
| DuoPaths.OnPrepareKeeps | protocols/duobft/instance.go:74-101 | a Prepare gets through only once per index, so statuses never fall |
| DuoPaths.OnRequestKeeps | protocols/duobft/request.go:11-50 | a request takes an unused index, and the instance it may replace was never prepared |
| DuoPaths.PromoteKeeps | protocols/duobft/instance.go:168-176 | the trusted promotion is tried before the normal one on the same certificate |
| DuoPaths.ExecOneKeeps | protocols/duobft/instance.go:240-258 | whatever the normal path may execute, the trusted path has passed |
| DuoQuorums.QuorumsBehind | protocols/duobft/instance.go:113-219 | in every run a status stands for its quorum on the instance's own hash: f+1 trusted, 2f+1 for PreCommitted, 2f+1 commits for Committed; and from Prepared on the hash is that of the command |
| DuoQuorums.RisesIff | protocols/duobft/quorum.go:43-58 | in every run a step trusted-commits, pre-commits or commits an instance if and only if the message that it logs completes the quorum |
| DuoQuorums.OutputBacked | protocols/duobft/instance.go:221-258 | in every run a command that is output is its instance's, fits the hash, and has the quorum of its path |
| DuoQuorums.ConflictHalts | protocols/duobft/instance.go:39-63 | a message with another hash than its instance's, a Prepare with another command, or any message for index 0, ends the replica |
| DuoReplica.CountMajority | protocols/duobft/quorum.go:43-58 | the counting loop decides whether a quorum of the certificate's own size has equal messages |
| DuoReplica.Replica.RunTExec | protocols/duobft/instance.go:221-238 | the loop is the recursive trusted execution |
| DuoReplica.Replica.RunExec | protocols/duobft/instance.go:240-258 | the loop is the recursive normal execution |
| DuoReplica.Replica.HandlePrepare | protocols/duobft/instance.go:74-112 | the whole new state, a pending signature included |
| DuoReplica.Replica.HandlePreCommit | protocols/duobft/instance.go:156-201 | the whole new state, with both promotions |
| PbftSelection.VerifyA1 | protocols/pbft/pbft.go:360-377 | the labelled loops count the messages that yield to the entry |
| PbftSelection.VerifyA2 | protocols/pbft/pbft.go:379-394 | the loops count the QSet entries that support the entry |
| PbftSelection.GetInstanceAtIndex | protocols/pbft/pbft.go:346-358 | the first acceptable entry in iteration order |
| PbftSelection.ConstructNewView | protocols/pbft/pbft.go:301-344 | a new view if and only if all messages are acknowledged, there is something to carry over, and no index is a hole |
| PbftSelection.VerifyNewView | protocols/pbft/pbft.go:451-478 | the verdict of a backup's own selection |
| PbftDominance.SelectsEligible | protocols/pbft/pbft.go:346-358 | an entry is selected if and only if an acceptable one exists, and it is then acceptable |
| PbftDominance.Dominance | protocols/pbft/pbft.go:346-377 | if f+1 of at most 3f+1 messages report (v, d), for whatever indices, whatever is selected for any index is from a later view, or from v with hash d |
| PbftDominance.TwoCommandsBlock | protocols/pbft/pbft.go:366-372 | two commands that f+1 messages each report from the highest view leave every index without a selection |
| PbftDominance.NoNewView | protocols/pbft/pbft.go:301-344 | and so there is no new view |
| PbftDominance.PreparedIndexIff | protocols/pbft/pbft.go:346-377 | an index for which nothing but one supported entry is reported is filled if and only if 2f+1 messages start below it and have no entry for another index that speaks against it |
| PbftDominance.OlderIndexIsLost | protocols/pbft/pbft.go:366-372 | so an index that all four replicas have prepared can be left without a selection |
| PbftDominance.A2MeansSendersIff | protocols/pbft/pbft.go:379-394 | A2 means f+1 senders, for every f, if and only if no QSet supports the entry twice |
| PbftDominance.SupportIff | protocols/pbft/pbft.go:379-394 | an entry has support if and only if some QSet holds its hash in its view or a later one |
| PbftDominance.OneSenderSuffices | protocols/pbft/pbft.go:379-394 | one sender can be enough, with a QSet that holds one command under two indices |
| PbftOrder.OrderFreeIff | protocols/pbft/pbft.go:346-358 | the choice for an index is the same in every iteration order if and only if the messages' first acceptable entries agree |
| PbftOrder.OwnOrderPasses | protocols/pbft/pbft.go:451-478 | in the order in which it was constructed a new view passes the check |
| PbftOrder.CheckIff | protocols/pbft/pbft.go:469-476 | a new view passes if and only if it holds, for every index, what the replica itself selects, with the same index, hash and view |
| PbftOrder.VerifiesInEveryOrder | protocols/pbft/pbft.go:451-478 | a constructed new view passes every check over the same messages, in any order, if and only if that holds for every index |
| PbftOrder.OrderMatters | protocols/pbft/pbft.go:346-358 | with one faulty sender of four, a new view constructed in one order fails the check made in another |
| PrimeFrontier.SelectFrontier | protocols/prime/exec.go:33-45 | copying, sorting and indexing a column yields the highest index that n-f rows reach |
| PrimeFrontier.SortIndices | protocols/prime/exec.go:10-22 | the in-place sort yields a sorted rearrangement |
| PrimeFrontier.FrontierIff | protocols/prime/exec.go:33-45 | an index is within the frontier if and only if at least n-f rows reach it |
| PrimeFrontier.FrontierMonotone | protocols/prime/exec.go:33-45 | the frontier only grows when the matrix does |
| PrimeFrontier.CorrectWitnesses | protocols/prime/exec.go:33-45 | among n > 2f rows some correct row reaches the frontier and some correct row does not exceed it |
| PrimeExec.RunSlotOK | protocols/prime/exec.go:66-91 | a slot executes, for each origin, exactly the indices from its cursor to the frontier, and never lacks a command on the way |
| PrimeExec.ExecOK | protocols/prime/exec.go:24-93 | exec keeps the executed ids equal to what the passed matrices make due, passes acknowledged instances only, and stops only at a slot it may not pass; it fails if and only if it cannot index into the next matrix |
| PrimeExec.AllOrNothing | protocols/prime/exec.go:48-91 | a slot is applied entirely or not at all |
| PrimeExec.Contiguous | protocols/prime/exec.go:66-88 | each origin's requests have been executed from its first one without a gap, once each and in order |
| PrimeExec.SameOrder | protocols/prime/exec.go:24-93 | replicas that agree on the matrices of the slots passed have executed the same instances in the same order |
| PrimeRuns.Acknowledge | protocols/prime/brbinstance.go:98-133 | an acknowledgement with its summarize keeps a replica's invariant: no summary ends in front of an acknowledged or executed instance |
| PrimeRuns.ExecGood | protocols/prime/exec.go:24-93 | exec keeps it: no cursor passes an instance that is not acknowledged, so none runs ahead of the summary |
| PrimeRuns.StepGood | protocols/prime/prime.go:162-228 | whatever a replica receives, from whomever, its invariant stays, and summaries, executed instances, other origins' statuses and ordered matrices are never taken back |
| PrimeSystem.ExecutedIsSummarized | protocols/prime/exec.go:66-88 | in every run each executed instance lies at or below the replica's own summary of its origin |
| PrimeSystem.SummaryNeverStalls | protocols/prime/brbinstance.go:123-133 | in every run the instance after a summary is neither acknowledged nor executed, so no summary waits at an executed one |
| PrimeSystem.SummaryExact | protocols/prime/brbinstance.go:123-133 | in every run a summary of another origin reaches k if and only if 1 to k are all acknowledged |
| PrimeSystem.ExecutedContiguous | protocols/prime/exec.go:66-88 | in every run each origin's requests are executed from the first one without a gap, once each and in order |
| PrimeSystem.TotalOrder | protocols/prime/exec.go:24-93 | under a correct leader and bare prepares, of two correct replicas one has executed a prefix of what the other has, in every run |
| PrimeExec.ExecDraws | protocols/prime/exec.go:66-88 | in whatever state, every command that exec executes is the one that the log held under its id |
| PrimeCommands.ExecutedFits | protocols/prime/exec.go:81-84 | in every run an executed command is that of the hash of its instance, but for own ids requested later |
| PrimeCommands.RequestFitsIff | protocols/prime/request.go:28-39 | which a request spoils if and only if another command has been executed under the next id |
| PrimeCommands.ExecutedBacked | protocols/prime/brbinstance.go:87-121 | in every run an executed command has the votes of a quorum for its hash, the correct members having sent them |
| PrimeCommands.CommandsAgree | protocols/prime/exec.go:81-84 | in every run two correct replicas execute equal commands under one id, if its replica, where correct, has voted for one hash under it |
| PrimeCommands.AcknowledgedAgree | protocols/prime/brbinstance.go:98-120 | so they do acknowledge equal hashes and commands |
| PrimeCommands.OwnedSayOnce | protocols/prime/brbinstance.go:70-102 | if no replica is sent a request under an id of its own, every replica votes once under every id |
| PrimeCommands.SameCommands | protocols/prime/exec.go:24-93 | under a correct leader, bare prepares and single votes, the executed commands of two correct replicas are prefixes of one another |
| PrimeCommands.ExecutedAsked | protocols/prime/request.go:12-51 | in every run a command is executed under an id only if a client asked that replica for it or a faulty peer requested it under this id |
| PrimeTwoCommands.TwoCommands | protocols/prime/brbinstance.go:70-102 | otherwise agreement fails: a run with one faulty peer of four in which two correct replicas acknowledge different commands under one id |
| PrimeQuorums.PrePrepareCounts | protocols/prime/oinstance.go:148-174 | what a pre-prepare leaves: both votes, and the slot prepared or committed exactly if more than 2f prepares, or commits, agree, with the commit sent |
| PrimeQuorums.PrepareCounts | protocols/prime/oinstance.go:193-209 | so for a prepare |
| PrimeQuorums.CommitCounts | protocols/prime/oinstance.go:224-230 | a commit takes a prepared slot to committed if and only if it is one of more than 2f |
| PrimeQuorums.OtherDigest | protocols/prime/oinstance.go:47-57 | a message with another digest than the slot's adds no vote |
| PrimeQuorums.WrongSender | protocols/prime/oinstance.go:127-136 | only the leader pre-prepares and only others prepare, a wrong hash ends the replica, and messages of another view are ignored |
| PrimeQuorums.SlotQuorums | protocols/prime/oinstance.go:127-232 | in every run a prepared slot has more than 2f equal prepares and a committed one more than 2f equal commits |
| PrimeSummaries.SummaryTimerSends | protocols/prime/brbinstance.go:135-153 | a replica sends its summary and enters it in its matrix |
| PrimeSummaries.LeaderOrdersIff | protocols/prime/oinstance.go:59-116 | the leader orders its matrix if and only if it is not the one ordered last |
| PrimeSummaries.FrontierSummarized | protocols/prime/oinstance.go:71-98 | in every run, up to the frontier of what a correct leader has ordered, a correct replica has summarized, and acknowledged, every instance of the origin |
| PrimeFaultyLeader.Refused | protocols/prime/oinstance.go:137-148 | a pre-prepare whose digest is refused leaves its matrix in a slot that held none |
| PrimeFaultyLeader.Tricked | protocols/prime/oinstance.go:137-175 | the next pre-prepare, of which that matrix is the beginning, gets the replica's vote, and the replica keeps the matrix it has |
| PrimeFaultyLeader.Diverges | protocols/prime/exec.go:24-93 | for every f and every faulty set with the leader in it, a run in which the first instances that two correct replicas execute differ |
| PrimeFaultyLeader.TotalOrderIff | protocols/prime/exec.go:24-93 | for every f and faulty set: in all runs with bare prepares and commits any two correct replicas have executed prefixes of one order, if and only if the leader is correct |
| PrimeSystem.HeldMatrixIff | protocols/prime/oinstance.go:33-45 | an accepted pre-prepare leaves the replica with its matrix if and only if the slot held none, or one of as many rows |
| PrimeLimits.PlantedMatrix | protocols/prime/oinstance.go:20-45 | otherwise agreement on an ordering slot fails: a run with a correct leader and one faulty peer of four in which two correct replicas commit different matrices |
| PrimeReplica.CompareRows | protocols/prime/oinstance.go:33-45 | the loop compares the rows held, with its index out of range |
| PrimeReplica.Replica.HandlePORequest | protocols/prime/brbinstance.go:70-102 | the whole new state of a request to pre-order, with every return and failure |
| PrimeReplica.Replica.HandlePrePrepare | protocols/prime/oinstance.go:127-175 | the whole new state of a pre-prepare, with the promotions and exec |
| PrimeReplica.Replica.RunExec | protocols/prime/exec.go:24-93 | the loop with its survey and inner loops is the recursive exec |
| PrimeReplica.Replica.DoSummarize | protocols/prime/brbinstance.go:123-133 | the loop sets the origin's summary to the end of the acknowledged run |
| Hybster.Search | protocols/hybster/viewchange.go:355-357 | the binary search finds the first position whose order is not below the one sought |
| Hybster.CreateViewTransition | protocols/hybster/viewchange.go:344-370 | every message is moved to the new view; the output is the deduplicated sorted input, each message re-signed |
| Hybster.DedupIncreases | protocols/hybster/viewchange.go:353-360 | the output's orders rise strictly, so the partial output stays sorted for the search |
| Hybster.DedupOrders | protocols/hybster/viewchange.go:353-360 | exactly the orders of the input are kept |
| Hybster.DedupKeepsFirst | protocols/hybster/viewchange.go:355-360 | of the entries of one order the first is kept |
| Hybster.SameOrderSequence | protocols/hybster/viewchange.go:345-347 | whatever the sort does with equal orders, the sequence of orders is the same |
| Hybster.ArrangementFreeIff | protocols/hybster/viewchange.go:345-360 | the kept entries are the same for every arrangement if and only if no order occurs with two payloads |
| ReqBuf.StepKeeps | peer/req_buf.go:30-59 | every lock, atomic, memory, wait and hand-over step keeps the invariant |
| ReqBuf.HandOff | peer/req_buf.go:30-59 | in every interleaving each returned adder stands exactly once among those handed over and those in the buffer, and what was passed on is exactly their elements |
| ReqBuf.FlushExposes | peer/req_buf.go:48-58 | a flush passes on, slot by slot, what adders of this round have written and returned from |
| ReqBuf.WaitersAreOwed | peer/req_buf.go:33-41 | an adder waits only while the buffer is over-full, and the next flush wakes it |
| Varints.SovIsLength | pkg/command/commandpb/command.pb.go:990-992 | sovCommand is the number of bytes of the encoding |
| Varints.SovBounds | pkg/command/commandpb/command.pb.go:990-992 | one to ten bytes for every 64-bit value |
| Varints.Encode | pkg/command/commandpb/command.pb.go:829-839 | exactly the sovCommand bytes in front of the offset are written, the rest of the buffer is untouched |
| Varints.ReadVarint | pkg/command/commandpb/command.pb.go:1002-1014 | the decode loop with its two errors and the loss of bits beyond 64 |
| Varints.RoundTrip | pkg/command/commandpb/command.pb.go:829-839 | every 64-bit value is read back wherever it stands |
| Codec.SizeIsLength | pkg/command/commandpb/command.pb.go:840-858 | Size is the number of bytes written |
| Codec.MarshalToSizedBuffer | pkg/command/commandpb/command.pb.go:510-540 | the backward writer fills the end of the buffer with the encoding and nothing else |
| Codec.Message.Fill | pkg/command/commandpb/command.pb.go:996-1136 | the reader's fields and error for every input, also what an error leaves behind |
| Codec.SkipField | pkg/command/commandpb/command.pb.go:1933-2010 | the loop over unknown fields and groups |
| Codec.MessageRoundTrip | pkg/command/commandpb/command.pb.go:510-540 | Unmarshal of Marshal gives the message back |
| Codec.ConcatenationMerges | pkg/command/commandpb/command.pb.go:996-1136 | two encodings one after the other are read as their merge |
| Codec.EncodingInjective | pkg/command/commandpb/command.pb.go:510-540 | no two messages have the same encoding |
| Codec.FieldSkipped | pkg/command/commandpb/command.pb.go:1933-2010 | a field of any wire type is skipped as a whole at any depth of groups, a group with all it holds |
| Codec.UnknownFieldSkipped | pkg/command/commandpb/command.pb.go:1110-1126 | so an unknown field, or a group nested to any depth, changes nothing |

## Left out

- Networking, gRPC, discovery, logging, metrics, the experiment runner and the client: no protocol logic.
- Enclaves, elliptic curves, HMAC and threshold signatures: a valid certificate means that its signers sent the message.
- Liveness, timeouts and dummy blocks of HotStuff.
- Dispel's coordinator value: dbft.go:255 looks for a message in a set of integers, so it never reaches an Aux message.
- HotStuff heights, Dispel rounds and DuoBFT indices are natural numbers: the 64-bit wrap-around is not modelled.
- DQPBFT, DuoBFT and Dispel instances are values in the replica's maps: DuoBFT's callbacks refer to an instance by its
  position, the others do not keep a pointer to one, so sharing of instances is captured only there.
- Dispel: the order of commands inside one epoch, which follows Go's map order.
- DispelCommands.CommandsAgree: leaves out a replica's own broadcast, because a replica whose own id was used by another sender can hold a command that its hash does not stand for.
- DuoBFT: agreement between replicas on either path; on the trusted one it rests on the enclave's counters.
- DuoBFT: command equality ignores Meta, so replicas can take different paths for one command; the results are about one replica.
- PBFT: the normal case, the acknowledgement bookkeeping of view changes and the induction over several views.
- HotStuffReplica.CheckQuorumCert: has one key per signer, where the source's shared key cannot tell signers apart.
- Prime: slices shared between summary rows.
- Hybster: merging of abort states and the certificates around the view transition.
- Codec: the messages besides KVOp, which are generated by the same pattern.
- SBFT, RCC, MultiChain, MinBFT, MirBFT and the other protocols of the repository: same quorum and cursor patterns.
