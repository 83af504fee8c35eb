# Event-driven HotStuff, modelled and proved

This project models the replica of libhotstuff: the HotStuff protocol core, the pacemakers that decide
when and on what to propose, the pipeline that fetches and delivers blocks, quorum certificates, the
command pipeline and the client's closed loop, the promise library under all of them, and the wire
formats.  `dafny verify dfyconfig.toml` checks everything.

## How it is laid out

- `Chain`, `Core`: blocks and the branch they form; the state of `HotStuffCore` as a value and what each
  input does to it, in both builds (three-step, and two-step under `HOTSTUFF_TWO_STEP`).
- `Quorums`, `CoreFacts`, `Votes`, `Ballots`: certificates as sets of votes; what one replica's state always
  satisfies; what it makes of the votes it receives; what any set of votes cast by correct replicas implies
  for certified blocks.
- `Protocol`, `Invariant`, `Safety`, `CommitLog`, `Runs`, `Counterexample`: n replicas as a transition system,
  the invariant of every step, agreement, the commit log, and the runs that show exactly which configurations
  agreement holds in.
- `Progress`: how correct replicas can go on to commit on their own.
- `Citations`, `Ordering`: what holds of votes and of `b_exec`, `b_lock` and `hqc` in every run, whatever blocks
  are made up; and exactly when `b_lock` stays below `vheight`.
- `ConsensusCore`: the mutable replica, each method proved to compute the step of `Core`.
- `HighTail`, `FixedLeader`, `RoundRobin` with `RoundRobinLosses`, `RoundRobinTurns` and `RoundRobinProposer`,
  `LeaderChain`, `ClosedLoop`, `ComposedLoop`: parent selection, the fixed and the round-robin proposer,
  chains of blocks by one proposer, how many commands a client must keep outstanding, and the client, the
  fixed proposer and the replicas put together.  `Arithmetic`: facts about products and remainders.
- `Delivery`, `QuorumCert`, `Confirmation`, `Promises` with `PromiseSteps`, `PromiseEffects` and
  `PromiseLibrary`, `Wire` with `DataStreams` and `WireLayout`: block delivery, certificates, end-to-end
  confirmation, promises, formats.

## What is taken for granted

- Hashes are collision-free, so a block is its contents and hashes are not mentioned; a block has at least
  one parent.  Heights and counters are unbounded.
- Signatures are ideal: one verifies exactly if its signer made it for that block.  At most
  `nfaulty` of the replicas are faulty; a faulty one may make up any block and cast any vote.  Genesis is
  certified by definition, as `Block::verify` treats it.
- A vote is recorded when `vheight` is raised; that is when the code decides to vote, though the message may
  leave later or, with `vote_disabled`, not at all.
- In the three-step build agreement needs that every block made up by a faulty replica cites, with its
  certificate, one of its own proper ancestors.  `on_deliver_blk` does not check this; the header leaves
  "proper invariants" to the user of the class.  Correct proposers do so in every run
  (`HighTail.ProposersCiteAncestors`).  Agreement in the two-step build does not need it, and
  `Counterexample.AgreementIsExact` says that without it the three-step build agrees only if no replica is
  faulty.  That `b_lock` stays below `vheight` needs it in both builds (`Ordering.OrderIsExact`); the order
  of `b_exec`, `b_lock` and `hqc`, and the rest of `Citations`, holds whatever is made up.
- For the pacemakers, `nmajority` is at least 2 and `on_propose` returns normally.
- For `Confirmation`, replicas may crash but do not lie.

Five statements one might expect are false of the code, and each has its exact condition here:

- Agreement without a check of what blocks cite: `Counterexample.AgreementIsExact`.
- A replica's lock is always below its vheight (both start at genesis): `Ordering.OrderIsExact`.
- The parent chosen after an update of hqc is the highest block on its branch:
  `HighTail.TailSelectionIsOptimal`, and `HighTail.UncleHidesTail` is a run in which it is not.
- The closed loop of client and replicas keeps going: `ComposedLoop.StandstillIsExact`.
- No batch of commands is forgotten outside a rotation or a re-proposal:
  `RoundRobinLosses.OvertakenBatchIsForgotten` is the run, and `RoundRobinLosses.EventIsExact` says, for every
  state and event, exactly which batch is forgotten.

## Model

| member | source | states |
|---|---|---|
| Chain.WalkFindsAncestor | include/hotstuff/liveness.h:66-72 | walking down parents[0] to the height of a block and comparing finds it exactly if it is an ancestor |
| CoreFacts.CommitAppends | src/consensus.cpp:131-151 | a commit throws exactly if the block does not extend b_exec; otherwise the log becomes the branch of the block and the decided blocks its ancestors |
| CoreFacts.UpdateKeepsShape | src/consensus.cpp:94-152 | `update` keeps the replica's invariant; hqc and b_lock never go down, the log only grows |
| CoreFacts.LockCoversChain | src/consensus.cpp:101-107 | after `update` with the top of a commit chain the lock is at least as high as the block the chain commits, even when an early return fired |
| CoreFacts.UpdateDecidesExactly | src/consensus.cpp:94-152 | `update` decides exactly the heads of the commit chains whose last block is cited, with all under them, and throws exactly if such a head is new and off b_exec's branch |
| CoreFacts.VoteIsExact | src/consensus.cpp:193-213 | a received block gets a vote if and only if it is above vheight and either cites a delivered block above b_lock or extends b_lock |
| CoreFacts.DeliverKeepsTails | src/consensus.cpp:78-79 | `tails` stays exactly the delivered blocks that are no parent of a delivered block |
| CoreFacts.TwoStepLivenessTestNeverTrue | src/consensus.cpp:115-121 | in the two-step build the liveness test is false after every `update` |
| Quorums.QuorumsOverlap | src/hotstuff.cpp:435-439 | two sets of nmajority replicas share at least nfaulty + 1 |
| Quorums.NFaultyIsLargest | src/hotstuff.cpp:435-439 | nfaulty is the largest f for which any two sets of n - f replicas share more than f |
| Quorums.QuorumsShareCorrect | src/consensus.cpp:251-252 | with at most nfaulty faulty replicas, two quorums share a correct one |
| Ballots.OneCertifiedPerHeight | src/consensus.cpp:193-213 | two certified blocks of one height are the same block |
| Ballots.CertifiedExtendsCommitted | src/consensus.cpp:94-152 | once a chain of direct parents on b is certified, every certified block at least as high as b extends b |
| Ballots.CommittedBlocksAgree | src/consensus.cpp:130-151 | any two blocks that replicas may commit lie on one branch |
| Votes.VotesAreExact | src/consensus.cpp:224-249 | after any sequence of votes for a block, in any order and with repetitions: the votes counted, and hqc moved to the block, if that is higher, exactly if nmajority distinct replicas have voted |
| Votes.CompletesExactlyOnce | src/consensus.cpp:224-249 | the vote that completes a certificate and moves hqc is the one of the nmajority-th distinct voter, and there is only one |
| Invariant.ProposeKeeps | src/consensus.cpp:154-182 | proposing keeps the replica's invariant and that of all votes cast, and the vote it casts is a good one |
| Invariant.GetProposalKeeps | src/consensus.cpp:184-222 | so does receiving a proposal, with hqc_tail; what happens inside on_qc_finish, before the callbacks of the proposal, is a step of its own |
| Invariant.GetVoteKeeps | src/consensus.cpp:224-249 | so does receiving a vote |
| Invariant.StepKeepsInv | src/consensus.cpp:59-249 | every step of the protocol, whoever takes it, keeps the invariant of the whole system, and no log shrinks |
| Invariant.RunInv | src/consensus.cpp:59-249 | the invariant holds in every state of every run |
| Safety.SafetyNeverBreached | src/consensus.cpp:137-140 | in no state of a two-step run, nor of a three-step run whose made-up blocks cite proper ancestors, can a proposal, received or own, end in "safety breached" |
| Safety.GroundedAgreement | src/consensus.cpp:184-222 | the commit logs of any two correct replicas at any two moments are prefixes of one sequence, if correct votes went to blocks extending the voter's lock or the block they cite |
| Safety.Agreement | src/consensus.cpp:94-152 | the same in every two-step run, and in every three-step run whose made-up blocks cite proper ancestors |
| Runs.EveryInputIsTaken | src/consensus.cpp:59-249 | in every state a correct replica can take any proposal, own or received, any vote cast, any block made, and deliver any block whose ancestors are there and whose certificate can exist |
| Progress.CorrectReplicasCanCommit | src/consensus.cpp:154-249 | every run, of either build, can be continued by steps of correct replicas alone until all of them have committed a new block with any given commands, if the conditions of Safety.Agreement hold so far and some correct replica whose hqc is not below any correct b_lock can propose; whatever branches the others are locked on |
| Progress.ProposesExactly | src/consensus.cpp:154-182 | under the conditions of Safety.Agreement `on_propose` throws if and only if vheight is above hqc_tail, and then "new block should be higher than vheight" |
| Progress.SomebodyIsHighest | src/consensus.cpp:86-107 | in every state of every run some correct replica has an hqc not below any correct b_lock |
| Counterexample.AgreementFailsWithoutAncestry | src/consensus.cpp:59-84 | for any number of replicas with a faulty one among them: a three-step run with one made-up block that cites no ancestor, after which two correct replicas have conflicting logs and the next proposal throws |
| Counterexample.AgreementIsExact | src/consensus.cpp:96-129 | with unchecked blocks, agreement holds in all runs of a configuration if and only if the build is the two-step one or no replica is faulty |
| Counterexample.BreachIsExact | src/consensus.cpp:137-140 | and so does the absence of "safety breached", for received proposals and for own ones |
| Citations.EveryVoteRises | src/consensus.cpp:193-213 | in every run, whatever faulty replicas make up: vheight never falls, and every new vote of a correct replica is for a block above its old vheight and sets the new one |
| Citations.HighestCertificateGetsVotes | src/consensus.cpp:193-213 | in every run a correct replica votes for each block above its vheight that cites an ancestor not below its b_lock, whichever branch the lock is on and whether or not the block moves it, unless `update` throws |
| Citations.CertifiedCitesLower | src/consensus.cpp:193-213 | if CitesOk holds of the votes cast, a certified block is higher than every block that it, or a block under it, cites, even where citations go to no ancestor |
| Citations.RunCites | src/consensus.cpp:59-249 | CitesOk holds in every state of every run |
| Citations.ExecLockHqc | src/consensus.cpp:86-107 | in every state of every run, of either build, b_exec <= b_lock <= hqc |
| Citations.ShortcutsChangeNothing | src/consensus.cpp:98-111 | in every state with b_exec <= b_lock <= hqc in which no committed block cites a block above b_exec, `update` without the tests of `decision` on blk2 and blk1 leaves the same state |
| Citations.ShortcutsInRuns | src/consensus.cpp:98-111 | so in every state of every run, of either build, whatever blocks are made up |
| Citations.UpdateRaisesExactly | src/consensus.cpp:86-129 | in every state of every run `update` moves hqc to the block cited, and b_lock to the one cited by that (two-step: to the same), both delivered, exactly if it is higher |
| Ordering.UpdateStaysOrdered | src/consensus.cpp:86-107 | for a block that cites an ancestor, as the block it cites does, `update` and the vote decision keep b_exec <= b_lock <= hqc and b_lock below vheight |
| Ordering.StateOrdering | src/consensus.cpp:86-107 | in every run, of either build, whose made-up blocks cite ancestors: that order holds in every state, and each vote is for a block above the voter's lock |
| Ordering.IntruderRun | src/consensus.cpp:184-213 | for any number of replicas with a faulty one among them, in both builds: a run with one made-up block that cites no ancestor, after which a correct replica has its lock at or above its vheight |
| Ordering.OrderIsExact | src/consensus.cpp:86-107 | so the variables are in that order in all states of all runs of a configuration if and only if no replica is faulty |
| Ordering.OneVoteOneBlockPerHeight | src/consensus.cpp:193-213 | in every run a correct replica votes at most once per height, and at most one block per height is certified, whatever faulty replicas do |
| CommitLog.CommitLogIsTheChain | src/consensus.cpp:131-151 | in every run the log is the path from genesis to b_exec, one block per height, each the parent of the next; exactly those are decided; exactly one Finality per command is reported, with decision 1 and that command, its index, block and height, in order of height and index |
| CommitLog.ReportsAnswer | src/consensus.cpp:147-149 | the commands reported are those of the committed blocks, in order |
| ConsensusCore.HotStuffCore.constructor | src/consensus.cpp:33-45 | the initial state, with genesis voted for by everyone |
| ConsensusCore.HotStuffCore.UpdateHqc | src/consensus.cpp:86-92 | hqc is replaced exactly by a higher block; whether on_hqc_update is called |
| ConsensusCore.HotStuffCore.CollectQueue | src/consensus.cpp:131-136 | the queue is, youngest first, what lies between the block and the height of b_exec |
| ConsensusCore.HotStuffCore.DecideQueue | src/consensus.cpp:141-150 | the queued blocks are decided and reported oldest first |
| ConsensusCore.HotStuffCore.CommitUpTo | src/consensus.cpp:130-151 | the commit as Core defines it, with the exception |
| ConsensusCore.HotStuffCore.TestThreeStep | src/consensus.cpp:97-114 | the tests of the three-step build up to the commit |
| ConsensusCore.HotStuffCore.TestTwoStep | src/consensus.cpp:115-128 | the tests of the two-step build up to the commit |
| ConsensusCore.HotStuffCore.Update | src/consensus.cpp:94-152 | the state and the exception are those of the protocol's step, and every Finality is reported in order |
| ConsensusCore.HotStuffCore.OnDeliverBlk | src/consensus.cpp:59-84 | delivery, which of its two exceptions is thrown when, and its result for a block delivered twice |
| ConsensusCore.HotStuffCore.ExtendsLock | src/consensus.cpp:203-207 | the loop finds out whether the block extends b_lock |
| ConsensusCore.HotStuffCore.FormOpinion | src/consensus.cpp:193-213 | vheight is raised exactly for a higher block that passes the liveness or the safety condition |
| ConsensusCore.HotStuffCore.OnReceiveProposal | src/consensus.cpp:184-222 | receiving a proposal is the step of the protocol; on_qc_finish is called for the cited block unless there was an exception, and a vote leaves exactly when vheight was raised and votes are enabled |
| ConsensusCore.HotStuffCore.OnPropose | src/consensus.cpp:154-182 | proposing is the step of the protocol: the block, which exception is thrown when, and whether the replica votes for its own block |
| ConsensusCore.HotStuffCore.OnReceiveVote | src/consensus.cpp:224-249 | counting a vote; hqc moves to the block, if that is higher, and on_qc_finish is called, exactly for the nmajority-th distinct voter |
| HighTail.PMHighTail.CheckAncestry | include/hotstuff/liveness.h:66-72 | true exactly if the first block is an ancestor of the second |
| HighTail.PMHighTail.OnHqcUpdate | include/hotstuff/liveness.h:74-82 | hqc_tail becomes a highest among hqc and the tails that extend it, in whatever order the tails are looked at |
| HighTail.PMHighTail.OnReceiveProposal | include/hotstuff/liveness.h:91-99 | a received block replaces hqc_tail exactly if it extends hqc and is higher, so hqc_tail is then at least as high |
| HighTail.ProposersCiteAncestors | include/hotstuff/liveness.h:110-128 | every block a correct replica proposes, in any run, cites one of its own proper ancestors |
| HighTail.ProposedHaveOneParent | include/hotstuff/liveness.h:110-128 | and has no uncles |
| HighTail.TailExtendsHqc | include/hotstuff/liveness.h:74-99 | in every state of every run hqc_tail is delivered and extends hqc |
| HighTail.SeenIsBuiltOn | include/hotstuff/liveness.h:84-99 | in every run, from the moment a replica gets or makes a proposal that extends its hqc until hqc is updated, hqc_tail is at least as high, and the next block it makes higher |
| HighTail.HighestTailIsOptimal | include/hotstuff/liveness.h:74-82 | the chosen tail is a highest delivered block extending hqc if and only if some such block is hqc itself or is named as an uncle by no delivered block |
| HighTail.TailSelectionIsOptimal | include/hotstuff/liveness.h:74-82 | so after every step of every run that updates hqc |
| HighTail.UncleHidesTail | include/hotstuff/liveness.h:74-82 | with any configuration that has a faulty replica, in both builds: a run whose last step updates hqc and leaves hqc_tail too low |
| HighTail.BestExactlyWithoutFaults | include/hotstuff/liveness.h:74-82 | so the choice is always a highest block if and only if no replica is faulty |
| LeaderChain.NewHqcIsTail | include/hotstuff/liveness.h:74-82 | a block nobody has built on is the parent chosen right after it gets its certificate |
| LeaderChain.UpdateMovesUp | src/consensus.cpp:94-152 | `update` with the next block of a chain that cites its parents moves b_lock and b_exec up that chain by one block |
| LeaderChain.FollowerStaysInStep | src/consensus.cpp:184-222 | a follower in step delivers the next block, votes for it and commits the block three (two) below it |
| LeaderChain.ProposerStaysInStep | src/consensus.cpp:154-182 | a proposer with the certificate of its last block proposes the next one without exception |
| LeaderChain.ProposerExecHeight | src/consensus.cpp:94-152 | after m proposals, each block getting at least nmajority votes in any order, the proposer's b_exec is at height max(0, m - 3), in the two-step build max(0, m - 2) |
| LeaderChain.ReproposalCommits | include/hotstuff/liveness.h:297-310 | do_new_consensus(0, cmds), undisturbed, each block but the last getting nmajority votes, issues exactly four blocks (three), linked by parent and certificate, the first with the commands; whoever processes the last has decided the first |
| FixedLeader.Leader.ScheduleNext | include/hotstuff/liveness.h:142-157 | which beat leaves the queue, and whether it is held or resolved at once |
| FixedLeader.Leader.Propose | include/hotstuff/liveness.h:159-168 | the callback of a beat proposes its batch next, and only when the last block is certified |
| FixedLeader.Leader.Beat | include/hotstuff/liveness.h:184-191 | a new beat is queued, held or proposed; no command is lost, doubled or moved |
| FixedLeader.Leader.TakeBatch | src/hotstuff.cpp:460-465 | the batch is the first blk_size commands of the buffer |
| FixedLeader.Leader.HandleCommands | src/hotstuff.cpp:444-476 | the handler takes commands until a block is full or the queue is empty, asks to be called again exactly in the first case, and keeps the first-in-first-out account of all commands received |
| FixedLeader.Leader.OnQcFinish | src/consensus.cpp:301-308 | a certificate releases exactly the held batch |
| FixedLeader.Leader.ProposedCount | include/hotstuff/liveness.h:131-198 | the number of blocks proposed is as large as the commands received and the rule of one block ahead of the certificates allow |
| FixedLeader.Leader.ProposedContents | src/hotstuff.cpp:456-473 | block i carries exactly the i-th group of blk_size commands received |
| ClosedLoop.NeverStuck | examples/hotstuff_client.cpp:85-115 | with max_async at least four blocks' worth (three) and iterations left, or no limit on them, some event can always happen |
| ClosedLoop.BelowThreshold | examples/hotstuff_client.cpp:85-115 | with fewer than four blocks' worth outstanding, no replica ever commits and no command is ever confirmed |
| ClosedLoop.RunsEnd | examples/hotstuff_client.cpp:85-147 | with fewer, or with a limit on iterations, every run is of bounded length |
| ClosedLoop.DeadlockThreshold | include/hotstuff/liveness.h:142-191 | a state in which nothing more can happen is reachable if and only if max_iter_num is finite or max_async is less than four (three) times blk_size |
| ClosedLoop.LeftOver | examples/hotstuff_client.cpp:85-147 | every such state has the same counters: with enough outstanding all commands are sent, and those of the last three full blocks (two) and of an unfilled one are never confirmed; otherwise none is |
| ComposedLoop.StepIsEvents | examples/hotstuff_client.cpp:85-147 | each step of the client, the fixed proposer and the replicas put together is one or more events of those counters, and keeps the invariant that ties the two |
| ComposedLoop.AnswersAre | src/consensus.cpp:141-150 | a replica that has processed g blocks has committed exactly the first max(0, g - 3) (g - 2) times blk_size commands sent, in that order |
| ComposedLoop.StuckTogether | include/hotstuff/liveness.h:142-191 | something can happen in the whole if and only if some event of the counters can |
| ComposedLoop.StandstillIsExact | examples/hotstuff_client.cpp:85-115 | the whole can come to a standstill if and only if max_iter_num is finite or max_async is less than four (three) times blk_size |
| ComposedLoop.StandstillLeaves | examples/hotstuff_client.cpp:117-147 | and then client and replicas agree on exactly which commands were confirmed |
| ComposedLoop.LeaderAgrees | include/hotstuff/liveness.h:131-198 | the pipeline of FixedLeader, given the same commands and certificates, has proposed exactly the blocks of the whole |
| RoundRobin.RejectDropsHeldOnly | include/hotstuff/promise.hpp:581-583 | rejecting one of the two promises forgets a batch only if pm_qc_finish holds it |
| RoundRobin.HoldBeatKeeps | include/hotstuff/liveness.h:277-281 | a beat is never attached to a promise that is rejected already |
| RoundRobin.ScheduleNextKeeps | include/hotstuff/liveness.h:271-284 | scheduling keeps the account, and forgets a batch exactly when one is held behind an open gate |
| RoundRobin.NewLastKeeps | include/hotstuff/liveness.h:286-295 | when an own proposal becomes the last block the account is kept, and a held batch is forgotten exactly if another is queued |
| RoundRobin.EveryBatchIsAccountedFor | include/hotstuff/liveness.h:271-310 | in every run each batch taken is in exactly one of queued, held, proposed, forgotten; at most one is held, exactly while pm_qc_finish is unsettled |
| RoundRobinLosses.DroppedExactly | include/hotstuff/liveness.h:271-407 | in every state, rotating or not, and every event, re-proposals and both callbacks of one certificate included: exactly which batch is forgotten, and never more than one |
| RoundRobinLosses.NewConsensusLoses | include/hotstuff/liveness.h:297-310 | a block of do_new_consensus makes the held batch be forgotten exactly if another is queued or both promises wait for the same certificate |
| RoundRobinLosses.RotateLoses | include/hotstuff/liveness.h:321-335 | a rotation forgets exactly the held batch |
| RoundRobinLosses.EventIsExact | include/hotstuff/liveness.h:271-407 | and exactly which are taken and proposed; all others are queued or held |
| RoundRobinLosses.ForgetsExactly | include/hotstuff/liveness.h:271-310 | outside a rotation and do_new_consensus, a batch is forgotten if and only if a new one arrives while the gate is open and one is held, or the held one's certificate arrives when another replica is the proposer |
| RoundRobinLosses.TenureForgetsNothing | include/hotstuff/liveness.h:321-361 | from a state without an overtaken beat nothing is forgotten until the next rotation or do_new_consensus |
| RoundRobinLosses.StopRotateLeavesNoneOvertaken | include/hotstuff/liveness.h:337-361 | stop_rotate leaves such a state |
| RoundRobinLosses.OvertakenBatchIsForgotten | include/hotstuff/liveness.h:271-310 | for the first proposer, in both builds and whatever `update` commits: a run after which nothing rotates, no re-proposal is under way or scheduled, and the next batch makes the held one disappear |
| RoundRobinTurns.RotationIsExact | include/hotstuff/liveness.h:319-369 | what each event does to the rotation: `rotate` turns to the next replica, no other event changes the proposer; the first block of each replica since then is noted; a rotation ends exactly when the block noted for the proposer is committed, and schedules one re-proposal if that is this replica |
| RoundRobinTurns.TurnsGoAround | include/hotstuff/liveness.h:326 | after k rotations, in any run, the k-th next replica is the proposer |
| RoundRobinTurns.RunTurns | include/hotstuff/liveness.h:319-345 | in every run the proposer is the number of rotations modulo nreplicas, and throughout a rotation the first blocks are noted |
| RoundRobinTurns.EveryoneHasATurn | include/hotstuff/liveness.h:326 | within nreplicas - 1 rotations every replica is the proposer at some point |
| RoundRobinTurns.BlocksAreExact | include/hotstuff/liveness.h:271-310 | how many blocks each event makes, and which block's certificate the next beat waits for |
| RoundRobinTurns.GateIsExact | include/hotstuff/liveness.h:271-295 | when the gate for the next beat (`locked`) is closed after each event, and that it is open at the end of a rotation |
| RoundRobinTurns.ReproposalSteps | include/hotstuff/liveness.h:297-317 | do_new_consensus starts at step 0, goes on to the next step at the certificate of its last block, and stops after step 3 (2) |
| RoundRobinProposer.PMRoundRobinProposer.OnConsensus | include/hotstuff/liveness.h:364-369 | a commit: nothing is proposed or forgotten; the rotation ends exactly if the block is new and the one noted for the proposer, and then a re-proposal is scheduled if that is this replica |
| RoundRobinProposer.PMRoundRobinProposer.OnReceiveProposal | include/hotstuff/liveness.h:263-269 | a proposal of another replica: no batch moves; it is noted if it is the first |
| RoundRobinProposer.PMRoundRobinProposer.OnImpeach | include/hotstuff/liveness.h:371-375 | an impeachment: outside a rotation it is the next replica's turn and the held batch is forgotten |
| RoundRobinProposer.PMRoundRobinProposer.OnExpTimeout | include/hotstuff/liveness.h:312-317 | the same for the first timeout: an empty block is proposed |
| RoundRobinProposer.PMRoundRobinProposer.OnPropTimeout | include/hotstuff/liveness.h:312-335 | the second timeout: it is the next replica's turn, the blocks noted and the held batch are forgotten |
| RoundRobinProposer.PMRoundRobinProposer.OnQcFinish | src/consensus.cpp:301-308 | the same for a certificate that arrives |
| RoundRobinProposer.PMRoundRobinProposer.TakeBatch | src/hotstuff.cpp:456-471 | a batch handed to beat: the invariant is kept, and exactly which batches are taken, proposed and forgotten |
| RoundRobinProposer.PMRoundRobinProposer.OnScheduledCall | include/hotstuff/liveness.h:351-359 | the same for the re-proposal scheduled by stop_rotate |
| Delivery.HotStuffBase.AsyncFetch | src/hotstuff.cpp:145-166 | fulfilled at once exactly for a fetched block, otherwise waited for |
| Delivery.HotStuffBase.AsyncDeliver | src/hotstuff.cpp:168-199 | the block is delivered or waited for, every pending callback is registered where it will be called, and nothing outside its ancestry is asked for |
| Delivery.HotStuffBase.StartChecks | src/hotstuff.cpp:180-198 | the checks of a fetched block are set up, or it is delivered if all have passed |
| Delivery.HotStuffBase.DeliverBlk | src/hotstuff.cpp:100-143 | delivery, and everything that becomes deliverable by it |
| Delivery.HotStuffBase.OnFetchBlk | src/hotstuff.cpp:83-98 | all callbacks waiting for a fetched block are run, none stays behind |
| Delivery.HotStuffBase.OnVerified | src/entity.cpp:65-69 | the answer of the certificate check reaches the block it is for |
| Delivery.DeliveredIsSound | src/hotstuff.cpp:168-200 | at any time a delivered block and all under it are fetched, have good certificates and their certified blocks fetched |
| Delivery.QuietIsExact | src/hotstuff.cpp:168-200 | once no fetch or check is outstanding, delivered are exactly the requested blocks and those under them whose whole ancestry has good certificates |
| Delivery.DeliveryIsConfluent | src/hotstuff.cpp:83-200 | so two histories with the same requests end with the same delivered blocks and heights, in whatever order things arrived |
| Delivery.DeliverableIsAccepted | include/hotstuff/consensus.h:86-92 | on_deliver_blk is only called with the invariant its header asks for, and does not throw |
| QuorumCert.QuorumCertSecp256k1.AddPart | include/hotstuff/crypto.h:396-402 | a part for another block throws; otherwise the bit is set, the first signature of a replica kept, and the keys stay the set bits |
| QuorumCert.QuorumCertSecp256k1.Verify | src/crypto.cpp:31-44 | the answer of the synchronous check, including the exception for an unregistered replica |
| QuorumCert.QuorumCertSecp256k1.VerifyAsync | src/crypto.cpp:46-64 | the answer of the asynchronous check, including the exception of `all` on nothing |
| QuorumCert.ChecksAgreeExactly | src/crypto.cpp:31-64 | the two answers differ if and only if enough signatures are there and either there are none at all or a bad signature comes before an unregistered replica |
| QuorumCert.ChecksCanDiffer | src/crypto.cpp:31-64 | for any number of registered replicas, a certificate that the synchronous check refuses and on which the asynchronous one throws |
| QuorumCert.VerdictsAreExact | src/crypto.cpp:31-64 | each check accepts if and only if enough signatures are there, all of registered replicas and of this block (the asynchronous one, if there is any); and exactly when each throws |
| QuorumCert.AcceptedMeansQuorum | src/crypto.cpp:31-64 | an accepted certificate has nmajority distinct registered signers, each of exactly this block |
| QuorumCert.AcceptedMeansCertified | src/crypto.cpp:31-64 | which, whichever check accepted it, is what the protocol calls certified |
| Confirmation.HotStuffClient.TrySend | examples/hotstuff_client.cpp:85-115 | a command is sent exactly while fewer than max_async wait and iterations are left |
| Confirmation.HotStuffClient.SendLoop | examples/hotstuff_client.cpp:227 | the loop sends until it may not |
| Confirmation.HotStuffClient.OnResponse | examples/hotstuff_client.cpp:117-147 | only decision 1 counts; the (nfaulty + 1)-th drops the command and sends more |
| Confirmation.DecisionTable.Submit | src/hotstuff.cpp:450-455 | a submission is answered with decision 0 exactly if one of the same command is stored, otherwise stored; every submission is stored or answered, never both, and each answer is justified |
| Confirmation.DecisionTable.Decide | src/hotstuff.cpp:403-412 | a decided command's stored submission is answered with decision 1, for the first time, and no other |
| Confirmation.DroppedMeansCommitted | examples/hotstuff_client.cpp:117-147 | in every run a command the client has dropped is committed by at least nfaulty + 1 different replicas; sent = dropped + waiting; at most max_async wait |
| Confirmation.OneReplyPerSubmission | src/hotstuff.cpp:403-412 | a replica answers each submission at most once |
| Confirmation.DroppedSurvivesCrashes | examples/hotstuff_client.cpp:135 | with at most nfaulty crashes, a replica that has not crashed holds every dropped command |
| Confirmation.ClaimsNeedNotBeDistinct | examples/hotstuff_client.cpp:117-135 | exactly nfaulty + 1 claims drop a command, even from one replica, so crash faults are all this tolerates |
| PromiseLibrary.PromiseStore.Settle | include/hotstuff/promise.hpp:577-599 | a pending promise takes the state given and all its callbacks have their effect, with its value; a settled one keeps its state; all nested calls end, whatever callbacks settle, make, register or wait for, and no promise settled before has a callback run again |
| PromiseLibrary.PromiseStore.Trigger | include/hotstuff/promise.hpp:472-482 | all callbacks of the promise are run, one after the other, and each has had its effect |
| PromiseLibrary.PromiseStore.RunCallback | include/hotstuff/promise.hpp:296-374 | after it the callback has had its effect: a forwarded result has been passed on; the user's code has been carried out and the dependent promise told the result |
| PromiseLibrary.PromiseStore.RunHandler | include/hotstuff/promise.hpp:296-374 | every act of the user's code has been carried out on the promises it names, captured or made on the way; the dependent promise has been settled with nothing, with the value returned, or made to follow the promise returned |
| PromiseLibrary.PromiseStore.ChainTo | include/hotstuff/promise.hpp:235-247 | the dependent promise has been told the result of the promise a callback returned, or will be when that is settled |
| PromiseLibrary.PromiseStore.Register | include/hotstuff/promise.hpp:489-575 | `then` and `fail`, inside of callbacks or not: on a pending promise the callbacks are registered last; on a settled one the right one is run at once; a missing callback passes the result on |
| PromiseLibrary.PromiseStore.Await | include/hotstuff/promise.hpp:602-624 | `all`, inside of callbacks or not, returns a promise on the given inputs that nobody else has settled |
| PromiseLibrary.PromiseStore.AllOf | include/hotstuff/promise.hpp:602-624 | from outside; it throws on an empty list |
| PromiseLibrary.AllIsExact | include/hotstuff/promise.hpp:602-624 | unless somebody else has settled that promise, it is fulfilled if and only if all inputs are, with their values in input order, and rejected if and only if some input is, for any order of settlement |
| PromiseLibrary.CallbacksRunOnce | include/hotstuff/promise.hpp:467-482 | the callbacks registered on a promise have each been run exactly once, in the order of registration, if it is settled, and not at all if it is pending |
| PromiseEffects.FirstCallDecides | include/hotstuff/promise.hpp:577-599 | a promise is pending exactly as long as nobody has called resolve or reject on it, and then in the state of the first call |
| PromiseEffects.ThenPassesOn | include/hotstuff/promise.hpp:489-575 | if nobody else settles the promise that `then` returned: without a callback it ends as the first one does, with a callback in the value that it returns for the first one's value |
| Wire.BlockRoundTrips | src/entity.cpp:22-57 | a block read from its serialized form, whatever follows, is the block, and what follows is left |
| Wire.BlockEncodingIsInjective | src/entity.cpp:22-30 | the bytes that are hashed determine the block, and none is the start of another |
| Wire.CertRoundTrips | include/hotstuff/crypto.h:415-425 | the same for certificates, whose number of signatures is in the bits |
| Wire.VoteRoundTrips | include/hotstuff/consensus.h:236-244 | the same for votes |
| Wire.FinalityRoundTrips | include/hotstuff/consensus.h:288-300 | the same for Finality, except that the block hash comes back only with a decision of 1 |
| Wire.ReqBlockRoundTrips | src/hotstuff.cpp:45-57 | the same for block requests |
| Wire.CmdRoundTrips | include/hotstuff/client.h:94-117 | the same for commands |
| WireLayout.BlockLayout | src/entity.cpp:22-30 | at which offset of a block's bytes each parent, each command, the certificate and the extra bytes stand, and their numbers in little-endian |
| WireLayout.CertLayout | include/hotstuff/crypto.h:415-419 | the same for certificates |
| WireLayout.SignaturesAreInOrder | include/hotstuff/crypto.h:415-425 | the signatures are those of the replicas whose bit is set, in ascending order |
| WireLayout.VoteLayout | include/hotstuff/consensus.h:236-238 | the same for votes |
| WireLayout.FinalityLayout | include/hotstuff/consensus.h:288-293 | the same for Finality |
| WireLayout.ReqBlockLayout | src/hotstuff.cpp:45-49 | the same for block requests |
| WireLayout.CmdLayout | include/hotstuff/client.h:94-104 | the same for commands |
| DataStreams.DataStream.PutBlock | src/entity.cpp:22-30 | the loops write exactly that form |
| DataStreams.DataStream.GetBlock | src/entity.cpp:32-57 | the loops read it, and throw exactly on what is too short |
| DataStreams.DataStream.PutCert | include/hotstuff/crypto.h:415-419 | the signatures are written in the order of the replicas |
| DataStreams.DataStream.GetCert | include/hotstuff/crypto.h:421-425 | the signatures read are those of exactly the replicas whose bit is set |

## Left out

- Safety.Agreement: of a single three-step run with faulty replicas its condition on made-up blocks is sufficient, not necessary: a block that cites no ancestor does no harm as long as no correct replica votes for it. `Safety.GroundedAgreement` is the weaker condition on votes, and `Counterexample.AgreementIsExact` is exact for configurations.
- Ordering.StateOrdering: likewise sufficient for a single run; `Ordering.OrderIsExact` is exact for configurations.
- Progress.CorrectReplicasCanCommit: says what can happen, not that it does, which would need timing; and it asks for a replica with a high certificate whose `on_propose` does not throw. One that has voted for a high block off the branch of its later hqc cannot propose until that branch is as high (`Progress.ProposesExactly`), and nothing in the core brings that about.
- ComposedLoop.StandstillIsExact: commands reach the proposer, blocks a replica and a replica's answers the client in order, nothing is lost, and a replica has the submission of a command before it commits it.
- ClosedLoop.DeadlockThreshold: for a block size of at least one; with zero the proposer makes an empty block of every command it receives and commits none.
- LeaderChain.ReproposalCommits: the four blocks are issued with nothing in between; when other proposals interleave, only the account of RoundRobin holds.
- LeaderChain.ProposerExecHeight: the proposer's own blocks only, each with the certificate of the one before.
- Delivery.HotStuffBase.AsyncDeliver: where several callbacks wait on one promise their order is not fixed, and an entry is erased before the callbacks run instead of after.
- PromiseLibrary.PromiseStore.RunCallback: a callback is a finite piece of code, so one that registers itself again on a settled promise without end is left out, in which case the nested calls do not end; so are `race` and exceptions thrown by callbacks.
- Confirmation.DroppedMeansCommitted: does not ask that what replicas commit be agreed on; that is Safety.Agreement.
- RoundRobin.EveryBatchIsAccountedFor: whether timers are set is left open, so nothing is said about the rotation making progress; the blocks that `update` commits are arbitrary.
- The stack-free variant of promises (`CPPROMISE_USE_STACK_FREE`), which no build file turns on.
- `prune` and reference counts, which the application does not use.
- Uncles as parents of new blocks, which `get_parents` never produces; received blocks may have them.
- Timers, timeouts and re-sending of fetch requests.
- Sockets, TLS, threads, logging and statistics; the queues between threads are taken as given sequences.
- secp256k1, hashing, and the bit vectors and streams of the network library, which is not part of this model.
- Ill-formed signature bytes, which the signature library may refuse on reading.
- The SmallBank application, the key generators, and the benchmark and deployment scripts.
