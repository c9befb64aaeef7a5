# Sailfish ordering, verified in Dafny

This project models the ordering engine of a Sailfish node, the primary that feeds it, and three
self-contained parts beside them, and proves what they promise.

- **Ordering** (`Config`, `Dag`, `Ordering`, `Consensus`): the garbage-collected dag of certificates, the two
  commit rules, the walk back to earlier leaders, the flattening of a leader's sub-dag, the pruning. The
  functions of `Ordering` say what is computed; the classes of `Consensus` are the in-place code, proved equal to
  them. `SubDags` and `Layers` (what a batch holds, and in which order), `Runs`, `Once`, `Agreement`,
  `CanonicalBatches` and `OutputAgreement` (safety of runs) and `Progress` (no supported leader is left uncommitted)
  prove the theorems about them.
- **Primary** (`Messages`, `Aggregators`, `Processing` and `Core`, `Proposing` and `Proposer`,
  `CertificateWaiter`): again functions, and classes proved equal to them. `CoreRuns`, `CoreSources`,
  `Certification` and `ProposerRuns` prove what runs keep; `CoreProgress`, `CoreReplies`, `CoreAnswers`, `CoreVotes`
  and `ProposerProgress` what has to be sent, told from the messages received and sent before and not from the
  code's own variables.
- **Deployment** and **EndToEnd** put proposers, cores and consensus of all members together and derive leader
  agreement from the code of the primaries.
- **Store**, **ReliableSender**, **Extract**: the notify-on-write map, the retransmit queue, the resumable
  extraction.
- **Limits** (over the runs of `LimitRuns`) and **LateHeaders** hold the inputs on which a promise fails; the
  exact condition under which it holds is proved beside the promise.

## What is assumed

- Digests are collision free: a certificate digest is the triple the code hashes, a header id stands for its
  hash. Header ids, certificate digests and payload keys are disjoint.
- Stakes and rounds do not overflow; headers and certificates other than genesis have a round above zero.
- `Invariants.CausalRun`: certificates come after their parents (consensus/src/lib.rs:71-72); `CoreRuns.CausalStream`
  proves it of the core.
- `Invariants.HeadersOnce` and `EndToEnd.Fed`: each author's header of a round reaches consensus at most once. The
  code does not enforce this (consensus/src/lib.rs:136-138); `Limits.RepeatExact` and
  `Limits.RepeatedHeaderCommits` say what happens otherwise.
- `Invariants.NoneStale` (for single output): a certificate that was output is not delivered again after its
  author was committed higher. The code admits it (consensus/src/lib.rs:54-55); `Once.RedeliveryExact` says it is
  just what breaks the skip test, `Limits.StaleCommitsTwice` gives a run.
- `Invariants.NoneOvertaken` (for parents first): a certificate is not delivered again after a child of it was
  output without it. `Once.OvertakenExact` and `Limits.OvertakenComesLate` say the same of it.
- `OutputAgreement.NothingMissed` (for whole outputs): no commit finds a certificate dropped that it should
  output. `OutputAgreement.OutputIsCanonical` and `OutputAgreement.AgreementExact` say this is exactly what
  agreement takes, `Limits.OutputsDiverge` gives two runs that disagree, and
  `OutputAgreement.SelfChainedMissesNothing` a condition on the certificates alone that gives it.
  Leader agreement needs none of the three.
- `Deployment.Linked`: every primary follows the code, channels inside a primary are FIFO, signed messages come
  from whom they say, the consensus round only rises, every member has stake.
  Crashes and delays are histories that stop or lag.
  `Certification` needs less: the members that misbehave have stake below the validity threshold.
- `Certification.IdsMatch` (for `Certification.CertifiedWasChecked` only): correct primaries process headers
  whose id, being their hash, determines author, round and parents (primary/src/messages.rs:89-103).
- `CoreRuns.OnTimeRun` (for unique votes only): nothing below the collected round is processed. Loopback
  headers and certificates are not checked for this (primary/src/core.rs:570-575);
  `Certification.VotesAgainIff` and `LateHeaders.LateHeaderVotedTwice` say what happens otherwise.

Where comments and code differ, the code is followed: the `verify` methods of timeout and no-vote certificates
check neither signatures nor the round (primary/src/messages.rs:340-359, 386-403), so agreement is proved for
primaries that follow the code; the no-vote for round zero is sent although the next header does list that
round's leader (`ProposerRuns.GenesisNoVote`); a message of round zero cannot occur, so the subtraction
`round - 1` at consensus/src/lib.rs:124 and 213 is modelled as leaving the state unchanged there.

## Model

| member | source | states |
|---|---|---|
| Config.ThresholdArithmetic | config/src/lib.rs:168-181 | quorum plus validity threshold is the total stake plus one, and two quorums exceed the total by at least the validity threshold, for every total |
| Config.Intersect | config/src/lib.rs:154-156 | two sets of authorities that together outweigh the committee share a member with stake |
| Config.QuorumOverlap | config/src/lib.rs:168-181 | two quorums overlap in at least the validity threshold |
| Consensus.State.constructor | consensus/src/lib.rs:31-42 | the state starts with genesis as its dag and nothing committed |
| Consensus.State.Update | consensus/src/lib.rs:45-62 | recording a commit and the nested `retain` per authority leave one filter of the dag: round not below the author's last commit, inside the window, no empty rounds |
| Consensus.Cleanup | consensus/src/lib.rs:56-61 | the `retain` loop gives that filter whatever order the authorities are visited in |
| Consensus.MaxValue | consensus/src/lib.rs:51 | the last committed round is the maximum of the per-author entries |
| Consensus.SupportingStake | consensus/src/lib.rs:226-233 | the stake sum over a round is the joint weight of the authors whose certificates list the leader |
| Consensus.Consensus.constructor | consensus/src/lib.rs:95-107 | a new node has no votes, no output and the genesis state |
| Consensus.Consensus.OrderDag | consensus/src/lib.rs:356-396 | the stack traversal, window filter and sort compute the batch whose members SubDags.OrderDagExact and whose order Layers.OrderDagIsLayered characterise; it terminates |
| Consensus.Consensus.Expand | consensus/src/lib.rs:362-388 | popping a certificate pushes its present, unseen, uncommitted parents in the order it lists them, so that they are popped in reverse (Layers.LaterParentFirst) |
| Consensus.Consensus.Linked | consensus/src/lib.rs:340-352 | the frontier walk answers true exactly when the earlier leader is reached over parent links |
| Consensus.Consensus.OrderLeaders | consensus/src/lib.rs:318-337 | the loop over past rounds lists the leader and the earlier leaders each linked from the one listed before |
| Consensus.Consensus.FlattenAll | consensus/src/lib.rs:244-255 | flattening the leaders of a commit oldest first, the state of each seen by the next |
| Consensus.Consensus.Send | consensus/src/lib.rs:264-293 | the ordered certificates are handed on one by one |
| Consensus.Consensus.Receive | consensus/src/lib.rs:205-210 | a certificate enters the local dag |
| Consensus.Consensus.Turn | consensus/src/lib.rs:117-296 | one turn of the loop |
| Consensus.Consensus.Flatten | consensus/src/lib.rs:148-156 | flattening one leader updates the state once per certificate, in order |
| Consensus.Consensus.Commit | consensus/src/lib.rs:244-293 | a commit flattens its leaders oldest first and sends the result out in that order |
| Consensus.Consensus.OnCertificate | consensus/src/lib.rs:201-294 | a certificate is inserted, and commits the leader one round below it under the f+1 rule, with the whole new state stated |
| Consensus.Consensus.OnHeader | consensus/src/lib.rs:120-199 | a header is counted for the leader one round below it, and commits it under the 2f+1 rule, with the whole new state stated |
| Consensus.Consensus.Run | consensus/src/lib.rs:112-297 | over every run whose certificates come after their parents the loop computes the run of the specification, and no `expect` fires |
| Ordering.Highest | consensus/src/lib.rs:51 | the maximum of the per-author entries exists and is one of them |
| Ordering.Advance | consensus/src/lib.rs:361-388 | each turn of the traversal shrinks the unseen vertices, or keeps them and shrinks the stack |
| Dag.FindScans | consensus/src/lib.rs:366-371 | looking a parent up by origin is the scan of its round for the digest |
| Dag.ReachesIffPath | consensus/src/lib.rs:339-352 | reachability is the existence of an explicit parent path |
| SubDags.DfsExact | consensus/src/lib.rs:361-388 | the traversal finds each vertex the leader reaches through open vertices, once, and nothing else |
| SubDags.OrderDagExact | consensus/src/lib.rs:356-396 | `order_dag` returns, without duplicates and sorted by round, exactly what the leader reaches along uncommitted vertices of the dag inside the window |
| SubDags.LeaderComesLast | consensus/src/lib.rs:390-395 | the leader is the last of its batch and the only one of its round |
| SubDags.SortIsStable | consensus/src/lib.rs:394 | the sort keeps the traversal order within a round |
| Layers.OrderDagIsLayered | consensus/src/lib.rs:356-396 | the batch, as a sequence, is the layers of the open sub-dag inside the window from the lowest up, each layer listing what the vertices of the layer above list, first come first served and each vertex's parents in reverse |
| Layers.LaterParentFirst | consensus/src/lib.rs:361-394 | of two open parents that a certificate is the first in its batch to list, the one listed later comes first |
| Runs.UpdateTop | consensus/src/lib.rs:46-52 | an update keeps the last committed round the maximum of the per-author entries, and moves it to the larger of the old one and the certificate's |
| Runs.UpdateExact | consensus/src/lib.rs:45-62 | an update changes its author's entry alone, and keeps exactly the certificates not below any author's entry, the new one included, that are within the collection depth of the last committed round; no empty round stays |
| Runs.UpdateKeepsAbove | consensus/src/lib.rs:56-61 | an update never removes an entry above the last committed round |
| Runs.ExecGrows | consensus/src/lib.rs:45-62 | over any run neither the last committed round nor any author's entry decreases |
| Runs.OrderLeadersExact | consensus/src/lib.rs:318-337 | a leader above the last committed round is passed over exactly when the next higher listed leader is not linked to it |
| Runs.CommitLeadersAscend | consensus/src/lib.rs:318-337 | the leaders of one commit strictly ascend above the last committed round and end in the new leader |
| Runs.HistoryPresent | consensus/src/lib.rs:343-345 | every round between the last committed one and a delivered certificate is in the dag |
| Runs.ExecInv | consensus/src/lib.rs:112-297 | every run whose certificates come after their parents keeps the dag sound: delivered certificates only, all of those above the last committed round, committed leaders ascending to it |
| Once.SkipTestExact | consensus/src/lib.rs:378-382 | the equality-only skip test is exact: a certificate in the dag was output, or is genesis, just when its round is its author's last committed one |
| Once.RedeliveryExact | consensus/src/lib.rs:54-61 | delivering a certificate leaves the skip test exact if and only if the certificate was not output with its author committed higher since |
| Once.NoDoubleCommit | consensus/src/lib.rs:376-388 | over any run in which no such stale certificate is delivered, no certificate is output twice |
| Once.OvertakenExact | consensus/src/lib.rs:54-61 | delivering a certificate keeps parents first if and only if no child of it was output before it |
| Once.ParentsFirst | consensus/src/lib.rs:243-293 | over any run that delivers nothing stale or overtaken, a parent that is output is output before its child: in one batch, across leaders of one commit, across commits |
| Once.NoReplaysSuffice | consensus/src/lib.rs:54-61 | runs on which nothing dropped is delivered again deliver nothing stale or overtaken |
| Limits.OvertakenComesLate | consensus/src/lib.rs:54-61 | an admissible run, nothing stale delivered, on which an overtaken certificate is output after its child |
| Limits.StaleCommitsTwice | consensus/src/lib.rs:54-61 | an admissible run with a stale redelivery outputs a certificate twice |
| Agreement.QuorumMeetsSupport | consensus/src/lib.rs:225-241 | a quorum of parents one round above a supported leader contains a certificate listing it |
| Agreement.SupportReached | consensus/src/lib.rs:225-241 | a leader with f+1 stake of child certificates or 2f+1 of child headers is reached from every certificate two or more rounds up |
| Agreement.NextLeaderLists | primary/src/core.rs:260-265 | the next certified leader lists a supported leader, as leaving it out takes a quorum of abstentions |
| Agreement.LocalWalk | consensus/src/lib.rs:318-337 | walking back over a node's own pruned dag lists the same leaders as walking back over all certificates |
| Agreement.WalkPassesSupported | consensus/src/lib.rs:318-337 | a walk over leaders passes through every supported leader below it and goes on with that leader's chain |
| Agreement.ExecTallies | consensus/src/lib.rs:136-141 | over any run a round's tally is the joint stake of distinct authors whose headers list the leader |
| Agreement.LeadersAreChain | consensus/src/lib.rs:318-337 | a node's committed leaders are the canonical chain of the last one, oldest first |
| Agreement.LeaderAgreement | consensus/src/lib.rs:213-255 | the committed leaders of any two nodes are prefixes of one another |
| Progress.NoneLeftByCertificates | consensus/src/lib.rs:213-255 | after any run, in no round above the last committed one does the local dag hold a leader whose listing certificates in the next round weigh f+1 |
| Progress.RuleOneComplete | consensus/src/lib.rs:225-241 | once certificates with f+1 stake that list a leader were received, in any order and at any time, the last committed round is not below it |
| Progress.ExecTalliesWait | consensus/src/lib.rs:136-145 | after any run the header tally of every leader above the last committed round is below a quorum, and no tally is less than the stake of the authors counted in it |
| Progress.RuleTwoComplete | consensus/src/lib.rs:120-160 | once headers with a quorum of stake that list a leader were received after it, the last committed round is not below it |
| Progress.SupportedIsCommitted | consensus/src/lib.rs:213-255 | a node has committed every leader that either rule supports by what it received |
| Limits.RepeatExact | consensus/src/lib.rs:136-138 | counting a header keeps the tally the stake of the counted authors if and only if its author was not counted for that round before, or has no stake |
| Limits.RepeatedHeaderCommits | consensus/src/lib.rs:136-145 | in one world the agreement theorems cover, a run on which one real header arrives seven times commits a leader that neither rule supports |
| CanonicalBatches.CanonicalBatchExact | consensus/src/lib.rs:356-396 | a canonical batch is the leader's history minus the earlier leaders' histories, cut at the window, each once, sorted by round |
| CanonicalBatches.BatchExact | consensus/src/lib.rs:56-61 | a node canonical so far flattens the canonical batch if and only if none of the leader's history that is inside the window and not output has been dropped from its dag |
| OutputAgreement.OutputIsCanonical | consensus/src/lib.rs:243-293 | whatever the arrival order and the pruning, a node's output is the canonical output of its committed leaders if and only if no commit found such a certificate dropped |
| OutputAgreement.FullOutputAgreement | consensus/src/lib.rs:243-293 | the whole outputs of any two nodes that found none dropped are prefixes of one another |
| OutputAgreement.AgreementExact | consensus/src/lib.rs:243-293 | a node agrees with one that is not behind it and found none dropped if and only if it found none dropped either |
| OutputAgreement.SelfChainedMissesNothing | consensus/src/lib.rs:56-61 | if certificates' histories hold their authors' earlier certificates, no run finds any dropped |
| Limits.OutputsDiverge | consensus/src/lib.rs:56-61 | two admissible runs over one world, nothing delivered again and the same leaders committed, whose outputs are no prefixes of one another: a certificate dropped by one node arrives late at the other and is output there |
| Messages.VerifyWeight | primary/src/messages.rs:436-449 | the weight loop passes exactly the lists of distinct members with stake that make a quorum, and otherwise reports the first objection, or the missing quorum |
| Messages.VerifyCertificate | primary/src/messages.rs:427-453 | a certificate is accepted exactly if it equals a genesis certificate or has a known author and a quorum of distinct voters |
| Messages.GenesisExact | primary/src/messages.rs:413-425 | equality with a genesis certificate is blank id, round zero and a member for origin |
| Aggregators.CertificateWhenRipe | primary/src/aggregators.rs:24-52 | over any sequence of votes, repeats included, a certificate comes exactly with the vote that makes the leader and a quorum have voted, and passes the weight loop |
| Aggregators.AtMostOneCertificate | primary/src/aggregators.rs:44-50 | no sequence of votes yields two certificates |
| Aggregators.AddVoteFits | primary/src/aggregators.rs:24-52 | after the reset the stake still to come is below a quorum |
| Aggregators.VotesAggregator.constructor | primary/src/aggregators.rs:16-22 | an empty aggregator |
| Aggregators.VotesAggregator.Append | primary/src/aggregators.rs:24-52 | the in-place aggregator makes that step |
| Aggregators.ParentsMessages | primary/src/aggregators.rs:71-90 | the first message to the proposer is a quorum of distinct origins, every later one a single new origin |
| Aggregators.FirstsDistinct | primary/src/aggregators.rs:76-83 | certificates of a known origin are left out |
| Aggregators.CertificatesAggregator.constructor | primary/src/aggregators.rs:63-69 | an empty aggregator |
| Aggregators.CertificatesAggregator.Append | primary/src/aggregators.rs:71-90 | the in-place aggregator makes that step |
| Aggregators.AddNameFits | primary/src/aggregators.rs:109-129 | every new timeout or no-vote from the quorum on yields a certificate of all names so far, which passes the weight loop |
| Aggregators.NameAggregator.constructor | primary/src/aggregators.rs:139-145 | an empty aggregator |
| Aggregators.NameAggregator.Append | primary/src/aggregators.rs:148-168 | the in-place aggregator makes that step |
| Core.Core.constructor | primary/src/core.rs:108-137 | the initial state |
| Core.Core.GetParents | primary/src/synchronizer.rs:89-118 | all parents, genesis or stored, or nothing and a request to the header waiter |
| Core.Core.HasAncestors | primary/src/synchronizer.rs:122-137 | true exactly if no parent is missing; otherwise the certificate goes to the certificate waiter |
| Core.Core.CheckHeader | primary/src/core.rs:243-265 | the checks pass exactly for parents of the previous round with a quorum of stake that include the leader, or else with a quorum of timeouts and, from the round's leader, of no-votes |
| Core.Core.ProcessHeader | primary/src/core.rs:223-308 | the whole effect of a header, through the recursion into votes and certificates, which terminates |
| Core.Core.ProcessVote | primary/src/core.rs:369-400 | the whole effect of a vote, through the recursion |
| Core.Core.ProcessCertificate | primary/src/core.rs:403-427 | the whole effect of a certificate, through the recursion |
| Core.Core.Deliver | primary/src/core.rs:419-456 | a certificate with all parents is stored, handed to the proposer's aggregator and sent to consensus in one step; one without is held back |
| Core.Core.ProcessTimeout | primary/src/core.rs:311-329 | a timeout is aggregated per round |
| Core.Core.ProcessNoVoteMsg | primary/src/core.rs:332-366 | a no-vote is aggregated per round, in an aggregator that starts with our own |
| Core.Core.Sanitize | primary/src/core.rs:458-522 | what the main loop lets through |
| Core.Core.Dispatch | primary/src/core.rs:527-583 | each input has its effect, or none if it is not let through |
| Core.Core.RunOnce | primary/src/core.rs:527-603 | one turn of the main loop with the cleanup at its end |
| Core.Core.Run | primary/src/core.rs:525-605 | the main loop over a run, up to a panic |
| CoreRuns.CausalStream | primary/src/core.rs:402-456 | on every run each certificate sent to consensus has all its non-genesis parents sent earlier |
| CoreRuns.RunRecords | primary/src/core.rs:278-285 | over runs with a rising consensus round, the authors recorded as voted for are exactly those of earlier votes at or above the collected round |
| CoreRuns.OneVoteEach | primary/src/core.rs:278-285 | if nothing below the collected round is processed, two votes of a primary for one round and author are the same |
| CoreRuns.RunKeeps | primary/src/core.rs:223-308 | every vote is for a header whose parents were delivered before and which passed the checks |
| Certification.VotesAgainIff | primary/src/core.rs:278-285 | after any run a primary votes for a header that passes if and only if it has not voted for that round and author, or the round is below the one it has collected |
| LateHeaders.LateHeaderVotedTwice | primary/src/core.rs:570 | a run on which a header comes back from the header waiter after its round was collected and is voted for again; what comes back was waited for, and what is collected was committed on delivered certificates |
| Certification.CertificateUniqueness | primary/src/aggregators.rs:24-52 | with misbehaving stake below the validity threshold, two certificates of one round and author carry the same header |
| Certification.CertifiedWasChecked | primary/src/core.rs:243-265 | the parents a certificate lists had all been delivered to some correct primary, are of the previous round and a quorum, and hold the leader, or the timeouts and no-votes were in place |
| CoreAnswers.HeaderAnswered | primary/src/core.rs:223-308 | every header let through is forwarded and answered: a request for parents just when some parent was not sent to consensus, one for the payload just when it has not come, and else a vote just when the header passes the structural checks and no vote for its round and author was cast that is not collected yet |
| CoreAnswers.ReceivedIsAnswered | primary/src/core.rs:403-456 | a certificate let through is sent to consensus or handed to the certificate waiter, unless its header is new and fails the structural checks, and only then not |
| CoreProgress.AssembledIsAnswered | primary/src/core.rs:369-400 | every certificate the primary assembles is sent to consensus, or handed to the certificate waiter, after it was broadcast |
| CoreProgress.HeldBackJustly | primary/src/core.rs:419-425 | a certificate is handed to the certificate waiter only if some parent of it was not sent to consensus before |
| CoreProgress.ParentsTold | primary/src/core.rs:432-445 | the proposer is told nothing of a round until certificates by a quorum were sent to consensus, and then exactly the first one of every author, in that order |
| CoreVotes.AssembledWhenRipe | primary/src/core.rs:369-395 | since our header was made, exactly one certificate for it is assembled if the leader of its round and a quorum voted for it, by the votes received and our own, and none otherwise |
| CoreReplies.TimeoutsTold | primary/src/core.rs:311-329 | the proposer gets exactly one timeout certificate for every new author of a timeout let through from the quorum on, with all authors so far |
| CoreReplies.NoVotesTold | primary/src/core.rs:332-366 | the same of no-votes, our own counted first |
| CoreSources.RunTraced | primary/src/core.rs:369-456 | on every run certificates are assembled only for our own headers, each message to the proposer is about one round and the first about it is a quorum of delivered certificates, and timeout and no-vote certificates carry a quorum of received names |
| CertificateWaiter.WaiterExact | primary/src/certificate_waiter.rs:56-85 | over any run a certificate comes back as often as it was held, less the open waits, only with all its parents stored; a wait misses exactly the parents not yet stored |
| CertificateWaiter.LoopedIsDelivered | primary/src/certificate_waiter.rs:39-54 | a certificate that came back is stored and sent to consensus |
| CertificateWaiter.CertificateWaiter.constructor | primary/src/certificate_waiter.rs:57 | an empty pool |
| CertificateWaiter.CertificateWaiter.Receive | primary/src/certificate_waiter.rs:61-73 | a received certificate waits for its unstored parents |
| CertificateWaiter.CertificateWaiter.OnStored | primary/src/certificate_waiter.rs:45-53 | a stored parent is taken off every open wait |
| CertificateWaiter.CertificateWaiter.Next | primary/src/certificate_waiter.rs:74-77 | a finished wait returns its certificate |
| Proposer.Proposer.constructor | primary/src/proposer.rs:78-100 | the proposer starts at round zero with the genesis parents |
| Proposer.Proposer.MakeTimeoutMsg | primary/src/proposer.rs:106-120 | a timeout for the current round |
| Proposer.Proposer.MakeNoVoteMsg | primary/src/proposer.rs:122-136 | a no-vote for the current round |
| Proposer.Proposer.MakeHeader | primary/src/proposer.rs:138-188 | the header carries the drained parents' digests in set order and the certificates of the previous round |
| Proposer.Proposer.UpdateLeader | primary/src/proposer.rs:191-204 | the leader among the parents held, if any |
| Proposer.Proposer.Advance | primary/src/proposer.rs:216-253 | the part of the loop before the select: timeout, no-vote, next header |
| Proposer.Proposer.NextRound | primary/src/proposer.rs:241-252 | the round advances, its header is made, and the size and the timeout flag are reset |
| Proposer.Proposer.Select | primary/src/proposer.rs:255-332 | what each received message changes, including the jump ahead |
| Proposer.Proposer.RunOnce | primary/src/proposer.rs:215-333 | one pass of the loop |
| Proposer.Proposer.Run | primary/src/proposer.rs:207-334 | the main loop over a run |
| Proposing.CollectExact | primary/src/proposer.rs:157 | the parents of a header are the digests of the certificates held, each once, in increasing order |
| ProposerRuns.HeadersPass | primary/src/proposer.rs:207-280 | every header emitted passes the peers' structural checks, over jumps ahead and the stale `advance` flag |
| ProposerRuns.RunHeard | primary/src/proposer.rs:138-160 | every header is made from certificates and a no-vote certificate the core handed over |
| ProposerRuns.OneHeaderPerRound | primary/src/proposer.rs:235-253 | a proposer makes at most one header per round |
| ProposerRuns.NoVoteExclusion | primary/src/proposer.rs:235-253 | a header that follows a no-vote for the round below it leaves that round's leader out if and only if the round is not zero |
| ProposerRuns.GenesisNoVote | primary/src/proposer.rs:235-253 | every proposer that does not lead round one sends a no-vote for round zero, and then a header that lists its leader, if its timer expires first |
| ProposerRuns.NoVoteExact | primary/src/proposer.rs:237-239 | for rounds after genesis a no-vote is sent exactly when the next header leaves the leader out and its author does not lead its round |
| ProposerRuns.OneTimeoutPerRound | primary/src/proposer.rs:229-233 | at most one timeout is sent for a round |
| ProposerProgress.PassSends | primary/src/proposer.rs:216-253 | on every run what a pass sends is a function of the messages received and the headers made before, without the proposer's own fields |
| ProposerProgress.ProposesExactly | primary/src/proposer.rs:235-253 | a pass makes a header if and only if parents are held and either the timer has expired with the round's timeout certificate and, for the next leader, its no-vote certificate, or the payload since the last header reaches the size and the leader was among the parents last received, or none came yet; it is the header those messages determine |
| Deployment.InputsGood | primary/src/aggregators.rs:71-90 | over the FIFO channel the proposer hears a quorum first about each round and non-empty messages after, and only certificates that carry a quorum |
| Deployment.ProposedHeadersPass | primary/src/core.rs:243-265 | every header proposed in a deployment passes every peer's structural checks |
| Deployment.VerticesUnique | primary/src/core.rs:198-220 | one certificate per round and author |
| Deployment.ParentFound | primary/src/core.rs:434-445 | every parent listed in a proposed header is an assembled certificate or genesis |
| Deployment.LeaderlessAbstained | primary/src/core.rs:260-265 | a certified leader without the previous leader comes with a quorum of authors whose headers do not list it, the leader's own automatic no-vote included |
| Deployment.WorldVotes | primary/src/core.rs:223-308 | every deployment whose primaries follow the code meets all assumptions of the ordering theorems |
| EndToEnd.FedIsValid | primary/src/core.rs:447-454 | what a core feeds to consensus, in any interleaving of the two channels, is an admissible run |
| EndToEnd.NodesAgree | consensus/src/lib.rs:213-255 | in any such deployment, whatever crashes and delays, any two nodes commit the same leaders in the same order |
| EndToEnd.NodesOutputAlike | consensus/src/lib.rs:243-293 | and, if nothing stale is delivered, the same whole outputs: between a node that found nothing dropped and one not ahead of it exactly if that one found nothing dropped either |
| Store.RunRefines | store/src/lib.rs:40-87 | the database is the map of the last successful writes, and a key with waiting readers is never in it |
| Store.AnsweredAsDue | store/src/lib.rs:57-84 | each reader is answered at most once: a plain read with the content, a blocking read with the content or the first value written later, and not before |
| Store.FirstComeFirstServed | store/src/lib.rs:57-84 | once a blocking read has its reply, every earlier one of the same key has had its reply before |
| Store.QueuedInOrder | store/src/lib.rs:75-83 | readers waiting for one key are queued in the order they came |
| Store.QueueExact | store/src/lib.rs:75-83 | the readers queued for a key are exactly the blocking reads still due; none after a write |
| Store.Store.constructor | store/src/lib.rs:29-42 | an empty store |
| Store.Store.Handle | store/src/lib.rs:43-86 | the in-place command handler makes that step |
| Store.Store.Serve | store/src/lib.rs:42-87 | the command loop over a run |
| ReliableSender.NothingLost | network/src/reliable_sender.rs:185-247 | over any interleaving the pending and buffered messages are those submitted and neither acknowledged nor dropped, each once, in order of submission; only cancelled ones are dropped |
| ReliableSender.AcknowledgedInOrder | network/src/reliable_sender.rs:220-228 | the k-th acknowledgement of a connection resolves the k-th message written on it |
| ReliableSender.CancelledNotSent | network/src/reliable_sender.rs:193-199 | after its cancellation a message is never put on the wire of the current connection, and a new connection has nothing on the wire |
| ReliableSender.NeverSentAgain | network/src/reliable_sender.rs:193-199 | over any longer run, whatever is written after the cancellation of a message is not that message |
| ReliableSender.OldestSentFirst | network/src/reliable_sender.rs:193-212 | a successful write puts the oldest unsent message on the wire, or drops it if it was cancelled; a failed one ends the connection and loses nothing |
| ReliableSender.ReplyResolves | network/src/reliable_sender.rs:220-237 | an acknowledgement resolves the oldest message on the wire; a failed or unexpected one ends the connection and loses nothing |
| ReliableSender.SubmissionTaken | network/src/reliable_sender.rs:173-218 | a submitted message is taken while waiting to reconnect, when all cancelled ones are let go and only they, and otherwise once nothing is left to send |
| ReliableSender.BackoffExact | network/src/reliable_sender.rs:145-170 | over any events, after k attempts failed since the last success the connection waits 200 doubled k - 1 times, at most 60000, and the timer doubles that once more |
| ReliableSender.Connection.constructor | network/src/reliable_sender.rs:126-136 | nothing buffered, first delay 200 |
| ReliableSender.Connection.Restore | network/src/reliable_sender.rs:241-245 | unacknowledged messages go back in front, in order |
| ReliableSender.Connection.SendFront | network/src/reliable_sender.rs:193-212 | the front is skipped, written or kept |
| ReliableSender.Connection.OnReply | network/src/reliable_sender.rs:220-237 | a reply resolves the oldest message written, or ends the connection |
| ReliableSender.Connection.DrainOne | network/src/reliable_sender.rs:173-176 | while waiting a message is queued and cancelled ones are let go |
| ReliableSender.Connection.Handle | network/src/reliable_sender.rs:143-238 | what each event changes |
| ReliableSender.Connection.Serve | network/src/reliable_sender.rs:140-182 | the connection over a whole run |
| Extract.NormalizeTwice | extract_batches_from_ordered_certs.py:82-88 | a normalised transaction is trimmed, empty or hex-prefixed, and normalising it again changes nothing |
| Extract.LoadExisting | extract_batches_from_ordered_certs.py:208-221 | whatever is at the path: the records of a JSON object, else none; the keys of all of them; one past the highest index, or zero if some key is no integer |
| Extract.FetchBatch | extract_batches_from_ordered_certs.py:260-281 | the first non-empty answer is taken; retries run out only after as many empty answers as allowed, a stop is reported exactly if one was seen, and no more attempts are made than it takes |
| Extract.FindTransactions | extract_batches_from_ordered_certs.py:256-283 | the transactions the certificate lists, or else what the batch store has; given up only when neither has them |
| Extract.ExtractBatches | extract_batches_from_ordered_certs.py:227-317 | from whatever file is found, the file left is that with exactly the records for the batches dealt with added from the next index: all batches on completion; up to one that is new and nobody has when retries run out; up to a stop only once it was requested; as many as snapshots were written when killed |
| Extract.ResumeTo | extract_batches_from_ordered_certs.py:246-304 | going over the first batches again on top of earlier records gives the longer of the two |
| Extract.ResumeEquivalence | extract_batches_from_ordered_certs.py:208-304 | any chain of interrupted runs over a growing input leaves a prefix, keyed 0..n-1, of one uninterrupted run's records; all of them once it completes |
| Extract.EachBatchOnce | extract_batches_from_ordered_certs.py:251-254 | every batch of an identified certificate is recorded exactly once |
| Extract.RerunExact | extract_batches_from_ordered_certs.py:218-221 | running again adds nothing if and only if every certificate with batches has an id |

## Left out

- Signatures, hashing, serialisation: messages are authentic values, digests are injective.
- Messages.VerifyCertificate: leaves out that the embedded header's id is its hash, that its worker ids are known and that the signatures are valid.
- Core.Core.Sanitize: leaves out the same three checks of headers, votes and certificates.
- Extract.LoadExisting: leaves out keys that are integers in another spelling than the numeral of an index, such as `-1` or `03`.
- Sockets, timers, channels and the database: their outcomes are inputs of the steps, in any order the code allows.
- Header payloads: which batches a header carries is not modelled; whether all are available is an input (`PayloadStored`).
- `primary/src/header_waiter.rs`, `primary/src/helper.rs`, worker synchronisation: a looped-back header is an input of the core.
- `primary/src/garbage_collector.rs`: the consensus round the core reads is an input that only rises.
- Batch making, quorum waiting and processing in the workers; RPC drivers; benchmarks; command line tools.
- Liveness beyond what is done by the end of each step, and latency: they depend on timing and fairness that are not in the code.
- Which error a rejected message is logged with, outside `Messages.VerifyWeight`.
- `cfg(test)` leader election, logging and benchmark branches.
- Aggregators inside the core are held by value, and the in-place classes of `Aggregators` are proved to make the same steps; sharing through `Arc` and cloned senders is not modelled.
- `TimeoutAggregator` and `NoVoteAggregator` are one class, `Aggregators.NameAggregator`; `add_timeout` and `add_no_vote`, which nothing calls, are not modelled.
- Cancel handlers of the core and the read-only store are not modelled.
- Agreement among primaries some of which deviate from the code: no-vote certificates are accepted without their signatures.
