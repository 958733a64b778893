# NexusMQ in Dafny

A model of the parts of the NexusMQ broker whose correctness is hard to see from the code, and proofs
of what they guarantee. `dafny verify dfyconfig.toml` checks everything. Each part that updates objects
in place is a class whose methods are proved equal to functions on its state; the guarantees are then
proved about those functions over every input, every run or every reachable state.

**Replication.** `NodeSpec` says what each input does to a replica; `RaftNode` computes it field by
field. `Cluster` runs a group of replicas over a network that loses, duplicates and reorders; every
packet ever sent may be delivered again at any time. `Protocol` and `Actions` hold the argument, on
histories: one log per term, what each node accepted and voted, and for each node a promise about what
it will never again support. `ClusterInv`, `NodeSteps`, `Handlers`, `ClusterSteps`, `Mail` and
`Commitment` tie running nodes to histories, and `Safety` states the results. `Progress` says what a node
does not put off, and `CatchUp` and `Convergence` that a leader brings any follower up to date. `LogView` is a log that
still remembers what was compacted; `RaftLog` over `PartitionLog` and `Sidecar` implements it.

Four things the code relies on without enforcing them appear as named conditions on runs, each a check
of the event and the state before it. None can be dropped: for each there is a complete run of a group
of three that breaks it, keeps the others the failing result needs, and ends with that result false.

- `VoteKindKept`: a vote reply does not say which question it answers, so a late granted pre-vote reply
  would be counted as a vote. `NeededAssumptions.TwoLeadersOfOneTerm` ends with two leaders.
- `RestartsClean`: replies leave before the term and vote are saved, so a node may restart only when
  nothing is unsaved. `NeededAssumptions.ForgottenVoteElectsTwo` ends with two leaders.
- `AckIsLatest`: a success reply is credited with the last index sent to that peer, whatever request it
  answers. `NeededAssumptions.CommittedEntryIsLost` loses a committed entry.
- `FullRequestCovers`: a follower clamps the leader's commit index to the end of its own log, not to the
  end of the request. It says that no full request is delivered to a node that already holds all of it
  and more while the leader has committed past it, which by `Commitment.CommitStaysCovered` is exactly
  when the commit index would move past the request. `StaleTail.CommittedPrefixesDiffer` ends with two
  nodes that report different 65th entries as committed. For requests of fewer than 64 entries nothing
  is assumed: they are proved to reach the end of the leader's log.

One state defeats catching up even when all four hold: a leader that has compacted nothing and sends from
its first entry, to a follower that has compacted that entry and the next. The follower cannot compare the
entry, refuses to cut a compacted index and gives no hint, and the leader's next index stays 1.
`WedgedRun.WedgeIsReachable` gets there by losing one acknowledgement; it ends when the leader compacts.

`TrioRuns`, `TrioElections` and `TrioReplication` hold the pieces these runs are put together from.

**Transactions.** `Coordinator` and `TransactionCoordinator` are the two-phase commit, `TxnIndex`,
`TxnFilter` and `ReadCommitted` the last stable offset and read_committed filtering, and `TxnSystem`
composes coordinator, marker delivery and partition logs. `Produce` is sequence-number deduplication.
In the runs of `TxnSystem` marker orders and acknowledgements are repeated, reordered and lost, and the coordinator
crashes and keeps nothing but its transaction table. `TxnSystem.Run` assumes of producers that they begin
with identities they were issued, that they write only to added partitions of an open transaction, and
that when they begin again no marker order and no acknowledgement of theirs is on its way and no order of
a still prepared transaction was lost since the last resume. `TxnIntent` and `TxnHistory` tie outcomes,
participants and fencing back to the requests that caused them. `NeededQuiet` has a run for each of these
last three conditions in which a result fails without it. Filtering is exact under a condition on the slice
(`Clean`) and on no larger set of slices; `CommittedDataCanBeWithheld` is a log where it is not.

**Formats and containers.** Record batches with CRC32C, varints and zigzag (`Bytes`, `Crc32c`,
`CrcDivision`, `CrcDetection`, `Varint`, `Framing`, `RecordCodec`, `RecordBatch`, `BatchIntegrity`),
streaming SHA-256 (`Sha256`), the JSON writer and parser (`Json*`), the block cache (`BlockReader`), the
consumer group (`ConsumerGroup`, `GroupRounds`) and the consistent-hash ring (`HashRing`). The grammar the
parser accepts is RFC 8259 with three additions the code makes: a point without digits after it, control
characters in strings, and a low surrogate alone.

## Model

| member | source | states |
|---|---|---|
| `Safety.ElectionSafety` | src/consensus/raft_node.cpp:57-96 | over every run with kept vote kinds and clean restarts, two nodes that are leader of the same term at any two moments are the same node; learners, transfers, duplicates and restarts included |
| `Safety.LogMatching` | src/consensus/raft_node.cpp:283-345 | same runs: two logs, at any two moments, with the same term at an index are equal up to that index, through conflict truncation, compaction and snapshots |
| `Safety.LeaderCompleteness` | src/consensus/raft_node.cpp:151-174 | when acknowledgements are credited to the latest request, whatever a leader commits is a prefix of the log of every leader of a later term, observed before or after the commit |
| `Safety.StateMachineSafety` | src/consensus/raft_node.cpp:308-345 | when no full request overreaches the node it reaches, what any two nodes report committed at any two moments is one a prefix of the other, and no commit index points past its log |
| `Progress.HeldByMajorityIsCommitted` | src/consensus/raft_node.cpp:151-174 | at every moment of every run with latest acknowledgements, a leader has committed every index of its own term that it knows a majority of the voters to hold |
| `Progress.VoteIsGrantedIff` | src/consensus/raft_node.cpp:234-256 | in every run a vote is granted if and only if the request is of a later term, or of this one with no vote for another candidate, and the candidate's log is no older; what is recorded either way |
| `Progress.PreVoteIsGrantedIff` | src/consensus/raft_node.cpp:214-232 | in every run a pre-vote is granted if and only if the term is no lower, the log no older, the node asked does not lead, and its last accepted leader request since it was started is at least the minimum election timeout ago; the node is unchanged |
| `Progress.VoteWinsWithMajority` | src/consensus/raft_node.cpp:258-281 | a granted vote makes a candidate leader exactly when the distinct granters are more than half of the group's voters |
| `Progress.PreVoteWinsWithMajority` | src/consensus/raft_node.cpp:258-281 | a granted pre-vote makes a candidacy in the next term, with a vote for itself, exactly when the distinct granters are more than half of the voters |
| `Progress.ElectionAsksVoters` | src/consensus/raft_node.cpp:98-112 | an election asks every other voter of the group once, with the same question, and nobody else |
| `Progress.DeadlineStartsElection` | src/consensus/raft_node.cpp:188-204 | a started node that does not lead begins a pre-election, or leads at once as the only voter, if and only if its deadline has passed and it votes; otherwise the tick changes nothing |
| `Progress.HeartbeatServesAll` | src/consensus/raft_node.cpp:188-204 | a leader's tick serves every peer once if its heartbeat is due and changes nothing otherwise |
| `Progress.TransferWaitsForTarget` | src/consensus/raft_node.cpp:176-186 | a pending transfer fires at the acknowledgement that shows the target to hold the whole log and at no earlier one |
| `Progress.OrderedToStand` | src/consensus/raft_node.cpp:406-414 | a node told to stand does so, one term above the order, if and only if it votes and the order is not outdated |
| `CatchUp.ConvergesIff` | src/consensus/raft_node.cpp:283-368 | for any two related logs, however far apart, finitely many exchanges of request and reply make the follower hold the leader's whole log and the leader know it, if and only if it already is so or the two are not stuck: the leader has compacted nothing and sends from its first entry, and the follower has compacted two or more |
| `CatchUp.StuckStays` | src/consensus/raft_node.cpp:283-306 | from that state no number of exchanges changes anything |
| `Convergence.RoundIsExchange` | src/consensus/raft_node.cpp:125-143 | the leader's request, the follower's answer and the leader's taking it in, by the handlers, are one such exchange, refusals and snapshots included |
| `Convergence.RunsAreRelated` | src/consensus/raft_node.cpp:308-368 | at every moment of every run a leader and any node not ahead of it have logs related as an exchange needs |
| `Convergence.FollowerCatchesUp` | src/consensus/raft_node.cpp:347-368 | so from every reachable state that is not stuck there is a number of rounds, whatever the times, after which the peer holds the leader's whole log and the leader knows |
| `Convergence.WedgedStays` | src/consensus/raft_node.cpp:283-306 | and from one that is stuck, after any number of rounds the follower's log and what the leader knows of it are unchanged |
| `WedgedRun.WedgeIsReachable` | src/consensus/raft_node.cpp:359-368 | a run of three nodes without a restart that keeps all four conditions and ends in such a state: the acknowledgement of two entries is lost and the follower compacts them before the leader does |
| `NeededAssumptions.TwoLeadersOfOneTerm` | src/consensus/raft_node.cpp:258-281 | a run of three nodes without loss or restart in which a duplicated pre-vote reply makes two nodes leader of term 1 |
| `NeededAssumptions.CommittedEntryIsLost` | src/consensus/raft_node.cpp:347-361 | a fair run in which an old reply is credited to a newer request: node 0 commits index 1 in term 1, node 1 leads term 2 with an empty log |
| `NeededAssumptions.ForgottenVoteElectsTwo` | src/consensus/raft_carrier.cpp:119-158 | a run in which all else holds but node 2 restarts before its vote is saved, votes again in the same term, and two nodes lead it |
| `Commitment.CommitStaysCovered` | src/consensus/raft_node.cpp:308-345 | a request leaves the commit index unchanged or within its own entries if and only if it is not the case that it is accepted, the log already holds all of it and goes on past it, and so does the leader's commit index |
| `StaleTail.CommittedPrefixesDiffer` | src/consensus/raft_node.cpp:338-368 | a run from the start, with kept vote kinds, latest acknowledgements and no restart, after which nodes 0 and 1 report 65 committed entries that differ in the last |
| `ClusterSteps.EventTaken` | src/consensus/raft_carrier.cpp:111-158 | every event of a running group is matched by a step of the history that keeps the protocol invariant and everything recorded so far |
| `Protocol.Matching` | src/consensus/raft_log.cpp:161-202 | two logs rooted in the per-term logs that agree in term at an index agree up to it |
| `Protocol.LeadersComplete` | src/consensus/raft_node.cpp:206-212 | an index chosen in a term is in the log every later leader was elected with |
| `Majority.MajorityReached` | src/consensus/raft_node.cpp:151-174 | the element at the majority position of the sorted match list is reached by a strict majority of the list |
| `Majority.BackersAreMajority` | src/consensus/raft_node.cpp:151-174 | hence the voters known to hold the computed commit index are a strict majority of the group's voters |
| `Majority.MajorityIsGreatest` | src/consensus/raft_node.cpp:151-174 | anything greater than that element is reached by no majority |
| `Majority.HeldIsCommitted` | src/consensus/raft_node.cpp:151-174 | every index of the current term that a majority is known to hold is committed by the next look, whatever else the peers hold; the result is the old index or a held one |
| `Majority.ClusterSizeIsVoters` | src/consensus/raft_node.hpp:185-193 | counting self and peers without the learners counts the voters of the group |
| `Replication.AppendAdopts` | src/consensus/raft_node.cpp:283-306 | applying a consistent request leaves the log as it was if it already held the sender's log up to the end of the request, and makes it exactly that prefix otherwise |
| `Replication.AppendAgrees` | src/consensus/raft_node.cpp:308-345 | after success the follower agrees with the sender at every index the request covers, and no matching entry was removed |
| `Replication.AppendTwice` | src/consensus/raft_node.cpp:283-306 | applying the same request again changes nothing |
| `Replication.InstallAdopts` | src/consensus/raft_log.cpp:328-353 | installing a newer snapshot of the leader's log keeps a log that extends it and replaces any other by it |
| `Commitment.ShortRequestCovers` | src/consensus/raft_node.cpp:125-143 | a request with fewer than 64 entries never moves a follower's commit index past its own entries |
| `Commitment.CommitKept` | src/consensus/raft_node.cpp:308-345 | every event keeps that all commit indices and all commit indices in flight stand for settled prefixes |
| `Commitment.SettledAgree` | src/consensus/raft_node.cpp:151-174 | any two settled prefixes are one a prefix of the other |
| `RaftNodes.RaftNode.constructor` | src/consensus/raft_node.cpp:19-27 | a new node is a follower of term 0 that knows nothing but its log |
| `RaftNodes.RaftNode.Restore` | src/consensus/raft_node.hpp:146-150 | the saved term and vote are taken over and count as saved |
| `RaftNodes.RaftNode.CountMembers` | src/consensus/raft_node.hpp:185-191 | the loop counts the voters among self and peers |
| `RaftNodes.RaftNode.StepDown` | src/consensus/raft_node.cpp:46-55 | stepping down equals the specified transition |
| `RaftNodes.RaftNode.Probe` | src/consensus/raft_node.cpp:57-70 | a pre-election equals the specified transition, single-node groups included |
| `RaftNodes.RaftNode.Stand` | src/consensus/raft_node.cpp:72-85 | a candidacy equals the specified transition |
| `RaftNodes.RaftNode.Lead` | src/consensus/raft_node.cpp:87-96 | taking leadership equals the specified transition, first requests to all peers included |
| `RaftNodes.RaftNode.ResetLeaderProgress` | src/consensus/raft_state.cpp:23-30 | every peer's next index is one past the log and its match index 0 |
| `RaftNodes.RaftNode.BroadcastRequestVote` | src/consensus/raft_node.cpp:98-112 | exactly the voters among the peers are asked, in order |
| `RaftNodes.RaftNode.SendSnapshot` | src/consensus/raft_node.cpp:114-123 | the snapshot base is sent and noted as last sent |
| `RaftNodes.RaftNode.Replicate` | src/consensus/raft_node.cpp:125-143 | a peer gets the snapshot or its next entries, and what was sent is noted |
| `RaftNodes.RaftNode.ReplicateEach` | src/consensus/raft_node.cpp:145-149 | every peer is served once, in order |
| `RaftNodes.RaftNode.AdvanceCommitIndex` | src/consensus/raft_node.cpp:151-174 | the collected and sorted matches give the specified commit index, which is the greatest of its term that a majority holds (`Majority`) |
| `RaftNodes.RaftNode.MaybeTransfer` | src/consensus/raft_node.cpp:176-186 | leadership transfer fires or replicates as specified |
| `RaftNodes.RaftNode.OnTick` | src/consensus/raft_node.cpp:188-204 | a tick equals the specified transition |
| `RaftNodes.RaftNode.IsUpToDate` | src/consensus/raft_node.cpp:206-212 | the later last term, or the longer log of the same last term, as specified |
| `RaftNodes.RaftNode.MakePreVoteReply` | src/consensus/raft_node.cpp:214-232 | granted to a candidate of no lower term and no older log by a node that does not lead and has not heard from a leader lately |
| `RaftNodes.RaftNode.HandleRequestVote` | src/consensus/raft_node.cpp:234-256 | vote and pre-vote requests: new state and reply as specified |
| `RaftNodes.RaftNode.HandleRequestVoteReply` | src/consensus/raft_node.cpp:258-281 | vote replies: new state as specified, pre-vote replies not told apart |
| `RaftNodes.RaftNode.TakeEntries` | src/consensus/raft_node.cpp:283-306 | the skip, cut and append loop computes the specified log, or refuses and leaves it |
| `RaftNodes.RaftNode.HandleAppendEntries` | src/consensus/raft_node.cpp:308-345 | new state and reply as specified, all refusals included |
| `RaftNodes.RaftNode.HandleAppendEntriesReply` | src/consensus/raft_node.cpp:347-368 | credit, backtrack, commit and transfer as specified |
| `RaftNodes.RaftNode.ProposeBatch` | src/consensus/raft_node.cpp:370-389 | the leader appends and replicates and answers the new index; others refuse |
| `RaftNodes.RaftNode.Transfer` | src/consensus/raft_node.cpp:391-404 | refused unless leader and target is a voting peer, else as specified |
| `RaftNodes.RaftNode.HandleTimeoutNow` | src/consensus/raft_node.cpp:406-414 | an immediate candidacy as specified |
| `RaftNodes.RaftNode.HandleInstallSnapshot` | src/consensus/raft_node.cpp:416-439 | new state and reply as specified; the reply does not say whether it was installed |
| `RaftNodes.RaftNode.HandleInstallSnapshotReply` | src/consensus/raft_node.cpp:441-456 | the peer is credited and served as specified |
| `RaftNodes.RaftNode.Flush` | src/consensus/raft_carrier.cpp:148-158 | the outbox is handed over once, in order, and the state counts as saved |
| `RaftNodes.RaftNode.MaybeCompact` | src/consensus/raft_carrier.cpp:160-173 | the log is compacted to the commit index exactly when the threshold is reached |
| `RaftLogs.RaftLog.Append` | src/consensus/raft_log.cpp:161-180 | appends exactly the entries, keeps metadata, base, partition log and sidecars in agreement, answers the last index |
| `RaftLogs.RaftLog.TruncateFrom` | src/consensus/raft_log.cpp:182-202 | drops exactly the index and everything after it; refuses exactly the compacted indices and then changes nothing |
| `RaftLogs.RaftLog.CompactTo` | src/consensus/raft_log.cpp:297-326 | moves the base and nothing else; refuses exactly indices past the end |
| `RaftLogs.RaftLog.InstallSnapshot` | src/consensus/raft_log.cpp:328-353 | keeps the tail if the log holds the snapshot's last entry, starts afresh otherwise, ignores an older one |
| `RaftLogs.RaftLog.EntriesFrom` | src/consensus/raft_log.cpp:241-262 | the entries read back from the partition log are those of the abstract log, at most `max` |
| `RaftLogs.RaftLog.ReadsAgree` | src/consensus/raft_log.cpp:204-218 | last index, last term and the term of any index are those of the abstract log |
| `RaftLogs.RaftLog.OffsetsAgree` | src/consensus/raft_log.cpp:220-226 | the partition offsets of any index are those the abstract log gives by adding up batch sizes |
| `RaftLogs.RaftLog.ReopensAsIs` | src/consensus/raft_log.cpp:86-152 | after any completed operations, opening the two sidecars over the partition log finds the very same entries and base |
| `RaftLogs.CompactionIsInvisible` | src/consensus/raft_log.cpp:297-326 | compaction changes no answer about last index, last term, terms from the base on, or entries and offsets above it |
| `Sidecar.Open` | src/consensus/raft_log.cpp:86-152 | the loading loop computes the specified state or reports the corruption |
| `Sidecar.ReopenRoundTrip` | src/consensus/raft_log.cpp:53-152 | files written from a coherent state open to exactly that state, checksum and fixed-width fields included |
| `Sidecar.LoadBaseIff` | src/consensus/raft_log.cpp:53-83 | a snapshot file that is not empty is accepted as a base if and only if it begins with the record of that base |
| `Sidecar.WrongBaseByteIsRefused` | src/consensus/raft_log.cpp:53-83 | one wrong byte anywhere in the record and it is refused |
| `TxnSystem.AtomicVisibility` | src/broker/transaction_coordinator.cpp:175-236 | over every run of coordinator, marker delivery and partitions, two batches of one transaction on any two partitions are never closed by different decisions |
| `TxnSystem.CompleteMeansClosed` | src/broker/transaction_coordinator.cpp:200-218 | once the coordinator has a transaction complete, each of its batches is closed on its partition by a marker of that decision |
| `TxnIntent.CommittedWasAskedFor` | src/broker/transaction_coordinator.cpp:147-198 | in every run, a batch is committed only if its producer earlier asked for the commit of the transaction it was written in, with the current epoch, while it was open |
| `TxnIntent.AskedIsHonoured` | src/broker/transaction_coordinator.cpp:147-198 | whatever an accepted end of a transaction asked for, commit or abort, is what every batch of it that is ever closed is closed with |
| `TxnIntent.OlderIncarnationsAreFenced` | src/broker/transaction_coordinator.cpp:44-68 | once an identity is issued, every lower epoch of that producer is refused as fenced, changing nothing, at every later moment of the run, and what was open is aborted |
| `TxnIntent.LastEpochIsNotFenced` | src/broker/transaction_coordinator.cpp:44-68 | except when epochs run out: then the new incarnation gets another producer id and the old id may begin again with its last epoch |
| `TxnSystem.OpenIsOnItsWay` | src/broker/transaction_coordinator.cpp:189-198 | in every run, whatever a decided transaction has still open has a marker of its decision on its way, unless an order was lost since the last resume |
| `TxnSystem.ResumeRecovers` | src/broker/transaction_coordinator.cpp:228-236 | after any losses and any crash, one resume puts a marker of the decision on its way to everything a decided transaction has still open |
| `NeededQuiet.TransactionIsSplit` | src/broker/transaction_coordinator.cpp:84-101 | a begin with a higher epoch over a prepared transaction with a marker outstanding: that transaction ends committed on one partition and aborted on another |
| `NeededQuiet.LossSplitsTransaction` | src/broker/transaction_coordinator.cpp:84-101 | the same when the marker was lost and not ordered again |
| `NeededQuiet.CompleteButOpen` | src/broker/transaction_coordinator.cpp:200-218 | a begin while an acknowledgement is on its way: it completes the next transaction of the same epoch, whose data is still open |
| `TxnSystem.RunKeeps` | src/broker/transaction_coordinator.cpp:76-103 | every run keeps the invariant that ties transactions, orders in flight, acknowledgements and logs |
| `Coordinator.StepOk` | src/broker/transaction_coordinator.cpp:125-145 | every call keeps partitions and unacknowledged partitions strictly sorted, the latter within the former, and non-empty exactly while prepared |
| `Coordinator.RunOk` | src/broker/transaction_coordinator.cpp:125-236 | so does every run |
| `Coordinator.DecisionOrdersAll` | src/broker/transaction_coordinator.cpp:175-198 | deciding orders one marker of that decision for every partition of the transaction and none else |
| `Coordinator.DecisionStands` | src/broker/transaction_coordinator.cpp:200-218 | no later call short of a new begin changes a decision, its partitions, or orders a marker of another decision |
| `Coordinator.OneDecision` | src/broker/transaction_coordinator.cpp:175-236 | over any stretch of a run without a new begin all orders of a transaction carry one decision |
| `TxnIntent.EndDecidesAsAsked` | src/broker/transaction_coordinator.cpp:147-198 | ending an open transaction with a current epoch decides it as asked, orders only that decision and touches no other transaction; every other end is refused and changes nothing |
| `TxnIntent.OnlyEndCommits` | src/broker/transaction_coordinator.cpp:44-236 | an open transaction is decided only by its own accepted end, as asked, or by a tick or a new incarnation, as an abort |
| `TxnHistory.ParticipantsWereAdded` | src/broker/transaction_coordinator.cpp:125-145 | in every run an open transaction's partitions are exactly those accepted from its producer since it was opened |
| `TxnHistory.MarkersGoWhereAdded` | src/broker/transaction_coordinator.cpp:175-198 | so whatever decides it orders that decision for exactly those partitions |
| `TxnHistory.AbortedIffIdle` | src/broker/transaction_coordinator.cpp:220-226 | in every run a tick aborts an open transaction if and only if its producer last opened or added to it longer ago than the timeout |
| `Coordinator.ResumeCovers` | src/broker/transaction_coordinator.cpp:228-236 | after a resume every unacknowledged partition of every prepared transaction is ordered at the current coordinator epoch |
| `TransactionCoordinators.TransactionCoordinator.InitProducerId` | src/broker/transaction_coordinator.cpp:44-68 | identity and new state as specified: fences the previous epoch, issues a new id when epochs run out |
| `TransactionCoordinators.TransactionCoordinator.BeginTxn` | src/broker/transaction_coordinator.cpp:76-103 | accepted, refused and changed exactly as specified |
| `TransactionCoordinators.TransactionCoordinator.AddPartitions` | src/broker/transaction_coordinator.cpp:125-145 | each partition is inserted at its place unless present, in a strictly sorted list; errors included |
| `TransactionCoordinators.TransactionCoordinator.EndTxn` | src/broker/transaction_coordinator.cpp:147-173 | commit and abort of an open transaction as specified; which of the two it records is pinned by `EndDecidesAsAsked` |
| `TransactionCoordinators.TransactionCoordinator.Prepare` | src/broker/transaction_coordinator.cpp:175-198 | entering a prepare state and queueing its markers as specified |
| `TransactionCoordinators.TransactionCoordinator.OnMarkerWritten` | src/broker/transaction_coordinator.cpp:200-218 | an acknowledgement removes one partition and completes the transaction with the last |
| `TransactionCoordinators.TransactionCoordinator.OnTick` | src/broker/transaction_coordinator.cpp:220-226 | exactly the ongoing transactions past their timeout are aborted, in whatever order the table is walked |
| `TransactionCoordinators.TransactionCoordinator.ResumePending` | src/broker/transaction_coordinator.cpp:228-236 | every prepared transaction is re-ordered, in whatever order the table is walked |
| `TransactionCoordinators.TransactionCoordinator.TakePending` | src/broker/transaction_coordinator.cpp:238-240 | the queue is handed over once |
| `TxnIndex.PartitionTxnIndex.OnData` | src/broker/partition_txn_index.cpp:56-59 | the first batch of a transaction opens it |
| `TxnIndex.PartitionTxnIndex.OnMarker` | src/broker/partition_txn_index.cpp:61-73 | a marker closes the open transaction and remembers an aborted range |
| `TxnIndex.PartitionTxnIndex.LastStableOffset` | src/broker/partition_txn_index.cpp:75-81 | the loop finds the smaller of high watermark and oldest open beginning |
| `TxnIndex.PartitionTxnIndex.AbortedTransactions` | src/broker/partition_txn_index.cpp:83-97 | the ranges that end after the fetch offset, sorted by beginning |
| `TxnIndex.PartitionTxnIndex.EvictBelow` | src/broker/partition_txn_index.cpp:99-103 | drops exactly the ranges that end below the log start |
| `TxnIndex.SortTxnsSorts` | src/broker/partition_txn_index.cpp:83-97 | the list is a sorted permutation |
| `TxnIndex.FedOpen` | src/broker/partition_txn_index.cpp:56-73 | after any log the index knows exactly the transactions still open in it and where they began |
| `TxnIndex.LsoIsExact` | src/broker/partition_txn_index.cpp:75-81 | for every ordered log the last stable offset is the greatest bound up to the high watermark below which every transactional batch is decided |
| `TxnIndex.LsoNeverFalls` | src/broker/partition_txn_index.cpp:75-81 | it never decreases as the log and the high watermark grow |
| `TxnIndex.EvictionIsInvisible` | src/broker/partition_txn_index.cpp:99-103 | eviction changes no answer for fetches at or above the log start |
| `TxnFilter.AbortedTracker.constructor` | src/broker/partition_txn_index.cpp:15-52 | per producer the sorted beginnings of its listed transactions, cursor at the first |
| `TxnFilter.AbortedTracker.Mark` | src/broker/partition_txn_index.cpp:15-52 | a marker advances only a producer that is inside an aborted transaction |
| `TxnFilter.AbortedTracker.IsAborted` | src/broker/partition_txn_index.cpp:15-52 | data at or past the current beginning enters it; the answer is whether the producer is inside |
| `TxnFilter.FilterCommitted` | src/broker/partition_txn_index.cpp:105-126 | the loop with its mutable tracker keeps exactly the items that pass, in order |
| `ReadCommitted.NothingAbortedIsDelivered` | src/broker/partition_txn_index.cpp:105-126 | for every log, every fetch offset, inside a batch too, and every slice from the batch that reaches it, whatever is delivered is data and not of an aborted transaction |
| `ReadCommitted.DeliveryIsExactIffClean` | src/broker/partition_txn_index.cpp:105-126 | the delivered batches are exactly the visible ones if and only if no producer has, after the marker of a listed transaction without earlier batches of its own in the slice, data that was not aborted |
| `ReadCommitted.CommittedDataCanBeWithheld` | src/broker/partition_txn_index.cpp:27-31 | a concrete log and slice in which a committed batch is withheld |
| `ReadCommitted.VisibleIsCommitted` | src/broker/partition_txn_index.cpp:75-81 | below a stable offset, visible transactional data is exactly committed data |
| `Produce.Partition.Produce` | src/broker/partition.cpp:14-49 | answer and new state as specified; `AppendedIff` says which answer when, by the log alone |
| `Produce.EffectivelyOnce` | src/broker/producer_session.hpp:46-85 | over every run the log holds, per producer and epoch, the sequence numbers 0, 1, 2, ... once each and in order |
| `Produce.EpochsNeverFall` | src/broker/producer_session.hpp:46-67 | along the log a producer's epochs never decrease |
| `Produce.AckedIsLogged` | src/broker/partition.cpp:14-49 | an acknowledgement without an append covers only sequence numbers already logged |
| `Produce.RetryGetsOriginalOffset` | src/broker/producer_session.hpp:69-85 | retrying a producer's last appended batch is answered with its original offset and appends nothing |
| `Produce.AppendedIff` | src/broker/partition.cpp:14-49 | in every run a numbered request is appended at the end and answered with its last offset if and only if its epoch is no lower than any its producer opened or logged and its sequence is the count of records logged in that epoch; otherwise nothing is appended, and a lower epoch is fenced, a full repeat acknowledged, anything else out of range |
| `Produce.RepeatAnswers` | src/broker/producer_session.hpp:69-85 | a repeat is answered with the offset of the producer's last logged batch if it starts where that one does, else with the end of the log |
| `Produce.RunKeeps` | src/broker/partition.cpp:14-49 | every run keeps each session consistent with the log |
| `BlockReaders.BlockReader.Insert` | src/io/block_reader.cpp:48-60 | newest first, oldest dropped, list and index in agreement and within capacity |
| `BlockReaders.BlockReader.FetchBlock` | src/io/block_reader.cpp:62-80 | a hit or a load gives the disk block and keeps the cache correct |
| `BlockReaders.BlockReader.Prefetch` | src/io/block_reader.cpp:82-101 | the cache becomes exactly the one after loading, in order, the blocks asked for that the file has and the cache does not, and stays correct |
| `BlockReaders.AheadIsAsked` | src/io/block_reader.cpp:82-101 | readahead caches nothing but what was cached and what was asked for |
| `BlockReaders.BlockReader.ReadAt` | src/io/block_reader.cpp:103-164 | for every file, block size, capacity, readahead and history the destination gets exactly the file's bytes from the offset, cut at end of file, and is untouched beyond |
| `JsonWriters.JsonWriter.AppendEscaped` | src/ingress/json.cpp:13-43 | the loop writes the specified escapes |
| `JsonWriters.Emit` | src/ingress/json.cpp:45-129 | writing any tree through the writer's calls, in any writer state, adds the separator that state calls for and exactly the tree's text |
| `JsonParsers.Parser.ParseNumber` | src/ingress/json_value.cpp:196-254 | the scan computes the specified number or fails; `NumeralIsRead` and `ReadIsNumeral` say what it is |
| `JsonParsers.Parser.ParseValue` | src/ingress/json_value.cpp:66-89 | the recursive descent computes the specified value and stops where it ends, or fails |
| `JsonParsers.Parser.ParseDocument` | src/ingress/json_value.cpp:389-392 | the parser object computes exactly the specified parse of the whole text |
| `JsonRoundTrip.RoundTrip` | src/ingress/json_value.cpp:66-381 | the text of every tree with arbitrary strings and integers up to 2^53 parses to that tree if it nests at most 64 deep and is refused if it nests deeper |
| `JsonAccepted.ParsedIff` | src/ingress/json_value.cpp:32-381 | a text parses to a value if and only if it is the text of a tree of the grammar, with any white space, escapes and notations, nested at most 64 deep, that means this value |
| `JsonAccepted.OneMeaning` | src/ingress/json_value.cpp:32-381 | so no such text means two things |
| `JsonNumbers.NumeralIsRead` | src/ingress/json_value.cpp:196-254 | every numeral, with or without sign, fraction and exponent, is read to its end and as the sum of its digits each at its decimal place, moved by the exponent |
| `JsonNumbers.ReadIsNumeral` | src/ingress/json_value.cpp:196-254 | and nothing else is read as a number |
| `JsonStrings.PiecesRead` | src/ingress/json_value.cpp:256-381 | every string literal of plain characters, short escapes, code units and surrogate pairs is read to its closing quote as what its pieces mean |
| `JsonStrings.ReadIsPieces` | src/ingress/json_value.cpp:256-381 | and nothing else is read as a string |
| `JsonStrings.UnitsAreRead` | src/ingress/json_value.cpp:314-332 | every code point but a high surrogate, written as one unit or as a pair, is read as its UTF-8 form |
| `JsonStrings.Utf8IsShortest` | src/ingress/json_value.cpp:365-381 | that form decodes to the code point by the table in section 3 of RFC 3629 and is the shortest |
| `JsonComplete.TreeReads` | src/ingress/json_value.cpp:66-165 | a tree of the grammar before anything that cannot go on with it is read to its end as what it means |
| `JsonEndToEnd.WriteAndParse` | src/ingress/json.cpp:45-129 | the two objects composed: write, then parse, gives the tree back or, too deep, nothing |
| `Crc32c.CrcChains` | src/common/crc32c.cpp:64-71 | summing two pieces one after the other is summing their concatenation |
| `Crc32c.TableStep` | src/common/crc32c.cpp:33-48 | eight bits of polynomial division are one table look-up and a shift |
| `Crc32c.MakeTable` | src/common/crc32c.cpp:33-48 | each entry is eight steps of division of its index |
| `Crc32c.Checksum` | src/common/crc32c.cpp:64-71 | the table loop computes the bitwise checksum of section 12.1 of RFC 3720 |
| `CrcDivision.CrcIsRemainder` | src/common/crc32c.cpp:33-71 | for every message the checksum is the complement of the remainder of its bits, the first 32 complemented and 32 zeros appended, divided by the generator 11EDC6F41 of section 12.1 of RFC 3720, low bits first |
| `CrcDivision.PolyIsTail` | src/common/crc32c.cpp:33-48 | the constant in the code is that generator without its top coefficient, bits reversed |
| `CrcDetection.BurstChangesCrc` | src/common/crc32c.cpp:64-71 | replacing any one to four bytes in a row of any message by others changes its checksum |
| `Varint.PutVarint` | src/common/varint.cpp:12-21 | writes the specified bytes, at most ten, and nothing beyond |
| `Varint.GetVarint` | src/common/varint.cpp:23-36 | the loop computes the specified decoding, truncation and overlong input included |
| `Varint.VarintRoundTrip` | src/common/varint.cpp:12-36 | every 64-bit value is read back with the input after it untouched |
| `Varint.DecodedIs` | src/common/varint.cpp:23-36 | any bytes: up to the first one without a continuation bit, if among the first ten, the value is their groups in base 128 cut to 64 bits; otherwise nothing is read |
| `Varint.ZigzagRoundTrip` | src/common/varint.hpp:29-36 | zigzag is inverted on every signed 64-bit value |
| `Varint.UnzigzagRoundTrip` | src/common/varint.hpp:29-36 | and its inverse is inverted on every unsigned one |
| `RecordCodec.EncodeRecord` | src/common/record_codec.cpp:73-93 | appends the specified bytes |
| `RecordCodec.RecordBack` | src/common/record_codec.cpp:95-167 | every record with null or present key, value and headers decodes from its bytes, leaving the rest |
| `RecordCodec.TooManyHeaders` | src/common/record_codec.cpp:95-167 | a record with more than 10000 headers does not decode |
| `RecordCodec.CutRecord` | src/common/record_codec.cpp:95-167 | nor does one cut short at any byte |
| `RecordBatches.Build` | src/common/record_codec.cpp:207-228 | record `i` is encoded with offset delta `i`, and the header counts them |
| `RecordBatches.DecodeRecords` | src/common/record_codec.cpp:169-200 | the loop computes the specified records, errors and trailing bytes included |
| `RecordBatches.Encode` | src/common/record.cpp:29-52 | the in-place header, with the checksum over two chained pieces, is the specified batch |
| `RecordBatches.BatchRoundTrip` | src/common/record.cpp:54-104 | every batch in range decodes to itself from its bytes and whatever follows, and peeking gives its offset, count and size |
| `BatchIntegrity.DecodeIff` | src/common/record.cpp:54-104 | any bytes decode to a batch if and only if the batch is in range and they begin with its encoding; all else is reported corrupt |
| `BatchIntegrity.WrongByteIsRefused` | src/common/record.cpp:54-104 | an encoded batch with one wrong byte anywhere from the checksum on is refused |
| `BatchIntegrity.DamagedBodyIsRefused` | src/common/record.cpp:54-104 | so is one with any change within four bytes in a row of what the checksum covers |
| `BatchIntegrity.WrongBaseIsAccepted` | src/common/record.cpp:29-52 | but a damaged base offset is not noticed: it decodes to the same batch at another offset |
| `RecordBatches.RecordsRoundTrip` | src/common/record_codec.cpp:169-228 | an uncompressed built batch decodes to its records with offsets base, base + 1, ... |
| `RecordBatches.CompressedRoundTrip` | src/common/record_codec.cpp:169-200 | with any other codec the records are those of what the blob inflates to, or the error inflating it gave |
| `RecordBatches.BuildRoundTrip` | src/common/record_codec.cpp:73-228 | build, encode, decode and decode the records: the same records come back |
| `Sha256s.FoldChains` | src/common/sha256.cpp:120-145 | folding the compression over whole blocks can be cut at any block |
| `Sha256s.Sha256.Update` | src/common/sha256.cpp:120-145 | buffering in any state absorbs exactly the data |
| `Sha256s.Sha256.Finish` | src/common/sha256.cpp:147-178 | the result is the fold over the message padded as in section 5.1.1 of FIPS 180-4, length modulo 2^64 |
| `Sha256s.HashPieces` | src/common/sha256.cpp:120-178 | for every cut of a message into update calls the digest is that of the whole message |
| `Sha256s.PadMeans` | src/common/sha256.cpp:147-178 | the padding is a one bit, as few zeros as reach whole blocks, and the length in bits as a 64-bit big-endian number |
| `Sha256s.PadIsInjective` | src/common/sha256.cpp:147-178 | no two messages of lengths FIPS 180-4 allows are padded alike |
| `ConsumerGroups.ConsumerGroup.Join` | src/broker/consumer_group.cpp:57-86 | a member learns its id, the generation and the leader, and the leader of a completed round everyone's subscription; a stable or empty group starts a new round, a deleted one refuses |
| `ConsumerGroups.LeaderSeesEveryone` | src/broker/consumer_group.cpp:76-85 | whoever is told to assign is told of all members, all of whom rejoined, with the joiner's own subscription; nobody else gets the list |
| `ConsumerGroups.ConsumerGroup.Sync` | src/broker/consumer_group.cpp:88-122 | a member of the current generation learns its assignment, or that there is none yet; the leader's first sync hands all of them out; strangers and old generations are refused |
| `ConsumerGroups.ConsumerGroup.Heartbeat` | src/broker/consumer_group.cpp:124-141 | a member learns whether it must rejoin; strangers and old generations are refused |
| `ConsumerGroups.ConsumerGroup.Leave` | src/broker/consumer_group.cpp:143-159 | the member is gone and the group is empty or in a new round; a stranger is refused and changes nothing |
| `ConsumerGroups.ConsumerGroup.Tick` | src/broker/consumer_group.cpp:161-183 | exactly the members past their session timeout go |
| `ConsumerGroups.RunOk` | src/broker/consumer_group.cpp:29-51 | over every run: no members exactly when Empty, and in Completing and Stable the leader is a member and everyone has rejoined |
| `ConsumerGroups.GenerationCountsRounds` | src/broker/consumer_group.cpp:37-51 | the generation rises by one exactly when a round completes |
| `ConsumerGroups.StableCameFromSync` | src/broker/consumer_group.cpp:88-122 | in every stable moment all assignments are the ones its leader's sync of this generation handed out |
| `ConsumerGroups.OneSyncPerGeneration` | src/broker/consumer_group.cpp:88-122 | two syncs that hand out assignments belong to different, growing generations |
| `GroupRounds.FineIff` | src/broker/consumer_group.cpp:124-141 | in every run a heartbeat is answered that all is well if and only if the group is stable and the beat is of its generation, and then everyone has rejoined; a member yet to rejoin is told to |
| `GroupRounds.RoundCompletesIff` | src/broker/consumer_group.cpp:37-86 | a join completes the round if and only if every other member has rejoined in this round |
| `GroupRounds.DroppedIffSilent` | src/broker/consumer_group.cpp:161-183 | in every run a tick drops a member if and only if its last join, heartbeat or sync of the generation is longer ago than its timeout; the rest start a new round, and if nobody is dropped nothing changes |
| `GroupRounds.RosterIsLatest` | src/broker/consumer_group.cpp:57-86 | in every run whoever is to assign is told, for each member and nobody else, what it subscribed to in its last join |
| `GroupRounds.AssignmentIsShare` | src/broker/consumer_group.cpp:88-122 | in every run an assignment handed to a member is its share in the one list the leader gave in this generation |
| `GroupRounds.MadeUpIsNew` | src/broker/consumer_group.cpp:57-86 | in every run in which no member calls itself by a name of the made-up form, a join without a name takes over nobody |
| `GroupRounds.NameCanBeTaken` | src/broker/consumer_group.cpp:57-86 | a run in which one did, and the next join without a name takes it over |
| `HashRings.LoadBalancer.AddNode` | src/ingress/load_balancer.cpp:17-27 | the rebuilt ring sends every point to its old node or the new one |
| `HashRings.LoadBalancer.RemoveNode` | src/ingress/load_balancer.cpp:29-42 | every point not on the removed node keeps its node; removing a stranger changes nothing |
| `HashRings.LoadBalancer.RebuildRing` | src/ingress/load_balancer.cpp:102-110 | each virtual point belongs to the first node that has it |
| `HashRings.LoadBalancer.Choose` | src/ingress/load_balancer.cpp:67-77 | a key is served by the owner of the first point at or after its hash, wrapping round, and by nobody only if there are no nodes |
| `HashRings.AddingMovesOnlyToNew` | src/ingress/load_balancer.cpp:17-27 | for any hash function, collisions included, adding a node moves keys only to it |
| `HashRings.RemovingMovesOnlyItsOwn` | src/ingress/load_balancer.cpp:29-42 | removing a node moves only its own keys |

## Left out

- I/O errors: writes, reads and saves succeed; disk failure inside a multi-step log operation is not modelled, and reopening is claimed only after completed operations.
- Time and randomness: the clock and the drawn election timeout are inputs with any value; nothing is claimed about when messages arrive, nor that elections succeed in the end.
- Terms, indices, offsets and epochs of the replication model are unbounded integers.
- The carrier's tick and message handling are split into the node step, the flush and the compaction, so the runs here include all of the carrier's and more; metrics are not modelled.
- The node's log is the abstract log; that `RaftLog` implements it operation by operation is proved separately, and the two objects are not composed. Payloads are batches already decoded, with at least one record.
- `high_watermark` of a replicated partition and its fall to the log start after compaction.
- Safety.ElectionSafety: one direction only; a run may break `VoteKindKept` and still have one leader per term.
- Safety.LeaderCompleteness: one direction only, for the same reason.
- Safety.StateMachineSafety: one direction only, for the same reason.
- Partitions of a transaction are ranks in their order; the pending marker queue enters the specification as a set, the object keeps the list.
- TxnSystem.AtomicVisibility: only of producers that begin quietly; `NeededQuiet` shows what happens otherwise.
- Producer sessions across restart or leader change; sequences past the 32-bit range.
- The file does not change while a block reader has it open, and the block size is any positive number.
- JSON numbers are exact reals; how doubles are printed and rounded is not modelled, and the round trip is about integers up to 2^53.
- Compression is a function parameter; the hardware checksum path, the SHA-256 block function, the serialisation of the digest and HMAC are not modelled.
- RecordCodec.RecordBack: a timestamp or offset sum past 64 bits is not modelled.
- The order of the member list in a join answer; the round-robin and least-connections strategies; the hash function itself, which is arbitrary.
- Transport, TLS, HTTP, the Kafka protocol bodies, topic and offset management, flow control and metrics: plumbing or easy members.
