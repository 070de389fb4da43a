# Verified model of the task queue: Raft, the replicated queue and the durable broker

This project models three parts of the repository and proves what they promise, for every input,
every run and every crash point.

* **Raft** (`raft/`): elections, replication with fast backtracking, the current-term commit
  rule, snapshots, persistence and restart, for any number of nodes over a network that may lose,
  delay, reorder and repeat messages.
* **The replicated queue** (`broker/statemachine.go`, and the apply loop of `server/cluster.go`):
  the deterministic state machine, its leader-local delivery overlay and its lazily cleaned heap.
* **The durable broker** (`broker/broker.go`, `broker/wal.go`, `broker/tracker.go`): the framed
  log, group commit, recovery and compaction.

Every operation appears twice. A class with mutable fields and loops mirrors the source
(`RaftPeer`, `StateMachine`, `ClusterServer`, `PriorityQueue`, `DurableBroker`,
`InFlightTracker`, `WriteAheadLog`), and each of its methods is proved equal to a function or
relation on values. The transition systems (`RaftCluster`, `BrokerSystem`, `QueueRuns`) are built
from those functions, and the theorems are about all of their runs.

| files | content |
|---|---|
| `Tasks`, `RaftLog` | tasks, commands, entries, quorums |
| `RaftStep` | every Raft handler as a function on a node value with a sentinel log |
| `RaftHistory`, `RaftEvents` | the history of leader logs, votes and acknowledgements, its invariant and Leader Completeness |
| `RaftCompaction`, `RaftInvariant`, `RaftHandlers`, `RaftReplicationProof` | the sentinel log against the whole log, the invariant of a node and a message, one step lemma per handler |
| `RaftCluster`, `RaftDelivery`, `RaftSafety`, `RaftTheorems` | the cluster with applier, channel and apply loop; its invariant; the theorems |
| `RaftProgress`, `RaftElection`, `RaftCatchUp`, `RaftAnswer` | what each handler must do, and continuations that elect a leader, commit its log and answer a client |
| `RaftOneLog`, `RaftQueues` | the log of a run is determined; the queue of every server over a run of the cluster |
| `RaftBacktrack`, `RaftUncompacted`, `RaftSimulation`, `RaftRefinement` | fast backtracking, and compaction as refinement of a node that keeps its whole log |
| `RaftOffer`, `RaftPersist` | when an offered snapshot is taken, and the gap in snapshot persistence |
| `RaftNode` | the Raft node as a class |
| `QueueView`, `QueueFate`, `QueueMachine`, `QueueHeap`, `QueueRuns` | the replicated queue, what becomes of a task, one replica's state machine, its heap, its runs |
| `QueueRetries` | how retries are counted, in the replicated queue and in the broker's log |
| `PriorityQueues`, `QueueNode` | the binary heap, the state machine and the apply loop as classes |
| `WalCodec`, `WalFile` | the record format and replay; the log file as a class |
| `BrokerModel`, `BrokerScan` | the broker on values, and its expiry scan |
| `BrokerSystem`, `BrokerDurability`, `BrokerTheorems`, `BrokerProgress` | the broker's interleaved steps with crashes, the invariant, the theorems, and what the group commit owes its callers |
| `BrokerNode` | the broker and the in-flight tracker as classes |

`dafny verify dfyconfig.toml` checks the whole project.

## Where the code does not do what it promises

Each of these is kept in the model as it is in the code. For each there is a concrete input that
shows the failure, and a condition that says exactly when the promise holds.

* A record with a payload over 64 MiB is written and acknowledged, but the reader takes it for
  corruption and truncates the log there (`WalCodec.RoundTripExactly`,
  `WalFile.AppendReadsExactly`, `WalFile.RecordAfterOversizedIsLost`).
* The expiry scan takes all overdue tasks out of the tracker before the broker requeues them one
  by one, and other calls run in between. A compaction that any of them triggers writes a log
  without the tasks still to come (`BrokerScan.ScanExactly`, `BrokerScan.OverdueTaskIsLost`,
  `BrokerScan.SecondTaskIsLost`).
* Replay keys by id, so of two tasks enqueued under one id it recovers the later one only
  (`BrokerModel.EnqueueRecovers`, `BrokerModel.TwinIsLost`). Compaction writes dead letters after
  live tasks, so a dead letter takes a live task with the same id with it
  (`BrokerModel.CompactionExactly`, `BrokerModel.ClashIsLost`); the same condition decides whether
  a restart is sound (`BrokerNode.DurableBroker.constructor`).
* A task enqueued under an id whose old entry is still in the heap is pending but not in the heap,
  and is not delivered as long as it is not nacked and the queue not restored
  (`QueueHeap.EnqueueHeapExactly`, `QueueRuns.HeapCompleteExactly`, `QueueRuns.ReusedIdWaits`,
  `QueueRuns.ReusedIdIsStuck`).
* Storing a snapshot is two renames. A crash between them restarts a replica with the new snapshot
  at the old index, and it applies the entries in between again (`RaftPersist.TornRestartExactly`,
  `RaftPersist.AckCountedTwice`). The comment at raft/persist.go:52-54 is right about the opposite
  case only.
* The comment at raft/replication.go:339-340 says the state machine may call Snapshot the moment it
  has consumed an index. The index is counted as applied only after the channel send, so such a
  call may come too early and is then dropped (`RaftOffer.OfferTakenExactly`,
  `RaftOffer.OfferCanBeDropped`).

## How the model reads the code

* One handler call is one step: every handler runs under the node's lock and stores its state
  before it answers. Sent messages form a growing set. A crash keeps only what is on disk.
* A reply carries the request it answers, in place of the goroutine that waits for it. Votes are
  kept as the set of granters, in place of a counter that each granter raises once.
* Peer ids are distinct, non-empty and exclude the node itself, and nodes have a data directory.
* In the cluster, storing a snapshot and its log is one step; `RaftPersist` covers the other case.
* A client call proposes its entry in one step and starts to wait for it in a later one. It
  returns success when the applied term equals its proposed term; which of the calls that may be
  woken are woken is left open. A snapshot is sent in a step of its own, whatever the peer's
  nextIndex is by then.
* Queue commands and snapshots travel as values: gob is taken to be the identity. In the log file
  CRC-32 is an arbitrary function, and gob and string bytes are functions with decode after encode
  equal to the identity.
* A task pointer is a serial number, so that the heap's pointer comparison is a comparison of
  serial numbers. Times are integers.
* The broker's runs start with an empty file; every entry fits the reader's cap; an enqueued id is
  not pending, in flight or dead-lettered; an expired task is requeued in one step, and
  `BrokerScan` takes the scan apart. The findings above say what happens
  otherwise. A compaction may run whenever no fsync does, not only at its threshold. An fsync may
  fail; other file errors are not modelled. Bytes may reach the disk at any time before an fsync.
* The retry count and deadline of dead letters, which replay does not restore, and the nack
  counter, which snapshots do not carry, are left out of the equalities.

## Model

| member | source | states |
|---|---|---|
| `RaftTheorems.EndToEnd` | server/cluster.go:96-150 | For every run of the cluster (any schedule, message loss, delay, repetition, any number of crashes) there is one log such that every server's queue at every moment is the fold of that log's commands up to the server's position, however it got there (entries, installed snapshot, restart), every committed entry a node holds is that log's entry, and the entry of every call that a client was told had succeeded is in it, with its command and term, at the promised index |
| `RaftOneLog.OneLogIsDefinite` | raft/replication.go:186-203 | The one log is determined: any two logs that explain a run in this sense agree up to every commit index that any node reaches in it, and a server's position never lies beyond |
| `RaftTheorems.NothingLost` | broker/statemachine.go:66-106 | In that same one log, on every server at every moment: live + dead-lettered + acked tasks equal the number of tasks created by the entries up to the server's position |
| `RaftTheorems.AcknowledgedIsServed` | broker/statemachine.go:115-119 | At-least-once across failover: in the one log of the run, every enqueue that a client was told had succeeded is honoured on every server that has come past its index, at any moment: the task is live with its payload, priority and age, or dead-lettered, or an entry in between acked it |
| `RaftTheorems.RealTimeOrder` | server/cluster.go:156-187 | A call proposed, on any node, after another call had returned success has the later entry in the one log if it returns success in turn |
| `RaftAnswer.AnyCallCanSucceed` | server/cluster.go:156-187 | The cluster is never stuck: from every reachable state of at least two nodes, whatever was lost, delayed or crashed, and for every command, there is a continuation in which a node is elected in a new term, proposes the command, brings all others up to date, commits, applies, and the client's call returns success |
| `RaftElection.ElectionCanBeWon` | raft/election.go:44-148 | From every reachable state of at least two nodes there is a continuation in which a node whose log nobody's log is better than becomes leader of a term later than all, with all others following in it |
| `RaftCatchUp.EverythingCanBeCommitted` | raft/replication.go:96-203 | From every reachable state in which a leader is followed by all others there is a continuation in which it commits its whole log, whatever its nextIndex for each peer, through rejections, backtracking and snapshots |
| `RaftCatchUp.CatchUp` | raft/replication.go:96-180 | For one peer: rounds of requests, and a snapshot where entries are compacted away, end with the leader knowing that the peer holds its whole log |
| `RaftQueues.EveryServerDeliversNext` | broker/statemachine.go:120-138 | For every log that explains a run, every state and every server: if the entries the server has applied by then use no id for a second task, every delivery it can make, after entries, installed snapshots, lost leaderships and restarts, is of a pending task that no pending task precedes by priority and age, and is empty only when nothing is pending |
| `RaftTheorems.SamePositionSameQueue` | broker/statemachine.go:64-106 | Two servers at the same position, on any nodes at any two moments of a run, hold the same replicated queue |
| `RaftTheorems.StateMachineSafety` | raft/replication.go:186-283 | An index that two nodes consider committed, at any two moments of any run, holds the same entry on both (section 5.4.3 of the Raft paper) |
| `RaftTheorems.CommittedIsInLeader` | raft/election.go:134-146 | What a node knows to be committed, at any moment of a run, is in the log of every leader of a later term at any moment, before or after, and in the log of the leader of the same term from then on (Leader Completeness, section 5.4 of the Raft paper) |
| `RaftTheorems.ElectionSafety` | raft/election.go:44-89 | At most one leader per term over the whole run, restarts included (section 5.2 of the Raft paper) |
| `RaftTheorems.LogMatching` | raft/replication.go:237-267 | Logs of any two nodes at any two moments that agree on the term at one index agree on that entry and on every earlier one both still hold |
| `RaftTheorems.MatchIndexSound` | raft/replication.go:139-147 | A peer holds the leader's entries up to the leader's matchIndex for it while it is in the leader's term, and in every later term as far as the leader knows them to be committed, including what early successes below the peer's snapshot and snapshot replies recorded |
| `RaftTheorems.IndexesStayInRange` | raft/raft.go:276-305 | In every reachable state firstIndex <= commitIndex <= lastIndex, lastApplied <= commitIndex, nextIndex <= lastIndex + 1, and every append request carries consecutive entries and a commit index no larger than the last entry it confirms, so every handler's index arithmetic is defined |
| `RaftTheorems.CommitNeverDecreases` | raft/replication.go:272-280 | Between restarts a node's commit index never decreases |
| `RaftTheorems.DeliveredInOrder` | raft/replication.go:288-348 | In each step a server's position stays and no message on its way to the server is dropped, or the head of the channel, and it alone, is consumed and moves the position to the very next index or, as a snapshot, forward to the snapshot's index, or the process restarts: no gap, repeat or regression for any interleaving of applier, InstallSnapshot and Snapshot |
| `RaftTheorems.RunHistory` | raft/raft.go:107-150 | Every run has a history of leader logs, votes and acknowledgements that satisfies the invariant in every state and only grows |
| `RaftHistory.LeaderCompleteness` | raft/election.go:134-146 | An entry acknowledged by a quorum in its own term is in every later leader's log, by induction over the later terms through quorum intersection and the up-to-date check |
| `RaftHistory.CommittedIsBase` | raft/election.go:134-146 | Whatever was committed in an earlier term was already in the log with which a leader won its election |
| `RaftHistory.CommittedIsLed` | raft/replication.go:186-203 | A committed log is a prefix of the log of every leader of a term at or above the one it was committed in |
| `RaftHistory.CommittedComparable` | raft/replication.go:186-203 | Of two committed logs one is a prefix of the other |
| `RaftHistory.SamePrefix` | raft/replication.go:237-267 | Two logs drawn from the leader logs that have the same term at an index are equal up to it |
| `RaftLog.QuorumsIntersect` | raft/raft.go:337 | Two majorities of one cluster share a member |
| `RaftEvents.QuorumNamesLeader` | raft/election.go:81-86 | A candidate whose votes reach a majority cannot share its term with another leader |
| `RaftEvents.StartRunKeeps` | raft/election.go:44-60 | Starting a candidacy keeps the history invariant |
| `RaftEvents.CastVoteKeeps` | raft/election.go:120-148 | Granting one vote per term to an up-to-date candidate keeps the history invariant |
| `RaftEvents.WinKeeps` | raft/election.go:96-116 | Taking leadership with a quorum of votes and appending the no-op keeps the history invariant |
| `RaftEvents.ExtendKeeps` | raft/raft.go:215-230 | A leader's append keeps the history invariant |
| `RaftEvents.AcceptKeeps` | raft/replication.go:237-267 | A follower's adoption of a leader prefix keeps the history invariant, in particular every acknowledged prefix |
| `RaftEvents.AdvanceTermKeeps` | raft/raft.go:311-321 | Moving to a higher term keeps the history invariant |
| `RaftHandlers.StartElectionStep` | raft/election.go:44-70 | An election timeout keeps the node invariant, and each vote request sent tells the candidate's real last index and term |
| `RaftHandlers.VoteRequestStep` | raft/election.go:120-148 | Answering a vote request keeps the node invariant; a granted reply corresponds to a recorded vote |
| `RaftProgress.VoteGrantedExactly` | raft/election.go:120-148 | A vote is granted if and only if the request's term is not behind, the vote is free in that term or already the sender's, and the sender's last term is greater than the voter's, or equal with a last index at least as great; what else the voter changes is its term, role and vote |
| `RaftProgress.OneIsUpToDate` | raft/election.go:134-138 | Of any two logs one is up to date against the other |
| `RaftHandlers.VoteReplyStep` | raft/election.go:70-86 | Counting a vote, including stale and duplicate replies and the step to leader, keeps the node invariant |
| `RaftProgress.ElectedExactly` | raft/election.go:74-116 | A granted reply of its term makes a candidate leader if and only if twice its votes exceed the size of the cluster; the new leader's log ends in a no-op of its term, it counts itself and no peer as holding it, and sends from the no-op on |
| `RaftProgress.NotElected` | raft/election.go:66-80 | Refused, stale and late replies change nothing but a term that is behind |
| `RaftHandlers.ProposeStep` | raft/raft.go:215-230 | A proposal on a leader keeps the node invariant and records the command at the returned index and term |
| `RaftReplicationProof.ReplicateOk` | raft/replication.go:96-118 | What a leader sends in an append request is a window of its term's log with a commit index that is safe for the receiver |
| `RaftReplicationProof.InstallRequestOk` | raft/snapshot.go:38-53 | The snapshot a leader sends, also when the peer's nextIndex has risen meanwhile, is the queue at a committed prefix of its log |
| `RaftReplicationProof.AppendStep` | raft/replication.go:206-283 | Every branch of the append handler (stale, below the snapshot, shifted window, conflict, truncate-and-append) keeps the node invariant, and a success reply is backed by an acknowledged prefix |
| `RaftReplicationProof.AcceptedKeepsCommitted` | raft/replication.go:256-267 | Truncating at a conflict never removes an entry the node knows to be committed |
| `RaftReplicationProof.CountedIsChosen` | raft/replication.go:186-203 | An index of the current term counted on a majority of matchIndex is held by a quorum |
| `RaftReplicationProof.ScanIsCommitted` | raft/replication.go:186-203 | Wherever the commit scan stops, it moves the commit index only to a committed prefix |
| `RaftReplicationProof.AppendReplyStep` | raft/replication.go:127-180 | Every branch of the reply handling, fast backtracking included, keeps the leader invariant; the decided log only grows |
| `RaftProgress.CommitExactly` | raft/replication.go:139-203 | A success reply raises matchIndex to the last entry it confirms and never lowers it, sets nextIndex behind it, and moves commitIndex to the greatest index of the leader's term whose holders are more than half of the cluster, and leaves it only if there is none above it |
| `RaftProgress.MajorityCommits` | raft/replication.go:186-203 | So for every success reply in every reachable state of the cluster |
| `RaftProgress.RoundCompletes` | raft/replication.go:96-147 | An accepted request carries all entries from nextIndex on: the follower then holds the leader's whole log and knows as much to be committed, and the leader's matchIndex says so |
| `RaftProgress.SenderIsFollowed` | raft/replication.go:206-225 | Whoever sends entries or a snapshot in the node's term or a later one becomes its leader; the vote is free again only in a later term |
| `RaftReplicationProof.InstallStep` | raft/snapshot.go:80-124 | Installing a snapshot, with or without keeping the tail, keeps the node invariant, and the reply claims only what the node now holds |
| `RaftReplicationProof.InstallReplyStep` | raft/snapshot.go:61-77 | The reply to a snapshot raises matchIndex soundly |
| `RaftReplicationProof.SnapshotStep` | raft/snapshot.go:21-33 | Dropping the log up to an applied index leaves the whole log represented and the snapshot equal to the queue at the boundary |
| `RaftReplicationProof.RestartStep` | raft/persist.go:67-105 | A restart from disk keeps every promise of the node: term, vote, acknowledged entries and snapshot |
| `RaftSafety.NextInv` | raft/raft.go:183-191 | Every step of the cluster (handlers, applier, apply loop, deliveries, crashes) keeps the cluster invariant for a history that has only grown |
| `RaftSafety.InitInv` | raft/raft.go:155-180 | A freshly started cluster meets the cluster invariant |
| `RaftDelivery.ConsumeEntryOk` | server/cluster.go:122-148 | Applying the next entry from the channel keeps the server's queue equal to the fold at its position |
| `RaftDelivery.ConsumeSnapshotOk` | server/cluster.go:109-117 | Restoring a snapshot from the channel keeps the server's queue equal to the fold at its position |
| `RaftDelivery.AnsweredIsDecided` | server/cluster.go:156-187 | A client call that returns success because the applied term equals the proposed term had its own entry decided at that index, with its term and its command |
| `RaftDelivery.TakePendingOk` | raft/replication.go:304-316 | Taking a pending snapshot keeps the order of what is on its way to the server |
| `RaftDelivery.TakeBatchOk` | raft/replication.go:318-326 | Collecting the next batch keeps the order of what is on its way to the server |
| `RaftDelivery.OfferSnapshotOk` | raft/snapshot.go:21-33 | The apply loop's snapshot call, whenever it reaches Raft, keeps the invariant |
| `RaftDelivery.CrashOk` | raft/persist.go:67-105 | A crash and restart of the whole process keeps the invariant: the fresh server resumes from the snapshot on disk |
| `RaftCompaction.RepMerge` | raft/replication.go:256-267 | Merging a leader window into a compacted log represents exactly the whole log that merging into the uncompacted log gives: unchanged if it already starts with the window, the leader's prefix otherwise |
| `RaftCompaction.RepCompact` | raft/snapshot.go:27-29 | Cutting a log at an index keeps the whole log it stands for |
| `RaftUncompacted.SendsTheSame` | raft/replication.go:109-116 | A leader sends the same append request from its compacted and from its whole log |
| `RaftRefinement.CompactionIsUnnoticed` | raft/raft.go:276-305 | For every run, every state and every process in it, until the process restarts: a node that starts with the whole log and never compacts runs along, in every state with the log that the history records, and every step is a step of its own: it receives each message (for a snapshot the sender's entries up to its index) and gives the same answer, starts the same elections with the same vote requests, makes the same proposals, sends the same append requests from the same nextIndex, and has the entries that a snapshot sent stands for; taking a snapshot is no step to it |
| `RaftRefinement.RunsAlongWhole` | raft/raft.go:276-305 | The same from any node that simulates the process, and for every history that explains the run |
| `RaftRefinement.WholeIsRecorded` | raft/snapshot.go:80-124 | The whole log that a compacted log stands for after a step is the one the history records: what is compacted away was committed, so it has one completion only |
| `RaftSimulation.EveryMessageMirrored` | raft/replication.go:206-283 | For every message, the compacted node and a node with its whole log move to the same term, role, vote, leader, commit index, counted votes and match indexes, give the same answer, and their logs stand for the same whole log again, whose compacted part was committed before or is what the snapshot stands for; a snapshot does what the leader's entries up to its index do |
| `RaftUncompacted.CompactionIsInvisible` | raft/replication.go:206-283 | For every append request the compacted node and the same node with its whole log give the same verdict and hint and end with logs that stand for one whole log, which keeps what was committed |
| `RaftSimulation.InstallRequestMirrored` | raft/snapshot.go:80-124 | Installing a snapshot leaves exactly what appending the sender's entries from the first to the snapshot's index leaves on the whole log, stale, known and new snapshots alike |
| `RaftSimulation.SnapshotStutters` | raft/snapshot.go:21-33 | Taking a snapshot changes nothing that the node with the whole log can tell |
| `RaftSimulation.LocalStepsMirrored` | raft/election.go:44-58 | Election timeouts and proposals move both nodes alike, and the same votes are requested |
| `RaftBacktrack.RejectionLowersNext` | raft/replication.go:149-180 | A follower accepts exactly when the request starts inside the common prefix; each rejection strictly lowers nextIndex and never to inside the common prefix, and falls back to the snapshot only when the common prefix ends at or below it |
| `RaftBacktrack.SettlesAtCommonPrefix` | raft/replication.go:149-180 | Repeated requests to a standing follower terminate, and the first accepted one starts exactly at the end of the common prefix, unless that lies at or below the leader's snapshot and the snapshot is sent |
| `RaftBacktrack.ConflictHint` | raft/replication.go:150-177 | The follower's conflict term and index make the leader skip only entries outside the common prefix, and fall back to its snapshot only when the common prefix does not reach beyond it |
| `RaftBacktrack.LastOfTermIsCommon` | raft/replication.go:150-167 | When the leader has the follower's conflict term, its last entry of that term is a position from which the common prefix is not skipped |
| `RaftBacktrack.LastOfTermFinds` | raft/replication.go:153-162 | On terms that do not decrease, the downward search finds the last index of the term, or none exists above the boundary |
| `RaftBacktrack.ConflictRun` | raft/replication.go:243-249 | The follower's hint is the first entry of the run of entries with the conflicting term that ends at the checked index |
| `RaftBacktrack.Common` | raft/replication.go:238-251 | The longest common prefix of two logs: equal up to it, different after it |
| `RaftRefinement.ExchangeIsReached` | raft/replication.go:96-180 | Every leader and follower of one term in a reachable state meet the conditions of the backtracking results |
| `RaftPersist.TornRestartExactly` | raft/persist.go:55-63 | After a crash between the two renames, the restarted queue matches the log at its position if and only if no entry between the old and the new snapshot index takes effect |
| `RaftPersist.AckCountedTwice` | raft/persist.go:93-100 | A concrete disk between the two renames, with a leader's no-op, an enqueue and an ack, after which the restarted replica counts the ack twice |
| `RaftPersist.SameQueueExactly` | broker/statemachine.go:66-106 | The queue is the same at two positions of a log if and only if no command between them takes effect: it never returns to a state it has left |
| `RaftOffer.OfferTakenExactly` | raft/replication.go:339-345 | In every reachable state the snapshot that the apply loop offers moves the log's boundary to its index if and only if the log is not compacted that far and the applier has counted the entry as applied |
| `RaftOffer.OfferCanBeDropped` | raft/snapshot.go:24-26 | A concrete run of two nodes in which the offer for the first entry changes nothing, because the server consumed the entry before the applier counted it |
| `RaftNode.RaftPeer.constructor` | raft/raft.go:155-180 | A new node, or a node rebuilt from what it had stored, with delivery resuming at the snapshot |
| `RaftNode.RaftPeer.Campaign` | raft/election.go:44-70 | The candidacy step of the transition system, stored before any request goes out |
| `RaftNode.RaftPeer.RequestVote` | raft/election.go:120-148 | The vote step, with term and vote stored before the answer, granted if and only if the term, the vote and the ends of the two logs allow it, in numbers |
| `RaftNode.RaftPeer.ReceiveVote` | raft/election.go:70-86 | The vote-counting step, including stale terms; the move to leader if and only if the votes are more than half of the cluster |
| `RaftNode.RaftPeer.BecomeLeader` | raft/election.go:96-116 | Leader state over all peers and the stored no-op entry |
| `RaftNode.RaftPeer.Propose` | raft/raft.go:215-230 | The append step on a leader with the index and term it returns; nothing changes on any other node |
| `RaftNode.RaftPeer.SendAppendEntries` | raft/replication.go:96-118 | The append request of the transition system for the peer's nextIndex, or none below the boundary |
| `RaftNode.RaftPeer.SendInstallSnapshot` | raft/snapshot.go:38-53 | The snapshot request of the transition system, under a lock of its own |
| `RaftNode.RaftPeer.CountHolders` | raft/replication.go:191-196 | The number of nodes whose matchIndex reaches the index |
| `RaftNode.RaftPeer.AdvanceCommit` | raft/replication.go:186-203 | The downward scan lands on the greatest index of the node's term that more than half of the cluster holds, or stays if there is none above |
| `RaftNode.RaftPeer.FindLastOfTerm` | raft/replication.go:153-162 | The loop finds what the recursive search of the transition system finds |
| `RaftNode.RaftPeer.ReceiveAppendReply` | raft/replication.go:127-180 | The reply step: step down, ignore, count, or backtrack |
| `RaftNode.RaftPeer.FindConflictStart` | raft/replication.go:243-249 | The loop walks back to the first entry of the conflicting term |
| `RaftNode.RaftPeer.TakeEntries` | raft/replication.go:256-270 | The loop leaves the merged log and reports whether anything changed |
| `RaftNode.RaftPeer.CheckAndAppend` | raft/replication.go:237-283 | The consistency check, append and commit update of the transition system on the shifted window |
| `RaftNode.RaftPeer.AppendEntries` | raft/replication.go:206-283 | The append step, stored before the answer |
| `RaftNode.RaftPeer.InstallSnapshot` | raft/snapshot.go:80-124 | The install step, stored before the answer |
| `RaftNode.RaftPeer.ReceiveInstallReply` | raft/snapshot.go:61-77 | The snapshot reply step |
| `RaftNode.RaftPeer.Snapshot` | raft/snapshot.go:21-33 | The compaction step, with the log and the snapshot stored together |
| `RaftNode.RaftPeer.CollectBatch` | raft/replication.go:318-325 | Exactly the committed entries after the last applied one, or after the snapshot if that is later |
| `QueueRuns.OverlayIndependence` | broker/statemachine.go:120-235 | For any interleaving of committed entries with deliveries, lost leaderships and snapshot reloads, live tasks, dead letters and ack count are the fold of the committed entries alone |
| `QueueRuns.Conservation` | broker/statemachine.go:66-106 | For every log: tasks created = live + dead-lettered + acked |
| `QueueFate.EnqueueHonoured` | broker/statemachine.go:66-106 | Every enqueue of a log is honoured at every later position: its id was live once applied, with the enqueued task unless the id was live before, and that task is live, dead-lettered or acked by an entry in between |
| `QueueRetries.RetriesCounted` | broker/statemachine.go:66-106 | For every log, a live task is the one its creating entry enqueued, with exactly one retry more for each nack since, and after a nack below the limit |
| `QueueRetries.LimitIsExact` | broker/statemachine.go:89-105 | The nack that makes the retries reach the limit moves the task to the end of the dead letters, and any nack before leaves it live with one retry more |
| `QueueRetries.NackOnReplica` | broker/statemachine.go:89-113 | On a replica with a complete heap a nacked task is pending again with an entry in the heap, or the last dead letter, and the nack counter rises |
| `QueueRuns.HeapCompleteExactly` | broker/statemachine.go:108-113 | The heap is complete in every state of a run if and only if no entry of the run creates a task whose id the heap still holds |
| `QueueRuns.EveryDeliveryIsNext` | broker/statemachine.go:120-138 | When no id is used for a second task, every delivery of every run returns a pending task, and none only when nothing is pending: no pending task has a lower priority value, and none of the same priority was created earlier |
| `QueueRuns.ReusedIdWaits` | broker/statemachine.go:108-138 | In every run, a task created under an id that the heap still holds is pending and is handed out by no delivery for as long as there is no ack or nack of the id and no reload; lost leaderships do not help |
| `QueueRuns.ReusedIdIsStuck` | broker/statemachine.go:108-113 | A concrete run in which a pending task is passed over because its id was used before |
| `QueueHeap.DequeueDelivers` | broker/statemachine.go:120-138 | With a complete heap the pop loop skips stale entries and delivers a pending task of the lowest priority value and among those the earliest creation time, empty if and only if nothing is pending, leaving the rest of the queue untouched and the heap complete |
| `QueueHeap.DeliversByPriority` | broker/priorityqueue.go:37-42 | No pending task has a lower priority value than a delivered one, or the same and an earlier creation time |
| `QueueHeap.EnqueueHeapExactly` | broker/statemachine.go:70-80 | An accepted enqueue keeps the heap complete if and only if no entry with its id is left in the heap |
| `QueueHeap.ApplyHeapOk` | broker/statemachine.go:66-113 | Every other command keeps the heap complete |
| `QueueHeap.RequeueTurn` | broker/statemachine.go:153-163 | Visiting the tasks in any order requeues exactly the in-flight ones |
| `QueueHeap.RequeueHeapOk` | broker/statemachine.go:153-163 | After losing leadership every live task is pending, in-flight ones without their deadline and others unchanged, and the heap is complete |
| `QueueHeap.RestoreHeapOk` | broker/statemachine.go:218-235 | Restoring a snapshot rebuilds a complete heap without stale entries, whatever state the replica was in |
| `QueueMachine.ApplyRefines` | broker/statemachine.go:66-106 | A command on a replica is the command on the replicated queue |
| `QueueMachine.DequeueKeepsView` | broker/statemachine.go:120-138 | Handing out a task leaves the replicated queue as it was |
| `QueueMachine.RequeueKeepsView` | broker/statemachine.go:153-163 | Requeueing leaves the replicated queue as it was |
| `QueueMachine.SnapshotStands` | broker/statemachine.go:199-214 | A serialized snapshot stands for the replicated queue, lists every task once and as pending, whatever is in flight and in whatever order the tasks are listed |
| `QueueMachine.RestoreYields` | broker/statemachine.go:218-235 | Restoring a snapshot gives exactly the replicated queue it stands for and keeps the nack counter |
| `QueueNode.StateMachine.constructor` | broker/statemachine.go:55-62 | An empty queue |
| `QueueNode.StateMachine.Apply` | broker/statemachine.go:66-106 | The state change of the committed command and no other |
| `QueueNode.StateMachine.Dequeue` | broker/statemachine.go:120-138 | The pop loop terminates and, on a complete heap, delivers a pending task of the lowest priority value and among those the earliest creation time, and keeps the heap complete |
| `QueueNode.StateMachine.RequeueInFlight` | broker/statemachine.go:153-163 | All in-flight tasks are pending again, for every order of the loop |
| `QueueNode.StateMachine.Snapshot` | broker/statemachine.go:199-214 | Every live task once, as pending, with dead letters and ack count |
| `QueueNode.StateMachine.Restore` | broker/statemachine.go:218-235 | The queue of the snapshot in fresh structures; the nack counter stays |
| `QueueNode.ClusterServer.ConsumeEntry` | server/cluster.go:122-148 | One turn of the apply loop: the entry applied, exactly the waiting calls of its index and term answered with success and no call of its index left waiting, and a snapshot of the queue after the entry if and only if the threshold-th entry since the last one was applied |
| `QueueNode.ClusterServer.Register` | server/cluster.go:166-169 | A call starts to wait for its index in place of any other call at that index |
| `QueueNode.ClusterServer.ConsumeSnapshot` | server/cluster.go:109-117 | The queue replaced by the snapshot and the count since the last snapshot reset |
| `PriorityQueues.PriorityQueue.Push` | broker/priorityqueue.go:18-20 | The item is added and the heap order kept |
| `PriorityQueues.PriorityQueue.Pop` | broker/priorityqueue.go:23-28 | Removes one item, than which no item in the queue has a lower priority value, or the same and an earlier creation time, or reports an empty queue |
| `PriorityQueues.RootIsMin` | broker/priorityqueue.go:37-42 | In a heap-ordered slice no item has a lower priority value than the first, or the same and an earlier creation time |
| `WalCodec.RoundTripExactly` | broker/wal.go:291-349 | Reading back a written record, whatever follows it, gives the record if and only if its payload is at most 64 MiB |
| `WalCodec.RecordFormat` | broker/wal.go:291-305 | The bytes of a record: "DQWL", operation, length and payload, and the checksum of operation and payload, numbers with the highest byte first |
| `WalCodec.OperationCodes` | broker/wal.go:25-30 | Enqueue, ack, nack and dead-letter records carry operation 1, 2, 3 and 4 |
| `WalCodec.WrittenRead` | broker/wal.go:307-349 | Any bytes that read as a record are the encoding of that record |
| `WalCodec.TornIsCorrupt` | broker/wal.go:307-349 | For any checksum function, a proper prefix of a record never reads as that record, and reads as no record at all unless the payload is too long for the four length bytes |
| `WalCodec.ReplayWhole` | broker/wal.go:180-216 | Replaying whole entries followed by bytes that do not start a record returns exactly those entries and their end |
| `WalCodec.CrashKeepsPrefix` | broker/wal.go:180-216 | Whatever byte prefix of a log survives, replay returns a prefix of its entries that includes every entry the surviving bytes cover, and truncates exactly there |
| `WalCodec.CutPoint` | broker/wal.go:180-216 | Every byte prefix of a log is some whole entries and a proper piece of the next |
| `WalCodec.Replay` | broker/wal.go:180-216 | The scan loop returns the readable entries and the file cut after the last of them |
| `WalFile.AppendReadsExactly` | broker/wal.go:116-126 | Appending to a file that reads back as its log gives a file that reads back as the longer log if and only if the new entry is within the reader's cap |
| `WalFile.RewriteReadsExactly` | broker/wal.go:180-216 | A file of any entries with payloads below 4 GiB reads back as those entries if and only if all of them are as the broker writes them and within the reader's cap |
| `WalFile.RecordAfterOversizedIsLost` | broker/wal.go:318-323 | A concrete record one byte over the cap: replay returns the entries before it and loses it and everything after it |
| `WalFile.WriteAheadLog.constructor` | broker/wal.go:64-72 | Opening a file with any content keeps exactly the entries that read, and the kept file reads back completely |
| `WalFile.WriteAheadLog.AppendTask` | broker/wal.go:103-126 | The log is one enqueue longer, of any size, and the file stays readable if and only if the entry is within the cap |
| `WalFile.WriteAheadLog.AppendId` | broker/wal.go:112-126 | The log is one id record longer, of any size, and the file stays readable if and only if the record is within the cap |
| `WalFile.WriteAheadLog.Rewrite` | broker/wal.go:224-287 | The log becomes the given entries, all records written so far count as synced, and the file reads back as them if and only if they are as the broker writes them and within the cap, given payloads below 4 GiB |
| `BrokerTheorems.AtLeastOnce` | broker/broker.go:129-204 | At every moment of every run and for every crash that keeps at least the durable bytes: each task whose enqueue returned success and whose ack was not logged comes back as pending or dead with its payload, priority and creation time, and no task whose ack returned success comes back |
| `BrokerTheorems.CrashIsRollback` | broker/wal.go:134-216 | For every run, moment and crash size, the surviving file recovers exactly the broker of one earlier moment of the same process, live tasks with retry counts and dead letters in order, no earlier than the last sync and with the operation of every enqueue, ack and nack that returned success already applied |
| `BrokerTheorems.AnsweredIsOwed` | broker/broker.go:129-204 | In every run, every enqueue and ack that returned success is among the promises that at-least-once delivery covers, until a later record about its id is logged |
| `BrokerTheorems.LogMirrorsState` | broker/broker.go:86-127 | At every moment of every run, replaying the written file yields exactly the pending and in-flight tasks, each as often as it is there, as pending with their retry counts, and the dead letters in order, and no id is in two places |
| `BrokerTheorems.GroupCommit` | broker/wal.go:134-166 | syncedSeq never exceeds writeSeq, a sleeping call has a sync leader, and once a call returned success every crash takes the broker back to a moment at which its operation was applied |
| `BrokerProgress.AnswerIsReachable` | broker/wal.go:134-166 | From every state of every run in which no fsync has failed, any waiting call can be answered with success within seven steps of the group commit, with its promise booked |
| `BrokerProgress.CheckExactly` | broker/wal.go:134-150 | A call that looks is answered with success if and only if no fsync failed and its record is synced, refused if and only if one failed, and otherwise waits for the leader or becomes it |
| `BrokerProgress.RefusedOnlyAfterFailure` | broker/wal.go:137-140 | In every run, a call that returned an error did so because an fsync of the process had failed |
| `BrokerProgress.SyncServesAll` | broker/wal.go:146-166 | In every run, when an fsync succeeds every record written before it began is synced, whoever wrote it |
| `BrokerProgress.FirstEnqueueSucceeds` | broker/broker.go:129-158 | A concrete run in which the first enqueue is answered with success and owed |
| `BrokerTheorems.FailedSyncIsFinal` | broker/wal.go:128-166 | Over any stretch of a run without a restart, after a failed fsync no further call returns success and no new promise is made |
| `BrokerTheorems.SomeCallCanMove` | broker/wal.go:134-166 | In every reachable state with an unanswered call, a step of a waiting call is enabled, and an fsync in progress can succeed: no wake-up is lost |
| `BrokerModel.CompactionExactly` | broker/broker.go:329-348 | Compacting and replaying is the identity on the tasks the broker owes, counted with multiplicity, and on its dead letters if and only if every id is in one place: no two pending tasks share one, no pending task one with a task in flight, no dead letter one with a live task |
| `BrokerModel.ClashIsLost` | broker/broker.go:329-348 | A concrete sequence, enqueue, deliver, nack to the dead letters, enqueue again, after which a compaction writes a log that recovers no live task |
| `BrokerModel.TwinIsLost` | broker/broker.go:86-115 | Any two tasks enqueued under one id are both pending, and of the two the log, compacted or not, recovers the second only |
| `BrokerModel.RecoversExactly` | broker/broker.go:86-127 | A log recovers every live task of a broker, with multiplicity, if and only if it recovers the live tasks by id and no two of them share an id |
| `BrokerModel.ReplayCompacted` | broker/broker.go:329-348 | What replaying a compacted log yields for any state, clashing ids included |
| `BrokerScan.ScanExactly` | broker/tracker.go:69-98 | For every interleaving of an expiry scan with enqueues, deliveries, acks, nacks and tunings, each with the same compaction guard: at each point the log recovers every task, those still to be requeued included, if and only if no record is logged while a task is still to come, compaction is off, or the entries since the last rewrite plus those records, by the scan and by others, stay below the threshold |
| `BrokerScan.ScanAlone` | broker/tracker.go:78-80 | For a scan whose callbacks run back to back that is: at most one task is overdue, compaction is off, or the entries since the last rewrite plus all but one of the overdue tasks stay below the threshold |
| `BrokerScan.OverdueTaskIsLost` | broker/broker.go:228-240 | A concrete scan with one overdue task in which an enqueue before the callback compacts the log without the task |
| `BrokerScan.SecondTaskIsLost` | broker/broker.go:228-240 | A concrete scan of two overdue tasks in which the first one's compaction writes a log without the second |
| `BrokerModel.EnqueueDistinct` | broker/broker.go:129-149 | Ids stay in one place if and only if the enqueued id is not pending, in flight or dead-lettered |
| `BrokerModel.EnqueueRecovers` | broker/broker.go:129-149 | The log keeps recovering every live task over an enqueue of any id if and only if the id is neither pending nor in flight |
| `BrokerModel.DequeueKeepsLive` | broker/broker.go:160-175 | An unlogged dequeue changes nothing that a crash must bring back |
| `BrokerModel.AckRecovers` | broker/broker.go:177-204 | Replaying the log after an ack recovers the state after it |
| `BrokerModel.RequeueRecovers` | broker/broker.go:245-267 | Replaying the log after a nack or timeout recovers the state after it, requeued or dead-lettered |
| `QueueRetries.ReplayCountsRetries` | broker/broker.go:86-115 | Replaying any log gives a live task the retry count of its last enqueue record and one more for each nack record since |
| `QueueRetries.ReplayMarksDead` | broker/broker.go:105-112 | Every dead letter that replay rebuilds is marked dead |
| `BrokerModel.RebuiltRecovers` | broker/broker.go:86-127 | The broker that recovery builds, in any heap order, is again what its log recovers |
| `BrokerModel.RebuiltDistinct` | broker/broker.go:86-127 | The broker that recovery builds has every id in one place if and only if no live task of the log shares its id with a dead letter |
| `BrokerNode.DurableBroker.FoldEntries` | broker/broker.go:86-115 | The replay loop computes the recovery fold |
| `BrokerNode.DurableBroker.constructor` | broker/broker.go:60-127 | From a file with any content: the broker holds exactly the live tasks and dead letters of what the scan kept, and its log, compacted or not, recovers it if and only if no live id is a dead letter's |
| `BrokerNode.DurableBroker.Compact` | broker/broker.go:329-348 | The rewritten log is a compaction of the state, for every order of the in-flight tasks |
| `BrokerNode.DurableBroker.MaybeCompact` | broker/broker.go:319-324 | Compacts exactly at the threshold and otherwise leaves the log alone |
| `BrokerNode.DurableBroker.Enqueue` | broker/broker.go:129-158 | The task is pending and logged with its own id and creation time where it has them and the new id and the current time where not, and otherwise as given; every task stays in one place with the log recovering the state if and only if the id was not in use; the call is a turn of any scan under way; nothing happens on a closed broker |
| `BrokerNode.DurableBroker.Dequeue` | broker/broker.go:160-175 | A pending task of the lowest priority value, and among those of the earliest creation time, is handed out with its deadline and moves to the in-flight tasks; nothing is logged, and the call is a turn of any scan under way; empty and closed brokers report it |
| `BrokerNode.DurableBroker.Ack` | broker/broker.go:177-204 | An in-flight task is gone and its ack logged, and the call is a turn of any scan under way; unknown ids and a closed broker change nothing |
| `BrokerNode.DurableBroker.Requeue` | broker/broker.go:245-267 | A task that is out of the tracker is pending again with one more retry and without a deadline, or a dead letter if the retries then reach the limit, and that is logged or compacted |
| `BrokerNode.DurableBroker.Nack` | broker/broker.go:206-224 | An in-flight task takes the shared requeue path, the log keeps recovering the state, and the call is a turn of any scan under way; unknown ids and a closed broker change nothing |
| `BrokerNode.DurableBroker.OnTimeout` | broker/broker.go:228-240 | A call of the scan: the task given up by the tracker takes the shared requeue path, and a closed broker ignores it |
| `BrokerNode.DurableBroker.ScanExpired` | broker/tracker.go:69-98 | The tracker gives up exactly the overdue tasks, and the moments between its callbacks, run back to back, form a scan in the sense of the scan theorem |
| `BrokerNode.DurableBroker.ApplyTuning` | broker/broker.go:277-286 | Each positive value replaces its tunable, others leave it; the log still recovers the state, also during a scan |
| `BrokerNode.InFlightTracker.Remove` | broker/tracker.go:52-61 | The tracked task is handed back and no longer tracked; an unknown id changes nothing |
| `BrokerNode.InFlightTracker.Expired` | broker/tracker.go:87-98 | Exactly the tasks past their deadline are removed, each returned once |

## Left out

- RaftTheorems.MatchIndexSound: says nothing about uncommitted entries of a peer that moved to a later term, because such a peer may already have replaced them.
- RaftTheorems.LogMatching: compares the entries both nodes still hold, because compacted entries no longer exist; `RaftTheorems.EndToEnd` covers what they did to the queue.
- RaftSimulation.EveryMessageMirrored: a conflict index below the boundary is reported as the boundary's successor, and after a rejection the next index of the node with the whole log may lie at or below the boundary instead, as it does in the code.
- RaftRefinement.CompactionIsUnnoticed: ends at the next restart of the process, because a restarted node takes its snapshot boundary for its commit index and a node with the whole log starts at 0; the apply channel is not part of the simulation, only the applied index is.
- WalFile.WriteAheadLog.Rewrite: says nothing about the converse for payloads of 4 GiB and more, whose length does not fit its four bytes, because the misread bytes might decode to the same entries.
- BrokerNode.DurableBroker.ScanExpired: runs its callbacks back to back, because a method has no caller in between; `BrokerScan.ScanExactly` covers the interleavings, of which every call of the class is a turn.
- BrokerNode.DurableBroker.Dequeue: picks a first task from a sequence; the binary heap is in `PriorityQueues` and is used by the replicated queue's class.
- QueueNode.ClusterServer.ConsumeEntry: the channel to the waiting call is not modelled; the call it answers is returned.
- Write errors in the log file, and the paths that put a task back after one.
- `WaitSync` as a method: it gives up its lock in the middle, so it is modelled as interleaved steps (`BrokerSystem.Checked`, `BrokerSystem.Synced`) and not as a loop.
- Liveness under a schedule: elections that converge, deliveries that eventually happen, timeouts and backoff; timers are steps that may happen at any time, and `RaftAnswer.AnyCallCanSucceed` and `BrokerProgress.AnswerIsReachable` say what can still happen, not what must.
- Clusters of one node, which never elect a leader in the code either.
- The server's in-flight deadlines, timeout loop and leadership watch, which run under a different lock than the state machine; only their effect on the queue, requeueing and nacks, is modelled.
- Proposal timeouts and shutdown, whose outcome the client does not learn.
- gRPC adapters, transports, protobuf code, client redirects and the worker library: plumbing without invariants.
- Statistics, listing of dead letters, metrics and configuration: they would add only easy members.
- The autotuning in `ml/`: only the broker's `ApplyTuning`, which it calls, is modelled.
