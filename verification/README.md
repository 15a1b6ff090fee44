# Goulette in Dafny

A model of goulette, a message queue whose brokers replicate topics with Raft, whose
sentinels place replicas on a consistent-hash ring, and whose messages live in a write-ahead
log and rolling fragment files. The model follows the code branch by branch and proves what
the parts promise over all inputs, all runs and all reachable states.

`dafny verify dfyconfig.toml` checks everything. The project depends on nothing outside this
directory.

## How the files fit together

| part | files |
|---|---|
| Raft node: values, handlers as functions, the mutable class | `raft_types`, `raft_handlers`, `raft_node` |
| Raft cluster: runs over a lossy, duplicating, reordering network | `raft_cluster`, `raft_history` |
| Raft invariants: votes, logs, acknowledgements and choices, commits, applied slots | `raft_election`, `raft_log`, `raft_commit`, `raft_safety`, `raft_machine` |
| Raft results: safety, its limits, progress | `raft_theorems`, `raft_counterexamples`, `raft_exactness`, `raft_progress` |
| Hash ring: clockwise order, additions and removals, the classes, what they offer on a ring of given nodes | `ring_order`, `ring_changes`, `hash_ring`, `ring_offers` |
| Sentinel: steps on values, results over runs, what is picked, the class | `sentinel_spec`, `sentinel_theorems`, `sentinel_placement`, `sentinel_server` |
| Storage formats, the fragment manager on values, the classes | `codec`, `wal_spec`, `wal`, `fragment_spec`, `fragment_store`, `fragments` |
| Broker: steps on values, crash recovery, where it ends, what can be pulled, the class | `broker_spec`, `broker_theorems`, `broker_limits`, `broker_reads`, `broker` |
| Fragment replication, id allocation, shared types | `replication`, `id_allocator`, `common` |

Each class updates in place the fields its source counterpart updates. Its methods are proved
equal to functions on values, and the results are proved of those functions, over whole runs.

## Raft

A run is any sequence of enabled steps: an election timeout, sending a vote or append request
to a peer, a client proposal, or the delivery of any packet ever sent (so packets may be
lost, repeated and reordered). A packet that answers a request carries that request, which
the source does not transmit and no handler reads; it lets hypotheses speak about the request
behind a reply. Membership is the full peer set including the node itself, ids are non-empty,
senders are true, an append request is built atomically while its sender leads, and nodes do
not restart. Vote requests may be built late. The algorithm is that of Ongaro and Ousterhout,
"In Search of an Understandable Consensus Algorithm (Extended Version)", sections 5.2 to 5.4.

Election Safety, the election restriction, Log Matching, Leader Append-Only, index safety and
the apply discipline hold in every run. Leader Completeness and State Machine Safety do not:

- A success reply moves a peer's match index up by one whatever the request carried, so
  answered heartbeats count as replication. `CompletenessNeedsCover` is a run in which a
  leader commits a slot that the next leader does not have. The hypothesis `AcksCover` asks
  that the counted slots are proven by the request behind the reply, or by an earlier request
  of the same term that the peer accepted. A request proves what it quotes, and one slot more
  when it carries no entries and the leader's log leaves no term out from the previous entry up
  to its own term (`NoGap`): the handler only accepts if that slot is there, and then no other
  leader can have filled it. `SuccessProves` shows that this is exact: over all states of the
  log invariant in which `HandleAppend` answers success, success proves the leader's first i
  slots if and only if i is at most that number, and `UnprovenIsReached` is a run that attains
  the bound. `BuiltCovers` says when a request proves the
  slot the leader is about to count, and `OwnTermHasNoGap` that a heartbeat behind an entry of
  the leader's own term does.
- A follower commits up to its own last index instead of the last entry of the request.
  `MachineSafetyNeedsCover` is a run in which two nodes apply different entries at one slot
  although every counted reply is justified. The hypothesis `CommitsCovered` asks that the new
  commit index lies within what the request quotes, or within what an earlier accepted request
  of the same term quoted, or that the follower's log then ends in an entry of the leader's
  term, or that it is not above the one the follower had. `CommitProves` shows that the part about the request at hand is exact: it holds if and
  only if the slots taken for committed agree with every leader log the request can have come
  from.

For whole runs the hypotheses are sufficient. They are not necessary run by run: a run may
count an unjustified reply and happen to elect nobody who lacks the slot.

Progress is stated as what some continuation of a run reaches: from every state of every run of
two or more nodes, reachable by whatever losses and elections, a continuation elects a leader,
brings every log up to the leader's and commits any further command on every node (`Progress`).
A vote counts only from the second request on, since the first reply carries the voter's old
term; a peer that lags is asked one slot further back with every refusal (`CatchUp`); and the
last slot of a log is not committed before another one follows. A cluster of one node never gets
a leader, because votes are only counted when a reply comes in, so `ProgressIff` holds from two
nodes on.

## Ring, sentinel

CRC32 is an uninterpreted function. Virtual-node hashes of the brokers in play do not collide;
`RemoveUndoesAdd` says what a collision breaks. The iterator returns an error together with
the last node when the walk ends on a node not met before, and callers drop that node.
`ErrorOnlyOnBareRings` shows that this happens exactly with one virtual node per broker and at
least two brokers. The sentinel has 150, so there `GetNodes` returns min(count, brokers) nodes
(`GetNodesOnRing`) and the search for replacements succeeds exactly when enough healthy brokers
are left (`SearchSucceeds`). What is placed are the healthy ones among the nearest brokers
(`PlacedIs`), and what is replaced are only the brokers that have to be (`UnreachableKeeps`).
Operations are atomic, as under the server's locks; answers of
etcd are parameters, and the replica sets kept in etcd are part of the state.

## Storage, broker

Files are byte sequences and topics are byte strings. A write-ahead log write is durable once
it returns. One that fails leaves any strict prefix of its entry in the current file, and a
crash may leave any strict prefix of one more. A fragment write that fails leaves any prefix of
its message in the fragment file and the fragment's counters as they were. Every start opens a
new log file whose name sorts after the others. Entry sizes are below 2^32, as their length
fields need. Fragment TTL is off. Leadership, roles, Raft's answer to a proposal and the outcome
of every file operation are parameters. A run of fewer than 2^64 operations cannot wrap the
message counter.

Nothing cuts such left-over bytes off, so what is written behind them may be lost or misread:

- In the log, `CrashRecovery` needs runs that are orderly: no bytes are put behind what a failed
  write left in the same file. `RecoveryIff` shows that this is what it takes: after an orderly
  run, every message acknowledged next survives every crash if and only if no failed write left
  bytes in the current file. Behind such bytes one of the two messages `[0]` and `[1]` is lost,
  whatever the bytes are. `HandedOnIff` says the same of any file contents. `AckedIsLost` and
  `RemovalIsForged` are families of runs, the second one with two failed writes that read as a
  removal nobody completed, which takes an acknowledged message along.
- In fragments, the log of a topic grows by just the message stored next, whatever it is, if and
  only if the fragment it goes to ends in a whole message or a new fragment is due
  (`GrowsIff`, and `PullableIff` for every run of the broker). Otherwise some message that is
  acknowledged next is not read by any pull (`UnreadSend`), and one failed write is enough to get
  there (`AckedIsUnread`). In runs without such a write `AckedIsPullable` shows that what pulls
  read includes every acknowledged message not removed since.

An id is issued again in some orderly continuation if and only if its log write failed
(`IdIsFinal`).

A read past offset 2^63 can wrap, so `ReadIsSlice` differs from the plain slice only on a log
of more than 2^63 messages, and a negative limit (`NegativeLimit`) does not come from a pull,
whose batch size is an unsigned 32-bit number.

## Model

| member | source | states |
|---|---|---|
| `RaftNodeImpl.RaftNode.constructor` | internal/raft/raft.go:68-93 | a node starts as a follower of term 0 with only the sentinel in its log, next index 1 and match index 0 for every other peer |
| `RaftNodeImpl.RaftNode.StartElection` | internal/raft/raft.go:172-177 | the new state is exactly that of a candidate of the next term that voted for itself, nothing else changed |
| `RaftNodeImpl.RaftNode.RequestVote` | internal/raft/raft.go:197-203 | the request carries the node's current term and the end of its log |
| `RaftNodeImpl.RaftNode.SendAppendEntries` | internal/raft/raft.go:224-242 | the request quotes the log from the peer's next index, nothing for a heartbeat or past the end |
| `RaftNodeImpl.RaftNode.Propose` | internal/raft/raft.go:279-293 | a leader appends one entry of its term with the next slot number; others refuse and change nothing |
| `RaftNodeImpl.RaftNode.HandleRequestVote` | internal/raft/raft.go:312-344 | the whole new state and the reply, which carries the term from before any bump |
| `RaftNodeImpl.RaftNode.HandleRequestVoteResponse` | internal/raft/raft.go:347-375 | stale replies are ignored, a higher term demotes, a counted vote may make a leader |
| `RaftNodeImpl.RaftNode.BecomeLeader` | internal/raft/raft.go:470-481 | the loop resets the next and match indices of exactly the other peers |
| `RaftNodeImpl.RaftNode.HandleAppendEntries` | internal/raft/raft.go:378-433 | the whole new state and the reply, with the log merged and the commit index moved to the smaller of the leader's and the node's last index |
| `RaftNodeImpl.RaftNode.AppendAll` | internal/raft/raft.go:411-423 | the slot-by-slot truncate-and-append loop leaves the merge of the log with the entries |
| `RaftNodeImpl.RaftNode.ApplyLogs` | internal/raft/raft.go:488-498 | the loop hands on exactly the slots between lastApplied and commitIndex, in order |
| `RaftNodeImpl.RaftNode.HandleAppendEntriesResponse` | internal/raft/raft.go:436-467 | a counted success moves the peer's indices up by one and tries to commit, a failure moves next back but not below 1 |
| `RaftNodeImpl.RaftNode.TryCommitLogs` | internal/raft/raft.go:501-516 | the loop ends at the highest slot of the current term that a majority is counted to hold, or where it was |
| `RaftNodeImpl.RaftNode.CountMatched` | internal/raft/raft.go:504-509 | the count is one plus the number of other peers matched at the index |
| `RaftHandlers.Highest` | internal/raft/raft.go:502-514 | the result is committable or the old commit index, and no slot above it in range is committable |
| `RaftElection.MajoritiesMeet` | internal/raft/raft.go:369-372 | two vote counts above half the peer set share a voter |
| `RaftElection.CountedVote` | internal/raft/raft.go:361-366 | a vote that is counted was cast for the counting candidate in its current term, although the reply carries an older term |
| `RaftElection.VoteInvKept` | internal/raft/raft.go:312-375 | every step keeps the vote invariant: one recorded ballot per node and term, a voting majority behind every leader |
| `RaftLog.SameTermSamePrefix` | internal/raft/raft.go:404-409 | the same term at a slot of two good logs means the same log up to it |
| `RaftLog.MergeWithLeader` | internal/raft/raft.go:411-423 | merging leader entries after a matching prefix yields the unchanged log or the leader's prefix and loses no slot on which the two agreed |
| `RaftLog.AppendKeepsGood` | internal/raft/raft.go:404-423 | an accepted append keeps the log good and makes it hold the leader's first prev + entries slots |
| `RaftLog.ExtendedLogOk` | internal/raft/raft.go:286-293 | a proposal extends the leader's whole log and keeps the leader log good |
| `RaftLog.LogInvKept` | internal/raft/raft.go:224-242 | every step keeps the log invariant, for node logs, ballots and packets in flight |
| `RaftCommit.UpToDateHolds` | internal/raft/raft.go:519-525 | a log at least as up to date as a voter's holds what the voter holds of a term, given that the leader of its last term does |
| `RaftCommit.NextSlotHeld` | internal/raft/raft.go:404-409 | the slot that the previous-entry check demands beyond prev is the leader's when the leader's log leaves no term out from there |
| `RaftCommit.AcceptedHolds` | internal/raft/raft.go:388-423 | a node that answers success holds the leader's first Proven slots, in every state of the log invariant |
| `RaftCommit.WinnerHolds` | internal/raft/raft.go:334-373 | a new leader holds every slot that could have been chosen in an earlier term |
| `RaftCommit.ChoiceInvKept` | internal/raft/raft.go:312-423 | every step keeps: what a majority holds or still could hold of a term is in every later leader's log |
| `RaftCommit.RunInv` | internal/raft/raft.go:172-516 | every state of every run satisfies the vote, log, acknowledgement and choice invariants |
| `RaftSafety.CommittableIsHeld` | internal/raft/raft.go:503-513 | when the match indices are backed, the counted majority really acknowledged the slot |
| `RaftSafety.CommitInvKept` | internal/raft/raft.go:436-516 | if the counted slots are proven by the request answered, or by an earlier one of the term that the peer accepted, every recorded commit stays held by a majority |
| `RaftMachine.MergeKeepsCommitted` | internal/raft/raft.go:404-428 | accepting a request never touches a committed slot |
| `RaftMachine.HeldInvKept` | internal/raft/raft.go:378-433 | every step keeps: a node that is still in the term of an acknowledgement still holds what it acknowledged |
| `RaftMachine.SafeInvKept` | internal/raft/raft.go:378-516 | if the step moves a commit index up only as far as `CommitJustified` allows, every node still has applied exactly its committed slots, all of them committed by a leader |
| `RaftTheorems.ElectionSafety` | internal/raft/raft.go:172-208 | at most one node is ever leader in a term, over any two times of a run |
| `RaftTheorems.LogMatching` | internal/raft/raft.go:388-423 | two logs, at any two times, with the same term at a slot are identical up to it |
| `RaftTheorems.LeaderAppendOnly` | internal/raft/raft.go:279-293 | while a node leads a term its log only grows |
| `RaftTheorems.IndexSafety` | internal/raft/raft.go:81-90 | in every reachable state the sentinel is at slot 0, every entry carries its slot number, terms never decrease, next indices are at least 1 |
| `RaftTheorems.AppliesInOrder` | internal/raft/raft.go:488-498 | a step of any kind applies the next slots of the node's own log in order, or nothing |
| `RaftTheorems.ApplyDiscipline` | internal/raft/raft.go:426-428 | the k-th call of the apply callback is for slot k, and lastApplied is never behind commitIndex, in every run |
| `RaftTheorems.ElectionRestriction` | internal/raft/raft.go:334-373 | whoever becomes leader was voted for by a majority, each in a step in which it had not yet voted in that term and its log was no more up to date than the leader's is now |
| `RaftTheorems.LeaderCompleteness` | internal/raft/raft.go:501-525 | if every counted slot is proven by a request the peer accepted in the term, what a leader commits in term t is in the log of every node that ever leads a later term |
| `RaftTheorems.StateMachineSafety` | internal/raft/raft.go:426-433 | if besides followers move their commit index up only within accepted requests of the term or with a log ending in it, what two nodes have applied at any two times agrees as far as both go |
| `RaftTheorems.CommittedStays` | internal/raft/raft.go:404-428 | under the same two hypotheses no log loses a committed slot and exactly the committed slots are applied |
| `RaftCounterexamples.CompletenessNeedsCover` | internal/raft/raft.go:454-460 | a run in which answered heartbeats commit a slot that the next leader lacks |
| `RaftCounterexamples.MachineSafetyNeedsCover` | internal/raft/raft.go:426-428 | a run with every counted slot proven in which two nodes apply different entries at one slot |
| `RaftCounterexamples.HypothesesAreMet` | internal/raft/raft.go:436-516 | a run under both hypotheses in which a leader replicates and commits a slot and another node leads a later term, so the two results above are not empty |
| `RaftExactness.SuccessProves` | internal/raft/raft.go:388-460 | over all states of the log invariant in which the handler answers success, success proves the leader's first i slots if and only if i is at most Proven: what the request quotes, and one more for a request without entries when the leader's log has no gap |
| `RaftCounterexamples.UnprovenIsReached` | internal/raft/raft.go:388-433 | a run in which a follower answers a heartbeat with success and does not hold one slot more than Proven |
| `RaftExactness.CommitProves` | internal/raft/raft.go:404-428 | a follower that takes a commit index agrees up to it with every leader log the accepted request can have come from, in every state of the log invariant, if and only if it lies within what the request quotes or the log then ends in an entry of the request's term |
| `RaftExactness.BuiltCovers` | internal/raft/raft.go:224-242 | a request built at a peer's next index proves that index if and only if it carries the slot, or only the sentinel is counted, or the leader's log has no gap there |
| `RaftExactness.OwnTermHasNoGap` | internal/raft/raft.go:224-242 | behind an entry of the leader's own term there is no gap |
| `RaftProgress.UpToDateTotal` | internal/raft/raft.go:519-525 | of any two logs one is at least as up to date as the other |
| `RaftProgress.LongerIsUpToDate` | internal/raft/raft.go:519-525 | a log that another one starts with is no more up to date than it |
| `RaftProgress.Grants` | internal/raft/raft.go:312-344 | a node that has not voted in the request's term, its own or a newer one, grants it if and only if the candidate is at least as up to date |
| `RaftProgress.GrantsAgain` | internal/raft/raft.go:312-344 | a node that has voted in its term grants that candidate again and nobody else, and nothing in older terms |
| `RaftProgress.LargerTerm` | internal/raft/raft.go:312-467 | after any delivery a node is in the larger of the two terms, follows when that one is new to it, knows the leader a request in its term came from, and otherwise keeps its role unless it counts a vote |
| `RaftProgress.LeaderStarts` | internal/raft/raft.go:470-481 | a new leader starts every peer at its last slot and counts nobody |
| `RaftProgress.VoteCounts` | internal/raft/raft.go:361-373 | a counted vote makes a leader if and only if more than half of the peers voted |
| `RaftProgress.VoteIgnored` | internal/raft/raft.go:355-363 | every other reply of the term or an older one changes nothing |
| `RaftProgress.AppendAnswer` | internal/raft/raft.go:378-409 | a request is accepted if and only if its term is not older and there is no entry before its own or the node has that entry and one more; a refusal leaves log and commit index alone |
| `RaftProgress.AppendTaken` | internal/raft/raft.go:426-428 | a node that accepts a request with a higher commit index takes the smaller of that and its own last index |
| `RaftProgress.NextMoves` | internal/raft/raft.go:454-466 | a refusal moves the next index back by one, not below 1; a success moves it on and counts the slot asked for |
| `RaftProgress.CommitsIff` | internal/raft/raft.go:501-516 | a counted success commits a slot if and only if that or a later one before the last is of the leader's term and counted as held by more than half of the peers |
| `RaftProgress.CatchUp` | internal/raft/raft.go:224-467 | from any reachable state a peer in the leader's term has all of the leader's log, and its commit index, after at most as many rounds as the next index the leader starts from |
| `RaftProgress.Replicate` | internal/raft/raft.go:224-467 | the same for a peer in any older term, and the leader then counts the peer up to its last index |
| `RaftProgress.Elected` | internal/raft/raft.go:312-373 | a candidate can become leader with any majority of nodes in older terms that are no more up to date |
| `RaftProgress.Lead` | internal/raft/raft.go:172-373 | from every state of every run of two or more nodes some continuation has a leader whose term nobody is past |
| `RaftProgress.Progress` | internal/raft/raft.go:172-516 | from every state of every run of two or more nodes some continuation commits any further command, at one slot, on every node |
| `RaftProgress.LonerNeverLeads` | internal/raft/raft.go:172-208 | a cluster of one node never has a leader, an entry or a commit |
| `RaftProgress.ProgressIff` | internal/raft/raft.go:172-516 | a further command can be committed everywhere, from any state of any run, if and only if there are at least two nodes |
| `RingOrder.RingUnique` | internal/utils/hash.go:38-67 | a set of nodes has only one ring |
| `RingOrder.FirstAtLeast` | internal/utils/hash.go:83-85 | the first position whose hash is at or after the key's |
| `RingOrder.WalkMembers` | internal/utils/hash.go:102-127 | the clockwise walk meets exactly the nodes of the ring |
| `RingOrder.DistinctOnce` | internal/utils/hash.go:112-123 | no node occurs twice in the clockwise order |
| `RingOrder.MinimalDisruption` | internal/utils/hash.go:38-127 | for every key, the order with node x, less x, is the order without x |
| `RingOrder.KeysMoveOnlyToNewNode` | internal/utils/hash.go:137-141 | a key's node changes only to or from x |
| `RingChanges.SortSorts` | internal/utils/hash.go:45-47 | sorting gives a non-decreasing sequence with every element as often as before |
| `RingChanges.RemoveUndoesAdd` | internal/utils/hash.go:38-67 | removing a node right after adding it restores the ring if and only if none of its virtual hashes was taken |
| `RingChanges.AddGivesRing` | internal/utils/hash.go:38-48 | adding an absent node to the ring of a set gives the ring of the larger set |
| `RingChanges.RemoveGivesRing` | internal/utils/hash.go:51-67 | removing a node, present or not, gives the ring of the set without it |
| `HashRingImpl.HashRing.constructor` | internal/utils/hash.go:29-35 | a new ring has no nodes |
| `HashRingImpl.HashRing.AddNode` | internal/utils/hash.go:38-48 | the append loop and the sort turn the ring into the one with the node added |
| `HashRingImpl.HashRing.RemoveNode` | internal/utils/hash.go:51-67 | the nested loops delete one occurrence of each virtual hash and its owner |
| `HashRingImpl.DropFirst` | internal/utils/hash.go:57-62 | the inner loop deletes the first occurrence and nothing else |
| `HashRingImpl.HashRing.GetNodeIter` | internal/utils/hash.go:70-99 | the iterator stands at the first position of the key's clockwise walk |
| `HashRingImpl.HashRing.GetNode` | internal/utils/hash.go:137-141 | a key's node is the first of its clockwise order, "" on an empty ring |
| `HashRingImpl.HashRing.GetNodes` | internal/utils/hash.go:144-161 | the first `count` nodes of the order, cut before a node returned with an error or an empty id |
| `HashRingImpl.NodeIterator.constructor` | internal/utils/hash.go:91-98 | nothing was handed out yet |
| `HashRingImpl.NodeIterator.Next` | internal/utils/hash.go:102-127 | call k returns node k of the clockwise order and then "" for ever; the error comes exactly with the last node when the walk ends on it |
| `HashRingImpl.NodeIterator.Reset` | internal/utils/hash.go:130-134 | the iterator is back at the start of the same order |
| `HashRingImpl.OfferedLength` | internal/utils/hash.go:144-161 | GetNodes returns min(count, D) nodes of the order, one fewer exactly when the error node falls within count |
| `RingOffers.ErrorOnlyOnBareRings` | internal/utils/hash.go:102-127 | on the ring of a set of nodes the iterator returns its error, for any key, if and only if there is one virtual node per node and at least two nodes |
| `RingOffers.GetNodesOnRing` | internal/utils/hash.go:144-161 | with two or more virtual nodes per node GetNodes returns exactly min(count, number of nodes) nodes of the clockwise order |
| `SentinelImpl.SentinelServer.constructor` | sentinel/server.go:98-106 | a sentinel starts with no brokers, an empty ring of 150 virtual nodes a broker, and empty caches |
| `SentinelImpl.SentinelServer.KeepAlive` | sentinel/server.go:199-285 | a heartbeat registers an unknown broker with its ring nodes or refreshes a known one; a failed renewal changes nothing |
| `SentinelImpl.SentinelServer.HandleBrokerHeartbeatPut` | sentinel/server.go:1280-1307 | a PUT event does the same, and nothing without a broker |
| `SentinelImpl.SentinelServer.HandleBrokerHeartbeatDelete` | sentinel/server.go:1308-1317 | a DELETE event removes a known broker from registry and ring |
| `SentinelImpl.SentinelServer.InvalidateCache` | sentinel/server.go:378-382 | drops exactly the topic's cached entry |
| `SentinelImpl.SentinelServer.RegisterBroker` | sentinel/server.go:845-889 | a new broker joins registry and ring and its topics' entries are dropped; an existing one is refused |
| `SentinelImpl.SentinelServer.UnregisterBroker` | sentinel/server.go:895-989 | a known broker leaves registry and ring and its topics' entries are dropped; failures change nothing |
| `SentinelImpl.SentinelServer.UpdateBrokerStatus` | sentinel/server.go:301-313 | the loop sets the status of exactly the listed brokers that exist |
| `SentinelImpl.SentinelServer.FindReplacementBrokers` | sentinel/server.go:316-375 | the search ends with the first `needed` eligible brokers clockwise, and succeeds if and only if there are that many |
| `SentinelImpl.SentinelServer.CollectHealthy` | sentinel/server.go:725-746 | the loop collects the healthy ones among the first `count` nodes |
| `SentinelImpl.SentinelServer.GenerateAndStoreTopicLeader` | sentinel/server.go:489-541 | stores the placed brokers, unless the write fails, and leads with the first |
| `SentinelImpl.SentinelServer.HandleUnreachableBrokersForLeader` | sentinel/server.go:562-647 | the whole new state and the replica set on success |
| `SentinelImpl.SentinelServer.GetTopicLeaderLegacy` | sentinel/server.go:702-811 | the whole new state, cache and versions included, and the brokers the query goes on with |
| `SentinelImpl.SentinelServer.RepairEntry` | sentinel/server.go:765-811 | reported brokers are dropped and replaced; a failed search leaves the entry |
| `SentinelTheorems.RingMatchesRegistry` | sentinel/server.go:219-279 | after any operations the ring is exactly the sorted virtual nodes of the registered brokers, independent of history |
| `SentinelTheorems.RingKept` | sentinel/server.go:846-983 | every operation keeps ring and registry in agreement |
| `SentinelTheorems.TopUpOk` | sentinel/server.go:616-631 | topping up keeps ids distinct, keeps what was there, adds healthy brokers only, and ends with the count asked for |
| `SentinelTheorems.SearchMissesLast` | sentinel/server.go:341-349 | the search fails although enough healthy brokers are left if and only if there is one virtual node per broker, at least two brokers, the walk ends on an eligible one and all are needed |
| `SentinelTheorems.SearchFindsAll` | sentinel/server.go:316-375 | with two or more virtual nodes per broker the search offers as many brokers as are registered, healthy and not in the current set |
| `SentinelTheorems.SearchSucceeds` | sentinel/server.go:316-375 | after any operations the search succeeds if and only if at least `needed` registered healthy brokers are outside the current set |
| `SentinelTheorems.UnreachableSucceeds` | sentinel/server.go:562-647 | after any operations handling a report succeeds if and only if etcd answers, the reachable rest is not above the count, and that many healthy brokers are left |
| `SentinelTheorems.UnreachableSound` | sentinel/server.go:562-647 | a set stored on success has exactly `count` distinct brokers, all registered and healthy, none reported; otherwise stored sets are unchanged |
| `SentinelTheorems.StoredNeverRepeat` | sentinel/server.go:489-525 | stored replica sets never repeat a broker, in any run |
| `SentinelTheorems.RepairOk` | sentinel/server.go:765-811 | a successful repair leaves exactly `count` distinct brokers in the cache, none just reported; a failed one leaves the cache alone |
| `SentinelTheorems.RunCacheOk` | sentinel/server.go:702-811 | in every run each entry has distinct brokers, at most as many as asked for, its leader first, and its topic's version |
| `SentinelTheorems.VersionsGrow` | sentinel/server.go:748-760 | over any run, if a topic's version did not grow between two moments its entry is the same and was there all the time |
| `SentinelPlacement.PlacedIs` | sentinel/server.go:489-541 | with two or more virtual nodes a broker, placement picks exactly the healthy ones among the first min(count, brokers) brokers clockwise, in that order |
| `SentinelPlacement.AllPlaced` | sentinel/server.go:489-541 | all of those when every broker is healthy |
| `SentinelPlacement.GeneratedIs` | sentinel/server.go:489-541 | in every run a generated replica set is stored, if etcd takes it, is exactly that, and nothing else changes |
| `SentinelPlacement.TopUpNearest` | sentinel/server.go:316-375 | what is added to a set are spare brokers, in clockwise order, each nearer than every spare broker left out |
| `SentinelPlacement.UnreachableKeeps` | sentinel/server.go:562-647 | on success the replicas that are registered, healthy and unreported stay in front in their order, and the rest are the nearest spare brokers |
| `SentinelPlacement.RepairKeeps` | sentinel/server.go:765-811 | the same for a cached entry: the brokers not reported stay in front |
| `SentinelPlacement.HeartbeatRevives` | sentinel/server.go:219-279 | a heartbeat or PUT event leaves its broker registered, healthy, at that address and with the topics it had, and changes nothing else |
| `SentinelPlacement.NoHeartbeat` | sentinel/server.go:199-285 | a failed renewal, an event without a broker and a failed unregistration change nothing |
| `SentinelPlacement.RegisterDrops` | sentinel/server.go:845-889 | a new broker is healthy with its topics, exactly their cached entries are dropped, and a known one is refused |
| `SentinelPlacement.UnregisterDrops` | sentinel/server.go:895-989 | the broker is gone and exactly the cached entries of its topics with it |
| `SentinelPlacement.LostStaysCached` | sentinel/server.go:1308-1317 | a DELETE event takes the broker out and leaves the cache alone |
| `SentinelPlacement.ReportsMarkDown` | sentinel/server.go:301-313 | reports mark exactly the reported registered brokers as down |
| `SentinelPlacement.InvalidateDrops` | sentinel/server.go:378-382 | exactly the topic's cached entry is dropped |
| `SentinelPlacement.QueryIs` | sentinel/server.go:702-760 | a query without reports answers with the cached entry of the same replica count, unchanged, or else with the brokers placed now, cached under the next version |
| `Codec.UnBEofBE` | internal/storage/wal.go:125-163 | reading a big-endian number back gives the number, at every width it fits |
| `Codec.BEofUnBE` | internal/storage/wal.go:267-356 | writing a number read off bytes gives back the bytes |
| `WalImpl.VersionBytes` | internal/storage/wal.go:88-107 | numbers are written most significant byte first: version 1 as 0, 0, 0, 1 |
| `WalSpec.ParseBody` | internal/storage/wal.go:298-356 | parsing undoes encoding, field for field |
| `WalSpec.BodyFront` | internal/storage/wal.go:125-145 | an entry starts with its type, the length of its topic and the topic |
| `WalSpec.BodyBack` | internal/storage/wal.go:146-163 | then come the id, the length of the payload, the payload and the time |
| `WalSpec.ReadTorn` | internal/storage/wal.go:267-280 | a torn entry hands nothing on and is reported unless nothing of it is there |
| `WalSpec.TornTail` | internal/storage/wal.go:245-295 | of every byte prefix of a log file, replay hands on exactly the entries wholly inside, and ends cleanly only at an entry boundary |
| `WalSpec.InsideIs` | internal/storage/wal.go:125-163 | the entries counted as inside a prefix fit it, and one more would not |
| `WalSpec.RoundTrip` | internal/storage/wal.go:88-163 | replaying an uncut file gives back all entries |
| `WalImpl.WAL.constructor` | internal/storage/wal.go:43-107 | opening starts a new file, with the header, after those found |
| `WalImpl.WAL.Write` | internal/storage/wal.go:110-166 | the field-by-field writes append exactly the entry's encoding, or the part of it that was reached when one of them failed |
| `WalImpl.WAL.WriteMessage` | internal/storage/wal.go:169-179 | the same for a message entry |
| `WalImpl.WAL.WriteRemoveTopic` | internal/storage/wal.go:182-192 | the same for a removal entry with id 0 and the reason as payload |
| `WalImpl.WAL.ReplayFile` | internal/storage/wal.go:245-295 | the loop hands on what the specification reads off the same bytes, any bytes, and reports the same outcome |
| `WalImpl.WAL.ReplayFiles` | internal/storage/wal.go:224-242 | a damaged file loses only its own tail |
| `WalImpl.HoldsReplays` | internal/storage/wal.go:245-295 | a file of whole entries and a torn one replays to the whole ones |
| `WalImpl.LostBehindTorn` | internal/storage/wal.go:267-295 | whatever is written behind the size field of a torn entry and is shorter than what is missing of it is lost to replay |
| `WalImpl.ForgedBehindTorn` | internal/storage/wal.go:267-356 | eight bytes behind an entry torn before its timestamp complete it: replay hands it on with those bytes as its time |
| `WalImpl.LostBehind` | internal/storage/wal.go:245-356 | behind bytes that replay does not read to a clean end, whatever they are, one of two messages is not handed on |
| `WalImpl.HandedOnIff` | internal/storage/wal.go:245-356 | every message entry written next is handed on right behind the earlier ones if and only if the bytes before it end cleanly, for any bytes |
| `FragmentSpec.DecodeOne` | internal/storage/fragment.go:317-343 | reading a message off a file undoes writing it, whatever follows |
| `FragmentSpec.MessageLayout` | internal/storage/fragment.go:250-268 | a message is its id, time, payload length and payload, in that order |
| `FragmentSpec.DecodeAppend` | internal/storage/fragment.go:250-268 | appending a message to a file of whole messages appends it to what the file decodes to |
| `FragmentSpec.DecodeTorn` | internal/storage/fragment.go:250-343 | a message cut short behind whole ones is not read, and its bytes stay |
| `FragmentSpec.LostBehind` | internal/storage/fragment.go:250-343 | behind bytes that are not a whole message, whatever they are, one of two messages is not read |
| `FragmentSpec.ReadBackIff` | internal/storage/fragment.go:250-343 | every message written next is read back, right behind the earlier ones, if and only if the file is whole messages, for any bytes |
| `FragmentSpec.ReadIsSlice` | internal/storage/fragment.go:295-320 | reading with a limit that is not negative is the slice asked for if and only if offset + limit does not wrap (which takes an offset above 2^63) or there is nothing to read |
| `FragmentSpec.NegativeLimit` | internal/storage/fragment.go:297-320 | a negative limit reads nothing, unless the bound wraps, and then everything from the offset on |
| `FragmentSpec.PagingVisitsAll` | internal/storage/fragment.go:283-362 | paging on from the last offset visits every message once, in order, whatever the page sizes |
| `FragmentStore.WriteAppends` | internal/storage/fragment.go:233-280 | a write to a fragment that ends in a whole message, or to a new one, adds the message to the topic's log, or nothing when it is cut short |
| `FragmentStore.WriteKeeps` | internal/storage/fragment.go:233-280 | no write, failed or not, touches the log of another topic |
| `FragmentStore.WriteWhole` | internal/storage/fragment.go:233-280 | writes that store their message keep all files whole, with sizes and message counts that agree with their contents |
| `FragmentStore.GrowsIff` | internal/storage/fragment.go:233-280 | the topic's log grows by just the message stored next, whatever it is, if and only if the file it goes to ends in a whole message or is a new one |
| `FragmentStore.WriteFills` | internal/storage/fragment.go:213-280 | a write keeps: no fragment has more than the maximum of messages or exceeds the size limit by more than one message, and only full fragments have a successor |
| `FragmentImpl.FragmentManager.constructor` | internal/storage/fragment.go:57-73 | a new manager knows no fragments, whatever files exist |
| `FragmentImpl.FragmentManager.CreateFragment` | internal/storage/fragment.go:145-210 | the whole new state: an empty fragment with the next id and its header file; a failure adds none, whether or not it leaves a partial file; no log changes |
| `FragmentImpl.FragmentManager.GetCurrentFragment` | internal/storage/fragment.go:213-230 | rolls over exactly when there is no fragment or the last one reached a limit, and changes no log |
| `FragmentImpl.FragmentManager.WriteMessage` | internal/storage/fragment.go:233-280 | the whole new state, the bytes of a write that fails part-way included; no other topic is touched; the topic's log grows by the message, or by nothing when it is cut short, unless bytes were left behind the last message |
| `FragmentImpl.FragmentManager.ReadMessages` | internal/storage/fragment.go:283-362 | the nested loops decode, from the file bytes whatever they are, exactly the part between offset and bound of the topic's log, without the files that could not be opened |
| `FragmentImpl.FragmentManager.CloseTopic` | internal/storage/fragment.go:365-388 | the topic's log is empty, the others and the files are as before |
| `FragmentImpl.FragmentManager.SelectFragmentsForReplication` | internal/storage/fragment.go:489-504 | the loop selects the fragments whose id is idx modulo n, in order |
| `FragmentImpl.EachSelectedOnce` | internal/storage/fragment.go:496-500 | over all indices below n together, each fragment of the topic is selected exactly once and nothing else is |
| `BrokerImpl.BrokerServer.constructor` | broker/server.go:39-88 | a broker starts as replay of the files found leaves it |
| `BrokerImpl.BrokerServer.ReplayWAL` | broker/server.go:91-124 | replay is the handler applied to every entry handed on, in order |
| `BrokerImpl.BrokerServer.HandleEntry` | broker/server.go:92-123 | a message entry is appended and raises the counter; a removal empties the topic; anything else is ignored |
| `BrokerImpl.BrokerServer.ProcessMessage` | broker/server.go:217-274 | the whole new state, roles and file bytes included, and the reply on every path: not led, failed log write, refused proposal, failed, partial or unsynced fragment write, success |
| `BrokerImpl.BrokerServer.RemoveTopic` | broker/server.go:518-559 | the whole new state, roles included; nothing changes for an unknown topic, and a failed log write only leaves bytes in the file |
| `BrokerImpl.BrokerServer.SetTopicRole` | broker/server.go:562-586 | the topic is served with its role from then on; a role that Raft refuses changes nothing |
| `BrokerImpl.BrokerServer.PullMessage` | broker/server.go:277-328 | message i of a pull is position offset + i of the log the topic's files decode to and carries that offset, and on a log of up to 2^63 messages the pull is the slice asked for; refused exactly when the topic is unknown or not served |
| `BrokerTheorems.HandledIs` | broker/server.go:91-124 | handling entries in order leaves every topic with its messages after its last removal and the counter at the largest id |
| `BrokerTheorems.FilesReplay` | internal/storage/wal.go:224-242 | the files of a run replay to exactly the entries whose writes returned, torn tails or not |
| `BrokerTheorems.RunInv` | broker/server.go:91-274 | in every orderly run the files hold what was written, recorded ids increase and stay at or below the counter, and unremoved acknowledged messages are recorded |
| `BrokerTheorems.CrashRecovery` | broker/server.go:91-124 | after any orderly mix of sends, failed writes, removals and crashes, a crash rebuilds each topic's messages since its last removal, in order, with every one answered with Success among them, and the counter |
| `BrokerTheorems.NeverReissued` | broker/server.go:239-251 | in orderly runs an id whose log write returned is smaller than every id issued later, across crashes |
| `BrokerTheorems.Answers` | broker/server.go:217-274 | a send is answered with Success, under the id it was given, if and only if the topic is served and led, the log took the entry, Raft the message and a fragment has it synced; Retry if and only if nothing was done or Raft refused, and then the message is in the log all the same |
| `BrokerTheorems.RemovedStays` | broker/server.go:518-559 | a removed topic is not served and has nothing to pull, and stays so through every crash |
| `BrokerTheorems.RoleServes` | broker/server.go:562-586 | a role that Raft takes makes the topic served in it, one it refuses changes nothing |
| `BrokerLimits.IdIsFinal` | broker/server.go:239-251 | for a run that ends by issuing an id, no orderly continuation issues it again if and only if its log write returned |
| `BrokerLimits.AckedIsLost` | internal/storage/wal.go:130-163 | runs, for any topic and payloads of suitable size, in which a message written behind a failed write is acknowledged and gone after a crash, its id free again |
| `BrokerLimits.RemovalIsForged` | internal/storage/wal.go:130-163 | runs in which two failed writes make up a removal entry, so that a crash empties a topic the broker still served, with an acknowledged message in it |
| `BrokerLimits.RecoveryIff` | internal/storage/wal.go:110-295 | after an orderly run, every message acknowledged next on a topic survives every crash if and only if no failed write left bytes in the current log file |
| `BrokerReads.PullableIff` | broker/server.go:239-328 | in every state of every run, whatever message is acknowledged next can be pulled from the end of the topic's log if and only if the fragment it goes to ends in a whole message or a new one is due |
| `BrokerReads.UnreadSend` | broker/server.go:239-328 | otherwise some message acknowledged next is not among what pulls read from there on |
| `BrokerReads.AckedIsUnread` | internal/storage/fragment.go:250-268 | runs in which one fragment write fails part-way and the message acknowledged next is in no pull |
| `BrokerReads.AckedIsPullable` | broker/server.go:217-328 | in runs without writes behind left-over bytes, what pulls read of a topic has increasing ids, was recorded since its last removal, and includes every message answered with Success since |
| `BrokerReads.RunFills` | internal/storage/fragment.go:213-280 | so in every run of the broker, with its limits of 128 MB and 10000 messages |
| `Replication.SendFragment` | broker/server.go:409-438 | the chunks carry the file in order, cut at the chunk size, with consecutive indices and only the final one marked last |
| `Replication.ReceiveFragment` | broker/server.go:331-372 | the buffer is the first chunk and the following ones up to one marked last or the end of the stream; no chunk, or a stream that breaks before one marked last, is an error |
| `Replication.ReplicaIsSource` | broker/server.go:331-375 | the received bytes of any non-empty file are the file and decode to the same messages; an empty one sends nothing |
| `IdAllocator.IdsConsecutive` | internal/etcd/etcd.go:160-192 | under every interleaving ids are consecutive in the order of success, hence distinct |
| `IdAllocator.HandedTo` | internal/etcd/etcd.go:177-192 | a successful compare-and-swap hands the next id to its own caller, and no other step hands out any |
| `IdAllocator.FailureIsAccountedFor` | internal/etcd/etcd.go:177-189 | a compare-and-swap fails if and only if another caller's succeeded between the read and it |

## Left out

- Raft transport, timers, sleeps, fairness (progress is about what some continuation reaches) and restart, and internal/raft/manager.go with its partial peer maps and constant sender ids: the Raft results are about RaftNode with a full peer set.
- Raft integers are unbounded: a 64-bit term or index does not wrap.
- The peer set of a RaftNode is a set; the addresses it maps to and the order of Go's map iteration are not modelled.
- The Raft apply callback into fragments: the leader writes its fragment itself.
- RaftTheorems.LeaderCompleteness: holds under AcksCover, which is sufficient for a run; the bound it puts on one accepted request is exact (SuccessProves); without it the property is false.
- RaftTheorems.StateMachineSafety: holds under AcksCover and CommitsCovered, which are sufficient for a run; the bounds they put on one request are exact (SuccessProves, CommitProves); without them the property is false.
- RaftTheorems.CommittedStays: the same two hypotheses.
- RaftExactness.SuccessProves: exact over the states of the log invariant, each of which satisfies what every reachable state does; UnprovenIsReached gives a run for one witness and MachineSafetyNeedsCover one for CommitProves, but not every witness state is shown to be reachable.
- SentinelImpl.SentinelServer.GetTopicLeaderLegacy: BrokerInfo objects are values in the registry and the cache holds ids, so status changes seen through a cached pointer are not modelled; nor is the leader lookup by RPC that follows.
- SentinelImpl.SentinelServer.HandleUnreachableBrokersForLeader: the RemoveTopic and leader-lookup RPCs, which change no state of the sentinel, are not modelled.
- Heartbeat times, leases, watches, leader election among sentinels, request forwarding and operation logs.
- recoverBrokersFromEtcd and operation-log replay, which add ring nodes without checking for presence.
- Wrap-around of the 64-bit cache versions.
- WAL rotation, flushing, file naming and two starts within one second, which would share a file name.
- BrokerImpl.BrokerServer.ProcessMessage: requires sizes that fit the 32-bit length fields.
- BrokerTheorems.CrashRecovery: holds for orderly runs; RecoveryIff gives the exact condition for the next message.
- BrokerLimits.IdIsFinal: for runs of fewer than 2^63 - 1 operations, so that the continuation that issues the id again stays below 2^64.
- BrokerImpl.BrokerServer.ReplayWAL: fragment writes succeed during replay.
- A crash while a start is writing the header of its log file.
- TTL cleanup of fragments, after which a new fragment id can equal a live one.
- Chunk checksums, which the receiver does not check.
- IdAllocator.IdsConsecutive: the counter key is present and its value does not wrap; with the key absent the source never succeeds.
- Producer and consumer clients, the older broker design, protobuf code, loggers, configuration and command-line programs.
