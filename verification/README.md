# A verified model of a replicated key-value store

The system is a key-value store in which a hand-written Raft replicates a log of `Set` and `Delete`
commands and a hand-written LSM tree stores the result. This project models both and the byte formats
under them, and proves what they promise for every run, every input and every byte position.

**Raft.** `RaftHandlers` gives each message handler as a function from a node's state to its new state
and the packets it sends. `RaftCluster` puts these into a step relation: the network is the set of all
packets ever sent, so loss, delay, duplication, reordering, partitions, pauses and crashes with cleared
outboxes are all runs of it; elections may start and nodes may restart in place at any moment. The proof
keeps a history that no handler reads (the log of each term's leader, votes, acknowledged prefixes, client
tickets) and one inductive invariant (`RaftInvariants`, `RaftFrames`, `RaftSteps`, `RaftBallots`,
`RaftLogs`, `RaftFollower`, `RaftPreservation`). `RaftTheorems` and `RaftClients` state the results over
whole runs, across nodes and across time. Safety bounds what nodes may do; `RaftDuties` and `RaftAnswers`
say what they must do in each step (who is asked, told, granted, counted, answered), and `RaftAvailability`
builds on that alone to show that a majority can always go on. `RaftNodeModule.RaftNode` is the node as an object updated in
place, each method proved equal to its handler function. `Simulator.Simulation` is the deterministic
simulator over such objects (event heap, link faults, pauses, crashes, scheduled faults, clock); it carries
the run it has performed so far, and its own invariant check is proved to fail only on a committed NaN, which
differs from itself, and never while no client writes one. `SimulatorLaws` counts what its faults do to
traffic, packet by packet.

**Storage engine.** `Store` gives insert, delete, flush, compaction and reopening as functions of one
state; `StoreReads`, `StoreDisk`, `StorePass` and `Engine` prove that it behaves as one plain map, and
`StoreTidy` that it leaks no file and flushes and compacts exactly when its thresholds say.
`KWayMerge` is the heap-driven merge, proved equal to merging tables two by two. `DatabaseModule.Database`
is the engine as an object, each method proved equal to its function. The database of a Raft node is that
plain map.

**Formats.** `Frames` is the theory of files made of self-delimiting records, read whole or cut anywhere.
`Wal`, `RaftLogStoreModule`, `Bloom`, `SSTable` and `SSTableWriter` apply it to the write-ahead log, the
persistent Raft log and the table file; `WalDamage` is about changed bytes rather than missing ones. `CrashRecovery` and `TableFiles` join formats and engine: what a log
cut at any byte reopens to, exactly when that is some prefix of the writes, and that reads through table files
are reads of the plain map.

`dafny verify dfyconfig.toml` checks every file.

## What the proofs found

- Loading tables by id on reopen is right only while newer tables have larger ids. A compaction pass keeps
  that exactly when no level that is not full lies between two full ones (`StorePass.PassKeepsOrderIff`).
  Reopening never changes a read, after any run, if and only if the table threshold is not 1 or there are at
  most three levels (`EngineCounterexample.SafeExactly`); in every other configuration some run and a clean
  reopen lose an acknowledged update. Reads without a reopen are right in every configuration.
- A flush makes its table durable before it cuts the log, and appends to the log are not synced. If the
  process dies in between and the log loses its tail, old log records can shadow newer table entries: the
  reads then match no prefix of the writes (`CrashRecovery.CrashCanMixWrites`). `CrashRecovery.CrashIsPrefixIff`
  gives the exact condition for reading as some prefix, `CrashRecovery.CrashKeepsSurvivorsIff` the one for
  reading exactly the surviving records; without a half-finished flush only a tail of the writes is ever lost.
- The simulator compares payloads with floating-point equality: once two nodes have committed the same NaN its
  state safety check reports a violation although the nodes agree (`RaftExamples.NaNTripsCheck`). The check
  passes exactly when no commonly committed entry holds a NaN (`SimulatorChecks.ChecksPassIff`).
- Opening the write-ahead log leaves exactly the whole records in the file unless one to seven bytes of the
  next record had been written (`Wal.TornTailTrimmedIff`). The records returned are right in every case, but
  records appended behind such a torn part are lost at the next open (`Wal.AppendedIsLost`) or misread
  (`Wal.AppendedIsMisread`).
- A record's checksum is taken of the value that was read, not of the bytes it was read from. One changed byte of
  the number, command code, key, string value or checksum is always noticed (`WalDamage.RecordDamageIsSeen`,
  `WalDamage.DamagedLogStops`); one in the text of a number is not always: 205 with its first digit damaged to 0
  reads back as 5 (`WalDamage.NumberDamageUnseen`; `WalDamage.ValueDamageIff` is the exact condition).
- A follower's commit index goes back exactly when it accepts a request carrying an older one
  (`RaftTheorems.CommitIndexDropsIff`), and it does in a run (`RaftExamples.CommitIndexCanDrop`); applied
  entries are unaffected.
- A Raft log entry over 64 MiB is accepted by `append` and lost, with all later ones, by the next `open`
  (`RaftLogStoreModule.FrameRoundTripIff`, `RaftLogStoreModule.OpenStopsAtOversized`). An entry appended behind
  a tail torn within one to three bytes is lost as well (`RaftLogStoreModule.AppendedIsLost`).

## Model

| member | source | states |
|---|---|---|
| RaftTheorems.NothingPanics | src/raft/replication.rs:15-24 | in every reachable state no assertion, `expect` or log index of any handler fails, whatever is delivered and whenever |
| RaftTheorems.ElectionSafety | src/raft/election.rs:32-173 | two leaders of one term, at any two moments of a run, are the same node |
| RaftTheorems.LogMatching | src/raft/replication.rs:67-108 | logs that have the same term at an index, on any nodes at any two moments, are equal up to that index |
| RaftTheorems.CommittedAgree | src/raft/replication.rs:172-191 | two committed prefixes agree wherever both reach |
| RaftTheorems.StateMachineSafety | src/raft/replication.rs:44-199 | an index committed or applied on two nodes, at any two moments, holds the same entries up to it on both |
| RaftTheorems.LeaderCompleteness | src/raft/election.rs:139-151 | what any node knew committed is in the log of every later leader of its term or a newer one |
| RaftTheorems.CountedIsFinal | src/raft/replication.rs:172-191 | an own-term entry that passes the leader's replica count is in every later leader's log |
| RaftTheorems.DbIsReplay | src/raft/replication.rs:227-269 | a node's database is log[1..=last_applied] executed in order, although commit_index may go back |
| RaftTheorems.AppliedForever | src/raft/replication.rs:91-117 | last_applied never decreases, the applied part of the log never changes, each later database continues the earlier one |
| RaftTheorems.ReplicasAgree | src/raft/replication.rs:227-269 | any two databases, of any nodes at any moments, are one history at two points |
| RaftTheorems.RequestsCoverCommit | src/raft/replication.rs:26-41 | every AppendEntries ever sent has leader_commit <= prev_log_index + number of entries |
| RaftTheorems.CommitIndexDropsIff | src/raft/replication.rs:89-110 | in a step of a run a node's commit index decreases if and only if the step delivers to it an accepted request with a smaller one, and then it becomes the request's |
| RaftExamples.CommitIndexCanDrop | src/raft/replication.rs:110 | a run of two nodes in which a delivered, delayed heartbeat sets a follower's commit_index back from 1 to 0 |
| RaftSubmitted.EntriesAreSubmitted | src/raft/replication.rs:201-225 | in every state of every run each command in a log was sent by some client |
| RaftSubmitted.NoNewWrites | src/raft/message.rs:140-162 | no node sends a client's write except by passing one on |
| RaftTheorems.IndicesInRange | src/raft/replication.rs:15-24 | every leader has 1 <= next_index <= log length for every peer, and match_index inside its log |
| RaftClients.TicketsAreRequests | src/raft/node.rs:361-381 | in every state of every run each filed write answers to a client request that was sent to that node |
| RaftClients.AcksAreTruthful | src/raft/node.rs:361-381 | a success reply is sent only when the entry applied at its index is the very command that client sent to that node |
| RaftClients.AcksAreSingle | src/raft/replication.rs:278-304 | two success replies of one node, sent in one step or in two, never concern the same request |
| RaftClients.StepFailures | src/raft/node.rs:420-443 | a leadership-lost reply goes to a waiting client, and after it nobody waits |
| RaftClients.RepliesSettle | src/raft/node.rs:420-443 | every reply to a write, success or failure, settles one still open request of that client |
| RaftClients.SettledForGood | src/raft/replication.rs:278-304 | a settled request is never waited on again, so it is answered at most once |
| RaftClients.CatchUp | src/raft/replication.rs:158-169 | exchanging retries ends after fewer rejections than next_index |
| RaftClients.CatchUpCompletes | src/raft/replication.rs:67-108 | at the first acceptance the follower's log begins with all of the leader's log |
| RaftClients.CatchUpInRun | src/raft/replication.rs:127-169 | the premises of catch-up hold of any leader and any node not ahead of its term in any run |
| RaftAvailability.QuorumCanCommit | src/raft/replication.rs:44-225 | from every state of every run any set of more than half of the members can, with no step of any other node, elect one of its own, append any write behind that node's log, and commit and apply it on all of its nodes |
| RaftAvailability.QuorumCanElect | src/raft/election.rs:11-173 | any such set can elect one of its own in a term above all of theirs, without changing that node's log |
| RaftAvailability.BringUp | src/raft/replication.rs:44-170 | a leader and a member not ahead of its term, exchanging requests and answers, reach a state in which the member holds the leader's whole log and the leader knows it |
| RaftDuties.ElectionAsksAll | src/raft/election.rs:32-78 | an election sends every other member a vote request with the new term and the last index and term of the log; it wins at once exactly in a cluster of one |
| RaftDuties.VoteDecides | src/raft/election.rs:80-107 | with peers listed once, a vote of the current term makes a candidate leader if and only if the votes are then more than half of the members; a new leader starts every member from the end of its log and tells it so |
| RaftDuties.BallotDecides | src/raft/election.rs:109-173 | a vote is granted if and only if the voter is free in the request's term and (last term, last index) is lexicographically at least its own; vote and term afterwards |
| RaftDuties.NewerTermIsAdopted | src/raft/node.rs:420-444 | a newer term is adopted from every kind of message; the node follows, and every waiting client is sent a failure |
| RaftDuties.OlderTermIsRefused | src/raft/election.rs:109-116 | a message of an older term changes nothing, and a request is refused with the newer term |
| RaftDuties.LateAnswerIsIgnored | src/raft/replication.rs:127-141 | an answer that comes when the node no longer stands or leads changes nothing |
| RaftDuties.RebootForgets | src/raft/node.rs:446-455 | a restart keeps term, vote, log, indices and database, and forgets role, leader, votes, peers' progress and waiting clients |
| RaftDuties.HeartbeatReachesAll | src/raft/node.rs:410-418 | a leader's heartbeat sends every other member all of the log from its next index; a non-leader sends nothing |
| RaftDuties.WriteReachesAll | src/raft/replication.rs:201-225 | a write that reaches a leader is appended and sent to every other member, as the last entry of a request that starts at its next index |
| RaftDuties.AloneCommits | src/raft/replication.rs:214-217 | a write to a cluster of one is committed and applied at once |
| RaftDuties.AcceptanceCounts | src/raft/replication.rs:127-199 | an acceptance sets match and next index, and the commit index becomes the last own-term entry that more than half then hold, if that lies ahead; all of it is applied |
| RaftDuties.HeldByMostIsCommitted | src/raft/replication.rs:172-199 | with peers listed once, an own-term entry held by the leader and enough members to make more than half is committed and applied after the acceptance |
| RaftDuties.RejectionRetries | src/raft/replication.rs:158-169 | a rejection moves next_index back by one, not below 1, and sends everything from there on, and nothing else |
| RaftDuties.FollowerTakes | src/raft/replication.rs:44-125 | a request is accepted if and only if the log holds the entry before it; then the log is what it was if it holds the entries, and otherwise what precedes them followed by them; commit and applied index and the answer in both cases |
| RaftAnswers.QueryReadsLastWrite | src/raft/message.rs:176-185 | a query changes nothing and is answered once, to its client, with v if and only if the last applied entry that writes the key sets it to v |
| RaftAnswers.ReplayHoldsLast | src/raft/replication.rs:227-269 | a database built by executing entries holds v under a key if and only if the last entry writing the key sets it to v |
| RaftAnswers.StatusIsTold | src/raft/message.rs:187-196 | a status query changes nothing and is answered once, with the node's role and term |
| RaftAnswers.WriteElsewhere | src/raft/node.rs:333-359 | a write at a node that does not lead changes nothing: a request is refused once, naming the leader, a command is passed to the leader if one is known |
| RaftAnswers.WriteIsFiled | src/raft/node.rs:361-381 | a client's write at a leader is answered at once if already applied, and otherwise filed under its index and term |
| RaftAnswers.NobodyForgotten | src/raft/node.rs:420-444 | in every step of a run but a restart each waiting client waits on, or is told that its entry is applied or that leadership is lost |
| RaftAnswers.NobodyWaitsForDone | src/raft/replication.rs:278-304 | in every state of every run no client waits for an entry that its node has applied |
| RaftPreservation.StepPreserves | src/raft/message.rs:113-229 | every step of the cluster keeps the inductive invariant |
| RaftSafety.InitInv | src/runtime/simulator.rs:132-156 | a cluster of fresh nodes satisfies the inductive invariant |
| RaftSafety.RunOnward | src/raft/node.rs:420-455 | along a run terms, applied indices and the history only grow |
| RaftHandlers.Reconcile | src/raft/replication.rs:91-108 | after taking entries the log keeps everything before them, has their terms in their places, and is longer only if nothing was cut |
| RaftHandlers.ScanCommitBound | src/raft/replication.rs:172-191 | the quorum scan ends at the largest committable index above the old commit index, if there is one |
| RaftNodeModule.RaftNode.constructor | src/raft/node.rs:110-235 | a new node is a follower of term 0 with only the sentinel in its log |
| RaftNodeModule.RaftNode.PushLogEntry | src/raft/node.rs:256-270 | appends one entry |
| RaftNodeModule.RaftNode.TruncateLog | src/raft/node.rs:272-282 | keeps the entries before the index |
| RaftNodeModule.RaftNode.MakeRequest | src/raft/replication.rs:15-42 | the request carries the whole suffix from next_index, the entry before it and the commit index |
| RaftNodeModule.RaftNode.SendHeartbeats | src/raft/node.rs:410-418 | one request per peer, built for that peer, is added to the outbox |
| RaftNodeModule.RaftNode.StepDownTo | src/raft/node.rs:420-444 | new term, follower, no vote, no leader; every waiting client gets a failure reply and the table of waiting requests is emptied |
| RaftNodeModule.RaftNode.RestartInPlace | src/raft/node.rs:446-455 | volatile state is reset; term, vote, log, commit and applied indices and database stay |
| RaftNodeModule.RaftNode.TakeLead | src/raft/election.rs:11-30 | every peer starts at the end of the log and is sent a first request |
| RaftNodeModule.RaftNode.RunForElection | src/raft/election.rs:32-78 | a new term with the node's own vote; wins alone in a cluster of one, otherwise asks every peer |
| RaftNodeModule.RaftNode.OnVoteResponse | src/raft/election.rs:80-107 | steps down for a newer term, ignores old ones, counts distinct voters, takes the lead at a majority |
| RaftNodeModule.RaftNode.OnRequestVote | src/raft/election.rs:109-173 | grants at most one candidate per term, and only to a log at least as up to date |
| RaftNodeModule.RaftNode.OnAppendEntries | src/raft/replication.rs:44-125 | state, packets and answer of the follower equal the handler function on every path |
| RaftNodeModule.RaftNode.TakeAll | src/raft/replication.rs:91-108 | the append loop leaves exactly the reconciled log |
| RaftNodeModule.RaftNode.ApplyUpTo | src/raft/replication.rs:227-304 | executes the newly committed entries in order, once each, and answers exactly the requests waiting for them |
| RaftNodeModule.RaftNode.AdvanceCommit | src/raft/replication.rs:172-199 | the quorum scan loop sets the commit index the scan function gives, then applies |
| RaftNodeModule.RaftNode.OnAppendEntriesResponse | src/raft/replication.rs:127-170 | overwrites match_index and next_index on success, backs up by one and retries on failure |
| RaftNodeModule.RaftNode.Append | src/raft/replication.rs:201-225 | the command gets the next index; a cluster of one commits at once, others send requests |
| RaftNodeModule.RaftNode.SubmitStoreWrite | src/raft/node.rs:333-382 | refused when not leader; answered at once if already applied, otherwise filed under (index, term) |
| RaftNodeModule.RaftNode.OnMessage | src/raft/message.rs:113-229 | dispatch: state and packets equal the handler function for every message |
| SimulatorChecks.CheckElections | src/runtime/simulator.rs:629-643 | passes if and only if no term has two leaders; otherwise names a term and its leaders |
| SimulatorChecks.CheckLogs | src/runtime/simulator.rs:645-668 | passes if and only if equal terms at an index mean equal terms before it, for every pair; otherwise names a real mismatch |
| SimulatorChecks.CheckCommits | src/runtime/simulator.rs:670-698 | passes if and only if commonly committed payloads are equal as the source compares them (a NaN differs from itself), for every pair; otherwise names a real difference |
| SimulatorChecks.CheckInvariants | src/runtime/simulator.rs:628-701 | passes if and only if all three properties hold |
| SimulatorChecks.SelfSame | src/runtime/simulator.rs:685 | a payload equals itself if and only if it holds no NaN |
| SimulatorChecks.ChecksPassIff | src/runtime/simulator.rs:628-701 | in every state of every run the first two checks pass, and the third passes if and only if no entry that two nodes have committed holds a NaN |
| SimulatorChecks.ChecksPass | src/runtime/simulator.rs:628-701 | in every state of every run in which no client has written a NaN all three checks pass |
| RaftExamples.NaNTripsCheck | src/runtime/simulator.rs:685 | a run whose nodes agree on everything and on which the third check fails, because the committed write is a NaN |
| Simulator.Simulation.NewCluster | src/runtime/simulator.rs:132-156 | fresh nodes, each with all others as peers, are the start of a run, for any list of ids |
| Simulator.Simulation.DisableNode | src/runtime/simulator.rs:166-173 | the node is off and its outbox empty; the run is unchanged or extended |
| Simulator.Simulation.RestartNodeAt | src/runtime/simulator.rs:184-194 | the node is on again, its deferred events are gone, and the restart is a step of the run |
| Simulator.Simulation.ResumeNodeAt | src/runtime/simulator.rs:201-215 | exactly the deferred events are released, due now, and behind them the outbox goes on the wire |
| Simulator.Simulation.Release | src/runtime/simulator.rs:205-211 | every deferred event is queued once, due now |
| Simulator.Simulation.StartElectionAt | src/runtime/simulator.rs:372-385 | the run is extended by exactly this node's election, and what it sends goes on the wire, or not at all if the node is off or paused |
| Simulator.Simulation.ApplyFault | src/runtime/simulator.rs:324-354 | the nodes, links and policies after each fault, what it adds to the run, and what a resume puts on the wire; everything else is unchanged |
| Simulator.Simulation.ApplySetting | src/runtime/simulator.rs:217-304 | a fault of a link changes its own link's setting and nothing else |
| Simulator.Simulation.ScheduleFault | src/runtime/simulator.rs:310-317 | the fault is added with the next fault number |
| Simulator.Simulation.TriggerDueFaults | src/runtime/simulator.rs:356-366 | exactly the faults that are due are applied, earliest first and in order of scheduling, each with its effect on nodes, links and the run; the others stay |
| Simulator.Simulation.Route | src/runtime/simulator.rs:515-556 | events, sequence numbers and what is left of the link's policy after one packet, dropped, delayed or doubled |
| Simulator.RouteManySends | src/runtime/simulator.rs:515-556 | nothing is invented, nothing is sent more than twice or on a blocked link or to a node that is off, nothing is lost on a link without faults |
| SimulatorLaws.PacketFate | src/runtime/simulator.rs:515-556 | in a batch, with d drops and u duplicates left on a link, the first d packets on it are lost, the next u delivered twice, all others once, each after the link's delay and in order |
| SimulatorLaws.BatchSpends | src/runtime/simulator.rs:515-556 | a batch uses up of each link's drops, then of its duplicates, as many as packets are put on the link |
| SimulatorLaws.DropsExactly | src/runtime/simulator.rs:276-279 | after a fault that drops k packets a packet of the link is lost if and only if fewer than k, plus the drops due before, went ahead of it |
| SimulatorLaws.LinksAfter | src/runtime/simulator.rs:217-273 | which links are blocked after each fault, link by link |
| SimulatorLaws.NodesAfter | src/runtime/simulator.rs:166-215 | which nodes are off or paused after each fault, node by node |
| SimulatorLaws.PolicyAfter | src/runtime/simulator.rs:276-304 | a link's policy after each fault: drops and duplicates add up, a delay replaces the last |
| SimulatorLaws.IsolateReconnect | src/runtime/simulator.rs:242-273 | isolating a connected node and reconnecting it changes no link |
| Simulator.Simulation.FlushNodeOutbox | src/runtime/simulator.rs:486-558 | a live node's outbox goes on the wire packet by packet, and what no fault holds up is queued; a node that is off loses it, a paused one keeps it |
| Simulator.Simulation.FlushAllOutboxes | src/runtime/simulator.rs:560-566 | afterwards only paused nodes have anything to send |
| Simulator.Simulation.Converge | src/runtime/simulator.rs:842-851 | afterwards no link is blocked and no node is off or paused |
| Simulator.Simulation.PopEvent | src/runtime/simulator.rs:428-431 | the earliest event, ties by sequence number, leaves the queue |
| Simulator.Simulation.Dispatch | src/runtime/simulator.rs:460-481 | delivered, as a step of the run, if and only if both ends are up, the link is open and the target is not paused; deferred if only the target is paused; otherwise lost; what the node sends in that step goes on the wire |
| Simulator.Simulation.DeliverEarliest | src/runtime/simulator.rs:428-481 | time moves to the earliest event; with no fault scheduled, that event is delivered as one step of the run whose packets go on the wire, or waits, or is lost |
| Simulator.Simulation.DeliverNext | src/runtime/simulator.rs:425-484 | with no fault scheduled, the earliest event is delivered as one step of the run, deferred or lost; false only when no event and no fault is left |
| Simulator.Simulation.SkipToFault | src/runtime/simulator.rs:433-447 | with nothing queued, time moves to the earliest fault if there is one |
| Simulator.Simulation.AdvanceTime | src/runtime/simulator.rs:599-622 | with no fault scheduled, exactly one step of the run per live node whose deadline has passed |
| Simulator.Simulation.TickAll | src/runtime/simulator.rs:608-621 | each live node whose deadline has passed takes exactly one step: heartbeats if it leads, otherwise an election |
| Simulator.Simulation.RunUntilIdle | src/runtime/simulator.rs:568-580 | at most 10000 deliveries and one, extending the run; idle means nothing is left |
| Simulator.Simulation.CheckNow | src/runtime/simulator.rs:628-701 | the check on the simulator's own nodes passes if and only if no commonly committed entry holds a NaN, and always while no client writes one |
| Simulator.Simulation.RunChaosTest | src/runtime/simulator.rs:800-857 | whatever the random source chooses, the chaos test's verdict is the check of its last state, so it finds no violation but a committed NaN, and none at all while the writes hold none |
| Tables.LessTrans | src/lsm/sstable/index.rs:27-32 | byte order of keys is transitive |
| Tables.LessTotal | src/lsm/sstable/index.rs:27-32 | byte order of keys is total |
| Tables.SameAnswers | src/lsm/sstable/mod.rs:70-76 | two sorted tables that answer every key alike are the same table |
| Tables.MergeAllCorrect | src/database/compact.rs:113-200 | merging tables two by two gives a sorted table that answers every key as a search through the tables, newest first |
| Tables.MergeKeys | src/database/compact.rs:113-200 | the merged table has exactly the keys some input has, deletions included |
| KWayMerge.PrioritiesRank | src/database/compact.rs:115-130 | merge priorities rank the inputs as a read searches them if and only if the lower level has no more tables than the upper |
| KWayMerge.PopGreatest | src/database/compact.rs:33-40 | the popped item is beaten by none: least key, then highest priority |
| KWayMerge.Advance | src/database/compact.rs:142-158 | the popped item is replaced by the next record of its source, so the heap again holds the first of each |
| KWayMerge.GreatestWins | src/database/compact.rs:133-140 | the popped item is what a read of its key would have found |
| KWayMerge.SkipKey | src/database/compact.rs:160-186 | every older version of the key is consumed and no other key is affected; terminates |
| KWayMerge.Merge | src/database/compact.rs:113-189 | the heap merge never offers the writer an unsorted key and its output has exactly the inputs' keys; it equals the two-by-two merge whenever its priorities rank the inputs as a read does |
| StoreReads.PublishKeepsSearch | src/database/compact.rs:189-201 | whatever tables were appended to the level between snapshot and publish, no search changes |
| StoreReads.LogReads | src/database/mod.rs:133-148 | logging a command changes what its own key reads and nothing else |
| StoreReads.FlushReads | src/database/flush.rs:22-71 | a flush changes no read |
| StoreReads.CompactReads | src/database/compact.rs:67-216 | a compaction changes no read and leaves at most one table in each lower level |
| StoreReads.WriteReads | src/database/mod.rs:133-165 | a write, with its flush and any part of its compaction pass, changes what its own key reads and nothing else |
| StoreDisk.CompactDisk | src/database/compact.rs:107 | a compaction keeps id order equal to recency, files equal to tables and leftovers harmless if and only if every level above is empty |
| StorePass.PassKeepsOrderIff | src/database/compact.rs:43-65 | a pass keeps id order equal to recency if and only if no level that is not full lies between two full ones |
| StorePass.SafeHasNoGap | src/database/compact.rs:52-62 | no such gap exists when the table threshold is not 1 or there are at most three levels |
| Engine.ReopenReads | src/database/recovery.rs:11-80 | loading all tables by id and replaying the log changes no read, whatever merged inputs or half-finished flush are still on disk |
| Engine.RunKeeps | src/database/mod.rs:86-165 | the engine's invariants hold after every run |
| Engine.EngineRefinesMap | src/database/mod.rs:133-195 | after any run of writes, interrupted compactions and (in safe configurations) reopens, every read equals the plain map's |
| Engine.LowerLevelsHoldOne | src/database/compact.rs:189-201 | every level from 1 up holds at most one table in every state |
| Engine.IdOrderIsRecency | src/database/compact.rs:107 | in safe configurations newer tables have larger ids in every state |
| Engine.DeletedStaysDeleted | src/database/mod.rs:150-165 | a deleted key reads as absent until it is written again |
| CrashRecovery.ReplayOver | src/database/recovery.rs:59-80 | a memtable replayed from a log reads, over the tables, as the same commands on the tables' map |
| CrashRecovery.RunDurable | src/database/flush.rs:45-68 | after every run, half-finished flushes included, the log holds exactly the last writes and the tables are the plain map of all writes before them and of those they cover |
| CrashRecovery.CrashReads | src/database/recovery.rs:11-80 | what is read after any run and a log cut at any byte, with or without a half-finished flush: the whole records over what the tables hold |
| CrashRecovery.CrashIsPrefixIff | src/database/flush.rs:22-71 | after any run and a log cut at any byte the reopened engine reads as some prefix of the writes if and only if at some point of the run every key written had the value it reads now: its value at the cut if a surviving record writes it, else its value in the tables |
| CrashRecovery.CrashIsPrefixAtIff | src/database/flush.rs:22-71 | the same for each single prefix |
| CrashRecovery.CrashKeepsOrderIff | src/database/flush.rs:22-71 | of the prefixes with all writes before the log, one fits if and only if one fits that reaches the cut, and only the writes behind the cut need testing |
| CrashRecovery.CrashKeepsSurvivorsIff | src/database/flush.rs:22-71 | the surviving records are visible and no later write is, if and only if every covered write behind the cut is of a key that a surviving record writes again or whose value is unchanged |
| CrashRecovery.TablesAloneArePrefix | src/database/recovery.rs:11-57 | a log of which no record survives leaves a prefix: what the tables hold |
| CrashRecovery.CrashLosesOnlyTheTail | src/database/recovery.rs:11-80 | when no flush was left half-finished, whatever byte the log is cut at the reopened engine reads as a prefix of the writes: all in tables and all whose records are whole |
| CrashRecovery.WholeLogLosesNothing | src/database/recovery.rs:59-80 | with the whole log on disk nothing is lost, half-finished flush or not |
| CrashRecovery.CrashCanMixWrites | src/database/flush.rs:40-68 | three writes, a half-finished flush and a log cut behind its first record reopen to reads that no prefix of the writes gives |
| TableFiles.FilesAnswer | src/database/mod.rs:178-193 | searching table files, opened and read byte for byte, gives what searching the record lists gives |
| TableFiles.RunOrigin | src/database/flush.rs:33-51 | after every run every entry in memory or on disk was written by one of the run's commands |
| TableFiles.OwnedIsStorable | src/lsm/sstable/writer.rs:50-108 | a sorted table of entries written by commands that fit can be stored, however large within 2^64 bytes |
| TableFiles.ReadThroughFiles | src/database/mod.rs:167-195 | after every run whose commands fit, memtable and table files read byte for byte as the plain map does, and no lookup fails |
| StoreTidy.FilesAreTables | src/database/compact.rs:189-206 | in every configuration with levels, after any run in which no compaction was interrupted since the last restart, the table files on disk are exactly those of the tables in the levels |
| StoreTidy.CompactDeletesInputs | src/database/compact.rs:203-206 | after a compaction that takes place no table of either level has its file, but for those an interruption left behind |
| StoreTidy.FlushWhenFull | src/database/flush.rs:8-71 | a flush happens if and only if the memtable has reached its threshold, and adds one table behind those of level 0 |
| StoreTidy.PassEmptiesFull | src/database/compact.rs:43-65 | a pass empties every level that is full when it begins, leaves one table below each such level that is not full itself, and changes no other |
| StoreTidy.WriteLeavesRoom | src/database/mod.rs:133-165 | after a write the memtable is empty or below its threshold, and so is the first level of two or more |
| EngineCounterexample.ReopenCanLoseWrites | src/database/compact.rs:52-62 | for every configuration with table threshold 1 and four levels or more, a run after which a reopen returns an overwritten value |
| EngineCounterexample.SafeExactly | src/database/recovery.rs:34-57 | reopening never changes a read, after any run, if and only if the table threshold is not 1 or there are at most three levels |
| DatabaseModule.SortEntries | src/database/flush.rs:38-40 | the memtable's entries, sorted by key |
| DatabaseModule.Database.OpenInDir | src/database/mod.rs:86-112 | the opened engine is the reopened state of its files and log |
| DatabaseModule.Database.LoadTables | src/database/recovery.rs:11-57 | all tables in level 0 by ascending id; the next id is above all of them |
| DatabaseModule.Database.Recover | src/database/recovery.rs:59-80 | the memtable is the log replayed |
| DatabaseModule.Database.GetValue | src/database/mod.rs:167-195 | the nested search returns what the memtable, else the first table in search order, has |
| DatabaseModule.Database.Insert | src/database/mod.rs:133-148 | the new state is the write function's |
| DatabaseModule.Database.Remove | src/database/mod.rs:150-165 | the new state is the write function's for a deletion |
| DatabaseModule.Database.FlushMemoryToDisk | src/database/flush.rs:22-71 | one sorted table at the end of level 0, log and memtable emptied; with no levels the file is written and nothing is emptied |
| DatabaseModule.Database.CompactIfFull | src/database/compact.rs:43-65 | levels full at the start of the pass are compacted in order |
| DatabaseModule.Database.Compact | src/database/compact.rs:67-216 | snapshot, merge, publish, delete inputs: the new state is the compaction function's |
| ByteForms.LeRoundTrip | src/lsm/wal/log_record.rs:340-356 | a number written in n bytes reads back as itself if and only if it fits |
| ByteForms.IntRoundTrip | src/lsm/wal/log_record.rs:73-92 | decimal text of an integer parses back to it if and only if it has 64 bits |
| ByteForms.ValueRoundTripIff | src/lsm/wal/log_record.rs:73-108 | a value's byte form reads back as that value if and only if it is valid: UTF-8, 64 bits, and a float whose text reads back as the same bits |
| Frames.ScanCut | src/lsm/wal/logger.rs:68-94 | a file of records cut at any byte scans to exactly the records wholly before the cut, at their true starts |
| Frames.WholeMeans | src/lsm/wal/logger.rs:68-94 | the number of records before a cut is the largest whose bytes fit in it |
| Wal.CalculateChecksum | src/lsm/wal/log_record.rs:273-305 | the loops compute the exclusive-or of id, codes, lengths, key and value bytes |
| Wal.RecordRoundTrip | src/lsm/wal/log_record.rs:159-221 | a record is read back with nothing left over if and only if its fields are wide enough |
| Wal.RecordStable | src/lsm/wal/log_record.rs:187-271 | a record is recognised by its own bytes, whatever follows |
| Wal.CutLog | src/lsm/wal/logger.rs:68-94 | whatever byte the log is cut at, reading returns exactly the whole records before it, numbered 0, 1, 2, ... |
| Wal.TornTailTrimmedIff | src/lsm/wal/log_record.rs:346-356 | the file left by opening holds exactly the whole records if and only if the torn part is not one to seven bytes |
| Wal.TornIsId | src/lsm/wal/log_record.rs:159-161 | a record torn within eight bytes is the start of its number |
| Wal.AppendedIsLost | src/lsm/wal/logger.rs:14-66 | a record appended behind such a torn part, and all later ones, are lost at the next open, unless a byte of its number reads as a command code |
| Wal.EarlyAppendIsLost | src/lsm/wal/logger.rs:59-66 | among the first 256 records they are always lost |
| Wal.AppendedIsMisread | src/lsm/wal/log_record.rs:187-271 | behind record 512 torn at seven bytes the next open reads a deletion of the empty key that nobody wrote |
| Wal.Logger.Open | src/lsm/wal/logger.rs:14-57 | the next id follows the last record read and a damaged tail is cut off |
| Wal.Logger.Append | src/lsm/wal/logger.rs:59-66 | the record numbered next is appended to whatever the file holds; a log of some commands becomes the log of those and the new one |
| Wal.Logger.ReadRecords | src/lsm/wal/logger.rs:68-94 | the records of the scan; a damaged tail is cut off |
| Wal.Logger.Truncate | src/lsm/wal/logger.rs:96-102 | the log is empty and numbering starts again |
| Wal.Recover | src/lsm/wal/logger.rs:14-94 | opening a log cut at any byte and reading it returns the whole records, and the next id is their number |
| WalDamage.RecordDamageIsSeen | src/lsm/wal/log_record.rs:187-221 | a record with one byte changed in its number, command code, key, string value or checksum, or anywhere but in the lengths of a deletion, is refused whatever stands behind it |
| WalDamage.DamagedLogStops | src/lsm/wal/logger.rs:14-57 | a log with one such byte changed in record i reads as exactly the first i records, damaged at their end |
| WalDamage.AcceptedIsWritten | src/lsm/wal/log_record.rs:187-305 | any bytes accepted as a record whose value field is in the writer's form are exactly what the writer writes for it |
| WalDamage.ValueDamageIff | src/lsm/wal/log_record.rs:213-218 | a changed byte of a value goes unnoticed if and only if the changed text still reads as a value whose own record has the same checksum |
| WalDamage.NumberDamageUnseen | src/lsm/wal/log_record.rs:223-256 | the number 205 with its first digit damaged to 0 is accepted and reads as 5 |
| WalDamage.XorChanged | src/lsm/wal/log_record.rs:273-305 | changing one byte of any sequence changes the exclusive or of all |
| RaftLogStoreModule.FrameRoundTripIff | src/raft/log_store.rs:134-161 | an entry is read back if and only if its payload is at most 64 MiB |
| RaftLogStoreModule.OpenReturnsAll | src/raft/log_store.rs:34-78 | opening the file of a sequence returns that sequence and each entry's true start |
| RaftLogStoreModule.OpenStopsAtOversized | src/raft/log_store.rs:145-152 | the entries before the first one over 64 MiB are read, it is not, and below 2^32 bytes it and all later ones are lost on opening |
| RaftLogStoreModule.TornTailTrimmedIff | src/raft/log_store.rs:134-143 | a file cut at any byte opens to the whole entries, and holds exactly them afterwards if and only if the torn part is not one to three bytes |
| RaftLogStoreModule.AppendedIsLost | src/raft/log_store.rs:84-104 | an entry appended behind such a torn part, and all later ones, are lost at the next open unless as many bytes follow as the torn length says |
| RaftLogStoreModule.ShortAppendIsLost | src/raft/log_store.rs:84-104 | an entry of at most 255 bytes appended last is always lost |
| RaftLogStoreModule.RaftLogStore.Append | src/raft/log_store.rs:84-104 | the frame and its offset are added to whatever the file holds; a file that holds a sequence then holds it with the new entry |
| RaftLogStoreModule.RaftLogStore.TruncateFrom | src/raft/log_store.rs:111-123 | file and offsets are cut at the entry, whatever the file holds; a file that holds a sequence then holds its prefix |
| RaftLogStoreModule.Open | src/raft/log_store.rs:34-78 | entries, offsets and file after opening any bytes; for the file of a storable sequence exactly that sequence |
| Bloom.WithBitBits | src/lsm/sstable/bloom.rs:40-51 | setting a bit sets that bit and no other |
| Bloom.InsertBits | src/lsm/sstable/bloom.rs:40-51 | inserting a key adds exactly the key's positions |
| Bloom.NoFalseNegatives | src/lsm/sstable/bloom.rs:53-69 | every inserted key is found, under wrapping 64-bit hashes |
| Bloom.FilterBits | src/lsm/sstable/bloom.rs:40-78 | a filter's bits are exactly the positions of its keys: first hash plus i times the odd second one, modulo 2^64 and then the size |
| Bloom.FilterAnswers | src/lsm/sstable/bloom.rs:53-78 | a query says yes if and only if each of the key's positions is a position of some key in the filter |
| Bloom.ProbeIsPosition | src/lsm/sstable/bloom.rs:44-46 | wrapping after each operation is wrapping once |
| Bloom.AcceptedIsFilter | src/lsm/sstable/bloom.rs:92-145 | any bytes accepted as a filter are exactly the byte form of that filter, which is usable |
| Bloom.FilterRoundTripIff | src/lsm/sstable/bloom.rs:80-145 | a filter is read back if and only if its dimensions are nonzero and agree and it has at most 100 hashes |
| Bloom.BloomFilter.Add | src/lsm/sstable/bloom.rs:40-51 | the loop sets the key's positions |
| Bloom.BloomFilter.Query | src/lsm/sstable/bloom.rs:53-69 | true if and only if all the key's positions are set |
| SSTable.RecordRoundTrip | src/lsm/sstable/format.rs:88-179 | every record the writer accepts is read back |
| SSTable.IndexRoundTrip | src/lsm/sstable/writer.rs:23-40 | every index entry is read back |
| SSTable.HeaderRoundTrip | src/lsm/sstable/format.rs:26-86 | every header is read back, whatever follows |
| SSTable.FindOffset | src/lsm/sstable/index.rs:27-32 | the binary search over sorted keys finds the offset filed under the key, or none |
| SSTable.WrittenOpens | src/lsm/sstable/mod.rs:50-61 | a written table opens with the index and filter its writer built |
| SSTable.HeaderAcceptedIff | src/lsm/sstable/format.rs:39-62 | a file has a header if and only if it has 45 bytes and begins with SST1 and the version 2 |
| SSTable.WrongFormatRefused | src/lsm/sstable/format.rs:39-62 | a written table with one of its first five bytes changed is refused |
| SSTable.CutTableRefused | src/lsm/sstable/reader.rs:80-154 | a written table cut short anywhere is refused |
| SSTable.OpenedIsLaidOut | src/lsm/sstable/index.rs:39-95 | any file that opens has header, filter and index in the writer's form where the header says, a usable filter and a sorted index of the length given |
| SSTable.TableLookup | src/lsm/sstable/reader.rs:64-78 | looking a key up in a written and reopened table gives the record list's entry for it, or none |
| SSTable.SequentialRead | src/lsm/sstable/reader.rs:15-49 | reading a written table from its first record gives its records |
| SSTableWriter.StreamingWriter.Create | src/lsm/sstable/writer.rs:119-131 | an empty table behind a placeholder header |
| SSTableWriter.StreamingWriter.Add | src/lsm/sstable/writer.rs:143-153 | a record that fits is appended, indexed at the byte where it begins and put in the filter; one too large is refused |
| SSTableWriter.StreamingWriter.WriteEntry | src/lsm/sstable/writer.rs:133-154 | refused as unsorted if and only if the key is not above the last one |
| SSTableWriter.StreamingWriter.Finish | src/lsm/sstable/writer.rs:156-192 | the finished file is exactly header, records, filter and index with their true offsets |
| SSTableWriter.WriteTable | src/lsm/sstable/writer.rs:50-108 | succeeds if and only if every key and value has a 32-bit length, and then produces exactly that file and index |

## Left out

- Dynamic membership: AddNode and RemoveNode messages and entries; all cluster theorems are for a fixed membership.
- Restarting a Raft node from disk: the sentinel is not stored, so store and memory indices differ by one; the log store is proved on its own and the cluster uses in-place restarts.
- Clocks and election deadlines: which deadlines have passed is an input (`due`), so elections and heartbeats may happen at any time; the simulator's time counts whole milliseconds.
- I/O errors, fsync and crashes in the middle of writing a table file.
- Concurrent writers to the engine: runs are sequential, except that tables appended during a compaction are covered by `StoreReads.PublishKeepsSearch`.
- Client replies: the text and the leader, node and peer fields of a client response are reduced to a note; only clients reached through the network are modelled, not in-process channels.
- 64-bit overflow of terms, sequence numbers and file offsets, and 32-bit overflow of table ids.
- Floating point: Bloom filter sizing is an input, and the text form of floats, UTF-8 validity, the 128-bit hash and the log entry serializer are function parameters with the stated laws. Values are identified by their bits; a NaN whose text reads back as another NaN is outside the log and table theorems (`ByteForms.ValueRoundTripIff`).
- Chaos probabilities: the random source's choices are inputs (`ChaosStep`, `settle`).
- RaftNodeModule.RaftNode.constructor: a node without persisted log and metadata; loading them belongs to restarting from disk.
- RaftNodeModule.RaftNode.PushLogEntry: does not write to the log store, which is proved on its own.
- RaftNodeModule.RaftNode.TruncateLog: does not truncate the log store, which is proved on its own.
- RaftNodeModule.RaftNode.ApplyUpTo: entries are commands, and executing them does not fail.
- RaftNodeModule.RaftNode.OnMessage: has no AddNode and RemoveNode messages.
- Simulator.Simulation.DeliverEarliest: with faults scheduled states the extension of the run, because a fault that is then due may change which nodes and links are up.
- Simulator.Simulation.DeliverNext: states which event is delivered when no fault is scheduled.
- Simulator.Simulation.AdvanceTime: which deadlines have passed is an input.
- Simulator.Simulation.RunUntilIdle: after 10001 deliveries the source panics; here the result is false.
- Simulator.Simulation.TickAll: which deadlines have passed is an input.
- Simulator.Simulation.RunChaosTest: writes and faults are inputs, of which the source's choices are some; with no node at all the source panics when it picks one.
- RaftLogStoreModule.OpenStopsAtOversized: from 2^32 bytes on, what is read behind the truncated length depends on the serializer.
- CrashRecovery.CrashIsPrefixIff: one cut of the log, at the end of the run; a torn part that opening leaves in the log changes what later appends mean (`Wal.AppendedIsLost`).
- Bloom false-positive rate; which keys are answered yes is exact for a given hash (`Bloom.FilterAnswers`).
- RaftAvailability.QuorumCanCommit: says that a schedule exists, not that timers produce it; elections in which nobody wins are runs too.
- RaftDuties.VoteDecides: when a peer list names a node twice the count is of the list, so more votes are needed.
- WalDamage.RecordDamageIsSeen: a changed length field or a write's type byte shifts or reinterprets what follows; of those only `WalDamage.AcceptedIsWritten` speaks.
- Persisted Raft metadata, TCP, gRPC, the JSON service, the runtime loop, the gateway, the command line and the benchmarks.
