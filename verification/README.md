# A verified model of the replicated log, its state machines and its tools

This project models, in Dafny, the parts of the repository whose correctness is hardest to see, and
proves what they are for. `dafny verify dfyconfig.toml` checks all of it.

- **Raft** (`Raft*.dfy`). `RaftTypes` and `RaftEngine` describe one replica: its state, and what each of
  its handlers does to it, with group commit, pipelined batches, acknowledgements that wait for the disk
  and can be revoked, and a commit index that is stored lazily. `RaftCluster` puts replicas on a network that
  loses, delays, reorders and repeats messages (a call takes at most one answer), where a crash keeps any prefix of a log
  that is at least as long as its durable part. `RaftHistory` and `RaftInvariant` state the inductive
  invariant: every state agrees with some history of elections, votes, acknowledgements and commits. `RaftUpdates`,
  `RaftSteps`, `Raft*Steps` and `RaftSafety` prove that every step keeps it. `RaftTheorems`, `RaftCommits`, `RaftPreVote` and
  `RaftReads` draw the conclusions over whole runs: section 5.2 to 5.4 and 8 of the extended Raft paper, and
  sections 6.4 (ReadIndex), 9.6 (PreVote) and 10.2.1 (parallel disk write) of Ongaro's thesis. `RaftStaleRead` builds, with
  the moves of `RaftPlay` and `RaftManoeuvres`, a family of runs in which a read is stale. `RaftNode` is the
  replica as the class it is in the source, its methods proved equal to the step functions used in the safety proof; a crash
  is the cluster's doing (`sim/cluster.js:313`) and has no method. `RaftRepair` bounds the stop-and-wait repair of a follower,
  and `RaftStore` ties each step of a replica to the operations of its log store.
- **The linearizability checker** (`Linearizability`, `Histories`, `RegisterModel`): the memoised
  backtracking search, proved sound and complete against a definition of linearizability that does not mention it.
- **The HNSW index** (`Hnsw*.dfy`): heap, layer search, neighbour selection, insertion and deletion,
  and the snapshot whose loader checks every structural invariant.
- **The replicated state machines** (`AgentModel`, `AgentLedger`, `AgentState`; `KeyspaceModel`, `StateMachine`): resource
  fencing between agents serializes them in log order; leases are exclusive; and (`WatchModel`, `WatchProof`, `WatchBuffer`) a
  watch that wanders between replicas sees the event stream without gaps or repetitions, as long as the buffers reach.
- **The log file** (`LogStore`, `DurableLog`): recovery after a torn write, and the sense in which the disk refines the
  simulator's store.
- **Tools**: the Bug Museum's shrinker (`BugMuseum`), the wire format (`FrameCodec`, `FrameBodies`), the latency
  histogram (`HistogramBuckets`, `Histogram`).

Where the source changes state step by step, the model is a class or a method with loops, and its contract equates the
new state with a function of the old one; the theorems are lemmas about those functions and about runs made of them.

Five findings are stated as lemmas, each with an input that breaks what the documentation says, or what a reader of it may
expect, and the exact condition under which it holds, in terms that the code or its caller can test.

- *ReadIndex.* The zero-delay callback that forgets the no-op index does not look at which leadership queued it. In the runs of
  `RaftStaleRead.StaleRead` it was queued in term 1 and fires in the same replica's term 3, and a read then misses an entry that
  the leader of term 2 had committed. `RaftStaleRead.CallbackTestIsExact`: letting the callback fire only where some test of two
  leader fields allows (did this leadership queue it, and how far is the commit index behind the no-op) keeps every read of every
  run current if and only if the test refuses a callback of an earlier leadership with two or more entries, no-op included, still
  to be committed. `RaftReads.ReadIndexIsLinearizable` is proved for the runs that satisfy this (`RaftReads.Timely`). Timers fire
  in any order here: a clock that fires them in the order they fall due runs the callback before the same replica's next election.
- *Watches.* A replica keeps 1024 events and says nothing of those it dropped. `WatchBuffer.MissedEvents`: after 1025 puts, a
  client at revision 0 polls once, is handed the last 1024, and its cursor has passed the first. `WatchBuffer.BufferTestIsExact`:
  whichever log left the buffer, every watcher at a cursor is answered in full if and only if the buffer is not full or the
  cursor is at most one revision short of the oldest event in it; `TestedWatchIsGapFree` is the theorem for servers that test this.
- *Histogram.* `fractionAbove` is documented as the fraction of values strictly greater, but counts those in higher buckets than the
  rounded threshold's. `Histogram.AboveMisses`: 2049 is not counted above 2048, 2 not above 1.6, 0 not above -1.
  `Histogram.AboveIsExact`: for a threshold that is a number, the fraction is right for everything that may have been recorded if
  and only if the rounded, clamped threshold does not exceed the threshold and is the last value of its bucket;
  `AboveIsExactHere`: for one histogram, if and only if that holds or the rounded threshold's bucket is empty.
- *Frames.* A push that meets a bad header throws, and the whole frames it had cut are lost with it. `FrameCodec.FrameLost`: a frame
  and a header of version 2 in one chunk hand over nothing, in two chunks the frame. `FrameCodec.ChunkingShowsExactly`: every
  chunking of a stream hands over the same frames if and only if it has no bad header, or no whole frame in front of it.
- *Repeated authorizations.* `AgentLedger.ReplannedIsRefused`: the repetition of an accepted authorization is refused once its
  execution has another plan. `AgentLedger.AcceptedThenRepeated`: it changes nothing at any later index, and is answered as a
  duplicate if and only if the execution runs on the snapshot and the plan that it was accepted under.

## Model

| member | source | states |
|---|---|---|
| RaftSafety.StepKeeps | replica/raft.js:819-1548 | one step of any replica on a network that loses, repeats and reorders (timeout, pre-vote, vote, append, flush, answer, error, client, read, crash, restart) keeps the cluster invariant: there is a sound history of elections, votes, acknowledgements and commits that its state and messages agree with |
| RaftHistory.LeaderCompleteness | replica/raft.js:1051-1126 | an entry of a leader's own term that a majority has durably acknowledged is in the log of every later leader, although acknowledgements are delayed, revocable and given before the leader's own fsync |
| RaftCommits.LeadersHoldApplied | replica/raft.js:1051-1126 | on the states of a run alone: what a replica has applied at any moment is in the log of every leader of a later term at any moment, and of the leader of its own term from then on |
| RaftHistory.UpToDateCarries | replica/raft.js:1075-1126 | a voter holding an acknowledged entry grants its vote only to a log that holds it too |
| RaftUpdates.VoteSound | replica/raft.js:1075-1126 | casting a vote the up-to-date check allows keeps the history sound: a voter votes once a term, and for nobody who lacks what it acknowledged |
| RaftUpdates.CommitSound | replica/raft.js:1319-1357 | committing an entry of the leader's own term once a majority backs it keeps the history sound |
| RaftUpdates.OneLeaderPerTerm | replica/raft.js:878-951 | two majorities of one term share a voter, so its leader is one |
| RaftTheorems.StateMachineSafety | replica/raft.js:1289-1317 | over any run, no two replicas at any two moments have applied different entries at one index |
| RaftTheorems.NeverRefusesToTruncate | replica/raft.js:707-727 | the refusal to truncate a committed entry is never reached in any run, and no message of a run is malformed |
| RaftTheorems.LogMatching | replica/raft.js:1165-1238 | equal terms at an index, on any two replicas at any two moments, imply equal logs through that index |
| RaftTheorems.AtMostOnce | replica/raft.js:1726-1777 | no log ever holds two entries with one client id and sequence number, and each entry carries its own position |
| RaftTheorems.CommittedReplyIsTrue | replica/raft.js:1777-1833 | an answer that an append is committed names the very entry every replica applies at that index, before or after |
| RaftCommits.CommittedReplyWasCommitted | replica/raft.js:1777-1833 | an answer that an append is committed names an entry that some leader had committed and applied at some moment up to then |
| RaftTheorems.LazyCommitIsSafe | replica/raft.js:362-374 | whenever it is read back, min(stored commit index, log length - 1) covers only entries that agree with what any replica ever applies there, even when the metadata was ahead of the durable log and the log has been extended again |
| RaftCommits.StoredCommitWasCommitted | replica/raft.js:362-374 | each entry that min(stored commit index, log length - 1) covers was committed and applied by some leader at some moment up to then |
| RaftTheorems.ElectionSafety | replica/raft.js:878-1012 | over any run, two replicas leading one term are the same replica |
| RaftTheorems.VotesAreDurable | replica/raft.js:878-951 | every vote a candidate counts is a distinct voter's stored vote for it in that term, unless that voter has gone on to a later term |
| RaftTheorems.AcksWereMade | replica/raft.js:630-682 | every acknowledgement a leader can rely on was made at some moment when the follower held that log durably, in that very term |
| RaftCommits.CommitsWereMade | replica/raft.js:1319-1357 | every commit was made: for each term with one there is a moment up to then at which its leader led it with at least that commit index |
| RaftTheorems.ProgressIsSound | replica/raft.js:1408-1548 | whatever the order of successes, rejections, errors and answers from earlier leaderships, matchIndex m means the follower durably held the leader's log through m in this term (and holds it still while it stays in the term), and matchIndex + 1 <= nextIndex <= log length |
| RaftSteps.FlushKeeps | replica/raft.js:589-609 | flushing, releasing the acknowledgements it made durable and advancing the commit index keep the history sound |
| RaftSteps.CountedReplicasBack | replica/raft.js:1319-1357 | every replica the leader counts, itself only as far as it is durable, has durably acknowledged the entry in this term |
| RaftFollowerSteps.AcceptKeeps | replica/raft.js:1165-1287 | following a leader's consistent request, cutting a conflicting suffix included, keeps every acknowledgement honoured and every committed entry in place |
| RaftFollowerSteps.CutHonoursAcks | replica/raft.js:707-727 | what a conflict cuts off was never acknowledged to a leader whose entries survive |
| RaftLeaderSteps.CrashKeeps | replica/raft.js:545-557 | losing any suffix beyond the durable length breaks no acknowledgement, vote or stored commit index |
| RaftPreVote.TermsNeverFall | replica/raft.js:1014-1049 | over any run a replica's term never falls, crashes included |
| RaftPreVote.TermRisesOnlyWithCause | replica/raft.js:819-951 | a term rises only by adopting the term of a delivered message, or by one after a majority granted one pre-vote round that nothing interrupted |
| RaftPreVote.MajorityGranted | replica/raft.js:819-876 | when a round is won there is the step that opened it, and a majority of distinct voters whose grants answer that round's own requests, the term unchanged throughout |
| RaftPreVote.IsolatedReplicaKeepsTerm | replica/raft.js:819-876 | in a cluster of two or more voters, a replica that receives nothing keeps its term however often it times out, crashes or restarts |
| RaftStaleRead.CallbackTestIsExact | replica/raft.js:1370-1384 | letting a leader fire the zero-delay callback only where a test of (queued by this leadership, entries the commit index is behind the no-op) allows keeps every read of every run current if and only if the test refuses callbacks of earlier leaderships two or more entries behind |
| RaftStaleRead.StaleRead | replica/raft.js:2145-2205 | for every gap of two or more: a run from the initial cluster with one firing, of a callback of an earlier leadership by a leader that far behind its no-op, and a read that misses what another replica had applied before the read was invoked |
| RaftNoop.BroadcastNoop | replica/raft.js:1370-1384 | a callback of the present leadership, or one fired with at most the no-op itself to commit, leaves an open guard only to a leader that has committed all that earlier leaders did |
| RaftNoop.StepNoop | replica/raft.js:998-1004 | every step keeps the meaning of the guard when the callback fires only where it is harmless |
| RaftReads.ReadIndexIsLinearizable | replica/raft.js:2145-2205 | in every run whose callbacks fire only where they are harmless, a read that is answered is answered from a state that has applied, in the same order, everything any replica had committed when the read was invoked |
| RaftReads.ReadIndexCovers | replica/raft.js:2145-2174 | the index recorded for a read covers every commit by any leader up to the invocation, once a majority has confirmed the leadership |
| RaftReads.ReadIsTracked | replica/raft.js:2176-2205 | a read is confirmed only by answers given after it was invoked, in the term it was invoked in |
| RaftRepair.ReplicateToPeer | replica/raft.js:1617-1703 | against a follower that answers in the term of the leader, with unflushed entries and answers still owed, and while the log of the leader grows between attempts, stop-and-wait repair succeeds within max(2, log length at the start + 1) attempts; what is acknowledged is durable at the follower and equal to the log of the leader |
| RaftRepair.RunsAreRepairable | replica/raft.js:1617-1703 | at every moment of every run, each other replica that is not in a later term meets what repair asks of a follower |
| RaftRepair.OneAttempt | replica/raft.js:1628-1693 | each attempt is answered once, at once or by the next flush: with success and agreement through the last entry sent, or with a hint strictly below the index tried |
| RaftRepair.MergedAgrees | replica/raft.js:1198-1238 | merging a consistent piece makes the log agree through it, keeps Log Matching and loses nothing that agreed |
| RaftNode.RaftNode.PersistState | replica/raft.js:517-543 | term, vote and commit index are stored together, exactly as the step function of the safety proof does |
| RaftNode.RaftNode.ReleaseDurableWaiters | replica/raft.js:630-653 | refines the step function: one answer per waiter that became durable, one refusal per waiter of an older term or log, the rest still waiting |
| RaftNode.RaftNode.ApplyCommittedEntries | replica/raft.js:1289-1317 | applies exactly the committed entries not yet applied, in order |
| RaftNode.RaftNode.ReleaseCommitWaiters | replica/raft.js:1822-1826 | answers exactly the clients whose entry the commit index has reached |
| RaftNode.RaftNode.CountReplicas | replica/raft.js:1319-1345 | the counting loop counts the distinct voters that hold the entry, the leader itself only once durable |
| RaftNode.RaftNode.AdvanceCommitIndex | replica/raft.js:1319-1357 | refines the step function: commits the last entry of its own term that a majority holds, and nothing else |
| RaftNode.RaftNode.FlushLog | replica/raft.js:589-609 | refines the step function: everything in memory becomes durable, then waiters are released, then the commit index advances |
| RaftNode.RaftNode.AppendToLog | replica/raft.js:684-705 | refines the step function: appends in memory and flushes only when the buffer is full |
| RaftNode.RaftNode.TruncateLogFrom | replica/raft.js:707-727 | refines the step function: refuses below the commit index, else cuts and rewrites, so that what is left is durable and older waiters are revoked |
| RaftNode.RaftNode.BecomeFollower | replica/raft.js:1014-1049 | refines the step function: adopts a later term before stepping down, and fails clients whose entry is not committed |
| RaftNode.RaftNode.BecomeLeader | replica/raft.js:953-1012 | refines the step function: a new leadership with fresh progress and a no-op of its own term |
| RaftNode.RaftNode.StartElection | replica/raft.js:878-951 | refines the step function: a candidacy in the next term with its own vote stored and one request to each peer |
| RaftNode.RaftNode.StartPreVote | replica/raft.js:819-876 | refines the step function: a new round that leaves term and vote alone |
| RaftNode.RaftNode.HandlePreVote | replica/raft.js:1051-1073 | refines the step function: grants without changing anything |
| RaftNode.RaftNode.HandleRequestVote | replica/raft.js:1075-1126 | refines the step function: refusal of old terms, sticky leaders and stale logs, one stored vote a term |
| RaftNode.RaftNode.OnPreVoteResponse | replica/raft.js:840-872 | refines the step function: a counter of grants that equals the number of distinct voters that granted this round |
| RaftNode.RaftNode.OnVoteResponse | replica/raft.js:918-947 | refines the step function: a counter of votes that equals the number of distinct voters whose vote was received |
| RaftNode.RaftNode.ConflictStart | replica/raft.js:1198-1223 | the backward loop finds the first index of the conflicting term's run |
| RaftNode.RaftNode.HandleAppendEntries | replica/raft.js:1165-1287 | refines the step function: refusal, conflict hint, merge, commit index limited to what was verified, acknowledgement only once durable |
| RaftNode.RaftNode.AcknowledgeWhenDurable | replica/raft.js:655-682 | refines the step function: answers at once when durable, otherwise waits for the flush |
| RaftNode.RaftNode.CountActive | replica/raft.js:1408-1424 | the loop counts the requests in flight that have not been superseded |
| RaftNode.RaftNode.BatchCount | replica/raft.js:1589-1606 | the batch is at least one entry, within the entry and byte limits, and cannot be extended |
| RaftNode.RaftNode.SendAppend | replica/raft.js:1426-1459 | refines the step function: one request for the next entries, next index moved optimistically |
| RaftNode.RaftNode.PumpPeer | replica/raft.js:1408-1424 | a sequence of allowed sends, after which nothing more may be sent |
| RaftNode.RaftNode.OnAppendRejected | replica/raft.js:1511-1528 | refines the step function: a stale rejection is ignored, any other falls back to a probe at the hinted index and never below what is matched |
| RaftNode.RaftNode.OnAppendError | replica/raft.js:1530-1548 | refines the step function: an error of this leadership restarts from what is matched and supersedes what is in flight |
| RaftNode.RaftNode.OnRpcError | replica/raft.js:1461-1548 | refines the step function: an error of any request settles its call, and only an AppendEntries moves replication |
| RaftNode.RaftNode.OnAppendResponse | replica/raft.js:1461-1509 | refines the step function: answers from earlier leaderships change nothing but the term |
| RaftNode.RaftNode.FindDuplicate | replica/raft.js:1726-1734 | the first entry with the client's key, or none |
| RaftNode.RaftNode.ClientAppend | replica/raft.js:1736-1800 | refines the step function: a repeated request waits for its original entry instead of being appended again |
| RaftNode.RaftNode.ExpireCommitWaiter | replica/raft.js:1802-1820 | refines the step function: a timeout answers one client by where the commit index then is |
| RaftNode.RaftNode.OnReadResponse | replica/raft.js:2176-2205 | refines the step function: a confirmation counts only while the leadership lasts |
| RaftNode.RaftNode.AnswerRead | replica/raft.js:2160-2173 | refines the step function: refuses unless a majority confirmed, the term and role are those of the invocation and the recorded index is applied; the answer is the applied state |
| RaftNode.RaftNode.StartRead | replica/raft.js:2145-2158 | refines the step function: refuses unless it leads and the no-op is committed or forgotten, else records term and commit index and asks every peer |
| RaftNode.RaftNode.ConfirmLeadership | replica/raft.js:2176-2193 | one empty AppendEntries to each peer from its next index, all under the one read |
| RaftNode.RaftNode.FireBroadcast | replica/raft.js:1378-1384 | refines the step function: the no-op is forgotten whichever leadership queued the callback |
| RaftNode.RaftNode.constructor | replica/raft.js:362-374 | a restart keeps term, vote and log and replays the entries up to min(stored commit index, log length - 1) |
| RaftStore.StepOperates | replica/raft.js:589-727 | whatever a step does to log and durable length, it does to the abstract log store by at most one rewrite that keeps all that is committed, then at most one append, then at most one flush |
| RaftStore.CrashIsTornWrite | sim/cluster.js:313-346 | a crash at any byte of writing the buffer leaves a file whose only reading is the log of a crashed state that the cluster model allows |
| Linearizability.FirstIsLiftable | sim/linearizability.js:128-153 | if some order explains the operations, the search meets its first operation as an unblocked candidate whose rest can still be explained |
| Linearizability.BlockedIsNeverFirst | sim/linearizability.js:131-142 | in invocation order, no operation from the first blocked one onwards can come first: the early break loses nothing |
| Linearizability.Search.Explain | sim/linearizability.js:114-158 | true with an order appended that linearizes the remaining operations, false without exhaustion only when none exists; the memo holds only configurations that are refuted; at most maxSteps + 1 steps |
| Histories.Pair | sim/linearizability.js:172-209 | the operations are exactly one per invocation that has not failed, pending ones included, results folded in, in order of invocation |
| Histories.Check | sim/linearizability.js:105-169 | a positive verdict carries an order of operations that explains the history; a negative one without exhaustion means no order does |
| RegisterModel.AcceptsWhatRuns | sim/linearizability.js:60-87 | the register model accepts an order of operations exactly when running them one after the other returns what each client saw, if it saw anything and the operation is no delete; the run then ends in the store that leaves |
| RegisterModel.HashIsInjective | sim/linearizability.js:90-92 | equal hashes mean equal stores, whatever the order of insertion |
| RegisterModel.CheckRegisters | sim/linearizability.js:105-169 | the checker with the register model is sound and complete |
| HnswOrder.BeforeTotal | replica/hnsw.js:1025-1030 | distance, then id, then label is a strict total order of candidates |
| HnswOrder.LabelsTotal | replica/hnsw.js:1019-1023 | the canonical order of labels is a strict total order |
| HnswOrder.SortedCandidates | replica/hnsw.js:559-566 | sorting keeps exactly the candidates and orders them |
| HnswOrder.SortingCanonical | replica/hnsw.js:334-341 | a list already in canonical order is left as it is |
| HnswHeap.RootIsFirst | replica/hnsw.js:108-155 | no item of a heap comes before its root |
| HnswHeap.Heap.Push | replica/hnsw.js:123-133 | adds one item and keeps the heap order |
| HnswHeap.Heap.Pop | replica/hnsw.js:135-155 | removes one item that no other comes before, and keeps the heap order |
| HnswSearch.SearchLayer | replica/hnsw.js:476-539 | terminates with exactly the ef least admitted labels of those it visited, sorted, none twice, all of them reachable, and with the neighbours of every label it returns visited; with ef at least the number reachable, every reachable admitted label is returned, for any filter and any tombstones |
| HnswSearch.NothingMissed | replica/hnsw.js:494-530 | when the walk stops with room for every reachable label, it has visited every reachable label |
| HnswSearch.ClosedCovers | replica/hnsw.js:476-539 | labels closed under edges that contain the entry contain everything reachable from it |
| HnswGraph.SelectNeighbours | replica/hnsw.js:559-586 | as many neighbours as fit the limit, none twice, the nearest first, and when they run short every label left out of the diverse choice is nearer to one chosen than to the node |
| HnswGraph.StaysOnLevel | replica/hnsw.js:351-467 | a walk that starts on a level stays on it and never meets the label being linked |
| HnswIndex.HnswIndex.LinkBack | replica/hnsw.js:432-453 | linking back keeps every list canonical, within its degree limit, on its level and free of self and repeated edges |
| HnswIndex.HnswIndex.Upsert | replica/hnsw.js:351-467 | keeps every invariant of the index; adds one label and renames the id to it, tombstoning what it replaced; every level the label shares with the graph gains it a neighbour; a refused vector changes nothing |
| HnswIndex.HnswIndex.Delete | replica/hnsw.js:588-602 | keeps every invariant of the index; forgets the id and marks its label, leaving the graph alone |
| HnswIndex.Descend | replica/hnsw.js:406-421 | the greedy descent terminates at a label reachable from its start none of whose neighbours comes before it |
| HnswSnapshot.RoundTrip | replica/hnsw.js:737-915 | the snapshot of any index that has the invariants passes all of the loader's checks and is restored to the same state |
| HnswSnapshot.IndexImageOk | replica/hnsw.js:737-768 | every index reachable by upserts and deletes is such an index |
| HnswSnapshot.AcceptedIsSound | replica/hnsw.js:779-915 | whatever the loader accepts has every structural invariant, except the degree limits and the tie-break of the entry point, which it does not check |
| HnswSnapshot.Deserialize | replica/hnsw.js:779-925 | loads exactly the snapshots that pass every check, and refuses all others |
| AgentLedger.Serializable | replica/agent-state.js:332-443 | for any log, the authorized transactions form a serial history in log order whose result is exactly the resources of the replayed state |
| AgentLedger.ResourceIsFold | replica/agent-state.js:98-120 | each resource is the fold of the write sets authorized on it, in log order |
| AgentLedger.VersionsRise | replica/agent-state.js:395-407 | along the history a resource's version never falls, and rises with each transaction that writes it |
| AgentLedger.OneEffectPerVersion | replica/agent-state.js:332-443 | for each resource and version, at most one effect of all executions moved it there |
| AgentLedger.EffectsAreLogged | replica/agent-state.js:409-426 | the versions recorded with an effect are those of its own transaction in the history |
| AgentLedger.EffectsNeverRegress | replica/agent-state.js:544-616 | over any log an effect never disappears, its status and attempts never regress, and a recorded result stays |
| AgentLedger.ResultsAlwaysMatch | replica/agent-state.js:581-616 | over any log an effect has a result exactly when its status says so |
| AgentLedger.OnlyMutationsChange | replica/agent-state.js:160-191 | a command that fails or is a duplicate changes nothing |
| AgentLedger.RepeatedAuthorization | replica/agent-state.js:352-362 | over any log, once an effect is recorded, an authorization of it changes nothing; it is answered as a duplicate if and only if the execution runs, on the snapshot and plan recorded with the effect, and the command asks for the recorded action, parameters and snapshot; otherwise it fails |
| AgentLedger.AcceptedThenRepeated | replica/agent-state.js:332-362 | over any log, an accepted authorization repeated at any later index changes nothing, and is a duplicate if and only if the execution runs and its snapshot and plan are those it was accepted under |
| AgentLedger.ReplannedIsRefused | replica/agent-state.js:352-362 | a log of five commands: after another plan of the same execution, repeating the authorization it accepted is refused |
| AgentLedger.StaleReaderFenced | replica/agent-state.js:364-383 | over any log, after a transaction has written a resource above the version that a still-standing plan read, every authorization of a new effect under that plan fails and changes nothing |
| AgentLedger.FencedExactly | replica/agent-state.js:332-393 | for a plan that was current at some moment of a log and still stands: a new effect under it is authorized if and only if it is otherwise admissible and no transaction since that moment has written anything the plan reads |
| AgentLedger.VersionsOverLogs | replica/agent-state.js:395-407 | over any log, the version of a resource never falls, and stays the same if and only if no authorized transaction writes it |
| AgentState.NormalizeReadSet | replica/agent-state.js:51-67 | accepts exactly the valid read sets, and yields the map they stand for |
| AgentState.NormalizeWriteSet | replica/agent-state.js:69-96 | accepts exactly the valid write sets, and yields the map they stand for |
| AgentState.ApplyResourceOperations | replica/agent-state.js:98-120 | the loop computes the operations' meaning, or fails as a whole |
| AgentModel.SetMeans | replica/agent-state.js:98-120 | a set stores its value, or removes the field when it has none, and touches nothing else |
| AgentModel.AppendMeans | replica/agent-state.js:98-120 | an append adds a value that is not there yet; without a value it adds a null, even to an array that has one; a field that is no array refuses it |
| AgentModel.AppendedTwice | replica/agent-state.js:98-120 | appending in two transactions is appending in one if and only if there is a value to append |
| AgentState.AgentState.Plan | replica/agent-state.js:291-330 | refines the ledger's plan command, failures and repetitions included |
| AgentState.AgentState.HasConflict | replica/agent-state.js:364-383 | a conflict is reported exactly when some version read is no longer current |
| AgentState.AgentState.Project | replica/agent-state.js:385-393 | the new states of all the resources written, or none of them |
| AgentState.AgentState.AuthorizeResourceEffect | replica/agent-state.js:332-443 | refines the ledger's authorization, all or nothing |
| AgentState.AgentState.RecordIntent | replica/agent-state.js:496-542 | refines the ledger's intent command |
| AgentState.AgentState.Dispatch | replica/agent-state.js:544-561 | refines the ledger's dispatch command |
| AgentState.AgentState.RequireReconciliation | replica/agent-state.js:563-579 | refines the ledger's reconciliation command |
| AgentState.AgentState.RecordResult | replica/agent-state.js:581-599 | refines the ledger's result command |
| AgentState.AgentState.CommitEffect | replica/agent-state.js:601-616 | refines the ledger's commit command |
| LogStore.SplitIsUnique | replica/log-store.js:100-125 | a file splits into complete lines and a trailing piece in one way only |
| LogStore.TornWrite | replica/log-store.js:195-242 | any byte prefix of a write is its first few records whole and part of the next |
| LogStore.TornFileReads | replica/log-store.js:100-151 | the reading of a torn file is every durable entry and the first few of those being written |
| LogStore.LogStore.Append | replica/log-store.js:166-193 | refines the simulator's append: pending entries first, then these, all durable |
| LogStore.LogStore.AppendBuffered | replica/log-store.js:195-207 | refines the simulator's buffered append: the file is untouched |
| LogStore.LogStore.Flush | replica/log-store.js:209-242 | refines the simulator's flush: the file becomes the encoding of all entries |
| LogStore.LogStore.Rewrite | replica/log-store.js:244-275 | refines the simulator's rewrite: the file becomes the encoding of the given entries, the buffer is dropped |
| LogStore.LogStore.Load | replica/log-store.js:100-151 | reads the complete lines, refuses damage anywhere but in the trailing piece, and drops that piece from the file |
| LogStore.LoadAfterCrash | replica/log-store.js:100-151 | after a crash leaving any byte prefix of the last write, loading returns every flushed entry and a prefix of those in flight, and leaves the file equal to the encoding of just that |
| LogStore.MemoryLogStore.Flush | sim/cluster.js:49-56 | the simulator's store moves everything pending to the entries |
| DurableLog.DurableLog.AppendToLog | replica/raft.js:684-705 | the stored entries stay the durable prefix of the log, and the store's buffer exactly the rest |
| DurableLog.DurableLog.FlushLog | replica/raft.js:589-609 | after a flush the whole log is stored and durable |
| DurableLog.DurableLog.TruncateLogFrom | replica/raft.js:707-727 | cutting rewrites what is kept, all of it durable |
| DurableLog.CrashKeepsDurable | sim/cluster.js:313-346 | a crash leaves a prefix of the log at least as long as its durable part, which is what the cluster model lets a crash keep |
| KeyspaceModel.StreamsArePrefixes | replica/state-machine.js:201-216 | replicas that have applied different prefixes of one log have emitted prefixes of one event stream, its revisions strictly increasing |
| KeyspaceModel.ExpiresExactly | replica/state-machine.js:337-353 | exactly the leases whose time has come are dropped |
| KeyspaceModel.LeasesAlwaysLive | replica/state-machine.js:234-353 | no applied state holds a lease past its time, or two leases on one key |
| KeyspaceModel.LeaseIsExclusive | replica/state-machine.js:458-482 | a live lease cannot be acquired by anyone else |
| KeyspaceModel.LeaseIsKept | replica/state-machine.js:337-520 | over any log, from a moment at which a client holds a key it holds it at every moment if and only if no entry finds the time of the lease come, or releases, deletes or compare-and-swaps it to null, the acquisition by the client itself apart |
| KeyspaceModel.LeasesAlwaysStored | replica/state-machine.js:337-520 | after any log, every leased key is stored, and leased once |
| StateMachine.StateMachine.ApplyEntry | replica/state-machine.js:234-314 | refines the keyspace: the clock moves forward only, leases expire first, then the command takes effect |
| StateMachine.StateMachine.ApplyCas | replica/state-machine.js:416-456 | refines the keyspace: revision or value compared, then put or deleted, or nothing |
| StateMachine.StateMachine.ApplyLeaseAcquire | replica/state-machine.js:458-482 | refines the keyspace: free, expired or own leases only |
| StateMachine.StateMachine.ApplyLeaseRenew | replica/state-machine.js:484-504 | refines the keyspace: the holder's own lease only |
| StateMachine.StateMachine.ApplyLeaseRelease | replica/state-machine.js:506-520 | refines the keyspace: the holder's own lease only |
| StateMachine.StateMachine.ExpireLeases | replica/state-machine.js:337-353 | the loop over the leases drops and announces the expired ones, in order |
| StateMachine.StateMachine.EventsSince | replica/state-machine.js:168-172 | the buffered events that match the prefix and are above the revision, in order |
| StateMachine.WatchServer.OnEvents | replica/index.js:382-395 | exactly the waiters some event concerns are woken, each with its first such event, and forgotten |
| StateMachine.WatchServer.Watch | replica/index.js:397-432 | answers with the backlog if there is one, else waits |
| StateMachine.WatchClient.HandleResponse | serving/consensus-client.js:141-171 | hands the events on one by one, the cursor after each, up to the one whose handler throws |
| WatchModel.BufferSuffices | replica/state-machine.js:168-216 | the bounded buffer answers a watcher in full exactly when nothing the watcher still needs has left it |
| WatchBuffer.MissedEvents | replica/state-machine.js:168-216 | for every number of puts above 1024, a run of one poll from revision 0 that hands on the last 1024 events and never the earlier ones, the cursor being past them |
| WatchModel.CursorSplits | serving/consensus-client.js:150-160 | moving the cursor to the k-th event received loses and repeats nothing |
| WatchProof.StepKeeps | serving/consensus-client.js:141-171 | every step of log, replicas, server, network and client keeps the events handed on equal to the stream up to the cursor |
| WatchProof.WatchIsGapFree | serving/consensus-client.js:141-171 | over any run of polls, timeouts, lost responses, restarts and switches between replicas, the events handed on are a gap-free, duplicate-free, in-order prefix of the filtered stream |
| WatchBuffer.TestedWatchIsGapFree | serving/consensus-client.js:141-171 | over any run in which each poll passes that test, the events handed on are a gap-free, duplicate-free, in-order prefix of the filtered stream |
| WatchBuffer.BufferTestIsExact | replica/state-machine.js:168-216 | for the buffer any log leaves: each watcher at a cursor is answered in full whichever log left it, if and only if the buffer is not full or the cursor is at most one revision short of its oldest event |
| BugMuseum.GreedyIsExact | sim/bug-museum.js:246-253 | greedy matching finds the witness exactly when it occurs in order, with anything in between |
| BugMuseum.Monotone | sim/bug-museum.js:246-253 | putting an action back never loses the witness |
| BugMuseum.MinimalIsWitness | sim/bug-museum.js:326-377 | a schedule of which no single action can be removed is the witness itself |
| BugMuseum.ContainsWitness | sim/bug-museum.js:246-253 | the cursor loop decides whether the witness occurs |
| BugMuseum.DropSingles | sim/bug-museum.js:355-358 | one backward pass leaves no action that could be removed |
| BugMuseum.Shrink | sim/bug-museum.js:326-377 | terminates with exactly the witness: as many actions as required, of those kinds in that order, each an action of the schedule, re-timed evenly |
| FrameCodec.CutInTwo | replica/raft-codec.js:265-282 | cutting frames in two goes is cutting them in one, failures included |
| FrameCodec.ChunkingIsInvisible | replica/raft-codec.js:259-283 | however a stream is chunked, the pushes fail exactly when it has a bad header, and in the same way; without one they hand over the same frames and hold back the same bytes, with one exactly the frames of the chunks before the one that completes the header |
| FrameCodec.ChunkingShowsExactly | replica/raft-codec.js:266-282 | every chunking of a stream hands over the same frames if and only if the stream has no bad header, or no whole frame in front of it |
| FrameCodec.FrameLost | replica/raft-codec.js:266-282 | any frame followed by a header of version 2: one chunk of both hands over nothing, two chunks hand over the frame, and both end in the same failure |
| FrameCodec.Reassembly | replica/raft-codec.js:103-112 | encoded frames sent back to back and cut anywhere come out again in order, with only the unfinished one held back |
| FrameCodec.PartialFrameWaits | replica/raft-codec.js:265-282 | a frame cut off before its end is neither a frame nor a failure |
| FrameCodec.FrameDecoder.Push | replica/raft-codec.js:266-282 | one push cuts every whole frame off the buffer and the chunk, and throws at the first header that is too long or of another version |
| FrameCodec.Receive | replica/raft-transport.js:42-53 | pushing the chunks of a connection until one fails hands over, holds back and reports what the lemmas about chunkings speak of |
| FrameCodec.FrameWriter.Frame | replica/raft-codec.js:103-112 | the parts behind a header that describes them, or a refusal above 64 MiB |
| FrameCodec.FrameReader.Str | replica/raft-codec.js:179-186 | a length-prefixed text or null, or a truncation error that leaves the reader inside the body |
| FrameBodies.RequestRoundTrip | replica/raft-codec.js:115-127 | every AppendEntries that fits a frame is decoded as it was sent, missing numbers as their defaults |
| FrameBodies.ResponseRoundTrip | replica/raft-codec.js:132-146 | every response that fits a frame is decoded as it was sent: fields present or missing by their flag bits, other fields intact |
| FrameBodies.BodiesArePrefixFree | replica/raft-codec.js:188-216 | a body cut short, or with bytes behind it, is refused |
| FrameBodies.EncodeAppendEntries | replica/raft-codec.js:115-127 | the writer produces the frame of the request body, or refuses it |
| FrameBodies.DecodeAppendEntries | replica/raft-codec.js:193-216 | the reader decodes that same body format, error cases included |
| FrameBodies.EncodeAppendEntriesResponse | replica/raft-codec.js:132-146 | the writer produces the frame of the response body, or refuses it |
| FrameBodies.DecodeAppendEntriesResponse | replica/raft-codec.js:218-230 | the reader decodes that same body format, error cases included |
| HistogramBuckets.ValueInItsBucket | replica/perf-histogram.js:28-42 | every value up to 2^32 - 1 has a bucket and lies between that bucket's bounds |
| HistogramBuckets.Edges | replica/perf-histogram.js:23-26 | the first bucket starts at 0 and the last ends at 2^32 - 1 |
| HistogramBuckets.BucketsPartition | replica/perf-histogram.js:28-42 | a bucket's bounds enclose a value exactly when it is the value's bucket |
| HistogramBuckets.BucketsAreNarrow | replica/perf-histogram.js:34-42 | a bucket's upper bound exceeds any value in it by less than 1/1024 of the value |
| Histogram.RankedValue | replica/perf-histogram.js:85-99 | every rank up to the count has exactly one value, and it is one of the samples |
| Histogram.LogLinearHistogram.Record | replica/perf-histogram.js:60-70 | counts and totals are those of the samples with the rounded, clamped value added so many times, limits those of all values passed, a value recorded no times included |
| Histogram.LogLinearHistogram.Merge | replica/perf-histogram.js:72-83 | merging is recording the other's samples after one's own, also with itself |
| Histogram.LogLinearHistogram.Percentile | replica/perf-histogram.js:85-99 | the value reported at a rank is at least the true ranked value and exceeds it by less than 1/1024; at the last rank it is the exact maximum, unless a greater value was passed to be recorded no times |
| Histogram.LogLinearHistogram.FractionAbove | replica/perf-histogram.js:105-112 | the fraction of samples beyond the end of the bucket of the rounded threshold; 0 when nothing is recorded, else NaN for NaN |
| Histogram.MissedSamples | replica/perf-histogram.js:105-112 | the number of samples strictly greater is what is counted and those from the first value above the threshold to the end of the bucket of the rounded threshold |
| Histogram.AboveIsExact | replica/perf-histogram.js:105-112 | for every threshold but NaN: the count equals the number of samples strictly greater, for all samples that may have been recorded, if and only if the rounded, clamped threshold does not exceed the threshold and is the last value of its bucket |
| Histogram.AboveIsExactHere | replica/perf-histogram.js:105-112 | the same for all samples that leave the same counts, if and only if that holds of the threshold or the bucket of the rounded threshold is empty |
| Histogram.LogLinearHistogram.ToJSON | replica/perf-histogram.js:138-157 | the export tells of exactly the recorded samples, in runs of non-empty buckets, with limits only when it is not empty |
| Histogram.LogLinearHistogram.FromJSON | replica/perf-histogram.js:159-177 | reading an export back restores the counts and totals of whatever samples it tells of, from either format |

## Left out

- Membership: the voter set is fixed. `addServer`, `removeServer` and learners are not modelled, and nothing is claimed across a reconfiguration.
- RaftReads.ReadIndexIsLinearizable: assumes that callbacks fire only where they are harmless; without that it is false, and `RaftStaleRead.CallbackTestIsExact` gives the exact condition.
- RaftRepair.ReplicateToPeer: the stop-and-wait path within one leadership, every post answered. A post that throws, or an answer from a later term, ends the call with `false`. The path does not look at its leadership again after waiting, so it is not part of the runs of the safety proof.
- WatchProof.WatchIsGapFree: requires that at each poll the replica asked still buffers what the client needs; otherwise events are lost (`WatchBuffer.MissedEvents`).
- Histories.Check: histories are those a recorder can produce, with times that never go back; the budget is counted, not timed.
- HnswSearch.SearchLayer: requires ef to be at least 1, which every caller ensures.
- HnswSnapshot.AcceptedIsSound: the loader does not check degree limits or which of several top-level labels is the entry point, so neither is claimed of a loaded index.
- Histogram: values, thresholds and ranks are real numbers, with the infinities and NaN where the code tells them apart; the rounding of doubles is not modelled. Counts are unbounded, and a count of times is a natural number.
- Time: timers, timeouts and whether a leader was heard from recently are arbitrary choices. Lease reads, which are right only under clock assumptions, are not modelled.
- Pausing and resuming a replica, failpoints, metrics, entry timestamps, peer contact times and leader addresses.
- Transport: the network is a set of messages; a lost connection is an error event. HTTP, sockets and the RPC client are not modelled.
- Batch sizes in bytes appear only in `RaftNode.RaftNode.BatchCount`; a run may send any batch within the entry limit.
- Files: bytes only. Descriptors, fsync, the atomic rename and its Windows variant, and the migration from the old file format are left out. JSON text and checksums are abstract, with the facts that they can be read back and fit on a line.
- Doubles on the wire are abstract: integers up to 2^53 in size are exact, NaN stays NaN. A text longer than 4 GB or a batch of more than 2^32 entries is refused by the frame limit in the model, by a range error in the code.
- The other fields of a response are one JSON value that never names a known field. The vote messages, whose bodies are plain JSON, are left out.
- HNSW: distances are any real-valued function; quantisation, normalisation, the level hash, BM25, the query-side `search` with its fallback scan and the parameter checks of the loader are left out.
- Agents: numbers are reals; plans and effects are maps, so the order in which the source keeps them sorted is not modelled. Snapshot transitions, semantic conflicts, step advances and completion are modelled only as far as the ledger needs; that a completed execution stays completed is not claimed, because it need not. A transition for which the source throws is an answer of its own kind.
- The keyspace: vector and agent commands appear as the events they announce; the cache of results is left out.
- The Bug Museum's catalogue, traces, seeded search and statistics; the cloud and agent shrinkers.
- The register model's delete ignores the recorded result, as the source does.
