# Raft, its storage, the replicated key-value machine and the view cache, verified

This project models the parts of kill-my-cluster that decide whether the cluster keeps its
promises: the Raft implementation, the durable log and store underneath it, the key-value
machine on top of it, and the control plane's cached cluster view.

## How the model is built

* **Servers.** `NodeSpec` gives every critical section of a Raft server as a function of its
  state: the RPC handlers, the reply handlers, request building, proposals, compaction, the
  applier. `RaftNode.Server` is the object with the same fields as the program's node; each of
  its methods is proved to move exactly as the function says and to write to disk in the same
  order. `RaftLog.Log` and `Persist.Persister` are the log and disk objects it owns.
* **Runs.** `ClusterSpec` is a step system of any number of servers. A step is one critical
  section. Requests may be lost, delayed, reordered and served any number of times; a vote reply
  is returned at most once. Timers fire at any time. A server may crash at any moment, also
  between two durable writes of one critical section, and restarts from what the disk holds.
* **Why runs are safe.** No server stores history. `RunHistory.RunHasHistory` builds, beside each
  run, one history value per state (votes, leader logs, acknowledgements, commits); `History`
  states the invariant of histories, `HistorySteps` proves that ten small steps keep it, and the
  `Relation` modules prove that every critical section amounts to a few of those steps. The
  theorems about runs then speak of states of runs only.
* **What runs achieve.** `RaftCatchUp` follows one follower, `RaftService` a leader and a majority
  up to the point where their machines contain a batch of proposals, `RaftElections` a poll, an
  election and its service, `RaftSplitVote` the case in which no election follows.
* **Bytes.** `Wal`, `StoreRecord`, `RaftRecords` and `KvCommand` work on bytes with big-endian
  integers and the truncation to 32 bits written out; the checksum is an arbitrary function.
* **A snapshot** carries its bytes and, beside them, the list of entries applied when they were
  taken, which the Raft theorems speak of. `KvReplica` relates the two: along any run the bytes
  that a restore reads decode to the fold over exactly that list.

## What the code does differently from its documentation or the paper

* An election without a winner is said to be followed by one in a higher term. A candidate whose
  timer fires polls again, but answers to polls count for followers only, so it never stands again
  by itself. `RaftSplitVote.StuckExactly`: without a restart some server can reach a higher term if
  and only if not all servers stand in one and the same term.
  `RaftSplitVote.SplitVoteHappens` is a run in which two servers with granted polls do.
* A retry more than a window behind is said to be executed again. It is so only once a sweep has
  dropped it (`KvMachine.ForgetsExactly`), and not at all while there have been fewer requests than
  the high-water mark (`KvMachine.NothingForgotten`).
* The read barrier does not look at the leader's log. It is safe if no entry of an earlier term
  lies above the leader's commit index (`RaftReads.ConfirmedReadSafe`), which covers a leader that
  has caught up as well as one with an entry of its own term committed
  (`RaftReads.OwnTermIsEnough`). `RaftStaleRead.BarrierMissesOlderEntry` gives a run in which
  everything else holds and the index returned is too low, and a second run in which the leader is
  in exactly the same state and the index is not too low. So no condition on the leader's own state
  is both necessary and sufficient.
* Waiting for `lastApplied` is not waiting for the state machine: the cursor moves before the
  batch is delivered. `RaftReads.DeliveredExactly` says exactly when the two coincide,
  `RaftReads.LocalReadSees` therefore speaks of what the machine contains, and
  `RaftStaleRead.AppliedBeforeDelivered` is a run in which the cursor is ahead.
* InstallSnapshot keeps the log above the snapshot without comparing terms at the boundary,
  although its comment says that only agreeing entries are kept.
  `RaftKeptSuffix.KeptContinuesExactly` says exactly when what is kept continues the snapshot,
  `RaftKeptSuffix.SuffixKeptAcross` is a run in which it does not, and
  `RaftSafety.DisagreeingSuffixHarmless` shows that no such suffix is ever committed from. A kept
  entry need not have a term below the sentinel's, so the lemma does not assume that.
* A proposer waits for the index it was given and drops the term. The entry delivered at that index
  is the proposed one if and only if it carries the proposal's term
  (`RaftSafety.ProposalDelivered`). For any two commands `RaftKeptSuffix.AnsweredForAnother` is a
  run in which the server that took the first is handed the second at the index it is waiting for.

## Model

| member | source | states |
|---|---|---|
| `RaftSafety.StateMachineSafety` | internal/raft/node.go:1041-1321 | over every run with elections, replication, snapshots, compaction and crashes, no two state machines ever contain different entries at the same index, whether delivered as a command or inside a snapshot |
| `RaftSafety.DeliveryInOrder` | internal/raft/node.go:1282-1321 | the next thing delivered is the command of the next index, or a newer snapshot that extends what the machine contains |
| `RaftSafety.ElectionSafety` | internal/raft/node.go:719-786 | no term ever has two leaders, at any two moments of a run, across duplicated requests, step-downs, term adoption and recovery |
| `RaftSafety.LeaderCompleteness` | internal/raft/replicate.go:277-303 | whatever a leader knows committed is in the log of every leader of a later term, or, where that leader has compacted it, in the entries its durable snapshot stands for |
| `RaftSafety.LogMatchingRetained` | internal/raft/node.go:1070-1137 | two logs that hold an entry of equal index and term hold equal entries wherever both retain one up to it |
| `RaftSafety.SentinelMatches` | internal/raft/log.go:153-170 | the sentinel matches as well on a leader and on any server whose commit index is above it |
| `RaftSafety.LowSuffixHarmless` | internal/raft/node.go:1184-1200 | a server holding an entry of a term below its sentinel's has committed nothing above the sentinel and does not lead |
| `RaftSafety.DisagreeingSuffixHarmless` | internal/raft/node.go:1184-1200 | the same for any kept entry whose predecessor contradicts the snapshot, whatever its term |
| `RaftSafety.CursorChain` | internal/raft/node.go:1282-1321 | firstIndex <= snapshot index <= lastApplied <= commitIndex <= lastIndex in every reachable state, so every entry the applier reads is in the log |
| `RaftSafety.CommitMonotone` | internal/raft/node.go:1143-1147 | between restarts no step lowers a commit index |
| `RaftReads.CommitRuleExact` | internal/raft/replicate.go:277-303 | in every reachable state the descending scan commits exactly the highest own-term index that the leader and its acknowledging peers hold as a majority of the servers (section 5.4.2 of the Raft paper), or nothing if there is none |
| `RaftReads.ScanIsHighest` | internal/raft/replicate.go:280-302 | the same on any ordered log: stopping at the first entry of another term loses no candidate |
| `RelationVotes.CountIsMajority` | internal/raft/replicate.go:277-279 | the count compared against is reached exactly by the majorities of the servers |
| `RaftReads.ReadIndexSafe` | internal/raft/batch.go:142-180 | a commit index sampled by a leader with no entry of an earlier term above it, followed by a majority's confirmation, is at least every commit index any server had up to then |
| `RaftReads.ConfirmedReadSafe` | internal/raft/batch.go:195-289 | the same with the server's own count of confirming peers, for any returned index not below the sample |
| `RaftReads.OwnTermIsEnough` | internal/raft/batch.go:151-180 | on every run a leader with an entry of its own term committed has no entry of an earlier term above its commit index |
| `RaftStaleRead.BarrierMissesOlderEntry` | internal/raft/batch.go:151-180 | a run in which only that condition fails and the sampled index is below a committed one, and a run in which the leader is in the same state, confirmed as well, and no server has ever committed more than the sample |
| `RaftReads.LocalReadSees` | internal/kv/cluster.go:291-303 | once the reading machine contains as many entries as the index returned, it contains everything any machine contained at the sampling moment |
| `RaftReads.DeliveredExactly` | internal/raft/node.go:1282-1321 | in every reachable state the machine contains the entries through lastApplied if and only if nothing is queued or pending for it, and otherwise fewer |
| `RaftStaleRead.AppliedBeforeDelivered` | internal/raft/node.go:1302-1319 | a concrete run in which lastApplied is ahead of what the machine contains, so waiting for it is not enough |
| `RaftProgress.BackupDescends` | internal/raft/replicate.go:178-207 | whenever a leader processes a rejection, however late, it resumes at most at the rejected prevIndex, so the cursor strictly falls |
| `RaftBackup.ResumesExactly` | internal/raft/replicate.go:178-207 | in every run the leader resumes behind a log that was too short, else behind its own last entry of the term the follower has at the rejected index, else at the follower's first entry of that term |
| `RaftBackup.SkipsOnlyConflicts` | internal/raft/replicate.go:178-207 | nothing between the resume point and the rejected index agrees in the two logs |
| `RaftProgress.CommitLearned` | internal/raft/node.go:1143-1147 | a follower's commit index becomes as much of the leader's as the accepted request vouches for, and never falls |
| `RaftProgress.AcceptedWhenCommitted` | internal/raft/node.go:1070-1094 | a follower accepts every request of a current leader that starts within what it knows committed, such as the one after an InstallSnapshot |
| `RaftProgress.SearchesExact` | internal/raft/log.go:126-145 | in every reachable state, on every server, both binary searches by term return what a linear scan would |
| `RaftCatchUp.CatchesUp` | internal/raft/replicate.go:58-266 | from every reachable state the immediate-retry loop brings a follower up to date within a bounded number of exchanges; the follower then knows of everything the leader had committed, and the leader commits its log if that makes a majority |
| `RaftCatchUp.ExchangeShrinks` | internal/raft/replicate.go:102-266 | each exchange lowers the bound: rejections lower the cursor, a snapshot ends them, acceptances raise it; the last one passes on the commit index; nobody else is touched |
| `RaftCatchUp.CacheFresh` | internal/raft/replicate.go:213-226 | the image a leader keeps in memory is the one on its disk, so what it ships is no older than its sentinel |
| `RaftService.TeamCommits` | internal/raft/replicate.go:58-303 | from every reachable state a leader with enough followers to make a majority can commit everything it has taken, and make the commit known to all of them |
| `RaftService.Applies` | internal/raft/node.go:1282-1321 | from every reachable state the applier brings the machine to contain exactly what its server knows committed |
| `RaftService.Serves` | internal/raft/batch.go:63-100 | so any batch of proposals can be brought into the machines of all of them, at the indices given out |
| `RaftElections.VoteExact` | internal/raft/node.go:983-1035 | a vote is granted if and only if it is free in that term, the candidate's log is not behind by last term and then length, and no live leader speaks against a higher term; what it leaves behind |
| `RaftElections.VoteRepeats` | internal/raft/node.go:1004-1009 | a repeated request gets the same answer, and after a grant nobody else gets that term's vote |
| `RaftElections.PollExact` | internal/raft/node.go:962-981 | a poll changes nothing and is answered as the vote in a new term would be |
| `RaftElections.ContactSticks` | internal/raft/node.go:606-608 | after contact with a leader, recent by the clock, no poll or higher-term request gets an answer in favour or changes anything |
| `RaftElections.ResignUnsticks` | internal/raft/node.go:876-888 | a leader that resigned keeps term, vote and disk, and helps the next candidate |
| `RaftElections.Elects` | internal/raft/node.go:659-786 | from every reachable state a follower whose poll a majority grants is elected by those very servers with the same clocks |
| `RaftElections.ElectsAndServes` | internal/raft/node.go:659-786 | and can then bring any batch of proposals into all their machines |
| `RaftSplitVote.StuckForever` | internal/raft/node.go:699-705 | in every reachable state in which all servers stand in one term, they do so forever unless one restarts |
| `RaftSplitVote.StuckExactly` | internal/raft/node.go:699-726 | without a restart some server can reach a higher term if and only if not all stand in one term |
| `RaftSplitVote.SplitVoteHappens` | internal/raft/node.go:659-786 | a concrete run to that situation by two servers whose polls were granted |
| `RaftSections.RequestExact` | internal/raft/replicate.go:109-136 | in every reachable state a request carries exactly the entries from the peer's cursor on, 64 at most, none in a heartbeat |
| `RaftSections.ProposalAnswered` | internal/raft/batch.go:63-100 | a server accepts a batch if and only if it leads, and then holds it in order behind what it held |
| `RaftSections.CompactsExactly` | internal/raft/node.go:1221-1263 | in every reachable state compaction stores exactly what the machine contains and keeps exactly the configured tail of covered entries |
| `RaftSections.InstallExact` | internal/raft/node.go:1156-1210 | an old snapshot moves nothing; a newer one goes to disk, memory and machine, moves both cursors, and every entry above it stays |
| `RaftSections.TermsLearned` | internal/raft/node.go:889-901 | every reply with a higher term makes its receiver a follower of that term with a free vote |
| `RaftSections.LeaderIdRight` | internal/raft/node.go:719-724 | in every reachable state a leader names itself as leader and a candidate nobody |
| `RaftKeptSuffix.KeptContinuesExactly` | internal/raft/node.go:1176-1187 | in every run a snapshot falling inside a log keeps every entry above it, and the log below holds exactly the snapshot's entries if and only if the one entry at its index has its term |
| `RaftKeptSuffix.SuffixKeptAcross` | internal/raft/log.go:153-170 | for any payloads, a run in which a server keeps an entry above a sentinel that contradicts the entry below it |
| `RaftSafety.ProposalDelivered` | internal/kv/cluster.go:240-256 | the entry delivered at a proposal's index, anywhere and at any time, is the proposed one if and only if it carries the proposal's term |
| `RaftKeptSuffix.IndexDoesNotTell` | internal/kv/cluster.go:240-256 | for any two payloads, a run in which a leader takes the first at an index, loses the leadership, and is then handed the second as the command of that index |
| `RaftKeptSuffix.AnsweredForAnother` | internal/kv/cluster.go:188-256 | so for any two encodable commands, the bytes that reach the proposing server at the index its waiter is registered under decode to the other command |
| `RaftSafety.WritesInOrder` | internal/kv/cluster.go:231-262 | real-time order of writes: whatever any machine contained when a leader took a proposal precedes that proposal wherever it is delivered |
| `RunHistory.RunHasHistory` | internal/raft/node.go:659-1321 | every state of every run has a history satisfying the invariant, and later histories extend earlier ones |
| `HistorySteps.WinnerHolds` | internal/raft/node.go:1011-1021 | a candidate with a majority of votes holds everything that was or may yet be committed in earlier terms |
| `History.LeaderHasCommitted` | internal/raft/replicate.go:268-276 | under the invariant every leader log extends what was committed in terms up to its own |
| `RaftLog.SearchesAreScans` | internal/raft/log.go:118-145 | on real entries sorted by term both binary searches equal a scan from the respective end |
| `RaftLog.SearchSplits` | internal/raft/log.go:126-145 | on a sorted log the search point separates the entries below the term from the rest |
| `RaftLog.Log.constructor` | internal/raft/log.go:45-49 | a new log holds only the sentinel |
| `RaftLog.Log.Append` | internal/raft/log.go:103-105 | entries are added at the end |
| `RaftLog.Log.TruncateFrom` | internal/raft/log.go:110-116 | everything from the index on is dropped, the sentinel never |
| `RaftLog.Log.CompactTo` | internal/raft/log.go:153-170 | the prefix through the index is replaced by a sentinel, whatever the terms say |
| `RaftLog.Log.SortSearch` | internal/raft/log.go:126-145 | the search loop computes the recursive binary search |
| `RaftLog.Log.FirstIndexOfTerm` | internal/raft/log.go:126-133 | the first retained index of a term, equal to a scan on sorted logs |
| `RaftLog.Log.LastIndexOfTerm` | internal/raft/log.go:138-145 | the last retained index of a term, equal to a scan on sorted logs |
| `Persist.RecoveryRefines` | internal/raft/persist.go:98-317 | after any sequence of calls and a crash at any durable step of a further call, recovery returns the last durable term and vote and exactly the log above the snapshot |
| `Persist.RecoverCall` | internal/raft/persist.go:185-317 | one call interrupted after any number of its durable steps, the gap between the two renames of saveSnapshot included |
| `Persist.Persister.SaveHard` | internal/raft/persist.go:188-197 | one record with term and vote reaches the disk |
| `Persist.Persister.Append` | internal/raft/persist.go:201-215 | the records of a batch reach the disk one after the other |
| `Persist.Persister.Truncate` | internal/raft/persist.go:219-227 | one truncation marker reaches the disk |
| `Persist.Persister.Save` | internal/raft/persist.go:239-317 | the snapshot is renamed into place first, then the rewritten log |
| `Persist.Persister.Open` | internal/raft/persist.go:98-183 | the replay loop computes the recovered state |
| `RaftRecords.TornAppend` | internal/raft/persist.go:122-172 | an append cut at any byte replays to the old records and a prefix of the batch, namely those whose frames fit |
| `RaftRecords.DecodeEncode` | internal/raft/persist.go:122-156 | a record reads back as written |
| `RaftNode.Server.constructor` | internal/raft/node.go:366-408 | a server starts from what the disk recovers, as a follower, with both cursors at the snapshot |
| `RaftNode.Server.BecomeFollower` | internal/raft/node.go:893-901 | adopts a term, forgets the vote, and makes both durable |
| `RaftNode.Server.StepDown` | internal/raft/node.go:883-888 | leaves the leadership without touching term, vote or disk |
| `RaftNode.Server.BecomeLeader` | internal/raft/node.go:905-923 | every peer's cursors are reset |
| `RaftNode.Server.StartElection` | internal/raft/node.go:719-748 | a new term with a vote for itself is made durable before anyone is asked; alone it wins at once |
| `RaftNode.Server.OnVoteReply` | internal/raft/node.go:765-784 | a vote counts only for the candidacy it was asked for, and the majority's vote makes the leader |
| `RaftNode.Server.HandleRequestVote` | internal/raft/node.go:952-1035 | pre-vote, stickiness, one vote per term and the election restriction, with the vote durable before it is granted |
| `RaftNode.Server.Check` | internal/raft/node.go:1070-1094 | the consistency check and its conflict hints |
| `RaftNode.Server.Merge` | internal/raft/node.go:1096-1137 | the loop skips what is held, truncates at the first conflict and appends the rest, on disk in that order |
| `RaftNode.Server.HandleAppendEntries` | internal/raft/node.go:1041-1151 | the whole handler as the specification function, state, reply and disk writes |
| `RaftNode.Server.HandleInstallSnapshot` | internal/raft/node.go:1156-1210 | an older snapshot changes nothing; a newer one replaces the prefix and moves both cursors |
| `RaftNode.Server.CommitBatch` | internal/raft/batch.go:63-100 | a leader numbers the batch consecutively and makes it durable as one append; anyone else refuses |
| `RaftNode.Server.BuildAppend` | internal/raft/replicate.go:109-136 | the request for a peer, at most 64 entries, or none if the log no longer reaches back |
| `RaftNode.Server.BuildSnapshot` | internal/raft/replicate.go:213-233 | the image in memory or else the one on disk, kept for next time |
| `RaftNode.Server.Raise` | internal/raft/replicate.go:163-173 | match and next index only ever rise on success |
| `RaftNode.Server.CountAcks` | internal/raft/replicate.go:287-292 | counts the leader and the peers whose match index reaches the index |
| `RaftNode.Server.AdvanceCommit` | internal/raft/replicate.go:277-303 | the nested loops compute the commit scan |
| `RaftNode.Server.BackUp` | internal/raft/replicate.go:180-203 | the fast backup, never below 1 |
| `RaftNode.Server.OnAppendReply` | internal/raft/replicate.go:143-208 | the reply changes the state as specified, and says whether to go on at once |
| `RaftNode.Server.OnSnapshotReply` | internal/raft/replicate.go:242-266 | likewise for InstallSnapshot |
| `RaftNode.Server.Confirmed` | internal/raft/batch.go:195-246 | confirmed if and only if the confirming peers and the leader are more than half of the servers |
| `RaftNode.Server.FinishRead` | internal/raft/batch.go:160-180 | an index only under the same leadership, and then the later of the sample and the commit index |
| `RaftNode.Server.Trim` | internal/raft/node.go:1237-1254 | the prefix is cut but for the retained tail |
| `RaftNode.Server.Snapshot` | internal/raft/node.go:1221-1263 | compaction as specified; refused beyond what was applied, ignored if already compacted |
| `RaftNode.Server.Collect` | internal/raft/node.go:1282-1321 | a pending snapshot first, otherwise exactly the entries between the two cursors |
| `Wal.TornTail` | internal/storage/wal.go:204-271 | of any byte prefix of a framed file, exactly the payloads whose frames fit wholly come back, in order, with their total length as offset |
| `Wal.CutAndAppend` | internal/storage/wal.go:158-188 | truncating there and appending more replays to the concatenation |
| `Wal.ReplayExact` | internal/storage/wal.go:204-271 | for any bytes at all, what comes back is exactly what the bytes before the offset were written from, and replay stops only where no frame of matching length and checksum stands or its receiver refuses one |
| `Wal.LogFile.Append` | internal/storage/wal.go:99-111 | one frame is buffered |
| `Wal.LogFile.Sync` | internal/storage/wal.go:131-139 | the buffered bytes land in order |
| `Wal.LogFile.ReadBack` | internal/storage/wal.go:204-271 | the replay loop, stopping at a torn frame, a wrong checksum or a rejected payload |
| `StoreRecord.DecodeEncode` | internal/storage/record.go:91-140 | a record under 4 GiB reads back as written |
| `StoreRecord.EncodeDecode` | internal/storage/record.go:113-140 | every accepted payload is the encoding of what it decodes to |
| `StoreRecord.EncodeCommand` | internal/storage/record.go:91-103 | the buffer filled in place holds the record |
| `Store.StoreRecovers` | internal/storage/store.go:89-220 | after every history of writes, compactions, restarts and crashes at any byte of a write or stage of a compaction, the store opens and holds the fold of the commands that landed |
| `Store.ReplayOverOwnResult` | internal/storage/store.go:118-124 | replaying a log over the result of any of its own prefixes changes nothing |
| `Store.RestartChangesNothing` | internal/storage/store.go:89-168 | reopening after any history gives the same files and data |
| `Store.KvStore.Open` | internal/storage/store.go:89-168 | snapshot, then log, then truncation of the torn tail |
| `Store.OpenedExact` | internal/storage/store.go:89-168 | for any bytes at all, the commands of the whole frames at the front are applied and the rest is cut off, or opening fails because the next frame is whole and no command |
| `Store.KvStore.LogAndApply` | internal/storage/store.go:211-220 | the frame is durable before memory changes |
| `Store.KvStore.Put` | internal/storage/store.go:224-237 | one key gets the value, durably |
| `Store.KvStore.Delete` | internal/storage/store.go:241-246 | one key goes, durably |
| `Store.KvStore.Snapshot` | internal/storage/snapshot.go:35-141 | the image is renamed into place before the log is emptied |
| `KvCommand.DecodeEncode` | internal/kv/command.go:70-157 | decoding undoes encoding if and only if client, key and expected value are under 2^32 bytes |
| `KvCommand.EncodeDecode` | internal/kv/command.go:104-157 | encoding undoes decoding on every accepted payload |
| `KvCommand.EncodeCommand` | internal/kv/command.go:70-101 | the buffer filled at a moving offset holds the encoding |
| `KvCommand.DecodeCommand` | internal/kv/command.go:104-157 | parsing with a moving offset stays in bounds on every byte string and computes the decoding |
| `KvMachine.ExecuteMeans` | internal/kv/machine.go:125-177 | a command writes its value to its one target or changes nothing; a swap writes if and only if the value, empty if missing, is the expected one; results report success and the previous value, or the checkpoint stored |
| `KvMachine.ExactlyOnce` | internal/kv/machine.go:116-204 | a repeated request no more than a window behind its client's highest number returns the first result, marked, and changes nothing |
| `KvMachine.TakesEffect` | internal/kv/machine.go:116-204 | a command that repeats nothing is executed on the data and answered accordingly |
| `KvMachine.RepeatAnswered` | internal/kv/machine.go:120-127 | a repetition within the window, or before anything was forgotten, changes nothing and is answered as the first time |
| `KvMachine.DataIsPlain` | internal/kv/machine.go:116-204 | if every repetition comes in time, the data are those of a plain store that executes each request once in order of first appearance |
| `KvMachine.AnswersArePlain` | internal/kv/machine.go:116-204 | and so is every first answer |
| `KvMachine.ForgetsExactly` | internal/kv/machine.go:183-216 | a request is forgotten exactly by a new one that reaches the high-water mark at a sweep point, if more than a window behind |
| `KvMachine.NothingForgotten` | internal/kv/machine.go:60-64 | with fewer requests than the high-water mark the table holds exactly all of them |
| `KvMachine.TableBound` | internal/kv/machine.go:58-70 | with clients * (window + 1) below the high-water mark the table stays below high-water + sweep interval after every command |
| `KvMachine.TableSound` | internal/kv/machine.go:179-190 | the table holds only requests that were made, and the stored maximum is the true one |
| `KvMachine.Machine.ApplyCommand` | internal/kv/machine.go:112-192 | the exactly-once gate, the execution, the bookkeeping and the paced sweep as specified |
| `KvMachine.Machine.ExecuteCommand` | internal/kv/machine.go:125-177 | get, put, compare-and-swap, checkpoint and unknown operations |
| `KvMachine.Machine.Sweep` | internal/kv/machine.go:198-204 | whatever order the table is visited in, exactly the stale entries go |
| `KvMachine.Machine.Snapshot` | internal/kv/machine.go:257-287 | copies the whole state, changing nothing |
| `KvMachine.Machine.Restore` | internal/kv/machine.go:290-311 | the state becomes the snapshot's |
| `KvReplica.ReplicaIsFold` | internal/kv/cluster.go:160-228 | along every run each replica's machine is the plain fold of Apply over the entries it contains, after any mixture of commands, local snapshots, restores and restarts |
| `KvReplica.ReadSeesLatest` | internal/kv/cluster.go:291-303 | what a confirmed read finds in the machine is the state any machine had when the index was sampled or before, advanced by later entries only |
| `KvReplica.ReplicaAgreement` | internal/kv/cluster.go:143-228 | two machines that consumed equally many entries are equal in data, request table, maxima and count |
| `KvReplica.MachineIsRun` | internal/kv/cluster.go:175-179 | the fold over entries is the fold over their commands, so the machine's theorems hold of every replica |
| `KvReplica.ReplicaTableBound` | internal/kv/machine.go:58-70 | the table bound holds of every replica in every state of a run, after restores and restarts |
| `KvReplica.ReplicaExactlyOnce` | internal/kv/machine.go:116-204 | a replica that consumes a repeated request within the window does not change and answers with the first result, marked |
| `KvReplica.ReplicaTakesEffect` | internal/kv/cluster.go:160-209 | a replica that consumes a request it has not seen executes it |
| `KvReplica.ReplicaIsPlain` | internal/kv/cluster.go:160-209 | along every run each replica's data are those of the plain store, as long as the repetitions it consumed came in time |
| `KvReplica.KvNode.HandleApply` | internal/kv/cluster.go:160-209 | the machine stays the fold of what was delivered; an undecodable entry stops the process; Raft is handed the state exactly every so many entries |
| `KvReplica.KvNode.MaybeSnapshotAt` | internal/kv/cluster.go:213-228 | the bytes handed to Raft read back as the fold of the entries applied; none are handed over while far behind, and the next turn counts from here unless Raft refuses |
| `ViewCache.Fresh` | internal/controlplane/engine.go:434-513 | under every interleaving a call returns a view whose build began after every invalidation that preceded the call |
| `ViewCache.FreshAfterInvalidation` | internal/controlplane/engine.go:506-513 | for an invalidation, a later call and its answer: the answer was built by a thread that read its generation in a state after the invalidation, and stored it before the answer |
| `ViewCache.ServedYoung` | internal/controlplane/engine.go:390-432 | a view served from the cache was stored less than two seconds before, one handed out by a refresh less than half a second before |
| `ViewCache.LooksExact` | internal/controlplane/engine.go:434-455 | a caller is served at once if and only if the view was built after the last invalidation and stored less than two seconds ago; from half a second on a rebuild is then in flight |
| `ViewCache.RechecksExact` | internal/controlplane/engine.go:468-479 | under the build lock a view is shared if and only if it was built after the last invalidation and stored less than half a second ago; otherwise it is rebuilt |
| `ViewCache.SingleFlight` | internal/controlplane/engine.go:457-504 | builds never overlap and at most one background rebuild is in flight |
| `ViewCache.StepKeeps` | internal/controlplane/engine.go:434-513 | every critical section keeps the cache invariant |
| `ViewCache.Engine.LookIn` | internal/controlplane/engine.go:434-455 | serve, serve and rebuild, or wait; a rebuild is started only if none runs |
| `ViewCache.Engine.Recheck` | internal/controlplane/engine.go:468-479 | under the build lock a young view is shared, otherwise the generation is read |
| `ViewCache.Engine.StoreView` | internal/controlplane/engine.go:493-503 | a view counts as young only if the generation has not moved |
| `ViewCache.Engine.EndBackground` | internal/controlplane/engine.go:457-464 | the flag is cleared and nothing else changes |
| `ViewCache.Engine.Invalidate` | internal/controlplane/engine.go:508-513 | no view counts as young afterwards, whatever the clock says |

## Left out

- gRPC, protobuf and gob: messages and images are values, serialisation is taken to lose nothing.
- Clocks: the read lease, stickiness windows, election backoff, CheckQuorum and the stall watchdog appear only through what they do (refuse, or step down without changing term or vote), at any moment.
- The asking side of pre-vote polls: a follower's candidacy may begin at any time, and a poll's answer may report any term some server has reached, which includes all the program does. What a poll is answered, and that it foretells the vote, is proved.
- Election liveness, and progress of a single-server cluster: the program does not guarantee them. `RaftElections.Elects` and `RaftService.Serves` say that there is a way, not that it is taken.
- Failed disk writes: a write that fails is a crash. The program's error branches can leave memory and disk out of step.
- Overflow of terms, indices, the cache generation and the uint64 counters of the log: they are unbounded here. The request numbers and the apply counter of the machine do wrap.
- The table of waiters and `recent` results: what may be answered at an index is settled by `RaftSafety.ProposalDelivered` and `RaftKeptSuffix.AnsweredForAnother`.
- Watchers of the machine and telemetry: they do not feed back into the state.
- CRC32C itself: the checksum is an arbitrary function.
- Records of 4 GiB and more in the store: the frame header cannot express them.
- The rest of the control plane (Docker, chaos, healing, rate limits, events), the load generator and the web pages.
- RaftCatchUp.CatchesUp: speaks of exchanges with nothing in between; with other traffic in between `RaftProgress.BackupDescends` holds on its own.
- RaftReads.LocalReadSees: that the machine contains the entries is a hypothesis, because the program waits for lastApplied only.
- KvReplica.ReadSeesLatest: rests on the same hypothesis, and on the one of RaftReads.ConfirmedReadSafe.
- RaftReads.ConfirmedReadSafe: that no entry of an earlier term lies above the commit index is a hypothesis, because the program does not check it.
- Persist.RecoveryRefines: calls are those a server makes (consecutive appends, truncation above the snapshot, a snapshot no older than the last), which the run-level invariant establishes for every server.
- KvReplica.ReplicaIsFold: that the bytes a server hands to Raft read back as the state its machine then had is a hypothesis on the serialisation.
- Store.StoreRecovers: a command interrupted by a crash counts as landed if its whole frame reached the disk, although it was not acknowledged.
- ViewCache.Fresh: the content of a view is arbitrary; only when its build began is tracked.
