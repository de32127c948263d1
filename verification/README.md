# Multi-Raft, modelled and proved

A Dafny model of the parts of Multi-Raft that are hard to get right, with proofs about every
input, every run or every reachable state. `dafny verify dfyconfig.toml` checks all of it.

Five components are modelled.

**The linearizability checker** (`src/porcupine`). A history of overlapping operations is
linearizable when some order of them respects real time and is accepted by a sequential
specification. The checker searches for such an order along a doubly linked list of calls and
returns, lifting out what it has placed and putting it back when it gives up, with a table of
configurations already tried. `Linearizability` says what the verdict means, `Backtracking` is the
search without its pointers, `LinkedHistory`, `Entries` and `Bitsets` are its data structures, and
`Checker.CheckSingle` is the search itself, on the heap, proved to halt and to decide
linearizability. `TimedHistories` is the way from timed operations to entries, and `KvModel` proves
that checking a key/value history key by key decides linearizability of the whole store.

**The Raft peer** (`src/raft`). `RaftPeer` has each handler as a function on a peer, and `RaftNode`
has the same handlers as methods that update the fields of an object, proved equal to them. A peer's
log is written out in full, with the index up to which a snapshot has replaced it. `RaftSystem` puts
peers and a set of messages together: messages may be lost, delayed, reordered and repeated, except
that a candidate calls each peer once per term and gets at most one reply to each call; peers
may time out, crash, restart from disk and cut their logs at any moment. `RaftAbstract` and
`RaftCompleteness` keep a record beside it of which log each leader ever had and who voted for what;
the invariants are about that record. `RaftOrdered` adds that requests are handled in the order sent,
`RaftRuns` states what holds in all runs, and `RaftUnordered` has a run that goes wrong. A second
implementation of the peer (`src/raft/node.go`) differs in a few branches; the parameter `impl` of
the handlers selects between the two, and the run properties hold for both, except that only the
first restarts from its disk (see `RaftLimits.NodeRestartForgets`). `RaftElections` has what is left
when the second one restarts and loses its log.

**The sharded store** (`src/shardkv`). Each replica group is the state machine of its committed log
(`ShardState`). `ShardWorld` puts all groups together over one sequence of configurations: leaders
act on any committed state of their group, past or present, and what they propose may be committed
at any later time, any number of times. `ShardInvariant` proves the invariant, `ShardRuns` and
`ShardClients` what it gives for whole runs. `ShardReturns` and `ShardLimits` find the exact sequences
of configurations the store copes with. `ShardBatches` proves over all sequences that shards moved
together stay together, `ShardProgress` that migration never gets stuck. `ShardServer` is the server object that does the same updates in place.

**The shard controller** (`src/shardctrler`). `Controller` is the allocation of shards to groups,
`ControllerRuns` what all histories of joins, leaves and moves keep, `ControllerServer` the state
machine object with its loops, whose list of configurations is always such a history. `ShardedStore` combines it with the store.

**The replicated key/value server** (`src/kvraft`). `KvServer` is its apply loop with the table of
past writes, snapshots and restarts, and the clients that wait for a success.

## Results

- The checker answers true exactly when the history is linearizable; it halts on every history; the
  partial orders it reports are sound, and on a negative verdict as long as any
  (`Checker.CheckSingle`, `KvModel.CheckOperations`).
- No term has two leaders, even if peers lose their logs in a restart (`RaftElections`); logs that
  agree on a term at an index agree up to it; what one peer has committed is in the log of every later
  leader, and no index ever holds two committed commands (`RaftRuns`). The last two need that a peer handles one leader's requests in the order sent.
  `RaftLimits.OrderMatters` says exactly when a request out of order makes a peer forget what it
  has acknowledged, and `RaftUnordered.CommittedEntryLost` is a run of three peers in which that makes
  a later leader commit another entry over a committed one.
- No two groups ever serve a shard; a new owner starts with exactly what the old one froze; no write
  takes effect twice, whichever groups it reaches (`ShardRuns`). When clients wait for each write, one
  that is turned away as a duplicate has itself taken effect (`ShardClients`).
- Single ownership, contents, hand-off, reads and at-most-once hold as long as a shard that has been left to
  nobody is next given back to the group that had it (`ShardReturns`), and otherwise a run loses a write
  (`ShardLimits.SoundExactlyWhen`). The controller can bring that about by letting the last group leave
  (`ShardedStore.EmptiedLosesWrites`).
- Over any configurations, the shards that move from one group to another have one status at either end, come
  in together and are dropped together, in whatever order a server visits them (`ShardBatches`). Migration
  never gets stuck: from every reachable state, in the middle of any number of migrations, all groups can reach
  any configuration none of them has passed, and settle in it (`ShardProgress.NeverStuck`).
- Every history of the controller gives every shard to a registered group, evenly unless one was moved
  by hand since the latest join; joining moves as few shards as any even assignment could, also after
  moves by hand (`ControllerRuns`).
- The writes that take effect at the key/value server are the distinct writes, once each, in the order
  of first commits, exactly when clients' fresh writes are committed in the order they are numbered
  (`KvServer.OnceEach`), which clients that wait for each write bring about (`KvServer.WaitingClients`);
  repeated delivery, snapshots and restarts change nothing (`KvServer.StreamConsistent`).

## Model

| member | source | states |
|---|---|---|
| Linearizability.LinearizationIsPartial | src/porcupine/checker.go:190-213 | every linearization can be placed one enabled operation after the other, each accepted by the model, so a search over enabled calls misses none |
| Linearizability.FullPartialIsLinearization | src/porcupine/checker.go:244-252 | placing all operations one enabled call after the other yields an order of all of them that respects real time and passes every step |
| Backtracking.Skip | src/porcupine/checker.go:208-213 | passing over a refused or already cached call keeps the search invariant |
| Backtracking.Push | src/porcupine/checker.go:198-207 | entering a fresh configuration keeps the search invariant |
| Backtracking.PushProgress | src/porcupine/checker.go:200-207 | every push uses up one of the finitely many reachable pairs of linearized set and state, the outer part of the termination measure |
| Backtracking.Pop | src/porcupine/checker.go:235-241 | leaving an exhausted configuration keeps the invariant and resumes behind the call it descended through |
| Backtracking.ExhaustedCovers | src/porcupine/checker.go:145-152 | when the search is exhausted, every partial linearization leads to a configuration in the cache: pruning loses none |
| Backtracking.ExhaustedRefutes | src/porcupine/checker.go:215-217 | a return under the scan of an empty stack means that the history is not linearizable |
| Backtracking.CompleteProves | src/porcupine/checker.go:244-252 | a stack holding all operations is a linearization |
| Backtracking.ExhaustedMaximal | src/porcupine/checker.go:219-234 | on exhaustion, the sequence recorded for an operation is as long as any valid partial linearization containing it |
| LinkedHistory.RemoveThreads | src/porcupine/checker.go:159-167 | bypassing an entry leaves a list through exactly the remaining positions, both ways |
| LinkedHistory.InsertUndoesRemove | src/porcupine/checker.go:169-177 | pointing back at a bypassed entry restores every pointer |
| LinkedHistory.LiftedThreads | src/porcupine/checker.go:159-167 | lifting a call and its return leaves the list of the others, also when the two are neighbours |
| LinkedHistory.Lift | src/porcupine/checker.go:159-167 | the pointers after the method are those of the list without the pair |
| LinkedHistory.Unlift | src/porcupine/checker.go:169-177 | the pointers after the method are those before the matching lift |
| Entries.OperationsDescribe | src/porcupine/checker.go:121-138 | the operations read off a complete history have their call and return exactly where the entries are |
| Entries.InsertBefore | src/porcupine/checker.go:70-81 | the new node stands before the mark, linked both ways |
| Entries.MakeLinkedEntries | src/porcupine/checker.go:121-138 | the list holds one node per entry, in order, each call with its own return as match |
| Bitsets.NewBitset | src/porcupine/bitset.go:10-17 | enough words for the bits, and no member |
| Bitsets.Set | src/porcupine/bitset.go:29-33 | adds exactly one member |
| Bitsets.Clear | src/porcupine/bitset.go:35-39 | removes exactly one member |
| Bitsets.Clone | src/porcupine/bitset.go:19-23 | a new array with the same words |
| Bitsets.SetBit | src/porcupine/bitset.go:29-33 | the array holds the set with the member added |
| Bitsets.ClearBit | src/porcupine/bitset.go:35-39 | the array holds the set with the member removed |
| Bitsets.SameMembers | src/porcupine/bitset.go:62-72 | bitsets of one length with the same members are the same words |
| Bitsets.ComputeHash | src/porcupine/bitset.go:46-60 | the loop folds the words into the population count |
| Bitsets.Equals | src/porcupine/bitset.go:62-72 | word by word comparison decides equality of the sets |
| Checker.BucketComplete | src/porcupine/checker.go:145-152 | whatever matches an entry is in the bucket of its hash |
| Checker.CacheContains | src/porcupine/checker.go:145-152 | true exactly when a configuration with the same set and an equal state is cached |
| Checker.CacheAddHolds | src/porcupine/checker.go:201-202 | filing an entry adds exactly its configuration to the table |
| Checker.Descend | src/porcupine/checker.go:203-207 | the list becomes the history without the operations on the longer stack, and can be undone step by step |
| Checker.Ascend | src/porcupine/checker.go:235-241 | the list becomes the history without the operations on the shorter stack |
| Checker.ScanNext | src/porcupine/checker.go:209-212 | from a call the scan moves to the next outstanding entry and passes no enabled call |
| Checker.ScanHere | src/porcupine/checker.go:194-214 | the entry under the scan is an enabled call, or a return behind which nothing is enabled |
| Checker.RecordLongest | src/porcupine/checker.go:219-234 | records the stack for exactly the operations on it that have no longer sequence yet |
| Checker.TryCall | src/porcupine/checker.go:194-213 | linearizes the call under the scan exactly when the model accepts it and the outcome is new, and keeps all invariants of the loop |
| Checker.Leave | src/porcupine/checker.go:214-242 | takes the last call back, with its state, its bit and its pointers, and keeps all invariants of the loop |
| Checker.CheckSingle | src/porcupine/checker.go:179-253 | the verdict is linearizability of the history; every sequence in the result replays from the initial state; on a negative verdict each is as long as any partial linearization with its operation; the loop halts |
| TimedHistories.SortedIsWellFormed | src/porcupine/checker.go:39-60 | any arrangement of the entries sorted by time, calls first, is a complete history |
| TimedHistories.SortedSameHistory | src/porcupine/checker.go:39-60 | sorting keeps the real-time order of the operations |
| TimedHistories.SameLinearizable | src/porcupine/checker.go:39-60 | histories with the same operations and the same real-time order are linearizable alike |
| TimedHistories.MakeEntries | src/porcupine/checker.go:48-60 | the entries are a complete history that is linearizable exactly when the timed operations are |
| KvModel.StepIsLocal | src/models/kv.go:40-54 | a step on the whole store touches one key, as the single-key step does, and no other |
| KvModel.Locality | src/models/kv.go:18-54 | a history is linearizable against one map of all keys exactly when each key's sub-history is linearizable against the single-key step |
| KvModel.Partition | src/models/kv.go:18-34 | the parts are the sub-histories of exactly the keys that occur, each key once, in the order of the keys |
| KvModel.CheckOperations | src/porcupine/checker.go:365-373 | the conjunction of the verdicts on the parts is linearizability of the whole history |
| CommitIndex.MiddleIsMajority | src/raft/raft_replication.go:112-119 | the middle element of any sorted arrangement of the match indexes is the greatest index a strict majority holds |
| CommitIndex.MajorityIndex | src/raft/raft_replication.go:112-119 | is held by a strict majority, and nothing greater is |
| CommitIndex.ComputeMajorityIndex | src/raft/node.go:665-678 | sorting a copy in place by exchanges and picking the middle gives that index |
| CommitIndex.CommitMeetsVotes | src/raft/raft_election.go:157-157 | the majority behind the commit index shares a peer with any majority of voters |
| RaftAbstract.QuorumsMeet | src/raft/raft_election.go:157-157 | two majorities share a peer |
| RaftNode.RaftLog.Size | src/raft/raft_log.go:65-67 | the length of the whole log |
| RaftNode.RaftLog.At | src/raft/raft_log.go:69-79 | the entry of the whole log at that index |
| RaftNode.RaftLog.Last | src/raft/raft_log.go:81-86 | index and term of the last entry of the whole log |
| RaftNode.RaftLog.FirstFor | src/raft/raft_log.go:89-98 | the scan finds the first index of the term, giving up at a greater term |
| RaftNode.RaftLog.Tail | src/raft/raft_log.go:100-109 | the whole log from that index on |
| RaftNode.RaftLog.Append | src/raft/raft_log.go:111-113 | the whole log with the entry added |
| RaftNode.RaftLog.AppendFrom | src/raft/raft_log.go:115-118 | the whole log cut after the given index, with the entries added |
| RaftNode.RaftLog.DoSnapshot | src/raft/raft_log.go:137-154 | the whole log is unchanged, only less of it is kept |
| RaftNode.Raft.Persist | src/raft/raft_persistence.go:20-38 | the disk holds term, vote, log and snapshot index |
| RaftNode.Raft.Restart | src/raft/raft_persistence.go:40-85 | what a peer started again is, from its disk alone |
| RaftNode.Raft.BecomeFollower | src/raft/raft.go:106-122 | the new peer, including when it is written to disk |
| RaftNode.Raft.BecomeCandidate | src/raft/raft.go:124-135 | the new peer, with its own vote counted and on disk |
| RaftNode.Raft.BecomeLeader | src/raft/raft.go:137-149 | the new peer, with the index arrays filled by the loop |
| RaftNode.Raft.IsMoreUpToDate | src/raft/raft_election.go:20-28 | the comparison of last terms, then of last indexes |
| RaftNode.Raft.RequestVote | src/raft/raft_election.go:58-93 | the new peer and the reply, all branches |
| RaftNode.Raft.AppendEntries | src/raft/raft_replication.go:47-105 | the new peer and the reply, all branches |
| RaftNode.Raft.Start | src/raft/raft.go:178-195 | the new peer, and where the command went |
| RaftNode.Raft.Snapshot | src/raft/raft_compaction.go:9-23 | the new peer: a snapshot beyond the commit index or at most the last one is ignored |
| RaftNode.Raft.ContextLost | src/raft/raft.go:215-217 | true exactly when role or term have changed |
| RaftNode.Raft.HandleVoteReply | src/raft/raft_election.go:142-161 | the new peer, including when it wins |
| RaftNode.Raft.BackUp | src/raft/raft_replication.go:149-165 | the next index to probe |
| RaftNode.Raft.UpdateCommit | src/raft/raft_replication.go:182-188 | the commit index moves exactly to a majority index of the leader's own term |
| RaftNode.Raft.HandleAppendReply | src/raft/raft_replication.go:135-188 | the new peer, all branches |
| RaftNode.Raft.StartReplication | src/raft/raft_replication.go:191-233 | the requests sent are, for each peer in turn, the whole log from its next index on, or none where a snapshot is due |
| RaftAbstract.InvKept | src/raft/raft_election.go:58-93 | every step of elections and logs keeps the record: one winner per term with a majority of votes, leaders' logs only grow, logs are made of prefixes of leaders' logs |
| RaftSystem.SysKept | src/raft/raft_replication.go:47-188 | every event of the cluster, with all its messages, is a sequence of such steps and keeps the invariant that ties peers, disks and messages to the record |
| RaftCompleteness.SafeKept | src/raft/raft_replication.go:179-188 | every step with acknowledgements in order keeps leader completeness: what may still be chosen is in every later leader's log |
| RaftCompleteness.LeaderCompleteness | src/raft/raft_replication.go:179-188 | an entry that a majority has acknowledged in its own term is in the log of every leader of a later term |
| RaftCompleteness.CommittedAgree | src/raft/raft_replication.go:179-188 | of two committed prefixes one is a prefix of the other |
| RaftOrdered.AcceptCommit | src/raft/raft_replication.go:98-103 | a follower that takes over a request and its commit index commits only what was chosen |
| RaftOrdered.SafeSysKept | src/raft/raft_replication.go:47-188 | every event handled in turn keeps the safety invariant of peers and messages |
| RaftRuns.ElectionSafety | src/raft/raft_election.go:58-188 | in every run no term has two leaders, not even at different times |
| RaftElections.ForgetfulElectionSafety | src/raft/node.go:112-130 | the same in runs in which peers start again at any moment and keep only term, vote and snapshot, as the second implementation does |
| RaftRuns.VotesCounted | src/raft/raft_election.go:127-161 | because a candidate calls each peer once and takes one reply per call, its counter is the number of distinct peers counted, each of which has that vote on its disk while it is in the term |
| RaftRuns.LogsMatch | src/raft/node.go:221-281 | in every run, logs of any two peers at any two times that agree on the term at an index agree up to it |
| RaftRuns.AcceptedIsPrefix | src/raft/raft_log.go:115-118 | a peer that accepts a request, however late, then has exactly the log that the leader of the request's term had at some earlier moment, when it sent it |
| RaftRuns.LeadersComplete | src/raft/raft_replication.go:47-105 | in every run with requests handled in order, what a peer has committed is in the log of every leader of its term or a later one |
| RaftRuns.StateMachineSafety | src/raft/raft_replication.go:98-103 | in such runs, of what any two peers have committed at any two times one is a prefix of the other |
| RaftBackUp.FirstForCases | src/raft/raft_log.go:89-98 | in a sorted log the scan finds the first entry of a term that occurs, and nothing for one that does not |
| RaftBackUp.BackUpProgress | src/raft/raft_replication.go:149-165 | for uncompacted logs, every rejection of the current probe strictly lowers the next index and keeps it at least 1 |
| RaftBackUp.ProbesMatch | src/raft/raft_replication.go:72-90 | a peer is matched after at most as many probes as the next index |
| RaftIndexes.LookupsInside | src/raft/raft_replication.go:179-226 | in every run, the entries that probes and the commit rule look up exist |
| RaftIndexes.RunBacksUp | src/raft/raft_replication.go:149-165 | back-up makes progress in every state of every run, for uncompacted logs |
| RaftLimits.OrderMatters | src/raft/raft_log.go:115-118 | a later request of the same leader keeps what an earlier one brought if and only if it reaches as far |
| RaftUnordered.CommittedEntryLost | src/raft/raft_log.go:115-118 | a run of three peers in which one request overtakes another ends with a leader that lacks an entry another peer has committed, and that has committed a different one at its index |
| RaftLimits.NodeRestartForgets | src/raft/node.go:112-130 | the second implementation finds its log again after a restart if and only if the log ended with the snapshot; term and vote always |
| ShardState.MergeAll | src/shardkv/conf_change.go:81-93 | when all shards of a reply are awaited, taking them one by one, in any order, takes all of them in and touches no other |
| ShardState.CleanAll | src/shardkv/conf_change.go:108-117 | when all shards of a request have one status, cleaning them one by one cleans all of them and touches no other |
| ShardState.MergeCovers | src/shardkv/conf_change.go:95-101 | the merged table turns away whatever either table turned away |
| ShardServer.ShardKV.MatchGroup | src/shardkv/server.go:78-82 | true exactly when the group serves the key's shard |
| ShardServer.ShardKV.ApplyToStateMachine | src/shardkv/server.go:235-247 | changes one shard, and the answer |
| ShardServer.ShardKV.ApplyClientOperation | src/shardkv/task.go:220-239 | the new group state and the answer, all branches |
| ShardServer.ShardKV.ApplyNewConfig | src/shardkv/conf_change.go:54-77 | the new group state, statuses set by the loop |
| ShardServer.ShardKV.TakeShards | src/shardkv/conf_change.go:81-93 | the shards after the loop are those of taking them in some order of the reply, up to the first that is not awaited |
| ShardServer.ShardKV.MergeTable | src/shardkv/conf_change.go:95-101 | the merged table, in whatever order the entries come |
| ShardServer.ShardKV.ApplyShardMigration | src/shardkv/conf_change.go:79-104 | the new group state, for some order of the reply |
| ShardServer.ShardKV.ApplyShardGC | src/shardkv/conf_change.go:106-120 | the new group state |
| ShardServer.ShardKV.GetShardByStatus | src/shardkv/task.go:150-165 | for every former group but nobody, exactly its shards with that status |
| ShardServer.ShardKV.GetShardsData | src/shardkv/task.go:168-197 | nothing while the configuration is behind, otherwise the shards and the table |
| ShardServer.ShardKV.NeedFetch | src/shardkv/task.go:60-70 | true exactly when all shards are normal |
| ShardInvariant.WorldKept | src/shardkv/task.go:55-218 | every step of every group, from any past state, keeps the invariant over all groups: turns, contents, tables, batches, and everything proposed |
| ShardRuns.SingleOwner | src/shardkv/server.go:78-82 | in every run, over configurations that leave no assigned shard to nobody again, at most one group serves a shard at any time |
| ShardRuns.HandOff | src/shardkv/conf_change.go:79-93 | a group that takes a shard in has exactly the contents the old owner has been keeping since it let go, which are those of all writes to the shard |
| ShardRuns.ReadsLatest | src/shardkv/task.go:220-239 | whichever group answers a read, it answers as one store with every write applied once |
| ShardRuns.AtMostOnce | src/shardkv/task.go:220-239 | no write takes effect twice anywhere |
| ShardRuns.ServersKnow | src/shardkv/conf_change.go:95-101 | whoever serves a shard turns away every write that ever took effect on it, in any group |
| ShardBatches.BatchesKept | src/shardkv/task.go:55-218 | every step of every group, from any past state, over any configurations, keeps this: shards that move together have one status, proposals are about whole batches, and a group has finished with a shard it took over only when its former owner has dropped its copy or moved on |
| ShardBatches.MoveTogether | src/shardkv/conf_change.go:57-70 | in every committed state of every group, in every run, a shard that is not normal is moving to the group or from it, and all that move between the same two groups have the same status |
| ShardBatches.OrderIrrelevant | src/shardkv/conf_change.go:79-101 | in every run, servers that visit a reply in different orders end in the same state: the batch comes in whole, laid over what the group had, or not at all |
| ShardBatches.CleanUpWhole | src/shardkv/conf_change.go:106-120 | in every run, a clean-up covers its whole batch or nothing of it |
| ShardBatches.AnsweredIsDropped | src/shardkv/task.go:199-218 | in every run, once a request to drop shards has been applied by the group that had them, it keeps none of them or has moved on, so the answer means what the asking group takes it to mean |
| ShardClients.NothingLost | src/shardkv/client.go:111-154 | over any configurations, with clients that use a number for one write and send write k+1 only after write k has taken effect, a write that any committed state of any group turns away as a duplicate has itself taken effect |
| ShardReturns.StepRaised | src/shardkv/conf_change.go:57-70 | over configurations that hand a shard left to nobody back to its last group, every step is a step of the store in which that group had never lost it, or no step at all |
| ShardReturns.ReturnKept | src/shardkv/conf_change.go:57-70 | so every step keeps the invariant that this other store satisfies |
| ShardReturns.FaithfulOwner | src/shardkv/server.go:78-82 | at most one group serves a shard, over all such configurations |
| ShardReturns.FaithfulHandOff | src/shardkv/conf_change.go:79-93 | a group that takes a shard in has exactly the contents the old owner has been keeping since it let go, which are those of all writes to the shard, over all such configurations |
| ShardReturns.FaithfulHolds | src/shardkv/conf_change.go:57-70 | whoever serves a shard holds the contents of all writes to it and turns all of them away, over all such configurations |
| ShardReturns.FaithfulReads | src/shardkv/task.go:220-239 | whichever group answers a read, it answers as one store with every write applied once, over all such configurations |
| ShardReturns.FaithfulOnce | src/shardkv/task.go:220-239 | no write takes effect twice anywhere, over all such configurations |
| ShardReturns.NoReturnFaithful | src/shardkv/conf_change.go:57-70 | configurations that leave no assigned shard to nobody again are among them |
| ShardProgress.NeverStuck | src/shardkv/task.go:55-148 | over any configurations, from every reachable state, in the middle of any number of migrations, and for every configuration no group has passed, a state with all groups settled in it can be reached by the tasks alone |
| ShardLimits.SoundExactlyWhen | src/shardkv/conf_change.go:57-70 | servers hold the contents of all writes in every run if and only if every shard left to nobody is next given back to the group that had it |
| ShardLimits.Breach | src/shardkv/conf_change.go:57-63 | otherwise a run is constructed in which a group serves a shard without a write that took effect on it |
| Controller.Balance | src/shardctrler/state_machine.go:77-87 | halts; every shard stays in exactly one list; the result is even |
| Controller.JoinBalances | src/shardctrler/state_machine.go:23-100 | joining balances any settled configuration if and only if there is a group; without one it gives all shards to the group number -1 |
| Controller.LeaveSettled | src/shardctrler/state_machine.go:102-155 | after leaving every shard has an owner among the remaining groups, or nobody when none is left, and no shard of a remaining group has moved |
| Controller.LeaveBalanced | src/shardctrler/state_machine.go:135-149 | leaving keeps a balanced configuration balanced |
| ControllerRuns.JoinMovesFewest | src/shardctrler/state_machine.go:53-97 | joining any settled configuration, also after moves by hand, moves no more shards than any other even assignment |
| ControllerRuns.JoinMovesToNew | src/shardctrler/state_machine.go:53-97 | joining a balanced configuration moves shards only to groups that are new |
| ControllerRuns.EveryHistory | src/shardctrler/state_machine.go:23-170 | in every history of sensible requests from configuration 0, configurations are numbered by position and settled, and balanced unless a shard was moved by hand since the latest join |
| ControllerServer.SortedGids | src/shardctrler/state_machine.go:189-193 | the groups in ascending order, whatever order the map is iterated in |
| ControllerServer.GidWithMaxShards | src/shardctrler/state_machine.go:182-202 | nobody while it has shards, else the smallest group number among those with most shards |
| ControllerServer.GidWithMinShards | src/shardctrler/state_machine.go:204-218 | the smallest group number among those with fewest shards, -1 when there is none |
| ControllerServer.GidToShards | src/shardctrler/state_machine.go:53-59 | for every group the ascending list of its shards |
| ControllerServer.Rebalance | src/shardctrler/state_machine.go:77-87 | the loop halts with the balanced table |
| ControllerServer.ToShards | src/shardctrler/state_machine.go:90-95 | the assignment the table describes, in whatever order it is read |
| ControllerServer.AddGroups | src/shardctrler/state_machine.go:34-40 | adds the groups that are not registered yet |
| ControllerServer.Release | src/shardctrler/state_machine.go:121-133 | removes the groups and collects their shards in order |
| ControllerServer.Redistribute | src/shardctrler/state_machine.go:138-141 | gives every collected shard to a smallest group |
| ControllerServer.CtrlerStateMachine.Query | src/shardctrler/state_machine.go:15-20 | the configuration of that number, or the latest |
| ControllerServer.CtrlerStateMachine.Join | src/shardctrler/state_machine.go:23-100 | for any request and any earlier ones, the list of configurations stays the history of the requests, now with this one, and no earlier configuration changes |
| ControllerServer.CtrlerStateMachine.Leave | src/shardctrler/state_machine.go:102-155 | the same, also for groups that are not registered |
| ControllerServer.CtrlerStateMachine.Move | src/shardctrler/state_machine.go:157-170 | the same, also to a group that is not registered |
| ControllerServer.ServersAgree | src/shardctrler/state_machine.go:182-218 | two servers that have applied the same requests, sensible or not, have the same configurations, in whatever order each goes through its maps |
| ShardedStore.NoReturnExactlyWhen | src/shardctrler/state_machine.go:135-152 | the controller leaves no assigned shard to nobody again if and only if some group stays registered once there was one |
| ShardedStore.HistoryKeepsStore | src/shardctrler/state_machine.go:23-155 | over every such history of the controller the store is sound in every run |
| ShardedStore.EmptiedLosesWrites | src/shardctrler/state_machine.go:135-152 | when the only group leaves and another one joins, it is not |
| KvServer.TableIsGreatest | src/kvraft/server.go:194-199 | the table holds, for every client that has written, its greatest number and a success |
| KvServer.EffectiveIsNewest | src/kvraft/server.go:60-63 | a write takes effect exactly when all earlier writes of its client have smaller numbers |
| KvServer.OnceEach | src/kvraft/server.go:173-222 | the writes that take effect are the distinct writes in the order of first commits if and only if clients' fresh writes are committed in the order of their numbers |
| KvServer.DeduplicatedReplay | src/kvraft/server.go:173-222 | for such logs the apply loop ends in the map that the distinct writes, once each, make |
| KvServer.Replies | src/kvraft/server.go:186-200 | for such logs a read is answered from the distinct writes before it, and every write, first or repeated, with success |
| KvServer.OutOfOrder | src/kvraft/server.go:60-63 | two numbers committed in reverse lose a write |
| KvServer.WaitingClients | src/kvraft/client.go:70-92 | clients that use a number for one write and go on to the next only after a success make such logs, however often and in whatever order their requests are committed, and each of their committed writes takes effect exactly once, at its first commit |
| KvServer.AgainIsNothing | src/kvraft/server.go:60-63 | applying an entry again changes nothing |
| KvServer.StreamConsistent | src/kvraft/server.go:173-222 | however commands are delivered again, snapshots installed and the server restarted, it holds what a plain pass over a prefix of the log holds |
| KvServer.SnapshotThenRest | src/kvraft/server.go:249-272 | restoring the snapshot of any prefix and applying the rest gives the state of the whole log |
| KvServer.KVServer.ApplyToStateMachine | src/kvraft/server.go:224-236 | the new map and the answer |
| KvServer.KVServer.ApplyCommand | src/kvraft/server.go:177-200 | the new state and the reply, none for an entry already applied |
| KvServer.KVServer.ApplyTask | src/kvraft/server.go:173-222 | the state after a stream of messages |

## Left out

- Installing snapshots on other peers (`src/raft/raft_log.go:156-174`, `src/raft/raft_compaction.go:48-114`): the
  installed log keeps its tail without comparing terms, so the cross-peer results are about runs without it. Cutting
  one's own log is in the model.
- Log durability of the second peer implementation: it restarts from its snapshot alone, so crashes in runs are those
  of the first one; `RaftLimits.NodeRestartForgets` says what is lost, and only election safety is proved for runs with it.
- Delivery of committed entries to the services (`src/raft/raft_application.go`), notification channels, time-outs:
  what is proved about the services is proved over committed logs, in which requests may be repeated.
- RaftRuns.LeadersComplete: requires that a peer handles one leader's requests in the order sent, because appending cuts
  the log unconditionally; `RaftUnordered.CommittedEntryLost` shows a run in which it fails without.
- RaftRuns.StateMachineSafety: requires the same, for the same reason.
- RaftBackUp.BackUpProgress: is about uncompacted logs; a follower that has cut its log past the probe answers with its
  snapshot index, and the leader's counterpart is the installation of a snapshot.
- Goroutines, the kill flag, time-outs and incomplete histories of the checker, its event form
  (`src/porcupine/checker.go:92-119, 355-363`) and the visualization; only the conjunction over partitions is modelled.
- Checker.CheckSingle: keeps its set of linearized operations as a value; the in-place methods on arrays stand beside it
  in Bitsets, and the sharing that the clone before a set avoids is not modelled.
- ControllerRuns.EveryHistory: group numbers are positive, some group is registered whenever there is a join, and shards
  are moved by hand only to registered groups; `ControllerServer` has all requests.
- ShardRuns.HandOff: is stated for configurations that leave no assigned shard to nobody again, as are the other
  results of ShardRuns; ShardReturns and ShardLimits have ownership, contents, hand-off, reads and at-most-once
  over all configurations the store copes with, and that there are no others.
- Keys of the sharded store are sequences of bytes; a shard is chosen by the first byte.
- Encoding of snapshots and persisted state: a snapshot is the value that was encoded.
- Network, storage, RPC and encoding libraries, test set-ups and tools: input and output.
- Timers are steps that may happen at any moment.
