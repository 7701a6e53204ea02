# Verified models of a distributed-systems code base

A Dafny model, with proofs, of the four parts of the repository that carry hard guarantees:

- **Versioned key/value store** (`src/kvsrv1`, `src/models1`, `src/kvtest1`): the server with
  conditional Puts, the clerk that resends until it is answered, the lock and the append clients built on
  it, and the sequential specification that histories are checked against.
- **MapReduce** (`src/mr`, `src/main/mrsequential.go`): the coordinator's task tables with timeouts, workers
  that may stop anywhere, and the shuffle, against the sequential program.
- **Shard rebalancing** (`src/shardkv1/shardcfg`): the allocator behind joins and leaves.
- **Raft** (`src/raft1`): request handlers, elections, replication and commitment, over a network that loses,
  repeats, delays and reorders messages.

Objects that the code updates in place are classes whose methods are proved against functions on values; loops
are loops with invariants. What spans several processes is a transition system built from the same functions,
and the main results are about every run of it.

| file | content |
|---|---|
| `KvServer`, `Network`, `KvClerk` | server object, the three fates of an RPC attempt, the clerk's retry loops, the put loop |
| `KvModel`, `KvSystem`, `Tallies`, `Strings` | linearizability, locality over keys, all clerks together |
| `KvLock`, `KvAppend` | the lock and its code, the append clients and their checker |
| `MrTransform`, `MrCoordinator`, `MrSystem` | shuffle and grouping, coordinator object, the whole job |
| `ShardBalance`, `ShardConfig` | the rebalancing functions and their laws, the configuration object and histories |
| `RaftServer`, `RaftSystem` | one server's handlers and object, the cluster, Log Matching |
| `RaftCommit`, `RaftReplication` | what a commit means, one leader and one follower, commit bound, nextIndex |
| `RaftElection`, `RaftOrder`, `RaftCompleteness`, `RaftSafety` | elections, order of terms in logs, Leader Completeness, State Machine Safety |
| `RaftSteps`, `RaftDepartures`, `RaftOldTerm`, `RaftElectionExact` | building runs, the runs that fail, exactly which clusters are safe |

## What the proofs found

The code meets its promises as stated below, except in these places. Each has a concrete run, and the exact condition
under which the promise holds.

- `KvModel.Step` has no case for a Put answered `ErrNoKey`, an answer the server documents and gives. A complete
  history passes the checker if and only if no Put in it got that answer (`KvSystem.CheckerVerdict`; a failing history:
  `KvSystem.MissedKeyRejected`). Against the documented behaviour every complete history is linearizable.
- The lock draws its client identifier at random, from a space that contains `"unlocked"` and can repeat. With
  two or more clients, mutual exclusion holds if and only if the identifiers are distinct and none is
  `"unlocked"` (`KvLock.ExclusionExactly`; failing runs: `KvLock.BadIdsBreakExclusion`).
- Raft's `AppendEntries` clears the vote on an equal term, where section 5.2 of the Raft paper has one vote
  per term: a heartbeat lets a voter vote twice and a term get two leaders
  (`RaftDepartures.HeartbeatAllowsTwoLeaders`). A step keeps votes unique if and only if it keeps to this condition: a
  server that has voted in a term and has handled an append of it grants no other vote in that term
  (`RaftElection.SecondVoteExactly`).
- `becomeLeader` does not look again at the term it won, so a late winner leads a term it did not win
  (`RaftDepartures.LateLeaderAllowsTwoLeaders`). Over all runs, and also over those in which leaders lead only terms
  they won, a cluster has one quorum a term, one leader a term and matching logs if and only if it has at most one
  server (`RaftElectionExact.ElectionExactly`). With both conditions (votes kept as above, leaders leading the term they
  won) election safety, Log Matching and Leader Completeness hold for every cluster (`RaftElection.ElectionSafety`,
  `RaftCompleteness.LeaderCompleteness`).
- State Machine Safety fails for two further reasons. The follower's commit bound is its last log index, where Figure 2 of
  the paper has the last new entry: even in runs that keep both conditions above, the heartbeat of an elected leader
  makes a follower commit an entry the leader does not have (`RaftDepartures.HeartbeatCommitsStaleEntry`). And
  tryToCommit goes on resending the live log and commit index under the term in which it began: a server still in an old
  term commits from it, and a delayed message of a term in between then overwrites what it committed
  (`RaftOldTerm.OldTermUncommits`; there every message covers the commit index it tells). With both conditions above,
  no delivery that goes astray (one that raises the commit index of a follower whose log goes on behind what the
  message covers with, at the new commit index, an entry of another term than the sender's), and no commit index raised
  by a message under a term its sender had left, State Machine Safety holds for every cluster (`RaftSafety.StateMachineSafety`,
  `RaftSafety.ServersAgree`, `RaftSafety.NothingUncommitted`). After any such run the next step leaves every server with
  only what leaders committed if and only if it is no astray delivery (`RaftSafety.SafetyStepExactly`).
- A success that answers a replication of an earlier term is counted without looking at the term, and can push
  `nextIndex` past the end of the log, in a run in which every leader was duly elected
  (`RaftDepartures.StaleSuccessBreaksRange`; `RaftReplication.RangeStepExactly` gives the condition). The next
  message cut with it would index outside the log, also when the sender has lost its lead
  (`RaftDepartures.DeposedSenderOverruns`).

## Model

| member | source | states |
|---|---|---|
| `KvServer.PutMovesOneVersion` | src/kvsrv1/server.go:85-109 | a Put answers OK exactly when it names the key's version, then moves that version up by one and nothing else; every other key keeps its contents |
| `KvServer.KVServer.constructor` | src/kvsrv1/server.go:32-39 | a new server holds no key |
| `KvServer.KVServer.Get` | src/kvsrv1/server.go:54-69 | value and version of a present key with OK, ErrNoKey for an absent one |
| `KvServer.KVServer.Put` | src/kvsrv1/server.go:85-109 | the new map and the answer, in all four cases |
| `KvClerk.SpentRequestNeverApplies` | src/kvsrv1/client.go:104-124 | once the key has passed the requested version, no later attempt applies and the call ends in ErrMaybe |
| `KvClerk.PutIsTruthful` | src/kvsrv1/client.go:83-124 | one Put call among arbitrary Puts of others: at most one effect; OK means exactly one, ErrVersion and ErrNoKey none, ErrMaybe only after a resend; versions never decrease |
| `KvClerk.AnswerExactly` | src/kvsrv1/client.go:104-124 | when each answer is given, by the store the answered attempt met: OK if and only if it found the requested version, and then that attempt alone wrote; ErrNoKey if and only if it missed an expected key; on another version ErrVersion without and ErrMaybe with a resend |
| `KvClerk.DroppedChangesNothing` | src/kvsrv1/client.go:104-124 | attempts that never reached the server do not change the answer, except that a version error is no longer certain |
| `KvClerk.AloneWrites` | src/kvsrv1/client.go:104-124 | a Put of the current version on a key nobody else writes ends with its value stored one version up, whatever is lost |
| `KvClerk.StoreAtAnswerEvolves` | src/kvsrv1/client.go:50-71 | what a Get reads is later than the state at its start |
| `KvClerk.Clerk.RunOthers` | src/labrpc/labrpc.go:290-311 | the server's store after requests other clerks got in first |
| `KvClerk.Clerk.CallPut` | src/labrpc/labrpc.go:248-311 | one attempt under each of the three fates: dropped, executed with the reply lost, answered |
| `KvClerk.Clerk.Get` | src/kvsrv1/client.go:50-71 | the retry loop returns what the server held at the answered attempt |
| `KvClerk.Clerk.Put` | src/kvsrv1/client.go:104-124 | the retry loop ends with the store and the error of the attempts taken in turn, and with each error exactly when the answered attempt's store calls for it |
| `KvClerk.Clerk.OnePut` | src/kvtest1/kvtest.go:208-227 | whatever other clerks do, the wrong-error, failed-Get and wrong-value branches are not taken, and the version returned is current; exactly one of its Puts took effect if it reports success, at most one, and only after a resend, if it is unsure |
| `KvClerk.Clerk.OneClientPut` | src/kvtest1/kvtest.go:259-284 | a client's counts bracket the number of its Puts that took effect, and without resends it is never unsure |
| `KvModel.StepMovesAsAfter` | src/models1/kv.go:49-67 | the state a step leads to does not depend on the output; documented answers other than a Put's ErrNoKey are accepted |
| `KvModel.StepAgainstDocumented` | src/models1/kv.go:49-67 | exactly what the checker's specification accepts, by the documented behaviour: of a Get every answer with the right value, of a Put the documented answers but for a version named for an absent key |
| `KvModel.ReplayPerKey` | src/models1/kv.go:27-67 | replaying the whole map accepts exactly when replaying every key on its own does |
| `KvModel.RestrictLinearization` | src/models1/kv.go:27-43 | a linearization of the whole history restricts to one of each key |
| `KvModel.CombineKeys` | src/models1/kv.go:27-43 | linearizations of the single keys combine into one of all of them that respects real time |
| `KvModel.Locality` | src/models1/kv.go:27-43 | a history is linearizable if and only if each key's part is |
| `KvModel.PartsDecide` | src/models1/kv.go:27-43 | checking the parts one by one decides linearizability of the whole |
| `KvModel.Partition` | src/models1/kv.go:27-43 | the loops cut a history into one part per key that occurs, each in history order, in ascending key order |
| `KvModel.AddToBucket` | src/models1/kv.go:29-32 | one operation joins its key's bucket, in order |
| `KvSystem.StepsOfPut` | src/kvsrv1/client.go:104-124 | taken attempt by attempt, a Put call of the transition system ends as the clerk's loop does |
| `KvSystem.StepsOfGet` | src/kvsrv1/client.go:50-71 | the same for a Get call |
| `KvSystem.AtMostOnce` | src/kvsrv1/client.go:104-124 | over every interleaving of any number of clerks, each Put call changes the map at most once; OK exactly once, ErrVersion and ErrNoKey never, ErrMaybe only after a loss |
| `KvSystem.AnswersExactly` | src/kvsrv1/client.go:104-124 | in every run, which answer a Put gets: OK if and only if the answered attempt moved the version, ErrNoKey, ErrVersion and ErrMaybe exactly by the key, the version and whether the call resent |
| `KvSystem.ResendsExactly` | src/kvsrv1/client.go:104-117 | a call has resent if and only if one of its attempts went unanswered |
| `KvSystem.TimesAreReal` | src/kvtest1/kvtest.go:81-101 | operations are recorded with the times of their call and return, which no later step changes |
| `KvSystem.VersionsNeverDecrease` | src/kvsrv1/server.go:85-109 | from any state of a run to any later one, keys stay, versions do not decrease, and an unchanged version names an unchanged value |
| `KvSystem.VersionCountsPuts` | src/kvsrv1/server.go:85-109 | in every reachable state a key's version is the number of Puts applied to it |
| `KvSystem.PutsAreConserved` | src/kvtest1/kvtest.go:126-140 | when all calls have returned, Nok <= version <= Nok + Nmaybe, and version = Nok when nothing was lost |
| `KvSystem.EffectsLinearize` | src/kvsrv1/client.go:50-124 | the order in which calls took effect is a linearization of the complete history |
| `KvSystem.ExactAgainstModel` | src/models1/kv.go:49-67 | the checker's specification accepts an accepted replay if and only if no Put in it is answered ErrNoKey |
| `KvSystem.HistoriesLinearizable` | src/kvsrv1/client.go:50-124 | every complete history of every run is linearizable; against KvModel.Step if and only if no Put got ErrNoKey |
| `KvSystem.ReliableHistories` | src/kvsrv1/client.go:50-124 | without losses every complete history is linearizable with certain answers only |
| `KvSystem.CheckerVerdict` | src/models1/kv.go:27-67 | the same verdict from the per-key parts the checker works on |
| `KvSystem.MissedKeyRejected` | src/models1/kv.go:56-63 | for every key, value and positive version: a complete one-call history that the checker's specification rejects |
| `KvLock.OwnTry` | src/kvsrv1/lock/lock.go:61-104 | a client's own Put attempt keeps what is known of it, whatever the attempt's fate |
| `KvLock.OthersTry` | src/kvsrv1/lock/lock.go:61-104 | no other client's Put can take the lock away from its holder |
| `KvLock.LockIsSafe` | src/kvsrv1/lock/lock.go:61-104 | with good identifiers, at most one client is between Acquire returning and its Release Put taking effect; no fatal branch is taken; each finished Release unlocked exactly once; the lock state names the holder, and never a client that has released or not yet asked |
| `KvLock.PutsWrite` | src/kvsrv1/lock/lock.go:50-99 | a Put of the lock's that takes effect writes the identifier while acquiring and the unlocked mark while making or releasing, one version up, and nothing else |
| `KvLock.LockIsHandedOn` | src/kvsrv1/lock/lock.go:61-104 | every run in which a client holds the lock extends to one in which it has released it and any other client holds it |
| `KvLock.BadIdsBreakExclusion` | src/kvsrv1/lock/lock.go:38-90 | for any two clients with one identifier, or one with the identifier "unlocked", a run in which both hold the lock |
| `KvLock.ExclusionExactly` | src/kvsrv1/lock/lock.go:38-104 | mutual exclusion in every run if and only if there is at most one client or the identifiers are good |
| `KvLock.GetWalk` | src/kvsrv1/client.go:50-71 | the attempts of a Get call take a lock client where the call's answer does |
| `KvLock.PutWalk` | src/kvsrv1/client.go:104-124 | the attempts of a Put call take a lock client where the call's error does, with as many unlocks as effects |
| `KvLock.Lock.constructor` | src/kvsrv1/lock/lock.go:38-54 | MakeLock's calls are the transition system's steps from creation to idle; a missing key is created unlocked at version 1 unless another writes it meanwhile |
| `KvLock.Lock.Acquire` | src/kvsrv1/lock/lock.go:61-90 | both loops, over any attempts, are steps of the transition system; the method returns exactly where the client holds the lock there, with its identifier stored |
| `KvLock.Lock.FirstLoop` | src/kvsrv1/lock/lock.go:63-74 | the first loop refines the first Get/Put steps |
| `KvLock.Lock.SecondLoop` | src/kvsrv1/lock/lock.go:76-88 | the second loop refines the second Get/Put steps and returns only on OK |
| `KvLock.Lock.Release` | src/kvsrv1/lock/lock.go:92-104 | it returns exactly if it read its own identifier; its one Put is at the version it read, and unless another writes the key meanwhile leaves it unlocked one version up, whatever is lost |
| `KvAppend.WriteAppends` | src/kvtest1/kvtest.go:327-352 | a Put that takes effect appends exactly the client's own entry |
| `KvAppend.OwnCounts` | src/kvtest1/kvtest.go:327-352 | an attempt keeps the relation between a client's counts and its entries in the list |
| `KvAppend.ListShape` | src/kvtest1/kvtest.go:327-352 | in every reachable state each client's numbers strictly increase, length plus one is the version, and no client found the key missing |
| `KvAppend.StepsOfRead` | src/kvsrv1/client.go:50-71 | taken attempt by attempt, a client's Get ends as the clerk's loop does |
| `KvAppend.StepsOfWrite` | src/kvsrv1/client.go:104-124 | taken attempt by attempt, a client's Put ends as the clerk's loop does |
| `KvAppend.CheckAppends` | src/kvtest1/kvtest.go:361-390 | the checker passes if and only if the list is good: increasing numbers, length matching the version, bounded gaps and totals; each complaint names a real defect |
| `KvAppend.ScanEntries` | src/kvtest1/kvtest.go:368-378 | the first loop goes through exactly when no client's numbers step back, and then knows each client's next number and gaps |
| `KvAppend.Judge` | src/kvtest1/kvtest.go:382-389 | the second loop passes exactly when gaps and totals are within each client's counts |
| `KvAppend.AppendersPass` | src/kvtest1/kvtest.go:327-390 | in every interleaving the list the clients leave satisfies the checker |
| `KvAppend.ReliableAppends` | src/kvtest1/kvtest.go:327-352 | without losses no client is ever unsure and each has exactly its iterations in the list, in order |
| `MrTransform.Buckets` | src/mr/worker.go:72-77 | the bucketing loop puts each pair into the bucket of its key's hash, in order |
| `MrTransform.BucketCounts` | src/mr/worker.go:72-77 | a pair occurs in its own bucket as often as in the map output, and in no other |
| `Strings.LeqByFirstDifference` | src/mr/worker.go:25-25 | keys are ordered by their first difference, a proper beginning first |
| `MrTransform.Group` | src/mr/worker.go:129-142 | on a sorted input the i, j, k loop emits each key once, in key order, with all its values |
| `MrTransform.LineReadsBack` | src/mr/worker.go:140-140 | key and output can be read back from a printed line |
| `MrTransform.Sequential` | src/main/mrsequential.go:38-84 | collecting, sorting and grouping all map outputs emits each key once with all its values, for any sort |
| `MrTransform.PartLines` | src/mr/worker.go:103-142 | a part holding all the pairs of some keys yields the lines those keys get from the whole input |
| `MrTransform.BucketLines` | src/mr/worker.go:103-142 | a reduce task emits exactly the sequential program's lines of the keys hashed to it |
| `MrTransform.ShuffleRefinesSequential` | src/mr/worker.go:72-142 | for every input, hash, number of buckets and choice of sorted orders, the lines of all reduce tasks are a permutation of the sequential program's |
| `MrCoordinator.Coordinator.constructor` | src/mr/coordinator.go:225-260 | one idle map task per file, nReduce idle reduce tasks, no phase finished |
| `MrCoordinator.Coordinator.ExpireLoop` | src/mr/coordinator.go:102-128 | the scan resets exactly the overdue tasks and reports completion exactly when all were done |
| `MrCoordinator.Coordinator.CheckTimeoutLoop` | src/mr/coordinator.go:95-136 | the state after a timeout check, in each phase |
| `MrCoordinator.Coordinator.HandleGetTask` | src/mr/coordinator.go:43-93 | the state and the reply: the first idle task of the current phase, wait, or exit |
| `MrCoordinator.Coordinator.HandleReportTask` | src/mr/coordinator.go:138-190 | the state and the answer: only a task under way with that id is marked done, and a phase ends when all are |
| `MrCoordinator.Coordinator.Completed` | src/mr/coordinator.go:147-153 | true exactly when every task of the table is done |
| `MrCoordinator.FirstIdle` | src/mr/coordinator.go:54-64 | the first idle task, or none |
| `MrCoordinator.Reported` | src/mr/coordinator.go:142-144 | the first task under way with the reported id, or none |
| `MrCoordinator.GetTaskPhases` | src/mr/coordinator.go:43-136 | a request for a task keeps the phase discipline and undoes nothing |
| `MrCoordinator.ReportTaskPhases` | src/mr/coordinator.go:138-190 | a report keeps the phase discipline and undoes nothing |
| `MrCoordinator.NothingReverts` | src/mr/coordinator.go:43-190 | in every run Done tasks stay Done and both finished flags stay set |
| `MrCoordinator.PhaseDiscipline` | src/mr/coordinator.go:43-190 | in every state of every run finished flags imply all tasks of the phase done, and hand-outs are timeouts, plus one if the task is not idle; reduce tasks go out only after all maps, exit only after everything |
| `MrCoordinator.HandOutsAreReplies` | src/mr/coordinator.go:43-93 | the hand-outs counted are the replies: a task's count rises, by one, exactly when a reply names it |
| `MrCoordinator.TimeoutsExactly` | src/mr/coordinator.go:95-131 | in every run, at every request: a task under way expires if and only if the last reply that named it is more than ten seconds old; otherwise it stays under way and is not handed out |
| `MrCoordinator.RepliesExactly` | src/mr/coordinator.go:43-93 | in every run, which reply a request gets: of the first phase not done, the first task that is idle or overdue with all its worker needs; wait only if every task is done or was handed out within ten seconds; exit exactly when all is finished; and the flags are set exactly when their phase is done |
| `MrCoordinator.ReportsExactly` | src/mr/coordinator.go:138-190 | in every run a report is confirmed if and only if its task is under way; then exactly that task is done and its phase finished if and only if none is left; otherwise nothing changes |
| `MrSystem.ReadFileKeeps` | src/mr/worker.go:105-120 | a reduce task finds every map file it opens, and reads its bucket |
| `MrSystem.RenameMapKeeps` | src/mr/worker.go:80-94 | a straggler renaming a map file again leaves it as it was |
| `MrSystem.RenameOutKeeps` | src/mr/worker.go:123-144 | an output file always holds a correct output of its reduce task, whoever wrote it last |
| `MrSystem.ReceiveKeeps` | src/mr/coordinator.go:138-190 | late and repeated reports keep the invariant of the job |
| `MrSystem.CrashTolerant` | src/mr/coordinator.go:43-190 | in every run with crashes, timeouts, stragglers and late or repeated reports: no reduce task finds a file missing, and once AllFinished is set the output files together are a permutation of the sequential program's lines |
| `MrSystem.DoMap` | src/mr/worker.go:61-96 | exactly the files of this map task change, each to its bucket |
| `MrSystem.DoReduce` | src/mr/worker.go:98-148 | it fails exactly if a map file is missing; otherwise it groups the sorted contents of all its files |
| `MrSystem.ReadFiles` | src/mr/worker.go:103-120 | the reading loop fails exactly if a file is missing and otherwise yields all contents in order |
| `ShardBalance.MoveLowersEnergy` | src/shardkv1/shardcfg/shardcfg.go:140-153 | every move strictly lowers the sum of squared loads, so the loop ends |
| `ShardBalance.SettledIsLevel` | src/shardkv1/shardcfg/shardcfg.go:140-153 | the loop stops exactly when loads differ by at most one |
| `ShardBalance.RebalanceBalances` | src/shardkv1/shardcfg/shardcfg.go:122-154 | from every configuration: all shards on live groups and loads within one; all 0 without groups |
| `ShardBalance.FirstAssignment` | src/shardkv1/shardcfg/shardcfg.go:131-138 | unassigned shards are dealt out to the groups in turn, in ascending order of gids |
| `ShardBalance.LeaveMovesOnlyOrphans` | src/shardkv1/shardcfg/shardcfg.go:122-154 | from a level configuration with a survivor, a shard changes owner exactly if its group left |
| `ShardBalance.JoinMovesOntoJoiners` | src/shardkv1/shardcfg/shardcfg.go:122-154 | from a level configuration, shards move only onto joining groups, each at most once |
| `ShardBalance.JoinIsOptimal` | src/shardkv1/shardcfg/shardcfg.go:122-154 | no level assignment over all groups differs in fewer shards |
| `ShardConfig.ShardCfg.constructor` | src/shardkv1/shardcfg/shardcfg.go:44-49 | number 0, all shards unassigned, no groups |
| `ShardConfig.ShardCfg.Copy` | src/shardkv1/shardcfg/shardcfg.go:67-77 | an equal configuration that shares no memory with the original |
| `ShardConfig.ShardCfg.CountLoads` | src/shardkv1/shardcfg/shardcfg.go:81-84 | the counts are the groups' loads |
| `ShardConfig.ShardCfg.Analyze` | src/shardkv1/shardcfg/shardcfg.go:80-111 | the most and the least loaded group with their loads, smaller gid first; the initial values without groups |
| `ShardConfig.ShardCfg.ScanGroups` | src/shardkv1/shardcfg/shardcfg.go:99-108 | the loop in ascending order ends with the extremes, the smaller gid winning ties |
| `ShardConfig.ShardCfg.Rebalance` | src/shardkv1/shardcfg/shardcfg.go:122-154 | the shard array becomes a function of its old contents and the set of gids alone |
| `ShardConfig.ShardCfg.MoveOne` | src/shardkv1/shardcfg/shardcfg.go:146-152 | exactly the first shard of the most loaded group changes owner |
| `ShardConfig.ShardCfg.SharesServer` | src/shardkv1/shardcfg/shardcfg.go:164-172 | true exactly when some group already has one of the servers |
| `ShardConfig.ShardCfg.AddGroups` | src/shardkv1/shardcfg/shardcfg.go:156-183 | in whatever order the groups come, it succeeds exactly when something joins, nothing rejoins and no server is shared; otherwise some of the groups are added and one that conflicts with what is there then is the reason |
| `ShardConfig.ShardCfg.AddGroup` | src/shardkv1/shardcfg/shardcfg.go:158-177 | one group is refused if it is there or shares a server, and then the whole join cannot succeed |
| `ShardConfig.ShardCfg.Join` | src/shardkv1/shardcfg/shardcfg.go:156-183 | the same, with the new groups and number, and the groups a failed join leaves |
| `ShardConfig.ShardCfg.Leave` | src/shardkv1/shardcfg/shardcfg.go:185-205 | it succeeds exactly when some gid is given and each is a group named once; then exactly those groups are gone; otherwise exactly those named before the first that is no group |
| `ShardConfig.ShardCfg.JoinBalance` | src/shardkv1/shardcfg/shardcfg.go:207-213 | success exactly as for Join, then the whole new configuration; otherwise shards and number untouched and the groups as Join leaves them |
| `ShardConfig.ShardCfg.LeaveBalance` | src/shardkv1/shardcfg/shardcfg.go:215-221 | success exactly as for Leave, then the whole new configuration; otherwise shards and number untouched and the groups as Leave leaves them |
| `ShardConfig.HistoryHolds` | src/shardkv1/shardcfg/shardcfg.go:44-221 | after any successful joins and leaves: Num counts them, loads within one on live groups or all 0, no server in two groups |
| `ShardConfig.HistoryMovesLittle` | src/shardkv1/shardcfg/shardcfg.go:122-221 | every step of a history moves only onto joiners, as few as possible, or only what left |
| `RaftServer.Raft.constructor` | src/raft1/raft.go:809-850 | a follower in term 0 with the sentinel entry |
| `RaftServer.Raft.SetNewTerm` | src/raft1/raft.go:130-134 | new term, no vote, follower; nothing else changes |
| `RaftServer.Raft.HandleRequestVote` | src/raft1/raft.go:135-179 | the server's new state and the reply |
| `RaftServer.Raft.FindPrev` | src/raft1/raft.go:209-218 | the backward scan's position |
| `RaftServer.Raft.MergeEntries` | src/raft1/raft.go:227-241 | the merge loop's log |
| `RaftServer.Raft.HandleAppendEntries` | src/raft1/raft.go:181-265 | the server's new state and the reply |
| `RaftServer.Raft.DoStart` | src/raft1/raft.go:352-380 | a leader appends the command at the index and term it returns; others refuse |
| `RaftServer.Raft.DoBecomeLeader` | src/raft1/raft.go:675-685 | leader, nextIndex behind the log, matchIndex 0; term unchanged |
| `RaftServer.Raft.DoBecomeCandidate` | src/raft1/raft.go:691-705 | next term, vote for itself, and the request it sends |
| `RaftServer.VoteLaw` | src/raft1/raft.go:135-179 | whatever the answer, the server catches up with the request's term, as a follower, and reports its term; it grants if and only if the term is not behind, this term's vote is free or the candidate's, and its last entry is not newer; log and indices stay |
| `RaftServer.VoteRepeats` | src/raft1/raft.go:160-167 | asked again by the candidate it voted for, a server grants again and changes nothing |
| `RaftServer.AppendLaw` | src/raft1/raft.go:181-265 | the server catches up with the term and reports it; a stale append changes nothing, any other makes it a follower without a vote, a refused one keeps log and commit index, an accepted one follows the sender's commit index as far as the log goes |
| `RaftSystem.RequestsTeach` | src/raft1/raft.go:147-149 | whoever handles a request is then in a term not behind it |
| `RaftSystem.VoteAnswersTeach` | src/raft1/raft.go:294-304 | a candidate that gets an answer of a later term is a follower in that term |
| `RaftSystem.AnswerDeposes` | src/raft1/raft.go:436-443 | a sender whose append met a server in a later term is, once it takes the answer, in a term at least that one and, unless it was there already, a follower |
| `RaftServer.ScanFinds` | src/raft1/raft.go:209-218 | on a well-indexed log the scan finds exactly the named position, if the term there agrees |
| `RaftServer.MergeWins` | src/raft1/raft.go:227-241 | the merge yields the sender's log, or keeps a log that extends it |
| `RaftServer.AppendOutcome` | src/raft1/raft.go:181-265 | accepted exactly if the term is not old and the entry before the cut agrees; then the log is the sender's, or an extension |
| `RaftSystem.DeliverKeepsMatching` | src/raft1/raft.go:209-244 | any delivery keeps Log Matching over all logs ever held and sent, with no assumption about leaders |
| `RaftSystem.StartMatches` | src/raft1/raft.go:352-380 | an entry added by Start matches every log ever held |
| `RaftSystem.LogMatching` | src/raft1/raft.go:181-265 | in every run with at most one leader per term, any two logs held or in flight that agree in the term at a position agree up to it |
| `RaftCommit.PeersCount` | src/raft1/raft.go:387-430 | each counted answer stands for a different peer |
| `RaftCommit.CommitMeansMajority` | src/raft1/raft.go:401-465 | when the commit index rises to an index, the entry there is of the current term and more than half of the servers have held a log identical up to it |
| `RaftElection.SecondVoteExactly` | src/raft1/raft.go:160-167 | in every run, a step keeps votes unique if and only if it grants no second vote, which is if and only if no server that has voted in a term and handled an append of it grants another vote in it |
| `RaftElection.ElectionQuorum` | src/raft1/raft.go:135-179 | in every run in which no server that has voted in a term and handled an append of it grants another vote in it, no two servers count more than half the grants of one term |
| `RaftElection.ElectionSafety` | src/raft1/raft.go:675-751 | if besides nobody turns leader outside the term it won, no term has two leaders and Log Matching holds |
| `RaftOrder.TermsNeverDecrease` | src/raft1/raft.go:383-446 | in those runs the terms in a log never decrease, although a deposed sender may pass newer entries on under its old term |
| `RaftOrder.WinnerHasNoneLater` | src/raft1/raft.go:691-751 | a server with an entry of a later term cannot win its own |
| `RaftCompleteness.UpToDateHas` | src/raft1/raft.go:152-167 | a candidate as up to date as a voter that stored a committed log has stored it too |
| `RaftCompleteness.LeaderCompleteness` | src/raft1/raft.go:462-465 | in those runs, what tryToCommit commits is in the log of every leader of a later term, from then on |
| `RaftCompleteness.CommitsAgree` | src/raft1/raft.go:462-465 | any two raises of commit indices by tryToCommit, at any times and servers, agree |
| `RaftSafety.StateMachineSafety` | src/raft1/raft.go:252-260 | in every strict run (votes kept, leaders in terms they won, no delivery astray, commit indices raised only by messages under the term their sender was in), at every time, each server's log up to its commit index is part of a log a leader committed |
| `RaftSafety.ServersAgree` | src/raft1/raft.go:252-260 | in those runs what any two servers have committed, at any two times, agrees |
| `RaftSafety.NothingUncommitted` | src/raft1/raft.go:227-260 | in those runs no server ever gives up an entry it has committed |
| `RaftSafety.SafetyStepExactly` | src/raft1/raft.go:252-260 | after a strict run, a step with kept votes and elected leaders leaves every server with only what leaders committed if and only if it is no delivery that leads its receiver astray |
| `RaftSafety.AstrayIsWrong` | src/raft1/raft.go:252-260 | a delivery astray makes its receiver commit what no leader has committed |
| `RaftElectionExact.ElectionExactly` | src/raft1/raft.go:181-198 | over all runs, or all in which leaders lead terms they won: one quorum a term, one leader a term, matching logs, each if and only if there is at most one server |
| `RaftElectionExact.TwoLeaders` | src/raft1/raft.go:529-540 | for every cluster of two or more, a run in which two servers win and lead one term, each having cleared the other's votes |
| `RaftElectionExact.LogsDiverge` | src/raft1/raft.go:352-380 | and one in which they then write different entries at one position of one term |
| `RaftDepartures.HeartbeatAllowsTwoLeaders` | src/raft1/raft.go:193-194 | a run of three servers, each leading a term it won, in which a heartbeat leads to two leaders of one term |
| `RaftDepartures.LateLeaderAllowsTwoLeaders` | src/raft1/raft.go:675-678 | a run of three servers that keeps every vote, in which a late winner leads beside the elected leader |
| `RaftDepartures.HeartbeatCommitsStaleEntry` | src/raft1/raft.go:252-260 | a run of three servers with duly elected leaders after which two servers have committed different entries at one index |
| `RaftOldTerm.OldTermUncommits` | src/raft1/raft.go:407-415 | a run of five servers with kept votes, duly elected leaders, no delivery astray and every message covering its commit index, in which a replication of an earlier term makes a server commit entries that a delayed message then takes away |
| `RaftReplication.DeliveryHelps` | src/raft1/raft.go:209-244 | one delivery never shrinks the common prefix with the leader's log and covers an accepted message |
| `RaftReplication.ReorderingIsSafe` | src/raft1/raft.go:209-244 | over any sequence of stale, repeated or reordered appends from one growing log, the common prefix never shrinks, keeps every accepted message, and redelivery changes nothing |
| `RaftReplication.Backoff` | src/raft1/raft.go:407-446 | against a follower with no higher term: nextIndex stays in range, steps back once per rejection, at most nextIndex - 1 times, and then the message is accepted; the follower then has the leader's log |
| `RaftReplication.TryOnce` | src/raft1/raft.go:181-265 | one attempt of that loop; at nextIndex 1 the sentinel makes it succeed |
| `RaftReplication.ReplyLaw` | src/raft1/raft.go:422-446 | what an answer does to the sender's indices for that peer: a success lifts them to its index, a refusal steps nextIndex back by one, not below 1; nothing else changes but a later term learnt |
| `RaftReplication.CommitBoundExactly` | src/raft1/raft.go:252-260 | in every run with one leader per term, a delivery that raises a follower's commit index leaves it with what the sender's log has, if and only if the follower does not go astray |
| `RaftReplication.CoveringAgrees` | src/raft1/raft.go:252-260 | in those runs, after a message that covers the commit index it tells, the follower's committed part is that sender's if the message raised it or it was so before |
| `RaftReplication.ReplyKeepsRangeExactly` | src/raft1/raft.go:422-446 | an answer keeps nextIndex in range if and only if it is not a success for an index the log no longer reaches |
| `RaftReplication.RangeStepExactly` | src/raft1/raft.go:407-446 | a step of the cluster keeps every leader's nextIndex in range if and only if it is not a leader taking such a success |
| `RaftReplication.NextIndexInRange` | src/raft1/raft.go:407-446 | a leader keeps 1 <= nextIndex <= len(log) in every run with one leader per term in which successes are taken in the term they answer |
| `RaftDepartures.StaleSuccessBreaksRange` | src/raft1/raft.go:422-430 | a run of five servers, every leader elected by a majority and one leader per term, that ends with a leader whose nextIndex is past its log |
| `RaftDepartures.DeposedSenderOverruns` | src/raft1/raft.go:407-414 | a run of five servers after which a server that no longer leads retries a replication with nextIndex past its log |

## Left out

- Versions are unbounded; the wrap-around of a 64-bit version is not modelled.
- Timing and liveness: sleeps, tickers and election timeouts are steps that may happen at any time; nothing says
  that a call returns, a leader is elected or a lock is obtained.
- `src/labrpc` and `src/labgob`: only the three outcomes of an attempt are used. A request executed late, after
  its sender gave up on it, is not an outcome there.
- JSON and gob encoding and file contents are identities, failures of writing and encoding are left out, and a
  rename is one atomic step; `ihash` is any function into the naturals.
- `sort.Sort` is any sorted permutation; `mapf` is a function and `reducef` does not depend on the order of values.
- `MrTransform.ShuffleRefinesSequential`: with nReduce = 0 the original divides by zero; only nReduce > 0 is modelled.
- `KvLock.LockIsSafe`: the lock's transition system has one lock key and no other use of that key; several locks are several copies.
- `KvAppend.ListShape`: OneClientAppend's loop is modelled by its steps on decoded lists, tied to the clerk's loops call by call, not as a method over the clerk's strings.
- `KvAppend.CheckAppends`: lists with entries of unknown clients are excluded; the original indexes outside its results on them.
- `KvClerk.Clerk.OnePut`: the schedule of other clerks and the number of rounds are parameters; a loop that has not ended yet reports so. OneClientPut takes its random keys the same way.
- `KvLock.Lock.Acquire`: the rounds are a parameter, as for OnePut; the fatal exits end the method.
- `MrSystem.DoReduce`: a worker's files are a parameter; that workers interleave is in the transition system.
- `ShardConfig.ShardCfg.AddGroups`: which of several conflicts is met first depends on map order and is left open; the original ends the process on a shared server or an empty join, here a result.
- `ShardConfig.ShardCfg.Rebalance`: shard counts from 257 on, where the search's initial value is too small, are excluded.
- `RaftSystem.LogMatching`: runs in which a term has two leaders are excluded; `RaftElectionExact.LogsDiverge` is one for every cluster of two or more, and shows the assumption is needed.
- `RaftElection.ElectionQuorum`: runs in which a server that has voted in a term and handled an append of it grants another vote in it are excluded; `RaftElection.SecondVoteExactly` shows that exactly those steps break it, and `RaftElectionExact.ElectionExactly` that without the condition no cluster of two or more is safe.
- `RaftReplication.NextIndexInRange`: runs in which a sender takes a success of an earlier term are excluded; `RaftDepartures.StaleSuccessBreaksRange` is one. A sender whose nextIndex is past its log sends nothing here; the original panics.
- `RaftSafety.StateMachineSafety`: runs with a delivery astray, and runs in which a message under a term its sender had left raises a commit index, are excluded; `RaftDepartures.HeartbeatCommitsStaleEntry` and `RaftOldTerm.OldTermUncommits` are runs of either kind that fail.
- `RaftElectionExact.ElectionExactly`: the failing runs use heartbeats that carry a term their sender stands in; the same late read of the term by a replication is not modelled.
- Raft senders read log and nextIndex without the lock; each read is one atomic snapshot, and aliasing of log slices is
  not modelled. A heartbeat carries the term its sender is in when it reads it; a replication the term of its Start, which
  the original reads again without the lock a moment later. `killed` servers take no step.
- Raft persistence, snapshots and the applier, and the kvraft, rsm, shardctrler and shardgrp packages, whose bodies
  are stubs.
- `GidServers`, `IsMember`, `CheckConfig`, `Key2Shard` and `PutAtLeastOnce` read a configuration, hash a key or repeat a
  loop already modelled; the rest of the test support starts processes and partitions.
