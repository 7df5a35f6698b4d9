# Verified models of Raft, a versioned key/value store, MapReduce and shard balancing

This project models the protocols of a distributed-systems repository written in Go and proves
what they are for. `dafny verify dfyconfig.toml` checks everything.

| part | files |
|---|---|
| Raft consensus | `RaftTypes` (values and handlers), `RaftEffects` (what each handler leaves and answers, field by field), `RaftServer` (the class), `RaftCluster` (peers, messages, runs), `RaftElection`, `RaftLog`, `RaftRetain`, `RaftQuorum`, `RaftSteps`, `RaftKeep` (invariants), `RaftSafety` (theorems), `RaftOrder` (send order and the exactness of the guards), `RaftWitness`, `RaftReorder`, `RaftStale` (why neither guard can be dropped), `RaftUnlocked` (the dropped lock), `RaftLive` (progress is possible), `RaftCompaction` |
| key/value server, clerk, lock | `KvServer`, `KvLinear` (clerks and invariants), `KvHistory` (linearizability), `KvLock` |
| MapReduce | `MapReduceData` (bucketing, sorting, grouping), `MrCoordinator` (handlers and runs), `MrServer` (the class), `MapReduceRun` (workers, files, end to end), `MapReduceLive` (every job can be finished) |
| shard allocation | `ShardBalance` (the allocator and its guarantees), `ShardGreedy` (its moves, one by one), `ShardConfigs` (the class, joins and leaves) |

Code that changes fields in place is a class whose methods are proved equal to functions on
values (`AnswerAppend`, `GetTask`, `Rebalanced`, ...); the theorems are about those functions and
about runs of state machines that take them as steps. What the functions themselves do is stated once
more without them, on the fields before and after (`...HasEffect`), and the methods promise that too.
That the guarantees are about runs that exist is proved as well (`RaftLive`, `MapReduceLive`).

## What the models assume

**Raft.** The network is a set of messages that only grows: each may be handled later, again, in
any order, or never. A crash keeps what is persisted (term, vote, log, snapshot index) and loses the
rest; every change of these is saved before the reply leaves, so persistence is one atomic save.
- Election safety, delivery in order, the permanence of commits and the bound on LeaderCommit need
  nothing else.
- Log matching, leader completeness and state machine safety take two assumptions, both in
  `RaftCluster.Guarded`, each the guard of one branch.
  - An accepted AppendEntries is empty, or wholly committed already, or reaches at least as far as its
    receiver has acknowledged to that leader. It is there because an accepted request cuts the log at
    PrevLogIndex, or at commitIndex, without looking for a conflict (`src/raft1/raft.go:384-394`), while a
    sender gives up on a call after 100 ms and sends again (`src/raft1/raft.go:838`).
  - A rejection that a leader uses puts nextIndex no further than the leader's first guess or just past what
    the peer has acknowledged to it. It is there because the back-up path looks at neither the term nor the
    role (`src/raft1/raft.go:890-906`), and a later success makes nextIndex - 1 a match
    (`src/raft1/raft.go:864-865`).
- Both hold whenever a peer handles the AppendEntries of one term in the order they were sent and a leader
  uses replies in the term it asked in (`RaftOrder.OrderlyIsGuarded`), so all theorems hold of such runs.
  For the second a leader can do better by a test of its own: use a rejection only if it is of the present
  term or does not raise nextIndex (`RaftOrder.TestedIsGuarded`).
- They are exact: in any legal run whatsoever, no peer ever loses an entry it has acknowledged to its
  present leader and no leader ever expects more of a peer than that, if and only if every step met its
  guard (`RaftOrder.NothingLostIffGuarded`). And neither can be dropped. `RaftReorder.ReorderingBreaksSafety`
  is a run of three peers in which exactly one request is handled out of send order, and two peers deliver
  different commands at index 2. `RaftStale.StaleRejectionBreaksSafety` is one in which every request is
  handled in send order and exactly one step, the use of a rejection from an earlier term, is outside the
  guards, and two peers deliver different commands at index 3.
- The AppendEntries handler drops its lock around a debug print, after its checks and before it stores
  (`src/raft1/raft.go:381-383`); in the cluster a handler is one step. `RaftUnlocked.SplitBreaksPromise` says
  what a vote in that gap does. In the cluster no peer compacts; compaction has its own refinement proof.

**Key/value.** One call loses its request, runs and loses its reply, or does both
(`src/labrpc/labrpc.go:248-311`); a request is never run after its call returned. Retry loops run against a
script of what the channel and the other clients do; the script may end before the loop does. Lock
clients have distinct, non-empty IDs, which is exactly what mutual exclusion takes
(`KvLock.ExclusionIffDistinctIds`).

**MapReduce.** Map, reduce and hash functions are arbitrary and deterministic; the end-to-end theorem
asks that the reduce function not depend on the order of its values, as the sequential program, whose
sort is not stable, needs too. There is at least one bucket. A rename is one step, temporary files are
private to the worker that writes them (no two executions of one task share a time stamp), the
directory holds no intermediate files at first, JSON is lossless, and listing files returns them in any order.

**Where code and text differ, the model follows the code.** A refused vote request of a newer term
leaves the old VotedFor in place and answers with the old term (`src/raft1/raft.go:246-266`), unlike
Figure 2 of the Raft paper. An AppendEntries whose entries are all committed returns early and leaves
commitIndex alone (`src/raft1/raft.go:385-388`). The back-up path uses the position findLastIndex returns
without adding SnapshotIndex (`src/raft1/raft.go:895-901`; `RaftCompaction.CompactedBackUp` says what that costs). A candidate wins on its term alone, even if it has
stepped down in that term (`src/raft1/raft.go:1113-1133`), and it counts only when a reply arrives, so a peer
without others never leads (`RaftLive.ElectsIffTwo`). The linearizability specification has no arm for a
Put answered ErrNoKey (`src/models1/kv.go:62-67`), so a history with one is refused:
`KvHistory.LinearizableUnlessNoKey` and `KvHistory.LinearizableIffNeverMisses` are equivalences, and
`KvHistory.SeenKeysLinearize` says how callers avoid it. Once a monitor's timer has fired it may act
although its channel was closed meanwhile (`src/mr/rpc.go:151-181`); the coordinator's proofs allow for that.

## Model

| member | source | states |
|---|---|---|
| RaftSafety.ElectionSafety | src/raft1/raft.go:213-277 | over a whole run, at any two moments, with loss, duplication, reordering and crashes, a term has at most one leader, although a refused vote keeps a stale VotedFor |
| RaftElection.VotesOnlyAdded | src/raft1/raft.go:244-276 | a vote cast in a term is never replaced by one for somebody else |
| RaftElection.WinnerHasMajority | src/raft1/raft.go:1113-1133 | a win rests on n/2+1 different peers that voted for the winner in that term |
| RaftElection.WinnerIsFirst | src/raft1/raft.go:1105-1133 | a term that is won had no leader before |
| RaftSafety.StateMachineSafety | src/raft1/raft.go:342-410 | in every guarded run, of the command sequences any two peers have delivered, at any two moments, one is a prefix of the other |
| RaftSafety.DeliveredInOrder | src/raft1/raft.go:450-471 | on any network, deliveries carry the indices 1, 2, 3, ... without a gap and the commands the log has at these indices |
| RaftSafety.LeaderCompleteness | src/raft1/raft.go:472-484 | in every guarded run, what a peer has committed is in the log of every leader of a later term, at whatever moments the two are looked at |
| RaftSafety.LogMatching | src/raft1/raft.go:365-395 | in every guarded run, two logs, of any peers at any moments, that agree on the term at an index agree on everything up to it, through truncation and splicing alike |
| RaftSafety.CommitsStay | src/raft1/raft.go:384-403 | on any network, while a peer is up its committed prefix is never changed or shortened |
| RaftSafety.LeaderCommitIsSent | src/raft1/raft.go:784-819 | on any network, every AppendEntries ever sent has LeaderCommit at most PrevLogIndex + len(Entries) |
| RaftSafety.GuardsHold | src/raft1/raft.go:784-819 | in every guarded run no handler indexes outside its log, the middle match index is always in the leader's log, and a leader never needs the snapshot branch |
| RaftSafety.BackUpMakesProgress | src/raft1/raft.go:890-906 | a rejection that a leader uses sets nextIndex below the index that was tried and to at least 1, hence strictly down unless it has moved since the request was built |
| RaftRetain.CommittedReachesReign | src/raft1/raft.go:472-484 | an entry stored by a commit quorum in its own term is in the first log of every later leader |
| RaftRetain.SettledComparable | src/raft1/raft.go:384-403 | any two committed prefixes are prefixes of one another |
| RaftRetain.AcceptedLog | src/raft1/raft.go:379-395 | on success, through either storing branch, the receiver holds the leader's log up to the request's last entry, and its log is exactly that or unchanged |
| RaftRetain.CommittedPrefixStays | src/raft1/raft.go:384-403 | no AppendEntries whatsoever changes or lowers what its receiver has committed |
| RaftKeep.RunLogInv | src/raft1/raft.go:342-410 | every guarded run keeps the log, vote, acknowledgement and commit invariants |
| RaftKeep.UpToDateHolds | src/raft1/raft.go:250-255 | a candidate at least as up to date as a voter that holds a leader's entries holds them too, or a leader between them already gave them up |
| RaftKeep.GrantKeeps | src/raft1/raft.go:246-276 | a granted vote keeps the promise that whoever acknowledged an entry votes only for candidates that have it, unless that entry was already lost for good |
| RaftKeep.LeaderCommits | src/raft1/raft.go:472-484 | when the current-term check passes, the leader's log up to the middle match index is stored by a commit quorum |
| RaftQuorum.MedianIsQuorumIndex | src/raft1/raft.go:474-478 | for every n, even or odd, an index is at most the middle element if and only if n - n/2 peers have reached it |
| RaftQuorum.CommitMeetsVotes | src/raft1/raft.go:474-484 | among those peers there is one in every set of n/2+1 voters |
| RaftQuorum.SortSorts | src/raft1/raft.go:477 | the sorting used here yields an ascending permutation |
| RaftSteps.BackUpLowers | src/raft1/raft.go:890-906 | one use of a truthful hint lowers nextIndex below the index tried, and not below 1 |
| RaftSteps.LastAtMostIsLast | src/raft1/raft.go:319-340 | the last position whose term is at most the one asked for: nothing above it qualifies, and it does unless it is 0 |
| RaftOrder.NothingLostIffGuarded | src/raft1/raft.go:379-395 | over every legal run: at every moment each peer holds what it has acknowledged to its present leader, and no leader's nextIndex is past that and its first guess, if and only if every accepted request was empty, committed already or reached that far and every rejection used claimed no more |
| RaftOrder.TestedIsGuarded | src/raft1/raft.go:890-906 | a leader that uses a rejection only in the term it asked in, or when it does not raise nextIndex, meets the second guard of the safety theorems |
| RaftOrder.OrderlyIsGuarded | src/raft1/raft.go:836-848 | handling the AppendEntries of a term in send order, and using replies in their term, implies the guards of the safety theorems |
| RaftReorder.ReorderingBreaksSafety | src/raft1/raft.go:393-394 | a legal run in which exactly one step is out of send order, uses of replies included, delivers different commands at index 2 on two peers |
| RaftReorder.KeepsAcknowledged | src/raft1/raft.go:379-395 | an accepted request keeps the k acknowledged entries if and only if it is a heartbeat, lies at or below commitIndex, or reaches index k-1 |
| RaftStale.StaleRejectionBreaksSafety | src/raft1/raft.go:864-906 | a legal run, every request handled in send order, in which exactly one step, the use of a rejection from an earlier term, is outside the guards delivers different commands at index 3 on two peers |
| RaftStale.RunAcksHandled | src/raft1/raft.go:342-410 | in every legal run whoever has matched a leader has handled a request of it, or is that leader |
| RaftUnlocked.SplitBreaksPromise | src/raft1/raft.go:380-395 | with a vote of a newer term between the check and the store, the peer acknowledges entries and votes for a candidate behind them if and only if that candidate is up to date with its log before them and not after |
| RaftUnlocked.WholeKeepsPromise | src/raft1/raft.go:342-410 | as one step the handler never does both: after the entries such a vote is refused, after the vote the entries are |
| RaftLive.CommandReachesAll | src/raft1/raft.go:342-510 | for every n >= 2, every peer and every command some run, in send order throughout, ends with that peer leading and all n peers having delivered the command |
| RaftLive.ElectsIffTwo | src/raft1/raft.go:1093-1133 | some run of n peers elects a leader if and only if n is at least 2 |
| RaftLive.LoneNeverLeads | src/raft1/raft.go:1093-1133 | in no run of a single peer does it lead |
| RaftEffects.CountHasEffect | src/raft1/raft.go:1108-1192 | a reply of a newer term demotes, the n/2+1st vote takes office with every other nextIndex at the log's end and every matchIndex 0, a reply in another term changes nothing |
| RaftEffects.AppendHasEffect | src/raft1/raft.go:342-410 | an older term is refused unchanged; otherwise term, role and vote follow the sender, success means exactly that prevLogIndex is there with prevLogTerm, and then every index up to it, or up to commitIndex, keeps its entry and every later one up to the request's end has the request's |
| RaftEffects.RequestHasEffect | src/raft1/raft.go:784-819 | a request has the leader's entry at every index from nextIndex to the end of its log, and the term just before |
| RaftEffects.UseHasEffect | src/raft1/raft.go:849-906 | a success matches only in the leader's own term, a newer term demotes only there, any other rejection moves that peer's nextIndex alone |
| RaftEffects.BackUpHasEffect | src/raft1/raft.go:890-906 | nextIndex becomes the length carried, or one past the last position of the term carried, or the index carried if the log lacks the term |
| RaftEffects.CommitHasEffect | src/raft1/raft.go:472-484 | commitIndex becomes the greatest index that n - n/2 peers have reached, the leader counted at its log's end, exactly if it is higher and of the current term |
| RaftEffects.ReachedIsCommitted | src/raft1/raft.go:472-484 | a current-term entry that n - n/2 peers have reached is committed by the next attempt |
| RaftServer.WakeHasEffect | src/raft1/raft.go:427-510 | a wake-up delivers the snapshot if one is held and undelivered, then the log's own command at each index up to commitIndex, except on a leader whose commitIndex did not rise |
| RaftServer.SnapshotSurvives | src/raft1/raft.go:175-192 | a non-empty snapshot keeps its bytes, index and term through a crash and is what the restarted peer delivers, and all it delivers, first |
| RaftServer.HintIsStart | src/raft1/raft.go:372-378 | the index a rejection carries is that of the first entry of the conflicting term |
| RaftServer.Raft.Make | src/raft1/raft.go:1305-1352 | a new or restarted peer is the blank one, or the saved one with volatile state reset |
| RaftServer.Raft.ReadPersist | src/raft1/raft.go:128-160 | restores term, vote, log and snapshot index, and the snapshot's term only from a non-empty snapshot |
| RaftServer.Raft.PersistState | src/raft1/raft.go:111-125 | the disk then holds exactly what a restart needs |
| RaftServer.Raft.RequestVote | src/raft1/raft.go:213-277 | the term becomes the greater of the two and a newer one makes a follower, refused or not; the vote is granted exactly when the candidate is not behind and the term is newer or the vote free or its own; a refusal keeps votedFor and answers with the old term; state and disk are those the election proofs use |
| RaftServer.Raft.StartElection | src/raft1/raft.go:1084-1089 | a new term, voted for itself, saved |
| RaftServer.Raft.GetVote | src/raft1/raft.go:1041-1053 | asks with the index and term of its last entry |
| RaftServer.Raft.CountVote | src/raft1/raft.go:1108-1192 | one reply's effect: ignored, demoted, counted, or elected with nextIndex and matchIndex reset |
| RaftServer.Raft.FindFirstIndex | src/raft1/raft.go:298-315 | on sorted terms the binary search finds the first position of the run of a term, and 1 instead of the dummy's 0 |
| RaftServer.Raft.FindLastIndex | src/raft1/raft.go:319-340 | on sorted terms the search that switches to a scan at ten entries finds the last position whose term is at most the one given |
| RaftServer.FindFirstIsStart | src/raft1/raft.go:298-315 | on sorted terms the position found carries the term and its predecessor does not |
| RaftServer.Raft.StoreEntries | src/raft1/raft.go:379-405 | truncation, splice and commit advance leave the state the safety proofs assume |
| RaftServer.Raft.AppendEntries | src/raft1/raft.go:342-410 | new state, disk and reply are those of the specification the log proofs use, the hint included when the log's terms ascend |
| RaftServer.Raft.Start | src/raft1/raft.go:983-1009 | a leader appends the command at the index it returns, anyone else refuses and changes nothing |
| RaftServer.Raft.MakeAppend | src/raft1/raft.go:783-819 | an impossible nextIndex is pulled back, and the request carries the whole suffix from it |
| RaftServer.Raft.UseAppend | src/raft1/raft.go:849-906 | the three uses of a reply: match, demote, back up, each with its own guard; the new nextIndex is the specified one when the log's terms ascend |
| RaftServer.Raft.ApplyCommitted | src/raft1/raft.go:450-471 | delivers exactly the entries up to commitIndex, in order, and remembers how far it got |
| RaftServer.Raft.CommitMajority | src/raft1/raft.go:474-484 | commitIndex moves to the greatest index that n - n/2 peers have reached if that is higher and of the current term, and stays otherwise |
| RaftServer.Raft.ApplyLogEntries | src/raft1/raft.go:427-510 | one wake-up: the held snapshot first, then commit, then each command up to commitIndex at its own index, and on a leader nothing is delivered unless the commit advanced |
| RaftServer.DeliversCommitted | src/raft1/raft.go:450-471 | the delivered messages are the commands between lastApplied and commitIndex, each at its own index |
| RaftServer.Raft.TakeSnapshot | src/raft1/raft.go:175-192 | old or premature indices change nothing; otherwise data, index and the log's term there are kept and saved, the log starts at the snapshot and nothing above it is lost |
| RaftServer.RestartKeepsDurable | src/raft1/raft.go:111-160 | saving and restoring loses only volatile state; a non-empty snapshot and its term come back |
| RaftCompaction.CompactionRefines | src/raft1/raft.go:128-192 | through votes, elections, AppendEntries, commands, uses of replies, wake-ups, snapshots at committed indices and crashes, the compacting peer gives the answers of one that never compacts and holds the same entries above its snapshot; a wake-up is given the same match indices on both, and of the commands the two then deliver (possibly none) one list is the end of the other |
| RaftCompaction.SameWake | src/raft1/raft.go:427-510 | with the same match indices both commit the same, and of the commands they deliver in one wake-up one list is the end of the other |
| RaftCompaction.SnapshotOfCommitted | src/raft1/raft.go:175-192 | a snapshot keeps the two alike if and only if it has no effect or covers committed entries only |
| RaftCompaction.SameVote | src/raft1/raft.go:213-277 | both answer every vote request alike |
| RaftCompaction.SameAppend | src/raft1/raft.go:372-397 | both accept the same AppendEntries to the same abstract log |
| RaftCompaction.SameHint | src/raft1/raft.go:372-378 | the rejection hints are equal unless the conflicting term starts at or below the snapshot, and then point at it or just below |
| RaftCompaction.CompactedBackUp | src/raft1/raft.go:890-906 | when the rejected term is found at the snapshot or above, the compacting leader backs up lower than the other by exactly SnapshotIndex, and turns to the snapshot if and only if the right position is at most twice that, although its log still has the entries; when the term is missing or the hint is a length both back up alike, down to the snapshot |
| RaftCompaction.SameEntries | src/raft1/raft.go:583-590 | equal log lengths and equal entries at every index from the snapshot on |
| RaftCompaction.SameRequest | src/raft1/raft.go:784-819 | both would send the same AppendEntries to a peer whose nextIndex is above the snapshot |
| RaftCompaction.SameRestart | src/raft1/raft.go:128-160 | they stay alike across a crash |
| KvServer.KVServer.Get | src/kvsrv1/server.go:42-54 | value and version of an existing key, or ErrNoKey |
| KvServer.KVServer.Put | src/kvsrv1/server.go:59-78 | all four outcomes, and the store changes in two of them |
| KvServer.Clerk.Get | src/kvsrv1/client.go:32-46 | the retry loop ends with what the server holds when a reply at last arrives, and changes nothing itself |
| KvServer.Clerk.Put | src/kvsrv1/client.go:65-84 | the retry loop ends with the store and answer of the scripted run |
| KvServer.PutThenGet | src/kvsrv1/server.go:42-78 | a Put succeeds exactly with the version a Get reports, and is then what a Get reports, one version up; no other key changes, and a refused Put changes nothing |
| KvServer.AnswerIsDelivered | src/kvsrv1/client.go:65-84 | the clerk returns the server's answer to the first attempt whose reply arrives, with ErrVersion made ErrMaybe on a retry; OK says that this very attempt was applied |
| KvServer.GetIsDelivered | src/kvsrv1/client.go:32-46 | a Get returns what the server holds when its first reply that arrives was made, and leaves no trace |
| KvServer.PutAtMostOnce | src/kvsrv1/client.go:65-84 | whatever is lost and whatever others write, a Put is applied at most once; OK means once, ErrVersion and ErrNoKey mean never |
| KvServer.AppliedOnce | src/kvsrv1/client.go:65-84 | once applied, the Put is never applied again and can only return ErrMaybe |
| KvServer.FirstAttemptErrVersion | src/kvsrv1/client.go:50-57 | ErrVersion is only ever the answer to a first attempt |
| KvHistory.LinearizableUnlessNoKey | src/models1/kv.go:49-67 | in every run of any number of clerks a key's history is linearizable if and only if no Put on it was answered ErrNoKey |
| KvHistory.LinearizableIffNeverMisses | src/kvsrv1/server.go:70-76 | in terms of the guard: linearizable if and only if no Put with a version other than 0 is answered while the key is missing |
| KvHistory.SeenKeysLinearize | src/kvsrv1/server.go:59-78 | callers that put with a version other than 0 only after some operation on the key has returned OK never get ErrNoKey, and their history is linearizable |
| KvHistory.NoKeyIffMisses | src/kvsrv1/server.go:70-76 | some Put on the key was answered ErrNoKey if and only if some step met that guard |
| KvHistory.PointsWithinCalls | src/kvsrv1/client.go:32-84 | the order is that of the executed attempts: each point lies inside its operation's call |
| KvHistory.VersionCountsPuts | src/kvsrv1/server.go:59-78 | a key's version is the number of Puts applied to it |
| KvHistory.AnswersMeanIt | src/kvsrv1/client.go:65-84 | in every interleaving OK means applied once, ErrVersion and ErrNoKey never |
| KvHistory.AttemptAnswers | src/kvsrv1/client.go:32-84 | in the runs, an attempt ends its operation exactly when its reply arrives: a Get with what the key holds, a Put with the server's answer |
| KvHistory.NoKeyRefused | src/models1/kv.go:62-67 | no order that contains a Put answered ErrNoKey is accepted |
| KvHistory.NoKeyWitness | src/kvsrv1/server.go:70-76 | a Put with version 1 on a missing key gives such a history |
| KvLock.MutualExclusion | src/kvsrv1/lock/lock.go:38-109 | with distinct IDs, at most one client is between Acquire and Release; the stored value is its ID then, and is not its ID outside |
| KvLock.ReleaseAnswers | src/kvsrv1/lock/lock.go:88-99 | Release's Put is never answered ErrVersion or ErrNoKey, so Release never gives up with the lock still stored |
| KvLock.ExclusionIffDistinctIds | src/kvsrv1/lock/lock.go:38-75 | for every lock name and any two or more clients: in all runs at most one holds the lock if and only if their IDs are non-empty and pairwise different |
| KvLock.SharedIdBreaks | src/kvsrv1/lock/lock.go:57-59 | for every lock name and every ID, two clients that share it are not kept apart |
| KvLock.BothHold | src/kvsrv1/lock/lock.go:44-59 | any two clients of which one has an empty ID or the ID of the other can both hold the lock |
| KvLock.Lock.Acquire | src/kvsrv1/lock/lock.go:38-75 | its rounds are those of the lock clients in the runs, returned or not; when it returns the client owns the lock and the stored value is its ID |
| KvLock.Lock.Release | src/kvsrv1/lock/lock.go:77-109 | its rounds are those of the lock clients in the runs, returned or not; when it returns the client does not own it and the stored value is not its ID; without ownership it touches nothing |
| KvLock.AcquireGetsFree | src/kvsrv1/lock/lock.go:38-75 | left in peace, Acquire gets a lock that is free or already its own in its first round |
| KvLock.AcquireWaits | src/kvsrv1/lock/lock.go:38-75 | and never one that another client holds, however many rounds it makes |
| KvLock.ReleaseFrees | src/kvsrv1/lock/lock.go:77-109 | left in peace, Release frees the lock it holds in its first round |
| KvLock.RefusedMeansGone | src/kvsrv1/lock/lock.go:88-99 | a refused Put with the version just read means the client's ID is no longer stored |
| MapReduceRun.JobMatchesSequential | src/mr/coordinator.go:63-71 | however workers crash, stall, finish late or twice, from the moment Done has answered true all output files exist, none is extra, and their lines are as a multiset the sequential program's |
| MapReduceRun.DoneMeansSequential | src/main/mrsequential.go:38-84 | the same for any one reached state in which the job is done, for every sort the sequential program may use |
| MapReduceRun.RunKeeps | src/mr/worker.go:54-174 | in every run each file holds exactly its bucket of its task's pairs, a task counted as done has its files in place, and every output file has its bucket's expected lines |
| MapReduceRun.Collected | src/mr/worker.go:103-134 | in whatever order the files are listed, a reduce task collects its bucket of the whole input |
| MapReduceRun.Sequential | src/main/mrsequential.go:38-84 | its lines are those of some sort of all pairs, and one expected line per distinct key |
| MapReduceRun.MapBranch | src/mr/worker.go:54-82 | the files written are the buckets of its pairs |
| MapReduceRun.ReduceBranch | src/mr/worker.go:103-157 | decoding, sorting and grouping complete bucket files yields the bucket's expected lines |
| MapReduceData.PartitionExpected | src/mr/worker.go:73-81 | for every input, hash function and number of buckets, the buckets' expected lines taken together are those of the whole input |
| MapReduceData.SortedRunLines | src/main/mrsequential.go:59-84 | whichever sort is used, grouping runs of equal keys gives one line per distinct key over all its values |
| MapReduceData.OneCallPerKey | src/mr/worker.go:145-157 | over a sorted list reduce is called exactly once for each distinct key, with exactly that key's values |
| MapReduceData.BucketExpected | src/mr/worker.go:73-81 | a bucket's keys are those that hash to it, each with all its values |
| MapReduceData.ReduceSorted | src/mr/worker.go:145-157 | the i, j, k loops write the lines of the recursive grouping |
| MapReduceData.FillBuckets | src/mr/worker.go:73-81 | one pass leaves in every bucket exactly the pairs that hash to it, in order |
| MapReduceData.SortByKey | src/mr/worker.go:17-23 | some sorted permutation, which is all that is used of sort.Sort |
| MrCoordinator.RunKeeps | src/mr/rpc.go:42-126 | in every run running and done tasks are disjoint, counters count the done tasks, no channel is closed twice, no reduce is running or done before all maps are, and every live monitor belongs to the present assignment or a finished task |
| MrCoordinator.TimeOutIsOwn | src/mr/rpc.go:151-181 | a timeout ends its own assignment, whose channel is open, or nothing: an old monitor never evicts a newer one |
| MrCoordinator.SearchFinds | src/mr/rpc.go:49-58 | the counters leave room for an assignment if and only if the search finds a free task |
| MrCoordinator.AnswerMeans | src/mr/rpc.go:42-90 | an assigned task was free and now runs, reduce tasks only after all maps; "done" is answered exactly when the job is done and "wait" only while something runs |
| MrCoordinator.AnswerPicks | src/mr/rpc.go:42-90 | a map task is assigned exactly while one is free, a reduce task exactly when all maps are done and one is free, always the first free one, with the number of buckets |
| MrCoordinator.FinishHasEffect | src/mr/rpc.go:100-126 | a completion of a running task of either kind counts once, any other changes nothing |
| MapReduceLive.JobCanFinish | src/mr/rpc.go:42-181 | from every moment of every run with a worker, whatever crashed or stalled, some continuation ends with the job done and the sequential program's output |
| MrCoordinator.RunOnlyAdds | src/mr/rpc.go:100-126 | nothing done is ever undone and the counters never fall |
| MrCoordinator.DoneIsFinal | src/mr/coordinator.go:63-71 | reading the two counters at different moments without the lock never answers true too early, and the answer is final |
| MrServer.Coordinator.MakeCoordinator | src/mr/coordinator.go:76-94 | every task numbered by its position, none running, none done |
| MrServer.Coordinator.GetTask | src/mr/rpc.go:42-90 | state, reply and started monitor are those of the specification, and the invariants hold after |
| MrServer.Coordinator.FinishTask | src/mr/rpc.go:100-126 | a completion of a running map or reduce task sets its flag, raises that counter by one, ends the assignment and closes its channel, and changes nothing else; any other completion changes nothing |
| MrServer.Coordinator.TimeOut | src/mr/rpc.go:151-181 | a running assignment is dropped so that it can be given out again, its channel is closed once, and no flag or counter changes |
| MrServer.Coordinator.Done | src/mr/coordinator.go:63-71 | true if and only if every map and every reduce task is done |
| ShardBalance.RebalanceBalances | src/shardkv1/shardcfg/shardcfg.go:122-154 | from any assignment whatsoever a rebalance ends with every shard on a member group and loads at most one apart, or all 0 without groups |
| ShardBalance.RebalanceMovesFewest | src/shardkv1/shardcfg/shardcfg.go:122-154 | no balanced assignment to the present groups leaves more shards in place than the one reached |
| ShardGreedy.RebalanceIsGreedy | src/shardkv1/shardcfg/shardcfg.go:122-154 | orphans are placed in order on the lightest group, then the lowest-numbered shard of the heaviest group goes to the lightest until loads are at most one apart, smaller IDs winning ties |
| ShardGreedy.OnlyGreedyResult | src/shardkv1/shardcfg/shardcfg.go:122-154 | every such course of moves ends in the same assignment |
| ShardBalance.NoShardMovesTwice | src/shardkv1/shardcfg/shardcfg.go:140-153 | the shards moved by the second loop are pairwise different and were on member groups to begin with, so no shard is reassigned twice |
| ShardBalance.LevelKeeps | src/shardkv1/shardcfg/shardcfg.go:140-153 | no group both gives and receives, and no receiver ends above a giver |
| ShardBalance.ShiftLowersSquares | src/shardkv1/shardcfg/shardcfg.go:140-153 | every move lowers the sum of squared loads, so the loop ends |
| ShardBalance.JoinMovesToJoiners | src/shardkv1/shardcfg/shardcfg.go:207-213 | from a balanced non-empty configuration joining moves shards onto joining groups only |
| ShardBalance.LeaveMovesOrphansOnly | src/shardkv1/shardcfg/shardcfg.go:215-221 | from a balanced configuration leaving moves only the shards of departing groups |
| ShardConfigs.ReachedIsBalanced | src/shardkv1/shardcfg/shardcfg.go:207-221 | every configuration reached by successful changes is balanced, has counted its changes, and has no server in two groups |
| ShardConfigs.ChangeDisturbsLeast | src/shardkv1/shardcfg/shardcfg.go:207-221 | from every such configuration one more change moves shards only to joiners or from leavers, and as few as possible |
| ShardConfigs.ShardConfig.MakeShardConfig | src/shardkv1/shardcfg/shardcfg.go:44-49 | number 0, no groups, every shard on 0 |
| ShardConfigs.ShardConfig.Analyze | src/shardkv1/shardcfg/shardcfg.go:80-111 | the heaviest and lightest groups, ties to the smallest ID, with their loads; the sentinels only without groups |
| ShardConfigs.ShardConfig.Least | src/shardkv1/shardcfg/shardcfg.go:115-118 | the lightest group, or -1 |
| ShardConfigs.ShardConfig.Rebalance | src/shardkv1/shardcfg/shardcfg.go:122-154 | the in-place loops end, in an assignment that depends on the shards and the set of group IDs only |
| ShardConfigs.ShardConfig.Join | src/shardkv1/shardcfg/shardcfg.go:156-183 | in whatever order the map is walked: succeeds if and only if something joins, no ID is taken and no server is shared; otherwise at most some groups were added |
| ShardConfigs.ShardConfig.Leave | src/shardkv1/shardcfg/shardcfg.go:185-205 | succeeds if and only if the IDs are non-empty, present and distinct; otherwise exactly the IDs before the first offender are gone |
| ShardConfigs.ShardConfig.JoinBalance | src/shardkv1/shardcfg/shardcfg.go:207-213 | a successful change rebalances over the new groups, a refused one leaves shards and number alone |
| ShardConfigs.ShardConfig.LeaveBalance | src/shardkv1/shardcfg/shardcfg.go:215-221 | the same for leaving |

## Left out

- RaftServer.Raft.AppendEntries: does not cover a PrevLogIndex below SnapshotIndex, where the source indexes its log negatively and panics.
- RaftServer.Raft.CommitMajority: asks that the middle match index be in the log, as `RaftSafety.GuardsHold` proves it is in guarded runs; the source panics otherwise.
- RaftServer.Raft.ApplyLogEntries: is one wake-up that nothing else interrupts; the source lets go of its lock around each delivery, and its inner loop spins if a snapshot arrives then. Nor does it cover a peer restarted with an empty snapshot below its SnapshotIndex, where that loop spins as soon as commitIndex rises (`src/raft1/raft.go:452-457`); `CanWake` shuts this out.
- RaftCompaction.CompactionRefines: says nothing of nextIndex and matchIndex, so each wake-up is given the match indices; `RaftCompaction.CompactedBackUp` shows that the two leaders' own nextIndex differ.
- RaftUnlocked.SplitBreaksPromise: is about one vote in the gap; other handlers that may run there are not part of this model.
- RaftServer.Raft.MakeAppend: is the AppendEntries branch, so nextIndex is above SnapshotIndex; the snapshot branch beside it is not part of this model.
- KvServer.KVServer.Put: versions are unbounded numbers, the source's 64-bit wrap-around is not modelled; the same holds for terms and indices of Raft.
- KvServer.Clerk.Put: runs against a finite script, so that a call which never returns is one whose script ends first.
- MapReduceRun.JobMatchesSequential: takes at least one bucket; with none the source divides by zero.
- InstallSnapshot and its sender path: its conflict test reads another entry than the one the snapshot ends at, and discarding the log can leave commitIndex past its end.
- Timers, tickers, heartbeats, channels and goroutine scheduling of Raft are nondeterministic steps; that elections and jobs can succeed is proved, that they do in time is not claimed.
- Kill, killed and debug printing; labrpc, labgob, the testers and all test drivers; gob, JSON, net/rpc, globbing and regular expressions.
- FNV hashing is an arbitrary function, so Key2Shard and ihash have no members of their own.
- KvModel's Partition and DescribeOperation: histories are taken key by key from the start.
- ShardConfig's String and FromString convert to and from JSON, Copy duplicates, GidServers and IsMember look up, and CheckConfig is a test's comparison; none of the properties depends on them.
- The unimplemented stubs (kvraft1, rsm, shardctrler, shardgrp, the shardkv clerk) and the example applications.
