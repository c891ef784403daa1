# Verified models of a linearizability checker, Raft, a key/value service and MapReduce

A Dafny 4.11 project beside the Go repository of MIT 6.5840 labs. It models four programs and proves
what each is for. `dafny verify dfyconfig.toml` checks everything.

**The checker** (`porcupine/`, `models/kv.go`). `Linearizability` says what a linearization is.
`Search` is memoised backtracking as pure reasoning: a stack of levels, what each has scanned, what
the memo may claim, and a measure that falls on every step. `EntryList`, `Bitset` and `Checker` are
the code itself, on a heap-allocated doubly linked list, a mutable bitset and a hash-bucketed cache.
`Entries` sorts calls and returns by time, `Kv` is the key/value model and its partition, `KvValues`
says what a history may tell in terms of its writes alone,
`Locality` shows that the parts decide the whole, `Parallel` is the pool of goroutines behind the
verdict, `CheckHistory` puts these together, and `Visualization` replays the report.

**Raft** (`raft/raft.go`, without snapshots). `RaftPeer` says what each handler does to a peer's
fields, `RaftHandlers` what that means for every input in terms of the log and the message alone, `RaftServer` is the handlers updating those fields in place, `RaftCluster` is a cluster as a
state machine whose steps are the mutex regions. A sent message stays available, so it may arrive
never, late or repeatedly; a restart keeps the term, the vote and the log. `RaftInvariant` is the
invariant. Its centre is the notion of an entry that is *blocked*: a majority has left its term
without acknowledging it. `RaftGrowth`, `RaftLogs`, `RaftKeeps`, `RaftVoting`, `RaftReplication`,
`RaftAppend` and `RaftCommit` show that every step keeps it, `RaftSafety` draws the conclusions over
whole runs, `RaftBackoff` treats the leader's retreat after a refusal, `RaftExact` says exactly what
votes, appends, retreats and sends come to in a run, and `RaftProgress` shows that a command can get
through in a cluster of any size from two on.

**The key/value service** (`kvsrv/`). `KvServer` is the server and one clerk's call with all its
retries; `KvService` is any number of clerks and the server as a state machine in which the cache
lookup and the locked update are separate steps; `KvLinear` shows that the service is linearizable
in exactly the sense the checker decides, so the checker accepts every run that has come to rest;
`KvProgress` shows that recorded times are honest and that every call can be completed.

**MapReduce** (`mr/`, `main/mrsequential.go`). `MrData` is the data path next to the sequential
program, `MrFiles` the names of intermediate files, `MrCoordinator` the coordinator as a state
machine, `MrServer` its handlers updating fields in place, `MrBarrier` what every run of it keeps,
`MrJob` the job as a whole, and `MrProgress` that every job can be finished.

## Assumptions

- A stretch of code under a mutex, or up to a rendezvous on an unbuffered channel, is one step.
- Words of a bitset are sets of bit positions below 64; strings are sequences of characters and are
  compared character by character; integers do not overflow.
- Raft: the log is never compacted (`X == 0`). A killed peer takes no further step. An append that a
  broadcast or heartbeat of term t sends leaves while the sender is still in term t: the code tests
  only that the sender is leader (`raft/raft.go:666`, `raft/raft.go:782`), and under another term the
  captured end may lie outside the log. That `Start` and the capture of the end in `broadcastLogs`
  are separate steps is *not* assumed away: the guard on `nextIndex` already makes the last entry
  sent one of the sender's own term (`RaftReplication.EntriesAreOk`). An election may start in any
  role, which covers the gap between its test of the role and its lock. The position an append
  starts at is any position inside the log, not only those the back-off reaches.
- Key/value service: request ids are unique, the server does not fail, and a call fails only before
  its handler runs or after the handler has finished.
- MapReduce: the file system does not fail, an attempt reports at most once, and putting a reduce
  task on its queue and counting it is one step. A report that finds its monitor already giving up
  blocks forever while it holds the lock; the model does not take that step.

Where the code and its documentation differ, the model follows the code: a follower's commit index
may fall (`raft/raft.go:563-575`), `isContainTerm` answers 0 when no other entry follows before the
last slot (`raft/raft.go:637-642`), a file name that does not match goes to the bucket of the file
before it (`mr/coordinator.go:366-373`), and an accepted map report may be given up and its input
mapped and accepted again (`mr/coordinator.go:164-167`).

## Model

| member | source | states |
|---|---|---|
| Linearizability.ExtendsIffPartial | porcupine/checker.go:179-253 | choosing minimal operations one after the other yields exactly the orders that respect real time and that the model accepts |
| Linearizability.CompleteIffPartial | porcupine/model.go:5-12 | a complete linearization is a partial one that leaves no operation out, for histories with no return before its call |
| Linearizability.ExtendsCongruent | porcupine/model.go:40-42 | states the model calls equal have the same futures |
| Search.UnlistIsLive | porcupine/checker.go:203-207 | taking a call and its return out of the list of live entries leaves exactly the live entries of the longer path |
| Search.ExhaustedIsFinished | porcupine/checker.go:214-241 | a level that has been scanned to its end, or to a return it may not pass, has no completion |
| Search.HitIsFinished | porcupine/checker.go:198-210 | a cache hit is a configuration from which no completion exists; it is never one on the stack |
| Search.Start | porcupine/checker.go:180-190 | the empty stack at the head of the list satisfies the search invariant |
| Search.Advance | porcupine/checker.go:208-213 | moving the cursor past a refused or remembered call keeps the search invariant |
| Search.Push | porcupine/checker.go:198-207 | placing an accepted, unremembered call keeps the search invariant |
| Search.Pop | porcupine/checker.go:235-241 | backing out of an exhausted level keeps the search invariant and settles its configuration |
| Search.RecordKeeps | porcupine/checker.go:218-233 | updating the longest records with the current stack keeps them valid partial linearizations |
| Search.Exhausted | porcupine/checker.go:215-217 | a scan that ends with an empty stack proves the history not linearizable and the records maximal |
| Search.Completed | porcupine/checker.go:244-252 | when every entry has been lifted the stack is a complete linearization |
| Search.ChildInUniverse | porcupine/checker.go:190-243 | every configuration the search can cache lies in a fixed finite set, which bounds the pushes |
| Bitset.NewBitset | porcupine/bitset.go:10-17 | a new bitset has just enough words and no members |
| Bitset.Clone | porcupine/bitset.go:19-23 | the copy has the same members and shares no storage |
| Bitset.Set | porcupine/bitset.go:29-33 | in place, adds exactly one member |
| Bitset.Clear | porcupine/bitset.go:35-39 | in place, removes exactly one member |
| Bitset.Get | porcupine/bitset.go:41-44 | tests membership |
| Bitset.PopCount | porcupine/bitset.go:46-52 | counts the members of the whole set |
| Bitset.Hash | porcupine/bitset.go:54-60 | each bit is the parity of how many words, and of whether the count of members in binary, has it; so equal bitsets hash alike |
| Bitset.BitsAreBinary | porcupine/bitset.go:54-60 | bit i of the count is set exactly when the count divided by two to the i is odd |
| Bitset.FoldedParity | porcupine/bitset.go:54-60 | exclusive or of the words is parity, bit by bit |
| Bitset.Equals | porcupine/bitset.go:62-72 | word-by-word equality |
| Bitset.MembersDetermine | porcupine/bitset.go:62-72 | bitsets of one length are equal if and only if they have the same members |
| EntryList.InsertBefore | porcupine/checker.go:70-81 | the list gains the node in front, forward and backward links agree |
| EntryList.Length | porcupine/checker.go:83-90 | the number of nodes of the list |
| EntryList.MakeLinkedEntries | porcupine/checker.go:121-138 | the list holds the entries in order and each call is matched to its own return, the nearest one with its id |
| EntryList.Lift | porcupine/checker.go:159-167 | the list without the call and its return, also when the two are adjacent; the lifted nodes keep their links |
| EntryList.Unlift | porcupine/checker.go:169-177 | undoes the matching lift exactly |
| EntryList.LiftPair | porcupine/checker.go:159-167 | lifting on top of earlier lifts keeps every level of the stack of lists restorable |
| EntryList.UnliftPair | porcupine/checker.go:169-177 | under any stack-ordered sequence of lifts, unlifting restores the list of the level below |
| Checker.CacheContains | porcupine/checker.go:145-152 | the bucket search finds a configuration if and only if one with the same ids and an equal state is remembered |
| Checker.FileEntry | porcupine/checker.go:198-202 | filing adds one configuration to the remembered set; stored bitsets never change later |
| Checker.TryCall | porcupine/checker.go:194-213 | one visit of a call entry: place it or move on, keeping list, cache, bitset, stack and search in step |
| Checker.BackOut | porcupine/checker.go:235-241 | popping restores state, bitset and list, and the cursor moves past the call |
| Checker.Iterate | porcupine/checker.go:190-243 | one turn of the loop keeps the invariant and either proves failure or lowers the measure |
| Checker.Explore | porcupine/checker.go:190-243 | the loop ends; the cursor is never nil inside it |
| Checker.CheckSingle | porcupine/checker.go:179-253 | with the kill flag unseen, true if and only if the history is linearizable; records are valid, and maximal when asked for; terminates |
| Sorting.SortBy | porcupine/checker.go:39-60 | a permutation in order, with ties in any order |
| Entries.MakeEntries | porcupine/checker.go:48-60 | entries sorted by time with calls before returns at equal times |
| Entries.SortedEncodes | porcupine/checker.go:39-46 | every order the sort may give to ties encodes the history's precedence exactly |
| Entries.SameLinearizations | porcupine/checker.go:39-60 | replacing times by positions in the sorted list changes no linearization |
| Kv.KvModelCongruent | porcupine/model.go:59-61 | the key/value model's equality meets what the search needs |
| Kv.Partition | models/kv.go:18-34 | one part for each key that occurs, in key order, each in history order |
| Kv.LexIsDictionary | models/kv.go:29-29 | the order of the keys is that of a dictionary |
| KvValues.AcceptedIffTruthful | models/kv.go:40-57 | an order is accepted if and only if every get and every returning append tells what the last put to its key wrote, or nothing, and what was appended since |
| KvValues.LinearizableIffTruthful | models/kv.go:40-57 | linearizability of a store's history, said without the model |
| Locality.KeySeesStore | models/kv.go:40-57 | a step of the store is, at each key, a step of that key's value or nothing |
| Locality.LocalityTheorem | porcupine/model.go:28-32 | a history is linearizable against the whole store if and only if each key's part is, against a single value |
| Locality.PartsGiveWhole | models/kv.go:18-57 | orders of the parts merge into one order of the whole that respects real time |
| Locality.WholeGivesParts | models/kv.go:18-57 | an order of the whole, filtered by key, orders each part |
| Parallel.VerdictSound | porcupine/checker.go:274-353 | over every schedule: Illegal means some part was exhausted, Ok that all succeeded, Unknown that time ran out; with no part at all only a timeout ends the wait |
| Parallel.TimeoutVerdict | porcupine/checker.go:305-308 | after a timeout Illegal exactly when a failure had been read by then, Unknown otherwise |
| Parallel.FailureEndsWait | porcupine/checker.go:295-301 | with no report to make, the first failure read ends the wait and stops the others |
| Parallel.TimeoutStops | porcupine/checker.go:305-308 | a timeout tells the searches to stop, for good |
| Parallel.ReportComplete | porcupine/checker.go:312-340 | without a timeout a report is made only after every search has come to its own end |
| CheckHistory.CheckPart | porcupine/checker.go:365-373 | entries, list and search together decide one part and record its partial linearizations |
| CheckHistory.CheckOperations | porcupine/checker.go:365-373 | for a non-empty history with no return before its call: Ok if and only if the whole history is linearizable against the key-to-string map, that is, has an order that respects real time and in which every answer is what the writes before it left |
| CheckHistory.VerdictDecides | porcupine/checker.go:274-353 | the concurrent verdict says the same, except that it may be Unknown after a timeout |
| Visualization.Partials | porcupine/checker.go:319-338 | the recorded partial linearizations, without repetition |
| Visualization.Replay | porcupine/visualization.go:62-72 | every recorded step is accepted again, so the panic is unreachable, and the states shown are the model's |
| Visualization.Enlarge | porcupine/visualization.go:73-76 | each operation points at a largest partial linearization among those replayed |
| Visualization.LargestIsLongest | porcupine/visualization.go:33-87 | for an exhausted search that is a longest partial linearization containing the operation at all |
| RaftPeer.RunStart | raft/raft.go:509-516 | the start of the run of equal terms that ends at a position |
| RaftPeer.Agreement | raft/raft.go:533-543 | how far entries agree in term with the log, and that they then differ or one ends |
| RaftServer.Raft.Persist | raft/raft.go:154-174 | what is saved is all that a restart needs |
| RaftServer.Raft.constructor | raft/raft.go:1105-1133 | a fresh peer, or the restart of one whose saved state is given |
| RaftServer.Raft.BecomeFollower | raft/raft.go:848-869 | role, term and vote as given, the log untouched |
| RaftServer.Raft.BecomeCandidate | raft/raft.go:839-846 | the next term and a vote for itself, the log untouched |
| RaftServer.Raft.BecomeLeader | raft/raft.go:871-882 | every next index is set to the length of the log by the loop over peers |
| RaftServer.Raft.RequestVote | raft/raft.go:381-407 | granted unless the request is outdated, the term's vote is another's, or the peer's last entry is ahead |
| RaftServer.Raft.ConflictIndex | raft/raft.go:507-517 | the downward scan finds the first index of the conflicting term |
| RaftServer.Raft.FirstConflict | raft/raft.go:532-543 | the scan finds the first disagreement, if there is one |
| RaftServer.Raft.AppendEntries | raft/raft.go:472-576 | taken exactly as the pure rule says; log and commit index then follow from the first entry at odds and from whether anything was new |
| RaftServer.Raft.TakeOver | raft/raft.go:528-575 | in place, the log is replaced from the first entry at odds or extended, and the commit index set to the lesser of the leader's and the last or previous entry's |
| RaftServer.Raft.Start | raft/raft.go:999-1021 | a leader's log grows by the command; index, term and role are those returned |
| RaftServer.Raft.StandForElection | raft/raft.go:897-905 | the peer stands and asks with its last entry |
| RaftServer.Raft.AppendAnswered | raft/raft.go:694-715 | stale answers are dropped, later terms depose, success advances the next index |
| RaftServer.Raft.ApplyNext | raft/raft.go:409-424 | takes the next committed entry, if there is one |
| RaftHandlers.VoteGrantedIff | raft/raft.go:365-407 | a vote is refused in exactly three cases |
| RaftHandlers.VoteLeaves | raft/raft.go:381-407 | what a vote request leaves of every field, and the term in the answer |
| RaftHandlers.AppendTakenIff | raft/raft.go:472-521 | when an append is taken, for every input |
| RaftHandlers.AcceptTakesOver | raft/raft.go:528-575 | what a taken append leaves of log and commit index, for every input |
| RaftHandlers.AppendLeaves | raft/raft.go:472-521 | what else it leaves, and that a refusal tells the length and where the conflicting run begins |
| RaftLogs.QuorumsMeet | raft/raft.go:969-984 | two majorities share a peer |
| RaftLogs.EnoughIsQuorum | raft/raft.go:969-984 | half the peers, rounded down, and the peer itself are a majority for every cluster size |
| RaftLogs.EnoughIffQuorum | raft/raft.go:744-749 | and any others that make a majority with the peer are enough |
| RaftLogs.AcceptedAgrees | raft/raft.go:497-521 | an accepted append meets a log that agrees with the leader up to the previous entry; the scan never falls through |
| RaftLogs.OverwrittenAgrees | raft/raft.go:530-561 | what results agrees with the leader as far as the append went |
| RaftLogs.OverwrittenKeeps | raft/raft.go:530-561 | an append never cuts what the log has in common with the leader |
| RaftLogs.ChosenIsHeld | raft/raft.go:744-763 | an entry a majority acknowledged in its own term is in the log of every later leader |
| RaftVoting.UpToDateHolds | raft/raft.go:365-379 | the election restriction: a candidate up to date with a log holding an entry holds it too, unless it is blocked |
| RaftVoting.VoteIsConsistent | raft/raft.go:381-407 | a granted vote never contradicts an earlier one that matters, although an append may overwrite the vote |
| RaftVoting.WinnerHolds | raft/raft.go:969-984 | a winner holds whatever an earlier leader may have had chosen |
| RaftVoting.WinsAlone | raft/raft.go:969-984 | a candidate with enough votes is the only winner of its term |
| RaftVoting.StartElectionKeeps | raft/raft.go:897-930 | standing for election keeps the invariant |
| RaftVoting.HandleVoteKeeps | raft/raft.go:381-407 | answering a vote request keeps the invariant |
| RaftVoting.ReceiveVoteKeeps | raft/raft.go:932-962 | counting an answer keeps the invariant |
| RaftVoting.TakeLeadKeeps | raft/raft.go:969-984 | becoming leader keeps the invariant |
| RaftReplication.StartCommandKeeps | raft/raft.go:999-1021 | taking a command keeps the invariant |
| RaftReplication.CaptureKeeps | raft/raft.go:1023-1028 | capturing term, end and commit index as a separate step keeps the invariant |
| RaftReplication.EntriesAreOk | raft/raft.go:660-684 | what is sent is a stretch of the leader's log whose last entry is of its own term |
| RaftReplication.SendEntriesKeeps | raft/raft.go:660-684 | sending entries keeps the invariant |
| RaftReplication.SendHeartbeatKeeps | raft/raft.go:766-812 | sending a heartbeat keeps the invariant |
| RaftAppend.OldCommitKept | raft/raft.go:530-561 | an append never cuts what the follower has committed |
| RaftAppend.NewCommitKnown | raft/raft.go:563-575 | a commit index taken from a leader covers only chosen entries that the follower has |
| RaftAppend.OldAckHeld | raft/raft.go:530-561 | an append keeps every acknowledged entry that may still be chosen |
| RaftAppend.HandleAppendKeeps | raft/raft.go:472-576 | handling an append, refused or accepted, keeps the invariant |
| RaftCommit.CountIsChosen | raft/raft.go:744-763 | enough acknowledgements make an entry of the leader's own term chosen |
| RaftCommit.ReceiveAppendKeeps | raft/raft.go:694-715 | counting an acknowledgement keeps the invariant |
| RaftCommit.AdvanceCommitKeeps | raft/raft.go:744-763 | advancing the commit index keeps the invariant |
| RaftCommit.DeliverKeeps | raft/raft.go:409-428 | delivering an entry keeps the invariant |
| RaftCommit.CrashKeeps | raft/raft.go:176-200 | restarting from saved state keeps the invariant |
| RaftSafety.RunInv | raft/raft.go:381-1031 | the invariant holds in every state of every run |
| RaftSafety.ElectionSafety | raft/raft.go:897-985 | each term has at most one leader in the whole run |
| RaftSafety.LogMatching | raft/raft.go:497-561 | two logs, of any peers at any times, with the same term at an index are identical up to it |
| RaftSafety.LogShape | raft/raft.go:999-1021 | in every log index equals position and terms never fall nor pass the peer's own |
| RaftSafety.LeaderCompleteness | raft/raft.go:744-763 | what a peer has committed is in the log of every leader of its term or a later one, then and ever after |
| RaftSafety.CommittedAgree | raft/raft.go:563-575 | two peers at any two moments agree on what both have committed |
| RaftSafety.StateMachineSafety | raft/raft.go:409-428 | no two peers, nor two lives of one, ever deliver different commands at an index |
| RaftSafety.ApplyDiscipline | raft/raft.go:409-428 | between restarts a peer delivers 1, 2, 3, ...; the commit index stays inside the log although both may shrink |
| RaftSafety.SendsInRange | raft/raft.go:660-684 | a leader's captured ends and next indices stay inside its log |
| RaftBackoff.FindTerm | raft/raft.go:617-644 | the binary search leaves the log exactly when every term is lower; otherwise absent or the last position, or 0 when nothing differs before the last slot |
| RaftBackoff.Adjust | raft/raft.go:716-738 | the three ways a leader moves back, said of its log and the reply |
| RaftBackoff.BackoffProgress | raft/raft.go:716-738 | every refusal for a mismatch strictly lowers the start, and the search never leaves the log, whenever follower and leader act |
| RaftExact.PrefixGetsVote | raft/raft.go:365-407 | whoever stands in a later term with a log that extends the voter's gets the vote |
| RaftExact.AppendExact | raft/raft.go:472-576 | in a run an append is taken exactly when it fits; the log then keeps or gains the entries; the commit index becomes the lesser of the leader's and the new last index if an entry was new, of the leader's and the previous index if none was, and else stays |
| RaftExact.BackoffExact | raft/raft.go:716-738 | where a refused leader resumes, said of the two logs: the follower's length, the first place of its term there, or the last place of that term in the leader's log, or 0 exactly when nothing else follows before the last slot |
| RaftExact.VoteCountedExactly | raft/raft.go:932-962 | stale answers are dropped, later terms depose, each granted vote counts once |
| RaftExact.AckCountedExactly | raft/raft.go:694-715 | the same for answers to appends; the next index never moves back |
| RaftExact.SendExact | raft/raft.go:660-684 | a broadcast carries everything from its start to the captured end, with the captured commit index |
| RaftExact.HeartbeatExact | raft/raft.go:787-809 | a heartbeat carries nothing, after the entry before the follower's next index |
| RaftProgress.CommandGetsThrough | raft/raft.go:897-1031 | for every cluster of two or more there is a run in which a leader is elected by just enough votes and a command is delivered by it and another peer |
| KvServer.KVServer.Modify | kvsrv/server.go:32-76 | what each operation answers and does to the store, filed under the request's id |
| KvServer.KVServer.Serve | kvsrv/server.go:24-30 | a request seen before gets its first answer and changes nothing |
| KvServer.KVServer.Done | kvsrv/server.go:47-49 | forgets one request and nothing else |
| KvServer.Call | kvsrv/client.go:39-76 | however many requests and replies are lost, one effect, the first answer, and nothing left in the cache |
| KvLinear.ServerFollowsModel | models/kv.go:40-57 | what the server answers and does is what the sequential model accepts and does |
| KvLinear.StepInv | kvsrv/server.go:24-76 | every step of clerks and server keeps the invariant |
| KvLinear.ServiceLinearizable | kvsrv/server.go:24-76 | over every run completed calls and calls in effect are linearizable; at rest the completed ones alone are |
| KvLinear.CheckRun | kvsrv/test_test.go:49-98 | the checker accepts the log of every run that has come to rest |
| KvLinear.ExactlyOnce | kvsrv/client.go:39-76 | each request takes effect at most once; a completed one did between call and return, with the answer it got |
| KvLinear.RetriesAgree | kvsrv/server.go:24-30 | whatever reply reaches a clerk is the one given when its request took effect |
| KvLinear.CacheBounded | kvsrv/server.go:47-49 | the cache holds only requests whose Done is unhandled, at most one for each clerk, none at rest |
| KvProgress.HonestTimes | kvsrv/test_test.go:49-98 | at any moment of a run, calls ended before are recorded to have ended no later, and those ended or begun after no earlier |
| KvProgress.CallGoesThrough | kvsrv/client.go:39-76 | from any state an idle clerk's call can be completed through losses of every kind, with what the store held and one effect |
| MrData.Spread | mr/worker.go:43-92 | bucket b holds exactly the items whose hash leaves remainder b, each as often and in the order they come |
| MrData.BucketShare | mr/worker.go:46-47 | a bucket holds all there is of an item or nothing, by the remainder of its hash |
| MrData.ValuesExact | mr/worker.go:179-182 | a key's values are those of its items, in order |
| MrData.Group | mr/worker.go:173-189 | sorted items become one line for each key, in the order of the keys, with the key's values in order |
| MrData.MapFiles | mr/worker.go:212-221 | what the map function makes of each file, one after the other |
| MrData.ReduceFiles | mr/worker.go:191-210 | one line for each key over what the files hold, for any order of reading and of equal keys |
| MrData.Sequential | main/mrsequential.go:41-87 | the same for the sequential program |
| MrData.DistributedEqualsSequential | main/mrsequential.go:41-87 | all buckets' lines together are the sequential program's lines, as bags |
| MrFiles.NameRoundTrip | mr/coordinator.go:360-376 | a file name leads back to the bucket it was made for |
| MrFiles.NamesDiffer | mr/worker.go:82-83 | different attempts or buckets never share a file name |
| MrFiles.DestinationIs | mr/coordinator.go:364-374 | the bucket of a file is the number in the last name up to it that matches, or 0 |
| MrFiles.GroupFiles | mr/coordinator.go:360-376 | every file is grouped under its number, an unmatched one under its predecessor's |
| MrServer.Coordinator.constructor | mr/coordinator.go:404-417 | one task for each input, pushed to the front one by one |
| MrServer.Coordinator.GetTask | mr/coordinator.go:267-285 | map tasks first; taking one is a step of the state machine |
| MrServer.Coordinator.WatchTask | mr/coordinator.go:187-211 | starting a monitor is a step |
| MrServer.Coordinator.TimeOut | mr/coordinator.go:144-151 | giving an attempt up is a step |
| MrServer.Coordinator.AddTask | mr/coordinator.go:103-108 | returning a task to the front of its queue is a step |
| MrServer.Coordinator.MapTaskDone | mr/coordinator.go:296-313 | accepting a report, or turning a late one away, is a step |
| MrServer.Coordinator.ReleaseDoneTask | mr/coordinator.go:287-289 | releasing a finished attempt is a step |
| MrBarrier.PlacesStep | mr/coordinator.go:90-185 | no step loses or doubles a task |
| MrBarrier.ReportsStep | mr/coordinator.go:296-327 | every step keeps the accepted reports of different attempts, and those that count of different tasks |
| MrBarrier.Conservation | mr/coordinator.go:257-265 | each wait group counts exactly the queued tasks and the attempts under way; each task is in exactly one place |
| MrBarrier.Barrier | mr/coordinator.go:486-513 | reduce tasks exist only once no map task is left anywhere, and every input then has an accepted report |
| MrBarrier.DoneMeansReduced | mr/coordinator.go:458-484 | done means every bucket's task is finished |
| MrBarrier.OnceIffNoneLate | mr/coordinator.go:163-167 | every input is accepted exactly once if and only if no map attempt is given up after its report |
| MrJob.AcceptedTwice | mr/coordinator.go:163-167 | a run in which one input is accepted twice |
| MrJob.BucketFiles | mr/coordinator.go:378-402 | a bucket's reduce task gets its file from each accepted map report, in order, and nothing else |
| MrJob.BucketContents | mr/worker.go:94-128 | what those files hold is, as a bag, that bucket of everything mapped |
| MrJob.JobEqualsSequential | mr/coordinator.go:486-513 | unless an accepted map report is given up, a job's lines are the sequential program's |
| MrProgress.JobCanFinish | mr/coordinator.go:486-513 | for any inputs and buckets there is a run to the end in which nothing is given up |
| MrProgress.GivenUpIsRetried | mr/coordinator.go:144-151 | a watched attempt can be given up; its task returns to the front and its own late report adds nothing |

## Left out

- The events interface of the checker (`renumber`, `convertEntries`, `checkEvents`): it feeds the same search from a list of calls and returns.
- Append without a return value in the key/value service's clerks; the checker's model covers it.
- CheckHistory.CheckOperations: requires a non-empty history, because on an empty one the source waits for ever; Parallel.VerdictSound covers that case.
- Descriptions, HTML and the non-key/value models of the checker.
- Visualization.Partials: identifies equal records by content; the source does so by pointer and may list one twice.
- Bitset.Hash: words are sets of bit positions, so the machine arithmetic behind popcount and exclusive or is not modelled.
- Raft snapshots and log compaction, which the source leaves unfinished.
- Raft liveness: timers, heartbeat channels and the possibility that becoming a follower blocks on its channel.
- RaftReplication.SendEntriesKeeps: does not model a send labelled with a term the sender has left, because the captured end may then lie outside its log.
- Recovery of the key/value server from a crash; the source has none.
- The labrpc network itself; its outcomes are the loss of a request or of a reply.
- MapReduce liveness, including the deadlock of a report with its own timeout.
- Output files that abandoned reduce attempts leave behind (`mr/worker.go:130-142`) and the removal of intermediate files.
- The FNV hash, JSON, regular expressions beyond the one used, sockets and plugins; the hash is any function.
- kvraft, shardctrler and shardkv, whose handlers are empty.
