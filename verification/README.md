# mcache, verified

A Dafny model of the parts of mcache whose correctness cannot be seen from one function: the Raft
state machine that replicates commands, the sharded cache that can be resized while it is in use,
the LRU and LFU eviction policies, the failover monitor, and the wire protocol.

## How the project is laid out

- **Raft.** `RaftLog` and `RaftServer` are the `Log` and `Raft` objects with their loops; every
  handler is proved to compute the node function of the same name in `RaftNode`. `RaftCluster` puts
  n nodes together with everything ever sent; a message is delivered at most once, in any order, or
  never. `RaftProtocol` and `RaftCompleteness` record what has happened (votes, reigns,
  acknowledgements) and what that record keeps; `RaftInvariants`, `RaftSteps`, `RaftRuns` and
  `RaftSafety` tie nodes and messages to it; `RaftTheorems` and `RaftRules` hold the safety results.
  `RaftSending`, `RaftVoting`, `RaftCommitting` and `RaftDelivering` say, event by event and in every
  run, what is sent, voted, committed and delivered; `RaftRepair` and `RaftCatchUp` how a leader
  brings a follower in line.
  A stale AppendEntries can cut off acknowledged entries in this program, so Leader Completeness
  and State Machine Safety are not true of every run: `RaftStaleRun` builds a run of three nodes in
  which both fail. They are proved for every run in which no delivered AppendEntries is stale: it
  is empty, or conflicts with an entry of the receiver, or reaches at least the end of its log. That
  is exactly the condition under which the receiver does what Figure 2 of Ongaro and Ousterhout,
  "In Search of an Understandable Consensus Algorithm", prescribes.
- **Cache.** `Hashing` places keys. `SubShards` and `Tables` are sub-shards, shards and tables as
  values, `Migration` what leaves one table and enters another, `CacheModel` the transition relation
  of the whole cache with either rehasher. `ShardServer` and `CacheServer` are the loops and the
  cache object, proved to make steps of that relation. `CacheRefinement` and `CacheRuns` compare
  whole runs with one expiring map that has its own notion of lifetime, and `CacheLifetime` says what
  that means to a caller; `CacheProgress` shows that a rehash ends, `CacheSweeping` that counts add
  up, `CacheAdmin` how resizing and closing answer, `CacheRoom` and `CacheCapacity` how much a limited
  cache holds and when it evicts.
- **Eviction.** `Eviction` has the policies as values and `Policies` the policy objects.
  `EvictionOrder` and `EvictionRuns` measure them against a plain record of when and how often each
  resident key was written, and `CacheVictims` carries that over to whole runs of the cache.
  "`minFreq` is the smallest frequency" is not an invariant of the LFU policy; the exact conditions
  under which a bump keeps it and under which an eviction takes the right key are proved, and that
  every eviction meets the latter.
- **Failover.** `Failover` is the monitor that sentinel mode and master-slave mode share.
- **Wire.** `Wire` has integers, buffers and frames, `WireStrings` counted lists of strings.
  `WireRequests`, `WireSets`, `WireHashes` and `WireLists` have, for every command, the bytes of a
  request, the encoder that writes them into a buffer at the offsets of the program, and the decoder
  with the checks and slices of the program; nothing is shared between the two sides.
  `WireReplies`, `WireLoops`, `WireHashReplies`, `WireListReplies` and `WireSetReplies` do the same
  for responses, `WireLayout` fixes the place of every byte of the plain ones, and `WireClient` puts
  server, frames and client together. Where the program slices
  within its payload on every input, so does the model; where it does not, panics and overruns are
  outcomes, with the exact condition for each.

A table that cannot be drained: `ExtractN` always walks eight sub-shards, but a shard limited to 1 to
15 entries has fewer, and the walk then dereferences a nil slot unless a full batch comes first. Such
a table can be resized, but its rehash never ends; operations that would panic are part of the model.

Conventions: keys, values and commands are byte strings; clock readings, probe outcomes and message
deliveries are inputs; where Go iterates over a map, every order is allowed.

## Model

| member | source | states |
|---|---|---|
| `RaftLog.Log.Append` | raft/log.go:23-25 | the log is extended by exactly the given entries |
| `RaftLog.Log.Get` | raft/log.go:28-33 | finds an entry exactly for positions 1 to the last, and returns the one stored there |
| `RaftLog.Log.Last` | raft/log.go:36-42 | index and term of the last entry, (0, 0) of an empty slice |
| `RaftLog.Log.Truncate` | raft/log.go:50-54 | keeps exactly the entries before the given position, and all of them if it is past the end |
| `RaftLog.Log.Slice` | raft/log.go:57-70 | the stretch between the bounds after clamping, empty when they cross |
| `RaftServer.Raft.BecomeFollower` | raft/raft.go:183-198 | the new state is the node function's: a higher term forgets the vote, the same term keeps it |
| `RaftServer.Raft.BecomeCandidate` | raft/raft.go:200-207 | one term up, a vote for itself, one vote counted, a majority needed |
| `RaftServer.Raft.BecomeLeader` | raft/raft.go:209-233 | nextIndex and matchIndex are reset for every other peer and no one else |
| `RaftServer.Raft.ApplyCommitted` | raft/raft.go:501-508 | delivers exactly the entries from the applied index up to the commit index that are in the log |
| `RaftServer.Raft.AdvanceCommitIndex` | raft/raft.go:474-499 | the loop computes the commit scan of the node model and then delivers |
| `RaftServer.Raft.SendAppendEntriesTo` | raft/raft.go:439-468 | at most one message, to a peer with a nextIndex; what it says is fixed in every run by `RaftSending.AppendsInRuns` |
| `RaftServer.Raft.BroadcastAppendEntries` | raft/raft.go:429-437 | one such message to every other peer |
| `RaftServer.Raft.BroadcastRequestVote` | raft/raft.go:379-404 | one vote request with the last index and term to every other peer |
| `RaftServer.Raft.HandleAppendEntries` | raft/raft.go:252-299 | state and reply are those of the node function, including the truncation at prevIndex + 1 |
| `RaftServer.Raft.HandleAppendEntriesResponse` | raft/raft.go:301-322 | the leader's state after a reply; in every run a refusal steps nextIndex back by one but not below 1 and sends again (`RaftRepair.RefusalStepsBack`), an acceptance moves matchIndex up (`RaftRepair.AckMovesOn`) |
| `RaftServer.Raft.HandleRequestVote` | raft/raft.go:324-349 | a vote is given at most once a term and only to an up-to-date candidate |
| `RaftServer.Raft.HandleRequestVoteResponse` | raft/raft.go:351-365 | counts a granted vote of the current term while a candidate, and leads on a majority |
| `RaftServer.Raft.HandleElectionTimeout` | raft/raft.go:371-377 | stands and asks every peer, unless it leads |
| `RaftServer.Raft.HandleHeartbeatTimeout` | raft/raft.go:406-412 | a leader sends to every peer, anyone else does nothing |
| `RaftServer.Raft.HandlePropose` | raft/raft.go:414-427 | a leader appends at the next index in its term and broadcasts, anyone else does nothing |
| `RaftRuns.EventKeeps` | raft/raft.go:158-250 | every handler, on any delivery, keeps the whole cluster invariant and moves the record forward |
| `RaftRuns.RunOk` | raft/raft.go:158-250 | the invariant holds in every state of every run |
| `RaftTheorems.ElectionSafety` | raft/raft.go:183-207 | no run has two leaders of one term, at one time or at different times |
| `RaftTheorems.VotesAreDistinct` | raft/raft.go:351-365 | the bare vote counter never exceeds the number of distinct nodes whose one vote of the term went to the candidate |
| `RaftTheorems.LogMatching` | raft/raft.go:252-299 | in every run, two logs with the same term at an index are identical up to it, even at different times |
| `RaftTheorems.LogShape` | raft/raft.go:414-427 | in every run each entry's index is its position and terms never fall along a log |
| `RaftTheorems.DeliveryInSequence` | raft/raft.go:501-508 | in every run every node delivers indices 1, 2, 3, ... without gap or repeat |
| `RaftTheorems.LeaderCompleteness` | raft/raft.go:474-499 | in every run without stale deliveries, what any node ever commits in some term is in the log of every leader of every later term, also of one that ruled before the entry was committed, and from then on of every leader of that term |
| `RaftTheorems.StateMachineSafety` | raft/raft.go:252-299 | in every run without stale deliveries, what one node has delivered is a prefix of what any other has, or the other way round |
| `RaftCompleteness.CommittedInLaterLeaders` | raft/raft.go:324-349 | an entry acknowledged by a majority in its own term is in the log of every later reign |
| `RaftProtocol.ElectedTermIsNew` | raft/raft.go:351-365 | a majority cannot elect a candidate in a term that has had a leader |
| `RaftProtocol.OverwrittenIsPrefix` | raft/raft.go:277-290 | a log after an accepted AppendEntries is the leader's own log up to the last new entry |
| `RaftRules.AdvanceIsGreatest` | raft/raft.go:474-499 | the commit index becomes the greatest one above it of the current term that a majority matches, and stays if there is none |
| `RaftRules.ReceiverRule` | raft/raft.go:277-290 | the resulting log is Figure 2's if and only if the request is not stale, and otherwise a strict prefix of it |
| `RaftRules.ReceiverRuleInRuns` | raft/raft.go:252-299 | the same for every accepted AppendEntries of every run |
| `RaftRules.ReceiverCommitIff` | raft/raft.go:292-297 | in every run an accepted AppendEntries leaves Figure 2's commit index, the minimum of leader commit and last new entry, if and only if it has entries, or commits nothing new, or nothing beyond its prevIndex, or the log ends there |
| `RaftRules.ReceiverCommitInRuns` | raft/raft.go:292-297 | in runs without stale deliveries that condition always holds |
| `RaftSending.AppendsInRuns` | raft/raft.go:439-468 | in every run every AppendEntries carries the commit index its sender had before the event, and the predecessor and the at most 100 entries of the sender's log from nextIndex on |
| `RaftSending.RequestsInRuns` | raft/raft.go:379-386 | in every run every RequestVote asks for the term after the one its sender was in, with index and term of the last entry of its log |
| `RaftSending.RequestsReachAll` | raft/raft.go:387-400 | in every run a heartbeat or proposal at a leader and a timeout elsewhere send one request to every other node, and otherwise none |
| `RaftDelivering.DeliversFromLog` | raft/raft.go:501-508 | in every run every event leaves what a node has delivered and adds exactly the commands of its log from there to its commit index |
| `RaftDelivering.DeliveredIsTheLog` | raft/raft.go:501-508 | without stale deliveries a node has delivered exactly the commands of its log up to its commit index, each with its index |
| `RaftCatchUp.HeartbeatCatchesUp` | raft/raft.go:291-297 | in every run a heartbeat, however late, that reaches a node whose log equals what the leader's was leaves it with the leader's commit index, as far as the entries sent reach, and with the leader's commands delivered up to there |
| `RaftRepair.AnswerRule` | raft/raft.go:252-299 | in every run an AppendEntries is accepted exactly if its term is no earlier and the receiver has the entry before, of that term; a refusal leaves log, commit index and deliveries alone |
| `RaftRepair.RefusalStepsBack` | raft/raft.go:316-321 | in every run a refusal of the leader's term takes nextIndex for that peer one back, never below 1, changes nothing else and is followed by one request to that peer with the entry before |
| `RaftRepair.AckMovesOn` | raft/raft.go:310-315 | in every run an acceptance raises matchIndex to the last entry sent and never lowers it, and nextIndex follows |
| `RaftRepair.LogRepair` | raft/raft.go:301-322 | from any state with a leader's current request to a node of no later term on its way, requests and refusals in turn lead to an acceptance after fewer refusals than nextIndex, one entry further back for each, and the follower's log then agrees with the leader's up to the last entry sent |
| `RaftRepair.EveryRunCanRepair` | raft/raft.go:406-412 | every run with a leader can go on, from its next heartbeat, so that any node of no later term is repaired in this way |
| `RaftVoting.VoteRule` | raft/raft.go:324-349 | in every run a vote is given exactly if the term is no earlier, no vote of that term went to another, and the candidate's last entry is not behind; what else the request changes is fixed |
| `RaftVoting.BecomesLeaderIff` | raft/raft.go:351-364 | in every run a node becomes leader exactly when the distinct nodes that have voted for it are more than half of all, and then with nextIndex behind its log and matchIndex 0 for every other node |
| `RaftVoting.TimeoutRule` | raft/raft.go:371-377 | in every run a timeout makes any node but a leader a candidate of the next term with its own vote alone, and leaves a leader as it is |
| `RaftVoting.TermRule` | raft/raft.go:183-198 | in every run a message of a later term makes its receiver a follower of that term; one of an earlier term changes nothing and is refused |
| `RaftCommitting.LeadersCommitAll` | raft/raft.go:474-499 | in every state of every run a leader has committed every entry of its term that it and the peers it knows to hold it, a majority, have |
| `RaftCommitting.LeadersCommitOnly` | raft/raft.go:474-499 | in every run a leader's commit index moves only up, and only to such an entry |
| `RaftCommitting.ProposeRule` | raft/raft.go:414-427 | in every run a leader appends a proposed command with its term at the end of its log; other nodes ignore it |
| `RaftStaleRun.LeaderCompletenessFails` | raft/raft.go:285-290 | a run of three nodes in which a later leader lacks a committed entry |
| `RaftStaleRun.StateMachineSafetyFails` | raft/raft.go:285-290 | a run of three nodes in which two nodes deliver different commands at index 2 |
| `Hashing.SubIndex` | shard.go:86-93 | the loop computes the 32-bit FNV-1a hash modulo the number of sub-shards |
| `Hashing.FnvIs` | shard.go:86-93 | the hash of a longer key from that of the shorter: exclusive or with the byte, times 16777619, modulo 2^32; 2166136261 for the empty key |
| `Hashing.XorBits` | shard.go:89 | every bit of the exclusive or is the sum of the two bits without carry |
| `Hashing.AndBits` | cache.go:223-227 | every bit of the mask operation is the product of the two bits |
| `Hashing.PowerOfTwoIff` | cache.go:164-166 | the bit test on a shard count accepts exactly the powers of two |
| `Hashing.ShardIndexIsMod` | cache.go:223-227 | masking by count - 1 is the remainder by the count, for every accepted count |
| `Hashing.SameShardSameSub` | shard.go:86-93 | keys of one shard share a sub-shard whenever the shard count is a multiple of the number of sub-shards |
| `Policies.LRUPolicy.OnAccess` | lru.go:24-28 | moves a tracked key to the front of the list and ignores others |
| `Policies.LRUPolicy.OnAdd` | lru.go:30-36 | the key is in front, once |
| `Policies.LRUPolicy.OnRemove` | lru.go:38-43 | the key is gone and the order of the others unchanged |
| `Policies.LRUPolicy.Evict` | lru.go:46-55 | takes the key at the back, if there is one |
| `Policies.LFUPolicy.ScanMinFreq` | lfu.go:130-144 | the loop finds the smallest frequency with a list, 0 without lists |
| `Policies.LFUPolicy.RemoveFromBucket` | lfu.go:116-125 | takes the key out; an emptied list goes and takes minFreq with it |
| `Policies.LFUPolicy.Bump` | lfu.go:97-112 | moves the key to the end of the next frequency's list |
| `Policies.LFUPolicy.OnAdd` | lfu.go:40-53 | a new key gets frequency 1 and resets minFreq, a known one is bumped |
| `Policies.LFUPolicy.OnRemove` | lfu.go:55-63 | the key leaves its list and the item map |
| `Policies.LFUPolicy.Evict` | lfu.go:67-84 | takes the oldest key of the list minFreq names, after a scan if there is none |
| `Eviction.EvictOk` | lfu.go:67-84 | a well-formed policy that tracks keys gives up exactly one of them and tracks the rest |
| `EvictionOrder.LfuEvictsVictimIff` | lfu.go:67-84 | the evicted key is the oldest of the least written ones if and only if minFreq names no list or the lowest |
| `EvictionOrder.AddMakesMinExact` | lfu.go:40-53 | adding a new key makes minFreq exact, whatever it was before |
| `EvictionOrder.EvictKeepsMinExact` | lfu.go:67-84 | an eviction leaves an exact minFreq exact |
| `EvictionOrder.BumpKeepsMinExactIff` | lfu.go:97-125 | a bump leaves an exact minFreq exact if and only if its key was not alone at its frequency, or that was not the lowest, or the next frequency is in use |
| `EvictionOrder.BumpCanLeaveMinFreqStale` | lfu.go:97-112 | five calls on an empty policy after which minFreq is too high and the next eviction would take the key written more often |
| `EvictionRuns.PerformKeepsRecord` | shard.go:97-250 | writes, reads, removals and policy swaps keep policy, entries and the record of writes in step |
| `EvictionRuns.TrackedAreResident` | shard.go:97-250 | in every run of a sub-shard the policy tracks exactly the keys that have an entry |
| `EvictionRuns.RunEvictsVictims` | shard.go:119-141 | in every run each evicted key is the least recently written one (LRU), or the oldest of the least often written (LFU) |
| `EvictionRuns.NewKeyIsEvictedIff` | shard.go:119-141 | a full LFU sub-shard gives up the key being added if and only if every other key was written at least twice; LRU never does |
| `CacheVictims.SetEvictsVictims` | cache.go:230-261 | in every run of the cache every key a Set evicts is the right victim by the record of its sub-shard |
| `CacheVictims.MoveEvictsVictims` | rehash/incremental.go:53-57 | the same for every write by which a rehash step moves an entry |
| `SubShards.SubSetOk` | shard.go:119-141 | a write leaves the old entries and the new one less the evicted keys; it evicts only for a new key over the limit, and then exactly as many keys as are too many |
| `SubShards.DelAllOk` | shard.go:182-197 | removing keys one by one in any order leaves the other entries and a policy that tracks them |
| `SubShards.AddAllOk` | shard.go:201-212 | a fresh policy told of every key in any order tracks exactly those keys |
| `Tables.EffectiveSubShards` | shard.go:45-57 | between 1 and 8, all eight exactly for no limit or a limit of at least 16, never more than the limit |
| `Tables.SubMaxFits` | shard.go:61-74 | the limits of a new shard's sub-shards add up to no more than the shard's, one entry more in each would be too many, and none is 0 unless the shard's is |
| `Tables.TableSetOk` | shard.go:119-141 | after a write the key is found, the evicted keys are not, all others as before, and every key still sits where its hash says |
| `Tables.TableGetOk` | shard.go:97-117 | a read returns the live value and drops at most the expired entry it asked for |
| `Tables.TableDelOk` | shard.go:143-151 | a delete removes the key and nothing else |
| `Migration.MovedEntryIsSame` | shard.go:226-239 | an extracted item written back at the same instant is the same entry, expiry included |
| `Migration.ExtractedOk` | shard.go:214-250 | an extraction takes live entries out, each once, with the lifetime left, drops expired ones and touches nothing else; it returns fewer than asked only when nothing is left |
| `Migration.PutAllFinds` | rehash/incremental.go:54-57 | after the items are written each key is found as last written, or is gone if evicted |
| `ShardServer.Set` | shard.go:119-141 | the eviction loop computes the sub-shard write |
| `ShardServer.ExtractN` | shard.go:214-250 | the two loops make an extraction, and dereference a nil slot exactly when the shard has fewer than eight sub-shards and its live entries do not fill the batch |
| `ShardServer.Cleanup` | shard.go:182-197 | every sub-shard loses exactly its expired entries, and their number is returned |
| `ShardServer.SwapPolicyIn` | shard.go:201-212 | every sub-shard keeps its entries and gets a fresh policy told of all of them |
| `ShardServer.Len` | shard.go:167-180 | the number of entries that have not expired |
| `CacheServer.Cache.New` | cache.go:45-99 | refuses exactly a shard count that is no power of two and a negative default TTL, and otherwise makes an empty cache laid out for its limit |
| `CacheServer.Cache.Set` | cache.go:230-261 | makes a Set step: write to the new table, delete from the old one, one rehash step; panics exactly when the model does; how long the value then lasts is fixed by `CacheLifetime.ValueLasts` |
| `CacheServer.Cache.Get` | cache.go:264-308 | makes a Get step: new table, then the old one, then one rehash step; panics exactly when the model does |
| `CacheServer.Cache.Del` | cache.go:311-332 | makes a Del step on both tables and one rehash step; panics exactly when the model does |
| `CacheServer.Cache.Len` | cache.go:335-348 | the sum over the shards of both tables |
| `CacheServer.Cache.Cleanup` | cache.go:391-404 | makes a Cleanup step on both tables and returns the number removed |
| `CacheServer.Cache.Resize` | cache.go:160-200 | refuses exactly when closed, for a count that is no power of two, or during a rehash, and otherwise starts a rehash from the current table into a new one |
| `CacheServer.Cache.SetEvictionPolicy` | cache.go:103-128 | swaps the policy of every sub-shard of both tables |
| `CacheServer.Cache.Close` | cache.go:359-369 | closes once and drops everything |
| `CacheServer.Cache.StepIncremental` | rehash/incremental.go:41-72 | one step of the relation: a batch of 16, or on to the next shard, or the end; panics exactly if the shard lacks sub-shards and has fewer than 16 live entries |
| `CacheServer.Cache.StepBatch` | rehash/batch.go:37-67 | the nested loops move every live entry of the old table, each once, and end the rehash; they panic exactly if some shard lacks sub-shards |
| `CacheServer.Cache.ForceComplete` | mbr/migrator.go:203-212 | reading one key over and over, at any times, ends a rehash if and only if every shard still to be drained has all its sub-shards |
| `CacheInvariant.StepKeeps` | rehash/incremental.go:41-72 | a rehash step of either kind keeps the invariant and every live entry; only a size limit can lose keys |
| `CacheRefinement.NextKeepsOk` | cache.go:160-404 | every operation keeps placement, disjoint tables, drained shards and tracked keys |
| `CacheRefinement.NextEffects` | cache.go:160-404 | every operation has on every key the effect it has on a plain map, or the key is gone because of a size limit |
| `CacheRuns.UnboundedRunIsAMap` | cache.go:160-348 | in every run without a size limit every Set, Get, Del and Len answers as one expiring map does, also in the middle of a rehash |
| `CacheRuns.UnboundedNeverPanics` | shard.go:214-250 | in those runs no operation can panic, whatever was resized |
| `CacheRuns.BoundedRunIsBelowAMap` | cache.go:230-332 | in every run, with any limit and policy, Get never returns a stale, deleted or expired value and Len never counts too many |
| `CacheRuns.ExpiryIsKept` | shard.go:214-250 | in every run a visible entry has the value and the expiry of its last write |
| `CacheLifetime.ValueLasts` | cache.go:230-309 | in every run without a size limit, a Get after a Set of its key, with no Set or Del of it and no Close between, returns that value if the TTL is not positive, or there is none and no default, or it has not run out since the Set; otherwise the key is not found |
| `CacheLifetime.ValueLastsNoLonger` | cache.go:230-309 | with any size limit and policy it returns that value within its lifetime or reports the key as not found, and nothing else |
| `CacheAdmin.ResizeReplies` | cache.go:160-200 | in every run a Resize is accepted exactly if the cache is open, the count a power of two and no accepted Resize still waits for its completion; otherwise it fails with the error of the first that fails |
| `CacheAdmin.RunReports` | rehash/incremental.go:41-72 | in every run a rehash is under way exactly from an accepted Resize to the reported completion or a Close |
| `CacheAdmin.ClosedForGood` | cache.go:359-369 | in every run a closed cache is empty, stays so, and answers 0 to Len and Cleanup and an error to everything else |
| `CacheSweeping.CleanupReportsWhatIsGone` | cache.go:391-404 | in every run a Cleanup takes out exactly the expired entries, of both tables, and reports how many fewer are stored |
| `CacheSweeping.OperationTakesFew` | rehash/incremental.go:41-72 | in every run with the incremental rehasher an operation takes at most 16 live entries, besides that of its own key, out of the old table |
| `CacheRuns.KeysInPlace` | cache.go:212-227 | in every state of every run a key is in one table at most and in the sub-shard its hash selects |
| `CacheCounting.CountIsVisible` | cache.go:335-348 | the sum over all shards of both tables is the number of visible keys |
| `CacheProgress.NextProgress` | rehash/incremental.go:41-72 | every Set, Get or Del leaves less work and no other operation adds any |
| `CacheProgress.RehashEnds` | rehash/incremental.go:41-72 | in every run, once the Sets, Gets and Dels after an accepted Resize number the sum over the old shards of ceil(n/16) + 1 (one, with the batch rehasher), whatever comes between them, the rehash has ended; its end was reported once, and at that event nothing was left in any old shard (with the batch rehasher, every live entry had been moved) |
| `CacheProgress.UndrainableNeverEnds` | shard.go:214-250 | in every run the rehash of a table in which some shard lacks sub-shards lasts for ever and is never reported as done, and fewer operations return than it needs |
| `CacheProgress.ResizedEmptyPanicsIff` | shard.go:45-83 | a new cache that is resized at once panics on the next Set, Get or Del if and only if its limit is 1 to 15 entries a shard |
| `CacheCapacity.CapacityIsKept` | shard.go:45-83 | in every run that uses LRU or LFU throughout, outside a rehash, at most max(maxSize, shards) entries are stored, and one sub-shard limit per shard if the shard count is a multiple of the sub-shards |
| `CacheCapacity.ShareFits` | cache.go:71-85 | the limits of the shards add up to no more than the limit, or to one each if there are more shards than that, and one entry more in each would be too many |
| `CacheRoom.RunIsLaid` | cache.go:160-200 | in every state of every run the number of shards is that of the last accepted Resize, every sub-shard obeys the last policy set, and the number and limit of the sub-shards are those the limit of the cache and the number of shards give |
| `CacheRoom.SetEvictsIffFull` | shard.go:119-141 | in every run a Set evicts exactly if there is a limit, the policy evicts, the key is new and its sub-shard already holds (maxSize / shards, at least 1) / sub-shards entries; and then as many keys as are too many |
| `Failover.Monitor.CheckAndFailover` | cluster/sentinel_mode.go:164-193 | one tick: probes, health flags, the clock of the master's failure and the promotion |
| `Failover.Monitor.TryFailover` | cluster/master_slave_mode.go:224-271 | an unhealthy master gives way to the first healthy replica; otherwise nothing changes; the order of the list is fixed by `Failover.ReplicasKeepTheirOrder` |
| `Failover.Monitor.ProbeReplicas` | cluster/sentinel_mode.go:196-209 | every replica's flag is its probe, all other flags unchanged |
| `Failover.MembersAreKept` | cluster/sentinel_mode.go:238-253 | in every run master and replicas are a permutation of the original distinct nodes |
| `Failover.FailoverIff` | cluster/sentinel_mode.go:164-193 | in every run the master is replaced if and only if it failed every probe over a window of at least the timeout and some replica answers in that tick |
| `Failover.PromotedIsFirstUp` | cluster/master_slave_mode.go:233-243 | the promoted node answered its probe in that tick and no replica before it did |
| `Failover.ReplicasKeepTheirOrder` | cluster/sentinel_mode.go:238-258 | in every run, when the master changes, the replicas are the old ones in their order without the promoted node, followed by the old master; otherwise the list stays as it is |
| `Failover.HealthIsCurrent` | cluster/sentinel_mode.go:174-175 | after a tick a node is marked healthy exactly if it answered in it |
| `Wire.EncodeFrame` | net/protocol.go:58-78 | the buffer written in place holds length, stream, type, flags and payload |
| `Wire.DecodeFrame` | net/protocol.go:82-103 | reads one frame, or tells end, truncation and excess length apart; a stream that ends right behind a header looks like a clean end |
| `Wire.FrameRoundTrip` | net/protocol.go:58-103 | a frame comes back and leaves what follows untouched if and only if its payload is at most 16 MB |
| `WireLayout.UintDigits` | net/protocol.go:66-67 | a number is written most significant byte first |
| `WireLayout.FrameLayout` | net/protocol.go:58-78 | length, stream, kind, flags and payload of a frame stand at 0, 4, 8, 9 and 10 |
| `WireLayout.RequestLayout` | net/protocol.go:156-169 | command, lengths of key and value, TTL, key and value of a plain request stand at 0, 1, 3, 7, 15 and behind the key |
| `WireLayout.ResponseLayout` | net/protocol.go:203-215 | status, lengths of value and message, value and message of a plain response stand at 0, 1, 5, 7 and behind the value |
| `Wire.StreamRoundTrip` | net/protocol.go:82-103 | any frames sent one after another arrive as the same frames |
| `WireRequests.EncodeRequest` | net/protocol.go:156-168 | the buffer written at the offsets of the program holds command, lengths, TTL, key and value |
| `WireRequests.DecodeRequest` | net/protocol.go:171-192 | the decoder with the checks and slices of the program |
| `WireRequests.KVRoundTrip` | net/protocol.go:156-192 | a plain request comes back if and only if its key is shorter than 2^16 and its value than 2^32 bytes |
| `WireRequests.KVDecodedIsCanonical` | net/protocol.go:171-192 | whatever is decoded fits, and encoding it gives back the bytes it was read from |
| `WireRequests.KVOverrunsIff` | net/protocol.go:171-192 | the plain decoder slices past its payload if and only if there is no key and the value is cut off |
| `WireRequests.EncodeResponse` | net/protocol.go:203-214 | the buffer holds status, lengths, value and message |
| `WireRequests.DecodeResponse` | net/protocol.go:217-237 | the decoder with the checks and slices of the program |
| `WireRequests.ResponseRoundTrip` | net/protocol.go:203-237 | a plain response comes back if and only if its value is shorter than 2^32 and its message than 2^16 bytes |
| `WireRequests.ResponseDecodedIsCanonical` | net/protocol.go:217-237 | whatever is decoded fits, and encoding it gives back the bytes it was read from |
| `WireRequests.ResponseOverrunsIff` | net/protocol.go:217-237 | the plain response decoder slices past its payload if and only if there is no value and the message is cut off |
| `WireSets.EncodeSetRequest` | net/protocol.go:281-356 | for every command the buffer written at the offsets of the program holds the bytes of the request |
| `WireSets.DecodeSetRequest` | net/protocol.go:359-436 | the decoder with the checks, 16-bit offsets and loops of the program |
| `WireSets.SetRoundTrip` | net/protocol.go:281-436 | a request of any of the 10 set commands comes back, less unused fields, if and only if its key has at most 65532 or 65528 bytes and lengths and counts fit |
| `WireSets.SetDecodedIsCanonical` | net/protocol.go:359-436 | whatever is decoded fits, and encoding it gives back the bytes it was read from |
| `WireSets.SetPanicsIff` | net/protocol.go:359-436 | the exact payloads on which the set decoder slices backwards: a key of 65533, or 65529, bytes and more that is all there, or not checked |
| `WireSets.SetOverrunsIff` | net/protocol.go:373-392 | it slices past its payload if and only if the key of an SADD or SREM is cut off |
| `WireHashes.EncodeHashRequest` | net/protocol_ext.go:105-207 | for every command the buffer written at the offsets of the program holds the bytes of the request |
| `WireHashes.DecodeHashRequest` | net/protocol_ext.go:210-337 | the decoder with the checks, offsets and loops of the program; every slice is within the payload, whatever its bytes |
| `WireHashes.HashRoundTrip` | net/protocol_ext.go:105-337 | a request of any of the 14 hash commands comes back, less unused fields, if and only if every length and count is below 2^16, and below 2^32 for the value of HSET and HSETNX |
| `WireHashes.HashDecodedIsCanonical` | net/protocol_ext.go:210-337 | whatever is decoded fits, and encoding it gives back the bytes it was read from |
| `WireLists.EncodeListRequest` | net/protocol_ext.go:607-720 | for every command the buffer written at the offsets of the program holds the bytes of the request |
| `WireLists.DecodeListRequest` | net/protocol_ext.go:723-852 | the decoder with the checks, offsets and loops of the program; every slice is within the payload, whatever its bytes |
| `WireLists.ListRoundTrip` | net/protocol_ext.go:607-852 | a request of any of the 14 list commands comes back, less unused fields, if and only if keys, pivots and elements are shorter than 2^16 bytes and values and counts below 2^32 |
| `WireLists.ListDecodedIsCanonical` | net/protocol_ext.go:723-852 | whatever is decoded fits, and encoding it gives back the bytes it was read from, except exactly for an LINSERT whose flag byte is above 1 |
| `WireLoops.SameSize` | net/protocol_ext.go:372-391 | the size a map is given room for does not depend on the order of either iteration |
| `WireHashReplies.EncodeHashResponse` | net/protocol_ext.go:340-447 | for every command, and for errors, the buffer holds the bytes of the response, in some order for a map |
| `WireHashReplies.DecodeHashResponse` | net/protocol_ext.go:450-573 | the decoder with the checks and loops of the program; a list that is cut off yields what was read |
| `WireHashReplies.HashReplyRoundTrip` | net/protocol_ext.go:340-573 | a response to any of the 14 hash commands, error or not, decoded for that command, comes back less unused fields, for every order a map is written in, if and only if lengths and counts fit |
| `WireHashReplies.HashReplyDecodedFits` | net/protocol_ext.go:450-573 | whatever bytes a response is decoded from, its lengths and counts are within the limits |
| `WireListReplies.EncodeListResponse` | net/protocol_ext.go:855-920 | for every command, and for errors, the buffer holds the bytes of the response |
| `WireListReplies.DecodeListResponse` | net/protocol_ext.go:923-997 | the decoder with the checks and loops of the program; a list that is cut off yields what was read |
| `WireListReplies.ListReplyRoundTrip` | net/protocol_ext.go:855-997 | a response to any of the 14 list commands, error or not, decoded for that command, comes back less unused fields if and only if lengths and counts fit |
| `WireListReplies.ListReplyDecodedFits` | net/protocol_ext.go:923-997 | whatever bytes a response is decoded from, its lengths and counts are within the limits |
| `WireSetReplies.EncodeSetResponse` | net/protocol.go:439-494 | for every command the buffer holds the bytes of the response; no message is written |
| `WireSetReplies.DecodeSetResponse` | net/protocol.go:503-563 | the decoder with the checks, 16-bit offsets and loops of the program |
| `WireSetReplies.SetReplyRoundTrip` | net/protocol.go:439-563 | a response to any of the 10 set commands comes back less unused fields if and only if its status is no error, a popped element has 1 to 65532 bytes, and lengths and counts fit |
| `WireSetReplies.SetReplyPanicsIff` | net/protocol.go:533-540 | the decoder panics if and only if a popped element of 65533 bytes or more is all there |
| `WireSetReplies.SetReplyDecodedFits` | net/protocol.go:503-563 | whatever bytes a response that is no error is decoded from, its lengths and counts are within the limits |
| `WireClient.Respond` | net/server.go:523-546 | the payload is the encoded response, behind its command for set, hash and list commands |
| `WireClient.ReceivePayload` | net/client.go:317-377 | the first byte picks the decoder; a malformed response becomes an error response |
| `WireClient.ReadLoop` | net/client.go:304-380 | the loop hands out the answers of all response frames in order, until the stream ends or a decoder panics |
| `WireClient.ResponsesArrive` | net/client.go:304-380 | whatever responses within the limits go over a connection, among any other frames, the client receives exactly those, each for its command, on its stream, in order |

## Left out

- Raft: timers, crash and restart, snapshots and the transport are not modelled; a timeout may happen at any time, and terms and indices are unbounded where the program has 64 bits.
- Raft: the peers are the nodes 1 to n, as the configuration documents.
- RaftTheorems.LeaderCompleteness: proved one way, for runs without stale deliveries; a run with a stale delivery may still be safe. The exact condition is given for the receiver's log (`RaftRules.ReceiverRule`).
- RaftTheorems.StateMachineSafety: one way in the same sense.
- Cache: an operation happens at one instant; interleavings inside one operation, where a rehash step holds no lock between taking entries out and putting them in, and the time that passes within an operation are not modelled.
- Cache: shards, sub-shards and their policies are values held by the cache object, so aliasing of shard objects is not captured; the policy objects are modelled on their own in `Policies`.
- Cache: what state a panic leaves behind; a run consists of operations that return, and which ones would not is stated (`CacheModel.Panics`).
- Cache: set, hash and list values, and the expire, persist, exists, type and keys operations, which look at the new table only.
- Cache: the no-op rehasher and changing the rehasher during a rehash, which discard entries by design; registering policies and rehashers by name; the observer, except for evicted keys and the end of a rehash.
- Cache: times are unbounded, so an expiry that overflows 64 bits is not modelled.
- EvictionRuns.RunEvictsVictims: reads do not reach the policy, so recency and frequency are those of writes, counted since the last policy swap.
- Failover: connecting to nodes, and the reads and writes sent to them; both constructors keep only nodes they have connected to, so the branch for a node without a client does not occur. `HealthCheckTimeout` is part of the probe.
- Wire: a float64 is its bit pattern, and nil and empty are one; buffer pools, and the memory a decoder asks for when a count is large; the streams on which a client waits.
- Client multiplexing and pipelining, the data structures under `ds`, the shard mode of the cluster, the matrix, monitor and scorecard of `mbr`, the command line and the SDKs.
