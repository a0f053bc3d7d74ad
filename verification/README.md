# The coordination layer of the backtesting engine, in Dafny

The engine's workers, producers and live traders share state through Redis, a
thread pool, Elasticsearch and QuestDB. This project models the code that keeps
that state consistent under interleavings, retries, lost replies, expiry and
crashes, and proves what it promises. `dafny verify dfyconfig.toml` checks
everything.

| module | models |
|---|---|
| `Redis` | strings and sets under keys with an expiry, one clock, one atomic step per command; every command is answered, lost before it takes effect, applied with the reply lost, or skipped by the breaker |
| `StringOrder`, `ClusterRules`, `ClusterMembers` | the sorted cluster tables and their binary searches, the member strings, the verdict on one cluster, the producer's grouping |
| `ClusterGate`, `ClusterCap` | the entry gate as an automaton fed by replies, the code that runs it, and the whole system of workers, broker, producer and clock |
| `ClusterSync` | the producer's rebuild of the `CG#` sets through a temp key and RENAME |
| `QueueOps`, `RedisLoader`, `WorkQueue`, `DrainRuns` | the work queue: the loader, any number of producers and workers in any interleaving, and the drain loops as one worker runs them |
| `ThreadPool` | the mutex, the three condition variables with explicit wait sets, and the order of destruction |
| `TradeLocks`, `PositionManager` | the two books kept on top of the Redis client |
| `SyncRedisClient` | the pump with its deadline and the fail-fast breaker |
| `ElasticPublisher`, `DocumentBatcher` | the retry loop, the chunker, the concurrent buffer |
| `QuestdbIngest` | the drop-oldest queue and its worker |
| `Base64` | the payload codec |

Code that updates state in place is a class or a method with loops, proved
against a function; runs of several threads or processes are sequences of steps
of a state, and the theorems hold for every sequence.

## Hypotheses

These are stated in the theorems, as preconditions or as the steps a run may take.

- Cluster caps (`ClusterCap.ClusterCapsHold`): `Timely` bounds the time from a
  call's first lock to the broker's answer and from there to the set that shows
  the deal; `CG#` is never swapped back to an older snapshot and does not expire
  while deals are open (`Enabled`, cases `Swap` and `Expire`); distinct deals
  have distinct member strings (case `Begin`); `lockTtl <= markTtl`.
  `SlowBrokerBreaksTheCap` shows that the time bound cannot be dropped.
- Producer sync: temp keys hold sets or nothing when it starts. What a
  breaker-skipped clearing DEL leaves behind is part of the exact result.
- Work queue: names are listed once (they carry freshly minted UUIDs) and a
  run's names come from one producer, before its descriptor.
  `WorkQueue.LoadersAreDisciplined` derives the second half from the loader.
- A SET that Redis answers with an error reply goes unnoticed by the pipelined
  client; `ListedNamesHavePayloads` names that case instead of excluding it.
- Trade locks: other clients do not delete or shorten a lock this instance holds
  and an extension that fails after taking effect does not cut it short
  (`Gentle`). The theorems about grants do not need this.
- Position book: the list codec round-trips (`RoundTrips`).
- Elasticsearch: for the state of the index only, document ids are distinct and
  the server applies what it acknowledges (`Honest`).
- Ingest: the queue bound is at least 1; for an empty queue after shutdown also
  the batch size, and no line is empty. `FinalDrain` gives the exact condition.

## Where the code and its comments differ

- `source/shared/redis/positionClustering.cpp:343-352` clears a leftover temp key
  so that stale members are not merged. A DEL skipped by the open breaker has an
  empty error and falls through: `ClusterSync.SkippedClearSwapsStaleMemberIn`.
- `source/shared/redis/tradeLocks.cpp:111-113` says a failed extension leaves the
  cached expiry valid. It does not when the extension took effect unheard with a
  shorter ttl: `TradeLocks.AmbiguousExtendCutsShort`.
- `source/run/reporting/elasticPublisher.cpp:342-350` assumes a chunk delivered when
  its response cannot be inspected, also for documents the same response had
  already refused: `ElasticPublisher.InspectionFailureLosesDocuments`.
- `source/ingest/questdbIngestClient.cpp:131-132` says false means an empty queue. It
  also means a batch of empty lines, which are then in no counter:
  `QuestdbIngest.EmptyLineEndsTheDrain`.
- `source/shared/redis/operations/redisOperations.hpp:95-97` says keyRename throws on a
  missing source. It ignores the reply
  (`source/shared/redis/operations/redisOperations.cpp:193-199`).

## Model

| member | source | states |
|---|---|---|
| StringOrder.BinarySearch | source/shared/redis/positionClustering.cpp:71-87 | the halving search of a strictly sorted table finds the row of a name exactly when there is one |
| StringOrder.SortSorts | source/shared/redis/positionClustering.cpp:182-183 | sorting yields a sorted permutation |
| StringOrder.DropRepeats | source/shared/redis/positionClustering.cpp:184-185 | unique and erase on a sorted vector leave the same elements, strictly sorted |
| StringOrder.StrictlySortedUnique | source/shared/redis/positionClustering.cpp:180-186 | a set has one strictly sorted listing, so the SADD order is determined |
| ClusterRules.GroupsFor | source/shared/redis/positionClustering.cpp:71-87 | over any sorted table, exactly the clusters in the row of a mapped symbol, and an empty view for an unmapped one |
| ClusterRules.FindRule | source/shared/redis/positionClustering.cpp:91-106 | over any sorted table, the rule in the row of a cluster, and nothing exactly when it has no row |
| ClusterRules.RuleFor | source/shared/redis/positionClustering.cpp:126-134 | capacity and strictness are those in the row of the cluster, and 1 and false when it has no row |
| ClusterRules.RulesAreSorted | source/shared/redis/positionClustering.cpp:51-61 | the engine's rule table meets what its search demands, and gives every cluster a positive capacity |
| ClusterMembers.SplitInvertsRender | source/shared/redis/positionClustering.cpp:111-122 | splitting a rendered member gives back symbol and strategy exactly when both are free of '#' |
| ClusterMembers.RenderInjective | source/shared/redis/positionClustering.cpp:165-168 | deals with '#'-free names are told apart by their member strings |
| ClusterMembers.EvaluateClusterGroup | source/shared/redis/positionClustering.cpp:136-163 | the scan reports a set of at least the limit first, then any stacked pair, then any repeated strategy of a strict cluster, wherever in the set they are; a negative limit is never reached |
| ClusterMembers.VerdictIgnoresOrder | source/shared/redis/positionClustering.cpp:136-163 | the verdict does not depend on the order of the members |
| ClusterMembers.BlocksAreMonotone | source/shared/redis/positionClustering.cpp:136-163 | taking members away never turns an Allowed into a block |
| ClusterMembers.VerdictOnSyncedSet | source/shared/redis/positionClustering.cpp:136-168 | the verdict on the strings of a synced set is the verdict of the rules on the deals themselves |
| ClusterMembers.GroupMembersByCluster | source/shared/redis/positionClustering.cpp:170-188 | exactly the clusters with a member, each as the strictly sorted set of its rendered members |
| ClusterMembers.GroupingIgnoresBookOrder | source/shared/redis/positionClustering.cpp:180-187 | books with the same deals, in any order and with any repeats, group identically |
| ClusterMembers.GateSeesTheBook | source/shared/redis/positionClustering.cpp:136-188 | on what the producer writes for a cluster the gate reaches the verdict of the broker's deals there |
| ClusterGate.PositionClustering.IsClusterBlocked | source/shared/redis/positionClustering.cpp:211-303 | under every sequence of replies the call issues the automaton's commands and returns its decision |
| ClusterGate.PositionClustering.MarkOpened | source/shared/redis/positionClustering.cpp:305-329 | one unconditional SET for each cluster of the symbol in order, whatever the replies |
| ClusterGate.PassMeansLockedAndAllowed | source/shared/redis/positionClustering.cpp:225-302 | a call returns false exactly when the symbol is mapped, this call itself set every lock, and every verdict was Allowed |
| ClusterCap.LockExpiryNeverMovesEarlier | source/shared/redis/positionClustering.cpp:225-256 | no step, with any reply lost on the way, moves the expiry of a live cluster lock earlier |
| ClusterCap.LocksOverRuns | source/shared/redis/positionClustering.cpp:236-256 | in every reachable state the locks a recent call set are live, and no two recent calls hold the same cluster |
| ClusterCap.LockLivesOut | source/shared/redis/positionClustering.cpp:225-256 | over any number of further steps a live lock keeps at least its expiry |
| ClusterCap.SharedClusterIsTaken | source/shared/redis/positionClustering.cpp:225-256 | while a call's locks run nobody else can acquire a cluster it shares, so two overlapping calls cannot both pass |
| ClusterCap.AllowedReadHasRoom | source/shared/redis/positionClustering.cpp:258-300 | an Allowed read under a fresh lock means there is room: nobody else is on the way in and every open deal is in the set read |
| ClusterCap.CapInvOverRuns | source/shared/redis/positionClustering.cpp:211-329 | the invariants linking locks, sets, snapshots and open deals hold in every timely run |
| ClusterCap.ClusterCapsHold | source/shared/redis/positionClustering.cpp:211-329 | with any number of workers, crashes and lost replies, the deals open in a cluster never exceed the limit in its rule, or 1 without a rule, and no two of them stack or share a strategy in a strict cluster |
| ClusterCap.NoStackedDeals | source/shared/redis/positionClustering.cpp:145-151 | no two open deals have the same symbol and strategy |
| ClusterCap.SlowBrokerBreaksTheCap | source/shared/redis/positionClustering.cpp:305-313 | a run in which one order takes exactly lockTtl at the broker opens two deals in a cluster of capacity one |
| ClusterSync.Producer.FillTemp | source/shared/redis/positionClustering.cpp:339-376 | it succeeds exactly when every command was answered or was a DEL skipped by the breaker; then the temp key holds the new members, plus leftovers only if the DEL was skipped; nothing else changes at any command |
| ClusterSync.Producer.AddAll | source/shared/redis/positionClustering.cpp:354-367 | the SADD loop succeeds exactly when every command was answered, adding the values to what was there, and touches only the temp key |
| ClusterSync.Producer.SwapCluster | source/shared/redis/positionClustering.cpp:337-400 | after every command CG# is the old set or the complete new one and RENAME always finds its source; it succeeds exactly when every command was answered or was a skipped DEL, and then leaves exactly the new members if and only if the DEL was not skipped or nothing stale was left |
| ClusterSync.Producer.SyncAllClusters | source/shared/redis/positionClustering.cpp:331-403 | over the whole sync each CG# is old or rebuilt after every command and memberless clusters are untouched; it is true exactly when every command was answered or was a skipped DEL, and then every cluster with a member was swapped and expires |
| ClusterSync.SkippedClearSwapsStaleMemberIn | source/shared/redis/positionClustering.cpp:343-352 | a concrete sync in which a breaker-skipped DEL swaps a closed deal in as open |
| Redis.Client.Run | source/shared/redis/client/syncRedisClient.hpp:79-109 | one command, its effect, its result and its record in the log, under every fate |
| RedisLoader.StreamIsSafe | source/load/redisLoader.cpp:51-89 | every name in a stream is listed after its payload is stored |
| RedisLoader.LoadIsSafe | source/load/loadCommand.cppm:274-297 | a load, or any part of it that went out before a failure, lists no name ahead of its payload |
| RedisLoader.Connection.Exec | source/shared/redis/operations/redisOperations.cpp:112-124 | a pipelined request is applied whole, or fails after any part of it was |
| RedisLoader.Gather | source/load/redisLoader.cpp:70-82 | a chunk yields its SETs and its LPUSHes exactly when every key is non-empty and every payload has a character that is no white space |
| RedisLoader.PushKeyedStream | source/load/redisLoader.cpp:57-89 | Redis has a prefix of the stream's program, all of it on success with the right count; it fails for Redis exactly when a request failed, a stream with a blank payload or key whose requests succeed is invalid, and a blank payload leaves no write from its chunk |
| WorkQueue.EveryNameIsSomewhere | source/run/queue/drainRuns.cpp:157-280 | conservation: in every reachable state each pushed name is in exactly one place, listed, claimed, running, or ended as executed, unparseable, missing or lost with an aborted worker |
| WorkQueue.EachPayloadHasOneTaker | source/run/queue/runQueue.cpp:52-64 | no payload is taken by two workers and no name takes two payloads; what ran was taken by the worker that claimed its name |
| WorkQueue.EndingsAreFinal | source/run/queue/drainRuns.cpp:187-280 | an executed, skipped or lost name stays so, and a claimed name never changes hands |
| WorkQueue.ListedNamesHavePayloads | source/load/redisLoader.cpp:51-56 | a listed or claimed name has its payload stored, unless its time to live is over or Redis refused the SET |
| WorkQueue.RetiredRunsStayEmpty | source/run/queue/drainRuns.cpp:289-297 | once a parseable run's descriptor is removed its name list is empty for good |
| WorkQueue.ListedRunsStayAdvertised | source/run/queue/drainRuns.cpp:157-167 | no orphans: while an advertised run has names listed its descriptor is on its queue |
| WorkQueue.ParkedMeansDrained | source/run/queue/drainRuns.cpp:304-325 | a parked worker has nothing in flight, and each name it ever claimed was executed or reported missing or unparseable |
| WorkQueue.StoppedWorkersClaimNothing | source/run/queue/drainRuns.cpp:269-287 | after a stop is observed no further name is popped |
| WorkQueue.ExperimentWorkersNeverPark | source/analysis/queue/drainExperiments.cpp:55-246 | the experiment instance has no stop path: it never drains or parks |
| WorkQueue.PayloadsDecide | source/run/queue/drainRuns.cpp:196-267 | a claimed name is missing when no payload is stored or its time to live is over, and otherwise runs if the payload parses; the payload is consumed |
| WorkQueue.ClaimsTheOldestName | source/run/queue/drainRuns.cpp:153-167 | a worker claims the oldest name of its run, and goes on to retire the run only when it has none |
| WorkQueue.StopsAreHeeded | source/run/queue/drainRuns.cpp:88-280 | at the top of the loop and after each name a worker stops exactly when its stop signal is set |
| WorkQueue.PeeksInPriority | source/run/queue/runQueue.cpp:40-50 | a peek left alone finds the oldest run of the first queue in priority order that has one, and returns to the top when none has |
| WorkQueue.LoadersAreDisciplined | source/load/loadCommand.cppm:274-297 | any set of loads into lists of their own, complete or cut short, meets the producers' hypotheses |
| WorkQueue.StepKeepsPlaces | source/run/queue/runQueue.cpp:52-57 | each step keeps list contents, without repeats, equal to the names not yet claimed |
| WorkQueue.StepKeepsHeld | source/run/queue/drainRuns.cpp:157-280 | each step keeps what a worker holds or runs equal to what is recorded as its own |
| WorkQueue.StepKeepsPayloads | source/run/queue/runQueue.cpp:59-64 | each step keeps stored and taken payloads apart |
| WorkQueue.StepKeepsTakes | source/run/queue/drainRuns.cpp:198-267 | each step keeps one take per submitted name, of a body that parses |
| WorkQueue.StepKeepsRuns | source/run/queue/drainRuns.cpp:276-297 | each step keeps the lists of advertised, carried and retired runs closed |
| WorkQueue.StepKeepsSupply | source/load/redisLoader.cpp:84-85 | each step keeps a payload in place for every unclaimed name |
| DrainRuns.Worker.PeekRunTail | source/run/queue/runQueue.cpp:40-50 | the oldest run of the first queue in priority order that has one, none only if all are empty |
| DrainRuns.Worker.PopStrategyKey | source/run/queue/runQueue.cpp:52-57 | the oldest name leaves its list, and nothing else changes |
| DrainRuns.Worker.TakeStrategyPayload | source/run/queue/runQueue.cpp:59-64 | the payload is returned and gone |
| DrainRuns.Worker.RemoveRun | source/run/queue/runQueue.cpp:66-72 | every occurrence of the descriptor leaves its queue |
| DrainRuns.Worker.Consume | source/run/queue/drainRuns.cpp:198-267 | one name: its payload is taken, and submitted or reported |
| DrainRuns.Worker.DrainList | source/run/queue/drainRuns.cpp:196-280 | the names are taken oldest first, the first one as claimed, until the list is empty or the look at the stop signal after a name sees it, and for no other reason |
| DrainRuns.Worker.DrainNames | source/run/queue/drainRuns.cpp:153-280 | ticks are loaded once and only with a name already claimed; all the run's names are handled unless a poll of the stop signal saw it |
| DrainRuns.Worker.ServeRun | source/run/queue/drainRuns.cpp:88-302 | an outer iteration retires the run unless a poll saw the stop, a poison descriptor costs only itself, and names plus descriptors strictly decrease |
| DrainRuns.Worker.Drain | source/run/queue/drainRuns.cpp:88-302 | the non-idle iterations end by the measure alone; names claimed plus names left is constant; it ends at the first poll that sees the stop, or idling with every queue empty |
| DrainRuns.ServeHandlesEachOnce | source/run/queue/drainRuns.cpp:187-267 | every name has one outcome in order, its payload goes to its first taker only, other payloads are untouched |
| ThreadPool.Members.Submit | source/shared/utilities/threadPool.hpp:57-64 | the queue, the count and the gauge after a push |
| ThreadPool.Members.TakeTask | source/shared/utilities/threadPool.hpp:91-99 | the oldest task leaves the queue |
| ThreadPool.Members.Account | source/shared/utilities/threadPool.hpp:108-118 | the first error is kept, the count drops, the gauge follows, idleness is reported |
| ThreadPool.Members.TakeError | source/shared/utilities/threadPool.hpp:73-76 | the recorded error is returned and cleared |
| ThreadPool.PoolInvOverRuns | source/shared/utilities/threadPool.hpp:39-136 | accounting, order, wait sets and teardown invariants hold in every reachable state of every pool |
| ThreadPool.InFlightIsQueuedPlusRunning | source/shared/utilities/threadPool.hpp:57-86 | in flight is queued plus being run, at most twice the workers, and the gauge shows it |
| ThreadPool.StartsInOrderOnce | source/shared/utilities/threadPool.hpp:88-99 | tasks start in submission order, each at most once |
| ThreadPool.WorkersWakeStep | source/shared/utilities/threadPool.hpp:57-99 | each step keeps: while a worker waits un-notified, queued tasks are at most the notified workers |
| ThreadPool.SubmittersWakeStep | source/shared/utilities/threadPool.hpp:57-121 | each step keeps: while a submitter waits un-notified, free slots are at most the notifications delivered and pending |
| ThreadPool.NoLostWakeup | source/shared/utilities/threadPool.hpp:57-121 | no reachable state has queued work with every worker asleep, or a free slot with a submitter asleep and nobody on the way to wake it |
| ThreadPool.WaitMeansAllFinished | source/shared/utilities/threadPool.hpp:66-70 | wait returns only when every task submitted so far has finished |
| ThreadPool.DestructionDrains | source/shared/utilities/threadPool.hpp:88-135 | once all workers are joined every task ever submitted has finished, whatever the backlog was |
| ThreadPool.DestructionProceeds | source/shared/utilities/threadPool.hpp:133-135 | the worker being joined can always move, so destruction does not hang |
| ThreadPool.TakeErrorIsEarliest | source/shared/utilities/threadPool.hpp:72-76 | takeError gives the earliest failure recorded since the last take |
| TradeLocks.TradeLocks.IsThereATradeLock | source/shared/redis/tradeLocks.cpp:44-88 | false exactly when no lock is cached and the answered SET NX found none in Redis, which then has it from arrival for the ttl while the cache counts from the call; Redis and the cache under every fate; nothing is sent while the lock is known to be held |
| TradeLocks.TradeLocks.ExtendLock | source/shared/redis/tradeLocks.cpp:90-117 | true exactly when answered; a SET that took effect, heard or not, runs from its arrival, and the cache moves only when it was answered |
| TradeLocks.TradeLocks.ReleaseLock | source/shared/redis/tradeLocks.cpp:119-142 | true exactly when answered; the key is gone when the DEL took effect, and the cache forgets the lock in any case |
| TradeLocks.LockKeysApart | source/shared/redis/tradeLocks.cpp:33-36 | locks of different directions have different keys, and so have different strategy and direction pairs when no direction has a '#' |
| TradeLocks.HashesMerge | source/shared/redis/tradeLocks.cpp:33-36 | two pairs with a '#' in a direction that share one key |
| TradeLocks.StepKeepsCache | source/shared/redis/tradeLocks.cpp:51-63 | no step of a gentle run lets a cached expiry outlive Redis's |
| TradeLocks.ExtendKeepsCacheExactly | source/shared/redis/tradeLocks.cpp:98-115 | an extension keeps the cache within Redis's expiry unless and only unless it took effect unheard with an earlier expiry |
| TradeLocks.AmbiguousExtendCutsShort | source/shared/redis/tradeLocks.cpp:106-114 | a concrete run in which the cache says locked and SET NX would succeed |
| TradeLocks.CacheIsInvisible | source/shared/redis/tradeLocks.cpp:51-87 | over every gentle run the cached class gives the answers, and leaves the Redis, of the class that asks every time |
| TradeLocks.CacheDiffersExactly | source/shared/redis/tradeLocks.cpp:58-71 | under the same weather the two differ exactly when a cached key runs out while an answered SET NX is on its way |
| TradeLocks.FalseMeansAcquired | source/shared/redis/tradeLocks.cpp:66-87 | false exactly when this call's own answered SET NX found no live lock, leaving one for the whole ttl |
| TradeLocks.GrantsAreSeparated | source/shared/redis/tradeLocks.cpp:44-142 | with arbitrary other clients, two grants of a key are a whole ttl apart unless somebody deleted or shortened it in between |
| SyncRedisClient.Client.TripBreaker | source/shared/redis/client/syncRedisClient.cpp:71-81 | every pending request is cancelled and the cooldown runs from now |
| SyncRedisClient.Client.PumpUntil | source/shared/redis/client/syncRedisClient.cpp:37-58 | it succeeds exactly when the operation's completion comes before the deadline and before the connection runs out of work; otherwise the breaker is tripped at the deadline or when the work ran out, and nothing is pending |
| SyncRedisClient.Client.Run | source/shared/redis/client/syncRedisClient.hpp:79-109 | a call in the cooldown issues nothing and takes no time; no call leaves a request pending; an operation that completes in time gives its value, one that throws in time gives its message, and nothing else does |
| SyncRedisClient.CallSteps | source/shared/redis/client/syncRedisClient.cpp:31-81 | every call is a step of the abstract breaker |
| SyncRedisClient.OutageStallsAreBounded | source/shared/redis/client/syncRedisClient.cpp:31-81 | over an outage of length T, however often it calls, the caller is held up at most opTimeout times 1 + T / cooldown |
| PositionManager.PositionManager.FetchList | source/shared/redis/positionManager.cpp:165-193 | an answered call gives the list as it stands, where a value that is not a list is Failed; a call not answered is Failed |
| PositionManager.PositionManager.GetPositionPayloads | source/shared/redis/positionManager.cpp:289-335 | the live deals of the list in order; a failed call or an unreadable list is never an empty book, and nothing else fails |
| PositionManager.PositionManager.GetPositionCount | source/shared/redis/positionManager.cpp:209-216 | the number of live deals of the list; a call fails only if a command did or the list cannot be read |
| PositionManager.PositionManager.AddPosition | source/shared/redis/positionManager.cpp:259-287 | the list read gains the id at its end, or nothing is written if it has it; a call fails only if a command did or the list cannot be read |
| PositionManager.PositionManager.RefreshPositionList | source/shared/redis/positionManager.cpp:337-400 | the list becomes its survivors, or is deleted if there are none, and nothing else changes; a call fails only if a command did or the list cannot be read |
| PositionManager.PositionManager.MoveToHistory | source/shared/redis/positionManager.cpp:407-433 | the payload is gone, and in history for 60 days exactly when the second command took effect; it fails only if the first command did or was refused |
| PositionManager.PositionManager.RemovePosition | source/shared/redis/positionManager.cpp:402-462 | the payload moves to history and the id, and only it, leaves the list; a failed history copy is not a failure, and a call that fails stopped after one of these steps |
| PositionManager.EraseAll | source/shared/redis/positionManager.cpp:444 | erase keeps the other ids in order |
| PositionManager.SurvivorsSuffice | source/shared/redis/positionManager.cpp:359-375 | reading the survivors is reading the whole list exactly when no dropped id is alive |
| PositionManager.RefreshIsInvisible | source/shared/redis/positionManager.cpp:337-400 | in any later state the book is the same with and without the refresh exactly when no id it dropped has come back alive |
| PositionManager.RefreshIsInvisibleAtOnce | source/shared/redis/positionManager.cpp:337-400 | time alone never makes a refresh visible |
| PositionManager.SurvivorsAreStable | source/shared/redis/positionManager.cpp:371-375 | refreshing twice drops nothing more; the survivors are the live ids |
| PositionManager.SurvivorsKeepOrder | source/shared/redis/positionManager.cpp:359-375 | the survivors keep their order |
| PositionManager.AddingTwiceIsAddingOnce | source/shared/redis/positionManager.cpp:266-269 | adding is idempotent and keeps a list free of repeats |
| PositionManager.AddedListIsReadBack | source/shared/redis/positionManager.cpp:275-278 | a written list is read back as written |
| PositionManager.ErasingRemovesOneId | source/shared/redis/positionManager.cpp:444 | exactly the one id goes, and a list free of repeats is one shorter |
| PositionManager.RemovedDealsAreUnseen | source/shared/redis/positionManager.cpp:407-444 | a removed deal is off every book and every other deal stays on it |
| PositionManager.CorruptIsNotEmpty | source/shared/redis/positionManager.cpp:182-190 | there is no book exactly when the key holds something that is not a list |
| PositionManager.KeysApart | source/shared/redis/positionManager.cpp:28-36 | the three key families never collide, and each is injective in its id |
| PositionManager.BooksKeepOrder | source/shared/redis/positionManager.cpp:326-334 | the book of a list is that of its parts in order, and each id has its payload, or no entry without one |
| PositionManager.ErasedKeepsOrder | source/shared/redis/positionManager.cpp:444 | the other ids stay in order |
| ElasticPublisher.Sender.AttemptWithRetries | source/run/reporting/elasticPublisher.cpp:235-246 | one to three attempts of the same request, again after a transport error, HTTP 429 or 5xx and after nothing else; the last verdict is returned |
| ElasticPublisher.InspectItems | source/run/reporting/elasticPublisher.cpp:319-341 | each item's status sorts its document into landed, retried or dead-lettered, up to the first that throws |
| ElasticPublisher.TryBatch | source/run/reporting/elasticPublisher.cpp:303-381 | one attempt of the loop, with its dead letters |
| ElasticPublisher.PostBulkChunk | source/run/reporting/elasticPublisher.cpp:296-382 | the requests, the dead letters and the result are those of the specified delivery, under every sequence of answers |
| ElasticPublisher.ChunkIsAccountedFor | source/run/reporting/elasticPublisher.cpp:296-382 | every document ends once, acknowledged or dead-lettered, or assumed delivered exactly when the last response could not be inspected; 0 means nothing was dead-lettered |
| ElasticPublisher.ReadSortsByStatus | source/run/reporting/elasticPublisher.cpp:319-341 | a response read to its end sorts a batch by status alone: 2xx landed, 429 and 5xx again, the rest and the missing dead-lettered |
| ElasticPublisher.FirstAttemptDecides | source/run/reporting/elasticPublisher.cpp:222-226 | over every sequence of answers, a first request that ends in a transport error, HTTP 429 or 5xx is repeated with the whole chunk, and any other failure dead-letters the chunk at once with its code |
| ElasticPublisher.FailedAttemptDecides | source/run/reporting/elasticPublisher.cpp:365-381 | the same for any request of a delivery: repeated while attempts remain if the failure is transient, otherwise dead-lettered |
| ElasticPublisher.ReadAttemptDecides | source/run/reporting/elasticPublisher.cpp:319-364 | a response read to its end has exactly the documents it refused with 429 or 5xx posted again, or dead-lettered with result 3 when the attempts are spent |
| ElasticPublisher.AckedWere2xx | source/run/reporting/elasticPublisher.cpp:306-360 | a document counts as delivered only if some answer gave it a 2xx |
| ElasticPublisher.InspectionFailureLosesDocuments | source/run/reporting/elasticPublisher.cpp:342-350 | a concrete response after which success is returned with a refused document nowhere |
| ElasticPublisher.BatchesShrink | source/run/reporting/elasticPublisher.cpp:333-361 | each retry batch is the previous batch with documents dropped |
| ElasticPublisher.ReplaysAreIdempotent | source/run/reporting/elasticPublisher.cpp:288-295 | with distinct ids the index ends with every acknowledged document under its id, and no id outside the chunk changed, whatever was applied unheard or replayed |
| ElasticPublisher.Flush | source/run/reporting/elasticPublisher.cpp:605-615 | a posted chunk adds its outcome, and the result is the last failure |
| ElasticPublisher.BulkIndexDocuments | source/run/reporting/elasticPublisher.cpp:575-625 | the documents are cut in order into chunks of at most 1000 documents and below 4 MiB before the last one, all but the last full, each delivered in turn; nothing happens when empty or disabled |
| ElasticPublisher.BulkIsAccountedFor | source/run/reporting/elasticPublisher.cpp:575-625 | every document handed over ends exactly once, and 0 means none was dead-lettered |
| ElasticPublisher.LastFailureDecides | source/run/reporting/elasticPublisher.cpp:605-625 | the result is that of the last chunk that failed |
| DocumentBatcher.Batcher.Enqueue | source/run/reporting/elasticPublisher.cpp:423-433 | the documents join the end of their index's buffer |
| DocumentBatcher.Batcher.Swap | source/run/reporting/elasticPublisher.cpp:443-450 | the whole buffer changes hands at once |
| DocumentBatcher.StepKeepsInv | source/run/reporting/elasticPublisher.cpp:423-509 | each step keeps every document in one place, in enqueue order |
| DocumentBatcher.EveryDocumentIsSomewhere | source/run/reporting/elasticPublisher.cpp:423-509 | with any threads flushing, a document is in the buffer, in one flush, or in one call, always under its own index |
| DocumentBatcher.TailFlushDeliversEverything | source/run/reporting/elasticPublisher.cpp:465-477 | after the tail flush each document enqueued before it was handed to exactly one bulkIndexDocuments call, once and in order |
| DocumentBatcher.EnqueuedDocumentsEndOnce | source/run/reporting/elasticPublisher.cpp:423-477 | end to end: a document enqueued before the tail flush is in one call at one position, which ends exactly once however that call's requests fare |
| QuestdbIngest.EmptyBody | source/ingest/questdbIngestClient.cpp:139-147 | the body is empty exactly when every line of the batch is |
| QuestdbIngest.JoinKeepsOrder | source/ingest/questdbIngestClient.cpp:139-143 | the body is the lines end to end, in order |
| QuestdbIngest.Client.EnqueueLine | source/ingest/questdbIngestClient.cpp:204-229 | a full queue drops its oldest line and counts it; the new line is last |
| QuestdbIngest.Client.TakeBatch | source/ingest/questdbIngestClient.cpp:136-144 | the oldest lines leave the queue, in order, as many as there are up to the batch size |
| QuestdbIngest.Client.Post | source/ingest/questdbIngestClient.cpp:155-192 | the lines are acknowledged when curl succeeds with a status of 200 to 299, and count as failed in every other case |
| QuestdbIngest.Client.DrainAndPost | source/ingest/questdbIngestClient.cpp:133-150 | the oldest lines up to the batch size are taken and, if they have any text, posted and counted by curl's verdict and the HTTP status |
| QuestdbIngest.Client.FinalDrain | source/ingest/questdbIngestClient.cpp:125-128 | the final drain empties the queue and accounts for every line exactly when no batch is made of empty lines only |
| QuestdbIngest.EveryLineIsAccountedFor | source/ingest/questdbIngestClient.cpp:116-229 | enqueued is queued, in hand, acknowledged, failed or dropped in every reachable state; the queue is the newest lines within its bound |
| QuestdbIngest.BatchesAreInOrder | source/ingest/questdbIngestClient.cpp:133-150 | the batches are disjoint stretches of the enqueue history, in order |
| QuestdbIngest.ShutdownLeavesNothing | source/ingest/questdbIngestClient.cpp:107-129 | after shutdown the queue is empty and nothing is in flight |
| QuestdbIngest.EmptyLineEndsTheDrain | source/ingest/questdbIngestClient.cpp:125-147 | a concrete run that leaves a line queued for good because the one before it was empty |
| Base64.B64Encode | source/shared/utilities/base64.cpp:24-48 | the loop over groups and the padding arithmetic write four letters of the alphabet, the base-64 digits of the 24-bit number, for every three bytes, the last ones zero-filled and padded, as section 4 of RFC 4648 has it |
| Base64.B64Decode | source/shared/utilities/base64.cpp:50-80 | the loop and the tail arithmetic write the three bytes of the number every quartet of letters stands for, and the first one or two of a zero-filled tail, padded or not, within the buffer |
| Base64.CharIsTheLetter | source/shared/utilities/base64.cpp:9 | the digit for a value is its letter in the alphabet |
| Base64.IndexIsThePlace | source/shared/utilities/base64.cpp:11-21 | a letter reads as its place in the alphabet, '-' and '.' as 62, '_' and ',' as 63 |
| Base64.OthersAreZero | source/shared/utilities/base64.cpp:11-21 | every other character reads as 0 |
| Base64.EncodeIsTheEncoding | source/shared/utilities/base64.cpp:24-48 | for every byte string the encoding spells the numbers of its groups, by division alone and without the code's shifts |
| Base64.DecodesTheNumber | source/shared/utilities/base64.cpp:62-68 | every quartet of characters with values gives the three bytes of their number, wherever it is in a text |
| Base64.DecodesTheTail | source/shared/utilities/base64.cpp:69-78 | two or three last characters give one or two bytes of their zero-filled number, and the text has that many bytes in all |
| Base64.PadDigits | source/shared/utilities/base64.cpp:40-46 | the shorter shifts of the last one or two bytes are those of the zero-filled group |
| Base64.RestBytes | source/shared/utilities/base64.cpp:69-78 | the tail's shifts are those of a group filled with zero digits |
| Base64.DecodeInvertsEncode | source/shared/utilities/base64.cpp:24-80 | decode(encode(x)) is x for every byte string, and the encoding has four characters for every three bytes begun |
| Base64.EncodeInvertsDecode | source/shared/utilities/base64.cpp:24-80 | encode(decode(s)) is s for every canonical s |
| Base64.CanonicalExactly | source/shared/utilities/base64.cpp:24-80 | a text survives decoding and encoding exactly when it is canonical in the sense of RFC 4648 section 3.5 |
| Base64.UrlSafeDecodesAlike | source/shared/utilities/base64.cpp:11-21 | writing '-' and '_' for '+' and '/' does not change the decoding |
| Base64.ReadsStayInBufferExactly | source/shared/utilities/base64.cpp:50-78 | every index read is in the text or its terminator exactly when the length is not 1 modulo 4 or the last character but one is '='; strictly in the text when it is a multiple of 4 |

## Left out

- The symbol table of the clusters: the searches are proved for every sorted table, and only the rule table is instantiated.
- Base64.B64Decode: texts whose length is 1 modulo 4 without a '=' before the last character read outside the buffer, which the language leaves undefined; for the others the decoding is exact. The two character tables are written as functions of the byte, not as arrays, and tied to the alphabet by lemmas.
- Redis.Client.Run: one command at a time; what other clients do between two commands is part of `ClusterCap`, `WorkQueue` and `TradeLocks.Act`, not of the single-caller methods of `ClusterSync.Producer` and `PositionManager`.
- WorkQueue.EveryNameIsSomewhere: the pool is a set of running names; its queue, backpressure and error slot are the subject of `ThreadPool`.
- DrainRuns.Worker.Drain: a connection that answers; aborts, lost replies and crashes are steps of `WorkQueue`. The stop is taken to come after a bounded number of consecutive idle seconds, since the original waits for ever; the experiment worker, which has no stop, is `ServeRun` without end.
- ElasticPublisher.PostBulkChunk: a dead-letter file that cannot be opened loses the line; the file is taken to be writable.
- ThreadPool.PoolInvOverRuns: calls into a pool that is being destroyed are undefined in the original and are not steps.
- SyncRedisClient.Client.Run: a handler takes no time of its own; a request already written to the socket when it is cancelled may still take effect at the server, which is the fate `LostAfter` of `Redis`.
- Receipts, the single-payload readers and the JSON codecs of the position book: single commands and library parsing.
- Parsing of payloads and descriptors: a set of bodies and a map of descriptors that parse.
- Tick loading, backtests, evaluation of experiments, reporting formats, logging, backoff sleeps and time zones.
- HTTP, TLS, Asio, coroutines, curl and the shared-memory control channel: replaced by arbitrary outcomes and signals.
- The modules behind `.cppm` files other than the order of commands in the load command.
