# Sigbench, modelled and proved in Dafny

Sigbench generates load: a master splits the users of each phase of a job over agents, every agent
runs sessions under a concurrency cap, and counters flow back as snapshots that a small web service
shows. This project models that machinery and proves what it guarantees, for every input and every
interleaving.

`dafny verify dfyconfig.toml` checks all of it.

## How it is modelled

Sequential code is imperative Dafny: `Splitter.GetSessionUsers`, the counter merges of `CounterMerge`,
the classes `Registry.AgentRegistry`, `Snapshot.MemorySnapshotWriter`,
`Snapshot.AggregatedSnapshotWriter`, `QuicPool.QuicConnPool` and `ChannelPool.RabbitMQChannelPool`. Go's
iteration over a map is a loop that takes the keys in any order.

Goroutines become step systems. A state holds a program counter for each goroutine, the channels,
WaitGroups and locks, and the shared atomic counters; one atomic operation is one step, and every
interleaving is a run (`Runs.Run`). Calls into client libraries succeed, fail or deliver
nondeterministically. The step systems and what they follow:

| step system | steps | source |
|---|---|---|
| `AgentProcess` | `ControlStep`, `LaneStep`, `ExecMove`, `FreeStep`, `FinishStep`, `StrayStep` | agent/agent_controller.go:51-149, sessions/http_get.go:36-43 and 201-230 |
| `Cluster` | `Step` | master/master_controller.go:30-51 and 113-152 |
| `Service` | `CreateStep`, `JobStep`, `WatchStep`, `StatusStep` | service/controllers.go:209-303, master/master_controller.go:78-95 |
| `WebPubSub` | `SetupStep`, `MainMoves`, `ReaderMoves`, `Receive` | sessions/webpubsub_echo.go:26-37 and 57-197 |
| `MassiveQueue` | `SetupStep`, `MainMoves`, `SubMoves` | sessions/rabbitmq_massive_queue.go:90-129 and 155-272, sessions/pulsar_massive_queue.go:34-80 and 90-188 |
| `RedisPubSub` | `SetupStep`, `EntryMoves`, `PublisherMoves`, `CollectorMoves`, `RecvMoves` | sessions/redis_pubsub.go:39-56 and 95-214 |
| `ChannelPool` | `ScanStep`, `LockStep`, `OutsideStep` | sessions/rabbitmq_massive_queue.go:27-69 |
| `ChannelLeak` | `Asks`, `Controls`, `Releases`, `PoolMove` | sessions/rabbitmq_massive_queue.go:27-69 and 169-272 |

Two ideas carry most proofs. Every shared counter is balanced: it equals the sum, over all goroutines,
of what that goroutine has contributed so far (`Sums`). And a `Counters()` call is a torn read: it loads
its fields one after the other, in the order in which they are written down (the section "Order of
evaluation" of the Go specification), at any non-decreasing moments of the run; an inequality survives
such a read if its larger side never decreases and is loaded later (`Runs.TornBound`).

A job does not find its agents clean. A Run call that failed on the master's side goes on executing on
the agent, the service frees its slot all the same, and the next job's Setup clears counters that the
old executors still change. So every session starts a job with any number of executions of earlier jobs,
in any state, and possibly with an earlier Run that still launches more; Setup clears its counters one by
one, in the order of the code, while these leftovers go on (`AgentProcess.AgentInit` and `StrayStep`,
`RedisPubSub.Init`, `MassiveQueue.Init`, `WebPubSub.Init`). What leftovers had added to a counter when it
was cleared is kept in `base`. The promises about snapshots are proved together with the exact condition
on these leftovers.

Statements of the form "can still" speak of runs: `Runs.Possible(Init, Next, tr, goal)` says that the run
`tr`, whatever its interleaving so far, has a continuation that ends in `goal`.

Where the code and its documentation differ, the model follows the code: README.md:45 calls
`UsersPerSecond` a launch rate, the code uses it as a cap on sessions in flight.

Some results say exactly where the code stops keeping a promise:

- the split stays exact but loses its balance if and only if the ceiling division overflows (`BalancedIffFits`);
- its search ends if and only if the total is not negative or at most 1 - 2n (`SearchEndsIff`);
- the QUIC pool is balanced over all windows if and only if its size divides 2^64 (`AlwaysBalancedIff`);
- a Run call can return if and only if it has not failed and no executor is leaked or hung
  (`RunCanReturnIff`), all of them can if and only if that holds of each (`JobCanEndWellIff`), and an agent can
  get stuck if and only if it gets a user at all (`CanGetStuckIff`);
- snapshots keep completed within the buckets if and only if no leftover can still complete a request
  (`WithinBucketsIff`), and a clean drain makes the final one exact if and only if none can still count
  (`ExactIff`);
- without the clean drain the final snapshot shows nothing in flight if and only if the job has no http:get
  user (`IdleAtTheEndIff`);
- the service's slot can be freed if and only if no agent registration failed (`SlotCanBeFreedIff`);
- a status page can end with another payload than the final snapshot if and only if the counter watch was
  still there when that was written (`FinalWriteIsLastIff`);
- successes of the queue and Redis sessions are paid for in every snapshot if and only if there is nothing to
  pay or no leftover can still succeed (`QueueLimits.PaidIff`, `RedisLimits.PaidIff`); connected <= inprogress
  if and only if every leftover has returned or never will (`ConnectedIff`); outcomes balance if and only if no
  leftover can still count (`RedisLimits.BalancedIff`, `WebPubSub.BalancedIff`, `QueueLimits.BalancedIff`);
- a queue subscriber can exit if and only if its publisher will take a value after which it does
  (`SubscriberCanExitIff`);
- every queue delete of the RabbitMQ session leaks a channel (`DeletesLeak`);
- the Execute of a Redis user can return if and only if it does not wait for a receiver that failed to
  subscribe (`ExecuteCanReturnIff`);
- the channel pool stays within its bound while no channel is closed under the lock (`UndisturbedBound`) and
  otherwise can exceed it by any number of connections (`DisturbedDialsOvergrow`);
- a collection in the first second of a job panics (`CollectCounters`).

## Model

| member | source | states |
|---|---|---|
| `Splitter.GetSessionUsers` | agent/agent_controller.go:30-49 | the loop in wrapping int64 arithmetic computes the share, and without overflow the share of the reference split that fills agents one after the other; for negative totals on which the search ends every agent gets nothing |
| `Splitter.SearchEndsIff` | agent/agent_controller.go:33-39 | for every int64 total T and every n agents the search reaches an index at which it stops if and only if T >= 0 or T <= 1 - 2n |
| `Splitter.SearchStops` | agent/agent_controller.go:36-39 | the index at which it stops is an int64 |
| `GoInts.WrapCongruent` | agent/agent_controller.go:34-40 | int64 arithmetic: the wrapped value differs from the exact one by a multiple of 2^64 |
| `Splitter.SearchResult` | agent/agent_controller.go:33-40 | without overflow the search stops at min(n-1, T/major), the remainder lies in 0..major, and no intermediate value leaves int64 |
| `Splitter.CodeMeetsReference` | agent/agent_controller.go:33-48 | for every agent index the searched share equals the share of the search-free reference split |
| `Splitter.SharesExact` | agent/agent_controller.go:30-49 | the shares sum to T, never increase along the agents, and no split of T over n agents has a smaller largest share |
| `Splitter.CodeSharesSum` | agent/agent_controller.go:30-49 | the shares sum to T even when T+n-1 overflows int64 |
| `Splitter.BalancedIffFits` | agent/agent_controller.go:33-48 | the largest share is minimal if and only if T+n-1 fits in int64 |
| `AgentProcess.AgentKeeps` | agent/agent_controller.go:51-121 | every step of the agent keeps: channel occupancy = unreleased executors (live, leaked or hung) plus a launch in progress <= capacity, wg and swg count what they wait for, past phases are finished, each http:get counter equals its executors' contributions since Setup plus the drift of leftovers |
| `AgentProcess.LiveWithinShare` | agent/agent_controller.go:89-104 | sessions in flight plus leaked slots of a session and phase never exceed what getSessionUsers hands out for the agent |
| `AgentProcess.CapIsShare` | agent/agent_controller.go:78-89 | the capacity of a launcher's channel is what getSessionUsers returns for that agent |
| `AgentProcess.ReleaseNeverBlocks` | agent/agent_controller.go:70-71 | `<-done` never blocks, wg and swg are never driven below zero |
| `AgentProcess.OnePhaseAtATime` | agent/agent_controller.go:74-121 | an unfinished executor, leaked ones included, belongs to the phase the agent is in, so runPhase returned only with all its executors finished |
| `AgentProcess.ContributionMatches` | sessions/http_get.go:201-230 | each atomic add of Execute changes exactly the counter by which the execution's contribution changes |
| `AgentProcess.BucketsByDuration` | sessions/http_get.go:217-224 | up to the drift of leftovers each bucket is the number of executions whose request took less than 10^9 ns, from there to less than 10^10 ns, or longer |
| `AgentProcess.DialsKept` | sessions/http_get.go:125-128 | every step keeps: `dial` is the number of connections dialled since Setup cleared it |
| `AgentProcess.QuietCounters` | sessions/http_get.go:201-242 | with nothing in flight, and up to the drift of leftovers: initiated = 0, completed = sum of the buckets, completed + error = executions started |
| `AgentProcess.CompletedWithinBuckets` | sessions/http_get.go:217-227 | in every state completed <= sum of the buckets, if leftovers cannot complete a request any more and did not since Setup |
| `AgentProcess.BucketsOnlyGrow` | sessions/http_get.go:217-224 | after Setup no step, of a leftover or not, lowers a bucket |
| `AgentProcess.ReturnedIsFinal` | agent/agent_controller.go:109-121 | after Run returned no step changes an executor, and without leftovers that count only the dial counter changes |
| `AgentProcess.SettledStays` | sessions/http_get.go:36-43 | once leftovers cannot complete, or cannot count, they never do again and the cleared counters take no drift |
| `AgentProcess.StuckStays` | agent/agent_controller.go:51-72 | a leaked or hung executor stays so in every step |
| `AgentProgress.Advance` | agent/agent_controller.go:51-121 | no deadlock: an agent that has not returned and has no leaked or hung executor has a step of its own that leaves less work (stages, then launchers to start, then launcher and executor steps) |
| `AgentProgress.Drive` | agent/agent_controller.go:51-121 | such an agent can be driven to any later phase and to the return of Run |
| `AgentProgress.SpawnIn` | agent/agent_controller.go:74-104 | such an agent can come to execute any session of a later phase for which getSessionUsers hands it a user |
| `AgentProgress.FillShare` | agent/agent_controller.go:74-104 | such an agent can come to have exactly what getSessionUsers hands out in flight at once |
| `AgentProgress.WindingIsBounded` | agent/agent_controller.go:83-106 | once every launcher of a phase has stopped launching, no interleaving goes on forever: at most as many steps (dials and late timers aside) as there is work left can happen before the phase ends |
| `AgentProgress.WindingShrinks` | agent/agent_controller.go:83-106 | each of these steps, leaks and hangs included, leaves strictly less work or ends the phase |
| `Cluster.NextKeeps` | master/master_controller.go:113-147 | every step of master and agents keeps: both WaitGroups count the open calls, the setup barrier precedes every Run, a successful Run call means the agent returned |
| `Cluster.AgentsAlwaysOrderly` | agent/agent_controller.go:51-121 | in every reachable state of a job the agent invariant holds, `<-done` never blocks, and an agent never has unfinished executors of two phases |
| `Cluster.InFlightWithinTotal` | master/master_controller.go:124-140 | in every interleaving the job's sessions in flight over all agents never exceed the total of that session and phase |
| `ClusterProgress.InFlightReachesTotal` | agent/agent_controller.go:74-104 | the bound is attained: from the start of any job, for every session and phase, a run leads to all configured users in flight at once, on every agent what getSessionUsers hands out |
| `Cluster.BucketsCountDurations` | sessions/http_get.go:217-224 | at every moment of every job after Setup each bucket counts the job's executions by duration, unless leftovers can complete |
| `Cluster.DialsCounted` | sessions/http_get.go:125-128 | at every moment of every job after Setup `dial` counts the connections dialled since |
| `Cluster.WatchAfterSetup` | master/master_controller.go:120-143 | when the counter watch runs every agent has been set up |
| `Cluster.SettledAlong` | sessions/http_get.go:36-43 | if the job found no leftovers that can complete (or count), then at every moment of the run the cleared bucket and completed counters (or all) are free of drift |
| `Cluster.TornHttpSnapshot` | sessions/http_get.go:232-242 | every torn http:get snapshot after Setup has completed <= sum of the buckets, if no leftover can complete; `SnapshotLimits.WithinBucketsIff` shows that this is needed |
| `Cluster.DrainedAgent` | master/master_controller.go:145-152 | when the final collection begins an agent whose Run call succeeded has none of the job's sessions in flight, and unless leftovers count later reads return its counters as they are then |
| `ClusterProgress.RunCanReturnIff` | agent/agent_controller.go:51-121 | at every moment of every job, agent i's Run call can still return if and only if it has not failed and none of its executors is leaked or hung |
| `ClusterProgress.CanGetStuckIff` | agent/agent_controller.go:53-56 | from the start of any job a run leads to a leaked or hung executor of agent i if and only if getSessionUsers hands that agent a user in some phase |
| `ClusterProgress.JobCanEndWellIff` | master/master_controller.go:124-147 | at every moment of every job, all calls can still return and the final collection begin if and only if no call failed and no executor on any agent is leaked or hung |
| `ClusterProgress.JobCanAlwaysEnd` | master/master_controller.go:133-147 | at every moment of every job the final collection can still begin, if need be because open calls fail |
| `ClusterProgress.StuckBlocksTheJob` | agent/agent_controller.go:53-56 | after one leaked or hung executor the master reaches the final collection only if that agent's call fails |
| `ClusterProgress.Start` | master/master_controller.go:113-143 | from every moment before the final collection the master can pass the setup barrier and dispatch every call, without a step of any session |
| `ClusterProgress.ReturnOne` | master/master_controller.go:124-140 | an open Run call whose agent has no stuck executor can return successfully while everything else stands still |
| `CounterMerge.AddInto` | agent/agent_controller.go:166-168 | whatever the iteration order, every key of either map is there with the sum of both values |
| `CounterMerge.MergeAll` | master/master_controller.go:54-66 | the collected value of each key is the sum over the replies, and exactly the keys that occur are present |
| `CounterMerge.ListCounters` | agent/agent_controller.go:159-179 | every system key has its system value, every other key the sum over the listed sessions |
| `CounterMerge.MergedOrderFree` | master/master_controller.go:53-66 | the result does not depend on the order of agents or sessions |
| `CounterMerge.FailedRepliesCountZero` | master/master_controller.go:60-62 | agents whose call failed contribute nothing |
| `CounterMerge.AggregateHttpEffect` | sessions/http_get.go:244-251 | after the start the aggregator sets rps to the rate, leaves every other key alone, and divides by zero if and only if more than nothing and less than one whole second has passed |
| `CounterMerge.RateMeans` | sessions/http_get.go:244-251 | the rate is completed requests per whole second, rounded toward zero |
| `CounterMerge.CollectCounters` | master/master_controller.go:53-76 | the collection panics exactly when an aggregator runs after the start and within the first second, and otherwise returns the merged counters with the rate of the last aggregator that ran after the start |
| `ClusterCounters.CollectedWithinBuckets` | master/master_controller.go:78-95 | completed <= sum of the buckets survives the sums over sessions and agents in every snapshot, whichever calls failed, if no leftover can complete |
| `ClusterCounters.FinalCounters` | master/master_controller.go:145-152 | if no call failed and no leftover can count, the final snapshot has initiated = 0, completed + error = executions started since the setup barrier, error = those whose request failed, each duration key = those that took that long, and completed = the sum of these, once per listing of http:get |
| `SnapshotLimits.WithinBucketsIff` | sessions/http_get.go:201-242 | over all jobs from a given start, every snapshot has completed <= sum of the buckets if and only if no agent has a leftover http:get executor, or a launcher of one, that can still reach `completed++` |
| `SnapshotLimits.ExactIff` | master/master_controller.go:145-152 | over all jobs from a given start without failed calls, every complete final snapshot is exact if and only if no agent has a leftover that can still change a counter |
| `SnapshotLimits.IdleAtTheEndIff` | master/master_controller.go:133-152 | with failed calls allowed, every final snapshot reports initiated = 0 if and only if no http:get user is configured: otherwise a job exists whose final round, with every agent answering, shows a session in flight |
| `SnapshotLimits.EndWell` | master/master_controller.go:113-152 | for every configuration and every set of leftovers there is a job that ends with all calls successful while the leftovers stand still |
| `Registry.AgentRegistry.HandleAgentRegister` | service/controllers.go:311-317 | the map stays the replay of the event history extended by this registration; the empty address is ignored |
| `Registry.AgentRegistry.CheckExpiredAgents` | service/controllers.go:322-331 | the sweep in any iteration order leaves the replay of the history extended by this check |
| `Registry.PresentIffUnexpired` | service/controllers.go:305-331 | an address is present, with its latest time, if and only if it registered and no check since ran more than 15s after that |
| `Registry.HeartbeatNeverDropped` | service/controllers.go:322-331 | under non-decreasing times an agent that registers again within 15s each time is present at every moment |
| `Registry.NoEmptyAddress` | service/controllers.go:311-317 | the empty address is never present |
| `Service.SlotHasOneHolder` | service/controllers.go:209-267 | masterController is non-nil exactly while one unique claimant registers, runs or is stuck after a failed registration; its unlocked reads found its own controller with exactly its agents |
| `Service.OnlyHolderClears` | service/controllers.go:261-267 | only the holder's own job, after its final write, empties the slot |
| `Service.WritesStayHome` | service/controllers.go:217-246 | no snapshot of one job reaches another job's memory writer, not even from a counter watch that outlives its job |
| `Service.LastFlushIsComplete` | service/controllers.go:280-302 | a status loop that ends through lastFlush after a job was created dumped that job's writer after its one final write, everything else in it comes from the job's own watch, and the payload sent is the last of these writes |
| `Service.SentPayloads` | service/controllers.go:280-302 | every payload a status loop ever sent, its n-th, is the newest entry (the empty one before the first write) that the writer read in its n-th sample held at its n-th dump; if the slot was taken at the sample that writer is the one of the slot's job |
| `ServiceLimits.StalePayloadIff` | master/master_controller.go:78-95 | once a job's final counters are written, a status loop can still end with another payload of that job if and only if its counter watch is still there or has already written after them |
| `ServiceLimits.FinalWriteIsLastIff` | master/master_controller.go:145-152 | at the moment of the final write this is so if and only if the counter watch has not quit |
| `ServiceLimits.WatchQuitsWhenTold` | master/master_controller.go:78-95 | in every run a counter watch has quit only if its job told it to stop |
| `Service.FailedRegistrationKeepsSlot` | service/controllers.go:248-253 | after a failed registration the slot stays taken forever |
| `Service.SlotCanBeFreedIff` | service/controllers.go:209-267 | at every moment of every run the slot can still become empty if and only if no handler is stuck after a failed registration |
| `Service.IdleServiceCanJam` | service/controllers.go:248-253 | whenever the slot is empty one more create request can lead to such a handler |
| `Snapshot.MemorySnapshotWriter.WriteCounters` | snapshot/memory_writer.go:19-25 | the write is added to the history of all writes and the writer goes on showing the last of them; it never fails |
| `Snapshot.MemorySnapshotWriter.Dump` | snapshot/memory_writer.go:27-40 | the dump is the last write of the history, or empty before the first |
| `Snapshot.AggregatedSnapshotWriter.WriteCounters` | snapshot/aggregated_writer.go:17-30 | the history of every memory writer grows by one entry with the new counters per listing, whatever other writers answer, and the error joins exactly the failures in order |
| `Snapshot.NoFailures` | snapshot/aggregated_writer.go:25-29 | no error is reported if and only if no writer failed |
| `Snapshot.FailuresInOrder` | snapshot/aggregated_writer.go:18-24 | the failures are those of the remote writers, each once, in the order of the writers |
| `Snapshot.JoinParts` | snapshot/aggregated_writer.go:25-28 | between any two joined failures, and nowhere else, stands one separator |
| `WebPubSub.SuccessIffScript` | sessions/webpubsub_echo.go:111-196 | an execution is a success if and only if the decoded messages delivered to it are a system message "connected", an ack 1, any number of acks 2, and a group message with data "foobar" |
| `WebPubSub.OutcomesBalance` | sessions/webpubsub_echo.go:57-197 | after Setup, and unless leftovers can still count: success = this job's executions that ended after such an exchange, error = its others that ended + failures of its readers that were logged, inprogress = its executions under way; at most one error per reader in any case |
| `WebPubSub.BalancedIff` | sessions/webpubsub_echo.go:26-37 | over all runs from a given start, that balance holds at every moment after Setup if and only if every leftover has left and its reader can log nothing any more |
| `MassiveQueue.NilMeansDelivered` | sessions/pulsar_massive_queue.go:150-187 | a doQueue run of this job returns nil only if all queueMessages messages were received without a failure; every publish succeeded or was reported, and for RabbitMQ all succeeded |
| `MassiveQueue.OutcomesBalance` | sessions/pulsar_massive_queue.go:90-148 | after Setup, and unless leftovers are still to be counted: success = this job's runs that delivered everything, error = its others + failures while opening, publishing and closing that were logged, inprogress = its runs under way, msg_published = its publishes that succeeded |
| `MassiveQueue.SuccessPaidFor` | sessions/rabbitmq_massive_queue.go:155-272 | in every state after Setup success * queueMessages <= msg_received, and for RabbitMQ <= msg_published, unless queueMessages > 0 and leftovers can succeed |
| `MassiveQueue.TornSnapshot` | sessions/rabbitmq_massive_queue.go:274-282 | the same inequalities hold of every torn snapshot over all concurrent users; `QueueLimits.PaidIff` shows that the condition is needed |
| `QueueLimits.PaidIff` | sessions/rabbitmq_massive_queue.go:90-167 | over all runs from a given start of Setup, every torn snapshot has its successes paid for if and only if queueMessages <= 0 or no leftover run, nor an Execute that starts one, can still reach success++ |
| `QueueLimits.BalancedIff` | sessions/rabbitmq_massive_queue.go:90-167 | over all runs from a given start of Setup, that balance holds at every moment after it if and only if Execute has counted every leftover |
| `QueueLimits.SubscriberCanExitIff` | sessions/pulsar_massive_queue.go:150-187 | at every moment of every run a subscriber goroutine can still exit if and only if it has, or its publisher has yet to take a value from exitChan and will take one after which the subscriber returns |
| `RedisPubSub.ReceiverNeverBlocks` | sessions/redis_pubsub.go:126-154 | with unique user ids and at-most-once delivery the receiver always finds room in recvChan |
| `RedisPubSub.ConnectedWithinInProgress` | sessions/redis_pubsub.go:108-168 | after Setup, unless a leftover's Execute can still return: inprogress = this job's users under way, connected = those past their start, and connected <= inprogress, in every state |
| `RedisLimits.ConnectedIff` | sessions/redis_pubsub.go:39-56 | over all runs from a given start of Setup, connected <= inprogress at every moment after it if and only if every leftover's Execute has returned or never will |
| `RedisPubSub.OutcomesBalance` | sessions/redis_pubsub.go:108-214 | after Setup, and unless leftovers can still count: success = this job's users that got all their messages, notrecvall = those that ran into the timeout, error = those with bad parameters or a failed publish + failures of its receivers that were logged |
| `RedisLimits.BalancedIff` | sessions/redis_pubsub.go:39-56 | over all runs from a given start of Setup, that balance holds at every moment after it if and only if no leftover can still record an outcome or log an error |
| `RedisPubSub.LatencyBuckets` | sessions/redis_pubsub.go:95-106 | every recorded latency lands in exactly one bucket |
| `RedisPubSub.LatenciesCounted` | sessions/redis_pubsub.go:95-106 | after Setup, and unless leftovers still publish or record: messages:send = publishes of this job that succeeded, and the buckets = its recorded latencies below 100, 500, 1000 and from 1000 ms on |
| `RedisPubSub.MessagesCounted` | sessions/redis_pubsub.go:140-154 | after Setup, and unless leftovers still receive: messages:recv = messages this job's receivers got, their own and others' |
| `RedisPubSub.TornSnapshot` | sessions/redis_pubsub.go:216-230 | every torn snapshot after Setup has totalMsgCnt * success <= messages sent and <= sum of the latency buckets, unless totalMsgCnt > 0 and leftovers can succeed |
| `RedisLimits.PaidIff` | sessions/redis_pubsub.go:39-56 | over all runs from a given start of Setup, both inequalities hold of every torn snapshot if and only if totalMsgCnt is zero or no leftover can still reach success++ |
| `RedisProgress.ExecuteCanReturnIff` | sessions/redis_pubsub.go:108-214 | at every moment of every run a user's Execute can still return if and only if it is not waiting for a receiver that failed to subscribe |
| `RedisProgress.StartIff` | sessions/redis_pubsub.go:125-165 | startChan can still be closed if and only if the receiver did not fail to subscribe and the parameters were not rejected |
| `RedisProgress.StrandIff` | sessions/redis_pubsub.go:133-165 | a user can still be left waiting for good if and only if it is not past `<-startChan` |
| `ChannelPool.PoolSizeBound` | sessions/rabbitmq_massive_queue.go:27-60 | the pool size is at most ceil(peak open channels / K), plus one per dial during which a channel of the pool was closed under the lock |
| `PoolGrowth.UndisturbedBound` | sessions/rabbitmq_massive_queue.go:27-60 | in every run in which no channel is closed while the lock is held, the pool size is at most ceil(peak open channels / K) at every moment |
| `PoolGrowth.DisturbedDialsOvergrow` | sessions/rabbitmq_massive_queue.go:35-57 | for every K >= 1 and every m there is a run that ends with exactly ceil(peak / K) + m connections, m of them from disturbed dials |
| `ChannelPool.ScanSeesPrefix` | sessions/rabbitmq_massive_queue.go:28-33 | between Closes the lock-free scan runs over a prefix of the current pool |
| `ChannelPool.PassedRefused` | sessions/rabbitmq_massive_queue.go:28-33 | in every run a lock-free scan passes a connection only at a moment at which it is full or has left the pool |
| `ChannelPool.OneCallerUnderLock` | sessions/rabbitmq_massive_queue.go:35-57 | at most one caller rescans or dials |
| `ChannelPool.RabbitMQChannelPool.Channel` | sessions/rabbitmq_massive_queue.go:27-60 | both scans: serves from the first accepting connection of the pool it sees, after a refused scan takes the lock and sees whatever pool other callers made of it, and dials only if that one refuses too; no connection is reopened |
| `ChannelPool.ReachedIsSound` | sessions/rabbitmq_massive_queue.go:27-69 | every pool that concurrent callers reach, overgrown ones included, is one that a call may find |
| `ChannelPool.RabbitMQChannelPool.SizeBound` | sessions/rabbitmq_massive_queue.go:27-60 | between calls the pool size is at most ceil(peak / K), plus one per disturbed dial of a concurrent caller |
| `ChannelPool.RabbitMQChannelPool.ReleaseChannel` | sessions/rabbitmq_massive_queue.go:178-212 | closing a channel frees it on its connection and keeps the pool sound |
| `ChannelLeak.DeletesLeak` | sessions/rabbitmq_massive_queue.go:196-203 | in every interleaving of doQueue runs with the pool: a run that declared its queue and came through opened a channel for the delete unless refused; all N opened since the last Close are still open, so the pool holds at least ceil(N / K) connections |
| `ChannelLeak.NextKeeps` | sessions/rabbitmq_massive_queue.go:169-228 | every step of runs and pool keeps: the open channels of the pool are exactly those held by runs, publishers', subscribers' and deletes' |
| `ChannelPool.ServedOnce` | sessions/rabbitmq_massive_queue.go:36-59 | a call that succeeds opens exactly one channel; a call that fails leaves all channels alone and found every connection full |
| `ChannelPool.ServedSound` | sessions/rabbitmq_massive_queue.go:36-59 | a call keeps the size bound, and every connection ever dialled stays either pooled or closed, never both |
| `ChannelPool.RabbitMQChannelPool.Close` | sessions/rabbitmq_massive_queue.go:62-69 | closes every pooled connection, after which every connection ever dialled is closed and the pool is empty |
| `QuicPool.QuicConnPool.Dial` | sessions/quic.go:49-59 | succeeds if and only if every dial does, and then every slot is filled |
| `QuicPool.QuicConnPool.Get` | sessions/quic.go:61-64 | bumps the wrapping counter and returns the connection at counter mod n, which exists after a successful Dial; panics when n = 0 |
| `QuicPool.WindowIsBalanced` | sessions/quic.go:61-64 | over any window of m calls without wrap-around every connection is returned floor(m/n) or ceil(m/n) times |
| `QuicPool.AlwaysBalancedIff` | sessions/quic.go:61-64 | wrap-around included, all windows are balanced if and only if n divides 2^64 |

## Left out

- HTTP, TLS, QUIC, WebSocket, Redis, AMQP, Kafka and Pulsar clients: each call is a nondeterministic success, failure or delivery.
- The float product that yields the users of a session and phase (agent/agent_controller.go:31): its truncated result is an input. The step system of the agents takes totals that are not negative; `Splitter` says what the split does with negative ones.
- Jobs whose T+n-1 overflows int64 are excluded from the step system of the agents (`AgentProcess.ValidConfig`); what the splitter does with them is in `Splitter`.
- Agents are distinct processes that serve one master; one address listed twice is not modelled.
- Session counters are unbounded integers: wrapping needs 2^63 increments.
- Processes that end: log.Fatalln on an unknown session or a failed Setup call, /master/exit, and the panic of a collection in the first second, which takes the service down with it.
- The validation of a create request before the lock, HTTP responses, JSON, HTML and the InfluxDB and JSON writers.
- Durations and timeouts are events that may fire at any time; only the registry and the rps quotient use clock values.
- `totalMsgCnt` of the Redis session is a natural number; a publish interval of zero, or a negative product, makes Go panic before anything is published.
- The loop of Execute over the queues of one user (RabbitMQ in sequence, stopping at the first failure; Pulsar concurrently): doQueue runs start at any time, which covers both.
- A locked pass of `RabbitMQChannelPool.Close` over the connections is one step; the dial of a connection, its first channel and the append are one step of the lock holder.
- ChannelPool.RabbitMQChannelPool.Channel: the two scans and the section under the lock are not interrupted; the interleaved form is the step system.
- Cluster.InFlightWithinTotal: counts the job's own sessions; executors left over from earlier jobs come on top.
- An earlier Run that still launches is reduced to what touches the counters of the session at hand: it may launch any number of executions and may stop at any time.
- A RabbitMQ subscriber that began under queueMessages <= 0 and sees it raised by a Setup reads from a nil channel; the model lets a delivery come all the same.
- A channel that a broker closes because an operation on it failed stays open in `ChannelLeak`.
- The service's step system leaves open what a snapshot write holds; what a collection returns is in `ClusterCounters` and `CounterMerge`.
- The SignalR and Kafka sessions and the dummy session repeat the counter patterns of the sessions modelled here.
