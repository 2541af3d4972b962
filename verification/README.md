# ForgeFlow in Dafny

ForgeFlow runs workflows: directed acyclic graphs of tasks. A scheduler publishes each ready task to a
broker, workers receive and claim the messages, attempts are leased and retried, and every change of
the run is stored as a versioned snapshot, so that a run survives the loss of workers, of the process
or of the machine. This project models that machinery and proves what it guarantees over every
execution.

## How it is organised

- `Ids`, `Definition`, `Edges`, `Graph`: identifiers and their derivation, definitions, retry delays,
  dependency graphs and Kahn's algorithm.
- `Run`, `RunProofs`, `WorkflowRun`: the run aggregate. `Run` gives each operation as a function on the
  value of a run, `RunProofs` proves what they keep, and the class `WorkflowRun.WorkflowRun` is the
  object whose methods change it in place and are proved to do what the functions say.
- `Snapshot`, `SnapshotProofs`: storage-level validation, restoring, and the round trip.
- `Broker`, `BrokerProofs`, `MemoryBroker`, `Channel`: the in-memory broker, its conservation laws, the
  class with its methods, and the view one subscription has of it.
- `Scheduler`: one state machine over the stored run, the run in memory, the subscription, the
  scheduler's caches and program counter, the workers and the channels between them. Events carry
  everything the program does not decide: clock readings, storage failures, the choice of the select,
  handler outcomes, cancellation, crashes. `SchedulerInv`, `SchedulerWorkers`, `SchedulerCaches` and
  `SchedulerSteps` hold the invariant and its preservation; `SchedulerTheorems`, `SchedulerSaves` and
  `SchedulerProgress` draw the conclusions about whole executions. `SchedulerPaths` leads from creation to
  a worker at work and back, and `SchedulerMalformed`, `SchedulerBlocked`, `SchedulerRace` and
  `SchedulerLivelock` go on from there to the executions in which a promise fails, and to the exact
  conditions under which it does not.
- `SchedulerLoop`: the loop as an object. Its maps are fields changed in place, the run is a
  `WorkflowRun` object, and each handler is proved to make exactly the machine's step.
- `Journal`, `JournalProofs`, `JournalUtf8`, `JournalCodec`, `FileStore`: the journal store, its replay and
  its behaviour under crashes, which texts come back as they were written, a codec of the kind assumed, and
  the class with its seven mutations and the replay loop.
- `Events`, `RunEvents`: the event log, and its fidelity for the engine's own executions.
- `RateLimit`: the fixed-window limiter.

`dafny verify dfyconfig.toml` checks the whole project.

## What is taken as given

- Text is a sequence of bytes, time a natural number of nanoseconds with zero for Go's zero time. Clock
  readings are arbitrary, and are clamped as the program clamps them.
- A dispatch is read back from JSON as it was published, but with U+FFFD in the place of ill-formed bytes;
  the message identifier beside it is kept as it is.
- The journal's encoding is a codec whose lines hold no newline. It is lossless on well-formed texts, and
  whatever it reads is well-formed; `JournalCodec.CodecExists` shows that there is one. An append is
  written in full or the process stops.
- The topic of a run is a hash of its identifier, taken as injective. Other runs then use other topics,
  and `Channel.OtherTrafficInvisible` is why the scheduler machine holds one subscription only.
- One scheduler executes a run at a time; a second one would lose the version race in the store
  (`JournalProofs.OneWinnerPerVersion`).
- Sorting and the heap are contracts on their results; map iteration is an arbitrary pick.

## What the proofs found

- One lease per worker is not kept by the aggregate. A worker whose result is still in its channel can
  claim the next message, and if the scheduler reads the claim first, the second lease is made in memory,
  the store refuses the snapshot, and the loop returns an error. `SchedulerSaves.SecondLeaseRejected` is a
  run on which it happens; `SchedulerSaves.ClaimStoredUnlessLeased` says exactly when.
  `SchedulerRace.ClaimBeforeResult` shows that four steps lead there from any state in which a worker is
  at work and another task's readable message waits.
- The rate limiter admits at most 2 * limit - 1 calls in an interval of one window length, one fewer than
  two full windows, because a window opens with an admitted call.
- The purge of the rate limiter changes no decision while the clock never runs back. Under any clock it
  changes one exactly if some call falls back into a window that an earlier purge has dropped
  (`RateLimit.PurgeVisibleExactly`); `RateLimit.PurgeVisible` is a sequence of 1025 calls on which it does.
- Identifiers may hold ill-formed bytes, and the journal cannot. The store then holds what its journal does
  not give back, and two such workflows can lock it (`JournalUtf8.ReopensExactly`,
  `JournalUtf8.IllFormedConflict`).
- The same bytes break the dispatch. A message whose run or task identifier is not well-formed is read back
  under another one, acknowledged, and ends the loop (`SchedulerTheorems.MalformedExactly`); its task is
  never started and the run never succeeds (`SchedulerMalformed.NeverStarted`, `NeverSucceeds`). The run
  under the one-byte identifier 0xFF is an instance (`SchedulerBlocked.IllFormedRun`). Well-formed
  identifiers are exactly what the promises need: that no message is malformed, that the work of ready tasks
  is in reach, that a run can always end, and that it can succeed
  (`SchedulerBlocked.NeverMalformedExactly`, `NoLostWorkExactly`, `CanEndExactly`, `SucceedsExactly`).
- Worker names begin again with every entry into the loop, and a heartbeat renews every lease under its
  name. After one heartbeat that cannot be saved, the same engine can enter the loop again and keep up the
  lease left behind: the only message is parked under the attempt that is under way, nobody works on it,
  and it stays so for as long as heartbeats are on time (`SchedulerLivelock.Livelock`). It ends exactly if
  the loop turns after the lease has run out (`SchedulerLivelock.StrandedExactly`).
- Event numbers begin again with the process. A reader that resumes with an older number misses the first
  events of the new log (`Events.StaleCursor`).
- The comment on task transitions names ready -> running -> succeeded or failed. Retries leave Running
  for Ready or RetryWaiting without passing through that table, and the model follows the code.

## Model

| member | source | states |
|---|---|---|
| `SchedulerTheorems.AlwaysInv` | internal/execution/engine_broker.go:42-485 | the scheduler invariant holds after every prefix of every sequence of events: loop steps, worker steps, storage and broker failures, restarts and crashes in any interleaving |
| `SchedulerTheorems.StoreAdvances` | internal/execution/engine.go:316-345 | between any two moments of an execution the stored run only moves forward: attempt counts never fall, terminal tasks are frozen, a lease never changes hands within an attempt |
| `SchedulerTheorems.NeverStuck` | internal/execution/engine_broker.go:216-225 | in no execution does the loop end in the "stalled" branch, and it ends over a malformed delivery only if the run identifier or a task identifier is not well-formed UTF-8 |
| `SchedulerTheorems.DependencySafety` | internal/execution/engine.go:370-394 | a task that is Ready, Running, RetryWaiting, Succeeded or Failed in the store has every dependency Succeeded there, across restarts |
| `SchedulerTheorems.TerminalIsFinal` | internal/execution/run.go:232-327 | a task that is terminal in the store is identical in every later stored state |
| `SchedulerTheorems.LeavesRunningOnce` | internal/execution/reliability.go:163-273 | an attempt that is under way and later is not, by completion, recovery or cancellation, is past from then on: it leaves Running at most once |
| `SchedulerTheorems.LateCompletionIgnored` | internal/execution/reliability.go:177-180 | a completion naming an attempt that is past returns Ignored and leaves the run exactly as it was, whoever sends it and however late |
| `SchedulerTheorems.IssuedOnce` | internal/execution/reliability.go:139-159 | no attempt identifier is handed to a worker twice in an execution, restarts included |
| `SchedulerTheorems.AcknowledgedIsPast` | internal/execution/engine_broker.go:447-462 | a message with a well-formed identifier is acknowledged only after the stored run has moved past its attempt |
| `SchedulerTheorems.NoLostWork` | internal/execution/engine_broker.go:487-553 | at every select point the next attempt of each ready task with well-formed identifiers is published and unacknowledged, and is either receivable or held by a worker under the delivery count in flight |
| `SchedulerTheorems.CachesAgree` | internal/execution/engine_broker.go:227-228 | at every select point memory equals the store, `ready` is exactly the Ready tasks, `completed` exactly the Succeeded ones and `inFlight` exactly the current attempts of Running tasks |
| `SchedulerTheorems.ChangesSpendPotential` | internal/execution/reliability.go:118-296 | every change of a task's status or attempt count in the store spends potential 3 * (max - attempts) + rank(status) |
| `SchedulerTheorems.BoundedProgress` | internal/execution/reliability.go:118-296 | over any execution a task changes at most 3 * max + 2 times, never exceeds its attempt limit, and has an attempt left while Ready or RetryWaiting |
| `SchedulerProgress.ClaimsAreAnswered` | internal/execution/engine_broker.go:709-722 | throughout any execution every worker waiting for an answer has its claim in the channel, parked under an attempt that is under way, or next in line to be acknowledged |
| `SchedulerProgress.WorkIsInReach` | internal/execution/engine_broker.go:229-324 | at every select point the message of each ready task with well-formed identifiers is receivable, or held by a worker that has yet to claim it, or claimed with the claim still in the channel |
| `SchedulerProgress.AlwaysCanEnd` | internal/execution/engine_broker.go:147-485 | from every state of every execution of a run with well-formed identifiers, on an engine with at least one worker, there is a continuation without cancellation, failure or crash that ends with a finished run in the store |
| `SchedulerProgress.ServedStep` | internal/execution/engine_broker.go:597-605 | each step keeps every waiting worker's claim answerable |
| `SchedulerSaves.StoreChanges` | internal/execution/engine.go:316-326 | a step changes the store by storing its one candidate snapshot, counted up by one version, or not at all |
| `SchedulerSaves.SavesValidate` | internal/execution/store.go:38-148 | in every reachable state each snapshot the engine hands to the store, claims aside, validates and restores to the run it was taken from |
| `SchedulerSaves.ClaimStoredUnlessLeased` | internal/execution/engine_broker.go:276-310 | a claim to a ready task is stored if and only if its worker holds no other lease; otherwise the store is unchanged and the loop gives up |
| `SchedulerSaves.SecondLease` | internal/execution/reliability.go:118-161 | leasing a second ready task to a worker succeeds on the aggregate and yields a consistent run that the store refuses |
| `SchedulerSaves.SecondLeaseRejected` | internal/execution/reliability.go:118-161 | a concrete run of two independent tasks on which one lease per worker fails |
| `SchedulerSteps.SaveOk` | internal/execution/engine.go:316-326 | a consistent run is stored if and only if storage works and no worker holds two leases; the result is consistent and ahead of what was stored |
| `SchedulerSteps.LoadFine` | internal/execution/engine.go:184-208 | loading a run completes an interrupted ending, starts a created run, and keeps the invariant |
| `SchedulerSteps.CancelIdleFine` | internal/execution/engine.go:130-132 | cancellation before the loop keeps the invariant |
| `SchedulerSteps.BeginFine` | internal/execution/engine_broker.go:48-116 | entering the loop from any stored run leaves caches, workers and store consistent, or fails the run when the first save does not go through |
| `SchedulerSteps.TopFine` | internal/execution/engine_broker.go:147-209 | lease recovery, retry promotion, worker replacement and the save that follows keep the invariant |
| `SchedulerSteps.AckFine` | internal/execution/engine_broker.go:583-605 | acknowledging parked claims keeps the invariant; a delivery already settled ends the loop |
| `SchedulerSteps.PublishFine` | internal/execution/engine_broker.go:487-553 | publishing the ready tasks, with bodies as JSON gives them back, keeps the invariant and never ends in the stalled branch |
| `SchedulerSteps.NeverStalled` | internal/execution/engine_broker.go:216-225 | an unfinished run without failed or canceled tasks and with nothing to unlock has a task that is ready, running or waiting |
| `SchedulerSteps.DeliveryReadExactly` | internal/execution/engine_broker.go:555-568 | a delivery decodes to a dispatch of one of the run's tasks under that attempt's own identifier if and only if run and task identifier are well-formed UTF-8, which is if and only if the message identifier is |
| `SchedulerSteps.ClaimIsPast` | internal/execution/engine_broker.go:315-323 | a delivery that is neither startable nor a duplicate of a running attempt belongs to an attempt that is past |
| `SchedulerSteps.StartFine` | internal/execution/engine_broker.go:276-310 | leasing a delivered task keeps the invariant whether or not it can be stored |
| `SchedulerSteps.ClaimFine` | internal/execution/engine_broker.go:229-324 | each branch of the claim handler (stale, unreadable, start, duplicate, superfluous) keeps the invariant |
| `SchedulerSteps.HeartbeatFine` | internal/execution/engine_broker.go:326-353 | a worker heartbeat keeps the invariant |
| `SchedulerSteps.IgnoredIsPast` | internal/execution/reliability.go:177-180 | a result handed back by a worker counts exactly when its attempt is under way; otherwise the attempt is past |
| `SchedulerSteps.ResultFine` | internal/execution/engine_broker.go:371-469 | each outcome of a result (ignored, succeeded, retry, terminal failure) keeps the invariant, including the acknowledgements it queues |
| `SchedulerSteps.FinishFine` | internal/execution/engine.go:285-314 | failing, canceling and completing a run after the workers are gone keep the invariant |
| `SchedulerSteps.StepFine` | internal/execution/engine_broker.go:147-485 | every step keeps the invariant, moves the store forward only, and extends the list of issued attempts |
| `SchedulerWorkers.WorkerStepInv` | internal/execution/engine_broker.go:668-770 | receiving, claiming, finishing and leaving keep the invariant and leave the store alone |
| `SchedulerWorkers.ReplacedSlotUnique` | internal/execution/engine_broker.go:135-145 | a worker name belongs to one slot at most |
| `SchedulerInv.AttemptAdvances` | internal/execution/engine_broker.go:275-324 | where an attempt stands (published, needed, under way, past) moves one way only as the run advances |
| `SchedulerInv.WorldAdvances` | internal/execution/engine_broker.go:125-133 | whatever the run does to itself, messages, workers, results in transit and issued attempts stay consistent with it |
| `SchedulerCaches.StartCache` | internal/execution/engine_broker.go:292-293 | leasing an attempt moves it from `ready` to `inFlight` and changes no other cache |
| `SchedulerCaches.RefreshCache` | internal/execution/engine_broker.go:153-180 | after recovery and promotion the updated caches are those of the new run |
| `SchedulerCaches.RecoveryReport` | internal/execution/reliability.go:218-273 | each entry of the recovery report describes an expired task |
| `RunProofs.NewRunInv` | internal/execution/run.go:88-125 | a new run of a valid definition satisfies the aggregate invariant |
| `RunProofs.StartRunInv` | internal/execution/run.go:284-298 | starting a run keeps the aggregate invariant |
| `RunProofs.StartAttemptInv` | internal/execution/reliability.go:118-161 | starting an attempt keeps the aggregate invariant and advances the run |
| `RunProofs.HeartbeatInv` | internal/execution/reliability.go:86-116 | a heartbeat keeps the aggregate invariant |
| `RunProofs.HeartbeatProgress` | internal/execution/reliability.go:101-113 | a heartbeat changes no status, attempt, output, error or lease holder |
| `RunProofs.CompleteInv` | internal/execution/reliability.go:163-216 | completing an attempt never fails on a known task, keeps the aggregate invariant and advances the run |
| `RunProofs.RecoverInv` | internal/execution/reliability.go:218-273 | recovering expired leases keeps the aggregate invariant and advances the run |
| `RunProofs.PromoteInv` | internal/execution/reliability.go:275-296 | promoting due retries keeps the aggregate invariant and advances the run |
| `RunProofs.MarkNewReadyEffect` | internal/execution/engine.go:370-394 | unlocking makes exactly the pending tasks with all dependencies succeeded ready and touches nothing else |
| `RunProofs.MarkNewReadyInv` | internal/execution/engine.go:370-394 | unlocking keeps the aggregate invariant, dependency safety included |
| `RunProofs.MarkNewReadyClosure` | internal/execution/engine.go:370-394 | after unlocking nothing further can be unlocked |
| `RunProofs.CancelUnfinishedTasks` | internal/execution/run.go:300-327 | canceling leaves every task terminal, terminal tasks alone, and no lease |
| `RunProofs.FailRunInv` | internal/execution/engine.go:285-298 | a running run that is not all succeeded can be failed, and the result satisfies the aggregate status rules |
| `RunProofs.CancelRunInv` | internal/execution/engine.go:300-314 | a run without failed tasks can be canceled, and the result satisfies the aggregate status rules, all-succeeded runs included |
| `RunProofs.SucceedRunInv` | internal/execution/engine_broker.go:200-209 | a running run whose tasks all succeeded can be completed |
| `RunProofs.AdvancesTransitive` | internal/execution/run.go:232-327 | advancing composes: what holds between neighbouring states holds between distant ones |
| `WorkflowRun.WorkflowRun.TransitionTask` | internal/execution/run.go:232-282 | the object changes as the specified transition, or not at all with the error named |
| `WorkflowRun.WorkflowRun.TransitionWorkflow` | internal/execution/run.go:284-298 | the run status changes along the legality table or not at all |
| `WorkflowRun.WorkflowRun.CancelUnfinished` | internal/execution/run.go:300-327 | canceling in any map order gives the one specified state |
| `WorkflowRun.WorkflowRun.RecordWorkerHeartbeat` | internal/execution/reliability.go:86-116 | heartbeat and lease extension in any map order give the one specified state |
| `WorkflowRun.WorkflowRun.StartTaskAttempt` | internal/execution/reliability.go:118-161 | the object becomes the specified run and the new attempt identifier is returned |
| `WorkflowRun.WorkflowRun.CompleteTaskAttempt` | internal/execution/reliability.go:163-216 | outcome and new state are the specified ones |
| `WorkflowRun.WorkflowRun.RecoverExpiredLeases` | internal/execution/reliability.go:218-273 | state, error texts included, and sorted report are the specified ones whatever order the map yields |
| `WorkflowRun.WorkflowRun.PromoteDueRetries` | internal/execution/reliability.go:275-296 | state and sorted list are the specified ones whatever order the map yields |
| `WorkflowRun.WorkflowRun.NextReliabilityDeadline` | internal/execution/reliability.go:298-320 | a running task without a lease makes it the run's own time; what is found is always some task's deadline; and with no deadline at the zero time, one is found exactly when a task is running or waiting, and it is the earliest |
| `WorkflowRun.WorkflowRun.Snapshot` | internal/execution/run.go:198-212 | the snapshot lists tasks and workers by identifier |
| `WorkflowRun.WorkflowRun.MarkNewReady` | internal/execution/engine.go:370-394 | unlocking succeeds exactly on valid definitions and known tasks, yields the specified state and returns the newly ready tasks |
| `Snapshot.Validate` | internal/execution/store.go:38-148 | validation accepts exactly the snapshots satisfying the stated per-task, lease, worker and aggregate rules |
| `Snapshot.CheckAggregate` | internal/execution/store.go:150-177 | the counter-based status check accepts exactly the consistent task lists |
| `Snapshot.CheckTasks` | internal/execution/store.go:54-125 | the pass over the tasks accepts exactly distinct valid tasks with distinct lease holders, and returns holders and counts |
| `Snapshot.CheckWorkers` | internal/execution/store.go:126-137 | the pass over the workers accepts exactly distinct valid heartbeats |
| `Snapshot.RestoreTasks` | internal/execution/store.go:208-232 | the task table read back, with identities older snapshots lack filled in |
| `Snapshot.RestoreWorkflowRun` | internal/execution/store.go:186-244 | restoring succeeds exactly for valid snapshots that match the definition, with the run specified |
| `SnapshotProofs.OwnSnapshotValid` | internal/execution/store.go:38-177 | the snapshot of a consistent run validates if and only if no worker holds two leases |
| `SnapshotProofs.RestoreRoundTrip` | internal/execution/store.go:179-244 | restoring the snapshot of a consistent run gives back that run, and its snapshot again; with a double lease it is refused |
| `SnapshotProofs.StartKeepsUniqueLeases` | internal/execution/reliability.go:118-161 | after a start leases are unique if and only if the worker held none |
| `SnapshotProofs.UniqueLeasesKept` | internal/execution/store.go:115-124 | whatever moves no lease to another worker keeps leases unique |
| `Edges.GreedyIsTopological` | internal/workflow/graph.go:257-282 | a sequence built by always taking the least available task lists dependencies first |
| `Edges.GreedyIsLeast` | internal/workflow/graph.go:37-53 | that sequence is lexicographically least among all topological orders |
| `Edges.LeftoverHasCycle` | internal/workflow/graph.go:257-282 | a nonempty leftover of Kahn's loop contains an actual cycle |
| `Edges.CompleteIsAcyclic` | internal/workflow/graph.go:257-282 | consuming every task proves the relation acyclic |
| `Edges.IncompleteIsCyclic` | internal/workflow/graph.go:257-282 | stopping early proves it cyclic |
| `Edges.SomethingAvailable` | internal/workflow/graph.go:81-123 | in an acyclic relation some unfinished task has all its dependencies done |
| `Graph.IndexTasks` | internal/workflow/graph.go:131-186 | the first pass indexes and sorts exactly the valid, distinct task lists |
| `Graph.CheckDependencies` | internal/workflow/graph.go:187-225 | the dependency check accepts exactly known, distinct, non-self dependencies and names the first defect |
| `Graph.LinkAll` | internal/workflow/graph.go:187-239 | the second pass computes indegrees and sorted reverse lists |
| `Graph.BuildDependencyGraph` | internal/workflow/graph.go:131-239 | the graph is built exactly for structurally valid definitions and represents their dependency relation |
| `Graph.PopLeast` | internal/workflow/graph.go:304-328 | the heap pops a least element |
| `Graph.RunKahn` | internal/workflow/graph.go:257-282 | the loop yields a greedy order, complete exactly when the relation is acyclic |
| `Graph.TopologicalOrder` | internal/workflow/graph.go:37-53 | an order is returned exactly for valid definitions; it is a permutation of the tasks with dependencies first and lexicographically least of all such orders |
| `Graph.Validate` | internal/workflow/graph.go:19-23 | validation accepts exactly structurally valid, acyclic definitions and reports a real defect otherwise |
| `Graph.IsAcyclic` | internal/workflow/graph.go:27-36 | reports acyclicity of structurally valid definitions and passes on other defects |
| `Graph.ReadyTasks` | internal/workflow/graph.go:81-129 | lists exactly the tasks not completed whose dependencies all are, by identifier; unknown completed tasks are refused, the least one named |
| `Graph.RootTasks` | internal/workflow/graph.go:56-79 | lists exactly the tasks without dependencies, by identifier |
| `Definition.ComputeRetryDelay` | internal/workflow/definition.go:34-54 | the doubling loop stays within 64 bits and returns min(cap, initial * 2^(n-1)), zero without backoff |
| `Definition.RetryDelayMonotone` | internal/workflow/definition.go:34-54 | later attempts never wait less |
| `Ids.TaskRunIdInjective` | internal/execution/reliability.go:58-60 | run and task can be read back from a task-run identifier, whatever bytes they hold |
| `Ids.AttemptOfInjective` | internal/execution/reliability.go:58-65 | the map from run, task and attempt number to attempt identifier is injective |
| `Ids.DerivedNamesValid` | internal/execution/run.go:375-385 | task-run and attempt identifiers of valid identifiers are valid |
| `Ids.WorkerIdInjective` | internal/execution/engine_broker.go:81-89 | slot and generation can be read back from a worker name |
| `Ids.WorkerIdValid` | internal/execution/engine_broker.go:81-89 | worker names of a valid namespace and run are valid identifiers |
| `BrokerProofs.AlwaysConserved` | internal/broker/memory.go:45-255 | through any sequence of operations each message of a topic is in exactly one of queued (once), in flight or acknowledged, in every subscription, and in-flight counts equal delivery counts |
| `BrokerProofs.PublishOk` | internal/broker/memory.go:45-74 | publishing keeps conservation, counts and order in every subscription |
| `BrokerProofs.ReceiveOk` | internal/broker/memory.go:77-118 | receiving keeps them, and hands out an unacknowledged message of the topic with its count |
| `BrokerProofs.AckOk` | internal/broker/memory.go:202-218 | acknowledging keeps them |
| `BrokerProofs.NackOk` | internal/broker/memory.go:220-236 | giving back keeps them |
| `BrokerProofs.SettlingSpends` | internal/broker/memory.go:202-236 | a successful Ack or Nack spends its delivery |
| `BrokerProofs.SettlesAtMostOnce` | internal/broker/memory.go:202-255 | a spent delivery stays spent through any operations: no later Ack, Nack or Progress of it succeeds |
| `BrokerProofs.AckedForever` | internal/broker/memory.go:165-178 | an acknowledged message never returns |
| `BrokerProofs.FirstDeliveriesInOrder` | internal/broker/memory.go:86-108 | first deliveries follow the order of publication |
| `Broker.EnqueueAllOk` | internal/broker/memory.go:147-163 | a subscription created late starts with the whole history of its topic, once and in order |
| `MemoryBroker.InMemoryBroker.Publish` | internal/broker/memory.go:45-74 | queueing on the subscriptions in any map order gives the specified broker |
| `MemoryBroker.InMemoryBroker.SubscriptionLocked` | internal/broker/memory.go:147-163 | a new subscription is built from the topic's history |
| `MemoryBroker.InMemoryBroker.Receive` | internal/broker/memory.go:77-118 | the head of the queue is taken as specified, or nothing if a receiver would wait |
| `MemoryBroker.InMemoryBroker.Ack` | internal/broker/memory.go:202-218 | the delivery is settled as specified or refused |
| `MemoryBroker.InMemoryBroker.Nack` | internal/broker/memory.go:220-236 | the message is queued again as specified or the delivery refused |
| `Channel.ReceiveRefines` | internal/broker/memory.go:77-118 | seen from one subscription, a receive takes some waiting message and counts it up |
| `Channel.PublishRefines` | internal/broker/memory.go:45-74 | seen from one subscription, a publish adds a message or repeats one |
| `Channel.SettleRefines` | internal/broker/memory.go:202-236 | seen from one subscription, Ack and Nack settle exactly live deliveries |
| `Channel.OtherTrafficInvisible` | internal/execution/engine_broker.go:570-577 | operations on other topics do not show in the view of a run's subscription |
| `JournalProofs.PlannedReplays` | internal/persistence/file_store.go:631-762 | every record the live store writes is accepted by replay with the same effect on all eight tables |
| `JournalProofs.LiveAfterOk` | internal/persistence/file_store.go:104-487 | after any sequence of mutations the live tables are those replay rebuilds from the records written |
| `JournalProofs.CutOpens` | internal/persistence/file_store.go:571-609 | a journal cut at any byte opens to exactly its complete records, if their texts are well-formed: their tables, and a file truncated to their bytes |
| `JournalProofs.OpenTorn` | internal/persistence/file_store.go:571-609 | a record torn before its newline leaves no trace |
| `JournalProofs.CrashesLoseOnlyTheTail` | internal/persistence/file_store.go:539-629 | through any sequence of mutations, crashes inside an append and reopenings, tables and file are those of the mutations whose lines were written in full, if the texts written are well-formed |
| `JournalProofs.VersionsAreConsecutive` | internal/persistence/file_store.go:157-244 | the records of a run carry the versions one, two, three, and the stored version counts them |
| `JournalProofs.OneWinnerPerVersion` | internal/persistence/file_store.go:217-224 | no two accepted saves of a run carry the same version |
| `FileStore.Store.SaveWorkflow` | internal/persistence/file_store.go:104-135 | tables and file change as the planned record says; repetition and conflict change nothing |
| `FileStore.Store.CreateRun` | internal/persistence/file_store.go:157-197 | as planned; the stored snapshot has version one |
| `FileStore.Store.SaveRun` | internal/persistence/file_store.go:201-244 | as planned; the stored snapshot has the next version, and a stale version is refused with the actual one |
| `FileStore.Store.CreateProject` | internal/persistence/file_store.go:266-297 | as planned; a known user keeps its stored record |
| `FileStore.Store.SaveProject` | internal/persistence/file_store.go:322-354 | as planned |
| `FileStore.Store.PutMembership` | internal/persistence/file_store.go:358-406 | as planned; a known membership keeps its creation moment |
| `FileStore.Store.SaveWorkflowForProject` | internal/persistence/file_store.go:442-487 | as planned |
| `FileStore.Store.ApplyRecord` | internal/persistence/file_store.go:631-762 | a record is applied as replay specifies or refused with nothing changed |
| `FileStore.Store.Replay` | internal/persistence/file_store.go:571-609 | the line loop computes the specified opening: tables, truncated file, or the first error |
| `FileStore.OutcomeIsStep` | internal/persistence/file_store.go:104-487 | each mutating call is one step of the store with crashes |
| `Events.DeriveRunEvents` | internal/api/events.go:150-218 | for any two snapshots the loops and the sort yield a start, the changed tasks by priority and identifier, and an end; without a task listed twice these are the specified events and no others |
| `Events.KeyOrder` | internal/api/events.go:196-201 | the sort key orders by priority and then by task identifier |
| `Events.FoldDerived` | internal/api/events.go:150-218 | folding a save's events over the previous statuses gives the current ones if and only if no task and not the run goes back to Pending and the tasks are the same |
| `Events.LogFaithful` | internal/api/events.go:61-114 | folding a stream's log over its first snapshot gives the latest statuses, and its numbers are 1..n |
| `Events.AfterIsExact` | internal/api/events.go:116-135 | a reader gets exactly the events numbered above its cursor, in order |
| `Events.ReadsEachOnce` | internal/api/server.go:601-627 | a reader polling a growing log at any moments sees each event after its cursor once and in order (Last-Event-ID resumption, section 9.2 of the WHATWG HTML standard) |
| `Events.EventBroker.Observe` | internal/api/events.go:61-89 | a save of any snapshot appends its derived events under the next numbers, opens a stream, or does nothing once closed |
| `Events.EventBroker.Seed` | internal/api/events.go:91-114 | a reader opens a missing stream with a snapshot event |
| `Events.EventBroker.EventsAfter` | internal/api/events.go:116-135 | the events after the cursor, and whether the stream is over |
| `RunEvents.StatusMoves` | internal/execution/run.go:356-365 | the stored run status changes along legal transitions only |
| `RunEvents.AdvanceIsRepresentable` | internal/api/events.go:150-218 | every advance of a run can be told by events |
| `RunEvents.LogTellsTheRun` | internal/api/events.go:332-350 | from any moment of any execution to any later one, the log of the snapshots stored in between, folded over the one the stream opened with, gives the statuses in the store: at creation, after a restart, and for a reader that opens the stream |
| `RateLimit.FixedWindowRateLimiter.Allow` | internal/security/rate_limit.go:60-94 | the decision is that of the whole history of calls |
| `RateLimit.FixedWindowRateLimiter.Purge` | internal/security/rate_limit.go:65-71 | purging in any map order drops exactly the windows that are over |
| `RateLimit.PurgeInvisible` | internal/security/rate_limit.go:64-71 | with a clock that never runs back, no decision of any sequence of calls differs from that of a limiter that never purges |
| `RateLimit.PurgeVisible` | internal/security/rate_limit.go:64-71 | 1025 calls of a clock that returns: the last one is admitted, and would be refused without the purge on the 1024th |
| `RateLimit.PurgeVisibleExactly` | internal/security/rate_limit.go:60-94 | for every sequence of calls under any clock, all calls are decided as without purging if and only if no call falls back into a window that an earlier purge has dropped |
| `RateLimit.AlikeExactly` | internal/security/rate_limit.go:60-94 | up to the first such call, a call is decided alike if and only if it does not fall back |
| `RateLimit.IntervalLimit` | internal/security/rate_limit.go:72-94 | any interval of one window length admits at most 2 * limit - 1 calls of a key under a clock that never runs back |
| `SchedulerLoop.Loop.SaveRun` | internal/execution/engine.go:316-326 | the run is stored with its version counted up, exactly when it is storable and the store does not fail; otherwise nothing changes |
| `SchedulerLoop.Loop.Load` | internal/execution/engine.go:184-217 | the store holds what loading specifies: an ending that was interrupted is completed, a run only created is started; the run in memory is the stored one, or the changed one the store did not take |
| `SchedulerLoop.Loop.Enter` | internal/execution/engine_broker.go:48-116 | the state before the first select is that of the machine |
| `SchedulerLoop.Loop.ReplaceWorker` | internal/execution/engine_broker.go:135-145 | a current worker is replaced in its slot by the next generation; an unknown one changes nothing |
| `SchedulerLoop.Loop.RefreshRun` | internal/execution/engine_broker.go:147-209 | recovery, promotion, save and cache updates at the top of the loop are one step of the machine |
| `SchedulerLoop.Loop.ApplyRecoveries` | internal/execution/engine_broker.go:156-177 | the loop over the recoveries updates workers, caches and the ready queue as specified and says whether an attempt was the last |
| `SchedulerLoop.Loop.CollectPending` | internal/execution/engine_broker.go:186-193 | the loop takes the parked claims of recovered attempts out of the map, in order |
| `SchedulerLoop.Loop.PublishReadyTasks` | internal/execution/engine_broker.go:487-553 | the loop publishes the ready queue as the machine does one message at a time, for any pattern of broker failures |
| `SchedulerLoop.Loop.TakeClaim` | internal/execution/engine_broker.go:229-273 | reading a claim is one step of the machine |
| `SchedulerLoop.Loop.AnswerClaim` | internal/execution/engine_broker.go:274-324 | a ready task is started, a current attempt parks the claim, anything else is settled |
| `SchedulerLoop.Loop.StartClaimed` | internal/execution/engine_broker.go:276-310 | start, save and answer are those of the machine, the failing saves included |
| `SchedulerLoop.Loop.TakeHeartbeat` | internal/execution/engine_broker.go:326-353 | a heartbeat is one step of the machine |
| `SchedulerLoop.Loop.TakeResult` | internal/execution/engine_broker.go:371-469 | reading a result is one step of the machine |
| `SchedulerLoop.Loop.CompleteAndUnlock` | internal/execution/engine_broker.go:385-415 | completing the attempt and unlocking its dependents give the specified run, outcome and newly ready tasks |
| `SchedulerLoop.Loop.AcknowledgeAll` | internal/execution/engine_broker.go:597-605 | the loop settles the parked claims as the machine does one at a time, stopping at the first failure |
| `SchedulerLoop.Loop.Finish` | internal/execution/engine.go:285-314 | failing, canceling and succeeding end the run as the machine does; the run in memory is the stored one, or the ended one the store did not take |
| `SchedulerLoop.TerminalState` | internal/execution/engine.go:219-233 | failed if some task has failed, else canceled if some task was canceled, else none |
| `SchedulerLoop.PublishAllSteps` | internal/execution/engine_broker.go:487-553 | the publishing loop is a sequence of machine steps, so the invariant holds between any two messages |
| `SchedulerLoop.AckAllSteps` | internal/execution/engine_broker.go:597-605 | the acknowledging loop is a sequence of machine steps |
| `SchedulerRace.ClaimBeforeResult` | internal/execution/engine_broker.go:371-469 | from every state the invariant allows in which a current worker runs a current attempt and the message of a ready task can be received, four steps (the work ends, the worker receives and claims, the claim is read first) end the loop with an error and the store unchanged |
| `SchedulerSaves.CreatedRun` | internal/execution/engine.go:108-128 | the theorems about executions speak of some: for every valid identifier, valid definition and engine whose heartbeats are more frequent than its leases are long there is an initial state as Execute makes it |
| `WorkflowRun.EndExpired` | internal/execution/reliability.go:218-273 | whatever order the map yields, exactly the running tasks whose lease is over are ended, each as specified, with the quoted error text |
| `WorkflowRun.EndAttempt` | internal/execution/reliability.go:232-262 | an attempt whose lease is over is retried at once, retried later, or was the last; its error names attempt, task and run |
| `WorkflowRun.NewWorkflowRun` | internal/execution/run.go:88-125 | creation fails exactly on an invalid identifier or definition and else gives the initial run |
| `Events.CausesComeFirst` | internal/api/events.go:196-218 | within a save, endings and retries are told before readiness, and readiness before starts |
| `SchedulerLoop.HandlersApply` | internal/execution/engine_broker.go:229-469 | at every select point the preconditions of the claim and result handlers hold of everything in the channels; unlocking dependents cannot fail |
| `WorkflowRun.RetryPolicyFor` | internal/execution/reliability.go:322-329 | the loop finds the policy of the first task with that identifier |
| `WorkflowRun.EarliestDeadline` | internal/execution/reliability.go:298-320 | whatever order the map yields, the search finds some task's deadline, the earliest one if no deadline is at the zero time, and stops at a running task without a lease |
| `Events.StaleCursor` | internal/api/server.go:601-627 | a reader that brings a cursor from before a restart gets nothing until the new log is longer than it, never gets the first so many events, and gets all of them exactly if it brings zero or there are none |
| `RunEvents.StreamGrows` | internal/api/events.go:51-89 | the logs of a stream that opens at any moment of any execution only grow and have no gap, so what a reader with any cursor gets is determined |
| `JournalUtf8.ReopensExactly` | internal/persistence/file_store.go:539-629 | for every sequence of mutations: after each record the journal opens to the tables the live store held, if and only if every text written is well-formed UTF-8 |
| `JournalUtf8.IllFormedConflict` | internal/persistence/file_store.go:539-629 | two workflows whose identifiers are different ill-formed bytes are both saved, and the journal then no longer opens |
| `JournalUtf8.ReadUtf8` | internal/persistence/file_store.go:571-629 | whatever bytes a file holds, opening it gives tables of well-formed texts |
| `Ids.CleanedExactly` | internal/persistence/file_store.go:539-553 | putting U+FFFD in the place of ill-formed bytes keeps exactly the well-formed texts |
| `SchedulerLivelock.TurnExactly` | internal/execution/reliability.go:86-116 | a heartbeat and the turn of the loop after it, each at its own clock reading, whatever else the run is doing: the attempt stays under way if and only if its lease has not run out at the turn, and the lease is renewed if and only if it is under that worker's name and has not run out at the heartbeat |
| `SchedulerLivelock.KeptAlive` | internal/execution/engine_broker.go:326-353 | any number of heartbeats one interval apart, for every interval shorter than the lease: the clock has moved on by that many intervals, the attempt is still under way, nobody works on it, nothing can be received and no claim or result is under way |
| `SchedulerLivelock.LeftBehind` | internal/execution/engine_broker.go:77-116 | a loop that gives up while a task runs under a first-generation name, and is entered again by the same engine before anything is due, leaves an attempt that nobody works on under the name of a worker of the new pool |
| `SchedulerRace.RaceGivesUp` | internal/execution/engine_broker.go:229-469 | from any state with a free worker and two readable messages waiting, whatever else is under way, there is an execution without a fault after which the loop has given up and the first task is in the store under the worker's lease |
| `SchedulerRace.PairGivesUp` | internal/execution/engine_broker.go:42-485 | on any engine, an execution without a fault from the creation of a run of two independent tasks to the loop giving up |
| `SchedulerLivelock.Livelock` | internal/execution/engine_broker.go:42-485 | on any engine with one worker and heartbeats more frequent than its lease is long: a run of one task, one heartbeat that cannot be saved and a second entry lead from creation to an attempt under way that nobody works on and whose only message is parked, and any number of heartbeat intervals later it is still so |
| `SchedulerLivelock.StrandedStep` | internal/execution/engine_broker.go:147-485 | when one attempt is under way, nobody works on it and nothing can be received, claimed or reported: each event without fault or loss of a worker leaves that situation as it is, but for a turn of the loop after the lease has run out, which ends the attempt |
| `SchedulerLivelock.StrandedExactly` | internal/execution/engine_broker.go:147-485 | for every sequence of such events: the attempt is under way at all times if and only if the loop never turns after its lease has run out |
| `SchedulerTheorems.MalformedExactly` | internal/execution/engine_broker.go:242-273 | a current worker's claim ends the loop over its message if and only if run or task identifier is not well-formed; the message is then acknowledged and the store unchanged |
| `SchedulerSteps.MalformedFine` | internal/execution/engine_broker.go:242-273 | acknowledging a message that cannot be read back keeps the invariant |
| `SchedulerMalformed.NeverStarted` | internal/execution/engine_broker.go:555-568 | through every execution, faults, crashes and restarts included, a task whose own or whose run's identifier is not well-formed has no attempt, in the store and in memory |
| `SchedulerMalformed.NeverSucceeds` | internal/execution/engine_broker.go:555-568 | such a task is pending, ready or canceled at all times, and its run never succeeds |
| `SchedulerMalformed.AcknowledgedExactly` | internal/execution/engine_broker.go:447-462 | for every acknowledged message of every execution: the stored run has moved past its attempt if and only if its identifier is well-formed |
| `SchedulerBlocked.MessageLost` | internal/execution/engine_broker.go:242-273 | from the creation of any run one of whose identifiers is not well-formed, on any engine with a worker, an execution without a fault to the loop ending over a message, the message acknowledged and its task ready |
| `SchedulerBlocked.IllFormedRun` | internal/execution/engine_broker.go:242-273 | such an execution of a run of one task under the one-byte identifier 0xFF |
| `Ids.AttemptUtf8` | internal/execution/reliability.go:58-65 | an attempt identifier is well-formed UTF-8 if and only if its run and task identifiers are |
| `JournalCodec.CodecExists` | internal/persistence/file_store.go:539-553 | some codec has all the properties asked of the journal's: no newline in a line, lossless on well-formed records, reading only well-formed ones, and giving workflows back with U+FFFD in the place of ill-formed bytes |
| `SchedulerBlocked.CanEndExactly` | internal/execution/engine_broker.go:147-485 | from every state of every execution the run can end without cancellation, fault or crash, if and only if all its identifiers are well-formed |
| `SchedulerBlocked.NeverMalformedExactly` | internal/execution/engine_broker.go:242-273 | no execution ends the loop over a malformed message, if and only if all identifiers of the run are well-formed |
| `SchedulerBlocked.NoLostWorkExactly` | internal/execution/engine_broker.go:487-553 | at every select point of every execution the message of each ready task is waiting and in reach, if and only if all identifiers of the run are well-formed |
| `SchedulerBlocked.SucceedsExactly` | internal/execution/engine_broker.go:42-485 | some execution of a run succeeds, if and only if all its identifiers are well-formed |
| `SchedulerBlocked.DeadStep` | internal/execution/engine_broker.go:147-485 | when all tasks are done, pending with nothing to unlock, or ready and unreadable, no event but cancellation, fault or crash changes that or sets out to end the run |
| `SchedulerBlocked.SuccessStep` | internal/execution/engine_broker.go:371-469 | a result without error of an attempt under way: the task succeeds, its dependents are unlocked, the run is saved and the delivery is next to be acknowledged |

## Left out

- The NATS broker and the PostgreSQL store: their behaviour is that of systems outside this repository.
- HTTP routing, JSON decoding, configuration, tracing, logging and metrics: plumbing.
- Token verification, role tables and authorization handlers: single-branch facts.
- Handler bodies: a handler ends with success, a retryable or terminal error, or the loss of its worker.
- Blocking: a receive is enabled when the queue is not empty; the one-slot wake-up channels of broker and event streams are not modelled, and channel capacities are unbounded.
- Heartbeats, lost-worker notices, broker errors and cancellation may reach the select of the scheduler machine at any moment; the machine allows more executions than the program.
- Extending a delivery on a heartbeat succeeds or fails arbitrarily; which delivery a worker is active on is not kept.
- A worker of the scheduler machine may leave at any moment, giving its delivery back.
- Goroutines, the select statement and the timer: the class `SchedulerLoop.Loop` has the handlers, and the machine chooses which of them runs. The workers are modelled on values, as steps of the machine.
- Text of error messages, except the one recovery writes into a task: a cause is a parameter.
- Quoting in that text: well-formed multi-byte characters are written as they are; the table of those that count as unprintable is not modelled.
- A failed write that leaves part of a line while the process goes on: a partial line is modelled as a crash.
- 64-bit wrap-around of versions, delivery counts and call counters: natural numbers; retry delays are modelled in 64 bits.
- Snapshot.Validate: says which snapshots are refused, not which of the messages is given.
- Snapshot.RestoreWorkflowRun: says which snapshots are refused, not which of the messages is given.
- Read-only queries of the store (loading, listing memberships and audit events): they would only add easy members.
- Context errors of store calls: a call that starts with a canceled context does nothing.
