# xCherry: process executions, local queues and task queues

xCherry runs workflows whose state lives in database rows.  A process execution has a process row, one
row per state execution, tasks that make workers call a state's wait-until or execute API, timers, and
messages published to its local queues.  Everything that happens to these rows is a transaction.  Two
in-memory queues per shard read the task tables.  This project models

- **the values** the process row stores: `LocalQueues` (first-in-first-out messages matched to counted
  commands), `SequenceMaps` (counters and the pending map), `StateExecutionIds` (printed ids);
- **the transactions** of `persistence/process`, twice: as functions of an execution's rows
  (`ProcessModel`, `Transactions`), and in place, statement by statement, with loops, early returns and
  rollback (`Tables`, `ProcessStore`, `Stores`), each method proved to do what its function says;
- **runs**: `Sessions` adds what the engine's workers hold in memory, the versions they prepared and the
  tasks whose transaction has committed, and makes every transaction one step of a transition system;
  `StoreTheorems` puts all executions, the latest-execution table and the id-reuse policies together;
- **deliveries**: in the runs of `Sessions` each task and timer is delivered from the tables, where its row
  still is.  The program does not see to that, so `Redeliveries` lets whatever was once in the tables be
  delivered any number of times;
- **the timer queue**: `TimerGates`, `TimerQueue`, `TimerTaskQueues`, and the **immediate-task queue**:
  `ImmediateTaskQueues`, `PageMerging`.

Where Go iterates a map the order is an argument of the function and a ghost result of the method, so
every theorem holds for every order.  A function that returns `None` stands for an error: nothing is
committed.

## How the proofs are built

`Invariants.Inv` is what holds of an execution between transactions: keys and rows exist, pending is
active, every running state is driven exactly once, waiting rows agree with the registered commands, no
wake-up is lost, and every message is in one place.  For each transaction a relation says in plain fields
what changed (`Finished`, `Redriven`, `WaitStarted`, `RowUpdated`, `MayClose`, and so on) and small
lemmas show that the relation keeps each part.  `SessionLemmas.StepKeeps` collects them; `RunTheorems`,
`RunFifo`, `ClosingTheorems`, `ClosedStatus`, `Leftovers` and `StoreTheorems` draw the conclusions for whole
runs.

What a step leaves is also said without the functions that compute it: `StartEffects` and `PublishEffects`
for starting states and publishing, `DecisionEffects` for decisions, `StepEffects` for all other steps,
`StoreEffects` for the events that go by process id, `PreloadGates` for the timer queue's preloads.  Their
predicates speak of counters, rows, tasks and timers alone.  `GracefulTheorems` draws the conclusion for
graceful completion.

`RedeliveryTheorems` says what the version fence guarantees in every run of deliveries;
`HarmlessDeliveries` keeps all invariants in such runs for as long as no delivery does harm, and
`HarmfulDeliveries` shows that each kind of harmful delivery breaks them.  Where a
property fails, a lemma that returns a concrete run shows it (`EmptyWaits`, `StaleWaits`, `QueueRevival`,
`UnrecordedClosings`, `SkippedTimers`, `ResentTimers`, `RedeliveryRuns`, `StateFailures`), beside the exact
condition for all runs.

## What is not as one might expect

- A printed id with a negative sequence does not parse back (`RoundTripIffNonNegative`).
- The wait-until transaction with commands checks no version.  After its row was aborted it revives the
  row, in a closed process too, exactly when the response carries commands
  (`StaleWaitReopensIffCommands`).
- A closed process need not keep its terminal status.  `TERMINATE_IF_RUNNING` keeps the pending map, and an
  aborted state of a terminated process can become active again in exactly two ways (`RevivedIff`): by its
  own stale wait-until response with commands, as in the run of `TerminatedCanComplete`, or by a queue task
  that completes its request through a command that is still registered, as in the run of
  `TerminatedCanCompleteByQueue`.  Until one of them happens everything stays (`ClosedUntilRevived`), and
  then the status changes exactly when such a state, still pending, ends with a decision that calls for
  another one (`ClosedStatusChangesIff`).  A process closed in any other way has nothing pending: the same two
  ways revive its states, but its status never changes again (`ClosedStaysClosed`).
- A failed state stops whatever execution of its process id is the latest.  When that is a successor of its
  own execution, the successor fails (`FailureStopsTheLatest`, and the run of `OldStateFailsSuccessor`).
- A wait-until response of type ANY_OF or ALL_OF without any command strands its state
  (`EmptyWaitIsStranded`); it is the only way to strand one (`OrphanedIffAsksForNothing`).
- A process that a remote procedure call closes is never recorded as closed
  (`ClosingIsRecordedIffNotRpc`, and the run of `CallClosesUnrecorded`).
- A worker task can have its fenced transaction committed twice.  A retry prepares again, preparing reads the
  state's row and not the task table, and the fence takes whatever read has the row's version
  (`FenceDecides`).  So after a commit whose success was hidden by an error, or with a second holder, the task
  commits again exactly when its fence passes, and then it was read again after that commit
  (`CommitsAgainOnlyIfReadAgain`, and the run of `RetryCommitsAgain`).  Such a commit leaves the state's real
  driver behind, unless the process closes (`FencedCommitKeepsIff`).
- The other transactions for tasks and timers are not fenced at all, and deleting a row that is gone succeeds.
  A backoff timer converted again gives its state two drivers (`ConversionKeepsIff`, `ConvertedTwice`); a queue
  task processed again doubles its messages (`QueueTaskKeepsIff`, `ArrivedTwice`); a second response with
  commands breaks the rows unless the state is waiting still, and doubles its timers then (`ResponseKeepsIff`,
  `SecondResponseKeepsTimersIff`, `AskedTwice`).  Command and timeout timers may fire as often as they like.
- The timer queue itself delivers timers more than once: a preload loads again what was sent and is stored
  still (`SentAgainIffLoadedAgain`, and the run of `TimerIsSentTwice`).
- A command timer that fires after its state stopped waiting is never deleted (`LeftoverStays`).  Every preload
  that reaches it loads and sends it again, and as many leftovers as a page holds keep all later timers out
  (`PreloadReachesIff`, `LeftoversKeepOthersOut`).
- A timer row that becomes visible after a larger sequence was loaded is not picked up by a triggered
  poll, only by the next preload (`PollSkipsSmallerSequences`, and the run of `NotifiedTimerIsSkipped`).
- A notification for the largest 64-bit second alone would arm no gate; `NeverStuck` says so.

## Assumptions

Database transactions are atomic and isolated.  Generated task sequences are new and increasing.  Command
counts are not negative.  Row versions, sequences and times are unbounded integers except where a bound is
stated.

The theorems on the runs of `Sessions` (`RunTheorems`, `RunFifo`, `ClosingTheorems`, `ClosedStatus`, `Leftovers`,
`StoreTheorems`) assume, of every transaction that no version fences and of every preparation, that the task or
timer it is for is still in the table, and of a wait-until response with commands that its task has had no commit.
The program does not check this.  `InOrderWhileHarmless` has the invariants without that assumption, as long as
no delivery does harm, and the conditions named above say exactly which ones do.

## Model

| member | source | states |
|---|---|---|
| StateExecutionIds.ParsePrint | persistence/data_models/state_execution_id.go:17-34 | what parsing a printed id gives, for every 32-bit sequence: the id itself, another id, or an error |
| StateExecutionIds.RoundTripIffNonNegative | persistence/data_models/state_execution_id.go:17-34 | the round trip holds exactly for sequences that are not negative, hyphens in the state id or not |
| StateExecutionIds.PrintIsInjective | persistence/data_models/state_execution_id.go:17-19 | two state executions never share a key |
| StateExecutionIds.PrintedForm | persistence/data_models/state_execution_id.go:17-19 | the printed form: the state id, a hyphen, and the decimal digits of the sequence with its sign |
| LocalQueues.StateExecutionLocalQueues.AddNewLocalQueueCommands | persistence/data_models/state_execution_local_queues_json.go:35-51 | the loop adds each command under its index, a count of 0 as 1, and touches no other state |
| LocalQueues.StateExecutionLocalQueues.AddMessageAndTryConsume | persistence/data_models/state_execution_local_queues_json.go:72-103 | the consumer is some command that fits, in any map order, or nobody when none fits; it gets the first messages and is unregistered |
| LocalQueues.StateExecutionLocalQueues.VisitCommands | persistence/data_models/state_execution_local_queues_json.go:129-153 | the consuming loop over the commands in some order |
| LocalQueues.StateExecutionLocalQueues.TryConsumeForStateExecution | persistence/data_models/state_execution_local_queues_json.go:123-169 | what is consumed and what stays registered, for the order taken |
| LocalQueues.StateExecutionLocalQueues.CleanupFor | persistence/data_models/state_execution_local_queues_json.go:171-174 | only the state's own commands go |
| LocalQueueTheorems.ArrivalKeepsNoLostWakeUp | persistence/data_models/state_execution_local_queues_json.go:72-103 | after an arrival no registered command could be satisfied; who consumes takes all that waits on the queue |
| LocalQueueTheorems.RegisterKeepsNoLostWakeUp | persistence/data_models/state_execution_local_queues_json.go:35-169 | registering endangers only the new state, and consuming at once restores the invariant, for every order |
| LocalQueueTheorems.NeverALostWakeUp | persistence/data_models/state_execution_local_queues_json.go:35-174 | no lost wake-up at any point of any run of operations |
| LocalQueueTheorems.Fifo | persistence/data_models/state_execution_local_queues_json.go:72-169 | over any run, per queue: batches handed over, then what waits, are the arrivals in order; each batch has its command's count |
| SequenceMaps.StateExecutionSequenceMaps.StartNewStateExecution | persistence/data_models/state_execution_sequence_maps_json.go:35-48 | the counter and the pending map after a start |
| SequenceMaps.StateExecutionSequenceMaps.CompleteNewStateExecution | persistence/data_models/state_execution_sequence_maps_json.go:50-60 | fails, changing nothing, unless pending; no empty inner map stays |
| SequenceMaps.StartNewIsFresh | persistence/data_models/state_execution_sequence_maps_json.go:35-48 | supporting `PendingIsActive`: the new sequence was never used, and it alone becomes pending |
| SequenceMaps.CompleteNewRemovesOne | persistence/data_models/state_execution_sequence_maps_json.go:50-60 | supporting `PendingIsActive`: succeeds exactly for a pending state, and takes out that one alone |
| SequenceMaps.NonePendingIsExact | persistence/process/common.go:149 | the length-zero test means that nothing is pending |
| Tables.Transaction.InsertAsyncStateExecution | extensions/postgres/transactional.go:86-94 | fails exactly when the key is taken |
| Tables.Transaction.UpdateAsyncStateExecution | extensions/postgres/transactional.go:114-139 | fails exactly when the version moved; else the row is written at the next version |
| Tables.Transaction.UpdateAsyncStateExecutionWithoutCommands | extensions/postgres/transactional.go:141-166 | the same fence, leaving commands and results alone |
| Tables.Transaction.BatchUpdateAsyncStateExecutionsToAbortRunning | extensions/postgres/transactional.go:168-179 | row by row: a status below 4 becomes aborted at the next version, any other row is untouched |
| Tables.Transaction.InsertLocalQueueMessage | extensions/postgres/transactional.go:243-263 | inserts only a new dedup id, and tells |
| ProcessStore.InsertState | persistence/process/sql_process_store_common.go:16-84 | a new row and the task that drives it, under the next sequence |
| ProcessStore.CloseAsDecided | persistence/process/common.go:145-186 | closing in place amounts to the function `Close`; what that is, `CompletingTakesEffect` and `GracefulRequestIsHonoured` say |
| ProcessStore.HandleDecision | persistence/process/common.go:97-194 | the loop over the next states and the close, in place; `CompletingTakesEffect` and `CallingTakesEffect` say what all of it leaves |
| ProcessStore.PublishMessages | persistence/process/sql_process_store_common.go:89-162 | rows for the new dedup ids and one task that lists exactly those, or none |
| ProcessStore.UpdateCommandResults | persistence/process/sql_process_store_common.go:190-220 | the results of all consumed commands, in whatever order; fails exactly when a message has no row |
| ProcessStore.UpdateWhenCompletedWaitUntilWaiting | persistence/process/sql_process_store_common.go:244-262 | the state's commands go and its execute task comes |
| ProcessStore.WriteResults | persistence/process/process_local_queue.go:91-131 | a waiting row's new results, and the end of its wait when they complete it |
| ProcessStore.UpdateWaitUntilExecution | persistence/process/wait_until.go:120-260 | registering, consuming, the row, its timers and the queues, unfenced |
| ProcessStore.ProcessWaitUntilExecution | persistence/process/wait_until.go:16-118 | commits what the transaction's function says, or rolls everything back |
| ProcessStore.AssignMessages | persistence/process/process_local_queue.go:53-65 | the assignment map after all messages of a task arrived |
| ProcessStore.UpdateAssigned | persistence/process/process_local_queue.go:83-132 | every assigned row is updated once, in some order |
| ProcessStore.ProcessLocalQueueMessages | persistence/process/process_local_queue.go:13-159 | the whole transaction, or none of it |
| ProcessStore.ProcessTimerTaskForTimerCommand | persistence/process/process_timer_task_for_timer_command.go:39-133 | the fired command's result, or nothing at all for a row that does not wait |
| ProcessStore.CompleteExecuteExecution | persistence/process/complete_execute.go:18-192 | the whole transaction, or none of it |
| ProcessStore.RecoverFromStateExecutionFailure | persistence/process/recover_from_state_execution_failure.go:15-126 | the whole transaction, or none of it, and the failed task stays; `RecoveringTakesEffect` says which state starts |
| ProcessStore.BackoffImmediateTask | persistence/process/backoff_immediate_task.go:39-89 | the fenced row, a timer for the task, the task gone |
| ProcessStore.ConvertTimerTaskToImmediateTask | persistence/process/convert_timer_task_to_immediate_task.go:41-71 | the timer becomes a task of its kind |
| ProcessStore.UpdateProcessExecutionForRpc | persistence/process/update_process_execution_for_rpc.go:13-123 | decision and messages on a running process, nothing on a closed one |
| ProcessStore.StopExecution | persistence/process/stop_process.go:63-125 | the whole transaction on a running execution; `StoppingTakesEffect` and `TimingOutTakesEffect` say with which status it closes |
| Stores.ProcessTables.StartProcess | persistence/process/start_process.go:44-383 | the four id-reuse policies, branch by branch |
| Stores.ProcessTables.InsertProcessExecution | persistence/process/start_process.go:385-529 | a new execution's rows and its place in the latest table |
| Stores.ProcessTables.ReplaceRunning | persistence/process/start_process.go:296-354 | marking, inserting the new execution, then aborting amounts to terminating and then inserting |
| Stores.ProcessTables.StopProcess | persistence/process/stop_process.go:49-130 | stops the latest execution of a process id |
| Stores.ProcessTables.PublishToLocalQueue | persistence/process/publish_to_local_queue.go:38-75 | publishes to the latest execution if it runs |
| Stores.ProcessTables.ProcessTimerTaskForProcessTimeout | persistence/process/process_timer_task_for_process_timeout.go:50-88 | stops by process id when the timer's own execution runs, and drops the timer |
| StartingLemmas.StartStateIsFresh | persistence/process/common.go:111-142 | a start never collides; the new id alone becomes pending |
| PublishingLemmas.InsertMessagesAccepts | persistence/process/sql_process_store_common.go:96-133 | a repeated or known dedup id is accepted once at most, the first message wins, and no other row changes |
| PublishEffects.PublishingAll | persistence/process/sql_process_store_common.go:89-162 | every published dedup id has a row; the accepted messages are the first occurrences of the new ids, in the order published, each with that occurrence's queue and payload, and one task lists them |
| TimerCommandLemmas.CompletedIsExact | persistence/process/sql_process_store_common.go:228-242 | comparing lengths decides ALL_OF and ANY_OF exactly, results being within the request |
| WaitingLemmas.InsertCommandTimersInserts | persistence/process/wait_until.go:210-241 | one timer per command, at new keys, at its own time, no earlier than now |
| WaitingLemmas.WaitOutcomeHolds | persistence/process/wait_until.go:144-188 | what registering consumes was waiting on the right queues, and moves nowhere else |
| WaitingLemmas.UpdateWaitUntilKeeps | persistence/process/wait_until.go:120-260 | never fails and keeps the invariants, running or closed, for every order |
| StepLemmas.WaitUntilKeeps | persistence/process/wait_until.go:40-118 | only the response without commands is fenced; every commit keeps the invariants |
| StepLemmas.StartExecutionHolds | persistence/process/start_process.go:432-529 | a started execution satisfies all invariants |
| StepLemmas.TimeoutKeeps | persistence/process/process_timer_task_for_process_timeout.go:57-83 | timing out keeps the invariants |
| DrivingLemmas.CompleteWaitUntilKeeps | persistence/process/wait_until.go:91-118 | commits exactly at the prepared version, and hands the state to its execute API |
| DrivingLemmas.BackoffKeeps | persistence/process/backoff_immediate_task.go:39-89 | commits exactly at the prepared version; the timer is the state's one driver then |
| DrivingLemmas.ConvertKeeps | persistence/process/convert_timer_task_to_immediate_task.go:41-71 | one driver replaces the other |
| ClosingLemmas.CompleteExecuteKeeps | persistence/process/complete_execute.go:43-192 | commits exactly at the prepared version of a pending state, and keeps the invariants |
| ClosingLemmas.RecoverKeeps | persistence/process/recover_from_state_execution_failure.go:41-126 | the same for recovery |
| ClosingLemmas.HandleStateDecisionKeeps | persistence/process/common.go:97-194 | never fails; afterwards a running process asked to complete gracefully has a pending state |
| AssigningLemmas.AssignAllAssigns | persistence/process/process_local_queue.go:53-65 | each registered command stays registered or was given exactly what it asked for |
| AssigningLemmas.AssignAllMoves | persistence/process/process_local_queue.go:53-65 | all messages of the task are in exactly one place again, whoever was picked |
| QueueLemmas.QueueTxKeeps | persistence/process/process_local_queue.go:37-159 | never fails and keeps the invariants for all picks and orders, running or closed |
| TimerCommandLemmas.CommandTimerKeeps | persistence/process/process_timer_task_for_timer_command.go:39-133 | never fails and keeps the invariants |
| SessionLemmas.LiveTaskWorks | engine/immediate_task_concurrent_processor.go:185-194 | at a matching version the dispatch on the prepared status calls the API that the task is for |
| SessionLemmas.StepKeeps | persistence/process/wait_until.go:40-260 | every step, committed or failed, keeps all invariants and every prepared read |
| RunTheorems.AlwaysInv | persistence/process/complete_execute.go:43-192 | the invariants hold at every point of every run |
| RunTheorems.EvolvesAlong | extensions/postgres/transactional.go:115-179 | a row that changed has a higher version; rows and messages stay; closed processes stay closed |
| RunTheorems.DrivenExactlyOnce | persistence/process/wait_until.go:69-118 | with deliveries from the tables: on a running process each running row has exactly one driver, of its own API, and nothing else has one |
| RunTheorems.WaitingRowsAgree | persistence/process/wait_until.go:131-208 | registered means waiting; each command of a waiting row has its result, or else its one timer or its registration |
| RunTheorems.WaitsExactlyAsLongAsNeeded | persistence/process/sql_process_store_common.go:228-262 | a waiting row that asked for something does not have it; a row that left its wait has what it asked for |
| RunTheorems.OrphanedIffAsksForNothing | persistence/process/wait_until.go:191-198 | a waiting state can be woken exactly when its request has a command |
| EmptyWaits.EmptyWaitIsStranded | persistence/process/wait_until.go:191-198 | a run after which a state waits for ever with its wait complete |
| RunTheorems.PendingIsActive | persistence/process/common.go:108-186 | rows are numbered 1 to the counter; pending is active; graceful completion leaves something to wait for |
| RunTheorems.MessagesConserved | persistence/process/sql_process_store_common.go:89-162 | with deliveries from the tables: at every point every accepted message is in one place, on its own queue or in a result of the exact count, and none could wake a registered command |
| RunTheorems.ResultsAreWhatWasAskedFor | persistence/data_models/state_execution_local_queues_json.go:35-51 | on every run a result holds as many messages of its queue, with their payloads, as its command asked for, a count of 0 read as 1; what is registered asks for the same |
| RunFifo.RunsAreFifo | persistence/process/process_local_queue.go:53-65 | over whole runs of an execution, per queue: batches handed over, then what waits, are the messages in the order the queue tasks brought them |
| RunFifo.HandedOverIsStored | persistence/process/process_local_queue.go:107-128 | the batch a transaction hands over to a command is what that command's result in the state's row holds afterwards |
| RunTheorems.CommittedVersionIsSpent | persistence/process/complete_execute.go:76-91 | once a fenced transaction has committed at a version of a row, all four fenced transactions refuse that version for ever, for any task and any caller |
| RunTheorems.AtMostOneCommits | persistence/process/complete_execute.go:76-91 | of all fenced transactions asked for with reads of one version of a row at most one commits |
| RunTheorems.EachTaskCommitsOnce | persistence/process/complete_execute.go:76-91 | after any commit for a task no fenced transaction for it commits with a read that was made while the task was in the table |
| SecondHolders.SecondHolderIsRefused | persistence/process/wait_until.go:91-118 | a run in which two holders of one read ask for its transaction on a running process: the second is refused and changes nothing |
| RedeliveryTheorems.FenceDecides | persistence/process/prepare_state.go:14-56 | in every run of deliveries: a fenced transaction commits exactly at the row's version and, to end the state, a pending one; its task may be settled or gone |
| RedeliveryTheorems.VersionIsSpentForEver | engine/immediate_task_concurrent_processor.go:134-141 | in every run of deliveries: a version at which one committed is refused for ever |
| RedeliveryTheorems.CommitsAgainOnlyIfReadAgain | engine/immediate_task_concurrent_processor.go:134-141 | after a commit for a task it commits again exactly when its fence passes, and only with a read made after that commit |
| RedeliveryTheorems.ReadAgainCommits | engine/immediate_task_concurrent_processor.go:162-194 | reading a pending, executing state again is all it takes for the task to commit, settled or not |
| RedeliveryRuns.RetryCommitsAgain | engine/immediate_task_concurrent_processor.go:134-141 | a run in which a retry reads the moved row and commits a second time for its task, and the real driver is left driving an ended state |
| HarmlessDeliveries.InOrderWhileHarmless | engine/immediate_task_concurrent_processor.go:134-141 | in every run of deliveries, while none does harm: each message in one place, each running state driven once, pending is active, waiting rows agree |
| HarmlessDeliveries.SoundWhileHarmless | engine/timer_task_concurrent_processor.go:83-93 | the same with all invariants; command and timeout timers are harmless however often they fire |
| HarmlessDeliveries.OrdinaryRunsAreHarmless | engine/immediate_task_concurrent_processor.go:134-141 | every run with deliveries from the tables alone is a run of deliveries, none of which does harm |
| HarmfulDeliveries.FencedCommitKeepsIff | persistence/process/complete_execute.go:76-192 | a fenced commit leaves each running state driven exactly once iff its task is the live driver or the process closes |
| HarmfulDeliveries.ConversionKeepsIff | persistence/process/convert_timer_task_to_immediate_task.go:41-71 | a conversion leaves each running state driven exactly once iff its timer is still in the table |
| HarmfulDeliveries.QueueTaskKeepsIff | persistence/process/process_local_queue.go:37-159 | a queue task never fails and keeps each message in one place iff it is still in the table or carries nothing |
| HarmfulDeliveries.ResponseKeepsIff | persistence/process/wait_until.go:120-260 | a response with commands keeps driving and pending right iff its task is live or the state waits still |
| HarmfulDeliveries.SecondResponseKeepsTimersIff | persistence/process/wait_until.go:210-241 | a second response that leaves the state waiting keeps one timer or result for each command iff the first had no timers |
| RedeliveryRuns.ConvertedTwice | extensions/postgres/transactional.go:238-241 | a run after which two tasks drive one state |
| RedeliveryRuns.ArrivedTwice | extensions/postgres/transactional.go:230-233 | a run after which a message is on its queue twice |
| RedeliveryRuns.AskedTwice | persistence/process/wait_until.go:151-160 | a run in which the responses of two holders give one timer command two timers |
| Leftovers.LeftoverStays | persistence/process/process_timer_task_for_timer_command.go:66-71 | the timer of a command whose state no longer waits stays in the table for the rest of any run, and firing it changes nothing |
| RunTheorems.PreparedStaysTrue | persistence/process/prepare_state.go:14-56 | a matching version means a matching status |
| ClosingTheorems.ClosedStaysClosed | persistence/process/stop_process.go:70-91 | closed stays closed; with nothing pending the status stays too and no state starts any more, whatever runs on leftovers |
| ClosedStatus.CompletingEndsAs | persistence/process/common.go:145-176 | running or closed: the status a completing state leaves, in terms of what was pending before and the decision |
| ClosedStatus.ClosedStatusChangesIff | persistence/process/complete_execute.go:76-147 | a closed process changes its status at a step exactly when a state that is pending, at its prepared version, completes with a decision that calls for another status |
| ClosedStatus.RevivedIff | persistence/process/process_local_queue.go:83-131 | running or closed: an ended row becomes active exactly by its own wait-until response with commands or by a queue task that completes its request |
| ClosedStatus.ClosedUntilRevived | persistence/process/stop_process.go:70-105 | however the process closed: until a state is revived the status stays, nothing is active and nothing starts |
| ClosingTheorems.ClosingStepEndsRows | persistence/process/complete_execute.go:102-147 | the closing step leaves no active row: the completing one is completed, the others aborted; nothing is pending but after TERMINATE_IF_RUNNING |
| ClosingTheorems.GracefulWins | persistence/process/common.go:145-176 | the last pending state closes as completed even when it asks to fail |
| DecisionEffects.CompletingTakesEffect | persistence/process/complete_execute.go:76-192 | every committed completion: each next state has the counter, row, pending entry and one task that its position gives; the status, the request, what is aborted, messages and tasks, and nothing else |
| DecisionEffects.CallingTakesEffect | persistence/process/update_process_execution_for_rpc.go:68-123 | the same for a remote procedure call on a running process, where no state ends and nothing is recorded; a closed one stays as it is |
| GracefulTheorems.RequestIsSetIff | persistence/process/common.go:145-176 | at every step of every run the graceful request is set exactly if it was before, or a decision that asks for it is taken |
| GracefulTheorems.GracefulRequestIsHonoured | persistence/process/common.go:149-158 | after such a decision a running process has something pending, and at the first point with nothing pending it is completed unless that very step stopped it, timed it out or failed it by force |
| StepEffects.RecoveringTakesEffect | persistence/process/recover_from_state_execution_failure.go:41-126 | every committed recovery: the source is failed with its failure, exactly the destination starts under its next sequence, and its one driver is the new task |
| StepEffects.StoppingTakesEffect | persistence/process/stop_process.go:63-125 | a stop leaves exactly the status asked for, which one new task records, nothing pending and no active row; a closed process stays as it is |
| StepEffects.TimingOutTakesEffect | persistence/process/process_timer_task_for_process_timeout.go:57-83 | a timeout leaves the timeout status in the same way, and its timer is gone in any case |
| StepEffects.TerminatingTakesEffect | persistence/process/start_process.go:296-354 | termination leaves the terminated status, recorded, with all active rows aborted and the pending states kept |
| StepEffects.BackingOffTakesEffect | persistence/process/backoff_immediate_task.go:39-89 | the failure is in the row, the next attempt in one new timer for the same API, the task is gone, and nothing else changes |
| StepEffects.ConvertingTakesEffect | persistence/process/convert_timer_task_to_immediate_task.go:41-71 | one new task for the timer's API and state, the timer gone, and nothing else |
| StepEffects.RespondingWithoutCommandsTakesEffect | persistence/process/wait_until.go:69-118 | the row executes at its next version, with one new execute task; then the messages are published |
| StepEffects.RespondingWithCommandsTakesEffect | persistence/process/wait_until.go:120-260 | the row holds the request and waits or executes; each timer command has its timer at its own time; then the messages are published |
| StepEffects.FiringTakesEffect | persistence/process/process_timer_task_for_timer_command.go:39-133 | a waiting row gets the result of exactly that command and waits on or executes; otherwise nothing changes |
| StepEffects.ArrivingTakesEffect | persistence/process/process_local_queue.go:37-159 | exactly the rows that were handed a batch change: the batches are their commands' results |
| StepEffects.PublishingTakesEffect | persistence/process/publish_to_local_queue.go:38-75 | a running process accepts what is published, a closed one nothing |
| StepEffects.RecordingAndPreparingTakeEffect | persistence/process/prepare_state.go:14-56 | preparing changes no row and remembers the status and version of the task's own state |
| ClosingTheorems.ClosingIsRecordedIffNotRpc | persistence/process/complete_execute.go:161-178 | closing is recorded for visibility exactly when no remote procedure call did it |
| UnrecordedClosings.CallClosesUnrecorded | persistence/process/update_process_execution_for_rpc.go:68-123 | a run after which a process is completed and the only visibility task says that it runs |
| StaleWaits.StaleWaitReopensIffCommands | persistence/process/wait_until.go:151-160 | a stale wait-until response changes the row exactly when it carries commands |
| StaleWaits.TerminatedCanComplete | persistence/process/start_process.go:300-309 | a run in which a terminated process ends as completed |
| QueueRevival.TerminatedCanCompleteByQueue | persistence/process/process_local_queue.go:43-131 | a run in which a terminated process ends as completed because a message published before reaches the aborted state's command |
| StoreTheorems.TimeoutIsItsOwn | persistence/process/process_timer_task_for_process_timeout.go:57-70 | stopping by process id amounts to the execution's own timeout |
| StoreTheorems.EveryExecutionRunsAlone | persistence/process/start_process.go:44-383 | in any history of the store each execution goes through a run of its own, so all theorems on runs apply |
| StoreTheorems.AtMostOneRunning | persistence/process/start_process.go:131-201 | at most one execution of a process id runs, and it is the latest |
| StoreTheorems.TimeoutClosesOnlyItsOwn | persistence/process/process_timer_task_for_process_timeout.go:50-88 | a timeout touches no other execution; its own ends as timed out if it ran and stays as it ended if not |
| StateFailures.FailureStopsTheLatest | engine/immediate_task_concurrent_processor.go:319-332 | a failed state stops exactly the latest execution of its process id, if that runs: its own exactly when it is still the latest |
| StateFailures.OldStateFailsSuccessor | engine/immediate_task_concurrent_processor.go:319-332 | a history in which a state of a terminated execution fails the execution that replaced it |
| StoreTheorems.PoliciesDecide | persistence/process/start_process.go:92-383 | when each policy lets a new execution start, and that nothing else is disturbed |
| StoreEffects.StopsTakeEffect | persistence/process/stop_process.go:49-130 | in any history: after a stop, or a failed state, a latest execution that ran has exactly the status asked for, recorded; any other is untouched |
| StoreEffects.TimeoutsTakeEffect | persistence/process/process_timer_task_for_process_timeout.go:50-88 | in any history: the timer's own execution ends as timed out if it ran, and the timer is gone |
| StoreEffects.PublishingToProcessTakesEffect | persistence/process/publish_to_local_queue.go:38-75 | in any history: the latest execution accepts what is published exactly if it runs |
| StoreEffects.StartsWith | persistence/process/start_process.go:432-529 | a started execution is running with at most its first state and that state's task, and its one timer is the timeout, if there is one |
| StoreEffects.StartsTakeEffect | persistence/process/start_process.go:283-529 | in any history: what a permitted start adds, and that a latest execution that ran ends as terminated under that policy |
| TimerGates.LocalTimerGate.Update | engine/timer_gate.go:133-156 | keeps an earlier wake-up time that is still to come |
| TimerGates.LocalTimerGate.Expire | engine/timer_gate.go:94-101 | inactive, and one signal |
| TimerGates.LocalTimerGate.Stop | engine/timer_gate.go:112-115 | inactive, keeping a pending signal |
| TimerGates.UpdatingIsNeverEarly | engine/timer_gate.go:133-156 | updating makes no gate expire before a time somebody asked for |
| TimerQueue.CreateGetTimerTaskResponse | persistence/process/common.go:18-67 | first and last fire times, least and largest sequence, and the full-page flag |
| TimerTaskQueues.HeapPush | engine/timer_task_priority_queue.go:27-44 | a minimum stays at index 0 and the elements are the old ones and the new |
| TimerTaskQueues.HeapPop | engine/timer_task_priority_queue.go:27-53 | takes the element at index 0 and leaves a minimum there |
| TimerTaskQueues.NewTimerTaskPriorityQueue | engine/timer_task_priority_queue.go:14-22 | the same elements, a minimum at index 0 |
| TimerTaskQueues.TimerTaskQueue.TriggerPollingTasks | engine/timer_task_queue.go:102-107 | a notification waits its turn in the channel |
| TimerTaskQueues.TimerTaskQueue.FilterNotifyRequest | engine/timer_task_queue.go:297-317 | the fire times within the window, in order, and the least so far |
| TimerTaskQueues.TimerTaskQueue.DrainAllNotifyRequests | engine/timer_task_queue.go:192-219 | all waiting requests are noted and the trigger gate covers them |
| TimerTaskQueues.TimerTaskQueue.LoadAndDispatchAndPrepareNext | engine/timer_task_queue.go:149-190 | the state after a preload, window cut off by a full page; `PreloadLeavesNothingUncovered` says when the next one comes |
| TimerTaskQueues.TimerTaskQueue.SendAllFiredTimerTasksToProcessor | engine/timer_task_queue.go:231-250 | sends all that is due, earliest first, by clock readings that may advance meanwhile |
| TimerTaskQueues.TimerTaskQueue.TriggeredPolling | engine/timer_task_queue.go:252-294 | adds the polled timers and moves the firing gate |
| TimerTaskQueues.TimerTaskQueue.OnPreload | engine/timer_task_queue.go:117-120 | the preload case of the loop |
| TimerTaskQueues.TimerTaskQueue.OnFiring | engine/timer_task_queue.go:121-125 | the firing case of the loop |
| TimerTaskQueues.TimerTaskQueue.OnNotified | engine/timer_task_queue.go:126-130 | the notification case of the loop |
| TimerTaskQueues.TimerTaskQueue.OnTrigger | engine/timer_task_queue.go:131-132 | the trigger case of the loop |
| TimerQueueTheorems.LoopIsNeverStuck | engine/timer_task_queue.go:109-294 | timers, an empty heap and pending requests are always covered by a gate |
| TimerQueueTheorems.TimersConserved | engine/timer_task_queue.go:149-294 | between preloads what was loaded was sent or remains, each once; nothing is sent early |
| TimerQueueTheorems.PreloadIsComplete | engine/timer_task_queue.go:160-185 | supporting `PreloadReachesIff`: right after a preload every stored timer below the window is in the heap |
| PreloadGates.PreloadLeavesNothingUncovered | engine/timer_task_queue.go:160-185 | right after every preload each stored timer is in the heap or the next preload wakes no later than it is due, full page or not |
| PreloadGates.PreloadWakesByTheEnd | engine/timer_task_queue.go:173-185 | from the first preload on an armed preload gate wakes in the second in which the current window ends, never later |
| PreloadGates.NoNotificationIsLost | engine/timer_task_queue.go:192-219 | each drained fire time is pending and covered by the trigger gate, or beyond the window and covered by an armed preload gate |
| PreloadGates.PollsStartAfterTheLoaded | engine/timer_task_queue.go:183-185 | the largest sequence loaded is that of a timer loaded since the last preload, 0 if there is none |
| PreloadGates.FiringSendsEarliestFirst | engine/timer_task_queue.go:231-250 | the firing handler sends exactly from the heap, all that is due, earliest first |
| TimerQueueTheorems.DueTimersAreSentOnce | engine/timer_task_queue.go:231-250 | a timer loaded since the last preload and due has been sent exactly once when the firing handler is done, whether it preloads or not |
| TimerDeliveries.SentAsOftenAsLoaded | engine/timer_task_queue.go:149-294 | over any run: a timer was sent, or is still to be sent, exactly as often as it was loaded |
| TimerDeliveries.SentAgainIffLoadedAgain | engine/timer_task_queue.go:121-125 | a timer is sent a second time exactly when a second event loaded it, which takes a row stored at that moment |
| ResentTimers.TimerIsSentTwice | engine/timer_task_queue.go:121-125 | a run in which the preload of the firing handler loads again what the handler has just sent |
| TimerDeliveries.PreloadReachesIff | engine/timer_task_queue.go:160-185 | a preload loads a stored timer exactly when fewer stored timers than a page holds come before it |
| TimerDeliveries.LeftoversKeepOthersOut | engine/timer_task_queue.go:160-185 | as many lasting leftovers as a page holds keep every later timer out, and the window behind it |
| TimerQueueTheorems.PollSkipsSmallerSequences | engine/timer_task_queue.go:258-277 | supporting `NotifiedTimerIsSkipped`: a poll picks up what was asked for exactly beyond the largest sequence loaded |
| SkippedTimers.NotifiedTimerIsSkipped | engine/timer_task_queue.go:252-294 | a run after which a timer that is stored, due and notified is neither in the heap nor sent nor waited for by the firing and trigger gates |
| ImmediateTaskQueues.ImmediateTaskQueue.PollAndDispatch | engine/immediate_task_queue.go:110-144 | a new page accounts for exactly the dispatched tasks, and no sequence is dispatched twice |
| ImmediateTaskQueues.ImmediateTaskQueue.ReceiveCompletedTask | engine/immediate_task_queue.go:171-179 | one task less; the page completes exactly with its last task |
| ImmediateTaskQueues.ImmediateTaskQueue.CompletedPagesAreDisjoint | engine/immediate_task_queue.go:171-179 | completed pages are disjoint and hold nothing outstanding |
| PageMerging.MergeImmediateTaskPages | engine/immediate_task_queue.go:146-169 | sorted ranges with gaps between them that cover the same integers |
| PageMerging.CoverDetermines | engine/immediate_task_queue.go:146-169 | such ranges are determined by what they cover |
| PageMerging.MergeIgnoresOrder | engine/immediate_task_queue.go:147-151 | the result does not depend on the order of the pages, only on what they cover |
| PageMerging.MergeIsIdempotent | engine/immediate_task_queue.go:146-169 | merging again changes nothing |

## Left out

- `HarmfulDeliveries.SecondResponseKeepsTimersIff`: of a second response to a waiting state only drivers, pending
  states and timers are settled exactly, not what it does to the queue commands registered before.
- HTTP handlers, worker calls, retries and backoff times, goroutines and channels of the processors: only
  the dispatch on the prepared status is modelled, as a guard of steps.
- SQL text, JSON encoding, uuid parsing and generation: tables are maps, encoding is the identity, new ids
  are arguments that are not in use; a dedup id that is not a uuid is not modelled.
- The tables' rows are held grouped by the execution id each row carries, and registered commands are
  keyed by the state execution id itself instead of its printed form, which `PrintIsInjective` justifies.
- The two task tables' generated sequences are drawn from one increasing counter.
- App-database and local-attribute reads and writes, inputs, worker attempt counts and responses to the
  callers (such as `HasNewImmediateTask` and the fire timestamps to notify).
- Errors of the database itself: a store method fails only where a row is missing or a version moved.
- `SequenceMaps.StateExecutionSequenceMaps.CompleteNewStateExecution`: the inner Go map to booleans is a
  set, since no false is ever stored.
- Slices that Go shares between the consumed batches and the rest of a queue are separate sequences.
- Integer widths: versions, counters and sequences are unbounded except in `StateExecutionIds` and in the
  sequences of timer responses.
- Go's `container/heap` and `sort` packages: `TimerTaskQueues.HeapPush`, `HeapPop` and `HeapInit` keep a
  minimum in front by a simpler method than sifting, and `PageMerging.SortByMin` returns a sorted copy
  where `sort.Slice` reorders the caller's slice.
- `TimerGates.LocalTimerGate.Expire`: that the runtime timer expires, the gate becomes inactive and the
  signal is sent is one event; data races on the gate's fields are not modelled.
- The pages and the window times of the timer queue are arguments: what the store answers, and the clock with
  its jitter.
- The timer queue's and the immediate queue's reactions to a failed store read, and the sending of tasks
  over bounded channels.
- `PreloadGates.PreloadWakesByTheEnd`: without such a failed read, after which the preload gate is set to a time soon
  after the current one and the window stays as it was.
- `mergeImmediateTaskPages` and the completed pages are not used by the program; deleting ranges of
  committed tasks is therefore not modelled.
- Visibility listing, cluster membership, the wait-for-completion channels and configuration.
