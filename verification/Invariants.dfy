/**
 What holds of a process execution between transactions.  `settled` is the set of immediate tasks
 whose one transaction has committed; such a task may still be in the table, but it drives nothing.
 */
module Invariants {
  import opened Wrappers
  import opened StateExecutionIds
  import opened LocalQueues
  import opened LocalQueueTheorems
  import opened SequenceMaps
  import opened ProcessModel
  import opened Transactions

  // ---------- keys ----------

  /** Generated keys are below `next`, and no immediate task and timer share one. */
  ghost predicate Keyed(e: Execution) {
    && (forall t :: t in e.immediate ==> t < e.next && t !in e.timers)
    && (forall t :: t in e.timers ==> t < e.next)
  }

  /** Tasks, timers and commands belong to state executions that exist; a registered one waits, or was aborted. */
  ghost predicate RowsExist(e: Execution) {
    && (forall t :: t in e.immediate && e.immediate[t].WorkerTask? ==> e.immediate[t].sid in e.states)
    && (forall t :: t in e.timers && !e.timers[t].TimeoutTimer? ==> e.timers[t].sid in e.states)
    && (forall sid :: sid in e.process.queues.commands ==>
          sid in e.states && (e.states[sid].status.WaitUntilWaiting? || e.states[sid].status.StateAborted?))
  }

  /** The rows of a state id are exactly 1 up to its counter. */
  ghost predicate SequencesExact(e: Execution) {
    && WellFormed(e.process.sequenceMaps)
    && (forall sid :: sid in e.states <==>
          1 <= sid.sequence <= LastSequence(e.process.sequenceMaps, sid.stateId))
  }

  ghost predicate Shape(e: Execution) {
    Keyed(e) && RowsExist(e) && SequencesExact(e)
  }

  // ---------- pending states ----------

  /** While the process runs, the pending state executions are exactly the active rows. */
  ghost predicate PendingMatches(e: Execution) {
    e.process.status.Running? ==>
      forall sid :: sid in e.states ==>
        (IsActive(e.states[sid].status) <==> IsPending(e.process.sequenceMaps, sid))
  }

  /** A running process asked to complete gracefully still has a pending state. */
  ghost predicate GracefulHasPending(e: Execution) {
    e.process.status.Running? && e.process.gracefulCompleteRequested ==> !NonePending(e.process.sequenceMaps)
  }

  // ---------- what drives a state ----------

  /** Task or backoff timer `t` will have the state's worker API of this kind called. */
  ghost predicate Drives(e: Execution, settled: set<int>, sid: StateExecutionId, t: int, kind: WorkerKind) {
    || (t in e.immediate && t !in settled && e.immediate[t] == WorkerTask(kind, sid))
    || (t in e.timers && e.timers[t].BackoffTimer? && e.timers[t].sid == sid && e.timers[t].kind == kind)
  }

  ghost predicate Driven(e: Execution, settled: set<int>, sid: StateExecutionId, kind: WorkerKind) {
    exists t :: Drives(e, settled, sid, t, kind)
  }

  function StatusOf(kind: WorkerKind): StateStatus {
    match kind
    case WaitUntilKind => WaitUntilRunning
    case ExecuteKind => ExecuteRunning
  }

  /** Nothing was recorded for the state's wait-until request yet; the row may have been aborted. */
  ghost predicate NotWaitedYet(e: Execution, sid: StateExecutionId) {
    && sid in e.states && e.states[sid].results == NO_RESULTS
    && (e.states[sid].status.WaitUntilRunning? || e.states[sid].status.StateAborted?)
    && sid !in e.process.queues.commands
    && (forall t :: t in e.timers && e.timers[t].CommandTimer? ==> e.timers[t].sid != sid)
  }

  /** While the process runs: every active running row is driven by exactly one task or backoff timer. */
  ghost predicate DrivenOnce(e: Execution, settled: set<int>) {
    e.process.status.Running? ==>
      && (forall sid, t, kind :: Drives(e, settled, sid, t, kind) ==>
            sid in e.states && e.states[sid].status == StatusOf(kind))
      && (forall sid, t, t', kind, kind' :: Drives(e, settled, sid, t, kind) && Drives(e, settled, sid, t', kind')
            ==> t == t')
      && (forall sid :: sid in e.states && e.states[sid].status.WaitUntilRunning?
            ==> Driven(e, settled, sid, WaitUntilKind))
      && (forall sid :: sid in e.states && e.states[sid].status.ExecuteRunning?
            ==> Driven(e, settled, sid, ExecuteKind))
  }

  /** Running or closed: the wait-until API of a state is driven at most once, before anything was recorded. */
  ghost predicate WaitsOnce(e: Execution, settled: set<int>) {
    && (forall sid, t, t' :: Drives(e, settled, sid, t, WaitUntilKind) && Drives(e, settled, sid, t', WaitUntilKind)
          ==> t == t')
    && (forall sid, t :: Drives(e, settled, sid, t, WaitUntilKind) ==> NotWaitedYet(e, sid))
  }

  /** Running or closed: a row whose execute API is driven has left its wait-until API behind. */
  ghost predicate ExecutesAfterWait(e: Execution) {
    && (forall t :: t in e.immediate && e.immediate[t].WorkerTask? && e.immediate[t].kind.ExecuteKind? ==>
          e.immediate[t].sid in e.states && !e.states[e.immediate[t].sid].status.WaitUntilRunning?)
    && (forall t :: t in e.timers && e.timers[t].BackoffTimer? && e.timers[t].kind.ExecuteKind? ==>
          e.timers[t].sid in e.states && !e.states[e.timers[t].sid].status.WaitUntilRunning?)
  }

  /** Running or closed: a settled task left in the table is a failed row's; `busy` is about to be deleted. */
  ghost predicate SettledFailed(e: Execution, settled: set<int>, busy: Option<int>) {
    forall t :: t in settled && t in e.immediate && busy != Some(t) && e.immediate[t].WorkerTask? ==>
      e.immediate[t].sid in e.states && e.states[e.immediate[t].sid].status.StateFailed?
  }

  // ---------- waiting states ----------

  /** Timer `t` will resolve the state's timer command `i`. */
  ghost predicate Resolves(e: Execution, sid: StateExecutionId, i: int, t: int) {
    t in e.timers && e.timers[t].CommandTimer? && e.timers[t].sid == sid && e.timers[t].index == i
  }

  ghost predicate Timed(e: Execution, sid: StateExecutionId, i: int) {
    exists t :: Resolves(e, sid, i, t)
  }

  /** Each timer command of the request has its result or else exactly one timer. */
  ghost predicate TimersRest(e: Execution, sid: StateExecutionId)
    requires sid in e.states
  {
    var row := e.states[sid];
    && !row.request.waitingType.EmptyCommand?
    && (forall i :: i in row.results.timers ==> 0 <= i < |row.request.timerDelays|)
    && (forall i, t :: Resolves(e, sid, i, t) ==> 0 <= i < |row.request.timerDelays| && i !in row.results.timers)
    && (forall i :: 0 <= i < |row.request.timerDelays| && i !in row.results.timers ==> Timed(e, sid, i))
    && (forall i, t, t' :: Resolves(e, sid, i, t) && Resolves(e, sid, i, t') ==> t == t')
  }

  /** The messages given to command `i` of state `sid` in a transaction that is under way. */
  ghost predicate Given(a: Assigned, sid: StateExecutionId, i: int) {
    sid in a && i in a[sid]
  }

  /** Each queue command of the request has its result, or was given its messages, or else is registered. */
  ghost predicate QueuesRest(e: Execution, sid: StateExecutionId, a: Assigned)
    requires sid in e.states
  {
    var row := e.states[sid];
    && (forall i :: i in row.results.queues ==> 0 <= i < |row.request.queueCommands|)
    && (forall i :: Registered(e.process.queues, sid, i) <==>
          0 <= i < |row.request.queueCommands| && i !in row.results.queues && !Given(a, sid, i))
  }

  ghost predicate WaitsForTheRest(e: Execution, sid: StateExecutionId)
    requires sid in e.states
  {
    TimersRest(e, sid) && QueuesRest(e, sid, map[])
  }

  predicate AsksForSomething(request: CommandRequest) {
    |request.queueCommands| + |request.timerDelays| > 0
  }

  /** While the process runs: waiting rows wait for the rest, are not complete, and nobody else is registered. */
  ghost predicate Waits(e: Execution) {
    e.process.status.Running? ==>
      && (forall sid :: sid in e.states && e.states[sid].status.WaitUntilWaiting? ==> WaitsForTheRest(e, sid))
      && (forall sid :: sid in e.states && e.states[sid].status.WaitUntilWaiting? ==>
            (AsksForSomething(e.states[sid].request) ==> !Completed(e.states[sid].request, e.states[sid].results)))
      && (forall sid :: sid in e.process.queues.commands ==>
            sid in e.states && e.states[sid].status.WaitUntilWaiting?)
  }

  // ---------- queues and messages, running or closed ----------

  /** A registered command is the request's own, and it has no result yet. */
  ghost predicate RegisteredMatch(e: Execution) {
    && Positive(e.process.queues) && NoLostWakeUp(e.process.queues) && NoEmptyEntries(e.process.queues)
    && (forall sid, i :: Registered(e.process.queues, sid, i) ==>
          && sid in e.states
          && 0 <= i < |e.states[sid].request.queueCommands|
          && e.process.queues.commands[sid][i] == Normalize(e.states[sid].request.queueCommands[i])
          && i !in e.states[sid].results.queues)
  }

  /** The places that hold messages, in order. */
  datatype Cell =
    | TaskCell(task: int)
    | QueueCell(queue: QueueName)
    | ResultCell(sid: StateExecutionId, index: int)

  function TaskIds(ms: seq<QueuedMessage>): (ids: seq<DedupId>)
    ensures |ids| == |ms|
  {
    seq(|ms|, n requires 0 <= n < |ms| => ms[n].dedupId)
  }

  function ResultIds(rs: seq<MessageResult>): (ids: seq<DedupId>)
    ensures |ids| == |rs|
  {
    seq(|rs|, n requires 0 <= n < |rs| => rs[n].dedupId)
  }

  function Contents(e: Execution, c: Cell): seq<DedupId> {
    match c
    case TaskCell(t) => if t in e.immediate && e.immediate[t].QueueTask? then TaskIds(e.immediate[t].messages) else []
    case QueueCell(q) => Waiting(e.process.queues.unconsumed, q)
    case ResultCell(sid, i) =>
      if sid in e.states && i in e.states[sid].results.queues then ResultIds(e.states[sid].results.queues[i]) else []
  }

  type Ledger = Cell -> seq<DedupId>

  ghost predicate Holds(l: Ledger, c: Cell, n: int, id: DedupId) {
    0 <= n < |l(c)| && l(c)[n] == id
  }

  /** Each of the ids is in exactly one position of exactly one cell, and nothing else is anywhere. */
  ghost predicate ExactlyOnce(l: Ledger, ids: set<DedupId>) {
    && (forall c, n, id :: Holds(l, c, n, id) ==> id in ids)
    && (forall id :: id in ids ==> exists c, n :: Holds(l, c, n, id))
    && (forall c, n, c', n', id :: Holds(l, c, n, id) && Holds(l, c', n', id) ==> c == c' && n == n')
  }

  function LedgerOf(e: Execution): Ledger {
    c => Contents(e, c)
  }

  ghost predicate MessagesOnce(e: Execution) {
    ExactlyOnce(LedgerOf(e), e.messages.Keys)
  }

  /** Every message stays on the queue it was published to, and results carry its payload and the command's count. */
  ghost predicate Faithful(e: Execution) {
    && (forall t, n :: t in e.immediate && e.immediate[t].QueueTask? && 0 <= n < |e.immediate[t].messages| ==>
          var m := e.immediate[t].messages[n];
          m.dedupId in e.messages && e.messages[m.dedupId].queue == m.queue)
    && (forall q, n :: q in e.process.queues.unconsumed && 0 <= n < |e.process.queues.unconsumed[q]| ==>
          var id := e.process.queues.unconsumed[q][n];
          id in e.messages && e.messages[id].queue == q)
    && (forall sid, i :: sid in e.states && i in e.states[sid].results.queues ==> ResultFaithful(e, sid, i))
  }

  ghost predicate ResultFaithful(e: Execution, sid: StateExecutionId, i: int)
    requires sid in e.states && i in e.states[sid].results.queues
  {
    var row := e.states[sid];
    var result := row.results.queues[i];
    && 0 <= i < |row.request.queueCommands|
    && |result| == Normalize(row.request.queueCommands[i]).count
    && (forall n :: 0 <= n < |result| ==>
          && result[n].dedupId in e.messages
          && e.messages[result[n].dedupId] == MessageRow(row.request.queueCommands[i].queue, result[n].payload))
  }

  // ---------- all of it ----------

  /** Within a transaction: `busy` is still in the table, and a process that lost its last pending state still runs. */
  ghost predicate InvWithin(e: Execution, settled: set<int>, busy: Option<int>) {
    && Shape(e) && PendingMatches(e)
    && DrivenOnce(e, settled) && WaitsOnce(e, settled) && ExecutesAfterWait(e) && SettledFailed(e, settled, busy)
    && Waits(e) && RegisteredMatch(e)
    && MessagesOnce(e) && Faithful(e)
  }

  ghost predicate Inv(e: Execution, settled: set<int>) {
    InvWithin(e, settled, None) && GracefulHasPending(e)
  }
}
