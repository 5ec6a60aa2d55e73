/**
 What each transaction of the process store does to one process execution.  None stands for an
 error, after which nothing is committed.
 */
module Transactions {
  import opened Wrappers
  import opened StateExecutionIds
  import opened LocalQueues
  import opened SequenceMaps
  import opened ProcessModel

  // ---------- deciding what follows a state or an RPC ----------

  datatype CloseType = GracefulComplete | ForceComplete | ForceFail | DeadEnd

  datatype StateDecision = StateDecision(nextStates: seq<NextState>, close: Option<CloseType>)

  /** A graceful completion asked for earlier takes effect now, whatever is asked for this time. */
  predicate CompletesGracefully(p: ProcessRow) {
    p.gracefulCompleteRequested && NonePending(p.sequenceMaps)
  }

  function CloseProcess(p: ProcessRow, close: Option<CloseType>): ProcessRow {
    if CompletesGracefully(p) then p.(status := ProcessCompleted)
    else
      match close
      case Some(GracefulComplete) =>
        p.(gracefulCompleteRequested := true,
           status := if NonePending(p.sequenceMaps) then ProcessCompleted else p.status)
      case Some(ForceComplete) =>
        p.(status := ProcessCompleted, sequenceMaps := p.sequenceMaps.(pending := map[]))
      case Some(ForceFail) =>
        p.(status := ProcessFailed, sequenceMaps := p.sequenceMaps.(pending := map[]))
      case Some(DeadEnd) => p
      case None => p
  }

  predicate AbortsOthers(p: ProcessRow, close: Option<CloseType>) {
    !CompletesGracefully(p) && !NonePending(p.sequenceMaps) &&
    close.Some? && (close.value.ForceComplete? || close.value.ForceFail?)
  }

  function Close(e: Execution, close: Option<CloseType>): Execution {
    e.(process := CloseProcess(e.process, close),
       states := if AbortsOthers(e.process, close) then AbortRunning(e.states) else e.states)
  }

  function HandleStateDecision(e: Execution, d: StateDecision): Option<Execution> {
    var started :- StartStates(e, d.nextStates);
    Some(Close(started, d.close))
  }

  // ---------- finishing a state ----------

  /** The row takes its last status and the state execution stops being pending. */
  function FinishState(
    e: Execution, sid: StateExecutionId, version: int, status: StateStatus, failure: Option<Failure>)
    : Option<Execution>
  {
    var updated :- UpdateWithoutCommands(e, sid, version, status, failure);
    var maps :- CompleteNew(updated.process.sequenceMaps, sid);
    Some(updated.(process := updated.process.(sequenceMaps := maps)))
  }

  function RecordIfClosed(e: Execution): Execution {
    if e.process.status.Running? then e else InsertImmediate(e, VisibilityTask(e.process.status))
  }

  function CompleteExecuteTx(
    e: Execution, task: int, sid: StateExecutionId, version: int, d: StateDecision, publish: seq<PublishedMessage>)
    : Option<Execution>
  {
    var finished :- FinishState(e, sid, version, StateCompleted, None);
    var decided :- HandleStateDecision(finished, d);
    Some(DeleteImmediate(RecordIfClosed(Publish(decided, publish)), task))
  }

  /** The task that failed is not deleted. */
  function RecoverTx(e: Execution, sid: StateExecutionId, version: int, failure: Failure, destination: NextState)
    : Option<Execution>
  {
    var finished :- FinishState(e, sid, version, StateFailed, Some(failure));
    StartState(finished, destination)
  }

  function BackoffTx(
    e: Execution, task: int, sid: StateExecutionId, kind: WorkerKind, status: StateStatus, version: int,
    failure: Failure, fireTime: int)
    : Option<Execution>
  {
    var updated :- UpdateWithoutCommands(e, sid, version, status, Some(failure));
    Some(DeleteImmediate(InsertTimer(updated, BackoffTimer(fireTime, sid, kind)), task))
  }

  function ConvertTx(e: Execution, timer: int, sid: StateExecutionId, kind: WorkerKind): Execution {
    DeleteTimer(InsertImmediate(e, WorkerTask(kind, sid)), timer)
  }

  // ---------- waiting ----------

  predicate Completed(request: CommandRequest, results: CommandResults) {
    match request.waitingType
    case AnyOfCompletion => |results.queues| + |results.timers| > 0
    case AllOfCompletion => |results.queues| + |results.timers| == |request.queueCommands| + |request.timerDelays|
    case EmptyCommand => true
  }

  /** Cleans up the state's commands and drives its execute API. */
  function EndWaiting(e: Execution, sid: StateExecutionId): Execution {
    InsertImmediate(e.(process := e.process.(queues := Cleanup(e.process.queues, sid))), WorkerTask(ExecuteKind, sid))
  }

  predicate Known(messages: map<DedupId, MessageRow>, consumed: map<int, seq<DedupId>>) {
    forall i | i in consumed :: forall id | id in consumed[i] :: id in messages
  }

  function Lookup(messages: map<DedupId, MessageRow>, ids: seq<DedupId>): (r: seq<MessageResult>)
    requires forall id | id in ids :: id in messages
    ensures |r| == |ids|
  {
    seq(|ids|, n requires 0 <= n < |ids| => MessageResult(ids[n], messages[ids[n]].payload))
  }

  function AddConsumed(
    messages: map<DedupId, MessageRow>, results: CommandResults, consumed: map<int, seq<DedupId>>): CommandResults
    requires Known(messages, consumed)
  {
    results.(queues := results.queues + (map i | i in consumed :: Lookup(messages, consumed[i])))
  }

  /** The wait-until request without commands: version-checked, on to the execute API. */
  function CompleteWaitUntil(e: Execution, sid: StateExecutionId, version: int): Option<Execution> {
    var updated :- UpdateWithoutCommands(e, sid, version, ExecuteRunning, None);
    Some(InsertImmediate(updated, WorkerTask(ExecuteKind, sid)))
  }

  /** What the clock says, in seconds, when the timer of each command is made. */
  type Readings = int -> int

  function InsertCommandTimers(e: Execution, sid: StateExecutionId, delays: seq<int>, now: Readings): Execution {
    if delays == [] then e
    else
      var delay := delays[|delays| - 1];
      InsertTimer(InsertCommandTimers(e, sid, delays[..|delays| - 1], now),
                  CommandTimer(now(|delays| - 1) + (if delay < 0 then 0 else delay), sid, |delays| - 1))
  }

  /** The order in which a loop over the state's commands visits them, if the request makes there be one. */
  ghost predicate OrderFor(s: Queues, sid: StateExecutionId, request: CommandRequest, order: seq<int>) {
    request.queueCommands == [] || IsOrder(order, CommandsOf(AddCommands(s, sid, request.queueCommands), sid).Keys)
  }

  /** The queues after registering the request's queue commands, and what they consumed at once. */
  function RegisterCommands(s: Queues, sid: StateExecutionId, request: CommandRequest, order: seq<int>)
    : (Queues, map<int, seq<DedupId>>)
    requires OrderFor(s, sid, request, order)
  {
    if request.queueCommands == [] then (s, map[])
    else TryConsume(AddCommands(s, sid, request.queueCommands), sid, request.waitingType, order)
  }

  /** The row after `queues` were left; it goes on to the execute API at once when it has what it waits for. */
  function RowWaits(
    e: Execution, sid: StateExecutionId, request: CommandRequest, queues: Queues, results: CommandResults): Execution
    requires sid in e.states
  {
    var row := StateRow(WaitUntilWaiting, e.states[sid].version + 1, request, results, None);
    var registered := e.(process := e.process.(queues := queues));
    if request.queueCommands != [] && Completed(request, results) then
      SetRow(EndWaiting(registered, sid), sid, row.(status := ExecuteRunning))
    else SetRow(registered, sid, row)
  }

  /** The row with what it `consumed`, its driver and its timers. */
  function StartWaiting(
    e: Execution, sid: StateExecutionId, request: CommandRequest,
    queues: Queues, consumed: map<int, seq<DedupId>>, now: Readings): Execution
    requires sid in e.states && Known(e.messages, consumed)
  {
    var results := AddConsumed(e.messages, e.states[sid].results, consumed);
    InsertCommandTimers(RowWaits(e, sid, request, queues, results), sid, request.timerDelays, now)
  }

  /**
   The row is re-read and overwritten: no version and no status is checked.  None also stands for
   the panic on a consumed message without a row.
   */
  function UpdateWaitUntil(e: Execution, sid: StateExecutionId, request: CommandRequest, order: seq<int>, now: Readings)
    : Option<Execution>
    requires OrderFor(e.process.queues, sid, request, order)
  {
    var (queues, consumed) := RegisterCommands(e.process.queues, sid, request, order);
    if sid !in e.states || !Known(e.messages, consumed) then None
    else Some(StartWaiting(e, sid, request, queues, consumed, now))
  }

  function WaitUntilTx(
    e: Execution, task: int, sid: StateExecutionId, version: int, request: CommandRequest,
    order: seq<int>, now: Readings, publish: seq<PublishedMessage>)
    : Option<Execution>
    requires request.waitingType.EmptyCommand? || OrderFor(e.process.queues, sid, request, order)
  {
    var updated :-
      if request.waitingType.EmptyCommand? then CompleteWaitUntil(e, sid, version)
      else UpdateWaitUntil(e, sid, request, order, now);
    Some(DeleteImmediate(Publish(updated, publish), task))
  }

  // ---------- messages and timers for waiting states ----------

  type Assigned = map<StateExecutionId, map<int, seq<DedupId>>>

  function AssignTo(a: Assigned, sid: StateExecutionId, i: int, ids: seq<DedupId>): Assigned {
    a[sid := (if sid in a then a[sid] else map[])[i := ids]]
  }

  /** The messages of a task arrive one by one; each pick says who, if anybody, consumes at that point. */
  function AssignAll(s: Queues, ms: seq<QueuedMessage>, picks: seq<Pick>): (Queues, Assigned)
    requires |picks| == |ms|
  {
    if ms == [] then (s, map[])
    else
      var n := |ms| - 1;
      var (before, a) := AssignAll(s, ms[..n], picks[..n]);
      var (after, ids) := AddMessage(before, ms[n].queue, ms[n].dedupId, picks[n]);
      (after, if picks[n].Picked? then AssignTo(a, picks[n].sid, picks[n].index, ids) else a)
  }

  ghost predicate ValidPicks(s: Queues, ms: seq<QueuedMessage>, picks: seq<Pick>) {
    && |picks| == |ms|
    && (ms == [] ||
        var n := |ms| - 1;
        && ValidPicks(s, ms[..n], picks[..n])
        && ValidPick(Append(AssignAll(s, ms[..n], picks[..n]).0, ms[n].queue, ms[n].dedupId), ms[n].queue, picks[n]))
  }

  /** New results for a waiting row, which ends its waiting when they complete the request. */
  function WithResults(e: Execution, sid: StateExecutionId, results: CommandResults): Execution
    requires sid in e.states
  {
    var row := e.states[sid];
    var updated := row.(version := row.version + 1, results := results, lastFailure := None);
    if Completed(row.request, results) then
      SetRow(EndWaiting(e, sid), sid, updated.(status := ExecuteRunning))
    else SetRow(e, sid, updated)
  }

  function UpdateAssignedRow(e: Execution, sid: StateExecutionId, consumed: map<int, seq<DedupId>>): Option<Execution> {
    if sid !in e.states || !Known(e.messages, consumed) then None
    else Some(WithResults(e, sid, AddConsumed(e.messages, e.states[sid].results, consumed)))
  }

  function UpdateAssignedRows(e: Execution, a: Assigned, sids: seq<StateExecutionId>): Option<Execution>
    requires forall sid :: sid in sids ==> sid in a
  {
    if sids == [] then Some(e)
    else
      var last := sids[|sids| - 1];
      var before :- UpdateAssignedRows(e, a, sids[..|sids| - 1]);
      UpdateAssignedRow(before, last, a[last])
  }

  /** Neither the process's status nor the rows' statuses are checked. */
  function QueueTx(
    e: Execution, task: int, ms: seq<QueuedMessage>, picks: seq<Pick>, sids: seq<StateExecutionId>)
    : Option<Execution>
    requires |picks| == |ms|
    requires IsOrder(sids, AssignAll(e.process.queues, ms, picks).1.Keys)
  {
    var (queues, given) := AssignAll(e.process.queues, ms, picks);
    var updated :- UpdateAssignedRows(e.(process := e.process.(queues := queues)), given, sids);
    Some(DeleteImmediate(updated, task))
  }

  /** A fired timer for a state that is not waiting changes nothing, and its row stays in the table. */
  function CommandTimerTx(e: Execution, timer: int, sid: StateExecutionId, index: int): Option<Execution> {
    if sid !in e.states then None
    else if !e.states[sid].status.WaitUntilWaiting? then Some(e)
    else
      var results := e.states[sid].results;
      Some(DeleteTimer(WithResults(e, sid, results.(timers := results.timers[index := true])), timer))
  }

  // ---------- process-level transactions ----------

  function PublishTx(e: Execution, publish: seq<PublishedMessage>): Execution {
    if e.process.status.Running? then Publish(e, publish) else e
  }

  function RpcTx(e: Execution, d: StateDecision, publish: seq<PublishedMessage>): Option<Execution> {
    if !e.process.status.Running? then Some(e)
    else
      var decided :- HandleStateDecision(e, d);
      Some(Publish(decided, publish))
  }

  function StopTx(e: Execution, status: ProcessStatus): Execution {
    if !e.process.status.Running? then e
    else
      var maps := e.process.sequenceMaps;
      var stopped := e.(process := e.process.(status := status, sequenceMaps := maps.(pending := map[])),
                        states := if NonePending(maps) then e.states else AbortRunning(e.states));
      InsertImmediate(stopped, VisibilityTask(status))
  }

  /** The pending map is written back unchanged. */
  function TerminateTx(e: Execution): Execution {
    var e1 :=
      if e.process.status.Running? then
        InsertImmediate(e.(process := e.process.(status := ProcessTerminated)), VisibilityTask(ProcessTerminated))
      else e;
    e1.(states := AbortRunning(e1.states))
  }

  const EMPTY_EXECUTION := Execution(
    ProcessRow(Running, NEW_SEQUENCE_MAPS, NO_QUEUES, false), map[], map[], map[], map[], 0)

  /** The first state, if there is one, always gets sequence 1, so its row's key is never taken. */
  function FirstState(next: int, start: Option<NextState>): Execution {
    var empty := EMPTY_EXECUTION.(next := next);
    match start
    case None => empty
    case Some(s) => (match StartState(empty, s) case Some(e) => e case None => empty)
  }

  function StartExecution(next: int, start: Option<NextState>, timeout: Option<int>): Execution {
    var recorded := InsertImmediate(FirstState(next, start), VisibilityTask(Running));
    match timeout
    case None => recorded
    case Some(fireTime) => InsertTimer(recorded, TimeoutTimer(fireTime))
  }

  /** The process stops unless it already has, and the timer is gone either way. */
  function TimeoutTx(e: Execution, timer: int): Execution {
    DeleteTimer(StopTx(e, ProcessTimeout), timer)
  }
}
