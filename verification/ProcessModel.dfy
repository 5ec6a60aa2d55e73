/**
 The rows a process execution consists of, and the single-table statements the transactions are
 made of.  The tables' rows are held grouped by the execution id each of them carries.
 */
module ProcessModel {
  import opened Wrappers
  import opened StateExecutionIds
  import opened LocalQueues
  import opened SequenceMaps

  type Payload = string
  type Failure = string

  datatype ProcessStatus = Running | ProcessCompleted | ProcessFailed | ProcessTimeout | ProcessTerminated

  datatype StateStatus =
    | WaitUntilRunning | WaitUntilWaiting | ExecuteRunning
    | StateCompleted | StateFailed | StateTimeout | StateAborted

  /** The statuses below 4 in the table: the state execution still has something to do. */
  predicate IsActive(s: StateStatus) {
    s.WaitUntilRunning? || s.WaitUntilWaiting? || s.ExecuteRunning?
  }

  /** What a wait-until API asked to wait for; timers are given by their delays. */
  datatype CommandRequest = CommandRequest(
    waitingType: WaitingType,
    timerDelays: seq<int>,
    queueCommands: seq<Command>)

  const EMPTY_REQUEST := CommandRequest(EmptyCommand, [], [])

  datatype MessageResult = MessageResult(dedupId: DedupId, payload: Payload)

  datatype CommandResults = CommandResults(timers: map<int, bool>, queues: map<int, seq<MessageResult>>)

  const NO_RESULTS := CommandResults(map[], map[])

  datatype StateRow = StateRow(
    status: StateStatus,
    version: int,
    request: CommandRequest,
    results: CommandResults,
    lastFailure: Option<Failure>)

  datatype ProcessRow = ProcessRow(
    status: ProcessStatus,
    sequenceMaps: SequenceMaps,
    queues: Queues,
    gracefulCompleteRequested: bool)

  datatype MessageRow = MessageRow(queue: QueueName, payload: Payload)

  datatype WorkerKind = WaitUntilKind | ExecuteKind

  /** A message as a queue task carries it. */
  datatype QueuedMessage = QueuedMessage(queue: QueueName, dedupId: DedupId)

  datatype ImmediateTask =
    | WorkerTask(kind: WorkerKind, sid: StateExecutionId)
    | QueueTask(messages: seq<QueuedMessage>)
    | VisibilityTask(status: ProcessStatus)

  datatype TimerTask =
    | TimeoutTimer(fireTime: int)
    | CommandTimer(fireTime: int, sid: StateExecutionId, index: int)
    | BackoffTimer(fireTime: int, sid: StateExecutionId, kind: WorkerKind)

  /** `next` is the next value the task tables' sequences generate. */
  datatype Execution = Execution(
    process: ProcessRow,
    states: map<StateExecutionId, StateRow>,
    immediate: map<int, ImmediateTask>,
    timers: map<int, TimerTask>,
    messages: map<DedupId, MessageRow>,
    next: int)

  // ---------- single-table statements ----------

  function InsertImmediate(e: Execution, task: ImmediateTask): Execution {
    e.(immediate := e.immediate[e.next := task], next := e.next + 1)
  }

  function InsertTimer(e: Execution, task: TimerTask): Execution {
    e.(timers := e.timers[e.next := task], next := e.next + 1)
  }

  function DeleteImmediate(e: Execution, t: int): Execution {
    e.(immediate := e.immediate - {t})
  }

  function DeleteTimer(e: Execution, t: int): Execution {
    e.(timers := e.timers - {t})
  }

  function SetRow(e: Execution, sid: StateExecutionId, row: StateRow): Execution {
    e.(states := e.states[sid := row])
  }

  /** The update that only commits when the version is the one read before. */
  function UpdateWithoutCommands(
    e: Execution, sid: StateExecutionId, version: int, status: StateStatus, failure: Option<Failure>)
    : Option<Execution>
  {
    if sid !in e.states || e.states[sid].version != version then None
    else Some(SetRow(e, sid, e.states[sid].(status := status, version := version + 1, lastFailure := failure)))
  }

  /** Every row still active becomes aborted and moves to the next version. */
  function AbortRunning(states: map<StateExecutionId, StateRow>): map<StateExecutionId, StateRow> {
    map sid | sid in states ::
      if IsActive(states[sid].status) then states[sid].(status := StateAborted, version := states[sid].version + 1)
      else states[sid]
  }

  // ---------- starting a state ----------

  datatype NextState = NextState(stateId: string, skipWaitUntil: bool)

  function FirstStatus(skipWaitUntil: bool): StateStatus {
    if skipWaitUntil then ExecuteRunning else WaitUntilRunning
  }

  function FirstKind(skipWaitUntil: bool): WorkerKind {
    if skipWaitUntil then ExecuteKind else WaitUntilKind
  }

  function NewRow(skipWaitUntil: bool): StateRow {
    StateRow(FirstStatus(skipWaitUntil), 1, EMPTY_REQUEST, NO_RESULTS, None)
  }

  /** None: the row's primary key is taken. */
  function StartState(e: Execution, next: NextState): Option<Execution> {
    var (maps, s) := StartNew(e.process.sequenceMaps, next.stateId);
    var sid := StateExecutionId(next.stateId, s);
    if sid in e.states then None
    else
      Some(InsertImmediate(
             e.(process := e.process.(sequenceMaps := maps), states := e.states[sid := NewRow(next.skipWaitUntil)]),
             WorkerTask(FirstKind(next.skipWaitUntil), sid)))
  }

  function StartStates(e: Execution, nexts: seq<NextState>): Option<Execution> {
    if nexts == [] then Some(e)
    else
      var started :- StartStates(e, nexts[..|nexts| - 1]);
      StartState(started, nexts[|nexts| - 1])
  }

  // ---------- publishing ----------

  /** A published message with its dedup id, given by the caller or generated. */
  datatype PublishedMessage = PublishedMessage(queue: QueueName, dedupId: DedupId, payload: Payload)

  /** Inserts the messages whose dedup id is new, and lists those. */
  function InsertMessages(rows: map<DedupId, MessageRow>, ms: seq<PublishedMessage>)
    : (map<DedupId, MessageRow>, seq<QueuedMessage>)
  {
    if ms == [] then (rows, [])
    else
      var (before, accepted) := InsertMessages(rows, ms[..|ms| - 1]);
      var m := ms[|ms| - 1];
      if m.dedupId in before then (before, accepted)
      else (before[m.dedupId := MessageRow(m.queue, m.payload)], accepted + [QueuedMessage(m.queue, m.dedupId)])
  }

  function Publish(e: Execution, ms: seq<PublishedMessage>): Execution {
    var (rows, accepted) := InsertMessages(e.messages, ms);
    var e1 := e.(messages := rows);
    if accepted == [] then e1 else InsertImmediate(e1, QueueTask(accepted))
  }
}
