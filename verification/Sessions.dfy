/**
 Runs in which every task and timer is delivered from the tables, where its row still is.

 A process execution together with what the engine's workers hold in memory: the row versions they
 prepared, and which tasks have had their one transaction.  A step is one transaction, or one
 preparation, or keys of the shared sequences going to other executions; nothing else changes it.
 */
module Sessions {
  import opened Wrappers
  import opened StateExecutionIds
  import opened LocalQueues
  import opened ProcessModel
  import opened Transactions

  /** The task a worker holds, and what it read of the row before calling a state's API. */
  datatype Prepared = Prepared(task: int, kind: WorkerKind, sid: StateExecutionId, status: StateStatus, version: int)

  datatype Session = Session(e: Execution, settled: set<int>, preps: set<Prepared>)

  datatype Step =
    | Prepare(task: int)
    | WaitUntil(p: Prepared, request: CommandRequest, order: seq<int>, now: Readings, publish: seq<PublishedMessage>)
    | CompleteExecute(p: Prepared, decision: StateDecision, publish: seq<PublishedMessage>)
    | Recover(p: Prepared, failure: Failure, destination: NextState)
    | Backoff(p: Prepared, failure: Failure, fireTime: int)
    | QueueMessages(task: int, picks: seq<Pick>, sids: seq<StateExecutionId>)
    | RecordVisibility(task: int)
    | FireCommand(timer: int)
    | FireBackoff(timer: int)
    | FireTimeout(timer: int)
    | Rpc(decision: StateDecision, publish: seq<PublishedMessage>)
    | PublishMessages(publish: seq<PublishedMessage>)
    | Stop(status: ProcessStatus)
    | TerminateIfRunning
    | OthersTookKeys(next: int)

  /**
   Which API a prepared read has called.  A worker that holds the read may ask for its transaction at any
   time and as often as it likes: the task may be settled, or gone from the table.
   */
  predicate Called(s: Session, p: Prepared, status: StateStatus) {
    p in s.preps && p.status == status
  }

  predicate CalledAny(s: Session, p: Prepared) {
    Called(s, p, WaitUntilRunning) || Called(s, p, ExecuteRunning)
  }

  /** Only the unfenced wait-until transaction relies on its task not being settled yet. */
  ghost predicate MayRespond(s: Session, p: Prepared, request: CommandRequest, order: seq<int>) {
    || request.waitingType.EmptyCommand?
    || (p.task !in s.settled && OrderFor(s.e.process.queues, p.sid, request, order))
  }

  ghost predicate Enabled(s: Session, step: Step) {
    match step
    case Prepare(t) => t in s.e.immediate && s.e.immediate[t].WorkerTask? && s.e.immediate[t].sid in s.e.states
    case WaitUntil(p, request, order, _, _) =>
      Called(s, p, WaitUntilRunning) && MayRespond(s, p, request, order)
    case CompleteExecute(p, _, _) => Called(s, p, ExecuteRunning)
    case Recover(p, _, _) => CalledAny(s, p)
    case Backoff(p, _, _) => CalledAny(s, p)
    case QueueMessages(t, picks, sids) =>
      && t in s.e.immediate && s.e.immediate[t].QueueTask?
      && ValidPicks(s.e.process.queues, s.e.immediate[t].messages, picks)
      && IsOrder(sids, AssignAll(s.e.process.queues, s.e.immediate[t].messages, picks).1.Keys)
    case RecordVisibility(t) => t in s.e.immediate && s.e.immediate[t].VisibilityTask?
    case FireCommand(t) => t in s.e.timers && s.e.timers[t].CommandTimer?
    case FireBackoff(t) => t in s.e.timers && s.e.timers[t].BackoffTimer?
    case FireTimeout(t) => t in s.e.timers && s.e.timers[t].TimeoutTimer?
    case Rpc(_, _) => true
    case PublishMessages(_) => true
    case Stop(status) => !status.Running?
    case TerminateIfRunning => true
    case OthersTookKeys(next) => s.e.next <= next
  }

  /** What the step's transaction does; None is an error, and commits nothing. */
  ghost function Effect(s: Session, step: Step): Option<Execution>
    requires Enabled(s, step)
  {
    var e := s.e;
    match step
    case Prepare(_) => Some(e)
    case WaitUntil(p, request, order, now, publish) =>
      WaitUntilTx(e, p.task, p.sid, p.version, request, order, now, publish)
    case CompleteExecute(p, decision, publish) => CompleteExecuteTx(e, p.task, p.sid, p.version, decision, publish)
    case Recover(p, failure, destination) => RecoverTx(e, p.sid, p.version, failure, destination)
    case Backoff(p, failure, fireTime) =>
      BackoffTx(e, p.task, p.sid, p.kind, p.status, p.version, failure, fireTime)
    case QueueMessages(t, picks, sids) => QueueTx(e, t, e.immediate[t].messages, picks, sids)
    case RecordVisibility(t) => Some(DeleteImmediate(e, t))
    case FireCommand(t) => CommandTimerTx(e, t, e.timers[t].sid, e.timers[t].index)
    case FireBackoff(t) => Some(ConvertTx(e, t, e.timers[t].sid, e.timers[t].kind))
    case FireTimeout(t) => Some(TimeoutTx(e, t))
    case Rpc(decision, publish) => RpcTx(e, decision, publish)
    case PublishMessages(publish) => Some(PublishTx(e, publish))
    case Stop(status) => Some(StopTx(e, status))
    case TerminateIfRunning => Some(TerminateTx(e))
    case OthersTookKeys(next) => Some(e.(next := next))
  }

  /** The worker task the step's transaction settles. */
  function Settles(step: Step): set<int> {
    match step
    case WaitUntil(p, _, _, _, _) => {p.task}
    case CompleteExecute(p, _, _) => {p.task}
    case Recover(p, _, _) => {p.task}
    case Backoff(p, _, _) => {p.task}
    case _ => {}
  }

  function Reads(s: Session, step: Step): set<Prepared> {
    match step
    case Prepare(t) =>
      if t in s.e.immediate && s.e.immediate[t].WorkerTask? && s.e.immediate[t].sid in s.e.states then
        var row := s.e.states[s.e.immediate[t].sid];
        {Prepared(t, s.e.immediate[t].kind, s.e.immediate[t].sid, row.status, row.version)}
      else {}
    case _ => {}
  }

  ghost predicate Commits(s: Session, step: Step)
    requires Enabled(s, step)
  {
    Effect(s, step).Some?
  }

  ghost function Next(s: Session, step: Step): Session
    requires Enabled(s, step)
  {
    match Effect(s, step)
    case None => s
    case Some(e) => Session(e, s.settled + Settles(step), s.preps + Reads(s, step))
  }

  function Start(next: int, start: Option<NextState>, timeout: Option<int>): Session {
    Session(StartExecution(next, start, timeout), {}, {})
  }

  /** A whole run: the sessions it goes through, one step between each two. */
  ghost predicate IsRun(states: seq<Session>, steps: seq<Step>) {
    && |states| == |steps| + 1
    && (exists next, start, timeout :: states[0] == Start(next, start, timeout))
    && forall n :: 0 <= n < |steps| ==> Enabled(states[n], steps[n]) && states[n + 1] == Next(states[n], steps[n])
  }

  ghost predicate Reachable(s: Session) {
    exists states, steps :: IsRun(states, steps) && states[|steps|] == s
  }
}
