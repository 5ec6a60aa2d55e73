/**
 All executions of all processes, and the table that names the latest one of each process id: the
 transactions that go by process id.
 */
module Stores {
  import opened Wrappers
  import SequenceMaps
  import opened ProcessModel
  import opened Transactions
  import opened Tables
  import opened ProcessStore

  datatype ProcessKey = ProcessKey(namespace: string, processId: string)

  type ExecutionId = string

  /** `owner` is the key in each execution's row; `next` is the next value of the shared task sequences. */
  datatype Store = Store(
    latest: map<ProcessKey, ExecutionId>,
    owner: map<ExecutionId, ProcessKey>,
    executions: map<ExecutionId, Execution>,
    next: int)

  datatype IdReusePolicy =
    | DisallowReuse
    | AllowIfNoRunning
    | AllowIfPreviousExitAbnormally
    | TerminateRunning

  datatype StartRequest = StartRequest(
    key: ProcessKey, policy: IdReusePolicy, start: Option<NextState>, timeout: Option<int>)

  datatype StartOutcome = Started | AlreadyStarted | NoSuchRow

  function Select(s: Store, id: ExecutionId): Execution
    requires id in s.executions
  {
    s.executions[id].(next := s.next)
  }

  function Write(s: Store, id: ExecutionId, e: Execution): Store {
    s.(executions := s.executions[id := e], next := e.next)
  }

  function InsertNew(s: Store, request: StartRequest, id: ExecutionId): Store {
    Write(s.(latest := s.latest[request.key := id], owner := s.owner[id := request.key]),
          id, StartExecution(s.next, request.start, request.timeout))
  }

  /** Whether the policy refuses a new execution while `previous` is the latest one. */
  predicate Refuses(policy: IdReusePolicy, previous: ProcessStatus) {
    match policy
    case DisallowReuse => true
    case AllowIfNoRunning => previous.Running?
    case AllowIfPreviousExitAbnormally => previous.Running? || previous.ProcessCompleted?
    case TerminateRunning => false
  }

  function StartProcessTx(s: Store, request: StartRequest, id: ExecutionId): (Store, StartOutcome) {
    if request.key !in s.latest then (InsertNew(s, request, id), Started)
    else if request.policy.DisallowReuse? then (s, AlreadyStarted)
    else
      var previous := s.latest[request.key];
      if previous !in s.executions then (s, NoSuchRow)
      else if Refuses(request.policy, s.executions[previous].process.status) then (s, AlreadyStarted)
      else if request.policy.TerminateRunning? then
        (InsertNew(Write(s, previous, TerminateTx(Select(s, previous))), request, id), Started)
      else (InsertNew(s, request, id), Started)
  }

  /** None: the latest table names an execution without a row. */
  function StopProcessTx(s: Store, key: ProcessKey, status: ProcessStatus): Option<Store> {
    if key !in s.latest then Some(s)
    else if s.latest[key] !in s.executions then None
    else Some(Write(s, s.latest[key], StopTx(Select(s, s.latest[key]), status)))
  }

  function PublishToProcessTx(s: Store, key: ProcessKey, ms: seq<PublishedMessage>): Option<Store> {
    if key !in s.latest then Some(s)
    else if s.latest[key] !in s.executions then None
    else Some(Write(s, s.latest[key], PublishTx(Select(s, s.latest[key]), ms)))
  }

  /** The timer names its execution, but what is stopped is the latest execution of the same process id. */
  function ProcessTimeoutTx(s: Store, id: ExecutionId, timer: int): Option<Store> {
    if id !in s.executions || id !in s.owner then None
    else if !s.executions[id].process.status.Running? then Some(Write(s, id, DeleteTimer(Select(s, id), timer)))
    else if s.owner[id] !in s.latest then None
    else
      var stopped :- StopProcessTx(s, s.owner[id], ProcessTimeout);
      Some(Write(stopped, id, DeleteTimer(Select(stopped, id), timer)))
  }

  // ---------- the transactions in place ----------

  class ProcessTables {
    var latest: map<ProcessKey, ExecutionId>
    var owner: map<ExecutionId, ProcessKey>
    var executions: map<ExecutionId, Execution>
    var next: int

    function State(): Store
      reads this
    {
      Store(latest, owner, executions, next)
    }

    constructor (s: Store)
      ensures State() == s
    {
      latest, owner, executions, next := s.latest, s.owner, s.executions, s.next;
    }

    /** The rows of one execution, locked for update. */
    method SelectForUpdate(id: ExecutionId) returns (tx: Transaction)
      requires id in executions
      ensures fresh(tx) && tx.Rows() == Select(State(), id)
    {
      tx := new Transaction(executions[id].(next := next));
    }

    method WriteBack(id: ExecutionId, tx: Transaction)
      modifies this`executions, this`next
      ensures State() == Write(old(State()), id, tx.Rows())
    {
      executions, next := executions[id := tx.Rows()], tx.next;
    }

    /** The new execution's rows but its timeout timer, which the caller inserts last. */
    method InsertProcessExecution(request: StartRequest, id: ExecutionId) returns (tx: Transaction)
      modifies this`latest, this`owner
      ensures fresh(tx)
      ensures State() == old(State()).(latest := latest, owner := owner)
      ensures latest == old(latest)[request.key := id] && owner == old(owner)[id := request.key]
      ensures tx.Rows() == InsertImmediate(FirstState(next, request.start), VisibilityTask(Running))
    {
      latest, owner := latest[request.key := id], owner[id := request.key];
      tx := new Transaction(EMPTY_EXECUTION.(next := next));
      if request.start.Some? {
        var maps := new SequenceMaps.StateExecutionSequenceMaps(SequenceMaps.NEW_SEQUENCE_MAPS);
        assert Seen(tx.Rows(), maps.State(), false, Running) == EMPTY_EXECUTION.(next := next);
        var ok := InsertState(tx, maps, request.start.value);
        assert ok;
        tx.UpdateProcessExecution(tx.process.(sequenceMaps := maps.State()));
        assert tx.Rows() == Seen(tx.Rows(), maps.State(), false, Running);
      }
      tx.InsertImmediateTask(VisibilityTask(Running));
    }

    method InsertTimeout(request: StartRequest, tx: Transaction)
      modifies tx
      ensures tx.Rows() == match request.timeout
                           case None => old(tx.Rows())
                           case Some(fireTime) => InsertTimer(old(tx.Rows()), TimeoutTimer(fireTime))
    {
      if request.timeout.Some? {
        tx.InsertTimerTask(TimeoutTimer(request.timeout.value));
      }
    }

    method InsertNewExecution(request: StartRequest, id: ExecutionId)
      modifies this
      ensures State() == InsertNew(old(State()), request, id)
    {
      var tx := InsertProcessExecution(request, id);
      InsertTimeout(request, tx);
      WriteBack(id, tx);
    }

    method MarkTerminated(tx: Transaction)
      modifies tx
      ensures tx.Rows().(states := AbortRunning(tx.states)) == TerminateTx(old(tx.Rows()))
    {
      if tx.process.status.Running? {
        tx.UpdateProcessExecution(tx.process.(status := ProcessTerminated));
        tx.InsertImmediateTask(VisibilityTask(ProcessTerminated));
      }
    }

    /** The old execution is marked before the new one is inserted, and its states are aborted after. */
    method ReplaceRunning(request: StartRequest, previous: ExecutionId, id: ExecutionId)
      requires previous in executions && id != previous
      modifies this
      ensures State()
           == InsertNew(Write(old(State()), previous, TerminateTx(Select(old(State()), previous))), request, id)
    {
      hide AbortRunning;
      var before := SelectForUpdate(previous);
      ghost var terminated := TerminateTx(before.Rows());
      MarkTerminated(before);
      WriteBack(previous, before);
      var tx := InsertProcessExecution(request, id);
      before.BatchUpdateAsyncStateExecutionsToAbortRunning();
      executions := executions[previous := before.Rows()];
      assert executions == old(executions)[previous := terminated];
      hide TerminateTx, FirstState;
      InsertTimeout(request, tx);
      WriteBack(id, tx);
    }

    method StartProcess(request: StartRequest, id: ExecutionId) returns (outcome: StartOutcome)
      requires id !in executions
      modifies this
      ensures (State(), outcome) == StartProcessTx(old(State()), request, id)
    {
      if request.key !in latest {
        InsertNewExecution(request, id);
        return Started;
      }
      if request.policy.DisallowReuse? {
        return AlreadyStarted;
      }
      var previous := latest[request.key];
      if previous !in executions {
        return NoSuchRow;
      }
      var status := executions[previous].process.status;
      outcome := Started;
      match request.policy
      case DisallowReuse =>
        return AlreadyStarted;
      case AllowIfNoRunning =>
        if status.Running? {
          return AlreadyStarted;
        }
        InsertNewExecution(request, id);
      case AllowIfPreviousExitAbnormally =>
        if status.Running? {
          return AlreadyStarted;
        }
        if status.ProcessCompleted? {
          return AlreadyStarted;
        }
        InsertNewExecution(request, id);
      case TerminateRunning =>
        ReplaceRunning(request, previous, id);
    }

    method StopProcess(key: ProcessKey, status: ProcessStatus) returns (ok: bool, notExists: bool)
      modifies this
      ensures ok <==> StopProcessTx(old(State()), key, status).Some?
      ensures State() == if ok then StopProcessTx(old(State()), key, status).value else old(State())
      ensures notExists <==> key !in old(latest)
    {
      if key !in latest {
        return true, true;
      }
      var id := latest[key];
      if id !in executions {
        return false, false;
      }
      var tx := SelectForUpdate(id);
      StopExecution(tx, status);
      WriteBack(id, tx);
      return true, false;
    }

    method PublishToLocalQueue(key: ProcessKey, ms: seq<PublishedMessage>) returns (ok: bool)
      modifies this
      ensures ok <==> PublishToProcessTx(old(State()), key, ms).Some?
      ensures State() == if ok then PublishToProcessTx(old(State()), key, ms).value else old(State())
    {
      if key !in latest {
        return true;
      }
      var id := latest[key];
      if id !in executions {
        return false;
      }
      var tx := SelectForUpdate(id);
      if tx.process.status.Running? {
        PublishMessages(tx, ms);
      }
      WriteBack(id, tx);
      return true;
    }

    method ProcessTimerTaskForProcessTimeout(id: ExecutionId, timer: int) returns (ok: bool)
      modifies this
      ensures ok <==> ProcessTimeoutTx(old(State()), id, timer).Some?
      ensures State() == if ok then ProcessTimeoutTx(old(State()), id, timer).value else old(State())
    {
      if id !in executions || id !in owner {
        return false;
      }
      if executions[id].process.status.Running? {
        var notExists;
        ok, notExists := StopProcess(owner[id], ProcessTimeout);
        if !ok || notExists {
          return false;
        }
      }
      var tx := SelectForUpdate(id);
      tx.DeleteTimerTask(timer);
      WriteBack(id, tx);
      return true;
    }
  }
}
