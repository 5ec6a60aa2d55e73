/**
 The store's transactions in place, statement by statement.  A method whose name starts with Do leaves
 the rows as they are when it fails; the method around it rolls back.
 */
module ProcessStore {
  import opened Wrappers
  import opened Collections
  import opened StateExecutionIds
  import opened LocalQueues
  import opened SequenceMaps
  import opened ProcessModel
  import opened Transactions
  import opened Tables

  /** The rows after a transaction that either commits or is rolled back. */
  function CommitOrRollback(e: Execution, r: Option<Execution>): Execution {
    match r
    case None => e
    case Some(e') => e'
  }

  // ---------- starting states and deciding ----------

  lemma {:induction false} StartingStopsAtFailure(e: Execution, nexts: seq<NextState>, n: nat)
    requires n <= |nexts| && StartStates(e, nexts[..n]).None?
    ensures StartStates(e, nexts).None?
    decreases |nexts| - n
  {
    if n < |nexts| {
      assert nexts[..n + 1][..n] == nexts[..n];
      StartingStopsAtFailure(e, nexts, n + 1);
    } else {
      assert nexts[..n] == nexts;
    }
  }

  lemma StartingOneMore(e: Execution, nexts: seq<NextState>, n: nat)
    requires n < |nexts| && StartStates(e, nexts[..n]).Some?
    ensures StartStates(e, nexts[..n + 1]) == StartState(StartStates(e, nexts[..n]).value, nexts[n])
    ensures StartStates(e, nexts[..n + 1]).None? ==> StartStates(e, nexts).None?
  {
    assert nexts[..n + 1][..n] == nexts[..n];
    if StartStates(e, nexts[..n + 1]).None? {
      StartingStopsAtFailure(e, nexts, n + 1);
    }
  }

  /** The rows with the process row as the transaction holds it in memory. */
  function Seen(e: Execution, maps: SequenceMaps, graceful: bool, status: ProcessStatus): Execution {
    e.(process := e.process.(sequenceMaps := maps, gracefulCompleteRequested := graceful, status := status))
  }

  /** Inserts the new state's row and the task that drives it. */
  method InsertState(tx: Transaction, maps: StateExecutionSequenceMaps, next: NextState) returns (ok: bool)
    modifies tx, maps
    ensures tx.process == old(tx.process)
    ensures forall graceful, status ::
              var r := StartState(Seen(old(tx.Rows()), old(maps.State()), graceful, status), next);
              && (ok <==> r.Some?)
              && (ok ==> Seen(tx.Rows(), maps.State(), graceful, status) == r.value)
  {
    var seqId := maps.StartNewStateExecution(next.stateId);
    var sid := StateExecutionId(next.stateId, seqId);
    ok := tx.InsertAsyncStateExecution(sid, NewRow(next.skipWaitUntil));
    if ok {
      tx.InsertImmediateTask(WorkerTask(FirstKind(next.skipWaitUntil), sid));
    }
  }

  /** The process row itself is left for the caller to write. */
  method HandleDecision(
    tx: Transaction, maps: StateExecutionSequenceMaps, graceful: bool, status: ProcessStatus, d: StateDecision)
    returns (ok: bool, newGraceful: bool, newStatus: ProcessStatus)
    modifies tx, maps
    ensures tx.process == old(tx.process)
    ensures var r := HandleStateDecision(Seen(old(tx.Rows()), old(maps.State()), graceful, status), d);
      && (ok <==> r.Some?)
      && (ok ==> Seen(tx.Rows(), maps.State(), newGraceful, newStatus) == r.value)
  {
    newGraceful, newStatus := graceful, status;
    ghost var e := Seen(tx.Rows(), maps.State(), graceful, status);
    assert StartStates(e, d.nextStates[..0]) == Some(e);
    hide StartState, StartStates, Close;
    for n := 0 to |d.nextStates|
      invariant tx.process == old(tx.process)
      invariant StartStates(e, d.nextStates[..n]) == Some(Seen(tx.Rows(), maps.State(), graceful, status))
    {
      StartingOneMore(e, d.nextStates, n);
      ok := InsertState(tx, maps, d.nextStates[n]);
      if !ok {
        return;
      }
    }
    assert d.nextStates[..|d.nextStates|] == d.nextStates;
    ok := true;
    newGraceful, newStatus := CloseAsDecided(tx, maps, graceful, status, d.close);
  }

  method CloseAsDecided(
    tx: Transaction, maps: StateExecutionSequenceMaps, graceful: bool, status: ProcessStatus, close: Option<CloseType>)
    returns (newGraceful: bool, newStatus: ProcessStatus)
    modifies tx, maps
    ensures tx.process == old(tx.process)
    ensures Seen(tx.Rows(), maps.State(), newGraceful, newStatus)
         == Close(Seen(old(tx.Rows()), old(maps.State()), graceful, status), close)
  {
    newGraceful, newStatus := graceful, status;
    var shouldGracefulComplete := graceful && |maps.pendingExecutionMap| == 0;
    var toAbortRunning := false;
    if !shouldGracefulComplete && close.Some? {
      match close.value
      case GracefulComplete =>
        newGraceful := true;
        shouldGracefulComplete := |maps.pendingExecutionMap| == 0;
      case ForceComplete =>
        toAbortRunning := |maps.pendingExecutionMap| > 0;
        newStatus := ProcessCompleted;
        maps.pendingExecutionMap := map[];
      case ForceFail =>
        toAbortRunning := |maps.pendingExecutionMap| > 0;
        newStatus := ProcessFailed;
        maps.pendingExecutionMap := map[];
      case DeadEnd =>
    }
    if shouldGracefulComplete {
      newStatus := ProcessCompleted;
    }
    if toAbortRunning {
      tx.BatchUpdateAsyncStateExecutionsToAbortRunning();
    }
  }

  // ---------- publishing ----------

  method PublishMessages(tx: Transaction, ms: seq<PublishedMessage>)
    modifies tx
    ensures tx.Rows() == Publish(old(tx.Rows()), ms)
  {
    var accepted := [];
    for n := 0 to |ms|
      invariant tx.Rows() == old(tx.Rows()).(messages := tx.messages)
      invariant InsertMessages(old(tx.messages), ms[..n]) == (tx.messages, accepted)
    {
      assert ms[..n + 1][..n] == ms[..n];
      var inserted := tx.InsertLocalQueueMessage(ms[n]);
      if !inserted {
        continue;
      }
      accepted := accepted + [QueuedMessage(ms[n].queue, ms[n].dedupId)];
    }
    assert ms[..|ms|] == ms;
    if |accepted| == 0 {
      return;
    }
    tx.InsertImmediateTask(QueueTask(accepted));
  }

  // ---------- completing, recovering, backing off ----------

  method DoCompleteExecute(
    tx: Transaction, task: int, sid: StateExecutionId, version: int, d: StateDecision, publish: seq<PublishedMessage>)
    returns (ok: bool)
    modifies tx
    ensures var r := CompleteExecuteTx(old(tx.Rows()), task, sid, version, d, publish);
      (ok <==> r.Some?) && (ok ==> tx.Rows() == r.value)
  {
    var prcRow := tx.process;
    ok := tx.UpdateAsyncStateExecutionWithoutCommands(sid, version, StateCompleted, None);
    if !ok {
      return;
    }
    var maps := new StateExecutionSequenceMaps(prcRow.sequenceMaps);
    ok := maps.CompleteNewStateExecution(sid);
    if !ok {
      return;
    }
    ghost var finished := FinishState(old(tx.Rows()), sid, version, StateCompleted, None).value;
    assert Seen(tx.Rows(), maps.State(), prcRow.gracefulCompleteRequested, prcRow.status) == finished;
    var graceful, status;
    ok, graceful, status := HandleDecision(tx, maps, prcRow.gracefulCompleteRequested, prcRow.status, d);
    if !ok {
      return;
    }
    tx.UpdateProcessExecution(
      prcRow.(gracefulCompleteRequested := graceful, status := status, sequenceMaps := maps.State()));
    assert tx.Rows() == HandleStateDecision(finished, d).value;
    PublishMessages(tx, publish);
    if !tx.process.status.Running? {
      tx.InsertImmediateTask(VisibilityTask(tx.process.status));
    }
    tx.DeleteImmediateTask(task);
  }

  method CompleteExecuteExecution(
    tx: Transaction, task: int, sid: StateExecutionId, version: int, d: StateDecision, publish: seq<PublishedMessage>)
    returns (ok: bool)
    modifies tx
    ensures ok <==> CompleteExecuteTx(old(tx.Rows()), task, sid, version, d, publish).Some?
    ensures tx.Rows()
         == CommitOrRollback(old(tx.Rows()), CompleteExecuteTx(old(tx.Rows()), task, sid, version, d, publish))
  {
    var before := tx.Rows();
    ok := DoCompleteExecute(tx, task, sid, version, d, publish);
    if !ok {
      tx.Rollback(before);
    }
  }

  method DoRecover(
    tx: Transaction, sid: StateExecutionId, version: int, failure: Failure, destination: NextState) returns (ok: bool)
    modifies tx
    ensures var r := RecoverTx(old(tx.Rows()), sid, version, failure, destination);
      (ok <==> r.Some?) && (ok ==> tx.Rows() == r.value)
  {
    var prcRow := tx.process;
    ok := tx.UpdateAsyncStateExecutionWithoutCommands(sid, version, StateFailed, Some(failure));
    if !ok {
      return;
    }
    var maps := new StateExecutionSequenceMaps(prcRow.sequenceMaps);
    ok := maps.CompleteNewStateExecution(sid);
    if !ok {
      return;
    }
    ghost var finished := FinishState(old(tx.Rows()), sid, version, StateFailed, Some(failure)).value;
    assert Seen(tx.Rows(), maps.State(), prcRow.gracefulCompleteRequested, prcRow.status) == finished;
    ok := InsertState(tx, maps, destination);
    if !ok {
      return;
    }
    tx.UpdateProcessExecution(prcRow.(sequenceMaps := maps.State()));
    assert tx.Rows() == Seen(tx.Rows(), maps.State(), prcRow.gracefulCompleteRequested, prcRow.status);
  }

  method RecoverFromStateExecutionFailure(
    tx: Transaction, sid: StateExecutionId, version: int, failure: Failure, destination: NextState) returns (ok: bool)
    modifies tx
    ensures ok <==> RecoverTx(old(tx.Rows()), sid, version, failure, destination).Some?
    ensures tx.Rows() == CommitOrRollback(old(tx.Rows()), RecoverTx(old(tx.Rows()), sid, version, failure, destination))
  {
    var before := tx.Rows();
    ok := DoRecover(tx, sid, version, failure, destination);
    if !ok {
      tx.Rollback(before);
    }
  }

  method BackoffImmediateTask(
    tx: Transaction, task: int, sid: StateExecutionId, kind: WorkerKind, status: StateStatus, version: int,
    failure: Failure, fireTime: int) returns (ok: bool)
    modifies tx
    ensures ok <==> BackoffTx(old(tx.Rows()), task, sid, kind, status, version, failure, fireTime).Some?
    ensures tx.Rows() == CommitOrRollback(
                           old(tx.Rows()),
                           BackoffTx(old(tx.Rows()), task, sid, kind, status, version, failure, fireTime))
  {
    ok := tx.UpdateAsyncStateExecutionWithoutCommands(sid, version, status, Some(failure));
    if !ok {
      return;
    }
    tx.InsertTimerTask(BackoffTimer(fireTime, sid, kind));
    tx.DeleteImmediateTask(task);
  }

  method ConvertTimerTaskToImmediateTask(tx: Transaction, timer: int, sid: StateExecutionId, kind: WorkerKind)
    modifies tx
    ensures tx.Rows() == ConvertTx(old(tx.Rows()), timer, sid, kind)
  {
    tx.InsertImmediateTask(WorkerTask(kind, sid));
    tx.DeleteTimerTask(timer);
  }

  // ---------- results of waiting states ----------

  /** Fails where the program panics: a consumed message has no row. */
  method LookupMessages(messages: map<DedupId, MessageRow>, ids: seq<DedupId>)
    returns (ok: bool, results: seq<MessageResult>)
    ensures ok <==> forall id | id in ids :: id in messages
    ensures ok ==> results == Lookup(messages, ids)
  {
    results := [];
    for n := 0 to |ids|
      invariant forall id | id in ids[..n] :: id in messages
      invariant results == Lookup(messages, ids[..n])
    {
      if ids[n] !in messages {
        return false, results;
      }
      assert ids[..n + 1] == ids[..n] + [ids[n]];
      results := results + [MessageResult(ids[n], messages[ids[n]].payload)];
    }
    assert ids[..|ids|] == ids;
    return true, results;
  }

  /** The commands' indices may come in any order; the results do not depend on it. */
  method UpdateCommandResults(
    messages: map<DedupId, MessageRow>, commandResults: CommandResults, consumed: map<int, seq<DedupId>>)
    returns (ok: bool, updated: CommandResults)
    ensures ok <==> Known(messages, consumed)
    ensures ok ==> updated == AddConsumed(messages, commandResults, consumed)
  {
    updated := commandResults;
    var left := consumed.Keys;
    while left != {}
      invariant left <= consumed.Keys
      invariant forall i | i in consumed && i !in left :: forall id | id in consumed[i] :: id in messages
      invariant updated.timers == commandResults.timers
      invariant forall i :: i in updated.queues <==> i in commandResults.queues || (i in consumed && i !in left)
      invariant forall i :: i in updated.queues ==>
                  updated.queues[i] == if i in consumed && i !in left then Lookup(messages, consumed[i])
                                       else commandResults.queues[i]
    {
      HasElement(left);
      var i :| i in left;
      var results;
      ok, results := LookupMessages(messages, consumed[i]);
      if !ok {
        return;
      }
      updated := updated.(queues := updated.queues[i := results]);
      left := left - {i};
    }
    ok := true;
    SameMap(updated.queues, AddConsumed(messages, commandResults, consumed).queues);
  }

  method UpdateWhenCompletedWaitUntilWaiting(
    tx: Transaction, localQueues: StateExecutionLocalQueues, sid: StateExecutionId)
    modifies tx, localQueues
    ensures localQueues.State() == Cleanup(old(localQueues.State()), sid)
    ensures tx.Rows() == InsertImmediate(old(tx.Rows()), WorkerTask(ExecuteKind, sid))
  {
    localQueues.CleanupFor(sid);
    tx.InsertImmediateTask(WorkerTask(ExecuteKind, sid));
  }

  /** The rows with the queues as the transaction holds them in memory. */
  function WithQueues(e: Execution, queues: Queues): Execution {
    e.(process := e.process.(queues := queues))
  }

  /** Writes the row's new results; the queues in memory are written back by the caller. */
  method WriteResults(
    tx: Transaction, localQueues: StateExecutionLocalQueues, sid: StateExecutionId, results: CommandResults)
    requires sid in tx.states
    modifies tx, localQueues
    ensures tx.process == old(tx.process)
    ensures WithQueues(tx.Rows(), localQueues.State())
         == WithResults(WithQueues(old(tx.Rows()), old(localQueues.State())), sid, results)
  {
    hide Completed, Cleanup;
    var stateRow := tx.states[sid].(lastFailure := None);
    if Completed(stateRow.request, results) {
      UpdateWhenCompletedWaitUntilWaiting(tx, localQueues, sid);
      stateRow := stateRow.(status := ExecuteRunning);
    }
    var ok := tx.UpdateAsyncStateExecution(sid, stateRow.(results := results));
    assert ok;
  }

  // ---------- waiting ----------

  method CompleteWaitUntilExecution(tx: Transaction, sid: StateExecutionId, version: int) returns (ok: bool)
    modifies tx
    ensures var r := CompleteWaitUntil(old(tx.Rows()), sid, version);
      (ok <==> r.Some?) && (ok ==> tx.Rows() == r.value)
  {
    ok := tx.UpdateAsyncStateExecutionWithoutCommands(sid, version, ExecuteRunning, None);
    if ok {
      tx.InsertImmediateTask(WorkerTask(ExecuteKind, sid));
    }
  }

  method InsertTimerCommandTasks(tx: Transaction, sid: StateExecutionId, delays: seq<int>, now: Readings)
    modifies tx
    ensures tx.Rows() == InsertCommandTimers(old(tx.Rows()), sid, delays, now)
  {
    for idx := 0 to |delays|
      invariant tx.Rows() == InsertCommandTimers(old(tx.Rows()), sid, delays[..idx], now)
    {
      assert delays[..idx + 1][..idx] == delays[..idx];
      var delay := delays[idx];
      if delay < 0 {
        delay := 0;
      }
      tx.InsertTimerTask(CommandTimer(now(idx) + delay, sid, idx));
    }
    assert delays[..|delays|] == delays;
  }

  /** Registers the commands and consumes at once what is there; without commands the queues are not read. */
  method RegisterAndConsume(queues: Queues, sid: StateExecutionId, request: CommandRequest)
    returns (localQueues: StateExecutionLocalQueues, consumed: map<int, seq<DedupId>>, ghost order: seq<int>)
    ensures fresh(localQueues) && OrderFor(queues, sid, request, order)
    ensures (localQueues.State(), consumed) == RegisterCommands(queues, sid, request, order)
  {
    localQueues := new StateExecutionLocalQueues(queues);
    consumed, order := map[], [];
    if |request.queueCommands| > 0 {
      localQueues.AddNewLocalQueueCommands(sid, request.queueCommands);
      consumed, order := localQueues.TryConsumeForStateExecution(sid, request.waitingType);
    }
  }

  /** Writes the waiting row; the queues in memory are written back by the caller. */
  method WriteWaitingRow(
    tx: Transaction, localQueues: StateExecutionLocalQueues, sid: StateExecutionId, request: CommandRequest,
    results: CommandResults)
    requires sid in tx.states
    modifies tx, localQueues
    ensures tx.process == old(tx.process) && tx.messages == old(tx.messages)
    ensures WithQueues(tx.Rows(), localQueues.State())
         == RowWaits(old(tx.Rows()), sid, request, old(localQueues.State()), results)
  {
    hide Completed, Cleanup;
    var stateRow := tx.states[sid].(status := WaitUntilWaiting, lastFailure := None, request := request);
    if |request.queueCommands| > 0 && Completed(request, results) {
      UpdateWhenCompletedWaitUntilWaiting(tx, localQueues, sid);
      stateRow := stateRow.(status := ExecuteRunning);
    }
    var ok := tx.UpdateAsyncStateExecution(sid, stateRow.(results := results));
    assert ok;
  }

  method UpdateWaitUntilExecution(tx: Transaction, sid: StateExecutionId, request: CommandRequest, now: Readings)
    returns (ok: bool, ghost order: seq<int>)
    modifies tx
    ensures OrderFor(old(tx.process.queues), sid, request, order)
    ensures var r := UpdateWaitUntil(old(tx.Rows()), sid, request, order, now);
      (ok <==> r.Some?) && (ok ==> tx.Rows() == r.value)
  {
    var localQueues, consumed;
    localQueues, consumed, order := RegisterAndConsume(tx.process.queues, sid, request);
    if sid !in tx.states {
      return false, order;
    }
    var results;
    ok, results := UpdateCommandResults(tx.messages, tx.states[sid].results, consumed);
    if !ok {
      return;
    }
    WriteWaitingRow(tx, localQueues, sid, request, results);
    label waiting:
    InsertTimerCommandTasks(tx, sid, request.timerDelays, now);
    TimersLeaveQueues(old@waiting(tx.Rows()), localQueues.State(), sid, request.timerDelays, now);
    if |request.queueCommands| > 0 {
      tx.UpdateProcessExecution(tx.process.(queues := localQueues.State()));
    }
  }

  lemma {:induction false} TimersLeaveQueues(
    e: Execution, queues: Queues, sid: StateExecutionId, delays: seq<int>, now: Readings)
    ensures InsertCommandTimers(WithQueues(e, queues), sid, delays, now)
         == WithQueues(InsertCommandTimers(e, sid, delays, now), queues)
  {
    if delays != [] {
      TimersLeaveQueues(e, queues, sid, delays[..|delays| - 1], now);
    }
  }

  method DoProcessWaitUntil(
    tx: Transaction, task: int, sid: StateExecutionId, version: int, request: CommandRequest, now: Readings,
    publish: seq<PublishedMessage>)
    returns (ok: bool, ghost order: seq<int>)
    modifies tx
    ensures request.waitingType.EmptyCommand? || OrderFor(old(tx.process.queues), sid, request, order)
    ensures var r := WaitUntilTx(old(tx.Rows()), task, sid, version, request, order, now, publish);
      (ok <==> r.Some?) && (ok ==> tx.Rows() == r.value)
  {
    order := [];
    if request.waitingType.EmptyCommand? {
      ok := CompleteWaitUntilExecution(tx, sid, version);
    } else {
      ok, order := UpdateWaitUntilExecution(tx, sid, request, now);
    }
    if !ok {
      return;
    }
    PublishMessages(tx, publish);
    tx.DeleteImmediateTask(task);
  }

  method ProcessWaitUntilExecution(
    tx: Transaction, task: int, sid: StateExecutionId, version: int, request: CommandRequest, now: Readings,
    publish: seq<PublishedMessage>)
    returns (ok: bool, ghost order: seq<int>)
    modifies tx
    ensures request.waitingType.EmptyCommand? || OrderFor(old(tx.process.queues), sid, request, order)
    ensures var r := WaitUntilTx(old(tx.Rows()), task, sid, version, request, order, now, publish);
      (ok <==> r.Some?) && tx.Rows() == CommitOrRollback(old(tx.Rows()), r)
  {
    var before := tx.Rows();
    ok, order := DoProcessWaitUntil(tx, task, sid, version, request, now, publish);
    if !ok {
      tx.Rollback(before);
    }
  }

  // ---------- messages for waiting states ----------

  /** The messages arrive one by one. */
  method AssignMessages(localQueues: StateExecutionLocalQueues, ms: seq<QueuedMessage>)
    returns (given: Assigned, ghost picks: seq<Pick>)
    modifies localQueues
    ensures ValidPicks(old(localQueues.State()), ms, picks)
    ensures (localQueues.State(), given) == AssignAll(old(localQueues.State()), ms, picks)
  {
    given, picks := map[], [];
    assert ValidPicks(old(localQueues.State()), ms[..0], picks);
    assert AssignAll(old(localQueues.State()), ms[..0], picks) == (localQueues.State(), given);
    hide AssignAll, ValidPicks, AddMessage, AssignTo, ValidPick;
    for n := 0 to |ms|
      invariant ValidPicks(old(localQueues.State()), ms[..n], picks) && |picks| == n
      invariant (localQueues.State(), given) == AssignAll(old(localQueues.State()), ms[..n], picks)
    {
      ghost var before := localQueues.State();
      var pick, ids := localQueues.AddMessageAndTryConsume(ms[n].queue, ms[n].dedupId);
      AssigningOneMore(old(localQueues.State()), ms, n, picks, before, given, pick);
      picks := picks + [pick];
      if pick.Nobody? {
        continue;
      }
      AssigningInTwo(given, pick.sid, pick.index, ids);
      if pick.sid !in given {
        given := given[pick.sid := map[]];
      }
      given := given[pick.sid := given[pick.sid][pick.index := ids]];
    }
    assert ms[..|ms|] == ms;
  }

  lemma AssigningInTwo(given: Assigned, sid: StateExecutionId, i: int, ids: seq<DedupId>)
    ensures var extended := if sid in given then given else given[sid := map[]];
      extended[sid := extended[sid][i := ids]] == AssignTo(given, sid, i, ids)
  {
  }

  lemma AssigningOneMore(
    s: Queues, ms: seq<QueuedMessage>, n: nat, picks: seq<Pick>, before: Queues, given: Assigned, pick: Pick)
    requires n < |ms| && |picks| == n && ValidPicks(s, ms[..n], picks)
    requires (before, given) == AssignAll(s, ms[..n], picks)
    requires ValidPick(Append(before, ms[n].queue, ms[n].dedupId), ms[n].queue, pick)
    ensures ValidPicks(s, ms[..n + 1], picks + [pick])
    ensures var (after, ids) := AddMessage(before, ms[n].queue, ms[n].dedupId, pick);
      var grown := if pick.Picked? then AssignTo(given, pick.sid, pick.index, ids) else given;
      AssignAll(s, ms[..n + 1], picks + [pick]) == (after, grown)
  {
    assert ms[..n + 1][..n] == ms[..n] && (picks + [pick])[..n] == picks;
  }

  /** An order that has started can be completed. */
  lemma CompleteOrder<T(!new)>(done: seq<T>, some: set<T>, keys: set<T>) returns (order: seq<T>)
    requires IsOrder(done, some) && some <= keys
    ensures IsOrder(order, keys) && done <= order
    decreases |keys - some|
  {
    if k :| k in keys && k !in some {
      OrderGrows(done, some, k);
      assert keys - (some + {k}) == keys - some - {k};
      order := CompleteOrder(done + [k], some + {k}, keys);
    } else {
      assert some == keys;
      order := done;
    }
  }

  lemma {:induction false} UpdatingStopsAtFailure(e: Execution, a: Assigned, sids: seq<StateExecutionId>, n: nat)
    requires n <= |sids| && (forall sid :: sid in sids ==> sid in a) && UpdateAssignedRows(e, a, sids[..n]).None?
    ensures UpdateAssignedRows(e, a, sids).None?
    decreases |sids| - n
  {
    if n < |sids| {
      assert sids[..n + 1][..n] == sids[..n];
      UpdatingStopsAtFailure(e, a, sids, n + 1);
    } else {
      assert sids[..n] == sids;
    }
  }

  method UpdateAssigned(tx: Transaction, localQueues: StateExecutionLocalQueues, given: Assigned)
    returns (ok: bool, ghost sids: seq<StateExecutionId>)
    modifies tx, localQueues
    ensures tx.process == old(tx.process) && IsOrder(sids, given.Keys)
    ensures var r := UpdateAssignedRows(WithQueues(old(tx.Rows()), old(localQueues.State())), given, sids);
      (ok <==> r.Some?) && (ok ==> WithQueues(tx.Rows(), localQueues.State()) == r.value)
  {
    ghost var e := WithQueues(tx.Rows(), localQueues.State());
    var left := given.Keys;
    sids := [];
    while left != {}
      invariant left <= given.Keys && IsOrder(sids, given.Keys - left) && tx.process == old(tx.process)
      invariant UpdateAssignedRows(e, given, sids) == Some(WithQueues(tx.Rows(), localQueues.State()))
    {
      var sid :| sid in left;
      OrderGrows(sids, given.Keys - left, sid);
      assert given.Keys - left + {sid} == given.Keys - (left - {sid});
      assert (sids + [sid])[..|sids|] == sids;
      ghost var grown := sids + [sid];
      left := left - {sid};
      var results;
      ok := sid in tx.states;
      if ok {
        ok, results := UpdateCommandResults(tx.messages, tx.states[sid].results, given[sid]);
      }
      if !ok {
        sids := CompleteOrder(grown, given.Keys - left, given.Keys);
        assert sids[..|grown|] == grown;
        UpdatingStopsAtFailure(e, given, sids, |grown|);
        return;
      }
      WriteResults(tx, localQueues, sid, results);
      sids := grown;
    }
    ok := true;
    assert given.Keys - {} == given.Keys;
  }

  method DoProcessLocalQueueMessages(tx: Transaction, task: int, ms: seq<QueuedMessage>)
    returns (ok: bool, ghost picks: seq<Pick>, ghost sids: seq<StateExecutionId>)
    modifies tx
    ensures ValidPicks(old(tx.process.queues), ms, picks)
    ensures IsOrder(sids, AssignAll(old(tx.process.queues), ms, picks).1.Keys)
    ensures var r := QueueTx(old(tx.Rows()), task, ms, picks, sids); (ok <==> r.Some?) && (ok ==> tx.Rows() == r.value)
  {
    var localQueues := new StateExecutionLocalQueues(tx.process.queues);
    var given;
    given, picks := AssignMessages(localQueues, ms);
    ok, sids := UpdateAssigned(tx, localQueues, given);
    if !ok {
      return;
    }
    tx.UpdateProcessExecution(tx.process.(queues := localQueues.State()));
    tx.DeleteImmediateTask(task);
  }

  method ProcessLocalQueueMessages(tx: Transaction, task: int, ms: seq<QueuedMessage>)
    returns (ok: bool, ghost picks: seq<Pick>, ghost sids: seq<StateExecutionId>)
    modifies tx
    ensures ValidPicks(old(tx.process.queues), ms, picks)
    ensures IsOrder(sids, AssignAll(old(tx.process.queues), ms, picks).1.Keys)
    ensures var r := QueueTx(old(tx.Rows()), task, ms, picks, sids);
      (ok <==> r.Some?) && tx.Rows() == CommitOrRollback(old(tx.Rows()), r)
  {
    var before := tx.Rows();
    ok, picks, sids := DoProcessLocalQueueMessages(tx, task, ms);
    if !ok {
      tx.Rollback(before);
    }
  }

  // ---------- fired command timers ----------

  /** Nothing has been written yet when this fails. */
  method ProcessTimerTaskForTimerCommand(tx: Transaction, timer: int, sid: StateExecutionId, index: int)
    returns (ok: bool)
    modifies tx
    ensures var r := CommandTimerTx(old(tx.Rows()), timer, sid, index);
      (ok <==> r.Some?) && tx.Rows() == CommitOrRollback(old(tx.Rows()), r)
  {
    var localQueues := new StateExecutionLocalQueues(tx.process.queues);
    if sid !in tx.states {
      return false;
    }
    var stateRow := tx.states[sid];
    if !stateRow.status.WaitUntilWaiting? {
      return true;
    }
    var results := stateRow.results.(timers := stateRow.results.timers[index := true]);
    assert WithQueues(tx.Rows(), localQueues.State()) == tx.Rows();
    WriteResults(tx, localQueues, sid, results);
    tx.UpdateProcessExecution(tx.process.(queues := localQueues.State()));
    tx.DeleteTimerTask(timer);
    return true;
  }

  // ---------- remote procedure calls, stopping ----------

  method DoUpdateProcessExecutionForRpc(tx: Transaction, d: StateDecision, publish: seq<PublishedMessage>)
    returns (ok: bool)
    modifies tx
    ensures var r := RpcTx(old(tx.Rows()), d, publish); (ok <==> r.Some?) && (ok ==> tx.Rows() == r.value)
  {
    var prcRow := tx.process;
    if !prcRow.status.Running? {
      return true;
    }
    var maps := new StateExecutionSequenceMaps(prcRow.sequenceMaps);
    assert Seen(tx.Rows(), maps.State(), prcRow.gracefulCompleteRequested, prcRow.status) == tx.Rows();
    var graceful, status;
    ok, graceful, status := HandleDecision(tx, maps, prcRow.gracefulCompleteRequested, prcRow.status, d);
    if !ok {
      return;
    }
    tx.UpdateProcessExecution(
      prcRow.(gracefulCompleteRequested := graceful, status := status, sequenceMaps := maps.State()));
    PublishMessages(tx, publish);
  }

  method UpdateProcessExecutionForRpc(tx: Transaction, d: StateDecision, publish: seq<PublishedMessage>)
    returns (ok: bool)
    modifies tx
    ensures var r := RpcTx(old(tx.Rows()), d, publish);
      (ok <==> r.Some?) && tx.Rows() == CommitOrRollback(old(tx.Rows()), r)
  {
    var before := tx.Rows();
    ok := DoUpdateProcessExecutionForRpc(tx, d, publish);
    if !ok {
      tx.Rollback(before);
    }
  }

  method StopExecution(tx: Transaction, status: ProcessStatus)
    modifies tx
    ensures tx.Rows() == StopTx(old(tx.Rows()), status)
  {
    var prcRow := tx.process;
    if !prcRow.status.Running? {
      return;
    }
    var maps := new StateExecutionSequenceMaps(prcRow.sequenceMaps);
    var pending := maps.pendingExecutionMap;
    maps.pendingExecutionMap := map[];
    tx.UpdateProcessExecution(prcRow.(sequenceMaps := maps.State(), status := status));
    if |pending| > 0 {
      tx.BatchUpdateAsyncStateExecutionsToAbortRunning();
    }
    tx.InsertImmediateTask(VisibilityTask(status));
  }
}
