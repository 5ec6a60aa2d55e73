/** How any transaction may change an execution, whatever state the execution is in. */
module Evolution {
  import opened Wrappers
  import opened StateExecutionIds
  import opened LocalQueues
  import opened ProcessModel
  import opened Transactions
  import opened PublishingLemmas
  import opened WaitingLemmas

  /** A row that changed at all has a higher version. */
  predicate RowEvolves(row: StateRow, row': StateRow) {
    row' == row || row.version < row'.version
  }

  /** Keys are never handed out again, rows and messages stay, and a closed process does not run again. */
  ghost predicate Evolves(e: Execution, e': Execution) {
    && e.next <= e'.next
    && (forall t :: t in e'.immediate && t < e.next ==> t in e.immediate && e'.immediate[t] == e.immediate[t])
    && (forall t :: t in e'.immediate ==> t in e.immediate || t < e'.next)
    && (forall sid :: sid in e.states ==> sid in e'.states && RowEvolves(e.states[sid], e'.states[sid]))
    && (forall id :: id in e.messages ==> id in e'.messages && e'.messages[id] == e.messages[id])
    && (e'.process.status.Running? ==> e.process.status.Running?)
  }

  lemma EvolvesTwice(e: Execution, e1: Execution, e2: Execution)
    requires Evolves(e, e1) && Evolves(e1, e2)
    ensures Evolves(e, e2)
  {
    forall sid | sid in e.states ensures sid in e2.states && RowEvolves(e.states[sid], e2.states[sid]) {
      assert RowEvolves(e.states[sid], e1.states[sid]) && RowEvolves(e1.states[sid], e2.states[sid]);
    }
  }

  /** No task but those in `gone` left the table. */
  ghost predicate TasksStay(e: Execution, e': Execution, gone: set<int>) {
    forall t :: t in e.immediate && t < e.next && t !in gone ==> t in e'.immediate
  }

  /** As `Evolves`, and no task left the table. */
  ghost predicate Grows(e: Execution, e': Execution) {
    Evolves(e, e') && TasksStay(e, e', {})
  }

  lemma GrowsTwice(e: Execution, e1: Execution, e2: Execution)
    requires Grows(e, e1) && Grows(e1, e2)
    ensures Grows(e, e2)
  {
    EvolvesTwice(e, e1, e2);
  }

  /** As `Evolves`, and no task but one left the table. */
  ghost predicate Settling(e: Execution, e': Execution, task: int) {
    Evolves(e, e') && TasksStay(e, e', {task})
  }

  lemma DeletingLast(e: Execution, e1: Execution, task: int)
    requires Grows(e, e1)
    ensures Settling(e, DeleteImmediate(e1, task), task)
  {
    assert Evolves(e1, DeleteImmediate(e1, task));
    EvolvesTwice(e, e1, DeleteImmediate(e1, task));
  }

  // ---------- the parts of transactions ----------

  lemma StartStateEvolves(e: Execution, next: NextState)
    requires StartState(e, next).Some?
    ensures Grows(e, StartState(e, next).value)
  {
  }

  lemma {:induction false} StartStatesEvolves(e: Execution, nexts: seq<NextState>)
    requires StartStates(e, nexts).Some?
    ensures Grows(e, StartStates(e, nexts).value)
  {
    if nexts != [] {
      StartStatesEvolves(e, nexts[..|nexts| - 1]);
      var e1 := StartStates(e, nexts[..|nexts| - 1]).value;
      StartStateEvolves(e1, nexts[|nexts| - 1]);
      hide StartState, Grows;
      GrowsTwice(e, e1, StartState(e1, nexts[|nexts| - 1]).value);
    }
  }

  lemma HandleStateDecisionEvolves(e: Execution, d: StateDecision)
    requires HandleStateDecision(e, d).Some?
    ensures Grows(e, HandleStateDecision(e, d).value)
  {
    StartStatesEvolves(e, d.nextStates);
    var e1 := StartStates(e, d.nextStates).value;
    assert Grows(e1, Close(e1, d.close));
    GrowsTwice(e, e1, Close(e1, d.close));
  }

  lemma PublishEvolves(e: Execution, ms: seq<PublishedMessage>)
    ensures Grows(e, Publish(e, ms))
  {
    InsertMessagesAccepts(e.messages, ms);
  }

  lemma PublishAndDeleteEvolve(e: Execution, e1: Execution, ms: seq<PublishedMessage>, task: int)
    requires Grows(e, e1)
    ensures Settling(e, DeleteImmediate(Publish(e1, ms), task), task)
  {
    PublishEvolves(e1, ms);
    GrowsTwice(e, e1, Publish(e1, ms));
    DeletingLast(e, Publish(e1, ms), task);
  }

  lemma RowWaitsEvolves(
    e: Execution, sid: StateExecutionId, request: CommandRequest, queues: Queues, results: CommandResults)
    requires sid in e.states
    ensures Grows(e, RowWaits(e, sid, request, queues, results))
  {
    hide Completed, Cleanup;
  }

  lemma CommandTimersEvolve(e: Execution, sid: StateExecutionId, delays: seq<int>, now: Readings)
    ensures Grows(e, InsertCommandTimers(e, sid, delays, now))
  {
    InsertCommandTimersInserts(e, sid, delays, now);
  }

  lemma StartWaitingEvolves(
    e: Execution, sid: StateExecutionId, request: CommandRequest,
    queues: Queues, consumed: map<int, seq<DedupId>>, now: Readings)
    requires sid in e.states && Known(e.messages, consumed)
    ensures Grows(e, StartWaiting(e, sid, request, queues, consumed, now))
  {
    hide RowWaits, AddConsumed, Grows;
    var results := AddConsumed(e.messages, e.states[sid].results, consumed);
    RowWaitsEvolves(e, sid, request, queues, results);
    var updated := RowWaits(e, sid, request, queues, results);
    CommandTimersEvolve(updated, sid, request.timerDelays, now);
    GrowsTwice(e, updated, StartWaiting(e, sid, request, queues, consumed, now));
  }

  lemma UpdateWaitUntilEvolves(
    e: Execution, sid: StateExecutionId, request: CommandRequest, order: seq<int>, now: Readings)
    requires OrderFor(e.process.queues, sid, request, order)
    requires UpdateWaitUntil(e, sid, request, order, now).Some?
    ensures Grows(e, UpdateWaitUntil(e, sid, request, order, now).value)
  {
    var (queues, consumed) := RegisterCommands(e.process.queues, sid, request, order);
    StartWaitingEvolves(e, sid, request, queues, consumed, now);
  }

  lemma WithResultsEvolves(e: Execution, sid: StateExecutionId, results: CommandResults)
    requires sid in e.states
    ensures Grows(e, WithResults(e, sid, results))
  {
    hide Completed, Cleanup;
  }

  lemma {:induction false} UpdateAssignedRowsEvolves(e: Execution, a: Assigned, sids: seq<StateExecutionId>)
    requires forall sid :: sid in sids ==> sid in a
    requires UpdateAssignedRows(e, a, sids).Some?
    ensures Grows(e, UpdateAssignedRows(e, a, sids).value)
  {
    if sids != [] {
      var front, last := sids[..|sids| - 1], sids[|sids| - 1];
      UpdateAssignedRowsEvolves(e, a, front);
      var e1 := UpdateAssignedRows(e, a, front).value;
      WithResultsEvolves(e1, last, AddConsumed(e1.messages, e1.states[last].results, a[last]));
      GrowsTwice(e, e1, UpdateAssignedRow(e1, last, a[last]).value);
    }
  }

  // ---------- the transactions ----------

  lemma WaitUntilEvolves(
    e: Execution, task: int, sid: StateExecutionId, version: int, request: CommandRequest,
    order: seq<int>, now: Readings, publish: seq<PublishedMessage>)
    requires request.waitingType.EmptyCommand? || OrderFor(e.process.queues, sid, request, order)
    requires WaitUntilTx(e, task, sid, version, request, order, now, publish).Some?
    ensures Settling(e, WaitUntilTx(e, task, sid, version, request, order, now, publish).value, task)
  {
    var updated :=
      if request.waitingType.EmptyCommand? then CompleteWaitUntil(e, sid, version).value
      else UpdateWaitUntil(e, sid, request, order, now).value;
    if request.waitingType.EmptyCommand? {
      assert Grows(e, updated);
    } else {
      UpdateWaitUntilEvolves(e, sid, request, order, now);
    }
    PublishAndDeleteEvolve(e, updated, publish, task);
  }

  lemma FinishStateEvolves(
    e: Execution, sid: StateExecutionId, version: int, status: StateStatus, failure: Option<Failure>)
    requires FinishState(e, sid, version, status, failure).Some?
    ensures Grows(e, FinishState(e, sid, version, status, failure).value)
  {
  }

  lemma CompleteExecuteEvolves(
    e: Execution, task: int, sid: StateExecutionId, version: int, d: StateDecision, publish: seq<PublishedMessage>)
    requires CompleteExecuteTx(e, task, sid, version, d, publish).Some?
    ensures Settling(e, CompleteExecuteTx(e, task, sid, version, d, publish).value, task)
  {
    hide FinishState, HandleStateDecision, Grows, Settling;
    var finished := FinishState(e, sid, version, StateCompleted, None).value;
    var decided := HandleStateDecision(finished, d).value;
    FinishStateEvolves(e, sid, version, StateCompleted, None);
    HandleStateDecisionEvolves(finished, d);
    GrowsTwice(e, finished, decided);
    RecordingEvolves(e, decided, publish);
    DeletingLast(e, RecordIfClosed(Publish(decided, publish)), task);
  }

  lemma RecordingEvolves(e: Execution, e1: Execution, publish: seq<PublishedMessage>)
    requires Grows(e, e1)
    ensures Grows(e, RecordIfClosed(Publish(e1, publish)))
  {
    PublishEvolves(e1, publish);
    hide Publish;
    GrowsTwice(e, e1, Publish(e1, publish));
    var recorded := RecordIfClosed(Publish(e1, publish));
    assert Grows(Publish(e1, publish), recorded);
    GrowsTwice(e, Publish(e1, publish), recorded);
  }

  lemma RecoverEvolves(e: Execution, sid: StateExecutionId, version: int, failure: Failure, destination: NextState)
    requires RecoverTx(e, sid, version, failure, destination).Some?
    ensures Grows(e, RecoverTx(e, sid, version, failure, destination).value)
  {
    var finished := FinishState(e, sid, version, StateFailed, Some(failure)).value;
    FinishStateEvolves(e, sid, version, StateFailed, Some(failure));
    StartStateEvolves(finished, destination);
    GrowsTwice(e, finished, StartState(finished, destination).value);
  }

  lemma QueueEvolves(
    e: Execution, task: int, ms: seq<QueuedMessage>, picks: seq<Pick>, sids: seq<StateExecutionId>)
    requires |picks| == |ms| && IsOrder(sids, AssignAll(e.process.queues, ms, picks).1.Keys)
    requires QueueTx(e, task, ms, picks, sids).Some?
    ensures Settling(e, QueueTx(e, task, ms, picks, sids).value, task)
  {
    var (queues, given) := AssignAll(e.process.queues, ms, picks);
    var e0 := e.(process := e.process.(queues := queues));
    UpdateAssignedRowsEvolves(e0, given, sids);
    var updated := UpdateAssignedRows(e0, given, sids).value;
    assert Grows(e, e0);
    GrowsTwice(e, e0, updated);
    DeletingLast(e, updated, task);
  }

  lemma RpcEvolves(e: Execution, d: StateDecision, publish: seq<PublishedMessage>)
    requires RpcTx(e, d, publish).Some?
    ensures Grows(e, RpcTx(e, d, publish).value)
  {
    if e.process.status.Running? {
      var decided := HandleStateDecision(e, d).value;
      HandleStateDecisionEvolves(e, d);
      PublishEvolves(decided, publish);
      GrowsTwice(e, decided, Publish(decided, publish));
    }
  }

  lemma CommandTimerEvolves(e: Execution, timer: int, sid: StateExecutionId, index: int)
    requires CommandTimerTx(e, timer, sid, index).Some?
    ensures Grows(e, CommandTimerTx(e, timer, sid, index).value)
  {
    if e.states[sid].status.WaitUntilWaiting? {
      var results := e.states[sid].results;
      WithResultsEvolves(e, sid, results.(timers := results.timers[index := true]));
    }
  }

  lemma DeletingEvolves(e: Execution, task: int)
    ensures Settling(e, DeleteImmediate(e, task), task) && Grows(e, DeleteTimer(e, task))
  {
  }

  lemma TerminateEvolves(e: Execution)
    ensures Grows(e, TerminateTx(e))
  {
  }

  lemma StopEvolves(e: Execution, status: ProcessStatus)
    requires !status.Running?
    ensures Grows(e, StopTx(e, status))
  {
  }

  lemma BackoffEvolves(
    e: Execution, task: int, sid: StateExecutionId, kind: WorkerKind, status: StateStatus, version: int,
    failure: Failure, fireTime: int)
    requires BackoffTx(e, task, sid, kind, status, version, failure, fireTime).Some?
    ensures Settling(e, BackoffTx(e, task, sid, kind, status, version, failure, fireTime).value, task)
  {
  }

  lemma ConvertEvolves(e: Execution, timer: int, sid: StateExecutionId, kind: WorkerKind)
    ensures Grows(e, ConvertTx(e, timer, sid, kind))
  {
  }
}
