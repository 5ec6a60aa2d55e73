/** No state leaves its wait before it has what it waited for. */
module EarningLemmas {
  import opened Wrappers
  import opened StateExecutionIds
  import opened LocalQueues
  import opened ProcessModel
  import opened Transactions
  import opened WaitingLemmas

  /** A row that neither waits nor was aborted has what its request asked for; no request asks for nothing. */
  predicate RowEarned(row: StateRow) {
    row.status.WaitUntilWaiting? || row.status.StateAborted? || Completed(row.request, row.results)
  }

  ghost predicate Earned(e: Execution) {
    e.process.status.Running? ==> forall sid :: sid in e.states ==> RowEarned(e.states[sid])
  }

  lemma {:induction false} StartStatesEarns(e: Execution, nexts: seq<NextState>)
    requires Earned(e) && StartStates(e, nexts).Some?
    ensures Earned(StartStates(e, nexts).value)
  {
    if nexts != [] {
      StartStatesEarns(e, nexts[..|nexts| - 1]);
    }
  }

  lemma HandleStateDecisionEarns(e: Execution, d: StateDecision)
    requires Earned(e) && HandleStateDecision(e, d).Some?
    ensures Earned(HandleStateDecision(e, d).value)
  {
    StartStatesEarns(e, d.nextStates);
  }

  /** The row keeps its request and results, and was not waiting. */
  lemma FencedEarns(
    e: Execution, sid: StateExecutionId, version: int, status: StateStatus, failure: Option<Failure>)
    requires Earned(e) && UpdateWithoutCommands(e, sid, version, status, failure).Some?
    requires e.states[sid].status.WaitUntilRunning? || e.states[sid].status.ExecuteRunning?
    ensures Earned(UpdateWithoutCommands(e, sid, version, status, failure).value)
  {
    assert e.process.status.Running? ==> RowEarned(e.states[sid]);
  }

  lemma CompleteExecuteEarns(
    e: Execution, task: int, sid: StateExecutionId, version: int, d: StateDecision, publish: seq<PublishedMessage>)
    requires Earned(e) && CompleteExecuteTx(e, task, sid, version, d, publish).Some?
    requires e.states[sid].status.WaitUntilRunning? || e.states[sid].status.ExecuteRunning?
    ensures Earned(CompleteExecuteTx(e, task, sid, version, d, publish).value)
  {
    FencedEarns(e, sid, version, StateCompleted, None);
    HandleStateDecisionEarns(FinishState(e, sid, version, StateCompleted, None).value, d);
  }

  lemma RecoverEarns(e: Execution, sid: StateExecutionId, version: int, failure: Failure, destination: NextState)
    requires Earned(e) && RecoverTx(e, sid, version, failure, destination).Some?
    requires e.states[sid].status.WaitUntilRunning? || e.states[sid].status.ExecuteRunning?
    ensures Earned(RecoverTx(e, sid, version, failure, destination).value)
  {
    FencedEarns(e, sid, version, StateFailed, Some(failure));
  }

  lemma BackoffEarns(
    e: Execution, task: int, sid: StateExecutionId, kind: WorkerKind, status: StateStatus, version: int,
    failure: Failure, fireTime: int)
    requires Earned(e) && BackoffTx(e, task, sid, kind, status, version, failure, fireTime).Some?
    requires e.states[sid].status.WaitUntilRunning? || e.states[sid].status.ExecuteRunning?
    ensures Earned(BackoffTx(e, task, sid, kind, status, version, failure, fireTime).value)
  {
    FencedEarns(e, sid, version, status, Some(failure));
  }

  lemma RowWaitsEarns(
    e: Execution, sid: StateExecutionId, request: CommandRequest, queues: Queues, results: CommandResults)
    requires Earned(e) && sid in e.states
    ensures Earned(RowWaits(e, sid, request, queues, results))
  {
  }

  lemma WaitUntilEarns(
    e: Execution, task: int, sid: StateExecutionId, version: int, request: CommandRequest,
    order: seq<int>, now: Readings, publish: seq<PublishedMessage>)
    requires request.waitingType.EmptyCommand? || OrderFor(e.process.queues, sid, request, order)
    requires Earned(e) && WaitUntilTx(e, task, sid, version, request, order, now, publish).Some?
    requires e.states[sid].version == version ==> e.states[sid].status.WaitUntilRunning?
    ensures Earned(WaitUntilTx(e, task, sid, version, request, order, now, publish).value)
  {
    if request.waitingType.EmptyCommand? {
      FencedEarns(e, sid, version, ExecuteRunning, None);
    } else {
      var (queues, consumed) := RegisterCommands(e.process.queues, sid, request, order);
      UpdateWaitUntilIs(e, sid, request, order, now);
      RowWaitsEarns(e, sid, request, queues, AddConsumed(e.messages, e.states[sid].results, consumed));
      hide RowWaits, RegisterCommands, AddConsumed;
    }
  }

  lemma WithResultsEarns(e: Execution, sid: StateExecutionId, results: CommandResults)
    requires Earned(e) && sid in e.states
    requires e.process.status.Running? ==> e.states[sid].status.WaitUntilWaiting?
    ensures Earned(WithResults(e, sid, results))
    ensures forall s :: s in WithResults(e, sid, results).states <==> s in e.states
    ensures forall s :: s in e.states && s != sid ==> WithResults(e, sid, results).states[s] == e.states[s]
    ensures WithResults(e, sid, results).process.status == e.process.status
  {
  }

  lemma {:induction false} UpdateAssignedRowsEarns(e: Execution, a: Assigned, sids: seq<StateExecutionId>)
    requires Earned(e) && (forall sid :: sid in sids ==> sid in a) && UpdateAssignedRows(e, a, sids).Some?
    requires forall i, j :: 0 <= i < j < |sids| ==> sids[i] != sids[j]
    requires e.process.status.Running? ==>
               forall sid :: sid in sids ==> sid in e.states && e.states[sid].status.WaitUntilWaiting?
    ensures var e' := UpdateAssignedRows(e, a, sids).value;
      && Earned(e')
      && e'.process.status == e.process.status
      && (forall s :: s in e'.states <==> s in e.states)
      && (forall s :: s in e.states && s !in sids ==> e'.states[s] == e.states[s])
  {
    if sids != [] {
      var front, last := sids[..|sids| - 1], sids[|sids| - 1];
      assert last !in front;
      UpdateAssignedRowsEarns(e, a, front);
      var e1 := UpdateAssignedRows(e, a, front).value;
      WithResultsEarns(e1, last, AddConsumed(e1.messages, e1.states[last].results, a[last]));
    }
  }

  lemma QueueEarns(
    e: Execution, task: int, ms: seq<QueuedMessage>, picks: seq<Pick>, sids: seq<StateExecutionId>)
    requires |picks| == |ms| && IsOrder(sids, AssignAll(e.process.queues, ms, picks).1.Keys)
    requires Earned(e) && QueueTx(e, task, ms, picks, sids).Some?
    requires e.process.status.Running? ==>
               forall sid :: sid in sids ==> sid in e.states && e.states[sid].status.WaitUntilWaiting?
    ensures Earned(QueueTx(e, task, ms, picks, sids).value)
  {
    var (queues, given) := AssignAll(e.process.queues, ms, picks);
    UpdateAssignedRowsEarns(e.(process := e.process.(queues := queues)), given, sids);
  }

  lemma RpcEarns(e: Execution, d: StateDecision, publish: seq<PublishedMessage>)
    requires Earned(e) && RpcTx(e, d, publish).Some?
    ensures Earned(RpcTx(e, d, publish).value)
  {
    if e.process.status.Running? {
      HandleStateDecisionEarns(e, d);
    }
  }

  lemma CommandTimerEarns(e: Execution, timer: int, sid: StateExecutionId, index: int)
    requires Earned(e) && CommandTimerTx(e, timer, sid, index).Some?
    ensures Earned(CommandTimerTx(e, timer, sid, index).value)
  {
    if e.states[sid].status.WaitUntilWaiting? {
      var results := e.states[sid].results;
      WithResultsEarns(e, sid, results.(timers := results.timers[index := true]));
    }
  }

  lemma StopEarns(e: Execution, status: ProcessStatus, timer: int)
    requires Earned(e) && !status.Running?
    ensures Earned(StopTx(e, status)) && Earned(TerminateTx(e)) && Earned(TimeoutTx(e, timer))
  {
  }

  lemma StartExecutionEarns(next: int, start: Option<NextState>, timeout: Option<int>)
    ensures Earned(StartExecution(next, start, timeout))
  {
  }
}
