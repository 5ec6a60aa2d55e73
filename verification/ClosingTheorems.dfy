/** How processes close, and what closed processes stay. */
module ClosingTheorems {
  import opened Wrappers
  import opened StateExecutionIds
  import opened SequenceMaps
  import opened ProcessModel
  import opened Transactions
  import opened Invariants
  import opened StartingLemmas
  import opened ClosingLemmas
  import opened WaitingLemmas
  import opened Evolution
  import opened Sessions
  import opened SessionLemmas
  import opened RunTheorems

  // ---------- steps that leave the process row's status and maps alone ----------

  ghost predicate OnlyQueues(e: Execution, e': Execution) {
    e'.process == e.process.(queues := e'.process.queues)
  }

  lemma {:induction false} UpdateAssignedRowsOnlyQueues(e: Execution, a: Assigned, sids: seq<StateExecutionId>)
    requires (forall sid :: sid in sids ==> sid in a) && UpdateAssignedRows(e, a, sids).Some?
    ensures OnlyQueues(e, UpdateAssignedRows(e, a, sids).value)
  {
    if sids != [] {
      UpdateAssignedRowsOnlyQueues(e, a, sids[..|sids| - 1]);
    }
  }

  lemma WaitUntilOnlyQueues(
    e: Execution, task: int, sid: StateExecutionId, version: int, request: CommandRequest,
    order: seq<int>, now: Readings, publish: seq<PublishedMessage>)
    requires request.waitingType.EmptyCommand? || OrderFor(e.process.queues, sid, request, order)
    requires WaitUntilTx(e, task, sid, version, request, order, now, publish).Some?
    ensures OnlyQueues(e, WaitUntilTx(e, task, sid, version, request, order, now, publish).value)
  {
    if !request.waitingType.EmptyCommand? {
      UpdateWaitUntilIs(e, sid, request, order, now);
      hide RegisterCommands, AddConsumed, Completed;
    }
  }

  /** Only these steps can change a process row's status or pending map. */
  predicate TouchesProcess(step: Step) {
    step.CompleteExecute? || step.Recover? || step.Rpc? || step.Stop? || step.TerminateIfRunning? || step.FireTimeout?
  }

  lemma OthersLeaveProcess(s: Session, step: Step)
    requires Enabled(s, step) && !TouchesProcess(step) && Commits(s, step)
    ensures OnlyQueues(s.e, Effect(s, step).value)
  {
    match step
    case WaitUntil(p, request, order, now, publish) =>
      WaitUntilOnlyQueues(s.e, p.task, p.sid, p.version, request, order, now, publish);
    case QueueMessages(t, picks, sids) =>
      var (queues, given) := AssignAll(s.e.process.queues, s.e.immediate[t].messages, picks);
      UpdateAssignedRowsOnlyQueues(s.e.(process := s.e.process.(queues := queues)), given, sids);
    case _ =>
  }

  // ---------- closed processes ----------

  /** Closed by any way but TERMINATE_IF_RUNNING. */
  predicate ClosedWithoutPending(e: Execution) {
    !e.process.status.Running? && NonePending(e.process.sequenceMaps)
  }

  lemma ClosedWithoutPendingStep(s: Session, step: Step)
    requires SessionInv(s) && Enabled(s, step) && ClosedWithoutPending(s.e)
    ensures OnlyQueues(s.e, Next(s, step).e)
  {
    hide Inv, CompleteExecuteTx, RecoverTx;
    assert SequencesExact(s.e) by { InvHasSequences(s.e, s.settled); }
    NonePendingIsExact(s.e.process.sequenceMaps);
    if Commits(s, step) {
      if !TouchesProcess(step) {
        OthersLeaveProcess(s, step);
      } else if step.CompleteExecute? {
        CompleteExecuteStep(s, step.p, step.decision, step.publish);
      } else if step.Recover? {
        RecoverStep(s, step.p, step.failure, step.destination);
      }
    }
  }

  lemma InvHasSequences(e: Execution, settled: set<int>)
    requires Inv(e, settled)
    ensures SequencesExact(e) && PendingMatches(e) && InvWithin(e, settled, None)
  {
  }

  lemma SameSequencesSameRows(e: Execution, settled: set<int>, e': Execution, settled': set<int>)
    requires Inv(e, settled) && Inv(e', settled') && e'.process.sequenceMaps == e.process.sequenceMaps
    ensures e'.states.Keys == e.states.Keys
  {
    assert SequencesExact(e) && SequencesExact(e');
  }

  /**
   Closed stays closed.  A process closed without pending states keeps its status and its pending map,
   and no state of it is ever started any more, whatever runs on leftovers.
   */
  lemma {:induction false} ClosedStaysClosed(states: seq<Session>, steps: seq<Step>, i: nat, j: nat)
    requires IsRun(states, steps) && i <= j <= |steps| && !states[i].e.process.status.Running?
    ensures !states[j].e.process.status.Running?
    ensures ClosedWithoutPending(states[i].e) ==>
              OnlyQueues(states[i].e, states[j].e) && states[j].e.states.Keys == states[i].e.states.Keys
    decreases j
  {
    hide Inv, Effect, Enabled, Next;
    EvolvesAlong(states, steps, i, j);
    if i < j {
      ClosedStaysClosed(states, steps, i, j - 1);
      if ClosedWithoutPending(states[i].e) {
        AlwaysInv(states, steps, j - 1);
        AlwaysInv(states, steps, j);
        ClosedWithoutPendingStep(states[j - 1], steps[j - 1]);
        SameSequencesSameRows(states[j - 1].e, states[j - 1].settled, states[j].e, states[j].settled);
      }
    }
  }

  // ---------- the closing step ----------

  /** Rows that were active are aborted at a later version, except the one that completed; the others are untouched. */
  ghost predicate RowsEnded(e: Execution, e': Execution, completed: Option<StateExecutionId>) {
    && (forall sid :: sid in e'.states ==> !IsActive(e'.states[sid].status))
    && (forall sid :: sid in e.states ==>
          && sid in e'.states
          && (completed == Some(sid) ==> e'.states[sid].status.StateCompleted?)
          && (completed != Some(sid) && IsActive(e.states[sid].status) ==>
                e'.states[sid].status.StateAborted? && e'.states[sid].version == e.states[sid].version + 1)
          && (completed != Some(sid) && !IsActive(e.states[sid].status) ==> e'.states[sid] == e.states[sid]))
  }

  lemma CloseEnds(e: Execution, close: Option<CloseType>)
    requires e.process.status.Running? && PendingMatches(e) && SequencesExact(e)
    requires !Close(e, close).process.status.Running?
    ensures NonePending(Close(e, close).process.sequenceMaps) && RowsEnded(e, Close(e, close), None)
  {
    NonePendingIsExact(e.process.sequenceMaps);
  }

  lemma {:induction false} StartStatesKeepsRows(e: Execution, nexts: seq<NextState>)
    requires StartStates(e, nexts).Some?
    ensures var e' := StartStates(e, nexts).value;
      && (forall sid :: sid in e.states ==> sid in e'.states && e'.states[sid] == e.states[sid])
      && e'.process.status == e.process.status
      && e'.process.gracefulCompleteRequested == e.process.gracefulCompleteRequested
  {
    if nexts != [] {
      StartStatesKeepsRows(e, nexts[..|nexts| - 1]);
    }
  }

  lemma DecisionEnds(e: Execution, d: StateDecision, settled: set<int>, busy: Option<int>)
    requires InvWithin(e, settled, busy) && (forall t :: t in settled ==> t < e.next)
    requires e.process.status.Running? && HandleStateDecision(e, d).Some?
    requires !HandleStateDecision(e, d).value.process.status.Running?
    ensures var e' := HandleStateDecision(e, d).value;
      NonePending(e'.process.sequenceMaps) && RowsEnded(e, e', None)
  {
    StartStatesKeeps(e, d.nextStates, settled, busy);
    StartStatesKeepsRows(e, d.nextStates);
    var started := StartStates(e, d.nextStates).value;
    CloseEnds(started, d.close);
  }

  /** Finishing one state and then ending the rows is ending them all but that one. */
  lemma FinishingFirst(e: Execution, finished: Execution, e': Execution, sid: StateExecutionId)
    requires Finished(e, finished, sid, StateCompleted) && RowsEnded(finished, e', None)
    ensures RowsEnded(e, e', Some(sid))
  {
  }

  /** After the decision only messages and tasks are written. */
  lemma DecisionIsLast(e: Execution, p: Prepared, d: StateDecision, publish: seq<PublishedMessage>)
    requires CompleteExecuteTx(e, p.task, p.sid, p.version, d, publish).Some?
    ensures var finished := FinishState(e, p.sid, p.version, StateCompleted, None);
      && finished.Some? && HandleStateDecision(finished.value, d).Some?
      && var decided, e' :=
           HandleStateDecision(finished.value, d).value,
           CompleteExecuteTx(e, p.task, p.sid, p.version, d, publish).value;
      e'.process == decided.process && e'.states == decided.states
  {
    hide FinishState, HandleStateDecision;
  }

  lemma CompletingEnds(
    e: Execution, p: Prepared, d: StateDecision, publish: seq<PublishedMessage>, settled: set<int>, kind: WorkerKind)
    requires Inv(e, settled) && Working(e, settled, p.task, p.sid, kind) && (forall t :: t in settled ==> t < e.next)
    requires e.process.status.Running? && CompleteExecuteTx(e, p.task, p.sid, p.version, d, publish).Some?
    requires !CompleteExecuteTx(e, p.task, p.sid, p.version, d, publish).value.process.status.Running?
    ensures var e' := CompleteExecuteTx(e, p.task, p.sid, p.version, d, publish).value;
      NonePending(e'.process.sequenceMaps) && RowsEnded(e, e', Some(p.sid))
  {
    var finished := FinishState(e, p.sid, p.version, StateCompleted, None).value;
    FinishingGives(e, p, settled, kind);
    DecisionIsLast(e, p, d, publish);
    hide Inv, InvWithin, PendingMatches, CompleteExecuteTx, FinishState, HandleStateDecision, RowsEnded;
    var decided := HandleStateDecision(finished, d).value;
    DecisionEnds(finished, d, settled + {p.task}, Some(p.task));
    FinishingFirst(e, finished, decided, p.sid);
    SameRowsEnded(e, decided, CompleteExecuteTx(e, p.task, p.sid, p.version, d, publish).value, Some(p.sid));
  }

  lemma FinishingGives(e: Execution, p: Prepared, settled: set<int>, kind: WorkerKind)
    requires Inv(e, settled) && Working(e, settled, p.task, p.sid, kind) && (forall t :: t in settled ==> t < e.next)
    requires FinishState(e, p.sid, p.version, StateCompleted, None).Some?
    ensures var finished := FinishState(e, p.sid, p.version, StateCompleted, None).value;
      && Finished(e, finished, p.sid, StateCompleted)
      && InvWithin(finished, settled + {p.task}, Some(p.task))
      && (forall t :: t in settled + {p.task} ==> t < finished.next)
  {
    InvHasSequences(e, settled);
    TaskIsOld(e, settled, p.task);
    hide Inv, InvWithin, PendingMatches;
    FinishStateFinishes(e, p.sid, p.version, StateCompleted, None);
    FinishStateKeeps(e, p.sid, p.version, StateCompleted, None, settled, p.task, kind);
  }

  lemma SameRowsEnded(e: Execution, e1: Execution, e2: Execution, completed: Option<StateExecutionId>)
    requires RowsEnded(e, e1, completed) && e2.states == e1.states
    ensures RowsEnded(e, e2, completed)
  {
  }

  lemma TaskIsOld(e: Execution, settled: set<int>, t: int)
    requires Inv(e, settled) && t in e.immediate
    ensures t < e.next
  {
  }

  lemma StoppingEnds(e: Execution, status: ProcessStatus)
    requires e.process.status.Running? && !status.Running? && PendingMatches(e) && SequencesExact(e)
    ensures NonePending(StopTx(e, status).process.sequenceMaps) && RowsEnded(e, StopTx(e, status), None)
  {
    NonePendingIsExact(e.process.sequenceMaps);
  }

  lemma TerminatingEnds(e: Execution)
    ensures RowsEnded(e, TerminateTx(e), None)
  {
  }

  function CompletedBy(step: Step): Option<StateExecutionId> {
    if step.CompleteExecute? then Some(step.p.sid) else None
  }

  /**
   The step that closes a process leaves no row active: it aborts the active ones but the one it
   completes.  Unless it is TERMINATE_IF_RUNNING it leaves nothing pending either.
   */
  lemma ClosingStepEndsRows(states: seq<Session>, steps: seq<Step>, n: nat)
    requires IsRun(states, steps) && n < |steps|
    requires states[n].e.process.status.Running? && !states[n + 1].e.process.status.Running?
    ensures RowsEnded(states[n].e, states[n + 1].e, CompletedBy(steps[n]))
    ensures NonePending(states[n + 1].e.process.sequenceMaps) <== !steps[n].TerminateIfRunning?
  {
    AlwaysInv(states, steps, n);
    StepEnds(states[n], steps[n]);
  }

  lemma CompleteExecuteEnds(s: Session, p: Prepared, d: StateDecision, publish: seq<PublishedMessage>)
    requires SessionInv(s) && s.e.process.status.Running? && Called(s, p, ExecuteRunning)
    requires var r := CompleteExecuteTx(s.e, p.task, p.sid, p.version, d, publish);
      r.Some? && !r.value.process.status.Running?
    ensures var e' := CompleteExecuteTx(s.e, p.task, p.sid, p.version, d, publish).value;
      NonePending(e'.process.sequenceMaps) && RowsEnded(s.e, e', Some(p.sid))
  {
    hide Inv, CompleteExecuteTx;
    CompleteExecuteStep(s, p, d, publish);
    LiveTaskWorks(s, p);
    CompletingEnds(s.e, p, d, publish, s.settled, p.kind);
  }

  lemma RpcEnds(s: Session, d: StateDecision, publish: seq<PublishedMessage>)
    requires SessionInv(s) && s.e.process.status.Running?
    requires RpcTx(s.e, d, publish).Some? && !RpcTx(s.e, d, publish).value.process.status.Running?
    ensures var e' := RpcTx(s.e, d, publish).value; NonePending(e'.process.sequenceMaps) && RowsEnded(s.e, e', None)
  {
    InvHasSequences(s.e, s.settled);
    RpcDecisionIsLast(s.e, d, publish);
    hide Inv, InvWithin, RpcTx, HandleStateDecision, RowsEnded, PendingMatches;
    DecisionEnds(s.e, d, s.settled, None);
    SameRowsEnded(s.e, HandleStateDecision(s.e, d).value, RpcTx(s.e, d, publish).value, None);
  }

  lemma RpcDecisionIsLast(e: Execution, d: StateDecision, publish: seq<PublishedMessage>)
    requires e.process.status.Running? && RpcTx(e, d, publish).Some?
    ensures HandleStateDecision(e, d).Some?
    ensures var decided, e' := HandleStateDecision(e, d).value, RpcTx(e, d, publish).value;
      e'.process == decided.process && e'.states == decided.states
  {
    hide HandleStateDecision;
  }

  lemma RecoverRunsOn(e: Execution, p: Prepared, failure: Failure, destination: NextState)
    requires RecoverTx(e, p.sid, p.version, failure, destination).Some?
    ensures RecoverTx(e, p.sid, p.version, failure, destination).value.process.status == e.process.status
  {
  }

  lemma StepEnds(s: Session, step: Step)
    requires SessionInv(s) && Enabled(s, step)
    requires s.e.process.status.Running? && !Next(s, step).e.process.status.Running?
    ensures RowsEnded(s.e, Next(s, step).e, CompletedBy(step))
    ensures NonePending(Next(s, step).e.process.sequenceMaps) <== !step.TerminateIfRunning?
  {
    hide Inv, InvWithin, RowsEnded, CompleteExecuteTx, RpcTx, RecoverTx, TerminateTx, StopTx, TimeoutTx, NonePending,
      PendingMatches, SequencesExact;
    InvHasSequences(s.e, s.settled);
    if !TouchesProcess(step) {
      OthersLeaveProcess(s, step);
    } else {
      match step
      case CompleteExecute(p, d, publish) => CompleteExecuteEnds(s, p, d, publish);
      case Recover(p, failure, destination) => RecoverRunsOn(s.e, p, failure, destination);
      case Rpc(d, publish) => RpcEnds(s, d, publish);
      case Stop(status) => StoppingEnds(s.e, status);
      case FireTimeout(t) => TimingOutEnds(s.e, t);
      case TerminateIfRunning => TerminatingEnds(s.e);
    }
  }

  lemma TimingOutEnds(e: Execution, timer: int)
    requires e.process.status.Running? && PendingMatches(e) && SequencesExact(e)
    ensures NonePending(TimeoutTx(e, timer).process.sequenceMaps) && RowsEnded(e, TimeoutTx(e, timer), None)
  {
    StoppingEnds(e, ProcessTimeout);
  }

  // ---------- graceful completion ----------

  /**
   Once graceful completion was requested, the step that takes the last pending state out closes the
   process as completed, even when that state asks to fail the process.
   */
  lemma GracefulWins(states: seq<Session>, steps: seq<Step>, n: nat)
    requires IsRun(states, steps) && n < |steps| && states[n].e.process.status.Running?
    requires states[n].e.process.gracefulCompleteRequested
    requires steps[n].CompleteExecute? && Commits(states[n], steps[n]) && steps[n].decision.nextStates == []
    requires forall sid :: IsPending(states[n].e.process.sequenceMaps, sid) ==> sid == steps[n].p.sid
    ensures states[n + 1].e.process.status.ProcessCompleted?
  {
    hide Inv, CompleteExecuteTx;
    AlwaysInv(states, steps, n);
    var s, p := states[n], steps[n].p;
    assert SequencesExact(s.e) by { InvHasSequences(s.e, s.settled); }
    LastStateCompletes(s.e, p, steps[n].decision, steps[n].publish);
  }

  lemma LastStateCompletes(e: Execution, p: Prepared, d: StateDecision, publish: seq<PublishedMessage>)
    requires SequencesExact(e) && e.process.status.Running? && e.process.gracefulCompleteRequested
    requires forall sid :: IsPending(e.process.sequenceMaps, sid) ==> sid == p.sid
    requires d.nextStates == [] && CompleteExecuteTx(e, p.task, p.sid, p.version, d, publish).Some?
    ensures CompleteExecuteTx(e, p.task, p.sid, p.version, d, publish).value.process.status.ProcessCompleted?
  {
    FinishStateFinishes(e, p.sid, p.version, StateCompleted, None);
    var finished := FinishState(e, p.sid, p.version, StateCompleted, None).value;
    NonePendingIsExact(finished.process.sequenceMaps);
    assert HandleStateDecision(finished, d) == Some(Close(finished, d.close));
  }

  // ---------- recording the status ----------

  /** A new task will record the process's status in the visibility store. */
  ghost predicate Recorded(e: Execution, e': Execution) {
    exists t :: e.next <= t && t in e'.immediate && e'.immediate[t] == VisibilityTask(e'.process.status)
  }

  /** No task from key `from` on is a visibility task. */
  ghost predicate NoneRecorded(e: Execution, from: int) {
    forall t :: from <= t && t in e.immediate ==> !e.immediate[t].VisibilityTask?
  }

  lemma {:induction false} StartStatesRecordsNothing(e: Execution, nexts: seq<NextState>, from: int)
    requires NoneRecorded(e, from) && StartStates(e, nexts).Some?
    ensures NoneRecorded(StartStates(e, nexts).value, from)
  {
    if nexts != [] {
      StartStatesRecordsNothing(e, nexts[..|nexts| - 1], from);
    }
  }

  lemma RpcRecordsNothing(e: Execution, d: StateDecision, publish: seq<PublishedMessage>)
    requires Keyed(e) && RpcTx(e, d, publish).Some?
    ensures !Recorded(e, RpcTx(e, d, publish).value)
  {
    assert NoneRecorded(e, e.next);
    if e.process.status.Running? {
      StartStatesRecordsNothing(e, d.nextStates, e.next);
      assert NoneRecorded(RpcTx(e, d, publish).value, e.next);
    }
  }

  lemma CompletingRecords(e: Execution, p: Prepared, d: StateDecision, publish: seq<PublishedMessage>)
    requires Keyed(e) && p.task in e.immediate && CompleteExecuteTx(e, p.task, p.sid, p.version, d, publish).Some?
    ensures var e' := CompleteExecuteTx(e, p.task, p.sid, p.version, d, publish).value;
      !e'.process.status.Running? ==> Recorded(e, e')
  {
    var finished := FinishState(e, p.sid, p.version, StateCompleted, None).value;
    var decided := HandleStateDecision(finished, d).value;
    HandleStateDecisionEvolves(finished, d);
    PublishEvolves(decided, publish);
    var published := Publish(decided, publish);
    var e' := CompleteExecuteTx(e, p.task, p.sid, p.version, d, publish).value;
    assert e' == DeleteImmediate(RecordIfClosed(published), p.task);
    if !e'.process.status.Running? {
      assert e'.immediate[published.next] == VisibilityTask(e'.process.status);
    }
  }

  lemma StoppingRecords(e: Execution, status: ProcessStatus, timer: int)
    requires e.process.status.Running? && !status.Running?
    ensures Recorded(e, StopTx(e, status)) && Recorded(e, TimeoutTx(e, timer)) && Recorded(e, TerminateTx(e))
  {
    assert StopTx(e, status).immediate[e.next] == VisibilityTask(status);
    assert TimeoutTx(e, timer).immediate[e.next] == VisibilityTask(ProcessTimeout);
    assert TerminateTx(e).immediate[e.next] == VisibilityTask(ProcessTerminated);
  }

  /** Closing a process records its terminal status, unless a remote procedure call closes it. */
  lemma ClosingIsRecordedIffNotRpc(states: seq<Session>, steps: seq<Step>, n: nat)
    requires IsRun(states, steps) && n < |steps|
    requires states[n].e.process.status.Running? && !states[n + 1].e.process.status.Running?
    ensures Recorded(states[n].e, states[n + 1].e) <==> !steps[n].Rpc?
  {
    AlwaysInv(states, steps, n);
    ClosingStepRecords(states[n], steps[n]);
  }

  lemma InvHasKeys(e: Execution, settled: set<int>)
    requires Inv(e, settled)
    ensures Keyed(e)
  {
  }

  lemma CompletedRecords(s: Session, p: Prepared, d: StateDecision, publish: seq<PublishedMessage>)
    requires SessionInv(s) && Called(s, p, ExecuteRunning)
    requires CompleteExecuteTx(s.e, p.task, p.sid, p.version, d, publish).Some?
    ensures var e' := CompleteExecuteTx(s.e, p.task, p.sid, p.version, d, publish).value;
      !e'.process.status.Running? ==> Recorded(s.e, e')
  {
    hide Inv, CompleteExecuteTx, Recorded;
    InvHasKeys(s.e, s.settled);
    CompleteExecuteStep(s, p, d, publish);
    LiveTaskWorks(s, p);
    CompletingRecords(s.e, p, d, publish);
  }

  lemma ClosingStepRecords(s: Session, step: Step)
    requires SessionInv(s) && Enabled(s, step)
    requires s.e.process.status.Running? && !Next(s, step).e.process.status.Running?
    ensures Recorded(s.e, Next(s, step).e) <==> !step.Rpc?
  {
    hide Inv, CompleteExecuteTx, RpcTx, RecoverTx, TerminateTx, StopTx, TimeoutTx, Keyed, Recorded;
    InvHasKeys(s.e, s.settled);
    if !TouchesProcess(step) {
      OthersLeaveProcess(s, step);
    } else {
      match step
      case CompleteExecute(p, d, publish) => CompletedRecords(s, p, d, publish);
      case Recover(p, failure, destination) => RecoverRunsOn(s.e, p, failure, destination);
      case Rpc(d, publish) => RpcRecordsNothing(s.e, d, publish);
      case Stop(status) => StoppingRecords(s.e, status, 0);
      case FireTimeout(t) => StoppingRecords(s.e, ProcessTimeout, t);
      case TerminateIfRunning => StoppingRecords(s.e, ProcessTerminated, 0);
    }
  }
}
