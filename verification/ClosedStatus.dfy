/** What can still change the status of a closed process, and what makes its aborted states active again. */
module ClosedStatus {
  import opened Wrappers
  import opened StateExecutionIds
  import opened SequenceMaps
  import opened ProcessModel
  import opened Transactions
  import opened Invariants
  import opened ClosingLemmas
  import opened WaitingLemmas
  import opened QueueLemmas
  import opened Sessions
  import opened SessionLemmas
  import opened RunTheorems
  import opened RunFifo
  import opened ClosingTheorems

  // ---------- the status a completing state leaves ----------

  ghost predicate LastPending(maps: SequenceMaps, sid: StateExecutionId) {
    forall other :: IsPending(maps, other) ==> other == sid
  }

  /** A graceful completion, asked for now or before, wins when the last pending state ends and starts no other. */
  ghost function EndStatus(p: ProcessRow, sid: StateExecutionId, d: StateDecision): ProcessStatus {
    var graceful := p.gracefulCompleteRequested || d.close == Some(GracefulComplete);
    if graceful && d.nextStates == [] && LastPending(p.sequenceMaps, sid) then ProcessCompleted
    else
      match d.close
      case Some(ForceComplete) => ProcessCompleted
      case Some(ForceFail) => ProcessFailed
      case _ => p.status
  }

  lemma StartedIsPending(e: Execution, nexts: seq<NextState>)
    requires nexts != [] && StartStates(e, nexts).Some?
    ensures !NonePending(StartStates(e, nexts).value.process.sequenceMaps)
  {
    var last := nexts[|nexts| - 1];
    assert last.stateId in StartStates(e, nexts).value.process.sequenceMaps.pending.Keys;
  }

  lemma CloseEndsAs(e: Execution, started: Execution, sid: StateExecutionId, d: StateDecision)
    requires started.process.status == e.process.status
    requires started.process.gracefulCompleteRequested == e.process.gracefulCompleteRequested
    requires NonePending(started.process.sequenceMaps) <==>
               d.nextStates == [] && LastPending(e.process.sequenceMaps, sid)
    ensures Close(started, d.close).process.status == EndStatus(e.process, sid, d)
  {
  }

  /** Running or closed: the status that completing a state leaves. */
  lemma CompletingEndsAs(e: Execution, p: Prepared, d: StateDecision, publish: seq<PublishedMessage>)
    requires SequencesExact(e) && CompleteExecuteTx(e, p.task, p.sid, p.version, d, publish).Some?
    ensures CompleteExecuteTx(e, p.task, p.sid, p.version, d, publish).value.process.status
         == EndStatus(e.process, p.sid, d)
  {
    hide SequencesExact;
    FinishStateFinishes(e, p.sid, p.version, StateCompleted, None);
    DecisionIsLast(e, p, d, publish);
    hide CompleteExecuteTx, FinishState;
    var finished := FinishState(e, p.sid, p.version, StateCompleted, None).value;
    NothingPendsAfter(e, finished, p.sid, d);
    StartStatesKeepsRows(finished, d.nextStates);
    CloseEndsAs(e, StartStates(finished, d.nextStates).value, p.sid, d);
  }

  lemma NothingPendsAfter(e: Execution, finished: Execution, sid: StateExecutionId, d: StateDecision)
    requires SequencesExact(finished) && StartStates(finished, d.nextStates).Some?
    requires forall other :: IsPending(finished.process.sequenceMaps, other) <==>
               IsPending(e.process.sequenceMaps, other) && other != sid
    ensures NonePending(StartStates(finished, d.nextStates).value.process.sequenceMaps) <==>
              d.nextStates == [] && LastPending(e.process.sequenceMaps, sid)
  {
    if d.nextStates == [] {
      NonePendingIsExact(finished.process.sequenceMaps);
    } else {
      StartedIsPending(finished, d.nextStates);
    }
  }

  /** A state at its prepared version, still pending, ends with a decision that calls for another status. */
  ghost predicate EndsAnew(e: Execution, step: Step) {
    && step.CompleteExecute? && step.p.sid in e.states && e.states[step.p.sid].version == step.p.version
    && IsPending(e.process.sequenceMaps, step.p.sid)
    && EndStatus(e.process, step.p.sid, step.decision) != e.process.status
  }

  lemma ClosedStatusStep(s: Session, step: Step)
    requires SessionInv(s) && Enabled(s, step) && !s.e.process.status.Running?
    ensures Next(s, step).e.process.status != s.e.process.status <==> EndsAnew(s.e, step)
  {
    hide Inv, InvWithin, CompleteExecuteTx, RecoverTx, EndStatus, SequencesExact, PendingMatches;
    InvHasSequences(s.e, s.settled);
    if Commits(s, step) && !TouchesProcess(step) {
      OthersLeaveProcess(s, step);
    } else if step.CompleteExecute? {
      CompleteExecuteStep(s, step.p, step.decision, step.publish);
      if Commits(s, step) {
        CompletingEndsAs(s.e, step.p, step.decision, step.publish);
      }
    } else if Commits(s, step) && step.Recover? {
      RecoverRunsOn(s.e, step.p, step.failure, step.destination);
    }
  }

  /** A closed process changes its status at a step exactly when a state of it ends anew. */
  lemma ClosedStatusChangesIff(states: seq<Session>, steps: seq<Step>, n: nat)
    requires IsRun(states, steps) && n < |steps| && !states[n].e.process.status.Running?
    ensures states[n + 1].e.process.status != states[n].e.process.status <==> EndsAnew(states[n].e, steps[n])
  {
    AlwaysInv(states, steps, n);
    ClosedStatusStep(states[n], steps[n]);
  }

  // ---------- rows that become active again ----------

  /**
   The two ways: the state's own wait-until response with commands, which checks nothing, and a queue
   task that gives the state what completes its request.
   */
  ghost predicate Revives(s: Session, step: Step, sid: StateExecutionId)
    requires Enabled(s, step)
  {
    match step
    case WaitUntil(p, request, _, _, _) => p.sid == sid && !request.waitingType.EmptyCommand?
    case QueueMessages(t, picks, _) =>
      var given := AssignAll(s.e.process.queues, s.e.immediate[t].messages, picks).1;
      && sid in given && sid in s.e.states && Transactions.Known(s.e.messages, given[sid])
      && Completed(s.e.states[sid].request, Grown(s.e, sid, given[sid]))
    case _ => false
  }

  ghost predicate Ended(e: Execution, sid: StateExecutionId) {
    sid in e.states && !IsActive(e.states[sid].status)
  }

  ghost predicate NoneRevived(e: Execution, e': Execution) {
    forall sid :: Ended(e, sid) ==> Ended(e', sid)
  }

  lemma CompletingRevivesNone(e: Execution, p: Prepared, d: StateDecision, publish: seq<PublishedMessage>)
    requires CompleteExecuteTx(e, p.task, p.sid, p.version, d, publish).Some?
    ensures NoneRevived(e, CompleteExecuteTx(e, p.task, p.sid, p.version, d, publish).value)
  {
    DecisionIsLast(e, p, d, publish);
    hide CompleteExecuteTx;
    var finished := FinishState(e, p.sid, p.version, StateCompleted, None).value;
    assert NoneRevived(e, finished);
    hide FinishState;
    DecidingRevivesNone(finished, d);
  }

  lemma DecidingRevivesNone(e: Execution, d: StateDecision)
    requires HandleStateDecision(e, d).Some?
    ensures NoneRevived(e, HandleStateDecision(e, d).value)
  {
    StartStatesKeepsRows(e, d.nextStates);
    var started := StartStates(e, d.nextStates).value;
    assert NoneRevived(started, Close(started, d.close));
  }

  lemma RpcRevivesNone(e: Execution, d: StateDecision, publish: seq<PublishedMessage>)
    requires RpcTx(e, d, publish).Some?
    ensures NoneRevived(e, RpcTx(e, d, publish).value)
  {
    if e.process.status.Running? {
      RpcDecisionIsLast(e, d, publish);
      hide RpcTx, HandleStateDecision;
      DecidingRevivesNone(e, d);
    }
  }

  lemma RecoveringRevivesNone(e: Execution, p: Prepared, failure: Failure, destination: NextState)
    requires RecoverTx(e, p.sid, p.version, failure, destination).Some?
    ensures NoneRevived(e, RecoverTx(e, p.sid, p.version, failure, destination).value)
  {
  }

  lemma FiringRevivesNone(e: Execution, timer: int, sid: StateExecutionId, index: int)
    requires CommandTimerTx(e, timer, sid, index).Some?
    ensures NoneRevived(e, CommandTimerTx(e, timer, sid, index).value)
  {
    hide Completed;
  }

  lemma BackingOffRevivesNone(s: Session, p: Prepared, failure: Failure, fireTime: int)
    requires SessionInv(s) && CalledAny(s, p)
    requires BackoffTx(s.e, p.task, p.sid, p.kind, p.status, p.version, failure, fireTime).Some?
    ensures NoneRevived(s.e, BackoffTx(s.e, p.task, p.sid, p.kind, p.status, p.version, failure, fireTime).value)
  {
    hide Inv;
    assert PreparedRead(s.e, s.settled, p);
  }

  lemma StoppingRevivesNone(e: Execution, status: ProcessStatus, timer: int)
    ensures NoneRevived(e, StopTx(e, status)) && NoneRevived(e, TimeoutTx(e, timer)) && NoneRevived(e, TerminateTx(e))
  {
  }

  lemma OthersReviveNone(s: Session, step: Step)
    requires SessionInv(s) && Enabled(s, step) && Commits(s, step) && LeavesMessages(step)
    ensures NoneRevived(s.e, Effect(s, step).value)
  {
    hide Inv, CompleteExecuteTx, RpcTx, RecoverTx, BackoffTx, CommandTimerTx, TimeoutTx, StopTx, TerminateTx,
      NoneRevived, Ended;
    match step
    case CompleteExecute(p, d, publish) => CompletingRevivesNone(s.e, p, d, publish);
    case Rpc(d, publish) => RpcRevivesNone(s.e, d, publish);
    case Recover(p, failure, destination) => RecoveringRevivesNone(s.e, p, failure, destination);
    case Backoff(p, failure, fireTime) => BackingOffRevivesNone(s, p, failure, fireTime);
    case FireCommand(t) => FiringRevivesNone(s.e, t, s.e.timers[t].sid, s.e.timers[t].index);
    case FireTimeout(t) => StoppingRevivesNone(s.e, ProcessTimeout, t);
    case Stop(status) => StoppingRevivesNone(s.e, status, 0);
    case TerminateIfRunning => StoppingRevivesNone(s.e, ProcessTerminated, 0);
    case Prepare(_) | RecordVisibility(_) | FireBackoff(_) | PublishMessages(_) | OthersTookKeys(_) =>
      SameRowsReviveNone(s.e, Effect(s, step).value);
    case _ =>
  }

  lemma SameRowsReviveNone(e: Execution, e': Execution)
    requires e'.states == e.states
    ensures NoneRevived(e, e')
  {
  }

  lemma WaitChangesItsOwn(
    e: Execution, task: int, sid: StateExecutionId, version: int, request: CommandRequest,
    order: seq<int>, now: Readings, publish: seq<PublishedMessage>)
    requires request.waitingType.EmptyCommand? || OrderFor(e.process.queues, sid, request, order)
    requires WaitUntilTx(e, task, sid, version, request, order, now, publish).Some?
    ensures var e' := WaitUntilTx(e, task, sid, version, request, order, now, publish).value;
      && sid in e.states && sid in e'.states && e'.states == e.states[sid := e'.states[sid]]
      && IsActive(e'.states[sid].status)
  {
    if !request.waitingType.EmptyCommand? {
      UpdateWaitUntilIs(e, sid, request, order, now);
      hide RegisterCommands, AddConsumed, Completed;
    }
  }

  lemma WaitRevives(s: Session, step: Step, sid: StateExecutionId)
    requires SessionInv(s) && Enabled(s, step) && step.WaitUntil? && Ended(s.e, sid)
    ensures !Ended(Next(s, step).e, sid) <==> Revives(s, step, sid)
  {
    hide Inv;
    var p := step.p;
    WaitUntilStep(s, p, step.request, step.order, step.now, step.publish);
    assert PreparedRead(s.e, s.settled, p);
    if Commits(s, step) {
      WaitChangesItsOwn(s.e, p.task, p.sid, p.version, step.request, step.order, step.now, step.publish);
    }
    hide WaitUntilTx;
  }

  lemma HeldRowRevives(e: Execution, e': Execution, a: Assigned, sids: seq<StateExecutionId>, sid: StateExecutionId)
    requires RowsHold(e, e', a, sids) && Ended(e, sid) && (sid in sids <==> sid in a)
    ensures !Ended(e', sid) <==>
              && sid in a && Transactions.Known(e.messages, a[sid])
              && Completed(e.states[sid].request, Grown(e, sid, a[sid]))
  {
    hide Completed, AddConsumed;
  }

  lemma QueueRevives(s: Session, step: Step, sid: StateExecutionId)
    requires SessionInv(s) && Enabled(s, step) && step.QueueMessages? && Ended(s.e, sid)
    ensures !Ended(Next(s, step).e, sid) <==> Revives(s, step, sid)
  {
    var e, ms := s.e, s.e.immediate[step.task].messages;
    assert RegisteredMatch(e);
    hide Inv, SessionInv, QueueTx, AssignAll, RowsHold, Ended, Completed, AddConsumed, RegisteredMatch, ValidPicks;
    QueueStep(s, step.task, step.picks, step.sids);
    GivenRowsExist(e, ms, step.picks);
    var given := AssignAll(e.process.queues, ms, step.picks).1;
    QueueTxRowsHold(e, step.task, ms, step.picks, step.sids);
    HeldRowRevives(e, Next(s, step).e, given, step.sids, sid);
  }

  lemma RevivedStep(s: Session, step: Step, sid: StateExecutionId)
    requires SessionInv(s) && Enabled(s, step) && Ended(s.e, sid)
    ensures !Ended(Next(s, step).e, sid) <==> Revives(s, step, sid)
  {
    if step.WaitUntil? {
      WaitRevives(s, step, sid);
    } else if step.QueueMessages? {
      QueueRevives(s, step, sid);
    } else if Commits(s, step) {
      hide SessionInv, Effect;
      OthersReviveNone(s, step);
    }
  }

  /** Running or closed: a row that is not active becomes active at a step exactly when the step revives it. */
  lemma RevivedIff(states: seq<Session>, steps: seq<Step>, n: nat, sid: StateExecutionId)
    requires IsRun(states, steps) && n < |steps|
    requires sid in states[n].e.states && !IsActive(states[n].e.states[sid].status)
    ensures sid in states[n + 1].e.states
    ensures IsActive(states[n + 1].e.states[sid].status) <==> Revives(states[n], steps[n], sid)
  {
    hide SessionInv, Revives, Enabled, Next;
    AlwaysInv(states, steps, n);
    EvolvesAlong(states, steps, n, n + 1);
    RevivedStep(states[n], steps[n], sid);
  }

  // ---------- until then ----------

  ghost predicate AllEnded(e: Execution) {
    forall sid :: sid in e.states ==> !IsActive(e.states[sid].status)
  }

  /** While nothing is active, whatever runs on leftovers is refused or touches queues alone. */
  lemma QuietStep(s: Session, step: Step)
    requires SessionInv(s) && Enabled(s, step) && !s.e.process.status.Running? && AllEnded(s.e)
    ensures OnlyQueues(s.e, Next(s, step).e)
  {
    hide Inv, CompleteExecuteTx, RecoverTx;
    if Commits(s, step) {
      if !TouchesProcess(step) {
        OthersLeaveProcess(s, step);
      } else if step.CompleteExecute? {
        assert PreparedRead(s.e, s.settled, step.p);
        CompleteExecuteStep(s, step.p, step.decision, step.publish);
      } else if step.Recover? {
        assert PreparedRead(s.e, s.settled, step.p);
        RecoverStep(s, step.p, step.failure, step.destination);
      }
    }
  }

  /** No row is made active again by these steps. */
  ghost predicate Quiet(states: seq<Session>, steps: seq<Step>, i: nat, j: nat)
    requires IsRun(states, steps) && j <= |steps|
  {
    forall k, sid :: i <= k < j && sid in states[k].e.states ==> !Revives(states[k], steps[k], sid)
  }

  lemma {:induction false} QuietStretch(states: seq<Session>, steps: seq<Step>, i: nat, j: nat)
    requires IsRun(states, steps) && i <= j <= |steps| && Quiet(states, steps, i, j)
    requires !states[i].e.process.status.Running? && AllEnded(states[i].e)
    ensures OnlyQueues(states[i].e, states[j].e) && AllEnded(states[j].e)
    ensures states[j].e.states.Keys == states[i].e.states.Keys
    decreases j
  {
    hide SessionInv, Inv, Revives, Enabled, Next;
    if i < j {
      QuietStretch(states, steps, i, j - 1);
      AlwaysInv(states, steps, j - 1);
      AlwaysInv(states, steps, j);
      QuietStep(states[j - 1], steps[j - 1]);
      SameRows(states[j - 1], states[j]);
      forall sid | sid in states[j].e.states ensures !IsActive(states[j].e.states[sid].status) {
        RevivedIff(states, steps, j - 1, sid);
      }
    }
  }

  lemma SameRows(s: Session, s': Session)
    requires SessionInv(s) && SessionInv(s') && OnlyQueues(s.e, s'.e)
    ensures s'.e.states.Keys == s.e.states.Keys
  {
    SameSequencesSameRows(s.e, s.settled, s'.e, s'.settled);
  }

  /**
   However a process closed, it keeps its status, nothing becomes active and nothing starts, until a
   step revives one of its states.
   */
  lemma ClosedUntilRevived(states: seq<Session>, steps: seq<Step>, i: nat, j: nat)
    requires IsRun(states, steps) && i < j <= |steps|
    requires states[i].e.process.status.Running? && !states[i + 1].e.process.status.Running?
    requires Quiet(states, steps, i + 1, j)
    ensures states[j].e.process.status == states[i + 1].e.process.status
    ensures states[j].e.states.Keys == states[i + 1].e.states.Keys
    ensures forall sid :: sid in states[j].e.states ==> !IsActive(states[j].e.states[sid].status)
  {
    ClosingStepEndsRows(states, steps, i);
    QuietStretch(states, steps, i + 1, j);
  }
}
