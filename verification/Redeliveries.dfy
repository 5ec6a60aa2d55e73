/**
 Runs in which a task or timer may be processed again after its row has left the table: by a second holder,
 or put back after an error that hid its success.  Preparing reads the state's row alone, and deleting a
 row that is gone succeeds, so nothing stops it but the version fence.
 */
module Redeliveries {
  import opened Wrappers
  import opened StateExecutionIds
  import opened LocalQueues
  import opened SequenceMaps
  import opened ProcessModel
  import opened Transactions
  import opened Invariants
  import opened StartingLemmas
  import opened ClosingLemmas
  import opened Evolution
  import opened Sessions
  import opened ClosingTheorems
  import opened ClosedStatus
  import opened RedeliveredMessages

  /** A session, and every task and timer that was ever in its tables: what somebody may still hold. */
  datatype Held = Held(s: Session, tasks: map<int, ImmediateTask>, timers: map<int, TimerTask>)

  /** A step as before, or one more delivery of what is held.  Recording a visibility task again changes nothing. */
  datatype Delivery =
    | Once(step: Step)
    | PrepareAgain(task: int)
    | RespondAgain(p: Prepared, request: CommandRequest, order: seq<int>, now: Readings, publish: seq<PublishedMessage>)
    | QueueAgain(task: int, picks: seq<Pick>, sids: seq<StateExecutionId>)
    | FireCommandAgain(timer: int)
    | FireBackoffAgain(timer: int)
    | FireTimeoutAgain(timer: int)

  /** The guards are those of the steps, but what is delivered need not be in the table, nor its task unsettled. */
  ghost predicate MayDeliver(h: Held, d: Delivery) {
    var queues := h.s.e.process.queues;
    match d
    case Once(step) => Enabled(h.s, step)
    case PrepareAgain(t) => t in h.tasks && h.tasks[t].WorkerTask? && h.tasks[t].sid in h.s.e.states
    case RespondAgain(p, request, order, _, _) =>
      && Called(h.s, p, WaitUntilRunning)
      && !request.waitingType.EmptyCommand? && OrderFor(queues, p.sid, request, order)
    case QueueAgain(t, picks, sids) =>
      && t in h.tasks && h.tasks[t].QueueTask?
      && ValidPicks(queues, h.tasks[t].messages, picks)
      && IsOrder(sids, AssignAll(queues, h.tasks[t].messages, picks).1.Keys)
    case FireCommandAgain(t) => t in h.timers && h.timers[t].CommandTimer?
    case FireBackoffAgain(t) => t in h.timers && h.timers[t].BackoffTimer?
    case FireTimeoutAgain(t) => t in h.timers && h.timers[t].TimeoutTimer?
  }

  ghost function Outcome(h: Held, d: Delivery): Option<Execution>
    requires MayDeliver(h, d)
  {
    var e := h.s.e;
    match d
    case Once(step) => Effect(h.s, step)
    case PrepareAgain(_) => Some(e)
    case RespondAgain(p, request, order, now, publish) =>
      WaitUntilTx(e, p.task, p.sid, p.version, request, order, now, publish)
    case QueueAgain(t, picks, sids) => QueueTx(e, t, h.tasks[t].messages, picks, sids)
    case FireCommandAgain(t) => CommandTimerTx(e, t, h.timers[t].sid, h.timers[t].index)
    case FireBackoffAgain(t) => Some(ConvertTx(e, t, h.timers[t].sid, h.timers[t].kind))
    case FireTimeoutAgain(t) => Some(TimeoutTx(e, t))
  }

  function ReadAgain(h: Held, t: int): Prepared
    requires t in h.tasks && h.tasks[t].WorkerTask? && h.tasks[t].sid in h.s.e.states
  {
    var row := h.s.e.states[h.tasks[t].sid];
    Prepared(t, h.tasks[t].kind, h.tasks[t].sid, row.status, row.version)
  }

  ghost function SessionAfter(h: Held, d: Delivery): Session
    requires MayDeliver(h, d)
  {
    match Outcome(h, d)
    case None => h.s
    case Some(e) =>
      match d
      case Once(step) => Next(h.s, step)
      case PrepareAgain(t) => h.s.(preps := h.s.preps + {ReadAgain(h, t)})
      case RespondAgain(p, _, _, _, _) => Session(e, h.s.settled + {p.task}, h.s.preps)
      case _ => h.s.(e := e)
  }

  /** Keys are never handed out twice, so a key names one task or timer for ever. */
  ghost function AfterDelivery(h: Held, d: Delivery): Held
    requires MayDeliver(h, d)
  {
    var s := SessionAfter(h, d);
    Held(s, h.tasks + s.e.immediate, h.timers + s.e.timers)
  }

  ghost predicate IsDeliveryRun(helds: seq<Held>, ds: seq<Delivery>) {
    && |helds| == |ds| + 1
    && (exists next, start, timeout :: helds[0].s == Start(next, start, timeout))
    && helds[0].tasks == helds[0].s.e.immediate && helds[0].timers == helds[0].s.e.timers
    && forall n :: 0 <= n < |ds| ==> MayDeliver(helds[n], ds[n]) && helds[n + 1] == AfterDelivery(helds[n], ds[n])
  }

  // ---------- what holds however often things are delivered ----------

  /** A read is of the task that is held, and not ahead of its row. */
  ghost predicate HeldRead(h: Held, p: Prepared) {
    && p.task in h.tasks && h.tasks[p.task] == WorkerTask(p.kind, p.sid)
    && p.sid in h.s.e.states && p.version <= h.s.e.states[p.sid].version
    && (p.version == h.s.e.states[p.sid].version ==> p.status == h.s.e.states[p.sid].status)
  }

  ghost predicate HeldInv(h: Held) {
    && SequencesExact(h.s.e)
    && (forall t :: t in h.s.e.immediate ==> t in h.tasks && h.tasks[t] == h.s.e.immediate[t])
    && (forall t :: t in h.tasks ==> t < h.s.e.next)
    && (forall p :: p in h.s.preps ==> HeldRead(h, p))
  }

  lemma StepEvolves(s: Session, step: Step)
    requires Enabled(s, step) && Commits(s, step)
    ensures Evolves(s.e, Effect(s, step).value)
  {
    match step
    case Prepare(_) =>
    case WaitUntil(p, request, order, now, publish) =>
      WaitUntilEvolves(s.e, p.task, p.sid, p.version, request, order, now, publish);
    case CompleteExecute(p, d, publish) => CompleteExecuteEvolves(s.e, p.task, p.sid, p.version, d, publish);
    case Recover(p, failure, destination) => RecoverEvolves(s.e, p.sid, p.version, failure, destination);
    case Backoff(p, failure, fireTime) =>
      BackoffEvolves(s.e, p.task, p.sid, p.kind, p.status, p.version, failure, fireTime);
    case QueueMessages(t, picks, sids) => QueueEvolves(s.e, t, s.e.immediate[t].messages, picks, sids);
    case RecordVisibility(t) => DeletingEvolves(s.e, t);
    case FireCommand(t) => CommandTimerEvolves(s.e, t, s.e.timers[t].sid, s.e.timers[t].index);
    case FireBackoff(t) => ConvertEvolves(s.e, t, s.e.timers[t].sid, s.e.timers[t].kind);
    case FireTimeout(t) => TimingOutEvolves(s.e, t);
    case Rpc(d, publish) => RpcEvolves(s.e, d, publish);
    case PublishMessages(publish) => PublishEvolves(s.e, publish);
    case Stop(status) => StopEvolves(s.e, status);
    case TerminateIfRunning => TerminateEvolves(s.e);
    case OthersTookKeys(_) =>
  }

  lemma TimingOutEvolves(e: Execution, timer: int)
    ensures Evolves(e, TimeoutTx(e, timer))
  {
    StopEvolves(e, ProcessTimeout);
    DeletingEvolves(StopTx(e, ProcessTimeout), timer);
    GrowsTwice(e, StopTx(e, ProcessTimeout), TimeoutTx(e, timer));
  }

  lemma DeliveryEvolves(h: Held, d: Delivery)
    requires MayDeliver(h, d)
    ensures Evolves(h.s.e, SessionAfter(h, d).e)
  {
    hide Evolves, Effect, Enabled, WaitUntilTx, QueueTx, CommandTimerTx, ConvertTx, TimeoutTx;
    SameEvolves(h.s.e);
    if Outcome(h, d).Some? {
      match d
      case Once(step) => StepEvolves(h.s, step);
      case PrepareAgain(_) =>
      case RespondAgain(p, request, order, now, publish) =>
        WaitUntilEvolves(h.s.e, p.task, p.sid, p.version, request, order, now, publish);
      case QueueAgain(t, picks, sids) => QueueEvolves(h.s.e, t, h.tasks[t].messages, picks, sids);
      case FireCommandAgain(t) => CommandTimerEvolves(h.s.e, t, h.timers[t].sid, h.timers[t].index);
      case FireBackoffAgain(t) => ConvertEvolves(h.s.e, t, h.timers[t].sid, h.timers[t].kind);
      case FireTimeoutAgain(t) => TimingOutEvolves(h.s.e, t);
    }
  }

  lemma SameEvolves(e: Execution)
    ensures Evolves(e, e)
  {
  }

  // ---------- the numbering of the rows ----------

  /** Neither the rows' ids nor the counters and the pending map changed. */
  ghost predicate SameNumbers(e: Execution, e': Execution) {
    e'.states.Keys == e.states.Keys && e'.process.sequenceMaps == e.process.sequenceMaps
  }

  lemma SameNumbersKeep(e: Execution, e': Execution)
    requires SequencesExact(e) && SameNumbers(e, e')
    ensures SequencesExact(e')
  {
  }

  lemma {:induction false} StartStatesNumbers(e: Execution, nexts: seq<NextState>)
    requires SequencesExact(e)
    ensures StartStates(e, nexts).Some? && SequencesExact(StartStates(e, nexts).value)
  {
    if nexts != [] {
      StartStatesNumbers(e, nexts[..|nexts| - 1]);
      StartStateIsFresh(StartStates(e, nexts[..|nexts| - 1]).value, nexts[|nexts| - 1]);
    }
  }

  lemma ClosingNumbers(e: Execution, close: Option<CloseType>)
    requires SequencesExact(e)
    ensures SequencesExact(Close(e, close))
  {
  }

  lemma DecidingNumbers(e: Execution, d: StateDecision)
    requires SequencesExact(e)
    ensures HandleStateDecision(e, d).Some? && SequencesExact(HandleStateDecision(e, d).value)
  {
    hide SequencesExact;
    StartStatesNumbers(e, d.nextStates);
    ClosingNumbers(StartStates(e, d.nextStates).value, d.close);
  }

  /** After an execute API the fence and the pending map alone decide, whoever asks and for whatever task. */
  lemma CompleteExecuteCommitsIff(
    e: Execution, task: int, sid: StateExecutionId, version: int, d: StateDecision, publish: seq<PublishedMessage>)
    requires SequencesExact(e)
    ensures var r := CompleteExecuteTx(e, task, sid, version, d, publish);
      && (r.Some? <==> sid in e.states && e.states[sid].version == version && IsPending(e.process.sequenceMaps, sid))
      && (r.Some? ==> SequencesExact(r.value))
  {
    hide SequencesExact;
    FinishStateFinishes(e, sid, version, StateCompleted, None);
    hide FinishState, HandleStateDecision;
    var finished := FinishState(e, sid, version, StateCompleted, None);
    if finished.Some? {
      DecidingNumbers(finished.value, d);
      var decided := HandleStateDecision(finished.value, d).value;
      SameNumbersKeep(decided, CompleteExecuteTx(e, task, sid, version, d, publish).value);
    }
  }

  lemma RecoverCommitsIff(
    e: Execution, sid: StateExecutionId, version: int, failure: Failure, destination: NextState)
    requires SequencesExact(e)
    ensures var r := RecoverTx(e, sid, version, failure, destination);
      && (r.Some? <==> sid in e.states && e.states[sid].version == version && IsPending(e.process.sequenceMaps, sid))
      && (r.Some? ==> SequencesExact(r.value))
  {
    hide SequencesExact;
    FinishStateFinishes(e, sid, version, StateFailed, Some(failure));
    if FinishState(e, sid, version, StateFailed, Some(failure)).Some? {
      StartStateIsFresh(FinishState(e, sid, version, StateFailed, Some(failure)).value, destination);
    }
  }

  lemma RpcNumbers(e: Execution, d: StateDecision, publish: seq<PublishedMessage>)
    requires SequencesExact(e)
    ensures RpcTx(e, d, publish).Some? && SequencesExact(RpcTx(e, d, publish).value)
  {
    hide SequencesExact, HandleStateDecision;
    DecidingNumbers(e, d);
    if e.process.status.Running? {
      SameNumbersKeep(HandleStateDecision(e, d).value, RpcTx(e, d, publish).value);
    }
  }

  lemma WaitingNumbers(
    e: Execution, task: int, sid: StateExecutionId, version: int, request: CommandRequest,
    order: seq<int>, now: Readings, publish: seq<PublishedMessage>)
    requires request.waitingType.EmptyCommand? || OrderFor(e.process.queues, sid, request, order)
    requires WaitUntilTx(e, task, sid, version, request, order, now, publish).Some?
    ensures SameNumbers(e, WaitUntilTx(e, task, sid, version, request, order, now, publish).value)
  {
    WaitChangesItsOwn(e, task, sid, version, request, order, now, publish);
    WaitUntilOnlyQueues(e, task, sid, version, request, order, now, publish);
    hide WaitUntilTx;
  }

  lemma ArrivingNumbers(e: Execution, task: int, ms: seq<QueuedMessage>, picks: seq<Pick>, sids: seq<StateExecutionId>)
    requires |picks| == |ms| && IsOrder(sids, AssignAll(e.process.queues, ms, picks).1.Keys)
    requires QueueTx(e, task, ms, picks, sids).Some?
    ensures SameNumbers(e, QueueTx(e, task, ms, picks, sids).value)
  {
    hide AssignAll, UpdateAssignedRows;
    var (queues, given) := AssignAll(e.process.queues, ms, picks);
    var e0 := e.(process := e.process.(queues := queues));
    UpdatedRowsSameKeys(e0, given, sids);
    UpdateAssignedRowsOnlyQueues(e0, given, sids);
  }

  lemma StoppingNumbers(e: Execution, status: ProcessStatus, timer: int)
    requires SequencesExact(e)
    ensures SequencesExact(StopTx(e, status)) && SequencesExact(TimeoutTx(e, timer)) && SequencesExact(TerminateTx(e))
  {
  }

  lemma FiringNumbers(e: Execution, timer: int, sid: StateExecutionId, index: int)
    requires CommandTimerTx(e, timer, sid, index).Some?
    ensures SameNumbers(e, CommandTimerTx(e, timer, sid, index).value)
  {
    hide Completed;
  }

  lemma BackoffNumbers(
    e: Execution, task: int, sid: StateExecutionId, kind: WorkerKind, status: StateStatus, version: int,
    failure: Failure, fireTime: int)
    ensures var r := BackoffTx(e, task, sid, kind, status, version, failure, fireTime);
      && (r.Some? <==> sid in e.states && e.states[sid].version == version)
      && (r.Some? ==> SameNumbers(e, r.value))
  {
  }

  lemma StepNumbers(s: Session, step: Step)
    requires Enabled(s, step) && Commits(s, step) && SequencesExact(s.e)
    ensures SequencesExact(Effect(s, step).value)
  {
    hide SequencesExact, SameNumbers, WaitUntilTx, CompleteExecuteTx, RecoverTx, BackoffTx, QueueTx, CommandTimerTx,
      RpcTx, StopTx, TerminateTx, TimeoutTx;
    match step
    case WaitUntil(p, request, order, now, publish) =>
      WaitingNumbers(s.e, p.task, p.sid, p.version, request, order, now, publish);
      SameNumbersKeep(s.e, Effect(s, step).value);
    case CompleteExecute(p, d, publish) => CompleteExecuteCommitsIff(s.e, p.task, p.sid, p.version, d, publish);
    case Recover(p, failure, destination) => RecoverCommitsIff(s.e, p.sid, p.version, failure, destination);
    case Backoff(p, failure, fireTime) =>
      BackoffNumbers(s.e, p.task, p.sid, p.kind, p.status, p.version, failure, fireTime);
      SameNumbersKeep(s.e, Effect(s, step).value);
    case QueueMessages(t, picks, sids) =>
      ArrivingNumbers(s.e, t, s.e.immediate[t].messages, picks, sids);
      SameNumbersKeep(s.e, Effect(s, step).value);
    case FireCommand(t) =>
      FiringNumbers(s.e, t, s.e.timers[t].sid, s.e.timers[t].index);
      SameNumbersKeep(s.e, Effect(s, step).value);
    case FireTimeout(t) => StoppingNumbers(s.e, ProcessTimeout, t);
    case Rpc(d, publish) => RpcNumbers(s.e, d, publish);
    case Stop(status) => StoppingNumbers(s.e, status, 0);
    case TerminateIfRunning => StoppingNumbers(s.e, ProcessTerminated, 0);
    case Prepare(_) | RecordVisibility(_) | FireBackoff(_) | PublishMessages(_) | OthersTookKeys(_) =>
      OthersNumber(s, step);
  }

  lemma OthersNumber(s: Session, step: Step)
    requires Enabled(s, step) && SequencesExact(s.e)
    requires step.Prepare? || step.RecordVisibility? || step.FireBackoff? || step.PublishMessages?
             || step.OthersTookKeys?
    ensures Commits(s, step) && SequencesExact(Effect(s, step).value)
  {
    hide SequencesExact;
    SameNumbersKeep(s.e, Effect(s, step).value);
  }

  lemma DeliveryNumbers(h: Held, d: Delivery)
    requires MayDeliver(h, d) && SequencesExact(h.s.e)
    ensures SequencesExact(SessionAfter(h, d).e)
  {
    hide SequencesExact, SameNumbers, Effect, Enabled, WaitUntilTx, QueueTx, CommandTimerTx, TimeoutTx;
    var e := h.s.e;
    if Outcome(h, d).Some? {
      var e' := Outcome(h, d).value;
      match d
      case Once(step) => StepNumbers(h.s, step);
      case PrepareAgain(_) =>
      case RespondAgain(p, request, order, now, publish) =>
        WaitingNumbers(e, p.task, p.sid, p.version, request, order, now, publish);
        SameNumbersKeep(e, e');
      case QueueAgain(t, picks, sids) =>
        ArrivingNumbers(e, t, h.tasks[t].messages, picks, sids);
        SameNumbersKeep(e, e');
      case FireCommandAgain(t) =>
        FiringNumbers(e, t, h.timers[t].sid, h.timers[t].index);
        SameNumbersKeep(e, e');
      case FireBackoffAgain(t) => ConvertingNumbers(e, t, h.timers[t].sid, h.timers[t].kind);
      case FireTimeoutAgain(t) => StoppingNumbers(e, ProcessTimeout, t);
    }
  }

  lemma ConvertingNumbers(e: Execution, timer: int, sid: StateExecutionId, kind: WorkerKind)
    requires SequencesExact(e)
    ensures SequencesExact(ConvertTx(e, timer, sid, kind))
  {
    hide SequencesExact;
    SameNumbersKeep(e, ConvertTx(e, timer, sid, kind));
  }

  // ---------- whole runs ----------

  lemma NewReadsAreHeld(h: Held, d: Delivery, p: Prepared)
    requires MayDeliver(h, d) && HeldInv(h) && p in SessionAfter(h, d).preps && p !in h.s.preps
    ensures SessionAfter(h, d).e == h.s.e && HeldRead(h, p)
  {
    hide SequencesExact, WaitUntilTx, CompleteExecuteTx, RecoverTx, BackoffTx, QueueTx, CommandTimerTx, RpcTx, StopTx,
      TerminateTx, TimeoutTx, ConvertTx, PublishTx;
  }

  lemma OldReadsAreHeld(h: Held, d: Delivery, p: Prepared)
    requires MayDeliver(h, d) && HeldInv(h) && p in h.s.preps
    ensures HeldRead(AfterDelivery(h, d), p)
  {
    hide Outcome, SessionAfter, SequencesExact;
    DeliveryEvolves(h, d);
    var e' := SessionAfter(h, d).e;
    assert HeldRead(h, p);
    assert RowEvolves(h.s.e.states[p.sid], e'.states[p.sid]);
    assert p.task in e'.immediate ==> e'.immediate[p.task] == h.s.e.immediate[p.task];
  }

  lemma DeliveryKeeps(h: Held, d: Delivery)
    requires MayDeliver(h, d) && HeldInv(h)
    ensures HeldInv(AfterDelivery(h, d))
  {
    DeliveryEvolves(h, d);
    DeliveryNumbers(h, d);
    hide Outcome, SequencesExact, MayDeliver;
    var h' := AfterDelivery(h, d);
    forall p | p in h'.s.preps ensures HeldRead(h', p) {
      if p in h.s.preps {
        OldReadsAreHeld(h, d, p);
      } else {
        NewReadsAreHeld(h, d, p);
      }
    }
  }
}
