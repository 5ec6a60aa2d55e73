/** Every step keeps the invariants, and every prepared version still means what it meant. */
module SessionLemmas {
  import opened Wrappers
  import opened StateExecutionIds
  import opened LocalQueues
  import opened SequenceMaps
  import opened ProcessModel
  import opened Transactions
  import opened Invariants
  import opened FrameLemmas
  import opened PublishingLemmas
  import opened ClosingLemmas
  import opened DrivingLemmas
  import opened WaitingLemmas
  import opened QueueLemmas
  import opened TimerCommandLemmas
  import opened StepLemmas
  import opened Evolution
  import opened EarningLemmas
  import opened Sessions

  /** The row has moved on since the read, or had nothing to call. */
  ghost predicate Spent(e: Execution, p: Prepared) {
    p.sid in e.states &&
    (p.version < e.states[p.sid].version || !(p.status.WaitUntilRunning? || p.status.ExecuteRunning?))
  }

  /**
   A prepared version is not ahead of its row's, and while it is the row's so is the prepared status.  A
   task that is not settled is in the table; a settled one's read is spent.
   */
  ghost predicate PreparedRead(e: Execution, settled: set<int>, p: Prepared) {
    && p.sid in e.states && p.version <= e.states[p.sid].version
    && (p.version == e.states[p.sid].version ==> p.status == e.states[p.sid].status)
    && (p.status.WaitUntilRunning? ==> p.kind.WaitUntilKind?)
    && p.task < e.next
    && (p.task in e.immediate ==> e.immediate[p.task] == WorkerTask(p.kind, p.sid))
    && (if p.task in settled then Spent(e, p) else p.task in e.immediate)
  }

  ghost predicate SessionInv(s: Session) {
    && Inv(s.e, s.settled) && Earned(s.e)
    && (forall t :: t in s.settled ==> t < s.e.next)
    && (forall p :: p in s.preps ==> PreparedRead(s.e, s.settled, p))
  }

  /** The row a settling transaction changed: its version moved, so every read of it is spent. */
  ghost predicate Moved(e: Execution, e': Execution, sid: StateExecutionId) {
    sid in e.states && sid in e'.states && e.states[sid].version < e'.states[sid].version
  }

  lemma StillRead(e: Execution, e': Execution, settled: set<int>, settled': set<int>, p: Prepared)
    requires Evolves(e, e') && PreparedRead(e, settled, p)
    requires p.task in settled ==> p.task in settled'
    requires p.task !in settled' ==> p.task in e'.immediate
    requires p.task in settled' && p.task !in settled ==> Moved(e, e', p.sid)
    ensures PreparedRead(e', settled', p)
  {
    assert RowEvolves(e.states[p.sid], e'.states[p.sid]);
  }

  /** The session after the execution became `e'`, by a transaction that settled these tasks. */
  function After(s: Session, e': Execution, settles: set<int>): Session {
    Session(e', s.settled + settles, s.preps)
  }

  ghost predicate Kept(s: Session, e': Execution, settles: set<int>) {
    SessionInv(After(s, e', settles)) && Evolves(s.e, e')
  }

  /** A transaction for the read `q` that settled its task. */
  lemma Committed(s: Session, e': Execution, q: Prepared)
    requires SessionInv(s) && q in s.preps && q.task !in s.settled
    requires Settling(s.e, e', q.task) && Moved(s.e, e', q.sid)
    requires Inv(e', s.settled + {q.task}) && Earned(e')
    ensures Kept(s, e', {q.task})
  {
    hide Inv;
    assert PreparedRead(s.e, s.settled, q);
    forall p | p in s.preps ensures PreparedRead(e', s.settled + {q.task}, p) {
      StillRead(s.e, e', s.settled, s.settled + {q.task}, p);
    }
  }

  /** A transaction that settled no worker task, and deleted none. */
  lemma CommittedAlone(s: Session, e': Execution, gone: set<int>)
    requires SessionInv(s) && Evolves(s.e, e') && TasksStay(s.e, e', gone)
    requires forall t :: t in gone && t in s.e.immediate ==> !s.e.immediate[t].WorkerTask?
    requires Inv(e', s.settled) && Earned(e')
    ensures Kept(s, e', {})
  {
    hide Inv;
    assert s.settled + {} == s.settled;
    forall p | p in s.preps ensures PreparedRead(e', s.settled, p) {
      StillRead(s.e, e', s.settled, s.settled, p);
    }
  }

  /** At a matching version the task is live, and drives the row's own status: a spent read matches nothing. */
  lemma LiveTaskWorks(s: Session, p: Prepared)
    requires SessionInv(s) && CalledAny(s, p) && s.e.states[p.sid].version == p.version
    ensures Working(s.e, s.settled, p.task, p.sid, p.kind) && p.status == StatusOf(p.kind)
  {
    assert PreparedRead(s.e, s.settled, p);
    if p.kind.WaitUntilKind? {
      assert Drives(s.e, s.settled, p.sid, p.task, WaitUntilKind);
    }
  }

  lemma WaitUntilMoves(
    e: Execution, task: int, sid: StateExecutionId, version: int, request: CommandRequest,
    order: seq<int>, now: Readings, publish: seq<PublishedMessage>)
    requires request.waitingType.EmptyCommand? || OrderFor(e.process.queues, sid, request, order)
    requires WaitUntilTx(e, task, sid, version, request, order, now, publish).Some?
    ensures Moved(e, WaitUntilTx(e, task, sid, version, request, order, now, publish).value, sid)
  {
    if !request.waitingType.EmptyCommand? {
      UpdateWaitUntilIs(e, sid, request, order, now);
      hide RegisterCommands, AddConsumed, Completed;
    }
  }

  /** The fence takes a response without commands exactly at the prepared version; the other kind is always taken. */
  lemma WaitUntilStep(
    s: Session, p: Prepared, request: CommandRequest, order: seq<int>, now: Readings, publish: seq<PublishedMessage>)
    requires SessionInv(s) && Called(s, p, WaitUntilRunning) && MayRespond(s, p, request, order)
    ensures var r := WaitUntilTx(s.e, p.task, p.sid, p.version, request, order, now, publish);
      && p.sid in s.e.states
      && (r.Some? <==> !request.waitingType.EmptyCommand? || s.e.states[p.sid].version == p.version)
      && (r.Some? ==> Kept(s, r.value, {p.task}) && Moved(s.e, r.value, p.sid))
  {
    hide Inv;
    var e := s.e;
    assert PreparedRead(e, s.settled, p);
    var r := WaitUntilTx(e, p.task, p.sid, p.version, request, order, now, publish);
    if e.states[p.sid].version == p.version {
      LiveTaskWorks(s, p);
    }
    if r.Some? {
      WaitUntilKeeps(e, p.task, p.sid, p.version, request, order, now, publish, s.settled);
      WaitUntilEvolves(e, p.task, p.sid, p.version, request, order, now, publish);
      WaitUntilEarns(e, p.task, p.sid, p.version, request, order, now, publish);
      WaitUntilMoves(e, p.task, p.sid, p.version, request, order, now, publish);
      Committed(s, r.value, p);
    } else if !request.waitingType.EmptyCommand? {
      WaitUntilKeeps(e, p.task, p.sid, p.version, request, order, now, publish, s.settled);
    }
  }

  /** The rows after finishing a state never go back to its version. */
  lemma FinishedStaysMoved(e: Execution, finished: Execution, e': Execution, sid: StateExecutionId)
    requires Moved(e, finished, sid) && Evolves(finished, e')
    ensures Moved(e, e', sid)
  {
    assert RowEvolves(finished.states[sid], e'.states[sid]);
  }

  lemma CompleteExecuteMoves(
    e: Execution, task: int, sid: StateExecutionId, version: int, d: StateDecision, publish: seq<PublishedMessage>)
    requires CompleteExecuteTx(e, task, sid, version, d, publish).Some?
    ensures Moved(e, CompleteExecuteTx(e, task, sid, version, d, publish).value, sid)
  {
    var finished := FinishState(e, sid, version, StateCompleted, None).value;
    assert Moved(e, finished, sid);
    HandleStateDecisionEvolves(finished, d);
    FinishedStaysMoved(e, finished, HandleStateDecision(finished, d).value, sid);
  }

  /** The fence and the pending map decide. */
  lemma CompleteExecuteStep(s: Session, p: Prepared, d: StateDecision, publish: seq<PublishedMessage>)
    requires SessionInv(s) && Called(s, p, ExecuteRunning)
    ensures var r := CompleteExecuteTx(s.e, p.task, p.sid, p.version, d, publish);
      && p.sid in s.e.states
      && (r.Some? <==> s.e.states[p.sid].version == p.version && IsPending(s.e.process.sequenceMaps, p.sid))
      && (r.Some? ==> Kept(s, r.value, {p.task}) && Moved(s.e, r.value, p.sid))
  {
    hide Inv;
    var e := s.e;
    assert PreparedRead(e, s.settled, p);
    if e.states[p.sid].version == p.version {
      LiveTaskWorks(s, p);
      CompleteExecuteKeeps(e, p.task, p.sid, p.version, d, publish, s.settled, p.kind);
      var r := CompleteExecuteTx(e, p.task, p.sid, p.version, d, publish);
      if r.Some? {
        CompleteExecuteEvolves(e, p.task, p.sid, p.version, d, publish);
        CompleteExecuteEarns(e, p.task, p.sid, p.version, d, publish);
        CompleteExecuteMoves(e, p.task, p.sid, p.version, d, publish);
        Committed(s, r.value, p);
      }
    }
  }

  lemma RecoverMoves(e: Execution, sid: StateExecutionId, version: int, failure: Failure, destination: NextState)
    requires RecoverTx(e, sid, version, failure, destination).Some?
    ensures Moved(e, RecoverTx(e, sid, version, failure, destination).value, sid)
  {
  }

  lemma RecoverStep(s: Session, p: Prepared, failure: Failure, destination: NextState)
    requires SessionInv(s) && CalledAny(s, p)
    ensures var r := RecoverTx(s.e, p.sid, p.version, failure, destination);
      && p.sid in s.e.states
      && (r.Some? <==> s.e.states[p.sid].version == p.version && IsPending(s.e.process.sequenceMaps, p.sid))
      && (r.Some? ==> Kept(s, r.value, {p.task}) && Moved(s.e, r.value, p.sid))
  {
    hide Inv;
    var e := s.e;
    assert PreparedRead(e, s.settled, p);
    if e.states[p.sid].version == p.version {
      LiveTaskWorks(s, p);
      RecoverKeeps(e, p.task, p.sid, p.version, failure, destination, s.settled, p.kind);
      var r := RecoverTx(e, p.sid, p.version, failure, destination);
      if r.Some? {
        RecoverEvolves(e, p.sid, p.version, failure, destination);
        RecoverEarns(e, p.sid, p.version, failure, destination);
        RecoverMoves(e, p.sid, p.version, failure, destination);
        Committed(s, r.value, p);
      }
    }
  }

  lemma BackoffStep(s: Session, p: Prepared, failure: Failure, fireTime: int)
    requires SessionInv(s) && CalledAny(s, p)
    ensures var r := BackoffTx(s.e, p.task, p.sid, p.kind, p.status, p.version, failure, fireTime);
      && p.sid in s.e.states
      && (r.Some? <==> s.e.states[p.sid].version == p.version)
      && (r.Some? ==> Kept(s, r.value, {p.task}) && Moved(s.e, r.value, p.sid))
  {
    hide Inv;
    var e := s.e;
    assert PreparedRead(e, s.settled, p);
    if e.states[p.sid].version == p.version {
      LiveTaskWorks(s, p);
      BackoffKeeps(e, p.task, p.sid, p.kind, p.version, failure, fireTime, s.settled);
      BackoffEvolves(e, p.task, p.sid, p.kind, p.status, p.version, failure, fireTime);
      BackoffEarns(e, p.task, p.sid, p.kind, p.status, p.version, failure, fireTime);
      Committed(s, BackoffTx(e, p.task, p.sid, p.kind, p.status, p.version, failure, fireTime).value, p);
    }
  }

  lemma GivenStatesWait(e: Execution, settled: set<int>, t: int, picks: seq<Pick>, sids: seq<StateExecutionId>)
    requires Inv(e, settled) && t in e.immediate && e.immediate[t].QueueTask?
    requires ValidPicks(e.process.queues, e.immediate[t].messages, picks)
    requires IsOrder(sids, AssignAll(e.process.queues, e.immediate[t].messages, picks).1.Keys)
    ensures e.process.status.Running? ==>
              forall sid :: sid in sids ==> sid in e.states && e.states[sid].status.WaitUntilWaiting?
  {
    HandingOutGives(e, settled, t, e.immediate[t].messages, picks);
  }

  lemma QueueStep(s: Session, t: int, picks: seq<Pick>, sids: seq<StateExecutionId>)
    requires SessionInv(s) && Enabled(s, QueueMessages(t, picks, sids))
    ensures var r := QueueTx(s.e, t, s.e.immediate[t].messages, picks, sids); r.Some? && Kept(s, r.value, {})
  {
    hide Inv;
    var e, ms := s.e, s.e.immediate[t].messages;
    QueueTxKeeps(e, s.settled, t, ms, picks, sids);
    GivenStatesWait(e, s.settled, t, picks, sids);
    QueueEvolves(e, t, ms, picks, sids);
    QueueEarns(e, t, ms, picks, sids);
    CommittedAlone(s, QueueTx(e, t, ms, picks, sids).value, {t});
  }

  lemma FireCommandStep(s: Session, t: int)
    requires SessionInv(s) && Enabled(s, FireCommand(t))
    ensures var r := CommandTimerTx(s.e, t, s.e.timers[t].sid, s.e.timers[t].index); r.Some? && Kept(s, r.value, {})
  {
    hide Inv;
    var e, sid, index := s.e, s.e.timers[t].sid, s.e.timers[t].index;
    assert Resolves(e, sid, index, t);
    CommandTimerKeeps(e, t, sid, index, s.settled);
    CommandTimerEvolves(e, t, sid, index);
    CommandTimerEarns(e, t, sid, index);
    CommittedAlone(s, CommandTimerTx(e, t, sid, index).value, {});
  }

  lemma FireBackoffStep(s: Session, t: int)
    requires SessionInv(s) && Enabled(s, FireBackoff(t))
    ensures Kept(s, ConvertTx(s.e, t, s.e.timers[t].sid, s.e.timers[t].kind), {})
  {
    var e := s.e;
    ConvertKeeps(e, t, e.timers[t].sid, e.timers[t].kind, s.settled);
    ConvertEvolves(e, t, e.timers[t].sid, e.timers[t].kind);
    CommittedAlone(s, ConvertTx(e, t, e.timers[t].sid, e.timers[t].kind), {});
  }

  lemma FireTimeoutStep(s: Session, t: int)
    requires SessionInv(s) && Enabled(s, FireTimeout(t))
    ensures Kept(s, TimeoutTx(s.e, t), {})
  {
    TimeoutKeeps(s.e, t, s.settled);
    StopEvolves(s.e, ProcessTimeout);
    DeletingEvolves(StopTx(s.e, ProcessTimeout), t);
    GrowsTwice(s.e, StopTx(s.e, ProcessTimeout), TimeoutTx(s.e, t));
    StopEarns(s.e, ProcessTimeout, t);
    CommittedAlone(s, TimeoutTx(s.e, t), {});
  }

  lemma RpcStep(s: Session, d: StateDecision, publish: seq<PublishedMessage>)
    requires SessionInv(s)
    ensures var r := RpcTx(s.e, d, publish); r.Some? && Kept(s, r.value, {})
  {
    RpcKeeps(s.e, d, publish, s.settled);
    RpcEvolves(s.e, d, publish);
    RpcEarns(s.e, d, publish);
    CommittedAlone(s, RpcTx(s.e, d, publish).value, {});
  }

  lemma PublishStep(s: Session, publish: seq<PublishedMessage>)
    requires SessionInv(s)
    ensures Kept(s, PublishTx(s.e, publish), {})
  {
    PublishTxKeeps(s.e, publish, s.settled);
    PublishEvolves(s.e, publish);
    CommittedAlone(s, PublishTx(s.e, publish), {});
  }

  lemma StopStep(s: Session, status: ProcessStatus)
    requires SessionInv(s) && !status.Running?
    ensures Kept(s, StopTx(s.e, status), {})
  {
    StopKeeps(s.e, status, s.settled);
    StopEvolves(s.e, status);
    StopEarns(s.e, status, 0);
    CommittedAlone(s, StopTx(s.e, status), {});
  }

  lemma TerminateStep(s: Session)
    requires SessionInv(s)
    ensures Kept(s, TerminateTx(s.e), {})
  {
    TerminateKeeps(s.e, s.settled);
    TerminateEvolves(s.e);
    StopEarns(s.e, ProcessTerminated, 0);
    CommittedAlone(s, TerminateTx(s.e), {});
  }

  lemma RecordVisibilityStep(s: Session, t: int)
    requires SessionInv(s) && t in s.e.immediate && s.e.immediate[t].VisibilityTask?
    ensures Kept(s, DeleteImmediate(s.e, t), {})
  {
    DeletingVisibilityKeeps(s.e, t, s.settled);
    DeletingEvolves(s.e, t);
    CommittedAlone(s, DeleteImmediate(s.e, t), {t});
  }

  lemma TakingKeysKeeps(e: Execution, next: int, settled: set<int>)
    requires Inv(e, settled) && e.next <= next
    ensures Inv(e.(next := next), settled)
  {
    var e' := e.(next := next);
    SameButTasksKeeps(e, e', settled, None);
    SameButTasksWaits(e, e', settled);
    KeepsMessages(e, e');
  }

  lemma OthersTookKeysStep(s: Session, next: int)
    requires SessionInv(s) && s.e.next <= next
    ensures Kept(s, s.e.(next := next), {})
  {
    TakingKeysKeeps(s.e, next, s.settled);
    hide Inv;
    CommittedAlone(s, s.e.(next := next), {});
  }

  /** What is read while preparing is the row as it is. */
  lemma PrepareStep(s: Session, t: int)
    requires SessionInv(s) && Enabled(s, Prepare(t))
    ensures forall p :: p in Reads(s, Prepare(t)) ==> PreparedRead(s.e, s.settled, p)
  {
  }

  lemma TransactionKeeps(s: Session, step: Step)
    requires SessionInv(s) && Enabled(s, step) && Commits(s, step) && !step.Prepare?
    ensures Kept(s, Effect(s, step).value, Settles(step))
  {
    match step
    case Prepare(_) =>
    case WaitUntil(p, request, order, now, publish) => WaitUntilStep(s, p, request, order, now, publish);
    case CompleteExecute(p, d, publish) => CompleteExecuteStep(s, p, d, publish);
    case Recover(p, failure, destination) => RecoverStep(s, p, failure, destination);
    case Backoff(p, failure, fireTime) => BackoffStep(s, p, failure, fireTime);
    case QueueMessages(t, picks, sids) => QueueStep(s, t, picks, sids);
    case RecordVisibility(t) => RecordVisibilityStep(s, t);
    case FireCommand(t) => FireCommandStep(s, t);
    case FireBackoff(t) => FireBackoffStep(s, t);
    case FireTimeout(t) => FireTimeoutStep(s, t);
    case Rpc(d, publish) => RpcStep(s, d, publish);
    case PublishMessages(publish) => PublishStep(s, publish);
    case Stop(status) => StopStep(s, status);
    case TerminateIfRunning => TerminateStep(s);
    case OthersTookKeys(next) => OthersTookKeysStep(s, next);
  }

  /** Every step keeps everything, whether its transaction commits or fails. */
  lemma StepKeeps(s: Session, step: Step)
    requires SessionInv(s) && Enabled(s, step)
    ensures SessionInv(Next(s, step)) && Evolves(s.e, Next(s, step).e)
  {
    hide Inv;
    if step.Prepare? {
      PrepareStep(s, step.task);
      assert s.settled + {} == s.settled;
    } else if Commits(s, step) {
      TransactionKeeps(s, step);
      assert s.preps + {} == s.preps;
    }
  }
}
