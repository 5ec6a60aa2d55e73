/** First in, first out over whole runs of an execution, and every batch handed over is a stored result. */
module RunFifo {
  import opened Wrappers
  import opened StateExecutionIds
  import opened LocalQueues
  import L = LocalQueueTheorems
  import opened ProcessModel
  import opened Transactions
  import opened Invariants
  import opened WaitingLemmas
  import opened AssigningLemmas
  import opened QueueLemmas
  import opened Sessions
  import opened SessionLemmas
  import opened RunTheorems
  import opened ClosingTheorems

  // ---------- what a step hands over, and what arrives ----------

  function MessagesOn(ms: seq<QueuedMessage>, q: QueueName): seq<DedupId> {
    if ms == [] then []
    else MessagesOn(ms[..|ms| - 1], q) + if ms[|ms| - 1].queue == q then [ms[|ms| - 1].dedupId] else []
  }

  /** The hand-overs while the messages of a task arrive. */
  ghost function AssignLog(s: Queues, ms: seq<QueuedMessage>, picks: seq<Pick>): seq<L.Batch>
    requires ValidPicks(s, ms, picks)
  {
    if ms == [] then []
    else
      var n := |ms| - 1;
      AssignLog(s, ms[..n], picks[..n]) +
      L.HandedOver(AssignAll(s, ms[..n], picks[..n]).0, L.Arrive(ms[n].queue, ms[n].dedupId, picks[n]))
  }

  /** The hand-overs while a state's queue commands are registered. */
  ghost function WaitLog(s: Queues, sid: StateExecutionId, request: CommandRequest, order: seq<int>): seq<L.Batch>
    requires request.waitingType.EmptyCommand? || OrderFor(s, sid, request, order)
  {
    if request.waitingType.EmptyCommand? || request.queueCommands == [] then []
    else L.HandedOver(s, L.Register(sid, request.queueCommands, request.waitingType, order))
  }

  ghost function StepLog(s: Session, step: Step): seq<L.Batch>
    requires Enabled(s, step)
  {
    match step
    case WaitUntil(p, request, order, _, _) => WaitLog(s.e.process.queues, p.sid, request, order)
    case QueueMessages(t, picks, _) => AssignLog(s.e.process.queues, s.e.immediate[t].messages, picks)
    case _ => []
  }

  function StepArrivals(s: Session, step: Step, q: QueueName): seq<DedupId> {
    match step
    case QueueMessages(t, _, _) =>
      if t in s.e.immediate && s.e.immediate[t].QueueTask? then MessagesOn(s.e.immediate[t].messages, q) else []
    case _ => []
  }

  /** The batches handed over by the first `n` steps of a run. */
  ghost function RunLog(states: seq<Session>, steps: seq<Step>, n: nat): seq<L.Batch>
    requires IsRun(states, steps) && n <= |steps|
  {
    if n == 0 then [] else RunLog(states, steps, n - 1) + StepLog(states[n - 1], steps[n - 1])
  }

  /** The messages of a queue that the queue tasks of the first `n` steps brought, in order. */
  ghost function RunArrivals(states: seq<Session>, steps: seq<Step>, q: QueueName, n: nat): seq<DedupId>
    requires IsRun(states, steps) && n <= |steps|
  {
    if n == 0 then [] else RunArrivals(states, steps, q, n - 1) + StepArrivals(states[n - 1], steps[n - 1], q)
  }

  // ---------- order ----------

  lemma {:induction false} AssignFifo(s: Queues, ms: seq<QueuedMessage>, picks: seq<Pick>, q: QueueName)
    requires ValidPicks(s, ms, picks)
    ensures L.Taken(AssignLog(s, ms, picks), q) + Waiting(AssignAll(s, ms, picks).0.unconsumed, q)
         == Waiting(s.unconsumed, q) + MessagesOn(ms, q)
    ensures forall b :: b in AssignLog(s, ms, picks) ==> |b.ids| == b.command.count
  {
    if ms != [] {
      var n := |ms| - 1;
      AssignFifo(s, ms[..n], picks[..n], q);
      var before := AssignAll(s, ms[..n], picks[..n]).0;
      var event := L.Arrive(ms[n].queue, ms[n].dedupId, picks[n]);
      L.FifoStep(before, event, q);
      Chaining(AssignLog(s, ms[..n], picks[..n]), L.HandedOver(before, event), q, Waiting(s.unconsumed, q),
               MessagesOn(ms[..n], q), Waiting(before.unconsumed, q), L.Arrived(event, q),
               Waiting(AssignAll(s, ms, picks).0.unconsumed, q));
    }
  }

  /** Two stretches that each keep the order keep it together. */
  lemma Chaining(
    log: seq<L.Batch>, more: seq<L.Batch>, q: QueueName,
    was: seq<DedupId>, came: seq<DedupId>, between: seq<DedupId>, comes: seq<DedupId>, now: seq<DedupId>)
    requires L.Taken(log, q) + between == was + came
    requires L.Taken(more, q) + now == between + comes
    ensures L.Taken(log + more, q) + now == was + (came + comes)
  {
    L.TakenConcat(log, more, q);
    L.Associative(L.Taken(log, q), L.Taken(more, q), now);
    L.Associative(L.Taken(log, q), between, comes);
    L.Associative(was, came, comes);
  }

  lemma {:induction false} UpdatingRowsLeavesMessages(e: Execution, a: Assigned, sids: seq<StateExecutionId>)
    requires (forall sid :: sid in sids ==> sid in a) && UpdateAssignedRows(e, a, sids).Some?
    ensures UpdateAssignedRows(e, a, sids).value.process.queues.unconsumed == e.process.queues.unconsumed
  {
    if sids != [] {
      UpdatingRowsLeavesMessages(e, a, sids[..|sids| - 1]);
    }
  }

  lemma UpdatingTakesInOrder(
    e: Execution, sid: StateExecutionId, request: CommandRequest, order: seq<int>, now: Readings)
    requires OrderFor(e.process.queues, sid, request, order)
    requires UpdateWaitUntil(e, sid, request, order, now).Some?
    ensures UpdateWaitUntil(e, sid, request, order, now).value.process.queues.unconsumed
         == RegisterCommands(e.process.queues, sid, request, order).0.unconsumed
  {
    UpdateWaitUntilIs(e, sid, request, order, now);
    hide Completed, AddConsumed, RegisterCommands;
  }

  lemma WaitingTakesInOrder(
    e: Execution, task: int, sid: StateExecutionId, version: int, request: CommandRequest,
    order: seq<int>, now: Readings, publish: seq<PublishedMessage>)
    requires request.waitingType.EmptyCommand? || OrderFor(e.process.queues, sid, request, order)
    requires WaitUntilTx(e, task, sid, version, request, order, now, publish).Some?
    ensures WaitUntilTx(e, task, sid, version, request, order, now, publish).value.process.queues.unconsumed
         == if request.waitingType.EmptyCommand? then e.process.queues.unconsumed
            else RegisterCommands(e.process.queues, sid, request, order).0.unconsumed
  {
    hide RegisterCommands;
    if !request.waitingType.EmptyCommand? {
      UpdatingTakesInOrder(e, sid, request, order, now);
      hide UpdateWaitUntil;
    }
  }

  /** The steps that neither hand over nor bring messages. */
  predicate LeavesMessages(step: Step) {
    !step.WaitUntil? && !step.QueueMessages?
  }

  lemma OthersLeaveMessages(s: Session, step: Step)
    requires Enabled(s, step) && LeavesMessages(step)
    ensures Next(s, step).e.process.queues.unconsumed == s.e.process.queues.unconsumed
  {
    hide CompleteExecuteTx, RpcTx, RecoverTx, BackoffTx, CommandTimerTx, TimeoutTx, StopTx, TerminateTx, PublishTx;
    if Commits(s, step) {
      match step
      case CompleteExecute(p, d, publish) => CompletingLeavesQueues(s.e, p, d, publish);
      case Rpc(d, publish) => RpcLeavesQueues(s.e, d, publish);
      case Recover(p, failure, destination) => RecoveringLeavesQueues(s.e, p, failure, destination);
      case FireCommand(t) => FiringLeavesMessages(s.e, t, s.e.timers[t].sid, s.e.timers[t].index);
      case Backoff(p, failure, fireTime) =>
        BackoffLeavesQueues(s.e, p.task, p.sid, p.kind, p.status, p.version, failure, fireTime);
      case _ => StoppingLeavesQueues(s.e);
    }
  }

  lemma RecoveringLeavesQueues(e: Execution, p: Prepared, failure: Failure, destination: NextState)
    requires RecoverTx(e, p.sid, p.version, failure, destination).Some?
    ensures RecoverTx(e, p.sid, p.version, failure, destination).value.process.queues == e.process.queues
  {
  }

  lemma FiringLeavesMessages(e: Execution, timer: int, sid: StateExecutionId, index: int)
    requires CommandTimerTx(e, timer, sid, index).Some?
    ensures CommandTimerTx(e, timer, sid, index).value.process.queues.unconsumed == e.process.queues.unconsumed
  {
    hide Completed;
  }

  lemma BackoffLeavesQueues(
    e: Execution, task: int, sid: StateExecutionId, kind: WorkerKind, status: StateStatus, version: int,
    failure: Failure, fireTime: int)
    requires BackoffTx(e, task, sid, kind, status, version, failure, fireTime).Some?
    ensures BackoffTx(e, task, sid, kind, status, version, failure, fireTime).value.process == e.process
  {
  }

  lemma StoppingLeavesQueues(e: Execution)
    ensures forall status :: StopTx(e, status).process.queues == e.process.queues
    ensures forall timer :: TimeoutTx(e, timer).process.queues == e.process.queues
    ensures forall ms :: PublishTx(e, ms).process.queues == e.process.queues
    ensures TerminateTx(e).process.queues == e.process.queues
  {
  }

  lemma DecisionLeavesQueues(e: Execution, d: StateDecision)
    requires HandleStateDecision(e, d).Some?
    ensures HandleStateDecision(e, d).value.process.queues == e.process.queues
  {
    StartStatesLeaveQueues(e, d.nextStates);
    hide StartStates, AbortRunning;
  }

  lemma CompletingLeavesQueues(e: Execution, p: Prepared, d: StateDecision, publish: seq<PublishedMessage>)
    requires CompleteExecuteTx(e, p.task, p.sid, p.version, d, publish).Some?
    ensures CompleteExecuteTx(e, p.task, p.sid, p.version, d, publish).value.process.queues == e.process.queues
  {
    DecisionIsLast(e, p, d, publish);
    hide CompleteExecuteTx, HandleStateDecision;
    DecisionLeavesQueues(FinishState(e, p.sid, p.version, StateCompleted, None).value, d);
  }

  lemma RpcLeavesQueues(e: Execution, d: StateDecision, publish: seq<PublishedMessage>)
    requires RpcTx(e, d, publish).Some?
    ensures RpcTx(e, d, publish).value.process.queues == e.process.queues
  {
    if e.process.status.Running? {
      RpcDecisionIsLast(e, d, publish);
      hide RpcTx, HandleStateDecision;
      DecisionLeavesQueues(e, d);
    }
  }

  lemma {:induction false} StartStatesLeaveQueues(e: Execution, nexts: seq<NextState>)
    requires StartStates(e, nexts).Some?
    ensures StartStates(e, nexts).value.process.queues == e.process.queues
  {
    if nexts != [] {
      StartStatesLeaveQueues(e, nexts[..|nexts| - 1]);
    }
  }

  lemma StepFifo(s: Session, step: Step, q: QueueName)
    requires SessionInv(s) && Enabled(s, step)
    ensures L.Taken(StepLog(s, step), q) + Waiting(Next(s, step).e.process.queues.unconsumed, q)
         == Waiting(s.e.process.queues.unconsumed, q) + StepArrivals(s, step, q)
    ensures forall b :: b in StepLog(s, step) ==> |b.ids| == b.command.count
  {
    hide Inv;
    var u := s.e.process.queues.unconsumed;
    assert Waiting(u, q) + [] == Waiting(u, q) && [] + Waiting(u, q) == Waiting(u, q);
    if step.WaitUntil? {
      WaitUntilStep(s, step.p, step.request, step.order, step.now, step.publish);
      if Commits(s, step) {
        var p := step.p;
        WaitFifo(s.e, p.task, p.sid, p.version, step.request, step.order, step.now, step.publish, q);
      }
      hide WaitLog, WaitUntilTx;
    } else if step.QueueMessages? {
      QueueFifo(s, step.task, step.picks, step.sids, q);
    } else {
      OthersLeaveMessages(s, step);
    }
  }

  lemma WaitFifo(
    e: Execution, task: int, sid: StateExecutionId, version: int, request: CommandRequest,
    order: seq<int>, now: Readings, publish: seq<PublishedMessage>, q: QueueName)
    requires request.waitingType.EmptyCommand? || OrderFor(e.process.queues, sid, request, order)
    requires WaitUntilTx(e, task, sid, version, request, order, now, publish).Some?
    ensures var e' := WaitUntilTx(e, task, sid, version, request, order, now, publish).value;
      L.Taken(WaitLog(e.process.queues, sid, request, order), q) + Waiting(e'.process.queues.unconsumed, q)
      == Waiting(e.process.queues.unconsumed, q)
    ensures forall b :: b in WaitLog(e.process.queues, sid, request, order) ==> |b.ids| == b.command.count
  {
    var u := e.process.queues.unconsumed;
    assert [] + Waiting(u, q) == Waiting(u, q);
    WaitingTakesInOrder(e, task, sid, version, request, order, now, publish);
    hide WaitUntilTx;
    if !request.waitingType.EmptyCommand? && request.queueCommands != [] {
      L.RegisterFifo(e.process.queues, sid, request.queueCommands, request.waitingType, order, q);
    }
  }

  lemma QueueFifo(s: Session, t: int, picks: seq<Pick>, sids: seq<StateExecutionId>, q: QueueName)
    requires SessionInv(s) && Enabled(s, QueueMessages(t, picks, sids))
    ensures var step := QueueMessages(t, picks, sids);
      && L.Taken(StepLog(s, step), q) + Waiting(Next(s, step).e.process.queues.unconsumed, q)
         == Waiting(s.e.process.queues.unconsumed, q) + StepArrivals(s, step, q)
      && forall b :: b in StepLog(s, step) ==> |b.ids| == b.command.count
  {
    hide Inv;
    var e, ms := s.e, s.e.immediate[t].messages;
    QueueStep(s, t, picks, sids);
    AssignFifo(e.process.queues, ms, picks, q);
    var (queues, given) := AssignAll(e.process.queues, ms, picks);
    UpdatingRowsLeavesMessages(e.(process := e.process.(queues := queues)), given, sids);
  }

  /**
   At every point of every run, for every queue: the batches handed over, in order, followed by what is
   unconsumed, are the messages in the order the queue tasks brought them, and each batch has its
   command's count.
   */
  lemma {:induction false} RunsAreFifo(states: seq<Session>, steps: seq<Step>, q: QueueName, n: nat)
    requires IsRun(states, steps) && n <= |steps|
    ensures L.Taken(RunLog(states, steps, n), q) + Waiting(states[n].e.process.queues.unconsumed, q)
         == RunArrivals(states, steps, q, n)
    ensures forall b :: b in RunLog(states, steps, n) ==> |b.ids| == b.command.count
  {
    hide Enabled, Effect, StepLog, StepArrivals, SessionInv;
    if n == 0 {
      StartsWithoutMessages(states[0]);
    } else {
      RunsAreFifo(states, steps, q, n - 1);
      AlwaysInv(states, steps, n - 1);
      StepFifo(states[n - 1], steps[n - 1], q);
      Chaining(RunLog(states, steps, n - 1), StepLog(states[n - 1], steps[n - 1]), q, [],
               RunArrivals(states, steps, q, n - 1), Waiting(states[n - 1].e.process.queues.unconsumed, q),
               StepArrivals(states[n - 1], steps[n - 1], q), Waiting(states[n].e.process.queues.unconsumed, q));
      assert [] + RunArrivals(states, steps, q, n) == RunArrivals(states, steps, q, n);
      assert [] + RunArrivals(states, steps, q, n - 1) == RunArrivals(states, steps, q, n - 1);
    }
  }

  lemma StartsWithoutMessages(s: Session)
    requires exists next, start, timeout :: s == Start(next, start, timeout)
    ensures s.e.process.queues == NO_QUEUES
  {
  }

  // ---------- what is handed over is stored ----------

  lemma {:induction false} LoggedIsConsumed(
    sid: StateExecutionId, cmds: map<int, Command>, u: Unconsumed, w: WaitingType, order: seq<int>)
    requires forall i :: i in order ==> i in cmds
    requires forall i, j :: 0 <= i < j < |order| ==> order[i] != order[j]
    ensures var consumed := VisitAll(cmds, u, w, order).consumed;
      && (forall i :: i in consumed ==> i in order)
      && forall b :: b in L.VisitLog(sid, cmds, u, w, order) ==>
           b.sid == sid && b.index in consumed && b.ids == consumed[b.index]
  {
    if order != [] {
      var front, i := order[..|order| - 1], order[|order| - 1];
      LoggedIsConsumed(sid, cmds, u, w, front);
      assert order == front + [i] && i !in front;
    }
  }

  lemma {:induction false} LoggedIsGiven(s: Queues, ms: seq<QueuedMessage>, picks: seq<Pick>)
    requires L.Positive(s) && L.NoLostWakeUp(s) && L.NoEmptyEntries(s) && ValidPicks(s, ms, picks)
    ensures var a := AssignAll(s, ms, picks).1;
      forall b :: b in AssignLog(s, ms, picks) ==> Given(a, b.sid, b.index) && a[b.sid][b.index] == b.ids
  {
    if ms != [] {
      var n := |ms| - 1;
      LoggedIsGiven(s, ms[..n], picks[..n]);
      AssignAllAssigns(s, ms[..n], picks[..n]);
      var (before, a) := AssignAll(s, ms[..n], picks[..n]);
      var pick := picks[n];
      if pick.Picked? {
        assert Registered(before, pick.sid, pick.index);
        assert !Given(a, pick.sid, pick.index);
      }
    }
  }

  lemma StoredIds(messages: map<DedupId, MessageRow>, results: CommandResults, consumed: map<int, seq<DedupId>>, i: int)
    requires Transactions.Known(messages, consumed) && i in consumed
    ensures i in AddConsumed(messages, results, consumed).queues
    ensures ResultIds(AddConsumed(messages, results, consumed).queues[i]) == consumed[i]
  {
    LookupIds(messages, consumed[i]);
  }

  lemma HeldRowStores(e: Execution, e': Execution, a: Assigned, sids: seq<StateExecutionId>, b: L.Batch)
    requires RowsHold(e, e', a, sids) && b.sid in sids && Given(a, b.sid, b.index)
    ensures Contents(e', ResultCell(b.sid, b.index)) == a[b.sid][b.index]
  {
    StoredIds(e.messages, e.states[b.sid].results, a[b.sid], b.index);
    hide AddConsumed, Completed;
  }

  lemma GivenRowsExist(e: Execution, ms: seq<QueuedMessage>, picks: seq<Pick>)
    requires RegisteredMatch(e) && ValidPicks(e.process.queues, ms, picks)
    ensures forall sid :: sid in AssignAll(e.process.queues, ms, picks).1 ==> sid in e.states
  {
    AssignAllAssigns(e.process.queues, ms, picks);
    hide AssignAll;
    var (queues, given) := AssignAll(e.process.queues, ms, picks);
    CommandsShrink(e.process.queues, queues, given);
  }

  lemma QueueStores(
    e: Execution, t: int, ms: seq<QueuedMessage>, picks: seq<Pick>, sids: seq<StateExecutionId>, b: L.Batch)
    requires RegisteredMatch(e) && ValidPicks(e.process.queues, ms, picks)
    requires IsOrder(sids, AssignAll(e.process.queues, ms, picks).1.Keys)
    requires QueueTx(e, t, ms, picks, sids).Some?
    requires b in AssignLog(e.process.queues, ms, picks)
    ensures Contents(QueueTx(e, t, ms, picks, sids).value, ResultCell(b.sid, b.index)) == b.ids
  {
    hide AssignAll, QueueTx, AssignLog, RowsHold, Contents;
    GivenRowsExist(e, ms, picks);
    LoggedIsGiven(e.process.queues, ms, picks);
    QueueTxRowsHold(e, t, ms, picks, sids);
    HeldRowStores(e, QueueTx(e, t, ms, picks, sids).value, AssignAll(e.process.queues, ms, picks).1, sids, b);
  }

  lemma WaitStores(
    e: Execution, task: int, sid: StateExecutionId, version: int, request: CommandRequest,
    order: seq<int>, now: Readings, publish: seq<PublishedMessage>, b: L.Batch)
    requires !request.waitingType.EmptyCommand? && request.queueCommands != []
    requires OrderFor(e.process.queues, sid, request, order)
    requires WaitUntilTx(e, task, sid, version, request, order, now, publish).Some?
    requires b in L.HandedOver(e.process.queues, L.Register(sid, request.queueCommands, request.waitingType, order))
    ensures Contents(WaitUntilTx(e, task, sid, version, request, order, now, publish).value,
                     ResultCell(b.sid, b.index)) == b.ids
  {
    var (queues, consumed) := RegisterCommands(e.process.queues, sid, request, order);
    var r := AddCommands(e.process.queues, sid, request.queueCommands);
    LoggedIsConsumed(sid, CommandsOf(r, sid), r.unconsumed, request.waitingType, order);
    StoredIds(e.messages, e.states[sid].results, consumed, b.index);
    WaitingRowHolds(e, task, sid, version, request, order, now, publish);
  }

  lemma WaitingRowHolds(
    e: Execution, task: int, sid: StateExecutionId, version: int, request: CommandRequest,
    order: seq<int>, now: Readings, publish: seq<PublishedMessage>)
    requires !request.waitingType.EmptyCommand? && OrderFor(e.process.queues, sid, request, order)
    requires WaitUntilTx(e, task, sid, version, request, order, now, publish).Some?
    ensures var e', consumed :=
        WaitUntilTx(e, task, sid, version, request, order, now, publish).value,
        RegisterCommands(e.process.queues, sid, request, order).1;
      && sid in e.states && sid in e'.states && Transactions.Known(e.messages, consumed)
      && e'.states[sid].results == AddConsumed(e.messages, e.states[sid].results, consumed)
  {
    UpdateWaitUntilIs(e, sid, request, order, now);
    hide RegisterCommands, AddConsumed, Completed;
  }

  /** The batch a step hands over to a command is what that command's result holds after the step. */
  lemma HandedOverIsStored(states: seq<Session>, steps: seq<Step>, n: nat, b: L.Batch)
    requires IsRun(states, steps) && n < |steps| && b in StepLog(states[n], steps[n])
    ensures Contents(states[n + 1].e, ResultCell(b.sid, b.index)) == b.ids
  {
    AlwaysInv(states, steps, n);
    if steps[n].WaitUntil? {
      WaitingStores(states[n], steps[n], b);
    } else {
      ArrivingStores(states[n], steps[n], b);
    }
  }

  lemma WaitingStores(s: Session, step: Step, b: L.Batch)
    requires SessionInv(s) && Enabled(s, step) && step.WaitUntil? && b in StepLog(s, step)
    ensures Contents(Next(s, step).e, ResultCell(b.sid, b.index)) == b.ids
  {
    hide Inv, WaitUntilTx, Contents, L.HandedOver;
    var p := step.p;
    WaitUntilStep(s, p, step.request, step.order, step.now, step.publish);
    WaitStores(s.e, p.task, p.sid, p.version, step.request, step.order, step.now, step.publish, b);
  }

  lemma ArrivingStores(s: Session, step: Step, b: L.Batch)
    requires SessionInv(s) && Enabled(s, step) && step.QueueMessages? && b in StepLog(s, step)
    ensures Contents(Next(s, step).e, ResultCell(b.sid, b.index)) == b.ids
  {
    assert RegisteredMatch(s.e);
    hide Inv, QueueTx, Contents, AssignLog, RegisteredMatch;
    QueueStep(s, step.task, step.picks, step.sids);
    QueueStores(s.e, step.task, s.e.immediate[step.task].messages, step.picks, step.sids, b);
  }
}
