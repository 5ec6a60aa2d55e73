/** On a running process, what is not harmless breaks the invariants: which of them, and exactly when. */
module HarmfulDeliveries {
  import opened Wrappers
  import opened StateExecutionIds
  import opened LocalQueues
  import opened ProcessModel
  import opened Transactions
  import opened Invariants
  import opened FrameLemmas
  import opened ConsumingLemmas
  import opened WaitingLemmas
  import opened Evolution
  import opened Sessions
  import opened RunTheorems
  import opened ClosingTheorems
  import opened ClosedStatus
  import opened Leftovers
  import opened RedeliveredMessages
  import opened Redeliveries
  import opened RedeliveryTheorems
  import opened HarmlessDeliveries

  // ---------- a commit for a task that is not the state's driver ----------

  lemma CompletingEndsIt(e: Execution, p: Prepared, d: StateDecision, publish: seq<PublishedMessage>)
    requires CompleteExecuteTx(e, p.task, p.sid, p.version, d, publish).Some?
    ensures Ended(CompleteExecuteTx(e, p.task, p.sid, p.version, d, publish).value, p.sid)
  {
    DecisionIsLast(e, p, d, publish);
    hide CompleteExecuteTx;
    var finished := FinishState(e, p.sid, p.version, StateCompleted, None).value;
    assert Ended(finished, p.sid);
    hide FinishState, HandleStateDecision;
    DecidingRevivesNone(finished, d);
  }

  lemma RecoveringEndsIt(e: Execution, sid: StateExecutionId, version: int, failure: Failure, destination: NextState)
    requires RecoverTx(e, sid, version, failure, destination).Some?
    ensures Ended(RecoverTx(e, sid, version, failure, destination).value, sid)
  {
  }

  /** The state ends, or moves to another API, or gets one more driver of its own: a second driver fits none of it. */
  ghost predicate LeavesNoRoom(e: Execution, e': Execution, sid: StateExecutionId) {
    && sid in e.states && sid in e'.states
    && (|| e'.states[sid].status != e.states[sid].status
        || (e.next in e'.timers && e'.timers[e.next].BackoffTimer? && e'.timers[e.next].sid == sid))
  }

  lemma FencedLeavesNoRoom(h: Held, step: Step)
    requires Sound(h) && Enabled(h.s, step) && Fenced(step) && Commits(h.s, step)
    ensures LeavesNoRoom(h.s.e, Effect(h.s, step).value, step.p.sid)
    ensures var row := h.s.e.states[step.p.sid]; row.version == step.p.version && row.status == step.p.status
  {
    hide Inv, TimersHeld, AllPublished;
    FencedCommitsIff(h.s, step);
    assert HeldRead(h, step.p);
    hide SequencesExact, HeldInv;
    match step
    case CompleteExecute(p, d, publish) =>
      hide CompleteExecuteTx;
      CompletingEndsIt(h.s.e, p, d, publish);
    case Recover(p, failure, destination) =>
      hide RecoverTx;
      RecoveringEndsIt(h.s.e, p.sid, p.version, failure, destination);
    case Backoff(p, failure, fireTime) =>
    case WaitUntil(p, request, order, now, publish) =>
      WaitingLeaves(h.s.e, p.task, p.sid, p.version, request, order, now, publish);
  }

  lemma WaitingLeaves(
    e: Execution, task: int, sid: StateExecutionId, version: int, request: CommandRequest,
    order: seq<int>, now: Readings, publish: seq<PublishedMessage>)
    requires request.waitingType.EmptyCommand?
    requires WaitUntilTx(e, task, sid, version, request, order, now, publish).Some?
    ensures var e' := WaitUntilTx(e, task, sid, version, request, order, now, publish).value;
      sid in e.states && sid in e'.states && e'.states[sid].status.ExecuteRunning?
  {
  }

  lemma FencedKeepsOthers(s: Session, step: Step)
    requires Enabled(s, step) && Fenced(step) && Commits(s, step)
    ensures Settling(s.e, Effect(s, step).value, step.p.task) && Tracks(s.e, Effect(s, step).value, {}, {})
  {
    StepTracks(s, step);
    hide Tracks, Evolves, WaitUntilTx, CompleteExecuteTx, RecoverTx, BackoffTx;
    match step
    case WaitUntil(p, request, order, now, publish) =>
      WaitUntilEvolves(s.e, p.task, p.sid, p.version, request, order, now, publish);
    case CompleteExecute(p, d, publish) => CompleteExecuteEvolves(s.e, p.task, p.sid, p.version, d, publish);
    case Recover(p, failure, destination) => RecoverEvolves(s.e, p.sid, p.version, failure, destination);
    case Backoff(p, failure, fireTime) =>
      BackoffEvolves(s.e, p.task, p.sid, p.kind, p.status, p.version, failure, fireTime);
  }

  /** Whatever drove the state before still drives it, if it was not the task that committed. */
  lemma StillDrives(
    e: Execution, e': Execution, settled: set<int>, sid: StateExecutionId, u: int, k: WorkerKind, task: int)
    requires Keyed(e) && Settling(e, e', task) && Tracks(e, e', {}, {})
    requires Drives(e, settled, sid, u, k) && !(u == task && u in e.immediate)
    ensures Drives(e', settled + {task}, sid, u, k) && u < e.next
  {
  }

  lemma SecondDriverBreaks(
    e: Execution, e': Execution, settled: set<int>, sid: StateExecutionId, k: WorkerKind, task: int)
    requires Keyed(e) && DrivenOnce(e, settled) && e.process.status.Running? && e'.process.status.Running?
    requires Settling(e, e', task) && Tracks(e, e', {}, {}) && LeavesNoRoom(e, e', sid)
    requires e.states[sid].status == StatusOf(k)
    requires !(task in e.immediate && task !in settled && e.immediate[task] == WorkerTask(k, sid))
    ensures !DrivenOnce(e', settled + {task})
  {
    assert Driven(e, settled, sid, k);
    var u :| Drives(e, settled, sid, u, k);
    StillDrives(e, e', settled, sid, u, k, task);
    if e.next in e'.timers && e'.timers[e.next].BackoffTimer? && e'.timers[e.next].sid == sid {
      assert Drives(e', settled + {task}, sid, e.next, e'.timers[e.next].kind);
    }
  }

  /**
   A fenced commit leaves every running state with exactly one driver if and only if its task is the state's
   live one, or the process closes: a task that was read again, settled or gone, leaves the real driver behind.
   */
  lemma FencedCommitKeepsIff(h: Held, step: Step)
    requires Sound(h) && Enabled(h.s, step) && Fenced(step) && Commits(h.s, step) && h.s.e.process.status.Running?
    ensures var s' := Next(h.s, step);
      DrivenOnce(s'.e, s'.settled) <==> Live(h, step.p) || !s'.e.process.status.Running?
  {
    hide Effect, Sound, LeavesNoRoom, Tracks, Settling, DrivenOnce, Keyed, Inv;
    SoundDrives(h);
    FencedLeavesNoRoom(h, step);
    FencedKeepsOthers(h.s, step);
    if Live(h, step.p) {
      LiveCommitKeeps(h, step);
      InvDrivesOnce(Effect(h.s, step).value, h.s.settled + {step.p.task});
    } else if Next(h.s, step).e.process.status.Running? {
      SecondDriverBreaks(h.s.e, Effect(h.s, step).value, h.s.settled, step.p.sid, KindOf(step.p.status), step.p.task);
    } else {
      ClosedIsDriven(Effect(h.s, step).value, h.s.settled + {step.p.task});
    }
  }

  lemma ClosedIsDriven(e: Execution, settled: set<int>)
    requires !e.process.status.Running?
    ensures DrivenOnce(e, settled)
  {
  }

  lemma InvDrivesOnce(e: Execution, settled: set<int>)
    requires Inv(e, settled)
    ensures DrivenOnce(e, settled) && Keyed(e)
  {
  }

  // ---------- a conversion ----------

  lemma ConvertingAgainBreaks(e: Execution, settled: set<int>, t: int, sid: StateExecutionId, kind: WorkerKind)
    requires Keyed(e) && DrivenOnce(e, settled) && e.process.status.Running? && e.next !in settled && t !in e.timers
    ensures !DrivenOnce(ConvertTx(e, t, sid, kind), settled)
  {
    var e' := ConvertTx(e, t, sid, kind);
    assert Drives(e', settled, sid, e.next, kind);
    if sid in e.states && e.states[sid].status == StatusOf(kind) {
      assert Driven(e, settled, sid, kind);
      var u :| Drives(e, settled, sid, u, kind);
      assert Drives(e', settled, sid, u, kind) && u < e.next;
    }
  }

  /** Converting a backoff timer keeps every running state driven exactly once iff the timer is still in the table. */
  lemma ConversionKeepsIff(h: Held, t: int)
    requires Sound(h) && MayDeliver(h, FireBackoffAgain(t)) && h.s.e.process.status.Running?
    ensures var s' := SessionAfter(h, FireBackoffAgain(t)); DrivenOnce(s'.e, s'.settled) <==> t in h.s.e.timers
  {
    var e, timer := h.s.e, h.timers[t];
    assert e.next !in h.s.settled;
    InvDrivesOnce(e, h.s.settled);
    if t in e.timers {
      RedeliveryKeeps(h, FireBackoffAgain(t));
      InvDrivesOnce(SessionAfter(h, FireBackoffAgain(t)).e, h.s.settled);
    } else {
      ConvertingAgainBreaks(e, h.s.settled, t, timer.sid, timer.kind);
    }
  }

  // ---------- a queue task ----------

  /** Running or closed: a queue task keeps each message in one place iff it is in the table or carries nothing. */
  lemma QueueTaskKeepsIff(h: Held, t: int, picks: seq<Pick>, sids: seq<StateExecutionId>)
    requires Sound(h) && MayDeliver(h, QueueAgain(t, picks, sids))
    ensures var d := QueueAgain(t, picks, sids);
      && Outcome(h, d).Some?
      && (MessagesOnce(SessionAfter(h, d).e) <==> t in h.s.e.immediate || h.tasks[t].messages == [])
  {
    InvPlacesOnce(h.s.e, h.s.settled);
    hide Inv, SequencesExact, QueueTx, MessagesOnce, RegisteredMatch;
    ArrivalKeepsIff(h.s.e, t, h.tasks[t].messages, picks, sids);
  }

  lemma InvPlacesOnce(e: Execution, settled: set<int>)
    requires Inv(e, settled)
    ensures Keyed(e) && RegisteredMatch(e) && MessagesOnce(e) && Faithful(e)
  {
  }

  // ---------- a wait-until response with commands ----------

  /** What the unfenced response leaves: the row waits or executes, and if it executes at once there is a new driver. */
  ghost predicate Responded(
    e: Execution, e': Execution, task: int, sid: StateExecutionId, completed: bool, delays: nat)
  {
    && sid in e.states && sid in e'.states && e'.states == e.states[sid := e'.states[sid]]
    && e'.states[sid].status == (if completed then ExecuteRunning else WaitUntilWaiting)
    && e'.states[sid].results.timers == e.states[sid].results.timers
    && e'.process.status == e.process.status && e'.process.sequenceMaps == e.process.sequenceMaps
    && var base := if completed then e.next + 1 else e.next;
    && (forall t :: t < e.next && t != task ==> (t in e'.immediate <==> t in e.immediate))
    && (forall t :: t < e.next && t in e'.immediate ==> t in e.immediate && e'.immediate[t] == e.immediate[t])
    && task !in e'.immediate
    && (completed ==> e.next in e'.immediate && e'.immediate[e.next] == WorkerTask(ExecuteKind, sid))
    && (forall t :: base <= t && t in e'.immediate ==> t in e.immediate || e'.immediate[t].QueueTask?)
    && (forall t :: t in e'.timers <==> t in e.timers || base <= t < base + delays)
    && (forall t :: t in e.timers && t < e.next ==> e'.timers[t] == e.timers[t])
    && (forall t :: base <= t < base + delays ==>
          e'.timers[t].CommandTimer? && e'.timers[t].sid == sid && e'.timers[t].index == t - base)
  }

  lemma PublishingAddsQueueTasks(e: Execution, publish: seq<PublishedMessage>)
    ensures var e' := Publish(e, publish);
      && e' == e.(messages := e'.messages, immediate := e'.immediate, next := e'.next) && e.next <= e'.next
      && (forall t :: t in e'.immediate <==> t in e.immediate || e.next <= t < e'.next)
      && (forall t :: t in e.immediate && t < e.next ==> e'.immediate[t] == e.immediate[t])
      && (forall t :: e.next <= t < e'.next ==> e'.immediate[t].QueueTask?)
  {
  }

  /** The row's change, before its timers and the messages. */
  ghost predicate RowMoves(e: Execution, e': Execution, sid: StateExecutionId, completed: bool) {
    && sid in e.states && sid in e'.states && e'.states == e.states[sid := e'.states[sid]] && e'.timers == e.timers
    && e'.states[sid].status == (if completed then ExecuteRunning else WaitUntilWaiting)
    && e'.states[sid].results.timers == e.states[sid].results.timers
    && e'.process.status == e.process.status && e'.process.sequenceMaps == e.process.sequenceMaps
    && e'.immediate == (if completed then e.immediate[e.next := WorkerTask(ExecuteKind, sid)] else e.immediate)
    && e'.next == (if completed then e.next + 1 else e.next)
  }

  lemma RowWaitsMoves(
    e: Execution, sid: StateExecutionId, request: CommandRequest, queues: Queues, results: CommandResults)
    requires sid in e.states && results.timers == e.states[sid].results.timers
    ensures exists completed :: RowMoves(e, RowWaits(e, sid, request, queues, results), sid, completed)
    ensures RowWaits(e, sid, request, queues, results).states[sid].request == request
  {
    hide Completed, Cleanup;
    var completed := request.queueCommands != [] && Completed(request, results);
    assert RowMoves(e, RowWaits(e, sid, request, queues, results), sid, completed);
  }

  lemma ThenTimersAndMessages(
    e: Execution, updated: Execution, e1: Execution, e2: Execution, task: int, sid: StateExecutionId, completed: bool,
    request: CommandRequest, now: Readings, publish: seq<PublishedMessage>)
    requires RowMoves(e, updated, sid, completed) && Keyed(e) && task < e.next
    requires e1 == InsertCommandTimers(updated, sid, request.timerDelays, now)
    requires e2 == DeleteImmediate(Publish(e1, publish), task)
    ensures Responded(e, e2, task, sid, completed, |request.timerDelays|) && e2.states == updated.states
  {
    InsertCommandTimersInserts(updated, sid, request.timerDelays, now);
    PublishingAddsQueueTasks(e1, publish);
    hide Publish, InsertCommandTimers;
  }

  lemma RespondingGives(
    e: Execution, task: int, sid: StateExecutionId, version: int, request: CommandRequest,
    order: seq<int>, now: Readings, publish: seq<PublishedMessage>)
    requires !request.waitingType.EmptyCommand? && OrderFor(e.process.queues, sid, request, order)
    requires WaitUntilTx(e, task, sid, version, request, order, now, publish).Some? && Keyed(e) && task < e.next
    ensures var e' := WaitUntilTx(e, task, sid, version, request, order, now, publish).value;
      && (exists completed :: Responded(e, e', task, sid, completed, |request.timerDelays|))
      && sid in e'.states && e'.states[sid].request == request
  {
    var (queues, consumed) := RegisterCommands(e.process.queues, sid, request, order);
    var results := AddConsumed(e.messages, e.states[sid].results, consumed);
    hide RegisterCommands, RowWaits, InsertCommandTimers, Publish, RowMoves, Responded, Keyed;
    RowWaitsMoves(e, sid, request, queues, results);
    var updated := RowWaits(e, sid, request, queues, results);
    var e' := WaitUntilTx(e, task, sid, version, request, order, now, publish).value;
    var completed :| RowMoves(e, updated, sid, completed);
    ThenTimersAndMessages(e, updated, InsertCommandTimers(updated, sid, request.timerDelays, now), e', task, sid,
                          completed, request, now, publish);
    MovedRowIsThere(e, updated, sid, completed);
  }

  lemma MovedRowIsThere(e: Execution, e': Execution, sid: StateExecutionId, completed: bool)
    requires RowMoves(e, e', sid, completed)
    ensures sid in e'.states
  {
  }

  lemma RespondedDrives(
    e: Execution, e': Execution, settled: set<int>, task: int, sid: StateExecutionId, completed: bool, delays: nat)
    requires Responded(e, e', task, sid, completed, delays) && Keyed(e) && task < e.next
    requires forall t :: t in settled ==> t < e.next
    ensures forall s, u, k :: Drives(e', settled + {task}, s, u, k) <==>
              (Drives(e, settled, s, u, k) && !(u == task && u in e.immediate))
              || (completed && s == sid && u == e.next && k == ExecuteKind)
  {
  }

  /** The response's task is the state's driver, or the state has none. */
  ghost predicate NoOtherDriver(e: Execution, settled: set<int>, task: int, sid: StateExecutionId) {
    forall u, k :: Drives(e, settled, sid, u, k) ==> u == task && u in e.immediate
  }

  lemma RespondedStillDriven(
    e: Execution, e': Execution, settled: set<int>, task: int, sid: StateExecutionId, completed: bool, delays: nat)
    requires Responded(e, e', task, sid, completed, delays) && Keyed(e) && task < e.next
    requires (forall t :: t in settled ==> t < e.next) && DrivenOnce(e, settled) && e.process.status.Running?
    requires task in e.immediate && e.immediate[task].WorkerTask? ==> e.immediate[task].sid == sid
    requires NoOtherDriver(e, settled, task, sid)
    ensures DrivenOnce(e', settled + {task})
  {
    RespondedDrives(e, e', settled, task, sid, completed, delays);
    SameDriven(e, e', settled, settled + {task}, {sid});
    assert completed ==> Drives(e', settled + {task}, sid, e.next, ExecuteKind);
  }

  lemma RespondedTwiceDriven(
    e: Execution, e': Execution, settled: set<int>, task: int, sid: StateExecutionId, completed: bool, delays: nat)
    requires Responded(e, e', task, sid, completed, delays) && Keyed(e) && task < e.next
    requires (forall t :: t in settled ==> t < e.next) && e.process.status.Running?
    requires !NoOtherDriver(e, settled, task, sid)
    ensures !DrivenOnce(e', settled + {task})
  {
    RespondedDrives(e, e', settled, task, sid, completed, delays);
    var u, k :| Drives(e, settled, sid, u, k) && !(u == task && u in e.immediate);
    assert Drives(e', settled + {task}, sid, u, k) && u < e.next;
    if completed {
      assert Drives(e', settled + {task}, sid, e.next, ExecuteKind);
    }
  }

  lemma PendingStaysIff(
    e: Execution, e': Execution, task: int, sid: StateExecutionId, completed: bool, delays: nat)
    requires Responded(e, e', task, sid, completed, delays) && PendingMatches(e) && e.process.status.Running?
    ensures PendingMatches(e') <==> IsActive(e.states[sid].status)
  {
  }

  /** An active state without another driver waits, or is driven by this very task. */
  lemma DriverOrWaiting(e: Execution, settled: set<int>, task: int, sid: StateExecutionId, kind: WorkerKind)
    requires Keyed(e) && DrivenOnce(e, settled) && e.process.status.Running? && sid in e.states
    requires task in e.immediate ==> e.immediate[task] == WorkerTask(kind, sid)
    ensures NoOtherDriver(e, settled, task, sid) && IsActive(e.states[sid].status) <==>
              e.states[sid].status.WaitUntilWaiting? || (task in e.immediate && task !in settled)
  {
    if task in e.immediate && task !in settled {
      assert Drives(e, settled, sid, task, kind);
    } else if e.states[sid].status.WaitUntilRunning? {
      assert Driven(e, settled, sid, WaitUntilKind);
    } else if e.states[sid].status.ExecuteRunning? {
      assert Driven(e, settled, sid, ExecuteKind);
    }
  }

  /** `e'` is what some response for the read leaves. */
  ghost predicate RespondedFor(e: Execution, e': Execution, p: Prepared) {
    exists completed, delays :: Responded(e, e', p.task, p.sid, completed, delays)
  }

  lemma ResponseKeepsRowsIff(e: Execution, e': Execution, settled: set<int>, p: Prepared)
    requires RespondedFor(e, e', p) && Keyed(e) && p.task < e.next && forall t :: t in settled ==> t < e.next
    requires DrivenOnce(e, settled) && PendingMatches(e) && e.process.status.Running?
    requires p.task in e.immediate ==> e.immediate[p.task] == WorkerTask(p.kind, p.sid)
    ensures p.sid in e.states
    ensures DrivenOnce(e', settled + {p.task}) && PendingMatches(e') <==>
              e.states[p.sid].status.WaitUntilWaiting? || (p.task in e.immediate && p.task !in settled)
  {
    hide Responded, DrivenOnce, PendingMatches, Keyed, NoOtherDriver, IsActive;
    var completed, delays: nat :| Responded(e, e', p.task, p.sid, completed, delays);
    RespondedRowIsThere(e, e', p.task, p.sid, completed, delays);
    PendingStaysIff(e, e', p.task, p.sid, completed, delays);
    DriverOrWaiting(e, settled, p.task, p.sid, p.kind);
    if NoOtherDriver(e, settled, p.task, p.sid) {
      RespondedStillDriven(e, e', settled, p.task, p.sid, completed, delays);
    } else {
      RespondedTwiceDriven(e, e', settled, p.task, p.sid, completed, delays);
    }
  }

  lemma RespondedRowIsThere(
    e: Execution, e': Execution, task: int, sid: StateExecutionId, completed: bool, delays: nat)
    requires Responded(e, e', task, sid, completed, delays)
    ensures sid in e.states
  {
  }

  lemma ResponseGives(h: Held, d: Delivery)
    requires Sound(h) && MayDeliver(h, d) && d.RespondAgain?
    ensures Outcome(h, d).Some? && SessionAfter(h, d).settled == h.s.settled + {d.p.task}
    ensures var e' := SessionAfter(h, d).e;
      && (exists completed :: Responded(h.s.e, e', d.p.task, d.p.sid, completed, |d.request.timerDelays|))
      && d.p.sid in e'.states && e'.states[d.p.sid].request == d.request
    ensures d.p.task < h.s.e.next
    ensures d.p.task in h.s.e.immediate ==> h.s.e.immediate[d.p.task] == WorkerTask(d.p.kind, d.p.sid)
  {
    InvPlacesOnce(h.s.e, h.s.settled);
    hide Inv, TimersHeld, AllPublished, SequencesExact, Responded;
    assert HeldRead(h, d.p);
    hide HeldInv;
    ResponseNeverFails(h.s.e, d.p.task, d.p.sid, d.p.version, d.request, d.order, d.now, d.publish);
    RespondingGives(h.s.e, d.p.task, d.p.sid, d.p.version, d.request, d.order, d.now, d.publish);
  }

  lemma ConsumesWhatIsThere(e: Execution, sid: StateExecutionId, request: CommandRequest, order: seq<int>)
    requires OrderFor(e.process.queues, sid, request, order) && Faithful(e)
    ensures Transactions.Known(e.messages, RegisterCommands(e.process.queues, sid, request, order).1)
  {
    UnconsumedIsFaithful(e);
    if request.queueCommands != [] {
      var r := AddCommands(e.process.queues, sid, request.queueCommands);
      VisitAllFromQueues(CommandsOf(r, sid), r.unconsumed, request.waitingType, order);
      hide VisitAll, CommandsOf, Faithful;
      var consumed := RegisterCommands(e.process.queues, sid, request, order).1;
      forall i, id | i in consumed && id in consumed[i] ensures id in e.messages {
        assert id in Waiting(e.process.queues.unconsumed, CommandsOf(r, sid)[i].queue);
      }
    }
  }

  lemma ResponseNeverFails(
    e: Execution, task: int, sid: StateExecutionId, version: int, request: CommandRequest,
    order: seq<int>, now: Readings, publish: seq<PublishedMessage>)
    requires !request.waitingType.EmptyCommand? && OrderFor(e.process.queues, sid, request, order)
    requires sid in e.states && Faithful(e)
    ensures WaitUntilTx(e, task, sid, version, request, order, now, publish).Some?
  {
    hide RegisterCommands, StartWaiting, Publish, Transactions.Known, Faithful;
    ConsumesWhatIsThere(e, sid, request, order);
  }

  /**
   A response with commands, which nothing fences, keeps the rows in order (each running state driven once and
   pending exactly the active ones) if and only if its task is live or the state is waiting still.
   */
  lemma ResponseKeepsIff(h: Held, d: Delivery)
    requires Sound(h) && MayDeliver(h, d) && d.RespondAgain? && h.s.e.process.status.Running?
    ensures Outcome(h, d).Some? && d.p.sid in h.s.e.states
    ensures var s' := SessionAfter(h, d);
      DrivenOnce(s'.e, s'.settled) && PendingMatches(s'.e) <==>
      h.s.e.states[d.p.sid].status.WaitUntilWaiting? || (d.p.task in h.s.e.immediate && d.p.task !in h.s.settled)
  {
    hide MayDeliver, Outcome, SessionAfter, Responded, DrivenOnce, PendingMatches, Keyed;
    ResponseGives(h, d);
    var e' := SessionAfter(h, d).e;
    var completed :| Responded(h.s.e, e', d.p.task, d.p.sid, completed, |d.request.timerDelays|);
    assert RespondedFor(h.s.e, e', d.p);
    SoundDrives(h);
    hide Sound;
    ResponseKeepsRowsIff(h.s.e, e', h.s.settled, d.p);
  }

  lemma SoundDrives(h: Held)
    requires Sound(h)
    ensures Keyed(h.s.e) && DrivenOnce(h.s.e, h.s.settled) && PendingMatches(h.s.e) && Waits(h.s.e)
    ensures forall t :: t in h.s.settled ==> t < h.s.e.next
  {
  }

  // ---------- the timers of a second response ----------

  lemma RespondedResolves(e: Execution, e': Execution, task: int, sid: StateExecutionId, delays: nat)
    requires Responded(e, e', task, sid, false, delays) && Keyed(e)
    ensures forall i, t :: Resolves(e', sid, i, t) <==>
              Resolves(e, sid, i, t) || (0 <= i < delays && t == e.next + i)
  {
  }

  lemma TimersDoubleUnlessNone(e: Execution, e': Execution, task: int, sid: StateExecutionId)
    requires sid in e'.states && Responded(e, e', task, sid, false, |e'.states[sid].request.timerDelays|) && Keyed(e)
    requires TimersRest(e, sid) && !e'.states[sid].request.waitingType.EmptyCommand?
    ensures TimersRest(e', sid) <==> e.states[sid].request.timerDelays == []
  {
    var delays := |e'.states[sid].request.timerDelays|;
    RespondedResolves(e, e', task, sid, delays);
    if e.states[sid].request.timerDelays == [] {
      forall i | 0 <= i < delays ensures Timed(e', sid, i) {
        assert Resolves(e', sid, i, e.next + i);
      }
    } else {
      if 0 !in e.states[sid].results.timers {
        assert Timed(e, sid, 0);
        var t :| Resolves(e, sid, 0, t);
        assert Resolves(e', sid, 0, t) && t < e.next;
      }
      assert 0 < delays ==> Resolves(e', sid, 0, e.next);
    }
  }

  /**
   A second response that leaves its state waiting keeps one timer or result for each timer command if and only
   if the first one had no timer command.
   */
  lemma SecondResponseKeepsTimersIff(h: Held, d: Delivery)
    requires Sound(h) && MayDeliver(h, d) && d.RespondAgain? && h.s.e.process.status.Running?
    requires d.p.sid in h.s.e.states && h.s.e.states[d.p.sid].status.WaitUntilWaiting?
    ensures var e' := SessionAfter(h, d).e;
      && d.p.sid in e'.states
      && (e'.states[d.p.sid].status.WaitUntilWaiting? ==>
            (TimersRest(e', d.p.sid) <==> h.s.e.states[d.p.sid].request.timerDelays == []))
  {
    NotEmpty(h, d);
    hide MayDeliver, Outcome, SessionAfter, Responded, TimersRest, Keyed;
    ResponseGives(h, d);
    SoundDrives(h);
    hide Sound;
    var e, e', sid := h.s.e, SessionAfter(h, d).e, d.p.sid;
    if e'.states[sid].status.WaitUntilWaiting? {
      var completed :| Responded(e, e', d.p.task, sid, completed, |d.request.timerDelays|);
      WaitingIsNotCompleted(e, e', d.p.task, sid, completed, |d.request.timerDelays|);
      assert WaitsForTheRest(e, sid);
      TimersDoubleUnlessNone(e, e', d.p.task, sid);
    }
  }

  lemma NotEmpty(h: Held, d: Delivery)
    requires MayDeliver(h, d) && d.RespondAgain?
    ensures !d.request.waitingType.EmptyCommand?
  {
  }

  lemma WaitingIsNotCompleted(
    e: Execution, e': Execution, task: int, sid: StateExecutionId, completed: bool, delays: nat)
    requires Responded(e, e', task, sid, completed, delays) && e'.states[sid].status.WaitUntilWaiting?
    ensures !completed
  {
  }
}
