/** What becomes of timers: none is lost on the way, and a command timer that fires too late stays for ever. */
module Leftovers {
  import opened Wrappers
  import opened StateExecutionIds
  import opened LocalQueues
  import opened ProcessModel
  import opened Transactions
  import opened Invariants
  import opened WaitingLemmas
  import opened Sessions
  import opened SessionLemmas
  import opened RunTheorems

  /** The timer commands that had their result still have it. */
  predicate TimersGrow(r: CommandResults, r': CommandResults) {
    forall i :: i in r.timers ==> i in r'.timers && (r.timers[i] ==> r'.timers[i])
  }

  /**
   Only the timers in `gone` may leave the table, keys are not reused, results of timer commands stay, and no
   row starts to wait but those of the states in `waits`.
   */
  ghost predicate Tracks(e: Execution, e': Execution, gone: set<int>, waits: set<StateExecutionId>) {
    && e.next <= e'.next
    && (forall t :: t in e.timers && t < e.next && t !in gone ==> t in e'.timers)
    && (forall t :: t in e'.timers && t < e.next ==> t in e.timers && e'.timers[t] == e.timers[t])
    && (forall t :: t in e'.timers ==> t in e.timers || t < e'.next)
    && (forall sid :: sid in e.states ==>
          && sid in e'.states && TimersGrow(e.states[sid].results, e'.states[sid].results)
          && (e'.states[sid].status.WaitUntilWaiting? && sid !in waits ==> e.states[sid].status.WaitUntilWaiting?))
  }

  lemma TracksTwice(
    e: Execution, e1: Execution, e2: Execution, gone: set<int>, gone': set<int>, waits: set<StateExecutionId>)
    requires Tracks(e, e1, gone, waits) && Tracks(e1, e2, gone', {})
    ensures Tracks(e, e2, gone + gone', waits)
  {
    forall sid | sid in e.states ensures TimersGrow(e.states[sid].results, e2.states[sid].results) {
      assert TimersGrow(e.states[sid].results, e1.states[sid].results);
    }
  }

  lemma NothingMore()
    ensures var none: set<int> := {}; none + none == none
  {
  }

  lemma TracksBoth(e: Execution, e1: Execution, e2: Execution)
    requires Tracks(e, e1, {}, {}) && Tracks(e1, e2, {}, {})
    ensures Tracks(e, e2, {}, {})
  {
    TracksTwice(e, e1, e2, {}, {}, {});
    NothingMore();
  }

  // ---------- the parts of transactions ----------

  lemma StartStateTracks(e: Execution, next: NextState)
    requires StartState(e, next).Some?
    ensures Tracks(e, StartState(e, next).value, {}, {})
  {
  }

  lemma {:induction false} StartStatesTrack(e: Execution, nexts: seq<NextState>)
    requires StartStates(e, nexts).Some?
    ensures Tracks(e, StartStates(e, nexts).value, {}, {})
  {
    if nexts != [] {
      var e1 := StartStates(e, nexts[..|nexts| - 1]).value;
      StartStatesTrack(e, nexts[..|nexts| - 1]);
      StartStateTracks(e1, nexts[|nexts| - 1]);
      hide StartState, Tracks;
      TracksBoth(e, e1, StartStates(e, nexts).value);
    }
  }

  lemma ClosingTracks(e: Execution, close: Option<CloseType>)
    ensures Tracks(e, Close(e, close), {}, {})
  {
  }

  lemma DecidingTracks(e: Execution, d: StateDecision)
    requires HandleStateDecision(e, d).Some?
    ensures Tracks(e, HandleStateDecision(e, d).value, {}, {})
  {
    hide Tracks;
    StartStatesTrack(e, d.nextStates);
    var started := StartStates(e, d.nextStates).value;
    ClosingTracks(started, d.close);
    TracksBoth(e, started, Close(started, d.close));
  }

  lemma FinishingTracks(
    e: Execution, sid: StateExecutionId, version: int, status: StateStatus, failure: Option<Failure>)
    requires FinishState(e, sid, version, status, failure).Some? && !status.WaitUntilWaiting?
    ensures Tracks(e, FinishState(e, sid, version, status, failure).value, {}, {})
  {
  }

  /** Tasks, messages and the process row do not matter here. */
  lemma SameTimersTrack(e: Execution, e': Execution)
    requires e'.timers == e.timers && e'.states == e.states && e.next <= e'.next
    ensures Tracks(e, e', {}, {})
  {
  }

  // ---------- the transactions ----------

  lemma CompleteExecuteTracks(
    e: Execution, task: int, sid: StateExecutionId, version: int, d: StateDecision, publish: seq<PublishedMessage>)
    requires CompleteExecuteTx(e, task, sid, version, d, publish).Some?
    ensures Tracks(e, CompleteExecuteTx(e, task, sid, version, d, publish).value, {}, {})
  {
    hide Tracks, FinishState, HandleStateDecision;
    var finished := FinishState(e, sid, version, StateCompleted, None).value;
    var decided := HandleStateDecision(finished, d).value;
    FinishingTracks(e, sid, version, StateCompleted, None);
    DecidingTracks(finished, d);
    TracksBoth(e, finished, decided);
    SameTimersTrack(decided, CompleteExecuteTx(e, task, sid, version, d, publish).value);
    TracksBoth(e, decided, CompleteExecuteTx(e, task, sid, version, d, publish).value);
  }

  lemma RecoverTracks(e: Execution, sid: StateExecutionId, version: int, failure: Failure, destination: NextState)
    requires RecoverTx(e, sid, version, failure, destination).Some?
    ensures Tracks(e, RecoverTx(e, sid, version, failure, destination).value, {}, {})
  {
    hide Tracks, FinishState, StartState;
    var finished := FinishState(e, sid, version, StateFailed, Some(failure)).value;
    FinishingTracks(e, sid, version, StateFailed, Some(failure));
    StartStateTracks(finished, destination);
    TracksBoth(e, finished, StartState(finished, destination).value);
  }

  lemma RpcTracks(e: Execution, d: StateDecision, publish: seq<PublishedMessage>)
    requires RpcTx(e, d, publish).Some?
    ensures Tracks(e, RpcTx(e, d, publish).value, {}, {})
  {
    hide Tracks, HandleStateDecision;
    if e.process.status.Running? {
      var decided := HandleStateDecision(e, d).value;
      DecidingTracks(e, d);
      SameTimersTrack(decided, Publish(decided, publish));
      TracksBoth(e, decided, Publish(decided, publish));
    } else {
      SameTimersTrack(e, e);
    }
  }

  lemma BackoffTracks(
    e: Execution, task: int, sid: StateExecutionId, kind: WorkerKind, status: StateStatus, version: int,
    failure: Failure, fireTime: int)
    requires BackoffTx(e, task, sid, kind, status, version, failure, fireTime).Some? && !status.WaitUntilWaiting?
    ensures Tracks(e, BackoffTx(e, task, sid, kind, status, version, failure, fireTime).value, {}, {})
  {
  }

  lemma RowWaitsTracks(
    e: Execution, sid: StateExecutionId, request: CommandRequest, queues: Queues, results: CommandResults)
    requires sid in e.states && TimersGrow(e.states[sid].results, results)
    ensures Tracks(e, RowWaits(e, sid, request, queues, results), {}, {sid})
  {
    hide Completed, Cleanup;
  }

  lemma CommandTimersTrack(e: Execution, sid: StateExecutionId, delays: seq<int>, now: Readings)
    ensures Tracks(e, InsertCommandTimers(e, sid, delays, now), {}, {})
  {
    InsertCommandTimersInserts(e, sid, delays, now);
  }

  lemma UpdatingTracks(
    e: Execution, sid: StateExecutionId, request: CommandRequest, order: seq<int>, now: Readings)
    requires OrderFor(e.process.queues, sid, request, order)
    requires UpdateWaitUntil(e, sid, request, order, now).Some?
    ensures Tracks(e, UpdateWaitUntil(e, sid, request, order, now).value, {}, {sid})
  {
    var (queues, consumed) := RegisterCommands(e.process.queues, sid, request, order);
    var results := AddConsumed(e.messages, e.states[sid].results, consumed);
    var updated := RowWaits(e, sid, request, queues, results);
    hide RegisterCommands, RowWaits, Tracks;
    RowWaitsTracks(e, sid, request, queues, results);
    CommandTimersTrack(updated, sid, request.timerDelays, now);
    TracksTwice(e, updated, InsertCommandTimers(updated, sid, request.timerDelays, now), {}, {}, {sid});
    NothingMore();
  }

  lemma WaitUntilTracks(
    e: Execution, task: int, sid: StateExecutionId, version: int, request: CommandRequest,
    order: seq<int>, now: Readings, publish: seq<PublishedMessage>)
    requires request.waitingType.EmptyCommand? || OrderFor(e.process.queues, sid, request, order)
    requires WaitUntilTx(e, task, sid, version, request, order, now, publish).Some?
    ensures Tracks(e, WaitUntilTx(e, task, sid, version, request, order, now, publish).value, {},
                   if request.waitingType.EmptyCommand? then {} else {sid})
  {
    var e' := WaitUntilTx(e, task, sid, version, request, order, now, publish).value;
    if request.waitingType.EmptyCommand? {
      var updated := CompleteWaitUntil(e, sid, version).value;
      assert Tracks(e, updated, {}, {});
      hide Tracks, CompleteWaitUntil;
      SameTimersTrack(updated, e');
      TracksBoth(e, updated, e');
    } else {
      UpdatingTracks(e, sid, request, order, now);
      hide Tracks, UpdateWaitUntil;
      var updated := UpdateWaitUntil(e, sid, request, order, now).value;
      SameTimersTrack(updated, e');
      TracksTwice(e, updated, e', {}, {}, {sid});
      NothingMore();
    }
  }

  lemma WithResultsTracks(e: Execution, sid: StateExecutionId, results: CommandResults)
    requires sid in e.states && TimersGrow(e.states[sid].results, results)
    ensures Tracks(e, WithResults(e, sid, results), {}, {})
  {
    hide Completed, Cleanup;
  }

  lemma {:induction false} AssignedRowsTrack(e: Execution, a: Assigned, sids: seq<StateExecutionId>)
    requires (forall sid :: sid in sids ==> sid in a) && UpdateAssignedRows(e, a, sids).Some?
    ensures Tracks(e, UpdateAssignedRows(e, a, sids).value, {}, {})
  {
    if sids != [] {
      var front, last := sids[..|sids| - 1], sids[|sids| - 1];
      AssignedRowsTrack(e, a, front);
      var e1 := UpdateAssignedRows(e, a, front).value;
      var results := AddConsumed(e1.messages, e1.states[last].results, a[last]);
      WithResultsTracks(e1, last, results);
      hide WithResults, Tracks;
      TracksBoth(e, e1, WithResults(e1, last, results));
    }
  }

  lemma QueueTracks(e: Execution, task: int, ms: seq<QueuedMessage>, picks: seq<Pick>, sids: seq<StateExecutionId>)
    requires |picks| == |ms| && IsOrder(sids, AssignAll(e.process.queues, ms, picks).1.Keys)
    requires QueueTx(e, task, ms, picks, sids).Some?
    ensures Tracks(e, QueueTx(e, task, ms, picks, sids).value, {}, {})
  {
    hide AssignAll, UpdateAssignedRows, Tracks;
    var (queues, given) := AssignAll(e.process.queues, ms, picks);
    var e0 := e.(process := e.process.(queues := queues));
    var e1 := UpdateAssignedRows(e0, given, sids).value;
    SameTimersTrack(e, e0);
    AssignedRowsTrack(e0, given, sids);
    TracksBoth(e, e0, e1);
    SameTimersTrack(e1, DeleteImmediate(e1, task));
    TracksBoth(e, e1, DeleteImmediate(e1, task));
  }

  lemma DeletingTracks(e: Execution, timer: int)
    ensures Tracks(e, DeleteTimer(e, timer), {timer}, {})
  {
  }

  /** The fired timer is deleted exactly when its state waits, and then its result is there. */
  lemma CommandTimerTracks(e: Execution, timer: int, sid: StateExecutionId, index: int)
    requires CommandTimerTx(e, timer, sid, index).Some?
    ensures var e' := CommandTimerTx(e, timer, sid, index).value;
      && sid in e.states && sid in e'.states
      && Tracks(e, e', if e.states[sid].status.WaitUntilWaiting? then {timer} else {}, {})
      && (e.states[sid].status.WaitUntilWaiting? ==>
            index in e'.states[sid].results.timers && e'.states[sid].results.timers[index])
  {
    hide Tracks, Completed, Cleanup;
    if e.states[sid].status.WaitUntilWaiting? {
      var results := e.states[sid].results.(timers := e.states[sid].results.timers[index := true]);
      var updated := WithResults(e, sid, results);
      WithResultsTracks(e, sid, results);
      DeletingTracks(updated, timer);
      TracksTwice(e, updated, DeleteTimer(updated, timer), {}, {timer}, {});
      assert {} + {timer} == {timer};
    } else {
      SameTimersTrack(e, e);
    }
  }

  lemma ConvertTracks(e: Execution, timer: int, sid: StateExecutionId, kind: WorkerKind)
    ensures Tracks(e, ConvertTx(e, timer, sid, kind), {timer}, {})
  {
  }

  lemma StopTracks(e: Execution, status: ProcessStatus)
    ensures Tracks(e, StopTx(e, status), {}, {})
  {
  }

  lemma TerminateTracks(e: Execution)
    ensures Tracks(e, TerminateTx(e), {}, {})
  {
  }

  lemma StoppingTracks(e: Execution, status: ProcessStatus, timer: int)
    ensures Tracks(e, StopTx(e, status), {}, {}) && Tracks(e, TerminateTx(e), {}, {})
    ensures Tracks(e, TimeoutTx(e, timer), {timer}, {})
    ensures !TimeoutTx(e, timer).process.status.Running?
  {
    StopTracks(e, status);
    StopTracks(e, ProcessTimeout);
    TerminateTracks(e);
    var stopped := StopTx(e, ProcessTimeout);
    assert !stopped.process.status.Running?;
    hide StopTx, TerminateTx, Tracks;
    DeletingTracks(stopped, timer);
    TracksTwice(e, stopped, TimeoutTx(e, timer), {}, {timer}, {});
    assert {} + {timer} == {timer};
  }

  // ---------- steps ----------

  function Removed(s: Session, step: Step): set<int> {
    match step
    case FireCommand(t) =>
      if t in s.e.timers && s.e.timers[t].CommandTimer? && s.e.timers[t].sid in s.e.states &&
         s.e.states[s.e.timers[t].sid].status.WaitUntilWaiting? then {t} else {}
    case FireBackoff(t) => {t}
    case FireTimeout(t) => {t}
    case _ => {}
  }

  function StartsToWait(step: Step): set<StateExecutionId> {
    if step.WaitUntil? && !step.request.waitingType.EmptyCommand? then {step.p.sid} else {}
  }

  lemma StepTracks(s: Session, step: Step)
    requires Enabled(s, step) && Commits(s, step)
    ensures Tracks(s.e, Effect(s, step).value, Removed(s, step), StartsToWait(step))
  {
    hide Tracks, CompleteExecuteTx, RpcTx, RecoverTx, BackoffTx, QueueTx, CommandTimerTx, TimeoutTx, StopTx,
      TerminateTx;
    match step
    case WaitUntil(p, request, order, now, publish) =>
      WaitUntilTracks(s.e, p.task, p.sid, p.version, request, order, now, publish);
    case CompleteExecute(p, d, publish) => CompleteExecuteTracks(s.e, p.task, p.sid, p.version, d, publish);
    case Recover(p, failure, destination) => RecoverTracks(s.e, p.sid, p.version, failure, destination);
    case Backoff(p, failure, fireTime) =>
      BackoffTracks(s.e, p.task, p.sid, p.kind, p.status, p.version, failure, fireTime);
    case QueueMessages(t, picks, sids) => QueueTracks(s.e, t, s.e.immediate[t].messages, picks, sids);
    case FireCommand(t) => CommandTimerTracks(s.e, t, s.e.timers[t].sid, s.e.timers[t].index);
    case FireBackoff(t) => ConvertTracks(s.e, t, s.e.timers[t].sid, s.e.timers[t].kind);
    case FireTimeout(t) => StoppingTracks(s.e, ProcessTimeout, t);
    case Rpc(d, publish) => RpcTracks(s.e, d, publish);
    case Stop(status) => StoppingTracks(s.e, status, 0);
    case TerminateIfRunning => StoppingTracks(s.e, ProcessTerminated, 0);
    case Prepare(_) | RecordVisibility(_) | PublishMessages(_) | OthersTookKeys(_) =>
      SameTimersTrack(s.e, Effect(s, step).value);
  }

  // ---------- a command timer that fires too late ----------

  /** The timer of a command whose state no longer waits. */
  ghost predicate Leftover(e: Execution, t: int) {
    && t in e.timers && e.timers[t].CommandTimer?
    && e.timers[t].sid in e.states && !e.states[e.timers[t].sid].status.WaitUntilWaiting?
  }

  /** A state with a command timer has had its wait-until response, so it never starts to wait again. */
  lemma WaitsNoMore(s: Session, step: Step, t: int)
    requires SessionInv(s) && Enabled(s, step) && t in s.e.timers && s.e.timers[t].CommandTimer?
    ensures s.e.timers[t].sid !in StartsToWait(step)
  {
    if step.WaitUntil? && !step.request.waitingType.EmptyCommand? {
      assert PreparedRead(s.e, s.settled, step.p);
      assert Drives(s.e, s.settled, step.p.sid, step.p.task, WaitUntilKind);
    }
  }

  lemma TimersAreOld(e: Execution, settled: set<int>)
    requires Inv(e, settled)
    ensures forall t :: t in e.timers ==> t < e.next
  {
  }

  lemma LeftoverStep(s: Session, step: Step, t: int)
    requires SessionInv(s) && Enabled(s, step) && Leftover(s.e, t)
    ensures Leftover(Next(s, step).e, t) && Next(s, step).e.timers[t] == s.e.timers[t]
  {
    hide Inv, Effect, StartsToWait;
    WaitsNoMore(s, step, t);
    TimersAreOld(s.e, s.settled);
    if Commits(s, step) {
      StepTracks(s, step);
    }
  }

  /**
   Firing it does nothing, and neither does anything else: the timer of a command whose state no longer waits
   stays in the table for the rest of any run, to be loaded and fired again by every preload that reaches it.
   */
  lemma {:induction false} LeftoverStays(states: seq<Session>, steps: seq<Step>, i: nat, j: nat, t: int)
    requires IsRun(states, steps) && i <= j <= |steps| && Leftover(states[i].e, t)
    ensures Leftover(states[j].e, t) && states[j].e.timers[t] == states[i].e.timers[t]
    ensures j < |steps| && steps[j] == FireCommand(t) ==> states[j + 1].e == states[j].e
    decreases j
  {
    hide Inv, Leftover;
    if i < j {
      LeftoverStays(states, steps, i, j - 1, t);
      AlwaysInv(states, steps, j - 1);
      LeftoverStep(states[j - 1], steps[j - 1], t);
    }
    if j < |steps| && steps[j] == FireCommand(t) {
      FiringLeftover(states[j], t);
    }
  }

  lemma FiringLeftover(s: Session, t: int)
    requires Enabled(s, FireCommand(t)) && Leftover(s.e, t)
    ensures Next(s, FireCommand(t)).e == s.e
  {
  }
}
