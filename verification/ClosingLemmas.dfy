/** Finishing states and closing processes keep the invariants. */
module ClosingLemmas {
  import opened Wrappers
  import opened StateExecutionIds
  import opened SequenceMaps
  import opened ProcessModel
  import opened Transactions
  import opened Invariants
  import opened FrameLemmas
  import opened StartingLemmas
  import opened PublishingLemmas

  // ---------- a state finishes ----------

  /** Worker task `t` is in the table, its transaction has not committed, and its state's row is the one it drives. */
  ghost predicate Working(e: Execution, settled: set<int>, t: int, sid: StateExecutionId, kind: WorkerKind) {
    && t in e.immediate && t !in settled && e.immediate[t] == WorkerTask(kind, sid)
    && sid in e.states && e.states[sid].status == StatusOf(kind)
  }

  ghost predicate Finished(e: Execution, e': Execution, sid: StateExecutionId, status: StateStatus) {
    && sid in e.states && !IsActive(status)
    && sid in e'.states && e'.states == e.states[sid := e'.states[sid]]
    && e'.states[sid].status == status
    && e'.states[sid].request == e.states[sid].request && e'.states[sid].results == e.states[sid].results
    && e'.process == e.process.(sequenceMaps := e'.process.sequenceMaps)
    && e'.immediate == e.immediate && e'.timers == e.timers && e'.messages == e.messages && e'.next == e.next
  }

  /** The fence and the pending map decide whether a state can finish; when it can, it alone stops being pending. */
  lemma FinishStateFinishes(
    e: Execution, sid: StateExecutionId, version: int, status: StateStatus, failure: Option<Failure>)
    requires SequencesExact(e) && !IsActive(status)
    ensures var r := FinishState(e, sid, version, status, failure);
      && (r.Some? <==> sid in e.states && e.states[sid].version == version && IsPending(e.process.sequenceMaps, sid))
      && (r.Some? ==>
            && Finished(e, r.value, sid, status)
            && r.value.states[sid].version == version + 1
            && SequencesExact(r.value)
            && (forall other :: IsPending(r.value.process.sequenceMaps, other) <==>
                  IsPending(e.process.sequenceMaps, other) && other != sid))
  {
    CompleteNewRemovesOne(e.process.sequenceMaps, sid);
  }

  lemma FinishedDrives(
    e: Execution, e': Execution, sid: StateExecutionId, status: StateStatus,
    settled: set<int>, t: int, kind: WorkerKind)
    requires Finished(e, e', sid, status) && Working(e, settled, t, sid, kind)
    requires Keyed(e) && DrivenOnce(e, settled) && WaitsOnce(e, settled)
    ensures DrivenOnce(e', settled + {t}) && WaitsOnce(e', settled + {t})
  {
    var settled' := settled + {t};
    assert forall s, u, k :: Drives(e', settled', s, u, k) <==> Drives(e, settled, s, u, k) && u != t;
    assert Drives(e, settled, sid, t, kind);
    SameDriven(e, e', settled, settled', {sid});
  }

  lemma FinishedRest(
    e: Execution, e': Execution, sid: StateExecutionId, status: StateStatus,
    settled: set<int>, t: int, kind: WorkerKind)
    requires Finished(e, e', sid, status) && Working(e, settled, t, sid, kind)
    requires Keyed(e) && RowsExist(e) && ExecutesAfterWait(e) && SettledFailed(e, settled, None)
    ensures Keyed(e') && RowsExist(e') && ExecutesAfterWait(e') && SettledFailed(e', settled + {t}, Some(t))
    ensures status.StateFailed? ==> SettledFailed(e', settled + {t}, None)
    ensures ResultsKept(e, e') && QueueTasksKept(e, e') && WaitingKept(e, e')
  {
  }

  lemma FinishStateKeeps(
    e: Execution, sid: StateExecutionId, version: int, status: StateStatus, failure: Option<Failure>,
    settled: set<int>, t: int, kind: WorkerKind)
    requires InvWithin(e, settled, None) && Working(e, settled, t, sid, kind) && !IsActive(status)
    requires FinishState(e, sid, version, status, failure).Some?
    ensures var e' := FinishState(e, sid, version, status, failure).value;
      InvWithin(e', settled + {t}, Some(t)) && (status.StateFailed? ==> InvWithin(e', settled + {t}, None))
  {
    FinishStateFinishes(e, sid, version, status, failure);
    FinishedKeeps(e, FinishState(e, sid, version, status, failure).value, sid, status, settled, t, kind);
  }

  lemma FinishedPending(e: Execution, e': Execution, sid: StateExecutionId, status: StateStatus)
    requires Finished(e, e', sid, status) && PendingMatches(e)
    requires forall other :: IsPending(e'.process.sequenceMaps, other) <==>
               IsPending(e.process.sequenceMaps, other) && other != sid
    ensures PendingMatches(e')
  {
  }

  lemma FinishedKeeps(
    e: Execution, e': Execution, sid: StateExecutionId, status: StateStatus,
    settled: set<int>, t: int, kind: WorkerKind)
    requires Finished(e, e', sid, status) && Working(e, settled, t, sid, kind)
    requires InvWithin(e, settled, None) && SequencesExact(e')
    requires forall other :: IsPending(e'.process.sequenceMaps, other) <==>
               IsPending(e.process.sequenceMaps, other) && other != sid
    ensures InvWithin(e', settled + {t}, Some(t)) && (status.StateFailed? ==> InvWithin(e', settled + {t}, None))
  {
    assert PendingMatches(e') by { FinishedPending(e, e', sid, status); }
    FinishedRest(e, e', sid, status, settled, t, kind);
    assert DrivenOnce(e', settled + {t}) && WaitsOnce(e', settled + {t}) by {
      FinishedDrives(e, e', sid, status, settled, t, kind);
    }
    assert Waits(e') by { KeepsWaits(e, e'); }
    assert RegisteredMatch(e') by { KeepsRegistered(e, e'); }
    assert MessagesOnce(e') && Faithful(e') by { KeepsMessages(e, e'); }
  }

  // ---------- a process closes ----------

  /** Rows may be aborted and the pending map emptied, but only when the process does not run on. */
  ghost predicate MayClose(e: Execution, e': Execution) {
    && (forall sid :: sid in e.states <==> sid in e'.states)
    && (forall sid :: sid in e.states ==>
          && e'.states[sid].request == e.states[sid].request && e'.states[sid].results == e.states[sid].results
          && (e'.states[sid].status == e.states[sid].status
              || (IsActive(e.states[sid].status) && e'.states[sid].status.StateAborted?)))
    && (e'.process.status.Running? ==>
          e.process.status.Running? && e'.states == e.states && e'.process.sequenceMaps == e.process.sequenceMaps)
    && e'.process.sequenceMaps.sequence == e.process.sequenceMaps.sequence
    && (e'.process.sequenceMaps.pending == e.process.sequenceMaps.pending || e'.process.sequenceMaps.pending == map[])
    && e'.process.queues == e.process.queues
    && e'.immediate == e.immediate && e'.timers == e.timers && e'.messages == e.messages && e'.next == e.next
  }

  lemma MayCloseDrive(e: Execution, e': Execution, settled: set<int>, busy: Option<int>)
    requires MayClose(e, e')
    requires DrivenOnce(e, settled) && WaitsOnce(e, settled) && ExecutesAfterWait(e) && SettledFailed(e, settled, busy)
    ensures DrivenOnce(e', settled) && WaitsOnce(e', settled)
    ensures ExecutesAfterWait(e') && SettledFailed(e', settled, busy)
  {
    assert forall s, u, k :: Drives(e', settled, s, u, k) <==> Drives(e, settled, s, u, k);
    SameDriven(e, e', settled, settled, {});
  }

  lemma MayCloseShape(e: Execution, e': Execution)
    requires MayClose(e, e') && Shape(e) && PendingMatches(e)
    ensures Shape(e') && PendingMatches(e')
  {
    assert forall sid :: IsPending(e'.process.sequenceMaps, sid) ==> IsPending(e.process.sequenceMaps, sid);
  }

  lemma MayCloseKeeps(e: Execution, e': Execution, settled: set<int>, busy: Option<int>)
    requires MayClose(e, e') && InvWithin(e, settled, busy)
    ensures InvWithin(e', settled, busy)
  {
    assert Shape(e') && PendingMatches(e') by { MayCloseShape(e, e'); }
    MayCloseDrive(e, e', settled, busy);
    assert Waits(e') by {
      if e'.process.status.Running? {
        assert forall sid, i, t :: Resolves(e', sid, i, t) <==> Resolves(e, sid, i, t);
        KeepsWaits(e, e');
      }
    }
    assert RegisteredMatch(e') by { KeepsRegistered(e, e'); }
    assert MessagesOnce(e') && Faithful(e') by { KeepsMessages(e, e'); }
  }

  lemma CloseMayClose(e: Execution, close: Option<CloseType>)
    ensures MayClose(e, Close(e, close)) && GracefulHasPending(Close(e, close))
  {
  }

  lemma CloseKeeps(e: Execution, close: Option<CloseType>, settled: set<int>, busy: Option<int>)
    requires InvWithin(e, settled, busy)
    ensures InvWithin(Close(e, close), settled, busy) && GracefulHasPending(Close(e, close))
    ensures Close(e, close).next == e.next
  {
    CloseMayClose(e, close);
    MayCloseKeeps(e, Close(e, close), settled, busy);
  }

  lemma HandleStateDecisionKeeps(e: Execution, d: StateDecision, settled: set<int>, busy: Option<int>)
    requires InvWithin(e, settled, busy) && forall t :: t in settled ==> t < e.next
    ensures var r := HandleStateDecision(e, d);
      r.Some? && InvWithin(r.value, settled, busy) && GracefulHasPending(r.value) && e.next <= r.value.next
  {
    StartStatesKeeps(e, d.nextStates, settled, busy);
    CloseKeeps(StartStates(e, d.nextStates).value, d.close, settled, busy);
  }

  // ---------- the transactions ----------

  lemma RecordIfClosedKeeps(e: Execution, settled: set<int>, busy: Option<int>)
    requires InvWithin(e, settled, busy) && GracefulHasPending(e)
    ensures InvWithin(RecordIfClosed(e), settled, busy) && GracefulHasPending(RecordIfClosed(e))
  {
    if !e.process.status.Running? {
      RecordKeeps(e, e.process.status, settled, busy);
    }
  }

  /** After the row is fenced, completing an execute API never fails but for a state that is not pending. */
  lemma CompleteExecuteKeeps(
    e: Execution, t: int, sid: StateExecutionId, version: int, d: StateDecision, publish: seq<PublishedMessage>,
    settled: set<int>, kind: WorkerKind)
    requires Inv(e, settled) && Working(e, settled, t, sid, kind) && forall u :: u in settled ==> u < e.next
    ensures var r := CompleteExecuteTx(e, t, sid, version, d, publish);
      && (r.Some? <==> e.states[sid].version == version && IsPending(e.process.sequenceMaps, sid))
      && (r.Some? ==> Inv(r.value, settled + {t}))
  {
    FinishStateFinishes(e, sid, version, StateCompleted, None);
    if FinishState(e, sid, version, StateCompleted, None).Some? {
      var settled' := settled + {t};
      FinishStateKeeps(e, sid, version, StateCompleted, None, settled, t, kind);
      var finished := FinishState(e, sid, version, StateCompleted, None).value;
      HandleStateDecisionKeeps(finished, d, settled', Some(t));
      var decided := HandleStateDecision(finished, d).value;
      PublishKeeps(decided, publish, settled', Some(t));
      var published := Publish(decided, publish);
      RecordIfClosedKeeps(published, settled', Some(t));
      BusyStays(e, finished, d, publish, t);
      DeletingBusyKeeps(RecordIfClosed(published), t, settled');
    }
  }

  /** New tasks do not replace the one being worked on. */
  lemma BusyStays(e: Execution, finished: Execution, d: StateDecision, publish: seq<PublishedMessage>, t: int)
    requires t in finished.immediate && t < finished.next && HandleStateDecision(finished, d).Some?
    ensures var published := Publish(HandleStateDecision(finished, d).value, publish);
      && t in RecordIfClosed(published).immediate
      && RecordIfClosed(published).immediate[t] == finished.immediate[t]
  {
    StartingOnlyAdds(finished, d.nextStates, t);
  }

  lemma {:induction false} StartingOnlyAdds(e: Execution, nexts: seq<NextState>, t: int)
    requires t in e.immediate && t < e.next && StartStates(e, nexts).Some?
    ensures var e' := StartStates(e, nexts).value;
      t in e'.immediate && e'.immediate[t] == e.immediate[t] && e.next <= e'.next
  {
    if nexts != [] {
      StartingOnlyAdds(e, nexts[..|nexts| - 1], t);
    }
  }

  /** Recovering leaves the failed task in the table, settled. */
  lemma RecoverKeeps(
    e: Execution, t: int, sid: StateExecutionId, version: int, failure: Failure, destination: NextState,
    settled: set<int>, kind: WorkerKind)
    requires Inv(e, settled) && Working(e, settled, t, sid, kind) && forall u :: u in settled ==> u < e.next
    ensures var r := RecoverTx(e, sid, version, failure, destination);
      && (r.Some? <==> e.states[sid].version == version && IsPending(e.process.sequenceMaps, sid))
      && (r.Some? ==> Inv(r.value, settled + {t}))
  {
    FinishStateFinishes(e, sid, version, StateFailed, Some(failure));
    if FinishState(e, sid, version, StateFailed, Some(failure)).Some? {
      FinishStateKeeps(e, sid, version, StateFailed, Some(failure), settled, t, kind);
      StartStateKeeps(FinishState(e, sid, version, StateFailed, Some(failure)).value, destination, settled + {t}, None);
    }
  }

  lemma RpcKeeps(e: Execution, d: StateDecision, publish: seq<PublishedMessage>, settled: set<int>)
    requires Inv(e, settled) && forall u :: u in settled ==> u < e.next
    ensures var r := RpcTx(e, d, publish); r.Some? && Inv(r.value, settled)
  {
    if e.process.status.Running? {
      HandleStateDecisionKeeps(e, d, settled, None);
      PublishKeeps(HandleStateDecision(e, d).value, publish, settled, None);
    }
  }

  lemma PublishTxKeeps(e: Execution, publish: seq<PublishedMessage>, settled: set<int>)
    requires Inv(e, settled)
    ensures Inv(PublishTx(e, publish), settled)
  {
    if e.process.status.Running? {
      PublishKeeps(e, publish, settled, None);
    }
  }

  function Stopped(e: Execution, status: ProcessStatus): Execution {
    var maps := e.process.sequenceMaps;
    e.(process := e.process.(status := status, sequenceMaps := maps.(pending := map[])),
       states := if NonePending(maps) then e.states else AbortRunning(e.states))
  }

  lemma StoppedMayClose(e: Execution, status: ProcessStatus)
    requires !status.Running?
    ensures MayClose(e, Stopped(e, status)) && GracefulHasPending(Stopped(e, status))
  {
  }

  lemma StopKeeps(e: Execution, status: ProcessStatus, settled: set<int>)
    requires Inv(e, settled) && !status.Running?
    ensures Inv(StopTx(e, status), settled)
  {
    if e.process.status.Running? {
      StoppedMayClose(e, status);
      MayCloseKeeps(e, Stopped(e, status), settled, None);
      RecordKeeps(Stopped(e, status), status, settled, None);
    }
  }

  lemma AbortMayClose(e: Execution)
    requires !e.process.status.Running?
    ensures MayClose(e, e.(states := AbortRunning(e.states)))
  {
  }

  lemma MarkMayClose(e: Execution)
    ensures MayClose(e, e.(process := e.process.(status := ProcessTerminated)))
  {
  }

  lemma AbortKeeps(e: Execution, settled: set<int>)
    requires InvWithin(e, settled, None) && !e.process.status.Running?
    ensures Inv(e.(states := AbortRunning(e.states)), settled)
  {
    AbortMayClose(e);
    MayCloseKeeps(e, e.(states := AbortRunning(e.states)), settled, None);
  }

  lemma TerminateKeeps(e: Execution, settled: set<int>)
    requires Inv(e, settled)
    ensures Inv(TerminateTx(e), settled)
  {
    if e.process.status.Running? {
      var marked := e.(process := e.process.(status := ProcessTerminated));
      MarkMayClose(e);
      MayCloseKeeps(e, marked, settled, None);
      RecordKeeps(marked, ProcessTerminated, settled, None);
      AbortKeeps(InsertImmediate(marked, VisibilityTask(ProcessTerminated)), settled);
    } else {
      AbortKeeps(e, settled);
    }
  }
}
