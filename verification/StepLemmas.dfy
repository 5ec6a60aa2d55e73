/** The remaining transactions keep the invariants: starting, waiting, timing out. */
module StepLemmas {
  import opened Wrappers
  import opened StateExecutionIds
  import opened ProcessModel
  import opened Transactions
  import opened Invariants
  import opened FrameLemmas
  import opened StartingLemmas
  import opened PublishingLemmas
  import opened ClosingLemmas
  import opened DrivingLemmas
  import opened WaitingLemmas

  // ---------- timeout timers drive nothing ----------

  ghost predicate SameButTimeouts(e: Execution, e': Execution) {
    && e'.process == e.process && e'.states == e.states && e'.immediate == e.immediate && e'.messages == e.messages
    && e.next <= e'.next
    && (forall t :: t in e'.timers && t !in e.timers ==> t == e.next < e'.next && e'.timers[t].TimeoutTimer?)
    && (forall t :: t in e'.timers && t in e.timers ==> e'.timers[t] == e.timers[t])
    && (forall t :: t in e.timers && t !in e'.timers ==> e.timers[t].TimeoutTimer?)
  }

  lemma TimeoutsDriveNothing(e: Execution, e': Execution, settled: set<int>)
    requires SameButTimeouts(e, e')
    requires Shape(e) && DrivenOnce(e, settled) && WaitsOnce(e, settled)
    requires ExecutesAfterWait(e) && SettledFailed(e, settled, None)
    ensures Shape(e') && DrivenOnce(e', settled) && WaitsOnce(e', settled)
    ensures ExecutesAfterWait(e') && SettledFailed(e', settled, None)
  {
    assert forall s, t, k :: Drives(e', settled, s, t, k) <==> Drives(e, settled, s, t, k);
    SameDriven(e, e', settled, settled, {});
  }

  lemma TimeoutsKeep(e: Execution, e': Execution, settled: set<int>)
    requires SameButTimeouts(e, e') && Inv(e, settled)
    ensures Inv(e', settled)
  {
    TimeoutsDriveNothing(e, e', settled);
    assert Waits(e') && RegisteredMatch(e') && PendingMatches(e') by { KeepsWaits(e, e'); }
    assert MessagesOnce(e') && Faithful(e') by { KeepsMessages(e, e'); }
  }

  // ---------- starting ----------

  lemma NothingYet(next: int)
    ensures Inv(EMPTY_EXECUTION.(next := next), {})
  {
    var e := EMPTY_EXECUTION.(next := next);
    assert forall c, n, id :: !Holds(LedgerOf(e), c, n, id);
    assert e.messages.Keys == {};
  }

  /** Every started execution begins within the invariants. */
  lemma StartExecutionHolds(next: int, start: Option<NextState>, timeout: Option<int>)
    ensures Inv(StartExecution(next, start, timeout), {})
    ensures StartExecution(next, start, timeout).process.status.Running?
    ensures next < StartExecution(next, start, timeout).next
  {
    FirstStateHolds(next, start);
    RecordKeeps(FirstState(next, start), Running, {}, None);
    var recorded := InsertImmediate(FirstState(next, start), VisibilityTask(Running));
    if timeout.Some? {
      TimeoutsKeep(recorded, StartExecution(next, start, timeout), {});
    }
  }

  lemma FirstStateHolds(next: int, start: Option<NextState>)
    ensures Inv(FirstState(next, start), {})
    ensures FirstState(next, start).process.status.Running? && next <= FirstState(next, start).next
  {
    var empty := EMPTY_EXECUTION.(next := next);
    NothingYet(next);
    if start.Some? {
      StartStateKeeps(empty, start.value, {}, None);
      StartStateIsFresh(empty, start.value);
    }
  }

  // ---------- waiting ----------

  lemma PublishedBusyStays(e: Execution, publish: seq<PublishedMessage>, t: int)
    requires t in e.immediate && t < e.next
    ensures t in Publish(e, publish).immediate && Publish(e, publish).immediate[t] == e.immediate[t]
  {
  }

  /** The end of a wait-until transaction: publish, then delete the task. */
  lemma PublishAndDeleteKeeps(e: Execution, t: int, publish: seq<PublishedMessage>, settled: set<int>)
    requires InvWithin(e, settled, Some(t)) && GracefulHasPending(e) && t in settled
    requires t in e.immediate && e.immediate[t].WorkerTask?
    ensures Inv(DeleteImmediate(Publish(e, publish), t), settled)
  {
    PublishKeeps(e, publish, settled, Some(t));
    PublishedBusyStays(e, publish, t);
    DeletingBusyKeeps(Publish(e, publish), t, settled);
  }

  /** Only the response without commands is fenced; the other kind never fails. */
  lemma WaitUntilKeeps(
    e: Execution, t: int, sid: StateExecutionId, version: int, request: CommandRequest,
    order: seq<int>, now: Readings, publish: seq<PublishedMessage>, settled: set<int>)
    requires Inv(e, settled) && WaitTask(e, settled, t, sid) && e.next !in settled
    requires e.states[sid].version == version ==> e.states[sid].status.WaitUntilRunning?
    requires request.waitingType.EmptyCommand? || OrderFor(e.process.queues, sid, request, order)
    ensures var r := WaitUntilTx(e, t, sid, version, request, order, now, publish);
      && (r.Some? <==> !request.waitingType.EmptyCommand? || e.states[sid].version == version)
      && (r.Some? ==> Inv(r.value, settled + {t}))
  {
    if !request.waitingType.EmptyCommand? {
      UpdateWaitUntilKeeps(e, t, sid, request, order, now, settled);
      PublishAndDeleteKeeps(UpdateWaitUntil(e, sid, request, order, now).value, t, publish, settled + {t});
    } else if e.states[sid].version == version {
      CompleteWaitUntilKeeps(e, t, sid, version, settled);
      PublishAndDeleteKeeps(CompleteWaitUntil(e, sid, version).value, t, publish, settled + {t});
    }
  }

  // ---------- timing out ----------

  lemma TimeoutKeeps(e: Execution, timer: int, settled: set<int>)
    requires Inv(e, settled) && timer in e.timers && e.timers[timer].TimeoutTimer?
    ensures Inv(TimeoutTx(e, timer), settled)
  {
    StopKeeps(e, ProcessTimeout, settled);
    TimeoutsKeep(StopTx(e, ProcessTimeout), TimeoutTx(e, timer), settled);
  }
}
