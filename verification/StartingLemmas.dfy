/** Starting states, publishing messages and recording visibility keep the invariants. */
module StartingLemmas {
  import opened Wrappers
  import opened StateExecutionIds
  import opened SequenceMaps
  import opened ProcessModel
  import opened Invariants
  import opened FrameLemmas

  // ---------- starting a state ----------

  /** The id the next execution of a state gets. */
  function NextId(e: Execution, stateId: string): StateExecutionId {
    StateExecutionId(stateId, LastSequence(e.process.sequenceMaps, stateId) + 1)
  }

  /** `e'` is `e` with a new row and a task to drive it. */
  ghost predicate Started(e: Execution, e': Execution, sid: StateExecutionId, skip: bool) {
    && sid !in e.states
    && e'.states == e.states[sid := NewRow(skip)]
    && e'.immediate == e.immediate[e.next := WorkerTask(FirstKind(skip), sid)]
    && e'.next == e.next + 1
    && e'.timers == e.timers && e'.messages == e.messages
    && e'.process.queues == e.process.queues && e'.process.status == e.process.status
  }

  /** A new state's id is always fresh, so starting never fails; it alone becomes pending. */
  lemma StartStateIsFresh(e: Execution, next: NextState)
    requires SequencesExact(e)
    ensures var r := StartState(e, next);
      && r.Some?
      && Started(e, r.value, NextId(e, next.stateId), next.skipWaitUntil)
      && SequencesExact(r.value)
      && (forall other :: IsPending(r.value.process.sequenceMaps, other) <==>
            IsPending(e.process.sequenceMaps, other) || other == NextId(e, next.stateId))
      && !NonePending(r.value.process.sequenceMaps)
  {
    StartNewIsFresh(e.process.sequenceMaps, next.stateId);
  }

  lemma StartedDrives(e: Execution, e': Execution, sid: StateExecutionId, skip: bool, settled: set<int>)
    requires Started(e, e', sid, skip) && Keyed(e) && RowsExist(e) && e.next !in settled
    ensures forall s, t, k :: Drives(e', settled, s, t, k) <==>
              Drives(e, settled, s, t, k) || (s == sid && t == e.next && k == FirstKind(skip))
    ensures forall t, k :: !Drives(e, settled, sid, t, k)
  {
  }

  lemma StartedDrivenOnce(e: Execution, e': Execution, sid: StateExecutionId, skip: bool, settled: set<int>)
    requires Started(e, e', sid, skip) && Keyed(e) && RowsExist(e) && e.next !in settled
    requires DrivenOnce(e, settled)
    ensures DrivenOnce(e', settled)
  {
    StartedDrives(e, e', sid, skip, settled);
    assert Drives(e', settled, sid, e.next, FirstKind(skip));
    SameDriven(e, e', settled, settled, {});
  }

  lemma StartedWaitsOnce(e: Execution, e': Execution, sid: StateExecutionId, skip: bool, settled: set<int>)
    requires Started(e, e', sid, skip) && Keyed(e) && RowsExist(e) && e.next !in settled
    requires WaitsOnce(e, settled)
    ensures WaitsOnce(e', settled)
  {
    StartedDrives(e, e', sid, skip, settled);
  }

  lemma StartedRest(
    e: Execution, e': Execution, sid: StateExecutionId, skip: bool, settled: set<int>, busy: Option<int>)
    requires Started(e, e', sid, skip) && Keyed(e) && RowsExist(e) && e.next !in settled
    requires ExecutesAfterWait(e) && SettledFailed(e, settled, busy)
    ensures Keyed(e') && RowsExist(e') && ExecutesAfterWait(e') && SettledFailed(e', settled, busy)
  {
  }

  lemma StartedFrame(e: Execution, e': Execution, sid: StateExecutionId, skip: bool)
    requires Started(e, e', sid, skip) && Keyed(e)
    ensures ResultsKept(e, e') && QueueTasksKept(e, e') && WaitingKept(e, e')
  {
  }

  lemma StartedKeeps(
    e: Execution, e': Execution, sid: StateExecutionId, skip: bool, settled: set<int>, busy: Option<int>)
    requires Started(e, e', sid, skip) && e.next !in settled
    requires InvWithin(e, settled, busy)
    requires SequencesExact(e') && PendingMatches(e')
    ensures InvWithin(e', settled, busy)
  {
    StartedFrame(e, e', sid, skip);
    assert DrivenOnce(e', settled) by { StartedDrivenOnce(e, e', sid, skip, settled); }
    assert WaitsOnce(e', settled) by { StartedWaitsOnce(e, e', sid, skip, settled); }
    StartedRest(e, e', sid, skip, settled, busy);
    assert Waits(e') by { KeepsWaits(e, e'); }
    assert RegisteredMatch(e') by { KeepsRegistered(e, e'); }
    assert MessagesOnce(e') && Faithful(e') by { KeepsMessages(e, e'); }
  }

  lemma StartStateKeeps(e: Execution, next: NextState, settled: set<int>, busy: Option<int>)
    requires InvWithin(e, settled, busy) && forall t :: t in settled ==> t < e.next
    ensures var r := StartState(e, next);
      r.Some? && InvWithin(r.value, settled, busy) && GracefulHasPending(r.value) && e.next < r.value.next
  {
    StartStateIsFresh(e, next);
    StartedKeeps(e, StartState(e, next).value, NextId(e, next.stateId), next.skipWaitUntil, settled, busy);
  }

  lemma {:induction false} StartStatesKeeps(e: Execution, nexts: seq<NextState>, settled: set<int>, busy: Option<int>)
    requires InvWithin(e, settled, busy) && forall t :: t in settled ==> t < e.next
    ensures var r := StartStates(e, nexts);
      r.Some? && InvWithin(r.value, settled, busy) && e.next <= r.value.next
  {
    if nexts != [] {
      StartStatesKeeps(e, nexts[..|nexts| - 1], settled, busy);
      StartStateKeeps(StartStates(e, nexts[..|nexts| - 1]).value, nexts[|nexts| - 1], settled, busy);
    }
  }
}
