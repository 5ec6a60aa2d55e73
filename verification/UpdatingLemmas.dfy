/** New results for one row: what a queue task or a fired command timer does to a state that waits. */
module UpdatingLemmas {
  import opened Wrappers
  import opened StateExecutionIds
  import opened LocalQueues
  import opened LocalQueueTheorems
  import opened ProcessModel
  import opened Transactions
  import opened Invariants
  import opened FrameLemmas
  import opened WaitingLemmas

  /** `e'` is `e` with new results for the row, and without the state's command timers in `gone`. */
  ghost predicate RowUpdated(
    e: Execution, e': Execution, sid: StateExecutionId, results: CommandResults, completed: bool, gone: set<int>)
  {
    && sid in e.states && sid in e'.states && e'.states == e.states[sid := e'.states[sid]]
    && e'.states[sid] == StateRow(if completed then ExecuteRunning else e.states[sid].status,
                                  e.states[sid].version + 1, e.states[sid].request, results, None)
    && e'.process == e.process.(queues := if completed then Cleanup(e.process.queues, sid) else e.process.queues)
    && e'.immediate == (if completed then e.immediate[e.next := WorkerTask(ExecuteKind, sid)] else e.immediate)
    && e'.next == (if completed then e.next + 1 else e.next)
    && e'.messages == e.messages
    && (forall t :: t in e'.timers <==> t in e.timers && t !in gone)
    && (forall t :: t in e'.timers ==> e'.timers[t] == e.timers[t])
    && (forall t :: t in gone ==> t in e.timers && e.timers[t].CommandTimer? && e.timers[t].sid == sid)
  }

  lemma WithResultsUpdates(e: Execution, sid: StateExecutionId, results: CommandResults)
    requires sid in e.states
    ensures RowUpdated(e, WithResults(e, sid, results), sid, results, Completed(e.states[sid].request, results), {})
  {
  }

  lemma UpdatedDrives(
    e: Execution, e': Execution, sid: StateExecutionId, results: CommandResults, completed: bool, gone: set<int>,
    settled: set<int>)
    requires RowUpdated(e, e', sid, results, completed, gone) && Keyed(e) && e.next !in settled
    ensures forall s, u, k :: Drives(e', settled, s, u, k) <==>
              Drives(e, settled, s, u, k) || (completed && s == sid && u == e.next && k == ExecuteKind)
  {
  }

  lemma UpdatedDrivenOnce(
    e: Execution, e': Execution, sid: StateExecutionId, results: CommandResults, completed: bool, gone: set<int>,
    settled: set<int>)
    requires RowUpdated(e, e', sid, results, completed, gone) && Keyed(e) && e.next !in settled
    requires DrivenOnce(e, settled) && (e.process.status.Running? ==> e.states[sid].status.WaitUntilWaiting?)
    ensures DrivenOnce(e', settled)
  {
    UpdatedDrives(e, e', sid, results, completed, gone, settled);
    SameDriven(e, e', settled, settled, {});
    assert completed ==> Drives(e', settled, sid, e.next, ExecuteKind);
  }

  lemma UpdatedWaitsOnce(
    e: Execution, e': Execution, sid: StateExecutionId, results: CommandResults, completed: bool, gone: set<int>,
    settled: set<int>)
    requires RowUpdated(e, e', sid, results, completed, gone) && Keyed(e) && e.next !in settled
    requires WaitsOnce(e, settled) && !Driven(e, settled, sid, WaitUntilKind)
    ensures WaitsOnce(e', settled)
    ensures forall s :: !Driven(e, settled, s, WaitUntilKind) ==> !Driven(e', settled, s, WaitUntilKind)
  {
    UpdatedDrives(e, e', sid, results, completed, gone, settled);
    forall s, t | Drives(e', settled, s, t, WaitUntilKind) ensures s != sid && NotWaitedYet(e', s) {
      assert NotWaitedYet(e, s);
    }
    forall s | !Driven(e, settled, s, WaitUntilKind) ensures !Driven(e', settled, s, WaitUntilKind) {
      assert forall t :: !Drives(e', settled, s, t, WaitUntilKind);
    }
  }

  lemma UpdatedShape(
    e: Execution, e': Execution, sid: StateExecutionId, results: CommandResults, completed: bool, gone: set<int>)
    requires RowUpdated(e, e', sid, results, completed, gone) && Shape(e)
    ensures Shape(e')
  {
  }

  lemma UpdatedRest(
    e: Execution, e': Execution, sid: StateExecutionId, results: CommandResults, completed: bool, gone: set<int>,
    settled: set<int>)
    requires RowUpdated(e, e', sid, results, completed, gone) && Keyed(e) && e.next !in settled
    requires ExecutesAfterWait(e) && SettledFailed(e, settled, None) && PendingMatches(e)
    requires e.states[sid].status.WaitUntilWaiting? || e.states[sid].status.StateAborted?
    requires e.process.status.Running? ==> e.states[sid].status.WaitUntilWaiting?
    ensures ExecutesAfterWait(e') && SettledFailed(e', settled, None) && PendingMatches(e')
  {
  }

  // ---------- what still waits ----------

  /** As `Waits`, with the messages in `a` out of the queues but not yet in their rows. */
  ghost predicate WaitsAside(e: Execution, a: Assigned) {
    e.process.status.Running? ==>
      && (forall sid :: sid in e.states && e.states[sid].status.WaitUntilWaiting? ==>
            TimersRest(e, sid) && QueuesRest(e, sid, a))
      && (forall sid :: sid in e.states && e.states[sid].status.WaitUntilWaiting? ==>
            (AsksForSomething(e.states[sid].request) ==> !Completed(e.states[sid].request, e.states[sid].results)))
      && (forall sid :: sid in e.process.queues.commands ==>
            sid in e.states && e.states[sid].status.WaitUntilWaiting?)
  }

  lemma NothingAside(e: Execution)
    ensures WaitsAside(e, map[]) <==> Waits(e)
  {
    assert forall sid :: sid in e.states ==>
        (WaitsForTheRest(e, sid) <==> TimersRest(e, sid) && QueuesRest(e, sid, map[]));
  }

  lemma OthersWait(
    e: Execution, e': Execution, sid: StateExecutionId, results: CommandResults, completed: bool, gone: set<int>,
    a: Assigned, a': Assigned, s: StateExecutionId)
    requires RowUpdated(e, e', sid, results, completed, gone)
    requires s != sid && s in e.states && TimersRest(e, s) && QueuesRest(e, s, a)
    requires forall i :: Given(a', s, i) <==> Given(a, s, i)
    ensures TimersRest(e', s) && QueuesRest(e', s, a')
  {
    assert forall i, t :: Resolves(e', s, i, t) <==> Resolves(e, s, i, t);
    StillTimed(e, e', s);
    assert forall i :: Registered(e'.process.queues, s, i) <==> Registered(e.process.queues, s, i);
  }

  lemma UpdatedWaits(
    e: Execution, e': Execution, sid: StateExecutionId, results: CommandResults, completed: bool, gone: set<int>,
    a: Assigned, a': Assigned)
    requires RowUpdated(e, e', sid, results, completed, gone) && WaitsAside(e, a)
    requires completed <==> Completed(e.states[sid].request, results)
    requires e.process.status.Running? ==> e.states[sid].status.WaitUntilWaiting?
    requires e.process.status.Running? && !completed ==> TimersRest(e', sid) && QueuesRest(e', sid, a')
    requires forall s, i :: s != sid ==> (Given(a', s, i) <==> Given(a, s, i))
    ensures WaitsAside(e', a')
  {
    if e.process.status.Running? {
      forall s | s in e'.states && e'.states[s].status.WaitUntilWaiting? && s != sid
        ensures TimersRest(e', s) && QueuesRest(e', s, a')
      {
        OthersWait(e, e', sid, results, completed, gone, a, a', s);
      }
    }
  }

  lemma UpdatedRegistered(
    e: Execution, e': Execution, sid: StateExecutionId, results: CommandResults, completed: bool, gone: set<int>)
    requires RowUpdated(e, e', sid, results, completed, gone) && RegisteredMatch(e)
    requires forall i :: i in results.queues ==> !Registered(e.process.queues, sid, i)
    ensures RegisteredMatch(e')
  {
    CleanupKeepsNoLostWakeUp(e.process.queues, sid);
    assert forall s, i :: Registered(e'.process.queues, s, i) ==> Registered(e.process.queues, s, i);
  }
}
