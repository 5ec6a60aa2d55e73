/** A fired command timer keeps the invariants, and the test for having everything is exact. */
module TimerCommandLemmas {
  import opened Collections
  import opened StateExecutionIds
  import opened ProcessModel
  import opened Transactions
  import opened Invariants
  import opened FrameLemmas
  import opened UpdatingLemmas

  // ---------- the completion test ----------

  /** The results belong to commands of the request. */
  ghost predicate WithinRequest(request: CommandRequest, results: CommandResults) {
    && (forall i :: i in results.timers ==> 0 <= i < |request.timerDelays|)
    && (forall i :: i in results.queues ==> 0 <= i < |request.queueCommands|)
  }

  ghost predicate HasEverything(request: CommandRequest, results: CommandResults) {
    && (forall i :: 0 <= i < |request.timerDelays| ==> i in results.timers)
    && (forall i :: 0 <= i < |request.queueCommands| ==> i in results.queues)
  }

  ghost predicate HasSomething(request: CommandRequest, results: CommandResults) {
    || (exists i :: 0 <= i < |request.timerDelays| && i in results.timers)
    || (exists i :: 0 <= i < |request.queueCommands| && i in results.queues)
  }

  function Range(n: nat): (s: set<int>)
    ensures forall i :: i in s <==> 0 <= i < n
    ensures |s| == n
  {
    if n == 0 then {} else Range(n - 1) + {n - 1}
  }

  lemma FillsRange(keys: set<int>, n: nat)
    requires forall i :: i in keys ==> 0 <= i < n
    ensures |keys| <= n
    ensures |keys| == n <==> forall i :: 0 <= i < n ==> i in keys
  {
    IsSubset(keys, Range(n));
    SubsetCard(keys, Range(n));
    if forall i :: 0 <= i < n ==> i in keys {
      SameElements(keys, Range(n));
    }
  }

  /** Comparing lengths decides whether every command, or some command, has its result. */
  lemma CompletedIsExact(request: CommandRequest, results: CommandResults)
    requires WithinRequest(request, results)
    ensures request.waitingType.AllOfCompletion? ==> (Completed(request, results) <==> HasEverything(request, results))
    ensures request.waitingType.AnyOfCompletion? ==> (Completed(request, results) <==> HasSomething(request, results))
  {
    assert |results.timers| == |results.timers.Keys| && |results.queues| == |results.queues.Keys|;
    FillsRange(results.timers.Keys, |request.timerDelays|);
    FillsRange(results.queues.Keys, |request.queueCommands|);
    HasElement(results.timers.Keys);
    HasElement(results.queues.Keys);
  }

  // ---------- the transaction ----------

  function TimerFired(row: StateRow, index: int): CommandResults {
    row.results.(timers := row.results.timers[index := true])
  }

  lemma FiringUpdates(e: Execution, timer: int, sid: StateExecutionId, index: int)
    requires sid in e.states && Resolves(e, sid, index, timer)
    ensures var results := TimerFired(e.states[sid], index);
      RowUpdated(e, DeleteTimer(WithResults(e, sid, results), timer), sid, results,
                 Completed(e.states[sid].request, results), {timer})
  {
    WithResultsUpdates(e, sid, TimerFired(e.states[sid], index));
  }

  lemma FiredRowWaits(e: Execution, e': Execution, timer: int, sid: StateExecutionId, index: int)
    requires sid in e.states && Resolves(e, sid, index, timer)
    requires RowUpdated(e, e', sid, TimerFired(e.states[sid], index), false, {timer})
    requires WaitsForTheRest(e, sid)
    ensures WaitsForTheRest(e', sid)
  {
    assert forall i, t :: Resolves(e', sid, i, t) <==> Resolves(e, sid, i, t) && t != timer;
    forall i | 0 <= i < |e.states[sid].request.timerDelays| && i !in e'.states[sid].results.timers
      ensures Timed(e', sid, i)
    {
      assert Timed(e, sid, i);
      var t :| Resolves(e, sid, i, t);
      assert Resolves(e', sid, i, t);
    }
  }

  lemma FiredWaits(e: Execution, e': Execution, timer: int, sid: StateExecutionId, index: int, completed: bool)
    requires sid in e.states && Resolves(e, sid, index, timer)
    requires RowUpdated(e, e', sid, TimerFired(e.states[sid], index), completed, {timer})
    requires completed <==> Completed(e.states[sid].request, TimerFired(e.states[sid], index))
    requires Waits(e) && e.states[sid].status.WaitUntilWaiting?
    ensures Waits(e')
  {
    NothingAside(e);
    NothingAside(e');
    if e.process.status.Running? && !completed {
      FiredRowWaits(e, e', timer, sid, index);
    }
    UpdatedWaits(e, e', sid, TimerFired(e.states[sid], index), completed, {timer}, map[], map[]);
  }

  lemma FiredMessages(
    e: Execution, e': Execution, sid: StateExecutionId, results: CommandResults, completed: bool, gone: set<int>)
    requires RowUpdated(e, e', sid, results, completed, gone) && Keyed(e)
    requires results.queues == e.states[sid].results.queues
    requires MessagesOnce(e) && Faithful(e)
    ensures MessagesOnce(e') && Faithful(e')
  {
    KeepsMessages(e, e');
  }

  lemma NotDrivenToWait(e: Execution, settled: set<int>, sid: StateExecutionId, index: int, timer: int)
    requires WaitsOnce(e, settled) && Resolves(e, sid, index, timer)
    ensures !Driven(e, settled, sid, WaitUntilKind)
  {
    forall t ensures !Drives(e, settled, sid, t, WaitUntilKind) {
      assert Drives(e, settled, sid, t, WaitUntilKind) ==> NotWaitedYet(e, sid);
    }
  }

  lemma FiredKeeps(
    e: Execution, e': Execution, timer: int, sid: StateExecutionId, index: int, completed: bool, settled: set<int>)
    requires Inv(e, settled) && sid in e.states && Resolves(e, sid, index, timer) && e.next !in settled
    requires e.states[sid].status.WaitUntilWaiting?
    requires RowUpdated(e, e', sid, TimerFired(e.states[sid], index), completed, {timer})
    requires completed <==> Completed(e.states[sid].request, TimerFired(e.states[sid], index))
    ensures Inv(e', settled)
  {
    var results := TimerFired(e.states[sid], index);
    UpdatedShape(e, e', sid, results, completed, {timer});
    UpdatedRest(e, e', sid, results, completed, {timer}, settled);
    assert DrivenOnce(e', settled) by { UpdatedDrivenOnce(e, e', sid, results, completed, {timer}, settled); }
    assert WaitsOnce(e', settled) by {
      NotDrivenToWait(e, settled, sid, index, timer);
      UpdatedWaitsOnce(e, e', sid, results, completed, {timer}, settled);
    }
    assert Waits(e') by { FiredWaits(e, e', timer, sid, index, completed); }
    assert RegisteredMatch(e') by { UpdatedRegistered(e, e', sid, results, completed, {timer}); }
    assert MessagesOnce(e') && Faithful(e') by { FiredMessages(e, e', sid, results, completed, {timer}); }
  }

  /** The transaction for a timer in the table never fails. */
  lemma CommandTimerKeeps(e: Execution, timer: int, sid: StateExecutionId, index: int, settled: set<int>)
    requires Inv(e, settled) && Resolves(e, sid, index, timer) && e.next !in settled
    ensures var r := CommandTimerTx(e, timer, sid, index); r.Some? && Inv(r.value, settled)
  {
    assert sid in e.states;
    if e.states[sid].status.WaitUntilWaiting? {
      var results := TimerFired(e.states[sid], index);
      FiringUpdates(e, timer, sid, index);
      FiredKeeps(e, CommandTimerTx(e, timer, sid, index).value, timer, sid, index,
                 Completed(e.states[sid].request, results), settled);
    }
  }
}
