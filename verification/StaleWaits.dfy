/** What the one unfenced transaction can do after its state's row was aborted. */
module StaleWaits {
  import opened Wrappers
  import opened Collections
  import opened StateExecutionIds
  import opened LocalQueues
  import opened SequenceMaps
  import opened ProcessModel
  import opened Transactions
  import opened WaitingLemmas
  import opened Sessions
  import opened SessionLemmas
  import opened RunTheorems

  /**
   A wait-until response prepared before the row moved on, as an abort moves it, changes the row
   exactly when it carries commands; and then the row waits or executes again, though the process may
   have closed.
   */
  lemma StaleWaitReopensIffCommands(states: seq<Session>, steps: seq<Step>, n: nat)
    requires IsRun(states, steps) && n < |steps| && steps[n].WaitUntil?
    requires steps[n].p.sid in states[n].e.states ==>
               steps[n].p.version != states[n].e.states[steps[n].p.sid].version
    ensures var sid := steps[n].p.sid;
      && sid in states[n].e.states && sid in states[n + 1].e.states
      && (states[n + 1].e.states[sid] != states[n].e.states[sid] <==> !steps[n].request.waitingType.EmptyCommand?)
      && (!steps[n].request.waitingType.EmptyCommand? ==>
            states[n + 1].e.states[sid].status in {WaitUntilWaiting, ExecuteRunning})
  {
    AlwaysInv(states, steps, n);
    var s, p, step := states[n], steps[n].p, steps[n];
    WaitUntilStep(s, p, step.request, step.order, step.now, step.publish);
    if !step.request.waitingType.EmptyCommand? {
      WaitingRow(s.e, p.task, p.sid, p.version, step.request, step.order, step.now, step.publish);
    }
  }

  lemma WaitingRow(
    e: Execution, task: int, sid: StateExecutionId, version: int, request: CommandRequest,
    order: seq<int>, now: Readings, publish: seq<PublishedMessage>)
    requires request.waitingType.EmptyCommand? || OrderFor(e.process.queues, sid, request, order)
    requires !request.waitingType.EmptyCommand?
    requires WaitUntilTx(e, task, sid, version, request, order, now, publish).Some?
    ensures var e' := WaitUntilTx(e, task, sid, version, request, order, now, publish).value;
      && sid in e.states && sid in e'.states && e'.states[sid].version == e.states[sid].version + 1
      && e'.states[sid].status in {WaitUntilWaiting, ExecuteRunning}
  {
    UpdateWaitUntilIs(e, sid, request, order, now);
    hide RegisterCommands, AddConsumed, Completed;
  }

  // ---------- a terminated process that completes ----------

  const CLOCK: Readings := _ => 0
  const A1 := StateExecutionId("a", 1)
  const ONE_TIMER_REQUEST := CommandRequest(AnyOfCompletion, [0], [])

  const ROW0 := StateRow(WaitUntilRunning, 1, EMPTY_REQUEST, NO_RESULTS, None)
  const ROW1 := StateRow(StateAborted, 2, EMPTY_REQUEST, NO_RESULTS, None)
  const ROW2 := StateRow(WaitUntilWaiting, 3, ONE_TIMER_REQUEST, NO_RESULTS, None)
  const ROW3 := StateRow(ExecuteRunning, 4, ONE_TIMER_REQUEST, CommandResults(map[0 := true], map[]), None)

  const READ0 := Prepared(0, WaitUntilKind, A1, WaitUntilRunning, 1)
  const READ3 := Prepared(4, ExecuteKind, A1, ExecuteRunning, 4)

  const MAPS := SequenceMaps(map["a" := 1], map["a" := {1}])

  function Process(status: ProcessStatus): ProcessRow {
    ProcessRow(status, MAPS, NO_QUEUES, false)
  }

  const E0 := Execution(
    Process(Running), map[A1 := ROW0],
    map[0 := WorkerTask(WaitUntilKind, A1), 1 := VisibilityTask(Running)], map[], map[], 2)
  const E1 := Execution(
    Process(ProcessTerminated), map[A1 := ROW1],
    map[0 := WorkerTask(WaitUntilKind, A1), 1 := VisibilityTask(Running), 2 := VisibilityTask(ProcessTerminated)],
    map[], map[], 3)
  const E2 := Execution(
    Process(ProcessTerminated), map[A1 := ROW2],
    map[1 := VisibilityTask(Running), 2 := VisibilityTask(ProcessTerminated)],
    map[3 := CommandTimer(0, A1, 0)], map[], 4)
  const E3 := Execution(
    Process(ProcessTerminated), map[A1 := ROW3],
    map[1 := VisibilityTask(Running), 2 := VisibilityTask(ProcessTerminated), 4 := WorkerTask(ExecuteKind, A1)],
    map[], map[], 5)

  lemma TerminatedStarts()
    ensures StartExecution(0, Some(NextState("a", false)), None) == E0
  {
    assert {} + {1} == {1};
    assert StartNew(NEW_SEQUENCE_MAPS, "a") == (MAPS, 1);
  }

  lemma TerminatedStops()
    ensures TerminateTx(E0) == E1
  {
    assert AbortRunning(map[A1 := ROW0]) == map[A1 := ROW1];
  }

  lemma TerminatedWaits()
    ensures WaitUntilTx(E1, 0, A1, 1, ONE_TIMER_REQUEST, [], CLOCK, []) == Some(E2)
  {
    var none: map<int, seq<DedupId>> := map[];
    assert CommandsOf(AddCommands(NO_QUEUES, A1, []), A1) == map[];
    assert AddConsumed(map[], NO_RESULTS, none) == NO_RESULTS;
    var updated := RowWaits(E1, A1, ONE_TIMER_REQUEST, NO_QUEUES, NO_RESULTS);
    assert [0][..0] == [];
    assert InsertCommandTimers(updated, A1, [], CLOCK) == updated;
    assert InsertCommandTimers(updated, A1, [0], CLOCK) == InsertTimer(updated, CommandTimer(0, A1, 0));
    var waits := InsertTimer(updated, CommandTimer(0, A1, 0));
    assert UpdateWaitUntil(E1, A1, ONE_TIMER_REQUEST, [], CLOCK) == Some(waits);
    assert Publish(waits, []) == waits;
    SameMap(waits.immediate - {0}, E2.immediate);
    SameMap(waits.timers, E2.timers);
    assert waits.states == E2.states;
  }

  lemma TerminatedFires()
    ensures CommandTimerTx(E2, 3, A1, 0) == Some(E3)
  {
    var results := CommandResults(map[0 := true], map[]);
    SameMap(NO_RESULTS.timers[0 := true], results.timers);
    assert 0 in results.timers.Keys;
    assert Completed(ONE_TIMER_REQUEST, results);
    var updated := WithResults(E2, A1, results);
    assert Cleanup(NO_QUEUES, A1) == NO_QUEUES;
    assert updated.states == E3.states;
    SameMap(updated.immediate, E3.immediate);
    SameMap(updated.timers - {3}, E3.timers);
  }

  lemma TerminatedCompletes()
    ensures var r := CompleteExecuteTx(E3, 4, A1, 4, StateDecision([], Some(ForceComplete)), []);
      r.Some? && r.value.process.status == ProcessCompleted
  {
    assert IsPending(MAPS, A1);
  }

  const S0 := Session(E0, {}, {})
  const S1 := Session(E0, {}, {READ0})
  const S2 := Session(E1, {}, {READ0})
  const S3 := Session(E2, {0}, {READ0})
  const S4 := Session(E3, {0}, {READ0})
  const S5 := Session(E3, {0}, {READ0, READ3})

  const STALE_WAIT := WaitUntil(READ0, ONE_TIMER_REQUEST, [], CLOCK, [])
  const REVIVED := CompleteExecute(READ3, StateDecision([], Some(ForceComplete)), [])

  ghost predicate Goes(s: Session, step: Step, s': Session) {
    Enabled(s, step) && Next(s, step) == s'
  }

  lemma TerminatedBegins()
    ensures Goes(S0, Prepare(0), S1) && Goes(S1, TerminateIfRunning, S2)
  {
    TerminatedStops();
  }

  lemma TerminatedGoesOn()
    ensures Goes(S2, STALE_WAIT, S3)
  {
    TerminatedWaits();
    hide WaitUntilTx, AddCommands, CommandsOf;
  }

  lemma TerminatedComesBack()
    ensures Goes(S3, FireCommand(3), S4)
  {
    TerminatedFires();
    hide CommandTimerTx;
  }

  lemma TerminatedPrepares()
    ensures Goes(S4, Prepare(4), S5)
  {
  }

  lemma TerminatedEnds()
    ensures Enabled(S5, REVIVED) && Next(S5, REVIVED).e.process.status.ProcessCompleted?
  {
    hide CompleteExecuteTx;
    TerminatedCompletes();
  }

  /**
   A process closed by TERMINATE_IF_RUNNING can change its terminal status: its pending map survives, so
   a stale wait-until response revives the state and the state's decision closes the process once more.
   */
  lemma TerminatedCanComplete() returns (states: seq<Session>, steps: seq<Step>)
    ensures IsRun(states, steps) && |steps| == 6
    ensures states[2].e.process.status.ProcessTerminated? && !NonePending(states[2].e.process.sequenceMaps)
    ensures states[6].e.process.status.ProcessCompleted?
  {
    TerminatedStarts();
    TerminatedBegins();
    TerminatedGoesOn();
    TerminatedComesBack();
    TerminatedPrepares();
    TerminatedEnds();
    hide Enabled, Next, StartExecution;
    steps := [Prepare(0), TerminateIfRunning, STALE_WAIT, FireCommand(3), Prepare(4), REVIVED];
    states := [S0, S1, S2, S3, S4, S5, Next(S5, REVIVED)];
    assert states[0] == Start(0, Some(NextState("a", false)), None);
    forall n | 0 <= n < |steps| ensures Enabled(states[n], steps[n]) && states[n + 1] == Next(states[n], steps[n]) {
      assert n == 5 || Goes(states[n], steps[n], states[n + 1]);
    }
    assert "a" in states[2].e.process.sequenceMaps.pending.Keys;
  }
}
