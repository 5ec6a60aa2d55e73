/** A queue task that revives an aborted state: no wait-until response is stale here. */
module QueueRevival {
  import opened Wrappers
  import opened Collections
  import opened LocalQueues
  import opened SequenceMaps
  import opened ProcessModel
  import opened Transactions
  import opened Sessions
  import opened StaleWaits

  const ONE := Command("q", 1)
  const MESSAGE := PublishedMessage("q", "m", "x")
  const ONE_MESSAGE_REQUEST := CommandRequest(AnyOfCompletion, [], [ONE])
  const ONE_MESSAGE_RESULTS := CommandResults(map[], map[0 := [MessageResult("m", "x")]])
  const REGISTERED := Queues(map[A1 := map[0 := ONE]], map[])

  const WAITING_ROW := StateRow(WaitUntilWaiting, 2, ONE_MESSAGE_REQUEST, NO_RESULTS, None)
  const ABORTED_ROW := StateRow(StateAborted, 3, ONE_MESSAGE_REQUEST, NO_RESULTS, None)
  const REVIVED_ROW := StateRow(ExecuteRunning, 4, ONE_MESSAGE_REQUEST, ONE_MESSAGE_RESULTS, None)

  const READ_AGAIN := Prepared(4, ExecuteKind, A1, ExecuteRunning, 4)

  const WAITS := Execution(
    ProcessRow(Running, MAPS, REGISTERED, false), map[A1 := WAITING_ROW],
    map[1 := VisibilityTask(Running)], map[], map[], 2)
  const PUBLISHED := Execution(
    ProcessRow(Running, MAPS, REGISTERED, false), map[A1 := WAITING_ROW],
    map[1 := VisibilityTask(Running), 2 := QueueTask([QueuedMessage("q", "m")])],
    map[], map["m" := MessageRow("q", "x")], 3)
  const TERMINATED := Execution(
    ProcessRow(ProcessTerminated, MAPS, REGISTERED, false), map[A1 := ABORTED_ROW],
    map[1 := VisibilityTask(Running), 2 := QueueTask([QueuedMessage("q", "m")]),
        3 := VisibilityTask(ProcessTerminated)],
    map[], map["m" := MessageRow("q", "x")], 4)
  const REVIVED_AGAIN := Execution(
    ProcessRow(ProcessTerminated, MAPS, NO_QUEUES, false), map[A1 := REVIVED_ROW],
    map[1 := VisibilityTask(Running), 3 := VisibilityTask(ProcessTerminated), 4 := WorkerTask(ExecuteKind, A1)],
    map[], map["m" := MessageRow("q", "x")], 5)

  const Q2 := Session(WAITS, {0}, {READ0})
  const Q3 := Session(PUBLISHED, {0}, {READ0})
  const Q4 := Session(TERMINATED, {0}, {READ0})
  const Q5 := Session(REVIVED_AGAIN, {0}, {READ0})
  const Q6 := Session(REVIVED_AGAIN, {0}, {READ0, READ_AGAIN})

  const WAIT := WaitUntil(READ0, ONE_MESSAGE_REQUEST, [0], CLOCK, [])
  const ARRIVE := QueueMessages(2, [Picked(A1, 0)], [A1])
  const END := CompleteExecute(READ_AGAIN, StateDecision([], Some(ForceComplete)), [])

  lemma OneCommand()
    ensures AddCommands(NO_QUEUES, A1, [ONE]) == REGISTERED && CommandsOf(REGISTERED, A1) == map[0 := ONE]
  {
    var registered: map<int, Command> := map i | 0 <= i < |[ONE]| :: Normalize([ONE][i]);
    SameMap(registered, map[0 := ONE]);
    assert map[] + registered == registered;
  }

  lemma NothingThere()
    ensures OrderFor(NO_QUEUES, A1, ONE_MESSAGE_REQUEST, [0])
    ensures RegisterCommands(NO_QUEUES, A1, ONE_MESSAGE_REQUEST, [0]) == (REGISTERED, map[])
  {
    OneCommand();
    var cmds := map[0 := ONE];
    var none: map<int, seq<DedupId>> := map[];
    assert [0][..0] == [];
    assert VisitAll(cmds, map[], AnyOfCompletion, [0]) == Progress(map[], map[0 := ONE], none, false);
  }

  lemma Waited()
    ensures OrderFor(NO_QUEUES, A1, ONE_MESSAGE_REQUEST, [0])
    ensures WaitUntilTx(E0, 0, A1, 1, ONE_MESSAGE_REQUEST, [0], CLOCK, []) == Some(WAITS)
  {
    NothingThere();
    hide RegisterCommands, OrderFor;
    var none: map<int, seq<DedupId>> := map[];
    assert AddConsumed(map[], NO_RESULTS, none) == NO_RESULTS;
    var updated := RowWaits(E0, A1, ONE_MESSAGE_REQUEST, REGISTERED, NO_RESULTS);
    assert InsertCommandTimers(updated, A1, [], CLOCK) == updated;
    assert UpdateWaitUntil(E0, A1, ONE_MESSAGE_REQUEST, [0], CLOCK) == Some(updated);
    assert Publish(updated, []) == updated;
    SameMap(updated.immediate - {0}, WAITS.immediate);
    assert updated.states == WAITS.states;
  }

  lemma Published()
    ensures PublishTx(WAITS, [MESSAGE]) == PUBLISHED
  {
    var none: map<DedupId, MessageRow> := map[];
    assert [MESSAGE][..0] == [];
    assert InsertMessages(none, []) == (none, []);
    assert [] + [QueuedMessage("q", "m")] == [QueuedMessage("q", "m")];
    assert InsertMessages(none, [MESSAGE]) == (map["m" := MessageRow("q", "x")], [QueuedMessage("q", "m")]);
    SameMap(PublishTx(WAITS, [MESSAGE]).immediate, PUBLISHED.immediate);
  }

  lemma Terminated()
    ensures TerminateTx(PUBLISHED) == TERMINATED
  {
    assert AbortRunning(map[A1 := WAITING_ROW]) == map[A1 := ABORTED_ROW];
    SameMap(TerminateTx(PUBLISHED).immediate, TERMINATED.immediate);
  }

  const BROUGHT := [QueuedMessage("q", "m")]
  const GIVEN: Assigned := map[A1 := map[0 := ["m"]]]

  lemma HandedOver()
    ensures ValidPicks(REGISTERED, BROUGHT, [Picked(A1, 0)])
    ensures AssignAll(REGISTERED, BROUGHT, [Picked(A1, 0)]) == (NO_QUEUES, GIVEN)
    ensures IsOrder([A1], GIVEN.Keys)
  {
    assert BROUGHT[..0] == [] && [Picked(A1, 0)][..0] == [];
    var appended := Append(REGISTERED, "q", "m");
    assert [] + ["m"] == ["m"];
    assert appended == Queues(map[A1 := map[0 := ONE]], map["q" := ["m"]]);
    assert Fits(appended, A1, 0);
    SameMap(map[0 := ONE] - {0}, map[]);
    assert ["m"][1..] == [] && ["m"][..1] == ["m"];
    assert map["q" := ["m"]] - {"q"} == map[];
    assert map[A1 := map[0 := ONE]] - {A1} == map[];
    assert Consume(appended, A1, 0) == (NO_QUEUES, ["m"]);
  }

  lemma Stored()
    ensures var given := map[0 := ["m"]];
      && Transactions.Known(TERMINATED.messages, given)
      && AddConsumed(TERMINATED.messages, NO_RESULTS, given) == ONE_MESSAGE_RESULTS
    ensures Completed(ONE_MESSAGE_REQUEST, ONE_MESSAGE_RESULTS)
  {
    assert Lookup(TERMINATED.messages, ["m"]) == [MessageResult("m", "x")];
    SameMap(AddConsumed(TERMINATED.messages, NO_RESULTS, map[0 := ["m"]]).queues, ONE_MESSAGE_RESULTS.queues);
    assert 0 in ONE_MESSAGE_RESULTS.queues.Keys;
  }

  lemma Given()
    ensures UpdateAssignedRows(TERMINATED.(process := TERMINATED.process.(queues := NO_QUEUES)), GIVEN, [A1])
         == Some(REVIVED_AGAIN.(immediate := REVIVED_AGAIN.immediate[2 := QueueTask(BROUGHT)]))
  {
    Stored();
    hide AddConsumed, Completed;
    var e := TERMINATED.(process := TERMINATED.process.(queues := NO_QUEUES));
    assert [A1][..0] == [];
    var updated := WithResults(e, A1, ONE_MESSAGE_RESULTS);
    assert Cleanup(NO_QUEUES, A1) == NO_QUEUES;
    assert updated.states == REVIVED_AGAIN.states;
    SameMap(updated.immediate, REVIVED_AGAIN.immediate[2 := QueueTask(BROUGHT)]);
  }

  lemma Arrived()
    ensures Goes(Q4, ARRIVE, Q5)
  {
    HandedOver();
    Given();
    hide AssignAll, ValidPicks, UpdateAssignedRows;
    SameMap(REVIVED_AGAIN.immediate[2 := QueueTask(BROUGHT)] - {2}, REVIVED_AGAIN.immediate);
  }

  lemma Begun()
    ensures Goes(S1, WAIT, Q2) && Goes(Q2, PublishMessages([MESSAGE]), Q3) && Goes(Q3, TerminateIfRunning, Q4)
  {
    Waited();
    Published();
    Terminated();
    hide WaitUntilTx, PublishTx, TerminateTx;
  }

  lemma Ended()
    ensures Goes(Q5, Prepare(4), Q6)
    ensures Enabled(Q6, END) && Next(Q6, END).e.process.status.ProcessCompleted?
  {
    assert IsPending(MAPS, A1);
  }

  /**
   The other way to change the terminal status: a message published before TERMINATE_IF_RUNNING reaches
   the command that the aborted state still has registered, and the state's decision closes the process
   once more.
   */
  lemma TerminatedCanCompleteByQueue() returns (states: seq<Session>, steps: seq<Step>)
    ensures IsRun(states, steps) && |steps| == 7
    ensures forall n :: 4 <= n < 7 ==> !steps[n].WaitUntil?
    ensures states[4].e.process.status.ProcessTerminated?
    ensures A1 in states[4].e.states && states[4].e.states[A1].status.StateAborted?
    ensures states[7].e.process.status.ProcessCompleted?
  {
    TerminatedStarts();
    TerminatedBegins();
    Begun();
    Arrived();
    Ended();
    hide Enabled, Next, StartExecution;
    steps := [Prepare(0), WAIT, PublishMessages([MESSAGE]), TerminateIfRunning, ARRIVE, Prepare(4), END];
    states := [S0, S1, Q2, Q3, Q4, Q5, Q6, Next(Q6, END)];
    assert states[0] == Start(0, Some(NextState("a", false)), None);
    forall n | 0 <= n < |steps| ensures Enabled(states[n], steps[n]) && states[n + 1] == Next(states[n], steps[n]) {
      assert n == 6 || Goes(states[n], steps[n], states[n + 1]);
    }
  }
}
