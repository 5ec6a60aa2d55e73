/** Runs in which one more delivery of what has left the tables does harm. */
module RedeliveryRuns {
  import opened Wrappers
  import opened Collections
  import opened LocalQueues
  import opened SequenceMaps
  import opened ProcessModel
  import opened Transactions
  import opened Invariants
  import opened Sessions
  import opened ClosedStatus
  import opened StaleWaits
  import opened SecondHolders
  import opened Redeliveries
  import opened RedeliveryTheorems
  import opened HarmlessDeliveries
  import opened HarmfulDeliveries

  ghost predicate Delivers(h: Held, d: Delivery, h': Held) {
    MayDeliver(h, d) && AfterDelivery(h, d) == h'
  }

  const NO_TIMERS: map<int, TimerTask> := map[]
  const FIRST_TASKS := map[0 := WorkerTask(WaitUntilKind, A1), 1 := VisibilityTask(Running)]
  const H0 := Held(S0, FIRST_TASKS, NO_TIMERS)
  const H1 := Held(S1, FIRST_TASKS, NO_TIMERS)

  lemma Prepares()
    ensures Delivers(H0, Once(Prepare(0)), H1)
  {
    TerminatedBegins();
    hide Enabled, Next;
    assert FIRST_TASKS + E0.immediate == FIRST_TASKS;
  }

  lemma Starts()
    ensures H0.s == Start(0, Some(NextState("a", false)), None)
    ensures H0.tasks == H0.s.e.immediate && H0.timers == H0.s.e.timers
  {
    TerminatedStarts();
  }

  // ---------- a settled task that is read again ----------

  const EXECUTES := Execution(
    Process(Running), map[A1 := StateRow(ExecuteRunning, 2, EMPTY_REQUEST, NO_RESULTS, None)],
    map[1 := VisibilityTask(Running), 2 := WorkerTask(ExecuteKind, A1)], map[], map[], 3)
  const EXECUTE_TASKS := FIRST_TASKS[2 := WorkerTask(ExecuteKind, A1)]
  const REREAD := Prepared(0, WaitUntilKind, A1, ExecuteRunning, 2)
  const DECIDES := CompleteExecute(REREAD, StateDecision([NextState("b", false)], None), [])

  const H2 := Held(Session(EXECUTES, {0}, {READ0}), EXECUTE_TASKS, NO_TIMERS)
  const H3 := Held(Session(EXECUTES, {0}, {READ0, REREAD}), EXECUTE_TASKS, NO_TIMERS)

  lemma Responds()
    ensures WaitUntilTx(E0, 0, A1, 1, EMPTY_REQUEST, [], CLOCK, []) == Some(EXECUTES)
  {
    var updated := CompleteWaitUntil(E0, A1, 1).value;
    assert Publish(updated, []) == updated;
    SameMap(updated.immediate - {0}, EXECUTES.immediate);
    assert updated.states == EXECUTES.states;
  }

  lemma RespondsOnce()
    ensures Delivers(H1, Once(RESPONSE), H2) && Outcome(H1, Once(RESPONSE)).Some? && Harmless(H1, Once(RESPONSE))
  {
    Responds();
    hide WaitUntilTx;
    SameMap(FIRST_TASKS + EXECUTES.immediate, EXECUTE_TASKS);
  }

  lemma ReadsAgain()
    ensures Delivers(H2, PrepareAgain(0), H3)
  {
    SameMap(EXECUTE_TASKS + EXECUTES.immediate, EXECUTE_TASKS);
  }

  lemma DecidesAgain()
    requires Sound(H3)
    ensures MayDeliver(H3, Once(DECIDES)) && CommitsFor(H3, Once(DECIDES), REREAD)
    ensures var s' := SessionAfter(H3, Once(DECIDES));
      s'.e.process.status.Running? && !DrivenOnce(s'.e, s'.settled)
  {
    hide Sound, MayDeliver, SessionAfter;
    NumbersFit();
    MayDecide();
    FencedCommitKeepsIff(H3, DECIDES);
  }

  lemma NumbersFit()
    requires Sound(H3)
    ensures SequencesExact(EXECUTES)
  {
    hide Inv, TimersHeld, AllPublished, SequencesExact;
  }

  lemma MayDecide()
    requires SequencesExact(EXECUTES)
    ensures MayDeliver(H3, Once(DECIDES)) && Enabled(H3.s, DECIDES) && CommitsFor(H3, Once(DECIDES), REREAD)
    ensures SessionAfter(H3, Once(DECIDES)) == Next(H3.s, DECIDES)
    ensures Next(H3.s, DECIDES).e.process.status.Running? && !Live(H3, REREAD)
  {
    assert IsPending(MAPS, A1);
    hide CompleteExecuteTx, SequencesExact;
    FencedCommitsIff(H3.s, DECIDES);
    CompletingEndsAs(EXECUTES, REREAD, DECIDES.decision, []);
  }

  lemma ThreeDeliveries(h0: Held, h1: Held, h2: Held, h3: Held, d0: Delivery, d1: Delivery, d2: Delivery)
    requires exists next, start, timeout :: h0.s == Start(next, start, timeout)
    requires h0.tasks == h0.s.e.immediate && h0.timers == h0.s.e.timers
    requires Delivers(h0, d0, h1) && Delivers(h1, d1, h2) && Delivers(h2, d2, h3)
    requires Harmless(h0, d0) && Harmless(h1, d1) && Harmless(h2, d2)
    ensures Sound(h3)
  {
    hide MayDeliver, AfterDelivery, Harmless, Start;
    var helds, ds := [h0, h1, h2, h3], [d0, d1, d2];
    forall n | 0 <= n < |ds| ensures MayDeliver(helds[n], ds[n]) && helds[n + 1] == AfterDelivery(helds[n], ds[n]) {
      assert Delivers(helds[n], ds[n], helds[n + 1]);
    }
    assert IsDeliveryRun(helds, ds);
    SoundWhileHarmless(helds, ds, 3);
  }

  lemma FourDeliveries(
    h0: Held, h1: Held, h2: Held, h3: Held, d0: Delivery, d1: Delivery, d2: Delivery, d3: Delivery)
    requires exists next, start, timeout :: h0.s == Start(next, start, timeout)
    requires h0.tasks == h0.s.e.immediate && h0.timers == h0.s.e.timers
    requires Delivers(h0, d0, h1) && Delivers(h1, d1, h2) && Delivers(h2, d2, h3) && MayDeliver(h3, d3)
    ensures IsDeliveryRun([h0, h1, h2, h3, AfterDelivery(h3, d3)], [d0, d1, d2, d3])
  {
    hide MayDeliver, AfterDelivery, Start;
    var helds, ds := [h0, h1, h2, h3, AfterDelivery(h3, d3)], [d0, d1, d2, d3];
    forall n | 0 <= n < |ds| ensures MayDeliver(helds[n], ds[n]) && helds[n + 1] == AfterDelivery(helds[n], ds[n]) {
      assert n == 3 || Delivers(helds[n], ds[n], helds[n + 1]);
    }
  }

  /**
   A retry reads the row anew: the task's first commit moved the state on, the retry finds it executing, and a
   second commit for the same task ends the state.  The task that really drives it stays behind and drives an
   ended state, on a process that runs on.
   */
  lemma RetryCommitsAgain() returns (helds: seq<Held>, ds: seq<Delivery>)
    ensures IsDeliveryRun(helds, ds) && |ds| == 4
    ensures CommitsFor(helds[1], ds[1], READ0) && ds[2] == PrepareAgain(READ0.task)
    ensures CommitsFor(helds[3], ds[3], REREAD) && REREAD.task == READ0.task
    ensures READ0.task in helds[2].s.settled && READ0.task !in helds[2].s.e.immediate
    ensures helds[4].s.e.process.status.Running? && !DrivenOnce(helds[4].s.e, helds[4].s.settled)
  {
    Starts();
    Prepares();
    RespondsOnce();
    ReadsAgain();
    hide MayDeliver, Outcome, Start, SessionAfter, Sound;
    ThreeDeliveries(H0, H1, H2, H3, Once(Prepare(0)), Once(RESPONSE), PrepareAgain(0));
    DecidesAgain();
    FourDeliveries(H0, H1, H2, H3, Once(Prepare(0)), Once(RESPONSE), PrepareAgain(0), Once(DECIDES));
    ds := [Once(Prepare(0)), Once(RESPONSE), PrepareAgain(0), Once(DECIDES)];
    helds := [H0, H1, H2, H3, AfterDelivery(H3, Once(DECIDES))];
  }

  // ---------- a backoff timer that is converted twice ----------

  const BACKS_OFF := Backoff(READ0, "failure", 7)
  const WAITS_LONGER := Execution(
    Process(Running), map[A1 := StateRow(WaitUntilRunning, 2, EMPTY_REQUEST, NO_RESULTS, Some("failure"))],
    map[1 := VisibilityTask(Running)], map[2 := BackoffTimer(7, A1, WaitUntilKind)], map[], 3)
  const CONVERTED := Execution(
    Process(Running), map[A1 := StateRow(WaitUntilRunning, 2, EMPTY_REQUEST, NO_RESULTS, Some("failure"))],
    map[1 := VisibilityTask(Running), 3 := WorkerTask(WaitUntilKind, A1)], map[], map[], 4)
  const BACKOFF_TIMERS: map<int, TimerTask> := map[2 := BackoffTimer(7, A1, WaitUntilKind)]

  const B2 := Held(Session(WAITS_LONGER, {0}, {READ0}), FIRST_TASKS, BACKOFF_TIMERS)
  const B3 := Held(Session(CONVERTED, {0}, {READ0}), FIRST_TASKS[3 := WorkerTask(WaitUntilKind, A1)], BACKOFF_TIMERS)

  lemma BacksOff()
    ensures Delivers(H1, Once(BACKS_OFF), B2) && Harmless(H1, Once(BACKS_OFF))
  {
    var r := BackoffTx(E0, 0, A1, WaitUntilKind, WaitUntilRunning, 1, "failure", 7);
    SameMap(r.value.immediate, WAITS_LONGER.immediate);
    SameMap(r.value.timers, WAITS_LONGER.timers);
    assert r.value.states == WAITS_LONGER.states;
    assert r == Some(WAITS_LONGER);
    hide BackoffTx;
    SameMap(FIRST_TASKS + WAITS_LONGER.immediate, FIRST_TASKS);
    SameMap(NO_TIMERS + WAITS_LONGER.timers, BACKOFF_TIMERS);
  }

  lemma Converts()
    ensures Delivers(B2, Once(FireBackoff(2)), B3) && Harmless(B2, Once(FireBackoff(2)))
  {
    SameMap(ConvertTx(WAITS_LONGER, 2, A1, WaitUntilKind).immediate, CONVERTED.immediate);
    SameMap(ConvertTx(WAITS_LONGER, 2, A1, WaitUntilKind).timers, CONVERTED.timers);
    assert ConvertTx(WAITS_LONGER, 2, A1, WaitUntilKind) == CONVERTED;
    hide ConvertTx;
    SameMap(FIRST_TASKS + CONVERTED.immediate, B3.tasks);
    SameMap(BACKOFF_TIMERS + CONVERTED.timers, BACKOFF_TIMERS);
  }

  lemma ConvertsAgain()
    ensures MayDeliver(B3, FireBackoffAgain(2)) && SessionAfter(B3, FireBackoffAgain(2)).e.process.status.Running?
    ensures B3.s.e.process.status.Running? && 2 !in B3.s.e.timers
  {
  }

  /** Converted once more after its row is gone, as after an error that hid a success: two tasks drive the state. */
  lemma ConvertedTwice() returns (helds: seq<Held>, ds: seq<Delivery>)
    ensures IsDeliveryRun(helds, ds) && |ds| == 4
    ensures ds[2] == Once(FireBackoff(2)) && ds[3] == FireBackoffAgain(2)
    ensures helds[4].s.e.process.status.Running? && !DrivenOnce(helds[4].s.e, helds[4].s.settled)
  {
    Starts();
    Prepares();
    BacksOff();
    Converts();
    ConvertsAgain();
    hide MayDeliver, Outcome, Start, SessionAfter, Sound;
    ThreeDeliveries(H0, H1, B2, B3, Once(Prepare(0)), Once(BACKS_OFF), Once(FireBackoff(2)));
    ConversionKeepsIff(B3, 2);
    FourDeliveries(H0, H1, B2, B3, Once(Prepare(0)), Once(BACKS_OFF), Once(FireBackoff(2)), FireBackoffAgain(2));
    ds := [Once(Prepare(0)), Once(BACKS_OFF), Once(FireBackoff(2)), FireBackoffAgain(2)];
    helds := [H0, H1, B2, B3, AfterDelivery(B3, FireBackoffAgain(2))];
  }

  // ---------- a queue task that is processed twice ----------

  const MESSAGE := PublishedMessage("q", "m", "x")
  const BROUGHT := [QueuedMessage("q", "m")]
  const ROWS: map<DedupId, MessageRow> := map["m" := MessageRow("q", "x")]
  const PUBLISHED := Execution(
    Process(Running), map[A1 := ROW0], FIRST_TASKS[2 := QueueTask(BROUGHT)], map[], ROWS, 3)
  const ARRIVED := Execution(
    ProcessRow(Running, MAPS, Queues(map[], map["q" := ["m"]]), false), map[A1 := ROW0], FIRST_TASKS, map[], ROWS, 3)

  const ARRIVES := QueueMessages(2, [Nobody], [])
  const ARRIVES_AGAIN := QueueAgain(2, [Nobody], [])

  const M2 := Held(Session(PUBLISHED, {}, {READ0}), PUBLISHED.immediate, NO_TIMERS)
  const M3 := Held(Session(ARRIVED, {}, {READ0}), PUBLISHED.immediate, NO_TIMERS)

  lemma Publishes()
    ensures Delivers(H1, Once(PublishMessages([MESSAGE])), M2) && Harmless(H1, Once(PublishMessages([MESSAGE])))
  {
    var none: map<DedupId, MessageRow> := map[];
    assert [MESSAGE][..0] == [] && InsertMessages(none, []) == (none, []);
    assert [] + BROUGHT == BROUGHT;
    assert InsertMessages(none, [MESSAGE]) == (ROWS, BROUGHT);
    assert PublishTx(E0, [MESSAGE]) == PUBLISHED;
    hide PublishTx;
    assert FIRST_TASKS + PUBLISHED.immediate == PUBLISHED.immediate;
  }

  lemma NobodyTakesIt(s: Queues)
    requires s.commands == map[]
    ensures ValidPicks(s, BROUGHT, [Nobody])
    ensures AssignAll(s, BROUGHT, [Nobody]) == (Append(s, "q", "m"), map[])
    ensures IsOrder([], AssignAll(s, BROUGHT, [Nobody]).1.Keys)
  {
    var none: seq<QueuedMessage>, nobody: seq<Pick> := [], [];
    assert BROUGHT[..0] == none && [Nobody][..0] == nobody;
    assert ValidPicks(s, none, nobody) && AssignAll(s, none, nobody) == (s, map[]);
    assert ValidPick(Append(s, "q", "m"), "q", Nobody);
  }

  lemma Arrives()
    ensures Delivers(M2, Once(ARRIVES), M3) && Harmless(M2, Once(ARRIVES))
  {
    NobodyTakesIt(NO_QUEUES);
    assert [] + ["m"] == ["m"];
    hide AssignAll, ValidPicks;
    SameMap(PUBLISHED.immediate - {2}, FIRST_TASKS);
    assert QueueTx(PUBLISHED, 2, BROUGHT, [Nobody], []) == Some(ARRIVED);
    assert PUBLISHED.immediate + FIRST_TASKS == PUBLISHED.immediate;
  }

  lemma ArrivesAgain()
    ensures MayDeliver(M3, ARRIVES_AGAIN)
  {
    NobodyTakesIt(ARRIVED.process.queues);
    hide AssignAll, ValidPicks;
  }

  /** Processed once more after it left the table: its message is on the queue twice. */
  lemma ArrivedTwice() returns (helds: seq<Held>, ds: seq<Delivery>)
    ensures IsDeliveryRun(helds, ds) && |ds| == 4
    ensures ds[2] == Once(ARRIVES) && ds[3] == ARRIVES_AGAIN
    ensures !MessagesOnce(helds[4].s.e)
  {
    Starts();
    Prepares();
    Publishes();
    Arrives();
    ArrivesAgain();
    hide MayDeliver, Outcome, Start, SessionAfter, Sound;
    ThreeDeliveries(H0, H1, M2, M3, Once(Prepare(0)), Once(PublishMessages([MESSAGE])), Once(ARRIVES));
    QueueTaskKeepsIff(M3, 2, [Nobody], []);
    FourDeliveries(H0, H1, M2, M3, Once(Prepare(0)), Once(PublishMessages([MESSAGE])), Once(ARRIVES), ARRIVES_AGAIN);
    ds := [Once(Prepare(0)), Once(PublishMessages([MESSAGE])), Once(ARRIVES), ARRIVES_AGAIN];
    helds := [H0, H1, M2, M3, AfterDelivery(M3, ARRIVES_AGAIN)];
  }

  // ---------- two holders of one wait-until task ----------

  const ASKS := WaitUntil(READ0, ONE_TIMER_REQUEST, [], CLOCK, [])
  const ASKS_AGAIN := RespondAgain(READ0, ONE_TIMER_REQUEST, [], CLOCK, [])

  const WAITING := Execution(
    Process(Running), map[A1 := StateRow(WaitUntilWaiting, 2, ONE_TIMER_REQUEST, NO_RESULTS, None)],
    map[1 := VisibilityTask(Running)], map[2 := CommandTimer(0, A1, 0)], map[], 3)
  const W2 := Held(Session(WAITING, {0}, {READ0}), FIRST_TASKS, map[2 := CommandTimer(0, A1, 0)])

  lemma PreparesToo()
    ensures Delivers(H1, Once(Prepare(0)), H1)
  {
    assert {READ0} + {READ0} == {READ0} && {} + Settles(Prepare(0)) == {};
    assert FIRST_TASKS + E0.immediate == FIRST_TASKS;
  }

  function WaitingRowAt(version: int): StateRow {
    StateRow(WaitUntilWaiting, version, ONE_TIMER_REQUEST, NO_RESULTS, None)
  }

  /** What the response makes of a row without results, whatever timers there are. */
  lemma AsksForTimer(e: Execution)
    requires A1 in e.states && e.states[A1].results == NO_RESULTS
    requires e.process.queues == NO_QUEUES && e.messages == map[]
    ensures WaitUntilTx(e, 0, A1, 1, ONE_TIMER_REQUEST, [], CLOCK, []) == Some(e.(
              states := e.states[A1 := WaitingRowAt(e.states[A1].version + 1)],
              immediate := e.immediate - {0}, timers := e.timers[e.next := CommandTimer(0, A1, 0)], next := e.next + 1))
  {
    var none: map<int, seq<DedupId>> := map[];
    assert CommandsOf(AddCommands(NO_QUEUES, A1, []), A1) == map[];
    assert AddConsumed(e.messages, NO_RESULTS, none) == NO_RESULTS;
    var updated := RowWaits(e, A1, ONE_TIMER_REQUEST, NO_QUEUES, NO_RESULTS);
    assert [0][..0] == [];
    assert InsertCommandTimers(updated, A1, [], CLOCK) == updated;
    var waits := InsertTimer(updated, CommandTimer(0, A1, 0));
    assert InsertCommandTimers(updated, A1, [0], CLOCK) == waits;
    assert UpdateWaitUntil(e, A1, ONE_TIMER_REQUEST, [], CLOCK) == Some(waits);
    assert Publish(waits, []) == waits;
  }

  lemma Asks()
    ensures Delivers(H1, Once(ASKS), W2) && Harmless(H1, Once(ASKS))
  {
    AsksForTimer(E0);
    SameMap(E0.immediate - {0}, WAITING.immediate);
    SameMap(E0.timers[2 := CommandTimer(0, A1, 0)], WAITING.timers);
    assert E0.states[A1 := StateRow(WaitUntilWaiting, 2, ONE_TIMER_REQUEST, NO_RESULTS, None)] == WAITING.states;
    assert WaitUntilTx(E0, 0, A1, 1, ONE_TIMER_REQUEST, [], CLOCK, []) == Some(WAITING);
    hide WaitUntilTx;
    SameMap(FIRST_TASKS + WAITING.immediate, FIRST_TASKS);
    SameMap(NO_TIMERS + WAITING.timers, W2.timers);
  }

  lemma AsksAgain()
    ensures MayDeliver(W2, ASKS_AGAIN)
    ensures var e' := SessionAfter(W2, ASKS_AGAIN).e; A1 in e'.states && e'.states[A1].status.WaitUntilWaiting?
  {
    AsksForTimer(WAITING);
    hide WaitUntilTx;
  }

  /** Both holders' responses are taken, and the one timer command has two timers. */
  lemma AskedTwice() returns (helds: seq<Held>, ds: seq<Delivery>)
    ensures IsDeliveryRun(helds, ds) && |ds| == 4
    ensures ds[2] == Once(ASKS) && ds[3] == ASKS_AGAIN
    ensures A1 in helds[4].s.e.states && helds[4].s.e.states[A1].status.WaitUntilWaiting?
    ensures !TimersRest(helds[4].s.e, A1)
  {
    Starts();
    Prepares();
    PreparesToo();
    Asks();
    AsksAgain();
    hide MayDeliver, Outcome, Start, SessionAfter, Sound, TimersRest;
    ThreeDeliveries(H0, H1, H1, W2, Once(Prepare(0)), Once(Prepare(0)), Once(ASKS));
    SecondResponseKeepsTimersIff(W2, ASKS_AGAIN);
    FourDeliveries(H0, H1, H1, W2, Once(Prepare(0)), Once(Prepare(0)), Once(ASKS), ASKS_AGAIN);
    ds := [Once(Prepare(0)), Once(Prepare(0)), Once(ASKS), ASKS_AGAIN];
    helds := [H0, H1, H1, W2, AfterDelivery(W2, ASKS_AGAIN)];
  }
}
