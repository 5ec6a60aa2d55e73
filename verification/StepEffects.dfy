/** What each of the other steps does to the rows, in plain terms. */
module StepEffects {
  import opened Wrappers
  import opened Collections
  import opened StateExecutionIds
  import opened LocalQueues
  import L = LocalQueueTheorems
  import opened SequenceMaps
  import opened ProcessModel
  import opened Transactions
  import opened Invariants
  import opened ClosingLemmas
  import opened WaitingLemmas
  import opened AssigningLemmas
  import opened QueueLemmas
  import opened Sessions
  import opened SessionLemmas
  import opened RunTheorems
  import opened ClosingTheorems
  import opened RunFifo
  import opened RedeliveredMessages
  import opened StartEffects
  import opened PublishEffects
  import opened DecisionEffects

  // ---------- recovering ----------

  ghost predicate FailedAs(e: Execution, e': Execution, sid: StateExecutionId, failure: Failure) {
    && sid in e.states && sid in e'.states
    && e'.states[sid] == e.states[sid].(status := StateFailed, version := e.states[sid].version + 1,
                                         lastFailure := Some(failure))
  }

  /** The source failed; the destination has a new row, its one driver and its place among the pending states. */
  ghost predicate Recovered(
    e: Execution, e': Execution, source: StateExecutionId, failure: Failure, destination: NextState)
  {
    var maps := e.process.sequenceMaps;
    var sid := StateExecutionId(destination.stateId, LastSequence(maps, destination.stateId) + 1);
    && FailedAs(e, e', source, failure)
    && sid !in e.states && sid != source
    && e'.states == e.states[source := e'.states[source]][sid := FreshRow(destination.skipWaitUntil)]
    && (forall id :: LastSequence(e'.process.sequenceMaps, id) ==
                     LastSequence(maps, id) + if id == destination.stateId then 1 else 0)
    && (forall other :: IsPending(e'.process.sequenceMaps, other) <==>
          (IsPending(maps, other) && other != source) || other == sid)
    && e'.process == e.process.(sequenceMaps := e'.process.sequenceMaps)
    && e'.immediate == e.immediate[e.next := DriverTask(destination.skipWaitUntil, sid)] && e'.next == e.next + 1
    && e'.timers == e.timers && e'.messages == e.messages
  }

  lemma FailingFinishes(e: Execution, sid: StateExecutionId, version: int, failure: Failure)
    requires SequencesExact(e) && FinishState(e, sid, version, StateFailed, Some(failure)).Some?
    ensures var finished := FinishState(e, sid, version, StateFailed, Some(failure)).value;
      && FailedAs(e, finished, sid, failure) && SequencesExact(finished)
      && finished == e.(states := e.states[sid := finished.states[sid]], process := finished.process)
      && finished.process == e.process.(sequenceMaps := finished.process.sequenceMaps)
      && finished.process.sequenceMaps.sequence == e.process.sequenceMaps.sequence
      && (forall other :: IsPending(finished.process.sequenceMaps, other) <==>
            IsPending(e.process.sequenceMaps, other) && other != sid)
  {
    FinishStateFinishes(e, sid, version, StateFailed, Some(failure));
    hide SequencesExact, IsPending;
  }

  lemma ThenDestinationStarts(
    e: Execution, finished: Execution, e': Execution, source: StateExecutionId, failure: Failure,
    destination: NextState)
    requires FailedAs(e, finished, source, failure) && OneStarted(finished, e', destination)
    requires finished == e.(states := e.states[source := finished.states[source]], process := finished.process)
    requires finished.process == e.process.(sequenceMaps := finished.process.sequenceMaps)
    requires finished.process.sequenceMaps.sequence == e.process.sequenceMaps.sequence
    requires forall other :: IsPending(finished.process.sequenceMaps, other) <==>
               IsPending(e.process.sequenceMaps, other) && other != source
    ensures Recovered(e, e', source, failure, destination)
  {
    hide IsPending;
    SameCounters(e.process.sequenceMaps, finished.process.sequenceMaps);
    hide LastSequence;
  }

  lemma SameCounters(maps: SequenceMaps, maps': SequenceMaps)
    requires maps.sequence == maps'.sequence
    ensures forall id :: LastSequence(maps, id) == LastSequence(maps', id)
  {
  }

  lemma RecoverRecovers(
    e: Execution, sid: StateExecutionId, version: int, failure: Failure, destination: NextState)
    requires SequencesExact(e) && RecoverTx(e, sid, version, failure, destination).Some?
    ensures Recovered(e, RecoverTx(e, sid, version, failure, destination).value, sid, failure, destination)
  {
    hide SequencesExact, StartState, FinishState, OneStarted, FailedAs;
    FailingFinishes(e, sid, version, failure);
    var finished := FinishState(e, sid, version, StateFailed, Some(failure)).value;
    StartingOne(finished, destination);
    ThenDestinationStarts(e, finished, StartState(finished, destination).value, sid, failure, destination);
  }

  lemma OnlyNewTaskDrives(s: Session, e': Execution, source: StateExecutionId, failure: Failure, destination: NextState)
    requires SessionInv(s) && Recovered(s.e, e', source, failure, destination)
    ensures var id := destination.stateId;
      var sid := StateExecutionId(id, LastSequence(s.e.process.sequenceMaps, id) + 1);
      forall t, kind :: Drives(e', s.settled, sid, t, kind) ==>
        t == s.e.next && kind == if destination.skipWaitUntil then ExecuteKind else WaitUntilKind
  {
    assert RowsExist(s.e);
  }

  /** Recovering starts exactly the destination, under its next sequence, and fails exactly the source. */
  lemma RecoveringTakesEffect(states: seq<Session>, steps: seq<Step>, n: nat)
    requires IsRun(states, steps) && n < |steps| && steps[n].Recover? && Commits(states[n], steps[n])
    ensures var step, e, e' := steps[n], states[n].e, states[n + 1].e;
      var id := step.destination.stateId;
      var sid := StateExecutionId(id, LastSequence(e.process.sequenceMaps, id) + 1);
      && Recovered(e, e', step.p.sid, step.failure, step.destination)
      && forall t, kind :: Drives(e', states[n].settled, sid, t, kind) ==>
           t == e.next && kind == if step.destination.skipWaitUntil then ExecuteKind else WaitUntilKind
  {
    hide Inv, SequencesExact, RecoverTx, Recovered;
    AlwaysInv(states, steps, n);
    InvHasSequences(states[n].e, states[n].settled);
    var step := steps[n];
    RecoverRecovers(states[n].e, step.p.sid, step.p.version, step.failure, step.destination);
    OnlyNewTaskDrives(states[n], states[n + 1].e, step.p.sid, step.failure, step.destination);
  }

  // ---------- closing from outside ----------

  /** All active rows are aborted, all others are the same. */
  ghost predicate RowsAborted(e: Execution, e': Execution) {
    && (forall sid :: sid in e'.states <==> sid in e.states)
    && (forall sid :: sid in e.states ==>
          e'.states[sid] == if IsActive(e.states[sid].status) then AbortedRow(e.states[sid]) else e.states[sid])
  }

  /** The process closed with this status, which one new task records; pending states are dropped or kept. */
  ghost predicate ClosedAs(e: Execution, e': Execution, status: ProcessStatus, drops: bool) {
    && e'.process.status == status
    && e'.process.sequenceMaps.sequence == e.process.sequenceMaps.sequence
    && (forall sid :: IsPending(e'.process.sequenceMaps, sid) <==> !drops && IsPending(e.process.sequenceMaps, sid))
    && e'.process.queues == e.process.queues
    && e'.process.gracefulCompleteRequested == e.process.gracefulCompleteRequested
    && RowsAborted(e, e')
    && e'.immediate == e.immediate[e.next := VisibilityTask(status)] && e'.next == e.next + 1
    && e'.messages == e.messages
  }

  lemma StopCloses(e: Execution, status: ProcessStatus)
    requires PendingMatches(e) && SequencesExact(e) && e.process.status.Running?
    ensures ClosedAs(e, StopTx(e, status), status, true) && StopTx(e, status).timers == e.timers
  {
    NonePendingIsExact(e.process.sequenceMaps);
  }

  lemma TerminateCloses(e: Execution)
    requires e.process.status.Running?
    ensures ClosedAs(e, TerminateTx(e), ProcessTerminated, false) && TerminateTx(e).timers == e.timers
  {
  }

  /** A stop closes a running process with exactly the status asked for, and does nothing to a closed one. */
  lemma StoppingTakesEffect(states: seq<Session>, steps: seq<Step>, n: nat)
    requires IsRun(states, steps) && n < |steps| && steps[n].Stop?
    ensures var e, e' := states[n].e, states[n + 1].e;
      if e.process.status.Running? then ClosedAs(e, e', steps[n].status, true) && e'.timers == e.timers else e' == e
  {
    hide Inv, SequencesExact, PendingMatches, ClosedAs;
    AlwaysInv(states, steps, n);
    InvHasSequences(states[n].e, states[n].settled);
    if states[n].e.process.status.Running? {
      hide StopTx;
      StopCloses(states[n].e, steps[n].status);
    }
  }

  /** A timeout closes a running process as timed out; in any case its timer is gone, and nothing else changes. */
  lemma TimingOutTakesEffect(states: seq<Session>, steps: seq<Step>, n: nat)
    requires IsRun(states, steps) && n < |steps| && steps[n].FireTimeout?
    ensures var e, e' := states[n].e, states[n + 1].e;
      && e'.timers == e.timers - {steps[n].timer}
      && if e.process.status.Running? then ClosedAs(e, e', ProcessTimeout, true) else e' == e.(timers := e'.timers)
  {
    hide Inv, SequencesExact, PendingMatches;
    AlwaysInv(states, steps, n);
    InvHasSequences(states[n].e, states[n].settled);
    if states[n].e.process.status.Running? {
      hide StopTx;
      StopCloses(states[n].e, ProcessTimeout);
    }
  }

  /** Terminating keeps the pending states of a process it closes, and aborts what is active in any case. */
  lemma TerminatingTakesEffect(states: seq<Session>, steps: seq<Step>, n: nat)
    requires IsRun(states, steps) && n < |steps| && steps[n].TerminateIfRunning?
    ensures var e, e' := states[n].e, states[n + 1].e;
      && e'.timers == e.timers && RowsAborted(e, e')
      && if e.process.status.Running? then ClosedAs(e, e', ProcessTerminated, false)
         else e' == e.(states := e'.states)
  {
    if states[n].e.process.status.Running? {
      TerminateCloses(states[n].e);
    }
  }

  // ---------- backing off ----------

  /** The failure and the time of the next attempt are kept: in the row, and in the one new timer. */
  lemma BackingOffTakesEffect(states: seq<Session>, steps: seq<Step>, n: nat)
    requires IsRun(states, steps) && n < |steps| && steps[n].Backoff? && Commits(states[n], steps[n])
    ensures var p, e, e' := steps[n].p, states[n].e, states[n + 1].e;
      && p.sid in e.states
      && e'.states
      == e.states[p.sid := e.states[p.sid].(version := p.version + 1, lastFailure := Some(steps[n].failure))]
      && e'.timers == e.timers[e.next := BackoffTimer(steps[n].fireTime, p.sid, p.kind)] && e'.next == e.next + 1
      && e'.immediate == e.immediate - {p.task} && e'.process == e.process && e'.messages == e.messages
  {
    hide Inv;
    AlwaysInv(states, steps, n);
    assert PreparedRead(states[n].e, states[n].settled, steps[n].p);
  }

  /** A backoff timer that fires becomes a task for the same API of the same state. */
  lemma ConvertingTakesEffect(states: seq<Session>, steps: seq<Step>, n: nat)
    requires IsRun(states, steps) && n < |steps| && steps[n].FireBackoff?
    ensures var t, e, e' := steps[n].timer, states[n].e, states[n + 1].e;
      && t in e.timers && e.timers[t].BackoffTimer?
      && e'.immediate == e.immediate[e.next := WorkerTask(e.timers[t].kind, e.timers[t].sid)]
      && e' == e.(immediate := e'.immediate, timers := e.timers - {t}, next := e.next + 1)
  {
  }

  // ---------- responding ----------

  /** The rows as `e1` has them, with the messages published after that and the task deleted. */
  ghost predicate ThenPublishes(e1: Execution, e': Execution, publish: seq<PublishedMessage>, task: int) {
    exists e2 :: AllPublished(e1, e2, publish) && e' == e2.(immediate := e2.immediate - {task})
  }

  /** The state moved on to its execute API. */
  ghost predicate MovedOn(e: Execution, e1: Execution, sid: StateExecutionId) {
    && sid in e.states
    && e1 == e.(states := e.states[sid := e.states[sid].(status := ExecuteRunning,
                                                          version := e.states[sid].version + 1, lastFailure := None)],
                immediate := e.immediate[e.next := WorkerTask(ExecuteKind, sid)], next := e.next + 1)
  }

  /** A response without commands moves the state on to its execute API and publishes; nothing else. */
  lemma RespondingWithoutCommandsTakesEffect(states: seq<Session>, steps: seq<Step>, n: nat)
    requires IsRun(states, steps) && n < |steps| && steps[n].WaitUntil? && Commits(states[n], steps[n])
    requires steps[n].request.waitingType.EmptyCommand?
    ensures exists e1 ::
              && MovedOn(states[n].e, e1, steps[n].p.sid)
              && ThenPublishes(e1, states[n + 1].e, steps[n].publish, steps[n].p.task)
  {
    var step, e := steps[n], states[n].e;
    var e1 := CompleteWaitUntil(e, step.p.sid, step.p.version).value;
    PublishingAll(e1, step.publish);
    hide AllPublished, Publish;
    assert MovedOn(e, e1, step.p.sid);
    assert ThenPublishes(e1, states[n + 1].e, step.publish, step.p.task);
  }

  function FireTime(now: Readings, delays: seq<int>, i: nat): int
    requires i < |delays|
  {
    now(i) + if delays[i] < 0 then 0 else delays[i]
  }

  /** The row waits for the request, or executes at once; each timer command has a timer at its own time. */
  ghost predicate StartsToWaitFor(
    e: Execution, e1: Execution, sid: StateExecutionId, request: CommandRequest, now: Readings)
  {
    && sid in e.states && sid in e1.states && e1.states == e.states[sid := e1.states[sid]]
    && e1.states[sid].version == e.states[sid].version + 1 && e1.states[sid].lastFailure == None
    && e1.states[sid].request == request && e1.states[sid].results.timers == e.states[sid].results.timers
    && var executes := e1.states[sid].status.ExecuteRunning?;
    && (executes || e1.states[sid].status.WaitUntilWaiting?)
    && var base := if executes then e.next + 1 else e.next;
    && e1.immediate == (if executes then e.immediate[e.next := WorkerTask(ExecuteKind, sid)] else e.immediate)
    && e1.next == base + |request.timerDelays|
    && (forall t :: t in e1.timers <==> t in e.timers || base <= t < e1.next)
    && (forall t :: t in e.timers && t < e.next ==> e1.timers[t] == e.timers[t])
    && (forall i :: 0 <= i < |request.timerDelays| ==>
          e1.timers[base + i] == CommandTimer(FireTime(now, request.timerDelays, i), sid, i))
    && e1.process == e.process.(queues := e1.process.queues) && e1.messages == e.messages
  }

  lemma RowWaitsInPlainTerms(
    e: Execution, sid: StateExecutionId, request: CommandRequest, queues: Queues, results: CommandResults)
    requires sid in e.states
    ensures var e1 := RowWaits(e, sid, request, queues, results);
      && sid in e1.states && e1.states == e.states[sid := e1.states[sid]] && e1.timers == e.timers
      && e1.states[sid].version == e.states[sid].version + 1 && e1.states[sid].lastFailure == None
      && e1.states[sid].request == request && e1.states[sid].results == results
      && var executes := e1.states[sid].status.ExecuteRunning?;
      && (executes || e1.states[sid].status.WaitUntilWaiting?)
      && e1.immediate == (if executes then e.immediate[e.next := WorkerTask(ExecuteKind, sid)] else e.immediate)
      && e1.next == (if executes then e.next + 1 else e.next)
      && e1.process == e.process.(queues := e1.process.queues) && e1.messages == e.messages
  {
    hide Completed, Cleanup;
  }

  lemma TimersInPlainTerms(e1: Execution, sid: StateExecutionId, delays: seq<int>, now: Readings)
    ensures var e2 := InsertCommandTimers(e1, sid, delays, now);
      && e2 == e1.(timers := e2.timers, next := e1.next + |delays|)
      && (forall t :: t in e2.timers <==> t in e1.timers || e1.next <= t < e2.next)
      && (forall t :: t in e1.timers && t < e1.next ==> e2.timers[t] == e1.timers[t])
      && (forall i :: 0 <= i < |delays| ==> e2.timers[e1.next + i] == CommandTimer(FireTime(now, delays, i), sid, i))
  {
    InsertCommandTimersInserts(e1, sid, delays, now);
    hide InsertCommandTimers;
    var e2 := InsertCommandTimers(e1, sid, delays, now);
    forall i | 0 <= i < |delays| ensures e2.timers[e1.next + i] == CommandTimer(FireTime(now, delays, i), sid, i) {
      assert e1.next <= e1.next + i < e2.next;
    }
  }

  lemma WaitingInPlainTerms(
    e: Execution, sid: StateExecutionId, request: CommandRequest, order: seq<int>, now: Readings)
    requires OrderFor(e.process.queues, sid, request, order)
    requires UpdateWaitUntil(e, sid, request, order, now).Some?
    ensures StartsToWaitFor(e, UpdateWaitUntil(e, sid, request, order, now).value, sid, request, now)
  {
    hide RegisterCommands, RowWaits, InsertCommandTimers, FireTime;
    var (queues, consumed) := RegisterCommands(e.process.queues, sid, request, order);
    var results := AddConsumed(e.messages, e.states[sid].results, consumed);
    RowWaitsInPlainTerms(e, sid, request, queues, results);
    TimersInPlainTerms(RowWaits(e, sid, request, queues, results), sid, request.timerDelays, now);
  }

  /** A response with commands stores the request, sets its timers and publishes; the queues are `WaitOutcomeHolds`. */
  lemma RespondingWithCommandsTakesEffect(states: seq<Session>, steps: seq<Step>, n: nat)
    requires IsRun(states, steps) && n < |steps| && steps[n].WaitUntil? && Commits(states[n], steps[n])
    requires !steps[n].request.waitingType.EmptyCommand?
    ensures exists e1 ::
              && StartsToWaitFor(states[n].e, e1, steps[n].p.sid, steps[n].request, steps[n].now)
              && ThenPublishes(e1, states[n + 1].e, steps[n].publish, steps[n].p.task)
  {
    var step, e := steps[n], states[n].e;
    WaitingInPlainTerms(e, step.p.sid, step.request, step.order, step.now);
    hide UpdateWaitUntil, StartsToWaitFor;
    var e1 := UpdateWaitUntil(e, step.p.sid, step.request, step.order, step.now).value;
    PublishingAll(e1, step.publish);
    hide AllPublished, Publish;
    assert ThenPublishes(e1, states[n + 1].e, step.publish, step.p.task);
  }

  // ---------- firing a command timer ----------

  /** The command has its result; the row waits on, or executes and has one new task and no commands. */
  ghost predicate CommandFired(e: Execution, e': Execution, t: int, sid: StateExecutionId, i: int) {
    && sid in e.states && sid in e'.states
    && var row, row' := e.states[sid], e'.states[sid];
    && e'.states == e.states[sid := row']
    && row'.version == row.version + 1 && row'.request == row.request && row'.lastFailure == None
    && row'.results == CommandResults(row.results.timers[i := true], row.results.queues)
    && e'.timers == e.timers - {t} && e'.messages == e.messages
    && var executes := row'.status.ExecuteRunning?;
    && (executes || row'.status.WaitUntilWaiting?)
    && e'.immediate == (if executes then e.immediate[e.next := WorkerTask(ExecuteKind, sid)] else e.immediate)
    && e'.next == (if executes then e.next + 1 else e.next)
    && e'.process == e.process.(queues := e'.process.queues)
    && e'.process.queues.unconsumed == e.process.queues.unconsumed
    && e'.process.queues.commands == (if executes then e.process.queues.commands - {sid} else e.process.queues.commands)
  }

  /** A command timer gives its command a result if the state waits, and else does nothing at all. */
  lemma FiringTakesEffect(states: seq<Session>, steps: seq<Step>, n: nat)
    requires IsRun(states, steps) && n < |steps| && steps[n].FireCommand?
    ensures var t, e, e' := steps[n].timer, states[n].e, states[n + 1].e;
      && t in e.timers && e.timers[t].CommandTimer? && e.timers[t].sid in e.states
      && if e.states[e.timers[t].sid].status.WaitUntilWaiting? then
           CommandFired(e, e', t, e.timers[t].sid, e.timers[t].index)
         else e' == e
  {
    hide Inv, Completed;
    AlwaysInv(states, steps, n);
    FireCommandStep(states[n], steps[n].timer);
    hide SessionInv;
  }

  // ---------- the steps that touch one table ----------

  /** A running process accepts what is published, a closed one nothing. */
  lemma PublishingTakesEffect(states: seq<Session>, steps: seq<Step>, n: nat)
    requires IsRun(states, steps) && n < |steps| && steps[n].PublishMessages?
    ensures if states[n].e.process.status.Running? then AllPublished(states[n].e, states[n + 1].e, steps[n].publish)
            else states[n + 1].e == states[n].e
  {
    PublishingAll(states[n].e, steps[n].publish);
    hide AllPublished, Publish;
  }

  /** Recording a status deletes its task; preparing changes nothing and remembers the row's status and version. */
  lemma RecordingAndPreparingTakeEffect(states: seq<Session>, steps: seq<Step>, n: nat)
    requires IsRun(states, steps) && n < |steps|
    ensures var e, e' := states[n].e, states[n + 1].e;
      && (steps[n].RecordVisibility? ==> e' == e.(immediate := e.immediate - {steps[n].task}))
      && (steps[n].Prepare? ==>
            && steps[n].task in e.immediate && e.immediate[steps[n].task].WorkerTask?
            && var task := e.immediate[steps[n].task];
            && task.sid in e.states && e' == e && states[n + 1].settled == states[n].settled
            && var row := e.states[task.sid];
            states[n + 1].preps
            == states[n].preps + {Prepared(steps[n].task, task.kind, task.sid, row.status, row.version)})
  {
    assert states[n].settled + {} == states[n].settled;
    hide WaitUntilTx, CompleteExecuteTx, RecoverTx, BackoffTx, QueueTx, CommandTimerTx, RpcTx, StopTx, TerminateTx,
      TimeoutTx, ConvertTx, PublishTx;
  }

  // ---------- a queue task ----------

  ghost predicate GotBatch(log: seq<L.Batch>, sid: StateExecutionId, i: int) {
    exists b :: b in log && b.sid == sid && b.index == i
  }

  lemma GivenOneMore(
    a: Assigned, log: seq<L.Batch>, last: seq<L.Batch>, sid: StateExecutionId, i: int, ids: seq<DedupId>)
    requires forall s, j :: Given(a, s, j) ==> GotBatch(log, s, j)
    requires |last| == 1 && last[0].sid == sid && last[0].index == i
    ensures forall s, j :: Given(AssignTo(a, sid, i, ids), s, j) ==> GotBatch(log + last, s, j)
  {
    forall s, j | Given(AssignTo(a, sid, i, ids), s, j) ensures GotBatch(log + last, s, j) {
      if s == sid && j == i {
        assert last[0] in log + last;
      } else {
        assert Given(a, s, j);
        var b :| b in log && b.sid == s && b.index == j;
        assert b in log + last;
      }
    }
  }

  lemma {:induction false} GivenIsLogged(s: Queues, ms: seq<QueuedMessage>, picks: seq<Pick>)
    requires ValidPicks(s, ms, picks)
    ensures forall sid, i :: Given(AssignAll(s, ms, picks).1, sid, i) ==> GotBatch(AssignLog(s, ms, picks), sid, i)
  {
    if ms != [] {
      var k := |ms| - 1;
      GivenIsLogged(s, ms[..k], picks[..k]);
      var (before, a) := AssignAll(s, ms[..k], picks[..k]);
      var log, last :=
        AssignLog(s, ms[..k], picks[..k]), L.HandedOver(before, L.Arrive(ms[k].queue, ms[k].dedupId, picks[k]));
      assert AssignLog(s, ms, picks) == log + last;
      if picks[k].Picked? {
        GivenOneMore(a, log, last, picks[k].sid, picks[k].index,
                     AddMessage(before, ms[k].queue, ms[k].dedupId, picks[k]).1);
      } else {
        assert log + last == log;
      }
    }
  }

  ghost predicate GotAny(log: seq<L.Batch>, sid: StateExecutionId) {
    exists i :: GotBatch(log, sid, i)
  }

  /** The row with new results for the commands that got a batch, waiting on or executing. */
  ghost predicate RowGotBatches(row: StateRow, row': StateRow, log: seq<L.Batch>, sid: StateExecutionId) {
    && row'.version == row.version + 1 && row'.request == row.request && row'.lastFailure == None
    && (row'.status == row.status || row'.status.ExecuteRunning?)
    && row'.results.timers == row.results.timers
    && (forall i :: i in row'.results.queues <==> i in row.results.queues || GotBatch(log, sid, i))
    && (forall i :: i in row.results.queues && !GotBatch(log, sid, i) ==>
          row'.results.queues[i] == row.results.queues[i])
  }

  ghost predicate RowsGotBatches(e: Execution, e': Execution, log: seq<L.Batch>) {
    forall sid :: sid in e.states ==>
      && sid in e'.states
      && (!GotAny(log, sid) ==> e'.states[sid] == e.states[sid])
      && (GotAny(log, sid) ==> RowGotBatches(e.states[sid], e'.states[sid], log, sid))
  }

  lemma HeldRowsGotBatches(e: Execution, e': Execution, a: Assigned, sids: seq<StateExecutionId>, log: seq<L.Batch>)
    requires RowsHold(e, e', a, sids) && forall sid :: sid in sids <==> sid in a
    requires forall sid, i :: Given(a, sid, i) <==> GotBatch(log, sid, i)
    requires forall sid :: sid in a ==> a[sid] != map[]
    ensures RowsGotBatches(e, e', log)
  {
    hide Completed, GotBatch;
    forall sid | sid in a ensures GotAny(log, sid) {
      HasElement(a[sid].Keys);
      var i :| i in a[sid];
      assert Given(a, sid, i);
    }
    forall sid | sid in e.states && GotAny(log, sid) ensures sid in a {
      var i :| GotBatch(log, sid, i);
      assert Given(a, sid, i);
    }
    forall sid | sid in e.states && sid in a ensures RowGotBatches(e.states[sid], e'.states[sid], log, sid) {
      assert forall i :: i in a[sid] <==> GotBatch(log, sid, i);
    }
  }

  /** What a queue task leaves of the rest: its own task is gone, and what came are execute tasks. */
  lemma ArrivingLeavesTheRest(
    e: Execution, t: int, ms: seq<QueuedMessage>, picks: seq<Pick>, sids: seq<StateExecutionId>)
    requires |picks| == |ms| && IsOrder(sids, AssignAll(e.process.queues, ms, picks).1.Keys)
    requires QueueTx(e, t, ms, picks, sids).Some?
    ensures var e' := QueueTx(e, t, ms, picks, sids).value;
      && e'.timers == e.timers && e'.process == e.process.(queues := e'.process.queues)
      && e'.states.Keys == e.states.Keys
  {
    hide AssignAll, UpdateAssignedRows;
    var (queues, given) := AssignAll(e.process.queues, ms, picks);
    var e0 := e.(process := e.process.(queues := queues));
    UpdatedRowsSameTimers(e0, given, sids);
    UpdatedRowsSameKeys(e0, given, sids);
    UpdateAssignedRowsOnlyQueues(e0, given, sids);
  }

  lemma {:induction false} UpdatedRowsSameTimers(e: Execution, a: Assigned, sids: seq<StateExecutionId>)
    requires (forall sid :: sid in sids ==> sid in a) && UpdateAssignedRows(e, a, sids).Some?
    ensures UpdateAssignedRows(e, a, sids).value.timers == e.timers
  {
    if sids != [] {
      UpdatedRowsSameTimers(e, a, sids[..|sids| - 1]);
    }
  }

  /**
   A queue task changes exactly the rows of the states it hands a batch to: their commands have the batches as
   results, and nothing else of them changes but that they may execute now.
   */
  lemma ArrivingTakesEffect(states: seq<Session>, steps: seq<Step>, n: nat)
    requires IsRun(states, steps) && n < |steps| && steps[n].QueueMessages?
    ensures var e, e', log := states[n].e, states[n + 1].e, StepLog(states[n], steps[n]);
      && RowsGotBatches(e, e', log) && e'.states.Keys == e.states.Keys
      && (forall b :: b in log ==> Contents(e', ResultCell(b.sid, b.index)) == b.ids)
      && e'.timers == e.timers && e'.messages == e.messages && e'.process == e.process.(queues := e'.process.queues)
      && steps[n].task !in e'.immediate
  {
    AlwaysInv(states, steps, n);
    ArrivingStep(states[n], steps[n]);
    forall b | b in StepLog(states[n], steps[n])
      ensures Contents(states[n + 1].e, ResultCell(b.sid, b.index)) == b.ids
    {
      HandedOverIsStored(states, steps, n, b);
    }
  }

  lemma ArrivingStep(s: Session, step: Step)
    requires SessionInv(s) && Enabled(s, step) && step.QueueMessages?
    ensures var e, e', log := s.e, Next(s, step).e, StepLog(s, step);
      && RowsGotBatches(e, e', log) && e'.states.Keys == e.states.Keys
      && e'.timers == e.timers && e'.messages == e.messages && e'.process == e.process.(queues := e'.process.queues)
      && step.task !in e'.immediate
  {
    var e, ms := s.e, s.e.immediate[step.task].messages;
    assert RegisteredMatch(e);
    hide Inv, SessionInv, RowsGotBatches, AssignAll, AssignLog, RowsHold, L.NoLostWakeUp;
    QueueStep(s, step.task, step.picks, step.sids);
    GivenRowsExist(e, ms, step.picks);
    QueueTxRowsHold(e, step.task, ms, step.picks, step.sids);
    ArrivingLeavesTheRest(e, step.task, ms, step.picks, step.sids);
    QueueTxKeepsIds(e, step.task, ms, step.picks, step.sids);
    LoggedIffGiven(e.process.queues, ms, step.picks);
    var given := AssignAll(e.process.queues, ms, step.picks).1;
    HeldRowsGotBatches(e, Next(s, step).e, given, step.sids, AssignLog(e.process.queues, ms, step.picks));
  }

  lemma LoggedIffGiven(s: Queues, ms: seq<QueuedMessage>, picks: seq<Pick>)
    requires L.Positive(s) && L.NoLostWakeUp(s) && L.NoEmptyEntries(s) && ValidPicks(s, ms, picks)
    ensures var a := AssignAll(s, ms, picks).1;
      && (forall sid, i :: Given(a, sid, i) <==> GotBatch(AssignLog(s, ms, picks), sid, i))
      && (forall sid :: sid in a ==> a[sid] != map[])
  {
    GivenIsLogged(s, ms, picks);
    LoggedIsGiven(s, ms, picks);
    AssignAllAssigns(s, ms, picks);
  }
}
