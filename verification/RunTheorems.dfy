/** What holds at every point of every run of a process execution. */
module RunTheorems {
  import opened Wrappers
  import opened StateExecutionIds
  import opened LocalQueues
  import LocalQueueTheorems
  import opened SequenceMaps
  import opened ProcessModel
  import opened Transactions
  import opened Invariants
  import opened TimerCommandLemmas
  import opened StepLemmas
  import opened Evolution
  import opened EarningLemmas
  import opened Sessions
  import opened SessionLemmas

  lemma {:induction false} AlwaysInv(states: seq<Session>, steps: seq<Step>, n: nat)
    requires IsRun(states, steps) && n <= |steps|
    ensures SessionInv(states[n])
  {
    if n == 0 {
      var next, start, timeout :| states[0] == Start(next, start, timeout);
      StartExecutionHolds(next, start, timeout);
      StartExecutionEarns(next, start, timeout);
    } else {
      AlwaysInv(states, steps, n - 1);
      StepKeeps(states[n - 1], steps[n - 1]);
    }
  }

  /** Over any stretch of a run: rows' versions only grow with every change, and rows, messages and closedness stay. */
  lemma {:induction false} EvolvesAlong(states: seq<Session>, steps: seq<Step>, i: nat, j: nat)
    requires IsRun(states, steps) && i <= j <= |steps|
    ensures Evolves(states[i].e, states[j].e)
    decreases j
  {
    if i < j {
      EvolvesAlong(states, steps, i, j - 1);
      AlwaysInv(states, steps, j - 1);
      StepKeeps(states[j - 1], steps[j - 1]);
      EvolvesTwice(states[i].e, states[j - 1].e, states[j].e);
    }
  }

  // ---------- drivers ----------

  /** An unsettled worker task, or a backoff timer, that will have an API of the state called. */
  ghost predicate Driver(s: Session, sid: StateExecutionId, t: int, kind: WorkerKind) {
    Drives(s.e, s.settled, sid, t, kind)
  }

  ghost predicate OnlyDriver(s: Session, sid: StateExecutionId, t: int, kind: WorkerKind) {
    Driver(s, sid, t, kind) && forall u, k :: Driver(s, sid, u, k) ==> u == t && k == kind
  }

  ghost predicate ExactlyOneDriver(s: Session, sid: StateExecutionId, kind: WorkerKind) {
    exists t :: OnlyDriver(s, sid, t, kind)
  }

  /**
   While a process runs, each state whose row runs an API has exactly one driver, of that API; no
   other state has any, and a task left in the table after its transaction is a failed state's.
   */
  lemma DrivenExactlyOnce(states: seq<Session>, steps: seq<Step>, n: nat)
    requires IsRun(states, steps) && n <= |steps| && states[n].e.process.status.Running?
    ensures var s := states[n];
      && (forall sid, kind :: sid in s.e.states && s.e.states[sid].status == StatusOf(kind)
                              ==> ExactlyOneDriver(s, sid, kind))
      && (forall sid, t, kind :: Driver(s, sid, t, kind)
                                 ==> sid in s.e.states && s.e.states[sid].status == StatusOf(kind))
      && (forall t :: t in s.settled && t in s.e.immediate && s.e.immediate[t].WorkerTask?
                      ==> s.e.immediate[t].sid in s.e.states && s.e.states[s.e.immediate[t].sid].status.StateFailed?)
  {
    AlwaysInv(states, steps, n);
    var s := states[n];
    assert DrivenOnce(s.e, s.settled) && SettledFailed(s.e, s.settled, None);
    forall sid, kind | sid in s.e.states && s.e.states[sid].status == StatusOf(kind)
      ensures ExactlyOneDriver(s, sid, kind)
    {
      OneDriver(s, sid, kind);
    }
  }

  lemma OneDriver(s: Session, sid: StateExecutionId, kind: WorkerKind)
    requires DrivenOnce(s.e, s.settled) && s.e.process.status.Running?
    requires sid in s.e.states && s.e.states[sid].status == StatusOf(kind)
    ensures ExactlyOneDriver(s, sid, kind)
  {
    assert Driven(s.e, s.settled, sid, kind);
    var t :| Drives(s.e, s.settled, sid, t, kind);
    forall u, k | Driver(s, sid, u, k) ensures u == t && k == kind {
    }
    assert OnlyDriver(s, sid, t, kind);
  }

  // ---------- waiting states ----------

  ghost predicate OneTimer(e: Execution, sid: StateExecutionId, i: int) {
    exists t :: Resolves(e, sid, i, t) && forall u :: Resolves(e, sid, i, u) ==> u == t
  }

  /** Something in the tables or the queues will still give the waiting state a result. */
  ghost predicate CanBeWoken(e: Execution, sid: StateExecutionId) {
    || (exists i, t :: Resolves(e, sid, i, t))
    || (exists i :: Registered(e.process.queues, sid, i))
  }

  /**
   Row and queues agree while a process runs: registered states wait; for a waiting state, each timer
   command has its result or else exactly one timer, each queue command has its result or else is
   registered, and no result belongs to neither.
   */
  lemma WaitingRowsAgree(states: seq<Session>, steps: seq<Step>, n: nat, sid: StateExecutionId)
    requires IsRun(states, steps) && n <= |steps| && states[n].e.process.status.Running?
    ensures var e := states[n].e;
      && (sid in e.process.queues.commands ==> sid in e.states && e.states[sid].status.WaitUntilWaiting?)
      && (sid in e.states && e.states[sid].status.WaitUntilWaiting? ==>
            var row := e.states[sid];
            && WithinRequest(row.request, row.results)
            && (forall i :: 0 <= i < |row.request.timerDelays| ==> (i in row.results.timers <==> !OneTimer(e, sid, i)))
            && (forall i, t :: Resolves(e, sid, i, t) ==> 0 <= i < |row.request.timerDelays|)
            && (forall i :: Registered(e.process.queues, sid, i) <==>
                              0 <= i < |row.request.queueCommands| && i !in row.results.queues))
  {
    AlwaysInv(states, steps, n);
    var e := states[n].e;
    assert Waits(e);
    if sid in e.states && e.states[sid].status.WaitUntilWaiting? {
      assert WaitsForTheRest(e, sid);
      forall i | 0 <= i < |e.states[sid].request.timerDelays| && i !in e.states[sid].results.timers
        ensures OneTimer(e, sid, i)
      {
        assert Timed(e, sid, i);
        var t :| Resolves(e, sid, i, t);
        assert forall u :: Resolves(e, sid, i, u) ==> u == t;
      }
    }
  }

  /** A waiting state that asked for something does not have it yet; a state that stopped waiting has it. */
  lemma WaitsExactlyAsLongAsNeeded(states: seq<Session>, steps: seq<Step>, n: nat, sid: StateExecutionId)
    requires IsRun(states, steps) && n <= |steps| && states[n].e.process.status.Running?
    requires sid in states[n].e.states
    ensures var row := states[n].e.states[sid];
      && (row.status.WaitUntilWaiting? && AsksForSomething(row.request) ==>
            && (row.request.waitingType.AllOfCompletion? ==> !HasEverything(row.request, row.results))
            && (row.request.waitingType.AnyOfCompletion? ==> row.results == NO_RESULTS))
      && (!row.status.WaitUntilWaiting? && !row.status.StateAborted? ==> Completed(row.request, row.results))
  {
    AlwaysInv(states, steps, n);
    var e, row := states[n].e, states[n].e.states[sid];
    assert Waits(e) && RowEarned(row);
    if row.status.WaitUntilWaiting? {
      WaitingRowsAgree(states, steps, n, sid);
      CompletedIsExact(row.request, row.results);
      if AsksForSomething(row.request) && row.request.waitingType.AnyOfCompletion? {
        assert |row.results.queues| == 0 && |row.results.timers| == 0;
      }
    }
  }

  /** A waiting state is orphaned exactly when its request asks for nothing at all. */
  lemma OrphanedIffAsksForNothing(states: seq<Session>, steps: seq<Step>, n: nat, sid: StateExecutionId)
    requires IsRun(states, steps) && n <= |steps| && states[n].e.process.status.Running?
    requires sid in states[n].e.states && states[n].e.states[sid].status.WaitUntilWaiting?
    ensures CanBeWoken(states[n].e, sid) <==> AsksForSomething(states[n].e.states[sid].request)
  {
    WaitingRowsAgree(states, steps, n, sid);
    WaitsExactlyAsLongAsNeeded(states, steps, n, sid);
    var e, row := states[n].e, states[n].e.states[sid];
    if AsksForSomething(row.request) {
      SomethingMissing(states, steps, n, sid);
    }
  }

  lemma SomethingMissing(states: seq<Session>, steps: seq<Step>, n: nat, sid: StateExecutionId)
    requires IsRun(states, steps) && n <= |steps| && states[n].e.process.status.Running?
    requires sid in states[n].e.states && states[n].e.states[sid].status.WaitUntilWaiting?
    requires AsksForSomething(states[n].e.states[sid].request)
    ensures CanBeWoken(states[n].e, sid)
  {
    WaitingRowsAgree(states, steps, n, sid);
    WaitsExactlyAsLongAsNeeded(states, steps, n, sid);
    AlwaysInv(states, steps, n);
    var e, row := states[n].e, states[n].e.states[sid];
    assert WaitsForTheRest(e, sid);
    var timer :=
      if row.request.waitingType.AnyOfCompletion? then |row.request.timerDelays| > 0
      else exists i :: 0 <= i < |row.request.timerDelays| && i !in row.results.timers;
    if timer {
      var i :| 0 <= i < |row.request.timerDelays| && i !in row.results.timers;
      assert Timed(e, sid, i);
    } else {
      var i :| 0 <= i < |row.request.queueCommands| && i !in row.results.queues;
      assert Registered(e.process.queues, sid, i);
    }
  }

  // ---------- pending states ----------

  /**
   The rows of a state id are numbered 1 to its counter; while the process runs the pending map lists
   exactly the active ones, and a process asked to complete gracefully still has one.
   */
  lemma PendingIsActive(states: seq<Session>, steps: seq<Step>, n: nat)
    requires IsRun(states, steps) && n <= |steps|
    ensures var e := states[n].e; var maps := e.process.sequenceMaps;
      && (forall sid :: sid in e.states <==> 1 <= sid.sequence <= LastSequence(maps, sid.stateId))
      && (NonePending(maps) <==> forall sid :: !IsPending(maps, sid))
      && (e.process.status.Running? ==>
            && (forall sid :: IsPending(maps, sid) <==> sid in e.states && IsActive(e.states[sid].status))
            && (e.process.gracefulCompleteRequested ==>
                  exists sid :: sid in e.states && IsActive(e.states[sid].status)))
  {
    AlwaysInv(states, steps, n);
    var e := states[n].e;
    assert Shape(e) && PendingMatches(e) && GracefulHasPending(e);
    NonePendingIsExact(e.process.sequenceMaps);
  }

  // ---------- messages ----------

  /**
   Running or closed: every message ever accepted is in exactly one position of one queue task, one
   queue's unconsumed list or one command's result, and stays on the queue it was published to; and no
   registered command could be satisfied by what is waiting on its queue.
   */
  lemma MessagesConserved(states: seq<Session>, steps: seq<Step>, n: nat, m: nat)
    requires IsRun(states, steps) && n <= m <= |steps|
    ensures ExactlyOnce(LedgerOf(states[m].e), states[m].e.messages.Keys)
    ensures Faithful(states[m].e) && LocalQueueTheorems.NoLostWakeUp(states[m].e.process.queues)
    ensures forall id :: id in states[n].e.messages ==>
              id in states[m].e.messages && states[m].e.messages[id] == states[n].e.messages[id]
  {
    AlwaysInv(states, steps, m);
    EvolvesAlong(states, steps, n, m);
    assert MessagesOnce(states[m].e) && RegisteredMatch(states[m].e);
  }

  /** The batch is what the command asks for: as many messages, a count of 0 read as 1, all of its own queue. */
  ghost predicate IsWhatWasAskedFor(e: Execution, asked: Command, batch: seq<MessageResult>) {
    && |batch| == (if asked.count == 0 then 1 else asked.count)
    && (forall n :: 0 <= n < |batch| ==>
          && batch[n].dedupId in e.messages
          && e.messages[batch[n].dedupId] == MessageRow(asked.queue, batch[n].payload))
  }

  /** Results and registered commands are what the request asked for, at every point of every run. */
  lemma ResultsAreWhatWasAskedFor(
    states: seq<Session>, steps: seq<Step>, n: nat, sid: StateExecutionId, i: int)
    requires IsRun(states, steps) && n <= |steps|
    ensures var e := states[n].e;
      && (sid in e.states && i in e.states[sid].results.queues ==>
            && 0 <= i < |e.states[sid].request.queueCommands|
            && IsWhatWasAskedFor(e, e.states[sid].request.queueCommands[i], e.states[sid].results.queues[i]))
      && (Registered(e.process.queues, sid, i) ==>
            && sid in e.states && 0 <= i < |e.states[sid].request.queueCommands|
            && var asked := e.states[sid].request.queueCommands[i];
            e.process.queues.commands[sid][i] == Command(asked.queue, if asked.count == 0 then 1 else asked.count))
  {
    AlwaysInv(states, steps, n);
    var e := states[n].e;
    assert Faithful(e) && RegisteredMatch(e);
    hide Inv;
    if sid in e.states && i in e.states[sid].results.queues {
      assert ResultFaithful(e, sid, i);
    }
  }

  // ---------- fencing ----------

  /** The step's transaction checks the row's version against a prepared read. */
  predicate Fenced(step: Step) {
    step.CompleteExecute? || step.Recover? || step.Backoff?
    || (step.WaitUntil? && step.request.waitingType.EmptyCommand?)
  }

  /** The step's transaction is for a worker task that was prepared. */
  predicate ForTask(step: Step) {
    step.CompleteExecute? || step.Recover? || step.Backoff? || step.WaitUntil?
  }

  lemma TaskCommitMovesOn(s: Session, step: Step)
    requires SessionInv(s) && Enabled(s, step) && ForTask(step)
    ensures step.p.sid in s.e.states
    ensures Commits(s, step) ==> Moved(s.e, Effect(s, step).value, step.p.sid) && step.p.task in Next(s, step).settled
    ensures Commits(s, step) && Fenced(step) ==> s.e.states[step.p.sid].version == step.p.version
  {
    hide Inv;
    match step
    case CompleteExecute(p, d, publish) => CompleteExecuteStep(s, p, d, publish);
    case Recover(p, failure, destination) => RecoverStep(s, p, failure, destination);
    case Backoff(p, failure, fireTime) => BackoffStep(s, p, failure, fireTime);
    case WaitUntil(p, request, order, now, publish) => WaitUntilStep(s, p, request, order, now, publish);
  }

  /** None of the four fenced transactions takes this version of the row. */
  ghost predicate Refused(e: Execution, sid: StateExecutionId, version: int) {
    && (forall task, d, publish :: CompleteExecuteTx(e, task, sid, version, d, publish).None?)
    && (forall failure, destination :: RecoverTx(e, sid, version, failure, destination).None?)
    && (forall task, kind, status, failure, fireTime ::
          BackoffTx(e, task, sid, kind, status, version, failure, fireTime).None?)
    && CompleteWaitUntil(e, sid, version).None?
  }

  lemma OlderIsRefused(e: Execution, sid: StateExecutionId, version: int)
    requires sid in e.states && version < e.states[sid].version
    ensures Refused(e, sid, version)
  {
  }

  /**
   Once a fenced transaction has committed at a version of a row, all four refuse that version for ever,
   for any task and whoever asks with that read.
   */
  lemma CommittedVersionIsSpent(states: seq<Session>, steps: seq<Step>, i: nat, j: nat)
    requires IsRun(states, steps) && i < j <= |steps|
    requires Fenced(steps[i]) && Commits(states[i], steps[i])
    ensures Refused(states[j].e, steps[i].p.sid, steps[i].p.version)
  {
    hide Inv, Refused;
    AlwaysInv(states, steps, i);
    TaskCommitMovesOn(states[i], steps[i]);
    EvolvesAlong(states, steps, i + 1, j);
    var sid := steps[i].p.sid;
    assert RowEvolves(states[i + 1].e.states[sid], states[j].e.states[sid]);
    OlderIsRefused(states[j].e, sid, steps[i].p.version);
  }

  /** Of all the fenced steps prepared at one version of one row, at most one ever commits. */
  lemma AtMostOneCommits(states: seq<Session>, steps: seq<Step>, i: nat, j: nat)
    requires IsRun(states, steps) && i < j < |steps|
    requires Fenced(steps[i]) && Fenced(steps[j])
    requires steps[i].p.sid == steps[j].p.sid && steps[i].p.version == steps[j].p.version
    requires Commits(states[i], steps[i])
    ensures !Commits(states[j], steps[j])
  {
    CommittedVersionIsSpent(states, steps, i, j);
  }

  lemma {:induction false} SettledStays(states: seq<Session>, steps: seq<Step>, i: nat, j: nat)
    requires IsRun(states, steps) && i <= j <= |steps|
    ensures states[i].settled <= states[j].settled
    decreases j
  {
    if i < j {
      SettledStays(states, steps, i, j - 1);
    }
  }

  /**
   With the reads that were made while the task was in the table, a task whose transaction committed, fenced or
   not, never commits a fenced one.  A read made after that is another matter, which `Redeliveries` takes up.
   */
  lemma EachTaskCommitsOnce(states: seq<Session>, steps: seq<Step>, i: nat, j: nat)
    requires IsRun(states, steps) && i < j < |steps|
    requires ForTask(steps[i]) && Commits(states[i], steps[i])
    requires Fenced(steps[j]) && steps[j].p.task == steps[i].p.task
    ensures !Commits(states[j], steps[j])
  {
    hide Inv, Effect;
    AlwaysInv(states, steps, i);
    TaskCommitMovesOn(states[i], steps[i]);
    SettledStays(states, steps, i + 1, j);
    AlwaysInv(states, steps, j);
    TaskCommitMovesOn(states[j], steps[j]);
    SettledIsSpent(states[j], steps[j]);
  }

  /** A fenced step for a settled task has a spent read, which matches no version. */
  lemma SettledIsSpent(s: Session, step: Step)
    requires SessionInv(s) && Enabled(s, step) && Fenced(step) && step.p.task in s.settled
    ensures step.p.sid in s.e.states && s.e.states[step.p.sid].version != step.p.version
  {
    hide Inv;
    assert PreparedRead(s.e, s.settled, step.p);
  }

  /** A prepared read whose version still matches has the row's current status. */
  lemma PreparedStaysTrue(states: seq<Session>, steps: seq<Step>, n: nat, p: Prepared)
    requires IsRun(states, steps) && n <= |steps| && p in states[n].preps
    ensures p.sid in states[n].e.states && p.version <= states[n].e.states[p.sid].version
    ensures p.version == states[n].e.states[p.sid].version ==> p.status == states[n].e.states[p.sid].status
  {
    AlwaysInv(states, steps, n);
    assert PreparedRead(states[n].e, states[n].settled, p);
  }
}
