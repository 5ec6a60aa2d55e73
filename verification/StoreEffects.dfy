/** What the events that go by process id leave in the store, in plain terms. */
module StoreEffects {
  import opened Wrappers
  import opened StateExecutionIds
  import opened LocalQueues
  import opened SequenceMaps
  import opened ProcessModel
  import opened Transactions
  import opened Invariants
  import opened Sessions
  import opened ClosingTheorems
  import opened Stores
  import opened StoreTheorems
  import opened StartEffects
  import opened PublishEffects
  import opened StepEffects

  // ---------- a started execution ----------

  function FirstRows(start: Option<NextState>): map<StateExecutionId, StateRow> {
    match start
    case None => map[]
    case Some(s) => map[StateExecutionId(s.stateId, 1) := FreshRow(s.skipWaitUntil)]
  }

  /** The state's task, then the one that records the process as running. */
  function FirstTasks(next: int, start: Option<NextState>): map<int, ImmediateTask> {
    match start
    case None => map[next := VisibilityTask(Running)]
    case Some(s) =>
      map[next := DriverTask(s.skipWaitUntil, StateExecutionId(s.stateId, 1)), next + 1 := VisibilityTask(Running)]
  }

  function FirstTimers(key: int, timeout: Option<int>): map<int, TimerTask> {
    match timeout
    case None => map[]
    case Some(fireTime) => map[key := TimeoutTimer(fireTime)]
  }

  /** A running process with at most one state, one timeout timer if there is a timeout, and nothing else. */
  ghost predicate StartedWith(e: Execution, next: int, start: Option<NextState>, timeout: Option<int>) {
    var key := next + if start.Some? then 2 else 1;
    && e.process.status.Running? && !e.process.gracefulCompleteRequested
    && e.process.queues == Queues(map[], map[])
    && (forall id :: LastSequence(e.process.sequenceMaps, id) ==
                     if start.Some? && start.value.stateId == id then 1 else 0)
    && (forall sid :: IsPending(e.process.sequenceMaps, sid) <==> sid in FirstRows(start))
    && e.states == FirstRows(start) && e.messages == map[]
    && e.immediate == FirstTasks(next, start) && e.timers == FirstTimers(key, timeout)
    && e.next == key + if timeout.Some? then 1 else 0
  }

  lemma FirstStateStarts(next: int, s: NextState)
    ensures var empty := EMPTY_EXECUTION.(next := next);
      StartState(empty, s).Some? && OneStarted(empty, StartState(empty, s).value, s)
  {
    StartingOne(EMPTY_EXECUTION.(next := next), s);
  }

  lemma StartsWith(next: int, start: Option<NextState>, timeout: Option<int>)
    ensures StartedWith(StartExecution(next, start, timeout), next, start, timeout)
  {
    if start.Some? {
      FirstStateStarts(next, start.value);
      hide StartState;
    }
  }

  /** Every run begins with such an execution. */
  lemma RunsStartWith(states: seq<Session>, steps: seq<Step>)
    returns (next: int, start: Option<NextState>, timeout: Option<int>)
    requires IsRun(states, steps)
    ensures StartedWith(states[0].e, next, start, timeout) && states[0].settled == {} && states[0].preps == {}
  {
    next, start, timeout :| states[0] == Start(next, start, timeout);
    StartsWith(next, start, timeout);
  }

  // ---------- the events ----------

  /** The execution's rows are the same; only the next key the sequences hand out may differ. */
  predicate SameRows(e: Execution, e': Execution) {
    e' == e.(next := e'.next)
  }

  /** No execution but one changed, and neither did the latest table. */
  ghost predicate OnlyChanges(s: Store, s': Store, id: ExecutionId) {
    && s'.latest == s.latest && s'.owner == s.owner && s'.executions.Keys == s.executions.Keys
    && (forall other :: other in s.executions && other != id ==> s'.executions[other] == s.executions[other])
  }

  lemma WritingChangesOne(s: Store, id: ExecutionId, e: Execution)
    requires id in s.executions
    ensures var s' := Write(s, id, e); id in s'.executions && s'.executions[id] == e && OnlyChanges(s, s', id)
  {
  }

  lemma LockedRowsAreRight(sys: System, id: ExecutionId)
    requires SystemInv(sys) && id in sys.store.executions
    ensures PendingMatches(Select(sys.store, id)) && SequencesExact(Select(sys.store, id))
  {
    assert StoreTheorems.Known(sys, id);
    hide Inv, Reachable, LatestIsRight, PendingMatches, SequencesExact;
    ReachableHolds(SessionOf(sys, id));
    InvHasSequences(SessionOf(sys, id).e, SessionOf(sys, id).settled);
    NextDoesNotMatter(sys.store.executions[id], sys.store.next);
  }

  lemma NextDoesNotMatter(e: Execution, next: int)
    requires PendingMatches(e) && SequencesExact(e)
    ensures PendingMatches(e.(next := next)) && SequencesExact(e.(next := next))
  {
  }

  lemma LatestExists(sys: System, key: ProcessKey)
    requires SystemInv(sys) && key in sys.store.latest
    ensures sys.store.latest[key] in sys.store.executions
  {
  }

  /** A stop leaves the latest execution closed with exactly this status if it ran, and all rows as they are if not. */
  ghost predicate StoppedAs(s: Store, s': Store, key: ProcessKey, status: ProcessStatus) {
    if key !in s.latest then s' == s
    else
      var id := s.latest[key];
      && id in s.executions && id in s'.executions && OnlyChanges(s, s', id)
      && if s.executions[id].process.status.Running? then
           ClosedAs(Select(s, id), s'.executions[id], status, true) &&
           s'.executions[id].timers == s.executions[id].timers
         else SameRows(s.executions[id], s'.executions[id])
  }

  lemma StopStops(sys: System, key: ProcessKey, status: ProcessStatus)
    requires SystemInv(sys) && !status.Running?
    ensures StopProcessTx(sys.store, key, status).Some?
    ensures StoppedAs(sys.store, StopProcessTx(sys.store, key, status).value, key, status)
  {
    hide SystemInv, PendingMatches, SequencesExact, ClosedAs, OnlyChanges, StopTx, Write;
    if key in sys.store.latest {
      var id := sys.store.latest[key];
      LatestExists(sys, key);
      LockedRowsAreRight(sys, id);
      WritingChangesOne(sys.store, id, StopTx(Select(sys.store, id), status));
      if sys.store.executions[id].process.status.Running? {
        StopCloses(Select(sys.store, id), status);
      } else {
        StoppingClosedIsNothing(Select(sys.store, id), status);
      }
    }
  }

  lemma StoppingClosedIsNothing(e: Execution, status: ProcessStatus)
    requires !e.process.status.Running?
    ensures StopTx(e, status) == e
  {
  }

  /** A request to stop, or a failed state: the latest execution of the process id closes with exactly that status. */
  lemma StopsTakeEffect(systems: seq<System>, events: seq<Event>, n: nat)
    requires IsHistory(systems, events) && n < |events|
    ensures events[n].StopProcess? ==>
              StoppedAs(systems[n].store, systems[n + 1].store, events[n].key, events[n].stopStatus)
    ensures events[n].FailState? ==>
              && events[n].id in systems[n].store.owner
              && StoppedAs(systems[n].store, systems[n + 1].store, systems[n].store.owner[events[n].id],
                           ProcessStatus.ProcessFailed)
  {
    hide SystemInv, StopProcessTx, StoppedAs;
    HistoryKeeps(systems, events, n);
    var sys := systems[n];
    if events[n].StopProcess? {
      StopStops(sys, events[n].key, events[n].stopStatus);
    } else if events[n].FailState? {
      StopStops(sys, sys.store.owner[events[n].id], ProcessStatus.ProcessFailed);
    }
  }

  /** What an execution's own timeout leaves. */
  ghost predicate TimedOutAs(s: Store, s': Store, id: ExecutionId, timer: int) {
    && id in s.executions && id in s'.executions && OnlyChanges(s, s', id)
    && var e, e' := s.executions[id], s'.executions[id];
    && e'.timers == e.timers - {timer}
    && if e.process.status.Running? then ClosedAs(Select(s, id), e', ProcessStatus.ProcessTimeout, true)
       else SameRows(e.(timers := e'.timers), e')
  }

  lemma TimedOutCloses(e: Execution, timer: int)
    requires e.process.status.Running? ==> PendingMatches(e) && SequencesExact(e)
    ensures TimeoutTx(e, timer).timers == e.timers - {timer}
    ensures if e.process.status.Running? then ClosedAs(e, TimeoutTx(e, timer), ProcessStatus.ProcessTimeout, true)
            else TimeoutTx(e, timer) == e.(timers := e.timers - {timer})
  {
    if e.process.status.Running? {
      StopCloses(e, ProcessStatus.ProcessTimeout);
      hide StopTx, PendingMatches, SequencesExact;
    }
  }

  lemma TimeoutTimesOut(sys: System, id: ExecutionId, timer: int)
    requires SystemInv(sys) && Happens(sys, TimeOut(id, timer))
    ensures ProcessTimeoutTx(sys.store, id, timer).Some?
    ensures TimedOutAs(sys.store, ProcessTimeoutTx(sys.store, id, timer).value, id, timer)
  {
    hide SystemInv, PendingMatches, SequencesExact, ClosedAs, OnlyChanges, TimeoutTx, ProcessTimeoutTx, Write;
    LockedRowsAreRight(sys, id);
    TimeoutIsItsOwn(sys, id, timer);
    WritingChangesOne(sys.store, id, TimeoutTx(Select(sys.store, id), timer));
    TimedOutCloses(Select(sys.store, id), timer);
  }

  /** A timeout closes its own execution as timed out if it runs, and takes its timer away in any case. */
  lemma TimeoutsTakeEffect(systems: seq<System>, events: seq<Event>, n: nat)
    requires IsHistory(systems, events) && n < |events| && events[n].TimeOut?
    ensures TimedOutAs(systems[n].store, systems[n + 1].store, events[n].id, events[n].timer)
  {
    hide SystemInv, ProcessTimeoutTx, TimedOutAs;
    HistoryKeeps(systems, events, n);
    TimeoutTimesOut(systems[n], events[n].id, events[n].timer);
  }

  /** What publishing to a process id leaves: its latest execution accepts exactly if it runs. */
  ghost predicate PublishedTo(s: Store, s': Store, key: ProcessKey, ms: seq<PublishedMessage>) {
    if key !in s.latest then s' == s
    else
      var id := s.latest[key];
      && id in s.executions && id in s'.executions && OnlyChanges(s, s', id)
      && if s.executions[id].process.status.Running? then AllPublished(Select(s, id), s'.executions[id], ms)
         else SameRows(s.executions[id], s'.executions[id])
  }

  lemma PublishingPublishes(sys: System, key: ProcessKey, ms: seq<PublishedMessage>)
    requires SystemInv(sys)
    ensures PublishToProcessTx(sys.store, key, ms).Some?
    ensures PublishedTo(sys.store, PublishToProcessTx(sys.store, key, ms).value, key, ms)
  {
    hide SystemInv, AllPublished, OnlyChanges, Publish, Write;
    if key in sys.store.latest {
      var id := sys.store.latest[key];
      LatestExists(sys, key);
      WritingChangesOne(sys.store, id, PublishTx(Select(sys.store, id), ms));
      PublishingAll(Select(sys.store, id), ms);
    }
  }

  /** What is published to a process id is accepted by its latest execution exactly if that runs. */
  lemma PublishingToProcessTakesEffect(systems: seq<System>, events: seq<Event>, n: nat)
    requires IsHistory(systems, events) && n < |events| && events[n].PublishToProcess?
    ensures PublishedTo(systems[n].store, systems[n + 1].store, events[n].key, events[n].ms)
  {
    hide SystemInv, PublishToProcessTx, PublishedTo;
    HistoryKeeps(systems, events, n);
    PublishingPublishes(systems[n], events[n].key, events[n].ms);
  }

  // ---------- starting ----------

  /** The new execution, and what became of the latest one there was. */
  ghost predicate StartedAs(s: Store, s': Store, request: StartRequest, id: ExecutionId) {
    && id in s'.executions && s'.latest == s.latest[request.key := id] && s'.owner == s.owner[id := request.key]
    && (exists next :: s.next <= next && StartedWith(s'.executions[id], next, request.start, request.timeout))
    && (forall other :: other in s.executions && (request.key in s.latest ==> other != s.latest[request.key]) ==>
          other in s'.executions && s'.executions[other] == s.executions[other])
    && (request.key in s.latest && s.latest[request.key] in s.executions ==>
          && s.latest[request.key] in s'.executions
          && var e, e' := s.executions[s.latest[request.key]], s'.executions[s.latest[request.key]];
          if !request.policy.TerminateRunning? then e' == e
          else if e.process.status.Running? then
            ClosedAs(Select(s, s.latest[request.key]), e', ProcessStatus.ProcessTerminated, false)
          else RowsAborted(e, e') && SameRows(e.(states := e'.states), e'))
  }

  lemma AddingStarts(s: Store, s1: Store, request: StartRequest, id: ExecutionId)
    requires id !in s.executions && s.next <= s1.next && s1.latest == s.latest && s1.owner == s.owner
    requires s1.executions.Keys == s.executions.Keys
    ensures var s' := InsertNew(s1, request, id);
      && s'.latest == s.latest[request.key := id] && s'.owner == s.owner[id := request.key]
      && id in s'.executions
      && (exists next :: s.next <= next && StartedWith(s'.executions[id], next, request.start, request.timeout))
      && (forall other :: other in s.executions ==>
            other in s'.executions && s'.executions[other] == s1.executions[other])
  {
    StartsWith(s1.next, request.start, request.timeout);
    hide StartedWith, StartExecution;
  }

  lemma TerminatingLatest(e: Execution)
    ensures RowsAborted(e, TerminateTx(e)) && e.next <= TerminateTx(e).next
    ensures if e.process.status.Running? then ClosedAs(e, TerminateTx(e), ProcessStatus.ProcessTerminated, false)
            else TerminateTx(e) == e.(states := TerminateTx(e).states)
  {
  }

  lemma AddedAs(s: Store, request: StartRequest, id: ExecutionId)
    requires id !in s.executions
    requires request.key in s.latest ==> s.latest[request.key] in s.executions && !request.policy.TerminateRunning?
    ensures StartedAs(s, InsertNew(s, request, id), request, id)
  {
    AddingStarts(s, s, request, id);
    hide InsertNew, StartedWith, ClosedAs, RowsAborted;
  }

  lemma ReplacedAs(s: Store, request: StartRequest, id: ExecutionId)
    requires id !in s.executions && request.key in s.latest && s.latest[request.key] in s.executions
    requires request.policy.TerminateRunning?
    ensures var previous := s.latest[request.key];
      StartedAs(s, InsertNew(Write(s, previous, TerminateTx(Select(s, previous))), request, id), request, id)
  {
    var previous := s.latest[request.key];
    var e := TerminateTx(Select(s, previous));
    TerminatingLatest(Select(s, previous));
    WritingChangesOne(s, previous, e);
    AddingStarts(s, Write(s, previous, e), request, id);
    hide InsertNew, StartedWith, ClosedAs, RowsAborted, TerminateTx;
  }

  lemma StartStarts(sys: System, request: StartRequest, id: ExecutionId)
    requires SystemInv(sys) && Happens(sys, StartProcess(request, id))
    ensures var s' := StoreTheorems.After(sys, StartProcess(request, id)).store;
      id in s'.executions ==> StartedAs(sys.store, s', request, id)
  {
    StartCases(sys, request, id);
    hide InsertNew, StartedAs, SystemInv, StartProcessTx, StoreTheorems.After, Write, TerminateTx;
    var s := sys.store;
    if request.key in s.latest {
      LatestExists(sys, request.key);
    }
    if request.key in s.latest && request.policy.TerminateRunning? {
      ReplacedAs(s, request, id);
    } else {
      AddedAs(s, request, id);
    }
  }

  /**
   A start that its policy permits adds a running execution with the state, the tasks and the one timeout asked
   for; a latest execution that still ran ends as terminated under that policy, and nothing else changes.
   */
  lemma StartsTakeEffect(systems: seq<System>, events: seq<Event>, n: nat)
    requires IsHistory(systems, events) && n < |events| && events[n].StartProcess?
    ensures events[n].id in systems[n + 1].store.executions ==>
              StartedAs(systems[n].store, systems[n + 1].store, events[n].request, events[n].id)
  {
    hide SystemInv, StartProcessTx, StartedAs;
    HistoryKeeps(systems, events, n);
    StartStarts(systems[n], events[n].request, events[n].id);
  }
}
