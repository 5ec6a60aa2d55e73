/** Runs of the whole store: every execution goes through a run of its own, and at most one per process id runs. */
module StoreTheorems {
  import opened Wrappers
  import opened ProcessModel
  import opened Transactions
  import opened Evolution
  import opened StepLemmas
  import opened Sessions
  import opened SessionLemmas
  import opened RunTheorems
  import opened Stores

  /** The store, and what the engine's workers hold in memory for each execution. */
  datatype System = System(
    store: Store,
    settled: map<ExecutionId, set<int>>,
    preps: map<ExecutionId, set<Prepared>>)

  /** `FailState`: a state's API failed, its policy is to fail the process, and that stops by process id. */
  datatype Event =
    | StartProcess(request: StartRequest, id: ExecutionId)
    | StopProcess(key: ProcessKey, stopStatus: ProcessStatus)
    | FailState(id: ExecutionId, p: Prepared)
    | PublishToProcess(key: ProcessKey, ms: seq<PublishedMessage>)
    | TimeOut(id: ExecutionId, timer: int)
    | Act(id: ExecutionId, step: Step)

  predicate Known(sys: System, id: ExecutionId) {
    id in sys.store.executions && id in sys.settled && id in sys.preps
  }

  function SessionOf(sys: System, id: ExecutionId): Session
    requires Known(sys, id)
  {
    Session(sys.store.executions[id], sys.settled[id], sys.preps[id])
  }

  /** The session once it knows which keys went to other executions. */
  function Locked(sys: System, id: ExecutionId): Session
    requires Known(sys, id)
  {
    SessionOf(sys, id).(e := Select(sys.store, id))
  }

  /** The steps that go by execution, not by process id. */
  predicate GoesByExecution(step: Step) {
    !step.Stop? && !step.TerminateIfRunning? && !step.PublishMessages? && !step.FireTimeout? && !step.OthersTookKeys?
  }

  ghost predicate Happens(sys: System, event: Event) {
    match event
    case StartProcess(_, id) => id !in sys.store.executions
    case StopProcess(_, status) => !status.Running?
    case FailState(id, p) => Known(sys, id) && id in sys.store.owner && CalledAny(SessionOf(sys, id), p)
    case PublishToProcess(_, _) => true
    case TimeOut(id, t) =>
      && id in sys.store.executions && t in sys.store.executions[id].timers
      && sys.store.executions[id].timers[t].TimeoutTimer?
    case Act(id, step) => Known(sys, id) && GoesByExecution(step) && Enabled(Locked(sys, id), step)
  }

  function OrElse(s: Store, r: Option<Store>): Store {
    match r
    case None => s
    case Some(s') => s'
  }

  ghost function After(sys: System, event: Event): System
    requires Happens(sys, event)
  {
    var s := sys.store;
    match event
    case StartProcess(request, id) =>
      var (s', outcome) := StartProcessTx(s, request, id);
      if outcome.Started? then System(s', sys.settled[id := {}], sys.preps[id := {}]) else sys
    case StopProcess(key, status) => sys.(store := OrElse(s, StopProcessTx(s, key, status)))
    case FailState(id, _) => sys.(store := OrElse(s, StopProcessTx(s, s.owner[id], ProcessStatus.ProcessFailed)))
    case PublishToProcess(key, ms) => sys.(store := OrElse(s, PublishToProcessTx(s, key, ms)))
    case TimeOut(id, t) => sys.(store := OrElse(s, ProcessTimeoutTx(s, id, t)))
    case Act(id, step) =>
      var session := Next(Locked(sys, id), step);
      System(Write(s, id, session.e), sys.settled[id := session.settled], sys.preps[id := session.preps])
  }

  const NO_PROCESSES := System(Store(map[], map[], map[], 0), map[], map[])

  ghost predicate IsHistory(systems: seq<System>, events: seq<Event>) {
    && |systems| == |events| + 1
    && systems[0] == NO_PROCESSES
    && forall n :: 0 <= n < |events| ==>
         Happens(systems[n], events[n]) && systems[n + 1] == After(systems[n], events[n])
  }

  // ---------- the invariant ----------

  predicate RunningIn(sys: System, id: ExecutionId) {
    id in sys.store.executions && sys.store.executions[id].process.status.Running?
  }

  ghost predicate Tracked(sys: System) {
    && (forall id :: id in sys.store.executions <==> id in sys.settled)
    && (forall id :: id in sys.store.executions <==> id in sys.preps)
    && (forall id :: id in sys.store.executions <==> id in sys.store.owner)
    && (forall id :: id in sys.store.executions ==> sys.store.executions[id].next <= sys.store.next)
  }

  /** The latest table names an execution of each key there is, and the only one that may run. */
  ghost predicate LatestIsRight(sys: System) {
    && (forall key :: key in sys.store.latest ==>
          && sys.store.latest[key] in sys.store.executions && sys.store.latest[key] in sys.store.owner
          && sys.store.owner[sys.store.latest[key]] == key)
    && (forall id :: id in sys.store.owner ==> sys.store.owner[id] in sys.store.latest)
    && (forall id :: RunningIn(sys, id) && id in sys.store.owner ==> sys.store.latest[sys.store.owner[id]] == id)
  }

  ghost predicate AllReachable(sys: System) {
    forall id :: Known(sys, id) ==> Reachable(SessionOf(sys, id))
  }

  ghost predicate SystemInv(sys: System) {
    Tracked(sys) && LatestIsRight(sys) && AllReachable(sys)
  }

  // ---------- runs of one execution ----------

  lemma ReachableStarts(next: int, start: Option<NextState>, timeout: Option<int>)
    ensures Reachable(Start(next, start, timeout))
  {
    var states, steps := [Start(next, start, timeout)], [];
    assert IsRun(states, steps) && states[|steps|] == Start(next, start, timeout);
  }

  lemma ReachableGoesOn(s: Session, step: Step)
    requires Reachable(s) && Enabled(s, step)
    ensures Reachable(Next(s, step))
  {
    hide Enabled, Next;
    var states, steps :| IsRun(states, steps) && states[|steps|] == s;
    var states', steps' := states + [Next(s, step)], steps + [step];
    var next, start, timeout :| states[0] == Start(next, start, timeout);
    assert states'[0] == Start(next, start, timeout);
    forall n | 0 <= n < |steps'|
      ensures Enabled(states'[n], steps'[n]) && states'[n + 1] == Next(states'[n], steps'[n])
    {
      assert states'[n] == states[n];
      if n < |steps| {
        assert steps'[n] == steps[n] && states'[n + 1] == states[n + 1];
      }
    }
    assert IsRun(states', steps') && states'[|steps'|] == Next(s, step);
  }

  lemma ReachableHolds(s: Session)
    requires Reachable(s)
    ensures SessionInv(s)
  {
    var states, steps :| IsRun(states, steps) && states[|steps|] == s;
    AlwaysInv(states, steps, |steps|);
  }

  /** Two steps of a reachable session: taking keys, and one more. */
  lemma LockedGoesOn(sys: System, id: ExecutionId, step: Step)
    requires Tracked(sys) && AllReachable(sys) && Known(sys, id) && Enabled(Locked(sys, id), step)
    ensures Reachable(Locked(sys, id)) && Reachable(Next(Locked(sys, id), step))
    ensures Evolves(Select(sys.store, id), Next(Locked(sys, id), step).e)
    ensures sys.store.next <= Next(Locked(sys, id), step).e.next
  {
    var s := SessionOf(sys, id);
    assert Next(s, OthersTookKeys(sys.store.next)) == Locked(sys, id) by {
      assert s.settled + {} == s.settled && s.preps + {} == s.preps;
    }
    ReachableGoesOn(s, OthersTookKeys(sys.store.next));
    ReachableGoesOn(Locked(sys, id), step);
    ReachableHolds(Locked(sys, id));
    StepKeeps(Locked(sys, id), step);
  }

  // ---------- each event keeps the invariant ----------

  /** One execution's session is now `s'`; nothing else changed. */
  ghost predicate Replaced(sys: System, sys': System, id: ExecutionId, s': Session) {
    && Known(sys, id)
    && sys'.store == Write(sys.store, id, s'.e)
    && sys'.settled == sys.settled[id := s'.settled] && sys'.preps == sys.preps[id := s'.preps]
  }

  /** One execution took a step. */
  ghost predicate Stepped(sys: System, sys': System, id: ExecutionId, step: Step) {
    Known(sys, id) && Enabled(Locked(sys, id), step) && Replaced(sys, sys', id, Next(Locked(sys, id), step))
  }

  lemma ReplacedKeeps(sys: System, sys': System, id: ExecutionId, s': Session)
    requires Tracked(sys) && LatestIsRight(sys) && Replaced(sys, sys', id, s')
    requires sys.store.next <= s'.e.next && (s'.e.process.status.Running? ==> RunningIn(sys, id))
    ensures Tracked(sys') && LatestIsRight(sys')
    ensures RunningIn(sys', id) ==> RunningIn(sys, id)
  {
    assert forall other :: RunningIn(sys', other) ==> RunningIn(sys, other);
  }

  lemma ReplacedReachable(sys: System, sys': System, id: ExecutionId, s': Session)
    requires AllReachable(sys) && Replaced(sys, sys', id, s') && Reachable(s')
    ensures AllReachable(sys')
  {
    hide Reachable;
    forall other | Known(sys', other) ensures Reachable(SessionOf(sys', other)) {
      assert other == id || (Known(sys, other) && SessionOf(sys', other) == SessionOf(sys, other));
    }
  }

  lemma SteppedKeeps(sys: System, sys': System, id: ExecutionId, step: Step)
    requires SystemInv(sys) && Stepped(sys, sys', id, step)
    ensures SystemInv(sys')
    ensures RunningIn(sys', id) ==> RunningIn(sys, id)
  {
    LockedGoesOn(sys, id, step);
    hide Enabled, Next, Reachable, Replaced, LatestIsRight, AllReachable;
    ReplacedKeeps(sys, sys', id, Next(Locked(sys, id), step));
    ReplacedReachable(sys, sys', id, Next(Locked(sys, id), step));
  }

  /** Writing an execution's own rows is a step that settles and prepares nothing. */
  lemma WritingIsAStep(sys: System, id: ExecutionId, step: Step)
    requires Known(sys, id) && Enabled(Locked(sys, id), step) && Commits(Locked(sys, id), step)
    requires Settles(step) == {} && !step.Prepare?
    ensures Stepped(sys, sys.(store := Write(sys.store, id, Effect(Locked(sys, id), step).value)), id, step)
  {
    hide Enabled, Effect;
    assert sys.settled[id] + {} == sys.settled[id] && sys.preps[id] + {} == sys.preps[id];
    assert sys.settled[id := sys.settled[id]] == sys.settled && sys.preps[id := sys.preps[id]] == sys.preps;
  }

  function Added(sys: System, request: StartRequest, id: ExecutionId): System {
    System(InsertNew(sys.store, request, id), sys.settled[id := {}], sys.preps[id := {}])
  }

  /** The rows `e` are those of a new execution, the latest one of the key. */
  ghost predicate IsAdded(sys: System, sys': System, key: ProcessKey, id: ExecutionId, e: Execution) {
    && sys'.store
    == Store(sys.store.latest[key := id], sys.store.owner[id := key], sys.store.executions[id := e], e.next)
    && sys'.settled == sys.settled[id := {}] && sys'.preps == sys.preps[id := {}]
  }

  lemma AddedIsTracked(sys: System, sys': System, key: ProcessKey, id: ExecutionId, e: Execution)
    requires IsAdded(sys, sys', key, id, e) && Tracked(sys) && sys.store.next <= e.next
    ensures Tracked(sys')
  {
  }

  lemma AddedIsLatest(sys: System, sys': System, key: ProcessKey, id: ExecutionId, e: Execution)
    requires IsAdded(sys, sys', key, id, e) && Tracked(sys) && LatestIsRight(sys) && id !in sys.store.executions
    requires key in sys.store.latest ==> !RunningIn(sys, sys.store.latest[key])
    ensures LatestIsRight(sys')
  {
    forall other | RunningIn(sys', other) && other in sys'.store.owner
      ensures sys'.store.latest[sys'.store.owner[other]] == other
    {
      assert other != id ==> RunningIn(sys, other) && other in sys.store.owner;
    }
  }

  lemma AddedIsReachable(sys: System, request: StartRequest, id: ExecutionId)
    requires AllReachable(sys)
    ensures AllReachable(Added(sys, request, id))
  {
    ReachableStarts(sys.store.next, request.start, request.timeout);
    hide StartExecution, Reachable;
    var sys' := Added(sys, request, id);
    forall other | Known(sys', other) ensures Reachable(SessionOf(sys', other)) {
      if other != id {
        assert Known(sys, other) && SessionOf(sys', other) == SessionOf(sys, other);
      } else {
        assert SessionOf(sys', id) == Start(sys.store.next, request.start, request.timeout);
      }
    }
  }

  lemma NewExecutionKeeps(sys: System, request: StartRequest, id: ExecutionId)
    requires SystemInv(sys) && id !in sys.store.executions
    requires request.key in sys.store.latest ==> !RunningIn(sys, sys.store.latest[request.key])
    ensures SystemInv(Added(sys, request, id))
  {
    StartExecutionHolds(sys.store.next, request.start, request.timeout);
    var e := StartExecution(sys.store.next, request.start, request.timeout);
    assert IsAdded(sys, Added(sys, request, id), request.key, id, e);
    hide Added, Tracked, LatestIsRight, AllReachable, StartExecution, IsAdded;
    AddedIsTracked(sys, Added(sys, request, id), request.key, id, e);
    AddedIsLatest(sys, Added(sys, request, id), request.key, id, e);
    AddedIsReachable(sys, request, id);
  }

  function Terminated(sys: System, id: ExecutionId): System
    requires Known(sys, id)
  {
    sys.(store := Write(sys.store, id, TerminateTx(Select(sys.store, id))))
  }

  lemma TerminatedKeeps(sys: System, id: ExecutionId)
    requires SystemInv(sys) && Known(sys, id)
    ensures SystemInv(Terminated(sys, id)) && !RunningIn(Terminated(sys, id), id)
  {
    assert Enabled(Locked(sys, id), TerminateIfRunning);
    WritingIsAStep(sys, id, TerminateIfRunning);
    hide SystemInv;
    SteppedKeeps(sys, Terminated(sys, id), id, TerminateIfRunning);
  }

  /** A start is refused, or adds an execution, or terminates the latest one and then adds. */
  lemma StartCases(sys: System, request: StartRequest, id: ExecutionId)
    requires Tracked(sys) && LatestIsRight(sys) && Happens(sys, StartProcess(request, id))
    ensures var sys', latest := After(sys, StartProcess(request, id)), sys.store.latest;
      if request.key !in latest then sys' == Added(sys, request, id)
      else if Refuses(request.policy, sys.store.executions[latest[request.key]].process.status) then sys' == sys
      else if request.policy.TerminateRunning? then
        sys' == Added(Terminated(sys, latest[request.key]), request, id)
      else sys' == Added(sys, request, id)
  {
    hide InsertNew, TerminateTx;
  }

  lemma StartProcessKeeps(sys: System, request: StartRequest, id: ExecutionId)
    requires SystemInv(sys) && Happens(sys, StartProcess(request, id))
    ensures SystemInv(After(sys, StartProcess(request, id)))
  {
    StartCases(sys, request, id);
    hide After, Added, Terminated, StartProcessTx, AllReachable;
    if request.key !in sys.store.latest {
      NewExecutionKeeps(sys, request, id);
    } else {
      var previous := sys.store.latest[request.key];
      if request.policy.TerminateRunning? {
        TerminatedKeeps(sys, previous);
        TerminatedKeepsKeys(sys, previous);
        NewExecutionKeeps(Terminated(sys, previous), request, id);
      } else if !Refuses(request.policy, sys.store.executions[previous].process.status) {
        NewExecutionKeeps(sys, request, id);
      }
    }
  }

  lemma TerminatedKeepsKeys(sys: System, id: ExecutionId)
    requires Known(sys, id)
    ensures var s, s' := sys.store, Terminated(sys, id).store;
      && s'.latest == s.latest && s'.owner == s.owner && s'.executions.Keys == s.executions.Keys
      && (forall other :: other in s.executions && other != id ==> s'.executions[other] == s.executions[other])
  {
    hide TerminateTx;
  }

  lemma StopProcessKeeps(sys: System, key: ProcessKey, status: ProcessStatus)
    requires SystemInv(sys) && !status.Running?
    ensures SystemInv(After(sys, StopProcess(key, status)))
  {
    if key in sys.store.latest {
      var id := sys.store.latest[key];
      WritingIsAStep(sys, id, Stop(status));
      SteppedKeeps(sys, After(sys, StopProcess(key, status)), id, Stop(status));
    }
  }

  lemma FailStateKeeps(sys: System, id: ExecutionId, p: Prepared)
    requires SystemInv(sys) && Happens(sys, FailState(id, p))
    ensures SystemInv(After(sys, FailState(id, p)))
  {
    hide SystemInv, StopProcessTx, CalledAny;
    StopProcessKeeps(sys, sys.store.owner[id], ProcessStatus.ProcessFailed);
  }

  lemma PublishKeeps(sys: System, key: ProcessKey, ms: seq<PublishedMessage>)
    requires SystemInv(sys)
    ensures SystemInv(After(sys, PublishToProcess(key, ms)))
  {
    if key in sys.store.latest {
      var id := sys.store.latest[key];
      WritingIsAStep(sys, id, PublishMessages(ms));
      SteppedKeeps(sys, After(sys, PublishToProcess(key, ms)), id, PublishMessages(ms));
    }
  }

  /**
   A timeout timer stops by process id, but what it stops is its own execution: the transaction is that
   execution's own timeout, whatever else the store holds.
   */
  lemma TimeoutIsItsOwn(sys: System, id: ExecutionId, timer: int)
    requires SystemInv(sys) && Happens(sys, TimeOut(id, timer))
    ensures ProcessTimeoutTx(sys.store, id, timer)
         == Some(Write(sys.store, id, TimeoutTx(Select(sys.store, id), timer)))
  {
    if sys.store.executions[id].process.status.Running? {
      assert RunningIn(sys, id);
      assert sys.store.latest[sys.store.owner[id]] == id;
      var stopped := StopTx(Select(sys.store, id), ProcessStatus.ProcessTimeout);
      var s1 := Write(sys.store, id, stopped);
      assert StopProcessTx(sys.store, sys.store.owner[id], ProcessStatus.ProcessTimeout) == Some(s1);
      assert Select(s1, id) == stopped;
      assert s1.executions[id := DeleteTimer(stopped, timer)]
          == sys.store.executions[id := DeleteTimer(stopped, timer)];
    }
  }

  lemma TimeoutKeeps(sys: System, id: ExecutionId, timer: int)
    requires SystemInv(sys) && Happens(sys, TimeOut(id, timer))
    ensures SystemInv(After(sys, TimeOut(id, timer)))
  {
    TimeoutIsItsOwn(sys, id, timer);
    WritingIsAStep(sys, id, FireTimeout(timer));
    SteppedKeeps(sys, After(sys, TimeOut(id, timer)), id, FireTimeout(timer));
  }

  lemma ActKeeps(sys: System, id: ExecutionId, step: Step)
    requires SystemInv(sys) && Happens(sys, Act(id, step))
    ensures SystemInv(After(sys, Act(id, step)))
  {
    SteppedKeeps(sys, After(sys, Act(id, step)), id, step);
  }

  lemma {:induction false} HistoryKeeps(systems: seq<System>, events: seq<Event>, n: nat)
    requires IsHistory(systems, events) && n <= |events|
    ensures SystemInv(systems[n])
  {
    if n > 0 {
      HistoryKeeps(systems, events, n - 1);
      var sys := systems[n - 1];
      hide SystemInv, After;
      match events[n - 1]
      case StartProcess(request, id) => StartProcessKeeps(sys, request, id);
      case StopProcess(key, status) => StopProcessKeeps(sys, key, status);
      case FailState(id, p) => FailStateKeeps(sys, id, p);
      case PublishToProcess(key, ms) => PublishKeeps(sys, key, ms);
      case TimeOut(id, timer) => TimeoutKeeps(sys, id, timer);
      case Act(id, step) => ActKeeps(sys, id, step);
    }
  }

  // ---------- the theorems ----------

  /** Whatever the interleaving, each execution's session is one that its own steps alone could reach. */
  lemma EveryExecutionRunsAlone(systems: seq<System>, events: seq<Event>, n: nat, id: ExecutionId)
    requires IsHistory(systems, events) && n <= |events| && id in systems[n].store.executions
    ensures Known(systems[n], id) && Reachable(SessionOf(systems[n], id))
  {
    HistoryKeeps(systems, events, n);
  }

  /** At most one execution of a process id runs, and it is the one in the latest table. */
  lemma AtMostOneRunning(systems: seq<System>, events: seq<Event>, n: nat, id: ExecutionId, other: ExecutionId)
    requires IsHistory(systems, events) && n <= |events|
    requires RunningIn(systems[n], id) && RunningIn(systems[n], other)
    ensures var s := systems[n].store;
      && id in s.owner && other in s.owner && s.owner[id] in s.latest && s.latest[s.owner[id]] == id
      && (s.owner[id] == s.owner[other] ==> id == other)
  {
    HistoryKeeps(systems, events, n);
    assert RunningIn(systems[n], id) && RunningIn(systems[n], other);
  }

  /** A timeout never touches another execution, and leaves its own timed out if it ran and as it ended if not. */
  lemma TimeoutClosesOnlyItsOwn(systems: seq<System>, events: seq<Event>, n: nat)
    requires IsHistory(systems, events) && n < |events| && events[n].TimeOut?
    ensures var s, s', id := systems[n].store, systems[n + 1].store, events[n].id;
      && (forall other :: other in s'.executions <==> other in s.executions)
      && (forall other :: other in s.executions && other != id ==> s'.executions[other] == s.executions[other])
      && !s'.executions[id].process.status.Running? && events[n].timer !in s'.executions[id].timers
      && (s.executions[id].process.status.Running? ==>
            s'.executions[id].process.status == ProcessStatus.ProcessTimeout)
      && (!s.executions[id].process.status.Running? ==> s'.executions[id].process == s.executions[id].process)
  {
    HistoryKeeps(systems, events, n);
    TimeoutClosesOwn(systems[n], events[n].id, events[n].timer);
    hide IsHistory, SystemInv, ProcessTimeoutTx;
  }

  lemma TimeoutClosesOwn(sys: System, id: ExecutionId, timer: int)
    requires SystemInv(sys) && Happens(sys, TimeOut(id, timer))
    ensures ProcessTimeoutTx(sys.store, id, timer).Some?
    ensures var s, s' := sys.store, ProcessTimeoutTx(sys.store, id, timer).value;
      && (forall other :: other in s'.executions <==> other in s.executions)
      && (forall other :: other in s.executions && other != id ==> s'.executions[other] == s.executions[other])
      && !s'.executions[id].process.status.Running? && timer !in s'.executions[id].timers
      && (s.executions[id].process.status.Running? ==>
            s'.executions[id].process.status == ProcessStatus.ProcessTimeout)
      && (!s.executions[id].process.status.Running? ==> s'.executions[id].process == s.executions[id].process)
  {
    hide SystemInv, ProcessTimeoutTx, TimeoutTx;
    TimeoutIsItsOwn(sys, id, timer);
    TimeoutEnds(Select(sys.store, id), timer);
  }

  lemma TimeoutEnds(e: Execution, timer: int)
    ensures timer !in TimeoutTx(e, timer).timers
    ensures if e.process.status.Running? then TimeoutTx(e, timer).process.status == ProcessStatus.ProcessTimeout
            else TimeoutTx(e, timer).process == e.process
  {
  }

  ghost predicate NeverStarted(s: Store, key: ProcessKey) {
    forall id :: id in s.owner ==> s.owner[id] != key
  }

  ghost predicate SomethingRuns(sys: System, key: ProcessKey) {
    exists id :: RunningIn(sys, id) && id in sys.store.owner && sys.store.owner[id] == key
  }

  ghost predicate LatestEndedAs(s: Store, key: ProcessKey, ended: ProcessStatus) {
    key in s.latest && s.latest[key] in s.executions && s.executions[s.latest[key]].process.status == ended
  }

  /** What each policy promises: when a new execution starts. */
  ghost predicate Permits(sys: System, request: StartRequest) {
    match request.policy
    case DisallowReuse => NeverStarted(sys.store, request.key)
    case AllowIfNoRunning => !SomethingRuns(sys, request.key)
    case AllowIfPreviousExitAbnormally =>
      !SomethingRuns(sys, request.key) && !LatestEndedAs(sys.store, request.key, ProcessCompleted)
    case TerminateRunning => true
  }

  lemma LatestDecides(sys: System, key: ProcessKey)
    requires SystemInv(sys)
    ensures NeverStarted(sys.store, key) <==> key !in sys.store.latest
    ensures SomethingRuns(sys, key) <==> key in sys.store.latest && RunningIn(sys, sys.store.latest[key])
  {
    if key in sys.store.latest {
      assert sys.store.latest[key] in sys.store.owner;
    }
  }

  /** The start succeeded exactly when its policy permits it, and then the new execution is the latest and runs. */
  ghost predicate Decided(sys: System, sys': System, request: StartRequest, id: ExecutionId) {
    && (id in sys'.store.executions <==> Permits(sys, request))
    && (id !in sys'.store.executions ==> sys' == sys)
    && (id in sys'.store.executions ==>
          RunningIn(sys', id) && request.key in sys'.store.latest && sys'.store.latest[request.key] == id)
  }

  /** An execution of another process id is the same; one of the same id does not run beside a new one. */
  ghost predicate OthersKept(sys: System, sys': System, request: StartRequest, id: ExecutionId, other: ExecutionId) {
    && other in sys.store.owner && other in sys'.store.executions
    && other in sys'.store.owner && sys'.store.owner[other] == sys.store.owner[other]
    && (sys.store.owner[other] != request.key && other in sys.store.executions ==>
          sys'.store.executions[other] == sys.store.executions[other])
    && (sys.store.owner[other] == request.key && id in sys'.store.executions ==> !RunningIn(sys', other))
  }

  /** What each id-reuse policy promises, and that no start loses or disturbs anything else. */
  lemma PoliciesDecide(systems: seq<System>, events: seq<Event>, n: nat, other: ExecutionId)
    requires IsHistory(systems, events) && n < |events| && events[n].StartProcess?
    ensures Decided(systems[n], systems[n + 1], events[n].request, events[n].id)
    ensures other in systems[n].store.executions ==>
              OthersKept(systems[n], systems[n + 1], events[n].request, events[n].id, other)
  {
    HistoryKeeps(systems, events, n);
    hide IsHistory;
    StartDecides(systems[n], events[n].request, events[n].id, other);
  }

  /** One start, from any state of the store that a history can reach. */
  lemma StartDecides(sys: System, request: StartRequest, id: ExecutionId, other: ExecutionId)
    requires SystemInv(sys) && Happens(sys, StartProcess(request, id))
    ensures var sys' := After(sys, StartProcess(request, id));
      Decided(sys, sys', request, id) && (other in sys.store.executions ==> OthersKept(sys, sys', request, id, other))
  {
    LatestDecides(sys, request.key);
    StartCases(sys, request, id);
    hide After, Added, Terminated, AllReachable, Decided, OthersKept;
    if request.key !in sys.store.latest {
      AddingDecides(sys, sys, request, id, other);
    } else {
      var previous := sys.store.latest[request.key];
      if Refuses(request.policy, sys.store.executions[previous].process.status) {
        RefusingDecides(sys, request, id, other);
      } else if request.policy.TerminateRunning? {
        TerminatedKeeps(sys, previous);
        TerminatedKeepsKeys(sys, previous);
        AddingDecides(sys, Terminated(sys, previous), request, id, other);
      } else {
        AddingDecides(sys, sys, request, id, other);
      }
    }
  }

  lemma RefusingDecides(sys: System, request: StartRequest, id: ExecutionId, other: ExecutionId)
    requires Tracked(sys) && LatestIsRight(sys) && id !in sys.store.executions && !Permits(sys, request)
    ensures Decided(sys, sys, request, id)
    ensures other in sys.store.executions ==> OthersKept(sys, sys, request, id, other)
  {
  }

  /** `sys1` is `sys`, or `sys` with the key's latest execution terminated. */
  ghost predicate NoLongerRuns(sys: System, sys1: System, key: ProcessKey) {
    && sys1.store.latest == sys.store.latest && sys1.store.owner == sys.store.owner
    && sys1.store.executions.Keys == sys.store.executions.Keys
    && (key !in sys.store.latest ==> sys1.store.executions == sys.store.executions)
    && (key in sys.store.latest ==>
          && !RunningIn(sys1, sys.store.latest[key])
          && forall o :: o in sys.store.executions && o != sys.store.latest[key]
               ==> sys1.store.executions[o] == sys.store.executions[o])
  }

  lemma AddingKeepsOthers(
    sys: System, sys1: System, sys': System, request: StartRequest, id: ExecutionId, e: Execution, other: ExecutionId)
    requires Tracked(sys) && LatestIsRight(sys) && id !in sys.store.executions && other in sys.store.executions
    requires NoLongerRuns(sys, sys1, request.key) && IsAdded(sys1, sys', request.key, id, e)
    ensures OthersKept(sys, sys', request, id, other)
  {
    if sys.store.owner[other] == request.key {
      assert RunningIn(sys, other) ==> sys.store.latest[request.key] == other;
    }
  }

  lemma AddingDecides(sys: System, sys1: System, request: StartRequest, id: ExecutionId, other: ExecutionId)
    requires Tracked(sys) && LatestIsRight(sys) && id !in sys.store.executions && Permits(sys, request)
    requires NoLongerRuns(sys, sys1, request.key)
    ensures Decided(sys, Added(sys1, request, id), request, id)
    ensures other in sys.store.executions ==> OthersKept(sys, Added(sys1, request, id), request, id, other)
  {
    StartExecutionHolds(sys1.store.next, request.start, request.timeout);
    hide StartExecution, Permits, Tracked, LatestIsRight, OthersKept;
    var e := StartExecution(sys1.store.next, request.start, request.timeout);
    assert IsAdded(sys1, Added(sys1, request, id), request.key, id, e);
    if other in sys.store.executions {
      AddingKeepsOthers(sys, sys1, Added(sys1, request, id), request, id, e, other);
    }
  }
}
