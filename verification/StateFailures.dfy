/** Whom a failed state stops: the program goes by process id, not by the state's own execution. */
module StateFailures {
  import opened Wrappers
  import opened ProcessModel
  import opened Transactions
  import opened Sessions
  import opened StaleWaits
  import opened Stores
  import opened StoreTheorems

  ghost predicate Stopped(sys: System, sys': System, id: ExecutionId) {
    RunningIn(sys, id) && !RunningIn(sys', id)
  }

  /**
   A state's failure stops an execution exactly when that is the latest of the process id and runs; so it
   stops its own exactly when that is still the latest, and else its successor.
   */
  lemma FailureStopsTheLatest(systems: seq<System>, events: seq<Event>, n: nat, other: ExecutionId)
    requires IsHistory(systems, events) && n < |events| && events[n].FailState?
    ensures var sys, sys', id := systems[n], systems[n + 1], events[n].id;
      && id in sys.store.owner && sys.store.owner[id] in sys.store.latest
      && var latest := sys.store.latest[sys.store.owner[id]];
      && (Stopped(sys, sys', other) <==> other == latest && RunningIn(sys, latest))
      && (Stopped(sys, sys', other) ==>
            other in sys'.store.executions && sys'.store.executions[other].process.status.ProcessFailed?)
      && (other in sys.store.executions && other != latest ==>
            other in sys'.store.executions && sys'.store.executions[other] == sys.store.executions[other])
      && (RunningIn(sys, id) ==> id == latest)
  {
    HistoryKeeps(systems, events, n);
    hide AllReachable, CalledAny, AbortRunning;
  }

  // ---------- a state of an old execution that stops its successor ----------

  const KEY := ProcessKey("namespace", "process")
  const FIRST := StartRequest(KEY, TerminateRunning, Some(NextState("a", false)), None)
  const OLD: ExecutionId := "old"
  const NEW: ExecutionId := "new"

  const BOTH := [StartProcess(FIRST, OLD), Act(OLD, Prepare(0)), StartProcess(FIRST, NEW), FailState(OLD, READ0)]

  function OldStarted(): System {
    System(Store(map[KEY := OLD], map[OLD := KEY], map[OLD := E0], 2), map[OLD := {}], map[OLD := {}])
  }

  function OldPrepared(): System {
    System(Store(map[KEY := OLD], map[OLD := KEY], map[OLD := E0], 2), map[OLD := {}], map[OLD := {READ0}])
  }

  function NewStarted(): System {
    var e := StartExecution(3, FIRST.start, None);
    System(Store(map[KEY := NEW], map[OLD := KEY, NEW := KEY], map[OLD := E1, NEW := e], e.next),
           map[OLD := {}, NEW := {}], map[OLD := {READ0}, NEW := {}])
  }

  lemma OldStarts()
    ensures Happens(NO_PROCESSES, BOTH[0]) && After(NO_PROCESSES, BOTH[0]) == OldStarted()
  {
    TerminatedStarts();
    hide StartExecution;
  }

  lemma OldPrepares()
    ensures Happens(OldStarted(), BOTH[1]) && After(OldStarted(), BOTH[1]) == OldPrepared()
  {
    assert E0.(next := 2) == E0;
    TerminatedBegins();
    assert Locked(OldStarted(), OLD) == S0;
    hide Enabled, Next;
  }

  lemma NewStarts()
    ensures Happens(OldPrepared(), BOTH[2]) && After(OldPrepared(), BOTH[2]) == NewStarted()
  {
    hide StartExecution, TerminateTx;
    TerminatedStops();
    assert Select(OldPrepared().store, OLD) == E0;
  }

  /** The worker of the terminated execution still holds its read; its failure closes the new execution as failed. */
  lemma OldStateFailsSuccessor() returns (systems: seq<System>, events: seq<Event>)
    ensures IsHistory(systems, events) && |events| == 4
    ensures events[3].FailState? && events[3].id == OLD
    ensures RunningIn(systems[3], NEW) && NEW in systems[4].store.executions
    ensures systems[4].store.executions[NEW].process.status.ProcessFailed?
  {
    OldStarts();
    OldPrepares();
    NewStarts();
    NewRuns();
    hide After, Happens, StartExecution;
    events := BOTH;
    systems := [NO_PROCESSES, OldStarted(), OldPrepared(), NewStarted(), After(NewStarted(), BOTH[3])];
    assert IsHistory(systems, events);
    FailureStopsTheLatest(systems, events, 3, NEW);
  }

  lemma NewRuns()
    ensures RunningIn(NewStarted(), NEW) && Happens(NewStarted(), BOTH[3])
  {
  }
}
