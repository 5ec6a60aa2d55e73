/** Moving a state on, backing its task off and converting the timer back keep the invariants. */
module DrivingLemmas {
  import opened Wrappers
  import opened StateExecutionIds
  import opened ProcessModel
  import opened Transactions
  import opened Invariants
  import opened FrameLemmas
  import opened PublishingLemmas
  import opened ClosingLemmas

  /** The row moved to another version and the state has one new driver instead of task `t`. */
  ghost predicate Redriven(e: Execution, e': Execution, sid: StateExecutionId, kind: WorkerKind) {
    && sid in e.states && sid in e'.states
    && e'.states == e.states[sid := e'.states[sid]]
    && e'.states[sid].status == StatusOf(kind)
    && e'.states[sid].request == e.states[sid].request && e'.states[sid].results == e.states[sid].results
    && e'.process == e.process && e'.messages == e.messages
    && e'.next == e.next + 1
    && ((e'.immediate == e.immediate[e.next := WorkerTask(kind, sid)] && e'.timers == e.timers)
        || (e'.immediate == e.immediate && e.next in e'.timers && e'.timers[e.next].BackoffTimer?
            && e'.timers[e.next].sid == sid && e'.timers[e.next].kind == kind
            && e'.timers == e.timers[e.next := e'.timers[e.next]]))
  }

  lemma RedrivenDrives(
    e: Execution, e': Execution, sid: StateExecutionId, kind: WorkerKind, settled: set<int>, t: int, was: WorkerKind)
    requires Redriven(e, e', sid, kind) && Working(e, settled, t, sid, was) && Keyed(e) && e.next !in settled
    ensures forall s, u, k :: Drives(e', settled + {t}, s, u, k) <==>
              (Drives(e, settled, s, u, k) && u != t) || (s == sid && u == e.next && k == kind)
    ensures Drives(e, settled, sid, t, was)
  {
  }

  lemma RedrivenOnce(
    e: Execution, e': Execution, sid: StateExecutionId, kind: WorkerKind, settled: set<int>, t: int, was: WorkerKind)
    requires Redriven(e, e', sid, kind) && Working(e, settled, t, sid, was) && Keyed(e) && e.next !in settled
    requires DrivenOnce(e, settled)
    ensures DrivenOnce(e', settled + {t})
  {
    RedrivenDrives(e, e', sid, kind, settled, t, was);
    SameDriven(e, e', settled, settled + {t}, {sid});
    assert Drives(e', settled + {t}, sid, e.next, kind);
  }

  lemma RedrivenWaitsOnce(
    e: Execution, e': Execution, sid: StateExecutionId, kind: WorkerKind, settled: set<int>, t: int, was: WorkerKind)
    requires Redriven(e, e', sid, kind) && Working(e, settled, t, sid, was) && Keyed(e) && e.next !in settled
    requires WaitsOnce(e, settled) && (kind.WaitUntilKind? ==> was.WaitUntilKind?)
    ensures WaitsOnce(e', settled + {t})
  {
    RedrivenDrives(e, e', sid, kind, settled, t, was);
  }

  lemma RedrivenRest(
    e: Execution, e': Execution, sid: StateExecutionId, kind: WorkerKind, settled: set<int>, t: int, was: WorkerKind)
    requires Redriven(e, e', sid, kind) && Working(e, settled, t, sid, was) && Keyed(e) && e.next !in settled
    requires RowsExist(e) && ExecutesAfterWait(e) && SettledFailed(e, settled, None)
    requires kind.WaitUntilKind? ==> e'.states[sid].status == e.states[sid].status
    ensures Keyed(e') && RowsExist(e') && ExecutesAfterWait(e') && SettledFailed(e', settled + {t}, Some(t))
  {
  }

  lemma RedrivenFrame(
    e: Execution, e': Execution, sid: StateExecutionId, kind: WorkerKind, settled: set<int>, t: int, was: WorkerKind)
    requires Redriven(e, e', sid, kind) && Working(e, settled, t, sid, was) && Keyed(e)
    ensures ResultsKept(e, e') && QueueTasksKept(e, e') && WaitingKept(e, e')
    ensures PendingMatches(e) ==> PendingMatches(e')
  {
  }

  lemma RedrivenKeeps(
    e: Execution, e': Execution, sid: StateExecutionId, kind: WorkerKind, settled: set<int>, t: int, was: WorkerKind)
    requires Redriven(e, e', sid, kind) && Working(e, settled, t, sid, was) && e.next !in settled
    requires kind == was || kind.ExecuteKind?
    requires Inv(e, settled)
    ensures InvWithin(e', settled + {t}, Some(t)) && GracefulHasPending(e')
  {
    RedrivenFrame(e, e', sid, kind, settled, t, was);
    RedrivenRest(e, e', sid, kind, settled, t, was);
    assert DrivenOnce(e', settled + {t}) by { RedrivenOnce(e, e', sid, kind, settled, t, was); }
    assert WaitsOnce(e', settled + {t}) by { RedrivenWaitsOnce(e, e', sid, kind, settled, t, was); }
    assert Waits(e') by { KeepsWaits(e, e'); }
    assert RegisteredMatch(e') by { KeepsRegistered(e, e'); }
    assert MessagesOnce(e') && Faithful(e') by { KeepsMessages(e, e'); }
  }

  /** A wait-until response without commands is fenced, and moves the state on to its execute API. */
  lemma CompleteWaitUntilKeeps(e: Execution, t: int, sid: StateExecutionId, version: int, settled: set<int>)
    requires Inv(e, settled) && Working(e, settled, t, sid, WaitUntilKind) && e.next !in settled
    ensures var r := CompleteWaitUntil(e, sid, version);
      && (r.Some? <==> e.states[sid].version == version)
      && (r.Some? ==> InvWithin(r.value, settled + {t}, Some(t)) && GracefulHasPending(r.value)
                      && t in r.value.immediate && r.value.immediate[t] == e.immediate[t]
                      && r.value.next == e.next + 1)
  {
    if e.states[sid].version == version {
      RedrivenKeeps(e, CompleteWaitUntil(e, sid, version).value, sid, ExecuteKind, settled, t, WaitUntilKind);
    }
  }

  /** The status written back is the one prepared, which the fence makes the row's own. */
  lemma BackoffKeeps(
    e: Execution, t: int, sid: StateExecutionId, kind: WorkerKind, version: int, failure: Failure, fireTime: int,
    settled: set<int>)
    requires Inv(e, settled) && Working(e, settled, t, sid, kind) && e.next !in settled
    ensures var r := BackoffTx(e, t, sid, kind, StatusOf(kind), version, failure, fireTime);
      && (r.Some? <==> e.states[sid].version == version)
      && (r.Some? ==> Inv(r.value, settled + {t}))
  {
    if e.states[sid].version == version {
      var updated := UpdateWithoutCommands(e, sid, version, StatusOf(kind), Some(failure)).value;
      var e' := InsertTimer(updated, BackoffTimer(fireTime, sid, kind));
      RedrivenKeeps(e, e', sid, kind, settled, t, kind);
      hide InvWithin;
      DeletingBusyKeeps(e', t, settled + {t});
    }
  }

  // ---------- the backoff timer fires ----------

  ghost predicate Converted(e: Execution, e': Execution, timer: int, sid: StateExecutionId, kind: WorkerKind) {
    && timer in e.timers && e.timers[timer].BackoffTimer? && e.timers[timer].sid == sid && e.timers[timer].kind == kind
    && e' == ConvertTx(e, timer, sid, kind)
  }

  lemma ConvertedDrives(
    e: Execution, e': Execution, timer: int, sid: StateExecutionId, kind: WorkerKind, settled: set<int>)
    requires Converted(e, e', timer, sid, kind) && Keyed(e) && e.next !in settled
    ensures forall s, u, k :: Drives(e', settled, s, u, k) <==>
              (Drives(e, settled, s, u, k) && u != timer) || (s == sid && u == e.next && k == kind)
    ensures Drives(e, settled, sid, timer, kind)
  {
  }

  lemma ConvertedDrive(
    e: Execution, e': Execution, timer: int, sid: StateExecutionId, kind: WorkerKind, settled: set<int>)
    requires Converted(e, e', timer, sid, kind) && Keyed(e) && e.next !in settled
    requires DrivenOnce(e, settled) && WaitsOnce(e, settled)
    ensures DrivenOnce(e', settled) && WaitsOnce(e', settled)
  {
    ConvertedDrives(e, e', timer, sid, kind, settled);
    SameDriven(e, e', settled, settled, {sid});
    assert Drives(e', settled, sid, e.next, kind);
  }

  lemma ConvertedRest(
    e: Execution, e': Execution, timer: int, sid: StateExecutionId, kind: WorkerKind, settled: set<int>)
    requires Converted(e, e', timer, sid, kind) && Keyed(e) && e.next !in settled
    requires RowsExist(e) && ExecutesAfterWait(e) && SettledFailed(e, settled, None)
    ensures Keyed(e') && RowsExist(e') && ExecutesAfterWait(e') && SettledFailed(e', settled, None)
    ensures ResultsKept(e, e') && QueueTasksKept(e, e') && WaitingKept(e, e')
  {
  }

  lemma ConvertKeeps(e: Execution, timer: int, sid: StateExecutionId, kind: WorkerKind, settled: set<int>)
    requires Inv(e, settled) && e.next !in settled
    requires timer in e.timers && e.timers[timer].BackoffTimer?
    requires e.timers[timer].sid == sid && e.timers[timer].kind == kind
    ensures Inv(ConvertTx(e, timer, sid, kind), settled)
  {
    var e' := ConvertTx(e, timer, sid, kind);
    ConvertedRest(e, e', timer, sid, kind, settled);
    assert DrivenOnce(e', settled) && WaitsOnce(e', settled) by {
      ConvertedDrive(e, e', timer, sid, kind, settled);
    }
    assert Waits(e') by { KeepsWaits(e, e'); }
    assert RegisteredMatch(e') by { KeepsRegistered(e, e'); }
    assert MessagesOnce(e') && Faithful(e') by { KeepsMessages(e, e'); }
  }
}
