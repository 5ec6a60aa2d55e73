/** What starting states leaves behind, said in plain terms: counters, rows, pending states and tasks. */
module StartEffects {
  import opened Wrappers
  import opened StateExecutionIds
  import opened LocalQueues
  import opened SequenceMaps
  import opened ProcessModel
  import opened Invariants
  import opened StartingLemmas

  /** How often the state is among these. */
  function Times(nexts: seq<NextState>, stateId: string): nat {
    if nexts == [] then 0
    else Times(nexts[..|nexts| - 1], stateId) + if nexts[|nexts| - 1].stateId == stateId then 1 else 0
  }

  /** The sequence that the position of a next state gives it: one more for each earlier entry of the same state. */
  function IdAt(maps: SequenceMaps, nexts: seq<NextState>, n: nat): StateExecutionId
    requires n < |nexts|
  {
    var id := nexts[n].stateId;
    StateExecutionId(id, LastSequence(maps, id) + Times(nexts[..n], id) + 1)
  }

  ghost predicate IsNew(maps: SequenceMaps, nexts: seq<NextState>, sid: StateExecutionId) {
    exists n :: 0 <= n < |nexts| && IdAt(maps, nexts, n) == sid
  }

  function FreshRow(skipWaitUntil: bool): StateRow {
    StateRow(if skipWaitUntil then ExecuteRunning else WaitUntilRunning, 1, CommandRequest(EmptyCommand, [], []),
             CommandResults(map[], map[]), None)
  }

  function DriverTask(skipWaitUntil: bool, sid: StateExecutionId): ImmediateTask {
    WorkerTask(if skipWaitUntil then ExecuteKind else WaitUntilKind, sid)
  }

  ghost predicate CountersGrow(maps: SequenceMaps, maps': SequenceMaps, nexts: seq<NextState>) {
    forall id :: LastSequence(maps', id) == LastSequence(maps, id) + Times(nexts, id)
  }

  /** Each entry got its own new row, no other row came, and the old ones are the same. */
  ghost predicate RowsStart(e: Execution, e': Execution, nexts: seq<NextState>) {
    var maps := e.process.sequenceMaps;
    && (forall n :: 0 <= n < |nexts| ==>
          var sid := IdAt(maps, nexts, n);
          sid !in e.states && sid in e'.states && e'.states[sid] == FreshRow(nexts[n].skipWaitUntil))
    && (forall sid :: sid in e.states ==> sid in e'.states && e'.states[sid] == e.states[sid])
    && (forall sid :: sid in e'.states ==> sid in e.states || IsNew(maps, nexts, sid))
  }

  ghost predicate PendingGrows(e: Execution, e': Execution, nexts: seq<NextState>) {
    forall sid :: IsPending(e'.process.sequenceMaps, sid) <==>
      IsPending(e.process.sequenceMaps, sid) || IsNew(e.process.sequenceMaps, nexts, sid)
  }

  /** One new task per entry, in order, at new keys; the old ones are the same. */
  ghost predicate TasksStart(e: Execution, e': Execution, nexts: seq<NextState>) {
    && e'.next == e.next + |nexts|
    && (forall t :: t in e'.immediate <==> t in e.immediate || e.next <= t < e'.next)
    && (forall t :: t in e.immediate && t < e.next ==> e'.immediate[t] == e.immediate[t])
    && (forall n :: 0 <= n < |nexts| ==>
          e'.immediate[e.next + n] == DriverTask(nexts[n].skipWaitUntil, IdAt(e.process.sequenceMaps, nexts, n)))
  }

  ghost predicate AllStarted(e: Execution, e': Execution, nexts: seq<NextState>) {
    && CountersGrow(e.process.sequenceMaps, e'.process.sequenceMaps, nexts)
    && RowsStart(e, e', nexts) && PendingGrows(e, e', nexts) && TasksStart(e, e', nexts)
    && e'.process == e.process.(sequenceMaps := e'.process.sequenceMaps)
    && e'.timers == e.timers && e'.messages == e.messages
  }

  lemma FrontIds(maps: SequenceMaps, front: seq<NextState>, last: NextState)
    ensures forall n :: 0 <= n < |front| ==> IdAt(maps, front + [last], n) == IdAt(maps, front, n)
    ensures IdAt(maps, front + [last], |front|)
         == StateExecutionId(last.stateId, LastSequence(maps, last.stateId) + Times(front, last.stateId) + 1)
    ensures forall sid :: IsNew(maps, front + [last], sid) <==>
              IsNew(maps, front, sid) || sid == IdAt(maps, front + [last], |front|)
    ensures forall id :: Times(front + [last], id) == Times(front, id) + if last.stateId == id then 1 else 0
  {
    var nexts := front + [last];
    assert nexts[..|front|] == front;
    forall n | 0 <= n < |front| ensures IdAt(maps, nexts, n) == IdAt(maps, front, n) {
      assert nexts[..n] == front[..n];
    }
    forall sid | IsNew(maps, front, sid) ensures IsNew(maps, nexts, sid) {
      var n :| 0 <= n < |front| && IdAt(maps, front, n) == sid;
      assert IdAt(maps, nexts, n) == sid;
    }
  }

  /** One start, in the same terms. */
  ghost predicate OneStarted(e: Execution, e': Execution, next: NextState) {
    var sid := NextId(e, next.stateId);
    && sid !in e.states && e'.states == e.states[sid := FreshRow(next.skipWaitUntil)]
    && e'.immediate == e.immediate[e.next := DriverTask(next.skipWaitUntil, sid)] && e'.next == e.next + 1
    && e'.process == e.process.(sequenceMaps := e'.process.sequenceMaps)
    && e'.timers == e.timers && e'.messages == e.messages
    && (forall other :: IsPending(e'.process.sequenceMaps, other) <==>
          IsPending(e.process.sequenceMaps, other) || other == sid)
    && (forall id :: LastSequence(e'.process.sequenceMaps, id) ==
                     LastSequence(e.process.sequenceMaps, id) + if id == next.stateId then 1 else 0)
  }

  lemma StartingOne(e: Execution, next: NextState)
    requires SequencesExact(e)
    ensures StartState(e, next).Some? && OneStarted(e, StartState(e, next).value, next)
    ensures SequencesExact(StartState(e, next).value)
  {
    StartStateIsFresh(e, next);
    hide SequencesExact;
  }

  lemma OneMoreStarted(e: Execution, e1: Execution, e2: Execution, front: seq<NextState>, last: NextState)
    requires AllStarted(e, e1, front) && OneStarted(e1, e2, last)
    ensures AllStarted(e, e2, front + [last])
  {
    FrontIds(e.process.sequenceMaps, front, last);
    hide IdAt, IsNew, Times, LastSequence, IsPending;
  }

  lemma NoneStarted(e: Execution)
    ensures AllStarted(e, e, [])
  {
  }

  lemma {:induction false} StartingAll(e: Execution, nexts: seq<NextState>)
    requires SequencesExact(e)
    ensures StartStates(e, nexts).Some?
    ensures AllStarted(e, StartStates(e, nexts).value, nexts) && SequencesExact(StartStates(e, nexts).value)
  {
    hide AllStarted, OneStarted, SequencesExact, StartState;
    if nexts == [] {
      NoneStarted(e);
    } else {
      var front, last := nexts[..|nexts| - 1], nexts[|nexts| - 1];
      StartingAll(e, front);
      var e1 := StartStates(e, front).value;
      StartingOne(e1, last);
      OneMoreStarted(e, e1, StartState(e1, last).value, front, last);
      assert front + [last] == nexts;
    }
  }
}
