/** Processing a queue task keeps the invariants, whoever is picked and whatever order rows are updated in. */
module QueueLemmas {
  import opened Wrappers
  import opened Collections
  import opened StateExecutionIds
  import opened LocalQueues
  import opened ProcessModel
  import opened Transactions
  import opened Invariants
  import opened FrameLemmas
  import opened Ledgers
  import opened PublishingLemmas
  import opened WaitingLemmas
  import opened UpdatingLemmas
  import opened AssigningLemmas

  // ---------- between handing out the messages and writing the rows ----------

  /** The messages given to each state still to be updated fit its request, and it waits for them. */
  ghost predicate AsideMatch(e: Execution, settled: set<int>, a: Assigned) {
    forall sid :: sid in a ==>
      && sid in e.states && a[sid] != map[] && !Driven(e, settled, sid, WaitUntilKind)
      && (e.states[sid].status.WaitUntilWaiting? || e.states[sid].status.StateAborted?)
      && (e.process.status.Running? ==> e.states[sid].status.WaitUntilWaiting?)
      && GivenToRow(e.messages, e.states[sid], a[sid])
      && (forall i :: i in a[sid] ==> !Registered(e.process.queues, sid, i))
  }

  ghost predicate GivenToRow(messages: map<DedupId, MessageRow>, row: StateRow, consumed: map<int, seq<DedupId>>) {
    && ConsumedFaithful(messages, row.request, consumed)
    && (forall i :: i in consumed ==> i !in row.results.queues)
  }

  function CellAside(l: Ledger, task: int, a: Assigned, c: Cell): seq<DedupId> {
    match c
    case TaskCell(t) => if t == task then [] else l(c)
    case QueueCell(_) => l(c)
    case ResultCell(s, i) => if s in a && i in a[s] then a[s][i] else l(c)
  }

  function WithAside(l: Ledger, task: int, a: Assigned): Ledger {
    c => CellAside(l, task, a, c)
  }

  /** The invariants while the messages in `a` are out of the queues but not yet in their rows. */
  ghost predicate InvAside(e: Execution, settled: set<int>, task: int, a: Assigned) {
    && Shape(e) && PendingMatches(e) && GracefulHasPending(e)
    && DrivenOnce(e, settled) && WaitsOnce(e, settled) && ExecutesAfterWait(e) && SettledFailed(e, settled, None)
    && WaitsAside(e, a) && RegisteredMatch(e) && AsideMatch(e, settled, a)
    && ExactlyOnce(WithAside(LedgerOf(e), task, a), e.messages.Keys) && Faithful(e)
  }

  // ---------- one row ----------

  /** The results of the state with what it was given. */
  function Grown(e: Execution, sid: StateExecutionId, consumed: map<int, seq<DedupId>>): CommandResults
    requires sid in e.states && Known(e.messages, consumed)
  {
    AddConsumed(e.messages, e.states[sid].results, consumed)
  }

  lemma OwnRowWaits(
    e: Execution, e': Execution, sid: StateExecutionId, consumed: map<int, seq<DedupId>>, a: Assigned)
    requires sid in e.states && Known(e.messages, consumed) && sid in a && a[sid] == consumed
    requires RowUpdated(e, e', sid, Grown(e, sid, consumed), false, {})
    requires GivenToRow(e.messages, e.states[sid], consumed)
    requires TimersRest(e, sid) && QueuesRest(e, sid, a)
    ensures TimersRest(e', sid) && QueuesRest(e', sid, a - {sid})
  {
    assert forall i, t :: Resolves(e', sid, i, t) <==> Resolves(e, sid, i, t);
    StillTimed(e, e', sid);
    assert forall i :: Given(a, sid, i) <==> i in consumed;
    assert forall i :: i in e'.states[sid].results.queues <==> i in e.states[sid].results.queues || i in consumed;
  }

  lemma GivenRowWaits(
    e: Execution, e': Execution, sid: StateExecutionId, completed: bool, a: Assigned)
    requires sid in a && sid in e.states && Known(e.messages, a[sid])
    requires RowUpdated(e, e', sid, Grown(e, sid, a[sid]), completed, {})
    requires completed <==> Completed(e.states[sid].request, Grown(e, sid, a[sid]))
    requires e.process.status.Running? ==> e.states[sid].status.WaitUntilWaiting?
    requires GivenToRow(e.messages, e.states[sid], a[sid]) && WaitsAside(e, a)
    ensures WaitsAside(e', a - {sid})
  {
    if e.process.status.Running? && !completed {
      OwnRowWaits(e, e', sid, a[sid], a);
    }
    UpdatedWaits(e, e', sid, Grown(e, sid, a[sid]), completed, {}, a, a - {sid});
  }

  lemma GivenRowMessages(e: Execution, e': Execution, sid: StateExecutionId, completed: bool, task: int, a: Assigned)
    requires sid in a && sid in e.states && Known(e.messages, a[sid]) && Keyed(e)
    requires RowUpdated(e, e', sid, Grown(e, sid, a[sid]), completed, {})
    requires ExactlyOnce(WithAside(LedgerOf(e), task, a), e.messages.Keys)
    ensures ExactlyOnce(WithAside(LedgerOf(e'), task, a - {sid}), e'.messages.Keys)
  {
    var l, l' := WithAside(LedgerOf(e), task, a), WithAside(LedgerOf(e'), task, a - {sid});
    forall c ensures l'(c) == l(c) {
      assert l(c) == CellAside(LedgerOf(e), task, a, c);
      assert l'(c) == CellAside(LedgerOf(e'), task, a - {sid}, c);
      if c.ResultCell? && c.sid == sid && c.index in a[sid] {
        LookupIds(e.messages, a[sid][c.index]);
      }
    }
    SameLedger(l, l', e.messages.Keys);
  }

  lemma GivenRowFaithful(
    e: Execution, e': Execution, sid: StateExecutionId, consumed: map<int, seq<DedupId>>, completed: bool)
    requires sid in e.states && Known(e.messages, consumed) && Keyed(e)
    requires RowUpdated(e, e', sid, Grown(e, sid, consumed), completed, {})
    requires GivenToRow(e.messages, e.states[sid], consumed) && Faithful(e)
    ensures Faithful(e')
  {
    forall s, i | s in e'.states && i in e'.states[s].results.queues ensures ResultFaithful(e', s, i) {
      if s == sid && i in consumed {
        forall n | 0 <= n < |consumed[i]|
          ensures e.messages[consumed[i][n]].queue == e.states[sid].request.queueCommands[i].queue
        {
          assert consumed[i][n] in consumed[i];
        }
      } else {
        assert ResultFaithful(e, s, i);
      }
    }
  }

  lemma StillAside(
    e: Execution, e': Execution, sid: StateExecutionId, results: CommandResults, completed: bool, settled: set<int>,
    a: Assigned)
    requires sid in a && RowUpdated(e, e', sid, results, completed, {})
    requires AsideMatch(e, settled, a)
    requires forall s :: !Driven(e, settled, s, WaitUntilKind) ==> !Driven(e', settled, s, WaitUntilKind)
    ensures AsideMatch(e', settled, a - {sid})
  {
    forall s | s in a - {sid}
      ensures && s in e'.states && e'.states[s] == e.states[s]
              && (forall i :: i in a[s] ==> !Registered(e'.process.queues, s, i))
    {
      assert s in a && s != sid;
      assert forall i :: Registered(e'.process.queues, s, i) ==> Registered(e.process.queues, s, i);
    }
  }

  lemma GivenRowDrive(e: Execution, e': Execution, sid: StateExecutionId, results: CommandResults, completed: bool,
                      settled: set<int>, task: int, a: Assigned)
    requires InvAside(e, settled, task, a) && sid in a && e.next !in settled
    requires RowUpdated(e, e', sid, results, completed, {})
    ensures Shape(e') && PendingMatches(e') && GracefulHasPending(e')
    ensures DrivenOnce(e', settled) && WaitsOnce(e', settled)
    ensures ExecutesAfterWait(e') && SettledFailed(e', settled, None)
    ensures AsideMatch(e', settled, a - {sid})
  {
    UpdatedShape(e, e', sid, results, completed, {});
    UpdatedRest(e, e', sid, results, completed, {}, settled);
    UpdatedDrivenOnce(e, e', sid, results, completed, {}, settled);
    UpdatedWaitsOnce(e, e', sid, results, completed, {}, settled);
    StillAside(e, e', sid, results, completed, settled, a);
  }

  lemma KnownGiven(messages: map<DedupId, MessageRow>, row: StateRow, consumed: map<int, seq<DedupId>>)
    requires GivenToRow(messages, row, consumed)
    ensures Known(messages, consumed)
  {
  }

  lemma GivenRowKeeps(e: Execution, sid: StateExecutionId, settled: set<int>, task: int, a: Assigned)
    requires InvAside(e, settled, task, a) && sid in a && e.next !in settled
    ensures var r := UpdateAssignedRow(e, sid, a[sid]);
      r.Some? && InvAside(r.value, settled, task, a - {sid}) && StaysIn(e, r.value, task)
  {
    KnownGiven(e.messages, e.states[sid], a[sid]);
    var results := Grown(e, sid, a[sid]);
    var e' := WithResults(e, sid, results);
    var completed := Completed(e.states[sid].request, results);
    assert UpdateAssignedRow(e, sid, a[sid]) == Some(e');
    WithResultsUpdates(e, sid, results);
    GivenRowDrive(e, e', sid, results, completed, settled, task, a);
    assert WaitsAside(e', a - {sid}) by { GivenRowWaits(e, e', sid, completed, a); }
    assert RegisteredMatch(e') by { GivenRowRegistered(e, e', sid, completed, a); }
    assert ExactlyOnce(WithAside(LedgerOf(e'), task, a - {sid}), e'.messages.Keys) by {
      GivenRowMessages(e, e', sid, completed, task, a);
    }
    assert Faithful(e') by { GivenRowFaithful(e, e', sid, a[sid], completed); }
    assert StaysIn(e, e', task) by { UpdatedStays(e, e', sid, results, completed, task); }
  }

  lemma UpdatedStays(
    e: Execution, e': Execution, sid: StateExecutionId, results: CommandResults, completed: bool, task: int)
    requires RowUpdated(e, e', sid, results, completed, {}) && Keyed(e)
    ensures StaysIn(e, e', task)
  {
  }

  lemma GivenRowRegistered(e: Execution, e': Execution, sid: StateExecutionId, completed: bool, a: Assigned)
    requires sid in a && sid in e.states && Known(e.messages, a[sid])
    requires RowUpdated(e, e', sid, Grown(e, sid, a[sid]), completed, {})
    requires RegisteredMatch(e) && forall i :: i in a[sid] ==> !Registered(e.process.queues, sid, i)
    ensures RegisteredMatch(e')
  {
    UpdatedRegistered(e, e', sid, Grown(e, sid, a[sid]), completed, {});
  }

  // ---------- all rows, in whatever order ----------

  function NotYet(given: Assigned, sids: seq<StateExecutionId>): Assigned {
    map sid | sid in given && sid !in sids :: given[sid]
  }

  lemma OneLess(given: Assigned, sids: seq<StateExecutionId>)
    requires sids != [] && forall sid :: sid in sids ==> sid in given
    requires forall i, j :: 0 <= i < j < |sids| ==> sids[i] != sids[j]
    ensures var front, last := sids[..|sids| - 1], sids[|sids| - 1];
      && last in NotYet(given, front)
      && NotYet(given, sids) == NotYet(given, front) - {last}
      && (forall sid :: sid in front ==> sid in given)
      && (forall i, j :: 0 <= i < j < |front| ==> front[i] != front[j])
  {
    var front, last := sids[..|sids| - 1], sids[|sids| - 1];
    assert last !in front;
    assert forall sid :: sid in sids <==> sid in front || sid == last;
  }

  ghost predicate StaysIn(e: Execution, e': Execution, task: int) {
    && e.next <= e'.next
    && (task in e.immediate ==> task in e'.immediate && e'.immediate[task] == e.immediate[task])
  }

  lemma {:induction false} GivenRowsKeep(
    e: Execution, given: Assigned, sids: seq<StateExecutionId>, settled: set<int>, task: int)
    requires InvAside(e, settled, task, given) && forall u :: u in settled ==> u < e.next
    requires forall sid :: sid in sids ==> sid in given
    requires forall i, j :: 0 <= i < j < |sids| ==> sids[i] != sids[j]
    ensures var r := UpdateAssignedRows(e, given, sids);
      r.Some? && InvAside(r.value, settled, task, NotYet(given, sids)) && StaysIn(e, r.value, task)
  {
    if sids == [] {
      assert NotYet(given, sids) == given;
    } else {
      OneLess(given, sids);
      GivenRowsKeep(e, given, sids[..|sids| - 1], settled, task);
      LastRowKeeps(e, given, sids, settled, task);
    }
  }

  lemma LastRowKeeps(e: Execution, given: Assigned, sids: seq<StateExecutionId>, settled: set<int>, task: int)
    requires sids != [] && forall sid :: sid in sids ==> sid in given
    requires sids[|sids| - 1] in NotYet(given, sids[..|sids| - 1]) && forall u :: u in settled ==> u < e.next
    requires NotYet(given, sids) == NotYet(given, sids[..|sids| - 1]) - {sids[|sids| - 1]}
    requires var r := UpdateAssignedRows(e, given, sids[..|sids| - 1]);
      && r.Some? && InvAside(r.value, settled, task, NotYet(given, sids[..|sids| - 1]))
      && StaysIn(e, r.value, task)
    ensures var r := UpdateAssignedRows(e, given, sids);
      r.Some? && InvAside(r.value, settled, task, NotYet(given, sids)) && StaysIn(e, r.value, task)
  {
    var before := UpdateAssignedRows(e, given, sids[..|sids| - 1]).value;
    GivenRowKeeps(before, sids[|sids| - 1], settled, task, NotYet(given, sids[..|sids| - 1]));
  }

  // ---------- what the rows hold then ----------

  /** The row at its next version with these results, which end its wait when they complete its request. */
  function RowWith(row: StateRow, results: CommandResults): StateRow {
    StateRow(if Completed(row.request, results) then ExecuteRunning else row.status,
             row.version + 1, row.request, results, None)
  }

  /** The rows of these states are as they are with all they were given, and no other row changed. */
  ghost predicate RowsHold(e: Execution, e': Execution, a: Assigned, sids: seq<StateExecutionId>) {
    && e'.messages == e.messages
    && (forall sid :: sid in e.states ==> sid in e'.states && (sid !in sids ==> e'.states[sid] == e.states[sid]))
    && (forall sid :: sid in sids ==>
          && sid in a && sid in e'.states && sid in e.states && Known(e.messages, a[sid])
          && e'.states[sid] == RowWith(e.states[sid], Grown(e, sid, a[sid])))
  }

  lemma OneMoreHolds(
    e: Execution, e1: Execution, e2: Execution, a: Assigned, front: seq<StateExecutionId>, last: StateExecutionId)
    requires RowsHold(e, e1, a, front) && last !in front && last in a && last in e.states
    requires e2.messages == e1.messages && last in e2.states && e2.states == e1.states[last := e2.states[last]]
    requires last in e1.states && Known(e1.messages, a[last])
    requires e2.states[last] == RowWith(e1.states[last], Grown(e1, last, a[last]))
    ensures RowsHold(e, e2, a, front + [last])
  {
    hide AddConsumed;
  }

  lemma UpdatedRowHolds(e: Execution, sid: StateExecutionId, consumed: map<int, seq<DedupId>>)
    requires UpdateAssignedRow(e, sid, consumed).Some?
    ensures var e' := UpdateAssignedRow(e, sid, consumed).value;
      && sid in e.states && sid in e'.states && e'.states == e.states[sid := e'.states[sid]]
      && e'.messages == e.messages && Known(e.messages, consumed)
      && e'.states[sid] == RowWith(e.states[sid], Grown(e, sid, consumed))
  {
    hide Completed, AddConsumed, Cleanup;
  }

  lemma {:induction false} UpdatedRowsHold(e: Execution, a: Assigned, sids: seq<StateExecutionId>)
    requires (forall sid :: sid in sids ==> sid in a && sid in e.states) && UpdateAssignedRows(e, a, sids).Some?
    requires forall i, j :: 0 <= i < j < |sids| ==> sids[i] != sids[j]
    ensures RowsHold(e, UpdateAssignedRows(e, a, sids).value, a, sids)
  {
    if sids != [] {
      var front, last := sids[..|sids| - 1], sids[|sids| - 1];
      assert sids == front + [last] && last !in front;
      UpdatedRowsHold(e, a, front);
      var e1 := UpdateAssignedRows(e, a, front).value;
      var e2 := UpdateAssignedRow(e1, last, a[last]).value;
      assert UpdateAssignedRows(e, a, sids) == Some(e2);
      hide UpdateAssignedRow, AddConsumed;
      UpdatedRowHolds(e1, last, a[last]);
      OneMoreHolds(e, e1, e2, a, front, last);
    }
  }

  lemma RowsHoldElsewhere(
    e0: Execution, e: Execution, e1: Execution, e': Execution, a: Assigned, sids: seq<StateExecutionId>)
    requires RowsHold(e0, e1, a, sids)
    requires e.states == e0.states && e.messages == e0.messages && e'.states == e1.states && e'.messages == e1.messages
    ensures RowsHold(e, e', a, sids)
  {
    hide AddConsumed, Completed;
  }

  lemma QueueTxRowsHold(e: Execution, task: int, ms: seq<QueuedMessage>, picks: seq<Pick>, sids: seq<StateExecutionId>)
    requires |picks| == |ms| && IsOrder(sids, AssignAll(e.process.queues, ms, picks).1.Keys)
    requires (forall sid :: sid in sids ==> sid in e.states) && QueueTx(e, task, ms, picks, sids).Some?
    ensures RowsHold(e, QueueTx(e, task, ms, picks, sids).value, AssignAll(e.process.queues, ms, picks).1, sids)
  {
    hide AssignAll, UpdateAssignedRows, RowsHold;
    var (queues, given) := AssignAll(e.process.queues, ms, picks);
    var e0 := e.(process := e.process.(queues := queues));
    UpdatedRowsHold(e0, given, sids);
    var e1 := UpdateAssignedRows(e0, given, sids).value;
    RowsHoldElsewhere(e0, e, e1, DeleteImmediate(e1, task), given, sids);
  }

  // ---------- handing out the messages ----------

  lemma CommandsShrink(s: Queues, s': Queues, a: Assigned)
    requires AssignedFrom(s, s', a)
    ensures forall sid :: sid in s'.commands ==> sid in s.commands
    ensures forall sid :: sid in a ==> exists i :: Given(a, sid, i)
  {
    forall sid | sid in s'.commands ensures sid in s.commands {
      HasElement(s'.commands[sid].Keys);
      var i :| Registered(s', sid, i);
      assert Registered(s, sid, i);
    }
    forall sid | sid in a ensures exists i :: Given(a, sid, i) {
      HasElement(a[sid].Keys);
      var i :| i in a[sid];
      assert Given(a, sid, i);
    }
  }

  /** `e0` is `e` with other queues, from which the messages in `a` were handed out. */
  ghost predicate HandedOut(e: Execution, e0: Execution, a: Assigned) {
    e0 == e.(process := e.process.(queues := e0.process.queues)) && AssignedFrom(e.process.queues, e0.process.queues, a)
  }

  lemma HandedOutDrive(e: Execution, e0: Execution, a: Assigned, settled: set<int>)
    requires HandedOut(e, e0, a)
    requires Shape(e) && DrivenOnce(e, settled) && WaitsOnce(e, settled)
    requires ExecutesAfterWait(e) && SettledFailed(e, settled, None)
    ensures Shape(e0) && DrivenOnce(e0, settled) && WaitsOnce(e0, settled)
    ensures ExecutesAfterWait(e0) && SettledFailed(e0, settled, None)
  {
    CommandsShrink(e.process.queues, e0.process.queues, a);
    assert forall s, t, k :: Drives(e0, settled, s, t, k) <==> Drives(e, settled, s, t, k);
    SameDriven(e, e0, settled, settled, {});
    forall s, t | Drives(e0, settled, s, t, WaitUntilKind) ensures NotWaitedYet(e0, s) {
      assert NotWaitedYet(e, s);
    }
  }

  lemma HandedOutWaits(e: Execution, e0: Execution, a: Assigned)
    requires HandedOut(e, e0, a) && Waits(e) && RegisteredMatch(e)
    ensures WaitsAside(e0, a) && RegisteredMatch(e0)
  {
    CommandsShrink(e.process.queues, e0.process.queues, a);
    if e.process.status.Running? {
      forall s | s in e0.states && e0.states[s].status.WaitUntilWaiting?
        ensures TimersRest(e0, s) && QueuesRest(e0, s, a)
      {
        assert WaitsForTheRest(e, s);
        assert forall i, t :: Resolves(e0, s, i, t) <==> Resolves(e, s, i, t);
        StillTimed(e, e0, s);
      }
    }
  }

  lemma GivenIsWaiting(e: Execution, a: Assigned, settled: set<int>, sid: StateExecutionId, i: int)
    requires Registered(e.process.queues, sid, i)
    requires RowsExist(e) && Waits(e) && RegisteredMatch(e) && WaitsOnce(e, settled)
    ensures sid in e.states && !Driven(e, settled, sid, WaitUntilKind)
    ensures e.states[sid].status.WaitUntilWaiting? || e.states[sid].status.StateAborted?
    ensures e.process.status.Running? ==> e.states[sid].status.WaitUntilWaiting?
  {
    forall t ensures !Drives(e, settled, sid, t, WaitUntilKind) {
      assert Drives(e, settled, sid, t, WaitUntilKind) ==> NotWaitedYet(e, sid);
    }
  }

  lemma GivenFitsRow(e: Execution, s': Queues, a: Assigned, sid: StateExecutionId)
    requires AssignedFrom(e.process.queues, s', a) && RegisteredMatch(e)
    requires GivenFaithful(e.messages, e.process.queues, a)
    requires sid in a && sid in e.states
    ensures GivenToRow(e.messages, e.states[sid], a[sid])
    ensures forall i :: i in a[sid] ==> !Registered(s', sid, i)
  {
    assert forall i :: i in a[sid] ==> Given(a, sid, i) && Registered(e.process.queues, sid, i);
  }

  lemma HandedOutMatch(e: Execution, e0: Execution, a: Assigned, settled: set<int>)
    requires HandedOut(e, e0, a)
    requires RowsExist(e) && Waits(e) && RegisteredMatch(e) && WaitsOnce(e, settled)
    requires GivenFaithful(e.messages, e.process.queues, a)
    ensures AsideMatch(e0, settled, a)
  {
    CommandsShrink(e.process.queues, e0.process.queues, a);
    forall sid | sid in a
      ensures sid in e.states && !Driven(e0, settled, sid, WaitUntilKind)
      ensures e.states[sid].status.WaitUntilWaiting? || e.states[sid].status.StateAborted?
      ensures e.process.status.Running? ==> e.states[sid].status.WaitUntilWaiting?
      ensures GivenToRow(e.messages, e.states[sid], a[sid])
      ensures forall i :: i in a[sid] ==> !Registered(e0.process.queues, sid, i)
    {
      var i :| Given(a, sid, i);
      GivenIsWaiting(e, a, settled, sid, i);
      GivenFitsRow(e, e0.process.queues, a, sid);
      forall t ensures !Drives(e0, settled, sid, t, WaitUntilKind) {
        assert Drives(e0, settled, sid, t, WaitUntilKind) ==> Drives(e, settled, sid, t, WaitUntilKind);
      }
    }
  }

  lemma HandedOutMessages(e: Execution, e0: Execution, a: Assigned, task: int)
    requires HandedOut(e, e0, a)
    requires ExactlyOnce(WithGiven(LedgerOf(e), task, [], e0.process.queues.unconsumed, a), e.messages.Keys)
    ensures ExactlyOnce(WithAside(LedgerOf(e0), task, a), e0.messages.Keys)
  {
    var u := e0.process.queues.unconsumed;
    var l, l' := WithGiven(LedgerOf(e), task, [], u, a), WithAside(LedgerOf(e0), task, a);
    forall c ensures l'(c) == l(c) {
      assert l'(c) == CellAside(LedgerOf(e0), task, a, c);
      assert l(c) == CellGiven(LedgerOf(e), task, [], u, a, c);
    }
    SameLedger(l, l', e.messages.Keys);
  }

  lemma HandedOutFaithful(e: Execution, e0: Execution, a: Assigned)
    requires HandedOut(e, e0, a) && Faithful(e)
    requires QueuesFaithful(e.messages, e0.process.queues.unconsumed)
    ensures Faithful(e0)
  {
    var u := e0.process.queues.unconsumed;
    forall q, n | q in u && 0 <= n < |u[q]| ensures u[q][n] in e.messages && e.messages[u[q][n]].queue == q {
      assert u[q][n] in Waiting(u, q);
    }
    forall s, i | s in e0.states && i in e0.states[s].results.queues ensures ResultFaithful(e0, s, i) {
      assert ResultFaithful(e, s, i);
    }
  }

  lemma TaskMessagesFaithful(e: Execution, task: int, ms: seq<QueuedMessage>)
    requires Faithful(e) && task in e.immediate && e.immediate[task] == QueueTask(ms)
    ensures forall n :: 0 <= n < |ms| ==> ms[n].dedupId in e.messages && e.messages[ms[n].dedupId].queue == ms[n].queue
  {
    forall n | 0 <= n < |ms| ensures ms[n].dedupId in e.messages && e.messages[ms[n].dedupId].queue == ms[n].queue {
      assert e.immediate[task].messages[n] == ms[n];
    }
  }

  lemma HandingOutMoves(e: Execution, task: int, ms: seq<QueuedMessage>, picks: seq<Pick>)
    requires RegisteredMatch(e) && MessagesOnce(e) && ValidPicks(e.process.queues, ms, picks)
    requires task in e.immediate && e.immediate[task] == QueueTask(ms)
    ensures var (s', a) := AssignAll(e.process.queues, ms, picks);
      ExactlyOnce(WithGiven(LedgerOf(e), task, [], s'.unconsumed, a), e.messages.Keys)
  {
    assert ms[..|ms|] == ms && picks[..|ms|] == picks && TaskIds(ms)[|ms|..] == [];
    assert Before(LedgerOf(e), task, ms, e.process.queues);
    AssignAllMoves(LedgerOf(e), e.messages.Keys, task, ms, e.process.queues, picks, |ms|);
  }

  lemma HandingOutGives(e: Execution, settled: set<int>, task: int, ms: seq<QueuedMessage>, picks: seq<Pick>)
    requires Inv(e, settled) && task in e.immediate && e.immediate[task] == QueueTask(ms)
    requires ValidPicks(e.process.queues, ms, picks)
    ensures var (s', a) := AssignAll(e.process.queues, ms, picks);
      InvAside(e.(process := e.process.(queues := s')), settled, task, a)
  {
    var s := e.process.queues;
    var (s', a) := AssignAll(s, ms, picks);
    var e0 := e.(process := e.process.(queues := s'));
    AssignAllAssigns(s, ms, picks);
    UnconsumedIsFaithful(e);
    TaskMessagesFaithful(e, task, ms);
    AssignAllFaithful(e.messages, s, ms, picks);
    HandedOutGives(e, e0, settled, task, a) by {
      HandingOutMoves(e, task, ms, picks);
    }
  }

  lemma HandedOutGives(e: Execution, e0: Execution, settled: set<int>, task: int, a: Assigned)
    requires HandedOut(e, e0, a) && Inv(e, settled)
    requires GivenFaithful(e.messages, e.process.queues, a) && QueuesFaithful(e.messages, e0.process.queues.unconsumed)
    requires ExactlyOnce(WithGiven(LedgerOf(e), task, [], e0.process.queues.unconsumed, a), e.messages.Keys)
    ensures InvAside(e0, settled, task, a)
  {
    HandedOutDrive(e, e0, a, settled);
    assert WaitsAside(e0, a) && RegisteredMatch(e0) by { HandedOutWaits(e, e0, a); }
    assert AsideMatch(e0, settled, a) by { HandedOutMatch(e, e0, a, settled); }
    assert ExactlyOnce(WithAside(LedgerOf(e0), task, a), e0.messages.Keys) by { HandedOutMessages(e, e0, a, task); }
    assert Faithful(e0) by { HandedOutFaithful(e, e0, a); }
  }

  // ---------- the transaction ----------

  lemma DeletingQueueTaskKeeps(e: Execution, settled: set<int>, task: int)
    requires InvAside(e, settled, task, map[]) && task in e.immediate && e.immediate[task].QueueTask?
    ensures Inv(DeleteImmediate(e, task), settled)
  {
    var e' := DeleteImmediate(e, task);
    assert Waits(e) by { NothingAside(e); }
    SameButTasksKeeps(e, e', settled, None);
    assert Waits(e') && RegisteredMatch(e') && PendingMatches(e') by { SameButTasksWaits(e, e', settled); }
    DeletingQueueTaskMessages(e, task);
  }

  lemma DeletingQueueTaskMessages(e: Execution, task: int)
    requires ExactlyOnce(WithAside(LedgerOf(e), task, map[]), e.messages.Keys) && Faithful(e)
    ensures MessagesOnce(DeleteImmediate(e, task)) && Faithful(DeleteImmediate(e, task))
  {
    var e' := DeleteImmediate(e, task);
    assert MessagesOnce(e') by {
      var l := WithAside(LedgerOf(e), task, map[]);
      forall c ensures LedgerOf(e')(c) == l(c) {
        assert l(c) == CellAside(LedgerOf(e), task, map[], c);
      }
      SameLedger(l, LedgerOf(e'), e.messages.Keys);
    }
    assert Faithful(e') by {
      forall s, i | s in e'.states && i in e'.states[s].results.queues ensures ResultFaithful(e', s, i) {
        assert ResultFaithful(e, s, i);
      }
    }
  }

  /**
   A queue task's transaction never fails, on a running process or a closed one, and keeps the
   invariants for every choice of which state consumes and every order of updating the rows.
   */
  lemma QueueTxKeeps(
    e: Execution, settled: set<int>, task: int, ms: seq<QueuedMessage>, picks: seq<Pick>, sids: seq<StateExecutionId>)
    requires Inv(e, settled) && task in e.immediate && e.immediate[task] == QueueTask(ms)
    requires forall u :: u in settled ==> u < e.next
    requires ValidPicks(e.process.queues, ms, picks)
    requires IsOrder(sids, AssignAll(e.process.queues, ms, picks).1.Keys)
    ensures var r := QueueTx(e, task, ms, picks, sids); r.Some? && Inv(r.value, settled)
  {
    var (s', given) := AssignAll(e.process.queues, ms, picks);
    HandingOutGives(e, settled, task, ms, picks);
    WritingRowsKeeps(e.(process := e.process.(queues := s')), given, sids, settled, task);
  }

  lemma WritingRowsKeeps(e: Execution, given: Assigned, sids: seq<StateExecutionId>, settled: set<int>, task: int)
    requires InvAside(e, settled, task, given) && task in e.immediate && e.immediate[task].QueueTask?
    requires IsOrder(sids, given.Keys) && forall u :: u in settled ==> u < e.next
    ensures var r := UpdateAssignedRows(e, given, sids); r.Some? && Inv(DeleteImmediate(r.value, task), settled)
  {
    assert NotYet(given, sids) == map[];
    GivenRowsKeep(e, given, sids, settled, task);
    DeletingQueueTaskKeeps(UpdateAssignedRows(e, given, sids).value, settled, task);
  }
}
