/** A queue task that is processed when it may have left the table: which messages are where afterwards. */
module RedeliveredMessages {
  import opened StateExecutionIds
  import opened LocalQueues
  import opened LocalQueueTheorems
  import opened ProcessModel
  import opened Transactions
  import opened Invariants
  import opened FrameLemmas
  import opened Ledgers
  import opened WaitingLemmas
  import opened AssigningLemmas
  import opened QueueLemmas
  import opened Evolution
  import opened RunFifo

  /** The execution with the task's messages in its cell, wherever else they may be. */
  function PutBack(e: Execution, task: int, ms: seq<QueuedMessage>): Execution {
    e.(immediate := e.immediate[task := QueueTask(ms)])
  }

  lemma {:induction false} RowsAlwaysUpdate(e: Execution, a: Assigned, sids: seq<StateExecutionId>)
    requires forall sid :: sid in sids ==> sid in a && sid in e.states && Transactions.Known(e.messages, a[sid])
    ensures UpdateAssignedRows(e, a, sids).Some?
  {
    if sids != [] {
      var front, last := sids[..|sids| - 1], sids[|sids| - 1];
      RowsAlwaysUpdate(e, a, front);
      UpdateAssignedRowsEvolves(e, a, front);
      hide WithResults;
    }
  }

  ghost predicate KeysBelow(e: Execution) {
    forall t :: t in e.immediate ==> t < e.next
  }

  lemma UpdatedRowKeepsTasks(e: Execution, sid: StateExecutionId, consumed: map<int, seq<DedupId>>)
    requires KeysBelow(e) && UpdateAssignedRow(e, sid, consumed).Some?
    ensures var e' := UpdateAssignedRow(e, sid, consumed).value; KeysBelow(e') && QueueTasksKept(e, e')
  {
    hide Completed, AddConsumed;
  }

  lemma {:induction false} UpdatedRowsKeepTasks(e: Execution, a: Assigned, sids: seq<StateExecutionId>)
    requires (forall sid :: sid in sids ==> sid in a) && KeysBelow(e) && UpdateAssignedRows(e, a, sids).Some?
    ensures var e' := UpdateAssignedRows(e, a, sids).value; KeysBelow(e') && QueueTasksKept(e, e')
  {
    if sids != [] {
      var front, last := sids[..|sids| - 1], sids[|sids| - 1];
      UpdatedRowsKeepTasks(e, a, front);
      UpdatedRowKeepsTasks(UpdateAssignedRows(e, a, front).value, last, a[last]);
      hide UpdateAssignedRow;
    }
  }

  lemma HeldContents(e: Execution, e': Execution, a: Assigned, sids: seq<StateExecutionId>, s: StateExecutionId, i: int)
    requires RowsHold(e, e', a, sids) && (forall sid :: sid in sids <==> sid in a)
    requires e'.states.Keys == e.states.Keys
    ensures Contents(e', ResultCell(s, i)) ==
            if s in a && i in a[s] then a[s][i] else Contents(e, ResultCell(s, i))
  {
    if s in a && i in a[s] {
      StoredIds(e.messages, e.states[s].results, a[s], i);
    }
    hide Completed;
  }

  /** Cell by cell, what the transaction leaves. */
  lemma QueueTxLedger(e: Execution, task: int, ms: seq<QueuedMessage>, picks: seq<Pick>, sids: seq<StateExecutionId>)
    requires |picks| == |ms| && IsOrder(sids, AssignAll(e.process.queues, ms, picks).1.Keys)
    requires (forall sid :: sid in sids ==> sid in e.states) && KeysBelow(e)
    requires QueueTx(e, task, ms, picks, sids).Some?
    ensures var (queues, given) := AssignAll(e.process.queues, ms, picks);
      forall c :: Contents(QueueTx(e, task, ms, picks, sids).value, c)
               == CellGiven(LedgerOf(e), task, [], queues.unconsumed, given, c)
  {
    hide AssignAll, UpdateAssignedRows, RowsHold;
    QueueTxRowsHold(e, task, ms, picks, sids);
    var (queues, given) := AssignAll(e.process.queues, ms, picks);
    var e0 := e.(process := e.process.(queues := queues));
    UpdatingRowsLeavesMessages(e0, given, sids);
    UpdatedRowsKeepTasks(e0, given, sids);
    UpdatedRowsSameKeys(e0, given, sids);
    var e' := QueueTx(e, task, ms, picks, sids).value;
    forall c ensures Contents(e', c) == CellGiven(LedgerOf(e), task, [], queues.unconsumed, given, c) {
      if c.ResultCell? {
        HeldContents(e, e', given, sids, c.sid, c.index);
      }
    }
  }

  lemma {:induction false} UpdatedRowsSameKeys(e: Execution, a: Assigned, sids: seq<StateExecutionId>)
    requires (forall sid :: sid in sids ==> sid in a) && UpdateAssignedRows(e, a, sids).Some?
    ensures UpdateAssignedRows(e, a, sids).value.states.Keys == e.states.Keys
  {
    if sids != [] {
      UpdatedRowsSameKeys(e, a, sids[..|sids| - 1]);
    }
  }

  lemma HandingOutMovesIff(e: Execution, task: int, ms: seq<QueuedMessage>, picks: seq<Pick>)
    requires RegisteredMatch(e) && ValidPicks(e.process.queues, ms, picks)
    ensures var (queues, given) := AssignAll(e.process.queues, ms, picks);
      MessagesOnce(PutBack(e, task, ms)) <==>
      ExactlyOnce(WithGiven(LedgerOf(PutBack(e, task, ms)), task, [], queues.unconsumed, given), e.messages.Keys)
  {
    var l := LedgerOf(PutBack(e, task, ms));
    assert ms[..|ms|] == ms && picks[..|ms|] == picks && TaskIds(ms)[|ms|..] == [];
    assert Before(l, task, ms, e.process.queues);
    AssignAllMoves(l, e.messages.Keys, task, ms, e.process.queues, picks, |ms|);
  }

  /** Processing the task neither makes nor heals a double: it moves what the task carries. */
  lemma QueueTxMoves(e: Execution, task: int, ms: seq<QueuedMessage>, picks: seq<Pick>, sids: seq<StateExecutionId>)
    requires Keyed(e) && RegisteredMatch(e) && ValidPicks(e.process.queues, ms, picks)
    requires IsOrder(sids, AssignAll(e.process.queues, ms, picks).1.Keys)
    requires QueueTx(e, task, ms, picks, sids).Some?
    ensures MessagesOnce(QueueTx(e, task, ms, picks, sids).value) <==> MessagesOnce(PutBack(e, task, ms))
  {
    hide AssignAll, QueueTx, ExactlyOnce, RegisteredMatch, Contents;
    GivenRowsExist(e, ms, picks);
    QueueTxLedger(e, task, ms, picks, sids);
    QueueTxKeepsIds(e, task, ms, picks, sids);
    HandingOutMovesIff(e, task, ms, picks);
    var l, e' := LedgerOf(PutBack(e, task, ms)), QueueTx(e, task, ms, picks, sids).value;
    var (queues, given) := AssignAll(e.process.queues, ms, picks);
    SameElsewhere(e, task, ms, queues, given);
    SameLedgerIff(WithGiven(l, task, [], queues.unconsumed, given), LedgerOf(e'), e.messages.Keys);
  }

  lemma SameElsewhere(e: Execution, task: int, ms: seq<QueuedMessage>, queues: Queues, given: Assigned)
    ensures forall c :: WithGiven(LedgerOf(PutBack(e, task, ms)), task, [], queues.unconsumed, given)(c)
                     == CellGiven(LedgerOf(e), task, [], queues.unconsumed, given, c)
  {
  }

  lemma QueueTxKeepsIds(e: Execution, task: int, ms: seq<QueuedMessage>, picks: seq<Pick>, sids: seq<StateExecutionId>)
    requires |picks| == |ms| && IsOrder(sids, AssignAll(e.process.queues, ms, picks).1.Keys)
    requires (forall sid :: sid in sids ==> sid in e.states) && QueueTx(e, task, ms, picks, sids).Some?
    ensures QueueTx(e, task, ms, picks, sids).value.messages == e.messages
  {
    QueueTxRowsHold(e, task, ms, picks, sids);
    hide AssignAll, QueueTx;
  }

  lemma PutBackDoubles(e: Execution, task: int, ms: seq<QueuedMessage>)
    requires MessagesOnce(e) && task !in e.immediate && ms != [] && ms[0].dedupId in e.messages
    ensures !MessagesOnce(PutBack(e, task, ms))
  {
    var l, l', id := LedgerOf(e), LedgerOf(PutBack(e, task, ms)), ms[0].dedupId;
    var c, n :| Holds(l, c, n, id);
    assert c != TaskCell(task) && l'(c) == l(c);
    assert Holds(l', c, n, id) && Holds(l', TaskCell(task), 0, id);
  }

  lemma PuttingNothingBack(e: Execution, task: int)
    requires MessagesOnce(e) && task !in e.immediate
    ensures MessagesOnce(PutBack(e, task, []))
  {
    SameContents(e, PutBack(e, task, []));
  }

  lemma GivenIsKnown(e: Execution, ms: seq<QueuedMessage>, picks: seq<Pick>, sid: StateExecutionId)
    requires RegisteredMatch(e) && Faithful(e) && ValidPicks(e.process.queues, ms, picks)
    requires forall n :: 0 <= n < |ms| ==> ms[n].dedupId in e.messages && e.messages[ms[n].dedupId].queue == ms[n].queue
    requires sid in AssignAll(e.process.queues, ms, picks).1
    ensures Transactions.Known(e.messages, AssignAll(e.process.queues, ms, picks).1[sid])
  {
    hide AssignAll, Faithful, NoLostWakeUp;
    UnconsumedIsFaithful(e);
    AssignAllAssigns(e.process.queues, ms, picks);
    AssignAllFaithful(e.messages, e.process.queues, ms, picks);
    var a := AssignAll(e.process.queues, ms, picks).1;
    forall i, id | i in a[sid] && id in a[sid][i] ensures id in e.messages {
      assert Given(a, sid, i);
    }
  }

  lemma QueueTxNeverFails(
    e: Execution, task: int, ms: seq<QueuedMessage>, picks: seq<Pick>, sids: seq<StateExecutionId>)
    requires RegisteredMatch(e) && Faithful(e) && ValidPicks(e.process.queues, ms, picks)
    requires forall n :: 0 <= n < |ms| ==> ms[n].dedupId in e.messages && e.messages[ms[n].dedupId].queue == ms[n].queue
    requires IsOrder(sids, AssignAll(e.process.queues, ms, picks).1.Keys)
    ensures QueueTx(e, task, ms, picks, sids).Some?
  {
    hide AssignAll, Faithful, RegisteredMatch;
    GivenRowsExist(e, ms, picks);
    var (queues, given) := AssignAll(e.process.queues, ms, picks);
    forall sid | sid in sids ensures Transactions.Known(e.messages, given[sid]) {
      GivenIsKnown(e, ms, picks, sid);
    }
    RowsAlwaysUpdate(e.(process := e.process.(queues := queues)), given, sids);
  }

  /**
   Delivered from the table or once more after it left it, a queue task is always processed, and every
   message is in one place afterwards exactly when the task was still in the table, or carries nothing.
   */
  lemma ArrivalKeepsIff(e: Execution, task: int, ms: seq<QueuedMessage>, picks: seq<Pick>, sids: seq<StateExecutionId>)
    requires Keyed(e) && RegisteredMatch(e) && MessagesOnce(e) && Faithful(e)
    requires task in e.immediate ==> e.immediate[task] == QueueTask(ms)
    requires forall n :: 0 <= n < |ms| ==> ms[n].dedupId in e.messages && e.messages[ms[n].dedupId].queue == ms[n].queue
    requires ValidPicks(e.process.queues, ms, picks)
    requires IsOrder(sids, AssignAll(e.process.queues, ms, picks).1.Keys)
    ensures var r := QueueTx(e, task, ms, picks, sids);
      r.Some? && (MessagesOnce(r.value) <==> task in e.immediate || ms == [])
  {
    hide RegisteredMatch, MessagesOnce, QueueTx, AssignAll, Keyed, Faithful;
    QueueTxNeverFails(e, task, ms, picks, sids);
    QueueTxMoves(e, task, ms, picks, sids);
    if task in e.immediate {
      assert PutBack(e, task, ms) == e;
    } else if ms == [] {
      PuttingNothingBack(e, task);
    } else {
      PutBackDoubles(e, task, ms);
    }
  }
}
