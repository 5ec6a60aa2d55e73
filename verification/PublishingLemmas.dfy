/** Publishing messages, recording visibility and deleting finished tasks keep the invariants. */
module PublishingLemmas {
  import opened Wrappers
  import opened LocalQueues
  import opened ProcessModel
  import opened Invariants
  import opened FrameLemmas
  import opened Ledgers

  /** The accepted messages are those whose dedup id was new, each once, in order. */
  ghost predicate Accepted(
    rows: map<DedupId, MessageRow>, rows': map<DedupId, MessageRow>, accepted: seq<QueuedMessage>)
  {
    && (forall id :: id in rows ==> id in rows' && rows'[id] == rows[id])
    && (forall n :: 0 <= n < |accepted| ==>
          && accepted[n].dedupId !in rows && accepted[n].dedupId in rows'
          && rows'[accepted[n].dedupId].queue == accepted[n].queue)
    && (forall m, n :: 0 <= m < n < |accepted| ==> accepted[m].dedupId != accepted[n].dedupId)
    && (forall id :: id in rows' ==> id in rows || id in TaskIds(accepted))
  }

  /** The rows are the old ones and those of the published messages. */
  ghost predicate RowsOf(rows: map<DedupId, MessageRow>, rows': map<DedupId, MessageRow>, ms: seq<PublishedMessage>) {
    && (forall n :: 0 <= n < |ms| ==> ms[n].dedupId in rows')
    && (forall id :: id in rows' ==> id in rows || exists n :: 0 <= n < |ms| && ms[n].dedupId == id)
  }

  lemma RowsOfOneMore(
    rows: map<DedupId, MessageRow>, before: map<DedupId, MessageRow>, rows': map<DedupId, MessageRow>,
    front: seq<PublishedMessage>, m: PublishedMessage)
    requires RowsOf(rows, before, front)
    requires forall id :: id in rows' <==> id in before || id == m.dedupId
    ensures RowsOf(rows, rows', front + [m])
  {
    forall id | id in rows' && id !in rows
      ensures exists n :: 0 <= n < |front + [m]| && (front + [m])[n].dedupId == id
    {
      if id in before {
        var n :| 0 <= n < |front| && front[n].dedupId == id;
        assert (front + [m])[n].dedupId == id;
      } else {
        assert (front + [m])[|front|].dedupId == id;
      }
    }
  }

  lemma AcceptingOneMore(
    rows: map<DedupId, MessageRow>, before: map<DedupId, MessageRow>, accepted: seq<QueuedMessage>, m: PublishedMessage)
    requires Accepted(rows, before, accepted) && m.dedupId !in before
    ensures Accepted(rows, before[m.dedupId := MessageRow(m.queue, m.payload)],
                     accepted + [QueuedMessage(m.queue, m.dedupId)])
  {
    assert TaskIds(accepted + [QueuedMessage(m.queue, m.dedupId)]) == TaskIds(accepted) + [m.dedupId];
  }

  /** A dedup id that is already there, or repeated, is inserted once: its first message wins. */
  lemma {:induction false} InsertMessagesAccepts(rows: map<DedupId, MessageRow>, ms: seq<PublishedMessage>)
    ensures var (rows', accepted) := InsertMessages(rows, ms);
      Accepted(rows, rows', accepted) && RowsOf(rows, rows', ms)
  {
    if ms != [] {
      var front, m := ms[..|ms| - 1], ms[|ms| - 1];
      InsertMessagesAccepts(rows, front);
      var (before, accepted) := InsertMessages(rows, front);
      assert ms == front + [m];
      hide Accepted, RowsOf;
      RowsOfOneMore(rows, before, InsertMessages(rows, ms).0, front, m);
      if m.dedupId !in before {
        AcceptingOneMore(rows, before, accepted, m);
      }
    }
  }

  /** `e'` is `e` with the messages' rows and one task that carries them. */
  ghost predicate Published(e: Execution, e': Execution, accepted: seq<QueuedMessage>) {
    && accepted != []
    && Accepted(e.messages, e'.messages, accepted)
    && e'.immediate == e.immediate[e.next := QueueTask(accepted)]
    && e'.next == e.next + 1
    && e'.process == e.process && e'.states == e.states && e'.timers == e.timers
  }

  lemma PublishedMessagesOnce(e: Execution, e': Execution, accepted: seq<QueuedMessage>)
    requires Published(e, e', accepted) && Keyed(e) && MessagesOnce(e)
    ensures MessagesOnce(e')
  {
    var l, l', at := LedgerOf(e), LedgerOf(e'), TaskCell(e.next);
    assert l'(at) == TaskIds(accepted);
    forall c | c != at ensures l'(c) == l(c) {
    }
    AddingCell(l, l', at, e.messages.Keys, e'.messages.Keys);
  }

  lemma PublishedFaithful(e: Execution, e': Execution, accepted: seq<QueuedMessage>)
    requires Published(e, e', accepted) && Keyed(e) && Faithful(e)
    ensures Faithful(e')
  {
    forall sid, i | sid in e'.states && i in e'.states[sid].results.queues ensures ResultFaithful(e', sid, i) {
      assert ResultFaithful(e, sid, i);
    }
  }

  /** A task that is no worker task was added, or one that drives nothing is gone; the other tables are the same. */
  ghost predicate SameButTasks(e: Execution, e': Execution, settled: set<int>) {
    && e'.process == e.process && e'.states == e.states && e'.timers == e.timers && e.next <= e'.next
    && (forall t :: t in e'.immediate && t !in e.immediate ==> t == e.next < e'.next && !e'.immediate[t].WorkerTask?)
    && (forall t :: t in e'.immediate && t in e.immediate ==> e'.immediate[t] == e.immediate[t])
    && (forall t :: t in e.immediate && t !in e'.immediate ==> t in settled || !e.immediate[t].WorkerTask?)
  }

  lemma SameButTasksKeeps(e: Execution, e': Execution, settled: set<int>, busy: Option<int>)
    requires SameButTasks(e, e', settled)
    requires Shape(e) && DrivenOnce(e, settled) && WaitsOnce(e, settled)
    requires ExecutesAfterWait(e) && SettledFailed(e, settled, busy)
    ensures Shape(e') && DrivenOnce(e', settled) && WaitsOnce(e', settled)
    ensures ExecutesAfterWait(e') && SettledFailed(e', settled, busy)
    ensures busy.Some? && busy.value !in e'.immediate ==> SettledFailed(e', settled, None)
  {
    assert forall s, t, k :: Drives(e', settled, s, t, k) <==> Drives(e, settled, s, t, k);
    SameDriven(e, e', settled, settled, {});
  }

  lemma SameButTasksWaits(e: Execution, e': Execution, settled: set<int>)
    requires SameButTasks(e, e', settled) && Waits(e) && RegisteredMatch(e) && PendingMatches(e)
    ensures Waits(e') && RegisteredMatch(e') && PendingMatches(e')
  {
    KeepsWaits(e, e');
  }

  lemma PublishKeeps(e: Execution, ms: seq<PublishedMessage>, settled: set<int>, busy: Option<int>)
    requires InvWithin(e, settled, busy)
    ensures InvWithin(Publish(e, ms), settled, busy) && e.next <= Publish(e, ms).next
    ensures Publish(e, ms).process == e.process
  {
    var e' := Publish(e, ms);
    var (rows, accepted) := InsertMessages(e.messages, ms);
    InsertMessagesAccepts(e.messages, ms);
    if accepted == [] {
      assert rows == e.messages;
      assert e' == e;
    } else {
      assert Published(e, e', accepted);
      SameButTasksKeeps(e, e', settled, busy);
      SameButTasksWaits(e, e', settled);
      PublishedMessagesOnce(e, e', accepted);
      PublishedFaithful(e, e', accepted);
    }
  }

  lemma RecordKeeps(e: Execution, status: ProcessStatus, settled: set<int>, busy: Option<int>)
    requires InvWithin(e, settled, busy)
    ensures InvWithin(InsertImmediate(e, VisibilityTask(status)), settled, busy)
  {
    var e' := InsertImmediate(e, VisibilityTask(status));
    assert SameButTasks(e, e', settled) && QueueTasksKept(e, e');
    hide Shape, DrivenOnce, WaitsOnce, ExecutesAfterWait, SettledFailed, Waits, RegisteredMatch, PendingMatches,
      Faithful;
    SameButTasksKeeps(e, e', settled, busy);
    SameButTasksWaits(e, e', settled);
    KeepsMessages(e, e');
  }

  /** The table no longer holds what its transaction has settled. */
  lemma DeletingBusyKeeps(e: Execution, t: int, settled: set<int>)
    requires InvWithin(e, settled, Some(t)) && t in settled
    requires t in e.immediate ==> !e.immediate[t].QueueTask?
    ensures InvWithin(DeleteImmediate(e, t), settled, None)
  {
    var e' := DeleteImmediate(e, t);
    assert SameButTasks(e, e', settled) && QueueTasksKept(e, e');
    hide Shape, DrivenOnce, WaitsOnce, ExecutesAfterWait, SettledFailed, Waits, RegisteredMatch, PendingMatches,
      Faithful;
    SameButTasksKeeps(e, e', settled, Some(t));
    SameButTasksWaits(e, e', settled);
    KeepsMessages(e, e');
  }

  lemma DeletingVisibilityKeeps(e: Execution, t: int, settled: set<int>)
    requires Inv(e, settled) && t in e.immediate && e.immediate[t].VisibilityTask?
    ensures Inv(DeleteImmediate(e, t), settled)
  {
    var e' := DeleteImmediate(e, t);
    assert SameButTasks(e, e', settled) && QueueTasksKept(e, e');
    hide Shape, DrivenOnce, WaitsOnce, ExecutesAfterWait, SettledFailed, Waits, RegisteredMatch, PendingMatches,
      Faithful;
    SameButTasksKeeps(e, e', settled, None);
    SameButTasksWaits(e, e', settled);
    KeepsMessages(e, e');
  }
}
