/** Changes that leave a part of the rows alone keep the invariants about that part. */
module FrameLemmas {
  import opened StateExecutionIds
  import opened ProcessModel
  import opened Invariants
  import opened Ledgers

  /** Rows that were there keep their requests and results, and new rows have no results. */
  ghost predicate ResultsKept(e: Execution, e': Execution) {
    && (forall sid :: sid in e.states ==>
          sid in e'.states && e'.states[sid].request == e.states[sid].request
          && e'.states[sid].results.queues == e.states[sid].results.queues)
    && (forall sid :: sid in e'.states && sid !in e.states ==> e'.states[sid].results == NO_RESULTS)
  }

  ghost predicate QueueTasksKept(e: Execution, e': Execution) {
    && (forall t :: t in e.immediate && e.immediate[t].QueueTask? ==>
          t in e'.immediate && e'.immediate[t] == e.immediate[t])
    && (forall t :: t in e'.immediate && e'.immediate[t].QueueTask? ==>
          t in e.immediate && e'.immediate[t] == e.immediate[t])
  }

  lemma SameContents(e: Execution, e': Execution)
    requires MessagesOnce(e) && e'.messages == e.messages
    requires forall c :: Contents(e', c) == Contents(e, c)
    ensures MessagesOnce(e')
  {
    SameLedger(LedgerOf(e), LedgerOf(e'), e.messages.Keys);
  }

  lemma KeepsMessages(e: Execution, e': Execution)
    requires MessagesOnce(e) && Faithful(e)
    requires e'.messages == e.messages && e'.process.queues.unconsumed == e.process.queues.unconsumed
    requires ResultsKept(e, e') && QueueTasksKept(e, e')
    ensures MessagesOnce(e') && Faithful(e')
  {
    forall sid, i | sid in e'.states && i in e'.states[sid].results.queues ensures ResultFaithful(e', sid, i) {
      assert sid in e.states && ResultFaithful(e, sid, i);
    }
    SameContents(e, e');
  }

  lemma KeepsRegistered(e: Execution, e': Execution)
    requires RegisteredMatch(e)
    requires e'.process.queues == e.process.queues && ResultsKept(e, e')
    ensures RegisteredMatch(e')
  {
  }

  /** The waiting rows, their timers and their registered commands are the same. */
  ghost predicate WaitingKept(e: Execution, e': Execution) {
    && (forall sid :: sid in e.states && e.states[sid].status.WaitUntilWaiting? ==>
          sid in e'.states && e'.states[sid] == e.states[sid])
    && (forall sid :: sid in e'.states && e'.states[sid].status.WaitUntilWaiting? ==>
          sid in e.states && e'.states[sid] == e.states[sid])
    && (forall sid, i, t :: Resolves(e', sid, i, t) <==> Resolves(e, sid, i, t))
    && e'.process.queues == e.process.queues
  }

  lemma KeepsWaits(e: Execution, e': Execution)
    requires Waits(e) && WaitingKept(e, e')
    requires e'.process.status.Running? ==> e.process.status.Running?
    ensures Waits(e')
  {
    if e'.process.status.Running? {
      forall sid | sid in e'.states && e'.states[sid].status.WaitUntilWaiting? ensures WaitsForTheRest(e', sid) {
        assert WaitsForTheRest(e, sid);
        SameTimed(e, e');
      }
    }
  }

  lemma SameTimed(e: Execution, e': Execution)
    requires forall sid, i, t :: Resolves(e, sid, i, t) ==> Resolves(e', sid, i, t)
    ensures forall sid, i :: Timed(e, sid, i) ==> Timed(e', sid, i)
  {
    forall sid, i | Timed(e, sid, i) ensures Timed(e', sid, i) {
      var t :| Resolves(e, sid, i, t);
      assert Resolves(e', sid, i, t);
    }
  }

  /** Drivers that stay keep their states driven; `but` is excepted. */
  lemma SameDriven(e: Execution, e': Execution, settled: set<int>, settled': set<int>, but: set<StateExecutionId>)
    requires forall s, t, k :: s !in but && Drives(e, settled, s, t, k) ==> Drives(e', settled', s, t, k)
    ensures forall s, k :: s !in but && Driven(e, settled, s, k) ==> Driven(e', settled', s, k)
  {
    forall s, k | s !in but && Driven(e, settled, s, k) ensures Driven(e', settled', s, k) {
      var t :| Drives(e, settled, s, t, k);
      assert Drives(e', settled', s, t, k);
    }
  }
}
