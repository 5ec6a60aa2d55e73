/** What a decision does, after a state completed or by a remote procedure call, in plain terms. */
module DecisionEffects {
  import opened Wrappers
  import opened StateExecutionIds
  import opened SequenceMaps
  import opened ProcessModel
  import opened Transactions
  import opened Invariants
  import opened ClosingLemmas
  import opened Sessions
  import opened RunTheorems
  import opened ClosingTheorems
  import opened StartEffects
  import opened PublishEffects

  /** Nothing but the ended state was pending, and nothing is started. */
  ghost predicate NothingLeft(e: Execution, ended: Option<StateExecutionId>, d: StateDecision) {
    d.nextStates == [] && forall sid :: IsPending(e.process.sequenceMaps, sid) ==> ended == Some(sid)
  }

  /** A graceful completion asked for before this decision takes effect by it. */
  ghost predicate EndsGracefully(e: Execution, ended: Option<StateExecutionId>, d: StateDecision) {
    e.process.gracefulCompleteRequested && NothingLeft(e, ended, d)
  }

  /** The decision closes the process at once, whatever is pending. */
  ghost predicate Forces(e: Execution, ended: Option<StateExecutionId>, d: StateDecision) {
    (d.close == Some(ForceComplete) || d.close == Some(ForceFail)) && !EndsGracefully(e, ended, d)
  }

  /** Whatever is still active then is aborted. */
  ghost predicate Aborts(e: Execution, ended: Option<StateExecutionId>, d: StateDecision) {
    Forces(e, ended, d) && !NothingLeft(e, ended, d)
  }

  ghost function StatusAfter(e: Execution, ended: Option<StateExecutionId>, d: StateDecision): ProcessStatus {
    if NothingLeft(e, ended, d) && (e.process.gracefulCompleteRequested || d.close == Some(GracefulComplete)) then
      ProcessCompleted
    else if d.close == Some(ForceComplete) then ProcessCompleted
    else if d.close == Some(ForceFail) then ProcessFailed
    else e.process.status
  }

  function AbortedRow(row: StateRow): StateRow {
    row.(status := StateAborted, version := row.version + 1)
  }

  /** The process row: status, the request to complete gracefully, counters and pending states. */
  ghost predicate ProcessDecided(e: Execution, e': Execution, ended: Option<StateExecutionId>, d: StateDecision) {
    var maps := e.process.sequenceMaps;
    && e'.process.status == StatusAfter(e, ended, d)
    && (e'.process.gracefulCompleteRequested <==>
          e.process.gracefulCompleteRequested || d.close == Some(GracefulComplete))
    && e'.process.queues == e.process.queues
    && CountersGrow(maps, e'.process.sequenceMaps, d.nextStates)
    && (forall sid :: IsPending(e'.process.sequenceMaps, sid) <==>
          && !Forces(e, ended, d)
          && ((IsPending(maps, sid) && ended != Some(sid)) || IsNew(maps, d.nextStates, sid)))
  }

  /** The rows there were, but the ended one: all that is active may be aborted. */
  ghost predicate OldRowsDecided(e: Execution, e': Execution, ended: Option<StateExecutionId>, d: StateDecision) {
    forall sid :: sid in e.states && ended != Some(sid) ==>
      && sid in e'.states
      && e'.states[sid] == if Aborts(e, ended, d) && IsActive(e.states[sid].status) then AbortedRow(e.states[sid])
                           else e.states[sid]
  }

  /** Each next state has a new row of its own. */
  ghost predicate NewRowsDecided(e: Execution, e': Execution, ended: Option<StateExecutionId>, d: StateDecision) {
    forall n :: 0 <= n < |d.nextStates| ==>
      var sid, row := IdAt(e.process.sequenceMaps, d.nextStates, n), FreshRow(d.nextStates[n].skipWaitUntil);
      && sid !in e.states && sid in e'.states
      && e'.states[sid] == if Aborts(e, ended, d) then AbortedRow(row) else row
  }

  ghost predicate RowsDecided(e: Execution, e': Execution, ended: Option<StateExecutionId>, d: StateDecision) {
    && OldRowsDecided(e, e', ended, d) && NewRowsDecided(e, e', ended, d)
    && (forall sid :: sid in e'.states ==> sid in e.states || IsNew(e.process.sequenceMaps, d.nextStates, sid))
  }

  ghost predicate EndedAs(e: Execution, e': Execution, sid: StateExecutionId) {
    && sid in e.states && sid in e'.states
    && e'.states[sid] == e.states[sid].(status := StateCompleted, version := e.states[sid].version + 1,
                                         lastFailure := None)
  }

  /** One worker task per next state, one task for what was published, one for a closed process, and `gone` deleted. */
  ghost predicate TasksDecided(
    e: Execution, e': Execution, nexts: seq<NextState>, publish: seq<PublishedMessage>, records: bool, gone: set<int>)
  {
    var k := e.next + |nexts|;
    exists accepted ::
      && AcceptedInOrder(e.messages, publish, accepted)
      && var v := if accepted == [] then k else k + 1;
      && e'.next == (if records then v + 1 else v)
      && (forall t :: t in e'.immediate <==> (t in e.immediate || e.next <= t < e'.next) && t !in gone)
      && (forall t :: t in e'.immediate && t < e.next ==> e'.immediate[t] == e.immediate[t])
      && (forall n :: 0 <= n < |nexts| && e.next + n !in gone ==>
            e'.immediate[e.next + n] == DriverTask(nexts[n].skipWaitUntil, IdAt(e.process.sequenceMaps, nexts, n)))
      && (accepted != [] && k !in gone ==> e'.immediate[k] == QueueTask(accepted))
      && (records && v !in gone ==> e'.immediate[v] == VisibilityTask(e'.process.status))
  }

  // ---------- closing ----------

  /** What closing does to an execution of which nothing, or something, is pending. */
  ghost predicate Closed(e: Execution, e': Execution, close: Option<CloseType>, left: bool) {
    var graceful := e.process.gracefulCompleteRequested;
    var forced := (close == Some(ForceComplete) || close == Some(ForceFail)) && !(graceful && left);
    && e'.process.status == (if left && (graceful || close == Some(GracefulComplete)) then ProcessCompleted
                             else if close == Some(ForceComplete) then ProcessCompleted
                             else if close == Some(ForceFail) then ProcessFailed
                             else e.process.status)
    && (e'.process.gracefulCompleteRequested <==> graceful || close == Some(GracefulComplete))
    && e'.process.queues == e.process.queues
    && e'.process.sequenceMaps.sequence == e.process.sequenceMaps.sequence
    && (forall sid :: IsPending(e'.process.sequenceMaps, sid) <==> !forced && IsPending(e.process.sequenceMaps, sid))
    && (forall sid :: sid in e'.states <==> sid in e.states)
    && (forall sid :: sid in e.states ==>
          e'.states[sid] == if forced && !left && IsActive(e.states[sid].status) then AbortedRow(e.states[sid])
                            else e.states[sid])
    && e'.immediate == e.immediate && e'.timers == e.timers && e'.messages == e.messages && e'.next == e.next
  }

  lemma CloseCloses(e: Execution, close: Option<CloseType>)
    ensures Closed(e, Close(e, close), close, NonePending(e.process.sequenceMaps))
  {
  }

  lemma SameIds(maps: SequenceMaps, maps': SequenceMaps, nexts: seq<NextState>)
    requires maps.sequence == maps'.sequence
    ensures forall n :: 0 <= n < |nexts| ==> IdAt(maps, nexts, n) == IdAt(maps', nexts, n)
    ensures forall sid :: IsNew(maps, nexts, sid) <==> IsNew(maps', nexts, sid)
    ensures forall id :: LastSequence(maps, id) == LastSequence(maps', id)
  {
    forall n | 0 <= n < |nexts| ensures IdAt(maps, nexts, n) == IdAt(maps', nexts, n) {
    }
    forall sid | IsNew(maps, nexts, sid) ensures IsNew(maps', nexts, sid) {
      var n :| 0 <= n < |nexts| && IdAt(maps, nexts, n) == sid;
      assert IdAt(maps', nexts, n) == sid;
    }
    forall sid | IsNew(maps', nexts, sid) ensures IsNew(maps, nexts, sid) {
      var n :| 0 <= n < |nexts| && IdAt(maps', nexts, n) == sid;
      assert IdAt(maps, nexts, n) == sid;
    }
  }

  /** The process row and rows as `finished` has them: the ended state is not pending, and the rest is `e`'s. */
  ghost predicate Ends(e: Execution, finished: Execution, ended: Option<StateExecutionId>) {
    && finished.process.sequenceMaps.sequence == e.process.sequenceMaps.sequence
    && finished.process == e.process.(sequenceMaps := finished.process.sequenceMaps)
    && (forall sid :: IsPending(finished.process.sequenceMaps, sid) <==>
          IsPending(e.process.sequenceMaps, sid) && ended != Some(sid))
    && (forall sid :: sid in finished.states <==> sid in e.states)
    && (forall sid :: sid in e.states && ended != Some(sid) ==> finished.states[sid] == e.states[sid])
    && (ended.Some? ==> EndedAs(e, finished, ended.value))
    && finished.immediate == e.immediate && finished.messages == e.messages && finished.next == e.next
  }

  lemma ClosingDecides(
    e: Execution, finished: Execution, started: Execution, e': Execution, ended: Option<StateExecutionId>,
    d: StateDecision)
    requires Ends(e, finished, ended) && AllStarted(finished, started, d.nextStates)
    requires Closed(started, e', d.close, NothingLeft(e, ended, d))
    ensures ProcessDecided(e, e', ended, d)
  {
    SameIds(finished.process.sequenceMaps, e.process.sequenceMaps, d.nextStates);
    CountersFollow(e.process.sequenceMaps, finished.process.sequenceMaps, started.process.sequenceMaps,
                   e'.process.sequenceMaps, d.nextStates);
    hide IdAt, IsNew, Times, NothingLeft, RowsStart, TasksStart, CountersGrow, EndedAs, IsPending, LastSequence;
    ClosingPending(e, finished, started, e', ended, d);
    hide PendingGrows;
  }

  lemma ClosingPending(
    e: Execution, finished: Execution, started: Execution, e': Execution, ended: Option<StateExecutionId>,
    d: StateDecision)
    requires Ends(e, finished, ended) && PendingGrows(finished, started, d.nextStates)
    requires started.process == finished.process.(sequenceMaps := started.process.sequenceMaps)
    requires Closed(started, e', d.close, NothingLeft(e, ended, d))
    ensures forall sid :: IsPending(e'.process.sequenceMaps, sid) <==>
              && !Forces(e, ended, d)
              && ((IsPending(e.process.sequenceMaps, sid) && ended != Some(sid)) ||
                  IsNew(e.process.sequenceMaps, d.nextStates, sid))
  {
    SameIds(finished.process.sequenceMaps, e.process.sequenceMaps, d.nextStates);
    hide IdAt, IsNew, NothingLeft, EndedAs, IsPending, LastSequence;
  }

  lemma CountersFollow(
    maps: SequenceMaps, maps1: SequenceMaps, maps2: SequenceMaps, maps3: SequenceMaps, nexts: seq<NextState>)
    requires maps1.sequence == maps.sequence && CountersGrow(maps1, maps2, nexts) && maps3.sequence == maps2.sequence
    ensures CountersGrow(maps, maps3, nexts)
  {
    hide Times;
    forall id ensures LastSequence(maps3, id) == LastSequence(maps, id) + Times(nexts, id) {
      assert LastSequence(maps2, id) == LastSequence(maps1, id) + Times(nexts, id);
    }
  }

  lemma ClosingOldRows(
    e: Execution, finished: Execution, started: Execution, e': Execution, ended: Option<StateExecutionId>,
    d: StateDecision)
    requires Ends(e, finished, ended) && RowsStart(finished, started, d.nextStates)
    requires started.process.gracefulCompleteRequested == e.process.gracefulCompleteRequested
    requires Closed(started, e', d.close, NothingLeft(e, ended, d))
    ensures OldRowsDecided(e, e', ended, d) && (ended.Some? ==> EndedAs(e, e', ended.value))
  {
    hide IdAt, NothingLeft, IsPending, IsNew;
  }

  lemma ClosingOneRow(
    e: Execution, started: Execution, e': Execution, ended: Option<StateExecutionId>, d: StateDecision,
    sid: StateExecutionId, skip: bool)
    requires sid in started.states && started.states[sid] == FreshRow(skip)
    requires started.process.gracefulCompleteRequested == e.process.gracefulCompleteRequested
    requires Closed(started, e', d.close, NothingLeft(e, ended, d))
    ensures sid in e'.states
    ensures e'.states[sid] == if Aborts(e, ended, d) then AbortedRow(FreshRow(skip)) else FreshRow(skip)
  {
    hide NothingLeft, IsPending;
  }

  lemma ClosingNewRows(
    e: Execution, finished: Execution, started: Execution, e': Execution, ended: Option<StateExecutionId>,
    d: StateDecision)
    requires Ends(e, finished, ended) && RowsStart(finished, started, d.nextStates)
    requires started.process.gracefulCompleteRequested == e.process.gracefulCompleteRequested
    requires Closed(started, e', d.close, NothingLeft(e, ended, d))
    ensures NewRowsDecided(e, e', ended, d)
  {
    hide IdAt, NothingLeft, IsPending, IsNew, EndedAs, Closed, Aborts;
    SameIds(finished.process.sequenceMaps, e.process.sequenceMaps, d.nextStates);
    forall n | 0 <= n < |d.nextStates|
      ensures var sid := IdAt(e.process.sequenceMaps, d.nextStates, n);
        && sid !in e.states && sid in e'.states
        && e'.states[sid] == if Aborts(e, ended, d) then AbortedRow(FreshRow(d.nextStates[n].skipWaitUntil))
                             else FreshRow(d.nextStates[n].skipWaitUntil)
    {
      ClosingOneRow(e, started, e', ended, d, IdAt(finished.process.sequenceMaps, d.nextStates, n),
                    d.nextStates[n].skipWaitUntil);
    }
  }

  lemma ClosingAddsNoRow(
    e: Execution, finished: Execution, started: Execution, e': Execution, ended: Option<StateExecutionId>,
    d: StateDecision)
    requires Ends(e, finished, ended) && RowsStart(finished, started, d.nextStates)
    requires Closed(started, e', d.close, NothingLeft(e, ended, d))
    ensures forall sid :: sid in e'.states ==> sid in e.states || IsNew(e.process.sequenceMaps, d.nextStates, sid)
  {
    hide IdAt, NothingLeft, IsPending, IsNew, EndedAs;
    SameIds(finished.process.sequenceMaps, e.process.sequenceMaps, d.nextStates);
  }

  lemma ClosingRows(
    e: Execution, finished: Execution, started: Execution, e': Execution, ended: Option<StateExecutionId>,
    d: StateDecision)
    requires Ends(e, finished, ended) && AllStarted(finished, started, d.nextStates)
    requires Closed(started, e', d.close, NothingLeft(e, ended, d))
    ensures RowsDecided(e, e', ended, d) && (ended.Some? ==> EndedAs(e, e', ended.value))
  {
    hide Closed, NothingLeft, OldRowsDecided, NewRowsDecided, RowsStart, IsNew, EndedAs, TasksStart, PendingGrows;
    ClosingOldRows(e, finished, started, e', ended, d);
    ClosingNewRows(e, finished, started, e', ended, d);
    ClosingAddsNoRow(e, finished, started, e', ended, d);
  }

  lemma NewRowsAreNew(e: Execution, e': Execution, nexts: seq<NextState>)
    requires RowsStart(e, e', nexts)
    ensures forall sid :: IsNew(e.process.sequenceMaps, nexts, sid) ==> sid in e'.states
  {
  }

  // ---------- the whole transaction ----------

  lemma NothingPendsIff(e: Execution, finished: Execution, started: Execution, ended: Option<StateExecutionId>,
                        d: StateDecision)
    requires Ends(e, finished, ended) && AllStarted(finished, started, d.nextStates) && SequencesExact(started)
    ensures NonePending(started.process.sequenceMaps) <==> NothingLeft(e, ended, d)
  {
    NonePendingIsExact(started.process.sequenceMaps);
    hide RowsStart, TasksStart, CountersGrow, EndedAs, IdAt, LastSequence, IsPending;
    if d.nextStates != [] {
      assert IsNew(finished.process.sequenceMaps, d.nextStates, IdAt(finished.process.sequenceMaps, d.nextStates, 0));
    }
  }

  lemma StateEnds(e: Execution, sid: StateExecutionId, version: int)
    requires SequencesExact(e) && FinishState(e, sid, version, StateCompleted, None).Some?
    ensures var finished := FinishState(e, sid, version, StateCompleted, None).value;
      && Ends(e, finished, Some(sid)) && SequencesExact(finished) && finished.timers == e.timers
  {
    FinishStateFinishes(e, sid, version, StateCompleted, None);
    hide SequencesExact, IsPending;
  }

  lemma NobodyEnds(e: Execution)
    ensures Ends(e, e, None)
  {
  }

  /** The decision alone, after the state ended. */
  ghost predicate Decided(e: Execution, e1: Execution, ended: Option<StateExecutionId>, d: StateDecision) {
    && ProcessDecided(e, e1, ended, d) && RowsDecided(e, e1, ended, d)
    && (ended.Some? ==> EndedAs(e, e1, ended.value))
    && TasksStart(e, e1, d.nextStates) && e1.timers == e.timers && e1.messages == e.messages
  }

  lemma TasksOfEnded(e: Execution, finished: Execution, started: Execution, e1: Execution, nexts: seq<NextState>)
    requires finished.process.sequenceMaps.sequence == e.process.sequenceMaps.sequence
    requires finished.immediate == e.immediate && finished.next == e.next && TasksStart(finished, started, nexts)
    requires e1.immediate == started.immediate && e1.next == started.next
    ensures TasksStart(e, e1, nexts)
  {
    SameIds(finished.process.sequenceMaps, e.process.sequenceMaps, nexts);
    hide IdAt;
  }

  lemma Deciding(e: Execution, finished: Execution, ended: Option<StateExecutionId>, d: StateDecision)
    requires Ends(e, finished, ended) && SequencesExact(finished) && finished.timers == e.timers
    ensures HandleStateDecision(finished, d).Some?
    ensures Decided(e, HandleStateDecision(finished, d).value, ended, d)
  {
    hide SequencesExact, Ends, AllStarted, NothingLeft, Closed, Close, StartStates;
    hide ProcessDecided, RowsDecided, EndedAs;
    StartingAll(finished, d.nextStates);
    var started := StartStates(finished, d.nextStates).value;
    NothingPendsIff(e, finished, started, ended, d);
    CloseCloses(started, d.close);
    var e1 := Close(started, d.close);
    ClosingDecides(e, finished, started, e1, ended, d);
    ClosingRows(e, finished, started, e1, ended, d);
    EndsAndStarts(e, finished, started, e1, ended, d);
    TasksOfEnded(e, finished, started, e1, d.nextStates);
  }

  lemma EndsAndStarts(
    e: Execution, finished: Execution, started: Execution, e1: Execution, ended: Option<StateExecutionId>,
    d: StateDecision)
    requires Ends(e, finished, ended) && AllStarted(finished, started, d.nextStates)
    requires Closed(started, e1, d.close, NothingLeft(e, ended, d)) && finished.timers == e.timers
    ensures finished.process.sequenceMaps.sequence == e.process.sequenceMaps.sequence
    ensures finished.immediate == e.immediate && finished.next == e.next && TasksStart(finished, started, d.nextStates)
    ensures e1.immediate == started.immediate && e1.next == started.next
    ensures e1.timers == e.timers && e1.messages == e.messages
  {
    hide NothingLeft, TasksStart, RowsStart, CountersGrow, PendingGrows, EndedAs, IsPending;
  }

  /** Everything that the transaction of a decision does. */
  ghost predicate DecisionTaken(
    e: Execution, e': Execution, ended: Option<StateExecutionId>, d: StateDecision, publish: seq<PublishedMessage>,
    records: bool, gone: set<int>)
  {
    && ProcessDecided(e, e', ended, d) && RowsDecided(e, e', ended, d)
    && (ended.Some? ==> EndedAs(e, e', ended.value))
    && TasksDecided(e, e', d.nextStates, publish, records, gone)
    && RowsInserted(e.messages, e'.messages, publish) && e'.timers == e.timers
  }

  lemma SameRowsDecided(
    e: Execution, e1: Execution, e': Execution, ended: Option<StateExecutionId>, d: StateDecision)
    requires ProcessDecided(e, e1, ended, d) && RowsDecided(e, e1, ended, d)
    requires ended.Some? ==> EndedAs(e, e1, ended.value)
    requires e'.process == e1.process && e'.states == e1.states
    ensures ProcessDecided(e, e', ended, d) && RowsDecided(e, e', ended, d)
    ensures ended.Some? ==> EndedAs(e, e', ended.value)
  {
    hide NothingLeft, IsNew, IdAt, CountersGrow, IsPending;
  }

  /** After the decision: the messages, the record of a closed process, and the task's deletion. */
  lemma TasksFollow(
    e: Execution, e1: Execution, e2: Execution, e': Execution, d: StateDecision, publish: seq<PublishedMessage>,
    records: bool, gone: set<int>)
    requires TasksStart(e, e1, d.nextStates) && e1.messages == e.messages && AllPublished(e1, e2, publish)
    requires forall t :: t in e.immediate ==> t < e.next
    requires e'.process == e2.process && e'.next == (if records then e2.next + 1 else e2.next)
    requires e'.immediate
          == (if records then e2.immediate[e2.next := VisibilityTask(e2.process.status)] else e2.immediate) - gone
    ensures TasksDecided(e, e', d.nextStates, publish, records, gone)
  {
    hide IdAt, AcceptedInOrder, RowsInserted;
    var accepted :|
      && AcceptedInOrder(e1.messages, publish, accepted)
      && e2.immediate == (if accepted == [] then e1.immediate else e1.immediate[e1.next := QueueTask(accepted)])
      && e2.next == (if accepted == [] then e1.next else e1.next + 1);
  }

  lemma DecisionFollowed(
    e: Execution, e1: Execution, e2: Execution, e': Execution, ended: Option<StateExecutionId>, d: StateDecision,
    publish: seq<PublishedMessage>, records: bool, gone: set<int>)
    requires Decided(e, e1, ended, d) && AllPublished(e1, e2, publish) && forall t :: t in e.immediate ==> t < e.next
    requires e'.process == e2.process && e'.states == e2.states && e'.timers == e2.timers && e'.messages == e2.messages
    requires e'.next == (if records then e2.next + 1 else e2.next)
    requires e'.immediate
          == (if records then e2.immediate[e2.next := VisibilityTask(e2.process.status)] else e2.immediate) - gone
    ensures DecisionTaken(e, e', ended, d, publish, records, gone)
  {
    hide ProcessDecided, RowsDecided, EndedAs, TasksStart, RowsInserted, TasksDecided, AcceptedInOrder;
    SameRowsDecided(e, e1, e', ended, d);
    TasksFollow(e, e1, e2, e', d, publish, records, gone);
  }

  lemma CompleteExecuteDecides(
    e: Execution, task: int, sid: StateExecutionId, version: int, d: StateDecision, publish: seq<PublishedMessage>)
    requires SequencesExact(e) && Keyed(e) && CompleteExecuteTx(e, task, sid, version, d, publish).Some?
    ensures var e' := CompleteExecuteTx(e, task, sid, version, d, publish).value;
      DecisionTaken(e, e', Some(sid), d, publish, !e'.process.status.Running?, {task})
  {
    hide SequencesExact, FinishState, HandleStateDecision, Publish, Decided, AllPublished, Ends;
    StateEnds(e, sid, version);
    var finished := FinishState(e, sid, version, StateCompleted, None).value;
    Deciding(e, finished, Some(sid), d);
    var e1 := HandleStateDecision(finished, d).value;
    PublishingAll(e1, publish);
    var e', e2 := CompleteExecuteTx(e, task, sid, version, d, publish).value, Publish(e1, publish);
    assert e' == DeleteImmediate(RecordIfClosed(e2), task);
    DecisionFollowed(e, e1, e2, e', Some(sid), d, publish, !e'.process.status.Running?, {task});
  }

  lemma RpcDecides(e: Execution, d: StateDecision, publish: seq<PublishedMessage>)
    requires SequencesExact(e) && Keyed(e) && e.process.status.Running?
    ensures RpcTx(e, d, publish).Some?
    ensures DecisionTaken(e, RpcTx(e, d, publish).value, None, d, publish, false, {})
  {
    hide SequencesExact, HandleStateDecision, Publish, Decided, AllPublished, Ends;
    NobodyEnds(e);
    Deciding(e, e, None, d);
    var e1 := HandleStateDecision(e, d).value;
    PublishingAll(e1, publish);
    var e2 := Publish(e1, publish);
    DecisionFollowed(e, e1, e2, RpcTx(e, d, publish).value, None, d, publish, false, {});
  }

  /**
   What completing a state does, at any point of any run: the state completed; every next state has its own new
   row under the sequence that its position gives, its task, and its place among the pending states; the process
   closes as decided, and then nothing else is active; every message is accepted in order.  Nothing else happens.
   */
  lemma CompletingTakesEffect(states: seq<Session>, steps: seq<Step>, n: nat)
    requires IsRun(states, steps) && n < |steps| && steps[n].CompleteExecute? && Commits(states[n], steps[n])
    ensures var step, e' := steps[n], states[n + 1].e;
      DecisionTaken(states[n].e, e', Some(step.p.sid), step.decision, step.publish, !e'.process.status.Running?,
                    {step.p.task})
  {
    hide Inv, SequencesExact, Keyed, CompleteExecuteTx, DecisionTaken;
    AlwaysInv(states, steps, n);
    InvHasSequences(states[n].e, states[n].settled);
    InvHasKeys(states[n].e, states[n].settled);
    var p := steps[n].p;
    CompleteExecuteDecides(states[n].e, p.task, p.sid, p.version, steps[n].decision, steps[n].publish);
  }

  /** The same for a remote procedure call on a running process, where no state ends; a closed one is left alone. */
  lemma CallingTakesEffect(states: seq<Session>, steps: seq<Step>, n: nat)
    requires IsRun(states, steps) && n < |steps| && steps[n].Rpc?
    ensures if states[n].e.process.status.Running? then
              DecisionTaken(states[n].e, states[n + 1].e, None, steps[n].decision, steps[n].publish, false, {})
            else states[n + 1].e == states[n].e
  {
    hide Inv, SequencesExact, Keyed, DecisionTaken;
    AlwaysInv(states, steps, n);
    InvHasSequences(states[n].e, states[n].settled);
    InvHasKeys(states[n].e, states[n].settled);
    if states[n].e.process.status.Running? {
      RpcDecides(states[n].e, steps[n].decision, steps[n].publish);
      hide RpcTx;
    }
  }
}
