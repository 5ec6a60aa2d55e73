/** Starting to wait keeps the invariants, whatever order the new commands are tried in. */
module WaitingLemmas {
  import opened Wrappers
  import opened StateExecutionIds
  import opened LocalQueues
  import opened LocalQueueTheorems
  import opened ProcessModel
  import opened Transactions
  import opened Invariants
  import opened FrameLemmas
  import opened Ledgers
  import opened ConsumingLemmas

  // ---------- registering and consuming ----------

  function CommandMap(request: CommandRequest): map<int, Command> {
    map i | 0 <= i < |request.queueCommands| :: Normalize(request.queueCommands[i])
  }

  ghost predicate QueuesFaithful(messages: map<DedupId, MessageRow>, u: Unconsumed) {
    forall q, id :: id in Waiting(u, q) ==> id in messages && messages[id].queue == q
  }

  ghost predicate ConsumedFaithful(
    messages: map<DedupId, MessageRow>, request: CommandRequest, consumed: map<int, seq<DedupId>>)
  {
    && (forall i :: i in consumed ==> 0 <= i < |request.queueCommands|)
    && (forall i :: i in consumed ==> |consumed[i]| == Normalize(request.queueCommands[i]).count)
    && (forall i, id :: i in consumed && id in consumed[i] ==>
          id in messages && messages[id].queue == request.queueCommands[i].queue)
  }

  lemma UnconsumedIsFaithful(e: Execution)
    requires Faithful(e)
    ensures QueuesFaithful(e.messages, e.process.queues.unconsumed)
  {
    var u := e.process.queues.unconsumed;
    forall q, id | id in Waiting(u, q) ensures id in e.messages && e.messages[id].queue == q {
      var n :| 0 <= n < |u[q]| && u[q][n] == id;
    }
  }

  lemma FreshCommands(s: Queues, sid: StateExecutionId, request: CommandRequest)
    requires sid !in s.commands
    ensures AddCommands(s, sid, request.queueCommands).commands[sid] == CommandMap(request)
    ensures CommandMap(request) == map[] <==> request.queueCommands == []
  {
    assert map[] + CommandMap(request) == CommandMap(request);
    if request.queueCommands != [] {
      assert 0 in CommandMap(request);
    } else {
      assert CommandMap(request) == map[];
    }
  }

  lemma NothingRegistered(s: Queues, sid: StateExecutionId, w: WaitingType)
    requires sid !in s.commands
    ensures RegisterOutcome(s, sid, map[], w, s, map[])
  {
  }

  lemma RegisterQueues(s: Queues, sid: StateExecutionId, request: CommandRequest, order: seq<int>)
    requires Positive(s) && NoLostWakeUp(s) && NoEmptyEntries(s) && sid !in s.commands
    requires OrderFor(s, sid, request, order)
    ensures var (s', consumed) := RegisterCommands(s, sid, request, order);
      && Positive(s') && NoLostWakeUp(s') && NoEmptyEntries(s')
      && RegisterOutcome(s, sid, CommandMap(request), request.waitingType, s', consumed)
  {
    FreshCommands(s, sid, request);
    if request.queueCommands == [] {
      NothingRegistered(s, sid, request.waitingType);
    } else {
      RegisterKeepsNoLostWakeUp(s, sid, request.queueCommands, request.waitingType, order);
    }
  }

  /** The messages a loop over the request's commands consumes, seen from the ledger. */
  ghost predicate Took(
    messages: map<DedupId, MessageRow>, l: Ledger, sid: StateExecutionId, request: CommandRequest,
    u: Unconsumed, consumed: map<int, seq<DedupId>>)
  {
    && ExactlyOnce(WithQueues(l, u, sid, consumed), messages.Keys)
    && QueuesFaithful(messages, u)
    && (forall i, id :: i in consumed && id in consumed[i] ==>
          && id in messages && 0 <= i < |request.queueCommands|
          && messages[id].queue == request.queueCommands[i].queue)
  }

  lemma LoopTook(
    messages: map<DedupId, MessageRow>, l: Ledger, u: Unconsumed,
    sid: StateExecutionId, request: CommandRequest, order: seq<int>)
    requires IsOrder(order, CommandMap(request).Keys)
    requires QueuesFaithful(messages, u) && ExactlyOnce(l, messages.Keys)
    requires forall q :: l(QueueCell(q)) == Waiting(u, q)
    requires forall i :: l(ResultCell(sid, i)) == []
    ensures var p := VisitAll(CommandMap(request), u, request.waitingType, order);
      Took(messages, l, sid, request, p.unconsumed, p.consumed)
  {
    VisitAllFromQueues(CommandMap(request), u, request.waitingType, order);
    VisitAllMoves(l, messages.Keys, sid, CommandMap(request), u, request.waitingType, order);
  }

  lemma RegisterMessages(
    messages: map<DedupId, MessageRow>, l: Ledger,
    s: Queues, sid: StateExecutionId, request: CommandRequest, order: seq<int>)
    requires sid !in s.commands
    requires OrderFor(s, sid, request, order)
    requires QueuesFaithful(messages, s.unconsumed) && ExactlyOnce(l, messages.Keys)
    requires forall q :: l(QueueCell(q)) == Waiting(s.unconsumed, q)
    requires forall i :: l(ResultCell(sid, i)) == []
    ensures var (s', consumed) := RegisterCommands(s, sid, request, order);
      Took(messages, l, sid, request, s'.unconsumed, consumed)
  {
    FreshCommands(s, sid, request);
    hide ExactlyOnce, QueuesFaithful;
    if request.queueCommands == [] {
      SameLedger(l, WithQueues(l, s.unconsumed, sid, map[]), messages.Keys);
    } else {
      LoopTook(messages, l, s.unconsumed, sid, request, order);
    }
  }

  // ---------- the command timers ----------

  /** One timer per delay, at consecutive keys. */
  lemma {:induction false} InsertCommandTimersInserts(
    e: Execution, sid: StateExecutionId, delays: seq<int>, now: Readings)
    ensures var e' := InsertCommandTimers(e, sid, delays, now);
      && e' == e.(timers := e'.timers, next := e.next + |delays|)
      && (forall t :: t in e'.timers <==> t in e.timers || e.next <= t < e'.next)
      && (forall t :: t in e.timers && t < e.next ==> e'.timers[t] == e.timers[t])
      && (forall t :: e.next <= t < e'.next ==>
            var delay := delays[t - e.next];
            e'.timers[t] == CommandTimer(now(t - e.next) + (if delay < 0 then 0 else delay), sid, t - e.next))
  {
    if delays != [] {
      InsertCommandTimersInserts(e, sid, delays[..|delays| - 1], now);
    }
  }

  /** The unfenced update is the row's change, and then only timers. */
  lemma UpdateWaitUntilIs(e: Execution, sid: StateExecutionId, request: CommandRequest, order: seq<int>, now: Readings)
    requires OrderFor(e.process.queues, sid, request, order) && UpdateWaitUntil(e, sid, request, order, now).Some?
    ensures var (queues, consumed) := RegisterCommands(e.process.queues, sid, request, order);
      && sid in e.states && Known(e.messages, consumed)
      && var updated := RowWaits(e, sid, request, queues, AddConsumed(e.messages, e.states[sid].results, consumed));
      var e' := UpdateWaitUntil(e, sid, request, order, now).value;
      e' == updated.(timers := e'.timers, next := e'.next)
  {
    var (queues, consumed) := RegisterCommands(e.process.queues, sid, request, order);
    var updated := RowWaits(e, sid, request, queues, AddConsumed(e.messages, e.states[sid].results, consumed));
    hide RegisterCommands, RowWaits, AddConsumed;
    InsertCommandTimersInserts(updated, sid, request.timerDelays, now);
  }

  // ---------- the row, its timers and its driver ----------

  /** `e'` is `e` after the state started to wait for `request`, or after it found everything it asked for. */
  ghost predicate WaitStarted(
    e: Execution, e': Execution, sid: StateExecutionId, request: CommandRequest, queues: Queues,
    consumed: map<int, seq<DedupId>>, completed: bool)
  {
    && sid in e.states && Known(e.messages, consumed)
    && sid in e'.states && e'.states == e.states[sid := e'.states[sid]]
    && e'.states[sid] == StateRow(if completed then ExecuteRunning else WaitUntilWaiting, e.states[sid].version + 1,
                                  request, AddConsumed(e.messages, NO_RESULTS, consumed), None)
    && e'.process == e.process.(queues := if completed then Cleanup(queues, sid) else queues)
    && e'.immediate == (if completed then e.immediate[e.next := WorkerTask(ExecuteKind, sid)] else e.immediate)
    && e'.messages == e.messages
    && var base := if completed then e.next + 1 else e.next;
    && e'.next == base + |request.timerDelays|
    && (forall t :: t in e'.timers <==> t in e.timers || base <= t < e'.next)
    && (forall t :: t in e.timers ==> e'.timers[t] == e.timers[t])
    && (forall t :: base <= t < e'.next ==>
          e'.timers[t].CommandTimer? && e'.timers[t].sid == sid && e'.timers[t].index == t - base)
  }

  ghost predicate WaitTask(e: Execution, settled: set<int>, t: int, sid: StateExecutionId) {
    t in e.immediate && t !in settled && e.immediate[t] == WorkerTask(WaitUntilKind, sid)
  }

  /** What registering guarantees about the queues and the consumed messages. */
  ghost predicate WaitOutcome(
    e: Execution, sid: StateExecutionId, request: CommandRequest, queues: Queues, consumed: map<int, seq<DedupId>>)
  {
    && Positive(queues) && NoLostWakeUp(queues) && NoEmptyEntries(queues)
    && RegisterOutcome(e.process.queues, sid, CommandMap(request), request.waitingType, queues, consumed)
    && ConsumedFaithful(e.messages, request, consumed)
    && QueuesFaithful(e.messages, queues.unconsumed)
    && ExactlyOnce(WithQueues(LedgerOf(e), queues.unconsumed, sid, consumed), e.messages.Keys)
  }

  lemma WaitOutcomeHolds(e: Execution, sid: StateExecutionId, request: CommandRequest, order: seq<int>)
    requires RegisteredMatch(e) && MessagesOnce(e) && Faithful(e) && NotWaitedYet(e, sid)
    requires OrderFor(e.process.queues, sid, request, order)
    ensures var (queues, consumed) := RegisterCommands(e.process.queues, sid, request, order);
      WaitOutcome(e, sid, request, queues, consumed) && Known(e.messages, consumed)
  {
    var (queues, consumed) := RegisterCommands(e.process.queues, sid, request, order);
    WaitTook(e, sid, request, order);
    RegisterQueues(e.process.queues, sid, request, order);
    OutcomeFrom(e, sid, request, queues, consumed);
  }

  lemma OutcomeFrom(
    e: Execution, sid: StateExecutionId, request: CommandRequest, queues: Queues, consumed: map<int, seq<DedupId>>)
    requires Took(e.messages, LedgerOf(e), sid, request, queues.unconsumed, consumed)
    requires Positive(queues) && NoLostWakeUp(queues) && NoEmptyEntries(queues)
    requires RegisterOutcome(e.process.queues, sid, CommandMap(request), request.waitingType, queues, consumed)
    ensures WaitOutcome(e, sid, request, queues, consumed) && Known(e.messages, consumed)
  {
    forall i | i in consumed
      ensures 0 <= i < |request.queueCommands| && |consumed[i]| == Normalize(request.queueCommands[i]).count
    {
      assert i in CommandMap(request);
    }
  }

  lemma WaitTook(e: Execution, sid: StateExecutionId, request: CommandRequest, order: seq<int>)
    requires MessagesOnce(e) && Faithful(e) && NotWaitedYet(e, sid)
    requires OrderFor(e.process.queues, sid, request, order)
    ensures var (queues, consumed) := RegisterCommands(e.process.queues, sid, request, order);
      Took(e.messages, LedgerOf(e), sid, request, queues.unconsumed, consumed)
  {
    UnconsumedIsFaithful(e);
    RegisterMessages(e.messages, LedgerOf(e), e.process.queues, sid, request, order);
  }

  lemma StartWaitingStarts(
    e: Execution, sid: StateExecutionId, request: CommandRequest,
    queues: Queues, consumed: map<int, seq<DedupId>>, now: Readings)
    requires Keyed(e) && sid in e.states && e.states[sid].results == NO_RESULTS && Known(e.messages, consumed)
    ensures WaitStarted(e, StartWaiting(e, sid, request, queues, consumed, now), sid, request, queues, consumed,
                        request.queueCommands != [] &&
                        Completed(request, AddConsumed(e.messages, NO_RESULTS, consumed)))
  {
    var updated := RowWaits(e, sid, request, queues, AddConsumed(e.messages, NO_RESULTS, consumed));
    InsertCommandTimersInserts(updated, sid, request.timerDelays, now);
  }

  lemma WaitStartedDrives(
    e: Execution, e': Execution, sid: StateExecutionId, request: CommandRequest, queues: Queues,
    consumed: map<int, seq<DedupId>>, completed: bool, settled: set<int>, t: int)
    requires WaitStarted(e, e', sid, request, queues, consumed, completed)
    requires WaitTask(e, settled, t, sid) && Keyed(e) && e.next !in settled
    ensures forall s, u, k :: Drives(e', settled + {t}, s, u, k) <==>
              (Drives(e, settled, s, u, k) && u != t) || (completed && s == sid && u == e.next && k == ExecuteKind)
    ensures Drives(e, settled, sid, t, WaitUntilKind)
  {
  }

  lemma WaitStartedDrivenOnce(
    e: Execution, e': Execution, sid: StateExecutionId, request: CommandRequest, queues: Queues,
    consumed: map<int, seq<DedupId>>, completed: bool, settled: set<int>, t: int)
    requires WaitStarted(e, e', sid, request, queues, consumed, completed)
    requires WaitTask(e, settled, t, sid) && Keyed(e) && e.next !in settled
    requires DrivenOnce(e, settled)
    ensures DrivenOnce(e', settled + {t})
  {
    WaitStartedDrives(e, e', sid, request, queues, consumed, completed, settled, t);
    SameDriven(e, e', settled, settled + {t}, {sid});
    assert completed ==> Drives(e', settled + {t}, sid, e.next, ExecuteKind);
  }

  lemma OtherCommandsKept(s: Queues, s': Queues, sid: StateExecutionId)
    requires s'.commands - {sid} == s.commands - {sid}
    ensures forall other :: other != sid ==> (other in s'.commands <==> other in s.commands)
    ensures forall other :: other != sid && other in s.commands ==> s'.commands[other] == s.commands[other]
  {
    forall other | other != sid ensures other in s'.commands <==> other in s.commands {
      assert other in s'.commands - {sid} <==> other in s.commands - {sid};
    }
    forall other | other != sid && other in s.commands ensures s'.commands[other] == s.commands[other] {
      assert (s'.commands - {sid})[other] == (s.commands - {sid})[other];
    }
  }

  lemma WaitStartedWaitsOnce(
    e: Execution, e': Execution, sid: StateExecutionId, request: CommandRequest, queues: Queues,
    consumed: map<int, seq<DedupId>>, completed: bool, settled: set<int>, t: int)
    requires WaitStarted(e, e', sid, request, queues, consumed, completed)
    requires WaitTask(e, settled, t, sid) && Keyed(e) && e.next !in settled
    requires queues.commands - {sid} == e.process.queues.commands - {sid}
    requires WaitsOnce(e, settled)
    ensures WaitsOnce(e', settled + {t})
  {
    WaitStartedDrives(e, e', sid, request, queues, consumed, completed, settled, t);
    OtherCommandsKept(e.process.queues, queues, sid);
    forall s, u | Drives(e', settled + {t}, s, u, WaitUntilKind) ensures NotWaitedYet(e', s) {
      assert s != sid;
      assert NotWaitedYet(e, s);
    }
  }

  lemma WaitStartedRest(
    e: Execution, e': Execution, sid: StateExecutionId, request: CommandRequest, queues: Queues,
    consumed: map<int, seq<DedupId>>, completed: bool, settled: set<int>, t: int)
    requires WaitStarted(e, e', sid, request, queues, consumed, completed)
    requires WaitTask(e, settled, t, sid) && Shape(e) && e.next !in settled
    requires queues.commands - {sid} == e.process.queues.commands - {sid}
    requires ExecutesAfterWait(e) && SettledFailed(e, settled, None) && PendingMatches(e)
    requires NotWaitedYet(e, sid) && (e.process.status.Running? ==> e.states[sid].status.WaitUntilRunning?)
    ensures Shape(e') && ExecutesAfterWait(e') && SettledFailed(e', settled + {t}, Some(t)) && PendingMatches(e')
  {
    hide AddConsumed;
    assert Shape(e') by { WaitStartedShape(e, e', sid, request, queues, consumed, completed); }
  }

  lemma WaitStartedShape(
    e: Execution, e': Execution, sid: StateExecutionId, request: CommandRequest, queues: Queues,
    consumed: map<int, seq<DedupId>>, completed: bool)
    requires WaitStarted(e, e', sid, request, queues, consumed, completed) && Shape(e)
    requires queues.commands - {sid} == e.process.queues.commands - {sid}
    ensures Shape(e')
  {
    hide AddConsumed;
    OtherCommandsKept(e.process.queues, queues, sid);
  }

  // ---------- what the new row waits for ----------

  lemma WaitStartedResolves(
    e: Execution, e': Execution, sid: StateExecutionId, request: CommandRequest, queues: Queues,
    consumed: map<int, seq<DedupId>>, completed: bool)
    requires WaitStarted(e, e', sid, request, queues, consumed, completed) && Keyed(e)
    requires NotWaitedYet(e, sid)
    ensures forall s, i, t :: s != sid ==> (Resolves(e', s, i, t) <==> Resolves(e, s, i, t))
    ensures var base := if completed then e.next + 1 else e.next;
      forall i, t :: Resolves(e', sid, i, t) <==> 0 <= i < |request.timerDelays| && t == base + i
  {
  }

  /** A request not completed at once got nothing at all when any one would do. */
  lemma NotCompleted(messages: map<DedupId, MessageRow>, request: CommandRequest, consumed: map<int, seq<DedupId>>)
    requires Known(messages, consumed) && !request.waitingType.EmptyCommand?
    requires consumed.Keys <= CommandMap(request).Keys
    requires request.queueCommands == [] || !Completed(request, AddConsumed(messages, NO_RESULTS, consumed))
    ensures AddConsumed(messages, NO_RESULTS, consumed).queues.Keys == consumed.Keys
    ensures request.waitingType.AnyOfCompletion? ==> consumed == map[]
    ensures AsksForSomething(request) ==> !Completed(request, AddConsumed(messages, NO_RESULTS, consumed))
  {
    var results := AddConsumed(messages, NO_RESULTS, consumed);
    assert results.queues.Keys == consumed.Keys;
    assert |results.queues| == |consumed| by {
      assert |results.queues| == |results.queues.Keys| && |consumed| == |consumed.Keys|;
    }
    if request.queueCommands == [] {
      assert CommandMap(request) == map[];
      assert consumed == map[];
    }
  }

  lemma WaitStartedWaitsForTheRest(
    e: Execution, e': Execution, sid: StateExecutionId, request: CommandRequest, queues: Queues,
    consumed: map<int, seq<DedupId>>)
    requires WaitStarted(e, e', sid, request, queues, consumed, false) && Keyed(e) && NotWaitedYet(e, sid)
    requires !request.waitingType.EmptyCommand?
    requires CommandsOf(queues, sid) == CommandMap(request) - consumed.Keys
    requires consumed.Keys <= CommandMap(request).Keys
    requires e'.states[sid].results.queues.Keys == consumed.Keys
    ensures WaitsForTheRest(e', sid)
  {
    WaitStartedResolves(e, e', sid, request, queues, consumed, false);
    forall i | 0 <= i < |request.timerDelays| ensures Timed(e', sid, i) {
      assert Resolves(e', sid, i, e.next + i);
    }
    forall i ensures Registered(queues, sid, i) <==> 0 <= i < |request.queueCommands| && i !in consumed {
      assert Registered(queues, sid, i) <==> i in CommandsOf(queues, sid);
    }
    forall i | i in consumed ensures 0 <= i < |request.queueCommands| {
      assert i in CommandMap(request);
    }
  }

  lemma OtherStillWaits(
    e: Execution, e': Execution, sid: StateExecutionId, request: CommandRequest, queues: Queues,
    consumed: map<int, seq<DedupId>>, completed: bool, s: StateExecutionId)
    requires WaitStarted(e, e', sid, request, queues, consumed, completed) && Keyed(e) && NotWaitedYet(e, sid)
    requires queues.commands - {sid} == e.process.queues.commands - {sid}
    requires s != sid && s in e.states && WaitsForTheRest(e, s)
    ensures WaitsForTheRest(e', s)
  {
    WaitStartedResolves(e, e', sid, request, queues, consumed, completed);
    OtherCommandsKept(e.process.queues, queues, sid);
    assert forall i :: Registered(e'.process.queues, s, i) <==> Registered(e.process.queues, s, i);
    StillTimed(e, e', s);
  }

  lemma WaitStartedWaits(
    e: Execution, e': Execution, sid: StateExecutionId, request: CommandRequest, queues: Queues,
    consumed: map<int, seq<DedupId>>, completed: bool)
    requires WaitStarted(e, e', sid, request, queues, consumed, completed) && Keyed(e) && NotWaitedYet(e, sid)
    requires queues.commands - {sid} == e.process.queues.commands - {sid}
    requires Waits(e)
    requires e.process.status.Running? ==> e.states[sid].status.WaitUntilRunning?
    requires !completed ==>
               && WaitsForTheRest(e', sid)
               && (AsksForSomething(request) ==> !Completed(request, e'.states[sid].results))
    ensures Waits(e')
  {
    OtherCommandsKept(e.process.queues, queues, sid);
    if e.process.status.Running? {
      forall s | s in e'.states && e'.states[s].status.WaitUntilWaiting? && s != sid ensures WaitsForTheRest(e', s) {
        OtherStillWaits(e, e', sid, request, queues, consumed, completed, s);
      }
    }
  }

  lemma StillTimed(e: Execution, e': Execution, sid: StateExecutionId)
    requires forall i, t :: Resolves(e, sid, i, t) ==> Resolves(e', sid, i, t)
    ensures forall i :: Timed(e, sid, i) ==> Timed(e', sid, i)
  {
    forall i | Timed(e, sid, i) ensures Timed(e', sid, i) {
      var t :| Resolves(e, sid, i, t);
      assert Resolves(e', sid, i, t);
    }
  }

  lemma WaitStartedRegistered(
    e: Execution, e': Execution, sid: StateExecutionId, request: CommandRequest, queues: Queues,
    consumed: map<int, seq<DedupId>>, completed: bool)
    requires WaitStarted(e, e', sid, request, queues, consumed, completed)
    requires Positive(queues) && NoLostWakeUp(queues) && NoEmptyEntries(queues)
    requires RegisterOutcome(e.process.queues, sid, CommandMap(request), request.waitingType, queues, consumed)
    requires RegisteredMatch(e)
    ensures RegisteredMatch(e')
  {
    OtherCommandsKept(e.process.queues, queues, sid);
    CleanupKeepsNoLostWakeUp(queues, sid);
    forall s, i | Registered(e'.process.queues, s, i)
      ensures && s in e'.states && 0 <= i < |e'.states[s].request.queueCommands|
              && e'.process.queues.commands[s][i] == Normalize(e'.states[s].request.queueCommands[i])
              && i !in e'.states[s].results.queues
    {
      if s == sid {
        assert i in CommandMap(request) - consumed.Keys;
      } else {
        assert Registered(e.process.queues, s, i);
      }
    }
  }

  // ---------- the messages it consumed ----------

  lemma LookupIds(messages: map<DedupId, MessageRow>, ids: seq<DedupId>)
    requires forall id | id in ids :: id in messages
    ensures ResultIds(Lookup(messages, ids)) == ids
  {
  }

  lemma WaitStartedMessages(
    e: Execution, e': Execution, sid: StateExecutionId, request: CommandRequest, queues: Queues,
    consumed: map<int, seq<DedupId>>, completed: bool)
    requires WaitStarted(e, e', sid, request, queues, consumed, completed) && Keyed(e)
    requires e.states[sid].results == NO_RESULTS
    requires ExactlyOnce(WithQueues(LedgerOf(e), queues.unconsumed, sid, consumed), e.messages.Keys)
    ensures MessagesOnce(e')
  {
    var l := WithQueues(LedgerOf(e), queues.unconsumed, sid, consumed);
    forall c ensures LedgerOf(e')(c) == l(c) {
      assert l(c) == CellWith(LedgerOf(e), queues.unconsumed, sid, consumed, c);
      if c.ResultCell? && c.sid == sid && c.index in consumed {
        LookupIds(e.messages, consumed[c.index]);
      }
    }
    SameLedger(l, LedgerOf(e'), e.messages.Keys);
  }

  lemma WaitStartedFaithful(
    e: Execution, e': Execution, sid: StateExecutionId, request: CommandRequest, queues: Queues,
    consumed: map<int, seq<DedupId>>, completed: bool)
    requires WaitStarted(e, e', sid, request, queues, consumed, completed) && Keyed(e)
    requires ConsumedFaithful(e.messages, request, consumed) && QueuesFaithful(e.messages, queues.unconsumed)
    requires Faithful(e)
    ensures Faithful(e')
  {
    forall q, n | q in queues.unconsumed && 0 <= n < |queues.unconsumed[q]|
      ensures queues.unconsumed[q][n] in e.messages && e.messages[queues.unconsumed[q][n]].queue == q
    {
      assert queues.unconsumed[q][n] in Waiting(queues.unconsumed, q);
    }
    forall s, i | s in e'.states && i in e'.states[s].results.queues ensures ResultFaithful(e', s, i) {
      if s == sid {
        assert i in consumed;
        forall n | 0 <= n < |consumed[i]|
          ensures e.messages[consumed[i][n]].queue == request.queueCommands[i].queue
        {
          assert consumed[i][n] in consumed[i];
        }
      } else {
        assert ResultFaithful(e, s, i);
      }
    }
  }

  // ---------- the transaction ----------

  lemma WaitStartedKeeps(
    e: Execution, e': Execution, sid: StateExecutionId, request: CommandRequest, queues: Queues,
    consumed: map<int, seq<DedupId>>, completed: bool, settled: set<int>, t: int)
    requires WaitStarted(e, e', sid, request, queues, consumed, completed)
    requires WaitOutcome(e, sid, request, queues, consumed)
    requires !request.waitingType.EmptyCommand?
    requires completed <==>
               request.queueCommands != [] && Completed(request, AddConsumed(e.messages, NO_RESULTS, consumed))
    requires Inv(e, settled) && WaitTask(e, settled, t, sid) && e.next !in settled
    ensures InvWithin(e', settled + {t}, Some(t)) && GracefulHasPending(e')
  {
    WaitTaskFacts(e, settled, t, sid);
    WaitStartedRest(e, e', sid, request, queues, consumed, completed, settled, t);
    assert DrivenOnce(e', settled + {t}) by {
      WaitStartedDrivenOnce(e, e', sid, request, queues, consumed, completed, settled, t);
    }
    assert WaitsOnce(e', settled + {t}) by {
      WaitStartedWaitsOnce(e, e', sid, request, queues, consumed, completed, settled, t);
    }
    assert Waits(e') by {
      if !completed {
        NotCompleted(e.messages, request, consumed);
        WaitStartedWaitsForTheRest(e, e', sid, request, queues, consumed);
      }
      WaitStartedWaits(e, e', sid, request, queues, consumed, completed);
    }
    assert RegisteredMatch(e') by {
      WaitStartedRegistered(e, e', sid, request, queues, consumed, completed);
    }
    assert MessagesOnce(e') by { WaitStartedMessages(e, e', sid, request, queues, consumed, completed); }
    assert Faithful(e') by { WaitStartedFaithful(e, e', sid, request, queues, consumed, completed); }
  }

  /** A live wait-until task means that nothing was recorded yet, and on a running process that the row still runs. */
  lemma WaitTaskFacts(e: Execution, settled: set<int>, t: int, sid: StateExecutionId)
    requires DrivenOnce(e, settled) && WaitsOnce(e, settled) && WaitTask(e, settled, t, sid)
    ensures NotWaitedYet(e, sid)
    ensures e.process.status.Running? ==> e.states[sid].status.WaitUntilRunning?
  {
    assert Drives(e, settled, sid, t, WaitUntilKind);
  }

  lemma WaitStartedStays(
    e: Execution, e': Execution, sid: StateExecutionId, request: CommandRequest, queues: Queues,
    consumed: map<int, seq<DedupId>>, completed: bool, settled: set<int>, t: int)
    requires WaitStarted(e, e', sid, request, queues, consumed, completed)
    requires Keyed(e) && WaitTask(e, settled, t, sid)
    ensures t in e'.immediate && e'.immediate[t] == e.immediate[t] && e.next <= e'.next
  {
  }

  lemma StartWaitingKeeps(
    e: Execution, t: int, sid: StateExecutionId, request: CommandRequest,
    queues: Queues, consumed: map<int, seq<DedupId>>, now: Readings, settled: set<int>)
    requires Inv(e, settled) && WaitTask(e, settled, t, sid) && e.next !in settled
    requires !request.waitingType.EmptyCommand?
    requires NotWaitedYet(e, sid) && Known(e.messages, consumed)
    requires WaitOutcome(e, sid, request, queues, consumed)
    ensures var e' := StartWaiting(e, sid, request, queues, consumed, now);
      && InvWithin(e', settled + {t}, Some(t)) && GracefulHasPending(e')
      && t in e'.immediate && e'.immediate[t] == e.immediate[t] && e.next <= e'.next
  {
    var e' := StartWaiting(e, sid, request, queues, consumed, now);
    var completed := request.queueCommands != [] && Completed(request, AddConsumed(e.messages, NO_RESULTS, consumed));
    assert WaitStarted(e, e', sid, request, queues, consumed, completed) by {
      StartWaitingStarts(e, sid, request, queues, consumed, now);
    }
    WaitStartedKeeps(e, e', sid, request, queues, consumed, completed, settled, t);
    WaitStartedStays(e, e', sid, request, queues, consumed, completed, settled, t);
  }

  /** The unfenced wait-until transaction never fails, running or closed. */
  lemma UpdateWaitUntilKeeps(
    e: Execution, t: int, sid: StateExecutionId, request: CommandRequest, order: seq<int>, now: Readings,
    settled: set<int>)
    requires Inv(e, settled) && WaitTask(e, settled, t, sid) && e.next !in settled
    requires !request.waitingType.EmptyCommand?
    requires OrderFor(e.process.queues, sid, request, order)
    ensures var r := UpdateWaitUntil(e, sid, request, order, now);
      && r.Some? && InvWithin(r.value, settled + {t}, Some(t)) && GracefulHasPending(r.value)
      && t in r.value.immediate && r.value.immediate[t] == e.immediate[t] && e.next <= r.value.next
  {
    WaitTaskFacts(e, settled, t, sid);
    var (queues, consumed) := RegisterCommands(e.process.queues, sid, request, order);
    WaitOutcomeHolds(e, sid, request, order);
    StartWaitingKeeps(e, t, sid, request, queues, consumed, now, settled);
  }
}
