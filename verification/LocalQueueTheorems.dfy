/** What the local-queue operations keep, for every order in which the maps are iterated. */
module LocalQueueTheorems {
  import opened Collections
  import opened StateExecutionIds
  import opened LocalQueues

  // ---------- no lost wake-up ----------

  /** Every registered command asks for at least one message. */
  ghost predicate Positive(s: Queues) {
    forall sid, i :: Registered(s, sid, i) ==> 1 <= s.commands[sid][i].count
  }

  /** Every registered command asks for strictly more messages than its queue holds. */
  ghost predicate NoLostWakeUp(s: Queues) {
    forall sid, i :: Registered(s, sid, i) ==> !Fits(s, sid, i)
  }

  /** No entry is kept for a state without commands or a queue without messages. */
  ghost predicate NoEmptyEntries(s: Queues) {
    (forall sid :: sid in s.commands ==> s.commands[sid] != map[]) &&
    (forall q :: q in s.unconsumed ==> s.unconsumed[q] != [])
  }

  /** When a message completes a command, that command takes the whole queue: it lacked just one. */
  lemma ArrivalKeepsNoLostWakeUp(s: Queues, q: QueueName, id: DedupId, pick: Pick)
    requires Positive(s) && NoLostWakeUp(s) && ValidPick(Append(s, q, id), q, pick)
    ensures var (s', ids) := AddMessage(s, q, id, pick);
      && Positive(s') && NoLostWakeUp(s')
      && (NoEmptyEntries(s) ==> NoEmptyEntries(s'))
      && (pick.Picked? ==> ids == Waiting(s.unconsumed, q) + [id] && q !in s'.unconsumed)
  {
    var a := Append(s, q, id);
    if pick.Picked? {
      assert !Fits(s, pick.sid, pick.index);
      assert s.commands[pick.sid][pick.index].count == |Waiting(a.unconsumed, q)|;
      var s' := AddMessage(s, q, id, pick).0;
      forall sid, i | Registered(s', sid, i) ensures !Fits(s', sid, i) && 1 <= s'.commands[sid][i].count {
        assert Registered(s, sid, i) && !Fits(s, sid, i) && s'.commands[sid][i] == s.commands[sid][i];
      }
    } else {
      forall sid, i | Registered(a, sid, i) ensures !Fits(a, sid, i) {
        assert Registered(s, sid, i) && !Fits(s, sid, i);
      }
    }
  }

  // ---------- the consuming loop ----------

  /** What is known after visiting the commands in `order`, whatever the order. */
  ghost predicate Visited(cmds: map<int, Command>, u: Unconsumed, w: WaitingType, order: seq<int>, p: Progress) {
    && (forall i :: i in p.remaining || i in p.consumed <==> i in order)
    && (forall i :: i in p.remaining ==> i !in p.consumed && i in cmds && p.remaining[i] == cmds[i])
    && (forall i :: i in p.consumed ==> i in cmds && |p.consumed[i]| == cmds[i].count)
    && (forall q :: |Waiting(p.unconsumed, q)| <= |Waiting(u, q)|)
    && (forall q :: q in p.unconsumed ==> q in u && (u[q] != [] ==> p.unconsumed[q] != []))
    && (p.stopped <==> w == AnyOfCompletion && p.consumed != map[])
    && (!p.stopped ==> forall i :: i in p.remaining ==> |Waiting(p.unconsumed, cmds[i].queue)| < cmds[i].count)
    && (p.consumed == map[] ==> p.unconsumed == u)
    && (p.stopped ==> |p.consumed| == 1)
  }

  lemma {:induction false} VisitAllVisits(cmds: map<int, Command>, u: Unconsumed, w: WaitingType, order: seq<int>)
    requires forall i :: i in order ==> i in cmds
    requires forall i :: i in cmds ==> 1 <= cmds[i].count
    requires forall i, j :: 0 <= i < j < |order| ==> order[i] != order[j]
    ensures Visited(cmds, u, w, order, VisitAll(cmds, u, w, order))
  {
    if order != [] {
      var front, i := order[..|order| - 1], order[|order| - 1];
      VisitAllVisits(cmds, u, w, front);
      var p := VisitAll(cmds, u, w, front);
      assert order == front + [i] && i !in front;
      VisitKeeps(cmds, u, w, front, p, i);
    }
  }

  lemma VisitKeeps(
    cmds: map<int, Command>, u: Unconsumed, w: WaitingType, order: seq<int>, p: Progress, i: int)
    requires Visited(cmds, u, w, order, p) && i in cmds && i !in order && 1 <= cmds[i].count
    ensures Visited(cmds, u, w, order + [i], Visit(p, i, cmds[i], w))
  {
    assert forall k :: k in order + [i] <==> k in order || k == i;
    if !Skipped(p, cmds[i]) {
      ConsumingKeeps(cmds, u, w, order, p, i);
    }
  }

  lemma ConsumingKeeps(
    cmds: map<int, Command>, u: Unconsumed, w: WaitingType, order: seq<int>, p: Progress, i: int)
    requires Visited(cmds, u, w, order, p) && i in cmds && i !in order && !Skipped(p, cmds[i])
    ensures Visited(cmds, u, w, order + [i], Visit(p, i, cmds[i], w))
  {
    assert forall k :: k in order + [i] <==> k in order || k == i;
    var q, p' := cmds[i].queue, Visit(p, i, cmds[i], w);
    assert forall other :: other != q ==> Waiting(p'.unconsumed, other) == Waiting(p.unconsumed, other);
    assert |Waiting(p'.unconsumed, q)| == |Waiting(p.unconsumed, q)| - cmds[i].count;
    assert i in p'.consumed && p'.consumed != map[];
    if w == AnyOfCompletion {
      assert p.consumed == map[];
      assert p'.consumed == map[i := p'.consumed[i]];
    }
  }

  lemma Partition(cmds: map<int, Command>, remaining: map<int, Command>, consumed: set<int>)
    requires forall i :: i in cmds <==> i in remaining || i in consumed
    requires forall i :: i in remaining ==> i !in consumed && i in cmds && remaining[i] == cmds[i]
    ensures consumed <= cmds.Keys
    ensures remaining == cmds - consumed
    ensures |remaining| == |cmds| <==> consumed == {}
  {
    IsSubset(consumed, cmds.Keys);
    SameElements(remaining.Keys, cmds.Keys - consumed);
    SameMap(remaining, cmds - consumed);
    RestCard(cmds.Keys, consumed);
    assert |remaining| == |remaining.Keys| && |cmds| == |cmds.Keys|;
  }

  lemma RestCard(a: set<int>, b: set<int>)
    requires b <= a
    ensures |a - b| == |a| <==> b == {}
  {
    SubsetCard(a - b, a);
  }

  /** What the loop left for a state becomes its registered commands, unless an any-of state got something. */
  lemma StoringRemaining(r: Queues, sid: StateExecutionId, w: WaitingType, p: Progress)
    requires sid in r.commands
    requires p.remaining == r.commands[sid] - p.consumed.Keys
    requires |p.remaining| == |r.commands[sid]| <==> p.consumed == map[]
    ensures var s' := StoreBack(r, sid, w, p);
      && s'.unconsumed == p.unconsumed
      && s'.commands - {sid} == r.commands - {sid}
      && CommandsOf(s', sid) == (if w == AnyOfCompletion && p.consumed != map[] then map[] else p.remaining)
      && (r.commands[sid] != map[] && sid in s'.commands ==> s'.commands[sid] != map[])
  {
    RemovingAgain(r.commands, sid, p.remaining);
    if p.consumed == map[] {
      SameMap(p.remaining, r.commands[sid]);
    }
  }

  lemma TryConsumeFacts(r: Queues, sid: StateExecutionId, w: WaitingType, order: seq<int>)
    requires sid in r.commands && IsOrder(order, r.commands[sid].Keys)
    requires forall i :: i in r.commands[sid] ==> 1 <= r.commands[sid][i].count
    ensures var (s', consumed) := TryConsume(r, sid, w, order);
      && RegisterOutcome(r, sid, r.commands[sid], w, s', consumed)
      && (forall q :: |Waiting(s'.unconsumed, q)| <= |Waiting(r.unconsumed, q)|)
      && (forall q :: q in s'.unconsumed ==>
            q in r.unconsumed && (r.unconsumed[q] != [] ==> s'.unconsumed[q] != []))
      && (forall i :: i in CommandsOf(s', sid) ==>
            |Waiting(s'.unconsumed, r.commands[sid][i].queue)| < r.commands[sid][i].count)
      && (r.commands[sid] != map[] && sid in s'.commands ==> s'.commands[sid] != map[])
      && (consumed == map[] ==> s'.unconsumed == r.unconsumed)
  {
    var cmds := r.commands[sid];
    var p := VisitAll(cmds, r.unconsumed, w, order);
    VisitAllVisits(cmds, r.unconsumed, w, order);
    Partition(cmds, p.remaining, p.consumed.Keys) by {
      assert forall i :: i in cmds.Keys <==> i in order;
    }
    assert p.consumed.Keys == {} <==> p.consumed == map[];
    StoringRemaining(r, sid, w, p);
  }

  /** The outcome for a state of trying to consume right after it registered its commands. */
  ghost predicate RegisterOutcome(
    s: Queues, sid: StateExecutionId, cmds: map<int, Command>, w: WaitingType,
    s': Queues, consumed: map<int, seq<DedupId>>)
  {
    && s'.commands - {sid} == s.commands - {sid}
    && CommandsOf(s', sid) == (if w == AnyOfCompletion && consumed != map[] then map[] else cmds - consumed.Keys)
    && consumed.Keys <= cmds.Keys
    && (forall i :: i in consumed ==> |consumed[i]| == cmds[i].count)
    && (w == AnyOfCompletion ==> |consumed| <= 1)
  }

  lemma TryConsumeKeepsNoLostWakeUp(
    s: Queues, r: Queues, sid: StateExecutionId, w: WaitingType, order: seq<int>)
    requires Positive(s) && NoLostWakeUp(s)
    requires sid in r.commands && r.commands - {sid} == s.commands - {sid} && r.unconsumed == s.unconsumed
    requires forall i :: i in r.commands[sid] ==> 1 <= r.commands[sid][i].count
    requires IsOrder(order, r.commands[sid].Keys)
    ensures var (s', consumed) := TryConsume(r, sid, w, order);
      && Positive(s') && NoLostWakeUp(s')
      && (NoEmptyEntries(s) && r.commands[sid] != map[] ==> NoEmptyEntries(s'))
      && RegisterOutcome(s, sid, r.commands[sid], w, s', consumed)
  {
    TryConsumeFacts(r, sid, w, order);
    OnlyOneStateChanged(s, TryConsume(r, sid, w, order).0, sid);
  }

  /**
   Registering breaks the no-lost-wake-up invariant for the registering state alone, and
   consuming right away restores it.
   */
  lemma RegisterKeepsNoLostWakeUp(
    s: Queues, sid: StateExecutionId, cs: seq<Command>, w: WaitingType, order: seq<int>)
    requires Positive(s) && NoLostWakeUp(s)
    requires IsOrder(order, CommandsOf(AddCommands(s, sid, cs), sid).Keys)
    ensures var r := AddCommands(s, sid, cs);
      && (forall other, i :: other != sid && Registered(r, other, i) ==> !Fits(r, other, i))
      && var (s', consumed) := TryConsume(r, sid, w, order);
      && Positive(s') && NoLostWakeUp(s')
      && (NoEmptyEntries(s) && cs != [] ==> NoEmptyEntries(s'))
      && RegisterOutcome(s, sid, r.commands[sid], w, s', consumed)
  {
    var r := AddCommands(s, sid, cs);
    RegisteringIsPositive(s, sid, cs);
    assert r.commands - {sid} == s.commands - {sid};
    assert cs != [] ==> 0 in r.commands[sid];
    TryConsumeKeepsNoLostWakeUp(s, r, sid, w, order);
  }

  lemma OnlyOneStateChanged(s: Queues, s': Queues, sid: StateExecutionId)
    requires Positive(s) && NoLostWakeUp(s)
    requires s'.commands - {sid} == s.commands - {sid}
    requires forall q :: |Waiting(s'.unconsumed, q)| <= |Waiting(s.unconsumed, q)|
    requires forall q :: q in s'.unconsumed ==> q in s.unconsumed && (s.unconsumed[q] != [] ==> s'.unconsumed[q] != [])
    requires forall i :: Registered(s', sid, i) ==>
      1 <= s'.commands[sid][i].count && |Waiting(s'.unconsumed, s'.commands[sid][i].queue)| < s'.commands[sid][i].count
    ensures Positive(s') && NoLostWakeUp(s')
    ensures NoEmptyEntries(s) && (sid in s'.commands ==> s'.commands[sid] != map[]) ==> NoEmptyEntries(s')
  {
    forall other | other in s'.commands && other != sid
      ensures other in s.commands && s'.commands[other] == s.commands[other]
    {
      assert other in s'.commands - {sid};
      assert other in s.commands - {sid};
    }
    forall other, i | Registered(s', other, i) ensures 1 <= s'.commands[other][i].count && !Fits(s', other, i) {
      assert other != sid ==> Registered(s, other, i) && !Fits(s, other, i);
    }
  }

  lemma RegisteringIsPositive(s: Queues, sid: StateExecutionId, cs: seq<Command>)
    requires Positive(s) && NoLostWakeUp(s)
    ensures var r := AddCommands(s, sid, cs);
      && (forall i :: i in r.commands[sid] ==> 1 <= r.commands[sid][i].count)
      && (forall other, i :: other != sid && Registered(r, other, i) ==> !Fits(r, other, i))
  {
    var r := AddCommands(s, sid, cs);
    forall i | i in r.commands[sid] ensures 1 <= r.commands[sid][i].count {
      assert i in CommandsOf(s, sid) ==> Registered(s, sid, i);
    }
    forall other, i | other != sid && Registered(r, other, i) ensures !Fits(r, other, i) {
      assert Registered(s, other, i) && !Fits(s, other, i);
    }
  }

  // ---------- first in, first out ----------

  /** One hand-over of messages to one command of one state execution. */
  datatype Batch = Batch(sid: StateExecutionId, index: int, command: Command, ids: seq<DedupId>)

  /** The messages of queue `q` handed over, in hand-over order. */
  function Taken(log: seq<Batch>, q: QueueName): seq<DedupId> {
    if log == [] then []
    else
      var last := log[|log| - 1];
      Taken(log[..|log| - 1], q) + if last.command.queue == q then last.ids else []
  }

  lemma {:induction false} TakenConcat(a: seq<Batch>, b: seq<Batch>, q: QueueName)
    ensures Taken(a + b, q) == Taken(a, q) + Taken(b, q)
  {
    if b == [] {
      assert a + b == a;
    } else {
      assert (a + b)[..|a + b| - 1] == a + b[..|b| - 1];
      TakenConcat(a, b[..|b| - 1], q);
    }
  }

  /** The hand-overs of the consuming loop, in the order the commands are visited. */
  function VisitLog(
    sid: StateExecutionId, cmds: map<int, Command>, u: Unconsumed, w: WaitingType, order: seq<int>): seq<Batch>
    requires forall i :: i in order ==> i in cmds
  {
    if order == [] then []
    else
      var front, i := order[..|order| - 1], order[|order| - 1];
      var p := VisitAll(cmds, u, w, front);
      VisitLog(sid, cmds, u, w, front) +
      if Skipped(p, cmds[i]) then [] else [Batch(sid, i, cmds[i], p.unconsumed[cmds[i].queue][..cmds[i].count])]
  }

  lemma TakenOne(b: Batch, q: QueueName)
    ensures Taken([b], q) == if b.command.queue == q then b.ids else []
  {
    assert Taken([b][..0], q) == [];
  }

  lemma {:induction false} VisitFifo(
    sid: StateExecutionId, cmds: map<int, Command>, u: Unconsumed, w: WaitingType, order: seq<int>, q: QueueName)
    requires forall i :: i in order ==> i in cmds
    ensures Taken(VisitLog(sid, cmds, u, w, order), q) + Waiting(VisitAll(cmds, u, w, order).unconsumed, q)
         == Waiting(u, q)
    ensures forall b :: b in VisitLog(sid, cmds, u, w, order) ==> |b.ids| == b.command.count
  {
    if order != [] {
      var front, i := order[..|order| - 1], order[|order| - 1];
      VisitFifo(sid, cmds, u, w, front, q);
      var p := VisitAll(cmds, u, w, front);
      var log := VisitLog(sid, cmds, u, w, front);
      hide Visit, Skipped, Waiting, Taken;
      if Skipped(p, cmds[i]) {
        assert log + [] == log;
        SkippingOne(p, i, cmds[i], w);
      } else {
        LoggingOne(log, sid, p, i, cmds[i], w, q);
      }
    } else {
      assert [] + Waiting(u, q) == Waiting(u, q);
    }
  }

  lemma SkippingOne(p: Progress, i: int, c: Command, w: WaitingType)
    requires Skipped(p, c)
    ensures Visit(p, i, c, w).unconsumed == p.unconsumed
  {
  }

  lemma LoggingOne(
    log: seq<Batch>, sid: StateExecutionId, p: Progress, i: int, c: Command, w: WaitingType, q: QueueName)
    requires !Skipped(p, c)
    ensures var batch := Batch(sid, i, c, p.unconsumed[c.queue][..c.count]);
      && Taken(log + [batch], q) + Waiting(Visit(p, i, c, w).unconsumed, q) == Taken(log, q) + Waiting(p.unconsumed, q)
      && |batch.ids| == c.count
  {
    var batch := Batch(sid, i, c, p.unconsumed[c.queue][..c.count]);
    TakenConcat(log, [batch], q);
    TakenOne(batch, q);
    VisitSplits(p, i, c, w, q);
    Associative(Taken(log, q), Taken([batch], q), Waiting(Visit(p, i, c, w).unconsumed, q));
  }

  lemma VisitSplits(p: Progress, i: int, c: Command, w: WaitingType, q: QueueName)
    requires !Skipped(p, c)
    ensures (if c.queue == q then p.unconsumed[c.queue][..c.count] else []) + Waiting(Visit(p, i, c, w).unconsumed, q)
         == Waiting(p.unconsumed, q)
  {
    var ids := p.unconsumed[c.queue];
    assert ids == ids[..c.count] + ids[c.count..];
  }

  lemma Associative<T>(a: seq<T>, b: seq<T>, c: seq<T>)
    ensures (a + b) + c == a + (b + c)
  {
  }

  /** The operations a process row's queues go through. */
  datatype Event =
    | Register(sid: StateExecutionId, cs: seq<Command>, w: WaitingType, order: seq<int>)
    | Arrive(q: QueueName, id: DedupId, pick: Pick)
    | Forget(sid: StateExecutionId)

  ghost predicate Enabled(s: Queues, e: Event) {
    match e
    case Register(sid, cs, w, order) => IsOrder(order, CommandsOf(AddCommands(s, sid, cs), sid).Keys)
    case Arrive(q, id, pick) => ValidPick(Append(s, q, id), q, pick)
    case Forget(_) => true
  }

  ghost function Next(s: Queues, e: Event): Queues
    requires Enabled(s, e)
  {
    match e
    case Register(sid, cs, w, order) => TryConsume(AddCommands(s, sid, cs), sid, w, order).0
    case Arrive(q, id, pick) => AddMessage(s, q, id, pick).0
    case Forget(sid) => Cleanup(s, sid)
  }

  ghost function HandedOver(s: Queues, e: Event): seq<Batch>
    requires Enabled(s, e)
  {
    match e
    case Register(sid, cs, w, order) =>
      VisitLog(sid, CommandsOf(AddCommands(s, sid, cs), sid), s.unconsumed, w, order)
    case Arrive(q, id, pick) =>
      if pick.Nobody? then []
      else [Batch(pick.sid, pick.index, s.commands[pick.sid][pick.index], AddMessage(s, q, id, pick).1)]
    case Forget(_) => []
  }

  /** A whole run from empty queues: the states it goes through, one event between each two. */
  ghost predicate IsRun(states: seq<Queues>, events: seq<Event>) {
    && |states| == |events| + 1
    && states[0] == NO_QUEUES
    && forall n :: 0 <= n < |events| ==>
         Enabled(states[n], events[n]) && states[n + 1] == Next(states[n], events[n])
  }

  /** The batches handed over by the first `n` events. */
  ghost function Log(states: seq<Queues>, events: seq<Event>, n: nat): seq<Batch>
    requires IsRun(states, events) && n <= |events|
  {
    if n == 0 then [] else Log(states, events, n - 1) + HandedOver(states[n - 1], events[n - 1])
  }

  /** The messages of queue `q` among the first `n` events, in the order they arrived. */
  function Arrivals(events: seq<Event>, q: QueueName, n: nat): seq<DedupId>
    requires n <= |events|
  {
    if n == 0 then []
    else Arrivals(events, q, n - 1) + Arrived(events[n - 1], q)
  }

  function Arrived(e: Event, q: QueueName): seq<DedupId> {
    if e.Arrive? && e.q == q then [e.id] else []
  }

  /**
   At every point of every run, for every queue: the batches handed over, in order, followed by
   what is still unconsumed, are the arrivals in order; and each batch has exactly its command's
   count.
   */
  lemma {:induction false} Fifo(states: seq<Queues>, events: seq<Event>, q: QueueName, n: nat)
    requires IsRun(states, events) && n <= |events|
    ensures Taken(Log(states, events, n), q) + Waiting(states[n].unconsumed, q) == Arrivals(events, q, n)
    ensures forall b :: b in Log(states, events, n) ==> |b.ids| == b.command.count
  {
    if n > 0 {
      Fifo(states, events, q, n - 1);
      var s, e := states[n - 1], events[n - 1];
      FifoStep(s, e, q);
      var log, w := Log(states, events, n - 1), Waiting(states[n].unconsumed, q);
      TakenConcat(log, HandedOver(s, e), q);
      Associative(Taken(log, q), Taken(HandedOver(s, e), q), w);
      Associative(Taken(log, q), Waiting(s.unconsumed, q), Arrived(e, q));
    }
  }

  lemma FifoStep(s: Queues, e: Event, q: QueueName)
    requires Enabled(s, e)
    ensures Taken(HandedOver(s, e), q) + Waiting(Next(s, e).unconsumed, q) == Waiting(s.unconsumed, q) + Arrived(e, q)
    ensures forall b :: b in HandedOver(s, e) ==> |b.ids| == b.command.count
  {
    assert Arrived(e, q) == [] ==> Waiting(s.unconsumed, q) + Arrived(e, q) == Waiting(s.unconsumed, q);
    match e
    case Register(sid, cs, w, order) =>
      RegisterFifo(s, sid, cs, w, order, q);
    case Arrive(_, id, pick) => ArrivalFifo(s, e.q, id, pick, q);
    case Forget(_) =>
  }

  lemma RegisterFifo(
    s: Queues, sid: StateExecutionId, cs: seq<Command>, w: WaitingType, order: seq<int>, q: QueueName)
    requires Enabled(s, Register(sid, cs, w, order))
    ensures var e := Register(sid, cs, w, order);
      && Taken(HandedOver(s, e), q) + Waiting(Next(s, e).unconsumed, q) == Waiting(s.unconsumed, q)
      && forall b :: b in HandedOver(s, e) ==> |b.ids| == b.command.count
  {
    hide Taken, VisitAll, VisitLog, Waiting;
    var cmds := CommandsOf(AddCommands(s, sid, cs), sid);
    assert Next(s, Register(sid, cs, w, order)).unconsumed == VisitAll(cmds, s.unconsumed, w, order).unconsumed;
    VisitFifo(sid, cmds, s.unconsumed, w, order, q);
  }

  lemma ArrivalFifo(s: Queues, at: QueueName, id: DedupId, pick: Pick, q: QueueName)
    requires ValidPick(Append(s, at, id), at, pick)
    ensures var e := Arrive(at, id, pick);
      && Taken(HandedOver(s, e), q) + Waiting(Next(s, e).unconsumed, q) == Waiting(s.unconsumed, q) + Arrived(e, q)
      && forall b :: b in HandedOver(s, e) ==> |b.ids| == b.command.count
  {
    if pick.Picked? {
      TakenOne(HandedOver(s, Arrive(at, id, pick))[0], q);
      var ids, count := Waiting(s.unconsumed, at) + [id], s.commands[pick.sid][pick.index].count;
      assert ids == ids[..count] + ids[count..];
    }
  }

  /** No lost wake-up at any point of any run. */
  lemma {:induction false} NeverALostWakeUp(states: seq<Queues>, events: seq<Event>, n: nat)
    requires IsRun(states, events) && n <= |events|
    ensures Positive(states[n]) && NoLostWakeUp(states[n])
  {
    if n > 0 {
      NeverALostWakeUp(states, events, n - 1);
      var s := states[n - 1];
      match events[n - 1]
      case Register(sid, cs, w, order) => RegisterKeepsNoLostWakeUp(s, sid, cs, w, order);
      case Arrive(q, id, pick) => ArrivalKeepsNoLostWakeUp(s, q, id, pick);
      case Forget(sid) => CleanupKeepsNoLostWakeUp(s, sid);
    }
  }

  lemma CleanupKeepsNoLostWakeUp(s: Queues, sid: StateExecutionId)
    requires Positive(s) && NoLostWakeUp(s)
    ensures Positive(Cleanup(s, sid)) && NoLostWakeUp(Cleanup(s, sid))
    ensures NoEmptyEntries(s) ==> NoEmptyEntries(Cleanup(s, sid))
  {
    forall other, i | Registered(Cleanup(s, sid), other, i)
      ensures 1 <= s.commands[other][i].count && !Fits(Cleanup(s, sid), other, i)
    {
      assert Registered(s, other, i) && !Fits(s, other, i);
    }
  }
}
