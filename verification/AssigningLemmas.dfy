/** Handing the messages of a queue task to waiting states, one arrival after the other. */
module AssigningLemmas {
  import opened StateExecutionIds
  import opened LocalQueues
  import opened LocalQueueTheorems
  import opened ProcessModel
  import opened Transactions
  import opened Invariants
  import opened Ledgers
  import opened WaitingLemmas

  /** Each command registered before is still registered or was given exactly the messages it asked for. */
  ghost predicate AssignedFrom(s: Queues, s': Queues, a: Assigned) {
    && Positive(s') && NoLostWakeUp(s') && NoEmptyEntries(s')
    && (forall sid, i :: Registered(s', sid, i) ==>
          Registered(s, sid, i) && s'.commands[sid][i] == s.commands[sid][i] && !Given(a, sid, i))
    && (forall sid, i :: Given(a, sid, i) ==>
          Registered(s, sid, i) && !Registered(s', sid, i) && |a[sid][i]| == s.commands[sid][i].count)
    && (forall sid, i :: Registered(s, sid, i) ==> Registered(s', sid, i) || Given(a, sid, i))
    && (forall sid :: sid in a ==> a[sid] != map[])
  }

  lemma ConsumeTakesOne(s: Queues, sid: StateExecutionId, i: int)
    requires Fits(s, sid, i)
    ensures var (s', ids) := Consume(s, sid, i);
      && |ids| == s.commands[sid][i].count
      && (forall other, j :: Registered(s', other, j) <==> Registered(s, other, j) && !(other == sid && j == i))
      && (forall other, j :: Registered(s', other, j) ==> s'.commands[other][j] == s.commands[other][j])
  {
    var (s', ids) := Consume(s, sid, i);
    var rest := s.commands[sid] - {i};
    if rest == map[] {
      forall j | Registered(s, sid, j) ensures j == i {
        assert j != i ==> j in rest;
      }
    }
  }

  lemma AssignStep(s: Queues, s1: Queues, a: Assigned, m: QueuedMessage, pick: Pick)
    requires AssignedFrom(s, s1, a)
    requires ValidPick(Append(s1, m.queue, m.dedupId), m.queue, pick)
    ensures var (s2, ids) := AddMessage(s1, m.queue, m.dedupId, pick);
      AssignedFrom(s, s2, if pick.Picked? then AssignTo(a, pick.sid, pick.index, ids) else a)
  {
    ArrivalKeepsNoLostWakeUp(s1, m.queue, m.dedupId, pick);
    hide Positive, NoLostWakeUp, NoEmptyEntries;
    var appended := Append(s1, m.queue, m.dedupId);
    assert forall sid, i :: Registered(appended, sid, i) <==> Registered(s1, sid, i);
    if pick.Picked? {
      var (s2, ids) := AddMessage(s1, m.queue, m.dedupId, pick);
      var a2 := AssignTo(a, pick.sid, pick.index, ids);
      ConsumeTakesOne(appended, pick.sid, pick.index);
      assert forall sid, i :: Given(a2, sid, i) <==> Given(a, sid, i) || (sid == pick.sid && i == pick.index);
      assert pick.index in a2[pick.sid];
    }
  }

  lemma {:induction false} AssignAllAssigns(s: Queues, ms: seq<QueuedMessage>, picks: seq<Pick>)
    requires Positive(s) && NoLostWakeUp(s) && NoEmptyEntries(s)
    requires ValidPicks(s, ms, picks)
    ensures var (s', a) := AssignAll(s, ms, picks); AssignedFrom(s, s', a)
  {
    if ms != [] {
      var n := |ms| - 1;
      AssignAllAssigns(s, ms[..n], picks[..n]);
      var (before, a) := AssignAll(s, ms[..n], picks[..n]);
      AssignStep(s, before, a, ms[n], picks[n]);
    }
  }

  // ---------- where the messages are ----------

  function CellGiven(l: Ledger, task: int, rest: seq<DedupId>, u: Unconsumed, a: Assigned, c: Cell): seq<DedupId> {
    match c
    case TaskCell(t) => if t == task then rest else l(c)
    case QueueCell(q) => Waiting(u, q)
    case ResultCell(s, i) => if s in a && i in a[s] then a[s][i] else l(c)
  }

  /** The ledger while the task's messages are handed out: `rest` is still to arrive. */
  function WithGiven(l: Ledger, task: int, rest: seq<DedupId>, u: Unconsumed, a: Assigned): Ledger {
    c => CellGiven(l, task, rest, u, a, c)
  }

  /** The ledger `l` before the task, seen from the queues `s`. */
  ghost predicate Before(l: Ledger, task: int, full: seq<QueuedMessage>, s: Queues) {
    && l(TaskCell(task)) == TaskIds(full)
    && (forall q :: l(QueueCell(q)) == Waiting(s.unconsumed, q))
    && (forall sid, i :: Registered(s, sid, i) ==> l(ResultCell(sid, i)) == [])
  }

  lemma ArrivalMoves(
    l: Ledger, ids: set<DedupId>, task: int, rest: seq<DedupId>, s: Queues, a: Assigned, m: QueuedMessage)
    requires rest != [] && rest[0] == m.dedupId
    ensures ExactlyOnce(WithGiven(l, task, rest, s.unconsumed, a), ids)
       <==> ExactlyOnce(WithGiven(l, task, rest[1..], Append(s, m.queue, m.dedupId).unconsumed, a), ids)
  {
    var u' := Append(s, m.queue, m.dedupId).unconsumed;
    var before, after := WithGiven(l, task, rest, s.unconsumed, a), WithGiven(l, task, rest[1..], u', a);
    var from, to := TaskCell(task), QueueCell(m.queue);
    forall c | c != from && c != to
      ensures CellGiven(l, task, rest[1..], u', a, c) == CellGiven(l, task, rest, s.unconsumed, a, c)
    {
    }
    assert before(from) == rest && after(from) == rest[1..];
    assert rest[..1] == [m.dedupId];
    assert after(to) == before(to) + before(from)[..1];
    MovingKeepsIff(before, after, from, 1, to, ids);
  }

  lemma ConsumingMoves(
    l: Ledger, ids: set<DedupId>, task: int, rest: seq<DedupId>, s: Queues, a: Assigned, sid: StateExecutionId, i: int)
    requires Fits(s, sid, i) && !Given(a, sid, i) && l(ResultCell(sid, i)) == []
    ensures var (s', taken) := Consume(s, sid, i);
      ExactlyOnce(WithGiven(l, task, rest, s.unconsumed, a), ids)
      <==> ExactlyOnce(WithGiven(l, task, rest, s'.unconsumed, AssignTo(a, sid, i, taken)), ids)
  {
    var (s', taken) := Consume(s, sid, i);
    var c, a' := s.commands[sid][i], AssignTo(a, sid, i, taken);
    var before, after := WithGiven(l, task, rest, s.unconsumed, a), WithGiven(l, task, rest, s'.unconsumed, a');
    var from, to := QueueCell(c.queue), ResultCell(sid, i);
    forall d | d != from && d != to
      ensures CellGiven(l, task, rest, s'.unconsumed, a', d) == CellGiven(l, task, rest, s.unconsumed, a, d)
    {
    }
    assert before(to) == [] && after(to) == taken;
    assert before(from) == Waiting(s.unconsumed, c.queue);
    assert after(to) == before(to) + before(from)[..c.count];
    MovingKeepsIff(before, after, from, c.count, to, ids);
  }

  lemma AssignStepMoves(
    l: Ledger, ids: set<DedupId>, task: int, rest: seq<DedupId>, s: Queues, s1: Queues, a: Assigned,
    m: QueuedMessage, pick: Pick)
    requires rest != [] && rest[0] == m.dedupId
    requires AssignedFrom(s, s1, a)
    requires forall sid, i :: Registered(s, sid, i) ==> l(ResultCell(sid, i)) == []
    requires ValidPick(Append(s1, m.queue, m.dedupId), m.queue, pick)
    ensures var (s2, taken) := AddMessage(s1, m.queue, m.dedupId, pick);
      ExactlyOnce(WithGiven(l, task, rest, s1.unconsumed, a), ids)
      <==> ExactlyOnce(WithGiven(l, task, rest[1..], s2.unconsumed,
                                 if pick.Picked? then AssignTo(a, pick.sid, pick.index, taken) else a), ids)
  {
    ArrivalMoves(l, ids, task, rest, s1, a, m);
    if pick.Picked? {
      assert Registered(s1, pick.sid, pick.index);
      ConsumingMoves(l, ids, task, rest[1..], Append(s1, m.queue, m.dedupId), a, pick.sid, pick.index);
    }
  }

  /** After every message has arrived the task's cell is empty, and each is in exactly one place if it was before. */
  lemma {:induction false} AssignAllMoves(
    l: Ledger, ids: set<DedupId>, task: int, full: seq<QueuedMessage>, s: Queues, picks: seq<Pick>, n: nat)
    requires n <= |full| == |picks|
    requires Positive(s) && NoLostWakeUp(s) && NoEmptyEntries(s)
    requires ValidPicks(s, full[..n], picks[..n])
    requires Before(l, task, full, s)
    ensures var (s', a) := AssignAll(s, full[..n], picks[..n]);
      ExactlyOnce(l, ids) <==> ExactlyOnce(WithGiven(l, task, TaskIds(full)[n..], s'.unconsumed, a), ids)
  {
    if n == 0 {
      assert TaskIds(full)[0..] == TaskIds(full);
      var l' := WithGiven(l, task, TaskIds(full)[0..], s.unconsumed, map[]);
      forall c ensures l'(c) == l(c) {
        assert l'(c) == CellGiven(l, task, TaskIds(full), s.unconsumed, map[], c);
      }
      SameLedgerIff(l, l', ids);
    } else {
      assert full[..n][..n - 1] == full[..n - 1] && picks[..n][..n - 1] == picks[..n - 1];
      AssignAllMoves(l, ids, task, full, s, picks, n - 1);
      AssignAllAssigns(s, full[..n - 1], picks[..n - 1]);
      var (before, a) := AssignAll(s, full[..n - 1], picks[..n - 1]);
      var rest := TaskIds(full)[n - 1..];
      assert rest[1..] == TaskIds(full)[n..];
      AssignStepMoves(l, ids, task, rest, s, before, a, full[n - 1], picks[n - 1]);
    }
  }

  // ---------- the queue each message was published to ----------

  ghost predicate GivenFaithful(messages: map<DedupId, MessageRow>, s: Queues, a: Assigned) {
    forall sid, i, id :: Given(a, sid, i) && Registered(s, sid, i) && id in a[sid][i] ==>
      id in messages && messages[id].queue == s.commands[sid][i].queue
  }

  lemma AssignStepFaithful(
    messages: map<DedupId, MessageRow>, s: Queues, s1: Queues, a: Assigned, m: QueuedMessage, pick: Pick)
    requires AssignedFrom(s, s1, a)
    requires ValidPick(Append(s1, m.queue, m.dedupId), m.queue, pick)
    requires m.dedupId in messages && messages[m.dedupId].queue == m.queue
    requires QueuesFaithful(messages, s1.unconsumed) && GivenFaithful(messages, s, a)
    ensures var (s2, ids) := AddMessage(s1, m.queue, m.dedupId, pick);
      && QueuesFaithful(messages, s2.unconsumed)
      && GivenFaithful(messages, s, if pick.Picked? then AssignTo(a, pick.sid, pick.index, ids) else a)
  {
    var appended := Append(s1, m.queue, m.dedupId);
    forall q, id | id in Waiting(appended.unconsumed, q) ensures id in messages && messages[id].queue == q {
      assert q == m.queue ==> Waiting(appended.unconsumed, q) == Waiting(s1.unconsumed, q) + [m.dedupId];
      assert id in Waiting(s1.unconsumed, q) || (q == m.queue && id == m.dedupId);
    }
    if pick.Picked? {
      assert Registered(s1, pick.sid, pick.index);
      ConsumeFaithful(messages, s, appended, a, pick.sid, pick.index);
    }
  }

  lemma ConsumeFaithful(
    messages: map<DedupId, MessageRow>, s: Queues, s1: Queues, a: Assigned, sid: StateExecutionId, i: int)
    requires Fits(s1, sid, i) && Registered(s, sid, i) && s1.commands[sid][i] == s.commands[sid][i]
    requires QueuesFaithful(messages, s1.unconsumed) && GivenFaithful(messages, s, a)
    ensures var (s2, ids) := Consume(s1, sid, i);
      QueuesFaithful(messages, s2.unconsumed) && GivenFaithful(messages, s, AssignTo(a, sid, i, ids))
  {
    var (s2, ids) := Consume(s1, sid, i);
    var q := s1.commands[sid][i].queue;
    assert forall id :: id in ids ==> id in Waiting(s1.unconsumed, q);
    forall other, id | id in Waiting(s2.unconsumed, other) ensures id in Waiting(s1.unconsumed, other) {
    }
    AssignToFaithful(messages, s, a, sid, i, ids);
  }

  lemma AssignToFaithful(
    messages: map<DedupId, MessageRow>, s: Queues, a: Assigned, sid: StateExecutionId, i: int, ids: seq<DedupId>)
    requires Registered(s, sid, i) && GivenFaithful(messages, s, a)
    requires forall id :: id in ids ==> id in messages && messages[id].queue == s.commands[sid][i].queue
    ensures GivenFaithful(messages, s, AssignTo(a, sid, i, ids))
  {
    var a2 := AssignTo(a, sid, i, ids);
    forall t, j, id | Given(a2, t, j) && Registered(s, t, j) && id in a2[t][j]
      ensures id in messages && messages[id].queue == s.commands[t][j].queue
    {
      if t == sid && j == i {
        assert id in ids;
      } else {
        assert Given(a, t, j);
        assert id in a[t][j];
      }
    }
  }

  lemma {:induction false} AssignAllFaithful(
    messages: map<DedupId, MessageRow>, s: Queues, ms: seq<QueuedMessage>, picks: seq<Pick>)
    requires Positive(s) && NoLostWakeUp(s) && NoEmptyEntries(s)
    requires ValidPicks(s, ms, picks)
    requires QueuesFaithful(messages, s.unconsumed)
    requires forall n :: 0 <= n < |ms| ==> ms[n].dedupId in messages && messages[ms[n].dedupId].queue == ms[n].queue
    ensures var (s', a) := AssignAll(s, ms, picks);
      QueuesFaithful(messages, s'.unconsumed) && GivenFaithful(messages, s, a)
  {
    if ms == [] {
      assert AssignAll(s, ms, picks).1 == map[];
    } else {
      var n := |ms| - 1;
      AssignAllFaithful(messages, s, ms[..n], picks[..n]);
      AssignAllAssigns(s, ms[..n], picks[..n]);
      var (before, a) := AssignAll(s, ms[..n], picks[..n]);
      AssignStepFaithful(messages, s, before, a, ms[n], picks[n]);
    }
  }
}
