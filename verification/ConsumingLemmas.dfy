/** Consuming messages moves them from their queue's cell to the consuming command's result cell. */
module ConsumingLemmas {
  import opened StateExecutionIds
  import opened LocalQueues
  import opened Invariants
  import opened Ledgers

  function CellWith(l: Ledger, u: Unconsumed, sid: StateExecutionId, consumed: map<int, seq<DedupId>>, c: Cell)
    : seq<DedupId>
  {
    match c
    case QueueCell(q) => Waiting(u, q)
    case ResultCell(s, i) => if s == sid && i in consumed then consumed[i] else l(c)
    case TaskCell(_) => l(c)
  }

  /** The ledger with the queue cells taken from `u` and some result cells from what a state consumed. */
  function WithQueues(l: Ledger, u: Unconsumed, sid: StateExecutionId, consumed: map<int, seq<DedupId>>): Ledger {
    c => CellWith(l, u, sid, consumed, c)
  }

  /** The messages the loop consumes were on the commands' queues, and the rest stays on its queue. */
  ghost predicate FromTheirQueues(
    cmds: map<int, Command>, u: Unconsumed, u': Unconsumed, consumed: map<int, seq<DedupId>>)
  {
    && (forall i, id :: i in consumed && id in consumed[i] ==> i in cmds && id in Waiting(u, cmds[i].queue))
    && (forall q, id :: id in Waiting(u', q) ==> id in Waiting(u, q))
  }

  lemma {:induction false} VisitAllFromQueues(
    cmds: map<int, Command>, u: Unconsumed, w: WaitingType, order: seq<int>)
    requires forall i :: i in order ==> i in cmds
    ensures var p := VisitAll(cmds, u, w, order); FromTheirQueues(cmds, u, p.unconsumed, p.consumed)
  {
    if order != [] {
      VisitAllFromQueues(cmds, u, w, order[..|order| - 1]);
    }
  }

  /** Whatever the order, every message stays in exactly one place. */
  lemma {:induction false} VisitAllMoves(
    l: Ledger, ids: set<DedupId>, sid: StateExecutionId,
    cmds: map<int, Command>, u: Unconsumed, w: WaitingType, order: seq<int>)
    requires forall i :: i in order ==> i in cmds
    requires forall i, j :: 0 <= i < j < |order| ==> order[i] != order[j]
    requires ExactlyOnce(l, ids)
    requires forall q :: l(QueueCell(q)) == Waiting(u, q)
    requires forall i :: i in cmds ==> l(ResultCell(sid, i)) == []
    ensures var p := VisitAll(cmds, u, w, order);
      && ExactlyOnce(WithQueues(l, p.unconsumed, sid, p.consumed), ids)
      && (forall i :: i in p.consumed ==> i in order)
  {
    if order == [] {
      SameLedger(l, WithQueues(l, u, sid, map[]), ids);
    } else {
      var front, i := order[..|order| - 1], order[|order| - 1];
      VisitAllMoves(l, ids, sid, cmds, u, w, front);
      var p := VisitAll(cmds, u, w, front);
      assert order == front + [i] && i !in front;
      if !Skipped(p, cmds[i]) {
        VisitMoves(l, ids, sid, p, i, cmds[i], w);
      }
    }
  }

  lemma VisitMoves(l: Ledger, ids: set<DedupId>, sid: StateExecutionId, p: Progress, i: int, c: Command, w: WaitingType)
    requires !Skipped(p, c) && i !in p.consumed && l(ResultCell(sid, i)) == []
    requires ExactlyOnce(WithQueues(l, p.unconsumed, sid, p.consumed), ids)
    ensures var p' := Visit(p, i, c, w); ExactlyOnce(WithQueues(l, p'.unconsumed, sid, p'.consumed), ids)
  {
    var p' := Visit(p, i, c, w);
    var before, after := WithQueues(l, p.unconsumed, sid, p.consumed), WithQueues(l, p'.unconsumed, sid, p'.consumed);
    var from, to := QueueCell(c.queue), ResultCell(sid, i);
    forall d | d != from && d != to
      ensures CellWith(l, p'.unconsumed, sid, p'.consumed, d) == CellWith(l, p.unconsumed, sid, p.consumed, d)
    {
    }
    assert before(from) == p.unconsumed[c.queue];
    assert before(to) == [];
    assert after(to) == before(to) + before(from)[..c.count];
    MovingKeeps(before, after, from, c.count, to, ids);
  }
}
