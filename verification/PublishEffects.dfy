/** What publishing leaves behind, in plain terms: which message of a dedup id wins, and the order of those accepted. */
module PublishEffects {
  import opened LocalQueues
  import opened ProcessModel

  /** Message `n` is the first of its dedup id, and the id was not known. */
  ghost predicate FirstNew(rows: map<DedupId, MessageRow>, ms: seq<PublishedMessage>, n: int) {
    && 0 <= n < |ms| && ms[n].dedupId !in rows
    && forall m :: 0 <= m < n ==> ms[m].dedupId != ms[n].dedupId
  }

  /** The positions of those messages, in order. */
  ghost predicate Firsts(rows: map<DedupId, MessageRow>, ms: seq<PublishedMessage>, positions: seq<int>) {
    && (forall i, j :: 0 <= i < j < |positions| ==> positions[i] < positions[j])
    && (forall n :: n in positions <==> FirstNew(rows, ms, n))
  }

  /** `accepted` lists them as they were published. */
  ghost predicate Lists(ms: seq<PublishedMessage>, positions: seq<int>, accepted: seq<QueuedMessage>) {
    && |accepted| == |positions|
    && (forall k :: 0 <= k < |positions| ==>
          && 0 <= positions[k] < |ms|
          && accepted[k] == QueuedMessage(ms[positions[k]].queue, ms[positions[k]].dedupId))
  }

  ghost predicate AcceptedInOrder(
    rows: map<DedupId, MessageRow>, ms: seq<PublishedMessage>, accepted: seq<QueuedMessage>)
  {
    exists positions :: Firsts(rows, ms, positions) && Lists(ms, positions, accepted)
  }

  /** Every dedup id is there, with its first message's queue and payload if it is new, and no other row changed. */
  ghost predicate RowsInserted(
    rows: map<DedupId, MessageRow>, rows': map<DedupId, MessageRow>, ms: seq<PublishedMessage>)
  {
    && (forall n :: 0 <= n < |ms| ==> ms[n].dedupId in rows')
    && (forall n :: FirstNew(rows, ms, n) ==> rows'[ms[n].dedupId] == MessageRow(ms[n].queue, ms[n].payload))
    && (forall id :: id in rows ==> id in rows' && rows'[id] == rows[id])
    && (forall id :: id in rows' ==> id in rows || exists n :: FirstNew(rows, ms, n) && ms[n].dedupId == id)
  }

  /** The rows, and one new task that carries what was accepted, or none. */
  ghost predicate AllPublished(e: Execution, e': Execution, ms: seq<PublishedMessage>) {
    && RowsInserted(e.messages, e'.messages, ms)
    && e'.process == e.process && e'.states == e.states && e'.timers == e.timers
    && exists accepted ::
         && AcceptedInOrder(e.messages, ms, accepted)
         && e'.immediate == (if accepted == [] then e.immediate else e.immediate[e.next := QueueTask(accepted)])
         && e'.next == (if accepted == [] then e.next else e.next + 1)
  }

  lemma FirstNewOneMore(rows: map<DedupId, MessageRow>, front: seq<PublishedMessage>, m: PublishedMessage)
    ensures forall n :: FirstNew(rows, front + [m], n) <==>
              FirstNew(rows, front, n) || (n == |front| && FirstNew(rows, front + [m], |front|))
  {
    var ms := front + [m];
    forall n | 0 <= n < |front| ensures FirstNew(rows, ms, n) <==> FirstNew(rows, front, n) {
      assert ms[n] == front[n] && forall k :: 0 <= k < n ==> ms[k] == front[k];
    }
  }

  /** The last message is taken exactly when its id is not there yet. */
  lemma LastIsNewIff(
    rows: map<DedupId, MessageRow>, before: map<DedupId, MessageRow>, front: seq<PublishedMessage>, m: PublishedMessage)
    requires RowsInserted(rows, before, front)
    ensures FirstNew(rows, front + [m], |front|) <==> m.dedupId !in before
  {
    var ms := front + [m];
    assert forall k :: 0 <= k < |front| ==> ms[k] == front[k];
    if m.dedupId in before && m.dedupId !in rows {
      var n :| FirstNew(rows, front, n) && front[n].dedupId == m.dedupId;
      assert ms[n].dedupId == ms[|front|].dedupId;
    } else if m.dedupId !in before {
      assert forall k :: 0 <= k < |front| ==> front[k].dedupId in before;
    }
  }

  lemma RowsOneMore(
    rows: map<DedupId, MessageRow>, before: map<DedupId, MessageRow>, rows': map<DedupId, MessageRow>,
    front: seq<PublishedMessage>, m: PublishedMessage)
    requires RowsInserted(rows, before, front)
    requires rows' == if m.dedupId in before then before else before[m.dedupId := MessageRow(m.queue, m.payload)]
    ensures RowsInserted(rows, rows', front + [m])
  {
    var ms := front + [m];
    FirstNewOneMore(rows, front, m);
    LastIsNewIff(rows, before, front, m);
    assert forall k :: 0 <= k < |front| ==> ms[k] == front[k];
    forall id | id in rows' && id !in rows ensures exists n :: FirstNew(rows, ms, n) && ms[n].dedupId == id {
      if id in before {
        var n :| FirstNew(rows, front, n) && front[n].dedupId == id;
        assert FirstNew(rows, ms, n) && ms[n].dedupId == id;
      } else {
        assert FirstNew(rows, ms, |front|) && ms[|front|].dedupId == id;
      }
    }
  }

  lemma OneMoreFirst(
    rows: map<DedupId, MessageRow>, front: seq<PublishedMessage>, m: PublishedMessage, positions: seq<int>,
    accepted: seq<QueuedMessage>)
    requires Firsts(rows, front, positions) && Lists(front, positions, accepted)
    requires FirstNew(rows, front + [m], |front|)
    requires forall n :: FirstNew(rows, front + [m], n) <==>
               FirstNew(rows, front, n) || (n == |front| && FirstNew(rows, front + [m], |front|))
    ensures Firsts(rows, front + [m], positions + [|front|])
    ensures Lists(front + [m], positions + [|front|], accepted + [QueuedMessage(m.queue, m.dedupId)])
  {
    hide FirstNew;
  }

  lemma NoOtherFirst(
    rows: map<DedupId, MessageRow>, front: seq<PublishedMessage>, m: PublishedMessage, positions: seq<int>,
    accepted: seq<QueuedMessage>)
    requires Firsts(rows, front, positions) && Lists(front, positions, accepted)
    requires forall n :: FirstNew(rows, front + [m], n) <==> FirstNew(rows, front, n)
    ensures Firsts(rows, front + [m], positions) && Lists(front + [m], positions, accepted)
  {
    hide FirstNew;
  }

  lemma OrderOneMore(
    rows: map<DedupId, MessageRow>, before: map<DedupId, MessageRow>, front: seq<PublishedMessage>, m: PublishedMessage,
    accepted: seq<QueuedMessage>)
    requires RowsInserted(rows, before, front) && AcceptedInOrder(rows, front, accepted)
    ensures AcceptedInOrder(rows, front + [m],
                            if m.dedupId in before then accepted else accepted + [QueuedMessage(m.queue, m.dedupId)])
  {
    hide FirstNew, RowsInserted, Firsts, Lists;
    FirstNewOneMore(rows, front, m);
    LastIsNewIff(rows, before, front, m);
    var positions :| Firsts(rows, front, positions) && Lists(front, positions, accepted);
    if m.dedupId in before {
      NoOtherFirst(rows, front, m, positions, accepted);
    } else {
      OneMoreFirst(rows, front, m, positions, accepted);
    }
  }

  lemma {:induction false} InsertingAll(rows: map<DedupId, MessageRow>, ms: seq<PublishedMessage>)
    ensures var (rows', accepted) := InsertMessages(rows, ms);
      RowsInserted(rows, rows', ms) && AcceptedInOrder(rows, ms, accepted)
  {
    if ms == [] {
      assert Firsts(rows, ms, []) && Lists(ms, [], []);
    } else {
      var front, m := ms[..|ms| - 1], ms[|ms| - 1];
      InsertingAll(rows, front);
      var (before, accepted) := InsertMessages(rows, front);
      assert ms == front + [m];
      hide RowsInserted, AcceptedInOrder;
      RowsOneMore(rows, before, InsertMessages(rows, ms).0, front, m);
      OrderOneMore(rows, before, front, m, accepted);
    }
  }

  lemma PublishingAll(e: Execution, ms: seq<PublishedMessage>)
    ensures AllPublished(e, Publish(e, ms), ms)
  {
    InsertingAll(e.messages, ms);
    hide RowsInserted, AcceptedInOrder, InsertMessages;
    assert AcceptedInOrder(e.messages, ms, InsertMessages(e.messages, ms).1);
  }
}
