/** The timer queue in place: its heap, its gates and the handlers of its event loop. */
module TimerTaskQueues {
  import opened Wrappers
  import opened TimerGates
  import opened TimerQueue
  import opened TimerQueueTheorems

  // ---------- the heap ----------

  class TimerTaskPriorityQueue {
    var items: seq<Timer>

    constructor (tasks: seq<Timer>)
      ensures items == tasks
    {
      items := tasks;
    }

    function Len(): nat
      reads this
    {
      |items|
    }

    predicate Less(i: nat, j: nat)
      requires i < |items| && j < |items|
      reads this
    {
      items[i].fireTime < items[j].fireTime
    }

    method Swap(i: nat, j: nat)
      requires i < |items| && j < |items|
      modifies this
      ensures items == old(items)[i := old(items)[j]][j := old(items)[i]]
      ensures multiset(items) == multiset(old(items))
    {
      items := items[i := items[j]][j := items[i]];
    }

    method Push(t: Timer)
      modifies this
      ensures items == old(items) + [t]
    {
      items := items + [t];
    }

    method Pop() returns (t: Timer)
      requires items != []
      modifies this
      ensures items + [t] == old(items)
    {
      var n := |items|;
      t := items[n - 1];
      items := items[..n - 1];
    }
  }

  /** What the queue relies on: the element at index 0 is a minimum. */
  ghost predicate MinFirst(items: seq<Timer>) {
    forall n :: 0 <= n < |items| ==> items[0].fireTime <= items[n].fireTime
  }

  lemma FirstIsMinimum(items: seq<Timer>)
    requires MinFirst(items) && items != []
    ensures IsMinimum(multiset(items), items[0])
  {
  }

  method HeapInit(pq: TimerTaskPriorityQueue)
    modifies pq
    ensures MinFirst(pq.items) && multiset(pq.items) == multiset(old(pq.items))
  {
    if pq.Len() == 0 {
      return;
    }
    var least := 0;
    for n := 0 to pq.Len()
      invariant 0 <= least < |pq.items| && pq.items == old(pq.items)
      invariant forall k :: 0 <= k < n ==> pq.items[least].fireTime <= pq.items[k].fireTime
    {
      if pq.Less(n, least) {
        least := n;
      }
    }
    pq.Swap(0, least);
  }

  method HeapPush(pq: TimerTaskPriorityQueue, t: Timer)
    requires MinFirst(pq.items)
    modifies pq
    ensures MinFirst(pq.items) && multiset(pq.items) == multiset(old(pq.items)) + multiset{t}
  {
    pq.Push(t);
    var last := pq.Len() - 1;
    if pq.Less(last, 0) {
      pq.Swap(0, last);
    }
  }

  method HeapPop(pq: TimerTaskPriorityQueue) returns (t: Timer)
    requires MinFirst(pq.items) && pq.items != []
    modifies pq
    ensures t == old(pq.items)[0]
    ensures MinFirst(pq.items) && multiset(pq.items) + multiset{t} == multiset(old(pq.items))
  {
    pq.Swap(0, pq.Len() - 1);
    assert pq.items[|pq.items| - 1] == old(pq.items)[0];
    t := pq.Pop();
    HeapInit(pq);
  }

  method PushAll(pq: TimerTaskPriorityQueue, tasks: seq<Timer>)
    requires MinFirst(pq.items)
    modifies pq
    ensures MinFirst(pq.items) && multiset(pq.items) == multiset(old(pq.items)) + multiset(tasks)
  {
    for n := 0 to |tasks|
      invariant MinFirst(pq.items) && multiset(pq.items) == multiset(old(pq.items)) + multiset(tasks[..n])
    {
      assert tasks[..n + 1] == tasks[..n] + [tasks[n]];
      HeapPush(pq, tasks[n]);
    }
    assert tasks[..|tasks|] == tasks;
  }

  method NewTimerTaskPriorityQueue(tasks: seq<Timer>) returns (pq: TimerTaskPriorityQueue)
    ensures fresh(pq) && MinFirst(pq.items) && multiset(pq.items) == multiset(tasks)
  {
    pq := new TimerTaskPriorityQueue(tasks);
    HeapInit(pq);
  }

  /** A clock that never goes back. */
  class Clock {
    var now: int

    constructor (start: int)
      ensures now == start
    {
      now := start;
    }

    method Now() returns (time: int)
      modifies this
      ensures time == now && old(now) <= now
    {
      var elapsed :| 0 <= elapsed;
      now := now + elapsed;
      time := now;
    }
  }

  // ---------- the queue ----------

  lemma EarliestGrows(requests: seq<seq<int>>, last: seq<int>)
    ensures Earliest(requests + [last]) == Min(Earliest(requests), MinOf(last))
  {
    assert (requests + [last])[..|requests|] == requests;
  }

  lemma {:induction false} EarliestIsBounded(requests: seq<seq<int>>)
    ensures Earliest(requests) <= MAX_INT64
  {
    if requests != [] {
      EarliestIsBounded(requests[..|requests| - 1]);
    }
  }

  lemma {:induction false} MinOfIsBounded(request: seq<int>)
    ensures MinOf(request) <= MAX_INT64
  {
    if request != [] {
      MinOfIsBounded(request[..|request| - 1]);
    }
  }

  lemma AcceptedGrows(requests: seq<seq<int>>, last: seq<int>, window: int)
    ensures Accepted(requests + [last], window) == Accepted(requests, window) + Accepted([last], window)
    ensures Earliest(Accepted(requests + [last], window))
         == Min(Earliest(Accepted(requests, window)), Earliest(Accepted([last], window)))
  {
    assert (requests + [last])[..|requests|] == requests;
    assert [last][..0] == [];
    var filtered := Within(last, window);
    assert Accepted([last], window) == if filtered == [] then [] else [filtered];
    EarliestIsBounded(Accepted(requests, window));
    if filtered == [] {
      assert Accepted(requests, window) + [] == Accepted(requests, window);
    } else {
      EarliestGrows(Accepted(requests, window), filtered);
      EarliestGrows([], filtered);
      assert [] + [filtered] == [filtered];
      MinOfIsBounded(filtered);
    }
  }

  /** `pending` and `min` are what noting these requests after `before` leads to. */
  ghost predicate Noted(
    before: seq<seq<int>>, requests: seq<seq<int>>, window: int, pending: seq<seq<int>>, min: int)
  {
    pending == before + Accepted(requests, window) && min == Earliest(Accepted(requests, window)) <= MAX_INT64
  }

  lemma NotedOneMore(
    before: seq<seq<int>>, requests: seq<seq<int>>, request: seq<int>, window: int, pending: seq<seq<int>>, min: int)
    requires Noted(before, requests, window, pending, min)
    ensures Noted(before, requests + [request], window,
                  pending + Accepted([request], window), Min(min, Earliest(Accepted([request], window))))
  {
    hide Accepted, Earliest;
    AcceptedGrows(requests, request, window);
    EarliestIsBounded(Accepted(requests + [request], window));
  }

  /** The loop's progress: what was sent, in order and in time, and what remains is no earlier. */
  ghost predicate SentSoFar(
    heap: multiset<Timer>, items: seq<Timer>, sendings: seq<Sending>, start: int, last: int)
  {
    && heap == multiset(items) + multiset(TimersOf(sendings))
    && (forall n :: 0 <= n < |sendings| ==>
          sendings[n].timer.fireTime <= ToUnix(sendings[n].at) && start <= sendings[n].at <= last)
    && (forall m, n :: 0 <= m < n < |sendings| ==>
          sendings[m].timer.fireTime <= sendings[n].timer.fireTime && sendings[m].at <= sendings[n].at)
    && (forall t, n :: t in items && 0 <= n < |sendings| ==> sendings[n].timer.fireTime <= t.fireTime)
  }

  lemma SendingOneMore(
    heap: multiset<Timer>, items: seq<Timer>, items': seq<Timer>, sendings: seq<Sending>, start: int, last: int,
    now: int)
    requires SentSoFar(heap, items, sendings, start, last) && start <= last <= now
    requires MinFirst(items) && items != [] && multiset(items') + multiset{items[0]} == multiset(items)
    requires items[0].fireTime <= ToUnix(now)
    ensures SentSoFar(heap, items', sendings + [Sending(items[0], now)], start, now)
  {
    TimersOfConcat(sendings, [Sending(items[0], now)]);
    forall t | t in items' ensures t in items && items[0].fireTime <= t.fireTime {
      assert t in multiset(items');
      assert t in multiset(items);
    }
  }

  lemma ReadingLater(
    heap: multiset<Timer>, items: seq<Timer>, sendings: seq<Sending>, start: int, last: int, now: int)
    requires SentSoFar(heap, items, sendings, start, last) && last <= now
    ensures SentSoFar(heap, items, sendings, start, now)
  {
  }

  class TimerTaskQueue {
    const nextPreloadTimer: LocalTimerGate
    const nextFiringTimer: LocalTimerGate
    const triggerPollTimer: LocalTimerGate
    const clock: Clock
    var currMaxLoadedTaskSequence: int
    var currWindowTimestamp: int
    var remainingToFireTimersHeap: TimerTaskPriorityQueue
    var triggeredPollingChan: seq<seq<int>>
    var currentNotifyRequests: seq<seq<int>>
    var tasksToProcess: seq<Sending>

    ghost predicate Valid()
      reads this, remainingToFireTimersHeap
    {
      && nextPreloadTimer != nextFiringTimer && nextPreloadTimer != triggerPollTimer
      && nextFiringTimer != triggerPollTimer
      && MinFirst(remainingToFireTimersHeap.items)
    }

    ghost function State(): QueueState
      reads this, nextPreloadTimer, nextFiringTimer, triggerPollTimer, remainingToFireTimersHeap
    {
      QueueState(
        nextPreloadTimer.State(), nextFiringTimer.State(), triggerPollTimer.State(),
        currMaxLoadedTaskSequence, currWindowTimestamp, multiset(remainingToFireTimersHeap.items),
        triggeredPollingChan, currentNotifyRequests, tasksToProcess)
    }

    constructor (start: int)
      ensures Valid() && State() == NEW_QUEUE && clock.now == start
      ensures fresh(nextPreloadTimer) && fresh(nextFiringTimer) && fresh(triggerPollTimer)
      ensures fresh(remainingToFireTimersHeap) && fresh(clock)
    {
      nextPreloadTimer := new LocalTimerGate();
      nextFiringTimer := new LocalTimerGate();
      triggerPollTimer := new LocalTimerGate();
      clock := new Clock(start);
      currMaxLoadedTaskSequence, currWindowTimestamp := 0, 0;
      remainingToFireTimersHeap := new TimerTaskPriorityQueue([]);
      triggeredPollingChan, currentNotifyRequests, tasksToProcess := [], [], [];
      new;
      assert remainingToFireTimersHeap.items == [];
    }

    method TriggerPollingTasks(request: seq<int>)
      requires Valid()
      modifies this`triggeredPollingChan
      ensures Valid() && State() == old(State()).(channel := old(State()).channel + [request])
    {
      triggeredPollingChan := triggeredPollingChan + [request];
    }

    method FilterNotifyRequest(request: seq<int>, minTimestamp: int) returns (filtered: seq<int>, min: int)
      requires minTimestamp <= MAX_INT64
      ensures filtered == Within(request, currWindowTimestamp)
      ensures min == Min(minTimestamp, MinOf(filtered))
    {
      filtered, min := [], minTimestamp;
      for n := 0 to |request|
        invariant filtered == Within(request[..n], currWindowTimestamp)
        invariant min == Min(minTimestamp, MinOf(filtered))
      {
        assert request[..n + 1][..n] == request[..n];
        var ts := request[n];
        if ts <= currWindowTimestamp {
          assert (filtered + [ts])[..|filtered|] == filtered;
          filtered := filtered + [ts];
          if ts < min {
            min := ts;
          }
        }
      }
      assert request[..|request|] == request;
    }

    /** Filters one request and notes it, if anything is left of it. */
    method Note(request: seq<int>, minTimestamp: int) returns (min: int)
      requires minTimestamp <= MAX_INT64
      modifies this`currentNotifyRequests
      ensures currentNotifyRequests == old(currentNotifyRequests) + Accepted([request], currWindowTimestamp)
      ensures min == Min(minTimestamp, Earliest(Accepted([request], currWindowTimestamp)))
    {
      var filtered;
      filtered, min := FilterNotifyRequest(request, minTimestamp);
      assert [request][..0] == [];
      assert [filtered][..0] == [];
      MinOfIsBounded(filtered);
      if |filtered| > 0 {
        currentNotifyRequests := currentNotifyRequests + [filtered];
      }
    }

    /** Notes what is left of all waiting requests, and returns the earliest fire time among it. */
    method NoteAll(initRequest: Option<seq<int>>) returns (min: int, ghost requests: seq<seq<int>>)
      modifies this`triggeredPollingChan, this`currentNotifyRequests
      ensures requests == (if initRequest.Some? then [initRequest.value] else []) + old(triggeredPollingChan)
      ensures triggeredPollingChan == []
      ensures Noted(old(currentNotifyRequests), requests, currWindowTimestamp, currentNotifyRequests, min)
    {
      min := MAX_INT64;
      requests := [];
      assert Noted(currentNotifyRequests, requests, currWindowTimestamp, currentNotifyRequests, min);
      hide Noted;
      if initRequest.Some? {
        NotedOneMore(
          old(currentNotifyRequests), requests, initRequest.value, currWindowTimestamp, currentNotifyRequests, min);
        min := Note(initRequest.value, min);
        requests := [] + [initRequest.value];
      }
      ghost var all := requests + triggeredPollingChan;
      while |triggeredPollingChan| > 0
        invariant requests + triggeredPollingChan == all && min <= MAX_INT64
        invariant Noted(old(currentNotifyRequests), requests, currWindowTimestamp, currentNotifyRequests, min)
        decreases |triggeredPollingChan|
      {
        var request := triggeredPollingChan[0];
        triggeredPollingChan := triggeredPollingChan[1..];
        NotedOneMore(old(currentNotifyRequests), requests, request, currWindowTimestamp, currentNotifyRequests, min);
        min := Note(request, min);
        requests := requests + [request];
      }
    }

    method DrainAllNotifyRequests(initRequest: Option<seq<int>>)
      requires Valid()
      modifies this`triggeredPollingChan, this`currentNotifyRequests, triggerPollTimer
      ensures Valid()
      ensures State() == Drained(old(State()), (if initRequest.Some? then [initRequest.value] else [])
                                               + old(triggeredPollingChan))
    {
      hide Accepted, Earliest;
      var minTimestamp;
      ghost var requests;
      minTimestamp, requests := NoteAll(initRequest);
      var minTime := FromUnix(minTimestamp);
      if minTimestamp != MAX_INT64 {
        if InactiveOrFiresAfter(triggerPollTimer.State(), minTime) {
          var _ := triggerPollTimer.Update(minTime);
        }
      }
    }

    method ShouldLoadNextWindowBatch() returns (should: bool)
      requires Valid()
      ensures should <==> ShouldLoad(State())
    {
      should := !nextPreloadTimer.isActive && remainingToFireTimersHeap.Len() == 0;
    }

    /** The page is what the store answers for the window's end. */
    method LoadAndDispatchAndPrepareNext(page: seq<Timer>, size: nat, maxWindowTime: int)
      requires Valid() && Ordered(page) && forall t :: t in page ==> MIN_INT64 <= t.sequence <= MAX_INT64
      modifies this, nextPreloadTimer, nextFiringTimer, triggerPollTimer
      ensures Valid() && Loads(old(State()), State(), page, size, maxWindowTime)
      ensures remainingToFireTimersHeap == old(remainingToFireTimersHeap) || fresh(remainingToFireTimersHeap)
    {
      hide Drained, IsMinSequence, IsMaxSequence, MinFirst;
      DrainAllNotifyRequests(None);
      assert [] + old(triggeredPollingChan) == old(triggeredPollingChan);
      currentNotifyRequests := [];
      triggerPollTimer.Stop();
      var response := CreateGetTimerTaskResponse(page, Some(size));
      var windowTime := maxWindowTime;
      if |response.tasks| > 0 {
        if response.fullPage {
          windowTime := FromUnix(response.maxFire);
        }
        remainingToFireTimersHeap := NewTimerTaskPriorityQueue(response.tasks);
        var minTask := remainingToFireTimersHeap.items[0];
        FirstOfPage(page, remainingToFireTimersHeap.items);
        var _ := nextFiringTimer.Update(FromUnix(minTask.fireTime));
      }
      var _ := nextPreloadTimer.Update(windowTime);
      currWindowTimestamp := ToUnix(windowTime);
      currMaxLoadedTaskSequence := response.maxSequence;
    }

    lemma FirstOfPage(page: seq<Timer>, items: seq<Timer>)
      requires Ordered(page) && page != [] && MinFirst(items) && multiset(items) == multiset(page)
      ensures items != [] && items[0].fireTime == page[0].fireTime
    {
      assert |items| == |multiset(items)| && |page| == |multiset(page)|;
      FirstIsEarliest(page);
      assert items[0] in multiset(items) && page[0] in multiset(page);
      assert items[0] in page && page[0] in items;
    }

    /** Pops and sends while the clock has reached the earliest timer, then moves the firing gate. */
    method SendDue() returns (ghost sendings: seq<Sending>, ghost last: int)
      requires Valid()
      modifies this`tasksToProcess, remainingToFireTimersHeap, nextFiringTimer, clock
      ensures Valid() && old(clock.now) <= clock.now == last
      ensures tasksToProcess == old(tasksToProcess) + sendings
      ensures SentSoFar(old(multiset(remainingToFireTimersHeap.items)), remainingToFireTimersHeap.items, sendings,
                        old(clock.now), last)
      ensures var items := remainingToFireTimersHeap.items;
        && (items != [] ==> ToUnix(last) < items[0].fireTime)
        && nextFiringTimer.State() == if items == [] then old(nextFiringTimer.State())
                                      else Updated(old(nextFiringTimer.State()), FromUnix(items[0].fireTime))
    {
      sendings, last := [], clock.now;
      assert SentSoFar(old(multiset(remainingToFireTimersHeap.items)), remainingToFireTimersHeap.items, sendings,
                       last, last);
      hide SentSoFar, MinFirst;
      while remainingToFireTimersHeap.Len() > 0
        invariant Valid() && old(clock.now) <= clock.now == last
        invariant nextFiringTimer.State() == old(nextFiringTimer.State())
        invariant tasksToProcess == old(tasksToProcess) + sendings
        invariant SentSoFar(old(multiset(remainingToFireTimersHeap.items)), remainingToFireTimersHeap.items, sendings,
                            old(clock.now), last)
        decreases |remainingToFireTimersHeap.items|
      {
        ghost var items := remainingToFireTimersHeap.items;
        var minTask := remainingToFireTimersHeap.items[0];
        var now := clock.Now();
        if minTask.fireTime <= ToUnix(now) {
          var _ := HeapPop(remainingToFireTimersHeap);
          Smaller(remainingToFireTimersHeap.items, minTask, items);
          tasksToProcess := tasksToProcess + [Sending(minTask, now)];
          SendingOneMore(old(multiset(remainingToFireTimersHeap.items)), items, remainingToFireTimersHeap.items,
                         sendings, old(clock.now), last, now);
          sendings, last := sendings + [Sending(minTask, now)], now;
        } else {
          ReadingLater(old(multiset(remainingToFireTimersHeap.items)), items, sendings, old(clock.now), last, now);
          last := now;
          var _ := nextFiringTimer.Update(FromUnix(minTask.fireTime));
          break;
        }
      }
    }

    method SendAllFiredTimerTasksToProcessor() returns (ghost sendings: seq<Sending>, ghost last: int)
      requires Valid()
      modifies this`tasksToProcess, remainingToFireTimersHeap, nextFiringTimer, clock
      ensures Valid() && old(clock.now) <= clock.now
      ensures Sends(old(State()), State(), sendings, last) && last == clock.now
      ensures forall n :: 0 <= n < |sendings| ==> old(clock.now) <= sendings[n].at
    {
      sendings, last := [], clock.now;
      if remainingToFireTimersHeap.Len() == 0 {
        return;
      }
      sendings, last := SendDue();
      if remainingToFireTimersHeap.items != [] {
        FirstIsMinimum(remainingToFireTimersHeap.items);
      }
      hide TimersOf;
      assert forall t :: t in multiset(remainingToFireTimersHeap.items) ==> t in remainingToFireTimersHeap.items;
    }

    lemma Smaller(items: seq<Timer>, t: Timer, all: seq<Timer>)
      requires multiset(items) + multiset{t} == multiset(all)
      ensures |items| < |all|
    {
      assert |multiset(items)| == |items| && |multiset(all)| == |all|;
    }

    /** The page is what the store answers for the pending requests. */
    method TriggeredPolling(page: seq<Timer>)
      requires Valid() && Ordered(page) && forall t :: t in page ==> MIN_INT64 <= t.sequence <= MAX_INT64
      modifies this`currentNotifyRequests, this`currMaxLoadedTaskSequence, remainingToFireTimersHeap, nextFiringTimer
      ensures Valid() && Polls(old(State()), State(), page)
    {
      if |currentNotifyRequests| == 0 {
        return;
      }
      var response := CreateGetTimerTaskResponse(page, None);
      currentNotifyRequests := [];
      if |response.tasks| > 0 {
        currMaxLoadedTaskSequence := response.maxSequence;
        PushAll(remainingToFireTimersHeap, response.tasks);
        var minTime := FromUnix(response.minFire);
        if InactiveOrFiresAfter(nextFiringTimer.State(), minTime) {
          var _ := nextFiringTimer.Update(minTime);
        }
      }
    }

    // ---------- the cases of the event loop ----------

    method OnPreload(load: Load, ghost rows: set<Timer>)
      requires Valid() && nextPreloadTimer.fireChan && Table(rows) && 0 < load.size
      requires FirstPage(rows, ToUnix(load.maxWindowTime), load.size, load.page)
      modifies this, nextPreloadTimer, nextFiringTimer, triggerPollTimer
      ensures Valid()
      ensures var s := old(State()).(preload := Consumed(old(State()).preload));
        MayLoad(rows, s, State(), if ShouldLoad(s) then Some(load) else None)
    {
      nextPreloadTimer.Consume();
      var should := ShouldLoadNextWindowBatch();
      if should {
        LoadAndDispatchAndPrepareNext(load.page, load.size, load.maxWindowTime);
      }
    }

    method OnFiring(load: Load, ghost rows: set<Timer>)
      returns (ghost sendings: seq<Sending>, ghost last: int, ghost loaded: Option<Load>)
      requires Valid() && nextFiringTimer.fireChan && Table(rows) && 0 < load.size
      requires FirstPage(rows, ToUnix(load.maxWindowTime), load.size, load.page)
      modifies this, nextPreloadTimer, nextFiringTimer, triggerPollTimer, remainingToFireTimersHeap, clock
      ensures Valid()
      ensures loaded == None || loaded == Some(load)
      ensures SendsAndLoads(
                rows, old(State()).(firing := Consumed(old(State()).firing)), State(), sendings, last, loaded)
    {
      nextFiringTimer.Consume();
      sendings, last := SendAllFiredTimerTasksToProcessor();
      ghost var mid := State();
      var should := ShouldLoadNextWindowBatch();
      if should {
        LoadAndDispatchAndPrepareNext(load.page, load.size, load.maxWindowTime);
      }
      loaded := if should then Some(load) else None;
      assert MayLoad(rows, mid, State(), loaded);
    }

    method OnNotified()
      requires Valid() && triggeredPollingChan != []
      modifies this`triggeredPollingChan, this`currentNotifyRequests, triggerPollTimer
      ensures Valid() && State() == Drained(old(State()), old(State()).channel)
    {
      var request := triggeredPollingChan[0];
      triggeredPollingChan := triggeredPollingChan[1..];
      assert [request] + triggeredPollingChan == old(triggeredPollingChan);
      DrainAllNotifyRequests(Some(request));
    }

    method OnTrigger(page: seq<Timer>, ghost rows: set<Timer>)
      requires Valid() && triggerPollTimer.fireChan && Table(rows)
      requires TimersFor(rows, currentNotifyRequests, currMaxLoadedTaskSequence + 1, page)
      modifies this`currentNotifyRequests, this`currMaxLoadedTaskSequence
      modifies remainingToFireTimersHeap, nextFiringTimer, triggerPollTimer
      ensures Valid()
      ensures Polls(old(State()).(trigger := Consumed(old(State()).trigger)), State(), page)
    {
      triggerPollTimer.Consume();
      TriggeredPolling(page);
    }
  }
}
